# Tic-tac-toe game-state engine, in Dafny

A model of the game logic in `Script.js`: the nine-cell board, the marker
whose turn it is, the table of eight winning triples, the click handler
(`handleCellClick`) with its win-before-draw decision and turn flip, the
terminal freeze (`disableBoard`), the reset (`resetGame`), and the name gate
of the entry page (`startGame`) with the name read-back of the board page
(`initGamePage`).

- `board.dfy`, module `Board`: the markers `X` and `O`, the cells (`Empty`
  stands for the source's `null`), the win table, `Wins` (checkWin, the
  table's `some` over triples, each an `every` over three cells) and `Full`
  (checkDraw). Pure functions, with lemmas giving each its meaning.
- `engine.dfy`, module `Engine`: `Step` is the meaning of one click on a
  state value (cells, current marker, input enabled); `Consistent` is the
  invariant strict alternation from `X` implies; `Run` plays a sequence of
  clicks. The class `Game` holds the board as a fixed array of nine cells
  (the source's `const board`), the current marker and an `enabled` flag
  that stands for the click listeners on the cells. Its `Click` method is
  proved to follow `Step` and to keep `Consistent`; `Reset` empties the array
  in a loop (`board.fill(null)`), sets `X` to move and re-enables input.
- `session.dfy`, module `Session`: `Trim`, the name gate over a store that
  holds at most one name (`localStorage`), and the read-back that either
  greets the stored name or sends the player back.
- `scenarios.dfy`, module `Scenarios`: whole games played click by click on
  a `Game` object, each result proved.

A click that changes nothing returns the outcome `Ignored`. This covers a
click on an occupied cell and a click after a win or a draw. In the source
the handler returns nothing. On a disabled board it is not even called,
because its listeners were removed.

## Model

| member | source | states |
|---|---|---|
| Board.Other | Script.js:67 | the marker after `p` is the other one |
| Board.WinConditionsAreTheLines | Script.js:42-51 | the table has eight triples of board indices: the three rows, the three columns and the two diagonals of the row-major 3x3 grid |
| Board.SomeOwnedFromMeaning | Script.js:74-78 | the `some` over the table from position `k` holds exactly when some triple from `k` on has all three cells equal to `p` |
| Board.Wins | Script.js:73-79 | checkWin(p) holds exactly when one of the eight triples has all three cells equal to `p` |
| Board.Full | Script.js:82-84 | checkDraw holds exactly when no cell is empty |
| Board.MarkKeepsOtherWins | Script.js:58-59 | writing `p` into an empty cell neither gives nor takes a winning triple from the other marker |
| Board.MarkCounts | Script.js:58 | writing `p` into an empty cell adds one `p` and leaves the other marker's count unchanged |
| Engine.InitialConsistent | Script.js:40-41 | the initial state has nine empty cells, `X` to move, and satisfies the alternation invariant |
| Engine.Step | Script.js:54-70 | the click handler on a state value; its contract keeps the board at nine cells, and its meaning is stated by the StepWrites, StepDecides and StepTurns rows below |
| Engine.StepWrites | Script.js:54-58 | a click is ignored exactly when the cell is occupied or input is disabled, and then nothing changes; otherwise the current marker is written into cell `i` and the other eight cells are unchanged |
| Engine.StepDecides | Script.js:59-65 | after a move the mover has won exactly when it owns a triple, even when the board is also full; a draw is reported exactly when every cell is taken and the mover owns no triple; a move that neither completes a triple nor fills the board lets the game continue; a reported winner is always the mover, and the other marker then owns no triple; after a draw neither marker owns one |
| Engine.StepTurns | Script.js:59-68 | the marker flips only after a move that neither wins nor fills the board, and is otherwise unchanged; input is switched off exactly by a win or a draw |
| Engine.StepPreservesConsistent | Script.js:54-70 | every click keeps the invariant: X-count equals O-count or exceeds it by one; while enabled, nobody owns a triple, the board is not full and the counts decide who moves; once disabled, the last mover owns a triple or filled the board, and the other marker owns none |
| Engine.RunPreservesConsistent | Script.js:54-70 | any sequence of clicks keeps that invariant |
| Engine.ReachableConsistent | Script.js:40-70 | every state reachable by clicks from page load satisfies the invariant |
| Engine.DisabledIgnoresClicks | Script.js:106-111 | once a win or a draw has disabled input, no sequence of clicks changes anything |
| Engine.Game.constructor | Script.js:30-41 | page load: nine empty cells, `X` to move, listeners attached, invariant established |
| Engine.Game.Click | Script.js:54-70 | the new cells, marker, input flag and returned outcome are those of `Step` on the old state, and the invariant is kept |
| Engine.Game.Reset | Script.js:114-126 | from any nine-cell board: every cell emptied, `X` to move, input enabled, invariant re-established |
| Session.TrimStart | Script.js:8 | the result is a suffix of the input; what was dropped is all whitespace; the result does not start with whitespace |
| Session.TrimEnd | Script.js:8 | the result is a prefix of the input; what was dropped is all whitespace; the result does not end with whitespace |
| Session.Trim | Script.js:8 | the trimmed name neither starts nor ends with whitespace and is no longer than the input |
| Session.TrimIsInfix | Script.js:8 | the trimmed name is a contiguous part of the input, with only whitespace before and after it |
| Session.TrimEmptyIffBlank | Script.js:8-9 | trimming leaves nothing exactly when the input is all whitespace |
| Session.TrimIdempotent | Script.js:8 | trimming a trimmed name changes nothing |
| Session.StartGame | Script.js:7-16 | the game page is opened exactly when the input holds a non-whitespace character, and the store then holds the trimmed input; otherwise the store is unchanged |
| Session.GreetedName | Script.js:20-27 | the board page redirects exactly when nothing, or an empty string, is stored; otherwise it greets the stored name |
| Session.StartThenGreet | Script.js:7-23 | a name accepted on the entry page is the name greeted on the board page, trimmed at both ends |
| Session.BlankInputKeepsGreeting | Script.js:8-16 | a blank input changes neither the store nor the name the board page greets |
| Scenarios.TopRowGame | Script.js:54-70 | clicks 0, 4, 1, 3, 2 end with X winning on the top row 0, 1, 2 |
| Scenarios.DrawGame | Script.js:54-70 | clicks 0, 1, 2, 4, 3, 5, 7, 6, 8 end in a draw |
| Scenarios.DiagonalGame | Script.js:59-65 | clicks 0, 1, 2, 3, 4, 5, 7, 6, 8 leave every cell taken, with X on the diagonal 0, 4, 8, and the outcome is a win for X, not a draw |
| Scenarios.RepeatedClickGame | Script.js:54-56 | after X takes cell 0, a second click on cell 0 is ignored, the board is unchanged and O is still to move |
| Scenarios.ResetAfterWinGame | Script.js:114-126 | after X's win a further click is ignored, and a reset brings back nine empty cells, X to move and input enabled |

## Left out

- Rendering: writing markers into cells (Script.js:57, 117), `displayMessage` (Script.js:87-92), and `alert` (Script.js:15). The click outcome records which message would be shown.
- `highlightWinningCells` (Script.js:95-103): pure DOM work. As written it marks the cells of all eight triples, so every cell, and not only the winning line.
- The listeners as DOM operations (Script.js:31-33, 106-111, 123-125): they are modelled only as the `enabled` flag. Attaching the same handler twice has no effect in the DOM, so reset simply sets the flag.
- Engine.Game.Reset: the removal of the `.game-message` node (Script.js:122) is left out. It throws when no message exists, which happens on a reset in mid-game. That exception comes after the board and the marker have been reset. In mid-game the listeners are still attached, so the state that results is the one modelled.
- Page routing through `window.location` (Script.js:4, 13, 26, 129-136). `initGamePage` goes on to attach the listeners even after asking for a redirect. The `Game` constructor stands for that wiring whether or not a name is stored.
- `localStorage` is modelled as an `Option<string>` store passed in and returned; persistence across pages is not modelled.
- Reading the cell index from the element id with `parseInt` (Script.js:55) is left out. `Click` requires an index below 9, as the nine fixed cell ids provide.
- Session.Trim: only ASCII whitespace (space, tab, line feed, vertical tab, form feed, carriage return) is removed. JavaScript's `trim` also removes the other Unicode space separators, the no-break space, the byte-order mark and the line terminators U+2028 and U+2029.
