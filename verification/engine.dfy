/** The game-state engine: a click on a cell, the win-before-draw decision,
    the turn flip, the terminal freeze and the reset. `Step` gives the
    meaning of one click on a state value; the `Game` class holds the board
    array, the current marker and the input flag and is proved to follow it. */
module Engine {
  import opened Board

  /** Which branch a click took: nothing happened (occupied cell or board
      disabled), the game goes on, the mover won, or the board filled up
      without a win. */
  datatype Outcome = Ignored | Continue | Won(winner: Player) | Draw

  /** The engine's state: the nine cells, the marker to write on the next
      click, and whether the cells still listen for clicks. */
  datatype State = State(cells: seq<Cell>, current: Player, enabled: bool)

  datatype StepResult = StepResult(state: State, outcome: Outcome)

  /** Page load and reset: nine empty cells, `X` to move, input enabled. */
  const Initial: State := State(seq(Size, _ => Empty), X, true)

  /** The marker whose turn it is under strict alternation from `X`. */
  function ToMove(cells: seq<Cell>): Player
  {
    if Count(cells, X) == Count(cells, O) then X else O
  }

  /** What every state reachable from `Initial` satisfies. While input is
      enabled nobody has a line, the board is not full, and `current` is
      the marker the counts say moves next. Once disabled, `current` is the
      marker that made the last move, and it either owns a line or filled
      the board, while the other marker owns none. */
  predicate Consistent(s: State)
  {
    && |s.cells| == Size
    && (Count(s.cells, X) == Count(s.cells, O) || Count(s.cells, X) == Count(s.cells, O) + 1)
    && (s.enabled ==>
          && s.current == ToMove(s.cells)
          && !Wins(s.cells, X) && !Wins(s.cells, O)
          && !Full(s.cells))
    && (!s.enabled ==>
          && s.current == Other(ToMove(s.cells))
          && !Wins(s.cells, Other(s.current))
          && (Wins(s.cells, s.current) || Full(s.cells)))
  }

  /** A click on cell `i` (handleCellClick). On a disabled board the click
      is ignored, because the listener that would call the handler is gone. */
  function Step(s: State, i: nat): (r: StepResult)
    requires |s.cells| == Size && i < Size
    ensures |r.state.cells| == Size
  {
    if !s.enabled || s.cells[i] != Empty then
      StepResult(s, Ignored)
    else
      var cells := s.cells[i := Mark(s.current)];
      if Wins(cells, s.current) then
        StepResult(State(cells, s.current, false), Won(s.current))
      else if Full(cells) then
        StepResult(State(cells, s.current, false), Draw)
      else
        StepResult(State(cells, Other(s.current), true), Continue)
  }

  /** The clicks `moves`, one after another. */
  function Run(s: State, moves: seq<nat>): (r: State)
    requires |s.cells| == Size
    requires forall k | 0 <= k < |moves| :: moves[k] < Size
    ensures |r.cells| == Size
    decreases |moves|
  {
    if |moves| == 0 then s else Run(Step(s, moves[0]).state, moves[1..])
  }

  /** The initial state is consistent. */
  lemma InitialConsistent()
    ensures Consistent(Initial)
    ensures forall i | 0 <= i < Size :: Initial.cells[i] == Empty
  {
    assert multiset(Initial.cells)[Mark(X)] == 0;
    assert multiset(Initial.cells)[Mark(O)] == 0;
    assert Initial.cells[0] == Empty;
  }

  /** A click on an occupied cell, or any click once the board is disabled,
      changes nothing; a click on an empty cell of an enabled board writes
      the current marker there and nowhere else. */
  lemma StepWrites(s: State, i: nat)
    requires |s.cells| == Size && i < Size
    ensures Step(s, i).outcome == Ignored <==> !s.enabled || s.cells[i] != Empty
    ensures Step(s, i).outcome == Ignored ==> Step(s, i).state == s
    ensures Step(s, i).outcome != Ignored ==>
              Step(s, i).state.cells == s.cells[i := Mark(s.current)]
  {
  }

  /** The mover wins exactly when it now owns one of the eight triples, even
      if that move also fills the board; a draw is reported exactly when the
      board is full and the mover owns no triple; nobody else ever wins. */
  lemma StepDecides(s: State, i: nat)
    requires Consistent(s) && i < Size && s.enabled && s.cells[i] == Empty
    ensures var after := Step(s, i).state.cells;
      && (Step(s, i).outcome == Won(s.current) <==>
            exists t | 0 <= t < |WinConditions| :: Owns(after, WinConditions[t], s.current))
      && (Step(s, i).outcome == Draw <==>
            && (forall j | 0 <= j < Size :: after[j] != Empty)
            && !exists t | 0 <= t < |WinConditions| :: Owns(after, WinConditions[t], s.current))
      && (Step(s, i).outcome.Won? ==> !Wins(after, Other(s.current)))
      && (Step(s, i).outcome == Draw ==> !Wins(after, X) && !Wins(after, O))
      && (Step(s, i).outcome.Won? ==> Step(s, i).outcome.winner == s.current)
      && (Step(s, i).outcome == Continue <==> !Wins(after, s.current) && !Full(after))
  {
    MarkKeepsOtherWins(s.cells, i, s.current);
  }

  /** The marker flips after a move that leaves the game going and stays put
      after a win or a draw; input is disabled exactly by a win or a draw. */
  lemma StepTurns(s: State, i: nat)
    requires |s.cells| == Size && i < Size
    ensures var r := Step(s, i);
      && r.state.current == (if r.outcome == Continue then Other(s.current) else s.current)
      && r.state.enabled == (s.enabled && (r.outcome == Ignored || r.outcome == Continue))
  {
  }

  /** Every click keeps the state consistent. */
  lemma StepPreservesConsistent(s: State, i: nat)
    requires Consistent(s) && i < Size
    ensures Consistent(Step(s, i).state)
  {
    if s.enabled && s.cells[i] == Empty {
      var p := s.current;
      var cells := s.cells[i := Mark(p)];
      MarkCounts(s.cells, i, p);
      MarkKeepsOtherWins(s.cells, i, p);
      assert Other(p) == ToMove(cells);
    }
  }

  /** Any sequence of clicks keeps the state consistent. */
  lemma {:induction false} RunPreservesConsistent(s: State, moves: seq<nat>)
    requires Consistent(s)
    requires forall k | 0 <= k < |moves| :: moves[k] < Size
    ensures Consistent(Run(s, moves))
    decreases |moves|
  {
    if |moves| > 0 {
      StepPreservesConsistent(s, moves[0]);
      RunPreservesConsistent(Step(s, moves[0]).state, moves[1..]);
    }
  }

  /** Every state the clicks can reach from page load is consistent: the
      marker counts differ by at most one in X's favour, and the marker to
      move is the one strict alternation from X picks. */
  lemma ReachableConsistent(moves: seq<nat>)
    requires forall k | 0 <= k < |moves| :: moves[k] < Size
    ensures Consistent(Run(Initial, moves))
  {
    InitialConsistent();
    RunPreservesConsistent(Initial, moves);
  }

  /** Once a win or a draw has disabled the board, no sequence of clicks
      changes anything. */
  lemma {:induction false} DisabledIgnoresClicks(s: State, moves: seq<nat>)
    requires |s.cells| == Size && !s.enabled
    requires forall k | 0 <= k < |moves| :: moves[k] < Size
    ensures Run(s, moves) == s
    decreases |moves|
  {
    if |moves| > 0 {
      DisabledIgnoresClicks(Step(s, moves[0]).state, moves[1..]);
    }
  }

  /** The board, the marker to write next and the click listeners. */
  class Game {
    const board: array<Cell>
    var current: Player
    var enabled: bool

    /** The state value this object stands for. */
    ghost function Snapshot(): State
      reads this, board
    {
      State(board[..], current, enabled)
    }

    ghost predicate Valid()
      reads this, board
    {
      board.Length == Size && Consistent(Snapshot())
    }

    /** Page load: an empty board, `X` to move, listeners attached. */
    constructor ()
      ensures Valid() && fresh(board)
      ensures Snapshot() == Initial
    {
      board := new Cell[Size](_ => Empty);
      current := X;
      enabled := true;
      new;
      assert board[..] == Initial.cells;
      InitialConsistent();
    }

    /** A click on cell `i`. */
    method Click(i: nat) returns (outcome: Outcome)
      requires Valid() && i < Size
      modifies this, board
      ensures Valid()
      ensures StepResult(Snapshot(), outcome) == Step(old(Snapshot()), i)
    {
      ghost var before := Snapshot();
      StepPreservesConsistent(before, i);
      if !enabled || board[i] != Empty {
        return Ignored;
      }
      board[i] := Mark(current);
      assert board[..] == before.cells[i := Mark(current)];
      if Wins(board[..], current) {
        enabled := false;
        outcome := Won(current);
      } else if Full(board[..]) {
        enabled := false;
        outcome := Draw;
      } else {
        current := Other(current);
        outcome := Continue;
      }
    }

    /** resetGame: every cell emptied, `X` to move, listeners attached again. */
    method Reset()
      requires board.Length == Size
      modifies this, board
      ensures Valid()
      ensures Snapshot() == Initial
    {
      var k := 0;
      while k < board.Length
        invariant 0 <= k <= board.Length
        invariant forall j | 0 <= j < k :: board[j] == Empty
      {
        board[k] := Empty;
        k := k + 1;
      }
      current := X;
      enabled := true;
      assert board[..] == Initial.cells;
      InitialConsistent();
    }
  }
}
