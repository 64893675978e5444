/** The 3x3 board of the game: the two markers, the nine cells, the fixed
    table of winning lines, and the two board predicates the click handler
    consults (a line owned by one marker, and a board with no empty cell). */
module Board {

  /** The two markers; `X` always moves first. */
  datatype Player = X | O

  /** One board position: empty (the source's `null`) or holding a marker. */
  datatype Cell = Empty | Mark(owner: Player)

  /** Number of cells; index `3 * row + column`, row-major. */
  const Size: nat := 9

  /** The marker that moves after `p`. */
  function Other(p: Player): (q: Player)
    ensures q != p
  {
    if p == X then O else X
  }

  /** Index of the cell in row `row` and column `col`. */
  function Index(row: nat, col: nat): (k: nat)
    requires row < 3 && col < 3
    ensures k < Size && k / 3 == row && k % 3 == col
  {
    3 * row + col
  }

  /** Three cell indices that make a line. */
  type Triple = (nat, nat, nat)

  /** The eight winning triples: three rows, three columns, two diagonals. */
  const WinConditions: seq<Triple> :=
    [(0, 1, 2), (3, 4, 5), (6, 7, 8),
     (0, 3, 6), (1, 4, 7), (2, 5, 8),
     (0, 4, 8), (2, 4, 6)]

  /** Every index of every triple addresses a cell of a board of length `n`. */
  predicate LinesWithin(lines: seq<Triple>, n: nat)
  {
    forall t | 0 <= t < |lines| :: lines[t].0 < n && lines[t].1 < n && lines[t].2 < n
  }

  function Row(r: nat): Triple
    requires r < 3
  {
    (Index(r, 0), Index(r, 1), Index(r, 2))
  }

  function Column(c: nat): Triple
    requires c < 3
  {
    (Index(0, c), Index(1, c), Index(2, c))
  }

  function Diagonal(): Triple
  {
    (Index(0, 0), Index(1, 1), Index(2, 2))
  }

  function AntiDiagonal(): Triple
  {
    (Index(0, 2), Index(1, 1), Index(2, 0))
  }

  /** The table holds exactly the rows, the columns and the two diagonals of
      the row-major 3x3 grid, each as three cells of the board. */
  lemma WinConditionsAreTheLines()
    ensures |WinConditions| == 8
    ensures LinesWithin(WinConditions, Size)
    ensures WinConditions == [Row(0), Row(1), Row(2),
                              Column(0), Column(1), Column(2),
                              Diagonal(), AntiDiagonal()]
  {
  }

  /** All three cells of `line` hold `p`'s marker (the inner `every` of checkWin). */
  predicate Owns(cells: seq<Cell>, line: Triple, p: Player)
  {
    && line.0 < |cells| && line.1 < |cells| && line.2 < |cells|
    && cells[line.0] == Mark(p) && cells[line.1] == Mark(p) && cells[line.2] == Mark(p)
  }

  /** The outer `some` of checkWin: some triple from position `k` of the
      table onwards is owned by `p`, tried in the table's order. */
  function SomeOwnedFrom(cells: seq<Cell>, p: Player, k: nat): bool
    decreases |WinConditions| - k
  {
    k < |WinConditions| && (Owns(cells, WinConditions[k], p) || SomeOwnedFrom(cells, p, k + 1))
  }

  /** The `some` holds exactly when one of the triples it still has to try is owned. */
  lemma {:induction false} SomeOwnedFromMeaning(cells: seq<Cell>, p: Player, k: nat)
    ensures SomeOwnedFrom(cells, p, k) <==>
              exists t | k <= t < |WinConditions| :: Owns(cells, WinConditions[t], p)
    decreases |WinConditions| - k
  {
    if k < |WinConditions| {
      SomeOwnedFromMeaning(cells, p, k + 1);
    }
  }

  /** checkWin: `p` wins exactly when it owns one of the eight winning triples. */
  function Wins(cells: seq<Cell>, p: Player): (r: bool)
    ensures r <==> exists t | 0 <= t < |WinConditions| :: Owns(cells, WinConditions[t], p)
  {
    SomeOwnedFromMeaning(cells, p, 0);
    SomeOwnedFrom(cells, p, 0)
  }

  /** checkDraw: no cell is empty (the handler calls this a draw only when
      the mover has not also won). */
  function Full(cells: seq<Cell>): (r: bool)
    ensures r <==> forall i | 0 <= i < |cells| :: cells[i] != Empty
    decreases |cells|
  {
    |cells| == 0 || (cells[0] != Empty && Full(cells[1..]))
  }

  /** Number of cells holding `p`'s marker. */
  function Count(cells: seq<Cell>, p: Player): nat
  {
    multiset(cells)[Mark(p)]
  }

  /** Writing `p` into an empty cell can neither give nor take a winning line
      from the other marker. */
  lemma MarkKeepsOtherWins(cells: seq<Cell>, i: nat, p: Player)
    requires |cells| == Size && i < Size && cells[i] == Empty
    ensures Wins(cells[i := Mark(p)], Other(p)) == Wins(cells, Other(p))
  {
    var after := cells[i := Mark(p)];
    assert forall t | 0 <= t < |WinConditions| ::
      Owns(after, WinConditions[t], Other(p)) == Owns(cells, WinConditions[t], Other(p));
  }

  /** Writing `p` into an empty cell adds one `p` and leaves the other
      marker's count alone. */
  lemma MarkCounts(cells: seq<Cell>, i: nat, p: Player)
    requires i < |cells| && cells[i] == Empty
    ensures Count(cells[i := Mark(p)], p) == Count(cells, p) + 1
    ensures Count(cells[i := Mark(p)], Other(p)) == Count(cells, Other(p))
  {
    assert multiset(cells[i := Mark(p)]) == multiset(cells) - multiset{Empty} + multiset{Mark(p)};
  }
}
