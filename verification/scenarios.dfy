/** The concrete games the engine is expected to play out, click by click.
    Each `…N` lemma is the N-th click of one game on the board it finds;
    the scenario methods play the clicks on a `Game` object and chain those
    lemmas through the postconditions of `Game.Click`. */
module Scenarios {
  import opened Board
  import opened Engine

  lemma Opening1()
    ensures Step(Initial, 0)
         == StepResult(State([Mark(X), Empty, Empty, Empty, Empty, Empty, Empty, Empty, Empty], O, true), Continue)
  {
    var after := [Mark(X), Empty, Empty, Empty, Empty, Empty, Empty, Empty, Empty];
    assert Initial.cells[0 := Mark(X)] == after;
    assert !Wins(after, X);
    assert !Full(after);
  }

  lemma Opening2()
    ensures Step(State([Mark(X), Empty, Empty, Empty, Empty, Empty, Empty, Empty, Empty], O, true), 1)
         == StepResult(State([Mark(X), Mark(O), Empty, Empty, Empty, Empty, Empty, Empty, Empty], X, true), Continue)
  {
    var after := [Mark(X), Mark(O), Empty, Empty, Empty, Empty, Empty, Empty, Empty];
    assert [Mark(X), Empty, Empty, Empty, Empty, Empty, Empty, Empty, Empty][1 := Mark(O)] == after;
    assert !Wins(after, O);
    assert !Full(after);
  }

  lemma Opening3()
    ensures Step(State([Mark(X), Mark(O), Empty, Empty, Empty, Empty, Empty, Empty, Empty], X, true), 2)
         == StepResult(State([Mark(X), Mark(O), Mark(X), Empty, Empty, Empty, Empty, Empty, Empty], O, true), Continue)
  {
    var after := [Mark(X), Mark(O), Mark(X), Empty, Empty, Empty, Empty, Empty, Empty];
    assert [Mark(X), Mark(O), Empty, Empty, Empty, Empty, Empty, Empty, Empty][2 := Mark(X)] == after;
    assert !Wins(after, X);
    assert !Full(after);
  }

  lemma TopRow2()
    ensures Step(State([Mark(X), Empty, Empty, Empty, Empty, Empty, Empty, Empty, Empty], O, true), 4)
         == StepResult(State([Mark(X), Empty, Empty, Empty, Mark(O), Empty, Empty, Empty, Empty], X, true), Continue)
  {
    var after := [Mark(X), Empty, Empty, Empty, Mark(O), Empty, Empty, Empty, Empty];
    assert [Mark(X), Empty, Empty, Empty, Empty, Empty, Empty, Empty, Empty][4 := Mark(O)] == after;
    assert !Wins(after, O);
    assert !Full(after);
  }

  lemma TopRow3()
    ensures Step(State([Mark(X), Empty, Empty, Empty, Mark(O), Empty, Empty, Empty, Empty], X, true), 1)
         == StepResult(State([Mark(X), Mark(X), Empty, Empty, Mark(O), Empty, Empty, Empty, Empty], O, true), Continue)
  {
    var after := [Mark(X), Mark(X), Empty, Empty, Mark(O), Empty, Empty, Empty, Empty];
    assert [Mark(X), Empty, Empty, Empty, Mark(O), Empty, Empty, Empty, Empty][1 := Mark(X)] == after;
    assert !Wins(after, X);
    assert !Full(after);
  }

  lemma TopRow4()
    ensures Step(State([Mark(X), Mark(X), Empty, Empty, Mark(O), Empty, Empty, Empty, Empty], O, true), 3)
         == StepResult(State([Mark(X), Mark(X), Empty, Mark(O), Mark(O), Empty, Empty, Empty, Empty], X, true), Continue)
  {
    var after := [Mark(X), Mark(X), Empty, Mark(O), Mark(O), Empty, Empty, Empty, Empty];
    assert [Mark(X), Mark(X), Empty, Empty, Mark(O), Empty, Empty, Empty, Empty][3 := Mark(O)] == after;
    assert !Wins(after, O);
    assert !Full(after);
  }

  lemma TopRow5()
    ensures Step(State([Mark(X), Mark(X), Empty, Mark(O), Mark(O), Empty, Empty, Empty, Empty], X, true), 2)
         == StepResult(State([Mark(X), Mark(X), Mark(X), Mark(O), Mark(O), Empty, Empty, Empty, Empty], X, false), Won(X))
  {
    var after := [Mark(X), Mark(X), Mark(X), Mark(O), Mark(O), Empty, Empty, Empty, Empty];
    assert [Mark(X), Mark(X), Empty, Mark(O), Mark(O), Empty, Empty, Empty, Empty][2 := Mark(X)] == after;
    assert Wins(after, X);
  }

  lemma Draw4()
    ensures Step(State([Mark(X), Mark(O), Mark(X), Empty, Empty, Empty, Empty, Empty, Empty], O, true), 4)
         == StepResult(State([Mark(X), Mark(O), Mark(X), Empty, Mark(O), Empty, Empty, Empty, Empty], X, true), Continue)
  {
    var after := [Mark(X), Mark(O), Mark(X), Empty, Mark(O), Empty, Empty, Empty, Empty];
    assert [Mark(X), Mark(O), Mark(X), Empty, Empty, Empty, Empty, Empty, Empty][4 := Mark(O)] == after;
    assert !Wins(after, O);
    assert !Full(after);
  }

  lemma Draw5()
    ensures Step(State([Mark(X), Mark(O), Mark(X), Empty, Mark(O), Empty, Empty, Empty, Empty], X, true), 3)
         == StepResult(State([Mark(X), Mark(O), Mark(X), Mark(X), Mark(O), Empty, Empty, Empty, Empty], O, true), Continue)
  {
    var after := [Mark(X), Mark(O), Mark(X), Mark(X), Mark(O), Empty, Empty, Empty, Empty];
    assert [Mark(X), Mark(O), Mark(X), Empty, Mark(O), Empty, Empty, Empty, Empty][3 := Mark(X)] == after;
    assert !Wins(after, X);
    assert !Full(after);
  }

  lemma Draw6()
    ensures Step(State([Mark(X), Mark(O), Mark(X), Mark(X), Mark(O), Empty, Empty, Empty, Empty], O, true), 5)
         == StepResult(State([Mark(X), Mark(O), Mark(X), Mark(X), Mark(O), Mark(O), Empty, Empty, Empty], X, true), Continue)
  {
    var after := [Mark(X), Mark(O), Mark(X), Mark(X), Mark(O), Mark(O), Empty, Empty, Empty];
    assert [Mark(X), Mark(O), Mark(X), Mark(X), Mark(O), Empty, Empty, Empty, Empty][5 := Mark(O)] == after;
    assert !Wins(after, O);
    assert !Full(after);
  }

  lemma Draw7()
    ensures Step(State([Mark(X), Mark(O), Mark(X), Mark(X), Mark(O), Mark(O), Empty, Empty, Empty], X, true), 7)
         == StepResult(State([Mark(X), Mark(O), Mark(X), Mark(X), Mark(O), Mark(O), Empty, Mark(X), Empty], O, true), Continue)
  {
    var after := [Mark(X), Mark(O), Mark(X), Mark(X), Mark(O), Mark(O), Empty, Mark(X), Empty];
    assert [Mark(X), Mark(O), Mark(X), Mark(X), Mark(O), Mark(O), Empty, Empty, Empty][7 := Mark(X)] == after;
    assert !Wins(after, X);
    assert !Full(after);
  }

  lemma Draw8()
    ensures Step(State([Mark(X), Mark(O), Mark(X), Mark(X), Mark(O), Mark(O), Empty, Mark(X), Empty], O, true), 6)
         == StepResult(State([Mark(X), Mark(O), Mark(X), Mark(X), Mark(O), Mark(O), Mark(O), Mark(X), Empty], X, true), Continue)
  {
    var after := [Mark(X), Mark(O), Mark(X), Mark(X), Mark(O), Mark(O), Mark(O), Mark(X), Empty];
    assert [Mark(X), Mark(O), Mark(X), Mark(X), Mark(O), Mark(O), Empty, Mark(X), Empty][6 := Mark(O)] == after;
    assert !Wins(after, O);
    assert !Full(after);
  }

  lemma Draw9()
    ensures Step(State([Mark(X), Mark(O), Mark(X), Mark(X), Mark(O), Mark(O), Mark(O), Mark(X), Empty], X, true), 8)
         == StepResult(State([Mark(X), Mark(O), Mark(X), Mark(X), Mark(O), Mark(O), Mark(O), Mark(X), Mark(X)], X, false), Draw)
  {
    var after := [Mark(X), Mark(O), Mark(X), Mark(X), Mark(O), Mark(O), Mark(O), Mark(X), Mark(X)];
    assert [Mark(X), Mark(O), Mark(X), Mark(X), Mark(O), Mark(O), Mark(O), Mark(X), Empty][8 := Mark(X)] == after;
    assert !Wins(after, X);
    assert Full(after);
  }

  lemma Diagonal4()
    ensures Step(State([Mark(X), Mark(O), Mark(X), Empty, Empty, Empty, Empty, Empty, Empty], O, true), 3)
         == StepResult(State([Mark(X), Mark(O), Mark(X), Mark(O), Empty, Empty, Empty, Empty, Empty], X, true), Continue)
  {
    var after := [Mark(X), Mark(O), Mark(X), Mark(O), Empty, Empty, Empty, Empty, Empty];
    assert [Mark(X), Mark(O), Mark(X), Empty, Empty, Empty, Empty, Empty, Empty][3 := Mark(O)] == after;
    assert !Wins(after, O);
    assert !Full(after);
  }

  lemma Diagonal5()
    ensures Step(State([Mark(X), Mark(O), Mark(X), Mark(O), Empty, Empty, Empty, Empty, Empty], X, true), 4)
         == StepResult(State([Mark(X), Mark(O), Mark(X), Mark(O), Mark(X), Empty, Empty, Empty, Empty], O, true), Continue)
  {
    var after := [Mark(X), Mark(O), Mark(X), Mark(O), Mark(X), Empty, Empty, Empty, Empty];
    assert [Mark(X), Mark(O), Mark(X), Mark(O), Empty, Empty, Empty, Empty, Empty][4 := Mark(X)] == after;
    assert !Wins(after, X);
    assert !Full(after);
  }

  lemma Diagonal6()
    ensures Step(State([Mark(X), Mark(O), Mark(X), Mark(O), Mark(X), Empty, Empty, Empty, Empty], O, true), 5)
         == StepResult(State([Mark(X), Mark(O), Mark(X), Mark(O), Mark(X), Mark(O), Empty, Empty, Empty], X, true), Continue)
  {
    var after := [Mark(X), Mark(O), Mark(X), Mark(O), Mark(X), Mark(O), Empty, Empty, Empty];
    assert [Mark(X), Mark(O), Mark(X), Mark(O), Mark(X), Empty, Empty, Empty, Empty][5 := Mark(O)] == after;
    assert !Wins(after, O);
    assert !Full(after);
  }

  lemma Diagonal7()
    ensures Step(State([Mark(X), Mark(O), Mark(X), Mark(O), Mark(X), Mark(O), Empty, Empty, Empty], X, true), 7)
         == StepResult(State([Mark(X), Mark(O), Mark(X), Mark(O), Mark(X), Mark(O), Empty, Mark(X), Empty], O, true), Continue)
  {
    var after := [Mark(X), Mark(O), Mark(X), Mark(O), Mark(X), Mark(O), Empty, Mark(X), Empty];
    assert [Mark(X), Mark(O), Mark(X), Mark(O), Mark(X), Mark(O), Empty, Empty, Empty][7 := Mark(X)] == after;
    assert !Wins(after, X);
    assert !Full(after);
  }

  lemma Diagonal8()
    ensures Step(State([Mark(X), Mark(O), Mark(X), Mark(O), Mark(X), Mark(O), Empty, Mark(X), Empty], O, true), 6)
         == StepResult(State([Mark(X), Mark(O), Mark(X), Mark(O), Mark(X), Mark(O), Mark(O), Mark(X), Empty], X, true), Continue)
  {
    var after := [Mark(X), Mark(O), Mark(X), Mark(O), Mark(X), Mark(O), Mark(O), Mark(X), Empty];
    assert [Mark(X), Mark(O), Mark(X), Mark(O), Mark(X), Mark(O), Empty, Mark(X), Empty][6 := Mark(O)] == after;
    assert !Wins(after, O);
    assert !Full(after);
  }

  lemma Diagonal9()
    ensures Step(State([Mark(X), Mark(O), Mark(X), Mark(O), Mark(X), Mark(O), Mark(O), Mark(X), Empty], X, true), 8)
         == StepResult(State([Mark(X), Mark(O), Mark(X), Mark(O), Mark(X), Mark(O), Mark(O), Mark(X), Mark(X)], X, false), Won(X))
  {
    var after := [Mark(X), Mark(O), Mark(X), Mark(O), Mark(X), Mark(O), Mark(O), Mark(X), Mark(X)];
    assert [Mark(X), Mark(O), Mark(X), Mark(O), Mark(X), Mark(O), Mark(O), Mark(X), Empty][8 := Mark(X)] == after;
    assert Wins(after, X);
  }

  /** Clicks 0, 4, 1, 3, 2: X wins on the top row 0, 1, 2 with the fifth click. */
  method TopRowGame() returns (outcome: Outcome, cells: seq<Cell>)
    ensures outcome == Won(X)
    ensures cells == [Mark(X), Mark(X), Mark(X), Mark(O), Mark(O), Empty, Empty, Empty, Empty]
  {
    var g := new Game();
    Opening1(); TopRow2(); TopRow3(); TopRow4(); TopRow5();
    outcome := g.Click(0);
    outcome := g.Click(4);
    outcome := g.Click(1);
    outcome := g.Click(3);
    outcome := g.Click(2);
    cells := g.board[..];
  }

  /** Clicks 0, 1, 2, 4, 3, 5, 7, 6, 8: the ninth click fills the board with
      no line for anybody, a draw. */
  method DrawGame() returns (outcome: Outcome)
    ensures outcome == Draw
  {
    var g := new Game();
    Opening1(); Opening2(); Opening3(); Draw4(); Draw5(); Draw6(); Draw7(); Draw8(); Draw9();
    outcome := g.Click(0);
    outcome := g.Click(1);
    outcome := g.Click(2);
    outcome := g.Click(4);
    outcome := g.Click(3);
    outcome := g.Click(5);
    outcome := g.Click(7);
    outcome := g.Click(6);
    outcome := g.Click(8);
  }

  /** Clicks 0, 1, 2, 3, 4, 5, 7, 6, 8: the ninth click fills the board and
      also completes X's diagonal 0, 4, 8; the win is reported, not a draw. */
  method DiagonalGame() returns (outcome: Outcome, cells: seq<Cell>)
    ensures outcome == Won(X)
    ensures cells == [Mark(X), Mark(O), Mark(X), Mark(O), Mark(X), Mark(O), Mark(O), Mark(X), Mark(X)]
  {
    var g := new Game();
    Opening1(); Opening2(); Opening3(); Diagonal4(); Diagonal5(); Diagonal6(); Diagonal7(); Diagonal8(); Diagonal9();
    outcome := g.Click(0);
    outcome := g.Click(1);
    outcome := g.Click(2);
    outcome := g.Click(3);
    outcome := g.Click(4);
    outcome := g.Click(5);
    outcome := g.Click(7);
    outcome := g.Click(6);
    outcome := g.Click(8);
    cells := g.board[..];
  }

  /** X takes cell 0; a second click on cell 0 is ignored and O is still to move. */
  method RepeatedClickGame() returns (outcome: Outcome, cells: seq<Cell>, current: Player)
    ensures outcome == Ignored && current == O
    ensures cells == [Mark(X), Empty, Empty, Empty, Empty, Empty, Empty, Empty, Empty]
  {
    var g := new Game();
    Opening1();
    outcome := g.Click(0);
    outcome := g.Click(0);
    cells, current := g.board[..], g.current;
  }

  /** After X's top-row win a click on cell 5 is ignored; a reset then brings
      back nine empty cells, X to move and input enabled. */
  method ResetAfterWinGame() returns (late: Outcome, cells: seq<Cell>, current: Player, enabled: bool)
    ensures late == Ignored
    ensures cells == Initial.cells && current == X && enabled
  {
    var g := new Game();
    Opening1(); TopRow2(); TopRow3(); TopRow4(); TopRow5();
    var o := g.Click(0);
    o := g.Click(4);
    o := g.Click(1);
    o := g.Click(3);
    o := g.Click(2);
    late := g.Click(5);
    g.Reset();
    cells, current, enabled := g.board[..], g.current, g.enabled;
  }
}
