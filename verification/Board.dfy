/** The nine-cell board, its three scans and the order-free eight-line rule. */
module Boards {
  import opened Base

  const SIDE := 3
  const BOARD_SIZE := 9

  type Cells = s: seq<Mark> | |s| == BOARD_SIZE witness seq(BOARD_SIZE, _ => Empty)

  const EMPTY_BOARD: Cells := [Empty, Empty, Empty, Empty, Empty, Empty, Empty, Empty, Empty]

  // ----- the rules, stated without any scanning order -----

  /** The eight winning lines, numbered in the order the code scans them. */
  function Line(k: int): set<int> {
    match k
    case 0 => {0, 3, 6}
    case 1 => {1, 4, 7}
    case 2 => {2, 5, 8}
    case 3 => {0, 1, 2}
    case 4 => {3, 4, 5}
    case 5 => {6, 7, 8}
    case 6 => {0, 4, 8}
    case _ => {2, 4, 6}
  }

  /** Some line lies entirely inside `owned`. */
  ghost predicate Wins(owned: set<int>) {
    exists k :: 0 <= k < 8 && Line(k) <= owned
  }

  // Cell c lies in row c / 3 and column c % 3 of the grid.

  function Column(q: int): set<int> {
    set c | 0 <= c < 9 && c % 3 == q
  }

  function Row(r: int): set<int> {
    set c | 0 <= c < 9 && c / 3 == r
  }

  function MainDiagonal(): set<int> {
    set c | 0 <= c < 9 && c / 3 == c % 3
  }

  function OtherDiagonal(): set<int> {
    set c | 0 <= c < 9 && c / 3 + c % 3 == 2
  }

  /** The lines are the three columns, then the three rows, then the two diagonals of the grid, and no other cells. */
  lemma LinesOfTheGrid(s: set<int>)
    ensures forall i :: 0 <= i < 3 ==> Line(i) == Column(i) && Line(3 + i) == Row(i)
    ensures Line(6) == MainDiagonal() && Line(7) == OtherDiagonal()
    ensures (exists k :: 0 <= k < 8 && s == Line(k)) <==>
            || (exists q :: 0 <= q < 3 && s == Column(q)) || (exists r :: 0 <= r < 3 && s == Row(r))
            || s == MainDiagonal() || s == OtherDiagonal()
  {
    forall i | 0 <= i < 3
      ensures Line(i) == Column(i) && Line(3 + i) == Row(i)
    {
    }
    if q :| 0 <= q < 3 && s == Column(q) {
      assert s == Line(q);
    } else if r :| 0 <= r < 3 && s == Row(r) {
      assert s == Line(3 + r);
    }
    if k :| 0 <= k < 8 && s == Line(k) {
      assert k < 3 ==> s == Column(k);
      assert 3 <= k < 6 ==> s == Row(k - 3);
    }
  }

  function Marked(b: Cells, m: Mark): set<int> {
    set c | 0 <= c < BOARD_SIZE && b[c] == m
  }

  ghost predicate HasLine(b: Cells, m: Mark) {
    m != Empty && Wins(Marked(b, m))
  }

  // ----- what the scans compute -----

  /** The mark filling line k, Empty when the line is open or mixed. */
  function Filled(b: Cells, k: int): Mark
    requires 0 <= k < 8
  {
    if Line(k) <= Marked(b, X) then X
    else if Line(k) <= Marked(b, O) then O
    else Empty
  }

  /** The first filled line among lines lo..hi, in scan order. */
  function FirstFilled(b: Cells, lo: int, hi: int): Mark
    requires 0 <= lo <= hi <= 8
    decreases hi - lo
  {
    if lo == hi then Empty
    else if Filled(b, lo) != Empty then Filled(b, lo)
    else FirstFilled(b, lo + 1, hi)
  }

  function WinnerOf(b: Cells): Mark {
    FirstFilled(b, 0, 8)
  }

  function SetCell(b: Cells, cell: int, m: Mark): Result<Cells> {
    if cell < 0 || cell >= BOARD_SIZE then Err(CellOutOfBounds)
    else if b[cell] != Empty then Err(CellOccupied)
    else Ok(b[cell := m])
  }

  lemma {:induction false} FirstFilledSplits(b: Cells, lo: int, mid: int, hi: int)
    requires 0 <= lo <= mid <= hi <= 8
    ensures FirstFilled(b, lo, hi) ==
            if FirstFilled(b, lo, mid) != Empty then FirstFilled(b, lo, mid) else FirstFilled(b, mid, hi)
    decreases mid - lo
  {
    if lo < mid {
      FirstFilledSplits(b, lo + 1, mid, hi);
    }
  }

  /** FirstFilled returns a filled line's mark, and Empty only if no line in the range is filled. */
  lemma {:induction false} FirstFilledFinds(b: Cells, lo: int, hi: int)
    requires 0 <= lo <= hi <= 8
    ensures FirstFilled(b, lo, hi) == Empty <==> forall k :: lo <= k < hi ==> Filled(b, k) == Empty
    ensures FirstFilled(b, lo, hi) != Empty ==> exists k :: lo <= k < hi && Filled(b, k) == FirstFilled(b, lo, hi)
    decreases hi - lo
  {
    if lo < hi {
      FirstFilledFinds(b, lo + 1, hi);
    }
  }

  lemma LineIsFilled(b: Cells, m: Mark, k: int)
    requires m != Empty && 0 <= k < 8
    ensures Line(k) <= Marked(b, m) <==> Filled(b, k) == m
  {
    var c :| c in Line(k);
    assert !(c in Marked(b, X) && c in Marked(b, O));
  }

  lemma HasLineIsFilled(b: Cells, m: Mark)
    requires m != Empty
    ensures HasLine(b, m) <==> exists k :: 0 <= k < 8 && Filled(b, k) == m
  {
    forall k | 0 <= k < 8
      ensures Line(k) <= Marked(b, m) <==> Filled(b, k) == m
    {
      LineIsFilled(b, m, k);
    }
    if HasLine(b, m) {
      var k :| 0 <= k < 8 && Line(k) <= Marked(b, m);
      assert Filled(b, k) == m;
    }
    if exists k :: 0 <= k < 8 && Filled(b, k) == m {
      var k :| 0 <= k < 8 && Filled(b, k) == m;
      assert Line(k) <= Marked(b, m);
    }
  }

  /** The winner always owns a line, and there is none exactly when nobody does. */
  lemma WinnerOwnsALine(b: Cells)
    ensures WinnerOf(b) != Empty ==> HasLine(b, WinnerOf(b))
    ensures WinnerOf(b) == Empty <==> !HasLine(b, X) && !HasLine(b, O)
  {
    FirstFilledFinds(b, 0, 8);
    HasLineIsFilled(b, X);
    HasLineIsFilled(b, O);
  }

  /** The scan order is irrelevant exactly on the boards where X and O do not both own a line:
      there, and only there, every filled line names the winner. */
  lemma ScanOrderIrrelevant(b: Cells)
    ensures (forall k :: 0 <= k < 8 ==> Filled(b, k) == Empty || Filled(b, k) == WinnerOf(b))
            <==> !(HasLine(b, X) && HasLine(b, O))
    ensures !(HasLine(b, X) && HasLine(b, O)) ==>
              forall m :: m != Empty ==> (WinnerOf(b) == m <==> HasLine(b, m))
  {
    HasLineIsFilled(b, X);
    HasLineIsFilled(b, O);
    WinnerOwnsALine(b);
  }

  // ----- the array the code mutates -----

  class Board {
    const cells: array<Mark>

    ghost predicate Valid() {
      cells.Length == BOARD_SIZE
    }

    ghost function Value(): Cells
      requires Valid()
      reads cells
    {
      cells[..]
    }

    constructor ()
      ensures Valid() && fresh(cells) && Value() == EMPTY_BOARD
    {
      cells := new Mark[BOARD_SIZE](_ => Empty);
    }

    /** A rejected write leaves the board as it was. */
    method Set(cell: int, m: Mark) returns (err: Option<Error>)
      requires Valid()
      modifies cells
      ensures match SetCell(old(Value()), cell, m)
              case Ok(b) => err == None && Value() == b
              case Err(e) => err == Some(e) && Value() == old(Value())
    {
      if cell < 0 || cell >= BOARD_SIZE {
        return Some(CellOutOfBounds);
      }
      if cells[cell] != Empty {
        return Some(CellOccupied);
      }
      cells[cell] := m;
      return None;
    }

    method IsFull() returns (full: bool)
      requires Valid()
      ensures full <==> Marked(Value(), Empty) == {}
    {
      for i := 0 to cells.Length
        invariant forall k :: 0 <= k < i ==> cells[k] != Empty
      {
        if cells[i] == Empty {
          assert i in Marked(Value(), Empty);
          return false;
        }
      }
      return true;
    }

    method WinnerInColumns() returns (w: Mark)
      requires Valid()
      ensures w == FirstFilled(Value(), 0, 3)
    {
      for i := 0 to SIDE
        invariant FirstFilled(Value(), 0, 3) == FirstFilled(Value(), i, 3)
      {
        var mark, mark1, mark2 := cells[i], cells[i + SIDE], cells[SIDE * 2 + i];
        assert Line(i) == {i, i + SIDE, SIDE * 2 + i};
        LineScanned(i, i, i + SIDE, SIDE * 2 + i);
        if mark == Empty {
          continue;
        }
        if mark == mark1 && mark == mark2 {
          return mark;
        }
      }
      return Empty;
    }

    method WinnerInRows() returns (w: Mark)
      requires Valid()
      ensures w == FirstFilled(Value(), 3, 6)
    {
      var i := 0;
      while i < cells.Length
        invariant 0 <= i <= 9 && i % SIDE == 0
        invariant FirstFilled(Value(), 3, 6) == FirstFilled(Value(), 3 + i / SIDE, 6)
      {
        var mark, mark1, mark2 := cells[i], cells[i + 1], cells[i + 2];
        assert i == 0 || i == 3 || i == 6;
        LineScanned(3 + i / SIDE, i, i + 1, i + 2);
        if mark != Empty && mark == mark1 && mark == mark2 {
          return mark;
        }
        i := i + SIDE;
      }
      return Empty;
    }

    method WinnerInDiagonals() returns (w: Mark)
      requires Valid()
      ensures w == FirstFilled(Value(), 6, 8)
    {
      LineScanned(6, 0, 4, 8);
      LineScanned(7, 2, 4, 6);
      var m := CheckMarks(cells[0], cells[SIDE + 1], cells[SIDE * 2 + 2]);
      if m != Empty {
        return m;
      }
      w := CheckMarks(cells[SIDE - 1], cells[SIDE + 1], cells[SIDE * 2]);
    }

    static function CheckMarks(mark: Mark, mark1: Mark, mark2: Mark): Mark {
      if mark == Empty then Empty
      else if mark == mark1 && mark == mark2 then mark
      else Empty
    }

    method Winner() returns (w: Mark)
      requires Valid()
      ensures w == WinnerOf(Value())
    {
      FirstFilledSplits(Value(), 0, 3, 8);
      FirstFilledSplits(Value(), 3, 6, 8);
      var m := WinnerInColumns();
      if m != Empty {
        return m;
      }
      m := WinnerInRows();
      if m != Empty {
        return m;
      }
      w := WinnerInDiagonals();
    }

    /** Reading a line's three cells decides what fills it. */
    lemma LineScanned(k: int, a: int, b: int, c: int)
      requires Valid() && 0 <= k < 8
      requires Line(k) == {a, b, c} && 0 <= a < 9 && 0 <= b < 9 && 0 <= c < 9
      ensures Filled(Value(), k) == CheckMarks(cells[a], cells[b], cells[c])
    {
      var v := Value();
      forall m: Mark
        ensures Line(k) <= Marked(v, m) <==> v[a] == m && v[b] == m && v[c] == m
      {
        if Line(k) <= Marked(v, m) {
          assert a in Line(k) && b in Line(k) && c in Line(k);
        }
      }
    }
  }
}
