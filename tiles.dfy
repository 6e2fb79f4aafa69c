/** The tile grid `a[10][15]` of the game and the catalogue of level layouts
    that the `levelN()` functions write into it. */
module Tiles {

  const Rows: int := 10
  const Cols: int := 15

  // Tile codes stored in the grid.
  const Hole: int := 0
  const Floor: int := 1
  const SoftSwitch: int := 2
  const HeavySwitch: int := 3
  const Goal: int := 4
  const Marker: int := 5
  const Fragile: int := 6
  const Lever: int := 7

  /** A 10 x 15 grid of tile codes, indexed [row][column]. */
  type Grid = g: seq<seq<int>> | |g| == Rows && forall i :: 0 <= i < |g| ==> |g[i]| == Cols
    witness seq(10, _ => seq(15, _ => 0))

  /** The contents of the zero-initialised global array. */
  function Blank(): (g: Grid)
    ensures forall i, j :: 0 <= i < Rows && 0 <= j < Cols ==> g[i][j] == Hole
  {
    seq(Rows, _ => seq(Cols, _ => Hole))
  }

  /** Bounds-checked lookup: a cell outside the grid reads as a hole. */
  function TileAt(g: Grid, r: int, c: int): (t: int)
    ensures 0 <= r < Rows && 0 <= c < Cols ==> t == g[r][c]
    ensures !(0 <= r < Rows && 0 <= c < Cols) ==> t == Hole
  {
    if 0 <= r < Rows && 0 <= c < Cols then g[r][c] else Hole
  }

  /** The grid with one cell overwritten. */
  function SetTile(g: Grid, r: int, c: int, v: int): (h: Grid)
    requires 0 <= r < Rows && 0 <= c < Cols
    ensures h[r][c] == v
    ensures forall i, j :: 0 <= i < Rows && 0 <= j < Cols && (i != r || j != c) ==> h[i][j] == g[i][j]
  {
    g[r := g[r][c := v]]
  }

  /** Two grids that agree on every cell are equal. */
  lemma GridExt(a: Grid, b: Grid)
    requires forall i, j :: 0 <= i < Rows && 0 <= j < Cols ==> a[i][j] == b[i][j]
    ensures a == b
  {
    forall i | 0 <= i < Rows
      ensures a[i] == b[i]
    {
      assert forall j :: 0 <= j < Cols ==> a[i][j] == b[i][j];
    }
  }

  /** One write of a `levelN()` function: rows [top, bottom) and columns
      [left, right) all receive `code`.  A single assignment `a[r][c]=v` is
      the 1 x 1 rectangle `At(r, c, v)`. */
  datatype Fill = Rect(top: int, bottom: int, left: int, right: int, code: int)

  /** The empty write. */
  function Skip(): Fill {
    Rect(0, 0, 0, 0, Hole)
  }

  function At(r: int, c: int, code: int): Fill {
    Rect(r, r + 1, c, c + 1, code)
  }

  predicate Covers(f: Fill, i: int, j: int) {
    f.top <= i < f.bottom && f.left <= j < f.right
  }

  /** The write stays inside the 10 x 15 array. */
  predicate Fits(f: Fill) {
    0 <= f.top <= f.bottom <= Rows && 0 <= f.left <= f.right <= Cols
  }

  /** The grid after one rectangle write. */
  function PaintGrid(g: Grid, f: Fill): (h: Grid)
    ensures forall i, j :: 0 <= i < Rows && 0 <= j < Cols ==>
      h[i][j] == if Covers(f, i, j) then f.code else g[i][j]
  {
    seq(Rows, i requires 0 <= i < Rows => seq(Cols, j requires 0 <= j < Cols =>
      if Covers(f, i, j) then f.code else g[i][j]))
  }

  /** The grid after a sequence of writes, performed in order. */
  function PaintAll(g: Grid, fs: seq<Fill>): Grid
    decreases |fs|
  {
    if |fs| == 0 then g else PaintGrid(PaintAll(g, fs[..|fs| - 1]), fs[|fs| - 1])
  }

  /** The code of one cell after a sequence of writes over `under`: the last
      write that covers the cell wins. */
  function CodeAt(fs: seq<Fill>, i: int, j: int, under: int): int
    decreases |fs|
  {
    if |fs| == 0 then under
    else if Covers(fs[|fs| - 1], i, j) then fs[|fs| - 1].code
    else CodeAt(fs[..|fs| - 1], i, j, under)
  }

  /** Painting a whole grid is painting each cell on its own. */
  lemma {:induction false} PaintAllAt(g: Grid, fs: seq<Fill>, i: int, j: int)
    requires 0 <= i < Rows && 0 <= j < Cols
    ensures PaintAll(g, fs)[i][j] == CodeAt(fs, i, j, g[i][j])
    decreases |fs|
  {
    if |fs| > 0 {
      PaintAllAt(g, fs[..|fs| - 1], i, j);
    }
  }

  /** Once some write covers a cell, what was there before no longer matters. */
  lemma {:induction false} CodeAtCovered(fs: seq<Fill>, i: int, j: int, u: int, v: int, k: int)
    requires 0 <= k < |fs| && Covers(fs[k], i, j)
    ensures CodeAt(fs, i, j, u) == CodeAt(fs, i, j, v)
    decreases |fs|
  {
    if !Covers(fs[|fs| - 1], i, j) {
      CodeAtCovered(fs[..|fs| - 1], i, j, u, v, k);
    }
  }

  /** A cell reads the code of the last write that covers it. */
  lemma {:induction false} CodeAtLast(fs: seq<Fill>, i: int, j: int, u: int, k: int)
    requires 0 <= k < |fs| && Covers(fs[k], i, j)
    requires forall m :: k < m < |fs| ==> !Covers(fs[m], i, j)
    ensures CodeAt(fs, i, j, u) == fs[k].code
    decreases |fs|
  {
    if k < |fs| - 1 {
      CodeAtLast(fs[..|fs| - 1], i, j, u, k);
    }
  }

  /** A cell reads either what was under it or the code of a write covering it. */
  lemma {:induction false} CodeAtOrigin(fs: seq<Fill>, i: int, j: int, u: int)
    ensures CodeAt(fs, i, j, u) == u ||
      exists k :: 0 <= k < |fs| && Covers(fs[k], i, j) && CodeAt(fs, i, j, u) == fs[k].code
    decreases |fs|
  {
    if |fs| > 0 && !Covers(fs[|fs| - 1], i, j) {
      CodeAtOrigin(fs[..|fs| - 1], i, j, u);
      if CodeAt(fs, i, j, u) != u {
        var k :| 0 <= k < |fs| - 1 && Covers(fs[..|fs| - 1][k], i, j)
          && CodeAt(fs, i, j, u) == fs[..|fs| - 1][k].code;
        assert fs[k] == fs[..|fs| - 1][k];
      }
    }
  }

  // ---------------------------------------------------------------------
  // The level catalogue.  Layout n is what `level<n>()` leaves in the grid;
  // there is no layout 5.

  predicate IsLayout(n: int) {
    n in {1, 2, 3, 4, 6, 7, 8, 9}
  }

  /** Write k of `fs` stores the goal at (r, c), no later write covers that
      cell, and no other write stores the goal code. */
  predicate OnlyGoalWrite(fs: seq<Fill>, k: int, r: int, c: int) {
    0 <= k < |fs| && fs[k] == At(r, c, Goal) &&
    (forall m :: k < m < |fs| ==> !Covers(fs[m], r, c)) &&
    (forall m :: 0 <= m < |fs| && fs[m].code == Goal ==> m == k)
  }

  /** The number of writes `level<n>()` performs. */
  function LevelSize(n: int): nat {
    if n == 1 then 16
    else if n == 2 then 14
    else if n == 3 then 17
    else if n == 4 then 24
    else if n == 6 then 22
    else if n == 7 then 14
    else if n == 8 then 6
    else if n == 9 then 13
    else 0
  }

  /** Write k of `level<n>()`. */
  function LevelWrite(n: int, k: int): Fill {
    if n == 1 then Level1Write(k)
    else if n == 2 then Level2Write(k)
    else if n == 3 then Level3Write(k)
    else if n == 4 then Level4Write(k)
    else if n == 6 then Level6Write(k)
    else if n == 7 then Level7Write(k)
    else if n == 8 then Level8Write(k)
    else if n == 9 then Level9Write(k)
    else Skip()
  }

  /** The writes of `level<n>()`, in program order. */
  function LevelFills(n: int): seq<Fill> {
    seq(LevelSize(n), k => LevelWrite(n, k))
  }

  /** Every write of every `level<n>()` stays inside the array, and exactly
      one of them stores the goal code, on a cell no later write covers. */
  lemma LevelFacts(n: int)
    requires IsLayout(n)
    ensures forall k :: 0 <= k < |LevelFills(n)| ==> Fits(LevelFills(n)[k])
    ensures OnlyGoalWrite(LevelFills(n), GoalWrite(n), GoalRow(n), GoalCol(n))
  {
    if n == 1 { Level1Facts(); }
    else if n == 2 { Level2Facts(); }
    else if n == 3 { Level3Facts(); }
    else if n == 4 { Level4Facts(); }
    else if n == 6 { Level6Facts(); }
    else if n == 7 { Level7Facts(); }
    else if n == 8 { Level8Facts(); }
    else { Level9Facts(); }
  }

  lemma Level1Facts()
    ensures forall k :: 0 <= k < |LevelFills(1)| ==> Fits(LevelFills(1)[k])
    ensures OnlyGoalWrite(LevelFills(1), 3, 6, 7)
  {
  }

  lemma Level2Facts()
    ensures forall k :: 0 <= k < |LevelFills(2)| ==> Fits(LevelFills(2)[k])
    ensures OnlyGoalWrite(LevelFills(2), 11, 3, 13)
  {
  }

  lemma Level3Facts()
    ensures forall k :: 0 <= k < |LevelFills(3)| ==> Fits(LevelFills(3)[k])
    ensures OnlyGoalWrite(LevelFills(3), 16, 6, 13)
  {
  }

  lemma Level4Facts()
    ensures forall k :: 0 <= k < |LevelFills(4)| ==> Fits(LevelFills(4)[k])
    ensures OnlyGoalWrite(LevelFills(4), 15, 8, 6)
  {
    Level4Fits();
  }

  /** Every write of `level4()` stays inside the array. */
  lemma Level4Fits()
    ensures forall k :: 0 <= k < |LevelFills(4)| ==> Fits(LevelFills(4)[k])
  {
  }

  lemma Level6Facts()
    ensures forall k :: 0 <= k < |LevelFills(6)| ==> Fits(LevelFills(6)[k])
    ensures OnlyGoalWrite(LevelFills(6), 19, 4, 13)
  {
  }

  lemma Level7Facts()
    ensures forall k :: 0 <= k < |LevelFills(7)| ==> Fits(LevelFills(7)[k])
    ensures OnlyGoalWrite(LevelFills(7), 12, 4, 13)
  {
  }

  lemma Level8Facts()
    ensures forall k :: 0 <= k < |LevelFills(8)| ==> Fits(LevelFills(8)[k])
    ensures OnlyGoalWrite(LevelFills(8), 4, 5, 13)
  {
  }

  lemma Level9Facts()
    ensures forall k :: 0 <= k < |LevelFills(9)| ==> Fits(LevelFills(9)[k])
    ensures OnlyGoalWrite(LevelFills(9), 10, 6, 7)
  {
  }

  /** The writes that level 4 repeats on every tick: the fragile regions and
      the marker cell. */
  function FragileFills(): (fs: seq<Fill>)
    ensures forall k :: 0 <= k < |fs| ==> Fits(fs[k])
  {
    [Rect(1, 3, 3, 10, Fragile), Rect(6, 10, 9, 15, Fragile), At(8, 13, Marker)]
  }

  /** Write k of `level1()`, in program order. */
  function Level1Write(k: int): Fill {
    match k
    case 0 => Rect(0, 10, 0, 10, Floor)
    case 1 => Rect(0, 2, 0, 10, Hole)
    case 2 => Rect(8, 10, 0, 10, Hole)
    case 3 => At(6, 7, Goal)
    case 4 => At(6, 0, Hole)
    case 5 => At(6, 2, Hole)
    case 6 => At(6, 1, Hole)
    case 7 => At(6, 3, Hole)
    case 8 => At(6, 4, Hole)
    case 9 => Rect(7, 8, 0, 6, Hole)
    case 10 => At(7, 9, Hole)
    case 11 => At(5, 0, Hole)
    case 12 => Rect(2, 3, 3, 10, Hole)
    case 13 => Rect(3, 4, 6, 10, Hole)
    case 14 => At(4, 9, Hole)
    case 15 => Rect(0, 10, 10, 15, Hole)
    case _ => Skip()
  }

  /** Write k of `level2()`, in program order. */
  function Level2Write(k: int): Fill {
    match k
    case 0 => Rect(0, 10, 0, 15, Floor)
    case 1 => Rect(0, 3, 0, 15, Hole)
    case 2 => Rect(8, 10, 0, 15, Hole)
    case 3 => Rect(3, 8, 4, 6, Hole)
    case 4 => Rect(2, 3, 6, 15, Floor)
    case 5 => At(2, 10, Hole)
    case 6 => At(2, 11, Hole)
    case 7 => Rect(3, 8, 10, 12, Hole)
    case 8 => At(7, 12, Hole)
    case 9 => At(7, 13, Hole)
    case 10 => At(7, 14, Hole)
    case 11 => At(3, 13, Goal)
    case 12 => At(4, 2, SoftSwitch)
    case 13 => At(3, 8, HeavySwitch)
    case _ => Skip()
  }

  /** Write k of `level3()`, in program order. */
  function Level3Write(k: int): Fill {
    match k
    case 0 => Rect(0, 10, 0, 15, Floor)
    case 1 => Rect(0, 4, 0, 15, Hole)
    case 2 => Rect(8, 10, 0, 15, Hole)
    case 3 => Rect(6, 8, 4, 11, Hole)
    case 4 => At(7, 11, Hole)
    case 5 => Rect(3, 4, 6, 15, Floor)
    case 6 => At(4, 4, Hole)
    case 7 => At(4, 5, Hole)
    case 8 => At(4, 9, Hole)
    case 9 => At(4, 10, Hole)
    case 10 => At(5, 9, Hole)
    case 11 => At(5, 10, Hole)
    case 12 => At(3, 13, Hole)
    case 13 => At(3, 14, Hole)
    case 14 => At(4, 13, Hole)
    case 15 => At(4, 14, Hole)
    case 16 => At(6, 13, Goal)
    case _ => Skip()
  }

  /** Write k of `level4()`, in program order. */
  function Level4Write(k: int): Fill {
    match k
    case 0 => Rect(0, 10, 0, 15, Floor)
    case 1 => Rect(0, 1, 0, 15, Hole)
    case 2 => Rect(1, 3, 0, 3, Hole)
    case 3 => Rect(1, 3, 13, 15, Hole)
    case 4 => Rect(3, 6, 4, 9, Hole)
    case 5 => At(4, 3, Hole)
    case 6 => At(4, 9, Hole)
    case 7 => At(5, 3, Hole)
    case 8 => At(5, 9, Hole)
    case 9 => At(6, 3, Hole)
    case 10 => At(6, 4, Hole)
    case 11 => At(7, 3, Hole)
    case 12 => At(7, 4, Hole)
    case 13 => Rect(8, 10, 0, 5, Hole)
    case 14 => Rect(8, 10, 8, 10, Hole)
    case 15 => At(8, 6, Goal)
    case 16 => At(8, 13, Marker)
    case 17 => At(6, 8, Floor)
    case 18 => At(6, 9, Fragile)
    case 19 => At(7, 8, Floor)
    case 20 => At(7, 9, Fragile)
    case _ => if 21 <= k < 24 then FragileFills()[k - 21] else Skip()
  }

  /** Write k of `level6()`, in program order. */
  function Level6Write(k: int): Fill {
    match k
    case 0 => Rect(0, 10, 0, 15, Floor)
    case 1 => Rect(0, 3, 0, 5, Hole)
    case 2 => At(1, 6, Hole)
    case 3 => At(1, 7, Hole)
    case 4 => At(2, 6, Hole)
    case 5 => At(2, 7, Hole)
    case 6 => At(3, 6, Hole)
    case 7 => Rect(3, 6, 7, 11, Hole)
    case 8 => At(6, 8, Hole)
    case 9 => At(6, 7, Hole)
    case 10 => At(5, 11, Hole)
    case 11 => Rect(6, 9, 11, 15, Hole)
    case 12 => Rect(0, 2, 11, 15, Hole)
    case 13 => At(2, 13, Hole)
    case 14 => At(2, 14, Hole)
    case 15 => Rect(4, 9, 0, 4, Hole)
    case 16 => Rect(6, 9, 4, 6, Hole)
    case 17 => At(9, 6, Hole)
    case 18 => At(9, 10, Hole)
    case 19 => At(4, 13, Goal)
    case 20 => Rect(9, 10, 0, 6, Hole)
    case 21 => Rect(9, 10, 10, 15, Hole)
    case _ => Skip()
  }

  /** Write k of `level7()`, in program order. */
  function Level7Write(k: int): Fill {
    match k
    case 0 => Rect(0, 10, 0, 15, Floor)
    case 1 => Rect(0, 1, 0, 15, Hole)
    case 2 => Rect(9, 10, 0, 15, Hole)
    case 3 => Rect(1, 3, 0, 8, Hole)
    case 4 => Rect(1, 3, 12, 15, Hole)
    case 5 => Rect(3, 4, 3, 8, Hole)
    case 6 => At(3, 9, Hole)
    case 7 => At(3, 10, Hole)
    case 8 => At(4, 9, Hole)
    case 9 => Rect(4, 7, 10, 12, Hole)
    case 10 => Rect(5, 8, 3, 7, Hole)
    case 11 => Rect(7, 9, 9, 15, Hole)
    case 12 => At(4, 13, Goal)
    case 13 => At(5, 9, SoftSwitch)
    case _ => Skip()
  }

  /** Write k of `level8()`, in program order. */
  function Level8Write(k: int): Fill {
    match k
    case 0 => Rect(0, 10, 0, 15, Hole)
    case 1 => Rect(4, 7, 0, 6, Floor)
    case 2 => Rect(1, 10, 9, 12, Floor)
    case 3 => Rect(4, 7, 12, 15, Floor)
    case 4 => At(5, 13, Goal)
    case 5 => At(5, 4, Lever)
    case _ => Skip()
  }

  /** Write k of `level9()`, in program order. */
  function Level9Write(k: int): Fill {
    match k
    case 0 => Rect(0, 10, 0, 15, Hole)
    case 1 => Rect(3, 6, 0, 4, Floor)
    case 2 => Rect(3, 6, 11, 15, Floor)
    case 3 => Rect(5, 6, 4, 15, Floor)
    case 4 => At(3, 7, Floor)
    case 5 => At(4, 7, Floor)
    case 6 => At(6, 6, Floor)
    case 7 => At(7, 6, Floor)
    case 8 => At(6, 8, Floor)
    case 9 => At(7, 8, Floor)
    case 10 => At(6, 7, Goal)
    case 11 => At(7, 7, Floor)
    case 12 => At(4, 13, Lever)
    case _ => Skip()
  }

  /** The pristine grid of layout n. */
  function Layout(n: int): Grid {
    PaintAll(Blank(), LevelFills(n))
  }

  /** The single goal cell of each layout. */
  function GoalRow(n: int): int {
    if n == 1 then 6 else if n == 2 then 3 else if n == 3 then 6 else if n == 4 then 8
    else if n == 6 then 4 else if n == 7 then 4 else if n == 8 then 5 else 6
  }

  function GoalCol(n: int): int {
    if n == 1 then 7 else if n == 2 then 13 else if n == 3 then 13 else if n == 4 then 6
    else if n == 6 then 13 else if n == 7 then 13 else if n == 8 then 13 else 7
  }

  /** Index of the goal write in `LevelFills(n)`. */
  function GoalWrite(n: int): int {
    if n == 1 then 3 else if n == 2 then 11 else if n == 3 then 16 else if n == 4 then 15
    else if n == 6 then 19 else if n == 7 then 12 else if n == 8 then 4 else 10
  }

  /** A cell of a layout holds the code of the last write of `level<n>()`
      that covers it. */
  lemma LayoutCell(n: int, i: int, j: int, k: int)
    requires 0 <= i < Rows && 0 <= j < Cols
    requires 0 <= k < |LevelFills(n)| && Covers(LevelFills(n)[k], i, j)
    requires forall m :: k < m < |LevelFills(n)| ==> !Covers(LevelFills(n)[m], i, j)
    ensures Layout(n)[i][j] == LevelFills(n)[k].code
  {
    PaintAllAt(Blank(), LevelFills(n), i, j);
    CodeAtLast(LevelFills(n), i, j, Hole, k);
  }

  /** Every `level<n>()` writes every cell, so the layout does not depend on
      what the grid held before the call. */
  lemma LayoutOverwrites(n: int, g: Grid)
    requires IsLayout(n)
    ensures PaintAll(g, LevelFills(n)) == Layout(n)
  {
    var fs := LevelFills(n);
    forall i, j | 0 <= i < Rows && 0 <= j < Cols
      ensures PaintAll(g, fs)[i][j] == Layout(n)[i][j]
    {
      PaintAllAt(g, fs, i, j);
      PaintAllAt(Blank(), fs, i, j);
      var k := if n == 1 && j >= 10 then |fs| - 1 else 0;
      assert Covers(fs[k], i, j);
      CodeAtCovered(fs, i, j, g[i][j], Hole, k);
    }
    GridExt(PaintAll(g, fs), Layout(n));
  }

  /** After writes with a single goal write, exactly one cell holds the goal. */
  lemma {:induction false} SingleGoal(fs: seq<Fill>, k: int, r: int, c: int, i: int, j: int, u: int)
    requires OnlyGoalWrite(fs, k, r, c) && u != Goal
    ensures CodeAt(fs, i, j, u) == Goal <==> i == r && j == c
  {
    if i == r && j == c {
      CodeAtLast(fs, i, j, u, k);
    } else {
      CodeAtOrigin(fs, i, j, u);
    }
  }

  /** Each layout has exactly one goal cell. */
  lemma UniqueGoal(n: int, i: int, j: int)
    requires IsLayout(n)
    requires 0 <= i < Rows && 0 <= j < Cols
    ensures Layout(n)[i][j] == Goal <==> i == GoalRow(n) && j == GoalCol(n)
  {
    LevelFacts(n);
    PaintAllAt(Blank(), LevelFills(n), i, j);
    SingleGoal(LevelFills(n), GoalWrite(n), GoalRow(n), GoalCol(n), i, j, Hole);
  }
}
