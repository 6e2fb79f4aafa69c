/** Properties of the rules: the cell mapping, the start cell of every level,
    the move counters, falling and winning, the switches, the fragile tiles,
    the levers and the end screen. */
module RuleFacts {
  import opened Tiles
  import opened Kinematics
  import opened Rules

  // ---------------------------------------------------------------------
  // The cell mapping.

  /** On a multiple of 6 the truncating division of the source and Dafny's
      Euclidean division agree. */
  lemma TruncDivExact(a: int)
    requires a % 6 == 0
    ensures TruncDiv6(a) == a / 6
    ensures 6 * TruncDiv6(a) == a
  {
    var q := a / 6;
    assert a == 6 * q;
    if a < 0 {
      assert -a == 6 * (-q);
      assert (-a) / 6 == -q;
    }
  }

  /** Every origin term is a multiple of 6. */
  predicate OriginAligned(o: Origin) {
    o.x3 % 6 == 0 && o.z3 % 6 == 0 && o.x6 % 6 == 0 && o.z6 % 6 == 0 &&
    o.x7 % 6 == 0 && o.z7 % 6 == 0 && o.z8 % 6 == 0 && o.z9 % 6 == 0
  }

  /** The states whose cell computations divide exactly. */
  predicate StateAligned(s: State) {
    Aligned(s.block) && OriginAligned(s.origin)
  }

  /** The sums of the origin terms are multiples of 6 too. */
  lemma OriginSums(o: Origin)
    requires OriginAligned(o)
    ensures o.DX() % 6 == 0 && o.DZ() % 6 == 0
  {
  }

  /** On a cell boundary the column is an exact quotient. */
  lemma ColExact(x: int, o: Origin)
    requires (x + o.DX()) % 6 == 0
    ensures 6 * (Col(x, o) - 1) == x + o.DX()
  {
    TruncDivExact(-18 + x + o.DX());
  }

  /** On a cell boundary the row is an exact quotient. */
  lemma RowExact(z: int, o: Origin)
    requires (z + o.DZ()) % 6 == 0
    ensures 6 * (Row(z, o) - 3) == z + o.DZ()
  {
    TruncDivExact(-6 + z + o.DZ());
  }

  /** With aligned positions the column and row are exact quotients, so two
      cubes share a cell exactly when they share a spot. */
  lemma CellsExact(b: Block, o: Origin)
    requires Aligned(b) && OriginAligned(o)
    ensures 6 * (Col(b.c1.x, o) - 1) == b.c1.x + o.DX() && 6 * (Col(b.c2.x, o) - 1) == b.c2.x + o.DX()
    ensures 6 * (Row(b.c1.z, o) - 3) == b.c1.z + o.DZ() && 6 * (Row(b.c2.z, o) - 3) == b.c2.z + o.DZ()
  {
    OriginSums(o);
    ColExact(b.c1.x, o);
    ColExact(b.c2.x, o);
    RowExact(b.c1.z, o);
    RowExact(b.c2.z, o);
  }

  lemma SameCellSameSpot(b: Block, o: Origin)
    requires Aligned(b) && OriginAligned(o)
    ensures var c := CellsOf(b, o); (c.r1 == c.r2 && c.l1 == c.l2) <==> SpotOf(b.c1) == SpotOf(b.c2)
  {
    CellsExact(b, o);
  }

  /** The origin terms in force on each level when every earlier level has
      been won in order (`AdvanceReachesOrigin` ties this table to
      `AdvanceOrigin`). */
  function ReachedOrigin(flag: int): (o: Origin)
    ensures OriginAligned(o)
  {
    if flag <= 2 then NoOrigin()
    else if flag <= 4 then Origin(0, 18, 0, 0, 0, 0, 0, 0)
    else if flag == 5 then Origin(0, 18, -6, -18, 0, 0, 0, 0)
    else if flag == 6 then Origin(0, 18, -6, -18, 6, 6, 0, 0)
    else if flag == 7 then Origin(0, 18, -6, -18, 6, 6, 6, 0)
    else Origin(0, 18, -6, -18, 6, 6, 6, -6)
  }

  /** Winning level `flag` moves from the origin of `flag` to that of
      `flag + 1`, starting from no offset at all on level 1. */
  lemma AdvanceReachesOrigin(flag: int)
    requires 1 <= flag
    ensures ReachedOrigin(1) == Initial().origin
    ensures AdvanceOrigin(ReachedOrigin(flag), flag + 1) == ReachedOrigin(flag + 1)
  {
  }

  /** The cell under the standing block at the start of each level. */
  function StartRow(flag: int): int {
    if flag <= 2 then 3 else if flag <= 4 then 6 else if flag == 5 then 3
    else if flag == 6 then 4 else if flag == 7 then 5 else 4
  }

  function StartCol(flag: int): int {
    if flag == 5 then 0 else 1
  }

  /** The standing start pose maps to the cell that the origin terms name. */
  lemma StartCellAt(o: Origin, r: int, l: int)
    requires o.DX() == 6 * l - 6 && o.DZ() == 6 * r - 18
    ensures CellsOf(Start(), o) == Cells(r, l, r, l)
  {
    TruncDivExact(-18 + o.DX());
    TruncDivExact(-6 + o.DZ());
  }

  lemma StartCellOf(flag: int)
    requires 1 <= flag <= 8
    ensures CellsOf(Start(), ReachedOrigin(flag)) == Cells(StartRow(flag), StartCol(flag), StartRow(flag), StartCol(flag))
  {
    var o, r, l;
    if flag <= 2 {
      o, r, l := NoOrigin(), 3, 1;
    } else if flag <= 4 {
      o, r, l := Origin(0, 18, 0, 0, 0, 0, 0, 0), 6, 1;
    } else if flag == 5 {
      o, r, l := Origin(0, 18, -6, -18, 0, 0, 0, 0), 3, 0;
    } else if flag == 6 {
      o, r, l := Origin(0, 18, -6, -18, 6, 6, 0, 0), 4, 1;
    } else if flag == 7 {
      o, r, l := Origin(0, 18, -6, -18, 6, 6, 6, 0), 5, 1;
    } else {
      o, r, l := Origin(0, 18, -6, -18, 6, 6, 6, -6), 4, 1;
    }
    assert ReachedOrigin(flag) == o && StartRow(flag) == r && StartCol(flag) == l;
    StartCellAt(o, r, l);
  }

  lemma StartCellFloor(flag: int)
    requires 1 <= flag <= 8
    ensures 0 <= StartRow(flag) < Rows && 0 <= StartCol(flag) < Cols
    ensures Layout(LayoutNumber(flag))[StartRow(flag)][StartCol(flag)] == Floor
  {
    if flag <= 4 {
      EarlyStartFloor(flag);
    } else {
      LateStartFloor(flag);
    }
  }

  /** `StartCellFloor` for the first four levels. */
  lemma EarlyStartFloor(flag: int)
    requires 1 <= flag <= 4
    ensures Layout(LayoutNumber(flag))[StartRow(flag)][StartCol(flag)] == Floor
  {
    if flag == 1 { LayoutCell(1, 3, 1, 0); }
    else if flag == 2 { LayoutCell(2, 3, 1, 0); }
    else if flag == 3 { LayoutCell(3, 6, 1, 0); }
    else { LayoutCell(4, 6, 1, 0); }
  }

  /** `StartCellFloor` for the last four levels. */
  lemma LateStartFloor(flag: int)
    requires 5 <= flag <= 8
    ensures Layout(LayoutNumber(flag))[StartRow(flag)][StartCol(flag)] == Floor
  {
    if flag == 5 { LayoutCell(6, 3, 0, 0); }
    else if flag == 6 { LayoutCell(7, 4, 1, 0); }
    else if flag == 7 { LayoutCell(8, 5, 1, 1); }
    else { LayoutCell(9, 4, 1, 1); }
  }

  /** With the origin terms accumulated by winning the earlier levels, the
      start pose of `init()` puts the standing block on a floor cell of the
      layout that each flag loads. */
  lemma StartOnFloor(flag: int)
    requires 1 <= flag <= 8
    ensures var c := CellsOf(Start(), ReachedOrigin(flag));
      c.r1 == c.r2 && c.l1 == c.l2 &&
      TileAt(Layout(LayoutNumber(flag)), c.r1, c.l1) == Floor
  {
    StartCellOf(flag);
    StartCellFloor(flag);
    FloorUnder(Layout(LayoutNumber(flag)), CellsOf(Start(), ReachedOrigin(flag)), StartRow(flag), StartCol(flag));
  }

  /** Both cubes over one floor cell (r, l) of `g`. */
  lemma FloorUnder(g: Grid, c: Cells, r: int, l: int)
    requires c == Cells(r, l, r, l) && 0 <= r < Rows && 0 <= l < Cols && g[r][l] == Floor
    ensures c.r1 == c.r2 && c.l1 == c.l2 && TileAt(g, c.r1, c.l1) == Floor
  {
  }

  // ---------------------------------------------------------------------
  // Arrow presses and the move counters.

  /** An accepted press moves the block by the key's rule and adds exactly one
      to `moves` and to `stmove`; nothing else changes.  A keyboard press
      while falling changes nothing at all. */
  lemma PressCounts(s: State, d: Dir, guarded: bool)
    ensures var r := Press(s, d, guarded);
      if guarded && s.disable then r == s
      else r.moves == s.moves + 1 && r.stmove == s.stmove + 1 &&
           r.block == Step(s.block, d, s.mode) &&
           r.(moves := s.moves, stmove := s.stmove, block := s.block) == s
  {
  }

  /** The moves counted before the current attempt. */
  function Baseline(s: State): int {
    s.moves - s.stmove
  }

  /** A run of arrow presses. */
  function PressAll(s: State, ds: seq<Dir>, guarded: bool): State
    decreases |ds|
  {
    if |ds| == 0 then s else PressAll(Press(s, ds[0], guarded), ds[1..], guarded)
  }

  /** Presses never change the moves counted before the current attempt, and
      the grid, level and mode stay as they were. */
  lemma {:induction false} PressAllKeepsBaseline(s: State, ds: seq<Dir>, guarded: bool)
    ensures var r := PressAll(s, ds, guarded);
      Baseline(r) == Baseline(s) && r.stmove >= s.stmove &&
      r.grid == s.grid && r.flag == s.flag && r.mode == s.mode && r.attempts == s.attempts &&
      r.score == s.score
    decreases |ds|
  {
    if |ds| > 0 {
      PressAllKeepsBaseline(Press(s, ds[0], guarded), ds[1..], guarded);
    }
  }

  /** A failed attempt takes back exactly the moves made since the level was
      loaded: after any presses and a fall, `moves` is what it was when the
      attempt began, and a new attempt starts with `stmove` at zero. */
  lemma FailedAttemptMoves(s: State, ds: seq<Dir>, guarded: bool)
    requires s.stmove == 0
    ensures var r := Retry(PressAll(s, ds, guarded));
      r.moves == s.moves && r.stmove == 0 && r.attempts == s.attempts + 1 && r.score == s.score - 10
  {
    PressAllKeepsBaseline(s, ds, guarded);
  }

  // ---------------------------------------------------------------------
  // Falling.

  /** Over a hole, each timer tick sinks both cubes by 2 and disables input,
      until cube 1 passes -15. */
  lemma FallSinks(s: State, c: Cells)
    requires Falling(s.grid, c) && s.block.c1.y - 2 >= -15
    ensures Fall(s, c, true) == s.(block := Sink(s.block, 2), disable := true)
  {
  }

  /** When the fall completes the level restarts from its pristine layout:
      start pose, input enabled, one more attempt, ten points and the
      attempt's moves taken back. */
  lemma FallRestarts(s: State, c: Cells)
    requires Falling(s.grid, c) && s.block.c1.y - 2 < -15
    requires 1 <= s.flag <= 8
    ensures var r := Fall(s, c, true);
      r.attempts == s.attempts + 1 && r.score == s.score - 10 &&
      r.moves == s.moves - s.stmove && r.stmove == 0 && !r.disable &&
      r.block == Start() && r.grid == Layout(LayoutNumber(s.flag)) &&
      r.flag == s.flag && r.origin == s.origin
  {
  }

  /** Loading a level twice is loading it once. */
  lemma LoadLevelIdempotent(s: State)
    ensures LoadLevel(LoadLevel(s)) == LoadLevel(s)
  {
  }

  /** With the corrected `level9()`, a restart of level 8 or 9 always gives
      back a coupled block; the load as written does so only on level 8. */
  lemma RestartCouples(s: State)
    requires s.flag == 7 || s.flag == 8
    ensures Retry(s).mode == Coupled && Init(s).mode == Coupled
    ensures LoadLevelAsWritten(s).mode == if s.flag == 7 then Coupled else s.mode
  {
  }

  /** Three falls from a fresh attempt count exhaust the attempts, and the
      next frame shows the losing end screen with moves and score cleared. */
  lemma ThreeFallsEndTheGame(s: State)
    requires s.attempts == 1
    ensures var r := Retry(Retry(Retry(s)));
      r.attempts == 4 && VerdictOf(r) == YouLose &&
      var e := SessionTick(r, false);
      e.flag == 9 && e.attempts == 5 && e.moves == 0 && e.score == 0 && e.grid == Blank()
  {
  }

  /** Before the fourth attempt is used up no end screen opens. */
  lemma NoEndBeforeFour(s: State, delayOver: bool)
    requires s.attempts != 4 && s.flag != 9
    ensures SessionTick(s, delayOver) == s
  {
  }

  /** Leaving the end screen starts level 1 afresh.  The corrected end
      screen also resets the attempt count; as written, it is the same but
      for the attempt count, which stays 5 after a loss. */
  lemma EndScreenRestarts(s: State)
    requires s.flag == 9 || s.attempts == 4
    ensures var r := SessionTick(s, true);
      r.flag == 1 && r.attempts == 1 && r.moves == 0 && r.score == 0 && r.stmove == 0 &&
      r.block == Start() && r.grid == Layout(1) && r.origin == NoOrigin() &&
      SessionTickAsWritten(s, true) == r.(attempts := if s.attempts > 3 then 5 else s.attempts)
  {
  }

  // ---------------------------------------------------------------------
  // Winning.

  /** A grid whose only goal cell is (gr, gc). */
  predicate SingleGoalAt(g: Grid, gr: int, gc: int) {
    forall i, j :: 0 <= i < Rows && 0 <= j < Cols && g[i][j] == Goal ==> i == gr && j == gc
  }

  /** A pristine layout has a single goal cell. */
  lemma LayoutSingleGoal(n: int)
    requires IsLayout(n)
    ensures SingleGoalAt(Layout(n), GoalRow(n), GoalCol(n))
  {
    forall i, j | 0 <= i < Rows && 0 <= j < Cols && Layout(n)[i][j] == Goal
      ensures i == GoalRow(n) && j == GoalCol(n)
    {
      UniqueGoal(n, i, j);
    }
  }

  /** With a single goal cell, a legal block on the goal is standing on it. */
  lemma WinNeedsStanding(g: Grid, gr: int, gc: int, b: Block, o: Origin)
    requires SingleGoalAt(g, gr, gc)
    requires Legal(b) && OriginAligned(o)
    requires OnBoth(g, CellsOf(b, o), Goal)
    ensures Standing(b)
  {
    SameCellSameSpot(b, o);
  }

  /** Both cubes on the goal reset the attempts to 1 at once, on every
      frame, whether the block is still sinking or the next level loads. */
  lemma GoalResetsAttempts(s: State, c: Cells, elapsed: bool)
    requires OnBoth(s.grid, c, Goal)
    ensures Win(s, c, elapsed).attempts == 1
  {
  }

  /** When the win completes: the next flag, 100 points, the start pose and
      the next level's pristine layout and origin terms. */
  lemma WinAdvances(s: State, c: Cells)
    requires OnBoth(s.grid, c, Goal) && s.block.c1.y - 2 < -20
    requires 1 <= s.flag <= 7
    ensures var r := Win(s, c, true);
      r.flag == s.flag + 1 && r.score == s.score + 100 && r.attempts == 1 &&
      r.block == Start() && r.stmove == 0 && r.moves == s.moves &&
      r.grid == Layout(LayoutNumber(s.flag + 1)) &&
      r.origin == AdvanceOrigin(s.origin, s.flag + 1)
  {
  }

  /** Winning the last level opens the winning end screen. */
  lemma LastWinShowsYouWin(s: State, c: Cells)
    requires OnBoth(s.grid, c, Goal) && s.block.c1.y - 2 < -20 && s.flag == 8
    ensures var r := Win(s, c, true);
      r.flag == 9 && r.attempts == 1 && VerdictOf(r) == YouWin &&
      SessionTick(r, false).attempts == 1
  {
  }

  // ---------------------------------------------------------------------
  // The level-2 switches.

  /** The bridge cells hold what the latch last set, and the latch has settled. */
  predicate AtRest(g: Grid, l: Latch, r: int, ca: int, cb: int)
    requires 0 <= r < Rows && 0 <= ca < Cols && 0 <= cb < Cols
  {
    g[r][ca] == g[r][cb] == (if l.raised then Floor else Hole) && l.settled == l.raised
  }

  /** `n` consecutive evaluations with the switch pressed. */
  function Dwell(t: Toggle, n: nat, r: int, ca: int, cb: int): Toggle
    requires 0 <= r < Rows && 0 <= ca < Cols && 0 <= cb < Cols
    decreases n
  {
    if n == 0 then t else Dwell(Switch(t.grid, t.latch, true, r, ca, cb), n - 1, r, ca, cb)
  }

  /** Once pressed, further evaluations with the switch still pressed change
      nothing. */
  lemma SwitchHolds(g: Grid, l: Latch, r: int, ca: int, cb: int)
    requires 0 <= r < Rows && 0 <= ca < Cols && 0 <= cb < Cols && ca != cb
    ensures var t := Switch(g, l, true, r, ca, cb);
      Switch(t.grid, t.latch, true, r, ca, cb) == t
  {
  }

  lemma {:induction false} DwellHolds(g: Grid, l: Latch, n: nat, r: int, ca: int, cb: int)
    requires 0 <= r < Rows && 0 <= ca < Cols && 0 <= cb < Cols && ca != cb
    ensures Dwell(Switch(g, l, true, r, ca, cb), n, r, ca, cb) == Switch(g, l, true, r, ca, cb)
    decreases n
  {
    if n > 0 {
      SwitchHolds(g, l, r, ca, cb);
      DwellHolds(g, l, n - 1, r, ca, cb);
    }
  }

  /** A visit to a switch, however many frames the block stays on it, flips
      its bridge exactly once; after the block leaves, the switch is at rest
      again and the next visit flips the bridge back.  Nothing but the two
      bridge cells changes. */
  lemma VisitFlipsOnce(g: Grid, l: Latch, n: nat, r: int, ca: int, cb: int)
    requires 0 <= r < Rows && 0 <= ca < Cols && 0 <= cb < Cols && ca != cb
    requires AtRest(g, l, r, ca, cb)
    requires n >= 1
    ensures var on := Dwell(Toggle(g, l), n, r, ca, cb);
      var off := Switch(on.grid, on.latch, false, r, ca, cb);
      off.latch.raised == !l.raised && AtRest(off.grid, off.latch, r, ca, cb) &&
      forall i, j :: 0 <= i < Rows && 0 <= j < Cols && !(i == r && (j == ca || j == cb)) ==>
        off.grid[i][j] == g[i][j]
  {
    DwellHolds(g, l, n - 1, r, ca, cb);
  }

  /** Level 2 starts with both switches at rest and both bridges lowered. */
  lemma Level2AtRest(s: State)
    requires s.flag == 2
    ensures var r := LoadLevel(s);
      AtRest(r.grid, r.soft, 6, 4, 5) && AtRest(r.grid, r.heavy, 6, 10, 11) &&
      !r.soft.raised && !r.heavy.raised
  {
    LayoutCell(2, 6, 4, 3);
    LayoutCell(2, 6, 5, 3);
    LayoutCell(2, 6, 10, 7);
    LayoutCell(2, 6, 11, 7);
  }

  // ---------------------------------------------------------------------
  // Level 7's bridge, level 4's fragile tiles.

  /** The level-7 switch only ever lays cell (7,3); it never removes it. */
  lemma BridgeOneWay(s: State, c: Cells)
    ensures var r := Bridge(s, c);
      (s.grid[7][3] == Floor ==> r.grid[7][3] == Floor) &&
      (OnBoth(s.grid, c, SoftSwitch) ==> r.grid[7][3] == Floor) &&
      (!OnBoth(s.grid, c, SoftSwitch) ==> r == s) &&
      forall i, j :: 0 <= i < Rows && 0 <= j < Cols && (i, j) != (7, 3) ==> r.grid[i][j] == s.grid[i][j]
  {
  }

  /** A fragile tile breaks only under a standing block (cubes at different
      heights), and only the tile under cube 1 breaks. */
  lemma FragileBreaksUnderStanding(s: State, c: Cells)
    ensures var r := BreakFragile(s, c);
      var breaks := OnBoth(s.grid, c, Fragile) && s.block.c1.y != s.block.c2.y;
      (breaks ==> 0 <= c.r1 < Rows && 0 <= c.l1 < Cols && r.grid[c.r1][c.l1] == Hole) &&
      (!breaks ==> r == s) &&
      forall i, j :: 0 <= i < Rows && 0 <= j < Cols && (i, j) != (c.r1, c.l1) ==> r.grid[i][j] == s.grid[i][j]
  {
  }

  /** The writes level 4 repeats on every frame are the last writes of
      `level4()`. */
  lemma FragileFillsEndLevel4()
    ensures |LevelFills(4)| >= 3
    ensures LevelFills(4)[|LevelFills(4)| - 3..] == FragileFills()
  {
  }

  /** The level-4 rewrite puts back every fragile tile and the marker of the
      pristine layout and touches no other cell. */
  lemma FragileRewrite(g: Grid, i: int, j: int)
    requires 0 <= i < Rows && 0 <= j < Cols
    ensures var t := Layout(4)[i][j];
      PaintAll(g, FragileFills())[i][j] == if t == Fragile || t == Marker then t else g[i][j]
  {
    var fs := LevelFills(4);
    var ff := FragileFills();
    FragileFillsEndLevel4();
    PaintAllAt(g, ff, i, j);
    PaintAllAt(Blank(), fs, i, j);
    var m := |fs| - 3;
    if Covers(ff[2], i, j) {
      LayoutCell(4, i, j, m + 2);
    } else if Covers(ff[1], i, j) {
      LayoutCell(4, i, j, m + 1);
    } else if Covers(ff[0], i, j) {
      LayoutCell(4, i, j, m);
    } else {
      CodeAtOrigin(ff, i, j, g[i][j]);
      CodeAtOrigin(fs, i, j, Hole);
      assert forall k :: 0 <= k < |fs| && Covers(fs[k], i, j) ==> fs[k].code != Fragile && fs[k].code != Marker;
      assert Layout(4)[i][j] != Fragile && Layout(4)[i][j] != Marker;
    }
  }

  /** On the pristine level-4 layout the per-frame rewrite changes nothing. */
  lemma RewriteKeepsPristine()
    ensures PaintAll(Layout(4), FragileFills()) == Layout(4)
  {
    forall i, j | 0 <= i < Rows && 0 <= j < Cols
      ensures PaintAll(Layout(4), FragileFills())[i][j] == Layout(4)[i][j]
    {
      FragileRewrite(Layout(4), i, j);
    }
    GridExt(PaintAll(Layout(4), FragileFills()), Layout(4));
  }

  // ---------------------------------------------------------------------
  // The levers of levels 8 and 9.

  /** Standing on the lever splits the block: the cubes jump by the level's
      fixed offsets and only cube 2 obeys the keys, unless the frame's cells
      are rejoin cells. */
  lemma LeverSplits(s: State, c: Cells)
    requires s.flag == 7 || s.flag == 8
    requires OnBoth(s.grid, c, Lever)
    requires var v := LeverOf(s.flag); c.r2 != v.row2 || c.l2 != v.col2
    ensures var r := UseLever(s, c, LeverOf(s.flag));
      var v := LeverOf(s.flag);
      r.mode == Cube2Only && r.block == Thrown(s.block, v) &&
      r.grid == s.grid && r.flag == s.flag
  {
  }

  /** Control returns to both cubes exactly on the rejoin cells; cube 2 alone
      on its rejoin cell hands control to cube 1. */
  lemma LeverRejoins(s: State, c: Cells)
    requires s.flag == 7 || s.flag == 8
    ensures var r := UseLever(s, c, LeverOf(s.flag));
      var v := LeverOf(s.flag);
      (c.r1 == v.row1 && c.l1 == v.col1 && c.r2 == v.row2 && c.l2 == v.col2 ==> r.mode == Coupled) &&
      (c.r2 == v.row2 && c.l2 == v.col2 && !(c.r1 == v.row1 && c.l1 == v.col1) ==> r.mode == Cube1Only)
  {
  }

  /** After the jump both cubes are back on the floor only if the cube whose
      height the lever lowers was the upper one: cube 1 on level 8, cube 2 on
      level 9.  Otherwise the cubes are left at heights -6 and 6. */
  lemma LeverLowersOneCube(b: Block, flag: int)
    requires flag == 7 || flag == 8
    requires Standing(b)
    ensures var v := LeverOf(flag);
      var r := Thrown(b, v);
      (r.c1.y == 0 && r.c2.y == 0) <==> (if flag == 7 then b.c1.y == 6 else b.c2.y == 6)
  {
  }

  /** The jumps move by whole cells. */
  lemma LeverAligned(b: Block, flag: int)
    requires Aligned(b)
    ensures Aligned(Thrown(b, LeverOf(flag)))
  {
  }

  // ---------------------------------------------------------------------
  // Whole frames.

  /** Presses and frames keep every position on the grid, so the cell
      mapping always divides exactly. */
  lemma PressKeepsAligned(s: State, d: Dir, guarded: bool)
    requires StateAligned(s)
    ensures StateAligned(Press(s, d, guarded))
  {
    StepAligned(s.block, d, s.mode);
  }

  lemma FallKeepsAligned(s: State, c: Cells, elapsed: bool)
    requires StateAligned(s)
    ensures StateAligned(Fall(s, c, elapsed))
  {
  }

  lemma AdvanceKeepsAligned(s: State)
    requires StateAligned(s)
    ensures StateAligned(Advance(s))
  {
    var s1 := Init(s);
    assert StateAligned(s1);
    var o := AdvanceOrigin(s1.origin, s1.flag + 1);
    assert OriginAligned(o);
  }

  lemma WinKeepsAligned(s: State, c: Cells, elapsed: bool)
    requires StateAligned(s)
    ensures StateAligned(Win(s, c, elapsed))
  {
    if OnBoth(s.grid, c, Goal) {
      var s1 := s.(attempts := 1, block := if elapsed then Sink(s.block, 2) else s.block);
      if s1.block.c1.y < -20 {
        AdvanceKeepsAligned(s1);
      }
    }
  }

  /** The tile rules touch the block only through a lever jump, and never
      the level, the counters or the origin. */
  lemma TileRulesFrame(s: State, c: Cells)
    ensures var r := TileRules(s, c);
      (r.block == s.block || r.block == Thrown(s.block, LeverOf(s.flag))) &&
      r.flag == s.flag && r.origin == s.origin && r.attempts == s.attempts &&
      r.score == s.score && r.moves == s.moves && r.stmove == s.stmove && r.disable == s.disable
  {
  }

  lemma TickKeepsAligned(s: State, elapsed: bool)
    requires StateAligned(s)
    ensures StateAligned(RuleTick(s, elapsed))
  {
    var c := CellsOf(s.block, s.origin);
    var e := elapsed && !Falling(s.grid, c);
    FallKeepsAligned(s, c, elapsed);
    WinKeepsAligned(Fall(s, c, elapsed), c, e);
    var s2 := Win(Fall(s, c, elapsed), c, e);
    TileRulesFrame(s2, c);
    LeverAligned(s2.block, s2.flag);
  }

  /** On a frame where the block rests on plain floor of a level without
      special tiles nothing changes. */
  lemma QuietFrame(s: State, elapsed: bool)
    requires s.flag in {1, 3, 5, 9}
    requires var c := CellsOf(s.block, s.origin); !Falling(s.grid, c) && !OnBoth(s.grid, c, Goal)
    ensures RuleTick(s, elapsed) == s
  {
  }

  // ---------------------------------------------------------------------
  // Two defects of the code as written, and the corrected behaviour.

  /** `n` falls in a row. */
  function RetryN(s: State, n: nat): State
    decreases n
  {
    if n == 0 then s else Retry(RetryN(s, n - 1))
  }

  /** One fall costs one attempt and keeps the level. */
  lemma RetryCounts(s: State)
    ensures Retry(s).attempts == s.attempts + 1 && Retry(s).flag == s.flag
  {
  }

  lemma {:induction false} RetryNAttempts(s: State, n: nat)
    ensures RetryN(s, n).attempts == s.attempts + n
    ensures RetryN(s, n).flag == s.flag
    decreases n
  {
    if n > 0 {
      RetryNAttempts(s, n - 1);
      RetryCounts(RetryN(s, n - 1));
    }
  }

  /** As written, leaving the losing end screen keeps `attempts` at 5; since
      the end screen opens only when `attempts` is exactly 4, no number of
      falls in the next game ends it. */
  lemma LossNeverRecursAsWritten(s: State, n: nat)
    requires s.attempts == 4
    ensures var next := SessionTickAsWritten(SessionTickAsWritten(s, false), true);
      next.flag == 1 && next.attempts == 5 &&
      SessionTickAsWritten(RetryN(next, n), false).flag == 1
  {
    var next := SessionTickAsWritten(SessionTickAsWritten(s, false), true);
    RetryNAttempts(next, n);
  }

  /** Corrected: the attempts restart at 1, so three falls in the next game
      end it again. */
  lemma LossRecurs(s: State)
    requires s.attempts == 4
    ensures var next := SessionTick(SessionTick(s, false), true);
      next.flag == 1 && next.attempts == 1 &&
      SessionTick(RetryN(next, 3), false).flag == 9
  {
    var next := SessionTick(SessionTick(s, false), true);
    RetryNAttempts(next, 3);
  }

  /** As written, a restart of level 9 while the halves are split keeps them
      split: the pristine layout comes back with the block standing at the
      start, yet the next press moves cube 2 alone, off cube 1 into the air. */
  lemma Level9RestartSplitAsWritten(s: State, d: Dir)
    requires s.flag == 8 && s.mode == Cube2Only
    ensures var r := LoadLevelAsWritten(s.(block := Start()));
      r.grid == Layout(9) && r.mode == Cube2Only && r.block == Start() &&
      !Legal(Step(r.block, d, r.mode))
  {
  }

  /** Corrected: every (re)load of levels 8 and 9 couples the block, so the
      first press from the start rolls it into a legal lying pose. */
  lemma LeverLevelsLoadCoupled(s: State, d: Dir)
    requires s.flag == 7 || s.flag == 8
    ensures var r := LoadLevel(s.(block := Start()));
      r.grid == Layout(LayoutNumber(s.flag)) && r.mode == Coupled &&
      Lying(Step(r.block, d, r.mode))
  {
    CoupledRoll(Start(), d);
  }
}
