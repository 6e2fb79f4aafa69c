/** The game state that the input callback and `draw()` share as globals,
    and the rules they apply to it: an arrow press, the per-frame tile
    rules, and the end-of-game screen. */
module Rules {
  import opened Tiles
  import opened Kinematics

  /** The per-level origin terms `l3, r3, l6, r6, l7, r7, r8, r9`: the x terms
      are added to every cube's x, the z terms to every cube's z, before the
      position is turned into a cell. */
  datatype Origin = Origin(x3: int, z3: int, x6: int, z6: int, x7: int, z7: int, z8: int, z9: int) {
    function DX(): int { x3 + x6 + x7 }
    function DZ(): int { z3 + z6 + z7 + z8 + z9 }
  }

  function NoOrigin(): Origin {
    Origin(0, 0, 0, 0, 0, 0, 0, 0)
  }

  /** A switch latch: `raised` is the bridge state the switch last set
      (`l2f`, `l2r`); `settled` is `raised` as it was when the block was last
      off the switch (`l2tog`, `l2togl`). */
  datatype Latch = Latch(settled: bool, raised: bool)

  /** All the global state the rules read and write. */
  datatype State = State(
    grid: Grid,
    block: Block,
    flag: int,       // current level; 9 is the end screen
    attempts: int,
    score: int,
    moves: int,
    stmove: int,     // moves since the level was last (re)loaded
    disable: bool,   // set while the block is falling: keyboard presses are ignored
    mode: Mode,
    soft: Latch,     // level 2, soft switch
    heavy: Latch,    // level 2, heavy switch
    origin: Origin)

  /** The globals as the program starts. */
  function Initial(): State {
    State(Blank(), Start(), 1, 1, 0, 0, 0, false, Coupled,
          Latch(false, false), Latch(false, false), NoOrigin())
  }

  // ---------------------------------------------------------------------
  // Cells under the block.

  /** C++ integer division of `a` by 6: truncates toward zero. */
  function TruncDiv6(a: int): int {
    if a >= 0 then a / 6 else -((-a) / 6)
  }

  /** The grid cells of the two cubes: row from z, column from x. */
  datatype Cells = Cells(r1: int, l1: int, r2: int, l2: int)

  function Col(x: int, o: Origin): int {
    TruncDiv6(-18 + x + o.DX()) + 4
  }

  function Row(z: int, o: Origin): int {
    TruncDiv6(-6 + z + o.DZ()) + 4
  }

  function CellsOf(b: Block, o: Origin): Cells {
    Cells(Row(b.c1.z, o), Col(b.c1.x, o), Row(b.c2.z, o), Col(b.c2.x, o))
  }

  /** Both cubes stand on cells holding `code`. */
  predicate OnBoth(g: Grid, c: Cells, code: int) {
    TileAt(g, c.r1, c.l1) == code && TileAt(g, c.r2, c.l2) == code
  }

  /** A cube over a hole or off the grid. */
  predicate Falling(g: Grid, c: Cells) {
    TileAt(g, c.r1, c.l1) == Hole || TileAt(g, c.r2, c.l2) == Hole ||
    c.r1 < 0 || c.l1 < 0 || c.r2 < 0 || c.l2 < 0
  }

  // ---------------------------------------------------------------------
  // Loading levels.

  /** Which `level<n>()` a flag loads: there is no `level5()`, so flags 5-8
      load layouts 6-9.  0 means none. */
  function LayoutNumber(flag: int): (n: int)
    ensures 1 <= flag <= 8 ==> IsLayout(n)
    ensures !(1 <= flag <= 8) ==> n == 0
  {
    if 1 <= flag <= 4 then flag else if 5 <= flag <= 8 then flag + 1 else 0
  }

  /** The current flag's `level<n>()`: the pristine grid, plus the latch and
      lever-mode resets that `level2()` and `level8()` perform.  This is the
      corrected load: it also resets the lever mode for `level9()`, which
      the program does not do (`LoadLevelAsWritten` is the load as written). */
  function LoadLevel(s: State): State {
    var n := LayoutNumber(s.flag);
    if n == 0 then s
    else if n == 2 then s.(grid := Layout(n), soft := Latch(false, false), heavy := Latch(false, false))
    else if n == 8 || n == 9 then s.(grid := Layout(n), mode := Coupled)
    else s.(grid := Layout(n))
  }

  /** `level9()` as written: it leaves the lever mode as it was. */
  function LoadLevelAsWritten(s: State): State {
    var n := LayoutNumber(s.flag);
    if n == 0 then s
    else if n == 2 then s.(grid := Layout(n), soft := Latch(false, false), heavy := Latch(false, false))
    else if n == 8 then s.(grid := Layout(n), mode := Coupled)
    else s.(grid := Layout(n))
  }

  /** `init()`: the start pose, input enabled, no moves in this attempt,
      and the current level's pristine grid. */
  function Init(s: State): State {
    LoadLevel(s.(block := Start(), disable := false, stmove := 0))
  }

  /** The origin terms set when the game advances to `flag`. */
  function AdvanceOrigin(o: Origin, flag: int): Origin {
    if flag == 3 then o.(x3 := 0, z3 := 18)
    else if flag == 5 then o.(x6 := -6, z6 := -18)
    else if flag == 6 then o.(x7 := 6, z7 := 6)
    else if flag == 7 then o.(z8 := 6)
    else if flag == 8 then o.(z9 := -6)
    else o
  }

  // ---------------------------------------------------------------------
  // An arrow press.

  /** One arrow press.  The keyboard ignores it while `disable` is set
      (`guarded`); the on-screen arrows do not check `disable`.  An accepted
      press counts as a move whatever it does to the block. */
  function Press(s: State, d: Dir, guarded: bool): State {
    if guarded && s.disable then s
    else s.(moves := s.moves + 1, stmove := s.stmove + 1, block := Step(s.block, d, s.mode))
  }

  // ---------------------------------------------------------------------
  // The rules of one frame, in the order `draw()` applies them.  The cells
  // are computed once, at the start of the frame; `elapsed` says that the
  // 0.05 s animation timer has run out in this frame.

  function Sink(b: Block, k: int): Block {
    Block(b.c1.(y := b.c1.y - k), b.c2.(y := b.c2.y - k))
  }

  /** The end of a fall: one attempt used, ten points and this attempt's
      moves taken back, and the level reloaded. */
  function Retry(s: State): State {
    LoadLevel(Init(s.(attempts := s.attempts + 1, score := s.score - 10, moves := s.moves - s.stmove)))
  }

  /** Over a hole: sink 2 per timer tick with input disabled; once cube 1 is
      below -15, retry. */
  function Fall(s: State, c: Cells, elapsed: bool): State {
    if !Falling(s.grid, c) then s
    else
      var s1 := if elapsed then s.(block := Sink(s.block, 2), disable := true) else s;
      if s1.block.c1.y < -15 then Retry(s1) else s1
  }

  /** The move to the next level: `init()` for the level just won, then the
      next flag, 100 points, the next layout and its origin terms. */
  function Advance(s: State): State {
    var s1 := Init(s);
    var f := s1.flag + 1;
    LoadLevel(s1.(flag := f, score := s1.score + 100, origin := AdvanceOrigin(s1.origin, f)))
  }

  /** Both cubes on the goal: attempts reset to 1, sink 2 per timer tick;
      once cube 1 is below -20, advance. */
  function Win(s: State, c: Cells, elapsed: bool): State {
    if !OnBoth(s.grid, c, Goal) then s
    else
      var s1 := s.(attempts := 1, block := if elapsed then Sink(s.block, 2) else s.block);
      if s1.block.c1.y < -20 then Advance(s1) else s1
  }

  /** A grid and a latch after one evaluation of a switch. */
  datatype Toggle = Toggle(grid: Grid, latch: Latch)

  /** One evaluation of a level-2 switch whose bridge is cells (r, ca) and
      (r, cb): while pressed it raises a lowered bridge or lowers a raised
      one, but only if the latch has settled to match; while not pressed the
      latch settles. */
  function Switch(g: Grid, l: Latch, pressed: bool, r: int, ca: int, cb: int): Toggle
    requires 0 <= r < Rows && 0 <= ca < Cols && 0 <= cb < Cols
  {
    if pressed then
      if g[r][ca] == Hole && !l.settled then
        Toggle(SetTile(SetTile(g, r, ca, Floor), r, cb, Floor), l.(raised := true))
      else if g[r][ca] == Floor && l.settled then
        Toggle(SetTile(SetTile(g, r, ca, Hole), r, cb, Hole), l.(raised := false))
      else Toggle(g, l)
    else Toggle(g, l.(settled := l.raised))
  }

  /** Level 2: the soft switch (either cube on code 2) drives (6,4) and (6,5);
      the heavy switch (both cubes on code 3) drives (6,10) and (6,11). */
  function Switches(s: State, c: Cells): State {
    var soft := Switch(s.grid, s.soft,
      TileAt(s.grid, c.r1, c.l1) == SoftSwitch || TileAt(s.grid, c.r2, c.l2) == SoftSwitch, 6, 4, 5);
    var heavy := Switch(soft.grid, s.heavy, OnBoth(soft.grid, c, HeavySwitch), 6, 10, 11);
    s.(grid := heavy.grid, soft := soft.latch, heavy := heavy.latch)
  }

  /** Level 4: a block standing on fragile tiles breaks the tile under cube 1. */
  function BreakFragile(s: State, c: Cells): State {
    if OnBoth(s.grid, c, Fragile) && s.block.c1.y != s.block.c2.y then
      s.(grid := SetTile(s.grid, c.r1, c.l1, Hole))
    else s
  }

  /** Level 7: both cubes on the switch lay the bridge cell (7,3). */
  function Bridge(s: State, c: Cells): State {
    if OnBoth(s.grid, c, SoftSwitch) then s.(grid := SetTile(s.grid, 7, 3, Floor)) else s
  }

  /** A lever of levels 8 and 9: how far each cube jumps, and the cells at
      which the two halves are rejoined. */
  datatype LeverRule = LeverRule(jump1: Cube, jump2: Cube, row1: int, col1: int, row2: int, col2: int)

  function LeverOf(flag: int): LeverRule {
    if flag == 7 then LeverRule(Cube(36, -6, 18), Cube(36, 0, -18), 5, 11, 5, 12)
    else LeverRule(Cube(-6, 0, 0), Cube(-66, -6, 0), 5, 7, 4, 7)
  }

  function Jump(c: Cube, j: Cube): Cube {
    Cube(c.x + j.x, c.y + j.y, c.z + j.z)
  }

  /** The block after the lever throws both cubes. */
  function Thrown(b: Block, v: LeverRule): Block {
    Block(Jump(b.c1, v.jump1), Jump(b.c2, v.jump2))
  }

  /** Both cubes on the lever: the cubes jump apart and only cube 2 obeys the
      keys.  Then, on the cells of the start of the frame: both cubes on the
      rejoin cells couple them again; cube 2 alone on its rejoin cell hands
      control to cube 1. */
  function UseLever(s: State, c: Cells, v: LeverRule): State {
    var s1 := if OnBoth(s.grid, c, Lever) then
        s.(block := Thrown(s.block, v), mode := Cube2Only)
      else s;
    if c.r1 == v.row1 && c.l1 == v.col1 && c.r2 == v.row2 && c.l2 == v.col2 then s1.(mode := Coupled)
    else if c.r2 == v.row2 && c.l2 == v.col2 then s1.(mode := Cube1Only)
    else s1
  }

  /** The level-specific tile rules of one frame, in the order `draw()`
      applies them, on the cells computed at the start of the frame. */
  function TileRules(s: State, c: Cells): State {
    var s3 := if s.flag == 4 then s.(grid := PaintAll(s.grid, FragileFills())) else s;
    var s4 := if s3.flag == 2 then Switches(s3, c) else s3;
    var s5 := if s4.flag == 4 then BreakFragile(s4, c) else s4;
    var s6 := if s5.flag == 6 then Bridge(s5, c) else s5;
    if s6.flag == 7 || s6.flag == 8 then UseLever(s6, c, LeverOf(s6.flag)) else s6
  }

  /** One frame of the rules: falling, winning, then the tile rules.  The
      fall and the win share one timer, which the fall restarts when it
      sinks the block, so the win never sinks it again in the same frame. */
  function RuleTick(s: State, elapsed: bool): State {
    var c := CellsOf(s.block, s.origin);
    TileRules(Win(Fall(s, c, elapsed), c, elapsed && !Falling(s.grid, c)), c)
  }

  // ---------------------------------------------------------------------
  // The session checks at the top of `draw()` and the end screen.

  /** The verdict the end screen shows. */
  datatype Verdict = YouWin | YouLose

  function VerdictOf(s: State): Verdict {
    if s.attempts <= 3 then YouWin else YouLose
  }

  /** The end screen's effect on one frame, before the 3 s delay has run out. */
  function EndScreen(s: State): State {
    s.(grid := Blank(), moves := 0, score := 0,
       attempts := if s.attempts > 3 then 5 else s.attempts, origin := NoOrigin())
  }

  /** Attempts exhausted (exactly 4) open the end screen; after the delay the
      game goes back to level 1.  This is the corrected end screen: it also
      resets the attempt count, which the program does not do
      (`SessionTickAsWritten` is the end screen as written). */
  function SessionTick(s: State, delayOver: bool): State {
    var s1 := if s.attempts == 4 then s.(flag := 9) else s;
    if s1.flag != 9 then s1
    else
      var s2 := EndScreen(s1);
      if delayOver then Init(s2.(flag := 1, attempts := 1)) else s2
  }

  /** The end screen as written: leaving it does not reset `attempts`. */
  function SessionTickAsWritten(s: State, delayOver: bool): State {
    var s1 := if s.attempts == 4 then s.(flag := 9) else s;
    if s1.flag != 9 then s1
    else
      var s2 := EndScreen(s1);
      if delayOver then Init(s2.(flag := 1)) else s2
  }
}
