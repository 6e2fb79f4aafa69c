/** The game as the program runs it: the globals of the source gathered in
    one object whose methods update them in place, the tile array `a[10][15]`
    included.  Every method is proved against the rule of the same name in
    module Rules, through the abstraction `Model()`. */
module Engine {
  import opened Tiles
  import opened Kinematics
  import opened Rules

  class Game {
    /** The tile array `a`. */
    const grid: array2<int>
    /** The contents of `grid`, as a value. */
    ghost var cells: Grid

    var block: Block
    var flag: int
    var attempts: int
    var score: int
    var moves: int
    var stmove: int
    var disable: bool
    var mode: Mode
    var soft: Latch
    var heavy: Latch
    var origin: Origin

    /** `grid` is 10 x 15 and holds `cells`. */
    ghost predicate Valid()
      reads this, grid
    {
      grid.Length0 == Rows && grid.Length1 == Cols &&
      forall i, j :: 0 <= i < Rows && 0 <= j < Cols ==> grid[i, j] == cells[i][j]
    }

    /** The state the rules of module Rules are stated on. */
    ghost function Model(): State
      reads this
    {
      State(cells, block, flag, attempts, score, moves, stmove, disable, mode, soft, heavy, origin)
    }

    /** The globals as the program starts: a zeroed array, level 1 selected. */
    constructor ()
      ensures Valid() && Model() == Initial() && fresh(grid)
    {
      grid := new int[Rows, Cols]((i, j) => Hole);
      cells := Blank();
      block := Start();
      flag := 1;
      attempts := 1;
      score := 0;
      moves := 0;
      stmove := 0;
      disable := false;
      mode := Coupled;
      soft := Latch(false, false);
      heavy := Latch(false, false);
      origin := NoOrigin();
    }

    /** A cell of the array; outside the array, a hole. */
    function Tile(r: int, c: int): (t: int)
      requires Valid()
      reads this, grid
      ensures t == TileAt(cells, r, c)
    {
      if 0 <= r < Rows && 0 <= c < Cols then grid[r, c] else Hole
    }

    /** Both cubes on cells holding `code`. */
    function Both(c: Cells, code: int): (b: bool)
      requires Valid()
      reads this, grid
      ensures b == OnBoth(cells, c, code)
    {
      Tile(c.r1, c.l1) == code && Tile(c.r2, c.l2) == code
    }

    /** A cube over a hole or off the array. */
    function OverHole(c: Cells): (b: bool)
      requires Valid()
      reads this, grid
      ensures b == Falling(cells, c)
    {
      Tile(c.r1, c.l1) == Hole || Tile(c.r2, c.l2) == Hole || c.r1 < 0 || c.l1 < 0 || c.r2 < 0 || c.l2 < 0
    }

    /** One cell write `a[r][c] = v`. */
    method Put(r: int, c: int, v: int)
      requires Valid() && 0 <= r < Rows && 0 <= c < Cols
      modifies this, grid
      ensures Valid() && Model() == old(Model()).(grid := SetTile(old(cells), r, c, v))
    {
      grid[r, c] := v;
      cells := SetTile(cells, r, c, v);
    }

    /** The nested loops of one rectangle write. */
    method Paint(f: Fill)
      requires Valid() && Fits(f)
      modifies this, grid
      ensures Valid() && Model() == old(Model()).(grid := PaintGrid(old(cells), f))
    {
      var i := f.top;
      while i < f.bottom
        invariant f.top <= i <= f.bottom
        invariant Valid() && Model() == old(Model()).(grid := cells)
        invariant forall r, c :: 0 <= r < Rows && 0 <= c < Cols ==>
          cells[r][c] == if f.top <= r < i && f.left <= c < f.right then f.code else old(cells)[r][c]
      {
        var j := f.left;
        while j < f.right
          invariant f.left <= j <= f.right
          invariant Valid() && Model() == old(Model()).(grid := cells)
          invariant forall r, c :: 0 <= r < Rows && 0 <= c < Cols ==>
            cells[r][c] == if (f.top <= r < i && f.left <= c < f.right) || (r == i && f.left <= c < j)
              then f.code else old(cells)[r][c]
        {
          Put(i, j, f.code);
          j := j + 1;
        }
        i := i + 1;
      }
      GridExt(cells, PaintGrid(old(cells), f));
    }

    /** A run of rectangle writes, in order. */
    method PaintSeq(fs: seq<Fill>)
      requires Valid() && forall k :: 0 <= k < |fs| ==> Fits(fs[k])
      modifies this, grid
      ensures Valid() && Model() == old(Model()).(grid := PaintAll(old(cells), fs))
    {
      var k := 0;
      while k < |fs|
        invariant 0 <= k <= |fs|
        invariant Valid() && Model() == old(Model()).(grid := cells)
        invariant cells == PaintAll(old(cells), fs[..k])
      {
        Paint(fs[k]);
        assert fs[..k + 1][..k] == fs[..k];
        k := k + 1;
      }
      assert fs[..|fs|] == fs;
    }

    /** `level<n>()` for the current flag. */
    method LoadLevel()
      requires Valid()
      modifies this, grid
      ensures Valid() && Model() == Rules.LoadLevel(old(Model()))
    {
      var n := LayoutNumber(flag);
      if n == 0 {
        return;
      }
      LevelFacts(n);
      PaintSeq(LevelFills(n));
      LayoutOverwrites(n, old(cells));
      if n == 2 {
        soft := Latch(false, false);
        heavy := Latch(false, false);
      } else if n == 8 || n == 9 {
        mode := Coupled;
      }
    }

    /** `init()`. */
    method Init()
      requires Valid()
      modifies this, grid
      ensures Valid() && Model() == Rules.Init(old(Model()))
    {
      block := Start();
      disable := false;
      stmove := 0;
      LoadLevel();
    }

    /** An arrow press; `guarded` for the keyboard, which checks `disable`. */
    method Press(d: Dir, guarded: bool)
      requires Valid()
      modifies this
      ensures Valid() && Model() == Rules.Press(old(Model()), d, guarded)
    {
      if guarded && disable {
        return;
      }
      moves := moves + 1;
      stmove := stmove + 1;
      block := Step(block, d, mode);
    }

    /** The restart after a completed fall. */
    method Retry()
      requires Valid()
      modifies this, grid
      ensures Valid() && Model() == Rules.Retry(old(Model()))
    {
      attempts := attempts + 1;
      score := score - 10;
      moves := moves - stmove;
      Init();
      LoadLevel();
    }

    method Fall(c: Cells, elapsed: bool)
      requires Valid()
      modifies this, grid
      ensures Valid() && Model() == Rules.Fall(old(Model()), c, elapsed)
    {
      if !OverHole(c) {
        return;
      }
      if elapsed {
        block := Sink(block, 2);
        disable := true;
      }
      if block.c1.y < -15 {
        Retry();
      }
    }

    /** The move to the next level after a win. */
    method Advance()
      requires Valid()
      modifies this, grid
      ensures Valid() && Model() == Rules.Advance(old(Model()))
    {
      Init();
      flag := flag + 1;
      score := score + 100;
      origin := AdvanceOrigin(origin, flag);
      LoadLevel();
    }

    method Win(c: Cells, elapsed: bool)
      requires Valid()
      modifies this, grid
      ensures Valid() && Model() == Rules.Win(old(Model()), c, elapsed)
    {
      if !Both(c, Goal) {
        return;
      }
      attempts := 1;
      if elapsed {
        block := Sink(block, 2);
      }
      if block.c1.y < -20 {
        Advance();
      }
    }

    /** One evaluation of a level-2 switch; the new latch is returned. */
    method Flip(l: Latch, pressed: bool, r: int, ca: int, cb: int) returns (l': Latch)
      requires Valid() && 0 <= r < Rows && 0 <= ca < Cols && 0 <= cb < Cols
      modifies this, grid
      ensures Valid() && Model() == old(Model()).(grid := cells)
      ensures Toggle(cells, l') == Switch(old(cells), l, pressed, r, ca, cb)
    {
      l' := l;
      if pressed {
        if grid[r, ca] == Hole && !l.settled {
          Put(r, ca, Floor);
          Put(r, cb, Floor);
          l' := l.(raised := true);
        } else if grid[r, ca] == Floor && l.settled {
          Put(r, ca, Hole);
          Put(r, cb, Hole);
          l' := l.(raised := false);
        }
      } else {
        l' := l.(settled := l.raised);
      }
    }

    method Switches(c: Cells)
      requires Valid()
      modifies this, grid
      ensures Valid() && Model() == Rules.Switches(old(Model()), c)
    {
      var l := Flip(soft, Tile(c.r1, c.l1) == SoftSwitch || Tile(c.r2, c.l2) == SoftSwitch, 6, 4, 5);
      soft := l;
      l := Flip(heavy, Both(c, HeavySwitch), 6, 10, 11);
      heavy := l;
    }

    method BreakFragile(c: Cells)
      requires Valid()
      modifies this, grid
      ensures Valid() && Model() == Rules.BreakFragile(old(Model()), c)
    {
      if Both(c, Fragile) && block.c1.y != block.c2.y {
        Put(c.r1, c.l1, Hole);
      }
    }

    method Bridge(c: Cells)
      requires Valid()
      modifies this, grid
      ensures Valid() && Model() == Rules.Bridge(old(Model()), c)
    {
      if Both(c, SoftSwitch) {
        Put(7, 3, Floor);
      }
    }

    method UseLever(c: Cells, v: LeverRule)
      requires Valid()
      modifies this
      ensures Valid() && Model() == Rules.UseLever(old(Model()), c, v)
    {
      if Both(c, Lever) {
        block := Thrown(block, v);
        mode := Cube2Only;
      }
      if c.r1 == v.row1 && c.l1 == v.col1 && c.r2 == v.row2 && c.l2 == v.col2 {
        mode := Coupled;
      } else if c.r2 == v.row2 && c.l2 == v.col2 {
        mode := Cube1Only;
      }
    }

    method TileRules(c: Cells)
      requires Valid()
      modifies this, grid
      ensures Valid() && Model() == Rules.TileRules(old(Model()), c)
    {
      if flag == 4 {
        PaintSeq(FragileFills());
      }
      if flag == 2 {
        Switches(c);
      }
      if flag == 4 {
        BreakFragile(c);
      }
      if flag == 6 {
        Bridge(c);
      }
      if flag == 7 || flag == 8 {
        UseLever(c, LeverOf(flag));
      }
    }

    /** The rules part of one frame of `draw()`. */
    method Tick(elapsed: bool)
      requires Valid()
      modifies this, grid
      ensures Valid() && Model() == RuleTick(old(Model()), elapsed)
    {
      var c := CellsOf(block, origin);
      var falling := OverHole(c);
      Fall(c, elapsed);
      Win(c, elapsed && !falling);
      TileRules(c);
    }

    /** The session checks at the top of `draw()`, and the end screen. */
    method SessionTick(delayOver: bool)
      requires Valid()
      modifies this, grid
      ensures Valid() && Model() == Rules.SessionTick(old(Model()), delayOver)
    {
      if attempts == 4 {
        flag := 9;
      }
      if flag != 9 {
        return;
      }
      Paint(Rect(0, Rows, 0, Cols, Hole));
      GridExt(cells, Blank());
      moves := 0;
      score := 0;
      if attempts > 3 {
        attempts := 5;
      }
      origin := NoOrigin();
      if delayOver {
        flag := 1;
        attempts := 1;
        Init();
      }
    }
  }
}
