/** The block: two unit cubes with integer world coordinates, rolled by the
    four arrow keys (`keyboard`, and the on-screen arrows that repeat it). */
module Kinematics {

  /** One cube: `x` and `z` are horizontal and move in steps of 6; `y` is the
      height, 0 on the floor and 6 on top of the other cube. */
  datatype Cube = Cube(x: int, y: int, z: int)

  /** `c1` is (posx1, posy1, posz1) and `c2` is (posx2, posy2, posz2). */
  datatype Block = Block(c1: Cube, c2: Cube)

  /** The four arrow keys: Right is +x, Left is -x, Up is -z, Down is +z. */
  datatype Dir = Right | Left | Up | Down

  /** The lever flag `l8f`: 0 moves both cubes, 1 moves only cube 2,
      2 moves only cube 1. */
  datatype Mode = Coupled | Cube2Only | Cube1Only

  /** The pose `init()` sets: standing at the origin, cube 2 on top. */
  function Start(): Block {
    Block(Cube(0, 0, 0), Cube(0, 6, 0))
  }

  // ---------------------------------------------------------------------
  // The four `else if` chains, one per key, exactly as the source writes
  // them.  A pose that matches no branch is left as it is.

  function RollRight(b: Block): Block {
    var c1, c2 := b.c1, b.c2;
    if c1.x == c2.x && c2.y > c1.y then Block(c1.(x := c1.x + 6), c2.(x := c2.x + 12, y := c2.y - 6))
    else if c1.x == c2.x && c1.y > c2.y then Block(c1.(x := c1.x + 12, y := c1.y - 6), c2.(x := c2.x + 6))
    else if c1.x > c2.x && c1.y == c2.y then Block(c1.(x := c1.x + 6), c2.(x := c2.x + 12, y := c2.y + 6))
    else if c2.x > c1.x && c1.y == c2.y then Block(c1.(x := c1.x + 12, y := c1.y + 6), c2.(x := c2.x + 6))
    else if c2.x == c1.x && c1.y == c2.y then Block(c1.(x := c1.x + 6), c2.(x := c2.x + 6))
    else b
  }

  function RollLeft(b: Block): Block {
    var c1, c2 := b.c1, b.c2;
    if c1.x == c2.x && c2.y > c1.y then Block(c1.(x := c1.x - 6), c2.(x := c2.x - 12, y := c2.y - 6))
    else if c1.x == c2.x && c1.y > c2.y then Block(c1.(x := c1.x - 12, y := c1.y - 6), c2.(x := c2.x - 6))
    else if c1.x > c2.x && c1.y == c2.y then Block(c1.(x := c1.x - 12, y := c1.y + 6), c2.(x := c2.x - 6))
    else if c2.x > c1.x && c1.y == c2.y then Block(c1.(x := c1.x - 6), c2.(x := c2.x - 12, y := c2.y + 6))
    else if c2.x == c1.x && c1.y == c2.y then Block(c1.(x := c1.x - 6), c2.(x := c2.x - 6))
    else b
  }

  function RollUp(b: Block): Block {
    var c1, c2 := b.c1, b.c2;
    if c1.z == c2.z && c2.y > c1.y then Block(c1.(z := c1.z - 6), c2.(z := c2.z - 12, y := c2.y - 6))
    else if c1.z == c2.z && c1.y > c2.y then Block(c1.(z := c1.z - 12, y := c1.y - 6), c2.(z := c2.z - 6))
    else if c1.z > c2.z && c1.y == c2.y then Block(c1.(z := c1.z - 12, y := c1.y + 6), c2.(z := c2.z - 6))
    else if c2.z > c1.z && c1.y == c2.y then Block(c1.(z := c1.z - 6), c2.(z := c2.z - 12, y := c2.y + 6))
    else if c2.z == c1.z && c1.y == c2.y then Block(c1.(z := c1.z - 6), c2.(z := c2.z - 6))
    else b
  }

  function RollDown(b: Block): Block {
    var c1, c2 := b.c1, b.c2;
    if c1.z == c2.z && c2.y > c1.y then Block(c1.(z := c1.z + 6), c2.(z := c2.z + 12, y := c2.y - 6))
    else if c1.z == c2.z && c1.y > c2.y then Block(c1.(z := c1.z + 12, y := c1.y - 6), c2.(z := c2.z + 6))
    else if c1.z > c2.z && c1.y == c2.y then Block(c1.(z := c1.z + 6), c2.(z := c2.z + 12, y := c2.y + 6))
    else if c2.z > c1.z && c1.y == c2.y then Block(c1.(z := c1.z + 12, y := c1.y + 6), c2.(z := c2.z + 6))
    else if c2.z == c1.z && c1.y == c2.y then Block(c1.(z := c1.z + 6), c2.(z := c2.z + 6))
    else b
  }

  /** One step of a single cube along `d` (the decoupled modes). */
  function Shift(c: Cube, d: Dir): Cube {
    match d
    case Right => c.(x := c.x + 6)
    case Left => c.(x := c.x - 6)
    case Up => c.(z := c.z - 6)
    case Down => c.(z := c.z + 6)
  }

  /** The pose after one arrow press in mode `m`. */
  function Step(b: Block, d: Dir, m: Mode): Block {
    match m
    case Coupled => (match d
      case Right => RollRight(b)
      case Left => RollLeft(b)
      case Up => RollUp(b)
      case Down => RollDown(b))
    case Cube2Only => b.(c2 := Shift(b.c2, d))
    case Cube1Only => b.(c1 := Shift(b.c1, d))
  }

  // ---------------------------------------------------------------------
  // Legal poses and the direction-independent rolling rule.

  function Abs(n: int): nat {
    if n < 0 then -n else n
  }

  /** Every horizontal coordinate is a multiple of 6 (a grid cell). */
  predicate Aligned(b: Block) {
    b.c1.x % 6 == 0 && b.c1.z % 6 == 0 && b.c2.x % 6 == 0 && b.c2.z % 6 == 0
  }

  /** Both cubes over one cell, one of them on top of the other. */
  predicate Standing(b: Block) {
    b.c1.x == b.c2.x && b.c1.z == b.c2.z &&
    ((b.c1.y == 0 && b.c2.y == 6) || (b.c1.y == 6 && b.c2.y == 0))
  }

  /** Both cubes on the floor, over two 4-adjacent cells. */
  predicate Lying(b: Block) {
    b.c1.y == 0 && b.c2.y == 0 &&
    ((Abs(b.c1.x - b.c2.x) == 6 && b.c1.z == b.c2.z) || (b.c1.x == b.c2.x && Abs(b.c1.z - b.c2.z) == 6))
  }

  predicate Legal(b: Block) {
    Aligned(b) && (Standing(b) || Lying(b))
  }

  /** The horizontal position of a cube. */
  datatype Spot = Spot(x: int, z: int)

  function SpotOf(c: Cube): Spot {
    Spot(c.x, c.z)
  }

  /** The cells the block covers. */
  function Footprint(b: Block): set<Spot> {
    {SpotOf(b.c1), SpotOf(b.c2)}
  }

  /** `p` moved k steps along `d`. */
  function Toward(p: Spot, d: Dir, k: int): Spot {
    match d
    case Right => Spot(p.x + 6 * k, p.z)
    case Left => Spot(p.x - 6 * k, p.z)
    case Up => Spot(p.x, p.z - 6 * k)
    case Down => Spot(p.x, p.z + 6 * k)
  }

  /** How far `p` lies along `d`. */
  function Reach(p: Spot, d: Dir): int {
    match d
    case Right => p.x
    case Left => -p.x
    case Up => -p.z
    case Down => p.z
  }

  /** A lying block whose long axis is parallel to `d`. */
  predicate AlongAxis(b: Block, d: Dir) {
    if d == Right || d == Left then b.c1.z == b.c2.z else b.c1.x == b.c2.x
  }

  /** The cube of a lying block that is farther along `d`. */
  function Leading(b: Block, d: Dir): Spot {
    if Reach(SpotOf(b.c1), d) >= Reach(SpotOf(b.c2), d) then SpotOf(b.c1) else SpotOf(b.c2)
  }

  /** The rolling rule stated once for every direction: standing tips over
      onto the next two cells; lying along the move stands up on the cell
      beyond the leading cube; lying across the move slides one cell. */
  function RolledFootprint(b: Block, d: Dir): set<Spot> {
    if Standing(b) then {Toward(SpotOf(b.c1), d, 1), Toward(SpotOf(b.c1), d, 2)}
    else if AlongAxis(b, d) then {Toward(Leading(b, d), d, 1)}
    else {Toward(SpotOf(b.c1), d, 1), Toward(SpotOf(b.c2), d, 1)}
  }

  /** The four key chains are mirror images of each other. */
  function MirrorX(b: Block): Block {
    Block(b.c1.(x := -b.c1.x), b.c2.(x := -b.c2.x))
  }

  function SwapXZ(b: Block): Block {
    Block(Cube(b.c1.z, b.c1.y, b.c1.x), Cube(b.c2.z, b.c2.y, b.c2.x))
  }

  lemma LeftMirrorsRight(b: Block)
    ensures RollLeft(b) == MirrorX(RollRight(MirrorX(b)))
  {
  }

  lemma DownMirrorsRight(b: Block)
    ensures RollDown(b) == SwapXZ(RollRight(SwapXZ(b)))
  {
  }

  lemma UpMirrorsLeft(b: Block)
    ensures RollUp(b) == SwapXZ(RollLeft(SwapXZ(b)))
  {
  }

  /** In coupled mode every legal pose rolls by the direction-independent
      rule, into a legal pose: standing becomes lying, lying along the move
      becomes standing, lying across the move stays lying. */
  lemma CoupledRoll(b: Block, d: Dir)
    requires Legal(b)
    ensures Legal(Step(b, d, Coupled))
    ensures Footprint(Step(b, d, Coupled)) == RolledFootprint(b, d)
    ensures Standing(b) ==> Lying(Step(b, d, Coupled))
    ensures Lying(b) && AlongAxis(b, d) ==> Standing(Step(b, d, Coupled))
    ensures Lying(b) && !AlongAxis(b, d) ==> Lying(Step(b, d, Coupled))
  {
  }

  /** From standing, the lower cube moves one cell and the upper cube moves
      two cells and drops to the floor. */
  lemma TipOver(b: Block, d: Dir)
    requires Standing(b)
    ensures var r := Step(b, d, Coupled);
      var (lo, hi) := if b.c1.y == 0 then (b.c1, b.c2) else (b.c2, b.c1);
      var (lo', hi') := if b.c1.y == 0 then (r.c1, r.c2) else (r.c2, r.c1);
      SpotOf(lo') == Toward(SpotOf(lo), d, 1) && lo'.y == 0 &&
      SpotOf(hi') == Toward(SpotOf(hi), d, 2) && hi'.y == 0
  {
  }

  /** Two presses in the same direction from standing stand the block up
      again three cells further on, with the other cube on top. */
  lemma TwoRolls(b: Block, d: Dir)
    requires Standing(b)
    ensures var r := Step(Step(b, d, Coupled), d, Coupled);
      Standing(r) && SpotOf(r.c1) == Toward(SpotOf(b.c1), d, 3) && r.c1.y == b.c2.y
  {
  }

  /** A pose that matches none of the five branches does not move. */
  lemma NoBranchNoMove(b: Block, d: Dir)
    requires d == Right || d == Left ==> b.c1.x != b.c2.x && b.c1.y != b.c2.y
    requires d == Up || d == Down ==> b.c1.z != b.c2.z && b.c1.y != b.c2.y
    ensures Step(b, d, Coupled) == b
  {
  }

  /** In a decoupled mode only the named cube moves, one cell. */
  lemma DecoupledStep(b: Block, d: Dir, m: Mode)
    requires m != Coupled
    ensures var r := Step(b, d, m);
      if m == Cube2Only then r.c1 == b.c1 && r.c2 == Shift(b.c2, d)
      else r.c2 == b.c2 && r.c1 == Shift(b.c1, d)
  {
  }

  /** Every press, in every mode, keeps the cubes on grid cells. */
  lemma StepAligned(b: Block, d: Dir, m: Mode)
    requires Aligned(b)
    ensures Aligned(Step(b, d, m))
  {
  }
}
