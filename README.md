# Rolling-block game engine (Bloxorz clone), modelled in Dafny

This models the game logic of the OpenGL Bloxorz clone in `GLFW/Sample_GL3_2D.cpp`. The player rolls a block made of two unit cubes over a 10 x 15 tile grid `a`. The block must reach the goal tile standing upright, through eight levels. The model covers four parts of the game:

- the arrow-key rules that move the block;
- the level layouts that `level1()` to `level9()` write into `a`, and `init()`, which reloads the current one;
- the per-frame rules in `draw()`: falling, winning, the level-2 switches, the level-4 fragile tiles, the level-7 bridge, and the levers of levels 8 and 9;
- the counters (`attempts`, `score`, `moves`, `stmove`) and the end screen.

The project has five modules:

- `Tiles` (tiles.dfy) has:
  - the grid (`Grid`, 10 x 15 tile codes) and the tile codes;
  - the rectangle writes (`Fill`) that each `levelN()` makes with its nested loops, in program order. `Layout(n)` is the grid they leave. The last write to a cell wins.
- `Kinematics` (kinematics.dfy) has:
  - the two cubes (`posx1..posz2`);
  - the four `else if` chains of the arrow keys, written branch by branch (`RollRight`, `RollLeft`, `RollUp`, `RollDown`);
  - the decoupled moves selected by `l8f` (`Mode`), combined in `Step`.
- `Rules` (rules.dfy) gives each rule as a pure function on a `State` value that holds every global the rules use. These functions are:
  - `Press`, for an arrow key;
  - `Fall`, `Retry`, `Win`, `Advance`, `Switches`, `BreakFragile`, `Bridge`, `UseLever`, `TileRules` and `RuleTick`, for one frame of `draw()`;
  - `SessionTick` and `EndScreen`, for the end screen;
  - `LoadLevel` and `Init`, for `levelN()` and `init()`.
- `RuleFacts` (rule_facts.dfy) proves what these rules guarantee.
- `Engine` (engine.dfy) has the class `Game`:
  - It holds the globals as fields and the tile array as an `array2<int>`.
  - Its methods update them in place with the source's loops.
  - Each state-changing method is proved to produce exactly the state that a pure function gives, through `Model()`. `Put`, `Paint`, `PaintSeq` and `Flip` are proved against `SetTile`, `PaintGrid`, `PaintAll` and `Switch`. Every other method is proved against the `Rules` function of the same name.

Three points about the model:

- The main rules use the corrected program of both entries under "## Findings":
  - `Rules.LoadLevel` resets the lever mode `l8f` for `level9()` as `level8()` does. The program does not; `Rules.LoadLevelAsWritten` is the load as written.
  - `Rules.SessionTick` resets `attempts` to 1 when the end screen restarts the game. The program leaves it at 5 after a loss; `Rules.SessionTickAsWritten` is the end screen as written.
  - Every member built on these two inherits the correction. Each one is named under "## Left out".

- The cell of a cube is computed with C++ truncating division, as `TruncDiv6`. Every term of the cell formula is a multiple of 6, so this equals exact division (`TruncDivExact`, `CellsExact`).
- The two timers are parameters of the frame functions:
  - `elapsed`: the 0.05 s animation timer has run out in this frame.
  - `delayOver`: the 3 s end-screen delay has passed.

  The fall and the win share the animation timer. A frame in which the fall sinks the block restarts that timer, so the win does not sink the block again in the same frame (`RuleTick`).
- The frame rules run only in play frames, where `dis==0 && blo==1` (line 2277). `RuleTick` and `Tick` are one such frame. The 2 s level banner that follows every `init()` (lines 2242-2246) is not part of the model.

## Model

| member | source | states |
|---|---|---|
| Tiles.Blank | GLFW/Sample_GL3_2D.cpp:1183 | the global array starts with every cell a hole |
| Tiles.TileAt | GLFW/Sample_GL3_2D.cpp:2414 | a cell read returns the stored code inside the array; outside the array it reads as a hole |
| Tiles.SetTile | GLFW/Sample_GL3_2D.cpp:2664 | a single cell write changes that cell and no other |
| Tiles.PaintGrid | GLFW/Sample_GL3_2D.cpp:1185-1187 | a nested-loop rectangle write gives every covered cell the code and leaves every other cell alone |
| Tiles.FragileFills | GLFW/Sample_GL3_2D.cpp:2507-2517 | the per-frame rewrite of level 4 stays inside the array |
| Tiles.PaintAll | GLFW/Sample_GL3_2D.cpp:1184-1215 | the writes of one `levelN()` applied in program order; `PaintAllAt` states the result cell by cell |
| Tiles.Level1Write | GLFW/Sample_GL3_2D.cpp:1184-1215 | the writes of `level1()`, in program order |
| Tiles.Level2Write | GLFW/Sample_GL3_2D.cpp:1220-1253 | the writes of `level2()`, in program order |
| Tiles.Level3Write | GLFW/Sample_GL3_2D.cpp:1254-1285 | the writes of `level3()`, in program order |
| Tiles.Level4Write | GLFW/Sample_GL3_2D.cpp:1286-1334 | the writes of `level4()`, in program order |
| Tiles.Level6Write | GLFW/Sample_GL3_2D.cpp:1335-1380 | the writes of `level6()`, in program order |
| Tiles.Level7Write | GLFW/Sample_GL3_2D.cpp:1381-1416 | the writes of `level7()`, in program order |
| Tiles.Level8Write | GLFW/Sample_GL3_2D.cpp:1417-1437 | the writes of `level8()`, in program order |
| Tiles.Level9Write | GLFW/Sample_GL3_2D.cpp:1439-1462 | the writes of `level9()`, in program order |
| Tiles.Layout | GLFW/Sample_GL3_2D.cpp:1184-1462 | the grid a `levelN()` leaves; `LayoutOverwrites`, `UniqueGoal` and `StartCellFloor` state its properties |
| Tiles.PaintAllAt | GLFW/Sample_GL3_2D.cpp:1184-1215 | after a run of writes, each cell holds the code of the last write that covers it, or its old contents if none does |
| Tiles.CodeAtCovered | GLFW/Sample_GL3_2D.cpp:1184-1215 | once some write covers a cell, the old contents of that cell no longer matter |
| Tiles.CodeAtLast | GLFW/Sample_GL3_2D.cpp:1184-1215 | the last covering write decides the cell |
| Tiles.CodeAtOrigin | GLFW/Sample_GL3_2D.cpp:1184-1215 | a cell holds either its old contents or the code of a write that covers it |
| Tiles.Level1Facts | GLFW/Sample_GL3_2D.cpp:1184-1215 | `level1()` writes only inside the array and stores the goal once, at (6,7), and no later write covers it |
| Tiles.Level2Facts | GLFW/Sample_GL3_2D.cpp:1220-1253 | `level2()` writes inside the array; its single goal is at (3,13) |
| Tiles.Level3Facts | GLFW/Sample_GL3_2D.cpp:1254-1285 | `level3()` writes inside the array; its single goal is at (6,13) |
| Tiles.Level4Facts | GLFW/Sample_GL3_2D.cpp:1286-1334 | `level4()` writes inside the array; its single goal is at (8,6) |
| Tiles.Level6Facts | GLFW/Sample_GL3_2D.cpp:1335-1380 | `level6()` writes inside the array; its single goal is at (4,13) |
| Tiles.Level7Facts | GLFW/Sample_GL3_2D.cpp:1381-1416 | `level7()` writes inside the array; its single goal is at (4,13) |
| Tiles.Level8Facts | GLFW/Sample_GL3_2D.cpp:1417-1437 | `level8()` writes inside the array; its single goal is at (5,13) |
| Tiles.Level9Facts | GLFW/Sample_GL3_2D.cpp:1439-1462 | `level9()` writes inside the array; its single goal is at (6,7) |
| Tiles.LevelFacts | GLFW/Sample_GL3_2D.cpp:1184-1462 | the same two facts for every layout number 1-4 and 6-9 |
| Tiles.LayoutCell | GLFW/Sample_GL3_2D.cpp:1184-1462 | a cell of a pristine layout holds the code of the last write of its `levelN()` that covers it |
| Tiles.LayoutOverwrites | GLFW/Sample_GL3_2D.cpp:1184-1462 | every `levelN()` writes every cell, so the grid it leaves does not depend on what the array held before |
| Tiles.SingleGoal | GLFW/Sample_GL3_2D.cpp:1184-1462 | with a single goal write that nothing later covers, exactly one cell ends up holding the goal |
| Tiles.UniqueGoal | GLFW/Sample_GL3_2D.cpp:1184-1462 | in every layout a cell holds the goal if and only if it is that layout's goal cell |
| Kinematics.Start | GLFW/Sample_GL3_2D.cpp:1473-1478 | the pose `init()` sets: both cubes at the origin, cube 2 on top |
| Kinematics.RollRight | GLFW/Sample_GL3_2D.cpp:313-339 | the right-arrow chain, branch by branch; its meaning is proved in `CoupledRoll`, `TipOver` and `TwoRolls` |
| Kinematics.RollLeft | GLFW/Sample_GL3_2D.cpp:359-385 | the left-arrow chain; `LeftMirrorsRight` proves it the mirror image of `RollRight` |
| Kinematics.RollUp | GLFW/Sample_GL3_2D.cpp:403-429 | the up-arrow chain; `UpMirrorsLeft` proves it `RollLeft` with x and z swapped |
| Kinematics.RollDown | GLFW/Sample_GL3_2D.cpp:446-472 | the down-arrow chain; `DownMirrorsRight` proves it `RollRight` with x and z swapped |
| Kinematics.Shift | GLFW/Sample_GL3_2D.cpp:341-346 | one cell of a single cube in a decoupled mode |
| Kinematics.Step | GLFW/Sample_GL3_2D.cpp:305-479 | the pose after one press: the key's chain when `l8f` is 0, otherwise one cube shifted; `DecoupledStep` and `StepAligned` state its properties |
| Kinematics.LeftMirrorsRight | GLFW/Sample_GL3_2D.cpp:350-392 | the left-arrow chain is the right-arrow chain reflected in x |
| Kinematics.DownMirrorsRight | GLFW/Sample_GL3_2D.cpp:438-478 | the down-arrow chain is the right-arrow chain with x and z swapped |
| Kinematics.UpMirrorsLeft | GLFW/Sample_GL3_2D.cpp:394-436 | the up-arrow chain is the left-arrow chain with x and z swapped |
| Kinematics.CoupledRoll | GLFW/Sample_GL3_2D.cpp:311-339 | with both cubes coupled, a legal pose rolls into a legal pose covering the cells of the direction-independent rolling rule: standing becomes lying, lying along the move stands up, lying across slides |
| Kinematics.TipOver | GLFW/Sample_GL3_2D.cpp:313-323 | from standing, the lower cube moves one cell and the upper cube moves two cells and drops to the floor |
| Kinematics.TwoRolls | GLFW/Sample_GL3_2D.cpp:325-339 | two presses in one direction from standing end standing three cells further on, with the other cube on top |
| Kinematics.NoBranchNoMove | GLFW/Sample_GL3_2D.cpp:311-339 | a pose matching none of the five branches does not move |
| Kinematics.DecoupledStep | GLFW/Sample_GL3_2D.cpp:341-346 | with `l8f` 1 only cube 2 moves one cell; with `l8f` 2 only cube 1 |
| Kinematics.StepAligned | GLFW/Sample_GL3_2D.cpp:305-479 | every press, in every mode, keeps both cubes on grid cells |
| Rules.Initial | GLFW/Sample_GL3_2D.cpp:218-235 | the globals as declared |
| Rules.Col | GLFW/Sample_GL3_2D.cpp:2380-2382 | a cube's column from its x and the origin terms, with C++ truncating division; `CellsExact` proves the division exact |
| Rules.Row | GLFW/Sample_GL3_2D.cpp:2381-2383 | a cube's row from its z and the origin terms; `CellsExact` proves the division exact |
| Rules.CellsOf | GLFW/Sample_GL3_2D.cpp:2380-2383 | the cells of both cubes, computed once per frame; `SameCellSameSpot` and `StartCellOf` state its properties |
| Rules.OnBoth | GLFW/Sample_GL3_2D.cpp:2455 | both cubes on cells holding one code |
| Rules.Falling | GLFW/Sample_GL3_2D.cpp:2414 | the fall test: a cube over a hole or at a negative index |
| Rules.LoadLevel | GLFW/Sample_GL3_2D.cpp:1483-1499 | corrected `level9()`: the current flag's pristine layout and its latch or lever resets; `LoadLevelIdempotent` and `LeverLevelsLoadCoupled` state its properties |
| Rules.LoadLevelAsWritten | GLFW/Sample_GL3_2D.cpp:1439-1462 | the load as written, where `level9()` keeps `l8f`; `Level9RestartSplitAsWritten` states the consequence |
| Rules.Init | GLFW/Sample_GL3_2D.cpp:1465-1502 | corrected `level9()`: `init()`, start pose, input enabled, `stmove` 0 and the level reloaded; `StartOnFloor` states where the block stands |
| Rules.AdvanceOrigin | GLFW/Sample_GL3_2D.cpp:2475-2500 | the origin terms set on reaching each flag; `AdvanceReachesOrigin` proves their accumulation |
| Rules.Press | GLFW/Sample_GL3_2D.cpp:305-310 | an arrow press, ignored by the keyboard while `disable` is set; `PressCounts` and `PressAllKeepsBaseline` state its effect |
| Rules.Sink | GLFW/Sample_GL3_2D.cpp:2419-2423 | both cubes lowered by the same amount |
| Rules.Retry | GLFW/Sample_GL3_2D.cpp:2425-2451 | corrected `level9()`: the restart after a fall; `FailedAttemptMoves` and `RetryNAttempts` state its effect |
| Rules.Fall | GLFW/Sample_GL3_2D.cpp:2414-2451 | corrected `level9()`: the fall rule of one frame; `FallSinks` and `FallRestarts` state its effect |
| Rules.Advance | GLFW/Sample_GL3_2D.cpp:2469-2503 | corrected `level9()`: the move to the next level; `WinAdvances` states its effect |
| Rules.Win | GLFW/Sample_GL3_2D.cpp:2455-2506 | corrected `level9()`: the win rule of one frame; `GoalResetsAttempts`, `WinNeedsStanding` and `WinAdvances` state its effect |
| Rules.Switch | GLFW/Sample_GL3_2D.cpp:2607-2631 | one evaluation of a level-2 switch and its latch; `SwitchHolds` and `VisitFlipsOnce` state its effect |
| Rules.Switches | GLFW/Sample_GL3_2D.cpp:2578-2658 | the soft switch, then the heavy switch, on the shared grid |
| Rules.BreakFragile | GLFW/Sample_GL3_2D.cpp:2660-2666 | the level-4 fragile rule; `FragileBreaksUnderStanding` states its effect |
| Rules.Bridge | GLFW/Sample_GL3_2D.cpp:2684-2686 | the level-7 bridge rule; `BridgeOneWay` states its effect |
| Rules.LeverOf | GLFW/Sample_GL3_2D.cpp:2702-2741 | the throw offsets and rejoin cells of the levers of levels 8 and 9 |
| Rules.Thrown | GLFW/Sample_GL3_2D.cpp:2702-2713 | both cubes moved by the lever's offsets |
| Rules.UseLever | GLFW/Sample_GL3_2D.cpp:2702-2741 | the lever rule; `LeverSplits`, `LeverRejoins` and `LeverLowersOneCube` state its effect |
| Rules.TileRules | GLFW/Sample_GL3_2D.cpp:2507-2741 | the level-specific rules of one frame, in source order; `TileRulesFrame` states what they never change |
| Rules.RuleTick | GLFW/Sample_GL3_2D.cpp:2379-2741 | corrected `level9()`: one play frame; `TickKeepsAligned` and `QuietFrame` state its properties |
| Rules.VerdictOf | GLFW/Sample_GL3_2D.cpp:1650-1657 | the end screen's verdict: a win with at most 3 attempts, otherwise a loss |
| Rules.EndScreen | GLFW/Sample_GL3_2D.cpp:1635-1677 | one end-screen frame: the grid, moves, score and origin terms cleared, attempts 5 after a loss |
| Rules.SessionTick | GLFW/Sample_GL3_2D.cpp:1578-1687 | corrected end screen: the game-over check, the end screen and the restart; `ThreeFallsEndTheGame`, `EndScreenRestarts` and `LossRecurs` state its effect |
| Rules.SessionTickAsWritten | GLFW/Sample_GL3_2D.cpp:1578-1687 | the end screen as written, where the restart keeps `attempts`; `LossNeverRecursAsWritten` states the consequence |
| Rules.LayoutNumber | GLFW/Sample_GL3_2D.cpp:1483-1499 | flags 1-8 select a layout (flag 5 and up skip the missing `level5()`); other flags load nothing |
| RuleFacts.TruncDivExact | GLFW/Sample_GL3_2D.cpp:2380-2383 | on a multiple of 6, truncating division is exact |
| RuleFacts.CellsExact | GLFW/Sample_GL3_2D.cpp:2380-2383 | with aligned positions and origin terms, each cube's row and column are exact quotients |
| RuleFacts.SameCellSameSpot | GLFW/Sample_GL3_2D.cpp:2380-2383 | two cubes map to one cell exactly when they share a horizontal position |
| RuleFacts.ReachedOrigin | GLFW/Sample_GL3_2D.cpp:2475-2500 | the origin terms in force on each level are multiples of 6 |
| RuleFacts.AdvanceReachesOrigin | GLFW/Sample_GL3_2D.cpp:2475-2500 | starting with no offsets on level 1, winning each level in turn accumulates exactly the table of origin terms |
| RuleFacts.StartCellOf | GLFW/Sample_GL3_2D.cpp:1473-1478 | the start pose of `init()` maps to one cell per level |
| RuleFacts.StartCellFloor | GLFW/Sample_GL3_2D.cpp:1184-1462 | that cell is floor in the layout the flag loads |
| RuleFacts.StartOnFloor | GLFW/Sample_GL3_2D.cpp:1465-1502 | on every level the block starts standing on a floor cell |
| RuleFacts.PressCounts | GLFW/Sample_GL3_2D.cpp:305-310 | an accepted press moves the block by the key's rule and adds exactly 1 to `moves` and `stmove`, nothing else; a keyboard press while falling changes nothing |
| RuleFacts.PressAllKeepsBaseline | GLFW/Sample_GL3_2D.cpp:305-479 | any run of presses leaves `moves - stmove` as it was, and never touches the grid, level, mode, attempts or score |
| RuleFacts.FailedAttemptMoves | GLFW/Sample_GL3_2D.cpp:2425-2431 | a fall takes back exactly the moves of the failed attempt, costs 10 points and one attempt |
| RuleFacts.FallSinks | GLFW/Sample_GL3_2D.cpp:2414-2424 | over a hole, each timer tick sinks both cubes by 2 and disables the keyboard |
| RuleFacts.FallRestarts | GLFW/Sample_GL3_2D.cpp:2425-2451 | a completed fall restarts the same level from its pristine layout and the start pose, with input enabled |
| RuleFacts.LoadLevelIdempotent | GLFW/Sample_GL3_2D.cpp:1465-1502 | loading a level twice is the same as loading it once |
| RuleFacts.RestartCouples | GLFW/Sample_GL3_2D.cpp:1417-1462 | corrected: a restart of level 8 or 9 gives back a coupled block; as written, only a load of level 8 couples it and level 9 keeps the mode |
| RuleFacts.ThreeFallsEndTheGame | GLFW/Sample_GL3_2D.cpp:1578-1582 | three falls in a row from attempt 1 open the losing end screen, which clears moves, score and the grid |
| RuleFacts.NoEndBeforeFour | GLFW/Sample_GL3_2D.cpp:1578-1582 | outside the end screen, and unless attempts is exactly 4, the session check changes nothing |
| RuleFacts.EndScreenRestarts | GLFW/Sample_GL3_2D.cpp:1635-1687 | corrected: after the delay the end screen starts level 1 afresh: attempt 1, no moves, no score, no offsets; as written, the same except that `attempts` stays 5 after a loss |
| RuleFacts.LayoutSingleGoal | GLFW/Sample_GL3_2D.cpp:1184-1462 | every pristine layout has a single goal cell |
| RuleFacts.WinNeedsStanding | GLFW/Sample_GL3_2D.cpp:2455-2456 | on a grid with a single goal cell, a legal block with both cubes on the goal is standing |
| RuleFacts.GoalResetsAttempts | GLFW/Sample_GL3_2D.cpp:2455-2456 | both cubes on the goal set `attempts` to 1 in that frame |
| RuleFacts.WinAdvances | GLFW/Sample_GL3_2D.cpp:2455-2506 | a completed win moves to the next flag with 100 more points, the start pose, the next pristine layout and its origin terms |
| RuleFacts.LastWinShowsYouWin | GLFW/Sample_GL3_2D.cpp:1650-1651 | winning the last level opens the end screen with the winning verdict |
| RuleFacts.SwitchHolds | GLFW/Sample_GL3_2D.cpp:2607-2631 | once a switch has acted, later frames with the switch still pressed change nothing |
| RuleFacts.DwellHolds | GLFW/Sample_GL3_2D.cpp:2607-2631 | the same over any number of frames on the switch |
| RuleFacts.VisitFlipsOnce | GLFW/Sample_GL3_2D.cpp:2607-2631 | a visit to a switch flips its bridge exactly once however long the block stays, and leaves the switch at rest again; no other cell changes |
| RuleFacts.Level2AtRest | GLFW/Sample_GL3_2D.cpp:1220-1253 | level 2 starts with both switches at rest and both bridges lowered |
| RuleFacts.BridgeOneWay | GLFW/Sample_GL3_2D.cpp:2684-2686 | the level-7 switch only lays cell (7,3), never removes it, and touches no other cell |
| RuleFacts.FragileBreaksUnderStanding | GLFW/Sample_GL3_2D.cpp:2660-2666 | a fragile tile breaks only when both cubes are on fragile tiles at different heights, and only the tile under cube 1 breaks |
| RuleFacts.FragileFillsEndLevel4 | GLFW/Sample_GL3_2D.cpp:2507-2517 | the per-frame rewrite of level 4 is the last three writes of `level4()` |
| RuleFacts.FragileRewrite | GLFW/Sample_GL3_2D.cpp:2507-2517 | the rewrite puts back every fragile and marker cell of the pristine level 4 and touches no other cell |
| RuleFacts.RewriteKeepsPristine | GLFW/Sample_GL3_2D.cpp:2507-2517 | on the pristine level-4 grid the rewrite changes nothing |
| RuleFacts.LeverSplits | GLFW/Sample_GL3_2D.cpp:2702-2713 | both cubes on the lever throw the cubes by the level's offsets and hand the keys to cube 2 alone |
| RuleFacts.LeverRejoins | GLFW/Sample_GL3_2D.cpp:2702-2713 | the halves are coupled again on the rejoin cells; cube 2 alone on its rejoin cell hands the keys to cube 1 |
| RuleFacts.LeverLowersOneCube | GLFW/Sample_GL3_2D.cpp:2702-2741 | after the throw both cubes are on the floor exactly when the lowered cube was the upper one: cube 1 on level 8, cube 2 on level 9 |
| RuleFacts.LeverAligned | GLFW/Sample_GL3_2D.cpp:2702-2741 | the lever throws move by whole cells |
| RuleFacts.PressKeepsAligned | GLFW/Sample_GL3_2D.cpp:305-479 | presses keep the block and the origin on grid cells |
| RuleFacts.FallKeepsAligned | GLFW/Sample_GL3_2D.cpp:2414-2451 | falling and restarting keep them on grid cells |
| RuleFacts.AdvanceKeepsAligned | GLFW/Sample_GL3_2D.cpp:2467-2506 | moving to the next level keeps them on grid cells |
| RuleFacts.WinKeepsAligned | GLFW/Sample_GL3_2D.cpp:2455-2506 | winning keeps them on grid cells |
| RuleFacts.TileRulesFrame | GLFW/Sample_GL3_2D.cpp:2507-2741 | the tile rules move the block only by a lever throw and never change the level, counters or origin |
| RuleFacts.TickKeepsAligned | GLFW/Sample_GL3_2D.cpp:2379-2741 | a whole frame keeps the block and origin on grid cells, so the cell formula always divides exactly |
| RuleFacts.QuietFrame | GLFW/Sample_GL3_2D.cpp:2379-2741 | on a level without special tiles, a frame with the block on plain floor changes nothing |
| RuleFacts.RetryNAttempts | GLFW/Sample_GL3_2D.cpp:2425-2428 | n falls in a row add exactly n attempts and keep the level |
| RuleFacts.LossNeverRecursAsWritten | GLFW/Sample_GL3_2D.cpp:1578-1687 | as written, after a loss the next game never reaches the end screen, however many falls |
| RuleFacts.LossRecurs | GLFW/Sample_GL3_2D.cpp:1578-1687 | corrected, three falls in the next game end it again |
| RuleFacts.Level9RestartSplitAsWritten | GLFW/Sample_GL3_2D.cpp:1439-1462 | as written, reloading level 9 while the halves are split keeps them split, and the next press leaves an illegal pose |
| RuleFacts.LeverLevelsLoadCoupled | GLFW/Sample_GL3_2D.cpp:1417-1462 | corrected, every load of levels 8 and 9 couples the block, and the first press lays it flat |
| Engine.Game.constructor | GLFW/Sample_GL3_2D.cpp:218-235 | the globals start as declared: empty grid, level 1, attempt 1, start pose |
| Engine.Game.Tile | GLFW/Sample_GL3_2D.cpp:2414 | an array read agrees with the grid value, with holes outside the array |
| Engine.Game.Both | GLFW/Sample_GL3_2D.cpp:2455 | the both-cubes test agrees with `OnBoth` |
| Engine.Game.OverHole | GLFW/Sample_GL3_2D.cpp:2414 | the fall test agrees with `Falling` |
| Engine.Game.Put | GLFW/Sample_GL3_2D.cpp:2664 | one array write updates one cell of the grid |
| Engine.Game.Paint | GLFW/Sample_GL3_2D.cpp:1185-1187 | the nested loops of a rectangle write produce `PaintGrid` |
| Engine.Game.PaintSeq | GLFW/Sample_GL3_2D.cpp:1184-1215 | a run of rectangle writes produces `PaintAll` |
| Engine.Game.LoadLevel | GLFW/Sample_GL3_2D.cpp:1483-1499 | corrected `level9()`: loading the current flag's level leaves the pristine layout in the array, with the level's latch or lever resets |
| Engine.Game.Init | GLFW/Sample_GL3_2D.cpp:1465-1502 | corrected `level9()`: `init()` resets the pose, `disable` and `stmove` and reloads the level |
| Engine.Game.Press | GLFW/Sample_GL3_2D.cpp:305-479 | an arrow press updates the pose and counters as `Press` |
| Engine.Game.Retry | GLFW/Sample_GL3_2D.cpp:2425-2451 | corrected `level9()`: the restart after a fall, as `Rules.Retry` |
| Engine.Game.Fall | GLFW/Sample_GL3_2D.cpp:2414-2451 | corrected `level9()`: the fall rule of one frame, as `Rules.Fall` |
| Engine.Game.Advance | GLFW/Sample_GL3_2D.cpp:2467-2506 | corrected `level9()`: the move to the next level, as `Rules.Advance` |
| Engine.Game.Win | GLFW/Sample_GL3_2D.cpp:2455-2506 | corrected `level9()`: the win rule of one frame, as `Rules.Win` |
| Engine.Game.Flip | GLFW/Sample_GL3_2D.cpp:2607-2631 | one evaluation of a switch and its latch |
| Engine.Game.Switches | GLFW/Sample_GL3_2D.cpp:2578-2658 | the two level-2 switches, soft before heavy |
| Engine.Game.BreakFragile | GLFW/Sample_GL3_2D.cpp:2660-2666 | the level-4 fragile rule |
| Engine.Game.Bridge | GLFW/Sample_GL3_2D.cpp:2684-2686 | the level-7 bridge rule |
| Engine.Game.UseLever | GLFW/Sample_GL3_2D.cpp:2702-2741 | the lever rule of levels 8 and 9 |
| Engine.Game.TileRules | GLFW/Sample_GL3_2D.cpp:2507-2741 | the level-specific rules of one frame, in source order |
| Engine.Game.Tick | GLFW/Sample_GL3_2D.cpp:2379-2741 | corrected `level9()`: one play frame computes the cells once, then applies fall, win and the tile rules as `RuleTick` |
| Engine.Game.SessionTick | GLFW/Sample_GL3_2D.cpp:1578-1687 | corrected end screen: the game-over check and the end screen, with the attempt reset on restart |

## Left out

- Rendering, shaders, fonts, the HUD and menu text, camera views, zoom and mouse dragging: these are OpenGL, GLFW and FTGL calls, or floating point.
- Sound: the `system("mpg123 ...")` calls are shell commands with no effect on the state.
- Mouse hit-testing and the level-select digits: these are pixel-rectangle tests. A level picked from the menu gets origin terms of its own, which can differ from the ones that winning the earlier levels accumulates. These are not modelled.
- The on-screen arrow buttons are the same operation as the keyboard (`Press`). The only difference is that they do not check `disable` (`guarded` is false).
- Timers (`glfwGetTime`, the 0.05 s and 3 s thresholds) are the boolean parameters `elapsed` and `delayOver`.
- The rise-in animation (`posy[][]`, `spo`) and the camera `view` are presentation only.
- The menu and banner phases (`blo`, `dis`) are not modelled. `init()` sets `dis=1` (line 1481), and `dis` clears only once the level banner has shown for 2 s (lines 2242-2246). Until then no fall, win or tile rule runs, because the rule section needs `dis==0 && blo==1` (line 2277). The 2 s threshold is not modelled either.
- Rules.RuleTick: models one play frame, with `dis==0 && blo==1`. It is not to be applied during the banner, the menu or the end screen. Its fall and win paths use the corrected `level9()` load.
- Engine.Game.Tick: the same as `Rules.RuleTick`, and it inherits the corrected `level9()` load through its fall and win paths.
- Rules.LoadLevel: models the corrected `level9()`, which resets `l8f` to 0. The program's `level9()` keeps `l8f`; `Rules.LoadLevelAsWritten` and `RuleFacts.Level9RestartSplitAsWritten` model that.
- Rules.Init: reloads through the corrected `Rules.LoadLevel`, so on flag 8 it resets `l8f`, which the program's `init()` does not.
- Rules.Retry: restarts through the corrected `Rules.LoadLevel`, so a flag-8 restart couples the block.
- Rules.Fall: restarts through `Rules.Retry`, with the corrected level-9 load.
- Rules.Advance: loads the next level through the corrected `Rules.LoadLevel`, so reaching flag 8 resets `l8f`.
- Rules.Win: advances through `Rules.Advance`, with the corrected level-9 load.
- Rules.SessionTick: models the corrected end screen, which resets `attempts` to 1 on restart. The program keeps 5 after a loss; `Rules.SessionTickAsWritten` models that.
- Engine.Game.LoadLevel: proved equal to the corrected `Rules.LoadLevel`, so it resets `l8f` on a level-9 load, which `level9()` does not.
- Engine.Game.Init: proved equal to the corrected `Rules.Init`, so it resets `l8f` on flag 8.
- Engine.Game.Retry: proved equal to the corrected `Rules.Retry`, so a flag-8 restart couples the block, which the program's restart after a fall does not.
- Engine.Game.Fall: proved equal to `Rules.Fall`, with the corrected level-9 restart.
- Engine.Game.Advance: proved equal to `Rules.Advance`, so advancing to flag 8 resets `l8f`.
- Engine.Game.Win: proved equal to `Rules.Win`, with the corrected level-9 load.
- Engine.Game.SessionTick: proved equal to the corrected `Rules.SessionTick`, so leaving the end screen sets `attempts=1`, where the program keeps 5 after a loss.
- RuleFacts.RestartCouples: the coupled restart of flag 8 holds of the corrected `level9()` only. Its last clause states what the load as written does: it couples the block on flag 7 only.
- RuleFacts.EndScreenRestarts: "attempt 1" holds of the corrected end screen only. Its last clause states what the program does: the same state, but with `attempts` at 5 after a loss and unchanged after a win.
- Tiles.TileAt: the source reads `a[r][l]` before testing for negative indices and never tests the upper bounds, which is undefined behaviour in C++. The model reads every cell outside the array as a hole.
- Integer width: the model uses unbounded integers. The source's 32-bit `int` counters would only wrap after billions of moves or falls.
- A broken fragile tile is written back by the level-4 rewrite on the next frame, as in the source. The model keeps this behaviour; it does not invent a permanent collapse.

## Findings

| source | as written | input that shows it | evidently intended | confidence | as-written member | corrected member |
|---|---|---|---|---|---|---|
| GLFW/Sample_GL3_2D.cpp:1652-1687 | the losing end screen sets `attempts=5`, and leaving it restarts level 1 without resetting `attempts` | lose a game (attempts reaches 4), wait for the restart, then fall any number of times: attempts goes 5, 6, 7 … and never equals 4, so the game cannot be lost until a level is won, which sets `attempts=1` (line 2456) | leaving the end screen resets `attempts` to 1 | medium, not executed | RuleFacts.LossNeverRecursAsWritten | RuleFacts.LossRecurs |
| GLFW/Sample_GL3_2D.cpp:1439-1462 | `level9()` does not reset the lever mode `l8f`, unlike `level8()` | on level 9, step on the lever (only cube 2 now moves) and fall: the level restarts with the block standing at the start but still split, and the first press lifts cube 2 off cube 1 | `level9()` resets `l8f` to 0 like `level8()` | high, not executed | RuleFacts.Level9RestartSplitAsWritten | RuleFacts.LeverLevelsLoadCoupled |
