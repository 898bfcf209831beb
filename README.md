# Pac-Man game core in Dafny

A model of the game logic of `pacman.cpp`, a single-file SDL Pac-Man, with the rendering
and the SDL plumbing stripped away. The model covers:

- the maze: 31 by 28 tiles, each with four exit flags and a "crossed" flag, built by
  `Board::Board()`, read through `getTile` and updated by `updateBoard`;
- the movement engine `Entity::update`: toggle the mouth, take two 1-pixel sub-steps
  against the tile read before moving, wrap through the row-14 tunnel, and commit the
  requested turn when the entity stands on a tile centre;
- the player: spawn state, the death counter that `kill` advances to 11, and the tile
  overlap test `sharingTile`;
- the ghosts Blinky, Pinky and Inky: spawn state, their goal tiles, and the one-step
  Manhattan lookahead of `decideTurn` that tries Down, Up, Left, Right in that order;
- the per-frame schedule of `main`: the board update, the power pellets and the flee
  timeout, the player's step every third frame, and the scatter schedule and ghost
  step every fourth frame while the player is alive.

Files and modules:

| file | module | contents |
|---|---|---|
| geometry.dfy | `Geometry` | `Direction`, C++ truncating division and remainder, `abs`, tile indices, the centre test |
| board.dfy | `Maze` | `Tile`, the board as a value (`Grid`), the `Board` class over an `array2` |
| movement.dfy | `Movement` | `Pose` (an entity's fields as a value), `Tick` (one update as a function), the `Entity` class |
| pursuit.dfy | `Pursuit` | goal tiles, `Choose` (the lookahead as a fold), the `Blinky`, `Pinky`, `Inky` classes |
| player.dfy | `Hero` | the death counter and the `Player` class |
| game.dfy | `MainLoop` | `World` (the loop's state as a value), `Frame`, `Play`, the invariants, the `Game` class |

Each stateful entity of the source is a class whose methods update its fields in place
and are proved against a function on values: `Entity.Update` against `Tick`, the ghosts'
`DecideTurn` against `Decide`, `Game.Step` against `Frame` and `Game.Run` against `Play`.
The properties are proved about those functions.

Two invariants carry most of the proofs:

- `Positioned`: every entity stands on odd pixel coordinates inside the maze. It is on
  the row of a tile centre while moving horizontally. It is on the column of one while
  moving vertically, never in the tunnel column -1. `Tick` keeps it on any board whose
  exits stay inside the grid (`Enclosed`). So every `getTile` the source makes is in
  bounds, and `updateBoard` never sees x = 224.
- `Board.Valid`: rows 0 and 30 have no exit at all. No exit leads off the grid except
  the two ends of the tunnel. No vertical exit lies in column 0 or 27. The constructor
  establishes it by checking every exit the source opens, and `updateBoard` keeps it.

Initial values the source leaves undefined are fixed explicitly:

- `scatterMode` and `fleeMode` start false.
- A ghost's `nextTurn` starts as DEFAULT.

Where the code and its description disagree, the model follows the code:

- **First update from the spawn point.** The player ends at x = 17, not 16, because an
  update takes two 1-pixel sub-steps. After four updates it is at x = 23 (`SpawnRun`).
- **Scatter schedule.** Scatter is switched on when `frame % 1620 == 0` and off when
  `(frame + 1200) % 1620 == 0`, that is at offset 420 of each period. So the ghosts
  scatter for frames 0 to 419 of every 1620 frames, not 0 to 1199 (`ScatterInv`).
- **Flee timeout.** A flee started at frame F is active from frame F through F + 599.
  A pellet eaten at frame 0 would never expire, because the expiry test requires
  `fleeFrame != 0`, but the player cannot stand on a pellet tile at frame 0 (`FleeInv`).
- **Tie-break example.** Facing up with the goal straight below, a ghost cannot pick
  Down, because Down would be a reversal. Up, Left and Right then tie at one tile
  farther from the goal, and Up, tried first of them, wins (`NoUTurnTowardGoal`).
- **Inky's goal.** The reflection mixes units: a tile coordinate is reflected through
  Blinky's pixel coordinates. The model keeps this as written.

Two further details of the code are kept as written. `updateBoard` indexes the board by
`x / 8, y / 8`, while every other tile lookup uses `(coordinate - 4) / 8`. The collision
test reads only Blinky's flee flag. The `max`/`min` clamps in the sub-steps never act:
every position an entity reaches has its tile column inside the grid (`ExitTile`).

## Model

| member | source | states |
|---|---|---|
| Geometry.Div8 | pacman.cpp:473-474 | the quotient truncates toward zero: for a negative dividend it lies within 8 above it, not below |
| Geometry.Rem8 | pacman.cpp:481-503 | the C++ remainder by 8 takes the dividend's sign and is zero exactly when the Euclidean remainder is, so the alignment tests may use either |
| Geometry.Abs | pacman.cpp:1246-1249 | `abs` returns a non-negative value equal to n or -n |
| Geometry.TileIndex | pacman.cpp:473-474 | `(coord - 4) / 8` with truncation: pixels -3 to 11 all fall in tile 0, from pixel 4 up each tile spans 8 pixels, and below -3 the index is negative |
| Geometry.Reverse | pacman.cpp:666-693 | the direction each `getOrientation() != …` test excludes: DEFAULT for DEFAULT only, and never the direction itself |
| Geometry.ReverseInvolutive | pacman.cpp:666-693 | reversing twice gives the direction back |
| Geometry.AlignedIsOdd | pacman.cpp:530 | a tile centre, as the alignment test defines it, has odd coordinates |
| Maze.Permits | pacman.cpp:323-341 | `canGoUp` and its siblings: DEFAULT is never permitted, and a tile with no exit permits nothing |
| Maze.WithExit | pacman.cpp:303-321 | `setGoX(b)` sets exactly the one exit flag to b and leaves the other exits and the crossed flag alone |
| Maze.MarkCrossed | pacman.cpp:1174-1185 | crossing off tile (i, j) sets its crossed flag, keeps its exits and leaves every other tile unchanged |
| Maze.MarkCrossedIdempotent | pacman.cpp:1174-1185 | crossing off is idempotent, changes no exit, and keeps the board sealed and enclosed |
| Maze.Board.Grid | pacman.cpp:217-233 | the array as a 31 by 28 value, sealed and enclosed while the board is valid |
| Maze.Board.GetTile | pacman.cpp:1187-1190 | `getTile(i, j)` returns tile (i, j) of the board, for in-bounds indices |
| Maze.Board.UpdateBoard | pacman.cpp:1174-1185 | the new board is the old one with tile (y / 8, x / 8) crossed off, and stays valid |
| Maze.Board.SetExit | pacman.cpp:303-321 | a setter on one array cell changes that cell's exit and no other cell |
| Maze.Board.constructor | pacman.cpp:870-1172 | the built board is valid and uncrossed, and tile (1, 1) permits exactly Right and Down |
| Maze.Board.CarveTopCorridors | pacman.cpp:883-926 | every exit this phase opens stays inside the grid, and it sets tile (1, 1) |
| Maze.Board.CarveJunctionRows | pacman.cpp:929-981 | every exit this phase opens stays inside the grid |
| Maze.Board.CarveSideColumnsAndTunnel | pacman.cpp:983-1014 | every exit this phase opens stays inside the grid; only the tunnel row leaves it sideways |
| Maze.Board.CarveGhostHouse | pacman.cpp:1016-1084 | every exit this phase opens stays inside the grid |
| Maze.Board.CarveLowerMaze | pacman.cpp:1086-1113 | every exit this phase opens stays inside the grid |
| Maze.Board.CarveBottomMaze | pacman.cpp:1115-1170 | every exit this phase opens stays inside the grid |
| Movement.ExitTile | pacman.cpp:473-481 | the tile the sub-steps consult; for every direction but DEFAULT it is the tile under the entity, so the `max`/`min` clamps never change it |
| Movement.ClampedTile | pacman.cpp:477-507 | inside the grid a clamped column is the column itself, so each case reads tile (`yTile`, `xTile`) |
| Movement.SubStep | pacman.cpp:480-507 | one pass of the `switch`: the entity moves one pixel along its orientation or stays, and it stays exactly when it is on a centre whose tile forbids that direction |
| Movement.Slide | pacman.cpp:475-512 | the sub-steps move only along the orientation's axis, at most one pixel each, and not at all from a centre whose tile forbids the direction |
| Movement.WrapX | pacman.cpp:514-522 | past 224 the entity reappears at -1, below 0 at 221, otherwise x is unchanged |
| Movement.Moved | pacman.cpp:473-522 | the move changes only x and y, keeps x in [-1, 224], moves at most 2 pixels apart from the wrap, and a blocked entity stays put |
| Movement.Commit | pacman.cpp:528-561 | the turn test leaves the orientation or takes nextTurn; it takes nextTurn exactly when the entity is on a centre whose tile permits it |
| Movement.Tick | pacman.cpp:465-562 | one update toggles the mouth and keeps nextTurn, scatter and flee; the orientation changes only to nextTurn, and changes exactly when the entity ends on a centre whose tile permits it |
| Movement.SlideFromOdd | pacman.cpp:475-512 | from odd coordinates the two sub-steps either both happen or neither does |
| Movement.TickKeepsPositioned | pacman.cpp:465-562 | on an enclosed board an update keeps an entity positioned, so every tile it reads is in the grid |
| Movement.CommitKeepsPositioned | pacman.cpp:524-561 | a committed turn keeps an entity positioned |
| Movement.Ticks | pacman.cpp:465-562 | any number of updates keep an entity positioned and keep its requested turn |
| Movement.MouthAlternates | pacman.cpp:467-468 | after n updates the mouth is open exactly when it was open before and n is even, or it was closed and n is odd |
| Movement.TickAdvances | pacman.cpp:475-522 | an entity that is not blocked moves exactly two pixels along its orientation, then wraps |
| Movement.SameTile | pacman.cpp:94-97 | the `sharingTile` comparison on two poses; what it means is stated by `SameTileProximity` and `TunnelSharesTileZero` |
| Movement.SameTileProximity | pacman.cpp:94-97 | for coordinates from 4 on, two entities that share a tile are less than 8 pixels apart on each axis, and two entities on tile centres share a tile exactly when they stand on the same pixel (at the tunnel this fails: pixels -1 and 7 are both centres of tile 0) |
| Movement.TunnelSharesTileZero | pacman.cpp:514-526 | the tunnel pixel -1 and the first centre 7 are both in tile 0 |
| Movement.SpawnRun | pacman.cpp:465-562 | from the player's spawn point on the built board, one update leads to (17, 13) and four lead to (23, 13) |
| Movement.Entity.Spawn | pacman.cpp:446-449 | a new entity has its mouth open, no requested turn, no scatter and no flee, at the given position and orientation |
| Movement.Entity.SetXLoc | pacman.cpp:564-567 | changes x only |
| Movement.Entity.SetYLoc | pacman.cpp:569-572 | changes y only |
| Movement.Entity.SetOrientation | pacman.cpp:574-577 | changes the orientation only |
| Movement.Entity.SetMouthOpen | pacman.cpp:599-602 | changes the mouth flag only |
| Movement.Entity.SetNextTurn | pacman.cpp:609-612 | changes the requested turn only |
| Movement.Entity.SetScatter | pacman.cpp:70-73 | changes the scatter flag only |
| Movement.Entity.SetFlee | pacman.cpp:76-79 | changes the flee flag only |
| Movement.Entity.SharingTile | pacman.cpp:94-97 | `sharingTile` on two entities is `SameTile` of their states |
| Movement.Entity.Update | pacman.cpp:465-562 | the entity's new fields are `Tick` of its old fields on the board |
| Movement.Entity.Move | pacman.cpp:473-522 | the two-iteration loop and the wrap give the position of `Moved` |
| Movement.Entity.Nudge | pacman.cpp:477-511 | one loop iteration takes one sub-step against the tile read before the loop |
| Movement.Entity.TryTurn | pacman.cpp:524-561 | the orientation becomes the one `Commit` chooses for the new position, and nothing else changes |
| Pursuit.ShiftIsWalk | pacman.cpp:718-737 | shifting a goal k tiles along a direction is the same as walking k neighbour steps |
| Pursuit.BlinkyGoal | pacman.cpp:645-660 | Blinky aims at the player's tile, or at (0, 27) in scatter mode |
| Pursuit.PinkyGoal | pacman.cpp:713-740 | Pinky's scatter goal is (0, 0) |
| Pursuit.InkyGoal | pacman.cpp:793-825 | Inky's scatter goal is (30, 0) |
| Pursuit.PinkyLeadsPlayer | pacman.cpp:713-740 | Pinky's chase goal lies 4 tiles ahead of the player along its orientation, or on the player's tile when there is no orientation |
| Pursuit.InkyMirrorsBlinky | pacman.cpp:797-820 | the tile two ahead of the player is the midpoint of Inky's chase goal and Blinky's pixel position |
| Pursuit.ConsiderKeepsLeading | pacman.cpp:666-700 | each `if` of the lookahead keeps the best open candidate so far, with ties going to the earlier one |
| Pursuit.NeighbourIsClose | pacman.cpp:662-700 | every neighbour is at most one tile farther from the goal, so always below the +20 baseline |
| Pursuit.RaceOverLeads | pacman.cpp:666-701 | trying the remaining candidates in order leaves the best open one of all four |
| Pursuit.RaceLeads | pacman.cpp:662-702 | from the baseline, the four `if`s leave the best open candidate |
| Pursuit.Choose | pacman.cpp:662-702 | the lookahead's result is DEFAULT exactly when no exit is open, and an open exit otherwise; which one is stated by `ChooseIsBest` |
| Pursuit.ChooseIsBest | pacman.cpp:662-702 | the choice is DEFAULT exactly when no exit is open; otherwise it is an open exit, never the reversal, with the least distance after one step, and the earliest of Down, Up, Left, Right among the least |
| Pursuit.Decide | pacman.cpp:643-703 | the turn requested is DEFAULT or an exit of the ghost's current tile, and never a reversal of its orientation |
| Pursuit.NoReversal | pacman.cpp:666-700 | on a tile whose only exit points back, the ghost requests no turn |
| Pursuit.NoUTurnTowardGoal | pacman.cpp:662-702 | facing up with the goal straight below, on a tile open in every direction, the ghost keeps going up rather than turning around |
| Pursuit.Blinky.constructor | pacman.cpp:614-620 | Blinky starts at (111, 93) facing up |
| Pursuit.Pinky.constructor | pacman.cpp:622-627 | Pinky starts at (127, 93) facing up |
| Pursuit.Inky.constructor | pacman.cpp:629-634 | Inky starts at (143, 93) facing up |
| Pursuit.Blinky.DecideTurn | pacman.cpp:643-703 | Blinky's requested turn becomes `Decide` toward its goal, and nothing else changes |
| Pursuit.Pinky.DecideTurn | pacman.cpp:705-783 | Pinky's requested turn becomes `Decide` toward its goal, and nothing else changes |
| Pursuit.Inky.DecideTurn | pacman.cpp:785-868 | Inky's requested turn becomes `Decide` toward its goal, which depends on Blinky's position, and nothing else changes |
| Hero.Killed | pacman.cpp:135-141 | `kill` adds one below 11 and leaves the counter alone from 11 on |
| Hero.KillsSaturate | pacman.cpp:135-141 | from any counter in [0, 11], n kills give min(counter + n, 11): it never decreases and never passes 11 |
| Hero.Player.constructor | pacman.cpp:119-127 | the player starts alive at (15, 13) facing right with no requested turn |
| Hero.Player.Kill | pacman.cpp:135-141 | the counter becomes `Killed` of its old value |
| MainLoop.Start | pacman.cpp:1389-1410 | the state before the loop is `Sane`: every entity positioned on an enclosed board, the counters in range |
| MainLoop.VisitInBoard | pacman.cpp:1174-1185 | for a positioned player, the tile `(y / 8, x / 8)` that `updateBoard` writes is in the grid |
| MainLoop.Poll | pacman.cpp:1416-1450 | an arrow key sets the player's requested turn, a window close sets quit, and nothing else changes |
| MainLoop.Visit | pacman.cpp:1508 | the board update changes only the board and keeps the frame invariant |
| MainLoop.OnPellet | pacman.cpp:1511-1526 | the pellet test holds exactly on the four tiles (3, 1), (3, 26), (23, 1), (23, 26) |
| MainLoop.Caught | pacman.cpp:1538 | the collision test; `CaughtReadsBlinkyFlee` states that only Blinky's flee flag is read |
| MainLoop.CaughtReadsBlinkyFlee | pacman.cpp:1538 | Pinky's and Inky's flee flags never change the collision test; while the flags agree, the player is caught exactly when it shares a tile with a ghost and the ghosts are not fleeing |
| MainLoop.FleeAll | pacman.cpp:1515-1517 | sets the flee flag of the three ghosts and changes nothing else |
| MainLoop.ScatterAll | pacman.cpp:1559-1561 | sets the scatter flag of the three ghosts and changes nothing else |
| MainLoop.Pellet | pacman.cpp:1510-1526 | on a pellet tile all three ghosts flee and the frame is recorded; elsewhere nothing changes |
| MainLoop.Expiry | pacman.cpp:1528-1533 | flee ends 600 frames after a pellet recorded at a non-zero frame; otherwise nothing changes |
| MainLoop.Prepare | pacman.cpp:1507-1533 | before the player's turn only the board, the requested turn, quit, the flee flags and the flee frame change |
| MainLoop.PlayerPhase | pacman.cpp:1535-1552 | the death counter never decreases and rises by one without the player moving; quit is set only when the counter is 11; on a frame divisible by 3, a living player that is not caught makes one update |
| MainLoop.Scatter | pacman.cpp:1557-1568 | the schedule changes only the scatter flags |
| MainLoop.Chase | pacman.cpp:1569-1574 | a ghost's decision and update keep it positioned and keep its mode flags |
| MainLoop.GhostsMove | pacman.cpp:1569-1574 | the ghost step changes only the ghosts and none of their mode flags |
| MainLoop.GhostPhase | pacman.cpp:1555-1575 | the ghost phase changes only the ghosts and none of their flee flags |
| MainLoop.ScatterNext | pacman.cpp:1557-1568 | the two scatter switches on one flag; `ScatterSwitch` states the flag it leaves on a multiple of 4 |
| MainLoop.GhostPhaseScatter | pacman.cpp:1555-1568 | the scatter flags follow the schedule on frames divisible by 4 while the player is alive, and are kept otherwise |
| MainLoop.Frame | pacman.cpp:1507-1576 | a frame keeps the invariant and advances `frame` by exactly one |
| MainLoop.StartInvariants | pacman.cpp:1396-1410 | the flee and scatter invariants hold before the first frame |
| MainLoop.ScatterClock | pacman.cpp:1557-1568 | `(frame + 1200) % 1620 == 0` means offset 420; frames not divisible by 4 hit neither switch; between the switches the mode is constant |
| MainLoop.ScatterSwitch | pacman.cpp:1557-1568 | on a frame divisible by 4, the switch leaves the flag the schedule calls for |
| MainLoop.ScatterStep | pacman.cpp:1555-1568 | one frame of the scatter schedule keeps the flag in step with the 420-of-1620 pattern |
| MainLoop.FrameKeepsFlee | pacman.cpp:1510-1533 | one frame keeps the flee flags equal and active exactly through 599 frames after the last pellet |
| MainLoop.FrameKeepsScatter | pacman.cpp:1555-1568 | one frame keeps the scatter flags equal and, while the player is alive, on exactly for frames 0 to 419 of every 1620 |
| MainLoop.FrameDeath | pacman.cpp:1535-1552 | the counter stays in [0, 11], rises exactly on a frame divisible by 3 when the player is dying or caught while Blinky is not fleeing, reaching 11 sets quit, and the player becomes `Tick` of itself when the frame is divisible by 3 and it is alive and not caught, and changes at no other time |
| MainLoop.GhostsWait | pacman.cpp:1555 | ghosts keep their position, orientation and requested turn unless the frame is divisible by 4 and the player is alive |
| MainLoop.GhostsChase | pacman.cpp:1555-1574 | on a frame divisible by 4 with the player alive, each ghost becomes `Chase` toward its goal after the scatter switch, in the order Blinky, Pinky, Inky, with Inky's goal taken from Blinky's new pose |
| MainLoop.PelletStartsFlee | pacman.cpp:1510-1526 | a frame that starts on a pellet tile ends with all three ghosts fleeing and the flee frame recorded |
| MainLoop.Play | pacman.cpp:1413-1580 | the loop keeps the invariant, runs at most one frame per input, and stops early only on quit |
| MainLoop.PlayKeepsInvariants | pacman.cpp:1413-1580 | the flee and scatter invariants hold in every state the loop reaches |
| MainLoop.PlayDeath | pacman.cpp:1535-1552 | over any run the counter never decreases, and a run that brings it to 11 ends with quit set |
| MainLoop.GameKeepsInvariants | pacman.cpp:1389-1580 | from the start, the flee and scatter invariants hold throughout a game |
| MainLoop.Game.constructor | pacman.cpp:1389-1410 | the declarations before the loop give the `Start` state on a fresh, uncrossed board |
| MainLoop.Game.HandleEvents | pacman.cpp:1416-1450 | the event handling updates the state as `Poll` does |
| MainLoop.Game.CrossOff | pacman.cpp:1508 | `board.updateBoard(player)` updates the state as `Visit` does |
| MainLoop.Game.UpdateFlee | pacman.cpp:1510-1533 | the pellet test and the timeout update the state as `Pellet` then `Expiry` do |
| MainLoop.Game.SetFleeAll | pacman.cpp:1515-1517 | the three `setFlee` calls update the state as `FleeAll` does |
| MainLoop.Game.PlayerTurn | pacman.cpp:1535-1552 | the player's turn updates the state as `PlayerPhase` does |
| MainLoop.Game.SetScatterAll | pacman.cpp:1559-1561 | the three `setScatter` calls update the state as `ScatterAll` does |
| MainLoop.Game.ScatterTurn | pacman.cpp:1557-1568 | the schedule updates the state as `Scatter` does |
| MainLoop.Game.MoveBlinky | pacman.cpp:1569-1570 | Blinky decides and moves as `Chase` toward its goal |
| MainLoop.Game.MovePinky | pacman.cpp:1571-1572 | Pinky decides and moves as `Chase` toward its goal |
| MainLoop.Game.MoveInky | pacman.cpp:1573-1574 | Inky decides with Blinky's new position and moves as `Chase` |
| MainLoop.Game.GhostsTurn | pacman.cpp:1569-1574 | the ghost step updates the state as `GhostsMove` does |
| MainLoop.Game.GhostTurn | pacman.cpp:1555-1575 | the ghost phase updates the state as `GhostPhase` does |
| MainLoop.Game.Prelude | pacman.cpp:1507-1533 | everything before the player's turn updates the state as `Prepare` does |
| MainLoop.Game.Step | pacman.cpp:1507-1576 | one pass of the loop updates the state as `Frame` does and keeps the invariant |
| MainLoop.Game.Run | pacman.cpp:1413-1580 | the loop over the inputs reaches the state `Play` describes |

## Left out

- Rendering, textures and the window: `init`, `loadMedia`, `close`, the `LTexture` class and the render calls in `main`. They are I/O over SDL.
- Keyboard handling through `SDL_PollEvent`. Each frame receives an `Input` value instead: the last arrow key pressed, if any, and whether the window was closed.
- Clyde. Its `decideTurn` is declared but never defined, and `main` never creates one.
- `Entity::free`, the destructor and `currentSprite`. They only manage memory or choose sprites.
- The flee-blinking test in the render code, for the same reason.
- `Board.GetTile`: the source does no bounds check, so the model requires in-bounds indices. `Positioned` proves every call the game makes satisfies this.
- `Maze.Board.UpdateBoard`: the model requires the player's tile to be in the grid. `VisitInBoard` proves the game never breaks this; x = 224 cannot occur.
- `Maze.Board.constructor`: its contract states the structural invariants and the spawn tile, not the full exit layout. The body sets every exit the source sets, in the source's order.
- `Maze.Board.CarveTopCorridors`: its contract carries only the board invariant (`Built`) and the spawn tile, not the exits it sets (lines 883-926) or the cells it leaves alone. Its body makes the source's setter calls one by one, in order.
- `Maze.Board.CarveJunctionRows`: its contract carries only the board invariant (`Built`) and the spawn tile, not the exits it sets (lines 929-981) or the cells it leaves alone. Its body makes the source's setter calls one by one, in order.
- `Maze.Board.CarveSideColumnsAndTunnel`: its contract carries only the board invariant (`Built`) and the spawn tile, not the exits it sets (lines 983-1014) or the cells it leaves alone. Its body makes the source's setter calls one by one, in order.
- `Maze.Board.CarveGhostHouse`: its contract carries only the board invariant (`Built`) and the spawn tile, not the exits it sets (lines 1016-1084) or the cells it leaves alone. Its body makes the source's setter calls one by one, in order.
- `Maze.Board.CarveLowerMaze`: its contract carries only the board invariant (`Built`) and the spawn tile, not the exits it sets (lines 1086-1113) or the cells it leaves alone. Its body makes the source's setter calls one by one, in order.
- `Maze.Board.CarveBottomMaze`: its contract carries only the board invariant (`Built`) and the spawn tile, not the exits it sets (lines 1115-1170) or the cells it leaves alone. Its body makes the source's setter calls one by one, in order.
- `Maze.Board.SetExit`: it requires each opened exit to stay inside the grid, which the source does not check. Every call the constructor makes meets this, which is how the invariant is proved.
- `Pursuit.PinkyGoal` and `Pursuit.InkyGoal`: their own contracts state only the scatter corners. The chase goals are stated by `PinkyLeadsPlayer` and `InkyMirrorsBlinky`.
- Pass-by-value copies of the board, the player and Blinky. The callees only read them, so they are values or read-only parameters.
- Inheritance from `Entity`. The player and each ghost hold an `Entity` as `body` instead.
- Direction ordinals (RIGHT = 0 through DEFAULT = 4). They are datatype constructors here; only `currentSprite`, which is left out, does arithmetic on them.
- `MainLoop.Frame`: `frame` is an unbounded integer. The source's `int` would overflow only after about 2^31 frames.
- `Movement.Entity.SharingTile`: it has no contract of its own. It compares the two entities' tiles, and `SameTileProximity` states what that means.
