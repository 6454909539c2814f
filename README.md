# PenguinGame tile-grid engine in Dafny

A model of the simulation core of PenguinGame, an App Lab puzzle game (`Applab.js`). A penguin
slides across a square grid of ice tiles until something stops it. The grid holds:

- walls;
- one-way ramps;
- animated water that drowns the penguin;
- floating platforms that drift across the water and turn round at the bank;
- a home tile that leads to the next level.

The project has one module per part of the engine:

- `Tiles`: tile records, and decoding a tile-type name (`createTileOfType`). It also holds the
  names the platform update builds, and proves that decoding and encoding are inverse.
- `Grid`: the flat grid list, indexed `y*gridSize+x`, with its bounds-checked reads and writes
  on values.
- `Simulation`: one grid update (`updateGrid`, `updateFloatingPlatform`) as functions of the
  grid contents. It proves the per-pass invariants:
  - the flag discipline;
  - cells that are neither water nor platform stay untouched;
  - platforms move at most one cell;
  - the number of platforms is preserved.
- `Collision`: walls and one-way ramps (`isCollidable`), with the player's velocity passed in.
- `Movement`: the player's step (`updatePlayer`) and the steering done by the keyboard and
  on-screen buttons.
- `Levels`: the perfect-square test of `loadLevel`, the grid a level loads into, and the five
  level tables.
- `Pass`: a whole grid update followed cell by cell. The two nested loops of `updateGrid` are
  one scan over the n*n cells, and following a cell along that scan shows what the pass does:
  water that no platform heads into animates, and a platform with room around it turns round
  or moves one cell, leaving water behind.
- `Session`: the whole game state as a value. Its functions say what `loadLevel`, `nextLevel`,
  `reloadLevel`, `init`, `updatePlayer`, `updateGame` and the input handlers do to that state.
  Its lemmas say which invariants a tick keeps.
- `Game`: the class `Game` as the script keeps its globals, updated in place by methods:
  - `grid` is an `array<Tile>`;
  - `gridSize`, the player's position and velocity, and `currentLevel` are fields.

  Every method is proved to compute exactly the corresponding function of `Session` or
  `Simulation`. This includes the nested loops of `InitializeGrid`, `loadLevel` and
  `updateGrid`, and the one or two cell writes of `updateFloatingPlatform`.

The model follows the code as written:

- the grid update scans column by column, with x in the outer loop and y in the inner loop;
- a platform name whose characters 18-19 are not a direction code is excluded by the
  precondition of `Tiles.TileOfType` (see Left out);
- `setTile` is documented to report success, but as written it returns `false` off the grid and
  `undefined` after a write. `Grid.SetTileReturn` models that return value. `Game.Game.SetTile`,
  which every `Game` method calls, returns the documented result (see Findings).

## Model

| member | source | states |
|---|---|---|
| Tiles.TileOfType | Applab.js:22-64 | The decoded tile has its changed flag set. It carries a direction exactly when its kind is a platform name. A platform name keeps being a platform name, and its direction is the one whose code sits at characters 18-19. |
| Tiles.DirOfCode | Applab.js:33-47 | Each direction code maps to the direction 0-3 whose code it is (rt, up, lt, dn). |
| Tiles.PlatformName | Applab.js:283-302 | The platform name built for direction d and frame f is a well-formed platform name whose characters 18-19 are d's code. |
| Tiles.WaterName | Applab.js:296-303 | The water name built for a frame starts with "water", is not a platform name and decodes. |
| Tiles.PlatformKindFacts | Applab.js:250-257 | Each animated platform kind is a platform name and not a water name. Tiles.FrameOf, which reads character 18 (absent means frame 0), gives back the frame in 0-3 that the kind stands for. |
| Tiles.PlatformNameRoundTrip | Applab.js:31-56 | Decoding the name built for (d, f) gives the platform kind of frame f with direction d, and reading character 18 of that kind gives f back. |
| Tiles.OtherNamesKept | Applab.js:24-31 | A name that does not start with "floating_platform" decodes to a tile that keeps the name as its type. |
| Tiles.WaterNames | Applab.js:207-217 | The water names of frames 0-3 are water, water_1, water_2, water_3. None is a platform name. |
| Tiles.AnimatedKinds | Applab.js:205-232 | For every frame, the platform kind and the water kind are distinct names of their own family, and the platform kind's frame reads back. |
| Tiles.DecodeEncode | Applab.js:22-64 | Rebuilding the name of any tile the game produces and decoding it gives the same tile. |
| Tiles.TypeName | Applab.js:283-302 | The rebuilt name of a tile is well formed, is a platform name exactly when the tile's kind is one, and then carries the code of the tile's direction at characters 18-19. |
| Tiles.EncodeDecodePlatform | Applab.js:283-302 | Decoding a built platform name and rebuilding its name gives the same string. |
| Grid.Idx | Applab.js:127 | The index y*n+x of an on-grid cell lies in [0, n*n). |
| Grid.IdxInjective | Applab.js:127 | Distinct cells have distinct list indices. |
| Grid.IdxOnto | Applab.js:156 | Every list index below n*n is the index of some on-grid cell. |
| Grid.Put | Applab.js:117-140 | A write keeps the grid's length and its well-formedness. |
| Grid.PutThenRead | Applab.js:117-140 | After a write, the written cell holds the decoded tile. Every other cell, and every cell after an off-grid write, holds what it held before. |
| Grid.SetTileReturn | Applab.js:117-140 | As written, the result is `false` exactly when the cell is off the grid. |
| Grid.SetTileNeverReportsSuccess | Applab.js:116-140 | As written, the result is never truthy, not even after the successful write to (0, 0) of a 1x1 grid. |
| Grid.PlatformCountUpdate | Applab.js:136 | Replacing one tile changes the platform count by the tile that arrived minus the tile that left. |
| Simulation.Velocity | Applab.js:259-266 | Each direction gives a unit step with exactly one non-zero component. |
| Simulation.Blocked | Applab.js:278-279 | A platform that is not blocked has its cell ahead on the grid, and that cell holds no platform. |
| Simulation.BlockedByTarget | Applab.js:278-279 | The platform is blocked exactly when getTile returns null for the cell ahead or that cell's type does not start with "water". |
| Simulation.Cleared | Applab.js:191-196 | The first loop clears every changed flag and touches nothing else. |
| Simulation.TurnOrMove | Applab.js:277-306 | The cell writes of a platform step keep the grid well formed. |
| Simulation.PlatformStep | Applab.js:244-307 | The platform update keeps the grid well formed. |
| Simulation.Visit | Applab.js:200-235 | One cell's visit keeps the grid well formed. |
| Simulation.ColumnUpTo | Applab.js:199-236 | The inner loop over a column keeps the grid well formed. |
| Simulation.Columns | Applab.js:198-237 | The outer loop over the columns keeps the grid well formed. |
| Simulation.Tick | Applab.js:190-238 | A whole grid update keeps the grid well formed. |
| Simulation.PlatformStepTurns | Applab.js:277-292 | A blocked platform's step is exactly one write, on its own cell, of a name that decodes to the next frame's platform heading the opposite way. |
| Simulation.PlatformStepMoves | Applab.js:295-306 | An unblocked platform's step is exactly two writes, with the velocity of its direction: any name that decodes to the next frame's platform on the cell ahead, then any name that decodes to the next frame's water on its own cell. |
| Simulation.PlatformReverses | Applab.js:277-292 | At a bank or the grid edge, only the platform's cell changes. It takes the next frame, and its direction becomes (d+2)%4, whose velocity is the negation of d's. |
| Simulation.PlatformMoves | Applab.js:295-306 | Facing water, the cell ahead takes the platform (same direction, frame (f+1)%4) and the old cell becomes water of that frame. No other cell changes. |
| Simulation.VisitAnimatesWater | Applab.js:207-218 | An unprocessed water cell advances one step of the four-frame cycle water, water_1, water_2, water_3, water, and no other cell changes. |
| Simulation.TurnOrMoveKeepsCount | Applab.js:277-306 | A platform turning or moving keeps the number of platform cells. |
| Simulation.VisitKeepsCount | Applab.js:200-235 | A single visit keeps the number of platform cells. |
| Simulation.TickKeepsPlatformCount | Applab.js:190-238 | A whole grid update neither creates nor destroys platforms. |
| Simulation.TickKeepsInertCells | Applab.js:190-238 | A cell holding neither water nor a platform comes out of the update as it went in, only with its flag cleared. |
| Simulation.TickUnflaggedCellsUnwritten | Applab.js:191-202 | A cell whose flag is clear after the update was never written during it, so no cell is handled twice. |
| Simulation.TickMovesPlatformsAtMostOneCell | Applab.js:198-238 | After an update, every platform cell held a platform heading the same or the opposite way before, or the cell one step behind it held a platform with the same direction. |
| Pass.CellAt | Applab.js:198-199 | Step k of the scan visits an on-grid cell (x, y) with k == x*n + y. |
| Pass.ScanPos | Applab.js:198-199 | Every cell has a step below n*n at which the scan visits it. |
| Pass.ScanVisits | Applab.js:198-236 | The scan's visit at a cell's step is the visit of that cell. |
| Pass.ColumnsAreScan | Applab.js:198-237 | The first x columns of the nested loops are the first x*n steps of the scan. |
| Pass.TickIsScan | Applab.js:190-238 | A whole grid update is the scan over all n*n steps of the grid with cleared flags. |
| Pass.ScanKeepsCell | Applab.js:198-236 | Along the scan, a cell whose flag is still clear holds its tile from the start of the scan. |
| Pass.Untouched | Applab.js:198-236 | A cell into which only the platform at one given cell may head is unchanged by the steps that visit neither of the two cells. |
| Pass.KeptAfter | Applab.js:201-202 | Once a cell is visited or written, no later step changes it, provided only the platform being visited may head into it. |
| Pass.TickAnimatesWater | Applab.js:190-218 | Water of frame f that no platform heads into comes out of the whole update as water of frame (f+1)%4, flagged as written. |
| Pass.VisitOfPlatform | Applab.js:220-232 | When the scan reaches a platform with room around it, the platform and whether it is blocked are as at the start, and the visit is its platform step. |
| Pass.TickTurnsPlatform | Applab.js:244-292 | A blocked platform with room around it comes out of the whole update turned round in place: next frame, direction (d+2)%4. |
| Pass.TickLeavesWater | Applab.js:295-306 | An unblocked platform with room around it leaves water of its next frame on its cell after the whole update. |
| Pass.TickMovesPlatform | Applab.js:295-306 | An unblocked platform with room around it stands one cell ahead after the whole update, with its direction and next frame. |
| Collision.Collidable | Applab.js:166-186 | A wall always blocks and only walls and ramps can block. For a velocity with at most one non-zero component, a ramp blocks exactly when the velocity is not the unit step of the ramp's direction. |
| Collision.RampDir | Applab.js:172-183 | A kind has a ramp direction exactly when it is one of the four ramps, and that direction names the ramp. |
| Collision.CollisionRule | Applab.js:166-186 | For a velocity with at most one non-zero component, a tile blocks exactly when it is a wall, or a ramp the player is not moving along. |
| Collision.RampPassesOnlyItsDirection | Applab.js:170-183 | A ramp lets a unit move through exactly when the move goes in the ramp's own direction. A wall blocks every move. |
| Collision.IdleBlockedByWallsAndRamps | Applab.js:166-186 | At zero velocity, exactly walls and ramps block. |
| Collision.OtherKindsNeverBlock | Applab.js:184-185 | Every kind other than the wall and the four ramps is passable at any velocity. |
| Collision.WaterNeverBlocks | Applab.js:184-185 | No water kind blocks. |
| Movement.ClampAxis | Applab.js:476-510 | After moving along one axis the coordinate is on the grid, and the velocity component is kept or zeroed. |
| Movement.Advance | Applab.js:476-510 | The clamped move always lands on the grid. |
| Movement.Step | Applab.js:473-528 | The player step only ever keeps or zeroes each velocity component, and a collision leaves the player at rest. Movement.StepEvents states which tile gives which event. |
| Movement.StepEvents | Applab.js:512-528 | The tile the clamped move reaches decides the event. It is a collision exactly when that tile blocks the clamped velocity, and the move is then subtracted back and both components zeroed. Otherwise it is ReachedHome exactly on home and Drowned exactly on a water kind, moving or not. |
| Movement.EnterTile | Applab.js:512-528 | Moving one cell in direction d onto an on-grid tile: a wall, or a ramp of another direction, puts the player back on the starting cell at rest. Home gives ReachedHome, water gives Drowned, and any other tile an ordinary move, each with the player on that tile and still moving. |
| Movement.StepStaysOnGrid | Applab.js:473-532 | Starting on the grid with components in {-1,0,1}, the player ends on the grid. A blocked move returns the player to the starting cell at rest; any other move ends where the clamped move landed. At most one non-zero component is kept. |
| Movement.EdgeClamps | Applab.js:476-510 | Running off an edge stops the player on the edge cell with that velocity component zeroed. |
| Movement.IdleOnWaterDrowns | Applab.js:473-528 | A player at rest whose cell now holds water drowns. |
| Movement.PassableKeepsMoving | Applab.js:476-521 | Moving onto a passable on-grid cell keeps the velocity and advances one cell. |
| Movement.Steer | Applab.js:588-619 | A button leaves the position alone and ignores a moving player. It gives a player at rest a unit velocity. |
| Movement.KeyDirection | Applab.js:557-584 | A key code selects a direction exactly when it is one of 37-40. |
| Movement.KeyDown | Applab.js:553-585 | A key leaves the position alone. It changes nothing for a moving player or a non-arrow key, and keeps the velocity a unit one. |
| Movement.ArrowKeys | Applab.js:553-585 | For a player at rest, keys 37, 38, 39 and 40 set velocities (-1,0), (0,-1), (1,0) and (0,1). |
| Levels.IntSqrt | Applab.js:315 | The integer square root r satisfies r*r <= m < (r+1)*(r+1). |
| Levels.IsSquare | Applab.js:315-320 | The perfect-square test holds exactly when the length is the square of some natural number. |
| Levels.RootsOf | Applab.js:315 | A natural number has at most one natural square root, the one IntSqrt finds. |
| Levels.SquareSide | Applab.js:315-323 | k*k == m exactly when m passes the perfect-square test with side k. |
| Levels.LoadedCells | Applab.js:328-340 | Each loaded cell holds ice where the level entry is empty, and the decoded entry otherwise. |
| Levels.TableNamesDecode | Applab.js:345-391 | Every name of the shapes the tables use decodes. |
| Levels.LevelSizes | Applab.js:345-391 | The five levels have lengths 16, 25, 64, 64 and 100, with sides 4, 5, 8, 8 and 10, and the table is playable. |
| Session.LoadLevel | Applab.js:313-341 | A non-square level changes nothing. Otherwise side² equals the level length, the player is at (0,0) at rest, and cell (x,y) holds ice or the decoded entry y*side+x. |
| Session.NextLevel | Applab.js:396-412 | The level index stays in range. At the last level nothing changes. Otherwise the index advances by one; if the next level is square, its decoded cells are loaded and the player is at the origin, and if not, nothing else changes. |
| Session.ReloadLevel | Applab.js:415-417 | Reloading keeps the level index. A square current level has its decoded cells loaded again, with the player at the origin; a non-square one changes nothing. |
| Session.Init | Applab.js:626-629 | Init leads to a valid state on level 0, with level 0's decoded cells loaded and the player at the origin. |
| Session.UpdatePlayer | Applab.js:473-532 | The level index stays in range and changes only by advancing one level, which happens exactly when the player reaches home below the last level. A collision or an ordinary move changes only the player, to the result of the step. The grid stays well formed. |
| Session.UpdateGame | Applab.js:540-549 | A tick keeps the level index in range, stays on it or advances one, and keeps the grid well formed. Without a level change or reload the grid is the updated grid and the player the result of the step on it. |
| Session.Button | Applab.js:588-619 | A button changes neither the grid nor the level. |
| Session.Key | Applab.js:553-585 | A key changes neither the grid nor the level. |
| Session.TableLevelLoads | Applab.js:313-341 | Every level of a playable table loads into a non-empty, well-formed square grid. |
| Session.UpdateGameKeepsWorldOk | Applab.js:540-549 | A whole tick keeps the state valid: grid well formed, level index in range, player on the grid with at most one non-zero component. |
| Session.InputKeepsWorldOk | Applab.js:553-619 | The input handlers keep the state valid. |
| Session.DrowningRestartsLevel | Applab.js:526-527 | Entering water reloads the current level afresh with the player at the origin. |
| Session.HomeAdvancesLevel | Applab.js:522-525 | Reaching home loads the next level's decoded cells with the player at the origin. On the last level the index and the grid stay, and the player stands on home. |
| Session.TickKeepsPlatformsInPlay | Applab.js:540-549 | A tick that neither reloads nor changes level keeps the number of platforms. |
| Game.Game.constructor | Applab.js:626-640 | The script's start yields the state Init gives, and it is valid. |
| Game.Game.GetTile | Applab.js:146-160 | Returns null exactly for an off-grid cell, and otherwise the tile at index y*n+x. |
| Game.Game.SetTile | Applab.js:117-140 | Reports success exactly when the cell is on the grid. The grid afterwards is the write on values, so only the target cell changes. |
| Game.Game.InitializeGrid | Applab.js:85-109 | A fresh gridSize² array with every cell holding ice. Nothing else changes. |
| Game.Game.InitializePlayer | Applab.js:440-443 | The player is at (0,0) with zero velocity. |
| Game.Game.LoadLevel | Applab.js:313-341 | The state afterwards is Session.LoadLevel of the state before. |
| Game.Game.NextLevel | Applab.js:396-412 | The state afterwards is Session.NextLevel of the state before. |
| Game.Game.ReloadLevel | Applab.js:415-417 | The state afterwards is Session.ReloadLevel of the state before. |
| Game.Game.Init | Applab.js:626-629 | The state afterwards is Session.Init of the state before, and it is valid. |
| Game.Game.StepOf | Applab.js:259-266 | The velocity of the direction switch is Simulation.Velocity. |
| Game.Game.UpdateFloatingPlatform | Applab.js:244-307 | The grid afterwards is Simulation.PlatformStep of the grid before. |
| Game.Game.TurnRound | Applab.js:277-292 | For a blocked platform, the grid afterwards is Simulation.PlatformStep of the grid before. |
| Game.Game.MoveAhead | Applab.js:295-306 | For an unblocked platform, the grid afterwards is Simulation.PlatformStep of the grid before. |
| Game.Game.PlatformTypeName | Applab.js:283-301 | The built name decodes to the platform kind of the frame, with the given direction. |
| Game.Game.WaterTypeName | Applab.js:296-303 | The built name is a water name that decodes to the water kind of the frame. |
| Game.Game.UpdateGrid | Applab.js:190-238 | The grid afterwards is Simulation.Tick of the grid before: both nested loops. |
| Game.Game.VisitCell | Applab.js:200-235 | The body of the inner loop changes the grid to Simulation.Visit of the grid before. |
| Game.Game.MoveAxis | Applab.js:476-510 | Moving and clamping one axis computes Movement.ClampAxis. |
| Game.Game.UpdatePlayer | Applab.js:473-532 | The state afterwards is Session.UpdatePlayer of the state before, including the level changes. |
| Game.Game.UpdateGame | Applab.js:540-549 | One tick computes Session.UpdateGame and keeps the state valid. |
| Game.Game.KeyDown | Applab.js:553-585 | The state afterwards is Session.Key of the state before. |
| Game.Game.ButtonDown | Applab.js:588-619 | The state afterwards is Session.Button of the state before. |

## Left out

- Drawing and UI calls (`image`, `setPosition`, `setImageURL`, `deleteElement`, `showElement`,
  `hideElement`, `setText`, `updatePlayerGraphics`, `setPlayerPosition`, `updateScreen`) are
  left out. They only render the state and do not change it.
- `createdGridSize` and `gridOffset` are left out. They are sprite bookkeeping and
  floating-point pixel layout.
- `timedLoop`, `stopTimedLoop` and the `onEvent` registrations are left out; the model keeps the
  handler bodies. At the last level `nextLevel` stops the loop and shows the win screen. The
  model keeps the state unchanged there, and leaves the stopping of later ticks to the caller.
- `Math.sqrt` with `Math.round` is replaced by an exact integer square root. Floating-point
  rounding is not modelled.
- The script grows and reuses one JavaScript array. `InitializeGrid` here allocates a fresh
  array of exactly gridSize² cells; stale cells beyond that size are never read in the source
  either.
- A platform name whose characters 18-19 are not a direction code is outside the model.
  Decoding requires a well-formed name, because the source then makes a platform without a
  direction and later computes with an undefined direction.
- Game.Game.UpdatePlayer: requires a non-empty grid. An empty level would pass the perfect-square
  test, and then the source dereferences the null that `getTile` returns.
- Game.Game.constructor: requires a playable level table (non-empty, square levels of decodable
  names). `Levels.LevelSizes` proves that the game's own table is one.
- Tiles.FrameOf: `parseInt` is modelled on a single digit character only. The platform kinds the
  game produces never have anything else there.
- Game.Game.PlatformTypeName: states the tile the built name decodes to, not the string itself.
  `Tiles.PlatformNameRoundTrip` relates the two.
- Game.Game.WaterTypeName: states the tile the built name decodes to, not the string itself.
  `Tiles.WaterNames` gives the strings.
- `isCollidable` on an off-grid cell is not modelled. The source only calls it after clamping,
  so the cell is always on the grid.

## Findings

| source | as written | input that shows it | evidently intended | confidence | as-written member | corrected member |
|---|---|---|---|---|---|---|
| Applab.js:116-140 | `setTile` is documented to return whether it succeeded, but it returns `false` off the grid and nothing (`undefined`, falsy) after a successful write | `setTile(0, 0, "ice")` on a 1x1 grid writes the cell and returns `undefined` | return `true` after the write, so the result is truthy exactly when the cell is on the grid | not executed | Grid.SetTileNeverReportsSuccess | Game.Game.SetTile |
