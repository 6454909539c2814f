/** The game's global state as one value, and what each top-level operation does to it:
    loadLevel, nextLevel, reloadLevel and init (Applab.js:313-341, 396-417, 440-443, 626-637),
    updatePlayer with its level changes (Applab.js:473-532), one whole tick (updateGame,
    Applab.js:540-549) and the input handlers (Applab.js:553-619). Game.Game is proved to
    follow these functions. */
module Session {
  import opened Tiles
  import opened Grid
  import opened Simulation
  import opened Movement
  import opened Levels

  /** gameGrid, gridSize, the player's four variables and currentLevel. */
  datatype World = World(grid: seq<Tile>, size: nat, player: Player, current: int)

  /** Where InitializePlayer puts the player: the top-left cell, at rest. */
  const Origin: Player := Player(0, 0, 0, 0)

  /** The state a running game keeps: a playable level table, a valid level index, a
      non-empty well-formed grid, and the player on it with a unit velocity. */
  predicate WorldOk(w: World, levels: seq<seq<string>>)
  {
    TableOk(levels) && 0 <= w.current < |levels| && w.size > 0 && GridOk(w.grid, w.size) &&
    InGrid(w.size, w.player.x, w.player.y) && UnitVelocity(w.player)
  }

  /** loadLevel: a level whose length is not a perfect square is ignored; otherwise the grid
      takes the level's side, every cell (x, y) holds ice where entry y*side+x is empty and the
      decoded tile of that entry otherwise, and the player restarts at the origin. */
  function LoadLevel(w: World, level: seq<string>): (r: World)
    requires LevelOk(level)
    ensures !IsSquare(|level|) ==> r == w
    ensures IsSquare(|level|) ==> r.size * r.size == |level| && GridOk(r.grid, r.size)
    ensures IsSquare(|level|) ==> r.player == Origin && r.current == w.current
    ensures IsSquare(|level|) ==> forall x, y :: InGrid(r.size, x, y) ==>
      r.grid[Idx(r.size, x, y)] ==
        if level[Idx(r.size, x, y)] == "" then IceTile else TileOfType(level[Idx(r.size, x, y)])
  {
    if IsSquare(|level|) then
      var n := IntSqrt(|level|);
      World(LoadedCells(level, n), n, Origin, w.current)
    else
      w
  }

  /** Every entry of every level is a name the decoder accepts, so loadLevel can run on any
      level of the table (TableOk adds that each level is a non-empty square). */
  predicate LevelsLoadable(levels: seq<seq<string>>)
  {
    forall i :: 0 <= i < |levels| ==> LevelOk(levels[i])
  }

  /** nextLevel: advance to the following level and load it, or, at the last level, keep
      everything as it is (the source then shows the win screen and stops the loop). */
  function NextLevel(w: World, levels: seq<seq<string>>): (r: World)
    requires 0 <= w.current < |levels| && LevelsLoadable(levels)
    ensures 0 <= r.current < |levels|
    ensures w.current == |levels| - 1 ==> r == w
    ensures w.current < |levels| - 1 ==> r.current == w.current + 1
    ensures w.current < |levels| - 1 && IsSquare(|levels[w.current + 1]|) ==>
      r.player == Origin && r.size * r.size == |levels[r.current]| &&
      r.grid == LoadedCells(levels[r.current], r.size)
    ensures w.current < |levels| - 1 && !IsSquare(|levels[w.current + 1]|) ==>
      r == w.(current := w.current + 1)
  {
    if w.current + 1 >= |levels| then w
    else LoadLevel(w.(current := w.current + 1), levels[w.current + 1])
  }

  /** reloadLevel: load the current level again. */
  function ReloadLevel(w: World, levels: seq<seq<string>>): (r: World)
    requires 0 <= w.current < |levels| && LevelsLoadable(levels)
    ensures r.current == w.current
    ensures IsSquare(|levels[w.current]|) ==>
      r.player == Origin && r.size * r.size == |levels[w.current]| &&
      r.grid == LoadedCells(levels[w.current], r.size)
    ensures !IsSquare(|levels[w.current]|) ==> r == w
  {
    LoadLevel(w, levels[w.current])
  }

  /** init: back to the first level. */
  function Init(w: World, levels: seq<seq<string>>): (r: World)
    requires TableOk(levels)
    ensures WorldOk(r, levels) && r.current == 0 && r.player == Origin
    ensures r.size * r.size == |levels[0]| && r.grid == LoadedCells(levels[0], r.size)
  {
    SquareSide(|levels[0]|, IntSqrt(|levels[0]|));
    LoadLevel(w.(current := 0), levels[0])
  }

  /** updatePlayer: the movement step, then the next level on reaching home or a reload on
      entering water. */
  function UpdatePlayer(w: World, levels: seq<seq<string>>): (r: World)
    requires w.size > 0 && |w.grid| == w.size * w.size
    requires 0 <= w.current < |levels| && LevelsLoadable(levels)
    ensures 0 <= r.current < |levels|
    ensures r.current == w.current || r.current == w.current + 1
    ensures r.current == w.current + 1 <==>
      Step(w.player, w.size, w.grid).1 == ReachedHome && w.current < |levels| - 1
    ensures Step(w.player, w.size, w.grid).1 in {Collided, Moved} ==>
      r.grid == w.grid && r.size == w.size && r.player == Step(w.player, w.size, w.grid).0
    ensures GridOk(w.grid, w.size) ==> GridOk(r.grid, r.size)
  {
    var (p, e) := Step(w.player, w.size, w.grid);
    var moved := w.(player := p);
    match e
    case ReachedHome => NextLevel(moved, levels)
    case Drowned => ReloadLevel(moved, levels)
    case _ => moved
  }

  /** updateGame: one tick of the game loop, the grid first and then the player. */
  function UpdateGame(w: World, levels: seq<seq<string>>): (r: World)
    requires w.size > 0 && GridOk(w.grid, w.size)
    requires 0 <= w.current < |levels| && LevelsLoadable(levels)
    ensures 0 <= r.current < |levels| && GridOk(r.grid, r.size)
    ensures r.current == w.current || r.current == w.current + 1
    ensures Step(w.player, w.size, Tick(w.grid, w.size)).1 in {Collided, Moved} ==>
      r.grid == Tick(w.grid, w.size) && r.size == w.size &&
      r.player == Step(w.player, w.size, Tick(w.grid, w.size)).0
  {
    UpdatePlayer(w.(grid := Tick(w.grid, w.size)), levels)
  }

  /** An on-screen arrow button for direction d. */
  function Button(w: World, d: Dir): (r: World)
    ensures r.grid == w.grid && r.size == w.size && r.current == w.current
  {
    w.(player := Steer(w.player, d))
  }

  /** The keydown handler. */
  function Key(w: World, code: int): (r: World)
    ensures r.grid == w.grid && r.size == w.size && r.current == w.current
  {
    w.(player := KeyDown(w.player, code))
  }

  // ---------------------------------------------------------------------------------------
  // Properties

  /** Loading any level of a playable table succeeds: its side squared is its length, and the
      grid is well formed and non-empty. */
  lemma TableLevelLoads(w: World, levels: seq<seq<string>>, k: int)
    requires TableOk(levels) && 0 <= k < |levels|
    ensures var r := LoadLevel(w, levels[k]);
      r.size > 0 && r.size * r.size == |levels[k]| && r.player == Origin && GridOk(r.grid, r.size)
  {
    SquareSide(|levels[k]|, IntSqrt(|levels[k]|));
  }

  /** One tick keeps the game in a valid state: the grid stays well formed, the level index in
      range, and the player on the grid with at most one non-zero velocity component. */
  lemma UpdateGameKeepsWorldOk(w: World, levels: seq<seq<string>>)
    requires WorldOk(w, levels)
    ensures WorldOk(UpdateGame(w, levels), levels)
  {
    var g := w.(grid := Tick(w.grid, w.size));
    StepStaysOnGrid(g.player, g.size, g.grid);
    var (p, e) := Step(g.player, g.size, g.grid);
    if e == ReachedHome && w.current + 1 < |levels| {
      TableLevelLoads(g.(player := p, current := w.current + 1), levels, w.current + 1);
    } else if e == Drowned {
      TableLevelLoads(g.(player := p), levels, w.current);
    }
  }

  /** The input handlers keep the game in a valid state. */
  lemma InputKeepsWorldOk(w: World, levels: seq<seq<string>>, d: Dir, code: int)
    requires WorldOk(w, levels)
    ensures WorldOk(Button(w, d), levels) && WorldOk(Key(w, code), levels)
  {
  }

  /** Entering water restarts the current level: the grid is loaded afresh and the player is
      back at the origin, at rest. */
  lemma DrowningRestartsLevel(w: World, levels: seq<seq<string>>)
    requires WorldOk(w, levels)
    requires Step(w.player, w.size, w.grid).1 == Drowned
    ensures var r := UpdatePlayer(w, levels);
      r.current == w.current && r.player == Origin &&
      r.size * r.size == |levels[w.current]| && r.grid == LoadedCells(levels[w.current], r.size)
  {
    TableLevelLoads(w.(player := Step(w.player, w.size, w.grid).0), levels, w.current);
  }

  /** Reaching home loads the next level's cells with the player at the origin; on the last
      level the level index stays and the player stands on the home cell. */
  lemma HomeAdvancesLevel(w: World, levels: seq<seq<string>>)
    requires WorldOk(w, levels)
    requires Step(w.player, w.size, w.grid).1 == ReachedHome
    ensures var r := UpdatePlayer(w, levels);
      if w.current < |levels| - 1 then
        r.current == w.current + 1 && r.player == Origin && r.size * r.size == |levels[r.current]| &&
        r.grid == LoadedCells(levels[r.current], r.size)
      else
        r.current == w.current && r.grid == w.grid &&
        r.grid[Idx(w.size, r.player.x, r.player.y)].kind == "home"
  {
    var p := Step(w.player, w.size, w.grid).0;
    StepStaysOnGrid(w.player, w.size, w.grid);
    if w.current < |levels| - 1 {
      TableLevelLoads(w.(player := p, current := w.current + 1), levels, w.current + 1);
    }
  }

  /** While the player neither reaches home nor drowns, a tick keeps the number of floating
      platforms on the grid. */
  lemma TickKeepsPlatformsInPlay(w: World, levels: seq<seq<string>>)
    requires WorldOk(w, levels)
    requires Step(w.player, w.size, Tick(w.grid, w.size)).1 in {Collided, Moved}
    ensures PlatformCount(UpdateGame(w, levels).grid) == PlatformCount(w.grid)
  {
    TickKeepsPlatformCount(w.grid, w.size);
  }
}
