/** The running game as the source keeps it: one object holding the grid array, its size, the
    player's position and velocity and the current level, with the source's procedures as
    methods that update it in place. Each method is proved to follow the corresponding
    function of Session or Simulation. */
module Game {
  import opened Tiles
  import opened Grid
  import opened Simulation
  import opened Collision
  import opened Movement
  import opened Levels
  import opened Session

  /** Cells (x', y') with x' < x, or x' == x and y' < y, hold what the level puts there; the
      rest still hold ice. */
  ghost predicate LoadedUpTo(g: seq<Tile>, want: seq<Tile>, n: nat, x: int, y: int)
  {
    |g| == |want| == n * n &&
    forall x', y' :: InGrid(n, x', y') ==>
      g[Idx(n, x', y')] == if x' < x || (x' == x && y' < y) then want[Idx(n, x', y')] else IceTile
  }

  lemma LoadedNext(g: seq<Tile>, want: seq<Tile>, n: nat, x: int, y: int)
    requires LoadedUpTo(g, want, n, x, y) && InGrid(n, x, y)
    ensures LoadedUpTo(g[Idx(n, x, y) := want[Idx(n, x, y)]], want, n, x, y + 1)
  {
    forall x', y' | InGrid(n, x', y') && (x' != x || y' != y)
      ensures Idx(n, x', y') != Idx(n, x, y)
    {
      if Idx(n, x', y') == Idx(n, x, y) {
        IdxInjective(n, x', y', x, y);
      }
    }
  }

  lemma LoadedNextColumn(g: seq<Tile>, want: seq<Tile>, n: nat, x: int)
    requires LoadedUpTo(g, want, n, x, n)
    ensures LoadedUpTo(g, want, n, x + 1, 0)
  {
  }

  lemma LoadedAll(g: seq<Tile>, want: seq<Tile>, n: nat)
    requires LoadedUpTo(g, want, n, n, 0)
    ensures g == want
  {
    CellwiseEqual(g, want, n);
  }

  /** The first loop of updateGrid up to cell (x, y): the cells already passed have their
      flag cleared, the others are as in s. */
  ghost predicate ClearedUpTo(g: seq<Tile>, s: seq<Tile>, n: nat, x: int, y: int)
  {
    |g| == |s| == n * n &&
    forall x', y' :: InGrid(n, x', y') ==>
      g[Idx(n, x', y')] ==
        if x' < x || (x' == x && y' < y) then s[Idx(n, x', y')].(changed := false) else s[Idx(n, x', y')]
  }

  lemma ClearedNext(g: seq<Tile>, s: seq<Tile>, n: nat, x: int, y: int)
    requires ClearedUpTo(g, s, n, x, y) && InGrid(n, x, y)
    ensures ClearedUpTo(g[Idx(n, x, y) := g[Idx(n, x, y)].(changed := false)], s, n, x, y + 1)
  {
    forall x', y' | InGrid(n, x', y') && (x' != x || y' != y)
      ensures Idx(n, x', y') != Idx(n, x, y)
    {
      if Idx(n, x', y') == Idx(n, x, y) {
        IdxInjective(n, x', y', x, y);
      }
    }
  }

  lemma ClearedAll(g: seq<Tile>, s: seq<Tile>, n: nat)
    requires ClearedUpTo(g, s, n, n, 0)
    ensures g == Cleared(s)
  {
    CellwiseEqual(g, Cleared(s), n);
  }

  class Game {
    /** gameGrid: cell (x, y) at index y*gridSize + x. */
    var grid: array<Tile>
    var gridSize: nat
    var playerX: int
    var playerY: int
    var playerVX: int
    var playerVY: int
    var currentLevel: int
    /** The level tables, in playing order. */
    const levels: seq<seq<string>>

    /** The whole game state as a value. */
    function State(): World
      reads this, grid
    {
      World(grid[..], gridSize, Player(playerX, playerY, playerVX, playerVY), currentLevel)
    }

    ghost predicate Valid()
      reads this, grid
    {
      WorldOk(State(), levels)
    }

    /** The script's start: the globals' initial values, then init(). */
    constructor (levels: seq<seq<string>>)
      requires TableOk(levels)
      ensures this.levels == levels && Valid()
      ensures State() == Session.Init(World([], 10, Origin, 0), levels)
    {
      this.levels := levels;
      grid := new Tile[0];
      gridSize := 10;
      playerX, playerY, playerVX, playerVY := 0, 0, 0, 0;
      currentLevel := 0;
      new;
      assert grid[..] == [];
      Init();
    }

    /** getTile: null exactly for a cell off the grid, otherwise the tile at index y*n+x. */
    function GetTile(x: int, y: int): (t: Option<Tile>)
      reads this, grid
      requires grid.Length == gridSize * gridSize
      ensures t.None? <==> !InGrid(gridSize, x, y)
      ensures t.Some? ==> t.value == grid[Idx(gridSize, x, y)]
    {
      if x >= gridSize || x < 0 then None
      else if y >= gridSize || y < 0 then None
      else Some(grid[Idx(gridSize, x, y)])
    }

    /** setTile with its result as documented: it reports whether the cell was on the grid.
        Off the grid nothing changes; on it, only cell (x, y) changes and holds the decoded
        tile, with its changed flag set. */
    method SetTile(x: int, y: int, name: string) returns (ok: bool)
      requires grid.Length == gridSize * gridSize && WellFormedName(name)
      modifies grid
      ensures ok <==> InGrid(gridSize, x, y)
      ensures grid[..] == Put(old(grid[..]), gridSize, x, y, name)
      ensures gridSize == old(gridSize)
    {
      if x >= gridSize || x < 0 {
        return false;
      }
      if y >= gridSize || y < 0 {
        return false;
      }
      var index := Idx(gridSize, x, y);
      grid[index] := TileOfType(name);
      ok := true;
    }

    /** InitializeGrid: a fresh gridSize*gridSize grid of ice, filled row by row. */
    method InitializeGrid()
      modifies this
      ensures fresh(grid) && grid[..] == seq(gridSize * gridSize, _ => IceTile)
      ensures gridSize == old(gridSize) && playerX == old(playerX) && playerY == old(playerY)
      ensures playerVX == old(playerVX) && playerVY == old(playerVY)
      ensures currentLevel == old(currentLevel)
    {
      var n := gridSize;
      grid := new Tile[n * n];
      var y := 0;
      while y < n
        invariant 0 <= y <= n && RowStart(n, y) <= n * n && grid.Length == n * n
        invariant forall i :: 0 <= i < RowStart(n, y) ==> grid[i] == IceTile
        modifies grid
      {
        RowStartIsProduct(n, y + 1);
        MulMono(y + 1, n, n);
        var x := 0;
        while x < n
          invariant 0 <= x <= n && RowStart(n, y) + x <= n * n
          invariant forall i :: 0 <= i < RowStart(n, y) + x ==> grid[i] == IceTile
          modifies grid
        {
          grid[Idx(n, x, y)] := TileOfType("ice");
          x := x + 1;
        }
        y := y + 1;
      }
      RowStartIsProduct(n, n);
    }

    /** InitializePlayer: the player at the top-left cell, at rest. */
    method InitializePlayer()
      modifies this`playerX, this`playerY, this`playerVX, this`playerVY
      ensures Player(playerX, playerY, playerVX, playerVY) == Origin
    {
      playerX := 0;
      playerY := 0;
      playerVX := 0;
      playerVY := 0;
    }

    /** loadLevel: ignore a level whose length is not a perfect square; otherwise size the grid
        to it, reset the player and write every non-empty entry of the level with setTile. */
    method LoadLevel(level: seq<string>)
      requires LevelOk(level)
      modifies this
      ensures State() == Session.LoadLevel(old(State()), level)
      ensures IsSquare(|level|) ==> fresh(grid)
      ensures !IsSquare(|level|) ==> grid == old(grid)
    {
      var size := IntSqrt(|level|);
      if size * size != |level| {
        return;
      }
      gridSize := size;
      InitializeGrid();
      InitializePlayer();
      var n := size;
      ghost var want := LoadedCells(level, n);
      assert LoadedUpTo(grid[..], want, n, 0, 0);
      var x := 0;
      while x < n
        invariant 0 <= x <= n && gridSize == n && grid.Length == n * n
        invariant LoadedUpTo(grid[..], want, n, x, 0)
        modifies grid
      {
        var y := 0;
        while y < n
          invariant 0 <= y <= n
          invariant LoadedUpTo(grid[..], want, n, x, y)
          modifies grid
        {
          var index := Idx(n, x, y);
          ghost var before := grid[..];
          if level[index] != "" {
            var _ := SetTile(x, y, level[index]);
          }
          assert grid[..] == before[index := want[index]];
          LoadedNext(before, want, n, x, y);
          y := y + 1;
        }
        LoadedNextColumn(grid[..], want, n, x);
        x := x + 1;
      }
      LoadedAll(grid[..], want, n);
    }

    /** nextLevel: advance and load the next level; at the last level nothing changes. */
    method NextLevel()
      requires 0 <= currentLevel < |levels| && LevelsLoadable(levels)
      modifies this
      ensures State() == Session.NextLevel(old(State()), levels)
    {
      currentLevel := currentLevel + 1;
      if currentLevel >= |levels| {
        currentLevel := currentLevel - 1;
        return;
      }
      LoadLevel(levels[currentLevel]);
    }

    /** reloadLevel: load the current level again. */
    method ReloadLevel()
      requires 0 <= currentLevel < |levels| && LevelsLoadable(levels)
      modifies this
      ensures State() == Session.ReloadLevel(old(State()), levels)
    {
      LoadLevel(levels[currentLevel]);
    }

    /** init: back to the first level. */
    method Init()
      requires TableOk(levels)
      modifies this
      ensures State() == Session.Init(old(State()), levels) && Valid()
    {
      currentLevel := 0;
      LoadLevel(levels[0]);
    }

    /** The switch of updateFloatingPlatform from a platform direction to its velocity. */
    static method StepOf(direction: Dir) returns (velocityX: int, velocityY: int)
      ensures velocityX == Velocity(direction).0 && velocityY == Velocity(direction).1
    {
      velocityX, velocityY := 0, 0;
      if direction == 0 {
        velocityX := 1;
      } else if direction == 1 {
        velocityY := -1;
      } else if direction == 2 {
        velocityX := -1;
      } else {
        velocityY := 1;
      }
    }

    /** updateFloatingPlatform: read the platform's direction and frame, advance the frame, and
        write back the names the platform's next state is built from. */
    method UpdateFloatingPlatform(x: int, y: int)
      requires GridOk(grid[..], gridSize) && InGrid(gridSize, x, y)
      requires grid[Idx(gridSize, x, y)].kind in PlatformKinds
      modifies grid
      ensures grid[..] == PlatformStep(old(grid[..]), gridSize, x, y)
    {
      ghost var s := grid[..];
      var tile := GetTile(x, y).value;
      var direction: Dir := tile.direction.value;
      var currentFrame := FrameOf(tile.kind);
      var velocityX, velocityY := StepOf(direction);
      currentFrame := (currentFrame + 1) % 4;
      assert PlatformAt(s, gridSize, x, y, direction, currentFrame);
      var targetTile := GetTile(x + velocityX, y + velocityY);
      BlockedByTarget(s, gridSize, x, y, direction, targetTile);
      if targetTile.None? || !IsWaterName(targetTile.value.kind) {
        TurnRound(x, y, direction, currentFrame);
        return;
      }
      MoveAhead(x, y, direction, currentFrame, velocityX, velocityY);
    }

    /** The blocked branch of updateFloatingPlatform: reverse the direction and write the
        platform of the new frame, heading back, on its own cell. */
    method TurnRound(x: int, y: int, d: Dir, currentFrame: nat)
      requires PlatformAt(grid[..], gridSize, x, y, d, currentFrame)
      requires Blocked(grid[..], gridSize, x, y, d)
      modifies grid
      ensures grid[..] == PlatformStep(old(grid[..]), gridSize, x, y)
    {
      var direction := (d + 2) % 4;
      var tileName := PlatformTypeName(direction, currentFrame);
      PlatformStepTurns(grid[..], gridSize, x, y, d, currentFrame, tileName);
      var _ := SetTile(x, y, tileName);
    }

    /** The open-water branch of updateFloatingPlatform: write the platform of the new frame on
        the cell ahead, then water of the new frame on the cell it leaves. */
    method MoveAhead(x: int, y: int, direction: Dir, currentFrame: nat, velocityX: int, velocityY: int)
      requires PlatformAt(grid[..], gridSize, x, y, direction, currentFrame)
      requires !Blocked(grid[..], gridSize, x, y, direction)
      requires velocityX == Velocity(direction).0 && velocityY == Velocity(direction).1
      modifies grid
      ensures grid[..] == PlatformStep(old(grid[..]), gridSize, x, y)
    {
      ghost var s := grid[..];
      var tileName := PlatformTypeName(direction, currentFrame);
      var waterName := WaterTypeName(currentFrame);
      PlatformStepMoves(s, gridSize, x, y, direction, currentFrame, velocityX, velocityY,
                        tileName, waterName);
      var _ := SetTile(x + velocityX, y + velocityY, tileName);
      var _ := SetTile(x, y, waterName);
    }

    /** The platform name updateFloatingPlatform builds: "floating_platform_" and the direction
        code, then "_" and the frame unless the frame is 0. It decodes to the platform kind of
        that frame heading that way. */
    static method PlatformTypeName(direction: Dir, currentFrame: nat) returns (tileName: string)
      requires currentFrame < 4
      ensures WellFormedName(tileName) && IsPlatformName(tileName)
      ensures TileOfType(tileName) == Tile(PlatformKinds[currentFrame], true, Some(direction))
    {
      var directions := DirCodes;
      if currentFrame == 0 {
        tileName := "floating_platform_" + directions[direction];
      } else {
        tileName := "floating_platform_" + directions[direction] + "_" + Digit(currentFrame);
      }
      assert tileName == PlatformName(direction, currentFrame);
      PlatformNameRoundTrip(direction, currentFrame);
    }

    /** The water name updateFloatingPlatform leaves behind: "water", with "_" and the frame
        unless the frame is 0. It decodes to the water kind of that frame. */
    static method WaterTypeName(currentFrame: nat) returns (waterName: string)
      requires currentFrame < 4
      ensures WellFormedName(waterName) && IsWaterName(waterName)
      ensures TileOfType(waterName) == Tile(WaterKinds[currentFrame], true, None)
    {
      if currentFrame == 0 {
        waterName := "water";
      } else {
        waterName := "water_" + Digit(currentFrame);
      }
      assert waterName == WaterName(currentFrame);
      WaterNames(currentFrame);
    }

    /** updateGrid: clear every changed flag, then visit the cells column by column, skipping
        tiles already written in this pass, animating water and stepping platforms. */
    method UpdateGrid()
      requires GridOk(grid[..], gridSize)
      modifies grid
      ensures grid[..] == Tick(old(grid[..]), gridSize)
    {
      var n := gridSize;
      ghost var s := grid[..];
      var x := 0;
      while x < n
        invariant 0 <= x <= n && ClearedUpTo(grid[..], s, n, x, 0)
      {
        var y := 0;
        while y < n
          invariant 0 <= y <= n && ClearedUpTo(grid[..], s, n, x, y)
        {
          var index := Idx(n, x, y);
          ghost var before := grid[..];
          grid[index] := grid[index].(changed := false);
          ClearedNext(before, s, n, x, y);
          y := y + 1;
        }
        x := x + 1;
      }
      ClearedAll(grid[..], s, n);
      ghost var s0 := grid[..];
      x := 0;
      while x < n
        invariant 0 <= x <= n && grid[..] == Columns(s0, n, x)
      {
        var y := 0;
        while y < n
          invariant 0 <= y <= n && grid[..] == ColumnUpTo(Columns(s0, n, x), n, x, y)
        {
          VisitCell(x, y);
          y := y + 1;
        }
        x := x + 1;
      }
    }

    /** The body of updateGrid's inner loop: skip a tile written earlier in this pass, advance
        water by one frame, step a floating platform, leave anything else alone. */
    method VisitCell(x: int, y: int)
      requires GridOk(grid[..], gridSize) && InGrid(gridSize, x, y)
      modifies grid
      ensures grid[..] == Visit(old(grid[..]), gridSize, x, y)
    {
      var tile := GetTile(x, y).value;
      if tile.changed {
      } else if tile.kind == "water" {
        var _ := SetTile(x, y, "water_1");
      } else if tile.kind == "water_1" {
        var _ := SetTile(x, y, "water_2");
      } else if tile.kind == "water_2" {
        var _ := SetTile(x, y, "water_3");
      } else if tile.kind == "water_3" {
        var _ := SetTile(x, y, "water");
      } else if tile.kind in PlatformKinds {
        UpdateFloatingPlatform(x, y);
      }
    }

    /** One axis of updatePlayer's move: add the velocity, and at either edge of the grid stop on
        the edge cell with the velocity zeroed. */
    static method MoveAxis(position: int, velocity: int, size: int)
      returns (newPosition: int, newVelocity: int)
      requires size > 0
      ensures (newPosition, newVelocity) == ClampAxis(position, velocity, size)
    {
      newPosition, newVelocity := position + velocity, velocity;
      if newPosition < 0 {
        newPosition := 0;
        newVelocity := 0;
      } else if newPosition >= size {
        newPosition := size - 1;
        newVelocity := 0;
      }
    }

    /** updatePlayer: move one cell along the velocity, stopping at the edges with that component
        zeroed; undo the move and stop on a tile that blocks; otherwise go to the next level on
        the home tile and restart the level on water. */
    method UpdatePlayer()
      requires gridSize > 0 && grid.Length == gridSize * gridSize
      requires 0 <= currentLevel < |levels| && LevelsLoadable(levels)
      modifies this
      ensures State() == Session.UpdatePlayer(old(State()), levels)
    {
      ghost var p := Player(playerX, playerY, playerVX, playerVY);
      playerX, playerVX := MoveAxis(playerX, playerVX, gridSize);
      playerY, playerVY := MoveAxis(playerY, playerVY, gridSize);
      assert Player(playerX, playerY, playerVX, playerVY) == Advance(p, gridSize);
      var kind := GetTile(playerX, playerY).value.kind;
      if Collidable(kind, playerVX, playerVY) {
        playerX := playerX - playerVX;
        playerY := playerY - playerVY;
        playerVX := 0;
        playerVY := 0;
        assert Step(p, gridSize, grid[..]) == (Player(playerX, playerY, 0, 0), Collided);
      } else if kind == "home" {
        assert Step(p, gridSize, grid[..]) == (Player(playerX, playerY, playerVX, playerVY), ReachedHome);
        NextLevel();
      } else if IsWaterName(kind) {
        assert Step(p, gridSize, grid[..]) == (Player(playerX, playerY, playerVX, playerVY), Drowned);
        ReloadLevel();
      } else {
        assert Step(p, gridSize, grid[..]) == (Player(playerX, playerY, playerVX, playerVY), Moved);
      }
    }

    /** updateGame: one tick of the game loop, the grid first and then the player; the game
        stays in a valid state. */
    method UpdateGame()
      requires Valid()
      modifies this, grid
      ensures State() == Session.UpdateGame(old(State()), levels) && Valid()
    {
      UpdateGrid();
      UpdatePlayer();
      UpdateGameKeepsWorldOk(old(State()), levels);
    }

    /** The keydown handler: ignored while the player moves; an arrow key sets the velocity. */
    method KeyDown(keyCode: int)
      modifies this
      ensures State() == Key(old(State()), keyCode)
    {
      if playerVX != 0 || playerVY != 0 {
        return;
      }
      if keyCode == 37 {
        playerVX := -1;
        playerVY := 0;
      }
      if keyCode == 38 {
        playerVX := 0;
        playerVY := -1;
      }
      if keyCode == 39 {
        playerVX := 1;
        playerVY := 0;
      }
      if keyCode == 40 {
        playerVX := 0;
        playerVY := 1;
      }
    }

    /** The mousedown handlers of the four arrow buttons (rt, up, lt, dn for directions 0 to 3):
        ignored while the player moves, otherwise the velocity of the button's direction. */
    method ButtonDown(d: Dir)
      modifies this
      ensures State() == Button(old(State()), d)
    {
      if playerVX != 0 || playerVY != 0 {
        return;
      }
      playerVX, playerVY := StepOf(d);
    }
  }
}
