/** The player's per-tick movement (updatePlayer, Applab.js:473-532) and the steering of the
    input handlers (Applab.js:553-619), on values. Game.Game applies them to its fields. */
module Movement {
  import opened Tiles
  import opened Grid
  import opened Simulation
  import opened Collision

  /** The player's cell and velocity (playerX, playerY, playerVX, playerVY). */
  datatype Player = Player(x: int, y: int, vx: int, vy: int)

  /** What a movement step ends in: a collision undone, the home tile reached (the game moves to
      the next level), a water tile entered (the level is reloaded), or an ordinary move. */
  datatype Event = Collided | ReachedHome | Drowned | Moved

  predicate Idle(p: Player)
  {
    p.vx == 0 && p.vy == 0
  }

  /** Each velocity component is -1, 0 or 1 and at most one of them is non-zero. */
  predicate UnitVelocity(p: Player)
  {
    -1 <= p.vx <= 1 && -1 <= p.vy <= 1 && (p.vx == 0 || p.vy == 0)
  }

  /** One axis of the move: add the velocity, and at either edge stop on the edge cell with that
      velocity component zeroed. */
  function ClampAxis(pos: int, v: int, n: int): (r: (int, int))
    requires n > 0
    ensures 0 <= r.0 < n && (r.1 == v || r.1 == 0)
  {
    if pos + v < 0 then (0, 0)
    else if pos + v >= n then (n - 1, 0)
    else (pos + v, v)
  }

  /** The player after the clamped move, before the collision test. */
  function Advance(p: Player, n: nat): (q: Player)
    requires n > 0
    ensures InGrid(n, q.x, q.y)
  {
    var (x, vx) := ClampAxis(p.x, p.vx, n);
    var (y, vy) := ClampAxis(p.y, p.vy, n);
    Player(x, y, vx, vy)
  }

  /** updatePlayer on the grid contents s: move and clamp; if the tile reached blocks the
      (possibly zeroed) velocity, undo the move and stop; otherwise report home or water. */
  function Step(p: Player, n: nat, s: seq<Tile>): (r: (Player, Event))
    requires n > 0 && |s| == n * n
    ensures r.0.vx == p.vx || r.0.vx == 0
    ensures r.0.vy == p.vy || r.0.vy == 0
    ensures r.1 == Collided ==> Idle(r.0)
  {
    var q := Advance(p, n);
    var kind := s[Idx(n, q.x, q.y)].kind;
    if Collidable(kind, q.vx, q.vy) then (Player(q.x - q.vx, q.y - q.vy, 0, 0), Collided)
    else if kind == "home" then (q, ReachedHome)
    else if IsWaterName(kind) then (q, Drowned)
    else (q, Moved)
  }

  /** Starting on the grid with components in {-1, 0, 1}, the player ends on the grid; a blocked
      move puts the player back on its starting cell, at rest; any other move ends on the cell
      the clamped move reached, and the velocity keeps at most one non-zero component. */
  lemma StepStaysOnGrid(p: Player, n: nat, s: seq<Tile>)
    requires n > 0 && |s| == n * n && InGrid(n, p.x, p.y)
    requires -1 <= p.vx <= 1 && -1 <= p.vy <= 1
    ensures InGrid(n, Step(p, n, s).0.x, Step(p, n, s).0.y)
    ensures Step(p, n, s).1 == Collided ==> Step(p, n, s).0 == Player(p.x, p.y, 0, 0)
    ensures Step(p, n, s).1 != Collided ==> Step(p, n, s).0 == Advance(p, n)
    ensures UnitVelocity(p) ==> UnitVelocity(Step(p, n, s).0)
  {
  }

  /** The tile the clamped move reaches decides the event. A tile that blocks the clamped
      velocity gives a collision, and the move is subtracted back with both components zeroed.
      Otherwise the home tile gives ReachedHome, any water kind gives Drowned, whether or not
      the player is moving, and every other tile gives an ordinary move. */
  lemma StepEvents(p: Player, n: nat, s: seq<Tile>)
    requires n > 0 && |s| == n * n
    ensures var q := Advance(p, n);
      var k := s[Idx(n, q.x, q.y)].kind;
      (Step(p, n, s).1 == Collided <==> Collidable(k, q.vx, q.vy)) &&
      (Step(p, n, s).1 == ReachedHome <==> !Collidable(k, q.vx, q.vy) && k == "home") &&
      (Step(p, n, s).1 == Drowned <==> !Collidable(k, q.vx, q.vy) && k != "home" && IsWaterName(k)) &&
      (Step(p, n, s).1 == Collided ==> Step(p, n, s).0 == Player(q.x - q.vx, q.y - q.vy, 0, 0))
  {
  }

  /** A player on the grid moving one cell in direction d onto an on-grid tile: a wall, or a
      ramp whose own direction is not d, sends the player back to the starting cell at rest;
      otherwise the player stands on that tile still moving, and the event is ReachedHome on
      home, Drowned on water and an ordinary move elsewhere. */
  lemma EnterTile(p: Player, n: nat, s: seq<Tile>, d: Dir)
    requires n > 0 && |s| == n * n && InGrid(n, p.x, p.y)
    requires (p.vx, p.vy) == Velocity(d) && InGrid(n, p.x + p.vx, p.y + p.vy)
    ensures var k := s[Idx(n, p.x + p.vx, p.y + p.vy)].kind;
      var ahead := Player(p.x + p.vx, p.y + p.vy, p.vx, p.vy);
      if k == "ice_wall" || (RampDir(k).Some? && RampDir(k).value != d) then
        Step(p, n, s) == (Player(p.x, p.y, 0, 0), Collided)
      else if k == "home" then Step(p, n, s) == (ahead, ReachedHome)
      else if IsWaterName(k) then Step(p, n, s) == (ahead, Drowned)
      else Step(p, n, s) == (ahead, Moved)
  {
    var k := s[Idx(n, p.x + p.vx, p.y + p.vy)].kind;
    CollisionRule(k, p.vx, p.vy);
  }

  /** Running off an edge leaves the player on the edge cell with that component zeroed, whether
      or not the tile there blocks. */
  lemma EdgeClamps(p: Player, n: nat, s: seq<Tile>)
    requires n > 0 && |s| == n * n
    ensures p.x + p.vx < 0 ==> Step(p, n, s).0.x == 0 && Step(p, n, s).0.vx == 0
    ensures p.x + p.vx >= n ==> Step(p, n, s).0.x == n - 1 && Step(p, n, s).0.vx == 0
    ensures p.y + p.vy < 0 ==> Step(p, n, s).0.y == 0 && Step(p, n, s).0.vy == 0
    ensures p.y + p.vy >= n ==> Step(p, n, s).0.y == n - 1 && Step(p, n, s).0.vy == 0
  {
  }

  /** A player at rest on a cell that holds water drowns: the step runs every tick, so a cell
      that has just turned to water under the player triggers a reload. */
  lemma IdleOnWaterDrowns(p: Player, n: nat, s: seq<Tile>)
    requires n > 0 && |s| == n * n && InGrid(n, p.x, p.y) && Idle(p)
    requires IsWaterName(s[Idx(n, p.x, p.y)].kind)
    ensures Step(p, n, s) == (p, Drowned)
  {
    WaterNeverBlocks(s[Idx(n, p.x, p.y)].kind, 0, 0);
  }

  /** A player moving onto a passable tile keeps its velocity and goes on moving. */
  lemma PassableKeepsMoving(p: Player, n: nat, s: seq<Tile>)
    requires n > 0 && |s| == n * n && InGrid(n, p.x + p.vx, p.y + p.vy)
    requires !Collidable(s[Idx(n, p.x + p.vx, p.y + p.vy)].kind, p.vx, p.vy)
    ensures Step(p, n, s).0 == Player(p.x + p.vx, p.y + p.vy, p.vx, p.vy)
  {
  }

  /** The body of the arrow buttons' handlers: a player at rest starts moving one cell per tick
      in direction d; a moving player ignores the input. */
  function Steer(p: Player, d: Dir): (r: Player)
    ensures r.x == p.x && r.y == p.y
    ensures !Idle(p) ==> r == p
    ensures Idle(p) ==> !Idle(r) && UnitVelocity(r)
    ensures UnitVelocity(p) ==> UnitVelocity(r)
  {
    if !Idle(p) then p else p.(vx := Velocity(d).0, vy := Velocity(d).1)
  }

  /** The arrow key codes: 37 left, 38 up, 39 right, 40 down. */
  function KeyDirection(code: int): (d: Option<Dir>)
    ensures d.Some? <==> 37 <= code <= 40
  {
    if code == 37 then Some(2)
    else if code == 38 then Some(1)
    else if code == 39 then Some(0)
    else if code == 40 then Some(3)
    else None
  }

  /** The keydown handler: an arrow key steers a player at rest, every other key is ignored. */
  function KeyDown(p: Player, code: int): (r: Player)
    ensures r.x == p.x && r.y == p.y
    ensures !Idle(p) || KeyDirection(code).None? ==> r == p
    ensures UnitVelocity(p) ==> UnitVelocity(r)
  {
    match KeyDirection(code)
    case None => p
    case Some(d) => Steer(p, d)
  }

  /** Each arrow key sets the velocity of the on-screen button for the same direction:
      left (-1, 0), up (0, -1), right (1, 0), down (0, 1). */
  lemma ArrowKeys(p: Player)
    requires Idle(p)
    ensures KeyDown(p, 37) == p.(vx := -1, vy := 0) && KeyDown(p, 38) == p.(vx := 0, vy := -1)
    ensures KeyDown(p, 39) == p.(vx := 1, vy := 0) && KeyDown(p, 40) == p.(vx := 0, vy := 1)
  {
  }
}
