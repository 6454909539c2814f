/** Walls and one-way ramps (isCollidable, Applab.js:166-186). The source reads the player's
    velocity from globals; here it is passed in. */
module Collision {
  import opened Tiles
  import opened Simulation

  /** The ramp kinds, indexed by the direction each one lets the player through. */
  const RampKinds: seq<string> := ["ice_ramp_rt", "ice_ramp_up", "ice_ramp_lt", "ice_ramp_dn"]

  /** Whether a tile of the given kind stops a player moving with velocity (vx, vy): a wall
      always does; a ramp does unless the player moves along the ramp's own direction. */
  function Collidable(kind: string, vx: int, vy: int): (b: bool)
    ensures kind == "ice_wall" ==> b
    ensures b ==> kind == "ice_wall" || kind in RampKinds
    ensures kind in RampKinds && (vx == 0 || vy == 0) ==>
      (b <==> (vx, vy) != Velocity(RampDir(kind).value))
  {
    if kind == "ice_wall" then true
    else if kind == "ice_ramp_rt" then vx != 1
    else if kind == "ice_ramp_lt" then vx != -1
    else if kind == "ice_ramp_up" then vy != -1
    else if kind == "ice_ramp_dn" then vy != 1
    else false
  }

  /** The direction a ramp kind lets the player through, if it is a ramp. */
  function RampDir(kind: string): (d: Option<Dir>)
    ensures d.Some? <==> kind in RampKinds
    ensures d.Some? ==> RampKinds[d.value] == kind
  {
    if kind == RampKinds[0] then Some(0)
    else if kind == RampKinds[1] then Some(1)
    else if kind == RampKinds[2] then Some(2)
    else if kind == RampKinds[3] then Some(3)
    else None
  }

  /** For a player whose velocity has at most one non-zero component, a tile blocks exactly when
      it is a wall, or a ramp that the player does not move along. */
  lemma CollisionRule(kind: string, vx: int, vy: int)
    requires vx == 0 || vy == 0
    ensures Collidable(kind, vx, vy) <==>
      kind == "ice_wall" || (RampDir(kind).Some? && (vx, vy) != Velocity(RampDir(kind).value))
  {
  }

  /** A ramp lets a player through exactly when the player moves in the ramp's own direction,
      one cell per tick; a wall blocks every movement. */
  lemma RampPassesOnlyItsDirection(ramp: Dir, d: Dir)
    ensures !Collidable(RampKinds[ramp], Velocity(d).0, Velocity(d).1) <==> ramp == d
    ensures Collidable("ice_wall", Velocity(d).0, Velocity(d).1)
  {
  }

  /** A player standing still is blocked exactly by walls and ramps. */
  lemma IdleBlockedByWallsAndRamps(kind: string)
    ensures Collidable(kind, 0, 0) <==> kind == "ice_wall" || kind in RampKinds
  {
  }

  /** Water and the home tile never block, whatever the velocity: every kind other than the
      wall and the four ramps is passable. */
  lemma OtherKindsNeverBlock(kind: string, vx: int, vy: int)
    requires kind != "ice_wall" && kind !in RampKinds
    ensures !Collidable(kind, vx, vy)
  {
  }

  /** No water kind blocks: the player can walk into water, and drowns there. */
  lemma WaterNeverBlocks(kind: string, vx: int, vy: int)
    requires IsWaterName(kind)
    ensures !Collidable(kind, vx, vy)
  {
    assert kind[0] == 'w';
    OtherKindsNeverBlock(kind, vx, vy);
  }
}
