/** One pass of the grid update as a function of the grid contents: water animation and
    floating platforms (updateGrid, Applab.js:190-238; updateFloatingPlatform, Applab.js:244-307).
    The methods of Game.Game are proved to compute exactly these functions. */
module Simulation {
  import opened Tiles
  import opened Grid

  /** The unit step of a platform heading in direction d (Applab.js:259-266). */
  function Velocity(d: Dir): (v: (int, int))
    ensures (v.0 == 0) != (v.1 == 0) && -1 <= v.0 <= 1 && -1 <= v.1 <= 1
  {
    if d == 0 then (1, 0) else if d == 1 then (0, -1) else if d == 2 then (-1, 0) else (0, 1)
  }

  /** The first loop of updateGrid: every changed flag cleared, nothing else touched. */
  function Cleared(s: seq<Tile>): (r: seq<Tile>)
    ensures |r| == |s|
    ensures forall i :: 0 <= i < |s| ==> r[i] == s[i].(changed := false)
  {
    seq(|s|, i requires 0 <= i < |s| => s[i].(changed := false))
  }

  /** Whether the platform at (x, y) is blocked: the cell ahead is off the grid or its type does
      not start with "water". A platform that is not blocked therefore never moves onto the
      grid's edge or onto another platform. */
  predicate Blocked(s: seq<Tile>, n: nat, x: int, y: int, d: Dir)
    requires |s| == n * n
    ensures !Blocked(s, n, x, y, d) ==>
      InGrid(n, x + Velocity(d).0, y + Velocity(d).1) &&
      !IsPlatformName(s[Idx(n, x + Velocity(d).0, y + Velocity(d).1)].kind)
  {
    var v := Velocity(d);
    if !InGrid(n, x + v.0, y + v.1) then true
    else
      var kind := s[Idx(n, x + v.0, y + v.1)].kind;
      assert IsWaterName(kind) ==> kind[0] == 'w' && !IsPlatformName(kind);
      !IsWaterName(kind)
  }

  /** The cell writes of updateFloatingPlatform for a platform at (x, y) heading in direction d,
      whose new frame is f: a blocked platform turns round in place, otherwise it moves onto
      the water ahead and leaves water of frame f behind. */
  function TurnOrMove(s: seq<Tile>, n: nat, x: int, y: int, d: Dir, f: nat): (r: seq<Tile>)
    requires GridOk(s, n) && InGrid(n, x, y) && f < 4
    ensures GridOk(r, n)
  {
    var v := Velocity(d);
    AnimatedKinds(f);
    if Blocked(s, n, x, y, d) then
      s[Idx(n, x, y) := Tile(PlatformKinds[f], true, Some((d + 2) % 4))]
    else
      s[Idx(n, x + v.0, y + v.1) := Tile(PlatformKinds[f], true, Some(d))]
       [Idx(n, x, y) := Tile(WaterKinds[f], true, None)]
  }

  /** updateFloatingPlatform for the platform at (x, y): the frame read from its kind advances
      by one modulo 4 and the platform turns or moves. The tiles written are the ones setTile
      decodes from the names updateFloatingPlatform builds (PlatformStepTurns, PlatformStepMoves). */
  function PlatformStep(s: seq<Tile>, n: nat, x: int, y: int): (r: seq<Tile>)
    requires GridOk(s, n) && InGrid(n, x, y) && s[Idx(n, x, y)].kind in PlatformKinds
    ensures GridOk(r, n)
  {
    var t := s[Idx(n, x, y)];
    TurnOrMove(s, n, x, y, t.direction.value, (FrameOf(t.kind) + 1) % 4)
  }

  /** The body of updateGrid's second loop for cell (x, y): tiles already written in this pass
      are skipped, water advances one frame, platforms take a step, all else stays. */
  function Visit(s: seq<Tile>, n: nat, x: int, y: int): (r: seq<Tile>)
    requires GridOk(s, n) && InGrid(n, x, y)
    ensures GridOk(r, n)
  {
    var t := s[Idx(n, x, y)];
    if t.changed then s
    else if t.kind == "water" then Put(s, n, x, y, "water_1")
    else if t.kind == "water_1" then Put(s, n, x, y, "water_2")
    else if t.kind == "water_2" then Put(s, n, x, y, "water_3")
    else if t.kind == "water_3" then Put(s, n, x, y, "water")
    else if t.kind in PlatformKinds then PlatformStep(s, n, x, y)
    else s
  }

  /** The inner loop: column x visited from y = 0 up to (not including) `y`. */
  function ColumnUpTo(s: seq<Tile>, n: nat, x: int, y: int): (r: seq<Tile>)
    requires GridOk(s, n) && 0 <= x < n && 0 <= y <= n
    ensures GridOk(r, n)
    decreases y
  {
    if y == 0 then s else Visit(ColumnUpTo(s, n, x, y - 1), n, x, y - 1)
  }

  /** The outer loop: columns 0 up to (not including) `x`, each scanned top to bottom. */
  function Columns(s: seq<Tile>, n: nat, x: int): (r: seq<Tile>)
    requires GridOk(s, n) && 0 <= x <= n
    ensures GridOk(r, n)
    decreases x
  {
    if x == 0 then s else ColumnUpTo(Columns(s, n, x - 1), n, x - 1, n)
  }

  /** One whole grid update: clear every flag, then scan column by column. */
  function Tick(s: seq<Tile>, n: nat): (r: seq<Tile>)
    requires GridOk(s, n)
    ensures GridOk(r, n)
  {
    Columns(Cleared(s), n, n)
  }

  // ---------------------------------------------------------------------------------------
  // The platform step

  /** The test updateFloatingPlatform makes on what getTile returns for the cell ahead (None
      off the grid): the platform is blocked exactly when that cell is off the grid or does not
      hold water. */
  lemma BlockedByTarget(s: seq<Tile>, n: nat, x: int, y: int, d: Dir, target: Option<Tile>)
    requires |s| == n * n
    requires target.None? <==> !InGrid(n, x + Velocity(d).0, y + Velocity(d).1)
    requires target.Some? ==> target.value == s[Idx(n, x + Velocity(d).0, y + Velocity(d).1)]
    ensures Blocked(s, n, x, y, d) <==> target.None? || !IsWaterName(target.value.kind)
  {
  }

  /** The platform at (x, y) heads in direction d and its next animation frame is f. */
  predicate PlatformAt(s: seq<Tile>, n: nat, x: int, y: int, d: Dir, f: nat)
  {
    GridOk(s, n) && InGrid(n, x, y) && s[Idx(n, x, y)].kind in PlatformKinds &&
    d == s[Idx(n, x, y)].direction.value && f == (FrameOf(s[Idx(n, x, y)].kind) + 1) % 4
  }

  /** A blocked platform's step is one setTile call on its own cell, with any name that decodes
      to the platform kind of the new frame heading the opposite way. */
  lemma PlatformStepTurns(s: seq<Tile>, n: nat, x: int, y: int, d: Dir, f: nat, name: string)
    requires PlatformAt(s, n, x, y, d, f) && Blocked(s, n, x, y, d)
    requires WellFormedName(name) && TileOfType(name) == Tile(PlatformKinds[f], true, Some((d + 2) % 4))
    ensures PlatformStep(s, n, x, y) == Put(s, n, x, y, name)
  {
    assert PlatformStep(s, n, x, y) == TurnOrMove(s, n, x, y, d, f);
  }

  /** A platform that is not blocked steps by two setTile calls: a name that decodes to the
      platform kind of the new frame on the cell ahead, then a name that decodes to water of the
      new frame on its own cell. */
  lemma PlatformStepMoves(s: seq<Tile>, n: nat, x: int, y: int, d: Dir, f: nat, vx: int, vy: int,
                          name: string, water: string)
    requires PlatformAt(s, n, x, y, d, f) && !Blocked(s, n, x, y, d)
    requires vx == Velocity(d).0 && vy == Velocity(d).1
    requires WellFormedName(name) && TileOfType(name) == Tile(PlatformKinds[f], true, Some(d))
    requires WellFormedName(water) && TileOfType(water) == Tile(WaterKinds[f], true, None)
    ensures PlatformStep(s, n, x, y) == Put(Put(s, n, x + vx, y + vy, name), n, x, y, water)
  {
    assert PlatformStep(s, n, x, y) == TurnOrMove(s, n, x, y, d, f);
    assert TurnOrMove(s, n, x, y, d, f) ==
      s[Idx(n, x + vx, y + vy) := Tile(PlatformKinds[f], true, Some(d))]
       [Idx(n, x, y) := Tile(WaterKinds[f], true, None)];
    var moved := s[Idx(n, x + vx, y + vy) := TileOfType(name)];
    assert Put(s, n, x + vx, y + vy, name) == moved;
    assert Put(moved, n, x, y, water) == moved[Idx(n, x, y) := TileOfType(water)];
  }

  /** A blocked platform turns round in place: its cell holds the platform kind of the next
      frame, heading the opposite way, and every other cell is unchanged. */
  lemma PlatformReverses(s: seq<Tile>, n: nat, x: int, y: int, x': int, y': int)
    requires GridOk(s, n) && InGrid(n, x, y) && s[Idx(n, x, y)].kind in PlatformKinds
    requires Blocked(s, n, x, y, s[Idx(n, x, y)].direction.value) && InGrid(n, x', y')
    ensures var t, r := s[Idx(n, x, y)], PlatformStep(s, n, x, y);
      var d := t.direction.value;
      if x' == x && y' == y then
        r[Idx(n, x, y)].kind == PlatformKinds[(FrameOf(t.kind) + 1) % 4] &&
        r[Idx(n, x, y)].direction == Some((d + 2) % 4) &&
        Velocity((d + 2) % 4) == (-Velocity(d).0, -Velocity(d).1)
      else
        r[Idx(n, x', y')] == s[Idx(n, x', y')]
  {
    if x' != x || y' != y {
      if Idx(n, x', y') == Idx(n, x, y) {
        IdxInjective(n, x', y', x, y);
      }
    }
  }

  /** A platform facing water moves one cell along its velocity keeping its direction, both cells
      take the next frame, its old cell becomes water, and every other cell is unchanged. */
  lemma PlatformMoves(s: seq<Tile>, n: nat, x: int, y: int, x': int, y': int)
    requires GridOk(s, n) && InGrid(n, x, y) && s[Idx(n, x, y)].kind in PlatformKinds
    requires !Blocked(s, n, x, y, s[Idx(n, x, y)].direction.value) && InGrid(n, x', y')
    ensures var t, r := s[Idx(n, x, y)], PlatformStep(s, n, x, y);
      var v, f := Velocity(t.direction.value), (FrameOf(t.kind) + 1) % 4;
      if x' == x && y' == y then
        r[Idx(n, x, y)] == Tile(WaterKinds[f], true, None)
      else if x' == x + v.0 && y' == y + v.1 then
        r[Idx(n, x', y')] == Tile(PlatformKinds[f], true, t.direction)
      else
        r[Idx(n, x', y')] == s[Idx(n, x', y')]
  {
    var v := Velocity(s[Idx(n, x, y)].direction.value);
    if x' != x || y' != y {
      if Idx(n, x', y') == Idx(n, x, y) {
        IdxInjective(n, x', y', x, y);
      }
      if (x' != x + v.0 || y' != y + v.1) && Idx(n, x', y') == Idx(n, x + v.0, y + v.1) {
        IdxInjective(n, x', y', x + v.0, y + v.1);
      }
    }
  }

  // ---------------------------------------------------------------------------------------
  // Water

  /** An unprocessed water cell advances one frame of the four-frame cycle and nothing else
      changes: water, water_1, water_2, water_3, water. */
  lemma VisitAnimatesWater(s: seq<Tile>, n: nat, x: int, y: int, f: nat)
    requires GridOk(s, n) && InGrid(n, x, y) && f < 4
    requires !s[Idx(n, x, y)].changed && s[Idx(n, x, y)].kind == WaterKinds[f]
    ensures Visit(s, n, x, y) == s[Idx(n, x, y) := Tile(WaterKinds[(f + 1) % 4], true, None)]
  {
    var next := WaterKinds[(f + 1) % 4];
    WaterNames((f + 1) % 4);
    OtherNamesKept(next);
    assert Put(s, n, x, y, next) == s[Idx(n, x, y) := Tile(next, true, None)];
    if f == 0 {
      assert Visit(s, n, x, y) == Put(s, n, x, y, "water_1");
    } else if f == 1 {
      assert Visit(s, n, x, y) == Put(s, n, x, y, "water_2");
    } else if f == 2 {
      assert Visit(s, n, x, y) == Put(s, n, x, y, "water_3");
    } else {
      assert Visit(s, n, x, y) == Put(s, n, x, y, "water");
    }
  }

  // ---------------------------------------------------------------------------------------
  // What one pass preserves, cell by cell

  /** Cells that no grid update ever touches: neither water nor a floating platform. */
  predicate Inert(kind: string)
  {
    !IsWaterName(kind) && !IsPlatformName(kind)
  }

  /** Cell i of s relates to the grid s0 the scan started from: if its flag is still clear, or
      if it was inert in s0, it is exactly what it was in s0. */
  predicate CellKept(s0: seq<Tile>, s: seq<Tile>, i: int)
    requires 0 <= i < |s0| == |s|
  {
    (!s[i].changed ==> s[i] == s0[i]) && (Inert(s0[i].kind) ==> s[i] == s0[i])
  }

  /** A platform with direction d at (x, y) stood at (x, y) in s0 heading d or the opposite way
      (it turned round), or came from the cell one step behind it, where it already had
      direction d. */
  predicate CameFrom(s0: seq<Tile>, n: nat, x: int, y: int, d: Dir)
    requires |s0| == n * n && InGrid(n, x, y)
  {
    var v := Velocity(d);
    s0[Idx(n, x, y)].direction == Some(d) || s0[Idx(n, x, y)].direction == Some((d + 2) % 4) ||
    (InGrid(n, x - v.0, y - v.1) && s0[Idx(n, x - v.0, y - v.1)].direction == Some(d))
  }

  /** If (x, y) holds a platform in s, it came from where CameFrom says in s0. */
  predicate Accounted(s0: seq<Tile>, s: seq<Tile>, n: nat, x: int, y: int)
    requires |s0| == n * n && GridOk(s, n) && InGrid(n, x, y)
  {
    IsPlatformName(s[Idx(n, x, y)].kind) ==> CameFrom(s0, n, x, y, s[Idx(n, x, y)].direction.value)
  }

  /** Every cell of s is kept with respect to s0. */
  ghost predicate AllKept(s0: seq<Tile>, s: seq<Tile>)
    requires |s0| == |s|
  {
    forall i {:trigger CellKept(s0, s, i)} :: 0 <= i < |s| ==> CellKept(s0, s, i)
  }

  /** Animating an unprocessed water cell keeps every cell kept: the new tile is flagged and the
      cell was water, not inert. */
  lemma AnimateWaterKeepsCell(s0: seq<Tile>, s: seq<Tile>, p: int, f: nat, i: int)
    requires 0 <= p < |s| == |s0| && 0 <= i < |s| && f < 4
    requires s[p].kind == WaterKinds[f] && !s[p].changed && CellKept(s0, s, i)
    ensures CellKept(s0, s[p := Tile(WaterKinds[(f + 1) % 4], true, None)], i)
  {
    AnimatedKinds(f);
  }

  /** Animating a water cell keeps every platform accounted for: the new tile is not a platform. */
  lemma AnimateWaterKeepsAccounted(s0: seq<Tile>, s: seq<Tile>, n: nat, x: int, y: int, f: nat, cx: int, cy: int)
    requires GridOk(s, n) && |s0| == n * n && InGrid(n, x, y) && f < 4
    requires InGrid(n, cx, cy) && Accounted(s0, s, n, cx, cy)
    ensures GridOk(s[Idx(n, x, y) := Tile(WaterKinds[(f + 1) % 4], true, None)], n)
    ensures Accounted(s0, s[Idx(n, x, y) := Tile(WaterKinds[(f + 1) % 4], true, None)], n, cx, cy)
  {
    AnimatedKinds((f + 1) % 4);
  }

  /** A platform turning round or moving keeps every cell kept, provided the platform's own
      cell is unprocessed: it writes only that platform's cell and a water cell, both flagged. */
  lemma TurnOrMoveKeepsCell(s0: seq<Tile>, s: seq<Tile>, n: nat, x: int, y: int, d: Dir, f: nat, i: int)
    requires GridOk(s, n) && InGrid(n, x, y) && f < 4 && 0 <= i < |s0| == |s|
    requires !s[Idx(n, x, y)].changed && IsPlatformName(s[Idx(n, x, y)].kind)
    requires CellKept(s0, s, i)
    ensures CellKept(s0, TurnOrMove(s, n, x, y, d, f), i)
  {
    var v := Velocity(d);
    if !Blocked(s, n, x, y, d) && i == Idx(n, x + v.0, y + v.1) {
      assert !Inert(s[i].kind) by { assert s[i].kind[..5] == "water"; }
    }
  }

  /** A platform turning round or moving keeps every platform accounted for, provided the
      platform's own cell is unprocessed and kept: a platform it writes is the one of s0
      turning round in place, or the one of s0 one step behind with the same direction. */
  lemma TurnOrMoveKeepsAccounted(s0: seq<Tile>, s: seq<Tile>, n: nat, x: int, y: int, d: Dir, f: nat, cx: int, cy: int)
    requires GridOk(s, n) && |s0| == n * n && InGrid(n, x, y) && f < 4 && InGrid(n, cx, cy)
    requires !s[Idx(n, x, y)].changed && IsPlatformName(s[Idx(n, x, y)].kind)
    requires s[Idx(n, x, y)].direction == Some(d)
    requires CellKept(s0, s, Idx(n, x, y)) && Accounted(s0, s, n, cx, cy)
    ensures Accounted(s0, TurnOrMove(s, n, x, y, d, f), n, cx, cy)
  {
    var v := Velocity(d);
    if Blocked(s, n, x, y, d) {
      TurnKeepsAccounted(s0, s, n, x, y, d, f, cx, cy);
    } else {
      MoveKeepsAccounted(s0, s, n, x, y, d, f, cx, cy, x + v.0, y + v.1);
    }
  }

  /** The platform at (x, y), unprocessed and kept, turning round in place keeps every platform
      accounted for: its new tile heads the opposite way from its tile in s0. */
  lemma TurnKeepsAccounted(s0: seq<Tile>, s: seq<Tile>, n: nat, x: int, y: int, d: Dir, f: nat, cx: int, cy: int)
    requires GridOk(s, n) && |s0| == n * n && InGrid(n, x, y) && f < 4 && InGrid(n, cx, cy)
    requires !s[Idx(n, x, y)].changed && s[Idx(n, x, y)].direction == Some(d)
    requires CellKept(s0, s, Idx(n, x, y)) && Accounted(s0, s, n, cx, cy)
    ensures GridOk(s[Idx(n, x, y) := Tile(PlatformKinds[f], true, Some((d + 2) % 4))], n)
    ensures Accounted(s0, s[Idx(n, x, y) := Tile(PlatformKinds[f], true, Some((d + 2) % 4))], n, cx, cy)
  {
    AnimatedKinds(f);
    var c := Idx(n, cx, cy);
    if c == Idx(n, x, y) {
      IdxInjective(n, cx, cy, x, y);
      assert s0[c].direction == Some(((d + 2) % 4 + 2) % 4);
    }
  }

  /** The platform at (x, y), unprocessed, moving onto (ax, ay) one step ahead keeps every
      platform accounted for: the only platform it writes came from the cell behind (ax, ay). */
  lemma MoveKeepsAccounted(s0: seq<Tile>, s: seq<Tile>, n: nat, x: int, y: int, d: Dir, f: nat, cx: int, cy: int, ax: int, ay: int)
    requires GridOk(s, n) && |s0| == n * n && InGrid(n, x, y) && f < 4 && InGrid(n, cx, cy)
    requires ax == x + Velocity(d).0 && ay == y + Velocity(d).1 && InGrid(n, ax, ay)
    requires !s[Idx(n, x, y)].changed && s[Idx(n, x, y)].direction == Some(d)
    requires CellKept(s0, s, Idx(n, x, y)) && Accounted(s0, s, n, cx, cy)
    ensures GridOk(s[Idx(n, ax, ay) := Tile(PlatformKinds[f], true, Some(d))][Idx(n, x, y) := Tile(WaterKinds[f], true, None)], n)
    ensures Accounted(s0, s[Idx(n, ax, ay) := Tile(PlatformKinds[f], true, Some(d))][Idx(n, x, y) := Tile(WaterKinds[f], true, None)], n, cx, cy)
  {
    AnimatedKinds(f);
    var c := Idx(n, cx, cy);
    if c != Idx(n, x, y) && c == Idx(n, ax, ay) {
      IdxInjective(n, cx, cy, ax, ay);
      assert CameFrom(s0, n, cx, cy, d);
    }
  }

  /** A visit keeps any cell kept: it writes only cells that are water or a platform, and every
      tile it writes has its flag set. */
  lemma VisitKeepsCell(s0: seq<Tile>, s: seq<Tile>, n: nat, x: int, y: int, i: int)
    requires GridOk(s, n) && InGrid(n, x, y) && 0 <= i < |s0| == |s| && CellKept(s0, s, i)
    ensures CellKept(s0, Visit(s, n, x, y), i)
  {
    var t := s[Idx(n, x, y)];
    if t.changed {
    } else if t.kind in WaterKinds {
      var f :| 0 <= f < 4 && WaterKinds[f] == t.kind;
      VisitAnimatesWater(s, n, x, y, f);
      AnimateWaterKeepsCell(s0, s, Idx(n, x, y), f, i);
    } else if t.kind in PlatformKinds {
      PlatformKindFacts(t.kind);
      TurnOrMoveKeepsCell(s0, s, n, x, y, t.direction.value, (FrameOf(t.kind) + 1) % 4, i);
    }
  }

  /** A visit keeps every platform accounted for, provided the cell it visits is kept. */
  lemma VisitKeepsAccounted(s0: seq<Tile>, s: seq<Tile>, n: nat, x: int, y: int, cx: int, cy: int)
    requires GridOk(s, n) && |s0| == n * n && InGrid(n, x, y) && InGrid(n, cx, cy)
    requires CellKept(s0, s, Idx(n, x, y)) && Accounted(s0, s, n, cx, cy)
    ensures Accounted(s0, Visit(s, n, x, y), n, cx, cy)
  {
    var t := s[Idx(n, x, y)];
    if t.changed {
    } else if t.kind in WaterKinds {
      var f :| 0 <= f < 4 && WaterKinds[f] == t.kind;
      VisitAnimatesWater(s, n, x, y, f);
      AnimateWaterKeepsAccounted(s0, s, n, x, y, f, cx, cy);
    } else if t.kind in PlatformKinds {
      PlatformKindFacts(t.kind);
      TurnOrMoveKeepsAccounted(s0, s, n, x, y, t.direction.value, (FrameOf(t.kind) + 1) % 4, cx, cy);
    }
  }

  lemma {:induction false} ColumnKeepsCell(s0: seq<Tile>, s: seq<Tile>, n: nat, x: int, y: int, i: int)
    requires GridOk(s, n) && 0 <= x < n && 0 <= y <= n && 0 <= i < |s0| == |s| && CellKept(s0, s, i)
    ensures CellKept(s0, ColumnUpTo(s, n, x, y), i)
    decreases y
  {
    if y > 0 {
      ColumnKeepsCell(s0, s, n, x, y - 1, i);
      VisitKeepsCell(s0, ColumnUpTo(s, n, x, y - 1), n, x, y - 1, i);
    }
  }

  lemma {:induction false} ColumnKeepsAccounted(s0: seq<Tile>, s: seq<Tile>, n: nat, x: int, y: int, cx: int, cy: int)
    requires GridOk(s, n) && |s0| == n * n && 0 <= x < n && 0 <= y <= n && InGrid(n, cx, cy)
    requires AllKept(s0, s) && Accounted(s0, s, n, cx, cy)
    ensures Accounted(s0, ColumnUpTo(s, n, x, y), n, cx, cy)
    decreases y
  {
    if y > 0 {
      ColumnKeepsAccounted(s0, s, n, x, y - 1, cx, cy);
      assert CellKept(s0, s, Idx(n, x, y - 1));
      ColumnKeepsCell(s0, s, n, x, y - 1, Idx(n, x, y - 1));
      VisitKeepsAccounted(s0, ColumnUpTo(s, n, x, y - 1), n, x, y - 1, cx, cy);
    }
  }

  lemma {:induction false} ColumnsKeepCell(s0: seq<Tile>, n: nat, x: int, i: int)
    requires GridOk(s0, n) && 0 <= x <= n && 0 <= i < |s0|
    ensures CellKept(s0, Columns(s0, n, x), i)
    decreases x
  {
    if x > 0 {
      ColumnsKeepCell(s0, n, x - 1, i);
      ColumnKeepsCell(s0, Columns(s0, n, x - 1), n, x - 1, n, i);
    }
  }

  lemma {:induction false} ColumnsKeepAccounted(s0: seq<Tile>, n: nat, x: int, cx: int, cy: int)
    requires GridOk(s0, n) && 0 <= x <= n && InGrid(n, cx, cy)
    ensures Accounted(s0, Columns(s0, n, x), n, cx, cy)
    decreases x
  {
    if x > 0 {
      ColumnsKeepAccounted(s0, n, x - 1, cx, cy);
      var p := Columns(s0, n, x - 1);
      forall i | 0 <= i < |p|
        ensures CellKept(s0, p, i)
      {
        ColumnsKeepCell(s0, n, x - 1, i);
      }
      ColumnKeepsAccounted(s0, p, n, x - 1, n, cx, cy);
    }
  }

  // ---------------------------------------------------------------------------------------
  // The platform count

  /** A platform turning round or moving never changes the number of platforms: a blocked
      platform turns round in place, and a moving one lands on water and leaves water behind. */
  lemma TurnOrMoveKeepsCount(s: seq<Tile>, n: nat, x: int, y: int, d: Dir, f: nat)
    requires GridOk(s, n) && InGrid(n, x, y) && f < 4 && IsPlatformName(s[Idx(n, x, y)].kind)
    ensures PlatformCount(TurnOrMove(s, n, x, y, d, f)) == PlatformCount(s)
  {
    AnimatedKinds(f);
    var v := Velocity(d);
    var p, t' := Idx(n, x, y), Tile(PlatformKinds[f], true, Some(d));
    if Blocked(s, n, x, y, d) {
      PlatformCountUpdate(s, p, Tile(PlatformKinds[f], true, Some((d + 2) % 4)));
    } else {
      var q := Idx(n, x + v.0, y + v.1);
      assert !IsPlatformName(s[q].kind) by { assert s[q].kind[0] == 'w'; }
      PlatformCountUpdate(s, q, t');
      if p == q {
        IdxInjective(n, x, y, x + v.0, y + v.1);
      }
      assert s[q := t'][p] == s[p];
      PlatformCountUpdate(s[q := t'], p, Tile(WaterKinds[f], true, None));
    }
  }

  lemma AnimateWaterKeepsCount(s: seq<Tile>, i: int, f: nat)
    requires 0 <= i < |s| && f < 4 && s[i].kind == WaterKinds[f]
    ensures PlatformCount(s[i := Tile(WaterKinds[(f + 1) % 4], true, None)]) == PlatformCount(s)
  {
    AnimatedKinds(f);
    AnimatedKinds((f + 1) % 4);
    PlatformCountUpdate(s, i, Tile(WaterKinds[(f + 1) % 4], true, None));
  }

  /** A single visit never changes the number of platforms. */
  lemma VisitKeepsCount(s: seq<Tile>, n: nat, x: int, y: int)
    requires GridOk(s, n) && InGrid(n, x, y)
    ensures PlatformCount(Visit(s, n, x, y)) == PlatformCount(s)
  {
    var t := s[Idx(n, x, y)];
    if t.changed {
      assert Visit(s, n, x, y) == s;
    } else if t.kind in WaterKinds {
      WaterVisitKeepsCount(s, n, x, y);
    } else if t.kind in PlatformKinds {
      PlatformVisitKeepsCount(s, n, x, y);
    } else {
      assert Visit(s, n, x, y) == s;
    }
  }

  /** The visit of unprocessed water keeps the number of platforms. */
  lemma WaterVisitKeepsCount(s: seq<Tile>, n: nat, x: int, y: int)
    requires GridOk(s, n) && InGrid(n, x, y)
    requires !s[Idx(n, x, y)].changed && s[Idx(n, x, y)].kind in WaterKinds
    ensures PlatformCount(Visit(s, n, x, y)) == PlatformCount(s)
  {
    var f :| 0 <= f < 4 && WaterKinds[f] == s[Idx(n, x, y)].kind;
    VisitAnimatesWater(s, n, x, y, f);
    AnimateWaterKeepsCount(s, Idx(n, x, y), f);
  }

  /** The visit of an unprocessed platform keeps the number of platforms. */
  lemma PlatformVisitKeepsCount(s: seq<Tile>, n: nat, x: int, y: int)
    requires GridOk(s, n) && InGrid(n, x, y)
    requires !s[Idx(n, x, y)].changed && s[Idx(n, x, y)].kind in PlatformKinds
    ensures PlatformCount(Visit(s, n, x, y)) == PlatformCount(s)
  {
    var t := s[Idx(n, x, y)];
    PlatformKindFacts(t.kind);
    var d, f := t.direction.value, (FrameOf(t.kind) + 1) % 4;
    assert Visit(s, n, x, y) == PlatformStep(s, n, x, y);
    assert PlatformStep(s, n, x, y) == TurnOrMove(s, n, x, y, d, f);
    TurnOrMoveKeepsCount(s, n, x, y, d, f);
  }

  lemma {:induction false} ColumnKeepsCount(s: seq<Tile>, n: nat, x: int, y: int)
    requires GridOk(s, n) && 0 <= x < n && 0 <= y <= n
    ensures PlatformCount(ColumnUpTo(s, n, x, y)) == PlatformCount(s)
    decreases y
  {
    if y > 0 {
      ColumnKeepsCount(s, n, x, y - 1);
      RowKeepsCount(s, n, x, y);
    }
  }

  /** The visit of row y - 1 in column x keeps the number of platforms. */
  lemma RowKeepsCount(s: seq<Tile>, n: nat, x: int, y: int)
    requires GridOk(s, n) && 0 <= x < n && 0 < y <= n
    ensures PlatformCount(ColumnUpTo(s, n, x, y)) == PlatformCount(ColumnUpTo(s, n, x, y - 1))
  {
    VisitKeepsCount(ColumnUpTo(s, n, x, y - 1), n, x, y - 1);
  }

  lemma {:induction false} ColumnsKeepCount(s: seq<Tile>, n: nat, x: int)
    requires GridOk(s, n) && 0 <= x <= n
    ensures PlatformCount(Columns(s, n, x)) == PlatformCount(s)
    decreases x
  {
    if x > 0 {
      ColumnsKeepCount(s, n, x - 1);
      ColumnKeepsCount(Columns(s, n, x - 1), n, x - 1, n);
    }
  }

  lemma {:induction false} ClearedPlatformCount(s: seq<Tile>)
    ensures PlatformCount(Cleared(s)) == PlatformCount(s)
  {
    if s != [] {
      assert Cleared(s)[1..] == Cleared(s[1..]);
      ClearedPlatformCount(s[1..]);
    }
  }

  // ---------------------------------------------------------------------------------------
  // One whole grid update

  /** A grid update neither creates nor destroys floating platforms: a platform only ever
      moves onto a cell that holds water. */
  lemma TickKeepsPlatformCount(s: seq<Tile>, n: nat)
    requires GridOk(s, n)
    ensures PlatformCount(Tick(s, n)) == PlatformCount(s)
  {
    ColumnsKeepCount(Cleared(s), n, n);
    ClearedPlatformCount(s);
  }

  /** Cells that are neither water nor a platform come out of a grid update as they went in,
      only with the changed flag cleared. */
  lemma TickKeepsInertCells(s: seq<Tile>, n: nat, i: int)
    requires GridOk(s, n) && 0 <= i < |s| && Inert(s[i].kind)
    ensures Tick(s, n)[i] == s[i].(changed := false)
  {
    ColumnsKeepCell(Cleared(s), n, n, i);
  }

  /** A cell whose flag is clear after a grid update was not written in it: it holds its old
      tile with the flag cleared. Every tile written during the pass has its flag set, so no
      cell is processed twice. */
  lemma TickUnflaggedCellsUnwritten(s: seq<Tile>, n: nat, i: int)
    requires GridOk(s, n) && 0 <= i < |s| && !Tick(s, n)[i].changed
    ensures Tick(s, n)[i] == s[i].(changed := false)
  {
    ColumnsKeepCell(Cleared(s), n, n, i);
  }

  /** No platform moves more than one cell in a grid update: each platform afterwards stood on
      the same cell before, or on the neighbouring cell behind it with the same direction. */
  lemma TickMovesPlatformsAtMostOneCell(s: seq<Tile>, n: nat, x: int, y: int)
    requires GridOk(s, n) && InGrid(n, x, y) && IsPlatformName(Tick(s, n)[Idx(n, x, y)].kind)
    ensures Tick(s, n)[Idx(n, x, y)].direction.Some?
    ensures CameFrom(s, n, x, y, Tick(s, n)[Idx(n, x, y)].direction.value)
  {
    var s0 := Cleared(s);
    ColumnsKeepAccounted(s0, n, n, x, y);
    var d := Tick(s, n)[Idx(n, x, y)].direction.value;
    var v := Velocity(d);
    assert s0[Idx(n, x, y)].kind == s[Idx(n, x, y)].kind;
    if InGrid(n, x - v.0, y - v.1) {
      assert s0[Idx(n, x - v.0, y - v.1)].direction == s[Idx(n, x - v.0, y - v.1)].direction;
    }
  }
}
