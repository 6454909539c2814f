/** A whole grid update followed cell by cell (updateGrid, Applab.js:190-238). The two nested
    loops visit the cells in one column-major order, so the pass is also a single scan over
    the positions 0 .. n*n-1; following one cell along that scan shows what the pass does to
    it: a water cell no platform heads into animates, and a platform with room around it takes
    exactly the step updateFloatingPlatform describes. */
module Pass {
  import opened Tiles
  import opened Grid
  import opened Simulation

  /** Row starts never pass the end of the grid. */
  lemma RowStartBound(n: nat, x: int)
    requires 0 <= x <= n
    ensures RowStart(n, x) <= n * n
    ensures x < n ==> RowStart(n, x) + n <= n * n
  {
    RowStartIsProduct(n, n);
    if x < n {
      RowStartGrows(n, x, n);
    }
  }

  /** The cell the scan visits at step k: column x and row y with k == x*n + y, found by
      counting whole columns. */
  function CellAt(n: nat, k: nat): (c: (int, int))
    requires k < n * n
    ensures InGrid(n, c.0, c.1) && RowStart(n, c.0) + c.1 == k
    decreases k
  {
    if k < n then (0, k)
    else
      var c := CellAt(n, k - n);
      RowStartIsProduct(n, c.0 + 1);
      (c.0 + 1, c.1)
  }

  /** The step at which the scan visits cell (x, y): the scan visits every cell, once. */
  function ScanPos(n: nat, x: int, y: int): (k: nat)
    requires InGrid(n, x, y)
    ensures k < n * n && CellAt(n, k).0 == x && CellAt(n, k).1 == y
  {
    RowStartBound(n, x);
    var k := RowStart(n, x) + y;
    var c := CellAt(n, k);
    RowStartSplit(n, c.0, c.1, x, y);
    k
  }

  /** The grid after the first k visits of the scan. */
  function ScanTo(s: seq<Tile>, n: nat, k: nat): (r: seq<Tile>)
    requires GridOk(s, n) && k <= n * n
    ensures GridOk(r, n)
    decreases k, 0
  {
    if k == 0 then s else ScanStep(s, n, k - 1)
  }

  /** The grid after the scan's visit number k, of cell CellAt(n, k). */
  function ScanStep(s: seq<Tile>, n: nat, k: nat): (r: seq<Tile>)
    requires GridOk(s, n) && k < n * n
    ensures GridOk(r, n)
    decreases k, 1
  {
    var c := CellAt(n, k);
    Visit(ScanTo(s, n, k), n, c.0, c.1)
  }

  /** The scan's visit at step ScanPos(n, x, y) is the visit of cell (x, y). */
  lemma ScanVisits(s: seq<Tile>, n: nat, x: int, y: int)
    requires GridOk(s, n) && InGrid(n, x, y)
    ensures var k := ScanPos(n, x, y);
      ScanTo(s, n, k + 1) == Visit(ScanTo(s, n, k), n, x, y)
  {
    var k := ScanPos(n, x, y);
    assert ScanTo(s, n, k + 1) == ScanStep(s, n, k);
  }

  /** The inner loop over column x, up to row y, started where the scan stands after step x*n,
      ends where the scan ends after step x*n + y. */
  lemma {:induction false} ColumnIsScan(s: seq<Tile>, C: seq<Tile>, n: nat, x: int, y: int)
    requires GridOk(s, n) && 0 <= x < n && 0 <= y <= n
    requires RowStart(n, x) + n <= n * n
    requires C == ScanTo(s, n, RowStart(n, x))
    ensures ColumnUpTo(C, n, x, y) == ScanTo(s, n, RowStart(n, x) + y)
    decreases y
  {
    if y > 0 {
      ColumnIsScan(s, C, n, x, y - 1);
      RowIsScanStep(s, C, n, x, y);
    }
  }

  /** Visiting row y - 1 of column x is the scan's step x*n + y - 1. */
  lemma RowIsScanStep(s: seq<Tile>, C: seq<Tile>, n: nat, x: int, y: int)
    requires GridOk(s, n) && GridOk(C, n) && 0 <= x < n && 0 < y <= n
    requires RowStart(n, x) + n <= n * n
    requires ColumnUpTo(C, n, x, y - 1) == ScanTo(s, n, RowStart(n, x) + y - 1)
    ensures ColumnUpTo(C, n, x, y) == ScanTo(s, n, RowStart(n, x) + y)
  {
    var k := ScanPos(n, x, y - 1);
    assert k == RowStart(n, x) + y - 1;
    ScanVisits(s, n, x, y - 1);
    SameVisit(ColumnUpTo(C, n, x, y - 1), ScanTo(s, n, k), n, x, y - 1);
  }

  /** Visits of the same cell in equal grids give equal grids. */
  lemma SameVisit(a: seq<Tile>, b: seq<Tile>, n: nat, x: int, y: int)
    requires GridOk(a, n) && a == b && InGrid(n, x, y)
    ensures Visit(a, n, x, y) == Visit(b, n, x, y)
  {
  }

  /** The outer loop, up to column x, ends where the scan ends after step x*n. */
  lemma {:induction false} ColumnsAreScan(s: seq<Tile>, n: nat, x: int)
    requires GridOk(s, n) && 0 <= x <= n
    ensures RowStart(n, x) <= n * n
    ensures Columns(s, n, x) == ScanTo(s, n, RowStart(n, x))
    decreases x
  {
    RowStartBound(n, x);
    if x > 0 {
      RowStartBound(n, x - 1);
      ColumnsAreScan(s, n, x - 1);
      ColumnIsWholeScan(s, n, x - 1);
    }
  }

  /** A whole column added to the scan so far. */
  lemma ColumnIsWholeScan(s: seq<Tile>, n: nat, x: int)
    requires GridOk(s, n) && 0 <= x < n && RowStart(n, x) + n <= n * n
    requires Columns(s, n, x) == ScanTo(s, n, RowStart(n, x))
    ensures Columns(s, n, x + 1) == ScanTo(s, n, RowStart(n, x + 1))
  {
    ColumnIsScan(s, Columns(s, n, x), n, x, n);
  }

  /** A whole grid update is the scan over all n*n cells of the cleared grid. */
  lemma TickIsScan(s: seq<Tile>, n: nat)
    requires GridOk(s, n)
    ensures Tick(s, n) == ScanTo(Cleared(s), n, n * n)
  {
    ColumnsAreScan(Cleared(s), n, n);
    RowStartIsProduct(n, n);
  }

  /** Every cell stays kept along the scan: an unflagged cell still holds its tile of s0. */
  lemma {:induction false} ScanKeepsCell(s0: seq<Tile>, n: nat, k: nat, i: int)
    requires GridOk(s0, n) && k <= n * n && 0 <= i < |s0|
    ensures CellKept(s0, ScanTo(s0, n, k), i)
    decreases k
  {
    if k > 0 {
      ScanKeepsCell(s0, n, k - 1, i);
      var c := CellAt(n, k - 1);
      VisitKeepsCell(s0, ScanTo(s0, n, k - 1), n, c.0, c.1, i);
    }
  }

  /** The platform at (x, y) of s heads into cell (cx, cy). */
  predicate HeadsInto(s: seq<Tile>, n: nat, x: int, y: int, cx: int, cy: int)
    requires |s| == n * n && InGrid(n, x, y)
  {
    s[Idx(n, x, y)].direction.Some? &&
    x + Velocity(s[Idx(n, x, y)].direction.value).0 == cx &&
    y + Velocity(s[Idx(n, x, y)].direction.value).1 == cy
  }

  /** The cell one step behind (x, y) for direction d holds a platform heading d, into (x, y). */
  predicate HeadsFrom(s: seq<Tile>, n: nat, x: int, y: int, d: Dir)
    requires |s| == n * n
  {
    InGrid(n, x - Velocity(d).0, y - Velocity(d).1) &&
    s[Idx(n, x - Velocity(d).0, y - Velocity(d).1)].direction == Some(d)
  }

  /** A platform heading into (cx, cy) is seen from (cx, cy) as heading in from one step behind. */
  lemma HeadsIntoIsFrom(s: seq<Tile>, n: nat, x: int, y: int, cx: int, cy: int)
    requires |s| == n * n && InGrid(n, x, y)
    ensures HeadsInto(s, n, x, y, cx, cy) ==> HeadsFrom(s, n, cx, cy, s[Idx(n, x, y)].direction.value)
  {
  }

  /** No platform heads into (x, y). */
  predicate Unapproached(s: seq<Tile>, n: nat, x: int, y: int)
    requires |s| == n * n
  {
    forall d: Dir :: !HeadsFrom(s, n, x, y, d)
  }

  /** Visiting a cell other than (cx, cy), whose platform (if any) does not head into (cx, cy),
      leaves (cx, cy) alone, provided the visited cell is kept. */
  lemma VisitElsewhere(s0: seq<Tile>, s: seq<Tile>, n: nat, x: int, y: int, cx: int, cy: int)
    requires GridOk(s, n) && |s0| == |s| && InGrid(n, x, y) && InGrid(n, cx, cy)
    requires (x != cx || y != cy) && CellKept(s0, s, Idx(n, x, y))
    requires !HeadsInto(s0, n, x, y, cx, cy)
    ensures Visit(s, n, x, y)[Idx(n, cx, cy)] == s[Idx(n, cx, cy)]
  {
    var t := s[Idx(n, x, y)];
    if t.changed {
    } else if t.kind in WaterKinds {
      var f :| 0 <= f < 4 && WaterKinds[f] == t.kind;
      VisitAnimatesWater(s, n, x, y, f);
      if Idx(n, x, y) == Idx(n, cx, cy) {
        IdxInjective(n, x, y, cx, cy);
      }
    } else if t.kind in PlatformKinds {
      PlatformKindFacts(t.kind);
      if Blocked(s, n, x, y, t.direction.value) {
        PlatformReverses(s, n, x, y, cx, cy);
      } else {
        PlatformMoves(s, n, x, y, cx, cy);
      }
    }
  }

  /** The scan from step k1 to step k2 leaves cell (cx, cy) alone when it visits neither that
      cell nor a cell whose platform heads into it. */
  lemma {:induction false} ScanFrame(s0: seq<Tile>, n: nat, k1: nat, k2: nat, cx: int, cy: int)
    requires GridOk(s0, n) && k1 <= k2 <= n * n && InGrid(n, cx, cy)
    requires forall k :: k1 <= k < k2 ==>
      (CellAt(n, k).0 != cx || CellAt(n, k).1 != cy) && !HeadsInto(s0, n, CellAt(n, k).0, CellAt(n, k).1, cx, cy)
    ensures ScanTo(s0, n, k2)[Idx(n, cx, cy)] == ScanTo(s0, n, k1)[Idx(n, cx, cy)]
    decreases k2
  {
    if k1 < k2 {
      ScanFrame(s0, n, k1, k2 - 1, cx, cy);
      var c := CellAt(n, k2 - 1);
      ScanKeepsCell(s0, n, k2 - 1, Idx(n, c.0, c.1));
      VisitElsewhere(s0, ScanTo(s0, n, k2 - 1), n, c.0, c.1, cx, cy);
    }
  }

  /** Between steps k1 and k2 the scan leaves (cx, cy) alone if it visits neither that cell nor
      (px, py), the only cell whose platform may head into it. */
  lemma Untouched(s0: seq<Tile>, n: nat, k1: nat, k2: nat, cx: int, cy: int, px: int, py: int)
    requires GridOk(s0, n) && k1 <= k2 <= n * n && InGrid(n, cx, cy) && InGrid(n, px, py)
    requires OnlyApproachedFrom(s0, n, cx, cy, px, py)
    requires !(k1 <= ScanPos(n, cx, cy) < k2) && !(k1 <= ScanPos(n, px, py) < k2)
    ensures ScanTo(s0, n, k2)[Idx(n, cx, cy)] == ScanTo(s0, n, k1)[Idx(n, cx, cy)]
  {
    forall k | k1 <= k < k2
      ensures (CellAt(n, k).0 != cx || CellAt(n, k).1 != cy) && !HeadsInto(s0, n, CellAt(n, k).0, CellAt(n, k).1, cx, cy)
    {
      NotWriter(s0, n, k, cx, cy, px, py);
    }
    ScanFrame(s0, n, k1, k2, cx, cy);
  }

  /** A step of the scan that visits neither (cx, cy) nor (px, py), the only cell whose platform
      may head into (cx, cy), visits a cell other than (cx, cy) whose platform does not head
      into it. */
  lemma NotWriter(s0: seq<Tile>, n: nat, k: nat, cx: int, cy: int, px: int, py: int)
    requires |s0| == n * n && k < n * n && InGrid(n, cx, cy) && InGrid(n, px, py)
    requires OnlyApproachedFrom(s0, n, cx, cy, px, py)
    requires k != ScanPos(n, cx, cy) && k != ScanPos(n, px, py)
    ensures CellAt(n, k).0 != cx || CellAt(n, k).1 != cy
    ensures !HeadsInto(s0, n, CellAt(n, k).0, CellAt(n, k).1, cx, cy)
  {
    var q := CellAt(n, k);
    HeadsIntoIsFrom(s0, n, q.0, q.1, cx, cy);
  }

  /** The grid update animates every water cell that no platform heads into: water of frame f
      comes out as water of frame (f + 1) % 4, flagged as written. */
  lemma TickAnimatesWater(s: seq<Tile>, n: nat, x: int, y: int, f: nat)
    requires GridOk(s, n) && InGrid(n, x, y) && f < 4
    requires s[Idx(n, x, y)].kind == WaterKinds[f] && Unapproached(s, n, x, y)
    ensures Tick(s, n)[Idx(n, x, y)] == Tile(WaterKinds[(f + 1) % 4], true, None)
  {
    var s0 := Cleared(s);
    var k := ScanPos(n, x, y);
    TickIsScan(s, n);
    ClearedHeadsFrom(s, n, x, y);
    Untouched(s0, n, 0, k, x, y, x, y);
    ScanVisits(s0, n, x, y);
    VisitAnimatesWater(ScanTo(s0, n, k), n, x, y, f);
    Untouched(s0, n, k + 1, n * n, x, y, x, y);
  }

  /** Clearing the flags keeps every direction, so it keeps which platforms head where. */
  lemma ClearedHeadsFrom(s: seq<Tile>, n: nat, x: int, y: int)
    requires |s| == n * n
    ensures forall d: Dir :: HeadsFrom(Cleared(s), n, x, y, d) == HeadsFrom(s, n, x, y, d)
  {
  }

  /** A visit keeps a cell that holds no platform free of platforms, and water stays water. */
  lemma VisitKeepsWaterness(s: seq<Tile>, n: nat, x: int, y: int)
    requires GridOk(s, n) && InGrid(n, x, y) && !IsPlatformName(s[Idx(n, x, y)].kind)
    ensures !IsPlatformName(Visit(s, n, x, y)[Idx(n, x, y)].kind)
    ensures IsWaterName(Visit(s, n, x, y)[Idx(n, x, y)].kind) == IsWaterName(s[Idx(n, x, y)].kind)
  {
    var t := s[Idx(n, x, y)];
    if !t.changed && t.kind in WaterKinds {
      var f :| 0 <= f < 4 && WaterKinds[f] == t.kind;
      VisitAnimatesWater(s, n, x, y, f);
      AnimatedKinds(f);
      AnimatedKinds((f + 1) % 4);
    } else if !t.changed && t.kind in PlatformKinds {
      PlatformKindFacts(t.kind);
    }
  }

  /** Every platform heading into (cx, cy) comes from (px, py). */
  predicate OnlyApproachedFrom(s: seq<Tile>, n: nat, cx: int, cy: int, px: int, py: int)
    requires |s| == n * n
  {
    forall d: Dir :: HeadsFrom(s, n, cx, cy, d) ==> cx - Velocity(d).0 == px && cy - Velocity(d).1 == py
  }

  /** Clearing the flags does not change which platforms head into a cell. */
  lemma ClearedOnlyApproached(s: seq<Tile>, n: nat, cx: int, cy: int, px: int, py: int)
    requires |s| == n * n
    ensures OnlyApproachedFrom(Cleared(s), n, cx, cy, px, py) == OnlyApproachedFrom(s, n, cx, cy, px, py)
  {
    ClearedHeadsFrom(s, n, cx, cy);
  }

  /** The cell ahead of (x, y) in direction d, if it is on the grid, holds no platform, and no
      platform other than the one at (x, y) heads into it. */
  predicate RoomAhead(s: seq<Tile>, n: nat, x: int, y: int, d: Dir)
    requires |s| == n * n
  {
    InGrid(n, x + Velocity(d).0, y + Velocity(d).1) ==>
      !IsPlatformName(s[Idx(n, x + Velocity(d).0, y + Velocity(d).1)].kind) &&
      OnlyApproachedFrom(s, n, x + Velocity(d).0, y + Velocity(d).1, x, y)
  }

  /** With room ahead, only the platform at (x, y) heads into the cell ahead, flags cleared or not. */
  lemma ApproachAhead(s: seq<Tile>, n: nat, x: int, y: int, d: Dir, tx: int, ty: int)
    requires |s| == n * n && RoomAhead(s, n, x, y, d) && InGrid(n, tx, ty)
    requires tx == x + Velocity(d).0 && ty == y + Velocity(d).1
    ensures OnlyApproachedFrom(Cleared(s), n, tx, ty, x, y)
  {
    ClearedOnlyApproached(s, n, tx, ty, x, y);
  }

  /** A cell (tx, ty) without a platform, into which only the platform at (x, y) may head, still
      holds water when the scan reaches (x, y) exactly when it held water at the start. */
  lemma TargetWhenVisited(s: seq<Tile>, n: nat, x: int, y: int, tx: int, ty: int)
    requires GridOk(s, n) && InGrid(n, x, y) && InGrid(n, tx, ty) && (tx != x || ty != y)
    requires !IsPlatformName(s[Idx(n, tx, ty)].kind) && OnlyApproachedFrom(s, n, tx, ty, x, y)
    ensures IsWaterName(ScanTo(Cleared(s), n, ScanPos(n, x, y))[Idx(n, tx, ty)].kind) ==
      IsWaterName(s[Idx(n, tx, ty)].kind)
  {
    var s0, kp, kt := Cleared(s), ScanPos(n, x, y), ScanPos(n, tx, ty);
    ClearedHeadsFrom(s, n, tx, ty);
    if kp < kt {
      Untouched(s0, n, 0, kp, tx, ty, x, y);
    } else {
      assert kt < kp;
      Untouched(s0, n, 0, kt, tx, ty, x, y);
      ScanVisits(s0, n, tx, ty);
      VisitKeepsWaterness(ScanTo(s0, n, kt), n, tx, ty);
      Untouched(s0, n, kt + 1, kp, tx, ty, x, y);
    }
  }

  /** Once the scan has written cell (cx, cy) at step k (flagging it), the rest of the scan leaves
      it alone, provided only the cell (px, py) visited at step k may head into it. */
  lemma KeptAfter(s0: seq<Tile>, n: nat, k: nat, cx: int, cy: int, px: int, py: int)
    requires GridOk(s0, n) && k < n * n && InGrid(n, cx, cy) && InGrid(n, px, py)
    requires ScanPos(n, px, py) == k
    requires ScanPos(n, cx, cy) <= k || ScanTo(s0, n, k + 1)[Idx(n, cx, cy)].changed
    requires OnlyApproachedFrom(s0, n, cx, cy, px, py)
    ensures ScanTo(s0, n, n * n)[Idx(n, cx, cy)] == ScanTo(s0, n, k + 1)[Idx(n, cx, cy)]
  {
    var kc := ScanPos(n, cx, cy);
    if kc <= k {
      Untouched(s0, n, k + 1, n * n, cx, cy, px, py);
    } else {
      Untouched(s0, n, k + 1, kc, cx, cy, px, py);
      ScanSkipsWritten(s0, n, cx, cy);
      Untouched(s0, n, kc + 1, n * n, cx, cy, px, py);
    }
  }

  /** The scan's visit of a cell that has already been written leaves it as it is. */
  lemma ScanSkipsWritten(s0: seq<Tile>, n: nat, x: int, y: int)
    requires GridOk(s0, n) && InGrid(n, x, y)
    ensures var k := ScanPos(n, x, y);
      ScanTo(s0, n, k)[Idx(n, x, y)].changed ==>
        ScanTo(s0, n, k + 1)[Idx(n, x, y)] == ScanTo(s0, n, k)[Idx(n, x, y)]
  {
    ScanVisits(s0, n, x, y);
  }

  /** A platform with room around it is as it was, only unflagged, when the scan reaches it,
      and it finds the cell ahead blocked exactly when that cell was blocked at the start. */
  lemma PlatformWhenVisited(s: seq<Tile>, n: nat, x: int, y: int, d: Dir)
    requires GridOk(s, n) && InGrid(n, x, y) && s[Idx(n, x, y)].direction == Some(d)
    requires Unapproached(s, n, x, y) && RoomAhead(s, n, x, y, d)
    ensures var S := ScanTo(Cleared(s), n, ScanPos(n, x, y));
      S[Idx(n, x, y)] == s[Idx(n, x, y)].(changed := false) &&
      Blocked(S, n, x, y, d) == Blocked(s, n, x, y, d)
  {
    ClearedHeadsFrom(s, n, x, y);
    Untouched(Cleared(s), n, 0, ScanPos(n, x, y), x, y, x, y);
    BlockedWhenVisited(s, n, x, y, d);
  }

  /** The scan reaches a platform with room ahead with the cell ahead as blocked as at the start. */
  lemma BlockedWhenVisited(s: seq<Tile>, n: nat, x: int, y: int, d: Dir)
    requires GridOk(s, n) && InGrid(n, x, y) && RoomAhead(s, n, x, y, d)
    ensures Blocked(ScanTo(Cleared(s), n, ScanPos(n, x, y)), n, x, y, d) == Blocked(s, n, x, y, d)
  {
    var tx, ty := x + Velocity(d).0, y + Velocity(d).1;
    if InGrid(n, tx, ty) {
      TargetWhenVisited(s, n, x, y, tx, ty);
    }
  }

  /** The visit of a platform with room around it is its platform step. */
  lemma VisitOfPlatform(s: seq<Tile>, n: nat, x: int, y: int)
    requires GridOk(s, n) && InGrid(n, x, y) && s[Idx(n, x, y)].kind in PlatformKinds
    requires Unapproached(s, n, x, y) && RoomAhead(s, n, x, y, s[Idx(n, x, y)].direction.value)
    ensures var S := ScanTo(Cleared(s), n, ScanPos(n, x, y));
      S[Idx(n, x, y)] == s[Idx(n, x, y)].(changed := false) &&
      Blocked(S, n, x, y, s[Idx(n, x, y)].direction.value) ==
        Blocked(s, n, x, y, s[Idx(n, x, y)].direction.value)
    ensures var s0, k := Cleared(s), ScanPos(n, x, y);
      ScanTo(s0, n, k + 1) == PlatformStep(ScanTo(s0, n, k), n, x, y)
  {
    PlatformKindFacts(s[Idx(n, x, y)].kind);
    PlatformWhenVisited(s, n, x, y, s[Idx(n, x, y)].direction.value);
    ScanVisits(Cleared(s), n, x, y);
  }

  /** A blocked platform with room around it comes out of the grid update turned round in place,
      with the next frame. */
  lemma TickTurnsPlatform(s: seq<Tile>, n: nat, x: int, y: int)
    requires GridOk(s, n) && InGrid(n, x, y) && s[Idx(n, x, y)].kind in PlatformKinds
    requires Unapproached(s, n, x, y) && RoomAhead(s, n, x, y, s[Idx(n, x, y)].direction.value)
    requires Blocked(s, n, x, y, s[Idx(n, x, y)].direction.value)
    ensures var t := s[Idx(n, x, y)];
      Tick(s, n)[Idx(n, x, y)] ==
        Tile(PlatformKinds[(FrameOf(t.kind) + 1) % 4], true, Some((t.direction.value + 2) % 4))
  {
    var s0, k := Cleared(s), ScanPos(n, x, y);
    VisitOfPlatform(s, n, x, y);
    PlatformReverses(ScanTo(s0, n, k), n, x, y, x, y);
    ClearedHeadsFrom(s, n, x, y);
    KeptAfter(s0, n, k, x, y, x, y);
    TickIsScan(s, n);
  }

  /** A platform with room around it that is not blocked leaves the water of its next frame
      behind in the grid update. */
  lemma TickLeavesWater(s: seq<Tile>, n: nat, x: int, y: int)
    requires GridOk(s, n) && InGrid(n, x, y) && s[Idx(n, x, y)].kind in PlatformKinds
    requires Unapproached(s, n, x, y) && RoomAhead(s, n, x, y, s[Idx(n, x, y)].direction.value)
    requires !Blocked(s, n, x, y, s[Idx(n, x, y)].direction.value)
    ensures Tick(s, n)[Idx(n, x, y)] ==
      Tile(WaterKinds[(FrameOf(s[Idx(n, x, y)].kind) + 1) % 4], true, None)
  {
    var s0, k := Cleared(s), ScanPos(n, x, y);
    VisitOfPlatform(s, n, x, y);
    PlatformMoves(ScanTo(s0, n, k), n, x, y, x, y);
    ClearedHeadsFrom(s, n, x, y);
    KeptAfter(s0, n, k, x, y, x, y);
    TickIsScan(s, n);
  }

  /** Right after its visit, a platform with room around it that is not blocked stands one cell
      further along its direction, with the next frame. */
  lemma MovedAtVisit(s: seq<Tile>, n: nat, x: int, y: int, tx: int, ty: int)
    requires GridOk(s, n) && InGrid(n, x, y) && s[Idx(n, x, y)].kind in PlatformKinds
    requires Unapproached(s, n, x, y) && RoomAhead(s, n, x, y, s[Idx(n, x, y)].direction.value)
    requires !Blocked(s, n, x, y, s[Idx(n, x, y)].direction.value)
    requires tx == x + Velocity(s[Idx(n, x, y)].direction.value).0
    requires ty == y + Velocity(s[Idx(n, x, y)].direction.value).1
    ensures InGrid(n, tx, ty)
    ensures ScanTo(Cleared(s), n, ScanPos(n, x, y) + 1)[Idx(n, tx, ty)] ==
      Tile(PlatformKinds[(FrameOf(s[Idx(n, x, y)].kind) + 1) % 4], true, s[Idx(n, x, y)].direction)
  {
    VisitOfPlatform(s, n, x, y);
    var k := ScanPos(n, x, y);
    MovedBy(ScanTo(Cleared(s), n, k), ScanTo(Cleared(s), n, k + 1), s[Idx(n, x, y)], n, x, y, tx, ty);
  }

  /** The platform step of an unflagged platform t that is not blocked puts t one cell ahead,
      with the next frame. */
  lemma MovedBy(S: seq<Tile>, S1: seq<Tile>, t: Tile, n: nat, x: int, y: int, tx: int, ty: int)
    requires GridOk(S, n) && InGrid(n, x, y) && S[Idx(n, x, y)] == t.(changed := false)
    requires t.kind in PlatformKinds && !Blocked(S, n, x, y, t.direction.value)
    requires tx == x + Velocity(t.direction.value).0 && ty == y + Velocity(t.direction.value).1
    requires S1 == PlatformStep(S, n, x, y)
    ensures InGrid(n, tx, ty)
    ensures S1[Idx(n, tx, ty)] == Tile(PlatformKinds[(FrameOf(t.kind) + 1) % 4], true, t.direction)
  {
    PlatformMoves(S, n, x, y, tx, ty);
  }

  /** A platform with room around it that is not blocked comes out of the grid update one cell
      further along its direction, with the next frame. */
  lemma TickMovesPlatform(s: seq<Tile>, n: nat, x: int, y: int)
    requires GridOk(s, n) && InGrid(n, x, y) && s[Idx(n, x, y)].kind in PlatformKinds
    requires Unapproached(s, n, x, y) && RoomAhead(s, n, x, y, s[Idx(n, x, y)].direction.value)
    requires !Blocked(s, n, x, y, s[Idx(n, x, y)].direction.value)
    ensures var t := s[Idx(n, x, y)];
      var tx, ty := x + Velocity(t.direction.value).0, y + Velocity(t.direction.value).1;
      Tick(s, n)[Idx(n, tx, ty)] == Tile(PlatformKinds[(FrameOf(t.kind) + 1) % 4], true, t.direction)
  {
    var t := s[Idx(n, x, y)];
    var d := t.direction.value;
    var tx, ty := x + Velocity(d).0, y + Velocity(d).1;
    MovedAtVisit(s, n, x, y, tx, ty);
    ApproachAhead(s, n, x, y, d, tx, ty);
    WrittenStays(s, n, x, y, tx, ty, Tile(PlatformKinds[(FrameOf(t.kind) + 1) % 4], true, t.direction));
  }

  /** A tile the visit of (x, y) writes on (tx, ty) is still there after the whole update,
      provided only the platform at (x, y) may head into (tx, ty). */
  lemma WrittenStays(s: seq<Tile>, n: nat, x: int, y: int, tx: int, ty: int, w: Tile)
    requires GridOk(s, n) && InGrid(n, x, y) && InGrid(n, tx, ty) && w.changed
    requires ScanTo(Cleared(s), n, ScanPos(n, x, y) + 1)[Idx(n, tx, ty)] == w
    requires OnlyApproachedFrom(Cleared(s), n, tx, ty, x, y)
    ensures Tick(s, n)[Idx(n, tx, ty)] == w
  {
    KeptAfter(Cleared(s), n, ScanPos(n, x, y), tx, ty, x, y);
    TickIsScan(s, n);
  }
}
