/** The square grid as the source stores it: a flat sequence of tiles indexed y*gridSize+x,
    with bounds-checked writes (setTile, Applab.js:117-140) and reads (getTile, Applab.js:146-160). */
module Grid {
  import opened Tiles

  predicate InGrid(n: int, x: int, y: int)
  {
    0 <= x < n && 0 <= y < n
  }

  /** Multiplication by a natural number is monotonic. */
  lemma {:induction false} MulMono(a: int, b: int, n: nat)
    requires a <= b
    ensures a * n <= b * n
  {
    if n > 0 {
      MulMono(a, b, n - 1);
      assert a * n == a * (n - 1) + a;
      assert b * n == b * (n - 1) + b;
    }
  }

  /** y*n, the list index where row y starts, written as repeated addition so that the
      solver reasons about cell indices linearly; RowStartIsProduct gives the closed form. */
  function RowStart(n: nat, y: nat): nat
  {
    if y == 0 then 0 else RowStart(n, y - 1) + n
  }

  lemma {:induction false} RowStartIsProduct(n: nat, y: nat)
    ensures RowStart(n, y) == y * n
  {
    if y > 0 {
      RowStartIsProduct(n, y - 1);
      assert (y - 1) * n + n == y * n;
    }
  }

  /** Later rows start at least a whole row further on. */
  lemma {:induction false} RowStartGrows(n: nat, y1: nat, y2: nat)
    requires y1 < y2
    ensures RowStart(n, y1) + n <= RowStart(n, y2)
    decreases y2
  {
    if y1 < y2 - 1 {
      RowStartGrows(n, y1, y2 - 1);
    }
  }

  /** The list index y*n+x of cell (x, y): it lies within the n*n list. */
  function Idx(n: int, x: int, y: int): (i: int)
    requires InGrid(n, x, y)
    ensures 0 <= i < n * n
  {
    RowStartIsProduct(n, y);
    MulMono(y + 1, n, n);
    assert (y + 1) * n == y * n + n;
    RowStart(n, y) + x
  }

  /** An offset within a row and the row it lies in are determined by the position. */
  lemma RowStartSplit(n: nat, y1: nat, x1: int, y2: nat, x2: int)
    requires 0 <= x1 < n && 0 <= x2 < n && RowStart(n, y1) + x1 == RowStart(n, y2) + x2
    ensures x1 == x2 && y1 == y2
  {
    if y1 < y2 {
      RowStartGrows(n, y1, y2);
    } else if y2 < y1 {
      RowStartGrows(n, y2, y1);
    }
  }

  /** Distinct cells have distinct list indices. */
  lemma IdxInjective(n: int, x1: int, y1: int, x2: int, y2: int)
    requires InGrid(n, x1, y1) && InGrid(n, x2, y2)
    requires Idx(n, x1, y1) == Idx(n, x2, y2)
    ensures x1 == x2 && y1 == y2
  {
    RowStartSplit(n, y1, x1, y2, x2);
  }

  /** Every list index below n*n is the index of a cell. */
  lemma IdxOnto(n: nat, k: int) returns (x: int, y: int)
    requires 0 <= k < n * n
    ensures InGrid(n, x, y) && Idx(n, x, y) == k
  {
    x, y := k % n, k / n;
    assert k == y * n + x;
    if y >= n {
      MulMono(n, y, n);
    }
    assert InGrid(n, x, y);
    RowStartIsProduct(n, y);
  }

  /** Two grids that agree on every cell are equal. */
  lemma CellwiseEqual(a: seq<Tile>, b: seq<Tile>, n: nat)
    requires |a| == n * n && |b| == n * n
    requires forall x, y :: InGrid(n, x, y) ==> a[Idx(n, x, y)] == b[Idx(n, x, y)]
    ensures a == b
  {
    forall k | 0 <= k < |a|
      ensures a[k] == b[k]
    {
      var x, y := IdxOnto(n, k);
      assert a[Idx(n, x, y)] == b[Idx(n, x, y)];
    }
  }

  /** A well-formed grid: n*n cells, each a decoded tile. */
  predicate GridOk(s: seq<Tile>, n: nat)
  {
    |s| == n * n && forall i :: 0 <= i < |s| ==> TileOk(s[i])
  }

  /** setTile on the grid contents: out of bounds nothing changes; in bounds cell (x, y) holds
      the decoded tile. */
  function Put(s: seq<Tile>, n: nat, x: int, y: int, name: string): (r: seq<Tile>)
    requires |s| == n * n && WellFormedName(name)
    ensures |r| == |s|
    ensures GridOk(s, n) ==> GridOk(r, n)
  {
    if InGrid(n, x, y) then
      s[Idx(n, x, y) := TileOfType(name)]
    else
      s
  }

  /** The JavaScript values setTile can return. */
  datatype JsValue = JsTrue | JsFalse | JsUndefined

  predicate Truthy(v: JsValue)
  {
    v == JsTrue
  }

  /** setTile's return value as written: `false` when the cell is off the grid, and no value
      at all (`undefined`) after a successful write. */
  function SetTileReturn(n: int, x: int, y: int): (v: JsValue)
    ensures v == JsFalse <==> !InGrid(n, x, y)
  {
    if x >= n || x < 0 then JsFalse
    else if y >= n || y < 0 then JsFalse
    else JsUndefined
  }

  /** setTile is documented to return whether it succeeded, but its result is falsy on every
      input: a write that happened, such as cell (0, 0) of a 1x1 grid, reports the same
      falsy value as a write off the grid. */
  lemma SetTileNeverReportsSuccess(n: int, x: int, y: int)
    ensures !Truthy(SetTileReturn(n, x, y))
    ensures SetTileReturn(1, 0, 0) == JsUndefined && InGrid(1, 0, 0)
  {
  }

  /** Reading any cell after a write: the written cell holds the decoded tile, and every other
      cell, as well as every cell after an out-of-bounds write, is what it was. */
  lemma PutThenRead(s: seq<Tile>, n: nat, x: int, y: int, name: string, x': int, y': int)
    requires |s| == n * n && WellFormedName(name) && InGrid(n, x', y')
    ensures 0 <= Idx(n, x', y') < |Put(s, n, x, y, name)|
    ensures Put(s, n, x, y, name)[Idx(n, x', y')] ==
      if x' == x && y' == y then TileOfType(name) else s[Idx(n, x', y')]
  {
    if InGrid(n, x, y) && (x' != x || y' != y) {
      if Idx(n, x, y) == Idx(n, x', y') {
        IdxInjective(n, x, y, x', y');
      }
    }
  }

  /** The number of cells holding a floating platform. */
  function PlatformCount(s: seq<Tile>): nat
  {
    if s == [] then 0 else (if IsPlatformName(s[0].kind) then 1 else 0) + PlatformCount(s[1..])
  }

  function Indicator(b: bool): nat { if b then 1 else 0 }

  /** Replacing one tile changes the platform count by what left and what arrived. */
  lemma {:induction false} PlatformCountUpdate(s: seq<Tile>, i: nat, t: Tile)
    requires i < |s|
    ensures PlatformCount(s[i := t]) + Indicator(IsPlatformName(s[i].kind))
         == PlatformCount(s) + Indicator(IsPlatformName(t.kind))
  {
    if i > 0 {
      assert s[i := t][1..] == s[1..][i - 1 := t];
      PlatformCountUpdate(s[1..], i - 1, t);
    }
  }
}
