/** Level data: the perfect-square test of loadLevel (Applab.js:313-341), the grid a level
    loads into, and the five level tables (Applab.js:345-391). */
module Levels {
  import opened Tiles
  import opened Grid

  /** The largest r with r*r <= m, searched upwards from k. */
  function SqrtFrom(m: nat, k: nat): (r: nat)
    requires k * k <= m
    ensures r * r <= m < (r + 1) * (r + 1)
    decreases m - k
  {
    if (k + 1) * (k + 1) > m then k
    else
      assert k < m by {
        if k >= m && k > 0 {
          MulMono(1, k, k);
        }
      }
      SqrtFrom(m, k + 1)
  }

  /** The integer square root of m. */
  function IntSqrt(m: nat): (r: nat)
    ensures r * r <= m < (r + 1) * (r + 1)
  {
    SqrtFrom(m, 0)
  }

  function Square(k: nat): nat
  {
    k * k
  }

  /** The test of loadLevel: the square root of the level's length is a whole number, which
      holds exactly for the squares of the naturals. */
  function IsSquare(m: nat): (b: bool)
    ensures b <==> exists k: nat :: Square(k) == m
  {
    RootsOf(m);
    assert IntSqrt(m) * IntSqrt(m) == m ==> Square(IntSqrt(m)) == m;
    IntSqrt(m) * IntSqrt(m) == m
  }

  /** Squaring is strictly monotonic on the naturals. */
  lemma SquareMono(a: nat, b: nat)
    requires a < b
    ensures a * a < b * b
  {
    MulMono(a, b, a);
    MulMono(a, b, b);
    assert a * b < b * b;
  }

  /** A natural number has at most one square root among the naturals, and it is IntSqrt's. */
  lemma RootsOf(m: nat)
    ensures forall k: nat :: Square(k) == m ==> k == IntSqrt(m)
  {
    var r := IntSqrt(m);
    forall k: nat | Square(k) == m
      ensures k == r
    {
      if r + 1 < k {
        SquareMono(r + 1, k);
      } else if k < r {
        SquareMono(k, r);
      }
    }
  }

  /** m is a perfect square exactly when some k has k*k == m, and then that k is the side
      loadLevel uses. */
  lemma SquareSide(m: nat, k: nat)
    ensures k * k == m <==> IsSquare(m) && IntSqrt(m) == k
  {
    var r := IntSqrt(m);
    if k * k == m && r != k {
      if r < k {
        if r + 1 < k {
          SquareMono(r + 1, k);
        }
      } else {
        SquareMono(k, r);
      }
    }
  }

  /** Every name of the level can be decoded. */
  predicate LevelOk(level: seq<string>)
  {
    forall i :: 0 <= i < |level| ==> WellFormedName(level[i])
  }

  /** The tile InitializeGrid puts in every cell. */
  const IceTile: Tile := Tile("ice", true, None)

  /** The grid a square level of side n loads into: cell i holds ice where the level has the
      empty string and the decoded tile of the level's name otherwise. */
  function LoadedCells(level: seq<string>, n: nat): (s: seq<Tile>)
    requires LevelOk(level) && |level| == n * n
    ensures GridOk(s, n)
    ensures forall i :: 0 <= i < |s| ==> s[i] == if level[i] == "" then IceTile else TileOfType(level[i])
  {
    seq(n * n, i requires 0 <= i < n * n => if level[i] == "" then IceTile else TileOfType(level[i]))
  }

  const Level1: seq<string> :=
    ["", "", "", ""] +
    ["ice_wall", "water", "floating_platform_lt", ""] +
    ["ice_wall", "water", "water", ""] +
    ["home", "", "", ""]

  const Level2: seq<string> :=
    ["", "", "", ""] +
    ["", "ice_wall", "", "", "home"] +
    ["", "", "", "", ""] +
    ["", "", "", "", ""] +
    ["ice_wall", "ice_wall", "ice_wall", "", ""] +
    [""]

  const Level3: seq<string> :=
    ["", "", "", "", "", "ice_wall", ""] +
    ["ice_wall", "ice_wall", "", "ice_wall", "water", "floating_platform_rt", "water", "water"] +
    ["ice_wall", "", "", "", "home", "", "", ""] +
    ["ice_wall", "", "", "", "ice_wall", "", "", ""] +
    ["", "ice_wall", "ice_wall", "", "", "", "", "ice_wall"] +
    ["", "", "", "", "", "", "", ""] +
    ["", "", "", "", "", "", "", ""] +
    ["", "", "", "", "ice_wall", "", "", ""] +
    ["ice_wall"]

  const Level4: seq<string> :=
    ["", "", "", "ice_ramp_rt", "", "ice_wall", ""] +
    ["", "ice_wall", "ice_wall", "", "", "", "", ""] +
    ["", "", "", "", "home", "", "", ""] +
    ["ice_ramp_up", "", "", "", "ice_wall", "", "", ""] +
    ["", "ice_wall", "", "", "", "", "", "ice_wall"] +
    ["", "", "", "ice_ramp_lt", "", "", "", ""] +
    ["", "ice_ramp_dn", "", "", "", "", "", ""] +
    ["", "", "", "", "ice_wall", "", "", ""] +
    ["ice_wall"]

  const Level5: seq<string> :=
    ["", "ice_ramp_rt", "", "", "", "ice_wall", "", "", ""] +
    ["", "", "", "", "", "", "", "ice_ramp_up", "ice_ramp_up", "ice_ramp_up"] +
    ["", "water", "water", "water", "water", "water", "water", "water", "water", "floating_platform_lt"] +
    ["water", "water", "water", "water", "water", "water", "water", "water", "water", "water"] +
    ["floating_platform_lt", "", "", "", "", "ice_ramp_dn", "", "", "", "ice_ramp_rt"] +
    ["home", "ice_wall", "", "", "", "", "", "", "", ""] +
    ["ice_ramp_up", "", "", "", "", "", "", "", "", ""] +
    ["", "", "", "", "", "", "", "ice_ramp_rt", "", ""] +
    ["ice_wall", "", "", "", "", "ice_wall", "", "", "", ""] +
    ["", "", "", "", "", "", "", "", "", ""] +
    ["ice_wall"]

  /** The levels in the order the game plays them. */
  const AllLevels: seq<seq<string>> := [Level1, Level2, Level3, Level4, Level5]

  /** A level table the game can play: at least one level, and every level a non-empty perfect
      square of decodable names. */
  predicate TableOk(levels: seq<seq<string>>)
  {
    |levels| > 0 &&
    forall i :: 0 <= i < |levels| ==> LevelOk(levels[i]) && |levels[i]| > 0 && IsSquare(|levels[i]|)
  }

  /** A name the level tables use: shorter than "floating_platform", or one of the two
      platform names that occur. */
  predicate TableName(name: string)
  {
    |name| < 17 || name == "floating_platform_lt" || name == "floating_platform_rt"
  }

  lemma TableNamesDecode(level: seq<string>)
    requires forall i :: 0 <= i < |level| ==> TableName(level[i])
    ensures LevelOk(level)
  {
    forall i | 0 <= i < |level|
      ensures WellFormedName(level[i])
    {
      var name := level[i];
      if |name| >= 17 {
        assert name[..17] == PlatformPrefix;
        if name == "floating_platform_lt" {
          assert name[18..20] == DirCodes[2];
        } else {
          assert name[18..20] == DirCodes[0];
        }
      }
    }
  }

  lemma Level1Decodes()
    ensures LevelOk(Level1)
  {
    assert forall i | 0 <= i < |Level1| :: TableName(Level1[i]);
    TableNamesDecode(Level1);
  }

  lemma Level2Decodes()
    ensures LevelOk(Level2)
  {
    assert forall i | 0 <= i < |Level2| :: TableName(Level2[i]);
    TableNamesDecode(Level2);
  }

  lemma Level3Decodes()
    ensures LevelOk(Level3)
  {
    assert forall i | 0 <= i < |Level3| :: TableName(Level3[i]);
    TableNamesDecode(Level3);
  }

  lemma Level4Decodes()
    ensures LevelOk(Level4)
  {
    assert forall i | 0 <= i < |Level4| :: TableName(Level4[i]);
    TableNamesDecode(Level4);
  }

  lemma Level5NamesFrom0()
    ensures forall i | 0 <= i < 25 :: TableName(Level5[i])
  {
  }

  lemma Level5NamesFrom25()
    ensures forall i | 25 <= i < 50 :: TableName(Level5[i])
  {
  }

  lemma Level5NamesFrom50()
    ensures forall i | 50 <= i < 75 :: TableName(Level5[i])
  {
  }

  lemma Level5NamesFrom75()
    ensures forall i | 75 <= i < |Level5| :: TableName(Level5[i])
  {
  }

  lemma Level5Decodes()
    ensures LevelOk(Level5)
  {
    Level5NamesFrom0();
    Level5NamesFrom25();
    Level5NamesFrom50();
    Level5NamesFrom75();
    TableNamesDecode(Level5);
  }

  /** The five levels are 4x4, 5x5, 8x8, 8x8 and 10x10 grids of decodable names. */
  lemma LevelSizes()
    ensures |AllLevels| == 5
    ensures |Level1| == 16 && |Level2| == 25 && |Level3| == 64 && |Level4| == 64 && |Level5| == 100
    ensures IntSqrt(|Level1|) == 4 && IntSqrt(|Level2|) == 5 && IntSqrt(|Level3|) == 8
    ensures IntSqrt(|Level4|) == 8 && IntSqrt(|Level5|) == 10
    ensures TableOk(AllLevels)
  {
    SquareSide(16, 4);
    SquareSide(25, 5);
    SquareSide(64, 8);
    SquareSide(100, 10);
    Level1Decodes();
    Level2Decodes();
    Level3Decodes();
    Level4Decodes();
    Level5Decodes();
  }
}
