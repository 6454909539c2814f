/** Tile records and the decoding of tile-type names (createTileOfType, Applab.js:22-64),
    together with the names the game builds for water frames and floating platforms. */
module Tiles {

  datatype Option<T> = None | Some(value: T)

  /** A platform direction: 0 right, 1 up, 2 left, 3 down. */
  type Dir = d: nat | d < 4

  /** One grid cell: its type name, whether it was written during the current grid update,
      and, for floating platforms only, the direction the platform travels in. */
  datatype Tile = Tile(kind: string, changed: bool, direction: Option<Dir>)

  const PlatformPrefix: string := "floating_platform"

  /** The direction codes of platform names, indexed by direction. */
  const DirCodes: seq<string> := ["rt", "up", "lt", "dn"]

  /** The four platform kinds the grid update animates, indexed by animation frame. */
  const PlatformKinds: seq<string> :=
    ["floating_platform", "floating_platform_1", "floating_platform_2", "floating_platform_3"]

  /** The four water kinds the grid update animates, indexed by animation frame. */
  const WaterKinds: seq<string> := ["water", "water_1", "water_2", "water_3"]

  /** `s.substring(0, |p|) == p` in the source: a string shorter than `p` never matches. */
  predicate HasPrefix(s: string, p: string)
  {
    |p| <= |s| && s[..|p|] == p
  }

  predicate IsPlatformName(name: string)
  {
    HasPrefix(name, PlatformPrefix)
  }

  /** Any type whose first five characters are "water": what platforms may float onto and
      what drowns the player. */
  predicate IsWaterName(name: string)
  {
    HasPrefix(name, "water")
  }

  /** A name the decoder gives a direction to: a floating-platform name must carry one of the
      four direction codes at characters 18 and 19. */
  predicate WellFormedName(name: string)
  {
    IsPlatformName(name) ==> |name| >= 20 && name[18..20] in DirCodes
  }

  /** A decoded tile carries a direction exactly when its kind is a floating platform. */
  predicate TileOk(t: Tile)
  {
    t.direction.Some? <==> IsPlatformName(t.kind)
  }

  /** The decimal digit of a frame number, as `"" + f` writes it. */
  function Digit(f: nat): (s: string)
    requires f < 10
    ensures |s| == 1 && '0' <= s[0] <= '9'
  {
    [(f + '0' as int) as char]
  }

  function DirOfCode(code: string): (d: Dir)
    requires code in DirCodes
    ensures DirCodes[d] == code
  {
    if code == "rt" then 0 else if code == "up" then 1 else if code == "lt" then 2 else 3
  }

  /** createTileOfType: a fresh tile (changed set) of the given type. A floating-platform name
      keeps only its frame character (index 21) in the kind and moves its direction code into
      the direction field; every other name is kept as it is. */
  function TileOfType(name: string): (t: Tile)
    requires WellFormedName(name)
    ensures t.changed && TileOk(t)
    ensures IsPlatformName(t.kind) == IsPlatformName(name)
    ensures IsPlatformName(name) ==> DirCodes[t.direction.value] == name[18..20]
  {
    if IsPlatformName(name) then
      var kind := if |name| <= 21 then PlatformPrefix else PlatformPrefix + "_" + [name[21]];
      assert kind[..17] == PlatformPrefix;
      Tile(kind, true, Some(DirOfCode(name[18..20])))
    else
      Tile(name, true, None)
  }

  /** The animation frame of a platform kind, read from character 18 (absent means frame 0). */
  function FrameOf(kind: string): int
  {
    if |kind| <= 18 then 0 else kind[18] as int - '0' as int
  }

  /** The name updateFloatingPlatform builds for a platform heading in direction `d` at frame
      `f`: frame 0 has no suffix. */
  function PlatformName(d: Dir, f: nat): (name: string)
    requires f < 10
    ensures IsPlatformName(name) && WellFormedName(name) && name[18..20] == DirCodes[d]
  {
    var name := PlatformPrefix + "_" + DirCodes[d] + (if f == 0 then "" else "_" + Digit(f));
    assert name[..17] == PlatformPrefix && name[18..20] == DirCodes[d];
    name
  }

  /** The name of water at frame `f`: frame 0 has no suffix. */
  function WaterName(f: nat): (name: string)
    requires f < 10
    ensures IsWaterName(name) && !IsPlatformName(name) && WellFormedName(name)
  {
    var name := if f == 0 then "water" else "water_" + Digit(f);
    assert name[..5] == "water";
    name
  }

  /** The inverse of TileOfType on the tiles the game produces: rebuild the type name. */
  function TypeName(t: Tile): (name: string)
    requires TileOk(t)
    requires IsPlatformName(t.kind) ==> t.kind in PlatformKinds
    ensures WellFormedName(name) && IsPlatformName(name) == IsPlatformName(t.kind)
    ensures IsPlatformName(name) ==> name[18..20] == DirCodes[t.direction.value]
  {
    if IsPlatformName(t.kind) then PlatformName(t.direction.value, FrameOf(t.kind)) else t.kind
  }

  /** The animated platform kinds are platform names, not water names, and FrameOf reads
      back the frame each of them stands for. */
  lemma PlatformKindFacts(kind: string)
    requires kind in PlatformKinds
    ensures IsPlatformName(kind) && !IsWaterName(kind)
    ensures |kind| <= 18 || '0' <= kind[18] <= '9'
    ensures 0 <= FrameOf(kind) < 4 && PlatformKinds[FrameOf(kind)] == kind
  {
    assert kind[..17] == PlatformPrefix;
    assert kind[..5] != "water" by { assert kind[0] == 'f'; }
  }

  /** Decoding the name of a platform gives back its direction, and its kind records the
      frame so that FrameOf reads the same frame back. */
  lemma PlatformNameRoundTrip(d: Dir, f: nat)
    requires f < 4
    ensures WellFormedName(PlatformName(d, f))
    ensures TileOfType(PlatformName(d, f)) == Tile(PlatformKinds[f], true, Some(d))
    ensures FrameOf(PlatformKinds[f]) == f
  {
    var name := PlatformName(d, f);
    assert name[..17] == PlatformPrefix;
    assert name[18..20] == DirCodes[d];
    assert DirOfCode(name[18..20]) == d;
    PlatformKindFacts(PlatformKinds[f]);
    if f == 0 {
      assert |name| == 20;
    } else {
      assert |name| == 22 && name[21] == Digit(f)[0];
      assert PlatformPrefix + "_" + [name[21]] == PlatformKinds[f];
    }
  }

  /** Decoding keeps every name that does not start with "floating_platform". */
  lemma OtherNamesKept(name: string)
    requires !IsPlatformName(name)
    ensures WellFormedName(name) && TileOfType(name) == Tile(name, true, None)
  {
  }

  /** Water names are never platform names, and WaterName enumerates WaterKinds. */
  lemma WaterNames(f: nat)
    requires f < 4
    ensures WaterName(f) == WaterKinds[f]
    ensures IsWaterName(WaterName(f)) && !IsPlatformName(WaterName(f))
    ensures WellFormedName(WaterName(f))
  {
    var w := WaterName(f);
    assert w[..5] == "water";
  }

  /** The animated kinds of frame f: the platform kind is a platform name whose frame reads back
      as f, the water kind is a water name and neither is the other. */
  lemma AnimatedKinds(f: nat)
    requires f < 4
    ensures IsPlatformName(PlatformKinds[f]) && !IsWaterName(PlatformKinds[f])
    ensures FrameOf(PlatformKinds[f]) == f
    ensures IsWaterName(WaterKinds[f]) && !IsPlatformName(WaterKinds[f])
    ensures WaterKinds[f] !in PlatformKinds
  {
    PlatformKindFacts(PlatformKinds[f]);
    WaterNames(f);
  }

  /** Encoding then decoding a tile the game produces gives back the same tile. */
  lemma {:induction false} DecodeEncode(t: Tile)
    requires TileOk(t) && t.changed
    requires IsPlatformName(t.kind) ==> t.kind in PlatformKinds
    ensures WellFormedName(TypeName(t)) && TileOfType(TypeName(t)) == t
  {
    if IsPlatformName(t.kind) {
      PlatformKindFacts(t.kind);
      PlatformNameRoundTrip(t.direction.value, FrameOf(t.kind));
    }
  }

  /** Decoding then encoding a canonical platform name gives back the same name. */
  lemma EncodeDecodePlatform(d: Dir, f: nat)
    requires f < 4
    ensures WellFormedName(PlatformName(d, f))
    ensures TileOfType(PlatformName(d, f)).kind in PlatformKinds
    ensures TypeName(TileOfType(PlatformName(d, f))) == PlatformName(d, f)
  {
    PlatformNameRoundTrip(d, f);
  }
}
