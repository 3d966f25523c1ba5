/**
 * What the three tile-grid implementations share: the integer tile ids, the
 * 5-pixel padded corners a collision test probes, and the in-place rule of
 * the two map generators that stamps a rectangular structure on the grid
 * only when every cell of its footprint is still grass.
 */
module Tiles {

  const GRASS: int := 0
  const WATER: int := 1
  const TREE: int := 2
  const ROCK: int := 3

  /** The ids a generated map may hold. */
  predicate IsTileId(t: int) { t == GRASS || t == WATER || t == TREE || t == ROCK }

  /** Trees and rocks are walls; grass and water can be walked on. */
  predicate IsSolidId(t: int) { t == TREE || t == ROCK }

  /** Inward padding of a collision box, so that entities slip through tile-aligned gaps. */
  const PADDING: real := 5.0

  /** The four corners of the box at (x, y) of size w x h, each moved PADDING inside:
      top-left, top-right, bottom-left, bottom-right, in the order the sources probe them. */
  function PaddedCorners(x: real, y: real, w: real, h: real): (cs: seq<(real, real)>)
    ensures |cs| == 4
    ensures forall i :: 0 <= i < 4 ==> cs[i].0 == x + PADDING || cs[i].0 == x + w - PADDING
    ensures forall i :: 0 <= i < 4 ==> cs[i].1 == y + PADDING || cs[i].1 == y + h - PADDING
  {
    [(x + PADDING, y + PADDING), (x + w - PADDING, y + PADDING),
     (x + PADDING, y + h - PADDING), (x + w - PADDING, y + h - PADDING)]
  }

  // ---------------------------------------------------------------------------
  // Stamping a structure
  // ---------------------------------------------------------------------------

  predicate InFootprint(i: int, j: int, x: int, y: int, w: int, h: int)
  {
    x <= i < x + w && y <= j < y + h
  }

  /** Every cell of the w x h footprint at (x, y) holds grass. */
  ghost predicate AllGrass(a: array2<int>, x: nat, y: nat, w: nat, h: nat)
    requires x + w <= a.Length0 && y + h <= a.Length1
    reads a
  {
    forall i, j :: InFootprint(i, j, x, y, w, h) ==> a[i, j] == GRASS
  }

  /** Every cell of the grid holds one of the four tile ids. */
  ghost predicate AllTileIds(a: array2<int>)
    reads a
  {
    forall i, j :: 0 <= i < a.Length0 && 0 <= j < a.Length1 ==> IsTileId(a[i, j])
  }

  /**
   * The body shared by `tryPlaceStructure` in both generators, once the
   * position has been drawn: test the footprint, and only if all of it is
   * grass, overwrite it with `kind`. Nothing outside the footprint changes,
   * and on failure nothing changes at all.
   */
  method StampIfGrass(a: array2<int>, kind: int, x: nat, y: nat, w: nat, h: nat) returns (placed: bool)
    requires x + w <= a.Length0 && y + h <= a.Length1
    modifies a
    ensures placed <==> old(AllGrass(a, x, y, w, h))
    ensures forall i, j :: 0 <= i < a.Length0 && 0 <= j < a.Length1 ==>
      a[i, j] == (if placed && InFootprint(i, j, x, y, w, h) then kind else old(a[i, j]))
  {
    // Check that the area is clear.
    var i := 0;
    while i < w
      invariant 0 <= i <= w
      invariant forall i', j :: x <= i' < x + i && y <= j < y + h ==> a[i', j] == GRASS
    {
      var col, j := x + i, 0;
      while j < h
        invariant 0 <= j <= h
        invariant forall i', j' :: x <= i' < x + i && y <= j' < y + h ==> a[i', j'] == GRASS
        invariant forall j' :: y <= j' < y + j ==> a[col, j'] == GRASS
      {
        if a[col, y + j] != GRASS {
          assert InFootprint(col, y + j, x, y, w, h);
          return false;
        }
        j := j + 1;
      }
      i := i + 1;
    }
    assert AllGrass(a, x, y, w, h);

    // Stamp the structure.
    i := 0;
    while i < w
      invariant 0 <= i <= w
      invariant forall i', j :: 0 <= i' < a.Length0 && 0 <= j < a.Length1 ==>
        a[i', j] == (if InFootprint(i', j, x, y, i, h) then kind else old(a[i', j]))
    {
      var j := 0;
      while j < h
        invariant 0 <= j <= h
        invariant forall i', j' :: 0 <= i' < a.Length0 && 0 <= j' < a.Length1 ==>
          a[i', j'] == (if InFootprint(i', j', x, y, i, h) || (i' == x + i && y <= j' < y + j)
                        then kind else old(a[i', j']))
      {
        a[x + i, y + j] := kind;
        j := j + 1;
      }
      i := i + 1;
    }
    return true;
  }

  // ---------------------------------------------------------------------------
  // The generated world
  // ---------------------------------------------------------------------------

  /** The generated world has 50 x 50 tiles of 64 pixels; a structure gets at most 1000 attempts. */
  const TILE_SIZE: real := 64.0
  const WIDTH_TILES: nat := 50
  const HEIGHT_TILES: nat := 50
  const MAX_ATTEMPTS: nat := 1000
  const LAST_COL: nat := 49
  const LAST_ROW: nat := 49

  /** One structure configuration of the generators: place `count` structures of `width` x `height` cells. */
  datatype StructureConfig = StructureConfig(width: nat, height: nat, count: nat)

  const LAKES: seq<StructureConfig> :=
    [StructureConfig(2, 2, 15), StructureConfig(4, 2, 10), StructureConfig(4, 3, 5)]
  const ROCKS: seq<StructureConfig> := [StructureConfig(1, 1, 40), StructureConfig(2, 2, 15)]
  const FORESTS: seq<StructureConfig> := [StructureConfig(1, 1, 70), StructureConfig(2, 2, 20)]

  /** Structures never reach the last column or row: both generators draw the left column of a
      structure in [0, 50 - width), so x + width < 50 and column 49 (likewise row 49) stays grass. */
  ghost predicate LastLinesGrass(a: array2<int>)
    reads a
    requires a.Length0 == WIDTH_TILES && a.Length1 == HEIGHT_TILES
  {
    && (forall j :: 0 <= j < HEIGHT_TILES ==> a[LAST_COL, j] == GRASS)
    && (forall i :: 0 <= i < WIDTH_TILES ==> a[i, LAST_ROW] == GRASS)
  }

  /** The invariant generation keeps: every cell holds a tile id and the last lines are grass. */
  ghost predicate WellFormed(a: array2<int>)
    reads a
  {
    a.Length0 == WIDTH_TILES && a.Length1 == HEIGHT_TILES && AllTileIds(a) && LastLinesGrass(a)
  }
}
