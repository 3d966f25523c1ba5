/**
 * The legacy client map (`entities/Map.js`): a fixed 50 x 50 grid of 64-pixel
 * tiles that the client generates itself, then queries for walls, terrain
 * speed and a spawn point. `Math.random()` is an input here: `rand(k)` is
 * the k-th value it returns, a real in [0, 1).
 */
module LegacyMap {
  import opened Common
  import opened Tiles

  /** A stream of `Math.random()` results. */
  ghost predicate IsUnitStream(rand: nat -> real)
  {
    forall k :: 0.0 <= rand(k) < 1.0
  }

  /** `Math.floor(r * span)` for a draw r in [0, 1): an offset in [0, span), or 0 when span is 0. */
  function DrawOffset(r: real, span: nat): (n: int)
    requires 0.0 <= r < 1.0
    ensures span == 0 ==> n == 0
    ensures span > 0 ==> 0 <= n < span
  {
    MulUnitBelow(r, span);
    (r * span as real).Floor
  }

  lemma MulUnitBelow(r: real, span: nat)
    requires 0.0 <= r < 1.0
    ensures 0.0 <= r * span as real
    ensures span > 0 ==> r * span as real < span as real
  {
    if span > 0 {
      assert (1.0 - r) * span as real > 0.0;
    }
  }

  /**
   * `tryPlaceStructure(type, width, height)` with its two draws passed in:
   * pick the top-left cell, then stamp the footprint only if all of it is
   * grass. The footprint always fits the grid.
   */
  method TryPlaceStructure(data: array2<int>, kind: int, width: nat, height: nat, rx: real, ry: real)
    returns (placed: bool)
    requires data.Length0 == WIDTH_TILES && data.Length1 == HEIGHT_TILES
    requires width <= WIDTH_TILES && height <= HEIGHT_TILES
    requires 0.0 <= rx < 1.0 && 0.0 <= ry < 1.0
    modifies data
    ensures var x, y := DrawOffset(rx, WIDTH_TILES - width), DrawOffset(ry, HEIGHT_TILES - height);
      && (placed <==> old(AllGrass(data, x, y, width, height)))
      && forall i, j :: 0 <= i < WIDTH_TILES && 0 <= j < HEIGHT_TILES ==>
           data[i, j] == (if placed && InFootprint(i, j, x, y, width, height) then kind else old(data[i, j]))
  {
    var x := DrawOffset(rx, WIDTH_TILES - width);
    var y := DrawOffset(ry, HEIGHT_TILES - height);
    placed := StampIfGrass(data, kind, x, y, width, height);
  }

  /**
   * One `MAP_CONFIG.X.forEach(conf => ...)`: for each configuration, retry
   * placement until `count` structures are down or 1000 attempts are used.
   * `next` is the index of the next unused draw; each attempt uses two.
   */
  method PlaceConfigs(data: array2<int>, kind: int, configs: seq<StructureConfig>,
                      rand: nat -> real, next: nat)
    returns (next': nat, placedCounts: seq<nat>, attemptCounts: seq<nat>)
    requires WellFormed(data) && IsTileId(kind) && IsUnitStream(rand)
    requires forall c :: c in configs ==> 1 <= c.width < WIDTH_TILES && 1 <= c.height < HEIGHT_TILES
    modifies data
    ensures WellFormed(data)
    ensures |placedCounts| == |attemptCounts| == |configs|
    ensures forall n :: 0 <= n < |configs| ==>
      && placedCounts[n] <= configs[n].count && attemptCounts[n] <= MAX_ATTEMPTS
      && placedCounts[n] <= attemptCounts[n]
      && (placedCounts[n] == configs[n].count || attemptCounts[n] == MAX_ATTEMPTS)
    ensures forall i, j :: 0 <= i < WIDTH_TILES && 0 <= j < HEIGHT_TILES && old(data[i, j]) != GRASS ==>
      data[i, j] == old(data[i, j])
  {
    next', placedCounts, attemptCounts := next, [], [];
    for n := 0 to |configs|
      invariant WellFormed(data)
      invariant |placedCounts| == |attemptCounts| == n
      invariant forall m :: 0 <= m < n ==>
        && placedCounts[m] <= configs[m].count && attemptCounts[m] <= MAX_ATTEMPTS
        && placedCounts[m] <= attemptCounts[m]
        && (placedCounts[m] == configs[m].count || attemptCounts[m] == MAX_ATTEMPTS)
      invariant forall i, j :: 0 <= i < WIDTH_TILES && 0 <= j < HEIGHT_TILES && old(data[i, j]) != GRASS ==>
        data[i, j] == old(data[i, j])
    {
      var conf := configs[n];
      assert conf in configs;
      var placed, attempts := 0, 0;
      while placed < conf.count && attempts < MAX_ATTEMPTS
        invariant WellFormed(data)
        invariant placed <= conf.count && attempts <= MAX_ATTEMPTS && placed <= attempts
        invariant forall i, j :: 0 <= i < WIDTH_TILES && 0 <= j < HEIGHT_TILES && old(data[i, j]) != GRASS ==>
          data[i, j] == old(data[i, j])
      {
        var ok := TryPlaceStructure(data, kind, conf.width, conf.height, rand(next'), rand(next' + 1));
        next' := next' + 2;
        if ok {
          placed := placed + 1;
        }
        attempts := attempts + 1;
      }
      placedCounts := placedCounts + [placed];
      attemptCounts := attemptCounts + [attempts];
    }
  }

  /**
   * `generateMapData()`: an all-grass 50 x 50 grid, then lakes, rocks and
   * forests in that order. The result holds only tile ids, and no structure
   * covers an earlier one.
   */
  method GenerateMapData(rand: nat -> real) returns (data: array2<int>)
    requires IsUnitStream(rand)
    ensures fresh(data)
    ensures WellFormed(data)
  {
    data := new int[WIDTH_TILES, HEIGHT_TILES]((i, j) => GRASS);
    var next := 0;
    var placed, attempts;
    next, placed, attempts := PlaceConfigs(data, WATER, LAKES, rand, next);
    next, placed, attempts := PlaceConfigs(data, ROCK, ROCKS, rand, next);
    next, placed, attempts := PlaceConfigs(data, TREE, FORESTS, rand, next);
  }

  /** The world coordinate of the centre of a cell. */
  function CellCentre(col: int, row: int): (real, real)
  {
    (col as real * TILE_SIZE + TILE_SIZE / 2.0, row as real * TILE_SIZE + TILE_SIZE / 2.0)
  }

  class LegacyMap {
    const mapData: array2<int>

    ghost predicate Valid()
      reads mapData
    {
      WellFormed(mapData)
    }

    /** The constructor generates the grid (sprite creation is not modelled). */
    constructor (rand: nat -> real)
      requires IsUnitStream(rand)
      ensures Valid() && fresh(mapData)
    {
      var data := GenerateMapData(rand);
      mapData := data;
    }

    /** `worldWidth`, `worldHeight`: 50 tiles of 64 pixels. */
    function WorldWidth(): real { WIDTH_TILES as real * TILE_SIZE }
    function WorldHeight(): real { HEIGHT_TILES as real * TILE_SIZE }

    /** `isSolid(type)`: trees and rocks are walls. */
    predicate IsSolid(t: int)
    {
      t == TREE || t == ROCK
    }

    predicate InBounds(col: int, row: int)
    {
      0 <= col < WIDTH_TILES && 0 <= row < HEIGHT_TILES
    }

    /** The cell index of a world coordinate, `Math.floor(p / tileSize)`. */
    function TileIndex(p: real): int
    {
      (p / TILE_SIZE).Floor
    }

    /** The `isPointSolid` helper inside `checkCollision`: out of bounds is a wall. */
    predicate IsPointSolid(px: real, py: real)
      requires Valid()
      reads mapData
    {
      var col := TileIndex(px);
      var row := TileIndex(py);
      if col < 0 || col >= WIDTH_TILES || row < 0 || row >= HEIGHT_TILES then true
      else IsSolid(mapData[col, row])
    }

    /** A probed point lies in an out-of-bounds or solid cell. */
    predicate CornerBlocked(c: (real, real))
      requires Valid()
      reads mapData
    {
      !InBounds(TileIndex(c.0), TileIndex(c.1)) || IsSolidId(mapData[TileIndex(c.0), TileIndex(c.1)])
    }

    /** `checkCollision(x, y, width, height)`: true iff one of the four padded corners is in an
        out-of-bounds or solid cell. */
    function CheckCollision(x: real, y: real, width: real, height: real): (hit: bool)
      requires Valid()
      reads mapData
      ensures hit <==> exists k :: 0 <= k < 4 && CornerBlocked(PaddedCorners(x, y, width, height)[k])
    {
      var left := x + PADDING;
      var right := x + width - PADDING;
      var top := y + PADDING;
      var bottom := y + height - PADDING;
      var cs := PaddedCorners(x, y, width, height);
      assert cs[0] == (left, top) && cs[1] == (right, top) && cs[2] == (left, bottom) && cs[3] == (right, bottom);
      if IsPointSolid(left, top) then true
      else if IsPointSolid(right, top) then true
      else if IsPointSolid(left, bottom) then true
      else if IsPointSolid(right, bottom) then true
      else false
    }

    /** `getTerrainSpeedMultiplier(x, y)`: 0.5 on water, 1.0 elsewhere, out of bounds included. */
    function GetTerrainSpeedMultiplier(x: real, y: real): (m: real)
      requires Valid()
      reads mapData
      ensures m == 0.5 || m == 1.0
      ensures m == 0.5 <==> InBounds(TileIndex(x), TileIndex(y)) && mapData[TileIndex(x), TileIndex(y)] == WATER
    {
      var col := TileIndex(x);
      var row := TileIndex(y);
      if col < 0 || col >= WIDTH_TILES || row < 0 || row >= HEIGHT_TILES then 1.0
      else if mapData[col, row] == WATER then 0.5
      else 1.0
    }

    /** The cell the k-th spawn attempt looks at, from draws 2k and 2k+1. */
    function SpawnCell(rand: nat -> real, k: nat): (cell: (nat, nat))
      requires IsUnitStream(rand)
      ensures cell.0 < WIDTH_TILES && cell.1 < HEIGHT_TILES
    {
      (DrawOffset(rand(2 * k), WIDTH_TILES), DrawOffset(rand(2 * k + 1), HEIGHT_TILES))
    }

    /** What `getValidSpawnPoint` returns once attempts 0..k-1 have all hit walls. */
    ghost function SpawnFrom(rand: nat -> real, k: nat): (real, real)
      requires Valid() && IsUnitStream(rand)
      reads mapData
      decreases MAX_ATTEMPTS - k
    {
      if k >= MAX_ATTEMPTS then (0.0, 0.0)
      else
        var cell := SpawnCell(rand, k);
        if !IsSolid(mapData[cell.0, cell.1]) then CellCentre(cell.0, cell.1)
        else SpawnFrom(rand, k + 1)
    }

    /** `getValidSpawnPoint()`: up to 1000 random cells; the centre of the first walkable one,
        or the fallback (0, 0). */
    method GetValidSpawnPoint(rand: nat -> real) returns (x: real, y: real)
      requires Valid() && IsUnitStream(rand)
      ensures (x, y) == SpawnFrom(rand, 0)
    {
      var attempts := 0;
      while attempts < MAX_ATTEMPTS
        invariant 0 <= attempts <= MAX_ATTEMPTS
        invariant SpawnFrom(rand, attempts) == SpawnFrom(rand, 0)
      {
        var gridX := DrawOffset(rand(2 * attempts), WIDTH_TILES);
        var gridY := DrawOffset(rand(2 * attempts + 1), HEIGHT_TILES);
        var t := mapData[gridX, gridY];
        if !IsSolid(t) {
          return gridX as real * TILE_SIZE + TILE_SIZE / 2.0, gridY as real * TILE_SIZE + TILE_SIZE / 2.0;
        }
        attempts := attempts + 1;
      }
      return 0.0, 0.0;
    }

    /** The spawn search is safe: it yields the centre of a walkable cell, or (0, 0) only after
        every one of the remaining attempts has drawn a wall. */
    lemma {:induction false} SpawnIsWalkable(rand: nat -> real, k: nat)
      requires Valid() && IsUnitStream(rand)
      decreases MAX_ATTEMPTS - k
      ensures SpawnFrom(rand, k) == (0.0, 0.0) ==>
        forall k' :: k <= k' < MAX_ATTEMPTS ==> IsSolid(mapData[SpawnCell(rand, k').0, SpawnCell(rand, k').1])
      ensures SpawnFrom(rand, k) != (0.0, 0.0) ==>
        exists col, row :: 0 <= col < WIDTH_TILES && 0 <= row < HEIGHT_TILES && !IsSolid(mapData[col, row])
                           && SpawnFrom(rand, k) == CellCentre(col, row)
    {
      if k < MAX_ATTEMPTS {
        var cell := SpawnCell(rand, k);
        if IsSolid(mapData[cell.0, cell.1]) {
          SpawnIsWalkable(rand, k + 1);
          if SpawnFrom(rand, k) == (0.0, 0.0) {
            forall k' | k <= k' < MAX_ATTEMPTS
              ensures IsSolid(mapData[SpawnCell(rand, k').0, SpawnCell(rand, k').1])
            {
              if k' > k {
                assert k + 1 <= k';
              }
            }
          }
        } else {
          assert CellCentre(cell.0, cell.1).0 >= TILE_SIZE / 2.0;
        }
      }
    }
  }
}
