/**
 * The server's world map (`WorldMapService`): it owns the authoritative
 * 50 x 50 grid, generates it once at start-up and answers the collision and
 * terrain queries of the server systems. `Random.nextInt(bound)` is an input:
 * the k-th call returns `rng(k) % bound`, which covers every outcome sequence.
 */
module WorldMapService {
  import opened Common
  import opened Tiles

  /** `random.nextInt(bound)` for the draw `v`: a value in [0, bound). */
  function NextInt(v: nat, bound: nat): (n: nat)
    requires bound > 0
    ensures n < bound
  {
    v % bound
  }

  /** `(int) Math.floor(p / TILE_SIZE)`: the cell index; the cast saturates at the int range. */
  function TileIndex(p: real): int
  {
    var f := (p / TILE_SIZE).Floor;
    if f > INT_MAX then INT_MAX else if f < INT_MIN then INT_MIN else f
  }

  /** The cell index is Java's `(int)` cast of the floored quotient, hence an int. */
  lemma TileIndexIsIntCast(p: real)
    ensures TileIndex(p) == JavaIntCast((p / TILE_SIZE).Floor as real)
    ensures IsInt32(TileIndex(p))
  {
  }

  /** `isSolid(type)`: trees and rocks are walls. */
  predicate IsSolid(t: int)
  {
    t == TREE || t == ROCK
  }

  /** `isOutOfBounds(col, row)`. */
  predicate IsOutOfBounds(col: int, row: int)
  {
    col < 0 || col >= WIDTH_TILES || row < 0 || row >= HEIGHT_TILES
  }

  class WorldMapService {
    /** `mapData[x][y]`, a final 50 x 50 matrix. */
    const mapData: array2<int>

    ghost predicate Valid()
    {
      mapData.Length0 == WIDTH_TILES && mapData.Length1 == HEIGHT_TILES
    }

    /** Field initialisation: a Java `int[][]` starts out all zero, which is grass. */
    constructor ()
      ensures Valid() && fresh(mapData)
      ensures forall i, j :: 0 <= i < WIDTH_TILES && 0 <= j < HEIGHT_TILES ==> mapData[i, j] == GRASS
    {
      mapData := new int[WIDTH_TILES, HEIGHT_TILES]((i, j) => 0);
    }

    /** `init()`: the start-up hook, which generates the map (its logging is not modelled). */
    method Init(rng: nat -> nat)
      requires Valid()
      modifies mapData
      ensures WellFormed(mapData)
    {
      GenerateMapData(rng);
    }

    /** `getMapData()`: the matrix itself, shared with the caller. */
    function GetMapData(): (a: array2<int>)
      ensures a == mapData
    {
      mapData
    }

    /** `generateMapData()`: reset every cell to grass, then place lakes, rocks and forests. */
    method GenerateMapData(rng: nat -> nat)
      requires Valid()
      modifies mapData
      ensures WellFormed(mapData)
    {
      for i := 0 to WIDTH_TILES
        invariant forall i', j :: 0 <= i' < i && 0 <= j < HEIGHT_TILES ==> mapData[i', j] == GRASS
      {
        for j := 0 to HEIGHT_TILES
          invariant forall i', j' :: 0 <= i' < i && 0 <= j' < HEIGHT_TILES ==> mapData[i', j'] == GRASS
          invariant forall j' :: 0 <= j' < j ==> mapData[i, j'] == GRASS
        {
          mapData[i, j] := GRASS;
        }
      }
      var next := 0;
      var placed, attempts;
      next, placed, attempts := PlaceStructures(WATER, LAKES, rng, next);
      next, placed, attempts := PlaceStructures(ROCK, ROCKS, rng, next);
      next, placed, attempts := PlaceStructures(TREE, FORESTS, rng, next);
    }

    /** `placeStructures(type, configs)`: for each configuration, retry until `count` structures
        are down or 1000 attempts are used. `next` is the index of the next unused draw;
        `placedCounts` and `attemptCounts` report, per configuration, where its loop stopped. */
    method PlaceStructures(kind: int, configs: seq<StructureConfig>, rng: nat -> nat, next: nat)
      returns (next': nat, placedCounts: seq<nat>, attemptCounts: seq<nat>)
      requires WellFormed(mapData) && IsTileId(kind)
      requires forall c :: c in configs ==> 1 <= c.width < WIDTH_TILES && 1 <= c.height < HEIGHT_TILES
      modifies mapData
      ensures WellFormed(mapData)
      ensures next' >= next
      ensures |placedCounts| == |attemptCounts| == |configs|
      ensures forall n :: 0 <= n < |configs| ==>
        && placedCounts[n] <= configs[n].count && attemptCounts[n] <= MAX_ATTEMPTS
        && placedCounts[n] <= attemptCounts[n]
        && (placedCounts[n] == configs[n].count || attemptCounts[n] == MAX_ATTEMPTS)
      ensures forall i, j :: 0 <= i < WIDTH_TILES && 0 <= j < HEIGHT_TILES && old(mapData[i, j]) != GRASS ==>
        mapData[i, j] == old(mapData[i, j])
    {
      next', placedCounts, attemptCounts := next, [], [];
      for n := 0 to |configs|
        invariant WellFormed(mapData) && next' >= next
        invariant |placedCounts| == |attemptCounts| == n
        invariant forall m :: 0 <= m < n ==>
          && placedCounts[m] <= configs[m].count && attemptCounts[m] <= MAX_ATTEMPTS
          && placedCounts[m] <= attemptCounts[m]
          && (placedCounts[m] == configs[m].count || attemptCounts[m] == MAX_ATTEMPTS)
        invariant forall i, j :: 0 <= i < WIDTH_TILES && 0 <= j < HEIGHT_TILES && old(mapData[i, j]) != GRASS ==>
          mapData[i, j] == old(mapData[i, j])
      {
        var conf := configs[n];
        assert conf in configs;
        var placed, attempts := 0, 0;
        while placed < conf.count && attempts < MAX_ATTEMPTS
          invariant WellFormed(mapData) && next' >= next
          invariant placed <= conf.count && attempts <= MAX_ATTEMPTS && placed <= attempts
          invariant forall i, j :: 0 <= i < WIDTH_TILES && 0 <= j < HEIGHT_TILES && old(mapData[i, j]) != GRASS ==>
            mapData[i, j] == old(mapData[i, j])
        {
          var ok := TryPlaceStructure(kind, conf.width, conf.height, rng(next'), rng(next' + 1));
          next' := next' + 2;
          if ok {
            placed := placed + 1;
          }
          attempts := attempts + 1;
        }
        placedCounts := placedCounts + [placed];
        attemptCounts := attemptCounts + [attempts];
      }
    }

    /** `tryPlaceStructure(type, width, height)` with its two draws passed in. `nextInt` rejects a
        bound of zero, so a structure must be narrower and shorter than the map. */
    method TryPlaceStructure(kind: int, width: nat, height: nat, vx: nat, vy: nat) returns (placed: bool)
      requires Valid()
      requires width < WIDTH_TILES && height < HEIGHT_TILES
      modifies mapData
      ensures var x, y := NextInt(vx, WIDTH_TILES - width), NextInt(vy, HEIGHT_TILES - height);
        && x + width < WIDTH_TILES && y + height < HEIGHT_TILES
        && (placed <==> old(AllGrass(mapData, x, y, width, height)))
        && forall i, j :: 0 <= i < WIDTH_TILES && 0 <= j < HEIGHT_TILES ==>
             mapData[i, j] == (if placed && InFootprint(i, j, x, y, width, height) then kind else old(mapData[i, j]))
    {
      var x := NextInt(vx, WIDTH_TILES - width);
      var y := NextInt(vy, HEIGHT_TILES - height);
      placed := StampIfGrass(mapData, kind, x, y, width, height);
    }

    /** `isPointSolid(px, py)`: the world border is solid. */
    predicate IsPointSolid(px: real, py: real)
      requires Valid()
      reads mapData
    {
      var col := TileIndex(px);
      var row := TileIndex(py);
      if IsOutOfBounds(col, row) then true else IsSolid(mapData[col, row])
    }

    /** `checkCollision(x, y, width, height)`: true iff one of the four padded corners is solid. */
    function CheckCollision(x: real, y: real, width: real, height: real): (hit: bool)
      requires Valid()
      reads mapData
    {
      var padding := 5.0;
      var left := x + padding;
      var right := x + width - padding;
      var top := y + padding;
      var bottom := y + height - padding;
      if IsPointSolid(left, top) then true
      else if IsPointSolid(right, top) then true
      else if IsPointSolid(left, bottom) then true
      else if IsPointSolid(right, bottom) then true
      else false
    }

    /** A box collides exactly when one of its four padded corners is solid. */
    lemma {:induction false} CollisionMeansSolidCorner(x: real, y: real, width: real, height: real)
      requires Valid()
      ensures CheckCollision(x, y, width, height) <==>
        exists k :: 0 <= k < 4 && IsPointSolid(PaddedCorners(x, y, width, height)[k].0,
                                               PaddedCorners(x, y, width, height)[k].1)
    {
      var cs := PaddedCorners(x, y, width, height);
      assert cs[0] == (x + PADDING, y + PADDING) && cs[1] == (x + width - PADDING, y + PADDING);
      assert cs[2] == (x + PADDING, y + height - PADDING) && cs[3] == (x + width - PADDING, y + height - PADDING);
    }

    /** `getTerrainSpeedMultiplier(worldX, worldY)`: 0.5 on water, 1.0 elsewhere. */
    function GetTerrainSpeedMultiplier(worldX: real, worldY: real): (m: real)
      requires Valid()
      reads mapData
      ensures m == 0.5 || m == 1.0
      ensures m == 0.5 <==> !IsOutOfBounds(TileIndex(worldX), TileIndex(worldY))
                            && mapData[TileIndex(worldX), TileIndex(worldY)] == WATER
    {
      var col := TileIndex(worldX);
      var row := TileIndex(worldY);
      if IsOutOfBounds(col, row) then 1.0
      else if mapData[col, row] == WATER then 0.5
      else 1.0
    }
  }
}
