/**
 * The client's tile-grid physics (`MapPhysics`): read-only queries over the
 * grid the server sends, indexed `mapData[column][row]`. World coordinates
 * map to a cell by floor division by the tile size; cells outside the grid
 * are walls; a NaN coordinate is a wall too.
 *
 * The grid may be ragged (a column shorter than the first): reading past the
 * end of a column yields JavaScript's `undefined`, modelled as `None`.
 */
module MapPhysics {
  import opened Common
  import opened Tiles

  type PositiveReal = r: real | r > 0.0 witness 1.0

  /** A JavaScript number as these queries see it: NaN or a finite value. */
  datatype Coord = NaN | Num(v: real)

  datatype MapPhysics = MapPhysics(mapData: seq<seq<int>>, tileSize: PositiveReal)
  {
    /** `widthInTiles`: the number of columns. */
    function WidthInTiles(): nat { |mapData| }

    /** `heightInTiles`: the length of the first column, 0 for an empty grid. */
    function HeightInTiles(): nat { if |mapData| == 0 then 0 else |mapData[0]| }

    predicate InBounds(col: int, row: int)
    {
      0 <= col < WidthInTiles() && 0 <= row < HeightInTiles()
    }

    /** The value stored at an in-bounds cell; `None` when its column is too short (`undefined`). */
    function Cell(col: int, row: int): Option<int>
      requires InBounds(col, row)
    {
      if row < |mapData[col]| then Some(mapData[col][row]) else None
    }

    /** The cell index of a finite world coordinate. */
    function TileIndex(v: real): int
    {
      (v / tileSize).Floor
    }

    /** `Math.floor(v / tileSize)`, which stays NaN for a NaN coordinate. */
    function TileIndexOf(c: Coord): Option<int>
    {
      match c
      case NaN => None
      case Num(v) => Some(TileIndex(v))
    }

    /** `getTileType(x, y)`: -1 outside the grid, otherwise what the cell holds. */
    function GetTileType(x: int, y: int): (t: Option<int>)
      ensures !InBounds(x, y) ==> t == Some(-1)
      ensures InBounds(x, y) ==> t == Cell(x, y)
    {
      if x < 0 || x >= WidthInTiles() || y < 0 || y >= HeightInTiles() then Some(-1)
      else if y < |mapData[x]| then Some(mapData[x][y])
      else None
    }

    /** `isPointSolid(x, y)`: fails safe, so NaN, out-of-bounds and undefined cells are all walls. */
    function IsPointSolid(x: Coord, y: Coord): (solid: bool)
      ensures x.NaN? || y.NaN? ==> solid
      ensures x.Num? && y.Num? && !InBounds(TileIndex(x.v), TileIndex(y.v)) ==> solid
      ensures x.Num? && y.Num? && InBounds(TileIndex(x.v), TileIndex(y.v)) ==>
        (solid <==> match Cell(TileIndex(x.v), TileIndex(y.v))
                    case None => true
                    case Some(t) => IsSolidId(t))
    {
      if x.NaN? || y.NaN? then true
      else
        var tileX := TileIndex(x.v);
        var tileY := TileIndex(y.v);
        if tileX < 0 || tileX >= WidthInTiles() || tileY < 0 || tileY >= HeightInTiles() then true
        else if tileY >= |mapData[tileX]| then true
        else
          var t := mapData[tileX][tileY];
          t == TREE || t == ROCK
    }

    /** Solidity of a finite point, the form the corner tests use. */
    predicate SolidAt(p: (real, real))
    {
      IsPointSolid(Num(p.0), Num(p.1))
    }

    /** `checkCollision(x, y, w, h)`: a NaN origin collides; otherwise the box collides exactly
        when one of its four padded corners is solid. */
    function CheckCollision(x: Coord, y: Coord, width: real, height: real): (hit: bool)
      ensures x.NaN? || y.NaN? ==> hit
    {
      if x.NaN? || y.NaN? then true
      else
        var left := x.v + PADDING;
        var right := x.v + width - PADDING;
        var top := y.v + PADDING;
        var bottom := y.v + height - PADDING;
        if IsPointSolid(Num(left), Num(top)) then true
        else if IsPointSolid(Num(right), Num(top)) then true
        else if IsPointSolid(Num(left), Num(bottom)) then true
        else if IsPointSolid(Num(right), Num(bottom)) then true
        else false
    }

    /** A finite box collides exactly when one of its four padded corners is solid. */
    lemma {:induction false} CollisionMeansSolidCorner(x: real, y: real, width: real, height: real)
      ensures CheckCollision(Num(x), Num(y), width, height) <==>
        exists k :: 0 <= k < 4 && SolidAt(PaddedCorners(x, y, width, height)[k])
    {
      var cs := PaddedCorners(x, y, width, height);
      assert cs[0] == (x + PADDING, y + PADDING) && cs[1] == (x + width - PADDING, y + PADDING);
      assert cs[2] == (x + PADDING, y + height - PADDING) && cs[3] == (x + width - PADDING, y + height - PADDING);
    }

    /**
     * `getTerrainMultiplier(x, y)`: 0.5 on a water cell, 1.0 elsewhere, out of
     * bounds included. It has no NaN guard: a NaN x whose row is not outside
     * the grid reads a tile of `mapData[NaN]`, which is `undefined`, and the
     * read throws a TypeError (`None`).
     */
    function GetTerrainMultiplier(x: Coord, y: Coord): (m: Option<real>)
      ensures m.None? <==> x.NaN? && !(y.Num? && !(0 <= TileIndex(y.v) < HeightInTiles()))
      ensures m.Some? ==> m.value == 0.5 || m.value == 1.0
      ensures x.Num? && y.Num? ==>
        && m.Some?
        && (m.value == 0.5 <==> InBounds(TileIndex(x.v), TileIndex(y.v))
                                && Cell(TileIndex(x.v), TileIndex(y.v)) == Some(WATER))
    {
      var tileX := TileIndexOf(x);
      var tileY := TileIndexOf(y);
      // Every comparison with NaN is false.
      if (tileX.Some? && tileX.value < 0) || (tileX.Some? && tileX.value >= WidthInTiles())
         || (tileY.Some? && tileY.value < 0) || (tileY.Some? && tileY.value >= HeightInTiles())
      then Some(1.0)
      else if tileX.None? then None
      else
        var column := mapData[tileX.value];
        if tileY.Some? && tileY.value < |column| && column[tileY.value] == WATER then Some(0.5)
        else Some(1.0)
    }
  }

  /** `new MapPhysics(mapData, tileSize)`: a missing grid behaves as an empty one. */
  function New(mapData: Option<seq<seq<int>>>, tileSize: PositiveReal): (p: MapPhysics)
    ensures p.tileSize == tileSize
    ensures p.WidthInTiles() == (if mapData.None? then 0 else |mapData.value|)
    ensures p.HeightInTiles() == (if mapData.None? || mapData.value == [] then 0 else |mapData.value[0]|)
    ensures mapData.Some? ==> p.mapData == mapData.value
  {
    MapPhysics(if mapData.None? then [] else mapData.value, tileSize)
  }

  /** An empty or missing grid is a wall everywhere: nothing can move on it. */
  lemma EmptyGridIsSolid(p: MapPhysics, x: Coord, y: Coord, w: real, h: real)
    requires p.WidthInTiles() == 0
    ensures p.IsPointSolid(x, y)
    ensures p.CheckCollision(x, y, w, h)
  {
    if x.Num? && y.Num? {
      assert p.IsPointSolid(Num(x.v + PADDING), Num(y.v + PADDING));
    }
  }

  /** Water slows but never blocks: a water cell is not solid yet halves the speed. */
  lemma WaterSlowsButDoesNotBlock(p: MapPhysics, x: real, y: real)
    requires p.InBounds(p.TileIndex(x), p.TileIndex(y))
    requires p.Cell(p.TileIndex(x), p.TileIndex(y)) == Some(WATER)
    ensures !p.IsPointSolid(Num(x), Num(y))
    ensures p.GetTerrainMultiplier(Num(x), Num(y)) == Some(0.5)
  {
  }
}
