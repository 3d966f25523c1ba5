/**
 * The three tile-grid implementations answer alike. The client predicts its
 * own movement with `MapPhysics` over the grid the server sends; the server
 * decides with `WorldMapService`. On the same grid with 64-pixel tiles the
 * client's collision and terrain answers equal the server's. The legacy
 * client map answers alike as well. The movement rules built on these
 * queries differ between client and server, so a predicted move is not
 * claimed to be the server's.
 */
module MapAgreement {
  import opened Common
  import opened Tiles
  import MP = MapPhysics
  import LM = LegacyMap
  import WM = WorldMapService

  /** The nested sequence `rows` holds exactly the cells of the 50 x 50 matrix `a`. */
  ghost predicate GridMatches(rows: seq<seq<int>>, a: array2<int>)
    reads a
  {
    && a.Length0 == WIDTH_TILES && a.Length1 == HEIGHT_TILES
    && |rows| == WIDTH_TILES
    && (forall i :: 0 <= i < WIDTH_TILES ==> |rows[i]| == HEIGHT_TILES)
    && (forall i, j :: 0 <= i < WIDTH_TILES && 0 <= j < HEIGHT_TILES ==> rows[i][j] == a[i, j])
  }

  /** The client's index and the server's saturated index decide bounds alike and agree in bounds. */
  lemma IndexAgrees(v: real)
    ensures var f, s := (v / TILE_SIZE).Floor, WM.TileIndex(v);
      && (0 <= f < WIDTH_TILES <==> 0 <= s < WIDTH_TILES)
      && (0 <= f < HEIGHT_TILES <==> 0 <= s < HEIGHT_TILES)
      && (0 <= f < WIDTH_TILES ==> f == s)
  {
    var f := (v / TILE_SIZE).Floor;
    if f > INT_MAX {
      assert f as real > INT_MAX as real;
    } else if f < INT_MIN {
      assert f as real < INT_MIN as real;
    } else {
      assert IsInt32(f);
    }
  }

  lemma PointAgrees(p: MP.MapPhysics, s: WM.WorldMapService, x: real, y: real)
    requires s.Valid() && GridMatches(p.mapData, s.mapData) && p.tileSize == TILE_SIZE
    ensures p.IsPointSolid(MP.Num(x), MP.Num(y)) == s.IsPointSolid(x, y)
    ensures p.GetTerrainMultiplier(MP.Num(x), MP.Num(y)) == Some(s.GetTerrainSpeedMultiplier(x, y))
  {
    IndexAgrees(x);
    IndexAgrees(y);
  }

  /** The client's map queries agree with the server's: `checkCollision` and
      `getTerrainMultiplier` on the grid the server sent give the server's answers, for every
      box and point. */
  lemma {:induction false} ClientPredictsServer(p: MP.MapPhysics, s: WM.WorldMapService,
                                                x: real, y: real, w: real, h: real)
    requires s.Valid() && GridMatches(p.mapData, s.mapData) && p.tileSize == TILE_SIZE
    ensures p.CheckCollision(MP.Num(x), MP.Num(y), w, h) == s.CheckCollision(x, y, w, h)
    ensures p.GetTerrainMultiplier(MP.Num(x), MP.Num(y)) == Some(s.GetTerrainSpeedMultiplier(x, y))
  {
    var cs := PaddedCorners(x, y, w, h);
    PointAgrees(p, s, cs[0].0, cs[0].1);
    PointAgrees(p, s, cs[1].0, cs[1].1);
    PointAgrees(p, s, cs[2].0, cs[2].1);
    PointAgrees(p, s, cs[3].0, cs[3].1);
    PointAgrees(p, s, x, y);
  }

  /** The legacy client map and the server map agree on every query over the same cells. */
  lemma {:induction false} LegacyMatchesServer(m: LM.LegacyMap, s: WM.WorldMapService,
                                               x: real, y: real, w: real, h: real)
    requires m.Valid() && s.Valid()
    requires forall i, j :: 0 <= i < WIDTH_TILES && 0 <= j < HEIGHT_TILES ==> m.mapData[i, j] == s.mapData[i, j]
    ensures m.CheckCollision(x, y, w, h) == s.CheckCollision(x, y, w, h)
    ensures m.GetTerrainSpeedMultiplier(x, y) == s.GetTerrainSpeedMultiplier(x, y)
  {
    var cs := PaddedCorners(x, y, w, h);
    forall k | 0 <= k < 4
      ensures m.CornerBlocked(cs[k]) == s.IsPointSolid(cs[k].0, cs[k].1)
    {
      IndexAgrees(cs[k].0);
      IndexAgrees(cs[k].1);
    }
    IndexAgrees(x);
    IndexAgrees(y);
  }
}
