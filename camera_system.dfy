/**
 * Camera framing on the client (`CameraSystem.js`): the world container is
 * offset so that the target sits at the centre of the screen, clamped so
 * that no void beyond the map shows, or centred whole when the zoomed map is
 * smaller than the screen. The offset is either snapped or eased by a tenth
 * and rounded to whole screen pixels. The screen size is read on every
 * update and is a parameter here.
 */
module CameraSystem {
  import opened ClientPlayer

  const LERP_FACTOR: real := 0.1
  const INITIAL_ZOOM: real := 1.5

  function Min(a: real, b: real): real { if a <= b then a else b }
  function Max(a: real, b: real): real { if a >= b then a else b }

  /** JavaScript `Math.round`: the nearest integer, halves rounding up. */
  function JsRound(v: real): (n: int)
    ensures v - 0.5 < n as real <= v + 0.5
  {
    (v + 0.5).Floor
  }

  /** The unclamped offset of one axis: the target at the centre of the screen. */
  function CentredOffset(screen: real, target: real, zoom: real): real
  {
    screen / 2.0 - target * zoom
  }

  /** The clamp of one axis: a zoomed map wider than the screen keeps its edges off screen;
      a narrower one is centred. */
  function ClampAxis(offset: real, mapScreen: real, screen: real): real
  {
    if mapScreen > screen then Max(Min(offset, 0.0), screen - mapScreen)
    else (screen - mapScreen) / 2.0
  }

  /** The offset is kept in [screen - mapScreen, 0] when the map is the wider, and is the centring
      offset otherwise; an offset already in range is kept as it is. */
  lemma ClampAxisBounds(offset: real, mapScreen: real, screen: real)
    ensures mapScreen > screen ==>
      && screen - mapScreen <= ClampAxis(offset, mapScreen, screen) <= 0.0
      && (screen - mapScreen <= offset <= 0.0 ==> ClampAxis(offset, mapScreen, screen) == offset)
    ensures mapScreen <= screen ==> ClampAxis(offset, mapScreen, screen) == (screen - mapScreen) / 2.0
  {
  }

  /** A snapped camera always shows its target: for a target inside the map, its screen position
      `offset + target * zoom` lies on the screen on that axis. */
  lemma {:induction false} SnappedTargetOnScreen(screen: real, mapSize: real, zoom: real, target: real)
    requires zoom > 0.0 && screen >= 0.0 && 0.0 <= target <= mapSize
    ensures var offset := ClampAxis(CentredOffset(screen, target, zoom), mapSize * zoom, screen);
      0.0 <= offset + target * zoom <= screen
  {
    var u, m := target * zoom, mapSize * zoom;
    assert 0.0 <= u <= m by {
      assert mapSize * zoom - target * zoom == (mapSize - target) * zoom;
    }
  }

  /** The offset a smoothing step moves to: a tenth of the way, rounded to a whole screen pixel. */
  function SmoothStep(current: real, target: real, zoom: real): real
    requires zoom > 0.0
  {
    var next := current + (target - current) * LERP_FACTOR;
    JsRound(next * zoom) as real / zoom
  }

  /** Rounding moves a smoothing step by at most half a screen pixel. */
  lemma {:induction false} SmoothStepNearLerp(current: real, target: real, zoom: real)
    requires zoom > 0.0
    ensures var next := current + (target - current) * LERP_FACTOR;
      && next - 0.5 / zoom < SmoothStep(current, target, zoom) <= next + 0.5 / zoom
  {
    var next := current + (target - current) * LERP_FACTOR;
    var n := JsRound(next * zoom) as real;
    assert next * zoom - 0.5 < n <= next * zoom + 0.5;
    assert (next * zoom - 0.5) / zoom == next - 0.5 / zoom;
    assert (next * zoom + 0.5) / zoom == next + 0.5 / zoom;
    DivMonotone(next * zoom - 0.5, n, zoom);
    DivMonotone(n, next * zoom + 0.5, zoom);
  }

  lemma DivMonotone(a: real, b: real, z: real)
    requires z > 0.0 && a <= b
    ensures a / z <= b / z
    ensures a < b ==> a / z < b / z
  {
    assert b / z - a / z == (b - a) / z;
  }

  /** The world rectangle on screen, `getVisibleBounds()`. */
  datatype Bounds = Bounds(x: real, y: real, width: real, height: real)

  /** A position of the world container. */
  datatype Offset = Offset(x: real, y: real)

  /** The offset that centres a target at (tx, ty), clamped on both axes. */
  function Framing(tx: real, ty: real, zoom: real, mapWidth: real, mapHeight: real,
                   screenWidth: real, screenHeight: real): Offset
  {
    Offset(ClampAxis(CentredOffset(screenWidth, tx, zoom), mapWidth * zoom, screenWidth),
           ClampAxis(CentredOffset(screenHeight, ty, zoom), mapHeight * zoom, screenHeight))
  }

  /** On a map wider than the screen, a clamped offset frames a stretch of the map only:
      the visible range [-offset / zoom, (-offset + screen) / zoom] lies in [0, mapSize]. */
  lemma {:induction false} ClampedViewInsideMap(offset: real, zoom: real, screen: real, mapSize: real)
    requires zoom > 0.0 && screen >= 0.0
    requires screen - mapSize * zoom <= offset <= 0.0
    ensures 0.0 <= -offset / zoom
    ensures -offset / zoom + screen / zoom <= mapSize
  {
    var a := -offset;
    DivMonotone(0.0, a, zoom);
    DivMonotone(a + screen, mapSize * zoom, zoom);
    assert a / zoom + screen / zoom == (a + screen) / zoom;
    assert mapSize * zoom / zoom == mapSize;
  }

  /** One axis of a snapped camera: with the zoomed map larger than the screen, the clamped
      offset frames a stretch of the map only. */
  lemma {:induction false} SnappedAxisInsideMap(offset: real, target: real, zoom: real, screen: real, mapSize: real)
    requires zoom > 0.0 && screen >= 0.0
    requires offset == ClampAxis(CentredOffset(screen, target, zoom), mapSize * zoom, screen)
    ensures mapSize * zoom > screen ==> 0.0 <= -offset / zoom && -offset / zoom + screen / zoom <= mapSize
  {
    if mapSize * zoom > screen {
      ClampAxisBounds(CentredOffset(screen, target, zoom), mapSize * zoom, screen);
      ClampedViewInsideMap(offset, zoom, screen, mapSize);
    }
  }

  class CameraSystem {
    /** `world.position`, the offset of the world container. */
    var worldX: real
    var worldY: real
    /** `world.scale`. */
    var scale: real
    var zoom: real
    var target: Player?
    const mapWidth: real
    const mapHeight: real

    ghost predicate Valid()
      reads this
    {
      zoom > 0.0 && scale == zoom
    }

    /** The camera starts without a target at zoom 1.5, with the world scaled to match. */
    constructor (worldX0: real, worldY0: real, mapWidth: real, mapHeight: real)
      ensures Valid() && zoom == INITIAL_ZOOM && target == null
      ensures worldX == worldX0 && worldY == worldY0
      ensures this.mapWidth == mapWidth && this.mapHeight == mapHeight
    {
      worldX, worldY := worldX0, worldY0;
      this.mapWidth, this.mapHeight := mapWidth, mapHeight;
      zoom := INITIAL_ZOOM;
      scale := INITIAL_ZOOM;
      target := null;
    }

    /** The clamped offset the camera aims at for the current target. */
    function TargetOffset(screenWidth: real, screenHeight: real): Offset
      requires target != null
      reads this, target
    {
      Framing(target.x, target.y, zoom, mapWidth, mapHeight, screenWidth, screenHeight)
    }

    /** `update(delta, forceSnap)`: no target, no change; otherwise snap to the clamped offset or
        take one rounded smoothing step towards it. */
    method Update(delta: real, forceSnap: bool, screenWidth: real, screenHeight: real)
      requires Valid()
      modifies this
      ensures Valid()
      ensures zoom == old(zoom) && scale == old(scale) && target == old(target)
      ensures target == null ==> worldX == old(worldX) && worldY == old(worldY)
      ensures target != null && forceSnap ==>
        Offset(worldX, worldY) == Framing(target.x, target.y, zoom, mapWidth, mapHeight, screenWidth, screenHeight)
      ensures target != null && !forceSnap ==>
        var t := Framing(target.x, target.y, zoom, mapWidth, mapHeight, screenWidth, screenHeight);
        worldX == SmoothStep(old(worldX), t.x, zoom) && worldY == SmoothStep(old(worldY), t.y, zoom)
    {
      if target == null {
        return;
      }
      // Centre the target, then clamp to the map boundaries.
      var mapScreenWidth := mapWidth * zoom;
      var mapScreenHeight := mapHeight * zoom;
      var targetWorldX := ClampAxis(CentredOffset(screenWidth, target.x, zoom), mapScreenWidth, screenWidth);
      var targetWorldY := ClampAxis(CentredOffset(screenHeight, target.y, zoom), mapScreenHeight, screenHeight);
      if forceSnap {
        worldX := targetWorldX;
        worldY := targetWorldY;
      } else {
        worldX := SmoothStep(worldX, targetWorldX, zoom);
        worldY := SmoothStep(worldY, targetWorldY, zoom);
      }
    }

    /** `setZoom(zoomLevel)`: rescale, and snap if there is a target. */
    method SetZoom(zoomLevel: real, screenWidth: real, screenHeight: real)
      requires Valid() && zoomLevel > 0.0
      modifies this
      ensures Valid() && zoom == zoomLevel && target == old(target)
      ensures target == null ==> worldX == old(worldX) && worldY == old(worldY)
      ensures target != null ==>
        Offset(worldX, worldY) == Framing(target.x, target.y, zoom, mapWidth, mapHeight, screenWidth, screenHeight)
    {
      zoom := zoomLevel;
      scale := zoom;
      if target != null {
        Update(0.0, true, screenWidth, screenHeight);
      }
    }

    /** `follow(target)`: take the target and snap to it at once. */
    method Follow(newTarget: Player, screenWidth: real, screenHeight: real)
      requires Valid()
      modifies this
      ensures Valid() && target == newTarget && zoom == old(zoom)
      ensures Offset(worldX, worldY) == Framing(target.x, target.y, zoom, mapWidth, mapHeight, screenWidth, screenHeight)
    {
      target := newTarget;
      Update(0.0, true, screenWidth, screenHeight);
    }

    /** `getVisibleBounds()`. */
    function GetVisibleBounds(screenWidth: real, screenHeight: real): Bounds
      requires Valid()
      reads this
    {
      Bounds(-worldX / zoom, -worldY / zoom, screenWidth / zoom, screenHeight / zoom)
    }

    /** With the camera snapped, the visible rectangle lies inside the map on every axis along
        which the zoomed map is larger than the screen: no void beyond an edge shows. */
    lemma {:induction false} SnappedViewInsideMap(screenWidth: real, screenHeight: real)
      requires Valid() && target != null && screenWidth >= 0.0 && screenHeight >= 0.0
      requires Offset(worldX, worldY) == TargetOffset(screenWidth, screenHeight)
      ensures var b := GetVisibleBounds(screenWidth, screenHeight);
        mapWidth * zoom > screenWidth ==> 0.0 <= b.x && b.x + b.width <= mapWidth
      ensures var b := GetVisibleBounds(screenWidth, screenHeight);
        mapHeight * zoom > screenHeight ==> 0.0 <= b.y && b.y + b.height <= mapHeight
    {
      SnappedAxisInsideMap(worldX, target.x, zoom, screenWidth, mapWidth);
      SnappedAxisInsideMap(worldY, target.y, zoom, screenHeight, mapHeight);
    }
  }
}
