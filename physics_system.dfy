/**
 * The server's movement integrator (`PhysicsSystem`): every moving entity
 * with a position and a hitbox advances by velocity x terrain factor x delta,
 * one axis at a time: X first with the box at the current row, then Y with
 * the box at the X already resolved, so a blocked axis does not stop the
 * other. Positions are boxes' centres; the map is the server's tile grid.
 */
module PhysicsSystem {
  import opened Common
  import opened Components
  import opened WorldStates
  import WM = WorldMapService

  /** The classes an entity needs to be moved. */
  const MOVING: seq<ComponentClass> := [POSITION, VELOCITY, COLLISION]

  function Displacement(v: real, terrain: real, delta: real): real
  {
    v * terrain * delta
  }

  /** The box of `hitbox` centred on (cx, cy) collides on the map. */
  predicate BoxBlocked(worldMap: WM.WorldMapService, hitbox: Collision, cx: real, cy: real)
    requires worldMap.Valid()
    reads worldMap.mapData
  {
    worldMap.CheckCollision(cx - hitbox.width / 2.0, cy - hitbox.height / 2.0, hitbox.width, hitbox.height)
  }

  /** The axis-separated resolution of a displacement (moveX, moveY) from `pos`. */
  function ResolveAxes(worldMap: WM.WorldMapService, pos: Position, moveX: real, moveY: real, hitbox: Collision): (p: Position)
    requires worldMap.Valid()
    reads worldMap.mapData
  {
    var nextX := if !BoxBlocked(worldMap, hitbox, pos.x + moveX, pos.y) then pos.x + moveX else pos.x;
    var nextY := if !BoxBlocked(worldMap, hitbox, nextX, pos.y + moveY) then pos.y + moveY else pos.y;
    Position(nextX, nextY, pos.rotation)
  }

  /** Where `update` takes a moving entity: the displacement is scaled by the terrain factor
      at the starting position, then resolved axis by axis. */
  function MoveEntity(worldMap: WM.WorldMapService, pos: Position, velocity: Velocity, hitbox: Collision, delta: real): (p: Position)
    requires worldMap.Valid()
    reads worldMap.mapData
    ensures p.rotation == pos.rotation
  {
    var terrainMult := worldMap.GetTerrainSpeedMultiplier(pos.x, pos.y);
    ResolveAxes(worldMap, pos, Displacement(velocity.x, terrainMult, delta), Displacement(velocity.y, terrainMult, delta), hitbox)
  }

  /** The entity's components after the tick: a still entity is skipped, and the position is
      replaced only when it changed. */
  function PhysicsEntity(worldMap: WM.WorldMapService, cs: EntityComponents, delta: real): EntityComponents
    requires worldMap.Valid()
    requires EntityWellKeyed(cs) && HasAll(cs, MOVING)
    reads worldMap.mapData
  {
    assert POSITION in MOVING && VELOCITY in MOVING && COLLISION in MOVING;
    var velocity := cs[VELOCITY].velocity;
    if velocity.x == 0.0 && velocity.y == 0.0 then cs
    else
      var pos := cs[POSITION].position;
      var next := MoveEntity(worldMap, pos, velocity, cs[COLLISION].collision, delta);
      if next.x != pos.x || next.y != pos.y then cs[POSITION := PositionC(next)] else cs
  }

  // ---------------------------------------------------------------------------
  // Properties
  // ---------------------------------------------------------------------------

  /** A tick changes at most the position, and never its rotation; a still entity is untouched. */
  lemma {:induction false} OnlyPositionChanges(worldMap: WM.WorldMapService, cs: EntityComponents, delta: real)
    requires worldMap.Valid()
    requires EntityWellKeyed(cs) && HasAll(cs, MOVING)
    ensures var r := PhysicsEntity(worldMap, cs, delta);
      && EntityWellKeyed(r) && r.Keys == cs.Keys
      && (forall k :: k in cs && k != POSITION ==> r[k] == cs[k])
      && r[POSITION].PositionC? && r[POSITION].position.rotation == cs[POSITION].position.rotation
      && (cs[VELOCITY].velocity == Velocity(0.0, 0.0) ==> r == cs)
  {
    assert POSITION in MOVING;
  }

  /** Each axis either stays or advances by its displacement: X advances iff the box there is
      free, and Y iff the box at the resolved X is free. The rotation is kept. */
  lemma {:induction false} AxisSeparatedMove(worldMap: WM.WorldMapService, pos: Position, moveX: real, moveY: real, hitbox: Collision)
    requires worldMap.Valid()
    ensures var p := ResolveAxes(worldMap, pos, moveX, moveY, hitbox);
      && (p.x == pos.x + moveX <==> moveX == 0.0 || !BoxBlocked(worldMap, hitbox, pos.x + moveX, pos.y))
      && (p.x == pos.x || p.x == pos.x + moveX)
      && (p.y == pos.y + moveY <==> moveY == 0.0 || !BoxBlocked(worldMap, hitbox, p.x, pos.y + moveY))
      && (p.y == pos.y || p.y == pos.y + moveY)
      && p.rotation == pos.rotation
  {
  }

  /** Blocked along X, an entity still slides along Y. */
  lemma {:induction false} SlidesAlongWall(worldMap: WM.WorldMapService, pos: Position, moveX: real, moveY: real, hitbox: Collision)
    requires worldMap.Valid()
    requires BoxBlocked(worldMap, hitbox, pos.x + moveX, pos.y)
    requires !BoxBlocked(worldMap, hitbox, pos.x, pos.y + moveY)
    ensures ResolveAxes(worldMap, pos, moveX, moveY, hitbox) == Position(pos.x, pos.y + moveY, pos.rotation)
  {
  }

  /** An entity whose box starts free stays free: each axis step is taken only into a free box. */
  lemma {:induction false} MoveKeepsClear(worldMap: WM.WorldMapService, pos: Position, moveX: real, moveY: real, hitbox: Collision)
    requires worldMap.Valid()
    requires !BoxBlocked(worldMap, hitbox, pos.x, pos.y)
    ensures var p := ResolveAxes(worldMap, pos, moveX, moveY, hitbox);
      !BoxBlocked(worldMap, hitbox, p.x, p.y)
  {
    var p := ResolveAxes(worldMap, pos, moveX, moveY, hitbox);
    assert !BoxBlocked(worldMap, hitbox, p.x, pos.y);
  }

  // ---------------------------------------------------------------------------
  // The system
  // ---------------------------------------------------------------------------

  class PhysicsSystem {
    const worldMap: WM.WorldMapService

    constructor (worldMap: WM.WorldMapService)
      ensures this.worldMap == worldMap
    {
      this.worldMap := worldMap;
    }

    /** The new position of one moving entity, X first, then Y at the resolved X. */
    method Integrate(pos: Position, velocity: Velocity, hitbox: Collision, delta: real) returns (next: Position)
      requires worldMap.Valid()
      ensures next == MoveEntity(worldMap, pos, velocity, hitbox, delta)
    {
      var terrainMult := worldMap.GetTerrainSpeedMultiplier(pos.x, pos.y);
      var moveX := Displacement(velocity.x, terrainMult, delta);
      var moveY := Displacement(velocity.y, terrainMult, delta);
      next := Resolve(pos, moveX, moveY, hitbox);
    }

    method Resolve(pos: Position, moveX: real, moveY: real, hitbox: Collision) returns (next: Position)
      requires worldMap.Valid()
      ensures next == ResolveAxes(worldMap, pos, moveX, moveY, hitbox)
    {
      AxisSeparatedMove(worldMap, pos, moveX, moveY, hitbox);
      var nextX := pos.x;
      var nextY := pos.y;
      if !BoxBlocked(worldMap, hitbox, pos.x + moveX, pos.y) {
        nextX := nextX + moveX;
      }
      if !BoxBlocked(worldMap, hitbox, nextX, pos.y + moveY) {
        nextY := nextY + moveY;
      }
      next := Position(nextX, nextY, pos.rotation);
    }

    /** The body of `update`'s loop for one entity. */
    method MoveOne(state: WorldState, id: Uuid, delta: real)
      requires worldMap.Valid() && state.Valid()
      requires id in state.components && HasAll(state.components[id], MOVING)
      modifies state
      ensures state.Valid()
      ensures state.components == old(state.components)[id := PhysicsEntity(worldMap, old(state.components)[id], delta)]
    {
      assert POSITION in MOVING && VELOCITY in MOVING && COLLISION in MOVING;
      var velocity := state.GetComponent(id, VELOCITY).value.velocity;
      if velocity.x == 0.0 && velocity.y == 0.0 {
        assert state.components == state.components[id := state.components[id]];
        return;
      }
      var pos := state.GetComponent(id, POSITION).value.position;
      var hitbox := state.GetComponent(id, COLLISION).value.collision;

      var next := Integrate(pos, velocity, hitbox, delta);
      if next.x != pos.x || next.y != pos.y {
        state.AddComponent(id, PositionC(next));
      } else {
        assert state.components == state.components[id := state.components[id]];
      }
    }

    /** `update(state, delta)`: every entity with a position, a velocity and a hitbox moves;
        nothing else changes. */
    method Update(state: WorldState, delta: real)
      requires worldMap.Valid() && state.Valid()
      modifies state
      ensures state.Valid()
      ensures state.components.Keys == old(state.components).Keys
      ensures forall id :: id in old(state.components) ==>
        state.components[id] == if HasAll(old(state.components)[id], MOVING)
                                then PhysicsEntity(worldMap, old(state.components)[id], delta)
                                else old(state.components)[id]
    {
      var entities := state.GetEntitiesWith(MOVING);
      MoveAll(state, entities, delta);
    }

    /** `update`'s loop over the entities found: each of them moves once. */
    method MoveAll(state: WorldState, entities: seq<Uuid>, delta: real)
      requires worldMap.Valid() && state.Valid() && Distinct(entities)
      requires forall id :: id in entities ==> id in state.components && HasAll(state.components[id], MOVING)
      modifies state
      ensures state.Valid()
      ensures state.components.Keys == old(state.components).Keys
      ensures forall id :: id in old(state.components) ==>
        state.components[id] == if id in entities then PhysicsEntity(worldMap, old(state.components)[id], delta)
                                else old(state.components)[id]
    {
      ghost var s0 := state.components;
      for n := 0 to |entities|
        invariant state.Valid()
        invariant state.components.Keys == s0.Keys
        invariant forall id :: id in s0 ==>
          state.components[id] == if id in entities[..n] then PhysicsEntity(worldMap, s0[id], delta) else s0[id]
      {
        var id := entities[n];
        assert id !in entities[..n];
        MoveOne(state, id, delta);
        assert entities[..n + 1] == entities[..n] + [id];
      }
      assert entities[..|entities|] == entities;
    }
  }
}
