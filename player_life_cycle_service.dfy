/**
 * The server's player life cycle (`PlayerLifeCycleService`): spawning a
 * registered player or a guest as a fresh entity with the player's standard
 * components, removing a player, and the table of active sessions from user
 * id to entity id. The user repository is a map from user id to user name;
 * the fresh ids and the spawn point are parameters.
 *
 * The service keeps sessions honest: every session names a live entity that
 * carries the player tag of that session's user.
 */
module PlayerLifeCycle {
  import opened Common
  import opened Components
  import opened WorldStates
  import IC = InputComponents
  import InventoryComponents
  import PlayerControlSystem
  import PhysicsSystem
  import SurvivalSystem
  import SnapshotService

  const PLAYER_HITBOX_SIZE: real := 32.0
  const INVENTORY_CAPACITY: nat := 20

  /** `new MovementStatsComponent(180, 1.5, 20, 800, 0.2, 2.0)`. */
  const PLAYER_STATS: MovementStats := MovementStats(180.0, 1.5, 20.0, 800.0, 0.2, 2.0)

  /** The exception `spawnPlayer` throws for an unknown user. */
  datatype SpawnError = UserNotFound(userId: Uuid)

  /** A guest's display name: "Guest" for a missing or blank name, else the name marked as a guest's. */
  function GuestName(temporaryName: Option<string>): (r: string)
    ensures temporaryName.None? || IsBlank(temporaryName.value) ==> r == "Guest"
    ensures temporaryName.Some? && !IsBlank(temporaryName.value) ==> r == temporaryName.value + " (Guest)"
  {
    if temporaryName.None? || IsBlank(temporaryName.value) then "Guest" else temporaryName.value + " (Guest)"
  }

  /** The components `createEntityInternal` gives a new player, around its fresh inventory. */
  function PlayerComponents(userId: Uuid, username: string, isGuest: bool, spawnX: real, spawnY: real,
                            inventory: InventoryComponents.InventoryComponent): EntityComponents
  {
    map[]
      [PLAYER_TAG := PlayerTagC(PlayerTag(userId, username, isGuest))]
      [MOVEMENT_STATS := MovementStatsC(PLAYER_STATS)]
      [ComponentClass.DASH := DashC(Dash(false, 0.0, 0.0, 0.0, 0.0))]
      [COLLISION := CollisionC(Collision(PLAYER_HITBOX_SIZE, PLAYER_HITBOX_SIZE))]
      [POSITION := PositionC(Position(spawnX, spawnY, 0.0))]
      [INPUT := InputC(IC.NewInput(0.0, 0.0, 0.0, 1.0, false, Some({}), 0.0, 0.0))]
      [INVENTORY := InventoryC(inventory)]
  }

  /** Sessions and player tags match one to one: every session names a live entity tagged with
      the session's user, and every tagged entity is its user's session. */
  ghost predicate SessionsConsistent(sessions: map<Uuid, Uuid>, s: Store)
  {
    && (forall u :: u in sessions ==> TaggedUser(s, sessions[u], u))
    && (forall e, u :: TaggedUser(s, e, u) ==> u in sessions && sessions[u] == e)
  }

  /** The sessions `removePlayer(entityId)` leaves: the tagged user's session is dropped. */
  function SessionsAfterRemove(sessions: map<Uuid, Uuid>, s: Store, entityId: Uuid): map<Uuid, Uuid>
  {
    match Lookup(s, entityId, PLAYER_TAG)
    case Some(PlayerTagC(tag)) => sessions - {tag.userId}
    case _ => sessions
  }

  /** `s` after `createEntityInternal` put a new player at `entityId` into `before`. */
  ghost predicate IsNewPlayer(before: Store, s: Store, entityId: Uuid, userId: Uuid, username: string,
                              isGuest: bool, spawnX: real, spawnY: real)
  {
    && entityId in s && INVENTORY in s[entityId] && s[entityId][INVENTORY].InventoryC?
    && s == before[entityId := PlayerComponents(userId, username, isGuest, spawnX, spawnY, s[entityId][INVENTORY].inventory)]
  }

  // ---------------------------------------------------------------------------
  // Properties
  // ---------------------------------------------------------------------------

  /** A new player is well formed, stands at the spawn point facing down the screen with no
      pending action, and is controlled but not yet moved: it gets a velocity only from its
      first control tick. It has no survival or vitality records, so survival ticks pass it by
      and no statistics are sent to it. */
  lemma {:induction false} NewPlayerShape(userId: Uuid, username: string, isGuest: bool, spawnX: real, spawnY: real,
                                          inventory: InventoryComponents.InventoryComponent)
    ensures var cs := PlayerComponents(userId, username, isGuest, spawnX, spawnY, inventory);
      && EntityWellKeyed(cs)
      && cs[POSITION].position == Position(spawnX, spawnY, 0.0)
      && cs[INPUT].input.triggers == {} && cs[INPUT].input.facingX == 0.0 && cs[INPUT].input.facingY == 1.0
      && HasAll(cs, PlayerControlSystem.CONTROLLED)
      && !HasAll(cs, PhysicsSystem.MOVING)
      && !HasAll(cs, SurvivalSystem.LIVING)
  {
    var cs := PlayerComponents(userId, username, isGuest, spawnX, spawnY, inventory);
    assert VELOCITY in PhysicsSystem.MOVING && VELOCITY !in cs;
    assert SURVIVAL in SurvivalSystem.LIVING && SURVIVAL !in cs;
  }

  /** The statistics broadcast skips a new player. */
  lemma {:induction false} NewPlayerGetsNoStats(s: Store, entityId: Uuid, userId: Uuid, username: string,
                                                isGuest: bool, spawnX: real, spawnY: real,
                                                inventory: InventoryComponents.InventoryComponent)
    requires WellKeyed(s) && entityId in s
    requires s[entityId] == PlayerComponents(userId, username, isGuest, spawnX, spawnY, inventory)
    ensures SnapshotService.StatsOf(s, entityId).None?
  {
    assert VITALITY !in s[entityId];
  }

  /** A blank guest name is shown as plain "Guest", never as a marked empty name. */
  lemma {:induction false} BlankGuestIsPlainGuest(name: string)
    requires IsBlank(name)
    ensures GuestName(Some(name)) == "Guest" && GuestName(Some(name)) != name + " (Guest)"
  {
    assert |name + " (Guest)"| == |name| + 8;
  }

  /** Each user has at most one live entity, and no two users share one. */
  lemma {:induction false} OneEntityPerUser(sessions: map<Uuid, Uuid>, s: Store, e1: Uuid, e2: Uuid, u1: Uuid, u2: Uuid)
    requires SessionsConsistent(sessions, s) && TaggedUser(s, e1, u1) && TaggedUser(s, e2, u2)
    ensures e1 == e2 <==> u1 == u2
  {
    assert sessions[u1] == e1 && sessions[u2] == e2;
  }

  /** Removing an entity keeps sessions and tags matched, and no session names it afterwards. */
  lemma {:induction false} RemoveKeepsSessions(sessions: map<Uuid, Uuid>, s: Store, entityId: Uuid)
    requires SessionsConsistent(sessions, s)
    ensures var sessions' := SessionsAfterRemove(sessions, s, entityId);
      && SessionsConsistent(sessions', s - {entityId})
      && (forall u :: u in sessions' ==> sessions'[u] != entityId)
      && sessions'.Keys <= sessions.Keys
  {
    var sessions' := SessionsAfterRemove(sessions, s, entityId);
    forall u | u in sessions'
      ensures TaggedUser(s - {entityId}, sessions'[u], u) && sessions'[u] != entityId
    {
      assert u in sessions && sessions'[u] == sessions[u];
      assert TaggedUser(s, sessions[u], u);
    }
    forall e, u | TaggedUser(s - {entityId}, e, u)
      ensures u in sessions' && sessions'[u] == e
    {
      assert TaggedUser(s, e, u) && sessions[u] == e;
      if entityId in s && PLAYER_TAG in s[entityId] && s[entityId][PLAYER_TAG].PlayerTagC? {
        assert TaggedUser(s, entityId, s[entityId][PLAYER_TAG].tag.userId);
      }
    }
  }

  /** Adding a new player for a user without a session, at a fresh id, keeps sessions and tags
      matched once the new session is recorded. */
  lemma {:induction false} NewPlayerKeepsSessions(sessions: map<Uuid, Uuid>, before: Store, s: Store, entityId: Uuid,
                                                  userId: Uuid, username: string, isGuest: bool, spawnX: real, spawnY: real)
    requires SessionsConsistent(sessions, before) && entityId !in before && userId !in sessions
    requires IsNewPlayer(before, s, entityId, userId, username, isGuest, spawnX, spawnY)
    ensures SessionsConsistent(sessions[userId := entityId], s)
  {
    var sessions' := sessions[userId := entityId];
    forall u | u in sessions'
      ensures TaggedUser(s, sessions'[u], u)
    {
      if u != userId {
        assert TaggedUser(before, sessions[u], u);
      }
    }
    forall e, u | TaggedUser(s, e, u)
      ensures u in sessions' && sessions'[u] == e
    {
      if e != entityId {
        assert TaggedUser(before, e, u);
      }
    }
  }

  /** The seven `addComponent` calls of `createEntityInternal`, on an entity with no components. */
  method EquipPlayer(worldState: WorldState, entityId: Uuid, userId: Uuid, username: string, isGuest: bool,
                     spawnX: real, spawnY: real, inventory: InventoryComponents.InventoryComponent)
    requires worldState.Valid() && entityId in worldState.components && worldState.components[entityId] == map[]
    modifies worldState
    ensures worldState.Valid()
    ensures worldState.components == old(worldState.components)[entityId := PlayerComponents(userId, username, isGuest, spawnX, spawnY, inventory)]
  {
    EquipIdentity(worldState, entityId, userId, username, isGuest);
    EquipBody(worldState, entityId, spawnX, spawnY, inventory);
  }

  /** The tag, movement stats, dash state and hitbox. */
  method EquipIdentity(worldState: WorldState, entityId: Uuid, userId: Uuid, username: string, isGuest: bool)
    requires worldState.Valid() && entityId in worldState.components
    modifies worldState
    ensures worldState.Valid()
    ensures worldState.components == old(worldState.components)[entityId := old(worldState.components)[entityId]
      [PLAYER_TAG := PlayerTagC(PlayerTag(userId, username, isGuest))]
      [MOVEMENT_STATS := MovementStatsC(PLAYER_STATS)]
      [ComponentClass.DASH := DashC(Dash(false, 0.0, 0.0, 0.0, 0.0))]
      [COLLISION := CollisionC(Collision(PLAYER_HITBOX_SIZE, PLAYER_HITBOX_SIZE))]]
  {
    AddTwo(worldState, entityId, PLAYER_TAG, PlayerTagC(PlayerTag(userId, username, isGuest)),
           MOVEMENT_STATS, MovementStatsC(PLAYER_STATS));
    AddTwo(worldState, entityId, ComponentClass.DASH, DashC(Dash(false, 0.0, 0.0, 0.0, 0.0)),
           COLLISION, CollisionC(Collision(PLAYER_HITBOX_SIZE, PLAYER_HITBOX_SIZE)));
  }

  /** The spawn position, the idle input and the inventory. */
  method EquipBody(worldState: WorldState, entityId: Uuid, spawnX: real, spawnY: real,
                   inventory: InventoryComponents.InventoryComponent)
    requires worldState.Valid() && entityId in worldState.components
    modifies worldState
    ensures worldState.Valid()
    ensures worldState.components == old(worldState.components)[entityId := old(worldState.components)[entityId]
      [POSITION := PositionC(Position(spawnX, spawnY, 0.0))]
      [INPUT := InputC(IC.NewInput(0.0, 0.0, 0.0, 1.0, false, Some({}), 0.0, 0.0))]
      [INVENTORY := InventoryC(inventory)]]
  {
    AddTwo(worldState, entityId, POSITION, PositionC(Position(spawnX, spawnY, 0.0)),
           INPUT, InputC(IC.NewInput(0.0, 0.0, 0.0, 1.0, false, Some({}), 0.0, 0.0)));
    worldState.AddComponent(entityId, InventoryC(inventory));
  }

  /** Two `addComponent` calls on one live entity. */
  method AddTwo(worldState: WorldState, entityId: Uuid, k1: ComponentClass, first: Component,
                k2: ComponentClass, second: Component)
    requires worldState.Valid() && entityId in worldState.components
    requires ClassOf(first) == k1 && ClassOf(second) == k2
    modifies worldState
    ensures worldState.Valid()
    ensures worldState.components == old(worldState.components)[entityId :=
      old(worldState.components)[entityId][k1 := first][k2 := second]]
  {
    worldState.AddComponent(entityId, first);
    worldState.AddComponent(entityId, second);
  }

  // ---------------------------------------------------------------------------
  // The service
  // ---------------------------------------------------------------------------

  class PlayerLifeCycleService {
    /** `UserRepository.findById`: the user name of each registered user. */
    const users: map<Uuid, string>
    const worldState: WorldState
    /** User id (registered or temporary) to entity id. */
    var activeSessions: map<Uuid, Uuid>

    ghost predicate Valid()
      reads this, worldState
    {
      worldState.Valid() && SessionsConsistent(activeSessions, worldState.components)
    }

    /** The service starts before any player is spawned: the world holds no player tag yet. */
    constructor (users: map<Uuid, string>, worldState: WorldState)
      requires worldState.Valid()
      requires forall e, u :: !TaggedUser(worldState.components, e, u)
      ensures Valid() && this.users == users && this.worldState == worldState && activeSessions == map[]
    {
      this.users := users;
      this.worldState := worldState;
      activeSessions := map[];
    }

    /** `spawnPlayer(userId)`: an unknown user is refused and nothing changes; otherwise the user's
        current entity, if any, is removed and a new one is spawned at `freshEntity`. */
    method SpawnPlayer(userId: Uuid, freshEntity: Uuid, spawnX: real, spawnY: real) returns (r: Result<Uuid, SpawnError>)
      requires Valid() && freshEntity !in worldState.components
      modifies this, worldState
      ensures Valid()
      ensures userId !in users ==>
        r == Err(UserNotFound(userId)) && activeSessions == old(activeSessions) && worldState.components == old(worldState.components)
      ensures userId in users ==>
        && r == Ok(freshEntity)
        && activeSessions == old(activeSessions)[userId := freshEntity]
        && IsNewPlayer(if userId in old(activeSessions) then old(worldState.components) - {old(activeSessions)[userId]}
                       else old(worldState.components),
                       worldState.components, freshEntity, userId, users[userId], false, spawnX, spawnY)
        && fresh(worldState.components[freshEntity][INVENTORY].inventory)
    {
      if userId !in users {
        return Err(UserNotFound(userId));
      }
      if userId in activeSessions {
        ghost var sessions0 := activeSessions;
        assert TaggedUser(worldState.components, activeSessions[userId], userId);
        RemovePlayer(activeSessions[userId]);
        assert activeSessions == sessions0 - {userId};
        assert activeSessions[userId := freshEntity] == sessions0[userId := freshEntity];
      }
      var entityId := CreateEntityInternal(userId, users[userId], false, freshEntity, spawnX, spawnY);
      return Ok(entityId);
    }

    /** `spawnGuest(temporaryName)` with `tempUserId` for the random temporary user id, which is
        taken to be unused. */
    method SpawnGuest(temporaryName: Option<string>, tempUserId: Uuid, freshEntity: Uuid, spawnX: real, spawnY: real)
      returns (entityId: Uuid)
      requires Valid() && freshEntity !in worldState.components && tempUserId !in activeSessions
      modifies this, worldState
      ensures Valid()
      ensures entityId == freshEntity && activeSessions == old(activeSessions)[tempUserId := entityId]
      ensures IsNewPlayer(old(worldState.components), worldState.components, entityId, tempUserId,
                          GuestName(temporaryName), true, spawnX, spawnY)
      ensures fresh(worldState.components[entityId][INVENTORY].inventory)
    {
      var finalName := if temporaryName.None? || IsBlank(temporaryName.value) then "Guest"
                       else temporaryName.value + " (Guest)";
      entityId := CreateEntityInternal(tempUserId, finalName, true, freshEntity, spawnX, spawnY);
    }

    /** `createEntityInternal`: a new entity with the player's components and an empty inventory
        of 20 slots, recorded as the user's session. */
    method CreateEntityInternal(userId: Uuid, username: string, isGuest: bool, freshEntity: Uuid, spawnX: real, spawnY: real)
      returns (entityId: Uuid)
      requires Valid() && freshEntity !in worldState.components && userId !in activeSessions
      modifies this, worldState
      ensures Valid()
      ensures entityId == freshEntity && activeSessions == old(activeSessions)[userId := entityId]
      ensures IsNewPlayer(old(worldState.components), worldState.components, entityId, userId, username, isGuest, spawnX, spawnY)
      ensures var inv := worldState.components[entityId][INVENTORY].inventory;
        fresh(inv) && inv.Valid() && inv.capacity == INVENTORY_CAPACITY
        && inv.contents == InventoryComponents.EmptyContents(INVENTORY_CAPACITY)
    {
      ghost var s0 := worldState.components;
      entityId := worldState.CreateEntity(freshEntity);
      var inventory := new InventoryComponents.InventoryComponent(INVENTORY_CAPACITY);
      EquipPlayer(worldState, entityId, userId, username, isGuest, spawnX, spawnY, inventory);
      assert worldState.components == s0[entityId := PlayerComponents(userId, username, isGuest, spawnX, spawnY, inventory)];
      NewPlayerKeepsSessions(activeSessions, s0, worldState.components, entityId, userId, username, isGuest, spawnX, spawnY);
      activeSessions := activeSessions[userId := entityId];
    }

    /** `removePlayer(entityId)`: the tagged user's session ends and the entity is removed. */
    method RemovePlayer(entityId: Uuid)
      requires Valid()
      modifies this, worldState
      ensures Valid()
      ensures worldState.components == old(worldState.components) - {entityId}
      ensures activeSessions == SessionsAfterRemove(old(activeSessions), old(worldState.components), entityId)
    {
      RemoveKeepsSessions(activeSessions, worldState.components, entityId);
      var identity := worldState.GetComponent(entityId, PLAYER_TAG);
      if identity.Some? {
        activeSessions := activeSessions - {identity.value.tag.userId};
      }
      worldState.RemoveEntity(entityId);
    }

    /** `getEntityIdByUserId(userId)`: the session's entity, which carries the user's tag. */
    function GetEntityIdByUserId(userId: Uuid): (r: Option<Uuid>)
      reads this, worldState
      ensures r.Some? <==> userId in activeSessions
      ensures r.Some? && Valid() ==> TaggedUser(worldState.components, r.value, userId)
      ensures r.None? && Valid() ==> forall e :: !TaggedUser(worldState.components, e, userId)
    {
      if userId in activeSessions then Some(activeSessions[userId]) else None
    }
  }
}
