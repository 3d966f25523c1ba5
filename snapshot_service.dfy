/**
 * The server's outbound state (`SnapshotService`): a frequent broadcast of
 * every positioned entity, and a per-player statistics message sent only when
 * the player's whole-number statistics differ from the last ones sent to
 * them. Messages are recorded in `outbox` in the order they are sent; the
 * clock is a parameter.
 */
module SnapshotService {
  import opened Common
  import opened Components
  import opened WorldStates

  /** `PlayerStatsDTO`: the statistics, cast to `int`. */
  datatype PlayerStats = PlayerStats(health: int, stamina: int, hunger: int, thirst: int, temperature: int)

  /** `EntitySnapshotDTO`. */
  datatype EntitySnapshot = EntitySnapshot(id: Uuid, x: real, y: real)

  datatype Message =
    | GameState(timestamp: int, entities: seq<EntitySnapshot>)   // to "/topic/gamestate"
    | StatsUpdate(userId: Uuid, stats: PlayerStats)               // to "/topic/stats/" + userId

  /** The cache and the messages sent so far. */
  datatype Sent = Sent(cache: map<Uuid, PlayerStats>, messages: seq<Message>)

  const STATS_CLASSES: seq<ComponentClass> := [SURVIVAL, VITALITY]

  function Ids(ss: seq<EntitySnapshot>): (ids: seq<Uuid>)
    ensures |ids| == |ss| && forall i :: 0 <= i < |ss| ==> ids[i] == ss[i].id
  {
    seq(|ss|, i requires 0 <= i < |ss| => ss[i].id)
  }

  /** The statistics `processStatsForPlayer` would send for an entity: `None` when it lacks its
      vitality or its survival record. */
  function StatsOf(s: Store, entityId: Uuid): (r: Option<PlayerStats>)
    requires WellKeyed(s)
    ensures r.Some? <==> entityId in s && VITALITY in s[entityId] && SURVIVAL in s[entityId]
    ensures r.Some? ==>
      var v, sv := s[entityId][VITALITY].vitality, s[entityId][SURVIVAL].survival;
      r.value == PlayerStats(JavaIntCast(v.health), JavaIntCast(v.stamina), JavaIntCast(sv.hunger),
                             JavaIntCast(sv.thirst), JavaIntCast(sv.temperature))
  {
    match (Lookup(s, entityId, VITALITY), Lookup(s, entityId, SURVIVAL))
    case (Some(VitalityC(v)), Some(SurvivalC(sv))) =>
      Some(PlayerStats(JavaIntCast(v.health), JavaIntCast(v.stamina), JavaIntCast(sv.hunger),
                       JavaIntCast(sv.thirst), JavaIntCast(sv.temperature)))
    case _ => None
  }

  /** Send-on-change: the stats go out, and into the cache, unless the cache already holds
      exactly them for that user. */
  function Offer(acc: Sent, userId: Uuid, current: PlayerStats): (r: Sent)
    ensures r.cache == acc.cache[userId := current]
    ensures r.messages == acc.messages + (if userId in acc.cache && acc.cache[userId] == current then []
                                          else [StatsUpdate(userId, current)])
  {
    if userId !in acc.cache || acc.cache[userId] != current then
      Sent(acc.cache[userId := current], acc.messages + [StatsUpdate(userId, current)])
    else
      assert acc.cache[userId := current] == acc.cache;
      acc
  }

  /** `processStatsForPlayer(entityId, userId)`. */
  function ProcessStats(acc: Sent, s: Store, entityId: Uuid, userId: Uuid): Sent
    requires WellKeyed(s)
  {
    match StatsOf(s, entityId)
    case None => acc
    case Some(current) => Offer(acc, userId, current)
  }

  /** One entity of `broadcastPlayerStats`'s loop: only a tagged entity is processed. */
  function StatsStep(acc: Sent, s: Store, entityId: Uuid): Sent
    requires WellKeyed(s)
  {
    match Lookup(s, entityId, PLAYER_TAG)
    case Some(PlayerTagC(tag)) => ProcessStats(acc, s, entityId, tag.userId)
    case _ => acc
  }

  /** `broadcastPlayerStats` over the entities in `order`, first to last. */
  function StatsRound(acc: Sent, s: Store, order: seq<Uuid>): Sent
    requires WellKeyed(s)
  {
    if order == [] then acc
    else StatsStep(StatsRound(acc, s, order[..|order| - 1]), s, order[|order| - 1])
  }

  // ---------------------------------------------------------------------------
  // Properties
  // ---------------------------------------------------------------------------

  /** Unchanged stats are sent once: a second offer of the same stats sends nothing and leaves
      the cache as it is. */
  lemma {:induction false} OfferTwiceSendsOnce(acc: Sent, userId: Uuid, current: PlayerStats)
    ensures var once := Offer(acc, userId, current);
      Offer(once, userId, current) == once
  {
    var once := Offer(acc, userId, current);
    assert once.cache[userId] == current;
    assert once.cache[userId := current] == once.cache;
  }

  /** After `clearCache(userId)` the next offer for that user is always sent. */
  lemma {:induction false} ClearedCacheResends(acc: Sent, userId: Uuid, current: PlayerStats)
    ensures Offer(acc.(cache := acc.cache - {userId}), userId, current).messages
         == acc.messages + [StatsUpdate(userId, current)]
  {
  }

  /** Only a change is sent: the stats go out iff they differ from the cached ones or none are
      cached, compared after the cast to `int`. */
  lemma {:induction false} SendsExactlyOnChange(acc: Sent, userId: Uuid, current: PlayerStats)
    ensures |Offer(acc, userId, current).messages| == |acc.messages| + 1 <==>
      userId !in acc.cache || acc.cache[userId] != current
  {
  }

  /** The cast makes sub-unit changes invisible: two health values with the same whole part
      give the same message. */
  lemma {:induction false} FractionalChangeIsNotSent(acc: Sent, userId: Uuid, a: real, b: real, rest: PlayerStats)
    requires 0.0 <= a < 1000.0 && 0.0 <= b < 1000.0 && a.Floor == b.Floor
    requires userId in acc.cache && acc.cache[userId] == rest.(health := JavaIntCast(a))
    ensures Offer(acc, userId, rest.(health := JavaIntCast(b))) == acc.(cache := acc.cache)
  {
    assert JavaIntCast(a) == a.Floor && JavaIntCast(b) == b.Floor;
    assert acc.cache[userId := rest.(health := JavaIntCast(b))] == acc.cache;
  }

  /** A round only sends statistics, and only to the users tagged on the entities it visits. */
  lemma {:induction false} RoundSendsOnlyToTagged(acc: Sent, s: Store, order: seq<Uuid>)
    requires WellKeyed(s)
    ensures var r := StatsRound(acc, s, order);
      && |r.messages| >= |acc.messages| && r.messages[..|acc.messages|] == acc.messages
      && forall i :: |acc.messages| <= i < |r.messages| ==>
           r.messages[i].StatsUpdate? && exists id :: id in order && TaggedUser(s, id, r.messages[i].userId)
    decreases |order|
  {
    if order != [] {
      var prev := StatsRound(acc, s, order[..|order| - 1]);
      RoundSendsOnlyToTagged(acc, s, order[..|order| - 1]);
      var last := order[|order| - 1];
      var r := StatsStep(prev, s, last);
      assert r.messages[..|prev.messages|] == prev.messages;
      forall i | |acc.messages| <= i < |r.messages|
        ensures r.messages[i].StatsUpdate? && exists id :: id in order && TaggedUser(s, id, r.messages[i].userId)
      {
        if i < |prev.messages| {
          assert r.messages[i] == prev.messages[i];
          var id :| id in order[..|order| - 1] && TaggedUser(s, id, prev.messages[i].userId);
          assert id in order;
        } else {
          assert TaggedUser(s, last, r.messages[i].userId);
        }
      }
    }
  }

  /** No two tagged entities in `order` belong to the same user. */
  ghost predicate UsersDistinct(s: Store, order: seq<Uuid>)
  {
    forall i, j, u :: 0 <= i < j < |order| && TaggedUser(s, order[i], u) ==> !TaggedUser(s, order[j], u)
  }

  /** After a round, every visited tagged entity's current stats are cached for its user, and the
      users nobody visited keep their entries. */
  lemma {:induction false} RoundCachesCurrentStats(acc: Sent, s: Store, order: seq<Uuid>)
    requires WellKeyed(s) && UsersDistinct(s, order)
    ensures var r := StatsRound(acc, s, order);
      && (forall k :: 0 <= k < |order| ==> CachedFor(r.cache, s, order[k]))
      && (forall u :: u in acc.cache && (forall k :: 0 <= k < |order| ==> !TaggedUser(s, order[k], u)) ==>
            u in r.cache && r.cache[u] == acc.cache[u])
    decreases |order|
  {
    if order != [] {
      var init := order[..|order| - 1];
      var last := order[|order| - 1];
      assert UsersDistinct(s, init) by {
        forall i, j, u | 0 <= i < j < |init| && TaggedUser(s, init[i], u)
          ensures !TaggedUser(s, init[j], u)
        {
          assert init[i] == order[i] && init[j] == order[j];
        }
      }
      RoundCachesCurrentStats(acc, s, init);
      var prev := StatsRound(acc, s, init);
      var r := StatsStep(prev, s, last);
      forall k | 0 <= k < |order|
        ensures CachedFor(r.cache, s, order[k])
      {
        if k < |order| - 1 {
          assert order[k] == init[k];
          assert CachedFor(prev.cache, s, order[k]);
          if last in s && PLAYER_TAG in s[last] && StatsOf(s, last).Some? {
            var u := s[last][PLAYER_TAG].tag.userId;
            assert TaggedUser(s, last, u);
            assert !TaggedUser(s, order[k], u);
          }
        }
      }
      forall u | u in acc.cache && (forall k :: 0 <= k < |order| ==> !TaggedUser(s, order[k], u))
        ensures u in r.cache && r.cache[u] == acc.cache[u]
      {
        assert forall k :: 0 <= k < |init| ==> init[k] == order[k];
        assert !TaggedUser(s, order[|order| - 1], u);
      }
    }
  }

  /** A tagged entity with stats has exactly those stats cached for its user. */
  ghost predicate CachedFor(cache: map<Uuid, PlayerStats>, s: Store, id: Uuid)
    requires WellKeyed(s)
  {
    id in s && PLAYER_TAG in s[id] && StatsOf(s, id).Some? ==>
      var u := s[id][PLAYER_TAG].tag.userId;
      u in cache && cache[u] == StatsOf(s, id).value
  }

  /** A round over a cache that already holds everyone's current stats sends nothing and
      changes nothing. */
  lemma {:induction false} SettledRoundIsSilent(acc: Sent, s: Store, order: seq<Uuid>)
    requires WellKeyed(s)
    requires forall k :: 0 <= k < |order| ==> CachedFor(acc.cache, s, order[k])
    ensures StatsRound(acc, s, order) == acc
    decreases |order|
  {
    if order != [] {
      var init := order[..|order| - 1];
      assert forall k :: 0 <= k < |init| ==> init[k] == order[k];
      SettledRoundIsSilent(acc, s, init);
      var last := order[|order| - 1];
      assert CachedFor(acc.cache, s, last);
      if last in s && PLAYER_TAG in s[last] && StatsOf(s, last).Some? {
        var u := s[last][PLAYER_TAG].tag.userId;
        assert acc.cache[u := StatsOf(s, last).value] == acc.cache;
      }
    }
  }

  /** With one tagged entity per user, repeating `broadcastPlayerStats` on an unchanged world
      sends nothing the second time. */
  lemma {:induction false} SecondRoundSendsNothing(acc: Sent, s: Store, order: seq<Uuid>)
    requires WellKeyed(s) && UsersDistinct(s, order)
    ensures var once := StatsRound(acc, s, order);
      StatsRound(once, s, order) == once
  {
    RoundCachesCurrentStats(acc, s, order);
    SettledRoundIsSilent(StatsRound(acc, s, order), s, order);
  }

  // ---------------------------------------------------------------------------
  // The service
  // ---------------------------------------------------------------------------

  class SnapshotService {
    const worldState: WorldState
    var lastSentStats: map<Uuid, PlayerStats>
    var outbox: seq<Message>

    constructor (worldState: WorldState)
      ensures this.worldState == worldState && lastSentStats == map[] && outbox == []
    {
      this.worldState := worldState;
      lastSentStats := map[];
      outbox := [];
    }

    /** `broadcastState()` at time `now`: one snapshot per positioned entity, each with that
        entity's coordinates, sent as one message. `snapshots` is the list it sent. */
    method BroadcastState(now: int) returns (snapshots: seq<EntitySnapshot>)
      requires worldState.Valid()
      modifies this
      ensures lastSentStats == old(lastSentStats)
      ensures outbox == old(outbox) + [GameState(now, snapshots)]
      ensures Distinct(Ids(snapshots))
      ensures forall id :: id in Ids(snapshots) <==> id in worldState.components && POSITION in worldState.components[id]
      ensures forall e :: e in snapshots ==>
        e.id in worldState.components && POSITION in worldState.components[e.id]
        && worldState.components[e.id][POSITION].position.x == e.x
        && worldState.components[e.id][POSITION].position.y == e.y
    {
      var entities := worldState.GetEntitiesWith([POSITION]);
      snapshots := [];
      for n := 0 to |entities|
        invariant Ids(snapshots) == entities[..n]
        invariant forall e :: e in snapshots ==>
          e.id in worldState.components && POSITION in worldState.components[e.id]
          && worldState.components[e.id][POSITION].position.x == e.x
          && worldState.components[e.id][POSITION].position.y == e.y
      {
        var id := entities[n];
        var pos := worldState.GetComponent(id, POSITION);
        assert POSITION in [POSITION];
        if pos.Some? {
          snapshots := snapshots + [EntitySnapshot(id, pos.value.position.x, pos.value.position.y)];
        }
        assert entities[..n + 1] == entities[..n] + [id];
      }
      assert entities[..|entities|] == entities;
      forall id | id in worldState.components && POSITION in worldState.components[id]
        ensures id in entities
      {
        assert HasAll(worldState.components[id], [POSITION]);
      }
      outbox := outbox + [GameState(now, snapshots)];
    }

    /** `broadcastPlayerStats()`: offer the stats of every tagged entity with survival and
        vitality records. `order` is the order the entities were visited in. */
    method BroadcastPlayerStats() returns (ghost order: seq<Uuid>)
      requires worldState.Valid()
      modifies this
      ensures Distinct(order)
      ensures forall id :: id in order <==> id in worldState.components && HasAll(worldState.components[id], STATS_CLASSES)
      ensures Sent(lastSentStats, outbox) == StatsRound(Sent(old(lastSentStats), old(outbox)), worldState.components, order)
    {
      var entities := worldState.GetEntitiesWith(STATS_CLASSES);
      order := entities;
      ghost var acc0 := Sent(lastSentStats, outbox);
      for n := 0 to |entities|
        invariant Sent(lastSentStats, outbox) == StatsRound(acc0, worldState.components, entities[..n])
      {
        var entityId := entities[n];
        var playerTag := worldState.GetComponent(entityId, PLAYER_TAG);
        assert entities[..n + 1][..n] == entities[..n];
        if playerTag.Some? {
          ProcessStatsForPlayer(entityId, playerTag.value.tag.userId);
        }
      }
      assert entities[..|entities|] == entities;
    }

    /** `processStatsForPlayer(entityId, userId)`. */
    method ProcessStatsForPlayer(entityId: Uuid, userId: Uuid)
      requires worldState.Valid()
      modifies this
      ensures Sent(lastSentStats, outbox) == ProcessStats(Sent(old(lastSentStats), old(outbox)), worldState.components, entityId, userId)
    {
      var vital := worldState.GetComponent(entityId, VITALITY);
      var surv := worldState.GetComponent(entityId, SURVIVAL);
      if vital.None? || surv.None? {
        return;
      }
      var v, s := vital.value.vitality, surv.value.survival;
      var currentStats := PlayerStats(JavaIntCast(v.health), JavaIntCast(v.stamina), JavaIntCast(s.hunger),
                                      JavaIntCast(s.thirst), JavaIntCast(s.temperature));
      if userId !in lastSentStats || lastSentStats[userId] != currentStats {
        lastSentStats := lastSentStats[userId := currentStats];
        outbox := outbox + [StatsUpdate(userId, currentStats)];
      }
    }

    /** `clearCache(userId)`: forget what was sent to the user. */
    method ClearCache(userId: Uuid)
      modifies this
      ensures lastSentStats == old(lastSentStats) - {userId} && outbox == old(outbox)
    {
      lastSentStats := lastSentStats - {userId};
    }
  }
}
