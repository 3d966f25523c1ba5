/**
 * Client reconciliation and the remote-entity table (`NetworkSyncSystem.js`).
 * Each server snapshot lists entity ids and positions. The local player's
 * entry corrects the predicted position in three distance bands. Every
 * other entry creates or moves a remote player. Remote players missing from
 * the snapshot are then dropped.
 *
 * Ids arrive as JSON values: a number, or the UUID string the server's
 * `EntitySnapshotDTO` serialises. The table is a JavaScript object, so its
 * keys are strings, and the cleanup turns each key back with `Number(key)`.
 * That round trip works for numeric ids and yields NaN for a UUID.
 */
module NetworkSyncSystem {
  import opened Common
  import opened ClientPlayer

  const SNAP_THRESHOLD: real := 150.0
  const RECONCILE_THRESHOLD: real := 50.0
  const LERP_FACTOR: real := 0.1

  /** A snapshot id: a JavaScript number (an integer id) or a UUID string. */
  datatype EntityId = IntId(n: int) | UuidId(u: string)

  datatype EntitySnapshot = EntitySnapshot(id: EntityId, x: real, y: real)

  /** The payload of a state message; `entities` may be missing. */
  datatype GameState = GameState(entities: Option<seq<EntitySnapshot>>)

  /** The position of a remote player's sprite. */
  datatype RemotePos = RemotePos(x: real, y: real)

  datatype Pos = Pos(x: real, y: real)

  // ---------------------------------------------------------------------------
  // Distance-banded correction
  // ---------------------------------------------------------------------------

  function DistSq(x: real, y: real, sx: real, sy: real): (d: real)
    ensures d >= 0.0
  {
    (x - sx) * (x - sx) + (y - sy) * (y - sy)
  }

  /** Where `handleReconciliation` leaves the player at (x, y) for the server position (sx, sy).
      `Math.sqrt(d2) > t` is decided as `d2 > t * t`, both sides being non-negative. */
  function Reconcile(x: real, y: real, sx: real, sy: real): Pos
  {
    var d2 := DistSq(x, y, sx, sy);
    if d2 > SNAP_THRESHOLD * SNAP_THRESHOLD then Pos(sx, sy)
    else if d2 > RECONCILE_THRESHOLD * RECONCILE_THRESHOLD then
      Pos(x + (sx - x) * LERP_FACTOR, y + (sy - y) * LERP_FACTOR)
    else Pos(x, y)
  }

  /** The three bands: snap beyond 150, move a tenth of the way between 50 and 150, and
      ignore a drift of at most 50. */
  lemma ReconcileBands(x: real, y: real, sx: real, sy: real)
    ensures var d2, r := DistSq(x, y, sx, sy), Reconcile(x, y, sx, sy);
      && (d2 > 22500.0 ==> r == Pos(sx, sy))
      && (2500.0 < d2 <= 22500.0 ==> r == Pos(x + (sx - x) * 0.1, y + (sy - y) * 0.1))
      && (d2 <= 2500.0 ==> r == Pos(x, y))
  {
  }

  /** A correction never moves the player away from the server: a soft correction shrinks the
      squared distance to exactly 0.81 of what it was, a hard one to zero. */
  lemma {:induction false} ReconcileConverges(x: real, y: real, sx: real, sy: real)
    ensures var d2, r := DistSq(x, y, sx, sy), Reconcile(x, y, sx, sy);
      && DistSq(r.x, r.y, sx, sy) <= d2
      && (2500.0 < d2 <= 22500.0 ==> DistSq(r.x, r.y, sx, sy) == 0.81 * d2)
  {
    var d2 := DistSq(x, y, sx, sy);
    var nx, ny := x + (sx - x) * 0.1, y + (sy - y) * 0.1;
    assert nx - sx == (x - sx) * 0.9;
    assert ny - sy == (y - sy) * 0.9;
    assert DistSq(nx, ny, sx, sy) == 0.81 * d2 by {
      assert (nx - sx) * (nx - sx) == 0.81 * ((x - sx) * (x - sx));
      assert (ny - sy) * (ny - sy) == 0.81 * ((y - sy) * (y - sy));
    }
  }

  // ---------------------------------------------------------------------------
  // The remote-entity table as a function of the snapshot
  // ---------------------------------------------------------------------------

  /** `Number(key)` for the key of an id: the integer back for a numeric id, NaN (`None`) for
      a UUID, whose hyphens make it no JavaScript numeral. */
  function NumberOfKey(id: EntityId): (n: Option<int>)
    ensures id.IntId? ==> n == Some(id.n)
    ensures id.UuidId? ==> n.None?
  {
    match id
    case IntId(n) => Some(n)
    case UuidId(_) => None
  }

  /** The removal test of `cleanupDisconnected`, as written: `!activeIds.has(numId) && numId !== myEntityId`.
      A number is only ever the same value as a numeric id; NaN is the same value as none. */
  predicate RemovedAsWritten(key: EntityId, activeIds: set<EntityId>, me: EntityId)
  {
    var numId := NumberOfKey(key);
    !(numId.Some? && IntId(numId.value) in activeIds) && !(numId.Some? && IntId(numId.value) == me)
  }

  /** The table after the as-written cleanup. */
  function CleanupAsWritten(table: map<EntityId, RemotePos>, activeIds: set<EntityId>, me: EntityId)
    : (t: map<EntityId, RemotePos>)
    ensures t.Keys <= table.Keys
    ensures forall k :: k in t ==> t[k] == table[k]
    ensures forall k :: k in table ==> (k in t <==> !RemovedAsWritten(k, activeIds, me))
  {
    map k | k in table && !RemovedAsWritten(k, activeIds, me) :: table[k]
  }

  /** The cleanup as evidently intended: drop exactly the remote ids absent from the snapshot. */
  function CleanupIntended(table: map<EntityId, RemotePos>, activeIds: set<EntityId>)
    : (t: map<EntityId, RemotePos>)
    ensures t.Keys == table.Keys * activeIds
    ensures forall k :: k in t ==> t[k] == table[k]
  {
    map k | k in table && k in activeIds :: table[k]
  }

  /** The ids a list of snapshots names. */
  function Ids(es: seq<EntitySnapshot>): (s: set<EntityId>)
    ensures forall i :: 0 <= i < |es| ==> es[i].id in s
    ensures forall id :: id in s ==> exists i :: 0 <= i < |es| && es[i].id == id
  {
    set i | 0 <= i < |es| :: es[i].id
  }

  /** The table after `updateOtherPlayer` for every non-local entry of `es`, in order. */
  function ApplyRemotes(table: map<EntityId, RemotePos>, es: seq<EntitySnapshot>, me: EntityId)
    : map<EntityId, RemotePos>
    decreases |es|
  {
    if es == [] then table
    else
      var e := es[|es| - 1];
      var t := ApplyRemotes(table, es[..|es| - 1], me);
      if e.id == me then t else t[e.id := RemotePos(e.x, e.y)]
  }

  /** The position of the last entry for `id` in `es`. */
  function LastPos(es: seq<EntitySnapshot>, id: EntityId): RemotePos
    requires id in Ids(es)
    decreases |es|
  {
    var e := es[|es| - 1];
    if e.id == id then RemotePos(e.x, e.y)
    else
      assert forall i :: 0 <= i < |es| - 1 ==> es[..|es| - 1][i] == es[i];
      LastPos(es[..|es| - 1], id)
  }

  /** Applying a snapshot's entries adds exactly its remote ids, each at its last reported
      position, and leaves every other entry as it was. */
  lemma {:induction false} ApplyRemotesMeaning(table: map<EntityId, RemotePos>, es: seq<EntitySnapshot>, me: EntityId)
    ensures var t := ApplyRemotes(table, es, me);
      && t.Keys == table.Keys + (Ids(es) - {me})
      && (forall id :: id in Ids(es) && id != me ==> t[id] == LastPos(es, id))
      && (forall id :: id in table && id !in Ids(es) ==> t[id] == table[id])
    decreases |es|
  {
    if es != [] {
      var front := es[..|es| - 1];
      ApplyRemotesMeaning(table, front, me);
      assert Ids(es) == Ids(front) + {es[|es| - 1].id} by {
        assert forall i :: 0 <= i < |front| ==> front[i] == es[i];
        forall id | id in Ids(es) ensures id in Ids(front) + {es[|es| - 1].id} {
          var i :| 0 <= i < |es| && es[i].id == id;
          if i < |es| - 1 { assert front[i] == es[i]; }
        }
      }
    }
  }

  /** The local id never enters the table. */
  lemma {:induction false} ApplyRemotesSkipsMe(table: map<EntityId, RemotePos>, es: seq<EntitySnapshot>, me: EntityId)
    requires me !in table
    ensures me !in ApplyRemotes(table, es, me)
  {
    ApplyRemotesMeaning(table, es, me);
  }

  /** Where a run of local-player entries leaves the player: each one corrects, in order. */
  function ReconcileAll(p: Pos, es: seq<EntitySnapshot>, me: EntityId): Pos
    decreases |es|
  {
    if es == [] then p
    else
      var e := es[|es| - 1];
      var q := ReconcileAll(p, es[..|es| - 1], me);
      if e.id == me then Reconcile(q.x, q.y, e.x, e.y) else q
  }

  /** With numeric ids, a processed snapshot leaves exactly its remote ids in the table:
      remote players appear on first sight and disappear once absent. */
  lemma {:induction false} NumericIdsConverge(table: map<EntityId, RemotePos>, es: seq<EntitySnapshot>, me: EntityId)
    requires me !in table
    requires forall k :: k in table ==> k.IntId?
    requires forall i :: 0 <= i < |es| ==> es[i].id.IntId?
    ensures CleanupAsWritten(ApplyRemotes(table, es, me), Ids(es), me).Keys == Ids(es) - {me}
  {
    ApplyRemotesMeaning(table, es, me);
    var t := ApplyRemotes(table, es, me);
    var c := CleanupAsWritten(t, Ids(es), me);
    forall k | k in t ensures k.IntId? && k != me && (k in c <==> k in Ids(es)) {
      if k !in table {
        var i :| 0 <= i < |es| && es[i].id == k;
      }
    }
  }

  /** The intended cleanup leaves exactly the snapshot's remote ids, whatever kind of id they are. */
  lemma {:induction false} IntendedCleanupConverges(table: map<EntityId, RemotePos>, es: seq<EntitySnapshot>, me: EntityId)
    requires me !in table
    ensures CleanupIntended(ApplyRemotes(table, es, me), Ids(es)).Keys == Ids(es) - {me}
  {
    ApplyRemotesMeaning(table, es, me);
  }

  /** As written, a UUID id is created and deleted within the same snapshot: after processing,
      no remote player with a UUID id is left, even one the snapshot just reported. */
  lemma {:induction false} UuidRemotesVanish(table: map<EntityId, RemotePos>, es: seq<EntitySnapshot>, me: EntityId)
    ensures forall k :: k in CleanupAsWritten(ApplyRemotes(table, es, me), Ids(es), me) ==> k.IntId?
  {
  }

  /** The concrete case: one remote player with a UUID id, and it is gone after the snapshot
      that introduces it. */
  lemma UuidCounterexample()
    ensures var me, other := UuidId("me"), UuidId("3f2a6b1e-7c1d-4e8a-9b0f-2d5c6e7f8a90");
      var es := [EntitySnapshot(other, 100.0, 200.0)];
      && other in Ids(es) - {me}
      && other in ApplyRemotes(map[], es, me)
      && other !in CleanupAsWritten(ApplyRemotes(map[], es, me), Ids(es), me)
  {
    var me, other := UuidId("me"), UuidId("3f2a6b1e-7c1d-4e8a-9b0f-2d5c6e7f8a90");
    var es := [EntitySnapshot(other, 100.0, 200.0)];
    assert es[..0] == [];
    assert es[0].id == other;
  }

  /** On numeric ids the two cleanups agree. */
  lemma CleanupsAgreeOnNumericIds(table: map<EntityId, RemotePos>, activeIds: set<EntityId>, me: EntityId)
    requires me !in table
    requires forall k :: k in table ==> k.IntId?
    ensures CleanupAsWritten(table, activeIds, me) == CleanupIntended(table, activeIds)
  {
  }

  // ---------------------------------------------------------------------------
  // The system
  // ---------------------------------------------------------------------------

  class NetworkSyncSystem {
    const myEntityId: EntityId
    /** `otherEntities`: the remote players by id. */
    var otherEntities: map<EntityId, RemotePos>

    ghost predicate Valid()
      reads this
    {
      myEntityId !in otherEntities
    }

    constructor (myId: EntityId)
      ensures Valid() && myEntityId == myId && otherEntities == map[]
    {
      myEntityId := myId;
      otherEntities := map[];
    }

    /** `handleReconciliation(player, snapshot)` (the debug ghost is not modelled). */
    method HandleReconciliation(player: Player, snapshot: EntitySnapshot)
      modifies player
      ensures Pos(player.x, player.y) == Reconcile(old(player.x), old(player.y), snapshot.x, snapshot.y)
      ensures player.isDashingPrediction == old(player.isDashingPrediction)
    {
      var dx := player.x - snapshot.x;
      var dy := player.y - snapshot.y;
      var distanceSq := dx * dx + dy * dy;
      assert distanceSq == DistSq(player.x, player.y, snapshot.x, snapshot.y);
      if distanceSq > SNAP_THRESHOLD * SNAP_THRESHOLD {
        player.SyncPosition(snapshot.x, snapshot.y);
      } else if distanceSq > RECONCILE_THRESHOLD * RECONCILE_THRESHOLD {
        var newX := player.x + (snapshot.x - player.x) * LERP_FACTOR;
        var newY := player.y + (snapshot.y - player.y) * LERP_FACTOR;
        player.SyncPosition(newX, newY);
      }
    }

    /** `updateOtherPlayer(snapshot)`: create the remote player on first sight, otherwise move it. */
    method UpdateOtherPlayer(snapshot: EntitySnapshot) returns (created: bool)
      modifies this
      ensures created <==> snapshot.id !in old(otherEntities)
      ensures otherEntities == old(otherEntities)[snapshot.id := RemotePos(snapshot.x, snapshot.y)]
    {
      created := snapshot.id !in otherEntities;
      otherEntities := otherEntities[snapshot.id := RemotePos(snapshot.x, snapshot.y)];
    }

    /** `cleanupDisconnected(activeIds)`: visit every key, turn it back with `Number(key)`, and
        delete the entry unless that number is an active id or the local id. A UUID key gives
        NaN, so its entry is always deleted (`UuidRemotesVanish`); the corrected test is
        `CleanupIntended`. */
    method CleanupDisconnected(activeIds: set<EntityId>)
      modifies this
      ensures otherEntities == CleanupAsWritten(old(otherEntities), activeIds, myEntityId)
    {
      var keys := otherEntities.Keys;
      ghost var visited: set<EntityId> := {};
      while keys != {}
        invariant keys == old(otherEntities).Keys - visited
        invariant otherEntities.Keys == keys + (visited * CleanupAsWritten(old(otherEntities), activeIds, myEntityId).Keys)
        invariant forall k :: k in otherEntities ==> otherEntities[k] == old(otherEntities)[k]
        decreases keys
      {
        var id :| id in keys;
        var numId := NumberOfKey(id);
        if !(numId.Some? && IntId(numId.value) in activeIds) && !(numId.Some? && IntId(numId.value) == myEntityId) {
          otherEntities := otherEntities - {id};
        }
        keys := keys - {id};
        visited := visited + {id};
      }
    }

    /** `processSnapshot(gameState, mainPlayer)`: nothing happens without a state or its entity
        list; otherwise every entry is applied in order and the as-written cleanup runs. What is
        left holds numeric ids only, so a UUID remote never outlives the snapshot that reports it;
        with numeric ids throughout, the table ends holding exactly the snapshot's remote ids
        (`NumericIdsConverge`). */
    method ProcessSnapshot(gameState: Option<GameState>, mainPlayer: Player?)
      requires Valid()
      modifies this, mainPlayer
      ensures Valid()
      ensures gameState.None? || gameState.value.entities.None? ==>
        otherEntities == old(otherEntities) && (mainPlayer != null ==> unchanged(mainPlayer))
      ensures gameState.Some? && gameState.value.entities.Some? ==>
        var es := gameState.value.entities.value;
        && otherEntities == CleanupAsWritten(ApplyRemotes(old(otherEntities), es, myEntityId), Ids(es), myEntityId)
        && (forall k :: k in otherEntities ==> k.IntId?)
        && ((forall k :: k in old(otherEntities) ==> k.IntId?) && (forall i :: 0 <= i < |es| ==> es[i].id.IntId?) ==>
              otherEntities.Keys == Ids(es) - {myEntityId})
        && (mainPlayer != null ==>
              Pos(mainPlayer.x, mainPlayer.y) == ReconcileAll(Pos(old(mainPlayer.x), old(mainPlayer.y)), es, myEntityId))
    {
      if gameState.None? || gameState.value.entities.None? {
        return;
      }
      var es := gameState.value.entities.value;
      var activeIds: set<EntityId> := {};
      for i := 0 to |es|
        invariant activeIds == Ids(es[..i])
        invariant otherEntities == ApplyRemotes(old(otherEntities), es[..i], myEntityId)
        invariant mainPlayer != null ==>
          Pos(mainPlayer.x, mainPlayer.y) == ReconcileAll(Pos(old(mainPlayer.x), old(mainPlayer.y)), es[..i], myEntityId)
        invariant myEntityId !in otherEntities
      {
        var snapshot := es[i];
        assert es[..i + 1][..i] == es[..i];
        assert es[..i + 1][i] == snapshot;
        activeIds := activeIds + {snapshot.id};
        if snapshot.id == myEntityId {
          if mainPlayer != null {
            HandleReconciliation(mainPlayer, snapshot);
          }
        } else {
          var _ := UpdateOtherPlayer(snapshot);
        }
      }
      assert es[..|es|] == es;
      CleanupDisconnected(activeIds);
      UuidRemotesVanish(old(otherEntities), es, myEntityId);
      if (forall k :: k in old(otherEntities) ==> k.IntId?) && (forall i :: 0 <= i < |es| ==> es[i].id.IntId?) {
        NumericIdsConverge(old(otherEntities), es, myEntityId);
      }
    }

    /** `destroy()`: every remote player is removed. */
    method Destroy()
      modifies this
      ensures otherEntities == map[]
    {
      otherEntities := map[];
    }
  }
}
