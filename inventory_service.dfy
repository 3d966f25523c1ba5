/**
 * The server's inventory commands (`InventoryService`): add an item by its
 * name, or move a stack between two slots, on the inventory component of an
 * entity; a successful change is pushed to the owning player. The push goes
 * through the snapshot service's `sendInventoryUpdate`, which is not part of
 * this model: each push is recorded in `outbox`, carrying the inventory object
 * itself as the source passes it.
 */
module InventoryServices {
  import opened Common
  import opened ItemTypes
  import opened Components
  import opened WorldStates
  import opened InventoryComponents

  /** `sendInventoryUpdate(userId, inventory)`. */
  datatype InventoryUpdate = InventoryUpdate(userId: Uuid, inventory: InventoryComponent)

  /** The entity's inventory component, `null` as `None`. */
  function InventoryOf(s: Store, id: Uuid): (r: Option<InventoryComponent>)
    ensures r.Some? <==> id in s && INVENTORY in s[id] && s[id][INVENTORY].InventoryC?
    ensures r.Some? ==> s[id][INVENTORY] == InventoryC(r.value)
  {
    match Lookup(s, id, INVENTORY)
    case Some(InventoryC(inv)) => Some(inv)
    case _ => None
  }

  /** Everything an inventory operation may write: the component, its slot array and slots. */
  ghost function Footprint(inv: Option<InventoryComponent>): set<object>
    reads if inv.Some? then {inv.value} else {}
  {
    if inv.Some? then {inv.value, inv.value.slots} + inv.value.Repr else {}
  }

  /** The pushes `sendUpdate` makes: one to the tagged owner, none for an untagged entity. */
  function UpdatesFor(s: Store, id: Uuid, inv: InventoryComponent): (u: seq<InventoryUpdate>)
    ensures |u| <= 1
    ensures |u| == 1 <==> id in s && PLAYER_TAG in s[id] && s[id][PLAYER_TAG].PlayerTagC?
    ensures |u| == 1 ==> u[0] == InventoryUpdate(s[id][PLAYER_TAG].tag.userId, inv)
  {
    match Lookup(s, id, PLAYER_TAG)
    case Some(PlayerTagC(tag)) => [InventoryUpdate(tag.userId, inv)]
    case _ => []
  }

  class InventoryService {
    const worldState: WorldState
    /** The updates sent, oldest first. */
    var outbox: seq<InventoryUpdate>

    constructor (worldState: WorldState)
      ensures this.worldState == worldState && outbox == []
    {
      this.worldState := worldState;
      outbox := [];
    }

    /** `addItem(entityId, itemId, quantity)`: nothing without an inventory or for an unknown item
        name; otherwise the inventory's `addItem`, and a push exactly when it succeeded. */
    method AddItem(entityId: Uuid, itemId: Option<string>, quantity: int)
      requires worldState.Valid() && IsInt32(quantity)
      requires InventoryOf(worldState.components, entityId).Some? ==>
        InventoryOf(worldState.components, entityId).value.Valid()
      modifies this, Footprint(InventoryOf(worldState.components, entityId))
      ensures var inv := InventoryOf(worldState.components, entityId);
        && (inv.None? ==> outbox == old(outbox))
        && (inv.Some? && FromString(itemId).None? ==>
              outbox == old(outbox) && inv.value.contents == old(inv.value.contents))
        && (inv.Some? && FromString(itemId).Some? ==>
              var r := AddToContents(old(inv.value.contents), FromString(itemId).value, quantity);
              && inv.value.Valid()
              && inv.value.contents == r.contents
              && outbox == old(outbox) + (if r.added then UpdatesFor(worldState.components, entityId, inv.value) else []))
    {
      var inventory := InventoryOf(worldState.components, entityId);
      if inventory.None? {
        return;
      }
      var validItemId := FromString(itemId);
      if validItemId.None? {
        return;
      }
      var success := inventory.value.AddItem(validItemId.value, quantity);
      if success {
        SendUpdate(entityId, inventory.value);
      }
    }

    /** `moveItem(entityId, fromSlot, toSlot)`: the inventory's `swapItems`, and a push exactly
        when it succeeded. */
    method MoveItem(entityId: Uuid, fromSlot: int, toSlot: int)
      requires worldState.Valid()
      requires InventoryOf(worldState.components, entityId).Some? ==>
        InventoryOf(worldState.components, entityId).value.Valid()
      modifies this, Footprint(InventoryOf(worldState.components, entityId))
      ensures var inv := InventoryOf(worldState.components, entityId);
        && (inv.None? ==> outbox == old(outbox))
        && (inv.Some? ==>
              var r := SwapContents(old(inv.value.contents), fromSlot, toSlot);
              && inv.value.Valid()
              && inv.value.contents == r.contents
              && outbox == old(outbox) + (if r.swapped then UpdatesFor(worldState.components, entityId, inv.value) else []))
    {
      var inventory := InventoryOf(worldState.components, entityId);
      if inventory.None? {
        return;
      }
      var success := inventory.value.SwapItems(fromSlot, toSlot);
      if success {
        SendUpdate(entityId, inventory.value);
      }
    }

    /** `sendUpdate(entityId, inventory)`: push to the player tagged on the entity, if any. */
    method SendUpdate(entityId: Uuid, inventory: InventoryComponent)
      requires worldState.Valid()
      modifies this
      ensures outbox == old(outbox) + UpdatesFor(worldState.components, entityId, inventory)
    {
      var playerTag := worldState.GetComponent(entityId, PLAYER_TAG);
      if playerTag.Some? {
        outbox := outbox + [InventoryUpdate(playerTag.value.tag.userId, inventory)];
      }
    }
  }
}
