/**
 * A player's inventory (`InventoryComponent`): a fixed array of `capacity`
 * slots, each empty (`null`) or holding an `InventorySlot` object. Adding an
 * item stacks it on the first slot already holding that item, or else fills
 * the first empty slot; swapping exchanges two slots; clearing empties all.
 *
 * The array is specified by an abstract view, `contents`: one `Option<Stack>`
 * per slot. The pure functions below say what each operation does to that
 * view, and the lemmas after them say what that means for the inventory.
 */
module InventoryComponents {
  import opened Common
  import opened ItemTypes
  import opened InventorySlots

  /** The value of one occupied slot. */
  datatype Stack = Stack(item: ItemType, quantity: int)

  type Contents = seq<Option<Stack>>

  predicate HoldsItem(s: Option<Stack>, item: ItemType) { s.Some? && s.value.item == item }

  predicate IsEmptySlot(s: Option<Stack>) { s.None? }

  /** The index of the first slot satisfying `p`, if any. */
  function First(v: Contents, p: Option<Stack> -> bool): (k: Option<nat>)
    ensures k.None? <==> forall j :: 0 <= j < |v| ==> !p(v[j])
    ensures k.Some? ==> k.value < |v| && p(v[k.value]) && forall j :: 0 <= j < k.value ==> !p(v[j])
    decreases |v|
  {
    if |v| == 0 then None
    else if p(v[0]) then Some(0)
    else
      match First(v[1..], p)
      case None => None
      case Some(k) => Some(k + 1)
  }

  /** Every empty slot: a fresh inventory and a cleared one. */
  function EmptyContents(capacity: nat): (v: Contents)
    ensures |v| == capacity && forall j :: 0 <= j < capacity ==> v[j].None?
  {
    seq(capacity, _ => None)
  }

  // ---------------------------------------------------------------------------
  // addItem
  // ---------------------------------------------------------------------------

  datatype AddOutcome = AddOutcome(contents: Contents, added: bool)

  /** What `addItem(item, quantity)` does to the slots. */
  function AddToContents(v: Contents, item: ItemType, quantity: int): AddOutcome
  {
    match First(v, s => HoldsItem(s, item))
    case Some(k) =>
      AddOutcome(v[k := Some(Stack(item, Wrap32(v[k].value.quantity + quantity)))], true)
    case None =>
      match First(v, IsEmptySlot)
      case Some(k) => AddOutcome(v[k := Some(Stack(item, quantity))], true)
      case None => AddOutcome(v, false)
  }

  /** When some slot holds the item, the quantity goes onto the first such slot, with no
      stack limit, and nothing else changes. */
  lemma {:induction false} AddStacksOnFirstMatch(v: Contents, item: ItemType, quantity: int, k: nat)
    requires k < |v| && HoldsItem(v[k], item)
    requires forall j :: 0 <= j < k ==> !HoldsItem(v[j], item)
    ensures AddToContents(v, item, quantity)
         == AddOutcome(v[k := Some(Stack(item, Wrap32(v[k].value.quantity + quantity)))], true)
  {
    var f := First(v, s => HoldsItem(s, item));
    assert f.Some?;
  }

  /** When no slot holds the item, it fills the first empty slot and nothing else changes. */
  lemma {:induction false} AddFillsFirstEmpty(v: Contents, item: ItemType, quantity: int, k: nat)
    requires forall j :: 0 <= j < |v| ==> !HoldsItem(v[j], item)
    requires k < |v| && v[k].None?
    requires forall j :: 0 <= j < k ==> v[j].Some?
    ensures AddToContents(v, item, quantity) == AddOutcome(v[k := Some(Stack(item, quantity))], true)
  {
    assert First(v, s => HoldsItem(s, item)).None?;
    var f := First(v, IsEmptySlot);
    assert f.Some?;
  }

  /** The add fails, changing nothing, exactly when no slot holds the item and none is empty. */
  lemma {:induction false} AddFailsOnlyWhenFull(v: Contents, item: ItemType, quantity: int)
    ensures !AddToContents(v, item, quantity).added <==>
      forall j :: 0 <= j < |v| ==> v[j].Some? && v[j].value.item != item
    ensures !AddToContents(v, item, quantity).added ==> AddToContents(v, item, quantity).contents == v
  {
    var holder := First(v, s => HoldsItem(s, item));
    var empty := First(v, IsEmptySlot);
    if holder.None? && empty.None? {
      forall j | 0 <= j < |v|
        ensures v[j].Some? && v[j].value.item != item
      {
        assert !HoldsItem(v[j], item) && !IsEmptySlot(v[j]);
      }
    }
  }

  /** Slots holding other items are never touched, and the slot count never changes. */
  lemma {:induction false} AddKeepsOtherItems(v: Contents, item: ItemType, quantity: int)
    ensures |AddToContents(v, item, quantity).contents| == |v|
    ensures forall j :: 0 <= j < |v| && v[j].Some? && v[j].value.item != item ==>
      AddToContents(v, item, quantity).contents[j] == v[j]
  {
  }

  /** No item occupies two slots. */
  ghost predicate NoDuplicateItems(v: Contents)
  {
    forall i, j :: 0 <= i < |v| && 0 <= j < |v| && i != j && v[i].Some? && v[j].Some? ==>
      v[i].value.item != v[j].value.item
  }

  /** Because stacking is tried first, adding never puts one item into a second slot. */
  lemma {:induction false} AddKeepsItemsUnique(v: Contents, item: ItemType, quantity: int)
    requires NoDuplicateItems(v)
    ensures NoDuplicateItems(AddToContents(v, item, quantity).contents)
  {
    var r := AddToContents(v, item, quantity).contents;
    var holder := First(v, s => HoldsItem(s, item));
    if holder.None? {
      forall i, j | 0 <= i < |r| && 0 <= j < |r| && i != j && r[i].Some? && r[j].Some?
        ensures r[i].value.item != r[j].value.item
      {
        if r[i].value.item == item && r[j].value.item == item {
          // At most one slot changed, and it was empty; the other would already hold the item.
          assert !HoldsItem(v[i], item) && !HoldsItem(v[j], item);
        }
      }
    }
  }

  // ---------------------------------------------------------------------------
  // swapItems
  // ---------------------------------------------------------------------------

  datatype SwapOutcome = SwapOutcome(contents: Contents, swapped: bool)

  /** What `swapItems(first, second)` does to the slots. */
  function SwapContents(v: Contents, first: int, second: int): SwapOutcome
  {
    if first < 0 || second < 0 || first >= |v| || second >= |v| || first == second then SwapOutcome(v, false)
    else SwapOutcome(v[first := v[second]][second := v[first]], true)
  }

  /** A swap either refuses (indices out of range or equal), changing nothing, or exchanges
      exactly the two slots. */
  lemma {:induction false} SwapExchangesExactlyTwo(v: Contents, first: int, second: int)
    ensures var r := SwapContents(v, first, second);
      && |r.contents| == |v|
      && (r.swapped <==> 0 <= first < |v| && 0 <= second < |v| && first != second)
      && (!r.swapped ==> r.contents == v)
      && (r.swapped ==> r.contents[first] == v[second] && r.contents[second] == v[first])
      && forall j :: 0 <= j < |v| && j != first && j != second ==> r.contents[j] == v[j]
  {
  }

  /** Swapping the same two slots twice restores the inventory. */
  lemma {:induction false} SwapTwiceRestores(v: Contents, first: int, second: int)
    ensures var once := SwapContents(v, first, second).contents;
      SwapContents(once, first, second).contents == v
  {
    var once := SwapContents(v, first, second).contents;
    if SwapContents(v, first, second).swapped {
      assert SwapContents(once, first, second).contents == once[first := once[second]][second := once[first]];
      assert once[first := once[second]][second := once[first]] == v;
    }
  }

  /** A swap only rearranges: the multiset of slot values is unchanged. */
  lemma {:induction false} SwapIsPermutation(v: Contents, first: int, second: int)
    ensures multiset(SwapContents(v, first, second).contents) == multiset(v)
  {
    if SwapContents(v, first, second).swapped {
      var a := v[first := v[second]];
      assert multiset(a) == multiset(v) - multiset{v[first]} + multiset{v[second]};
      assert multiset(a[second := v[first]]) == multiset(a) - multiset{a[second]} + multiset{v[first]};
    }
  }

  // ---------------------------------------------------------------------------
  // The component
  // ---------------------------------------------------------------------------

  class InventoryComponent {
    const capacity: nat
    const slots: array<InventorySlot?>
    /** The abstract view of `slots`. */
    ghost var contents: Contents
    /** Every slot object this inventory has created. */
    ghost var Repr: set<InventorySlot>

    ghost predicate Valid()
      reads this, slots, Repr
    {
      && slots.Length == capacity
      && |contents| == capacity
      && (forall i :: 0 <= i < capacity ==> (slots[i] == null <==> contents[i].None?))
      && (forall i :: 0 <= i < capacity && slots[i] != null ==>
            && slots[i] in Repr
            && IsInt32(slots[i].quantity)
            && contents[i] == Some(Stack(slots[i].item, slots[i].quantity)))
      && (forall i, j :: 0 <= i < j < capacity && slots[i] != null && slots[j] != null ==> slots[i] != slots[j])
    }

    /** `new InventoryComponent(capacity)`: `capacity` empty slots. */
    constructor (capacity: nat)
      ensures Valid()
      ensures this.capacity == capacity && contents == EmptyContents(capacity)
      ensures fresh(slots) && Repr == {}
    {
      this.capacity := capacity;
      slots := new InventorySlot?[capacity](_ => null);
      contents := EmptyContents(capacity);
      Repr := {};
    }

    /** The stacking branch of `addItem`: slot `i` gains `quantity`, with int wrap-around. */
    method StackOnto(i: nat, quantity: int)
      requires Valid() && i < capacity && slots[i] != null && IsInt32(quantity)
      modifies this, slots[i]
      ensures Valid() && Repr == old(Repr)
      ensures contents == old(contents)[i := Some(Stack(old(slots[i].item), Wrap32(old(slots[i].quantity) + quantity)))]
    {
      var slot := slots[i];
      slot.AddQuantity(quantity);
      contents := contents[i := Some(Stack(slot.item, slot.quantity))];
    }

    /** The empty-slot branch of `addItem`: a new slot object goes into slot `i`. */
    method PlaceNew(i: nat, item: ItemType, quantity: int)
      requires Valid() && i < capacity && slots[i] == null && IsInt32(quantity)
      modifies this, slots
      ensures Valid() && fresh(Repr - old(Repr))
      ensures contents == old(contents)[i := Some(Stack(item, quantity))]
    {
      var slot := new InventorySlot(item, quantity);
      slots[i] := slot;
      contents := contents[i := Some(Stack(item, quantity))];
      Repr := Repr + {slot};
    }

    /** `addItem(item, quantity)`: stack on the first slot holding `item`, else fill the first
        empty slot, else report a full inventory. */
    method AddItem(item: ItemType, quantity: int) returns (added: bool)
      requires Valid() && IsInt32(quantity)
      modifies this, slots, Repr
      ensures Valid() && fresh(Repr - old(Repr))
      ensures AddOutcome(contents, added) == AddToContents(old(contents), item, quantity)
    {
      // Stack items.
      for i := 0 to capacity
        invariant forall j :: 0 <= j < i ==> !HoldsItem(contents[j], item)
      {
        var slot := slots[i];
        if slot != null && slot.item == item {
          AddStacksOnFirstMatch(contents, item, quantity, i);
          StackOnto(i, quantity);
          return true;
        }
      }
      // Add the item to an empty slot.
      for i := 0 to capacity
        invariant forall j :: 0 <= j < i ==> contents[j].Some?
      {
        if slots[i] == null {
          AddFillsFirstEmpty(contents, item, quantity, i);
          PlaceNew(i, item, quantity);
          return true;
        }
      }
      AddFailsOnlyWhenFull(contents, item, quantity);
      return false;
    }

    /** `swapItems(first, second)`: exchange two distinct in-range slots. */
    method SwapItems(first: int, second: int) returns (swapped: bool)
      requires Valid()
      modifies this, slots
      ensures Valid() && Repr == old(Repr)
      ensures SwapOutcome(contents, swapped) == SwapContents(old(contents), first, second)
    {
      if first < 0 || second < 0 || first >= capacity || second >= capacity || first == second {
        return false;
      }
      var temp := slots[first];
      slots[first] := slots[second];
      slots[second] := temp;
      contents := contents[first := contents[second]][second := contents[first]];
      return true;
    }

    /** `getSlot(index)`: `null` out of range or for an empty slot, otherwise the slot object,
        whose item and quantity are the view's. */
    function GetSlot(index: int): (s: InventorySlot?)
      requires Valid()
      reads this, slots, Repr
      ensures s == null <==> !(0 <= index < capacity) || contents[index].None?
      ensures s != null ==> s in Repr && contents[index] == Some(Stack(s.item, s.quantity))
    {
      if index < 0 || index >= capacity then null else slots[index]
    }

    /** `clear()`: every slot becomes empty. */
    method Clear()
      requires Valid()
      modifies this, slots
      ensures Valid() && Repr == old(Repr)
      ensures contents == EmptyContents(capacity)
    {
      for i := 0 to capacity
        invariant Valid() && Repr == old(Repr)
        invariant forall j :: 0 <= j < i ==> contents[j].None?
      {
        slots[i] := null;
        contents := contents[i := None];
      }
      assert contents == EmptyContents(capacity);
    }
  }
}
