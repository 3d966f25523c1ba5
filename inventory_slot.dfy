/**
 * One stack of an inventory (`InventorySlot`): an item and a Java `int`
 * quantity that `addQuantity` and `removeQuantity` change in place, with
 * the 32-bit wrap-around of `+=` and `-=` and no bound check either way.
 */
module InventorySlots {
  import opened Common
  import opened ItemTypes

  /** Adding and then removing the same amount restores any quantity, wrap-around included. */
  lemma {:induction false} AddThenRemoveRestores(q: int, amount: int)
    requires IsInt32(q)
    ensures Wrap32(Wrap32(q + amount) - amount) == q
  {
    var once := Wrap32(q + amount);
    var back := Wrap32(once - amount);
    // `back` and `q` are both int32 values congruent modulo 2^32.
    assert (back - (once - amount)) % TWO_32 == 0;
    assert (once - (q + amount)) % TWO_32 == 0;
    CongruentInt32Equal(back, q);
  }

  /** Two int32 values whose difference is a multiple of 2^32 are equal. */
  lemma {:induction false} CongruentInt32Equal(a: int, b: int)
    requires IsInt32(a) && IsInt32(b)
    requires (a - b) % TWO_32 == 0
    ensures a == b
  {
    var d := a - b;
    assert -TWO_32 < d < TWO_32;
  }

  class InventorySlot {
    var item: ItemType
    var quantity: int

    /** Java's record-style constructor: an item and a starting quantity. */
    constructor (item: ItemType, quantity: int)
      requires IsInt32(quantity)
      ensures this.item == item && this.quantity == quantity
    {
      this.item := item;
      this.quantity := quantity;
    }

    /** `addQuantity(amount)`: `quantity += amount` on a 32-bit int; the item is untouched. */
    method AddQuantity(amount: int)
      requires IsInt32(quantity) && IsInt32(amount)
      modifies this
      ensures quantity == Wrap32(old(quantity) + amount)
      ensures item == old(item)
    {
      quantity := Wrap32(quantity + amount);
    }

    /** `removeQuantity(amount)`: `quantity -= amount`, which may go negative; the item is untouched. */
    method RemoveQuantity(amount: int)
      requires IsInt32(quantity) && IsInt32(amount)
      modifies this
      ensures quantity == Wrap32(old(quantity) - amount)
      ensures item == old(item)
    {
      quantity := Wrap32(quantity - amount);
    }
  }
}
