/** Packed item deltas, and the containers they are applied to. */
module ItemDeltas {
  import opened Options

  // A raw delta is an integer whose bits 0-30 hold the quantity, bit 31 whether the item was
  // added, bits 32-47 the item ID and bits 48-52 the slot. Masking k low bits of an integer is
  // its remainder by 2^k, shifting right is the floor quotient, and joining disjoint bits is
  // adding, for negative integers too.
  const QUANTITY_RANGE := 0x8000_0000
  const ADDED_UNIT := 0x8000_0000
  const ITEM_ID_UNIT := 0x1_0000_0000
  const ITEM_ID_RANGE := 0x1_0000
  const SLOT_UNIT := 0x1_0000_0000_0000
  const SLOT_RANGE := 0x20
  const RAW_RANGE := 0x20_0000_0000_0000

  datatype ItemDelta = ItemDelta(itemId: int, quantity: int, slot: int, added: bool) {
    predicate InRange() {
      0 <= itemId < ITEM_ID_RANGE && 0 <= quantity < QUANTITY_RANGE && 0 <= slot < SLOT_RANGE
    }

    function ToRaw(): int {
      quantity % QUANTITY_RANGE + (if added then ADDED_UNIT else 0) +
      (itemId % ITEM_ID_RANGE) * ITEM_ID_UNIT + (slot % SLOT_RANGE) * SLOT_UNIT
    }

    static function FromRaw(raw: int): ItemDelta {
      ItemDelta((raw / ITEM_ID_UNIT) % ITEM_ID_RANGE, raw % QUANTITY_RANGE, (raw / SLOT_UNIT) % SLOT_RANGE,
                (raw / ADDED_UNIT) % 2 != 0)
    }
  }

  /** A packed delta taken apart: its low, added, item and slot bits. */
  lemma PackedParts(q: int, a: int, i: int, s: int)
    requires 0 <= q < QUANTITY_RANGE && 0 <= a < 2 && 0 <= i < ITEM_ID_RANGE && 0 <= s < SLOT_RANGE
    ensures var raw := q + a * ADDED_UNIT + i * ITEM_ID_UNIT + s * SLOT_UNIT;
      0 <= raw < RAW_RANGE && raw % QUANTITY_RANGE == q && (raw / ADDED_UNIT) % 2 == a &&
      (raw / ITEM_ID_UNIT) % ITEM_ID_RANGE == i && (raw / SLOT_UNIT) % SLOT_RANGE == s
  {
    var raw := q + a * ADDED_UNIT + i * ITEM_ID_UNIT + s * SLOT_UNIT;
    assert raw / SLOT_UNIT == s;
    assert raw / ITEM_ID_UNIT == i + s * ITEM_ID_RANGE;
    assert raw / ADDED_UNIT == a + 2 * (i + s * ITEM_ID_RANGE);
  }

  /** Packing is exact on precisely the deltas whose fields fit; wider fields are cut off. */
  lemma UnpackPacked(d: ItemDelta)
    ensures 0 <= d.ToRaw() < RAW_RANGE
    ensures ItemDelta.FromRaw(d.ToRaw()) == d <==> d.InRange()
  {
    PackedParts(d.quantity % QUANTITY_RANGE, if d.added then 1 else 0, d.itemId % ITEM_ID_RANGE, d.slot % SLOT_RANGE);
  }

  /** Every unpacked delta is in range, and packing it back is exact on precisely the 53-bit values. */
  lemma PackUnpacked(raw: int)
    ensures ItemDelta.FromRaw(raw).InRange()
    ensures ItemDelta.FromRaw(raw).ToRaw() == raw <==> 0 <= raw < RAW_RANGE
  {
    var low, mid, high := raw / ADDED_UNIT, raw / ITEM_ID_UNIT, raw / SLOT_UNIT;
    assert mid == low / 2 && high == mid / ITEM_ID_RANGE;
    assert raw == (raw % QUANTITY_RANGE) + (low % 2) * ADDED_UNIT + (mid % ITEM_ID_RANGE) * ITEM_ID_UNIT + high * SLOT_UNIT;
  }

  // ---------------------------------------------------------------- containers

  datatype ItemStack = ItemStack(id: int, quantity: int)

  type Container = map<int, ItemStack>

  function ApplyDelta(d: ItemDelta, container: Container): Container {
    if d.added then
      if d.slot in container && container[d.slot].id == d.itemId then
        container[d.slot := ItemStack(d.itemId, container[d.slot].quantity + d.quantity)]
      else container[d.slot := ItemStack(d.itemId, d.quantity)]
    else if d.slot in container && container[d.slot].id == d.itemId && d.quantity < container[d.slot].quantity then
      container[d.slot := ItemStack(d.itemId, container[d.slot].quantity - d.quantity)]
    else container - {d.slot}
  }

  function ApplyAll(deltas: seq<int>, container: Container): Container {
    if deltas == [] then container
    else ApplyDelta(ItemDelta.FromRaw(deltas[|deltas| - 1]), ApplyAll(deltas[..|deltas| - 1], container))
  }

  /** The occupied slots of a container whose empty slots may be null. */
  function Occupied(previous: Option<map<int, Option<ItemStack>>>): Container {
    if previous.None? then map[]
    else map slot | slot in previous.value && previous.value[slot].Some? :: previous.value[slot].value
  }

  method ApplyItemDeltas(deltas: seq<int>, previous: Option<map<int, Option<ItemStack>>>) returns (container: Container)
    ensures container == ApplyAll(deltas, Occupied(previous))
  {
    container := Occupied(previous);
    for k := 0 to |deltas|
      invariant container == ApplyAll(deltas[..k], Occupied(previous))
    {
      var ItemDelta(id, quantity, slot, added) := ItemDelta.FromRaw(deltas[k]);
      var current := if slot in container then Some(container[slot]) else None;
      assert deltas[..k + 1][..k] == deltas[..k];
      if added {
        if current.None? || current.value.id != id {
          container := container[slot := ItemStack(id, quantity)];
        } else {
          container := container[slot := ItemStack(id, current.value.quantity + quantity)];
        }
      } else if current.Some? && current.value.id == id && quantity < current.value.quantity {
        container := container[slot := ItemStack(id, current.value.quantity - quantity)];
      } else {
        container := container - {slot};
      }
    }
    assert deltas[..|deltas|] == deltas;
  }

  /** Applying two lists of deltas in turn is applying their concatenation. */
  lemma {:induction false} ApplyConcatenation(a: seq<int>, b: seq<int>, container: Container)
    ensures ApplyAll(a + b, container) == ApplyAll(b, ApplyAll(a, container))
    decreases |b|
  {
    if b == [] {
      assert a + b == a;
    } else {
      var init := b[..|b| - 1];
      ApplyConcatenation(a, init, container);
      assert (a + b)[..|a + b| - 1] == a + init;
    }
  }

  /** A delta affects no slot but its own. */
  lemma OtherSlotsKept(c: ItemDelta, container: Container, slot: int)
    requires slot != c.slot
    ensures slot in ApplyDelta(c, container) <==> slot in container
    ensures slot in container ==> ApplyDelta(c, container)[slot] == container[slot]
  {
  }

  /** How much of an item a slot holds. */
  ghost function Held(container: Container, slot: int, itemId: int): int {
    if slot in container && container[slot].id == itemId then container[slot].quantity else 0
  }

  /**
   * After one more packed delta its slot holds nothing but its item, and of that as much as before and
   * what was added, or as much as is left; a slot with nothing left is empty.
   */
  lemma SlotAfter(deltas: seq<int>, d: ItemDelta, container: Container)
    requires d.InRange()
    ensures var before, after := ApplyAll(deltas, container), ApplyAll(deltas + [d.ToRaw()], container);
      var left := Held(before, d.slot, d.itemId) + if d.added then d.quantity else -d.quantity;
      if d.added || left > 0 then d.slot in after && after[d.slot] == ItemStack(d.itemId, left) else d.slot !in after
    ensures var before, after := ApplyAll(deltas, container), ApplyAll(deltas + [d.ToRaw()], container);
      forall slot :: slot != d.slot ==>
        (slot in after <==> slot in before) && (slot in before ==> after[slot] == before[slot])
  {
    hide ItemDelta.ToRaw, ItemDelta.FromRaw;
    UnpackPacked(d);
    assert (deltas + [d.ToRaw()])[..|deltas|] == deltas;
    hide ApplyAll;
  }

  lemma ApplyTwo(a: int, b: int, container: Container)
    ensures ApplyAll([a, b], container) == ApplyDelta(ItemDelta.FromRaw(b), ApplyDelta(ItemDelta.FromRaw(a), container))
  {
    assert [a, b][..1] == [a] && [a][..0] == [];
    assert ApplyAll([a], container) == ApplyDelta(ItemDelta.FromRaw(a), ApplyAll([], container));
  }

  lemma AddRemoveDelta(c: ItemDelta, container: Container)
    requires c.added && c.quantity >= 0
    ensures ApplyDelta(c.(added := false), ApplyDelta(c, container)) == container <==>
      c.slot !in container || (container[c.slot].id == c.itemId && container[c.slot].quantity > 0)
  {
    var result := ApplyDelta(c.(added := false), ApplyDelta(c, container));
    assert forall k :: k != c.slot ==> (k in result <==> k in container) && (k in container ==> result[k] == container[k]);
    assert c.slot in container && result == container ==> result[c.slot] == container[c.slot];
  }

  lemma RemoveAddDelta(c: ItemDelta, container: Container)
    requires !c.added
    ensures ApplyDelta(c.(added := true), ApplyDelta(c, container)) == container <==>
      c.slot in container && container[c.slot].id == c.itemId && container[c.slot].quantity >= c.quantity
  {
    var result := ApplyDelta(c.(added := true), ApplyDelta(c, container));
    assert forall k :: k != c.slot ==> (k in result <==> k in container) && (k in container ==> result[k] == container[k]);
    assert c.slot in result;
    assert c.slot in container && result == container ==> result[c.slot] == container[c.slot];
  }

  /**
   * Adding and then removing the same packed delta undoes itself exactly on an empty slot or
   * one holding some of the item.
   */
  lemma AddThenRemove(d: ItemDelta, container: Container)
    requires d.InRange() && d.added
    ensures ApplyAll([d.ToRaw(), d.(added := false).ToRaw()], container) == container <==>
      d.slot !in container || (container[d.slot].id == d.itemId && container[d.slot].quantity > 0)
  {
    hide ItemDelta.ToRaw, ItemDelta.FromRaw, ApplyDelta, ApplyAll;
    var removal := d.(added := false);
    UnpackPacked(d);
    UnpackPacked(removal);
    ApplyTwo(d.ToRaw(), removal.ToRaw(), container);
    AddRemoveDelta(d, container);
  }

  /** Removing and then adding the same packed delta undoes itself exactly where at least that much is held. */
  lemma RemoveThenAdd(d: ItemDelta, container: Container)
    requires d.InRange() && !d.added
    ensures ApplyAll([d.ToRaw(), d.(added := true).ToRaw()], container) == container <==>
      d.slot in container && container[d.slot].id == d.itemId && container[d.slot].quantity >= d.quantity
  {
    hide ItemDelta.ToRaw, ItemDelta.FromRaw, ApplyDelta, ApplyAll;
    var addition := d.(added := true);
    UnpackPacked(d);
    UnpackPacked(addition);
    ApplyTwo(d.ToRaw(), addition.ToRaw(), container);
    RemoveAddDelta(d, container);
  }
}
