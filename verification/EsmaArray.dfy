/** The dynamic array: slots beyond the count keep whatever they held. */
module EsmaArray {
  import opened Wrappers

  const WORD := 0x1_0000_0000

  /** The slots that doubling leaves room for: both the capacity and the size in bytes
      are 32-bit numbers. */
  function NewSlots(slots: nat, itemSize: nat): nat
    requires itemSize > 0
  {
    2 * slots % WORD * itemSize % WORD / itemSize
  }

  /** With items of 8 bytes doubling works below 2^28 slots, and not for an empty array. */
  lemma DoublingWorks(slots: nat)
    requires 0 < slots < 0x1000_0000
    ensures NewSlots(slots, 8) == 2 * slots
    ensures NewSlots(0, 8) == 0
  {
  }

  class EsmaArray<T(0)> {
    var items: array<T>
    var nitems: nat
    const itemSize: nat
    const zero: T              // all bytes zero

    ghost predicate Valid()
      reads this
    {
      nitems <= items.Length && itemSize > 0
    }

    function Contents(): (s: seq<T>)
      reads this, items
      requires Valid()
      ensures |s| == nitems
    {
      items[..nitems]
    }

    constructor (capacity: nat, itemSize: nat, zero: T)
      requires itemSize > 0
      ensures Valid() && fresh(items) && Contents() == [] && items.Length == capacity
      ensures this.itemSize == itemSize
    {
      items := new T[capacity](_ => zero);
      nitems := 0;
      this.itemSize := itemSize;
      this.zero := zero;
    }

    /** Another slot lies inside the memory, if need be after growth. */
    predicate HasRoom()
      reads this, items
      requires Valid()
    {
      nitems < items.Length || NewSlots(items.Length, itemSize) > items.Length
    }

    /** _esma_array_expand: realloc keeps what fits, new slots hold anything. */
    method Expand()
      requires Valid()
      modifies this`items
      ensures fresh(items) && items.Length == NewSlots(old(items.Length), itemSize)
      ensures items.Length >= nitems ==> Valid() && Contents() == old(Contents())
    {
      var items' := new T[NewSlots(items.Length, itemSize)];
      var kept := if nitems < items'.Length then nitems else items'.Length;
      for i := 0 to kept
        invariant items == old(items)
        invariant forall j :: 0 <= j < i ==> items'[j] == items[j]
      {
        items'[i] := items[i];
      }
      items := items';
    }

    /** esma_array_push: one more slot, which the caller fills. Without room the code
        returns an address behind the memory. */
    method Push() returns (slot: nat, outside: bool)
      requires Valid()
      modifies this
      ensures slot == old(nitems) && nitems == slot + 1
      ensures outside <==> !old(HasRoom())
      ensures !outside ==> Valid() && Contents()[..slot] == old(Contents())
      ensures items == old(items) || fresh(items)
      ensures items == old(items) ==> items[..] == old(items[..])
    {
      if nitems >= items.Length {
        Expand();
      }
      slot := nitems;
      outside := slot >= items.Length;
      nitems := nitems + 1;
      if !outside {
        assert Contents()[..slot] == items[..slot];
      }
    }

    /** esma_array_pop: the last item, whose slot is zeroed; nothing from an empty
        array. */
    method Pop() returns (item: Option<T>)
      requires Valid()
      modifies this`nitems, items
      ensures Valid()
      ensures old(Contents()) == if item.None? then [] else Contents() + [item.value]
      ensures item.None? ==> Contents() == []
    {
      if nitems == 0 {
        return None;
      }
      var last := items[nitems - 1];
      items[nitems - 1] := zero;
      nitems := nitems - 1;
      assert Contents() == old(items[..nitems])[..nitems];
      return Some(last);
    }

    /** A write through the pointer to slot i, which may lie behind the items. */
    method Set(i: nat, x: T)
      requires Valid() && i < items.Length
      modifies items
      ensures Contents() == if i < nitems then old(Contents())[i := x] else old(Contents())
      ensures items[i] == x
    {
      items[i] := x;
    }
  }
}
