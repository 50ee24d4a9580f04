/** The object pool: a stack of pointers that grows when it is full. */
module ObjPool {
  import opened Wrappers

  /** The capacity after growth, a 32-bit number: by capdelta, or to twice as much. */
  function NewCapacity(capacity: nat, capdelta: nat): (c: nat)
    ensures c < 0x1_0000_0000
  {
    (if capdelta != 0 then capacity + capdelta else 2 * capacity) % 0x1_0000_0000
  }

  /** The capacity grows by capdelta, or doubles; it fails to grow exactly when both are 0
      or the sum wraps around. */
  lemma GrowsUnlessWrapped(capacity: nat, capdelta: nat)
    requires capacity < 0x1_0000_0000 && capdelta < 0x1_0000_0000
    ensures NewCapacity(capacity, capdelta) <= capacity <==>
            || (capacity == 0 && capdelta == 0)
            || capacity + (if capdelta != 0 then capdelta else capacity) >= 0x1_0000_0000
    ensures NewCapacity(capacity, capdelta) > capacity ==>
              NewCapacity(capacity, capdelta) - capacity == if capdelta != 0 then capdelta else capacity
  {
  }

  class ObjPool<T(0)> {
    var items: array<T>
    var size: nat
    const capdelta: nat

    ghost predicate Valid()
      reads this
    {
      size <= items.Length
    }

    /** The objects, the one put last at the end. */
    function Contents(): (s: seq<T>)
      reads this, items
      requires Valid()
      ensures |s| == size
    {
      items[..size]
    }

    constructor (capacity: nat, capdelta: nat)
      ensures Valid() && fresh(items) && items.Length == capacity && Contents() == []
    {
      items := new T[capacity];
      size := 0;
      this.capdelta := capdelta;
    }

    /** esma_objpool_expand: realloc keeps what fits. */
    method Expand()
      requires Valid()
      modifies this`items
      ensures fresh(items) && items.Length == NewCapacity(old(items.Length), capdelta)
      ensures items.Length > old(items.Length) ==> Valid() && Contents() == old(Contents())
    {
      var items' := new T[NewCapacity(items.Length, capdelta)];
      var kept := if size < items'.Length then size else items'.Length;
      for i := 0 to kept
        invariant items == old(items)
        invariant forall j :: 0 <= j < i ==> items'[j] == items[j]
      {
        items'[i] := items[i];
      }
      items := items';
    }

    /** esma_objpool_put. A full pool whose capacity does not grow makes the code write
        behind its memory: then nothing is stored here. */
    method Put(item: T) returns (outside: bool)
      requires Valid()
      modifies this, items
      ensures outside <==> old(size == items.Length && NewCapacity(items.Length, capdelta) <= items.Length)
      ensures !outside ==> Valid() && Contents() == old(Contents()) + [item]
      ensures if old(size < items.Length) then items == old(items) else fresh(items)
    {
      if size == items.Length {
        Expand();
        if size >= items.Length {
          return true;
        }
      }
      items[size] := item;
      size := size + 1;
      return false;
    }

    /** esma_objpool_get: the object put last, or NULL. */
    method Get() returns (item: Option<T>)
      requires Valid()
      modifies this`size
      ensures Valid() && old(Contents()) == if item.None? then [] else Contents() + [item.value]
      ensures item.None? ==> Contents() == []
    {
      if size == 0 {
        return None;
      }
      size := size - 1;
      return Some(items[size]);
    }
  }
}
