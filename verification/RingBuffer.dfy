/** The ring buffer: it behaves as a queue for as long as it never has to grow
    while its oldest item is not in slot 0. */
module RingBuffer {
  import opened Wrappers
  import opened Words
  import opened RingIndex

  /** Put succeeded, or ran into the growth that reads freed memory. */
  datatype PutResult = Stored | Corrupt

  /** The i-th of c slots from slot t on. */
  function Slot(t: nat, i: nat, c: nat): (k: nat)
    requires t < c && i <= c
    ensures k < c
  {
    if t + i < c then t + i else t + i - c
  }

  /** The slot after head; before the first put, head is ~0. */
  function After(head: u32, cap: u32): u32 {
    if head == 0xFFFF_FFFF || head + 1 == cap then 0 else head + 1
  }

  /** The fields describe a ring of cap slots, cap a power of two, with size items
      from tail on, the newest at head. */
  ghost predicate Wellformed(r: Ring) {
    && IsPow2(r.cap) && r.cap > 1
    && r.mask == r.cap - 1
    && r.tail < r.cap && r.size <= r.cap
    && (r.head < r.cap || (r.head == 0xFFFF_FFFF && r.size == 0 && r.tail == 0))
    && After(r.head, r.cap) == Slot(r.tail, r.size, r.cap)
  }

  lemma Bounded(r: Ring)
    requires Wellformed(r)
    ensures r.size <= r.cap && r.cap > 1
  {
  }

  /** Masking an index wraps it at the capacity. */
  lemma MaskWraps(x: u32, mask: u32, cap: u32)
    requires IsPow2(cap) && mask == cap - 1 && x <= cap
    ensures And(x, mask) == if x == cap then 0 else x
  {
    var k: nat :| cap == Pow2(k);
    MaskIsMod(x, k);
    if x == cap {
      ModUnique(cap, 1, 0);
    } else {
      ModUnique(cap, 0, x);
    }
  }

  /** A full ring ends in its last slot exactly when it starts in slot 0. */
  lemma FullAtZero(r: Ring)
    requires Wellformed(r) && r.size == r.cap
    ensures r.head == Wrap(r.cap - 1) <==> r.tail == 0
  {
  }

  lemma InitWellformed(cap: u32)
    ensures Wellformed(Init(cap)) && Init(cap).size == 0
    ensures Init(cap).cap == if cap > 1 && IsPow2(cap) then cap else 128
  {
    if cap > 1 {
      PowerOfTwoTest(cap);
    }
    assert Pow2(7) == 128;
  }

  lemma GetStep(r: Ring)
    requires Wellformed(r) && r.size > 0
    ensures Wellformed(Get(r).0) && Get(r).1 == Some(r.tail)
    ensures Get(r).0 == r.(size := r.size - 1, tail := Slot(r.tail, 1, r.cap))
  {
    MaskWraps(r.tail + 1, r.mask, r.cap);
    hide IsPow2, And, Wrap;
  }

  lemma PutStep(r: Ring)
    requires Wellformed(r) && r.size < r.cap
    ensures Wellformed(Put(r).0)
    ensures Put(r).0 == r.(size := r.size + 1, head := Slot(r.tail, r.size, r.cap)) && Put(r).1 == Put(r).0.head
  {
    hide IsPow2, And;
    MaskWraps(if r.head == 0xFFFF_FFFF then 0 else r.head + 1, r.mask, r.cap);
  }

  /** What growth does to the fields of a full ring; they still describe a ring if
      and only if the oldest item is in slot 0 or 1. */
  lemma ExpandStep(r: Ring)
    requires Wellformed(r) && r.size == r.cap < 0x4000_0000
    ensures Expand(r) == Ring(r.tail, if r.tail == 0 then r.cap - 1 else r.cap, 2 * r.cap - 1, r.cap, 2 * r.cap)
    ensures Wellformed(Expand(r)) <==> r.tail <= 1
  {
    FullAtZero(r);
    DoublePow2(r.cap);
    hide IsPow2;
  }

  /** The slot that the i-th of the next gets returns. */
  function NthGet(r: Ring, i: nat): Option<u32>
    decreases i
  {
    if i == 0 then Get(r).1 else NthGet(Get(r).0, i - 1)
  }

  /** The fields that gets use: they do not look at head. */
  ghost predicate Masked(r: Ring) {
    IsPow2(r.cap) && r.cap > 1 && r.mask == r.cap - 1 && r.tail < r.cap
  }

  lemma {:induction false} NthGetIs(r: Ring, i: nat)
    requires Masked(r) && i < r.size && i < r.cap
    ensures NthGet(r, i) == Some(Slot(r.tail, i, r.cap))
    decreases i
  {
    if i > 0 {
      MaskWraps(r.tail + 1, r.mask, r.cap);
      hide IsPow2, And;
      NthGetIs(Get(r).0, i - 1);
    }
  }

  /** A put into a full ring, whatever its tail. */
  lemma PutGrown(r: Ring)
    requires Wellformed(r) && r.size == r.cap < 0x4000_0000
    ensures var p := RingIndex.Put(r).0;
            Masked(p) && p.tail == r.tail && p.cap == 2 * r.cap && p.size == r.cap + 1
    ensures RingIndex.Put(r).1 == if r.tail == 0 then r.cap else r.cap + 1
  {
    ExpandStep(r);
    DoublePow2(r.cap);
    MaskWraps(Expand(r).head + 1, Expand(r).mask, 2 * r.cap);
    hide IsPow2, And;
  }

  /** After a put that has to grow the ring, the i-th get still returns the slot it
      would have returned if and only if the i-th item had not wrapped around. */
  lemma GrowthFinds(r: Ring, i: nat)
    requires Wellformed(r) && r.size == r.cap < 0x4000_0000 && i < r.cap
    ensures NthGet(r, i) == Some(Slot(r.tail, i, r.cap))
    ensures NthGet(RingIndex.Put(r).0, i) == NthGet(r, i) <==> r.tail + i < r.cap
  {
    PutGrown(r);
    hide RingIndex.Put, IsPow2;
    NthGetIs(r, i);
    NthGetIs(RingIndex.Put(r).0, i);
  }

  /** And the get after all of those returns the slot that the put has filled if and
      only if tail is 0 or 1. */
  lemma GrowthFindsNew(r: Ring)
    requires Wellformed(r) && r.size == r.cap < 0x4000_0000
    ensures NthGet(RingIndex.Put(r).0, r.cap) == Some(RingIndex.Put(r).1) <==> r.tail <= 1
  {
    PutGrown(r);
    hide RingIndex.Put, IsPow2;
    NthGetIs(RingIndex.Put(r).0, r.cap);
  }

  /** Growth is sound exactly from slot 0: then, and only then, do the gets after it
      return the slots of all items. */
  lemma GrowthSound(r: Ring)
    requires Wellformed(r) && r.size == r.cap < 0x4000_0000
    ensures (forall i :: 0 <= i < r.cap ==> NthGet(RingIndex.Put(r).0, i) == NthGet(r, i)) <==> r.tail == 0
  {
    GrowthFinds(r, r.cap - 1);
    forall i | 0 <= i < r.cap
      ensures NthGet(RingIndex.Put(r).0, i) == NthGet(r, i) <==> r.tail + i < r.cap
    {
      GrowthFinds(r, i);
    }
    hide RingIndex.Put, NthGet, IsPow2;
  }

  /** Growing first and then putting is what a put on a full ring does. */
  lemma PutGrows(r: Ring)
    requires r.size == r.cap
    ensures Expand(r).size != Expand(r).cap ==> RingIndex.Put(Expand(r)) == RingIndex.Put(r)
    ensures var e := Expand(r);
            RingIndex.Put(r).0 == e.(size := Wrap(e.size + 1), head := And(Wrap(e.head + 1), e.mask))
  {
  }

  lemma DoublePow2(c: nat)
    requires IsPow2(c)
    ensures IsPow2(2 * c)
  {
    var k: nat :| c == Pow2(k);
    assert 2 * c == Pow2(k + 1);
  }

  // ---------------------------------------------------------------- many puts

  /** A capacity c, doubled until it is at least n. */
  function Grown(c: nat, n: nat): (d: nat)
    ensures c > 0 ==> d >= n && d >= c
    decreases n - c
  {
    if n <= c || c == 0 then c else Grown(2 * c, n)
  }

  lemma {:induction false} GrownStep(c: nat, n: nat)
    requires c > 0
    ensures Grown(c, n + 1) == if n == Grown(c, n) then 2 * n else Grown(c, n)
    ensures n > c ==> Grown(c, n) < 2 * n
    decreases n - c
  {
    if n > c {
      GrownStep(2 * c, n);
    }
  }

  /** The size in bytes of c items of b bytes each can be told to realloc, in 32 bits. */
  predicate Fits(c: nat, b: nat) {
    c * b < 0x1_0000_0000
  }

  lemma FitsLess(c: nat, d: nat, b: nat)
    requires c <= d && Fits(d, b)
    ensures Fits(c, b)
  {
    assert c * b <= d * b;
  }

  lemma FitsSmall(c: nat, b: nat)
    requires Fits(c, b) && b >= 8
    ensures c < 0x2000_0000
  {
    assert c * 8 <= c * b;
  }

  /** Growth whose size in bytes wraps leaves less memory than the items take. */
  lemma WrappedIsLess(c: nat, b: nat)
    requires Fits(c, b) && !Fits(2 * c, b)
    ensures Wrap(2 * c * b) < c * b
  {
    assert 2 * c * b == 2 * (c * b);
  }

  /** The bytes that growth asks realloc for. */
  function NewBytes(c: u32, b: u32): u32 {
    Wrap(b * Wrap(2 * c))
  }

  /** The items that they have room for. */
  function NewSlots(c: u32, b: u32): nat
    requires b > 0
  {
    NewBytes(c, b) / b
  }

  lemma ExactQuotient(x: nat, b: nat)
    requires b > 0
    ensures b * x / b == x
  {
    var d := b * x / b;
    ModUnique(b, x, 0);
    assert b * (x - d) == 0;
  }

  /** Where 32 bits hold their number, they are those of twice as many items. */
  lemma NewSlotsFit(c: u32, b: u32)
    requires Fits(2 * c, b) && b >= 8 && c > 0
    ensures 2 * c < 0x4000_0000 && NewBytes(c, b) > 0 && NewSlots(c, b) == 2 * c
  {
    FitsSmall(2 * c, b);
    assert 0 < b * (2 * c) == 2 * c * b;
    ExactQuotient(2 * c, b);
  }

  /** A put that need not grow the ring, or grows it from slot 0 to a size that can be
      told to realloc. */
  predicate PutSound(r: Ring, b: nat) {
    r.size == r.cap ==> r.tail == 0 && Fits(2 * r.cap, b)
  }

  function PutMany(r: Ring, n: nat): Ring {
    if n == 0 then r else RingIndex.Put(PutMany(r, n - 1)).0
  }

  /** n puts in a row. */
  predicate AllSound(r: Ring, n: nat, b: nat) {
    n == 0 || (AllSound(r, n - 1, b) && PutSound(PutMany(r, n - 1), b))
  }

  lemma {:induction false} SoundFewer(r: Ring, k: nat, n: nat, b: nat)
    requires k <= n
    ensures AllSound(r, n, b) ==> AllSound(r, k, b)
  {
    if k < n {
      SoundFewer(r, k, n - 1, b);
    }
  }

  lemma SoundPut(r: Ring, b: nat)
    requires Wellformed(r) && b >= 8 && PutSound(r, b)
    ensures var p := RingIndex.Put(r).0;
            && Wellformed(p) && p.size == r.size + 1 && p.tail == r.tail
            && p.cap == if r.size == r.cap then 2 * r.cap else r.cap
  {
    if r.size == r.cap {
      FitsSmall(2 * r.cap, b);
      ExpandStep(r);
      PutGrows(r);
      hide RingIndex.Put, Expand;
      PutStep(Expand(r));
    } else {
      PutStep(r);
    }
  }

  /** There is room for n more items, or the ring can grow to have it. */
  predicate Room(r: Ring, n: nat, b: nat) {
    r.size + n <= r.cap || (r.tail == 0 && Fits(Grown(r.cap, r.size + n), b))
  }

  /** Puts into a ring are all sound if and only if there is room for them, or the ring
      starts in slot 0 and 32 bits hold the size of the memory it grows to; in the end
      it has the least doubled capacity. */
  lemma {:induction false} ManyPuts(r: Ring, n: nat, b: nat)
    requires Wellformed(r) && b >= 8
    ensures AllSound(r, n, b) <==> Room(r, n, b)
    ensures AllSound(r, n, b) ==>
              var p := PutMany(r, n);
              Wellformed(p) && p.size == r.size + n && p.tail == r.tail && p.cap == Grown(r.cap, r.size + n)
  {
    hide RingIndex.Put, Wellformed, Grown, Fits;
    Bounded(r);
    GrownFits(r.cap, r.size + n);
    if n > 0 {
      ManyPuts(r, n - 1, b);
      GrownFits(r.cap, r.size + n - 1);
      GrownStep(r.cap, r.size + n - 1);
      RoomForLess(r, n, b);
      var p := PutMany(r, n - 1);
      if AllSound(r, n - 1, b) && PutSound(p, b) {
        SoundPut(p, b);
      }
    }
  }

  lemma RoomForLess(r: Ring, n: nat, b: nat)
    requires n > 0 && r.cap > 0
    ensures Room(r, n, b) ==> Room(r, n - 1, b)
  {
    if Room(r, n, b) && r.size + n > r.cap {
      GrownStep(r.cap, r.size + n - 1);
      FitsLess(Grown(r.cap, r.size + n - 1), Grown(r.cap, r.size + n), b);
    }
  }

  lemma GrownFits(c: nat, n: nat)
    requires c > 0
    ensures n <= c ==> Grown(c, n) == c
  {
  }

  /** The first unsound put grows a full ring. If it does so from another slot than 0,
      the gets after it miss an item; if not, the new memory is smaller than the old. */
  lemma {:induction false} OverrunLoses(r: Ring, n: nat, b: nat) returns (k: nat, i: nat)
    requires Wellformed(r) && b >= 8 && !AllSound(r, n, b)
    ensures k < n && AllSound(r, k, b)
    ensures var full := PutMany(r, k);
            && Wellformed(full) && full.size == full.cap && i < full.cap
            && (full.tail != 0 && full.cap < 0x4000_0000 ==> NthGet(PutMany(r, k + 1), i) != NthGet(full, i))
            && (full.tail == 0 && Fits(full.cap, b) ==> Wrap(2 * full.cap * b) < full.cap * b)
  {
    ManyPuts(r, n - 1, b);
    if AllSound(r, n - 1, b) {
      k := n - 1;
      var full := PutMany(r, k);
      i := full.cap - 1;
      hide Fits, RingIndex.Put, Wrap;
      if full.tail != 0 && full.cap < 0x4000_0000 {
        GrowthFinds(full, i);
      }
      if full.tail == 0 && Fits(full.cap, b) {
        WrappedIsLess(full.cap, b);
      }
    } else {
      k, i := OverrunLoses(r, n - 1, b);
    }
  }

  /** The bytes of an item, rounded up to a multiple of 8. */
  function Align8(bytes: u32): (b: u32)
    requires 0 < bytes <= 0xFFFF_FFF8
    ensures b % 8 == 0 && bytes <= b < bytes + 8
  {
    (bytes + 7) / 8 * 8
  }

  /** The ring buffer with its slots. Put is esma_ring_buffer_put followed by the
      caller's write into the slot it returns. */
  class RingBuffer<T(0)> {
    var data: array<T>
    var tail: u32
    var head: u32
    var mask: u32
    var size: u32
    var cap: u32
    const itemSize: u32        // bytes

    constructor (bytes: u32, capacity: u32)
      requires 0 < bytes <= 0xFFFF_FFF8
      ensures Valid() && fresh(data) && Contents() == []
      ensures Indices() == Init(capacity) && itemSize == Align8(bytes)
    {
      InitWellformed(capacity);
      hide Wellformed, Init;
      itemSize := Align8(bytes);
      var r := Init(capacity);
      tail, head, mask, size, cap := r.tail, r.head, r.mask, r.size, r.cap;
      data := new T[r.cap];
    }

    function Indices(): Ring
      reads this
    {
      Ring(tail, head, mask, size, cap)
    }

    ghost predicate Valid()
      reads this
    {
      Wellformed(Indices()) && data.Length == cap && itemSize >= 8
    }

    /** The items, oldest first. */
    function Contents(): (s: seq<T>)
      reads this, data
      requires Valid()
      ensures |s| == size
    {
      seq(size, i requires 0 <= i < size && tail < cap && size <= cap && data.Length == cap reads this, data =>
                  data[Slot(tail, i, cap)])
    }

    method Get() returns (item: Option<T>)
      requires Valid()
      modifies this`tail, this`size
      ensures Valid() && Indices() == RingIndex.Get(old(Indices())).0
      ensures old(Contents()) == [] ==> item == None && Contents() == []
      ensures old(Contents()) != [] ==> item == Some(old(Contents())[0]) && Contents() == old(Contents())[1..]
    {
      if size == 0 {
        return None;
      }
      GetStep(Indices());
      hide IsPow2, And, Wrap;
      var i := tail;
      size := size - 1;
      tail := Wrap(tail + 1);
      tail := And(tail, mask);
      return Some(data[i]);
    }

    /** The fields change as in _put whatever happens. The write into the slot is left
        out when growth was not sound, because that slot may lie anywhere. */
    method Put(x: T) returns (r: PutResult)
      requires Valid()
      modifies this, data
      ensures r == Stored <==> PutSound(old(Indices()), itemSize)
      ensures Indices() == if old(size == cap && NewBytes(cap, itemSize) == 0) then old(Indices())
                           else RingIndex.Put(old(Indices())).0
      ensures r == Stored ==> Valid() && Contents() == old(Contents()) + [x]
      ensures r == Stored ==> Indices() == RingIndex.Put(old(Indices())).0
      ensures r == Stored ==> cap == old(if size == cap then 2 * cap else cap)
      ensures data == old(data) || fresh(data)
      ensures tail == old(tail)
    {
      hide IsPow2, And, Wrap, RingIndex.Put, RingIndex.Expand, Fits;
      if size == cap {
        PutGrows(Indices());
        var sound := tail == 0 && Fits(2 * cap, itemSize);
        var err := Expand();
        if err {
          return Corrupt;
        }
        if !sound {
          size := Wrap(size + 1);
          head := Wrap(head + 1);
          head := And(head, mask);
          return Corrupt;
        }
      }
      Append(x);
      return Stored;
    }

    /** Puts one after the other, up to the first that grows the ring unsoundly. */
    method PutAll(xs: seq<T>) returns (r: PutResult)
      requires Valid()
      modifies this, data
      ensures r == Stored <==> old(Room(Indices(), |xs|, itemSize))
      ensures r == Stored ==> Valid() && Contents() == old(Contents()) + xs
      ensures r == Stored ==> Indices() == PutMany(old(Indices()), |xs|)
      ensures data == old(data) || fresh(data)
    {
      hide IsPow2, And, Wrap, Wellformed, RingIndex.Put, Slot, Room, PutSound;
      ghost var start, items := Indices(), Contents();
      for k := 0 to |xs|
        invariant Valid() && Contents() == items + xs[..k]
        invariant Indices() == PutMany(start, k) && AllSound(start, k, itemSize)
        invariant data == old(data) || fresh(data)
      {
        assert xs[..k + 1] == xs[..k] + [xs[k]];
        r := Put(xs[k]);
        if r == Corrupt {
          SoundFewer(start, k + 1, |xs|, itemSize);
          ManyPuts(start, |xs|, itemSize);
          return;
        }
      }
      ManyPuts(start, |xs|, itemSize);
      r := Stored;
      assert xs[..|xs|] == xs;
    }

    /** The part of _put after any growth. */
    method Append(x: T)
      requires Valid() && size < cap
      modifies this`size, this`head, data
      ensures Valid() && Contents() == old(Contents()) + [x]
      ensures Indices() == RingIndex.Put(old(Indices())).0
    {
      PutStep(Indices());
      hide IsPow2, And, Wrap;
      size := size + 1;
      head := Wrap(head + 1);
      head := And(head, mask);
      data[head] := x;
    }

    /** _expand. With the oldest item in slot 0 realloc has done all that is needed,
        if 32 bits held the size of the memory; otherwise the code moves bytes through
        the old pointer, or has too little memory, and nothing is known of the slots. */
    method Expand() returns (err: bool)
      requires Valid() && size == cap
      modifies this
      ensures err <==> old(NewBytes(cap, itemSize) == 0)
      ensures err ==> Indices() == old(Indices())
      ensures !err ==> Indices() == RingIndex.Expand(old(Indices())) && fresh(data)
      ensures data == old(data) || fresh(data)
      ensures tail == old(tail)
      ensures old(tail == 0 && Fits(2 * cap, itemSize)) ==>
                !err && Valid() && Contents() == old(Contents()) && size < cap == 2 * old(cap)
    {
      FullAtZero(Indices());
      if tail == 0 && Fits(2 * cap, itemSize) {
        NewSlotsFit(cap, itemSize);
        ExpandStep(Indices());
      }
      hide IsPow2, And, Wrap, Wellformed, Fits, NewBytes, NewSlots;
      if NewBytes(cap, itemSize) == 0 {
        return true;
      }
      var newcap := Wrap(2 * cap);
      var data' := Realloc(NewSlots(cap, itemSize));
      if head != Wrap(cap - 1) {
        data' := new T[data'.Length];
        head := Wrap(head + Wrap(cap - head));
      }
      data := data';
      mask := Wrap(newcap - 1);
      cap := newcap;
      return false;
    }

    /** Memory of n slots that begins with the items, if it has room for them. */
    method Realloc(n: nat) returns (data': array<T>)
      ensures fresh(data') && data'.Length == n
      ensures n >= data.Length ==> data'[..data.Length] == data[..]
    {
      data' := new T[n];
      if n >= data.Length {
        for i := 0 to data.Length
          invariant forall j :: 0 <= j < i ==> data'[j] == data[j]
        {
          data'[i] := data[i];
        }
      }
    }
  }

  // --------------------------------------------------------------- whole runs

  datatype Op<T> = PutOp(x: T) | GetOp

  /** The items a queue hands out over a run. */
  function Out<T>(q: seq<T>, ops: seq<Op<T>>): seq<T>
    decreases |ops|
  {
    if ops == [] then []
    else
      match ops[0]
      case PutOp(x) => Out(q + [x], ops[1..])
      case GetOp => if q == [] then Out(q, ops[1..]) else [q[0]] + Out(q[1..], ops[1..])
  }

  /** The items left in it. */
  function Left<T>(q: seq<T>, ops: seq<Op<T>>): seq<T>
    decreases |ops|
  {
    if ops == [] then q
    else
      match ops[0]
      case PutOp(x) => Left(q + [x], ops[1..])
      case GetOp => Left(if q == [] then q else q[1..], ops[1..])
  }

  function Inserted<T>(ops: seq<Op<T>>): seq<T> {
    if ops == [] then []
    else
      match ops[0]
      case PutOp(x) => [x] + Inserted(ops[1..])
      case GetOp => Inserted(ops[1..])
  }

  /** Everything put in comes out once, in the order of insertion, or is inside. */
  lemma {:induction false} QueueConserves<T>(q: seq<T>, ops: seq<Op<T>>)
    ensures Out(q, ops) + Left(q, ops) == q + Inserted(ops)
    decreases |ops|
  {
    if ops != [] {
      match ops[0]
      case PutOp(x) =>
        QueueConserves(q + [x], ops[1..]);
        assert (q + [x]) + Inserted(ops[1..]) == q + Inserted(ops);
      case GetOp =>
        if q == [] {
          QueueConserves(q, ops[1..]);
        } else {
          QueueConserves(q[1..], ops[1..]);
          assert Out(q, ops) + Left(q, ops) == [q[0]] + (Out(q[1..], ops[1..]) + Left(q[1..], ops[1..]));
        }
    }
  }

  /** Driving a ring buffer through any run gives what the queue gives, up to the
      first put that has to grow a ring that does not start at slot 0; `full` is the
      ring before that put. */
  method RunOps<T(0)>(rb: RingBuffer<T>, ops: seq<Op<T>>) returns (out: seq<T>, done: nat, full: Ring)
    requires rb.Valid()
    modifies rb, rb.data
    ensures done <= |ops|
    ensures done == |ops| ==> rb.Valid() && rb.Contents() == Left(old(rb.Contents()), ops)
    ensures out == Out(old(rb.Contents()), ops[..done])
    ensures done < |ops| ==> ops[done].PutOp? && Wellformed(full) && !PutSound(full, rb.itemSize)
    ensures done < |ops| ==>
              rb.Indices() == if NewBytes(full.cap, rb.itemSize) == 0 then full else RingIndex.Put(full).0
  {
    ghost var start := rb.Contents();
    assert ops[..0] == [] && Out(start, []) == [] && Left(start, []) == start;
    hide Wellformed, IsPow2, RingIndex.Put, RingIndex.Get, Slot, Out, Left;
    out, done, full := [], 0, rb.Indices();
    while done < |ops|
      invariant done <= |ops| && rb.Valid()
      invariant rb.data == old(rb.data) || fresh(rb.data)
      invariant out == Out(start, ops[..done]) && rb.Contents() == Left(start, ops[..done])
    {
      QueueSnoc(start, ops[..done], ops[done]);
      assert ops[..done + 1] == ops[..done] + [ops[done]];
      full := rb.Indices();
      match ops[done] {
        case PutOp(x) =>
          var r := rb.Put(x);
          if r == Corrupt {
            return;
          }
        case GetOp =>
          var item := rb.Get();
          if item.Some? {
            out := out + [item.value];
          }
      }
      done := done + 1;
    }
    assert ops[..done] == ops;
  }

  lemma {:induction false} QueueSnoc<T>(q: seq<T>, ops: seq<Op<T>>, op: Op<T>)
    ensures var left := Left(q, ops);
            match op
            case PutOp(x) => Out(q, ops + [op]) == Out(q, ops) && Left(q, ops + [op]) == left + [x]
            case GetOp =>
              && Out(q, ops + [op]) == (if left == [] then Out(q, ops) else Out(q, ops) + [left[0]])
              && Left(q, ops + [op]) == (if left == [] then left else left[1..])
    decreases |ops|
  {
    if ops == [] {
      assert ops + [op] == [op] && [op][1..] == [];
    } else {
      assert (ops + [op])[1..] == ops[1..] + [op] && (ops + [op])[0] == ops[0];
      match ops[0]
      case PutOp(x) => QueueSnoc(q + [x], ops[1..], op);
      case GetOp => QueueSnoc(if q == [] then q else q[1..], ops[1..], op);
    }
  }

  /** Unsound growth is within reach of every full ring: take one item, put one, and
      the ring is full from slot 1. The next put grows it and leaves fields that look
      right, and the item put before it is the one that no get finds. */
  lemma GrowthCanFail(r: Ring)
    requires Wellformed(r) && r.size == r.cap < 0x4000_0000 && r.tail == 0
    ensures var r' := RingIndex.Put(RingIndex.Get(r).0).0;
            && Wellformed(r') && r'.size == r'.cap == r.cap && r'.tail == 1 && Wellformed(Expand(r'))
            && forall i :: 0 <= i < r'.cap ==>
                 (NthGet(RingIndex.Put(r').0, i) != NthGet(r', i) <==> i == r'.cap - 1)
  {
    hide RingIndex.Put, RingIndex.Get, IsPow2, And;
    GetStep(r);
    PutStep(RingIndex.Get(r).0);
    var r' := RingIndex.Put(RingIndex.Get(r).0).0;
    ExpandStep(r');
    hide Expand, NthGet;
    forall i | 0 <= i < r'.cap
      ensures NthGet(RingIndex.Put(r').0, i) == NthGet(r', i) <==> r'.tail + i < r'.cap
    {
      GrowthFinds(r', i);
    }
  }
}
