/** The index arithmetic of the ring buffer, on 32-bit unsigned fields. */
module RingIndex {
  import opened Wrappers
  import opened Words

  datatype Ring = Ring(tail: u32, head: u32, mask: u32, size: u32, cap: u32)

  const DEFAULT_SIZE: u32 := 128

  function Wrap(x: int): (u: u32)
    ensures 0 <= x < 0x1_0000_0000 ==> u == x
    ensures 0x1_0000_0000 <= x < 0x2_0000_0000 ==> u == x - 0x1_0000_0000
    ensures -0x1_0000_0000 <= x < 0 ==> u == x + 0x1_0000_0000
  {
    x % 0x1_0000_0000
  }

  lemma {:induction false} AndFits(x: nat, y: nat)
    ensures BitAnd(x, y) <= x && BitAnd(x, y) <= y
    decreases x + y
  {
    if x != 0 || y != 0 {
      AndFits(x / 2, y / 2);
    }
  }

  function And(x: u32, y: u32): (z: u32) {
    AndFits(x, y);
    BitAnd(x, y)
  }

  /** _init: a capacity that is not a power of two above 1 is replaced; head starts
      at ~0, so that the first put wraps it to 0. */
  function Init(cap: u32): Ring {
    var c := if cap > 1 && And(cap, cap - 1) == 0 then cap else DEFAULT_SIZE;
    Ring(0, 0xFFFF_FFFF, c - 1, 0, c)
  }

  /** _get: the slot to read, or None when empty. */
  function Get(r: Ring): (Ring, Option<u32>) {
    if r.size == 0 then (r, None)
    else (r.(size := r.size - 1, tail := And(Wrap(r.tail + 1), r.mask)), Some(r.tail))
  }

  /** _expand's effect on the fields. */
  function Expand(r: Ring): Ring {
    var head := if r.head != Wrap(r.cap - 1) then Wrap(r.head + Wrap(r.cap - r.head)) else r.head;
    var cap := Wrap(2 * r.cap);
    r.(head := head, mask := Wrap(cap - 1), cap := cap)
  }

  /** _put: the slot to fill. */
  function Put(r: Ring): (Ring, u32) {
    var e := if r.size == r.cap then Expand(r) else r;
    var head := And(Wrap(e.head + 1), e.mask);
    (e.(size := Wrap(e.size + 1), head := head), head)
  }

  // -------------------------------------------------------------- power of two

  lemma {:induction false} AndSelf(x: nat)
    ensures BitAnd(x, x) == x
    decreases x
  {
    if x > 0 {
      AndSelf(x / 2);
    }
  }

  ghost predicate IsPow2(c: nat) {
    exists k: nat :: c == Pow2(k)
  }

  lemma {:induction false} Pow2Even(k: nat)
    ensures Pow2(k) == 1 || Pow2(k) % 2 == 0
  {
    assert k > 0 ==> Pow2(k) == 2 * Pow2(k - 1);
  }

  /** The test (c & (c - 1)) == 0 finds exactly the powers of two. */
  lemma {:induction false} PowerOfTwoTest(c: nat)
    requires c > 0
    ensures BitAnd(c, c - 1) == 0 <==> IsPow2(c)
    decreases c
  {
    if c == 1 {
      AndZero(1);
      assert c == Pow2(0);
    } else if c % 2 == 1 {
      assert (c - 1) / 2 == c / 2;
      AndSelf(c / 2);
      if IsPow2(c) {
        var k: nat :| c == Pow2(k);
        Pow2Even(k);
      }
    } else {
      assert (c - 1) / 2 == c / 2 - 1;
      PowerOfTwoTest(c / 2);
      if IsPow2(c / 2) {
        var k: nat :| c / 2 == Pow2(k);
        assert c == Pow2(k + 1);
      }
      if IsPow2(c) {
        var k: nat :| c == Pow2(k);
        assert c / 2 == Pow2(k - 1);
      }
    }
  }

  /** Masking with 2^k - 1 is the remainder modulo 2^k. */
  lemma {:induction false} MaskIsMod(x: nat, k: nat)
    ensures BitAnd(x, Pow2(k) - 1) == x % Pow2(k)
    decreases k
  {
    if k == 0 {
      AndZero(x);
    } else {
      var m := Pow2(k - 1);
      assert (Pow2(k) - 1) / 2 == m - 1;
      MaskIsMod(x / 2, k - 1);
      ModHalf(x, m);
    }
  }
}
