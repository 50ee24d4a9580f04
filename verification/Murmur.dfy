/** The Murmur-style hash. Every step can be undone, so two inputs that differ in
    a single word, or only behind the last word, never collide. */
module Murmur {
  import opened Words

  const W: nat := 0x1_0000_0000
  const FACTOR: nat := 0x5bd1_e995
  /** FACTOR * INVERSE == 1 modulo W */
  const INVERSE: nat := 0xe59b_19bd

  // ------------------------------------------------------------ the operators

  function Xor(x: u32, y: u32): (z: u32) {
    Pow2Widths();
    XorFits(x, y, 32);
    BitXor(x, y)
  }

  function Right(x: u32, k: nat): (z: u32) {
    ShrFits(x, k);
    Shr(x, k)
  }

  function Scale(x: u32): u32 {
    x * FACTOR % W
  }

  function Unscale(x: u32): u32 {
    x * INVERSE % W
  }

  function XorShift(x: u32, r: nat): u32 {
    Xor(x, Right(x, r))
  }

  /** Undoes XorShift, if three shifts by r leave nothing. */
  function UndoShift(y: u32, r: nat): u32 {
    Xor(Xor(y, Right(y, r)), Right(y, 2 * r))
  }

  lemma {:induction false} ShrFits(x: nat, k: nat)
    ensures Shr(x, k) <= x
    decreases k
  {
    if k > 0 {
      ShrFits(x / 2, k - 1);
    }
  }

  /** m * q + r leaves r, for q of either sign. */
  lemma Leaves(m: nat, q: int, r: nat)
    requires r < m && m * q + r >= 0
    ensures (m * q + r) % m == r
  {
    assert m * q == -(m * -q);
    if q < 0 {
      MulGrows(m, -q);
    } else {
      ModUnique(m, q, r);
    }
  }

  lemma Inverses(x: u32, f: nat, g: nat, e: nat)
    requires f * g == W * e + 1
    ensures (x * f % W) * g % W == x
  {
    var q, r := x * f / W, x * f % W;
    assert x * f == W * q + r;
    assert r * g == x * (f * g) - W * (q * g) by {
      assert (x * f - W * q) * g == x * f * g - W * q * g;
    }
    assert x * (W * e + 1) == W * (x * e) + x;
    assert r * g == W * (x * e - q * g) + x;
    Leaves(W, x * e - q * g, x);
  }

  lemma ScaleInverse(x: u32)
    ensures Unscale(Scale(x)) == x && Scale(Unscale(x)) == x
  {
    assert FACTOR * INVERSE == W * 1381656390 + 1;
    Inverses(x, FACTOR, INVERSE, 1381656390);
    Inverses(x, INVERSE, FACTOR, 1381656390);
  }

  lemma SameBits(x: u32, y: u32)
    requires forall i: nat :: i < 32 ==> Bit(x, i) == Bit(y, i)
    ensures x == y
  {
    Pow2Widths();
    BitsDetermine(x, y, 32);
  }

  /** Bit i of a shifted word; beyond the word there are no bits. */
  lemma BitRight(x: u32, k: nat, i: nat)
    ensures Bit(Right(x, k), i) == Bit(x, i + k)
    ensures i + k >= 32 ==> !Bit(x, i + k)
  {
    BitOfShr(x, k, i);
    if i + k >= 32 {
      Pow2Widths();
      BitsAbove(x, 32, i + k);
    }
  }

  lemma BitXorShift(x: u32, r: nat, i: nat)
    ensures Bit(XorShift(x, r), i) == (Bit(x, i) != Bit(x, i + r))
  {
    BitOfXor(x, Right(x, r), i);
    BitRight(x, r, i);
  }

  lemma BitUndoShift(y: u32, r: nat, i: nat)
    ensures Bit(UndoShift(y, r), i) == ((Bit(y, i) != Bit(y, i + r)) != Bit(y, i + 2 * r))
  {
    BitOfXor(Xor(y, Right(y, r)), Right(y, 2 * r), i);
    BitOfXor(y, Right(y, r), i);
    BitRight(y, r, i);
    BitRight(y, 2 * r, i);
  }

  lemma ShiftInverse(x: u32, r: nat)
    requires 3 * r >= 32
    ensures UndoShift(XorShift(x, r), r) == x && XorShift(UndoShift(x, r), r) == x
  {
    forall i: nat | i < 32
      ensures Bit(UndoShift(XorShift(x, r), r), i) == Bit(x, i)
      ensures Bit(XorShift(UndoShift(x, r), r), i) == Bit(x, i)
    {
      hide Bit, XorShift, UndoShift;
      BitUndoShift(XorShift(x, r), r, i);
      BitXorShift(x, r, i);
      BitXorShift(x, r, i + r);
      BitXorShift(x, r, i + 2 * r);
      BitXorShift(UndoShift(x, r), r, i);
      BitUndoShift(x, r, i);
      BitUndoShift(x, r, i + r);
      BitRight(x, 3 * r, i);
    }
    hide Bit, XorShift, UndoShift;
    SameBits(UndoShift(XorShift(x, r), r), x);
    SameBits(XorShift(UndoShift(x, r), r), x);
  }

  lemma XorInverse(x: u32, y: u32)
    ensures Xor(Xor(x, y), y) == x && Xor(y, Xor(y, x)) == x && Xor(x, y) == Xor(y, x)
  {
    forall i: nat | i < 32
      ensures Bit(Xor(Xor(x, y), y), i) == Bit(x, i) == Bit(Xor(y, Xor(y, x)), i)
      ensures Bit(Xor(x, y), i) == Bit(Xor(y, x), i)
    {
      BitOfXor(Xor(x, y), y, i);
      BitOfXor(x, y, i);
      BitOfXor(y, Xor(y, x), i);
      BitOfXor(y, x, i);
    }
    hide Bit, Xor;
    SameBits(Xor(Xor(x, y), y), x);
    SameBits(Xor(y, Xor(y, x)), x);
    SameBits(Xor(x, y), Xor(y, x));
  }

  // ------------------------------------------------------------ specification

  /** The bytes as one word, the first byte lowest. */
  function Load(d: seq<u8>): (w: nat)
    ensures |d| <= 4 ==> w < W
    ensures |d| == 0 ==> w == 0
    ensures |d| == 1 ==> w < 0x100
    ensures |d| == 2 ==> w < 0x1_0000
    ensures |d| == 3 ==> w < 0x100_0000
  {
    if d == [] then 0 else d[0] + 0x100 * Load(d[1..])
  }

  function Mix(k: u32): u32 {
    Scale(XorShift(Xor(k, FACTOR), 24))
  }

  function Unmix(v: u32): u32 {
    Xor(UndoShift(Unscale(v), 24), FACTOR)
  }

  function Round(h: u32, k: u32): u32 {
    Xor(Scale(h), Mix(k))
  }

  function Finish(h: u32): u32 {
    XorShift(Scale(XorShift(h, 13)), 15)
  }

  function Unfinish(v: u32): u32 {
    UndoShift(Unscale(UndoShift(v, 15)), 13)
  }

  /** The hash of what is left of the data, from state h on. */
  function Rest(d: seq<u8>, h: u32): u32
    decreases |d|
  {
    if |d| >= 4 then Rest(d[4..], Round(h, Load(d[..4])))
    else if |d| > 0 then Finish(Scale(Xor(h, Load(d))))
    else Finish(h)
  }

  function Hash(d: seq<u8>): u32
    requires |d| < W
  {
    Rest(d, |d|)
  }

  // ---------------------------------------------------------- undoing a hash

  lemma MixInverse(k: u32)
    ensures Unmix(Mix(k)) == k && Mix(Unmix(k)) == k
  {
    hide Xor, XorShift, UndoShift, Scale, Unscale;
    var x := Xor(k, FACTOR);
    XorInverse(k, FACTOR);
    ShiftInverse(x, 24);
    ScaleInverse(XorShift(x, 24));
    var y := UndoShift(Unscale(k), 24);
    XorInverse(y, FACTOR);
    ShiftInverse(Unscale(k), 24);
    ScaleInverse(k);
  }

  lemma FinishInverse(h: u32)
    ensures Unfinish(Finish(h)) == h && Finish(Unfinish(h)) == h
  {
    hide Xor, XorShift, UndoShift, Scale, Unscale;
    ShiftInverse(h, 13);
    ScaleInverse(XorShift(h, 13));
    ShiftInverse(Scale(XorShift(h, 13)), 15);
    ShiftInverse(h, 15);
    ScaleInverse(UndoShift(h, 15));
    ShiftInverse(Unscale(UndoShift(h, 15)), 13);
  }

  /** The state from which a word leads to h, and the word that leads there. */
  function StateBefore(k: u32, h: u32): u32 {
    Unscale(Xor(h, Mix(k)))
  }

  function WordInto(h: u32, h': u32): u32 {
    Unmix(Xor(Scale(h), h'))
  }

  lemma RoundInverse(h: u32, k: u32, h': u32)
    ensures StateBefore(k, Round(h, k)) == h && Round(StateBefore(k, h'), k) == h'
    ensures WordInto(h, Round(h, k)) == k && Round(h, WordInto(h, h')) == h'
  {
    hide Xor, Mix, Unmix, Scale, Unscale;
    XorInverse(Scale(h), Mix(k));
    XorInverse(Mix(k), Scale(h));
    ScaleInverse(h);
    MixInverse(k);
    XorInverse(h', Mix(k));
    ScaleInverse(Xor(h', Mix(k)));
    XorInverse(h', Scale(h));
    MixInverse(Xor(Scale(h), h'));
  }

  /** The state from which the data leads to the hash v. */
  function Origin(d: seq<u8>, v: u32): u32
    decreases |d|
  {
    if |d| >= 4 then StateBefore(Load(d[..4]), Origin(d[4..], v))
    else if |d| > 0 then Xor(Unscale(Unfinish(v)), Load(d))
    else Unfinish(v)
  }

  /** For fixed data, the hash is a bijection of the state. */
  lemma {:induction false} OriginInverse(d: seq<u8>, h: u32, v: u32)
    ensures Rest(d, Origin(d, v)) == v && Origin(d, Rest(d, h)) == h
    decreases |d|
  {
    hide Xor, Finish, Unfinish, Scale, Unscale, Round, StateBefore, Load;
    if |d| >= 4 {
      var k := Load(d[..4]);
      OriginInverse(d[4..], Round(h, k), v);
      RoundInverse(h, k, Origin(d[4..], v));
    } else if |d| > 0 {
      FinishInverse(v);
      ScaleInverse(Unfinish(v));
      XorInverse(Unscale(Unfinish(v)), Load(d));
      XorInverse(h, Load(d));
      ScaleInverse(Xor(h, Load(d)));
      FinishInverse(Scale(Xor(h, Load(d))));
    } else {
      FinishInverse(v);
      FinishInverse(h);
    }
  }

  /** Undoing a hash along its data ends in the length: that is where it starts. */
  lemma StartsFromLength(d: seq<u8>, h: u32)
    requires |d| < W
    ensures Origin(d, Hash(d)) == |d|
    ensures Hash(d) == Rest(d, h) <==> h == |d|
  {
    OriginInverse(d, |d|, 0);
    OriginInverse(d, h, 0);
  }

  // ----------------------------------------------------------------- one word

  /** A word as n bytes, lowest first. */
  function Store(w: nat, n: nat): (d: seq<u8>)
    ensures |d| == n
  {
    if n == 0 then [] else [w % 0x100] + Store(w / 0x100, n - 1)
  }

  lemma {:induction false} StoreLoad(d: seq<u8>)
    ensures Store(Load(d), |d|) == d
  {
    if d != [] {
      StoreLoad(d[1..]);
    }
  }

  function Pow256(n: nat): nat {
    if n == 0 then 1 else 0x100 * Pow256(n - 1)
  }

  lemma {:induction false} LoadStored(w: nat, n: nat)
    requires w < Pow256(n)
    ensures Load(Store(w, n)) == w
    decreases n
  {
    if n > 0 {
      assert Store(w, n)[1..] == Store(w / 0x100, n - 1);
      LoadStored(w / 0x100, n - 1);
    }
  }

  lemma LoadStore(w: u32)
    ensures Load(Store(w, 4)) == w
  {
    assert Pow256(4) == W;
    LoadStored(w, 4);
  }

  /** The data with word i replaced. */
  function PutWord(d: seq<u8>, i: nat, w: u32): (r: seq<u8>)
    requires 4 * i + 4 <= |d|
    ensures |r| == |d|
  {
    d[..4 * i] + Store(w, 4) + d[4 * i + 4..]
  }

  /** The word that takes state h to the hash v when it stands at place i. */
  function WordFor(d: seq<u8>, i: nat, h: u32, v: u32): u32
    requires 4 * i + 4 <= |d|
    decreases i
  {
    if i == 0 then WordInto(h, Origin(d[4..], v))
    else WordFor(d[4..], i - 1, Round(h, Load(d[..4])), v)
  }

  lemma {:induction false} WordDecides(d: seq<u8>, i: nat, w: u32, h: u32, v: u32)
    requires 4 * i + 4 <= |d|
    ensures Rest(PutWord(d, i, w), h) == v <==> w == WordFor(d, i, h, v)
    decreases i
  {
    hide Round, Load, Store, Origin, WordInto;
    var r := PutWord(d, i, w);
    if i == 0 {
      assert r[..4] == Store(w, 4) && r[4..] == d[4..];
      LoadStore(w);
      OriginInverse(d[4..], Round(h, w), v);
      RoundInverse(h, w, Origin(d[4..], v));
    } else {
      assert r[..4] == d[..4] && r[4..] == PutWord(d[4..], i - 1, w);
      WordDecides(d[4..], i - 1, w, Round(h, Load(d[..4])), v);
    }
  }

  /** With the length and all other bytes fixed, the map from one aligned word to
      the hash is a bijection: for every hash there is exactly one word. */
  lemma WordIsBijective(d: seq<u8>, i: nat, w: u32, v: u32)
    requires 4 * i + 4 <= |d| < W
    ensures Hash(PutWord(d, i, w)) == v <==> w == WordFor(d, i, |d|, v)
  {
    WordDecides(d, i, w, |d|, v);
  }

  // ------------------------------------------------------------- no collisions

  /** The bytes behind the last whole word decide the hash one to one. */
  lemma {:induction false} TailIsInjective(a: seq<u8>, b: seq<u8>, h: u32)
    requires |a| == |b| && a[..|a| - |a| % 4] == b[..|a| - |a| % 4]
    requires Rest(a, h) == Rest(b, h)
    ensures a == b
    decreases |a|
  {
    hide Xor, Finish, Scale, Round, Load;
    var n := |a| - |a| % 4;
    if |a| >= 4 {
      assert a[..n][..4] == a[..4] && b[..n][..4] == b[..4];
      assert a[..n][4..] == a[4..][..n - 4] && b[..n][4..] == b[4..][..n - 4];
      TailIsInjective(a[4..], b[4..], Round(h, Load(a[..4])));
      assert a == a[..4] + a[4..] && b == b[..4] + b[4..];
    } else if |a| > 0 {
      var x, y := Xor(h, Load(a)), Xor(h, Load(b));
      FinishInverse(Scale(x));
      FinishInverse(Scale(y));
      ScaleInverse(x);
      ScaleInverse(y);
      XorInverse(Load(a), h);
      XorInverse(Load(b), h);
      XorInverse(h, Load(a));
      XorInverse(h, Load(b));
      StoreLoad(a);
      StoreLoad(b);
    }
  }

  /** Inputs of one length that differ only inside one aligned word, or only
      behind the last one, have different hashes. */
  lemma NoCollision(a: seq<u8>, b: seq<u8>, from: nat, to: nat)
    requires |a| == |b| < W && a != b
    requires from <= to <= |a| && a[..from] == b[..from] && a[to..] == b[to..]
    requires from % 4 == 0 && (to == from + 4 || (to == |a| && to < from + 4))
    ensures Hash(a) != Hash(b)
  {
    hide Hash;
    if to == from + 4 {
      OneWordDiffers(a, b, from / 4);
    } else if Hash(a) == Hash(b) {
      TailsDiffer(a, b);
    }
  }

  lemma PutOwn(a: seq<u8>, b: seq<u8>, i: nat)
    requires |a| == |b| && 4 * i + 4 <= |a| && a[..4 * i] == b[..4 * i] && a[4 * i + 4..] == b[4 * i + 4..]
    ensures PutWord(a, i, Load(b[4 * i..4 * i + 4])) == b
  {
    StoreLoad(b[4 * i..4 * i + 4]);
    hide Store, Load;
    assert b == b[..4 * i] + b[4 * i..4 * i + 4] + b[4 * i + 4..];
  }

  lemma OneWordDiffers(a: seq<u8>, b: seq<u8>, i: nat)
    requires |a| == |b| < W && a != b
    requires 4 * i + 4 <= |a| && a[..4 * i] == b[..4 * i] && a[4 * i + 4..] == b[4 * i + 4..]
    ensures Hash(a) != Hash(b)
  {
    hide Hash, WordFor, Load, Store, PutWord;
    PutOwn(a, a, i);
    PutOwn(a, b, i);
    WordIsBijective(a, i, Load(a[4 * i..4 * i + 4]), Hash(a));
    WordIsBijective(a, i, Load(b[4 * i..4 * i + 4]), Hash(a));
  }

  lemma TailsDiffer(a: seq<u8>, b: seq<u8>)
    requires |a| == |b| < W && a[..|a| - |a| % 4] == b[..|a| - |a| % 4]
    requires Hash(a) == Hash(b)
    ensures a == b
  {
    TailIsInjective(a, b, |a|);
  }

  // --------------------------------------------------------------- the program

  /** x | y */
  function BitOr(x: nat, y: nat): (z: nat)
    decreases x + y
  {
    if x == 0 && y == 0 then 0
    else 2 * BitOr(x / 2, y / 2) + if Odd(x) || Odd(y) then 1 else 0
  }

  lemma {:induction false} BeginsAtZero(y: nat)
    ensures BitOr(0, y) == y && BitXor(0, y) == y
  {
    if y > 0 {
      BeginsAtZero(y / 2);
    }
  }

  /** Joining words that share no bits is adding them. */
  lemma {:induction false} JoinAdds(x: nat, y: nat, k: nat)
    requires x < Pow2(k)
    ensures BitOr(x, y * Pow2(k)) == x + y * Pow2(k) == BitXor(x, y * Pow2(k))
    decreases k
  {
    if k == 0 {
      BeginsAtZero(y);
    } else {
      var z := y * Pow2(k - 1);
      assert y * Pow2(k) == 2 * z;
      JoinAdds(x / 2, y, k - 1);
      hide Pow2;
    }
  }

  lemma {:induction false} ShlExact(x: nat, k: nat, w: nat)
    requires x < Pow2(w) && x * Pow2(k) < Pow2(w)
    ensures Shl(x, k, w) == x * Pow2(k)
    decreases k
  {
    if k > 0 {
      var p := Pow2(k - 1);
      assert x * Pow2(k) == 2 * x * p;
      MulGrowsBy(2 * x, p);
      hide Pow2;
      ShlExact(2 * x, k - 1, w);
    }
  }

  lemma MulGrowsBy(x: nat, m: nat)
    requires m >= 1
    ensures x * m >= x
  {
  }

  function Up(b: u8, k: nat): u32
    requires k <= 24
  {
    Pow2Widths();
    Shl(b, k, 32)
  }

  lemma UpIs(b: u8, k: nat)
    requires k in {8, 16, 24}
    ensures Up(b, k) == b * Pow2(k) < W
  {
    Pow2Widths();
    assert b * Pow2(k) < Pow2(32);
    ShlExact(b, k, 32);
  }

  /** Three or four bytes as a sum. */
  function Sum2(x: nat, y: nat): nat { x + 0x100 * y }

  function Sum3(x: nat, y: nat, z: nat): nat { x + 0x100 * y + 0x1_0000 * z }

  function Sum4(x: nat, y: nat, z: nat, u: nat): nat { x + 0x100 * y + 0x1_0000 * z + 0x100_0000 * u }

  lemma LoadBytes(d: seq<u8>)
    ensures |d| == 1 ==> Load(d) == d[0]
    ensures |d| == 2 ==> Load(d) == Sum2(d[0], d[1])
    ensures |d| == 3 ==> Load(d) == Sum3(d[0], d[1], d[2])
    ensures |d| == 4 ==> Load(d) == Sum4(d[0], d[1], d[2], d[3])
  {
  }

  lemma Joined2(x: u8, y: u8)
    ensures BitOr(x, Up(y, 8)) == Sum2(x, y) == BitXor(x, Up(y, 8))
    ensures Sum2(x, y) < 0x1_0000
  {
    Pow2Widths();
    UpIs(y, 8);
    hide Pow2;
    JoinAdds(x, y, 8);
  }

  lemma Joined3(x: u8, y: u8, z: u8)
    ensures BitOr(Sum2(x, y), Up(z, 16)) == Sum3(x, y, z) == BitXor(Sum2(x, y), Up(z, 16))
    ensures Sum3(x, y, z) < 0x100_0000
  {
    Pow2Widths();
    UpIs(z, 16);
    hide Pow2;
    JoinAdds(Sum2(x, y), z, 16);
  }

  lemma Joined4(x: u8, y: u8, z: u8, u: u8)
    ensures BitOr(Sum3(x, y, z), Up(u, 24)) == Sum4(x, y, z, u)
  {
    Pow2Widths();
    UpIs(u, 24);
    hide Pow2;
    JoinAdds(Sum3(x, y, z), u, 24);
  }

  lemma Joined(d: seq<u8>)
    requires |d| == 4
    ensures BitOr(BitOr(BitOr(d[0], Up(d[1], 8)), Up(d[2], 16)), Up(d[3], 24)) == Load(d)
  {
    LoadBytes(d);
    hide *;
    Joined2(d[0], d[1]);
    Joined3(d[0], d[1], d[2]);
    Joined4(d[0], d[1], d[2], d[3]);
  }

  lemma XorRegroup(h: u32, a: u32, b: u32, c: u32)
    ensures Xor(Xor(Xor(h, c), b), a) == Xor(h, Xor(Xor(a, b), c))
    ensures Xor(Xor(h, b), a) == Xor(h, Xor(a, b))
  {
    forall i: nat | i < 32
      ensures Bit(Xor(Xor(Xor(h, c), b), a), i) == Bit(Xor(h, Xor(Xor(a, b), c)), i)
      ensures Bit(Xor(Xor(h, b), a), i) == Bit(Xor(h, Xor(a, b)), i)
    {
      BitOfXor(Xor(Xor(h, c), b), a, i);
      BitOfXor(Xor(h, c), b, i);
      BitOfXor(h, c, i);
      BitOfXor(h, Xor(Xor(a, b), c), i);
      BitOfXor(Xor(a, b), c, i);
      BitOfXor(a, b, i);
      BitOfXor(Xor(h, b), a, i);
      BitOfXor(h, b, i);
      BitOfXor(h, Xor(a, b), i);
    }
    hide Bit, Xor;
    SameBits(Xor(Xor(Xor(h, c), b), a), Xor(h, Xor(Xor(a, b), c)));
    SameBits(Xor(Xor(h, b), a), Xor(h, Xor(a, b)));
  }

  lemma TailJoined(d: seq<u8>, h: u32)
    ensures |d| == 1 ==> Xor(h, d[0]) == Xor(h, Load(d))
    ensures |d| == 2 ==> Xor(Xor(h, Up(d[1], 8)), d[0]) == Xor(h, Load(d))
    ensures |d| == 3 ==> Xor(Xor(Xor(h, Up(d[2], 16)), Up(d[1], 8)), d[0]) == Xor(h, Load(d))
  {
    LoadBytes(d);
    hide Load, Up, BitXor, Sum2, Sum3;
    if |d| == 2 {
      XorRegroup(h, d[0], Up(d[1], 8), 0);
      Joined2(d[0], d[1]);
    } else if |d| == 3 {
      XorRegroup(h, d[0], Up(d[1], 8), Up(d[2], 16));
      Joined2(d[0], d[1]);
      Joined3(d[0], d[1], d[2]);
    }
  }

  /** esma_murmur_hash */
  method MurmurHash(data: seq<u8>) returns (h: u32)
    requires |data| < W
    ensures h == Hash(data)
  {
    hide Xor, Scale, Up, Right, Load, BitOr;
    var len: nat, at: nat := |data|, 0;
    h := len;
    assert data[0..] == data;
    while len >= 4
      invariant at + len == |data|
      invariant Rest(data[at..], h) == Hash(data)
    {
      ghost var d := data[at..];
      assert d[..4] == data[at..at + 4] && d[4..] == data[at + 4..];
      Joined(d[..4]);
      var k: nat := data[at];
      k := BitOr(k, Up(data[at + 1], 8));
      k := BitOr(k, Up(data[at + 2], 16));
      k := BitOr(k, Up(data[at + 3], 24));
      k := Xor(k, FACTOR);
      k := Xor(k, Right(k, 24));
      k := Scale(k);
      h := Scale(h);
      h := Xor(h, k);
      at, len := at + 4, len - 4;
    }
    TailJoined(data[at..], h);
    if len == 3 {
      h := Xor(h, Up(data[at + 2], 16));
    }
    if len >= 2 {
      h := Xor(h, Up(data[at + 1], 8));
    }
    if len >= 1 {
      h := Xor(h, data[at]);
      h := Scale(h);
    }
    h := Xor(h, Right(h, 13));
    h := Scale(h);
    h := Xor(h, Right(h, 15));
  }
}
