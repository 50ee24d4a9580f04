/** The C unsigned integers: a word of width w is a natural number below 2^w, and
    the operators of the language are spelled out on it, with their truncation.
    `LowFirst` and `HighFirst` show a word as the bits of module Gf2. */
module Words {
  import opened Gf2

  type u8 = x: nat | x < 0x100
  type u16 = x: nat | x < 0x1_0000
  type u32 = x: nat | x < 0x1_0000_0000

  function Pow2(n: nat): (p: nat)
    ensures p > 0
  {
    if n == 0 then 1 else 2 * Pow2(n - 1)
  }

  lemma Pow2Widths()
    ensures Pow2(7) == 0x80 && Pow2(8) == 0x100
    ensures Pow2(15) == 0x8000 && Pow2(16) == 0x1_0000
    ensures Pow2(24) == 0x100_0000
    ensures Pow2(31) == 0x8000_0000 && Pow2(32) == 0x1_0000_0000
  {
  }

  predicate Odd(x: nat) {
    x % 2 == 1
  }

  /** Bit i of x, bit 0 lowest. */
  predicate Bit(x: nat, i: nat)
    decreases i
  {
    if i == 0 then Odd(x) else Bit(x / 2, i - 1)
  }

  /** x ^ y */
  function BitXor(x: nat, y: nat): (z: nat)
    decreases x + y
  {
    if x == 0 && y == 0 then 0
    else 2 * BitXor(x / 2, y / 2) + if Odd(x) != Odd(y) then 1 else 0
  }

  /** x & y */
  function BitAnd(x: nat, y: nat): (z: nat)
    decreases x + y
  {
    if x == 0 && y == 0 then 0
    else 2 * BitAnd(x / 2, y / 2) + if Odd(x) && Odd(y) then 1 else 0
  }

  /** x << k in a word of width w: bits pushed out at the top are lost. */
  function Shl(x: nat, k: nat, w: nat): (z: nat)
    requires x < Pow2(w)
    ensures z < Pow2(w)
    decreases k
  {
    if k == 0 then x
    else Shl(if 2 * x < Pow2(w) then 2 * x else 2 * x - Pow2(w), k - 1, w)
  }

  /** x >> k */
  function Shr(x: nat, k: nat): nat
    decreases k
  {
    if k == 0 then x else Shr(x / 2, k - 1)
  }

  // ------------------------------------------------------- words as sequences

  /** The n low bits of x, lowest first. */
  function LowFirst(x: nat, n: nat): (b: Bits)
    ensures |b| == n
    ensures forall i :: 0 <= i < n ==> b[i] == Bit(x, i)
  {
    seq(n, i requires 0 <= i < n => Bit(x, i))
  }

  /** The n low bits of x, highest first. */
  function HighFirst(x: nat, n: nat): (b: Bits)
    ensures |b| == n
    ensures forall i :: 0 <= i < n ==> b[i] == Bit(x, n - 1 - i)
  {
    seq(n, i requires 0 <= i < n => Bit(x, n - 1 - i))
  }

  lemma {:induction false} BitsDetermine(x: nat, y: nat, n: nat)
    requires x < Pow2(n) && y < Pow2(n)
    requires forall i: nat :: i < n ==> Bit(x, i) == Bit(y, i)
    ensures x == y
    decreases n
  {
    if n > 0 {
      assert Bit(x, 0) == Bit(y, 0);
      forall i: nat | i < n - 1 ensures Bit(x / 2, i) == Bit(y / 2, i) {
        assert Bit(x, i + 1) == Bit(y, i + 1);
      }
      BitsDetermine(x / 2, y / 2, n - 1);
    }
  }

  lemma {:induction false} BitOfXor(x: nat, y: nat, i: nat)
    ensures Bit(BitXor(x, y), i) == (Bit(x, i) != Bit(y, i))
    decreases i
  {
    if i > 0 {
      BitOfXor(x / 2, y / 2, i - 1);
    }
  }

  lemma {:induction false} BitOfAnd(x: nat, y: nat, i: nat)
    ensures Bit(BitAnd(x, y), i) == (Bit(x, i) && Bit(y, i))
    decreases i
  {
    if i > 0 {
      BitOfAnd(x / 2, y / 2, i - 1);
    }
  }

  lemma {:induction false} XorFits(x: nat, y: nat, n: nat)
    requires x < Pow2(n) && y < Pow2(n)
    ensures BitXor(x, y) < Pow2(n)
    decreases n
  {
    if n > 0 {
      XorFits(x / 2, y / 2, n - 1);
    }
  }

  lemma {:induction false} AndOne(x: nat, k: nat)
    ensures BitAnd(x, Pow2(k)) == if Bit(x, k) then Pow2(k) else 0
    decreases k
  {
    if k > 0 {
      AndOne(x / 2, k - 1);
      assert Pow2(k) / 2 == Pow2(k - 1);
    } else {
      AndZero(x / 2);
    }
  }

  lemma {:induction false} AndZero(x: nat)
    ensures BitAnd(x, 0) == 0
    decreases x
  {
    if x > 0 {
      AndZero(x / 2);
    }
  }

  lemma BitsOfXor(x: nat, y: nat, n: nat)
    ensures LowFirst(BitXor(x, y), n) == Xor(LowFirst(x, n), LowFirst(y, n))
    ensures HighFirst(BitXor(x, y), n) == Xor(HighFirst(x, n), HighFirst(y, n))
  {
    forall i: nat ensures Bit(BitXor(x, y), i) == (Bit(x, i) != Bit(y, i)) {
      BitOfXor(x, y, i);
    }
  }

  // ------------------------------------------------------------------ shifts

  /** The top bit of a word, and the word without it. */
  lemma {:induction false} TopBit(x: nat, n: nat)
    requires x < Pow2(n + 1)
    ensures Bit(x, n) <==> x >= Pow2(n)
    decreases n
  {
    if n > 0 {
      TopBit(x / 2, n - 1);
    }
  }

  lemma {:induction false} DropTop(x: nat, n: nat, i: nat)
    requires Pow2(n) <= x < Pow2(n + 1) && i < n
    ensures Bit(x - Pow2(n), i) == Bit(x, i)
    decreases n
  {
    if i > 0 {
      DropTop(x / 2, n - 1, i - 1);
      assert (x - Pow2(n)) / 2 == x / 2 - Pow2(n - 1);
    }
  }

  lemma {:induction false} BitsAbove(x: nat, n: nat, i: nat)
    requires x < Pow2(n) && i >= n
    ensures !Bit(x, i)
    decreases n
  {
    if n > 0 {
      BitsAbove(x / 2, n - 1, i - 1);
    } else {
      BitOfZero(i);
    }
  }

  lemma {:induction false} BitOfZero(i: nat)
    ensures !Bit(0, i)
    decreases i
  {
    if i > 0 {
      BitOfZero(i - 1);
    }
  }

  lemma {:induction false} BitOfShr(x: nat, k: nat, i: nat)
    ensures Bit(Shr(x, k), i) == Bit(x, i + k)
    decreases k
  {
    if k > 0 {
      BitOfShr(x / 2, k - 1, i);
    }
  }

  lemma BitShl(x: nat, n: nat, i: nat)
    requires n > 0 && x < Pow2(n) && i < n
    ensures Bit(Shl(x, 1, n), i) == (i > 0 && Bit(x, i - 1))
  {
    if x < Pow2(n - 1) {
      assert Shl(x, 1, n) == 2 * x;
    } else {
      assert Shl(x, 1, n) == 2 * (x - Pow2(n - 1));
      if i > 0 {
        DropTop(x, n - 1, i - 1);
      }
    }
  }

  lemma HighFirstShl(x: nat, n: nat)
    requires n > 0 && x < Pow2(n)
    ensures HighFirst(Shl(x, 1, n), n) == HighFirst(x, n)[1..] + [false]
  {
    var s, t := HighFirst(Shl(x, 1, n), n), HighFirst(x, n);
    forall i: nat | i < n ensures s[i] == (i < n - 1 && t[i + 1]) {
      BitShl(x, n, n - 1 - i);
    }
  }

  lemma LowFirstShr(x: nat, n: nat)
    requires n > 0 && x < Pow2(n)
    ensures LowFirst(Shr(x, 1), n) == LowFirst(x, n)[1..] + [false]
  {
    var s, t := LowFirst(Shr(x, 1), n), LowFirst(x, n);
    assert Shr(x, 1) == x / 2;
    BitsAbove(x, n, n);
    forall i: nat | i < n ensures s[i] == (i < n - 1 && t[i + 1]) {
      assert Bit(x / 2, i) == Bit(x, i + 1);
    }
  }

  /** x << k moves the bits up by k. */
  lemma {:induction false} BitShlN(x: nat, k: nat, n: nat, i: nat)
    requires x < Pow2(n) && i < n
    ensures Bit(Shl(x, k, n), i) == (i >= k && Bit(x, i - k))
    decreases k
  {
    if k > 0 {
      var y := Shl(x, 1, n);
      assert Shl(x, k, n) == Shl(y, k - 1, n);
      BitShlN(y, k - 1, n, i);
      if i >= k - 1 {
        BitShl(x, n, i - (k - 1));
      }
    }
  }

  // ------------------------------------------------------------- remainders

  /** Halving x and halving its remainder modulo 2m go together. */
  lemma ModHalf(x: nat, m: nat)
    requires m > 0
    ensures x % (2 * m) / 2 == x / 2 % m
    ensures x % (2 * m) % 2 == x % 2
  {
    var q, r := DivMod(x, 2 * m);
    var h, k := Halve(x, m, q, r);
    ModUnique(m, q, k);
  }

  lemma DivMod(x: nat, d: nat) returns (q: nat, r: nat)
    requires d > 0
    ensures x == d * q + r && r == x % d < d
  {
    q, r := x / d, x % d;
  }

  lemma Halve(x: nat, m: nat, q: nat, r: nat) returns (h: nat, k: nat)
    requires x == 2 * m * q + r && r < 2 * m
    ensures h == x / 2 == m * q + k && k == r / 2 < m && x % 2 == r % 2
  {
    h, k := x / 2, r / 2;
    var a := m * q;
    assert 2 * m * q == 2 * a;
  }

  lemma ModUnique(m: nat, q: nat, r: nat)
    requires r < m
    ensures (m * q + r) % m == r
  {
    var d, e := (m * q + r) / m, (m * q + r) % m;
    assert m * q + r == m * d + e;
    assert m * (q - d) == e - r;
    if q > d {
      MulGrows(m, q - d);
    } else if q < d {
      MulGrows(m, d - q);
    }
  }

  lemma MulGrows(m: nat, d: nat)
    requires d >= 1
    ensures m * d >= m
  {
  }
}
