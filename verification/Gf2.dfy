/** Polynomials over GF(2) and the linear feedback shift register that every
    CRC loop of the library runs, whatever its width and bit order.

    A polynomial is a `seq<bool>` of coefficients, highest power first. A
    register of width w is a sequence of w bits, the bit that leaves next first. */
module Gf2 {

  type Bits = seq<bool>

  function Zeros(n: nat): (z: Bits)
    ensures |z| == n
    ensures forall i :: 0 <= i < n ==> !z[i]
  {
    seq(n, _ => false)
  }

  /** Addition over GF(2), coefficient by coefficient. */
  function Xor(a: Bits, b: Bits): (c: Bits)
    requires |a| == |b|
    ensures |c| == |a|
    ensures forall i :: 0 <= i < |a| ==> c[i] == (a[i] != b[i])
  {
    seq(|a|, i requires 0 <= i < |a| => a[i] != b[i])
  }

  predicate IsZero(a: Bits) {
    forall i :: 0 <= i < |a| ==> !a[i]
  }

  function Reverse(a: Bits): (b: Bits)
    ensures |b| == |a|
    ensures forall i :: 0 <= i < |a| ==> b[i] == a[|a| - 1 - i]
  {
    seq(|a|, i requires 0 <= i < |a| => a[|a| - 1 - i])
  }

  // ------------------------------------------------------------- the register

  /** One clock without input: the leading bit leaves and, if set, the low
      coefficients of the generator are subtracted. */
  function Shift(r: Bits, p: Bits): (s: Bits)
    requires |r| == |p| > 0
    ensures |s| == |r|
  {
    var t := r[1..] + [false];
    if r[0] then Xor(t, p) else t
  }

  function ShiftN(r: Bits, p: Bits, n: nat): (s: Bits)
    requires |r| == |p| > 0
    ensures |s| == |r|
    decreases n
  {
    if n == 0 then r else ShiftN(Shift(r, p), p, n - 1)
  }

  /** One message bit enters the register. */
  function Feed(r: Bits, p: Bits, b: bool): (s: Bits)
    requires |r| == |p| > 0
    ensures |s| == |r|
  {
    Shift(r[0 := r[0] != b], p)
  }

  /** A whole message enters the register, bit by bit. */
  function Lfsr(r: Bits, p: Bits, m: Bits): (s: Bits)
    requires |r| == |p| > 0
    ensures |s| == |r|
    decreases |m|
  {
    if m == [] then r else Lfsr(Feed(r, p, m[0]), p, m[1..])
  }

  /** Concatenation: a CRC can be continued from the register it stopped at. */
  lemma {:induction false} LfsrConcat(r: Bits, p: Bits, m: Bits, n: Bits)
    requires |r| == |p| > 0
    ensures Lfsr(r, p, m + n) == Lfsr(Lfsr(r, p, m), p, n)
    decreases |m|
  {
    if m == [] {
      assert m + n == n;
    } else {
      assert (m + n)[1..] == m[1..] + n;
      LfsrConcat(Feed(r, p, m[0]), p, m[1..], n);
    }
  }

  // ---------------------------------------------------------------- linearity

  lemma {:induction false} ShiftXor(a: Bits, b: Bits, p: Bits)
    requires |a| == |b| == |p| > 0
    ensures Shift(Xor(a, b), p) == Xor(Shift(a, p), Shift(b, p))
  {
    assert Xor(a, b)[1..] == Xor(a[1..], b[1..]);
  }

  lemma {:induction false} ShiftNXor(a: Bits, b: Bits, p: Bits, n: nat)
    requires |a| == |b| == |p| > 0
    ensures ShiftN(Xor(a, b), p, n) == Xor(ShiftN(a, p, n), ShiftN(b, p, n))
    decreases n
  {
    if n > 0 {
      ShiftXor(a, b, p);
      ShiftNXor(Shift(a, p), Shift(b, p), p, n - 1);
    }
  }

  lemma {:induction false} FeedXor(a: Bits, b: Bits, p: Bits, x: bool, y: bool)
    requires |a| == |b| == |p| > 0
    ensures Feed(Xor(a, b), p, x != y) == Xor(Feed(a, p, x), Feed(b, p, y))
  {
    ShiftXor(a[0 := a[0] != x], b[0 := b[0] != y], p);
    assert Xor(a[0 := a[0] != x], b[0 := b[0] != y]) == Xor(a, b)[0 := Xor(a, b)[0] != (x != y)];
  }

  /** The register is XOR-linear in the pair (start value, message). */
  lemma {:induction false} LfsrXor(a: Bits, b: Bits, p: Bits, m: Bits, n: Bits)
    requires |a| == |b| == |p| > 0
    requires |m| == |n|
    ensures Lfsr(Xor(a, b), p, Xor(m, n)) == Xor(Lfsr(a, p, m), Lfsr(b, p, n))
    decreases |m|
  {
    if m != [] {
      FeedXor(a, b, p, m[0], n[0]);
      assert Xor(m, n)[1..] == Xor(m[1..], n[1..]);
      LfsrXor(Feed(a, p, m[0]), Feed(b, p, n[0]), p, m[1..], n[1..]);
    }
  }

  /** XORing a chunk of at most w bits into the register and then clocking it
      as often is the same as feeding the chunk bit by bit. */
  lemma {:induction false} ChunkFeed(r: Bits, p: Bits, chunk: Bits)
    requires |r| == |p| > 0
    requires |chunk| <= |r|
    ensures ShiftN(Xor(r, chunk + Zeros(|r| - |chunk|)), p, |chunk|) == Lfsr(r, p, chunk)
    decreases |chunk|
  {
    if chunk == [] {
      assert chunk + Zeros(|r|) == Zeros(|r|);
      assert Xor(r, Zeros(|r|)) == r;
    } else {
      PeelChunk(r, p, chunk);
      ChunkFeed(Feed(r, p, chunk[0]), p, chunk[1..]);
    }
  }

  lemma {:induction false} PeelChunk(r: Bits, p: Bits, chunk: Bits)
    requires |r| == |p| > 0
    requires 0 < |chunk| <= |r|
    ensures Shift(Xor(r, chunk + Zeros(|r| - |chunk|)), p) ==
            Xor(Feed(r, p, chunk[0]), chunk[1..] + Zeros(|r| - |chunk[1..]|))
  {
    var rest := chunk[1..];
    var fed := r[0 := r[0] != chunk[0]];
    var tail := [false] + rest + Zeros(|r| - |chunk|);
    assert Xor(r, chunk + Zeros(|r| - |chunk|)) == Xor(fed, tail);
    ShiftXor(fed, tail, p);
    assert Shift(tail, p) == rest + Zeros(|r| - |rest|);
  }

  lemma {:induction false} ShiftNCompose(r: Bits, p: Bits, i: nat, j: nat)
    requires |r| == |p| > 0
    ensures ShiftN(r, p, i + j) == ShiftN(ShiftN(r, p, i), p, j)
    decreases i
  {
    if i > 0 {
      ShiftNCompose(Shift(r, p), p, i - 1, j);
    }
  }

  lemma {:induction false} LfsrOfZeros(r: Bits, p: Bits, n: nat)
    requires |r| == |p| > 0
    ensures Lfsr(r, p, Zeros(n)) == ShiftN(r, p, n)
    decreases n
  {
    if n > 0 {
      assert Zeros(n)[1..] == Zeros(n - 1);
      assert r[0 := r[0] != false] == r;
      LfsrOfZeros(Shift(r, p), p, n - 1);
    }
  }

  // --------------------------------------------------- polynomial remainders

  /** The product q * g, by shifting and adding; g has degree |g| - 1. */
  function Mul(q: Bits, g: Bits): (d: Bits)
    requires |g| > 0
    ensures |d| == |q| + |g| - 1
  {
    if q == [] then Zeros(|g| - 1)
    else Xor(Scaled(q[0], g, |q| - 1), [false] + Mul(q[1..], g))
  }

  /** c * g * x^n */
  function Scaled(c: bool, g: Bits, n: nat): (s: Bits)
    ensures |s| == |g| + n
  {
    if c then g + Zeros(n) else Zeros(|g| + n)
  }

  /** r is a remainder of d modulo g: some quotient q gives d = q * g + r with
      deg r < deg g. */
  ghost predicate IsRemainder(d: Bits, g: Bits, r: Bits) {
    && |g| > 0
    && |r| == |g| - 1
    && |d| >= |r|
    && exists q: Bits :: |q| == |d| - |r| && d == Xor(Mul(q, g), Zeros(|q|) + r)
  }

  /** The dividend of a CRC over message m started at r: r * x^|m| + m * x^w. */
  function Dividend(r: Bits, m: Bits): (d: Bits)
    ensures |d| == |r| + |m|
  {
    Xor(r + Zeros(|m|), m + Zeros(|r|))
  }

  /** The bits that leave the register are the quotient. */
  function Quotient(r: Bits, p: Bits, m: Bits): (q: Bits)
    requires |r| == |p| > 0
    ensures |q| == |m|
    decreases |m|
  {
    if m == [] then [] else [r[0] != m[0]] + Quotient(Feed(r, p, m[0]), p, m[1..])
  }

  lemma {:induction false} LfsrDivides(r: Bits, p: Bits, m: Bits)
    requires |r| == |p| > 0
    ensures Dividend(r, m) == Xor(Mul(Quotient(r, p, m), [true] + p), Zeros(|m|) + Lfsr(r, p, m))
    decreases |m|
  {
    var g := [true] + p;
    if m == [] {
      assert Dividend(r, m) == r;
      assert Mul([], g) == Zeros(|p|);
    } else {
      var r' := Feed(r, p, m[0]);
      LfsrDivides(r', p, m[1..]);
      DividendStep(r, p, m);
      PrependXor(Scaled(r[0] != m[0], g, |m| - 1), Mul(Quotient(r', p, m[1..]), g),
                 Zeros(|m| - 1), Lfsr(r', p, m[1..]));
      assert [false] + Zeros(|m| - 1) == Zeros(|m|);
      MulCons(r[0] != m[0], Quotient(r', p, m[1..]), g);
    }
  }

  lemma {:induction false} MulCons(c: bool, q: Bits, g: Bits)
    requires |g| > 0
    ensures Mul([c] + q, g) == Xor(Scaled(c, g, |q|), [false] + Mul(q, g))
  {
    assert ([c] + q)[1..] == q;
  }

  lemma {:induction false} PrependXor(lead: Bits, product: Bits, z: Bits, rem: Bits)
    requires |lead| == |product| + 1 && |product| == |z| + |rem|
    ensures Xor(lead, [false] + Xor(product, z + rem)) ==
            Xor(Xor(lead, [false] + product), [false] + z + rem)
  {
    assert [false] + Xor(product, z + rem) == Xor([false] + product, [false] + z + rem);
    XorAssoc(lead, [false] + product, [false] + z + rem);
  }

  lemma XorZeros(a: Bits)
    ensures Xor(Zeros(|a|), a) == a
  {
  }

  lemma {:induction false} XorAssoc(a: Bits, b: Bits, c: Bits)
    requires |a| == |b| == |c|
    ensures Xor(a, Xor(b, c)) == Xor(Xor(a, b), c)
  {
  }

  lemma {:induction false} DividendStep(r: Bits, p: Bits, m: Bits)
    requires |r| == |p| > 0 && m != []
    ensures Dividend(r, m) ==
            Xor(Scaled(r[0] != m[0], [true] + p, |m| - 1),
                [false] + Dividend(Feed(r, p, m[0]), m[1..]))
  {
    var d := Dividend(r, m);
    var d' := Dividend(Feed(r, p, m[0]), m[1..]);
    var lead := Scaled(r[0] != m[0], [true] + p, |m| - 1);
    forall i: nat | i < |d| ensures d[i] == (lead[i] != (0 < i && d'[i - 1])) {
      DividendAt(r, m, i);
      ScaledAt(r[0] != m[0], p, |m| - 1, i);
      if 0 < i {
        FedDividendAt(r, p, m, i);
      }
    }
    PointwiseXor(d, lead, d');
  }

  lemma PointwiseXor(d: Bits, lead: Bits, tail: Bits)
    requires |d| == |lead| == |tail| + 1
    requires forall i: nat :: i < |d| ==> d[i] == (lead[i] != (0 < i && tail[i - 1]))
    ensures d == Xor(lead, [false] + tail)
  {
  }

  lemma {:induction false} ScaledAt(c: bool, p: Bits, n: nat, i: nat)
    requires i < |p| + 1 + n
    ensures Scaled(c, [true] + p, n)[i] == (c && (i == 0 || (i <= |p| && p[i - 1])))
  {
  }

  lemma {:induction false} FedDividendAt(r: Bits, p: Bits, m: Bits, i: nat)
    requires |r| == |p| > 0 && m != []
    requires 0 < i < |r| + |m|
    ensures Dividend(Feed(r, p, m[0]), m[1..])[i - 1] ==
            (Dividend(r, m)[i] != (r[0] != m[0] && i <= |p| && p[i - 1]))
  {
    DividendAt(r, m, i);
    DividendAt(Feed(r, p, m[0]), m[1..], i - 1);
    if i <= |p| {
      FeedAt(r, p, m[0], i - 1);
    }
  }

  lemma {:induction false} DividendAt(r: Bits, m: Bits, i: nat)
    requires i < |r| + |m|
    ensures Dividend(r, m)[i] == ((i < |r| && r[i]) != (i < |m| && m[i]))
  {
  }

  lemma {:induction false} FeedAt(r: Bits, p: Bits, b: bool, i: nat)
    requires |r| == |p| > i
    ensures Feed(r, p, b)[i] == ((i + 1 < |r| && r[i + 1]) != ((r[0] != b) && p[i]))
  {
  }

  lemma {:induction false} MulLeads(q: Bits, g: Bits) returns (i: nat)
    requires |g| > 0 && g[0] && !IsZero(q)
    ensures i < |q| && Mul(q, g)[i]
  {
    if q[0] {
      i := 0;
    } else {
      var j :| 0 <= j < |q| && q[j];
      assert q[1..][j - 1];
      i := MulLeads(q[1..], g);
      MulSkip(q, g, i);
      i := i + 1;
    }
  }

  lemma {:induction false} MulSkip(q: Bits, g: Bits, i: nat)
    requires |g| > 0 && q != [] && !q[0]
    requires i < |Mul(q[1..], g)|
    ensures Mul(q, g)[i + 1] == Mul(q[1..], g)[i]
  {
  }

  lemma {:induction false} MulXor(a: Bits, b: Bits, g: Bits)
    requires |g| > 0 && |a| == |b|
    ensures Mul(Xor(a, b), g) == Xor(Mul(a, g), Mul(b, g))
  {
    if a != [] {
      assert Xor(a, b)[1..] == Xor(a[1..], b[1..]);
      MulXor(a[1..], b[1..], g);
    }
  }

  lemma {:induction false} XorCancel(x: Bits, y: Bits, u: Bits, v: Bits)
    requires |x| == |y| == |u| == |v|
    requires Xor(x, u) == Xor(y, v)
    ensures Xor(x, y) == Xor(u, v)
  {
    forall i | 0 <= i < |x| ensures Xor(x, y)[i] == Xor(u, v)[i] {
      assert Xor(x, u)[i] == Xor(y, v)[i];
    }
  }

  lemma {:induction false} RemainderUnique(d: Bits, g: Bits, r: Bits, s: Bits)
    requires |g| > 0 && g[0]
    requires IsRemainder(d, g, r) && IsRemainder(d, g, s)
    ensures r == s
  {
    var a: Bits :| |a| == |d| - |r| && d == Xor(Mul(a, g), Zeros(|a|) + r);
    var b: Bits :| |b| == |d| - |s| && d == Xor(Mul(b, g), Zeros(|b|) + s);
    QuotientDifference(a, b, g, r, s);
  }

  lemma {:induction false} QuotientDifference(a: Bits, b: Bits, g: Bits, r: Bits, s: Bits)
    requires |g| > 0 && g[0]
    requires |a| == |b| && |r| == |s| == |g| - 1
    requires Xor(Mul(a, g), Zeros(|a|) + r) == Xor(Mul(b, g), Zeros(|b|) + s)
    ensures r == s
  {
    MulXor(a, b, g);
    XorCancel(Mul(a, g), Mul(b, g), Zeros(|a|) + r, Zeros(|a|) + s);
    LowProduct(Xor(a, b), g, r, s);
  }

  lemma HighPartCancels(n: nat, r: Bits, s: Bits, i: nat)
    requires |r| == |s| && i < n
    ensures !Xor(Zeros(n) + r, Zeros(n) + s)[i]
  {
  }

  lemma {:induction false} LowProduct(c: Bits, g: Bits, r: Bits, s: Bits)
    requires |g| > 0 && g[0]
    requires |r| == |s| == |g| - 1
    requires Mul(c, g) == Xor(Zeros(|c|) + r, Zeros(|c|) + s)
    ensures r == s
  {
    if !IsZero(c) {
      var i := MulLeads(c, g);
      HighPartCancels(|c|, r, s, i);
    } else {
      MulOfZero(c, g);
      forall i | 0 <= i < |r| ensures r[i] == s[i] {
        assert !Mul(c, g)[|c| + i];
      }
    }
  }

  lemma {:induction false} MulOfZero(q: Bits, g: Bits)
    requires |g| > 0 && IsZero(q)
    ensures IsZero(Mul(q, g))
  {
    if q != [] {
      MulOfZero(q[1..], g);
    }
  }

  /** The register after the message is exactly THE remainder of
      r * x^|m| + m * x^w modulo x^w + p. */
  lemma {:induction false} LfsrIsRemainder(r: Bits, p: Bits, m: Bits, s: Bits)
    requires |r| == |p| > 0
    ensures IsRemainder(Dividend(r, m), [true] + p, s) <==> s == Lfsr(r, p, m)
  {
    LfsrDivides(r, p, m);
    assert IsRemainder(Dividend(r, m), [true] + p, Lfsr(r, p, m)) by {
      var q := Quotient(r, p, m);
      assert |q| == |Dividend(r, m)| - |r|;
    }
    if IsRemainder(Dividend(r, m), [true] + p, s) {
      RemainderUnique(Dividend(r, m), [true] + p, s, Lfsr(r, p, m));
    }
  }

  // --------------------------------------------------------- error detection

  /** With constant term 1 a clock loses nothing: its inverse. */
  lemma {:induction false} ShiftInjective(a: Bits, b: Bits, p: Bits)
    requires |a| == |b| == |p| > 0 && p[|p| - 1]
    requires Shift(a, p) == Shift(b, p)
    ensures a == b
  {
    var w := |p|;
    assert Shift(a, p)[w - 1] == a[0];
    assert Shift(b, p)[w - 1] == b[0];
    forall i | 1 <= i < w ensures a[i] == b[i] {
      assert Shift(a, p)[i - 1] == (a[i] != (a[0] && p[i - 1]));
      assert Shift(b, p)[i - 1] == (b[i] != (b[0] && p[i - 1]));
    }
  }

  lemma {:induction false} ShiftNKeepsNonZero(r: Bits, p: Bits, n: nat)
    requires |r| == |p| > 0 && p[|p| - 1]
    requires !IsZero(r)
    ensures !IsZero(ShiftN(r, p, n))
    decreases n
  {
    if n > 0 {
      if IsZero(Shift(r, p)) {
        assert Shift(Zeros(|p|), p) == Shift(r, p);
        ShiftInjective(r, Zeros(|p|), p);
      }
      ShiftNKeepsNonZero(Shift(r, p), p, n - 1);
    }
  }

  /** The two messages agree outside the window [from, to). */
  predicate DifferOnlyIn(m: Bits, n: Bits, from: nat, to: nat) {
    && |m| == |n|
    && from <= to <= |m|
    && forall i :: 0 <= i < |m| && !(from <= i < to) ==> m[i] == n[i]
  }

  /** Whatever the start value, an error burst no longer than the register
      always changes the register. */
  lemma {:induction false} BurstDetected(r: Bits, p: Bits, m: Bits, n: Bits, from: nat, to: nat)
    requires |r| == |p| > 0 && p[|p| - 1]
    requires DifferOnlyIn(m, n, from, to) && to - from <= |p|
    ensures Lfsr(r, p, m) == Lfsr(r, p, n) <==> m == n
  {
    if m != n {
      var e := Xor(m, n);
      ErrorPattern(m, n, from, to);
      BurstLeavesTrace(p, from, e[from..to], |m| - to);
      LfsrDifference(r, p, m, n);
    }
  }

  lemma {:induction false} ErrorPattern(m: Bits, n: Bits, from: nat, to: nat)
    requires DifferOnlyIn(m, n, from, to) && m != n
    ensures Xor(m, n) == Zeros(from) + Xor(m, n)[from..to] + Zeros(|m| - to)
    ensures !IsZero(Xor(m, n)[from..to])
  {
    var k :| 0 <= k < |m| && m[k] != n[k];
    assert Xor(m, n)[from..to][k - from];
  }

  /** The effect of an error is the register of the error pattern alone. */
  lemma {:induction false} LfsrDifference(r: Bits, p: Bits, m: Bits, n: Bits)
    requires |r| == |p| > 0
    requires |m| == |n|
    ensures Lfsr(Zeros(|p|), p, Xor(m, n)) == Xor(Lfsr(r, p, m), Lfsr(r, p, n))
  {
    assert Xor(r, r) == Zeros(|p|);
    LfsrXor(r, r, p, m, n);
  }

  lemma {:induction false} BurstLeavesTrace(p: Bits, before: nat, burst: Bits, after: nat)
    requires |p| > 0 && p[|p| - 1]
    requires |burst| <= |p| && !IsZero(burst)
    ensures !IsZero(Lfsr(Zeros(|p|), p, Zeros(before) + burst + Zeros(after)))
  {
    var z := Zeros(|p|);
    LfsrConcat(z, p, Zeros(before) + burst, Zeros(after));
    LfsrConcat(z, p, Zeros(before), burst);
    LfsrOfZeros(z, p, before);
    ShiftNOfZero(p, before);
    LoadedBurst(p, burst);
    LfsrOfZeros(Lfsr(z, p, burst), p, after);
    ShiftNKeepsNonZero(Lfsr(z, p, burst), p, after);
  }

  lemma {:induction false} LoadedBurst(p: Bits, burst: Bits)
    requires |p| > 0 && p[|p| - 1]
    requires |burst| <= |p| && !IsZero(burst)
    ensures !IsZero(Lfsr(Zeros(|p|), p, burst))
  {
    var loaded := burst + Zeros(|p| - |burst|);
    XorZeros(loaded);
    ChunkFeed(Zeros(|p|), p, burst);
    var k :| 0 <= k < |burst| && burst[k];
    assert loaded[k];
    ShiftNKeepsNonZero(loaded, p, |burst|);
  }

  lemma {:induction false} ShiftNOfZero(p: Bits, n: nat)
    requires |p| > 0
    ensures ShiftN(Zeros(|p|), p, n) == Zeros(|p|)
  {
    if n > 0 {
      assert Shift(Zeros(|p|), p) == Zeros(|p|);
      ShiftNOfZero(p, n - 1);
    }
  }

  /** Exactly which errors slip through: those whose polynomial the generator
      divides. */
  lemma {:induction false} UndetectedIffDivisible(r: Bits, p: Bits, m: Bits, n: Bits)
    requires |r| == |p| > 0
    requires |m| == |n|
    ensures Lfsr(r, p, m) == Lfsr(r, p, n) <==>
            IsRemainder(Xor(m, n) + Zeros(|p|), [true] + p, Zeros(|p|))
  {
    LfsrDifference(r, p, m, n);
    XorZeroIffEqual(Lfsr(r, p, m), Lfsr(r, p, n));
    LfsrIsRemainder(Zeros(|p|), p, Xor(m, n), Zeros(|p|));
    DividendFromZero(|p|, Xor(m, n));
  }

  lemma {:induction false} DividendFromZero(w: nat, e: Bits)
    ensures Dividend(Zeros(w), e) == e + Zeros(w)
  {
  }

  lemma {:induction false} XorZeroIffEqual(a: Bits, b: Bits)
    requires |a| == |b|
    ensures Xor(a, b) == Zeros(|a|) <==> a == b
  {
    if Xor(a, b) == Zeros(|a|) {
      forall i | 0 <= i < |a| ensures a[i] == b[i] {
        assert !Xor(a, b)[i];
      }
    }
  }

  // ----------------------------------------------------------------- residues

  /** Feeding a register anything of its own width d leaves what w clocks make
      of the difference; feeding it itself leaves zero. */
  lemma {:induction false} FeedOwnWidth(r: Bits, p: Bits, d: Bits)
    requires |r| == |p| == |d| > 0
    ensures Lfsr(r, p, d) == ShiftN(Xor(r, d), p, |p|)
  {
    ChunkFeed(r, p, d);
    assert d + Zeros(0) == d;
  }
}
