/** What the checksums guarantee, for all messages. */
module CrcTheorems {
  import opened Gf2
  import opened Words
  import opened CrcLoops
  import opened CrcNames

  /** Every loop computes THE remainder of init * x^(8n) + M * x^w modulo
      x^w + poly, the coefficients read in the loop's own bit order. */
  lemma RegisterIsRemainder(d: seq<u8>, init: nat, poly: nat, w: nat, high: bool, c: nat)
    requires w > 0 && c < Pow2(w)
    ensures IsRemainder(Dividend(WordBits(init, w, high), MessageBits(d, high)),
                        [true] + WordBits(poly, w, high), WordBits(c, w, high))
            <==> c == Register(d, init, poly, w, high)
  {
    hide WordBits, MessageBits, IsRemainder, Lfsr, Dividend, Register;
    LfsrIsRemainder(WordBits(init, w, high), WordBits(poly, w, high), MessageBits(d, high),
                    WordBits(c, w, high));
    WordBitsDetermine(c, Register(d, init, poly, w, high), w, high);
  }

  /** A checksum can be continued where an earlier one stopped. */
  lemma RegisterConcat(d: seq<u8>, e: seq<u8>, init: nat, poly: nat, w: nat, high: bool)
    requires w > 0
    ensures Register(d + e, init, poly, w, high) ==
            Register(e, Register(d, init, poly, w, high), poly, w, high)
  {
    hide WordBits, MessageBits, Lfsr, Register;
    var r, p := WordBits(init, w, high), WordBits(poly, w, high);
    MessageBitsConcat(d, e, high);
    LfsrConcat(r, p, MessageBits(d, high), MessageBits(e, high));
    WordBitsDetermine(Register(d + e, init, poly, w, high),
                      Register(e, Register(d, init, poly, w, high), poly, w, high), w, high);
  }

  // ---------------------------------------------------------------- linearity

  function XorBytes(d: seq<u8>, e: seq<u8>): (x: seq<u8>)
    requires |d| == |e|
    ensures |x| == |d|
  {
    if d == [] then []
    else
      Pow2Widths();
      XorFits(d[0], e[0], 8);
      [BitXor(d[0], e[0])] + XorBytes(d[1..], e[1..])
  }

  lemma XorConcat(a: Bits, b: Bits, s: Bits, t: Bits)
    requires |a| == |b| && |s| == |t|
    ensures Xor(a + s, b + t) == Xor(a, b) + Xor(s, t)
  {
  }

  lemma {:induction false} MessageBitsXor(d: seq<u8>, e: seq<u8>, high: bool)
    requires |d| == |e|
    ensures MessageBits(XorBytes(d, e), high) == Xor(MessageBits(d, high), MessageBits(e, high))
    decreases |d|
  {
    if d != [] {
      MessageBitsXor(d[1..], e[1..], high);
      WordBitsXor(d[0], e[0], 8, high);
      XorConcat(ByteBits(d[0], high), ByteBits(e[0], high),
                MessageBits(d[1..], high), MessageBits(e[1..], high));
    }
  }

  lemma RegisterXor(d: seq<u8>, e: seq<u8>, i: nat, j: nat, poly: nat, w: nat, high: bool)
    requires w > 0 && |d| == |e|
    ensures Register(XorBytes(d, e), BitXor(i, j), poly, w, high) ==
            BitXor(Register(d, i, poly, w, high), Register(e, j, poly, w, high))
  {
    hide WordBits, MessageBits, Lfsr, Register, BitXor, XorBytes;
    var p := WordBits(poly, w, high);
    var x, y := Register(d, i, poly, w, high), Register(e, j, poly, w, high);
    MessageBitsXor(d, e, high);
    WordBitsXor(i, j, w, high);
    WordBitsXor(x, y, w, high);
    LfsrXor(WordBits(i, w, high), WordBits(j, w, high), p, MessageBits(d, high), MessageBits(e, high));
    XorFits(x, y, w);
    WordBitsDetermine(Register(XorBytes(d, e), BitXor(i, j), poly, w, high), BitXor(x, y), w, high);
  }

  // --------------------------------------------------------- error detection

  lemma XorOutCancels(x: nat, y: nat, out: nat, n: nat)
    requires x < Pow2(n) && y < Pow2(n)
    ensures BitXor(x, out) == BitXor(y, out) <==> x == y
  {
    if BitXor(x, out) == BitXor(y, out) {
      forall i: nat | i < n ensures Bit(x, i) == Bit(y, i) {
        BitOfXor(x, out, i);
        BitOfXor(y, out, i);
      }
      BitsDetermine(x, y, n);
    }
  }

  lemma ChecksumsCompare(v: Variant, d: seq<u8>, e: seq<u8>)
    requires v.w > 0
    ensures v.Checksum(d) == v.Checksum(e) <==>
            Lfsr(WordBits(v.init, v.w, v.high), WordBits(v.poly, v.w, v.high), MessageBits(d, v.high)) ==
            Lfsr(WordBits(v.init, v.w, v.high), WordBits(v.poly, v.w, v.high), MessageBits(e, v.high))
  {
    hide WordBits, MessageBits, Lfsr, Register, BitXor;
    var x, y := Register(d, v.init, v.poly, v.w, v.high), Register(e, v.init, v.poly, v.w, v.high);
    XorOutCancels(x, y, v.out, v.w);
    WordBitsDetermine(x, y, v.w, v.high);
  }

  /** All 36 algorithms: two messages of equal length that differ only inside a
      window of at most w bits, in the algorithm's bit order and at any position,
      get equal checksums only if they are equal. */
  lemma NamedDetectsBursts(w: nat, name: u32, d: seq<u8>, e: seq<u8>, from: nat, to: nat)
    requires Named(w, name).Some?
    requires DifferOnlyIn(MessageBits(d, Named(w, name).value.high),
                          MessageBits(e, Named(w, name).value.high), from, to)
    requires to - from <= w
    ensures Named(w, name).value.Checksum(d) == Named(w, name).value.Checksum(e) <==> d == e
  {
    hide Named, WordBits, MessageBits, Lfsr, Register, BitXor, Pow2;
    NamedInvertible(w, name);
    var v := Named(w, name).value;
    ChecksumsCompare(v, d, e);
    BurstDetected(WordBits(v.init, w, v.high), WordBits(v.poly, w, v.high),
                  MessageBits(d, v.high), MessageBits(e, v.high), from, to);
    MessageBitsInjective(d, e, v.high);
  }

  lemma {:induction false} MessageBitsInjective(d: seq<u8>, e: seq<u8>, high: bool)
    ensures MessageBits(d, high) == MessageBits(e, high) <==> d == e
    decreases |d|
  {
    var s, t := MessageBits(d, high), MessageBits(e, high);
    if s == t && d != [] {
      assert e != [];
      assert s[..8] == ByteBits(d[0], high) && s[8..] == MessageBits(d[1..], high);
      assert t[..8] == ByteBits(e[0], high) && t[8..] == MessageBits(e[1..], high);
      Pow2Widths();
      WordBitsDetermine(d[0], e[0], 8, high);
      MessageBitsInjective(d[1..], e[1..], high);
      assert d == [d[0]] + d[1..] && e == [e[0]] + e[1..];
    }
  }

  /** Exactly which corruptions a named algorithm misses. */
  lemma NamedMissesMultiples(w: nat, name: u32, d: seq<u8>, e: seq<u8>)
    requires Named(w, name).Some?
    requires |d| == |e|
    ensures var v := Named(w, name).value;
            v.Checksum(d) == v.Checksum(e) <==>
            IsRemainder(MessageBits(XorBytes(d, e), v.high) + Zeros(w),
                        [true] + WordBits(v.poly, w, v.high), Zeros(w))
  {
    hide Named, WordBits, MessageBits, Lfsr, Register, BitXor, Pow2, IsRemainder, XorBytes;
    NamedInvertible(w, name);
    var v := Named(w, name).value;
    ChecksumsCompare(v, d, e);
    MessageBitsXor(d, e, v.high);
    UndetectedIffDivisible(WordBits(v.init, w, v.high), WordBits(v.poly, w, v.high),
                           MessageBits(d, v.high), MessageBits(e, v.high));
  }
}
