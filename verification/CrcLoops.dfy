/** The six bit-serial CRC loops. A register is shown highest bit first for the
    normal loops and lowest bit first for the reflected ones; in that view all six
    run the same shift register over the message's bits. */
module CrcLoops {
  import opened Gf2
  import opened Words

  // --------------------------------------------------------- message as bits

  /** Every byte highest bit first (`high`) or lowest bit first. */
  function ByteBits(b: u8, high: bool): (s: Bits)
    ensures |s| == 8
  {
    if high then HighFirst(b, 8) else LowFirst(b, 8)
  }

  function MessageBits(d: seq<u8>, high: bool): (s: Bits)
    ensures |s| == 8 * |d|
  {
    if d == [] then [] else ByteBits(d[0], high) + MessageBits(d[1..], high)
  }

  function WordBits(x: nat, w: nat, high: bool): (s: Bits)
    ensures |s| == w
  {
    if high then HighFirst(x, w) else LowFirst(x, w)
  }

  lemma {:induction false} MessageBitsConcat(d: seq<u8>, e: seq<u8>, high: bool)
    ensures MessageBits(d + e, high) == MessageBits(d, high) + MessageBits(e, high)
    decreases |d|
  {
    if d == [] {
      assert d + e == e;
    } else {
      assert (d + e)[1..] == d[1..] + e;
      MessageBitsConcat(d[1..], e, high);
    }
  }

  lemma MessageBitsSnoc(d: seq<u8>, k: nat, high: bool)
    requires k < |d|
    ensures MessageBits(d[..k + 1], high) == MessageBits(d[..k], high) + ByteBits(d[k], high)
  {
    assert d[..k + 1] == d[..k] + [d[k]];
    MessageBitsConcat(d[..k], [d[k]], high);
    assert MessageBits([], high) == [];
  }

  // ------------------------------------------------------------- the register

  /** The number whose bits are b, lowest first. */
  function Value(b: Bits): (x: nat)
    ensures x < Pow2(|b|)
    ensures LowFirst(x, |b|) == b
    decreases |b|
  {
    if b == [] then 0
    else
      var t := Value(b[1..]);
      var x := 2 * t + if b[0] then 1 else 0;
      assert x / 2 == t;
      assert Bit(x, 0) == b[0];
      assert forall i: nat :: 0 < i < |b| ==> Bit(x, i) == Bit(t, i - 1) == b[1..][i - 1];
      x
  }

  /** The word of width |r| that shows as r. */
  function FromBits(r: Bits, high: bool): (x: nat)
    ensures x < Pow2(|r|)
    ensures WordBits(x, |r|, high) == r
  {
    var x := Value(if high then Reverse(r) else r);
    assert high ==> HighFirst(x, |r|) == Reverse(LowFirst(x, |r|)) == r;
    x
  }

  /** The CRC register of width w after message d. */
  function Register(d: seq<u8>, init: nat, poly: nat, w: nat, high: bool): (crc: nat)
    requires w > 0
    ensures crc < Pow2(w)
    ensures WordBits(crc, w, high) ==
            Lfsr(WordBits(init, w, high), WordBits(poly, w, high), MessageBits(d, high))
  {
    FromBits(Lfsr(WordBits(init, w, high), WordBits(poly, w, high), MessageBits(d, high)), high)
  }

  lemma WordBitsDetermine(x: nat, y: nat, w: nat, high: bool)
    requires x < Pow2(w) && y < Pow2(w)
    ensures WordBits(x, w, high) == WordBits(y, w, high) <==> x == y
  {
    if WordBits(x, w, high) == WordBits(y, w, high) {
      forall i: nat | i < w ensures Bit(x, i) == Bit(y, i) {
        var k := if high then w - 1 - i else i;
        assert WordBits(x, w, high)[k] == WordBits(y, w, high)[k];
      }
      BitsDetermine(x, y, w);
    }
  }

  lemma WordBitsXor(x: nat, y: nat, w: nat, high: bool)
    ensures WordBits(BitXor(x, y), w, high) == Xor(WordBits(x, w, high), WordBits(y, w, high))
  {
    BitsOfXor(x, y, w);
  }

  // ------------------------------------------------------------ one loop step

  function NormalStep(crc: nat, poly: nat, w: nat): nat
    requires w > 0 && crc < Pow2(w)
  {
    if BitAnd(crc, Pow2(w - 1)) != 0 then BitXor(Shl(crc, 1, w), poly) else Shl(crc, 1, w)
  }

  function ReflectedStep(crc: nat, poly: nat): nat {
    if BitAnd(crc, 1) != 0 then BitXor(Shr(crc, 1), poly) else Shr(crc, 1)
  }

  lemma NormalStepShifts(crc: nat, poly: nat, w: nat)
    requires w > 0 && crc < Pow2(w) && poly < Pow2(w)
    ensures NormalStep(crc, poly, w) < Pow2(w)
    ensures HighFirst(NormalStep(crc, poly, w), w) == Shift(HighFirst(crc, w), HighFirst(poly, w))
  {
    hide BitXor, BitAnd, Shl, Bit;
    XorFits(Shl(crc, 1, w), poly, w);
    AndOne(crc, w - 1);
    HighFirstShl(crc, w);
    BitsOfXor(Shl(crc, 1, w), poly, w);
  }

  lemma ReflectedStepShifts(crc: nat, poly: nat, w: nat)
    requires w > 0 && crc < Pow2(w) && poly < Pow2(w)
    ensures ReflectedStep(crc, poly) < Pow2(w)
    ensures LowFirst(ReflectedStep(crc, poly), w) == Shift(LowFirst(crc, w), LowFirst(poly, w))
  {
    assert Shr(crc, 1) == crc / 2 < Pow2(w);
    hide BitXor, BitAnd, Bit;
    XorFits(Shr(crc, 1), poly, w);
    AndOne(crc, 0);
    LowFirstShr(crc, w);
    BitsOfXor(Shr(crc, 1), poly, w);
  }

  /** The byte meets the bits of the register that leave first. */
  lemma NormalByte(crc: nat, b: u8, w: nat)
    requires w >= 8 && crc < Pow2(w) && b < Pow2(w)
    ensures BitXor(crc, Shl(b, w - 8, w)) < Pow2(w)
    ensures HighFirst(BitXor(crc, Shl(b, w - 8, w)), w) ==
            Xor(HighFirst(crc, w), ByteBits(b, true) + Zeros(w - 8))
  {
    var s := Shl(b, w - 8, w);
    XorFits(crc, s, w);
    BitsOfXor(crc, s, w);
    forall i: nat | i < w ensures HighFirst(s, w)[i] == (ByteBits(b, true) + Zeros(w - 8))[i] {
      BitShlN(b, w - 8, w, w - 1 - i);
    }
    assert HighFirst(s, w) == ByteBits(b, true) + Zeros(w - 8);
  }

  lemma ReflectedByte(crc: nat, b: u8, w: nat)
    requires w >= 8 && crc < Pow2(w) && b < Pow2(w)
    ensures BitXor(crc, b) < Pow2(w)
    ensures LowFirst(BitXor(crc, b), w) ==
            Xor(LowFirst(crc, w), ByteBits(b, false) + Zeros(w - 8))
  {
    XorFits(crc, b, w);
    BitsOfXor(crc, b, w);
    Pow2Widths();
    forall i: nat | i < w ensures LowFirst(b, w)[i] == (ByteBits(b, false) + Zeros(w - 8))[i] {
      if i >= 8 {
        BitsAbove(b, 8, i);
      }
    }
    assert LowFirst(b, w) == ByteBits(b, false) + Zeros(w - 8);
  }

  lemma {:induction false} ShiftNSnoc(r: Bits, p: Bits, n: nat)
    requires |r| == |p| > 0
    ensures ShiftN(r, p, n + 1) == Shift(ShiftN(r, p, n), p)
  {
    ShiftNCompose(r, p, n, 1);
    assert ShiftN(ShiftN(r, p, n), p, 1) == ShiftN(Shift(ShiftN(r, p, n), p), p, 0);
  }

  /** Eight clocks after the byte was XORed in have fed the byte. */
  lemma {:induction false} ByteFed(r: Bits, p: Bits, d: seq<u8>, k: nat, high: bool)
    requires |r| == |p| >= 8 && k < |d|
    ensures ShiftN(Xor(Lfsr(r, p, MessageBits(d[..k], high)),
                       ByteBits(d[k], high) + Zeros(|p| - 8)), p, 8) ==
            Lfsr(r, p, MessageBits(d[..k + 1], high))
  {
    ChunkFeed(Lfsr(r, p, MessageBits(d[..k], high)), p, ByteBits(d[k], high));
    MessageBitsSnoc(d, k, high);
    LfsrConcat(r, p, MessageBits(d[..k], high), ByteBits(d[k], high));
  }

  lemma RegisterReached(crc: nat, d: seq<u8>, init: nat, poly: nat, w: nat, high: bool)
    requires w > 0 && crc < Pow2(w)
    requires WordBits(crc, w, high) ==
             Lfsr(WordBits(init, w, high), WordBits(poly, w, high), MessageBits(d[..|d|], high))
    ensures crc == Register(d, init, poly, w, high)
  {
    assert d[..|d|] == d;
    WordBitsDetermine(crc, Register(d, init, poly, w, high), w, high);
  }

  lemma ShlByZero(x: nat, w: nat)
    requires x < Pow2(w)
    ensures Shl(x, 0, w) == x
  {
  }

  // ---------------------------------------------------------------- the loops

  method Crc8FalseFalse(d: seq<u8>, init: u8, poly: u8) returns (crc: u8)
    ensures crc == Register(d, init, poly, 8, true)
  {
    Pow2Widths();
    hide BitXor, BitAnd, Shl, Pow2, Shift;
    ghost var r, p := HighFirst(init, 8), HighFirst(poly, 8);
    crc := init;
    for k := 0 to |d|
      invariant HighFirst(crc, 8) == Lfsr(r, p, MessageBits(d[..k], true))
    {
      NormalByte(crc, d[k], 8);
      ByteFed(r, p, d, k, true);
      assert Shl(d[k], 0, 8) == d[k] by {
        ShlByZero(d[k], 8);
      }
      crc := BitXor(crc, d[k]);
      ghost var loaded := HighFirst(crc, 8);
      for i := 0 to 8
        invariant HighFirst(crc, 8) == ShiftN(loaded, p, i)
      {
        NormalStepShifts(crc, poly, 8);
        ShiftNSnoc(loaded, p, i);
        crc := if BitAnd(crc, 0x80) != 0 then BitXor(Shl(crc, 1, 8), poly) else Shl(crc, 1, 8);
      }
    }
    RegisterReached(crc, d, init, poly, 8, true);
  }

  method Crc8TrueTrue(d: seq<u8>, init: u8, poly: u8) returns (crc: u8)
    ensures crc == Register(d, init, poly, 8, false)
  {
    Pow2Widths();
    hide BitXor, BitAnd, Shr, Pow2, Shift;
    ghost var r, p := LowFirst(init, 8), LowFirst(poly, 8);
    crc := init;
    for k := 0 to |d|
      invariant LowFirst(crc, 8) == Lfsr(r, p, MessageBits(d[..k], false))
    {
      ReflectedByte(crc, d[k], 8);
      ByteFed(r, p, d, k, false);
      crc := BitXor(crc, d[k]);
      ghost var loaded := LowFirst(crc, 8);
      for i := 0 to 8
        invariant LowFirst(crc, 8) == ShiftN(loaded, p, i)
      {
        ReflectedStepShifts(crc, poly, 8);
        ShiftNSnoc(loaded, p, i);
        crc := if BitAnd(crc, 1) != 0 then BitXor(Shr(crc, 1), poly) else Shr(crc, 1);
      }
    }
    RegisterReached(crc, d, init, poly, 8, false);
  }

  method Crc16FalseFalse(d: seq<u8>, init: u16, poly: u16) returns (crc: u16)
    ensures crc == Register(d, init, poly, 16, true)
  {
    Pow2Widths();
    hide BitXor, BitAnd, Shl, Pow2, Shift;
    ghost var r, p := HighFirst(init, 16), HighFirst(poly, 16);
    crc := init;
    for k := 0 to |d|
      invariant HighFirst(crc, 16) == Lfsr(r, p, MessageBits(d[..k], true))
    {
      NormalByte(crc, d[k], 16);
      ByteFed(r, p, d, k, true);
      crc := BitXor(crc, Shl(d[k], 8, 16));
      ghost var loaded := HighFirst(crc, 16);
      for i := 0 to 8
        invariant HighFirst(crc, 16) == ShiftN(loaded, p, i)
      {
        NormalStepShifts(crc, poly, 16);
        ShiftNSnoc(loaded, p, i);
        crc := if BitAnd(crc, 0x8000) != 0 then BitXor(Shl(crc, 1, 16), poly) else Shl(crc, 1, 16);
      }
    }
    RegisterReached(crc, d, init, poly, 16, true);
  }

  method Crc16TrueTrue(d: seq<u8>, init: u16, poly: u16) returns (crc: u16)
    ensures crc == Register(d, init, poly, 16, false)
  {
    Pow2Widths();
    hide BitXor, BitAnd, Shr, Pow2, Shift;
    ghost var r, p := LowFirst(init, 16), LowFirst(poly, 16);
    crc := init;
    for k := 0 to |d|
      invariant LowFirst(crc, 16) == Lfsr(r, p, MessageBits(d[..k], false))
    {
      ReflectedByte(crc, d[k], 16);
      ByteFed(r, p, d, k, false);
      crc := BitXor(crc, d[k]);
      ghost var loaded := LowFirst(crc, 16);
      for i := 0 to 8
        invariant LowFirst(crc, 16) == ShiftN(loaded, p, i)
      {
        ReflectedStepShifts(crc, poly, 16);
        ShiftNSnoc(loaded, p, i);
        crc := if BitAnd(crc, 1) != 0 then BitXor(Shr(crc, 1), poly) else Shr(crc, 1);
      }
    }
    RegisterReached(crc, d, init, poly, 16, false);
  }

  method Crc32FalseFalse(d: seq<u8>, init: u32, poly: u32) returns (crc: u32)
    ensures crc == Register(d, init, poly, 32, true)
  {
    Pow2Widths();
    hide BitXor, BitAnd, Shl, Pow2, Shift;
    ghost var r, p := HighFirst(init, 32), HighFirst(poly, 32);
    crc := init;
    for k := 0 to |d|
      invariant HighFirst(crc, 32) == Lfsr(r, p, MessageBits(d[..k], true))
    {
      NormalByte(crc, d[k], 32);
      ByteFed(r, p, d, k, true);
      crc := BitXor(crc, Shl(d[k], 24, 32));
      ghost var loaded := HighFirst(crc, 32);
      for i := 0 to 8
        invariant HighFirst(crc, 32) == ShiftN(loaded, p, i)
      {
        NormalStepShifts(crc, poly, 32);
        ShiftNSnoc(loaded, p, i);
        crc := if BitAnd(crc, 0x8000_0000) != 0 then BitXor(Shl(crc, 1, 32), poly) else Shl(crc, 1, 32);
      }
    }
    RegisterReached(crc, d, init, poly, 32, true);
  }

  method Crc32TrueTrue(d: seq<u8>, init: u32, poly: u32) returns (crc: u32)
    ensures crc == Register(d, init, poly, 32, false)
  {
    Pow2Widths();
    hide BitXor, BitAnd, Shr, Pow2, Shift;
    ghost var r, p := LowFirst(init, 32), LowFirst(poly, 32);
    crc := init;
    for k := 0 to |d|
      invariant LowFirst(crc, 32) == Lfsr(r, p, MessageBits(d[..k], false))
    {
      ReflectedByte(crc, d[k], 32);
      ByteFed(r, p, d, k, false);
      crc := BitXor(crc, d[k]);
      ghost var loaded := LowFirst(crc, 32);
      for i := 0 to 8
        invariant LowFirst(crc, 32) == ShiftN(loaded, p, i)
      {
        ReflectedStepShifts(crc, poly, 32);
        ShiftNSnoc(loaded, p, i);
        crc := if BitAnd(crc, 1) != 0 then BitXor(Shr(crc, 1), poly) else Shr(crc, 1);
      }
    }
    RegisterReached(crc, d, init, poly, 32, false);
  }
}
