/** What a receiver computes over a message followed by its own checksum. */
module CrcResidue {
  import opened Gf2
  import opened Words
  import opened CrcLoops
  import opened CrcNames

  /** The n bytes of x in the order the algorithm's bits are sent: big-endian for
      the normal loops, little-endian for the reflected ones. */
  function Bytes(x: nat, n: nat, high: bool): (b: seq<u8>)
    ensures |b| == n
    decreases n
  {
    if n == 0 then []
    else if high then Bytes(x / 256, n - 1, high) + [x % 256]
    else [x % 256] + Bytes(x / 256, n - 1, high)
  }

  lemma {:induction false} BitOfMod(x: nat, k: nat, i: nat)
    requires i < k
    ensures Bit(x % Pow2(k), i) == Bit(x, i)
    decreases k
  {
    ModHalf(x, Pow2(k - 1));
    if i > 0 {
      BitOfMod(x / 2, k - 1, i - 1);
    }
  }

  lemma ByteSplit(x: nat, i: nat)
    ensures i < 8 ==> Bit(x % 256, i) == Bit(x, i)
    ensures Bit(x / 256, i) == Bit(x, i + 8)
  {
    Pow2Widths();
    if i < 8 {
      BitOfMod(x, 8, i);
    }
    BitOfShr(x, 8, i);
    assert Shr(x, 8) == x / 2 / 2 / 2 / 2 / 2 / 2 / 2 / 2 == x / 256;
  }

  lemma {:induction false} BytesShowBits(x: nat, n: nat, high: bool)
    ensures MessageBits(Bytes(x, n, high), high) == WordBits(x, 8 * n, high)
    decreases n
  {
    if n > 0 {
      BytesShowBits(x / 256, n - 1, high);
      forall i: nat ensures (i < 8 ==> Bit(x % 256, i) == Bit(x, i)) && Bit(x / 256, i) == Bit(x, i + 8) {
        ByteSplit(x, i);
      }
      BytesStep(x, n, high);
    }
  }

  lemma BytesStep(x: nat, n: nat, high: bool)
    requires n > 0
    requires MessageBits(Bytes(x / 256, n - 1, high), high) == WordBits(x / 256, 8 * (n - 1), high)
    requires forall i: nat :: i < 8 ==> Bit(x % 256, i) == Bit(x, i)
    requires forall i: nat :: Bit(x / 256, i) == Bit(x, i + 8)
    ensures MessageBits(Bytes(x, n, high), high) == WordBits(x, 8 * n, high)
  {
    hide Bit;
    MessageBitsConcat(Bytes(x / 256, n - 1, high), [x % 256], high);
    MessageBitsConcat([x % 256], Bytes(x / 256, n - 1, high), high);
    assert MessageBits([x % 256], high) == ByteBits(x % 256, high);
    if high {
      assert HighFirst(x, 8 * n) == HighFirst(x / 256, 8 * (n - 1)) + HighFirst(x % 256, 8);
    } else {
      assert LowFirst(x, 8 * n) == LowFirst(x % 256, 8) + LowFirst(x / 256, 8 * (n - 1));
    }
  }

  /** The register that w clocks make of the final XOR mask. */
  function Residue(v: Variant): (r: nat)
    requires v.w > 0
    ensures r < Pow2(v.w)
    ensures WordBits(r, v.w, v.high) ==
            ShiftN(WordBits(v.out, v.w, v.high), WordBits(v.poly, v.w, v.high), v.w)
  {
    FromBits(ShiftN(WordBits(v.out, v.w, v.high), WordBits(v.poly, v.w, v.high), v.w), v.high)
  }

  /** Running the loop over a message followed by its checksum ends, for every
      message, in the same register: 0 when nothing is XORed onto the result. */
  lemma NamedResidue(w: nat, name: u32, d: seq<u8>)
    requires Named(w, name).Some?
    ensures var v := Named(w, name).value;
            && v.w == w > 0
            && Register(d + Bytes(v.Checksum(d), w / 8, v.high), v.init, v.poly, w, v.high) == Residue(v)
            && (v.out == 0 ==> Residue(v) == 0)
  {
    hide Named, Pow2, Register, BitXor, WordBits, Bytes;
    NamedInvertible(w, name);
    ChecksumFedBack(Named(w, name).value, d);
    if Named(w, name).value.out == 0 {
      ZeroResidue(Named(w, name).value);
    }
  }

  lemma ChecksumFedBack(v: Variant, d: seq<u8>)
    requires v.Fits()
    ensures Register(d + Bytes(v.Checksum(d), v.w / 8, v.high), v.init, v.poly, v.w, v.high) == Residue(v)
  {
    hide Pow2, BitXor, MessageBits, WordBits, Lfsr, Bytes, Register, ShiftN, Residue;
    var r, p := WordBits(v.init, v.w, v.high), WordBits(v.poly, v.w, v.high);
    var reg := Register(d, v.init, v.poly, v.w, v.high);
    var sum := v.Checksum(d);
    var tail := Bytes(sum, v.w / 8, v.high);
    MessageBitsConcat(d, tail, v.high);
    LfsrConcat(r, p, MessageBits(d, v.high), MessageBits(tail, v.high));
    BytesShowBits(sum, v.w / 8, v.high);
    WordBitsXor(reg, v.out, v.w, v.high);
    FeedOwnWidth(WordBits(reg, v.w, v.high), p, WordBits(sum, v.w, v.high));
    XorAgain(WordBits(reg, v.w, v.high), WordBits(v.out, v.w, v.high));
    WordBitsDetermine(Register(d + tail, v.init, v.poly, v.w, v.high), Residue(v), v.w, v.high);
  }

  lemma XorAgain(a: Bits, b: Bits)
    requires |a| == |b|
    ensures Xor(a, Xor(a, b)) == b
  {
  }

  lemma ZeroResidue(v: Variant)
    requires v.Fits() && v.out == 0
    ensures Residue(v) == 0
  {
    hide Pow2, ShiftN, Residue;
    forall i: nat ensures !Bit(0, i) {
      BitOfZero(i);
    }
    assert WordBits(0, v.w, v.high) == Zeros(v.w);
    ShiftNOfZero(WordBits(v.poly, v.w, v.high), v.w);
    WordBitsDetermine(Residue(v), 0, v.w, v.high);
  }
}
