/** Mirror images and residues of the CRC algorithms. */
module CrcMirror {
  import opened Gf2
  import opened Words
  import opened CrcLoops
  import opened CrcNames

  // ------------------------------------------------------------ bit reversal

  /** The word of width w with the bits of x in opposite order. */
  function MirrorWord(x: nat, w: nat): (y: nat)
    ensures y < Pow2(w)
    ensures LowFirst(y, w) == HighFirst(x, w)
  {
    FromBits(HighFirst(x, w), false)
  }

  function MirrorBytes(d: seq<u8>): (m: seq<u8>)
    ensures |m| == |d|
  {
    if d == [] then []
    else
      Pow2Widths();
      [MirrorWord(d[0], 8)] + MirrorBytes(d[1..])
  }

  lemma MirrorDetermined(x: nat, y: nat, w: nat)
    requires y < Pow2(w) && LowFirst(y, w) == HighFirst(x, w)
    ensures MirrorWord(x, w) == y
  {
    WordBitsDetermine(y, MirrorWord(x, w), w, false);
  }

  lemma MirrorTwice(x: nat, w: nat)
    requires x < Pow2(w)
    ensures MirrorWord(MirrorWord(x, w), w) == x
  {
    var y := MirrorWord(x, w);
    forall i: nat | i < w ensures HighFirst(y, w)[i] == LowFirst(x, w)[i] {
      assert LowFirst(y, w)[w - 1 - i] == HighFirst(x, w)[w - 1 - i];
    }
    assert HighFirst(y, w) == LowFirst(x, w);
    MirrorDetermined(y, x, w);
  }

  lemma MirrorXor(x: nat, y: nat, w: nat)
    requires x < Pow2(w) && y < Pow2(w)
    ensures MirrorWord(BitXor(x, y), w) == BitXor(MirrorWord(x, w), MirrorWord(y, w))
  {
    hide BitXor, Pow2, Bit;
    BitsOfXor(x, y, w);
    BitsOfXor(MirrorWord(x, w), MirrorWord(y, w), w);
    XorFits(MirrorWord(x, w), MirrorWord(y, w), w);
    MirrorDetermined(BitXor(x, y), BitXor(MirrorWord(x, w), MirrorWord(y, w)), w);
  }

  lemma {:induction false} MirrorMessage(d: seq<u8>)
    ensures MessageBits(MirrorBytes(d), false) == MessageBits(d, true)
    decreases |d|
  {
    if d != [] {
      MirrorMessage(d[1..]);
      assert MirrorBytes(d)[1..] == MirrorBytes(d[1..]);
    }
  }

  /** The reflected loop is the mirror image of the normal one, for every
      message, start value and polynomial. */
  lemma ReflectedIsMirror(d: seq<u8>, init: nat, poly: nat, w: nat)
    requires w > 0
    ensures Register(MirrorBytes(d), MirrorWord(init, w), MirrorWord(poly, w), w, false) ==
            MirrorWord(Register(d, init, poly, w, true), w)
  {
    hide MessageBits, Lfsr, MirrorBytes, Pow2;
    MirrorMessage(d);
    MirrorDetermined(Register(d, init, poly, w, true),
                     Register(MirrorBytes(d), MirrorWord(init, w), MirrorWord(poly, w), w, false), w);
  }

  // ------------------------------------------------- mirror images by name

  ghost predicate IsMirror(x: nat, y: nat, w: nat) {
    y < Pow2(w) && LowFirst(y, w) == HighFirst(x, w)
  }

  /** A constant and its mirror image grow by one bit: below x, above y. */
  lemma MirrorBit(x: nat, y: nat, n: nat, b: bool)
    requires IsMirror(x, y, n)
    ensures IsMirror(2 * x + if b then 1 else 0, y + if b then Pow2(n) else 0, n + 1)
  {
    var x', y' := 2 * x + if b then 1 else 0, y + if b then Pow2(n) else 0;
    TopBit(y', n);
    forall i: nat | i < n ensures Bit(y', i) == Bit(y, i) {
      if b {
        DropTop(y', n, i);
      }
    }
    SnocMirror(x, x', y, y', n);
  }

  lemma SnocMirror(x: nat, x': nat, y: nat, y': nat, n: nat)
    requires LowFirst(y, n) == HighFirst(x, n)
    requires x == x' / 2 && Odd(x') == Bit(y', n)
    requires forall i: nat :: i < n ==> Bit(y', i) == Bit(y, i)
    ensures LowFirst(y', n + 1) == HighFirst(x', n + 1)
  {
    forall i: nat | i < n ensures Bit(y', i) == Bit(x', n - i) {
      assert LowFirst(y, n)[i] == HighFirst(x, n)[i];
      assert Bit(x', n - i) == Bit(x, n - i - 1);
    }
  }

  lemma NothingMirrors()
    ensures IsMirror(0, 0, 0)
  {
  }

  lemma Mirror16_1021()
    ensures IsMirror(0x1021, 0x8408, 16)
  {
    hide IsMirror;
    NothingMirrors();
    MirrorBit(0x0, 0x0, 0, false); MirrorBit(0x0, 0x0, 1, false);
    MirrorBit(0x0, 0x0, 2, false); MirrorBit(0x0, 0x0, 3, true);
    MirrorBit(0x1, 0x8, 4, false); MirrorBit(0x2, 0x8, 5, false);
    MirrorBit(0x4, 0x8, 6, false); MirrorBit(0x8, 0x8, 7, false);
    MirrorBit(0x10, 0x8, 8, false); MirrorBit(0x20, 0x8, 9, false);
    MirrorBit(0x40, 0x8, 10, true); MirrorBit(0x81, 0x408, 11, false);
    MirrorBit(0x102, 0x408, 12, false); MirrorBit(0x204, 0x408, 13, false);
    MirrorBit(0x408, 0x408, 14, false); MirrorBit(0x810, 0x408, 15, true);
  }

  lemma Mirror16_8005()
    ensures IsMirror(0x8005, 0xA001, 16)
  {
    hide IsMirror;
    NothingMirrors();
    MirrorBit(0x0, 0x0, 0, true); MirrorBit(0x1, 0x1, 1, false);
    MirrorBit(0x2, 0x1, 2, false); MirrorBit(0x4, 0x1, 3, false);
    MirrorBit(0x8, 0x1, 4, false); MirrorBit(0x10, 0x1, 5, false);
    MirrorBit(0x20, 0x1, 6, false); MirrorBit(0x40, 0x1, 7, false);
    MirrorBit(0x80, 0x1, 8, false); MirrorBit(0x100, 0x1, 9, false);
    MirrorBit(0x200, 0x1, 10, false); MirrorBit(0x400, 0x1, 11, false);
    MirrorBit(0x800, 0x1, 12, false); MirrorBit(0x1000, 0x1, 13, true);
    MirrorBit(0x2001, 0x2001, 14, false); MirrorBit(0x4002, 0x2001, 15, true);
  }

  lemma Mirror16_3D65()
    ensures IsMirror(0x3D65, 0xA6BC, 16)
  {
    hide IsMirror;
    NothingMirrors();
    MirrorBit(0x0, 0x0, 0, false); MirrorBit(0x0, 0x0, 1, false);
    MirrorBit(0x0, 0x0, 2, true); MirrorBit(0x1, 0x4, 3, true);
    MirrorBit(0x3, 0xC, 4, true); MirrorBit(0x7, 0x1C, 5, true);
    MirrorBit(0xF, 0x3C, 6, false); MirrorBit(0x1E, 0x3C, 7, true);
    MirrorBit(0x3D, 0xBC, 8, false); MirrorBit(0x7A, 0xBC, 9, true);
    MirrorBit(0xF5, 0x2BC, 10, true); MirrorBit(0x1EB, 0x6BC, 11, false);
    MirrorBit(0x3D6, 0x6BC, 12, false); MirrorBit(0x7AC, 0x6BC, 13, true);
    MirrorBit(0xF59, 0x26BC, 14, false); MirrorBit(0x1EB2, 0x26BC, 15, true);
  }

  lemma Mirror32_4C11DB7()
    ensures IsMirror(0x4C11DB7, 0xEDB88320, 32)
  {
    hide IsMirror;
    NothingMirrors();
    MirrorBit(0x0, 0x0, 0, false); MirrorBit(0x0, 0x0, 1, false);
    MirrorBit(0x0, 0x0, 2, false); MirrorBit(0x0, 0x0, 3, false);
    MirrorBit(0x0, 0x0, 4, false); MirrorBit(0x0, 0x0, 5, true);
    MirrorBit(0x1, 0x20, 6, false); MirrorBit(0x2, 0x20, 7, false);
    MirrorBit(0x4, 0x20, 8, true); MirrorBit(0x9, 0x120, 9, true);
    MirrorBit(0x13, 0x320, 10, false); MirrorBit(0x26, 0x320, 11, false);
    MirrorBit(0x4C, 0x320, 12, false); MirrorBit(0x98, 0x320, 13, false);
    MirrorBit(0x130, 0x320, 14, false); MirrorBit(0x260, 0x320, 15, true);
    MirrorBit(0x4C1, 0x8320, 16, false); MirrorBit(0x982, 0x8320, 17, false);
    MirrorBit(0x1304, 0x8320, 18, false); MirrorBit(0x2608, 0x8320, 19, true);
    MirrorBit(0x4C11, 0x88320, 20, true); MirrorBit(0x9823, 0x188320, 21, true);
    MirrorBit(0x13047, 0x388320, 22, false); MirrorBit(0x2608E, 0x388320, 23, true);
    MirrorBit(0x4C11D, 0xB88320, 24, true); MirrorBit(0x9823B, 0x1B88320, 25, false);
    MirrorBit(0x130476, 0x1B88320, 26, true); MirrorBit(0x2608ED, 0x5B88320, 27, true);
    MirrorBit(0x4C11DB, 0xDB88320, 28, false); MirrorBit(0x9823B6, 0xDB88320, 29, true);
    MirrorBit(0x130476D, 0x2DB88320, 30, true); MirrorBit(0x2608EDB, 0x6DB88320, 31, true);
  }

  lemma {:induction false} BitOfOnes(w: nat, i: nat)
    requires i < w
    ensures Bit(Pow2(w) - 1, i)
    decreases w
  {
    if i > 0 {
      assert (Pow2(w) - 1) / 2 == Pow2(w - 1) - 1;
      BitOfOnes(w - 1, i - 1);
    }
  }

  lemma UniformMirrors(w: nat)
    ensures IsMirror(0, 0, w)
    ensures IsMirror(Pow2(w) - 1, Pow2(w) - 1, w)
  {
    hide Bit, Pow2;
    var ones := Pow2(w) - 1;
    forall i: nat | i < w ensures Bit(ones, i) && !Bit(0, i) {
      BitOfOnes(w, i);
      BitOfZero(i);
    }
    assert LowFirst(0, w) == HighFirst(0, w);
    assert LowFirst(ones, w) == HighFirst(ones, w);
  }

  predicate MirrorVariants(v: Variant, u: Variant)
    requires v.Fits()
  {
    && u == Variant(v.w, MirrorWord(v.init, v.w), MirrorWord(v.poly, v.w), false, MirrorWord(v.out, v.w))
    && v.high
  }

  /** Variants with mirrored parameters give mirrored checksums. */
  lemma MirrorChecksums(v: Variant, u: Variant, d: seq<u8>)
    requires v.Fits() && MirrorVariants(v, u)
    ensures u.Checksum(MirrorBytes(d)) == MirrorWord(v.Checksum(d), v.w)
  {
    hide BitXor, Pow2, Register;
    ReflectedIsMirror(d, v.init, v.poly, v.w);
    MirrorXor(Register(d, v.init, v.poly, v.w, true), v.out, v.w);
  }

  /** The algorithms that come in mirrored pairs, by their codes. */
  predicate MirrorPair(w: nat, normal: u32, reflected: u32) {
    || (w == 32 && (normal, reflected) in {(1, 0), (4, 7)})                   // BZIP2/BASIC, MPEG2/JAMCRC
    || (w == 16 && (normal, reflected) in {(21, 18), (9, 20), (2, 0), (8, 7)}) // XMODEM/KERMIT, GENIBUS/X_25,
                                                                              // BUYPASS/ARC, EN_13757/DNP
  }

  /** In both directions: mirroring the message turns either algorithm of a pair into
      the other. */
  lemma NamedMirrors(w: nat, normal: u32, reflected: u32, d: seq<u8>)
    requires MirrorPair(w, normal, reflected)
    ensures Named(w, normal).Some? && Named(w, reflected).Some?
    ensures Named(w, reflected).value.Checksum(MirrorBytes(d)) ==
            MirrorWord(Named(w, normal).value.Checksum(d), w)
    ensures Named(w, normal).value.Checksum(MirrorBytes(d)) ==
            MirrorWord(Named(w, reflected).value.Checksum(d), w)
  {
    PairParameters(w, normal, reflected);
    hide Named, MirrorVariants, BitXor, Pow2, Register, MirrorBytes;
    var v, u := Named(w, normal).value, Named(w, reflected).value;
    MirrorChecksums(v, u, d);
    MirrorChecksums(v, u, MirrorBytes(d));
    MirrorBytesTwice(d);
    ChecksumFits(v, MirrorBytes(d));
    MirrorTwice(v.Checksum(MirrorBytes(d)), w);
  }

  lemma {:induction false} MirrorBytesTwice(d: seq<u8>)
    ensures MirrorBytes(MirrorBytes(d)) == d
  {
    if d != [] {
      Pow2Widths();
      MirrorTwice(d[0], 8);
      MirrorBytesTwice(d[1..]);
      assert MirrorBytes(d)[1..] == MirrorBytes(d[1..]);
    }
  }

  lemma ChecksumFits(v: Variant, d: seq<u8>)
    requires v.Fits()
    ensures v.Checksum(d) < Pow2(v.w)
  {
    hide Register, BitXor, Pow2;
    XorFits(Register(d, v.init, v.poly, v.w, v.high), v.out, v.w);
  }

  lemma PairParameters(w: nat, normal: u32, reflected: u32)
    requires MirrorPair(w, normal, reflected)
    ensures Named(w, normal).Some? && Named(w, reflected).Some?
    ensures Named(w, normal).value.Fits() && Named(w, normal).value.w == w
    ensures MirrorVariants(Named(w, normal).value, Named(w, reflected).value)
  {
    hide MirrorWord, IsMirror, Pow2;
    NamedInvertible(w, normal);
    Pow2Widths();
    UniformMirrors(w);
    MirrorPolynomials();
    forall x: nat, y: nat | IsMirror(x, y, w) ensures MirrorWord(x, w) == y {
      MirrorOf(x, y, w);
    }
  }

  lemma MirrorPolynomials()
    ensures IsMirror(0x1021, 0x8408, 16) && IsMirror(0x8005, 0xA001, 16) && IsMirror(0x3D65, 0xA6BC, 16)
    ensures IsMirror(0x04C1_1DB7, 0xEDB8_8320, 32)
  {
    Mirror16_1021();
    Mirror16_8005();
    Mirror16_3D65();
    Mirror32_4C11DB7();
  }

  lemma MirrorOf(x: nat, y: nat, w: nat)
    requires IsMirror(x, y, w)
    ensures MirrorWord(x, w) == y
  {
    MirrorDetermined(x, y, w);
  }
}
