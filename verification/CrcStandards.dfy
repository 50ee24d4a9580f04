/** What the named checksums are by their generators, written as the exponents of
    their terms as standards do, and not by the words that the loops run on. */
module CrcStandards {
  import opened Gf2
  import opened Words
  import opened CrcLoops
  import opened CrcNames
  import opened CrcTheorems

  /** The terms of the generator, the order of a byte's bits, the word that the
      remainder starts from and the one that is added at the end, in the loop's order
      of bits. */
  datatype Standard = Standard(generator: seq<nat>, high: bool, start: nat, mask: nat)

  /** ITU-T V.41 */
  const CCITT: seq<nat> := [16, 12, 5, 0]
  /** ANSI X3.28 */
  const IBM: seq<nat> := [16, 15, 2, 0]
  /** ETSI EN 300 175-3 */
  const DECT: seq<nat> := [16, 10, 8, 7, 3, 0]
  /** EN 13757-4 and IEEE 1815 */
  const METERS: seq<nat> := [16, 13, 12, 11, 10, 8, 6, 5, 2, 0]
  /** IEEE 802.3 */
  const ETHERNET: seq<nat> := [32, 26, 23, 22, 16, 12, 11, 10, 8, 7, 5, 4, 2, 1, 0]
  /** Section 12.1 of RFC 3720 */
  const ISCSI: seq<nat> := [32, 28, 27, 26, 25, 23, 22, 20, 19, 18, 14, 13, 11, 10, 9, 8, 6, 0]

  /** CRC8_WCDMA has the terms the code's word stands for. */
  function Standard8(name: u32): Standard
    requires name < 5
  {
    match name
    case 0 => Standard([8, 2, 1, 0], true, 0x00, 0x00)
    case 1 => Standard([8, 7, 4, 3, 1, 0], true, 0xFF, 0x00)
    case 2 => Standard([8, 5, 4, 3, 0], false, 0x00, 0x00)
    case 3 => Standard([8, 7, 5, 4, 3, 2, 0], false, 0x00, 0x00)
    case _ => Standard([8, 5, 4, 0], false, 0xFF, 0x00)
  }

  function Standard16(name: u32): Standard
    requires name < 22
  {
    match name
    case 0 => Standard(IBM, false, 0x0000, 0x0000)
    case 1 => Standard(CCITT, true, 0x1D0F, 0x0000)
    case 2 => Standard(IBM, true, 0x0000, 0x0000)
    case 3 => Standard([16, 15, 14, 11, 6, 5, 2, 1, 0], true, 0xFFFF, 0x0000)
    case 4 => Standard(IBM, true, 0x800D, 0x0000)
    case 5 => Standard(DECT, true, 0x0000, 0x0001)
    case 6 => Standard(DECT, true, 0x0000, 0x0000)
    case 7 => Standard(METERS, false, 0x0000, 0xFFFF)
    case 8 => Standard(METERS, true, 0x0000, 0xFFFF)
    case 9 => Standard(CCITT, true, 0xFFFF, 0xFFFF)
    case 10 => Standard(IBM, false, 0x0000, 0xFFFF)
    case 11 => Standard(CCITT, false, 0xFFFF, 0x0000)
    case 12 => Standard(CCITT, false, 0x554D, 0x0000)
    case 13 => Standard([16, 15, 11, 9, 8, 7, 5, 4, 2, 1, 0], true, 0x0000, 0x0000)
    case 14 => Standard([16, 15, 13, 7, 4, 2, 1, 0], true, 0x0000, 0x0000)
    case 15 => Standard(CCITT, false, 0x3791, 0x0000)
    case 16 => Standard(IBM, false, 0xFFFF, 0xFFFF)
    case 17 => Standard(CCITT, false, 0x6363, 0x0000)
    case 18 => Standard(CCITT, false, 0x0000, 0x0000)
    case 19 => Standard(IBM, false, 0xFFFF, 0x0000)
    case 20 => Standard(CCITT, false, 0xFFFF, 0xFFFF)
    case _ => Standard(CCITT, true, 0x0000, 0x0000)
  }

  function Standard32(name: u32): Standard
    requires name < 9
  {
    match name
    case 0 => Standard(ETHERNET, false, 0xFFFF_FFFF, 0xFFFF_FFFF)
    case 1 => Standard(ETHERNET, true, 0xFFFF_FFFF, 0xFFFF_FFFF)
    case 2 => Standard(ISCSI, false, 0xFFFF_FFFF, 0xFFFF_FFFF)
    case 3 =>
      Standard([32, 31, 29, 27, 21, 20, 17, 16, 15, 12, 11, 5, 3, 1, 0], false, 0xFFFF_FFFF, 0xFFFF_FFFF)
    case 4 => Standard(ETHERNET, true, 0xFFFF_FFFF, 0x0000_0000)
    case 5 => Standard(ETHERNET, true, 0x0000_0000, 0xFFFF_FFFF)
    case 6 => Standard([32, 31, 24, 22, 16, 14, 8, 7, 5, 3, 1, 0], true, 0x0000_0000, 0x0000_0000)
    case 7 => Standard(ETHERNET, false, 0xFFFF_FFFF, 0x0000_0000)
    case _ => Standard([32, 7, 5, 3, 2, 1, 0], true, 0x0000_0000, 0x0000_0000)
  }

  /** Width and name of the 36 algorithms. */
  predicate Known(w: nat, name: u32) {
    (w == 8 && name < 5) || (w == 16 && name < 22) || (w == 32 && name < 9)
  }

  function StandardOf(w: nat, name: u32): Standard
    requires Known(w, name)
  {
    if w == 8 then Standard8(name) else if w == 16 then Standard16(name) else Standard32(name)
  }

  /** The coefficients of the polynomial with these terms, highest power first. */
  function Coefficients(terms: seq<nat>, w: nat): (g: Bits)
    ensures |g| == w + 1
  {
    seq(w + 1, i requires 0 <= i <= w => w - i in terms)
  }

  // ------------------------------------------------------- words as polynomials

  lemma {:induction false} AddPower(x: nat, k: nat, i: nat)
    requires !Bit(x, k)
    ensures Bit(x + Pow2(k), i) <==> i == k || Bit(x, i)
    decreases k
  {
    if k == 0 {
      assert (x + 1) / 2 == x / 2;
    } else {
      assert (x + Pow2(k)) / 2 == x / 2 + Pow2(k - 1);
      assert Odd(x + Pow2(k)) == Odd(x);
      if i > 0 {
        AddPower(x / 2, k - 1, i - 1);
      }
    }
  }

  /** The bit that stands for the power e. */
  function Place(e: nat, w: nat, high: bool): nat
    requires e < w
  {
    if high then e else w - 1 - e
  }

  predicate Descending(terms: seq<nat>, w: nat) {
    (terms != [] ==> terms[0] < w) && forall i :: 0 < i < |terms| ==> terms[i] < terms[i - 1]
  }

  lemma {:induction false} BelowAll(terms: seq<nat>, w: nat, n: nat)
    requires Descending(terms, w) && n < |terms|
    ensures terms[n] < w && terms[n] !in terms[..n]
    ensures forall i :: 0 <= i < n ==> terms[n] < terms[i]
  {
    if n > 0 {
      BelowAll(terms, w, n - 1);
    }
  }

  /** The word of w bits with the first n terms. */
  function Sum(terms: seq<nat>, n: nat, w: nat, high: bool): nat
    requires n <= |terms| && Descending(terms, w)
    decreases n
  {
    if n == 0 then 0
    else
      BelowAll(terms, w, n - 1);
      Sum(terms, n - 1, w, high) + Pow2(Place(terms[n - 1], w, high))
  }

  lemma {:induction false} SumBits(terms: seq<nat>, n: nat, w: nat, high: bool, e: nat)
    requires n <= |terms| && Descending(terms, w) && e < w
    ensures Bit(Sum(terms, n, w, high), Place(e, w, high)) <==> e in terms[..n]
    decreases n
  {
    if n == 0 {
      ZeroBit(Place(e, w, high));
    } else {
      var t := terms[n - 1];
      BelowAll(terms, w, n - 1);
      SumBits(terms, n - 1, w, high, e);
      SumBits(terms, n - 1, w, high, t);
      AddPower(Sum(terms, n - 1, w, high), Place(t, w, high), Place(e, w, high));
      assert terms[..n] == terms[..n - 1] + [t];
    }
  }

  lemma {:induction false} ZeroBit(i: nat)
    ensures !Bit(0, i)
  {
    if i > 0 {
      ZeroBit(i - 1);
    }
  }

  /** The loop's word is the generator without its highest term. */
  predicate Stands(generator: seq<nat>, w: nat, high: bool, poly: nat) {
    && generator != [] && generator[0] == w && Descending(generator[1..], w)
    && Sum(generator[1..], |generator| - 1, w, high) == poly
  }

  lemma WordIsGenerator(generator: seq<nat>, w: nat, high: bool, poly: nat)
    requires Stands(generator, w, high, poly)
    ensures [true] + WordBits(poly, w, high) == Coefficients(generator, w)
  {
    var terms := generator[1..];
    var g, b := Coefficients(generator, w), WordBits(poly, w, high);
    assert terms[..|terms|] == terms;
    forall i | 0 <= i <= w ensures ([true] + b)[i] == g[i] {
      if i > 0 {
        SumBits(terms, |terms|, w, high, w - i);
        assert b[i - 1] == Bit(poly, Place(w - i, w, high));
        assert w - i in generator <==> w - i in terms;
      }
    }
  }

  // --------------------------------------------------------------- the 36 names

  lemma Powers()
    ensures Pow2(0) == 0x1 && Pow2(1) == 0x2 && Pow2(2) == 0x4 && Pow2(3) == 0x8
    ensures Pow2(4) == 0x10 && Pow2(5) == 0x20 && Pow2(6) == 0x40 && Pow2(7) == 0x80
    ensures Pow2(8) == 0x100 && Pow2(9) == 0x200 && Pow2(10) == 0x400 && Pow2(11) == 0x800
    ensures Pow2(12) == 0x1000 && Pow2(13) == 0x2000 && Pow2(14) == 0x4000 && Pow2(15) == 0x8000
    ensures Pow2(16) == 0x10000 && Pow2(17) == 0x20000 && Pow2(18) == 0x40000 && Pow2(19) == 0x80000
    ensures Pow2(20) == 0x100000 && Pow2(21) == 0x200000 && Pow2(22) == 0x400000 && Pow2(23) == 0x800000
    ensures Pow2(24) == 0x1000000 && Pow2(25) == 0x2000000 && Pow2(26) == 0x4000000 && Pow2(27) == 0x8000000
    ensures Pow2(28) == 0x10000000 && Pow2(29) == 0x20000000 && Pow2(30) == 0x40000000 && Pow2(31) == 0x80000000
  {
  }

  lemma Basic8()
    ensures Stands([8, 2, 1, 0], 8, true, 0x07)
  {
    hide Pow2;
    Powers();
    var t: seq<nat> := [2, 1, 0];
    assert [8, 2, 1, 0][1..] == t;
  }

  lemma Cdma8()
    ensures Stands([8, 7, 4, 3, 1, 0], 8, true, 0x9B)
  {
    hide Pow2;
    Powers();
    var t: seq<nat> := [7, 4, 3, 1, 0];
    assert [8, 7, 4, 3, 1, 0][1..] == t;
    assert Sum(t, 4, 8, true) == 0x9A;
  }

  lemma Darc()
    ensures Stands([8, 5, 4, 3, 0], 8, false, 0x9C)
  {
    hide Pow2;
    Powers();
    var t: seq<nat> := [5, 4, 3, 0];
    assert [8, 5, 4, 3, 0][1..] == t;
  }

  lemma Wcdma()
    ensures Stands([8, 7, 5, 4, 3, 2, 0], 8, false, 0xBD)
  {
    hide Pow2;
    Powers();
    var t: seq<nat> := [7, 5, 4, 3, 2, 0];
    assert [8, 7, 5, 4, 3, 2, 0][1..] == t;
    assert Sum(t, 4, 8, false) == 0x1D;
  }

  lemma Maxim8()
    ensures Stands([8, 5, 4, 0], 8, false, 0x8C)
  {
    hide Pow2;
    Powers();
    var t: seq<nat> := [5, 4, 0];
    assert [8, 5, 4, 0][1..] == t;
  }

  lemma Ccitt()
    ensures Stands(CCITT, 16, true, 0x1021)
    ensures Stands(CCITT, 16, false, 0x8408)
  {
    hide Pow2;
    Powers();
    var t: seq<nat> := [12, 5, 0];
    assert CCITT[1..] == t;
  }

  lemma Ibm()
    ensures Stands(IBM, 16, true, 0x8005)
    ensures Stands(IBM, 16, false, 0xA001)
  {
    hide Pow2;
    Powers();
    var t: seq<nat> := [15, 2, 0];
    assert IBM[1..] == t;
  }

  lemma Dect()
    ensures Stands(DECT, 16, true, 0x0589)
  {
    hide Pow2;
    Powers();
    var t: seq<nat> := [10, 8, 7, 3, 0];
    assert DECT[1..] == t;
    assert Sum(t, 4, 16, true) == 0x0588;
  }

  lemma Meters()
    ensures Stands(METERS, 16, true, 0x3D65)
    ensures Stands(METERS, 16, false, 0xA6BC)
  {
    hide Pow2;
    Powers();
    var t: seq<nat> := [13, 12, 11, 10, 8, 6, 5, 2, 0];
    assert METERS[1..] == t;
    assert Sum(t, 4, 16, true) == 0x3C00;
    assert Sum(t, 8, 16, true) == 0x3D64;
    assert Sum(t, 4, 16, false) == 0x003C;
    assert Sum(t, 8, 16, false) == 0x26BC;
  }

  lemma Cdma16()
    ensures Stands([16, 15, 14, 11, 6, 5, 2, 1, 0], 16, true, 0xC867)
  {
    hide Pow2;
    Powers();
    var t: seq<nat> := [15, 14, 11, 6, 5, 2, 1, 0];
    assert [16, 15, 14, 11, 6, 5, 2, 1, 0][1..] == t;
    assert Sum(t, 4, 16, true) == 0xC840;
  }

  lemma T10()
    ensures Stands([16, 15, 11, 9, 8, 7, 5, 4, 2, 1, 0], 16, true, 0x8BB7)
  {
    hide Pow2;
    Powers();
    var t: seq<nat> := [15, 11, 9, 8, 7, 5, 4, 2, 1, 0];
    assert [16, 15, 11, 9, 8, 7, 5, 4, 2, 1, 0][1..] == t;
    assert Sum(t, 4, 16, true) == 0x8B00;
    assert Sum(t, 8, 16, true) == 0x8BB4;
  }

  lemma Teledisk()
    ensures Stands([16, 15, 13, 7, 4, 2, 1, 0], 16, true, 0xA097)
  {
    hide Pow2;
    Powers();
    var t: seq<nat> := [15, 13, 7, 4, 2, 1, 0];
    assert [16, 15, 13, 7, 4, 2, 1, 0][1..] == t;
    assert Sum(t, 4, 16, true) == 0xA090;
  }

  lemma Ethernet()
    ensures Stands(ETHERNET, 32, true, 0x04C1_1DB7)
    ensures Stands(ETHERNET, 32, false, 0xEDB8_8320)
  {
    hide Pow2;
    Powers();
    var t: seq<nat> := [26, 23, 22, 16, 12, 11, 10, 8, 7, 5, 4, 2, 1, 0];
    assert ETHERNET[1..] == t;
    assert Sum(t, 4, 32, true) == 0x04C1_0000;
    assert Sum(t, 8, 32, true) == 0x04C1_1D00;
    assert Sum(t, 12, 32, true) == 0x04C1_1DB4;
    assert Sum(t, 4, 32, false) == 0x0000_8320;
    assert Sum(t, 8, 32, false) == 0x00B8_8320;
    assert Sum(t, 12, 32, false) == 0x2DB8_8320;
  }

  lemma Iscsi()
    ensures Stands(ISCSI, 32, false, 0x82F6_3B78)
  {
    hide Pow2;
    Powers();
    var t: seq<nat> := [28, 27, 26, 25, 23, 22, 20, 19, 18, 14, 13, 11, 10, 9, 8, 6, 0];
    assert ISCSI[1..] == t;
    assert Sum(t, 4, 32, false) == 0x0000_0078;
    assert Sum(t, 8, 32, false) == 0x0000_1B78;
    assert Sum(t, 12, 32, false) == 0x0016_3B78;
    assert Sum(t, 16, 32, false) == 0x02F6_3B78;
  }

  lemma Checksum32D()
    ensures Stands([32, 31, 29, 27, 21, 20, 17, 16, 15, 12, 11, 5, 3, 1, 0], 32, false, 0xD419_CC15)
  {
    hide Pow2;
    Powers();
    var t: seq<nat> := [31, 29, 27, 21, 20, 17, 16, 15, 12, 11, 5, 3, 1, 0];
    assert [32, 31, 29, 27, 21, 20, 17, 16, 15, 12, 11, 5, 3, 1, 0][1..] == t;
    assert Sum(t, 4, 32, false) == 0x0000_0415;
    assert Sum(t, 8, 32, false) == 0x0001_CC15;
    assert Sum(t, 12, 32, false) == 0x1419_CC15;
  }

  lemma Checksum32Q()
    ensures Stands([32, 31, 24, 22, 16, 14, 8, 7, 5, 3, 1, 0], 32, true, 0x8141_41AB)
  {
    hide Pow2;
    Powers();
    var t: seq<nat> := [31, 24, 22, 16, 14, 8, 7, 5, 3, 1, 0];
    assert [32, 31, 24, 22, 16, 14, 8, 7, 5, 3, 1, 0][1..] == t;
    assert Sum(t, 4, 32, true) == 0x8141_0000;
    assert Sum(t, 8, 32, true) == 0x8141_41A0;
  }

  lemma Xfer()
    ensures Stands([32, 7, 5, 3, 2, 1, 0], 32, true, 0x0000_00AF)
  {
    hide Pow2;
    Powers();
    var t: seq<nat> := [7, 5, 3, 2, 1, 0];
    assert [32, 7, 5, 3, 2, 1, 0][1..] == t;
    assert Sum(t, 4, 32, true) == 0x0000_00AC;
  }

  /** The code's parameters are the standard's. */
  predicate Agrees(v: Variant, s: Standard, w: nat) {
    v.w == w && v.init == s.start && v.out == s.mask && v.high == s.high && Stands(s.generator, w, s.high, v.poly)
  }

  lemma Agrees8(name: u32)
    ensures Named8(name).Some? <==> name < 5
    ensures name < 5 ==> Agrees(Named8(name).value, Standard8(name), 8)
  {
    hide Stands;
    Basic8();
    Cdma8();
    Darc();
    Wcdma();
    Maxim8();
  }

  lemma Agrees16(name: u32)
    ensures Named16(name).Some? <==> name < 22
    ensures name < 22 ==> Agrees(Named16(name).value, Standard16(name), 16)
  {
    hide Stands;
    Ccitt();
    Ibm();
    Dect();
    Meters();
    Cdma16();
    T10();
    Teledisk();
  }

  lemma Agrees32(name: u32)
    ensures Named32(name).Some? <==> name < 9
    ensures name < 9 ==> Agrees(Named32(name).value, Standard32(name), 32)
  {
    hide Stands;
    Ethernet();
    Iscsi();
    Checksum32D();
    Checksum32Q();
    Xfer();
  }

  lemma NamedAgrees(w: nat, name: u32)
    ensures Known(w, name) <==> Named(w, name).Some?
    ensures Known(w, name) ==> Agrees(Named(w, name).value, StandardOf(w, name), w)
  {
    hide Agrees, Named8, Named16, Named32, Standard8, Standard16, Standard32;
    Agrees8(name);
    Agrees16(name);
    Agrees32(name);
  }

  /** crc without the mask is the remainder of start * x^(8n) + M * x^w by the
      generator. */
  ghost predicate Conforms(w: nat, name: u32, d: seq<u8>, crc: nat)
    requires Known(w, name)
  {
    var s := StandardOf(w, name);
    IsRemainder(Dividend(WordBits(s.start, w, s.high), MessageBits(d, s.high)),
                Coefficients(s.generator, w), WordBits(BitXor(crc, s.mask), w, s.high))
  }

  lemma XorMoves(a: nat, b: nat, m: nat, w: nat)
    requires a < Pow2(w) && b < Pow2(w) && m < Pow2(w)
    ensures BitXor(a, m) == b <==> a == BitXor(b, m)
  {
    XorFits(a, m, w);
    XorFits(b, m, w);
    forall i: nat
      ensures Bit(BitXor(a, m), i) == (Bit(a, i) != Bit(m, i))
      ensures Bit(BitXor(b, m), i) == (Bit(b, i) != Bit(m, i))
    {
      BitOfXor(a, m, i);
      BitOfXor(b, m, i);
    }
    hide BitXor, Bit;
    if BitXor(a, m) == b {
      BitsDetermine(a, BitXor(b, m), w);
    }
    if a == BitXor(b, m) {
      BitsDetermine(BitXor(a, m), b, w);
    }
  }

  /** For every name and every message: the checksum is the one word that conforms to
      the standard. */
  lemma NamedConforms(w: nat, name: u32, d: seq<u8>, crc: nat)
    requires Known(w, name) && crc < Pow2(w)
    ensures Named(w, name).Some?
    ensures Conforms(w, name, d, crc) <==> crc == Named(w, name).value.Checksum(d)
  {
    hide Named, StandardOf, Stands, WordBits, MessageBits, IsRemainder, Dividend, Register, BitXor, Coefficients, Pow2;
    NamedAgrees(w, name);
    NamedInvertible(w, name);
    var v, s := Named(w, name).value, StandardOf(w, name);
    WordIsGenerator(s.generator, w, s.high, v.poly);
    var x, r := BitXor(crc, s.mask), Register(d, v.init, v.poly, w, v.high);
    XorFits(crc, s.mask, w);
    RegisterIsRemainder(d, v.init, v.poly, w, v.high, x);
    XorMoves(crc, r, s.mask, w);
  }
}
