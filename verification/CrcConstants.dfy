/** What certain inputs give: the residues of RFC 1662, and the values that catalogues
    give to check an implementation by. */
module CrcConstants {
  import opened Gf2
  import opened Words
  import opened CrcLoops
  import opened CrcNames
  import opened CrcResidue
  import opened BitVectors

  // -------------------------------------------------- the register as bit vectors

  function Step(r: bv32, p: bv32): bv32 {
    if Has(r, 1) then Plus(Down1(r), p) else Down1(r)
  }

  function Eight(r: bv32, p: bv32): bv32 {
    Step(Step(Step(Step(Step(Step(Step(Step(r, p), p), p), p), p), p), p), p)
  }

  /** The bits of a register, the one that leaves first first. */
  function Reg(r: bv32): (s: Bits)
    ensures |s| == 32
  {
    QuadBits(QuadOf(r))
  }

  lemma MovedSum(o: Octet, last: bool, p: Octet, x: bool)
    ensures var t := Octet(o.b, o.c, o.d, o.e, o.f, o.g, o.h, last);
            Moved(o, last, p, x) == if x then Sum(t, p) else t
  {
  }

  lemma StepClocks(r: bv32, p: bv32)
    ensures QuadOf(Step(r, p)) == Clock(QuadOf(r), QuadOf(p))
  {
    hide Plus, Down1, Has, QuadOf, Sum, Moved;
    LeavesFirst(r);
    QuadDown(r);
    QuadPlus(Down1(r), p);
    var q, s := QuadOf(r), QuadOf(p);
    MovedSum(q.k, q.l.a, s.k, q.k.a);
    MovedSum(q.l, q.m.a, s.l, q.k.a);
    MovedSum(q.m, q.n.a, s.m, q.k.a);
    MovedSum(q.n, false, s.n, q.k.a);
  }

  lemma StepShifts(r: bv32, p: bv32, n: nat)
    ensures ShiftN(Reg(r), Reg(p), n + 1) == ShiftN(Reg(Step(r, p)), Reg(p), n)
  {
    hide Step, QuadOf, QuadBits, Clock;
    StepClocks(r, p);
    ClockShifts(QuadOf(r), QuadOf(p));
  }

  lemma EightShifts(r: bv32, p: bv32, n: nat)
    ensures ShiftN(Reg(r), Reg(p), n + 8) == ShiftN(Reg(Eight(r, p)), Reg(p), n)
  {
    hide Step, Reg, ShiftN;
    var r1 := Step(r, p);
    var r2 := Step(r1, p);
    var r3 := Step(r2, p);
    var r4 := Step(r3, p);
    var r5 := Step(r4, p);
    var r6 := Step(r5, p);
    var r7 := Step(r6, p);
    StepShifts(r, p, n + 7);
    StepShifts(r1, p, n + 6);
    StepShifts(r2, p, n + 5);
    StepShifts(r3, p, n + 4);
    StepShifts(r4, p, n + 3);
    StepShifts(r5, p, n + 2);
    StepShifts(r6, p, n + 1);
    StepShifts(r7, p, n);
  }

  // ------------------------------------------------------------ narrower registers

  lemma {:induction false} Padded(r: Bits, p: Bits, k: nat, n: nat)
    requires |r| == |p| > 0
    ensures ShiftN(r + Zeros(k), p + Zeros(k), n) == ShiftN(r, p, n) + Zeros(k)
    decreases n
  {
    if n > 0 {
      ShiftPadded(r, p, Zeros(k));
      hide Shift;
      Padded(Shift(r, p), p, k, n - 1);
    }
  }

  lemma ShiftPadded(r: Bits, p: Bits, z: Bits)
    requires |r| == |p| > 0 && IsZero(z)
    ensures Shift(r + z, p + z) == Shift(r, p) + z
  {
  }

  /** A word of w bits, and zeros behind it. */
  lemma NarrowShows(r: bv32, w: nat)
    requires w <= 32 && Shown(r) < Pow2(w)
    ensures Reg(r) == LowFirst(Shown(r), w) + Zeros(32 - w)
  {
    hide QuadBits, QuadOf, QuadNumber, Pow2;
    QuadShows(QuadOf(r));
    var a, b := LowFirst(Shown(r), 32), LowFirst(Shown(r), w) + Zeros(32 - w);
    forall i | 0 <= i < 32 ensures a[i] == b[i] {
      if i >= w {
        BitsAbove(Shown(r), w, i);
      }
    }
  }

  lemma NarrowClocks(r: bv32, p: bv32, s: bv32, w: nat, n: nat)
    requires 0 < w <= 32 && Shown(r) < Pow2(w) && Shown(p) < Pow2(w) && Shown(s) < Pow2(w)
    requires ShiftN(Reg(r), Reg(p), n) == Reg(s)
    ensures ShiftN(LowFirst(Shown(r), w), LowFirst(Shown(p), w), n) == LowFirst(Shown(s), w)
  {
    hide ShiftN, Reg, LowFirst, Shown;
    NarrowShows(r, w);
    NarrowShows(p, w);
    NarrowShows(s, w);
    Padded(LowFirst(Shown(r), w), LowFirst(Shown(p), w), 32 - w, n);
    var a, b := ShiftN(LowFirst(Shown(r), w), LowFirst(Shown(p), w), n), LowFirst(Shown(s), w);
    assert a == (a + Zeros(32 - w))[..w] && b == (b + Zeros(32 - w))[..w];
  }

  // -------------------------------------------------------------- the residues

  lemma NoShift(r: Bits, p: Bits)
    requires |r| == |p| > 0
    ensures ShiftN(r, p, 0) == r
  {
  }

  lemma X25Clocks()
    ensures Eight(0xFFFF, 0x8408) == 0x00000F87 && Eight(0x00000F87, 0x8408) == 0xF0B8
  {
  }

  lemma X25Words()
    ensures Shown(0xFFFF) == 0xFFFF && Shown(0x8408) == 0x8408 && Shown(0xF0B8) == 0xF0B8
  {
  }

  lemma X25Register()
    ensures ShiftN(LowFirst(0xFFFF, 16), LowFirst(0x8408, 16), 16) == LowFirst(0xF0B8, 16)
  {
    hide ShiftN, Reg, LowFirst, Shown, Eight, Pow2;
    Pow2Widths();
    X25Clocks();
    X25Words();
    EightShifts(0xFFFF, 0x8408, 8);
    EightShifts(0x00000F87, 0x8408, 0);
    NoShift(Reg(0xF0B8), Reg(0x8408));
    NarrowClocks(0xFFFF, 0x8408, 0xF0B8, 16, 16);
  }

  lemma BasicClocks()
    ensures Eight(0xFFFF_FFFF, 0xEDB8_8320) == 0x2DFD1072 && Eight(0x2DFD1072, 0xEDB8_8320) == 0xBE26ED00
    ensures Eight(0xBE26ED00, 0xEDB8_8320) == 0x00BE26ED && Eight(0x00BE26ED, 0xEDB8_8320) == 0xDEBB_20E3
  {
  }

  lemma BasicWords()
    ensures Shown(0xFFFF_FFFF) == 0xFFFF_FFFF && Shown(0xEDB8_8320) == 0xEDB8_8320
    ensures Shown(0xDEBB_20E3) == 0xDEBB_20E3
  {
  }

  lemma BasicRegister()
    ensures ShiftN(LowFirst(0xFFFF_FFFF, 32), LowFirst(0xEDB8_8320, 32), 32) == LowFirst(0xDEBB_20E3, 32)
  {
    hide ShiftN, Reg, LowFirst, Shown, Eight, Pow2;
    Pow2Widths();
    BasicClocks();
    BasicWords();
    EightShifts(0xFFFF_FFFF, 0xEDB8_8320, 24);
    EightShifts(0x2DFD1072, 0xEDB8_8320, 16);
    EightShifts(0xBE26ED00, 0xEDB8_8320, 8);
    EightShifts(0x00BE26ED, 0xEDB8_8320, 0);
    NoShift(Reg(0xDEBB_20E3), Reg(0xEDB8_8320));
    NarrowClocks(0xFFFF_FFFF, 0xEDB8_8320, 0xDEBB_20E3, 32, 32);
  }

  lemma ResidueIs(v: Variant, r: nat)
    requires v.w > 0 && !v.high && r < Pow2(v.w)
    requires ShiftN(LowFirst(v.out, v.w), LowFirst(v.poly, v.w), v.w) == LowFirst(r, v.w)
    ensures Residue(v) == r
  {
    hide ShiftN, LowFirst, Residue;
    WordBitsDetermine(Residue(v), r, v.w, false);
  }

  /** A message followed by its 16-bit frame check sequence, lowest byte first,
      always leaves 0xF0B8 in the register. */
  lemma X25Residue(d: seq<u8>)
    ensures var v := Named16(20).value;
            Register(d + Bytes(v.Checksum(d), 2, false), 0xFFFF, 0x8408, 16, false) == 0xF0B8
  {
    X25Register();
    Pow2Widths();
    hide ShiftN, LowFirst, Register, Bytes, Residue, Pow2, BitXor;
    NamedResidue(16, 20, d);
    ResidueIs(Named16(20).value, 0xF0B8);
  }

  /** And the 32-bit one leaves 0xDEBB20E3. */
  lemma BasicResidue(d: seq<u8>)
    ensures var v := Named32(0).value;
            Register(d + Bytes(v.Checksum(d), 4, false), 0xFFFF_FFFF, 0xEDB8_8320, 32, false) == 0xDEBB_20E3
  {
    BasicRegister();
    Pow2Widths();
    hide ShiftN, LowFirst, Register, Bytes, Residue, Pow2, BitXor;
    NamedResidue(32, 0, d);
    ResidueIs(Named32(0).value, 0xDEBB_20E3);
  }

  // ----------------------------------------------------------- the check values

  /** The characters 1 to 9. */
  const DIGITS: seq<u8> := [0x31, 0x32, 0x33, 0x34, 0x35, 0x36, 0x37, 0x38, 0x39]

  function Byte(r: bv32, p: bv32, b: bv32): bv32 {
    Eight(Plus(r, b), p)
  }

  lemma FeedPadded(r: Bits, p: Bits, z: Bits, b: bool)
    requires |r| == |p| > 0 && IsZero(z)
    ensures Feed(r + z, p + z, b) == Feed(r, p, b) + z
  {
    assert (r + z)[0 := (r + z)[0] != b] == r[0 := r[0] != b] + z;
    ShiftPadded(r[0 := r[0] != b], p, z);
  }

  lemma {:induction false} LfsrPadded(r: Bits, p: Bits, k: nat, m: Bits)
    requires |r| == |p| > 0
    ensures Lfsr(r + Zeros(k), p + Zeros(k), m) == Lfsr(r, p, m) + Zeros(k)
    decreases |m|
  {
    hide Feed;
    if m != [] {
      FeedPadded(r, p, Zeros(k), m[0]);
      LfsrPadded(Feed(r, p, m[0]), p, k, m[1..]);
    }
  }

  lemma NarrowRuns(r: bv32, p: bv32, s: bv32, w: nat, m: Bits)
    requires 0 < w <= 32 && Shown(r) < Pow2(w) && Shown(p) < Pow2(w) && Shown(s) < Pow2(w)
    requires Lfsr(Reg(r), Reg(p), m) == Reg(s)
    ensures Lfsr(LowFirst(Shown(r), w), LowFirst(Shown(p), w), m) == LowFirst(Shown(s), w)
  {
    hide Lfsr, Reg, LowFirst, Shown;
    NarrowShows(r, w);
    NarrowShows(p, w);
    NarrowShows(s, w);
    LfsrPadded(LowFirst(Shown(r), w), LowFirst(Shown(p), w), 32 - w, m);
    var a, b := Lfsr(LowFirst(Shown(r), w), LowFirst(Shown(p), w), m), LowFirst(Shown(s), w);
    assert a == (a + Zeros(32 - w))[..w] && b == (b + Zeros(32 - w))[..w];
  }

  /** One byte of a message enters. */
  lemma ByteEnters(r: bv32, p: bv32, b: bv32, d: seq<u8>)
    requires d != [] && Shown(b) == d[0]
    ensures Lfsr(Reg(r), Reg(p), MessageBits(d, false)) == Lfsr(Reg(Byte(r, p, b)), Reg(p), MessageBits(d[1..], false))
  {
    hide Lfsr, ShiftN, Shown, LowFirst, Plus, Eight, Reg, Pow2, Xor;
    var m, x := ByteBits(d[0], false), Plus(r, b);
    ByteAdded(r, b, d[0]);
    ChunkFeed(Reg(r), Reg(p), m);
    EightShifts(x, p, 0);
    NoShift(Reg(Eight(x, p)), Reg(p));
    LfsrConcat(Reg(r), Reg(p), m, MessageBits(d[1..], false));
  }

  lemma ByteAdded(r: bv32, b: bv32, c: u8)
    requires Shown(b) == c
    ensures Reg(Plus(r, b)) == Xor(Reg(r), ByteBits(c, false) + Zeros(24))
  {
    hide Shown, LowFirst, Plus, QuadOf, QuadBits, Pow2;
    Pow2Widths();
    NarrowShows(b, 8);
    PlusBits(r, b);
  }

  lemma NothingEnters(r: Bits, p: Bits)
    requires |r| == |p| > 0
    ensures Lfsr(r, p, MessageBits([], false)) == r
  {
  }

  lemma Digits()
    ensures Shown(0x31) == 0x31 && Shown(0x32) == 0x32 && Shown(0x33) == 0x33 && Shown(0x34) == 0x34
    ensures Shown(0x35) == 0x35
  {
  }

  lemma MoreDigits()
    ensures Shown(0x36) == 0x36 && Shown(0x37) == 0x37 && Shown(0x38) == 0x38 && Shown(0x39) == 0x39
  {
  }

  /** The registers from one digit to the next. */
  predicate Nine(p: bv32, s: bv32, r1: bv32, r2: bv32, r3: bv32, r4: bv32, r5: bv32, r6: bv32, r7: bv32, r8: bv32,
                 e: bv32) {
    && Byte(s, p, 0x31) == r1 && Byte(r1, p, 0x32) == r2 && Byte(r2, p, 0x33) == r3 && Byte(r3, p, 0x34) == r4
    && Byte(r4, p, 0x35) == r5 && Byte(r5, p, 0x36) == r6 && Byte(r6, p, 0x37) == r7 && Byte(r7, p, 0x38) == r8
    && Byte(r8, p, 0x39) == e
  }

  lemma NineEnter(p: bv32, s: bv32, r1: bv32, r2: bv32, r3: bv32, r4: bv32, r5: bv32, r6: bv32, r7: bv32, r8: bv32,
                  e: bv32)
    requires Nine(p, s, r1, r2, r3, r4, r5, r6, r7, r8, e)
    ensures Lfsr(Reg(s), Reg(p), MessageBits(DIGITS, false)) == Reg(e)
  {
    hide Lfsr, Reg, Shown, Byte, MessageBits;
    Digits();
    MoreDigits();
    ByteEnters(s, p, 0x31, DIGITS);
    ByteEnters(r1, p, 0x32, DIGITS[1..]);
    ByteEnters(r2, p, 0x33, DIGITS[1..][1..]);
    ByteEnters(r3, p, 0x34, DIGITS[1..][1..][1..]);
    assert DIGITS[1..][1..][1..][1..] == DIGITS[4..];
    ByteEnters(r4, p, 0x35, DIGITS[4..]);
    ByteEnters(r5, p, 0x36, DIGITS[4..][1..]);
    ByteEnters(r6, p, 0x37, DIGITS[4..][1..][1..]);
    assert DIGITS[4..][1..][1..][1..] == DIGITS[7..];
    ByteEnters(r7, p, 0x38, DIGITS[7..]);
    ByteEnters(r8, p, 0x39, DIGITS[7..][1..]);
    assert DIGITS[7..][1..][1..] == [];
    NothingEnters(Reg(e), Reg(p));
  }

  /** The register of a reflected algorithm after the digits. */
  lemma Settles(p: bv32, s: bv32, e: bv32, w: nat)
    requires 0 < w <= 32 && Shown(p) < Pow2(w) && Shown(s) < Pow2(w) && Shown(e) < Pow2(w)
    requires Lfsr(Reg(s), Reg(p), MessageBits(DIGITS, false)) == Reg(e)
    ensures Register(DIGITS, Shown(s), Shown(p), w, false) == Shown(e)
  {
    hide Lfsr, Reg, Shown, MessageBits, Register, LowFirst;
    NarrowRuns(s, p, e, w, MessageBits(DIGITS, false));
    WordBitsDetermine(Register(DIGITS, Shown(s), Shown(p), w, false), Shown(e), w, false);
  }

  /** The checksum of the digits by the name. */
  predicate Checks(w: nat, name: u32, c: nat) {
    Named(w, name).Some? && Named(w, name).value.w > 0 && Named(w, name).value.Checksum(DIGITS) == c
  }

  lemma {:induction false} Complement(x: nat, n: nat)
    requires x < Pow2(n)
    ensures BitXor(x, Pow2(n) - 1) == Pow2(n) - 1 - x
    decreases n
  {
    if n > 0 {
      Complement(x / 2, n - 1);
      assert (Pow2(n) - 1) / 2 == Pow2(n - 1) - 1;
    }
  }

  lemma {:induction false} NoMask(x: nat)
    ensures BitXor(x, 0) == x
  {
    if x > 0 {
      NoMask(x / 2);
    }
  }

  lemma BasicValues()
    ensures Nine(0xEDB8_8320, 0xFFFF_FFFF, 0x7C23_1048, 0xB0AC_BB32, 0x77B7_9C2D, 0x641C_1F5C, 0x340A_C5E3,
                 0xF68D_2C9E, 0xAFFC_9660, 0x651F_2550, 0x340B_C6D9)
  {
  }

  lemma BasicNumbers()
    ensures Shown(0xEDB8_8320) == 0xEDB8_8320 && Shown(0xFFFF_FFFF) == 0xFFFF_FFFF
  {
  }

  lemma BasicEnd()
    ensures Shown(0x340B_C6D9) == 0x340B_C6D9
  {
  }

  lemma BasicChecks()
    ensures Checks(32, 0, 0xCBF4_3926) // CRC32_BASIC
    ensures Checks(32, 7, 0x340B_C6D9) // CRC32_JAMCRC
  {
    hide Lfsr, Reg, Shown, MessageBits, Register, BitXor, Nine, Pow2;
    Pow2Widths();
    BasicValues();
    BasicNumbers();
    BasicEnd();
    NineEnter(0xEDB8_8320, 0xFFFF_FFFF, 0x7C23_1048, 0xB0AC_BB32, 0x77B7_9C2D, 0x641C_1F5C, 0x340A_C5E3,
              0xF68D_2C9E, 0xAFFC_9660, 0x651F_2550, 0x340B_C6D9);
    Settles(0xEDB8_8320, 0xFFFF_FFFF, 0x340B_C6D9, 32);
    Complement(0x340B_C6D9, 32);
    NoMask(0x340B_C6D9);
  }

  lemma IscsiValues()
    ensures Nine(0x82F6_3B78, 0xFFFF_FFFF, 0x6F0A_661C, 0x8CAA_3B9F, 0xEF84_D04D, 0x09C5_0B11, 0xE72E_DCCA,
                 0xBECA_8E79, 0xEDBD_6815, 0x9F78_7F65, 0x1CF9_6D7C)
  {
  }

  lemma IscsiNumbers()
    ensures Shown(0x82F6_3B78) == 0x82F6_3B78 && Shown(0xFFFF_FFFF) == 0xFFFF_FFFF
  {
  }

  lemma IscsiEnd()
    ensures Shown(0x1CF9_6D7C) == 0x1CF9_6D7C
  {
  }

  lemma IscsiChecks()
    ensures Checks(32, 2, 0xE306_9283) // CRC32_C
  {
    hide Lfsr, Reg, Shown, MessageBits, Register, BitXor, Nine, Pow2;
    Pow2Widths();
    IscsiValues();
    IscsiNumbers();
    IscsiEnd();
    NineEnter(0x82F6_3B78, 0xFFFF_FFFF, 0x6F0A_661C, 0x8CAA_3B9F, 0xEF84_D04D, 0x09C5_0B11, 0xE72E_DCCA,
              0xBECA_8E79, 0xEDBD_6815, 0x9F78_7F65, 0x1CF9_6D7C);
    Settles(0x82F6_3B78, 0xFFFF_FFFF, 0x1CF9_6D7C, 32);
    Complement(0x1CF9_6D7C, 32);
  }

  lemma Checksum32DValues()
    ensures Nine(0xD419_CC15, 0xFFFF_FFFF, 0x64E2_E204, 0x3632_F6D7, 0x4E5E_CCDA, 0xEF40_1A2D, 0xB3BB_F6C4,
                 0xF39E_08F5, 0x3D44_D89C, 0xF040_90EB, 0x78CE_AA89)
  {
  }

  lemma Checksum32DNumbers()
    ensures Shown(0xD419_CC15) == 0xD419_CC15 && Shown(0xFFFF_FFFF) == 0xFFFF_FFFF
  {
  }

  lemma Checksum32DEnd()
    ensures Shown(0x78CE_AA89) == 0x78CE_AA89
  {
  }

  lemma Checksum32DChecks()
    ensures Checks(32, 3, 0x8731_5576) // CRC32_D
  {
    hide Lfsr, Reg, Shown, MessageBits, Register, BitXor, Nine, Pow2;
    Pow2Widths();
    Checksum32DValues();
    Checksum32DNumbers();
    Checksum32DEnd();
    NineEnter(0xD419_CC15, 0xFFFF_FFFF, 0x64E2_E204, 0x3632_F6D7, 0x4E5E_CCDA, 0xEF40_1A2D, 0xB3BB_F6C4,
              0xF39E_08F5, 0x3D44_D89C, 0xF040_90EB, 0x78CE_AA89);
    Settles(0xD419_CC15, 0xFFFF_FFFF, 0x78CE_AA89, 32);
    Complement(0x78CE_AA89, 32);
  }

  lemma X25Values()
    ensures Nine(0x8408, 0xFFFF, 0x2F8D, 0x4D53, 0x634B, 0x8B13, 0x44BF,
                 0x198D, 0x1AC8, 0xF795, 0x6F91)
  {
  }

  lemma X25Numbers()
    ensures Shown(0x8408) == 0x8408 && Shown(0xFFFF) == 0xFFFF
  {
  }

  lemma X25End()
    ensures Shown(0x6F91) == 0x6F91
  {
  }

  lemma X25Checks()
    ensures Checks(16, 11, 0x6F91) // CRC16_MCRF4XX
    ensures Checks(16, 20, 0x906E) // CRC16_X_25
  {
    hide Lfsr, Reg, Shown, MessageBits, Register, BitXor, Nine, Pow2;
    Pow2Widths();
    X25Values();
    X25Numbers();
    X25End();
    NineEnter(0x8408, 0xFFFF, 0x2F8D, 0x4D53, 0x634B, 0x8B13, 0x44BF,
              0x198D, 0x1AC8, 0xF795, 0x6F91);
    Settles(0x8408, 0xFFFF, 0x6F91, 16);
    Complement(0x6F91, 16);
    NoMask(0x6F91);
  }

  lemma KermitValues()
    ensures Nine(0x8408, 0x0000, 0x200A, 0xBDEB, 0x5A78, 0x8832, 0x7437,
                 0x11FD, 0x6947, 0x8B19, 0x2189)
  {
  }

  lemma KermitNumbers()
    ensures Shown(0x8408) == 0x8408 && Shown(0x0000) == 0x0000
  {
  }

  lemma KermitEnd()
    ensures Shown(0x2189) == 0x2189
  {
  }

  lemma KermitChecks()
    ensures Checks(16, 18, 0x2189) // CRC16_KERMIT
  {
    hide Lfsr, Reg, Shown, MessageBits, Register, BitXor, Nine, Pow2;
    Pow2Widths();
    KermitValues();
    KermitNumbers();
    KermitEnd();
    NineEnter(0x8408, 0x0000, 0x200A, 0xBDEB, 0x5A78, 0x8832, 0x7437,
              0x11FD, 0x6947, 0x8B19, 0x2189);
    Settles(0x8408, 0x0000, 0x2189, 16);
    NoMask(0x2189);
  }

  lemma ArcValues()
    ensures Nine(0xA001, 0x0000, 0xD4C1, 0x4594, 0xBA04, 0x14BA, 0xA455,
                 0x29E4, 0x9D68, 0x3C9D, 0xBB3D)
  {
  }

  lemma ArcNumbers()
    ensures Shown(0xA001) == 0xA001 && Shown(0x0000) == 0x0000
  {
  }

  lemma ArcEnd()
    ensures Shown(0xBB3D) == 0xBB3D
  {
  }

  lemma ArcChecks()
    ensures Checks(16, 0, 0xBB3D) // CRC16_ARC
    ensures Checks(16, 10, 0x44C2) // CRC16_MAXIM
  {
    hide Lfsr, Reg, Shown, MessageBits, Register, BitXor, Nine, Pow2;
    Pow2Widths();
    ArcValues();
    ArcNumbers();
    ArcEnd();
    NineEnter(0xA001, 0x0000, 0xD4C1, 0x4594, 0xBA04, 0x14BA, 0xA455,
              0x29E4, 0x9D68, 0x3C9D, 0xBB3D);
    Settles(0xA001, 0x0000, 0xBB3D, 16);
    Complement(0xBB3D, 16);
    NoMask(0xBB3D);
  }

  lemma ModbusValues()
    ensures Nine(0xA001, 0xFFFF, 0x947E, 0xF595, 0x7A75, 0x30BA, 0xA471,
                 0x32E4, 0x9D73, 0x37DD, 0x4B37)
  {
  }

  lemma ModbusNumbers()
    ensures Shown(0xA001) == 0xA001 && Shown(0xFFFF) == 0xFFFF
  {
  }

  lemma ModbusEnd()
    ensures Shown(0x4B37) == 0x4B37
  {
  }

  lemma ModbusChecks()
    ensures Checks(16, 16, 0xB4C8) // CRC16_USB
    ensures Checks(16, 19, 0x4B37) // CRC16_MODBUS
  {
    hide Lfsr, Reg, Shown, MessageBits, Register, BitXor, Nine, Pow2;
    Pow2Widths();
    ModbusValues();
    ModbusNumbers();
    ModbusEnd();
    NineEnter(0xA001, 0xFFFF, 0x947E, 0xF595, 0x7A75, 0x30BA, 0xA471,
              0x32E4, 0x9D73, 0x37DD, 0x4B37);
    Settles(0xA001, 0xFFFF, 0x4B37, 16);
    Complement(0x4B37, 16);
    NoMask(0x4B37);
  }

  lemma DnpValues()
    ensures Nine(0xA6BC, 0x0000, 0xAD9A, 0x7037, 0xD908, 0xBDEC, 0x8EE3,
                 0xA821, 0x0707, 0xE7D0, 0x157D)
  {
  }

  lemma DnpNumbers()
    ensures Shown(0xA6BC) == 0xA6BC && Shown(0x0000) == 0x0000
  {
  }

  lemma DnpEnd()
    ensures Shown(0x157D) == 0x157D
  {
  }

  lemma DnpChecks()
    ensures Checks(16, 7, 0xEA82) // CRC16_DNP
  {
    hide Lfsr, Reg, Shown, MessageBits, Register, BitXor, Nine, Pow2;
    Pow2Widths();
    DnpValues();
    DnpNumbers();
    DnpEnd();
    NineEnter(0xA6BC, 0x0000, 0xAD9A, 0x7037, 0xD908, 0xBDEC, 0x8EE3,
              0xA821, 0x0707, 0xE7D0, 0x157D);
    Settles(0xA6BC, 0x0000, 0x157D, 16);
    Complement(0x157D, 16);
  }

  lemma RielloValues()
    ensures Nine(0x8408, 0x554D, 0xB9BE, 0x4EDD, 0x0E3E, 0xAF54, 0x7220,
                 0x75C5, 0xD4E8, 0xD659, 0x63D0)
  {
  }

  lemma RielloNumbers()
    ensures Shown(0x8408) == 0x8408 && Shown(0x554D) == 0x554D
  {
  }

  lemma RielloEnd()
    ensures Shown(0x63D0) == 0x63D0
  {
  }

  lemma RielloChecks()
    ensures Checks(16, 12, 0x63D0) // CRC16_RIELLO
  {
    hide Lfsr, Reg, Shown, MessageBits, Register, BitXor, Nine, Pow2;
    Pow2Widths();
    RielloValues();
    RielloNumbers();
    RielloEnd();
    NineEnter(0x8408, 0x554D, 0xB9BE, 0x4EDD, 0x0E3E, 0xAF54, 0x7220,
              0x75C5, 0xD4E8, 0xD659, 0x63D0);
    Settles(0x8408, 0x554D, 0x63D0, 16);
    NoMask(0x63D0);
  }

  lemma TmsValues()
    ensures Nine(0x8408, 0x3791, 0xA53D, 0xF852, 0x7277, 0x70ED, 0x5AB5,
                 0xB6C9, 0x1E47, 0x8B6E, 0x26B1)
  {
  }

  lemma TmsNumbers()
    ensures Shown(0x8408) == 0x8408 && Shown(0x3791) == 0x3791
  {
  }

  lemma TmsEnd()
    ensures Shown(0x26B1) == 0x26B1
  {
  }

  lemma TmsChecks()
    ensures Checks(16, 15, 0x26B1) // CRC16_TMS37157
  {
    hide Lfsr, Reg, Shown, MessageBits, Register, BitXor, Nine, Pow2;
    Pow2Widths();
    TmsValues();
    TmsNumbers();
    TmsEnd();
    NineEnter(0x8408, 0x3791, 0xA53D, 0xF852, 0x7277, 0x70ED, 0x5AB5,
              0xB6C9, 0x1E47, 0x8B6E, 0x26B1);
    Settles(0x8408, 0x3791, 0x26B1, 16);
    NoMask(0x26B1);
  }

  lemma AValues()
    ensures Nine(0x8408, 0x6363, 0x71F4, 0xA34B, 0xFF6C, 0xDE32, 0x7461,
                 0x264E, 0xEE60, 0xDE23, 0xBF05)
  {
  }

  lemma ANumbers()
    ensures Shown(0x8408) == 0x8408 && Shown(0x6363) == 0x6363
  {
  }

  lemma AEnd()
    ensures Shown(0xBF05) == 0xBF05
  {
  }

  lemma AChecks()
    ensures Checks(16, 17, 0xBF05) // CRC16_A
  {
    hide Lfsr, Reg, Shown, MessageBits, Register, BitXor, Nine, Pow2;
    Pow2Widths();
    AValues();
    ANumbers();
    AEnd();
    NineEnter(0x8408, 0x6363, 0x71F4, 0xA34B, 0xFF6C, 0xDE32, 0x7461,
              0x264E, 0xEE60, 0xDE23, 0xBF05);
    Settles(0x8408, 0x6363, 0xBF05, 16);
    NoMask(0xBF05);
  }

  lemma DarcValues()
    ensures Nine(0x9C, 0x00, 0xDA, 0x2E, 0xD7, 0x63, 0xD4,
                 0x11, 0x32, 0x3F, 0x15)
  {
  }

  lemma DarcNumbers()
    ensures Shown(0x9C) == 0x9C && Shown(0x00) == 0x00
  {
  }

  lemma DarcEnd()
    ensures Shown(0x15) == 0x15
  {
  }

  lemma DarcChecks()
    ensures Checks(8, 2, 0x15) // CRC8_DARC
  {
    hide Lfsr, Reg, Shown, MessageBits, Register, BitXor, Nine, Pow2;
    Pow2Widths();
    DarcValues();
    DarcNumbers();
    DarcEnd();
    NineEnter(0x9C, 0x00, 0xDA, 0x2E, 0xD7, 0x63, 0xD4,
              0x11, 0x32, 0x3F, 0x15);
    Settles(0x9C, 0x00, 0x15, 8);
    NoMask(0x15);
  }
}
