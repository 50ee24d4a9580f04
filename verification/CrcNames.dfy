/** The 36 named algorithms of esma_crc8, esma_crc16 and esma_crc32. */
module CrcNames {
  import opened Wrappers
  import opened Words
  import opened CrcLoops

  /** One branch of a switch: the loop of width w runs from init with poly, highest
      bit first (`high`) or reflected, and the result is XORed with out. */
  datatype Variant = Variant(w: nat, init: nat, poly: nat, high: bool, out: nat) {
    predicate Fits() {
      && w in {8, 16, 32}
      && init < Pow2(w) && poly < Pow2(w) && out < Pow2(w)
    }

    /** Constant term 1: the bit that a clock of the register puts in last. */
    predicate Invertible() {
      w > 0 && WordBits(poly, w, high)[w - 1]
    }

    function Checksum(d: seq<u8>): (crc: nat)
      requires w > 0
    {
      BitXor(Register(d, init, poly, w, high), out)
    }
  }

  /** The switch of esma_crc8: start value, polynomial, bit order, final XOR. */
  function Named8(name: u32): (v: Option<Variant>)
    ensures v.Some? ==> v.value.w == 8 && v.value.init < 0x100 && v.value.poly < 0x100 && v.value.out < 0x100
    ensures v.Some? ==> if v.value.high then Odd(v.value.poly) else v.value.poly >= 0x80
  {
    match name
    case 0 => Some(Variant(8, 0x00, 0x07, true, 0x00)) // CRC8_BASIC
    case 1 => Some(Variant(8, 0xFF, 0x9B, true, 0x00)) // CRC8_CDMA2000
    case 2 => Some(Variant(8, 0x00, 0x9C, false, 0x00)) // CRC8_DARC
    case 3 => Some(Variant(8, 0x00, 0xBD, false, 0x00)) // CRC8_WCDMA
    case 4 => Some(Variant(8, 0xFF, 0x8C, false, 0x00)) // CRC8_MAXIM
    case _ => None
  }

  /** The switch of esma_crc16: start value, polynomial, bit order, final XOR. */
  function Named16(name: u32): (v: Option<Variant>)
    ensures v.Some? ==> v.value.w == 16 && v.value.init < 0x1_0000 && v.value.poly < 0x1_0000 && v.value.out < 0x1_0000
    ensures v.Some? ==> if v.value.high then Odd(v.value.poly) else v.value.poly >= 0x8000
  {
    match name
    case 0 => Some(Variant(16, 0x0000, 0xA001, false, 0x0000)) // CRC16_ARC
    case 1 => Some(Variant(16, 0x1D0F, 0x1021, true, 0x0000)) // CRC16_AUG_CCITT
    case 2 => Some(Variant(16, 0x0000, 0x8005, true, 0x0000)) // CRC16_BUYPASS
    case 3 => Some(Variant(16, 0xFFFF, 0xC867, true, 0x0000)) // CRC16_CDMA2000
    case 4 => Some(Variant(16, 0x800D, 0x8005, true, 0x0000)) // CRC16_DDS_110
    case 5 => Some(Variant(16, 0x0000, 0x0589, true, 0x0001)) // CRC16_DECT_R
    case 6 => Some(Variant(16, 0x0000, 0x0589, true, 0x0000)) // CRC16_DECT_X
    case 7 => Some(Variant(16, 0x0000, 0xA6BC, false, 0xFFFF)) // CRC16_DNP
    case 8 => Some(Variant(16, 0x0000, 0x3D65, true, 0xFFFF)) // CRC16_EN_13757
    case 9 => Some(Variant(16, 0xFFFF, 0x1021, true, 0xFFFF)) // CRC16_GENIBUS
    case 10 => Some(Variant(16, 0x0000, 0xA001, false, 0xFFFF)) // CRC16_MAXIM
    case 11 => Some(Variant(16, 0xFFFF, 0x8408, false, 0x0000)) // CRC16_MCRF4XX
    case 12 => Some(Variant(16, 0x554D, 0x8408, false, 0x0000)) // CRC16_RIELLO
    case 13 => Some(Variant(16, 0x0000, 0x8BB7, true, 0x0000)) // CRC16_T10_DIF
    case 14 => Some(Variant(16, 0x0000, 0xA097, true, 0x0000)) // CRC16_TELEDISK
    case 15 => Some(Variant(16, 0x3791, 0x8408, false, 0x0000)) // CRC16_TMS37157
    case 16 => Some(Variant(16, 0xFFFF, 0xA001, false, 0xFFFF)) // CRC16_USB
    case 17 => Some(Variant(16, 0x6363, 0x8408, false, 0x0000)) // CRC16_A
    case 18 => Some(Variant(16, 0x0000, 0x8408, false, 0x0000)) // CRC16_KERMIT
    case 19 => Some(Variant(16, 0xFFFF, 0xA001, false, 0x0000)) // CRC16_MODBUS
    case 20 => Some(Variant(16, 0xFFFF, 0x8408, false, 0xFFFF)) // CRC16_X_25
    case 21 => Some(Variant(16, 0x0000, 0x1021, true, 0x0000)) // CRC16_XMODEM
    case _ => None
  }

  /** The switch of esma_crc32: start value, polynomial, bit order, final XOR. */
  function Named32(name: u32): (v: Option<Variant>)
    ensures v.Some? ==> && v.value.w == 32 && v.value.init < 0x1_0000_0000
                        && v.value.poly < 0x1_0000_0000 && v.value.out < 0x1_0000_0000
    ensures v.Some? ==> if v.value.high then Odd(v.value.poly) else v.value.poly >= 0x8000_0000
  {
    match name
    case 0 => Some(Variant(32, 0xFFFF_FFFF, 0xEDB8_8320, false, 0xFFFF_FFFF)) // CRC32_BASIC
    case 1 => Some(Variant(32, 0xFFFF_FFFF, 0x04C1_1DB7, true, 0xFFFF_FFFF)) // CRC32_BZIP2
    case 2 => Some(Variant(32, 0xFFFF_FFFF, 0x82F6_3B78, false, 0xFFFF_FFFF)) // CRC32_C
    case 3 => Some(Variant(32, 0xFFFF_FFFF, 0xD419_CC15, false, 0xFFFF_FFFF)) // CRC32_D
    case 4 => Some(Variant(32, 0xFFFF_FFFF, 0x04C1_1DB7, true, 0x0000_0000)) // CRC32_MPEG2
    case 5 => Some(Variant(32, 0x0000_0000, 0x04C1_1DB7, true, 0xFFFF_FFFF)) // CRC32_POSIX
    case 6 => Some(Variant(32, 0x0000_0000, 0x8141_41AB, true, 0x0000_0000)) // CRC32_Q
    case 7 => Some(Variant(32, 0xFFFF_FFFF, 0xEDB8_8320, false, 0x0000_0000)) // CRC32_JAMCRC
    case 8 => Some(Variant(32, 0x0000_0000, 0x0000_00AF, true, 0x0000_0000)) // CRC32_XFER
    case _ => None
  }

  function Named(w: nat, name: u32): Option<Variant> {
    if w == 8 then Named8(name) else if w == 16 then Named16(name)
    else if w == 32 then Named32(name) else None
  }

  /** Every generator in use has constant term 1. */
  lemma NamedInvertible(w: nat, name: u32)
    requires Named(w, name).Some?
    ensures Named(w, name).value.Fits() && Named(w, name).value.w == w
    ensures Named(w, name).value.Invertible()
  {
    Pow2Widths();
    hide Named8, Named16, Named32, Pow2;
    var v := Named(w, name).value;
    TopBit(v.poly, w - 1);
    assert WordBits(v.poly, w, v.high)[w - 1] == Bit(v.poly, if v.high then 0 else w - 1);
  }

  /** esma_crc8: an unknown name is an error and leaves the result alone. */
  method Crc8(d: seq<u8>, prev: u8, name: u32) returns (err: bool, crc: u8)
    ensures err <==> Named8(name).None?
    ensures crc == if err then prev else Named8(name).value.Checksum(d)
  {
    Pow2Widths();
    hide Named8, Register, BitXor, Pow2;
    match Named8(name) {
      case None =>
        err, crc := true, prev;
      case Some(v) =>
        err := false;
        if v.high {
          crc := Crc8FalseFalse(d, v.init, v.poly);
        } else {
          crc := Crc8TrueTrue(d, v.init, v.poly);
        }
        XorFits(crc, v.out, 8);
        crc := BitXor(crc, v.out);
    }
  }

  /** esma_crc16: an unknown name is an error and leaves the result alone. */
  method Crc16(d: seq<u8>, prev: u16, name: u32) returns (err: bool, crc: u16)
    ensures err <==> Named16(name).None?
    ensures crc == if err then prev else Named16(name).value.Checksum(d)
  {
    Pow2Widths();
    hide Named16, Register, BitXor, Pow2;
    match Named16(name) {
      case None =>
        err, crc := true, prev;
      case Some(v) =>
        err := false;
        if v.high {
          crc := Crc16FalseFalse(d, v.init, v.poly);
        } else {
          crc := Crc16TrueTrue(d, v.init, v.poly);
        }
        XorFits(crc, v.out, 16);
        crc := BitXor(crc, v.out);
    }
  }

  /** esma_crc32: an unknown name is an error and leaves the result alone. */
  method Crc32(d: seq<u8>, prev: u32, name: u32) returns (err: bool, crc: u32)
    ensures err <==> Named32(name).None?
    ensures crc == if err then prev else Named32(name).value.Checksum(d)
  {
    Pow2Widths();
    hide Named32, Register, BitXor, Pow2;
    match Named32(name) {
      case None =>
        err, crc := true, prev;
      case Some(v) =>
        err := false;
        if v.high {
          crc := Crc32FalseFalse(d, v.init, v.poly);
        } else {
          crc := Crc32TrueTrue(d, v.init, v.poly);
        }
        XorFits(crc, v.out, 32);
        crc := BitXor(crc, v.out);
    }
  }
}
