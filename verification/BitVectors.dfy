/** Words as bit vectors, with which the solver computes: the bits and the number of a
    bit vector, and what the operators do to them. */
module BitVectors {
  import opened Gf2
  import opened Words
  import opened CrcLoops
  import opened CrcResidue

  /** Eight bits of a register, the one that leaves first first. */
  datatype Octet = Octet(a: bool, b: bool, c: bool, d: bool, e: bool, f: bool, g: bool, h: bool)

  /** Four octets; a register of 16 bits leaves the last two empty. */
  datatype Quad = Quad(k: Octet, l: Octet, m: Octet, n: Octet)

  function OctetBits(o: Octet): (s: Bits)
    ensures |s| == 8
    ensures s[0] == o.a && s[1] == o.b && s[2] == o.c && s[3] == o.d
    ensures s[4] == o.e && s[5] == o.f && s[6] == o.g && s[7] == o.h
  {
    [o.a, o.b, o.c, o.d, o.e, o.f, o.g, o.h]
  }

  function QuadBits(q: Quad): (s: Bits)
    ensures |s| == 32
  {
    OctetBits(q.k) + OctetBits(q.l) + OctetBits(q.m) + OctetBits(q.n)
  }

  /** An octet after one clock: `last` moves in, and p is subtracted if x. */
  function Moved(o: Octet, last: bool, p: Octet, x: bool): Octet {
    Octet(o.b != (x && p.a), o.c != (x && p.b), o.d != (x && p.c), o.e != (x && p.d),
          o.f != (x && p.e), o.g != (x && p.f), o.h != (x && p.g), last != (x && p.h))
  }

  function Clock(q: Quad, p: Quad): Quad {
    var x := q.k.a;
    Quad(Moved(q.k, q.l.a, p.k, x), Moved(q.l, q.m.a, p.l, x), Moved(q.m, q.n.a, p.m, x), Moved(q.n, false, p.n, x))
  }

  lemma MovedBits(o: Octet, last: bool, p: Octet, x: bool)
    ensures var t := OctetBits(o)[1..] + [last];
            OctetBits(Moved(o, last, p, x)) == if x then Xor(t, OctetBits(p)) else t
  {
    Slid(o, last);
    var u := Octet(o.b, o.c, o.d, o.e, o.f, o.g, o.h, last);
    if x {
      Subtracted(u, p);
    } else {
      assert Moved(o, last, p, x) == u;
    }
    hide OctetBits, Xor;
  }

  lemma Slid(o: Octet, last: bool)
    ensures OctetBits(o)[1..] + [last] == OctetBits(Octet(o.b, o.c, o.d, o.e, o.f, o.g, o.h, last))
  {
    hide OctetBits;
    EightEqual(OctetBits(o)[1..] + [last], OctetBits(Octet(o.b, o.c, o.d, o.e, o.f, o.g, o.h, last)));
  }

  lemma Subtracted(u: Octet, p: Octet)
    ensures Xor(OctetBits(u), OctetBits(p)) ==
            OctetBits(Octet(u.a != p.a, u.b != p.b, u.c != p.c, u.d != p.d,
                            u.e != p.e, u.f != p.f, u.g != p.g, u.h != p.h))
  {
    hide OctetBits, Xor;
    EightEqual(Xor(OctetBits(u), OctetBits(p)),
               OctetBits(Octet(u.a != p.a, u.b != p.b, u.c != p.c, u.d != p.d,
                               u.e != p.e, u.f != p.f, u.g != p.g, u.h != p.h)));
  }

  lemma EightEqual(u: Bits, x: Bits)
    requires |u| == |x| == 8
    requires u[0] == x[0] && u[1] == x[1] && u[2] == x[2] && u[3] == x[3]
    requires u[4] == x[4] && u[5] == x[5] && u[6] == x[6] && u[7] == x[7]
    ensures u == x
  {
  }

  lemma JoinMoved(s: Bits, t: Bits, u: Bits, v: Bits)
    requires |s| == |t| == |u| == |v| == 8
    ensures (s + t + u + v)[1..] + [false] ==
            (s[1..] + [t[0]]) + (t[1..] + [u[0]]) + (u[1..] + [v[0]]) + (v[1..] + [false])
  {
  }

  lemma JoinXor(s: Bits, t: Bits, s': Bits, t': Bits)
    requires |s| == |s'| && |t| == |t'|
    ensures Xor(s + t, s' + t') == Xor(s, s') + Xor(t, t')
  {
  }

  lemma ClockShifts(q: Quad, p: Quad)
    ensures QuadBits(Clock(q, p)) == Shift(QuadBits(q), QuadBits(p))
  {
    var x := q.k.a;
    MovedBits(q.k, q.l.a, p.k, x);
    MovedBits(q.l, q.m.a, p.l, x);
    MovedBits(q.m, q.n.a, p.m, x);
    MovedBits(q.n, false, p.n, x);
    var s, t, u, v := OctetBits(q.k), OctetBits(q.l), OctetBits(q.m), OctetBits(q.n);
    JoinMoved(s, t, u, v);
    hide OctetBits, Moved, Xor;
    if x {
      JoinFour(s[1..] + [t[0]], t[1..] + [u[0]], u[1..] + [v[0]], v[1..] + [false],
               OctetBits(p.k), OctetBits(p.l), OctetBits(p.m), OctetBits(p.n));
    }
  }

  lemma JoinFour(s: Bits, t: Bits, u: Bits, v: Bits, s': Bits, t': Bits, u': Bits, v': Bits)
    requires |s| == |s'| && |t| == |t'| && |u| == |u'| && |v| == |v'|
    ensures Xor(s + t + u + v, s' + t' + u' + v') == Xor(s, s') + Xor(t, t') + Xor(u, u') + Xor(v, v')
  {
    JoinXor(s, t, s', t');
    JoinXor(s + t, u, s' + t', u');
    JoinXor(s + t + u, v, s' + t' + u', v');
  }

  // ----------------------------------------------------------- octets as numbers

  function Nibble(a: bool, b: bool, c: bool, d: bool): (x: nat)
    ensures x < 16
  {
    (if a then 1 else 0) + (if b then 2 else 0) + (if c then 4 else 0) + if d then 8 else 0
  }

  function OctetNumber(o: Octet): (x: nat)
    ensures x < 256
  {
    Nibble(o.a, o.b, o.c, o.d) + 16 * Nibble(o.e, o.f, o.g, o.h)
  }

  function QuadNumber(q: Quad): nat {
    OctetNumber(q.k) + 0x100 * OctetNumber(q.l) + 0x1_0000 * OctetNumber(q.m) + 0x100_0000 * OctetNumber(q.n)
  }

  lemma OctetShows(o: Octet)
    ensures LowFirst(OctetNumber(o), 8) == OctetBits(o)
    ensures OctetNumber(o) < 256
  {
    var b := OctetBits(o);
    Value8(b, o);
    hide OctetBits, OctetNumber;
  }

  lemma Value8(b: Bits, o: Octet)
    requires b == OctetBits(o)
    ensures Value(b) == OctetNumber(o) < 256
  {
    var b4 := b[4..];
    Value4(b);
    Value4(b4);
    assert b4[0] == o.e && b4[1] == o.f && b4[2] == o.g && b4[3] == o.h;
    NoValue(b4[4..]);
    hide Value, OctetBits, Nibble;
  }

  lemma NoValue(b: Bits)
    requires |b| == 0
    ensures Value(b) == 0
  {
  }

  lemma Value4(b: Bits)
    requires |b| >= 4
    ensures Value(b) == Nibble(b[0], b[1], b[2], b[3]) + 16 * Value(b[4..])
  {
    hide Value;
    ValueStep(b);
    ValueStep(b[1..]);
    ValueStep(b[2..]);
    ValueStep(b[3..]);
    assert b[1..][1..] == b[2..] && b[2..][1..] == b[3..] && b[3..][1..] == b[4..];
  }

  lemma ValueStep(b: Bits)
    requires b != []
    ensures Value(b) == (if b[0] then 1 else 0) + 2 * Value(b[1..])
    ensures |b| == 1 ==> Value(b[1..]) == 0
  {
  }

  lemma Prepended(x: nat, y: nat, n: nat)
    requires x < 256
    ensures LowFirst(x + 256 * y, 8 + n) == LowFirst(x, 8) + LowFirst(y, n)
  {
    var z := x + 256 * y;
    forall i: nat ensures (i < 8 ==> Bit(x, i) == Bit(z, i)) && Bit(y, i) == Bit(z, i + 8) {
      ByteSplit(z, i);
      assert z % 256 == x && z / 256 == y;
    }
    hide Bit;
  }

  lemma QuadShows(q: Quad)
    ensures LowFirst(QuadNumber(q), 32) == QuadBits(q)
  {
    hide OctetNumber;
    OctetShows(q.k);
    OctetShows(q.l);
    OctetShows(q.m);
    OctetShows(q.n);
    FourBytes(OctetNumber(q.k), OctetNumber(q.l), OctetNumber(q.m), OctetNumber(q.n));
  }

  lemma FourBytes(k: nat, l: nat, m: nat, n: nat)
    requires k < 256 && l < 256 && m < 256
    ensures LowFirst(k + 0x100 * l + 0x1_0000 * m + 0x100_0000 * n, 32) ==
            LowFirst(k, 8) + LowFirst(l, 8) + LowFirst(m, 8) + LowFirst(n, 8)
  {
    hide LowFirst;
    Prepended(m, n, 8);
    Prepended(l, m + 256 * n, 16);
    Prepended(k, l + 256 * (m + 256 * n), 24);
    assert k + 256 * (l + 256 * (m + 256 * n)) == k + 0x100 * l + 0x1_0000 * m + 0x100_0000 * n;
    var a, b, c, d := LowFirst(k, 8), LowFirst(l, 8), LowFirst(m, 8), LowFirst(n, 8);
    assert a + (b + (c + d)) == a + b + c + d;
  }

  // ---------------------------------------------------------------- bit vectors

  predicate Has(r: bv32, m: bv32) {
    r & m != 0
  }

  function Plus(x: bv32, y: bv32): bv32 { x ^ y }

  function Down1(x: bv32): bv32 { x >> 1 }

  function Down8(x: bv32): bv32 { x >> 8 }

  function Down16(x: bv32): bv32 { x >> 16 }

  function Down24(x: bv32): bv32 { x >> 24 }

  function OctetOf(r: bv32): Octet {
    Octet(Has(r, 0x01), Has(r, 0x02), Has(r, 0x04), Has(r, 0x08),
          Has(r, 0x10), Has(r, 0x20), Has(r, 0x40), Has(r, 0x80))
  }

  function QuadOf(r: bv32): Quad {
    Quad(OctetOf(r), OctetOf(Down8(r)), OctetOf(Down16(r)), OctetOf(Down24(r)))
  }

  /** The number that a bit vector shows. */
  function Shown(r: bv32): (x: nat) {
    QuadNumber(QuadOf(r))
  }

  lemma OneMask(x: bv32, y: bv32, m: bv32)
    requires m == 0x01 || m == 0x02 || m == 0x04 || m == 0x08 || m == 0x10 || m == 0x20 || m == 0x40 || m == 0x80
    ensures (x ^ y) & m != 0 <==> (x & m != 0) != (y & m != 0)
  {
  }

  lemma OneBit(x: bv32, y: bv32, m: bv32)
    requires m == 0x01 || m == 0x02 || m == 0x04 || m == 0x08 || m == 0x10 || m == 0x20 || m == 0x40 || m == 0x80
    ensures Has(Plus(x, y), m) <==> Has(x, m) != Has(y, m)
  {
    OneMask(x, y, m);
  }

  function Sum(o: Octet, p: Octet): Octet {
    Octet(o.a != p.a, o.b != p.b, o.c != p.c, o.d != p.d, o.e != p.e, o.f != p.f, o.g != p.g, o.h != p.h)
  }

  lemma OctetPlus(x: bv32, y: bv32)
    ensures OctetOf(Plus(x, y)) == Sum(OctetOf(x), OctetOf(y))
  {
    hide Has, Plus;
    OneBit(x, y, 0x01);
    OneBit(x, y, 0x02);
    OneBit(x, y, 0x04);
    OneBit(x, y, 0x08);
    OneBit(x, y, 0x10);
    OneBit(x, y, 0x20);
    OneBit(x, y, 0x40);
    OneBit(x, y, 0x80);
  }

  lemma OctetDown(r: bv32)
    ensures var o, n := OctetOf(r), OctetOf(Down8(r));
            OctetOf(Down1(r)) == Octet(o.b, o.c, o.d, o.e, o.f, o.g, o.h, n.a)
  {
  }

  lemma Downs(r: bv32)
    ensures Down8(Down1(r)) == Down1(Down8(r)) && Down16(Down1(r)) == Down1(Down16(r))
    ensures Down24(Down1(r)) == Down1(Down24(r)) && Down8(Down8(r)) == Down16(r) && Down8(Down16(r)) == Down24(r)
    ensures Down8(Down24(r)) == 0 && !OctetOf(0).a
  {
  }

  lemma Down8Plus(x: bv32, y: bv32)
    ensures Down8(Plus(x, y)) == Plus(Down8(x), Down8(y))
  {
  }

  lemma Down16Plus(x: bv32, y: bv32)
    ensures Down16(Plus(x, y)) == Plus(Down16(x), Down16(y))
  {
  }

  lemma Down24Plus(x: bv32, y: bv32)
    ensures Down24(Plus(x, y)) == Plus(Down24(x), Down24(y))
  {
  }

  lemma QuadPlus(x: bv32, y: bv32)
    ensures var q, p := QuadOf(x), QuadOf(y);
            QuadOf(Plus(x, y)) == Quad(Sum(q.k, p.k), Sum(q.l, p.l), Sum(q.m, p.m), Sum(q.n, p.n))
  {
    hide OctetOf, Plus, Sum, Down8, Down16, Down24;
    Down8Plus(x, y);
    Down16Plus(x, y);
    Down24Plus(x, y);
    OctetPlus(x, y);
    OctetPlus(Down8(x), Down8(y));
    OctetPlus(Down16(x), Down16(y));
    OctetPlus(Down24(x), Down24(y));
  }

  lemma QuadDown(r: bv32)
    ensures var q := QuadOf(r);
            QuadOf(Down1(r)) == Quad(Octet(q.k.b, q.k.c, q.k.d, q.k.e, q.k.f, q.k.g, q.k.h, q.l.a),
                                     Octet(q.l.b, q.l.c, q.l.d, q.l.e, q.l.f, q.l.g, q.l.h, q.m.a),
                                     Octet(q.m.b, q.m.c, q.m.d, q.m.e, q.m.f, q.m.g, q.m.h, q.n.a),
                                     Octet(q.n.b, q.n.c, q.n.d, q.n.e, q.n.f, q.n.g, q.n.h, false))
  {
    hide OctetOf, Down1, Down8, Down16, Down24;
    Downs(r);
    OctetDown(r);
    OctetDown(Down8(r));
    OctetDown(Down16(r));
    OctetDown(Down24(r));
  }

  lemma LeavesFirst(r: bv32)
    ensures QuadOf(r).k.a == Has(r, 1)
  {
  }

  // -------------------------------------------------------------------- numbers

  lemma SumBits(o: Octet, p: Octet)
    ensures OctetBits(Sum(o, p)) == Xor(OctetBits(o), OctetBits(p))
  {
    hide OctetBits, Xor;
    EightEqual(OctetBits(Sum(o, p)), Xor(OctetBits(o), OctetBits(p)));
  }

  lemma PlusBits(x: bv32, y: bv32)
    ensures QuadBits(QuadOf(Plus(x, y))) == Xor(QuadBits(QuadOf(x)), QuadBits(QuadOf(y)))
  {
    hide OctetBits, Xor, Plus, QuadOf, Sum;
    QuadPlus(x, y);
    var q, p := QuadOf(x), QuadOf(y);
    SumBits(q.k, p.k);
    SumBits(q.l, p.l);
    SumBits(q.m, p.m);
    SumBits(q.n, p.n);
    JoinFour(OctetBits(q.k), OctetBits(q.l), OctetBits(q.m), OctetBits(q.n),
             OctetBits(p.k), OctetBits(p.l), OctetBits(p.m), OctetBits(p.n));
  }

  lemma ShownFits(r: bv32)
    ensures Shown(r) < Pow2(32)
  {
    Pow2Widths();
    hide Pow2, OctetNumber;
  }

  /** Adding bit vectors is x ^ y on the numbers they show. */
  lemma PlusShows(x: bv32, y: bv32)
    ensures BitXor(Shown(x), Shown(y)) == Shown(Plus(x, y))
  {
    hide QuadNumber, QuadBits, QuadOf, Plus, BitXor, Xor, Pow2;
    PlusBits(x, y);
    QuadShows(QuadOf(x));
    QuadShows(QuadOf(y));
    QuadShows(QuadOf(Plus(x, y)));
    ShownFits(x);
    ShownFits(y);
    ShownFits(Plus(x, y));
    XorFits(Shown(x), Shown(y), 32);
    BitsOfXor(Shown(x), Shown(y), 32);
    SameLow(BitXor(Shown(x), Shown(y)), Shown(Plus(x, y)));
  }

  lemma SameLow(x: nat, y: nat)
    requires x < Pow2(32) && y < Pow2(32) && LowFirst(x, 32) == LowFirst(y, 32)
    ensures x == y
  {
    forall i: nat | i < 32 ensures Bit(x, i) == Bit(y, i) {
      assert LowFirst(x, 32)[i] == LowFirst(y, 32)[i];
    }
    BitsDetermine(x, y, 32);
  }
}
