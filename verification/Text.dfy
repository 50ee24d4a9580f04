/** Scanning C strings. A string here is the characters before the terminating
    NUL, and a pointer into it is the suffix that starts there; looking at or past
    the end of the suffix shows the NUL. */
module Text {
  import opened Wrappers

  function Peek(r: string, k: nat): char {
    if k < |r| then r[k] else '\0'
  }

  predicate IsDigit(c: char) {
    '0' <= c <= '9'
  }

  predicate IsLetter(c: char) {
    'a' <= c <= 'z' || 'A' <= c <= 'Z'
  }

  predicate IsNameChar(c: char) {
    IsLetter(c) || IsDigit(c) || c == '_'
  }

  predicate IsDelim(c: char) {
    c == ' ' || c == '\t' || c == '\n'
  }

  /** str_N_cmp: the text at r begins with w. */
  predicate Begins(r: string, w: string) {
    |w| <= |r| && r[..|w|] == w
  }

  /** The longest run of characters satisfying p at the front of r. */
  function Run(r: string, p: char -> bool): (n: nat)
    ensures n <= |r|
    ensures forall i :: 0 <= i < n ==> p(r[i])
    ensures n < |r| ==> !p(r[n])
  {
    if r != [] && p(r[0]) then 1 + Run(r[1..], p) else 0
  }

  /** A run is exactly the text up to the first character that does not satisfy p. */
  lemma {:induction false} RunStops(w: string, more: string, p: char -> bool)
    requires forall i :: 0 <= i < |w| ==> p(w[i])
    requires more != "" ==> !p(more[0])
    ensures Run(w + more, p) == |w|
  {
    if w == "" {
      assert w + more == more;
    } else {
      assert (w + more)[1..] == w[1..] + more;
      RunStops(w[1..], more, p);
    }
  }

  // ----------------------------------------------------------------- numbers

  function DigitValue(c: char): (d: nat)
    requires IsDigit(c)
    ensures d < 10
  {
    (c - '0') as int
  }

  function DigitChar(d: nat): (c: char)
    requires d < 10
    ensures IsDigit(c) && DigitValue(c) == d
  {
    '0' + d as char
  }

  function DigitsValue(w: string, acc: nat): nat
    requires forall i :: 0 <= i < |w| ==> IsDigit(w[i])
  {
    if w == "" then acc else DigitsValue(w[1..], 10 * acc + DigitValue(w[0]))
  }

  predicate IsSpace(c: char) {
    c == ' ' || '\t' <= c <= '\r'
  }

  /** sscanf("%d"): optional white space, an optional sign, digits. The number is
      reduced to the 32 bits of an int. */
  function ScanInt(r: string): (v: Option<int>)
    ensures v.Some? ==> -0x8000_0000 <= v.value < 0x8000_0000
  {
    var t := r[Run(r, IsSpace)..];
    var negative := Peek(t, 0) == '-';
    var u := if negative || Peek(t, 0) == '+' then t[1..] else t;
    var n := Run(u, IsDigit);
    if n == 0 then None
    else
      var v: int := DigitsValue(u[..n], 0);
      Some(ToInt(if negative then -v else v))
  }

  function ToInt(v: int): (i: int)
    ensures -0x8000_0000 <= i < 0x8000_0000
    ensures -0x8000_0000 <= v < 0x8000_0000 ==> i == v
  {
    (v + 0x8000_0000) % 0x1_0000_0000 - 0x8000_0000
  }

  function ToUnsigned(v: int): (u: nat)
    ensures u < 0x1_0000_0000
  {
    v % 0x1_0000_0000
  }

  /** sscanf("<tag>%d:"): the number after the tag; the colon is not required. */
  function ScanTagged(r: string, tag: string): Option<int> {
    if Begins(r, tag) then ScanInt(r[|tag|..]) else None
  }

  /** The decimal digits of n, as printf("%d") writes them. */
  function Decimal(n: nat): (w: string)
    ensures w != ""
    ensures forall i :: 0 <= i < |w| ==> IsDigit(w[i])
  {
    if n < 10 then [DigitChar(n)] else Decimal(n / 10) + [DigitChar(n % 10)]
  }

  lemma {:induction false} DigitsValueSnoc(w: string, c: char, acc: nat)
    requires forall i :: 0 <= i < |w| ==> IsDigit(w[i])
    requires IsDigit(c)
    ensures DigitsValue(w + [c], acc) == 10 * DigitsValue(w, acc) + DigitValue(c)
  {
    if w != "" {
      assert (w + [c])[1..] == w[1..] + [c];
      DigitsValueSnoc(w[1..], c, 10 * acc + DigitValue(w[0]));
    } else {
      assert w + [c] == [c];
      assert [c][1..] == "";
    }
  }

  lemma {:induction false} DecimalValue(n: nat)
    ensures DigitsValue(Decimal(n), 0) == n
  {
    if n < 10 {
      assert Decimal(n)[1..] == "";
    } else {
      DecimalValue(n / 10);
      DigitsValueSnoc(Decimal(n / 10), DigitChar(n % 10), 0);
    }
  }

  /** Reading back what printf("%d") wrote, for numbers that fit and for others. */
  lemma {:induction false} ScanDecimal(n: nat, more: string)
    requires more != "" ==> !IsDigit(more[0])
    ensures ScanInt(Decimal(n) + more) == Some(ToInt(n))
    ensures n < 0x8000_0000 ==> ToInt(n) == n
  {
    hide *;
    DecimalValue(n);
    ScanDigits(Decimal(n), more);
  }

  lemma ScanDigits(w: string, more: string)
    requires w != "" && forall i :: 0 <= i < |w| ==> IsDigit(w[i])
    requires more != "" ==> !IsDigit(more[0])
    ensures ScanInt(w + more) == Some(ToInt(DigitsValue(w, 0)))
  {
    hide DigitsValue;
    var r := w + more;
    assert IsDigit(r[0]);
    assert Run(r, IsSpace) == 0;
    assert r[0..] == r;
    RunStops(w, more, IsDigit);
    assert r[..|w|] == w;
  }

  lemma {:induction false} DecimalInjective(m: nat, n: nat)
    ensures Decimal(m) == Decimal(n) <==> m == n
  {
    if Decimal(m) == Decimal(n) {
      DecimalValue(m);
      DecimalValue(n);
    }
  }
}
