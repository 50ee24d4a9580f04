/** The decoder on one declared transition. */
module ReadTrans {
  import opened Wrappers
  import opened Text
  import opened Template
  import opened Decoder
  import opened Surface
  import opened ReadTokens

  lemma ReadSrc(c: Config, name: string, k: nat, more: string)
    requires c.state == TransEnter && NameChars(name) && Ends(more)
    requires FindState(c.tmpl.states, name) == Some(k)
    requires c.rest == name + more
    ensures Decode(c) == Decode(c.(state := Row, rest := more, eti := c.eti.(src := Some(k))))
  {
    hide Decode, Run, FindState;
    NameRun(name, more);
    AtToken(c);
    var c1 := c.(state := Src);
    AtToken(c1);
    assert Switch(c1) == Next(c.(state := Row, rest := more, eti := c.eti.(src := Some(k))));
  }

  lemma ReadRow(c: Config, more: string)
    requires c.state == Row && c.rest == "->" + more && more != ""
    ensures Decode(c) == Decode(c.(state := Dst, rest := more))
  {
    hide Decode;
    assert c.rest[0] == '-' && c.rest[2..] == more;
    AtToken(c);
    assert Begins(c.rest, "->");
  }

  lemma ReadDst(c: Config, dst: Option<string>, k: Option<nat>, more: string)
    requires c.state == Dst && NameChars(DstText(dst)) && Ends(more)
    requires match dst
             case None => k == None
             case Some(name) => name != "self" && k.Some? && FindState(c.tmpl.states, name) == k
    requires c.rest == DstText(dst) + more
    ensures Decode(c) == Decode(c.(state := DstColon, rest := more, eti := c.eti.(dst := k)))
  {
    hide Decode, Run, FindState;
    NameRun(DstText(dst), more);
    AtToken(c);
    assert Switch(c) == Next(c.(state := DstColon, rest := more, eti := c.eti.(dst := k)));
  }

  // ------------------------------------------------------------ code or channel

  lemma DecimalIsName(n: nat)
    ensures NameChars(Decimal(n))
  {
    hide Decimal;
  }

  lemma ReadPlain(c: Config, n: nat, more: string)
    requires c.state == Code && Ends(more)
    requires c.rest == Decimal(n) + more
    ensures Decode(c) == Decode(c.(state := Semicolon, rest := more, eti := c.eti.(code := ToInt(n))))
  {
    hide Decode, Run, Decimal, ScanInt;
    DecimalIsName(n);
    NameRun(Decimal(n), more);
    ScanDecimal(n, more);
    AtToken(c);
    assert Switch(c) == Next(c.(state := Semicolon, rest := more, eti := c.eti.(code := ToInt(n))));
  }

  /** How the name of a channel begins, and where it leads. */
  predicate Tag(tag: string, next: State, channel: Channel) {
    || (tag == "tick_" && next == TickInterval && channel == Tick)
    || (tag == "data_" && next == DataEvent && channel == Data)
    || (tag == "sign_" && next == SignNumber && channel == Sign)
  }

  lemma NoNumber(r: string)
    requires r != "" && (IsNameChar(r[0]) || r[0] == ':') && !IsDigit(r[0])
    ensures ScanInt(r) == None
  {
    assert Run(r, IsSpace) == 0;
    assert r[0..] == r;
    assert Run(r, IsDigit) == 0;
  }

  /** What may stand between the name of a channel and its colon. */
  predicate Skipped(skip: string) {
    ':' !in skip && (skip != "" ==> !IsNameChar(skip[0]))
  }

  lemma TaggedNumber(tag: string, next: State, channel: Channel, n: nat, more: string)
    requires Tag(tag, next, channel) && Ends(more)
    ensures var r := tag + Decimal(n) + more;
            && (tag == "tick_" ==> ScanTagged(r, "tick_") == Some(ToInt(n)))
            && (tag == "data_" ==> ScanTagged(r, "tick_") == None && ScanTagged(r, "data_") == Some(ToInt(n)))
            && (tag == "sign_" ==> ScanTagged(r, "tick_") == None && ScanTagged(r, "data_") == None &&
                                   ScanTagged(r, "sign_") == Some(ToInt(n)))
  {
    hide Decimal, ScanInt;
    var r := tag + Decimal(n) + more;
    ScanDecimal(n, more);
    assert r == tag + (Decimal(n) + more);
    assert r[|tag|..] == Decimal(n) + more;
    assert Begins(r, tag) && r[0] == tag[0];
    if Begins(r, "tick_") { BeginsHead(r, "tick_"); }
    if Begins(r, "data_") { BeginsHead(r, "data_"); }
  }

  lemma TagIsName(tag: string, next: State, channel: Channel, n: nat)
    requires Tag(tag, next, channel)
    ensures NameChars(tag + Decimal(n)) && IsLetter(tag[0])
  {
    hide Decimal;
  }

  /** A channel: everything from the end of its name to the next colon is skipped. */
  lemma ReadChannel(c: Config, tag: string, next: State, channel: Channel, n: nat, skip: string, more: string)
    requires c.state == Code && Tag(tag, next, channel) && Skipped(skip) && more != ""
    requires c.rest == tag + Decimal(n) + skip + ":" + more
    ensures Decode(c) ==
            Decode(c.(state := next, rest := more, mark := ":" + more,
                      eti := c.eti.(code := ToInt(n), channel := channel)))
  {
    hide Decode, Decimal, NameChars, Skipped, Ends;
    var c1 := c.(state := CodeChannel, mark := ":" + more);
    TagIsName(tag, next, channel, n);
    SkipEnds(skip, more);
    assert c.rest == (tag + Decimal(n)) + (skip + (":" + more));
    ReadChannelName(c, tag + Decimal(n), skip, more);
    ReadChannelNumber(c1, tag, next, channel, n, skip + (":" + more), more);
  }

  lemma SkipEnds(skip: string, more: string)
    requires Skipped(skip)
    ensures Ends(skip + (":" + more)) && Run(skip + (":" + more), NotColon) == |skip|
    ensures (skip + (":" + more))[|skip|..] == ":" + more
  {
    hide Run;
    var colon := ":" + more;
    assert colon[0] == ':';
    RunStops(skip, colon, NotColon);
    assert (skip + colon)[0] == if skip == "" then ':' else skip[0];
  }

  lemma BeforeColon(name: string, tail: string)
    requires (name != "" ==> NameChars(name) && !IsDigit(name[0])) && Ends(tail) && (name == "" ==> tail[0] == ':')
    ensures var r := name + tail;
            && r != "" && r[0] == (if name == "" then ':' else name[0]) && !IsDelim(r[0]) && r[0] != '/'
            && Run(r, IsNameChar) == |name| && r[|name|..] == tail && ScanInt(r) == None
  {
    hide Run, ScanInt;
    RunStops(name, tail, IsNameChar);
    NoNumber(name + tail);
  }

  lemma ReadChannelName(c: Config, name: string, skip: string, more: string)
    requires c.state == Code && (name != "" ==> NameChars(name) && !IsDigit(name[0])) && more != ""
    requires Skipped(skip) && (name == "" ==> skip == "")
    requires c.rest == name + (skip + (":" + more))
    ensures Decode(c) == Decode(c.(state := CodeChannel, mark := ":" + more))
  {
    hide Decode, Run, ScanInt, NameChars, Ends, Skipped;
    var tail := skip + (":" + more);
    SkipEnds(skip, more);
    BeforeColon(name, tail);
    AtToken(c);
    assert Switch(c) == Next(c.(state := CodeChannel, mark := ":" + more));
  }

  lemma ReadChannelNumber(c: Config, tag: string, next: State, channel: Channel, n: nat, tail: string, more: string)
    requires c.state == CodeChannel && Tag(tag, next, channel) && Ends(tail) && more != ""
    requires c.rest == tag + Decimal(n) + tail && c.mark == ":" + more
    ensures Decode(c) ==
            Decode(c.(state := next, rest := more, eti := c.eti.(code := ToInt(n), channel := channel)))
  {
    hide Decode, Decimal, ScanTagged, Ends;
    assert c.rest[0] == tag[0] && c.mark[1..] == more;
    TaggedNumber(tag, next, channel, n, tail);
    AtToken(c);
  }

  // ------------------------------------------------------- channel parameters

  predicate Blanks(b: string) {
    forall i :: 0 <= i < |b| ==> IsDelim(b[i])
  }

  lemma IntervalValue(v: nat, u: Unit, blanks: string, more: string, prev: nat)
    requires 0 < v < 0x8000_0000 && IntervalMs(v, u) < 0x1_0000_0000
    requires forall i :: 0 <= i < |Decimal(v)| ==> IsDigit((Decimal(v) + UnitText(u) + blanks + more)[i])
    ensures Interval(Decimal(v) + UnitText(u) + blanks + more, |Decimal(v)|, prev) ==
            (IntervalMs(v, u), blanks + more)
  {
    hide Decimal, DigitsValue;
    var d := Decimal(v);
    var r := d + UnitText(u) + blanks + more;
    DecimalValue(v);
    assert r == d + (UnitText(u) + (blanks + more));
    assert r[..|d|] == d && r[|d|..] == UnitText(u) + (blanks + more);
    assert r[|d|..][|UnitText(u)|..] == blanks + more;
    assert r[|d| + |UnitText(u)|..] == blanks + more;
    if u == Seconds && Begins(r[|d|..], "ms") { BeginsHead(r[|d|..], "ms"); }
    assert Begins(r[|d|..], UnitText(u));
  }

  lemma ReadInterval(c: Config, v: nat, u: Unit, blanks: string, more: string)
    requires c.state == TickInterval && Blanks(blanks)
    requires 0 < v < 0x8000_0000 && IntervalMs(v, u) < 0x1_0000_0000
    requires |more| >= 2 && more[0] in {':', ';'}
    requires c.rest == Decimal(v) + UnitText(u) + blanks + more
    ensures var eti := c.eti.(data := IntervalMs(v, u));
            Decode(c) == if more[0] == ':' then Decode(c.(state := TickPeriod, rest := more[1..], eti := eti))
                         else Decode(c.(state := Semicolon, rest := more, eti := eti))
  {
    hide Decode, Run, Decimal, DigitsValue, Interval, UnitText, IntervalMs;
    var d := Decimal(v);
    var tail := UnitText(u) + blanks + more;
    assert c.rest == d + tail;
    UnitNotDigit(u, blanks + more);
    assert tail == UnitText(u) + (blanks + more);
    RunStops(d, tail, IsDigit);
    IntervalValue(v, u, blanks, more, c.eti.data);
    RunStops(blanks, more, IsDelim);
    assert (blanks + more)[|blanks|..] == more;
    assert c.rest[0] == d[0] && IsDigit(d[0]);
    AtToken(c);
    IntervalPositive(v, u);
  }

  lemma UnitNotDigit(u: Unit, more: string)
    ensures UnitText(u) + more != "" && !IsDigit((UnitText(u) + more)[0])
  {
  }

  lemma IntervalPositive(v: nat, u: Unit)
    requires v > 0
    ensures IntervalMs(v, u) > 0
  {
  }

  lemma ReadPeriod(c: Config, p: Period, more: string)
    requires c.state == TickPeriod && Ends(more) && c.rest == PeriodWord(p) + more
    ensures Decode(c) == Decode(c.(state := Semicolon, rest := more,
                                   eti := c.eti.(flags := if p == Oneshot then ONESHOT else PERIODIC)))
  {
    hide Decode, Run;
    RunStops(PeriodWord(p), more, IsWordChar);
    assert c.rest[..|PeriodWord(p)|] == PeriodWord(p) && c.rest[|PeriodWord(p)|..] == more;
    AtToken(c);
  }

  lemma EventFlags(e: Event, prev: nat)
    ensures EventFlag(EventWord(e), prev) == EventMask(e) > 0
    ensures Begins(EventWord(e), "ESMA_")
    ensures |EventWord(e)| > 1 && EventWord(e)[0] == 'E'
    ensures forall i :: 0 <= i < |EventWord(e)| ==> IsWordChar(EventWord(e)[i])
    ensures forall ch :: Ends([ch]) ==> !IsWordChar(ch)
  {
  }

  lemma ReadEvent(c: Config, e: Event, more: string)
    requires c.state == DataEvent && Ends(more) && c.rest == EventWord(e) + more
    ensures Decode(c) == Decode(c.(state := Semicolon, rest := more, eti := c.eti.(data := EventMask(e))))
  {
    hide Decode, Run, EventFlag, EventWord, EventMask;
    EventFlags(e, c.eti.data);
    assert Ends([more[0]]);
    RunStops(EventWord(e), more, IsWordChar);
    assert c.rest[..|EventWord(e)|] == EventWord(e) && c.rest[|EventWord(e)|..] == more;
    AtToken(c);
  }

  /** Every supported signal is read as its own number, which no other one has. */
  lemma EverySignalReads(s: Signal)
    ensures forall i :: 0 <= i < |SignalWord(s)| ==> IsSignalChar(SignalWord(s)[i])
    ensures SignalNumber(SignalWord(s)) == SignalNo(s)
    ensures forall t :: SignalNo(t) == SignalNo(s) ==> t == s
  {
    assert s == VTALRM ==> Begins("VTALRM", "VTALRM");
    SignalsDiffer(s);
  }

  lemma SignalsDiffer(s: Signal)
    ensures forall t :: SignalNo(t) == SignalNo(s) ==> t == s
  {
  }

  lemma ReadSignal(c: Config, s: Signal, more: string)
    requires c.state == SignNumber && Ends(more) && c.rest == "SIG" + SignalWord(s) + more
    ensures Decode(c) == Decode(c.(state := Semicolon, rest := more, eti := c.eti.(data := SignalNo(s))))
  {
    hide Decode, Run, SignalNumber, SignalWord, SignalNo;
    EverySignalReads(s);
    var word := "SIG" + SignalWord(s);
    RunStops(word, more, IsSignalChar);
    assert c.rest[..|word|] == word && c.rest[|word|..] == more;
    assert c.rest[3..|word|] == SignalWord(s);
    assert Begins(word, "SIG");
    AtToken(c);
  }

  lemma ReadSemicolon(c: Config, k: nat, more: string)
    requires c.state == Semicolon && c.eti.src == Some(k) && k < |c.tmpl.states|
    requires more != "" && c.rest == ";" + more
    ensures Decode(c) == Decode(c.(state := TransEnter, rest := more, eti := CLEAN,
                                   tmpl := AddTrans(c.tmpl, k, PendingTrans(c.eti))))
  {
    hide Decode, AddTrans, PendingTrans;
    assert c.rest[0] == ';' && c.rest[1..] == more;
    AtToken(c);
  }

  lemma ReadGapSemicolon(c: Config, g: Gap, k: nat, more: string)
    requires c.state == Semicolon && c.eti.src == Some(k) && k < |c.tmpl.states|
    requires GapOk(g) && more != "" && c.rest == GapText(g) + ";" + more
    ensures Decode(c) == Decode(c.(state := TransEnter, rest := more, eti := CLEAN,
                                   tmpl := AddTrans(c.tmpl, k, PendingTrans(c.eti))))
  {
    hide Decode, AddTrans, PendingTrans, GapText, GapOk;
    assert c.rest == GapText(g) + (";" + more);
    SkipGap(c, g, ";" + more);
    ReadSemicolon(c.(rest := ";" + more), k, more);
  }
}
