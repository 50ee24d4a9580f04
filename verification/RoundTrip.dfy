/** Reading a program text gives the template the program means. */
module RoundTrip {
  import opened Wrappers
  import opened Text
  import opened Template
  import opened Decoder
  import opened Surface
  import opened ReadTokens
  import opened ReadTrans

  // --------------------------------------------------------------- a transition

  /** The pending transition after its trigger was read. */
  function Read(e: Pending, on: Trigger): Pending
    requires TriggerOk(on)
  {
    match on
    case PlainTrigger(n, _) => e.(code := n)
    case TickTrigger(n, _, v, u, _, p) =>
      e.(code := n, channel := Tick, data := IntervalMs(v, u), flags := if p.NoPeriod? then e.flags else PeriodFlag(p))
    case DataTrigger(n, _, ev, _) => e.(code := n, channel := Data, data := EventMask(ev))
    case SignTrigger(n, _, s, _) => e.(code := n, channel := Sign, data := SignalNo(s))
  }

  /** The configuration after a transition was stored. */
  function Stored(c: Config, e: Pending, mark: string, more: string): Config
    requires e.src.Some? && e.src.value < |c.tmpl.states|
  {
    Config(TransEnter, more, mark, CLEAN, AddTrans(c.tmpl, e.src.value, PendingTrans(e)))
  }

  lemma ReadPlainTrigger(c: Config, n: nat, after: Gap, more: string)
    requires c.state == Code && c.eti.src.Some? && c.eti.src.value < |c.tmpl.states|
    requires n < 0x8000_0000 && GapOk(after) && more != ""
    requires c.rest == Decimal(n) + GapText(after) + ";" + more
    ensures Decode(c) == Decode(Stored(c, c.eti.(code := n), c.mark, more))
  {
    hide Decode, GapText, GapOk, Decimal, AddTrans, PendingTrans, Ends;
    EndsSemicolon(more);
    GapEnds(after, ";" + more);
    var tail := GapText(after) + ";" + more;
    assert tail == GapText(after) + (";" + more);
    assert c.rest == Decimal(n) + tail;
    ReadPlain(c, n, tail);
    ReadGapSemicolon(c.(state := Semicolon, rest := tail, eti := c.eti.(code := n)), after, c.eti.src.value, more);
  }

  lemma ReadDataTrigger(c: Config, n: nat, before: Gap, ev: Event, after: Gap, more: string)
    returns (mark: string)
    requires c.state == Code && c.eti.src.Some? && c.eti.src.value < |c.tmpl.states|
    requires n < 0x8000_0000 && GapOk(before) && GapOk(after) && more != ""
    requires c.rest == "data_" + Decimal(n) + ":" + GapText(before) + EventWord(ev) + GapText(after) + ";" + more
    ensures Decode(c) == Decode(Stored(c, c.eti.(code := n, channel := Data, data := EventMask(ev)), mark, more))
  {
    hide Decode, GapText, GapOk, Decimal, AddTrans, PendingTrans, EventWord, EventMask, Ends;
    EndsSemicolon(more);
    GapEnds(after, ";" + more);
    var r3 := GapText(after) + ";" + more;
    var r2 := EventWord(ev) + r3;
    var r1 := GapText(before) + r2;
    assert r3 == GapText(after) + (";" + more);
    assert c.rest == "data_" + Decimal(n) + "" + ":" + r1;
    ReadChannel(c, "data_", DataEvent, Data, n, "", r1);
    var c1 := c.(state := DataEvent, rest := r1, mark := ":" + r1, eti := c.eti.(code := n, channel := Data));
    WordHeads();
    SkipGap(c1, before, r2);
    ReadEvent(c1.(rest := r2), ev, r3);
    var c2 := c1.(state := Semicolon, rest := r3, eti := c1.eti.(data := EventMask(ev)));
    ReadGapSemicolon(c2, after, c.eti.src.value, more);
    mark := c2.mark;
  }

  lemma ReadSignTrigger(c: Config, n: nat, before: Gap, s: Signal, after: Gap, more: string)
    returns (mark: string)
    requires c.state == Code && c.eti.src.Some? && c.eti.src.value < |c.tmpl.states|
    requires n < 0x8000_0000 && GapOk(before) && GapOk(after) && more != ""
    requires c.rest == "sign_" + Decimal(n) + ":" + GapText(before) + "SIG" + SignalWord(s) + GapText(after) + ";" +
                       more
    ensures Decode(c) == Decode(Stored(c, c.eti.(code := n, channel := Sign, data := SignalNo(s)), mark, more))
  {
    hide Decode, GapText, GapOk, Decimal, AddTrans, PendingTrans, SignalWord, SignalNo, Ends;
    EndsSemicolon(more);
    GapEnds(after, ";" + more);
    var r3 := GapText(after) + ";" + more;
    var r2 := "SIG" + SignalWord(s) + r3;
    var r1 := GapText(before) + r2;
    assert r3 == GapText(after) + (";" + more);
    assert c.rest == "sign_" + Decimal(n) + "" + ":" + r1;
    ReadChannel(c, "sign_", SignNumber, Sign, n, "", r1);
    var c1 := c.(state := SignNumber, rest := r1, mark := ":" + r1, eti := c.eti.(code := n, channel := Sign));
    SkipGap(c1, before, r2);
    ReadSignal(c1.(rest := r2), s, r3);
    var c2 := c1.(state := Semicolon, rest := r3, eti := c1.eti.(data := SignalNo(s)));
    ReadGapSemicolon(c2, after, c.eti.src.value, more);
    mark := c2.mark;
  }

  lemma ReadTickTrigger(c: Config, n: nat, before: Gap, v: nat, u: Unit, blanks: string, p: PeriodDecl, more: string)
    returns (mark: string)
    requires c.state == Code && c.eti.src.Some? && c.eti.src.value < |c.tmpl.states|
    requires TriggerOk(TickTrigger(n, before, v, u, blanks, p)) && more != ""
    requires c.rest == "tick_" + Decimal(n) + ":" + GapText(before) + Decimal(v) + UnitText(u) + blanks +
                       PeriodText(p) + ";" + more
    ensures Decode(c) == Decode(Stored(c, Read(c.eti, TickTrigger(n, before, v, u, blanks, p)), mark, more))
  {
    hide Decode, GapText, GapOk, Decimal, AddTrans, PendingTrans, UnitText, PeriodText, Ends;
    var r3 := PeriodText(p) + ";" + more;
    var r2 := Decimal(v) + UnitText(u) + blanks + r3;
    var r1 := GapText(before) + r2;
    assert c.rest == "tick_" + Decimal(n) + "" + ":" + r1;
    ReadChannel(c, "tick_", TickInterval, Tick, n, "", r1);
    var c1 := c.(state := TickInterval, rest := r1, mark := ":" + r1, eti := c.eti.(code := n, channel := Tick));
    SkipGap(c1, before, r2);
    PeriodStart(p, more);
    ReadInterval(c1.(rest := r2), v, u, blanks, r3);
    var eti := c1.eti.(data := IntervalMs(v, u));
    mark := c1.mark;
    match p
    case NoPeriod =>
      ReadSemicolon(c1.(state := Semicolon, rest := r3, eti := eti), c.eti.src.value, more);
    case PeriodDecl(b, per, a) =>
      var c2 := ReadPeriodDecl(c1.(state := TickPeriod, rest := r3[1..], eti := eti), b, per, a, more);
      assert c2.eti == Read(c.eti, TickTrigger(n, before, v, u, blanks, p));
  }

  lemma PeriodStart(p: PeriodDecl, more: string)
    requires more != ""
    ensures var r := PeriodText(p) + ";" + more;
            |r| >= 2 && r[0] == (if p.NoPeriod? then ';' else ':')
    ensures p.NoPeriod? ==> PeriodText(p) + ";" + more == ";" + more
    ensures p.PeriodDecl? ==> (PeriodText(p) + ";" + more)[1..] ==
                              GapText(p.before) + PeriodWord(p.period) + GapText(p.after) + ";" + more
  {
    hide GapText, PeriodWord;
  }

  lemma ReadPeriodDecl(c: Config, b: Gap, p: Period, a: Gap, more: string) returns (c2: Config)
    requires c.state == TickPeriod && c.eti.src.Some? && c.eti.src.value < |c.tmpl.states|
    requires GapOk(b) && GapOk(a) && more != ""
    requires c.rest == GapText(b) + PeriodWord(p) + GapText(a) + ";" + more
    ensures c2.mark == c.mark && c2.eti == c.eti.(flags := if p == Oneshot then ONESHOT else PERIODIC)
    ensures Decode(c) == Decode(Stored(c, c2.eti, c2.mark, more))
  {
    hide Decode, GapText, GapOk, AddTrans, PendingTrans, PeriodWord, Ends;
    EndsSemicolon(more);
    GapEnds(a, ";" + more);
    var r3 := GapText(a) + ";" + more;
    var r2 := PeriodWord(p) + r3;
    assert r3 == GapText(a) + (";" + more);
    assert c.rest == GapText(b) + r2;
    WordHeads();
    SkipGap(c, b, r2);
    ReadPeriod(c.(rest := r2), p, r3);
    c2 := c.(state := Semicolon, rest := r3, eti := c.eti.(flags := if p == Oneshot then ONESHOT else PERIODIC));
    ReadGapSemicolon(c2, a, c.eti.src.value, more);
  }

  lemma ReadTrigger(c: Config, on: Trigger, more: string)
    returns (mark: string)
    requires c.state == Code && c.eti.src.Some? && c.eti.src.value < |c.tmpl.states|
    requires TriggerOk(on) && more != ""
    requires c.rest == TriggerText(on) + ";" + more
    ensures Decode(c) == Decode(Stored(c, Read(c.eti, on), mark, more))
  {
    hide Decode, GapText, GapOk, Decimal, AddTrans, PendingTrans;
    match on
    case PlainTrigger(n, a) =>
      mark := c.mark;
      ReadPlainTrigger(c, n, a, more);
    case TickTrigger(n, b, v, u, blanks, p) =>
      mark := ReadTickTrigger(c, n, b, v, u, blanks, p, more);
    case DataTrigger(n, b, e, a) =>
      mark := ReadDataTrigger(c, n, b, e, a, more);
    case SignTrigger(n, b, s, a) =>
      mark := ReadSignTrigger(c, n, b, s, a, more);
  }

  /** The names are those of the states, in order, and can be written. */
  predicate NamesOf(names: seq<string>, states: seq<StateTemplate>) {
    && |names| == |states|
    && (forall i :: 0 <= i < |names| ==> states[i].name == names[i])
    && (forall i :: 0 <= i < |names| ==> NameChars(names[i]) && names[i] != "self")
  }

  lemma {:induction false} FoundByName(names: seq<string>, states: seq<StateTemplate>, name: string)
    requires |names| == |states| && name in names
    requires forall i :: 0 <= i < |names| ==> states[i].name == names[i]
    ensures FindState(states, name) == Some(IndexOf(names, name))
    decreases |names|
  {
    if names[0] != name {
      FoundByName(names[1..], states[1..], name);
    }
  }

  /** What is stored for a declaration is what it means. */
  lemma StoredIsMeaning(t: TransDecl, names: seq<string>, k: nat, next: Option<nat>)
    requires TransOk(t, names)
    requires next == if t.dst.None? then None else Some(IndexOf(names, t.dst.value))
    ensures var e := Read(CLEAN.(src := Some(k), dst := next), t.on);
            e.src == Some(k) && PendingTrans(e) == Meaning(t, names)
  {
    hide GapOk, SignalNo, IndexOf, ToUnsigned;
    assert ToUnsigned(t.on.code) == t.on.code by {
      UnsignedKeeps(t.on.code);
    }
  }

  lemma UnsignedKeeps(n: nat)
    requires n < 0x1_0000_0000
    ensures ToUnsigned(n) == n
  {
  }

  lemma ReadTransDecl(c: Config, t: TransDecl, names: seq<string>, more: string)
    returns (mark: string)
    requires c.state == TransEnter && c.eti == CLEAN
    requires NamesOf(names, c.tmpl.states) && TransOk(t, names) && more != ""
    requires c.rest == TransText(t) + more
    ensures Decode(c) == Decode(Config(TransEnter, more, mark, CLEAN,
                                       AddTrans(c.tmpl, IndexOf(names, t.src), Meaning(t, names))))
  {
    hide Decode, GapText, GapOk, AddTrans, PendingTrans, TriggerText, TriggerOk, Read, FindState, IndexOf, Meaning,
         NameChars, DstText, TransText;
    var k := IndexOf(names, t.src);
    var next := if t.dst.None? then None else Some(IndexOf(names, t.dst.value));
    var r4 := TriggerText(t.on) + ";" + more;
    var r3 := DstText(t.dst) + GapText(t.g3) + ":" + GapText(t.g4) + r4;
    var r1 := t.src + (GapText(t.g1) + "->" + GapText(t.g2) + r3);
    TransTextParts(t, more);
    TransHeads(t, names, c.tmpl.states);
    assert r1[0] == t.src[0] && r3[0] == DstText(t.dst)[0] && r4[0] == TriggerText(t.on)[0];
    SkipGap(c, t.before, r1);
    var c1 := ReadArrow(c.(rest := r1), t.src, k, t.g1, t.g2, r3, names);
    var c2 := ReadTarget(c1, t.dst, next, t.g3, t.g4, r4, names);
    mark := ReadTrigger(c2, t.on, more);
    StoredIsMeaning(t, names, k, next);
  }

  /** None of the words begins like a comment. */
  lemma WordHeads()
    ensures forall e: Event :: EventWord(e) != "" && EventWord(e)[0] != '/'
    ensures forall p: Period :: PeriodWord(p) != "" && PeriodWord(p)[0] != '/'
  {
  }

  lemma TriggerHead(on: Trigger)
    ensures TriggerText(on) != "" && TriggerText(on)[0] != '/'
  {
    hide Decimal, GapText, PeriodText, EventWord, SignalWord, UnitText;
    match on
    case PlainTrigger(n, a) =>
      assert TriggerText(on)[0] == Decimal(n)[0];
      assert IsDigit(Decimal(n)[0]);
    case TickTrigger(n, b, v, u, blanks, p) => assert TriggerText(on)[0] == 't';
    case DataTrigger(n, b, e, a) => assert TriggerText(on)[0] == 'd';
    case SignTrigger(n, b, s, a) => assert TriggerText(on)[0] == 's';
  }

  lemma TransHeads(t: TransDecl, names: seq<string>, states: seq<StateTemplate>)
    requires NamesOf(names, states) && TransOk(t, names)
    ensures t.src != "" && t.src[0] != '/'
    ensures DstText(t.dst) != "" && DstText(t.dst)[0] != '/'
    ensures TriggerText(t.on) != "" && TriggerText(t.on)[0] != '/'
  {
    TriggerHead(t.on);
    hide TriggerText, NameChars, GapOk;
    NameHead(t.src);
    if t.dst.Some? {
      NameHead(t.dst.value);
    }
  }

  lemma TransTextParts(t: TransDecl, more: string)
    ensures TransText(t) + more ==
            GapText(t.before) +
            (t.src + (GapText(t.g1) + "->" + GapText(t.g2) +
                      (DstText(t.dst) + GapText(t.g3) + ":" + GapText(t.g4) + (TriggerText(t.on) + ";" + more))))
  {
    hide GapText, DstText, TriggerText;
  }

  /** `src ->` and the layout around the arrow. */
  lemma ReadArrow(c: Config, src: string, k: nat, g1: Gap, g2: Gap, more: string, names: seq<string>)
    returns (d: Config)
    requires c.state == TransEnter && NamesOf(names, c.tmpl.states)
    requires src in names && k == IndexOf(names, src)
    requires GapOk(g1) && GapOk(g2) && more != "" && more[0] != '/'
    requires c.rest == src + (GapText(g1) + "->" + GapText(g2) + more)
    ensures d == c.(state := Dst, rest := more, eti := c.eti.(src := Some(k)))
    ensures Decode(c) == Decode(d)
  {
    hide Decode, GapText, GapOk, FindState, IndexOf, Ends, NameChars;
    var r2 := "->" + (GapText(g2) + more);
    var r1 := GapText(g1) + r2;
    assert GapText(g1) + "->" + GapText(g2) + more == r1;
    EndsSemicolon(GapText(g2) + more);
    GapEnds(g1, r2);
    FoundByName(names, c.tmpl.states, src);
    ReadSrc(c, src, k, r1);
    var c1 := c.(state := Row, rest := r1, eti := c.eti.(src := Some(k)));
    SkipGap(c1, g1, r2);
    ReadRow(c1.(rest := r2), GapText(g2) + more);
    d := c1.(state := Dst, rest := more);
    SkipGap(d.(rest := GapText(g2) + more), g2, more);
  }

  /** The target, its colon, and the layout around it. */
  lemma ReadTarget(c: Config, dst: Option<string>, next: Option<nat>, g3: Gap, g4: Gap, more: string,
                   names: seq<string>)
    returns (d: Config)
    requires c.state == Dst && NamesOf(names, c.tmpl.states)
    requires dst.Some? ==> dst.value in names
    requires next == if dst.None? then None else Some(IndexOf(names, dst.value))
    requires GapOk(g3) && GapOk(g4) && more != "" && more[0] != '/'
    requires c.rest == DstText(dst) + GapText(g3) + ":" + GapText(g4) + more
    ensures d == c.(state := Code, rest := more, eti := c.eti.(dst := next))
    ensures Decode(c) == Decode(d)
  {
    hide Decode, GapText, GapOk, FindState, IndexOf, Ends, Expects;
    var tail := GapText(g4) + more;
    var r1 := GapText(g3) + ":" + tail;
    assert r1 == GapText(g3) + (":" + tail);
    assert c.rest == DstText(dst) + r1;
    EndsSemicolon(tail);
    GapEnds(g3, ":" + tail);
    if dst.Some? {
      FoundByName(names, c.tmpl.states, dst.value);
    }
    ReadDst(c, dst, next, r1);
    var c1 := c.(state := DstColon, rest := r1, eti := c.eti.(dst := next));
    ExpectsSemicolon();
    ReadGapPunctuation(c1, g3, ':', Code, tail);
    d := c1.(state := Code, rest := more);
    SkipGap(d.(rest := tail), g4, more);
  }

  // ------------------------------------------------------------- whole sections

  function BuildStates(t: Template, ds: seq<StateDecl>): Template
    decreases |ds|
  {
    if ds == [] then t else BuildStates(PushState(t, ds[0].name), ds[1..])
  }

  function BuildTrans(t: Template, ts: seq<TransDecl>, names: seq<string>): Template
    requires |names| == |t.states|
    requires forall i :: 0 <= i < |ts| ==> TransOk(ts[i], names)
    decreases |ts|
  {
    if ts == [] then t
    else
      assert TransOk(ts[0], names);
      BuildTrans(AddTrans(t, IndexOf(names, ts[0].src), Meaning(ts[0], names)), ts[1..], names)
  }

  lemma {:induction false} ReadStates(c: Config, ds: seq<StateDecl>, more: string)
    requires c.state == StatesEnter && more != ""
    requires forall i :: 0 <= i < |ds| ==> StateOk(ds[i])
    requires c.rest == StatesText(ds) + more
    ensures Decode(c) == Decode(c.(rest := more, tmpl := BuildStates(c.tmpl, ds)))
    decreases |ds|
  {
    hide Decode, StateText, StateOk, PushState;
    if ds != [] {
      var next := StatesText(ds[1..]) + more;
      assert c.rest == StateText(ds[0]) + next;
      ReadStateDecl(c, ds[0], next);
      var c1 := c.(rest := next, tmpl := PushState(c.tmpl, ds[0].name));
      ReadStates(c1, ds[1..], more);
      assert c1.(rest := more, tmpl := BuildStates(c1.tmpl, ds[1..])) ==
             c.(rest := more, tmpl := BuildStates(c.tmpl, ds));
    } else {
      assert c.rest == more;
    }
  }

  lemma AddTransKeepsNames(names: seq<string>, t: Template, k: nat, tr: TransTemplate)
    requires k < |t.states| && NamesOf(names, t.states)
    ensures NamesOf(names, AddTrans(t, k, tr).states)
  {
  }

  lemma {:induction false} ReadTranses(c: Config, ts: seq<TransDecl>, names: seq<string>, more: string)
    returns (mark: string)
    requires c.state == TransEnter && c.eti == CLEAN && more != ""
    requires NamesOf(names, c.tmpl.states)
    requires forall i :: 0 <= i < |ts| ==> TransOk(ts[i], names)
    requires c.rest == TransesText(ts) + more
    ensures Decode(c) == Decode(Config(TransEnter, more, mark, CLEAN, BuildTrans(c.tmpl, ts, names)))
    decreases |ts|
  {
    hide Decode, TransText, TransOk, AddTrans, NameChars, IndexOf, Meaning;
    if ts == [] {
      assert c.rest == more;
      mark := c.mark;
    } else {
      var next := TransesText(ts[1..]) + more;
      assert c.rest == TransText(ts[0]) + next;
      var m := ReadTransDecl(c, ts[0], names, next);
      var k, tr := IndexOf(names, ts[0].src), Meaning(ts[0], names);
      AddTransKeepsNames(names, c.tmpl, k, tr);
      mark := ReadTranses(Config(TransEnter, next, m, CLEAN, AddTrans(c.tmpl, k, tr)), ts[1..], names, more);
    }
  }

  // ------------------------------------------------------------ the whole program

  lemma {:induction false} BuiltStates(t: Template, ds: seq<StateDecl>)
    ensures var s := BuildStates(t, ds).states;
            && |s| == |t.states| + |ds|
            && BuildStates(t, ds).name == t.name
            && (forall i :: 0 <= i < |t.states| ==> s[i] == t.states[i])
            && (forall i :: 0 <= i < |ds| ==> s[|t.states| + i] == EmptyState(ds[i].name))
    decreases |ds|
  {
    if ds != [] {
      var t1 := PushState(t, ds[0].name);
      BuiltStates(t1, ds[1..]);
      var s := BuildStates(t, ds).states;
      forall i | 0 <= i < |ds| ensures s[|t.states| + i] == EmptyState(ds[i].name) {
        if i > 0 {
          assert ds[1..][i - 1] == ds[i];
        } else {
          assert t1.states[|t.states|] == EmptyState(ds[0].name);
        }
      }
    }
  }

  lemma PushKeepsSummary(name: string, ts: seq<TransTemplate>, t: TransTemplate)
    ensures PushTrans(StateWith(name, ts), t) == StateWith(name, ts + [t])
  {
    CountSnoc(ts, t);
    MaxSnoc(ts, t, NoChannel);
    MaxSnoc(ts, t, Tick);
    MaxSnoc(ts, t, Data);
    MaxSnoc(ts, t, Sign);
  }

  lemma {:induction false} CountSnoc(ts: seq<TransTemplate>, t: TransTemplate)
    ensures CountPlain(ts + [t]) == CountPlain(ts) + if t.channel.NoChannel? then 1 else 0
    decreases |ts|
  {
    if ts != [] {
      assert (ts + [t])[1..] == ts[1..] + [t];
      CountSnoc(ts[1..], t);
    } else {
      assert [] + [t] == [t] && [t][1..] == [];
    }
  }

  lemma {:induction false} MaxSnoc(ts: seq<TransTemplate>, t: TransTemplate, ch: Channel)
    ensures MaxCode(ts + [t], ch) == if t.channel == ch then Max(t.code, MaxCode(ts, ch)) else MaxCode(ts, ch)
    decreases |ts|
  {
    if ts != [] {
      assert (ts + [t])[1..] == ts[1..] + [t];
      MaxSnoc(ts[1..], t, ch);
    } else {
      assert [] + [t] == [t] && [t][1..] == [];
    }
  }

  /** Every state has its name and its list of transitions, and matching counters. */
  predicate Holds(t: Template, names: seq<string>, lists: seq<seq<TransTemplate>>) {
    && |names| == |t.states| == |lists|
    && forall i :: 0 <= i < |names| ==> t.states[i] == StateWith(names[i], lists[i])
  }

  function Appended(lists: seq<seq<TransTemplate>>, ts: seq<TransDecl>, names: seq<string>)
    : (a: seq<seq<TransTemplate>>)
    requires |lists| == |names|
    requires forall i :: 0 <= i < |ts| ==> TransOk(ts[i], names)
    ensures |a| == |lists|
  {
    seq(|lists|, i requires 0 <= i < |lists| => lists[i] + TransOf(ts, names, names[i]))
  }

  lemma AddTransHolds(t: Template, names: seq<string>, lists: seq<seq<TransTemplate>>, k: nat, tr: TransTemplate)
    requires Holds(t, names, lists) && k < |names|
    ensures Holds(AddTrans(t, k, tr), names, lists[k := lists[k] + [tr]])
  {
    hide StateWith, PushTrans;
    PushKeepsSummary(names[k], lists[k], tr);
  }

  lemma SrcDeclared(t: TransDecl, names: seq<string>)
    requires TransOk(t, names)
    ensures t.src in names
  {
  }

  lemma Associates<T>(a: seq<T>, b: seq<T>, c: seq<T>)
    ensures a + (b + c) == a + b + c && a + [] == a
  {
  }

  lemma AppendedAt(list: seq<TransTemplate>, ts: seq<TransDecl>, names: seq<string>, name: string)
    requires ts != [] && TransOk(ts[0], names)
    requires forall i :: 0 <= i < |ts| ==> TransOk(ts[i], names)
    ensures list + TransOf(ts, names, name) ==
            (if ts[0].src == name then list + [Meaning(ts[0], names)] else list) + TransOf(ts[1..], names, name)
  {
    hide TransOk, Meaning;
    var first := if ts[0].src == name then [Meaning(ts[0], names)] else [];
    Associates(list, first, TransOf(ts[1..], names, name));
  }

  lemma AppendedStep(lists: seq<seq<TransTemplate>>, ts: seq<TransDecl>, names: seq<string>)
    requires |lists| == |names| && DistinctNames(names) && ts != []
    requires forall i :: 0 <= i < |ts| ==> TransOk(ts[i], names)
    ensures TransOk(ts[0], names) && ts[0].src in names
    ensures var k := IndexOf(names, ts[0].src);
            Appended(lists[k := lists[k] + [Meaning(ts[0], names)]], ts[1..], names) == Appended(lists, ts, names)
  {
    hide TransOk, Meaning, DistinctNames, TransOf, IndexOf;
    SrcDeclared(ts[0], names);
    var k, tr := IndexOf(names, ts[0].src), Meaning(ts[0], names);
    var next := Appended(lists[k := lists[k] + [tr]], ts[1..], names);
    forall i | 0 <= i < |names| ensures next[i] == Appended(lists, ts, names)[i] {
      OnlyIndex(names, k, i);
      AppendedAt(lists[i], ts, names, names[i]);
    }
  }

  lemma OnlyIndex(names: seq<string>, k: nat, i: nat)
    requires DistinctNames(names) && k < |names| && i < |names|
    ensures names[i] == names[k] <==> i == k
  {
  }

  /** Storing the declarations one by one leaves every state with exactly those
      declared for it, in order, and the right maxima. */
  lemma {:induction false} BuiltTrans(t: Template, ts: seq<TransDecl>, names: seq<string>,
                                      lists: seq<seq<TransTemplate>>)
    requires Holds(t, names, lists) && DistinctNames(names)
    requires forall i :: 0 <= i < |ts| ==> TransOk(ts[i], names)
    ensures BuildTrans(t, ts, names).name == t.name
    ensures Holds(BuildTrans(t, ts, names), names, Appended(lists, ts, names))
    decreases |ts|
  {
    hide TransOk, Meaning, StateWith, DistinctNames, TransOf;
    if ts == [] {
      NothingAppended(lists, names);
    } else {
      AppendedStep(lists, ts, names);
      var k, tr := IndexOf(names, ts[0].src), Meaning(ts[0], names);
      AddTransHolds(t, names, lists, k, tr);
      BuiltTrans(AddTrans(t, k, tr), ts[1..], names, lists[k := lists[k] + [tr]]);
    }
  }

  lemma NothingAppended(lists: seq<seq<TransTemplate>>, names: seq<string>)
    requires |lists| == |names|
    ensures Appended(lists, [], names) == lists
  {
    forall i | 0 <= i < |lists| ensures Appended(lists, [], names)[i] == lists[i] {
      assert lists[i] + TransOf([], names, names[i]) == lists[i];
    }
  }

  /** From the keyword `states` to the end of its section. */
  lemma ReadStatesSection(c: Config, p: Program, more: string)
    requires ProgramOk(p) && c.state == Start && more != ""
    requires c.rest == GapText(p.g0) + "states" + GapText(p.g1) + "{" + StatesText(p.states) + GapText(p.g2) + "}" +
                       GapText(p.g3) + ";" + more
    ensures Decode(c) == Decode(c.(state := Idle, rest := more, tmpl := BuildStates(c.tmpl, p.states)))
  {
    hide Decode, GapText, GapOk, StatesText, BuildStates, StateOk, TransOk;
    var r3 := GapText(p.g3) + ";" + more;
    var r2 := GapText(p.g2) + "}" + r3;
    var r1 := StatesText(p.states) + r2;
    var r0 := GapText(p.g1) + "{" + r1;
    assert c.rest == GapText(p.g0) + ("states" + r0);
    SkipGap(c, p.g0, "states" + r0);
    ReadKeyword(c.(rest := "states" + r0), "states", StatesSection, r0);
    ReadGapPunctuation(c.(state := StatesSection, rest := r0), p.g1, '{', StatesEnter, r1);
    ReadStates(c.(state := StatesEnter, rest := r1), p.states, r2);
    var c1 := c.(state := StatesEnter, rest := r2, tmpl := BuildStates(c.tmpl, p.states));
    ReadGapPunctuation(c1, p.g2, '}', StatesLeave, r3);
    ReadGapPunctuation(c1.(state := StatesLeave, rest := r3), p.g3, ';', Idle, more);
  }

  /** From the keyword `trans` to the end of the text. */
  lemma ReadTransSection(c: Config, p: Program)
    requires ProgramOk(p) && c.state == Idle && c.eti == CLEAN
    requires NamesOf(Names(p), c.tmpl.states)
    requires c.rest == GapText(p.g4) + "trans" + GapText(p.g5) + "{" + TransesText(p.trans) + GapText(p.g6) + "}" +
                       GapText(p.g7) + ";" + GapText(p.g8)
    ensures Decode(c) == Done(BuildTrans(c.tmpl, p.trans, Names(p)))
  {
    hide Decode, GapText, GapOk, TransesText, BuildTrans, StateOk, TransOk, NameChars, Names;
    var r3 := GapText(p.g7) + ";" + GapText(p.g8);
    var r2 := GapText(p.g6) + "}" + r3;
    var r1 := TransesText(p.trans) + r2;
    var r0 := GapText(p.g5) + "{" + r1;
    assert c.rest == GapText(p.g4) + ("trans" + r0);
    SkipGap(c, p.g4, "trans" + r0);
    ReadKeyword(c.(rest := "trans" + r0), "trans", TransSection, r0);
    ReadGapPunctuation(c.(state := TransSection, rest := r0), p.g5, '{', TransEnter, r1);
    var mark := ReadTranses(c.(state := TransEnter, rest := r1), p.trans, Names(p), r2);
    var c1 := Config(TransEnter, r2, mark, CLEAN, BuildTrans(c.tmpl, p.trans, Names(p)));
    ReadGapPunctuation(c1, p.g6, '}', TransLeave, r3);
    ReadEnd(c1.(state := TransLeave, rest := r3), p.g7, p.g8);
  }

  lemma NothingBehind(g7: Gap, g8: Gap)
    requires g8 == []
    ensures GapText(g7) + ";" + GapText(g8) == GapText(g7) + ";"
  {
  }

  lemma ReadEnd(c: Config, g7: Gap, g8: Gap)
    requires c.state == TransLeave && GapOk(g7) && FinalGapOk(g8)
    requires c.rest == GapText(g7) + ";" + GapText(g8)
    ensures Decode(c) == Done(c.tmpl)
  {
    hide Decode, GapText, GapOk, FinalGapOk;
    if g8 == [] {
      NothingBehind(g7, g8);
      SkipGap(c, g7, ";");
      DecodeLast(c.(rest := ";"));
    } else {
      FinalNotEmpty(g8);
      ReadGapPunctuation(c, g7, ';', Idle, GapText(g8));
      EndWithGap(c.(state := Idle, rest := GapText(g8)), g8);
    }
  }

  lemma ProgramNames(t: Template, p: Program)
    requires ProgramOk(p) && t.states == [EmptyState("init"), EmptyState("fini")]
    ensures var s := BuildStates(t, p.states).states;
            && NamesOf(Names(p), s)
            && forall i :: 0 <= i < |s| ==> s[i] == EmptyState(Names(p)[i])
    ensures DistinctNames(Names(p))
  {
    hide GapOk, TransOk;
    BuiltStates(t, p.states);
    forall i | 0 <= i < |Names(p)| ensures NameChars(Names(p)[i]) && Names(p)[i] != "self" {
      if i >= 2 {
        assert StateOk(p.states[i - 2]);
      }
    }
    forall i, j | 0 <= i < j < |Names(p)| ensures Names(p)[i] != Names(p)[j] {
      if j >= 2 {
        assert StateOk(p.states[j - 2]);
      }
    }
  }

  /** Every well-formed program, in any layout, is read as the template it means. */
  lemma ReadBack(name: string, p: Program)
    requires ProgramOk(p)
    ensures DecodeText(NewTemplate(name), ProgramText(p)) == Done(TemplateOf(name, p))
  {
    hide Decode, GapText, GapOk, StatesText, TransesText, BuildStates, BuildTrans, StateOk, TransOk, Names, NameChars,
         TransOf, StateWith;
    var t := NewTemplate(name);
    var names := Names(p);
    var more := GapText(p.g4) + "trans" + GapText(p.g5) + "{" + TransesText(p.trans) + GapText(p.g6) + "}" +
                GapText(p.g7) + ";" + GapText(p.g8);
    var c := Config(Start, ProgramText(p), "", CLEAN, t);
    assert c.rest == GapText(p.g0) + "states" + GapText(p.g1) + "{" + StatesText(p.states) + GapText(p.g2) + "}" +
                     GapText(p.g3) + ";" + more;
    ReadStatesSection(c, p, more);
    ProgramNames(t, p);
    var t1 := BuildStates(t, p.states);
    ReadTransSection(c.(state := Idle, rest := more, tmpl := t1), p);
    BuiltStates(t, p.states);
    BuiltProgram(t1, p);
  }

  lemma BuiltProgram(t: Template, p: Program)
    requires ProgramOk(p)
    requires |t.states| == |Names(p)| && DistinctNames(Names(p))
    requires forall i :: 0 <= i < |t.states| ==> t.states[i] == EmptyState(Names(p)[i])
    ensures BuildTrans(t, p.trans, Names(p)) == TemplateOf(t.name, p)
  {
    var names := Names(p);
    var none := seq(|names|, i => []);
    assert Holds(t, names, none);
    hide GapOk, TransOk, StateOk, Meaning, Names, DistinctNames, StateWith, TransOf;
    BuiltTrans(t, p.trans, names, none);
    var built := BuildTrans(t, p.trans, names);
    forall i | 0 <= i < |names| ensures built.states[i] == TemplateOf(t.name, p).states[i] {
      assert none[i] + TransOf(p.trans, names, names[i]) == TransOf(p.trans, names, names[i]);
    }
  }
}
