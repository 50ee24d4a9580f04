/** A program whose declarations name states that are not declared. */
module UnknownNames {
  import opened Text
  import opened Template
  import opened Decoder
  import opened Surface
  import opened Drafts
  import opened ReadTokens
  import opened ReadTrans
  import opened Refusals

  predicate StateLaidOut(d: StateDecl) {
    GapOk(d.before) && NameChars(d.name) && |d.name| < 64 && GapOk(d.after)
  }

  predicate TransLaidOut(t: TransDecl) {
    && NameChars(t.src) && (t.dst.Some? ==> NameChars(t.dst.value))
    && GapOk(t.before) && GapOk(t.g1) && GapOk(t.g2) && GapOk(t.g3) && GapOk(t.g4)
    && TriggerOk(t.on)
  }

  /** A program that is well-formed but for the names it declares and uses. */
  predicate LaidOut(p: Program) {
    && GapOk(p.g0) && GapOk(p.g1) && GapOk(p.g2) && GapOk(p.g3) && GapOk(p.g4)
    && GapOk(p.g5) && GapOk(p.g6) && GapOk(p.g7) && FinalGapOk(p.g8)
    && (forall i :: 0 <= i < |p.states| ==> StateLaidOut(p.states[i]))
    && (forall i :: 0 <= i < |p.trans| ==> TransLaidOut(p.trans[i]))
  }

  /** Whether every name that a program declares or uses means something. */
  predicate NamesGood(p: Program) {
    && (forall i :: 0 <= i < |p.states| ==> p.states[i].name != "init" && p.states[i].name != "fini")
    && (forall i :: 0 <= i < |p.trans| ==> p.trans[i].src in Names(p))
    && forall i :: 0 <= i < |p.trans| && p.trans[i].dst.Some? && p.trans[i].dst.value != "self" ==>
         p.trans[i].dst.value in Names(p)
  }

  // ------------------------------------------------------- a program as a draft

  function OfState(d: StateDecl): StateDraft {
    StateDraft(d.before, d.name, d.after, ';')
  }

  function OfPeriod(p: PeriodDecl): PeriodDraft {
    match p
    case NoPeriod => Absent
    case PeriodDecl(b, period, a) => Given(b, PeriodWord(period), a)
  }

  function OfTrigger(l: Trigger): TriggerDraft {
    match l
    case PlainTrigger(n, a) => PlainDraft(n, a)
    case TickTrigger(n, b, v, u, blanks, p) => TickDraft(n, "", b, v, UnitText(u), blanks, OfPeriod(p))
    case DataTrigger(n, b, e, a) => DataDraft(n, "", b, EventWord(e), a)
    case SignTrigger(n, b, s, a) => SignDraft(n, "", b, "SIG" + SignalWord(s), a)
  }

  function OfTrans(t: TransDecl): TransDraft {
    TransDraft(t.before, t.src, t.g1, "->", t.g2, DstText(t.dst), t.g3, ':', t.g4, OfTrigger(t.on), ';')
  }

  function DraftOf(p: Program): Draft {
    Draft(p.g0, "states", p.g1, "", seq(|p.states|, i requires 0 <= i < |p.states| => OfState(p.states[i])), p.g2, p.g3,
          ';', p.g4, "trans", p.g5, '{', seq(|p.trans|, i requires 0 <= i < |p.trans| => OfTrans(p.trans[i])), p.g6,
          p.g7, ';', p.g8)
  }

  lemma NothingSkipped(name: string)
    ensures name + "" == name
  {
  }

  lemma SameTriggerText(l: Trigger)
    ensures TriggerDraftText(OfTrigger(l)) == TriggerText(l)
  {
    hide GapText, Decimal, UnitText, PeriodWord, EventWord, SignalWord;
    match l
    case PlainTrigger(_, _) =>
    case TickTrigger(n, _, _, _, _, p) =>
      NothingSkipped("tick_" + Decimal(n));
    case DataTrigger(n, _, _, _) =>
      NothingSkipped("data_" + Decimal(n));
    case SignTrigger(n, b, s, a) =>
      NothingSkipped("sign_" + Decimal(n));
      SignalText(n, b, s, a);
  }

  lemma SignalText(n: nat, b: Gap, s: Signal, a: Gap)
    ensures "sign_" + Decimal(n) + ":" + GapText(b) + ("SIG" + SignalWord(s)) + GapText(a) ==
            TriggerText(SignTrigger(n, b, s, a))
  {
    hide GapText, Decimal, SignalWord;
  }

  lemma {:induction false} SameStatesText(ds: seq<StateDecl>, es: seq<StateDraft>)
    requires |es| == |ds| && forall i :: 0 <= i < |ds| ==> es[i] == OfState(ds[i])
    ensures StateDraftsText(es) == StatesText(ds)
    decreases |ds|
  {
    if ds != [] {
      SameStatesText(ds[1..], es[1..]);
    }
  }

  lemma {:induction false} SameTransText(ts: seq<TransDecl>, es: seq<TransDraft>)
    requires |es| == |ts| && forall i :: 0 <= i < |ts| ==> es[i] == OfTrans(ts[i])
    ensures TransDraftsText(es) == TransesText(ts)
    decreases |ts|
  {
    hide TriggerText, TriggerDraftText, GapText;
    if ts != [] {
      SameTriggerText(ts[0].on);
      SameTransText(ts[1..], es[1..]);
    }
  }

  lemma SameText(p: Program)
    ensures DraftText(DraftOf(p)) == ProgramText(p)
  {
    hide StatesText, TransesText, StateDraftsText, TransDraftsText, GapText, OfTrans, OfState;
    SameStatesText(p.states, DraftOf(p).states);
    SameTransText(p.trans, DraftOf(p).trans);
  }

  // ----------------------------------------------------------------- its parts

  lemma WordChars(p: PeriodDecl, e: Event, s: Signal)
    ensures forall i :: 0 <= i < |EventWord(e)| ==> IsNameChar(EventWord(e)[i])
    ensures forall i :: 0 <= i < |"SIG" + SignalWord(s)| ==> IsNameChar(("SIG" + SignalWord(s))[i])
    ensures p.PeriodDecl? ==> forall i :: 0 <= i < |PeriodWord(p.period)| ==> IsNameChar(PeriodWord(p.period)[i])
    ensures EventWord(e) != "" && (p.PeriodDecl? ==> PeriodWord(p.period) != "")
  {
    hide EventWord, SignalWord, IsNameChar, IsWordChar, IsSignalChar;
    EventFlags(e, 0);
    NamesOfWords();
    forall i | 0 <= i < |"SIG" + SignalWord(s)| ensures IsNameChar(("SIG" + SignalWord(s))[i]) {
      SignalLetters(s, i);
    }
    if p.PeriodDecl? {
      PeriodChars(p.period);
    }
  }

  lemma PeriodChars(p: Period)
    ensures forall i :: 0 <= i < |PeriodWord(p)| ==> IsWordChar(PeriodWord(p)[i])
  {
  }

  lemma UnitChars(u: Unit)
    ensures UnitShape(UnitText(u))
  {
  }

  lemma TriggerFits(l: Trigger)
    requires TriggerOk(l)
    ensures TriggerShape(OfTrigger(l)) && TriggerGood(OfTrigger(l))
  {
    hide GapOk, EventWord, SignalWord, UnitText, IsNameChar;
    match l
    case PlainTrigger(_, _) =>
    case TickTrigger(_, _, v, u, _, p) =>
      WordChars(p, In, INT);
      UnitChars(u);
      UnitTexts(v, u);
    case DataTrigger(_, _, e, _) =>
      WordChars(NoPeriod, e, INT);
      EventWordGood(e);
    case SignTrigger(_, _, s, _) => WordChars(NoPeriod, In, s);
  }

  lemma EventWordGood(e: Event)
    ensures EventGood(EventWord(e))
  {
  }

  lemma UnitTexts(v: nat, u: Unit)
    requires 0 < v < 0x8000_0000 && IntervalMs(v, u) < 0x1_0000_0000
    ensures TickGood(v, UnitText(u))
  {
  }

  lemma SelfChars()
    ensures NameChars("self")
  {
  }

  lemma TransFits(t: TransDecl, names: seq<string>)
    requires TransLaidOut(t)
    ensures TransShape(OfTrans(t))
    ensures TransGood(OfTrans(t), names) <==>
            t.src in names && (t.dst.Some? && t.dst.value != "self" ==> t.dst.value in names)
  {
    hide GapOk, TriggerOk, TriggerShape, TriggerGood, OfTrigger, IsNameChar;
    TriggerFits(t.on);
    SelfChars();
    Signs();
  }

  lemma Signs()
    ensures Separator('-') && Separator(':') && Separator(';') && Separator('{')
  {
  }

  lemma {:induction false} DeclaredNames(ds: seq<StateDecl>, es: seq<StateDraft>)
    requires |es| == |ds| && forall i :: 0 <= i < |ds| ==> es[i] == OfState(ds[i]) && ds[i].name != ""
    ensures Declared(es) == seq(|ds|, i requires 0 <= i < |ds| => ds[i].name)
    decreases |ds|
  {
    if ds != [] {
      DeclaredNames(ds[1..], es[1..]);
    }
  }

  lemma LaidOutShape(p: Program)
    requires LaidOut(p)
    ensures DraftShape(DraftOf(p)) && DraftNames(DraftOf(p)) == Names(p)
  {
    hide GapOk, FinalGapOk, TransLaidOut, TransShape, OfTrans, IsNameChar, Separator;
    var d := DraftOf(p);
    Signs();
    Keywords();
    forall i | 0 <= i < |p.trans| ensures TransShape(d.trans[i]) {
      TransFits(p.trans[i], []);
    }
    forall i | 0 <= i < |p.states| ensures StateShape(d.states[i]) && p.states[i].name != "" {
      assert StateLaidOut(p.states[i]);
    }
    DeclaredNames(p.states, d.states);
  }

  lemma Keywords()
    ensures Keyword("states") && Keyword("trans")
  {
    assert "states"[0] != "trans"[0];
  }

  lemma LaidOutGood(p: Program)
    requires LaidOut(p) && DraftNames(DraftOf(p)) == Names(p)
    ensures DraftGood(DraftOf(p)) <==> NamesGood(p)
  {
    hide GapOk, FinalGapOk, TransLaidOut, TransGood, OfTrans, IsNameChar, Names, StateLaidOut;
    var d := DraftOf(p);
    forall i | 0 <= i < |p.trans|
      ensures TransGood(d.trans[i], Names(p)) <==>
              p.trans[i].src in Names(p) &&
              (p.trans[i].dst.Some? && p.trans[i].dst.value != "self" ==> p.trans[i].dst.value in Names(p)) {
      TransFits(p.trans[i], Names(p));
    }
    assert forall i :: 0 <= i < |p.states| ==> d.states[i].name == p.states[i].name && d.states[i].close == ';';
    assert forall i :: 0 <= i < |p.trans| ==>
      (TransGood(d.trans[i], Names(p)) <==>
       p.trans[i].src in Names(p) &&
       (p.trans[i].dst.Some? && p.trans[i].dst.value != "self" ==> p.trans[i].dst.value in Names(p)));
  }

  /** A program whose layout and triggers are right is parsed exactly if it declares
      neither init nor fini and every source and target is declared, and it is
      refused otherwise. */
  lemma NamesDecide(name: string, p: Program)
    requires LaidOut(p)
    ensures NamesGood(p) <==> DecodeText(NewTemplate(name), ProgramText(p)).Done?
    ensures !NamesGood(p) <==> DecodeText(NewTemplate(name), ProgramText(p)).Fail?
  {
    hide *;
    LaidOutShape(p);
    LaidOutGood(p);
    SameText(p);
    DraftDecides(name, DraftOf(p));
  }
}
