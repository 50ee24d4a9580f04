/** From the text of a program to what its machine does with a message. */
module EndToEnd {
  import opened Wrappers
  import opened Text
  import opened Template
  import opened Decoder
  import opened Surface
  import opened Loader
  import opened Compile
  import opened Promises
  import D = Dispatcher
  import RoundTrip

  /** The last transition declared for the state and slot. */
  function LastDeclared(ts: seq<TransDecl>, names: seq<string>, state: string, slot: Slot): (d: Option<TransDecl>)
    requires forall i :: 0 <= i < |ts| ==> TransOk(ts[i], names)
    ensures d.Some? ==> d.value in ts && TransOk(d.value, names) && d.value.src == state &&
                        SlotOf(Meaning(d.value, names)) == Some(slot)
    decreases |ts|
  {
    if ts == [] then None
    else
      match LastDeclared(ts[1..], names, state, slot)
      case Some(d) => Some(d)
      case None =>
        assert TransOk(ts[0], names);
        if ts[0].src == state && SlotOf(Meaning(ts[0], names)) == Some(slot) then Some(ts[0]) else None
  }

  function SlotFor(src: D.Source): Option<Slot> {
    match src
    case Message(c) => Some(CodeSlot(c))
    case IoEvent(e) =>
      if e == POLLIN then Some(InSlot) else if e == POLLOUT then Some(OutSlot)
      else if e == POLLERR || e == POLLHUP then Some(ErrSlot) else None
    case _ => None
  }

  lemma {:induction false} LastInState(ts: seq<TransDecl>, names: seq<string>, state: string, slot: Slot)
    requires forall i :: 0 <= i < |ts| ==> TransOk(ts[i], names)
    ensures LastFor(TransOf(ts, names, state), slot) ==
            match LastDeclared(ts, names, state, slot) case Some(d) => Some(Meaning(d, names)) case None => None
    decreases |ts|
  {
    assert ts != [] ==> TransOk(ts[0], names);
    hide TransOk, Meaning, LastFor;
    if ts != [] {
      LastInState(ts[1..], names, state, slot);
      var rest := TransOf(ts[1..], names, state);
      if ts[0].src == state {
        LastForCons([Meaning(ts[0], names)] + rest, slot);
        assert ([Meaning(ts[0], names)] + rest)[1..] == rest;
      } else {
        assert [] + rest == rest;
      }
    } else {
      NothingLast(slot);
    }
  }

  lemma MeaningSlot(d: TransDecl, names: seq<string>, src: D.Source, slot: Slot)
    requires TransOk(d, names) && SlotFor(src) == Some(slot)
    ensures SlotOf(Meaning(d, names)) == Some(slot) <==> Hears(d.on, src)
  {
    hide GapOk, SignalNo;
  }

  lemma {:induction false} DeclaredSnoc(ts: seq<TransDecl>, d: TransDecl, names: seq<string>, state: string, slot: Slot)
    requires TransOk(d, names) && forall i :: 0 <= i < |ts| ==> TransOk(ts[i], names)
    ensures LastDeclared(ts + [d], names, state, slot) ==
            if d.src == state && SlotOf(Meaning(d, names)) == Some(slot) then Some(d)
            else LastDeclared(ts, names, state, slot)
    decreases |ts|
  {
    hide TransOk, Meaning, SlotOf;
    if ts == [] {
      assert ts + [d] == [d] && [d][1..] == [];
    } else {
      assert (ts + [d])[1..] == ts[1..] + [d] && (ts + [d])[0] == ts[0];
      DeclaredSnoc(ts[1..], d, names, state, slot);
    }
  }

  /** The last declaration that waits for an event is the last one for its slot. */
  lemma {:induction false} HearingIsDeclared(ts: seq<TransDecl>, names: seq<string>, state: string, src: D.Source,
                                             slot: Slot)
    requires SlotFor(src) == Some(slot) && forall i :: 0 <= i < |ts| ==> TransOk(ts[i], names)
    ensures LastHearing(ts, state, src) == LastDeclared(ts, names, state, slot)
    decreases |ts|
  {
    hide TransOk, Meaning, SlotOf, Hears, SlotFor;
    if ts != [] {
      var n := |ts| - 1;
      assert ts == ts[..n] + [ts[n]];
      HearingIsDeclared(ts[..n], names, state, src, slot);
      DeclaredSnoc(ts[..n], ts[n], names, state, slot);
      MeaningSlot(ts[n], names, src, slot);
    }
  }

  lemma NothingLast(slot: Slot)
    ensures LastFor([], slot) == None
  {
  }

  lemma {:induction false} TransOfMeans(ts: seq<TransDecl>, names: seq<string>, state: string, k: nat)
    requires forall i :: 0 <= i < |ts| ==> TransOk(ts[i], names)
    requires k < |TransOf(ts, names, state)|
    ensures exists i :: 0 <= i < |ts| && TransOf(ts, names, state)[k] == Meaning(ts[i], names)
    decreases |ts|
  {
    assert TransOk(ts[0], names);
    hide TransOk, Meaning;
    var n := if ts[0].src == state then 1 else 0;
    if k < n {
      assert TransOf(ts, names, state)[k] == Meaning(ts[0], names);
    } else {
      TransOfMeans(ts[1..], names, state, k - n);
      var i :| 0 <= i < |ts[1..]| && TransOf(ts[1..], names, state)[k - n] == Meaning(ts[1..][i], names);
      assert ts[1..][i] == ts[i + 1];
      assert TransOf(ts, names, state)[k] == Meaning(ts[i + 1], names);
    }
  }

  lemma MeaningConsistent(t: TransDecl, names: seq<string>)
    requires TransOk(t, names)
    ensures var m := Meaning(t, names);
            && (m.channel.Data? ==> m.data in {POLLIN, POLLOUT, POLLERR, POLLHUP})
            && (m.next.Some? ==> m.next.value < |names|)
  {
    hide GapOk, SignalNo;
  }

  /** What the parser builds is what the loader relies on. */
  lemma ParsedIsConsistent(name: string, p: Program)
    requires ProgramOk(p)
    ensures Consistent(TemplateOf(name, p))
  {
    var names := Names(p);
    var t := TemplateOf(name, p);
    RoundTrip.ProgramNames(NewTemplate(name), p);
    forall i, k | 0 <= i < |t.states| && 0 <= k < |t.states[i].trans|
      ensures TransConsistent(t.states[i].trans[k], t.states[i], |t.states|)
    {
      hide TransOk, Meaning, ProgramOk;
      TransOfMeans(p.trans, names, names[i], k);
      var j :| 0 <= j < |p.trans| && TransOf(p.trans, names, names[i])[k] == Meaning(p.trans[j], names);
      MeaningConsistent(p.trans[j], names);
    }
    assert DistinctNames(names);
  }

  // ------------------------------------------------------- a message's effect

  /** The machine runs the loaded tables of program p. */
  ghost predicate Runs(m: D.Model, machine: string, p: Program, tools: Tools)
    requires ProgramOk(p)
  {
    var t := TemplateOf(machine, p);
    && m.current < |m.states| == |t.states|
    && forall i :: 0 <= i < |m.states| ==> LoadState(t, i, tools) == Some(m.states[i])
  }

  lemma CompiledTarget(machine: string, s: StateTemplate, tr: TransTemplate, n: nat, tools: Tools)
    requires TransConsistent(tr, s, n)
    ensures D.TransOk(Compiled(machine, s.name, tr, tools), n)
  {
    hide ActionName;
  }

  lemma OnChannelConsistent(trs: seq<TransTemplate>, ch: Channel, s: StateTemplate, n: nat)
    requires forall k :: 0 <= k < |trs| ==> TransConsistent(trs[k], s, n)
    ensures forall k :: 0 <= k < |OnChannel(trs, ch)| ==> TransConsistent(OnChannel(trs, ch)[k], s, n)
  {
  }

  lemma SlotTarget(t: Template, i: nat, tools: Tools, s: LoadedState, slot: Slot)
    requires Consistent(t) && i < |t.states| && KeepsMeaning(t, i, tools, s)
    ensures Slotted(s, slot).Some? ==> D.TransOk(Slotted(s, slot).value, |t.states|)
  {
    var st := t.states[i];
    assert StateConsistent(st, |t.states|);
    hide Compiled, CompiledAll, OnChannel, ActionName, LookUp, EnterName, LeaveName;
    match LastFor(st.trans, slot)
    case None =>
    case Some(tr) => CompiledTarget(t.name, st, tr, |t.states|, tools);
  }

  /** Loaded tables only have targets that exist. */
  lemma LoadedTargets(t: Template, i: nat, tools: Tools, s: LoadedState)
    requires Consistent(t) && i < |t.states| && KeepsMeaning(t, i, tools, s)
    ensures D.StateOk(s, |t.states|)
  {
    var st, n := t.states[i], |t.states|;
    assert StateConsistent(st, n);
    OnChannelConsistent(st.trans, Tick, st, n);
    OnChannelConsistent(st.trans, Sign, st, n);
    var ticks, signs := OnChannel(st.trans, Tick), OnChannel(st.trans, Sign);
    assert |s.tick| == |ticks| && |s.sign| == |signs|;
    forall k | 0 <= k < |s.tick| ensures D.TransOk(s.tick[k], n) {
      CompiledTarget(t.name, st, ticks[k], n, tools);
    }
    forall k | 0 <= k < |s.sign| ensures D.TransOk(s.sign[k], n) {
      CompiledTarget(t.name, st, signs[k], n, tools);
    }
    hide Compiled, CompiledAll, OnChannel, KeepsMeaning, Consistent;
    forall slot: Slot ensures Slotted(s, slot).Some? ==> D.TransOk(Slotted(s, slot).value, n) {
      SlotTarget(t, i, tools, s, slot);
    }
    forall c | 0 <= c < |s.trans| ensures D.TransOk(s.trans[c], n) {
      assert Slotted(s, CodeSlot(c)) == Some(s.trans[c]);
    }
    assert Slotted(s, InSlot) == Some(s.pollin) && Slotted(s, OutSlot) == Some(s.pollout);
    assert Slotted(s, ErrSlot) == Some(s.pollerr);
  }

  // ---------------------------------------------------------- timers and signals

  lemma MeaningChannel(t: TransDecl, names: seq<string>)
    requires TransOk(t, names)
    ensures Meaning(t, names).channel == ChannelOf(t.on) && Meaning(t, names).code == t.on.code
  {
  }

  lemma OnChannelAppend(a: seq<TransTemplate>, b: seq<TransTemplate>, ch: Channel)
    requires |a| <= 1
    ensures OnChannel(a + b, ch) == (if a != [] && a[0].channel == ch then a else []) + OnChannel(b, ch)
  {
    if a == [] {
      assert a + b == b;
    } else {
      assert (a + b)[1..] == b && a == [a[0]];
    }
  }

  lemma DeclaredOnSplit(ts: seq<TransDecl>, state: string, ch: Channel)
    requires ts != []
    ensures DeclaredOn(ts, state, ch) ==
            (if ts[0].src == state && ChannelOf(ts[0].on) == ch then [ts[0]] else []) + DeclaredOn(ts[1..], state, ch)
  {
  }

  lemma OnChannelSplit(ts: seq<TransDecl>, names: seq<string>, state: string, ch: Channel)
    requires ts != [] && forall i :: 0 <= i < |ts| ==> TransOk(ts[i], names)
    ensures TransOk(ts[0], names)
    ensures OnChannel(TransOf(ts, names, state), ch) ==
            (if ts[0].src == state && ChannelOf(ts[0].on) == ch then [Meaning(ts[0], names)] else []) +
            OnChannel(TransOf(ts[1..], names, state), ch)
  {
    hide TransOk, Meaning, OnChannel, ChannelOf;
    MeaningChannel(ts[0], names);
    var first := if ts[0].src == state then [Meaning(ts[0], names)] else [];
    OnChannelAppend(first, TransOf(ts[1..], names, state), ch);
  }

  /** The k-th timer of the template's state is the k-th declared in the text. */
  lemma {:induction false} OnChannelDeclared(ts: seq<TransDecl>, names: seq<string>, state: string, ch: Channel)
    requires forall i :: 0 <= i < |ts| ==> TransOk(ts[i], names)
    ensures var ds, ms := DeclaredOn(ts, state, ch), OnChannel(TransOf(ts, names, state), ch);
            |ms| == |ds| && forall k :: 0 <= k < |ds| ==> TransOk(ds[k], names) && ms[k] == Meaning(ds[k], names)
    decreases |ts|
  {
    hide TransOk, Meaning, OnChannel, ChannelOf, DeclaredOn, TransOf;
    if ts == [] {
      NothingOn(names, state, ch);
    } else {
      OnChannelDeclared(ts[1..], names, state, ch);
      OnChannelSplit(ts, names, state, ch);
      DeclaredOnSplit(ts, state, ch);
    }
  }

  lemma NothingOn(names: seq<string>, state: string, ch: Channel)
    ensures OnChannel(TransOf([], names, state), ch) == [] && DeclaredOn([], state, ch) == []
  {
  }

  // ------------------------------------------------------------------ the proof

  lemma SameFunctions(machine: string, d: TransDecl, names: seq<string>)
    requires TransOk(d, names)
    ensures ActionName(machine, d.src, Meaning(d, names)) == Function(machine, d)
  {
    hide Decimal;
    assert ToInt(d.on.code) == d.on.code;
    MeaningChannel(d, names);
  }

  /** What the loaded tables of state k are in terms of the text. */
  ghost predicate Loaded(p: Program, machine: string, tools: Tools, k: nat, s: LoadedState)
    requires ProgramOk(p) && k < |Names(p)|
  {
    var name := Names(p)[k];
    var enter, leave := machine + "_" + name + "_enter", machine + "_" + name + "_leave";
    && s.name == name
    && enter in tools && s.enter == tools[enter]
    && s.leave == (if leave in tools then Some(tools[leave]) else None)
    && |s.tick| == Timers(p, k) && |s.sign| == Signals(p, k) && D.KnownSlots(s) == TimerSlots(p, k)
  }

  lemma StateLoaded(p: Program, machine: string, tools: Tools, k: nat, s: LoadedState)
    requires ProgramOk(p) && k < |Names(p)| == |TemplateOf(machine, p).states|
    requires KeepsMeaning(TemplateOf(machine, p), k, tools, s)
    ensures Loaded(p, machine, tools, k, s)
  {
    var t, names := TemplateOf(machine, p), Names(p);
    assert t.states[k] == StateWith(names[k], TransOf(p.trans, names, names[k]));
    hide ProgramOk, DeclaredOn, TransOf, LastFor, Compiled, Slotted, MaxCode, OnChannel, TransOk, Meaning;
    OnChannelDeclared(p.trans, names, names[k], Tick);
    OnChannelDeclared(p.trans, names, names[k], Sign);
  }

  /** All states of a machine that runs the program. */
  ghost predicate AllLoaded(m: D.Model, machine: string, p: Program, tools: Tools)
    requires ProgramOk(p)
  {
    && m.current < |m.states| == |Names(p)|
    && forall i :: 0 <= i < |m.states| ==> Loaded(p, machine, tools, i, m.states[i])
  }

  lemma TablesLoaded(m: D.Model, machine: string, p: Program, tools: Tools)
    requires ProgramOk(p) && Runs(m, machine, p, tools)
    ensures AllLoaded(m, machine, p, tools) && D.ModelOk(m)
    ensures |m.states| == |TemplateOf(machine, p).states|
    ensures forall i :: 0 <= i < |m.states| ==>
              KeepsMeaning(TemplateOf(machine, p), i, tools, m.states[i]) && Found(TemplateOf(machine, p), i, tools)
  {
    var t := TemplateOf(machine, p);
    ParsedIsConsistent(machine, p);
    hide KeepsMeaning, D.StateOk, Found, Loaded, ProgramOk, TransOf, StateWith, Consistent, LoadState;
    forall i | 0 <= i < |m.states|
      ensures KeepsMeaning(t, i, tools, m.states[i]) && D.StateOk(m.states[i], |m.states|) && Found(t, i, tools)
      ensures Loaded(p, machine, tools, i, m.states[i])
    {
      LoadKeepsMeaning(t, i, tools);
      LoadedTargets(t, i, tools, m.states[i]);
      StateLoaded(p, machine, tools, i, m.states[i]);
    }
  }

  lemma StopsCleanly(p: Program, machine: string, tools: Tools, k: nat, s: LoadedState, a: D.Answers)
    requires ProgramOk(p) && k < |Names(p)| && Loaded(p, machine, tools, k, s)
    ensures var r := D.StopOutcome(s, a.stopFails, a.maskFails);
            r == if Stops(p, k, a) then D.Returned(0) else if Refused(p, k, a) then D.Returned(1) else D.BadStop
  {
    hide ProgramOk, Names, Timers, Signals, TimerSlots, D.KnownSlots;
  }

  lemma MooreMoves(p: Program, machine: string, tools: Tools, m: D.Model, k: nat, a: D.Answers)
    requires ProgramOk(p) && AllLoaded(m, machine, p, tools) && k < |Names(p)|
    ensures Moves(p, machine, tools, m, k, a, D.Moore(m, k, a))
  {
    var s, s' := m.states[m.current], m.states[k];
    assert Loaded(p, machine, tools, m.current, s) && Loaded(p, machine, tools, k, s');
    StopsCleanly(p, machine, tools, m.current, s, a);
    hide ProgramOk, Names, Timers, Signals, TimerSlots, D.KnownSlots, Stops, Refused, D.StopOutcome,
         D.TimersOf, AllLoaded;
    assert s'.sign != [] <==> Signals(p, k) > 0;
  }

  /** A table entry that was compiled from a declaration does what it promises. */
  lemma CompiledKeepsPromise(p: Program, machine: string, tools: Tools, m: D.Model, d: TransDecl, a: D.Answers)
    requires ProgramOk(p) && AllLoaded(m, machine, p, tools) && TransOk(d, Names(p))
    requires d.dst.None? ==> ActionName(machine, d.src, Meaning(d, Names(p))) in tools
    ensures var tr := Compiled(machine, d.src, Meaning(d, Names(p)), tools);
            && (tr.next.Some? ==> tr.next.value < |m.states|)
            && Promised(Some(d), m, machine, p, tools, a,
                        if tr.next.None? then D.Mealy(m, tr, a) else D.Moore(m, tr.next.value, a))
  {
    MeaningNext(p, d);
    SameFunctions(machine, d, Names(p));
    hide ProgramOk, AllLoaded, ActionName, Function, Meaning, TransOk, Moves, D.Moore;
    if d.dst.Some? {
      DstDeclared(d, Names(p));
      MooreMoves(p, machine, tools, m, IndexOf(Names(p), d.dst.value), a);
    }
  }

  lemma DstDeclared(d: TransDecl, names: seq<string>)
    requires TransOk(d, names) && d.dst.Some?
    ensures d.dst.value in names
  {
  }

  lemma StateOfProgram(machine: string, p: Program, k: nat)
    requires ProgramOk(p) && k < |Names(p)|
    ensures var t := TemplateOf(machine, p);
            && t.name == machine && |t.states| == |Names(p)|
            && (forall i :: 0 <= i < |p.trans| ==> TransOk(p.trans[i], Names(p)))
            && t.states[k] == StateWith(Names(p)[k], TransOf(p.trans, Names(p), Names(p)[k]))
  {
    hide TransOk, Names, StateOk, StateWith;
  }

  lemma TransesOk(p: Program)
    requires ProgramOk(p)
    ensures forall i :: 0 <= i < |p.trans| ==> TransOk(p.trans[i], Names(p))
  {
    hide TransOk, Names, StateOk;
  }

  lemma SelectedSlotted(m: D.Model, src: D.Source, slot: Slot)
    requires D.ModelOk(m) && D.SourceOk(m, src) && SlotFor(src) == Some(slot)
    ensures D.Selected(m, src) == Slotted(m.states[m.current], slot)
  {
  }

  /** The entry the dispatcher selects is the one of the deciding declaration. */
  lemma SlotSelected(p: Program, machine: string, tools: Tools, m: D.Model, src: D.Source, slot: Slot)
    requires ProgramOk(p) && m.current < |m.states| == |Names(p)| == |TemplateOf(machine, p).states| && D.ModelOk(m)
    requires D.SourceOk(m, src) && SlotFor(src) == Some(slot)
    requires KeepsMeaning(TemplateOf(machine, p), m.current, tools, m.states[m.current])
    requires Found(TemplateOf(machine, p), m.current, tools)
    ensures match LastHearing(p.trans, Names(p)[m.current], src)
            case None => D.Selected(m, src) in {None, Some(EMPTY)}
            case Some(d) =>
              && D.Selected(m, src) == Some(Compiled(machine, d.src, Meaning(d, Names(p)), tools))
              && (d.dst.None? ==> ActionName(machine, d.src, Meaning(d, Names(p))) in tools)
  {
    hide D.ModelOk, D.Selected, ActionName, ProgramOk, LastDeclared, LastHearing, Hears, Meaning,
         TransOf, TransOk, Compiled, Slotted,
         LastFor, OnChannel, TemplateOf, SlotFor;
    var t, names := TemplateOf(machine, p), Names(p);
    var st := t.states[m.current];
    StateOfProgram(machine, p, m.current);
    SelectedSlotted(m, src, slot);
    TransesOk(p);
    LastInState(p.trans, names, names[m.current], slot);
    HearingIsDeclared(p.trans, names, names[m.current], src, slot);
    match LastHearing(p.trans, names[m.current], src)
    case None =>
    case Some(d) =>
      MeaningNext(p, d);
      assert Meaning(d, names) in st.trans;
  }

  /** The entry of a timer or signal is the one of its declaration, with its interval
      and period. */
  lemma ChannelSelected(p: Program, machine: string, tools: Tools, s: LoadedState, i: nat, ch: Channel, k: nat)
    requires ProgramOk(p) && i < |Names(p)| == |TemplateOf(machine, p).states| && ch in {Tick, Sign}
    requires KeepsMeaning(TemplateOf(machine, p), i, tools, s)
    requires Found(TemplateOf(machine, p), i, tools)
    requires k < |DeclaredOn(p.trans, Names(p)[i], ch)|
    ensures var d := DeclaredOn(p.trans, Names(p)[i], ch)[k];
            && TransOk(d, Names(p))
            && k < |if ch == Tick then s.tick else s.sign|
            && (if ch == Tick then s.tick else s.sign)[k] == Compiled(machine, d.src, Meaning(d, Names(p)), tools)
            && (d.dst.None? ==> ActionName(machine, d.src, Meaning(d, Names(p))) in tools)
  {
    hide ActionName, ProgramOk, Meaning, TransOf, TransOk, Compiled, Slotted, LastFor, OnChannel, DeclaredOn,
         TemplateOf;
    var t, names := TemplateOf(machine, p), Names(p);
    var st := t.states[i];
    StateOfProgram(machine, p, i);
    OnChannelDeclared(p.trans, names, names[i], ch);
    var d := DeclaredOn(p.trans, names[i], ch)[k];
    MeaningNext(p, d);
  }

  /** The deciding declaration as an entry of the template. */
  lemma DecidingMeans(p: Program, k: nat, src: D.Source)
    requires ProgramOk(p) && k < |Names(p)| && Declares(p, src)
    ensures forall i :: 0 <= i < |p.trans| ==> TransOk(p.trans[i], Names(p))
    ensures SlotFor(src).Some? ==>
              LastFor(TransOf(p.trans, Names(p), Names(p)[k]), SlotFor(src).value) ==
              match Deciding(p, k, src) case Some(d) => Some(Meaning(d, Names(p))) case None => None
    ensures src.TimerEvent? ==>
              var ms := OnChannel(TransOf(p.trans, Names(p), Names(p)[src.timer.0]), Tick);
              && |ms| == Timers(p, src.timer.0) && Deciding(p, k, src).Some?
              && ms[src.timer.1] == Meaning(Deciding(p, k, src).value, Names(p))
    ensures src.SignalEvent? ==>
              var ms := OnChannel(TransOf(p.trans, Names(p), Names(p)[src.signal.0]), Sign);
              && |ms| == Signals(p, src.signal.0) && Deciding(p, k, src).Some?
              && ms[src.signal.1] == Meaning(Deciding(p, k, src).value, Names(p))
  {
    hide ProgramOk, TransOf, LastFor, OnChannel, Meaning, TransOk, DeclaredOn, LastDeclared, LastHearing, Names;
    TransesOk(p);
    match src
    case TimerEvent(t) => OnChannelDeclared(p.trans, Names(p), Names(p)[t.0], Tick);
    case SignalEvent(t) => OnChannelDeclared(p.trans, Names(p), Names(p)[t.0], Sign);
    case _ =>
      if slot :| SlotFor(src) == Some(slot) {
        LastInState(p.trans, Names(p), Names(p)[k], slot);
        HearingIsDeclared(p.trans, Names(p), Names(p)[k], src, slot);
      }
  }

  /** What is promised, by the entry of the template. */
  lemma PromisedMeaning(d: TransDecl, m: D.Model, machine: string, p: Program, tools: Tools, a: D.Answers,
                        r: D.Delivery)
    requires ProgramOk(p) && m.current < |Names(p)| && TransOk(d, Names(p))
    requires Promised(Some(d), m, machine, p, tools, a, r)
    ensures var tr := Meaning(d, Names(p));
            match tr.next
            case Some(k) => k < |Names(p)| && Moves(p, machine, tools, m, k, a, r)
            case None =>
              var name := ActionName(machine, d.src, tr);
              name in tools && r == D.Delivery(m, D.Returned(a.action), [D.RunAction(tools[name])])
  {
    hide ProgramOk, TransOk, Meaning, Moves, ActionName, Function;
    MeaningNext(p, d);
    SameFunctions(machine, d, Names(p));
  }

  /** A loaded timer has the interval and period of its declaration, and a loaded
      signal its signal's number. */
  lemma ChannelsAreSet(p: Program, machine: string, tools: Tools, m: D.Model, i: nat, k: nat)
    requires ProgramOk(p) && Runs(m, machine, p, tools) && i < |m.states| == |Names(p)|
    ensures |m.states[i].tick| == Timers(p, i) && |m.states[i].sign| == Signals(p, i)
    ensures k < Timers(p, i) ==>
              var on := DeclaredOn(p.trans, Names(p)[i], Tick)[k].on;
              && on.TickTrigger? && m.states[i].tick[k].raw == IntervalMs(on.value, on.unit)
              && m.states[i].tick[k].periodic == PeriodFlag(on.period)
    ensures k < Signals(p, i) ==>
              var on := DeclaredOn(p.trans, Names(p)[i], Sign)[k].on;
              on.SignTrigger? && m.states[i].sign[k].raw == SignalNo(on.signal)
  {
    hide ProgramOk, Runs, KeepsMeaning, Found, TemplateOf, TransOk, Meaning, DeclaredOn, ActionName, IntervalMs,
         PeriodFlag, SignalNo, D.ModelOk;
    TablesLoaded(m, machine, p, tools);
    assert Loaded(p, machine, tools, i, m.states[i]);
    if k < Timers(p, i) {
      ChannelSelected(p, machine, tools, m.states[i], i, Tick, k);
      ChannelMeaning(DeclaredOn(p.trans, Names(p)[i], Tick)[k], Names(p));
    }
    if k < Signals(p, i) {
      ChannelSelected(p, machine, tools, m.states[i], i, Sign, k);
      ChannelMeaning(DeclaredOn(p.trans, Names(p)[i], Sign)[k], Names(p));
    }
  }

  lemma ChannelMeaning(d: TransDecl, names: seq<string>)
    requires TransOk(d, names)
    ensures var m := Meaning(d, names);
            && (d.on.TickTrigger? ==>
                  m.channel == Tick && m.data == IntervalMs(d.on.value, d.on.unit)
                  && m.periodic == PeriodFlag(d.on.period))
            && (d.on.SignTrigger? ==> m.data == SignalNo(d.on.signal))
  {
  }

  /** A machine starts in init, with the function called <machine>_init_enter. */
  lemma StartsInInit(p: Program, machine: string, tools: Tools, m: D.Model)
    requires ProgramOk(p) && Runs(m, machine, p, tools)
    ensures Names(p)[INIT] == "init" && |m.states| == |Names(p)|
    ensures machine + "_init_enter" in tools && m.states[INIT].enter == tools[machine + "_init_enter"]
  {
    hide ProgramOk, Runs, KeepsMeaning, Found, TemplateOf, D.ModelOk, Names;
    TablesLoaded(m, machine, p, tools);
    InitIsFirst(p);
    assert Loaded(p, machine, tools, INIT, m.states[INIT]);
    assert machine + "_" + "init" + "_enter" == machine + "_init_enter";
  }

  lemma InitIsFirst(p: Program)
    ensures |Names(p)| >= 2 && Names(p)[INIT] == "init"
  {
  }

  /** Delivering an event to tables of which the selected entry is known. */
  lemma SendByEntry(m: D.Model, src: D.Source, a: D.Answers, tr: Trans)
    requires D.ModelOk(m) && D.SourceOk(m, src) && D.Selected(m, src) == Some(tr)
    requires !Unheard(src, a) && (tr.next.Some? ==> tr.next.value < |m.states|)
    ensures D.Send(m, src, a) == if tr.next.None? then D.Mealy(m, tr, a) else D.Moore(m, tr.next.value, a)
  {
    hide D.Mealy, D.Moore, D.ModelOk, D.Selected;
  }

  lemma SendByNothing(m: D.Model, src: D.Source, a: D.Answers)
    requires D.ModelOk(m) && D.SourceOk(m, src) && (src.Message? || src.IoEvent?)
    requires D.Selected(m, src) in {None, Some(EMPTY)} && !Unheard(src, a)
    ensures D.Send(m, src, a) == D.Delivery(m, D.NullCall, [])
  {
    hide D.Moore, D.ModelOk;
  }

  lemma SendUnheard(m: D.Model, src: D.Source, a: D.Answers)
    requires D.ModelOk(m) && D.SourceOk(m, src) && Unheard(src, a)
    ensures D.Send(m, src, a) == D.Delivery(m, D.Returned(1), [])
  {
    hide D.Moore, D.Mealy, D.ModelOk;
  }

  lemma SlotKnown(src: D.Source, a: D.Answers)
    requires (src.Message? || src.IoEvent?) && !Unheard(src, a)
    ensures SlotFor(src).Some?
  {
  }

  lemma SlotKeepsPromise(p: Program, machine: string, tools: Tools, m: D.Model, src: D.Source, a: D.Answers)
    requires ProgramOk(p) && Runs(m, machine, p, tools) && (src.Message? || src.IoEvent?) && !Unheard(src, a)
    requires AllLoaded(m, machine, p, tools) && D.ModelOk(m) && |m.states| == |TemplateOf(machine, p).states|
    requires forall i :: 0 <= i < |m.states| ==>
               KeepsMeaning(TemplateOf(machine, p), i, tools, m.states[i]) && Found(TemplateOf(machine, p), i, tools)
    ensures D.SourceOk(m, src) && Declares(p, src)
    ensures Promised(Deciding(p, m.current, src), m, machine, p, tools, a, D.Send(m, src, a))
  {
    hide ProgramOk, Runs, Loaded, D.ModelOk, KeepsMeaning, Found, Unheard, D.Send, Promised, TemplateOf, Compiled,
         D.Mealy, D.Moore, D.Selected, TransOk, Meaning, SlotFor, ActionName, LastHearing;
    SlotKnown(src, a);
    var slot := SlotFor(src).value;
    SlotSelected(p, machine, tools, m, src, slot);
    match Deciding(p, m.current, src)
    case None =>
      SendByNothing(m, src, a);
      NothingPromised(m, machine, p, tools, a);
    case Some(d) =>
      CompiledKeepsPromise(p, machine, tools, m, d, a);
      SendByEntry(m, src, a, Compiled(machine, d.src, Meaning(d, Names(p)), tools));
  }

  lemma NothingPromised(m: D.Model, machine: string, p: Program, tools: Tools, a: D.Answers)
    requires ProgramOk(p) && m.current < |Names(p)|
    ensures Promised(None, m, machine, p, tools, a, D.Delivery(m, D.NullCall, []))
  {
  }

  lemma ChannelKeepsPromise(p: Program, machine: string, tools: Tools, m: D.Model, src: D.Source, a: D.Answers)
    requires ProgramOk(p) && Runs(m, machine, p, tools) && (src.TimerEvent? || src.SignalEvent?) && Declares(p, src)
    requires AllLoaded(m, machine, p, tools) && D.ModelOk(m) && |m.states| == |TemplateOf(machine, p).states|
    requires forall i :: 0 <= i < |m.states| ==>
               KeepsMeaning(TemplateOf(machine, p), i, tools, m.states[i]) && Found(TemplateOf(machine, p), i, tools)
    requires !Unheard(src, a)
    ensures D.SourceOk(m, src)
    ensures Promised(Deciding(p, m.current, src), m, machine, p, tools, a, D.Send(m, src, a))
  {
    hide ProgramOk, Runs, Loaded, D.ModelOk, KeepsMeaning, Found, Unheard, D.Send, Promised, TemplateOf, Compiled,
         D.Mealy, D.Moore, TransOk, Meaning, DeclaredOn, ActionName;
    var ch, t := if src.TimerEvent? then Tick else Sign, if src.TimerEvent? then src.timer else src.signal;
    ChannelSelected(p, machine, tools, m.states[t.0], t.0, ch, t.1);
    var d := Deciding(p, m.current, src).value;
    CompiledKeepsPromise(p, machine, tools, m, d, a);
    SendByEntry(m, src, a, Compiled(machine, d.src, Meaning(d, Names(p)), tools));
  }

  /** Parsing the text, loading the template and dispatching an event do together
      exactly what the text says: for a code and a descriptor's event the last
      declaration in the current state, for a timer and a signal its own. */
  lemma TextDecidesStep(p: Program, machine: string, tools: Tools, m: D.Model, src: D.Source, a: D.Answers)
    requires ProgramOk(p) && Runs(m, machine, p, tools) && Declares(p, src)
    ensures DecodeText(NewTemplate(machine), ProgramText(p)) == Done(TemplateOf(machine, p))
    ensures D.ModelOk(m) && D.SourceOk(m, src) && |m.states| == |Names(p)|
    ensures if Unheard(src, a) then D.Send(m, src, a) == D.Delivery(m, D.Returned(1), [])
            else Promised(Deciding(p, m.current, src), m, machine, p, tools, a, D.Send(m, src, a))
  {
    hide ProgramOk, Runs, D.ModelOk, KeepsMeaning, Found, Unheard, D.Send, Promised, TemplateOf, Loaded, DecodeText,
         ProgramText, Deciding, DeclaredOn;
    RoundTrip.ReadBack(machine, p);
    TablesLoaded(m, machine, p, tools);
    SourceDeclared(p, machine, tools, m, src);
    if Unheard(src, a) {
      SendUnheard(m, src, a);
    } else if src.Message? || src.IoEvent? {
      SlotKeepsPromise(p, machine, tools, m, src, a);
    } else {
      ChannelKeepsPromise(p, machine, tools, m, src, a);
    }
  }

  lemma SourceDeclared(p: Program, machine: string, tools: Tools, m: D.Model, src: D.Source)
    requires ProgramOk(p) && AllLoaded(m, machine, p, tools)
    ensures D.SourceOk(m, src) <==> Declares(p, src)
  {
    hide ProgramOk, DeclaredOn, D.KnownSlots, TimerSlots, Names;
    match src
    case TimerEvent(t) => assert t.0 < |m.states| ==> Loaded(p, machine, tools, t.0, m.states[t.0]);
    case SignalEvent(t) => assert t.0 < |m.states| ==> Loaded(p, machine, tools, t.0, m.states[t.0]);
    case _ =>
  }

  /** The last transition of the template for a slot decides. */
  lemma SlotDecides(t: Template, tools: Tools, m: D.Model, src: D.Source, slot: Slot, a: D.Answers)
    requires m.current < |m.states| == |t.states| && D.ModelOk(m)
    requires SlotFor(src) == Some(slot) && (src.Message? || !a.read)
    requires KeepsMeaning(t, m.current, tools, m.states[m.current]) && Found(t, m.current, tools)
    ensures var st := t.states[m.current];
            match LastFor(st.trans, slot)
            case None => D.Send(m, src, a) == D.Delivery(m, D.NullCall, [])
            case Some(tr) =>
              match tr.next
              case Some(k) => k < |m.states| && D.Send(m, src, a) == D.Moore(m, k, a)
              case None =>
                var name := ActionName(t.name, st.name, tr);
                name in tools && D.Send(m, src, a) == D.Delivery(m, D.Returned(a.action), [D.RunAction(tools[name])])
  {
    var st, s := t.states[m.current], m.states[m.current];
    D.SelectedOk(m, src);
    assert D.Selected(m, src) == Slotted(s, slot);
    match LastFor(st.trans, slot)
    case None =>
    case Some(tr) =>
      assert Slotted(s, slot) == Some(Compiled(t.name, st.name, tr, tools));
      hide D.ModelOk, ActionName, D.Moore, LastFor, KeepsMeaning;
  }

  lemma MeaningNext(p: Program, d: TransDecl)
    requires TransOk(d, Names(p))
    ensures Meaning(d, Names(p)).next == if d.dst.None? then None else Some(IndexOf(Names(p), d.dst.value))
  {
  }
}
