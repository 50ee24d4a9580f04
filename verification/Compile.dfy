/** Loading keeps the meaning of a template: every table slot holds the last
    declaration made for it, and nothing declared falls outside its table. */
module Compile {
  import opened Wrappers
  import opened Template
  import opened Loader

  /** Where the dispatcher finds a transition that is not a timer or a signal. */
  datatype Slot = CodeSlot(code: nat) | InSlot | OutSlot | ErrSlot

  function SlotOf(tr: TransTemplate): Option<Slot> {
    match tr.channel
    case NoChannel => Some(CodeSlot(tr.code))
    case Data =>
      if tr.data == POLLIN then Some(InSlot)
      else if tr.data == POLLOUT then Some(OutSlot)
      else if tr.data == POLLERR || tr.data == POLLHUP then Some(ErrSlot)
      else None
    case Tick => None
    case Sign => None
  }

  function Slotted(s: LoadedState, slot: Slot): Option<Trans> {
    match slot
    case CodeSlot(c) => if c < |s.trans| then Some(s.trans[c]) else None
    case InSlot => Some(s.pollin)
    case OutSlot => Some(s.pollout)
    case ErrSlot => Some(s.pollerr)
  }

  /** The last transition declared for the slot. */
  function LastFor(trs: seq<TransTemplate>, slot: Slot): (r: Option<TransTemplate>)
    ensures match r
            case None => forall j :: 0 <= j < |trs| ==> SlotOf(trs[j]) != Some(slot)
            case Some(tr) => exists k :: 0 <= k < |trs| && trs[k] == tr && SlotOf(tr) == Some(slot) &&
                                         forall j :: k < j < |trs| ==> SlotOf(trs[j]) != Some(slot)
  {
    if trs == [] then None
    else
      match LastFor(trs[1..], slot)
      case Some(tr) =>
        var k :| 0 <= k < |trs[1..]| && trs[1..][k] == tr &&
                 forall j :: k < j < |trs[1..]| ==> SlotOf(trs[1..][j]) != Some(slot);
        assert trs[k + 1] == tr;
        assert forall j :: k + 1 < j < |trs| ==> trs[j] == trs[1..][j - 1];
        Some(tr)
      case None =>
        assert forall j :: 0 < j < |trs| ==> trs[j] == trs[1..][j - 1];
        if SlotOf(trs[0]) == Some(slot) then Some(trs[0]) else None
  }

  /** Every transition with a channel of kind ch, in order. */
  function OnChannel(trs: seq<TransTemplate>, ch: Channel): (r: seq<TransTemplate>)
    ensures forall i :: 0 <= i < |r| ==> r[i].channel == ch && r[i] in trs
  {
    if trs == [] then []
    else (if trs[0].channel == ch then [trs[0]] else []) + OnChannel(trs[1..], ch)
  }

  /** What the loader relies on: the parser's maxima bound the codes, targets
      exist, IO events are the four known ones, and names tell states apart. */
  predicate Consistent(t: Template) {
    && (forall i, j :: 0 <= i < j < |t.states| ==> t.states[i].name != t.states[j].name)
    && forall i :: 0 <= i < |t.states| ==> StateConsistent(t.states[i], |t.states|)
  }

  predicate StateConsistent(s: StateTemplate, n: nat) {
    forall k :: 0 <= k < |s.trans| ==> TransConsistent(s.trans[k], s, n)
  }

  predicate TransConsistent(tr: TransTemplate, s: StateTemplate, n: nat) {
    && (tr.channel.NoChannel? ==> tr.code <= s.maxCode)
    && (tr.channel.Data? ==> tr.data in {POLLIN, POLLOUT, POLLERR, POLLHUP})
    && (tr.next.Some? ==> tr.next.value < n)
  }

  /** Everything state i names is found by dlsym. */
  predicate Found(t: Template, i: nat, tools: Tools)
    requires i < |t.states|
  {
    && EnterName(t.name, t.states[i].name) in tools
    && AllFound(t.name, t.states[i].name, t.states[i].trans, tools)
  }

  predicate AllFound(machine: string, state: string, trs: seq<TransTemplate>, tools: Tools) {
    forall k :: 0 <= k < |trs| && trs[k].next.None? ==> ActionName(machine, state, trs[k]) in tools
  }

  /** What a transition does: run its function, or go to its target. */
  function Compiled(machine: string, state: string, tr: TransTemplate, tools: Tools): Trans {
    Trans(tr.code,
          if tr.next.None? then LookUp(tools, ActionName(machine, state, tr)) else None,
          tr.next, Some(tr.channel), tr.data, if tr.channel.Tick? then tr.periodic else 0)
  }

  function CompiledAll(machine: string, state: string, trs: seq<TransTemplate>, tools: Tools): (r: seq<Trans>)
    ensures |r| == |trs|
  {
    seq(|trs|, i requires 0 <= i < |trs| => Compiled(machine, state, trs[i], tools))
  }

  lemma EntryIsCompiled(machine: string, names: seq<string>, state: string, tr: TransTemplate, tools: Tools)
    requires DistinctNames(names) && (tr.next.Some? ==> tr.next.value < |names|)
    ensures Entry(machine, names, state, tr, tools) ==
            if tr.next.None? && ActionName(machine, state, tr) !in tools then None
            else Some(Compiled(machine, state, tr, tools))
  {
    hide ActionName;
  }

  lemma ConsCompiled(machine: string, state: string, tr: TransTemplate, trs: seq<TransTemplate>, tools: Tools)
    ensures CompiledAll(machine, state, [tr] + trs, tools) ==
            [Compiled(machine, state, tr, tools)] + CompiledAll(machine, state, trs, tools)
  {
    hide Compiled;
  }

  /** The state s with all of trs stored: what is in each place. */
  lemma {:induction false} Stored(machine: string, names: seq<string>, s: LoadedState, trs: seq<TransTemplate>,
                                  tools: Tools, st: StateTemplate)
    requires DistinctNames(names) && Max(st.maxCode, st.ntrans) < |s.trans|
    requires forall k :: 0 <= k < |trs| ==> TransConsistent(trs[k], st, |names|)
    ensures var r := StoreAll(machine, names, s, trs, tools);
            && (r.Some? <==> AllFound(machine, s.name, trs, tools))
            && (r.Some? ==> Places(machine, s, trs, tools, r.value))
    decreases |trs|
  {
    hide Compiled, ActionName;
    if trs == [] {
      assert CompiledAll(machine, s.name, [], tools) == [];
    } else {
      EntryIsCompiled(machine, names, s.name, trs[0], tools);
      var e := Compiled(machine, s.name, trs[0], tools);
      if trs[0].next.Some? || ActionName(machine, s.name, trs[0]) in tools {
        var s' := Store(s, trs[0], e).value;
        Stored(machine, names, s', trs[1..], tools, st);
        FoundCons(machine, s.name, trs, tools);
        var r := StoreAll(machine, names, s, trs, tools);
        if r.Some? {
          PlacesCons(machine, s, s', trs, tools, r.value);
        }
      }
    }
  }

  lemma FoundCons(machine: string, state: string, trs: seq<TransTemplate>, tools: Tools)
    requires trs != []
    ensures AllFound(machine, state, trs, tools) <==>
            && (trs[0].next.None? ==> ActionName(machine, state, trs[0]) in tools)
            && AllFound(machine, state, trs[1..], tools)
  {
    hide ActionName;
    if AllFound(machine, state, trs, tools) {
      forall k | 0 <= k < |trs[1..]| && trs[1..][k].next.None?
        ensures ActionName(machine, state, trs[1..][k]) in tools
      {
        assert trs[k + 1] == trs[1..][k];
      }
    }
  }

  /** r is s with trs stored: the last declaration of every slot, the timers and
      signals in order, and the rest of s. */
  ghost predicate Places(machine: string, s: LoadedState, trs: seq<TransTemplate>, tools: Tools, r: LoadedState) {
    && r.name == s.name && r.enter == s.enter && r.leave == s.leave && |r.trans| == |s.trans|
    && r.tickSlots == s.tickSlots
    && r.tick == s.tick + CompiledAll(machine, s.name, OnChannel(trs, Tick), tools)
    && r.sign == s.sign + CompiledAll(machine, s.name, OnChannel(trs, Sign), tools)
    && forall slot: Slot :: Slotted(r, slot) == match LastFor(trs, slot)
                                                case Some(tr) => Some(Compiled(machine, s.name, tr, tools))
                                                case None => Slotted(s, slot)
  }

  lemma LastForCons(trs: seq<TransTemplate>, slot: Slot)
    requires trs != []
    ensures LastFor(trs, slot) == if LastFor(trs[1..], slot).Some? then LastFor(trs[1..], slot)
                                  else if SlotOf(trs[0]) == Some(slot) then Some(trs[0]) else None
  {
  }

  lemma StoredSlot(s: LoadedState, tr: TransTemplate, e: Trans, slot: Slot)
    requires Store(s, tr, e).Some?
    ensures Slotted(Store(s, tr, e).value, slot) == if SlotOf(tr) == Some(slot) then Some(e) else Slotted(s, slot)
  {
  }

  lemma PlacesCons(machine: string, s: LoadedState, s': LoadedState, trs: seq<TransTemplate>, tools: Tools,
                   r: LoadedState)
    requires trs != []
    requires Store(s, trs[0], Compiled(machine, s.name, trs[0], tools)) == Some(s')
    requires Places(machine, s', trs[1..], tools, r)
    ensures Places(machine, s, trs, tools, r)
  {
    var e := Compiled(machine, s.name, trs[0], tools);
    assert s'.name == s.name;
    hide Compiled, LastFor;
    ListsCons(machine, s, s', trs, tools, r);
    forall slot: Slot
      ensures Slotted(r, slot) == match LastFor(trs, slot)
                                  case Some(tr) => Some(Compiled(machine, s.name, tr, tools))
                                  case None => Slotted(s, slot)
    {
      LastForCons(trs, slot);
      StoredSlot(s, trs[0], e, slot);
    }
  }

  lemma ListsCons(machine: string, s: LoadedState, s': LoadedState, trs: seq<TransTemplate>, tools: Tools,
                  r: LoadedState)
    requires trs != []
    requires Store(s, trs[0], Compiled(machine, s.name, trs[0], tools)) == Some(s')
    requires r.tick == s'.tick + CompiledAll(machine, s.name, OnChannel(trs[1..], Tick), tools)
    requires r.sign == s'.sign + CompiledAll(machine, s.name, OnChannel(trs[1..], Sign), tools)
    ensures r.tick == s.tick + CompiledAll(machine, s.name, OnChannel(trs, Tick), tools)
    ensures r.sign == s.sign + CompiledAll(machine, s.name, OnChannel(trs, Sign), tools)
  {
    hide Compiled, CompiledAll;
    ConsCompiled(machine, s.name, trs[0], OnChannel(trs[1..], Tick), tools);
    ConsCompiled(machine, s.name, trs[0], OnChannel(trs[1..], Sign), tools);
    assert [] + OnChannel(trs[1..], Tick) == OnChannel(trs[1..], Tick);
    assert [] + OnChannel(trs[1..], Sign) == OnChannel(trs[1..], Sign);
  }

  /** State i of the template as tables: its functions, the last declaration of
      every slot (nothing where none was made), and its timers and signals in the
      order of their declarations, with their intervals and periods. */
  ghost predicate KeepsMeaning(t: Template, i: nat, tools: Tools, s: LoadedState)
    requires i < |t.states|
  {
    var st := t.states[i];
    && s.name == st.name
    && LookUp(tools, EnterName(t.name, st.name)) == Some(s.enter)
    && s.leave == LookUp(tools, LeaveName(t.name, st.name))
    && s.tickSlots == st.maxTick + 1
    && s.tick == CompiledAll(t.name, st.name, OnChannel(st.trans, Tick), tools)
    && s.sign == CompiledAll(t.name, st.name, OnChannel(st.trans, Sign), tools)
    && forall slot: Slot ::
         match LastFor(st.trans, slot)
         case Some(tr) => Slotted(s, slot) == Some(Compiled(t.name, st.name, tr, tools))
         case None => Slotted(s, slot) in {None, Some(EMPTY)}
  }

  /** Loading succeeds exactly when every function it needs exists, and then the
      tables mean what the template means. */
  lemma LoadKeepsMeaning(t: Template, i: nat, tools: Tools)
    requires Consistent(t) && i < |t.states|
    ensures LoadState(t, i, tools).Some? <==> Found(t, i, tools)
    ensures LoadState(t, i, tools).Some? ==> KeepsMeaning(t, i, tools, LoadState(t, i, tools).value)
  {
    var st, names := t.states[i], StateNames(t);
    assert StateConsistent(st, |t.states|);
    assert DistinctNames(names);
    hide LastFor, Compiled, CompiledAll, OnChannel, ActionName, EnterName, LeaveName, Consistent, DistinctNames,
         StoreAll;
    match PreparedState(t.name, st, tools)
    case None =>
    case Some(p) =>
      Stored(t.name, names, p, st.trans, tools, st);
      var r := StoreAll(t.name, names, p, st.trans, tools);
      if r.Some? {
        assert [] + CompiledAll(t.name, st.name, OnChannel(st.trans, Tick), tools) ==
               CompiledAll(t.name, st.name, OnChannel(st.trans, Tick), tools);
        assert [] + CompiledAll(t.name, st.name, OnChannel(st.trans, Sign), tools) ==
               CompiledAll(t.name, st.name, OnChannel(st.trans, Sign), tools);
      }
  }
}
