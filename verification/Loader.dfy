/** Compiling a template into the tables the dispatcher indexes. */
module Loader {
  import opened Wrappers
  import opened Text
  import opened Template

  /** A function found by dlsym. */
  type Action = nat

  type Tools = map<string, Action>

  /** A table entry. `channel` None is the zeroed entry of a code nobody declared. */
  datatype Trans =
    Trans(code: nat, action: Option<Action>, next: Option<nat>, channel: Option<Channel>, raw: nat, periodic: nat)

  const EMPTY: Trans := Trans(0, None, None, None, 0, 0)

  /** tickSlots: how many slots for timers there are at first, zeroed. */
  datatype LoadedState =
    LoadedState(name: string, enter: Action, leave: Option<Action>,
                trans: seq<Trans>, tick: seq<Trans>, sign: seq<Trans>,
                pollin: Trans, pollout: Trans, pollerr: Trans, tickSlots: nat)

  // ------------------------------------------------------------------- names

  function LookUp(tools: Tools, name: string): Option<Action> {
    if name in tools then Some(tools[name]) else None
  }

  /** printf("%d") of a code. */
  function CodeText(code: nat): string {
    var v := ToInt(code);
    if v < 0 then "-" + Decimal(-v) else Decimal(v)
  }

  function ChannelText(c: Channel): string {
    match c case NoChannel => "" case Tick => "tick_" case Data => "data_" case Sign => "sign_"
  }

  function EnterName(machine: string, state: string): string {
    machine + "_" + state + "_enter"
  }

  function LeaveName(machine: string, state: string): string {
    machine + "_" + state + "_leave"
  }

  function ActionName(machine: string, state: string, tr: TransTemplate): string {
    machine + "_" + state + "_" + ChannelText(tr.channel) + CodeText(tr.code)
  }

  // ----------------------------------------------------------- specification

  function ZeroTable(n: nat): (t: seq<Trans>)
    ensures |t| == n
  {
    seq(n, _ => EMPTY)
  }

  function PreparedState(machine: string, s: StateTemplate, tools: Tools): Option<LoadedState> {
    match LookUp(tools, EnterName(machine, s.name))
    case None => None
    case Some(enter) =>
      Some(LoadedState(s.name, enter, LookUp(tools, LeaveName(machine, s.name)),
                       ZeroTable(Max(s.maxCode, s.ntrans) + 1), [], [], EMPTY, EMPTY, EMPTY, s.maxTick + 1))
  }

  /** The first index that carries the k-th name. */
  function Resolve(names: seq<string>, k: nat): (i: nat)
    requires k < |names|
    ensures i <= k && names[i] == names[k]
    ensures forall j :: 0 <= j < i ==> names[j] != names[k]
  {
    if names[0] == names[k] then 0 else 1 + Resolve(names[1..], k - 1)
  }

  function StateNames(t: Template): (names: seq<string>)
    ensures |names| == |t.states|
    ensures forall i :: 0 <= i < |names| ==> names[i] == t.states[i].name
  {
    seq(|t.states|, i requires 0 <= i < |t.states| => t.states[i].name)
  }

  /** The entry of a transition: its own action, or its next state. */
  function Entry(machine: string, names: seq<string>, state: string, tr: TransTemplate, tools: Tools): Option<Trans> {
    var periodic := if tr.channel.Tick? then tr.periodic else 0;
    match tr.next
    case Some(k) =>
      if k < |names| then Some(Trans(tr.code, None, Some(Resolve(names, k)), Some(tr.channel), tr.data, periodic))
      else None
    case None =>
      match LookUp(tools, ActionName(machine, state, tr))
      case None => None
      case Some(f) => Some(Trans(tr.code, Some(f), None, Some(tr.channel), tr.data, periodic))
  }

  /** The state with the entry of tr stored where the dispatcher looks for it. */
  function Store(s: LoadedState, tr: TransTemplate, e: Trans): Option<LoadedState> {
    match tr.channel
    case NoChannel => if tr.code < |s.trans| then Some(s.(trans := s.trans[tr.code := e])) else None
    case Tick => Some(s.(tick := s.tick + [e]))
    case Sign => Some(s.(sign := s.sign + [e]))
    case Data =>
      if tr.data == POLLIN then Some(s.(pollin := e))
      else if tr.data == POLLOUT then Some(s.(pollout := e))
      else if tr.data == POLLERR || tr.data == POLLHUP then Some(s.(pollerr := e))
      else None
  }

  function StoreAll(machine: string, names: seq<string>, s: LoadedState, trs: seq<TransTemplate>, tools: Tools)
    : Option<LoadedState>
    decreases |trs|
  {
    if trs == [] then Some(s)
    else
      match Entry(machine, names, s.name, trs[0], tools)
      case None => None
      case Some(e) =>
        match Store(s, trs[0], e)
        case None => None
        case Some(s') => StoreAll(machine, names, s', trs[1..], tools)
  }

  /** State i of the loaded machine; None if a function it needs is missing. */
  function LoadState(t: Template, i: nat, tools: Tools): Option<LoadedState>
    requires i < |t.states|
  {
    match PreparedState(t.name, t.states[i], tools)
    case None => None
    case Some(p) => StoreAll(t.name, StateNames(t), p, t.states[i].trans, tools)
  }

  lemma LoadStores(t: Template, i: nat, tools: Tools)
    requires i < |t.states|
    ensures LoadState(t, i, tools) ==
            match PreparedState(t.name, t.states[i], tools)
            case None => None
            case Some(p) => StoreAll(t.name, StateNames(t), p, t.states[i].trans, tools)
  {
  }

  lemma StoreAllStep(machine: string, names: seq<string>, s: LoadedState, trs: seq<TransTemplate>, tools: Tools)
    requires trs != []
    ensures StoreAll(machine, names, s, trs, tools) ==
            var e := Entry(machine, names, s.name, trs[0], tools);
            var s' := if e.None? then None else Store(s, trs[0], e.value);
            if s'.None? then None else StoreAll(machine, names, s'.value, trs[1..], tools)
  {
  }

  lemma StoreAllNone(machine: string, names: seq<string>, s: LoadedState, tools: Tools)
    ensures StoreAll(machine, names, s, [], tools) == Some(s)
  {
  }

  // --------------------------------------------------------------- the loader

  class Machine {
    var name: string
    var states: seq<LoadedState>

    constructor ()
      ensures states == []
    {
      name, states := "", [];
    }

    ghost predicate Named(names: seq<string>)
      reads this
    {
      |states| == |names| && forall j :: 0 <= j < |states| ==> states[j].name == names[j]
    }

    /** The first loaded state with the name of the target. */
    method FindNextStateByName(names: seq<string>, k: nat) returns (i: nat)
      requires k < |names| && Named(names)
      ensures i == Resolve(names, k)
    {
      i := 0;
      while states[i].name != names[k]
        invariant i <= k
        invariant forall j :: 0 <= j < i ==> names[j] != names[k]
        decreases k - i
      {
        i := i + 1;
      }
    }

    method PrepareStates(tmpl: Template, tools: Tools) returns (err: bool)
      requires states == []
      modifies this`states
      ensures !err ==> |states| == |tmpl.states|
      ensures !err ==> forall i :: 0 <= i < |states| ==> PreparedState(name, tmpl.states[i], tools) == Some(states[i])
      ensures err ==> exists i :: 0 <= i < |tmpl.states| && PreparedState(name, tmpl.states[i], tools) == None
    {
      for i := 0 to |tmpl.states|
        invariant |states| == i
        invariant forall j :: 0 <= j < i ==> PreparedState(name, tmpl.states[j], tools) == Some(states[j])
      {
        var s := tmpl.states[i];
        var enter := LookUp(tools, EnterName(name, s.name));
        if enter.None? {
          assert PreparedState(name, tmpl.states[i], tools) == None;
          return true;
        }
        var leave := LookUp(tools, LeaveName(name, s.name));
        var ntrans := if s.maxCode > s.ntrans then s.maxCode else s.ntrans;
        var table := ZeroTable(ntrans + 1);
        states := states + [LoadedState(s.name, enter.value, leave, table, [], [], EMPTY, EMPTY, EMPTY, s.maxTick + 1)];
      }
      return false;
    }

    /** One transition: its entry goes into its slot of state i. */
    method StoreTrans(names: seq<string>, i: nat, tr: TransTemplate, tools: Tools) returns (err: bool)
      requires i < |states| && Named(names)
      modifies this`states
      ensures var before := old(states[i]);
              var e := Entry(name, names, before.name, tr, tools);
              var after := if e.None? then None else Store(before, tr, e.value);
              && err == after.None?
              && states == if err then old(states) else old(states)[i := after.value]
      ensures Named(names)
    {
      var periodic := if tr.channel.Tick? then tr.periodic else 0;
      var e := Trans(tr.code, None, None, Some(tr.channel), tr.data, periodic);
      match tr.next {
        case None =>
          var action := LookUp(tools, ActionName(name, states[i].name, tr));
          if action.None? {
            return true;
          }
          e := e.(action := action);
        case Some(k) =>
          if k >= |names| {
            return true;
          }
          var next := FindNextStateByName(names, k);
          e := e.(next := Some(next));
      }
      var s := states[i];
      match tr.channel {
        case NoChannel =>
          if tr.code >= |s.trans| {
            return true;
          }
          s := s.(trans := s.trans[tr.code := e]);
        case Tick =>
          s := s.(tick := s.tick + [e]);
        case Sign =>
          s := s.(sign := s.sign + [e]);
        case Data =>
          if tr.data == POLLIN {
            s := s.(pollin := e);
          } else if tr.data == POLLOUT {
            s := s.(pollout := e);
          } else if tr.data == POLLERR || tr.data == POLLHUP {
            s := s.(pollerr := e);
          } else {
            return true;
          }
      }
      states := states[i := s];
      return false;
    }

    /** The inner loop of _esma_prepare_trans: the transitions of one state. */
    method StoreStateTrans(names: seq<string>, i: nat, trs: seq<TransTemplate>, tools: Tools) returns (err: bool)
      requires i < |states| && Named(names)
      modifies this`states
      ensures |states| == |old(states)| && Named(names)
      ensures forall k :: 0 <= k < |states| && k != i ==> states[k] == old(states[k])
      ensures StoreAll(name, names, old(states[i]), trs, tools) == if err then None else Some(states[i])
    {
      hide Entry, Store, StoreAll, Named;
      assert trs[0..] == trs;
      for j := 0 to |trs|
        invariant |states| == |old(states)| && Named(names)
        invariant StoreAll(name, names, states[i], trs[j..], tools) == StoreAll(name, names, old(states[i]), trs, tools)
        invariant forall k :: 0 <= k < |states| && k != i ==> states[k] == old(states[k])
      {
        assert trs[j..][1..] == trs[j + 1..];
        StoreAllStep(name, names, states[i], trs[j..], tools);
        err := StoreTrans(names, i, trs[j], tools);
        if err {
          return;
        }
      }
      assert trs[|trs|..] == [];
      StoreAllNone(name, names, states[i], tools);
      return false;
    }

    method PrepareTrans(tmpl: Template, tools: Tools) returns (err: bool)
      requires tmpl.name == name && |states| == |tmpl.states|
      requires forall i :: 0 <= i < |states| ==> PreparedState(name, tmpl.states[i], tools) == Some(states[i])
      modifies this`states
      ensures !err ==> |states| == |tmpl.states|
      ensures !err ==> forall i :: 0 <= i < |states| ==> LoadState(tmpl, i, tools) == Some(states[i])
      ensures err ==> exists i :: 0 <= i < |tmpl.states| && LoadState(tmpl, i, tools) == None
    {
      ghost var prepared := states;
      var names := StateNames(tmpl);
      assert Named(names);
      hide PreparedState, StoreAll, LoadState, Named;
      for i := 0 to |states|
        invariant |states| == |prepared| && Named(names)
        invariant forall j :: 0 <= j < i ==> LoadState(tmpl, j, tools) == Some(states[j])
        invariant forall j :: i <= j < |states| ==> states[j] == prepared[j]
      {
        LoadStores(tmpl, i, tools);
        err := StoreStateTrans(names, i, tmpl.states[i].trans, tools);
        if err {
          return;
        }
      }
      return false;
    }

    method Load(tmpl: Template, tools: Tools) returns (err: bool)
      requires states == []
      modifies this
      ensures err <==> exists i :: 0 <= i < |tmpl.states| && LoadState(tmpl, i, tools) == None
      ensures !err ==> name == tmpl.name && |states| == |tmpl.states|
      ensures !err ==> forall i :: 0 <= i < |states| ==> LoadState(tmpl, i, tools) == Some(states[i])
    {
      name := tmpl.name;
      err := PrepareStates(tmpl, tools);
      if err {
        ghost var i :| 0 <= i < |tmpl.states| && PreparedState(name, tmpl.states[i], tools) == None;
        assert LoadState(tmpl, i, tools) == None;
        return;
      }
      hide PreparedState, StoreAll;
      err := PrepareTrans(tmpl, tools);
    }
  }
}
