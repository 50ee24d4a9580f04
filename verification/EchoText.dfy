/** The table of the slave's protocol is what the text of slave.esma, parsed,
    loaded and dispatched, does. */
module EchoText {
  import opened Wrappers
  import opened Text
  import opened Template
  import opened Decoder
  import opened Surface
  import opened Loader
  import opened Compile
  import D = Dispatcher
  import E = EchoServer
  import opened Promises
  import EndToEnd

  function SlaveNames(): seq<string> {
    ["init", "fini", "idle", "recv", "send", "done"]
  }

  function StateIndex(s: E.SlaveState): (k: nat)
    ensures k < |SlaveNames()|
  {
    match s
    case Init => 0 case Fini => 1 case Idle => 2 case Recv => 3 case Send => 4 case Done => 5
  }

  function Plain(code: nat, next: Option<nat>): TransTemplate {
    TransTemplate(code, NoChannel, 0, 0, next)
  }

  function OnEvent(code: nat, mask: nat): TransTemplate {
    TransTemplate(code, Data, mask, 0, None)
  }

  const TIMEOUT := TransTemplate(0, Tick, 10000, ONESHOT, None)

  /** The transitions slave.esma declares for each state, in order. */
  function SlaveTrans(s: E.SlaveState): seq<TransTemplate> {
    match s
    case Init => [Plain(0, Some(2)), Plain(3, Some(1))]
    case Fini => []
    case Idle => [Plain(1, None), Plain(0, Some(3)), Plain(3, Some(5))]
    case Recv => [TIMEOUT, OnEvent(0, POLLIN), OnEvent(1, POLLERR), Plain(0, Some(4)), Plain(1, Some(5))]
    case Send => [TIMEOUT, OnEvent(0, POLLOUT), OnEvent(1, POLLERR), Plain(0, Some(3)), Plain(1, Some(5))]
    case Done => [Plain(0, Some(2))]
  }

  /** p is the program of slave.esma, in any layout. */
  ghost predicate IsSlave(p: Program) {
    && ProgramOk(p) && Names(p) == SlaveNames()
    && forall s: E.SlaveState :: TransOf(p.trans, Names(p), Names(p)[StateIndex(s)]) == SlaveTrans(s)
  }

  /** What the engine calls the event; a timer's is its own state's first one. */
  function SourceOf(s: E.SlaveState, e: E.Event): Option<D.Source> {
    match e
    case Code(c) => Some(D.Message(c))
    case PollIn => Some(D.IoEvent(POLLIN))
    case PollOut => Some(D.IoEvent(POLLOUT))
    case PollErr => Some(D.IoEvent(POLLERR))
    case PollHup => Some(D.IoEvent(POLLHUP))
    case Tick(k) => if k == 0 && s in {E.Recv, E.Send} then Some(D.TimerEvent((StateIndex(s), 0))) else None
    case Sign(_) => None
    case NoPoll => None
  }

  /** The function of slave.c for a transition to self, such as
      slave_recv_data_0. */
  function Handler(s: E.SlaveState, e: E.Event): string {
    "slave" + "_" + SlaveNames()[StateIndex(s)] + "_" + HandlerSuffix(e)
  }

  function HandlerSuffix(e: E.Event): string {
    match e
    case Code(_) => "1"
    case Tick(_) => "tick_0"
    case PollIn => "data_0"
    case PollOut => "data_0"
    case _ => "data_1"
  }

  /** The transition that decides. */
  function Chosen(s: E.SlaveState, e: E.Event): Option<TransTemplate> {
    match E.Declared(s, e)
    case Undeclared => None
    case Goto(t) => Some(Plain(if e.Code? then e.c else 0, Some(StateIndex(t))))
    case Self =>
      match e
      case Code(c) => Some(Plain(c, None))
      case Tick(_) => Some(TIMEOUT)
      case PollIn => Some(OnEvent(0, POLLIN))
      case PollOut => Some(OnEvent(0, POLLOUT))
      case _ => Some(OnEvent(1, POLLERR))
  }

  lemma ChosenNext(s: E.SlaveState, e: E.Event)
    ensures match E.Declared(s, e)
            case Undeclared => Chosen(s, e) == None
            case Goto(t) => Chosen(s, e).Some? && Chosen(s, e).value.next == Some(StateIndex(t))
            case Self => Chosen(s, e).Some? && Chosen(s, e).value.next == None
  {
  }

  lemma TableIsDeclared(s: E.SlaveState, e: E.Event, slot: Slot)
    requires SourceOf(s, e).Some? && EndToEnd.SlotFor(SourceOf(s, e).value) == Some(slot)
    ensures LastFor(SlaveTrans(s), slot) == Chosen(s, e)
  {
    SlotOfSource(s, e);
    hide SlaveTrans, LastFor, Chosen;
    if e.Code? {
      CodeIsDeclared(s, e.c);
    } else {
      EventIsDeclared(s, e, slot);
    }
  }

  lemma CodeIsDeclared(s: E.SlaveState, c: nat)
    ensures LastFor(SlaveTrans(s), CodeSlot(c)) == Chosen(s, E.Code(c))
  {
    LastForFive(SlaveTrans(s), CodeSlot(c));
    Slots();
    hide SlotOf, LastFor;
  }

  lemma EventIsDeclared(s: E.SlaveState, e: E.Event, slot: Slot)
    requires (e == E.PollIn && slot == InSlot) || (e == E.PollOut && slot == OutSlot) ||
             (e in {E.PollErr, E.PollHup} && slot == ErrSlot)
    ensures LastFor(SlaveTrans(s), slot) == Chosen(s, e)
  {
    if s == E.Recv || s == E.Send {
      EventWhileServing(s, e, slot);
    } else {
      LastForFive(SlaveTrans(s), slot);
      Slots();
      hide SlotOf, LastFor;
    }
  }

  lemma EventWhileServing(s: E.SlaveState, e: E.Event, slot: Slot)
    requires s in {E.Recv, E.Send}
    requires (e == E.PollIn && slot == InSlot) || (e == E.PollOut && slot == OutSlot) ||
             (e in {E.PollErr, E.PollHup} && slot == ErrSlot)
    ensures LastFor(SlaveTrans(s), slot) == Chosen(s, e)
  {
    LastForFive(SlaveTrans(s), slot);
    Slots();
    hide SlotOf, LastFor;
  }

  lemma Slots()
    ensures forall c, next :: SlotOf(Plain(c, next)) == Some(CodeSlot(c))
    ensures SlotOf(TIMEOUT) == None
    ensures SlotOf(OnEvent(0, POLLIN)) == Some(InSlot) && SlotOf(OnEvent(0, POLLOUT)) == Some(OutSlot)
    ensures SlotOf(OnEvent(1, POLLERR)) == Some(ErrSlot)
  {
  }

  lemma SlotOfSource(s: E.SlaveState, e: E.Event)
    requires SourceOf(s, e).Some?
    ensures EndToEnd.SlotFor(SourceOf(s, e).value) ==
            match e
            case Code(c) => Some(CodeSlot(c))
            case PollIn => Some(InSlot)
            case PollOut => Some(OutSlot)
            case Tick(_) => None
            case _ => Some(ErrSlot)
  {
  }

  /** The last declaration among five at most. */
  lemma LastForFive(t: seq<TransTemplate>, slot: Slot)
    requires |t| <= 5
    ensures LastFor(t, slot) ==
            if |t| > 4 && SlotOf(t[4]) == Some(slot) then Some(t[4])
            else if |t| > 3 && SlotOf(t[3]) == Some(slot) then Some(t[3])
            else if |t| > 2 && SlotOf(t[2]) == Some(slot) then Some(t[2])
            else if |t| > 1 && SlotOf(t[1]) == Some(slot) then Some(t[1])
            else if |t| > 0 && SlotOf(t[0]) == Some(slot) then Some(t[0])
            else None
  {
    hide SlotOf;
  }

  lemma HandlerName(s: E.SlaveState, e: E.Event)
    requires E.Declared(s, e) == E.Self
    ensures ActionName("slave", SlaveNames()[StateIndex(s)], Chosen(s, e).value) == Handler(s, e)
  {
    var state, tr := SlaveNames()[StateIndex(s)], Chosen(s, e).value;
    CodeDigit(0);
    CodeDigit(1);
    assert [DigitChar(0)] == "0" && [DigitChar(1)] == "1";
    hide CodeText, SlaveNames, StateIndex;
    assert ChannelText(tr.channel) + CodeText(tr.code) == HandlerSuffix(e);
    hide HandlerSuffix, Chosen, ChannelText;
    assert "slave" + "_" + state + "_" + ChannelText(tr.channel) + CodeText(tr.code) ==
           "slave" + "_" + state + "_" + (ChannelText(tr.channel) + CodeText(tr.code));
  }

  lemma CodeDigit(n: nat)
    requires n < 10
    ensures CodeText(n) == [DigitChar(n)]
  {
    hide ToInt;
    assert Decimal(n) == [DigitChar(n)];
  }

  /** The machine is in state s of the loaded program. */
  ghost predicate InState(m: D.Model, p: Program, tools: Tools, s: E.SlaveState)
    requires ProgramOk(p)
  {
    EndToEnd.Runs(m, "slave", p, tools) && m.current == StateIndex(s)
  }

  /** What the protocol's table says of the event is what the dispatcher does. */
  ghost predicate AsDeclared(p: Program, m: D.Model, tools: Tools, s: E.SlaveState, e: E.Event, a: D.Answers,
                             r: D.Delivery)
    requires ProgramOk(p) && m.current < |Names(p)| == |SlaveNames()|
  {
    match E.Declared(s, e)
    case Undeclared => r == D.Delivery(m, D.NullCall, [])
    case Goto(t) => Moves(p, "slave", tools, m, StateIndex(t), a, r)
    case Self => Handler(s, e) in tools && r == D.Delivery(m, D.Returned(a.action), [D.RunAction(tools[Handler(s, e)])])
  }

  /** The text of slave.esma, in any layout, parses; and a machine loaded from it
      does in every state, with every code and every event of its descriptor or
      timer, what the protocol's table says. A failing read runs nothing. */
  lemma TextIsTable(p: Program, tools: Tools, m: D.Model, s: E.SlaveState, e: E.Event, a: D.Answers)
    requires IsSlave(p) && InState(m, p, tools, s) && SourceOf(s, e).Some?
    ensures DecodeText(NewTemplate("slave"), ProgramText(p)) == Done(TemplateOf("slave", p))
    ensures D.ModelOk(m) && |m.states| == |SlaveNames()| && D.SourceOk(m, SourceOf(s, e).value)
    ensures var r := D.Send(m, SourceOf(s, e).value, a);
            if !e.Code? && a.read then r == D.Delivery(m, D.Returned(1), []) else AsDeclared(p, m, tools, s, e, a, r)
  {
    hide ProgramOk, DecodeText, ProgramText, TransOf, SlaveTrans, Chosen, E.Declared, D.ModelOk, D.Send,
         Promised, Declares, Deciding, Unheard, AsDeclared;
    var src := SourceOf(s, e).value;
    SourceDeclared(p, s, e, a);
    EndToEnd.TextDecidesStep(p, "slave", tools, m, src, a);
    if e.Code? || !a.read {
      PromiseIsTable(p, tools, m, s, e, a, D.Send(m, src, a));
    }
  }

  /** What the text promises is what the table says. */
  lemma PromiseIsTable(p: Program, tools: Tools, m: D.Model, s: E.SlaveState, e: E.Event, a: D.Answers, r: D.Delivery)
    requires IsSlave(p) && SourceOf(s, e).Some? && Declares(p, SourceOf(s, e).value)
    requires m.current == StateIndex(s)
    requires Promised(Deciding(p, m.current, SourceOf(s, e).value), m, "slave", p, tools, a, r)
    ensures AsDeclared(p, m, tools, s, e, a, r)
  {
    hide ProgramOk, TransOf, SlaveTrans, Chosen, E.Declared, ActionName, Moves, Promised, Declares, Deciding, Meaning,
         TransOk, Handler, SourceOf;
    ChosenDecides(p, s, e);
    ChosenNext(s, e);
    match Deciding(p, m.current, SourceOf(s, e).value)
    case None => NothingMeans(p, m, tools, a, r);
    case Some(d) =>
      EndToEnd.PromisedMeaning(d, m, "slave", p, tools, a, r);
      if E.Declared(s, e) == E.Self {
        HandlerName(s, e);
      }
  }

  lemma NothingMeans(p: Program, m: D.Model, tools: Tools, a: D.Answers, r: D.Delivery)
    requires ProgramOk(p) && m.current < |Names(p)|
    requires Promised(None, m, "slave", p, tools, a, r)
    ensures r == D.Delivery(m, D.NullCall, [])
  {
  }

  /** Every event of the protocol is one of the text's channels. */
  lemma SourceDeclared(p: Program, s: E.SlaveState, e: E.Event, a: D.Answers)
    requires IsSlave(p) && SourceOf(s, e).Some?
    ensures |Names(p)| == |SlaveNames()|
    ensures Declares(p, SourceOf(s, e).value) && (Unheard(SourceOf(s, e).value, a) <==> !e.Code? && a.read)
  {
    hide ProgramOk, TransOf, SlaveTrans, DeclaredOn, OnChannel, LastFor;
    EndToEnd.TransesOk(p);
    if e.Tick? {
      TimerIsFirst(s);
      EndToEnd.OnChannelDeclared(p.trans, Names(p), Names(p)[StateIndex(s)], Tick);
    }
  }

  /** The text's deciding declaration means the entry chosen by the table. */
  lemma ChosenDecides(p: Program, s: E.SlaveState, e: E.Event)
    requires IsSlave(p) && SourceOf(s, e).Some? && Declares(p, SourceOf(s, e).value)
    ensures forall i :: 0 <= i < |p.trans| ==> TransOk(p.trans[i], Names(p))
    ensures match Deciding(p, StateIndex(s), SourceOf(s, e).value)
            case None => Chosen(s, e) == None
            case Some(d) => Chosen(s, e) == Some(Meaning(d, Names(p))) && d.src == SlaveNames()[StateIndex(s)]
  {
    hide ProgramOk, TransOf, SlaveTrans, LastFor, OnChannel, Meaning, TransOk, DeclaredOn, Chosen, LastHearing;
    var src := SourceOf(s, e).value;
    EndToEnd.DecidingMeans(p, StateIndex(s), src);
    if e.Tick? {
      TimerIsFirst(s);
      TimerChosen(s);
    } else {
      TableIsDeclared(s, e, EndToEnd.SlotFor(src).value);
    }
  }

  lemma TimerChosen(s: E.SlaveState)
    requires s in {E.Recv, E.Send}
    ensures Chosen(s, E.Tick(0)) == Some(TIMEOUT)
  {
  }

  lemma {:induction false} NoTimers(t: seq<TransTemplate>)
    requires forall i :: 0 <= i < |t| ==> t[i].channel != Tick
    ensures OnChannel(t, Tick) == []
  {
    if t != [] {
      NoTimers(t[1..]);
    }
  }

  lemma TimerIsFirst(s: E.SlaveState)
    requires s in {E.Recv, E.Send}
    ensures OnChannel(SlaveTrans(s), Tick) == [TIMEOUT]
  {
    NoTimers(SlaveTrans(s)[1..]);
  }

  /** The protocol's slave does what the text declares: a declaration decides the state
      it is in afterwards, and without one the engine crashes. When the channel cannot
      be read, or shows nothing that is known, the engine stops. */
  lemma SlaveFollowsText(s: E.Slave, e: E.Event, a: E.Answer)
    ensures e.NoPoll? || a.fault ==> E.React(s, e, a) == E.Effect(s, false, None, E.Stopped)
    ensures !e.NoPoll? && !a.fault ==>
              var r := E.React(s, e, a);
              match E.Declared(s.state, e)
              case Undeclared => r == E.Effect(s, false, None, E.Crashed)
              case Goto(t) => r.slave.state == t && r.status == if t.Fini? then E.Stopped else E.Running
              case Self => r.slave.state == s.state && r.slave.armed == s.armed && !r.pooled && r.status == E.Running
  {
  }

  // --------------------------------------------------------------- its functions

  /** The state calls the function on entering, and the other, if there is one, on
      leaving. */
  predicate Calls(s: LoadedState, tools: Tools, enter: string, leave: string) {
    && enter in tools && s.enter == tools[enter]
    && s.leave == (if leave in tools then Some(tools[leave]) else None)
  }

  /** The functions of slave.c. */
  function EnterOf(s: E.SlaveState): string {
    match s
    case Init => "slave_init_enter" case Fini => "slave_fini_enter" case Idle => "slave_idle_enter"
    case Recv => "slave_recv_enter" case Send => "slave_send_enter" case Done => "slave_done_enter"
  }

  function LeaveOf(s: E.SlaveState): string {
    match s
    case Init => "slave_init_leave" case Fini => "slave_fini_leave" case Idle => "slave_idle_leave"
    case Recv => "slave_recv_leave" case Send => "slave_send_leave" case Done => "slave_done_leave"
  }

  function ActionsOf(s: E.SlaveState): set<string> {
    match s
    case Idle => {"slave_idle_1"}
    case Recv => {"slave_recv_tick_0", "slave_recv_data_0", "slave_recv_data_1"}
    case Send => {"slave_send_tick_0", "slave_send_data_0", "slave_send_data_1"}
    case _ => {}
  }

  lemma ServingText(s: E.SlaveState)
    requires s in {E.Recv, E.Send, E.Done}
    ensures "slave" + "_" + SlaveNames()[StateIndex(s)] + "_enter" == EnterOf(s)
    ensures "slave" + "_" + SlaveNames()[StateIndex(s)] + "_leave" == LeaveOf(s)
  {
    assert "slave" + "_" == "slave_";
  }

  lemma RestingText(s: E.SlaveState)
    requires s in {E.Init, E.Fini, E.Idle}
    ensures "slave" + "_" + SlaveNames()[StateIndex(s)] + "_enter" == EnterOf(s)
    ensures "slave" + "_" + SlaveNames()[StateIndex(s)] + "_leave" == LeaveOf(s)
  {
    assert "slave" + "_" == "slave_";
  }

  lemma FunctionTexts(s: E.SlaveState)
    ensures "slave" + "_" + SlaveNames()[StateIndex(s)] + "_enter" == EnterOf(s)
    ensures "slave" + "_" + SlaveNames()[StateIndex(s)] + "_leave" == LeaveOf(s)
  {
    hide EnterOf, LeaveOf, SlaveNames;
    if s in {E.Init, E.Fini, E.Idle} {
      RestingText(s);
    } else {
      ServingText(s);
    }
  }

  /** A machine loaded from slave.esma enters and leaves its states with the functions
      of their names. */
  lemma SlaveCalls(p: Program, tools: Tools, m: D.Model, s: E.SlaveState)
    requires IsSlave(p) && EndToEnd.Runs(m, "slave", p, tools)
    ensures |m.states| == 6 && Calls(m.states[StateIndex(s)], tools, EnterOf(s), LeaveOf(s))
  {
    hide ProgramOk, TransOf, SlaveTrans, EndToEnd.Runs, D.ModelOk, EnterOf, LeaveOf, Timers, Signals, TimerSlots;
    EndToEnd.TablesLoaded(m, "slave", p, tools);
    FunctionTexts(s);
    var k := StateIndex(s);
    assert EndToEnd.Loaded(p, "slave", tools, k, m.states[k]);
  }

  /** The file can be loaded exactly if there are all enter functions and actions. */
  lemma SlaveLoads(p: Program, tools: Tools, s: E.SlaveState)
    requires IsSlave(p) && StateIndex(s) < |TemplateOf("slave", p).states|
    ensures LoadState(TemplateOf("slave", p), StateIndex(s), tools).Some? <==>
            EnterOf(s) in tools && ActionsOf(s) <= tools.Keys
  {
    var t, k := TemplateOf("slave", p), StateIndex(s);
    EndToEnd.ParsedIsConsistent("slave", p);
    LoadKeepsMeaning(t, k, tools);
    EndToEnd.StateOfProgram("slave", p, k);
    hide ProgramOk, LoadState, TransOf, EnterOf, ActionsOf, ActionName, Consistent, TemplateOf;
    FunctionTexts(s);
    ActionsNamed(s, tools);
  }

  lemma ActionsNamed(s: E.SlaveState, tools: Tools)
    ensures AllFound("slave", SlaveNames()[StateIndex(s)], SlaveTrans(s), tools) <==> ActionsOf(s) <= tools.Keys
  {
    hide ActionName;
    ActionTexts();
    var ts := SlaveTrans(s);
    if AllFound("slave", SlaveNames()[StateIndex(s)], ts, tools) {
      assert s == E.Idle || s == E.Recv || s == E.Send ==> ts[0].next.None?;
      assert s == E.Recv || s == E.Send ==> ts[1].next.None? && ts[2].next.None?;
    }
  }

  lemma ActionTexts()
    ensures ActionName("slave", "idle", Plain(1, None)) == "slave_idle_1"
    ensures ActionName("slave", "recv", TIMEOUT) == "slave_recv_tick_0"
    ensures ActionName("slave", "recv", OnEvent(0, POLLIN)) == "slave_recv_data_0"
    ensures ActionName("slave", "recv", OnEvent(1, POLLERR)) == "slave_recv_data_1"
    ensures ActionName("slave", "send", TIMEOUT) == "slave_send_tick_0"
    ensures ActionName("slave", "send", OnEvent(0, POLLOUT)) == "slave_send_data_0"
    ensures ActionName("slave", "send", OnEvent(1, POLLERR)) == "slave_send_data_1"
  {
    CodeDigit(0);
    CodeDigit(1);
    hide CodeText;
    assert [DigitChar(0)] == "0" && [DigitChar(1)] == "1";
  }
}
