/** The master's part of the protocol is what the text of master.esma, parsed, loaded
    and dispatched, does. */
module EchoMaster {
  import opened Wrappers
  import opened Text
  import opened Template
  import opened Decoder
  import opened Surface
  import opened Loader
  import opened Compile
  import opened Promises
  import D = Dispatcher
  import E = EchoServer
  import EchoText
  import EndToEnd
  import RoundTrip

  function MasterNames(): seq<string> {
    ["init", "fini", "work"]
  }

  const FINI: nat := 1
  const WORK: nat := 2

  function WorkTimers(): seq<TransTemplate> {
    [TransTemplate(0, Tick, 400, PERIODIC, None), TransTemplate(3, Tick, 10000000, ONESHOT, Some(FINI))]
  }

  /** SIGUSR1 and SIGUSR2 */
  function WorkSignals(): seq<TransTemplate> {
    [TransTemplate(0, Sign, 10, 0, None), TransTemplate(1, Sign, 12, 0, None)]
  }

  function Others(): seq<TransTemplate> {
    [EchoText.OnEvent(0, POLLIN), EchoText.OnEvent(1, POLLERR), EchoText.Plain(3, Some(FINI))]
  }

  /** The transitions master.esma declares for each state, in order. */
  function MasterTrans(k: nat): seq<TransTemplate> {
    if k == INIT then [EchoText.Plain(0, Some(WORK)), EchoText.Plain(3, Some(FINI))]
    else if k == WORK then WorkTimers() + WorkSignals() + Others()
    else []
  }

  /** p is the program of master.esma, in any layout. */
  ghost predicate IsMaster(p: Program) {
    && ProgramOk(p) && Names(p) == MasterNames()
    && forall k :: 0 <= k < 3 ==> TransOf(p.trans, Names(p), Names(p)[k]) == MasterTrans(k)
  }

  datatype Reaction = Undeclared | Run(name: string) | Goto(k: nat)

  /** The transitions of master.esma with the functions of master.c. */
  function Declared(working: bool, e: E.Event): Reaction {
    match e
    case Code(c) => if c == 3 then Goto(FINI) else if !working && c == 0 then Goto(WORK) else Undeclared
    case Tick(k) =>
      if working && k == 0 then Run("master_work_tick_0") else if working && k == 3 then Goto(FINI) else Undeclared
    case Sign(k) =>
      if working && k == 0 then Run("master_work_sign_0")
      else if working && k == 1 then Run("master_work_sign_1")
      else Undeclared
    case PollIn => if working then Run("master_work_data_0") else Undeclared
    case PollErr => if working then Run("master_work_data_1") else Undeclared
    case PollHup => if working then Run("master_work_data_1") else Undeclared
    case _ => Undeclared
  }

  function StateOf(working: bool): nat {
    if working then WORK else INIT
  }

  /** What the engine calls the event: the timer with number 3 is the second one. */
  function SourceOf(working: bool, e: E.Event): Option<D.Source> {
    match e
    case Code(c) => Some(D.Message(c))
    case PollIn => Some(D.IoEvent(POLLIN))
    case PollOut => Some(D.IoEvent(POLLOUT))
    case PollErr => Some(D.IoEvent(POLLERR))
    case PollHup => Some(D.IoEvent(POLLHUP))
    case Tick(k) =>
      if working && k == 0 then Some(D.TimerEvent((WORK, 0)))
      else if working && k == 3 then Some(D.TimerEvent((WORK, 1)))
      else None
    case Sign(k) => if working && k <= 1 then Some(D.SignalEvent((WORK, k))) else None
    case NoPoll => None
  }

  // ------------------------------------------------------------- the transitions

  /** The transition that decides. */
  function Chosen(working: bool, e: E.Event): Option<TransTemplate> {
    if !working then
      (if e == E.Code(0) then Some(EchoText.Plain(0, Some(WORK)))
       else if e == E.Code(3) then Some(EchoText.Plain(3, Some(FINI))) else None)
    else
      match e
      case Code(c) => if c == 3 then Some(EchoText.Plain(3, Some(FINI))) else None
      case Tick(k) => Some(WorkTimers()[if k == 0 then 0 else 1])
      case Sign(k) => Some(WorkSignals()[if k == 0 then 0 else 1])
      case PollIn => Some(EchoText.OnEvent(0, POLLIN))
      case PollErr => Some(EchoText.OnEvent(1, POLLERR))
      case PollHup => Some(EchoText.OnEvent(1, POLLERR))
      case _ => None
  }

  lemma {:induction false} LastForSplit(a: seq<TransTemplate>, b: seq<TransTemplate>, slot: Slot)
    ensures LastFor(a + b, slot) == if LastFor(b, slot).Some? then LastFor(b, slot) else LastFor(a, slot)
    decreases |a|
  {
    hide SlotOf, LastFor;
    if a == [] {
      assert a + b == b;
      EndToEnd.NothingLast(slot);
    } else {
      assert (a + b)[1..] == a[1..] + b;
      LastForSplit(a[1..], b, slot);
      LastForCons(a, slot);
      LastForCons(a + b, slot);
    }
  }

  lemma OnChannelCons(t: TransTemplate, ts: seq<TransTemplate>, ch: Channel)
    ensures OnChannel([t] + ts, ch) == (if t.channel == ch then [t] else []) + OnChannel(ts, ch)
  {
    assert ([t] + ts)[1..] == ts;
  }

  lemma {:induction false} OnChannelSplit(a: seq<TransTemplate>, b: seq<TransTemplate>, ch: Channel)
    ensures OnChannel(a + b, ch) == OnChannel(a, ch) + OnChannel(b, ch)
    decreases |a|
  {
    if a == [] {
      assert a + b == b && OnChannel(a, ch) == [];
    } else {
      OnChannelSplit(a[1..], b, ch);
      OnChannelCons(a[0], a[1..], ch);
      OnChannelCons(a[0], a[1..] + b, ch);
      assert [a[0]] + a[1..] == a && [a[0]] + (a[1..] + b) == a + b;
      hide OnChannel;
      RoundTrip.Associates(if a[0].channel == ch then [a[0]] else [], OnChannel(a[1..], ch), OnChannel(b, ch));
    }
  }

  lemma TimerChannels()
    ensures OnChannel(WorkTimers(), Tick) == WorkTimers() && OnChannel(WorkTimers(), Sign) == []
  {
  }

  lemma SignalChannels()
    ensures OnChannel(WorkSignals(), Tick) == [] && OnChannel(WorkSignals(), Sign) == WorkSignals()
  {
  }

  lemma OtherChannels()
    ensures OnChannel(Others(), Tick) == [] && OnChannel(Others(), Sign) == []
  {
    assert Others()[1..][1..][1..] == [];
    assert Others()[1..][0] == Others()[1] && Others()[1..][1..][0] == Others()[2];
  }

  /** The timers and signals of the working master. */
  lemma WorkChannels()
    ensures OnChannel(MasterTrans(WORK), Tick) == WorkTimers() && OnChannel(MasterTrans(WORK), Sign) == WorkSignals()
  {
    hide OnChannel, WorkTimers, WorkSignals, Others;
    TimerChannels();
    SignalChannels();
    OtherChannels();
    OnChannelSplit(WorkTimers() + WorkSignals(), Others(), Tick);
    OnChannelSplit(WorkTimers(), WorkSignals(), Tick);
    OnChannelSplit(WorkTimers() + WorkSignals(), Others(), Sign);
    OnChannelSplit(WorkTimers(), WorkSignals(), Sign);
    assert WorkTimers() + [] + [] == WorkTimers() && [] + WorkSignals() + [] == WorkSignals();
  }

  lemma WorkSlots(slot: Slot)
    ensures LastFor(MasterTrans(WORK), slot) ==
            match slot
            case CodeSlot(c) => if c == 3 then Some(EchoText.Plain(3, Some(FINI))) else None
            case InSlot => Some(EchoText.OnEvent(0, POLLIN))
            case OutSlot => None
            case ErrSlot => Some(EchoText.OnEvent(1, POLLERR))
  {
    EchoText.LastForFive(WorkTimers(), slot);
    EchoText.LastForFive(WorkSignals(), slot);
    EchoText.LastForFive(Others(), slot);
    hide LastFor;
    LastForSplit(WorkTimers() + WorkSignals(), Others(), slot);
    LastForSplit(WorkTimers(), WorkSignals(), slot);
  }

  lemma InitSlots(slot: Slot)
    ensures LastFor(MasterTrans(INIT), slot) ==
            match slot
            case CodeSlot(c) =>
              if c == 0 then Some(EchoText.Plain(0, Some(WORK)))
              else if c == 3 then Some(EchoText.Plain(3, Some(FINI))) else None
            case _ => None
  {
    EchoText.LastForFive(MasterTrans(INIT), slot);
    hide LastFor;
  }

  lemma SlotChosen(working: bool, e: E.Event, slot: Slot)
    requires SourceOf(working, e).Some? && EndToEnd.SlotFor(SourceOf(working, e).value) == Some(slot)
    ensures LastFor(MasterTrans(StateOf(working)), slot) == Chosen(working, e)
  {
    hide LastFor, MasterTrans;
    WorkSlots(slot);
    InitSlots(slot);
  }

  lemma ChosenNext(working: bool, e: E.Event)
    requires SourceOf(working, e).Some?
    ensures match Declared(working, e)
            case Undeclared => Chosen(working, e) == None
            case Goto(k) => Chosen(working, e).Some? && Chosen(working, e).value.next == Some(k)
            case Run(f) => Chosen(working, e).Some? && Chosen(working, e).value.next == None && working
  {
  }

  lemma FunctionTexts()
    ensures ActionName("master", "work", WorkTimers()[0]) == "master_work_tick_0"
    ensures ActionName("master", "work", WorkSignals()[0]) == "master_work_sign_0"
    ensures ActionName("master", "work", WorkSignals()[1]) == "master_work_sign_1"
    ensures ActionName("master", "work", EchoText.OnEvent(0, POLLIN)) == "master_work_data_0"
    ensures ActionName("master", "work", EchoText.OnEvent(1, POLLERR)) == "master_work_data_1"
  {
    EchoText.CodeDigit(0);
    EchoText.CodeDigit(1);
    assert [DigitChar(0)] == "0" && [DigitChar(1)] == "1";
    assert "master" + "_" + "work" + "_" == "master_work_";
    hide CodeText;
  }

  lemma FunctionName(working: bool, e: E.Event)
    requires SourceOf(working, e).Some? && Declared(working, e).Run?
    ensures Chosen(working, e).Some?
    ensures ActionName("master", "work", Chosen(working, e).value) == Declared(working, e).name
  {
    hide ActionName;
    FunctionTexts();
  }

  // --------------------------------------------------------------------- the text

  /** The text's deciding declaration means the entry chosen by the table. */
  lemma ChosenDecides(p: Program, working: bool, e: E.Event)
    requires IsMaster(p) && SourceOf(working, e).Some? && Declares(p, SourceOf(working, e).value)
    ensures forall i :: 0 <= i < |p.trans| ==> TransOk(p.trans[i], Names(p))
    ensures match Deciding(p, StateOf(working), SourceOf(working, e).value)
            case None => Chosen(working, e) == None
            case Some(d) => Chosen(working, e) == Some(Meaning(d, Names(p))) && d.src == MasterNames()[StateOf(working)]
  {
    hide ProgramOk, TransOf, MasterTrans, LastFor, OnChannel, Meaning, TransOk, DeclaredOn, LastHearing;
    var src := SourceOf(working, e).value;
    EndToEnd.DecidingMeans(p, StateOf(working), src);
    WorkChannels();
    if EndToEnd.SlotFor(src).Some? {
      SlotChosen(working, e, EndToEnd.SlotFor(src).value);
    }
  }

  /** Every event of the protocol is one of the text's channels. */
  lemma SourceDeclared(p: Program, working: bool, e: E.Event, a: D.Answers)
    requires IsMaster(p) && SourceOf(working, e).Some?
    ensures |Names(p)| == 3
    ensures Declares(p, SourceOf(working, e).value) && (Unheard(SourceOf(working, e).value, a) <==> !e.Code? && a.read)
  {
    hide ProgramOk, TransOf, MasterTrans, DeclaredOn, OnChannel, LastFor;
    EndToEnd.TransesOk(p);
    WorkChannels();
    EndToEnd.OnChannelDeclared(p.trans, Names(p), Names(p)[WORK], Tick);
    EndToEnd.OnChannelDeclared(p.trans, Names(p), Names(p)[WORK], Sign);
  }

  ghost predicate AsDeclared(p: Program, m: D.Model, tools: Tools, working: bool, e: E.Event, a: D.Answers,
                             r: D.Delivery)
    requires ProgramOk(p) && m.current < |Names(p)| == 3
  {
    match Declared(working, e)
    case Undeclared => r == D.Delivery(m, D.NullCall, [])
    case Goto(k) => k < 3 && Moves(p, "master", tools, m, k, a, r)
    case Run(f) => f in tools && r == D.Delivery(m, D.Returned(a.action), [D.RunAction(tools[f])])
  }

  /** The text of master.esma, in any layout, parses; and a machine loaded from it does
      with every code and every event of its timers, signals and descriptor what the
      table says. A failing read runs nothing. */
  lemma TextIsMaster(p: Program, tools: Tools, m: D.Model, working: bool, e: E.Event, a: D.Answers)
    requires IsMaster(p) && EndToEnd.Runs(m, "master", p, tools) && m.current == StateOf(working)
    requires SourceOf(working, e).Some?
    ensures DecodeText(NewTemplate("master"), ProgramText(p)) == Done(TemplateOf("master", p))
    ensures D.ModelOk(m) && |m.states| == 3 && D.SourceOk(m, SourceOf(working, e).value)
    ensures var r := D.Send(m, SourceOf(working, e).value, a);
            if !e.Code? && a.read then r == D.Delivery(m, D.Returned(1), [])
            else AsDeclared(p, m, tools, working, e, a, r)
  {
    hide ProgramOk, DecodeText, ProgramText, TransOf, MasterTrans, Chosen, Declared, D.ModelOk, D.Send,
         Promised, Declares, Deciding, Unheard, AsDeclared;
    var src := SourceOf(working, e).value;
    SourceDeclared(p, working, e, a);
    EndToEnd.TextDecidesStep(p, "master", tools, m, src, a);
    if e.Code? || !a.read {
      PromiseIsTable(p, tools, m, working, e, a, D.Send(m, src, a));
    }
  }

  lemma PromiseIsTable(p: Program, tools: Tools, m: D.Model, working: bool, e: E.Event, a: D.Answers, r: D.Delivery)
    requires IsMaster(p) && SourceOf(working, e).Some? && Declares(p, SourceOf(working, e).value)
    requires m.current == StateOf(working)
    requires Promised(Deciding(p, m.current, SourceOf(working, e).value), m, "master", p, tools, a, r)
    ensures AsDeclared(p, m, tools, working, e, a, r)
  {
    hide ProgramOk, TransOf, MasterTrans, Chosen, Declared, ActionName, Moves, Promised, Declares, Deciding, Meaning,
         TransOk, SourceOf;
    ChosenDecides(p, working, e);
    ChosenNext(working, e);
    match Deciding(p, m.current, SourceOf(working, e).value)
    case None => NothingMeans(p, m, tools, a, r);
    case Some(d) =>
      EndToEnd.PromisedMeaning(d, m, "master", p, tools, a, r);
      if Declared(working, e).Run? {
        FunctionName(working, e);
      }
  }

  lemma NothingMeans(p: Program, m: D.Model, tools: Tools, a: D.Answers, r: D.Delivery)
    requires ProgramOk(p) && m.current < |Names(p)|
    requires Promised(None, m, "master", p, tools, a, r)
    ensures r == D.Delivery(m, D.NullCall, [])
  {
  }

  // ----------------------------------------------------------------- the protocol

  /** The protocol's master does what the text declares: without a declaration the
      engine crashes, reaching fini it stops, reaching work it works, and of the
      functions only those for the descriptor do anything. */
  lemma MasterFollowsText(w: E.World, e: E.Event, a: E.Answer)
    requires !a.fault && SourceOf(w.working, e).Some?
    ensures E.MasterStep(w, e, a) ==
            match Declared(w.working, e)
            case Undeclared => w.(status := E.Crashed)
            case Goto(k) => if k == FINI then w.(status := E.Stopped) else w.(working := true)
            case Run(f) =>
              if f == "master_work_data_0" then E.NewClient(w, a)
              else if f == "master_work_data_1" then E.SendCode(w, E.Master, Some(3))
              else w
  {
    assert "master_work_data_0"[12] == "master_work_data_1"[12] == 'd';
    assert "master_work_tick_0"[12] == 't' && "master_work_sign_0"[12] == "master_work_sign_1"[12] == 's';
    assert "master_work_data_0"[17] == '0' && "master_work_data_1"[17] == '1';
    hide E.NewClient, E.SendCode;
  }
}
