/** What the text of a program promises: for every event the declaration that decides,
    and for every declaration what the engine does. */
module Promises {
  import opened Wrappers
  import opened Text
  import opened Template
  import opened Surface
  import opened Loader
  import D = Dispatcher

  // --------------------------------------------------- the deciding declaration

  /** Whether a trigger waits for the event: a code for itself, and an event of the
      descriptor for its own or, if it is an error or a hang-up, for both of these. */
  predicate Hears(l: Trigger, src: D.Source) {
    match (l, src)
    case (PlainTrigger(n, _), Message(c)) => n == c
    case (DataTrigger(_, _, In, _), IoEvent(e)) => e == POLLIN
    case (DataTrigger(_, _, Out, _), IoEvent(e)) => e == POLLOUT
    case (DataTrigger(_, _, _, _), IoEvent(e)) => e == POLLERR || e == POLLHUP
    case _ => false
  }

  predicate HeardIn(d: TransDecl, state: string, src: D.Source) {
    d.src == state && Hears(d.on, src)
  }

  /** The last declaration for the state that waits for the event. */
  function LastHearing(ts: seq<TransDecl>, state: string, src: D.Source): (d: Option<TransDecl>)
    ensures match d
            case None => forall j :: 0 <= j < |ts| ==> !HeardIn(ts[j], state, src)
            case Some(t) => exists k :: 0 <= k < |ts| && ts[k] == t && HeardIn(t, state, src) &&
                                        forall j :: k < j < |ts| ==> !HeardIn(ts[j], state, src)
    decreases |ts|
  {
    if ts == [] then None
    else
      var n := |ts| - 1;
      if HeardIn(ts[n], state, src) then Some(ts[n])
      else
        assert forall j :: 0 <= j < n ==> ts[..n][j] == ts[j];
        LastHearing(ts[..n], state, src)
  }

  function ChannelOf(l: Trigger): Channel {
    match l
    case PlainTrigger(_, _) => NoChannel
    case TickTrigger(_, _, _, _, _, _) => Tick
    case DataTrigger(_, _, _, _) => Data
    case SignTrigger(_, _, _, _) => Sign
  }

  /** The declarations for the state on channels of the kind, in order. */
  function DeclaredOn(ts: seq<TransDecl>, state: string, ch: Channel): (ds: seq<TransDecl>)
    ensures forall k :: 0 <= k < |ds| ==> ds[k] in ts && ds[k].src == state && ChannelOf(ds[k].on) == ch
    decreases |ts|
  {
    if ts == [] then []
    else (if ts[0].src == state && ChannelOf(ts[0].on) == ch then [ts[0]] else []) + DeclaredOn(ts[1..], state, ch)
  }

  /** The k-th declaration on a channel is the one with k such declarations before it. */
  lemma {:induction false} CountsBefore(ts: seq<TransDecl>, state: string, ch: Channel, j: nat)
    requires j < |ts| && ts[j].src == state && ChannelOf(ts[j].on) == ch
    ensures var k := |DeclaredOn(ts[..j], state, ch)|;
            k < |DeclaredOn(ts, state, ch)| && DeclaredOn(ts, state, ch)[k] == ts[j]
    decreases |ts|
  {
    hide ChannelOf;
    if j > 0 {
      CountsBefore(ts[1..], state, ch, j - 1);
      assert ts[..j][1..] == ts[1..][..j - 1] && ts[..j][0] == ts[0];
    }
  }

  // ---------------------------------------------------------- what is promised

  function Timers(p: Program, k: nat): nat
    requires k < |Names(p)|
  {
    |DeclaredOn(p.trans, Names(p)[k], Tick)|
  }

  function Signals(p: Program, k: nat): nat
    requires k < |Names(p)|
  {
    |DeclaredOn(p.trans, Names(p)[k], Sign)|
  }

  /** The slots for timers in which something is known to stand: those of the timers,
      and those up to the largest number of a timer. */
  function TimerSlots(p: Program, k: nat): nat
    requires ProgramOk(p) && k < |Names(p)|
  {
    Max(Timers(p, k), MaxCode(TransOf(p.trans, Names(p), Names(p)[k]), Tick) + 1)
  }

  /** Whether the timers of state k are disarmed and its signals masked: for these the
      slots of the timers are taken. */
  predicate Stops(p: Program, k: nat, a: D.Answers)
    requires ProgramOk(p) && k < |Names(p)|
  {
    && (a.stopFails.Some? ==> a.stopFails.value >= Timers(p, k))
    && (a.maskFails.Some? ==> a.maskFails.value >= Signals(p, k))
    && Signals(p, k) <= TimerSlots(p, k)
  }

  /** Whether the system refuses to disarm a timer or, before the slots run out, to mask
      a signal. */
  predicate Refused(p: Program, k: nat, a: D.Answers)
    requires ProgramOk(p) && k < |Names(p)|
  {
    || (a.stopFails.Some? && a.stopFails.value < Timers(p, k))
    || (a.maskFails.Some? && a.maskFails.value < Signals(p, k) && a.maskFails.value < TimerSlots(p, k))
  }

  /** A step from the current state to state k: which functions are called, by their
      names, where the machine is then, and which timers are armed. */
  ghost predicate Moves(p: Program, machine: string, tools: Tools, m: D.Model, k: nat, a: D.Answers, r: D.Delivery)
    requires ProgramOk(p) && m.current < |Names(p)| && k < |Names(p)|
  {
    var enter := machine + "_" + Names(p)[k] + "_enter";
    var leave := machine + "_" + Names(p)[m.current] + "_leave";
    var leaveAgain := machine + "_" + Names(p)[k] + "_leave";
    var left := if leave in tools then [D.Leave(tools[leave])] else [];
    var leftAgain := if leaveAgain in tools then [D.Leave(tools[leaveAgain])] else [];
    var disarmed := m.armed - D.TimersOf(m.current, D.Reached(a.stopFails, Timers(p, m.current)));
    var started := (a.startFails.Some? ==> a.startFails.value >= Timers(p, k)) && (a.signsFail ==> Signals(p, k) == 0);
    && enter in tools && r.after.states == m.states
    && (!Stops(p, m.current, a) ==>
          r.calls == [] && r.after.current == m.current && r.after.armed == disarmed
          && r.outcome == if Refused(p, m.current, a) then D.Returned(1) else D.BadStop)
    && (Stops(p, m.current, a) && leave in tools && a.leave != 0 ==>
          r.calls == [D.Leave(tools[leave])] && r.after.current == m.current && r.after.armed == disarmed
          && r.outcome == D.Returned(1))
    && (Stops(p, m.current, a) && (leave in tools ==> a.leave == 0) && a.enter != 0 ==>
          r.calls == left + [D.Enter(tools[enter])] + leftAgain && r.after.current == k && r.after.armed == disarmed
          && r.outcome == D.Returned(a.enter))
    && (Stops(p, m.current, a) && (leave in tools ==> a.leave == 0) && a.enter == 0 ==>
          r.calls == left + [D.Enter(tools[enter])] && r.after.current == k
          && r.after.armed == disarmed + D.TimersOf(k, D.Reached(a.startFails, Timers(p, k)))
          && r.outcome == if started then D.Returned(0) else D.Exited)
  }

  /** The function of a transition to self. */
  function Function(machine: string, d: TransDecl): string {
    machine + "_" + d.src + "_" +
    (match d.on
     case PlainTrigger(_, _) => ""
     case TickTrigger(_, _, _, _, _, _) => "tick_"
     case DataTrigger(_, _, _, _) => "data_"
     case SignTrigger(_, _, _, _) => "sign_") +
    Decimal(d.on.code)
  }

  /** What a declaration promises: its function is called, or the machine goes to its
      target; without one the engine calls through a null pointer. */
  ghost predicate Promised(d: Option<TransDecl>, m: D.Model, machine: string, p: Program, tools: Tools,
                           a: D.Answers, r: D.Delivery)
    requires ProgramOk(p) && m.current < |Names(p)|
    requires d.Some? ==> TransOk(d.value, Names(p))
  {
    match d
    case None => r == D.Delivery(m, D.NullCall, [])
    case Some(d) =>
      match d.dst
      case Some(target) => Moves(p, machine, tools, m, IndexOf(Names(p), target), a, r)
      case None =>
        Function(machine, d) in tools
        && r == D.Delivery(m, D.Returned(a.action), [D.RunAction(tools[Function(machine, d)])])
  }

  /** A channel that the text declares. */
  predicate Declares(p: Program, src: D.Source) {
    match src
    case Message(_) => true
    case IoEvent(_) => true
    case TimerEvent(t) => t.0 < |Names(p)| && t.1 < Timers(p, t.0)
    case SignalEvent(t) => t.0 < |Names(p)| && t.1 < Signals(p, t.0)
  }

  /** The declaration that decides what happens in state k: the last one for the code
      or event, and a timer's or a signal's own. */
  function Deciding(p: Program, k: nat, src: D.Source): (d: Option<TransDecl>)
    requires ProgramOk(p) && k < |Names(p)| && Declares(p, src)
    ensures d.Some? ==> d.value in p.trans && TransOk(d.value, Names(p))
  {
    match src
    case TimerEvent(t) => Some(DeclaredOn(p.trans, Names(p)[t.0], Tick)[t.1])
    case SignalEvent(t) => Some(DeclaredOn(p.trans, Names(p)[t.0], Sign)[t.1])
    case _ => LastHearing(p.trans, Names(p)[k], src)
  }

  /** Nothing is done when a descriptor cannot be read or shows an unknown event. */
  predicate Unheard(src: D.Source, a: D.Answers) {
    !src.Message? && (a.read || (src.IoEvent? && src.event !in {POLLIN, POLLOUT, POLLERR, POLLHUP}))
  }
}
