/** Delivering one message to a loaded machine: Mealy transitions run an action
    and stay, Moore transitions leave, move and enter, and keep the timers of the
    current state armed. */
module Dispatcher {
  import opened Wrappers
  import opened Template
  import opened Loader

  /** A timer, by its state and its place there. */
  type Timer = (nat, nat)

  datatype Source =
    | Message(code: nat)             // sent by a machine
    | TimerEvent(timer: Timer)       // a timer channel: it brings its own transition
    | SignalEvent(signal: Timer)     // likewise a signal channel
    | IoEvent(event: nat)            // the IO channel, with the event that occurred

  /** What the called functions and the system answer; 0 and false are success.
      stopFails and startFails name the timer at which disarming or arming fails,
      maskFails the signal whose channel cannot be masked when the state is left, and
      signsFail says that enabling a signal channel fails. */
  datatype Answers =
    Answers(read: bool, action: int, leave: int, enter: int,
            stopFails: Option<nat>, maskFails: Option<nat>, startFails: Option<nat>, signsFail: bool)

  datatype Call = RunAction(f: Action) | Leave(f: Action) | Enter(f: Action)

  /** Returned from the dispatcher, ended the process, called through a null
      pointer, or used a slot that nobody has filled or zeroed while stopping signals. */
  datatype Outcome = Returned(err: int) | Exited | NullCall | BadStop

  datatype Model = Model(states: seq<LoadedState>, current: nat, armed: set<Timer>)

  datatype Delivery = Delivery(after: Model, outcome: Outcome, calls: seq<Call>)

  /** Targets exist, as the loader leaves them. */
  predicate TransOk(t: Trans, n: nat) {
    t.next.Some? ==> t.next.value < n
  }

  predicate StateOk(s: LoadedState, n: nat) {
    && (forall i :: 0 <= i < |s.trans| ==> TransOk(s.trans[i], n))
    && (forall i :: 0 <= i < |s.tick| ==> TransOk(s.tick[i], n))
    && (forall i :: 0 <= i < |s.sign| ==> TransOk(s.sign[i], n))
    && TransOk(s.pollin, n) && TransOk(s.pollout, n) && TransOk(s.pollerr, n)
  }

  predicate ModelOk(m: Model) {
    && m.current < |m.states|
    && forall i :: 0 <= i < |m.states| ==> StateOk(m.states[i], |m.states|)
  }

  /** An event comes from a channel the machine has. */
  predicate SourceOk(m: Model, src: Source) {
    match src
    case Message(_) => true
    case IoEvent(_) => true
    case TimerEvent(t) => t.0 < |m.states| && t.1 < |m.states[t.0].tick|
    case SignalEvent(t) => t.0 < |m.states| && t.1 < |m.states[t.0].sign|
  }

  function TimersOf(k: nat, n: nat): set<Timer> {
    set i: nat | i < n :: (k, i)
  }

  // ----------------------------------------------------------- specification

  /** The transition for the event; None if there is no place for it. */
  function Selected(m: Model, src: Source): Option<Trans>
    requires ModelOk(m) && SourceOk(m, src)
  {
    var s := m.states[m.current];
    match src
    case Message(c) => if c < |s.trans| then Some(s.trans[c]) else None
    case TimerEvent(t) => Some(m.states[t.0].tick[t.1])
    case SignalEvent(t) => Some(m.states[t.0].sign[t.1])
    case IoEvent(e) =>
      if e == POLLIN then Some(s.pollin) else if e == POLLOUT then Some(s.pollout)
      else if e == POLLERR || e == POLLHUP then Some(s.pollerr) else None
  }

  function Send(m: Model, src: Source, a: Answers): Delivery
    requires ModelOk(m) && SourceOk(m, src)
  {
    match Selected(m, src)
    case None => Delivery(m, if src.Message? then NullCall else Returned(1), [])
    case Some(t) =>
      SelectedOk(m, src);
      if !src.Message? && a.read then Delivery(m, Returned(1), [])
      else if t.next.None? then Mealy(m, t, a)
      else Moore(m, t.next.value, a)
  }

  lemma SelectedOk(m: Model, src: Source)
    requires ModelOk(m) && SourceOk(m, src)
    ensures Selected(m, src).Some? ==> TransOk(Selected(m, src).value, |m.states|)
  {
    assert StateOk(m.states[m.current], |m.states|);
    if src.TimerEvent? {
      assert StateOk(m.states[src.timer.0], |m.states|);
    }
    if src.SignalEvent? {
      assert StateOk(m.states[src.signal.0], |m.states|);
    }
  }

  function Mealy(m: Model, t: Trans, a: Answers): Delivery {
    match t.action
    case None => Delivery(m, NullCall, [])
    case Some(f) => Delivery(m, Returned(a.action), [RunAction(f)])
  }

  function LeaveCalls(s: LoadedState): seq<Call> {
    match s.leave case None => [] case Some(f) => [Leave(f)]
  }

  /** The timers disarmed, or armed, before the one that fails. */
  function Reached(fails: Option<nat>, n: nat): nat {
    if fails.Some? && fails.value < n then fails.value else n
  }

  /** The slots of a state's timers in which something is known to stand: a timer, or a
      zeroed entry that no timer has taken. */
  function KnownSlots(s: LoadedState): nat {
    if |s.tick| < s.tickSlots then s.tickSlots else |s.tick|
  }

  /** Leaving a state takes the timers' slots for the signals: it masks as many of them
      as there are signals. */
  function MaskSteps(s: LoadedState): nat {
    if |s.sign| < KnownSlots(s) then |s.sign| else KnownSlots(s)
  }

  /** How stopping the channels of a state ends. */
  function StopOutcome(s: LoadedState, stopFails: Option<nat>, maskFails: Option<nat>): Outcome {
    if Reached(stopFails, |s.tick|) < |s.tick| || Reached(maskFails, MaskSteps(s)) < MaskSteps(s) then Returned(1)
    else if |s.sign| > KnownSlots(s) then BadStop
    else Returned(0)
  }

  function Moore(m: Model, next: nat, a: Answers): Delivery
    requires m.current < |m.states| && next < |m.states|
  {
    var s, s' := m.states[m.current], m.states[next];
    var stopped := m.(armed := m.armed - TimersOf(m.current, Reached(a.stopFails, |s.tick|)));
    var moved := stopped.(current := next);
    var started := moved.(armed := moved.armed + TimersOf(next, Reached(a.startFails, |s'.tick|)));
    var stop := StopOutcome(s, a.stopFails, a.maskFails);
    if stop != Returned(0) then Delivery(stopped, stop, [])
    else if s.leave.Some? && a.leave != 0 then Delivery(stopped, Returned(1), LeaveCalls(s))
    else if a.enter != 0 then
      Delivery(moved, Returned(a.enter), LeaveCalls(s) + [Enter(s'.enter)] + LeaveCalls(s'))
    else if Reached(a.startFails, |s'.tick|) < |s'.tick| || (s'.sign != [] && a.signsFail) then
      Delivery(started, Exited, LeaveCalls(s) + [Enter(s'.enter)])
    else
      Delivery(started, Returned(0), LeaveCalls(s) + [Enter(s'.enter)])
  }

  // -------------------------------------------------------------- the machine

  class Esma {
    const states: seq<LoadedState>
    var current: nat
    var armed: set<Timer>

    constructor (states: seq<LoadedState>)
      requires |states| > INIT
      ensures Value() == Model(states, INIT, {})
    {
      this.states := states;
      current, armed := INIT, {};
    }

    function Value(): Model
      reads this
    {
      Model(states, current, armed)
    }

    /** esma_machine_run: enters init, and passes on what its function answers. */
    method Run(answer: int) returns (err: int, calls: seq<Call>)
      requires |states| > INIT
      modifies this`current
      ensures Value() == old(Value()).(current := INIT)
      ensures err == answer && calls == [Enter(states[INIT].enter)]
    {
      current := INIT;
      return answer, [Enter(states[current].enter)];
    }

    method StartChannels(k: nat, fails: Option<nat>, signsFail: bool) returns (err: bool)
      requires k < |states|
      modifies this`armed
      ensures armed == old(armed) + TimersOf(k, Reached(fails, |states[k].tick|))
      ensures err <==> Reached(fails, |states[k].tick|) < |states[k].tick| || (states[k].sign != [] && signsFail)
    {
      var n := |states[k].tick|;
      for i := 0 to n
        invariant i <= Reached(fails, n)
        invariant armed == old(armed) + TimersOf(k, i)
      {
        if fails == Some(i) {
          return true;
        }
        armed := armed + {(k, i)};
      }
      return states[k].sign != [] && signsFail;
    }

    method StopChannels(k: nat, fails: Option<nat>, maskFails: Option<nat>) returns (r: Outcome)
      requires k < |states|
      modifies this`armed
      ensures armed == old(armed) - TimersOf(k, Reached(fails, |states[k].tick|))
      ensures r == StopOutcome(states[k], fails, maskFails)
    {
      var n := |states[k].tick|;
      for i := 0 to n
        invariant i <= Reached(fails, n)
        invariant armed == old(armed) - TimersOf(k, i)
      {
        if fails == Some(i) {
          return Returned(1);
        }
        armed := armed - {(k, i)};
      }
      for i := 0 to |states[k].sign|
        invariant i <= KnownSlots(states[k]) && i <= Reached(maskFails, MaskSteps(states[k]))
      {
        if i >= n && i >= states[k].tickSlots {
          return BadStop;
        }
        if maskFails == Some(i) {
          return Returned(1);
        }
      }
      return Returned(0);
    }

    method DispatcherSend(src: Source, a: Answers) returns (outcome: Outcome, calls: seq<Call>)
      requires ModelOk(Value()) && SourceOk(Value(), src)
      modifies this
      ensures Delivery(Value(), outcome, calls) == Send(old(Value()), src, a)
    {
      hide ModelOk, TimersOf;
      assert current < |states| by { Bounds(Value()); }
      SelectedOk(Value(), src);
      calls := [];
      var state := states[current];
      var trans := EMPTY;
      match src {
        case Message(code) =>
          if code >= |state.trans| {
            return NullCall, [];
          }
          trans := state.trans[code];
        case TimerEvent(t) =>
          trans := states[t.0].tick[t.1];
        case SignalEvent(t) =>
          trans := states[t.0].sign[t.1];
        case IoEvent(e) =>
          if e == POLLIN {
            trans := state.pollin;
          } else if e == POLLOUT {
            trans := state.pollout;
          } else if e == POLLERR || e == POLLHUP {
            trans := state.pollerr;
          } else {
            return Returned(1), [];
          }
      }
      if !src.Message? && a.read {
        return Returned(1), [];
      }
      if trans.next.None? {
        if trans.action.None? {
          return NullCall, [];
        }
        return Returned(a.action), [RunAction(trans.action.value)];
      }
      outcome, calls := MooreStep(trans.next.value, a);
    }

    method MooreStep(next: nat, a: Answers) returns (outcome: Outcome, calls: seq<Call>)
      requires current < |states| && next < |states|
      modifies this
      ensures Delivery(Value(), outcome, calls) == Moore(old(Value()), next, a)
    {
      hide TimersOf;
      calls := [];
      var state := states[current];
      outcome := StopChannels(current, a.stopFails, a.maskFails);
      if outcome != Returned(0) {
        return;
      }
      if state.leave.Some? {
        calls := calls + [Leave(state.leave.value)];
        if a.leave != 0 {
          return Returned(1), calls;
        }
      }
      current := next;
      state := states[current];
      calls := calls + [Enter(state.enter)];
      if a.enter != 0 {
        if state.leave.Some? {
          calls := calls + [Leave(state.leave.value)];
        }
        return Returned(a.enter), calls;
      }
      var err := StartChannels(current, a.startFails, a.signsFail);
      return if err then Exited else Returned(0), calls;
    }
  }

  lemma Bounds(m: Model)
    requires ModelOk(m)
    ensures m.current < |m.states|
  {
  }

  // ------------------------------------------------------------ timer discipline

  /** Only timers of the current state are armed. */
  predicate Disciplined(m: Model) {
    && ModelOk(m)
    && m.armed <= TimersOf(m.current, |m.states[m.current].tick|)
  }

  /** Every delivery, whether it succeeds or fails at any point, keeps armed
      timers inside the current state. A Moore transition that succeeds arms
      exactly those of the new state; one that runs an action, or is refused,
      moves nothing. */
  lemma SendKeepsDiscipline(m: Model, src: Source, a: Answers)
    requires Disciplined(m) && SourceOk(m, src)
    ensures Disciplined(Send(m, src, a).after) && Send(m, src, a).after.states == m.states
    ensures var d := Send(m, src, a);
            if d.outcome == Returned(0) && Selected(m, src).Some? && Selected(m, src).value.next.Some? then
              && d.after.current == Selected(m, src).value.next.value
              && d.after.armed == TimersOf(d.after.current, |m.states[d.after.current].tick|)
            else if Selected(m, src).None? || Selected(m, src).value.next.None? then d.after == m
            else d.after.current in {m.current, Selected(m, src).value.next.value}
  {
    SelectedOk(m, src);
    match Selected(m, src)
    case None =>
    case Some(t) =>
      if t.next.Some? {
        MooreDiscipline(m, t.next.value, a);
      }
  }

  lemma MooreDiscipline(m: Model, next: nat, a: Answers)
    requires Disciplined(m) && next < |m.states|
    ensures Disciplined(Moore(m, next, a).after) && Moore(m, next, a).after.states == m.states
    ensures Moore(m, next, a).outcome == Returned(0) ==>
              Moore(m, next, a).after == Model(m.states, next, TimersOf(next, |m.states[next].tick|))
    ensures Moore(m, next, a).after.current in {m.current, next}
  {
    var n := |m.states[m.current].tick|;
    assert m.armed - TimersOf(m.current, n) == {};
    assert {} + TimersOf(next, |m.states[next].tick|) == TimersOf(next, |m.states[next].tick|);
  }

  // --------------------------------------------------------------- whole runs

  /** What can happen to a running machine: a delivery, or a timer that runs out. */
  datatype Event = Deliver(src: Source, answers: Answers) | Expire(timer: Timer)

  predicate EventOk(m: Model, e: Event)
    requires ModelOk(m)
  {
    e.Deliver? ==> SourceOk(m, e.src)
  }

  function After(m: Model, e: Event): Model
    requires ModelOk(m) && EventOk(m, e)
  {
    match e
    case Deliver(src, a) => Send(m, src, a).after
    case Expire(t) => m.(armed := m.armed - {t})
  }

  /** A run: every event starts from where the one before it led. */
  predicate IsRun(ms: seq<Model>, es: seq<Event>) {
    && |ms| == |es| + 1
    && (forall i :: 0 <= i < |ms| ==> ModelOk(ms[i]))
    && forall i :: 0 <= i < |es| ==> EventOk(ms[i], es[i]) && After(ms[i], es[i]) == ms[i + 1]
  }

  /** From esma_machine_run on, at every moment of every run. */
  lemma {:induction false} AlwaysDisciplined(ms: seq<Model>, es: seq<Event>, k: nat)
    requires IsRun(ms, es) && k < |ms|
    requires ms[0].current == INIT && ms[0].armed == {}
    ensures Disciplined(ms[k]) && ms[k].states == ms[0].states
    decreases k
  {
    if k > 0 {
      AlwaysDisciplined(ms, es, k - 1);
      assert After(ms[k - 1], es[k - 1]) == ms[k];
      match es[k - 1]
      case Deliver(src, a) => SendKeepsDiscipline(ms[k - 1], src, a);
      case Expire(t) =>
    }
  }
}
