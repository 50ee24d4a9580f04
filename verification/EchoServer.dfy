/** The echo server: a master that accepts clients and hands each one to a slave
    taken from a pool. All machines share one message queue, which the engine
    drains before it waits for the system again. */
module EchoServer {
  import opened Wrappers

  datatype SlaveState = Init | Fini | Idle | Recv | Send | Done

  /** The events a registered descriptor is watched for; after adding it the mask
      is whatever the reactor's slot held. */
  datatype Mask = Unclaimed | Nothing | Input | Output

  datatype Io = Closed | Open(mask: Mask)

  /** armed: the ten-second timer of the current state may fire. */
  datatype Slave = Slave(state: SlaveState, io: Io, armed: bool)

  datatype Who = Master | SlaveNo(i: nat)

  datatype Event =
    | Code(c: nat)              // from a machine
    | Tick(k: nat)              // from the system, as are all others
    | Sign(k: nat)
    | PollIn | PollOut | PollErr | PollHup
    | NoPoll                    // the descriptor is ready for none of these

  datatype Message = Message(who: Who, event: Event)

  /** What the system answers while one message is handled. fault: a call fails
      that the engine does not survive, such as reading a timer. */
  datatype Answer =
    Answer(fault: bool, accepted: bool,
           available: nat, expandFails: bool, read: nat, lastIsNewline: bool,
           written: int, interrupted: bool, left: nat)

  /** A slave reacts to an event by sending itself a code, running into its place in
      the pool, and possibly stopping the engine. */
  datatype Status = Running | Stopped | Crashed

  datatype Effect = Effect(slave: Slave, pooled: bool, out: Option<nat>, status: Status)

  // ------------------------------------------------- the slave (slave.c, slave.esma)

  datatype Reaction = Undeclared | Self | Goto(state: SlaveState)

  /** The transitions of slave.esma. */
  function Declared(s: SlaveState, e: Event): Reaction {
    match (s, e)
    case (Init, Code(c)) => if c == 0 then Goto(Idle) else if c == 3 then Goto(Fini) else Undeclared
    case (Idle, Code(c)) =>
      if c == 1 then Self else if c == 0 then Goto(Recv) else if c == 3 then Goto(Done) else Undeclared
    case (Recv, Code(c)) => if c == 0 then Goto(Send) else if c == 1 then Goto(Done) else Undeclared
    case (Send, Code(c)) => if c == 0 then Goto(Recv) else if c == 1 then Goto(Done) else Undeclared
    case (Done, Code(c)) => if c == 0 then Goto(Idle) else Undeclared
    case (Recv, Tick(k)) => if k == 0 then Self else Undeclared
    case (Send, Tick(k)) => if k == 0 then Self else Undeclared
    case (Recv, PollIn) => Self
    case (Send, PollOut) => Self
    case (Recv, PollErr) => Self
    case (Recv, PollHup) => Self
    case (Send, PollErr) => Self
    case (Send, PollHup) => Self
    case _ => Undeclared
  }

  /** slave_recv_data_0: a closed connection, a buffer that cannot grow, a whole
      line, or more to come. */
  function Received(a: Answer): Option<nat> {
    if a.available == 0 || a.expandFails then Some(1)
    else if a.read == a.available && a.lastIsNewline then Some(0)
    else None
  }

  /** slave_send_data_0: interrupted, failed, everything sent, or more to send. */
  function Sent(a: Answer): Option<nat> {
    if a.written < 0 then (if a.interrupted then None else Some(1))
    else if a.written == a.left then Some(0)
    else None
  }

  function WithMask(io: Io, mask: Mask): Io {
    if io.Closed? then Closed else Open(mask)
  }

  /** The action of a Mealy transition. */
  function Act(s: Slave, e: Event, a: Answer): Effect {
    match s.state
    case Idle =>
      if !a.accepted then Effect(s, false, Some(3), Running)
      else Effect(s.(io := if s.io.Closed? then Open(Unclaimed) else s.io), false, Some(0), Running)
    case Recv =>
      if e.PollIn? then Effect(s, false, Received(a), Running) else Effect(s, false, Some(1), Running)
    case Send =>
      if e.Tick? then Effect(s, false, Some(1), Running)
      else if e.PollOut? then
        Effect(if Sent(a) == Some(0) then s.(io := WithMask(s.io, Nothing)) else s, false, Sent(a), Running)
      else Effect(s, false, None, Running)
    case _ => Effect(s, false, None, Running)
  }

  /** Entering a state, and arming its timer; slave_fini_enter stops the engine. */
  function Enter(s: Slave, state: SlaveState): Effect {
    match state
    case Recv => Effect(Slave(Recv, WithMask(s.io, Input), true), false, None, Running)
    case Send => Effect(Slave(Send, WithMask(s.io, Output), true), false, None, Running)
    case Done => Effect(Slave(Done, Closed, false), true, Some(0), Running)
    case Fini => Effect(Slave(Fini, s.io, false), false, None, Stopped)
    case _ => Effect(Slave(state, s.io, false), false, None, Running)
  }

  function React(s: Slave, e: Event, a: Answer): Effect {
    if e.NoPoll? || a.fault then Effect(s, false, None, Stopped)
    else
      match Declared(s.state, e)
      case Undeclared => Effect(s, false, None, Crashed)
      case Self => Act(s, e, a)
      case Goto(t) => Enter(s, t)
  }

  // ------------------------------------------------------------------ the server

  /** working: the master has left its initial state. */
  datatype World =
    World(slaves: seq<Slave>, pool: seq<nat>, queue: seq<Message>, working: bool, status: Status)

  function SendCode(w: World, who: Who, out: Option<nat>): World {
    match out
    case None => w
    case Some(c) => w.(queue := w.queue + [Message(who, Code(c))])
  }

  /** The slave i gets the event. */
  function SlaveStep(w: World, i: nat, e: Event, a: Answer): World
    requires i < |w.slaves|
  {
    Apply(w, i, React(w.slaves[i], e, a))
  }

  function Apply(w: World, i: nat, r: Effect): World
    requires i < |w.slaves|
  {
    var pool := if r.pooled then w.pool + [i] else w.pool;
    SendCode(w.(slaves := w.slaves[i := r.slave], pool := pool, status := r.status), SlaveNo(i), r.out)
  }

  /** The master gets the event; leaving for `fini` stops the engine. */
  function MasterStep(w: World, e: Event, a: Answer): World {
    if e.NoPoll? || a.fault then w.(status := Stopped)
    else if e == Code(3) then w.(status := Stopped)
    else if !w.working then (if e == Code(0) then w.(working := true) else w.(status := Crashed))
    else
      match e
      case Code(_) => w.(status := Crashed)
      case Tick(k) => if k == 0 then w else if k == 3 then w.(status := Stopped) else w.(status := Crashed)
      case Sign(k) => if k <= 1 then w else w.(status := Crashed)
      case PollIn => NewClient(w, a)
      case PollOut => w.(status := Crashed)
      case PollErr => SendCode(w, Master, Some(3))
      case PollHup => SendCode(w, Master, Some(3))
      case NoPoll => w
  }

  /** master_work_data_0: the slave returned last gets the client. */
  function NewClient(w: World, a: Answer): World {
    if w.pool == [] then (if a.accepted then w else w.(status := Stopped))
    else SendCode(w.(pool := w.pool[..|w.pool| - 1]), SlaveNo(w.pool[|w.pool| - 1]), Some(1))
  }

  /** The message m, once it has been taken from the queue. */
  function Deliver(w: World, m: Message, a: Answer): World {
    match m.who
    case Master => MasterStep(w, m.event, a)
    case SlaveNo(i) => if i < |w.slaves| then SlaveStep(w, i, m.event, a) else w.(status := Crashed)
  }

  /** One message, from the front of the queue. */
  function Step(w: World, a: Answer): World
    requires w.queue != []
  {
    Deliver(w.(queue := w.queue[1..]), w.queue[0], a)
  }

  // ------------------------------------------------------------------ invariants

  /** The events waiting in the queue for one machine, in order. */
  function Pending(q: seq<Message>, who: Who): seq<Event> {
    if q == [] then []
    else if q[0].who == who then [q[0].event] + Pending(q[1..], who)
    else Pending(q[1..], who)
  }

  lemma {:induction false} PendingAppend(q: seq<Message>, m: Message, who: Who)
    ensures Pending(q + [m], who) == if m.who == who then Pending(q, who) + [m.event] else Pending(q, who)
    decreases |q|
  {
    if q == [] {
      assert q + [m] == [m] && [m][1..] == [];
    } else {
      assert (q + [m])[1..] == q[1..] + [m];
      PendingAppend(q[1..], m, who);
    }
  }

  const READY := Slave(Idle, Closed, false)
  const RECEIVING := Slave(Recv, Open(Input), true)
  const SENDING := Slave(Send, Open(Output), true)

  predicate Serving(s: Slave) {
    s == RECEIVING || s == SENDING
  }

  predicate AtRest(s: Slave) {
    s == READY || Serving(s)
  }

  /** An event the system may report for a slave at rest. */
  predicate Reportable(s: Slave, e: Event) {
    match e
    case Tick(k) => s.armed && k == 0
    case PollIn => s.io == Open(Input)
    case PollOut => s.io == Open(Output)
    case PollErr => s.io.Open?
    case PollHup => s.io.Open?
    case NoPoll => s.io.Open?
    case _ => false
  }

  /** Two events that a sending slave survives together: its timeout, and an error
      or hang-up, which it ignores. The timeout may already have become code 1. */
  predicate Compatible(e: Event, f: Event) {
    || (e == Tick(0) && (f.PollErr? || f.PollHup?))
    || ((e.PollErr? || e.PollHup?) && (f == Tick(0) || f == Code(1)))
  }

  /** What a slave with k places in the pool and the events q ahead looks like. */
  predicate SlaveOk(s: Slave, k: nat, q: seq<Event>) {
    if q == [] then AtRest(s) && k == if s.state == Idle then 1 else 0
    else if q == [Code(1)] then k == 0 && AtRest(s)
    else if q == [Code(3)] then k == 0 && s == READY
    else if q == [Code(0)] then
      || (k == 1 && s in {Slave(Init, Closed, false), Slave(Done, Closed, false)})
      || (k == 0 && s.state == Idle && s.io.Open? && !s.armed)
      || (k == 0 && s.state in {Recv, Send} && s.io.Open? && s.armed)
    else if q == [Code(0), Code(1)] then
      k == 0 && s in {Slave(Init, Closed, false), Slave(Done, Closed, false)}
    else if |q| == 2 then k == 0 && s == SENDING && Compatible(q[0], q[1])
    else |q| == 1 && k == 0 && Serving(s) && Reportable(s, q[0])
  }

  predicate MasterEvent(e: Event) {
    e in {Tick(0), Tick(3), Sign(0), Sign(1), PollIn, PollErr, PollHup, NoPoll}
  }

  predicate MasterOk(working: bool, q: seq<Event>) {
    if working then forall i :: 0 <= i < |q| ==> MasterEvent(q[i]) || q[i] == Code(3)
    else q == [Code(0)] || q == [Code(3)]
  }

  ghost predicate InRange(w: World) {
    && (forall m :: m in w.queue && m.who.SlaveNo? ==> m.who.i < |w.slaves|)
    && (forall i :: i in w.pool ==> i < |w.slaves|)
  }

  ghost predicate SlavesOk(w: World) {
    forall i :: 0 <= i < |w.slaves| ==>
      SlaveOk(w.slaves[i], multiset(w.pool)[i], Pending(w.queue, SlaveNo(i)))
  }

  ghost predicate Inv(w: World) {
    && w.status == Running
    && InRange(w) && SlavesOk(w)
    && MasterOk(w.working, Pending(w.queue, Master))
  }

  /** The slave's side of every step. */
  lemma ReactOk(s: Slave, k: nat, e: Event, rest: seq<Event>, a: Answer)
    requires SlaveOk(s, k, [e] + rest)
    ensures var r := React(s, e, a);
            && r.status != Crashed
            && (r.status == Running ==>
                  SlaveOk(r.slave, if r.pooled then k + 1 else k, rest + Codes(r.out)))
  {
    var q := [e] + rest;
    assert q[0] == e && q[1..] == rest;
    assert rest + [] == rest;
    if rest != [] {
      assert rest == [q[1]];
      ReactWithOneMore(s, k, e, q[1], a);
    } else {
      assert q == [e];
      LoneReactOk(s, k, e, a);
      assert [] + Codes(React(s, e, a).out) == Codes(React(s, e, a).out);
    }
  }

  lemma LoneReactOk(s: Slave, k: nat, e: Event, a: Answer)
    requires SlaveOk(s, k, [e])
    ensures var r := React(s, e, a);
            && r.status != Crashed
            && (r.status == Running ==> SlaveOk(r.slave, if r.pooled then k + 1 else k, Codes(r.out)))
  {
  }

  lemma ReactWithOneMore(s: Slave, k: nat, e: Event, f: Event, a: Answer)
    requires SlaveOk(s, k, [e, f])
    ensures var r := React(s, e, a);
            && r.status != Crashed
            && (r.status == Running ==> SlaveOk(r.slave, if r.pooled then k + 1 else k, [f] + Codes(r.out)))
  {
    var q := [e, f];
    assert q[0] == e && q[1] == f;
    assert [f] + [] == [f];
    if e.Code? {
      assert e == Code(0) && f == Code(1);
    } else {
      assert [f] + [Code(1)] == [f, Code(1)];
    }
  }

  lemma PoolCount(pool: seq<nat>, x: nat, i: nat)
    ensures multiset(pool + [x])[i] == multiset(pool)[i] + if i == x then 1 else 0
    ensures pool != [] ==> multiset(pool)[i] == multiset(pool[..|pool| - 1])[i] + if i == pool[|pool| - 1] then 1 else 0
  {
    if pool != [] {
      assert pool == pool[..|pool| - 1] + [pool[|pool| - 1]];
    }
  }

  function Codes(out: Option<nat>): seq<Event> {
    match out case None => [] case Some(c) => [Code(c)]
  }

  lemma SendPends(w: World, who: Who, out: Option<nat>, to: Who)
    ensures Pending(SendCode(w, who, out).queue, to) ==
            if to == who then Pending(w.queue, to) + Codes(out) else Pending(w.queue, to)
  {
    assert Pending(w.queue, to) + [] == Pending(w.queue, to);
    if out.Some? {
      PendingAppend(w.queue, Message(who, Code(out.value)), to);
    }
  }

  /** Taking the front message off. */
  lemma PopPends(q: seq<Message>, who: Who)
    requires q != []
    ensures Pending(q, who) ==
            if q[0].who == who then [q[0].event] + Pending(q[1..], who) else Pending(q[1..], who)
  {
  }

  lemma SlaveStepKeeps(w: World, a: Answer)
    requires Inv(w) && w.queue != [] && w.queue[0].who.SlaveNo?
    requires w.queue[0].who.i < |w.slaves|
    ensures Step(w, a).status != Crashed
    ensures Step(w, a).status == Running ==> Inv(Step(w, a))
  {
    var me, e := w.queue[0].who.i, w.queue[0].event;
    var popped := w.(queue := w.queue[1..]);
    var r := React(w.slaves[me], e, a);
    PopPends(w.queue, SlaveNo(me));
    ReactOk(w.slaves[me], multiset(w.pool)[me], e, Pending(popped.queue, SlaveNo(me)), a);
    hide SlaveOk, React, Pending, MasterOk;
    PopPends(w.queue, Master);
    if r.status == Running {
      forall j | 0 <= j < |w.slaves| && j != me
        ensures SlaveOk(w.slaves[j], multiset(w.pool)[j], Pending(popped.queue, SlaveNo(j)))
      {
        PopPends(w.queue, SlaveNo(j));
      }
      ApplyKeeps(popped, me, r);
    }
  }

  lemma ApplyKeeps(w: World, me: nat, r: Effect)
    requires InRange(w) && me < |w.slaves| && r.status == Running
    requires MasterOk(w.working, Pending(w.queue, Master))
    requires SlaveOk(r.slave, multiset(w.pool)[me] + if r.pooled then 1 else 0,
                     Pending(w.queue, SlaveNo(me)) + Codes(r.out))
    requires forall j :: 0 <= j < |w.slaves| && j != me ==>
               SlaveOk(w.slaves[j], multiset(w.pool)[j], Pending(w.queue, SlaveNo(j)))
    ensures Inv(Apply(w, me, r))
  {
    hide SlaveOk, React, Pending, MasterOk, InRange;
    var w' := Apply(w, me, r);
    ApplyInRange(w, me, r);
    SendPends(w, SlaveNo(me), r.out, Master);
    forall i | 0 <= i < |w'.slaves|
      ensures SlaveOk(w'.slaves[i], multiset(w'.pool)[i], Pending(w'.queue, SlaveNo(i)))
    {
      ApplySlaveOk(w, me, r, i);
    }
  }

  lemma ApplySlaveOk(w: World, me: nat, r: Effect, i: nat)
    requires me < |w.slaves| && i < |w.slaves|
    requires SlaveOk(r.slave, multiset(w.pool)[me] + if r.pooled then 1 else 0,
                     Pending(w.queue, SlaveNo(me)) + Codes(r.out))
    requires i != me ==> SlaveOk(w.slaves[i], multiset(w.pool)[i], Pending(w.queue, SlaveNo(i)))
    ensures var w' := Apply(w, me, r);
            SlaveOk(w'.slaves[i], multiset(w'.pool)[i], Pending(w'.queue, SlaveNo(i)))
  {
    hide SlaveOk, Pending;
    SendPends(w, SlaveNo(me), r.out, SlaveNo(i));
    PoolCount(w.pool, me, i);
  }

  lemma ApplyInRange(w: World, me: nat, r: Effect)
    requires InRange(w) && me < |w.slaves|
    ensures InRange(Apply(w, me, r))
  {
    var w' := Apply(w, me, r);
    assert forall i :: i in w'.pool ==> i in w.pool || i == me;
    assert forall m :: m in w'.queue ==> m in w.queue || m.who == SlaveNo(me);
  }

  lemma MasterStepKeeps(w: World, a: Answer)
    requires Inv(w) && w.queue != [] && w.queue[0].who.Master?
    ensures Step(w, a).status != Crashed
    ensures Step(w, a).status == Running ==> Inv(Step(w, a))
  {
    var e := w.queue[0].event;
    var popped := w.(queue := w.queue[1..]);
    PopPends(w.queue, Master);
    MasterRest(w.working, e, Pending(popped.queue, Master));
    PoppedSlavesOk(w);
    hide Inv;
    MasterReactKeeps(popped, e, a);
  }

  lemma PoppedSlavesOk(w: World)
    requires InRange(w) && SlavesOk(w) && w.queue != [] && w.queue[0].who.Master?
    ensures InRange(w.(queue := w.queue[1..])) && SlavesOk(w.(queue := w.queue[1..]))
  {
    hide SlaveOk, Pending;
    forall i | 0 <= i < |w.slaves| ensures Pending(w.queue[1..], SlaveNo(i)) == Pending(w.queue, SlaveNo(i)) {
      PopPends(w.queue, SlaveNo(i));
    }
  }

  lemma MasterReactKeeps(w: World, e: Event, a: Answer)
    requires w.status == Running && InRange(w) && SlavesOk(w)
    requires MasterOk(true, Pending(w.queue, Master))
    requires if w.working then MasterEvent(e) || e == Code(3) else e in {Code(0), Code(3)}
    ensures MasterStep(w, e, a).status != Crashed
    ensures MasterStep(w, e, a).status == Running ==> Inv(MasterStep(w, e, a))
  {
    hide SlaveOk, SlavesOk, Pending, MasterOk, InRange;
    if e == PollErr || e == PollHup {
      if !a.fault {
        ToMasterKeeps(w);
      }
    } else if e == PollIn && w.pool != [] {
      if !a.fault {
        HandOverKeeps(w, a);
      }
    } else {
      SameBut(w);
    }
  }

  lemma SameBut(w: World)
    requires InRange(w) && SlavesOk(w)
    ensures InRange(w.(working := true)) && SlavesOk(w.(working := true))
  {
  }

  lemma MasterRest(working: bool, e: Event, rest: seq<Event>)
    requires MasterOk(working, [e] + rest)
    ensures MasterOk(true, rest)
    ensures if working then MasterEvent(e) || e == Code(3) else e in {Code(0), Code(3)}
  {
    var q := [e] + rest;
    assert q[0] == e;
    assert forall i :: 0 <= i < |rest| ==> rest[i] == q[i + 1];
  }

  lemma ToMasterKeeps(w: World)
    requires InRange(w) && SlavesOk(w) && w.status == Running && w.working
    requires MasterOk(true, Pending(w.queue, Master))
    ensures Inv(SendCode(w, Master, Some(3)))
  {
    SendPends(w, Master, Some(3), Master);
    forall i | 0 <= i < |w.slaves|
      ensures Pending(SendCode(w, Master, Some(3)).queue, SlaveNo(i)) == Pending(w.queue, SlaveNo(i))
    {
      SendPends(w, Master, Some(3), SlaveNo(i));
    }
    hide SlaveOk, Pending;
  }

  /** A slave in the pool may still have to leave its initial or last state; the
      new client waits behind that. */
  lemma HandedOver(s: Slave, k: nat, q: seq<Event>)
    requires SlaveOk(s, k, q) && k > 0
    ensures k == 1 && SlaveOk(s, 0, q + [Code(1)])
  {
    if q == [] {
      assert q + [Code(1)] == [Code(1)];
    } else {
      assert q == [Code(0)];
      assert q + [Code(1)] == [Code(0), Code(1)];
    }
  }

  lemma HandOverKeeps(w: World, a: Answer)
    requires InRange(w) && SlavesOk(w) && w.status == Running && w.pool != []
    requires MasterOk(w.working, Pending(w.queue, Master))
    ensures Inv(NewClient(w, a))
  {
    hide SlaveOk, Pending, MasterOk;
    var last := w.pool[|w.pool| - 1];
    assert last in w.pool;
    var w' := NewClient(w, a);
    var popped := w.(pool := w.pool[..|w.pool| - 1]);
    SendPends(popped, SlaveNo(last), Some(1), Master);
    assert w'.queue == w.queue + [Message(SlaveNo(last), Code(1))];
    assert forall i :: i in popped.pool ==> i in w.pool;
    assert InRange(w');
    forall i | 0 <= i < |w'.slaves|
      ensures SlaveOk(w'.slaves[i], multiset(w'.pool)[i], Pending(w'.queue, SlaveNo(i)))
    {
      SendPends(popped, SlaveNo(last), Some(1), SlaveNo(i));
      PoolCount(w.pool, 0, i);
      if i == last {
        assert multiset(w.pool)[i] > 0;
        HandedOver(w.slaves[i], multiset(w.pool)[i], Pending(w.queue, SlaveNo(i)));
      }
    }
  }

  /** Every delivered code is declared in the state of its receiver, and the
      invariant is kept. */
  lemma StepKeepsInv(w: World, a: Answer)
    requires Inv(w) && w.queue != []
    ensures Step(w, a).status != Crashed
    ensures Step(w, a).status == Running ==> Inv(Step(w, a))
    ensures |Step(w, a).slaves| == |w.slaves|
  {
    hide SlaveOk, React, Pending, MasterOk;
    assert w.queue[0] in w.queue;
    if w.queue[0].who.Master? {
      MasterStepKeeps(w, a);
    } else {
      SlaveStepKeeps(w, a);
    }
  }
}
