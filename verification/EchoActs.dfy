/** What the server's handlers do, unfolded: to the world, to the ring that carries its
    queue, and to the reactor's table. */
module EchoActs {
  import opened Wrappers
  import opened EchoServer
  import opened EchoRuns
  import opened EchoBatches
  import opened EchoRing
  import opened EchoReactor
  import B = EchoBoard
  import RI = RingIndex
  import RB = RingBuffer
  import P = PollReactor
  import T = Template

  const NSLAVES: nat := 256

  // ------------------------------------------------------- the actions, unfolded

  function Sends(w: World, i: nat, c: nat): World {
    SendCode(w, SlaveNo(i), Some(c))
  }

  lemma IdleActs(w: World, i: nat, e: Event, a: Answer)
    requires i < |w.slaves| && w.slaves[i].state == Idle && w.status == Running
    ensures var s := w.slaves[i];
            Apply(w, i, Act(s, e, a)) ==
            if !a.accepted then Sends(w, i, 3)
            else Sends(w.(slaves := w.slaves[i := s.(io := if s.io.Closed? then Open(Unclaimed) else s.io)]), i, 0)
    ensures var s := w.slaves[i];
            Act(s, e, a).slave == if a.accepted && s.io.Closed? then s.(io := Open(Unclaimed)) else s
  {
    assert w.slaves[i := w.slaves[i]] == w.slaves;
  }

  lemma RecvActs(w: World, i: nat, e: Event, a: Answer)
    requires i < |w.slaves| && w.slaves[i].state == Recv && w.status == Running
    ensures Apply(w, i, Act(w.slaves[i], e, a)) ==
            if !e.PollIn? || a.available == 0 || a.expandFails then Sends(w, i, 1)
            else if a.read == a.available && a.lastIsNewline then Sends(w, i, 0) else w
    ensures Act(w.slaves[i], e, a).slave == w.slaves[i]
  {
    assert w.slaves[i := w.slaves[i]] == w.slaves;
  }

  lemma SendActs(w: World, i: nat, e: Event, a: Answer)
    requires i < |w.slaves| && w.slaves[i].state == EchoServer.Send && w.status == Running
    ensures var s := w.slaves[i];
            Apply(w, i, Act(s, e, a)) ==
            if e.Tick? then Sends(w, i, 1)
            else if !e.PollOut? then w
            else if a.written < 0 then (if a.interrupted then w else Sends(w, i, 1))
            else if a.written != a.left then w
            else Sends(w.(slaves := w.slaves[i := s.(io := WithMask(s.io, Nothing))]), i, 0)
    ensures var s := w.slaves[i];
            Act(s, e, a).slave ==
            if e.PollOut? && a.written >= 0 && a.written == a.left then s.(io := WithMask(s.io, Nothing)) else s
  {
    assert w.slaves[i := w.slaves[i]] == w.slaves;
  }

  lemma Enters(w: World, i: nat, state: SlaveState)
    requires i < |w.slaves| && w.status == Running
    ensures var r := Enter(w.slaves[i], state);
            && Apply(w, i, r) ==
               (var w' := w.(slaves := w.slaves[i := r.slave]);
                if state == Done then Sends(w'.(pool := w.pool + [i]), i, 0)
                else if state == Fini then w'.(status := Stopped) else w')
            && r.slave == if state == Recv then Slave(Recv, WithMask(w.slaves[i].io, Input), true)
                          else if state == Send then Slave(Send, WithMask(w.slaves[i].io, Output), true)
                          else if state == Done then Slave(Done, Closed, false)
                          else Slave(state, w.slaves[i].io, false)
  {
  }

  lemma NoAction(w: World, i: nat, e: Event, a: Answer)
    requires i < |w.slaves| && w.status == Running && w.slaves[i].state !in {Idle, Recv, EchoServer.Send}
    ensures Apply(w, i, Act(w.slaves[i], e, a)) == w && Act(w.slaves[i], e, a).slave == w.slaves[i]
  {
  }

  lemma DonePools(w: World, i: nat, e: Event, a: Answer)
    requires i < |w.slaves| && !e.NoPoll? && !a.fault && Declared(w.slaves[i].state, e) == Goto(Done)
    ensures |SlaveStep(w, i, e, a).pool| == |w.pool| + 1
  {
  }

  /** A transition to another state leads to another state. */
  lemma GotoMoves(s: SlaveState, e: Event)
    ensures Declared(s, e).Goto? ==> Declared(s, e).state != s
  {
  }

  // -------------------------------------------------------------------- the ring

  lemma CapForAll()
    ensures CapFor(NSLAVES + 1) == 512 && CapFor(1) == QUEUE_SIZE
  {
    assert CapFor(NSLAVES + 1) == RB.Grown(256, NSLAVES + 1) == RB.Grown(512, NSLAVES + 1);
  }

  lemma StartedSlaves(n: nat, listening: bool)
    ensures |Started(n, listening).slaves| == if listening then n else 0
    ensures |Started(n, listening).queue| == if listening then n + 1 else 1
    ensures Started(n, listening).status == Running
  {
  }

  lemma MorePuts(n: nat)
    ensures RB.PutMany(RI.Init(QUEUE_SIZE), n + 1) == RI.Put(RB.PutMany(RI.Init(QUEUE_SIZE), n)).0
  {
  }

  lemma GetNone(r: RI.Ring)
    ensures r.size == 0 ==> RI.Get(r).0 == r
    ensures r.size > 0 ==> RI.Get(r).0.size == r.size - 1 && RI.Get(r).0.cap == r.cap
  {
  }

  lemma NoPut(r: RI.Ring)
    ensures RB.PutMany(r, 0) == r
  {
  }

  lemma FewPuts(r: RI.Ring)
    ensures RB.PutMany(r, 0) == r && RB.PutMany(r, 1) == RI.Put(r).0
  {
    assert RB.PutMany(r, 0) == r;
  }

  lemma NoPuts()
    ensures RB.PutMany(RI.Init(QUEUE_SIZE), 0) == RI.Init(QUEUE_SIZE)
  {
  }

  lemma FirstPutIsSound(n: nat)
    requires n < MAX_MESSAGES
    ensures CapFor(n + 1) == if n == CapFor(n) then 2 * n else CapFor(n)
    ensures n == CapFor(n) ==> RB.Fits(2 * n, MESSAGE_SIZE)
  {
    CapFits(n + 1);
    RB.GrownStep(QUEUE_SIZE, n);
    hide RB.Grown;
  }

  lemma NextGreeting(i: nat)
    ensures Greetings(i + 1) == Greetings(i) + [Message(SlaveNo(i), Code(0))] && |Greetings(i)| == i
    ensures Upto(i + 1) == Upto(i) + [i]
    ensures seq(i + 1, _ => Slave(Init, Closed, false)) ==
            seq(i, _ => Slave(Init, Closed, false)) + [Slave(Init, Closed, false)]
  {
  }

  lemma CapForFew()
    ensures CapFor(0) == CapFor(1) == QUEUE_SIZE
  {
  }

  lemma PutsFit(r: RI.Ring, batch: seq<Message>)
    requires RB.Wellformed(r) && r.size == 0
    ensures RB.AllSound(r, |batch|, MESSAGE_SIZE) <==> RB.Room(r, |batch|, MESSAGE_SIZE)
    ensures RB.Room(r, |batch|, MESSAGE_SIZE) ==> RB.PutMany(r, |batch|).cap == RB.Grown(r.cap, |batch|)
    ensures |batch| <= r.cap ==> RB.Grown(r.cap, |batch|) == r.cap
  {
    RB.ManyPuts(r, |batch|, MESSAGE_SIZE);
    RB.Bounded(r);
    RB.GrownFits(r.cap, |batch|);
  }

  // ------------------------------------------------------------------- the table

  /** Asking again for the events that an entry has. */
  lemma SameMask(x: Wiring, t: Table, i: nat, io: Io, mask: Mask, entry: P.PollFd)
    requires SlaveIo(i) in x.wires && x.wires[SlaveIo(i)] in t && io.Open? && mask != Unclaimed
    requires io.mask != Unclaimed ==> t[x.wires[SlaveIo(i)]].events == P.FlagsOf(EventsOf(io.mask))
    ensures Changed(x, t, i, io, Open(mask), entry) == Modified(x, t, SlaveIo(i), EventsOf(mask))
  {
  }

  lemma EntersTable(x: Wiring, t: Table, i: nat, s: Slave, state: SlaveState)
    requires s.state != state
    ensures var s' := Enter(s, state).slave;
            SlaveTable(x, t, i, s, s', P.ZERO) ==
            if state in {Recv, Send} then
              Modified(x, Changed(x, t, i, s.io, s'.io, P.ZERO), SlaveTimer(i, state == Send), T.POLLIN)
            else if state == Done then Changed(x, t, i, s.io, Closed, P.ZERO)
            else t
  {
  }

  /** The entries of its timers stay when a slave's IO channel changes. */
  lemma TimerStays(w: World, x: Wiring, t: Table, i: nat, io: Io, io': Io, sending: bool)
    requires Registered(w, x, t) && i < |w.slaves|
    ensures SlaveTimer(i, sending) in x.wires
    ensures x.wires[SlaveTimer(i, sending)] in Changed(x, t, i, io, io', P.ZERO)
  {
    Present(w, x, t);
    assert x.wires[SlaveTimer(i, sending)] != x.wires[SlaveIo(i)];
    hide Entries, Masked, P.FlagsOf;
  }

  /** A slave whose IO channel changes, and nothing else. */
  lemma IoOnly(x: Wiring, t: Table, i: nat, s: Slave, io: Io, entry: P.PollFd)
    ensures SlaveTable(x, t, i, s, s.(io := io), entry) == Changed(x, t, i, s.io, io, entry)
    ensures io == s.io ==> SlaveTable(x, t, i, s, s, entry) == t
    ensures SlaveIo(i) in x.wires && s.io.Closed? && io.Open? ==>
              SlaveTable(x, t, i, s, s.(io := io), entry) == t[x.wires[SlaveIo(i)] := entry]
  {
  }

  /** Where the channels of slave i and of the master are registered. */
  lemma Present(w: World, x: Wiring, t: Table)
    requires Registered(w, x, t)
    ensures forall i :: 0 <= i < |w.slaves| ==>
              && SlaveIo(i) in x.wires && (x.wires[SlaveIo(i)] in t <==> w.slaves[i].io.Open?)
              && (w.slaves[i].io.Open? && w.slaves[i].io.mask != Unclaimed ==>
                    t[x.wires[SlaveIo(i)]].events == P.FlagsOf(EventsOf(w.slaves[i].io.mask)))
              && SlaveTimer(i, false) in x.wires && x.wires[SlaveTimer(i, false)] in t
              && SlaveTimer(i, true) in x.wires && x.wires[SlaveTimer(i, true)] in t
    ensures forall e :: OfWork(e) ==> e in x.wires && x.wires[e] in t
  {
  }

  lemma StartKnown(b: B.Board, n: nat, listening: bool)
    requires b.Valid() && b.n == (if listening then n else 0) && b.Registers(b.n, listening)
    ensures Registered(Started(n, listening), b.wiring, b.Rows())
  {
    forall c | c in b.wiring.owners
      ensures B.Begun(b.wiring.owners[c], b.n, listening) <==> AtStart(b.wiring.owners[c], listening)
    {
      assert Exists(b.n, b.wiring.owners[c]);
    }
    hide B.Begun;
    StartRegistered(b.wiring, n, listening, b.Rows());
  }

  // -------------------------------------------------------------- one dispatch

  function SystemStep(x: Wiring, s: System, a: Answer, entry: P.PollFd): System
    requires s.e.w.queue != []
  {
    EchoReactor.System(EngineStep(s.e, a), TableStep(x, s.e.w, a, s.t, entry))
  }

  /** What the step does to world and queue. */
  lemma Steps(s: System, x: Wiring, a: Answer)
    requires Inv(s.e.w) && s.e.w.queue != []
    ensures var w := s.e.w;
            && Step(w, a) == Deliver(w.(queue := w.queue[1..]), w.queue[0], a)
            && Step(w, a).status != Crashed && (Step(w, a).status == Running ==> Inv(Step(w, a)))
            && |Step(w, a).slaves| == |w.slaves| && |Step(w, a).pool| <= |w.slaves|
            && (Step(w, a).status == Running ==> Weight(Step(w, a).queue) < Weight(w.queue))
  {
    StepKeepsInv(s.e.w, a);
    StepShrinks(s.e.w, a);
    PoolNeverGrows(s.e.w, a);
    StepKeepsSlaves(s.e.w, a);
    hide Inv, Deliver;
  }

  /** And to ring and table. */
  lemma Stepped(s: System, x: Wiring, a: Answer, entry: P.PollFd, ring: RI.Ring)
    requires Carries(s.e) && s.e.sound && s.e.w.queue != [] && Registered(s.e.w, x, s.t)
    requires var r := RI.Get(s.e.ring).0;
             ring.size >= r.size && ring == RB.PutMany(r, ring.size - r.size) && ring.size == |Step(s.e.w, a).queue|
    ensures var w := s.e.w;
            && SystemStep(x, s, a, entry) ==
               EchoReactor.System(Engine(Step(w, a), ring, true),
                                  Told(x, w.(queue := w.queue[1..]), w.queue[0], a, s.t, entry))
            && (Step(w, a).status == Running ==> Registered(Step(w, a), x, SystemStep(x, s, a, entry).t))
  {
    hide Registered, EngineStep, Step, RB.PutMany, RI.Get, RI.Put, SlaveTable, MasterTable, React, RB.Wellformed;
    StepOnRing(s.e, a);
    StepKeepsRegistered(s.e.w, x, a, s.t, entry);
    GetNone(s.e.ring);
  }

  lemma NothingDrained(x: Wiring, s: System)
    ensures SystemDrain(x, s, [], []) == s
  {
  }

  lemma DrainedMore(x: Wiring, s: System, answers: seq<Answer>, a: Answer, entries: seq<P.PollFd>, entry: P.PollFd)
    requires |entries| == |answers| && Carries(s.e)
    requires var d := SystemDrain(x, s, answers, entries); d.e.w.queue != [] && d.e.w.status == Running
    ensures SystemDrain(x, s, answers + [a], entries + [entry]) ==
            SystemStep(x, SystemDrain(x, s, answers, entries), a, entry)
  {
    SystemDrainSnoc(x, s, answers, a, entries, entry);
    hide SystemDrain, EngineStep, TableStep;
  }

  lemma WaitsNow(s: System, p: Poll, s': System, batch: seq<Message>, x: Wiring)
    requires Inv(s.e.w) && Ready(s.e.w) && Registered(s.e.w, x, s.t) && s.e.sound
    requires Polls(s.e.w, x, s.t, p) && Brings(x, p, batch)
    requires s' == EchoReactor.System(EngineWait(s.e, batch), Noted(s.t, p))
    requires HasRoom(s.e, batch) && forall j: nat, k: nat :: !Clash(s.e.w, batch, j, k)
    ensures Waits(x, s, p, s') && Bearable(s.e, s'.e.w.queue)
    ensures Inv(s'.e.w) && Registered(s'.e.w, x, s'.t) && s'.e.w.slaves == s.e.w.slaves
  {
    assert s'.e.w == s.e.w.(queue := batch);
    hide Inv, Ready, Registered, Polls, Brings, Clash, HasRoom, BatchSafe;
    WaitIsTaken(x, s, p, s');
    ReadyIsDrained(s.e.w);
    WaitKeepsInv(s.e.w, batch);
  }

  lemma ReadyIsDrained(w: World)
    requires Ready(w)
    ensures w.queue == [] && w.status == Running
  {
  }

  lemma BootsRight(listening: bool)
    ensures var e := EngineStart(NSLAVES, listening);
            && Inv(e.w) && e.ring.cap == (if listening then 512 else QUEUE_SIZE)
            && |e.w.slaves| == if listening then NSLAVES else 0
  {
    CapForAll();
    StartIsOk(NSLAVES, listening);
    StartCarries(NSLAVES, listening);
    StartedSlaves(NSLAVES, listening);
    hide Inv, Started, EngineStart, CapFor;
  }

  lemma RunBegins(x: Wiring, s: System, n: nat, listening: bool)
    requires s.e == EngineStart(n, listening) && Registered(s.e.w, x, s.t)
    ensures IsSystemRun(x, [s], [], n, listening)
  {
    hide EngineStart, Registered;
  }

  lemma RunLength(x: Wiring, ss: seq<System>, rs: seq<Round>, n: nat, listening: bool)
    requires IsSystemRun(x, ss, rs, n, listening)
    ensures |ss| == |rs| + 1
  {
  }

  lemma OneTurn(x: Wiring, s: System, d: System, answers: seq<Answer>, entries: seq<P.PollFd>, p: Poll, s': System)
    requires |entries| == |answers| && d == SystemDrain(x, s, answers, entries) && Settled(d.e.w)
    requires Waits(x, d, p, s') && Bearable(d.e, s'.e.w.queue)
    ensures Turns(x, s, Round(answers, entries, p), s')
  {
  }
}
