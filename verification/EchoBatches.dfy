/** Exactly which batches of one wait the server survives whatever the system answers,
    while its queue has room for them. */
module EchoBatches {
  import opened Wrappers
  import opened EchoServer
  import opened EchoRuns
  import opened EchoPairs

  /** The drain does no harm: no undeclared code, and every slave in its place at the
      end. */
  ghost predicate Harmless(d: World) {
    d.status != Crashed && (d.status == Running && d.queue == [] ==> Ready(d))
  }

  /** An event that stops the engine at once: a descriptor ready for nothing known, or
      the master's long timer. */
  predicate Halting(m: Message) {
    m.event.NoPoll? || m == Message(Master, Tick(3))
  }

  /** An event on which the master tells itself to finish. */
  predicate Failing(m: Message) {
    m.who.Master? && (m.event.PollErr? || m.event.PollHup?)
  }

  /** Two events of one slave that it does not survive together. */
  predicate Clash(w: World, batch: seq<Message>, j: nat, k: nat) {
    && j < k < |batch| && batch[j].who == batch[k].who && batch[j].who.SlaveNo?
    && batch[j].who.i < |w.slaves|
    && !(w.slaves[batch[j].who.i] == SENDING && Compatible(batch[j].event, batch[k].event))
  }

  /** The engine stops before any clash can do harm: at once, or by the master's code
      3, which then stands in front of the second code of the slave. */
  ghost predicate Survivable(w: World, batch: seq<Message>) {
    || (exists m :: 0 <= m < |batch| && Halting(batch[m]))
    || forall j: nat, k: nat :: Clash(w, batch, j, k) ==> exists m :: 0 <= m < k && Failing(batch[m])
  }

  // -------------------------------------------------------------------- one step

  function Bare(w: World): World {
    w.(queue := [])
  }

  /** What handling a message puts into the queue. */
  function Posted(w: World, m: Message, a: Answer): seq<Message> {
    Deliver(Bare(w), m, a).queue
  }

  lemma StepFront(w: World, m: Message, rest: seq<Message>, a: Answer)
    requires w.queue == [m] + rest
    ensures Step(w, a) == Deliver(Bare(w), m, a).(queue := rest + Posted(w, m, a))
  {
    assert w.queue[1..] == rest;
    assert rest + [] == rest;
    match m.who
    case Master => MasterFront(w, m.event, rest, a);
    case SlaveNo(i) => hide React;
  }

  lemma MasterFront(w: World, e: Event, rest: seq<Message>, a: Answer)
    ensures var d := MasterStep(Bare(w), e, a);
            MasterStep(w.(queue := rest), e, a) == d.(queue := rest + d.queue)
  {
    assert rest + [] == rest;
  }

  /** What a step leaves of the front of the queue. */
  lemma StepPrefix(w: World, p: nat, a: Answer)
    requires 0 < p <= |w.queue|
    ensures var d := Step(w, a);
            && d == Deliver(Bare(w), w.queue[0], a).(queue := d.queue)
            && |d.queue| >= |w.queue| - 1 && d.queue[..p - 1] == w.queue[..p][1..]
            && forall k :: 0 <= k < |w.queue| - 1 ==> d.queue[k] == w.queue[k + 1]
  {
    var rest := w.queue[1..];
    assert w.queue == [w.queue[0]] + rest;
    StepFront(w, w.queue[0], rest, a);
    hide Deliver, Step;
  }

  lemma {:induction false} PendingConcat(q: seq<Message>, r: seq<Message>, who: Who)
    ensures Pending(q + r, who) == Pending(q, who) + Pending(r, who)
    decreases |q|
  {
    if q == [] {
      assert q + r == r;
    } else {
      assert (q + r)[1..] == q[1..] + r && (q + r)[0] == q[0];
      PendingConcat(q[1..], r, who);
    }
  }

  ghost predicate Resting(w: World) {
    forall i :: 0 <= i < |w.slaves| ==> AtRest(w.slaves[i])
  }

  predicate SameStates(w: World, w0: World) {
    |w.slaves| == |w0.slaves| && forall i :: 0 <= i < |w.slaves| ==> w.slaves[i].state == w0.slaves[i].state
  }

  /** An event that the system reports while the server is as in w0. */
  predicate Reported(w0: World, m: Message) {
    match m.who
    case Master => MasterEvent(m.event)
    case SlaveNo(i) => i < |w0.slaves| && Reportable(w0.slaves[i], m.event)
  }

  predicate ToSlaves(q: seq<Message>) {
    forall k :: 0 <= k < |q| ==> q[k].event.Code? && q[k].who.SlaveNo?
  }

  lemma ReportedIsSelf(s: Slave, s0: Slave, e: Event)
    requires AtRest(s0) && s.state == s0.state && Reportable(s0, e)
    ensures s0.state in {Recv, Send} && (e.NoPoll? || Declared(s.state, e) == Self)
  {
  }

  lemma SelfStays(s: Slave, e: Event, a: Answer)
    requires Declared(s.state, e) == Self
    ensures var r := React(s, e, a);
            r.status in {Running, Stopped} && (r.status == Running ==> r.slave.state == s.state && !r.pooled)
  {
  }

  /** Reported events leave every slave in its state, and make slaves send codes to
      themselves and the master to slaves. */
  lemma ReportedStep(w: World, w0: World, m: Message, a: Answer)
    requires Resting(w0) && SameStates(w, w0) && w.working && w.status == Running && Reported(w0, m)
    ensures var d := Deliver(Bare(w), m, a);
            && d.status in {Running, Stopped} && (Halting(m) ==> d.status == Stopped)
            && (d.status == Running ==> SameStates(d, w0) && d.working)
            && |d.queue| <= 1 && (!Failing(m) ==> ToSlaves(d.queue))
            && (d.status == Running && Failing(m) ==> d == w.(queue := [Message(Master, Code(3))]))
  {
    match m.who
    case Master =>
    case SlaveNo(i) =>
      ReportedIsSelf(w.slaves[i], w0.slaves[i], m.event);
      if !m.event.NoPoll? {
        SelfStays(w.slaves[i], m.event, a);
      }
      hide React;
  }

  // ---------------------------------------------------------- behind a stop

  /** A state copes with the events, whatever is answered. */
  predicate Fine(s: SlaveState, q: seq<Event>)
    decreases |q|
  {
    if q == [] || q[0].NoPoll? then true
    else
      match Declared(s, q[0])
      case Undeclared => false
      case Self => Fine(s, q[1..])
      case Goto(t) => Fine(t, q[1..])
  }

  predicate StopsEngine(w: World, m: Message) {
    || m == Message(Master, Code(3))
    || (Halting(m) && (m.who.SlaveNo? ==> m.who.i < |w.slaves|))
  }

  /** A message that the master copes with, or to a slave. */
  predicate Passable(w: World, m: Message) {
    match m.who
    case Master => MasterEvent(m.event) || m.event == Code(3)
    case SlaveNo(i) => i < |w.slaves|
  }

  /** A message at place p stops the engine, and everything in front of it is harmless:
      what is still to be sent comes behind it. */
  ghost predicate Shielded(w: World, p: nat) {
    && w.status == Running && w.working
    && p < |w.queue| && StopsEngine(w, w.queue[p])
    && (forall k :: 0 <= k < p ==> Passable(w, w.queue[k]))
    && forall i :: 0 <= i < |w.slaves| ==> Fine(w.slaves[i].state, Pending(w.queue[..p], SlaveNo(i)))
  }

  lemma FineStep(s: Slave, e: Event, rest: seq<Event>, a: Answer)
    requires Fine(s.state, [e] + rest)
    ensures var r := React(s, e, a);
            r.status in {Running, Stopped} && (r.status == Running ==> Fine(r.slave.state, rest))
  {
    var q := [e] + rest;
    assert q[0] == e && q[1..] == rest;
    if !e.NoPoll? && Declared(s.state, e) == Self {
      SelfStays(s, e, a);
    }
  }

  lemma ShieldStep(w: World, p: nat, a: Answer)
    requires Shielded(w, p)
    ensures var d := Step(w, a);
            d.status == Stopped || (p > 0 && Shielded(d, p - 1))
  {
    var m := w.queue[0];
    StepPrefix(w, p + 1, a);
    var d := Step(w, a);
    assert d == Deliver(Bare(w), m, a).(queue := d.queue);
    hide Step;
    if p > 0 {
      StepPrefix(w, p, a);
      var rest := w.queue[..p][1..];
      assert w.queue[..p] == [m] + rest;
      if m.who.SlaveNo? {
        PopPends(w.queue[..p], m.who);
        FineStep(w.slaves[m.who.i], m.event, Pending(rest, m.who), a);
      }
      forall i | 0 <= i < |w.slaves| && SlaveNo(i) != m.who
        ensures Pending(w.queue[..p], SlaveNo(i)) == Pending(rest, SlaveNo(i))
      {
        PopPends(w.queue[..p], SlaveNo(i));
      }
      hide React, Fine, Pending;
    }
  }

  lemma {:induction false} ShieldDrain(w: World, p: nat, answers: seq<Answer>)
    requires Shielded(w, p)
    ensures Harmless(Drain(w, answers))
    decreases |answers|
  {
    assert w.status == Running && w.queue != [];
    if answers != [] {
      ShieldStep(w, p, answers[0]);
      DrainStep(w, answers);
      var d := Step(w, answers[0]);
      hide Shielded, Step;
      if d.status == Stopped {
        DrainedStays(d, answers[1..]);
      } else {
        ShieldDrain(d, p - 1, answers[1..]);
      }
    }
  }

  // -------------------------------------------------------- batches it survives

  lemma ReadyInv(w: World)
    requires Ready(w)
    ensures Inv(w)
  {
    forall i | 0 <= i < |w.slaves| ensures SlaveOk(w.slaves[i], multiset(w.pool)[i], []) {
      assert Places(w, i) == multiset(w.pool)[i];
    }
  }

  lemma SafeBatchHarmless(w: World, batch: seq<Message>, answers: seq<Answer>)
    requires Ready(w) && BatchSafe(w, batch)
    ensures Harmless(Drain(w.(queue := batch), answers))
  {
    ReadyInv(w);
    WaitKeepsInv(w, batch);
    DrainKeeps(w.(queue := batch), answers);
    var d := Drain(w.(queue := batch), answers);
    hide Inv, Ready, Drain;
    if d.status == Running && d.queue == [] {
      DrainedIsReady(d);
    }
  }

  lemma {:induction false} FineEvents(s: SlaveState, q: seq<Event>, codes: seq<Event>)
    requires forall k :: 0 <= k < |q| ==> q[k].NoPoll? || Declared(s, q[k]) == Self
    requires Fine(s, codes)
    ensures Fine(s, q + codes)
    decreases |q|
  {
    if q == [] {
      assert q + codes == codes;
    } else {
      assert (q + codes)[0] == q[0] && (q + codes)[1..] == q[1..] + codes;
      FineEvents(s, q[1..], codes);
    }
  }

  lemma FineCodes(s: Slave, k: nat, q: seq<Event>)
    requires SlaveOk(s, k, q) && forall j :: 0 <= j < |q| ==> q[j].Code?
    ensures Fine(s.state, q)
  {
    if |q| == 2 {
      assert q == [q[0], q[1]] && q[1..] == [q[1]] && q[1..][1..] == [];
    } else if |q| == 1 {
      assert q == [q[0]] && q[1..] == [];
    }
  }

  /** Reported events, and behind them codes that every slave copes with. */
  lemma ReportedShields(w: World, w0: World, b: seq<Message>, c: seq<Message>)
    requires Resting(w0) && SameStates(w, w0) && w.status == Running && w.working
    requires |b| + |c| < |w.queue| && w.queue[..|b| + |c|] == b + c && StopsEngine(w, w.queue[|b| + |c|])
    requires (forall k :: 0 <= k < |b| ==> Reported(w0, b[k])) && ToSlaves(c)
    requires forall k :: 0 <= k < |c| ==> c[k].who.i < |w.slaves|
    requires forall i :: 0 <= i < |w.slaves| ==> Fine(w.slaves[i].state, Pending(c, SlaveNo(i)))
    ensures Shielded(w, |b| + |c|)
  {
    hide Reported, Passable, Fine, Pending, StopsEngine, SameStates, Resting, ToSlaves;
    ReportedPass(w, w0, b, c);
    AllFine(w, w0, b, c);
    var p := |b| + |c|;
    forall k | 0 <= k < p ensures Passable(w, w.queue[k]) {
      assert w.queue[k] == w.queue[..p][k] == if k < |b| then b[k] else c[k - |b|];
    }
  }

  lemma AllFine(w: World, w0: World, b: seq<Message>, c: seq<Message>)
    requires Resting(w0) && SameStates(w, w0)
    requires forall k :: 0 <= k < |b| ==> Reported(w0, b[k])
    requires forall i :: 0 <= i < |w.slaves| ==> Fine(w.slaves[i].state, Pending(c, SlaveNo(i)))
    ensures forall i :: 0 <= i < |w.slaves| ==> Fine(w.slaves[i].state, Pending(b + c, SlaveNo(i)))
  {
    hide Fine, Reported, Pending, SameStates, Resting;
    forall i | 0 <= i < |w.slaves| ensures Fine(w.slaves[i].state, Pending(b + c, SlaveNo(i))) {
      ReportedFine(w, w0, b, c, i);
    }
  }

  lemma ReportedPass(w: World, w0: World, b: seq<Message>, c: seq<Message>)
    requires SameStates(w, w0) && ToSlaves(c)
    requires forall k :: 0 <= k < |b| ==> Reported(w0, b[k])
    requires forall k :: 0 <= k < |c| ==> c[k].who.i < |w.slaves|
    ensures forall k :: 0 <= k < |b| ==> Passable(w, b[k])
    ensures forall k :: 0 <= k < |c| ==> Passable(w, c[k])
  {
  }

  lemma ReportedFine(w: World, w0: World, b: seq<Message>, c: seq<Message>, i: nat)
    requires Resting(w0) && SameStates(w, w0) && i < |w.slaves|
    requires forall k :: 0 <= k < |b| ==> Reported(w0, b[k])
    requires Fine(w.slaves[i].state, Pending(c, SlaveNo(i)))
    ensures Fine(w.slaves[i].state, Pending(b + c, SlaveNo(i)))
  {
    hide Fine;
    PendingConcat(b, c, SlaveNo(i));
    PendingFrom(b, SlaveNo(i));
    var q := Pending(b, SlaveNo(i));
    forall k | 0 <= k < |q| ensures q[k].NoPoll? || Declared(w.slaves[i].state, q[k]) == Self {
      assert Message(SlaveNo(i), q[k]) in b;
      ReportedIsSelf(w.slaves[i], w0.slaves[i], q[k]);
    }
    FineEvents(w.slaves[i].state, q, Pending(c, SlaveNo(i)));
  }

  lemma ReadyRests(w: World)
    requires Ready(w)
    ensures Resting(w) && w.working && w.status == Running && w.queue == []
  {
    forall i | 0 <= i < |w.slaves| ensures AtRest(w.slaves[i]) {
      assert Places(w, i) <= 1;
    }
  }

  lemma WatchedReports(w: World, batch: seq<Message>)
    requires Watched(w, batch)
    ensures forall k :: 0 <= k < |batch| ==> Reported(w, batch[k])
  {
  }

  lemma HaltingHarmless(w: World, batch: seq<Message>, m: nat, answers: seq<Answer>)
    requires Ready(w) && Watched(w, batch) && m < |batch| && Halting(batch[m])
    ensures Harmless(Drain(w.(queue := batch), answers))
  {
    ReadyRests(w);
    WatchedReports(w, batch);
    assert Reported(w, batch[m]);
    assert batch[..m] == batch[..m] + [];
    hide Ready, Watched, Drain;
    ReportedShields(w.(queue := batch), w, batch[..m], []);
    ShieldDrain(w.(queue := batch), m, answers);
  }

  /** The master fails at f. What stands in front of it, a, is handled as if f and b
      were not there; t is that world. */
  lemma {:induction false} Outrun(t: World, w0: World, a: seq<Message>, f: Message, b: seq<Message>,
                                  c: seq<Message>, answers: seq<Answer>)
    requires Inv(t) && t.working && t.queue == a + c
    requires Resting(w0) && SameStates(t, w0) && ToSlaves(c)
    requires forall k :: 0 <= k < |a| ==> Reported(w0, a[k]) && !Failing(a[k])
    requires Failing(f) && forall k :: 0 <= k < |b| ==> Reported(w0, b[k])
    ensures Harmless(Drain(t.(queue := a + [f] + b + c), answers))
    decreases |a|, |answers|
  {
    if answers == [] {
    } else if a != [] {
      OutrunMore(t, w0, a, f, b, c, answers);
      hide *;
      var m, a' := a[0], a[1..];
      var d := Deliver(Bare(t), m, answers[0]);
      if d.status == Running {
        Outrun(d.(queue := a' + (c + d.queue)), w0, a', f, b, c + d.queue, answers[1..]);
      }
    } else {
      assert a + [f] == [f] && a + c == c;
      hide Drain, Harmless, Reported, Resting, SameStates, Inv, ToSlaves, Failing;
      OutrunEnds(t, w0, f, b, c, answers);
    }
  }

  lemma OutrunMore(t: World, w0: World, a: seq<Message>, f: Message, b: seq<Message>, c: seq<Message>,
                   answers: seq<Answer>)
    requires Inv(t) && t.working && t.queue == a + c && a != [] && answers != []
    requires Resting(w0) && SameStates(t, w0) && ToSlaves(c) && Reported(w0, a[0]) && !Failing(a[0])
    ensures var d, r := Deliver(Bare(t), a[0], answers[0]), Drain(t.(queue := a + [f] + b + c), answers);
            if d.status != Running then Harmless(r)
            else
              && r == Drain(d.(queue := a[1..] + [f] + b + (c + d.queue)), answers[1..])
              && Inv(d.(queue := a[1..] + (c + d.queue))) && d.working
              && SameStates(d, w0) && ToSlaves(c + d.queue)
  {
    InvRuns(t);
    hide Inv, Step, SameStates, Reported, Resting, Failing, ToSlaves, Deliver, Drain;
    var m, a' := a[0], a[1..];
    assert a == [m] + a';
    var d := OutrunStep(t, w0, m, a', [f] + b, c, answers[0]);
    Regroup(m, a', f, b, c);
    var r := t.(queue := a + [f] + b + c);
    DrainStep(r, answers);
    assert a' + ([f] + b) + (c + d.queue) == a' + [f] + b + (c + d.queue);
    if d.status != Running {
      DrainedStays(Step(r, answers[0]), answers[1..]);
    }
  }

  lemma Regroup(m: Message, a: seq<Message>, f: Message, b: seq<Message>, c: seq<Message>)
    ensures [m] + a + [f] + b + c == [m] + (a + ([f] + b) + c)
  {
  }

  /** One message handled in two worlds that differ in the queue behind it. */
  lemma OutrunStep(t: World, w0: World, m: Message, a: seq<Message>, b: seq<Message>, c: seq<Message>, x: Answer)
      returns (d: World)
    requires Inv(t) && t.working && t.queue == [m] + a + c
    requires Resting(w0) && SameStates(t, w0) && ToSlaves(c) && Reported(w0, m) && !Failing(m)
    ensures d == Deliver(Bare(t), m, x)
    ensures Step(t.(queue := [m] + (a + b + c)), x) == d.(queue := a + b + (c + d.queue))
    ensures d.status in {Running, Stopped}
    ensures d.status == Running ==>
              && Inv(d.(queue := a + (c + d.queue))) && d.working
              && SameStates(d, w0) && ToSlaves(c + d.queue)
  {
    d := Deliver(Bare(t), m, x);
    InvRuns(t);
    ReportedStep(t, w0, m, x);
    StepKeepsInv(t, x);
    hide *;
    StepFrontWith(t, m, a, c, x);
    StepFrontWith(t.(queue := [m] + (a + b + c)), m, a + b, c, x);
  }

  lemma StepFrontWith(w: World, m: Message, a: seq<Message>, c: seq<Message>, x: Answer)
    requires w.queue == [m] + a + c || w.queue == [m] + (a + c)
    ensures var d := Deliver(Bare(w), m, x);
            Step(w, x) == d.(queue := a + (c + d.queue))
  {
    assert [m] + a + c == [m] + (a + c);
    StepFront(w, m, a + c, x);
    assert a + c + Posted(w, m, x) == a + (c + Posted(w, m, x));
    hide Deliver, Step;
  }

  lemma OutrunEnds(t: World, w0: World, f: Message, b: seq<Message>, c: seq<Message>, answers: seq<Answer>)
    requires Inv(t) && t.working && t.queue == c && answers != []
    requires Resting(w0) && SameStates(t, w0) && ToSlaves(c)
    requires Failing(f) && forall k :: 0 <= k < |b| ==> Reported(w0, b[k])
    ensures Harmless(Drain(t.(queue := [f] + b + c), answers))
  {
    var r, stop := t.(queue := [f] + b + c), Message(Master, Code(3));
    assert r.queue == [f] + (b + c);
    ReportedStep(t, w0, f, answers[0]);
    StepFront(r, f, b + c, answers[0]);
    DrainStep(r, answers);
    var d := Step(r, answers[0]);
    if d.status == Stopped {
      DrainedStays(d, answers[1..]);
    } else {
      assert d == t.(queue := b + c + [stop]);
      InvCodesFine(t, c);
      hide Inv, Step, Drain, SameStates, Resting, Fine;
      ReportedShields(d, w0, b, c);
      ShieldDrain(d, |b| + |c|, answers[1..]);
    }
  }

  lemma InvCodesFine(t: World, c: seq<Message>)
    requires Inv(t) && t.queue == c && ToSlaves(c)
    ensures forall k :: 0 <= k < |c| ==> c[k].who.i < |t.slaves|
    ensures forall i :: 0 <= i < |t.slaves| ==> Fine(t.slaves[i].state, Pending(c, SlaveNo(i)))
  {
    assert forall k :: 0 <= k < |c| ==> c[k] in t.queue;
    forall i | 0 <= i < |t.slaves| ensures Fine(t.slaves[i].state, Pending(c, SlaveNo(i))) {
      PendingFrom(c, SlaveNo(i));
      var q := Pending(c, SlaveNo(i));
      forall j | 0 <= j < |q| ensures q[j].Code? {
        assert Message(SlaveNo(i), q[j]) in c;
      }
      FineCodes(t.slaves[i], multiset(t.pool)[i], q);
    }
  }

  lemma SafePrefix(w: World, batch: seq<Message>, m: nat)
    requires Watched(w, batch) && m <= |batch|
    requires forall j: nat, k: nat :: Clash(w, batch, j, k) ==> k >= m
    ensures BatchSafe(w, batch[..m])
  {
    forall j, k | 0 <= j < k < m && batch[j].who == batch[k].who && batch[j].who.SlaveNo?
      ensures w.slaves[batch[j].who.i] == SENDING && Compatible(batch[j].event, batch[k].event)
    {
      assert !Clash(w, batch, j, k);
    }
  }

  /** The first message on which the master fails. */
  lemma FirstFailing(batch: seq<Message>, n: nat) returns (m: nat)
    requires n < |batch| && Failing(batch[n])
    ensures m <= n && Failing(batch[m]) && forall k :: 0 <= k < m ==> !Failing(batch[k])
  {
    m := 0;
    while !Failing(batch[m])
      invariant m <= n && forall k :: 0 <= k < m ==> !Failing(batch[k])
      decreases n - m
    {
      m := m + 1;
    }
  }

  lemma SurvivedBatch(w: World, batch: seq<Message>, answers: seq<Answer>)
    requires Ready(w) && Watched(w, batch) && Survivable(w, batch)
    ensures Harmless(Drain(w.(queue := batch), answers))
  {
    if m :| 0 <= m < |batch| && Halting(batch[m]) {
      HaltingHarmless(w, batch, m, answers);
    } else if n :| 0 <= n < |batch| && Failing(batch[n]) {
      var m := FirstFailing(batch, n);
      FailingHarmless(w, batch, m, answers);
    } else {
      SafePrefix(w, batch, |batch|);
      assert batch[..|batch|] == batch;
      SafeBatchHarmless(w, batch, answers);
    }
  }

  lemma Split(batch: seq<Message>, m: nat)
    requires m < |batch|
    ensures batch == batch[..m] + [batch[m]] + batch[m + 1..] + []
  {
  }

  lemma FailingHarmless(w: World, batch: seq<Message>, m: nat, answers: seq<Answer>)
    requires Ready(w) && Watched(w, batch) && m < |batch| && Failing(batch[m])
    requires forall k :: 0 <= k < m ==> !Failing(batch[k])
    requires forall j: nat, k: nat :: Clash(w, batch, j, k) ==> k >= m
    ensures Harmless(Drain(w.(queue := batch), answers))
  {
    hide Ready, Watched, BatchSafe, Clash, Drain, Inv, Reported, Failing, Resting, Harmless;
    ReadyRests(w);
    ReadyInv(w);
    WatchedReports(w, batch);
    SafePrefix(w, batch, m);
    WaitKeepsInv(w, batch[..m]);
    assert batch[..m] + [] == batch[..m];
    Split(batch, m);
    Outrun(w.(queue := batch[..m]), w, batch[..m], batch[m], batch[m + 1..], [], answers);
  }

  // ------------------------------------------------------------ and the others

  /** Every client hangs up. */
  const HANGUP := Answer(false, true, 0, false, 0, false, -1, false, 0)

  /** With these answers the event makes a serving slave send itself code 1. */
  predicate Fatal(s: Slave, e: Event) {
    && Reportable(s, e) && !e.NoPoll?
    && !(s == SENDING && (e.PollErr? || e.PollHup?))
  }

  /** With these answers a reported event leaves the slaves as they are, and a fatal one
      makes its slave send itself code 1. */
  lemma HangUp(s: Slave, e: Event)
    requires AtRest(s) && Reportable(s, e) && !e.NoPoll?
    ensures var r := React(s, e, HANGUP);
            r == Effect(s, false, if Fatal(s, e) then Some(1) else None, Running)
  {
  }

  /** A reported event, while the clients hang up. Slave i is not in the pool. */
  lemma HangUpStep(w: World, m: Message, i: nat)
    requires Resting(w) && w.working && w.status == Running && Reported(w, m) && !Halting(m)
    requires i < |w.slaves| && i !in w.pool
    ensures var d := Deliver(Bare(w), m, HANGUP);
            && d.status == Running && d.working && d.slaves == w.slaves && i !in d.pool && |d.queue| <= 1
            && (!Failing(m) ==> ToSlaves(d.queue))
            && Pending(d.queue, SlaveNo(i)) ==
               (if m.who == SlaveNo(i) && Fatal(w.slaves[i], m.event) then [Code(1)] else [])
  {
    ReportedStep(w, w, m, HANGUP);
    match m.who
    case Master =>
      if w.pool != [] {
        assert w.pool[|w.pool| - 1] in w.pool;
      }
    case SlaveNo(j) =>
      HangUp(w.slaves[j], m.event);
      hide React;
      assert w.slaves[j := w.slaves[j]] == w.slaves;
  }

  function Hangups(n: nat): (answers: seq<Answer>)
    ensures |answers| == n
  {
    seq(n, _ => HANGUP)
  }

  /** Two codes 1 wait for a slave that serves a client, or one while it is in `done`. */
  predicate Trap(s: Slave, q: seq<Event>) {
    || (s.state in {Recv, Send} && q == [Code(1), Code(1)])
    || (s.state == Done && q != [] && q[0] == Code(1))
  }

  /** Nothing among the first p messages keeps slave i out of its trap. */
  ghost predicate Trapped(w: World, i: nat, p: nat) {
    && w.status == Running && w.working && p <= |w.queue| && i < |w.slaves|
    && (forall k :: 0 <= k < p ==> !Halting(w.queue[k]) && w.queue[k] != Message(Master, Code(3)))
    && (forall j :: 0 <= j < |w.slaves| ==> w.slaves[j].state != Init)
    && Trap(w.slaves[i], Pending(w.queue[..p], SlaveNo(i)))
  }

  /** A slave other than i reacts. */
  lemma OthersReact(s: Slave, e: Event)
    requires s.state != Init && !e.NoPoll?
    ensures var r := React(s, e, HANGUP);
            r.status == Crashed || (r.status == Running && r.slave.state != Init)
  {
  }

  lemma TrapCloses(s: Slave, e: Event, rest: seq<Event>)
    requires Trap(s, [e] + rest)
    ensures var r := React(s, e, HANGUP);
            r.status == Crashed || (r.status == Running && r.slave.state != Init && Trap(r.slave, rest))
  {
    var q := [e] + rest;
    assert q[0] == e && q[1..] == rest;
  }

  lemma TrappedStep(w: World, i: nat, p: nat)
    requires Trapped(w, i, p)
    ensures p > 0
    ensures Step(w, HANGUP).status == Crashed || Trapped(Step(w, HANGUP), i, p - 1)
  {
    assert w.queue[..0] == [];
    var m, rest := w.queue[0], w.queue[..p][1..];
    StepPrefix(w, p, HANGUP);
    PopPends(w.queue[..p], SlaveNo(i));
    hide Step, Pending;
    if m.who.SlaveNo? && m.who.i < |w.slaves| {
      if m.who.i == i {
        TrapCloses(w.slaves[i], m.event, Pending(rest, m.who));
      } else {
        OthersReact(w.slaves[m.who.i], m.event);
      }
    }
    hide React, Trap, Halting;
  }

  lemma {:induction false} TrappedCrashes(w: World, i: nat, p: nat, n: nat)
    requires Trapped(w, i, p) && n >= p
    ensures Drain(w, Hangups(n)).status == Crashed
    decreases n
  {
    TrappedStep(w, i, p);
    assert Hangups(n)[1..] == Hangups(n - 1) && Hangups(n)[0] == HANGUP;
    DrainStep(w, Hangups(n));
    hide Trapped, Step;
    if Step(w, HANGUP).status == Crashed {
      DrainedStays(Step(w, HANGUP), Hangups(n - 1));
    } else {
      TrappedCrashes(Step(w, HANGUP), i, p - 1, n - 1);
    }
  }

  /** The queue is a + b + c: events a to be handled, then b, then codes c; the events
      for slave i are fatal and stand in a, or are codes 1 already. */
  ghost predicate Rushing(w: World, i: nat, a: seq<Message>, b: seq<Message>, c: seq<Message>) {
    && Resting(w) && w.working && w.status == Running && i < |w.slaves| && i !in w.pool && Serving(w.slaves[i])
    && w.queue == a + b + c && ToSlaves(c)
    && (forall k :: 0 <= k < |a| ==> Reported(w, a[k]) && !Halting(a[k]) && !Failing(a[k]))
    && (forall k :: 0 <= k < |b| ==> !Halting(b[k]) && b[k] != Message(Master, Code(3)))
    && (forall e :: e in Pending(a, SlaveNo(i)) ==> Fatal(w.slaves[i], e))
    && (forall e :: e in Pending(c, SlaveNo(i)) ==> e == Code(1))
    && Pending(b, SlaveNo(i)) == []
    && |Pending(a, SlaveNo(i))| + |Pending(c, SlaveNo(i))| == 2
  }

  lemma {:induction false} Rush(w: World, i: nat, a: seq<Message>, b: seq<Message>, c: seq<Message>, n: nat)
    requires Rushing(w, i, a, b, c) && n >= 2 * |a| + |b| + |c|
    ensures Drain(w, Hangups(n)).status == Crashed
    decreases |a|
  {
    hide *;
    if a == [] {
      RushEnds(w, i, b, c);
      TrappedCrashes(w, i, |b| + |c|, n);
    } else {
      RushNext(w, i, a, b, c, n);
      var d := Deliver(Bare(w), a[0], HANGUP);
      Rush(d.(queue := a[1..] + b + (c + d.queue)), i, a[1..], b, c + d.queue, n - 1);
    }
  }

  lemma RushNext(w: World, i: nat, a: seq<Message>, b: seq<Message>, c: seq<Message>, n: nat)
    requires Rushing(w, i, a, b, c) && a != [] && n > 0
    ensures var d := Deliver(Bare(w), a[0], HANGUP);
            var w' := d.(queue := a[1..] + b + (c + d.queue));
            && |d.queue| <= 1 && Rushing(w', i, a[1..], b, c + d.queue)
            && Drain(w, Hangups(n)) == Drain(w', Hangups(n - 1))
  {
    assert a + b + c == [a[0]] + (a[1..] + b) + c;
    RushStep(w, i, a[0], a[1..] + b, c, n);
    PopPends(a, SlaveNo(i));
    RestingToo(w, Deliver(Bare(w), a[0], HANGUP), a);
    hide Deliver, Drain, Reported, Fatal, Serving, Pending, Failing, Halting, ToSlaves, Resting;
  }

  lemma RestingToo(w: World, d: World, a: seq<Message>)
    requires Resting(w) && d.slaves == w.slaves && forall k :: 0 <= k < |a| ==> Reported(w, a[k])
    ensures Resting(d) && forall k :: 0 <= k < |a| ==> Reported(d, a[k])
  {
  }

  lemma RushStep(w: World, i: nat, m: Message, rest: seq<Message>, c: seq<Message>, n: nat)
    requires Resting(w) && w.working && w.status == Running && i < |w.slaves| && i !in w.pool
    requires w.queue == [m] + rest + c && ToSlaves(c) && n > 0
    requires Reported(w, m) && !Halting(m) && !Failing(m)
    ensures var d := Deliver(Bare(w), m, HANGUP);
            && Drain(w, Hangups(n)) == Drain(d.(queue := rest + (c + d.queue)), Hangups(n - 1))
            && d.status == Running && d.working && d.slaves == w.slaves && i !in d.pool && |d.queue| <= 1
            && ToSlaves(c + d.queue)
            && Pending(c + d.queue, SlaveNo(i)) == Pending(c, SlaveNo(i)) +
               (if m.who == SlaveNo(i) && Fatal(w.slaves[i], m.event) then [Code(1)] else [])
  {
    HangUpStep(w, m, i);
    var d := Deliver(Bare(w), m, HANGUP);
    assert ToSlaves(c + d.queue);
    hide Deliver, Step, Drain, Reported, Fatal, Pending, Failing, Halting, ToSlaves, Resting;
    StepFrontWith(w, m, rest, c, HANGUP);
    assert Hangups(n)[1..] == Hangups(n - 1) && Hangups(n)[0] == HANGUP;
    DrainStep(w, Hangups(n));
    PendingConcat(c, d.queue, SlaveNo(i));
  }

  lemma RushEnds(w: World, i: nat, b: seq<Message>, c: seq<Message>)
    requires Rushing(w, i, [], b, c)
    ensures Trapped(w, i, |b| + |c|)
  {
    assert [] + b + c == b + c && Pending([], SlaveNo(i)) == [];
    var p := |b| + |c|;
    assert w.queue[..p] == b + c;
    PendingConcat(b, c, SlaveNo(i));
    assert Pending(w.queue[..p], SlaveNo(i)) == [Code(1), Code(1)] by {
      var q := Pending(c, SlaveNo(i));
      assert q[0] in q && q[1] in q;
    }
    hide Pending;
    forall k | 0 <= k < p ensures !Halting(w.queue[k]) && w.queue[k] != Message(Master, Code(3)) {
      assert w.queue[k] == if k < |b| then b[k] else c[k - |b|];
    }
  }

  /** A slave's two channels report one event each. */
  lemma TwoAtMost(w: World, batch: seq<Message>, i: nat)
    requires Watched(w, batch)
    ensures |Pending(batch, SlaveNo(i))| <= 2
  {
    if |Pending(batch, SlaveNo(i))| >= 3 {
      var j, k := PendingPair(batch, SlaveNo(i), 0, 1);
      var j', k' := PendingPair(batch, SlaveNo(i), 0, 2);
      var j'', k'' := PendingPair(batch, SlaveNo(i), 1, 2);
    }
  }

  /** Where a message's event stands among those of its machine. */
  lemma {:induction false} PendingHas(q: seq<Message>, k: nat) returns (b: nat)
    requires k < |q|
    ensures b < |Pending(q, q[k].who)| && Pending(q, q[k].who)[b] == q[k].event
    ensures b == |Pending(q[..k], q[k].who)|
    decreases |q|
  {
    if k == 0 {
      b := 0;
    } else {
      assert q[1..][..k - 1] == q[..k][1..];
      var b' := PendingHas(q[1..], k - 1);
      b := b' + if q[0].who == q[k].who then 1 else 0;
    }
  }

  lemma {:induction false} PendingBoth(w: World, batch: seq<Message>, j: nat, k: nat)
    requires Watched(w, batch) && j < k < |batch| && batch[j].who == batch[k].who && batch[j].who.SlaveNo?
    ensures Pending(batch, batch[j].who) == [batch[j].event, batch[k].event]
  {
    var who := batch[j].who;
    var a := PendingHas(batch, j);
    var b := PendingHas(batch, k);
    assert batch[..k][..j] == batch[..j] && batch[..k][j] == batch[j];
    var c := PendingHas(batch[..k], j);
    TwoAtMost(w, batch, who.i);
    var p := Pending(batch, who);
    assert a < b && |p| == 2;
    assert p == [p[0], p[1]];
  }

  lemma ClashRushes(w: World, batch: seq<Message>, j: nat, k: nat)
    requires Ready(w) && Watched(w, batch) && Clash(w, batch, j, k)
    requires forall m :: 0 <= m < |batch| ==> !Halting(batch[m])
    requires forall m :: 0 <= m < k ==> !Failing(batch[m])
    ensures j < k < |batch| && batch[j].who.SlaveNo?
    ensures Rushing(w.(queue := batch), batch[j].who.i, batch[..k + 1], batch[k + 1..], [])
  {
    hide Ready, Watched, Drain, Fatal, Halting, Failing, Pending, Reported, Serving, Resting, Compatible;
    var i, a, b := batch[j].who.i, batch[..k + 1], batch[k + 1..];
    assert batch[k].who == batch[j].who && !(Failing(batch[k])) by { SlavesDoNotFail(batch[k]); }
    ReadyRests(w);
    ClashIsFatal(w, batch, j, k);
    ClashInFront(w, batch, j, k);
    assert batch == a + b;
    CutReports(w, batch, a, b);
    NonePends(SlaveNo(i));
    assert batch == a + b + [];
    RestingToo(w, w.(queue := batch), a);
  }

  lemma SlavesDoNotFail(m: Message)
    ensures m.who.SlaveNo? ==> !Failing(m)
  {
  }

  lemma NonePends(who: Who)
    ensures Pending([], who) == []
  {
  }

  /** A clash that nothing is in front of, with every client hanging up. */
  lemma ClashCrashes(w: World, batch: seq<Message>, j: nat, k: nat)
    requires Ready(w) && Watched(w, batch) && Clash(w, batch, j, k)
    requires forall m :: 0 <= m < |batch| ==> !Halting(batch[m])
    requires forall m :: 0 <= m < k ==> !Failing(batch[m])
    ensures Drain(w.(queue := batch), Hangups(2 * |batch|)).status == Crashed
  {
    hide *;
    ClashRushes(w, batch, j, k);
    Rush(w.(queue := batch), batch[j].who.i, batch[..k + 1], batch[k + 1..], [], 2 * |batch|);
  }

  lemma CutReports(w: World, batch: seq<Message>, a: seq<Message>, b: seq<Message>)
    requires Watched(w, batch) && batch == a + b
    requires forall m :: 0 <= m < |batch| ==> !Halting(batch[m])
    requires forall m :: 0 <= m < |a| ==> !Failing(batch[m])
    ensures forall k :: 0 <= k < |a| ==> Reported(w, a[k]) && !Halting(a[k]) && !Failing(a[k])
    ensures forall k :: 0 <= k < |b| ==> !Halting(b[k]) && b[k] != Message(Master, Code(3))
  {
    WatchedReports(w, batch);
    assert forall k :: 0 <= k < |a| ==> a[k] == batch[k];
    assert forall k :: 0 <= k < |b| ==> b[k] == batch[|a| + k] && Reported(w, batch[|a| + k]);
    hide Watched, Halting, Failing;
  }

  lemma ClashIsFatal(w: World, batch: seq<Message>, j: nat, k: nat)
    requires Ready(w) && Watched(w, batch) && Clash(w, batch, j, k)
    requires !Halting(batch[j]) && !Halting(batch[k])
    ensures var i := batch[j].who.i;
            && Serving(w.slaves[i]) && i !in w.pool
            && Fatal(w.slaves[i], batch[j].event) && Fatal(w.slaves[i], batch[k].event)
  {
    var i := batch[j].who.i;
    var s, e, f := w.slaves[i], batch[j].event, batch[k].event;
    assert Reportable(s, e) && Reportable(s, f);
    assert Channel(|w.slaves|, batch[j]) != Channel(|w.slaves|, batch[k]);
    assert Places(w, i) == 0;
  }

  /** The clashing events are all that slave i has. */
  lemma ClashInFront(w: World, batch: seq<Message>, j: nat, k: nat)
    requires Watched(w, batch) && Clash(w, batch, j, k)
    ensures Pending(batch[..k + 1], batch[j].who) == [batch[j].event, batch[k].event]
    ensures Pending(batch[k + 1..], batch[j].who) == []
  {
    var who, a, b := batch[j].who, batch[..k + 1], batch[k + 1..];
    assert batch == a + b;
    PendingBoth(w, batch, j, k);
    assert Watched(w, a);
    PendingBoth(w, a, j, k);
    PendingConcat(a, b, who);
  }

  /** Of all batches of watched events, the server survives, whatever is answered,
      exactly these: something stops the engine at once; or every clash of two events
      of a slave has an error or hang-up of the master's socket before its second
      event. */
  lemma QueueExact(w: World, batch: seq<Message>)
    requires Ready(w) && Watched(w, batch)
    ensures Survivable(w, batch) <==> forall answers :: Harmless(Drain(w.(queue := batch), answers))
  {
    if Survivable(w, batch) {
      hide Survivable, Ready, Watched, Harmless, Drain;
      forall answers ensures Harmless(Drain(w.(queue := batch), answers)) {
        SurvivedBatch(w, batch, answers);
      }
    } else {
      var j: nat, k: nat :| Clash(w, batch, j, k) && forall m :: 0 <= m < k ==> !Failing(batch[m]);
      ClashCrashes(w, batch, j, k);
      assert !Harmless(Drain(w.(queue := batch), Hangups(2 * |batch|)));
    }
  }

  /** Whenever a slave serves a client, its timeout and an event of its IO channel may
      come together; for all answers that is harmless exactly if it sends and the
      event is an error or hang-up. */
  lemma PairExact(w: World, i: nat, e: Event, timeoutFirst: bool)
    requires Ready(w) && i < |w.slaves| && Serving(w.slaves[i]) && IoEvent(e) && Reportable(w.slaves[i], e)
    ensures Watched(w, Both(i, e, timeoutFirst))
    ensures (forall answers :: Harmless(Drain(w.(queue := Both(i, e, timeoutFirst)), answers))) <==>
            w.slaves[i] == SENDING && (e.PollErr? || e.PollHup?)
  {
    BothClash(w, i, e, timeoutFirst);
    hide Ready, Drain, Harmless, Watched, Survivable;
    QueueExact(w, Both(i, e, timeoutFirst));
  }

  lemma BothClash(w: World, i: nat, e: Event, timeoutFirst: bool)
    requires i < |w.slaves| && Serving(w.slaves[i]) && IoEvent(e) && Reportable(w.slaves[i], e)
    ensures var batch := Both(i, e, timeoutFirst);
            && Watched(w, batch)
            && (Survivable(w, batch) <==> w.slaves[i] == SENDING && (e.PollErr? || e.PollHup?))
  {
    var batch := Both(i, e, timeoutFirst);
    assert batch[0].who == batch[1].who == SlaveNo(i);
    assert {batch[0].event, batch[1].event} == {Tick(0), e};
    assert Clash(w, batch, 0, 1) <==> !(w.slaves[i] == SENDING && (e.PollErr? || e.PollHup?));
  }
}
