/** Whole runs of the echo server with the ring buffer that its queue is. The ring
    grows soundly only from slot 0; which batches the server survives depends on
    their length, too. */
module EchoRing {
  import opened EchoServer
  import opened EchoRuns
  import opened EchoBatches
  import RI = RingIndex
  import RB = RingBuffer
  import Words

  const QUEUE_SIZE := 128

  /** The bytes of a message: three pointers and a code, aligned. */
  const MESSAGE_SIZE := 32

  const MAX_MESSAGES := 0x400_0000

  /** The capacity a ring of 128 slots has grown to when it first holds n items. */
  function CapFor(n: nat): nat {
    RB.Grown(QUEUE_SIZE, n)
  }

  /** The world, whose queue is carried by the ring while every growth was sound. */
  datatype Engine = Engine(w: World, ring: RI.Ring, sound: bool)

  /** The world w has n more messages in its queue than the ring holds. */
  function Fill(w: World, ring: RI.Ring, n: nat, sound: bool): Engine {
    Engine(w, RB.PutMany(ring, n), sound && RB.AllSound(ring, n, MESSAGE_SIZE))
  }

  /** One message taken, and the messages put that its handling posts. */
  function EngineStep(e: Engine, a: Answer): Engine
    requires e.w.queue != []
  {
    Fill(Step(e.w, a), RI.Get(e.ring).0, |Posted(e.w, e.w.queue[0], a)|, e.sound)
  }

  function EngineDrain(e: Engine, answers: seq<Answer>): Engine
    decreases |answers|
  {
    if answers == [] || e.w.queue == [] || e.w.status != Running then e
    else EngineDrain(EngineStep(e, answers[0]), answers[1..])
  }

  function EngineWait(e: Engine, batch: seq<Message>): Engine {
    Fill(e.w.(queue := batch), e.ring, |batch|, e.sound)
  }

  function EngineStart(n: nat, listening: bool): Engine {
    var w := Started(n, listening);
    Fill(w, RI.Init(QUEUE_SIZE), |w.queue|, true)
  }

  lemma EngineDrainStep(e: Engine, answers: seq<Answer>)
    requires answers != [] && e.w.queue != [] && e.w.status == Running
    ensures EngineDrain(e, answers) == EngineDrain(EngineStep(e, answers[0]), answers[1..])
  {
  }

  lemma EngineDrained(e: Engine, answers: seq<Answer>)
    requires e.w.queue == []
    ensures EngineDrain(e, answers) == e
  {
  }

  ghost predicate Carries(e: Engine) {
    RB.Wellformed(e.ring) && e.ring.size == |e.w.queue|
  }

  // -------------------------------------------------------------------- draining

  lemma PostsOne(w: World, m: Message, a: Answer)
    ensures |Posted(w, m, a)| <= 1
  {
    hide React;
  }

  /** A step takes one message and puts at most one: it needs no growth. */
  lemma StepCarries(e: Engine, a: Answer)
    requires Carries(e) && e.w.queue != []
    ensures var d := EngineStep(e, a);
            && d.w == Step(e.w, a) && d.sound == e.sound && Carries(d)
            && d.ring.cap == e.ring.cap && d.ring.tail == RB.Slot(e.ring.tail, 1, e.ring.cap)
  {
    var m, rest := e.w.queue[0], e.w.queue[1..];
    assert e.w.queue == [m] + rest;
    StepFront(e.w, m, rest, a);
    PostsOne(e.w, m, a);
    RB.GetStep(e.ring);
    RB.Bounded(e.ring);
    hide Step, Posted, RB.Wellformed, RI.Get, RB.Grown;
    RB.ManyPuts(RI.Get(e.ring).0, |Posted(e.w, m, a)|, MESSAGE_SIZE);
    RB.GrownFits(e.ring.cap, e.ring.size - 1 + |Posted(e.w, m, a)|);
  }

  lemma {:induction false} DrainCarries(e: Engine, answers: seq<Answer>)
    requires Carries(e)
    ensures var d := EngineDrain(e, answers);
            && d.w == Drain(e.w, answers) && d.sound == e.sound && Carries(d) && d.ring.cap == e.ring.cap
    decreases |answers|
  {
    if answers != [] && e.w.queue != [] && e.w.status == Running {
      StepCarries(e, answers[0]);
      hide Carries, EngineStep, Step;
      DrainCarries(EngineStep(e, answers[0]), answers[1..]);
    }
  }

  /** What a step does to the ring: a get, and as many puts as the queue shows. */
  lemma StepOnRing(e: Engine, a: Answer)
    requires Carries(e) && e.sound && e.w.queue != []
    ensures |Step(e.w, a).queue| >= |e.w.queue| - 1
    ensures var w := Step(e.w, a);
            EngineStep(e, a) == Engine(w, RB.PutMany(RI.Get(e.ring).0, |w.queue| - (|e.w.queue| - 1)), true)
  {
    var m, rest := e.w.queue[0], e.w.queue[1..];
    assert e.w.queue == [m] + rest;
    StepFront(e.w, m, rest, a);
    StepCarries(e, a);
    hide Step, Posted, Carries, RB.PutMany, RI.Get;
  }

  lemma {:induction false} EngineDrainSnoc(e: Engine, answers: seq<Answer>, a: Answer)
    ensures var d := EngineDrain(e, answers);
            EngineDrain(e, answers + [a]) == if d.w.queue == [] || d.w.status != Running then d else EngineStep(d, a)
    decreases |answers|
  {
    hide EngineStep;
    if answers == [] {
      assert [] + [a] == [a] && [a][1..] == [];
      if e.w.queue != [] && e.w.status == Running {
        assert EngineDrain(EngineStep(e, a), []) == EngineStep(e, a);
      }
    } else {
      assert (answers + [a])[1..] == answers[1..] + [a];
      if e.w.queue != [] && e.w.status == Running {
        EngineDrainSnoc(EngineStep(e, answers[0]), answers[1..], a);
      }
    }
  }

  /** The ring has room for the batch, or grows soundly to have it. */
  predicate HasRoom(e: Engine, batch: seq<Message>) {
    || |batch| <= e.ring.cap
    || (e.ring.tail == 0 && RB.Fits(RB.Grown(e.ring.cap, |batch|), MESSAGE_SIZE))
  }

  /** A wait is sound exactly then. */
  lemma WaitCarries(e: Engine, batch: seq<Message>)
    requires Carries(e) && e.w.queue == []
    ensures var d := EngineWait(e, batch);
            && (d.sound <==> e.sound && HasRoom(e, batch))
            && d.w == e.w.(queue := batch)
            && (d.sound ==> Carries(d) && d.ring.tail == e.ring.tail && d.ring.cap >= e.ring.cap)
            && (d.sound && |batch| <= e.ring.cap ==> d.ring.cap == e.ring.cap)
  {
    RB.ManyPuts(e.ring, |batch|, MESSAGE_SIZE);
  }

  /** A ring of c slots grows to less than twice c * 2^k slots exactly for up to that
      many items. */
  lemma {:induction false} GrownBelow(c: nat, n: nat, k: nat)
    requires c > 0
    ensures RB.Grown(c, n) < 2 * (c * Words.Pow2(k)) <==> n <= c * Words.Pow2(k)
    decreases k
  {
    if k == 0 {
      if n > c {
        assert RB.Grown(c, n) == RB.Grown(2 * c, n) >= 2 * c;
      }
    } else {
      assert c * Words.Pow2(k) == 2 * c * Words.Pow2(k - 1);
      assert Words.Pow2(k) >= 1;
      assert c <= c * Words.Pow2(k);
      if n > c {
        GrownBelow(2 * c, n, k - 1);
      }
    }
  }

  /** Up to 2^26 messages fit a ring whose size in bytes is below 2^32. */
  lemma CapFits(n: nat)
    ensures RB.Fits(CapFor(n), MESSAGE_SIZE) <==> n <= MAX_MESSAGES
  {
    assert Words.Pow2(7) == 128 && Words.Pow2(13) == 8192 && Words.Pow2(19) == 524288;
    GrownBelow(QUEUE_SIZE, n, 19);
  }

  lemma InitialRing()
    ensures RI.Init(QUEUE_SIZE).cap == QUEUE_SIZE && RI.Init(QUEUE_SIZE).tail == RI.Init(QUEUE_SIZE).size == 0
  {
    RB.InitWellformed(QUEUE_SIZE);
    RI.PowerOfTwoTest(QUEUE_SIZE);
  }

  /** The ring after start-up: it grows soundly for up to 2^26 messages. */
  lemma StartCarries(n: nat, listening: bool)
    ensures var e := EngineStart(n, listening);
            && e.w == Started(n, listening)
            && (e.sound <==> |e.w.queue| <= MAX_MESSAGES)
            && (e.sound ==> Carries(e) && e.ring.tail == 0 && e.ring.cap == CapFor(|e.w.queue|))
  {
    hide RB.Wellformed, RB.PutMany, RB.AllSound, RB.Fits, RB.Grown, RI.IsPow2, RI.And;
    RB.InitWellformed(QUEUE_SIZE);
    InitialRing();
    var w := Started(n, listening);
    RB.ManyPuts(RI.Init(QUEUE_SIZE), |w.queue|, MESSAGE_SIZE);
    CapFits(|w.queue|);
  }

  // ---------------------------------------------------------------- whole runs

  /** One pass of the main loop: the queue is drained, then the system reports. */
  datatype Turn = Turn(answers: seq<Answer>, batch: seq<Message>)

  predicate Settled(w: World) {
    w.status == Running && w.queue == []
  }

  /** The batch is safe, and the ring can take it. */
  predicate Taken(e: Engine, batch: seq<Message>) {
    BatchSafe(e.w, batch) && HasRoom(e, batch)
  }

  predicate Passes(e: Engine, t: Turn, e': Engine) {
    var d := EngineDrain(e, t.answers);
    Settled(d.w) && Taken(d, t.batch) && e' == EngineWait(d, t.batch)
  }

  /** A run of a server with n slaves, or without any if its socket could not be
      listening. */
  predicate IsRun(es: seq<Engine>, ts: seq<Turn>, n: nat, listening: bool) {
    && |es| == |ts| + 1
    && es[0] == EngineStart(n, listening)
    && forall k :: 0 <= k < |ts| ==> Passes(es[k], ts[k], es[k + 1])
  }

  ghost predicate Sane(e: Engine, n: nat, listening: bool) {
    && Inv(e.w) && e.sound && Carries(e)
    && |e.w.slaves| == (if listening then n else 0)
    && (listening ==> e.ring.cap >= CapFor(n + 1))
  }

  lemma DrainSane(e: Engine, n: nat, listening: bool, answers: seq<Answer>)
    requires Sane(e, n, listening)
    ensures var d := EngineDrain(e, answers);
            && d.w == Drain(e.w, answers) && d.w.status != Crashed && d.sound && Carries(d)
            && d.ring.cap == e.ring.cap && (d.w.status == Running ==> Sane(d, n, listening))
  {
    DrainCarries(e, answers);
    DrainKeeps(e.w, answers);
    hide Inv, Drain, EngineDrain, Carries;
  }

  lemma SettledIsReady(e: Engine, n: nat, listening: bool)
    requires Sane(e, n, listening) && Settled(e.w)
    ensures Ready(e.w)
  {
    DrainedIsReady(e.w);
  }

  lemma WaitSane(e: Engine, n: nat, listening: bool, batch: seq<Message>)
    requires Sane(e, n, listening) && Settled(e.w) && n < MAX_MESSAGES && Taken(e, batch)
    ensures Sane(EngineWait(e, batch), n, listening)
  {
    hide Inv, Carries;
    WaitCarries(e, batch);
    WaitKeepsInv(e.w, batch);
  }

  lemma PassSane(e: Engine, t: Turn, e': Engine, n: nat, listening: bool)
    requires Sane(e, n, listening) && n < MAX_MESSAGES && Passes(e, t, e')
    ensures Sane(e', n, listening)
  {
    hide Sane, EngineDrain, EngineWait, Taken;
    DrainSane(e, n, listening, t.answers);
    WaitSane(EngineDrain(e, t.answers), n, listening, t.batch);
  }

  lemma {:induction false} RunSane(es: seq<Engine>, ts: seq<Turn>, n: nat, listening: bool, k: nat)
    requires IsRun(es, ts, n, listening) && n < MAX_MESSAGES && k < |es|
    ensures Sane(es[k], n, listening)
    decreases k
  {
    if k == 0 {
      StartSane(n, listening);
    } else {
      var j := k - 1;
      assert Passes(es[j], ts[j], es[j + 1]);
      RunSane(es, ts, n, listening, j);
      hide *;
      PassSane(es[j], ts[j], es[j + 1], n, listening);
    }
  }

  lemma StartSane(n: nat, listening: bool)
    requires n < MAX_MESSAGES
    ensures Sane(EngineStart(n, listening), n, listening)
  {
    StartIsOk(n, listening);
    StartCarries(n, listening);
    hide Inv, Carries, EngineStart;
  }

  /** Whole runs are safe: after any number of passes and any number of messages of
      the next drain, every growth of the ring was sound and the queue fits it; no
      machine has been given a code it does not declare; an empty queue means every
      slave is where it belongs; and the drain ends. */
  lemma AlwaysSafe(es: seq<Engine>, ts: seq<Turn>, n: nat, listening: bool, k: nat, answers: seq<Answer>)
    requires IsRun(es, ts, n, listening) && n < MAX_MESSAGES && k < |es|
    ensures var d := EngineDrain(es[k], answers);
            && d.sound && |d.w.queue| == d.ring.size <= d.ring.cap == es[k].ring.cap
            && d.w.status != Crashed
            && (Settled(d.w) ==> Ready(d.w))
            && (|answers| >= 4 * |es[k].w.queue| ==> d.w.queue == [] || d.w.status == Stopped)
  {
    RunSane(es, ts, n, listening, k);
    DrainSane(es[k], n, listening, answers);
    DrainKeeps(es[k].w, answers);
    WeightBound(es[k].w.queue);
    var d := EngineDrain(es[k], answers);
    RB.Bounded(d.ring);
    hide Inv, Drain, EngineDrain, IsRun, RB.Wellformed;
    if Settled(d.w) {
      SettledIsReady(d, n, listening);
    }
  }

  // ------------------------------------------------------------- exact batches

  ghost predicate NoHarm(e: Engine) {
    e.sound && Harmless(e.w)
  }

  /** Of all batches of watched events, the server survives, whatever is answered,
      exactly the survivable ones that the ring has room for or can grow for. */
  lemma BatchExact(e: Engine, batch: seq<Message>)
    requires Carries(e) && e.sound && Ready(e.w) && Watched(e.w, batch)
    ensures (forall answers :: NoHarm(EngineDrain(EngineWait(e, batch), answers))) <==>
            Survivable(e.w, batch) && HasRoom(e, batch)
  {
    var d, w := EngineWait(e, batch), e.w.(queue := batch);
    WaitCarries(e, batch);
    QueueExact(e.w, batch);
    hide EngineDrain, Drain, Harmless, Survivable, EngineWait, Carries, Ready, Watched;
    if !d.sound {
      DrainsToItself(d);
    } else if Survivable(e.w, batch) {
      forall answers ensures NoHarm(EngineDrain(d, answers)) {
        DrainCarries(d, answers);
        assert Harmless(Drain(w, answers));
      }
    } else {
      var answers :| !Harmless(Drain(w, answers));
      DrainCarries(d, answers);
      assert !NoHarm(EngineDrain(d, answers));
    }
  }

  lemma DrainsToItself(d: Engine)
    requires !d.sound
    ensures EngineDrain(d, []) == d && !NoHarm(EngineDrain(d, []))
  {
  }
}
