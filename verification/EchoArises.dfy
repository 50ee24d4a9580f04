/** Runs that leave the server serving, and how much its ring must hold then: for how
    many slaves no batch of one wait overruns the ring. */
module EchoArises {
  import opened EchoServer
  import opened EchoRuns
  import opened EchoBatches
  import opened EchoRing
  import RI = RingIndex
  import RB = RingBuffer
  import Words

  // ----------------------------------------------------------------- its steps

  /** Every call succeeds, and a whole line has been read. */
  const LINE := Answer(false, true, 1, false, 1, true, 0, false, 0)

  function Lines(n: nat): (answers: seq<Answer>)
    ensures |answers| == n && forall k :: 0 <= k < n ==> answers[k] == LINE
  {
    seq(n, _ => LINE)
  }

  /** Handling k messages leads from w to d, where none is left. */
  predicate Steps(w: World, k: nat, d: World)
    decreases k
  {
    if k == 0 then w == d && Settled(w)
    else w.queue != [] && w.status == Running && Steps(Step(w, LINE), k - 1, d)
  }

  /** The ring has then turned by k slots; every ring has an even number of them. */
  lemma {:induction false} StepsDrain(e: Engine, k: nat, d: World)
    requires Carries(e) && Steps(e.w, k, d)
    ensures var r := EngineDrain(e, Lines(k));
            && r.w == d && Carries(r) && r.sound == e.sound && r.ring.cap == e.ring.cap
            && r.ring.tail % 2 == (e.ring.tail + k) % 2
    decreases k
  {
    hide Step, EngineStep, Carries, EngineDrain;
    if k > 0 {
      assert Lines(k)[1..] == Lines(k - 1) && Lines(k)[0] == LINE;
      StepTurns(e);
      EngineDrainStep(e, Lines(k));
      StepsDrain(EngineStep(e, LINE), k - 1, d);
    } else {
      EngineDrained(e, Lines(k));
    }
  }

  lemma StepTurns(e: Engine)
    requires Carries(e) && e.w.queue != []
    ensures var d := EngineStep(e, LINE);
            && d.w == Step(e.w, LINE) && d.sound == e.sound && Carries(d)
            && d.ring.cap == e.ring.cap && d.ring.tail % 2 == (e.ring.tail + 1) % 2
  {
    StepCarries(e, LINE);
    EvenCap(e.ring);
    hide Step, EngineStep, RB.Wellformed;
  }

  lemma EvenCap(r: RI.Ring)
    requires RB.Wellformed(r)
    ensures r.cap % 2 == 0 && r.tail < r.cap
  {
    var k: nat :| r.cap == Words.Pow2(k);
    RI.Pow2Even(k);
  }

  /** The first drain, when j of n slaves have become idle. */
  function Starting(n: nat, j: nat): World
    requires j <= n
  {
    World(seq(n, i => if i < j then READY else Slave(Init, Closed, false)), Upto(n),
          Greetings(n)[j..] + [Message(Master, Code(0))], false, Running)
  }

  /** All calm, and j of n slaves wait for a line. */
  function Receiving(n: nat, j: nat): World
    requires j <= n
  {
    World(seq(n, i => if i < n - j then READY else RECEIVING), Upto(n - j), [], true, Running)
  }

  /** All slaves serve, and j of them send. */
  function Sending(n: nat, j: nat): World
    requires j <= n
  {
    World(seq(n, i => if i < j then SENDING else RECEIVING), [], [], true, Running)
  }

  lemma {:induction false} StartSteps(n: nat, j: nat)
    requires j <= n
    ensures Steps(Starting(n, j), n - j + 1, Receiving(n, 0))
    decreases n - j
  {
    if j < n {
      StartStep(n, j);
      StartSteps(n, j + 1);
    } else {
      LastStart(n);
      assert Steps(Step(Starting(n, n), LINE), 0, Receiving(n, 0));
    }
  }

  lemma StartStep(n: nat, j: nat)
    requires j < n
    ensures Step(Starting(n, j), LINE) == Starting(n, j + 1)
  {
    var w := Starting(n, j);
    assert w.queue[0] == Message(SlaveNo(j), Code(0));
    assert w.queue[1..] == Greetings(n)[j + 1..] + [Message(Master, Code(0))];
    assert w.slaves[j := READY] == Starting(n, j + 1).slaves;
  }

  lemma LastStart(n: nat)
    ensures Step(Starting(n, n), LINE) == Receiving(n, 0)
  {
    var w := Starting(n, n);
    assert w.queue == [Message(Master, Code(0))] && w.queue[1..] == [];
    assert w.slaves == Receiving(n, 0).slaves;
  }

  /** A client comes, and the slave on top of the pool accepts it. */
  lemma AcceptSteps(n: nat, j: nat)
    requires j < n
    ensures Steps(Receiving(n, j).(queue := [Message(Master, PollIn)]), 3, Receiving(n, j + 1))
  {
    var w, i := Receiving(n, j), n - j - 1;
    var w1 := w.(pool := Upto(i), queue := [Message(SlaveNo(i), Code(1))]);
    var w2 := w1.(slaves := w.slaves[i := Slave(Idle, Open(Unclaimed), false)],
                  queue := [Message(SlaveNo(i), Code(0))]);
    assert Upto(n - j) == Upto(i) + [i];
    assert [Message(Master, PollIn)][1..] == [] && [] + w1.queue == w1.queue;
    assert Step(w.(queue := [Message(Master, PollIn)]), LINE) == w1;
    LoneStep(w1, i, Code(1));
    assert Step(w1, LINE) == w2;
    LoneStep(w2, i, Code(0));
    assert w2.slaves[i := RECEIVING] == Receiving(n, j + 1).slaves;
    assert Step(w2, LINE) == Receiving(n, j + 1);
    hide Step;
    assert Steps(w2, 1, Receiving(n, j + 1)) && Steps(w1, 2, Receiving(n, j + 1));
  }

  lemma LoneStep(w: World, i: nat, e: Event)
    requires i < |w.slaves| && w.queue == [Message(SlaveNo(i), e)]
    ensures Step(w, LINE) == Apply(w.(queue := []), i, React(w.slaves[i], e, LINE))
  {
    assert w.queue[1..] == [];
  }

  /** The line of the client of slave j comes. */
  lemma LineSteps(n: nat, j: nat)
    requires j < n
    ensures Steps(Sending(n, j).(queue := [Message(SlaveNo(j), PollIn)]), 2, Sending(n, j + 1))
  {
    var w := Sending(n, j);
    var w0, w1 := w.(queue := [Message(SlaveNo(j), PollIn)]), w.(queue := [Message(SlaveNo(j), Code(0))]);
    LoneStep(w0, j, PollIn);
    assert w.slaves[j := RECEIVING] == w.slaves;
    assert Step(w0, LINE) == w1;
    LoneStep(w1, j, Code(0));
    assert w.slaves[j := SENDING] == Sending(n, j + 1).slaves;
    assert Step(w1, LINE) == Sending(n, j + 1);
    hide Step;
    assert Steps(w1, 1, Sending(n, j + 1));
  }

  // ------------------------------------------------------------------ the runs

  /** The server drained after k passes: n clients come, and then send a line each. */
  function Calm(n: nat, k: nat): World
    requires k <= 2 * n
  {
    if k <= n then Receiving(n, k) else Sending(n, k - n)
  }

  /** What the next wait brings. */
  function NextBatch(n: nat, k: nat): seq<Message> {
    if k < n then [Message(Master, PollIn)] else [Message(SlaveNo(if k < n then 0 else k - n), PollIn)]
  }

  /** How many messages the drain of that handles. */
  function Handled(n: nat, k: nat): nat {
    if k == 0 then n + 1 else if k <= n then 3 else 2
  }

  /** The world before drain k. */
  function Load(n: nat, k: nat): World
    requires k <= 2 * n
  {
    if k == 0 then Started(n, true) else Calm(n, k - 1).(queue := NextBatch(n, k - 1))
  }

  lemma LoadSteps(n: nat, k: nat)
    requires k <= 2 * n
    ensures Steps(Load(n, k), Handled(n, k), Calm(n, k))
  {
    hide Steps;
    if k == 0 {
      StartSteps(n, 0);
      assert Starting(n, 0) == Started(n, true);
    } else if k <= n {
      AcceptSteps(n, k - 1);
    } else {
      AllServe(n);
      LineSteps(n, k - n - 1);
    }
  }

  lemma AllServe(n: nat)
    ensures Receiving(n, n) == Sending(n, 0)
  {
    assert Upto(0) == [];
  }

  lemma NextIsSafe(n: nat, k: nat)
    requires k < 2 * n
    ensures BatchSafe(Calm(n, k), NextBatch(n, k))
  {
  }

  /** How many messages have been handled before drain k. */
  function Turned(n: nat, k: nat): nat {
    if k == 0 then 0 else Turned(n, k - 1) + Handled(n, k - 1)
  }

  lemma {:induction false} TurnedOdd(n: nat, k: nat)
    ensures Turned(n, k + 1) == n + 1 + if k <= n then 3 * k else n + 2 * k
  {
    if k > 0 {
      TurnedOdd(n, k - 1);
    }
  }

  ghost predicate Fit(e: Engine, n: nat, w: World, turned: nat) {
    && e.w == w && e.sound && Carries(e) && e.ring.cap == CapFor(n + 1)
    && e.ring.tail % 2 == turned % 2
  }

  lemma DrainFit(b: Engine, n: nat, k: nat)
    requires k <= 2 * n && Fit(b, n, Load(n, k), Turned(n, k))
    ensures Fit(EngineDrain(b, Lines(Handled(n, k))), n, Calm(n, k), Turned(n, k + 1))
  {
    hide Steps, EngineDrain, Carries, Load, Calm, CapFor, Lines, Handled;
    LoadSteps(n, k);
    assert Turned(n, k + 1) == Turned(n, k) + Handled(n, k);
    hide Turned;
    StepsDrain(b, Handled(n, k), Calm(n, k));
  }

  lemma WaitFit(e: Engine, n: nat, k: nat)
    requires k < 2 * n && Fit(e, n, Calm(n, k), Turned(n, k + 1))
    ensures Fit(EngineWait(e, NextBatch(n, k)), n, Load(n, k + 1), Turned(n, k + 1))
    ensures Taken(e, NextBatch(n, k))
  {
    NextIsSafe(n, k);
    EvenCap(e.ring);
    assert |NextBatch(n, k)| == 1 <= e.ring.cap;
    hide EngineWait, Carries, BatchSafe, NextBatch, CapFor;
    WaitCarries(e, NextBatch(n, k));
  }

  lemma FitSettles(e: Engine, n: nat, k: nat)
    requires k <= 2 * n && Fit(e, n, Calm(n, k), Turned(n, k + 1))
    ensures Settled(e.w)
  {
  }

  function Before(n: nat, k: nat): Engine
    requires k <= 2 * n
  {
    if k == 0 then EngineStart(n, true)
    else EngineWait(EngineDrain(Before(n, k - 1), Lines(Handled(n, k - 1))), NextBatch(n, k - 1))
  }

  lemma {:induction false} BeforeFit(n: nat, k: nat)
    requires k <= 2 * n && n < MAX_MESSAGES
    ensures Fit(Before(n, k), n, Load(n, k), Turned(n, k))
    ensures k > 0 ==> Passes(Before(n, k - 1), Turn(Lines(Handled(n, k - 1)), NextBatch(n, k - 1)), Before(n, k))
  {
    hide EngineStart, EngineWait, Carries, EngineDrain, NextBatch, CapFor, Taken, Handled, Lines, Calm;
    if k == 0 {
      StartCarries(n, true);
    } else {
      BeforeFit(n, k - 1);
      DrainFit(Before(n, k - 1), n, k - 1);
      WaitFit(EngineDrain(Before(n, k - 1), Lines(Handled(n, k - 1))), n, k - 1);
      FitSettles(EngineDrain(Before(n, k - 1), Lines(Handled(n, k - 1))), n, k - 1);
    }
  }

  lemma RunArises(n: nat, k: nat) returns (es: seq<Engine>, ts: seq<Turn>)
    requires k <= 2 * n && n < MAX_MESSAGES
    ensures IsRun(es, ts, n, true) && |es| == k + 1 && |ts| == k && es[k] == Before(n, k)
  {
    hide Passes, EngineDrain, EngineWait, EngineStart, Fit, Lines, Handled, NextBatch;
    es := seq(k + 1, i requires 0 <= i <= k => Before(n, i));
    ts := seq(k, i requires 0 <= i < k => Turn(Lines(Handled(n, i)), NextBatch(n, i)));
    forall i | 0 <= i < k ensures Passes(es[i], ts[i], es[i + 1]) {
      BeforeFit(n, i + 1);
    }
  }

  /** The engine e is a server with n slaves that has drained its queue in some run. */
  ghost predicate Reached(e: Engine, n: nat) {
    exists es, ts, answers :: IsRun(es, ts, n, true) && Settled(e.w) && e == EngineDrain(es[|ts|], answers)
  }

  /** A run leads to slaves that all receive or all send, and to a ring that does not start
      in slot 0. */
  lemma ServingArises(n: nat, s: Slave) returns (e: Engine)
    requires 0 < n < MAX_MESSAGES && Serving(s)
    ensures Reached(e, n) && Ready(e.w) && |e.w.slaves| == n && e.ring.tail != 0
    ensures forall i :: 0 <= i < n ==> e.w.slaves[i] == s
    ensures e.ring.cap == CapFor(n + 1)
  {
    hide EngineDrain, Before, IsRun, CapFor, Lines, Handled, Ready, Calm, Load, Turned, Carries;
    var k := if s == RECEIVING then n else 2 * n;
    e := EngineDrain(Before(n, k), Lines(Handled(n, k)));
    BeforeFit(n, k);
    DrainFit(Before(n, k), n, k);
    TurnedOdd(n, k);
    var es, ts := RunArises(n, k);
    CalmServes(n);
    assert IsRun(es, ts, n, true) && e == EngineDrain(es[|ts|], Lines(Handled(n, k)));
    AlwaysSafe(es, ts, n, true, k, Lines(Handled(n, k)));
  }

  lemma CalmServes(n: nat)
    requires n > 0
    ensures Settled(Calm(n, n)) && Settled(Calm(n, 2 * n))
    ensures |Calm(n, n).slaves| == n && forall i :: 0 <= i < n ==> Calm(n, n).slaves[i] == RECEIVING
    ensures |Calm(n, 2 * n).slaves| == n && forall i :: 0 <= i < n ==> Calm(n, 2 * n).slaves[i] == SENDING
  {
  }

  // ------------------------------------------------------- room for every batch

  /** An event of the k-th channel. */
  function EventOn(n: nat, k: nat): (m: Message)
    requires k < 2 * n + 5
    ensures Channel(n, m) == k
  {
    if k < n then Message(SlaveNo(k), PollErr)
    else if k < 2 * n then Message(SlaveNo(k - n), Tick(0))
    else if k == 2 * n then Message(Master, PollIn)
    else if k == 2 * n + 1 then Message(Master, Tick(0))
    else if k == 2 * n + 2 then Message(Master, Tick(3))
    else Message(Master, Sign(k - 2 * n - 3))
  }

  /** Every channel has an event. */
  function Storm(n: nat): seq<Message> {
    seq(2 * n + 5, k requires 0 <= k < 2 * n + 5 => EventOn(n, k))
  }

  /** Every channel but the slaves' timers has one. */
  function Crowd(n: nat): seq<Message> {
    seq(n + 5, k requires 0 <= k < n + 5 => EventOn(n, if k < n then k else n + k))
  }

  lemma StormIsSafe(w: World, n: nat)
    requires |w.slaves| == n && forall i :: 0 <= i < n ==> w.slaves[i] == SENDING
    ensures BatchSafe(w, Storm(n)) && |Storm(n)| == 2 * n + 5
  {
  }

  lemma CrowdIsOneEach(w: World, n: nat)
    requires |w.slaves| == n && forall i :: 0 <= i < n ==> w.slaves[i] == SENDING
    ensures OneEach(w, Crowd(n)) && |Crowd(n)| == n + 5
  {
    var b := Crowd(n);
    assert forall k :: 0 <= k < |b| ==>
        b[k] == EventOn(n, if k < n then k else n + k) && Channel(n, b[k]) == if k < n then k else n + k;
  }

  lemma ReachedSane(e: Engine, n: nat)
    requires Reached(e, n) && n < MAX_MESSAGES
    ensures e.sound && Carries(e) && |e.w.slaves| == n && e.ring.cap >= CapFor(n + 1) && Settled(e.w)
  {
    var es, ts, answers :| IsRun(es, ts, n, true) && Settled(e.w) && e == EngineDrain(es[|ts|], answers);
    RunSane(es, ts, n, true, |ts|);
    DrainSane(es[|ts|], n, true, answers);
  }

  /** How far the capacity is doubled. */
  lemma {:induction false} GrownTo(c: nat, m: nat, d: nat)
    requires RI.IsPow2(c) && RI.IsPow2(d) && 0 < c <= d && d / 2 < m <= d
    ensures RB.Grown(c, m) == d
    decreases d - c
  {
    var i: nat :| c == Words.Pow2(i);
    var j: nat :| d == Words.Pow2(j);
    if c < d {
      Pow2Gap(i, j);
      RB.DoublePow2(c);
      GrownTo(2 * c, m, d);
    }
  }

  lemma {:induction false} Pow2Gap(i: nat, j: nat)
    requires Words.Pow2(i) < Words.Pow2(j)
    ensures 2 * Words.Pow2(i) <= Words.Pow2(j) && Words.Pow2(j) % 2 == 0
  {
    if i > 0 {
      Pow2Gap(i - 1, j - 1);
    }
  }

  lemma {:induction false} GrownIsPow2(c: nat, m: nat)
    requires RI.IsPow2(c) && c > 0
    ensures RI.IsPow2(RB.Grown(c, m))
    decreases m - c
  {
    if m > c {
      RB.DoublePow2(c);
      GrownIsPow2(2 * c, m);
    }
  }

  /** One of the four numbers below a power of two, from 128 on. */
  ghost predicate JustBelow(n: nat) {
    exists c: nat :: RI.IsPow2(c) && c >= 128 && c - 4 <= n < c
  }

  /** The ring of 128 slots doubles until it holds the messages of the start. */
  lemma CapIs(n: nat)
    ensures CapFor(n + 1) < 2 * n + 5 <==> n > 61
    ensures CapFor(n + 1) < n + 5 <==> JustBelow(n)
  {
    var d := CapFor(n + 1);
    RB.GrownStep(QUEUE_SIZE, n + 1);
    assert Words.Pow2(7) == QUEUE_SIZE;
    GrownIsPow2(QUEUE_SIZE, n + 1);
    hide RI.IsPow2, RB.Grown;
    if c: nat :| RI.IsPow2(c) && c >= 128 && c - 4 <= n < c {
      GrownTo(QUEUE_SIZE, n + 1, c);
    }
  }

  /** Every safe batch of every run fits the ring if and only if there are at most 61
      slaves. */
  lemma SafeBatchesFit(n: nat)
    requires n < MAX_MESSAGES
    ensures (forall e, batch :: Reached(e, n) && BatchSafe(e.w, batch) ==> EngineWait(e, batch).sound) <==> n <= 61
  {
    CapIs(n);
    hide EngineWait, Reached, CapFor, Carries, RI.IsPow2;
    if n <= 61 {
      forall e, batch | Reached(e, n) && BatchSafe(e.w, batch) ensures EngineWait(e, batch).sound {
        ReachedSane(e, n);
        WatchedIsShort(e.w, batch);
        WaitCarries(e, batch);
      }
    } else {
      var e := ServingArises(n, SENDING);
      ReachedSane(e, n);
      StormIsSafe(e.w, n);
      WaitCarries(e, Storm(n));
    }
  }

  /** With one event for each slave they do if and only if the number of slaves is not
      one of the four below a power of two from 128 on. */
  lemma OneEachFits(n: nat)
    requires n < MAX_MESSAGES
    ensures (forall e, batch :: Reached(e, n) && OneEach(e.w, batch) ==> EngineWait(e, batch).sound) <==>
            !JustBelow(n)
  {
    CapIs(n);
    hide EngineWait, Reached, CapFor, Carries, RI.IsPow2;
    if CapFor(n + 1) >= n + 5 {
      forall e, batch | Reached(e, n) && OneEach(e.w, batch) ensures EngineWait(e, batch).sound {
        ReachedSane(e, n);
        BatchIsShort(e.w, batch);
        WaitCarries(e, batch);
      }
    } else {
      var e := ServingArises(n, SENDING);
      ReachedSane(e, n);
      CrowdIsOneEach(e.w, n);
      WaitCarries(e, Crowd(n));
    }
  }
}
