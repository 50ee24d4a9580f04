/** Draining the echo server's queue ends, and whenever it has ended the pool holds
    exactly the idle slaves; what a wait may bring, and how the server starts. */
module EchoRuns {
  import opened EchoServer

  // ------------------------------------------------------------------- draining

  /** What handling a message can still cause. */
  function MessageWeight(m: Message): nat {
    match m.event
    case Code(c) => if m.who.Master? then 1 else if c == 1 then 3 else if c == 3 then 2 else 1
    case _ => 4
  }

  function Weight(q: seq<Message>): nat {
    if q == [] then 0 else MessageWeight(q[0]) + Weight(q[1..])
  }

  lemma {:induction false} WeightAppend(q: seq<Message>, m: Message)
    ensures Weight(q + [m]) == Weight(q) + MessageWeight(m)
    decreases |q|
  {
    if q == [] {
      assert q + [m] == [m] && [m][1..] == [];
    } else {
      assert (q + [m])[1..] == q[1..] + [m] && (q + [m])[0] == q[0];
      WeightAppend(q[1..], m);
    }
  }

  lemma {:induction false} WeightBound(q: seq<Message>)
    ensures |q| <= Weight(q) <= 4 * |q|
    decreases |q|
  {
    if q != [] {
      WeightBound(q[1..]);
    }
  }

  /** Every dispatch takes weight off the queue and never lengthens it. */
  lemma StepShrinks(w: World, a: Answer)
    requires w.queue != []
    ensures |Step(w, a).queue| <= |w.queue|
    ensures Step(w, a).status == Running ==> Weight(Step(w, a).queue) < Weight(w.queue)
  {
    var m := w.queue[0];
    var rest := w.queue[1..];
    assert Weight(w.queue) == MessageWeight(m) + Weight(rest);
    match m.who
    case Master =>
      WeightAppend(rest, Message(Master, Code(3)));
      if w.pool != [] {
        WeightAppend(rest, Message(SlaveNo(w.pool[|w.pool| - 1]), Code(1)));
      }
    case SlaveNo(i) =>
      if i < |w.slaves| {
        var r := React(w.slaves[i], m.event, a);
        ReactShrinks(w.slaves[i], i, m.event, a);
        hide React;
        if r.out.Some? {
          WeightAppend(rest, Message(SlaveNo(i), Code(r.out.value)));
        }
      }
  }

  lemma ReactShrinks(s: Slave, i: nat, e: Event, a: Answer)
    ensures var r := React(s, e, a);
            r.status == Running && r.out.Some? ==>
              MessageWeight(Message(SlaveNo(i), Code(r.out.value))) < MessageWeight(Message(SlaveNo(i), e))
  {
  }

  /** esma_engine_exec, with one answer of the system for each message. */
  function Drain(w: World, answers: seq<Answer>): World
    decreases |answers|
  {
    if answers == [] || w.queue == [] || w.status != Running then w
    else Drain(Step(w, answers[0]), answers[1..])
  }

  /** From any state of the server, at every moment of draining: no machine gets a
      code it has not declared, and the queue is never longer than at the start.
      Draining ends after at most Weight messages. */
  lemma {:induction false} DrainKeeps(w: World, answers: seq<Answer>)
    requires Inv(w)
    ensures var d := Drain(w, answers);
            && d.status != Crashed && (d.status == Running ==> Inv(d))
            && |d.slaves| == |w.slaves| && |d.queue| <= |w.queue|
            && (|answers| >= Weight(w.queue) ==> d.queue == [] || d.status == Stopped)
    decreases |answers|
  {
    assert w.status == Running;
    hide Inv, Step;
    if answers == [] {
      WeightBound(w.queue);
    } else if w.queue != [] && w.status == Running {
      StepKeepsInv(w, answers[0]);
      StepShrinks(w, answers[0]);
      if Step(w, answers[0]).status == Running {
        DrainKeeps(Step(w, answers[0]), answers[1..]);
      }
    }
  }

  lemma {:induction false} DrainSnoc(w: World, answers: seq<Answer>, a: Answer)
    ensures var d := Drain(w, answers);
            Drain(w, answers + [a]) == if d.queue == [] || d.status != Running then d else Step(d, a)
    decreases |answers|
  {
    hide Step;
    if answers == [] {
      assert [] + [a] == [a] && [a][1..] == [];
      if w.queue != [] && w.status == Running {
        assert Drain(Step(w, a), []) == Step(w, a);
      }
    } else {
      assert (answers + [a])[1..] == answers[1..] + [a];
      if w.queue != [] && w.status == Running {
        DrainSnoc(Step(w, answers[0]), answers[1..], a);
      }
    }
  }

  lemma DrainStep(w: World, answers: seq<Answer>)
    requires answers != [] && w.queue != [] && w.status == Running
    ensures Drain(w, answers) == Drain(Step(w, answers[0]), answers[1..])
  {
  }

  lemma DrainedStays(w: World, answers: seq<Answer>)
    requires w.queue == [] || w.status != Running
    ensures Drain(w, answers) == w
  {
  }

  lemma InvRuns(w: World)
    requires Inv(w)
    ensures w.status == Running
  {
  }

  // ----------------------------------------------------------- drained states

  function Places(w: World, i: nat): nat {
    multiset(w.pool)[i]
  }

  /** The queue is empty: a slave is idle exactly if it has no client, exactly if
      it is in the pool, and then once; any other is serving a client. */
  ghost predicate Ready(w: World) {
    && w.status == Running && w.queue == [] && w.working
    && (forall i :: 0 <= i < |w.slaves| ==>
          && (Places(w, i) == 1 <==> w.slaves[i].state == Idle)
          && (Places(w, i) == 1 <==> w.slaves[i].io == Closed)
          && Places(w, i) <= 1 && (Places(w, i) == 1 ==> w.slaves[i] == READY)
          && (Places(w, i) == 0 <==> Serving(w.slaves[i]))
          && (Serving(w.slaves[i]) <==> w.slaves[i].state in {Recv, Send}))
    && (forall i :: i in w.pool ==> i < |w.slaves|)
    && |w.pool| <= |w.slaves|
  }

  lemma DrainedIsReady(w: World)
    requires Inv(w) && w.queue == []
    ensures Ready(w)
  {
    forall i | 0 <= i < |w.slaves|
      ensures Places(w, i) == if w.slaves[i].state == Idle then 1 else 0
      ensures AtRest(w.slaves[i])
    {
      assert SlaveOk(w.slaves[i], multiset(w.pool)[i], []);
    }
    OncePooled(w);
  }

  lemma OncePooled(w: World)
    requires forall i :: 0 <= i < |w.slaves| ==> Places(w, i) <= 1
    requires forall i :: i in w.pool ==> i < |w.slaves|
    ensures |w.pool| <= |w.slaves|
  {
    forall j, k | 0 <= j < k < |w.pool| ensures w.pool[j] != w.pool[k] {
      assert w.pool[j] in w.pool && Places(w, w.pool[j]) <= 1;
      if w.pool[j] == w.pool[k] {
        PlacedTwice(w.pool, j, k);
      }
    }
    assert forall i :: 0 <= i < |w.pool| ==> w.pool[i] in w.pool;
    Pigeonhole(w.pool, |w.slaves|);
  }

  lemma PoolFits(w: World)
    requires Inv(w)
    ensures |w.pool| <= |w.slaves|
  {
    forall i | 0 <= i < |w.slaves| ensures Places(w, i) <= 1 {
      assert SlaveOk(w.slaves[i], multiset(w.pool)[i], Pending(w.queue, SlaveNo(i)));
    }
    OncePooled(w);
  }

  /** No step puts more slaves into the pool than there are. */
  lemma PoolNeverGrows(w: World, a: Answer)
    requires Inv(w) && w.queue != []
    ensures |Step(w, a).pool| <= |w.slaves|
  {
    PoolFits(w);
    StepKeepsInv(w, a);
    hide Inv;
    if Step(w, a).status == Running {
      PoolFits(Step(w, a));
    } else {
      StoppedPool(w, a);
    }
  }

  lemma StoppedPool(w: World, a: Answer)
    requires w.queue != [] && Step(w, a).status != Running
    ensures |Step(w, a).pool| <= |w.pool|
  {
    if w.queue[0].who.SlaveNo? && w.queue[0].who.i < |w.slaves| {
      var s, e := w.slaves[w.queue[0].who.i], w.queue[0].event;
      assert React(s, e, a).status != Running ==> !React(s, e, a).pooled;
      hide React;
    }
  }

  lemma PlacedTwice(s: seq<nat>, j: nat, k: nat)
    requires j < k < |s| && s[j] == s[k]
    ensures multiset(s)[s[j]] >= 2
  {
    assert s == s[..k] + [s[k]] + s[k + 1..];
    assert s[j] in s[..k];
    assert multiset(s) == multiset(s[..k]) + multiset{s[k]} + multiset(s[k + 1..]);
  }

  /** Distinct numbers below n are at most n many. */
  lemma {:induction false} Pigeonhole(s: seq<nat>, n: nat)
    requires forall i :: 0 <= i < |s| ==> s[i] < n
    requires forall i, j :: 0 <= i < j < |s| ==> s[i] != s[j]
    ensures |s| <= n
    decreases n
  {
    assert s != [] ==> s[0] < n;
    if s == [] {
    } else if exists i :: 0 <= i < |s| && s[i] == n - 1 {
      var i :| 0 <= i < |s| && s[i] == n - 1;
      Pigeonhole(s[..i] + s[i + 1..], n - 1);
    } else {
      Pigeonhole(s, n - 1);
    }
  }

  // ------------------------------------------------------------------ waiting

  /** The channels that may report at once: each slave's IO channel and the timer of its
      state, the master's listening socket, two timers and two signals. */
  function Channel(n: nat, m: Message): (c: nat)
    ensures m.who.SlaveNo? && m.who.i < n ==> c < 2 * n
    ensures m.who.Master? ==> 2 * n <= c < 2 * n + 5
  {
    match m.who
    case SlaveNo(i) => if m.event.Tick? then n + i else i
    case Master =>
      match m.event
      case Tick(k) => if k == 0 then 2 * n + 1 else 2 * n + 2
      case Sign(k) => if k == 0 then 2 * n + 3 else 2 * n + 4
      case _ => 2 * n
  }

  /** What one wait may bring: events that are watched for, one for each channel. */
  predicate Watched(w: World, batch: seq<Message>) {
    && (forall k :: 0 <= k < |batch| ==>
          match batch[k].who
          case Master => MasterEvent(batch[k].event)
          case SlaveNo(i) => i < |w.slaves| && Reportable(w.slaves[i], batch[k].event))
    && forall j, k :: 0 <= j < k < |batch| ==> Channel(|w.slaves|, batch[j]) != Channel(|w.slaves|, batch[k])
  }

  /** No slave gets two events, except a pair that it survives: a timeout together
      with an error or hang-up while it sends. */
  predicate BatchSafe(w: World, batch: seq<Message>) {
    && Watched(w, batch)
    && forall j, k :: 0 <= j < k < |batch| && batch[j].who == batch[k].who && batch[j].who.SlaveNo? ==>
         w.slaves[batch[j].who.i] == SENDING && Compatible(batch[j].event, batch[k].event)
  }

  /** No slave gets two events. */
  predicate OneEach(w: World, batch: seq<Message>) {
    && Watched(w, batch)
    && forall j, k :: 0 <= j < k < |batch| && batch[j].who.SlaveNo? ==> batch[j].who != batch[k].who
  }

  lemma WatchedIsShort(w: World, batch: seq<Message>)
    requires Watched(w, batch)
    ensures |batch| <= 2 * |w.slaves| + 5
  {
    var n := |w.slaves|;
    Pigeonhole(seq(|batch|, k requires 0 <= k < |batch| => Channel(n, batch[k])), 2 * n + 5);
  }

  /** The channels of a batch, with a slave's two taken as one. */
  function Party(n: nat, m: Message): nat {
    match m.who
    case SlaveNo(i) => i
    case Master => Channel(n, m) - n
  }

  lemma BatchIsShort(w: World, batch: seq<Message>)
    requires OneEach(w, batch)
    ensures |batch| <= |w.slaves| + 5
  {
    var n := |w.slaves|;
    forall j, k | 0 <= j < k < |batch| ensures Party(n, batch[j]) != Party(n, batch[k]) {
      assert Channel(n, batch[j]) != Channel(n, batch[k]);
    }
    Pigeonhole(seq(|batch|, k requires 0 <= k < |batch| => Party(n, batch[k])), n + 5);
  }

  lemma {:induction false} PendingFrom(q: seq<Message>, who: Who)
    ensures forall k :: 0 <= k < |Pending(q, who)| ==> Message(who, Pending(q, who)[k]) in q
    decreases |q|
  {
    if q != [] {
      PendingFrom(q[1..], who);
      assert q[0] == Message(q[0].who, q[0].event);
    }
  }

  /** Where two waiting events stand in the queue, in the same order. */
  lemma {:induction false} PendingPair(q: seq<Message>, who: Who, a: nat, b: nat) returns (j: nat, k: nat)
    requires a < b < |Pending(q, who)|
    ensures j < k < |q| && q[j] == Message(who, Pending(q, who)[a]) && q[k] == Message(who, Pending(q, who)[b])
    decreases |q|
  {
    var own := if q[0].who == who then 1 else 0;
    if a < own {
      PendingFrom(q[1..], who);
      j := 0;
      k :| 0 < k < |q| && q[k] == Message(who, Pending(q[1..], who)[b - own]);
    } else {
      j, k := PendingPair(q[1..], who, a - own, b - own);
      j, k := j + 1, k + 1;
    }
  }

  lemma WaitKeepsInv(w: World, batch: seq<Message>)
    requires Inv(w) && w.queue == [] && BatchSafe(w, batch)
    ensures Inv(w.(queue := batch))
  {
    DrainedIsReady(w);
    PendingFrom(batch, Master);
    forall i | 0 <= i < |w.slaves|
      ensures SlaveOk(w.slaves[i], multiset(w.pool)[i], Pending(batch, SlaveNo(i)))
    {
      assert SlaveOk(w.slaves[i], multiset(w.pool)[i], []);
      SlaveBatchOk(w, batch, i);
    }
  }

  lemma AtMostTwo(w: World, batch: seq<Message>, i: nat)
    requires BatchSafe(w, batch)
    ensures |Pending(batch, SlaveNo(i))| <= 2
  {
    if |Pending(batch, SlaveNo(i))| >= 3 {
      var j, k := PendingPair(batch, SlaveNo(i), 0, 1);
      var j', k' := PendingPair(batch, SlaveNo(i), 0, 2);
      var j'', k'' := PendingPair(batch, SlaveNo(i), 1, 2);
    }
  }

  lemma SlaveBatchOk(w: World, batch: seq<Message>, i: nat)
    requires BatchSafe(w, batch) && i < |w.slaves|
    requires SlaveOk(w.slaves[i], multiset(w.pool)[i], [])
    ensures SlaveOk(w.slaves[i], multiset(w.pool)[i], Pending(batch, SlaveNo(i)))
  {
    var q := Pending(batch, SlaveNo(i));
    PendingFrom(batch, SlaveNo(i));
    if |q| >= 1 {
      var k :| 0 <= k < |batch| && batch[k] == Message(SlaveNo(i), q[0]);
      assert Reportable(w.slaves[i], q[0]);
    }
    if |q| >= 2 {
      var j, k := PendingPair(batch, SlaveNo(i), 0, 1);
      assert w.slaves[i] == SENDING && Compatible(q[0], q[1]);
      assert Reportable(w.slaves[i], q[1]);
    }
    AtMostTwo(w, batch, i);
    if |q| == 1 {
      assert q == [q[0]];
    }
  }

  // ------------------------------------------------------------------ start-up

  function Upto(n: nat): (s: seq<nat>)
    ensures |s| == n && forall i :: 0 <= i < n ==> s[i] == i
  {
    seq(n, i => i)
  }

  /** The first message of each slave, to itself. */
  function Greetings(n: nat): (q: seq<Message>)
    ensures |q| == n && forall i :: 0 <= i < n ==> q[i] == Message(SlaveNo(i), Code(0))
  {
    seq(n, i requires 0 <= i < n => Message(SlaveNo(i), Code(0)))
  }

  /** The server after esma_machine_run(master): with its slaves, each started and
      in the pool, or without any if its socket could not be listening. */
  function Started(n: nat, listening: bool): World {
    if listening then
      World(seq(n, i => Slave(Init, Closed, false)), Upto(n),
            Greetings(n) + [Message(Master, Code(0))], false, Running)
    else
      World([], [], [Message(Master, Code(3))], false, Running)
  }

  lemma {:induction false} StartPending(n: nat, i: nat)
    ensures Pending(Greetings(n), SlaveNo(i)) == if i < n then [Code(0)] else []
    ensures Pending(Greetings(n), Master) == []
  {
    if n > 0 {
      StartPending(n - 1, i);
      var q := Greetings(n - 1);
      assert Greetings(n) == q + [Message(SlaveNo(n - 1), Code(0))];
      PendingAppend(q, Message(SlaveNo(n - 1), Code(0)), SlaveNo(i));
      PendingAppend(q, Message(SlaveNo(n - 1), Code(0)), Master);
    }
  }

  lemma {:induction false} CountUpTo(n: nat, i: nat)
    ensures multiset(Upto(n))[i] == if i < n then 1 else 0
  {
    if n > 0 {
      CountUpTo(n - 1, i);
      assert Upto(n) == Upto(n - 1) + [n - 1];
    } else {
      assert Upto(0) == [];
    }
  }

  lemma StartIsOk(n: nat, listening: bool)
    ensures Inv(Started(n, listening))
  {
    var w := Started(n, listening);
    if listening {
      var q := Greetings(n);
      StartPending(n, 0);
      PendingAppend(q, Message(Master, Code(0)), Master);
      forall i | 0 <= i < n ensures SlaveOk(w.slaves[i], multiset(w.pool)[i], Pending(w.queue, SlaveNo(i))) {
        StartPending(n, i);
        PendingAppend(q, Message(Master, Code(0)), SlaveNo(i));
        CountUpTo(n, i);
      }
    }
  }

  /** Without a listening socket the first message ends the program. */
  lemma NoSocketStops(n: nat, a: Answer)
    ensures var w := Started(n, false);
            |w.queue| == 1 && Step(w, a).status == Stopped && Step(w, a).queue == []
  {
  }
}
