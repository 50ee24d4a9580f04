/** Two events that one wait reports for the same slave: what they come to, in either
    order, and exactly which batches are safe. */
module EchoPairs {
  import opened Wrappers
  import opened EchoServer
  import opened EchoRuns
  import opened EchoClients

  predicate NoFaults(answers: seq<Answer>, n: nat) {
    |answers| >= n && forall k :: 0 <= k < n ==> !answers[k].fault
  }

  predicate IoEvent(e: Event) {
    e.PollIn? || e.PollOut? || e.PollErr? || e.PollHup?
  }

  function Pair(i: nat, e: Event, f: Event): seq<Message> {
    [Message(SlaveNo(i), e), Message(SlaveNo(i), f)]
  }

  /** The slave after leaving `done` by the first of two codes 0: it receives, but
      from no client. */
  const MISPLACED := Slave(Recv, Closed, true)

  /** The world in which slave i has become s, having gone through `done` once. */
  function Pooled(w: World, i: nat, s: Slave): World
    requires i < |w.slaves|
  {
    w.(slaves := w.slaves[i := s], pool := w.pool + [i], queue := [])
  }

  // ------------------------------------------------------------- single steps

  function Sent(i: nat, out: Option<nat>): seq<Message> {
    match out case None => [] case Some(c) => [Message(SlaveNo(i), Code(c))]
  }

  /** One message of slave i, in front of others. */
  lemma FrontMessage(w: World, i: nat, e: Event, rest: seq<Message>, answers: seq<Answer>)
    requires i < |w.slaves| && w.queue == [Message(SlaveNo(i), e)] + rest && w.status == Running && answers != []
    ensures var r := React(w.slaves[i], e, answers[0]);
            Drain(w, answers) ==
            Drain(w.(slaves := w.slaves[i := r.slave], pool := if r.pooled then w.pool + [i] else w.pool,
                     status := r.status, queue := rest + Sent(i, r.out)), answers[1..])
  {
    DrainStep(w, answers);
    hide React, Drain;
    assert w.queue[1..] == rest;
    assert rest + [] == rest;
  }

  /** A serving slave with two codes of its own ahead. */
  lemma TwoCodes(w: World, i: nat, c: nat, d: nat, answers: seq<Answer>)
    requires w.status == Running && i < |w.slaves|
    requires w.slaves[i].state in {Recv, Send} && w.slaves[i].io.Open?
    requires w.queue == Pair(i, Code(c), Code(d)) && NoFaults(answers, 3)
    requires (c, d) in {(1, 1), (0, 1), (1, 0)}
    ensures (c, d) == (1, 1) ==> Drain(w, answers).status == Crashed
    ensures (c, d) == (0, 1) ==> Drain(w, answers) == Pooled(w, i, READY)
    ensures (c, d) == (1, 0) ==> Drain(w, answers) == Pooled(w, i, MISPLACED)
  {
    var q := Message(SlaveNo(i), Code(d));
    FrontMessage(w, i, Code(c), [q], answers);
    FirstCode(w.slaves[i], answers[0]);
    hide React, Drain;
    if c == 0 {
      var t := React(w.slaves[i], Code(0), answers[0]).slave;
      assert [q] + [] == [q];
      Returns(w.(slaves := w.slaves[i := t], queue := [q]), i, answers[1..]);
    } else {
      var done := Slave(Done, Closed, false);
      DoneThen(w.(slaves := w.slaves[i := done], pool := w.pool + [i], queue := Pair(i, Code(d), Code(0))), i, d,
               answers[1..]);
    }
  }

  lemma FirstCode(s: Slave, a: Answer)
    requires s.state in {Recv, Send} && s.io.Open? && !a.fault
    ensures React(s, Code(0), a) == Effect(if s.state == Recv then SENDING else RECEIVING, false, None, Running)
    ensures React(s, Code(1), a) == Effect(Slave(Done, Closed, false), true, Some(0), Running)
  {
  }

  lemma DoneThen(w: World, i: nat, d: nat, answers: seq<Answer>)
    requires w.status == Running && i < |w.slaves| && w.slaves[i] == Slave(Done, Closed, false)
    requires w.queue == Pair(i, Code(d), Code(0)) && NoFaults(answers, 2) && d <= 1
    ensures d == 1 ==> Drain(w, answers).status == Crashed
    ensures d == 0 ==> Drain(w, answers) == w.(slaves := w.slaves[i := MISPLACED], queue := [])
  {
    var q := Message(SlaveNo(i), Code(0));
    FrontMessage(w, i, Code(d), [q], answers);
    var r := React(w.slaves[i], Code(d), answers[0]);
    if d == 1 {
      assert r.status == Crashed;
      hide React, Drain;
      DrainedStays(w.(slaves := w.slaves[i := r.slave], pool := if r.pooled then w.pool + [i] else w.pool,
                      status := r.status, queue := [q] + Sent(i, r.out)), answers[1..]);
    } else {
      var w1 := w.(slaves := w.slaves[i := READY], queue := [q]);
      assert r == Effect(READY, false, None, Running) && [q] + [] == [q];
      assert React(READY, Code(0), answers[1]) == Effect(MISPLACED, false, None, Running);
      hide React, Drain;
      LoneMessage(w1, i, Code(0), answers[1..]);
      DrainedStays(w.(slaves := w.slaves[i := MISPLACED], queue := []), answers[1..][1..]);
    }
  }

  // ---------------------------------------------------------------- two events

  /** The codes that the two events make the slave send: what comes of them. */
  lemma CodesSettle(w: World, i: nat, s: Slave, out: Option<nat>, out': Option<nat>, answers: seq<Answer>)
    requires w.status == Running && i < |w.slaves| && Serving(w.slaves[i])
    requires s.state == w.slaves[i].state && s.io.Open? && NoFaults(answers, 3)
    requires out == Some(1) || out' == Some(1)
    requires out in {None, Some(0), Some(1)} && out' in {None, Some(0), Some(1)}
    requires out == None || out' == None ==> s == w.slaves[i]
    ensures var d := Drain(w.(slaves := w.slaves[i := s], queue := Sent(i, out) + Sent(i, out')), answers);
            if out == Some(1) && out' == Some(1) then d.status == Crashed
            else d == Pooled(w, i, if out == Some(1) && out' == Some(0) then MISPLACED else READY)
  {
    var w1 := w.(slaves := w.slaves[i := s], queue := Sent(i, out) + Sent(i, out'));
    if out == None || out' == None {
      assert w1.queue == [Message(SlaveNo(i), Code(1))];
      assert w.slaves[i := s] == w.slaves;
      Returns(w1, i, answers);
    } else {
      assert w1.queue == Pair(i, Code(out.value), Code(out'.value));
      TwoCodes(w1, i, out.value, out'.value, answers);
    }
  }

  /** The two events of a pair, the timeout first or second. */
  function Both(i: nat, e: Event, timeoutFirst: bool): seq<Message> {
    if timeoutFirst then Pair(i, Tick(0), e) else Pair(i, e, Tick(0))
  }

  /** Whether the IO event's answer spoils the pair. After a timeout it must not make
      the slave send anything; before one, not code 1. */
  predicate Spoiled(s: Slave, e: Event, timeoutFirst: bool, answers: seq<Answer>)
    requires |answers| >= 2
  {
    if timeoutFirst then Gone(s, e, answers[1]) || TurnEnds(s, e, answers[1]) else Gone(s, e, answers[0])
  }

  /** Two events in one wait come down to the two codes they make the slave send. */
  lemma TwoEvents(w: World, i: nat, e: Event, f: Event, answers: seq<Answer>)
    requires w.status == Running && w.queue == [] && i < |w.slaves| && Serving(w.slaves[i])
    requires Reportable(w.slaves[i], e) && !e.NoPoll? && Reportable(w.slaves[i], f) && !f.NoPoll?
    requires e.Tick? || f.Tick?
    requires NoFaults(answers, 5)
    ensures var d := Drain(w.(queue := Pair(i, e, f)), answers);
            var out, out' := Sends(w.slaves[i], e, answers[0]), Sends(w.slaves[i], f, answers[1]);
            if out == Some(1) && out' == Some(1) then d.status == Crashed
            else d == Pooled(w, i, if out == Some(1) && out' == Some(0) then MISPLACED else READY)
  {
    var s := w.slaves[i];
    var r := React(s, e, answers[0]);
    var r' := React(r.slave, f, answers[1]);
    EventSends(s, s, e, answers[0]);
    EventSends(s, r.slave, f, answers[1]);
    TimeoutSends(s, answers[0]);
    TimeoutSends(s, answers[1]);
    var q := Message(SlaveNo(i), f);
    var w0 := w.(queue := Pair(i, e, f));
    var w1 := w.(slaves := w.slaves[i := r.slave], queue := [q] + Sent(i, r.out));
    var w2 := w.(slaves := w.slaves[i := r'.slave], queue := Sent(i, r.out) + Sent(i, r'.out));
    assert w0.queue == [Message(SlaveNo(i), e)] + [q];
    hide React, Drain, Gone, TurnEnds, Reportable;
    FrontMessage(w0, i, e, [q], answers);
    FrontMessage(w1, i, f, Sent(i, r.out), answers[1..]);
    assert w1.slaves[i := r'.slave] == w2.slaves;
    CodesSettle(w, i, r'.slave, r.out, r'.out, answers[1..][1..]);
  }

  lemma TimeoutSends(s: Slave, a: Answer)
    ensures forall e: Event :: e.Tick? ==> Sends(s, e, a) == Some(1)
  {
  }

  /** A slave that has come back is where it belongs; a misplaced one is not. */
  lemma PooledReady(w: World, i: nat)
    requires Ready(w) && i < |w.slaves| && Serving(w.slaves[i])
    ensures Ready(Pooled(w, i, READY)) && !Ready(Pooled(w, i, MISPLACED))
  {
    PooledOnce(w, i);
    var d := Pooled(w, i, READY);
    assert forall x :: x in d.pool ==> x in w.pool || x == i;
    assert forall j :: 0 <= j < |w.slaves| ==> Places(d, j) == if i == j then 1 else Places(w, j);
    OncePooled(d);
    assert Places(Pooled(w, i, MISPLACED), i) == Places(d, i) == 1;
    hide Places;
  }

  lemma PooledOnce(w: World, i: nat)
    requires Ready(w) && i < |w.slaves| && Serving(w.slaves[i])
    ensures forall j :: 0 <= j < |w.slaves| ==>
              Places(Pooled(w, i, READY), j) == if i == j then 1 else Places(w, j)
  {
    forall j | 0 <= j < |w.slaves|
      ensures Places(Pooled(w, i, READY), j) == if i == j then 1 else Places(w, j)
    {
      PoolCount(w.pool, i, j);
    }
  }

  /** A timeout and an event of the IO channel in one wait, in either order, for all
      answers: the drained server is ready if and only if the pair is not spoiled. A
      spoiled pair ends in a code that `done` does not declare or, when the line was
      completed after the timeout, with the slave in `recv` and in the pool. */
  lemma PairSettles(w: World, i: nat, e: Event, timeoutFirst: bool, answers: seq<Answer>)
    requires Ready(w) && i < |w.slaves| && Serving(w.slaves[i])
    requires IoEvent(e) && Reportable(w.slaves[i], e) && NoFaults(answers, 5)
    ensures var d := Drain(w.(queue := Both(i, e, timeoutFirst)), answers);
            var s := w.slaves[i];
            && (Ready(d) <==> !Spoiled(s, e, timeoutFirst, answers))
            && (d == Pooled(w, i, READY) <==> !Spoiled(s, e, timeoutFirst, answers))
            && (d.status == Crashed <==> Gone(s, e, answers[if timeoutFirst then 1 else 0]))
            && (d == Pooled(w, i, MISPLACED) <==> timeoutFirst && TurnEnds(s, e, answers[1]))
  {
    var s := w.slaves[i];
    PooledReady(w, i);
    TimeoutSends(s, answers[0]);
    TimeoutSends(s, answers[1]);
    assert !(TurnEnds(s, e, answers[1]) && Gone(s, e, answers[1]));
    assert Reportable(s, Tick(0));
    hide Ready, Reportable, Drain, Gone, TurnEnds;
    if timeoutFirst {
      TwoEvents(w, i, Tick(0), e, answers);
    } else {
      TwoEvents(w, i, e, Tick(0), answers);
    }
    CrashIsNotReady(Drain(w.(queue := Both(i, e, timeoutFirst)), answers));
    assert Pooled(w, i, READY).slaves[i] == READY && Pooled(w, i, MISPLACED).slaves[i] == MISPLACED;
  }

  lemma CrashIsNotReady(d: World)
    ensures Ready(d) ==> d.status == Running
  {
  }
}
