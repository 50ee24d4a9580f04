/** What one event of a client, and one new client, come to once the queue has been
    drained. */
module EchoClients {
  import opened Wrappers
  import opened EchoServer
  import opened EchoRuns

  /** The client is gone: a timeout, an error while receiving, a closed or failing
      connection. */
  predicate Gone(s: Slave, e: Event, a: Answer) {
    || e.Tick?
    || (s.state == Recv && (e.PollErr? || e.PollHup?))
    || (s.state == Recv && e.PollIn? && (a.available == 0 || a.expandFails))
    || (s.state == Send && e.PollOut? && a.written < 0 && !a.interrupted)
  }

  /** The client's line has been read, or been sent back. */
  predicate TurnEnds(s: Slave, e: Event, a: Answer) {
    || (s.state == Recv && e.PollIn? && !Gone(s, e, a) && a.read == a.available && a.lastIsNewline)
    || (s.state == Send && e.PollOut? && a.written >= 0 && a.written == a.left)
  }

  /** The code that an event makes a serving slave send itself. */
  function Sends(s: Slave, e: Event, a: Answer): Option<nat> {
    if Gone(s, e, a) then Some(1) else if TurnEnds(s, e, a) then Some(0) else None
  }

  /** What the slave sends for an event, and how it is left. */
  lemma EventSends(s: Slave, t: Slave, e: Event, a: Answer)
    requires Serving(s) && Reportable(s, e) && !e.NoPoll? && !a.fault
    requires t == s || (s == SENDING && t == Slave(Send, Open(Nothing), true))
    ensures var r := React(t, e, a);
            && r.status == Running && !r.pooled && r.slave.state == s.state && r.slave.io.Open?
            && r.out == Sends(s, e, a)
            && (r.out != Some(0) ==> r.slave == t)
            && (r.slave == s || (s == SENDING && r.slave == Slave(Send, Open(Nothing), true)))
  {
  }

  function Affected(w: World, i: nat, r: Effect): World
    requires i < |w.slaves|
  {
    w.(slaves := w.slaves[i := r.slave], pool := if r.pooled then w.pool + [i] else w.pool, status := r.status,
       queue := match r.out case None => [] case Some(c) => [Message(SlaveNo(i), Code(c))])
  }

  /** A single message in the queue: its effect replaces it. */
  lemma LoneMessage(w: World, i: nat, e: Event, answers: seq<Answer>)
    requires i < |w.slaves| && w.queue == [Message(SlaveNo(i), e)] && w.status == Running && answers != []
    ensures Drain(w, answers) == Drain(Affected(w, i, React(w.slaves[i], e, answers[0])), answers[1..])
  {
    DrainStep(w, answers);
    StepAffects(w, i, e, answers[0]);
  }

  lemma StepAffects(w: World, i: nat, e: Event, a: Answer)
    requires i < |w.slaves| && w.queue == [Message(SlaveNo(i), e)]
    ensures Step(w, a) == Affected(w, i, React(w.slaves[i], e, a))
  {
    hide React;
    assert w.queue[1..] == [];
  }

  /** One event of a client, drained: the slave goes back to the pool if and only
      if the client is gone, turns from receiving to sending or back if and only if
      the line is complete, and otherwise nothing has changed. No other slave is
      touched. */
  lemma EventSettles(w: World, i: nat, e: Event, answers: seq<Answer>)
    requires w.status == Running && i < |w.slaves| && Serving(w.slaves[i])
    requires Reportable(w.slaves[i], e) && !e.NoPoll?
    requires |answers| >= 3 && forall k :: 0 <= k < 3 ==> !answers[k].fault
    ensures var s := w.slaves[i];
            Drain(w.(queue := [Message(SlaveNo(i), e)]), answers) ==
            if Gone(s, e, answers[0]) then w.(slaves := w.slaves[i := READY], pool := w.pool + [i], queue := [])
            else if TurnEnds(s, e, answers[0]) then
              w.(slaves := w.slaves[i := if s == RECEIVING then SENDING else RECEIVING], queue := [])
            else w.(queue := [])
  {
    var s, a := w.slaves[i], answers[0];
    var w0 := w.(queue := [Message(SlaveNo(i), e)]);
    LoneMessage(w0, i, e, answers);
    var r := React(s, e, a);
    var w1 := Affected(w0, i, r);
    EventSends(s, s, e, a);
    hide React, Drain, Gone, TurnEnds, Reportable;
    if Gone(s, e, a) {
      Returns(w1, i, answers[1..]);
    } else if TurnEnds(s, e, a) {
      LoneMessage(w1, i, Code(0), answers[1..]);
      TurnReacts(s, r.slave, answers[1]);
      DrainedStays(Affected(w1, i, React(r.slave, Code(0), answers[1])), answers[1..][1..]);
    } else {
      assert w.slaves[i := s] == w.slaves;
      DrainedStays(w1, answers[1..]);
    }
  }

  lemma TurnReacts(s: Slave, t: Slave, a: Answer)
    requires Serving(s) && t.state == s.state && t.io.Open? && !a.fault
    ensures React(t, Code(0), a) == Effect(if s == RECEIVING then SENDING else RECEIVING, false, None, Running)
  {
  }

  /** A slave that has sent itself code 1 gives its client up. */
  lemma Returns(w: World, i: nat, answers: seq<Answer>)
    requires w.status == Running && i < |w.slaves| && Serving(w.slaves[i])
    requires w.queue == [Message(SlaveNo(i), Code(1))]
    requires |answers| >= 2 && !answers[0].fault && !answers[1].fault
    ensures Drain(w, answers) == w.(slaves := w.slaves[i := READY], pool := w.pool + [i], queue := [])
  {
    LoneMessage(w, i, Code(1), answers);
    assert React(w.slaves[i], Code(1), answers[0]) == Effect(Slave(Done, Closed, false), true, Some(0), Running);
    hide React, Drain;
    Leaves(Affected(w, i, React(w.slaves[i], Code(1), answers[0])), i, answers[1..]);
  }

  /** And one in `done` becomes idle. */
  lemma Leaves(w: World, i: nat, answers: seq<Answer>)
    requires w.status == Running && i < |w.slaves| && w.slaves[i] == Slave(Done, Closed, false)
    requires w.queue == [Message(SlaveNo(i), Code(0))]
    requires |answers| >= 1 && !answers[0].fault
    ensures Drain(w, answers) == w.(slaves := w.slaves[i := READY], queue := [])
  {
    LoneMessage(w, i, Code(0), answers);
    assert React(w.slaves[i], Code(0), answers[0]) == Effect(READY, false, None, Running);
    hide React, Drain;
    DrainedStays(Affected(w, i, React(w.slaves[i], Code(0), answers[0])), answers[1..]);
  }

  /** A new client, drained: the slave on top of the pool receives from it, or is
      back on top of the pool if the client cannot be accepted; without a slave
      the client is turned away, and the engine stops if that fails. */
  lemma ClientSettles(w: World, answers: seq<Answer>)
    requires Ready(w) && |answers| >= 4 && forall k :: 0 <= k < 4 ==> !answers[k].fault
    ensures var d := Drain(w.(queue := [Message(Master, PollIn)]), answers);
            if w.pool == [] then d == if answers[0].accepted then w else w.(status := Stopped)
            else if !answers[1].accepted then d == w
            else
              var n := |w.pool| - 1;
              w.pool[n] < |w.slaves| &&
              d == w.(slaves := w.slaves[w.pool[n] := RECEIVING], pool := w.pool[..n])
  {
    var w0 := w.(queue := [Message(Master, PollIn)]);
    DrainStep(w0, answers);
    MasterTakes(w, answers[0]);
    if w.pool == [] {
      DrainedStays(Step(w0, answers[0]), answers[1..]);
    } else {
      IdleInPool(w, |w.pool| - 1);
      TakenSettles(w, Step(w0, answers[0]), answers[1..]);
    }
    hide Drain, Step, Ready;
  }

  lemma TakenSettles(w: World, w1: World, answers: seq<Answer>)
    requires w.status == Running && w.queue == [] && w.pool != []
    requires w.pool[|w.pool| - 1] < |w.slaves| && w.slaves[w.pool[|w.pool| - 1]] == READY
    requires var n := |w.pool| - 1;
             w1 == w.(queue := [Message(SlaveNo(w.pool[n]), Code(1))], pool := w.pool[..n])
    requires |answers| >= 3 && forall k :: 0 <= k < 3 ==> !answers[k].fault
    ensures var n := |w.pool| - 1;
            Drain(w1, answers) ==
            if answers[0].accepted then w.(slaves := w.slaves[w.pool[n] := RECEIVING], pool := w.pool[..n]) else w
  {
    var n := |w.pool| - 1;
    hide Drain;
    Accepts(w1, w.pool[n], answers);
    assert w.pool == w.pool[..n] + [w.pool[n]];
    assert w.slaves[w.pool[n] := READY] == w.slaves;
  }

  lemma MasterTakes(w: World, a: Answer)
    requires Ready(w) && !a.fault
    ensures Step(w.(queue := [Message(Master, PollIn)]), a) ==
            if w.pool == [] then (if a.accepted then w else w.(status := Stopped))
            else var n := |w.pool| - 1;
                 w.(queue := [Message(SlaveNo(w.pool[n]), Code(1))], pool := w.pool[..n])
  {
    var w0 := w.(queue := [Message(Master, PollIn)]);
    assert w0.queue[1..] == [];
  }

  lemma IdleInPool(w: World, n: nat)
    requires Ready(w) && n < |w.pool|
    ensures w.pool[n] < |w.slaves| && w.slaves[w.pool[n]] == READY
  {
    assert w.pool[n] in w.pool;
    assert Places(w, w.pool[n]) > 0;
  }

  lemma Accepts(w: World, i: nat, answers: seq<Answer>)
    requires w.status == Running && i < |w.slaves| && w.slaves[i] == READY
    requires w.queue == [Message(SlaveNo(i), Code(1))]
    requires |answers| >= 3 && forall k :: 0 <= k < 3 ==> !answers[k].fault
    ensures Drain(w, answers) ==
            if answers[0].accepted then w.(slaves := w.slaves[i := RECEIVING], queue := [])
            else w.(slaves := w.slaves[i := READY], pool := w.pool + [i], queue := [])
  {
    LoneMessage(w, i, Code(1), answers);
    var r := React(READY, Code(1), answers[0]);
    var w1 := Affected(w, i, r);
    if answers[0].accepted {
      assert r == Effect(Slave(Idle, Open(Unclaimed), false), false, Some(0), Running);
      assert React(r.slave, Code(0), answers[1]) == Effect(RECEIVING, false, None, Running);
      hide React, Drain;
      LoneMessage(w1, i, Code(0), answers[1..]);
      DrainedStays(Affected(w1, i, React(r.slave, Code(0), answers[1])), answers[1..][1..]);
    } else {
      assert r == Effect(READY, false, Some(3), Running);
      assert React(READY, Code(3), answers[1]) == Effect(Slave(Done, Closed, false), true, Some(0), Running);
      hide React, Drain;
      LoneMessage(w1, i, Code(3), answers[1..]);
      Leaves(Affected(w1, i, React(READY, Code(3), answers[1])), i, answers[1..][1..]);
    }
  }
}
