/** The ring buffer under its compare-and-exchange lock: any number of threads,
    interleaved at every single field update. */
module SpinLock {
  import opened Wrappers
  import opened Words
  import opened RingIndex

  datatype Op = GetOp | PutOp

  /** Where a thread is. `since` is the length of the log when its call began;
      i is the slot _get returns, n the new capacity in _expand. */
  datatype Pc =
    | Outside
    | Spinning(op: Op, since: nat)
    | GetTest | GetIndex | GetSize(i: u32) | GetTail(i: u32) | GetMask(i: u32)
    | PutTest | GrowTest(n: u32) | GrowHead(n: u32) | GrowMask(n: u32) | GrowCap(n: u32)
    | PutSize | PutHead | PutMask | PutRead
    | Release(result: Option<u32>)

  predicate Critical(pc: Pc) {
    !pc.Outside? && !pc.Spinning?
  }

  datatype Answer = Pending | Answered(slot: Option<u32>)

  /** One call, entered in the log when it takes the lock. */
  datatype Entry = Entry(thread: nat, op: Op, since: nat, answer: Answer)

  datatype Sys = Sys(ring: Ring, lock: u32, pcs: seq<Pc>, log: seq<Entry>)

  datatype Action = Invoke(t: nat, op: Op) | Run(t: nat)

  function Enter(op: Op): (pc: Pc)
    ensures Critical(pc) && !pc.Release?
  {
    match op case GetOp => GetTest case PutOp => PutTest
  }

  /** One field access of _get or _put. */
  function Micro(r: Ring, pc: Pc): (Ring, Pc)
    requires Critical(pc) && !pc.Release?
  {
    match pc
    case GetTest => (r, if r.size == 0 then Release(None) else GetIndex)
    case GetIndex => (r, GetSize(r.tail))
    case GetSize(i) => (r.(size := Wrap(r.size - 1)), GetTail(i))
    case GetTail(i) => (r.(tail := Wrap(r.tail + 1)), GetMask(i))
    case GetMask(i) => (r.(tail := And(r.tail, r.mask)), Release(Some(i)))
    case PutTest => (r, if r.size == r.cap then GrowTest(Wrap(2 * r.cap)) else PutSize)
    case GrowTest(n) => (r, if r.head != Wrap(r.cap - 1) then GrowHead(n) else GrowMask(n))
    case GrowHead(n) => (r.(head := Wrap(r.head + Wrap(r.cap - r.head))), GrowMask(n))
    case GrowMask(n) => (r.(mask := Wrap(n - 1)), GrowCap(n))
    case GrowCap(n) => (r.(cap := n), PutSize)
    case PutSize => (r.(size := Wrap(r.size + 1)), PutHead)
    case PutHead => (r.(head := Wrap(r.head + 1)), PutMask)
    case PutMask => (r.(head := And(r.head, r.mask)), PutRead)
    case PutRead => (r, Release(Some(r.head)))
  }

  /** One atomic step of the system. */
  function Next(s: Sys, a: Action): Sys
    requires a.t < |s.pcs|
  {
    var pc := s.pcs[a.t];
    match a
    case Invoke(t, op) =>
      if pc.Outside? then s.(pcs := s.pcs[t := Spinning(op, |s.log|)]) else s
    case Run(t) =>
      match pc
      case Outside => s
      case Spinning(op, since) =>
        if s.lock == 0 then
          s.(lock := 1, pcs := s.pcs[t := Enter(op)], log := s.log + [Entry(t, op, since, Pending)])
        else s
      case Release(result) =>
        if s.log == [] then s
        else
          var k := |s.log| - 1;
          s.(lock := 0, pcs := s.pcs[t := Outside], log := s.log[k := s.log[k].(answer := Answered(result))])
      case _ =>
        var (r, pc') := Micro(s.ring, pc);
        s.(ring := r, pcs := s.pcs[t := pc'])
  }

  // ------------------------------------------------------------- sequentially

  /** A call that runs alone. */
  function Alone(r: Ring, op: Op): (Ring, Option<u32>) {
    match op
    case GetOp => Get(r)
    case PutOp => (Put(r).0, Some(Put(r).1))
  }

  /** The ring after the calls of the log, one after the other. */
  function Replay(r: Ring, log: seq<Entry>): Ring {
    if log == [] then r else Alone(Replay(r, log[..|log| - 1]), log[|log| - 1].op).0
  }

  function Rank(pc: Pc): nat {
    match pc
    case GetTest => 5 case GetIndex => 4 case GetSize(_) => 3 case GetTail(_) => 2 case GetMask(_) => 1
    case PutTest => 9 case GrowTest(_) => 8 case GrowHead(_) => 7 case GrowMask(_) => 6 case GrowCap(_) => 5
    case PutSize => 4 case PutHead => 3 case PutMask => 2 case PutRead => 1
    case _ => 0
  }

  /** Running a call to its end without interference. */
  function Finish(r: Ring, pc: Pc): (Ring, Option<u32>)
    requires Critical(pc)
    decreases Rank(pc)
  {
    if pc.Release? then (r, pc.result)
    else
      var (r', pc') := Micro(r, pc);
      Finish(r', pc')
  }

  lemma FinishMicro(r: Ring, pc: Pc)
    requires Critical(pc) && !pc.Release?
    ensures Finish(r, pc) == Finish(Micro(r, pc).0, Micro(r, pc).1)
  {
  }

  lemma FinishRelease(r: Ring, slot: Option<u32>)
    ensures Finish(r, Release(slot)) == (r, slot)
  {
  }

  lemma FinishGet(r: Ring)
    requires r.size > 0
    ensures Finish(r, GetIndex) == Get(r)
  {
    hide Finish, Wrap, And;
    var r1 := r.(size := Wrap(r.size - 1));
    var r2 := r1.(tail := Wrap(r1.tail + 1));
    FinishMicro(r, GetIndex);
    FinishMicro(r, GetSize(r.tail));
    FinishMicro(r1, GetTail(r.tail));
    FinishMicro(r2, GetMask(r.tail));
    FinishRelease(Get(r).0, Some(r.tail));
  }

  lemma FinishFill(r: Ring)
    ensures var h := And(Wrap(r.head + 1), r.mask);
            Finish(r, PutSize) == (r.(size := Wrap(r.size + 1), head := h), Some(h))
  {
    hide Finish, Wrap, And;
    var r1 := r.(size := Wrap(r.size + 1));
    var r2 := r1.(head := Wrap(r1.head + 1));
    var r3 := r2.(head := And(r2.head, r2.mask));
    FinishMicro(r, PutSize);
    FinishMicro(r1, PutHead);
    FinishMicro(r2, PutMask);
    FinishMicro(r3, PutRead);
    FinishRelease(r3, Some(r3.head));
  }

  lemma FinishMasked(r: Ring, n: u32)
    ensures Finish(r, GrowMask(n)) == Finish(r.(mask := Wrap(n - 1), cap := n), PutSize)
  {
    hide Finish, Wrap;
    FinishMicro(r, GrowMask(n));
    FinishMicro(r.(mask := Wrap(n - 1)), GrowCap(n));
  }

  lemma FinishGrow(r: Ring)
    ensures Finish(r, GrowTest(Wrap(2 * r.cap))) == Finish(Expand(r), PutSize)
  {
    var n: u32 := Wrap(2 * r.cap);
    hide Finish, Wrap, And;
    if r.head != Wrap(r.cap - 1) {
      FinishHead(r, n);
    } else {
      assert Micro(r, GrowTest(n)) == (r, GrowMask(n));
      FinishMicro(r, GrowTest(n));
      FinishMasked(r, n);
    }
  }

  lemma FinishHead(r: Ring, n: u32)
    requires r.head != Wrap(r.cap - 1)
    ensures var head := Wrap(r.head + Wrap(r.cap - r.head));
            Finish(r, GrowTest(n)) == Finish(r.(head := head, mask := Wrap(n - 1), cap := n), PutSize)
  {
    hide Finish, Wrap, And;
    FinishMicro(r, GrowTest(n));
    FinishMicro(r, GrowHead(n));
    FinishMasked(r.(head := Wrap(r.head + Wrap(r.cap - r.head))), n);
  }

  /** The field updates of a call, run alone, are the call. */
  lemma FinishIsAlone(r: Ring, op: Op)
    ensures Finish(r, Enter(op)) == Alone(r, op)
  {
    hide Finish, Wrap, And;
    FinishMicro(r, Enter(op));
    FinishRelease(r, None);
    match op
    case GetOp =>
      if r.size > 0 {
        FinishGet(r);
      }
    case PutOp =>
      if r.size == r.cap {
        FinishGrow(r);
        FinishFill(Expand(r));
      } else {
        FinishFill(r);
      }
  }

  // --------------------------------------------------------------- the invariant

  /** The calls that have answered: all of the log but the one in progress. */
  function Answers(s: Sys): seq<Entry> {
    if s.lock == 1 && s.log != [] then s.log[..|s.log| - 1] else s.log
  }

  /** Every answer is the one of the call made alone, after the calls before it. */
  predicate Sequential(r: Ring, log: seq<Entry>) {
    forall k :: 0 <= k < |log| ==> log[k].answer == Answered(Alone(Replay(r, log[..k]), log[k].op).1)
  }

  /** The thread that entered the log last. */
  function Holder(s: Sys): nat
    requires s.log != []
  {
    s.log[|s.log| - 1].thread
  }

  predicate Inv(s: Sys, init: Ring) {
    && s.lock in {0, 1}
    && (s.lock == 1 ==> s.log != [] && Holder(s) < |s.pcs| && s.log[|s.log| - 1].answer == Pending)
    && (forall t :: 0 <= t < |s.pcs| ==> (Critical(s.pcs[t]) <==> s.lock == 1 && t == Holder(s)))
    && Sequential(init, Answers(s))
    && (if s.lock == 0 then s.ring == Replay(init, s.log)
        else Finish(s.ring, s.pcs[Holder(s)]) == Alone(Replay(init, Answers(s)), s.log[|s.log| - 1].op))
    && (forall k :: 0 <= k < |s.log| ==> s.log[k].since <= k)
    && (forall t :: 0 <= t < |s.pcs| && s.pcs[t].Spinning? ==> s.pcs[t].since <= |s.log|)
  }

  lemma SequentialSnoc(r: Ring, log: seq<Entry>, e: Entry)
    requires Sequential(r, log)
    requires e.answer == Answered(Alone(Replay(r, log), e.op).1)
    ensures Sequential(r, log + [e])
    ensures Replay(r, log + [e]) == Alone(Replay(r, log), e.op).0
  {
    var l := log + [e];
    assert l[..|log|] == log;
    forall k | 0 <= k < |l| ensures l[k].answer == Answered(Alone(Replay(r, l[..k]), l[k].op).1) {
      if k < |log| {
        assert l[..k] == log[..k];
      }
    }
  }

  lemma StepKeepsInv(s: Sys, init: Ring, a: Action)
    requires Inv(s, init) && a.t < |s.pcs|
    ensures Inv(Next(s, a), init)
  {
    hide Alone, Micro, Finish;
    match a
    case Invoke(t, op) =>
    case Run(t) =>
      match s.pcs[t]
      case Outside =>
      case Spinning(op, since) =>
        if s.lock == 0 {
          AcquireKeepsInv(s, init, t);
        }
      case Release(result) => ReleaseKeepsInv(s, init, t);
      case _ => MicroKeepsInv(s, init, t);
  }

  lemma AcquireKeepsInv(s: Sys, init: Ring, t: nat)
    requires Inv(s, init) && t < |s.pcs| && s.pcs[t].Spinning? && s.lock == 0
    ensures Inv(Next(s, Run(t)), init)
  {
    hide Alone, Micro, Finish, Replay;
    var op := s.pcs[t].op;
    FinishIsAlone(s.ring, op);
    var s' := Next(s, Run(t));
    assert s'.log[..|s'.log| - 1] == s.log;
  }

  lemma ReleaseKeepsInv(s: Sys, init: Ring, t: nat)
    requires Inv(s, init) && t < |s.pcs| && s.pcs[t].Release?
    ensures Inv(Next(s, Run(t)), init)
  {
    FinishRelease(s.ring, s.pcs[t].result);
    var k := |s.log| - 1;
    var e := s.log[k].(answer := Answered(s.pcs[t].result));
    var s' := Sys(s.ring, 0, s.pcs[t := Outside], Answers(s) + [e]);
    assert s.log[k := e] == Answers(s) + [e];
    assert Next(s, Run(t)) == s';
    hide Alone, Micro, Finish, Replay, Sequential, Next;
    SequentialSnoc(init, Answers(s), e);
    assert Answers(s') == s'.log;
    forall i | 0 <= i < |s'.log| ensures s'.log[i].since <= i {
      assert s'.log[i].since == s.log[i].since;
    }
  }

  lemma MicroKeepsInv(s: Sys, init: Ring, t: nat)
    requires Inv(s, init) && t < |s.pcs| && Critical(s.pcs[t]) && !s.pcs[t].Release?
    ensures Inv(Next(s, Run(t)), init)
  {
    FinishMicro(s.ring, s.pcs[t]);
    MicroStaysInside(s.ring, s.pcs[t]);
    NextMicro(s, t);
    hide Alone, Micro, Finish, Replay, Next, Sequential;
    var s' := Next(s, Run(t));
    assert s'.log == s.log && s'.lock == s.lock;
  }

  lemma NextMicro(s: Sys, t: nat)
    requires t < |s.pcs| && Critical(s.pcs[t]) && !s.pcs[t].Release?
    ensures Next(s, Run(t)) ==
            s.(ring := Micro(s.ring, s.pcs[t]).0, pcs := s.pcs[t := Micro(s.ring, s.pcs[t]).1])
  {
    hide Micro;
  }

  lemma MicroStaysInside(r: Ring, pc: Pc)
    ensures Critical(pc) && !pc.Release? ==> Critical(Micro(r, pc).1)
  {
  }

  // ------------------------------------------------------------------- theorems

  predicate IsRun(ss: seq<Sys>, actions: seq<Action>) {
    && |ss| == |actions| + 1
    && forall i :: 0 <= i < |actions| ==>
         actions[i].t < |ss[i].pcs| && Next(ss[i], actions[i]) == ss[i + 1]
  }

  /** No call has begun: what _init leaves, for any number of threads. */
  predicate Initial(s: Sys) {
    s.lock == 0 && s.log == [] && forall t :: 0 <= t < |s.pcs| ==> s.pcs[t] == Outside
  }

  lemma {:induction false} InvAlways(ss: seq<Sys>, actions: seq<Action>, k: nat)
    requires IsRun(ss, actions) && Initial(ss[0]) && k < |ss|
    ensures Inv(ss[k], ss[0].ring)
    decreases k
  {
    hide Next;
    if k == 0 {
      assert Replay(ss[0].ring, []) == ss[0].ring;
    } else {
      InvAlways(ss, actions, k - 1);
      assert Next(ss[k - 1], actions[k - 1]) == ss[k];
      StepKeepsInv(ss[k - 1], ss[0].ring, actions[k - 1]);
    }
  }

  /** At every moment of every interleaving at most one thread is inside _get or
      _put, and every call answers what it would have answered in the run that
      makes the same calls one after the other in the order they took the lock;
      a call enters that order after every call that had entered before it began. */
  lemma Linearizable(ss: seq<Sys>, actions: seq<Action>, k: nat)
    requires IsRun(ss, actions) && Initial(ss[0]) && k < |ss|
    ensures var s := ss[k];
            && (forall t, u ::
                  0 <= t < |s.pcs| && 0 <= u < |s.pcs| && Critical(s.pcs[t]) && Critical(s.pcs[u]) ==> t == u)
            && (forall i :: 0 <= i < |s.log| && s.log[i].answer.Answered? ==>
                  s.log[i].answer.slot == Alone(Replay(ss[0].ring, s.log[..i]), s.log[i].op).1)
            && (forall i :: 0 <= i < |s.log| ==> s.log[i].since <= i)
            && ((forall t :: 0 <= t < |s.pcs| ==> !Critical(s.pcs[t])) ==>
                  s.ring == Replay(ss[0].ring, s.log) && forall i :: 0 <= i < |s.log| ==> s.log[i].answer.Answered?)
  {
    InvAlways(ss, actions, k);
    hide Alone, Finish, Replay;
    var s := ss[k];
    forall i | 0 <= i < |s.log| && s.log[i].answer.Answered?
      ensures s.log[i].answer.slot == Alone(Replay(ss[0].ring, s.log[..i]), s.log[i].op).1
    {
      assert Answers(s)[..i] == s.log[..i];
      assert Answers(s)[i] == s.log[i];
    }
  }

  /** The log only grows, and an answer once given stays. */
  lemma StepKeepsLog(s: Sys, init: Ring, a: Action)
    requires Inv(s, init) && a.t < |s.pcs|
    ensures var l := Next(s, a).log;
            && |s.log| <= |l|
            && forall i :: 0 <= i < |s.log| ==>
                 && l[i].thread == s.log[i].thread && l[i].op == s.log[i].op && l[i].since == s.log[i].since
                 && (s.log[i].answer.Answered? ==> l[i] == s.log[i])
  {
    hide Alone, Micro, Finish, Replay;
  }

  // -------------------------------------------------------------------- progress

  /** Thread t makes n steps in a row. */
  function RunOnly(s: Sys, t: nat, n: nat): Sys
    requires t < |s.pcs|
    decreases n
  {
    if n == 0 then s else RunOnly(Next(s, Run(t)), t, n - 1)
  }

  lemma RankFalls(r: Ring, pc: Pc)
    ensures Critical(pc) && !pc.Release? ==> Rank(Micro(r, pc).1) < Rank(pc)
  {
  }

  lemma {:induction false} OutsideStays(s: Sys, t: nat, n: nat)
    requires t < |s.pcs| && s.pcs[t].Outside?
    ensures RunOnly(s, t, n) == s
    decreases n
  {
    if n > 0 {
      OutsideStays(s, t, n - 1);
    }
  }

  /** The state when the call in progress has returned. */
  function Returned(s: Sys, t: nat): Sys
    requires t < |s.pcs| && Critical(s.pcs[t]) && s.log != []
  {
    var (r, result) := Finish(s.ring, s.pcs[t]);
    var k := |s.log| - 1;
    s.(ring := r, lock := 0, pcs := s.pcs[t := Outside], log := s.log[k := s.log[k].(answer := Answered(result))])
  }

  /** The thread inside needs no one else to get out. */
  lemma {:induction false} InsideReturns(s: Sys, t: nat, n: nat)
    requires t < |s.pcs| && Critical(s.pcs[t]) && s.log != [] && n > Rank(s.pcs[t])
    ensures RunOnly(s, t, n) == Returned(s, t)
    decreases n
  {
    hide Micro, Finish, Rank;
    var s' := Next(s, Run(t));
    if s.pcs[t].Release? {
      FinishRelease(s.ring, s.pcs[t].result);
      OutsideStays(s', t, n - 1);
    } else {
      NextMicro(s, t);
      FinishMicro(s.ring, s.pcs[t]);
      MicroStaysInside(s.ring, s.pcs[t]);
      RankFalls(s.ring, s.pcs[t]);
      InsideReturns(s', t, n - 1);
      assert s'.pcs[t := Outside] == s.pcs[t := Outside];
    }
  }

  /** A waiting thread that finds the lock free makes its call and returns. */
  lemma WaitingReturns(s: Sys, t: nat)
    requires t < |s.pcs| && s.pcs[t].Spinning? && s.lock == 0
    ensures var op, since := s.pcs[t].op, s.pcs[t].since;
            RunOnly(s, t, 11) == Sys(Alone(s.ring, op).0, 0, s.pcs[t := Outside],
                                     s.log + [Entry(t, op, since, Answered(Alone(s.ring, op).1))])
  {
    var op, since := s.pcs[t].op, s.pcs[t].since;
    var s' := Next(s, Run(t));
    assert s'.pcs[t] == Enter(op) && Rank(Enter(op)) < 10;
    hide Alone, Finish, Micro, Rank;
    InsideReturns(s', t, 10);
    FinishIsAlone(s.ring, op);
    var e := Entry(t, op, since, Pending);
    var k := |s.log|;
    assert (s.log + [e])[k := e.(answer := Answered(Alone(s.ring, op).1))] ==
           s.log + [e.(answer := Answered(Alone(s.ring, op).1))];
    assert s.pcs[t := Enter(op)][t := Outside] == s.pcs[t := Outside];
  }

  /** No interleaving gets stuck: whatever has happened, once the thread inside, if there
      is one, has made ten steps, a waiting one needs eleven to make its call. */
  lemma NeverStuck(ss: seq<Sys>, actions: seq<Action>, k: nat, t: nat) returns (free: Sys)
    requires IsRun(ss, actions) && Initial(ss[0]) && k < |ss|
    requires t < |ss[k].pcs| && ss[k].pcs[t].Spinning?
    ensures ss[k].lock == 0 ==> free == ss[k]
    ensures ss[k].lock != 0 ==>
              ss[k].log != [] && Holder(ss[k]) < |ss[k].pcs| && free == RunOnly(ss[k], Holder(ss[k]), 10)
    ensures free.lock == 0 && |free.pcs| == |ss[k].pcs| && free.pcs[t] == ss[k].pcs[t]
    ensures var op, s' := ss[k].pcs[t].op, RunOnly(free, t, 11);
            && s'.pcs == free.pcs[t := Outside] && s'.lock == 0 && s'.ring == Alone(free.ring, op).0
            && |s'.log| == |free.log| + 1 && s'.log[..|free.log|] == free.log
            && s'.log[|free.log|].thread == t && s'.log[|free.log|].op == op
            && s'.log[|free.log|].answer == Answered(Alone(free.ring, op).1)
  {
    InvAlways(ss, actions, k);
    var s := ss[k];
    free := s;
    if s.lock != 0 {
      var h := Holder(s);
      assert Critical(s.pcs[h]);
      AtMostNine(s.pcs[h]);
      hide Alone, Finish, Micro, Rank;
      InsideReturns(s, h, 10);
      free := RunOnly(s, h, 10);
    }
    hide Alone, Finish, Micro, RunOnly;
    WaitingReturns(free, t);
  }

  lemma AtMostNine(pc: Pc)
    ensures Rank(pc) < 10
  {
  }

  /** A thread outside may begin a call at any time. */
  lemma CallBegins(s: Sys, t: nat, op: Op)
    requires t < |s.pcs| && s.pcs[t].Outside?
    ensures Next(s, Invoke(t, op)) == s.(pcs := s.pcs[t := Spinning(op, |s.log|)])
  {
  }

  // ------------------------------------------------------------- real-time order

  /** How many calls of thread t the log holds. */
  function Entries(log: seq<Entry>, t: nat): nat {
    if log == [] then 0
    else Entries(log[..|log| - 1], t) + if log[|log| - 1].thread == t then 1 else 0
  }

  predicate Begins(s: Sys, a: Action, t: nat)
    requires a.t < |s.pcs|
  {
    a.Invoke? && a.t == t && s.pcs[t].Outside?
  }

  /** How many calls thread t has begun before step n. */
  function Calls(ss: seq<Sys>, actions: seq<Action>, t: nat, n: nat): nat
    requires IsRun(ss, actions) && n <= |actions|
  {
    if n == 0 then 0 else Calls(ss, actions, t, n - 1) + if Begins(ss[n - 1], actions[n - 1], t) then 1 else 0
  }

  /** The logs agree on who called: l is where m begins. */
  predicate Extends(l: seq<Entry>, m: seq<Entry>) {
    |l| <= |m| && forall i :: 0 <= i < |l| ==> l[i].thread == m[i].thread
  }

  lemma {:induction false} SameEntries(l: seq<Entry>, m: seq<Entry>, t: nat)
    requires |l| == |m| && forall i :: 0 <= i < |l| ==> l[i].thread == m[i].thread
    ensures Entries(l, t) == Entries(m, t)
    decreases |l|
  {
    if l != [] {
      SameEntries(l[..|l| - 1], m[..|m| - 1], t);
    }
  }

  lemma {:induction false} EntriesGrow(l: seq<Entry>, n: nat, t: nat)
    requires n <= |l|
    ensures Entries(l[..n], t) <= Entries(l, t)
    decreases |l|
  {
    if n == |l| {
      assert l[..n] == l;
    } else {
      var m := l[..|l| - 1];
      assert m[..n] == l[..n];
      EntriesGrow(m, n, t);
    }
  }

  /** The step at which a thread takes the lock. */
  predicate Acquires(s: Sys, a: Action)
    requires a.t < |s.pcs|
  {
    a.Run? && s.pcs[a.t].Spinning? && s.lock == 0
  }

  lemma NextLog(s: Sys, a: Action)
    requires a.t < |s.pcs|
    ensures var s', t := Next(s, a), a.t;
            && |s'.pcs| == |s.pcs| && (forall u :: 0 <= u < |s.pcs| && u != t ==> s'.pcs[u] == s.pcs[u])
            && (s'.pcs[t].Spinning? <==> Begins(s, a, t) || (s.pcs[t].Spinning? && !Acquires(s, a)))
            && (if Acquires(s, a) then |s'.log| == |s.log| + 1 && s'.log[|s.log|].thread == t
                else |s'.log| == |s.log|)
            && forall i :: 0 <= i < |s.log| ==> s'.log[i].thread == s.log[i].thread
  {
    MicroStaysInside(s.ring, s.pcs[a.t]);
    hide Micro;
  }

  lemma NextEntries(s: Sys, a: Action, t: nat)
    requires a.t < |s.pcs| && t < |s.pcs|
    ensures var s' := Next(s, a);
            && |s'.pcs| == |s.pcs| && Extends(s.log, s'.log)
            && Entries(s'.log, t) + (if s'.pcs[t].Spinning? then 1 else 0) ==
               Entries(s.log, t) + (if s.pcs[t].Spinning? then 1 else 0) + if Begins(s, a, t) then 1 else 0
  {
    var s' := Next(s, a);
    NextLog(s, a);
    hide Next;
    SameEntries(s.log, s'.log[..|s.log|], t);
    if Acquires(s, a) {
      assert s'.log[..|s'.log| - 1] == s'.log[..|s.log|];
    } else {
      assert s'.log[..|s.log|] == s'.log;
    }
  }

  /** Every call that has begun has one entry in the log, unless it still waits for
      the lock: the n-th call of a thread is its n-th entry. */
  lemma {:induction false} CallsAreEntries(ss: seq<Sys>, actions: seq<Action>, t: nat, n: nat)
    requires IsRun(ss, actions) && Initial(ss[0]) && n <= |actions| && t < |ss[0].pcs|
    ensures |ss[n].pcs| == |ss[0].pcs|
    ensures Calls(ss, actions, t, n) == Entries(ss[n].log, t) + if ss[n].pcs[t].Spinning? then 1 else 0
    decreases n
  {
    if n > 0 {
      CallsAreEntries(ss, actions, t, n - 1);
      hide Next, Extends;
      assert Next(ss[n - 1], actions[n - 1]) == ss[n];
      NextEntries(ss[n - 1], actions[n - 1], t);
    }
  }

  lemma {:induction false} LogsExtend(ss: seq<Sys>, actions: seq<Action>, a: nat, b: nat)
    requires IsRun(ss, actions) && a <= b <= |actions|
    ensures Extends(ss[a].log, ss[b].log)
    decreases b
  {
    hide Next, Extends, Entries, Begins;
    if a == b {
      ExtendsFurther(ss[a].log, ss[a].log, ss[a].log);
    } else {
      LogsExtend(ss, actions, a, b - 1);
      assert Next(ss[b - 1], actions[b - 1]) == ss[b];
      NextEntries(ss[b - 1], actions[b - 1], actions[b - 1].t);
      ExtendsFurther(ss[a].log, ss[b - 1].log, ss[b].log);
    }
  }

  lemma ExtendsFurther(l: seq<Entry>, m: seq<Entry>, n: seq<Entry>)
    ensures Extends(l, l)
    ensures Extends(l, m) && Extends(m, n) ==> Extends(l, n)
  {
  }

  /** The order of the log respects real time. Entry j has been made before step b, at
      which thread t begins a call; that call's entry, the one with as many calls of t
      before it as t had begun, comes after j. */
  lemma RespectsRealTime(ss: seq<Sys>, actions: seq<Action>, b: nat, c: nat, j: nat, k: nat)
    requires IsRun(ss, actions) && Initial(ss[0]) && b < c <= |actions|
    requires j < |ss[b].log|
    requires Begins(ss[b], actions[b], actions[b].t)
    requires k < |ss[c].log| && ss[c].log[k].thread == actions[b].t
    requires Entries(ss[c].log[..k], actions[b].t) == Calls(ss, actions, actions[b].t, b)
    ensures j < k
  {
    hide Next, Initial, Entries, Calls, Extends;
    var t := actions[b].t;
    PcsStay(ss, actions, b);
    CallsAreEntries(ss, actions, t, b);
    LogsExtend(ss, actions, b, c);
    EntryIsLater(ss[b].log, ss[c].log, t, k);
  }

  lemma EntryIsLater(l: seq<Entry>, m: seq<Entry>, t: nat, k: nat)
    requires Extends(l, m) && k < |m| && m[k].thread == t && Entries(m[..k], t) == Entries(l, t)
    ensures |l| <= k
  {
    if k < |l| {
      EntriesGrow(l, k + 1, t);
      assert m[..k + 1][..k] == m[..k];
      SameEntries(l[..k + 1], m[..k + 1], t);
    }
  }

  lemma {:induction false} PcsStay(ss: seq<Sys>, actions: seq<Action>, n: nat)
    requires IsRun(ss, actions) && n <= |actions|
    ensures |ss[n].pcs| == |ss[0].pcs|
    decreases n
  {
    if n > 0 {
      PcsStay(ss, actions, n - 1);
      assert Next(ss[n - 1], actions[n - 1]) == ss[n];
    }
  }
}
