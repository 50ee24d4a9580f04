/** What a wait brings, from the reactor's table. Every step of the server keeps the
    table its own; so the messages that the reactor posts are events that are watched
    for, one for each channel. */
module EchoReactor {
  import opened EchoServer
  import opened EchoRuns
  import opened EchoBatches
  import opened EchoRing
  import T = Template
  import P = PollReactor

  /** Whose channel it is, and which; a slave has a timer for each of its states
      `recv` and `send`. */
  datatype Endpoint =
    | SlaveIo(i: nat) | SlaveTimer(i: nat, sending: bool)
    | MasterIo | MasterTimer(k: nat) | MasterSign(k: nat)

  type Table = map<P.Channel?, P.PollFd>

  predicate Exists(n: nat, e: Endpoint) {
    match e
    case SlaveIo(i) => i < n
    case SlaveTimer(i, _) => i < n
    case MasterIo => true
    case MasterTimer(k) => k == 0 || k == 3
    case MasterSign(k) => k <= 1
  }

  /** The channels of n slaves and the master. Every machine keeps its channels for
      good. */
  datatype Wiring = Wiring(wires: map<Endpoint, P.Channel>, owners: map<P.Channel?, Endpoint>)

  ghost predicate Paired(x: Wiring) {
    && (forall e :: e in x.wires ==> x.wires[e] in x.owners && x.owners[x.wires[e]] == e)
    && (forall c :: c in x.owners ==> x.owners[c] in x.wires && x.wires[x.owners[c]] == c)
  }

  ghost predicate Wired(x: Wiring, n: nat) {
    Paired(x) && forall e :: e in x.wires <==> Exists(n, e)
  }

  /** The events that a slave asks to be told of. */
  function EventsOf(mask: Mask): nat {
    match mask
    case Input => T.POLLIN
    case Output => T.POLLOUT
    case _ => 0
  }

  /** The timer of the slave's state is armed. */
  predicate Ticking(s: Slave, sending: bool) {
    s.armed && s.state == if sending then Send else Recv
  }

  /** The entry of an IO channel carries its mask, once there is one; that of an armed
      timer, and of the master's channels while it works, asks for input. */
  predicate Masked(w: World, e: Endpoint, fd: P.PollFd) {
    match e
    case SlaveIo(i) =>
      i < |w.slaves| && var io := w.slaves[i].io;
      io.Open? && (io.mask != Unclaimed ==> fd.events == P.FlagsOf(EventsOf(io.mask)))
    case SlaveTimer(i, sending) =>
      i < |w.slaves| && (Ticking(w.slaves[i], sending) ==> fd.events == P.FlagsOf(T.POLLIN))
    case MasterIo => fd.events == P.FlagsOf(T.POLLIN)
    case _ => w.working ==> fd.events == P.FlagsOf(T.POLLIN)
  }

  ghost predicate Entries(w: World, x: Wiring, t: Table) {
    forall c :: c in t ==> c in x.owners && Masked(w, x.owners[c], t[c])
  }

  /** Every timer and signal has an entry, and every open IO channel of a slave. */
  predicate Due(w: World, e: Endpoint) {
    Exists(|w.slaves|, e) && !e.MasterIo? && (e.SlaveIo? ==> w.slaves[e.i].io.Open?)
  }

  ghost predicate Complete(w: World, x: Wiring, t: Table) {
    forall e :: e in x.wires && Due(w, e) ==> x.wires[e] in t
  }

  /** The reactor's table belongs to the world: every entry is one channel of one
      machine, and no channel is missing. */
  ghost predicate Registered(w: World, x: Wiring, t: Table) {
    Wired(x, |w.slaves|) && Entries(w, x, t) && Complete(w, x, t)
  }

  // -------------------------------------------------------------------- start-up

  /** The endpoints that are registered when the master has made its slaves. */
  predicate AtStart(e: Endpoint, listening: bool) {
    !e.SlaveIo? && (e.MasterIo? ==> listening)
  }

  /** After start-up the table holds two timers for every slave and five channels of
      the master; without a listening socket, its timers and signals. */
  lemma StartRegistered(x: Wiring, n: nat, listening: bool, t: Table)
    requires Wired(x, if listening then n else 0)
    requires forall c :: c in t <==> c in x.owners && AtStart(x.owners[c], listening)
    requires listening ==> x.wires[MasterIo] in t && t[x.wires[MasterIo]].events == P.FlagsOf(T.POLLIN)
    ensures Registered(Started(n, listening), x, t)
  {
    var w := Started(n, listening);
    forall c | c in t ensures Masked(w, x.owners[c], t[c]) {
      assert x.wires[x.owners[c]] == c;
    }
  }

  // ------------------------------------------------------------ handling messages

  /** poll_reactor__mod of a registered channel. */
  function Modified(x: Wiring, t: Table, e: Endpoint, mask: nat): Table {
    if e in x.wires && x.wires[e] in t then
      t[x.wires[e] := t[x.wires[e]].(events := P.FlagsOf(mask))]
    else t
  }

  /** What becomes of the entry of slave i's IO channel when its IO state changes: it is
      added, removed, or gets another mask. */
  function Changed(x: Wiring, t: Table, i: nat, io: Io, io': Io, entry: P.PollFd): Table {
    if SlaveIo(i) !in x.wires then t
    else if io.Closed? && io'.Open? then t[x.wires[SlaveIo(i)] := entry]
    else if io.Open? && io'.Closed? then t - {x.wires[SlaveIo(i)]}
    else if io.Open? && io != io' then Modified(x, t, SlaveIo(i), EventsOf(io'.mask))
    else t
  }

  /** Entering `recv` or `send` starts the timer of that state. */
  function TimerStarted(x: Wiring, t: Table, i: nat, s: Slave, s': Slave): Table {
    if s.state != s'.state && s'.state in {Recv, Send} then
      Modified(x, t, SlaveTimer(i, s'.state == Send), T.POLLIN)
    else t
  }

  /** Entering `work` starts two timers and two signals. */
  function WorkStarted(x: Wiring, t: Table): Table {
    var t1 := Modified(x, t, MasterTimer(0), T.POLLIN);
    var t2 := Modified(x, t1, MasterTimer(3), T.POLLIN);
    var t3 := Modified(x, t2, MasterSign(0), T.POLLIN);
    Modified(x, t3, MasterSign(1), T.POLLIN)
  }

  /** Leaving it masks as many timers as it has signals. */
  function WorkStopped(x: Wiring, t: Table): Table {
    Modified(x, Modified(x, t, MasterTimer(0), 0), MasterTimer(3), 0)
  }

  function MasterTable(x: Wiring, t: Table, working: bool, e: Event, a: Answer): Table {
    if e.NoPoll? || a.fault then t
    else if !working && e == Code(0) then WorkStarted(x, t)
    else if working && (e == Code(3) || e == Tick(3)) then WorkStopped(x, t)
    else t
  }

  function SlaveTable(x: Wiring, t: Table, i: nat, s: Slave, s': Slave, entry: P.PollFd): Table {
    TimerStarted(x, Changed(x, t, i, s.io, s'.io, entry), i, s, s')
  }

  /** The table when a message is handled. A slave changes its IO channel's entry at most,
      and that of the timer of the state it enters; the master, entering or leaving
      `work`, those of its own timers and signals. */
  function Told(x: Wiring, w: World, m: Message, a: Answer, t: Table, entry: P.PollFd): Table {
    match m.who
    case Master => MasterTable(x, t, w.working, m.event, a)
    case SlaveNo(i) =>
      if i >= |w.slaves| then t else SlaveTable(x, t, i, w.slaves[i], React(w.slaves[i], m.event, a).slave, entry)
  }

  function TableStep(x: Wiring, w: World, a: Answer, t: Table, entry: P.PollFd): Table
    requires w.queue != []
  {
    Told(x, w, w.queue[0], a, t, entry)
  }

  /** The entry of slave i's IO channel follows the slave, all but its timer. */
  lemma ChangedKeeps(w: World, x: Wiring, t: Table, i: nat, io: Io, entry: P.PollFd)
    requires Registered(w, x, t) && i < |w.slaves|
    requires w.slaves[i].io.Open? && io.Open? && io != w.slaves[i].io ==> io.mask != Unclaimed
    requires w.slaves[i].io.Closed? && io.Open? ==> io.mask == Unclaimed
    ensures Registered(w.(slaves := w.slaves[i := w.slaves[i].(io := io)]), x,
                       Changed(x, t, i, w.slaves[i].io, io, entry))
  {
    var c, w' := x.wires[SlaveIo(i)], w.(slaves := w.slaves[i := w.slaves[i].(io := io)]);
    var t' := Changed(x, t, i, w.slaves[i].io, io, entry);
    assert Due(w, SlaveIo(i)) <==> w.slaves[i].io.Open?;
    ChangedAt(x, t, i, w.slaves[i].io, io, entry);
    hide Changed, Modified, P.FlagsOf;
    forall d | d in t' ensures d in x.owners && Masked(w', x.owners[d], t'[d]) {
      if d != c {
        assert Masked(w, x.owners[d], t[d]) && x.owners[d] != SlaveIo(i);
      }
    }
    forall e | e in x.wires && Due(w', e) ensures x.wires[e] in t' {
      assert e != SlaveIo(i) ==> Due(w, e) && x.wires[e] != c;
    }
  }

  lemma ChangedAt(x: Wiring, t: Table, i: nat, io: Io, io': Io, entry: P.PollFd)
    requires Paired(x) && SlaveIo(i) in x.wires && (io.Open? ==> x.wires[SlaveIo(i)] in t)
    ensures var t', c := Changed(x, t, i, io, io', entry), x.wires[SlaveIo(i)];
            && (forall d :: d in t' && d != c ==> d in t && t'[d] == t[d])
            && (forall d :: d in t && d != c ==> d in t')
            && (io.Closed? && io'.Closed? ==> t' == t)
            && (io.Open? || io'.Open? ==> (c in t' <==> io'.Open?))
            && (io.Open? && io'.Open? && io != io' ==> t'[c].events == P.FlagsOf(EventsOf(io'.mask)))
            && (io == io' ==> t' == t)
  {
  }

  /** And its timer is enabled where it is armed. */
  lemma TimerKeeps(w: World, x: Wiring, t: Table, i: nat, s: Slave)
    requires Registered(w, x, t) && i < |w.slaves| && s.io == w.slaves[i].io
    requires s.armed ==> s == w.slaves[i] || (s.state != w.slaves[i].state && s.state in {Recv, Send})
    ensures Registered(w.(slaves := w.slaves[i := s]), x, TimerStarted(x, t, i, w.slaves[i], s))
  {
  }

  /** How a slave may change in one reaction. */
  lemma SlaveReacts(s: Slave, e: Event, a: Answer)
    ensures var s' := React(s, e, a).slave;
            && (s.io.Open? && s'.io.Open? && s'.io != s.io ==> s'.io.mask != Unclaimed)
            && (s.io.Closed? && s'.io.Open? ==> s'.io.mask == Unclaimed)
            && (s'.armed ==> s' == s.(io := s'.io) || (s'.state != s.state && s'.state in {Recv, Send}))
  {
  }

  lemma SlaveKeeps(w: World, x: Wiring, i: nat, e: Event, a: Answer, t: Table, entry: P.PollFd)
    requires Registered(w, x, t) && i < |w.slaves|
    ensures var s' := React(w.slaves[i], e, a).slave;
            Registered(w.(slaves := w.slaves[i := s']), x, SlaveTable(x, t, i, w.slaves[i], s', entry))
  {
    var s, s' := w.slaves[i], React(w.slaves[i], e, a).slave;
    SlaveReacts(s, e, a);
    hide React, Registered, Changed, TimerStarted;
    ChangedKeeps(w, x, t, i, s'.io, entry);
    var w1 := w.(slaves := w.slaves[i := s.(io := s'.io)]);
    var t1 := Changed(x, t, i, s.io, s'.io, entry);
    TimerKeeps(w1, x, t1, i, s');
    SameTimer(x, t1, i, s, w1.slaves[i], s');
    assert w1.slaves[i := s'] == w.slaves[i := s'];
  }

  lemma SameTimer(x: Wiring, t: Table, i: nat, s: Slave, r: Slave, s': Slave)
    requires s.state == r.state
    ensures TimerStarted(x, t, i, s, s') == TimerStarted(x, t, i, r, s')
  {
  }

  lemma ModifiedAt(x: Wiring, t: Table, e: Endpoint, mask: nat)
    requires Paired(x)
    ensures var t' := Modified(x, t, e, mask);
            && t'.Keys == t.Keys
            && forall c :: c in t ==>
                 t'[c].events == if c in x.owners && x.owners[c] == e then P.FlagsOf(mask) else t[c].events
  {
  }

  predicate OfWork(e: Endpoint) {
    e in {MasterTimer(0), MasterTimer(3), MasterSign(0), MasterSign(1)}
  }

  lemma WorkEvents(x: Wiring, t: Table)
    requires Paired(x)
    ensures var t' := WorkStarted(x, t);
            && t'.Keys == t.Keys
            && forall c :: c in t ==>
                 t'[c].events == if c in x.owners && OfWork(x.owners[c]) then P.FlagsOf(T.POLLIN) else t[c].events
  {
    var t1 := Modified(x, t, MasterTimer(0), T.POLLIN);
    var t2 := Modified(x, t1, MasterTimer(3), T.POLLIN);
    var t3 := Modified(x, t2, MasterSign(0), T.POLLIN);
    ModifiedAt(x, t, MasterTimer(0), T.POLLIN);
    ModifiedAt(x, t1, MasterTimer(3), T.POLLIN);
    ModifiedAt(x, t2, MasterSign(0), T.POLLIN);
    ModifiedAt(x, t3, MasterSign(1), T.POLLIN);
    hide Modified, P.FlagsOf, Paired;
  }

  lemma WorkKeeps(w: World, x: Wiring, t: Table)
    requires Registered(w, x, t)
    ensures Registered(w.(working := true), x, WorkStarted(x, t))
  {
    WorkEvents(x, t);
    WorkEntries(w, x, t, WorkStarted(x, t));
    hide WorkStarted, P.FlagsOf, Paired, Entries, Wired;
  }

  lemma WorkEntries(w: World, x: Wiring, t: Table, t': Table)
    requires Wired(x, |w.slaves|) && Entries(w, x, t) && t'.Keys == t.Keys
    requires forall c :: c in t ==>
               t'[c].events == if c in x.owners && OfWork(x.owners[c]) then P.FlagsOf(T.POLLIN) else t[c].events
    ensures Entries(w.(working := true), x, t')
  {
    hide P.FlagsOf, Masked, OfWork, Exists;
    forall c | c in t' ensures c in x.owners && Masked(w.(working := true), x.owners[c], t'[c]) {
      assert Masked(w, x.owners[c], t[c]);
      WorkMasked(w, x.owners[c], t[c], t'[c]);
    }
  }

  lemma WorkMasked(w: World, e: Endpoint, fd: P.PollFd, fd': P.PollFd)
    requires Exists(|w.slaves|, e) && Masked(w, e, fd)
    requires fd'.events == if OfWork(e) then P.FlagsOf(T.POLLIN) else fd.events
    ensures Masked(w.(working := true), e, fd')
  {
    hide P.FlagsOf;
  }

  lemma StepKeepsSlaves(w: World, a: Answer)
    requires w.queue != []
    ensures |Step(w, a).slaves| == |w.slaves|
  {
    hide React;
  }

  /** Every step of the server that it survives keeps the table its own. */
  lemma StepKeepsRegistered(w: World, x: Wiring, a: Answer, t: Table, entry: P.PollFd)
    requires Registered(w, x, t) && w.queue != []
    ensures Step(w, a).status == Running ==> Registered(Step(w, a), x, TableStep(x, w, a, t, entry))
  {
    var e := w.queue[0].event;
    match w.queue[0].who
    case Master =>
      if Step(w, a).status == Running {
        MasterKeeps(w, x, a, t);
      }
    case SlaveNo(i) =>
      if i < |w.slaves| {
        SlaveKeeps(w, x, i, e, a, t, entry);
        hide Registered, React, SlaveTable;
        SameSlaves(w.(slaves := w.slaves[i := React(w.slaves[i], e, a).slave]), Step(w, a), x,
                   TableStep(x, w, a, t, entry));
      }
  }

  lemma MasterKeeps(w: World, x: Wiring, a: Answer, t: Table)
    requires Registered(w, x, t) && w.queue != [] && w.queue[0].who.Master? && Step(w, a).status == Running
    ensures Registered(Step(w, a), x, MasterTable(x, t, w.working, w.queue[0].event, a))
  {
    var w' := Step(w, a);
    MasterSteps(w, a);
    hide Registered, WorkStarted, WorkStopped, Step;
    if w.working {
      SameSlaves(w, w', x, t);
    } else {
      WorkKeeps(w, x, t);
      SameSlaves(w.(working := true), w', x, WorkStarted(x, t));
    }
  }

  lemma MasterSteps(w: World, a: Answer)
    requires w.queue != [] && w.queue[0].who.Master? && Step(w, a).status == Running
    ensures Step(w, a).slaves == w.slaves && Step(w, a).working
    ensures var e := w.queue[0].event;
            !e.NoPoll? && !a.fault && if w.working then e != Code(3) && e != Tick(3) else e == Code(0)
  {
  }

  lemma SameSlaves(w: World, w': World, x: Wiring, t: Table)
    requires Registered(w, x, t) && w'.slaves == w.slaves && w'.working == w.working
    ensures Registered(w', x, t)
  {
  }

  function TableDrain(x: Wiring, w: World, answers: seq<Answer>, t: Table, entries: seq<P.PollFd>): Table
    requires |entries| == |answers|
    decreases |answers|
  {
    if answers == [] || w.queue == [] || w.status != Running then t
    else
      TableDrain(x, Step(w, answers[0]), answers[1..], TableStep(x, w, answers[0], t, entries[0]), entries[1..])
  }

  lemma {:induction false} DrainKeepsRegistered(w: World, x: Wiring, answers: seq<Answer>, t: Table,
                                                entries: seq<P.PollFd>)
    requires Registered(w, x, t) && |entries| == |answers|
    ensures Drain(w, answers).status == Running ==>
              Registered(Drain(w, answers), x, TableDrain(x, w, answers, t, entries))
    decreases |answers|
  {
    if answers != [] && w.queue != [] && w.status == Running {
      var w' := Step(w, answers[0]);
      StepKeepsRegistered(w, x, answers[0], t, entries[0]);
      hide Registered, Step, TableStep;
      if w'.status == Running {
        DrainKeepsRegistered(w', x, answers[1..], TableStep(x, w, answers[0], t, entries[0]), entries[1..]);
      } else {
        DrainedStays(w', answers[1..]);
      }
    }
  }

  // ------------------------------------------------------------------- one wait

  /** What poll(2) may report: the events asked for and errors, and a slave's timer only
      if it is armed. */
  predicate MayReport(w: World, e: Endpoint, fd: P.PollFd, revents: set<P.Flag>) {
    && revents <= fd.events + {P.Err, P.Hup, P.Other}
    && (e.SlaveTimer? && revents != {} ==> e.i < |w.slaves| && Ticking(w.slaves[e.i], e.sending))
  }

  function PollEvent(code: nat): Event {
    if code == T.POLLIN then PollIn
    else if code == T.POLLOUT then PollOut
    else if code == T.POLLERR then PollErr
    else if code == T.POLLHUP then PollHup
    else NoPoll
  }

  /** The message, as the dispatcher takes it: a timer or signal by its own channel,
      the IO channel by its code. */
  function Delivered(e: Endpoint, code: nat): Message {
    match e
    case SlaveIo(i) => Message(SlaveNo(i), PollEvent(code))
    case SlaveTimer(i, _) => Message(SlaveNo(i), Tick(0))
    case MasterIo => Message(Master, PollEvent(code))
    case MasterTimer(k) => Message(Master, Tick(k))
    case MasterSign(k) => Message(Master, Sign(k))
  }

  function Batch(owners: map<P.Channel?, Endpoint>, posted: seq<P.Message>): (b: seq<Message>)
    requires forall k :: 0 <= k < |posted| ==> posted[k].channel in owners
    ensures |b| == |posted|
  {
    seq(|posted|, k requires 0 <= k < |posted| => Delivered(owners[posted[k].channel], posted[k].code))
  }

  lemma ReportWatched(w: World, e: Endpoint, fd: P.PollFd, revents: set<P.Flag>)
    requires Ready(w) && Exists(|w.slaves|, e) && Masked(w, e, fd) && MayReport(w, e, fd, revents) && revents != {}
    ensures Reported(w, Delivered(e, P.CodeOf(revents)))
  {
    P.FlagsAre();
  }

  /** Different endpoints have different channels, but for a slave's two timers. */
  lemma ChannelsDiffer(n: nat, e: Endpoint, f: Endpoint, c: nat, d: nat)
    requires Exists(n, e) && Exists(n, f) && e != f
    requires e.SlaveTimer? && f.SlaveTimer? ==> e.i != f.i
    ensures Channel(n, Delivered(e, c)) != Channel(n, Delivered(f, d))
  {
  }

  /** One call of poll(2): the arrays hold the table, and revents are what it may
      report; or it was interrupted. */
  datatype Poll = Poll(chs: seq<P.Channel?>, fds: seq<P.PollFd>, revents: seq<set<P.Flag>>, interrupted: bool)

  ghost predicate Polls(w: World, x: Wiring, t: Table, p: Poll) {
    && |p.chs| == |p.fds| == |p.revents| && P.Distinct(p.chs) && P.TableOf(p.chs, p.fds) == t
    && forall i :: 0 <= i < |p.chs| ==> p.chs[i] in x.owners && MayReport(w, x.owners[p.chs[i]], p.fds[i], p.revents[i])
  }

  /** Given what poll(2) may report, the messages the reactor posts in one wait are
      watched for, and there is one for each channel. */
  lemma WaitIsWatched(w: World, x: Wiring, t: Table, p: Poll)
    requires Ready(w) && Registered(w, x, t) && Polls(w, x, t, p)
    ensures var posted := P.Posts(p.chs, p.revents);
            && (forall k :: 0 <= k < |posted| ==> posted[k].channel in x.owners)
            && Watched(w, Batch(x.owners, posted))
  {
    var posted := P.Posts(p.chs, p.revents);
    hide Ready, Registered, Polls, Proper, Unlike, P.Posts;
    forall k | 0 <= k < |posted| ensures Proper(w, x, posted[k]) {
      PostedIsProper(w, x, t, p, k);
    }
    forall j, k | 0 <= j < k < |posted| ensures Unlike(w, x, posted[j], posted[k]) {
      PostedUnlike(w, x, t, p, j, k);
    }
    ProperWatched(w, x, posted);
  }

  /** The message of one of the server's channels, as the dispatcher takes it. */
  predicate Proper(w: World, x: Wiring, m: P.Message) {
    m.channel in x.owners && Reported(w, Delivered(x.owners[m.channel], m.code))
  }

  predicate Unlike(w: World, x: Wiring, m: P.Message, m': P.Message) {
    m.channel in x.owners && m'.channel in x.owners ==>
      Channel(|w.slaves|, Delivered(x.owners[m.channel], m.code)) !=
      Channel(|w.slaves|, Delivered(x.owners[m'.channel], m'.code))
  }

  lemma ProperWatched(w: World, x: Wiring, posted: seq<P.Message>)
    requires forall k :: 0 <= k < |posted| ==> Proper(w, x, posted[k])
    requires forall j, k :: 0 <= j < k < |posted| ==> Unlike(w, x, posted[j], posted[k])
    ensures forall k :: 0 <= k < |posted| ==> posted[k].channel in x.owners
    ensures Watched(w, Batch(x.owners, posted))
  {
    hide Reported, Channel, Delivered, Watched;
    var batch := Batch(x.owners, posted);
    forall k | 0 <= k < |batch| ensures Reported(w, batch[k]) {
      assert Proper(w, x, posted[k]);
    }
    forall j, k | 0 <= j < k < |batch| ensures Channel(|w.slaves|, batch[j]) != Channel(|w.slaves|, batch[k]) {
      assert Proper(w, x, posted[j]) && Proper(w, x, posted[k]) && Unlike(w, x, posted[j], posted[k]);
    }
    ReportedWatched(w, batch);
  }

  lemma ReportedWatched(w: World, batch: seq<Message>)
    requires forall k :: 0 <= k < |batch| ==> Reported(w, batch[k])
    requires forall j, k :: 0 <= j < k < |batch| ==> Channel(|w.slaves|, batch[j]) != Channel(|w.slaves|, batch[k])
    ensures Watched(w, batch)
  {
    hide Channel, Reportable;
  }

  lemma PostedIsProper(w: World, x: Wiring, t: Table, p: Poll, k: nat)
    requires Ready(w) && Registered(w, x, t) && Polls(w, x, t, p) && k < |P.Posts(p.chs, p.revents)|
    ensures Proper(w, x, P.Posts(p.chs, p.revents)[k])
  {
    hide Ready, P.Posts, P.TableOf, P.CountReady;
    var i := Entry(p.chs, p.revents, k);
    P.TableAt(p.chs, p.fds, i);
    ReportWatched(w, x.owners[p.chs[i]], p.fds[i], p.revents[i]);
  }

  lemma PostedUnlike(w: World, x: Wiring, t: Table, p: Poll, j: nat, k: nat)
    requires Registered(w, x, t) && Polls(w, x, t, p) && j < k < |P.Posts(p.chs, p.revents)|
    ensures Unlike(w, x, P.Posts(p.chs, p.revents)[j], P.Posts(p.chs, p.revents)[k])
  {
    hide P.Posts, P.TableOf, Channel, Masked, Complete;
    var a := Entry(p.chs, p.revents, j);
    var b := Entry(p.chs, p.revents, k);
    EndpointsDiffer(w, x, p, a, b);
    ChannelsDiffer(|w.slaves|, x.owners[p.chs[a]], x.owners[p.chs[b]], P.CodeOf(p.revents[a]), P.CodeOf(p.revents[b]));
  }

  /** Two entries that are ready belong to different endpoints, and not to the two timers
      of one slave. */
  lemma EndpointsDiffer(w: World, x: Wiring, p: Poll, a: nat, b: nat)
    requires Wired(x, |w.slaves|) && a < |p.chs| && b < |p.chs| && p.chs[a] != p.chs[b]
    requires |p.chs| == |p.fds| == |p.revents| && p.revents[a] != {} && p.revents[b] != {}
    requires p.chs[a] in x.owners && MayReport(w, x.owners[p.chs[a]], p.fds[a], p.revents[a])
    requires p.chs[b] in x.owners && MayReport(w, x.owners[p.chs[b]], p.fds[b], p.revents[b])
    ensures var e, f := x.owners[p.chs[a]], x.owners[p.chs[b]];
            && Exists(|w.slaves|, e) && Exists(|w.slaves|, f) && e != f
            && (e.SlaveTimer? && f.SlaveTimer? ==> e.i != f.i)
  {
    var e, f := x.owners[p.chs[a]], x.owners[p.chs[b]];
    assert x.wires[e] == p.chs[a] && x.wires[f] == p.chs[b];
  }

  /** The entry that a message was posted for. */
  lemma Entry(chs: seq<P.Channel?>, revents: seq<set<P.Flag>>, k: nat) returns (i: nat)
    requires |chs| == |revents| && k < |P.Posts(chs, revents)|
    ensures i < |chs| && revents[i] != {} && k == P.CountReady(revents[..i])
    ensures P.Posts(chs, revents)[k] == P.Message(chs[i], P.CodeOf(revents[i]))
  {
    i := P.PostsOnly(chs, revents, k);
    P.PostsOwn(chs, revents, i);
  }

  /** The table when poll(2) has written into it. */
  function Noted(t: Table, p: Poll): Table
    requires |p.chs| == |p.fds| == |p.revents|
  {
    if p.interrupted then t else P.TableOf(p.chs, P.Reported(p.fds, p.revents))
  }

  lemma NotedKeeps(w: World, x: Wiring, t: Table, p: Poll)
    requires Registered(w, x, t) && Polls(w, x, t, p)
    ensures Registered(w, x, Noted(t, p))
  {
    var t' := Noted(t, p);
    assert t'.Keys == t.Keys;
    forall c | c in t ensures t'[c].events == t[c].events {
      var i :| 0 <= i < |p.chs| && p.chs[i] == c;
      P.TableAt(p.chs, p.fds, i);
      P.TableAt(p.chs, P.Reported(p.fds, p.revents), i);
    }
    hide P.TableOf, Noted, Polls;
    SameEvents(w, x, t, t');
  }

  lemma SameEvents(w: World, x: Wiring, t: Table, t': Table)
    requires Registered(w, x, t) && t'.Keys == t.Keys && forall c :: c in t ==> t'[c].events == t[c].events
    ensures Registered(w, x, t')
  {
  }

  /** The batch is what the reactor posts. */
  ghost predicate Brings(x: Wiring, p: Poll, batch: seq<Message>)
    requires |p.chs| == |p.revents|
  {
    if p.interrupted then batch == []
    else
      var posted := P.Posts(p.chs, p.revents);
      && (forall k :: 0 <= k < |posted| ==> posted[k].channel in x.owners)
      && batch == Batch(x.owners, posted)
  }

  lemma BringsWatched(w: World, x: Wiring, t: Table, p: Poll, batch: seq<Message>)
    requires Ready(w) && Registered(w, x, t) && Polls(w, x, t, p) && Brings(x, p, batch)
    ensures Watched(w, batch)
  {
    WaitIsWatched(w, x, t, p);
    hide P.Posts, Ready, Registered;
  }

  /** The event of an IO channel: input if there is any, whatever else is reported; or
      else room for output, an error or a hang-up, in this order. */
  predicate Heard(e: Event, revents: set<P.Flag>) {
    && (e.PollIn? <==> P.In in revents)
    && (e.PollOut? <==> P.Out in revents && P.In !in revents)
    && (e.PollErr? <==> P.Err in revents && P.In !in revents && P.Out !in revents)
    && (e.PollHup? <==> P.Hup in revents && P.In !in revents && P.Out !in revents && P.Err !in revents)
    && (e.NoPoll? <==> revents * {P.In, P.Out, P.Err, P.Hup} == {})
  }

  /** Every ready entry brings its machine its own event: a client that has sent a line
      and closed the connection is heard before it is gone. */
  lemma EntryIsHeard(x: Wiring, p: Poll, batch: seq<Message>, i: nat)
    requires |p.chs| == |p.revents| && Brings(x, p, batch) && !p.interrupted
    requires i < |p.chs| && p.revents[i] != {} && p.chs[i] in x.owners
    ensures P.CountReady(p.revents[..i]) < |batch|
    ensures var m := batch[P.CountReady(p.revents[..i])];
            match x.owners[p.chs[i]]
            case SlaveIo(k) => m.who == SlaveNo(k) && Heard(m.event, p.revents[i])
            case SlaveTimer(k, _) => m == Message(SlaveNo(k), Tick(0))
            case MasterIo => m.who == Master && Heard(m.event, p.revents[i])
            case MasterTimer(k) => m == Message(Master, Tick(k))
            case MasterSign(k) => m == Message(Master, Sign(k))
  {
    hide P.Posts, P.CountReady, P.CodeOf;
    P.PostsOwn(p.chs, p.revents, i);
    P.CodeTells(p.revents[i]);
  }

  // ---------------------------------------------------------------- whole runs

  /** The engine with its reactor's table. */
  datatype System = System(e: Engine, t: Table)

  /** One pass of the main loop; entries are what a new channel finds in its slot. */
  datatype Round = Round(answers: seq<Answer>, entries: seq<P.PollFd>, poll: Poll)

  function SystemDrain(x: Wiring, s: System, answers: seq<Answer>, entries: seq<P.PollFd>): System
    requires |entries| == |answers|
  {
    System(EngineDrain(s.e, answers), TableDrain(x, s.e.w, answers, s.t, entries))
  }

  lemma {:induction false} TableDrainSnoc(x: Wiring, w: World, answers: seq<Answer>, a: Answer, t: Table,
                                          entries: seq<P.PollFd>, entry: P.PollFd)
    requires |entries| == |answers|
    ensures var d, t' := Drain(w, answers), TableDrain(x, w, answers, t, entries);
            TableDrain(x, w, answers + [a], t, entries + [entry]) ==
            if d.queue == [] || d.status != Running then t' else TableStep(x, d, a, t', entry)
    decreases |answers|
  {
    hide Step, TableStep;
    if answers == [] {
      assert [] + [a] == [a] && [a][1..] == [] && entries + [entry] == [entry] && [entry][1..] == [];
      if w.queue != [] && w.status == Running {
        assert TableDrain(x, Step(w, a), [], TableStep(x, w, a, t, entry), []) == TableStep(x, w, a, t, entry);
      }
    } else {
      assert (answers + [a])[1..] == answers[1..] + [a] && (entries + [entry])[1..] == entries[1..] + [entry];
      if w.queue != [] && w.status == Running {
        var t1 := TableStep(x, w, answers[0], t, entries[0]);
        TableDrainSnoc(x, Step(w, answers[0]), answers[1..], a, t1, entries[1..], entry);
      }
    }
  }

  /** One message more of a drain that goes on. */
  lemma SystemDrainSnoc(x: Wiring, s: System, answers: seq<Answer>, a: Answer, entries: seq<P.PollFd>, entry: P.PollFd)
    requires |entries| == |answers| && Carries(s.e)
    requires var d := SystemDrain(x, s, answers, entries); d.e.w.queue != [] && d.e.w.status == Running
    ensures var d := SystemDrain(x, s, answers, entries);
            SystemDrain(x, s, answers + [a], entries + [entry]) ==
            System(EngineStep(d.e, a), TableStep(x, d.e.w, a, d.t, entry))
  {
    EngineDrainSnoc(s.e, answers, a);
    DrainCarries(s.e, answers);
    TableDrainSnoc(x, s.e.w, answers, a, s.t, entries, entry);
    hide EngineDrain, Drain, TableDrain, TableStep, EngineStep;
  }

  /** A run goes on. */
  lemma SystemSnoc(x: Wiring, ss: seq<System>, rs: seq<Round>, n: nat, listening: bool, r: Round, s: System)
    requires IsSystemRun(x, ss, rs, n, listening) && Turns(x, ss[|rs|], r, s)
    ensures IsSystemRun(x, ss + [s], rs + [r], n, listening)
  {
    hide Turns, EngineStart, Registered;
    var ss', rs' := ss + [s], rs + [r];
    forall k | 0 <= k < |rs'| ensures Turns(x, ss'[k], rs'[k], ss'[k + 1]) {
      if k < |rs| {
        assert Turns(x, ss[k], rs[k], ss[k + 1]);
      }
    }
  }

  /** poll(2) is called, and its messages put into the queue. */
  ghost predicate Waits(x: Wiring, s: System, p: Poll, s': System) {
    && Polls(s.e.w, x, s.t, p) && Brings(x, p, s'.e.w.queue)
    && s' == System(EngineWait(s.e, s'.e.w.queue), Noted(s.t, p))
  }

  /** No slave gets two events that it does not survive together, and the ring can take
      what is posted. */
  ghost predicate Bearable(e: Engine, batch: seq<Message>) {
    (forall j: nat, k: nat :: !Clash(e.w, batch, j, k)) && HasRoom(e, batch)
  }

  ghost predicate Turns(x: Wiring, s: System, r: Round, s': System) {
    && |r.entries| == |r.answers|
    && var d := SystemDrain(x, s, r.answers, r.entries);
       Settled(d.e.w) && Waits(x, d, r.poll, s') && Bearable(d.e, s'.e.w.queue)
  }

  ghost predicate IsSystemRun(x: Wiring, ss: seq<System>, rs: seq<Round>, n: nat, listening: bool) {
    && |ss| == |rs| + 1
    && ss[0].e == EngineStart(n, listening) && Registered(ss[0].e.w, x, ss[0].t)
    && forall k :: 0 <= k < |rs| ==> Turns(x, ss[k], rs[k], ss[k + 1])
  }

  lemma DrainedRegistered(x: Wiring, s: System, answers: seq<Answer>, entries: seq<P.PollFd>, n: nat, listening: bool)
    requires Sane(s.e, n, listening) && Registered(s.e.w, x, s.t) && |entries| == |answers|
    ensures var d := SystemDrain(x, s, answers, entries);
            d.e.w.status == Running ==> Sane(d.e, n, listening) && Registered(d.e.w, x, d.t)
  {
    DrainSane(s.e, n, listening, answers);
    DrainKeepsRegistered(s.e.w, x, answers, s.t, entries);
    hide Sane, Registered, EngineDrain, Drain, TableDrain;
  }

  /** What a wait brings is safe if no slave gets two events that it does not survive
      together. */
  lemma WaitIsTaken(x: Wiring, d: System, p: Poll, d': System)
    requires Ready(d.e.w) && Registered(d.e.w, x, d.t)
    requires Waits(x, d, p, d') && Bearable(d.e, d'.e.w.queue)
    ensures Taken(d.e, d'.e.w.queue) && Registered(d'.e.w, x, d'.t)
  {
    var batch := d'.e.w.queue;
    hide Ready, Registered, Brings, Clash, Watched, HasRoom;
    BringsWatched(d.e.w, x, d.t, p, batch);
    SafePrefix(d.e.w, batch, |batch|);
    assert batch[..|batch|] == batch;
    NotedKeeps(d.e.w, x, d.t, p);
    SameSlaves(d.e.w, d'.e.w, x, d'.t);
  }

  lemma TurnPasses(x: Wiring, s: System, r: Round, s': System, n: nat, listening: bool)
    requires Sane(s.e, n, listening) && Registered(s.e.w, x, s.t) && Turns(x, s, r, s')
    ensures Registered(s'.e.w, x, s'.t)
    ensures Passes(s.e, Turn(r.answers, s'.e.w.queue), s'.e)
  {
    hide Sane, Registered, EngineDrain, TableDrain, Bearable, Brings, Polls, EngineWait, Taken, Ready;
    var d := SystemDrain(x, s, r.answers, r.entries);
    DrainedRegistered(x, s, r.answers, r.entries, n, listening);
    SettledIsReady(d.e, n, listening);
    WaitIsTaken(x, d, r.poll, s');
  }

  lemma PassIsSafe(e: Engine, t: Turn, e': Engine)
    requires Passes(e, t, e')
    ensures BatchSafe(EngineDrain(e, t.answers).w, t.batch)
  {
  }

  /** The tables of a run always belong to the server, and its waits bring what the
      server watches for: it is a run of the engine. */
  lemma {:induction false} SystemRuns(x: Wiring, ss: seq<System>, rs: seq<Round>, n: nat, listening: bool, k: nat)
    requires IsSystemRun(x, ss, rs, n, listening) && n < MAX_MESSAGES && k < |ss|
    ensures Sane(ss[k].e, n, listening) && Registered(ss[k].e.w, x, ss[k].t)
    ensures k > 0 ==> Passes(ss[k - 1].e, Turn(rs[k - 1].answers, ss[k].e.w.queue), ss[k].e)
  {
    if k == 0 {
      StartSane(n, listening);
    } else {
      var j := k - 1;
      assert Turns(x, ss[j], rs[j], ss[j + 1]);
      SystemRuns(x, ss, rs, n, listening, j);
      hide *;
      TurnPasses(x, ss[j], rs[j], ss[k], n, listening);
      PassSane(ss[j].e, Turn(rs[j].answers, ss[k].e.w.queue), ss[k].e, n, listening);
    }
  }

  /** So no run needs to assume that its batches are watched for. */
  lemma SystemSafe(x: Wiring, ss: seq<System>, rs: seq<Round>, n: nat, listening: bool, k: nat, answers: seq<Answer>)
    requires IsSystemRun(x, ss, rs, n, listening) && n < MAX_MESSAGES && k < |ss|
    ensures var d := EngineDrain(ss[k].e, answers);
            d.sound && Harmless(d.w) && |d.w.queue| == d.ring.size <= d.ring.cap
    ensures k > 0 ==> BatchSafe(EngineDrain(ss[k - 1].e, rs[k - 1].answers).w, ss[k].e.w.queue)
  {
    var es, ts := SystemIsRun(x, ss, rs, n, listening, k);
    hide Passes, EngineDrain, EngineStart, Ready, IsSystemRun;
    AlwaysSafe(es, ts, n, listening, k, answers);
    if k > 0 {
      assert Passes(es[k - 1], ts[k - 1], es[k - 1 + 1]);
      PassIsSafe(es[k - 1], ts[k - 1], es[k]);
    }
  }

  lemma SystemIsRun(x: Wiring, ss: seq<System>, rs: seq<Round>, n: nat, listening: bool, k: nat)
      returns (es: seq<Engine>, ts: seq<Turn>)
    requires IsSystemRun(x, ss, rs, n, listening) && n < MAX_MESSAGES && k < |ss|
    ensures IsRun(es, ts, n, listening) && |es| == k + 1 && es[k] == ss[k].e
    ensures k > 0 ==> es[k - 1] == ss[k - 1].e && ts[k - 1] == Turn(rs[k - 1].answers, ss[k].e.w.queue)
  {
    hide Passes, Turns, EngineDrain, EngineStart, Registered, Sane;
    es := seq(k + 1, i requires 0 <= i <= k => ss[i].e);
    ts := seq(k, i requires 0 <= i < k => Turn(rs[i].answers, ss[i + 1].e.w.queue));
    forall i | 0 <= i < k ensures Passes(es[i], ts[i], es[i + 1]) {
      SystemRuns(x, ss, rs, n, listening, i + 1);
    }
  }
}
