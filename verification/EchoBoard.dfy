/** The channels of the server's machines, and their entries in the reactor. */
module EchoBoard {
  import opened EchoServer
  import opened EchoBatches
  import opened EchoReactor
  import EA = EsmaArray
  import T = Template
  import P = PollReactor

  // --------------------------------------------------------------- the channels

  predicate AllDiffer(es: seq<Endpoint>) {
    forall i, j :: 0 <= i < j < |es| ==> es[i] != es[j]
  }

  /** x' has a channel for every one of es besides those of x. */
  ghost predicate Extends(x: Wiring, x': Wiring, es: seq<Endpoint>) {
    && Paired(x') && |x'.owners| == |x.owners| + |es|
    && forall e :: e in x'.wires <==> e in x.wires || e in es
  }

  /** A new channel for every one of es. */
  method Wire(x: Wiring, es: seq<Endpoint>) returns (x': Wiring)
    requires Paired(x) && AllDiffer(es) && forall e :: e in es ==> e !in x.wires
    ensures Extends(x, x', es)
    ensures forall c :: c in x'.owners ==> c in x.owners || fresh(c)
  {
    x' := x;
    assert es[..0] == [];
    hide Paired, Joined, AllDiffer, Extends;
    NoneExtends(x);
    for k := 0 to |es|
      invariant Extends(x, x', es[..k])
      invariant forall c :: c in x'.owners ==> c in x.owners || fresh(c)
    {
      var c := new P.Channel();
      NextExtends(x, x', es, k, c);
      x' := Joined(x', es[k], c);
    }
    assert es[..|es|] == es;
  }

  lemma NoneExtends(x: Wiring)
    requires Paired(x)
    ensures Extends(x, x, [])
  {
  }

  lemma NextExtends(x: Wiring, x': Wiring, es: seq<Endpoint>, k: nat, c: P.Channel)
    requires k < |es| && Extends(x, x', es[..k]) && AllDiffer(es) && es[k] !in x.wires && c !in x'.owners
    ensures Extends(x, Joined(x', es[k], c), es[..k + 1])
    ensures forall d :: d in Joined(x', es[k], c).owners <==> d in x'.owners || d == c
  {
    NextOf(es, k);
    JoinedPairs(x', es[k], c);
    hide Paired, AllDiffer, Joined;
  }

  lemma NextOf(es: seq<Endpoint>, k: nat)
    requires AllDiffer(es) && k < |es|
    ensures es[k] in es && es[k] !in es[..k]
    ensures forall e :: e in es[..k + 1] <==> e in es[..k] || e == es[k]
  {
    assert es[..k + 1] == es[..k] + [es[k]];
  }

  function Joined(x: Wiring, e: Endpoint, c: P.Channel): Wiring {
    Wiring(x.wires[e := c], x.owners[c := e])
  }

  lemma JoinedPairs(x: Wiring, e: Endpoint, c: P.Channel)
    requires Paired(x) && e !in x.wires && c !in x.owners
    ensures var x' := Joined(x, e, c);
            && Paired(x') && |x'.owners| == |x.owners| + 1
            && x'.wires.Keys == x.wires.Keys + {e} && x'.owners.Keys == x.owners.Keys + {c}
  {
    var x' := Joined(x, e, c);
    assert x'.wires.Keys == x.wires.Keys + {e} && x'.owners.Keys == x.owners.Keys + {c};
    assert |x'.owners.Keys| == |x'.owners| && |x.owners.Keys| == |x.owners|;
    JoinedPaired(x, e, c);
    hide Paired;
  }

  lemma JoinedPaired(x: Wiring, e: Endpoint, c: P.Channel)
    requires Paired(x) && e !in x.wires && c !in x.owners
    ensures Paired(Joined(x, e, c))
  {
    var x' := Joined(x, e, c);
    forall f | f in x'.wires ensures x'.wires[f] in x'.owners && x'.owners[x'.wires[f]] == f {
      assert f != e ==> x.wires[f] in x.owners;
    }
    forall d | d in x'.owners ensures x'.owners[d] in x'.wires && x'.wires[x'.owners[d]] == d {
      assert d != c ==> x.owners[d] in x.wires;
    }
  }

  /** The master's timers and signals. */
  function TimersOfMaster(): (es: seq<Endpoint>)
    ensures AllDiffer(es) && |es| == 4
    ensures forall e :: e in es <==> OfWork(e)
  {
    [MasterTimer(0), MasterTimer(3), MasterSign(0), MasterSign(1)]
  }

  /** The timers of slave i. */
  function TimersOf(i: nat): (es: seq<Endpoint>)
    ensures AllDiffer(es) && |es| == 2
    ensures forall e :: e in es <==> e.SlaveTimer? && e.i == i
  {
    var es := [SlaveTimer(i, false), SlaveTimer(i, true)];
    assert es[0] == SlaveTimer(i, false) && es[1] == SlaveTimer(i, true);
    es
  }

  function OfMaster(): seq<Endpoint> {
    TimersOfMaster() + [MasterIo]
  }

  function OfSlave(i: nat): seq<Endpoint> {
    TimersOf(i) + [SlaveIo(i)]
  }

  /** All channels of n slaves and the master. */
  method WireAll(n: nat) returns (x: Wiring)
    ensures Wired(x, n) && |x.owners| == 3 * n + 5
    ensures forall c :: c in x.owners ==> fresh(c)
  {
    var none := Wiring(map[], map[]);
    FirstMade(none);
    hide Made, Extends, AllDiffer, OfMaster, OfSlave;
    x := Wire(none, OfMaster());
    MasterMade(none, x);
    for i := 0 to n
      invariant Made(x, i) && forall c :: c in x.owners ==> fresh(c)
    {
      ghost var before := x;
      MoreExist(i);
      NextMade(x, i);
      x := Wire(x, OfSlave(i));
      SlaveMade(before, x, i);
    }
    AllMade(x, n);
  }

  /** The wiring of the master and i slaves. */
  ghost predicate Made(x: Wiring, i: nat) {
    Wired(x, i) && |x.owners| == 3 * i + 5
  }

  lemma FirstMade(none: Wiring)
    requires none == Wiring(map[], map[])
    ensures Paired(none) && AllDiffer(OfMaster())
  {
    FirstExist();
  }

  lemma MasterMade(none: Wiring, x: Wiring)
    requires none == Wiring(map[], map[]) && Extends(none, x, OfMaster())
    ensures Made(x, 0)
  {
    FirstExist();
    hide OfMaster, Exists, Paired;
  }

  lemma NextMade(x: Wiring, i: nat)
    requires Made(x, i)
    ensures Paired(x) && forall e :: e in OfSlave(i) ==> e !in x.wires
  {
    MoreExist(i);
    hide OfSlave, Exists, Paired;
  }

  lemma SlaveMade(x: Wiring, x': Wiring, i: nat)
    requires Made(x, i) && Extends(x, x', OfSlave(i))
    ensures Made(x', i + 1)
  {
    MoreExist(i);
    hide OfSlave, Exists, Paired;
  }

  lemma AllMade(x: Wiring, n: nat)
    requires Made(x, n)
    ensures Wired(x, n) && |x.owners| == 3 * n + 5
  {
  }

  lemma MoreExists(n: nat)
    ensures forall e: Endpoint :: OfWork(e) || e.MasterIo? ==> Exists(n, e)
  {
  }

  lemma FirstExist()
    ensures AllDiffer(OfMaster()) && |OfMaster()| == 5
    ensures forall e :: Exists(0, e) <==> e in OfMaster()
  {
  }

  lemma MoreExist(i: nat)
    ensures AllDiffer(OfSlave(i)) && |OfSlave(i)| == 3
    ensures forall e :: Exists(i + 1, e) <==> Exists(i, e) || e in OfSlave(i)
    ensures forall e :: e in OfSlave(i) ==> !Exists(i, e)
  {
  }

  // ------------------------------------------------------------------ the board

  lemma KeysFit(s: set<P.Channel?>, t: set<P.Channel?>)
    requires s <= t
    ensures |s| <= |t| && (|s| == |t| ==> s == t)
  {
    assert t == s + (t - s);
  }

  /** Some slave gets two events that it does not survive together. */
  predicate Clashes(w: World, batch: seq<Message>) {
    exists j, k :: 0 <= j < k < |batch| && Clash(w, batch, j, k)
  }

  /** The endpoints that have been registered when i slaves have been made. */
  predicate Begun(e: Endpoint, i: nat, listening: bool) {
    AtStart(e, listening) && Exists(i, e)
  }

  /** The table holds exactly the channels that have been registered then. */
  ghost predicate Holds(x: Wiring, t: Table, i: nat, listening: bool) {
    && (forall c :: c in t ==> c in x.owners && Begun(x.owners[c], i, listening))
    && (forall c :: c in x.owners ==> Begun(x.owners[c], i, listening) ==> c in t)
    && (listening ==> MasterIo in x.wires && x.wires[MasterIo] in t
                      && t[x.wires[MasterIo]].events == P.FlagsOf(T.POLLIN))
  }

  /** The table t' has entries for es that t has not. */
  ghost predicate Gains(x: Wiring, t: Table, t': Table, es: seq<Endpoint>) {
    && t'.Keys <= x.owners.Keys
    && (forall c :: c in x.owners ==> (c in t' <==> c in t || x.owners[c] in es))
    && forall c :: c in t ==> c in t' && t'[c] == t[c]
  }

  lemma NextGained(x: Wiring, n: nat, t: Table, t': Table, es: seq<Endpoint>, k: nat)
    requires Wired(x, n) && k < |es| && AllDiffer(es) && Gains(x, t, t', es[..k])
    requires es[k] in x.wires && x.wires[es[k]] !in t
    ensures x.wires[es[k]] !in t'
  {
    NextOf(es, k);
  }

  lemma NowGained(x: Wiring, n: nat, t: Table, t': Table, es: seq<Endpoint>, k: nat, entry: P.PollFd)
    requires Wired(x, n) && k < |es| && AllDiffer(es) && Gains(x, t, t', es[..k])
    requires es[k] in x.wires && x.wires[es[k]] !in t
    ensures Gains(x, t, t'[x.wires[es[k]] := entry], es[..k + 1])
  {
    NextOf(es, k);
    hide AllDiffer, Exists;
  }

  lemma SlaveHeld(x: Wiring, n: nat, t: Table, t': Table, i: nat)
    requires Wired(x, n) && Holds(x, t, i, true) && Gains(x, t, t', TimersOf(i))
    ensures Holds(x, t', i + 1, true)
  {
    assert forall e: Endpoint :: Begun(e, i + 1, true) <==> Begun(e, i, true) || e in TimersOf(i);
    hide Begun, TimersOf;
  }

  lemma MasterHeld(x: Wiring, n: nat, t: Table)
    requires Wired(x, n) && Gains(x, map[], t, TimersOfMaster())
    ensures Holds(x, t, 0, false) && MasterIo in x.wires && x.wires[MasterIo] !in t
    ensures forall e :: e in x.wires ==> x.wires[e] in x.owners && x.owners[x.wires[e]] == e
  {
    assert Exists(n, MasterIo);
    assert forall e: Endpoint :: Begun(e, 0, false) <==> e in TimersOfMaster();
    hide Begun, TimersOfMaster;
  }

  lemma SocketHeld(x: Wiring, n: nat, t: Table, entry: P.PollFd)
    requires Wired(x, n) && Holds(x, t, 0, false) && MasterIo in x.wires
    ensures Holds(x, Modified(x, t[x.wires[MasterIo] := entry], MasterIo, T.POLLIN), 0, true)
  {
    assert forall e: Endpoint :: Begun(e, 0, true) <==> Begun(e, 0, false) || e.MasterIo?;
    hide Begun;
  }

  /** What the board needs of a reactor that has changed. */
  lemma StillKnown(r: P.Reactor, owners: map<P.Channel?, Endpoint>, repr: set<object>)
    requires r.Shape() && r.Table().Keys <= owners.Keys && forall c: object? :: c in owners ==> c in repr
    ensures r.Members() <= repr
    ensures r.Table() != map[] ==> r.events.items.Length > 0 && r.channels.items.Length > 0
  {
    forall c: object | c in r.Members() ensures c in repr {
      assert c in r.Table().Keys;
    }
  }

  lemma HasShape(r: P.Reactor)
    requires r.Valid()
    ensures r.Shape()
  {
  }

  lemma InWires(x: Wiring, n: nat, e: Endpoint)
    requires Wired(x, n) && Exists(n, e)
    ensures e in x.wires && x.wires[e] in x.owners && x.owners[x.wires[e]] == e
  {
  }

  lemma AddedRow(t: Table, t': Table, c: P.Channel)
    requires c !in t && t'.Keys == t.Keys + {c} && t' - {c} == t
    ensures t' == t[c := t'[c]] && t' != map[]
  {
    forall d | d in t ensures t'[d] == t[d] {
      assert d in t' - {c};
    }
  }

  class Board {
    const n: nat
    const wiring: Wiring
    const reactor: P.Reactor
    ghost const chans: set<object>

    ghost function Repr(): set<object>
      reads reactor.events, reactor.channels
    {
      {reactor, reactor.events, reactor.channels, reactor.events.items, reactor.channels.items} + chans
    }

    ghost predicate Valid()
      reads reactor, reactor.events, reactor.channels, Repr()
    {
      && Wired(wiring, n) && |wiring.owners| == 3 * n + 5 && n < 0x400_0000
      && (forall c: object? :: c in wiring.owners ==> c in chans)
      && Sound()
    }

    /** The reactor holds channels of the wiring only. */
    ghost predicate Sound()
      reads reactor, reactor.events, reactor.channels, Repr()
    {
      && reactor.Shape() && reactor.Members() <= chans && reactor.Valid()
      && reactor.events.itemSize == reactor.channels.itemSize == 8
      && reactor.events.items.Length > 0 && reactor.channels.items.Length > 0
      && reactor.Table().Keys <= wiring.owners.Keys
    }

    /** The reactor's table. */
    ghost function Rows(): Table
      reads reactor, reactor.events, reactor.channels, Repr()
      requires Valid()
    {
      reactor.Table()
    }

    constructor (n: nat)
      requires n < 0x400_0000
      ensures Valid() && fresh(Repr()) && this.n == n && Rows() == map[]
    {
      hide Wired, Paired, P.TableOf;
      this.n := n;
      var x := WireAll(n);
      wiring := x;
      chans := set c: object | c in x.owners;
      reactor := new P.Reactor(32);
      new;
      HasShape(reactor);
      StillKnown(reactor, wiring.owners, chans);
    }

    /** The channel of an endpoint. */
    function At(e: Endpoint): P.Channel
      reads reactor, reactor.events, reactor.channels, Repr()
      requires Valid() && Exists(n, e)
    {
      wiring.wires[e]
    }

    method Add(e: Endpoint, fd: nat, mask: nat) returns (ghost entry: P.PollFd)
      requires Valid() && Exists(n, e) && At(e) !in Rows()
      modifies Repr()
      ensures Valid() && fresh(Repr() - old(Repr())) && Rows() == old(Rows())[At(e) := entry]
      ensures mask != 0 ==> entry.events == P.FlagsOf(mask)
    {
      ghost var c, before := wiring.wires[e], reactor.Table();
      RoomForOne(c);
      InWires(wiring, n, e);
      hide Wired, P.FlagsOf, P.Reactor.Valid, P.Reactor.Shape, P.Reactor.Members, P.Reactor.Table, P.Reactor.HasRoom;
      var outside := reactor.Add(fd, wiring.wires[e], mask);
      HasShape(reactor);
      entry := reactor.Table()[c];
      StillKnown(reactor, wiring.owners, chans);
      AddedRow(before, reactor.Table(), c);
    }

    ghost predicate Registers(i: nat, listening: bool)
      reads reactor, reactor.events, reactor.channels, Repr()
      requires Valid()
    {
      Holds(wiring, Rows(), i, listening)
    }

    /** _esma_register_channels: timers and signals, with no events. */
    method AddAll(es: seq<Endpoint>)
      requires Valid() && AllDiffer(es) && forall e :: e in es ==> Exists(n, e) && At(e) !in Rows()
      modifies Repr()
      ensures Valid() && fresh(Repr() - old(Repr())) && Gains(wiring, old(Rows()), Rows(), es)
    {
      ghost var before := Rows();
      RowsKnown();
      assert Gains(wiring, before, before, es[..0]);
      hide Valid, Wired, Gains, AllDiffer;
      for k := 0 to |es|
        invariant Valid() && fresh(Repr() - old(Repr()))
        invariant Gains(wiring, before, Rows(), es[..k])
      {
        var fd: nat := *;
        ghost var t := Rows();
        NextGained(wiring, n, before, t, es, k);
        ghost var entry := Add(es[k], fd, 0);
        NowGained(wiring, n, before, t, es, k, entry);
      }
      assert es[..|es|] == es;
    }

    /** The master's channels, and those of its IO channel in __master_init_socket. */
    method RegisterMaster(listening: bool)
      requires Valid() && Rows() == map[]
      modifies Repr()
      ensures Valid() && fresh(Repr() - old(Repr())) && Registers(0, listening)
    {
      MoreExists(n);
      RowsKnown();
      hide Valid, Wired, Exists, Holds, Gains, TimersOfMaster, OfWork;
      AddAll(TimersOfMaster());
      MasterHeld(wiring, n, Rows());
      if listening {
        OpenSocket();
      }
    }

    /** The part of __master_init_socket that registers the master's IO channel. */
    method OpenSocket()
      requires Valid() && Registers(0, false) && Exists(n, MasterIo) && At(MasterIo) !in Rows()
      modifies Repr()
      ensures Valid() && fresh(Repr() - old(Repr())) && Registers(0, true)
    {
      RowsKnown();
      hide Valid, Wired, Exists, Holds;
      var fd: nat := *;
      ghost var t := Rows();
      ghost var entry := Add(MasterIo, fd, 0);
      Mod(MasterIo, T.POLLIN);
      SocketHeld(wiring, n, t, entry);
    }

    lemma RowsKnown()
      requires Valid()
      ensures Wired(wiring, n) && Rows().Keys <= wiring.owners.Keys
    {
    }

    method RegisterSlave(i: nat)
      requires Valid() && i < n && Registers(i, true)
      modifies Repr()
      ensures Valid() && fresh(Repr() - old(Repr())) && Registers(i + 1, true)
    {
      ghost var t := Rows();
      SlaveBegins(i);
      RowsKnown();
      hide Valid, Wired, Exists, Holds, Gains, TimersOf;
      AddAll(TimersOf(i));
      SlaveHeld(wiring, n, t, Rows(), i);
    }

    lemma SlaveBegins(i: nat)
      requires Valid() && i < n && Registers(i, true)
      ensures forall e :: e in TimersOf(i) ==> Exists(n, e) && At(e) !in Rows()
    {
    }

    /** Where the channel of an endpoint is found. */
    lemma Places(e: Endpoint)
      requires Valid() && e in wiring.wires
      ensures Exists(n, e) && At(e) == wiring.wires[e]
    {
    }

    method Mod(e: Endpoint, mask: nat)
      requires Valid() && Exists(n, e) && At(e) in Rows()
      modifies Repr()
      ensures Valid() && Repr() == old(Repr()) && Rows() == Modified(wiring, old(Rows()), e, mask)
    {
      InWires(wiring, n, e);
      hide Wired;
      var err, outside := reactor.Mod(wiring.wires[e], mask);
    }

    method Del(e: Endpoint)
      requires Valid() && Exists(n, e) && At(e) in Rows()
      modifies Repr()
      ensures Valid() && Repr() == old(Repr()) && Rows() == old(Rows()) - {At(e)}
    {
      InWires(wiring, n, e);
      hide Wired, P.FlagsOf, P.Reactor.Valid, P.Reactor.Shape, P.Reactor.Members, P.Reactor.Table, P.Reactor.Leaving;
      var err, outside := reactor.Del(wiring.wires[e]);
      HasShape(reactor);
      StillKnown(reactor, wiring.owners, chans);
    }

    /** __start_channels of `work` */
    method StartWork()
      requires Valid() && forall e :: OfWork(e) ==> Exists(n, e) && At(e) in Rows()
      modifies Repr()
      ensures Valid() && Repr() == old(Repr()) && Rows() == WorkStarted(wiring, old(Rows()))
    {
      hide Valid, Rows, Repr;
      Mod(MasterTimer(0), T.POLLIN);
      Mod(MasterTimer(3), T.POLLIN);
      Mod(MasterSign(0), T.POLLIN);
      Mod(MasterSign(1), T.POLLIN);
    }

    /** __stop_channels of `work` */
    method StopWork()
      requires Valid() && forall e :: OfWork(e) ==> Exists(n, e) && At(e) in Rows()
      modifies Repr()
      ensures Valid() && Repr() == old(Repr()) && Rows() == WorkStopped(wiring, old(Rows()))
    {
      hide Valid, Rows, Repr;
      Mod(MasterTimer(0), 0);
      Mod(MasterTimer(3), 0);
    }

    /** What poll(2) may report now. */
    predicate CanReport(w: World, revents: seq<set<P.Flag>>)
      reads reactor, reactor.events, reactor.channels, Repr()
      requires Valid()
    {
      var chs, fds := reactor.channels.Contents(), reactor.events.Contents();
      && |revents| == |fds|
      && forall i :: 0 <= i < |revents| ==>
           && chs[i] in wiring.owners && MayReport(w, wiring.owners[chs[i]], fds[i], revents[i])
           && (fds[i].fd == -1 ==> revents[i] == {})
    }

    /** What it reports, when the server is as in w, but for events that the server would
        not survive and messages that it has no room for. */
    method Report(w: World, room: nat) returns (revents: seq<set<P.Flag>>, interrupted: bool)
      requires Valid()
      ensures CanReport(w, revents)
      ensures !interrupted ==> Welcome(w, room, revents)
    {
      revents, interrupted := *, *;
      if interrupted || !CanReport(w, revents) {
        NoneCanReport(w);
        return Quiet(), true;
      }
      if !Welcome(w, room, revents) {
        NoneCanReport(w);
        return Quiet(), true;
      }
    }

    function Quiet(): seq<set<P.Flag>>
      reads reactor, reactor.events, reactor.channels, Repr()
    {
      seq(reactor.events.nitems, _ => {})
    }

    lemma NoneCanReport(w: World)
      requires Valid()
      ensures CanReport(w, Quiet())
    {
      AllKnown();
      hide Wired, P.TableOf, P.Placed;
    }

    predicate Welcome(w: World, room: nat, revents: seq<set<P.Flag>>)
      reads reactor, reactor.events, reactor.channels, Repr()
      requires Valid() && |revents| == |reactor.events.Contents()|
    {
      var posted := P.Posts(reactor.channels.Contents(), revents);
      && (forall k :: 0 <= k < |posted| ==> posted[k].channel in wiring.owners)
      && var batch := Batch(wiring.owners, posted);
      |batch| <= room && !Clashes(w, batch)
    }

    lemma AllKnown()
      requires Valid()
      ensures forall c :: c in reactor.channels.Contents() ==> c in wiring.owners
    {
      assert forall c :: c in reactor.channels.Contents() ==> c in Rows();
    }

    /** poll_reactor__wait */
    method Wait(w: World, room: nat) returns (ghost p: Poll, batch: seq<Message>)
      requires Valid()
      modifies Repr()
      ensures Valid() && fresh(Repr() - old(Repr()))
      ensures Polls(w, wiring, old(Rows()), p) && Brings(wiring, p, batch) && Rows() == Noted(old(Rows()), p)
      ensures |batch| <= room && forall j: nat, k: nat :: !Clash(w, batch, j, k)
    {
      var revents, interrupted := Report(w, room);
      p := Poll(reactor.channels.Contents(), reactor.events.Contents(), revents, interrupted);
      Reports(w, room, p);
      hide Wired, Polls, Brings, Noted, Clash, CanReport, Welcome, P.Posts, P.CountReady, P.Reactor.Members;
      var result := if interrupted then -1 else P.CountReady(revents);
      var posted, exited := reactor.Wait(result, interrupted, revents);
      HasShape(reactor);
      batch := if interrupted then [] else Batch(wiring.owners, posted);
      StillKnown(reactor, wiring.owners, chans);
    }

    lemma Reports(w: World, room: nat, p: Poll)
      requires Valid() && CanReport(w, p.revents) && (!p.interrupted ==> Welcome(w, room, p.revents))
      requires p.chs == reactor.channels.Contents() && p.fds == reactor.events.Contents()
      ensures Polls(w, wiring, Rows(), p)
      ensures forall i :: 0 <= i < |p.revents| && p.fds[i].fd == -1 ==> p.revents[i] == {}
      ensures var posted := P.Posts(p.chs, p.revents);
              !p.interrupted ==>
                && (forall k :: 0 <= k < |posted| ==> posted[k].channel in wiring.owners)
                && var batch := Batch(wiring.owners, posted);
                   Brings(wiring, p, batch) && |batch| <= room && forall j: nat, k: nat :: !Clash(w, batch, j, k)
      ensures p.interrupted ==> Brings(wiring, p, []) && forall j: nat, k: nat :: !Clash(w, [], j, k)
      ensures Noted(Rows(), p) == if p.interrupted then Rows() else P.TableOf(p.chs, P.Reported(p.fds, p.revents))
      ensures P.TableOf(p.chs, P.Reported(p.fds, p.revents)).Keys == Rows().Keys
    {
      P.PlacedDistinct(p.chs);
      P.SameKeys(p.chs, p.fds, P.Reported(p.fds, p.revents));
      hide Wired, MayReport, P.Posts, P.TableOf, P.CountReady;
    }

    /** The arrays can take the entry of a channel that has none. */
    lemma RoomForOne(c: P.Channel)
      requires Valid() && c in wiring.owners && c !in Rows()
      ensures reactor.HasRoom()
    {
      var chs, fds := reactor.channels.Contents(), reactor.events.Contents();
      P.PlacedDistinct(chs);
      P.TableSize(chs, fds);
      assert |Rows().Keys| == |Rows()| && |wiring.owners.Keys| == |wiring.owners|;
      KeysFit(Rows().Keys, wiring.owners.Keys);
      assert reactor.events.nitems < 3 * n + 5;
      RoomToDouble(reactor.events);
      RoomToDouble(reactor.channels);
    }
  }

  lemma RoomToDouble<T(0)>(a: EA.EsmaArray<T>)
    requires a.Valid() && a.itemSize == 8 && 0 < a.items.Length && a.nitems < 0x1000_0000
    ensures a.HasRoom()
  {
    if a.items.Length < 0x1000_0000 {
      EA.DoublingWorks(a.items.Length);
    }
  }
}
