/** The reactor on poll(2): two parallel arrays, with the place of a channel in
    them written into the channel. */
module PollReactor {
  import opened Template
  import EA = EsmaArray

  /** The events of poll(2) that matter here. */
  datatype Flag = In | Out | Err | Hup | Other

  datatype PollFd = PollFd(fd: int, events: set<Flag>, revents: set<Flag>)

  const ZERO := PollFd(0, {}, {})

  class Channel {
    var index: int

    constructor ()
      ensures index == 0
    {
      index := 0;
    }
  }

  /** An event mask of the engine as flags for poll. */
  function FlagsOf(events: nat): set<Flag> {
    (if events % 2 == 1 then {In} else {}) + (if events / 2 % 2 == 1 then {Out} else {})
  }

  /** The masks that the engine uses; hang-ups and errors are reported unasked. */
  lemma FlagsAre()
    ensures FlagsOf(POLLIN) == {In} && FlagsOf(POLLOUT) == {Out} && FlagsOf(POLLIN + POLLOUT) == {In, Out}
    ensures FlagsOf(0) == FlagsOf(POLLHUP) == FlagsOf(POLLERR) == {}
  {
  }

  /** What a channel is told: the first that applies. */
  function CodeOf(revents: set<Flag>): nat {
    if In in revents then POLLIN
    else if Out in revents then POLLOUT
    else if Err in revents then POLLERR
    else if Hup in revents then POLLHUP
    else 0
  }

  /** The message says that there is input, or else that there is room for output, or
      else an error, or else a hang-up, or else nothing. */
  predicate Tells(code: nat, revents: set<Flag>) {
    && (code == 1 <==> In in revents)
    && (code == 2 <==> Out in revents && In !in revents)
    && (code == 8 <==> Err in revents && In !in revents && Out !in revents)
    && (code == 4 <==> Hup in revents && In !in revents && Out !in revents && Err !in revents)
    && (code == 0 <==> revents * {In, Out, Err, Hup} == {})
  }

  // ------------------------------------------------------------- what is posted

  function Reported(fds: seq<PollFd>, revents: seq<set<Flag>>): (r: seq<PollFd>)
    requires |fds| == |revents|
    ensures |r| == |fds|
  {
    seq(|fds|, i requires 0 <= i < |fds| => fds[i].(revents := revents[i]))
  }

  datatype Message = Message(channel: Channel?, code: nat)

  /** poll(2)'s result: how many entries have something to report. */
  function CountReady(rs: seq<set<Flag>>): (n: nat)
    ensures n <= |rs|
  {
    if rs == [] then 0
    else
      var n := |rs| - 1;
      CountReady(rs[..n]) + if rs[n] == {} then 0 else 1
  }

  /** One message for every entry with something to report, in order. */
  function Posts(chs: seq<Channel?>, rs: seq<set<Flag>>): (ms: seq<Message>)
    requires |chs| == |rs|
    ensures |ms| == CountReady(rs)
  {
    if rs == [] then []
    else
      var n := |rs| - 1;
      Posts(chs[..n], rs[..n]) + if rs[n] == {} then [] else [Message(chs[n], CodeOf(rs[n]))]
  }

  /** The i-th entry's message has exactly the ready entries before it in front. */
  lemma {:induction false} PostsOwn(chs: seq<Channel?>, rs: seq<set<Flag>>, i: nat)
    requires |chs| == |rs| && i < |rs| && rs[i] != {}
    ensures CountReady(rs[..i]) < CountReady(rs)
    ensures Posts(chs, rs)[CountReady(rs[..i])] == Message(chs[i], CodeOf(rs[i]))
    decreases |rs|
  {
    var n := |rs| - 1;
    if i < n {
      PostsOwn(chs[..n], rs[..n], i);
      assert rs[..n][..i] == rs[..i];
    }
  }

  lemma CodeTells(revents: set<Flag>)
    ensures Tells(CodeOf(revents), revents)
  {
    if f :| f in revents && f in {In, Out, Err, Hup} {
      assert f in revents * {In, Out, Err, Hup};
    } else {
      assert revents * {In, Out, Err, Hup} == {};
    }
  }

  /** Every entry with something to report is told so, behind those before it. */
  predicate AllTold(chs: seq<Channel?>, rs: seq<set<Flag>>, ms: seq<Message>)
    requires |chs| == |rs|
  {
    forall i :: 0 <= i < |rs| && rs[i] != {} ==>
      var k := CountReady(rs[..i]);
      k < |ms| && ms[k].channel == chs[i] && Tells(ms[k].code, rs[i])
  }

  lemma PostsTell(chs: seq<Channel?>, rs: seq<set<Flag>>)
    requires |chs| == |rs|
    ensures AllTold(chs, rs, Posts(chs, rs))
  {
    hide Posts, CountReady, Tells;
    forall i | 0 <= i < |rs| && rs[i] != {}
      ensures CountReady(rs[..i]) < |Posts(chs, rs)|
      ensures Posts(chs, rs)[CountReady(rs[..i])].channel == chs[i]
      ensures Tells(Posts(chs, rs)[CountReady(rs[..i])].code, rs[i])
    {
      PostsOwn(chs, rs, i);
      CodeTells(rs[i]);
    }
  }

  /** And nothing else is posted. */
  lemma {:induction false} PostsOnly(chs: seq<Channel?>, rs: seq<set<Flag>>, k: nat) returns (i: nat)
    requires |chs| == |rs| && k < CountReady(rs)
    ensures i < |rs| && rs[i] != {} && k == CountReady(rs[..i])
    decreases |rs|
  {
    var n := |rs| - 1;
    if k < CountReady(rs[..n]) {
      i := PostsOnly(chs[..n], rs[..n], k);
      assert rs[..n][..i] == rs[..i];
    } else {
      i := n;
    }
  }

  /** Once all ready entries have been seen, the rest posts nothing. */
  lemma {:induction false} PostsRest(chs: seq<Channel?>, rs: seq<set<Flag>>, i: nat)
    requires |chs| == |rs| && i <= |rs|
    ensures CountReady(rs[..i]) <= CountReady(rs)
    ensures CountReady(rs[..i]) == CountReady(rs) ==> Posts(chs[..i], rs[..i]) == Posts(chs, rs)
    decreases |rs|
  {
    if i == |rs| {
      assert rs[..i] == rs && chs[..i] == chs;
    } else {
      var n := |rs| - 1;
      PostsRest(chs[..n], rs[..n], i);
      assert rs[..n][..i] == rs[..i] && chs[..n][..i] == chs[..i];
    }
  }

  lemma PostsSnoc(chs: seq<Channel?>, rs: seq<set<Flag>>, i: nat)
    requires |chs| == |rs| && i < |rs|
    ensures CountReady(rs[..i + 1]) == CountReady(rs[..i]) + if rs[i] == {} then 0 else 1
    ensures Posts(chs[..i + 1], rs[..i + 1]) ==
            if rs[i] == {} then Posts(chs[..i], rs[..i])
            else Posts(chs[..i], rs[..i]) + [Message(chs[i], CodeOf(rs[i]))]
  {
    assert rs[..i + 1][..i] == rs[..i] && chs[..i + 1][..i] == chs[..i];
  }

  lemma PostsNone(chs: seq<Channel?>, rs: seq<set<Flag>>)
    requires |chs| == |rs|
    ensures CountReady(rs[..0]) == 0 && Posts(chs[..0], rs[..0]) == []
  {
  }

  // ------------------------------------------------------------------ the map

  /** The arrays as a finite map from channels to their entries. */
  function TableOf(chs: seq<Channel?>, fds: seq<PollFd>): (t: map<Channel?, PollFd>)
    requires |chs| == |fds|
    ensures t.Keys == set c | c in chs
  {
    if chs == [] then map[]
    else
      var n := |chs| - 1;
      assert chs == chs[..n] + [chs[n]];
      TableOf(chs[..n], fds[..n])[chs[n] := fds[n]]
  }

  ghost predicate Distinct(chs: seq<Channel?>) {
    forall i, j :: 0 <= i < j < |chs| ==> chs[i] != chs[j]
  }

  lemma {:induction false} TableAt(chs: seq<Channel?>, fds: seq<PollFd>, i: nat)
    requires |chs| == |fds| && Distinct(chs) && i < |chs|
    ensures chs[i] in TableOf(chs, fds) && TableOf(chs, fds)[chs[i]] == fds[i]
    decreases |chs|
  {
    var n := |chs| - 1;
    if i < n {
      TableAt(chs[..n], fds[..n], i);
    }
  }

  lemma TableSnoc(chs: seq<Channel?>, fds: seq<PollFd>, ch: Channel, fd: PollFd)
    requires |chs| == |fds|
    ensures TableOf(chs + [ch], fds + [fd]) == TableOf(chs, fds)[ch := fd]
    ensures ch !in chs ==> TableOf(chs, fds)[ch := fd] - {ch} == TableOf(chs, fds)
  {
    assert (chs + [ch])[..|chs|] == chs && (fds + [fd])[..|fds|] == fds;
  }

  lemma SameKeys(chs: seq<Channel?>, fds: seq<PollFd>, fds': seq<PollFd>)
    requires |chs| == |fds| == |fds'|
    ensures TableOf(chs, fds).Keys == TableOf(chs, fds').Keys
  {
  }

  lemma TableAdd(chs: seq<Channel?>, fds: seq<PollFd>, ch: Channel, fd: PollFd)
    requires |chs| == |fds| && Distinct(chs)
    ensures ch in TableOf(chs, fds) <==> ch in chs
    ensures |TableOf(chs, fds)| == |chs|
    ensures ch !in chs ==>
              var t := TableOf(chs + [ch], fds + [fd]);
              t.Keys == TableOf(chs, fds).Keys + {ch} && t - {ch} == TableOf(chs, fds) && t[ch] == fd
  {
    TableSize(chs, fds);
    TableSnoc(chs, fds, ch, fd);
    hide TableOf, Distinct;
  }

  lemma {:induction false} TableSize(chs: seq<Channel?>, fds: seq<PollFd>)
    requires |chs| == |fds| && Distinct(chs)
    ensures |TableOf(chs, fds)| == |chs|
    decreases |chs|
  {
    if chs != [] {
      var n := |chs| - 1;
      TableSize(chs[..n], fds[..n]);
      var t := TableOf(chs[..n], fds[..n]);
      assert chs[n] !in t;
      assert |t[chs[n] := fds[n]]| == |t| + 1;
    }
  }

  /** s without its i-th element, which the last one replaces. */
  function Filled<T>(s: seq<T>, i: nat): (r: seq<T>)
    requires i < |s|
    ensures |r| == |s| - 1
    ensures forall k :: 0 <= k < |r| ==> r[k] == if k == i then s[|s| - 1] else s[k]
  {
    var n := |s| - 1;
    if i == n then s[..n] else s[..n][i := s[n]]
  }

  lemma FilledKeeps(chs: seq<Channel?>, i: nat)
    requires Distinct(chs) && i < |chs|
    ensures Distinct(Filled(chs, i))
    ensures forall c :: c in Filled(chs, i) <==> c in chs && c != chs[i]
  {
    var n, r := |chs| - 1, Filled(chs, i);
    hide Filled;
    forall c | c in chs && c != chs[i] ensures c in r {
      var k :| 0 <= k < |chs| && chs[k] == c;
      assert r[if k == n then i else k] == c;
    }
    forall c | c in r ensures c in chs && c != chs[i] {
      var k :| 0 <= k < |r| && r[k] == c;
      assert c == chs[if k == i then n else k];
    }
  }

  /** Filling the hole that a removed entry leaves with the last one. */
  lemma TableDel(chs: seq<Channel?>, fds: seq<PollFd>, i: nat)
    requires |chs| == |fds| && Distinct(chs) && i < |chs|
    ensures TableOf(Filled(chs, i), Filled(fds, i)) == TableOf(chs, fds) - {chs[i]}
  {
    var n := |chs| - 1;
    var chs', fds' := Filled(chs, i), Filled(fds, i);
    hide TableOf, Filled, Distinct;
    FilledKeeps(chs, i);
    var t, t' := TableOf(chs, fds) - {chs[i]}, TableOf(chs', fds');
    assert t'.Keys == t.Keys;
    forall c | c in t' ensures t'[c] == t[c] {
      var k :| 0 <= k < n && chs'[k] == c;
      FilledAt(chs, fds, i, k);
    }
  }

  lemma FilledAt(chs: seq<Channel?>, fds: seq<PollFd>, i: nat, k: nat)
    requires |chs| == |fds| && i < |chs| && k < |chs| - 1 && Distinct(chs) && Distinct(Filled(chs, i))
    ensures var c := Filled(chs, i)[k];
            && c in TableOf(Filled(chs, i), Filled(fds, i)) && c in TableOf(chs, fds)
            && TableOf(Filled(chs, i), Filled(fds, i))[c] == TableOf(chs, fds)[c]
  {
    TableAt(Filled(chs, i), Filled(fds, i), k);
    TableAt(chs, fds, if k == i then |chs| - 1 else k);
    hide TableOf, Filled, Distinct;
  }

  lemma TableSet(chs: seq<Channel?>, fds: seq<PollFd>, i: nat, fd: PollFd)
    requires |chs| == |fds| && Distinct(chs) && i < |chs|
    ensures TableOf(chs, fds[i := fd]) == TableOf(chs, fds)[chs[i] := fd]
  {
    var t, t' := TableOf(chs, fds), TableOf(chs, fds[i := fd]);
    forall c | c in t' ensures t'[c] == t[chs[i] := fd][c] {
      var k :| 0 <= k < |chs| && chs[k] == c;
      TableAt(chs, fds, k);
      TableAt(chs, fds[i := fd], k);
    }
  }

  // -------------------------------------------------------------- the reactor

  ghost predicate Placed(chs: seq<Channel?>)
    reads set c: object | c in chs
  {
    forall i :: 0 <= i < |chs| ==> chs[i] != null && chs[i].index == i
  }

  lemma PlacedDistinct(chs: seq<Channel?>)
    requires Placed(chs)
    ensures Distinct(chs)
  {
  }

  /** A registered channel stands where it believes. */
  lemma OwnPlace(chs: seq<Channel?>, ch: Channel)
    requires Placed(chs)
    ensures ch in chs ==> 0 <= ch.index < |chs| && chs[ch.index] == ch
  {
  }

  class Reactor {
    const events: EA.EsmaArray<PollFd>
    const channels: EA.EsmaArray<Channel?>

    ghost predicate Shape()
      reads this, events, events.items, channels, channels.items
    {
      && events.Valid() && channels.Valid()
      && events.nitems == channels.nitems
    }

    ghost function Members(): set<object>
      reads this, channels, channels.items
    {
      if channels.Valid() then set c: object | c in channels.Contents() else {}
    }

    /** Every channel knows its place. */
    ghost predicate Valid()
      reads this, events, events.items, channels, channels.items, Members()
    {
      Shape() && Placed(channels.Contents())
    }

    ghost function Table(): map<Channel?, PollFd>
      reads this, events, events.items, channels, channels.items
      requires Shape()
    {
      TableOf(channels.Contents(), events.Contents())
    }

    predicate HasRoom()
      reads this, events, events.items, channels, channels.items
      requires Shape()
    {
      events.HasRoom() && channels.HasRoom()
    }

    /** poll_reactor__init */
    constructor (nevents: nat)
      ensures Valid() && Table() == map[]
      ensures fresh(events) && fresh(events.items) && fresh(channels) && fresh(channels.items)
      ensures events.items.Length == channels.items.Length == nevents
      ensures events.itemSize == channels.itemSize == 8
    {
      events := new EA.EsmaArray<PollFd>(nevents, 8, ZERO);
      channels := new EA.EsmaArray<Channel?>(nevents, 8, null);
    }

    /** poll_reactor__add. Without events the mask stays what the slot held. Adding a
        channel twice leaves it with one place for two entries. */
    method Add(fd: int, ch: Channel, mask: nat) returns (outside: bool)
      requires Valid()
      modifies events, events.items, channels, channels.items, ch
      ensures outside <==> !old(HasRoom())
      ensures !outside ==> (Valid() <==> ch !in old(Table()))
      ensures !outside && Valid() ==>
                && Table().Keys == old(Table().Keys) + {ch} && Table() - {ch} == old(Table())
                && Table()[ch].fd == fd && (mask != 0 ==> Table()[ch].events == FlagsOf(mask))
                && ch.index == |old(Table())|
      ensures events.items == old(events.items) || fresh(events.items)
      ensures channels.items == old(channels.items) || fresh(channels.items)
    {
      hide TableOf, Distinct, Placed, FlagsOf;
      ghost var chs, fds := channels.Contents(), events.Contents();
      PlacedDistinct(chs);
      outside := AppendPlaced(fd, ch, mask);
      if !outside {
        TableAdd(chs, fds, ch, events.Contents()[|fds|]);
      }
    }

    method AppendPlaced(fd: int, ch: Channel, mask: nat) returns (outside: bool)
      requires Valid()
      modifies events, events.items, channels, channels.items, ch
      ensures outside <==> !old(HasRoom())
      ensures !outside ==>
                && Shape() && channels.Contents() == old(channels.Contents()) + [ch]
                && |events.Contents()| == |old(events.Contents())| + 1
                && events.Contents() == old(events.Contents()) + [events.Contents()[|old(events.Contents())|]]
                && var e := events.Contents()[|old(events.Contents())|];
                   e.fd == fd && (mask != 0 ==> e.events == FlagsOf(mask))
      ensures !outside ==>
                ch.index == |old(channels.Contents())|
                && (Placed(channels.Contents()) <==> ch !in old(channels.Contents()))
      ensures events.items == old(events.items) || fresh(events.items)
      ensures channels.items == old(channels.items) || fresh(channels.items)
    {
      ghost var chs := channels.Contents();
      outside := Append(fd, ch, mask);
      if !outside {
        TakePlace(ch, chs);
      }
      hide Placed, FlagsOf;
    }

    /** The part of poll_reactor__add that tells the channel its place. */
    method TakePlace(ch: Channel, ghost chs: seq<Channel?>)
      requires Shape() && channels.Contents() == chs + [ch] && Placed(chs)
      modifies ch
      ensures ch.index == |chs| && (Placed(channels.Contents()) <==> ch !in chs)
    {
      ch.index := events.nitems - 1;
      if ch in chs {
        ghost var i :| 0 <= i < |chs| && chs[i] == ch;
        assert channels.Contents()[i] == ch && ch.index != i;
      } else {
        assert forall i :: 0 <= i < |chs| ==> channels.Contents()[i] == chs[i] && chs[i] != ch;
      }
    }

    /** The part of poll_reactor__add that fills the new slots. */
    method Append(fd: int, ch: Channel, mask: nat) returns (outside: bool)
      requires Shape()
      modifies events, events.items, channels, channels.items
      ensures outside <==> !old(HasRoom())
      ensures !outside ==>
                && Shape() && channels.Contents() == old(channels.Contents()) + [ch]
                && |events.Contents()| == |old(events.Contents())| + 1
                && events.Contents() == old(events.Contents()) + [events.Contents()[|old(events.Contents())|]]
                && var e := events.Contents()[|old(events.Contents())|];
                   e.fd == fd && (mask != 0 ==> e.events == FlagsOf(mask))
      ensures events.items == old(events.items) || fresh(events.items)
      ensures channels.items == old(channels.items) || fresh(channels.items)
    {
      var e, outsideEvents := events.Push();
      var c, outsideChannels := channels.Push();
      if outsideEvents || outsideChannels {
        return true;
      }
      assert channels.Contents()[..c] == old(channels.Contents());
      events.Set(e, events.items[e].(fd := fd));
      channels.Set(c, ch);
      assert channels.Contents() == channels.Contents()[..c] + [ch];
      if mask != 0 {
        events.Set(e, events.items[e].(events := FlagsOf(mask)));
      }
      assert events.Contents()[..e] == old(events.Contents());
      return false;
    }

    /** The entry that goes when a channel believes in place i: the one there, or the last
        if there is none. */
    function Leaving(i: nat): nat
      reads this, events
      requires events.nitems > 0
    {
      if i < events.nitems then i else events.nitems - 1
    }

    /** poll_reactor__del: the last entry moves into the hole. It goes by the place
        that the channel believes in, which is its own if it is registered. With no
        entry at all, or a place behind the memory, the code writes outside. */
    method Del(ch: Channel) returns (err: bool, outside: bool)
      requires Valid()
      modifies events, events.items, channels, channels.items, Members(), ch
      ensures err <==> old(ch.index) < 0
      ensures outside <==> old(ch.index >= 0 && (events.nitems == 0 || ch.index >= events.items.Length
                                                 || ch.index >= channels.items.Length))
      ensures !outside ==> Valid()
      ensures err ==> Table() == old(Table()) && ch.index == old(ch.index)
      ensures !err && !outside ==>
                Table() == old(Table()) - {old(channels.Contents()[Leaving(ch.index)])} && ch.index == -1
      ensures old(ch in Table()) ==> !err && !outside && Table() == old(Table()) - {ch}
      ensures events.items == old(events.items) && channels.items == old(channels.items)
    {
      hide TableOf, Distinct, Filled;
      ghost var chs, fds := channels.Contents(), events.Contents();
      OwnPlace(chs, ch);
      if ch.index < 0 {
        return true, false;
      }
      if events.nitems == 0 || ch.index >= events.items.Length || ch.index >= channels.items.Length {
        return false, true;
      }
      ghost var i := Leaving(ch.index);
      PlacedDistinct(chs);
      TableDel(chs, fds, i);
      FilledKeeps(chs, i);
      RemoveEntry(ch.index);
      LeavePlace(ch, chs, i);
      return false, false;
    }

    /** The part of poll_reactor__del that tells the moved channel its new place. */
    method LeavePlace(ch: Channel, ghost chs: seq<Channel?>, ghost i: nat)
      requires Shape() && Placed(chs) && i < |chs| && channels.Contents() == Filled(chs, i)
      requires 0 <= ch.index < channels.items.Length && channels.items[ch.index] == chs[|chs| - 1]
      requires i == (if ch.index < |chs| then ch.index else |chs| - 1) && ch !in channels.Contents()
      modifies (set c: object | c in chs), ch
      ensures ch.index == -1 && Placed(channels.Contents())
    {
      hide Filled;
      var last := channels.items[ch.index];
      last.index := ch.index;
      ch.index := -1;
      forall k | 0 <= k < |channels.Contents()|
        ensures channels.Contents()[k] != null && channels.Contents()[k].index == k
      {
        assert channels.Contents()[k] == if k == i then chs[|chs| - 1] else chs[k];
      }
    }

    /** The part of poll_reactor__del that moves the last entries. */
    method RemoveEntry(i: nat)
      requires Shape() && events.nitems > 0 && i < events.items.Length && i < channels.items.Length
      modifies events, events.items, channels, channels.items
      ensures Shape() && channels.Contents() == Filled(old(channels.Contents()), old(Leaving(i)))
      ensures events.Contents() == Filled(old(events.Contents()), old(Leaving(i)))
      ensures channels.items == old(channels.items) && events.items == old(events.items)
      ensures i < channels.items.Length && channels.items[i] == old(channels.Contents())[|old(channels.Contents())| - 1]
    {
      var lastEvent := events.Pop();
      var lastChannel := channels.Pop();
      events.Set(i, lastEvent.value);
      channels.Set(i, lastChannel.value);
    }

    /** poll_reactor__mod, likewise by the place that the channel believes in. Behind the
        memory there is no entry, and the code writes through NULL. */
    method Mod(ch: Channel, mask: nat) returns (err: bool, outside: bool)
      requires Valid()
      modifies events.items
      ensures Valid() && (err <==> ch.index < 0) && (outside <==> ch.index >= events.items.Length)
      ensures err || outside || ch.index >= events.nitems ==> Table() == old(Table())
      ensures 0 <= ch.index < events.nitems ==>
                var d := channels.Contents()[ch.index];
                Table() == old(Table())[d := old(Table())[d].(events := FlagsOf(mask))]
      ensures old(ch in Table()) ==> !err && !outside && channels.Contents()[ch.index] == ch
    {
      hide TableOf, Distinct;
      ghost var chs, fds := channels.Contents(), events.Contents();
      OwnPlace(chs, ch);
      if ch.index < 0 {
        return true, false;
      }
      if ch.index >= events.items.Length {
        return false, true;
      }
      if ch.index < events.nitems {
        PlacedDistinct(chs);
        TableAt(chs, fds, ch.index);
        TableSet(chs, fds, ch.index, fds[ch.index].(events := FlagsOf(mask)));
      }
      events.Set(ch.index, events.items[ch.index].(events := FlagsOf(mask)));
      return false, false;
    }

    /** poll_reactor__wait, with what poll(2) returned and wrote. It posts one
        message for each ready entry and stops looking after the last. */
    method Wait(result: int, interrupted: bool, revents: seq<set<Flag>>) returns (posted: seq<Message>, exited: bool)
      requires Valid() && |revents| == events.nitems
      requires result == -1 || result == CountReady(revents)
      requires forall i :: 0 <= i < |revents| && events.Contents()[i].fd == -1 ==> revents[i] == {}
      modifies events.items
      ensures Valid() && channels.Contents() == old(channels.Contents())
      ensures result == -1 ==> posted == [] && (exited <==> !interrupted) && events.Contents() == old(events.Contents())
      ensures result != -1 ==> !exited && posted == Posts(channels.Contents(), revents)
      ensures result != -1 ==> events.Contents() == Reported(old(events.Contents()), revents)
      ensures result != -1 ==> AllTold(channels.Contents(), revents, posted)
    {
      posted, exited := [], false;
      if result == -1 {
        return [], !interrupted;
      }
      ghost var before := events.Contents();
      SystemReports(revents);
      PostsNone(channels.Contents(), revents);
      PostsTell(channels.Contents(), revents);
      hide Posts, CountReady, AllTold, CodeOf;
      var ready, i := result, 0;
      ghost var chs := channels.Contents();
      while i < events.nitems && ready != 0
        invariant i <= events.nitems && ready == CountReady(revents) - CountReady(revents[..i])
        invariant posted == Posts(chs[..i], revents[..i])
        modifies {}
        decreases events.nitems - i
      {
        var pfd := events.items[i];
        assert pfd == events.Contents()[i] == before[i].(revents := revents[i]);
        PostsSnoc(chs, revents, i);
        if pfd.fd != -1 && pfd.revents != {} {
          posted := posted + [Message(channels.items[i], CodeOf(pfd.revents))];
          ready := ready - 1;
        }
        i := i + 1;
      }
      PostsRest(chs, revents, i);
      assert i == |revents| ==> revents[..i] == revents;
    }

    /** What poll(2) writes. */
    method SystemReports(revents: seq<set<Flag>>)
      requires events.Valid() && |revents| == events.nitems
      modifies events.items
      ensures events.Contents() == Reported(old(events.Contents()), revents)
    {
      for i := 0 to events.nitems
        invariant forall k :: 0 <= k < i ==> events.items[k] == old(events.items[k]).(revents := revents[k])
        invariant forall k :: i <= k < events.items.Length ==> events.items[k] == old(events.items[k])
      {
        events.items[i] := events.items[i].(revents := revents[i]);
      }
    }
  }
}
