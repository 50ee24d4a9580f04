/** The programs of slave.esma and master.esma. */
module EchoProgram {
  import opened Wrappers
  import opened Template
  import opened Surface
  import E = EchoServer
  import EchoText
  import EchoMaster

  const NEWLINE: Gap := [Blank('\n')]
  const SPACE: Gap := [Blank(' ')]

  function On(src: string, dst: Option<string>, trigger: Trigger): TransDecl {
    TransDecl(NEWLINE, src, SPACE, SPACE, dst, [], SPACE, trigger)
  }

  function PlainOn(src: string, dst: Option<string>, code: nat): TransDecl {
    On(src, dst, PlainTrigger(code, []))
  }

  function TimeoutOn(src: string): TransDecl {
    On(src, None, TickTrigger(0, SPACE, 10, Seconds, "", PeriodDecl(SPACE, Oneshot, [])))
  }

  function DataOn(src: string, code: nat, event: Surface.Event): TransDecl {
    On(src, None, DataTrigger(code, SPACE, event, []))
  }

  /** The declarations of one state, in the order of the file. */
  function DeclsOf(s: E.SlaveState): seq<TransDecl> {
    match s
    case Init => [PlainOn("init", Some("idle"), 0), PlainOn("init", Some("fini"), 3)]
    case Fini => []
    case Idle => [PlainOn("idle", None, 1), PlainOn("idle", Some("recv"), 0), PlainOn("idle", Some("done"), 3)]
    case Recv => [TimeoutOn("recv"), DataOn("recv", 0, Surface.In), DataOn("recv", 1, Surface.Err),
                  PlainOn("recv", Some("send"), 0), PlainOn("recv", Some("done"), 1)]
    case Send => [TimeoutOn("send"), DataOn("send", 0, Surface.Out), DataOn("send", 1, Surface.Err),
                  PlainOn("send", Some("recv"), 0), PlainOn("send", Some("done"), 1)]
    case Done => [PlainOn("done", Some("idle"), 0)]
  }

  function SlaveProgram(): Program {
    Program([], SPACE,
            [StateDecl(NEWLINE, "idle", []), StateDecl(NEWLINE, "recv", []),
             StateDecl(NEWLINE, "send", []), StateDecl(NEWLINE, "done", [])],
            NEWLINE, [], NEWLINE, SPACE,
            DeclsOf(E.Init) + DeclsOf(E.Idle) + DeclsOf(E.Recv) + DeclsOf(E.Send) + DeclsOf(E.Done),
            NEWLINE, [], [])
  }

  /** The second and third letters tell the six names apart. */
  lemma NamesDiffer()
    ensures forall i, j :: 0 <= i < j < 6 ==> EchoText.SlaveNames()[i] != EchoText.SlaveNames()[j]
  {
    var n := EchoText.SlaveNames();
    assert n[0][1] == 'n' && n[1][1] == 'i' && n[2][1] == 'd' && n[3][1] == 'e' && n[4][1] == 'e' && n[5][1] == 'o';
    assert n[3][0] == 'r' && n[4][0] == 's';
  }

  lemma {:induction false} IndexOfNth(names: seq<string>, k: nat)
    requires forall i, j :: 0 <= i < j < |names| ==> names[i] != names[j]
    requires k < |names|
    ensures IndexOf(names, names[k]) == k
  {
    if k > 0 {
      IndexOfNth(names[1..], k - 1);
      assert names[0] != names[k];
    }
  }

  lemma {:induction false} TransOfAppend(ts: seq<TransDecl>, us: seq<TransDecl>, names: seq<string>, name: string)
    requires forall i :: 0 <= i < |ts| ==> TransOk(ts[i], names)
    requires forall i :: 0 <= i < |us| ==> TransOk(us[i], names)
    ensures TransOf(ts + us, names, name) == TransOf(ts, names, name) + TransOf(us, names, name)
  {
    hide TransOk, Meaning;
    if ts == [] {
      assert ts + us == us;
    } else {
      assert (ts + us)[1..] == ts[1..] + us && (ts + us)[0] == ts[0];
      TransOfAppend(ts[1..], us, names, name);
    }
  }

  lemma {:induction false} TransOfOthers(ts: seq<TransDecl>, names: seq<string>, name: string)
    requires forall i :: 0 <= i < |ts| ==> TransOk(ts[i], names) && ts[i].src != name
    ensures TransOf(ts, names, name) == []
  {
    if ts != [] {
      TransOfOthers(ts[1..], names, name);
    }
  }

  lemma {:induction false} TransOfOwn(ts: seq<TransDecl>, names: seq<string>, name: string, ms: seq<TransTemplate>)
    requires |ms| == |ts|
    requires forall i :: 0 <= i < |ts| ==> TransOk(ts[i], names) && ts[i].src == name && Meaning(ts[i], names) == ms[i]
    ensures TransOf(ts, names, name) == ms
  {
    hide TransOk, Meaning;
    if ts != [] {
      TransOfOwn(ts[1..], names, name, ms[1..]);
    }
  }

  /** The name of each state, and where it stands. */
  lemma Named(s: E.SlaveState)
    ensures var n := EchoText.SlaveNames();
            var k := EchoText.StateIndex(s);
            n[k] in n && IndexOf(n, n[k]) == k
  {
    NamesDiffer();
    IndexOfNth(EchoText.SlaveNames(), EchoText.StateIndex(s));
  }

  /** d is a declaration for state s, and means m. */
  predicate Declares(d: TransDecl, s: E.SlaveState, m: TransTemplate) {
    var n := EchoText.SlaveNames();
    TransOk(d, n) && d.src == n[EchoText.StateIndex(s)] && Meaning(d, n) == m
  }

  lemma PlainDeclares(s: E.SlaveState, t: E.SlaveState, code: nat)
    requires code < 4
    ensures var n := EchoText.SlaveNames();
            Declares(PlainOn(n[EchoText.StateIndex(s)], Some(n[EchoText.StateIndex(t)]), code), s,
                     EchoText.Plain(code, Some(EchoText.StateIndex(t))))
  {
    Named(s);
    Named(t);
    hide IndexOf, EchoText.SlaveNames;
  }

  lemma SelfDeclares(s: E.SlaveState, code: nat)
    requires code < 4
    ensures var name := EchoText.SlaveNames()[EchoText.StateIndex(s)];
            Declares(PlainOn(name, None, code), s, EchoText.Plain(code, None))
  {
    Named(s);
    hide IndexOf, EchoText.SlaveNames;
  }

  lemma TimeoutDeclares(s: E.SlaveState)
    ensures Declares(TimeoutOn(EchoText.SlaveNames()[EchoText.StateIndex(s)]), s, EchoText.TIMEOUT)
  {
    Named(s);
    hide IndexOf, EchoText.SlaveNames;
  }

  lemma DataDeclares(s: E.SlaveState, code: nat, event: Surface.Event)
    requires code < 4
    ensures Declares(DataOn(EchoText.SlaveNames()[EchoText.StateIndex(s)], code, event), s,
                     EchoText.OnEvent(code, EventMask(event)))
  {
    Named(s);
    hide IndexOf, EchoText.SlaveNames;
  }

  lemma DeclsDeclare(s: E.SlaveState)
    ensures |DeclsOf(s)| == |EchoText.SlaveTrans(s)|
    ensures forall i :: 0 <= i < |DeclsOf(s)| ==> Declares(DeclsOf(s)[i], s, EchoText.SlaveTrans(s)[i])
  {
    hide Declares, PlainOn, DataOn, TimeoutOn, EchoText.Plain, EchoText.OnEvent;
    match s
    case Init =>
      PlainDeclares(s, E.Idle, 0);
      PlainDeclares(s, E.Fini, 3);
    case Fini =>
    case Idle =>
      SelfDeclares(s, 1);
      PlainDeclares(s, E.Recv, 0);
      PlainDeclares(s, E.Done, 3);
    case Recv =>
      TimeoutDeclares(s);
      DataDeclares(s, 0, Surface.In);
      DataDeclares(s, 1, Surface.Err);
      PlainDeclares(s, E.Send, 0);
      PlainDeclares(s, E.Done, 1);
    case Send =>
      TimeoutDeclares(s);
      DataDeclares(s, 0, Surface.Out);
      DataDeclares(s, 1, Surface.Err);
      PlainDeclares(s, E.Recv, 0);
      PlainDeclares(s, E.Done, 1);
    case Done =>
      PlainDeclares(s, E.Idle, 0);
  }

  /** What the declarations of state s give for state k. */
  lemma GroupOf(s: E.SlaveState, k: E.SlaveState)
    ensures forall i :: 0 <= i < |DeclsOf(s)| ==> TransOk(DeclsOf(s)[i], EchoText.SlaveNames())
    ensures TransOf(DeclsOf(s), EchoText.SlaveNames(), EchoText.SlaveNames()[EchoText.StateIndex(k)]) ==
            if s == k then EchoText.SlaveTrans(s) else []
  {
    DeclsDeclare(s);
    var ds, ms := DeclsOf(s), EchoText.SlaveTrans(s);
    hide DeclsOf, TransOf, TransOk, Meaning, EchoText.SlaveTrans;
    forall i | 0 <= i < |ds|
      ensures TransOk(ds[i], EchoText.SlaveNames()) && Meaning(ds[i], EchoText.SlaveNames()) == ms[i]
      ensures ds[i].src == EchoText.SlaveNames()[EchoText.StateIndex(s)]
    {
      assert Declares(ds[i], s, ms[i]);
    }
    NamesDiffer();
    hide EchoText.SlaveNames;
    if s == k {
      TransOfOwn(ds, EchoText.SlaveNames(), EchoText.SlaveNames()[EchoText.StateIndex(k)], ms);
    } else {
      TransOfOthers(ds, EchoText.SlaveNames(), EchoText.SlaveNames()[EchoText.StateIndex(k)]);
    }
  }

  lemma GroupsOf(k: E.SlaveState)
    ensures forall i :: 0 <= i < |SlaveProgram().trans| ==> TransOk(SlaveProgram().trans[i], EchoText.SlaveNames())
    ensures TransOf(SlaveProgram().trans, EchoText.SlaveNames(), EchoText.SlaveNames()[EchoText.StateIndex(k)]) ==
            EchoText.SlaveTrans(k)
  {
    hide TransOf, TransOk, DeclsOf, EchoText.SlaveTrans, EchoText.SlaveNames;
    var n := EchoText.SlaveNames();
    var name := n[EchoText.StateIndex(k)];
    GroupOf(E.Init, k);
    GroupOf(E.Fini, k);
    GroupOf(E.Idle, k);
    GroupOf(E.Recv, k);
    GroupOf(E.Send, k);
    GroupOf(E.Done, k);
    var a := DeclsOf(E.Init);
    TransOfAppend(a, DeclsOf(E.Idle), n, name);
    TransOfAppend(a + DeclsOf(E.Idle), DeclsOf(E.Recv), n, name);
    TransOfAppend(a + DeclsOf(E.Idle) + DeclsOf(E.Recv), DeclsOf(E.Send), n, name);
    TransOfAppend(a + DeclsOf(E.Idle) + DeclsOf(E.Recv) + DeclsOf(E.Send), DeclsOf(E.Done), n, name);
    NoFini(k);
  }

  lemma NoFini(k: E.SlaveState)
    ensures k == E.Fini ==> EchoText.SlaveTrans(k) == []
  {
  }

  lemma NameFits(name: string)
    requires name in {"idle", "recv", "send", "done"}
    ensures NameOk(name)
  {
    assert |name| == 4;
    assert name[0] in {'i', 'r', 's', 'd'} && name[1] in {'d', 'e', 'o'};
    assert name[2] in {'l', 'c', 'n'} && name[3] in {'e', 'v', 'd'};
    assert "init"[1] == 'n' && "fini"[0] == 'f';
    assert "self"[3] == 'f';
  }

  lemma StatesOk()
    ensures Names(SlaveProgram()) == EchoText.SlaveNames()
    ensures forall i :: 0 <= i < 4 ==> Surface.StateOk(SlaveProgram().states[i])
    ensures forall i, j :: 0 <= i < j < 4 ==> SlaveProgram().states[i].name != SlaveProgram().states[j].name
  {
    NamesDiffer();
    hide NameOk, DeclsOf;
    NameFits("idle");
    NameFits("recv");
    NameFits("send");
    NameFits("done");
    var n, states := EchoText.SlaveNames(), SlaveProgram().states;
    assert Names(SlaveProgram()) == n;
    hide Names, EchoText.SlaveNames;
  }

  /** The file is such a program: the theorems about it are not empty. */
  lemma FileIsSlave()
    ensures EchoText.IsSlave(SlaveProgram())
  {
    StatesOk();
    GroupsOf(E.Init);
    hide Names, TransOk, DeclsOf, EchoText.SlaveNames, EchoText.SlaveTrans, TransOf, Surface.StateOk;
    assert ProgramOk(SlaveProgram());
    forall s: E.SlaveState
      ensures TransOf(SlaveProgram().trans, Names(SlaveProgram()), Names(SlaveProgram())[EchoText.StateIndex(s)]) ==
              EchoText.SlaveTrans(s)
    {
      GroupsOf(s);
    }
  }

  // ------------------------------------------------------------------ the master

  function InitDecls(): seq<TransDecl> {
    [PlainOn("init", Some("work"), 0), PlainOn("init", Some("fini"), 3)]
  }

  function TimerDecls(): seq<TransDecl> {
    [On("work", None, TickTrigger(0, SPACE, 400, Milliseconds, "", PeriodDecl(SPACE, Periodic, []))),
     On("work", Some("fini"), TickTrigger(3, SPACE, 10000, Seconds, "", PeriodDecl(SPACE, Oneshot, [])))]
  }

  function SignalDecls(): seq<TransDecl> {
    [On("work", None, SignTrigger(0, SPACE, USR1, [])), On("work", None, SignTrigger(1, SPACE, USR2, []))]
  }

  function OtherDecls(): seq<TransDecl> {
    [DataOn("work", 0, Surface.In), DataOn("work", 1, Surface.Err), PlainOn("work", Some("fini"), 3)]
  }

  function WorkDecls(): seq<TransDecl> {
    TimerDecls() + SignalDecls() + OtherDecls()
  }

  function MasterProgram(): Program {
    Program([], SPACE, [StateDecl(NEWLINE, "work", [])], NEWLINE, [], NEWLINE, SPACE, InitDecls() + WorkDecls(),
            NEWLINE, [], [])
  }

  lemma MasterNamesDiffer()
    ensures var n := EchoMaster.MasterNames();
            && (forall i, j :: 0 <= i < j < 3 ==> n[i] != n[j])
            && "init" in n && IndexOf(n, "init") == 0 && "fini" in n && IndexOf(n, "fini") == 1
            && "work" in n && IndexOf(n, "work") == 2
  {
    var n := EchoMaster.MasterNames();
    assert n[0] == "init" && n[1] == "fini" && n[2] == "work";
    assert n[0][0] == 'i' && n[1][0] == 'f' && n[2][0] == 'w';
    IndexOfNth(n, 0);
    IndexOfNth(n, 1);
    IndexOfNth(n, 2);
  }

  lemma WorkFits()
    ensures NameOk("work")
  {
    assert |"work"| == 4 && "work"[0] == 'w' && "work"[1] == 'o' && "work"[2] == 'r' && "work"[3] == 'k';
    assert "init"[0] == 'i' && "fini"[0] == 'f' && "self"[0] == 's';
  }

  /** The declarations are of the state called src, and mean ms. */
  predicate Group(ds: seq<TransDecl>, src: string, ms: seq<TransTemplate>) {
    var n := EchoMaster.MasterNames();
    && |ms| == |ds|
    && forall i :: 0 <= i < |ds| ==> TransOk(ds[i], n) && ds[i].src == src && Meaning(ds[i], n) == ms[i]
  }

  lemma GroupAppend(ds: seq<TransDecl>, es: seq<TransDecl>, src: string, ms: seq<TransTemplate>, ns: seq<TransTemplate>)
    requires Group(ds, src, ms) && Group(es, src, ns)
    ensures Group(ds + es, src, ms + ns)
  {
    hide TransOk, Meaning, EchoMaster.MasterNames;
  }

  lemma InitDeclared()
    ensures Group(InitDecls(), "init", EchoMaster.MasterTrans(0))
  {
    MasterNamesDiffer();
    hide IndexOf, EchoMaster.MasterNames;
  }

  lemma TimersDeclared()
    ensures Group(TimerDecls(), "work", EchoMaster.WorkTimers())
  {
    MasterNamesDiffer();
    hide IndexOf, EchoMaster.MasterNames;
  }

  lemma SignalsDeclared()
    ensures Group(SignalDecls(), "work", EchoMaster.WorkSignals())
  {
    MasterNamesDiffer();
    hide IndexOf, EchoMaster.MasterNames;
  }

  lemma OthersDeclared()
    ensures Group(OtherDecls(), "work", EchoMaster.Others())
  {
    MasterNamesDiffer();
    hide IndexOf, EchoMaster.MasterNames;
  }

  lemma WorkDeclared()
    ensures Group(WorkDecls(), "work", EchoMaster.MasterTrans(2))
  {
    hide Group, TimerDecls, SignalDecls, OtherDecls, EchoMaster.WorkTimers, EchoMaster.WorkSignals, EchoMaster.Others;
    TimersDeclared();
    SignalsDeclared();
    OthersDeclared();
    GroupAppend(TimerDecls(), SignalDecls(), "work", EchoMaster.WorkTimers(), EchoMaster.WorkSignals());
    GroupAppend(TimerDecls() + SignalDecls(), OtherDecls(), "work",
                EchoMaster.WorkTimers() + EchoMaster.WorkSignals(), EchoMaster.Others());
  }

  /** What a group gives for the state called name. */
  lemma GroupGives(ds: seq<TransDecl>, src: string, ms: seq<TransTemplate>, name: string)
    requires Group(ds, src, ms)
    ensures forall i :: 0 <= i < |ds| ==> TransOk(ds[i], EchoMaster.MasterNames())
    ensures TransOf(ds, EchoMaster.MasterNames(), name) == if src == name then ms else []
  {
    hide TransOf, TransOk, Meaning, EchoMaster.MasterNames;
    if src == name {
      TransOfOwn(ds, EchoMaster.MasterNames(), name, ms);
    } else {
      TransOfOthers(ds, EchoMaster.MasterNames(), name);
    }
  }

  /** What both groups give for state k. */
  lemma MasterGroups(k: nat)
    requires k < 3
    ensures forall i :: 0 <= i < |MasterProgram().trans| ==> TransOk(MasterProgram().trans[i], EchoMaster.MasterNames())
    ensures TransOf(MasterProgram().trans, EchoMaster.MasterNames(), EchoMaster.MasterNames()[k]) ==
            EchoMaster.MasterTrans(k)
  {
    hide Group, InitDecls, WorkDecls, TransOf, TransOk, EchoMaster.MasterTrans, IndexOf;
    var n := EchoMaster.MasterNames();
    InitDeclared();
    WorkDeclared();
    MasterNamesDiffer();
    GroupGives(InitDecls(), "init", EchoMaster.MasterTrans(0), n[k]);
    GroupGives(WorkDecls(), "work", EchoMaster.MasterTrans(2), n[k]);
    TransOfAppend(InitDecls(), WorkDecls(), n, n[k]);
    FiniHasNone();
    assert EchoMaster.MasterTrans(k) + [] == [] + EchoMaster.MasterTrans(k) == EchoMaster.MasterTrans(k);
  }

  lemma FiniHasNone()
    ensures EchoMaster.MasterTrans(1) == []
  {
  }

  lemma FileIsMaster()
    ensures EchoMaster.IsMaster(MasterProgram())
  {
    hide Names, TransOk, InitDecls, WorkDecls, EchoMaster.MasterNames, EchoMaster.MasterTrans, TransOf, NameOk;
    WorkFits();
    MasterGroups(0);
    MasterNamesAre();
    assert ProgramOk(MasterProgram());
    forall k | 0 <= k < 3
      ensures TransOf(MasterProgram().trans, Names(MasterProgram()), Names(MasterProgram())[k]) ==
              EchoMaster.MasterTrans(k)
    {
      MasterGroups(k);
    }
  }

  lemma MasterNamesAre()
    ensures Names(MasterProgram()) == EchoMaster.MasterNames() && |EchoMaster.MasterNames()| == 3
  {
  }
}
