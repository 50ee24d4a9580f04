/** Which transitions of a machine share a function: the names that the loader looks
    up are put together from a state, a channel and a code, and do not always show
    where one part ends. */
module FunctionNames {
  import opened Wrappers
  import opened Text
  import opened Template
  import opened Loader
  import opened Surface

  /** The channel's name as it may also end the name of a state. */
  function StateSuffix(c: Channel): string {
    match c case NoChannel => "" case Tick => "_tick" case Data => "_data" case Sign => "_sign"
  }

  predicate NoUnderscore(w: string) {
    forall i :: 0 <= i < |w| ==> w[i] != '_'
  }

  lemma CodeHasNoUnderscore(code: nat)
    ensures NoUnderscore(CodeText(code))
  {
    var v := ToInt(code);
    hide Decimal, ToInt;
    assert forall c: char :: IsDigit(c) ==> c != '_';
  }

  lemma UnderscoreAt(a: string, v: string)
    requires NoUnderscore(v)
    ensures var s := (a + "_") + v;
            s[|a|] == '_' && forall k :: |a| < k < |s| ==> s[k] != '_'
  {
  }

  /** A text is cut at its last underscore in one way only. */
  lemma LastUnderscore(a: string, b: string, v: string, w: string)
    requires NoUnderscore(v) && NoUnderscore(w)
    ensures (a + "_") + v == (b + "_") + w <==> a == b && v == w
  {
    var s, t := (a + "_") + v, (b + "_") + w;
    UnderscoreAt(a, v);
    UnderscoreAt(b, w);
    if s == t {
      assert |a| == |b|;
      assert a == s[..|a|] && b == t[..|b|];
      assert v == s[|a| + 1..] && w == t[|b| + 1..];
    }
  }

  lemma CodesDiffer(code: nat, code': nat)
    ensures CodeText(code) == CodeText(code') <==> ToInt(code) == ToInt(code')
  {
    var v, v' := ToInt(code), ToInt(code');
    hide ToInt, Decimal;
    if CodeText(code) == CodeText(code') {
      if v < 0 {
        assert CodeText(code)[0] == '-' && CodeText(code)[1..] == Decimal(-v);
        assert !IsDigit('-');
        assert CodeText(code')[1..] == Decimal(-v');
        DecimalInjective(-v, -v');
      } else {
        assert IsDigit(CodeText(code)[0]) && !IsDigit('-');
        DecimalInjective(v, v');
      }
    }
  }

  /** The name up to the underscore before the code. */
  lemma NameParts(machine: string, state: string, tr: TransTemplate)
    ensures ActionName(machine, state, tr) ==
            (machine + "_" + (state + StateSuffix(tr.channel)) + "_") + CodeText(tr.code)
  {
    hide CodeText;
    var prefix := machine + "_" + state + "_";
    assert ChannelText(tr.channel) == if tr.channel.NoChannel? then "" else StateSuffix(tr.channel)[1..] + "_";
    match tr.channel
    case NoChannel =>
      assert state + "" == state;
      assert prefix + "" == prefix;
    case _ =>
      assert "_" + StateSuffix(tr.channel)[1..] == StateSuffix(tr.channel);
      assert prefix + (StateSuffix(tr.channel)[1..] + "_") ==
             machine + "_" + (state + ("_" + StateSuffix(tr.channel)[1..])) + "_";
  }

  /** Channels whose names end differently. */
  lemma SuffixesDiffer(a: string, b: string, c: Channel, d: Channel)
    requires a + StateSuffix(c) == b + StateSuffix(d)
    ensures c == d ==> a == b
    ensures c != d ==> c.NoChannel? || d.NoChannel?
  {
    var s, t := a + StateSuffix(c), b + StateSuffix(d);
    if c == d {
      assert a == s[..|a|] && b == t[..|b|];
    } else {
      SuffixEnds(a, c);
      SuffixEnds(b, d);
    }
  }

  lemma SuffixEnds(a: string, c: Channel)
    ensures var s := a + StateSuffix(c);
            match c
            case NoChannel => true
            case Tick => s != "" && s[|s| - 1] == 'k'
            case Data => s != "" && s[|s| - 1] == 'a'
            case Sign => s != "" && s[|s| - 1] == 'n'
  {
  }

  /** Two transitions of a machine name the same function if and only if they have the
      same number and either also state and channel agree, or one of them is a plain
      code of a state that is called like the other's with "_tick", "_data" or "_sign"
      behind it. */
  lemma SameFunction(machine: string, state: string, tr: TransTemplate, state': string, tr': TransTemplate)
    ensures ActionName(machine, state, tr) == ActionName(machine, state', tr') <==>
            && ToInt(tr.code) == ToInt(tr'.code)
            && (|| (state == state' && tr.channel == tr'.channel)
                || (tr'.channel.NoChannel? && state' == state + StateSuffix(tr.channel))
                || (tr.channel.NoChannel? && state == state' + StateSuffix(tr'.channel)))
  {
    var c, d := tr.channel, tr'.channel;
    var s, t := state + StateSuffix(c), state' + StateSuffix(d);
    NameParts(machine, state, tr);
    NameParts(machine, state', tr');
    CodeHasNoUnderscore(tr.code);
    CodeHasNoUnderscore(tr'.code);
    CodesDiffer(tr.code, tr'.code);
    LastUnderscore(machine + "_" + s, machine + "_" + t, CodeText(tr.code), CodeText(tr'.code));
    assert machine + "_" + s == machine + "_" + t <==> s == t by {
      assert (machine + "_" + s)[|machine| + 1..] == s && (machine + "_" + t)[|machine| + 1..] == t;
    }
    assert StateSuffix(NoChannel) == "" && state + "" == state && state' + "" == state';
    hide ActionName, CodeText, ToInt, NoUnderscore;
    if s == t {
      SuffixesDiffer(state, state', c, d);
    }
  }

  lemma Cut(machine: string, a: string, b: string, tail: string)
    ensures machine + "_" + a + tail == machine + "_" + b + tail <==> a == b
  {
    var s, t := machine + "_" + a + tail, machine + "_" + b + tail;
    if s == t {
      assert |a| == |b|;
      assert a == s[|machine| + 1..][..|a|] && b == t[|machine| + 1..][..|b|];
    }
  }

  lemma CodeEnds(machine: string, state: string, tr: TransTemplate)
    ensures var s := ActionName(machine, state, tr);
            s != "" && IsDigit(s[|s| - 1])
  {
    hide Decimal, ToInt;
    var c := CodeText(tr.code);
    assert c != "" && IsDigit(c[|c| - 1]);
    assert ActionName(machine, state, tr)[|ActionName(machine, state, tr)| - 1] == c[|c| - 1];
  }

  /** The function that enters a state is called like it, with "_enter" behind it, and
      the one that leaves it with "_leave". Two states share neither, and neither is
      the function of a transition or the other one of any state. */
  lemma EnterAndLeave(machine: string, state: string, state': string, tr: TransTemplate)
    ensures EnterName(machine, state) == machine + ("_" + state + "_enter")
    ensures LeaveName(machine, state) == machine + ("_" + state + "_leave")
    ensures EnterName(machine, state) == EnterName(machine, state') <==> state == state'
    ensures LeaveName(machine, state) == LeaveName(machine, state') <==> state == state'
    ensures EnterName(machine, state) != LeaveName(machine, state')
    ensures ActionName(machine, state, tr) !in {EnterName(machine, state'), LeaveName(machine, state')}
  {
    Cut(machine, state, state', "_enter");
    Cut(machine, state, state', "_leave");
    CodeEnds(machine, state, tr);
    var e, l := EnterName(machine, state'), LeaveName(machine, state');
    assert e[|e| - 1] == 'r' && l[|l| - 1] == 'e' && EnterName(machine, state)[|EnterName(machine, state)| - 1] == 'r';
    hide ActionName;
  }

  // ------------------------------------------------------- a program that does so

  const SPACE: Gap := [Blank(' ')]

  /** states { a; a_tick; }; trans { a -> self: tick_0: 1s; a_tick -> self: 0; }; */
  function SharingProgram(): Program {
    Program([], SPACE, [StateDecl(SPACE, "a", []), StateDecl(SPACE, "a_tick", [])], SPACE, [], SPACE, SPACE,
            [TransDecl(SPACE, "a", SPACE, SPACE, None, [], SPACE,
                       TickTrigger(0, SPACE, 1, Seconds, "", NoPeriod)),
             TransDecl(SPACE, "a_tick", SPACE, SPACE, None, [], SPACE, PlainTrigger(0, []))],
            SPACE, [], [])
  }

  lemma SharingNames()
    ensures var names := Names(SharingProgram());
            names == ["init", "fini", "a", "a_tick"] && "a" in names && "a_tick" in names && "a" != "a_tick"
    ensures NameOk("a") && NameOk("a_tick")
  {
    var names := Names(SharingProgram());
    assert names == ["init", "fini", "a", "a_tick"];
    assert names[2] == "a" && names[3] == "a_tick" && |"a"| == 1 && |"a_tick"| == 6;
    assert "a_tick"[0] == 'a' && "a_tick"[1] == '_' && "a_tick"[2] == 't' && "a_tick"[3] == 'i' && "a_tick"[4] == 'c' &&
           "a_tick"[5] == 'k';
  }

  /** A well-formed program in which two states share one function. */
  lemma SharedFunction(machine: string)
    ensures ProgramOk(SharingProgram())
    ensures var t := TemplateOf(machine, SharingProgram());
            && |t.states| == 4 && |t.states[2].trans| == |t.states[3].trans| == 1
            && t.states[2].name == "a" && t.states[3].name == "a_tick"
            && t.states[2].trans[0].channel == Tick && t.states[3].trans[0].channel == NoChannel
            && ActionName(machine, t.states[2].name, t.states[2].trans[0]) ==
               ActionName(machine, t.states[3].name, t.states[3].trans[0])
  {
    SharingTemplate(machine);
    SharingSuffix(machine);
  }

  lemma SharingSuffix(machine: string)
    ensures ActionName(machine, "a", TransTemplate(0, Tick, 1000, 0, None)) ==
            ActionName(machine, "a_tick", TransTemplate(0, NoChannel, 0, 0, None))
  {
    hide ActionName, CodeText;
    assert "a" + StateSuffix(Tick) == "a_tick";
    SameFunction(machine, "a", TransTemplate(0, Tick, 1000, 0, None),
                 "a_tick", TransTemplate(0, NoChannel, 0, 0, None));
  }

  lemma SharingTemplate(machine: string)
    ensures ProgramOk(SharingProgram())
    ensures var t := TemplateOf(machine, SharingProgram());
            && |t.states| == 4 && t.states[2].name == "a" && t.states[3].name == "a_tick"
            && t.states[2].trans == [TransTemplate(0, Tick, 1000, 0, None)]
            && t.states[3].trans == [TransTemplate(0, NoChannel, 0, 0, None)]
  {
    SharingNames();
    SharingTrans();
    hide TransOf, ProgramOk, TransOk, Meaning, Names, SharingProgram, NameOk;
  }

  lemma SharingIsOk()
    ensures ProgramOk(SharingProgram())
  {
    SharingNames();
    hide NameOk, Names;
  }

  lemma SharingTrans()
    ensures ProgramOk(SharingProgram())
    ensures var names, ts := Names(SharingProgram()), SharingProgram().trans;
            && TransOf(ts, names, "a") == [TransTemplate(0, Tick, 1000, 0, None)]
            && TransOf(ts, names, "a_tick") == [TransTemplate(0, NoChannel, 0, 0, None)]
  {
    SharingIsOk();
    SharingNames();
    var names, ts := Names(SharingProgram()), SharingProgram().trans;
    assert ts[1..][1..] == [];
    hide Names, ProgramOk, NameOk;
    assert TransOf(ts[1..][1..], names, "a") == [] && TransOf(ts[1..][1..], names, "a_tick") == [];
    assert TransOf(ts[1..], names, "a") == [];
    assert TransOf(ts[1..], names, "a_tick") == [Meaning(ts[1], names)];
  }
}
