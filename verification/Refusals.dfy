/** Which texts are refused: a draft is parsed exactly if it is a program. */
module Refusals {
  import opened Wrappers
  import opened Text
  import opened Template
  import opened Decoder
  import opened Surface
  import opened Drafts
  import opened ReadTokens
  import opened ReadTrans

  /** The decoder goes on from c at d, or it refuses the text. */
  predicate Goes(c: Config, d: Config, good: bool) {
    if good then Decode(c) == Decode(d) else Decode(c).Fail?
  }

  function NamesIn(t: Template): seq<string> {
    seq(|t.states|, i requires 0 <= i < |t.states| => t.states[i].name)
  }

  lemma Known(t: Template, name: string)
    ensures FindState(t.states, name).Some? <==> name in NamesIn(t)
  {
    hide FindState;
    if k :| FindState(t.states, name) == Some(k) {
      assert NamesIn(t)[k] == name;
    }
  }

  // ---------------------------------------------------------------- separators

  lemma SeparatorEnds(ch: char, more: string)
    requires Separator(ch)
    ensures Ends([ch] + more) && ([ch] + more)[0] == ch && ch != '/'
  {
  }

  predicate Wants(s: State, ch: char, next: State) {
    match s
    case StatesLeave => ch == ';' && next == Idle
    case NameLeave => ch == ';' && next == StatesEnter
    case TransSection => ch == '{' && next == TransEnter
    case TransLeave => ch == ';' && next == Idle
    case DstColon => ch == ':' && next == Code
    case _ => false
  }

  lemma AtSeparator(c: Config, ch: char, want: char, next: State, more: string)
    requires Separator(ch) && Wants(c.state, want, next) && more != "" && c.rest == [ch] + more
    ensures Goes(c, c.(state := next, rest := more), ch == want)
  {
    hide Decode;
    assert c.rest[0] == ch && c.rest[1..] == more;
    AtToken(c);
  }

  lemma GapSeparator(c: Config, g: Gap, ch: char, want: char, next: State, more: string)
    requires GapOk(g) && Separator(ch) && Wants(c.state, want, next) && more != ""
    requires c.rest == GapText(g) + [ch] + more
    ensures Goes(c, c.(state := next, rest := more), ch == want)
  {
    hide Decode, GapText, GapOk, Separator, Wants, Ends;
    SeparatorEnds(ch, more);
    var tail := [ch] + more;
    assert c.rest == GapText(g) + tail;
    SkipGap(c, g, tail);
    AtSeparator(c.(rest := tail), ch, want, next, more);
  }

  // ------------------------------------------------------------------- states

  function NextState(c: Config, d: StateDraft, more: string): Config {
    c.(rest := more, tmpl := if d.name == "" then c.tmpl else PushState(c.tmpl, d.name))
  }

  lemma ReadNameDraft(c: Config, name: string, more: string)
    requires c.state == StatesEnter && NameChars(name) && |name| < 64 && Ends(more)
    requires c.rest == name + more
    ensures Goes(c, c.(state := NameLeave, rest := more, tmpl := PushState(c.tmpl, name)),
                 name != "init" && name != "fini")
  {
    hide Decode, NameChars, Ends, PushState;
    if name in {"init", "fini"} {
      ReservedFails(c, name, more);
    } else {
      ReadStateName(c, name, more);
    }
  }

  lemma ReadNoName(c: Config, ch: char, more: string)
    requires c.state == StatesEnter && Separator(ch) && ch != '}' && more != "" && c.rest == [ch] + more
    ensures Goes(c, c.(rest := more), ch == ';')
  {
    hide Decode;
    assert c.rest[0] == ch && c.rest[1..] == more;
    AtToken(c);
  }

  lemma ReadStateDraft(c: Config, d: StateDraft, more: string)
    requires c.state == StatesEnter && StateShape(d) && more != ""
    requires c.rest == StateDraftText(d) + more
    ensures Goes(c, NextState(c, d, more), StateGood(d))
  {
    hide Decode, GapText, GapOk, Separator, PushState, Ends, NameChars, IsNameChar;
    SeparatorEnds(d.close, more);
    var tail := [d.close] + more;
    var r2 := GapText(d.after) + tail;
    var r1 := d.name + r2;
    assert r2 == GapText(d.after) + [d.close] + more;
    assert c.rest == GapText(d.before) + r1;
    if d.name == "" {
      NoGap();
      assert r1 == tail;
      SkipGap(c, d.before, r1);
      ReadNoName(c.(rest := r1), d.close, more);
    } else {
      GapEnds(d.after, tail);
      IsName(d.name);
      assert r1[0] == d.name[0];
      SkipGap(c, d.before, r1);
      ReadNameDraft(c.(rest := r1), d.name, r2);
      GapSeparator(c.(state := NameLeave, rest := r2, tmpl := PushState(c.tmpl, d.name)), d.after, d.close, ';',
                   StatesEnter, more);
    }
  }

  lemma NoGap()
    ensures GapText([]) == "" && GapOk([])
  {
  }

  lemma IsName(w: string)
    requires w != "" && forall i :: 0 <= i < |w| ==> IsNameChar(w[i])
    ensures NameChars(w) && w[0] != '/'
  {
  }

  lemma PushNames(t: Template, name: string)
    ensures NamesIn(PushState(t, name)) == NamesIn(t) + [name]
  {
  }

  /** The declarations of states: refused at the first one that is none. */
  lemma {:induction false} ReadStateDrafts(c: Config, ds: seq<StateDraft>, more: string) returns (d: Config)
    requires c.state == StatesEnter && more != ""
    requires forall i :: 0 <= i < |ds| ==> StateShape(ds[i])
    requires c.rest == StateDraftsText(ds) + more
    ensures Goes(c, d, forall i :: 0 <= i < |ds| ==> StateGood(ds[i]))
    ensures d == c.(rest := more, tmpl := d.tmpl) && NamesIn(d.tmpl) == NamesIn(c.tmpl) + Declared(ds)
    ensures d.tmpl.name == c.tmpl.name
    decreases |ds|
  {
    hide Decode, StateDraftText, StateShape, StateGood, PushState, NamesIn;
    if ds == [] {
      assert c.rest == more;
      d := c;
    } else {
      var next := StateDraftsText(ds[1..]) + more;
      assert c.rest == StateDraftText(ds[0]) + next;
      assert next != "";
      ReadStateDraft(c, ds[0], next);
      var c1 := NextState(c, ds[0], next);
      PushNames(c.tmpl, ds[0].name);
      PushKeepsName(c.tmpl, ds[0].name);
      d := ReadStateDrafts(c1, ds[1..], more);
      FirstAndRest(ds, StateGood);
    }
  }

  lemma PushKeepsName(t: Template, name: string)
    ensures PushState(t, name).name == t.name
  {
  }

  lemma FirstAndRest<T>(s: seq<T>, p: T -> bool)
    requires s != []
    ensures (forall i :: 0 <= i < |s| ==> p(s[i])) <==> p(s[0]) && forall i :: 0 <= i < |s[1..]| ==> p(s[1..][i])
  {
    assert forall i :: 0 < i < |s| ==> s[i] == s[1..][i - 1];
  }

  // ---------------------------------------------------- source, arrow and target

  lemma ReadNoSrc(c: Config, ch: char, more: string)
    requires c.state == TransEnter && Separator(ch) && ch != '}' && more != "" && c.rest == [ch] + more
    ensures Decode(c).Fail?
  {
    hide Decode;
    assert c.rest[0] == ch;
    AtToken(c);
  }

  lemma UnknownSrc(c: Config, name: string, more: string)
    requires c.state == TransEnter && NameChars(name) && Ends(more) && c.rest == name + more
    requires FindState(c.tmpl.states, name) == None
    ensures Decode(c).Fail?
  {
    hide Decode, Run, FindState;
    NameRun(name, more);
    AtToken(c);
    AtToken(c.(state := Src));
  }

  lemma AtArrow(c: Config, arrow: string, more: string)
    requires c.state == Row && |arrow| == 2 && Separator(arrow[0]) && more != "" && c.rest == arrow + more
    ensures Goes(c, c.(state := Dst, rest := more), arrow == "->")
  {
    hide Decode;
    assert c.rest[0] == arrow[0] && c.rest[2..] == more && c.rest[..2] == arrow;
    AtToken(c);
    assert Begins(c.rest, "->") <==> arrow == "->";
  }

  lemma UnknownDst(c: Config, name: string, more: string)
    requires c.state == Dst && NameChars(name) && Ends(more) && c.rest == name + more
    requires name != "self" && FindState(c.tmpl.states, name) == None
    ensures Decode(c).Fail?
  {
    hide Decode, Run, FindState;
    NameRun(name, more);
    AtToken(c);
  }

  lemma ReadNoDst(c: Config, ch: char, more: string)
    requires c.state == Dst && Separator(ch) && more != "" && c.rest == [ch] + more
    ensures Decode(c).Fail?
  {
    hide Decode, FindState;
    assert c.rest[0] == ch && c.rest[..0] == "";
    AtToken(c);
  }

  /** Before the first transition, and where every one leaves the decoder. */
  predicate AtTrans(c: Config) {
    c.state == TransEnter && c.eti == CLEAN && "" !in NamesIn(c.tmpl)
  }

  lemma SrcAndArrow(c: Config, t: TransDraft, more: string) returns (d: Config)
    requires AtTrans(c) && TransShape(t) && more != ""
    requires c.rest == GapText(t.before) + t.src + GapText(t.g1) + t.arrow + more
    ensures Goes(c, d, t.src in NamesIn(c.tmpl) && t.arrow == "->")
    ensures d == c.(state := Dst, rest := more, eti := CLEAN.(src := d.eti.src))
    ensures t.src in NamesIn(c.tmpl) ==> d.eti.src.Some? && d.eti.src.value < |c.tmpl.states|
  {
    hide Decode, GapText, GapOk, Separator, FindState, TriggerShape, Ends, IsNameChar, NameChars, NamesIn;
    var tail := t.arrow + more;
    var r2 := GapText(t.g1) + tail;
    var r1 := t.src + r2;
    assert tail == [t.arrow[0]] + (t.arrow[1..] + more);
    SeparatorEnds(t.arrow[0], t.arrow[1..] + more);
    assert c.rest == GapText(t.before) + r1;
    Known(c.tmpl, t.src);
    var k := FindState(c.tmpl.states, t.src);
    var c1 := c.(state := Row, rest := r2, eti := CLEAN.(src := k));
    d := c1.(state := Dst, rest := more);
    if t.src == "" {
      NoGap();
      assert r1 == tail;
      SkipGap(c, t.before, r1);
      ReadNoSrc(c.(rest := r1), t.arrow[0], t.arrow[1..] + more);
    } else {
      IsName(t.src);
      GapEnds(t.g1, tail);
      assert r1[0] == t.src[0];
      SkipGap(c, t.before, r1);
      if k.None? {
        UnknownSrc(c.(rest := r1), t.src, r2);
      } else {
        ReadSrc(c.(rest := r1), t.src, k.value, r2);
        SkipGap(c1, t.g1, tail);
        AtArrow(c1.(rest := tail), t.arrow, more);
      }
    }
  }

  lemma DstAndColon(c: Config, t: TransDraft, more: string) returns (d: Config)
    requires c.state == Dst && TransShape(t) && more != "" && "" !in NamesIn(c.tmpl)
    requires c.rest == GapText(t.g2) + t.dst + GapText(t.g3) + [t.colon] + more
    ensures Goes(c, d, (t.dst == "self" || t.dst in NamesIn(c.tmpl)) && t.colon == ':')
    ensures d == c.(state := Code, rest := more, eti := c.eti.(dst := d.eti.dst))
  {
    hide Decode, GapText, GapOk, Separator, FindState, TriggerShape, Ends, IsNameChar, NameChars, NamesIn;
    var tail := [t.colon] + more;
    var r2 := GapText(t.g3) + tail;
    var r1 := t.dst + r2;
    SeparatorEnds(t.colon, more);
    assert c.rest == GapText(t.g2) + r1;
    Known(c.tmpl, t.dst);
    var k := if t.dst == "self" then None else FindState(c.tmpl.states, t.dst);
    var c1 := c.(state := DstColon, rest := r2, eti := c.eti.(dst := k));
    d := c1.(state := Code, rest := more);
    if t.dst == "" {
      NoGap();
      assert r1 == tail;
      SkipGap(c, t.g2, r1);
      ReadNoDst(c.(rest := r1), t.colon, more);
    } else {
      IsName(t.dst);
      GapEnds(t.g3, tail);
      assert r1[0] == t.dst[0];
      SkipGap(c, t.g2, r1);
      if t.dst != "self" && k.None? {
        UnknownDst(c.(rest := r1), t.dst, r2);
      } else {
        ReadDst(c.(rest := r1), if t.dst == "self" then None else Some(t.dst), k, r2);
        assert r2 == GapText(t.g3) + [t.colon] + more;
        GapSeparator(c1, t.g3, t.colon, ':', Code, more);
      }
    }
  }

  // ------------------------------------------------------------------ the words

  /** The text behind a word, which is not part of it. */
  predicate Stops(w: string, more: string) {
    && |more| >= 2 && Ends(more) && (forall i :: 0 <= i < |w| ==> IsNameChar(w[i]))
    && (w == "" ==> Separator(more[0]))
  }

  lemma WordStops(w: string, after: Gap, ch: char, more: string)
    requires Word(w, after) && Separator(ch) && more != ""
    ensures Stops(w, GapText(after) + ([ch] + more))
    ensures w + (GapText(after) + ([ch] + more)) != "" && (w + (GapText(after) + ([ch] + more)))[0] != '/'
  {
    SeparatorEnds(ch, more);
    var tail := [ch] + more;
    GapEnds(after, tail);
    if w == "" {
      NoGap();
      assert GapText(after) + tail == tail;
      assert w + tail == tail;
    } else {
      assert (w + (GapText(after) + tail))[0] == w[0];
    }
  }

  /** A word is read up to its first character that does not belong to its kind. */
  lemma PrefixRun(w: string, more: string, p: char -> bool) returns (n: nat)
    requires Stops(w, more) && forall ch :: p(ch) ==> IsNameChar(ch)
    ensures n == Run(w + more, p) <= |w| && (w + more)[..n] == w[..n]
    ensures forall i :: 0 <= i < n ==> p(w[i])
    ensures n < |w| ==> !p(w[n])
    ensures (w + more)[n..] == w[n..] + more
    ensures |w + more| >= 2 && !IsDelim((w + more)[0]) && (w + more)[0] != '/'
  {
    hide Run;
    n := Run(w + more, p);
    forall i | 0 <= i < |w| ensures (w + more)[i] == w[i] {}
    assert (w + more)[|w|] == more[0];
    assert forall i :: 0 <= i < n ==> p((w + more)[i]);
  }

  /** What is left of a word is not the semicolon. */
  lemma RestOfWord(c: Config, w: string, n: nat, more: string)
    requires c.state == Semicolon && n < |w| && Stops(w, more) && c.rest == w[n..] + more
    ensures Decode(c).Fail?
  {
    hide Decode, AddTrans, PendingTrans;
    assert c.rest[0] == w[n];
    AtToken(c);
  }

  lemma PeriodWords(w: string, n: nat)
    requires n <= |w| && (forall i :: 0 <= i < n ==> IsWordChar(w[i])) && (n < |w| ==> !IsWordChar(w[n]))
    ensures PeriodGood(Given([], w, [])) <==> n == |w| && PeriodFlags(w[..n], 0) != 0
  {
    if n == |w| {
      assert w[..n] == w;
    }
  }

  lemma AtPeriod(c: Config, w: string, more: string) returns (d: Config)
    requires c.state == TickPeriod && c.eti.flags == 0 && Stops(w, more) && c.rest == w + more
    ensures Goes(c, d, PeriodGood(Given([], w, [])))
    ensures d == c.(state := Semicolon, rest := more, eti := c.eti.(flags := d.eti.flags))
  {
    hide Decode, Run, PeriodFlags, PeriodGood, Stops;
    NamesOfWords();
    var n := PrefixRun(w, more, IsWordChar);
    PeriodWords(w, n);
    var flags := PeriodFlags(w[..n], 0);
    d := c.(state := Semicolon, rest := more, eti := c.eti.(flags := flags));
    AtToken(c);
    if flags != 0 {
      if n < |w| {
        RestOfWord(d.(rest := w[n..] + more), w, n, more);
      } else {
        assert w[n..] + more == more;
      }
    }
  }

  lemma NamesOfWords()
    ensures forall ch :: IsWordChar(ch) ==> IsNameChar(ch)
    ensures forall ch :: IsSignalChar(ch) ==> IsNameChar(ch)
    ensures forall ch :: IsNameChar(ch) && ch != '_' ==> IsSignalChar(ch)
    ensures !IsSignalChar('_')
  {
  }

  lemma EventWords(w: string, n: nat)
    requires n <= |w| && (forall i :: 0 <= i < n ==> IsWordChar(w[i])) && (n < |w| ==> !IsWordChar(w[n]))
    ensures EventGood(w) <==> n == |w| && Begins(w[..n], "ESMA_") && EventFlag(w[..n], 0) != 0
  {
    if n == |w| {
      assert w[..n] == w;
    }
  }

  lemma AtEvent(c: Config, w: string, more: string) returns (d: Config)
    requires c.state == DataEvent && c.eti.data == 0 && Stops(w, more) && c.rest == w + more
    ensures Goes(c, d, EventGood(w))
    ensures d == c.(state := Semicolon, rest := more, eti := c.eti.(data := d.eti.data))
  {
    hide Decode, Run, EventFlag, EventGood, Stops, Begins;
    NamesOfWords();
    var n := PrefixRun(w, more, IsWordChar);
    EventWords(w, n);
    var flag := EventFlag(w[..n], 0);
    d := c.(state := Semicolon, rest := more, eti := c.eti.(data := flag));
    AtToken(c);
    if flag != 0 && Begins(w[..n], "ESMA_") {
      if n < |w| {
        RestOfWord(d.(rest := w[n..] + more), w, n, more);
      } else {
        assert w[n..] + more == more;
      }
    }
  }

  /** The words of three and of four letters that name a signal, and VTALRM. */
  lemma SignalWords(word: string)
    ensures SignalNumber(word) != 0 <==> (exists s: Signal :: word == SignalWord(s)) || Begins(word, "VTALRM")
  {
    if SignalNumber(word) != 0 {
      if |word| == 3 {
        ThreeLetters(word);
      } else if |word| == 4 {
        FourLetters(word);
      }
    }
    if s: Signal :| word == SignalWord(s) {
      EverySignalReads(s);
    }
  }

  lemma ThreeLetters(word: string)
    requires |word| == 3 && SignalNumber(word) != 0
    ensures exists s: Signal :: word == SignalWord(s)
  {
    assert word == [word[0], word[1], word[2]];
    var s := if word == "FPE" then FPE else if word == "HUP" then HUP else if word == "INT" then INT
             else if word == "SYS" then SYS else URG;
    assert word == SignalWord(s);
  }

  lemma FourLetters(word: string)
    requires |word| == 4 && SignalNumber(word) != 0
    ensures exists s: Signal :: word == SignalWord(s)
  {
    assert word == [word[0], word[1], word[2], word[3]];
    var s := if word == "ABRT" then ABRT else if word == "ALRM" then ALRM else if word == "CHLD" then CHLD
             else if word == "CONT" then CONT else if word == "PIPE" then PIPE else if word == "QUIT" then QUIT
             else if word == "TERM" then TERM else if word == "TSTP" then TSTP else if word == "TTIN" then TTIN
             else if word == "TTOU" then TTOU else if word == "USR1" then USR1 else if word == "USR2" then USR2
             else if word == "POLL" then POLL else if word == "PROF" then PROF else if word == "TRAP" then TRAP
             else XCPU;
    assert word == SignalWord(s);
  }

  lemma SignalGoodWords(w: string, n: nat)
    requires n <= |w| && (forall i :: 0 <= i < |w| ==> IsNameChar(w[i]))
    requires (forall i :: 0 <= i < n ==> IsSignalChar(w[i])) && (n < |w| ==> !IsSignalChar(w[n]))
    ensures SignalGood(w) <==> n == |w| && Begins(w[..n], "SIG") && SignalNumber(w[3..n]) != 0
  {
    hide SignalNumber, SignalWord, IsSignalChar, IsNameChar;
    NamesOfWords();
    forall s: Signal | w == "SIG" + SignalWord(s) ensures n == |w| && Begins(w, "SIG") && w[3..] == SignalWord(s) {
      EverySignalReads(s);
      if n < |w| {
        SignalLetters(s, n);
      }
    }
    if n == |w| {
      assert w[..n] == w && '_' !in w;
    } else {
      assert w[n] == '_';
    }
    if Begins(w, "SIG") {
      assert w == "SIG" + w[3..];
      SignalWords(w[3..]);
      BehindSig(w);
    } else {
      NotSig(w);
    }
  }

  lemma NotSig(w: string)
    requires !Begins(w, "SIG")
    ensures !Begins(w, "SIGVTALRM")
  {
    assert |w| >= 9 ==> w[..9][..3] == w[..3];
  }

  lemma BehindSig(w: string)
    requires Begins(w, "SIG")
    ensures Begins(w, "SIGVTALRM") <==> Begins(w[3..], "VTALRM")
  {
    assert "SIGVTALRM" == "SIG" + "VTALRM";
    if Begins(w, "SIGVTALRM") {
      assert w[3..][..6] == w[..9][3..];
    }
    if Begins(w[3..], "VTALRM") {
      assert w[..9] == w[..3] + w[3..][..6];
    }
  }

  lemma SignalLetters(s: Signal, n: nat)
    requires n < |"SIG" + SignalWord(s)|
    ensures IsSignalChar(("SIG" + SignalWord(s))[n])
  {
    hide SignalWord;
    EverySignalReads(s);
    assert "SIG"[0] == 'S' && "SIG"[1] == 'I' && "SIG"[2] == 'G';
  }

  lemma AtSignal(c: Config, w: string, more: string) returns (d: Config)
    requires c.state == SignNumber && Stops(w, more) && c.rest == w + more
    ensures Goes(c, d, SignalGood(w))
    ensures d == c.(state := Semicolon, rest := more, eti := c.eti.(data := d.eti.data))
  {
    hide Decode, Run, SignalNumber, SignalGood;
    NamesOfWords();
    var n := PrefixRun(w, more, IsSignalChar);
    SignalGoodWords(w, n);
    AtToken(c);
    d := c.(state := Semicolon, rest := more);
    assert c.rest[..n] == w[..n];
    if Begins(w[..n], "SIG") {
      assert c.rest[3..n] == w[3..n];
      var number := SignalNumber(w[3..n]);
      d := d.(eti := c.eti.(data := number));
      if number != 0 {
        if n < |w| {
          RestOfWord(d.(rest := w[n..] + more), w, n, more);
        } else {
          assert w[n..] + more == more;
        }
      }
    }
  }

  // --------------------------------------------------------------- the interval

  lemma SecondsInWord(v: nat)
    ensures v % 0x1_0000_0000 * 1000 % 0x1_0000_0000 == 1000 * v % 0x1_0000_0000
  {
  }

  predicate UnitShape(unit: string) {
    Word(unit, []) && (unit != "" ==> !IsDigit(unit[0]))
  }

  lemma UnitBegins(unit: string, tail: string)
    requires UnitShape(unit) && Ends(tail)
    ensures var r := unit + tail;
            && (Begins(r, "ms") <==> Begins(unit, "ms"))
            && (Begins(r, "s") <==> Begins(unit, "s"))
            && !(Begins(unit, "ms") && Begins(unit, "s"))
            && forall k :: 0 <= k < |unit| ==> IsNameChar(r[k])
  {
    var r := unit + tail;
    assert r[|unit|] == tail[0];
    if Begins(r, "ms") {
      assert r[0] == r[..2][0] == 'm' && r[1] == r[..2][1] == 's';
      assert |unit| >= 2;
      assert unit[..2] == r[..2];
    }
    if Begins(unit, "ms") {
      assert unit[0] == unit[..2][0] == 'm';
      assert r[..2] == unit[..2];
    }
    if Begins(r, "s") {
      assert r[0] == r[..1][0] == 's';
      assert |unit| >= 1;
      assert unit[..1] == r[..1];
    }
    if Begins(unit, "s") {
      assert unit[0] == unit[..1][0] == 's';
      assert r[..1] == unit[..1];
    }
  }

  /** The interval read: zero, or followed by more of the unit, unless it is good. */
  lemma UnitValue(v: nat, unit: string, tail: string) returns (ms: nat, r: string)
    requires UnitShape(unit) && Ends(tail)
    requires forall i :: 0 <= i < |Decimal(v)| ==> IsDigit((Decimal(v) + (unit + tail))[i])
    ensures Interval(Decimal(v) + (unit + tail), |Decimal(v)|, 0) == (ms, r)
    ensures if TickGood(v, unit) then ms != 0 && r == tail
            else ms == 0 || (r != "" && IsNameChar(r[0]))
  {
    hide Decimal, DigitsValue, Begins, IsNameChar;
    var d := Decimal(v);
    var text := d + (unit + tail);
    DecimalValue(v);
    SecondsInWord(v);
    UnitBegins(unit, tail);
    assert text[..|d|] == d && text[|d|..] == unit + tail;
    var x := Interval(text, |d|, 0);
    ms, r := x.0, x.1;
    BehindUnit(unit, tail, "ms");
    BehindUnit(unit, tail, "s");
    assert text[|d| + 1..] == (unit + tail)[1..];
    assert |unit + tail| >= 2 ==> text[|d| + 2..] == (unit + tail)[2..];
  }

  lemma BehindUnit(unit: string, tail: string, known: string)
    requires UnitShape(unit)
    ensures Begins(unit, known) ==>
              if unit == known then (unit + tail)[|known|..] == tail
              else (unit + tail)[|known|..] != "" && IsNameChar((unit + tail)[|known|..][0])
    ensures Begins(known, known) && (Begins(unit, known) ==> |known| <= |unit|)
  {
    if Begins(unit, known) && unit != known {
      assert unit[..|known|] == known;
      assert |unit| > |known|;
      assert (unit + tail)[|known|..][0] == unit[|known|];
    }
  }

  lemma AtInterval(c: Config, v: nat, unit: string, blanks: string, ch: char, more: string) returns (d: Config)
    requires c.state == TickInterval && c.eti.data == 0 && UnitShape(unit) && Blanks(blanks)
    requires Separator(ch) && more != ""
    requires c.rest == Decimal(v) + unit + blanks + [ch] + more
    ensures Goes(c, d, TickGood(v, unit) && ch in {':', ';'})
    ensures var c1 := c.(eti := c.eti.(data := d.eti.data));
            d == if ch == ':' then c1.(state := TickPeriod, rest := more)
                 else c1.(state := Semicolon, rest := [ch] + more)
  {
    hide Decode, Run, Decimal, DigitsValue, Interval, TickGood, UnitShape;
    var w := Decimal(v);
    var sep := [ch] + more;
    var tail := blanks + sep;
    assert c.rest == w + (unit + tail);
    SeparatorEnds(ch, more);
    BlanksEnd(blanks, sep);
    UnitHead(unit, tail);
    RunStops(w, unit + tail, IsDigit);
    var ms, r := UnitValue(v, unit, tail);
    var c1 := c.(eti := c.eti.(data := ms));
    d := if ch == ':' then c1.(state := TickPeriod, rest := more) else c1.(state := Semicolon, rest := sep);
    assert c.rest[0] == w[0] && IsDigit(w[0]);
    AtToken(c);
    if r == tail {
      RunStops(blanks, sep, IsDelim);
      assert tail[|blanks|..] == sep;
      assert sep[0] == ch && sep[1..] == more;
    } else if ms != 0 {
      NoDelim(r);
    }
  }

  lemma BlanksEnd(blanks: string, sep: string)
    requires Blanks(blanks) && Ends(sep)
    ensures Ends(blanks + sep)
  {
    if blanks == "" {
      assert blanks + sep == sep;
    }
  }

  lemma UnitHead(unit: string, tail: string)
    requires UnitShape(unit) && Ends(tail)
    ensures unit + tail != "" && !IsDigit((unit + tail)[0])
  {
    if unit == "" {
      assert unit + tail == tail;
    }
  }

  lemma NoDelim(r: string)
    requires r != "" && IsNameChar(r[0])
    ensures Run(r, IsDelim) == 0 && r[0..] == r && r[0] != ':' && r[0] != ';'
  {
  }

  // ---------------------------------------------------------------- the triggers

  /** A transition is being read for an existing state, and nothing of its trigger
      is known. */
  predicate Reading(c: Config) {
    c.eti.src.Some? && c.eti.src.value < |c.tmpl.states| && c.eti.data == 0 && c.eti.flags == 0
  }

  /** From a trigger to the end of its transition. */
  predicate Complete(c: Config, d: Config, more: string) {
    && d.state == TransEnter && d.rest == more && d.eti == CLEAN
    && NamesIn(d.tmpl) == NamesIn(c.tmpl) && d.tmpl.name == c.tmpl.name
  }

  lemma AtClose(c: Config, g: Gap, ch: char, more: string) returns (d: Config)
    requires c.state == Semicolon && c.eti.src.Some? && c.eti.src.value < |c.tmpl.states|
    requires GapOk(g) && Separator(ch) && more != "" && c.rest == GapText(g) + [ch] + more
    ensures Goes(c, d, ch == ';') && Complete(c, d, more)
  {
    hide Decode, GapText, GapOk, Separator, Ends, PendingTrans;
    var tail := [ch] + more;
    assert c.rest == GapText(g) + tail;
    SeparatorEnds(ch, more);
    SkipGap(c, g, tail);
    var c1 := c.(rest := tail);
    d := Config(TransEnter, more, c.mark, CLEAN, AddTrans(c.tmpl, c.eti.src.value, PendingTrans(c.eti)));
    assert c1.rest[0] == ch && c1.rest[1..] == more;
    SeparatorToken(ch);
    AtToken(c1);
  }

  lemma SeparatorToken(ch: char)
    requires Separator(ch)
    ensures !IsDelim(ch) && ch != '/'
  {
  }

  lemma AtPlain(c: Config, n: nat, after: Gap, ch: char, more: string) returns (d: Config)
    requires c.state == Code && Reading(c) && GapOk(after) && Separator(ch) && more != ""
    requires c.rest == Decimal(n) + GapText(after) + [ch] + more
    ensures Goes(c, d, ch == ';') && Complete(c, d, more)
  {
    hide Decode, GapText, GapOk, Decimal, Separator, Ends, NamesIn;
    var tail := [ch] + more;
    var r := GapText(after) + tail;
    SeparatorEnds(ch, more);
    GapEnds(after, tail);
    assert c.rest == Decimal(n) + r && r == GapText(after) + [ch] + more;
    ReadPlain(c, n, r);
    d := AtClose(c.(state := Semicolon, rest := r, eti := c.eti.(code := ToInt(n))), after, ch, more);
  }

  lemma AtData(c: Config, n: nat, skip: string, before: Gap, w: string, after: Gap, ch: char, more: string)
    returns (d: Config)
    requires c.state == Code && Reading(c) && GapOk(before) && Word(w, after) && Separator(ch) && more != ""
    requires Skipped(skip)
    requires c.rest == "data_" + Decimal(n) + skip + ":" + GapText(before) + w + GapText(after) + [ch] + more
    ensures Goes(c, d, EventGood(w) && ch == ';') && Complete(c, d, more)
  {
    hide Decode, GapText, GapOk, Decimal, Separator, NamesIn, EventGood, Stops;
    var r3 := GapText(after) + ([ch] + more);
    var r2 := w + r3;
    var r1 := GapText(before) + r2;
    assert r3 == GapText(after) + [ch] + more;
    assert c.rest == "data_" + Decimal(n) + skip + ":" + r1;
    WordStops(w, after, ch, more);
    ReadChannel(c, "data_", DataEvent, Data, n, skip, r1);
    var eti := c.eti.(code := ToInt(n), channel := Data);
    var c1 := c.(state := DataEvent, rest := r1, mark := ":" + r1, eti := eti);
    SkipGap(c1, before, r2);
    var c2 := AtEvent(c1.(rest := r2), w, r3);
    d := AtClose(c2, after, ch, more);
  }

  lemma AtSign(c: Config, n: nat, skip: string, before: Gap, w: string, after: Gap, ch: char, more: string)
    returns (d: Config)
    requires c.state == Code && Reading(c) && GapOk(before) && Word(w, after) && Separator(ch) && more != ""
    requires Skipped(skip)
    requires c.rest == "sign_" + Decimal(n) + skip + ":" + GapText(before) + w + GapText(after) + [ch] + more
    ensures Goes(c, d, SignalGood(w) && ch == ';') && Complete(c, d, more)
  {
    hide Decode, GapText, GapOk, Decimal, Separator, NamesIn, SignalGood, Stops;
    var r3 := GapText(after) + ([ch] + more);
    var r2 := w + r3;
    var r1 := GapText(before) + r2;
    assert r3 == GapText(after) + [ch] + more;
    assert c.rest == "sign_" + Decimal(n) + skip + ":" + r1;
    WordStops(w, after, ch, more);
    ReadChannel(c, "sign_", SignNumber, Sign, n, skip, r1);
    var c1 := c.(state := SignNumber, rest := r1, mark := ":" + r1, eti := c.eti.(code := ToInt(n), channel := Sign));
    SkipGap(c1, before, r2);
    var c2 := AtSignal(c1.(rest := r2), w, r3);
    d := AtClose(c2, after, ch, more);
  }

  /** Behind the interval: nothing, or a colon and the word for the period. */
  lemma AtPeriodDraft(c: Config, p: PeriodDraft, ch: char, more: string) returns (d: Config)
    requires c.state == TickPeriod && c.eti.src.Some? && c.eti.src.value < |c.tmpl.states| && c.eti.flags == 0
    requires p.Given? && GapOk(p.before) && Word(p.word, p.after) && Separator(ch) && more != ""
    requires c.rest == GapText(p.before) + p.word + GapText(p.after) + [ch] + more
    ensures Goes(c, d, PeriodGood(p) && ch == ';') && Complete(c, d, more)
  {
    hide Decode, GapText, GapOk, Separator, NamesIn, Stops;
    var r3 := GapText(p.after) + ([ch] + more);
    var r2 := p.word + r3;
    assert r3 == GapText(p.after) + [ch] + more;
    assert c.rest == GapText(p.before) + r2;
    WordStops(p.word, p.after, ch, more);
    SkipGap(c, p.before, r2);
    var c2 := AtPeriod(c.(rest := r2), p.word, r3);
    d := AtClose(c2, p.after, ch, more);
  }

  lemma DigitsHead(v: nat, more: string)
    ensures Decimal(v) + more != "" && (Decimal(v) + more)[0] != '/'
  {
    hide Decimal;
    assert IsDigit(Decimal(v)[0]);
  }

  /** The name of the timer and the layout in front of its interval. */
  lemma AtTickName(c: Config, n: nat, skip: string, before: Gap, v: nat, more: string) returns (d: Config)
    requires c.state == Code && Skipped(skip) && GapOk(before)
    requires c.rest == "tick_" + Decimal(n) + skip + ":" + (GapText(before) + (Decimal(v) + more))
    ensures Decode(c) == Decode(d) && d.eti == c.eti.(code := d.eti.code, channel := Tick)
    ensures d == Config(TickInterval, Decimal(v) + more, d.mark, d.eti, c.tmpl)
  {
    hide Decode, GapText, GapOk, Decimal;
    var r2 := Decimal(v) + more;
    var r1 := GapText(before) + r2;
    ReadChannel(c, "tick_", TickInterval, Tick, n, skip, r1);
    var c1 := c.(state := TickInterval, rest := r1, mark := ":" + r1, eti := c.eti.(code := ToInt(n), channel := Tick));
    DigitsHead(v, more);
    SkipGap(c1, before, r2);
    d := c1.(rest := r2);
  }

  lemma AtTick(c: Config, l: TriggerDraft, ch: char, more: string) returns (d: Config)
    requires c.state == Code && Reading(c) && l.TickDraft? && TriggerShape(l) && Separator(ch) && more != ""
    requires l.period.Absent? ==> ch != ':'
    requires c.rest == TriggerDraftText(l) + [ch] + more
    ensures Goes(c, d, TriggerGood(l) && ch == ';') && Complete(c, d, more)
  {
    hide Decode, GapText, GapOk, Decimal, Separator, NamesIn, TickGood, Word, TriggerDraftText, PeriodGood;
    var v, p := l.value, l.period;
    var sep := if p.Absent? then ch else ':';
    var tail := if p.Absent? then more else GapText(p.before) + p.word + GapText(p.after) + [ch] + more;
    var r := l.unit + l.blanks + [sep] + tail;
    TickText(l, ch, more);
    assert Decimal(v) + l.unit + l.blanks + [sep] + tail == Decimal(v) + r;
    var c1 := AtTickName(c, l.code, l.skip, l.before, v, r);
    ColonSeparates();
    var c2 := AtInterval(c1, v, l.unit, l.blanks, sep, tail);
    d := AtTickEnd(c2, p, ch, more);
    Absence(p);
  }

  lemma Absence(p: PeriodDraft)
    ensures p.Absent? ==> PeriodGood(p)
  {
  }

  lemma AtTickEnd(c: Config, p: PeriodDraft, ch: char, more: string) returns (d: Config)
    requires c.eti.src.Some? && c.eti.src.value < |c.tmpl.states| && c.eti.flags == 0
    requires (p.Given? ==> GapOk(p.before) && Word(p.word, p.after)) && Separator(ch) && more != ""
    requires p.Absent? && ch == ';' ==> c.state == Semicolon && c.rest == [ch] + more
    requires p.Given? ==>
               c.state == TickPeriod && c.rest == GapText(p.before) + p.word + GapText(p.after) + [ch] + more
    ensures p.Given? || ch == ';' ==> Goes(c, d, PeriodGood(p) && ch == ';')
    ensures Complete(c, d, more)
  {
    hide Decode, GapText, GapOk, Separator, NamesIn, Word;
    if p.Given? {
      d := AtPeriodDraft(c, p, ch, more);
    } else if ch == ';' {
      NoGap();
      assert [ch] + more == GapText([]) + [ch] + more;
      d := AtClose(c, [], ch, more);
    } else {
      d := Config(TransEnter, more, "", CLEAN, c.tmpl);
    }
  }

  lemma ColonSeparates()
    ensures Separator(':')
  {
  }

  lemma TickText(l: TriggerDraft, ch: char, more: string)
    requires l.TickDraft?
    ensures var sep := if l.period.Absent? then ch else ':';
            var p := l.period;
            var tail := if p.Absent? then more else GapText(p.before) + p.word + GapText(p.after) + [ch] + more;
            TriggerDraftText(l) + [ch] + more ==
            "tick_" + Decimal(l.code) + l.skip + ":" +
            (GapText(l.before) + (Decimal(l.value) + l.unit + l.blanks + [sep] + tail))
  {
    hide GapText, Decimal;
  }

  lemma NotTagged(channel: string, more: string, tag: string)
    requires ChannelShape(channel) && tag in {"tick_", "data_", "sign_"}
    ensures ScanTagged(channel + (":" + more), tag) == None
  {
    hide ScanInt;
    var r := channel + (":" + more);
    if Begins(r, tag) {
      assert r[|channel|] == ':';
      assert forall i :: 0 <= i < 5 ==> r[..5][i] == tag[i] != ':';
      assert |channel| >= 5 && channel[..5] == tag;
      assert r[5..][0] == if |channel| == 5 then ':' else channel[5];
      NoNumber(r[5..]);
    }
  }

  lemma AtOther(c: Config, channel: string, more: string)
    requires c.state == Code && ChannelShape(channel) && more != "" && c.rest == channel + (":" + more)
    ensures Decode(c).Fail?
  {
    hide Decode, ChannelShape, ScanTagged;
    NotTagged(channel, more, "tick_");
    NotTagged(channel, more, "data_");
    NotTagged(channel, more, "sign_");
    ChannelHead(channel);
    assert "" + (":" + more) == ":" + more;
    ReadChannelName(c, channel, "", more);
    var c1 := c.(state := CodeChannel, mark := ":" + more);
    assert c1.rest[0] == if channel == "" then ':' else channel[0];
    AtToken(c1);
  }

  lemma ChannelHead(channel: string)
    requires ChannelShape(channel)
    ensures channel != "" ==> NameChars(channel) && !IsDigit(channel[0]) && !IsDelim(channel[0]) && channel[0] != '/'
  {
  }

  lemma TriggerHead(l: TriggerDraft, more: string)
    requires TriggerShape(l)
    ensures TriggerDraftText(l) + more != "" && (TriggerDraftText(l) + more)[0] != '/'
  {
    hide GapText, GapOk, Decimal;
    match l
    case PlainDraft(n, a) => assert IsDigit(Decimal(n)[0]);
    case OtherDraft(channel, tail) => ChannelHead(channel);
    case _ =>
  }

  lemma AtTrigger(c: Config, l: TriggerDraft, ch: char, more: string) returns (d: Config)
    requires c.state == Code && Reading(c) && TriggerShape(l) && Separator(ch) && more != ""
    requires l.TickDraft? && l.period.Absent? ==> ch != ':'
    requires c.rest == TriggerDraftText(l) + [ch] + more
    ensures Goes(c, d, TriggerGood(l) && ch == ';') && Complete(c, d, more)
  {
    hide Decode, GapText, GapOk, Decimal, Separator, NamesIn, TickGood, Word, EventGood, SignalGood, ChannelShape;
    match l
    case PlainDraft(n, a) => d := AtPlain(c, n, a, ch, more);
    case TickDraft(_, _, _, _, _, _, _) => d := AtTick(c, l, ch, more);
    case DataDraft(n, skip, b, w, a) => d := AtData(c, n, skip, b, w, a, ch, more);
    case SignDraft(n, skip, b, w, a) => d := AtSign(c, n, skip, b, w, a, ch, more);
    case OtherDraft(channel, tail) =>
      assert c.rest == channel + (":" + (tail + [ch] + more));
      AtOther(c, channel, tail + [ch] + more);
      d := Config(TransEnter, more, "", CLEAN, c.tmpl);
  }

  // ------------------------------------------------------------- whole sections

  lemma ReadTransDraft(c: Config, t: TransDraft, more: string) returns (d: Config)
    requires AtTrans(c) && TransShape(t) && more != "" && c.rest == TransDraftText(t) + more
    ensures Goes(c, d, TransGood(t, NamesIn(c.tmpl))) && Complete(c, d, more)
  {
    hide Decode, GapText, GapOk, Separator, NamesIn, TriggerDraftText, TriggerShape, TriggerGood, Word;
    var r3 := TriggerDraftText(t.on) + [t.close] + more;
    var r2 := GapText(t.g4) + r3;
    var r1 := GapText(t.g2) + t.dst + GapText(t.g3) + [t.colon] + r2;
    assert c.rest == GapText(t.before) + t.src + GapText(t.g1) + t.arrow + r1;
    var c1 := SrcAndArrow(c, t, r1);
    if t.src in NamesIn(c.tmpl) {
      var c2 := DstAndColon(c1, t, r2);
      assert r3 == TriggerDraftText(t.on) + ([t.close] + more);
      TriggerHead(t.on, [t.close] + more);
      SkipGap(c2, t.g4, r3);
      d := AtTrigger(c2.(rest := r3), t.on, t.close, more);
    } else {
      d := Config(TransEnter, more, "", CLEAN, c.tmpl);
    }
  }

  /** The declarations of transitions: refused at the first one that is none. */
  lemma {:induction false} ReadTransDrafts(c: Config, ts: seq<TransDraft>, more: string) returns (d: Config)
    requires AtTrans(c) && more != ""
    requires forall i :: 0 <= i < |ts| ==> TransShape(ts[i])
    requires c.rest == TransDraftsText(ts) + more
    ensures Goes(c, d, forall i :: 0 <= i < |ts| ==> TransGood(ts[i], NamesIn(c.tmpl)))
    ensures Complete(c, d, more)
    decreases |ts|
  {
    hide Decode, TransDraftText, TransShape, TransGood, NamesIn;
    if ts == [] {
      assert c.rest == more;
      d := c;
    } else {
      var names := NamesIn(c.tmpl);
      var next := TransDraftsText(ts[1..]) + more;
      assert c.rest == TransDraftText(ts[0]) + next;
      var c1 := ReadTransDraft(c, ts[0], next);
      d := ReadTransDrafts(c1, ts[1..], more);
      FirstAndRest(ts, t => TransGood(t, names));
    }
  }

  lemma AtKeyword(c: Config, word: string, want: string, next: State, more: string)
    requires c.state in {Start, Idle} && Keyword(word) && Ends(more)
    requires || (want == "states" && next == StatesSection && word != "trans")
             || (want == "trans" && next == TransSection && word != "states")
    requires c.rest == word + more
    ensures Goes(c, c.(state := next, rest := more), word == want)
  {
    hide Decode, Ends;
    EndsNotEmpty(more);
    if word == want {
      ReadKeyword(c, word, next, more);
    } else {
      NoKeyword(word, more, "states");
      NoKeyword(word, more, "trans");
      assert c.rest[0] == word[0];
      AtToken(c);
    }
  }

  lemma EndsNotEmpty(more: string)
    requires Ends(more)
    ensures more != ""
  {
  }

  /** Whatever stands in front of the brace of the states is skipped. */
  lemma {:induction false} SkipToBrace(c: Config, skip: string, more: string)
    requires c.state == StatesSection && (forall i :: 0 <= i < |skip| ==> skip[i] !in {'{', '/'})
    requires more != "" && c.rest == skip + more
    ensures Decode(c) == Decode(c.(rest := more))
    decreases |skip|
  {
    if skip == "" {
      assert c.rest == more;
    } else {
      var next := c.(rest := skip[1..] + more);
      assert c.rest[0] == skip[0] && c.rest[1..] == next.rest;
      assert Step(c) == Next(next) by {
        if !IsDelim(skip[0]) {
          assert !Begins(c.rest, "//") && !Begins(c.rest, "/*");
        } else {
          SkipBlank(c, skip[0], next.rest);
        }
      }
      hide Step;
      SkipToBrace(next, skip[1..], more);
    }
  }

  lemma NoKeyword(word: string, more: string, keyword: string)
    requires Keyword(word) && Ends(more) && keyword in {"states", "trans"} && word != keyword
    ensures !Begins(word + more, keyword)
  {
    var r := word + more;
    if Begins(r, keyword) {
      assert r[|word|] == more[0];
      KeywordChars(keyword);
      assert forall i :: 0 <= i < |keyword| ==> r[i] == r[..|keyword|][i];
    }
  }

  lemma KeywordChars(keyword: string)
    requires keyword in {"states", "trans"}
    ensures forall i :: 0 <= i < |keyword| ==> IsNameChar(keyword[i])
  {
  }

  predicate StatesGood(d: Draft) {
    d.first == "states" && (forall i :: 0 <= i < |d.states| ==> StateGood(d.states[i])) && d.close1 == ';'
  }

  lemma ReadStatesHead(c: Config, d: Draft, more: string) returns (e: Config)
    requires DraftShape(d) && c.state == Start && more != ""
    requires c.rest == GapText(d.g0) + (d.first + (GapText(d.g1) + (d.skip + (['{'] + more))))
    ensures Goes(c, e, d.first == "states") && e == c.(state := StatesEnter, rest := more)
  {
    hide Decode, GapText, GapOk, StateShape, TransShape, Separator, Keyword, FinalGapOk, Ends;
    var rb := ['{'] + more;
    var rs := d.skip + rb;
    var r0 := GapText(d.g1) + rs;
    KeywordHead(d.first, r0);
    SkipHead(d.g1, d.skip, rb);
    SkipGap(c, d.g0, d.first + r0);
    AtKeyword(c.(rest := d.first + r0), d.first, "states", StatesSection, r0);
    var c0 := c.(state := StatesSection, rest := r0);
    SkipGap(c0, d.g1, rs);
    SkipToBrace(c0.(rest := rs), d.skip, rb);
    ReadPunctuation(c0.(rest := rb), '{', StatesEnter, more);
    e := c.(state := StatesEnter, rest := more);
  }

  lemma ReadStatesDraft(c: Config, d: Draft, more: string) returns (e: Config)
    requires DraftShape(d) && c.state == Start && more != ""
    requires c.rest == GapText(d.g0) + d.first + GapText(d.g1) + d.skip + "{" + StateDraftsText(d.states) +
                       GapText(d.g2) + "}" + GapText(d.g3) + [d.close1] + more
    ensures Goes(c, e, StatesGood(d))
    ensures e == c.(state := Idle, rest := more, tmpl := e.tmpl) && e.tmpl.name == c.tmpl.name
    ensures NamesIn(e.tmpl) == NamesIn(c.tmpl) + Declared(d.states)
  {
    hide Decode, GapText, GapOk, StateDraftsText, StateShape, StateGood, TransShape, Separator, NamesIn, Declared,
         Keyword, FinalGapOk;
    var r3 := GapText(d.g3) + [d.close1] + more;
    var r2 := GapText(d.g2) + "}" + r3;
    var r1 := StateDraftsText(d.states) + r2;
    assert c.rest == GapText(d.g0) + (d.first + (GapText(d.g1) + (d.skip + (['{'] + r1))));
    var c0 := ReadStatesHead(c, d, r1);
    var c1 := ReadStateDrafts(c0, d.states, r2);
    ReadGapPunctuation(c1, d.g2, '}', StatesLeave, r3);
    GapSeparator(c1.(state := StatesLeave, rest := r3), d.g3, d.close1, ';', Idle, more);
    e := c1.(state := Idle, rest := more);
  }

  lemma SkipHead(g: Gap, skip: string, more: string)
    requires GapOk(g) && more != "" && more[0] == '{'
    requires (forall i :: 0 <= i < |skip| ==> skip[i] !in {'{', '/'}) && (skip != "" ==> !IsNameChar(skip[0]))
    ensures Ends(GapText(g) + (skip + more)) && skip + more != "" && (skip + more)[0] != '/'
  {
    if skip == "" {
      assert skip + more == more;
    }
    GapEnds(g, skip + more);
  }

  lemma KeywordHead(word: string, more: string)
    requires Keyword(word)
    ensures word + more != "" && (word + more)[0] != '/'
  {
  }

  predicate TransesGood(d: Draft, names: seq<string>) {
    && d.second == "trans" && d.open == '{' && (forall i :: 0 <= i < |d.trans| ==> TransGood(d.trans[i], names))
    && (d.close2 == ';' || d.g8 == [])
  }

  lemma ReadEndDraft(c: Config, g7: Gap, ch: char, g8: Gap)
    requires c.state == TransLeave && GapOk(g7) && Separator(ch) && FinalGapOk(g8)
    requires c.rest == GapText(g7) + [ch] + GapText(g8)
    ensures if ch == ';' || g8 == [] then Decode(c) == Done(c.tmpl) else Decode(c).Fail?
  {
    hide Decode, GapText, GapOk, FinalGapOk;
    if g8 == [] {
      NoGap();
      SeparatorEnds(ch, "");
      assert c.rest == GapText(g7) + [ch] && [ch] + "" == [ch];
      SkipGap(c, g7, [ch]);
      DecodeLast(c.(rest := [ch]));
    } else {
      FinalNotEmpty(g8);
      GapSeparator(c, g7, ch, ';', Idle, GapText(g8));
      EndWithGap(c.(state := Idle, rest := GapText(g8)), g8);
    }
  }

  lemma ReadTransesDraft(c: Config, d: Draft) returns (t: Template)
    requires DraftShape(d) && c.state == Idle && c.eti == CLEAN && "" !in NamesIn(c.tmpl)
    requires c.rest == GapText(d.g4) + d.second + GapText(d.g5) + [d.open] + TransDraftsText(d.trans) +
                       GapText(d.g6) + "}" + GapText(d.g7) + [d.close2] + GapText(d.g8)
    ensures if TransesGood(d, NamesIn(c.tmpl)) then Decode(c) == Done(t) else Decode(c).Fail?
    ensures NamesIn(t) == NamesIn(c.tmpl) && t.name == c.tmpl.name
  {
    hide Decode, GapText, GapOk, TransDraftsText, StateShape, TransGood, TransShape, Separator, NamesIn, Keyword,
         FinalGapOk;
    var r3 := GapText(d.g7) + [d.close2] + GapText(d.g8);
    var r2 := GapText(d.g6) + "}" + r3;
    var r1 := TransDraftsText(d.trans) + r2;
    var r0 := GapText(d.g5) + [d.open] + r1;
    KeywordHead(d.second, r0);
    assert c.rest == GapText(d.g4) + (d.second + r0);
    SkipGap(c, d.g4, d.second + r0);
    SeparatorEnds(d.open, r1);
    GapEnds(d.g5, [d.open] + r1);
    assert r0 == GapText(d.g5) + ([d.open] + r1);
    AtKeyword(c.(rest := d.second + r0), d.second, "trans", TransSection, r0);
    GapSeparator(c.(state := TransSection, rest := r0), d.g5, d.open, '{', TransEnter, r1);
    var c1 := ReadTransDrafts(c.(state := TransEnter, rest := r1), d.trans, r2);
    t := c1.tmpl;
    ReadGapPunctuation(c1, d.g6, '}', TransLeave, r3);
    ReadEndDraft(c1.(state := TransLeave, rest := r3), d.g7, d.close2, d.g8);
  }

  lemma NewNames(name: string)
    ensures NamesIn(NewTemplate(name)) == ["init", "fini"]
  {
  }

  lemma {:induction false} DeclaredNotEmpty(ds: seq<StateDraft>)
    ensures "" !in Declared(ds)
    decreases |ds|
  {
    if ds != [] {
      DeclaredNotEmpty(ds[1..]);
    }
  }

  lemma GoodParts(d: Draft)
    ensures DraftGood(d) <==> StatesGood(d) && TransesGood(d, DraftNames(d))
  {
    hide StateGood, TransGood, DraftNames;
  }

  /** A text laid out like a program is parsed exactly if it is one, and refused
      otherwise. The template then has the declared states, in order. */
  lemma DraftDecides(name: string, d: Draft)
    requires DraftShape(d)
    ensures DraftGood(d) <==> DecodeText(NewTemplate(name), DraftText(d)).Done?
    ensures !DraftGood(d) <==> DecodeText(NewTemplate(name), DraftText(d)).Fail?
    ensures DraftGood(d) ==> NamesIn(DecodeText(NewTemplate(name), DraftText(d)).tmpl) == DraftNames(d)
  {
    hide Decode, GapText, GapOk, StateDraftsText, TransDraftsText, StateShape, StateGood, TransGood, TransShape,
         Separator, NamesIn, Keyword, FinalGapOk, Declared, DraftGood, StatesGood, TransesGood, NewTemplate;
    var more := GapText(d.g4) + d.second + GapText(d.g5) + [d.open] + TransDraftsText(d.trans) + GapText(d.g6) + "}" +
                GapText(d.g7) + [d.close2] + GapText(d.g8);
    var c := Config(Start, DraftText(d), "", CLEAN, NewTemplate(name));
    assert c.rest == GapText(d.g0) + d.first + GapText(d.g1) + d.skip + "{" + StateDraftsText(d.states) +
                     GapText(d.g2) + "}" + GapText(d.g3) + [d.close1] + more;
    NewNames(name);
    DeclaredNotEmpty(d.states);
    GoodParts(d);
    var e := ReadStatesDraft(c, d, more);
    if StatesGood(d) {
      var t := ReadTransesDraft(e, d);
    }
  }

  // ------------------------------------------------------ comments and long names

  /** Before any comment closes, another one opens, or none closes at all. */
  ghost predicate Unclosed(r: string) {
    forall i :: 0 <= i < |r| && Begins(r[i..], "*/") ==> exists j :: 0 <= j < i && Begins(r[j..], "/*")
  }

  lemma {:induction false} NoBlockEnd(r: string)
    requires Unclosed(r)
    ensures BlockEnd(r) == None
    decreases |r|
  {
    assert r[0..] == r;
    if |r| > 1 && !Begins(r, "/*") {
      forall i | 0 <= i < |r[1..]| && Begins(r[1..][i..], "*/")
        ensures exists j :: 0 <= j < i && Begins(r[1..][j..], "/*")
      {
        assert r[i + 1..] == r[1..][i..];
        var j :| 0 <= j < i + 1 && Begins(r[j..], "/*");
        assert r[j..] == r[1..][j - 1..];
      }
      NoBlockEnd(r[1..]);
    }
  }

  /** A block comment that does not close, or in which another one opens, is an error
      wherever it stands. */
  lemma UnclosedFails(c: Config, r: string)
    requires c.rest == "/*" + r && r != "" && Unclosed("*" + r)
    ensures Decode(c) == Fail(c.tmpl)
  {
    hide BlockEnd, Switch;
    NoBlockEnd("*" + r);
    assert c.rest[1..] == "*" + r;
    assert !Begins(c.rest, "//") && Begins(c.rest, "/*");
    assert Step(c) == Fail(c.tmpl);
  }

  /** A name of 64 characters does not fit where the code copies it. */
  lemma LongNameOverflows(c: Config, name: string, more: string)
    requires c.state == StatesEnter && NameChars(name) && |name| >= 64 && Ends(more)
    requires c.rest == name + more
    ensures Decode(c) == Undefined
  {
    hide Decode, Run, PushState;
    NameRun(name, more);
    AtToken(c);
    AtToken(c.(state := NameEnter));
  }
}
