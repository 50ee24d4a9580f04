/** The decoder on one token or gap at a time: what it has read when it goes on
    with the text behind. */
module ReadTokens {
  import opened Wrappers
  import opened Text
  import opened Template
  import opened Decoder
  import opened Surface

  function Continue(v: Verdict): Verdict {
    match v
    case Next(d) => Decode(d)
    case _ => v
  }

  /** A round that starts at a token goes straight to the switch. */
  lemma AtToken(c: Config)
    requires |c.rest| >= 2 && !IsDelim(c.rest[0]) && c.rest[0] != '/'
    ensures Decode(c) == Continue(Switch(c))
  {
    hide Switch, Run;
    assert !Begins(c.rest, "//") && !Begins(c.rest, "/*");
    assert Step(c) == Switch(c);
  }

  lemma BeginsHead(r: string, w: string)
    requires Begins(r, w) && w != ""
    ensures r != "" && r[0] == w[0]
  {
    assert r[..|w|][0] == w[0];
  }

  // -------------------------------------------------------------------- gaps

  lemma SkipBlank(c: Config, ch: char, more: string)
    requires IsDelim(ch) && more != "" && c.rest == [ch] + more
    ensures Decode(c) == Decode(c.(rest := more))
  {
    hide Switch, Run;
    assert c.rest[1..] == more && c.rest[0] == ch;
    if Begins(c.rest, "//") {
      BeginsHead(c.rest, "//");
    }
    if Begins(c.rest, "/*") {
      BeginsHead(c.rest, "/*");
    }
    assert Step(c) == Next(c.(rest := more));
  }

  lemma SkipLineComment(c: Config, text: string, more: string)
    requires '\n' !in text && more != ""
    requires c.rest == "//" + text + "\n" + more
    ensures Decode(c) == Decode(c.(rest := more))
  {
    hide Switch;
    var lf := "\n" + more;
    assert c.rest == ("//" + text) + lf;
    RunStops("//" + text, lf, NotLf);
    var n := Run(c.rest, NotLf);
    assert n == 2 + |text| && n < |c.rest| - 1;
    assert c.rest[n..] == lf;
    assert Begins(c.rest, "//");
    assert !Begins(lf, "/*");
    assert lf[1..] == more;
    assert Step(c) == Next(c.(rest := more));
  }

  lemma {:induction false} BlockEndFound(b: string, i: nat, tail: string)
    requires BodyOk(b) && i <= |b| + 1
    ensures BlockEnd(("*" + b + "*")[i..] + "/" + tail) == Some("*/" + tail)
    decreases |b| + 1 - i
  {
    var t := "*" + b + "*";
    var r := t[i..] + "/" + tail;
    if i == |b| + 1 {
      assert t[i..] == "*";
      assert r == "*/" + tail;
      assert Begins(r, "*/");
    } else {
      assert r[..2] == t[i..][..2];
      assert !Begins(t[i..], "*/") && !Begins(t[i..], "/*");
      assert r[1..] == t[i + 1..] + "/" + tail;
      BlockEndFound(b, i + 1, tail);
    }
  }

  lemma SkipBlockComment(c: Config, b: string, more: string)
    requires BodyOk(b) && more != "" && !Begins(more, "//") && !Begins(more, "/*")
    requires c.rest == "/*" + b + "*/" + more
    ensures Decode(c) == Decode(c.(rest := more))
  {
    hide Switch, Run, BlockEnd, BodyOk;
    BlockEndFound(b, 0, more);
    assert ("*" + b + "*")[0..] == "*" + b + "*";
    assert c.rest[1..] == "*" + b + "*" + "/" + more;
    var e := "*/" + more;
    assert e[2..] == more;
    assert Begins(c.rest, "/*") && !Begins(c.rest, "//");
    assert BlockEnd(c.rest[1..]) == Some(e);
    if |more| > 1 {
      assert Step(c) == AfterComments(c.(rest := more)) == Step(c.(rest := more));
    } else {
      assert Step(c) == Done(c.tmpl);
    }
  }

  lemma NoComment(more: string)
    requires more != "" && more[0] != '/'
    ensures !Begins(more, "//") && !Begins(more, "/*")
  {
    if Begins(more, "//") {
      BeginsHead(more, "//");
    }
    if Begins(more, "/*") {
      BeginsHead(more, "/*");
    }
  }

  lemma SkipItem(c: Config, g: GapItem, more: string)
    requires ItemOk(g) && more != "" && c.rest == ItemText(g) + more
    requires g.BlockComment? ==> more[0] != '/'
    ensures Decode(c) == Decode(c.(rest := more))
  {
    hide Decode, BodyOk;
    match g
    case Blank(ch) => SkipBlank(c, ch, more);
    case LineComment(t) =>
      SkipLineComment(c, t, more);
    case BlockComment(b) =>
      NoComment(more);
      SkipBlockComment(c, b, more);
  }

  /** What follows a comment inside layout. */
  lemma BehindItem(g: Gap, more: string)
    requires g != [] && GapOk(g) && more != "" && more[0] != '/'
    ensures GapOk(g[1..]) && GapText(g[1..]) + more != ""
    ensures g[0].BlockComment? ==> (GapText(g[1..]) + more)[0] != '/'
  {
    assert forall i :: 0 <= i < |g[1..]| ==> g[1..][i] == g[i + 1];
    if g[1..] == [] {
      assert GapText(g[1..]) + more == more;
    } else {
      assert ItemOk(g[1]);
      GapNotEmpty(g[1..]);
      assert (GapText(g[1..]) + more)[0] == GapText(g[1..])[0];
    }
  }

  /** Layout in front of a token is skipped. */
  lemma {:induction false} SkipGap(c: Config, g: Gap, more: string)
    requires GapOk(g) && more != "" && more[0] != '/' && c.rest == GapText(g) + more
    ensures Decode(c) == Decode(c.(rest := more))
    decreases |g|
  {
    hide Decode, ItemOk, ItemText;
    if g != [] {
      var next := GapText(g[1..]) + more;
      assert c.rest == ItemText(g[0]) + next;
      BehindItem(g, more);
      SkipItem(c, g[0], next);
      SkipGap(c.(rest := next), g[1..], more);
      assert c.(rest := next).(rest := more) == c.(rest := more);
    } else {
      assert c.rest == more;
    }
  }

  lemma EndWithItem(c: Config, g: GapItem)
    requires ItemOk(g) && !g.BlockComment? && c.rest == ItemText(g)
    ensures Decode(c) == Done(c.tmpl)
  {
    hide BodyOk, BlockEnd, Switch;
    match g
    case Blank(ch) =>
    case LineComment(t) =>
      assert c.rest == ("//" + t) + "\n";
      RunStops("//" + t, "\n", NotLf);
      assert Begins(c.rest, "//");
      assert Step(c) == Done(c.tmpl);
  }

  /** Layout up to the end of the text ends the parse. */
  lemma {:induction false} EndWithGap(c: Config, g: Gap)
    requires g != [] && FinalGapOk(g) && c.rest == GapText(g)
    ensures Decode(c) == Done(c.tmpl)
    decreases |g|
  {
    hide Decode, ItemOk, ItemText;
    var next := GapText(g[1..]);
    if g[1..] == [] {
      assert c.rest == ItemText(g[0]);
      EndWithItem(c, g[0]);
    } else {
      GapTail(g);
      GapNotEmpty(g[1..]);
      SkipItem(c, g[0], next);
      EndWithGap(c.(rest := next), g[1..]);
    }
  }

  lemma GapTail(g: Gap)
    requires |g| > 1 && FinalGapOk(g)
    ensures FinalGapOk(g[1..]) && (g[0].BlockComment? ==> GapText(g[1..]) != "" && GapText(g[1..])[0] != '/')
  {
    assert forall i :: 0 <= i < |g[1..]| ==> g[1..][i] == g[i + 1];
    GapNotEmpty(g[1..]);
  }

  lemma GapNotEmpty(g: Gap)
    requires g != [] && GapOk(g)
    ensures GapText(g) != "" && GapText(g)[0] in {' ', '\t', '\n', '/'}
  {
    assert GapText(g)[0] == ItemText(g[0])[0];
  }

  lemma FinalNotEmpty(g: Gap)
    requires FinalGapOk(g) && g != []
    ensures GapText(g) != ""
  {
    GapNotEmpty(g);
  }

  /** The last character of a text is never looked at. */
  lemma DecodeLast(c: Config)
    requires |c.rest| == 1
    ensures Decode(c) == Done(c.tmpl)
  {
  }

  /** The text ends a name, word or number in front of it. */
  predicate Ends(r: string) {
    r != "" && !IsNameChar(r[0])
  }

  lemma GapEnds(g: Gap, more: string)
    requires GapOk(g) && Ends(more)
    ensures Ends(GapText(g) + more)
  {
    if g == [] {
      assert GapText(g) + more == more;
    } else {
      GapNotEmpty(g);
      assert (GapText(g) + more)[0] == GapText(g)[0];
    }
  }

  // -------------------------------------------------------------- punctuation

  predicate Expects(s: State, ch: char, next: State) {
    match s
    case StatesSection => ch == '{' && next == StatesEnter
    case StatesEnter => ch == '}' && next == StatesLeave
    case StatesLeave => ch == ';' && next == Idle
    case NameLeave => ch == ';' && next == StatesEnter
    case TransSection => ch == '{' && next == TransEnter
    case TransEnter => ch == '}' && next == TransLeave
    case TransLeave => ch == ';' && next == Idle
    case DstColon => ch == ':' && next == Code
    case _ => false
  }

  lemma ReadPunctuation(c: Config, ch: char, next: State, more: string)
    requires Expects(c.state, ch, next)
    requires more != "" && c.rest == [ch] + more
    ensures Decode(c) == Decode(c.(state := next, rest := more))
  {
    hide Decode;
    assert c.rest[0] == ch && c.rest[1..] == more;
    AtToken(c);
  }

  lemma NoSlashExpected(state: State, ch: char, next: State)
    requires Expects(state, ch, next)
    ensures ch != '/'
  {
  }

  /** Layout, then a separator. */
  lemma ReadGapPunctuation(c: Config, g: Gap, ch: char, next: State, more: string)
    requires GapOk(g) && Expects(c.state, ch, next)
    requires more != "" && c.rest == GapText(g) + [ch] + more
    ensures Decode(c) == Decode(c.(state := next, rest := more))
  {
    NoSlashExpected(c.state, ch, next);
    hide Decode, Expects, GapText, GapOk;
    assert c.rest == GapText(g) + ([ch] + more);
    SkipGap(c, g, [ch] + more);
    ReadPunctuation(c.(rest := [ch] + more), ch, next, more);
  }

  lemma ReadKeyword(c: Config, word: string, next: State, more: string)
    requires c.state in {Start, Idle} && more != ""
    requires (word, next) in {("states", StatesSection), ("trans", TransSection)}
    requires c.rest == word + more
    ensures Decode(c) == Decode(c.(state := next, rest := more))
  {
    hide Decode;
    assert c.rest[0] == word[0] && c.rest[|word|..] == more;
    assert Begins(c.rest, word);
    if word == "trans" && Begins(c.rest, "states") {
      BeginsHead(c.rest, "states");
    }
    AtToken(c);
  }

  // ------------------------------------------------------------------- states

  predicate NameChars(name: string) {
    name != "" && forall i :: 0 <= i < |name| ==> IsNameChar(name[i])
  }

  lemma NameRun(name: string, more: string)
    requires NameChars(name) && Ends(more)
    ensures Run(name + more, IsNameChar) == |name|
    ensures (name + more)[..|name|] == name && (name + more)[|name|..] == more
    ensures |name + more| >= 2 && !IsDelim((name + more)[0]) && (name + more)[0] != '/'
    ensures IsNameChar((name + more)[0]) && (name + more)[0] !in {'}', ';'}
  {
    RunStops(name, more, IsNameChar);
  }

  lemma ReadStateName(c: Config, name: string, more: string)
    requires c.state == StatesEnter && NameChars(name) && |name| < NAME_SIZE && Ends(more)
    requires name !in {"init", "fini"}
    requires c.rest == name + more
    ensures Decode(c) == Decode(c.(state := NameLeave, rest := more, tmpl := PushState(c.tmpl, name)))
  {
    hide Decode, Run, PushState;
    NameRun(name, more);
    AtToken(c);
    var c1 := c.(state := NameEnter);
    AtToken(c1);
    assert Switch(c1) == Next(c.(state := NameLeave, rest := more, tmpl := PushState(c.tmpl, name)));
  }

  /** A name does not look like a comment. */
  lemma NameHead(name: string)
    ensures NameOk(name) ==> NameChars(name) && |name| < NAME_SIZE && name !in {"init", "fini"}
    ensures NameOk(name) || NameChars(name) ==> name != "" && name[0] != '/'
  {
    assert name != "" && IsNameChar(name[0]) ==> name[0] != '/';
  }

  /** The two states that every machine has cannot be declared: the pointer stays on
      the name, where a semicolon has to be. */
  lemma ReservedFails(c: Config, name: string, more: string)
    requires c.state == StatesEnter && name in {"init", "fini"} && Ends(more)
    requires c.rest == name + more
    ensures Decode(c) == Fail(c.tmpl)
  {
    hide Decode, Run, PushState;
    assert NameChars(name) by {
      assert "init"[0] == 'i' && "init"[1] == 'n' && "init"[2] == 'i' && "init"[3] == 't';
      assert "fini"[0] == 'f' && "fini"[1] == 'i' && "fini"[2] == 'n' && "fini"[3] == 'i';
    }
    RunStops(name, more, IsNameChar);
    assert c.rest[..|name|] == name && c.rest[0] == name[0];
    AtToken(c);
    AtToken(c.(state := NameEnter));
    AtToken(c.(state := NameLeave));
  }

  /** One declaration `name;` of a states section. */
  lemma ReadStateDecl(c: Config, d: StateDecl, more: string)
    requires c.state == StatesEnter && StateOk(d) && more != ""
    requires c.rest == StateText(d) + more
    ensures Decode(c) == Decode(c.(rest := more, tmpl := PushState(c.tmpl, d.name)))
  {
    hide Decode, GapText, PushState, GapOk, NameOk, Expects, Ends;
    var r2 := GapText(d.after) + ";" + more;
    var r1 := d.name + r2;
    assert c.rest == GapText(d.before) + r1;
    assert r1 != "" && Ends(";" + more) by { assert (";" + more)[0] == ';'; EndsSemicolon(more); }
    assert r2 == GapText(d.after) + (";" + more);
    GapEnds(d.after, ";" + more);
    NameHead(d.name);
    SkipGap(c, d.before, r1);
    ReadStateName(c.(rest := r1), d.name, r2);
    var c2 := c.(state := NameLeave, rest := r2, tmpl := PushState(c.tmpl, d.name));
    ExpectsSemicolon();
    ReadGapPunctuation(c2, d.after, ';', StatesEnter, more);
  }

  lemma EndsSemicolon(more: string)
    ensures Ends(";" + more) && Ends(":" + more) && Ends("->" + more)
  {
  }

  lemma ExpectsSemicolon()
    ensures Expects(NameLeave, ';', StatesEnter)
    ensures Expects(DstColon, ':', Code)
  {
  }
}
