/** The character-level state machine that reads a template text. */
module Decoder {
  import opened Wrappers
  import opened Text
  import opened Template

  datatype State =
    | Start | Idle
    | StatesSection | StatesEnter | NameEnter | NameLeave | StatesLeave
    | TransSection | TransEnter | Src | Row | Dst | DstColon
    | Code | CodeChannel | TickInterval | TickPeriod | SignNumber | DataEvent
    | Semicolon | TransLeave

  /** The transition being read; src and dst are indices of states. */
  datatype Pending =
    Pending(code: int, flags: nat, channel: Channel, data: nat, src: Option<nat>, dst: Option<nat>)

  const CLEAN: Pending := Pending(-1, 0, NoChannel, 0, None, None)

  /** `rest` is the text from p to the end. `mark` is the text from s where s
      outlives a round of the loop: from Code to CodeChannel. */
  datatype Config = Config(state: State, rest: string, mark: string, eti: Pending, tmpl: Template)

  /** One round of the loop goes on, ends the parse, with success or an error and
      the template as it is then, or does what C leaves undefined. */
  datatype Verdict = Next(c: Config) | Done(tmpl: Template) | Fail(tmpl: Template) | Undefined

  // --------------------------------------------------- comments and white space

  predicate NotLf(c: char) {
    c != '\n'
  }

  /** The text from the end of a block comment on, that is, from its closing star
      and slash; None when the text ends or another comment opens before that. */
  function BlockEnd(r: string): (e: Option<string>)
    ensures e.Some? ==> 2 <= |e.value| <= |r|
  {
    if Begins(r, "*/") then Some(r)
    else if |r| <= 1 || Begins(r, "/*") then None
    else BlockEnd(r[1..])
  }

  /** One round of the loop; the caller has checked that p is not at the last
      character. */
  function Step(c: Config): Verdict {
    if Begins(c.rest, "//") then
      // stops at the line feed or at the last character, whichever is first
      var n := Run(c.rest, NotLf);
      var m := if n < |c.rest| - 1 then n else |c.rest| - 1;
      if m == |c.rest| - 1 then Done(c.tmpl) else AfterLineComment(c.(rest := c.rest[m..]))
    else
      AfterLineComment(c)
  }

  function AfterLineComment(c: Config): Verdict {
    if Begins(c.rest, "/*") then
      match BlockEnd(c.rest[1..])
      case None => Fail(c.tmpl)
      case Some(e) => if |e| == 3 then Done(c.tmpl) else AfterComments(c.(rest := e[2..]))
    else
      AfterComments(c)
  }

  function AfterComments(c: Config): Verdict {
    if c.rest != "" && IsDelim(c.rest[0]) then Next(c.(rest := c.rest[1..]))
    else Switch(c)
  }

  function Switch(c: Config): Verdict {
    match c.state
    case Start => OnIdle(c)
    case Idle => OnIdle(c)
    case StatesSection => OnStatesSection(c)
    case StatesEnter => OnStatesEnter(c)
    case NameEnter => OnNameEnter(c)
    case NameLeave => Expect(c, ';', StatesEnter)
    case StatesLeave => Expect(c, ';', Idle)
    case TransSection => Expect(c, '{', TransEnter)
    case TransEnter => OnTransEnter(c)
    case Src => OnSrc(c)
    case Row => if Begins(c.rest, "->") then Next(c.(state := Dst, rest := c.rest[2..])) else Fail(c.tmpl)
    case Dst => OnDst(c)
    case DstColon => Expect(c, ':', Code)
    case Code => OnCode(c)
    case CodeChannel => OnCodeChannel(c)
    case TickInterval => OnTickInterval(c)
    case TickPeriod => OnTickPeriod(c)
    case SignNumber => OnSignNumber(c)
    case DataEvent => OnDataEvent(c)
    case Semicolon => OnSemicolon(c)
    case TransLeave => Expect(c, ';', Idle)
  }

  function Expect(c: Config, ch: char, next: State): Verdict {
    if Peek(c.rest, 0) == ch && c.rest != "" then Next(c.(state := next, rest := c.rest[1..])) else Fail(c.tmpl)
  }

  // ---------------------------------------------------------------- sections

  function OnIdle(c: Config): Verdict {
    if |c.rest| > 6 && Begins(c.rest, "states") then Next(c.(state := StatesSection, rest := c.rest[6..]))
    else if |c.rest| > 5 && Begins(c.rest, "trans") then Next(c.(state := TransSection, rest := c.rest[5..]))
    else Fail(c.tmpl)
  }

  /** Anything up to the open brace is skipped; running past the end is undefined. */
  function OnStatesSection(c: Config): Verdict {
    if c.rest == "" then Undefined
    else Next(c.(state := if c.rest[0] == '{' then StatesEnter else StatesSection, rest := c.rest[1..]))
  }

  function OnStatesEnter(c: Config): Verdict {
    if c.rest == "" then Fail(c.tmpl)
    else if c.rest[0] == '}' then Next(c.(state := StatesLeave, rest := c.rest[1..]))
    else if c.rest[0] == ';' then Next(c.(rest := c.rest[1..]))
    else if IsNameChar(c.rest[0]) then Next(c.(state := NameEnter))
    else Fail(c.tmpl)
  }

  function OnNameEnter(c: Config): Verdict {
    if Peek(c.rest, 0) == '}' then
      if |c.tmpl.states| == 2 then Fail(c.tmpl)
      else Next(c.(state := StatesLeave, rest := c.rest[1..]))
    else
      var n := Run(c.rest, IsNameChar);
      var name := c.rest[..n];
      if name == "init" || name == "fini" then Next(c.(state := NameLeave))
      else if n >= NAME_SIZE then Undefined // the name and its NUL do not fit
      else Next(c.(state := NameLeave, rest := c.rest[n..], tmpl := PushState(c.tmpl, name)))
  }

  // ------------------------------------------------------------- transitions

  function OnTransEnter(c: Config): Verdict {
    if c.rest == "" then Fail(c.tmpl)
    else if c.rest[0] == '}' then Next(c.(state := TransLeave, rest := c.rest[1..]))
    else if IsNameChar(c.rest[0]) then Next(c.(state := Src))
    else Fail(c.tmpl)
  }

  function OnSrc(c: Config): Verdict {
    var n := Run(c.rest, IsNameChar);
    match FindState(c.tmpl.states, c.rest[..n])
    case None => Fail(c.tmpl)
    case Some(k) =>
      Next(c.(state := Row, rest := c.rest[n..], eti := c.eti.(src := Some(k))))
  }

  function OnDst(c: Config): Verdict {
    var n := Run(c.rest, IsNameChar);
    var after := c.(state := DstColon, rest := c.rest[n..]);
    if c.rest[..n] == "self" then Next(after.(eti := c.eti.(dst := None)))
    else if n == 0 then Fail(c.tmpl)
    else
      match FindState(c.tmpl.states, c.rest[..n])
      case None => Fail(c.tmpl)
      case Some(k) => Next(after.(eti := c.eti.(dst := Some(k))))
  }

  predicate NotColon(c: char) {
    c != ':'
  }

  /** A plain code, or else a channel whose name ends at the next colon; a text
      without another colon is read past its end. */
  function OnCode(c: Config): Verdict {
    var n := Run(c.rest, IsNameChar);
    var m := c.rest[n..];
    match ScanInt(c.rest)
    case Some(v) => Next(c.(state := Semicolon, rest := m, eti := c.eti.(code := v)))
    case None =>
      var k := Run(m, NotColon);
      if k == |m| then Undefined else Next(c.(state := CodeChannel, mark := m[k..]))
  }

  /** The text after the colon that s was left on. */
  function OnCodeChannel(c: Config): Verdict {
    var after := if c.mark == "" then "" else c.mark[1..];
    match (ScanTagged(c.rest, "tick_"), ScanTagged(c.rest, "data_"), ScanTagged(c.rest, "sign_"))
    case (Some(v), _, _) =>
      Next(c.(state := TickInterval, rest := after, eti := c.eti.(code := v, channel := Tick)))
    case (None, Some(v), _) =>
      Next(c.(state := DataEvent, rest := after, eti := c.eti.(code := v, channel := Data)))
    case (None, None, Some(v)) =>
      Next(c.(state := SignNumber, rest := after, eti := c.eti.(code := v, channel := Sign)))
    case (None, None, None) => Fail(c.tmpl)
  }

  /** The interval in milliseconds and the text after its unit. */
  function Interval(r: string, digits: nat, prev: nat): (nat, string)
    requires digits <= |r| && forall i :: 0 <= i < digits ==> IsDigit(r[i])
  {
    var value := ToUnsigned(DigitsValue(r[..digits], 0));
    if Begins(r[digits..], "ms") then (value, r[digits + 2..])
    else if Begins(r[digits..], "s") then (value * 1000 % 0x1_0000_0000, r[digits + 1..])
    else (prev, r)
  }

  function OnTickInterval(c: Config): Verdict {
    var n := Run(c.rest, IsDigit);
    if n == 0 then Fail(c.tmpl)
    else
      var (ms, r) := Interval(c.rest, n, c.eti.data);
      var r' := r[Run(r, IsDelim)..];
      var c' := c.(rest := r', eti := c.eti.(data := ms));
      if ms == 0 then Fail(c.tmpl)
      else if Peek(r', 0) == ':' then Next(c'.(state := TickPeriod, rest := r'[1..]))
      else if Peek(r', 0) == ';' then Next(c'.(state := Semicolon))
      else Fail(c.tmpl)
  }

  predicate IsWordChar(c: char) {
    IsLetter(c) || c == '_'
  }

  function PeriodFlags(word: string, prev: nat): nat {
    if word == "ESMA_TM_PERIODIC" then PERIODIC
    else if word == "ESMA_TM_ONESHOT" then ONESHOT
    else prev
  }

  function OnTickPeriod(c: Config): Verdict {
    var n := Run(c.rest, IsWordChar);
    var flags := PeriodFlags(c.rest[..n], c.eti.flags);
    if flags == 0 then Fail(c.tmpl)
    else
      Next(c.(state := Semicolon, rest := c.rest[n..], eti := c.eti.(flags := flags)))
  }

  predicate IsSignalChar(c: char) {
    IsLetter(c) || IsDigit(c)
  }

  predicate Is3(w: string, c0: char, c1: char, c2: char)
    requires |w| == 3
  {
    w[0] == c0 && w[1] == c1 && w[2] == c2
  }

  predicate Is4(w: string, c0: char, c1: char, c2: char, c3: char)
    requires |w| == 4
  {
    w[0] == c0 && w[1] == c1 && w[2] == c2 && w[3] == c3
  }

  /** The signal called SIG<word>, with the numbers of Linux; a word that is
      neither three nor four long only has to begin with VTALRM. */
  function SignalNumber(word: string): nat {
    match |word|
    case 3 =>
      if Is3(word, 'F', 'P', 'E') then 8
      else if Is3(word, 'H', 'U', 'P') then 1
      else if Is3(word, 'I', 'N', 'T') then 2
      else if Is3(word, 'S', 'Y', 'S') then 31
      else if Is3(word, 'U', 'R', 'G') then 23
      else 0
    case 4 =>
      if Is4(word, 'A', 'B', 'R', 'T') then 6
      else if Is4(word, 'A', 'L', 'R', 'M') then 14
      else if Is4(word, 'C', 'H', 'L', 'D') then 17
      else if Is4(word, 'C', 'O', 'N', 'T') then 18
      else if Is4(word, 'P', 'I', 'P', 'E') then 13
      else if Is4(word, 'Q', 'U', 'I', 'T') then 3
      else if Is4(word, 'T', 'E', 'R', 'M') then 15
      else if Is4(word, 'T', 'S', 'T', 'P') then 20
      else if Is4(word, 'T', 'T', 'I', 'N') then 21
      else if Is4(word, 'T', 'T', 'O', 'U') then 22
      else if Is4(word, 'U', 'S', 'R', '1') then 10
      else if Is4(word, 'U', 'S', 'R', '2') then 12
      else if Is4(word, 'P', 'O', 'L', 'L') then 29
      else if Is4(word, 'P', 'R', 'O', 'F') then 27
      else if Is4(word, 'T', 'R', 'A', 'P') then 5
      else if Is4(word, 'X', 'C', 'P', 'U') then 24
      else 0
    case _ => if Begins(word, "VTALRM") then 26 else 0
  }

  function OnSignNumber(c: Config): Verdict {
    var n := Run(c.rest, IsSignalChar);
    if !Begins(c.rest[..n], "SIG") then Fail(c.tmpl)
    else
      var number := SignalNumber(c.rest[3..n]);
      if number == 0 then Fail(c.tmpl)
      else
        Next(c.(state := Semicolon, rest := c.rest[n..], eti := c.eti.(data := number)))
  }

  function EventFlag(word: string, prev: nat): nat {
    if word == "ESMA_POLLOUT" then POLLOUT
    else if word == "ESMA_POLLERR" then POLLERR
    else if word == "ESMA_POLLHUP" then POLLHUP
    else if word == "ESMA_POLLIN" then POLLIN
    else prev
  }

  function OnDataEvent(c: Config): Verdict {
    var n := Run(c.rest, IsWordChar);
    var flag := EventFlag(c.rest[..n], c.eti.data);
    if !Begins(c.rest[..n], "ESMA_") || flag == 0 then Fail(c.tmpl)
    else
      Next(c.(state := Semicolon, rest := c.rest[n..], eti := c.eti.(data := flag)))
  }

  function PendingTrans(e: Pending): TransTemplate {
    TransTemplate(ToUnsigned(e.code), e.channel, e.data, e.flags, e.dst)
  }

  function OnSemicolon(c: Config): Verdict {
    if Peek(c.rest, 0) != ';' then Fail(c.tmpl)
    else if c.eti.src.None? || c.eti.src.value >= |c.tmpl.states| then Undefined
    else
      Next(c.(state := TransEnter, rest := c.rest[1..], eti := CLEAN,
              tmpl := AddTrans(c.tmpl, c.eti.src.value, PendingTrans(c.eti))))
  }

  // ---------------------------------------------------------------- the loop

  /** How far the current section is from its next consumed character. */
  function Rank(s: State): nat {
    match s
    case Start => 0 case Idle => 0
    case StatesSection => 0
    case StatesEnter => 2 case NameEnter => 1 case NameLeave => 0 case StatesLeave => 0
    case TransSection => 0
    case TransEnter => 12 case Src => 11 case Row => 10 case Dst => 9 case DstColon => 8
    case Code => 7 case CodeChannel => 6 case TickInterval => 5 case TickPeriod => 4
    case SignNumber => 3 case DataEvent => 2 case Semicolon => 1 case TransLeave => 0
  }

  /** While a channel name is read, p may already be past the colon at s, and goes
      back to it. */
  function Left(c: Config): nat {
    if c.state == CodeChannel && |c.mark| > |c.rest| then |c.mark| else |c.rest|
  }

  predicate Less(d: Config, c: Config) {
    || Left(d) < Left(c)
    || (Left(d) == Left(c) && Rank(d.state) < Rank(c.state))
    || (Left(d) == Left(c) && Rank(d.state) == Rank(c.state) && |d.rest| < |c.rest|)
  }

  lemma CodeProgress(c: Config)
    ensures c.state == Code && OnCode(c).Next? ==> Less(OnCode(c).c, c)
  {
    hide ScanInt, Run;
  }

  lemma ChannelProgress(c: Config)
    ensures c.state == CodeChannel && OnCodeChannel(c).Next? ==> Less(OnCodeChannel(c).c, c)
  {
    hide ScanTagged;
  }

  lemma TickProgress(c: Config)
    ensures c.state == TickInterval && OnTickInterval(c).Next? ==> Less(OnTickInterval(c).c, c)
  {
    hide DigitsValue, ToUnsigned;
  }

  lemma NameProgress(c: Config)
    ensures c.state == NameEnter && OnNameEnter(c).Next? ==> Less(OnNameEnter(c).c, c)
    ensures c.state == Src && OnSrc(c).Next? ==> Less(OnSrc(c).c, c)
    ensures c.state == Dst && OnDst(c).Next? ==> Less(OnDst(c).c, c)
  {
    hide FindState, PushState;
  }

  lemma WordProgress(c: Config)
    ensures c.state == TickPeriod && OnTickPeriod(c).Next? ==> Less(OnTickPeriod(c).c, c)
    ensures c.state == SignNumber && OnSignNumber(c).Next? ==> Less(OnSignNumber(c).c, c)
    ensures c.state == DataEvent && OnDataEvent(c).Next? ==> Less(OnDataEvent(c).c, c)
  {
    hide SignalNumber, PeriodFlags, EventFlag, Run;
  }

  lemma SwitchProgress(c: Config)
    ensures Switch(c).Next? ==> Less(Switch(c).c, c)
  {
    CodeProgress(c);
    ChannelProgress(c);
    TickProgress(c);
    NameProgress(c);
    WordProgress(c);
    hide OnCode, OnCodeChannel, OnTickInterval, OnNameEnter, OnSrc, OnDst, OnTickPeriod, OnSignNumber, OnDataEvent,
         AddTrans;
  }

  lemma StepProgress(c: Config)
    ensures Step(c).Next? ==> Less(Step(c).c, c)
  {
    hide Switch, BlockEnd, Run;
    var n := Run(c.rest, NotLf);
    var m := if n < |c.rest| - 1 then n else |c.rest| - 1;
    var c1 := if Begins(c.rest, "//") && m >= 0 then c.(rest := c.rest[m..]) else c;
    var c2 := if Begins(c1.rest, "/*") && BlockEnd(c1.rest[1..]).Some?
              then c1.(rest := BlockEnd(c1.rest[1..]).value[2..]) else c1;
    SwitchProgress(c2);
  }

  /** The whole loop. */
  function Decode(c: Config): Verdict
    decreases Left(c), Rank(c.state), |c.rest|
  {
    if |c.rest| == 1 then Done(c.tmpl)
    else
      match Step(c)
      case Next(d) => StepProgress(c); Decode(d)
      case v => v
  }

  /** esma_template_set_by_str on the template t. */
  function DecodeText(t: Template, text: string): Verdict {
    Decode(Config(Start, text, "", CLEAN, t))
  }

  lemma DecodeEnds(c: Config)
    ensures !Decode(c).Next?
    decreases Left(c), Rank(c.state), |c.rest|
  {
    if |c.rest| != 1 && Step(c).Next? {
      StepProgress(c);
      DecodeEnds(Step(c).c);
    }
  }
}
