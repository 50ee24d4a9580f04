/** The parser as the engine runs it: one object whose fields are the loop's
    variables, advanced in place, proved against module Decoder. */
module TemplateParser {
  import opened Wrappers
  import opened Text
  import opened Template
  import opened Decoder

  /** How a round or a whole parse ends. */
  datatype Status = GoOn | Success | Error | Undef

  class Parser {
    var line: string      // the text
    var p: nat            // the current position; |line| is the terminating NUL
    var s: nat            // the colon behind a channel name
    var state: State
    var eti: Pending      // the transition being read
    var name: string      // the template
    var states: seq<StateTemplate>

    constructor (name: string)
      ensures Tmpl() == NewTemplate(name) && fresh(this)
    {
      this.line, this.p, this.s, this.state, this.eti := "", 0, 0, Start, CLEAN;
      this.name := name;
      this.states := [EmptyState("init"), EmptyState("fini")];
    }

    predicate Valid()
      reads this
    {
      p <= |line| && s <= |line|
    }

    function Tmpl(): Template
      reads this
    {
      Template(name, states)
    }

    function Cfg(): Config
      reads this
      requires Valid()
    {
      Config(state, line[p..], line[s..], eti, Tmpl())
    }

    /** The fields are what the verdict v of the specification says. */
    ghost predicate Agrees(r: Status, v: Verdict)
      reads this
    {
      match v
      case Next(c) => r == GoOn && Valid() && Cfg() == c
      case Done(t) => r == Success && Tmpl() == t
      case Fail(t) => r == Error && Tmpl() == t
      case Undefined => r == Undef
    }

    // -------------------------------------------------------------- scanning

    /** Advances from position i while the characters satisfy q. */
    method Scan(i: nat, q: char -> bool) returns (e: nat)
      requires i <= |line|
      ensures e == i + Run(line[i..], q) <= |line|
    {
      e := i;
      while e < |line| && q(line[e])
        invariant i <= e <= |line|
        invariant i + Run(line[i..], q) == e + Run(line[e..], q)
      {
        assert line[e..][1..] == line[e + 1..];
        e := e + 1;
      }
    }

    method Find(word: string) returns (k: Option<nat>)
      ensures k == FindState(states, word)
    {
      var i := 0;
      while i < |states|
        invariant i <= |states|
        invariant FindState(states, word) ==
                  match FindState(states[i..], word) case None => None case Some(j) => Some(i + j)
      {
        if states[i].name == word {
          return Some(i);
        }
        assert states[i..][1..] == states[i + 1..];
        i := i + 1;
      }
      return None;
    }

    // -------------------------------------------------------------- one round

    /** Skips a comment that starts at p; false if the loop is to be left. */
    method SkipLineComment() returns (more: bool)
      requires Valid() && Begins(line[p..], "//")
      modifies this`p
      ensures Valid()
      ensures var r := old(line[p..]);
              var n := Run(r, NotLf);
              if n < |r| - 1 then more && line[p..] == r[n..] else !more
    {
      ghost var from := p;
      while p < |line| && line[p] != '\n' && p != |line| - 1
        invariant from <= p < |line|
        invariant from + Run(line[from..], NotLf) == p + Run(line[p..], NotLf)
        decreases |line| - p
      {
        assert line[p..][1..] == line[p + 1..];
        p := p + 1;
      }
      more := p != |line| - 1;
    }

    /** Stops at the end of the block comment that starts at p. */
    method FindBlockEnd() returns (found: bool)
      requires Valid() && Begins(line[p..], "/*")
      modifies this`p
      ensures Valid()
      ensures BlockEnd(old(line[p..])[1..]) == if found then Some(line[p..]) else None
    {
      assert line[p..][1..] == line[p + 1..];
      p := p + 1;
      while !Begins(line[p..], "*/")
        invariant p <= |line|
        invariant BlockEnd(old(line[p..])[1..]) == BlockEnd(line[p..])
        decreases |line| - p
      {
        if |line| <= p + 1 || Begins(line[p..], "/*") {
          return false;
        }
        assert line[p..][1..] == line[p + 1..];
        p := p + 1;
      }
      found := true;
    }

    method Round() returns (r: Status)
      requires Valid()
      modifies this
      ensures line == old(line)
      ensures Agrees(r, Step(old(Cfg())))
    {
      hide AfterLineComment, Run;
      if Begins(line[p..], "//") {
        var more := SkipLineComment();
        if !more {
          return Success;
        }
      }
      r := RoundAfterLineComment();
    }

    method RoundAfterLineComment() returns (r: Status)
      requires Valid()
      modifies this
      ensures line == old(line)
      ensures Agrees(r, AfterLineComment(old(Cfg())))
    {
      hide AfterComments, BlockEnd;
      if Begins(line[p..], "/*") {
        var found := FindBlockEnd();
        if !found {
          return Error;
        }
        if |line| - 1 - p == 2 {
          return Success;
        }
        assert line[p..][2..] == line[p + 2..];
        p := p + 2;
      }
      r := RoundAfterComments();
    }

    method RoundAfterComments() returns (r: Status)
      requires Valid()
      modifies this
      ensures line == old(line)
      ensures Agrees(r, AfterComments(old(Cfg())))
    {
      hide Switch;
      if p < |line| && IsDelim(line[p]) {
        Advance(1);
        return GoOn;
      }
      r := Dispatch();
    }

    method Advance(n: nat)
      requires Valid() && p + n <= |line|
      modifies this`p
      ensures Valid() && p == old(p) + n
      ensures Cfg() == old(Cfg()).(rest := old(Cfg()).rest[n..])
    {
      assert line[p..][n..] == line[p + n..];
      p := p + n;
    }

    // ---------------------------------------------------------- the switch

    method Dispatch() returns (r: Status)
      requires Valid()
      modifies this
      ensures line == old(line)
      ensures Agrees(r, Switch(old(Cfg())))
    {
      hide Expect, OnIdle, OnStatesSection, OnStatesEnter, OnNameEnter, OnTransEnter, OnSrc, OnDst, OnCode,
           OnCodeChannel, OnTickInterval, OnTickPeriod, OnSignNumber, OnDataEvent, OnSemicolon;
      match state
      case Start => r := AtIdle();
      case Idle => r := AtIdle();
      case StatesSection => r := AtStatesSection();
      case StatesEnter => r := AtStatesEnter();
      case NameEnter => r := AtNameEnter();
      case NameLeave => r := AtPunctuation(';', StatesEnter);
      case StatesLeave => r := AtPunctuation(';', Idle);
      case TransSection => r := AtPunctuation('{', TransEnter);
      case TransEnter => r := AtTransEnter();
      case Src => r := AtSrc();
      case Row => r := AtRow();
      case Dst => r := AtDst();
      case DstColon => r := AtPunctuation(':', Code);
      case Code => r := AtCode();
      case CodeChannel => r := AtCodeChannel();
      case TickInterval => r := AtTickInterval();
      case TickPeriod => r := AtTickPeriod();
      case SignNumber => r := AtSignNumber();
      case DataEvent => r := AtDataEvent();
      case Semicolon => r := AtSemicolon();
      case TransLeave => r := AtPunctuation(';', Idle);
    }

    method AtPunctuation(ch: char, next: State) returns (r: Status)
      requires Valid()
      modifies this`p, this`state
      ensures Agrees(r, Expect(old(Cfg()), ch, next))
    {
      if p == |line| || line[p] != ch {
        return Error;
      }
      state := next;
      Advance(1);
      return GoOn;
    }

    method AtIdle() returns (r: Status)
      requires Valid()
      modifies this`p, this`state
      ensures Agrees(r, OnIdle(old(Cfg())))
    {
      if |line| - p > 6 && Begins(line[p..], "states") {
        state := StatesSection;
        Advance(6);
        return GoOn;
      }
      if |line| - p > 5 && Begins(line[p..], "trans") {
        state := TransSection;
        Advance(5);
        return GoOn;
      }
      return Error;
    }

    method AtStatesSection() returns (r: Status)
      requires Valid() && state == StatesSection
      modifies this`p, this`state
      ensures Agrees(r, OnStatesSection(old(Cfg())))
    {
      if p == |line| {
        return Undef;
      }
      if line[p] == '{' {
        state := StatesEnter;
      }
      Advance(1);
      return GoOn;
    }

    method AtStatesEnter() returns (r: Status)
      requires Valid()
      modifies this`p, this`state
      ensures Agrees(r, OnStatesEnter(old(Cfg())))
    {
      if p == |line| {
        return Error;
      }
      if line[p] == '}' {
        state := StatesLeave;
        Advance(1);
        return GoOn;
      }
      if line[p] == ';' {
        Advance(1);
        return GoOn;
      }
      if IsNameChar(line[p]) {
        state := NameEnter;
        return GoOn;
      }
      return Error;
    }

    method AtNameEnter() returns (r: Status)
      requires Valid()
      modifies this`p, this`state, this`states
      ensures Agrees(r, OnNameEnter(old(Cfg())))
    {
      hide Run;
      if p < |line| && line[p] == '}' {
        if |states| == 2 {
          return Error;
        }
        state := StatesLeave;
        Advance(1);
        return GoOn;
      }
      var e := Scan(p, IsNameChar);
      var word := line[p..e];
      assert line[p..][..e - p] == word;
      if word == "init" || word == "fini" {
        state := NameLeave;
        return GoOn;
      }
      if e - p >= NAME_SIZE {
        return Undef;
      }
      states := states + [EmptyState(word)];
      state := NameLeave;
      Advance(e - p);
      return GoOn;
    }

    method AtTransEnter() returns (r: Status)
      requires Valid()
      modifies this`p, this`state
      ensures Agrees(r, OnTransEnter(old(Cfg())))
    {
      if p == |line| {
        return Error;
      }
      if line[p] == '}' {
        state := TransLeave;
        Advance(1);
        return GoOn;
      }
      if IsNameChar(line[p]) {
        state := Src;
        return GoOn;
      }
      return Error;
    }

    method AtSrc() returns (r: Status)
      requires Valid()
      modifies this`p, this`state, this`eti
      ensures Agrees(r, OnSrc(old(Cfg())))
    {
      hide FindState;
      var e := Scan(p, IsNameChar);
      assert line[p..][..e - p] == line[p..e];
      var k := Find(line[p..e]);
      if k.None? {
        return Error;
      }
      eti := eti.(src := k);
      state := Row;
      Advance(e - p);
      return GoOn;
    }

    method AtRow() returns (r: Status)
      requires Valid() && state == Row
      modifies this`p, this`state
      ensures Agrees(r, Switch(old(Cfg())))
    {
      if !Begins(line[p..], "->") {
        return Error;
      }
      state := Dst;
      Advance(2);
      return GoOn;
    }

    method AtDst() returns (r: Status)
      requires Valid()
      modifies this`p, this`state, this`eti
      ensures Agrees(r, OnDst(old(Cfg())))
    {
      hide FindState;
      var e := Scan(p, IsNameChar);
      var word := line[p..e];
      assert line[p..][..e - p] == word;
      if word == "self" {
        eti := eti.(dst := None);
      } else {
        if p == e {
          return Error;
        }
        var k := Find(word);
        if k.None? {
          return Error;
        }
        eti := eti.(dst := k);
      }
      state := DstColon;
      Advance(e - p);
      return GoOn;
    }

    method AtCode() returns (r: Status)
      requires Valid()
      modifies this`p, this`s, this`state, this`eti
      ensures Agrees(r, OnCode(old(Cfg())))
    {
      hide ScanInt, Run;
      var e := Scan(p, IsNameChar);
      match ScanInt(line[p..])
      case Some(v) =>
        eti := eti.(code := v);
        state := Semicolon;
        Advance(e - p);
        return GoOn;
      case None =>
        r := MarkColon(e);
    }

    /** No number: a channel's name ends at the next colon. */
    method MarkColon(e: nat) returns (r: Status)
      requires Valid() && ScanInt(line[p..]).None? && e == p + Run(line[p..], IsNameChar) <= |line|
      modifies this`s, this`state
      ensures Agrees(r, OnCode(old(Cfg())))
    {
      hide ScanInt, Run;
      assert line[p..][e - p..] == line[e..];
      var colon := Scan(e, NotColon);
      if colon == |line| {
        return Undef;
      }
      assert line[e..][colon - e..] == line[colon..];
      s := colon;
      state := CodeChannel;
      return GoOn;
    }

    method AtCodeChannel() returns (r: Status)
      requires Valid()
      modifies this`p, this`state, this`eti
      ensures Agrees(r, OnCodeChannel(old(Cfg())))
    {
      hide ScanTagged;
      var rest := line[p..];
      var after := if s < |line| then s + 1 else s;
      assert line[after..] == if line[s..] == "" then "" else line[s..][1..];
      match ScanTagged(rest, "tick_") {
        case Some(v) =>
          p := after;
          eti := eti.(code := v, channel := Tick);
          state := TickInterval;
          return GoOn;
        case None =>
      }
      match ScanTagged(rest, "data_") {
        case Some(v) =>
          p := after;
          eti := eti.(code := v, channel := Data);
          state := DataEvent;
          return GoOn;
        case None =>
      }
      match ScanTagged(rest, "sign_") {
        case Some(v) =>
          p := after;
          eti := eti.(code := v, channel := Sign);
          state := SignNumber;
          return GoOn;
        case None =>
      }
      return Error;
    }

    /** The interval whose digits are line[p..e]: its milliseconds and the position
        behind its unit. */
    method ReadInterval(e: nat) returns (ms: nat, q: nat)
      requires Valid() && p <= e <= |line|
      requires forall i :: 0 <= i < e - p ==> IsDigit(line[p..][i])
      ensures p <= q <= |line|
      ensures Interval(line[p..], e - p, eti.data) == (ms, line[q..])
    {
      hide DigitsValue, ToUnsigned;
      assert line[p..][..e - p] == line[p..e] && line[p..][e - p..] == line[e..];
      assert forall i :: 0 <= i < e - p ==> line[p..e][i] == line[p..][i];
      var value := ToUnsigned(DigitsValue(line[p..e], 0));
      ms, q := eti.data, p;
      if Begins(line[e..], "ms") {
        ms, q := value, e + 2;
        assert line[p..][e - p + 2..] == line[q..];
      } else if Begins(line[e..], "s") {
        ms, q := value * 1000 % 0x1_0000_0000, e + 1;
        assert line[p..][e - p + 1..] == line[q..];
      }
    }

    method AtTickInterval() returns (r: Status)
      requires Valid()
      modifies this`p, this`state, this`eti
      ensures Agrees(r, OnTickInterval(old(Cfg())))
    {
      hide Interval, Run;
      var e := Scan(p, IsDigit);
      if e == p {
        return Error;
      }
      var ms, q := ReadInterval(e);
      if ms == 0 {
        return Error;
      }
      eti := eti.(data := ms);
      var b := Scan(q, IsDelim);
      assert line[q..][b - q..] == line[b..];
      p := b;
      if p < |line| && line[p] == ':' {
        state := TickPeriod;
        Advance(1);
        return GoOn;
      }
      if p < |line| && line[p] == ';' {
        state := Semicolon;
        return GoOn;
      }
      return Error;
    }

    method AtTickPeriod() returns (r: Status)
      requires Valid()
      modifies this`p, this`state, this`eti
      ensures Agrees(r, OnTickPeriod(old(Cfg())))
    {
      var e := Scan(p, IsWordChar);
      assert line[p..][..e - p] == line[p..e];
      eti := eti.(flags := PeriodFlags(line[p..e], eti.flags));
      if eti.flags == 0 {
        return Error;
      }
      state := Semicolon;
      Advance(e - p);
      return GoOn;
    }

    method AtSignNumber() returns (r: Status)
      requires Valid()
      modifies this`p, this`state, this`eti
      ensures Agrees(r, OnSignNumber(old(Cfg())))
    {
      hide SignalNumber;
      var e := Scan(p, IsSignalChar);
      assert line[p..][..e - p] == line[p..e];
      if !Begins(line[p..e], "SIG") {
        return Error;
      }
      assert line[p..][3..e - p] == line[p + 3..e];
      var number := SignalNumber(line[p + 3..e]);
      if number == 0 {
        return Error;
      }
      eti := eti.(data := number);
      state := Semicolon;
      Advance(e - p);
      return GoOn;
    }

    method AtDataEvent() returns (r: Status)
      requires Valid()
      modifies this`p, this`state, this`eti
      ensures Agrees(r, OnDataEvent(old(Cfg())))
    {
      var e := Scan(p, IsWordChar);
      assert line[p..][..e - p] == line[p..e];
      var flag := EventFlag(line[p..e], eti.data);
      if !Begins(line[p..e], "ESMA_") || flag == 0 {
        return Error;
      }
      eti := eti.(data := flag);
      state := Semicolon;
      Advance(e - p);
      return GoOn;
    }

    method AtSemicolon() returns (r: Status)
      requires Valid()
      modifies this`p, this`state, this`eti, this`states
      ensures Agrees(r, OnSemicolon(old(Cfg())))
    {
      if p == |line| || line[p] != ';' {
        return Error;
      }
      if eti.src.None? || eti.src.value >= |states| {
        return Undef;
      }
      NewTrans(eti.src.value);
      eti := CLEAN;
      state := TransEnter;
      Advance(1);
      return GoOn;
    }

    /** _new_esma_trans_template: counts and maxima of the source state, then the
        transition itself. */
    method NewTrans(k: nat)
      requires k < |states|
      modifies this`states
      ensures Tmpl() == AddTrans(old(Tmpl()), k, PendingTrans(eti))
    {
      var st := states[k];
      var code := ToUnsigned(eti.code);
      match eti.channel {
        case NoChannel =>
          st := st.(ntrans := st.ntrans + 1, maxCode := if code > st.maxCode then code else st.maxCode);
        case Tick =>
          st := st.(maxTick := if code > st.maxTick then code else st.maxTick);
        case Data =>
          st := st.(maxData := if code > st.maxData then code else st.maxData);
        case Sign =>
          st := st.(maxSign := if code > st.maxSign then code else st.maxSign);
      }
      st := st.(trans := st.trans + [TransTemplate(code, eti.channel, eti.data, eti.flags, eti.dst)]);
      states := states[k := st];
    }

    // -------------------------------------------------------------- the loop

    /** esma_template_set_by_str: parses text into the template. */
    method SetByStr(text: string) returns (r: Status)
      modifies this
      ensures match DecodeText(old(Tmpl()), text)
              case Done(t) => r == Success && Tmpl() == t
              case Fail(t) => r == Error && Tmpl() == t
              case Undefined => r == Undef
              case Next(_) => false
    {
      line, p, s, state, eti := text, 0, |text|, Start, CLEAN;
      assert line[0..] == text && line[|text|..] == "";
      DecodeEnds(Cfg());
      r := GoOn;
      ghost var left, rank, size := Left(Cfg()), Rank(state), |line| - p;
      while p != |line| - 1
        invariant Valid() && r == GoOn
        invariant DecodeText(old(Tmpl()), text) == Decode(Cfg())
        invariant left == Left(Cfg()) && rank == Rank(state) && size == |line| - p
        decreases left, rank, size
      {
        StepProgress(Cfg());
        r := Round();
        if r != GoOn {
          return;
        }
        left, rank, size := Left(Cfg()), Rank(state), |line| - p;
      }
      r := Success;
    }
  }
}
