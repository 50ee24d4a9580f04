/** Texts laid out like a program, whatever their names, words and separators are,
    and which of them are programs. */
module Drafts {
  import opened Text
  import opened Surface
  import opened ReadTrans

  datatype StateDraft = StateDraft(before: Gap, name: string, after: Gap, close: char)

  datatype PeriodDraft = Absent | Given(before: Gap, word: string, after: Gap)

  datatype TriggerDraft =
    | PlainDraft(code: nat, after: Gap)
    | TickDraft(code: nat, skip: string, before: Gap, value: nat, unit: string, blanks: string,
                period: PeriodDraft)
    | DataDraft(code: nat, skip: string, before: Gap, word: string, after: Gap)
    | SignDraft(code: nat, skip: string, before: Gap, word: string, after: Gap)
    | OtherDraft(channel: string, tail: string)

  datatype TransDraft =
    TransDraft(before: Gap, src: string, g1: Gap, arrow: string, g2: Gap, dst: string, g3: Gap, colon: char,
               g4: Gap, on: TriggerDraft, close: char)

  /** skip: what stands between the first keyword, or the name of a channel, and the
      sign that the parser looks for next. */
  datatype Draft =
    Draft(g0: Gap, first: string, g1: Gap, skip: string, states: seq<StateDraft>, g2: Gap, g3: Gap, close1: char,
          g4: Gap, second: string, g5: Gap, open: char, trans: seq<TransDraft>, g6: Gap, g7: Gap, close2: char, g8: Gap)

  // ------------------------------------------------------------------ the text

  function StateDraftText(d: StateDraft): string {
    GapText(d.before) + d.name + GapText(d.after) + [d.close]
  }

  function PeriodDraftText(p: PeriodDraft): string {
    match p
    case Absent => ""
    case Given(b, word, a) => ":" + GapText(b) + word + GapText(a)
  }

  function TriggerDraftText(l: TriggerDraft): string {
    match l
    case PlainDraft(n, a) => Decimal(n) + GapText(a)
    case TickDraft(n, skip, b, v, unit, blanks, p) =>
      "tick_" + Decimal(n) + skip + ":" + GapText(b) + Decimal(v) + unit + blanks + PeriodDraftText(p)
    case DataDraft(n, skip, b, word, a) => "data_" + Decimal(n) + skip + ":" + GapText(b) + word + GapText(a)
    case SignDraft(n, skip, b, word, a) => "sign_" + Decimal(n) + skip + ":" + GapText(b) + word + GapText(a)
    case OtherDraft(channel, tail) => channel + ":" + tail
  }

  function TransDraftText(t: TransDraft): string {
    GapText(t.before) + t.src + GapText(t.g1) + t.arrow + GapText(t.g2) + t.dst + GapText(t.g3) + [t.colon] +
    GapText(t.g4) + TriggerDraftText(t.on) + [t.close]
  }

  function StateDraftsText(ds: seq<StateDraft>): string {
    if ds == [] then "" else StateDraftText(ds[0]) + StateDraftsText(ds[1..])
  }

  function TransDraftsText(ts: seq<TransDraft>): string {
    if ts == [] then "" else TransDraftText(ts[0]) + TransDraftsText(ts[1..])
  }

  function DraftText(d: Draft): string {
    GapText(d.g0) + d.first + GapText(d.g1) + d.skip + "{" + StateDraftsText(d.states) + GapText(d.g2) + "}" +
    GapText(d.g3) + [d.close1] + GapText(d.g4) + d.second + GapText(d.g5) + [d.open] + TransDraftsText(d.trans) +
    GapText(d.g6) + "}" + GapText(d.g7) + [d.close2] + GapText(d.g8)
  }

  // ----------------------------------------------------------------- the shape

  /** A character that stands for itself: no blank, no part of a name, and no
      beginning of a comment. */
  predicate Separator(ch: char) {
    !IsNameChar(ch) && !IsDelim(ch) && ch != '/'
  }

  /** A word, maybe missing; layout behind a missing one belongs to the layout in
      front of it. */
  predicate Word(w: string, after: Gap) {
    && (forall i :: 0 <= i < |w| ==> IsNameChar(w[i]))
    && GapOk(after)
    && (w == "" ==> after == [])
  }

  /** A missing name leaves only a stray character, which is not the brace that ends
      the section. */
  predicate StateShape(d: StateDraft) {
    && GapOk(d.before) && Word(d.name, d.after) && |d.name| < 64
    && Separator(d.close) && (d.name == "" ==> d.close != '}')
  }

  /** The name of a channel does not begin with a digit: that would be a code. */
  predicate ChannelShape(channel: string) {
    && (forall i :: 0 <= i < |channel| ==> IsNameChar(channel[i]))
    && (channel != "" ==> !IsDigit(channel[0]))
    && !(|channel| > 5 && channel[..5] in {"tick_", "data_", "sign_"} && IsDigit(channel[5]))
  }

  predicate TriggerShape(l: TriggerDraft) {
    match l
    case PlainDraft(_, a) => GapOk(a)
    case TickDraft(_, skip, b, _, unit, blanks, p) =>
      && Skipped(skip) && GapOk(b) && Word(unit, []) && (unit != "" ==> !IsDigit(unit[0]))
      && (forall i :: 0 <= i < |blanks| ==> IsDelim(blanks[i]))
      && (p.Given? ==> GapOk(p.before) && Word(p.word, p.after))
    case DataDraft(_, skip, b, word, a) => Skipped(skip) && GapOk(b) && Word(word, a)
    case SignDraft(_, skip, b, word, a) => Skipped(skip) && GapOk(b) && Word(word, a)
    case OtherDraft(channel, _) => ChannelShape(channel)
  }

  predicate TransShape(t: TransDraft) {
    && GapOk(t.before) && Word(t.src, t.g1)
    && |t.arrow| == 2 && Separator(t.arrow[0]) && (t.src == "" ==> t.arrow[0] != '}')
    && GapOk(t.g2) && Word(t.dst, t.g3) && Separator(t.colon)
    && GapOk(t.g4) && TriggerShape(t.on)
    && Separator(t.close) && (t.on.TickDraft? && t.on.period.Absent? ==> t.close != ':')
  }

  /** A keyword that does not begin with a keyword and go on. */
  predicate Keyword(w: string) {
    && (forall i :: 0 <= i < |w| ==> IsNameChar(w[i])) && w != ""
    && (Begins(w, "states") ==> w == "states")
    && (Begins(w, "trans") ==> w == "trans")
  }

  predicate DraftShape(d: Draft) {
    && GapOk(d.g0) && Keyword(d.first) && d.first != "trans" && GapOk(d.g1)
    && (forall i :: 0 <= i < |d.skip| ==> d.skip[i] !in {'{', '/'}) && (d.skip != "" ==> !IsNameChar(d.skip[0]))
    && (forall i :: 0 <= i < |d.states| ==> StateShape(d.states[i]))
    && GapOk(d.g2) && GapOk(d.g3) && Separator(d.close1) && GapOk(d.g4)
    && Keyword(d.second) && d.second != "states" && GapOk(d.g5) && Separator(d.open)
    && (forall i :: 0 <= i < |d.trans| ==> TransShape(d.trans[i]))
    && GapOk(d.g6) && GapOk(d.g7) && Separator(d.close2) && FinalGapOk(d.g8)
  }

  // -------------------------------------------------------- what is a program

  /** The two states that every machine has cannot be declared. A semicolon alone
      declares nothing. */
  predicate StateGood(d: StateDraft) {
    d.name != "init" && d.name != "fini" && d.close == ';'
  }

  /** The interval counts in milliseconds, in 32 bits. */
  predicate TickGood(value: nat, unit: string) {
    || (unit == "ms" && value % 0x1_0000_0000 != 0)
    || (unit == "s" && 1000 * value % 0x1_0000_0000 != 0)
  }

  predicate PeriodGood(p: PeriodDraft) {
    p.Given? ==> p.word == "ESMA_TM_ONESHOT" || p.word == "ESMA_TM_PERIODIC"
  }

  predicate EventGood(word: string) {
    word in {"ESMA_POLLIN", "ESMA_POLLOUT", "ESMA_POLLHUP", "ESMA_POLLERR"}
  }

  /** SIG and one of the names, or anything that goes on behind VTALRM. */
  predicate SignalGood(word: string) {
    || (exists s: Signal :: word == "SIG" + SignalWord(s))
    || (Begins(word, "SIGVTALRM") && '_' !in word)
  }

  predicate TriggerGood(l: TriggerDraft) {
    match l
    case PlainDraft(_, _) => true
    case TickDraft(_, _, _, v, unit, _, p) => TickGood(v, unit) && PeriodGood(p)
    case DataDraft(_, _, _, word, _) => EventGood(word)
    case SignDraft(_, _, _, word, _) => SignalGood(word)
    case OtherDraft(_, _) => false
  }

  predicate TransGood(t: TransDraft, names: seq<string>) {
    && t.src in names && t.arrow == "->" && (t.dst == "self" || t.dst in names) && t.colon == ':'
    && TriggerGood(t.on) && t.close == ';'
  }

  function Declared(ds: seq<StateDraft>): seq<string> {
    if ds == [] then []
    else (if ds[0].name == "" then [] else [ds[0].name]) + Declared(ds[1..])
  }

  function DraftNames(d: Draft): seq<string> {
    ["init", "fini"] + Declared(d.states)
  }

  /** The last character of a text is never looked at. */
  predicate DraftGood(d: Draft) {
    && d.first == "states" && d.close1 == ';' && d.second == "trans" && d.open == '{'
    && (d.close2 == ';' || d.g8 == [])
    && (forall i :: 0 <= i < |d.states| ==> StateGood(d.states[i]))
    && forall i :: 0 <= i < |d.trans| ==> TransGood(d.trans[i], DraftNames(d))
  }
}
