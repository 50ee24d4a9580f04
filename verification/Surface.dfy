/** The template language as it is written: declarations with any layout between
    their tokens, the text they make, and the template they mean. */
module Surface {
  import opened Wrappers
  import opened Text
  import opened Template

  // ------------------------------------------------------------------ layout

  /** White space and comments. */
  datatype GapItem =
    | Blank(c: char)
    | LineComment(text: string)
    | BlockComment(body: string)

  type Gap = seq<GapItem>

  function ItemText(g: GapItem): string {
    match g
    case Blank(c) => [c]
    case LineComment(t) => "//" + t + "\n"
    case BlockComment(b) => "/*" + b + "*/"
  }

  /** No comment opens or closes inside the body, counting the stars around it. */
  predicate BodyOk(b: string) {
    var t := "*" + b + "*";
    forall i :: 0 <= i <= |b| ==> !Begins(t[i..], "*/") && !Begins(t[i..], "/*")
  }

  predicate ItemOk(g: GapItem) {
    match g
    case Blank(c) => IsDelim(c)
    case LineComment(t) => '\n' !in t
    case BlockComment(b) => BodyOk(b)
  }

  /** Behind a block comment the parser does not look for another comment at once. */
  predicate GapOk(g: Gap) {
    && (forall i :: 0 <= i < |g| ==> ItemOk(g[i]))
    && forall i :: 0 <= i < |g| - 1 && g[i].BlockComment? ==> g[i + 1].Blank?
  }

  /** And at the very end of the text it runs past it. */
  predicate FinalGapOk(g: Gap) {
    GapOk(g) && (g != [] ==> !g[|g| - 1].BlockComment?)
  }

  function GapText(g: Gap): string {
    if g == [] then "" else ItemText(g[0]) + GapText(g[1..])
  }

  // ------------------------------------------------------------ declarations

  datatype StateDecl = StateDecl(before: Gap, name: string, after: Gap)

  datatype Unit = Milliseconds | Seconds

  datatype Period = Oneshot | Periodic

  datatype PeriodDecl = NoPeriod | PeriodDecl(before: Gap, period: Period, after: Gap)

  datatype Event = In | Out | Hup | Err

  datatype Signal =
    | FPE | HUP | INT | SYS | URG | ABRT | ALRM | CHLD | CONT | PIPE | QUIT | TERM | TSTP | TTIN | TTOU | USR1
    | USR2 | POLL | PROF | TRAP | XCPU | VTALRM

  /** What follows the colon of a transition. */
  datatype Trigger =
    | PlainTrigger(code: nat, after: Gap)
    | TickTrigger(code: nat, before: Gap, value: nat, unit: Unit, blanks: string, period: PeriodDecl)
    | DataTrigger(code: nat, before: Gap, event: Event, after: Gap)
    | SignTrigger(code: nat, before: Gap, signal: Signal, after: Gap)

  /** src -> dst: trigger; with dst None written `self`. */
  datatype TransDecl =
    TransDecl(before: Gap, src: string, g1: Gap, g2: Gap, dst: Option<string>, g3: Gap, g4: Gap, on: Trigger)

  datatype Program =
    Program(g0: Gap, g1: Gap, states: seq<StateDecl>, g2: Gap, g3: Gap, g4: Gap,
            g5: Gap, trans: seq<TransDecl>, g6: Gap, g7: Gap, g8: Gap)

  // ------------------------------------------------------------------ the text

  function StateText(d: StateDecl): string {
    GapText(d.before) + d.name + GapText(d.after) + ";"
  }

  function UnitText(u: Unit): string {
    match u case Milliseconds => "ms" case Seconds => "s"
  }

  function PeriodWord(p: Period): string {
    match p case Oneshot => "ESMA_TM_ONESHOT" case Periodic => "ESMA_TM_PERIODIC"
  }

  function EventWord(e: Event): string {
    match e
    case In => "ESMA_POLLIN" case Out => "ESMA_POLLOUT"
    case Hup => "ESMA_POLLHUP" case Err => "ESMA_POLLERR"
  }

  function SignalWord(s: Signal): string {
    match s
    case FPE => "FPE" case HUP => "HUP" case INT => "INT" case SYS => "SYS" case URG => "URG"
    case ABRT => "ABRT" case ALRM => "ALRM" case CHLD => "CHLD" case CONT => "CONT" case PIPE => "PIPE"
    case QUIT => "QUIT" case TERM => "TERM" case TSTP => "TSTP" case TTIN => "TTIN" case TTOU => "TTOU"
    case USR1 => "USR1" case USR2 => "USR2" case POLL => "POLL" case PROF => "PROF" case TRAP => "TRAP"
    case XCPU => "XCPU" case VTALRM => "VTALRM"
  }

  function PeriodText(p: PeriodDecl): string {
    match p
    case NoPeriod => ""
    case PeriodDecl(b, p, a) => ":" + GapText(b) + PeriodWord(p) + GapText(a)
  }

  function TriggerText(l: Trigger): string {
    match l
    case PlainTrigger(n, a) => Decimal(n) + GapText(a)
    case TickTrigger(n, b, v, u, blanks, p) =>
      "tick_" + Decimal(n) + ":" + GapText(b) + Decimal(v) + UnitText(u) + blanks + PeriodText(p)
    case DataTrigger(n, b, e, a) => "data_" + Decimal(n) + ":" + GapText(b) + EventWord(e) + GapText(a)
    case SignTrigger(n, b, s, a) => "sign_" + Decimal(n) + ":" + GapText(b) + "SIG" + SignalWord(s) + GapText(a)
  }

  function DstText(d: Option<string>): string {
    match d case None => "self" case Some(name) => name
  }

  function TransText(t: TransDecl): string {
    GapText(t.before) + t.src + GapText(t.g1) + "->" + GapText(t.g2) + DstText(t.dst) + GapText(t.g3) + ":" +
    GapText(t.g4) + TriggerText(t.on) + ";"
  }

  function StatesText(ds: seq<StateDecl>): string {
    if ds == [] then "" else StateText(ds[0]) + StatesText(ds[1..])
  }

  function TransesText(ts: seq<TransDecl>): string {
    if ts == [] then "" else TransText(ts[0]) + TransesText(ts[1..])
  }

  function ProgramText(p: Program): string {
    GapText(p.g0) + "states" + GapText(p.g1) + "{" + StatesText(p.states) + GapText(p.g2) + "}" + GapText(p.g3) + ";" +
    GapText(p.g4) + "trans" + GapText(p.g5) + "{" + TransesText(p.trans) + GapText(p.g6) + "}" + GapText(p.g7) + ";" +
    GapText(p.g8)
  }

  // --------------------------------------------------------------- the meaning

  /** The numbers of Linux. */
  function SignalNo(s: Signal): (n: nat)
    ensures n > 0
  {
    match s
    case FPE => 8 case HUP => 1 case INT => 2 case SYS => 31 case URG => 23 case ABRT => 6 case ALRM => 14
    case CHLD => 17 case CONT => 18 case PIPE => 13 case QUIT => 3 case TERM => 15 case TSTP => 20
    case TTIN => 21 case TTOU => 22 case USR1 => 10 case USR2 => 12 case POLL => 29 case PROF => 27
    case TRAP => 5 case XCPU => 24 case VTALRM => 26
  }

  function EventMask(e: Event): nat {
    match e case In => POLLIN case Out => POLLOUT case Hup => POLLHUP case Err => POLLERR
  }

  /** All state names, in the order of their indices. */
  function Names(p: Program): seq<string> {
    ["init", "fini"] + seq(|p.states|, i requires 0 <= i < |p.states| => p.states[i].name)
  }

  function IndexOf(names: seq<string>, name: string): (k: nat)
    requires name in names
    ensures k < |names| && names[k] == name
  {
    if names[0] == name then 0 else 1 + IndexOf(names[1..], name)
  }

  function IntervalMs(value: nat, unit: Unit): nat {
    match unit case Milliseconds => value case Seconds => 1000 * value
  }

  function PeriodFlag(p: PeriodDecl): nat {
    match p
    case NoPeriod => 0
    case PeriodDecl(_, Oneshot, _) => ONESHOT
    case PeriodDecl(_, Periodic, _) => PERIODIC
  }

  predicate TransOk(t: TransDecl, names: seq<string>) {
    && t.src in names
    && (t.dst.Some? ==> t.dst.value in names)
    && GapOk(t.before) && GapOk(t.g1) && GapOk(t.g2) && GapOk(t.g3) && GapOk(t.g4)
    && TriggerOk(t.on)
  }

  predicate TriggerOk(l: Trigger) {
    && l.code < 0x8000_0000
    && match l
       case PlainTrigger(_, a) => GapOk(a)
       case TickTrigger(_, b, v, u, blanks, p) =>
         && GapOk(b)
         && 0 < v < 0x8000_0000 && IntervalMs(v, u) < 0x1_0000_0000
         && (forall i :: 0 <= i < |blanks| ==> IsDelim(blanks[i]))
         && (p.PeriodDecl? ==> GapOk(p.before) && GapOk(p.after))
       case DataTrigger(_, b, _, a) => GapOk(b) && GapOk(a)
       case SignTrigger(_, b, _, a) => GapOk(b) && GapOk(a)
  }

  function Meaning(t: TransDecl, names: seq<string>): TransTemplate
    requires TransOk(t, names)
  {
    var next := if t.dst.None? then None else Some(IndexOf(names, t.dst.value));
    match t.on
    case PlainTrigger(n, _) => TransTemplate(n, NoChannel, 0, 0, next)
    case TickTrigger(n, _, v, u, _, p) => TransTemplate(n, Tick, IntervalMs(v, u), PeriodFlag(p), next)
    case DataTrigger(n, _, e, _) => TransTemplate(n, Data, EventMask(e), 0, next)
    case SignTrigger(n, _, s, _) => TransTemplate(n, Sign, SignalNo(s), 0, next)
  }

  predicate NameOk(name: string) {
    && 0 < |name| < NAME_SIZE
    && (forall i :: 0 <= i < |name| ==> IsNameChar(name[i]))
    && name !in {"init", "fini", "self"}
  }

  predicate StateOk(d: StateDecl) {
    GapOk(d.before) && NameOk(d.name) && GapOk(d.after)
  }

  predicate ProgramOk(p: Program) {
    && GapOk(p.g0) && GapOk(p.g1) && GapOk(p.g2) && GapOk(p.g3) && GapOk(p.g4)
    && GapOk(p.g5) && GapOk(p.g6) && GapOk(p.g7) && FinalGapOk(p.g8)
    && (forall i :: 0 <= i < |p.states| ==> StateOk(p.states[i]))
    && (forall i, j :: 0 <= i < j < |p.states| ==> p.states[i].name != p.states[j].name)
    && (forall i :: 0 <= i < |p.trans| ==> TransOk(p.trans[i], Names(p)))
  }

  /** The transitions declared for the state called name, in order. */
  function TransOf(ts: seq<TransDecl>, names: seq<string>, name: string): seq<TransTemplate>
    requires forall i :: 0 <= i < |ts| ==> TransOk(ts[i], names)
  {
    if ts == [] then []
    else
      (if ts[0].src == name then [Meaning(ts[0], names)] else []) + TransOf(ts[1..], names, name)
  }

  function CountPlain(ts: seq<TransTemplate>): nat {
    if ts == [] then 0 else CountPlain(ts[1..]) + if ts[0].channel.NoChannel? then 1 else 0
  }

  /** The largest code on the channel, or 0. */
  function MaxCode(ts: seq<TransTemplate>, ch: Channel): (m: nat)
    ensures forall i :: 0 <= i < |ts| && ts[i].channel == ch ==> ts[i].code <= m
    ensures m == 0 || exists i :: 0 <= i < |ts| && ts[i].channel == ch && ts[i].code == m
  {
    if ts == [] then 0
    else if ts[0].channel == ch then Max(ts[0].code, MaxCode(ts[1..], ch))
    else MaxCode(ts[1..], ch)
  }

  /** A state with the transitions ts: the counters the loader sizes tables by. */
  function StateWith(name: string, ts: seq<TransTemplate>): StateTemplate {
    StateTemplate(name, ts, CountPlain(ts), MaxCode(ts, NoChannel), MaxCode(ts, Tick),
                  MaxCode(ts, Data), MaxCode(ts, Sign))
  }

  function TemplateOf(name: string, p: Program): Template
    requires ProgramOk(p)
  {
    var names := Names(p);
    Template(name, seq(|names|, i requires 0 <= i < |names| =>
                                  StateWith(names[i], TransOf(p.trans, names, names[i]))))
  }
}
