/** The template of a state machine, as the parser builds it. */
module Template {
  import opened Wrappers

  datatype Channel = NoChannel | Tick | Data | Sign

  const POLLIN: nat := 0x01
  const POLLOUT: nat := 0x02
  const POLLHUP: nat := 0x04
  const POLLERR: nat := 0x08

  const ONESHOT: nat := 0x1
  const PERIODIC: nat := 0x2

  const INIT: nat := 0

  const NAME_SIZE: nat := 64

  /** A transition: its code and channel, and the index of the next state (None
      for a transition that runs an action and stays). */
  datatype TransTemplate =
    TransTemplate(code: nat, channel: Channel, data: nat, periodic: nat, next: Option<nat>)

  datatype StateTemplate =
    StateTemplate(name: string, trans: seq<TransTemplate>, ntrans: nat,
                  maxCode: nat, maxTick: nat, maxData: nat, maxSign: nat)

  datatype Template = Template(name: string, states: seq<StateTemplate>)

  predicate DistinctNames(names: seq<string>) {
    forall i, j :: 0 <= i < j < |names| ==> names[i] != names[j]
  }

  function EmptyState(name: string): StateTemplate {
    StateTemplate(name, [], 0, 0, 0, 0, 0)
  }

  /** A fresh template holds the two states every machine has. */
  function NewTemplate(name: string): Template {
    Template(name, [EmptyState("init"), EmptyState("fini")])
  }

  function Max(a: nat, b: nat): nat {
    if a > b then a else b
  }

  /** The first state called name. */
  function FindState(states: seq<StateTemplate>, name: string): (k: Option<nat>)
    ensures k.Some? ==> k.value < |states| && states[k.value].name == name
    ensures k.Some? ==> forall i :: 0 <= i < k.value ==> states[i].name != name
    ensures k.None? ==> forall i :: 0 <= i < |states| ==> states[i].name != name
  {
    if states == [] then None
    else if states[0].name == name then Some(0)
    else
      match FindState(states[1..], name)
      case None => None
      case Some(k) => Some(k + 1)
  }

  function PushState(t: Template, name: string): Template {
    t.(states := t.states + [EmptyState(name)])
  }

  function PushTrans(s: StateTemplate, t: TransTemplate): StateTemplate {
    var s' := s.(trans := s.trans + [t]);
    match t.channel
    case NoChannel => s'.(ntrans := s.ntrans + 1, maxCode := Max(t.code, s.maxCode))
    case Tick => s'.(maxTick := Max(t.code, s.maxTick))
    case Data => s'.(maxData := Max(t.code, s.maxData))
    case Sign => s'.(maxSign := Max(t.code, s.maxSign))
  }

  function AddTrans(t: Template, src: nat, tr: TransTemplate): Template
    requires src < |t.states|
  {
    t.(states := t.states[src := PushTrans(t.states[src], tr)])
  }
}
