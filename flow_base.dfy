/**
 * The shared part of every flow (app/flows/base.py): the conversation
 * messages, the state threaded through a flow, the message helpers, and the
 * global flow registry that the `flow` decorator fills.
 */
module FlowBase {
  import opened Wrappers
  import opened Faults
  import opened Json
  import Text

  /** The three LangChain message classes the flows use. */
  datatype MsgKind = Human | Ai | System

  datatype Msg = Msg(kind: MsgKind, content: string)

  /** The value of a FlowState: what `state.dict()` copies. */
  datatype State = State(
    messages: seq<Msg>,
    sessionId: string,
    currentStep: string,
    metadata: map<string, Json>,
    error: Option<string>)

  /** `metadata.get(key, default)` */
  function Meta(st: State, key: string, default: Json): Json {
    if key in st.metadata then st.metadata[key] else default
  }

  /** A FlowState object; steps update its fields in place. */
  class FlowState {
    var messages: seq<Msg>
    var sessionId: string
    var currentStep: string
    var metadata: map<string, Json>
    var error: Option<string>

    function Value(): State
      reads this
    {
      State(messages, sessionId, currentStep, metadata, error)
    }

    /** `FlowState()`: every field at its declared default. */
    constructor ()
      ensures messages == [] && sessionId == "" && currentStep == ""
      ensures metadata == map[] && error == None
    {
      messages, sessionId, currentStep := [], "", "";
      metadata, error := map[], None;
    }

    /** `FlowState(**d)`: a new object holding the given value. */
    constructor FromValue(v: State)
      ensures Value() == v
    {
      messages, sessionId, currentStep := v.messages, v.sessionId, v.currentStep;
      metadata, error := v.metadata, v.error;
    }
  }

  /** The message `add_message` creates: a human message iff the role is "user". */
  function NewMessage(content: string, role: string): (m: Msg)
    ensures m.content == content
    ensures m.kind == Human <==> role == "user"
    ensures m.kind != System
  {
    Msg(if role == "user" then Human else Ai, content)
  }

  /** The value `add_message` leaves behind. */
  function WithMessage(st: State, content: string, role: string): State {
    st.(messages := st.messages + [NewMessage(content, role)])
  }

  /** `add_message`: appends exactly one message at the end, in place. */
  method AddMessage(s: FlowState, content: string, role: string)
    modifies s
    ensures s.Value() == WithMessage(old(s.Value()), content, role)
  {
    var m := NewMessage(content, role);
    s.messages := s.messages + [m];
  }

  /** `get_last_user_message`: the content of the newest human message, or None. */
  function LastUserMessage(msgs: seq<Msg>): (r: Option<string>)
    ensures r.None? <==> forall i :: 0 <= i < |msgs| ==> msgs[i].kind != Human
    ensures r.Some? ==> exists i :: 0 <= i < |msgs| && msgs[i].kind == Human && msgs[i].content == r.value
                                    && forall j :: i < j < |msgs| ==> msgs[j].kind != Human
    decreases |msgs|
  {
    if |msgs| == 0 then None
    else if msgs[|msgs| - 1].kind == Human then Some(msgs[|msgs| - 1].content)
    else
      var r := LastUserMessage(msgs[..|msgs| - 1]);
      assert forall i :: 0 <= i < |msgs| - 1 ==> msgs[..|msgs| - 1][i] == msgs[i];
      r
  }

  /** Appending a message that is not human does not change the last user message. */
  lemma {:induction false} LastUserMessageSkipsAi(msgs: seq<Msg>, m: Msg)
    requires m.kind != Human
    ensures LastUserMessage(msgs + [m]) == LastUserMessage(msgs)
  {
    assert (msgs + [m])[..|msgs|] == msgs;
  }

  /** `f"{user_message}"` for the optional last user message: Python renders None as "None". */
  function UserText(msgs: seq<Msg>): string {
    match LastUserMessage(msgs)
    case Some(u) => u
    case None => "None"
  }

  /**
   * The outcome of one step (graph node) on a state value and an oracle script:
   * the new state and the unused replies, or the exception the step raised.
   */
  datatype StepResult = Stepped(st: State, rest: seq<string>) | Threw(e: Exn)

  /**
   * A step method did what the step function says: on success the object holds
   * the new value and the script lost the replies the step used; on an
   * exception neither changed (every step raises before it writes anything).
   */
  predicate Realises(r: StepResult, e: Option<Exn>, before: State, after: State,
                     scriptBefore: seq<string>, scriptAfter: seq<string>)
  {
    match r
    case Stepped(v, rest) => e.None? && after == v && scriptAfter == rest
    case Threw(x) => e == Some(x) && after == before && scriptAfter == scriptBefore
  }

  /** `state.metadata[key] = v` */
  function Store(st: State, key: string, v: Json): (r: State)
    ensures r.metadata == st.metadata[key := v]
    ensures r.messages == st.messages && r.sessionId == st.sessionId && r.currentStep == st.currentStep && r.error == st.error
  {
    st.(metadata := st.metadata[key := v])
  }

  /** The history line of one message, if it is a human or AI message. */
  function HistoryLine(m: Msg): Option<string> {
    match m.kind
    case Human => Some("User: " + m.content)
    case Ai => Some("Assistant: " + m.content)
    case System => None
  }

  /** The lines of `get_conversation_history`, one per human or AI message, in order. */
  function HistoryLines(msgs: seq<Msg>): (r: seq<string>)
    ensures |r| <= |msgs|
    ensures (forall i :: 0 <= i < |msgs| ==> msgs[i].kind == System) ==> r == []
    decreases |msgs|
  {
    if |msgs| == 0 then []
    else
      match HistoryLine(msgs[0])
      case Some(line) => [line] + HistoryLines(msgs[1..])
      case None => HistoryLines(msgs[1..])
  }

  /** History lines of a concatenation are the lines of each part, in order. */
  lemma {:induction false} HistoryLinesAppend(a: seq<Msg>, b: seq<Msg>)
    ensures HistoryLines(a + b) == HistoryLines(a) + HistoryLines(b)
    decreases |a|
  {
    if |a| > 0 {
      assert (a + b)[1..] == a[1..] + b;
      HistoryLinesAppend(a[1..], b);
    } else {
      assert a + b == b;
    }
  }

  /** A dialogue of human and AI messages gives one correctly prefixed line per message. */
  lemma {:induction false} HistoryLinesOfDialogue(msgs: seq<Msg>)
    requires forall i :: 0 <= i < |msgs| ==> msgs[i].kind != System
    ensures |HistoryLines(msgs)| == |msgs|
    ensures forall i :: 0 <= i < |msgs| ==>
      HistoryLines(msgs)[i] == (if msgs[i].kind == Human then "User: " else "Assistant: ") + msgs[i].content
    decreases |msgs|
  {
    if |msgs| > 0 {
      HistoryLinesOfDialogue(msgs[1..]);
    }
  }

  /** `get_conversation_history` */
  function ConversationHistory(msgs: seq<Msg>): string {
    Text.Join(HistoryLines(msgs), "\n")
  }

  // ---------------------------------------------------------------------------
  // The flow registry

  /** The two flow classes of the system. */
  datatype FlowKind = TextToSqlKind | GeneralQaKind

  /**
   * A class handed to the `flow` decorator: its name, whether it derives from
   * BaseFlow, which flow it implements, and the text its `get_description()` returns.
   */
  datatype FlowClass = FlowClass(className: string, isFlow: bool, kind: FlowKind, details: string)

  /** The class attributes `flow_name` and `flow_description` the decorator sets. */
  datatype ClassAttrs = ClassAttrs(flowName: string, flowDescription: string)

  /**
   * FLOW_REGISTRY as a value: the keys in insertion order, the class under each
   * key, and the decorator-set attributes of each class (by class name).
   */
  datatype Registry = Registry(names: seq<string>, classes: map<string, FlowClass>, attrs: map<string, ClassAttrs>)

  ghost predicate Distinct(names: seq<string>) {
    forall i, j :: 0 <= i < j < |names| ==> names[i] != names[j]
  }

  ghost predicate ValidRegistry(r: Registry) {
    Distinct(r.names)
    && (forall n :: n in r.names <==> n in r.classes)
    && (forall n :: n in r.classes ==> r.classes[n].className in r.attrs)
  }

  /** An instance of a flow class: `FLOW_REGISTRY[name]()`. */
  datatype Flow = Flow(flowName: string, flowDescription: string, kind: FlowKind, details: string)

  function Instantiate(r: Registry, name: string): Flow
    requires ValidRegistry(r) && name in r.classes
  {
    var c := r.classes[name];
    var a := r.attrs[c.className];
    Flow(a.flowName, a.flowDescription, c.kind, c.details)
  }

  /** The global FLOW_REGISTRY, filled in place by the `flow` decorator. */
  class FlowTable {
    var names: seq<string>
    var classes: map<string, FlowClass>
    var attrs: map<string, ClassAttrs>

    function Snapshot(): Registry
      reads this
    {
      Registry(names, classes, attrs)
    }

    ghost predicate Valid()
      reads this
    {
      ValidRegistry(Snapshot())
    }

    constructor ()
      ensures Valid() && names == [] && classes == map[] && attrs == map[]
    {
      names, classes, attrs := [], map[], map[];
    }

    /**
     * `@flow(name, description)` applied to `cls`: a class that does not derive
     * from BaseFlow raises ValueError; otherwise the class attributes are set and
     * the class is stored under `name`, replacing any earlier entry silently.
     */
    method Register(name: string, description: string, cls: FlowClass) returns (r: Result<FlowClass, Exn>)
      requires Valid()
      modifies this
      ensures Valid()
      ensures !cls.isFlow ==> r.Err? && r.error.ValueError? && Snapshot() == old(Snapshot())
      ensures cls.isFlow ==> r == Ok(cls)
      ensures cls.isFlow ==> classes == old(classes)[name := cls]
      ensures cls.isFlow ==> attrs == old(attrs)[cls.className := ClassAttrs(name, description)]
      ensures cls.isFlow ==> names == (if name in old(classes) then old(names) else old(names) + [name])
    {
      if !cls.isFlow {
        return Err(ValueError("Class " + cls.className + " must inherit from BaseFlow"));
      }
      attrs := attrs[cls.className := ClassAttrs(name, description)];
      if name !in classes {
        names := names + [name];
      }
      classes := classes[name := cls];
      return Ok(cls);
    }
  }

  /** `get_flow_by_name`: an instance, or None exactly when the name is not registered. */
  function GetFlowByName(r: Registry, name: string): (f: Option<Flow>)
    requires ValidRegistry(r)
    ensures f.None? <==> name !in r.names
    ensures f.Some? ==> f.value.kind == r.classes[name].kind
  {
    if name in r.classes then Some(Instantiate(r, name)) else None
  }

  /** `get_all_flows`: one instance per registry entry, in registry order. */
  function GetAllFlows(r: Registry): (fs: seq<Flow>)
    requires ValidRegistry(r)
    ensures |fs| == |r.names|
    ensures forall i :: 0 <= i < |fs| ==> fs[i] == Instantiate(r, r.names[i])
  {
    seq(|r.names|, i requires 0 <= i < |r.names| => Instantiate(r, r.names[i]))
  }
}
