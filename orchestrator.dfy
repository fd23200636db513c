/**
 * The orchestrator (app/services/orchestrator.py): it asks its own language
 * model which registered flow should handle a chat request, builds the
 * initial flow state from the chat messages, runs the flow and reports the
 * newest message of the result.
 *
 * Each flow instance gets a language model of its own; its script of replies,
 * the JSON decoder and the step budget of the run are parameters here.
 */
module Orchestrator {
  import opened Wrappers
  import opened Faults
  import opened Json
  import opened FlowBase
  import Text
  import Oracle
  import Engine
  import TextToSql
  import TextToSqlPaths

  /** `MessageRole` of the API schema. */
  datatype Role = User | Assistant | SystemRole

  /** A chat message as the API receives it. */
  datatype ChatMessage = ChatMessage(role: Role, content: string)

  /** The dictionary `execute_flow` and `process_chat_request` return. */
  datatype ChatResult = ChatResult(
    response: string,
    sessionId: string,
    flowName: string,
    metadata: map<string, Json>,
    error: Option<string>)

  // ---------------------------------------------------------------------------
  // The flows context

  /** The entry of one flow in the selection prompt. */
  function FlowEntry(f: Flow): string {
    "**" + f.flowName + "**: " + f.details
  }

  function FlowEntries(flows: seq<Flow>): seq<string> {
    seq(|flows|, i requires 0 <= i < |flows| => FlowEntry(flows[i]))
  }

  /** `get_available_flows_context`: the entries of the flows, in order, separated by blank lines. */
  function FlowsContext(flows: seq<Flow>): string {
    Text.Join(FlowEntries(flows), "\n\n")
  }

  /** One more flow adds a blank line and its entry at the end. */
  lemma FlowsContextGrows(flows: seq<Flow>, f: Flow)
    requires flows != []
    ensures FlowsContext(flows + [f]) == FlowsContext(flows) + "\n\n" + FlowEntry(f)
  {
    assert FlowEntries(flows + [f]) == FlowEntries(flows) + [FlowEntry(f)];
    Text.JoinAppend(FlowEntries(flows), [FlowEntry(f)], "\n\n");
  }

  // ---------------------------------------------------------------------------
  // The conversation history of the selection prompt

  /** Every role other than USER is labelled as the assistant, SYSTEM included. */
  function RoleLabel(r: Role): string {
    if r == User then "User" else "Assistant"
  }

  /** The line of one message in the history text. */
  function PromptLine(m: ChatMessage): string {
    RoleLabel(m.role) + ": " + m.content + "\n"
  }

  /** The history text: one line per message, each ended by a newline. */
  function HistoryText(msgs: seq<ChatMessage>): string
    decreases |msgs|
  {
    if msgs == [] then "" else HistoryText(msgs[..|msgs| - 1]) + PromptLine(msgs[|msgs| - 1])
  }

  /** The history of two runs of messages is the history of the first followed by that of the second. */
  lemma {:induction false} HistoryTextAppend(a: seq<ChatMessage>, b: seq<ChatMessage>)
    ensures HistoryText(a + b) == HistoryText(a) + HistoryText(b)
    decreases |b|
  {
    if b == [] {
      assert a + b == a;
    } else {
      var b' := b[..|b| - 1];
      assert (a + b)[..|a + b| - 1] == a + b';
      assert (a + b)[|a + b| - 1] == b[|b| - 1];
      HistoryTextAppend(a, b');
      calc {
        HistoryText(a + b);
        HistoryText(a + b') + PromptLine(b[|b| - 1]);
        HistoryText(a) + HistoryText(b') + PromptLine(b[|b| - 1]);
        HistoryText(a) + (HistoryText(b') + PromptLine(b[|b| - 1]));
        HistoryText(a) + HistoryText(b);
      }
    }
  }

  /** The history text is built by appending one line per message, oldest first. */
  method BuildHistory(msgs: seq<ChatMessage>) returns (h: string)
    ensures h == HistoryText(msgs)
  {
    h := "";
    var i := 0;
    while i < |msgs|
      invariant 0 <= i <= |msgs|
      invariant h == HistoryText(msgs[..i])
    {
      var role := RoleLabel(msgs[i].role);
      h := h + role + ": " + msgs[i].content + "\n";
      assert h == HistoryText(msgs[..i]) + PromptLine(msgs[i]);
      assert msgs[..i + 1][..i] == msgs[..i];
      i := i + 1;
    }
    assert msgs[..i] == msgs;
  }

  // ---------------------------------------------------------------------------
  // Flow selection

  /** The model's reply, trimmed and lower-cased. */
  function Normalise(reply: string): string {
    Text.Lower(Text.Strip(reply))
  }

  function Names(flows: seq<Flow>): seq<string> {
    seq(|flows|, i requires 0 <= i < |flows| => flows[i].flowName)
  }

  /**
   * The name `determine_appropriate_flow` settles on: the normalised reply if
   * it is the name of a flow, and "general_qa" otherwise.
   */
  function SelectFlow(reply: string, names: seq<string>): (r: string)
    ensures r in names || r == "general_qa"
    ensures Normalise(reply) in names ==> r == Normalise(reply)
    ensures r != Normalise(reply) ==> r == "general_qa"
  {
    var selected := Normalise(reply);
    if selected !in names then "general_qa" else selected
  }

  /** When "general_qa" is a flow name, the selection is always a flow name. */
  lemma SelectionIsRegistered(reply: string, names: seq<string>)
    requires "general_qa" in names
    ensures SelectFlow(reply, names) in names
  {
  }

  // ---------------------------------------------------------------------------
  // The initial state and the response

  /** The LangChain message for a chat message: USER, ASSISTANT and SYSTEM become human, AI and system. */
  function ToFlowMessage(m: ChatMessage): Msg {
    match m.role
    case User => Msg(Human, m.content)
    case Assistant => Msg(Ai, m.content)
    case SystemRole => Msg(System, m.content)
  }

  /** The chat message a LangChain message stands for. */
  function ToChatMessage(m: Msg): ChatMessage {
    match m.kind
    case Human => ChatMessage(User, m.content)
    case Ai => ChatMessage(Assistant, m.content)
    case System => ChatMessage(SystemRole, m.content)
  }

  function Convert(msgs: seq<ChatMessage>): seq<Msg> {
    seq(|msgs|, i requires 0 <= i < |msgs| => ToFlowMessage(msgs[i]))
  }

  /** The conversion loses nothing: each converted message gives back the chat message it came from. */
  lemma ConvertRoundTrip(msgs: seq<ChatMessage>)
    ensures |Convert(msgs)| == |msgs|
    ensures forall i :: 0 <= i < |msgs| ==> ToChatMessage(Convert(msgs)[i]) == msgs[i]
  {
    forall i | 0 <= i < |msgs| ensures ToChatMessage(Convert(msgs)[i]) == msgs[i] {
      var m := msgs[i];
      assert Convert(msgs)[i] == ToFlowMessage(m);
    }
  }

  /** The messages are converted one for one, in order. */
  method ConvertMessages(msgs: seq<ChatMessage>) returns (lc: seq<Msg>)
    ensures lc == Convert(msgs)
  {
    lc := [];
    var i := 0;
    while i < |msgs|
      invariant 0 <= i <= |msgs|
      invariant lc == Convert(msgs[..i])
    {
      var m := msgs[i];
      if m.role == User {
        lc := lc + [Msg(Human, m.content)];
      } else if m.role == Assistant {
        lc := lc + [Msg(Ai, m.content)];
      } else if m.role == SystemRole {
        lc := lc + [Msg(System, m.content)];
      }
      assert Convert(msgs[..i + 1]) == Convert(msgs[..i]) + [ToFlowMessage(m)];
      i := i + 1;
    }
    assert msgs[..i] == msgs;
  }

  /** `session_id or "default"`: a missing or empty session id becomes "default". */
  function SessionOr(sessionId: Option<string>): (r: string)
    ensures r != ""
    ensures sessionId.Some? && sessionId.value != "" ==> r == sessionId.value
    ensures !(sessionId.Some? && sessionId.value != "") ==> r == "default"
  {
    if sessionId.Some? && sessionId.value != "" then sessionId.value else "default"
  }

  /** The state `execute_flow` hands to the flow. */
  function InitialState(msgs: seq<ChatMessage>, sessionId: Option<string>): State {
    State(Convert(msgs), SessionOr(sessionId), "start", map[], None)
  }

  /** The response: the content of the newest message, or "" when there is none. */
  function ResponseText(msgs: seq<Msg>): string {
    if msgs == [] then "" else msgs[|msgs| - 1].content
  }

  /** What `execute_flow` reports for a run's final state. */
  function Respond(flowName: string, st: State): ChatResult {
    ChatResult(ResponseText(st.messages), st.sessionId, flowName, st.metadata, st.error)
  }

  /** `execute_flow` as a value: ValueError for an unregistered name, the report of the run otherwise. */
  function Execution(reg: Registry, flowName: string, msgs: seq<ChatMessage>, sessionId: Option<string>,
                     script: seq<string>, decode: string -> Option<Json>, limit: nat): (r: Result<ChatResult, Exn>)
    requires ValidRegistry(reg)
    ensures r.Err? <==> flowName !in reg.names
    ensures r.Ok? ==> r.value.flowName == flowName
  {
    if flowName !in reg.classes then Err(ValueError("Flow '" + flowName + "' not found"))
    else Ok(Respond(flowName, Engine.RunResult(reg.classes[flowName].kind, InitialState(msgs, sessionId), script, decode, limit)))
  }

  /** What `str()` gives for the assignment `state.error = ...` on a plain dict. */
  const DictHasNoError: Exn := AttributeError("'dict' object has no attribute 'error'")

  /**
   * `execute_flow` as written: the initial state is a plain dict, so `run`
   * raises AttributeError at `state.dict()`, and its handler raises again at
   * `state.error = str(e)`, which leaves `run`. The report after the run,
   * which subscripts the FlowState `run` returns, is never reached.
   */
  function ExecutionAsWritten(reg: Registry, flowName: string): Result<ChatResult, Exn> {
    if flowName !in reg.classes then Err(ValueError("Flow '" + flowName + "' not found"))
    else Err(DictHasNoError)
  }

  /**
   * The discrepancy: for every registered flow and every request, the
   * corrected execution reports the run, while as written it raises.
   */
  lemma ExecutionAsWrittenRaises(reg: Registry, flowName: string, msgs: seq<ChatMessage>, sessionId: Option<string>,
                                 script: seq<string>, decode: string -> Option<Json>, limit: nat)
    requires ValidRegistry(reg) && flowName in reg.names
    ensures Execution(reg, flowName, msgs, sessionId, script, decode, limit).Ok?
    ensures ExecutionAsWritten(reg, flowName) == Err(DictHasNoError)
  {
  }

  /** A run that completes is reported from its final state. */
  lemma CompletedRunReported(reg: Registry, flowName: string, msgs: seq<ChatMessage>, sessionId: Option<string>,
                             script: seq<string>, decode: string -> Option<Json>, limit: nat)
    requires ValidRegistry(reg) && flowName in reg.names
    requires Engine.RunOutcome(reg.classes[flowName].kind, InitialState(msgs, sessionId), script, decode, limit).Completed?
    ensures Execution(reg, flowName, msgs, sessionId, script, decode, limit)
         == Ok(Respond(flowName, Engine.RunOutcome(reg.classes[flowName].kind, InitialState(msgs, sessionId), script, decode, limit).st))
  {
  }

  /**
   * A new-query request to a text-to-SQL flow with enough budget is answered
   * with the finalised message: its response opens with the generated query, fenced.
   */
  lemma NewQueryAnswered(reg: Registry, flowName: string, msgs: seq<ChatMessage>, sessionId: Option<string>,
                         script: seq<string>, decode: string -> Option<Json>, limit: nat)
    requires ValidRegistry(reg) && flowName in reg.names && reg.classes[flowName].kind == TextToSqlKind
    requires limit >= |TextToSqlPaths.NewQueryRoute|
    requires |script| >= 5 && TextToSql.OperationType(script[0]) == "new_query"
    requires TextToSqlPaths.TableList(TextToSql.Decoded(decode, script[1], "tables", TextToSql.DefaultTables))
    requires TextToSqlPaths.ColumnList(TextToSql.Decoded(decode, script[2], "table_columns", JArr([])))
    requires TextToSqlPaths.Approves(decode, script[4])
    ensures var r := Execution(reg, flowName, msgs, sessionId, script, decode, limit);
            r.Ok? && Text.StartsWith(r.value.response, TextToSql.OpeningText(TextToSql.CleanReply(script[3])))
  {
    var st := InitialState(msgs, sessionId);
    var o := Engine.RunOutcome(TextToSqlKind, st, script, decode, limit);
    TextToSqlPaths.NewQueryRun(st, script, decode, limit);
    CompletedRunReported(reg, flowName, msgs, sessionId, script, decode, limit);
    assert ResponseText(o.st.messages) == o.st.messages[|st.messages|].content;
  }

  /** The content of the newest USER message, or "" when there is none. */
  function LastUserText(msgs: seq<ChatMessage>): string
    decreases |msgs|
  {
    if msgs == [] then ""
    else if msgs[|msgs| - 1].role == User then msgs[|msgs| - 1].content
    else LastUserText(msgs[..|msgs| - 1])
  }

  /** The newest USER message is the newest human message of the converted list. */
  lemma {:induction false} LastUserTextConverted(msgs: seq<ChatMessage>)
    ensures LastUserText(msgs) == LastUserMessage(Convert(msgs)).GetOr("")
    decreases |msgs|
  {
    if msgs != [] {
      var front := msgs[..|msgs| - 1];
      assert Convert(msgs) == Convert(front) + [ToFlowMessage(msgs[|msgs| - 1])];
      if msgs[|msgs| - 1].role != User {
        LastUserTextConverted(front);
        LastUserMessageSkipsAi(Convert(front), ToFlowMessage(msgs[|msgs| - 1]));
      }
    }
  }

  /** The search for the newest USER message, from the end. */
  method FindUserMessage(msgs: seq<ChatMessage>) returns (userMessage: string)
    ensures userMessage == LastUserText(msgs)
  {
    userMessage := "";
    var i := |msgs|;
    assert msgs[..i] == msgs;
    while i > 0
      invariant 0 <= i <= |msgs|
      invariant LastUserText(msgs) == LastUserText(msgs[..i])
      invariant userMessage == ""
      decreases i
    {
      i := i - 1;
      assert msgs[..i + 1][..i] == msgs[..i];
      if msgs[i].role == User {
        userMessage := msgs[i].content;
        return;
      }
    }
  }

  /** The report for a request without a user message. */
  function NoUserMessage(sessionId: Option<string>): ChatResult {
    ChatResult("I didn't receive any user message to process.", SessionOr(sessionId), "error", map[], Some("No user message found"))
  }

  /** The orchestrator service: its flow instances, made once, and its language model. */
  class OrchestratorService {
    const flows: seq<Flow>
    const llm: Oracle.Llm

    constructor (reg: Registry, llm: Oracle.Llm)
      requires ValidRegistry(reg)
      ensures flows == GetAllFlows(reg) && this.llm == llm
    {
      flows := GetAllFlows(reg);
      this.llm := llm;
    }

    /** `get_available_flows_context` */
    method AvailableFlowsContext() returns (context: string)
      ensures context == FlowsContext(flows)
    {
      var descriptions: seq<string> := [];
      var i := 0;
      while i < |flows|
        invariant 0 <= i <= |flows|
        invariant descriptions == FlowEntries(flows[..i])
      {
        descriptions := descriptions + [FlowEntry(flows[i])];
        assert FlowEntries(flows[..i + 1]) == FlowEntries(flows[..i]) + [FlowEntry(flows[i])];
        i := i + 1;
      }
      assert flows[..i] == flows;
      context := Text.Join(descriptions, "\n\n");
    }

    /**
     * `determine_appropriate_flow`: one call of the model; its reply, normalised,
     * names the flow, with "general_qa" when it names none. A failed call raises.
     */
    method DetermineAppropriateFlow(userMessage: string, history: seq<ChatMessage>) returns (r: Result<string, Exn>)
      modifies llm
      ensures old(llm.replies) == [] ==> r == Err(LlmFailure) && llm.replies == []
      ensures old(llm.replies) != [] ==>
                r == Ok(SelectFlow(old(llm.replies)[0], Names(flows))) && llm.replies == old(llm.replies)[1..]
    {
      var historyText := BuildHistory(history);
      var flowsContext := AvailableFlowsContext();
      var response := llm.Invoke();
      if response.Err? {
        return Err(response.error);
      }
      var selected := Normalise(response.value);
      if selected !in Names(flows) {
        selected := "general_qa";
      }
      return Ok(selected);
    }

    /**
     * `execute_flow`: a fresh instance of the named flow runs on the initial
     * state built from the messages; the newest message of the result is the response.
     */
    method ExecuteFlow(reg: Registry, flowName: string, msgs: seq<ChatMessage>, sessionId: Option<string>,
                       script: seq<string>, decode: string -> Option<Json>, limit: nat)
      returns (r: Result<ChatResult, Exn>)
      requires ValidRegistry(reg)
      ensures r == Execution(reg, flowName, msgs, sessionId, script, decode, limit)
    {
      var flow := GetFlowByName(reg, flowName);
      if flow.None? {
        return Err(ValueError("Flow '" + flowName + "' not found"));
      }
      var lc := ConvertMessages(msgs);
      var state := new FlowState.FromValue(State(lc, SessionOr(sessionId), "start", map[], None));
      var flowLlm := new Oracle.Llm(script);
      var result := Engine.Run(flow.value.kind, state, flowLlm, decode, limit);
      var response := ResponseText(result.messages);
      return Ok(ChatResult(response, result.sessionId, flowName, result.metadata, result.error));
    }

    /**
     * `process_chat_request`: without a user message nothing runs; a named flow
     * is run without asking the model; otherwise the model picks the flow.
     */
    method ProcessChatRequest(reg: Registry, msgs: seq<ChatMessage>, sessionId: Option<string>, specifiedFlow: Option<string>,
                              script: seq<string>, decode: string -> Option<Json>, limit: nat)
      returns (r: Result<ChatResult, Exn>)
      requires ValidRegistry(reg)
      modifies llm
      ensures LastUserText(msgs) == "" ==> r == Ok(NoUserMessage(sessionId)) && llm.replies == old(llm.replies)
      ensures LastUserText(msgs) != "" && specifiedFlow.Some? && specifiedFlow.value != "" ==>
                r == Execution(reg, specifiedFlow.value, msgs, sessionId, script, decode, limit)
                && llm.replies == old(llm.replies)
      ensures LastUserText(msgs) != "" && !(specifiedFlow.Some? && specifiedFlow.value != "") ==>
                if old(llm.replies) == [] then r == Err(LlmFailure)
                else r == Execution(reg, SelectFlow(old(llm.replies)[0], Names(flows)), msgs, sessionId, script, decode, limit)
    {
      var userMessage := FindUserMessage(msgs);
      if userMessage == "" {
        return Ok(NoUserMessage(sessionId));
      }
      var flowName: string;
      if specifiedFlow.Some? && specifiedFlow.value != "" {
        flowName := specifiedFlow.value;
      } else {
        var chosen := DetermineAppropriateFlow(userMessage, msgs);
        if chosen.Err? {
          return Err(chosen.error);
        }
        flowName := chosen.value;
      }
      r := ExecuteFlow(reg, flowName, msgs, sessionId, script, decode, limit);
    }
  }
}
