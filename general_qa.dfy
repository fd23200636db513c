/**
 * The general question-answering flow (app/flows/general_qa.py): a fixed
 * three-step path, each step a function on the state value and a method that
 * updates the FlowState object in place. No step can raise except the model call.
 */
module GeneralQa {
  import opened Wrappers
  import opened Faults
  import opened Json
  import opened FlowBase
  import opened Graph
  import Oracle

  const Nodes: seq<string> := ["analyze_question", "generate_response", "finalize_response"]

  /** `_build_graph`: analyze_question, generate_response, finalize_response, END. */
  function QaGraph(): (g: Graph)
    ensures g.entry == "analyze_question" && g.nodes == Nodes
  {
    Graph(Nodes, "analyze_question", map[
      "analyze_question" := Fixed(Node("generate_response")),
      "generate_response" := Fixed(Node("finalize_response")),
      "finalize_response" := Fixed(End)])
  }

  /** The graph is well formed, has no conditional edge, and only finalisation ends it. */
  lemma QaGraphShape()
    ensures WellFormed(QaGraph())
    ensures forall n :: n in QaGraph().edges ==> QaGraph().edges[n].Fixed?
    ensures QaGraph().edges["analyze_question"] == Fixed(Node("generate_response"))
    ensures QaGraph().edges["generate_response"] == Fixed(Node("finalize_response"))
    ensures EndingNodes(QaGraph()) == {"finalize_response"}
  {
    var g := QaGraph();
    forall n ensures n in EndingNodes(g) <==> n == "finalize_response" {
    }
  }

  /** `_analyze_question`: the reply is stored as the analysis. */
  function AnalyzeQuestion(st: State, replies: seq<string>): StepResult {
    match Oracle.Call(replies)
    case Err(e) => Threw(e)
    case Ok((reply, rest)) => Stepped(Store(st, "question_analysis", JStr(reply)).(currentStep := "analyze_question"), rest)
  }

  /** `_generate_response`: the analysis only feeds the prompt; the reply is stored as the response. */
  function GenerateResponse(st: State, replies: seq<string>): StepResult {
    match Oracle.Call(replies)
    case Err(e) => Threw(e)
    case Ok((reply, rest)) => Stepped(Store(st, "generated_response", JStr(reply)).(currentStep := "generate_response"), rest)
  }

  /** The analysis the response prompt shows (`""` when absent). */
  function PromptedAnalysis(st: State): Json {
    Meta(st, "question_analysis", JStr(""))
  }

  /** `_finalize_response`: `add_message` renders the stored response with `str()`. */
  function FinalizeResponse(st: State): State {
    WithMessage(st, Str(Meta(st, "generated_response", JStr(""))), "assistant").(currentStep := "finalize_response")
  }

  /**
   * Finalisation appends exactly one assistant message holding the generated
   * response ("" if there is none) and leaves earlier messages and the metadata alone.
   */
  lemma FinalizeAppendsAnswer(st: State)
    ensures var r := FinalizeResponse(st);
            |r.messages| == |st.messages| + 1
            && r.messages[..|st.messages|] == st.messages
            && r.messages[|st.messages|] == Msg(Ai, Str(Meta(st, "generated_response", JStr(""))))
            && r.metadata == st.metadata
    ensures "generated_response" !in st.metadata ==> FinalizeResponse(st).messages[|st.messages|].content == ""
  {
    assert (st.messages + [NewMessage(Str(Meta(st, "generated_response", JStr(""))), "assistant")])[..|st.messages|] == st.messages;
  }

  /** The response step stores the reply it received, whatever the analysis was. */
  lemma GenerateStoresReply(st: State, replies: seq<string>)
    requires replies != []
    ensures GenerateResponse(st, replies).Stepped?
    ensures Meta(GenerateResponse(st, replies).st, "generated_response", JNull) == JStr(replies[0])
    ensures GenerateResponse(st, replies).rest == replies[1..]
  {
  }

  /** The three steps in sequence answer with the second reply. */
  lemma PathAnswersWithSecondReply(st: State, replies: seq<string>)
    requires |replies| >= 2
    ensures AnalyzeQuestion(st, replies).Stepped?
    ensures var a := AnalyzeQuestion(st, replies);
            GenerateResponse(a.st, a.rest).Stepped?
            && FinalizeResponse(GenerateResponse(a.st, a.rest).st).messages == st.messages + [Msg(Ai, replies[1])]
  {
    var a := AnalyzeQuestion(st, replies);
    assert a.rest == replies[1..];
    GenerateStoresReply(a.st, a.rest);
  }

  /** The step of each node; an unknown node raises. */
  function Step(node: string, st: State, replies: seq<string>): StepResult {
    if node == "analyze_question" then AnalyzeQuestion(st, replies)
    else if node == "generate_response" then GenerateResponse(st, replies)
    else if node == "finalize_response" then Stepped(FinalizeResponse(st), replies)
    else Threw(UnknownNode(node))
  }

  /** Each step records its own name in `current_step`. */
  lemma StepRecordsNode(node: string, st: State, replies: seq<string>)
    requires node in Nodes
    ensures Step(node, st, replies).Stepped? ==> Step(node, st, replies).st.currentStep == node
  {
  }

  method AnalyzeQuestionStep(s: FlowState, llm: Oracle.Llm) returns (e: Option<Exn>)
    modifies s, llm
    ensures Realises(AnalyzeQuestion(old(s.Value()), old(llm.replies)), e, old(s.Value()), s.Value(), old(llm.replies), llm.replies)
  {
    var reply := llm.Invoke();
    if reply.Err? {
      return Some(reply.error);
    }
    s.metadata := s.metadata["question_analysis" := JStr(reply.value)];
    s.currentStep := "analyze_question";
    return None;
  }

  /** `prompted` is the analysis the prompt shows the model. */
  method GenerateResponseStep(s: FlowState, llm: Oracle.Llm) returns (e: Option<Exn>, prompted: Json)
    modifies s, llm
    ensures Realises(GenerateResponse(old(s.Value()), old(llm.replies)), e, old(s.Value()), s.Value(), old(llm.replies), llm.replies)
    ensures prompted == PromptedAnalysis(old(s.Value()))
  {
    prompted := if "question_analysis" in s.metadata then s.metadata["question_analysis"] else JStr("");
    var reply := llm.Invoke();
    if reply.Err? {
      return Some(reply.error), prompted;
    }
    s.metadata := s.metadata["generated_response" := JStr(reply.value)];
    s.currentStep := "generate_response";
    return None, prompted;
  }

  method FinalizeResponseStep(s: FlowState)
    modifies s
    ensures s.Value() == FinalizeResponse(old(s.Value()))
  {
    var content := if "generated_response" in s.metadata then s.metadata["generated_response"] else JStr("");
    AddMessage(s, Str(content), "assistant");
    s.currentStep := "finalize_response";
  }

  /** The step method of a node, run on the state object. */
  method RunStep(node: string, s: FlowState, llm: Oracle.Llm) returns (e: Option<Exn>)
    modifies s, llm
    ensures Realises(Step(node, old(s.Value()), old(llm.replies)), e, old(s.Value()), s.Value(), old(llm.replies), llm.replies)
  {
    if node == "analyze_question" {
      e := AnalyzeQuestionStep(s, llm);
    } else if node == "generate_response" {
      var prompted;
      e, prompted := GenerateResponseStep(s, llm);
    } else if node == "finalize_response" {
      FinalizeResponseStep(s);
      e := None;
    } else {
      e := Some(UnknownNode(node));
    }
  }
}
