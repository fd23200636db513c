/**
 * Whole runs of the general question-answering flow (app/flows/general_qa.py)
 * under `BaseFlow.run`: with budget for its three steps, a run completes
 * exactly when the model gives two replies, and then answers with the second.
 */
module GeneralQaPaths {
  import opened Wrappers
  import opened Faults
  import opened Json
  import opened FlowBase
  import opened Graph
  import opened Engine
  import opened GeneralQa

  /** The route of every completed run. */
  const QaRoute: seq<string> := ["analyze_question", "generate_response", "finalize_response"]

  /** The three fixed edges, as the interpreter follows them. */
  lemma QaEdges(st: State)
    ensures Next(GeneralQaKind, "analyze_question", st) == Ok(Node("generate_response"))
    ensures Next(GeneralQaKind, "generate_response", st) == Ok(Node("finalize_response"))
    ensures Next(GeneralQaKind, "finalize_response", st) == Ok(End)
  {
    QaGraphShape();
  }

  /**
   * With two replies and a budget of at least three steps, a run takes the
   * three nodes in order, uses two replies, and answers with the second one
   * as a single new assistant message; the session and `error` stay.
   */
  lemma QaRun(st: State, replies: seq<string>, decode: string -> Option<Json>, limit: nat)
    requires limit >= |QaRoute| && |replies| >= 2
    ensures var o := RunOutcome(GeneralQaKind, st, replies, decode, limit);
            o.Completed? && o.path == QaRoute && o.rest == replies[2..]
            && o.st.messages == st.messages + [Msg(Ai, replies[1])]
            && Meta(o.st, "question_analysis", JNull) == JStr(replies[0])
            && Meta(o.st, "generated_response", JNull) == JStr(replies[1])
            && o.st.sessionId == st.sessionId && o.st.error == st.error
            && o.st.currentStep == "finalize_response"
    ensures RunResult(GeneralQaKind, st, replies, decode, limit).messages == st.messages + [Msg(Ai, replies[1])]
  {
    var m := MachineOf(GeneralQaKind, decode);
    var a := AnalyzeQuestion(st, replies);
    PathAnswersWithSecondReply(st, replies);
    var g := GenerateResponse(a.st, a.rest);
    var f := FinalizeResponse(g.st);
    assert a.rest == replies[1..] && g.rest == replies[2..];
    QaEdges(a.st);
    QaEdges(g.st);
    QaEdges(f);
    ExecGoes(m, GeneralQaKind, decode, "analyze_question", st, replies, limit, [], a.st, a.rest, "generate_response");
    ExecGoes(m, GeneralQaKind, decode, "generate_response", a.st, a.rest, limit - 1, ["analyze_question"],
             g.st, g.rest, "finalize_response");
    ExecEnds(m, GeneralQaKind, decode, "finalize_response", g.st, g.rest, limit - 2,
             ["analyze_question"] + ["generate_response"], f, g.rest);
    assert ["analyze_question"] + ["generate_response"] + ["finalize_response"] == QaRoute;
  }

  /**
   * With fewer than two replies, a run with budget for the route fails at the
   * model call: `run` returns the state it was given with the failure as `error`.
   */
  lemma QaRunNeedsTwoReplies(st: State, replies: seq<string>, decode: string -> Option<Json>, limit: nat)
    requires limit >= |QaRoute| && |replies| < 2
    ensures RunOutcome(GeneralQaKind, st, replies, decode, limit).Aborted?
    ensures RunResult(GeneralQaKind, st, replies, decode, limit) == st.(error := Some(Message(LlmFailure)))
  {
    var m := MachineOf(GeneralQaKind, decode);
    if replies == [] {
      ExecThrows(m, GeneralQaKind, decode, "analyze_question", st, replies, limit, [], LlmFailure);
    } else {
      var a := AnalyzeQuestion(st, replies);
      assert a.rest == [];
      QaEdges(a.st);
      ExecGoes(m, GeneralQaKind, decode, "analyze_question", st, replies, limit, [], a.st, a.rest, "generate_response");
      ExecThrows(m, GeneralQaKind, decode, "generate_response", a.st, a.rest, limit - 1, ["analyze_question"], LlmFailure);
    }
  }
}
