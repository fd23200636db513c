/**
 * The routes a text-to-SQL run takes. Routing depends only on the normalised
 * replies of the model, so for a run that starts, as `execute_flow` starts it,
 * with empty metadata, the sequence of nodes is fixed by the first reply
 * (and, for "fix_query", by the user's message), provided the later replies
 * have the shape the steps subscript.
 */
module TextToSqlPaths {
  import opened Wrappers
  import opened Json
  import opened Faults
  import opened FlowBase
  import opened Graph
  import opened Engine
  import opened TextToSql

  /** A table entry the steps can use: a string `name` and a `reasoning`. */
  predicate TableEntry(t: Json) {
    Subscript(t, "name").Ok? && Subscript(t, "name").value.JStr? && Subscript(t, "reasoning").Ok?
  }

  /** A list of table entries. */
  predicate TableList(j: Json) {
    j.JArr? && forall i :: 0 <= i < |j.items| ==> TableEntry(j.items[i])
  }

  /** A column entry the steps can use: a `table`, a list of strings `columns`, and a `reasoning`. */
  predicate ColumnEntry(c: Json) {
    Subscript(c, "table").Ok? && Subscript(c, "columns").Ok? && Subscript(c, "reasoning").Ok?
    && JoinJson(Subscript(c, "columns").value, ", ").Ok?
  }

  /** A list of column entries. */
  predicate ColumnList(j: Json) {
    j.JArr? && forall i :: 0 <= i < |j.items| ==> ColumnEntry(j.items[i])
  }

  /** A validator reply the SQL gate lets through. */
  predicate Approves(decode: string -> Option<Json>, reply: string) {
    var d := decode(reply);
    !(d.Some? && d.value.JObj?) || Truthy(Get(d.value.members, "is_valid").GetOr(JBool(false)))
  }

  const NewQueryRoute: seq<string> := [
    "analyze_request", "identify_tables", "validate_tables", "identify_columns",
    "generate_sql", "validate_sql", "finalize_response"]
  const EditQueryRoute: seq<string> := ["analyze_request", "generate_sql", "validate_sql", "finalize_response"]
  const DirectFixRoute: seq<string> := ["analyze_request", "validate_sql", "finalize_response"]
  const FollowupFixRoute: seq<string> := ["analyze_request", "fix_query_followup", "finalize_response"]

  /** The fallback table list is usable. */
  lemma DefaultTablesUsable()
    ensures TableList(DefaultTables)
  {
    assert DefaultTables.items[0] == JObj([Member("name", JStr("users")), Member("reasoning", JStr("Default table"))]);
  }

  /** A usable table list passes table validation, renders in both prompts, and names the offered columns. */
  lemma TableListUsable(tables: Json)
    requires TableList(tables)
    ensures TableSelection(tables).Ok?
    ensures OfferedColumns(tables).Ok?
    ensures MapItems(tables.items, TableContextLine).Ok?
    ensures TablesSection(tables).Ok?
  {
    TableListSelects(tables);
    TableListOffers(tables);
    TableListRenders(tables);
  }

  lemma TableListSelects(tables: Json)
    requires TableList(tables)
    ensures TableSelection(tables).Ok?
  {
    var names := Pluck(tables, "name").value;
    forall i | 0 <= i < |names| ensures names[i].JStr? {
      assert Subscript(tables.items[i], "name") == Ok(names[i]);
    }
  }

  lemma TableListOffers(tables: Json)
    requires TableList(tables)
    ensures OfferedColumns(tables).Ok?
  {
  }

  lemma TableListRenders(tables: Json)
    requires TableList(tables)
    ensures MapItems(tables.items, TableContextLine).Ok?
    ensures TablesSection(tables).Ok?
  {
  }

  /** A usable column list renders in the generation prompt and in the response. */
  lemma ColumnListUsable(j: Json)
    requires ColumnList(j)
    ensures MapItems(j.items, ColumnContextLine).Ok?
    ensures ColumnsSection(j).Ok?
  {
  }

  lemma AnalysisEdge()
    ensures "analyze_request" in FlowGraph().edges
    ensures FlowGraph().edges["analyze_request"] == Branch("route_after_analysis", AnalysisTable)
  {
  }

  /** Where each analysis key leads. */
  lemma AnalysisTargets()
    ensures AnalysisTable["new_query"] == Node("identify_tables")
    ensures AnalysisTable["edit_query"] == Node("generate_sql")
    ensures AnalysisTable["fix_query"] == Node("validate_sql")
    ensures AnalysisTable["fix_query_followup"] == Node("fix_query_followup")
  {
    assert "new_query"[0] != "fix_query"[0];
  }

  lemma SqlValidationEdge()
    ensures "validate_sql" in FlowGraph().edges
    ensures FlowGraph().edges["validate_sql"] == Branch("route_after_sql_validation", SqlValidationTable)
  {
  }

  lemma TableValidationEdge()
    ensures "validate_tables" in FlowGraph().edges
    ensures FlowGraph().edges["validate_tables"] == Branch("route_after_table_validation", TableValidationTable)
  {
  }

  lemma FixedEdge(n: string, t: Target)
    requires n in {"identify_tables", "identify_columns", "generate_sql", "finalize_response", "fix_query_followup"}
    requires t == (if n == "identify_tables" then Node("validate_tables")
                   else if n == "identify_columns" then Node("generate_sql")
                   else if n == "generate_sql" then Node("validate_sql")
                   else if n == "finalize_response" then End
                   else Node("finalize_response"))
    ensures n in FlowGraph().edges && FlowGraph().edges[n] == Fixed(t)
  {
  }

  /** The names that share a length differ; the dispatch relies on it. */
  lemma NodeNamesDiffer()
    ensures "validate_tables" != "analyze_request" && "validate_tables" != "identify_tables"
    ensures "identify_tables" != "analyze_request"
    ensures "validate_sql" != "generate_sql"
  {
    assert "validate_tables"[0] != "analyze_request"[0];
    assert "validate_tables"[0] != "identify_tables"[0];
    assert "identify_tables"[0] != "analyze_request"[0];
    assert "validate_sql"[0] != "generate_sql"[0];
  }

  /** The response sections can be built from what the state records. */
  predicate Finishes(st: State) {
    TablesSection(Meta(st, "identified_tables", JArr([]))).Ok?
    && ColumnsSection(Meta(st, "identified_columns", JArr([]))).Ok?
  }

  /**
   * How a completed run answers: one message is appended to those of the
   * state it started from, an assistant message opening with `sql` fenced,
   * and `sql` is the stored query.
   */
  predicate Answers(before: State, after: State, sql: string) {
    |after.messages| == |before.messages| + 1
    && after.messages[..|before.messages|] == before.messages
    && after.messages[|before.messages|].kind == Ai
    && Text.StartsWith(after.messages[|before.messages|].content, OpeningText(sql))
    && Meta(after, "generated_sql", JStr("")) == JStr(sql)
  }

  /** SQL validation leaves the messages, the query and the recorded tables and columns alone. */
  lemma ValidateKeeps(st: State, replies: seq<string>, decode: string -> Option<Json>)
    requires replies != []
    ensures ValidateSql(st, replies, decode).Stepped?
    ensures var v := ValidateSql(st, replies, decode).st;
            v.messages == st.messages
            && Meta(v, "generated_sql", JStr("")) == Meta(st, "generated_sql", JStr(""))
            && Meta(v, "identified_tables", JArr([])) == Meta(st, "identified_tables", JArr([]))
            && Meta(v, "identified_columns", JArr([])) == Meta(st, "identified_columns", JArr([]))
  {
  }

  /** Generation stores the cleaned reply and leaves the messages and the recorded tables and columns alone. */
  lemma GenerateKeeps(st: State, replies: seq<string>)
    requires replies != [] && GenerationContext(st).Ok?
    ensures GenerateSql(st, replies).Stepped?
    ensures var g := GenerateSql(st, replies).st;
            g.messages == st.messages
            && Meta(g, "generated_sql", JStr("")) == JStr(CleanReply(replies[0]))
            && Meta(g, "identified_tables", JArr([])) == Meta(st, "identified_tables", JArr([]))
            && Meta(g, "identified_columns", JArr([])) == Meta(st, "identified_columns", JArr([]))
  {
    GenerateStepped(st, replies);
    var g := GenerateSql(st, replies).st;
    var sql := JStr(CleanReply(replies[0]));
    MetaStored(st, g, "generated_sql", sql, JStr(""));
    MetaUpdated(st, g, "generated_sql", sql, "identified_tables", JArr([]));
    MetaUpdated(st, g, "generated_sql", sql, "identified_columns", JArr([]));
  }

  /** With a buildable context and a reply, generation stores the cleaned reply and consumes it. */
  lemma GenerateStepped(st: State, replies: seq<string>)
    requires replies != [] && GenerationContext(st).Ok?
    ensures GenerateSql(st, replies)
            == Stepped(Store(st, "generated_sql", JStr(CleanReply(replies[0]))).(currentStep := "generate_sql"), replies[1..])
  {
    assert Oracle.Call(replies) == Ok((replies[0], replies[1..]));
  }

  /** The follow-up fix stores the cleaned reply and leaves the messages and the recorded tables and columns alone. */
  lemma FollowupKeeps(st: State, replies: seq<string>)
    requires replies != []
    ensures FixQueryFollowup(st, replies).Stepped?
    ensures var f := FixQueryFollowup(st, replies).st;
            f.messages == st.messages
            && Meta(f, "generated_sql", JStr("")) == JStr(CleanReply(replies[0]))
            && Meta(f, "identified_tables", JArr([])) == Meta(st, "identified_tables", JArr([]))
            && Meta(f, "identified_columns", JArr([])) == Meta(st, "identified_columns", JArr([]))
  {
    FollowupStepped(st, replies);
    var f := FixQueryFollowup(st, replies).st;
    var sql := JStr(CleanReply(replies[0]));
    MetaStored(st, f, "generated_sql", sql, JStr(""));
    MetaUpdated(st, f, "generated_sql", sql, "identified_tables", JArr([]));
    MetaUpdated(st, f, "generated_sql", sql, "identified_columns", JArr([]));
  }

  /** A stored value is read back. */
  lemma MetaStored(st: State, r: State, key: string, v: Json, default: Json)
    requires r.metadata == st.metadata[key := v]
    ensures Meta(r, key, default) == v
  {
  }

  /** Storing under one key leaves the other keys' values alone. */
  lemma MetaUpdated(st: State, r: State, key: string, v: Json, other: string, default: Json)
    requires r.metadata == st.metadata[key := v] && other != key
    ensures Meta(r, other, default) == Meta(st, other, default)
  {
  }

  /** With a reply, the follow-up fix stores the cleaned reply and consumes it. */
  lemma FollowupStepped(st: State, replies: seq<string>)
    requires replies != []
    ensures FixQueryFollowup(st, replies)
            == Stepped(Store(st, "generated_sql", JStr(CleanReply(replies[0]))).(currentStep := "fix_query_followup"), replies[1..])
  {
    assert Oracle.Call(replies) == Ok((replies[0], replies[1..]));
  }

  /** Finalisation answers with the stored query when the sections can be built and the query is a string. */
  lemma FinalizeAnswers(st: State)
    requires Finishes(st) && Meta(st, "generated_sql", JStr("")).JStr?
    ensures FinalizeResponse(st).Ok?
    ensures Answers(st, FinalizeResponse(st).value, Meta(st, "generated_sql", JStr("")).s)
  {
    FinalizeAppendsResponse(st);
  }

  /** Usable table and column lists let generation build its prompt and finalisation its sections. */
  lemma ListsReady(st: State)
    requires TableList(Meta(st, "identified_tables", JArr([])))
    requires ColumnList(Meta(st, "identified_columns", JArr([])))
    ensures GenerationContext(st).Ok? && Finishes(st)
  {
    TableListUsable(Meta(st, "identified_tables", JArr([])));
    ColumnListUsable(Meta(st, "identified_columns", JArr([])));
  }

  /** Column identification records the decoded column list and leaves the messages and the tables alone. */
  lemma IdentifyColumnsKeeps(st: State, replies: seq<string>, decode: string -> Option<Json>)
    requires replies != [] && OfferedColumns(Meta(st, "identified_tables", JArr([]))).Ok?
    ensures IdentifyColumns(st, replies, decode).Stepped?
    ensures var c := IdentifyColumns(st, replies, decode).st;
            c.messages == st.messages
            && Meta(c, "identified_tables", JArr([])) == Meta(st, "identified_tables", JArr([]))
            && Meta(c, "identified_columns", JArr([])) == Decoded(decode, replies[0], "table_columns", JArr([]))
  {
  }

  /** Table validation of a usable list succeeds and leaves the messages and the tables alone. */
  lemma ValidateTablesKeeps(st: State)
    requires TableList(Meta(st, "identified_tables", JArr([])))
    ensures ValidateTables(st).Ok?
    ensures var v := ValidateTables(st).value;
            v.messages == st.messages
            && Meta(v, "identified_tables", JArr([])) == Meta(st, "identified_tables", JArr([]))
  {
    TableListUsable(Meta(st, "identified_tables", JArr([])));
  }

  /** Analysis changes only the two analysis entries of the metadata, and no message. */
  lemma AnalysisKeeps(st: State, replies: seq<string>)
    requires replies != []
    ensures AnalyzeRequest(st, replies).Stepped?
    ensures var a := AnalyzeRequest(st, replies).st;
            a.messages == st.messages
            && (forall key :: key != "fix_query_type" && key != "operation_type" ==> Meta(a, key, JNull) == Meta(st, key, JNull))
            && Meta(a, "identified_tables", JArr([])) == Meta(st, "identified_tables", JArr([]))
            && Meta(a, "identified_columns", JArr([])) == Meta(st, "identified_columns", JArr([]))
            && Meta(a, "generated_sql", JStr("")) == Meta(st, "generated_sql", JStr(""))
  {
  }

  /** Both replies that ask for a follow-up fix route to it. */
  lemma FollowupRouted(st: State, replies: seq<string>)
    requires replies != []
    requires var op := OperationType(replies[0]);
             (op == "fix_query" && !MentionsSql(LastUserMessage(st.messages).GetOr(""))) || op == "fix_query_followup"
    ensures RouteAfterAnalysis(AnalyzeRequest(st, replies).st) == JStr("fix_query_followup")
  {
    AnalyzeThenRoute(st, replies);
  }

  // ---------------------------------------------------------------------------
  // Each step as the run takes it. `m` is any machine that runs the flow; a
  // step is looked up only at the node and state the lemma names.

  /** Analysis consumes one reply; the edge after it follows the decision table under the router's key. */
  lemma AnalyzeRuns(m: Machine, decode: string -> Option<Json>, st: State, replies: seq<string>, key: string)
    requires Runs(m, TextToSqlKind, decode) && replies != []
    requires key in AnalysisTable && RouteAfterAnalysis(AnalyzeRequest(st, replies).st) == JStr(key)
    ensures m.step("analyze_request", st, replies) == Stepped(AnalyzeRequest(st, replies).st, replies[1..])
    ensures m.next("analyze_request", AnalyzeRequest(st, replies).st) == Ok(AnalysisTable[key])
  {
    var a := AnalyzeRequest(st, replies).st;
    assert At("analyze_request", st, replies) && At("analyze_request", a, replies);
    NodeNamesDiffer();
    AnalysisEdge();
    NextBranch(TextToSqlKind, "analyze_request", a, "route_after_analysis", AnalysisTable, key);
  }

  /** Table identification consumes one reply and goes on to table validation. */
  lemma IdentifyTablesRuns(m: Machine, decode: string -> Option<Json>, st: State, replies: seq<string>)
    requires Runs(m, TextToSqlKind, decode) && replies != []
    ensures IdentifyTables(st, replies, decode).Stepped?
    ensures m.step("identify_tables", st, replies) == Stepped(IdentifyTables(st, replies, decode).st, replies[1..])
    ensures m.next("identify_tables", IdentifyTables(st, replies, decode).st) == Ok(Node("validate_tables"))
  {
    var t := IdentifyTables(st, replies, decode).st;
    assert At("identify_tables", st, replies) && At("identify_tables", t, replies);
    NodeNamesDiffer();
    FixedEdge("identify_tables", Node("validate_tables"));
    NextFixed(TextToSqlKind, "identify_tables", t, Node("validate_tables"));
  }

  /** Table validation that succeeds consumes no reply and always goes on to column identification. */
  lemma ValidateTablesRuns(m: Machine, decode: string -> Option<Json>, st: State, replies: seq<string>)
    requires Runs(m, TextToSqlKind, decode) && ValidateTables(st).Ok?
    ensures m.step("validate_tables", st, replies) == Stepped(ValidateTables(st).value, replies)
    ensures m.next("validate_tables", ValidateTables(st).value) == Ok(Node("identify_columns"))
  {
    var v := ValidateTables(st).value;
    assert At("validate_tables", st, replies) && At("validate_tables", v, replies);
    NodeNamesDiffer();
    assert StepOf(TextToSqlKind, "validate_tables", st, replies, decode) == Settle(ValidateTables(st), replies);
    TableGateAlwaysApproves(st);
    TableValidationEdge();
    NextBranch(TextToSqlKind, "validate_tables", v, "route_after_table_validation", TableValidationTable, "approved");
  }

  /** Column identification consumes one reply and goes on to generation. */
  lemma IdentifyColumnsRuns(m: Machine, decode: string -> Option<Json>, st: State, replies: seq<string>)
    requires Runs(m, TextToSqlKind, decode) && IdentifyColumns(st, replies, decode).Stepped?
    ensures m.step("identify_columns", st, replies) == IdentifyColumns(st, replies, decode)
    ensures m.next("identify_columns", IdentifyColumns(st, replies, decode).st) == Ok(Node("generate_sql"))
  {
    var c := IdentifyColumns(st, replies, decode).st;
    assert At("identify_columns", st, replies) && At("identify_columns", c, replies);
    FixedEdge("identify_columns", Node("generate_sql"));
    NextFixed(TextToSqlKind, "identify_columns", c, Node("generate_sql"));
  }

  /** Generation goes on to SQL validation. */
  lemma GenerateRuns(m: Machine, decode: string -> Option<Json>, st: State, replies: seq<string>)
    requires Runs(m, TextToSqlKind, decode) && GenerateSql(st, replies).Stepped?
    ensures m.step("generate_sql", st, replies) == GenerateSql(st, replies)
    ensures m.next("generate_sql", GenerateSql(st, replies).st) == Ok(Node("validate_sql"))
  {
    var g := GenerateSql(st, replies).st;
    assert At("generate_sql", st, replies) && At("generate_sql", g, replies);
    FixedEdge("generate_sql", Node("validate_sql"));
    NextFixed(TextToSqlKind, "generate_sql", g, Node("validate_sql"));
  }

  /** SQL validation consumes one reply; when the reply approves it goes on to finalisation. */
  lemma ValidateRuns(m: Machine, decode: string -> Option<Json>, st: State, replies: seq<string>)
    requires Runs(m, TextToSqlKind, decode) && replies != [] && Approves(decode, replies[0])
    ensures ValidateSql(st, replies, decode).Stepped?
    ensures m.step("validate_sql", st, replies) == Stepped(ValidateSql(st, replies, decode).st, replies[1..])
    ensures m.next("validate_sql", ValidateSql(st, replies, decode).st) == Ok(Node("finalize_response"))
  {
    var v := ValidateSql(st, replies, decode).st;
    assert At("validate_sql", st, replies) && At("validate_sql", v, replies);
    NodeNamesDiffer();
    SqlGate(st, replies, decode);
    SqlValidationEdge();
    NextBranch(TextToSqlKind, "validate_sql", v, "route_after_sql_validation", SqlValidationTable, "approved");
  }

  /** The follow-up fix consumes one reply and goes on to finalisation. */
  lemma FollowupRuns(m: Machine, decode: string -> Option<Json>, st: State, replies: seq<string>)
    requires Runs(m, TextToSqlKind, decode) && replies != []
    ensures FixQueryFollowup(st, replies).Stepped?
    ensures m.step("fix_query_followup", st, replies) == Stepped(FixQueryFollowup(st, replies).st, replies[1..])
    ensures m.next("fix_query_followup", FixQueryFollowup(st, replies).st) == Ok(Node("finalize_response"))
  {
    var x := FixQueryFollowup(st, replies).st;
    assert At("fix_query_followup", st, replies) && At("fix_query_followup", x, replies);
    FixedEdge("fix_query_followup", Node("finalize_response"));
    NextFixed(TextToSqlKind, "fix_query_followup", x, Node("finalize_response"));
  }

  /** Finalisation that succeeds consumes no reply and ends the run. */
  lemma FinalizeRuns(m: Machine, decode: string -> Option<Json>, st: State, replies: seq<string>)
    requires Runs(m, TextToSqlKind, decode) && FinalizeResponse(st).Ok?
    ensures m.step("finalize_response", st, replies) == Stepped(FinalizeResponse(st).value, replies)
    ensures m.next("finalize_response", FinalizeResponse(st).value) == Ok(End)
  {
    var r := FinalizeResponse(st).value;
    assert At("finalize_response", st, replies) && At("finalize_response", r, replies);
    FixedEdge("finalize_response", End);
    NextFixed(TextToSqlKind, "finalize_response", r, End);
  }

  // ---------------------------------------------------------------------------
  // The tails of the routes, from the node at `i` to the end.

  /** The route ends with finalisation: the run answers with the stored query. */
  lemma AlongFinalize(m: Machine, decode: string -> Option<Json>, route: seq<string>, i: nat, st: State, replies: seq<string>)
    requires Runs(m, TextToSqlKind, decode)
    requires i == |route| - 1 && route[i] == "finalize_response"
    requires Finishes(st) && Meta(st, "generated_sql", JStr("")).JStr?
    ensures Along(m, route, i, st, replies)
    ensures var f := Follow(m, route, i, st, replies);
            f.Stepped? && f.rest == replies && Answers(st, f.st, Meta(st, "generated_sql", JStr("")).s)
  {
    FinalizeAnswers(st);
    FinalizeRuns(m, decode, st, replies);
    AlongLast(m, route, i, st, replies, FinalizeResponse(st).value, replies);
  }

  /** Validation approved by the reply, then finalisation: the run answers with the stored query. */
  lemma AlongValidate(m: Machine, decode: string -> Option<Json>, route: seq<string>, i: nat, st: State, replies: seq<string>)
    requires Runs(m, TextToSqlKind, decode)
    requires i == |route| - 2 && route[i] == "validate_sql" && route[i + 1] == "finalize_response"
    requires replies != [] && Approves(decode, replies[0])
    requires Finishes(st) && Meta(st, "generated_sql", JStr("")).JStr?
    ensures Along(m, route, i, st, replies)
    ensures var f := Follow(m, route, i, st, replies);
            f.Stepped? && f.rest == replies[1..] && Answers(st, f.st, Meta(st, "generated_sql", JStr("")).s)
  {
    var v := ValidateSql(st, replies, decode).st;
    ValidateKeeps(st, replies, decode);
    ValidateRuns(m, decode, st, replies);
    AlongFinalize(m, decode, route, i + 1, v, replies[1..]);
    AlongStep(m, route, i, st, replies, v, replies[1..]);
  }

  /** Generation, validation approved by the second reply, finalisation: the run answers with the cleaned first reply. */
  lemma AlongGenerate(m: Machine, decode: string -> Option<Json>, route: seq<string>, i: nat, st: State, replies: seq<string>)
    requires Runs(m, TextToSqlKind, decode)
    requires i == |route| - 3 && route[i] == "generate_sql" && route[i + 1] == "validate_sql" && route[i + 2] == "finalize_response"
    requires |replies| >= 2 && Approves(decode, replies[1])
    requires GenerationContext(st).Ok? && Finishes(st)
    ensures Along(m, route, i, st, replies)
    ensures var f := Follow(m, route, i, st, replies);
            f.Stepped? && f.rest == replies[2..] && Answers(st, f.st, CleanReply(replies[0]))
  {
    var g := GenerateSql(st, replies);
    GenerateKeeps(st, replies);
    GenerateRuns(m, decode, st, replies);
    assert g.rest == replies[1..] && g.rest[0] == replies[1] && g.rest[1..] == replies[2..];
    AlongValidate(m, decode, route, i + 1, g.st, g.rest);
    AlongStep(m, route, i, st, replies, g.st, g.rest);
  }

  /** Column identification, then generation, approved validation and finalisation. */
  lemma AlongIdentifyColumns(m: Machine, decode: string -> Option<Json>, route: seq<string>, i: nat, st: State, replies: seq<string>)
    requires Runs(m, TextToSqlKind, decode)
    requires i == |route| - 4 && route[i] == "identify_columns" && route[i + 1] == "generate_sql"
    requires route[i + 2] == "validate_sql" && route[i + 3] == "finalize_response"
    requires |replies| >= 3 && Approves(decode, replies[2])
    requires TableList(Meta(st, "identified_tables", JArr([])))
    requires ColumnList(Decoded(decode, replies[0], "table_columns", JArr([])))
    ensures Along(m, route, i, st, replies)
    ensures var f := Follow(m, route, i, st, replies);
            f.Stepped? && f.rest == replies[3..] && Answers(st, f.st, CleanReply(replies[1]))
  {
    TableListUsable(Meta(st, "identified_tables", JArr([])));
    var c := IdentifyColumns(st, replies, decode);
    IdentifyColumnsKeeps(st, replies, decode);
    ListsReady(c.st);
    IdentifyColumnsRuns(m, decode, st, replies);
    assert c.rest == replies[1..] && c.rest[1] == replies[2] && c.rest[0] == replies[1] && c.rest[2..] == replies[3..];
    AlongGenerate(m, decode, route, i + 1, c.st, c.rest);
    AlongStep(m, route, i, st, replies, c.st, c.rest);
  }

  /** Table validation (always approved), then the column, generation, validation and finalisation steps. */
  lemma AlongValidateTables(m: Machine, decode: string -> Option<Json>, route: seq<string>, i: nat, st: State, replies: seq<string>)
    requires Runs(m, TextToSqlKind, decode)
    requires i == |route| - 5 && route[i] == "validate_tables" && route[i + 1] == "identify_columns"
    requires route[i + 2] == "generate_sql" && route[i + 3] == "validate_sql" && route[i + 4] == "finalize_response"
    requires |replies| >= 3 && Approves(decode, replies[2])
    requires TableList(Meta(st, "identified_tables", JArr([])))
    requires ColumnList(Decoded(decode, replies[0], "table_columns", JArr([])))
    ensures Along(m, route, i, st, replies)
    ensures var f := Follow(m, route, i, st, replies);
            f.Stepped? && f.rest == replies[3..] && Answers(st, f.st, CleanReply(replies[1]))
  {
    ValidateTablesKeeps(st);
    var v := ValidateTables(st).value;
    ValidateTablesRuns(m, decode, st, replies);
    AlongIdentifyColumns(m, decode, route, i + 1, v, replies);
    AlongStep(m, route, i, st, replies, v, replies);
  }

  /** Table identification, then the rest of a new query's route. */
  lemma AlongIdentifyTables(m: Machine, decode: string -> Option<Json>, route: seq<string>, i: nat, st: State, replies: seq<string>)
    requires Runs(m, TextToSqlKind, decode)
    requires i == |route| - 6 && route[i] == "identify_tables" && route[i + 1] == "validate_tables"
    requires route[i + 2] == "identify_columns" && route[i + 3] == "generate_sql"
    requires route[i + 4] == "validate_sql" && route[i + 5] == "finalize_response"
    requires |replies| >= 4 && Approves(decode, replies[3])
    requires TableList(Decoded(decode, replies[0], "tables", DefaultTables))
    requires ColumnList(Decoded(decode, replies[1], "table_columns", JArr([])))
    ensures Along(m, route, i, st, replies)
    ensures var f := Follow(m, route, i, st, replies);
            f.Stepped? && f.rest == replies[4..] && Answers(st, f.st, CleanReply(replies[2]))
  {
    var t := IdentifyTables(st, replies, decode).st;
    IdentifyTablesRuns(m, decode, st, replies);
    assert t.messages == st.messages;
    assert Meta(t, "identified_tables", JArr([])) == Decoded(decode, replies[0], "tables", DefaultTables);
    var rs := replies[1..];
    assert rs[0] == replies[1] && rs[1] == replies[2] && rs[2] == replies[3] && rs[3..] == replies[4..];
    AlongValidateTables(m, decode, route, i + 1, t, rs);
    AlongStep(m, route, i, st, replies, t, rs);
  }

  /** The follow-up fix, then finalisation: the run answers with the cleaned reply. */
  lemma AlongFollowup(m: Machine, decode: string -> Option<Json>, route: seq<string>, i: nat, st: State, replies: seq<string>)
    requires Runs(m, TextToSqlKind, decode)
    requires i == |route| - 2 && route[i] == "fix_query_followup" && route[i + 1] == "finalize_response"
    requires replies != [] && Finishes(st)
    ensures Along(m, route, i, st, replies)
    ensures var f := Follow(m, route, i, st, replies);
            f.Stepped? && f.rest == replies[1..] && Answers(st, f.st, CleanReply(replies[0]))
  {
    var x := FixQueryFollowup(st, replies).st;
    FollowupKeeps(st, replies);
    FollowupRuns(m, decode, st, replies);
    AlongFinalize(m, decode, route, i + 1, x, replies[1..]);
    AlongStep(m, route, i, st, replies, x, replies[1..]);
  }

  /** Analysis, whose reply picks the second node of the route from the decision table. */
  lemma AlongAnalyze(m: Machine, decode: string -> Option<Json>, route: seq<string>, st: State, replies: seq<string>, key: string)
    requires Runs(m, TextToSqlKind, decode)
    requires |route| >= 2 && route[0] == "analyze_request" && replies != []
    requires key in AnalysisTable && AnalysisTable[key] == Node(route[1])
    requires RouteAfterAnalysis(AnalyzeRequest(st, replies).st) == JStr(key)
    requires Along(m, route, 1, AnalyzeRequest(st, replies).st, replies[1..])
    ensures Along(m, route, 0, st, replies)
    ensures Follow(m, route, 0, st, replies) == Follow(m, route, 1, AnalyzeRequest(st, replies).st, replies[1..])
  {
    var a := AnalyzeRequest(st, replies).st;
    AnalyzeRuns(m, decode, st, replies, key);
    assert m.step(route[0], st, replies) == Stepped(a, replies[1..]) && m.next(route[0], a) == Ok(Node(route[1]));
    AlongStep(m, route, 0, st, replies, a, replies[1..]);
  }

  // ---------------------------------------------------------------------------
  // The four routes from the start.

  /**
   * A first reply of "new_query" sends the run through table identification,
   * table validation, column identification, generation and SQL validation to
   * finalisation, answering with the cleaned fourth reply.
   */
  lemma NewQueryAlong(m: Machine, decode: string -> Option<Json>, route: seq<string>, st: State, replies: seq<string>)
    requires Runs(m, TextToSqlKind, decode)
    requires |route| == 7 && route[0] == "analyze_request" && route[1] == "identify_tables" && route[2] == "validate_tables"
    requires route[3] == "identify_columns" && route[4] == "generate_sql" && route[5] == "validate_sql" && route[6] == "finalize_response"
    requires |replies| >= 5 && OperationType(replies[0]) == "new_query"
    requires TableList(Decoded(decode, replies[1], "tables", DefaultTables))
    requires ColumnList(Decoded(decode, replies[2], "table_columns", JArr([])))
    requires Approves(decode, replies[4])
    ensures Along(m, route, 0, st, replies)
    ensures var f := Follow(m, route, 0, st, replies);
            f.Stepped? && f.rest == replies[5..] && Answers(st, f.st, CleanReply(replies[3]))
  {
    AnalysisKeeps(st, replies);
    AnalyzeThenRoute(st, replies);
    var a := AnalyzeRequest(st, replies).st;
    var rs := replies[1..];
    assert rs[0] == replies[1] && rs[1] == replies[2] && rs[2] == replies[3] && rs[3] == replies[4] && rs[4..] == replies[5..];
    AlongIdentifyTables(m, decode, route, 1, a, rs);
    AnalysisTargets();
    AlongAnalyze(m, decode, route, st, replies, "new_query");
  }

  /**
   * A first reply of "edit_query" goes straight to generation, with the
   * tables and columns the state already records: the run answers with the
   * cleaned second reply once the third approves it.
   */
  lemma EditQueryAlong(m: Machine, decode: string -> Option<Json>, route: seq<string>, st: State, replies: seq<string>)
    requires Runs(m, TextToSqlKind, decode)
    requires |route| == 4 && route[0] == "analyze_request" && route[1] == "generate_sql"
    requires route[2] == "validate_sql" && route[3] == "finalize_response"
    requires |replies| >= 3 && OperationType(replies[0]) == "edit_query" && Approves(decode, replies[2])
    requires TableList(Meta(st, "identified_tables", JArr([])))
    requires ColumnList(Meta(st, "identified_columns", JArr([])))
    ensures Along(m, route, 0, st, replies)
    ensures var f := Follow(m, route, 0, st, replies);
            f.Stepped? && f.rest == replies[3..] && Answers(st, f.st, CleanReply(replies[1]))
  {
    AnalysisKeeps(st, replies);
    AnalyzeThenRoute(st, replies);
    var a := AnalyzeRequest(st, replies).st;
    ListsReady(a);
    var rs := replies[1..];
    assert rs[0] == replies[1] && rs[1] == replies[2] && rs[2..] == replies[3..];
    AlongGenerate(m, decode, route, 1, a, rs);
    AnalysisTargets();
    AlongAnalyze(m, decode, route, st, replies, "edit_query");
  }

  /**
   * A first reply of "fix_query" when the user's message mentions SQL goes
   * straight to validation of the query the state already holds: the run
   * answers with that query once the second reply approves it.
   */
  lemma DirectFixAlong(m: Machine, decode: string -> Option<Json>, route: seq<string>, st: State, replies: seq<string>)
    requires Runs(m, TextToSqlKind, decode)
    requires |route| == 3 && route[0] == "analyze_request" && route[1] == "validate_sql" && route[2] == "finalize_response"
    requires |replies| >= 2 && OperationType(replies[0]) == "fix_query" && Approves(decode, replies[1])
    requires MentionsSql(LastUserMessage(st.messages).GetOr(""))
    requires Finishes(st) && Meta(st, "generated_sql", JStr("")).JStr?
    ensures Along(m, route, 0, st, replies)
    ensures var f := Follow(m, route, 0, st, replies);
            f.Stepped? && f.rest == replies[2..] && Answers(st, f.st, Meta(st, "generated_sql", JStr("")).s)
  {
    AnalysisKeeps(st, replies);
    AnalyzeThenRoute(st, replies);
    var a := AnalyzeRequest(st, replies).st;
    var rs := replies[1..];
    assert rs[0] == replies[1] && rs[1..] == replies[2..];
    AlongValidate(m, decode, route, 1, a, rs);
    AnalysisTargets();
    AlongAnalyze(m, decode, route, st, replies, "fix_query");
  }

  /** A first reply that routes to the follow-up fix: the run answers with the cleaned second reply. */
  lemma FollowupRouteAlong(m: Machine, decode: string -> Option<Json>, route: seq<string>, st: State, replies: seq<string>)
    requires Runs(m, TextToSqlKind, decode)
    requires |route| == 3 && route[0] == "analyze_request" && route[1] == "fix_query_followup" && route[2] == "finalize_response"
    requires |replies| >= 2 && RouteAfterAnalysis(AnalyzeRequest(st, replies).st) == JStr("fix_query_followup")
    requires Finishes(st)
    ensures Along(m, route, 0, st, replies)
    ensures var f := Follow(m, route, 0, st, replies);
            f.Stepped? && f.rest == replies[2..] && Answers(st, f.st, CleanReply(replies[1]))
  {
    FollowupAfterAnalysis(m, decode, route, st, replies);
    AnalysisTargets();
    AlongAnalyze(m, decode, route, st, replies, "fix_query_followup");
  }

  /** After analysis, the follow-up fix and finalisation answer with the cleaned second reply. */
  lemma FollowupAfterAnalysis(m: Machine, decode: string -> Option<Json>, route: seq<string>, st: State, replies: seq<string>)
    requires Runs(m, TextToSqlKind, decode)
    requires |route| == 3 && route[1] == "fix_query_followup" && route[2] == "finalize_response"
    requires |replies| >= 2 && Finishes(st)
    ensures var a := AnalyzeRequest(st, replies).st;
            var f := Follow(m, route, 1, a, replies[1..]);
            Along(m, route, 1, a, replies[1..]) && f.Stepped? && f.rest == replies[2..]
            && Answers(st, f.st, CleanReply(replies[1]))
  {
    var a := AnalyzeRequest(st, replies).st;
    var rs := replies[1..];
    AnalysisKeeps(st, replies);
    assert rs[0] == replies[1] && rs[1..] == replies[2..];
    AlongFollowup(m, decode, route, 1, a, rs);
  }

  /**
   * A first reply of "fix_query" when the user's message does not mention
   * SQL, or a first reply of "fix_query_followup", goes to the follow-up fix:
   * the run answers with the cleaned second reply, which nothing validates.
   */
  lemma FollowupFixAlong(m: Machine, decode: string -> Option<Json>, route: seq<string>, st: State, replies: seq<string>)
    requires Runs(m, TextToSqlKind, decode)
    requires |route| == 3 && route[0] == "analyze_request" && route[1] == "fix_query_followup" && route[2] == "finalize_response"
    requires |replies| >= 2
    requires var op := OperationType(replies[0]);
             (op == "fix_query" && !MentionsSql(LastUserMessage(st.messages).GetOr(""))) || op == "fix_query_followup"
    requires Finishes(st)
    ensures Along(m, route, 0, st, replies)
    ensures var f := Follow(m, route, 0, st, replies);
            f.Stepped? && f.rest == replies[2..] && Answers(st, f.st, CleanReply(replies[1]))
  {
    FollowupRouted(st, replies);
    FollowupRouteAlong(m, decode, route, st, replies);
  }

  // ---------------------------------------------------------------------------
  // Whole runs.

  lemma NewQueryRouteNodes()
    ensures |NewQueryRoute| == 7 && NewQueryRoute[0] == "analyze_request" && NewQueryRoute[1] == "identify_tables"
    ensures NewQueryRoute[2] == "validate_tables" && NewQueryRoute[3] == "identify_columns"
    ensures NewQueryRoute[4] == "generate_sql" && NewQueryRoute[5] == "validate_sql" && NewQueryRoute[6] == "finalize_response"
  {
  }

  /** A machine running the text-to-SQL flow starts at analysis. */
  lemma EntryIsAnalysis(m: Machine, decode: string -> Option<Json>)
    requires Runs(m, TextToSqlKind, decode)
    ensures m.entry == "analyze_request"
  {
  }

  /** A route followed from the entry to the end completes with what following it produced. */
  lemma RouteCompletes(m: Machine, route: seq<string>, st: State, replies: seq<string>, fuel: nat, used: nat, answer: string)
    requires route != [] && m.entry == route[0] && fuel >= |route| && Along(m, route, 0, st, replies)
    requires var f := Follow(m, route, 0, st, replies);
             f.Stepped? && used <= |replies| && f.rest == replies[used..] && Answers(st, f.st, answer)
    ensures var o := Exec(m, m.entry, st, replies, fuel, []);
            o.Completed? && o.path == route && o.rest == replies[used..] && Answers(st, o.st, answer)
  {
    ExecRoute(m, route, st, replies, fuel);
  }

  /** The text-to-SQL machine starts at analysis. */
  lemma StartsAtAnalysis(decode: string -> Option<Json>)
    ensures MachineOf(TextToSqlKind, decode).entry == "analyze_request"
  {
  }

  /**
   * A run of at least seven steps whose first reply is "new_query" (and whose
   * later replies have the shape the steps read) completes, having run the
   * seven nodes of the new-query route in order and consumed five replies,
   * and answers with the cleaned fourth reply.
   */
  lemma NewQueryExec(m: Machine, decode: string -> Option<Json>, st: State, replies: seq<string>, limit: nat)
    requires Runs(m, TextToSqlKind, decode) && limit >= |NewQueryRoute|
    requires |replies| >= 5 && OperationType(replies[0]) == "new_query"
    requires TableList(Decoded(decode, replies[1], "tables", DefaultTables))
    requires ColumnList(Decoded(decode, replies[2], "table_columns", JArr([])))
    requires Approves(decode, replies[4])
    ensures var o := Exec(m, m.entry, st, replies, limit, []);
            o.Completed? && o.path == NewQueryRoute && o.rest == replies[5..] && Answers(st, o.st, CleanReply(replies[3]))
  {
    EntryIsAnalysis(m, decode);
    NewQueryRouteNodes();
    NewQueryAlong(m, decode, NewQueryRoute, st, replies);
    RouteCompletes(m, NewQueryRoute, st, replies, limit, 5, CleanReply(replies[3]));
  }

  lemma NewQueryRun(st: State, replies: seq<string>, decode: string -> Option<Json>, limit: nat)
    requires limit >= |NewQueryRoute|
    requires |replies| >= 5 && OperationType(replies[0]) == "new_query"
    requires TableList(Decoded(decode, replies[1], "tables", DefaultTables))
    requires ColumnList(Decoded(decode, replies[2], "table_columns", JArr([])))
    requires Approves(decode, replies[4])
    ensures var o := RunOutcome(TextToSqlKind, st, replies, decode, limit);
            o.Completed? && o.path == NewQueryRoute && o.rest == replies[5..] && Answers(st, o.st, CleanReply(replies[3]))
  {
    NewQueryExec(MachineOf(TextToSqlKind, decode), decode, st, replies, limit);
  }

  /**
   * A run of at least four steps whose first reply is "edit_query", from a
   * state that records usable tables and columns, completes along the
   * edit route and answers with the cleaned second reply.
   */
  lemma EditQueryExec(m: Machine, decode: string -> Option<Json>, st: State, replies: seq<string>, limit: nat)
    requires Runs(m, TextToSqlKind, decode) && limit >= |EditQueryRoute|
    requires |replies| >= 3 && OperationType(replies[0]) == "edit_query" && Approves(decode, replies[2])
    requires TableList(Meta(st, "identified_tables", JArr([])))
    requires ColumnList(Meta(st, "identified_columns", JArr([])))
    ensures var o := Exec(m, m.entry, st, replies, limit, []);
            o.Completed? && o.path == EditQueryRoute && o.rest == replies[3..] && Answers(st, o.st, CleanReply(replies[1]))
  {
    EntryIsAnalysis(m, decode);
    EditQueryAlong(m, decode, EditQueryRoute, st, replies);
    RouteCompletes(m, EditQueryRoute, st, replies, limit, 3, CleanReply(replies[1]));
  }

  lemma EditQueryRun(st: State, replies: seq<string>, decode: string -> Option<Json>, limit: nat)
    requires limit >= |EditQueryRoute|
    requires |replies| >= 3 && OperationType(replies[0]) == "edit_query" && Approves(decode, replies[2])
    requires TableList(Meta(st, "identified_tables", JArr([])))
    requires ColumnList(Meta(st, "identified_columns", JArr([])))
    ensures var o := RunOutcome(TextToSqlKind, st, replies, decode, limit);
            o.Completed? && o.path == EditQueryRoute && o.rest == replies[3..] && Answers(st, o.st, CleanReply(replies[1]))
  {
    EditQueryExec(MachineOf(TextToSqlKind, decode), decode, st, replies, limit);
  }

  /**
   * A run of at least three steps whose first reply is "fix_query", for a user
   * message that mentions SQL, completes along the direct-fix route and
   * answers with the query the state already held.
   */
  lemma DirectFixExec(m: Machine, decode: string -> Option<Json>, st: State, replies: seq<string>, limit: nat)
    requires Runs(m, TextToSqlKind, decode) && limit >= |DirectFixRoute|
    requires |replies| >= 2 && OperationType(replies[0]) == "fix_query" && Approves(decode, replies[1])
    requires MentionsSql(LastUserMessage(st.messages).GetOr(""))
    requires Finishes(st) && Meta(st, "generated_sql", JStr("")).JStr?
    ensures var o := Exec(m, m.entry, st, replies, limit, []);
            o.Completed? && o.path == DirectFixRoute && o.rest == replies[2..]
            && Answers(st, o.st, Meta(st, "generated_sql", JStr("")).s)
  {
    EntryIsAnalysis(m, decode);
    DirectFixAlong(m, decode, DirectFixRoute, st, replies);
    RouteCompletes(m, DirectFixRoute, st, replies, limit, 2, Meta(st, "generated_sql", JStr("")).s);
  }

  lemma DirectFixRun(st: State, replies: seq<string>, decode: string -> Option<Json>, limit: nat)
    requires limit >= |DirectFixRoute|
    requires |replies| >= 2 && OperationType(replies[0]) == "fix_query" && Approves(decode, replies[1])
    requires MentionsSql(LastUserMessage(st.messages).GetOr(""))
    requires Finishes(st) && Meta(st, "generated_sql", JStr("")).JStr?
    ensures var o := RunOutcome(TextToSqlKind, st, replies, decode, limit);
            o.Completed? && o.path == DirectFixRoute && o.rest == replies[2..]
            && Answers(st, o.st, Meta(st, "generated_sql", JStr("")).s)
  {
    DirectFixExec(MachineOf(TextToSqlKind, decode), decode, st, replies, limit);
  }

  /**
   * A run of at least three steps whose first reply asks for a follow-up fix
   * completes along the follow-up route and answers with the cleaned second
   * reply.
   */
  lemma FollowupFixExec(m: Machine, decode: string -> Option<Json>, st: State, replies: seq<string>, limit: nat)
    requires Runs(m, TextToSqlKind, decode) && limit >= |FollowupFixRoute|
    requires |replies| >= 2
    requires var op := OperationType(replies[0]);
             (op == "fix_query" && !MentionsSql(LastUserMessage(st.messages).GetOr(""))) || op == "fix_query_followup"
    requires Finishes(st)
    ensures var o := Exec(m, m.entry, st, replies, limit, []);
            o.Completed? && o.path == FollowupFixRoute && o.rest == replies[2..] && Answers(st, o.st, CleanReply(replies[1]))
  {
    EntryIsAnalysis(m, decode);
    FollowupFixAlong(m, decode, FollowupFixRoute, st, replies);
    RouteCompletes(m, FollowupFixRoute, st, replies, limit, 2, CleanReply(replies[1]));
  }

  lemma FollowupFixRun(st: State, replies: seq<string>, decode: string -> Option<Json>, limit: nat)
    requires limit >= |FollowupFixRoute|
    requires |replies| >= 2
    requires var op := OperationType(replies[0]);
             (op == "fix_query" && !MentionsSql(LastUserMessage(st.messages).GetOr(""))) || op == "fix_query_followup"
    requires Finishes(st)
    ensures var o := RunOutcome(TextToSqlKind, st, replies, decode, limit);
            o.Completed? && o.path == FollowupFixRoute && o.rest == replies[2..] && Answers(st, o.st, CleanReply(replies[1]))
  {
    FollowupFixExec(MachineOf(TextToSqlKind, decode), decode, st, replies, limit);
  }

  // ---------------------------------------------------------------------------
  // The retry loop between generation and validation.

  /** A validator reply that rejects sends the run back to generation. */
  lemma RejectRuns(m: Machine, decode: string -> Option<Json>, st: State, replies: seq<string>)
    requires Runs(m, TextToSqlKind, decode) && replies != [] && !Approves(decode, replies[0])
    ensures ValidateSql(st, replies, decode).Stepped?
    ensures m.step("validate_sql", st, replies) == Stepped(ValidateSql(st, replies, decode).st, replies[1..])
    ensures m.next("validate_sql", ValidateSql(st, replies, decode).st) == Ok(Node("generate_sql"))
  {
    var v := ValidateSql(st, replies, decode).st;
    assert At("validate_sql", st, replies) && At("validate_sql", v, replies);
    NodeNamesDiffer();
    SqlGate(st, replies, decode);
    SqlValidationEdge();
    NextBranch(TextToSqlKind, "validate_sql", v, "route_after_sql_validation", SqlValidationTable, "rejected");
  }

  /** The step at `at` consumes one reply, keeps the state ready and moves to `to`. */
  ghost predicate HandsTo(m: Machine, at: string, st: State, replies: seq<string>, to: string, ready: State -> bool)
    requires replies != []
  {
    m.step(at, st, replies).Stepped? && m.step(at, st, replies).rest == replies[1..]
    && ready(m.step(at, st, replies).st) && m.next(at, m.step(at, st, replies).st) == Ok(Node(to))
  }

  /**
   * What the retry loop needs of a machine, for states `ready` for generation:
   * generation hands over to validation, a rejecting validation hands back,
   * and both raise once the replies are used up.
   */
  ghost predicate RetryLoop(m: Machine, decode: string -> Option<Json>, ready: State -> bool) {
    && (forall st, replies | ready(st) && replies != [] :: HandsTo(m, "generate_sql", st, replies, "validate_sql", ready))
    && (forall st, replies | ready(st) && replies != [] && !Approves(decode, replies[0]) ::
          HandsTo(m, "validate_sql", st, replies, "generate_sql", ready))
    && (forall st | ready(st) :: m.step("generate_sql", st, []) == Threw(LlmFailure) && m.step("validate_sql", st, []) == Threw(LlmFailure))
  }

  /** A state generation can build its prompt from. */
  predicate CanGenerate(st: State) {
    GenerationContext(st).Ok?
  }

  /** The text-to-SQL machine has the retry loop. */
  lemma RunsRetry(m: Machine, decode: string -> Option<Json>)
    requires Runs(m, TextToSqlKind, decode)
    ensures RetryLoop(m, decode, CanGenerate)
  {
    forall st, replies | CanGenerate(st) && replies != []
      ensures HandsTo(m, "generate_sql", st, replies, "validate_sql", CanGenerate)
    {
      GenerateHandsOver(m, decode, st, replies);
    }
    forall st, replies | CanGenerate(st) && replies != [] && !Approves(decode, replies[0])
      ensures HandsTo(m, "validate_sql", st, replies, "generate_sql", CanGenerate)
    {
      RejectHandsBack(m, decode, st, replies);
    }
    forall st | CanGenerate(st)
      ensures m.step("generate_sql", st, []) == Threw(LlmFailure) && m.step("validate_sql", st, []) == Threw(LlmFailure)
    {
      OutOfReplies(m, decode, st);
    }
  }

  /** Generation, when it can build its prompt and has a reply, hands over to validation. */
  lemma GenerateHandsOver(m: Machine, decode: string -> Option<Json>, st: State, replies: seq<string>)
    requires Runs(m, TextToSqlKind, decode) && replies != [] && CanGenerate(st)
    ensures HandsTo(m, "generate_sql", st, replies, "validate_sql", CanGenerate)
  {
    GenerateStaysReady(st, replies);
    GenerateRuns(m, decode, st, replies);
  }

  /** Generation from a state it can build its prompt from leaves a state it can build it from again. */
  lemma GenerateStaysReady(st: State, replies: seq<string>)
    requires replies != [] && CanGenerate(st)
    ensures GenerateSql(st, replies).Stepped? && GenerateSql(st, replies).rest == replies[1..]
    ensures CanGenerate(GenerateSql(st, replies).st)
  {
    GenerateKeeps(st, replies);
    SameContext(st, GenerateSql(st, replies).st);
  }

  /** The prompt context depends only on the recorded tables and columns. */
  lemma SameContext(a: State, b: State)
    requires Meta(a, "identified_tables", JArr([])) == Meta(b, "identified_tables", JArr([]))
    requires Meta(a, "identified_columns", JArr([])) == Meta(b, "identified_columns", JArr([]))
    ensures GenerationContext(a) == GenerationContext(b)
  {
  }

  /** So does a validation. */
  lemma ValidateStaysReady(st: State, replies: seq<string>, decode: string -> Option<Json>)
    requires replies != [] && CanGenerate(st)
    ensures ValidateSql(st, replies, decode).Stepped? && CanGenerate(ValidateSql(st, replies, decode).st)
  {
    ValidateKeeps(st, replies, decode);
  }

  /** Validation whose reply rejects hands back to generation. */
  lemma RejectHandsBack(m: Machine, decode: string -> Option<Json>, st: State, replies: seq<string>)
    requires Runs(m, TextToSqlKind, decode) && replies != [] && !Approves(decode, replies[0]) && CanGenerate(st)
    ensures HandsTo(m, "validate_sql", st, replies, "generate_sql", CanGenerate)
  {
    ValidateStaysReady(st, replies, decode);
    RejectRuns(m, decode, st, replies);
  }

  /** Generation and validation raise when the replies are used up. */
  lemma OutOfReplies(m: Machine, decode: string -> Option<Json>, st: State)
    requires Runs(m, TextToSqlKind, decode) && GenerationContext(st).Ok?
    ensures m.step("generate_sql", st, []) == Threw(LlmFailure)
    ensures m.step("validate_sql", st, []) == Threw(LlmFailure)
  {
    assert At("generate_sql", st, []) && At("validate_sql", st, []);
    NodeNamesDiffer();
  }

  /** One step along the loop, for any machine with it. */
  lemma LoopStep(m: Machine, decode: string -> Option<Json>, ready: State -> bool, at: string, to: string,
                 st: State, replies: seq<string>, fuel: nat, path: seq<string>)
    returns (next: State)
    requires fuel >= 1 && replies != [] && HandsTo(m, at, st, replies, to, ready)
    ensures ready(next)
    ensures Exec(m, at, st, replies, fuel, path) == Exec(m, to, next, replies[1..], fuel - 1, path + [at])
  {
    next := m.step(at, st, replies).st;
    ExecStep(m, at, st, replies, fuel, path);
  }

  /** What ends a run from generation that does not get round the loop once more. */
  lemma RetryStops(m: Machine, decode: string -> Option<Json>, ready: State -> bool, st: State, replies: seq<string>,
                   fuel: nat, path: seq<string>)
    requires RetryLoop(m, decode, ready) && ready(st)
    requires fuel < 2 || |replies| < 2
    ensures var o := Exec(m, "generate_sql", st, replies, fuel, path);
            o.Aborted? && (o.e == RecursionLimit || o.e == LlmFailure)
  {
    if fuel == 0 {
      assert Exec(m, "generate_sql", st, replies, fuel, path) == Aborted(RecursionLimit, replies, path);
    } else if replies == [] {
      ExecStep(m, "generate_sql", st, replies, fuel, path);
    } else {
      assert HandsTo(m, "generate_sql", st, replies, "validate_sql", ready);
      var g := LoopStep(m, decode, ready, "generate_sql", "validate_sql", st, replies, fuel, path);
      if fuel == 1 {
        assert Exec(m, "validate_sql", g, replies[1..], 0, path + ["generate_sql"]).e == RecursionLimit;
      } else {
        assert replies[1..] == [];
        ExecStep(m, "validate_sql", g, [], fuel - 1, path + ["generate_sql"]);
      }
    }
  }

  /** Every second reply, counted from the first, rejects: what the validator says in each round of the loop. */
  predicate RejectsAll(decode: string -> Option<Json>, replies: seq<string>) {
    forall j :: 0 <= j < |replies| && j % 2 == 1 ==> !Approves(decode, replies[j])
  }

  /**
   * The loop has no counter: while the validator rejects, a run from
   * generation never completes; it ends when the step budget or the replies
   * run out.
   */
  lemma RejectedNeverCompletes(m: Machine, decode: string -> Option<Json>, st: State, replies: seq<string>,
                               fuel: nat, path: seq<string>)
    requires Runs(m, TextToSqlKind, decode) && GenerationContext(st).Ok? && RejectsAll(decode, replies)
    ensures var o := Exec(m, "generate_sql", st, replies, fuel, path);
            o.Aborted? && (o.e == RecursionLimit || o.e == LlmFailure)
  {
    RunsRetry(m, decode);
    LoopNeverCompletes(m, decode, CanGenerate, st, replies, fuel, path);
  }

  /** `RejectedNeverCompletes` for any machine with the retry loop, by induction on the step budget. */
  lemma {:induction false} LoopNeverCompletes(m: Machine, decode: string -> Option<Json>, ready: State -> bool,
                                              st: State, replies: seq<string>, fuel: nat, path: seq<string>)
    requires RetryLoop(m, decode, ready) && ready(st) && RejectsAll(decode, replies)
    ensures var o := Exec(m, "generate_sql", st, replies, fuel, path);
            o.Aborted? && (o.e == RecursionLimit || o.e == LlmFailure)
    decreases fuel
  {
    if fuel < 2 || |replies| < 2 {
      RetryStops(m, decode, ready, st, replies, fuel, path);
    } else {
      RejectsAllShift(decode, replies);
      var v := OneRejectedRound(m, decode, ready, st, replies, fuel, path);
      LoopNeverCompletes(m, decode, ready, v, replies[2..], fuel - 2, path + ["generate_sql", "validate_sql"]);
    }
  }

  /** One round of the loop: generation, then a validation that rejects. */
  lemma OneRejectedRound(m: Machine, decode: string -> Option<Json>, ready: State -> bool,
                         st: State, replies: seq<string>, fuel: nat, path: seq<string>)
    returns (v: State)
    requires RetryLoop(m, decode, ready) && ready(st)
    requires fuel >= 2 && |replies| >= 2 && !Approves(decode, replies[1])
    ensures ready(v)
    ensures Exec(m, "generate_sql", st, replies, fuel, path)
            == Exec(m, "generate_sql", v, replies[2..], fuel - 2, path + ["generate_sql", "validate_sql"])
  {
    var rs := replies[1..];
    assert rs[0] == replies[1] && rs[1..] == replies[2..];
    LoopGenerates(m, decode, ready, st, replies);
    var g := LoopStep(m, decode, ready, "generate_sql", "validate_sql", st, replies, fuel, path);
    LoopRejects(m, decode, ready, g, rs);
    v := LoopStep(m, decode, ready, "validate_sql", "generate_sql", g, rs, fuel - 1, path + ["generate_sql"]);
    ConcatPair(path, "generate_sql", "validate_sql");
  }

  lemma ConcatPair(path: seq<string>, a: string, b: string)
    ensures path + [a] + [b] == path + [a, b]
  {
  }

  lemma LoopGenerates(m: Machine, decode: string -> Option<Json>, ready: State -> bool, st: State, replies: seq<string>)
    requires RetryLoop(m, decode, ready) && ready(st) && replies != []
    ensures HandsTo(m, "generate_sql", st, replies, "validate_sql", ready)
  {
  }

  lemma LoopRejects(m: Machine, decode: string -> Option<Json>, ready: State -> bool, st: State, replies: seq<string>)
    requires RetryLoop(m, decode, ready) && ready(st) && replies != [] && !Approves(decode, replies[0])
    ensures HandsTo(m, "validate_sql", st, replies, "generate_sql", ready)
  {
  }

  /** The replies left after one round still reject at every second place. */
  lemma RejectsAllShift(decode: string -> Option<Json>, replies: seq<string>)
    requires |replies| >= 2 && RejectsAll(decode, replies)
    ensures !Approves(decode, replies[1]) && RejectsAll(decode, replies[2..])
  {
    forall j | 0 <= j < |replies[2..]| && j % 2 == 1 ensures !Approves(decode, replies[2..][j]) {
      assert replies[2..][j] == replies[j + 2];
    }
  }

  // ---------------------------------------------------------------------------
  // The flow as written. Its steps subscript the state (`state["metadata"]`),
  // while the graph hands them a FlowState object; the model above runs the
  // steps as reading and writing the state's fields.

  /** The text-to-SQL flow as written: the same graph, with an analysis step that raises. */
  function MachineAsWritten(decode: string -> Option<Json>): Machine {
    Machine(FlowGraph().entry, (n, st, rs) => StepAsWritten(n, st, rs, decode), (n, st) => Next(TextToSqlKind, n, st))
  }

  /** What `run` returns for the flow as written. */
  function RunResultAsWritten(st: State, replies: seq<string>, decode: string -> Option<Json>, limit: nat): State {
    var m := MachineAsWritten(decode);
    Returned(st, Exec(m, m.entry, st, replies, limit, []))
  }

  /**
   * As written, no text-to-SQL run completes: its entry node raises, so `run`
   * returns the state it was given with `error` set, no message added and
   * the metadata untouched.
   */
  lemma AsWrittenRunFails(st: State, replies: seq<string>, decode: string -> Option<Json>, limit: nat)
    ensures var r := RunResultAsWritten(st, replies, decode, limit);
            r.error.Some? && r.messages == st.messages && r.metadata == st.metadata && r.sessionId == st.sessionId
    ensures limit > 0 && replies != [] ==>
              RunResultAsWritten(st, replies, decode, limit) == st.(error := Some(Message(NotSubscriptable)))
  {
    var m := MachineAsWritten(decode);
    if limit > 0 {
      assert m.step(m.entry, st, replies) == AnalyzeRequestAsWritten(st, replies);
    }
  }

  /**
   * The discrepancy on every new-query script the corrected flow answers:
   * the corrected run adds the answer to the messages, the run as written
   * adds nothing and reports TypeError.
   */
  lemma AsWrittenNeverAnswers(st: State, replies: seq<string>, decode: string -> Option<Json>, limit: nat)
    requires limit >= |NewQueryRoute|
    requires |replies| >= 5 && OperationType(replies[0]) == "new_query"
    requires TableList(Decoded(decode, replies[1], "tables", DefaultTables))
    requires ColumnList(Decoded(decode, replies[2], "table_columns", JArr([])))
    requires Approves(decode, replies[4])
    ensures |RunResult(TextToSqlKind, st, replies, decode, limit).messages| == |st.messages| + 1
    ensures RunResultAsWritten(st, replies, decode, limit) == st.(error := Some(Message(NotSubscriptable)))
  {
    NewQueryRun(st, replies, decode, limit);
    AsWrittenRunFails(st, replies, decode, limit);
  }
}
