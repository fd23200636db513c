/**
 * The text-to-SQL flow (app/flows/text_to_sql.py): its graph declaration, its
 * three routers, and each of its eight steps as a function from the state
 * value and the oracle script to a StepResult. TextToSqlSteps holds the same
 * steps as methods that update a FlowState in place.
 *
 * The steps read and write `metadata` as an ordinary dictionary; values the
 * language model produced are arbitrary Json, so every subscript and join the
 * source performs on them can raise, and does so here as an Exn.
 */
module TextToSql {
  import opened Wrappers
  import opened Faults
  import opened Json
  import opened FlowBase
  import opened Graph
  import Text
  import Oracle
  import SchemaDocument
  import SqlFence

  // ---------------------------------------------------------------------------
  // The graph

  const Nodes: seq<string> := [
    "analyze_request", "identify_tables", "validate_tables", "identify_columns",
    "generate_sql", "validate_sql", "finalize_response", "fix_query_followup"]

  const AnalysisTable: map<string, Target> := map[
    "new_query" := Node("identify_tables"),
    "edit_query" := Node("generate_sql"),
    "fix_query" := Node("validate_sql"),
    "fix_query_followup" := Node("fix_query_followup")]

  const TableValidationTable: map<string, Target> := map[
    "approved" := Node("identify_columns"),
    "rejected" := Node("identify_tables")]

  const SqlValidationTable: map<string, Target> := map[
    "approved" := Node("finalize_response"),
    "rejected" := Node("generate_sql")]

  /** `_build_graph` */
  function FlowGraph(): (g: Graph)
    ensures g.entry == "analyze_request" && g.nodes == Nodes
  {
    Graph(Nodes, "analyze_request", map[
      "analyze_request" := Branch("route_after_analysis", AnalysisTable),
      "validate_tables" := Branch("route_after_table_validation", TableValidationTable),
      "validate_sql" := Branch("route_after_sql_validation", SqlValidationTable),
      "identify_tables" := Fixed(Node("validate_tables")),
      "identify_columns" := Fixed(Node("generate_sql")),
      "generate_sql" := Fixed(Node("validate_sql")),
      "finalize_response" := Fixed(End),
      "fix_query_followup" := Fixed(Node("finalize_response"))])
  }

  /** Every declared edge starts at a node and ends at a node or END. */
  lemma FlowGraphWellFormed()
    ensures WellFormed(FlowGraph())
  {
    EdgesExactlyAtNodes();
    forall n | n in FlowGraph().edges ensures EdgeTargetsIn(FlowGraph(), FlowGraph().edges[n]) {
      EdgeTargetsDeclared(n);
    }
  }

  /** Only finalisation leads to END. */
  lemma FlowGraphEnds()
    ensures EndingNodes(FlowGraph()) == {"finalize_response"}
  {
    var g := FlowGraph();
    forall n ensures n in EndingNodes(g) <==> n == "finalize_response" {
      if n in g.edges {
        OnlyFinalizeEnds(n);
      }
    }
  }

  lemma EdgesExactlyAtNodes()
    ensures forall n :: n in FlowGraph().edges <==> n in FlowGraph().nodes
  {
  }

  lemma EdgeTargetsDeclared(n: string)
    requires n in FlowGraph().edges
    ensures EdgeTargetsIn(FlowGraph(), FlowGraph().edges[n])
  {
  }

  lemma OnlyFinalizeEnds(n: string)
    requires n in FlowGraph().edges
    ensures LeadsToEnd(FlowGraph().edges[n]) <==> n == "finalize_response"
  {
  }

  // ---------------------------------------------------------------------------
  // Routers

  /** `_route_after_analysis` */
  function RouteAfterAnalysis(st: State): Json {
    var op := Meta(st, "operation_type", JStr("new_query"));
    if op == JStr("fix_query") then
      if Meta(st, "fix_query_type", JNull) == JStr("followup") then JStr("fix_query_followup") else JStr("fix_query")
    else op
  }

  /**
   * The analysis route is a key of its decision table exactly when the stored
   * operation type is one of the four keys (a reply of "fix_query_followup"
   * routes as well as the three documented ones).
   */
  lemma AnalysisRouteIsKey(st: State)
    ensures (RouteAfterAnalysis(st).JStr? && RouteAfterAnalysis(st).s in AnalysisTable)
        <==> Meta(st, "operation_type", JStr("new_query")) in
               {JStr("new_query"), JStr("edit_query"), JStr("fix_query"), JStr("fix_query_followup")}
  {
  }

  /** `_route_after_table_validation` */
  function RouteAfterTableValidation(st: State): string {
    if Truthy(Meta(st, "table_validation_approved", JBool(true))) then "approved" else "rejected"
  }

  /** `_route_after_sql_validation`; a `sql_validation` that is not a dict raises on `.get`. */
  function RouteAfterSqlValidation(st: State): (r: Result<string, Exn>)
    ensures r.Ok? ==> r.value in SqlValidationTable
    ensures !Truthy(Meta(st, "sql_validation_approved", JBool(true))) ==> r == Ok("rejected")
  {
    var validation := Meta(st, "sql_validation", JObj([]));
    var approved := Meta(st, "sql_validation_approved", JBool(true));
    if !Truthy(approved) then Ok("rejected")
    else
      var isValid :- DictGet(validation, "is_valid", JBool(true));
      Ok(if Truthy(isValid) then "approved" else "rejected")
  }

  // ---------------------------------------------------------------------------
  // analyze_request

  /** The alternatives of the keyword pattern, searched case-insensitively. */
  const SqlKeywords: seq<string> := [
    "select ", "update ", "insert ", "delete ", "from ", "where ", "join ",
    "create table", "drop table", "alter table"]

  /** The keyword heuristic: some alternative occurs in the message, ignoring case. */
  predicate MentionsSql(msg: string) {
    exists k :: 0 <= k < |SqlKeywords| && Text.Contains(Text.Lower(msg), SqlKeywords[k])
  }

  /** The normalised reply: trimmed and lower-cased. */
  function OperationType(reply: string): string {
    Text.Lower(Text.Strip(reply))
  }

  /** The `fix_query_type` recorded for an operation type and the user's message. */
  function FixQueryType(op: string, user: string): (r: Json)
    ensures r != JNull <==> op == "fix_query"
    ensures op == "fix_query" ==> (r == JStr("direct") <==> MentionsSql(user))
    ensures op == "fix_query" ==> (r == JStr("followup") <==> !MentionsSql(user))
  {
    if op == "fix_query" then JStr(if MentionsSql(user) then "direct" else "followup") else JNull
  }

  /** `_analyze_request` */
  function AnalyzeRequest(st: State, replies: seq<string>): StepResult {
    match Oracle.Call(replies)
    case Err(e) => Threw(e)
    case Ok((reply, rest)) =>
      var user := LastUserMessage(st.messages).GetOr("");
      var op := OperationType(reply);
      var md := st.metadata["fix_query_type" := FixQueryType(op, user)]["operation_type" := JStr(op)];
      Stepped(st.(metadata := md, currentStep := "analyze_request"), rest)
  }

  /**
   * Analysis followed by its router: every normalised reply other than
   * "fix_query" is the route itself; "fix_query" becomes "fix_query_followup"
   * exactly when the user's message shows no SQL keyword.
   */
  lemma AnalyzeThenRoute(st: State, replies: seq<string>)
    requires replies != []
    ensures AnalyzeRequest(st, replies).Stepped?
    ensures var op := OperationType(replies[0]);
            var user := LastUserMessage(st.messages).GetOr("");
            RouteAfterAnalysis(AnalyzeRequest(st, replies).st)
              == (if op != "fix_query" then JStr(op)
                  else if MentionsSql(user) then JStr("fix_query")
                  else JStr("fix_query_followup"))
  {
  }

  /** What `str()` gives for subscripting the FlowState object a node receives. */
  const NotSubscriptable: Exn := TypeError("'FlowState' object is not subscriptable")

  /**
   * `_analyze_request` as written: the graph, declared over the FlowState
   * model, hands the node a FlowState object, and the first metadata write
   * after the model call subscripts that object, which raises TypeError.
   * (The steps above read and write the state's fields, as general_qa.py does.)
   */
  function AnalyzeRequestAsWritten(st: State, replies: seq<string>): (r: StepResult)
    ensures r.Threw?
    ensures r.e == LlmFailure <==> replies == []
  {
    match Oracle.Call(replies)
    case Err(e) => Threw(e)
    case Ok(_) => Threw(NotSubscriptable)
  }

  /** The steps as written: analysis raises, every other node is as above. */
  function StepAsWritten(node: string, st: State, replies: seq<string>, decode: string -> Option<Json>): StepResult {
    if node == "analyze_request" then AnalyzeRequestAsWritten(st, replies) else Step(node, st, replies, decode)
  }

  // ---------------------------------------------------------------------------
  // identify_tables, validate_tables, identify_columns

  /** The table list used when the reply does not parse. */
  const DefaultTables: Json := JArr([JObj([Member("name", JStr("users")), Member("reasoning", JStr("Default table"))])])

  /**
   * `json.loads(reply)[key]`, or `fallback` when the reply does not decode or
   * the decoded value has no such key (the bare `except` catches both).
   */
  function Decoded(decode: string -> Option<Json>, reply: string, key: string, fallback: Json): (r: Json)
    ensures decode(reply).Some? && Subscript(decode(reply).value, key).Ok? ==> r == Subscript(decode(reply).value, key).value
    ensures decode(reply).None? || Subscript(decode(reply).value, key).Err? ==> r == fallback
  {
    match decode(reply)
    case None => fallback
    case Some(j) =>
      match Subscript(j, key)
      case Ok(v) => v
      case Err(_) => fallback
  }

  /** `_identify_tables` */
  function IdentifyTables(st: State, replies: seq<string>, decode: string -> Option<Json>): StepResult {
    match Oracle.Call(replies)
    case Err(e) => Threw(e)
    case Ok((reply, rest)) =>
      Stepped(Store(st, "identified_tables", Decoded(decode, reply, "tables", DefaultTables)).(currentStep := "identify_tables"), rest)
  }

  /** An unparseable table reply leaves exactly one table, "users", with reasoning "Default table". */
  lemma IdentifyTablesFallback(st: State, replies: seq<string>, decode: string -> Option<Json>)
    requires replies != [] && decode(replies[0]).None?
    ensures IdentifyTables(st, replies, decode).Stepped?
    ensures var t := Meta(IdentifyTables(st, replies, decode).st, "identified_tables", JNull);
            t.JArr? && |t.items| == 1
            && Subscript(t.items[0], "name") == Ok(JStr("users"))
            && Subscript(t.items[0], "reasoning") == Ok(JStr("Default table"))
  {
  }

  /** The validation message shown for the table selection, line for line as the source lays it out. */
  function ValidationMessage(user: string, names: string, reasons: string): string {
    var ind := "        ";
    "\n" + ind + "I've identified the following tables for your request: \"" + user + "\"\n"
    + ind + "\n"
    + ind + "Tables: " + names + "\n"
    + ind + "\n"
    + ind + "Reasoning:\n"
    + ind + reasons + "\n"
    + ind + "\n"
    + ind + "Are these tables correct for your query? Please respond with 'yes' or 'no'.\n"
    + ind
  }

  /** The reasoning lines "- name: reasoning", one per table. */
  function ReasonLines(names: seq<Json>, reasons: seq<Json>): (ls: seq<string>)
    requires |names| == |reasons|
    ensures |ls| == |names|
    ensures forall i :: 0 <= i < |ls| ==> ls[i] == "- " + Str(names[i]) + ": " + Str(reasons[i])
  {
    seq(|names|, i requires 0 <= i < |names| => "- " + Str(names[i]) + ": " + Str(reasons[i]))
  }

  /**
   * The table names, their reasonings and the names joined with ", ": the
   * comprehensions raise on a table without either key, the join on a name
   * that is not a string.
   */
  function TableSelection(tables: Json): (r: Result<(seq<Json>, seq<Json>, string), Exn>)
    ensures r.Ok? <==> Pluck(tables, "name").Ok? && Pluck(tables, "reasoning").Ok?
                       && JoinJson(JArr(Pluck(tables, "name").value), ", ").Ok?
    ensures r.Ok? ==> |r.value.0| == |r.value.1|
  {
    var names :- Pluck(tables, "name");
    var reasons :- Pluck(tables, "reasoning");
    var joined :- JoinJson(JArr(names), ", ");
    Ok((names, reasons, joined))
  }

  /**
   * `_validate_tables`: every table needs a name and a reasoning, and the
   * names must be strings (for `', '.join`); the approval is set to true.
   */
  function ValidateTables(st: State): (r: Result<State, Exn>)
    ensures r.Ok? <==> TableSelection(Meta(st, "identified_tables", JArr([]))).Ok?
    ensures r.Ok? ==> Meta(r.value, "table_validation_approved", JNull) == JBool(true)
    ensures r.Ok? ==> r.value.messages == st.messages && r.value.currentStep == "validate_tables"
  {
    var tables := Meta(st, "identified_tables", JArr([]));
    var (names, reasons, joined) :- TableSelection(tables);
    var message := ValidationMessage(UserText(st.messages), joined, Text.Join(ReasonLines(names, reasons), "\n"));
    var request := JObj([Member("type", JStr("table_selection")), Member("message", JStr(message)), Member("data", tables)]);
    Ok(Store(Store(st, "validation_request", request), "table_validation_approved", JBool(true)).(currentStep := "validate_tables"))
  }

  /** Table validation that succeeds always routes on to column identification. */
  lemma TableGateAlwaysApproves(st: State)
    requires ValidateTables(st).Ok?
    ensures RouteAfterTableValidation(ValidateTables(st).value) == "approved"
    ensures TableValidationTable[RouteAfterTableValidation(ValidateTables(st).value)] == Node("identify_columns")
  {
    ApprovalRoutes(ValidateTables(st).value);
  }

  /** A state whose approval flag is stored as true routes as approved. */
  lemma ApprovalRoutes(v: State)
    requires Meta(v, "table_validation_approved", JNull) == JBool(true)
    ensures RouteAfterTableValidation(v) == "approved"
  {
  }

  /** Whether `x` occurs among `xs` (Python's `in` on a list). */
  predicate InList(x: Json, xs: seq<Json>) {
    exists i :: 0 <= i < |xs| && xs[i] == x
  }

  /**
   * The `table_columns` dictionary built from a catalogue: each catalogue table
   * whose name is among the identified names, with its columns.
   */
  function ColumnsOffered(cat: seq<SchemaDocument.PlaceholderTable>, names: seq<Json>): (m: map<string, seq<string>>)
    ensures forall n :: n in m <==> exists i :: 0 <= i < |cat| && cat[i].name == n && InList(JStr(n), names)
    ensures forall n :: n in m ==> exists i :: 0 <= i < |cat| && cat[i].name == n && m[n] == cat[i].columns
    decreases |cat|
  {
    if |cat| == 0 then map[]
    else
      var m := ColumnsOffered(cat[..|cat| - 1], names);
      var t := cat[|cat| - 1];
      assert forall i :: 0 <= i < |cat| - 1 ==> cat[..|cat| - 1][i] == cat[i];
      if InList(JStr(t.name), names) then m[t.name := t.columns] else m
  }

  /**
   * The columns offered to the model: the placeholder tables named in the
   * identified list; the comprehension over the list raises when an entry has no name.
   */
  function OfferedColumns(identified: Json): (r: Result<map<string, seq<string>>, Exn>)
    ensures r.Ok? <==> Pluck(identified, "name").Ok?
  {
    var names :- Pluck(identified, "name");
    Ok(ColumnsOffered(SchemaDocument.TableInfo(), names))
  }

  /** `_identify_columns` */
  function IdentifyColumns(st: State, replies: seq<string>, decode: string -> Option<Json>): StepResult {
    match OfferedColumns(Meta(st, "identified_tables", JArr([])))
    case Err(e) => Threw(e)
    case Ok(_) =>
      match Oracle.Call(replies)
      case Err(e) => Threw(e)
      case Ok((reply, rest)) =>
        Stepped(Store(st, "identified_columns", Decoded(decode, reply, "table_columns", JArr([]))).(currentStep := "identify_columns"), rest)
  }

  /** An unparseable column reply leaves an empty column list. */
  lemma IdentifyColumnsFallback(st: State, replies: seq<string>, decode: string -> Option<Json>)
    requires replies != [] && decode(replies[0]).None?
    requires OfferedColumns(Meta(st, "identified_tables", JArr([]))).Ok?
    ensures IdentifyColumns(st, replies, decode).Stepped?
    ensures Meta(IdentifyColumns(st, replies, decode).st, "identified_columns", JNull) == JArr([])
  {
  }

  // ---------------------------------------------------------------------------
  // generate_sql, validate_sql, fix_query_followup

  /** One line of the table context: `Table '<name>': <reasoning>`. */
  function TableContextLine(t: Json): Result<string, Exn> {
    var name :- Subscript(t, "name");
    var reasoning :- Subscript(t, "reasoning");
    Ok("Table '" + Str(name) + "': " + Str(reasoning) + "\n")
  }

  /** One line of the column context: `Table '<table>' columns: <joined> - <reasoning>`. */
  function ColumnContextLine(c: Json): Result<string, Exn> {
    var table :- Subscript(c, "table");
    var columns :- Subscript(c, "columns");
    var joined :- JoinJson(columns, ", ");
    var reasoning :- Subscript(c, "reasoning");
    Ok("Table '" + Str(table) + "' columns: " + joined + " - " + Str(reasoning) + "\n")
  }

  /** The table and column context lines of the generation prompt, or what raised while building them. */
  function GenerationContext(st: State): Result<(seq<string>, seq<string>), Exn> {
    var tables :- Iterate(Meta(st, "identified_tables", JArr([])));
    var tableLines :- MapItems(tables, TableContextLine);
    var columns :- Iterate(Meta(st, "identified_columns", JArr([])));
    var columnLines :- MapItems(columns, ColumnContextLine);
    Ok((tableLines, columnLines))
  }

  /** The fence cleanup of a reply, after `strip()`. */
  function CleanReply(reply: string): string {
    SqlFence.CleanSql(Text.Strip(reply))
  }

  /** `_generate_sql` */
  function GenerateSql(st: State, replies: seq<string>): StepResult {
    match GenerationContext(st)
    case Err(e) => Threw(e)
    case Ok(_) =>
      match Oracle.Call(replies)
      case Err(e) => Threw(e)
      case Ok((reply, rest)) =>
        Stepped(Store(st, "generated_sql", JStr(CleanReply(reply))).(currentStep := "generate_sql"), rest)
  }

  /** The verdict stored from the validator's reply: is_valid, errors, suggestions. */
  function Verdict(d: Option<Json>): (v: (Json, Json, Json))
    ensures !(d.Some? && d.value.JObj?) ==> v == (JBool(true), JArr([]), JArr([]))
    ensures d.Some? && d.value.JObj? ==> v.0 == Get(d.value.members, "is_valid").GetOr(JBool(false))
  {
    match d
    case Some(JObj(ms)) =>
      (Get(ms, "is_valid").GetOr(JBool(false)), Get(ms, "errors").GetOr(JArr([])), Get(ms, "suggestions").GetOr(JArr([])))
    case _ => (JBool(true), JArr([]), JArr([]))
  }

  /** `_validate_sql`; the approval flag is always set to true. */
  function ValidateSql(st: State, replies: seq<string>, decode: string -> Option<Json>): StepResult {
    match Oracle.Call(replies)
    case Err(e) => Threw(e)
    case Ok((reply, rest)) =>
      var v := Verdict(decode(reply));
      var validation := JObj([Member("is_valid", v.0), Member("errors", v.1), Member("suggestions", v.2)]);
      Stepped(Store(Store(st, "sql_validation", validation), "sql_validation_approved", JBool(true)).(currentStep := "validate_sql"), rest)
  }

  /**
   * The SQL gate: after validation the route is "approved" exactly when the
   * reply is not a JSON object or its `is_valid` (default false) is truthy.
   */
  lemma SqlGate(st: State, replies: seq<string>, decode: string -> Option<Json>)
    requires replies != []
    ensures ValidateSql(st, replies, decode).Stepped?
    ensures var d := decode(replies[0]);
            RouteAfterSqlValidation(ValidateSql(st, replies, decode).st)
              == Ok(if !(d.Some? && d.value.JObj?) || Truthy(Get(d.value.members, "is_valid").GetOr(JBool(false)))
                    then "approved" else "rejected")
  {
    var v := Verdict(decode(replies[0]));
    var s := ValidateSql(st, replies, decode).st;
    assert Get([Member("is_valid", v.0), Member("errors", v.1), Member("suggestions", v.2)], "is_valid") == Some(v.0);
  }

  /** Whether a message is one the follow-up fix takes its SQL from. */
  predicate MentionsSelect(m: Msg) {
    Text.Contains(Text.Lower(m.content), "select")
  }

  /** The index of the newest message mentioning "select" (in any case), or -1. */
  function LatestSelect(msgs: seq<Msg>): (k: int)
    ensures -1 <= k < |msgs|
    ensures k >= 0 ==> MentionsSelect(msgs[k])
    ensures forall j :: 0 <= j < |msgs| && k < j ==> !MentionsSelect(msgs[j])
    decreases |msgs|
  {
    if |msgs| == 0 then -1
    else if MentionsSelect(msgs[|msgs| - 1]) then |msgs| - 1
    else
      assert forall i :: 0 <= i < |msgs| - 1 ==> msgs[..|msgs| - 1][i] == msgs[i];
      LatestSelect(msgs[..|msgs| - 1])
  }

  /** The SQL of the newest message mentioning "select", if there is one. */
  function LatestSqlMessage(msgs: seq<Msg>): Option<string> {
    var k := LatestSelect(msgs);
    if k < 0 then None else Some(SqlFence.SqlOfMessage(msgs[k].content))
  }

  /**
   * The SQL the follow-up fix shows the model: the stored `generated_sql`
   * when it is truthy, else the SQL of the newest message mentioning "select",
   * else the stored (falsy) value itself.
   */
  function PreviousSql(st: State): (r: Json)
    ensures Truthy(Meta(st, "generated_sql", JStr(""))) ==> r == Meta(st, "generated_sql", JStr(""))
  {
    var last := Meta(st, "generated_sql", JStr(""));
    if Truthy(last) then last
    else
      match LatestSqlMessage(st.messages)
      case Some(sql) => JStr(sql)
      case None => last
  }

  /** `_fix_query_followup` */
  function FixQueryFollowup(st: State, replies: seq<string>): StepResult {
    match Oracle.Call(replies)
    case Err(e) => Threw(e)
    case Ok((reply, rest)) =>
      Stepped(Store(st, "generated_sql", JStr(CleanReply(reply))).(currentStep := "fix_query_followup"), rest)
  }

  // ---------------------------------------------------------------------------
  // finalize_response

  /** `- <name>: <reasoning>` */
  function TableLine(t: Json): Result<string, Exn> {
    var name :- Subscript(t, "name");
    var reasoning :- Subscript(t, "reasoning");
    Ok("- " + Str(name) + ": " + Str(reasoning))
  }

  /** `- <table>: <joined columns>` */
  function ColumnLine(c: Json): Result<string, Exn> {
    var table :- Subscript(c, "table");
    var columns :- Subscript(c, "columns");
    var joined :- JoinJson(columns, ", ");
    Ok("- " + Str(table) + ": " + joined)
  }

  /** The "Tables used" section: present only for a truthy table list. */
  function TablesSection(tables: Json): (r: Result<seq<string>, Exn>)
    ensures !Truthy(tables) ==> r == Ok([])
    ensures Truthy(tables) && r.Ok? ==>
      Iterate(tables).Ok? && |r.value| >= 2 && r.value[0] == "**Tables used:**" && r.value[|r.value| - 1] == ""
      && |r.value| == |Iterate(tables).value| + 2
  {
    if !Truthy(tables) then Ok([])
    else
      var items :- Iterate(tables);
      var lines :- MapItems(items, TableLine);
      Ok(["**Tables used:**"] + lines + [""])
  }

  /** The "Columns selected" section: present only for a truthy column list. */
  function ColumnsSection(columns: Json): (r: Result<seq<string>, Exn>)
    ensures !Truthy(columns) ==> r == Ok([])
    ensures Truthy(columns) && r.Ok? ==>
      Iterate(columns).Ok? && |r.value| >= 1 && r.value[0] == "**Columns selected:**" && |r.value| == |Iterate(columns).value| + 1
  {
    if !Truthy(columns) then Ok([])
    else
      var items :- Iterate(columns);
      var lines :- MapItems(items, ColumnLine);
      Ok(["**Columns selected:**"] + lines)
  }

  /** The fixed opening of the response, around the generated SQL. */
  function Opening(sql: string): seq<string> {
    ["Here's the SQL query for your request:", "", "```sql", sql, "```", ""]
  }

  /**
   * `_finalize_response`: sections raise while they are built; the final join
   * raises when the generated SQL is not a string.
   */
  function FinalizeResponse(st: State): Result<State, Exn> {
    var sql := Meta(st, "generated_sql", JStr(""));
    var ts :- TablesSection(Meta(st, "identified_tables", JArr([])));
    var cs :- ColumnsSection(Meta(st, "identified_columns", JArr([])));
    if !sql.JStr? then Err(TypeError("sequence item 3: expected str instance"))
    else
      Ok(WithMessage(st, ResponseText(sql.s, ts + cs), "assistant").(currentStep := "finalize_response"))
  }

  /**
   * A successful finalisation appends exactly one assistant message, which
   * opens with the header line and the SQL inside a ```sql fence.
   */
  lemma FinalizeAppendsResponse(st: State)
    requires FinalizeResponse(st).Ok?
    ensures var r := FinalizeResponse(st).value;
            var sql := Meta(st, "generated_sql", JStr(""));
            sql.JStr?
            && |r.messages| == |st.messages| + 1
            && r.messages[..|st.messages|] == st.messages
            && r.messages[|st.messages|].kind == Ai
            && Text.StartsWith(r.messages[|st.messages|].content, OpeningText(sql.s))
  {
    var sql := Meta(st, "generated_sql", JStr("")).s;
    var ts := TablesSection(Meta(st, "identified_tables", JArr([]))).value;
    var cs := ColumnsSection(Meta(st, "identified_columns", JArr([]))).value;
    var r := FinalizeResponse(st).value;
    assert r.messages == st.messages + [NewMessage(ResponseText(sql, ts + cs), "assistant")];
    ResponseOpens(sql, ts + cs);
  }

  /** The joined opening: header, blank line, the fenced SQL, blank line. */
  function OpeningText(sql: string): string {
    "Here's the SQL query for your request:\n\n```sql\n" + sql + "\n```\n"
  }

  /** The response: the opening followed by the sections, one per line. */
  function ResponseText(sql: string, sections: seq<string>): string {
    Text.Join(Opening(sql) + sections, "\n")
  }

  /** Whatever sections follow, the response text begins with the joined opening. */
  lemma ResponseOpens(sql: string, sections: seq<string>)
    ensures Text.StartsWith(ResponseText(sql, sections), OpeningText(sql))
  {
    var head := OpeningText(sql);
    OpeningJoin(sql);
    var text := ResponseText(sql, sections);
    if sections == [] {
      assert Opening(sql) + sections == Opening(sql);
      assert text == head;
    } else {
      Text.JoinAppend(Opening(sql), sections, "\n");
      assert text == head + "\n" + Text.Join(sections, "\n");
    }
    assert text[..|head|] == head;
  }

  lemma JoinCons(x: string, rest: seq<string>, sep: string)
    requires rest != []
    ensures Text.Join([x] + rest, sep) == x + sep + Text.Join(rest, sep)
  {
    assert ([x] + rest)[1..] == rest;
  }

  lemma OpeningJoin(sql: string)
    ensures Text.Join(Opening(sql), "\n") == OpeningText(sql)
  {
    var nl := "\n";
    FencedJoin(sql);
    JoinCons("", ["```sql", sql, "```", ""], nl);
    JoinCons("Here's the SQL query for your request:", ["", "```sql", sql, "```", ""], nl);
    assert Opening(sql) == ["Here's the SQL query for your request:"] + ["", "```sql", sql, "```", ""];
  }

  /** The fenced block of the opening, joined. */
  lemma FencedJoin(sql: string)
    ensures Text.Join(["```sql", sql, "```", ""], "\n") == "```sql\n" + sql + "\n```\n"
  {
    var nl := "\n";
    JoinCons("```", [""], nl);
    JoinCons(sql, ["```", ""], nl);
    JoinCons("```sql", [sql, "```", ""], nl);
  }

  // ---------------------------------------------------------------------------
  // Dispatch

  /** A step that makes no model call: its new state, or what it raised. */
  function Settle(r: Result<State, Exn>, replies: seq<string>): StepResult {
    match r
    case Ok(v) => Stepped(v, replies)
    case Err(e) => Threw(e)
  }

  /** The step of each node; an unknown node raises. */
  function Step(node: string, st: State, replies: seq<string>, decode: string -> Option<Json>): StepResult {
    if node == "analyze_request" then AnalyzeRequest(st, replies)
    else if node == "identify_tables" then IdentifyTables(st, replies, decode)
    else if node == "validate_tables" then Settle(ValidateTables(st), replies)
    else if node == "identify_columns" then IdentifyColumns(st, replies, decode)
    else if node == "generate_sql" then GenerateSql(st, replies)
    else if node == "validate_sql" then ValidateSql(st, replies, decode)
    else if node == "fix_query_followup" then FixQueryFollowup(st, replies)
    else if node == "finalize_response" then Settle(FinalizeResponse(st), replies)
    else Threw(UnknownNode(node))
  }

  /** The router of each conditional edge. */
  function Route(router: string, st: State): Result<Json, Exn> {
    if router == "route_after_analysis" then Ok(RouteAfterAnalysis(st))
    else if router == "route_after_table_validation" then Ok(JStr(RouteAfterTableValidation(st)))
    else if router == "route_after_sql_validation" then
      (match RouteAfterSqlValidation(st) case Ok(k) => Ok(JStr(k)) case Err(e) => Err(e))
    else Err(UnknownNode(router))
  }

  /** Every step records its own node name as the current step. */
  lemma StepRecordsNode(node: string, st: State, replies: seq<string>, decode: string -> Option<Json>)
    requires node in Nodes
    ensures Step(node, st, replies, decode).Stepped? ==> Step(node, st, replies, decode).st.currentStep == node
  {
  }
}
