/**
 * The steps of the text-to-SQL flow as the source runs them: each updates the
 * FlowState object in place (`metadata` entries, then `current_step`) and
 * consumes the replies it asks the language model for. Each method is proved
 * to do exactly what the matching TextToSql step function says.
 */
module TextToSqlSteps {
  import opened Wrappers
  import opened Faults
  import opened Json
  import opened FlowBase
  import opened TextToSql
  import Text
  import Oracle
  import SchemaDocument
  import SqlFence

  /** `_analyze_request` */
  method AnalyzeRequestStep(s: FlowState, llm: Oracle.Llm) returns (e: Option<Exn>)
    modifies s, llm
    ensures Realises(AnalyzeRequest(old(s.Value()), old(llm.replies)), e, old(s.Value()), s.Value(), old(llm.replies), llm.replies)
  {
    var user := LastUserMessage(s.messages).GetOr("");
    var reply := llm.Invoke();
    if reply.Err? {
      return Some(reply.error);
    }
    var op := OperationType(reply.value);
    s.metadata := s.metadata["fix_query_type" := FixQueryType(op, user)];
    s.metadata := s.metadata["operation_type" := JStr(op)];
    s.currentStep := "analyze_request";
    return None;
  }

  /** `_identify_tables` */
  method IdentifyTablesStep(s: FlowState, llm: Oracle.Llm, decode: string -> Option<Json>) returns (e: Option<Exn>)
    modifies s, llm
    ensures Realises(IdentifyTables(old(s.Value()), old(llm.replies), decode), e, old(s.Value()), s.Value(), old(llm.replies), llm.replies)
  {
    var reply := llm.Invoke();
    if reply.Err? {
      return Some(reply.error);
    }
    s.metadata := s.metadata["identified_tables" := Decoded(decode, reply.value, "tables", DefaultTables)];
    s.currentStep := "identify_tables";
    return None;
  }

  /** `_validate_tables`: no model call. */
  method ValidateTablesStep(s: FlowState) returns (e: Option<Exn>)
    modifies s
    ensures ValidateTables(old(s.Value())).Ok? ==> e.None? && s.Value() == ValidateTables(old(s.Value())).value
    ensures ValidateTables(old(s.Value())).Err? ==> e == Some(ValidateTables(old(s.Value())).error) && s.Value() == old(s.Value())
  {
    var tables := Meta(s.Value(), "identified_tables", JArr([]));
    var selection := TableSelection(tables);
    if selection.Err? {
      return Some(selection.error);
    }
    var (names, reasons, joined) := selection.value;
    var message := ValidationMessage(UserText(s.messages), joined, Text.Join(ReasonLines(names, reasons), "\n"));
    var request := JObj([Member("type", JStr("table_selection")), Member("message", JStr(message)), Member("data", tables)]);
    s.metadata := s.metadata["validation_request" := request];
    s.metadata := s.metadata["table_validation_approved" := JBool(true)];
    s.currentStep := "validate_tables";
    return None;
  }

  /** The `table_columns` loop over the placeholder catalogue. */
  method OfferColumns(identified: Json) returns (r: Result<map<string, seq<string>>, Exn>)
    ensures r == OfferedColumns(identified)
  {
    var names := Pluck(identified, "name");
    if names.Err? {
      return Err(names.error);
    }
    var cat := SchemaDocument.TableInfo();
    var offered: map<string, seq<string>> := map[];
    var i := 0;
    while i < |cat|
      invariant 0 <= i <= |cat|
      invariant offered == ColumnsOffered(cat[..i], names.value)
    {
      assert cat[..i + 1][..i] == cat[..i];
      if InList(JStr(cat[i].name), names.value) {
        offered := offered[cat[i].name := cat[i].columns];
      }
      i := i + 1;
    }
    assert cat[..i] == cat;
    return Ok(offered);
  }

  /** `_identify_columns`; `offered` is what the prompt shows the model. */
  method IdentifyColumnsStep(s: FlowState, llm: Oracle.Llm, decode: string -> Option<Json>)
    returns (e: Option<Exn>, offered: map<string, seq<string>>)
    modifies s, llm
    ensures Realises(IdentifyColumns(old(s.Value()), old(llm.replies), decode), e, old(s.Value()), s.Value(), old(llm.replies), llm.replies)
    ensures OfferedColumns(Meta(old(s.Value()), "identified_tables", JArr([]))).Ok? ==>
              offered == OfferedColumns(Meta(old(s.Value()), "identified_tables", JArr([]))).value
  {
    offered := map[];
    var r := OfferColumns(Meta(s.Value(), "identified_tables", JArr([])));
    if r.Err? {
      return Some(r.error), offered;
    }
    offered := r.value;
    var reply := llm.Invoke();
    if reply.Err? {
      return Some(reply.error), offered;
    }
    s.metadata := s.metadata["identified_columns" := Decoded(decode, reply.value, "table_columns", JArr([]))];
    s.currentStep := "identify_columns";
    return None, offered;
  }

  /**
   * Appends `f` of each item to `parts`, in order; the first item whose
   * rendering raises ends the loop with that exception.
   */
  method AppendLines(parts: seq<string>, items: seq<Json>, f: Json -> Result<string, Exn>) returns (r: Result<seq<string>, Exn>)
    ensures MapItems(items, f).Ok? ==> r == Ok(parts + MapItems(items, f).value)
    ensures MapItems(items, f).Err? ==> r == Err(MapItems(items, f).error)
  {
    var acc := parts;
    var i := 0;
    while i < |items|
      invariant 0 <= i <= |items|
      invariant MapItems(items[..i], f).Ok? && acc == parts + MapItems(items[..i], f).value
    {
      var line := f(items[i]);
      assert items[..i + 1][..i] == items[..i];
      if line.Err? {
        MapItemsPrefixErr(items, f, i + 1);
        return Err(line.error);
      }
      acc := acc + [line.value];
      i := i + 1;
    }
    assert items[..i] == items;
    return Ok(acc);
  }

  /** The `+=` loops building the table and column context of the generation prompt. */
  method BuildGenerationContext(st: State) returns (r: Result<(seq<string>, seq<string>), Exn>)
    ensures r == GenerationContext(st)
  {
    var tables := Iterate(Meta(st, "identified_tables", JArr([])));
    if tables.Err? {
      return Err(tables.error);
    }
    var tableLines := AppendLines([], tables.value, TableContextLine);
    if tableLines.Err? {
      return Err(tableLines.error);
    }
    var columns := Iterate(Meta(st, "identified_columns", JArr([])));
    if columns.Err? {
      return Err(columns.error);
    }
    var columnLines := AppendLines([], columns.value, ColumnContextLine);
    if columnLines.Err? {
      return Err(columnLines.error);
    }
    assert [] + MapItems(tables.value, TableContextLine).value == MapItems(tables.value, TableContextLine).value;
    assert [] + MapItems(columns.value, ColumnContextLine).value == MapItems(columns.value, ColumnContextLine).value;
    return Ok((tableLines.value, columnLines.value));
  }

  /** `_generate_sql` */
  method GenerateSqlStep(s: FlowState, llm: Oracle.Llm) returns (e: Option<Exn>)
    modifies s, llm
    ensures Realises(GenerateSql(old(s.Value()), old(llm.replies)), e, old(s.Value()), s.Value(), old(llm.replies), llm.replies)
  {
    var context := BuildGenerationContext(s.Value());
    if context.Err? {
      return Some(context.error);
    }
    var reply := llm.Invoke();
    if reply.Err? {
      return Some(reply.error);
    }
    var sql := CleanReply(reply.value);
    s.metadata := s.metadata["generated_sql" := JStr(sql)];
    s.currentStep := "generate_sql";
    return None;
  }

  /** `_validate_sql` */
  method ValidateSqlStep(s: FlowState, llm: Oracle.Llm, decode: string -> Option<Json>) returns (e: Option<Exn>)
    modifies s, llm
    ensures Realises(ValidateSql(old(s.Value()), old(llm.replies), decode), e, old(s.Value()), s.Value(), old(llm.replies), llm.replies)
  {
    var reply := llm.Invoke();
    if reply.Err? {
      return Some(reply.error);
    }
    var v := Verdict(decode(reply.value));
    s.metadata := s.metadata["sql_validation" := JObj([Member("is_valid", v.0), Member("errors", v.1), Member("suggestions", v.2)])];
    s.metadata := s.metadata["sql_validation_approved" := JBool(true)];
    s.currentStep := "validate_sql";
    return None;
  }

  /** The backwards search over the messages for the newest one mentioning "select". */
  method FindPreviousSql(msgs: seq<Msg>) returns (r: Option<string>)
    ensures r == LatestSqlMessage(msgs)
  {
    var i := |msgs|;
    while i > 0
      invariant 0 <= i <= |msgs|
      invariant forall j :: i <= j < |msgs| ==> !MentionsSelect(msgs[j])
    {
      if MentionsSelect(msgs[i - 1]) {
        LatestSelectAt(msgs, i - 1);
        return Some(SqlFence.SqlOfMessage(msgs[i - 1].content));
      }
      i := i - 1;
    }
    LatestSelectAt(msgs, -1);
    return None;
  }

  /** The newest message mentioning "select" is the one with none after it. */
  lemma LatestSelectAt(msgs: seq<Msg>, k: int)
    requires -1 <= k < |msgs| && (k >= 0 ==> MentionsSelect(msgs[k]))
    requires forall j :: k < j < |msgs| ==> !MentionsSelect(msgs[j])
    ensures LatestSelect(msgs) == k
  {
  }

  /** The SQL the follow-up prompt shows: the stored query when truthy, else the one found in the messages. */
  method FindPrevious(s: FlowState) returns (previous: Json)
    ensures previous == PreviousSql(s.Value())
  {
    previous := Meta(s.Value(), "generated_sql", JStr(""));
    if !Truthy(previous) {
      var found := FindPreviousSql(s.messages);
      if found.Some? {
        previous := JStr(found.value);
      }
    }
  }

  /** `_fix_query_followup`; `previous` is the SQL the prompt shows the model. */
  method FixQueryFollowupStep(s: FlowState, llm: Oracle.Llm) returns (e: Option<Exn>, previous: Json)
    modifies s, llm
    ensures Realises(FixQueryFollowup(old(s.Value()), old(llm.replies)), e, old(s.Value()), s.Value(), old(llm.replies), llm.replies)
    ensures previous == PreviousSql(old(s.Value()))
  {
    previous := FindPrevious(s);
    var reply := llm.Invoke();
    if reply.Err? {
      return Some(reply.error), previous;
    }
    var sql := CleanReply(reply.value);
    s.metadata := s.metadata["generated_sql" := JStr(sql)];
    s.currentStep := "fix_query_followup";
    return None, previous;
  }

  /** A section: its title, one line per item, and any closing lines; empty for a falsy value. */
  method BuildSection(value: Json, title: string, f: Json -> Result<string, Exn>, closing: seq<string>)
    returns (r: Result<seq<string>, Exn>)
    ensures !Truthy(value) ==> r == Ok([])
    ensures Truthy(value) && Iterate(value).Err? ==> r == Err(Iterate(value).error)
    ensures Truthy(value) && Iterate(value).Ok? && MapItems(Iterate(value).value, f).Err? ==>
              r == Err(MapItems(Iterate(value).value, f).error)
    ensures Truthy(value) && Iterate(value).Ok? && MapItems(Iterate(value).value, f).Ok? ==>
              r == Ok([title] + MapItems(Iterate(value).value, f).value + closing)
  {
    if !Truthy(value) {
      return Ok([]);
    }
    var items := Iterate(value);
    if items.Err? {
      return Err(items.error);
    }
    var lines := AppendLines([title], items.value, f);
    if lines.Err? {
      return Err(lines.error);
    }
    return Ok(lines.value + closing);
  }

  /** The "Tables used" section, built by the section loop. */
  method BuildTablesSection(tables: Json) returns (r: Result<seq<string>, Exn>)
    ensures r == TablesSection(tables)
  {
    r := BuildSection(tables, "**Tables used:**", TableLine, [""]);
  }

  /** The "Columns selected" section, built by the section loop. */
  method BuildColumnsSection(columns: Json) returns (r: Result<seq<string>, Exn>)
    ensures r == ColumnsSection(columns)
  {
    r := BuildSection(columns, "**Columns selected:**", ColumnLine, []);
    if Truthy(columns) && Iterate(columns).Ok? && MapItems(Iterate(columns).value, ColumnLine).Ok? {
      var lines := MapItems(Iterate(columns).value, ColumnLine).value;
      assert ["**Columns selected:**"] + lines + [] == ["**Columns selected:**"] + lines;
    }
  }

  /** Finalisation from the two built sections and a string query. */
  lemma FinalizeBuilt(st: State, ts: seq<string>, cs: seq<string>)
    requires TablesSection(Meta(st, "identified_tables", JArr([]))) == Ok(ts)
    requires ColumnsSection(Meta(st, "identified_columns", JArr([]))) == Ok(cs)
    requires Meta(st, "generated_sql", JStr("")).JStr?
    ensures FinalizeResponse(st)
            == Ok(WithMessage(st, ResponseText(Meta(st, "generated_sql", JStr("")).s, ts + cs), "assistant").(currentStep := "finalize_response"))
  {
  }

  /** `_finalize_response`: no model call. */
  method FinalizeResponseStep(s: FlowState) returns (e: Option<Exn>)
    modifies s
    ensures FinalizeResponse(old(s.Value())).Ok? ==> e.None? && s.Value() == FinalizeResponse(old(s.Value())).value
    ensures FinalizeResponse(old(s.Value())).Err? ==> e == Some(FinalizeResponse(old(s.Value())).error) && s.Value() == old(s.Value())
  {
    var st := s.Value();
    var ts := BuildTablesSection(Meta(st, "identified_tables", JArr([])));
    if ts.Err? {
      return Some(ts.error);
    }
    var cs := BuildColumnsSection(Meta(st, "identified_columns", JArr([])));
    if cs.Err? {
      return Some(cs.error);
    }
    var sql := Meta(st, "generated_sql", JStr(""));
    if !sql.JStr? {
      return Some(TypeError("sequence item 3: expected str instance"));
    }
    FinalizeBuilt(st, ts.value, cs.value);
    AddMessage(s, ResponseText(sql.s, ts.value + cs.value), "assistant");
    s.currentStep := "finalize_response";
    return None;
  }

  /** The step method of a node, run on the state object. */
  method RunStep(node: string, s: FlowState, llm: Oracle.Llm, decode: string -> Option<Json>) returns (e: Option<Exn>)
    modifies s, llm
    ensures Realises(Step(node, old(s.Value()), old(llm.replies), decode), e, old(s.Value()), s.Value(), old(llm.replies), llm.replies)
  {
    if node == "analyze_request" {
      e := AnalyzeRequestStep(s, llm);
    } else if node == "identify_tables" {
      e := IdentifyTablesStep(s, llm, decode);
    } else if node == "validate_tables" {
      e := ValidateTablesStep(s);
    } else if node == "identify_columns" {
      var offered;
      e, offered := IdentifyColumnsStep(s, llm, decode);
    } else if node == "generate_sql" {
      e := GenerateSqlStep(s, llm);
    } else if node == "validate_sql" {
      e := ValidateSqlStep(s, llm, decode);
    } else if node == "fix_query_followup" {
      var previous;
      e, previous := FixQueryFollowupStep(s, llm);
    } else if node == "finalize_response" {
      e := FinalizeResponseStep(s);
    } else {
      e := Some(UnknownNode(node));
    }
  }
}
