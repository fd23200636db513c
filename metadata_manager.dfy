/**
 * The schema metadata manager (app/utils/metadata_manager.py): queries over a
 * table-info document and the two schema summaries built from it. The summaries
 * are returned as the ordered dictionaries `json.dumps` renders; the rendering
 * itself is not modelled.
 */
module MetadataManager {
  import opened Wrappers
  import opened Faults
  import SchemaDocument

  /** A column as a table lists it: a plain name, or a dictionary read with `.get`. */
  datatype ColumnEntry =
    | ColumnText(text: string)
    | ColumnDict(name: Option<string>, colType: Option<string>, nullable: Option<bool>)

  /** A table of the document; every entry is read with `.get`, so each may be missing. */
  datatype Table = Table(name: Option<string>, columns: Option<seq<ColumnEntry>>, description: Option<string>)

  /** The table-info document; `tables` is None when the document is empty or has no "tables" entry. */
  datatype TableInfoDoc = TableInfoDoc(tables: Option<seq<Table>>)

  /** The document the manager is built with: `get_table_info()`, whose columns are plain names. */
  function Catalogue(): TableInfoDoc {
    var ts := SchemaDocument.TableInfo();
    TableInfoDoc(Some(seq(|ts|, i requires 0 <= i < |ts| =>
      Table(Some(ts[i].name),
            Some(seq(|ts[i].columns|, k requires 0 <= k < |ts[i].columns| => ColumnText(ts[i].columns[k]))),
            Some(ts[i].description)))))
  }

  /** `self.table_info.get("tables", [])` */
  function Tables(doc: TableInfoDoc): seq<Table> {
    doc.tables.GetOr([])
  }

  // ---------------------------------------------------------------------------
  // Ordered dictionaries

  datatype Entry<V> = Entry(key: string, value: V)

  function Lookup<V>(es: seq<Entry<V>>, key: string): (r: Option<V>)
    decreases |es|
  {
    if es == [] then None else if es[0].key == key then Some(es[0].value) else Lookup(es[1..], key)
  }

  /** `d[key] = v`: an existing key keeps its place, a new key goes last. */
  function PutEntry<V>(es: seq<Entry<V>>, key: string, v: V): (r: seq<Entry<V>>)
    ensures Lookup(r, key) == Some(v)
    ensures forall k :: k != key ==> Lookup(r, k) == Lookup(es, k)
    decreases |es|
  {
    if es == [] then [Entry(key, v)]
    else if es[0].key == key then [Entry(key, v)] + es[1..]
    else [es[0]] + PutEntry(es[1..], key, v)
  }

  // ---------------------------------------------------------------------------
  // get_table_names, get_table_columns, validate_table_exists, get_table_relationships

  /** `get_table_names`: `table.get("name", "")` of each table, in order. */
  function GetTableNames(doc: TableInfoDoc): (ns: seq<string>)
    ensures |ns| == |Tables(doc)|
    ensures forall i :: 0 <= i < |ns| ==> ns[i] == Tables(doc)[i].name.GetOr("")
  {
    var ts := Tables(doc);
    seq(|ts|, i requires 0 <= i < |ts| => ts[i].name.GetOr(""))
  }

  /** The index of the first table whose `.get("name")` equals `name` (a nameless table never does). */
  function FirstNamed(ts: seq<Table>, name: string): (r: Option<nat>)
    ensures r.Some? ==> r.value < |ts| && ts[r.value].name == Some(name)
                        && forall j :: 0 <= j < r.value ==> ts[j].name != Some(name)
    ensures r.None? ==> forall j :: 0 <= j < |ts| ==> ts[j].name != Some(name)
    decreases |ts|
  {
    if ts == [] then None
    else if ts[0].name == Some(name) then Some(0)
    else match FirstNamed(ts[1..], name)
      case Some(i) =>
        assert forall j :: 1 <= j < |ts| ==> ts[j] == ts[1..][j - 1];
        Some(i + 1)
      case None =>
        assert forall j :: 1 <= j < |ts| ==> ts[j] == ts[1..][j - 1];
        None
  }

  /** `get_table_columns`: the columns of the first table with that name, or [] when none has it. */
  function GetTableColumns(doc: TableInfoDoc, name: string): (cs: seq<ColumnEntry>)
    ensures FirstNamed(Tables(doc), name).None? ==> cs == []
    ensures FirstNamed(Tables(doc), name).Some? ==> cs == Tables(doc)[FirstNamed(Tables(doc), name).value].columns.GetOr([])
  {
    match FirstNamed(Tables(doc), name)
    case Some(i) => Tables(doc)[i].columns.GetOr([])
    case None => []
  }

  /** `validate_table_exists` */
  predicate ValidateTableExists(doc: TableInfoDoc, name: string) {
    name in GetTableNames(doc)
  }

  /** `get_table_relationships`: always the empty list. */
  function GetTableRelationships(doc: TableInfoDoc, name: string): (rels: seq<Entry<string>>)
    ensures rels == []
  {
    []
  }

  /**
   * For a non-empty name, the table exists exactly when `get_table_columns`
   * finds it; the empty name exists as soon as some table has no name, yet no
   * columns are ever found for it there.
   */
  lemma ExistsMeansFound(doc: TableInfoDoc, name: string)
    ensures name != "" ==> (ValidateTableExists(doc, name) <==> FirstNamed(Tables(doc), name).Some?)
    ensures name == "" && (exists i :: 0 <= i < |Tables(doc)| && Tables(doc)[i].name.None?) ==> ValidateTableExists(doc, name)
  {
    var ns := GetTableNames(doc);
    if name != "" && ValidateTableExists(doc, name) {
      var i :| 0 <= i < |ns| && ns[i] == name;
      assert Tables(doc)[i].name == Some(name);
    }
    if name != "" && FirstNamed(Tables(doc), name).Some? {
      assert ns[FirstNamed(Tables(doc), name).value] == name;
    }
    if name == "" && exists i :: 0 <= i < |Tables(doc)| && Tables(doc)[i].name.None? {
      var i :| 0 <= i < |Tables(doc)| && Tables(doc)[i].name.None?;
      assert ns[i] == "";
    }
  }

  /** A nameless table: "" exists, but its columns are not found under "". */
  lemma NamelessTable(cols: seq<ColumnEntry>)
    ensures var doc := TableInfoDoc(Some([Table(None, Some(cols), None)]));
            ValidateTableExists(doc, "") && GetTableColumns(doc, "") == []
  {
    var doc := TableInfoDoc(Some([Table(None, Some(cols), None)]));
    assert GetTableNames(doc)[0] == "";
  }

  /** The catalogue has the tables "users" and "orders", in that order. */
  lemma CatalogueTables()
    ensures GetTableNames(Catalogue()) == ["users", "orders"]
    ensures ValidateTableExists(Catalogue(), "users") && ValidateTableExists(Catalogue(), "orders")
  {
    assert GetTableNames(Catalogue())[0] == "users";
    assert GetTableNames(Catalogue())[1] == "orders";
  }

  // ---------------------------------------------------------------------------
  // get_concise_schema

  const NotADict := "'str' object has no attribute 'get'"

  /** `col.get("name", "")`, which raises on a column given as a plain string. */
  function ColumnName(c: ColumnEntry): Result<string, Exn> {
    match c
    case ColumnText(_) => Err(AttributeError(NotADict))
    case ColumnDict(name, _, _) => Ok(name.GetOr(""))
  }

  /** A column's name, taking a plain string as the name itself. */
  function ColumnNameOrText(c: ColumnEntry): Result<string, Exn> {
    match c
    case ColumnText(t) => Ok(t)
    case ColumnDict(name, _, _) => Ok(name.GetOr(""))
  }

  /** The column names of a column list, in order; the first failing column raises. */
  function ColumnNames(cs: seq<ColumnEntry>, nameOf: ColumnEntry -> Result<string, Exn>): Result<seq<string>, Exn>
    decreases |cs|
  {
    if cs == [] then Ok([])
    else match nameOf(cs[0])
      case Err(e) => Err(e)
      case Ok(n) =>
        match ColumnNames(cs[1..], nameOf)
        case Err(e) => Err(e)
        case Ok(ns) => Ok([n] + ns)
  }

  /** The concise schema of the tables `ts`, table by table; a later table with the same name overwrites. */
  function ConciseOf(ts: seq<Table>, nameOf: ColumnEntry -> Result<string, Exn>): Result<seq<Entry<seq<string>>>, Exn>
    decreases |ts|
  {
    if ts == [] then Ok([])
    else match ConciseOf(ts[..|ts| - 1], nameOf)
      case Err(e) => Err(e)
      case Ok(es) =>
        var t := ts[|ts| - 1];
        match ColumnNames(t.columns.GetOr([]), nameOf)
        case Err(e) => Err(e)
        case Ok(names) => Ok(PutEntry(es, t.name.GetOr(""), names))
  }

  /** `get_concise_schema`; Ok([]) is the "{}" returned when there are no tables. */
  method GetConciseSchema(doc: TableInfoDoc) returns (r: Result<seq<Entry<seq<string>>>, Exn>)
    ensures r == ConciseOf(Tables(doc), ColumnName)
  {
    if doc.tables.None? {
      return Ok([]);
    }
    var ts := doc.tables.value;
    var schema: seq<Entry<seq<string>>> := [];
    var i := 0;
    while i < |ts|
      invariant 0 <= i <= |ts|
      invariant ConciseOf(ts[..i], ColumnName) == Ok(schema)
    {
      assert ts[..i + 1][..i] == ts[..i];
      var table := ts[i];
      var tableName := table.name.GetOr("");
      var columns := ColumnNames(table.columns.GetOr([]), ColumnName);
      if columns.Err? {
        assert ConciseOf(ts[..i + 1], ColumnName) == Err(columns.error);
        ConciseErrStays(ts, i + 1, ColumnName);
        assert ts[..|ts|] == ts;
        return Err(columns.error);
      }
      schema := PutEntry(schema, tableName, columns.value);
      i := i + 1;
    }
    assert ts[..i] == ts;
    r := Ok(schema);
  }

  /** Once a prefix raises, every longer prefix raises the same. */
  lemma {:induction false} ConciseErrStays(ts: seq<Table>, n: nat, nameOf: ColumnEntry -> Result<string, Exn>)
    requires n <= |ts| && ConciseOf(ts[..n], nameOf).Err?
    ensures ConciseOf(ts, nameOf) == ConciseOf(ts[..n], nameOf)
    decreases |ts| - n
  {
    if n < |ts| {
      assert ts[..n + 1][..n] == ts[..n];
      ConciseErrStays(ts, n + 1, nameOf);
    } else {
      assert ts[..n] == ts;
    }
  }

  /** The columns, by name, of the last table called `key` (`.get("name", "")`). */
  function LastNamedColumns(ts: seq<Table>, key: string): Option<seq<ColumnEntry>>
    decreases |ts|
  {
    if ts == [] then None
    else if ts[|ts| - 1].name.GetOr("") == key then Some(ts[|ts| - 1].columns.GetOr([]))
    else LastNamedColumns(ts[..|ts| - 1], key)
  }

  /**
   * A concise schema that is built has one entry per table name, holding the
   * column names of the last table with that name.
   */
  lemma {:induction false} ConciseMeaning(ts: seq<Table>, nameOf: ColumnEntry -> Result<string, Exn>, key: string)
    requires ConciseOf(ts, nameOf).Ok?
    ensures LastNamedColumns(ts, key).None? ==> Lookup(ConciseOf(ts, nameOf).value, key).None?
    ensures LastNamedColumns(ts, key).Some? ==>
              ColumnNames(LastNamedColumns(ts, key).value, nameOf).Ok?
              && Lookup(ConciseOf(ts, nameOf).value, key) == Some(ColumnNames(LastNamedColumns(ts, key).value, nameOf).value)
    decreases |ts|
  {
    if ts != [] {
      ConciseMeaning(ts[..|ts| - 1], nameOf, key);
    }
  }

  /** Column names never fail when plain strings count as names. */
  lemma {:induction false} ColumnNamesTotal(cs: seq<ColumnEntry>)
    ensures ColumnNames(cs, ColumnNameOrText).Ok? && |ColumnNames(cs, ColumnNameOrText).value| == |cs|
    decreases |cs|
  {
    if cs != [] {
      ColumnNamesTotal(cs[1..]);
    }
  }

  /** With plain strings taken as names, a concise schema is always built. */
  lemma {:induction false} ConciseTotal(ts: seq<Table>)
    ensures ConciseOf(ts, ColumnNameOrText).Ok?
    decreases |ts|
  {
    if ts != [] {
      ConciseTotal(ts[..|ts| - 1]);
      ColumnNamesTotal(ts[|ts| - 1].columns.GetOr([]));
    }
  }

  /** The code as written raises on the catalogue it is built with: its first column is a plain string. */
  lemma CatalogueConciseRaises()
    ensures ConciseOf(Tables(Catalogue()), ColumnName) == Err(AttributeError(NotADict))
  {
    var ts := Tables(Catalogue());
    assert ts[..1][..0] == [];
    assert ts[..1][0].columns.value[0] == ColumnText("id");
    assert ConciseOf(ts[..1], ColumnName) == Err(AttributeError(NotADict));
    ConciseErrStays(ts, 1, ColumnName);
    assert ts[..|ts|] == ts;
  }

  /** Taking plain strings as names, the catalogue's concise schema lists both tables with their columns. */
  lemma CatalogueConciseNamed()
    ensures ConciseOf(Tables(Catalogue()), ColumnNameOrText).Ok?
    ensures Lookup(ConciseOf(Tables(Catalogue()), ColumnNameOrText).value, "users").Some?
    ensures Lookup(ConciseOf(Tables(Catalogue()), ColumnNameOrText).value, "orders").Some?
  {
    var ts := Tables(Catalogue());
    ConciseTotal(ts);
    ConciseMeaning(ts, ColumnNameOrText, "users");
    ConciseMeaning(ts, ColumnNameOrText, "orders");
    ColumnNamesTotal(ts[0].columns.value);
    ColumnNamesTotal(ts[1].columns.value);
    assert ts[..1] == [ts[0]];
    assert LastNamedColumns(ts, "users") == Some(ts[0].columns.value);
    assert LastNamedColumns(ts, "orders") == Some(ts[1].columns.value);
  }

  // ---------------------------------------------------------------------------
  // get_relevant_schema_text

  datatype ColumnInfo = ColumnInfo(name: string, colType: string, nullable: bool)

  datatype TableDetail = TableDetail(columns: seq<ColumnInfo>, description: string)

  /** "" for an empty request list, otherwise the dictionary of the requested tables that exist. */
  datatype Relevant = NoRequest | Schema(entries: seq<Entry<TableDetail>>)

  /** The details of one column; a plain-string column raises. */
  function ColumnDetail(c: ColumnEntry): Result<ColumnInfo, Exn> {
    match c
    case ColumnText(_) => Err(AttributeError(NotADict))
    case ColumnDict(name, colType, nullable) => Ok(ColumnInfo(name.GetOr(""), colType.GetOr(""), nullable.GetOr(true)))
  }

  function ColumnDetails(cs: seq<ColumnEntry>): Result<seq<ColumnInfo>, Exn>
    decreases |cs|
  {
    if cs == [] then Ok([])
    else match ColumnDetail(cs[0])
      case Err(e) => Err(e)
      case Ok(c) =>
        match ColumnDetails(cs[1..])
        case Err(e) => Err(e)
        case Ok(rest) => Ok([c] + rest)
  }

  function Detail(t: Table): Result<TableDetail, Exn> {
    match ColumnDetails(t.columns.GetOr([]))
    case Err(e) => Err(e)
    case Ok(cs) => Ok(TableDetail(cs, t.description.GetOr("")))
  }

  /** The dictionary for the requested names, name by name: the first table with that name, unknown names skipped. */
  function RelevantOf(ts: seq<Table>, requested: seq<string>): Result<seq<Entry<TableDetail>>, Exn>
    decreases |requested|
  {
    if requested == [] then Ok([])
    else match RelevantOf(ts, requested[..|requested| - 1])
      case Err(e) => Err(e)
      case Ok(es) =>
        var name := requested[|requested| - 1];
        match FirstNamed(ts, name)
        case None => Ok(es)
        case Some(i) =>
          match Detail(ts[i])
          case Err(e) => Err(e)
          case Ok(d) => Ok(PutEntry(es, name, d))
  }

  /** Once the names so far raise, every longer request list raises the same. */
  lemma {:induction false} RelevantErrStays(ts: seq<Table>, requested: seq<string>, n: nat)
    requires n <= |requested| && RelevantOf(ts, requested[..n]).Err?
    ensures RelevantOf(ts, requested) == RelevantOf(ts, requested[..n])
    decreases |requested| - n
  {
    if n < |requested| {
      assert requested[..n + 1][..n] == requested[..n];
      RelevantErrStays(ts, requested, n + 1);
    } else {
      assert requested[..n] == requested;
    }
  }

  /** `get_relevant_schema_text`: the outer loop over requested names and the inner search with `break`. */
  method GetRelevantSchemaText(doc: TableInfoDoc, requested: seq<string>) returns (r: Result<Relevant, Exn>)
    ensures requested == [] ==> r == Ok(NoRequest)
    ensures requested != [] ==> match RelevantOf(Tables(doc), requested)
                                case Ok(es) => r == Ok(Schema(es))
                                case Err(e) => r == Err(e)
  {
    if requested == [] {
      return Ok(NoRequest);
    }
    var ts := Tables(doc);
    var schemaInfo: seq<Entry<TableDetail>> := [];
    var n := 0;
    while n < |requested|
      invariant 0 <= n <= |requested|
      invariant RelevantOf(ts, requested[..n]) == Ok(schemaInfo)
    {
      assert requested[..n + 1][..n] == requested[..n];
      var tableName := requested[n];
      var j := 0;
      while j < |ts|
        invariant 0 <= j <= |ts|
        invariant forall k :: 0 <= k < j ==> ts[k].name != Some(tableName)
      {
        if ts[j].name == Some(tableName) {
          break;
        }
        j := j + 1;
      }
      if j < |ts| {
        assert FirstNamed(ts, tableName) == Some(j);
        var detail := Detail(ts[j]);
        if detail.Err? {
          RelevantErrStays(ts, requested, n + 1);
          return Err(detail.error);
        }
        schemaInfo := PutEntry(schemaInfo, tableName, detail.value);
      } else {
        assert FirstNamed(ts, tableName).None?;
      }
      n := n + 1;
    }
    assert requested[..n] == requested;
    r := Ok(Schema(schemaInfo));
  }

  /**
   * A built relevant schema holds exactly the requested names some table has,
   * each with the details of the first table of that name.
   */
  lemma {:induction false} RelevantMeaning(ts: seq<Table>, requested: seq<string>, key: string)
    requires RelevantOf(ts, requested).Ok?
    ensures Lookup(RelevantOf(ts, requested).value, key).Some? <==> key in requested && FirstNamed(ts, key).Some?
    ensures Lookup(RelevantOf(ts, requested).value, key).Some? ==>
              Detail(ts[FirstNamed(ts, key).value]) == Ok(Lookup(RelevantOf(ts, requested).value, key).value)
    decreases |requested|
  {
    if requested != [] {
      var front := requested[..|requested| - 1];
      RelevantMeaning(ts, front, key);
      assert key in requested <==> key in front || key == requested[|requested| - 1];
    }
  }

  /** Asking the catalogue for "users" raises for the same reason: its columns are plain strings. */
  lemma CatalogueRelevantRaises()
    ensures RelevantOf(Tables(Catalogue()), ["users"]) == Err(AttributeError(NotADict))
  {
    var ts := Tables(Catalogue());
    assert ["users"][..0] == [];
    assert FirstNamed(ts, "users") == Some(0);
    assert ts[0].columns.value[0] == ColumnText("id");
  }
}
