/**
 * app/core/database.py: the placeholder table catalogue and the parser that
 * turns a schema document into one text chunk per table.
 * Documents are typed records; a key the code reads with `.get(k, d)` is an
 * Option (or, for lists and strings whose default is empty, the empty value).
 */
module SchemaDocument {
  import opened Wrappers
  import Text

  /** A table of the placeholder catalogue; its columns are plain names. */
  datatype PlaceholderTable = PlaceholderTable(name: string, columns: seq<string>, description: string)

  /** `get_table_info()`: the fixed two-table catalogue. */
  function TableInfo(): (ts: seq<PlaceholderTable>)
    ensures |ts| == 2 && ts[0].name == "users" && ts[1].name == "orders"
    ensures forall i :: 0 <= i < |ts| ==> "id" in ts[i].columns && "created_at" in ts[i].columns
  {
    [ PlaceholderTable("users", ["id", "name", "email", "created_at"], "User information table"),
      PlaceholderTable("orders", ["id", "user_id", "product_id", "quantity", "total", "created_at"],
                       "Order information table") ]
  }

  /** The table names of the placeholder catalogue, in order. */
  function TableInfoNames(): (ns: seq<string>)
    ensures ns == ["users", "orders"]
  {
    var ts := TableInfo();
    seq(|ts|, i requires 0 <= i < |ts| => ts[i].name)
  }

  // ---------------------------------------------------------------------------
  // SchemaDocumentParser.parse_schema_json

  datatype TableReference = TableReference(catalog: Option<string>, schema: Option<string>, table: Option<string>)

  datatype ModelColumn = ModelColumn(
    name: Option<string>, colType: Option<string>, expression: Option<string>, relationship: Option<string>)

  /** A model; a missing `tableReference` is the reference with no keys. */
  datatype Model = Model(name: Option<string>, tableRef: TableReference, columns: seq<ModelColumn>, primaryKey: string)

  /** A relationship; a missing `models` list is the empty list. */
  datatype Relationship = Relationship(name: string, joinType: string, models: seq<string>, condition: string)

  datatype SchemaDoc = SchemaDoc(
    catalog: Option<string>, schema: Option<string>, models: seq<Model>, relationships: seq<Relationship>)

  function ModelName(m: Model): string {
    m.name.GetOr("")
  }

  /** The two header lines of a table's chunk. */
  function Header(doc: SchemaDoc, m: Model): string {
    "Table: " + ModelName(m) + "\n"
    + "Catalog: " + m.tableRef.catalog.GetOr(doc.catalog.GetOr(""))
    + ", Schema: " + m.tableRef.schema.GetOr(doc.schema.GetOr(""))
    + ", Table: " + m.tableRef.table.GetOr(ModelName(m))
  }

  /** The line describing one column. */
  function ColumnLine(c: ModelColumn): string {
    var t := c.colType.GetOr("");
    "- " + c.name.GetOr("") + ": " + t
    + (if c.expression.Some? then " (expr: " + c.expression.value + ")" else "")
    + (if c.relationship.Some? then " [rel: " + c.relationship.value + ", type: " + t + "]" else "")
  }

  function RelationshipLine(r: Relationship): string {
    "Relationship: " + r.name + " (" + r.joinType + ") between " + Text.Join(r.models, ", ") + " on " + r.condition
  }

  /** How often `name` occurs in `models`. */
  function Occurrences(models: seq<string>, name: string): nat
    decreases |models|
  {
    if |models| == 0 then 0
    else (if models[0] == name then 1 else 0) + Occurrences(models[1..], name)
  }

  function Repeat<T>(x: T, n: nat): (r: seq<T>)
    ensures |r| == n && forall i :: 0 <= i < n ==> r[i] == x
  {
    seq(n, _ => x)
  }

  /**
   * The relationships filed under `name` by the `setdefault(...).append(...)`
   * loop: in document order, once per occurrence of `name` in each `models` list.
   */
  function RelationshipsOf(rels: seq<Relationship>, name: string): seq<Relationship>
    decreases |rels|
  {
    if |rels| == 0 then []
    else RelationshipsOf(rels[..|rels| - 1], name) + Repeat(rels[|rels| - 1], Occurrences(rels[|rels| - 1].models, name))
  }

  /** Each relationship appears under `name` exactly as often as `name` occurs in its models. */
  lemma {:induction false} RelationshipsOfCount(rels: seq<Relationship>, name: string)
    ensures |RelationshipsOf(rels, name)| == SumOccurrences(rels, name)
    decreases |rels|
  {
    if |rels| > 0 {
      RelationshipsOfCount(rels[..|rels| - 1], name);
    }
  }

  function SumOccurrences(rels: seq<Relationship>, name: string): nat
    decreases |rels|
  {
    if |rels| == 0 then 0
    else SumOccurrences(rels[..|rels| - 1], name) + Occurrences(rels[|rels| - 1].models, name)
  }

  /** A relationship whose models do not mention `name` adds nothing under `name`. */
  lemma {:induction false} RelationshipsOfUnrelated(rels: seq<Relationship>, name: string)
    requires forall i :: 0 <= i < |rels| ==> name !in rels[i].models
    ensures RelationshipsOf(rels, name) == []
    decreases |rels|
  {
    if |rels| > 0 {
      RelationshipsOfUnrelated(rels[..|rels| - 1], name);
      OccurrencesAbsent(rels[|rels| - 1].models, name);
    }
  }

  lemma {:induction false} OccurrencesAbsent(models: seq<string>, name: string)
    requires name !in models
    ensures Occurrences(models, name) == 0
    decreases |models|
  {
    if |models| > 0 {
      OccurrencesAbsent(models[1..], name);
    }
  }

  /** The lines of a chunk: header, column lines, the primary key line if any, relationship lines. */
  function ChunkLines(doc: SchemaDoc, m: Model): (ls: seq<string>)
    ensures |ls| == 1 + |m.columns| + (if m.primaryKey != "" then 1 else 0)
                     + |RelationshipsOf(doc.relationships, ModelName(m))|
    ensures ls[0] == Header(doc, m)
    ensures forall i :: 0 <= i < |m.columns| ==> ls[1 + i] == ColumnLine(m.columns[i])
    ensures m.primaryKey != "" ==> ls[1 + |m.columns|] == "Primary Key: " + m.primaryKey
  {
    var rels := RelationshipsOf(doc.relationships, ModelName(m));
    [Header(doc, m)]
    + seq(|m.columns|, i requires 0 <= i < |m.columns| => ColumnLine(m.columns[i]))
    + (if m.primaryKey != "" then ["Primary Key: " + m.primaryKey] else [])
    + seq(|rels|, i requires 0 <= i < |rels| => RelationshipLine(rels[i]))
  }

  function Chunk(doc: SchemaDoc, m: Model): string {
    Text.Join(ChunkLines(doc, m), "\n")
  }

  /** A chunk begins with the table line and the catalog/schema/table line. */
  lemma ChunkStartsWithHeader(doc: SchemaDoc, m: Model)
    ensures Text.StartsWith(Chunk(doc, m), "Table: " + ModelName(m) + "\nCatalog: ")
  {
    var ls := ChunkLines(doc, m);
    var h := Header(doc, m);
    assert Text.StartsWith(h, "Table: " + ModelName(m) + "\nCatalog: ");
    if |ls| > 1 {
      assert Chunk(doc, m) == h + "\n" + Text.Join(ls[1..], "\n");
    }
  }

  /** The entry of `lookup` under `n`, with `[]` for a missing key. */
  function Filed(lookup: map<string, seq<Relationship>>, n: string): seq<Relationship> {
    if n in lookup then lookup[n] else []
  }

  /** The `rel_lookup` loop of `parse_schema_json`. */
  method BuildRelationshipLookup(rels: seq<Relationship>) returns (lookup: map<string, seq<Relationship>>)
    ensures forall n :: Filed(lookup, n) == RelationshipsOf(rels, n)
  {
    lookup := map[];
    var r := 0;
    while r < |rels|
      invariant 0 <= r <= |rels|
      invariant forall n :: Filed(lookup, n) == RelationshipsOf(rels[..r], n)
    {
      assert rels[..r + 1][..r] == rels[..r];
      lookup := FileRelationship(lookup, rels[r]);
      r := r + 1;
    }
    assert rels[..r] == rels;
  }

  /** One pass of the inner loop: `rel` appended under each model it names. */
  method FileRelationship(lookup: map<string, seq<Relationship>>, rel: Relationship)
    returns (after: map<string, seq<Relationship>>)
    ensures forall n :: Filed(after, n) == Filed(lookup, n) + Repeat(rel, Occurrences(rel.models, n))
  {
    after := lookup;
    var k := 0;
    while k < |rel.models|
      invariant 0 <= k <= |rel.models|
      invariant forall n :: Filed(after, n) == Filed(lookup, n) + Repeat(rel, Occurrences(rel.models[..k], n))
    {
      OccurrencesSnoc(rel.models, k);
      var model := rel.models[k];
      RepeatSnoc(rel, Occurrences(rel.models[..k], model));
      after := after[model := Filed(after, model) + [rel]];
      k := k + 1;
    }
    assert rel.models[..k] == rel.models;
  }

  lemma RepeatSnoc<T>(x: T, n: nat)
    ensures Repeat(x, n + 1) == Repeat(x, n) + [x]
  {
  }

  /** The chunk of one model, given the filled relationship lookup. */
  method BuildChunk(doc: SchemaDoc, model: Model, lookup: map<string, seq<Relationship>>) returns (chunk: string)
    requires forall n :: Filed(lookup, n) == RelationshipsOf(doc.relationships, n)
    ensures chunk == Chunk(doc, model)
  {
    var columnLines := BuildColumnLines(model.columns);
    var lines := [Header(doc, model)] + columnLines;
    if model.primaryKey != "" {
      lines := lines + ["Primary Key: " + model.primaryKey];
    }
    var relationshipLines := BuildRelationshipLines(Filed(lookup, ModelName(model)));
    lines := lines + relationshipLines;
    assert Filed(lookup, ModelName(model)) == RelationshipsOf(doc.relationships, ModelName(model));
    assert lines == ChunkLines(doc, model);
    chunk := Text.Join(lines, "\n");
  }

  /** The loop adding one line per column. */
  method BuildColumnLines(columns: seq<ModelColumn>) returns (lines: seq<string>)
    ensures lines == seq(|columns|, j requires 0 <= j < |columns| => ColumnLine(columns[j]))
  {
    lines := [];
    var c := 0;
    while c < |columns|
      invariant 0 <= c <= |columns|
      invariant lines == seq(c, j requires 0 <= j < c => ColumnLine(columns[j]))
    {
      lines := lines + [ColumnLine(columns[c])];
      c := c + 1;
    }
  }

  /** The loop adding one line per relationship filed under the model. */
  method BuildRelationshipLines(rels: seq<Relationship>) returns (lines: seq<string>)
    ensures lines == seq(|rels|, j requires 0 <= j < |rels| => RelationshipLine(rels[j]))
  {
    lines := [];
    var q := 0;
    while q < |rels|
      invariant 0 <= q <= |rels|
      invariant lines == seq(q, j requires 0 <= j < q => RelationshipLine(rels[j]))
    {
      lines := lines + [RelationshipLine(rels[q])];
      q := q + 1;
    }
  }

  /** `parse_schema_json`: one chunk per model, in model order. */
  method ParseSchemaJson(doc: SchemaDoc) returns (chunks: seq<string>)
    ensures |chunks| == |doc.models|
    ensures forall i :: 0 <= i < |chunks| ==> chunks[i] == Chunk(doc, doc.models[i])
  {
    var lookup := BuildRelationshipLookup(doc.relationships);
    chunks := [];
    var i := 0;
    while i < |doc.models|
      invariant 0 <= i <= |doc.models|
      invariant |chunks| == i
      invariant forall j :: 0 <= j < i ==> chunks[j] == Chunk(doc, doc.models[j])
    {
      var chunk := BuildChunk(doc, doc.models[i], lookup);
      chunks := chunks + [chunk];
      i := i + 1;
    }
  }

  lemma OccurrencesSnoc(models: seq<string>, k: nat)
    requires k < |models|
    ensures forall n :: Occurrences(models[..k + 1], n) == Occurrences(models[..k], n) + (if models[k] == n then 1 else 0)
  {
    forall n ensures Occurrences(models[..k + 1], n) == Occurrences(models[..k], n) + (if models[k] == n then 1 else 0) {
      OccurrencesAppend(models[..k], [models[k]], n);
      assert models[..k + 1] == models[..k] + [models[k]];
    }
  }

  lemma {:induction false} OccurrencesAppend(a: seq<string>, b: seq<string>, n: string)
    ensures Occurrences(a + b, n) == Occurrences(a, n) + Occurrences(b, n)
    decreases |a|
  {
    if |a| > 0 {
      assert (a + b)[1..] == a[1..] + b;
      OccurrencesAppend(a[1..], b, n);
    } else {
      assert a + b == b;
    }
  }
}
