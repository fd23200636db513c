/**
 * The flow registry service (app/services/flow_registry.py): read-only
 * queries over the flow registry, flow-name validation and statistics.
 * The registry is the value `FlowBase.Registry`; nothing here changes it.
 */
module FlowRegistry {
  import opened Wrappers
  import opened FlowBase
  import Text

  /** `FlowInfo`; its `parameters` are always None and are not kept. */
  datatype FlowInfo = FlowInfo(name: string, description: string)

  /** `FlowRegistration`; only its name is read. */
  datatype FlowRegistration = FlowRegistration(name: string, description: string, flowClass: string)

  /** The information of the flow registered under `name`: the key and the instance's description. */
  function Info(r: Registry, name: string): FlowInfo
    requires ValidRegistry(r) && name in r.classes
  {
    FlowInfo(name, Instantiate(r, name).flowDescription)
  }

  /** `register_flow`: only checks the name; the registry is a value and is returned as it was. */
  function RegisterFlow(r: Registry, reg: FlowRegistration): (accepted: bool)
    requires ValidRegistry(r)
    ensures accepted <==> reg.name !in r.names
  {
    reg.name !in r.classes
  }

  /** The information `get_all_flows` collects, one entry per registry key, in registry order. */
  function AllInfo(r: Registry): seq<FlowInfo>
    requires ValidRegistry(r)
  {
    seq(|r.names|, i requires 0 <= i < |r.names| => Info(r, r.names[i]))
  }

  /** `get_all_flows`: the loop appending one entry per registry key. */
  method GetAllFlows(r: Registry) returns (infos: seq<FlowInfo>)
    requires ValidRegistry(r)
    ensures infos == AllInfo(r)
  {
    infos := [];
    var i := 0;
    while i < |r.names|
      invariant 0 <= i <= |r.names|
      invariant infos == AllInfo(r)[..i]
    {
      infos := infos + [Info(r, r.names[i])];
      i := i + 1;
    }
  }

  /** `get_flow_by_name`: None for an unregistered name. */
  function GetFlowByName(r: Registry, name: string): (f: Option<FlowInfo>)
    requires ValidRegistry(r)
    ensures f.None? <==> name !in r.names
    ensures f.Some? ==> f.value.name == name
  {
    if name !in r.classes then None else Some(Info(r, name))
  }

  /** `list_flow_names`: the keys, in insertion order. */
  function ListFlowNames(r: Registry): seq<string> {
    r.names
  }

  /** `flow_exists` */
  predicate FlowExists(r: Registry, name: string) {
    name in r.classes
  }

  /** `get_flow_count`: the number of entries of the dictionary. */
  function GetFlowCount(r: Registry): nat {
    |r.classes|
  }

  /** `get_flows_by_category`: the argument is ignored. */
  method GetFlowsByCategory(r: Registry, category: Option<string>) returns (infos: seq<FlowInfo>)
    requires ValidRegistry(r)
    ensures infos == AllInfo(r)
  {
    infos := GetAllFlows(r);
  }

  /** The listed names, the lookups and the full listing agree entry by entry. */
  lemma QueriesAgree(r: Registry)
    requires ValidRegistry(r)
    ensures |AllInfo(r)| == |ListFlowNames(r)|
    ensures forall i :: 0 <= i < |ListFlowNames(r)| ==>
              FlowExists(r, ListFlowNames(r)[i]) && GetFlowByName(r, ListFlowNames(r)[i]) == Some(AllInfo(r)[i])
    ensures forall name :: FlowExists(r, name) <==> GetFlowByName(r, name).Some?
  {
  }

  /** The set of a sequence without repetitions has as many elements as the sequence. */
  lemma {:induction false} DistinctCard(names: seq<string>)
    requires Distinct(names)
    ensures |set n | n in names| == |names|
    decreases |names|
  {
    if names != [] {
      var front := names[..|names| - 1];
      var last := names[|names| - 1];
      assert Distinct(front);
      DistinctCard(front);
      assert (set n | n in names) == (set n | n in front) + {last};
      assert last !in (set n | n in front);
    }
  }

  /** The count is the number of listed names. */
  lemma CountIsListed(r: Registry)
    requires ValidRegistry(r)
    ensures GetFlowCount(r) == |ListFlowNames(r)| == |AllInfo(r)|
  {
    DistinctCard(r.names);
    assert r.classes.Keys == set n | n in r.names;
  }

  // ---------------------------------------------------------------------------
  // validate_flow_name: re.match(r'^[a-z][a-z0-9_]*$', name)

  predicate IsLowerLetter(c: char) { 'a' <= c <= 'z' }

  predicate IsNameChar(c: char) { 'a' <= c <= 'z' || '0' <= c <= '9' || c == '_' }

  /** Where the run of `[a-z0-9_]` characters starting at `i` ends. */
  function NameRunEnd(s: string, i: nat): (e: nat)
    requires i <= |s|
    ensures i <= e <= |s|
    ensures forall k :: i <= k < e ==> IsNameChar(s[k])
    ensures e == |s| || !IsNameChar(s[e])
    decreases |s| - i
  {
    if i < |s| && IsNameChar(s[i]) then NameRunEnd(s, i + 1) else i
  }

  /** Python's `$` without MULTILINE: at the end, or just before a newline that ends the string. */
  predicate DollarAt(s: string, e: nat) {
    e == |s| || (e == |s| - 1 && s[e] == '\n')
  }

  /** `validate_flow_name`, as written: a greedy `[a-z0-9_]*` after the first letter, then `$`. */
  predicate ValidateFlowName(name: string) {
    |name| >= 1 && IsLowerLetter(name[0]) && DollarAt(name, NameRunEnd(name, 1))
  }

  /** What the comment beside the pattern asks for: a lower-case letter, then letters, digits and underscores only. */
  predicate IsFlowName(name: string) {
    |name| >= 1 && IsLowerLetter(name[0]) && forall i :: 1 <= i < |name| ==> IsNameChar(name[i])
  }

  /** The pattern accepts exactly the proper names and the proper names followed by one newline. */
  lemma ValidateFlowNameMeaning(name: string)
    ensures ValidateFlowName(name) <==>
              IsFlowName(name) || (|name| >= 2 && name[|name| - 1] == '\n' && IsFlowName(name[..|name| - 1]))
  {
    if |name| >= 1 && IsLowerLetter(name[0]) {
      var e := NameRunEnd(name, 1);
      if |name| >= 2 && name[|name| - 1] == '\n' && IsFlowName(name[..|name| - 1]) {
        assert forall k :: 1 <= k < |name| - 1 ==> name[k] == name[..|name| - 1][k];
        assert e == |name| - 1;
      }
      if IsFlowName(name) {
        assert e == |name|;
      }
      if DollarAt(name, e) && e == |name| - 1 {
        assert forall k :: 1 <= k < |name| - 1 ==> name[..|name| - 1][k] == name[k];
      }
    }
  }

  /** A name with a trailing newline passes the check as written. */
  lemma TrailingNewlineAccepted()
    ensures ValidateFlowName("qa\n") && !IsFlowName("qa\n")
  {
    assert NameRunEnd("qa\n", 1) == 2;
  }

  /** A proper flow name never holds a newline, and the check as written accepts every proper name. */
  lemma IsFlowNameSound(name: string)
    ensures IsFlowName(name) ==> '\n' !in name && ValidateFlowName(name)
  {
    ValidateFlowNameMeaning(name);
  }

  // ---------------------------------------------------------------------------
  // get_flow_statistics

  predicate IsSqlName(f: string) { Text.Contains(Text.Lower(f), "sql") }

  predicate IsQaName(f: string) { Text.Contains(Text.Lower(f), "qa") || Text.Contains(Text.Lower(f), "general") }

  predicate IsOtherName(f: string) {
    !Text.Contains(Text.Lower(f), "sql") && !Text.Contains(Text.Lower(f), "qa") && !Text.Contains(Text.Lower(f), "general")
  }

  /** A name matching some keyword. */
  predicate IsCategorised(f: string) { IsSqlName(f) || IsQaName(f) }

  /** `len([f for f in names if p(f)])` */
  function CountIf(names: seq<string>, p: string -> bool): nat
    decreases |names|
  {
    if names == [] then 0 else (if p(names[0]) then 1 else 0) + CountIf(names[1..], p)
  }

  datatype Categories = Categories(textToSql: nat, generalQa: nat, other: nat)

  datatype Statistics = Statistics(totalFlows: nat, flowNames: seq<string>, categories: Categories)

  /** `get_flow_statistics` */
  function GetFlowStatistics(r: Registry): Statistics {
    var names := r.names;
    Statistics(|r.classes|, names,
               Categories(CountIf(names, IsSqlName), CountIf(names, IsQaName), CountIf(names, IsOtherName)))
  }

  /** Each name is either in the "other" count or matches a keyword, never both. */
  lemma {:induction false} OtherIsRest(names: seq<string>)
    ensures CountIf(names, IsOtherName) + CountIf(names, IsCategorised) == |names|
    decreases |names|
  {
    if names != [] {
      OtherIsRest(names[1..]);
    }
  }

  /** A name matching a keyword is in the "text_to_sql" or the "general_qa" count, or both. */
  lemma {:induction false} CategoriesCover(names: seq<string>)
    ensures CountIf(names, IsSqlName) + CountIf(names, IsQaName) >= CountIf(names, IsCategorised)
    decreases |names|
  {
    if names != [] {
      CategoriesCover(names[1..]);
    }
  }

  /**
   * The "other" count is the total less the names matching a keyword, so the
   * three counts together are at least the total.
   */
  lemma StatisticsCounts(r: Registry)
    requires ValidRegistry(r)
    ensures var s := GetFlowStatistics(r);
            s.totalFlows == |s.flowNames|
            && s.categories.other == s.totalFlows - CountIf(r.names, IsCategorised)
            && s.categories.textToSql + s.categories.generalQa + s.categories.other >= s.totalFlows
  {
    CountIsListed(r);
    OtherIsRest(r.names);
    CategoriesCover(r.names);
  }

  /** A name matching both the SQL and the QA keywords. */
  predicate IsBothNames(f: string) { IsSqlName(f) && IsQaName(f) }

  /**
   * The categories overlap: the three counts add up to the total plus the
   * number of names matching both keywords, each of which is counted twice.
   */
  lemma {:induction false} CategoriesOverlap(names: seq<string>)
    ensures CountIf(names, IsSqlName) + CountIf(names, IsQaName) + CountIf(names, IsOtherName)
         == |names| + CountIf(names, IsBothNames)
    decreases |names|
  {
    if names != [] {
      CategoriesOverlap(names[1..]);
    }
  }

  /** "sql_qa" is such a name. */
  lemma SqlQaCountedTwice()
    ensures IsBothNames("sql_qa")
  {
    assert Text.Lower("sql_qa") == "sql_qa";
    assert Text.OccursAt("sql_qa", "sql", 0);
    assert Text.OccursAt("sql_qa", "qa", 4);
  }
}
