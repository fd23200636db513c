/**
 * Query helpers (app/utils/database_utils.py): the basic syntax check of a
 * query and the shaping of a result table for the API. Its
 * `extract_sql_from_response` is the same code as the one in
 * app/models/llm_api.py and is `LlmApi.ExtractSqlFromResponse`.
 */
module DatabaseUtils {
  import opened Wrappers
  import opened Json
  import opened Text
  import LlmApi

  // ---------------------------------------------------------------------------
  // validate_sql_syntax

  const NoStatement := "No valid SQL statement found"
  const Unbalanced := "Unbalanced parentheses"
  const MissingSemicolon := "Missing semicolon at end of statement"

  /** The dictionary `validate_sql_syntax` returns. */
  datatype Validation = Validation(isValid: bool, errors: seq<string>, warnings: seq<string>)

  /** The check: errors for a missing statement keyword and for unequal counts of "(" and ")", a warning for no final ";". */
  method ValidateSqlSyntax(query: string) returns (v: Validation)
    ensures v.isValid <==> v.errors == []
    ensures v.isValid <==> LlmApi.HasStatementKeyword(Upper(query)) && Count(query, '(') == Count(query, ')')
    ensures |v.errors| == (if LlmApi.HasStatementKeyword(Upper(query)) then 0 else 1)
                          + (if Count(query, '(') == Count(query, ')') then 0 else 1)
    ensures !LlmApi.HasStatementKeyword(Upper(query)) ==> v.errors[0] == NoStatement
    ensures Count(query, '(') != Count(query, ')') ==> v.errors[|v.errors| - 1] == Unbalanced
    ensures v.warnings == if EndsWith(Strip(query), ";") then [] else [MissingSemicolon]
  {
    v := Checks(LlmApi.HasStatementKeyword(Upper(query)), Count(query, '(') == Count(query, ')'),
                EndsWith(Strip(query), ";"));
  }

  /** The three checks' outcomes turned into the verdict, its errors in order and its warnings. */
  method Checks(hasKeyword: bool, balanced: bool, terminated: bool) returns (v: Validation)
    ensures v.isValid <==> v.errors == []
    ensures v.isValid <==> hasKeyword && balanced
    ensures |v.errors| == (if hasKeyword then 0 else 1) + (if balanced then 0 else 1)
    ensures !hasKeyword ==> v.errors[0] == NoStatement
    ensures !balanced ==> v.errors[|v.errors| - 1] == Unbalanced
    ensures v.warnings == if terminated then [] else [MissingSemicolon]
  {
    var errors: seq<string> := [];
    var warnings: seq<string> := [];
    var isValid := true;
    if !hasKeyword {
      errors := errors + [NoStatement];
      isValid := false;
    }
    if !balanced {
      errors := errors + [Unbalanced];
      isValid := false;
    }
    if !terminated {
      warnings := warnings + [MissingSemicolon];
    }
    v := Validation(isValid, errors, warnings);
  }

  /** `s.count(c)` over a concatenation. */
  lemma {:induction false} CountAppend(a: string, b: string, c: char)
    ensures Count(a + b, c) == Count(a, c) + Count(b, c)
    decreases |a|
  {
    if a == [] {
      assert a + b == b;
    } else {
      assert (a + b)[1..] == a[1..] + b;
      CountAppend(a[1..], b, c);
    }
  }

  /** A keyword (letters only) occurs in `q` followed by ";" exactly when it occurs in `q`. */
  lemma KeywordIgnoresSemicolon(q: string)
    ensures LlmApi.HasStatementKeyword(Upper(q + ";")) <==> LlmApi.HasStatementKeyword(Upper(q))
  {
    UpperSemicolon(q);
    forall k | 0 <= k < |LlmApi.StatementKeywords|
      ensures Contains(Upper(q) + ";", LlmApi.StatementKeywords[k]) <==> Contains(Upper(q), LlmApi.StatementKeywords[k])
    {
      assert LlmApi.StatementKeywords[k] != [] && ';' !in LlmApi.StatementKeywords[k];
      ContainsIgnoresSemicolon(Upper(q), LlmApi.StatementKeywords[k]);
    }
  }

  /** Upper-casing leaves a final ";" alone. */
  lemma UpperSemicolon(q: string)
    ensures Upper(q + ";") == Upper(q) + ";"
  {
  }

  /** A text without ";" occurs in `s` followed by ";" exactly when it occurs in `s`. */
  lemma ContainsIgnoresSemicolon(s: string, kw: string)
    requires kw != [] && ';' !in kw
    ensures Contains(s + ";", kw) <==> Contains(s, kw)
  {
    var u := s + ";";
    assert u[|s|] == ';';
    if Contains(u, kw) {
      var i :| 0 <= i <= |u| - |kw| && OccursAt(u, kw, i);
      if i + |kw| > |s| {
        assert false;
      }
      assert u[i..i + |kw|] == s[i..i + |kw|];
      assert OccursAt(s, kw, i);
    }
    if Contains(s, kw) {
      var i :| 0 <= i <= |s| - |kw| && OccursAt(s, kw, i);
      assert u[i..i + |kw|] == s[i..i + |kw|];
      assert OccursAt(u, kw, i);
    }
  }

  /** The final ";" only decides the warning: adding one never changes the errors or the verdict. */
  lemma SemicolonOnlyWarns(q: string)
    ensures var s := q + ";";
            (LlmApi.HasStatementKeyword(Upper(s)) <==> LlmApi.HasStatementKeyword(Upper(q)))
            && Count(s, '(') == Count(q, '(') && Count(s, ')') == Count(q, ')')
  {
    KeywordIgnoresSemicolon(q);
    CountAppend(q, ";", '(');
    CountAppend(q, ";", ')');
  }

  /**
   * Only the counts of parentheses are compared, not their nesting: appending
   * the misordered pair ")(" to any query leaves the balance check as it was,
   * so "SELECT )(" passes.
   */
  lemma CountsNotNesting(q: string)
    ensures Count(q + ")(", '(') == Count(q, '(') + 1 && Count(q + ")(", ')') == Count(q, ')') + 1
    ensures Count(q + ")(", '(') == Count(q + ")(", ')') <==> Count(q, '(') == Count(q, ')')
    ensures LlmApi.HasStatementKeyword(Upper("SELECT )(")) && Count("SELECT )(", '(') == Count("SELECT )(", ')')
  {
    CountAppend(q, ")(", '(');
    CountAppend(q, ")(", ')');
    assert Upper("SELECT )(")[0..6] == "SELECT";
    assert OccursAt(Upper("SELECT )("), LlmApi.StatementKeywords[0], 0);
  }

  // ---------------------------------------------------------------------------
  // format_query_results

  /** A result table: its column names and its rows, each with one value per column. */
  datatype Frame = Frame(columns: seq<string>, rows: seq<seq<Json>>)

  predicate WellShaped(df: Frame) {
    forall i :: 0 <= i < |df.rows| ==> |df.rows[i]| == |df.columns|
  }

  /** The dictionary `format_query_results` returns; `columns` is absent (None) for an empty table. */
  datatype Formatted = Formatted(status: string, data: seq<seq<Member>>, rowCount: nat, message: string,
                                 columns: Option<seq<string>>)

  /** `df.head(n)`: the first n rows, or all but the last -n when n is negative. */
  function Head<T>(rows: seq<T>, n: int): (r: seq<T>)
    ensures n >= 0 ==> r == rows[..if n < |rows| then n else |rows|]
    ensures n < 0 ==> r == rows[..if |rows| + n > 0 then |rows| + n else 0]
  {
    if n >= 0 then rows[..if n < |rows| then n else |rows|] else rows[..if |rows| + n > 0 then |rows| + n else 0]
  }

  /** One row as a record of column name and value (`to_dict(orient='records')`). */
  function Record(columns: seq<string>, row: seq<Json>): seq<Member>
    requires |row| == |columns|
  {
    seq(|columns|, i requires 0 <= i < |columns| => Member(columns[i], row[i]))
  }

  function Records(df: Frame, rows: seq<seq<Json>>): seq<seq<Member>>
    requires forall i :: 0 <= i < |rows| ==> |rows[i]| == |df.columns|
  {
    seq(|rows|, i requires 0 <= i < |rows| => Record(df.columns, rows[i]))
  }

  /** `df.empty`: no rows or no columns. */
  predicate Empty(df: Frame) {
    |df.rows| == 0 || |df.columns| == 0
  }

  /** `format_query_results(df, max_rows)` */
  function FormatQueryResults(df: Frame, maxRows: int): (f: Formatted)
    requires WellShaped(df)
    ensures f.status == "success"
    ensures Empty(df) ==> f == Formatted("success", [], 0, "Query returned no results", None)
    ensures !Empty(df) ==> f.rowCount == |df.rows| && f.columns == Some(df.columns)
    ensures !Empty(df) && maxRows >= 0 ==> |f.data| == if |df.rows| > maxRows then maxRows else |df.rows|
    ensures !Empty(df) ==> |f.data| <= |df.rows| && forall i :: 0 <= i < |f.data| ==> f.data[i] == Record(df.columns, df.rows[i])
    ensures !Empty(df) ==> (StartsWith(f.message, "Showing first ") <==> |df.rows| > maxRows)
  {
    if Empty(df) then Formatted("success", [], 0, "Query returned no results", None)
    else
      var shown := if |df.rows| > maxRows then Head(df.rows, maxRows) else df.rows;
      var message := if |df.rows| > maxRows
                     then "Showing first " + IntToString(maxRows) + " rows of " + IntToString(|df.rows|) + " total results"
                     else "Retrieved " + IntToString(|df.rows|) + " rows";
      assert !StartsWith("Retrieved " + IntToString(|df.rows|) + " rows", "Showing first ") by {
        assert ("Retrieved " + IntToString(|df.rows|) + " rows")[0] == 'R';
      }
      Formatted("success", Records(df, shown), |df.rows|, message, Some(df.columns))
  }

  /** A table of at most `maxRows` rows is returned whole. */
  lemma SmallTableWhole(df: Frame, maxRows: int)
    requires WellShaped(df) && !Empty(df) && |df.rows| <= maxRows
    ensures FormatQueryResults(df, maxRows).data == Records(df, df.rows)
    ensures FormatQueryResults(df, maxRows).message == "Retrieved " + IntToString(|df.rows|) + " rows"
  {
  }
}
