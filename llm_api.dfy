/**
 * Parsing of model replies (app/models/llm_api.py): JSON with three
 * fallbacks, the SQL of a reply, and the sentence naming an error.
 * `json.loads` is the parameter `decode` (None for a decode error).
 * A response dictionary is modelled by its string entries.
 */
module LlmApi {
  import opened Wrappers
  import opened Json
  import opened Text
  import SqlFence

  // ---------------------------------------------------------------------------
  // parse_json_from_response

  /** The characters `strip('"{}')` removes. */
  const QuoteBraces: set<char> := {'"', '{', '}'}

  /** The pair one line gives the key:value fallback, if any. */
  function KeyValueLine(line: string): (kv: Option<(string, string)>)
    ensures kv.Some? ==> kv.value.0 != "" && kv.value.1 != ""
  {
    var l := Strip(line);
    var c := FindChar(l, ':');
    if c < 0 then None
    else
      var key := StripSet(Strip(l[..c]), QuoteBraces);
      var value := StripSet(Strip(l[c + 1..]), QuoteBraces);
      if key != "" && value != "" then Some((key, value)) else None
  }

  /** `result[key] = value` for the pair a line gives, if it gives one. */
  function AddLine(ms: seq<Member>, line: string): seq<Member> {
    match KeyValueLine(line)
    case Some((k, v)) => Put(ms, k, JStr(v))
    case None => ms
  }

  /** The dictionary the key:value fallback builds from `lines`, in order. */
  function KeyValueOf(lines: seq<string>): seq<Member>
    decreases |lines|
  {
    if lines == [] then [] else AddLine(KeyValueOf(lines[..|lines| - 1]), lines[|lines| - 1])
  }

  /** The value the last line giving `key` gives it: the reference for what the fallback keeps. */
  function LastValue(lines: seq<string>, key: string): Option<string>
    decreases |lines|
  {
    if lines == [] then None
    else match KeyValueLine(lines[|lines| - 1])
      case Some((k, v)) => if k == key then Some(v) else LastValue(lines[..|lines| - 1], key)
      case None => LastValue(lines[..|lines| - 1], key)
  }

  /**
   * The fallback keeps a key exactly when some line gives it, with the value
   * of the last such line; keys and values are never empty.
   */
  lemma {:induction false} KeyValueOfMeaning(lines: seq<string>, key: string)
    ensures Get(KeyValueOf(lines), key) == (match LastValue(lines, key) case Some(v) => Some(JStr(v)) case None => None)
    ensures LastValue(lines, key).Some? ==> key != "" && LastValue(lines, key).value != ""
    decreases |lines|
  {
    if lines != [] {
      KeyValueOfMeaning(lines[..|lines| - 1], key);
    }
  }

  /** The key:value loop: the dictionary filled line by line. */
  method KeyValuePairs(lines: seq<string>) returns (result: seq<Member>)
    ensures result == KeyValueOf(lines)
  {
    result := [];
    var i := 0;
    while i < |lines|
      invariant 0 <= i <= |lines|
      invariant result == KeyValueOf(lines[..i])
    {
      assert lines[..i + 1][..i] == lines[..i];
      result := AddLine(result, lines[i]);
      i := i + 1;
    }
    assert lines[..i] == lines;
  }

  /**
   * The body the ```json block hands to `json.loads`: the lazy group between
   * the opener's whitespace and the closing fence's, which is the block's body stripped.
   */
  function JsonBlock(text: string): Option<string> {
    match SqlFence.Fenced(text, "```json")
    case Some(inner) => Some(Strip(inner))
    case None => None
  }

  /** The span from the first "{" to the last "}", when the last comes after the first. */
  function BraceSpan(text: string): Option<string> {
    var start := FindChar(text, '{');
    var end := RFindChar(text, '}');
    if start != -1 && end != -1 && end > start then Some(text[start..end + 1]) else None
  }

  /** What `parse_json_from_response` returns, stage by stage. */
  function ParseJson(text: string, decode: string -> Option<Json>): Json {
    if text == "" then JObj([])
    else if JsonBlock(text).Some? && decode(JsonBlock(text).value).Some? then decode(JsonBlock(text).value).value
    else if BraceSpan(text).Some? && decode(BraceSpan(text).value).Some? then decode(BraceSpan(text).value).value
    else JObj(KeyValueOf(Split(Strip(text), '\n')))
  }

  /** `parse_json_from_response` */
  method ParseJsonFromResponse(text: string, decode: string -> Option<Json>) returns (r: Json)
    ensures r == ParseJson(text, decode)
  {
    if text == "" {
      return JObj([]);
    }
    var block := JsonBlock(text);
    if block.Some? && decode(block.value).Some? {
      return decode(block.value).value;
    }
    var span := BraceSpan(text);
    if span.Some? && decode(span.value).Some? {
      return decode(span.value).value;
    }
    var pairs := KeyValuePairs(Split(Strip(text), '\n'));
    r := JObj(pairs);
  }

  /** A ```json block whose body decodes wins over every later stage. */
  lemma FencedJsonFirst(pre: string, body: string, post: string, decode: string -> Option<Json>)
    requires '`' !in pre && '`' !in body && decode(Strip(body)).Some?
    ensures ParseJson(pre + "```json" + body + "```" + post, decode) == decode(Strip(body)).value
  {
    var text := pre + "```json" + body + "```" + post;
    JsonOpenerLower();
    SqlFence.FencedOfMessage("```json", pre, body, post);
    assert JsonBlock(text) == Some(Strip(body));
    BlockDecodes(text, decode);
  }

  lemma JsonOpenerLower()
    ensures Lower("```json") == "```json"
  {
    SqlFence.OpenerLower("```json");
  }

  /** A non-empty text whose ```json block decodes gives the decoded block. */
  lemma BlockDecodes(text: string, decode: string -> Option<Json>)
    requires JsonBlock(text).Some? && decode(JsonBlock(text).value).Some?
    ensures ParseJson(text, decode) == decode(JsonBlock(text).value).value
  {
  }

  /** Text with no ```json block and no braces is read line by line. */
  lemma PlainTextIsKeyValues(text: string, decode: string -> Option<Json>)
    requires text != "" && SqlFence.Fenced(text, "```json").None? && '{' !in text
    ensures ParseJson(text, decode) == JObj(KeyValueOf(Split(Strip(text), '\n')))
  {
    assert FindChar(text, '{') == -1;
    assert BraceSpan(text).None?;
  }

  /** Text that fails the two decoding stages is read line by line (see `KeyValueOfMeaning` for what that keeps). */
  lemma FallbackDictionary(text: string, decode: string -> Option<Json>)
    requires text != ""
    requires JsonBlock(text).None? || decode(JsonBlock(text).value).None?
    requires BraceSpan(text).None? || decode(BraceSpan(text).value).None?
    ensures ParseJson(text, decode) == JObj(KeyValueOf(Split(Strip(text), '\n')))
  {
  }

  // ---------------------------------------------------------------------------
  // extract_sql_from_response

  /** The statement keywords both extraction and validation look for. */
  const StatementKeywords: seq<string> := ["SELECT", "INSERT", "UPDATE", "DELETE", "CREATE", "DROP", "ALTER"]

  /** `any(keyword in s for keyword in StatementKeywords)` */
  predicate HasStatementKeyword(s: string) {
    exists k :: 0 <= k < |StatementKeywords| && Contains(s, StatementKeywords[k])
  }

  /** `response.get("Message", "")` */
  function MessageOf(response: map<string, string>): string {
    if "Message" in response then response["Message"] else ""
  }

  /** `f(line)` for each line whose image `p` accepts, in order. */
  function Kept(lines: seq<string>, f: string -> string, p: string -> bool): seq<string>
    decreases |lines|
  {
    if lines == [] then []
    else
      var line := f(lines[|lines| - 1]);
      Kept(lines[..|lines| - 1], f, p) + (if p(line) then [line] else [])
  }

  /** A text is kept exactly when it is the image of some line and is accepted. */
  lemma {:induction false} KeptMeaning(lines: seq<string>, f: string -> string, p: string -> bool, x: string)
    ensures x in Kept(lines, f, p) <==> p(x) && exists i :: 0 <= i < |lines| && x == f(lines[i])
    decreases |lines|
  {
    if lines != [] {
      var front := lines[..|lines| - 1];
      KeptMeaning(front, f, p, x);
      if exists i :: 0 <= i < |front| && x == f(front[i]) {
        var i :| 0 <= i < |front| && x == f(front[i]);
        assert x == f(lines[i]);
      }
      if exists i :: 0 <= i < |lines| && x == f(lines[i]) {
        var i :| 0 <= i < |lines| && x == f(lines[i]);
        if i < |front| {
          assert x == f(front[i]);
        }
      }
    }
  }

  predicate IsKeywordLine(line: string) {
    HasStatementKeyword(Upper(line))
  }

  /** The stripped lines whose upper-case form holds a statement keyword, in order. */
  function KeywordLines(lines: seq<string>): seq<string> {
    Kept(lines, Strip, IsKeywordLine)
  }

  /** One more line extends the keyword lines by that line, stripped, when it holds a keyword. */
  lemma KeywordLinesSnoc(lines: seq<string>, i: nat)
    requires i < |lines|
    ensures KeywordLines(lines[..i + 1])
            == KeywordLines(lines[..i]) + (if IsKeywordLine(Strip(lines[i])) then [Strip(lines[i])] else [])
  {
    assert lines[..i + 1][..i] == lines[..i];
  }

  /** The loop collecting the keyword lines. */
  method CollectKeywordLines(message: string) returns (sqlLines: seq<string>)
    ensures sqlLines == KeywordLines(Split(message, '\n'))
  {
    var lines := Split(message, '\n');
    sqlLines := [];
    var i := 0;
    while i < |lines|
      invariant 0 <= i <= |lines|
      invariant sqlLines == KeywordLines(lines[..i])
    {
      KeywordLinesSnoc(lines, i);
      var line := Strip(lines[i]);
      if IsKeywordLine(line) {
        sqlLines := sqlLines + [line];
      }
      i := i + 1;
    }
    assert lines[..i] == lines;
  }

  /** The SQL of a message: the stripped ```sql block, else the keyword lines joined by spaces, else the message stripped. */
  function SqlOfMessage(message: string): string {
    if message == "" then ""
    else match SqlFence.FencedSql(message)
      case Some(inner) => Strip(inner)
      case None =>
        var lines := KeywordLines(Split(message, '\n'));
        if lines != [] then Join(lines, " ") else Strip(message)
  }

  /** `extract_sql_from_response` (app/models/llm_api.py; app/utils/database_utils.py has the same code). */
  method ExtractSqlFromResponse(response: map<string, string>) returns (sql: string)
    ensures sql == SqlOfMessage(MessageOf(response))
  {
    var message := MessageOf(response);
    if message == "" {
      return "";
    }
    var fenced := SqlFence.FencedSql(message);
    if fenced.Some? {
      return Strip(fenced.value);
    }
    var sqlLines := CollectKeywordLines(message);
    if sqlLines != [] {
      return Join(sqlLines, " ");
    }
    sql := Strip(message);
  }

  /** A message with a ```sql block (in any letter case) gives the block's body, stripped. */
  lemma FencedSqlFirst(pre: string, body: string, post: string)
    requires '`' !in pre && '`' !in body
    ensures SqlOfMessage(pre + "```sql" + body + "```" + post) == Strip(body)
  {
    SqlFence.SqlOpenerLower();
    SqlFence.FencedOfMessage("```sql", pre, body, post);
  }

  /** Without a block and without keyword lines, the message comes back stripped. */
  lemma NoKeywordsGivesMessage(message: string)
    requires message != "" && SqlFence.FencedSql(message).None?
    requires forall i :: 0 <= i < |Split(message, '\n')| ==> !HasStatementKeyword(Upper(Strip(Split(message, '\n')[i])))
    ensures SqlOfMessage(message) == Strip(message)
  {
    var lines := Split(message, '\n');
    if KeywordLines(lines) != [] {
      KeptMeaning(lines, Strip, IsKeywordLine, KeywordLines(lines)[0]);
    }
  }

  // ---------------------------------------------------------------------------
  // extract_error_from_response

  const ErrorIndicators: seq<string> := ["error", "failed", "invalid", "incorrect", "syntax error"]

  /** The first sentence holding `indicator` (in any letter case), stripped. */
  function SentenceWith(sentences: seq<string>, indicator: string): (r: Option<string>)
    ensures r.None? <==> forall k :: 0 <= k < |sentences| ==> !Contains(Lower(sentences[k]), indicator)
    decreases |sentences|
  {
    if sentences == [] then None
    else if Contains(Lower(sentences[0]), indicator) then Some(Strip(sentences[0]))
    else
      var r := SentenceWith(sentences[1..], indicator);
      assert forall k :: 1 <= k < |sentences| ==> sentences[k] == sentences[1..][k - 1];
      r
  }

  /** The indicator search: for each indicator present in the message, the first sentence holding it. */
  function ErrorSearch(indicators: seq<string>, message: string): Option<string>
    decreases |indicators|
  {
    if indicators == [] then None
    else if Contains(Lower(message), indicators[0]) then
      match SentenceWith(Split(message, '.'), indicators[0])
      case Some(s) => Some(s)
      case None => ErrorSearch(indicators[1..], message)
    else ErrorSearch(indicators[1..], message)
  }

  /** `extract_error_from_response` */
  function ExtractErrorFromResponse(response: map<string, string>): Option<string> {
    ErrorSearch(ErrorIndicators, MessageOf(response))
  }

  /** Lower-casing a slice is slicing the lower-cased string. */
  lemma LowerSlice(s: string, a: nat, b: nat)
    requires a <= b <= |s|
    ensures Lower(s[a..b]) == Lower(s)[a..b]
  {
  }

  /** Some part, lower-cased, holds `sub`. */
  ghost predicate InSomePart(parts: seq<string>, sub: string) {
    exists k :: 0 <= k < |parts| && Contains(Lower(parts[k]), sub)
  }

  /** An occurrence of a text without "." lies inside one of the "."-separated parts. */
  lemma {:induction false} OccurrenceInSentence(s: string, sub: string)
    requires '.' !in sub && Contains(Lower(s), sub)
    ensures InSomePart(Split(s, '.'), sub)
    decreases |s|
  {
    var d := FindChar(s, '.');
    var p :| 0 <= p <= |Lower(s)| - |sub| && OccursAt(Lower(s), sub, p);
    if d < 0 {
      NoDotPart(s, sub);
    } else if p + |sub| <= d {
      OccursBefore(s, sub, p, d);
      FirstPart(s, sub, d);
    } else if p <= d {
      DotInside(s, sub, p, d);
    } else {
      OccursAfter(s, sub, p, d);
      OccurrenceInSentence(s[d + 1..], sub);
      LaterPart(s, sub, d);
    }
  }

  lemma NoDotPart(s: string, sub: string)
    requires FindChar(s, '.') < 0 && Contains(Lower(s), sub)
    ensures InSomePart(Split(s, '.'), sub)
  {
    assert Split(s, '.') == [s];
    assert Contains(Lower(Split(s, '.')[0]), sub);
  }

  lemma FirstPart(s: string, sub: string, d: int)
    requires d == FindChar(s, '.') && d >= 0 && Contains(Lower(s[..d]), sub)
    ensures InSomePart(Split(s, '.'), sub)
  {
    assert Split(s, '.')[0] == s[..d];
  }

  lemma LaterPart(s: string, sub: string, d: int)
    requires d == FindChar(s, '.') && d >= 0 && InSomePart(Split(s[d + 1..], '.'), sub)
    ensures InSomePart(Split(s, '.'), sub)
  {
    var rest := Split(s[d + 1..], '.');
    assert Split(s, '.') == [s[..d]] + rest;
    var k :| 0 <= k < |rest| && Contains(Lower(rest[k]), sub);
    assert Split(s, '.')[k + 1] == rest[k];
  }

  lemma OccursBefore(s: string, sub: string, p: nat, d: nat)
    requires d <= |s| && OccursAt(Lower(s), sub, p) && p + |sub| <= d
    ensures Contains(Lower(s[..d]), sub)
  {
    LowerSlice(s, 0, d);
    assert Lower(s[..d])[p..p + |sub|] == Lower(s)[p..p + |sub|];
    assert OccursAt(Lower(s[..d]), sub, p);
  }

  lemma DotInside(s: string, sub: string, p: nat, d: nat)
    requires d < |s| && s[d] == '.' && OccursAt(Lower(s), sub, p) && p <= d < p + |sub|
    ensures '.' in sub
  {
    assert Lower(s)[d] == '.';
    assert sub[d - p] == Lower(s)[p..p + |sub|][d - p];
  }

  lemma OccursAfter(s: string, sub: string, p: nat, d: nat)
    requires d < p && OccursAt(Lower(s), sub, p)
    ensures Contains(Lower(s[d + 1..]), sub)
  {
    var rest := s[d + 1..];
    LowerSlice(s, d + 1, |s|);
    assert Lower(rest)[p - d - 1..p - d - 1 + |sub|] == Lower(s)[p..p + |sub|];
    assert OccursAt(Lower(rest), sub, p - d - 1);
  }

  /** An indicator present in the message is always found in some sentence. */
  lemma {:induction false} ErrorSearchFinds(indicators: seq<string>, message: string)
    requires forall k :: 0 <= k < |indicators| ==> '.' !in indicators[k]
    ensures ErrorSearch(indicators, message).Some? <==>
              exists k :: 0 <= k < |indicators| && Contains(Lower(message), indicators[k])
    ensures forall k :: (0 <= k < |indicators| && Contains(Lower(message), indicators[k])
                         && (forall j :: 0 <= j < k ==> !Contains(Lower(message), indicators[j]))) ==>
              ErrorSearch(indicators, message) == SentenceWith(Split(message, '.'), indicators[k])
    decreases |indicators|
  {
    if indicators != [] {
      ErrorSearchFinds(indicators[1..], message);
      if Contains(Lower(message), indicators[0]) {
        OccurrenceInSentence(message, indicators[0]);
        FirstIndicatorFound(indicators, message);
      } else {
        FirstIndicatorAbsent(indicators, message);
      }
    }
  }

  /** Some indicator of the list occurs in the message. */
  ghost predicate Present(indicators: seq<string>, message: string) {
    exists k :: 0 <= k < |indicators| && Contains(Lower(message), indicators[k])
  }

  /** Whatever indicator occurs first in the list decides the search. */
  ghost predicate FirstDecides(indicators: seq<string>, message: string) {
    forall k :: (0 <= k < |indicators| && Contains(Lower(message), indicators[k])
                 && (forall j :: 0 <= j < k ==> !Contains(Lower(message), indicators[j]))) ==>
      ErrorSearch(indicators, message) == SentenceWith(Split(message, '.'), indicators[k])
  }

  /** A first indicator in the message is found in some sentence, and it decides. */
  lemma FirstIndicatorFound(indicators: seq<string>, message: string)
    requires indicators != [] && Contains(Lower(message), indicators[0])
    requires InSomePart(Split(message, '.'), indicators[0])
    ensures ErrorSearch(indicators, message).Some? && Present(indicators, message)
    ensures FirstDecides(indicators, message)
  {
    FirstIndicatorSentence(indicators, message);
    forall k | 0 <= k < |indicators| && Contains(Lower(message), indicators[k])
               && (forall j :: 0 <= j < k ==> !Contains(Lower(message), indicators[j]))
      ensures ErrorSearch(indicators, message) == SentenceWith(Split(message, '.'), indicators[k])
    {
      if k > 0 {
        assert false;
      }
    }
    assert 0 < |indicators| && Contains(Lower(message), indicators[0]);
  }

  lemma FirstIndicatorSentence(indicators: seq<string>, message: string)
    requires indicators != [] && Contains(Lower(message), indicators[0])
    requires InSomePart(Split(message, '.'), indicators[0])
    ensures SentenceWith(Split(message, '.'), indicators[0]).Some?
    ensures ErrorSearch(indicators, message) == SentenceWith(Split(message, '.'), indicators[0])
  {
    var parts := Split(message, '.');
    var k :| 0 <= k < |parts| && Contains(Lower(parts[k]), indicators[0]);
    assert SentenceWith(parts, indicators[0]).Some?;
  }

  /** A first indicator missing from the message: the search goes on with the rest. */
  lemma FirstIndicatorAbsent(indicators: seq<string>, message: string)
    requires indicators != [] && !Contains(Lower(message), indicators[0])
    requires ErrorSearch(indicators[1..], message).Some? <==> Present(indicators[1..], message)
    requires FirstDecides(indicators[1..], message)
    ensures ErrorSearch(indicators, message).Some? <==> Present(indicators, message)
    ensures FirstDecides(indicators, message)
  {
    forall k | 1 <= k < |indicators| ensures indicators[k] == indicators[1..][k - 1] { }
    assert ErrorSearch(indicators, message) == ErrorSearch(indicators[1..], message);
  }

  /**
   * An error is reported exactly when the message holds an indicator; it is
   * the stripped first sentence holding the first indicator, in list order, the message holds.
   */
  lemma ExtractErrorMeaning(response: map<string, string>)
    ensures ExtractErrorFromResponse(response).Some? <==>
              exists k :: 0 <= k < |ErrorIndicators| && Contains(Lower(MessageOf(response)), ErrorIndicators[k])
    ensures forall k :: (0 <= k < |ErrorIndicators| && Contains(Lower(MessageOf(response)), ErrorIndicators[k])
                         && (forall j :: 0 <= j < k ==> !Contains(Lower(MessageOf(response)), ErrorIndicators[j]))) ==>
              ExtractErrorFromResponse(response) == SentenceWith(Split(MessageOf(response), '.'), ErrorIndicators[k])
  {
    forall k | 0 <= k < |ErrorIndicators| ensures '.' !in ErrorIndicators[k] { }
    ErrorSearchFinds(ErrorIndicators, MessageOf(response));
  }
}
