/**
 * The Markdown-fence handling of the text-to-SQL flow (app/flows/text_to_sql.py):
 * the two `re.sub` calls that clean a generated query, and the `re.search`
 * that pulls the body out of a ```sql block in an earlier message.
 * `\s` is Python's Unicode whitespace (`Text.Whitespace`).
 */
module SqlFence {
  import opened Wrappers
  import opened Text

  /** `re.sub(r'```sql\s*', '', s)`: every "```sql" and the whitespace after it removed, left to right. */
  function DropOpenFences(s: string): string
    decreases |s|
  {
    if |s| == 0 then s
    else if StartsWith(s, "```sql") then DropOpenFences(TrimLeft(s[6..], Whitespace))
    else [s[0]] + DropOpenFences(s[1..])
  }

  /** The length of the whitespace run `\s*` matches at the start of `s`. */
  function WsRun(s: string): (n: nat)
    ensures n <= |s| && AllIn(s[..n], Whitespace)
    ensures n == |s| || s[n] !in Whitespace
  {
    |s| - |TrimLeft(s, Whitespace)|
  }

  /** `\s*```` matches at the start of `s`. */
  predicate CloseFenceAt(s: string) {
    var n := WsRun(s);
    n + 3 <= |s| && s[n..n + 3] == "```"
  }

  /** `re.sub(r'\s*```', '', s)`: every "```" and the whitespace run before it removed, left to right. */
  function DropCloseFences(s: string): string
    decreases |s|
  {
    if |s| == 0 then s
    else if CloseFenceAt(s) then DropCloseFences(s[WsRun(s) + 3..])
    else [s[0]] + DropCloseFences(s[1..])
  }

  /** The fence cleanup applied to a generated or fixed query (after `strip()`). */
  function CleanSql(s: string): string {
    DropCloseFences(DropOpenFences(s))
  }

  lemma ContainsTail(s: string, sub: string)
    requires |s| > 0 && Contains(s[1..], sub)
    ensures Contains(s, sub)
  {
    var i :| 0 <= i <= |s[1..]| - |sub| && OccursAt(s[1..], sub, i);
    assert s[i + 1..i + 1 + |sub|] == s[1..][i..i + |sub|];
    assert OccursAt(s, sub, i + 1);
  }

  lemma OpenFenceContainsFence(s: string)
    ensures StartsWith(s, "```sql") ==> Contains(s, "```")
  {
    if StartsWith(s, "```sql") {
      assert s[0..3] == s[..6][0..3];
      assert OccursAt(s, "```", 0);
    }
  }

  lemma CloseFenceContainsFence(s: string)
    ensures CloseFenceAt(s) ==> Contains(s, "```")
  {
    if CloseFenceAt(s) {
      assert OccursAt(s, "```", WsRun(s));
    }
  }

  /** Without "```sql" in it, the first substitution changes nothing. */
  lemma {:induction false} DropOpenFencesIdentity(s: string)
    requires !Contains(s, "```sql")
    ensures DropOpenFences(s) == s
    decreases |s|
  {
    if |s| > 0 {
      assert StartsWith(s, "```sql") ==> OccursAt(s, "```sql", 0);
      if Contains(s[1..], "```sql") {
        ContainsTail(s, "```sql");
      }
      DropOpenFencesIdentity(s[1..]);
    }
  }

  /** Without "```" in it, the second substitution changes nothing. */
  lemma {:induction false} DropCloseFencesIdentity(s: string)
    requires !Contains(s, "```")
    ensures DropCloseFences(s) == s
    decreases |s|
  {
    if |s| > 0 {
      CloseFenceContainsFence(s);
      if Contains(s[1..], "```") {
        ContainsTail(s, "```");
      }
      DropCloseFencesIdentity(s[1..]);
    }
  }

  /** A reply without any "```" comes through the cleanup unchanged. */
  lemma CleanSqlWithoutFences(s: string)
    requires !Contains(s, "```")
    ensures CleanSql(s) == s
  {
    if Contains(s, "```sql") {
      var i :| 0 <= i <= |s| - 6 && OccursAt(s, "```sql", i);
      assert s[i..i + 3] == s[i..i + 6][..3];
      assert OccursAt(s, "```", i);
    }
    DropOpenFencesIdentity(s);
    DropCloseFencesIdentity(s);
  }

  /** `TrimRight` is determined by where the trailing run of `cs` starts. */
  lemma {:induction false} TrimRightAt(s: string, cs: set<char>, k: nat)
    requires k <= |s| && AllIn(s[k..], cs) && (k == 0 || s[k - 1] !in cs)
    ensures TrimRight(s, cs) == s[..k]
    decreases |s|
  {
    if k < |s| {
      assert s[|s| - 1] == s[k..][|s| - 1 - k];
      assert s[..|s| - 1][k..] == s[k..|s| - 1];
      TrimRightAt(s[..|s| - 1], cs, k);
      assert s[..|s| - 1][..k] == s[..k];
    } else if |s| > 0 {
      assert s[..k] == s;
    }
  }

  /** Trimming the right of a string that is not all `cs` keeps its first character. */
  lemma TrimRightCons(s: string, cs: set<char>)
    requires !AllIn(s, cs)
    ensures TrimRight(s, cs) == [s[0]] + TrimRight(s[1..], cs)
  {
    var r1 := TrimRight(s[1..], cs);
    assert s[1 + |r1|..] == s[1..][|r1|..];
    if |r1| == 0 {
      assert forall i :: 1 <= i < |s| ==> s[i] == s[1..][i - 1];
    } else {
      assert s[|r1|] == r1[|r1| - 1];
    }
    TrimRightAt(s, cs, 1 + |r1|);
    assert s[..1 + |r1|] == [s[0]] + s[1..][..|r1|];
  }

  /** A backtick-free text followed by whitespace and a closing fence loses the fence and its trailing whitespace. */
  lemma {:induction false} DropCloseFencesTail(t: string, w: string)
    requires '`' !in t && AllIn(w, Whitespace)
    ensures DropCloseFences(t + w + "```") == TrimRight(t, Whitespace)
    decreases |t|
  {
    if AllIn(t, Whitespace) {
      DropCloseFencesBlank(t, w);
    } else {
      DropCloseFencesStep(t, w);
      assert '`' !in t[1..] by {
        forall i | 0 <= i < |t[1..]| ensures t[1..][i] != '`' {
          assert t[1..][i] == t[i + 1];
          assert t[i + 1] in t;
        }
      }
      DropCloseFencesTail(t[1..], w);
      TrimRightCons(t, Whitespace);
    }
  }

  /** Whitespace, whitespace and a fence: all of it goes. */
  lemma DropCloseFencesBlank(t: string, w: string)
    requires AllIn(t, Whitespace) && AllIn(w, Whitespace)
    ensures DropCloseFences(t + w + "```") == TrimRight(t, Whitespace) == []
  {
    var s := t + w + "```";
    assert s[..|t| + |w|] == t + w;
    assert s[|t| + |w|] == '`';
    WsRunAt(s, |t| + |w|);
    assert s[|t| + |w|..] == "```";
    assert s[WsRun(s) + 3..] == [];
    TrimRightAt(t, Whitespace, 0);
  }

  /** A backtick-free text that is not all whitespace starts with no closing fence. */
  lemma DropCloseFencesStep(t: string, w: string)
    requires '`' !in t && !AllIn(t, Whitespace)
    ensures DropCloseFences(t + w + "```") == [t[0]] + DropCloseFences(t[1..] + w + "```")
  {
    var s := t + w + "```";
    var n := WsRun(t);
    assert t[..n] == s[..n];
    assert s[n] == t[n];
    WsRunAt(s, n);
    assert t[n] in t;
    assert !CloseFenceAt(s);
    assert s[1..] == t[1..] + w + "```";
  }

  /** `WsRun` is the given length when that many whitespace characters are followed by another character or the end. */
  lemma WsRunAt(s: string, n: nat)
    requires n <= |s| && AllIn(s[..n], Whitespace) && (n == |s| || s[n] !in Whitespace)
    ensures WsRun(s) == n
  {
    TrimLeftAt(s, Whitespace, n);
  }

  /** `TrimLeft` is determined by where the leading run of `cs` ends. */
  lemma {:induction false} TrimLeftAt(s: string, cs: set<char>, k: nat)
    requires k <= |s| && AllIn(s[..k], cs) && (k == |s| || s[k] !in cs)
    ensures TrimLeft(s, cs) == s[k..]
    decreases k
  {
    if k > 0 {
      assert s[0] == s[..k][0];
      assert s[1..][..k - 1] == s[1..k];
      TrimLeftAt(s[1..], cs, k - 1);
      assert s[1..][k - 1..] == s[k..];
    }
  }

  /** A backtick-free text cannot hold "```sql", even with a fence after it. */
  lemma NoOpenFenceBeforeClose(t: string)
    requires '`' !in t
    ensures !Contains(t + "```", "```sql")
  {
    var s := t + "```";
    forall i | 0 <= i <= |s| - 6
      ensures !OccursAt(s, "```sql", i)
    {
      assert s[i..i + 6][0] == s[i] == t[i];
      assert t[i] in t;
    }
  }

  /**
   * A fenced query "```sql", whitespace, a backtick-free body, whitespace,
   * "```" cleans up to the body with its surrounding whitespace removed.
   */
  lemma CleanSqlFenced(w1: string, body: string, w2: string)
    requires AllIn(w1, Whitespace) && AllIn(w2, Whitespace) && '`' !in body
    ensures CleanSql("```sql" + w1 + body + w2 + "```") == Strip(body)
  {
    var y := body + w2 + "```";
    FencedShape(w1, body, w2);
    DropOpenFencesLeading(w1 + y);
    TrimLeftPast(w1, y, Whitespace);
    FencedAfterOpen(body, w2);
  }

  lemma FencedShape(w1: string, body: string, w2: string)
    ensures "```sql" + w1 + body + w2 + "```" == "```sql" + (w1 + (body + w2 + "```"))
  {
  }

  /** What the first substitution leaves of a fence's body cleans up to the stripped body. */
  lemma FencedAfterOpen(body: string, w2: string)
    requires AllIn(w2, Whitespace) && '`' !in body
    ensures DropCloseFences(DropOpenFences(TrimLeft(body + w2 + "```", Whitespace))) == Strip(body)
  {
    if TrimLeft(body, Whitespace) == [] {
      FencedBlankBody(body, w2);
    } else {
      FencedBody(body, w2);
    }
  }

  /** The first substitution at a leading "```sql": the fence and the whitespace after it go. */
  lemma DropOpenFencesLeading(x: string)
    ensures DropOpenFences("```sql" + x) == DropOpenFences(TrimLeft(x, Whitespace))
  {
    var s := "```sql" + x;
    assert s[..6] == "```sql";
    assert s[6..] == x;
  }

  /** A blank body: only the closing fence is left after the first substitution, and it goes too. */
  lemma FencedBlankBody(body: string, w2: string)
    requires AllIn(w2, Whitespace) && TrimLeft(body, Whitespace) == []
    ensures DropCloseFences(DropOpenFences(TrimLeft(body + w2 + "```", Whitespace))) == Strip(body) == []
  {
    BlankBodyThenFence(body, w2);
    BareFenceDropped();
  }

  lemma BlankBodyThenFence(body: string, w2: string)
    requires AllIn(w2, Whitespace) && TrimLeft(body, Whitespace) == []
    ensures TrimLeft(body + w2 + "```", Whitespace) == "```" && Strip(body) == []
  {
    BacktickNotSpace();
    BlankThenFence(body, w2, Whitespace);
    StripBlank(body);
  }

  lemma BacktickNotSpace()
    ensures '`' !in Whitespace
  {
  }

  lemma StripBlank(body: string)
    requires TrimLeft(body, Whitespace) == []
    ensures Strip(body) == []
  {
  }

  /** A lone closing fence: the first substitution keeps it and the second removes it. */
  lemma BareFenceDropped()
    ensures DropCloseFences(DropOpenFences("```")) == []
  {
    NoOpenFenceInShort("```");
    DropCloseFencesBlank([], []);
    assert [] + [] + "```" == "```";
  }

  lemma BlankThenFence(body: string, w2: string, cs: set<char>)
    requires AllIn(w2, cs) && TrimLeft(body, cs) == [] && '`' !in cs
    ensures TrimLeft(body + w2 + "```", cs) == "```"
    ensures TrimRight(TrimLeft(body, cs), cs) == []
  {
    assert body[..|body|] == body;
    assert AllIn(body + w2, cs);
    TrimLeftPast(body + w2, "```", cs);
  }

  /** A body with a non-blank part: it comes out with both ends trimmed. */
  lemma FencedBody(body: string, w2: string)
    requires AllIn(w2, Whitespace) && '`' !in body && TrimLeft(body, Whitespace) != []
    ensures DropCloseFences(DropOpenFences(TrimLeft(body + w2 + "```", Whitespace))) == Strip(body)
  {
    var lb := TrimLeft(body, Whitespace);
    KeepThenFence(body, w2, Whitespace);
    BacktickFreeTrim(body, Whitespace);
    FencedTrimmedBody(lb, w2);
  }

  lemma KeepThenFence(body: string, w2: string, cs: set<char>)
    requires TrimLeft(body, cs) != []
    ensures TrimLeft(body + w2 + "```", cs) == (TrimLeft(body, cs) + w2) + "```"
  {
    TrimLeftKeep(body, w2 + "```", cs);
    assert body + w2 + "```" == body + (w2 + "```");
    assert TrimLeft(body, cs) + (w2 + "```") == (TrimLeft(body, cs) + w2) + "```";
  }

  lemma FencedTrimmedBody(lb: string, w2: string)
    requires AllIn(w2, Whitespace) && '`' !in lb
    ensures DropCloseFences(DropOpenFences((lb + w2) + "```")) == TrimRight(lb, Whitespace)
  {
    forall i | 0 <= i < |lb + w2| ensures (lb + w2)[i] != '`' {
      if i >= |lb| {
        assert (lb + w2)[i] == w2[i - |lb|];
      }
    }
    NoOpenFenceBeforeClose(lb + w2);
    DropOpenFencesIdentity((lb + w2) + "```");
    DropCloseFencesTail(lb, w2);
  }

  lemma BacktickFreeTrim(body: string, cs: set<char>)
    requires '`' !in body
    ensures '`' !in TrimLeft(body, cs)
  {
    var lb := TrimLeft(body, cs);
    forall i | 0 <= i < |lb| ensures lb[i] != '`' {
      assert lb[i] == body[|body| - |lb| + i];
      assert body[|body| - |lb| + i] in body;
    }
  }

  /** Leading `cs` characters are skipped entirely by `TrimLeft`. */
  lemma {:induction false} TrimLeftPast(w: string, t: string, cs: set<char>)
    requires AllIn(w, cs)
    ensures TrimLeft(w + t, cs) == TrimLeft(t, cs)
    decreases |w|
  {
    if |w| > 0 {
      assert (w + t)[1..] == w[1..] + t;
      assert w[0] in cs;
      TrimLeftPast(w[1..], t, cs);
    } else {
      assert w + t == t;
    }
  }

  /** `TrimLeft` stops inside `t` when `t` is not all `cs`. */
  lemma {:induction false} TrimLeftKeep(t: string, u: string, cs: set<char>)
    requires TrimLeft(t, cs) != []
    ensures TrimLeft(t + u, cs) == TrimLeft(t, cs) + u
    decreases |t|
  {
    assert |t| > 0;
    if t[0] in cs {
      assert (t + u)[1..] == t[1..] + u;
      TrimLeftKeep(t[1..], u, cs);
    }
  }

  /**
   * The cleanup is not idempotent: removing a whitespace-prefixed fence can
   * join backticks into a new fence ("` `````" cleans to "```", which cleans to "").
   */
  lemma CleanSqlNotIdempotent(c: char)
    requires c in Whitespace
    ensures CleanSql(['`', c] + "`````") == "```"
    ensures CleanSql(CleanSql(['`', c] + "`````")) == ""
  {
    CleanSqlSpacedFence(c);
    CleanSqlBareFence();
  }

  lemma CleanSqlSpacedFence(c: char)
    requires c in Whitespace
    ensures CleanSql(['`', c] + "`````") == "```"
  {
    SpacedFenceKept(c);
    SpacedFenceDropped(c);
  }

  lemma SpacedFenceKept(c: char)
    requires c in Whitespace
    ensures DropOpenFences(['`', c] + "`````") == ['`', c] + "`````"
  {
    NoOpenFenceInShort(['`', c] + "`````");
  }

  lemma SpacedFenceDropped(c: char)
    requires c in Whitespace
    ensures DropCloseFences(['`', c] + "`````") == "```"
  {
    var s := ['`', c] + "`````";
    var r := "``";
    assert s == ['`'] + [c] + "```" + r;
    KeptThenFence('`', [c], r);
    DropCloseFencesIdentity(r);
  }

  /** A character that cannot start a fence is kept; the whitespace and fence after it are dropped. */
  lemma KeptThenFence(x: char, w: string, r: string)
    requires x !in Whitespace && |w| > 0 && w[0] != '`' && AllIn(w, Whitespace)
    ensures DropCloseFences([x] + w + "```" + r) == [x] + DropCloseFences(r)
  {
    var s := [x] + w + "```" + r;
    var t := w + "```" + r;
    assert s[0] == x && s[1] == w[0];
    assert s[1..] == t;
    NoCloseFenceHere(s, x, t);
    DropCloseFencesSkip(w, r);
  }

  lemma CleanSqlBareFence()
    ensures CleanSql("```") == ""
  {
    NoOpenFenceInShort("```");
    DropCloseFencesSkip([], []);
    assert [] + "```" + [] == "```";
  }

  /** A character that is neither whitespace nor the start of "```" is kept. */
  lemma NoCloseFenceHere(s: string, x: char, t: string)
    requires |s| >= 3 && s[0] == x && x !in Whitespace && s[1] != '`' && s[1..] == t
    ensures DropCloseFences(s) == [x] + DropCloseFences(t)
  {
    NoCloseFenceAtHead(s);
  }

  lemma NoCloseFenceAtHead(s: string)
    requires |s| >= 3 && s[0] !in Whitespace && s[1] != '`'
    ensures DropCloseFences(s) == [s[0]] + DropCloseFences(s[1..])
  {
    WsRunAt(s, 0);
  }

  /** A whitespace run and a fence at the front are removed together. */
  lemma DropCloseFencesSkip(w: string, r: string)
    requires AllIn(w, Whitespace)
    ensures DropCloseFences(w + "```" + r) == DropCloseFences(r)
  {
    var s := w + "```" + r;
    assert s[..|w|] == w;
    assert s[|w|] == '`';
    WsRunAt(s, |w|);
    assert s[|w|..|w| + 3] == "```";
    assert s[|w| + 3..] == r;
  }

  /** A string with no 's' has no "```sql" to remove. */
  lemma NoOpenFenceInShort(s: string)
    requires 's' !in s
    ensures DropOpenFences(s) == s
  {
    assert !Contains(s, "```sql") by {
      forall i | 0 <= i <= |s| - 6 ensures !OccursAt(s, "```sql", i) {
        assert s[i..i + 6][3] == s[i + 3];
        assert s[i + 3] in s;
      }
    }
    DropOpenFencesIdentity(s);
  }

  // ---------------------------------------------------------------------------
  // The body of a fenced block: `re.search(open + r"(.*?)```", c, DOTALL | IGNORECASE)`
  // for an opener such as "```sql" or "```json" (written in lower case).

  /**
   * `i` is the first place `open` occurs in any letter case, and `j` the
   * first place "```" occurs after it: the span `(.*?)` captures.
   */
  ghost predicate FirstFencePair(content: string, open: string, i: int, j: int) {
    0 <= i && i + |open| <= j && j + 3 <= |content|
    && OccursAt(Lower(content), open, i)
    && (forall k :: 0 <= k < i ==> !OccursAt(Lower(content), open, k))
    && OccursAt(content, "```", j)
    && (forall k :: i + |open| <= k < j ==> !OccursAt(content, "```", k))
  }

  /** `sub` occurs in a suffix exactly where it occurs in the whole string, shifted. */
  lemma OccursShift(s: string, sub: string, a: nat, k: int)
    requires a <= |s|
    ensures OccursAt(s[a..], sub, k) <==> k >= 0 && OccursAt(s, sub, a + k)
  {
    if k >= 0 && a + k + |sub| <= |s| {
      assert s[a..][k..k + |sub|] == s[a + k..a + k + |sub|];
    }
  }

  /** The body of the first block opened by `open` (in any letter case), or None if there is none. */
  function Fenced(content: string, open: string): (r: Option<string>)
    ensures r.Some? <==> exists i, j :: FirstFencePair(content, open, i, j)
    ensures forall i, j :: FirstFencePair(content, open, i, j) ==> r == Some(content[i + |open|..j])
  {
    var i := Find(Lower(content), open);
    if i < 0 then
      NoOpenFenceNoPair(content, open);
      None
    else
      var j := Find(content[i + |open|..], "```");
      FencePairUnique(content, open, i, j);
      if j < 0 then None
      else
        FencePairFound(content, open, i, j);
        Some(content[i + |open|..i + |open| + j])
  }

  /** The body of the first ```sql block (case-insensitive), or None if there is none. */
  function FencedSql(content: string): Option<string> {
    Fenced(content, "```sql")
  }

  lemma NoOpenFenceNoPair(content: string, open: string)
    requires Find(Lower(content), open) < 0
    ensures forall i, j :: !FirstFencePair(content, open, i, j)
  {
  }

  lemma FencePairFound(content: string, open: string, i: int, j: int)
    requires i == Find(Lower(content), open) && 0 <= i
    requires i + |open| <= |content| && j == Find(content[i + |open|..], "```") && j >= 0
    ensures FirstFencePair(content, open, i, i + |open| + j)
  {
    CloseFenceFound(content, i + |open|, j);
  }

  /** The first "```" of a suffix is the first one at or after where the suffix starts. */
  lemma CloseFenceFound(content: string, a: nat, j: int)
    requires a <= |content| && j == Find(content[a..], "```") && j >= 0
    ensures OccursAt(content, "```", a + j)
    ensures forall k :: a <= k < a + j ==> !OccursAt(content, "```", k)
  {
    OccursShift(content, "```", a, j);
    forall k | a <= k < a + j ensures !OccursAt(content, "```", k) {
      OccursShift(content, "```", a, k - a);
    }
  }

  lemma FencePairUnique(content: string, open: string, i: int, j: int)
    requires i == Find(Lower(content), open) && 0 <= i
    requires i + |open| <= |content| && j == Find(content[i + |open|..], "```")
    ensures forall i', j' :: FirstFencePair(content, open, i', j') ==> i' == i && j' == i + |open| + j
  {
    forall i', j' | FirstFencePair(content, open, i', j') ensures i' == i && j' == i + |open| + j {
      PairOpensAt(content, open, i, i', j');
      PairClosesAt(content, open, i, j, j');
    }
  }

  /** A first pair opens at the first occurrence of the opener. */
  lemma PairOpensAt(content: string, open: string, i: int, i': int, j': int)
    requires i == Find(Lower(content), open) && FirstFencePair(content, open, i', j')
    ensures i' == i
  {
  }

  /** A first pair opening at `i` closes at the first "```" after the opener. */
  lemma PairClosesAt(content: string, open: string, i: int, j: int, j': int)
    requires 0 <= i && i + |open| <= |content| && j == Find(content[i + |open|..], "```")
    requires FirstFencePair(content, open, i, j')
    ensures j' == i + |open| + j
  {
    var a := i + |open|;
    OccursShift(content, "```", a, j' - a);
    FirstNotAfter(content[a..], "```", j, j' - a);
    OccursShift(content, "```", a, j);
    assert OccursAt(content, "```", a + j);
  }

  /** The first occurrence found is at or before any occurrence. */
  lemma FirstNotAfter(s: string, sub: string, j: int, k: int)
    requires j == Find(s, sub) && OccursAt(s, sub, k) && 0 <= k
    ensures 0 <= j <= k
  {
  }

  /** The SQL the follow-up fix takes from a message: the fenced body stripped, else the whole message stripped. */
  function SqlOfMessage(content: string): string {
    match FencedSql(content)
    case Some(inner) => Strip(inner)
    case None => Strip(content)
  }

  /** A message with a ```sql block yields that block's body, stripped. */
  lemma SqlOfFencedMessage(pre: string, body: string, post: string)
    requires '`' !in pre && '`' !in body
    ensures SqlOfMessage(pre + "```sql" + body + "```" + post) == Strip(body)
  {
    SqlOpenerLower();
    FencedOfMessage("```sql", pre, body, post);
  }

  /** In a message whose first backticks open a block with `open`, that block's body is found. */
  lemma FencedOfMessage(open: string, pre: string, body: string, post: string)
    requires |open| >= 3 && open[..3] == "```" && Lower(open) == open
    requires '`' !in pre && '`' !in body
    ensures Fenced(pre + open + body + "```" + post, open) == Some(body)
  {
    var c := pre + open + body + "```" + post;
    assert c[|pre| + |open|..|pre| + |open| + |body|] == body;
    FencePairOfMessage(open, pre, body, post);
  }

  lemma SqlOpenerLower()
    ensures Lower("```sql") == "```sql"
  {
    OpenerLower("```sql");
  }

  /** An opener written with backticks and lower-case letters is its own lower case. */
  lemma OpenerLower(open: string)
    requires forall k :: 0 <= k < |open| ==> open[k] == '`' || 'a' <= open[k] <= 'z'
    ensures Lower(open) == open
  {
  }

  /** In a message whose first backticks open a block with `open`, that block is the one found. */
  lemma FencePairOfMessage(open: string, pre: string, body: string, post: string)
    requires |open| >= 3 && open[..3] == "```" && Lower(open) == open
    requires '`' !in pre && '`' !in body
    ensures FirstFencePair(pre + open + body + "```" + post, open, |pre|, |pre| + |open| + |body|)
  {
    var c := pre + open + body + "```" + post;
    var lc := Lower(c);
    var i := |pre|;
    var j := |pre| + |open| + |body|;
    forall k | 0 <= k < |open| ensures lc[i + k] == open[k] {
      assert c[i + k] == open[k];
      assert Lower(open)[k] == LowerChar(open[k]);
    }
    assert lc[i..i + |open|] == open;
    forall k | 0 <= k < i ensures !OccursAt(lc, open, k) {
      assert c[k] == pre[k] && pre[k] in pre;
      assert lc[k] == LowerChar(pre[k]);
      assert open[0] == open[..3][0];
    }
    assert c[j..j + 3] == "```";
    forall k | i + |open| <= k < j ensures !OccursAt(c, "```", k) {
      assert c[k] == body[k - i - |open|];
      assert body[k - i - |open|] in body;
    }
  }
}
