/**
 * JSON-like values as Python holds them after `json.loads`, with the parts of
 * Python's dict/list protocol the flows use on them: subscripting, `.get`,
 * iteration, truthiness, `str()` and `", ".join(...)`.
 * Objects keep their members in insertion order, as Python dicts do.
 */
module Json {
  import opened Wrappers
  import opened Faults
  import Text

  datatype Json =
    | JNull
    | JBool(b: bool)
    | JNum(n: int)
    | JStr(s: string)
    | JArr(items: seq<Json>)
    | JObj(members: seq<Member>)

  datatype Member = Member(key: string, value: Json)

  /** The value bound to `key` in an object's members (the first binding). */
  function Get(ms: seq<Member>, key: string): (r: Option<Json>)
    ensures r.None? <==> forall i :: 0 <= i < |ms| ==> ms[i].key != key
    ensures r.Some? ==> exists i :: 0 <= i < |ms| && ms[i].key == key && ms[i].value == r.value
    decreases |ms|
  {
    if |ms| == 0 then None
    else if ms[0].key == key then Some(ms[0].value)
    else Get(ms[1..], key)
  }

  predicate HasKey(ms: seq<Member>, key: string) {
    Get(ms, key).Some?
  }

  /** `d[key] = v` on an ordered dict: an existing key keeps its place, a new key goes last. */
  function Put(ms: seq<Member>, key: string, v: Json): (r: seq<Member>)
    ensures Get(r, key) == Some(v)
    ensures forall k :: k != key ==> Get(r, k) == Get(ms, k)
    ensures HasKey(ms, key) ==> |r| == |ms|
    ensures !HasKey(ms, key) ==> r == ms + [Member(key, v)]
    decreases |ms|
  {
    if |ms| == 0 then [Member(key, v)]
    else if ms[0].key == key then [Member(key, v)] + ms[1..]
    else [ms[0]] + Put(ms[1..], key, v)
  }

  /** Python truthiness. */
  predicate Truthy(j: Json) {
    match j
    case JNull => false
    case JBool(b) => b
    case JNum(n) => n != 0
    case JStr(s) => s != ""
    case JArr(items) => items != []
    case JObj(ms) => ms != []
  }

  /** `for x in j`: lists give their items, dicts their keys, strings their characters. */
  function Iterate(j: Json): (r: Result<seq<Json>, Exn>)
    ensures j.JArr? ==> r == Ok(j.items)
    ensures r.Err? <==> (j.JNull? || j.JBool? || j.JNum?)
  {
    match j
    case JArr(items) => Ok(items)
    case JObj(ms) => Ok(seq(|ms|, i requires 0 <= i < |ms| => JStr(ms[i].key)))
    case JStr(s) => Ok(seq(|s|, i requires 0 <= i < |s| => JStr([s[i]])))
    case _ => Err(TypeError("object is not iterable"))
  }

  /** `j[key]` with a string key. */
  function Subscript(j: Json, key: string): (r: Result<Json, Exn>)
    ensures r.Ok? <==> j.JObj? && HasKey(j.members, key)
    ensures r.Ok? ==> Some(r.value) == Get(j.members, key)
  {
    match j
    case JObj(ms) =>
      (match Get(ms, key)
       case Some(v) => Ok(v)
       case None => Err(KeyError(key)))
    case _ => Err(TypeError("indices must be integers"))
  }

  /** `j.get(key, default)` */
  function DictGet(j: Json, key: string, default: Json): (r: Result<Json, Exn>)
    ensures r.Ok? <==> j.JObj?
    ensures j.JObj? ==> r.value == Get(j.members, key).GetOr(default)
  {
    match j
    case JObj(ms) => Ok(Get(ms, key).GetOr(default))
    case _ => Err(AttributeError("object has no attribute 'get'"))
  }

  /** `str(j)` */
  function Str(j: Json): string {
    if j.JStr? then j.s else Repr(j)
  }

  /** `repr(j)`; strings are quoted without escaping. */
  function Repr(j: Json): string
    decreases j
  {
    match j
    case JNull => "None"
    case JBool(b) => if b then "True" else "False"
    case JNum(n) => Text.IntToString(n)
    case JStr(s) => "'" + s + "'"
    case JArr(items) =>
      "[" + Text.Join(seq(|items|, i requires 0 <= i < |items| => Repr(items[i])), ", ") + "]"
    case JObj(ms) =>
      "{" + Text.Join(seq(|ms|, i requires 0 <= i < |ms| => "'" + ms[i].key + "': " + Repr(ms[i].value)), ", ") + "}"
  }

  /** The strings of a sequence of values, or None if one of them is not a string. */
  function Strings(items: seq<Json>): (r: Option<seq<string>>)
    ensures r.Some? <==> forall i :: 0 <= i < |items| ==> items[i].JStr?
    ensures r.Some? ==> |r.value| == |items| && forall i :: 0 <= i < |items| ==> r.value[i] == items[i].s
    decreases |items|
  {
    if |items| == 0 then Some([])
    else if !items[0].JStr? then None
    else
      match Strings(items[1..])
      case None => None
      case Some(rest) => Some([items[0].s] + rest)
  }

  /** `sep.join(j)`: `j` must be iterable and yield only strings. */
  function JoinJson(j: Json, sep: string): (r: Result<string, Exn>)
    ensures j.JArr? && (forall i :: 0 <= i < |j.items| ==> j.items[i].JStr?) ==> r.Ok?
  {
    match Iterate(j)
    case Err(e) => Err(e)
    case Ok(items) =>
      match Strings(items)
      case None => Err(TypeError("sequence item: expected str instance"))
      case Some(ss) => Ok(Text.Join(ss, sep))
  }

  /** A list of strings as a JSON value. */
  function StrList(ss: seq<string>): (r: Json)
    ensures r.JArr? && |r.items| == |ss|
    ensures forall i :: 0 <= i < |ss| ==> r.items[i] == JStr(ss[i])
  {
    JArr(seq(|ss|, i requires 0 <= i < |ss| => JStr(ss[i])))
  }

  /** `[item[key] for item in j]`: the first item that cannot be subscripted raises. */
  function Pluck(j: Json, key: string): (r: Result<seq<Json>, Exn>)
    ensures r.Ok? <==> Iterate(j).Ok? && forall i :: 0 <= i < |Iterate(j).value| ==> Subscript(Iterate(j).value[i], key).Ok?
    ensures r.Ok? ==> |r.value| == |Iterate(j).value|
                      && forall i :: 0 <= i < |r.value| ==> Subscript(Iterate(j).value[i], key) == Ok(r.value[i])
  {
    var items :- Iterate(j);
    PluckItems(items, key)
  }

  function PluckItems(items: seq<Json>, key: string): (r: Result<seq<Json>, Exn>)
    ensures r.Ok? <==> forall i :: 0 <= i < |items| ==> Subscript(items[i], key).Ok?
    ensures r.Ok? ==> |r.value| == |items| && forall i :: 0 <= i < |items| ==> Subscript(items[i], key) == Ok(r.value[i])
    decreases |items|
  {
    if |items| == 0 then Ok([])
    else
      var first :- Subscript(items[0], key);
      var rest :- PluckItems(items[1..], key);
      assert forall i :: 1 <= i < |items| ==> items[i] == items[1..][i - 1];
      Ok([first] + rest)
  }

  /**
   * One rendered line per item, in order; the first item whose rendering raises
   * makes the whole list raise with that exception.
   */
  function MapItems(items: seq<Json>, f: Json -> Result<string, Exn>): (r: Result<seq<string>, Exn>)
    ensures r.Ok? <==> forall i :: 0 <= i < |items| ==> f(items[i]).Ok?
    ensures r.Ok? ==> |r.value| == |items| && forall i :: 0 <= i < |items| ==> f(items[i]) == Ok(r.value[i])
    ensures r.Err? ==> exists i :: 0 <= i < |items| && f(items[i]) == Err(r.error)
                                   && forall k :: 0 <= k < i ==> f(items[k]).Ok?
    decreases |items|
  {
    if |items| == 0 then Ok([])
    else
      var init :- MapItems(items[..|items| - 1], f);
      var last :- f(items[|items| - 1]);
      Ok(init + [last])
  }

  /** Once a prefix raises, the whole list raises with the same exception. */
  lemma {:induction false} MapItemsPrefixErr(items: seq<Json>, f: Json -> Result<string, Exn>, j: nat)
    requires j <= |items| && MapItems(items[..j], f).Err?
    ensures MapItems(items, f) == MapItems(items[..j], f)
    decreases |items| - j
  {
    if j < |items| {
      assert items[..j + 1][..j] == items[..j];
      MapItemsPrefixErr(items, f, j + 1);
    } else {
      assert items[..j] == items;
    }
  }
}
