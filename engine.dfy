/**
 * Running a flow's graph (`BaseFlow.run` in app/flows/base.py). The graph
 * library itself is not part of this model: in its place, a small interpreter
 * over the declared graph runs a node's step, follows the node's edge (asking
 * the router of a conditional edge for its key) and stops at END, with a bound
 * on the number of steps standing for the library's recursion limit.
 * `run` turns every exception into the input state with `error` set.
 */
module Engine {
  import opened Wrappers
  import opened Faults
  import opened Json
  import opened FlowBase
  import opened Graph
  import Oracle
  import TextToSql
  import TextToSqlSteps
  import GeneralQa

  function GraphOf(k: FlowKind): Graph {
    match k
    case TextToSqlKind => TextToSql.FlowGraph()
    case GeneralQaKind => GeneralQa.QaGraph()
  }

  function StepOf(k: FlowKind, node: string, st: State, replies: seq<string>, decode: string -> Option<Json>): StepResult {
    match k
    case TextToSqlKind => TextToSql.Step(node, st, replies, decode)
    case GeneralQaKind => GeneralQa.Step(node, st, replies)
  }

  function RouteOf(k: FlowKind, router: string, st: State): Result<Json, Exn> {
    match k
    case TextToSqlKind => TextToSql.Route(router, st)
    case GeneralQaKind => Err(UnknownNode(router))
  }

  /**
   * Where control goes after `node`: the fixed target, or the entry of the
   * decision table under the router's key; a key missing from the table raises.
   */
  function Next(k: FlowKind, node: string, st: State): (r: Result<Target, Exn>)
    ensures r.Ok? ==> node in GraphOf(k).edges
    ensures r.Ok? && GraphOf(k).edges[node].Branch? ==> r.value in GraphOf(k).edges[node].table.Values
  {
    var edges := GraphOf(k).edges;
    if node !in edges then Err(DeadEnd(node))
    else
      match edges[node]
      case Fixed(t) => Ok(t)
      case Branch(router, table) =>
        var key :- RouteOf(k, router, st);
        if key.JStr? && key.s in table then Ok(table[key.s]) else Err(InvalidRoute(Str(key)))
  }

  /** A flow as the interpreter sees it: its entry, its steps and its edges. */
  datatype Machine = Machine(
    entry: string,
    step: (string, State, seq<string>) -> StepResult,
    next: (string, State) -> Result<Target, Exn>)

  /** Marks a point of a run where a machine's step and edge are looked up; it has no content of its own. */
  ghost predicate At(n: string, st: State, rs: seq<string>) {
    true
  }

  /** `m` steps and branches as flow `k` does, wherever a run looks. */
  ghost predicate Runs(m: Machine, k: FlowKind, decode: string -> Option<Json>) {
    && m.entry == GraphOf(k).entry
    && forall n, st, rs {:trigger At(n, st, rs)} :: At(n, st, rs) ==>
         m.step(n, st, rs) == StepOf(k, n, st, rs, decode) && m.next(n, st) == Next(k, n, st)
  }

  function MachineOf(k: FlowKind, decode: string -> Option<Json>): (m: Machine)
    ensures Runs(m, k, decode)
  {
    Machine(GraphOf(k).entry, (n, st, rs) => StepOf(k, n, st, rs, decode), (n, st) => Next(k, n, st))
  }

  /** How a run ends, with the replies left over and the nodes whose steps ran, in order. */
  datatype Outcome =
    | Completed(st: State, rest: seq<string>, path: seq<string>)
    | Aborted(e: Exn, rest: seq<string>, path: seq<string>)

  /**
   * The graph run from node `at`, with `fuel` steps left; `path` holds the
   * nodes already run. Running out of steps with a node still to run raises.
   */
  function Exec(m: Machine, at: string, st: State, replies: seq<string>, fuel: nat, path: seq<string>): Outcome
    decreases fuel
  {
    if fuel == 0 then Aborted(RecursionLimit, replies, path)
    else
      match m.step(at, st, replies)
      case Threw(e) => Aborted(e, replies, path + [at])
      case Stepped(st', rest) =>
        match m.next(at, st')
        case Err(e) => Aborted(e, rest, path + [at])
        case Ok(End) => Completed(st', rest, path + [at])
        case Ok(Node(n)) => Exec(m, n, st', rest, fuel - 1, path + [at])
  }

  /**
   * A run only adds to the nodes already run, a completed run has run at
   * least one node, and no run takes more steps than its budget.
   */
  lemma {:induction false} ExecPath(m: Machine, at: string, st: State, replies: seq<string>, fuel: nat, path: seq<string>)
    ensures var o := Exec(m, at, st, replies, fuel, path);
            |path| <= |o.path| <= |path| + fuel && o.path[..|path|] == path
            && (o.Completed? ==> |o.path| > |path|)
    decreases fuel
  {
    if fuel > 0 {
      match m.step(at, st, replies)
      case Threw(e) =>
        assert (path + [at])[..|path|] == path;
      case Stepped(st', rest) =>
        assert (path + [at])[..|path|] == path;
        match m.next(at, st')
        case Err(e) =>
        case Ok(End) =>
        case Ok(Node(n)) =>
          ExecPath(m, n, st', rest, fuel - 1, path + [at]);
          var o := Exec(m, n, st', rest, fuel - 1, path + [at]);
          assert o.path[..|path|] == o.path[..|path| + 1][..|path|];
    }
  }

  /** One step of a run, as the interpreter takes it. */
  lemma ExecStep(m: Machine, at: string, st: State, replies: seq<string>, fuel: nat, path: seq<string>)
    requires fuel > 0
    ensures m.step(at, st, replies).Threw? ==> Exec(m, at, st, replies, fuel, path) == Aborted(m.step(at, st, replies).e, replies, path + [at])
    ensures m.step(at, st, replies).Stepped? ==>
              var st', rest := m.step(at, st, replies).st, m.step(at, st, replies).rest;
              match m.next(at, st')
              case Err(e) => Exec(m, at, st, replies, fuel, path) == Aborted(e, rest, path + [at])
              case Ok(End) => Exec(m, at, st, replies, fuel, path) == Completed(st', rest, path + [at])
              case Ok(Node(n)) => Exec(m, at, st, replies, fuel, path) == Exec(m, n, st', rest, fuel - 1, path + [at])
  {
  }

  /** Following a conditional edge: the router's key picks the target from the table. */
  lemma NextBranch(k: FlowKind, node: string, st: State, router: string, table: map<string, Target>, key: string)
    requires node in GraphOf(k).edges && GraphOf(k).edges[node] == Branch(router, table)
    requires RouteOf(k, router, st) == Ok(JStr(key)) && key in table
    ensures Next(k, node, st) == Ok(table[key])
  {
  }

  /** Following a fixed edge. */
  lemma NextFixed(k: FlowKind, node: string, st: State, t: Target)
    requires node in GraphOf(k).edges && GraphOf(k).edges[node] == Fixed(t)
    ensures Next(k, node, st) == Ok(t)
  {
  }

  /** A step of flow `k` that succeeds and is followed by an edge to node `n`. */
  lemma ExecGoes(m: Machine, k: FlowKind, decode: string -> Option<Json>, at: string, st: State, replies: seq<string>,
                 fuel: nat, path: seq<string>, st': State, rest: seq<string>, n: string)
    requires Runs(m, k, decode) && fuel > 0
    requires StepOf(k, at, st, replies, decode) == Stepped(st', rest)
    requires Next(k, at, st') == Ok(Node(n))
    ensures Exec(m, at, st, replies, fuel, path) == Exec(m, n, st', rest, fuel - 1, path + [at])
  {
    assert At(at, st, replies) && At(at, st', rest);
    ExecStep(m, at, st, replies, fuel, path);
  }

  /** A step of flow `k` that succeeds and is followed by END. */
  lemma ExecEnds(m: Machine, k: FlowKind, decode: string -> Option<Json>, at: string, st: State, replies: seq<string>,
                 fuel: nat, path: seq<string>, st': State, rest: seq<string>)
    requires Runs(m, k, decode) && fuel > 0
    requires StepOf(k, at, st, replies, decode) == Stepped(st', rest)
    requires Next(k, at, st') == Ok(End)
    ensures Exec(m, at, st, replies, fuel, path) == Completed(st', rest, path + [at])
  {
    assert At(at, st, replies) && At(at, st', rest);
    ExecStep(m, at, st, replies, fuel, path);
  }

  /** A step of flow `k` that raises ends the run with that exception. */
  lemma ExecThrows(m: Machine, k: FlowKind, decode: string -> Option<Json>, at: string, st: State, replies: seq<string>,
                   fuel: nat, path: seq<string>, e: Exn)
    requires Runs(m, k, decode) && fuel > 0
    requires StepOf(k, at, st, replies, decode) == Threw(e)
    ensures Exec(m, at, st, replies, fuel, path) == Aborted(e, replies, path + [at])
  {
    assert At(at, st, replies);
    ExecStep(m, at, st, replies, fuel, path);
  }

  /** The steps of `route` from position `i` on, as machine `m` takes them, without looking at the edges. */
  function Follow(m: Machine, route: seq<string>, i: nat, st: State, replies: seq<string>): StepResult
    requires i <= |route|
    decreases |route| - i
  {
    if i == |route| then Stepped(st, replies)
    else
      match m.step(route[i], st, replies)
      case Threw(e) => Threw(e)
      case Stepped(st', rest) => Follow(m, route, i + 1, st', rest)
  }

  /**
   * From position `i` machine `m` keeps to `route`: every step succeeds, each
   * edge leads to the next node of the route, and the last one to END.
   */
  predicate Along(m: Machine, route: seq<string>, i: nat, st: State, replies: seq<string>)
    requires i < |route|
    decreases |route| - i
  {
    match m.step(route[i], st, replies)
    case Threw(_) => false
    case Stepped(st', rest) =>
      if i == |route| - 1 then m.next(route[i], st') == Ok(End)
      else m.next(route[i], st') == Ok(Node(route[i + 1])) && Along(m, route, i + 1, st', rest)
  }

  /** A step of the route that succeeds and whose edge leads to the next node of the route. */
  lemma AlongStep(m: Machine, route: seq<string>, i: nat, st: State, replies: seq<string>, st': State, rest: seq<string>)
    requires i + 1 < |route|
    requires m.step(route[i], st, replies) == Stepped(st', rest)
    requires m.next(route[i], st') == Ok(Node(route[i + 1]))
    requires Along(m, route, i + 1, st', rest)
    ensures Along(m, route, i, st, replies)
    ensures Follow(m, route, i, st, replies) == Follow(m, route, i + 1, st', rest)
  {
  }

  /** The last step of the route, which succeeds and is followed by END. */
  lemma AlongLast(m: Machine, route: seq<string>, i: nat, st: State, replies: seq<string>, st': State, rest: seq<string>)
    requires i + 1 == |route|
    requires m.step(route[i], st, replies) == Stepped(st', rest)
    requires m.next(route[i], st') == Ok(End)
    ensures Along(m, route, i, st, replies)
    ensures Follow(m, route, i, st, replies) == Stepped(st', rest)
  {
  }

  /**
   * A run that keeps to a route, with budget for all of it, completes with the
   * steps of the route applied in order, having run exactly the nodes of the route.
   */
  lemma {:induction false} ExecAlong(m: Machine, route: seq<string>, i: nat, st: State, replies: seq<string>, fuel: nat, path: seq<string>)
    requires i < |route| && fuel >= |route| - i && Along(m, route, i, st, replies)
    ensures Follow(m, route, i, st, replies).Stepped?
    ensures Exec(m, route[i], st, replies, fuel, path)
         == Completed(Follow(m, route, i, st, replies).st, Follow(m, route, i, st, replies).rest, path + route[i..])
    decreases |route| - i
  {
    var r := m.step(route[i], st, replies);
    if i == |route| - 1 {
      assert route[i..] == [route[i]];
    } else {
      ExecAlong(m, route, i + 1, r.st, r.rest, fuel - 1, path + [route[i]]);
      PathGrows(path, route, i);
    }
  }

  /** A run from the entry that keeps to a route starting there runs exactly that route. */
  lemma ExecRoute(m: Machine, route: seq<string>, st: State, replies: seq<string>, fuel: nat)
    requires route != [] && m.entry == route[0] && fuel >= |route| && Along(m, route, 0, st, replies)
    ensures Follow(m, route, 0, st, replies).Stepped?
    ensures Exec(m, m.entry, st, replies, fuel, [])
         == Completed(Follow(m, route, 0, st, replies).st, Follow(m, route, 0, st, replies).rest, route)
  {
    ExecAlong(m, route, 0, st, replies, fuel, []);
    assert [] + route[0..] == route;
  }

  /** Running the node at `i` and then the rest of the route runs the route from `i`. */
  lemma PathGrows(path: seq<string>, route: seq<string>, i: nat)
    requires i < |route|
    ensures path + [route[i]] + route[i + 1..] == path + route[i..]
  {
    assert route[i..] == [route[i]] + route[i + 1..];
  }

  /** The outcome of a whole run from the entry. */
  function RunOutcome(k: FlowKind, st: State, replies: seq<string>, decode: string -> Option<Json>, limit: nat): Outcome {
    var m := MachineOf(k, decode);
    Exec(m, m.entry, st, replies, limit, [])
  }

  /** What `run` returns for the outcome of a run from `st`: the final state, or `st` with the exception text as `error`. */
  function Returned(st: State, o: Outcome): State {
    match o
    case Completed(v, _, _) => v
    case Aborted(e, _, _) => st.(error := Some(Message(e)))
  }

  /** The state `run` returns: the final state, or the input state with the exception text as `error`. */
  function RunResult(k: FlowKind, st: State, replies: seq<string>, decode: string -> Option<Json>, limit: nat): (r: State)
    ensures RunOutcome(k, st, replies, decode, limit).Aborted? ==>
              r == st.(error := Some(Message(RunOutcome(k, st, replies, decode, limit).e)))
    ensures RunOutcome(k, st, replies, decode, limit).Completed? ==> r == RunOutcome(k, st, replies, decode, limit).st
  {
    Returned(st, RunOutcome(k, st, replies, decode, limit))
  }

  /** With no step budget, `run` reports the recursion limit and nothing else changes. */
  lemma NoBudgetAborts(k: FlowKind, st: State, replies: seq<string>, decode: string -> Option<Json>)
    ensures RunResult(k, st, replies, decode, 0) == st.(error := Some(Message(RecursionLimit)))
  {
  }

  /** The step method of a node of either flow. */
  method RunStepOf(k: FlowKind, node: string, s: FlowState, llm: Oracle.Llm, decode: string -> Option<Json>)
    returns (e: Option<Exn>)
    modifies s, llm
    ensures Realises(StepOf(k, node, old(s.Value()), old(llm.replies), decode), e, old(s.Value()), s.Value(), old(llm.replies), llm.replies)
  {
    match k
    case TextToSqlKind => e := TextToSqlSteps.RunStep(node, s, llm, decode);
    case GeneralQaKind => e := GeneralQa.RunStep(node, s, llm);
  }

  /** What the interpreter does after one step: go on at a node, or stop (with the exception, if one was raised). */
  datatype Move = GoTo(node: string) | Finish | Fail(e: Exn)

  /** One step of the run on the working state object, and the edge that follows it. */
  method Advance(k: FlowKind, decode: string -> Option<Json>, ghost m: Machine, node: string, cur: FlowState, llm: Oracle.Llm,
                 ghost fuel: nat, ghost path: seq<string>)
    returns (mv: Move)
    requires Runs(m, k, decode) && fuel > 0
    modifies cur, llm
    ensures var o := Exec(m, node, old(cur.Value()), old(llm.replies), fuel, path);
            match mv
            case GoTo(n) => o == Exec(m, n, cur.Value(), llm.replies, fuel - 1, path + [node])
            case Finish => o == Completed(cur.Value(), llm.replies, path + [node])
            case Fail(e) => o == Aborted(e, llm.replies, path + [node])
  {
    assert At(node, cur.Value(), llm.replies);
    ExecStep(m, node, cur.Value(), llm.replies, fuel, path);
    var e := RunStepOf(k, node, cur, llm, decode);
    if e.Some? {
      return Fail(e.value);
    }
    var next := Next(k, node, cur.Value());
    assert At(node, cur.Value(), llm.replies);
    match next
    case Err(x) => mv := Fail(x);
    case Ok(End) => mv := Finish;
    case Ok(Node(n)) => mv := GoTo(n);
  }

  /**
   * The rest of a run from `node` on the working state object: `None` when the
   * graph reached END, the exception otherwise.
   */
  method Drive(k: FlowKind, decode: string -> Option<Json>, ghost m: Machine, node: string, cur: FlowState, llm: Oracle.Llm,
               fuel: nat, ghost path: seq<string>)
    returns (err: Option<Exn>)
    requires Runs(m, k, decode)
    modifies cur, llm
    ensures var o := Exec(m, node, old(cur.Value()), old(llm.replies), fuel, path);
            llm.replies == o.rest
            && (o.Completed? ==> err.None? && cur.Value() == o.st)
            && (o.Aborted? ==> err == Some(o.e))
    decreases fuel
  {
    if fuel == 0 {
      return Some(RecursionLimit);
    }
    var mv := Advance(k, decode, m, node, cur, llm, fuel, path);
    match mv
    case Fail(e) => err := Some(e);
    case Finish => err := None;
    case GoTo(n) => err := Drive(k, decode, m, n, cur, llm, fuel - 1, path + [node]);
  }

  /**
   * `run`: the graph works on its own copy of the state (`state.dict()`); on
   * success a new state object is returned and the input is untouched; on any
   * exception the input object itself gets `error` set and is returned.
   */
  method Run(k: FlowKind, s: FlowState, llm: Oracle.Llm, decode: string -> Option<Json>, limit: nat)
    returns (result: FlowState)
    modifies s, llm
    ensures result.Value() == RunResult(k, old(s.Value()), old(llm.replies), decode, limit)
    ensures RunOutcome(k, old(s.Value()), old(llm.replies), decode, limit).Completed? ==>
              fresh(result) && s.Value() == old(s.Value())
    ensures RunOutcome(k, old(s.Value()), old(llm.replies), decode, limit).Aborted? ==> result == s
    ensures llm.replies == RunOutcome(k, old(s.Value()), old(llm.replies), decode, limit).rest
  {
    ghost var m := MachineOf(k, decode);
    var cur := new FlowState.FromValue(s.Value());
    var err := Drive(k, decode, m, GraphOf(k).entry, cur, llm, limit, []);
    if err.Some? {
      s.error := Some(Message(err.value));
      return s;
    }
    return cur;
  }
}
