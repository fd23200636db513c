/**
 * A workflow graph as the flows declare it to langgraph: named nodes, an entry
 * node, fixed edges (`add_edge`) and conditional edges (`add_conditional_edges`)
 * whose router's result is looked up in a decision table.
 */
module Graph {

  datatype Target = Node(name: string) | End

  datatype Edge =
    | Fixed(to: Target)
    | Branch(router: string, table: map<string, Target>)

  datatype Graph = Graph(nodes: seq<string>, entry: string, edges: map<string, Edge>)

  predicate TargetIn(g: Graph, t: Target) {
    t.End? || t.name in g.nodes
  }

  /** Every target of `e` is a node of `g` or END. */
  predicate EdgeTargetsIn(g: Graph, e: Edge) {
    match e
    case Fixed(t) => TargetIn(g, t)
    case Branch(_, table) => forall k :: k in table ==> TargetIn(g, table[k])
  }

  /** Some target of `e` is END. */
  predicate LeadsToEnd(e: Edge) {
    match e
    case Fixed(t) => t == End
    case Branch(_, table) => exists k :: k in table && table[k] == End
  }

  /**
   * The declaration is well formed: the entry is a node, every node has exactly
   * one outgoing edge declaration, and every target is a node or END.
   */
  ghost predicate WellFormed(g: Graph) {
    g.entry in g.nodes
    && (forall n :: n in g.edges <==> n in g.nodes)
    && (forall n :: n in g.edges ==> EdgeTargetsIn(g, g.edges[n]))
  }

  /** The nodes that have an edge to END. */
  function EndingNodes(g: Graph): set<string> {
    set n | n in g.edges && LeadsToEnd(g.edges[n])
  }

  /** In a well-formed graph, a run can end only after one of the graph's declared nodes. */
  lemma EndingNodesAreNodes(g: Graph)
    requires WellFormed(g)
    ensures forall n :: n in EndingNodes(g) ==> n in g.nodes
  {
  }
}
