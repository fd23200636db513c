/**
 * The Python exceptions that the modelled code can raise, and `str(e)` of each.
 * The wording of built-in TypeError/AttributeError messages is not reproduced;
 * a KeyError's text is the quoted key, as in Python.
 */
module Faults {

  datatype Exn =
    | KeyError(key: string)            // dict[key] on a dict without that key
    | TypeError(detail: string)        // subscript or iteration on a value of the wrong type
    | AttributeError(detail: string)   // `.get` on something that is not a dict
    | ValueError(detail: string)       // raised explicitly by the code
    | LlmFailure                       // the language-model call raised
    | InvalidRoute(key: string)        // a router returned a key missing from its table
    | DeadEnd(node: string)            // a node without an outgoing edge
    | UnknownNode(node: string)        // an edge leads to a node the flow does not define
    | RecursionLimit                   // the step budget of one run was used up

  /** `str(e)` */
  function Message(e: Exn): string {
    match e
    case KeyError(k) => "'" + k + "'"
    case TypeError(d) => d
    case AttributeError(d) => d
    case ValueError(d) => d
    case LlmFailure => "language model call failed"
    case InvalidRoute(k) => "unroutable decision: " + k
    case DeadEnd(n) => "no outgoing edge from node: " + n
    case UnknownNode(n) => "unknown node: " + n
    case RecursionLimit => "recursion limit reached"
  }
}
