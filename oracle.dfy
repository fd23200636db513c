/**
 * The language model each flow holds (`self.llm`), as an oracle: a script of
 * replies, one consumed per `invoke`. A call when the script is used up stands
 * for a call that raised. Prompts are not modelled.
 */
module Oracle {
  import opened Wrappers
  import opened Faults

  /** One call, on the script as a value: the reply and what is left of the script. */
  function Call(replies: seq<string>): (r: Result<(string, seq<string>), Exn>)
    ensures replies == [] <==> r.Err?
    ensures r.Ok? ==> [r.value.0] + r.value.1 == replies
  {
    if replies == [] then Err(LlmFailure) else Ok((replies[0], replies[1..]))
  }

  class Llm {
    var replies: seq<string>

    constructor (script: seq<string>)
      ensures replies == script
    {
      replies := script;
    }

    /** `self.llm.invoke(...)`: the next reply of the script. */
    method Invoke() returns (r: Result<string, Exn>)
      modifies this
      ensures old(replies) == [] ==> r == Err(LlmFailure) && replies == []
      ensures old(replies) != [] ==> r == Ok(old(replies)[0]) && replies == old(replies)[1..]
    {
      if replies == [] {
        return Err(LlmFailure);
      }
      r := Ok(replies[0]);
      replies := replies[1..];
    }
  }
}
