/** The collaborators the agents call but that are not part of this model: the
    language model, `json.loads`, and the thread pool's completion order. Each is a
    parameter, so every property proved holds whatever they do. */
module Oracles {
  import opened PyValues

  /** Which system prompt is in force when the model is asked. The agents re-initialise
      one shared model before every phase; a phase carries the agent fields its prompt
      mentions, so two agents with different profiles may get different answers. */
  datatype Phase =
    | Persona(name: string, description: string)
    | DirectAnswer(name: string, description: string, sampleOutput: string)
    | Planning(toolsInfo: string)
    | Summarising(name: string, toolsInfo: string, sampleOutput: string)
    | Coordinating(agentsInfo: string)

  /** `llm.run(prompt)` under a phase: a reply, or the exception the backend raised. */
  type Llm = (Phase, PyVal) -> Result<string>

  /** What `json.loads` makes of a text. */
  datatype Decoded = Parsed(value: PyVal) | DecodeError(msg: string)

  type Decoder = string -> Decoded

  /** `order` lists each of `0 .. n-1` exactly once. */
  predicate IsPermutation(order: seq<nat>, n: nat)
  {
    && |order| == n
    && (forall i :: 0 <= i < |order| ==> order[i] < n)
    && (forall i, j :: 0 <= i < j < |order| ==> order[i] != order[j])
    && (forall j :: 0 <= j < n ==> j in order)
  }

  /** The order in which `as_completed` hands back the futures of a batch of calls. */
  type Scheduler = seq<PyVal> -> seq<nat>

  /** Every submitted future completes exactly once. */
  ghost predicate ValidScheduler(schedule: Scheduler)
  {
    forall calls :: IsPermutation(schedule(calls), |calls|)
  }

}
