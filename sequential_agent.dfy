/** The earlier, sequential tool-using agent: the planned calls run one after the
    other in plan order, and the first call that raises abandons the whole batch. */
module SequentialAgent {
  import opened PyValues
  import opened Dicts
  import opened Text
  import opened Oracles
  import opened Tools
  import Fold
  import S = SingleAgent

  class Agent {
    const tools: seq<OwnTool>
    const name: string
    const description: string
    const sampleOutput: string
    const verbose: bool
    var taskToDo: PyVal

    constructor(tools: seq<OwnTool>, name: string, description: string, sampleOutput: string, task: PyVal, verbose: bool)
      ensures this.tools == tools && this.name == name && this.description == description
      ensures this.sampleOutput == sampleOutput && this.verbose == verbose && taskToDo == task
    {
      this.tools := tools;
      this.name := name;
      this.description := description;
      this.sampleOutput := sampleOutput;
      this.verbose := verbose;
      this.taskToDo := task;
    }

    /** `_run_with_tools`: one loop over the planned calls, leaving at the first
        exception. */
    method RunWithTools(llm: Llm, decode: Decoder) returns (r: Result<S.ToolsOutput>)
      ensures r == ToolsPhase(this, llm, decode, taskToDo)
    {
      var reply := llm(Planning(S.ToolsInfo(tools)), taskToDo);
      if reply.Err? {
        return Err(reply.error);
      }
      var response := StripFence(reply.value);
      match decode(response) {
        case DecodeError(m) =>
          return Ok(S.Report(S.DecodeFailed(m)));
        case Parsed(action) =>
          var planned := S.PlannedCalls(action);
          if planned.Err? {
            return Ok(S.Report(S.Caught(planned.error)));
          }
          var out := CollectResults(planned.value);
          return Ok(out);
      }
    }

    /** The loop over the planned calls, in plan order: each result is stored under
        its tool name, and the first call that raises ends the loop. */
    method CollectResults(calls: seq<PyVal>) returns (out: S.ToolsOutput)
      ensures out == S.Output(RunCalls(this, calls))
    {
      ghost var outs := Outcomes(this, calls);
      ghost var order := Fold.Indices(|calls|);
      ghost var outcome := RunCalls(this, calls);
      var results: StrDict := [];
      for i := 0 to |calls|
        invariant outcome == Fold.Collect(outs, order[i..], results)
      {
        var named := RunCall(this, calls[i]);
        assert order[i..][0] == i && order[i..][1..] == order[i + 1..];
        if named.Err? {
          assert outs[i] == Err(named.error);
          return S.Report(S.Caught(named.error));
        }
        results := Store(results, KStr(named.value.0), named.value.1);
      }
      assert order[|calls|..] == [];
      return S.Results(results);
    }

    /** `run`: the direct answer without tools, otherwise the summary of the tools'
        output. */
    method Run(llm: Llm, decode: Decoder) returns (r: Result<string>)
      ensures r == Answer(this, llm, decode, taskToDo)
    {
      if tools == [] {
        r := AnswerDirectly(this, llm, taskToDo);
        return;
      }
      var out := RunWithTools(llm, decode);
      if out.Err? {
        return Err(out.error);
      }
      r := Ok(Summarise(this, llm, taskToDo, S.Show(out.value)));
    }
  }

  function AnswerDirectly(a: Agent, llm: Llm, task: PyVal): Result<string>
  {
    llm(DirectAnswer(a.name, a.description, a.sampleOutput), task)
  }

  /** One pass of the loop body: read the name and parameter, find the tool by exact
      name (there is no "llm_tool" fallback here) and call it. */
  function RunCall(a: Agent, call: PyVal): (r: Result<(string, string)>)
    ensures r.Ok? ==> exists i :: 0 <= i < |a.tools| && a.tools[i].func.name == r.value.0
  {
    var toolName :- Subscript(call, "tool_name");
    var query :- Subscript(call, "parameter");
    match S.FindTool(a.tools, toolName)
    case None => Err(ValueError("Tool '" + Str(toolName) + "' not found."))
    case Some(i) =>
      var out :- a.tools[i].Call(S.ArgumentsFor(a.tools[i], query), []);
      Ok((toolName.s, out))
  }

  /** What one pass adds to `results`: the answer under its tool name, or the
      exception that ends the loop. */
  function CallOutcome(a: Agent, call: PyVal): Fold.Outcome
  {
    match RunCall(a, call)
    case Ok(named) => Ok((KStr(named.0), named.1))
    case Err(e) => Err(e)
  }

  function Outcomes(a: Agent, calls: seq<PyVal>): (r: seq<Fold.Outcome>)
    ensures |r| == |calls| && forall i :: 0 <= i < |calls| ==> r[i] == CallOutcome(a, calls[i])
  {
    seq(|calls|, i requires 0 <= i < |calls| => CallOutcome(a, calls[i]))
  }

  /** The loop: store each answer under its tool name, in plan order, leaving at the
      first exception. */
  function RunCalls(a: Agent, calls: seq<PyVal>): Result<StrDict>
  {
    Fold.Collect(Outcomes(a, calls), Fold.Indices(|calls|), [])
  }

  /** `_run_with_tools` for a given task: a planning failure raises; everything after
      the model reply is caught and reported as text. */
  function ToolsPhase(a: Agent, llm: Llm, decode: Decoder, task: PyVal): (r: Result<S.ToolsOutput>)
    ensures r.Err? <==> llm(Planning(S.ToolsInfo(a.tools)), task).Err?
    ensures r.Err? ==> r.error == llm(Planning(S.ToolsInfo(a.tools)), task).error
  {
    var reply :- llm(Planning(S.ToolsInfo(a.tools)), task);
    match decode(StripFence(reply))
    case DecodeError(m) => Ok(S.Report(S.DecodeFailed(m)))
    case Parsed(action) =>
      match S.PlannedCalls(action)
      case Err(e) => Ok(S.Report(S.Caught(e)))
      case Ok(calls) =>
        Ok(S.Output(RunCalls(a, calls)))
  }

  function Summarise(a: Agent, llm: Llm, task: PyVal, shown: string): string
  {
    var prompt := "[QUERY]\n" + Str(task) + "\n\n[TOOLS]\n" + shown;
    match llm(Summarising(a.name, S.ToolsInfo(a.tools), a.sampleOutput), PyStr(prompt))
    case Ok(summary) => summary
    case Err(e) => "Failed to get summary: " + Message(e) + "."
  }

  function Answer(a: Agent, llm: Llm, decode: Decoder, task: PyVal): (r: Result<string>)
    ensures a.tools != [] ==> (r.Err? <==> llm(Planning(S.ToolsInfo(a.tools)), task).Err?)
  {
    if a.tools == [] then AnswerDirectly(a, llm, task)
    else
      var out :- ToolsPhase(a, llm, decode, task);
      Ok(Summarise(a, llm, task, S.Show(out)))
  }

  // ---------------------------------------------------------------------------
  // One call

  /** A successful call reports the tool name it was asked for. */
  lemma RunCallKeepsName(a: Agent, call: PyVal)
    requires RunCall(a, call).Ok?
    ensures Subscript(call, "tool_name") == Ok(PyStr(RunCall(a, call).value.0))
  {
    var toolName := Subscript(call, "tool_name").value;
    var i := S.FindTool(a.tools, toolName).value;
    assert toolName == PyStr(a.tools[i].func.name);
  }

  /** Lookup is by exact name only: an unregistered name, "llm_tool" included,
      raises ValueError("Tool '<name>' not found."). */
  lemma UnknownToolFails(a: Agent, call: PyVal, n: string)
    requires Subscript(call, "tool_name") == Ok(PyStr(n)) && Subscript(call, "parameter").Ok?
    requires forall j :: 0 <= j < |a.tools| ==> a.tools[j].func.name != n
    ensures RunCall(a, call) == Err(ValueError("Tool '" + n + "' not found."))
  {
  }

  /** A registered tool is called with the parameter and its answer or exception is
      the call's outcome. */
  lemma RegisteredToolCalled(a: Agent, call: PyVal, n: string, query: PyVal, i: nat)
    requires Subscript(call, "tool_name") == Ok(PyStr(n)) && Subscript(call, "parameter") == Ok(query)
    requires i < |a.tools| && a.tools[i].func.name == n && a.tools[i].Valid()
    requires forall j :: 0 <= j < i ==> a.tools[j].func.name != n
    ensures var out := a.tools[i].func.body([query], []);
      RunCall(a, call) == if out.Ok? then Ok((n, out.value)) else Err(out.error)
  {
    assert S.FindTool(a.tools, PyStr(n)) == Some(i);
  }

  // ---------------------------------------------------------------------------
  // The loop

  /** The batch succeeds exactly when every call does. */
  lemma RunCallsOkIff(a: Agent, calls: seq<PyVal>)
    ensures RunCalls(a, calls).Ok? <==> forall i :: 0 <= i < |calls| ==> RunCall(a, calls[i]).Ok?
  {
    var outs := Outcomes(a, calls);
    var order := Fold.Indices(|calls|);
    Fold.CollectOkIff(outs, order, []);
    if forall i :: 0 <= i < |calls| ==> RunCall(a, calls[i]).Ok? {
      assert Fold.AllOk(outs, order);
    } else {
      var i :| 0 <= i < |calls| && RunCall(a, calls[i]).Err?;
      assert outs[order[i]].Err?;
    }
  }

  /** A failing batch fails with the exception of its first failing call in plan
      order, whatever the later calls would have done. */
  lemma FirstFailureEndsBatch(a: Agent, calls: seq<PyVal>, i: nat)
    requires i < |calls| && RunCall(a, calls[i]).Err?
    requires forall h :: 0 <= h < i ==> RunCall(a, calls[h]).Ok?
    ensures RunCalls(a, calls) == Err(RunCall(a, calls[i]).error)
  {
    var outs := Outcomes(a, calls);
    var order := Fold.Indices(|calls|);
    assert outs[order[i]] == Err(RunCall(a, calls[i]).error);
    assert forall h :: 0 <= h < i ==> outs[order[h]].Ok?;
    Fold.FirstFailureWins(outs, order, [], i);
  }

  /** No later call in the batch succeeds under the same tool name as call `i`. */
  ghost predicate LastUse(a: Agent, calls: seq<PyVal>, i: nat)
    requires i < |calls| && RunCall(a, calls[i]).Ok?
  {
    forall j :: i < j < |calls| && RunCall(a, calls[j]).Ok? ==> RunCall(a, calls[j]).value.0 != RunCall(a, calls[i]).value.0
  }

  /** After a successful batch, each name holds the answer of the last call that used
      it: a later duplicate overwrites an earlier one. */
  lemma LastWriterWins(a: Agent, calls: seq<PyVal>, i: nat)
    requires RunCalls(a, calls).Ok?
    requires i < |calls| && RunCall(a, calls[i]).Ok? && LastUse(a, calls, i)
    ensures Get(RunCalls(a, calls).value, KStr(RunCall(a, calls[i]).value.0)) == Some(RunCall(a, calls[i]).value.1)
  {
    var outs := Outcomes(a, calls);
    var order := Fold.Indices(|calls|);
    RunCallsOkIff(a, calls);
    assert Fold.AllOk(outs, order);
    var named := RunCall(a, calls[i]).value;
    assert outs[order[i]] == Ok((KStr(named.0), named.1));
    assert Fold.LastFor(outs, order, i) by {
      forall q | i < q < |order|
        ensures outs[order[q]].value.0 != KStr(named.0)
      {
        assert RunCall(a, calls[q]).Ok?;
        assert outs[order[q]].value.0 == KStr(RunCall(a, calls[q]).value.0);
      }
    }
    Fold.LastWriterWins(outs, order, [], i);
  }

  /** After a successful batch, the dict holds exactly the names the calls used. */
  lemma OnlyCalledNames(a: Agent, calls: seq<PyVal>, k: Key)
    requires RunCalls(a, calls).Ok?
    requires forall j :: 0 <= j < |calls| ==> RunCall(a, calls[j]).Ok? ==> KStr(RunCall(a, calls[j]).value.0) != k
    ensures Get(RunCalls(a, calls).value, k) == None
  {
    var outs := Outcomes(a, calls);
    var order := Fold.Indices(|calls|);
    RunCallsOkIff(a, calls);
    assert Fold.AllOk(outs, order);
    assert Fold.NotKeyed(outs, order, k) by {
      forall j | 0 <= j < |order|
        ensures outs[order[j]].value.0 != k
      {
        assert RunCall(a, calls[j]).Ok?;
      }
    }
    Fold.UnkeyedUnchanged(outs, order, [], k);
  }

  /** Two calls to the same tool: the second answer is the one kept. */
  lemma DuplicateOverwrites(a: Agent, c1: PyVal, c2: PyVal)
    requires RunCall(a, c1).Ok? && RunCall(a, c2).Ok?
    requires RunCall(a, c1).value.0 == RunCall(a, c2).value.0
    ensures RunCalls(a, [c1, c2]) == Ok([(KStr(RunCall(a, c2).value.0), RunCall(a, c2).value.1)])
  {
    var r1, r2 := RunCall(a, c1).value, RunCall(a, c2).value;
    var outs := Outcomes(a, [c1, c2]);
    assert outs == [Ok((KStr(r1.0), r1.1)), Ok((KStr(r1.0), r2.1))];
    SameKeyTwice(KStr(r1.0), r1.1, r2.1);
  }

  /** Storing two values under one key in turn leaves one entry, holding the second. */
  lemma SameKeyTwice(k: Key, v1: string, v2: string)
    ensures Fold.Collect([Ok((k, v1)), Ok((k, v2))], Fold.Indices(2), []) == Ok([(k, v2)])
  {
    var outs: seq<Fold.Outcome> := [Ok((k, v1)), Ok((k, v2))];
    var order := Fold.Indices(2);
    var d1 := Store([], k, v1);
    assert order[1..] == [1] && [1][1..] == [];
    assert Fold.Collect(outs, order, []) == Fold.Collect(outs, [1], d1);
    assert d1 == [(k, v1)];
    assert Store(d1, k, v2) == [(k, v2)] by {
      assert d1[1..] == [];
    }
  }

  // ---------------------------------------------------------------------------
  // The tool phase

  /** A plan without "func_calling" gives an empty dict. */
  lemma NoPlannedCallsNoResults(a: Agent, llm: Llm, decode: Decoder, task: PyVal, reply: string, action: PyVal)
    requires llm(Planning(S.ToolsInfo(a.tools)), task) == Ok(reply)
    requires decode(StripFence(reply)) == Parsed(action)
    requires action.PyDict? && Lookup(action.entries, "func_calling").None?
    ensures ToolsPhase(a, llm, decode, task) == Ok(S.Results([]))
  {
    assert S.PlannedCalls(action) == Ok([]);
  }

  /** The first failing call in plan order (an unknown tool, a tool that raises, a
      malformed call) turns the whole phase into one failure text, and the answers
      gathered so far are dropped: "Failed to decode JSON: <msg>." when the call
      raised a JSONDecodeError (a tool decoding a bad reply, say), otherwise
      "Failed to get info: <msg>.". */
  lemma FirstFailureAbortsBatch(a: Agent, llm: Llm, decode: Decoder, task: PyVal, reply: string, action: PyVal, calls: seq<PyVal>, i: nat)
    requires llm(Planning(S.ToolsInfo(a.tools)), task) == Ok(reply)
    requires decode(StripFence(reply)) == Parsed(action)
    requires S.PlannedCalls(action) == Ok(calls)
    requires i < |calls| && RunCall(a, calls[i]).Err?
    requires forall h :: 0 <= h < i ==> RunCall(a, calls[h]).Ok?
    ensures var e := RunCall(a, calls[i]).error;
      && ToolsPhase(a, llm, decode, task) == Ok(S.Report(S.Caught(e)))
      && (e.JSONDecodeError? ==> ToolsPhase(a, llm, decode, task) == Ok(S.Report(S.DecodeFailed(e.msg))))
      && (!e.JSONDecodeError? ==> ToolsPhase(a, llm, decode, task) == Ok(S.Report(S.FailedInfo(e))))
  {
    FirstFailureEndsBatch(a, calls, i);
  }

  /** Without tools, `run` is the direct answer; with tools, it is the summariser's
      reply or "Failed to get summary: <msg>."; a planning failure leaves `run`. */
  lemma RunBranches(a: Agent, llm: Llm, decode: Decoder, task: PyVal)
    ensures a.tools == [] ==> Answer(a, llm, decode, task) == AnswerDirectly(a, llm, task)
    ensures a.tools != [] && ToolsPhase(a, llm, decode, task).Err? ==>
      Answer(a, llm, decode, task) == Err(ToolsPhase(a, llm, decode, task).error)
    ensures a.tools != [] && ToolsPhase(a, llm, decode, task).Ok? ==>
      var shown := S.Show(ToolsPhase(a, llm, decode, task).value);
      var summary := llm(Summarising(a.name, S.ToolsInfo(a.tools), a.sampleOutput),
                         PyStr("[QUERY]\n" + Str(task) + "\n\n[TOOLS]\n" + shown));
      Answer(a, llm, decode, task) ==
        Ok(if summary.Ok? then summary.value else "Failed to get summary: " + Message(summary.error) + ".")
  {
  }
}
