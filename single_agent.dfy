/** The tool-using agent: it asks the model for a plan of tool calls, runs every call
    in a thread pool, records each outcome (or its failure) under the call's tool
    name, and has the model summarise the results. */
module SingleAgent {
  import opened PyValues
  import opened Dicts
  import opened Text
  import opened Oracles
  import opened Tools
  import opened Fold

  /** The pseudo-tool that asks the model itself. */
  const Sentinel := "llm_tool"

  /** What `_run_with_tools` returns: the results dict, or an error text. */
  datatype ToolsOutput = Results(dict: StrDict) | Report(text: string)

  class Agent {
    const tools: seq<OwnTool>
    const name: string
    const description: string
    const sampleOutput: string
    const verbose: bool
    /** The question; a network may replace it with any decoded value. */
    var taskToDo: PyVal
    /** `self.tools_info`, set by the first tool run. */
    var toolsInfo: Option<string>

    constructor(tools: seq<OwnTool>, name: string, description: string, sampleOutput: string, task: PyVal, verbose: bool)
      ensures this.tools == tools && this.name == name && this.description == description
      ensures this.sampleOutput == sampleOutput && this.verbose == verbose
      ensures taskToDo == task && toolsInfo == None
    {
      this.tools := tools;
      this.name := name;
      this.description := description;
      this.sampleOutput := sampleOutput;
      this.verbose := verbose;
      this.taskToDo := task;
      this.toolsInfo := None;
    }

    /** `_run_with_tools`: plan, then run every planned call and fold the outcomes in
        the order the calls complete. */
    method RunWithTools(llm: Llm, decode: Decoder, schedule: Scheduler) returns (r: Result<ToolsOutput>)
      requires ValidScheduler(schedule)
      modifies this
      ensures taskToDo == old(taskToDo) && toolsInfo == Some(ToolsInfo(tools))
      ensures r == ToolsPhase(this, llm, decode, schedule, taskToDo)
    {
      toolsInfo := Some(ToolsInfo(tools));
      var reply := llm(Planning(ToolsInfo(tools)), taskToDo);
      if reply.Err? {
        return Err(reply.error);
      }
      var response := StripFence(reply.value);
      match decode(response) {
        case DecodeError(m) =>
          return Ok(Report(DecodeFailed(m)));
        case Parsed(action) =>
          var planned := PlannedCalls(action);
          if planned.Err? {
            return Ok(Report(Caught(planned.error)));
          }
          var calls := planned.value;
          var order := schedule(calls);
          assert IsPermutation(order, |calls|);
          var out := CollectResults(llm, taskToDo, calls, order);
          return Ok(out);
      }
    }

    /** The loop over the finished calls, in the order they complete: each outcome is
        stored under its tool name, and the loop ends at the first call whose failure
        cannot be recorded. */
    method CollectResults(llm: Llm, task: PyVal, calls: seq<PyVal>, order: seq<nat>) returns (out: ToolsOutput)
      requires InRange(order, |calls|)
      ensures out == Output(Collect(Entries(this, llm, task, calls), order, []))
    {
      ghost var entries := Entries(this, llm, task, calls);
      ghost var outcome := Collect(entries, order, []);
      var results: StrDict := [];
      var k := 0;
      while k < |order|
        invariant 0 <= k <= |order|
        invariant outcome == Collect(entries, order[k..], results)
      {
        var entry := Entry(this, llm, task, calls[order[k]]);
        assert entry == entries[order[k]];
        assert order[k..][1..] == order[k + 1..];
        if entry.Err? {
          return Report(Caught(entry.error));
        }
        results := Store(results, entry.value.0, entry.value.1);
        k := k + 1;
      }
      assert order[k..] == [];
      return Results(results);
    }

    /** `run`: answer directly when there are no tools, otherwise run the tools and
        have the model summarise what they returned. */
    method Run(llm: Llm, decode: Decoder, schedule: Scheduler) returns (r: Result<string>)
      requires ValidScheduler(schedule)
      modifies this
      ensures taskToDo == old(taskToDo)
      ensures toolsInfo == if tools == [] then old(toolsInfo) else Some(ToolsInfo(tools))
      ensures r == Answer(this, llm, decode, schedule, taskToDo)
    {
      if tools == [] {
        r := AnswerDirectly(this, llm, taskToDo);
        return;
      }
      var out := RunWithTools(llm, decode, schedule);
      if out.Err? {
        return Err(out.error);
      }
      r := Ok(Summarise(this, llm, taskToDo, Show(out.value)));
    }
  }

  function ToolLine(t: OwnTool): string
  {
    "Tool Name: " + t.func.name + " - " + t.description + "\nTool Parameters: " + Str(t.params)
  }

  /** `self.tools_info`: one line pair per tool, joined by newlines. */
  function ToolsInfo(tools: seq<OwnTool>): (r: string)
    ensures tools == [] ==> r == ""
    ensures |tools| == 1 ==> r == ToolLine(tools[0])
  {
    Join("\n", seq(|tools|, i requires 0 <= i < |tools| => ToolLine(tools[i])))
  }

  /** Each further tool adds a newline and its own lines at the end of the listing. */
  lemma ToolsInfoAppend(tools: seq<OwnTool>, tool: OwnTool)
    requires tools != []
    ensures ToolsInfo(tools + [tool]) == ToolsInfo(tools) + "\n" + ToolLine(tool)
  {
    var lines := seq(|tools|, i requires 0 <= i < |tools| => ToolLine(tools[i]));
    var all := tools + [tool];
    assert seq(|all|, i requires 0 <= i < |all| => ToolLine(all[i])) == lines + [ToolLine(tool)];
    JoinAppend("\n", lines, ToolLine(tool));
  }

  function FailedInfo(e: PyError): string
  {
    "Failed to get info: " + Message(e) + "."
  }

  function DecodeFailed(msg: string): string
  {
    "Failed to decode JSON: " + msg + "."
  }

  /** What the `except json.JSONDecodeError` clause and then the `except Exception`
      clause around the tool phase return for an exception that reaches them. */
  function Caught(e: PyError): string
  {
    if e.JSONDecodeError? then DecodeFailed(e.msg) else FailedInfo(e)
  }

  /** The text a handler returns tells which clause caught the exception: only a
      JSONDecodeError is reported as "Failed to decode JSON: ...". */
  lemma CaughtTellsDecodeErrors(e: PyError)
    ensures StartsWith(Caught(e), "Failed to decode JSON: ") <==> e.JSONDecodeError?
  {
    var t := Caught(e);
    if !e.JSONDecodeError? {
      assert t[10] == 'g';
    }
  }

  /** The first tool at or after `i` whose function name equals `name`. */
  function FindToolFrom(tools: seq<OwnTool>, name: PyVal, i: nat): (r: Option<nat>)
    requires i <= |tools|
    ensures r.Some? ==> i <= r.value < |tools| && name == PyStr(tools[r.value].func.name)
    ensures r.Some? ==> forall j :: i <= j < r.value ==> name != PyStr(tools[j].func.name)
    ensures r.None? <==> forall j :: i <= j < |tools| ==> name != PyStr(tools[j].func.name)
    decreases |tools| - i
  {
    if i == |tools| then None
    else if name == PyStr(tools[i].func.name) then Some(i)
    else FindToolFrom(tools, name, i + 1)
  }

  /** `next((tool for tool in self.tools if tool.func.__name__ == tool_name), None)`:
      the first tool, in list order, whose name is exactly `name`; a name that is not
      a string matches nothing. */
  function FindTool(tools: seq<OwnTool>, name: PyVal): (r: Option<nat>)
    ensures r.Some? ==> r.value < |tools| && name == PyStr(tools[r.value].func.name)
    ensures r.Some? ==> forall j :: 0 <= j < r.value ==> name != PyStr(tools[j].func.name)
    ensures r.None? <==> forall j :: 0 <= j < |tools| ==> name != PyStr(tools[j].func.name)
  {
    FindToolFrom(tools, name, 0)
  }

  /** The positional arguments a tool is called with: none when its `params` is None,
      otherwise the call's "parameter" value. */
  function ArgumentsFor(tool: OwnTool, query: PyVal): seq<PyVal>
  {
    if tool.params == PyNone then [] else [query]
  }

  /** Since `params` is always a dict, every tool is called with the parameter. */
  lemma ToolsGetTheParameter(tool: OwnTool, query: PyVal)
    requires tool.Valid()
    ensures ArgumentsFor(tool, query) == [query]
  {
  }

  /** `_run_no_tool`: the model answers the agent's task under the direct-answer prompt. */
  function AnswerDirectly(a: Agent, llm: Llm, task: PyVal): Result<string>
  {
    llm(DirectAnswer(a.name, a.description, a.sampleOutput), task)
  }

  /** `_call_tool(call)`: the tool name and the tool's answer, or the exception. */
  function CallTool(a: Agent, llm: Llm, task: PyVal, call: PyVal): (r: Result<(string, string)>)
    ensures r.Ok? ==> (exists i :: 0 <= i < |a.tools| && a.tools[i].func.name == r.value.0) || Lower(r.value.0) == Sentinel
  {
    var toolName :- Subscript(call, "tool_name");
    var query :- Subscript(call, "parameter");
    match FindTool(a.tools, toolName)
    case Some(i) =>
      var out :- a.tools[i].Call(ArgumentsFor(a.tools[i], query), []);
      Ok((toolName.s, out))
    case None =>
      if !toolName.PyStr? then
        Err(AttributeError("'" + TypeName(toolName) + "' object has no attribute 'lower'"))
      else if Lower(toolName.s) == Sentinel then
        var out :- AnswerDirectly(a, llm, task);
        Ok((toolName.s, out))
      else
        Err(ValueError("Tool '" + toolName.s + "' not found."))
  }

  /** What one completed future adds to `results`: the call's own (key, text), or the
      exception that escapes the inner handler when re-reading `call['tool_name']`
      fails or the name cannot be a dict key. */
  function Entry(a: Agent, llm: Llm, task: PyVal, call: PyVal): Outcome
  {
    match CallTool(a, llm, task, call)
    case Ok(named) => Ok((KStr(named.0), named.1))
    case Err(e) =>
      var toolName :- Subscript(call, "tool_name");
      var key :- AsKey(toolName);
      Ok((key, FailedInfo(e)))
  }

  function Entries(a: Agent, llm: Llm, task: PyVal, calls: seq<PyVal>): (r: seq<Outcome>)
    ensures |r| == |calls| && forall i :: 0 <= i < |calls| ==> r[i] == Entry(a, llm, task, calls[i])
  {
    seq(|calls|, i requires 0 <= i < |calls| => Entry(a, llm, task, calls[i]))
  }

  /** `action.get("func_calling", [])`, iterated. */
  function PlannedCalls(action: PyVal): Result<seq<PyVal>>
  {
    ListUnder(action, "func_calling")
  }

  /** `_run_with_tools` for a given task: a planning failure raises; everything after
      the model reply is caught and reported as text. */
  function ToolsPhase(a: Agent, llm: Llm, decode: Decoder, schedule: Scheduler, task: PyVal): (r: Result<ToolsOutput>)
    requires ValidScheduler(schedule)
    ensures r.Err? <==> llm(Planning(ToolsInfo(a.tools)), task).Err?
    ensures r.Err? ==> r.error == llm(Planning(ToolsInfo(a.tools)), task).error
  {
    var reply :- llm(Planning(ToolsInfo(a.tools)), task);
    match decode(StripFence(reply))
    case DecodeError(m) => Ok(Report(DecodeFailed(m)))
    case Parsed(action) =>
      match PlannedCalls(action)
      case Err(e) => Ok(Report(Caught(e)))
      case Ok(calls) =>
        Ok(Output(Collect(Entries(a, llm, task, calls), schedule(calls), [])))
  }

  /** The results dict of a loop that completed, or the failure text of one that
      raised. */
  function Output(collected: Result<StrDict>): ToolsOutput
  {
    match collected
    case Ok(d) => Results(d)
    case Err(e) => Report(Caught(e))
  }

  /** How the tools' output appears in the summary prompt: `str()` of it. */
  function Show(out: ToolsOutput): string
  {
    match out
    case Results(d) => DictRepr(d)
    case Report(t) => t
  }

  /** The summarising step of `run`; a failure becomes a text. */
  function Summarise(a: Agent, llm: Llm, task: PyVal, shown: string): string
  {
    var prompt := "[QUERY]\n" + Str(task) + "\n\n[TOOLS]\n" + shown;
    match llm(Summarising(a.name, ToolsInfo(a.tools), a.sampleOutput), PyStr(prompt))
    case Ok(summary) => summary
    case Err(e) => "Failed to get summary: " + Message(e) + "."
  }

  /** `run` for a given task. */
  function Answer(a: Agent, llm: Llm, decode: Decoder, schedule: Scheduler, task: PyVal): (r: Result<string>)
    requires ValidScheduler(schedule)
    ensures a.tools != [] ==> (r.Err? <==> llm(Planning(ToolsInfo(a.tools)), task).Err?)
  {
    if a.tools == [] then AnswerDirectly(a, llm, task)
    else
      var out :- ToolsPhase(a, llm, decode, schedule, task);
      Ok(Summarise(a, llm, task, Show(out)))
  }

  // ---------------------------------------------------------------------------
  // Tool-call resolution

  /** A tool whose name matches exactly is called with the parameter, and its answer
      (or exception) is the call's outcome; this holds for a registered tool named
      "llm_tool" too, which therefore shadows the built-in answer. */
  lemma RegisteredToolWins(a: Agent, llm: Llm, task: PyVal, call: PyVal, n: string, query: PyVal, i: nat)
    requires Subscript(call, "tool_name") == Ok(PyStr(n)) && Subscript(call, "parameter") == Ok(query)
    requires i < |a.tools| && a.tools[i].func.name == n && a.tools[i].Valid()
    requires forall j :: 0 <= j < i ==> a.tools[j].func.name != n
    ensures var out := a.tools[i].func.body([query], []);
      CallTool(a, llm, task, call) == if out.Ok? then Ok((n, out.value)) else Err(out.error)
  {
    assert FindTool(a.tools, PyStr(n)) == Some(i);
  }

  /** With no tool of that exact name, a name equal to "llm_tool" ignoring case is
      answered by the model under the direct-answer prompt for the agent's own task;
      the call's parameter is read but not used. */
  lemma SentinelAnswersDirectly(a: Agent, llm: Llm, task: PyVal, call: PyVal, n: string)
    requires Subscript(call, "tool_name") == Ok(PyStr(n)) && Subscript(call, "parameter").Ok?
    requires forall j :: 0 <= j < |a.tools| ==> a.tools[j].func.name != n
    requires Lower(n) == Sentinel
    ensures var out := AnswerDirectly(a, llm, task);
      CallTool(a, llm, task, call) == if out.Ok? then Ok((n, out.value)) else Err(out.error)
  {
  }

  /** Any other unknown name raises ValueError("Tool '<name>' not found."). */
  lemma UnknownToolFails(a: Agent, llm: Llm, task: PyVal, call: PyVal, n: string)
    requires Subscript(call, "tool_name") == Ok(PyStr(n)) && Subscript(call, "parameter").Ok?
    requires forall j :: 0 <= j < |a.tools| ==> a.tools[j].func.name != n
    requires Lower(n) != Sentinel
    ensures CallTool(a, llm, task, call) == Err(ValueError("Tool '" + n + "' not found."))
  {
  }

  /** A call without "parameter" fails before any lookup, even for "llm_tool". */
  lemma MissingParameterFails(a: Agent, llm: Llm, task: PyVal, call: PyVal, n: string)
    requires Subscript(call, "tool_name") == Ok(PyStr(n))
    requires call.PyDict? && Lookup(call.entries, "parameter").None?
    ensures CallTool(a, llm, task, call) == Err(KeyError("parameter"))
  {
  }

  /** A successful call reports the tool name it was asked for. */
  lemma CallToolKeepsName(a: Agent, llm: Llm, task: PyVal, call: PyVal)
    requires CallTool(a, llm, task, call).Ok?
    ensures Subscript(call, "tool_name") == Ok(PyStr(CallTool(a, llm, task, call).value.0))
  {
    var toolName := Subscript(call, "tool_name").value;
    var found := FindTool(a.tools, toolName);
    if found.Some? {
      assert toolName == PyStr(a.tools[found.value].func.name);
    }
  }

  /** What `results[tool_name]` holds for a call: the tool's answer, or the failure text. */
  function Recorded(a: Agent, llm: Llm, task: PyVal, call: PyVal): string
  {
    match CallTool(a, llm, task, call)
    case Ok(named) => named.1
    case Err(e) => FailedInfo(e)
  }

  /** A call whose "tool_name" is a string always contributes an entry, keyed by that
      name, holding the answer or "Failed to get info: <msg>."; a failing tool does
      not end the batch. */
  lemma EntryOfNamedCall(a: Agent, llm: Llm, task: PyVal, call: PyVal, n: string)
    requires Subscript(call, "tool_name") == Ok(PyStr(n))
    ensures Entry(a, llm, task, call) == Ok((KStr(n), Recorded(a, llm, task, call)))
  {
    if CallTool(a, llm, task, call).Ok? {
      CallToolKeepsName(a, llm, task, call);
    }
  }

  /** An entry aborts the batch exactly when the call has no readable "tool_name" or
      the name is a list or dict (unhashable). */
  lemma EntryFailsIff(a: Agent, llm: Llm, task: PyVal, call: PyVal)
    ensures Entry(a, llm, task, call).Err? <==>
      Subscript(call, "tool_name").Err? || Subscript(call, "tool_name").value.PyList? || Subscript(call, "tool_name").value.PyDict?
  {
    if CallTool(a, llm, task, call).Ok? {
      CallToolKeepsName(a, llm, task, call);
    }
  }

  // ---------------------------------------------------------------------------
  // The tool phase

  /** Every call is a dict-like value whose "tool_name" is a string, and no two calls
      name the same tool. */
  ghost predicate DistinctlyNamed(calls: seq<PyVal>)
  {
    && (forall i :: 0 <= i < |calls| ==> Subscript(calls[i], "tool_name").Ok? && Subscript(calls[i], "tool_name").value.PyStr?)
    && (forall i, j :: 0 <= i < |calls| && 0 <= j < |calls| && i != j ==>
          Subscript(calls[i], "tool_name") != Subscript(calls[j], "tool_name"))
  }

  /** No call names key `k`. */
  ghost predicate Unnamed(calls: seq<PyVal>, k: Key)
    requires forall j :: 0 <= j < |calls| ==> Subscript(calls[j], "tool_name").Ok? && Subscript(calls[j], "tool_name").value.PyStr?
  {
    forall j :: 0 <= j < |calls| ==> KStr(Subscript(calls[j], "tool_name").value.s) != k
  }

  /** The results dict of a batch of distinctly named calls: each call's name holds its
      answer or its failure text, and nothing else is in it. */
  lemma NamedCallsAllRecorded(a: Agent, llm: Llm, task: PyVal, calls: seq<PyVal>, order: seq<nat>)
    requires DistinctlyNamed(calls) && IsPermutation(order, |calls|)
    ensures Collect(Entries(a, llm, task, calls), order, []).Ok?
    ensures var d := Collect(Entries(a, llm, task, calls), order, []).value;
      && (forall j :: 0 <= j < |calls| ==>
            Get(d, KStr(Subscript(calls[j], "tool_name").value.s)) == Some(Recorded(a, llm, task, calls[j])))
      && (forall k :: Unnamed(calls, k) ==> Get(d, k) == None)
  {
    var entries := Entries(a, llm, task, calls);
    forall j | 0 <= j < |calls|
      ensures entries[j] == Ok((KStr(Subscript(calls[j], "tool_name").value.s), Recorded(a, llm, task, calls[j])))
    {
      EntryOfNamedCall(a, llm, task, calls[j], Subscript(calls[j], "tool_name").value.s);
    }
    assert forall x, y :: 0 <= x < |entries| && 0 <= y < |entries| && x != y && entries[x].Ok? && entries[y].Ok? ==>
      entries[x].value.0 != entries[y].value.0 by {
      forall x, y | 0 <= x < |entries| && 0 <= y < |entries| && x != y
        ensures entries[x].value.0 != entries[y].value.0
      {
        assert Subscript(calls[x], "tool_name") != Subscript(calls[y], "tool_name");
      }
    }
    assert InRange(order, |entries|) && NoRepeats(order);
    assert AllOk(entries, order);
    CollectOkIff(entries, order, []);
    var d := Collect(entries, order, []).value;
    forall j | 0 <= j < |calls|
      ensures Get(d, KStr(Subscript(calls[j], "tool_name").value.s)) == Some(Recorded(a, llm, task, calls[j]))
    {
      assert j in order;
      var i :| 0 <= i < |order| && order[i] == j;
      assert entries[order[i]] == entries[j];
      DistinctKeysAreLast(entries, order, i);
      LastWriterWins(entries, order, [], i);
    }
    forall k | Unnamed(calls, k)
      ensures Get(d, k) == None
    {
      assert NotKeyed(entries, order, k) by {
        forall i | 0 <= i < |order|
          ensures entries[order[i]].value.0 != k
        {
          assert order[i] < |calls|;
        }
      }
      UnkeyedUnchanged(entries, order, [], k);
    }
  }

  /** A decoded plan without "func_calling" yields an empty results dict, and no call
      is made. */
  lemma NoPlannedCallsNoResults(a: Agent, llm: Llm, decode: Decoder, schedule: Scheduler, task: PyVal, reply: string, action: PyVal)
    requires ValidScheduler(schedule)
    requires llm(Planning(ToolsInfo(a.tools)), task) == Ok(reply)
    requires decode(StripFence(reply)) == Parsed(action)
    requires action.PyDict? && Lookup(action.entries, "func_calling").None?
    ensures PlannedCalls(action) == Ok([])
    ensures ToolsPhase(a, llm, decode, schedule, task) == Ok(Results([]))
  {
    assert IsPermutation(schedule([]), 0);
  }

  /** A plan of distinctly named calls yields a results dict holding, under each name,
      that call's answer or "Failed to get info: <msg>.", whatever order the calls
      complete in. */
  lemma FailuresAreRecorded(a: Agent, llm: Llm, decode: Decoder, schedule: Scheduler, task: PyVal, reply: string, action: PyVal, calls: seq<PyVal>)
    requires ValidScheduler(schedule)
    requires llm(Planning(ToolsInfo(a.tools)), task) == Ok(reply)
    requires decode(StripFence(reply)) == Parsed(action)
    requires PlannedCalls(action) == Ok(calls) && DistinctlyNamed(calls)
    ensures ToolsPhase(a, llm, decode, schedule, task).Ok?
    ensures ToolsPhase(a, llm, decode, schedule, task).value.Results?
    ensures var d := ToolsPhase(a, llm, decode, schedule, task).value.dict;
      && (forall j :: 0 <= j < |calls| ==>
            Get(d, KStr(Subscript(calls[j], "tool_name").value.s)) == Some(Recorded(a, llm, task, calls[j])))
      && (forall k :: Unnamed(calls, k) ==> Get(d, k) == None)
  {
    NamedCallsAllRecorded(a, llm, task, calls, schedule(calls));
    var d := Collect(Entries(a, llm, task, calls), schedule(calls), []).value;
    assert ToolsPhase(a, llm, decode, schedule, task) == Ok(Results(d));
  }

  /** The completion order does not change the contents of the results dict when the
      calls name distinct tools. */
  lemma ScheduleDoesNotMatter(a: Agent, llm: Llm, decode: Decoder, s1: Scheduler, s2: Scheduler, task: PyVal, reply: string, action: PyVal, calls: seq<PyVal>)
    requires ValidScheduler(s1) && ValidScheduler(s2)
    requires llm(Planning(ToolsInfo(a.tools)), task) == Ok(reply)
    requires decode(StripFence(reply)) == Parsed(action)
    requires PlannedCalls(action) == Ok(calls) && DistinctlyNamed(calls)
    ensures ToolsPhase(a, llm, decode, s1, task).Ok? && ToolsPhase(a, llm, decode, s1, task).value.Results?
    ensures ToolsPhase(a, llm, decode, s2, task).Ok? && ToolsPhase(a, llm, decode, s2, task).value.Results?
    ensures SameContents(ToolsPhase(a, llm, decode, s1, task).value.dict, ToolsPhase(a, llm, decode, s2, task).value.dict)
  {
    FailuresAreRecorded(a, llm, decode, s1, task, reply, action, calls);
    FailuresAreRecorded(a, llm, decode, s2, task, reply, action, calls);
    var d1 := ToolsPhase(a, llm, decode, s1, task).value.dict;
    var d2 := ToolsPhase(a, llm, decode, s2, task).value.dict;
    forall k
      ensures Get(d1, k) == Get(d2, k)
    {
      if !Unnamed(calls, k) {
        var j :| 0 <= j < |calls| && KStr(Subscript(calls[j], "tool_name").value.s) == k;
      }
    }
  }

  /** A call that lacks "tool_name" makes the whole phase return a failure text instead
      of a results dict, whichever order the calls complete in: the handler re-reads
      the missing key. */
  lemma MissingToolNameAborts(a: Agent, llm: Llm, decode: Decoder, schedule: Scheduler, task: PyVal, reply: string, action: PyVal, calls: seq<PyVal>, j: nat)
    requires ValidScheduler(schedule)
    requires llm(Planning(ToolsInfo(a.tools)), task) == Ok(reply)
    requires decode(StripFence(reply)) == Parsed(action)
    requires PlannedCalls(action) == Ok(calls)
    requires j < |calls| && Subscript(calls[j], "tool_name").Err?
    ensures ToolsPhase(a, llm, decode, schedule, task).Ok?
    ensures ToolsPhase(a, llm, decode, schedule, task).value.Report?
  {
    var entries := Entries(a, llm, task, calls);
    var order := schedule(calls);
    assert entries[j].Err? by {
      EntryFailsIff(a, llm, task, calls[j]);
    }
    assert IsPermutation(order, |calls|);
    assert j in order;
    var i :| 0 <= i < |order| && order[i] == j;
    CollectOkIff(entries, order, []);
    assert !AllOk(entries, order);
    assert Collect(entries, order, []).Err?;
    assert ToolsPhase(a, llm, decode, schedule, task) == Ok(Report(Caught(Collect(entries, order, []).error)));
  }

  /** The reply is stripped, un-fenced and handed to the decoder; a decode error is
      reported as "Failed to decode JSON: <msg>.". */
  lemma DecodeErrorReported(a: Agent, llm: Llm, decode: Decoder, schedule: Scheduler, task: PyVal, reply: string, msg: string)
    requires ValidScheduler(schedule)
    requires llm(Planning(ToolsInfo(a.tools)), task) == Ok(reply)
    requires decode(StripFence(reply)) == DecodeError(msg)
    ensures ToolsPhase(a, llm, decode, schedule, task) == Ok(Report("Failed to decode JSON: " + msg + "."))
  {
  }

  /** A plan that is not a dict (a list, say) has no `get`, which is reported as a
      failure text. */
  lemma PlanWithoutGetReported(a: Agent, llm: Llm, decode: Decoder, schedule: Scheduler, task: PyVal, reply: string, action: PyVal)
    requires ValidScheduler(schedule)
    requires llm(Planning(ToolsInfo(a.tools)), task) == Ok(reply)
    requires decode(StripFence(reply)) == Parsed(action) && !action.PyDict?
    ensures ToolsPhase(a, llm, decode, schedule, task) ==
      Ok(Report(FailedInfo(AttributeError("'" + TypeName(action) + "' object has no attribute 'get'"))))
  {
  }

  /** A failure of the planning call itself is not caught: it leaves `run`. */
  lemma PlanningFailureRaises(a: Agent, llm: Llm, decode: Decoder, schedule: Scheduler, task: PyVal)
    requires ValidScheduler(schedule)
    requires a.tools != [] && llm(Planning(ToolsInfo(a.tools)), task).Err?
    ensures Answer(a, llm, decode, schedule, task) == Err(llm(Planning(ToolsInfo(a.tools)), task).error)
  {
  }

  /** Without tools, `run` is the direct answer; with tools, it is the summariser's
      reply to "[QUERY]\n<task>\n\n[TOOLS]\n<results>", or "Failed to get summary: <msg>.". */
  lemma RunBranches(a: Agent, llm: Llm, decode: Decoder, schedule: Scheduler, task: PyVal)
    requires ValidScheduler(schedule)
    ensures a.tools == [] ==> Answer(a, llm, decode, schedule, task) == AnswerDirectly(a, llm, task)
    ensures a.tools != [] && ToolsPhase(a, llm, decode, schedule, task).Ok? ==>
      var shown := Show(ToolsPhase(a, llm, decode, schedule, task).value);
      var summary := llm(Summarising(a.name, ToolsInfo(a.tools), a.sampleOutput),
                         PyStr("[QUERY]\n" + Str(task) + "\n\n[TOOLS]\n" + shown));
      Answer(a, llm, decode, schedule, task) ==
        Ok(if summary.Ok? then summary.value else "Failed to get summary: " + Message(summary.error) + ".")
  {
  }
}
