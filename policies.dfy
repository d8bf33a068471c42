/** The two tool-using agents side by side. They resolve and call tools the same way
    except for the "llm_tool" fallback and the handling of a tool name that is not a
    string, and they fold the outcomes differently: the concurrent agent records a
    failing call under its name and goes on, the sequential one abandons the batch. */
module Policies {
  import opened PyValues
  import opened Dicts
  import opened Text
  import opened Oracles
  import Tools
  import Fold
  import S = SingleAgent
  import Q = SequentialAgent

  /** The call names no registered tool and either its name is not a string or it is
      "llm_tool" ignoring case: the only calls the two agents resolve differently. */
  predicate UsesFallback(tools: seq<Tools.OwnTool>, call: PyVal)
  {
    var name := Subscript(call, "tool_name");
    && name.Ok? && Subscript(call, "parameter").Ok?
    && S.FindTool(tools, name.value).None?
    && (!name.value.PyStr? || Lower(name.value.s) == S.Sentinel)
  }

  /** With the same tools, one call has the same outcome under both agents, unless it
      takes the concurrent agent's fallback. */
  lemma CallsAgreeOutsideFallback(a: S.Agent, sa: Q.Agent, llm: Llm, task: PyVal, call: PyVal)
    requires a.tools == sa.tools
    requires !UsesFallback(a.tools, call)
    ensures S.CallTool(a, llm, task, call) == Q.RunCall(sa, call)
  {
  }

  /** A fallback call with a string name is answered directly by the concurrent agent
      and is an unknown tool to the sequential one. */
  lemma SentinelOnlyConcurrent(a: S.Agent, sa: Q.Agent, llm: Llm, task: PyVal, call: PyVal, n: string)
    requires a.tools == sa.tools
    requires UsesFallback(a.tools, call) && Subscript(call, "tool_name") == Ok(PyStr(n))
    ensures var out := S.AnswerDirectly(a, llm, task);
      S.CallTool(a, llm, task, call) == (if out.Ok? then Ok((n, out.value)) else Err(out.error))
    ensures Q.RunCall(sa, call) == Err(ValueError("Tool '" + n + "' not found."))
  {
  }

  /** A fallback call whose name is not a string fails in both agents, with different
      exceptions: the concurrent agent tries to lower-case the name. */
  lemma NonStringNameFailsDifferently(a: S.Agent, sa: Q.Agent, llm: Llm, task: PyVal, call: PyVal)
    requires a.tools == sa.tools
    requires UsesFallback(a.tools, call) && !Subscript(call, "tool_name").value.PyStr?
    ensures var name := Subscript(call, "tool_name").value;
      && S.CallTool(a, llm, task, call) == Err(AttributeError("'" + TypeName(name) + "' object has no attribute 'lower'"))
      && Q.RunCall(sa, call) == Err(ValueError("Tool '" + Repr(name) + "' not found."))
  {
  }

  /** When every planned call succeeds and the calls name distinct tools, both agents
      produce a results dict with the same contents. */
  lemma SameResultsWhenAllSucceed(a: S.Agent, sa: Q.Agent, llm: Llm, decode: Decoder, schedule: Scheduler,
                                  task: PyVal, reply: string, action: PyVal, calls: seq<PyVal>)
    requires a.tools == sa.tools && ValidScheduler(schedule)
    requires llm(Planning(S.ToolsInfo(a.tools)), task) == Ok(reply)
    requires decode(StripFence(reply)) == Parsed(action)
    requires S.PlannedCalls(action) == Ok(calls) && S.DistinctlyNamed(calls)
    requires forall i :: 0 <= i < |calls| ==> Q.RunCall(sa, calls[i]).Ok?
    ensures S.ToolsPhase(a, llm, decode, schedule, task).Ok? && S.ToolsPhase(a, llm, decode, schedule, task).value.Results?
    ensures Q.ToolsPhase(sa, llm, decode, task).Ok? && Q.ToolsPhase(sa, llm, decode, task).value.Results?
    ensures SameContents(S.ToolsPhase(a, llm, decode, schedule, task).value.dict, Q.ToolsPhase(sa, llm, decode, task).value.dict)
  {
    S.FailuresAreRecorded(a, llm, decode, schedule, task, reply, action, calls);
    var d1 := S.ToolsPhase(a, llm, decode, schedule, task).value.dict;
    Q.RunCallsOkIff(sa, calls);
    var d2 := Q.RunCalls(sa, calls).value;
    assert Q.ToolsPhase(sa, llm, decode, task) == Ok(S.Results(d2));
    forall j | 0 <= j < |calls|
      ensures Q.RunCall(sa, calls[j]).value.0 == Subscript(calls[j], "tool_name").value.s
    {
      Q.RunCallKeepsName(sa, calls[j]);
    }
    forall k
      ensures Get(d1, k) == Get(d2, k)
    {
      if !S.Unnamed(calls, k) {
        var j :| 0 <= j < |calls| && KStr(Subscript(calls[j], "tool_name").value.s) == k;
        assert Q.LastUse(sa, calls, j) by {
          forall q | j < q < |calls|
            ensures Q.RunCall(sa, calls[q]).value.0 != Q.RunCall(sa, calls[j]).value.0
          {
            assert Subscript(calls[q], "tool_name") != Subscript(calls[j], "tool_name");
          }
        }
        Q.LastWriterWins(sa, calls, j);
        CallsAgreeOutsideFallback(a, sa, llm, task, calls[j]);
      } else {
        Q.OnlyCalledNames(sa, calls, k);
      }
    }
  }

  /** A one-call plan whose call fails (outside the fallback): the concurrent agent
      records "Failed to get info: <msg>." inside the results dict, under the tool's
      name, whatever the exception; the sequential agent returns the failure text
      alone, and for a JSONDecodeError that text is "Failed to decode JSON: <msg>.". */
  lemma FailingCallDiverges(a: S.Agent, sa: Q.Agent, llm: Llm, decode: Decoder, schedule: Scheduler,
                            task: PyVal, reply: string, action: PyVal, call: PyVal, n: string)
    requires a.tools == sa.tools && ValidScheduler(schedule)
    requires llm(Planning(S.ToolsInfo(a.tools)), task) == Ok(reply)
    requires decode(StripFence(reply)) == Parsed(action)
    requires S.PlannedCalls(action) == Ok([call])
    requires Subscript(call, "tool_name") == Ok(PyStr(n)) && !UsesFallback(a.tools, call)
    requires Q.RunCall(sa, call).Err?
    ensures var e := Q.RunCall(sa, call).error;
      && S.ToolsPhase(a, llm, decode, schedule, task) == Ok(S.Results([(KStr(n), S.FailedInfo(e))]))
      && Q.ToolsPhase(sa, llm, decode, task) == Ok(S.Report(S.Caught(e)))
      && (e.JSONDecodeError? ==> Q.ToolsPhase(sa, llm, decode, task) == Ok(S.Report(S.DecodeFailed(e.msg))))
  {
    var text := S.FailedInfo(Q.RunCall(sa, call).error);
    CallsAgreeOutsideFallback(a, sa, llm, task, call);
    S.EntryOfNamedCall(a, llm, task, call, n);
    var entries := S.Entries(a, llm, task, [call]);
    assert entries[0] == Ok((KStr(n), text));
    var order := schedule([call]);
    assert IsPermutation(order, 1);
    assert 0 in order;
    assert order == [0];
    assert Fold.Collect(entries, order, []) == Fold.Collect(entries, [], [(KStr(n), text)]);
    Q.FirstFailureAbortsBatch(sa, llm, decode, task, reply, action, [call], 0);
  }
}
