# Arche-ai agents, modelled in Dafny

Arche-ai builds agents on top of a language model. This project models the core of its agent layer and proves properties of the model:

- **The tool-using `Agent`** (`agents/Your_Agent.py`). It asks the model for a JSON plan of tool calls (`func_calling`). It runs every call in a thread pool and records each result, or its failure text, under the call's tool name. Then it has the model summarise the results. The pseudo-tool `llm_tool` makes the agent answer the question itself.
- **The sequential `Agent`** (`Test.py`). It follows the same plan format, but runs the calls one after the other and abandons the batch at the first failing call.
- **`AgentNetwork`** (`agents/Network.py`). It asks its model for a plan of agent calls (`agent_calling`). It hands each named agent (matched ignoring case) its task description and runs it. The last agent's answer is what the network reports.
- **`OwnTool`** (`tools/own_tool.py`). A user function packaged with a description and its keyword arguments.
- **The message history of the Gemini and DeepSeek wrappers** (`llms/Gemini.py`, `llms/deepseek.py`). A Python list of `{"role", "parts"}` messages. It is appended to and popped in place, and it is read and written through integer and slice indices.

The language model, `json.loads`, the tool functions, the Gemini chat session, the DeepSeek streaming client and the thread pool's completion order cannot be seen from the modelled code. Each one is a parameter:

- `Llm`: a reply or an exception per system-prompt phase and prompt.
- `Decoder`: a parsed value or a decode error message.
- `Callable.body`, `Chat` and `Client`.
- `Scheduler`: any permutation of the submitted calls.

An exception from any of them keeps its class where a handler tells classes apart. A `json.JSONDecodeError` raised by a tool function or by a model backend is a `PyError.JSONDecodeError`, like one raised by `json.loads`. The outer handlers of both agents and of the network report it as "Failed to decode JSON: …." (`Test.py:150-153`, `Your_Agent.py:159-162`, `Network.py:79-82`). That is the job of `SingleAgent.Caught`. Every property therefore holds whatever these collaborators do.

Modules, one per source concern:

| module | file | models |
|---|---|---|
| `PyValues` | python.dfy | decoded JSON values, exceptions and their `str()`, `d[k]`, `d.get(k, default)`, `for x in v` |
| `Dicts` | dicts.dfy | the `results` dict: hashable keys, insertion order, `d[k] = v`, `str(d)` |
| `Text` | text.dfy | `strip()`, the "```json" fence removal, `lower()`, `join` |
| `Oracles` | oracles.dfy | the model, the decoder and the completion order as parameters |
| `Tools` | own_tool.py → own_tool.dfy | `OwnTool` |
| `Fold` | fold.dfy | the loop both agents use to fill `results`, for any visiting order |
| `SingleAgent` | single_agent.dfy | the concurrent agent |
| `SequentialAgent` | sequential_agent.dfy | the sequential agent |
| `Policies` | policies.dfy | how the two agents agree and differ |
| `Network` | network.dfy | `AgentNetwork` |
| `History` | history.dfy | the shared message list and Python list indexing |
| `GeminiLlm`, `DeepSeekLlm` | gemini.dfy, deepseek.dfy | the two wrappers |

Imperative code keeps its form:

- The agents, the network, the tools, the wrappers and the message list are classes whose methods update their fields.
- The two result-collecting loops and the network's loop over agent calls are `while`/`for` loops, each proved against a function that specifies it (`Fold.Collect`, `Network.DispatchAll`).
- The network's loop leaves each agent it runs holding its new task. The ghost predicate `AgentNetwork.AgentsReflect` says exactly which agents changed.

Behaviours of the code worth noting:

- The `llm_tool` fallback compares the lower-cased name (`Your_Agent.py:186`), so "LLM_Tool" also takes it.
- A reply that does not decode is reported as "Failed to decode JSON: …." (`Your_Agent.py:159-162`). It is not turned into a direct answer.
- A failed summary is reported as "Failed to get summary: …." (`Your_Agent.py:236-237`). It is not retried as a direct answer.
- An exception from the planning request itself is not caught (`Your_Agent.py:133`, `Network.py:48`): `PlanningFailureRaises`.
- The network plans once and runs every planned call. An agent's answer is never fed back to the planner, and only the last answer is kept (`Network.py:48-92`).
- An unknown agent name does not raise out of the network. It ends the batch with the text "Failed to get info: Agent '…' not found." (`Network.py:69-70, 83-86`).
- A tool has no parameter schema. `**params` collects every extra keyword into a dict (`own_tool.py:4-16`).
- Only Gemini has a `reset`; DeepSeek has none.

## Model

| member | source | states |
|---|---|---|
| PyValues.Subscript | Arche-ai/agents/Your_Agent.py:175-176 | `d[key]` succeeds exactly on a dict holding the key; on a dict without it, it raises KeyError(key) |
| PyValues.GetOr | Arche-ai/agents/Your_Agent.py:145 | `v.get(key, default)` succeeds exactly on dicts, and a missing key gives the default |
| PyValues.Iterate | Arche-ai/agents/Your_Agent.py:145 | `for x in v` succeeds exactly on lists, strings and dicts: a list yields its own items, a string as many items as it has characters, a dict as many as it has keys |
| PyValues.DigitsRoundTrip | Arche-ai/agents/Network.py:151 | the decimal text `str()` gives a natural number reads back as that number, so an int agent name is shown without loss |
| PyValues.IteratedTextHasNoFields | Arche-ai/agents/Your_Agent.py:145-146 | if the call list of a plan is a string or a dict, each "call" is a string, and `call["tool_name"]` on it raises TypeError |
| Dicts.AsKey | Arche-ai/agents/Your_Agent.py:157 | a tool name can key `results` exactly when it is not a list or a dict; a string keys as itself |
| Dicts.Get | Arche-ai/agents/Your_Agent.py:151 | `results.get(k)` finds a value exactly when `k` is one of the dict's keys |
| Dicts.Store | Arche-ai/agents/Your_Agent.py:151 | after `results[k] = v`: `k` maps to `v`; every other key keeps its value; the key set gains `k`; an existing key adds no entry, and a new key is appended at the end |
| Dicts.StoreKeepsKeysUnique | Arche-ai/agents/Your_Agent.py:151 | storing never makes a key appear twice |
| Dicts.DictRepr | Arche-ai/agents/Your_Agent.py:230 | `str(results)` is enclosed in braces, is `{}` for an empty dict and `{key: value}` for one entry |
| Dicts.DictReprAppend | Arche-ai/agents/Your_Agent.py:151 | storing a new key adds ", key: value" before the closing brace and leaves the entries already shown unchanged, so `str(results)` lists the entries in insertion order |
| Text.Strip | Arche-ai/agents/Your_Agent.py:133 | `strip()` returns text with no whitespace at either end, no longer than the input |
| Text.StripKeepsMiddle | Arche-ai/agents/Your_Agent.py:133 | what `strip()` returns is one contiguous piece of the input, and everything removed before and after it is whitespace |
| Text.StripUnique | Arche-ai/agents/Your_Agent.py:133 | any piece with no whitespace at either end and only whitespace around it is exactly what `strip()` returns |
| Text.StripStripped | Arche-ai/agents/Your_Agent.py:133 | text with no whitespace at either end is unchanged by `strip()` (so stripping is idempotent) |
| Text.StripPadding | Arche-ai/agents/Your_Agent.py:133 | whitespace around a text does not change what `strip()` returns |
| Text.StripFence | Arche-ai/agents/Your_Agent.py:133-139 | the text handed to the decoder is stripped and no longer than the reply |
| Text.FenceRoundTrip | Arche-ai/agents/Your_Agent.py:138-139 | a payload wrapped in "```json" … "```", with any whitespace around the fence, reaches the decoder as the stripped payload |
| Text.UnfencedIsOnlyStripped | Arche-ai/agents/Your_Agent.py:138-139 | a reply that is not fenced once stripped is only stripped |
| Text.BareObjectUnchanged | Arche-ai/agents/Your_Agent.py:138-140 | a reply that is a bare JSON object reaches the decoder exactly as stripped |
| Text.ProseBeforeFenceIsKept | Arche-ai/agents/Your_Agent.py:138 | a fence preceded by prose is not removed: the whole reply goes to the decoder |
| Text.Lower | Arche-ai/agents/Your_Agent.py:186 | `lower()` keeps the length and lowers each ASCII capital |
| Text.LowerIdempotent | Arche-ai/agents/Network.py:68 | lowering twice equals lowering once |
| Text.Join | Arche-ai/agents/Your_Agent.py:61-64 | joining no parts gives "" and joining one part gives that part |
| Text.JoinAppend | Arche-ai/agents/Your_Agent.py:61-64 | one more part adds the separator and that part at the end, so the separator stands exactly between consecutive parts |
| Tools.OwnTool.constructor | Arche-ai/tools/own_tool.py:4-16 | `func` and `description` are kept as given, and `params` is the dict of the extra keywords, so it is never None |
| Tools.OwnTool.Call | Arche-ai/tools/own_tool.py:18-19 | calling a tool forwards the positional and keyword arguments to its function unchanged and returns or raises what it does (a forwarding with no contract of its own) |
| Tools.ParamsAreAlwaysADict | Arche-ai/tools/own_tool.py:4-16 | a tool built without extra keywords has `params == {}`; one built with `params=None` has `{'params': None}`; neither is None |
| SingleAgent.Agent.constructor | Arche-ai/agents/Your_Agent.py:9-43 | every field is set as given, and `tools_info` is not yet set |
| SingleAgent.Agent.RunWithTools | Arche-ai/agents/Your_Agent.py:59-172 | sets `tools_info` to the tools' description, leaves the task unchanged, and returns what `ToolsPhase` specifies |
| SingleAgent.Agent.CollectResults | Arche-ai/agents/Your_Agent.py:142-166 | the `as_completed` loop returns the dict `Fold.Collect` builds from the outcomes in completion order, or, for the first outcome that cannot be recorded, the text the outer handlers give its exception (`Caught`) |
| SingleAgent.Agent.Run | Arche-ai/agents/Your_Agent.py:198-237 | returns `Answer`; `tools_info` is set only when the agent has tools |
| SingleAgent.ToolsInfo | Arche-ai/agents/Your_Agent.py:61-64 | `tools_info` is empty without tools and is a single tool's name, description and `params` for one tool |
| SingleAgent.ToolsInfoAppend | Arche-ai/agents/Your_Agent.py:61-64 | one more tool adds a newline and its own lines at the end of `tools_info` |
| SingleAgent.AnswerDirectly | Arche-ai/agents/Your_Agent.py:45-57 | `_run_no_tool`: one model request under the prompt built from the agent's name, description and sample output (no contract of its own; `RunBranches` and `SentinelAnswersDirectly` state where its reply is returned) |
| SingleAgent.CallTool | Arche-ai/agents/Your_Agent.py:174-196 | `_call_tool`: a call that succeeds names a registered tool or the "llm_tool" fallback (in any case) |
| SingleAgent.ToolsPhase | Arche-ai/agents/Your_Agent.py:59-172 | `_run_with_tools` raises exactly when the planning request raises, with that exception; every later failure is caught and reported as text |
| SingleAgent.Answer | Arche-ai/agents/Your_Agent.py:198-237 | `run` of an agent with tools raises exactly when its planning request raises |
| SingleAgent.Caught | Arche-ai/agents/Your_Agent.py:159-166 | the outer handlers: "Failed to decode JSON: <msg>." for a JSONDecodeError, "Failed to get info: <msg>." for any other exception |
| SingleAgent.CaughtTellsDecodeErrors | Arche-ai/agents/Your_Agent.py:159-166 | a handler's text starts with "Failed to decode JSON: " exactly when it caught a JSONDecodeError |
| SingleAgent.FindTool | Arche-ai/agents/Your_Agent.py:184 | finds the first tool whose `__name__` equals the name, and returns None exactly when no tool has that name |
| SingleAgent.ToolsGetTheParameter | Arche-ai/agents/Your_Agent.py:191-194 | since `params` is never None, a tool is always called with the call's parameter |
| SingleAgent.RegisteredToolWins | Arche-ai/agents/Your_Agent.py:184-196 | a call naming a registered tool runs the first tool of that name on the parameter and returns the tool's name with its result, or its exception |
| SingleAgent.SentinelAnswersDirectly | Arche-ai/agents/Your_Agent.py:185-187 | an unregistered name equal to "llm_tool" ignoring case gets the model's direct answer |
| SingleAgent.UnknownToolFails | Arche-ai/agents/Your_Agent.py:185-189 | any other unregistered string name raises ValueError "Tool '<name>' not found." |
| SingleAgent.MissingParameterFails | Arche-ai/agents/Your_Agent.py:175-176 | a call without "parameter" raises KeyError('parameter') |
| SingleAgent.CallToolKeepsName | Arche-ai/agents/Your_Agent.py:174-196 | a successful call returns the call's own tool name |
| SingleAgent.EntryOfNamedCall | Arche-ai/agents/Your_Agent.py:149-157 | a call with a string tool name is recorded under that name, as the tool's result or as "Failed to get info: …." |
| SingleAgent.EntryFailsIff | Arche-ai/agents/Your_Agent.py:154-157 | recording a call raises exactly when the call has no "tool_name" or its tool name is a list or dict |
| SingleAgent.NamedCallsAllRecorded | Arche-ai/agents/Your_Agent.py:142-157 | for distinctly named calls, in any completion order, every call's outcome is recorded under its name and no other key is present |
| SingleAgent.NoPlannedCallsNoResults | Arche-ai/agents/Your_Agent.py:145 | a plan dict without "func_calling" gives an empty results dict |
| SingleAgent.FailuresAreRecorded | Arche-ai/agents/Your_Agent.py:142-172 | with distinctly named calls the tool phase returns a results dict holding every call's result or failure text, and nothing else |
| SingleAgent.ScheduleDoesNotMatter | Arche-ai/agents/Your_Agent.py:147-157 | with distinctly named calls, any two completion orders give dicts with the same contents |
| SingleAgent.MissingToolNameAborts | Arche-ai/agents/Your_Agent.py:154-166 | if a planned call has no "tool_name", the whole phase returns a failure text instead of results |
| SingleAgent.DecodeErrorReported | Arche-ai/agents/Your_Agent.py:159-162 | a reply that does not decode returns "Failed to decode JSON: <msg>." |
| SingleAgent.PlanWithoutGetReported | Arche-ai/agents/Your_Agent.py:163-166 | a decoded plan that is not a dict returns "Failed to get info: '<type>' object has no attribute 'get'." |
| SingleAgent.PlanningFailureRaises | Arche-ai/agents/Your_Agent.py:133 | if the planning request raises, `run` raises the same exception |
| SingleAgent.RunBranches | Arche-ai/agents/Your_Agent.py:198-237 | without tools `run` is the direct answer; with tools it is the model's summary of "[QUERY]…[TOOLS]…", or "Failed to get summary: …." |
| Fold.CollectOkIff | Arche-ai/agents/Your_Agent.py:147-157 | the loop completes exactly when every visited outcome can be recorded |
| Fold.FirstFailureWins | Arche-ai/agents/Your_Agent.py:154-166 | a loop that meets a failure ends with the first failure it visits |
| Fold.UnkeyedUnchanged | Arche-ai/agents/Your_Agent.py:151 | a key that no visit stores keeps its value from before the loop |
| Fold.LastWriterWins | Arche-ai/agents/Your_Agent.py:151 | the last visit that stores a key decides its value |
| Fold.DistinctKeysAreLast | Arche-ai/agents/Your_Agent.py:151 | with pairwise distinct keys, every visit is the last one for its key |
| Fold.CollectFromSomeOutcome | Arche-ai/agents/Your_Agent.py:147-157 | whatever the order, every stored value was there before the loop or comes from a visited outcome with that key |
| SequentialAgent.Agent.constructor | Arche-ai/Test.py:8-42 | every field is set as given |
| SequentialAgent.Agent.RunWithTools | Arche-ai/Test.py:58-163 | returns what `ToolsPhase` specifies |
| SequentialAgent.Agent.CollectResults | Arche-ai/Test.py:125-157 | the loop over the calls in plan order returns the dict `RunCalls` specifies, or, for the first call that raises, the text the two handlers give its exception (`Caught`: "Failed to decode JSON" for a JSONDecodeError) |
| SequentialAgent.Agent.Run | Arche-ai/Test.py:165-203 | returns `Answer` |
| SequentialAgent.AnswerDirectly | Arche-ai/Test.py:44-56 | `_run_no_tool`: one model request under the prompt built from the agent's name, description and sample output (no contract of its own; the sequential `RunBranches` states where its reply is returned) |
| SequentialAgent.RunCall | Arche-ai/Test.py:127-146 | one pass of the loop: a call that succeeds names a registered tool; there is no "llm_tool" fallback |
| SequentialAgent.RunCalls | Arche-ai/Test.py:125-146 | the loop as `Fold.Collect` over the calls in plan order, starting from `{}`, stopping at the first call that raises |
| SequentialAgent.ToolsPhase | Arche-ai/Test.py:58-163 | `_run_with_tools` raises exactly when the planning request raises, with that exception; every later failure is caught and reported as text |
| SequentialAgent.Answer | Arche-ai/Test.py:165-203 | `run` of an agent with tools raises exactly when its planning request raises |
| SequentialAgent.RunCallKeepsName | Arche-ai/Test.py:127-146 | a successful call returns the call's own tool name |
| SequentialAgent.UnknownToolFails | Arche-ai/Test.py:137-139 | an unregistered string name raises ValueError "Tool '<name>' not found.", "llm_tool" included |
| SequentialAgent.RegisteredToolCalled | Arche-ai/Test.py:137-146 | a registered name runs the first tool of that name on the parameter |
| SequentialAgent.RunCallsOkIff | Arche-ai/Test.py:126-146 | the batch completes exactly when every call succeeds |
| SequentialAgent.FirstFailureEndsBatch | Arche-ai/Test.py:126-157 | the first call that raises ends the batch with its exception |
| SequentialAgent.LastWriterWins | Arche-ai/Test.py:146 | the last call of a name decides that name's value |
| SequentialAgent.OnlyCalledNames | Arche-ai/Test.py:146 | a key no successful call produced is absent from the results |
| SequentialAgent.DuplicateOverwrites | Arche-ai/Test.py:146 | two calls of the same tool leave one entry holding the second result |
| SequentialAgent.NoPlannedCallsNoResults | Arche-ai/Test.py:126 | a plan dict without "func_calling" gives an empty results dict |
| SequentialAgent.FirstFailureAbortsBatch | Arche-ai/Test.py:126-157 | the first failing call makes the tool phase return one text and no results: "Failed to decode JSON: …." when it raised a JSONDecodeError, otherwise "Failed to get info: …." |
| SequentialAgent.RunBranches | Arche-ai/Test.py:165-203 | without tools `run` is the direct answer; a raising tool phase raises; otherwise `run` returns the summary or "Failed to get summary: …." |
| Policies.CallsAgreeOutsideFallback | Arche-ai/agents/Your_Agent.py:174-196 | with the same tools, both agents give a call the same outcome unless it takes the concurrent agent's fallback |
| Policies.SentinelOnlyConcurrent | Arche-ai/agents/Your_Agent.py:185-189 | an "llm_tool" call is answered directly by the concurrent agent and is an unknown tool to the sequential one |
| Policies.NonStringNameFailsDifferently | Arche-ai/agents/Your_Agent.py:186 | an unregistered name that is not a string raises AttributeError (no `lower`) in the concurrent agent, and ValueError in the sequential one |
| Policies.SameResultsWhenAllSucceed | Arche-ai/agents/Your_Agent.py:142-157 | when every call succeeds and the names are distinct, both agents build dicts with the same contents |
| Policies.FailingCallDiverges | Arche-ai/agents/Your_Agent.py:154-157 | for a one-call plan that fails, the concurrent agent returns `{name: "Failed to get info: …."}` whatever the exception, while the sequential agent returns its handlers' text alone, "Failed to decode JSON: …." for a JSONDecodeError |
| Network.AgentNetwork.constructor | Arche-ai/agents/Network.py:8-39 | fields are set as given, the model gets the network's persona prompt, and `agents_info`, `agent_name` and `task_description` are unset |
| Network.AgentNetwork.RunAgents | Arche-ai/agents/Network.py:41-92 | sets `agents_info`, returns what `Coordinate` specifies, and leaves the network and every agent in the state it specifies |
| Network.AgentNetwork.RunCalls | Arche-ai/agents/Network.py:58-92 | the loop over the agent calls ends as `DispatchAll` specifies, with `agent_response` initially unset; an exception that ends it is reported by `Caught` |
| Network.AgentsInfo | Arche-ai/agents/Network.py:43-46 | `agents_info` is empty without agents and is "Agent Name: <name> - <description>" for one agent |
| Network.AgentsInfoAppend | Arche-ai/agents/Network.py:43-46 | one more agent adds a newline and its own line at the end of `agents_info` |
| Network.DispatchAll | Arche-ai/agents/Network.py:58-78 | the loop over the resolved calls runs to the end exactly when no call raises, and when it stops, it stops with the exception of one of the calls |
| Network.Conclude | Arche-ai/agents/Network.py:79-92 | the only exception `_run_agents` lets out of a finished loop is the unset `agent_response`, and the state is the loop's |
| Network.Coordinate | Arche-ai/agents/Network.py:41-92 | `_run_agents` for a task: it raises only when the planning request raises or no call set `agent_response` |
| Network.AgentNetwork.ReadCall | Arche-ai/agents/Network.py:59-70 | `agent_name` is set before the task description is read, and the agent found is the one `Locate` gives |
| Network.AgentNetwork.Pass | Arche-ai/agents/Network.py:58-74 | one pass changes only the fields `Locate` reads and the named agent, and reports the exception that ends the loop |
| Network.AgentNetwork.Hand | Arche-ai/agents/Network.py:73-74 | the agent gets the task and answers it; every other agent is unchanged |
| Network.AgentNetwork.Run | Arche-ai/agents/Network.py:94-148 | `run` as written always raises: AttributeError when `agents_info` is unset, otherwise TypeError for the missing `task` argument |
| Network.AgentNetwork.RunFixed | Arche-ai/agents/Network.py:94-159 | with `agents_info` built first and the network's task passed on, `run` coordinates the agents under the coordinating prompt and returns `Summary` of the answer with the last agent name, or the exception that escaped; the agents end as `Coordinate` specifies |
| Network.FindAgent | Arche-ai/agents/Network.py:68 | finds the first agent whose name equals the call's name ignoring case; a name that is not a string raises only when there are agents |
| Network.Locate | Arche-ai/agents/Network.py:59-70 | a call that finds its agent has set both fields, and the index is in range |
| Network.PassIsApply | Arche-ai/agents/Network.py:58-74 | a pass, spelled out by how far the call gets, is the state update `Apply` |
| Network.Summary | Arche-ai/agents/Network.py:150-159 | `run` returns None exactly when it is verbose and the summary request succeeds; otherwise it returns the summary or "Failed to get summary: …."; with `agent_name` never set, that text carries the AttributeError for `agent_name` |
| Network.NameRecordedEvenIfTaskMissing | Arche-ai/agents/Network.py:59-60 | a call without a task description still sets `agent_name`, then raises KeyError('task_description') |
| Network.UnknownAgentFails | Arche-ai/agents/Network.py:68-70 | a name no agent has, ignoring case, raises "Agent '<name>' not found." and hands no task out |
| Network.MatchedAgentRunsOnItsTask | Arche-ai/agents/Network.py:68-74 | the first agent matching ignoring case gets the call's task and answers it |
| Network.FirstMatchIsLocated | Arche-ai/agents/Network.py:59-68 | a call naming an agent by a case-insensitive match locates the first such agent |
| Network.LastCallDecides | Arche-ai/agents/Network.py:58-92 | if every call is answered, the loop finishes with the last call's name, task and answer |
| Network.FirstFailureStops | Arche-ai/agents/Network.py:58-86 | the first call that raises ends the loop, and the calls after it have no effect |
| Network.TasksComeFromCalls | Arche-ai/agents/Network.py:73 | every task an agent holds after the loop was held before, or was given to that agent by a call |
| Network.DecodeErrorReported | Arche-ai/agents/Network.py:79-82 | a reply that does not decode returns "Failed to decode JSON: <msg>." and runs no agent |
| Network.EmptyPlanRaises | Arche-ai/agents/Network.py:58-92 | a plan with no agent calls raises UnboundLocalError for `agent_response` |
| Network.AnsweredPlanReturnsLastAnswer | Arche-ai/agents/Network.py:41-92 | if every call is answered, `_run_agents` returns the last call's answer and leaves that call's name and task on the network |
| Network.AnsweredCallWasLocated | Arche-ai/agents/Network.py:59-74 | an answered call carried both an agent name and a task description |
| Network.FailingCallEndsRun | Arche-ai/agents/Network.py:58-86 | if call `p` is the first to raise, `_run_agents` ends as if the plan stopped at `p` and returns "Failed to decode JSON: …." when the agent raised a JSONDecodeError, otherwise "Failed to get info: …." |
| History.ChatMessage | Arche-ai/llms/Gemini.py:59-61 | a message's "role" is the role and its "parts" is the one-element list holding the content |
| History.MessageList.Append | Arche-ai/llms/Gemini.py:61 | `append` adds one item at the end |
| History.MessageList.Pop | Arche-ai/llms/Gemini.py:53 | `pop` removes and returns the last item; on an empty list it raises IndexError |
| History.IntOf | Arche-ai/llms/Gemini.py:66 | `isinstance(key, int)` holds for ints and bools |
| History.Bound | Arche-ai/llms/Gemini.py:64-65 | a slice bound is None (the default), an int or a bool; one within the list is kept, one past the end becomes the length, a negative one counts from the end and stops at 0; any other bound raises TypeError |
| History.SliceBounds | Arche-ai/llms/Gemini.py:64-65 | a slice succeeds exactly when both bounds do (the start's error first); it covers start to stop within the list, and nothing when the stop precedes the start |
| History.ListItem | Arche-ai/llms/Gemini.py:63-69 | `__getitem__`: an int key reads one message (IndexError out of range), a slice reads a new list, anything else raises "Invalid argument type" |
| History.ListAssign | Arche-ai/llms/Gemini.py:71-77 | `__setitem__`: an int key replaces one message (IndexError out of range); a slice is replaced by the items of an iterable value, and a non-iterable value raises; a slice with a bound that is not None or an int raises its TypeError; anything else raises "Invalid argument type" |
| History.AssignThenReadItem | Arche-ai/llms/Gemini.py:63-77 | reading and writing accept the same int keys, and a written message reads back |
| History.NegativeKeyCountsFromEnd | Arche-ai/llms/Gemini.py:66-67 | `messages[-k]` is the k-th message from the end |
| History.WholeSliceIsHistory | Arche-ai/llms/Gemini.py:64-65 | `messages[:]` is the whole history |
| History.AssignThenReadSlice | Arche-ai/llms/Gemini.py:71-73 | `messages[lo:hi] = xs` keeps the messages outside `lo..hi`, and `xs` reads back at `lo` |
| GeminiLlm.Gemini.constructor | Arche-ai/llms/Gemini.py:12-47 | the instance holds the given list (the shared default list when none is passed), and a truthy system prompt is appended to it as a "model" message |
| GeminiLlm.Gemini.Fixed | Arche-ai/llms/Gemini.py:12-47 | as the constructor, but an instance built without `messages` gets a new list |
| GeminiLlm.Gemini.Init | Arche-ai/llms/Gemini.py:29-47 | `__init__` on an existing instance sets every setting, takes the API key from the argument or else the environment, and appends a truthy system prompt |
| GeminiLlm.Gemini.AddMessage | Arche-ai/llms/Gemini.py:59-61 | exactly one message is appended and nothing else changes |
| GeminiLlm.Gemini.Run | Arche-ai/llms/Gemini.py:49-57 | the chat sees the history ending with the prompt; after an answer the history is exactly as before, and after a failed request the prompt stays in it |
| GeminiLlm.Gemini.Reset | Arche-ai/llms/Gemini.py:79-90 | the instance gets a new empty history, no system prompt and default settings; the list it held before is not changed |
| GeminiLlm.Gemini.Set | Arche-ai/llms/Gemini.py:71-77 | the history becomes `ListAssign` of it, or is unchanged when that raises |
| GeminiLlm.Gemini.Get | Arche-ai/llms/Gemini.py:63-69 | `__getitem__`: a key that is neither an int, a bool nor a slice raises TypeError, `messages[-k]` is the k-th message from the end, and `messages[:]` is the whole history |
| GeminiLlm.DefaultHistoryIsShared | Arche-ai/llms/Gemini.py:13-47 | two instances built without `messages` share one list, which holds both system prompts |
| GeminiLlm.FixedHistoriesAreSeparate | Arche-ai/llms/Gemini.py:13-47 | with a new list per instance, each history holds only its own system prompt |
| DeepSeekLlm.MockClient | Arche-ai/llms/deepseek.py:11-14 | the stand-in client streams exactly one chunk with the mock text |
| DeepSeekLlm.StreamTextJoins | Arche-ai/llms/deepseek.py:52-55 | the reply text of two streams in sequence is the two texts joined |
| DeepSeekLlm.EmptyReplyIff | Arche-ai/llms/deepseek.py:52-55 | the reply is empty exactly when no chunk has truthy content |
| DeepSeekLlm.MockReplies | Arche-ai/llms/deepseek.py:11-14 | with the stand-in client the reply is "This is a mock response based on the provided messages." |
| DeepSeekLlm.DeepSeek.constructor | Arche-ai/llms/deepseek.py:23-40 | the instance holds the given list (the shared default list when none is passed), and a truthy system prompt is appended as a "system" message |
| DeepSeekLlm.DeepSeek.Fixed | Arche-ai/llms/deepseek.py:23-40 | as the constructor, but an instance built without `messages` gets a new list |
| DeepSeekLlm.DeepSeek.AddMessage | Arche-ai/llms/deepseek.py:61-62 | exactly one message is appended and nothing else changes |
| DeepSeekLlm.DeepSeek.Run | Arche-ai/llms/deepseek.py:42-59 | the client sees the history ending with the prompt; the reply is the in-order concatenation of the chunks' truthy contents; the net change to the history is that one "assistant" message; a raising client leaves the prompt in it |
| DeepSeekLlm.DeepSeek.Set | Arche-ai/llms/deepseek.py:72-78 | the history becomes `ListAssign` of it, or is unchanged when that raises |
| DeepSeekLlm.DeepSeek.Get | Arche-ai/llms/deepseek.py:64-70 | `__getitem__`: a key that is neither an int, a bool nor a slice raises TypeError, `messages[-k]` is the k-th message from the end, and `messages[:]` is the whole history |
| DeepSeekLlm.MockRun | Arche-ai/llms/deepseek.py:42-59 | with the stand-in client, `run` returns the mock text and appends it as one "assistant" message |
| DeepSeekLlm.DefaultHistoryIsShared | Arche-ai/llms/deepseek.py:24-40 | two instances built without `messages` share one list, so one's reply is in the other's history |
| DeepSeekLlm.FixedHistoriesAreSeparate | Arche-ai/llms/deepseek.py:24-40 | with a new list per instance, one's reply stays out of the other's history |

## Left out

- Prompt texts: the system prompt in force is abstracted to a `Phase` that carries the fields its text mentions. The two agents' planning and summary prompts differ in wording (`Test.py` omits `llm_tool` and shows `self.tools` itself in the summary prompt), and the model does not tell these wordings apart.
- The history a shared model backend accumulates across `llm.__init__` calls of the agents and the network is not modelled. The `Llm` oracle may answer differently per phase and prompt, but not per earlier conversation.
- The agents and the network share one model object. Re-initialising it inside a nested agent run does not change the network's `prompt` field in this model.
- JSON floats, string escaping in `repr`, and `lower()` outside ASCII are not modelled. Decoded numbers are integers.
- Dicts.DictRepr: a key is shown in the form it has as a `Key`, so a bool tool name that reaches `results` (a failing call named `true`, say) is shown as `1` or `0` where Python's `str(results)` shows `True` or `False`. `True` and `1` are one key, as in Python, but which form the dict keeps is not recorded.
- Threads: the pool is modelled by its completion order only. Tool functions with side effects visible to sibling calls are not modelled.
- Tool return values are modelled as text. A tool returning another type is shown as its `str()`.
- `verbose` printing (colour codes, `print` of intermediate values) is left out, because it has no effect on results.
- Driver scripts and interactive loops (`etc.py`, `temp.py`, the `__main__` blocks) and `.env` loading are not part of this model. The environment's API key is a parameter.
- The Gemini client configuration (`genai.configure`, safety settings, generation config) and the `connectors` argument are left out, because the model has no use for them.
- GroqLLM and the real DeepSeek client are not part of this model.
- DeepSeekLlm.DeepSeek.Run: chunks are taken as well formed (`content` is a string or None). A malformed chunk, or an exception raised while the stream is iterated after the pop, is not modelled.
- History.ListItem: slices with a step, and integer keys beyond the platform's index width, are not modelled.
- Network.AgentNetwork.RunFixed: the repaired `run` keeps the source's verbose branch, which returns None.

## Findings

| source | as written | input that shows it | evidently intended | confidence | as-written member | corrected member |
|---|---|---|---|---|---|---|
| Arche-ai/agents/Network.py:94-148 | `run` reads `self.agents_info`, which only `_run_agents` sets, and then calls `self._run_agents()` without its required `task` argument | `AgentNetwork(llm, agents).run()` raises AttributeError; after one `_run_agents(t)` it raises TypeError | build the agents list, then coordinate the agents on `task_to_do` and return the summary | high, not executed | Network.AgentNetwork.Run | Network.AgentNetwork.RunFixed |
| Arche-ai/llms/Gemini.py:13-47 | the `messages=[]` default is one list shared by every instance built without `messages` | `Gemini(system_prompt="A")` then `Gemini(system_prompt="B")`: the second history holds both prompts | a new empty history per instance | high, not executed | GeminiLlm.DefaultHistoryIsShared | GeminiLlm.FixedHistoriesAreSeparate |
| Arche-ai/llms/deepseek.py:24-40 | the `messages=[]` default is one list shared by every instance built without `messages` | `a = DeepSeek(); b = DeepSeek(); a.run("hi")`: `b.messages` holds a's reply | a new empty history per instance | high, not executed | DeepSeekLlm.DefaultHistoryIsShared | DeepSeekLlm.FixedHistoriesAreSeparate |
