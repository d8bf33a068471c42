/** A network of tool-using agents. The network's model turns the task into a list of
    agent calls; each call names an agent (ignoring case) and a task description,
    and the named agent is given that task and run. The calls run one after the
    other and the last agent's answer is what the network reports. */
module Network {
  import opened PyValues
  import opened Text
  import opened Oracles
  import S = SingleAgent

  const UnsetResponse := UnboundLocalError("cannot access local variable 'agent_response' where it is not associated with a value")
  const NoAgentsInfo := AttributeError("'AgentNetwork' object has no attribute 'agents_info'")
  const MissingTask := TypeError("AgentNetwork._run_agents() missing 1 required positional argument: 'task'")
  const NoAgentName := AttributeError("'AgentNetwork' object has no attribute 'agent_name'")

  /** What one agent call does, independently of the calls before it: the fields it
      sets on the network, the agent it hands its task to, and the agent's answer or
      the exception that ends the batch. */
  datatype Reach = Reach(name: Option<PyVal>, task: Option<PyVal>, agent: Option<S.Agent>, outcome: Result<string>)

  /** The network's state as the calls go by: `self.agent_name`,
      `self.task_description`, the tasks handed to agents, and the local
      `agent_response`. */
  datatype Dispatch = Dispatch(agentName: Option<PyVal>, taskDescription: Option<PyVal>,
                               tasks: map<S.Agent, PyVal>, response: Option<string>)

  class AgentNetwork {
    const agents: seq<S.Agent>
    const name: string
    const description: string
    const taskToDo: string
    const verbose: bool
    /** The system prompt last set on the network's model. */
    var prompt: Phase
    var agentsInfo: Option<string>
    var agentName: Option<PyVal>
    var taskDescription: Option<PyVal>

    constructor(agents: seq<S.Agent>, name: string, description: string, task: string, verbose: bool)
      ensures this.agents == agents && this.name == name && this.description == description
      ensures taskToDo == task && this.verbose == verbose
      ensures prompt == Persona(name, description)
      ensures agentsInfo == None && agentName == None && taskDescription == None
    {
      this.agents := agents;
      this.name := name;
      this.description := description;
      this.taskToDo := task;
      this.verbose := verbose;
      this.prompt := Persona(name, description);
      this.agentsInfo := None;
      this.agentName := None;
      this.taskDescription := None;
    }

    /** The state the network and its agents are in, as a `Dispatch`. */
    ghost predicate Reflects(st: Dispatch, oldTasks: map<S.Agent, PyVal>, oldInfos: map<S.Agent, Option<string>>)
      reads this, agents
    {
      agentName == st.agentName && taskDescription == st.taskDescription && AgentsReflect(st.tasks, oldTasks, oldInfos)
    }

    /** Each agent given a task holds it and has been run (which sets its tools text);
        every other agent is as it was. */
    ghost predicate AgentsReflect(tasks: map<S.Agent, PyVal>, oldTasks: map<S.Agent, PyVal>, oldInfos: map<S.Agent, Option<string>>)
      reads agents
    {
      && (forall a :: a in tasks ==>
            (&& a in agents && a in oldInfos && a.taskToDo == tasks[a]
             && a.toolsInfo == if a.tools == [] then oldInfos[a] else Some(S.ToolsInfo(a.tools))))
      && (forall a :: a in agents && a !in tasks ==>
            (a in oldTasks && a in oldInfos && a.taskToDo == oldTasks[a] && a.toolsInfo == oldInfos[a]))
    }

    ghost function TaskSnapshot(): (m: map<S.Agent, PyVal>)
      reads agents
      ensures forall a :: a in agents ==> a in m && m[a] == a.taskToDo
    {
      map a | a in agents :: a.taskToDo
    }

    ghost function InfoSnapshot(): (m: map<S.Agent, Option<string>>)
      reads agents
      ensures forall a :: a in agents ==> a in m && m[a] == a.toolsInfo
    {
      map a | a in agents :: a.toolsInfo
    }

    /** `_run_agents(task)`: ask the model for agent calls and run them in order. Every
        agent named by a call before the first failure is given its task and run;
        nothing else changes. */
    method RunAgents(llm: Llm, decode: Decoder, schedule: Scheduler, task: string) returns (r: Result<string>)
      requires ValidScheduler(schedule)
      modifies this, agents
      ensures prompt == old(prompt) && agentsInfo == Some(AgentsInfo(agents))
      ensures var out := Coordinate(agents, llm, decode, schedule, old(prompt), task, Dispatch(old(agentName), old(taskDescription), map[], None));
        r == out.0 && Reflects(out.1, old(TaskSnapshot()), old(InfoSnapshot()))
    {
      ghost var oldTasks := TaskSnapshot();
      ghost var oldInfos := InfoSnapshot();
      agentsInfo := Some(AgentsInfo(agents));
      var reply := llm(prompt, PyStr(task));
      if reply.Err? {
        return Err(reply.error);
      }
      match decode(StripFence(reply.value)) {
        case DecodeError(m) =>
          return Ok(S.DecodeFailed(m));
        case Parsed(action) =>
          var planned := ListUnder(action, "agent_calling");
          if planned.Err? {
            return Ok(S.Caught(planned.error));
          }
          r := RunCalls(llm, decode, schedule, planned.value, oldTasks, oldInfos);
      }
    }

    /** The loop of `_run_agents` over the planned calls, in order, leaving at the
        first exception; `agent_response` starts unset. */
    method RunCalls(llm: Llm, decode: Decoder, schedule: Scheduler, calls: seq<PyVal>,
                    ghost oldTasks: map<S.Agent, PyVal>, ghost oldInfos: map<S.Agent, Option<string>>) returns (r: Result<string>)
      requires ValidScheduler(schedule)
      requires AgentsReflect(map[], oldTasks, oldInfos)
      modifies this, agents
      ensures prompt == old(prompt) && agentsInfo == old(agentsInfo)
      ensures var out := Conclude(DispatchAll(Reaches(agents, llm, decode, schedule, calls), Dispatch(old(agentName), old(taskDescription), map[], None)));
        r == out.0 && Reflects(out.1, oldTasks, oldInfos)
    {
      ghost var reaches := Reaches(agents, llm, decode, schedule, calls);
      ghost var outcome := DispatchAll(reaches, Dispatch(agentName, taskDescription, map[], None));
      ghost var tasks: map<S.Agent, PyVal> := map[];
      var response: Option<string> := None;
      for k := 0 to |calls|
        invariant prompt == old(prompt) && agentsInfo == old(agentsInfo)
        invariant outcome == DispatchAll(reaches[k..], Dispatch(agentName, taskDescription, tasks, response))
        invariant AgentsReflect(tasks, oldTasks, oldInfos)
      {
        ghost var st := Dispatch(agentName, taskDescription, tasks, response);
        ghost var x := reaches[k];
        assert reaches[k..][0] == x && reaches[k..][1..] == reaches[k + 1..];
        assert DispatchAll(reaches[k..], st) ==
          if x.outcome.Err? then Stopped(Apply(st, x), x.outcome.error) else DispatchAll(reaches[k + 1..], Apply(st, x));
        var failure, answer;
        failure, answer, tasks := Pass(llm, decode, schedule, calls[k], tasks, response, oldTasks, oldInfos);
        PassIsApply(agents, llm, decode, schedule, calls[k], st);
        if failure.Some? {
          return Ok(S.Caught(failure.value));
        }
        response := answer;
      }
      assert reaches[|calls|..] == [];
      if response.None? {
        return Err(UnsetResponse);
      }
      return Ok(response.value);
    }

    /** The first part of a pass: set `agent_name`, read the task description and
        find the agent, as `Locate` says. */
    method ReadCall(call: PyVal) returns (target: Result<nat>)
      modifies this
      ensures prompt == old(prompt) && agentsInfo == old(agentsInfo)
      ensures var l := Locate(agents, call);
        && agentName == (if l.name.Some? then l.name else old(agentName))
        && taskDescription == (if l.task.Some? then l.task else old(taskDescription))
        && target == l.target
    {
      var named := Subscript(call, "agent_name");
      if named.Err? {
        return Err(named.error);
      }
      agentName := Some(named.value);
      var described := Subscript(call, "task_description");
      if described.Err? {
        return Err(described.error);
      }
      taskDescription := Some(described.value);
      var found := FindAgent(agents, named.value);
      if found.Err? {
        return Err(found.error);
      }
      if found.value.None? {
        return Err(NotFound(named.value));
      }
      return Ok(found.value.value);
    }

    /** One pass of the `_run_agents` loop: read the call, set the agent's task and
        run it. Only the named agent changes, and the pass reports the exception that
        leaves the loop, if any. */
    method Pass(llm: Llm, decode: Decoder, schedule: Scheduler, call: PyVal, ghost tasks: map<S.Agent, PyVal>,
                response: Option<string>, ghost oldTasks: map<S.Agent, PyVal>, ghost oldInfos: map<S.Agent, Option<string>>)
      returns (failure: Option<PyError>, answer: Option<string>, ghost tasks': map<S.Agent, PyVal>)
      requires ValidScheduler(schedule)
      requires AgentsReflect(tasks, oldTasks, oldInfos)
      modifies this, agents
      ensures prompt == old(prompt) && agentsInfo == old(agentsInfo)
      ensures var l := Locate(agents, call);
        && agentName == (if l.name.Some? then l.name else old(agentName))
        && taskDescription == (if l.task.Some? then l.task else old(taskDescription))
        && (l.target.Err? ==> failure == Some(l.target.error) && tasks' == tasks && answer == response)
        && (l.target.Ok? ==>
              var out := S.Answer(agents[l.target.value], llm, decode, schedule, l.task.value);
              && tasks' == tasks[agents[l.target.value] := l.task.value]
              && failure == (if out.Err? then Some(out.error) else None)
              && answer == (if out.Ok? then Some(out.value) else response))
      ensures AgentsReflect(tasks', oldTasks, oldInfos)
    {
      var target := ReadCall(call);
      if target.Err? {
        return Some(target.error), response, tasks;
      }
      ghost var l := Locate(agents, call);
      assert target == l.target && taskDescription == l.task;
      var agent := agents[target.value];
      var out;
      out, tasks' := Hand(agent, taskDescription.value, llm, decode, schedule, tasks, oldTasks, oldInfos);
      if out.Err? {
        return Some(out.error), response, tasks';
      }
      return None, Some(out.value), tasks';
    }

    /** `agent.task_to_do = task; agent.run()`: the agent answers the new task, and the
        agents still reflect every task handed out. */
    method Hand(agent: S.Agent, task: PyVal, llm: Llm, decode: Decoder, schedule: Scheduler, ghost tasks: map<S.Agent, PyVal>,
                ghost oldTasks: map<S.Agent, PyVal>, ghost oldInfos: map<S.Agent, Option<string>>)
      returns (out: Result<string>, ghost tasks': map<S.Agent, PyVal>)
      requires ValidScheduler(schedule)
      requires agent in agents && AgentsReflect(tasks, oldTasks, oldInfos)
      modifies agents
      ensures out == S.Answer(agent, llm, decode, schedule, task)
      ensures tasks' == tasks[agent := task] && AgentsReflect(tasks', oldTasks, oldInfos)
    {
      label Handing:
      agent.taskToDo := task;
      tasks' := tasks[agent := task];
      out := agent.Run(llm, decode, schedule);
      assert agent.taskToDo == task;
      assert agent.toolsInfo == if agent.tools == [] then old@Handing(agent.toolsInfo) else Some(S.ToolsInfo(agent.tools));
      forall a | a in tasks'
        ensures a in agents && a in oldInfos && a.taskToDo == tasks'[a]
        ensures a.toolsInfo == if a.tools == [] then oldInfos[a] else Some(S.ToolsInfo(a.tools))
      {
        if a != agent {
          assert a in tasks && a.taskToDo == old@Handing(a.taskToDo) && a.toolsInfo == old@Handing(a.toolsInfo);
        } else {
          assert tasks'[a] == task;
        }
      }
      forall a | a in agents && a !in tasks'
        ensures a in oldTasks && a in oldInfos && a.taskToDo == oldTasks[a] && a.toolsInfo == oldInfos[a]
      {
        assert a != agent && a.taskToDo == old@Handing(a.taskToDo) && a.toolsInfo == old@Handing(a.toolsInfo);
      }
    }

    /** `run` as written: it reads `self.agents_info`, which only `_run_agents` sets,
        and then calls `_run_agents()` without its `task` argument, so it always raises. */
    method Run(llm: Llm, decode: Decoder, schedule: Scheduler) returns (r: Result<Option<string>>)
      modifies this
      ensures agentsInfo == old(agentsInfo) && agentName == old(agentName) && taskDescription == old(taskDescription)
      ensures r == if old(agentsInfo).None? then Err(NoAgentsInfo) else Err(MissingTask)
      ensures prompt == if old(agentsInfo).Some? then Coordinating(old(agentsInfo).value) else old(prompt)
    {
      if agentsInfo.None? {
        return Err(NoAgentsInfo);
      }
      prompt := Coordinating(agentsInfo.value);
      return Err(MissingTask);
    }

    /** `run` with both defects removed: the agents' list is built before the prompt
        that shows it, and the network's own task is passed on. */
    method RunFixed(llm: Llm, decode: Decoder, schedule: Scheduler) returns (r: Result<Option<string>>)
      requires ValidScheduler(schedule)
      modifies this, agents
      ensures prompt == Coordinating(AgentsInfo(agents)) && agentsInfo == Some(AgentsInfo(agents))
      ensures var out := Coordinate(agents, llm, decode, schedule, Coordinating(AgentsInfo(agents)), taskToDo,
                                    Dispatch(old(agentName), old(taskDescription), map[], None));
        && Reflects(out.1, old(TaskSnapshot()), old(InfoSnapshot()))
        && r == (if out.0.Err? then Err(out.0.error)
                 else Ok(Summary(llm, prompt, taskToDo, out.1.agentName, out.0.value, verbose)))
    {
      agentsInfo := Some(AgentsInfo(agents));
      prompt := Coordinating(agentsInfo.value);
      var response := RunAgents(llm, decode, schedule, taskToDo);
      if response.Err? {
        return Err(response.error);
      }
      r := Ok(Summary(llm, prompt, taskToDo, agentName, response.value, verbose));
    }
  }

  /** `self.agents_info`: one line per agent. */
  function AgentsInfo(agents: seq<S.Agent>): (r: string)
    ensures agents == [] ==> r == ""
    ensures |agents| == 1 ==> r == AgentLine(agents[0])
  {
    Join("\n", seq(|agents|, i requires 0 <= i < |agents| => AgentLine(agents[i])))
  }

  function AgentLine(agent: S.Agent): string
  {
    "Agent Name: " + agent.name + " - " + agent.description
  }

  /** Each further agent adds a newline and its own line at the end of the listing. */
  lemma AgentsInfoAppend(agents: seq<S.Agent>, agent: S.Agent)
    requires agents != []
    ensures AgentsInfo(agents + [agent]) == AgentsInfo(agents) + "\n" + AgentLine(agent)
  {
    var lines := seq(|agents|, i requires 0 <= i < |agents| => AgentLine(agents[i]));
    var all := agents + [agent];
    assert seq(|all|, i requires 0 <= i < |all| => AgentLine(all[i])) == lines + [AgentLine(agent)];
    JoinAppend("\n", lines, AgentLine(agent));
  }

  function NotFound(name: PyVal): PyError
  {
    ValueError("Agent '" + Str(name) + "' not found.")
  }

  /** The first agent at or after `i` whose name equals `name` ignoring case. */
  function FindAgentFrom(agents: seq<S.Agent>, name: string, i: nat): (r: Option<nat>)
    requires i <= |agents|
    ensures r.Some? ==> i <= r.value < |agents| && Lower(agents[r.value].name) == Lower(name)
    ensures r.Some? ==> forall j :: i <= j < r.value ==> Lower(agents[j].name) != Lower(name)
    ensures r.None? <==> forall j :: i <= j < |agents| ==> Lower(agents[j].name) != Lower(name)
    decreases |agents| - i
  {
    if i == |agents| then None
    else if Lower(agents[i].name) == Lower(name) then Some(i)
    else FindAgentFrom(agents, name, i + 1)
  }

  /** `next((agent for agent in self.agents if agent.name.lower() == self.agent_name.lower()), None)`:
      the first agent whose name matches ignoring case. The name is lower-cased only
      when there is an agent to compare with, so a name that is not a string fails
      only then. */
  function FindAgent(agents: seq<S.Agent>, name: PyVal): (r: Result<Option<nat>>)
    ensures r.Err? <==> agents != [] && !name.PyStr?
    ensures r.Err? ==> r.error == AttributeError("'" + TypeName(name) + "' object has no attribute 'lower'")
    ensures r.Ok? && r.value.Some? ==>
      (&& name.PyStr? && r.value.value < |agents|
       && Lower(agents[r.value.value].name) == Lower(name.s)
       && forall j :: 0 <= j < r.value.value ==> Lower(agents[j].name) != Lower(name.s))
    ensures r == Ok(None) <==>
      agents == [] || (name.PyStr? && forall j :: 0 <= j < |agents| ==> Lower(agents[j].name) != Lower(name.s))
  {
    if agents == [] then Ok(None)
    else if !name.PyStr? then Err(AttributeError("'" + TypeName(name) + "' object has no attribute 'lower'"))
    else Ok(FindAgentFrom(agents, name.s, 0))
  }

  /** How far a call gets before its agent runs: the `agent_name` it sets, the task
      description it reads, and the index of the agent it names or the exception. */
  datatype Located = Located(name: Option<PyVal>, task: Option<PyVal>, target: Result<nat>)

  /** The first part of a pass: `agent_name` is set before the task description is
      read, so a call without a task description still changes it. */
  function Locate(agents: seq<S.Agent>, call: PyVal): (l: Located)
    ensures l.target.Ok? ==> l.name.Some? && l.task.Some? && l.target.value < |agents|
  {
    match Subscript(call, "agent_name")
    case Err(e) => Located(None, None, Err(e))
    case Ok(name) =>
      match Subscript(call, "task_description")
      case Err(e) => Located(Some(name), None, Err(e))
      case Ok(task) =>
        match FindAgent(agents, name)
        case Err(e) => Located(Some(name), Some(task), Err(e))
        case Ok(None) => Located(Some(name), Some(task), Err(NotFound(name)))
        case Ok(Some(i)) => Located(Some(name), Some(task), Ok(i))
  }

  /** One pass of the loop: the named agent is given the task and run. */
  function Resolve(agents: seq<S.Agent>, llm: Llm, decode: Decoder, schedule: Scheduler, call: PyVal): Reach
    requires ValidScheduler(schedule)
  {
    var l := Locate(agents, call);
    match l.target
    case Err(e) => Reach(l.name, l.task, None, Err(e))
    case Ok(i) => Reach(l.name, l.task, Some(agents[i]), S.Answer(agents[i], llm, decode, schedule, l.task.value))
  }

  function Reaches(agents: seq<S.Agent>, llm: Llm, decode: Decoder, schedule: Scheduler, calls: seq<PyVal>): (r: seq<Reach>)
    requires ValidScheduler(schedule)
    ensures |r| == |calls| && forall i :: 0 <= i < |calls| ==> r[i] == Resolve(agents, llm, decode, schedule, calls[i])
  {
    seq(|calls|, i requires 0 <= i < |calls| => Resolve(agents, llm, decode, schedule, calls[i]))
  }

  /** A pass that set a field overwrites it; a found agent gets its task; an answer
      becomes the current response. */
  function Apply(st: Dispatch, x: Reach): Dispatch
  {
    Dispatch(
      if x.name.Some? then x.name else st.agentName,
      if x.task.Some? then x.task else st.taskDescription,
      if x.agent.Some? && x.task.Some? then st.tasks[x.agent.value := x.task.value] else st.tasks,
      if x.outcome.Ok? then Some(x.outcome.value) else st.response)
  }

  /** `Apply` spelled out by cases on how far the call gets. */
  lemma PassIsApply(agents: seq<S.Agent>, llm: Llm, decode: Decoder, schedule: Scheduler, call: PyVal, st: Dispatch)
    requires ValidScheduler(schedule)
    ensures var l := Locate(agents, call);
      var x := Resolve(agents, llm, decode, schedule, call);
      var st' := Apply(st, x);
      && st'.agentName == (if l.name.Some? then l.name else st.agentName)
      && st'.taskDescription == (if l.task.Some? then l.task else st.taskDescription)
      && (l.target.Err? ==> x.outcome == Err(l.target.error) && st'.tasks == st.tasks && st'.response == st.response)
      && (l.target.Ok? ==>
            var out := S.Answer(agents[l.target.value], llm, decode, schedule, l.task.value);
            && x.outcome == out
            && st'.tasks == st.tasks[agents[l.target.value] := l.task.value]
            && st'.response == (if out.Ok? then Some(out.value) else st.response))
  {
  }

  /** How the loop over the calls ended: left by an exception, or run to the end. */
  datatype Progress = Stopped(st: Dispatch, error: PyError) | Finished(st: Dispatch)

  /** The loop over the passes, leaving at the first exception. */
  function DispatchAll(reaches: seq<Reach>, st: Dispatch): (r: Progress)
    ensures r.Finished? <==> forall k :: 0 <= k < |reaches| ==> reaches[k].outcome.Ok?
    ensures r.Stopped? ==> exists k :: 0 <= k < |reaches| && reaches[k].outcome == Err(r.error)
    decreases |reaches|
  {
    if reaches == [] then Finished(st)
    else
      var st' := Apply(st, reaches[0]);
      if reaches[0].outcome.Err? then Stopped(st', reaches[0].outcome.error)
      else DispatchAll(reaches[1..], st')
  }

  /** What `_run_agents` returns once the calls are known, and the state it leaves. */
  function Conclude(p: Progress): (r: (Result<string>, Dispatch))
    ensures r.0.Err? ==> p.Finished? && r.0.error == UnsetResponse
    ensures r.1 == p.st
  {
    match p
    case Stopped(st, e) => (Ok(S.Caught(e)), st)
    case Finished(st) => (if st.response.Some? then Ok(st.response.value) else Err(UnsetResponse), st)
  }

  function Coordinate(agents: seq<S.Agent>, llm: Llm, decode: Decoder, schedule: Scheduler, prompt: Phase, task: string, st: Dispatch): (r: (Result<string>, Dispatch))
    requires ValidScheduler(schedule)
    ensures r.0.Err? ==> r.0.error == UnsetResponse || llm(prompt, PyStr(task)) == Err(r.0.error)
  {
    match llm(prompt, PyStr(task))
    case Err(e) => (Err(e), st)
    case Ok(reply) =>
      match decode(StripFence(reply))
      case DecodeError(m) => (Ok(S.DecodeFailed(m)), st)
      case Parsed(action) =>
        match ListUnder(action, "agent_calling")
        case Err(e) => (Ok(S.Caught(e)), st)
        case Ok(calls) => Conclude(DispatchAll(Reaches(agents, llm, decode, schedule, calls), st))
  }

  /** The summary step of the repaired `run`: the model's summary of
      "[QUERY]\n<task>\n\n[Agent(<agent_name>)]\n<response>", dropped when verbose (the
      verbose branch prints it and falls off the end); a failure, including a missing
      `agent_name`, becomes "Failed to get summary: <msg>.". */
  function Summary(llm: Llm, prompt: Phase, task: string, agentName: Option<PyVal>, response: string, verbose: bool): (r: Option<string>)
    ensures agentName.None? ==> r == Some("Failed to get summary: " + Message(NoAgentName) + ".")
    ensures var asked := llm(prompt, PyStr(SummaryRequest(task, agentName, response)));
      && (r.None? <==> verbose && agentName.Some? && asked.Ok?)
      && (!verbose && agentName.Some? && asked.Ok? ==> r == Some(asked.value))
      && (agentName.Some? && asked.Err? ==> r == Some("Failed to get summary: " + Message(asked.error) + "."))
  {
    if agentName.None? then Some("Failed to get summary: " + Message(NoAgentName) + ".")
    else
      match llm(prompt, PyStr(SummaryRequest(task, agentName, response)))
      case Err(e) => Some("Failed to get summary: " + Message(e) + ".")
      case Ok(summary) => if verbose then None else Some(summary)
  }


  function SummaryRequest(task: string, agentName: Option<PyVal>, response: string): string
  {
    "[QUERY]\n" + task + "\n\n[Agent(" + (if agentName.Some? then Str(agentName.value) else "") + ")]\n" + response
  }

  /** A call with an agent name but no task description still sets `agent_name`, and
      leaves the loop with the KeyError before any agent runs. */
  lemma NameRecordedEvenIfTaskMissing(agents: seq<S.Agent>, llm: Llm, decode: Decoder, schedule: Scheduler,
                                      call: PyVal, st: Dispatch, name: PyVal)
    requires ValidScheduler(schedule)
    requires call.PyDict? && Subscript(call, "agent_name") == Ok(name) && Subscript(call, "task_description").Err?
    ensures var x := Resolve(agents, llm, decode, schedule, call);
      && x.outcome == Err(KeyError("task_description"))
      && Apply(st, x) == Dispatch(Some(name), st.taskDescription, st.tasks, st.response)
  {
  }

  /** A string name no agent carries, ignoring case, leaves the loop with
      "Agent '<name>' not found." and hands no task out. */
  lemma UnknownAgentFails(agents: seq<S.Agent>, llm: Llm, decode: Decoder, schedule: Scheduler,
                          call: PyVal, st: Dispatch, n: string, task: PyVal)
    requires ValidScheduler(schedule)
    requires Subscript(call, "agent_name") == Ok(PyStr(n)) && Subscript(call, "task_description") == Ok(task)
    requires forall j :: 0 <= j < |agents| ==> Lower(agents[j].name) != Lower(n)
    ensures var x := Resolve(agents, llm, decode, schedule, call);
      && x.outcome == Err(ValueError("Agent '" + n + "' not found."))
      && Apply(st, x) == Dispatch(Some(PyStr(n)), Some(task), st.tasks, st.response)
  {
    assert FindAgent(agents, PyStr(n)) == Ok(None);
  }

  /** The first agent whose name matches ignoring case is given the call's task
      description and answers it. */
  lemma MatchedAgentRunsOnItsTask(agents: seq<S.Agent>, llm: Llm, decode: Decoder, schedule: Scheduler,
                                  call: PyVal, st: Dispatch, n: string, task: PyVal, i: nat)
    requires ValidScheduler(schedule)
    requires Subscript(call, "agent_name") == Ok(PyStr(n)) && Subscript(call, "task_description") == Ok(task)
    requires i < |agents| && Lower(agents[i].name) == Lower(n)
    requires forall j :: 0 <= j < i ==> Lower(agents[j].name) != Lower(n)
    ensures var x := Resolve(agents, llm, decode, schedule, call);
      var out := S.Answer(agents[i], llm, decode, schedule, task);
      && x == Reach(Some(PyStr(n)), Some(task), Some(agents[i]), out)
      && Apply(st, x).tasks == st.tasks[agents[i] := task]
  {
    FirstMatchIsLocated(agents, call, n, task, i);
  }

  lemma FirstMatchIsLocated(agents: seq<S.Agent>, call: PyVal, n: string, task: PyVal, i: nat)
    requires Subscript(call, "agent_name") == Ok(PyStr(n)) && Subscript(call, "task_description") == Ok(task)
    requires i < |agents| && Lower(agents[i].name) == Lower(n)
    requires forall j :: 0 <= j < i ==> Lower(agents[j].name) != Lower(n)
    ensures Locate(agents, call) == Located(Some(PyStr(n)), Some(task), Ok(i))
  {
    assert FindAgent(agents, PyStr(n)) == Ok(Some(i));
  }

  /** A plan whose every call is answered returns the last answer, and leaves the
      last call's agent name and task description on the network. */
  lemma {:induction false} LastCallDecides(reaches: seq<Reach>, st: Dispatch)
    requires reaches != []
    requires forall i :: 0 <= i < |reaches| ==> reaches[i].outcome.Ok? && reaches[i].name.Some? && reaches[i].task.Some?
    ensures var last := reaches[|reaches| - 1];
      var p := DispatchAll(reaches, st);
      && p.Finished?
      && p.st.agentName == last.name && p.st.taskDescription == last.task
      && p.st.response == Some(last.outcome.value)
    decreases |reaches|
  {
    var st' := Apply(st, reaches[0]);
    if |reaches| > 1 {
      var rest := reaches[1..];
      assert DispatchAll(reaches, st) == DispatchAll(rest, st');
      assert forall i :: 0 <= i < |rest| ==> rest[i] == reaches[i + 1];
      LastCallDecides(rest, st');
      assert rest[|rest| - 1] == reaches[|reaches| - 1];
    }
  }

  /** The first call that raises ends the batch: the calls after it have no effect. */
  lemma {:induction false} FirstFailureStops(reaches: seq<Reach>, st: Dispatch, p: nat)
    requires p < |reaches| && reaches[p].outcome.Err?
    requires forall h :: 0 <= h < p ==> reaches[h].outcome.Ok?
    ensures DispatchAll(reaches, st) == DispatchAll(reaches[..p + 1], st)
    ensures DispatchAll(reaches, st) == Stopped(DispatchAll(reaches[..p + 1], st).st, reaches[p].outcome.error)
    decreases p
  {
    var st' := Apply(st, reaches[0]);
    var prefix := reaches[..p + 1];
    assert prefix[0] == reaches[0];
    if p > 0 {
      var rest := reaches[1..];
      assert DispatchAll(reaches, st) == DispatchAll(rest, st');
      assert DispatchAll(prefix, st) == DispatchAll(prefix[1..], st');
      assert prefix[1..] == rest[..p];
      assert forall h :: 0 <= h < p - 1 ==> rest[h] == reaches[h + 1];
      FirstFailureStops(rest, st', p - 1);
    }
  }

  /** Every task an agent holds after the loop was either held before it or given to
      that agent by one of the calls. */
  lemma {:induction false} TasksComeFromCalls(reaches: seq<Reach>, st: Dispatch, a: S.Agent)
    ensures var tasks := DispatchAll(reaches, st).st.tasks;
      && (a in st.tasks ==> a in tasks)
      && (a in tasks ==>
            (a in st.tasks && tasks[a] == st.tasks[a])
            || exists i :: 0 <= i < |reaches| && reaches[i].agent == Some(a) && reaches[i].task == Some(tasks[a]))
    decreases |reaches|
  {
    if reaches != [] {
      var x := reaches[0];
      var st' := Apply(st, x);
      var rest := reaches[1..];
      var tasks := DispatchAll(reaches, st).st.tasks;
      if x.outcome.Err? {
        assert tasks == st'.tasks;
        if a in tasks && !(a in st.tasks && tasks[a] == st.tasks[a]) {
          assert reaches[0].agent == Some(a) && reaches[0].task == Some(tasks[a]);
        }
      } else {
        assert DispatchAll(reaches, st) == DispatchAll(rest, st');
        TasksComeFromCalls(rest, st', a);
        if a in tasks && !(a in st.tasks && tasks[a] == st.tasks[a]) {
          if a in st'.tasks && tasks[a] == st'.tasks[a] {
            assert reaches[0].agent == Some(a) && reaches[0].task == Some(tasks[a]);
          } else {
            var i :| 0 <= i < |rest| && rest[i].agent == Some(a) && rest[i].task == Some(tasks[a]);
            assert reaches[i + 1] == rest[i];
          }
        }
      }
    }
  }

  /** A model reply the decoder rejects is reported, and no agent is run. */
  lemma DecodeErrorReported(agents: seq<S.Agent>, llm: Llm, decode: Decoder, schedule: Scheduler,
                            prompt: Phase, task: string, st: Dispatch, reply: string, m: string)
    requires ValidScheduler(schedule)
    requires llm(prompt, PyStr(task)) == Ok(reply) && decode(StripFence(reply)) == DecodeError(m)
    ensures Coordinate(agents, llm, decode, schedule, prompt, task, st) == (Ok("Failed to decode JSON: " + m + "."), st)
  {
  }

  /** A plan without agent calls leaves `agent_response` unset, so `_run_agents`
      raises UnboundLocalError instead of returning. */
  lemma EmptyPlanRaises(agents: seq<S.Agent>, llm: Llm, decode: Decoder, schedule: Scheduler,
                        prompt: Phase, task: string, st: Dispatch, reply: string, action: PyVal)
    requires ValidScheduler(schedule) && st.response.None?
    requires llm(prompt, PyStr(task)) == Ok(reply) && decode(StripFence(reply)) == Parsed(action)
    requires ListUnder(action, "agent_calling") == Ok([])
    ensures Coordinate(agents, llm, decode, schedule, prompt, task, st) == (Err(UnsetResponse), st)
  {
    assert Reaches(agents, llm, decode, schedule, []) == [];
  }

  /** A plan whose calls are all answered returns the last call's answer, with the
      last call's agent name left on the network. */
  lemma AnsweredPlanReturnsLastAnswer(agents: seq<S.Agent>, llm: Llm, decode: Decoder, schedule: Scheduler,
                                      prompt: Phase, task: string, st: Dispatch, reply: string, action: PyVal, calls: seq<PyVal>)
    requires ValidScheduler(schedule)
    requires llm(prompt, PyStr(task)) == Ok(reply) && decode(StripFence(reply)) == Parsed(action)
    requires ListUnder(action, "agent_calling") == Ok(calls) && calls != []
    requires forall i :: 0 <= i < |calls| ==> Resolve(agents, llm, decode, schedule, calls[i]).outcome.Ok?
    ensures var last := calls[|calls| - 1];
      var out := Coordinate(agents, llm, decode, schedule, prompt, task, st);
      && Subscript(last, "agent_name").Ok? && Subscript(last, "task_description").Ok?
      && out.0 == Resolve(agents, llm, decode, schedule, last).outcome
      && out.1.agentName == Some(Subscript(last, "agent_name").value)
      && out.1.taskDescription == Some(Subscript(last, "task_description").value)
  {
    var reaches := Reaches(agents, llm, decode, schedule, calls);
    forall i | 0 <= i < |reaches|
      ensures reaches[i].outcome.Ok? && reaches[i].name.Some? && reaches[i].task.Some?
    {
      AnsweredCallWasLocated(agents, llm, decode, schedule, calls[i]);
    }
    LastCallDecides(reaches, st);
    AnsweredCallWasLocated(agents, llm, decode, schedule, calls[|calls| - 1]);
    CoordinateRunsCalls(agents, llm, decode, schedule, prompt, task, st, reply, action, calls);
  }

  /** Once the plan lists its calls, `_run_agents` is the loop over them, concluded. */
  lemma CoordinateRunsCalls(agents: seq<S.Agent>, llm: Llm, decode: Decoder, schedule: Scheduler,
                            prompt: Phase, task: string, st: Dispatch, reply: string, action: PyVal, calls: seq<PyVal>)
    requires ValidScheduler(schedule)
    requires llm(prompt, PyStr(task)) == Ok(reply) && decode(StripFence(reply)) == Parsed(action)
    requires ListUnder(action, "agent_calling") == Ok(calls)
    ensures Coordinate(agents, llm, decode, schedule, prompt, task, st)
      == Conclude(DispatchAll(Reaches(agents, llm, decode, schedule, calls), st))
  {
  }

  /** A call that is answered named an agent and carried a task description. */
  lemma AnsweredCallWasLocated(agents: seq<S.Agent>, llm: Llm, decode: Decoder, schedule: Scheduler, call: PyVal)
    requires ValidScheduler(schedule)
    requires Resolve(agents, llm, decode, schedule, call).outcome.Ok?
    ensures var x := Resolve(agents, llm, decode, schedule, call);
      && Subscript(call, "agent_name").Ok? && Subscript(call, "task_description").Ok?
      && x.name == Some(Subscript(call, "agent_name").value)
      && x.task == Some(Subscript(call, "task_description").value)
  {
    assert Locate(agents, call).target.Ok?;
  }

  /** When call `p` is the first to raise, `_run_agents` returns its failure text and
      ends in the state the first `p + 1` calls leave: the rest are never run. The
      text is "Failed to decode JSON: <msg>." when the agent raised a JSONDecodeError
      (its planning call, say, which the agent does not catch), otherwise "Failed to
      get info: <msg>.". */
  lemma FailingCallEndsRun(agents: seq<S.Agent>, llm: Llm, decode: Decoder, schedule: Scheduler,
                           prompt: Phase, task: string, st: Dispatch, reply: string, action: PyVal, calls: seq<PyVal>, p: nat)
    requires ValidScheduler(schedule)
    requires llm(prompt, PyStr(task)) == Ok(reply) && decode(StripFence(reply)) == Parsed(action)
    requires ListUnder(action, "agent_calling") == Ok(calls)
    requires p < |calls| && Resolve(agents, llm, decode, schedule, calls[p]).outcome.Err?
    requires forall h :: 0 <= h < p ==> Resolve(agents, llm, decode, schedule, calls[h]).outcome.Ok?
    ensures var out := Coordinate(agents, llm, decode, schedule, prompt, task, st);
      var e := Resolve(agents, llm, decode, schedule, calls[p]).outcome.error;
      && out.0 == Ok(S.Caught(e))
      && (e.JSONDecodeError? ==> out.0 == Ok(S.DecodeFailed(e.msg)))
      && (!e.JSONDecodeError? ==> out.0 == Ok(S.FailedInfo(e)))
      && out.1 == DispatchAll(Reaches(agents, llm, decode, schedule, calls[..p + 1]), st).st
  {
    var reaches := Reaches(agents, llm, decode, schedule, calls);
    CoordinateRunsCalls(agents, llm, decode, schedule, prompt, task, st, reply, action, calls);
    FailingReachEndsRun(reaches, st, p);
    ReachesPrefix(agents, llm, decode, schedule, calls, p + 1);
  }

  /** `FirstFailureStops`, seen through `Conclude`. */
  lemma FailingReachEndsRun(reaches: seq<Reach>, st: Dispatch, p: nat)
    requires p < |reaches| && reaches[p].outcome.Err?
    requires forall h :: 0 <= h < p ==> reaches[h].outcome.Ok?
    ensures Conclude(DispatchAll(reaches, st)) == (Ok(S.Caught(reaches[p].outcome.error)), DispatchAll(reaches[..p + 1], st).st)
  {
    FirstFailureStops(reaches, st, p);
  }

  /** The passes of the first `n` calls are the first `n` passes. */
  lemma ReachesPrefix(agents: seq<S.Agent>, llm: Llm, decode: Decoder, schedule: Scheduler, calls: seq<PyVal>, n: nat)
    requires ValidScheduler(schedule) && n <= |calls|
    ensures Reaches(agents, llm, decode, schedule, calls)[..n] == Reaches(agents, llm, decode, schedule, calls[..n])
  {
  }
}
