/**
 * src/agents/manager/managing_agent.rs: the project manager. It turns the
 * user's request into a project description, appends an architect and a
 * backend developer to its list of agents, and executes every agent of the
 * list once, in order, on the one shared project.
 */
module Manager {
  import opened Outcomes
  import opened Model
  import opened Common
  import opened Oracles
  import opened AiTasks
  import opened Persistence
  import opened Agents
  import ArchitectAgent
  import BackendAgent

  const Objective := "Manage agents who are building an excellent website for the user"
  const Position := "Project Manager"
  const Initial := AgentAttributes(Objective, Position, Discovery)

  /** A fresh project: the goal the LLM derived from the request, nothing else known yet. */
  function NewProject(llm: (nat, AiFunction) -> LlmReply, calls: seq<AiFunction>): (r: (Outcome<Project>, seq<AiFunction>))
    ensures r.1 == AiTaskRequest(llm, ConvertUserInputToGoal, calls).1
    ensures r.0.Done? <==> AiTaskRequest(llm, ConvertUserInputToGoal, calls).0.Done?
    ensures r.0.Fatal? ==> r.0.reason == GptFailedTwice
    ensures r.0.Done? ==>
      llm(|r.1| - 1, ConvertUserInputToGoal) == Reply(r.0.value.description) &&
      r.0.value.scope.None? && r.0.value.externalUrls.None? &&
      r.0.value.backendCode.None? && r.0.value.apiEndpointSchema.None?
  {
    var (goal, calls') := AiTaskRequest(llm, ConvertUserInputToGoal, calls);
    match goal
    case Fatal(p) => (Fatal(p), calls')
    case Done(text) => (Done(Project(text, None, None, None, None)), calls')
  }

  /** The two agents `create_agents` appends, as they start. */
  const NewAgents := [ArchitectState(ArchitectAgent.Initial), BackendState(BackendAgent.Initial)]

  /**
   * The `execute` loop over the agents' states, in list order, on the shared
   * state: each agent's result is discarded, but an abort ends the process, so
   * the agents after it keep their states.
   */
  function RunAll(w: World, dir: string, agents: seq<AgentState>, sh: Shared): (r: (Outcome<()>, seq<AgentState>, Shared))
    ensures |r.1| == |agents|
  {
    if agents == [] then (Done(()), [], sh)
    else
      var (o, ran, sh1) := RunAll(w, dir, agents[..|agents| - 1], sh);
      if o.Fatal? then (o, ran + [agents[|agents| - 1]], sh1)
      else
        var (o2, a, sh2) := RunAgent(w, dir, agents[|agents| - 1], sh1);
        (o2, ran + [a], sh2)
  }

  /** Once an agent aborts, the agents after it keep their states. */
  lemma {:induction false} RunAllStopsAtAbort(w: World, dir: string, agents: seq<AgentState>, i: nat, sh: Shared)
    requires i <= |agents|
    requires RunAll(w, dir, agents[..i], sh).0.Fatal?
    ensures var front := RunAll(w, dir, agents[..i], sh);
      RunAll(w, dir, agents, sh) == (front.0, front.1 + agents[i..], front.2)
    decreases |agents| - i
  {
    if i < |agents| {
      var front := RunAll(w, dir, agents[..i], sh);
      var next := agents[..i + 1];
      assert next[..|next| - 1] == agents[..i];
      assert next[|next| - 1] == agents[i];
      assert RunAll(w, dir, next, sh) == (front.0, front.1 + [agents[i]], front.2);
      RunAllStopsAtAbort(w, dir, agents, i + 1, sh);
      assert agents[i..] == [agents[i]] + agents[i + 1..];
      assert front.1 + [agents[i]] + agents[i + 1..] == front.1 + agents[i..];
    } else {
      assert agents[..i] == agents && agents[i..] == [];
      var front := RunAll(w, dir, agents[..i], sh);
      assert front.1 + agents[i..] == front.1;
    }
  }

  /** A run that completes leaves every agent Finished. */
  lemma {:induction false} RunAllDoneAllFinished(w: World, dir: string, agents: seq<AgentState>, sh: Shared)
    ensures var r := RunAll(w, dir, agents, sh);
      r.0.Done? ==> forall i :: 0 <= i < |r.1| ==> r.1[i].Status() == Finished
  {
    if agents != [] {
      RunAllDoneAllFinished(w, dir, agents[..|agents| - 1], sh);
    }
  }

  /** Running an agent list then another is running the first, then the second from where it left off. */
  lemma {:induction false} RunAllAppend(w: World, dir: string, a: seq<AgentState>, b: seq<AgentState>, sh: Shared)
    requires RunAll(w, dir, a, sh).0 == Done(())
    ensures var first := RunAll(w, dir, a, sh);
      var second := RunAll(w, dir, b, first.2);
      RunAll(w, dir, a + b, sh) == (second.0, first.1 + second.1, second.2)
    decreases |b|
  {
    if b == [] {
      assert a + b == a;
      var first := RunAll(w, dir, a, sh);
      assert first.1 + [] == first.1;
    } else {
      var front := b[..|b| - 1];
      var last := b[|b| - 1];
      assert (a + b)[..|a + b| - 1] == a + front;
      assert (a + b)[|a + b| - 1] == last;
      RunAllAppend(w, dir, a, front, sh);
      var first := RunAll(w, dir, a, sh);
      var mid := RunAll(w, dir, front, first.2);
      var whole := RunAll(w, dir, a + front, sh);
      assert whole == (mid.0, first.1 + mid.1, mid.2);
      if mid.0.Fatal? {
        assert RunAll(w, dir, a + b, sh) == (mid.0, whole.1 + [last], mid.2);
        assert RunAll(w, dir, b, first.2) == (mid.0, mid.1 + [last], mid.2);
        assert first.1 + mid.1 + [last] == first.1 + (mid.1 + [last]);
      } else {
        var (o2, x, sh2) := RunAgent(w, dir, last, mid.2);
        assert RunAll(w, dir, a + b, sh) == (o2, whole.1 + [x], sh2);
        assert RunAll(w, dir, b, first.2) == (o2, mid.1 + [x], sh2);
        assert first.1 + mid.1 + [x] == first.1 + (mid.1 + [x]);
      }
    }
  }

  /**
   * Executing the manager again on agents that all finished runs only the two
   * agents it appends, as the first run did.
   */
  lemma RerunRunsOnlyNewAgents(w: World, dir: string, finished: seq<AgentState>, sh: Shared)
    requires forall i :: 0 <= i < |finished| ==> finished[i].Status() == Finished
    ensures var r := RunAll(w, dir, finished + NewAgents, sh);
      var pair := RunAll(w, dir, NewAgents, sh);
      r == (pair.0, finished + pair.1, pair.2)
  {
    AllFinishedIsIdle(w, dir, finished, sh);
    RunAllAppend(w, dir, finished, NewAgents, sh);
  }

  lemma {:induction false} AllFinishedIsIdle(w: World, dir: string, finished: seq<AgentState>, sh: Shared)
    requires forall i :: 0 <= i < |finished| ==> finished[i].Status() == Finished
    ensures RunAll(w, dir, finished, sh) == (Done(()), finished, sh)
  {
    if finished != [] {
      AllFinishedIsIdle(w, dir, finished[..|finished| - 1], sh);
      FinishedAgentIsIdle(w, dir, finished[|finished| - 1], sh);
      assert finished[..|finished| - 1] + [finished[|finished| - 1]] == finished;
    }
  }

  /** One more agent at the end of the list runs after all the others, unless one of them aborted. */
  lemma RunAllSnoc(w: World, dir: string, agents: seq<AgentState>, a: AgentState, sh: Shared)
    ensures var front := RunAll(w, dir, agents, sh);
      var last := RunAgent(w, dir, a, front.2);
      RunAll(w, dir, agents + [a], sh) ==
        if front.0.Fatal? then (front.0, front.1 + [a], front.2) else (last.0, front.1 + [last.1], last.2)
  {
    assert (agents + [a])[..|agents + [a]| - 1] == agents;
  }

  /** The architect's work is visible to the backend developer: it runs on the project the architect left. */
  lemma ArchitectThenBackend(w: World, dir: string, sh: Shared)
    ensures var r := RunAll(w, dir, NewAgents, sh);
      var arch := RunAgent(w, dir, NewAgents[0], sh);
      var back := RunAgent(w, dir, NewAgents[1], arch.2);
      r == if arch.0.Fatal? then (arch.0, [arch.1, NewAgents[1]], arch.2) else (back.0, [arch.1, back.1], back.2)
  {
    RunAllSnoc(w, dir, [], NewAgents[0], sh);
    RunAllSnoc(w, dir, [NewAgents[0]], NewAgents[1], sh);
    assert [] + [NewAgents[0]] == [NewAgents[0]];
    assert [NewAgents[0]] + [NewAgents[1]] == NewAgents;
    var arch := RunAgent(w, dir, NewAgents[0], sh);
    assert [] + [arch.1] == [arch.1];
    assert [arch.1] + [NewAgents[1]] == [arch.1, NewAgents[1]];
    var back := RunAgent(w, dir, NewAgents[1], arch.2);
    assert [arch.1] + [back.1] == [arch.1, back.1];
  }

  /**
   * The backend developer keeps what the architect decided: after a completed
   * architect, the final project has the architect's description, scope and
   * URL list, whatever the backend run does.
   */
  lemma ArchitectPlanSurvives(w: World, dir: string, sh: Shared)
    ensures var arch := RunAgent(w, dir, NewAgents[0], sh);
      var r := RunAll(w, dir, NewAgents, sh);
      arch.0.Done? ==>
        r.2.project.description == arch.2.project.description &&
        r.2.project.scope == arch.2.project.scope &&
        r.2.project.externalUrls == arch.2.project.externalUrls
  {
    ArchitectThenBackend(w, dir, sh);
  }

  /**
   * One turn of the `execute` loop, on values: the agent at index i runs on the
   * state the agents before it left, and if it aborts, that is the whole run.
   */
  lemma RunAllAdvance(w: World, dir: string, start: seq<AgentState>, i: nat,
                      before: seq<AgentState>, after: seq<AgentState>, e: Outcome<()>, sh: Shared, sh': Shared, sh0: Shared)
    requires i < |start| == |before| == |after|
    requires var front := RunAll(w, dir, start[..i], sh0);
      front.0.Done? && front.1 == before[..i] && front.2 == sh
    requires before[i..] == start[i..]
    requires (e, after[i], sh') == RunAgent(w, dir, before[i], sh)
    requires forall k :: 0 <= k < |after| && k != i ==> after[k] == before[k]
    ensures (e, after[..i + 1], sh') == RunAll(w, dir, start[..i + 1], sh0)
    ensures after[i + 1..] == start[i + 1..]
    ensures e.Fatal? ==> (e, after, sh') == RunAll(w, dir, start, sh0)
  {
    RunAllSnoc(w, dir, start[..i], start[i], sh0);
    assert start[..i] + [start[i]] == start[..i + 1];
    assert after[..i + 1] == before[..i] + [after[i]];
    assert after[i + 1..] == before[i + 1..];
    if e.Fatal? {
      RunAllStopsAtAbort(w, dir, start, i + 1, sh0);
      assert after == after[..i + 1] + start[i + 1..];
    }
  }

  class ManagingAgent {
    var attributes: AgentAttributes
    var project: Project
    var agents: seq<Agent>

    /** No object is in the list twice (each agent is owned by its box). */
    predicate Distinct()
      reads this
    {
      forall i, j :: 0 <= i < j < |agents| ==> agents[i].Obj() != agents[j].Obj()
    }

    /** The objects of the agents. */
    function Objects(): set<object>
      reads this
    {
      set i | 0 <= i < |agents| :: agents[i].Obj()
    }

    /** The agents' fields, in list order. */
    function States(): (r: seq<AgentState>)
      reads this, Objects()
      ensures |r| == |agents|
    {
      seq(|agents|, i reads this, Objects() requires 0 <= i < |agents| => agents[i].State())
    }

    constructor Make(p: Project)
      ensures attributes == Initial && project == p && agents == []
    {
      attributes := Initial;
      project := p;
      agents := [];
    }

    /**
     * `new`: ask the LLM for the project goal (the request itself only reaches
     * the prompt); the manager starts in Discovery with a project holding only
     * that goal and no agents.
     */
    static method New(userRequest: string, env: Environment) returns (m: Outcome<ManagingAgent>)
      modifies env
      ensures env.cursor == old(env.cursor).(calls := NewProject(env.world.llm, old(env.cursor.calls)).1)
      ensures m.Done? <==> NewProject(env.world.llm, old(env.cursor.calls)).0.Done?
      ensures m.Fatal? ==> m.reason == GptFailedTwice
      ensures m.Done? ==>
        fresh(m.value) && m.value.attributes == Initial && m.value.agents == [] &&
        m.value.project == NewProject(env.world.llm, old(env.cursor.calls)).0.value
    {
      var description := Request(env, ConvertUserInputToGoal);
      if description.Fatal? {
        return Fatal(description.reason);
      }
      var manager := new ManagingAgent.Make(Project(description.value, None, None, None, None));
      m := Done(manager);
    }

    /** `add_agent`: append at the end. */
    method AddAgent(agent: Agent)
      requires Distinct() && agent.Obj() !in Objects()
      modifies this
      ensures agents == old(agents) + [agent]
      ensures attributes == old(attributes) && project == old(project)
      ensures Distinct()
    {
      agents := agents + [agent];
    }

    /** `create_agents`: append a new architect, then a new backend developer. */
    method CreateAgents()
      requires Distinct()
      modifies this
      ensures |agents| == |old(agents)| + 2 && agents[..|old(agents)|] == old(agents)
      ensures agents[|agents| - 2].Architect? && fresh(agents[|agents| - 2].architect)
      ensures agents[|agents| - 1].Backend? && fresh(agents[|agents| - 1].backend)
      ensures States() == old(States()) + NewAgents
      ensures attributes == old(attributes) && project == old(project)
      ensures Distinct()
    {
      ghost var before := States();
      var architect := new ArchitectAgent.SolutionArchitectAgent();
      AddAgent(Architect(architect));
      var backend := new BackendAgent.BackendDeveloperAgent();
      AddAgent(Backend(backend));
      forall k | 0 <= k < |agents|
        ensures States()[k] == (before + NewAgents)[k]
      {
        if k < |before| {
          assert agents[k] == old(agents)[k];
        }
      }
    }

    /**
     * `execute`: create the two agents, then execute every agent of the list
     * once, in order, on the shared project; the result is `RunAll` over the
     * agents' earlier states followed by the two new ones.
     */
    method Execute(fs: FileSystem, env: Environment) returns (exit: Outcome<()>)
      requires Distinct()
      modifies this, Objects(), fs, env
      ensures |agents| == |old(agents)| + 2 && agents[..|old(agents)|] == old(agents)
      ensures fresh(agents[|agents| - 2].Obj()) && fresh(agents[|agents| - 1].Obj())
      ensures Distinct()
      ensures (exit, States(), Shared(project, fs.files, env.cursor)) ==
        RunAll(env.world, fs.manifestDir, old(States()) + NewAgents, Shared(old(project), old(fs.files), old(env.cursor)))
    {
      CreateAgents();
      exit := ExecuteAll(fs, env);
    }

    /** The `for` loop of `execute`: every agent of the list, once, in order. */
    method ExecuteAll(fs: FileSystem, env: Environment) returns (exit: Outcome<()>)
      requires Distinct()
      modifies this`project, Objects(), fs, env
      ensures (exit, States(), Shared(project, fs.files, env.cursor)) ==
        RunAll(env.world, fs.manifestDir, old(States()), Shared(old(project), old(fs.files), old(env.cursor)))
    {
      ghost var start := States();
      ghost var sh0 := Shared(project, fs.files, env.cursor);
      exit := Done(());
      var i := 0;
      while i < |agents|
        invariant 0 <= i <= |agents| && |start| == |agents|
        invariant (exit, States()[..i], Shared(project, fs.files, env.cursor)) == RunAll(env.world, fs.manifestDir, start[..i], sh0)
        invariant States()[i..] == start[i..]
        invariant exit.Done?
      {
        ghost var states := States();
        ghost var sh := Shared(project, fs.files, env.cursor);
        exit := ExecuteAt(i, fs, env);
        RunAllAdvance(env.world, fs.manifestDir, start, i, states, States(), exit, sh, Shared(project, fs.files, env.cursor), sh0);
        if exit.Fatal? {
          return;
        }
        i := i + 1;
      }
      assert start[..i] == start && States()[..i] == States();
    }

    /** One turn of the `execute` loop: the agent at index i works on the manager's project. */
    method ExecuteAt(i: nat, fs: FileSystem, env: Environment) returns (exit: Outcome<()>)
      requires i < |agents| && Distinct()
      modifies this`project, agents[i].Obj(), fs, env
      ensures (exit, States()[i], Shared(project, fs.files, env.cursor)) ==
        RunAgent(env.world, fs.manifestDir, old(States())[i], Shared(old(project), old(fs.files), old(env.cursor)))
      ensures forall k :: 0 <= k < |agents| && k != i ==> States()[k] == old(States())[k]
    {
      var agent := agents[i];
      var p;
      exit, p := agent.Execute(project, fs, env);
      project := p;
      forall k | 0 <= k < |agents| && k != i
        ensures States()[k] == old(States())[k]
      {
        assert agents[k].Obj() != agent.Obj();
      }
    }
  }
}
