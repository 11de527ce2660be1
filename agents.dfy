/**
 * src/agents/common/traits.rs: the `Agent` capability, `execute` on the
 * shared project. The implementations form a closed set, so the capability is
 * a datatype with one case per agent and one dispatcher.
 */
module Agents {
  import opened Outcomes
  import opened Model
  import opened Common
  import opened Oracles
  import opened Persistence
  import ArchitectAgent
  import BackendAgent

  /** A boxed agent: a reference to one of the two agent objects. */
  datatype Agent = Architect(architect: ArchitectAgent.SolutionArchitectAgent) | Backend(backend: BackendAgent.BackendDeveloperAgent) {

    /** The object holding the agent's fields. */
    function Obj(): object {
      match this
      case Architect(a) => a
      case Backend(b) => b
    }

    /** The agent's fields, as a value. */
    function State(): AgentState
      reads Obj()
    {
      match this
      case Architect(a) => ArchitectState(a.attributes)
      case Backend(b) => BackendState(b.State())
    }

    /** `execute`: dispatch to the agent's own state machine; its result is `RunAgent`'s. */
    method Execute(project: Project, fs: FileSystem, env: Environment) returns (exit: Outcome<()>, project': Project)
      modifies Obj(), fs, env
      ensures (exit, State(), Shared(project', fs.files, env.cursor)) ==
        RunAgent(env.world, fs.manifestDir, old(State()), Shared(project, old(fs.files), old(env.cursor)))
    {
      match this {
        case Architect(a) =>
          exit, project' := a.Execute(project, env);
        case Backend(b) =>
          exit, project' := b.Execute(project, fs, env);
      }
    }
  }

  /** The fields of an agent, whichever kind it is. */
  datatype AgentState = ArchitectState(attributes: AgentAttributes) | BackendState(fields: BackendAgent.Fields) {
    function Status(): AgentStatus {
      match this
      case ArchitectState(a) => a.status
      case BackendState(f) => f.attributes.status
    }
  }

  /** What every agent shares: the project record, the files and the environment's record. */
  datatype Shared = Shared(project: Project, files: map<string, string>, cursor: Cursor)

  /** One agent's whole `execute` on the shared state. */
  function RunAgent(w: World, dir: string, a: AgentState, sh: Shared): (r: (Outcome<()>, AgentState, Shared))
    ensures r.1.ArchitectState? == a.ArchitectState?
    ensures r.0.Done? ==> r.1.Status() == Finished
    ensures a.ArchitectState? ==> r.2.files == sh.files
    ensures a.BackendState? ==> BackendAgent.KeepsPlan(sh.project, r.2.project)
  {
    match a
    case ArchitectState(attributes) =>
      var (o, c) := ArchitectAgent.Run(w, ArchitectAgent.Config(attributes, sh.project, sh.cursor));
      (o, ArchitectState(c.attributes), Shared(c.project, sh.files, c.cursor))
    case BackendState(fields) =>
      var (o, c) := BackendAgent.Run(w, dir, BackendAgent.Config(fields, sh.project, sh.files, sh.cursor));
      (o, BackendState(c.agent), Shared(c.project, c.files, c.cursor))
  }

  /** An agent that has already finished does nothing when executed again. */
  lemma FinishedAgentIsIdle(w: World, dir: string, a: AgentState, sh: Shared)
    requires a.Status() == Finished
    ensures RunAgent(w, dir, a, sh) == (Done(()), a, sh)
  {
  }
}
