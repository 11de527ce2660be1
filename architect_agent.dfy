/**
 * src/agents/architect/architect_agent.rs: the solutions architect agent. It
 * asks the LLM for the project's scope and, when the scope calls for external
 * URLs, for a list of them; it then probes each URL and drops from the
 * project every URL that answered with a status other than 200.
 *
 * As for the backend agent, the `execute` loop is specified by the pure
 * function `Run` over a `Config`, and the class's `Execute` is proved to
 * compute exactly `Run`.
 */
module ArchitectAgent {
  import opened Outcomes
  import opened Model
  import opened Common
  import opened Oracles
  import opened AiTasks

  const Objective := "Gathers information and design solutions for website development"
  const Position := "Solutions Architect"

  /** What a fresh agent holds. */
  const Initial := AgentAttributes(Objective, Position, Discovery)

  /** Everything the loop reads and changes: the agent, the shared project and the environment's record. */
  datatype Config = Config(attributes: AgentAttributes, project: Project, cursor: Cursor)

  function WithStatus(s: Config, status: AgentStatus): Config {
    s.(attributes := s.attributes.(status := status))
  }

  // ---------------------------------------------------------------------
  // Finding and removing faulty URLs

  /** A probe outcome that gets its URL excluded: a status, and not 200. Transport errors do not. */
  predicate Rejects(o: ProbeOutcome) {
    o.Status? && o.code != 200
  }

  /**
   * The probe loop over the URLs, from cursor c: every URL is requested once,
   * in order; the result lists, in order, those whose probe was rejected.
   */
  function FindFaultyUrls(probes: (nat, string) -> ProbeOutcome, urls: seq<string>, c: Cursor): (r: (seq<string>, Cursor))
    ensures r.1 == c.(probed := c.probed + urls)
    ensures |r.0| <= |urls|
  {
    if urls == [] then ([], c)
    else
      var (exclude, before) := FindFaultyUrls(probes, urls[..|urls| - 1], c);
      var url := urls[|urls| - 1];
      assert urls[..|urls| - 1] + [url] == urls;
      var after := before.(probed := before.probed + [url]);
      if Rejects(probes(|before.probed|, url)) then (exclude + [url], after) else (exclude, after)
  }

  /** The URLs with every occurrence of an excluded one removed, in their original order. */
  function RemoveExcluded(urls: seq<string>, exclude: seq<string>): (r: seq<string>)
    ensures |r| <= |urls|
    ensures forall u :: u in r <==> u in urls && u !in exclude
  {
    if urls == [] then []
    else (if urls[0] in exclude then [] else [urls[0]]) + RemoveExcluded(urls[1..], exclude)
  }

  /** A URL is excluded exactly when one of its probes, numbered on from the cursor's probe count, was rejected. */
  lemma {:induction false} FaultyIffRejected(probes: (nat, string) -> ProbeOutcome, urls: seq<string>, c: Cursor, u: string)
    ensures u in FindFaultyUrls(probes, urls, c).0 <==>
      exists i :: 0 <= i < |urls| && urls[i] == u && Rejects(probes(|c.probed| + i, urls[i]))
    decreases |urls|
  {
    if urls != [] {
      var front := urls[..|urls| - 1];
      FaultyIffRejected(probes, front, c, u);
      var k := |urls| - 1;
      if exists i :: 0 <= i < |urls| && urls[i] == u && Rejects(probes(|c.probed| + i, urls[i])) {
        var i :| 0 <= i < |urls| && urls[i] == u && Rejects(probes(|c.probed| + i, urls[i]));
        if i < k {
          assert front[i] == urls[i];
        }
      }
      if exists i :: 0 <= i < |front| && front[i] == u && Rejects(probes(|c.probed| + i, front[i])) {
        var i :| 0 <= i < |front| && front[i] == u && Rejects(probes(|c.probed| + i, front[i]));
        assert urls[i] == front[i];
      }
    }
  }

  /** Excluding nothing leaves the list as it was. */
  lemma {:induction false} RemoveNothing(urls: seq<string>)
    ensures RemoveExcluded(urls, []) == urls
    decreases |urls|
  {
    if urls != [] {
      RemoveNothing(urls[1..]);
    }
  }

  /** Removal distributes over concatenation, so the kept URLs stay in their original order. */
  lemma {:induction false} RemoveExcludedAppend(a: seq<string>, b: seq<string>, exclude: seq<string>)
    ensures RemoveExcluded(a + b, exclude) == RemoveExcluded(a, exclude) + RemoveExcluded(b, exclude)
    decreases |a|
  {
    if a == [] {
      assert a + b == b;
    } else {
      assert (a + b)[0] == a[0] && (a + b)[1..] == a[1..] + b;
      RemoveExcludedAppend(a[1..], b, exclude);
    }
  }

  // ---------------------------------------------------------------------
  // The steps

  /** `determine_project_scope`: ask for the scope, store it and mark the agent Finished. */
  function AskScope(w: World, s: Config): (r: (Outcome<ProjectScope>, Config))
    ensures r.0.Done? ==> r.1 == Config(s.attributes.(status := Finished), s.project.(scope := Some(r.0.value)), r.1.cursor)
    ensures r.0.Fatal? ==> r.1 == s.(cursor := r.1.cursor)
    ensures r.1.cursor == s.cursor.(calls := r.1.cursor.calls)
    ensures r.0.Done? ==>
      |r.1.cursor.calls| > 0 && w.llm(|r.1.cursor.calls| - 1, PrintProjectScope).Reply? &&
      w.decodeScope(w.llm(|r.1.cursor.calls| - 1, PrintProjectScope).text) == Some(r.0.value)
  {
    var (scope, calls) := AiTaskRequestDecoded(w.llm, PrintProjectScope, w.decodeScope, s.cursor.calls);
    var s1 := s.(cursor := s.cursor.(calls := calls));
    match scope
    case Fatal(p) => (Fatal(p), s1)
    case Done(v) => (Done(v), WithStatus(s1.(project := s1.project.(scope := Some(v))), Finished))
  }

  /** `determine_external_urls`: ask for the URLs, store them and move to UnitTesting. */
  function AskUrls(w: World, s: Config): (r: (Outcome<()>, Config))
    ensures r.1.cursor == s.cursor.(calls := r.1.cursor.calls)
    ensures r.0.Done? ==>
      r.1 == Config(s.attributes.(status := UnitTesting), s.project.(externalUrls := r.1.project.externalUrls), r.1.cursor) &&
      r.1.project.externalUrls.Some? && |r.1.cursor.calls| > 0 && w.llm(|r.1.cursor.calls| - 1, PrintSiteUrls).Reply? &&
      w.decodeUrls(w.llm(|r.1.cursor.calls| - 1, PrintSiteUrls).text) == r.1.project.externalUrls
  {
    var (urls, calls) := AiTaskRequestDecoded(w.llm, PrintSiteUrls, w.decodeUrls, s.cursor.calls);
    var s1 := s.(cursor := s.cursor.(calls := calls));
    match urls
    case Fatal(p) => (Fatal(p), s1)
    case Done(v) => (Done(()), WithStatus(s1.(project := s1.project.(externalUrls := Some(v))), UnitTesting))
  }

  /** Discovery: the scope, then the URLs when the scope needs them. */
  function DiscoveryStep(w: World, s: Config): (r: (Outcome<()>, Config))
    ensures r.0.Done? ==> r.1.attributes.status in {Finished, UnitTesting}
  {
    var (scope, s1) := AskScope(w, s);
    match scope
    case Fatal(p) => (Fatal(p), s1)
    case Done(v) =>
      if v.isExternalUrlsRequired then AskUrls(w, s1) else (Done(()), s1)
  }

  /**
   * UnitTesting: probe every URL of the project and remove the faulty ones
   * (the list is only rebuilt when one was found); a project without a URL
   * list aborts.
   */
  function UnitTestStep(w: World, s: Config): (r: (Outcome<()>, Config))
    ensures r.0.Done? ==> r.1.attributes == s.attributes.(status := Finished)
  {
    match s.project.externalUrls
    case None => (Fatal(NoUrlObject), s)
    case Some(urls) =>
      var (exclude, c) := FindFaultyUrls(w.probes, urls, s.cursor);
      var project := if |exclude| > 0 then s.project.(externalUrls := Some(RemoveExcluded(urls, exclude))) else s.project;
      (Done(()), WithStatus(s.(project := project, cursor := c), Finished))
  }

  /**
   * One turn of the `execute` loop; any other status is moved to Finished. A
   * completed turn from an unfinished agent lowers the status's rank.
   */
  function Step(w: World, s: Config): (r: (Outcome<()>, Config))
    ensures s.attributes.status != Finished && r.0.Done? ==> Rank(r.1.attributes.status) < Rank(s.attributes.status)
  {
    match s.attributes.status
    case Discovery => DiscoveryStep(w, s)
    case UnitTesting => UnitTestStep(w, s)
    case _ => (Done(()), WithStatus(s, Finished))
  }

  /** `execute`: turns of the loop until the status is Finished, or a step aborts. */
  function Run(w: World, s: Config): (r: (Outcome<()>, Config))
    ensures r.0.Done? ==> r.1.attributes.status == Finished
    decreases Rank(s.attributes.status)
  {
    if s.attributes.status == Finished then (Done(()), s)
    else
      var (o, s1) := Step(w, s);
      if o.Fatal? then (o, s1) else Run(w, s1)
  }

  // ---------------------------------------------------------------------
  // Properties of the run

  /**
   * The URL check: every URL is probed once, in order; the project keeps
   * exactly the URLs none of whose probes was rejected, in their order, and
   * a URL reached only by transport errors is kept.
   */
  lemma UnitTestKeepsHealthyUrls(w: World, s: Config, urls: seq<string>)
    requires s.project.externalUrls == Some(urls)
    ensures var r := UnitTestStep(w, s);
      var exclude := FindFaultyUrls(w.probes, urls, s.cursor).0;
      r.0.Done? && r.1.attributes.status == Finished &&
      r.1.cursor == s.cursor.(probed := s.cursor.probed + urls) &&
      r.1.project == s.project.(externalUrls := Some(RemoveExcluded(urls, exclude))) &&
      forall u :: u in r.1.project.externalUrls.value <==>
        u in urls && !exists i :: 0 <= i < |urls| && urls[i] == u && Rejects(w.probes(|s.cursor.probed| + i, urls[i]))
  {
    var exclude := FindFaultyUrls(w.probes, urls, s.cursor).0;
    if |exclude| == 0 {
      RemoveNothing(urls);
    }
    forall u {
      FaultyIffRejected(w.probes, urls, s.cursor, u);
    }
  }

  /** A project without a URL list aborts the check. */
  lemma UnitTestNeedsUrls(w: World, s: Config)
    requires s.project.externalUrls.None?
    ensures UnitTestStep(w, s) == (Fatal(NoUrlObject), s)
  {
  }

  /**
   * From Discovery: a completed run stores the LLM's scope; when that scope
   * needs no external URLs the URL list is left as it was and nothing is
   * probed, and otherwise the stored list is the LLM's list less the faulty
   * URLs.
   */
  lemma {:induction false} RunFromDiscovery(w: World, s: Config)
    requires s.attributes.status == Discovery
    ensures var r := Run(w, s);
      r.0.Done? ==>
        r.1.attributes == s.attributes.(status := Finished) &&
        r.1.project.scope.Some? &&
        r.1.project.description == s.project.description &&
        r.1.project.backendCode == s.project.backendCode &&
        r.1.project.apiEndpointSchema == s.project.apiEndpointSchema &&
        (!r.1.project.scope.value.isExternalUrlsRequired ==>
          r.1.project.externalUrls == s.project.externalUrls && r.1.cursor.probed == s.cursor.probed) &&
        (r.1.project.scope.value.isExternalUrlsRequired ==>
          var s2 := AskUrls(w, AskScope(w, s).1).1;
          s2.project.externalUrls.Some? && r == UnitTestStep(w, s2))
  {
    var (scope, s1) := AskScope(w, s);
    if scope.Done? && scope.value.isExternalUrlsRequired {
      var (o, s2) := AskUrls(w, s1);
      if o.Done? {
        var urls := s2.project.externalUrls.value;
        UnitTestKeepsHealthyUrls(w, s2, urls);
        var r3 := UnitTestStep(w, s2);
        assert Run(w, s2) == r3;
        assert Run(w, s) == r3;
      }
    }
  }

  // ---------------------------------------------------------------------
  // The agent

  /** The URL probe loop: the URLs whose probe returned a status other than 200, in order. */
  method TestUrls(urls: seq<string>, env: Environment) returns (excludeUrls: seq<string>)
    modifies env
    ensures (excludeUrls, env.cursor) == FindFaultyUrls(env.world.probes, urls, old(env.cursor))
  {
    excludeUrls := [];
    for i := 0 to |urls|
      invariant (excludeUrls, env.cursor) == FindFaultyUrls(env.world.probes, urls[..i], old(env.cursor))
    {
      assert urls[..i + 1][..i] == urls[..i];
      var outcome := env.Probe(urls[i]);
      match outcome {
        case Status(code) =>
          if code != 200 {
            excludeUrls := excludeUrls + [urls[i]];
          }
        case TransportError =>
          // only reported
      }
    }
    assert urls[..|urls|] == urls;
  }

  class SolutionArchitectAgent {
    var attributes: AgentAttributes

    /** `new`: a Solutions Architect in Discovery. */
    constructor ()
      ensures attributes == Initial
    {
      attributes := Initial;
    }

    /** `determine_project_scope`. */
    method DetermineProjectScope(project: Project, env: Environment) returns (scope: Outcome<ProjectScope>, project': Project)
      modifies this, env
      ensures (scope, Config(attributes, project', env.cursor)) == AskScope(env.world, Config(old(attributes), project, old(env.cursor)))
    {
      scope := RequestDecoded(env, PrintProjectScope, env.world.decodeScope);
      project' := project;
      if scope.Done? {
        project' := project.(scope := Some(scope.value));
        attributes := attributes.(status := Finished);
      }
    }

    /** `determine_external_urls`. */
    method DetermineExternalUrls(project: Project, env: Environment) returns (exit: Outcome<()>, project': Project)
      modifies this, env
      ensures (exit, Config(attributes, project', env.cursor)) == AskUrls(env.world, Config(old(attributes), project, old(env.cursor)))
    {
      var urls := RequestDecoded(env, PrintSiteUrls, env.world.decodeUrls);
      project' := project;
      match urls {
        case Fatal(p) =>
          exit := Fatal(p);
        case Done(v) =>
          project' := project.(externalUrls := Some(v));
          attributes := attributes.(status := UnitTesting);
          exit := Done(());
      }
    }

    /**
     * `execute`: run the state machine to Finished on the shared project; the
     * result, the agent, the project and the record of the environment are
     * exactly those of `Run`.
     */
    method Execute(project: Project, env: Environment) returns (exit: Outcome<()>, project': Project)
      modifies this, env
      ensures (exit, Config(attributes, project', env.cursor)) == Run(env.world, Config(old(attributes), project, old(env.cursor)))
    {
      project' := project;
      while attributes.status != Finished
        invariant Run(env.world, Config(attributes, project', env.cursor)) == Run(env.world, Config(old(attributes), project, old(env.cursor)))
        decreases Rank(attributes.status)
      {
        match attributes.status {
          case Discovery =>
            var scope;
            scope, project' := DetermineProjectScope(project', env);
            if scope.Fatal? {
              return Fatal(scope.reason), project';
            }
            if scope.value.isExternalUrlsRequired {
              exit, project' := DetermineExternalUrls(project', env);
              if exit.Fatal? {
                return;
              }
              attributes := attributes.(status := UnitTesting);
            }
          case UnitTesting =>
            if project'.externalUrls.None? {
              return Fatal(NoUrlObject), project';
            }
            var urls := project'.externalUrls.value;
            var excludeUrls := TestUrls(urls, env);
            if |excludeUrls| > 0 {
              project' := project'.(externalUrls := Some(RemoveExcluded(urls, excludeUrls)));
            }
            attributes := attributes.(status := Finished);
          case Working =>
            // any other status ends the run
            attributes := attributes.(status := Finished);
        }
      }
      exit := Done(());
    }
  }
}
