/**
 * src/agents/backend/backend_agent.rs: the backend developer agent. Its
 * `execute` loop drives the status through Discovery (write the first
 * version of the server), Working (improve it, or fix it after a failed
 * build), UnitTesting (safety gate, build, endpoint extraction, launch and
 * probes) and Finished.
 *
 * The loop is specified by the pure function `Run` over a snapshot
 * (`Config`) of everything it reads and changes; the class's `Execute` is
 * proved to compute exactly `Run`, and the properties of the agent are
 * lemmas about `Run`.
 */
module BackendAgent {
  import opened Outcomes
  import opened Model
  import opened Common
  import opened Oracles
  import opened AiTasks
  import opened CommandLine
  import opened Persistence

  const Objective := "Develops backend code for webserver and JSON database."
  const Position := "Backend Developer"

  /** A failed build aborts the run once the bug count exceeds this. */
  const MaxBugCount := 10

  /** The address the spawned server listens on; routes are appended to it. */
  const ServerOrigin := "http://localhost:8080"

  /** The agent's own fields. */
  datatype Fields = Fields(attributes: AgentAttributes, bugErrors: Option<string>, bugCount: nat)

  /** What a fresh agent holds. */
  const Initial := Fields(AgentAttributes(Objective, Position, Discovery), None, 0)

  /** Everything the loop reads and changes: the agent, the shared project, the files and the environment's record. */
  datatype Config = Config(agent: Fields, project: Project, files: map<string, string>, cursor: Cursor)

  function Status(s: Config): AgentStatus {
    s.agent.attributes.status
  }

  /**
   * The architect's part of the project is untouched: q differs from p at most
   * in the generated code and the endpoint schema.
   */
  predicate KeepsPlan(p: Project, q: Project) {
    q == p.(backendCode := q.backendCode, apiEndpointSchema := q.apiEndpointSchema)
  }

  /** Every file but main.rs and the schema file is in g exactly as in f. */
  ghost predicate KeepsOtherFiles(dir: string, f: map<string, string>, g: map<string, string>) {
    forall path :: path != ExecutableMainPath(dir) && path != ApiSchemaPath(dir) ==>
      (path in g <==> path in f) && (path in g ==> g[path] == f[path])
  }

  /** The same configuration with its status replaced. */
  function WithStatus(s: Config, status: AgentStatus): Config {
    s.(agent := s.agent.(attributes := s.agent.attributes.(status := status)))
  }

  // ---------------------------------------------------------------------
  // The endpoint filter and the probe loop

  /** The endpoints that are tested against the running server: static GET routes. */
  predicate IsProbeable(e: EndpointRoute) {
    e.httpMethod == Get && !e.isRouteDynamic
  }

  /** The decoded endpoints to check, in their original order. */
  function ProbeList(routes: seq<EndpointRoute>): (r: seq<EndpointRoute>)
    ensures |r| <= |routes|
    ensures forall e :: e in r <==> e in routes && IsProbeable(e)
  {
    if routes == [] then []
    else (if IsProbeable(routes[0]) then [routes[0]] else []) + ProbeList(routes[1..])
  }

  /** The URL an endpoint is probed at. */
  function LocalUrl(route: string): string {
    ServerOrigin + route
  }

  function Urls(routes: seq<EndpointRoute>): (r: seq<string>)
    ensures |r| == |routes| && forall i :: 0 <= i < |routes| ==> r[i] == LocalUrl(routes[i].route)
  {
    seq(|routes|, i requires 0 <= i < |routes| => LocalUrl(routes[i].route))
  }

  /** How many of the probes numbered from `first` on, sent to `urls` in order, meet a transport error. */
  function TransportErrors(probes: (nat, string) -> ProbeOutcome, first: nat, urls: seq<string>): (n: nat)
    ensures n <= |urls|
    decreases |urls|
  {
    if urls == [] then 0
    else (if probes(first, urls[0]).TransportError? then 1 else 0) + TransportErrors(probes, first + 1, urls[1..])
  }

  /**
   * The probe loop over the routes: each route's URL is requested; a status
   * other than 200 only warns, and a transport error kills the server.
   */
  function ProbeEndpoints(probes: (nat, string) -> ProbeOutcome, routes: seq<EndpointRoute>, c: Cursor): (r: Cursor)
    ensures r == c.(probed := r.probed, kills := r.kills)
  {
    if routes == [] then c
    else
      var before := ProbeEndpoints(probes, routes[..|routes| - 1], c);
      var url := LocalUrl(routes[|routes| - 1].route);
      var killed := if probes(|before.probed|, url).TransportError? then 1 else 0;
      before.(probed := before.probed + [url], kills := before.kills + killed)
  }

  // ---------------------------------------------------------------------
  // One step per status

  /** Ask the LLM for code with prompt function f; the reply replaces main.rs and `project.backend_code`. */
  function RequestCode(w: World, dir: string, s: Config, f: AiFunction): (r: (Outcome<()>, Config))
    ensures r.1.agent == s.agent
    ensures r.1.project == s.project.(backendCode := r.1.project.backendCode)
    ensures r.0.Fatal? ==> r.1.files == s.files
    ensures r.0.Done? ==>
      r.1.project.backendCode.Some? &&
      r.1.files == s.files[ExecutableMainPath(dir) := r.1.project.backendCode.value]
  {
    var (reply, calls) := AiTaskRequest(w.llm, f, s.cursor.calls);
    var s1 := s.(cursor := s.cursor.(calls := calls));
    match reply
    case Fatal(p) => (Fatal(p), s1)
    case Done(code) =>
      (Done(()), s1.(files := s1.files[ExecutableMainPath(dir) := code], project := s1.project.(backendCode := Some(code))))
  }

  /** `generate_initial_backend_code`: read the code template, then ask for the first server. */
  function GenerateCode(w: World, dir: string, s: Config): (r: (Outcome<()>, Config))
    ensures r.1.agent == s.agent
    ensures KeepsPlan(s.project, r.1.project) && KeepsOtherFiles(dir, s.files, r.1.files)
  {
    match ReadCodeTemplateContents(s.files, dir)
    case Fatal(p) => (Fatal(p), s)
    case Done(_) => RequestCode(w, dir, s, PrintBackendWebserverCode)
  }

  /** Discovery: generate the first server and move to Working. */
  function DiscoveryStep(w: World, dir: string, s: Config): (r: (Outcome<()>, Config))
    ensures r.0.Done? ==> r.1.agent == s.agent.(attributes := s.agent.attributes.(status := Working))
    ensures KeepsPlan(s.project, r.1.project) && KeepsOtherFiles(dir, s.files, r.1.files)
  {
    var (o, s1) := GenerateCode(w, dir, s);
    if o.Fatal? then (o, s1) else (o, WithStatus(s1, Working))
  }

  /** The prompt function Working uses: improve a clean build, fix a broken one. */
  function WorkingPrompt(bugCount: nat): (f: AiFunction)
    ensures f == PrintImprovedWebserverCode <==> bugCount == 0
    ensures f == PrintFixedCode <==> bugCount != 0
  {
    if bugCount == 0 then PrintImprovedWebserverCode else PrintFixedCode
  }

  /** Working: improve or fix the code, then move to UnitTesting. */
  function WorkingStep(w: World, dir: string, s: Config): (r: (Outcome<()>, Config))
    ensures r.0.Done? ==> r.1.agent == s.agent.(attributes := s.agent.attributes.(status := UnitTesting))
    ensures KeepsPlan(s.project, r.1.project) && KeepsOtherFiles(dir, s.files, r.1.files)
  {
    var (o, s1) := RequestCode(w, dir, s, WorkingPrompt(s.agent.bugCount));
    if o.Fatal? then (o, s1) else (o, WithStatus(s1, UnitTesting))
  }

  /**
   * `extract_rest_api_endpoints`: read main.rs, then ask the LLM for the
   * endpoint schema of that code; the reply text is returned undecoded.
   */
  function ExtractEndpoints(w: World, files: map<string, string>, dir: string, calls: seq<AiFunction>): (r: (Outcome<string>, seq<AiFunction>))
    ensures ExecutableMainPath(dir) !in files ==> r == (Fatal(ReadExecutableMain), calls)
    ensures r.0.Done? ==> |r.1| > 0 && w.llm(|r.1| - 1, PrintRestApiEndpoints) == Reply(r.0.value)
  {
    match ReadExecutableMainContents(files, dir)
    case Fatal(p) => (Fatal(p), calls)
    case Done(_) => AiTaskRequest(w.llm, PrintRestApiEndpoints, calls)
  }

  /**
   * The end of a successful build: extract and decode the endpoints, store
   * the static GET ones on the project, launch the server, probe each of them,
   * save the raw endpoint text, kill the server and finish.
   */
  function ValidateServer(w: World, dir: string, s: Config): (r: (Outcome<()>, Config))
    ensures r.1.agent.bugCount == s.agent.bugCount
    ensures r.0.Done? ==> r.1.agent == s.agent.(attributes := s.agent.attributes.(status := Finished))
    ensures r.1.project == s.project.(apiEndpointSchema := r.1.project.apiEndpointSchema)
    ensures r.0.Fatal? ==> r.1.files == s.files
    ensures r.0.Done? ==> ApiSchemaPath(dir) in r.1.files && r.1.files == s.files[ApiSchemaPath(dir) := r.1.files[ApiSchemaPath(dir)]]
  {
    var (extracted, calls) := ExtractEndpoints(w, s.files, dir, s.cursor.calls);
    var s1 := s.(cursor := s.cursor.(calls := calls));
    match extracted
    case Fatal(p) => (Fatal(p), s1)
    case Done(text) =>
      match w.decodeEndpoints(text)
      case None => (Fatal(DecodeApiEndpoints), s1)
      case Some(endpoints) =>
        var toCheck := ProbeList(endpoints);
        var s2 := s1.(project := s1.project.(apiEndpointSchema := Some(toCheck)));
        var s3 := s2.(cursor := s2.cursor.(launches := s2.cursor.launches + 1));
        if !w.launches(s2.cursor.launches) then (Fatal(ServerNotLaunched), s3)
        else
          var c := ProbeEndpoints(w.probes, toCheck, s3.cursor);
          var s4 := s3.(cursor := c.(kills := c.kills + 1), files := s3.files[ApiSchemaPath(dir) := text]);
          (Done(()), WithStatus(s4, Finished))
  }

  /**
   * UnitTesting: the safety gate, then one build. A failed build counts a bug,
   * records its error text and goes back to Working, or aborts once the count
   * exceeds the budget; a good build clears the count and validates the server.
   */
  function UnitTestStep(w: World, dir: string, s: Config): (r: (Outcome<()>, Config))
    ensures r.0.Done? ==>
      (r.1.agent.attributes.status == Finished && r.1.agent.bugCount == 0) ||
      (r.1.agent.attributes.status == Working && r.1.agent.bugCount == s.agent.bugCount + 1 <= MaxBugCount)
    ensures KeepsPlan(s.project, r.1.project) && KeepsOtherFiles(dir, s.files, r.1.files)
  {
    var (answer, next) := FirstDecision(w.answers, s.cursor.answersRead);
    var s1 := s.(cursor := s.cursor.(answersRead := next));
    match answer
    case None => (Fatal(AnswersExhausted), s1)
    case Some(false) => (Fatal(SafetyDeclined), s1)
    case Some(true) => BuildStep(w, dir, s1)
  }

  /**
   * The build once the code is judged safe: a failed build counts a bug,
   * records its error text and goes back to Working, or aborts past the
   * budget; a good build clears the count and validates the server.
   */
  function BuildStep(w: World, dir: string, s: Config): (r: (Outcome<()>, Config))
    ensures r.0.Done? ==>
      (r.1.agent.attributes.status == Finished && r.1.agent.bugCount == 0) ||
      (r.1.agent.attributes.status == Working && r.1.agent.bugCount == s.agent.bugCount + 1 <= MaxBugCount)
    ensures KeepsPlan(s.project, r.1.project) && KeepsOtherFiles(dir, s.files, r.1.files)
  {
    var s2 := s.(cursor := s.cursor.(builds := s.cursor.builds + 1));
    match w.builds(s.cursor.builds)
    case BuildNotRun => (Fatal(BuildNotLaunched), s2)
    case BuildFailed(stderr) =>
      var s3 := s2.(agent := s2.agent.(bugCount := s2.agent.bugCount + 1, bugErrors := Some(stderr.GetOr(""))));
      if s3.agent.bugCount > MaxBugCount then (Fatal(TooManyBugs), s3)
      else (Done(()), WithStatus(s3, Working))
    case BuildSucceeded =>
      ValidateServer(w, dir, s2.(agent := s2.agent.(bugCount := 0)))
  }

  /**
   * One turn of the `execute` loop. A completed turn from an unfinished agent
   * lowers `Measure`, and no turn touches the architect's part of the project
   * or any file but main.rs and the schema.
   */
  function Step(w: World, dir: string, s: Config): (r: (Outcome<()>, Config))
    ensures Status(s) != Finished && r.0.Done? ==> Measure(r.1.agent) < Measure(s.agent)
    ensures KeepsPlan(s.project, r.1.project) && KeepsOtherFiles(dir, s.files, r.1.files)
  {
    match Status(s)
    case Discovery => DiscoveryStep(w, dir, s)
    case Working => WorkingStep(w, dir, s)
    case UnitTesting => UnitTestStep(w, dir, s)
    case Finished => (Done(()), s)
  }

  /**
   * What every completed turn of the loop decreases: the remaining bug budget
   * first, then the status's rank; Finished is below everything.
   */
  function Measure(a: Fields): nat {
    if a.attributes.status == Finished then 0
    else 4 * (MaxBugCount + 2 - (if a.bugCount <= MaxBugCount + 1 then a.bugCount else MaxBugCount + 1)) + Rank(a.attributes.status)
  }

  /**
   * `execute`: turns of the loop until the status is Finished (Done) or a step
   * aborts (Fatal, with the state at the abort).
   */
  function Run(w: World, dir: string, s: Config): (r: (Outcome<()>, Config))
    ensures r.0.Done? ==> Status(r.1) == Finished
    ensures KeepsPlan(s.project, r.1.project) && KeepsOtherFiles(dir, s.files, r.1.files)
    decreases Measure(s.agent)
  {
    if Status(s) == Finished then (Done(()), s)
    else
      var (o, s1) := Step(w, dir, s);
      if o.Fatal? then (o, s1)
      else Run(w, dir, s1)
  }

  // ---------------------------------------------------------------------
  // The filter and the probe loop

  /** The filter distributes over concatenation, so it keeps the order of the endpoints it keeps. */
  lemma {:induction false} ProbeListAppend(a: seq<EndpointRoute>, b: seq<EndpointRoute>)
    ensures ProbeList(a + b) == ProbeList(a) + ProbeList(b)
    decreases |a|
  {
    if a == [] {
      assert a + b == b;
    } else {
      assert (a + b)[0] == a[0] && (a + b)[1..] == a[1..] + b;
      ProbeListAppend(a[1..], b);
    }
  }

  /** A list of static GET routes is kept whole. */
  lemma {:induction false} ProbeListKeepsProbeable(routes: seq<EndpointRoute>)
    requires forall i :: 0 <= i < |routes| ==> IsProbeable(routes[i])
    ensures ProbeList(routes) == routes
    decreases |routes|
  {
    if routes != [] {
      ProbeListKeepsProbeable(routes[1..]);
    }
  }

  lemma {:induction false} TransportErrorsSnoc(probes: (nat, string) -> ProbeOutcome, first: nat, urls: seq<string>, url: string)
    ensures TransportErrors(probes, first, urls + [url]) ==
      TransportErrors(probes, first, urls) + (if probes(first + |urls|, url).TransportError? then 1 else 0)
    decreases |urls|
  {
    if urls != [] {
      assert (urls + [url])[1..] == urls[1..] + [url];
      TransportErrorsSnoc(probes, first + 1, urls[1..], url);
    }
  }

  /**
   * The probe loop requests every route's URL once, in order, and kills the
   * server once per transport error; nothing else is touched.
   */
  lemma {:induction false} ProbeEndpointsEffect(probes: (nat, string) -> ProbeOutcome, routes: seq<EndpointRoute>, c: Cursor)
    ensures ProbeEndpoints(probes, routes, c) ==
      c.(probed := c.probed + Urls(routes), kills := c.kills + TransportErrors(probes, |c.probed|, Urls(routes)))
    decreases |routes|
  {
    if routes != [] {
      var front := routes[..|routes| - 1];
      var url := LocalUrl(routes[|routes| - 1].route);
      ProbeEndpointsEffect(probes, front, c);
      assert Urls(routes) == Urls(front) + [url];
      TransportErrorsSnoc(probes, |c.probed|, Urls(front), url);
    }
  }

  // ---------------------------------------------------------------------
  // The steps

  /**
   * Discovery stores the generated server both in main.rs and in
   * `project.backend_code`; a missing template aborts before the LLM is asked.
   */
  lemma DiscoveryStores(w: World, dir: string, s: Config)
    ensures var r := DiscoveryStep(w, dir, s);
      (CodeTemplatePath(dir) !in s.files ==> r == (Fatal(ReadCodeTemplate), s)) &&
      r.1.project == s.project.(backendCode := r.1.project.backendCode) &&
      (r.0.Done? ==>
        Status(r.1) == Working &&
        |r.1.cursor.calls| > 0 &&
        r.1.project.backendCode.Some? &&
        w.llm(|r.1.cursor.calls| - 1, PrintBackendWebserverCode) == Reply(r.1.project.backendCode.value) &&
        r.1.files == s.files[ExecutableMainPath(dir) := r.1.project.backendCode.value])
  {
  }

  /**
   * Working asks for improved code when there are no bugs and for fixed code
   * otherwise; the reply replaces the stored code and the status becomes
   * UnitTesting.
   */
  lemma WorkingChoosesPrompt(w: World, dir: string, s: Config)
    ensures var r := WorkingStep(w, dir, s);
      |r.1.cursor.calls| > |s.cursor.calls| &&
      (r.1.cursor.calls[|s.cursor.calls|] == PrintImprovedWebserverCode <==> s.agent.bugCount == 0) &&
      (r.1.cursor.calls[|s.cursor.calls|] == PrintFixedCode <==> s.agent.bugCount != 0) &&
      r.1.project == s.project.(backendCode := r.1.project.backendCode) &&
      (r.0.Done? ==>
        Status(r.1) == UnitTesting &&
        r.1.project.backendCode.Some? &&
        w.llm(|r.1.cursor.calls| - 1, WorkingPrompt(s.agent.bugCount)) == Reply(r.1.project.backendCode.value) &&
        r.1.files == s.files[ExecutableMainPath(dir) := r.1.project.backendCode.value])
  {
  }

  /** The safety gate comes before the build: without a yes, nothing is built and the run aborts. */
  lemma GateBeforeBuild(w: World, dir: string, s: Config)
    ensures var r := UnitTestStep(w, dir, s);
      var answer := FirstDecision(w.answers, s.cursor.answersRead).0;
      (answer == Some(false) ==> r.0 == Fatal(SafetyDeclined) && r.1.cursor.builds == s.cursor.builds) &&
      (answer.None? ==> r.0 == Fatal(AnswersExhausted) && r.1.cursor.builds == s.cursor.builds) &&
      (answer == Some(true) ==> r.1.cursor.builds == s.cursor.builds + 1)
  {
  }

  /**
   * A failed build counts one more bug and records the error text (empty when
   * it is not UTF-8); the run aborts exactly when the count exceeds the budget,
   * and otherwise goes back to Working.
   */
  lemma FailedBuild(w: World, dir: string, s: Config, stderr: Option<string>)
    requires FirstDecision(w.answers, s.cursor.answersRead).0 == Some(true)
    requires w.builds(s.cursor.builds) == BuildFailed(stderr)
    ensures var r := UnitTestStep(w, dir, s);
      r.1.agent.bugCount == s.agent.bugCount + 1 &&
      r.1.agent.bugErrors == Some(stderr.GetOr("")) &&
      (r.0.Fatal? <==> s.agent.bugCount + 1 > MaxBugCount) &&
      (r.0.Fatal? ==> r.0.reason == TooManyBugs) &&
      (r.0.Done? ==> Status(r.1) == Working)
  {
  }

  /** A good build clears the bug count, whatever happens next. */
  lemma GoodBuild(w: World, dir: string, s: Config)
    requires FirstDecision(w.answers, s.cursor.answersRead).0 == Some(true)
    requires w.builds(s.cursor.builds) == BuildSucceeded
    ensures UnitTestStep(w, dir, s).1.agent.bugCount == 0
  {
  }

  /**
   * The end of a completed run: the endpoint text was the LLM's last reply
   * and is saved as the schema file; the project holds its static GET routes;
   * every one of them was probed once, from the cursor `c0` on, and the server
   * was killed once per transport error and once more at the end.
   */
  predicate Validated(w: World, dir: string, c0: Cursor, e: Config) {
    ApiSchemaPath(dir) in e.files &&
    var text := e.files[ApiSchemaPath(dir)];
    |e.cursor.calls| > 0 &&
    w.llm(|e.cursor.calls| - 1, PrintRestApiEndpoints) == Reply(text) &&
    w.decodeEndpoints(text).Some? &&
    var schema := ProbeList(w.decodeEndpoints(text).value);
    e.project.apiEndpointSchema == Some(schema) &&
    e.cursor.probed == c0.probed + Urls(schema) &&
    e.cursor.kills == c0.kills + TransportErrors(w.probes, |c0.probed|, Urls(schema)) + 1
  }

  lemma ValidateServerDone(w: World, dir: string, s: Config)
    ensures ValidateServer(w, dir, s).0.Done? ==> Validated(w, dir, s.cursor, ValidateServer(w, dir, s).1)
  {
    var r := ValidateServer(w, dir, s);
    if r.0.Done? {
      var (reply, calls) := ExtractEndpoints(w, s.files, dir, s.cursor.calls);
      var endpoints := w.decodeEndpoints(reply.value).value;
      var c := s.cursor.(calls := calls, launches := s.cursor.launches + 1);
      ProbeEndpointsEffect(w.probes, ProbeList(endpoints), c);
    }
  }

  /** Every step but the last leaves the probes and kills alone; builds happen only in UnitTesting. */
  lemma StepEffects(w: World, dir: string, s: Config)
    requires Status(s) != Finished
    ensures var r := Step(w, dir, s);
      (r.0.Done? && Status(r.1) != Finished ==> r.1.cursor.probed == s.cursor.probed && r.1.cursor.kills == s.cursor.kills) &&
      (r.0.Done? && Status(r.1) == Finished ==> Validated(w, dir, s.cursor, r.1) && r.1.agent.bugCount == 0) &&
      (Status(s) != UnitTesting ==> r.1.cursor.builds == s.cursor.builds && r.1.agent.bugCount == s.agent.bugCount && r.0 != Fatal(TooManyBugs)) &&
      s.cursor.builds <= r.1.cursor.builds &&
      (Status(s) == UnitTesting ==> r.1.cursor.builds <= s.cursor.builds + 1 && r.1.agent.bugCount <= s.agent.bugCount + 1) &&
      (r.0 == Fatal(TooManyBugs) ==> r.1.cursor.builds == s.cursor.builds + 1 && r.1.agent.bugCount == s.agent.bugCount + 1 > MaxBugCount)
  {
    if Status(s) == UnitTesting {
      var (answer, next) := FirstDecision(w.answers, s.cursor.answersRead);
      if answer == Some(true) {
        BuildStepEffects(w, dir, s.(cursor := s.cursor.(answersRead := next)));
      }
    }
  }

  /** What one build does to the record: one build more, and `Validated` when it finishes. */
  lemma BuildStepEffects(w: World, dir: string, s: Config)
    ensures var r := BuildStep(w, dir, s);
      (r.0.Done? && Status(r.1) != Finished ==> r.1.cursor.probed == s.cursor.probed && r.1.cursor.kills == s.cursor.kills) &&
      (r.0.Done? && Status(r.1) == Finished ==> Validated(w, dir, s.cursor, r.1) && r.1.agent.bugCount == 0) &&
      r.1.cursor.builds == s.cursor.builds + 1 && r.1.agent.bugCount <= s.agent.bugCount + 1 &&
      (r.0 == Fatal(TooManyBugs) ==> r.1.agent.bugCount == s.agent.bugCount + 1 > MaxBugCount)
  {
    if w.builds(s.cursor.builds).BuildSucceeded? {
      ValidateServerDone(w, dir, s.(cursor := s.cursor.(builds := s.cursor.builds + 1), agent := s.agent.(bugCount := 0)));
    }
  }

  // ---------------------------------------------------------------------
  // The whole run

  /**
   * The bug budget: from a bug count within the budget, a run builds at most
   * budget + 1 - count times and the count never exceeds budget + 1; a run
   * aborted for too many bugs built exactly that many times, all failing.
   */
  lemma {:induction false} RunBuildBudget(w: World, dir: string, s: Config)
    requires s.agent.bugCount <= MaxBugCount
    ensures var r := Run(w, dir, s);
      s.cursor.builds <= r.1.cursor.builds <= s.cursor.builds + MaxBugCount + 1 - s.agent.bugCount &&
      r.1.agent.bugCount <= MaxBugCount + 1 &&
      (r.0 == Fatal(TooManyBugs) ==>
        r.1.cursor.builds == s.cursor.builds + MaxBugCount + 1 - s.agent.bugCount &&
        r.1.agent.bugCount == MaxBugCount + 1)
    decreases Measure(s.agent)
  {
    if Status(s) != Finished {
      StepEffects(w, dir, s);
      var (o, s1) := Step(w, dir, s);
      if o.Done? && Status(s1) != Finished {
        RunBuildBudget(w, dir, s1);
      }
    }
  }

  /**
   * A run that completes from an unfinished agent ends Finished with no bugs
   * outstanding, the schema saved, the static GET routes on the project, each
   * probed once, and one kill per transport error plus the final one.
   */
  lemma {:induction false} RunDone(w: World, dir: string, s: Config)
    requires Status(s) != Finished
    ensures var r := Run(w, dir, s);
      r.0.Done? ==> Status(r.1) == Finished && r.1.agent.bugCount == 0 && Validated(w, dir, s.cursor, r.1)
    decreases Measure(s.agent)
  {
    StepEffects(w, dir, s);
    var (o, s1) := Step(w, dir, s);
    if o.Done? && Status(s1) != Finished {
      RunDone(w, dir, s1);
    }
  }

  // ---------------------------------------------------------------------
  // The agent

  /** The probe loop against the running server. */
  method TestEndpoints(routes: seq<EndpointRoute>, env: Environment)
    modifies env
    ensures env.cursor == ProbeEndpoints(env.world.probes, routes, old(env.cursor))
  {
    for i := 0 to |routes|
      invariant env.cursor == ProbeEndpoints(env.world.probes, routes[..i], old(env.cursor))
    {
      assert routes[..i + 1][..i] == routes[..i];
      var outcome := env.Probe(LocalUrl(routes[i].route));
      match outcome {
        case Status(code) =>
          // a status other than 200 is only reported
        case TransportError =>
          env.Kill();
      }
    }
    assert routes[..|routes|] == routes;
  }

  class BackendDeveloperAgent {
    var attributes: AgentAttributes
    var bugErrors: Option<string>
    var bugCount: nat

    /** The fields as a value. */
    function State(): Fields
      reads this
    {
      Fields(attributes, bugErrors, bugCount)
    }

    /** `new`: a Backend Developer in Discovery, with no bug count and no recorded errors. */
    constructor ()
      ensures State() == Initial
    {
      attributes := Initial.attributes;
      bugErrors := None;
      bugCount := 0;
    }

    /** Ask for code with prompt function f and store the reply in main.rs and on the project. */
    method WriteCode(f: AiFunction, project: Project, fs: FileSystem, env: Environment) returns (exit: Outcome<()>, project': Project)
      modifies fs, env
      ensures (exit, Config(State(), project', fs.files, env.cursor)) ==
        RequestCode(env.world, fs.manifestDir, Config(State(), project, old(fs.files), old(env.cursor)), f)
    {
      var reply := Request(env, f);
      project' := project;
      match reply {
        case Fatal(p) =>
          exit := Fatal(p);
        case Done(code) =>
          fs.SaveBackendCode(code);
          project' := project.(backendCode := Some(code));
          exit := Done(());
      }
    }

    /** `generate_initial_backend_code`. */
    method GenerateInitialBackendCode(project: Project, fs: FileSystem, env: Environment) returns (exit: Outcome<()>, project': Project)
      modifies fs, env
      ensures (exit, Config(State(), project', fs.files, env.cursor)) ==
        GenerateCode(env.world, fs.manifestDir, Config(State(), project, old(fs.files), old(env.cursor)))
    {
      var template := ReadCodeTemplateContents(fs.files, fs.manifestDir);
      if template.Fatal? {
        return Fatal(template.reason), project;
      }
      exit, project' := WriteCode(PrintBackendWebserverCode, project, fs, env);
    }

    /** `extract_rest_api_endpoints`: the LLM's undecoded endpoint schema for the current main.rs. */
    method ExtractRestApiEndpoints(fs: FileSystem, env: Environment) returns (text: Outcome<string>)
      modifies env
      ensures (text, env.cursor.calls) == ExtractEndpoints(env.world, fs.files, fs.manifestDir, old(env.cursor.calls))
      ensures env.cursor == old(env.cursor).(calls := env.cursor.calls)
    {
      var code := ReadExecutableMainContents(fs.files, fs.manifestDir);
      if code.Fatal? {
        return Fatal(code.reason);
      }
      text := Request(env, PrintRestApiEndpoints);
    }

    /** The UnitTesting arm of `execute`. */
    method UnitTest(project: Project, fs: FileSystem, env: Environment) returns (exit: Outcome<()>, project': Project)
      modifies this, fs, env
      ensures (exit, Config(State(), project', fs.files, env.cursor)) ==
        UnitTestStep(env.world, fs.manifestDir, Config(old(State()), project, old(fs.files), old(env.cursor)))
    {
      project' := project;
      var isSafe, next := ConfirmSafeCode(env.world.answers, env.cursor.answersRead);
      env.cursor := env.cursor.(answersRead := next);
      if isSafe.None? {
        return Fatal(AnswersExhausted), project';
      }
      if !isSafe.value {
        return Fatal(SafetyDeclined), project';
      }

      exit, project' := BuildAndCheck(project', fs, env);
    }

    /** The build and what follows it in the UnitTesting arm. */
    method BuildAndCheck(project: Project, fs: FileSystem, env: Environment) returns (exit: Outcome<()>, project': Project)
      modifies this, fs, env
      ensures (exit, Config(State(), project', fs.files, env.cursor)) ==
        BuildStep(env.world, fs.manifestDir, Config(old(State()), project, old(fs.files), old(env.cursor)))
    {
      project' := project;
      var build := env.Build();
      match build {
        case BuildNotRun =>
          return Fatal(BuildNotLaunched), project';
        case BuildFailed(stderr) =>
          bugCount := bugCount + 1;
          bugErrors := Some(stderr.GetOr(""));
          if bugCount > MaxBugCount {
            return Fatal(TooManyBugs), project';
          }
          attributes := attributes.(status := Working);
          return Done(()), project';
        case BuildSucceeded =>
          bugCount := 0;
          exit, project' := Validate(project', fs, env);
      }
    }

    /** The good-build end of the UnitTesting arm: validate the server's endpoints and finish. */
    method Validate(project: Project, fs: FileSystem, env: Environment) returns (exit: Outcome<()>, project': Project)
      modifies this, fs, env
      ensures (exit, Config(State(), project', fs.files, env.cursor)) ==
        ValidateServer(env.world, fs.manifestDir, Config(old(State()), project, old(fs.files), old(env.cursor)))
    {
      project' := project;
      var extracted := ExtractRestApiEndpoints(fs, env);
      if extracted.Fatal? {
        return Fatal(extracted.reason), project';
      }
      var decoded := env.world.decodeEndpoints(extracted.value);
      if decoded.None? {
        return Fatal(DecodeApiEndpoints), project';
      }
      var toCheck := ProbeList(decoded.value);
      project' := project'.(apiEndpointSchema := Some(toCheck));

      var spawned := env.Launch();
      if !spawned {
        return Fatal(ServerNotLaunched), project';
      }
      TestEndpoints(toCheck, env);
      fs.SaveApiEndpoints(extracted.value);
      env.Kill();
      attributes := attributes.(status := Finished);
      exit := Done(());
    }

    /**
     * `execute`: run the state machine to Finished on the shared project. The
     * result, the agent's fields, the project, the files and the record of
     * the environment are exactly those of `Run`.
     */
    method Execute(project: Project, fs: FileSystem, env: Environment) returns (exit: Outcome<()>, project': Project)
      modifies this, fs, env
      ensures (exit, Config(State(), project', fs.files, env.cursor)) ==
        Run(env.world, fs.manifestDir, Config(old(State()), project, old(fs.files), old(env.cursor)))
    {
      project' := project;
      while attributes.status != Finished
        invariant Run(env.world, fs.manifestDir, Config(State(), project', fs.files, env.cursor)) ==
          Run(env.world, fs.manifestDir, Config(old(State()), project, old(fs.files), old(env.cursor)))
        decreases Measure(State())
      {
        match attributes.status {
          case Discovery =>
            exit, project' := GenerateInitialBackendCode(project', fs, env);
            if exit.Fatal? {
              return;
            }
            attributes := attributes.(status := Working);
          case Working =>
            if bugCount == 0 {
              exit, project' := WriteCode(PrintImprovedWebserverCode, project', fs, env);
            } else {
              exit, project' := WriteCode(PrintFixedCode, project', fs, env);
            }
            if exit.Fatal? {
              return;
            }
            attributes := attributes.(status := UnitTesting);
          case UnitTesting =>
            exit, project' := UnitTest(project', fs, env);
            if exit.Fatal? {
              return;
            }
        }
      }
      exit := Done(());
    }
  }
}
