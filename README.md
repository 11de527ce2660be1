# rust-auto-gpt-coder, modelled in Dafny

rust-auto-gpt-coder turns a one-line website request into a running Rust
backend by chaining LLM "agents":

- a **managing agent** turns the request into a project description, then runs
  a **solutions architect** and a **backend developer**, in that order, on one
  shared `Project` record;
- the **architect** asks the LLM for the project's scope and, when the scope
  calls for external URLs, for a list of them; it probes each URL and drops
  those that answer with a status other than 200;
- the **backend developer** runs a state machine, Discovery → Working →
  UnitTesting → Finished:
  - it writes the server from a code template;
  - it improves the code, or fixes it after a failed build;
  - before each `cargo build` it asks the user to confirm the code is safe;
  - it gives up after the eleventh failed build;
  - on a good build it extracts the server's REST endpoints, launches the
    server, probes every static GET route and kills the server.

Around these sit:

- the LLM request helper, which makes one retry;
- the JSON names of HTTP methods;
- the terminal safety gate;
- the file paths of the generated project;
- the in-memory task/user database of the code template that the LLM starts from.

This project models that core and proves its properties.

Modelling choices:

- **Outside collaborators are answer tables.** The LLM, the terminal,
  `cargo build`, `cargo run`, HTTP probes and serde decoding are fields of a
  `World` value (`oracles.dfy`):
  - the LLM is indexed by call number and prompt function;
  - probes are indexed by probe number and URL;
  - the terminal is the sequence of typed lines.

  What has been used so far, and every kill signal, is recorded in a `Cursor`
  held by the `Environment` object.
- **Panics are results.** Every `panic!` and `expect` of the core is an explicit
  `Fatal(reason)` outcome that ends the process.
- **Agents are classes.** The agents' fields are updated in place by the
  methods.
- **Each `execute` loop has a pure specification.** Each loop is a method
  proved to compute exactly a pure function `Run` over a snapshot (`Config`)
  of everything the loop reads and writes. The properties of the agents are
  lemmas about `Run`.
- **The project record and the file system.** `&mut Project` is modelled as a
  value passed in and returned, which is equivalent under Rust's exclusive
  borrow. The file system of the generated project is a `FileSystem` object
  holding a path → contents map.

Modules and their files:

| module | file |
|---|---|
| `Outcomes` | `outcomes.dfy` |
| `Model` | `model.dfy` |
| `Common` | `common.dfy` |
| `Oracles` | `oracles.dfy` |
| `AiTasks` | `ai_tasks.dfy` |
| `CommandLine` | `command_line.dfy` |
| `Persistence` | `persistence.dfy` |
| `BackendAgent` | `backend_agent.dfy` |
| `ArchitectAgent` | `architect_agent.dfy` |
| `Agents` | `agents.dfy` (the `Agent` trait as a closed datatype with one dispatcher) |
| `Manager` | `managing_agent.dfy` |
| `Template` | `template.dfy` |

Two behaviours of the code shape the model:

- **`api_endpoint_schema`.** The backend agent stores the *filtered* endpoint
  list (static GET routes only) in `project.api_endpoint_schema`. The raw
  LLM text is what goes to `api_schema.json`.
- **Agent errors.** Agents never return `Err`: every failure is a panic. So the
  managing agent's discarding of each agent's `Result` never matters. An abort
  in one agent ends the whole run (`Manager.RunAllStopsAtAbort`).

## Model

| member | source | states |
|---|---|---|
| Model.WireName | src/model/endpoint_route.rs:13-21 | the JSON name of each HTTP method is its Rust variant name in ASCII upper case (`rename_all = "UPPERCASE"`) |
| Model.ParseMethod | src/model/endpoint_route.rs:13-21 | decoding succeeds only on a method's wire name and yields that method; a string that is no method's wire name is refused |
| Model.ParseWireName | src/model/endpoint_route.rs:13-14 | round trip: decoding the wire name of m gives m |
| Model.WireNamesDistinct | src/model/endpoint_route.rs:14-21 | two methods share a wire name iff they are the same method |
| Model.LowerCaseNameRefused | src/model/endpoint_route.rs:14 | "get" and "Get" are refused: names are matched case-sensitively |
| AiTasks.ExtendAiFunction | src/utilities/ai_tasks.rs:16-34 | the message's role is System; its content carries the prompt function's text and then the function input, each at a fixed offset |
| AiTasks.AiTaskRequest | src/utilities/ai_tasks.rs:37-70 | one or two calls: a first success is returned with no second call; after a failure exactly one retry is made and its success returned; two failures abort with GptFailedTwice; a returned text is the reply of the last call |
| AiTasks.AiTaskRequestDecoded | src/utilities/ai_tasks.rs:73-91 | makes the same calls; succeeds iff the request succeeded and its text decodes, returning the decoded value; an undecodable reply aborts with DecodeAiResponse |
| AiTasks.Request | src/utilities/ai_tasks.rs:37-70 | against the environment: returns what AiTaskRequest returns and only appends to the call log |
| AiTasks.RequestDecoded | src/utilities/ai_tasks.rs:73-91 | against the environment: returns what AiTaskRequestDecoded returns and only appends to the call log |
| CommandLine.TrimStartSpec | src/utilities/command_line.rs:107 | trim_start removes a whitespace-only prefix and leaves the line empty or starting with non-whitespace |
| CommandLine.TrimEndSpec | src/utilities/command_line.rs:107 | trim_end removes a whitespace-only suffix and leaves the line empty or ending with non-whitespace |
| CommandLine.TrimSpec | src/utilities/command_line.rs:101-107 | the typed line trimmed is a slice of it with only whitespace around it, and it neither begins nor ends with whitespace |
| CommandLine.Trim | src/utilities/command_line.rs:145 | `str::trim`: trim_start then trim_end (properties in TrimSpec and the Trim* lemmas) |
| CommandLine.ToLower | src/utilities/command_line.rs:145 | lower-casing maps each character to its lower case and keeps the length |
| CommandLine.Sanitize | src/utilities/command_line.rs:145 | the answer trimmed, then lower-cased (properties in the Classify* lemmas) |
| CommandLine.Verdict | src/utilities/command_line.rs:148-153 | Some(true) iff the sanitised answer is "1", "ok" or "y"; Some(false) iff it is "2", "no" or "n"; None otherwise |
| CommandLine.Classify | src/utilities/command_line.rs:145-153 | the verdict on one sanitised typed line (properties in ClassifyIgnoresSurroundingWhitespace and ClassifyIgnoresCase) |
| CommandLine.FirstDecision | src/utilities/command_line.rs:113-155 | the gate's answer over the typed lines: the first recognised line's verdict and the index after it (properties in FirstDecisionIsFirstRecognised) |
| CommandLine.ConfirmSafeCode | src/utilities/command_line.rs:111-156 | the loop's answer and the index after the last line read are FirstDecision's |
| CommandLine.FirstRecognisedSpec | src/utilities/command_line.rs:113-155 | for any classifier: the answer is the verdict on the first recognised line, every line before it is unrecognised, and no answer means no line is recognised |
| CommandLine.FirstDecisionIsFirstRecognised | src/utilities/command_line.rs:113-155 | the gate's decision is the classification of the first recognised typed line; every earlier line is re-prompted; no decision means no line was recognised |
| CommandLine.TrimStartSkipsWhitespace | src/utilities/command_line.rs:145 | extra leading whitespace does not change trim_start |
| CommandLine.TrimEndSkipsWhitespace | src/utilities/command_line.rs:145 | extra trailing whitespace does not change trim_end |
| CommandLine.TrimStartThenWhitespace | src/utilities/command_line.rs:145 | trim_start keeps trailing whitespace unless the line is all whitespace |
| CommandLine.TrimIgnoresSurroundingWhitespace | src/utilities/command_line.rs:145 | trimming ignores any whitespace added around the line |
| CommandLine.ClassifyIgnoresSurroundingWhitespace | src/utilities/command_line.rs:145-153 | the verdict on a line ignores any whitespace around it |
| CommandLine.TrimStartLower | src/utilities/command_line.rs:145 | lower-casing commutes with trim_start |
| CommandLine.TrimEndLower | src/utilities/command_line.rs:145 | lower-casing commutes with trim_end |
| CommandLine.ClassifyIgnoresCase | src/utilities/command_line.rs:145-153 | two lines that lower-case alike get the same verdict |
| CommandLine.ClassifyPaddedUpperCase | src/utilities/command_line.rs:145-149 | " Y\n" accepts |
| CommandLine.ClassifyMixedCase | src/utilities/command_line.rs:145-150 | "OK" accepts and "No" declines |
| CommandLine.ClassifyUnrecognised | src/utilities/command_line.rs:151-153 | "yes" and the empty line are not answers |
| CommandLine.GateRounds | src/utilities/command_line.rs:113-155 | the loop as written, bounded to a number of prompts, with every read past the end of input giving "" |
| CommandLine.ClosedInputNeverDecides | src/utilities/command_line.rs:113-155 | with input closed before a recognised line, no number of prompts gives a decision: the loop as written never ends |
| CommandLine.GateRoundsAgrees | src/utilities/command_line.rs:113-155 | when a recognised line is still to come, the loop as written decides as FirstDecision once enough prompts are allowed |
| Persistence.ProjectPath | src/utilities/backend_code_persistence.rs:22-27 | the manifest directory, "/", then `backend_code` (properties in PathsInsideProject) |
| Persistence.CodeTemplatePath | src/utilities/backend_code_persistence.rs:30-35 | the manifest directory, "/", then the template's relative path (properties in PathsInsideProject and PathsDistinct) |
| Persistence.ExecutableMainPath | src/utilities/backend_code_persistence.rs:38-43 | the manifest directory, "/", then main.rs's relative path (properties in PathsInsideProject and PathsDistinct) |
| Persistence.ApiSchemaPath | src/utilities/backend_code_persistence.rs:46-51 | the manifest directory, "/", then the schema's relative path (properties in PathsInsideProject and PathsDistinct) |
| Persistence.ReadFile | src/utilities/backend_code_persistence.rs:54-67 | reading succeeds iff the path is in the file map, with its contents; otherwise the read's own panic |
| Persistence.ReadCodeTemplateContents | src/utilities/backend_code_persistence.rs:54-59 | ReadFile on the template path, aborting with ReadCodeTemplate (properties in SaveSchemaKeepsCode and SaveCodeKeepsOthers) |
| Persistence.ReadExecutableMainContents | src/utilities/backend_code_persistence.rs:62-67 | ReadFile on main.rs's path, aborting with ReadExecutableMain (properties in SaveThenReadMain) |
| Persistence.PathsInsideProject | src/utilities/backend_code_persistence.rs:13-51 | the template, main and schema paths each start with the project path followed by "/" |
| Persistence.PathsDistinct | src/utilities/backend_code_persistence.rs:14-16 | the three file paths are pairwise distinct for every manifest directory |
| Persistence.FileSystem.SaveBackendCode | src/utilities/backend_code_persistence.rs:70-74 | main.rs now holds the contents and no other file changes |
| Persistence.FileSystem.SaveApiEndpoints | src/utilities/backend_code_persistence.rs:77-81 | the schema file now holds the contents and no other file changes |
| Persistence.SaveThenReadMain | src/utilities/backend_code_persistence.rs:62-74 | reading main.rs after saving code returns that code |
| Persistence.SaveSchemaKeepsCode | src/utilities/backend_code_persistence.rs:54-81 | saving the schema leaves the reads of main.rs and of the template unchanged |
| Persistence.SaveCodeKeepsOthers | src/utilities/backend_code_persistence.rs:54-81 | saving code leaves the template read unchanged and the schema file present or absent as before |
| Oracles.Environment.Build | src/agents/backend/backend_agent.rs:170-176 | the outcome is the next build's in the table; exactly one more build is recorded |
| Oracles.Environment.Launch | src/agents/backend/backend_agent.rs:234-240 | the spawn result is the next launch's; exactly one more launch is recorded |
| Oracles.Environment.Probe | src/agents/backend/backend_agent.rs:263-270 | the outcome is the table's for this probe number and URL; the URL is appended to the probe log |
| Oracles.Environment.Kill | src/agents/backend/backend_agent.rs:300-302 | exactly one more kill is recorded, nothing else changes |
| BackendAgent.WorkingPrompt | src/agents/backend/backend_agent.rs:141-145 | the improve prompt iff the bug count is 0, the fix prompt iff it is not |
| BackendAgent.LocalUrl | src/agents/backend/backend_agent.rs:269 | the URL of a route is the server origin `http://localhost:8080` followed by the route (properties through `Urls`) |
| BackendAgent.ProbeList | src/agents/backend/backend_agent.rs:216-222 | an endpoint is kept iff it is in the decoded list and is a static GET route; no more than the input |
| BackendAgent.ProbeListAppend | src/agents/backend/backend_agent.rs:216-222 | the filter distributes over concatenation, so kept endpoints keep their order |
| BackendAgent.ProbeListKeepsProbeable | src/agents/backend/backend_agent.rs:216-222 | a list of static GET routes passes the filter unchanged |
| BackendAgent.Urls | src/agents/backend/backend_agent.rs:269 | one URL per route, in order: the server origin followed by the route |
| BackendAgent.TransportErrors | src/agents/backend/backend_agent.rs:280-290 | at most one transport error per probed URL |
| BackendAgent.TransportErrorsSnoc | src/agents/backend/backend_agent.rs:253-292 | one more URL adds one to the count iff its probe meets a transport error |
| BackendAgent.ProbeEndpoints | src/agents/backend/backend_agent.rs:253-292 | the probe loop changes only the probe log and the kill count |
| BackendAgent.ProbeEndpointsEffect | src/agents/backend/backend_agent.rs:253-292 | every route's URL is probed once, in order, and the server is killed once per transport error; a non-200 status kills nothing |
| BackendAgent.TestEndpoints | src/agents/backend/backend_agent.rs:253-292 | the loop's effect on the environment is ProbeEndpoints' |
| BackendAgent.RequestCode | src/agents/backend/backend_agent.rs:78-86 | the agent and every other project field are unchanged; an abort leaves the files alone; on success `project.backend_code` holds new code, main.rs holds the same code, and no other file changes |
| BackendAgent.GenerateCode | src/agents/backend/backend_agent.rs:52-70 | generating the first server leaves the agent's fields, the project's description, scope and URL list, and every file but main.rs and the schema unchanged |
| BackendAgent.DiscoveryStep | src/agents/backend/backend_agent.rs:134-138 | a completed Discovery step changes the agent only by moving it to Working; the architect's part of the project and the other files stay |
| BackendAgent.WorkingStep | src/agents/backend/backend_agent.rs:140-148 | a completed Working step changes the agent only by moving it to UnitTesting; the architect's part of the project and the other files stay |
| BackendAgent.ExtractEndpoints | src/agents/backend/backend_agent.rs:107-122 | a missing main.rs aborts before any LLM call; the returned text is the last PrintRestApiEndpoints reply |
| BackendAgent.ValidateServer | src/agents/backend/backend_agent.rs:208-304 | keeps the bug count and every project field but the endpoint schema; an abort leaves the files alone; on completion the agent is Finished and otherwise unchanged, and only the schema file is written |
| BackendAgent.BuildStep | src/agents/backend/backend_agent.rs:169-206 | a completed build step either finishes with bug count 0 or returns to Working with one more bug, within the budget; the architect's part of the project and the other files stay |
| BackendAgent.UnitTestStep | src/agents/backend/backend_agent.rs:150-206 | a completed UnitTesting step either finishes with bug count 0 or returns to Working with one more bug, within the budget; the architect's part of the project and the other files stay |
| BackendAgent.Step | src/agents/backend/backend_agent.rs:131-148 | a completed turn from an unfinished agent lowers the progress measure (bug budget, then status rank); no turn touches the description, scope, URL list or any file but main.rs and the schema |
| BackendAgent.Run | src/agents/backend/backend_agent.rs:127-313 | the loop terminates (bug budget, then status rank); a completed run ends Finished; whatever happens, the run fills only `backend_code` and `api_endpoint_schema` and writes only main.rs and the schema file |
| BackendAgent.DiscoveryStores | src/agents/backend/backend_agent.rs:52-70 | a missing template aborts with nothing changed; no other project field changes; otherwise the generated code is the LLM's reply, stored in `project.backend_code` and main.rs, and the status is Working |
| BackendAgent.WorkingChoosesPrompt | src/agents/backend/backend_agent.rs:140-148 | the improve prompt is used iff the bug count is 0, the fix prompt otherwise; no other project field changes; the reply replaces the stored code and main.rs; the status becomes UnitTesting |
| BackendAgent.GateBeforeBuild | src/agents/backend/backend_agent.rs:158-176 | a declined or missing answer aborts with no build; a yes runs exactly one build |
| BackendAgent.FailedBuild | src/agents/backend/backend_agent.rs:185-206 | a failed build adds one bug, records stderr (empty if not UTF-8), aborts with TooManyBugs iff the count exceeds 10, and otherwise returns to Working |
| BackendAgent.GoodBuild | src/agents/backend/backend_agent.rs:179-180 | a good build resets the bug count to 0 |
| BackendAgent.ValidateServerDone | src/agents/backend/backend_agent.rs:208-304 | on completion: the raw endpoint text is saved to the schema file; the project holds its static GET routes; each was probed once; kills = transport errors + 1 |
| BackendAgent.BuildStepEffects | src/agents/backend/backend_agent.rs:169-304 | one build more; a rework leaves probes and kills alone; a finish is validated with bug count 0 |
| BackendAgent.StepEffects | src/agents/backend/backend_agent.rs:131-305 | per step: builds happen only in UnitTesting and one at a time; probes and kills only at the finish, which is validated; TooManyBugs only after a build over budget |
| BackendAgent.RunBuildBudget | src/agents/backend/backend_agent.rs:185-206 | from a bug count b within the budget, a run builds at most 11 - b times and the bug count never exceeds 11; a TooManyBugs abort comes after exactly 11 - b builds |
| BackendAgent.RunDone | src/agents/backend/backend_agent.rs:127-313 | a completed run ends Finished with bug count 0 and the server validated from the starting probe log |
| BackendAgent.BackendDeveloperAgent.constructor | src/agents/backend/backend_agent.rs:38-50 | a new agent is in Discovery with bug count 0 and no bug errors |
| BackendAgent.BackendDeveloperAgent.WriteCode | src/agents/backend/backend_agent.rs:72-105 | improving or fixing the code is RequestCode with the given prompt function |
| BackendAgent.BackendDeveloperAgent.GenerateInitialBackendCode | src/agents/backend/backend_agent.rs:52-70 | the method computes GenerateCode |
| BackendAgent.BackendDeveloperAgent.ExtractRestApiEndpoints | src/agents/backend/backend_agent.rs:107-122 | the method computes ExtractEndpoints and only appends to the call log |
| BackendAgent.BackendDeveloperAgent.UnitTest | src/agents/backend/backend_agent.rs:150-206 | the UnitTesting arm computes UnitTestStep on the agent, project, files and environment |
| BackendAgent.BackendDeveloperAgent.BuildAndCheck | src/agents/backend/backend_agent.rs:169-304 | the build and what follows compute BuildStep |
| BackendAgent.BackendDeveloperAgent.Validate | src/agents/backend/backend_agent.rs:208-304 | the good-build tail computes ValidateServer |
| BackendAgent.BackendDeveloperAgent.Execute | src/agents/backend/backend_agent.rs:127-313 | `execute` leaves the result, agent, project, files and environment exactly as Run does |
| ArchitectAgent.FindFaultyUrls | src/agents/architect/architect_agent.rs:94-112 | every URL is probed once, in order, and nothing else in the record changes |
| ArchitectAgent.RemoveExcluded | src/agents/architect/architect_agent.rs:115-125 | a URL is kept iff it is in the list and not excluded |
| ArchitectAgent.FaultyIffRejected | src/agents/architect/architect_agent.rs:102-111 | a URL is excluded iff one of its probes returned a status other than 200; transport errors never exclude |
| ArchitectAgent.RemoveNothing | src/agents/architect/architect_agent.rs:115-125 | excluding nothing leaves the list unchanged |
| ArchitectAgent.RemoveExcludedAppend | src/agents/architect/architect_agent.rs:116-123 | removal distributes over concatenation, so kept URLs keep their order |
| ArchitectAgent.AskScope | src/agents/architect/architect_agent.rs:41-53 | on success the decoded scope is stored in `project.scope` and the agent is Finished, nothing else changes; only the call log advances |
| ArchitectAgent.AskUrls | src/agents/architect/architect_agent.rs:55-65 | on success `project.external_urls` is the decoded LLM list and the status is UnitTesting, nothing else changes |
| ArchitectAgent.DiscoveryStep | src/agents/architect/architect_agent.rs:74-80 | a completed Discovery ends Finished or UnitTesting |
| ArchitectAgent.UnitTestStep | src/agents/architect/architect_agent.rs:82-129 | a completed URL check leaves the agent Finished and otherwise unchanged |
| ArchitectAgent.Step | src/agents/architect/architect_agent.rs:72-135 | one turn per status, any other status moved to Finished; a completed turn from an unfinished agent lowers the status's rank |
| ArchitectAgent.Run | src/agents/architect/architect_agent.rs:70-139 | the loop terminates and a completed run ends Finished |
| ArchitectAgent.UnitTestKeepsHealthyUrls | src/agents/architect/architect_agent.rs:82-129 | every URL is probed once, in order; the project keeps, in order, exactly the URLs none of whose probes returned a non-200 status; the status becomes Finished |
| ArchitectAgent.UnitTestNeedsUrls | src/agents/architect/architect_agent.rs:90-92 | a project without a URL list aborts with NoUrlObject |
| ArchitectAgent.RunFromDiscovery | src/agents/architect/architect_agent.rs:70-139 | a completed run stores the scope; without a URL need the URL list is untouched and nothing is probed; otherwise the stored list is the LLM's list checked by UnitTestStep |
| ArchitectAgent.TestUrls | src/agents/architect/architect_agent.rs:94-112 | the probe loop's exclusion list and record are FindFaultyUrls' |
| ArchitectAgent.SolutionArchitectAgent.constructor | src/agents/architect/architect_agent.rs:30-39 | a new agent is a Solutions Architect in Discovery |
| ArchitectAgent.SolutionArchitectAgent.DetermineProjectScope | src/agents/architect/architect_agent.rs:41-53 | the method computes AskScope |
| ArchitectAgent.SolutionArchitectAgent.DetermineExternalUrls | src/agents/architect/architect_agent.rs:55-65 | the method computes AskUrls |
| ArchitectAgent.SolutionArchitectAgent.Execute | src/agents/architect/architect_agent.rs:70-139 | `execute` leaves the result, agent, project and environment exactly as Run does |
| Agents.RunAgent | src/agents/common/traits.rs:15-20 | an agent keeps its kind; a completed run leaves it Finished; the architect never touches the files; the backend developer never touches the description, scope or URL list |
| Agents.Agent.Execute | src/agents/common/traits.rs:15-20 | dispatching `execute` computes RunAgent for the boxed agent |
| Agents.FinishedAgentIsIdle | src/agents/common/traits.rs:15-20 | executing a Finished agent changes nothing |
| Manager.NewProject | src/agents/manager/managing_agent.rs:35-49 | the description is the LLM's goal reply and every other project field is None; two failed calls abort with GptFailedTwice |
| Manager.RunAll | src/agents/manager/managing_agent.rs:69-73 | the agent list keeps its length |
| Manager.RunAllStopsAtAbort | src/agents/manager/managing_agent.rs:69-73 | after an abort the later agents do not run |
| Manager.RunAllDoneAllFinished | src/agents/manager/managing_agent.rs:69-73 | a completed sequence leaves every agent Finished |
| Manager.RunAllAppend | src/agents/manager/managing_agent.rs:69-73 | running a + b runs a, then b on the shared state a left |
| Manager.RunAllSnoc | src/agents/manager/managing_agent.rs:69-73 | an agent appended to the list runs last, on the state the others left, unless one aborted |
| Manager.RunAllAdvance | src/agents/manager/managing_agent.rs:69-73 | one turn of the loop runs the agent at its index on the state the earlier agents left |
| Manager.AllFinishedIsIdle | src/agents/manager/managing_agent.rs:69-73 | a list of Finished agents changes nothing |
| Manager.RerunRunsOnlyNewAgents | src/agents/manager/managing_agent.rs:67-75 | a second `execute` after a completed one runs only the two agents it appends |
| Manager.ArchitectPlanSurvives | src/agents/manager/managing_agent.rs:62-73 | after a completed architect, the final project still has the architect's description, scope and URL list |
| Manager.ArchitectThenBackend | src/agents/manager/managing_agent.rs:62-73 | the backend developer runs on the project the architect left, unless the architect aborted |
| Manager.ManagingAgent.Make | src/agents/manager/managing_agent.rs:43-55 | the manager starts in Discovery with the given project and no agents |
| Manager.ManagingAgent.New | src/agents/manager/managing_agent.rs:27-56 | the fresh manager holds NewProject's project and no agents; an LLM failure aborts |
| Manager.ManagingAgent.AddAgent | src/agents/manager/managing_agent.rs:58-60 | the agent is appended at the end and existing entries are unchanged |
| Manager.ManagingAgent.CreateAgents | src/agents/manager/managing_agent.rs:62-65 | exactly two fresh agents are appended, a new architect and then a new backend developer |
| Manager.ManagingAgent.Execute | src/agents/manager/managing_agent.rs:67-75 | the list grows by two fresh agents and stays free of shared objects, so `execute` can be called again; result, agents, project, files and environment are RunAll over the earlier agents then the two new ones |
| Manager.ManagingAgent.ExecuteAll | src/agents/manager/managing_agent.rs:69-73 | the loop runs every agent once, in list order, as RunAll |
| Manager.ManagingAgent.ExecuteAt | src/agents/manager/managing_agent.rs:70-72 | one agent runs on the manager's project; the other agents are unchanged |
| Template.Database.constructor | backend_code/src/template.rs:47-52 | the task and user maps start empty |
| Template.Database.GetTask | backend_code/src/template.rs:61-63 | Some iff the id is a key, and then the stored task |
| Template.Database.GetAllTasks | backend_code/src/template.rs:57-59 | one entry per stored key, each the task stored there |
| Template.Database.InsertTask | backend_code/src/template.rs:65-67 | the task is stored under its id, other ids and all users unchanged |
| Template.Database.RemoveTask | backend_code/src/template.rs:69-71 | the id is gone, other entries and all users unchanged; removing an absent id changes nothing |
| Template.Database.UpdateTask | backend_code/src/template.rs:73-75 | the same upsert as InsertTask |
| Template.Database.GetUser | backend_code/src/template.rs:84-86 | Some iff the id is a key, and then the stored user |
| Template.Database.GetAllUsers | backend_code/src/template.rs:80-82 | one entry per stored key, each the user stored there |
| Template.Database.GetUserByName | backend_code/src/template.rs:88-90 | returns only a stored user with that username; None iff no stored user has it |
| Template.Database.InsertUser | backend_code/src/template.rs:92-94 | the user is stored under its id, other ids and all tasks unchanged |
| Template.Database.RemoveUser | backend_code/src/template.rs:96-98 | the id is gone, other entries and all tasks unchanged; removing an absent id changes nothing |
| Template.Database.UpdateUser | backend_code/src/template.rs:100-102 | the same upsert as InsertUser |
| Template.LoginDecision | backend_code/src/template.rs:220-225 | OK iff a user was found by name and its password equals the supplied one, BadRequest otherwise |
| Template.Login | backend_code/src/template.rs:214-229 | a login succeeds only with the password of a stored user of that name; with unique usernames, exactly then |
| Template.AllowedOrigin | backend_code/src/template.rs:248-253 | the CORS origin check as written: allowed iff the origin starts with "http://localhost" or is "null" (the as-written half of the finding below) |
| Template.AllowedOriginAdmitsOtherHost | backend_code/src/template.rs:248-253 | the origin check as written admits "http://localhost.example.com", whose host is not localhost |
| Template.CorrectedAdmitsOnlyLocalhost | backend_code/src/template.rs:248-253 | the corrected check admits only "null" and origins whose host is localhost, and nothing the original refuses |
| Template.CorrectedAdmitsLocalPorts | backend_code/src/template.rs:248-253 | the corrected check still admits localhost with any numeric port |

## Left out

- The OpenAI client (`src/api/open_ai`) and `call_gpt`: replaced by the `World.llm` reply table, indexed by call number and prompt function.
- Prompt contents: the message context (project description, template, code, `bug_errors`) and the user's request text do not reach the reply table, so replies cannot depend on them. `extend_ai_function` is modelled on its own.
- The HTTP status prober (`src/utilities/networking.rs`) is not part of this model. It is the `World.probes` table.
- The reqwest client builder's `expect` (architect_agent.rs:84-87, backend_agent.rs:263-266) is assumed to succeed.
- Subprocesses: `cargo build` and `cargo run` are the `builds` and `launches` tables. Their piped output is reduced to the build's stderr text.
- The five-second sleep and the five-second request timeout: there is no model of time.
- Failure of `kill` (backend_agent.rs:282-284, 300-302): a kill is recorded and assumed to succeed.
- Failure of `fs::write` in the save helpers: saves are assumed to succeed.
- `CARGO_MANIFEST_DIR` is a parameter (the `FileSystem`'s `manifestDir`).
- `Path` normalisation: paths are plain strings built by concatenation, as the source formats them.
- serde_json decoding: the decoders are tables in `World`, and `serde_json::Value` is held as canonical text.
- The `u8` width of `bug_count`: the model uses `nat`. Wrap-around cannot happen, because `RunBuildBudget` shows the count never exceeds 11 from a fresh agent.
- End of input at the safety gate: the source reads an empty line forever and loops (see Findings). The agent model stops when the supplied lines run out and aborts with `AnswersExhausted`, a reason that exists only in the model. `CommandLine.GateRounds` models the loop as written.
- Failure of `read_line` is left out.
- Lower-casing covers ASCII letters and KELVIN SIGN only: no other character lower-cases to ASCII, so no other mapping can change which answers match.
- Terminal colours and printed messages are left out.
- In the template:
  - the actix-web server and route table;
  - the other request handlers (create, read, update and delete of tasks, and `register`), which are thin wrappers over the `Database` methods;
  - `Mutex` locking and its poisoned-lock `InternalServerError`;
  - `load_from_file`, `save_to_file` and `remove_saved_database_file`.
- Origins as text: the CORS check in the template tests the bytes of a `HeaderValue`, while `Template.AllowedOrigin` tests a `string`. The prefix "http://localhost" and "null" are ASCII, so the two tests agree on every origin that is valid text. Header values that are not valid text are not modelled.
- Template.Login: the login contract is an iff only when usernames are unique. `get_user_by_name` returns the first match in `HashMap` iteration order, which Rust leaves unspecified, and `register` does not reject duplicate names. So with duplicates the answer depends on that order; the model picks any matching user.
- async/tokio scheduling and the glue files (`src/main.rs`, `src/agents.rs`, `src/utilities.rs`) are left out.

## Findings

| source | as written | input that shows it | evidently intended | confidence | as-written member | corrected member |
|---|---|---|---|---|---|---|
| backend_code/src/template.rs:248-253 | an origin is allowed when its bytes start with "http://localhost" or it is "null" | "http://localhost.example.com" is allowed, though its host is localhost.example.com | allow only "null" and the local host itself, with or without a port | medium (not executed) | Template.AllowedOriginAdmitsOtherHost | Template.CorrectedAdmitsOnlyLocalhost |
| src/utilities/command_line.rs:113-155 | the safety prompt loops until a recognised answer; at end of input `read_line` gives an empty line, which is not an answer | standard input closed before a recognised answer (for example an empty input): the prompt repeats forever, and the build is neither run nor refused | stop at end of input and refuse to run the code | medium (not executed) | CommandLine.ClosedInputNeverDecides | CommandLine.FirstDecisionIsFirstRecognised |
