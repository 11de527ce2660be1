/**
 * The collaborators the core talks to but does not contain: the LLM, the
 * terminal, `cargo build`, `cargo run`, HTTP probes and the JSON decoders.
 * Each is given as a fixed table of answers (a `World`); what the core has
 * consumed and done so far is recorded in a `Cursor`.
 */
module Oracles {
  import opened Outcomes
  import opened Model

  /** The prompt functions an agent hands to the LLM (the `ai_function` argument). */
  datatype AiFunction =
    | ConvertUserInputToGoal
    | PrintProjectScope
    | PrintSiteUrls
    | PrintBackendWebserverCode
    | PrintImprovedWebserverCode
    | PrintFixedCode
    | PrintRestApiEndpoints

  /** One call of the LLM: its text, or a transport/API error. */
  datatype LlmReply = Reply(text: string) | CallFailed

  /** An HTTP status code as the prober reports it (`u16`). */
  type StatusCode = x: int | 0 <= x < 0x1_0000

  /** One GET request: a status code, or a connection/transport error. */
  datatype ProbeOutcome = Status(code: StatusCode) | TransportError

  /**
   * One run of `cargo build`: success, failure with its error stream (None when
   * the stream is not valid UTF-8), or the command could not be started at all.
   */
  datatype BuildOutcome = BuildSucceeded | BuildFailed(stderr: Option<string>) | BuildNotRun

  /**
   * The answers of every collaborator, fixed in advance:
   *  - llm(n, f): the reply to the n-th LLM call of the run, made for prompt function f;
   *  - answers: the lines typed at the terminal, in order;
   *  - builds(n): the outcome of the n-th `cargo build`;
   *  - launches(n): whether the n-th `cargo run` could be spawned;
   *  - probes(n, url): the outcome of the n-th HTTP probe, sent to url;
   *  - decode*: serde_json's decoding of a text into each type the core requests.
   */
  datatype World = World(
    llm: (nat, AiFunction) -> LlmReply,
    answers: seq<string>,
    builds: nat -> BuildOutcome,
    launches: nat -> bool,
    probes: (nat, string) -> ProbeOutcome,
    decodeScope: string -> Option<ProjectScope>,
    decodeUrls: string -> Option<seq<string>>,
    decodeEndpoints: string -> Option<seq<EndpointRoute>>)

  /**
   * What has been consumed or done so far: the prompt function of every LLM
   * call, the number of terminal lines read, of builds run and of servers
   * launched, every URL probed, and the number of kill signals sent.
   */
  datatype Cursor = Cursor(
    calls: seq<AiFunction>,
    answersRead: nat,
    builds: nat,
    launches: nat,
    probed: seq<string>,
    kills: nat)

  /** Nothing consumed yet. */
  const Start := Cursor([], 0, 0, 0, [], 0)

  /** The process's outside world: fixed answers plus the running record of their use. */
  class Environment {
    const world: World
    var cursor: Cursor

    constructor (w: World)
      ensures world == w && cursor == Start
    {
      world := w;
      cursor := Start;
    }

    /** Run `cargo build` in the backend project once. */
    method Build() returns (outcome: BuildOutcome)
      modifies this
      ensures outcome == world.builds(old(cursor.builds))
      ensures cursor == old(cursor).(builds := old(cursor.builds) + 1)
    {
      outcome := world.builds(cursor.builds);
      cursor := cursor.(builds := cursor.builds + 1);
    }

    /** Spawn `cargo run` in the backend project; false when it cannot be spawned. */
    method Launch() returns (spawned: bool)
      modifies this
      ensures spawned == world.launches(old(cursor.launches))
      ensures cursor == old(cursor).(launches := old(cursor.launches) + 1)
    {
      spawned := world.launches(cursor.launches);
      cursor := cursor.(launches := cursor.launches + 1);
    }

    /** Send one GET request to url. */
    method Probe(url: string) returns (outcome: ProbeOutcome)
      modifies this
      ensures outcome == world.probes(|old(cursor.probed)|, url)
      ensures cursor == old(cursor).(probed := old(cursor.probed) + [url])
    {
      outcome := world.probes(|cursor.probed|, url);
      cursor := cursor.(probed := cursor.probed + [url]);
    }

    /** Send the kill signal to the spawned server. */
    method Kill()
      modifies this
      ensures cursor == old(cursor).(kills := old(cursor.kills) + 1)
    {
      cursor := cursor.(kills := cursor.kills + 1);
    }
  }
}
