/**
 * Option and the aborts used across the model: Rust's `Option`, and the
 * panics (`panic!`, `expect`) of the core, which abort the whole process.
 */
module Outcomes {

  datatype Option<+T> = None | Some(value: T) {
    /** `unwrap_or`: the carried value, or `default` for None. */
    function GetOr(default: T): T {
      match this
      case Some(v) => v
      case None => default
    }
  }

  /** Every way the core can abort the process, one per `panic!` or `expect` site. */
  datatype Panic =
    | GptFailedTwice          // both calls to the LLM failed (ai_tasks)
    | DecodeAiResponse        // the LLM's text did not decode to the requested type (ai_tasks)
    | ReadCodeTemplate        // the code template file could not be read (persistence)
    | ReadExecutableMain      // the generated main.rs could not be read (persistence)
    | SafetyDeclined          // the user declined to run AI-written code (backend agent)
    | AnswersExhausted        // no recognised answer among the supplied input lines (see README)
    | BuildNotLaunched        // `cargo build` could not be started (backend agent)
    | TooManyBugs             // the retry budget of failed builds is exhausted (backend agent)
    | DecodeApiEndpoints      // the endpoint schema did not decode (backend agent)
    | ServerNotLaunched       // `cargo run` could not be spawned (backend agent)
    | NoUrlObject             // the project holds no URL list to test (architect agent)

  /** The result of an operation that either completes with a value or aborts the process. */
  datatype Outcome<+T> = Done(value: T) | Fatal(reason: Panic)
}
