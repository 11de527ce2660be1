/**
 * src/utilities/ai_tasks.rs: wrapping a prompt function into a system
 * message, and requesting the LLM with exactly one retry.
 */
module AiTasks {
  import opened Outcomes
  import opened Oracles

  /** The author of a chat message. */
  datatype Role = User | System

  datatype Message = Message(role: Role, content: string)

  const FunctionLabel := "FUNCTION: "
  const InstructionText := "\n    INSTRUCTION: You are a function printer. You ONLY print the results of functions.\n    Nothing else. No commentary. Here is the input to the function: "
  const ClosingText := ".\n    Print out what the function will return."

  /** `needle` appears in `hay` starting at index i. */
  predicate OccursAt(needle: string, hay: string, i: nat) {
    i + |needle| <= |hay| && hay[i..i + |needle|] == needle
  }

  /**
   * The system message asking the LLM to act as `aiFunction` applied to
   * `functionInput`: it carries the function's text and the input, each at a
   * fixed place.
   */
  function ExtendAiFunction(aiFunction: string -> string, functionInput: string): (m: Message)
    ensures m.role == System
    ensures OccursAt(aiFunction(functionInput), m.content, |FunctionLabel|)
    ensures OccursAt(functionInput, m.content, |FunctionLabel| + |aiFunction(functionInput)| + |InstructionText|)
    ensures |m.content| == |FunctionLabel| + |aiFunction(functionInput)| + |InstructionText| + |functionInput| + |ClosingText|
  {
    var text := aiFunction(functionInput);
    var content := FunctionLabel + text + InstructionText + functionInput + ClosingText;
    assert content[|FunctionLabel|..|FunctionLabel| + |text|] == text;
    var at := |FunctionLabel| + |text| + |InstructionText|;
    assert content[at..at + |functionInput|] == functionInput;
    Message(System, content)
  }

  /**
   * `ai_task_request`: call the LLM for prompt function f; on failure call it
   * once more; a second failure aborts. `calls` is the log of earlier calls,
   * whose length numbers the next one.
   */
  function AiTaskRequest(llm: (nat, AiFunction) -> LlmReply, f: AiFunction, calls: seq<AiFunction>): (r: (Outcome<string>, seq<AiFunction>))
    ensures r.1 == calls + [f] || r.1 == calls + [f, f]
    ensures llm(|calls|, f).Reply? ==> r == (Done(llm(|calls|, f).text), calls + [f])
    ensures llm(|calls|, f).CallFailed? ==> r.1 == calls + [f, f]
    ensures r.0.Done? <==> llm(|calls|, f).Reply? || llm(|calls| + 1, f).Reply?
    ensures r.0.Done? ==> llm(|r.1| - 1, f) == Reply(r.0.value)
    ensures r.0.Fatal? ==> r.0.reason == GptFailedTwice
  {
    match llm(|calls|, f)
    case Reply(text) => (Done(text), calls + [f])
    case CallFailed =>
      match llm(|calls| + 1, f)
      case Reply(text) => (Done(text), calls + [f, f])
      case CallFailed => (Fatal(GptFailedTwice), calls + [f, f])
  }

  /**
   * `ai_task_request_decoded`: the same request, then the reply is decoded;
   * a reply that does not decode aborts.
   */
  function AiTaskRequestDecoded<T>(llm: (nat, AiFunction) -> LlmReply, f: AiFunction, decode: string -> Option<T>, calls: seq<AiFunction>): (r: (Outcome<T>, seq<AiFunction>))
    ensures r.1 == AiTaskRequest(llm, f, calls).1
    ensures r.0.Done? <==> AiTaskRequest(llm, f, calls).0.Done? && decode(AiTaskRequest(llm, f, calls).0.value).Some?
    ensures r.0.Done? ==> Some(r.0.value) == decode(AiTaskRequest(llm, f, calls).0.value)
    ensures r.0.Fatal? && AiTaskRequest(llm, f, calls).0.Done? ==> r.0.reason == DecodeAiResponse
  {
    var (reply, calls') := AiTaskRequest(llm, f, calls);
    match reply
    case Fatal(p) => (Fatal(p), calls')
    case Done(text) =>
      match decode(text)
      case Some(v) => (Done(v), calls')
      case None => (Fatal(DecodeAiResponse), calls')
  }

  /** `ai_task_request` against the process's environment: the calls made are logged in its cursor. */
  method Request(env: Environment, f: AiFunction) returns (reply: Outcome<string>)
    modifies env
    ensures (reply, env.cursor.calls) == AiTaskRequest(env.world.llm, f, old(env.cursor.calls))
    ensures env.cursor == old(env.cursor).(calls := env.cursor.calls)
  {
    var r := AiTaskRequest(env.world.llm, f, env.cursor.calls);
    reply := r.0;
    env.cursor := env.cursor.(calls := r.1);
  }

  /** `ai_task_request_decoded` against the process's environment. */
  method RequestDecoded<T>(env: Environment, f: AiFunction, decode: string -> Option<T>) returns (value: Outcome<T>)
    modifies env
    ensures (value, env.cursor.calls) == AiTaskRequestDecoded(env.world.llm, f, decode, old(env.cursor.calls))
    ensures env.cursor == old(env.cursor).(calls := env.cursor.calls)
  {
    var r := AiTaskRequestDecoded(env.world.llm, f, decode, env.cursor.calls);
    value := r.0;
    env.cursor := env.cursor.(calls := r.1);
  }
}
