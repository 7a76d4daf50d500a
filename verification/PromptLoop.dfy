/**
 The bounded prompt loop: model call, parse, guard, tool call, until a final answer, a failure or the
 turn limit.  The loop works over three growing lists and edits the last message in place.
 */
module PromptLoop {
  import opened Wrappers
  import Decimal

  // ---------------------------------------------------------------- records

  datatype Role = System | User | Assistant | Tool

  datatype Message = Message(
    id: string,
    role: Role,
    content: string,
    name: Option<string>,
    toolCallId: Option<string>,
    metadata: map<string, string>)

  datatype FinishReason = StopCriteriaMet | MaxNewTokensReached | TimedOut | Errored

  datatype ModelResponse = ModelResponse(
    modelId: string,
    outputText: string,
    finishReason: FinishReason,
    latencyMs: nat,
    promptTokens: Option<nat>,
    completionTokens: Option<nat>,
    totalTokens: Option<nat>,
    errorClass: Option<string>,
    errorMessage: Option<string>,
    rawResponseRef: string)

  datatype ToolCall = ToolCall(toolName: string, arguments: map<string, string>)

  datatype ToolStatus = Ok | Error

  datatype ToolResult = ToolResult(
    toolName: string,
    argumentsHash: string,
    workspaceHashBefore: string,
    workspaceHashAfter: string,
    status: ToolStatus,
    output: Option<string>,
    stdout: string,
    stderr: string,
    exitCode: Option<int>,
    durationMs: nat,
    errorClass: Option<string>,
    errorMessage: Option<string>)

  datatype PromptInput = PromptInput(
    taskId: string,
    instruction: string,
    allowedTools: seq<string>,
    publicChecks: seq<string>,
    maxTurns: nat)

  datatype TaskView = TaskView(input: PromptInput, workspacePath: string)

  datatype LoopStatus =
    | Completed
    | MaxTurnsExceeded
    | ModelError
    | InvalidModelOutput
    | InvalidShortcutAttempted
    | TerminalToolError
    | LoopOrchestratorError

  function LoopStatusName(s: LoopStatus): string {
    match s
    case Completed => "completed"
    case MaxTurnsExceeded => "max_turns_exceeded"
    case ModelError => "model_error"
    case InvalidModelOutput => "invalid_model_output"
    case InvalidShortcutAttempted => "invalid_shortcut_attempted"
    case TerminalToolError => "terminal_tool_error"
    case LoopOrchestratorError => "orchestrator_error"
  }

  datatype TokenUsage = TokenUsage(promptTokens: Option<nat>, completionTokens: Option<nat>, totalTokens: Option<nat>)

  datatype PromptLoopResult = PromptLoopResult(
    taskId: string,
    status: LoopStatus,
    turnsExecuted: nat,
    durationMs: nat,
    tokenUsage: TokenUsage,
    messages: seq<Message>,
    modelResponses: seq<ModelResponse>,
    toolResults: seq<ToolResult>,
    errorClass: Option<string>,
    errorMessage: Option<string>)

  // ---------------------------------------------------------------- the outside world

  datatype GenerateOutcome = GenerateRaised(errorClass: string, message: string) | Replied(response: ModelResponse)

  datatype ParseOutcome =
    | FinalAnswer(text: string)
    | CallTool(call: ToolCall)
    | SchemaViolation(message: string)
    | NotJson(message: string)

  datatype ToolOutcome = WorkspaceHashFailed(errorClass: string, message: string) | Returned(result: ToolResult)

  /** Answers of the environment; `tool` sees every call made in this run, the last one included. */
  datatype World = World(
    newId: nat -> string,
    systemPrompt: PromptInput -> string,
    userPrompt: PromptInput -> string,
    parse: string -> ParseOutcome,
    isPrivateReference: ToolCall -> bool,
    tool: seq<ToolCall> -> ToolOutcome,
    render: ToolResult -> string,
    redact: string -> string,
    durationMs: nat)

  const RECOVERABLE_TOOL_ERROR_CLASSES := {"InvalidToolInput", "ToolExecutionError", "ToolTimeout"}

  /** The schema contract every model response satisfies. */
  predicate ValidResponse(r: ModelResponse) {
    && (r.promptTokens.Some? && r.completionTokens.Some? ==>
          r.totalTokens == Some(r.promptTokens.value + r.completionTokens.value))
    && (r.finishReason in {TimedOut, Errored} ==> r.errorClass.Some?)
    && (r.finishReason !in {TimedOut, Errored} ==> r.errorClass.None? && r.errorMessage.None?)
  }

  predicate ValidToolResult(r: ToolResult) {
    match r.status
    case Ok => r.output.Some? && r.errorClass.None? && r.errorMessage.None?
    case Error => r.output.None? && r.errorClass.Some?
  }

  predicate ValidTokenUsage(u: TokenUsage) {
    u.promptTokens.Some? && u.completionTokens.Some? ==>
      u.totalTokens == Some(u.promptTokens.value + u.completionTokens.value)
  }

  predicate Unique<T(==)>(s: seq<T>) {
    forall i, j :: 0 <= i < j < |s| ==> s[i] != s[j]
  }

  function MessageIds(messages: seq<Message>): seq<string> {
    seq(|messages|, i requires 0 <= i < |messages| => messages[i].id)
  }

  /** What constructing a PromptLoopResult checks. */
  predicate ValidPromptLoopResult(r: PromptLoopResult) {
    && Unique(MessageIds(r.messages))
    && ValidTokenUsage(r.tokenUsage)
    && (if r.status.Completed? then r.errorClass.None? && r.errorMessage.None? else r.errorClass.Some?)
  }

  // ---------------------------------------------------------------- small helpers of the loop

  function ToolCallId(number: nat): string {
    "tool_call_" + Decimal.Padded(number, 4)
  }

  lemma ToolCallIdIsInjective(m: nat, n: nat)
    requires ToolCallId(m) == ToolCallId(n)
    ensures m == n
  {
    var p := "tool_call_";
    assert ToolCallId(m)[|p|..] == Decimal.Padded(m, 4);
    assert ToolCallId(n)[|p|..] == Decimal.Padded(n, 4);
    Decimal.PaddedIsInjective(m, n, 4);
  }

  predicate IsTerminalToolError(r: ToolResult) {
    r.status.Error? && (r.errorClass.None? || r.errorClass.value !in RECOVERABLE_TOOL_ERROR_CLASSES)
  }

  function ModelErrorClass(r: ModelResponse): string {
    if r.errorClass.Some? then r.errorClass.value
    else if r.finishReason.MaxNewTokensReached? then "MaxNewTokensReached"
    else "ModelGenerationStopped"
  }

  function FinishName(f: FinishReason): string {
    match f
    case StopCriteriaMet => "stop_criteria_met"
    case MaxNewTokensReached => "max_new_tokens_reached"
    case TimedOut => "timeout"
    case Errored => "error"
  }

  function ModelErrorMessage(w: World, r: ModelResponse): string {
    var message := "Model generation stopped with finish_reason=" + FinishName(r.finishReason) + ".";
    if r.errorMessage.None? then message else w.redact(message + " " + r.errorMessage.value)
  }

  function ModelExceptionMessage(w: World, modelId: string, message: string): string {
    if message != "" then w.redact("Model " + modelId + " generate failed: " + message)
    else "Model " + modelId + " generate failed."
  }

  /** None as soon as one count is unknown. */
  function KnownSum(counts: seq<Option<nat>>): Option<nat> {
    if |counts| == 0 then Some(0)
    else
      var last, before := counts[|counts| - 1], KnownSum(counts[..|counts| - 1]);
      if before.Some? && last.Some? then Some(before.value + last.value) else None
  }

  method SumKnownCounts(counts: seq<Option<nat>>) returns (r: Option<nat>)
    ensures r == KnownSum(counts)
  {
    var total: nat := 0;
    for i := 0 to |counts|
      invariant KnownSum(counts[..i]) == Some(total)
    {
      assert counts[..i + 1][..i] == counts[..i];
      if counts[i].None? {
        UnknownStaysUnknown(counts, i);
        return None;
      }
      total := total + counts[i].value;
    }
    assert counts[..|counts|] == counts;
    r := Some(total);
  }

  lemma {:induction false} UnknownStaysUnknown(counts: seq<Option<nat>>, i: nat)
    requires i < |counts| && counts[i].None?
    ensures KnownSum(counts).None?
  {
    if i < |counts| - 1 {
      UnknownStaysUnknown(counts[..|counts| - 1], i);
    }
  }

  function PromptCounts(rs: seq<ModelResponse>): seq<Option<nat>> {
    seq(|rs|, i requires 0 <= i < |rs| => rs[i].promptTokens)
  }

  function CompletionCounts(rs: seq<ModelResponse>): seq<Option<nat>> {
    seq(|rs|, i requires 0 <= i < |rs| => rs[i].completionTokens)
  }

  function TotalCounts(rs: seq<ModelResponse>): seq<Option<nat>> {
    seq(|rs|, i requires 0 <= i < |rs| => rs[i].totalTokens)
  }

  function UsageOf(rs: seq<ModelResponse>): TokenUsage {
    if |rs| == 0 then TokenUsage(None, None, None)
    else TokenUsage(KnownSum(PromptCounts(rs)), KnownSum(CompletionCounts(rs)), KnownSum(TotalCounts(rs)))
  }

  /** Summing per-response usage never breaks the prompt + completion = total contract. */
  lemma UsageIsValid(rs: seq<ModelResponse>)
    requires forall r :: r in rs ==> ValidResponse(r)
    ensures ValidTokenUsage(UsageOf(rs))
  {
    SumsAddUp(rs);
  }

  lemma {:induction false} SumsAddUp(rs: seq<ModelResponse>)
    requires forall r :: r in rs ==> ValidResponse(r)
    ensures var p, c := KnownSum(PromptCounts(rs)), KnownSum(CompletionCounts(rs));
            p.Some? && c.Some? ==> KnownSum(TotalCounts(rs)) == Some(p.value + c.value)
  {
    if |rs| > 0 {
      var n := |rs| - 1;
      assert PromptCounts(rs)[..n] == PromptCounts(rs[..n]);
      assert CompletionCounts(rs)[..n] == CompletionCounts(rs[..n]);
      assert TotalCounts(rs)[..n] == TotalCounts(rs[..n]);
      SumsAddUp(rs[..n]);
      assert ValidResponse(rs[n]);
    }
  }

  // ---------------------------------------------------------------- the model client

  /** A model client: its i-th call answers `reply(i, messages)`. */
  class ModelClient {
    const modelId: string
    const reply: (nat, seq<Message>) -> GenerateOutcome
    var calls: nat
    ghost var seen: seq<seq<Message>>

    constructor (modelId: string, reply: (nat, seq<Message>) -> GenerateOutcome)
      ensures this.modelId == modelId && this.reply == reply && calls == 0 && seen == []
    {
      this.modelId, this.reply, calls, seen := modelId, reply, 0, [];
    }

    method Generate(messages: seq<Message>) returns (r: GenerateOutcome)
      modifies this
      ensures r == reply(old(calls), messages)
      ensures calls == old(calls) + 1 && seen == old(seen) + [messages]
    {
      r := reply(calls, messages);
      calls, seen := calls + 1, seen + [messages];
    }
  }

  // ---------------------------------------------------------------- one run, as a function

  /** The lists a run grows. */
  datatype Progress = Progress(
    messages: seq<Message>,
    responses: seq<ModelResponse>,
    toolResults: seq<ToolResult>,
    calls: seq<ToolCall>)

  datatype Ending = Ending(status: LoopStatus, errorClass: Option<string>, errorMessage: Option<string>)

  /** Result of a run, and the message lists it handed to the model, call by call. */
  datatype Ended = Ended(result: PromptLoopResult, histories: seq<seq<Message>>)

  datatype TurnOutcome = TurnOutcome(p: Progress, ending: Option<Ending>)

  /** A run's fixed inputs: `base` counts the calls the client had served before this run. */
  datatype Run = Run(view: TaskView, modelId: string, reply: (nat, seq<Message>) -> GenerateOutcome, base: nat, w: World)

  function InitialMessages(input: PromptInput, w: World): seq<Message> {
    [ Message(w.newId(0), System, w.systemPrompt(input), Some("agentenv"), None, map["source" := "agentenv_protocol"]),
      Message(w.newId(1), User, w.userPrompt(input), Some("task_view"), None,
              map["source" := "agent_task_view", "task_id" := input.taskId]) ]
  }

  function AssistantMessage(id: string, response: ModelResponse): Message {
    Message(id, Assistant, response.outputText, Some(response.modelId), None, map[])
  }

  function ToolMessage(w: World, id: string, result: ToolResult, toolCallId: string): Message {
    Message(id, Tool, w.render(result), Some(result.toolName), Some(toolCallId),
            map["arguments_hash" := result.argumentsHash])
  }

  function Start(r: Run): Progress {
    Progress(InitialMessages(r.view.input, r.w), [], [], [])
  }

  const PRIVATE_ACCESS := Ending(InvalidShortcutAttempted, Some("PrivateHiddenValidatorAccessAttempted"),
                                 Some("Tool call contained a private hidden-validator reference."))
  const OUT_OF_TURNS := Ending(MaxTurnsExceeded, Some("MaxTurnsExceeded"), Some("Prompt loop reached max_turns."))

  /** The tool half of a turn: the assistant message is already the last one. */
  function ToolTurn(w: World, p: Progress, call: ToolCall): TurnOutcome
    requires |p.messages| > 0
  {
    var callId := ToolCallId(|p.toolResults| + 1);
    var last := |p.messages| - 1;
    var tagged := p.(messages := p.messages[last := p.messages[last].(toolCallId := Some(callId))], calls := p.calls + [call]);
    match w.tool(tagged.calls)
    case WorkspaceHashFailed(cls, message) =>
      TurnOutcome(tagged, Some(Ending(LoopOrchestratorError, Some(cls), Some(w.redact(message)))))
    case Returned(result) =>
      var replied := tagged.(
        toolResults := p.toolResults + [result],
        messages := tagged.messages + [ToolMessage(w, w.newId(|tagged.messages|), result, callId)]);
      TurnOutcome(replied, if IsTerminalToolError(result) then
                             Some(Ending(TerminalToolError, result.errorClass, result.errorMessage))
                           else None)
  }

  /** What the loop does with a completed response. */
  function ActionTurn(w: World, p: Progress, response: ModelResponse): TurnOutcome
    requires |p.messages| > 0
  {
    match w.parse(response.outputText)
    case SchemaViolation(message) => TurnOutcome(p, Some(Ending(InvalidModelOutput, Some("InvalidModelOutput"), Some(message))))
    case NotJson(message) => TurnOutcome(p, Some(Ending(InvalidModelOutput, Some("MalformedModelOutput"), Some(message))))
    case FinalAnswer(_) => TurnOutcome(p, Some(Ending(Completed, None, None)))
    case CallTool(call) =>
      if w.isPrivateReference(call) then TurnOutcome(p, Some(PRIVATE_ACCESS)) else ToolTurn(w, p, call)
  }

  /** One iteration of the loop body. */
  function Turn(r: Run, turn: nat, p: Progress): TurnOutcome {
    match r.reply(r.base + turn, p.messages)
    case GenerateRaised(cls, message) =>
      TurnOutcome(p, Some(Ending(ModelError, Some(cls), Some(ModelExceptionMessage(r.w, r.modelId, message)))))
    case Replied(response) =>
      var answered := p.(responses := p.responses + [response],
                         messages := p.messages + [AssistantMessage(r.w.newId(|p.messages|), response)]);
      if response.finishReason != StopCriteriaMet then
        TurnOutcome(answered, Some(Ending(ModelError, Some(ModelErrorClass(response)), Some(ModelErrorMessage(r.w, response)))))
      else ActionTurn(r.w, answered, response)
  }

  function Build(r: Run, turns: nat, p: Progress, e: Ending): PromptLoopResult {
    PromptLoopResult(r.view.input.taskId, e.status, turns, r.w.durationMs, UsageOf(p.responses),
                     p.messages, p.responses, p.toolResults, e.errorClass, e.errorMessage)
  }

  function RunFrom(r: Run, turn: nat, p: Progress, heard: seq<seq<Message>>): Ended
    requires turn <= r.view.input.maxTurns
    decreases r.view.input.maxTurns - turn
  {
    if turn == r.view.input.maxTurns then Ended(Build(r, turn, p, OUT_OF_TURNS), heard)
    else
      var out := Turn(r, turn, p);
      var heard' := heard + [p.messages];
      if out.ending.Some? then Ended(Build(r, turn + 1, out.p, out.ending.value), heard')
      else RunFrom(r, turn + 1, out.p, heard')
  }

  function PromptLoopOf(r: Run): Ended {
    RunFrom(r, 0, Start(r), [])
  }

  // ---------------------------------------------------------------- one run, as the loop

  /** The lists of one run, grown in place. */
  class Conversation {
    var messages: seq<Message>
    var responses: seq<ModelResponse>
    var toolResults: seq<ToolResult>
    var calls: seq<ToolCall>

    constructor (initial: seq<Message>)
      ensures Snapshot() == Progress(initial, [], [], [])
    {
      messages, responses, toolResults, calls := initial, [], [], [];
    }

    ghost function Snapshot(): Progress
      reads this
    {
      Progress(messages, responses, toolResults, calls)
    }

    /** Calls the tool and appends its message; the assistant message is retagged in place. */
    method ExecuteTool(w: World, call: ToolCall) returns (ending: Option<Ending>)
      requires |messages| > 0
      modifies this
      ensures ToolTurn(w, old(Snapshot()), call) == TurnOutcome(Snapshot(), ending)
    {
      var toolCallId := ToolCallId(|toolResults| + 1);
      var last := |messages| - 1;
      messages := messages[last := messages[last].(toolCallId := Some(toolCallId))];
      calls := calls + [call];
      var executed := w.tool(calls);
      if executed.WorkspaceHashFailed? {
        return Some(Ending(LoopOrchestratorError, Some(executed.errorClass), Some(w.redact(executed.message))));
      }
      toolResults := toolResults + [executed.result];
      messages := messages + [ToolMessage(w, w.newId(|messages|), executed.result, toolCallId)];
      if IsTerminalToolError(executed.result) {
        return Some(Ending(TerminalToolError, executed.result.errorClass, executed.result.errorMessage));
      }
      return None;
    }

    method ExecuteAction(w: World, response: ModelResponse) returns (ending: Option<Ending>)
      requires |messages| > 0
      modifies this
      ensures ActionTurn(w, old(Snapshot()), response) == TurnOutcome(Snapshot(), ending)
    {
      var action := w.parse(response.outputText);
      match action {
        case SchemaViolation(message) => return Some(Ending(InvalidModelOutput, Some("InvalidModelOutput"), Some(message)));
        case NotJson(message) => return Some(Ending(InvalidModelOutput, Some("MalformedModelOutput"), Some(message)));
        case FinalAnswer(_) => return Some(Ending(Completed, None, None));
        case CallTool(call) =>
          if w.isPrivateReference(call) {
            return Some(PRIVATE_ACCESS);
          }
          ending := ExecuteTool(w, call);
      }
    }

    method ExecuteTurn(client: ModelClient, w: World) returns (ending: Option<Ending>)
      modifies this, client
      ensures client.calls == old(client.calls) + 1 && client.seen == old(client.seen) + [old(messages)]
      ensures forall view, base: nat, turn: nat | base + turn == old(client.calls) ::
                Turn(Run(view, client.modelId, client.reply, base, w), turn, old(Snapshot())) == TurnOutcome(Snapshot(), ending)
    {
      var outcome := client.Generate(messages);
      if outcome.GenerateRaised? {
        return Some(Ending(ModelError, Some(outcome.errorClass),
                           Some(ModelExceptionMessage(w, client.modelId, outcome.message))));
      }
      var response := outcome.response;
      responses := responses + [response];
      messages := messages + [AssistantMessage(w.newId(|messages|), response)];
      if response.finishReason != StopCriteriaMet {
        return Some(Ending(ModelError, Some(ModelErrorClass(response)), Some(ModelErrorMessage(w, response))));
      }
      ending := ExecuteAction(w, response);
    }
  }

  method RunPromptLoop(view: TaskView, client: ModelClient, w: World) returns (result: PromptLoopResult)
    modifies client
    ensures var ended := PromptLoopOf(Run(view, client.modelId, client.reply, old(client.calls), w));
      && result == ended.result
      && client.seen == old(client.seen) + ended.histories
      && client.calls == old(client.calls) + |ended.histories|
  {
    ghost var r := Run(view, client.modelId, client.reply, client.calls, w);
    ghost var heard: seq<seq<Message>> := [];
    var c := new Conversation(InitialMessages(view.input, w));
    for turn := 0 to view.input.maxTurns
      invariant client.calls == r.base + turn && |heard| == turn
      invariant client.seen == old(client.seen) + heard
      invariant RunFrom(r, turn, c.Snapshot(), heard) == PromptLoopOf(r)
    {
      heard := heard + [c.messages];
      var ending := c.ExecuteTurn(client, w);
      if ending.Some? {
        result := BuildResult(view, turn + 1, w, c, ending.value);
        return;
      }
    }
    result := BuildResult(view, view.input.maxTurns, w, c, OUT_OF_TURNS);
  }

  method BuildResult(view: TaskView, turns: nat, w: World, c: Conversation, e: Ending) returns (result: PromptLoopResult)
    ensures result == PromptLoopResult(view.input.taskId, e.status, turns, w.durationMs, UsageOf(c.responses),
                                       c.messages, c.responses, c.toolResults, e.errorClass, e.errorMessage)
  {
    var usage := TokenUsage(None, None, None);
    if |c.responses| > 0 {
      var promptTokens := SumKnownCounts(PromptCounts(c.responses));
      var completionTokens := SumKnownCounts(CompletionCounts(c.responses));
      var totalTokens := SumKnownCounts(TotalCounts(c.responses));
      usage := TokenUsage(promptTokens, completionTokens, totalTokens);
    }
    result := PromptLoopResult(view.input.taskId, e.status, turns, w.durationMs, usage,
                               c.messages, c.responses, c.toolResults, e.errorClass, e.errorMessage);
  }
}
