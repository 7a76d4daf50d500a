/**
 Two runs of one script: fresh ids and clocks differ, tools are deterministic up to text normalisation.
 Their prompt-loop results have the same normal form.
 */
module ReplayAgreement {
  import opened Wrappers
  import opened PromptLoop
  import opened ScriptedClient
  import opened ReplayNormalForm

  type Text = string -> string

  // ---------------------------------------------------------------- the JSON dump of a result

  function Str(s: string): Json {
    JString(s)
  }

  function OptStr(o: Option<string>): Json {
    match o case None => JNull case Some(s) => JString(s)
  }

  function OptNum(o: Option<int>): Json {
    match o case None => JNull case Some(n) => JNumber(n)
  }

  function RoleName(r: Role): string {
    match r case System => "system" case User => "user" case Assistant => "assistant" case Tool => "tool"
  }

  function MessageJson(m: Message): Json {
    JObject(map[
      "message_id" := Str(m.id),
      "role" := Str(RoleName(m.role)),
      "content" := Str(m.content),
      "name" := OptStr(m.name),
      "tool_call_id" := OptStr(m.toolCallId),
      "metadata" := JObject(map k | k in m.metadata :: Str(m.metadata[k]))])
  }

  function ResponseJson(r: ModelResponse): Json {
    JObject(map[
      "model_id" := Str(r.modelId),
      "output_text" := Str(r.outputText),
      "finish_reason" := Str(FinishName(r.finishReason)),
      "latency_ms" := JNumber(r.latencyMs),
      "prompt_tokens" := OptNum(r.promptTokens),
      "completion_tokens" := OptNum(r.completionTokens),
      "total_tokens" := OptNum(r.totalTokens),
      "error_class" := OptStr(r.errorClass),
      "error_message" := OptStr(r.errorMessage),
      "raw_response_ref" := Str(r.rawResponseRef)])
  }

  function ToolResultJson(t: ToolResult): Json {
    JObject(map[
      "tool_name" := Str(t.toolName),
      "arguments_hash" := Str(t.argumentsHash),
      "canonical_workspace_hash_before" := Str(t.workspaceHashBefore),
      "canonical_workspace_hash_after" := Str(t.workspaceHashAfter),
      "status" := Str(if t.status.Ok? then "ok" else "error"),
      "output" := OptStr(t.output),
      "stdout" := Str(t.stdout),
      "stderr" := Str(t.stderr),
      "exit_code" := OptNum(t.exitCode),
      "duration_ms" := JNumber(t.durationMs),
      "error_class" := OptStr(t.errorClass),
      "error_message" := OptStr(t.errorMessage)])
  }

  function UsageJson(u: TokenUsage): Json {
    JObject(map["prompt_tokens" := OptNum(u.promptTokens), "completion_tokens" := OptNum(u.completionTokens),
                "total_tokens" := OptNum(u.totalTokens)])
  }

  function MessagesJson(ms: seq<Message>): Json {
    JArray(seq(|ms|, i requires 0 <= i < |ms| => MessageJson(ms[i])))
  }

  function ResponsesJson(rs: seq<ModelResponse>): Json {
    JArray(seq(|rs|, i requires 0 <= i < |rs| => ResponseJson(rs[i])))
  }

  function ToolResultsJson(ts: seq<ToolResult>): Json {
    JArray(seq(|ts|, i requires 0 <= i < |ts| => ToolResultJson(ts[i])))
  }

  function ResultJson(r: PromptLoopResult): Json {
    JObject(map[
      "task_id" := Str(r.taskId),
      "status" := Str(LoopStatusName(r.status)),
      "turns_executed" := JNumber(r.turnsExecuted),
      "duration_ms" := JNumber(r.durationMs),
      "token_usage" := UsageJson(r.tokenUsage),
      "messages" := MessagesJson(r.messages),
      "model_responses" := ResponsesJson(r.modelResponses),
      "tool_results" := ToolResultsJson(r.toolResults),
      "error_class" := OptStr(r.errorClass),
      "error_message" := OptStr(r.errorMessage)])
  }

  // ---------------------------------------------------------------- twins: equal up to ids, clocks and text

  predicate SameText(text: Text, a: Option<string>, b: Option<string>) {
    match (a, b) case (None, None) => true case (Some(s), Some(t)) => text(s) == text(t) case _ => false
  }

  predicate TwinTools(text: Text, a: ToolResult, b: ToolResult) {
    && a.toolName == b.toolName && a.argumentsHash == b.argumentsHash
    && a.workspaceHashBefore == b.workspaceHashBefore && a.workspaceHashAfter == b.workspaceHashAfter
    && a.status == b.status && a.exitCode == b.exitCode && a.errorClass == b.errorClass
    && SameText(text, a.output, b.output) && text(a.stdout) == text(b.stdout) && text(a.stderr) == text(b.stderr)
    && SameText(text, a.errorMessage, b.errorMessage)
  }

  predicate TwinResponses(a: ModelResponse, b: ModelResponse) {
    a == b.(latencyMs := a.latencyMs)
  }

  predicate TwinMessages(text: Text, a: Message, b: Message) {
    && a.role == b.role && a.name == b.name && a.toolCallId == b.toolCallId && a.metadata == b.metadata
    && text(a.content) == text(b.content)
  }

  /** Same inputs and deterministic answers; ids, latencies and durations are free. */
  ghost predicate TwinRuns(text: Text, r1: Run, r2: Run) {
    && r1.view.input == r2.view.input && r1.modelId == r2.modelId && r1.base == r2.base
    && TwinClients(r1.reply, r2.reply)
    && TwinWorlds(text, r1.w, r2.w)
  }

  type Reply = (nat, seq<Message>) -> GenerateOutcome

  /** The answers depend on the call number only, up to latency. */
  ghost predicate TwinClients(c1: Reply, c2: Reply) {
    forall i: nat, m1, m2 ::
      c1(i, m1).Replied? && c2(i, m2).Replied? && TwinResponses(c1(i, m1).response, c2(i, m2).response)
  }

  /** The same prompt builder, parser, guard and redaction; tools that answer alike. */
  ghost predicate TwinWorlds(text: Text, w1: World, w2: World) {
    && (forall input :: w1.systemPrompt(input) == w2.systemPrompt(input))
    && (forall input :: w1.userPrompt(input) == w2.userPrompt(input))
    && (forall s :: w1.parse(s) == w2.parse(s))
    && (forall s :: w1.redact(s) == w2.redact(s))
    && (forall call :: w1.isPrivateReference(call) == w2.isPrivateReference(call))
    && (forall calls :: TwinToolOutcomes(text, w1, w2, w1.tool(calls), w2.tool(calls)))
  }

  /** What the two worlds return on the same calls reads alike, and so do the messages they render from it. */
  predicate TwinToolOutcomes(text: Text, w1: World, w2: World, a: ToolOutcome, b: ToolOutcome) {
    match (a, b)
    case (WorkspaceHashFailed(c1, m1), WorkspaceHashFailed(c2, m2)) => c1 == c2 && text(w1.redact(m1)) == text(w2.redact(m2))
    case (Returned(t1), Returned(t2)) => TwinTools(text, t1, t2) && text(w1.render(t1)) == text(w2.render(t2))
    case _ => false
  }

  predicate TwinProgress(text: Text, p1: Progress, p2: Progress) {
    && p1.calls == p2.calls
    && |p1.messages| == |p2.messages| && |p1.responses| == |p2.responses| && |p1.toolResults| == |p2.toolResults|
    && (forall i :: 0 <= i < |p1.messages| ==> TwinMessages(text, p1.messages[i], p2.messages[i]))
    && (forall i :: 0 <= i < |p1.responses| ==> TwinResponses(p1.responses[i], p2.responses[i]))
    && (forall i :: 0 <= i < |p1.toolResults| ==> TwinTools(text, p1.toolResults[i], p2.toolResults[i]))
  }

  predicate TwinEndings(text: Text, e1: Option<Ending>, e2: Option<Ending>) {
    match (e1, e2)
    case (None, None) => true
    case (Some(a), Some(b)) => a.status == b.status && a.errorClass == b.errorClass && SameText(text, a.errorMessage, b.errorMessage)
    case _ => false
  }

  lemma TwinToolTurns(text: Text, w1: World, w2: World, p1: Progress, p2: Progress, call: ToolCall)
    requires TwinWorlds(text, w1, w2) && TwinProgress(text, p1, p2) && |p1.messages| > 0
    ensures var o1, o2 := ToolTurn(w1, p1, call), ToolTurn(w2, p2, call);
            TwinProgress(text, o1.p, o2.p) && TwinEndings(text, o1.ending, o2.ending)
  {
    var calls := p1.calls + [call];
    assert TwinToolOutcomes(text, w1, w2, w1.tool(calls), w2.tool(calls));
    var callId, last := ToolCallId(|p1.toolResults| + 1), |p1.messages| - 1;
    var t1 := p1.(messages := p1.messages[last := p1.messages[last].(toolCallId := Some(callId))], calls := calls);
    var t2 := p2.(messages := p2.messages[last := p2.messages[last].(toolCallId := Some(callId))], calls := calls);
    assert TwinProgress(text, t1, t2);
    if w1.tool(calls).Returned? {
      TwinReplies(text, w1, w2, t1, t2, w1.tool(calls).result, w2.tool(calls).result, callId);
    }
  }

  lemma TwinReplies(text: Text, w1: World, w2: World, p1: Progress, p2: Progress, a: ToolResult, b: ToolResult, callId: string)
    requires TwinProgress(text, p1, p2) && TwinTools(text, a, b) && text(w1.render(a)) == text(w2.render(b))
    ensures TwinProgress(text,
      p1.(toolResults := p1.toolResults + [a], messages := p1.messages + [ToolMessage(w1, w1.newId(|p1.messages|), a, callId)]),
      p2.(toolResults := p2.toolResults + [b], messages := p2.messages + [ToolMessage(w2, w2.newId(|p2.messages|), b, callId)]))
    ensures IsTerminalToolError(a) == IsTerminalToolError(b)
  {
  }

  function Answered(w: World, p: Progress, response: ModelResponse): Progress {
    p.(responses := p.responses + [response],
       messages := p.messages + [AssistantMessage(w.newId(|p.messages|), response)])
  }

  lemma TwinAnswers(text: Text, w1: World, w2: World, p1: Progress, p2: Progress, a1: ModelResponse, a2: ModelResponse)
    requires TwinProgress(text, p1, p2) && TwinResponses(a1, a2)
    ensures TwinProgress(text, Answered(w1, p1, a1), Answered(w2, p2, a2))
  {
  }

  lemma TwinActions(text: Text, w1: World, w2: World, p1: Progress, p2: Progress, a1: ModelResponse, a2: ModelResponse)
    requires TwinWorlds(text, w1, w2) && TwinProgress(text, p1, p2) && |p1.messages| > 0 && TwinResponses(a1, a2)
    ensures var o1, o2 := ActionTurn(w1, p1, a1), ActionTurn(w2, p2, a2);
            TwinProgress(text, o1.p, o2.p) && TwinEndings(text, o1.ending, o2.ending)
  {
    var parsed := w1.parse(a1.outputText);
    assert w2.parse(a2.outputText) == parsed;
    if parsed.CallTool? {
      assert w1.isPrivateReference(parsed.call) == w2.isPrivateReference(parsed.call);
      if !w1.isPrivateReference(parsed.call) {
        TwinToolTurns(text, w1, w2, p1, p2, parsed.call);
      }
    }
  }

  lemma AnsweredTurn(r: Run, turn: nat, p: Progress)
    requires r.reply(r.base + turn, p.messages).Replied?
    ensures
      var response := r.reply(r.base + turn, p.messages).response;
      var out := Turn(r, turn, p);
      && out.p.responses == p.responses + [response]
      && (if response.finishReason == StopCriteriaMet then out == ActionTurn(r.w, Answered(r.w, p, response), response)
          else out == TurnOutcome(Answered(r.w, p, response),
                 Some(Ending(ModelError, Some(ModelErrorClass(response)), Some(ModelErrorMessage(r.w, response))))))
  {
  }

  lemma TwinTurns(text: Text, r1: Run, r2: Run, turn: nat, p1: Progress, p2: Progress)
    requires TwinRuns(text, r1, r2) && TwinProgress(text, p1, p2)
    ensures var o1, o2 := Turn(r1, turn, p1), Turn(r2, turn, p2);
            TwinProgress(text, o1.p, o2.p) && TwinEndings(text, o1.ending, o2.ending)
  {
    var i := r1.base + turn;
    assert r1.reply(i, p1.messages).Replied? && r2.reply(i, p2.messages).Replied?;
    var a1, a2 := r1.reply(i, p1.messages).response, r2.reply(i, p2.messages).response;
    AnsweredTurn(r1, turn, p1);
    AnsweredTurn(r2, turn, p2);
    TwinAnswers(text, r1.w, r2.w, p1, p2, a1, a2);
    if a1.finishReason == StopCriteriaMet {
      TwinActions(text, r1.w, r2.w, Answered(r1.w, p1, a1), Answered(r2.w, p2, a2), a1, a2);
    } else {
      EndingsOfStoppedModels(text, r1.w, r2.w, a1, a2);
    }
  }

  lemma EndingsOfStoppedModels(text: Text, w1: World, w2: World, a1: ModelResponse, a2: ModelResponse)
    requires TwinWorlds(text, w1, w2) && TwinResponses(a1, a2)
    ensures ModelErrorClass(a1) == ModelErrorClass(a2) && ModelErrorMessage(w1, a1) == ModelErrorMessage(w2, a2)
  {
    if a1.errorMessage.Some? {
      var message := "Model generation stopped with finish_reason=" + FinishName(a1.finishReason) + ".";
      var full := message + " " + a1.errorMessage.value;
      SameRedaction(text, w1, w2, full);
    }
  }

  lemma SameRedaction(text: Text, w1: World, w2: World, s: string)
    requires TwinWorlds(text, w1, w2)
    ensures w1.redact(s) == w2.redact(s)
  {
  }

  lemma TwinStarts(text: Text, r1: Run, r2: Run)
    requires TwinWorlds(text, r1.w, r2.w) && r1.view.input == r2.view.input
    ensures TwinProgress(text, Start(r1), Start(r2))
  {
  }

  predicate TwinResults(text: Text, a: PromptLoopResult, b: PromptLoopResult) {
    && a.taskId == b.taskId && a.status == b.status && a.turnsExecuted == b.turnsExecuted && a.tokenUsage == b.tokenUsage
    && a.errorClass == b.errorClass && SameText(text, a.errorMessage, b.errorMessage)
    && TwinProgress(text, Progress(a.messages, a.modelResponses, a.toolResults, []),
                          Progress(b.messages, b.modelResponses, b.toolResults, []))
  }

  lemma TwinUsage(text: Text, p1: Progress, p2: Progress)
    requires TwinProgress(text, p1, p2)
    ensures UsageOf(p1.responses) == UsageOf(p2.responses)
  {
    assert PromptCounts(p1.responses) == PromptCounts(p2.responses);
    assert CompletionCounts(p1.responses) == CompletionCounts(p2.responses);
    assert TotalCounts(p1.responses) == TotalCounts(p2.responses);
  }

  lemma TwinBuilds(text: Text, r1: Run, r2: Run, turns: nat, p1: Progress, p2: Progress, e1: Ending, e2: Ending)
    requires r1.view.input == r2.view.input && TwinProgress(text, p1, p2) && TwinEndings(text, Some(e1), Some(e2))
    ensures TwinResults(text, Build(r1, turns, p1, e1), Build(r2, turns, p2, e2))
  {
    TwinUsage(text, p1, p2);
  }

  lemma {:induction false} TwinLoops(text: Text, r1: Run, r2: Run, turn: nat, p1: Progress, p2: Progress,
                                     h1: seq<seq<Message>>, h2: seq<seq<Message>>)
    requires TwinRuns(text, r1, r2) && TwinProgress(text, p1, p2) && turn <= r1.view.input.maxTurns
    ensures TwinResults(text, RunFrom(r1, turn, p1, h1).result, RunFrom(r2, turn, p2, h2).result)
    decreases r1.view.input.maxTurns - turn
  {
    if turn == r1.view.input.maxTurns {
      TwinBuilds(text, r1, r2, turn, p1, p2, OUT_OF_TURNS, OUT_OF_TURNS);
    } else {
      TwinTurns(text, r1, r2, turn, p1, p2);
      var o1, o2 := Turn(r1, turn, p1), Turn(r2, turn, p2);
      if o1.ending.None? {
        TwinLoops(text, r1, r2, turn + 1, o1.p, o2.p, h1 + [p1.messages], h2 + [p2.messages]);
      } else {
        TwinBuilds(text, r1, r2, turn + 1, o1.p, o2.p, o1.ending.value, o2.ending.value);
      }
    }
  }

  // ---------------------------------------------------------------- twins have agreeing dumps

  lemma TwinMessagesAgree(text: Text, a: Message, b: Message)
    requires TwinMessages(text, a, b)
    ensures Agree(MessageJson(a), MessageJson(b), text)
  {
  }

  lemma TwinResponsesAgree(text: Text, a: ModelResponse, b: ModelResponse)
    requires TwinResponses(a, b)
    ensures Agree(ResponseJson(a), ResponseJson(b), text)
  {
  }

  lemma TwinToolsAgree(text: Text, a: ToolResult, b: ToolResult)
    requires TwinTools(text, a, b)
    ensures Agree(ToolResultJson(a), ToolResultJson(b), text)
  {
  }

  lemma TwinResultsAgree(text: Text, a: PromptLoopResult, b: PromptLoopResult)
    requires TwinResults(text, a, b)
    ensures Agree(ResultJson(a), ResultJson(b), text)
  {
    forall i | 0 <= i < |a.messages| ensures Agree(MessageJson(a.messages[i]), MessageJson(b.messages[i]), text) {
      TwinMessagesAgree(text, a.messages[i], b.messages[i]);
    }
    forall i | 0 <= i < |a.modelResponses| ensures Agree(ResponseJson(a.modelResponses[i]), ResponseJson(b.modelResponses[i]), text) {
      TwinResponsesAgree(text, a.modelResponses[i], b.modelResponses[i]);
    }
    forall i | 0 <= i < |a.toolResults| ensures Agree(ToolResultJson(a.toolResults[i]), ToolResultJson(b.toolResults[i]), text) {
      TwinToolsAgree(text, a.toolResults[i], b.toolResults[i]);
    }
    assert Agree(MessagesJson(a.messages), MessagesJson(b.messages), text);
    assert Agree(ResponsesJson(a.modelResponses), ResponsesJson(b.modelResponses), text);
    assert Agree(ToolResultsJson(a.toolResults), ToolResultsJson(b.toolResults), text);
  }

  /** Two-run agreement for deterministic clients and tools. */
  lemma TwinRunsMatch(text: Text, r1: Run, r2: Run)
    requires TwinRuns(text, r1, r2)
    ensures NormalForm(ResultJson(PromptLoopOf(r1).result), text) == NormalForm(ResultJson(PromptLoopOf(r2).result), text)
  {
    var a, b := PromptLoopOf(r1).result, PromptLoopOf(r2).result;
    TwinStarts(text, r1, r2);
    TwinLoops(text, r1, r2, 0, Start(r1), Start(r2), [], []);
    TwinResultsAgree(text, a, b);
    NormalFormDecidesAgreement(ResultJson(a), ResultJson(b), text);
  }

  // ---------------------------------------------------------------- replaying a control script

  const DEFAULT_CONTROL_MODEL_ID := "agent-control-scripted-v0"

  /** The model id a replay reads back from the source result. */
  function SourceModelId(responses: seq<ModelResponse>): string {
    if |responses| == 0 then DEFAULT_CONTROL_MODEL_ID
    else if responses[0].modelId != "" then responses[0].modelId
    else SourceModelId(responses[1..])
  }

  predicate Named(modelId: string, responses: seq<ModelResponse>) {
    forall r :: r in responses ==> r.modelId == modelId
  }

  /** A client that always answers, and signs with its model id. */
  ghost predicate AlwaysSigns(r: Run) {
    forall i: nat, ms :: r.reply(i, ms).Replied? && r.reply(i, ms).response.modelId == r.modelId
  }

  lemma ScriptedClientSigns(r: Run, script: seq<ScriptStep>, latencyMs: nat -> nat)
    requires r.reply == ScriptedReply(r.modelId, script, latencyMs)
    ensures AlwaysSigns(r)
  {
    forall i: nat, ms ensures r.reply(i, ms).Replied? && r.reply(i, ms).response.modelId == r.modelId {
      ScriptedReplyIs(r.modelId, script, latencyMs, i, ms);
    }
  }

  lemma SignedTurn(r: Run, turn: nat, p: Progress)
    requires AlwaysSigns(r) && Named(r.modelId, p.responses)
    ensures Named(r.modelId, Turn(r, turn, p).p.responses) && |Turn(r, turn, p).p.responses| > 0
  {
    AnsweredTurn(r, turn, p);
  }

  lemma {:induction false} SignedRun(r: Run, turn: nat, p: Progress, h: seq<seq<Message>>)
    requires turn <= r.view.input.maxTurns && AlwaysSigns(r) && Named(r.modelId, p.responses)
    ensures var responses := RunFrom(r, turn, p, h).result.modelResponses;
            Named(r.modelId, responses) && (turn < r.view.input.maxTurns || |p.responses| > 0 ==> |responses| > 0)
    decreases r.view.input.maxTurns - turn
  {
    if turn < r.view.input.maxTurns {
      var out := Turn(r, turn, p);
      SignedTurn(r, turn, p);
      if out.ending.None? {
        SignedRun(r, turn + 1, out.p, h + [p.messages]);
        assert RunFrom(r, turn, p, h) == RunFrom(r, turn + 1, out.p, h + [p.messages]);
      } else {
        assert RunFrom(r, turn, p, h).result.modelResponses == out.p.responses;
      }
    }
  }

  lemma SourceModelIdIsTheName(modelId: string, responses: seq<ModelResponse>)
    requires modelId != "" && |responses| > 0 && Named(modelId, responses)
    ensures SourceModelId(responses) == modelId
  {
    assert responses[0] in responses;
  }

  lemma ScriptedResponsesAreTwins(modelId: string, script: seq<ScriptStep>, i: nat, l1: nat, l2: nat)
    ensures TwinResponses(ScriptedResponse(modelId, script, i, l1), ScriptedResponse(modelId, script, i, l2))
  {
  }

  lemma ScriptedClientsAreTwins(modelId: string, script: seq<ScriptStep>, latency1: nat -> nat, latency2: nat -> nat)
    ensures TwinClients(ScriptedReply(modelId, script, latency1), ScriptedReply(modelId, script, latency2))
  {
    var c1, c2 := ScriptedReply(modelId, script, latency1), ScriptedReply(modelId, script, latency2);
    forall i: nat, m1, m2
      ensures c1(i, m1).Replied? && c2(i, m2).Replied? && TwinResponses(c1(i, m1).response, c2(i, m2).response)
    {
      ScriptedReplyIs(modelId, script, latency1, i, m1);
      ScriptedReplyIs(modelId, script, latency2, i, m2);
      ScriptedResponsesAreTwins(modelId, script, i, latency1(i), latency2(i));
    }
  }

  /**
   A replay takes the script and the model id from the source's own artifacts; ids, clocks and workspace are new.
   Its prompt-loop result has the source's normal form.
   */
  lemma ScriptedReplayMatches(text: Text, script: seq<ScriptStep>, latency1: nat -> nat, latency2: nat -> nat,
                              source: Run, replay: Run)
    requires source.modelId != "" && source.view.input == replay.view.input && source.view.input.maxTurns > 0
    requires source.base == replay.base == 0
    requires source.reply == ScriptedReply(source.modelId, script, latency1)
    requires replay.modelId == SourceModelId(PromptLoopOf(source).result.modelResponses)
    requires replay.reply == ScriptedReply(replay.modelId, script, latency2)
    requires TwinWorlds(text, source.w, replay.w)
    ensures NormalForm(ResultJson(PromptLoopOf(source).result), text) == NormalForm(ResultJson(PromptLoopOf(replay).result), text)
  {
    ScriptedClientSigns(source, script, latency1);
    SignedRun(source, 0, Start(source), []);
    SourceModelIdIsTheName(source.modelId, PromptLoopOf(source).result.modelResponses);
    ScriptedClientsAreTwins(source.modelId, script, latency1, latency2);
    assert TwinRuns(text, source, replay);
    TwinRunsMatch(text, source, replay);
  }
}
