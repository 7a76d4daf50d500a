/**
 What two files that read alike in a replay have in common: for each kind of file, every field but ids, clocks and the
 declared identity, text once it is normalised.
 */
module ReplayReadings {
  import opened Wrappers
  import opened ReplayNormalForm
  import opened ReplayAgreement
  import opened PromptLoop
  import ReplayAnswers
  import ReplayFidelity
  import AgentAttempt

  predicate ReadAlike(a: Json, b: Json, text: Text) {
    NormalForm(a, text) == NormalForm(b, text)
  }

  /** Objects that read alike do so entry by entry, wherever a comparison looks. */
  lemma Entry(a: map<string, Json>, b: map<string, Json>, text: Text, key: string)
    requires ReadAlike(JObject(a), JObject(b), text) && key in a && key in b && !ReplayAnswers.Unseen(key)
    ensures ReadAlike(a[key], b[key], text)
  {
    var na, nb := NormalForm(JObject(a), text), NormalForm(JObject(b), text);
    assert na.fields[key] == nb.fields[key];
  }

  lemma Keys(a: map<string, Json>, b: map<string, Json>, text: Text)
    requires ReadAlike(JObject(a), JObject(b), text)
    ensures a.Keys - {"eval_attempt"} == b.Keys - {"eval_attempt"}
  {
    assert NormalForm(JObject(a), text).fields.Keys == a.Keys - {"eval_attempt"};
    assert NormalForm(JObject(b), text).fields.Keys == b.Keys - {"eval_attempt"};
  }

  lemma Items(a: seq<Json>, b: seq<Json>, text: Text)
    requires ReadAlike(JArray(a), JArray(b), text)
    ensures |a| == |b| && forall i :: 0 <= i < |a| ==> ReadAlike(a[i], b[i], text)
  {
    var na, nb := NormalForm(JArray(a), text), NormalForm(JArray(b), text);
    assert |na.items| == |a| && |nb.items| == |b|;
    forall i | 0 <= i < |a| ensures ReadAlike(a[i], b[i], text) {
      assert na.items[i] == nb.items[i];
    }
  }

  predicate SameTexts(text: Text, a: map<string, string>, b: map<string, string>) {
    a.Keys - {"eval_attempt"} == b.Keys - {"eval_attempt"}
    && forall key :: key in a && key in b && !ReplayAnswers.Unseen(key) ==> text(a[key]) == text(b[key])
  }

  // ---------------------------------------------------------------- the transcript

  predicate SameMessage(text: Text, a: Message, b: Message) {
    && text(RoleName(a.role)) == text(RoleName(b.role)) && text(a.content) == text(b.content)
    && SameText(text, a.name, b.name) && SameText(text, a.toolCallId, b.toolCallId)
    && SameTexts(text, a.metadata, b.metadata)
  }

  predicate SameResponse(text: Text, a: ModelResponse, b: ModelResponse) {
    && text(a.modelId) == text(b.modelId) && text(a.outputText) == text(b.outputText)
    && text(FinishName(a.finishReason)) == text(FinishName(b.finishReason))
    && a.promptTokens == b.promptTokens && a.completionTokens == b.completionTokens && a.totalTokens == b.totalTokens
    && SameText(text, a.errorClass, b.errorClass) && SameText(text, a.errorMessage, b.errorMessage)
    && text(a.rawResponseRef) == text(b.rawResponseRef)
  }

  predicate SameTool(text: Text, a: ToolResult, b: ToolResult) {
    && text(a.toolName) == text(b.toolName) && text(a.argumentsHash) == text(b.argumentsHash)
    && text(a.workspaceHashBefore) == text(b.workspaceHashBefore) && text(a.workspaceHashAfter) == text(b.workspaceHashAfter)
    && text(if a.status.Ok? then "ok" else "error") == text(if b.status.Ok? then "ok" else "error")
    && SameText(text, a.output, b.output) && text(a.stdout) == text(b.stdout) && text(a.stderr) == text(b.stderr)
    && a.exitCode == b.exitCode
    && SameText(text, a.errorClass, b.errorClass) && SameText(text, a.errorMessage, b.errorMessage)
  }

  predicate SameTranscript(text: Text, a: PromptLoopResult, b: PromptLoopResult) {
    && text(a.taskId) == text(b.taskId) && text(LoopStatusName(a.status)) == text(LoopStatusName(b.status))
    && a.turnsExecuted == b.turnsExecuted && a.tokenUsage == b.tokenUsage
    && |a.messages| == |b.messages| && (forall i :: 0 <= i < |a.messages| ==> SameMessage(text, a.messages[i], b.messages[i]))
    && |a.modelResponses| == |b.modelResponses|
    && (forall i :: 0 <= i < |a.modelResponses| ==> SameResponse(text, a.modelResponses[i], b.modelResponses[i]))
    && |a.toolResults| == |b.toolResults| && (forall i :: 0 <= i < |a.toolResults| ==> SameTool(text, a.toolResults[i], b.toolResults[i]))
    && SameText(text, a.errorClass, b.errorClass) && SameText(text, a.errorMessage, b.errorMessage)
  }

  lemma TextEntry(a: map<string, Json>, b: map<string, Json>, text: Text, key: string, x: string, y: string)
    requires ReadAlike(JObject(a), JObject(b), text) && key in a && key in b && !ReplayAnswers.Unseen(key)
    requires a[key] == JString(x) && b[key] == JString(y)
    ensures text(x) == text(y)
  {
    Entry(a, b, text, key);
  }

  lemma OptTextEntry(a: map<string, Json>, b: map<string, Json>, text: Text, key: string, x: Option<string>, y: Option<string>)
    requires ReadAlike(JObject(a), JObject(b), text) && key in a && key in b && !ReplayAnswers.Unseen(key)
    requires a[key] == OptStr(x) && b[key] == OptStr(y)
    ensures SameText(text, x, y)
  {
    Entry(a, b, text, key);
  }

  lemma OptNumEntry(a: map<string, Json>, b: map<string, Json>, text: Text, key: string, x: Option<int>, y: Option<int>)
    requires ReadAlike(JObject(a), JObject(b), text) && key in a && key in b && !ReplayAnswers.Unseen(key)
    requires a[key] == OptNum(x) && b[key] == OptNum(y)
    ensures x == y
  {
    Entry(a, b, text, key);
  }

  lemma Metadata(text: Text, a: map<string, string>, b: map<string, string>)
    requires ReadAlike(JObject(map k | k in a :: Str(a[k])), JObject(map k | k in b :: Str(b[k])), text)
    ensures SameTexts(text, a, b)
  {
    var fa, fb := map k | k in a :: Str(a[k]), map k | k in b :: Str(b[k]);
    assert fa.Keys == a.Keys && fb.Keys == b.Keys;
    Keys(fa, fb, text);
    forall key | key in a && key in b && !ReplayAnswers.Unseen(key) ensures text(a[key]) == text(b[key]) {
      TextEntry(fa, fb, text, key, a[key], b[key]);
    }
  }

  lemma Messages(text: Text, a: Message, b: Message)
    requires ReadAlike(MessageJson(a), MessageJson(b), text)
    ensures SameMessage(text, a, b)
  {
    var fa, fb := MessageJson(a).fields, MessageJson(b).fields;
    TextEntry(fa, fb, text, "role", RoleName(a.role), RoleName(b.role));
    TextEntry(fa, fb, text, "content", a.content, b.content);
    OptTextEntry(fa, fb, text, "name", a.name, b.name);
    OptTextEntry(fa, fb, text, "tool_call_id", a.toolCallId, b.toolCallId);
    Entry(fa, fb, text, "metadata");
    Metadata(text, a.metadata, b.metadata);
  }

  lemma ResponseModels(text: Text, a: ModelResponse, b: ModelResponse)
    requires ReadAlike(ResponseJson(a), ResponseJson(b), text)
    ensures text(a.modelId) == text(b.modelId)
  {
    var fa, fb := ResponseJson(a).fields, ResponseJson(b).fields;
    TextEntry(fa, fb, text, "model_id", a.modelId, b.modelId);
  }

  lemma ResponseTexts(text: Text, a: ModelResponse, b: ModelResponse)
    requires ReadAlike(ResponseJson(a), ResponseJson(b), text)
    ensures text(a.outputText) == text(b.outputText) && text(a.rawResponseRef) == text(b.rawResponseRef)
  {
    var fa, fb := ResponseJson(a).fields, ResponseJson(b).fields;
    TextEntry(fa, fb, text, "output_text", a.outputText, b.outputText);
    TextEntry(fa, fb, text, "raw_response_ref", a.rawResponseRef, b.rawResponseRef);
  }

  lemma ResponseInputs(text: Text, a: ModelResponse, b: ModelResponse)
    requires ReadAlike(ResponseJson(a), ResponseJson(b), text)
    ensures a.promptTokens == b.promptTokens
  {
    var fa, fb := ResponseJson(a).fields, ResponseJson(b).fields;
    OptNumEntry(fa, fb, text, "prompt_tokens", a.promptTokens, b.promptTokens);
  }

  lemma ResponseOutputs(text: Text, a: ModelResponse, b: ModelResponse)
    requires ReadAlike(ResponseJson(a), ResponseJson(b), text)
    ensures a.completionTokens == b.completionTokens && a.totalTokens == b.totalTokens
  {
    var fa, fb := ResponseJson(a).fields, ResponseJson(b).fields;
    OptNumEntry(fa, fb, text, "completion_tokens", a.completionTokens, b.completionTokens);
    OptNumEntry(fa, fb, text, "total_tokens", a.totalTokens, b.totalTokens);
  }

  lemma ResponseEndings(text: Text, a: ModelResponse, b: ModelResponse)
    requires ReadAlike(ResponseJson(a), ResponseJson(b), text)
    ensures text(FinishName(a.finishReason)) == text(FinishName(b.finishReason)) && SameText(text, a.errorClass, b.errorClass) && SameText(text, a.errorMessage, b.errorMessage)
  {
    var fa, fb := ResponseJson(a).fields, ResponseJson(b).fields;
    TextEntry(fa, fb, text, "finish_reason", FinishName(a.finishReason), FinishName(b.finishReason));
    OptTextEntry(fa, fb, text, "error_class", a.errorClass, b.errorClass);
    OptTextEntry(fa, fb, text, "error_message", a.errorMessage, b.errorMessage);
  }

  lemma Responses(text: Text, a: ModelResponse, b: ModelResponse)
    requires ReadAlike(ResponseJson(a), ResponseJson(b), text)
    ensures SameResponse(text, a, b)
  {
    ResponseModels(text, a, b);
    ResponseTexts(text, a, b);
    ResponseInputs(text, a, b);
    ResponseOutputs(text, a, b);
    ResponseEndings(text, a, b);
  }

  lemma ToolNames(text: Text, a: ToolResult, b: ToolResult)
    requires ReadAlike(ToolResultJson(a), ToolResultJson(b), text)
    ensures text(a.toolName) == text(b.toolName)
  {
    var fa, fb := ToolResultJson(a).fields, ToolResultJson(b).fields;
    TextEntry(fa, fb, text, "tool_name", a.toolName, b.toolName);
  }

  lemma ToolArguments(text: Text, a: ToolResult, b: ToolResult)
    requires ReadAlike(ToolResultJson(a), ToolResultJson(b), text)
    ensures text(a.argumentsHash) == text(b.argumentsHash)
  {
    var fa, fb := ToolResultJson(a).fields, ToolResultJson(b).fields;
    TextEntry(fa, fb, text, "arguments_hash", a.argumentsHash, b.argumentsHash);
  }

  lemma ToolHashesBefore(text: Text, a: ToolResult, b: ToolResult)
    requires ReadAlike(ToolResultJson(a), ToolResultJson(b), text)
    ensures text(a.workspaceHashBefore) == text(b.workspaceHashBefore)
  {
    var fa, fb := ToolResultJson(a).fields, ToolResultJson(b).fields;
    TextEntry(fa, fb, text, "canonical_workspace_hash_before", a.workspaceHashBefore, b.workspaceHashBefore);
  }

  lemma ToolHashesAfter(text: Text, a: ToolResult, b: ToolResult)
    requires ReadAlike(ToolResultJson(a), ToolResultJson(b), text)
    ensures text(a.workspaceHashAfter) == text(b.workspaceHashAfter)
  {
    var fa, fb := ToolResultJson(a).fields, ToolResultJson(b).fields;
    TextEntry(fa, fb, text, "canonical_workspace_hash_after", a.workspaceHashAfter, b.workspaceHashAfter);
  }

  lemma ToolOutputs(text: Text, a: ToolResult, b: ToolResult)
    requires ReadAlike(ToolResultJson(a), ToolResultJson(b), text)
    ensures SameText(text, a.output, b.output)
  {
    var fa, fb := ToolResultJson(a).fields, ToolResultJson(b).fields;
    OptTextEntry(fa, fb, text, "output", a.output, b.output);
  }

  lemma ToolStreams(text: Text, a: ToolResult, b: ToolResult)
    requires ReadAlike(ToolResultJson(a), ToolResultJson(b), text)
    ensures text(a.stdout) == text(b.stdout) && text(a.stderr) == text(b.stderr)
  {
    var fa, fb := ToolResultJson(a).fields, ToolResultJson(b).fields;
    TextEntry(fa, fb, text, "stdout", a.stdout, b.stdout);
    TextEntry(fa, fb, text, "stderr", a.stderr, b.stderr);
  }

  lemma ToolStatuses(text: Text, a: ToolResult, b: ToolResult)
    requires ReadAlike(ToolResultJson(a), ToolResultJson(b), text)
    ensures text(if a.status.Ok? then "ok" else "error") == text(if b.status.Ok? then "ok" else "error") && a.exitCode == b.exitCode
  {
    var fa, fb := ToolResultJson(a).fields, ToolResultJson(b).fields;
    TextEntry(fa, fb, text, "status", if a.status.Ok? then "ok" else "error", if b.status.Ok? then "ok" else "error");
    OptNumEntry(fa, fb, text, "exit_code", a.exitCode, b.exitCode);
  }

  lemma ToolErrors(text: Text, a: ToolResult, b: ToolResult)
    requires ReadAlike(ToolResultJson(a), ToolResultJson(b), text)
    ensures SameText(text, a.errorClass, b.errorClass) && SameText(text, a.errorMessage, b.errorMessage)
  {
    var fa, fb := ToolResultJson(a).fields, ToolResultJson(b).fields;
    OptTextEntry(fa, fb, text, "error_class", a.errorClass, b.errorClass);
    OptTextEntry(fa, fb, text, "error_message", a.errorMessage, b.errorMessage);
  }

  lemma Tools(text: Text, a: ToolResult, b: ToolResult)
    requires ReadAlike(ToolResultJson(a), ToolResultJson(b), text)
    ensures SameTool(text, a, b)
  {
    ToolNames(text, a, b);
    ToolArguments(text, a, b);
    ToolHashesBefore(text, a, b);
    ToolHashesAfter(text, a, b);
    ToolOutputs(text, a, b);
    ToolStreams(text, a, b);
    ToolStatuses(text, a, b);
    ToolErrors(text, a, b);
  }

  lemma TranscriptTasks(text: Text, a: PromptLoopResult, b: PromptLoopResult)
    requires ReadAlike(ResultJson(a), ResultJson(b), text)
    ensures text(a.taskId) == text(b.taskId)
  {
    var fa, fb := ResultJson(a).fields, ResultJson(b).fields;
    TextEntry(fa, fb, text, "task_id", a.taskId, b.taskId);
  }

  lemma TranscriptStatuses(text: Text, a: PromptLoopResult, b: PromptLoopResult)
    requires ReadAlike(ResultJson(a), ResultJson(b), text)
    ensures text(LoopStatusName(a.status)) == text(LoopStatusName(b.status))
  {
    var fa, fb := ResultJson(a).fields, ResultJson(b).fields;
    TextEntry(fa, fb, text, "status", LoopStatusName(a.status), LoopStatusName(b.status));
  }

  lemma TranscriptTurns(text: Text, a: PromptLoopResult, b: PromptLoopResult)
    requires ReadAlike(ResultJson(a), ResultJson(b), text)
    ensures a.turnsExecuted == b.turnsExecuted
  {
    var fa, fb := ResultJson(a).fields, ResultJson(b).fields;
    Entry(fa, fb, text, "turns_executed");
  }

  lemma Usages(text: Text, a: TokenUsage, b: TokenUsage)
    requires ReadAlike(UsageJson(a), UsageJson(b), text)
    ensures a == b
  {
    var fa, fb := UsageJson(a).fields, UsageJson(b).fields;
    OptNumEntry(fa, fb, text, "prompt_tokens", a.promptTokens, b.promptTokens);
    OptNumEntry(fa, fb, text, "completion_tokens", a.completionTokens, b.completionTokens);
    OptNumEntry(fa, fb, text, "total_tokens", a.totalTokens, b.totalTokens);
  }

  lemma UsageEntries(text: Text, a: PromptLoopResult, b: PromptLoopResult)
    requires ReadAlike(ResultJson(a), ResultJson(b), text)
    ensures ReadAlike(UsageJson(a.tokenUsage), UsageJson(b.tokenUsage), text)
  {
    Entry(ResultJson(a).fields, ResultJson(b).fields, text, "token_usage");
  }

  lemma TranscriptUsages(text: Text, a: PromptLoopResult, b: PromptLoopResult)
    requires ReadAlike(ResultJson(a), ResultJson(b), text)
    ensures a.tokenUsage == b.tokenUsage
  {
    UsageEntries(text, a, b);
    Usages(text, a.tokenUsage, b.tokenUsage);
  }

  lemma TranscriptMessages(text: Text, a: PromptLoopResult, b: PromptLoopResult)
    requires ReadAlike(ResultJson(a), ResultJson(b), text)
    ensures |a.messages| == |b.messages| && forall i :: 0 <= i < |a.messages| ==> SameMessage(text, a.messages[i], b.messages[i])
  {
    Entry(ResultJson(a).fields, ResultJson(b).fields, text, "messages");
    var ia, ib := MessagesJson(a.messages).items, MessagesJson(b.messages).items;
    Items(ia, ib, text);
    forall i | 0 <= i < |a.messages| ensures SameMessage(text, a.messages[i], b.messages[i]) {
      assert ia[i] == MessageJson(a.messages[i]) && ib[i] == MessageJson(b.messages[i]);
      Messages(text, a.messages[i], b.messages[i]);
    }
  }

  lemma TranscriptResponses(text: Text, a: PromptLoopResult, b: PromptLoopResult)
    requires ReadAlike(ResultJson(a), ResultJson(b), text)
    ensures |a.modelResponses| == |b.modelResponses| && forall i :: 0 <= i < |a.modelResponses| ==> SameResponse(text, a.modelResponses[i], b.modelResponses[i])
  {
    Entry(ResultJson(a).fields, ResultJson(b).fields, text, "model_responses");
    var ia, ib := ResponsesJson(a.modelResponses).items, ResponsesJson(b.modelResponses).items;
    Items(ia, ib, text);
    forall i | 0 <= i < |a.modelResponses| ensures SameResponse(text, a.modelResponses[i], b.modelResponses[i]) {
      assert ia[i] == ResponseJson(a.modelResponses[i]) && ib[i] == ResponseJson(b.modelResponses[i]);
      Responses(text, a.modelResponses[i], b.modelResponses[i]);
    }
  }

  lemma TranscriptTools(text: Text, a: PromptLoopResult, b: PromptLoopResult)
    requires ReadAlike(ResultJson(a), ResultJson(b), text)
    ensures |a.toolResults| == |b.toolResults| && forall i :: 0 <= i < |a.toolResults| ==> SameTool(text, a.toolResults[i], b.toolResults[i])
  {
    Entry(ResultJson(a).fields, ResultJson(b).fields, text, "tool_results");
    var ia, ib := ToolResultsJson(a.toolResults).items, ToolResultsJson(b.toolResults).items;
    Items(ia, ib, text);
    forall i | 0 <= i < |a.toolResults| ensures SameTool(text, a.toolResults[i], b.toolResults[i]) {
      assert ia[i] == ToolResultJson(a.toolResults[i]) && ib[i] == ToolResultJson(b.toolResults[i]);
      Tools(text, a.toolResults[i], b.toolResults[i]);
    }
  }

  lemma TranscriptErrors(text: Text, a: PromptLoopResult, b: PromptLoopResult)
    requires ReadAlike(ResultJson(a), ResultJson(b), text)
    ensures SameText(text, a.errorClass, b.errorClass) && SameText(text, a.errorMessage, b.errorMessage)
  {
    var fa, fb := ResultJson(a).fields, ResultJson(b).fields;
    OptTextEntry(fa, fb, text, "error_class", a.errorClass, b.errorClass);
    OptTextEntry(fa, fb, text, "error_message", a.errorMessage, b.errorMessage);
  }

  /** Transcripts that read alike are the same run but for ids, clocks and text noise. */
  lemma TranscriptsAlike(text: Text, a: PromptLoopResult, b: PromptLoopResult)
    requires ReadAlike(ResultJson(a), ResultJson(b), text)
    ensures SameTranscript(text, a, b)
  {
    TranscriptTasks(text, a, b);
    TranscriptStatuses(text, a, b);
    TranscriptTurns(text, a, b);
    TranscriptUsages(text, a, b);
    TranscriptMessages(text, a, b);
    TranscriptResponses(text, a, b);
    TranscriptTools(text, a, b);
    TranscriptErrors(text, a, b);
  }

  // ---------------------------------------------------------------- the result

  predicate SameResult(k: ReplayFidelity.Dumps, text: Text, a: AgentAttempt.RunResult, b: AgentAttempt.RunResult) {
    && text(a.taskId) == text(b.taskId) && text(a.taskManifestPath) == text(b.taskManifestPath)
    && text(AgentAttempt.RunStatusName(a.status)) == text(AgentAttempt.RunStatusName(b.status))
    && SameText(text, LoopStatusText(a.promptLoopStatus), LoopStatusText(b.promptLoopStatus))
    && SameText(text, PathText(k, a.candidatePatchPath), PathText(k, b.candidatePatchPath))
    && a.candidatePatchHash == b.candidatePatchHash
    && ReadAlike(ReplayFidelity.AttemptResultJson(k, a.attemptResult), ReplayFidelity.AttemptResultJson(k, b.attemptResult), text)
    && SameText(text, a.errorClass, b.errorClass) && SameText(text, a.errorMessage, b.errorMessage)
  }

  function LoopStatusText(s: Option<LoopStatus>): Option<string> {
    if s.Some? then Some(LoopStatusName(s.value)) else None
  }

  function PathText(k: ReplayFidelity.Dumps, p: Option<AgentAttempt.Location>): Option<string> {
    if p.Some? then Some(k.location(p.value)) else None
  }

  lemma ResultTasks(k: ReplayFidelity.Dumps, text: Text, a: AgentAttempt.RunResult, b: AgentAttempt.RunResult)
    requires ReadAlike(ReplayFidelity.RunResultJson(k, a), ReplayFidelity.RunResultJson(k, b), text)
    ensures text(a.taskId) == text(b.taskId)
  {
    var fa, fb := ReplayFidelity.RunResultJson(k, a).fields, ReplayFidelity.RunResultJson(k, b).fields;
    TextEntry(fa, fb, text, "task_id", a.taskId, b.taskId);
  }

  lemma ResultPaths(k: ReplayFidelity.Dumps, text: Text, a: AgentAttempt.RunResult, b: AgentAttempt.RunResult)
    requires ReadAlike(ReplayFidelity.RunResultJson(k, a), ReplayFidelity.RunResultJson(k, b), text)
    ensures text(a.taskManifestPath) == text(b.taskManifestPath)
  {
    var fa, fb := ReplayFidelity.RunResultJson(k, a).fields, ReplayFidelity.RunResultJson(k, b).fields;
    TextEntry(fa, fb, text, "task_manifest_path", a.taskManifestPath, b.taskManifestPath);
  }

  lemma ResultStatuses(k: ReplayFidelity.Dumps, text: Text, a: AgentAttempt.RunResult, b: AgentAttempt.RunResult)
    requires ReadAlike(ReplayFidelity.RunResultJson(k, a), ReplayFidelity.RunResultJson(k, b), text)
    ensures text(AgentAttempt.RunStatusName(a.status)) == text(AgentAttempt.RunStatusName(b.status))
  {
    var fa, fb := ReplayFidelity.RunResultJson(k, a).fields, ReplayFidelity.RunResultJson(k, b).fields;
    TextEntry(fa, fb, text, "status", AgentAttempt.RunStatusName(a.status), AgentAttempt.RunStatusName(b.status));
  }

  lemma ResultLoops(k: ReplayFidelity.Dumps, text: Text, a: AgentAttempt.RunResult, b: AgentAttempt.RunResult)
    requires ReadAlike(ReplayFidelity.RunResultJson(k, a), ReplayFidelity.RunResultJson(k, b), text)
    ensures SameText(text, LoopStatusText(a.promptLoopStatus), LoopStatusText(b.promptLoopStatus))
  {
    var fa, fb := ReplayFidelity.RunResultJson(k, a).fields, ReplayFidelity.RunResultJson(k, b).fields;
    OptTextEntry(fa, fb, text, "prompt_loop_status", LoopStatusText(a.promptLoopStatus), LoopStatusText(b.promptLoopStatus));
  }

  lemma ResultCandidates(k: ReplayFidelity.Dumps, text: Text, a: AgentAttempt.RunResult, b: AgentAttempt.RunResult)
    requires ReadAlike(ReplayFidelity.RunResultJson(k, a), ReplayFidelity.RunResultJson(k, b), text)
    ensures SameText(text, PathText(k, a.candidatePatchPath), PathText(k, b.candidatePatchPath))
  {
    var fa, fb := ReplayFidelity.RunResultJson(k, a).fields, ReplayFidelity.RunResultJson(k, b).fields;
    OptTextEntry(fa, fb, text, "candidate_patch_path", PathText(k, a.candidatePatchPath), PathText(k, b.candidatePatchPath));
  }

  lemma ResultHashes(k: ReplayFidelity.Dumps, text: Text, a: AgentAttempt.RunResult, b: AgentAttempt.RunResult)
    requires ReadAlike(ReplayFidelity.RunResultJson(k, a), ReplayFidelity.RunResultJson(k, b), text)
    ensures a.candidatePatchHash == b.candidatePatchHash
  {
    var fa, fb := ReplayFidelity.RunResultJson(k, a).fields, ReplayFidelity.RunResultJson(k, b).fields;
    OptNumEntry(fa, fb, text, "candidate_patch_hash", a.candidatePatchHash, b.candidatePatchHash);
  }

  lemma ResultAttempts(k: ReplayFidelity.Dumps, text: Text, a: AgentAttempt.RunResult, b: AgentAttempt.RunResult)
    requires ReadAlike(ReplayFidelity.RunResultJson(k, a), ReplayFidelity.RunResultJson(k, b), text)
    ensures ReadAlike(ReplayFidelity.AttemptResultJson(k, a.attemptResult), ReplayFidelity.AttemptResultJson(k, b.attemptResult), text)
  {
    var fa, fb := ReplayFidelity.RunResultJson(k, a).fields, ReplayFidelity.RunResultJson(k, b).fields;
    Entry(fa, fb, text, "attempt_result");
  }

  lemma ResultErrors(k: ReplayFidelity.Dumps, text: Text, a: AgentAttempt.RunResult, b: AgentAttempt.RunResult)
    requires ReadAlike(ReplayFidelity.RunResultJson(k, a), ReplayFidelity.RunResultJson(k, b), text)
    ensures SameText(text, a.errorClass, b.errorClass) && SameText(text, a.errorMessage, b.errorMessage)
  {
    var fa, fb := ReplayFidelity.RunResultJson(k, a).fields, ReplayFidelity.RunResultJson(k, b).fields;
    OptTextEntry(fa, fb, text, "error_class", a.errorClass, b.errorClass);
    OptTextEntry(fa, fb, text, "error_message", a.errorMessage, b.errorMessage);
  }

  /** Results that read alike agree on everything but ids and clocks. */
  lemma ResultsAlike(k: ReplayFidelity.Dumps, text: Text, a: AgentAttempt.RunResult, b: AgentAttempt.RunResult)
    requires ReadAlike(ReplayFidelity.RunResultJson(k, a), ReplayFidelity.RunResultJson(k, b), text)
    ensures SameResult(k, text, a, b)
  {
    ResultTasks(k, text, a, b);
    ResultPaths(k, text, a, b);
    ResultStatuses(k, text, a, b);
    ResultLoops(k, text, a, b);
    ResultCandidates(k, text, a, b);
    ResultHashes(k, text, a, b);
    ResultAttempts(k, text, a, b);
    ResultErrors(k, text, a, b);
  }

  // ---------------------------------------------------------------- files

  /** What a report or an empty file says before it is normalised. */
  function Report(h: AgentAttempt.Harness, e: Option<AgentAttempt.ErrorDetails>): string {
    h.redact(if e.Some? then AgentAttempt.ErrorText(e.value) else "")
  }

  /** Two files of one kind that a replay compares as equal. */
  lemma FilesAlike(h: AgentAttempt.Harness, k: ReplayFidelity.Dumps, a: AgentAttempt.Content, b: AgentAttempt.Content)
    requires ReplayFidelity.Normal(h, k)(a) == ReplayFidelity.Normal(h, k)(b)
    ensures a.LoopFile? && b.LoopFile? ==> SameTranscript(k.text, a.loop, b.loop)
    ensures a.RunFile? && b.RunFile? ==> SameResult(k, k.text, a.run, b.run)
    ensures a.PatchFile? && b.PatchFile? ==> k.text(a.patch) == k.text(b.patch)
    ensures a.ErrorFile? && b.ErrorFile? ==> k.text(Report(h, a.details)) == k.text(Report(h, b.details))
    ensures a.ScriptFile? && b.ScriptFile? ==> k.text(a.script) == k.text(b.script)
  {
    if a.LoopFile? && b.LoopFile? {
      TranscriptsAlike(k.text, a.loop, b.loop);
    }
    if a.RunFile? && b.RunFile? {
      ResultsAlike(k, k.text, a.run, b.run);
    }
  }
}
