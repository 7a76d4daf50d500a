/**
 Why a prompt loop ended as it did, read off its result: what the model was asked and answered, which tool calls its
 answers stood for, what the tools returned, and the one thing that ended it.
 */
module PromptLoopAnswers {
  import opened Wrappers
  import opened PromptLoop
  import PromptLoopLaws
  import Decimal

  // ---------------------------------------------------------------- what the answers stand for

  /** A finished answer that parses to a tool call the guard lets through. */
  predicate Proceeds(w: World, response: ModelResponse) {
    && response.finishReason == StopCriteriaMet
    && w.parse(response.outputText).CallTool?
    && !w.isPrivateReference(w.parse(response.outputText).call)
  }

  predicate AllProceed(w: World, responses: seq<ModelResponse>) {
    forall k :: 0 <= k < |responses| ==> Proceeds(w, responses[k])
  }

  /** The tool calls a list of such answers stands for. */
  function CallsIn(w: World, responses: seq<ModelResponse>): seq<ToolCall>
    requires AllProceed(w, responses)
  {
    seq(|responses|, k requires 0 <= k < |responses| => w.parse(responses[k].outputText).call)
  }

  /** Answer k is what the client replied to the k-th history, counting on from the calls it had served. */
  predicate Replies(r: Run, histories: seq<seq<Message>>, responses: seq<ModelResponse>) {
    |responses| <= |histories| && forall k :: 0 <= k < |responses| ==> r.reply(r.base + k, histories[k]) == Replied(responses[k])
  }

  /** Result k is what the tool returned for the calls made up to answer k, none of them private. */
  predicate Executed(w: World, responses: seq<ModelResponse>, results: seq<ToolResult>) {
    && |results| <= |responses| && AllProceed(w, responses[..|results|])
    && forall k :: 0 <= k < |results| ==> ToolAnswered(w, responses[..k + 1], results[k])
  }

  predicate ToolAnswered(w: World, responses: seq<ModelResponse>, result: ToolResult) {
    AllProceed(w, responses) && w.tool(CallsIn(w, responses)) == Returned(result)
  }

  /** A tool error the loop does not go on from. */
  predicate Fatal(result: ToolResult) {
    result.status.Error? && result.errorClass !in {Some("InvalidToolInput"), Some("ToolExecutionError"), Some("ToolTimeout")}
  }

  // ---------------------------------------------------------------- what can end a run

  /** The client let an exception out instead of its next answer. */
  predicate ClientRaised(r: Run, ended: Ended, cls: string, message: string) {
    var n := |ended.result.modelResponses|;
    n < |ended.histories| && r.reply(r.base + n, ended.histories[n]) == GenerateRaised(cls, message)
  }

  predicate LastStopped(res: PromptLoopResult) {
    res.modelResponses != [] && res.modelResponses[|res.modelResponses| - 1].finishReason == StopCriteriaMet
  }

  predicate LastBrokeOff(res: PromptLoopResult) {
    res.modelResponses != [] && res.modelResponses[|res.modelResponses| - 1].finishReason != StopCriteriaMet
  }

  /** What the last answer, a finished one, parses to. */
  function LastAction(w: World, res: PromptLoopResult): ParseOutcome
    requires LastStopped(res)
  {
    w.parse(res.modelResponses[|res.modelResponses| - 1].outputText)
  }

  predicate AskedForPrivate(w: World, res: PromptLoopResult) {
    LastStopped(res) && LastAction(w, res).CallTool? && w.isPrivateReference(LastAction(w, res).call)
  }

  predicate GaveFinalAnswer(w: World, res: PromptLoopResult) {
    LastStopped(res) && LastAction(w, res).FinalAnswer?
  }

  predicate BrokeSchema(w: World, res: PromptLoopResult) {
    LastStopped(res) && LastAction(w, res).SchemaViolation?
  }

  predicate WasNotJson(w: World, res: PromptLoopResult) {
    LastStopped(res) && LastAction(w, res).NotJson?
  }

  /** The workspace could not be hashed around the call the last answer stands for. */
  predicate HashFailed(w: World, res: PromptLoopResult) {
    && res.modelResponses != [] && AllProceed(w, res.modelResponses)
    && w.tool(CallsIn(w, res.modelResponses)).WorkspaceHashFailed?
  }

  predicate ToolWasFatal(res: PromptLoopResult) {
    res.toolResults != [] && Fatal(res.toolResults[|res.toolResults| - 1])
  }

  predicate Fails(res: PromptLoopResult, status: LoopStatus, cls: string, message: string) {
    res.status == status && res.errorClass == Some(cls) && res.errorMessage == Some(message)
  }

  function ReasonText(f: FinishReason): string {
    if f.StopCriteriaMet? then "stop_criteria_met" else if f.MaxNewTokensReached? then "max_new_tokens_reached"
    else if f.TimedOut? then "timeout" else "error"
  }

  /** Class and message of a run that ended because of its model. */
  ghost predicate ModelBlamed(r: Run, ended: Ended) {
    var res := ended.result;
    && (forall cls, message :: ClientRaised(r, ended, cls, message) ==>
          Fails(res, ModelError, cls,
                if message == "" then "Model " + r.modelId + " generate failed."
                else r.w.redact("Model " + r.modelId + " generate failed: " + message)))
    && (LastBrokeOff(res) ==>
          var last := res.modelResponses[|res.modelResponses| - 1];
          var stopped := "Model generation stopped with finish_reason=" + ReasonText(last.finishReason) + ".";
          && (last.errorClass.Some? ==> res.errorClass == last.errorClass)
          && (last.errorClass.None? ==>
                res.errorClass == Some(if last.finishReason == MaxNewTokensReached then "MaxNewTokensReached" else "ModelGenerationStopped"))
          && res.errorMessage ==
               Some(if last.errorMessage.Some? then r.w.redact(stopped + " " + last.errorMessage.value) else stopped))
    && (res.status == ModelError <==> LastBrokeOff(res) || exists cls, message :: ClientRaised(r, ended, cls, message))
  }

  /** A run that ended with an action of the model other than a tool call that was made. */
  ghost predicate ActionBlamed(r: Run, res: PromptLoopResult) {
    && (res.status == Completed <==> GaveFinalAnswer(r.w, res))
    && (res.status == Completed ==> res.errorClass == None && res.errorMessage == None)
    && (res.status == InvalidShortcutAttempted <==> AskedForPrivate(r.w, res))
    && (AskedForPrivate(r.w, res) ==>
          Fails(res, InvalidShortcutAttempted, "PrivateHiddenValidatorAccessAttempted",
                "Tool call contained a private hidden-validator reference."))
    && (res.status == InvalidModelOutput <==> BrokeSchema(r.w, res) || WasNotJson(r.w, res))
    && (BrokeSchema(r.w, res) ==> Fails(res, InvalidModelOutput, "InvalidModelOutput", LastAction(r.w, res).message))
    && (WasNotJson(r.w, res) ==> Fails(res, InvalidModelOutput, "MalformedModelOutput", LastAction(r.w, res).message))
  }

  ghost predicate ToolBlamed(r: Run, res: PromptLoopResult) {
    && (res.status == LoopOrchestratorError <==> HashFailed(r.w, res))
    && (HashFailed(r.w, res) ==>
          var failed := r.w.tool(CallsIn(r.w, res.modelResponses));
          Fails(res, LoopOrchestratorError, failed.errorClass, r.w.redact(failed.message)))
    && (res.status == TerminalToolError <==> ToolWasFatal(res))
    && (ToolWasFatal(res) ==>
          var fatal := res.toolResults[|res.toolResults| - 1];
          res.errorClass == fatal.errorClass && res.errorMessage == fatal.errorMessage)
    && (res.status == MaxTurnsExceeded <==> |res.toolResults| == r.view.input.maxTurns && !ToolWasFatal(res))
    && (res.status == MaxTurnsExceeded ==> Fails(res, MaxTurnsExceeded, "MaxTurnsExceeded", "Prompt loop reached max_turns."))
  }

  /** Where the result comes from and what ended the run. */
  ghost predicate Told(r: Run, ended: Ended) {
    var res := ended.result;
    && res.taskId == r.view.input.taskId && res.durationMs == r.w.durationMs
    && |ended.histories| == res.turnsExecuted
    && Replies(r, ended.histories, res.modelResponses) && Executed(r.w, res.modelResponses, res.toolResults)
    && ModelBlamed(r, ended) && ActionBlamed(r, res) && ToolBlamed(r, res)
  }

  // ---------------------------------------------------------------- the same between two turns

  ghost predicate OnTheWay(r: Run, turn: nat, p: Progress, heard: seq<seq<Message>>) {
    && |p.responses| == |p.toolResults| == |heard| == turn
    && Replies(r, heard, p.responses) && AllProceed(r.w, p.responses)
    && p.calls == CallsIn(r.w, p.responses)
    && Executed(r.w, p.responses, p.toolResults)
    && forall k :: 0 <= k < turn ==> !Fatal(p.toolResults[k])
  }

  lemma CallsSnoc(w: World, responses: seq<ModelResponse>, response: ModelResponse)
    requires AllProceed(w, responses) && Proceeds(w, response)
    ensures AllProceed(w, responses + [response])
    ensures CallsIn(w, responses + [response]) == CallsIn(w, responses) + [w.parse(response.outputText).call]
  {
  }

  lemma OneMoreAnswer(r: Run, turn: nat, p: Progress, heard: seq<seq<Message>>, response: ModelResponse)
    requires OnTheWay(r, turn, p, heard) && r.reply(r.base + turn, p.messages) == Replied(response)
    ensures Replies(r, heard + [p.messages], p.responses + [response])
    ensures Executed(r.w, p.responses + [response], p.toolResults)
  {
    var longer := p.responses + [response];
    assert longer[..turn] == p.responses && p.responses[..turn] == p.responses;
    forall k | 0 <= k < turn ensures ToolAnswered(r.w, longer[..k + 1], p.toolResults[k]) {
      assert longer[..k + 1] == p.responses[..k + 1];
    }
  }

  lemma OneMoreResult(r: Run, turn: nat, p: Progress, response: ModelResponse, result: ToolResult)
    requires |p.responses| == |p.toolResults| == turn && Executed(r.w, p.responses + [response], p.toolResults)
    requires AllProceed(r.w, p.responses + [response]) && r.w.tool(CallsIn(r.w, p.responses + [response])) == Returned(result)
    ensures Executed(r.w, p.responses + [response], p.toolResults + [result])
  {
    var longer := p.responses + [response];
    assert longer[..turn + 1] == longer;
    assert ToolAnswered(r.w, longer[..turn + 1], result);
  }

  /** The turns before the last one account for none of the endings. */
  lemma NothingEndedYet(r: Run, turn: nat, p: Progress, heard: seq<seq<Message>>)
    requires OnTheWay(r, turn, p, heard)
    ensures turn > 0 ==> Proceeds(r.w, p.responses[turn - 1]) && !Fatal(p.toolResults[turn - 1])
    ensures turn > 0 ==> r.w.tool(CallsIn(r.w, p.responses)) == Returned(p.toolResults[turn - 1])
  {
    if turn > 0 {
      assert ToolAnswered(r.w, p.responses[..turn - 1 + 1], p.toolResults[turn - 1]);
      assert p.responses[..turn] == p.responses;
    }
  }

  /** The client raised. */
  lemma RaisedIsTold(r: Run, turn: nat, p: Progress, heard: seq<seq<Message>>, e: Ending, cls: string, message: string)
    requires OnTheWay(r, turn, p, heard) && turn < r.view.input.maxTurns
    requires r.reply(r.base + turn, p.messages) == GenerateRaised(cls, message)
    requires Turn(r, turn, p) == TurnOutcome(p, Some(e))
    ensures Told(r, Ended(Build(r, turn + 1, p, e), heard + [p.messages]))
  {
    NothingEndedYet(r, turn, p, heard);
    var ended := Ended(Build(r, turn + 1, p, e), heard + [p.messages]);
    assert ClientRaised(r, ended, cls, message);
  }

  /** What the result of an answer that ended the run consists of. */
  lemma LastAnswer(r: Run, turn: nat, p: Progress, heard: seq<seq<Message>>, response: ModelResponse, e: Ending)
    requires OnTheWay(r, turn, p, heard) && r.reply(r.base + turn, p.messages) == Replied(response) && !Proceeds(r.w, response)
    ensures var ended := Ended(Build(r, turn + 1, PromptLoopLaws.Answered(r, p, response), e), heard + [p.messages]);
      && |ended.histories| == turn + 1 && Replies(r, ended.histories, ended.result.modelResponses)
      && Executed(r.w, ended.result.modelResponses, ended.result.toolResults)
      && |ended.result.modelResponses| == turn + 1 && ended.result.modelResponses[turn] == response
      && !HashFailed(r.w, ended.result) && !ToolWasFatal(ended.result)
  {
    NothingEndedYet(r, turn, p, heard);
    OneMoreAnswer(r, turn, p, heard, response);
    var ended := Ended(Build(r, turn + 1, PromptLoopLaws.Answered(r, p, response), e), heard + [p.messages]);
    assert ended.result.modelResponses[turn] == response;
    assert !AllProceed(r.w, ended.result.modelResponses);
  }

  /** The answer broke off. */
  lemma BreakingOffIsTold(r: Run, turn: nat, p: Progress, heard: seq<seq<Message>>, response: ModelResponse, e: Ending)
    requires OnTheWay(r, turn, p, heard) && turn < r.view.input.maxTurns
    requires r.reply(r.base + turn, p.messages) == Replied(response) && response.finishReason != StopCriteriaMet
    requires Turn(r, turn, p) == TurnOutcome(PromptLoopLaws.Answered(r, p, response), Some(e))
    ensures Told(r, Ended(Build(r, turn + 1, PromptLoopLaws.Answered(r, p, response), e), heard + [p.messages]))
  {
    LastAnswer(r, turn, p, heard, response, e);
  }

  /** What the answer asked for ended the run. */
  lemma ActionIsTold(r: Run, turn: nat, p: Progress, heard: seq<seq<Message>>, response: ModelResponse, e: Ending)
    requires OnTheWay(r, turn, p, heard) && turn < r.view.input.maxTurns
    requires r.reply(r.base + turn, p.messages) == Replied(response) && response.finishReason == StopCriteriaMet && !Proceeds(r.w, response)
    requires ActionTurn(r.w, PromptLoopLaws.Answered(r, p, response), response) == TurnOutcome(PromptLoopLaws.Answered(r, p, response), Some(e))
    ensures Told(r, Ended(Build(r, turn + 1, PromptLoopLaws.Answered(r, p, response), e), heard + [p.messages]))
  {
    NothingEndedYet(r, turn, p, heard);
    OneMoreAnswer(r, turn, p, heard, response);
    var ended := Ended(Build(r, turn + 1, PromptLoopLaws.Answered(r, p, response), e), heard + [p.messages]);
    assert ended.result.modelResponses[turn] == response;
    assert !AllProceed(r.w, ended.result.modelResponses);
  }

  /** The tool call an answer stands for was made, and the workspace could not be hashed. */
  lemma HashFailureIsTold(r: Run, turn: nat, p: Progress, heard: seq<seq<Message>>, response: ModelResponse, last: Progress, cls: string, message: string)
    requires OnTheWay(r, turn, p, heard) && turn < r.view.input.maxTurns
    requires r.reply(r.base + turn, p.messages) == Replied(response) && Proceeds(r.w, response)
    requires last.responses == p.responses + [response] && last.toolResults == p.toolResults
    requires r.w.tool(p.calls + [r.w.parse(response.outputText).call]) == WorkspaceHashFailed(cls, message)
    ensures Told(r, Ended(Build(r, turn + 1, last, Ending(LoopOrchestratorError, Some(cls), Some(r.w.redact(message)))), heard + [p.messages]))
  {
    NothingEndedYet(r, turn, p, heard);
    OneMoreAnswer(r, turn, p, heard, response);
    CallsSnoc(r.w, p.responses, response);
    var ended := Ended(Build(r, turn + 1, last, Ending(LoopOrchestratorError, Some(cls), Some(r.w.redact(message)))), heard + [p.messages]);
    assert ended.result.modelResponses[turn] == response;
  }

  /** It returned, with an error the loop does not go on from. */
  lemma FatalToolIsTold(r: Run, turn: nat, p: Progress, heard: seq<seq<Message>>, response: ModelResponse, last: Progress, result: ToolResult)
    requires OnTheWay(r, turn, p, heard) && turn < r.view.input.maxTurns
    requires r.reply(r.base + turn, p.messages) == Replied(response) && Proceeds(r.w, response)
    requires last.responses == p.responses + [response] && last.toolResults == p.toolResults + [result]
    requires r.w.tool(p.calls + [r.w.parse(response.outputText).call]) == Returned(result) && Fatal(result)
    ensures Told(r, Ended(Build(r, turn + 1, last, Ending(TerminalToolError, result.errorClass, result.errorMessage)), heard + [p.messages]))
  {
    OneMoreAnswer(r, turn, p, heard, response);
    CallsSnoc(r.w, p.responses, response);
    OneMoreResult(r, turn, p, response, result);
    var ended := Ended(Build(r, turn + 1, last, Ending(TerminalToolError, result.errorClass, result.errorMessage)), heard + [p.messages]);
    assert ended.result.modelResponses[turn] == response && ended.result.toolResults[turn] == result;
  }

  /** It returned, and the loop goes on. */
  lemma ReturnedGoesOn(r: Run, turn: nat, p: Progress, heard: seq<seq<Message>>, response: ModelResponse, next: Progress, result: ToolResult)
    requires OnTheWay(r, turn, p, heard)
    requires r.reply(r.base + turn, p.messages) == Replied(response) && Proceeds(r.w, response)
    requires next.responses == p.responses + [response] && next.toolResults == p.toolResults + [result]
    requires next.calls == p.calls + [r.w.parse(response.outputText).call]
    requires r.w.tool(next.calls) == Returned(result) && !Fatal(result)
    ensures OnTheWay(r, turn + 1, next, heard + [p.messages])
  {
    OneMoreAnswer(r, turn, p, heard, response);
    CallsSnoc(r.w, p.responses, response);
    OneMoreResult(r, turn, p, response, result);
  }

  lemma OutOfTurnsIsTold(r: Run, p: Progress, heard: seq<seq<Message>>)
    requires OnTheWay(r, r.view.input.maxTurns, p, heard)
    ensures Told(r, Ended(Build(r, r.view.input.maxTurns, p, OUT_OF_TURNS), heard))
  {
    NothingEndedYet(r, r.view.input.maxTurns, p, heard);
  }

  lemma FatalIsTerminal(result: ToolResult)
    ensures IsTerminalToolError(result) <==> Fatal(result)
  {
  }

  lemma TurnIsTold(r: Run, turn: nat, p: Progress, heard: seq<seq<Message>>)
    requires OnTheWay(r, turn, p, heard) && turn < r.view.input.maxTurns && |p.messages| > 0
    ensures var out := Turn(r, turn, p);
      && |out.p.messages| > 0
      && if out.ending.Some? then Told(r, Ended(Build(r, turn + 1, out.p, out.ending.value), heard + [p.messages]))
         else OnTheWay(r, turn + 1, out.p, heard + [p.messages])
  {
    var out := Turn(r, turn, p);
    match r.reply(r.base + turn, p.messages)
    case GenerateRaised(cls, message) => RaisedIsTold(r, turn, p, heard, out.ending.value, cls, message);
    case Replied(response) =>
      if Proceeds(r.w, response) {
        ProceedingTurnIsTold(r, turn, p, heard, response);
      } else if response.finishReason == StopCriteriaMet {
        ActionIsTold(r, turn, p, heard, response, out.ending.value);
      } else {
        BreakingOffIsTold(r, turn, p, heard, response, out.ending.value);
      }
  }

  lemma ProceedingTurnIsTold(r: Run, turn: nat, p: Progress, heard: seq<seq<Message>>, response: ModelResponse)
    requires OnTheWay(r, turn, p, heard) && turn < r.view.input.maxTurns
    requires r.reply(r.base + turn, p.messages) == Replied(response) && Proceeds(r.w, response)
    ensures var out := Turn(r, turn, p);
      && |out.p.messages| > 0
      && if out.ending.Some? then Told(r, Ended(Build(r, turn + 1, out.p, out.ending.value), heard + [p.messages]))
         else OnTheWay(r, turn + 1, out.p, heard + [p.messages])
  {
    var answered, call := PromptLoopLaws.Answered(r, p, response), r.w.parse(response.outputText).call;
    var out := ToolTurn(r.w, answered, call);
    assert Turn(r, turn, p) == ActionTurn(r.w, answered, response) == out;
    match r.w.tool(p.calls + [call])
    case WorkspaceHashFailed(cls, message) => HashFailureIsTold(r, turn, p, heard, response, out.p, cls, message);
    case Returned(result) =>
      FatalIsTerminal(result);
      if Fatal(result) {
        FatalToolIsTold(r, turn, p, heard, response, out.p, result);
      } else {
        ReturnedGoesOn(r, turn, p, heard, response, out.p, result);
      }
  }

  lemma {:induction false} RunFromIsTold(r: Run, turn: nat, p: Progress, heard: seq<seq<Message>>)
    requires turn <= r.view.input.maxTurns && OnTheWay(r, turn, p, heard) && |p.messages| > 0
    ensures Told(r, RunFrom(r, turn, p, heard))
    decreases r.view.input.maxTurns - turn
  {
    if turn == r.view.input.maxTurns {
      OutOfTurnsIsTold(r, p, heard);
    } else {
      var out := Turn(r, turn, p);
      TurnIsTold(r, turn, p, heard);
      if out.ending.None? {
        RunFromIsTold(r, turn + 1, out.p, heard + [p.messages]);
      }
    }
  }

  /** Every run: its result tells what was asked, answered and executed, and which one thing ended it. */
  lemma EndingIsTold(r: Run)
    ensures Told(r, PromptLoopOf(r))
  {
    RunFromIsTold(r, 0, Start(r), []);
  }

  // ---------------------------------------------------------------- the transcript, message by message

  /** The assistant message of answer k; it carries the id of the call it asks for, if that was made. */
  predicate Quotes(m: Message, response: ModelResponse, callId: Option<string>) {
    && m.role == Assistant && m.content == response.outputText && m.name == Some(response.modelId)
    && m.toolCallId == callId && m.metadata == map[]
  }

  predicate Reports(w: World, m: Message, result: ToolResult, callId: string) {
    && m.role == Tool && m.content == w.render(result) && m.name == Some(result.toolName)
    && m.toolCallId == Some(callId) && m.metadata == map["arguments_hash" := result.argumentsHash]
  }

  function CallId(k: nat): string {
    "tool_call_" + Decimal.Padded(k + 1, 4)
  }

  /** The transcript opens with the protocol and the task. */
  predicate Opens(input: PromptInput, w: World, messages: seq<Message>) {
    && |messages| >= 2
    && messages[0].role == System && messages[0].content == w.systemPrompt(input) && messages[0].name == Some("agentenv")
    && messages[0].toolCallId == None && messages[0].metadata == map["source" := "agentenv_protocol"]
    && messages[1].role == User && messages[1].content == w.userPrompt(input) && messages[1].name == Some("task_view")
    && messages[1].toolCallId == None && messages[1].metadata == map["source" := "agent_task_view", "task_id" := input.taskId]
  }

  predicate ExchangeAt(w: World, res: PromptLoopResult, k: nat)
    requires |res.messages| == 2 + |res.modelResponses| + |res.toolResults|
    requires k < |res.toolResults| <= |res.modelResponses|
  {
    Quotes(res.messages[2 + 2 * k], res.modelResponses[k], Some(CallId(k))) && Reports(w, res.messages[3 + 2 * k], res.toolResults[k], CallId(k))
  }

  /** The two prompts, then each answer with the report of the call it asked for, then an answer that led to no report. */
  predicate Transcribed(input: PromptInput, w: World, res: PromptLoopResult) {
    && |res.messages| == 2 + |res.modelResponses| + |res.toolResults|
    && |res.toolResults| <= |res.modelResponses| <= |res.toolResults| + 1
    && Opens(input, w, res.messages)
    && (forall k :: 0 <= k < |res.toolResults| ==> ExchangeAt(w, res, k))
    && (|res.modelResponses| > |res.toolResults| ==>
          Quotes(res.messages[|res.messages| - 1], res.modelResponses[|res.toolResults|],
                 if res.status == LoopOrchestratorError then Some(CallId(|res.toolResults|)) else None))
  }

  lemma OpeningIsTold(r: Run, messages: seq<Message>)
    requires |messages| >= 2 && messages[..2] == InitialMessages(r.view.input, r.w)
    ensures Opens(r.view.input, r.w, messages)
  {
    assert messages[0] == messages[..2][0] && messages[1] == messages[..2][1];
  }

  lemma RequestIsTold(w: World, k: nat, m: Message, response: ModelResponse)
    ensures m == PromptLoopLaws.ToolRequest(w, k, response) ==> Quotes(m, response, Some(CallId(k)))
    ensures m == AssistantMessage(w.newId(2 + 2 * k), response) ==> Quotes(m, response, None)
  {
  }

  lemma ReplyIsTold(w: World, k: nat, m: Message, result: ToolResult)
    requires m == PromptLoopLaws.ToolReply(w, k, result)
    ensures Reports(w, m, result, CallId(k))
  {
  }

  lemma CountsAreTold(maxTurns: nat, res: PromptLoopResult)
    requires PromptLoopLaws.CountsFit(maxTurns, res)
    ensures |res.modelResponses| <= |res.toolResults| + 1
  {
  }

  lemma ExchangesAreTold(r: Run, res: PromptLoopResult)
    requires PromptLoopLaws.Exchanges(r, res.messages, res.modelResponses, res.toolResults)
    requires |res.messages| == 2 + |res.modelResponses| + |res.toolResults|
    ensures Opens(r.view.input, r.w, res.messages)
    ensures |res.toolResults| <= |res.modelResponses| && forall k :: 0 <= k < |res.toolResults| ==> ExchangeAt(r.w, res, k)
  {
    OpeningIsTold(r, res.messages);
    forall k | 0 <= k < |res.toolResults| ensures ExchangeAt(r.w, res, k) {
      RequestIsTold(r.w, k, res.messages[2 + 2 * k], res.modelResponses[k]);
      ReplyIsTold(r.w, k, res.messages[3 + 2 * k], res.toolResults[k]);
    }
  }

  lemma DanglingIsTold(r: Run, res: PromptLoopResult)
    requires PromptLoopLaws.DanglingRequest(r, res) && |res.modelResponses| == |res.toolResults| + 1
    requires |res.messages| == 2 + |res.modelResponses| + |res.toolResults|
    ensures Quotes(res.messages[|res.messages| - 1], res.modelResponses[|res.toolResults|],
                   if res.status == LoopOrchestratorError then Some(CallId(|res.toolResults|)) else None)
  {
    var n := |res.toolResults|;
    RequestIsTold(r.w, n, res.messages[2 + 2 * n], res.modelResponses[n]);
  }

  lemma LawIsTold(r: Run, res: PromptLoopResult)
    requires PromptLoopLaws.Exchanges(r, res.messages, res.modelResponses, res.toolResults) && PromptLoopLaws.DanglingRequest(r, res)
    requires |res.messages| == 2 + |res.modelResponses| + |res.toolResults| && |res.modelResponses| <= |res.toolResults| + 1
    ensures Transcribed(r.view.input, r.w, res)
  {
    ExchangesAreTold(r, res);
    if |res.modelResponses| > |res.toolResults| {
      DanglingIsTold(r, res);
    }
  }

  lemma TranscriptIsTold(r: Run)
    ensures Transcribed(r.view.input, r.w, PromptLoopOf(r).result)
  {
    PromptLoopLaws.PromptLoopLaw(r);
    CountsAreTold(r.view.input.maxTurns, PromptLoopOf(r).result);
    LawIsTold(r, PromptLoopOf(r).result);
  }

  // ---------------------------------------------------------------- token usage

  function Plus(a: Option<nat>, b: Option<nat>): Option<nat> {
    if a.Some? && b.Some? then Some(a.value + b.value) else None
  }

  /** What the answers used together, unknown as soon as one of them does not say. */
  function Used(responses: seq<ModelResponse>): TokenUsage {
    if |responses| == 0 then TokenUsage(Some(0), Some(0), Some(0))
    else
      var before, last := Used(responses[..|responses| - 1]), responses[|responses| - 1];
      TokenUsage(Plus(before.promptTokens, last.promptTokens), Plus(before.completionTokens, last.completionTokens),
                 Plus(before.totalTokens, last.totalTokens))
  }

  lemma {:induction false} SumsAreTold(rs: seq<ModelResponse>)
    ensures TokenUsage(KnownSum(PromptCounts(rs)), KnownSum(CompletionCounts(rs)), KnownSum(TotalCounts(rs))) == Used(rs)
  {
    if |rs| > 0 {
      var n := |rs| - 1;
      assert PromptCounts(rs)[..n] == PromptCounts(rs[..n]);
      assert CompletionCounts(rs)[..n] == CompletionCounts(rs[..n]);
      assert TotalCounts(rs)[..n] == TotalCounts(rs[..n]);
      SumsAreTold(rs[..n]);
    }
  }

  lemma {:induction false} UsageFrom(r: Run, turn: nat, p: Progress, heard: seq<seq<Message>>)
    requires turn <= r.view.input.maxTurns
    ensures var res := RunFrom(r, turn, p, heard).result; res.tokenUsage == UsageOf(res.modelResponses)
    decreases r.view.input.maxTurns - turn
  {
    if turn < r.view.input.maxTurns && Turn(r, turn, p).ending.None? {
      UsageFrom(r, turn + 1, Turn(r, turn, p).p, heard + [p.messages]);
    }
  }

  /** A run without an answer knows nothing of tokens; any other adds up what its answers say, each count on its own. */
  lemma UsageIsTold(r: Run)
    ensures var res := PromptLoopOf(r).result;
      res.tokenUsage == if res.modelResponses == [] then TokenUsage(None, None, None) else Used(res.modelResponses)
  {
    UsageFrom(r, 0, Start(r), []);
    SumsAreTold(PromptLoopOf(r).result.modelResponses);
  }
}
