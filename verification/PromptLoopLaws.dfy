/** What holds of every finished prompt loop, whatever the model and the tools answer. */
module PromptLoopLaws {
  import opened Wrappers
  import opened PromptLoop

  /** Message k of the transcript for the k-th completed tool exchange. */
  function ToolRequest(w: World, k: nat, response: ModelResponse): Message {
    AssistantMessage(w.newId(2 + 2 * k), response).(toolCallId := Some(ToolCallId(k + 1)))
  }

  function ToolReply(w: World, k: nat, result: ToolResult): Message {
    ToolMessage(w, w.newId(3 + 2 * k), result, ToolCallId(k + 1))
  }

  /** The first n exchanges are (request, reply) pairs that share the id of exchange number k + 1. */
  predicate Exchanges(r: Run, messages: seq<Message>, responses: seq<ModelResponse>, toolResults: seq<ToolResult>) {
    && |responses| >= |toolResults| && |messages| >= 2 + 2 * |toolResults|
    && messages[..2] == InitialMessages(r.view.input, r.w)
    && forall k :: 0 <= k < |toolResults| ==>
         && messages[2 + 2 * k] == ToolRequest(r.w, k, responses[k])
         && messages[3 + 2 * k] == ToolReply(r.w, k, toolResults[k])
  }

  predicate AllRecoverable(toolResults: seq<ToolResult>) {
    forall k :: 0 <= k < |toolResults| ==> !IsTerminalToolError(toolResults[k])
  }

  /** State between two turns. */
  predicate Between(r: Run, turn: nat, p: Progress) {
    && |p.responses| == |p.toolResults| == |p.calls| == turn
    && |p.messages| == 2 + 2 * turn
    && Exchanges(r, p.messages, p.responses, p.toolResults)
    && AllRecoverable(p.toolResults)
  }

  /** How the terminal status fixes turns, responses and tool results. */
  predicate CountsFit(maxTurns: nat, res: PromptLoopResult) {
    var turns, answers, results := res.turnsExecuted, |res.modelResponses|, |res.toolResults|;
    match res.status
    case MaxTurnsExceeded => turns == answers == results == maxTurns
    case TerminalToolError => turns == answers == results
    case ModelError => results == turns - 1 && answers in {turns - 1, turns}
    case _ => answers == turns && results == turns - 1
  }

  /** The message left over when the last response led to no tool reply. */
  predicate DanglingRequest(r: Run, res: PromptLoopResult) {
    var n := |res.toolResults|;
    |res.modelResponses| == n + 1 && |res.messages| == 2 + 2 * n + 1 ==>
      res.messages[2 + 2 * n] ==
        if res.status.LoopOrchestratorError? then ToolRequest(r.w, n, res.modelResponses[n])
        else AssistantMessage(r.w.newId(2 + 2 * n), res.modelResponses[n])
  }

  predicate LastToolDecides(res: PromptLoopResult) {
    var n := |res.toolResults|;
    && AllRecoverable(if n == 0 then [] else res.toolResults[..n - 1])
    && (n > 0 ==> (IsTerminalToolError(res.toolResults[n - 1]) <==> res.status.TerminalToolError?))
  }

  /** Every list handed to the model is the transcript as it stood: a prefix of the final one. */
  predicate HistoriesArePrefixes(ended: Ended) {
    && |ended.histories| == ended.result.turnsExecuted
    && HeardPrefixes(ended.histories, ended.result.messages)
  }

  predicate TranscriptLaw(r: Run, ended: Ended) {
    var res := ended.result;
    && |res.messages| == 2 + |res.modelResponses| + |res.toolResults|
    && Exchanges(r, res.messages, res.modelResponses, res.toolResults)
    && DanglingRequest(r, res)
    && CountsFit(r.view.input.maxTurns, res)
    && LastToolDecides(res)
    && HistoriesArePrefixes(ended)
  }

  /** One turn keeps the transcript law: either the next between-turns state, or a lawful final result. */
  predicate LawfulTurn(r: Run, turn: nat, before: Progress, out: TurnOutcome) {
    && before.messages <= out.p.messages
    && Exchanges(r, out.p.messages, out.p.responses, out.p.toolResults)
    && match out.ending
       case None => Between(r, turn + 1, out.p)
       case Some(e) =>
         var res := Build(r, turn + 1, out.p, e);
         && |res.messages| == 2 + |res.modelResponses| + |res.toolResults|
         && DanglingRequest(r, res) && CountsFit(r.view.input.maxTurns, res) && LastToolDecides(res)
  }

  function Answered(r: Run, p: Progress, response: ModelResponse): Progress {
    p.(responses := p.responses + [response],
       messages := p.messages + [AssistantMessage(r.w.newId(|p.messages|), response)])
  }

  lemma AnsweredTurn(r: Run, turn: nat, p: Progress, response: ModelResponse, e: Ending)
    requires Between(r, turn, p)
    requires e.status in {ModelError, InvalidModelOutput, Completed, InvalidShortcutAttempted}
    ensures LawfulTurn(r, turn, p, TurnOutcome(Answered(r, p, response), Some(e)))
  {
  }

  lemma UnansweredTurn(r: Run, turn: nat, p: Progress, e: Ending)
    requires Between(r, turn, p) && e.status == ModelError
    ensures LawfulTurn(r, turn, p, TurnOutcome(p, Some(e)))
  {
  }

  lemma RequestOnly(r: Run, turn: nat, p: Progress, tagged: Progress, response: ModelResponse, e: Ending)
    requires Between(r, turn, p) && e.status == LoopOrchestratorError
    requires tagged.messages == p.messages + [ToolRequest(r.w, turn, response)]
    requires tagged.responses == p.responses + [response] && tagged.toolResults == p.toolResults
    ensures LawfulTurn(r, turn, p, TurnOutcome(tagged, Some(e)))
  {
  }

  lemma RequestAndReply(r: Run, turn: nat, p: Progress, tagged: Progress, response: ModelResponse, result: ToolResult)
    requires Between(r, turn, p)
    requires tagged.messages == p.messages + [ToolRequest(r.w, turn, response)]
    requires tagged.responses == p.responses + [response] && tagged.toolResults == p.toolResults
    requires |tagged.calls| == turn + 1
    ensures
      var replied := tagged.(toolResults := p.toolResults + [result],
                             messages := tagged.messages + [ToolReply(r.w, turn, result)]);
      LawfulTurn(r, turn, p, TurnOutcome(replied,
        if IsTerminalToolError(result) then Some(Ending(TerminalToolError, result.errorClass, result.errorMessage)) else None))
  {
    var replied := tagged.(toolResults := p.toolResults + [result],
                           messages := tagged.messages + [ToolReply(r.w, turn, result)]);
    assert Exchanges(r, replied.messages, replied.responses, replied.toolResults);
    assert replied.toolResults[..turn] == p.toolResults;
  }

  /** The assistant message is retagged in place; a reply, if any, follows it. */
  lemma ToolTurnTags(r: Run, turn: nat, p: Progress, response: ModelResponse, call: ToolCall)
    requires |p.messages| == 2 + 2 * turn && |p.toolResults| == turn
    ensures var answered := Answered(r, p, response);
      var tagged := Progress(p.messages + [ToolRequest(r.w, turn, response)], answered.responses, p.toolResults, p.calls + [call]);
      ToolTurn(r.w, answered, call) ==
        match r.w.tool(tagged.calls)
        case WorkspaceHashFailed(cls, message) =>
          TurnOutcome(tagged, Some(Ending(LoopOrchestratorError, Some(cls), Some(r.w.redact(message)))))
        case Returned(result) =>
          TurnOutcome(tagged.(toolResults := p.toolResults + [result],
                              messages := tagged.messages + [ToolReply(r.w, turn, result)]),
                      if IsTerminalToolError(result) then Some(Ending(TerminalToolError, result.errorClass, result.errorMessage)) else None)
  {
    var answered := Answered(r, p, response);
    var last := |answered.messages| - 1;
    assert answered.messages[last := answered.messages[last].(toolCallId := Some(ToolCallId(turn + 1)))]
        == p.messages + [ToolRequest(r.w, turn, response)];
  }

  lemma LawfulToolTurn(r: Run, turn: nat, p: Progress, response: ModelResponse, call: ToolCall)
    requires Between(r, turn, p)
    ensures LawfulTurn(r, turn, p, ToolTurn(r.w, Answered(r, p, response), call))
  {
    ToolTurnTags(r, turn, p, response, call);
    var tagged := Progress(p.messages + [ToolRequest(r.w, turn, response)], Answered(r, p, response).responses, p.toolResults, p.calls + [call]);
    match r.w.tool(tagged.calls)
    case WorkspaceHashFailed(cls, message) =>
      RequestOnly(r, turn, p, tagged, response, Ending(LoopOrchestratorError, Some(cls), Some(r.w.redact(message))));
    case Returned(result) =>
      RequestAndReply(r, turn, p, tagged, response, result);
  }

  lemma TurnIsLawful(r: Run, turn: nat, p: Progress)
    requires Between(r, turn, p)
    ensures LawfulTurn(r, turn, p, Turn(r, turn, p))
  {
    var reply := r.reply(r.base + turn, p.messages);
    var out := Turn(r, turn, p);
    match reply
    case GenerateRaised(cls, message) => UnansweredTurn(r, turn, p, out.ending.value);
    case Replied(response) =>
      var answered := Answered(r, p, response);
      if response.finishReason == StopCriteriaMet {
        assert out == ActionTurn(r.w, answered, response);
        var parsed := r.w.parse(response.outputText);
        if parsed.CallTool? && !r.w.isPrivateReference(parsed.call) {
          LawfulToolTurn(r, turn, p, response, parsed.call);
        } else {
          AnsweredTurn(r, turn, p, response, out.ending.value);
        }
      } else {
        AnsweredTurn(r, turn, p, response, out.ending.value);
      }
  }

  predicate HeardPrefixes(heard: seq<seq<Message>>, messages: seq<Message>) {
    forall k :: 0 <= k < |heard| ==> 2 + 2 * k <= |messages| && heard[k] == messages[..2 + 2 * k]
  }

  lemma HeardGrows(heard: seq<seq<Message>>, before: seq<Message>, after: seq<Message>)
    requires HeardPrefixes(heard, before) && |before| == 2 + 2 * |heard| && before <= after
    ensures HeardPrefixes(heard + [before], after)
  {
    forall k | 0 <= k < |heard| + 1
      ensures 2 + 2 * k <= |after| && (heard + [before])[k] == after[..2 + 2 * k]
    {
      assert before == after[..|before|];
      if k < |heard| {
        assert before[..2 + 2 * k] == after[..2 + 2 * k];
      }
    }
  }

  lemma {:induction false} RunFromLaw(r: Run, turn: nat, p: Progress, heard: seq<seq<Message>>)
    requires turn <= r.view.input.maxTurns
    requires Between(r, turn, p) && |heard| == turn && HeardPrefixes(heard, p.messages)
    ensures TranscriptLaw(r, RunFrom(r, turn, p, heard))
    decreases r.view.input.maxTurns - turn
  {
    if turn < r.view.input.maxTurns {
      var out := Turn(r, turn, p);
      TurnIsLawful(r, turn, p);
      HeardGrows(heard, p.messages, out.p.messages);
      if out.ending.None? {
        RunFromLaw(r, turn + 1, out.p, heard + [p.messages]);
      }
    } else {
      LastRecoverable(p.toolResults);
    }
  }

  lemma LastRecoverable(toolResults: seq<ToolResult>)
    requires AllRecoverable(toolResults)
    ensures |toolResults| > 0 ==> AllRecoverable(toolResults[..|toolResults| - 1]) && !IsTerminalToolError(toolResults[|toolResults| - 1])
  {
  }

  /** The transcript invariant, for every model, every tool behaviour and every turn limit. */
  lemma PromptLoopLaw(r: Run)
    ensures TranscriptLaw(r, PromptLoopOf(r))
  {
    RunFromLaw(r, 0, Start(r), []);
  }

  // ---------------------------------------------------------------- the result is always acceptable

  /** Schema-valid responses and tool results, and a supply of fresh message ids. */
  ghost predicate HonestWorld(r: Run) {
    && (forall i: nat, ms :: r.reply(i, ms).Replied? ==> ValidResponse(r.reply(i, ms).response))
    && (forall calls :: r.w.tool(calls).Returned? ==> ValidToolResult(r.w.tool(calls).result))
    && (forall i: nat, j: nat :: r.w.newId(i) == r.w.newId(j) ==> i == j)
  }

  /** Ids are the supply's, in order, and every response obeys its schema. */
  predicate Sourced(r: Run, p: Progress) {
    && (forall i :: 0 <= i < |p.messages| ==> p.messages[i].id == r.w.newId(i))
    && (forall x :: x in p.responses ==> ValidResponse(x))
  }

  /** Error fields as the terminal status demands them. */
  predicate EndingIsValid(e: Ending) {
    if e.status.Completed? then e.errorClass.None? && e.errorMessage.None? else e.errorClass.Some?
  }

  predicate OutcomeIsSourced(r: Run, out: TurnOutcome) {
    && Sourced(r, out.p) && |out.p.messages| > 0
    && (out.ending.Some? ==> EndingIsValid(out.ending.value))
  }

  lemma ToolTurnStaysSourced(r: Run, p: Progress, call: ToolCall)
    requires HonestWorld(r) && Sourced(r, p) && |p.messages| > 0
    ensures OutcomeIsSourced(r, ToolTurn(r.w, p, call))
  {
    var executed := r.w.tool(p.calls + [call]);
    assert executed.Returned? ==> ValidToolResult(executed.result);
  }

  lemma ActionTurnStaysSourced(r: Run, p: Progress, response: ModelResponse)
    requires HonestWorld(r) && Sourced(r, p) && |p.messages| > 0
    ensures OutcomeIsSourced(r, ActionTurn(r.w, p, response))
  {
    var parsed := r.w.parse(response.outputText);
    if parsed.CallTool? {
      ToolTurnStaysSourced(r, p, parsed.call);
    }
  }

  lemma AnsweredIsSourced(r: Run, p: Progress, response: ModelResponse)
    requires Sourced(r, p) && ValidResponse(response)
    ensures Sourced(r, Answered(r, p, response))
  {
  }

  lemma RaisedTurnIsSourced(r: Run, turn: nat, p: Progress)
    requires Sourced(r, p) && |p.messages| > 0 && r.reply(r.base + turn, p.messages).GenerateRaised?
    ensures OutcomeIsSourced(r, Turn(r, turn, p))
  {
  }

  lemma RepliedTurnIsSourced(r: Run, turn: nat, p: Progress, response: ModelResponse)
    requires r.reply(r.base + turn, p.messages) == Replied(response)
    requires Sourced(r, Answered(r, p, response)) && OutcomeIsSourced(r, ActionTurn(r.w, Answered(r, p, response), response))
    ensures OutcomeIsSourced(r, Turn(r, turn, p))
  {
  }

  lemma TurnStaysSourced(r: Run, turn: nat, p: Progress)
    requires HonestWorld(r) && Sourced(r, p) && |p.messages| > 0
    ensures OutcomeIsSourced(r, Turn(r, turn, p))
  {
    var reply := r.reply(r.base + turn, p.messages);
    if reply.GenerateRaised? {
      RaisedTurnIsSourced(r, turn, p);
    } else {
      AnsweredIsSourced(r, p, reply.response);
      ActionTurnStaysSourced(r, Answered(r, p, reply.response), reply.response);
      RepliedTurnIsSourced(r, turn, p, reply.response);
    }
  }

  lemma BuiltIsAccepted(r: Run, turns: nat, p: Progress, e: Ending)
    requires HonestWorld(r) && Sourced(r, p) && EndingIsValid(e)
    ensures ValidPromptLoopResult(Build(r, turns, p, e))
  {
    UsageIsValid(p.responses);
  }

  lemma {:induction false} RunFromIsAccepted(r: Run, turn: nat, p: Progress, heard: seq<seq<Message>>)
    requires HonestWorld(r) && turn <= r.view.input.maxTurns
    requires Sourced(r, p) && |p.messages| > 0
    ensures ValidPromptLoopResult(RunFrom(r, turn, p, heard).result)
    decreases r.view.input.maxTurns - turn
  {
    if turn == r.view.input.maxTurns {
      BuiltIsAccepted(r, turn, p, OUT_OF_TURNS);
    } else {
      var out := Turn(r, turn, p);
      TurnStaysSourced(r, turn, p);
      if out.ending.Some? {
        BuiltIsAccepted(r, turn + 1, out.p, out.ending.value);
      } else {
        RunFromIsAccepted(r, turn + 1, out.p, heard + [p.messages]);
        assert RunFrom(r, turn, p, heard) == RunFrom(r, turn + 1, out.p, heard + [p.messages]);
      }
    }
  }

  /** Constructing the result never fails: unique ids, consistent token usage, error fields as the status demands. */
  lemma ResultIsAccepted(r: Run)
    requires HonestWorld(r)
    ensures ValidPromptLoopResult(PromptLoopOf(r).result)
  {
    RunFromIsAccepted(r, 0, Start(r), []);
  }
}
