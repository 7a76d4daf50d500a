/** The scripted fake model: a cursor over fixed steps that stays put once the script is used up. */
module ScriptedClient {
  import opened Wrappers
  import opened PromptLoop

  datatype ScriptStep = ScriptStep(outputText: string, finishReason: FinishReason, errorClass: Option<string>)

  const RAW_RESPONSE_REF := "fake_model/raw_response.json"

  predicate ValidStep(s: ScriptStep) {
    s.finishReason in {TimedOut, Errored} <==> s.errorClass.Some?
  }

  /** The answer to call number i, counted from the client's creation. */
  function ScriptedResponse(modelId: string, script: seq<ScriptStep>, i: nat, latencyMs: nat): ModelResponse {
    if i >= |script| then
      ModelResponse(modelId, "", Errored, latencyMs, None, None, None, Some("FakeModelScriptExhausted"), None, RAW_RESPONSE_REF)
    else
      ModelResponse(modelId, script[i].outputText, script[i].finishReason, latencyMs, None, None, None,
                    script[i].errorClass, None, RAW_RESPONSE_REF)
  }

  /** The scripted client's answers as a general client gives them: histories are ignored, latencies are the clock's. */
  function ScriptedReply(modelId: string, script: seq<ScriptStep>, latencyMs: nat -> nat)
    : (nat, seq<Message>) -> GenerateOutcome
  {
    (i: nat, messages: seq<Message>) => Replied(ScriptedResponse(modelId, script, i, latencyMs(i)))
  }

  class ScriptedFakeModelClient {
    const modelId: string
    const script: seq<ScriptStep>
    ghost const latencyMs: nat -> nat
    var nextIndex: nat
    ghost var calls: nat
    ghost var seen: seq<seq<Message>>

    ghost predicate Valid()
      reads this
    {
      nextIndex == if calls < |script| then calls else |script|
    }

    constructor (modelId: string, script: seq<ScriptStep>, latencyMs: nat -> nat)
      ensures Valid() && this.modelId == modelId && this.script == script && this.latencyMs == latencyMs
      ensures calls == 0 && seen == []
    {
      this.modelId, this.script, this.latencyMs, nextIndex, calls, seen := modelId, script, latencyMs, 0, 0, [];
    }

    /** What a model client promises of the call, with the script as its reply function: the saturating cursor numbers the steps. */
    method Generate(messages: seq<Message>, latency: nat) returns (r: GenerateOutcome)
      requires Valid() && latency == latencyMs(calls)
      modifies this
      ensures Valid() && r == ScriptedReply(modelId, script, latencyMs)(old(calls), messages)
      ensures calls == old(calls) + 1 && seen == old(seen) + [messages]
    {
      calls, seen := calls + 1, seen + [messages];
      if nextIndex >= |script| {
        return Replied(ModelResponse(modelId, "", Errored, latency, None, None, None, Some("FakeModelScriptExhausted"), None, RAW_RESPONSE_REF));
      }
      var step := script[nextIndex];
      nextIndex := nextIndex + 1;
      r := Replied(ModelResponse(modelId, step.outputText, step.finishReason, latency, None, None, None,
                                 step.errorClass, None, RAW_RESPONSE_REF));
    }
  }

  lemma ScriptedReplyIs(modelId: string, script: seq<ScriptStep>, latencyMs: nat -> nat, i: nat, messages: seq<Message>)
    ensures ScriptedReply(modelId, script, latencyMs)(i, messages) == Replied(ScriptedResponse(modelId, script, i, latencyMs(i)))
  {
  }

  /** Call i is answered by step i, and by one error, over and over, once the script is used up; usage is never known. */
  lemma ScriptIsTold(modelId: string, script: seq<ScriptStep>, latencyMs: nat -> nat, i: nat, messages: seq<Message>)
    ensures var outcome := ScriptedReply(modelId, script, latencyMs)(i, messages);
      && outcome.Replied?
      && var r := outcome.response;
         && r.modelId == modelId && r.latencyMs == latencyMs(i) && r.rawResponseRef == "fake_model/raw_response.json"
         && r.promptTokens == None && r.completionTokens == None && r.totalTokens == None && r.errorMessage == None
         && (i < |script| ==>
               r.outputText == script[i].outputText && r.finishReason == script[i].finishReason && r.errorClass == script[i].errorClass)
         && (i >= |script| ==> r.outputText == "" && r.finishReason == Errored && r.errorClass == Some("FakeModelScriptExhausted"))
  {
    ScriptedReplyIs(modelId, script, latencyMs, i, messages);
  }

  lemma ScriptedResponsesAreValid(modelId: string, script: seq<ScriptStep>, i: nat, latencyMs: nat)
    requires forall s :: s in script ==> ValidStep(s)
    ensures ValidResponse(ScriptedResponse(modelId, script, i, latencyMs))
  {
    if i < |script| {
      assert ValidStep(script[i]);
    }
  }
}
