/** The model half of an attempt: prepare a workspace, run the prompt loop, render and save the candidate. */
module AgentGeneration {
  import opened Wrappers
  import opened AgentAttempt
  import PromptLoop
  import PromptLoopLaws
  import Scorer = ScorerAttempt

  /** What the outside world answers while one generation runs. */
  datatype Environment = Environment(
    agentAttemptId: string,
    taskManifestPath: string,
    startedAt: string,
    endedAt: string,
    durationMs: nat,
    runRoot: string,
    traceback: string,
    prepared: Scorer.Step<PromptLoop.TaskView>,
    guard: Scorer.Step<()>,
    loop: PromptLoop.World,
    diff: Scorer.Step<string>,
    save: Scorer.Step<()>)

  const UNKNOWN_TASK := "unknown_task"

  /** The loop this generation enters, for a client that has already served `base` calls. */
  function LoopRun(e: Environment, modelId: string, reply: (nat, seq<PromptLoop.Message>) -> PromptLoop.GenerateOutcome, base: nat): PromptLoop.Run
    requires e.prepared.Done?
  {
    PromptLoop.Run(e.prepared.value, modelId, reply, base, e.loop)
  }

  predicate EntersLoop(e: Environment) {
    e.prepared.Done? && e.guard.Done?
  }

  function Details(e: Environment, exn: Scorer.Exn): ErrorDetails {
    match exn
    case TimeoutExpired => ErrorDetails("TimeoutExpired", "timed out", e.traceback)
    case Raised(cls, message) => ErrorDetails(cls, message, e.traceback)
  }

  /** Is this generation the record of environment e whose loop, if entered, ended in `result`? */
  predicate Records(g: Generation, e: Environment, result: Option<PromptLoop.PromptLoopResult>) {
    && (result.Some? <==> EntersLoop(e))
    && (g.agentAttemptId, g.taskManifestPath, g.startedAt, g.endedAt, g.durationMs)
         == (e.agentAttemptId, e.taskManifestPath, e.startedAt, e.endedAt, e.durationMs)
    && g.view == (if e.prepared.Done? then Some(e.prepared.value) else None)
    && g.taskId == (if e.prepared.Done? then e.prepared.value.input.taskId else UNKNOWN_TASK)
    && g.loop == result
    && RecordsCandidate(g, e, result)
    && RecordsFailure(g, e, result)
  }

  /** A candidate exists when the loop completed and its diff was rendered; its path is set just before saving. */
  predicate RecordsCandidate(g: Generation, e: Environment, result: Option<PromptLoop.PromptLoopResult>) {
    var rendered := result.Some? && result.value.status.Completed? && e.diff.Done?;
    && g.candidatePath == (if rendered then Some(InRunRoot(e.runRoot)) else None)
    && g.candidatePatch == (if rendered then e.diff.value else "")
  }

  /** The first exception, if any, among the steps that were reached. */
  predicate RecordsFailure(g: Generation, e: Environment, result: Option<PromptLoop.PromptLoopResult>) {
    var completed := result.Some? && result.value.status.Completed?;
    g.errorDetails ==
      if e.prepared.Threw? then Some(Details(e, e.prepared.exn))
      else if e.guard.Threw? then Some(Details(e, e.guard.exn))
      else if completed && e.diff.Threw? then Some(Details(e, e.diff.exn))
      else if completed && e.save.Threw? then Some(Details(e, e.save.exn))
      else None
  }

  /** The generation that records e. */
  function RecordFor(e: Environment, result: Option<PromptLoop.PromptLoopResult>): (g: Generation)
    requires result.Some? <==> EntersLoop(e)
    ensures Records(g, e, result)
  {
    var completed := result.Some? && result.value.status.Completed?;
    var rendered := completed && e.diff.Done?;
    Generation(e.agentAttemptId, e.taskManifestPath,
               if e.prepared.Done? then e.prepared.value.input.taskId else UNKNOWN_TASK,
               e.startedAt, e.endedAt, e.durationMs,
               if e.prepared.Done? then Some(e.prepared.value) else None, result,
               if rendered then e.diff.value else "",
               if rendered then Some(InRunRoot(e.runRoot)) else None,
               if e.prepared.Threw? then Some(Details(e, e.prepared.exn))
               else if e.guard.Threw? then Some(Details(e, e.guard.exn))
               else if completed && e.diff.Threw? then Some(Details(e, e.diff.exn))
               else if completed && e.save.Threw? then Some(Details(e, e.save.exn))
               else None)
  }

  /** The locals of the try block, still readable after an exception. */
  class Progress {
    var view: Option<PromptLoop.TaskView>
    var loop: Option<PromptLoop.PromptLoopResult>
    var candidatePatch: string
    var candidatePath: Option<Location>

    constructor ()
      ensures view == None && loop == None && candidatePatch == "" && candidatePath == None
    {
      view, loop, candidatePatch, candidatePath := None, None, "", None;
    }

    /** Runs the try block; Some(exn) is what it let out. */
    method Steps(e: Environment, client: PromptLoop.ModelClient) returns (failure: Option<Scorer.Exn>)
      requires view == None && loop == None && candidatePatch == "" && candidatePath == None
      modifies this, client
      ensures view == (if e.prepared.Done? then Some(e.prepared.value) else None)
      ensures loop == if EntersLoop(e) then Some(PromptLoop.PromptLoopOf(LoopRun(e, client.modelId, client.reply, old(client.calls))).result) else None
      ensures !EntersLoop(e) ==> client.calls == old(client.calls)
      ensures EntersLoop(e) ==>
        client.calls == old(client.calls) + |PromptLoop.PromptLoopOf(LoopRun(e, client.modelId, client.reply, old(client.calls))).histories|
      ensures forall g: Generation ::
        g.candidatePatch == candidatePatch && g.candidatePath == candidatePath
          && g.errorDetails == (if failure.Some? then Some(Details(e, failure.value)) else None)
        ==> RecordsCandidate(g, e, loop) && RecordsFailure(g, e, loop)
    {
      if e.prepared.Threw? { return Some(e.prepared.exn); }
      view := Some(e.prepared.value);
      if e.guard.Threw? { return Some(e.guard.exn); }
      var result := PromptLoop.RunPromptLoop(e.prepared.value, client, e.loop);
      loop := Some(result);
      if result.status.Completed? {
        if e.diff.Threw? { return Some(e.diff.exn); }
        candidatePatch := e.diff.value;
        candidatePath := Some(InRunRoot(e.runRoot));
        if e.save.Threw? { return Some(e.save.exn); }
      }
      return None;
    }
  }

  /** What the client's part of a generation is, if it has one. */
  function ResultFor(e: Environment, modelId: string, reply: (nat, seq<PromptLoop.Message>) -> PromptLoop.GenerateOutcome, base: nat): Option<PromptLoop.PromptLoopResult> {
    if EntersLoop(e) then Some(PromptLoop.PromptLoopOf(LoopRun(e, modelId, reply, base)).result) else None
  }

  method RunAgentGeneration(e: Environment, client: PromptLoop.ModelClient) returns (g: Generation)
    modifies client
    ensures Records(g, e, ResultFor(e, client.modelId, client.reply, old(client.calls)))
    ensures !EntersLoop(e) ==> client.calls == old(client.calls)
  {
    var state := new Progress();
    var failure := state.Steps(e, client);
    g := Generation(e.agentAttemptId, e.taskManifestPath,
                    if state.view.Some? then state.view.value.input.taskId else UNKNOWN_TASK,
                    e.startedAt, e.endedAt, e.durationMs, state.view, state.loop,
                    state.candidatePatch, state.candidatePath,
                    if failure.Some? then Some(Details(e, failure.value)) else None);
  }

  lemma LoopKeepsTaskId(r: PromptLoop.Run, turn: nat, p: PromptLoop.Progress, heard: seq<seq<PromptLoop.Message>>)
    requires turn <= r.view.input.maxTurns
    ensures PromptLoop.RunFrom(r, turn, p, heard).result.taskId == r.view.input.taskId
    decreases r.view.input.maxTurns - turn
  {
  }

  /** Whatever the environment does, the generation handed on is well formed. */
  lemma GenerationIsWellFormed(g: Generation, e: Environment, modelId: string,
                               reply: (nat, seq<PromptLoop.Message>) -> PromptLoop.GenerateOutcome, base: nat)
    requires Records(g, e, ResultFor(e, modelId, reply, base))
    requires EntersLoop(e) ==> PromptLoopLaws.HonestWorld(LoopRun(e, modelId, reply, base))
    ensures WellFormed(g)
    ensures Terminal(g) <==>
      EntersLoop(e) && (g.loop.value.status.Completed? ==> e.diff.Done? && e.save.Done?)
  {
    if EntersLoop(e) {
      var r := LoopRun(e, modelId, reply, base);
      PromptLoopLaws.ResultIsAccepted(r);
      LoopKeepsTaskId(r, 0, PromptLoop.Start(r), []);
    }
  }
}
