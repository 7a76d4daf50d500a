/**
 What a finished agent attempt answers: which failures become which status, with which error, and what its final
 manifest, its result and its error report then say on disk.
 */
module RunAnswers {
  import opened Wrappers
  import opened AgentAttempt
  import PromptLoop
  import Scorer = ScorerAttempt
  import CompletedAttempt
  import AttemptRecovery
  import StoredAttempt

  // ---------------------------------------------------------------- what happened

  predicate Raised(g: Generation) {
    g.errorDetails.Some?
  }

  predicate LoopEnded(g: Generation, status: PromptLoop.LoopStatus) {
    g.errorDetails.None? && g.loop.Some? && g.loop.value.status == status
  }

  /** The model or its tools failed, not the harness. */
  predicate LoopFailed(g: Generation) {
    || LoopEnded(g, PromptLoop.MaxTurnsExceeded) || LoopEnded(g, PromptLoop.ModelError) || LoopEnded(g, PromptLoop.InvalidModelOutput)
    || LoopEnded(g, PromptLoop.InvalidShortcutAttempted) || LoopEnded(g, PromptLoop.TerminalToolError)
  }

  /** The candidate could be read back unchanged and the scorer came back with an attempt. */
  predicate ScoringReturned(h: Harness, g: Generation, readBack: Option<string>, seed: Seed) {
    && readBack.Some? && h.hashDiff(readBack.value) == h.hashDiff(g.candidatePatch)
    && h.prepareScoring(g.taskManifestPath, readBack.value, seed).Done?
  }

  /** The exception scoring let out. */
  predicate ScoringThrew(h: Harness, g: Generation, readBack: Option<string>, seed: Seed, cls: string, message: string) {
    if readBack.None? then cls == "FileNotFoundError" && message == "candidate patch"
    else if h.hashDiff(readBack.value) != h.hashDiff(g.candidatePatch) then
      cls == "ValueError" && message == "Scoring candidate differs from generated candidate"
    else
      var prepared := h.prepareScoring(g.taskManifestPath, readBack.value, seed);
      || prepared == Scorer.Threw(Scorer.Raised(cls, message))
      || (prepared == Scorer.Threw(Scorer.TimeoutExpired) && cls == "TimeoutExpired" && message == "timed out")
  }

  // ---------------------------------------------------------------- the status

  /** Each of the three statuses has its condition. */
  predicate StatusTold(h: Harness, g: Generation, readBack: Option<string>, seed: Seed, status: RunStatus) {
    && (status == AgentLoopFailed <==> LoopFailed(g))
    && (status == Scored <==> LoopEnded(g, PromptLoop.Completed) && ScoringReturned(h, g, readBack, seed))
    && (status == OrchestratorError <==>
          || Raised(g) || LoopEnded(g, PromptLoop.LoopOrchestratorError)
          || (LoopEnded(g, PromptLoop.Completed) && !ScoringReturned(h, g, readBack, seed)))
  }

  // ---------------------------------------------------------------- the error

  predicate Blames(run: AgentTaskRun, cls: Option<string>, message: Option<string>, details: Option<ErrorDetails>) {
    run.result.errorClass == cls && run.result.errorMessage == message && run.errorDetails == details
  }

  /** The error is the first exception, or what the loop ended with; a scored run has none. */
  ghost predicate ErrorTold(h: Harness, g: Generation, readBack: Option<string>, seed: Seed, run: AgentTaskRun) {
    && (Raised(g) ==> Blames(run, Some(g.errorDetails.value.errorClass), Some(g.errorDetails.value.message), g.errorDetails))
    && (!Raised(g) && g.loop.Some? && g.loop.value.status != PromptLoop.Completed ==>
          Blames(run, g.loop.value.errorClass, g.loop.value.errorMessage, None))
    && (LoopEnded(g, PromptLoop.Completed) && ScoringReturned(h, g, readBack, seed) ==> Blames(run, None, None, None))
    && (forall cls, message :: LoopEnded(g, PromptLoop.Completed) && ScoringThrew(h, g, readBack, seed, cls, message) ==>
          Blames(run, Some(cls), Some(message), Some(ErrorDetails(cls, message, h.traceback(seed)))))
  }

  // ---------------------------------------------------------------- the rest

  /** The identity and the start are the generation's, the end is now. */
  predicate IdentityTold(h: Harness, g: Generation, seed: Seed, run: AgentTaskRun) {
    var r := run.result;
    && r.agentAttemptId == g.agentAttemptId && r.taskId == g.taskId && r.taskManifestPath == g.taskManifestPath
    && r.startedAt == g.startedAt && r.endedAt == h.finishedAt(seed) && r.durationMs == h.finishedMs(seed)
    && (r.promptLoopStatus.Some? <==> g.loop.Some?) && (g.loop.Some? ==> r.promptLoopStatus == Some(g.loop.value.status))
    && run.view == g.view && run.loop == g.loop && run.candidatePatch == g.candidatePatch
  }

  /** A completed loop has a candidate, named where it was scored or, when something was raised, where it was generated. */
  predicate CandidateTold(h: Harness, g: Generation, scoringPath: Option<Location>, run: AgentTaskRun) {
    && run.result.candidatePatchHash == (if g.candidatePath.Some? then Some(h.hashDiff(g.candidatePatch)) else None)
    && run.result.candidatePatchPath ==
         if LoopEnded(g, PromptLoop.Completed) && scoringPath.Some? then scoringPath else g.candidatePath
  }

  /** The scorer's attempt is there exactly when the run is scored. */
  predicate AttemptTold(h: Harness, g: Generation, readBack: Option<string>, seed: Seed, run: AgentTaskRun) {
    if LoopEnded(g, PromptLoop.Completed) && ScoringReturned(h, g, readBack, seed) then
      var attempt := Scorer.Attempt(h.prepareScoring(g.taskManifestPath, readBack.value, seed).value);
      run.attemptRun == Some(attempt) && run.result.attemptResult == Some(attempt.result)
    else run.attemptRun == None && run.result.attemptResult == None
  }

  ghost predicate Told(h: Harness, g: Generation, scoringPath: Option<Location>, readBack: Option<string>, seed: Seed, run: AgentTaskRun) {
    && StatusTold(h, g, readBack, seed, run.result.status) && ErrorTold(h, g, readBack, seed, run)
    && IdentityTold(h, g, seed, run) && CandidateTold(h, g, scoringPath, run) && AttemptTold(h, g, readBack, seed, run)
  }

  lemma ScoreIsTold(h: Harness, g: Generation, readBack: Option<string>, seed: Seed)
    ensures var outcome := Score(h, g.taskManifestPath, readBack, g.candidatePatch, seed);
      if ScoringReturned(h, g, readBack, seed) then
        outcome == ScoringDone(Scorer.Attempt(h.prepareScoring(g.taskManifestPath, readBack.value, seed).value))
      else
        && outcome.ScoringRaised?
        && forall cls, message :: ScoringThrew(h, g, readBack, seed, cls, message) ==>
             outcome.details == ErrorDetails(cls, message, h.traceback(seed))
  {
  }

  /** Whatever generation and scoring come to, the finished run says so. */
  lemma FinishIsTold(h: Harness, g: Generation, scoringPath: Option<Location>, readBack: Option<string>, seed: Seed)
    requires WellFormed(g)
    ensures Told(h, g, scoringPath, readBack, seed, Finish(h, g, scoringPath, readBack, seed))
  {
    ScoreIsTold(h, g, readBack, seed);
  }

  // ---------------------------------------------------------------- on disk

  /** run.json: the result, its error redacted. */
  predicate ResultStored(h: Harness, d: Dir, r: RunResult) {
    && RunJson in d && d[RunJson].RunFile?
    && var stored := d[RunJson].run;
       && stored.agentAttemptId == r.agentAttemptId && stored.taskId == r.taskId && stored.taskManifestPath == r.taskManifestPath
       && stored.status == r.status && stored.promptLoopStatus == r.promptLoopStatus
       && stored.candidatePatchPath == r.candidatePatchPath && stored.candidatePatchHash == r.candidatePatchHash
       && stored.attemptResult == r.attemptResult
       && stored.startedAt == r.startedAt && stored.endedAt == r.endedAt && stored.durationMs == r.durationMs
       && StoredAttempt.RedactedOpt(h, stored.errorClass, r.errorClass) && StoredAttempt.RedactedOpt(h, stored.errorMessage, r.errorMessage)
  }

  predicate Names(m: AttemptRecord, name: ArtifactName, slot: Slot, present: bool) {
    (name in m.artifacts <==> present) && (name in m.artifacts ==> m.artifacts[name] == slot)
  }

  /** The files a final manifest names, and where each of them is. */
  predicate ArtifactsNamed(m: AttemptRecord, plan: Plan, run: AgentTaskRun, owns: bool) {
    InputsNamed(m, plan, owns) && OutcomesNamed(m, run)
  }

  predicate InputsNamed(m: AttemptRecord, plan: Plan, owns: bool) {
    && Names(m, NRun, RunJson, true) && Names(m, NError, ErrorTxt, true) && Names(m, NDecoding, DecodingJson, true)
    && Names(m, NGeneration, GenerationManifest, owns) && Names(m, NModel, ModelJson, plan.model.Some?)
    && Names(m, NControlScript, ControlScriptJson, plan.script.Some?)
  }

  predicate OutcomesNamed(m: AttemptRecord, run: AgentTaskRun) {
    && Names(m, NView, ViewJson, run.view.Some?) && Names(m, NLoop, LoopJson, run.loop.Some?)
    && Names(m, NCandidate, CandidatePatch, run.result.candidatePatchHash.Some?)
    && Names(m, NAttempt, AttemptFolder, run.attemptRun.Some?)
  }

  /** The final manifest. */
  predicate RecordStored(d: Dir, plan: Plan, run: AgentTaskRun, owns: bool) {
    && FinalManifest in d && d[FinalManifest].RecordFile?
    && var m, r := d[FinalManifest].record, run.result;
       && m.agentAttemptId == r.agentAttemptId && m.taskId == r.taskId && m.taskManifestPath == r.taskManifestPath
       && m.evalAttempt == plan.evalAttempt && m.status == r.status && m.promptLoopStatus == r.promptLoopStatus
       && (m.attemptStatus.Some? <==> r.attemptResult.Some?)
       && (r.attemptResult.Some? ==> m.attemptStatus == Some(r.attemptResult.value.status))
       && ArtifactsNamed(m, plan, run, owns)
  }

  /** The error report and the scorer's files. */
  predicate EvidenceStored(d: Dir, run: AgentTaskRun) {
    && ErrorTxt in d && d[ErrorTxt] == ErrorFile(run.errorDetails)
    && (run.attemptRun.Some? ==>
          && AttemptFolder in d && d[AttemptFolder].Folder?
          && forall f: ScorerFile :: Nested(f) in d && d[Nested(f)] == ScorerPayload(f, run.attemptRun.value))
  }

  predicate RunStored(h: Harness, d: Dir, plan: Plan, run: AgentTaskRun, owns: bool) {
    ResultStored(h, d, run.result) && RecordStored(d, plan, run, owns) && EvidenceStored(d, run)
  }

  /** What reading the candidate back gives when nobody has touched it. */
  function OwnCandidate(g: Generation): Option<string> {
    if g.candidatePath.Some? then Some(g.candidatePatch) else None
  }

  /** A published candidate is scored from the attempt directory. */
  function ScoredFrom(g: Generation, owns: bool): Option<Location> {
    if owns && LoopEnded(g, PromptLoop.Completed) then Some(InAttemptDirectory) else None
  }

  /** The directory shows a run that tells what came of the generation. */
  ghost predicate Shows(h: Harness, d: Dir, plan: Plan, g: Generation, owns: bool, seed: Seed) {
    exists run :: Told(h, g, ScoredFrom(g, owns), OwnCandidate(g), seed, run) && RunStored(h, d, plan, run, owns)
  }

  lemma ResultIsStored(h: Harness, d: Dir, r: RunResult)
    requires RunJson in d && d[RunJson] == RunFile(RedactResult(h, r))
    ensures ResultStored(h, d, r)
  {
  }

  lemma IsNamed(m: AttemptRecord, names: set<ArtifactName>, name: ArtifactName)
    requires m.artifacts == map n | n in names :: RefOf(n)
    ensures Names(m, name, RefOf(name), name in names)
  {
  }

  lemma AreNamed(m: AttemptRecord, names: set<ArtifactName>, plan: Plan, run: AgentTaskRun, owns: bool)
    requires m.artifacts == map n | n in names :: RefOf(n)
    requires NRun in names && NError in names && NDecoding in names
    requires (NGeneration in names <==> owns) && (NModel in names <==> plan.model.Some?) && (NControlScript in names <==> plan.script.Some?)
    requires (NView in names <==> run.view.Some?) && (NLoop in names <==> run.loop.Some?)
    requires (NCandidate in names <==> run.result.candidatePatchHash.Some?) && (NAttempt in names <==> run.attemptRun.Some?)
    ensures ArtifactsNamed(m, plan, run, owns)
  {
    IsNamed(m, names, NRun);
    IsNamed(m, names, NError);
    IsNamed(m, names, NDecoding);
    IsNamed(m, names, NGeneration);
    IsNamed(m, names, NModel);
    IsNamed(m, names, NControlScript);
    IsNamed(m, names, NView);
    IsNamed(m, names, NLoop);
    IsNamed(m, names, NCandidate);
    IsNamed(m, names, NAttempt);
  }

  lemma IncludedIsNamed(plan: Plan, run: AgentTaskRun, owns: bool)
    ensures ArtifactsNamed(RecordOfAttempt(plan, run, owns), plan, run, owns)
  {
    CompletedAttempt.IncludedAre(plan, run, owns);
    AreNamed(RecordOfAttempt(plan, run, owns), IncludedNames(plan, run, owns), plan, run, owns);
  }

  lemma RecordIsStored(d: Dir, plan: Plan, run: AgentTaskRun, owns: bool)
    requires FinalManifest in d && d[FinalManifest] == RecordFile(RecordOfAttempt(plan, run, owns))
    ensures RecordStored(d, plan, run, owns)
  {
    IncludedIsNamed(plan, run, owns);
  }

  lemma OutputsAreStored(h: Harness, d: Dir, plan: Plan, run: AgentTaskRun, owns: bool)
    requires CompletedAttempt.OutputsPresent(h, d, plan, run, owns)
    ensures RunStored(h, d, plan, run, owns)
  {
    ResultIsStored(h, d, run.result);
    RecordIsStored(d, plan, run, owns);
  }

  lemma PublishedIsTold(h: Harness, g: Generation, seed: Seed)
    requires WellFormed(g) && Terminal(g)
    ensures Told(h, g, ScoredFrom(g, true), OwnCandidate(g), seed, FinishPublished(h, g, seed))
  {
    FinishIsTold(h, g, ScoredFrom(g, true), OwnCandidate(g), seed);
    assert FinishPublished(h, g, seed) == Finish(h, g, ScoredFrom(g, true), OwnCandidate(g), seed);
  }

  lemma FinalDirShows(h: Harness, plan: Plan, g: Generation, seed: Seed)
    requires AttemptRecovery.Published(plan, g)
    ensures Shows(h, AttemptRecovery.FinalDir(h, plan, g, seed), plan, g, true, seed)
  {
    var run := FinishPublished(h, g, seed);
    PublishedIsTold(h, g, seed);
    CompletedAttempt.OutputsLand(h, AttemptRecovery.Committed(h, plan, g), plan, run, true);
    OutputsAreStored(h, AttemptRecovery.FinalDir(h, plan, g, seed), plan, run, true);
  }

  /** Wherever a fresh run is cut: a visible final manifest, and the result beside it, say what happened. */
  lemma FreshRunShows(h: Harness, plan: Plan, g: Generation, seed: Seed, k: nat)
    requires Allowed(plan) && WellFormed(g) && k <= |FreshOps(h, plan, g, seed)|
    requires FinalManifest in CrashAfter(map[], FreshOps(h, plan, g, seed), k)
    ensures Shows(h, CrashAfter(map[], FreshOps(h, plan, g, seed), k), plan, g, Declared(plan), seed)
  {
    CompletedAttempt.FinalManifestIsLast(h, plan, g, seed, k);
    var ops := FreshOps(h, plan, g, seed);
    assert ops[..|ops|] == ops;
    if Declared(plan) {
      AttemptRecovery.UninterruptedIsFinal(h, plan, g, seed);
      FinalDirShows(h, plan, g, seed);
    } else {
      var run := Finish(h, g, ScoredFrom(g, false), OwnCandidate(g), seed);
      FinishIsTold(h, g, ScoredFrom(g, false), OwnCandidate(g), seed);
      CompletedAttempt.OutputsLand(h, map[], plan, run, false);
      OutputsAreStored(h, Exec(map[], ops), plan, run, false);
    }
  }

  /** So it does after a crash and any number of resumes: what happened in one of them. */
  lemma ResumedRunShows(h: Harness, plan: Plan, g: Generation, seed: Seed, k: nat, sessions: seq<AttemptRecovery.Session>)
    requires AttemptRecovery.Published(plan, g) && AttemptRecovery.StableRedaction(h) && AttemptRecovery.AllCover(sessions)
    requires |GenerationOps(h, plan, g)| <= k <= |FreshOps(h, plan, g, seed)|
    ensures var d := AttemptRecovery.Resumed(h, CrashAfter(map[], FreshOps(h, plan, g, seed), k), sessions);
      FinalManifest in d ==> exists last :: Shows(h, d, plan, g, true, last)
  {
    var start := CrashAfter(map[], FreshOps(h, plan, g, seed), k);
    AttemptRecovery.FreshCrashIsSettled(h, plan, g, seed, k);
    AttemptRecovery.ResumedStaysSettled(h, plan, g, start, sessions);
    var d := AttemptRecovery.Resumed(h, start, sessions);
    if FinalManifest in d {
      assert !AttemptRecovery.Midway(d, AttemptRecovery.Committed(h, plan, g));
      var last :| d == AttemptRecovery.FinalDir(h, plan, g, last);
      FinalDirShows(h, plan, g, last);
    }
  }

  /** Read straight off the final manifest: its status is one of three, by what happened. */
  lemma ManifestTellsStatus(h: Harness, d: Dir, plan: Plan, g: Generation, owns: bool, seed: Seed)
    requires WellFormed(g) && Shows(h, d, plan, g, owns, seed)
    ensures FinalManifest in d && d[FinalManifest].RecordFile?
    ensures var status := d[FinalManifest].record.status;
      && (status == AgentLoopFailed <==> LoopFailed(g))
      && (status == Scored <==> LoopEnded(g, PromptLoop.Completed) && h.prepareScoring(g.taskManifestPath, g.candidatePatch, seed).Done?)
      && (status == OrchestratorError <==>
            || Raised(g) || LoopEnded(g, PromptLoop.LoopOrchestratorError)
            || (LoopEnded(g, PromptLoop.Completed) && h.prepareScoring(g.taskManifestPath, g.candidatePatch, seed).Threw?))
  {
  }
}
