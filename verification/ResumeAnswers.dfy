/**
 What a resumed suite does not reuse: whatever in a directory contradicts the declaration, or itself, gets the attempt
 rejected, and only a directory with neither manifest is run again.
 */
module ResumeAnswers {
  import opened Wrappers
  import opened AgentAttempt
  import opened CompletedAttempt
  import opened SuiteResume
  import PromptLoop

  /** Which manifests are there decides between running, resuming and reusing; everything else can only reject. */
  lemma PresenceDecides(h: Harness, x: Expectation, path: AttemptPath)
    ensures Classify(h, x, path) == RunAttempt <==>
      path.Absent? || (path.Directory? && FinalManifest !in path.files && GenerationManifest !in path.files)
    ensures Classify(h, x, path) == ReuseCompleted ==> path.Directory? && FinalManifest in path.files
    ensures Classify(h, x, path) == ReuseGeneration ==>
      path.Directory? && FinalManifest !in path.files && GenerationManifest in path.files && x.policy.ModelPolicy?
    ensures path.NotDirectory? ==> Classify(h, x, path) == Reject
  {
  }

  // ---------------------------------------------------------------- a final manifest that cannot be trusted

  /** The final manifest is that of another attempt. */
  predicate OtherAttempt(x: Expectation, m: AttemptRecord) {
    m.evalAttempt != Some(x.evalAttempt) || m.taskId != x.taskId || m.taskManifestPath != x.taskManifestPath
  }

  /** A file the manifest names is not there, or is a folder. */
  predicate SomethingMissing(d: Dir, m: AttemptRecord) {
    exists name :: name in m.artifacts && (m.artifacts[name] !in d || (name != NAttempt && d[m.artifacts[name]].Folder?))
  }

  /** The result beside the manifest is another run's, or ended otherwise. */
  predicate OtherResult(d: Dir, m: AttemptRecord) {
    || RunJson !in d || !d[RunJson].RunFile?
    || var r := d[RunJson].run;
       || r.agentAttemptId != m.agentAttemptId || r.taskId != m.taskId || r.taskManifestPath != m.taskManifestPath
       || r.status != m.status || r.promptLoopStatus != m.promptLoopStatus
       || (r.attemptResult.Some? && m.attemptStatus != Some(r.attemptResult.value.status))
       || (r.attemptResult.None? && m.attemptStatus.Some?)
  }

  /** The transcript or the task view beside it is another task's, or the transcript ended otherwise. */
  predicate OtherTranscript(d: Dir, m: AttemptRecord) {
    && m.promptLoopStatus.Some?
    && (|| LoopJson !in d || !d[LoopJson].LoopFile? || d[LoopJson].loop.taskId != m.taskId || m.promptLoopStatus != Some(d[LoopJson].loop.status)
        || ViewJson !in d || !d[ViewJson].ViewFile? || d[ViewJson].view.input.taskId != m.taskId)
  }

  /** The candidate is not the one the result names. */
  predicate OtherCandidate(h: Harness, d: Dir) {
    && RunJson in d && d[RunJson].RunFile? && d[RunJson].run.candidatePatchHash.Some?
    && (CandidatePatch !in d || !d[CandidatePatch].PatchFile? || h.hashDiff(d[CandidatePatch].patch) != d[RunJson].run.candidatePatchHash.value)
  }

  /** The scorer's folder is missing, or tells of another attempt than the result does. */
  predicate OtherScoring(d: Dir, m: AttemptRecord) {
    && NAttempt in m.artifacts
    && (|| Nested(AttemptJson) !in d || !d[Nested(AttemptJson)].ScorerPayload?
        || RunJson !in d || !d[RunJson].RunFile? || d[RunJson].run.attemptResult.None?
        || var stored, told := d[Nested(AttemptJson)].attempt.result, d[RunJson].run.attemptResult.value;
           || stored.identity.scorerAttemptId != told.identity.scorerAttemptId || stored.status != told.status
           || stored.publicStatus != told.publicStatus || stored.hiddenStatus != told.hiddenStatus
           || stored.errorClass != told.errorClass || stored.finalDiffHash != told.finalDiffHash)
  }

  /** The inputs are not the declared ones. */
  predicate OtherInputs(d: Dir, x: Expectation) {
    match x.policy
    case ControlPolicy(script) => ControlScriptJson !in d || d[ControlScriptJson] != ScriptFile(script)
    case ModelPolicy(model, decoding) =>
      ModelJson !in d || d[ModelJson] != ModelFile(model) || DecodingJson !in d || d[DecodingJson] != DecodingFile(decoding)
  }

  predicate Contradicts(h: Harness, x: Expectation, d: Dir, m: AttemptRecord) {
    || OtherAttempt(x, m) || SomethingMissing(d, m) || OtherResult(d, m) || OtherTranscript(d, m) || OtherCandidate(h, d)
    || OtherScoring(d, m) || OtherInputs(d, x)
  }

  /** A finished attempt is reused only when nothing in its directory contradicts its declaration or its manifest. */
  lemma ContradictionIsRejected(h: Harness, x: Expectation, d: Dir)
    requires FinalManifest in d && d[FinalManifest].RecordFile? && Contradicts(h, x, d, d[FinalManifest].record)
    ensures Classify(h, x, Directory(d)) == Reject
  {
    var m := d[FinalManifest].record;
    if CompletedAccepted(h, d, x) {
      AcceptedHasNone(h, x, d, m);
    }
  }

  lemma AcceptedHasNone(h: Harness, x: Expectation, d: Dir, m: AttemptRecord)
    requires CompletedAccepted(h, d, x) && m == d[FinalManifest].record
    ensures !Contradicts(h, x, d, m)
  {
    assert AgentAttemptAccepted(h, d, m) && PolicyAccepted(h, d, m, d[RunJson].run, x);
    assert !SomethingMissing(d, m);
    if x.policy.ModelPolicy? {
      LoadedInputs(h, d, x);
    }
  }

  lemma LoadedInputs(h: Harness, d: Dir, x: Expectation)
    requires x.policy.ModelPolicy? && LoadGeneration(h, d).Some? && GenerationDeclared(LoadGeneration(h, d).value, x)
    ensures ModelJson in d && d[ModelJson] == ModelFile(x.policy.model) && DecodingJson in d && d[DecodingJson] == DecodingFile(x.policy.decoding)
  {
  }

  // ---------------------------------------------------------------- a generation that cannot be trusted

  /** The generation manifest is another attempt's. */
  predicate OtherGeneration(x: Expectation, m: GenerationRecord) {
    m.evalAttempt != x.evalAttempt || m.taskId != x.taskId || m.taskManifestPath != x.taskManifestPath
  }

  /** A file it names is gone or changed. */
  predicate PayloadChanged(h: Harness, d: Dir, m: GenerationRecord) {
    exists name :: name in m.artifacts && name in m.artifactHashes &&
      (m.artifacts[name] !in d || d[m.artifacts[name]].Folder? || h.hash(d[m.artifacts[name]]) != m.artifactHashes[name])
  }

  predicate GenerationContradicts(h: Harness, x: Expectation, d: Dir, m: GenerationRecord) {
    || x.policy.ControlPolicy? || OtherGeneration(x, m) || PayloadChanged(h, d, m) || OtherInputs(d, x)
    || LoopJson !in d || !d[LoopJson].LoopFile? || d[LoopJson].loop.taskId != m.taskId || d[LoopJson].loop.status != m.promptLoopStatus
    || (m.promptLoopStatus == PromptLoop.Completed
        && (CandidatePatch !in d || !d[CandidatePatch].PatchFile? || m.candidatePatchHash != Some(h.hashDiff(d[CandidatePatch].patch))))
  }

  lemma ResumedHasNone(h: Harness, x: Expectation, d: Dir)
    requires FinalManifest !in d && GenerationManifest in d && Classify(h, x, Directory(d)) == ReuseGeneration
    ensures d[GenerationManifest].GenerationFile? && !GenerationContradicts(h, x, d, d[GenerationManifest].generation)
  {
    var m := d[GenerationManifest].generation;
    LoadedInputs(h, d, x);
    assert ValidGenerationRecord(m) && ArtifactsIntact(h, d, m);
    assert !PayloadChanged(h, d, m);
  }

  /** A committed answer is resumed only when it is the declared attempt's and all its files are as they were written. */
  lemma BrokenGenerationIsRejected(h: Harness, x: Expectation, d: Dir)
    requires FinalManifest !in d && GenerationManifest in d && d[GenerationManifest].GenerationFile?
    requires GenerationContradicts(h, x, d, d[GenerationManifest].generation)
    ensures Classify(h, x, Directory(d)) == Reject
  {
    PresenceDecides(h, x, Directory(d));
    if Classify(h, x, Directory(d)) == ReuseGeneration {
      ResumedHasNone(h, x, d);
    }
  }
}
