/**
 What it takes to be accepted against a suite's declaration, read off the files: the declared identity in every
 attempt's manifest, and for declared model inputs exactly those inputs and a generation that belongs to the attempt.
 */
module DeclarationAnswers {
  import opened Wrappers
  import opened AgentAttempt
  import opened EvalRecords
  import opened SuiteDeclaration
  import EvalPlan
  import EvalSuite
  import ArtifactRefs
  import PromptLoop

  // ---------------------------------------------------------------- one attempt

  /** The attempt in this directory carries this declared identity. */
  predicate Carries(d: Disk, dir: Path, suiteId: string, runId: string, attemptId: string, declarationHash: AgentAttempt.Hash) {
    && dir in d.attempts
    && var expected := EvalRef(suiteId, runId, attemptId, declarationHash);
       match d.attempts[dir]
       case ScorerAttemptDir(ref) => ref == Some(expected)
       case AgentAttemptDir(files) =>
         FinalManifest in files && files[FinalManifest].RecordFile? && files[FinalManifest].record.evalAttempt == Some(expected)
  }

  /** It ran on the declared inputs, and its generation is its own. */
  predicate RanOn(h: Harness, d: Disk, dir: Path, suiteId: string, runId: string, attemptId: string, declarationHash: AgentAttempt.Hash,
                  taskId: string, patchHash: Option<AgentAttempt.Hash>, model: Provenance, decoding: Provenance)
  {
    && dir in d.attempts && d.attempts[dir].AgentAttemptDir?
    && var files := d.attempts[dir].files;
       && ModelJson in files && files[ModelJson] == ModelFile(model)
       && DecodingJson in files && files[DecodingJson] == DecodingFile(decoding)
       && FinalManifest in files && files[FinalManifest].RecordFile?
       && GenerationManifest in files && files[GenerationManifest].GenerationFile?
       && var m, g := files[FinalManifest].record, files[GenerationManifest].generation;
          && g.evalAttempt == EvalRef(suiteId, runId, attemptId, declarationHash)
          && g.agentAttemptId == m.agentAttemptId && g.taskId == taskId && g.taskManifestPath == m.taskManifestPath
          && Some(g.promptLoopStatus) == m.promptLoopStatus && g.candidatePatchHash == patchHash
          && forall name :: name in g.artifacts ==>
               && name in g.artifactHashes && g.artifacts[name] in files
               && !files[g.artifacts[name]].Folder? && h.hash(files[g.artifacts[name]]) == g.artifactHashes[name]
  }

  lemma BoundMeans(d: Disk, dir: Path, suiteId: string, runId: string, attemptId: string, declarationHash: AgentAttempt.Hash)
    requires Bound(d, dir, EvalRef(suiteId, runId, attemptId, declarationHash))
    ensures Carries(d, dir, suiteId, runId, attemptId, declarationHash)
  {
  }

  lemma GenerationMeans(h: Harness, files: Dir, expected: EvalRef, agentAttemptId: string, taskId: string, taskManifestPath: string,
                        loopStatus: PromptLoop.LoopStatus, patchHash: Option<AgentAttempt.Hash>, model: Provenance, decoding: Provenance)
    requires GenerationFor(h, files, expected, agentAttemptId, taskId, taskManifestPath, loopStatus, patchHash, model, decoding).Some?
    ensures ModelJson in files && files[ModelJson] == ModelFile(model) && DecodingJson in files && files[DecodingJson] == DecodingFile(decoding)
    ensures GenerationManifest in files && files[GenerationManifest].GenerationFile?
    ensures var g := files[GenerationManifest].generation;
      && g.evalAttempt == expected && g.agentAttemptId == agentAttemptId && g.taskId == taskId && g.taskManifestPath == taskManifestPath
      && g.promptLoopStatus == loopStatus && g.candidatePatchHash == patchHash
      && g.artifactHashes.Keys == g.artifacts.Keys && ArtifactsIntact(h, files, g)
  {
  }

  /** Accepted while the run is still in memory. */
  lemma MemoryMeans(h: Harness, d: Disk, header: Header, hash: AgentAttempt.Hash, p: PlannedPolicyRun, a: EvalRecords.AttemptRecord)
    requires AttemptFitsInMemory(h, d, header, hash, p, a)
    ensures Carries(d, a.attemptDir, header.suiteId, p.evalRunId, a.evalAttemptId, hash)
    ensures p.model.Some? && p.decoding.Some? ==>
      && a.agent.Some?
      && RanOn(h, d, a.attemptDir, header.suiteId, p.evalRunId, a.evalAttemptId, hash, a.taskId, a.agent.value.candidatePatchHash,
               p.model.value, p.decoding.value)
  {
    BoundMeans(d, a.attemptDir, header.suiteId, p.evalRunId, a.evalAttemptId, hash);
    if p.model.Some? && p.decoding.Some? {
      var m, files := LoadAgentRecord(d, a.attemptDir).value, d.attempts[a.attemptDir].files;
      GenerationMeans(h, files, EvalRef(header.suiteId, p.evalRunId, a.evalAttemptId, hash), m.agentAttemptId, a.taskId, m.taskManifestPath,
                      m.promptLoopStatus.value, a.agent.value.candidatePatchHash, p.model.value, p.decoding.value);
    }
  }

  /** Accepted from the suite's files alone. */
  lemma FilesMean(h: Harness, d: Disk, runDir: Path, header: Header, hash: AgentAttempt.Hash, p: PlannedPolicyRun, a: ManifestAttempt)
    requires AttemptFitsOnDisk(h, d, runDir, header, hash, p, a)
    ensures Carries(d, runDir + ArtifactRefs.PathParts(a.artifactDir), header.suiteId, p.evalRunId, a.evalAttemptId, hash)
    ensures p.model.Some? && p.decoding.Some? ==>
      && a.agent.Some?
      && RanOn(h, d, runDir + ArtifactRefs.PathParts(a.artifactDir), header.suiteId, p.evalRunId, a.evalAttemptId, hash, a.taskId,
               a.agent.value.candidatePatchHash, p.model.value, p.decoding.value)
  {
    var dir := runDir + ArtifactRefs.PathParts(a.artifactDir);
    BoundMeans(d, dir, header.suiteId, p.evalRunId, a.evalAttemptId, hash);
    if p.model.Some? && p.decoding.Some? {
      var m, files := LoadAgentRecord(d, dir).value, d.attempts[dir].files;
      GenerationMeans(h, files, EvalRef(header.suiteId, p.evalRunId, a.evalAttemptId, hash), m.agentAttemptId, a.taskId, m.taskManifestPath,
                      m.promptLoopStatus.value, a.agent.value.candidatePatchHash, p.model.value, p.decoding.value);
    }
  }

  // ---------------------------------------------------------------- one policy run

  predicate IsPlanned(evalAttemptId: string, taskId: string, attemptIndex: nat, artifactDir: string, planned: EvalPlan.PlannedAttempt) {
    && evalAttemptId == planned.evalAttemptId && taskId == planned.taskId && attemptIndex == planned.attemptIndex
    && artifactDir == planned.artifactDir
  }

  /** An accepted run is the declared one: its ids, its place, and its attempts one for one in the declared order. */
  lemma PolicyMeans(h: Harness, d: Disk, root: Path, header: Header, hash: AgentAttempt.Hash, p: PlannedPolicyRun, run: EvalSuite.PolicyRun)
    requires PolicyFitsInMemory(h, d, root, header, hash, p, run)
    ensures run.policy == p.policy && run.evalRunId == p.evalRunId && (p.model.Some? <==> p.decoding.Some?)
    ensures |run.attempts| == |p.plannedAttempts|
    ensures forall i :: 0 <= i < |run.attempts| ==>
      var a := run.attempts[i];
      && ArtifactRefs.Below(a.attemptDir, run.outDir)
      && IsPlanned(a.evalAttemptId, a.taskId, a.attemptIndex, ArtifactRefs.RelativeTo(a.attemptDir, run.outDir), p.plannedAttempts[i])
  {
    var told, planned := RunTuples(run.outDir, run.attempts), PlannedTuples(p.plannedAttempts);
    assert |told| == |run.attempts| && |planned| == |p.plannedAttempts|;
    forall i | 0 <= i < |run.attempts|
      ensures IsPlanned(run.attempts[i].evalAttemptId, run.attempts[i].taskId, run.attempts[i].attemptIndex,
                        ArtifactRefs.RelativeTo(run.attempts[i].attemptDir, run.outDir), p.plannedAttempts[i])
    {
      assert told[i] == planned[i];
    }
  }
}
