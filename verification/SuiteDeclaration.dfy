/**
 A suite is declared before it runs.  The process that ran it checks the outcome against the declaration from
 memory before it writes the suite manifest; whoever loads the suite later checks it again from files alone.
 */
module SuiteDeclaration {
  import opened Wrappers
  import opened AgentAttempt
  import opened EvalRecords
  import EvalPlan
  import EvalManifests
  import EvalSuite
  import ArtifactRefs
  import PromptLoop
  import CompletedAttempt
  import EvalSummaries

  type Path = seq<string>

  datatype PlannedPolicyRun = PlannedPolicyRun(
    policy: string, evalRunId: string, artifactDir: string,
    model: Option<Provenance>, decoding: Option<Provenance>, plannedAttempts: seq<EvalPlan.PlannedAttempt>)

  /** What a suite as a whole is identified by. */
  datatype Header = Header(suiteId: string, createdAt: string, configPath: string, configHash: string, taskHashes: string, runtime: string)

  datatype Declaration = Declaration(header: Header, policyRuns: seq<PlannedPolicyRun>)

  // ---------------------------------------------------------------- what is on disk

  datatype AttemptOnDisk = ScorerAttemptDir(evalAttempt: Option<EvalRef>) | AgentAttemptDir(files: Dir)

  datatype ChildRun = ChildRun(policy: string, evalRunId: string, attempts: seq<ManifestAttempt>)

  datatype Disk = Disk(declaration: Option<Declaration>, attempts: map<Path, AttemptOnDisk>, runs: map<Path, ChildRun>)

  /** load_attempt_manifest, as far as the declared identity goes; None when it does not load. */
  function LoadedRef(d: Disk, dir: Path): Option<Option<EvalRef>> {
    if dir !in d.attempts then None
    else match d.attempts[dir]
      case ScorerAttemptDir(ref) => Some(ref)
      case AgentAttemptDir(files) =>
        if LoadRecord(files).Some? then Some(LoadRecord(files).value.evalAttempt) else None
  }

  function LoadRecord(files: Dir): Option<AgentAttempt.AttemptRecord> {
    if FinalManifest in files && files[FinalManifest].RecordFile? && ValidAttemptRecord(files[FinalManifest].record)
    then Some(files[FinalManifest].record) else None
  }

  function LoadAgentRecord(d: Disk, dir: Path): Option<AgentAttempt.AttemptRecord> {
    if dir in d.attempts && d.attempts[dir].AgentAttemptDir? then LoadRecord(d.attempts[dir].files) else None
  }

  // ---------------------------------------------------------------- checks both sides make of one attempt

  predicate Bound(d: Disk, dir: Path, expected: EvalRef) {
    LoadedRef(d, dir) == Some(Some(expected))
  }

  /** validate_agent_generation_for_eval_attempt, which both checks call; None when it raises. */
  function GenerationFor(h: Harness, files: Dir, expected: EvalRef, agentAttemptId: string, taskId: string, taskManifestPath: string,
                         loopStatus: PromptLoop.LoopStatus, patchHash: Option<AgentAttempt.Hash>, model: Provenance, decoding: Provenance)
    : Option<GenerationRecord>
  {
    var loaded := LoadGeneration(h, files);
    if loaded.None? then None
    else
      var l := loaded.value;
      if l.record.evalAttempt == expected && l.record.agentAttemptId == agentAttemptId
         && l.record.taskId == taskId && l.record.taskManifestPath == taskManifestPath
         && l.record.promptLoopStatus == loopStatus && l.record.candidatePatchHash == patchHash
         && l.model == model && l.decoding == decoding
      then Some(l.record) else None
  }

  function RefIn(artifacts: map<ArtifactName, Slot>, name: ArtifactName): Option<Slot> {
    if name in artifacts then Some(artifacts[name]) else None
  }

  /** What can be wrong with one attempt's model inputs. */
  datatype InputError =
    | MissingSummary | Unreadable | MissingGeneration | MissingLoopStatus | TaskIdsDiffer | AgentIdsDiffer | StatusesDiffer
    | LoopStatusesDiffer | GenerationRefused | MissingModelRef | MissingDecodingRef | InputRefsDiffer

  /** The loop body of _validate_policy_generations_before_suite_completion: its first complaint. */
  function ComplaintInMemory(h: Harness, d: Disk, expected: EvalRef, a: EvalRecords.AttemptRecord, model: Provenance, decoding: Provenance)
    : Option<InputError>
  {
    if a.agent.None? then Some(MissingSummary)
    else if LoadAgentRecord(d, a.attemptDir).None? then Some(Unreadable)
    else
      var m := LoadAgentRecord(d, a.attemptDir).value;
      if NGeneration !in m.artifacts then Some(MissingGeneration)
      else if m.promptLoopStatus.None? then Some(MissingLoopStatus)
      else if m.taskId != a.taskId then Some(TaskIdsDiffer)
      else if m.agentAttemptId != a.agent.value.agentAttemptId then Some(AgentIdsDiffer)
      else if RunStatusName(m.status) != a.agent.value.status then Some(StatusesDiffer)
      else if Some(PromptLoop.LoopStatusName(m.promptLoopStatus.value)) != a.agent.value.promptLoopStatus then Some(LoopStatusesDiffer)
      else
        var g := GenerationFor(h, d.attempts[a.attemptDir].files, expected, m.agentAttemptId, a.taskId, m.taskManifestPath,
                               m.promptLoopStatus.value, a.agent.value.candidatePatchHash, model, decoding);
        if g.None? then Some(GenerationRefused)
        else if RefIn(m.artifacts, NModel) != RefIn(g.value.artifacts, NModel) then Some(InputRefsDiffer)
        else if RefIn(m.artifacts, NDecoding) != RefIn(g.value.artifacts, NDecoding) then Some(InputRefsDiffer)
        else None
  }

  /** The loop body of _validate_completed_model_inputs: its first complaint. */
  function ComplaintOnDisk(h: Harness, d: Disk, dir: Path, expected: EvalRef, a: ManifestAttempt, model: Provenance, decoding: Provenance)
    : Option<InputError>
  {
    if LoadAgentRecord(d, dir).None? then Some(Unreadable)
    else
      var m := LoadAgentRecord(d, dir).value;
      if NGeneration !in m.artifacts then Some(MissingGeneration)
      else if a.agent.None? then Some(MissingSummary)
      else if m.promptLoopStatus.None? then Some(MissingLoopStatus)
      else
        var g := GenerationFor(h, d.attempts[dir].files, expected, m.agentAttemptId, a.taskId, m.taskManifestPath,
                               m.promptLoopStatus.value, a.agent.value.candidatePatchHash, model, decoding);
        if g.None? then Some(GenerationRefused)
        else if a.agent.value.agentAttemptId != m.agentAttemptId then Some(AgentIdsDiffer)
        else if a.agent.value.promptLoopStatus != Some(PromptLoop.LoopStatusName(m.promptLoopStatus.value)) then Some(LoopStatusesDiffer)
        else
          var modelRef, decodingRef := RefIn(m.artifacts, NModel), RefIn(m.artifacts, NDecoding);
          if modelRef.None? then Some(MissingModelRef)
          else if modelRef != RefIn(g.value.artifacts, NModel) then Some(InputRefsDiffer)
          else if decodingRef.None? then Some(MissingDecodingRef)
          else if decodingRef != RefIn(g.value.artifacts, NDecoding) then Some(InputRefsDiffer)
          else None
  }

  /** Two more things are compared while the run is still in memory. */
  predicate SummaryFits(d: Disk, dir: Path, taskId: string, agent: Option<AgentSummary>) {
    && LoadAgentRecord(d, dir).Some? && agent.Some?
    && LoadAgentRecord(d, dir).value.taskId == taskId
    && RunStatusName(LoadAgentRecord(d, dir).value.status) == agent.value.status
  }

  function Expected(header: Header, declarationHash: AgentAttempt.Hash, evalRunId: string, evalAttemptId: string): EvalRef {
    EvalRef(header.suiteId, evalRunId, evalAttemptId, declarationHash)
  }

  // ---------------------------------------------------------------- the check from memory

  datatype Tuple = Tuple(evalAttemptId: string, taskId: string, attemptIndex: nat, artifactDir: string)

  function PlannedTuples(plan: seq<EvalPlan.PlannedAttempt>): seq<Tuple> {
    seq(|plan|, i requires 0 <= i < |plan| => Tuple(plan[i].evalAttemptId, plan[i].taskId, plan[i].attemptIndex, plan[i].artifactDir))
  }

  function RunTuples(outDir: Path, attempts: seq<EvalRecords.AttemptRecord>): seq<Tuple>
    requires EvalManifests.AllBelow(outDir, attempts)
  {
    seq(|attempts|, i requires 0 <= i < |attempts| =>
      Tuple(attempts[i].evalAttemptId, attempts[i].taskId, attempts[i].attemptIndex, ArtifactRefs.RelativeTo(attempts[i].attemptDir, outDir)))
  }

  predicate BothOrNeither(p: PlannedPolicyRun) {
    p.model.Some? <==> p.decoding.Some?
  }

  /** The checks on one attempt of a policy run in memory. */
  predicate AttemptFitsInMemory(h: Harness, d: Disk, header: Header, hash: AgentAttempt.Hash, p: PlannedPolicyRun, a: EvalRecords.AttemptRecord) {
    var expected := Expected(header, hash, p.evalRunId, a.evalAttemptId);
    && Bound(d, a.attemptDir, expected)
    && (p.model.Some? && p.decoding.Some? ==> ComplaintInMemory(h, d, expected, a, p.model.value, p.decoding.value).None?)
  }

  /** One policy run in memory against its declaration. */
  predicate PolicyFitsInMemory(h: Harness, d: Disk, root: Path, header: Header, hash: AgentAttempt.Hash, p: PlannedPolicyRun, run: EvalSuite.PolicyRun) {
    && run.policy == p.policy && run.evalRunId == p.evalRunId
    && ArtifactRefs.Below(run.outDir, root) && ArtifactRefs.RelativeTo(run.outDir, root) == p.artifactDir
    && EvalManifests.AllBelow(run.outDir, run.attempts)
    && RunTuples(run.outDir, run.attempts) == PlannedTuples(p.plannedAttempts)
    && BothOrNeither(p)
    && forall i :: 0 <= i < |run.attempts| ==> AttemptFitsInMemory(h, d, header, hash, p, run.attempts[i])
  }

  /** _validate_eval_matrix_matches_declaration. */
  predicate AcceptedInMemory(h: Harness, d: Disk, root: Path, header: Header, hash: AgentAttempt.Hash, declaration: Declaration, runs: seq<EvalSuite.PolicyRun>) {
    && d.declaration == Some(declaration)
    && declaration.header == header
    && |declaration.policyRuns| == |runs|
    && forall i :: 0 <= i < |runs| ==> PolicyFitsInMemory(h, d, root, header, hash, declaration.policyRuns[i], runs[i])
  }

  // ---------------------------------------------------------------- the check from files

  datatype SuiteRecord = SuiteRecord(policy: string, evalRunId: string, artifactDir: string, manifest: string)

  function ChildTuples(attempts: seq<ManifestAttempt>): seq<Tuple> {
    seq(|attempts|, i requires 0 <= i < |attempts| =>
      Tuple(attempts[i].evalAttemptId, attempts[i].taskId, attempts[i].attemptIndex, attempts[i].artifactDir))
  }

  predicate AttemptFitsOnDisk(h: Harness, d: Disk, runDir: Path, header: Header, hash: AgentAttempt.Hash, p: PlannedPolicyRun, a: ManifestAttempt) {
    var dir, expected := ArtifactRefs.Resolve(runDir, a.artifactDir), Expected(header, hash, p.evalRunId, a.evalAttemptId);
    && Bound(d, dir, expected)
    && (p.model.Some? && p.decoding.Some? ==> ComplaintOnDisk(h, d, dir, expected, a, p.model.value, p.decoding.value).None?)
  }

  predicate PolicyFitsOnDisk(h: Harness, d: Disk, root: Path, header: Header, hash: AgentAttempt.Hash, p: PlannedPolicyRun, r: SuiteRecord) {
    && r.policy == p.policy && r.evalRunId == p.evalRunId && r.artifactDir == p.artifactDir
    && var path := ArtifactRefs.Resolve(root, r.manifest);
       && path in d.runs && |path| > 0
       && var child, runDir := d.runs[path], path[..|path| - 1];
          && child.evalRunId == r.evalRunId && child.policy == r.policy
          && ChildTuples(child.attempts) == PlannedTuples(p.plannedAttempts)
          && BothOrNeither(p)
          && forall i :: 0 <= i < |child.attempts| ==> AttemptFitsOnDisk(h, d, runDir, header, hash, p, child.attempts[i])
  }

  /** _validate_completed_suite_matches_declaration, on the declaration the suite's files hold. */
  predicate AcceptedOnDisk(h: Harness, d: Disk, root: Path, header: Header, hash: AgentAttempt.Hash, records: seq<SuiteRecord>) {
    && d.declaration.Some?
    && var declaration := d.declaration.value;
       && declaration.header == header
       && |declaration.policyRuns| == |records|
       && forall i :: 0 <= i < |records| ==> PolicyFitsOnDisk(h, d, root, header, hash, declaration.policyRuns[i], records[i])
  }

  // ---------------------------------------------------------------- what is written in between

  /** Components of a path the file system hands out. */
  predicate RealComponents(parts: Path) {
    forall i :: 0 <= i < |parts| ==> parts[i] !in {"", "."} && '/' !in parts[i]
  }

  const MANIFEST := "manifest.json"

  /** The suite record and the run manifest on disk are those of this run. */
  predicate WrittenRun(d: Disk, root: Path, run: EvalSuite.PolicyRun, r: SuiteRecord) {
    && RealComponents(run.outDir) && ArtifactRefs.Below(run.outDir, root) && run.outDir != root
    && EvalManifests.AllBelow(run.outDir, run.attempts)
    && (forall i :: 0 <= i < |run.attempts| ==> RealComponents(run.attempts[i].attemptDir) && run.attempts[i].attemptDir != run.outDir)
    && r == SuiteRecord(run.policy, run.evalRunId, ArtifactRefs.RelativeTo(run.outDir, root), ArtifactRefs.RelativeTo(run.outDir + [MANIFEST], root))
    && run.outDir + [MANIFEST] in d.runs
    && d.runs[run.outDir + [MANIFEST]] == ChildRun(run.policy, run.evalRunId, EvalManifests.ListedAttempts(run.outDir, run.attempts))
  }

  predicate WrittenSuite(d: Disk, root: Path, runs: seq<EvalSuite.PolicyRun>, records: seq<SuiteRecord>) {
    |runs| == |records| && forall i :: 0 <= i < |runs| ==> WrittenRun(d, root, runs[i], records[i])
  }

  lemma RealPathReadsBack(root: Path, path: Path)
    requires ArtifactRefs.Below(path, root) && path != root && RealComponents(path)
    ensures ArtifactRefs.Resolve(root, ArtifactRefs.RelativeTo(path, root)) == path
  {
    var parts := path[|root|..];
    assert forall i :: 0 <= i < |parts| ==> parts[i] == path[|root| + i];
    ArtifactRefs.SplitJoin(parts);
    ArtifactRefs.KeptOrdinary(parts);
    assert root + parts == path;
  }

  lemma RunReadsBack(d: Disk, root: Path, run: EvalSuite.PolicyRun, r: SuiteRecord)
    requires WrittenRun(d, root, run, r)
    ensures var path := ArtifactRefs.Resolve(root, r.manifest);
      path == run.outDir + [MANIFEST] && path[..|path| - 1] == run.outDir
  {
    var path := run.outDir + [MANIFEST];
    assert RealComponents(path) by {
      assert '/' !in MANIFEST;
    }
    RealPathReadsBack(root, path);
  }

  // ---------------------------------------------------------------- the two checks agree

  /** What only the check from memory looks at. */
  predicate MemoryOnly(d: Disk, p: PlannedPolicyRun, run: EvalSuite.PolicyRun) {
    forall i :: 0 <= i < |run.attempts| && p.model.Some? && p.decoding.Some? ==>
      SummaryFits(d, run.attempts[i].attemptDir, run.attempts[i].taskId, run.attempts[i].agent)
  }

  /**
   The two loop bodies look at things in different orders and phrase the reference checks differently; one has no
   complaint exactly when the other has none and the two fields only it compares agree.
   */
  lemma ComplaintsAgree(h: Harness, d: Disk, outDir: Path, expected: EvalRef, a: EvalRecords.AttemptRecord, model: Provenance, decoding: Provenance)
    requires ArtifactRefs.Below(a.attemptDir, outDir)
    ensures ComplaintInMemory(h, d, expected, a, model, decoding).None? <==>
      && ComplaintOnDisk(h, d, a.attemptDir, expected, EvalManifests.ListedAttempt(outDir, a), model, decoding).None?
      && SummaryFits(d, a.attemptDir, a.taskId, a.agent)
  {
    if a.agent.Some? && LoadAgentRecord(d, a.attemptDir).Some? && LoadGeneration(h, d.attempts[a.attemptDir].files).Some? {
      LoadedNamesInputs(h, d.attempts[a.attemptDir].files);
    }
  }

  /** A generation that loads names its model and decoding inputs. */
  lemma LoadedNamesInputs(h: Harness, files: Dir)
    requires LoadGeneration(h, files).Some?
    ensures var refs := LoadGeneration(h, files).value.record.artifacts; NModel in refs && NDecoding in refs
  {
    var m := LoadGeneration(h, files).value.record;
    assert GENERATION_REQUIRED <= m.artifacts.Keys;
    assert NModel in GENERATION_REQUIRED && NDecoding in GENERATION_REQUIRED;
  }

  lemma AttemptChecksAgree(h: Harness, d: Disk, root: Path, header: Header, hash: AgentAttempt.Hash, p: PlannedPolicyRun, run: EvalSuite.PolicyRun, r: SuiteRecord, i: nat)
    requires WrittenRun(d, root, run, r) && i < |run.attempts|
    ensures var a, listed := run.attempts[i], EvalManifests.ListedAttempts(run.outDir, run.attempts)[i];
      AttemptFitsInMemory(h, d, header, hash, p, a) <==>
        AttemptFitsOnDisk(h, d, run.outDir, header, hash, p, listed)
        && (p.model.Some? && p.decoding.Some? ==> SummaryFits(d, a.attemptDir, a.taskId, a.agent))
  {
    var a := run.attempts[i];
    RealPathReadsBack(run.outDir, a.attemptDir);
    if p.model.Some? && p.decoding.Some? {
      ComplaintsAgree(h, d, run.outDir, Expected(header, hash, p.evalRunId, a.evalAttemptId), a, p.model.value, p.decoding.value);
    }
  }

  lemma PolicyChecksAgree(h: Harness, d: Disk, root: Path, header: Header, hash: AgentAttempt.Hash, p: PlannedPolicyRun, run: EvalSuite.PolicyRun, r: SuiteRecord)
    requires WrittenRun(d, root, run, r)
    ensures PolicyFitsInMemory(h, d, root, header, hash, p, run)
       <==> PolicyFitsOnDisk(h, d, root, header, hash, p, r) && MemoryOnly(d, p, run)
  {
    RunReadsBack(d, root, run, r);
    var listed := EvalManifests.ListedAttempts(run.outDir, run.attempts);
    assert RunTuples(run.outDir, run.attempts) == ChildTuples(listed);
    forall i | 0 <= i < |run.attempts|
      ensures AttemptFitsInMemory(h, d, header, hash, p, run.attempts[i])
         <==> AttemptFitsOnDisk(h, d, run.outDir, header, hash, p, listed[i])
              && (p.model.Some? && p.decoding.Some? ==> SummaryFits(d, run.attempts[i].attemptDir, run.attempts[i].taskId, run.attempts[i].agent))
    {
      AttemptChecksAgree(h, d, root, header, hash, p, run, r, i);
    }
  }

  /**
   The check from memory is the check from files plus three things only memory can compare: the declaration is
   still the one that was declared, and each agent attempt's task and status are those of its summary.
   */
  lemma MemoryCheckIsDiskCheckAndMore(h: Harness, d: Disk, root: Path, header: Header, hash: AgentAttempt.Hash, declaration: Declaration,
                                      runs: seq<EvalSuite.PolicyRun>, records: seq<SuiteRecord>)
    requires WrittenSuite(d, root, runs, records)
    ensures AcceptedInMemory(h, d, root, header, hash, declaration, runs)
       <==> AcceptedOnDisk(h, d, root, header, hash, records)
            && d.declaration == Some(declaration)
            && forall i :: 0 <= i < |runs| ==> MemoryOnly(d, declaration.policyRuns[i], runs[i])
  {
    if d.declaration == Some(declaration) && |declaration.policyRuns| == |runs| {
      forall i | 0 <= i < |runs|
        ensures PolicyFitsInMemory(h, d, root, header, hash, declaration.policyRuns[i], runs[i])
           <==> PolicyFitsOnDisk(h, d, root, header, hash, declaration.policyRuns[i], records[i]) && MemoryOnly(d, declaration.policyRuns[i], runs[i])
      {
        PolicyChecksAgree(h, d, root, header, hash, declaration.policyRuns[i], runs[i], records[i]);
      }
    }
  }

  // ---------------------------------------------------------------- attempts that pass

  /**
   Every attempt that resume would reuse as completed satisfies the suite's declaration checks as well, from memory
   and therefore from files, provided its summary was taken from the result on disk.
   */
  lemma CompletedAttemptFits(h: Harness, d: Disk, outDir: Path, a: EvalRecords.AttemptRecord, x: CompletedAttempt.Expectation)
    requires a.attemptDir in d.attempts && d.attempts[a.attemptDir].AgentAttemptDir? && x.policy.ModelPolicy?
    requires CompletedAttempt.CompletedAccepted(h, d.attempts[a.attemptDir].files, x)
    requires a.taskId == x.taskId && a.agent == Some(EvalSummaries.SummaryOfRun(d.attempts[a.attemptDir].files[RunJson].run))
    requires ArtifactRefs.Below(a.attemptDir, outDir)
    ensures Bound(d, a.attemptDir, x.evalAttempt)
    ensures ComplaintInMemory(h, d, x.evalAttempt, a, x.policy.model, x.policy.decoding).None?
    ensures ComplaintOnDisk(h, d, a.attemptDir, x.evalAttempt, EvalManifests.ListedAttempt(outDir, a), x.policy.model, x.policy.decoding).None?
  {
    ComplaintsAgree(h, d, outDir, x.evalAttempt, a, x.policy.model, x.policy.decoding);
  }
}
