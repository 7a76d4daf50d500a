/**
 Acceptance of a finished agent attempt from its files, and the fact that whatever the writers finish is
 accepted: a visible final manifest is never left pointing at something missing or contradictory.
 */
module CompletedAttempt {
  import opened Wrappers
  import opened AgentAttempt
  import opened AttemptDirectories
  import PromptLoop
  import Scorer = ScorerAttempt
  import AttemptRecovery
  import AgentGeneration
  import PromptLoopLaws

  // ---------------------------------------------------------------- what a finished write leaves behind

  /** Running these operations anywhere lays this map over what was there. */
  ghost predicate Lands(ops: seq<FileOp>, m: Dir) {
    forall d: Dir :: Exec(d, ops) == d + m
  }

  lemma LandsConcat(a: seq<FileOp>, ma: Dir, b: seq<FileOp>, mb: Dir)
    requires Lands(a, ma) && Lands(b, mb)
    ensures Lands(a + b, ma + mb)
  {
    forall d: Dir ensures Exec(d, a + b) == d + (ma + mb) {
      ExecConcat(d, a, b);
      assert (d + ma) + mb == d + (ma + mb);
    }
  }

  lemma LandsWrite(slot: Slot, content: Content)
    ensures Lands([Write(slot, content)], map[slot := content])
  {
    forall d: Dir ensures Exec(d, [Write(slot, content)]) == d + map[slot := content] {
      AttemptRecovery.ExecOne(d, Write(slot, content));
    }
  }

  lemma LandsWhen(condition: bool, slot: Slot, content: Content)
    ensures Lands(When(condition, Write(slot, content)), if condition then map[slot := content] else map[])
  {
    if condition {
      LandsWrite(slot, content);
    }
  }

  function NestedWrites(run: Scorer.AttemptRun, order: seq<ScorerFile>): seq<FileOp> {
    seq(|order|, i requires 0 <= i < |order| => Write(Nested(order[i]), ScorerPayload(order[i], run)))
  }

  function NestedFiles(run: Scorer.AttemptRun, order: seq<ScorerFile>): Dir {
    map f | f in order :: Nested(f) := ScorerPayload(f, run)
  }

  /** The scorer folder with its payloads. */
  function ScorerFiles(run: Scorer.AttemptRun): (d: Dir)
    ensures AttemptFolder in d && d[AttemptFolder] == Folder
    ensures forall f: ScorerFile :: Nested(f) in d && d[Nested(f)] == ScorerPayload(f, run)
    ensures forall s :: s in d ==> s.Nested? || s.AttemptFolder?
  {
    EveryScorerFile();
    map[AttemptFolder := Folder] + NestedFiles(run, SCORER_ORDER)
  }

  lemma {:induction false} NestedFilesLand(run: Scorer.AttemptRun, order: seq<ScorerFile>)
    ensures Lands(NestedWrites(run, order), NestedFiles(run, order))
  {
    if |order| == 0 {
      assert NestedWrites(run, order) == [] && NestedFiles(run, order) == map[];
    } else {
      var n := |order| - 1;
      var last, content := order[n], ScorerPayload(order[n], run);
      NestedFilesLand(run, order[..n]);
      LandsWrite(Nested(last), content);
      LandsConcat(NestedWrites(run, order[..n]), NestedFiles(run, order[..n]), [Write(Nested(last), content)], map[Nested(last) := content]);
      assert NestedWrites(run, order) == NestedWrites(run, order[..n]) + [Write(Nested(last), content)];
      assert order == order[..n] + [last];
      assert NestedFiles(run, order) == NestedFiles(run, order[..n]) + map[Nested(last) := content];
    }
  }

  lemma ScorerFilesLand(run: Scorer.AttemptRun)
    ensures Lands(ScorerOps(run), ScorerFiles(run))
  {
    NestedFilesLand(run, SCORER_ORDER);
    LandsWrite(AttemptFolder, Folder);
    LandsConcat([Write(AttemptFolder, Folder)], map[AttemptFolder := Folder], NestedWrites(run, SCORER_ORDER), NestedFiles(run, SCORER_ORDER));
    assert ScorerOps(run) == [Write(AttemptFolder, Folder)] + NestedWrites(run, SCORER_ORDER);
  }

  lemma EveryScorerFile()
    ensures forall f: ScorerFile :: f in SCORER_ORDER
  {
    forall f: ScorerFile ensures f in SCORER_ORDER {
      match f
      case AttemptJson => assert SCORER_ORDER[0] == f;
      case Stdout => assert SCORER_ORDER[1] == f;
      case Stderr => assert SCORER_ORDER[2] == f;
      case ScorerError => assert SCORER_ORDER[3] == f;
      case ScorerTrace => assert SCORER_ORDER[4] == f;
      case FinalDiff => assert SCORER_ORDER[5] == f;
      case ScorerManifest => assert SCORER_ORDER[6] == f;
    }
  }

  function InputFiles(h: Harness, plan: Plan, run: AgentTaskRun, owns: bool): Dir {
    (if !owns then map[DecodingJson := DecodingFile(plan.decoding)] else map[])
    + (if !owns && plan.model.Some? then map[ModelJson := ModelFile(plan.model.value)] else map[])
    + (if plan.script.Some? then map[ControlScriptJson := ScriptFile(plan.script.value)] else map[])
    + (if !owns && run.view.Some? then map[ViewJson := ViewFile(run.view.value)] else map[])
    + (if !owns && run.loop.Some? then map[LoopJson := LoopFile(RedactLoop(h, run.loop.value))] else map[])
    + (if !owns && run.result.candidatePatchHash.Some? then map[CandidatePatch := PatchFile(run.candidatePatch)] else map[])
  }

  function RunFiles(h: Harness, plan: Plan, run: AgentTaskRun, owns: bool): Dir {
    map[RunJson := RunFile(RedactResult(h, run.result))]
    + InputFiles(h, plan, run, owns)
    + map[ErrorTxt := ErrorFile(run.errorDetails)]
    + (if run.attemptRun.Some? then ScorerFiles(run.attemptRun.value) else map[])
    + map[FinalManifest := RecordFile(RecordOfAttempt(plan, run, owns))]
  }

  lemma LandsNothing()
    ensures Lands([], map[])
  {
  }

  lemma InputFilesLand(h: Harness, plan: Plan, run: AgentTaskRun, owns: bool)
    ensures Lands(InputOps(h, plan, run, owns), InputFiles(h, plan, run, owns))
  {
    LandsNothing();
    var a := When(!owns, Write(DecodingJson, DecodingFile(plan.decoding)));
    var ma := if !owns then map[DecodingJson := DecodingFile(plan.decoding)] else map[];
    LandsWhen(!owns, DecodingJson, DecodingFile(plan.decoding));
    var b := if !owns && plan.model.Some? then [Write(ModelJson, ModelFile(plan.model.value))] else [];
    var mb := if !owns && plan.model.Some? then map[ModelJson := ModelFile(plan.model.value)] else map[];
    if plan.model.Some? { LandsWrite(ModelJson, ModelFile(plan.model.value)); }
    LandsConcat(a, ma, b, mb);
    var c := if plan.script.Some? then [Write(ControlScriptJson, ScriptFile(plan.script.value))] else [];
    var mc := if plan.script.Some? then map[ControlScriptJson := ScriptFile(plan.script.value)] else map[];
    if plan.script.Some? { LandsWrite(ControlScriptJson, ScriptFile(plan.script.value)); }
    LandsConcat(a + b, ma + mb, c, mc);
    TranscriptFilesLand(h, run, owns, a + b + c, ma + mb + mc);
  }

  lemma TranscriptFilesLand(h: Harness, run: AgentTaskRun, owns: bool, before: seq<FileOp>, m: Dir)
    requires Lands(before, m)
    ensures Lands(before
                  + (if !owns && run.view.Some? then [Write(ViewJson, ViewFile(run.view.value))] else [])
                  + (if !owns && run.loop.Some? then [Write(LoopJson, LoopFile(RedactLoop(h, run.loop.value)))] else [])
                  + When(!owns && run.result.candidatePatchHash.Some?, Write(CandidatePatch, PatchFile(run.candidatePatch))),
                  m
                  + (if !owns && run.view.Some? then map[ViewJson := ViewFile(run.view.value)] else map[])
                  + (if !owns && run.loop.Some? then map[LoopJson := LoopFile(RedactLoop(h, run.loop.value))] else map[])
                  + (if !owns && run.result.candidatePatchHash.Some? then map[CandidatePatch := PatchFile(run.candidatePatch)] else map[]))
  {
    LandsNothing();
    var d := if !owns && run.view.Some? then [Write(ViewJson, ViewFile(run.view.value))] else [];
    var md := if !owns && run.view.Some? then map[ViewJson := ViewFile(run.view.value)] else map[];
    if run.view.Some? { LandsWrite(ViewJson, ViewFile(run.view.value)); }
    LandsConcat(before, m, d, md);
    var e := if !owns && run.loop.Some? then [Write(LoopJson, LoopFile(RedactLoop(h, run.loop.value)))] else [];
    var me := if !owns && run.loop.Some? then map[LoopJson := LoopFile(RedactLoop(h, run.loop.value))] else map[];
    if run.loop.Some? { LandsWrite(LoopJson, LoopFile(RedactLoop(h, run.loop.value))); }
    LandsConcat(before + d, m + md, e, me);
    var f := When(!owns && run.result.candidatePatchHash.Some?, Write(CandidatePatch, PatchFile(run.candidatePatch)));
    var mf := if !owns && run.result.candidatePatchHash.Some? then map[CandidatePatch := PatchFile(run.candidatePatch)] else map[];
    LandsWhen(!owns && run.result.candidatePatchHash.Some?, CandidatePatch, PatchFile(run.candidatePatch));
    LandsConcat(before + d + e, m + md + me, f, mf);
  }

  lemma RunFilesLand(h: Harness, plan: Plan, run: AgentTaskRun, owns: bool)
    ensures Lands(WriteOps(h, plan, run, owns), RunFiles(h, plan, run, owns))
  {
    LandsNothing();
    var a, ma := [Write(RunJson, RunFile(RedactResult(h, run.result)))], map[RunJson := RunFile(RedactResult(h, run.result))];
    LandsWrite(RunJson, RunFile(RedactResult(h, run.result)));
    var b, mb := InputOps(h, plan, run, owns), InputFiles(h, plan, run, owns);
    InputFilesLand(h, plan, run, owns);
    LandsConcat(a, ma, b, mb);
    var c, mc := [Write(ErrorTxt, ErrorFile(run.errorDetails))], map[ErrorTxt := ErrorFile(run.errorDetails)];
    LandsWrite(ErrorTxt, ErrorFile(run.errorDetails));
    LandsConcat(a + b, ma + mb, c, mc);
    var d := if run.attemptRun.Some? then ScorerOps(run.attemptRun.value) else [];
    var md := if run.attemptRun.Some? then ScorerFiles(run.attemptRun.value) else map[];
    if run.attemptRun.Some? { ScorerFilesLand(run.attemptRun.value); }
    LandsConcat(a + b + c, ma + mb + mc, d, md);
    LandsWrite(FinalManifest, RecordFile(RecordOfAttempt(plan, run, owns)));
    LandsConcat(a + b + c + d, ma + mb + mc + md, [Write(FinalManifest, RecordFile(RecordOfAttempt(plan, run, owns)))],
                map[FinalManifest := RecordFile(RecordOfAttempt(plan, run, owns))]);
  }

  // ---------------------------------------------------------------- acceptance

  /** A folder where the nested scorer attempt is named, a file everywhere else. */
  predicate ArtifactsExist(d: Dir, m: AttemptRecord) {
    forall name :: name in m.artifacts ==>
      m.artifacts[name] in d && (d[m.artifacts[name]].Folder? <==> name == NAttempt)
  }

  function AttemptStatusOf(r: RunResult): Option<Scorer.AttemptStatus> {
    if r.attemptResult.Some? then Some(r.attemptResult.value.status) else None
  }

  predicate ResultMatchesManifest(r: RunResult, m: AttemptRecord) {
    && (r.agentAttemptId, r.taskId, r.taskManifestPath) == (m.agentAttemptId, m.taskId, m.taskManifestPath)
    && r.status == m.status && r.promptLoopStatus == m.promptLoopStatus
    && AttemptStatusOf(r) == m.attemptStatus
  }

  predicate PayloadsMatch(d: Dir, m: AttemptRecord) {
    && DecodingJson in d && d[DecodingJson].DecodingFile?
    && (m.promptLoopStatus.Some? ==>
          && ViewJson in d && d[ViewJson].ViewFile? && d[ViewJson].view.input.taskId == m.taskId
          && LoopJson in d && d[LoopJson].LoopFile? && PromptLoop.ValidPromptLoopResult(d[LoopJson].loop)
          && d[LoopJson].loop.taskId == m.taskId && Some(d[LoopJson].loop.status) == m.promptLoopStatus)
    && (NModel in m.artifacts ==> ModelJson in d && d[ModelJson].ModelFile?)
    && (NControlScript in m.artifacts ==> ControlScriptJson in d && d[ControlScriptJson].ScriptFile?)
  }

  predicate CandidateMatches(h: Harness, d: Dir, m: AttemptRecord, r: RunResult) {
    if r.candidatePatchHash.Some? then
      && NCandidate in m.artifacts
      && CandidatePatch in d && d[CandidatePatch].PatchFile? && h.hashDiff(d[CandidatePatch].patch) == r.candidatePatchHash.value
    else NCandidate !in m.artifacts
  }

  /** The scorer folder: every payload present, the result agrees with its manifest, the final diff with its hash. */
  predicate ScorerFolderAccepted(h: Harness, d: Dir) {
    && (forall f: ScorerFile :: Nested(f) in d && d[Nested(f)].ScorerPayload? && d[Nested(f)].file == f)
    && var manifest, result, diff := d[Nested(ScorerManifest)].attempt, d[Nested(AttemptJson)].attempt, d[Nested(FinalDiff)].attempt;
       && Scorer.ValidAttemptResult(result.result)
       && result.result.identity == manifest.result.identity && result.result.status == manifest.result.status
       && (result.result.finalDiffHash.Some? ==> h.hashDiff(diff.finalDiff) == result.result.finalDiffHash.value)
  }

  predicate SameScorerSummary(a: Scorer.AttemptResult, b: Scorer.AttemptResult) {
    && a.identity.scorerAttemptId == b.identity.scorerAttemptId
    && (a.status, a.publicStatus, a.hiddenStatus) == (b.status, b.publicStatus, b.hiddenStatus)
    && a.errorClass == b.errorClass && a.finalDiffHash == b.finalDiffHash
  }

  predicate NestedMatches(h: Harness, d: Dir, m: AttemptRecord, r: RunResult) {
    if NAttempt !in m.artifacts then r.attemptResult.None?
    else
      && r.attemptResult.Some? && ScorerFolderAccepted(h, d)
      && SameScorerSummary(d[Nested(AttemptJson)].attempt.result, r.attemptResult.value)
  }

  /** _validate_agent_attempt, on a directory whose final manifest parsed as m. */
  predicate AgentAttemptAccepted(h: Harness, d: Dir, m: AttemptRecord) {
    && ArtifactsExist(d, m)
    && RunJson in d && d[RunJson].RunFile? && ValidRunResult(d[RunJson].run)
    && ResultMatchesManifest(d[RunJson].run, m)
    && PayloadsMatch(d, m)
    && CandidateMatches(h, d, m, d[RunJson].run)
    && NestedMatches(h, d, m, d[RunJson].run)
  }

  datatype Policy = ModelPolicy(model: Provenance, decoding: Provenance) | ControlPolicy(script: string)

  /** What the suite declaration fixes about one attempt. */
  datatype Expectation = Expectation(evalAttempt: EvalRef, taskId: string, taskManifestPath: string, policy: Policy)

  /** The inputs a conforming process runs the attempt with. */
  function PlanOf(x: Expectation): Plan {
    match x.policy
    case ModelPolicy(model, decoding) => Plan(Some(x.evalAttempt), Some(model), decoding, None)
    case ControlPolicy(script) => Plan(Some(x.evalAttempt), None, Provenance(0, ""), Some(script))
  }

  /** Does a loaded generation belong to this declared attempt? */
  predicate GenerationDeclared(l: Loaded, x: Expectation) {
    && x.policy.ModelPolicy?
    && l.record.evalAttempt == x.evalAttempt && l.record.taskId == x.taskId
    && l.record.taskManifestPath == x.taskManifestPath
    && l.model == x.policy.model && l.decoding == x.policy.decoding
  }

  predicate PolicyAccepted(h: Harness, d: Dir, m: AttemptRecord, r: RunResult, x: Expectation) {
    match x.policy
    case ControlPolicy(script) =>
      && NControlScript in m.artifacts
      && ControlScriptJson in d && d[ControlScriptJson] == ScriptFile(script)
      && NGeneration !in m.artifacts
    case ModelPolicy(_, _) =>
      && NGeneration in m.artifacts && m.promptLoopStatus.Some?
      && LoadGeneration(h, d).Some?
      && var l := LoadGeneration(h, d).value;
         && GenerationDeclared(l, x)
         && l.record.agentAttemptId == m.agentAttemptId
         && Some(l.record.promptLoopStatus) == m.promptLoopStatus
         && l.record.candidatePatchHash == r.candidatePatchHash
         && NModel in m.artifacts && NModel in l.record.artifacts && m.artifacts[NModel] == l.record.artifacts[NModel]
         && NDecoding in m.artifacts && NDecoding in l.record.artifacts && m.artifacts[NDecoding] == l.record.artifacts[NDecoding]
  }

  /** _validate_completed_attempt for agent policies. */
  predicate CompletedAccepted(h: Harness, d: Dir, x: Expectation) {
    && FinalManifest in d && d[FinalManifest].RecordFile?
    && var m := d[FinalManifest].record;
       && ValidAttemptRecord(m)
       && m.evalAttempt == Some(x.evalAttempt) && m.taskId == x.taskId && m.taskManifestPath == x.taskManifestPath
       && AgentAttemptAccepted(h, d, m)
       && PolicyAccepted(h, d, m, d[RunJson].run, x)
  }

  // ---------------------------------------------------------------- every finished directory is accepted

  /** The scorer hashes diffs with the harness's hash. */
  ghost predicate OneDiffHash(h: Harness) {
    forall path, patch, seed ::
      h.prepareScoring(path, patch, seed).Done? ==> HashesAgree(h, h.prepareScoring(path, patch, seed).value)
  }

  ghost predicate HashesAgree(h: Harness, w: Scorer.World) {
    forall s :: w.hashDiff(s) == h.hashDiff(s)
  }

  /** What scoring hands back for one generation. */
  predicate SoundRun(h: Harness, g: Generation, run: AgentTaskRun) {
    && ValidRunResult(RedactResult(h, run.result))
    && run.view == g.view && run.loop == g.loop && run.candidatePatch == g.candidatePatch
    && (run.result.agentAttemptId, run.result.taskId, run.result.taskManifestPath) == (g.agentAttemptId, g.taskId, g.taskManifestPath)
    && run.result.promptLoopStatus == (if g.loop.Some? then Some(g.loop.value.status) else None)
    && (run.result.candidatePatchHash.Some? ==> run.result.candidatePatchHash == Some(h.hashDiff(g.candidatePatch)))
    && (run.attemptRun.Some? <==> run.result.attemptResult.Some?)
    && (run.attemptRun.Some? ==>
          && run.result.attemptResult.value == run.attemptRun.value.result
          && Scorer.ValidAttemptResult(run.attemptRun.value.result)
          && (run.attemptRun.value.result.finalDiffHash.Some? ==>
                h.hashDiff(run.attemptRun.value.finalDiff) == run.attemptRun.value.result.finalDiffHash.value))
    && (run.result.status.Scored? ==> run.attemptRun.Some?)
  }

  lemma ScoredIsSound(h: Harness, path: string, readBack: Option<string>, generated: string, seed: Seed)
    requires OneDiffHash(h)
    ensures match Score(h, path, readBack, generated, seed)
      case ScoringRaised(_) => true
      case ScoringDone(run) =>
        && Scorer.ValidAttemptResult(run.result)
        && (run.result.finalDiffHash.Some? ==> h.hashDiff(run.finalDiff) == run.result.finalDiffHash.value)
  {
    var outcome := Score(h, path, readBack, generated, seed);
    if outcome.ScoringDone? {
      var step := h.prepareScoring(path, readBack.value, seed);
      assert HashesAgree(h, step.value);
      Scorer.AttemptIsValid(step.value);
    }
  }

  lemma FinishIsSound(h: Harness, g: Generation, scoringPath: Option<Location>, readBack: Option<string>, seed: Seed)
    requires WellFormed(g) && OneDiffHash(h)
    ensures SoundRun(h, g, Finish(h, g, scoringPath, readBack, seed))
  {
    ScoredIsSound(h, g.taskManifestPath, readBack, g.candidatePatch, seed);
  }

  /** Where the inputs of a finished directory come from. */
  predicate InputsPresent(h: Harness, d: Dir, plan: Plan, g: Generation, run: AgentTaskRun) {
    && DecodingJson in d && d[DecodingJson] == DecodingFile(plan.decoding)
    && (plan.model.Some? ==> ModelJson in d && d[ModelJson] == ModelFile(plan.model.value))
    && (plan.script.Some? ==> ControlScriptJson in d && d[ControlScriptJson] == ScriptFile(plan.script.value))
    && (g.view.Some? ==> ViewJson in d && d[ViewJson] == ViewFile(g.view.value))
    && (g.loop.Some? ==> LoopJson in d && d[LoopJson] == LoopFile(RedactLoop(h, g.loop.value)))
    && (run.result.candidatePatchHash.Some? ==> CandidatePatch in d && d[CandidatePatch] == PatchFile(g.candidatePatch))
  }

  predicate OutputsPresent(h: Harness, d: Dir, plan: Plan, run: AgentTaskRun, owns: bool) {
    && RunJson in d && d[RunJson] == RunFile(RedactResult(h, run.result))
    && ErrorTxt in d && d[ErrorTxt] == ErrorFile(run.errorDetails)
    && FinalManifest in d && d[FinalManifest] == RecordFile(RecordOfAttempt(plan, run, owns))
    && (run.attemptRun.Some? ==>
          && AttemptFolder in d && d[AttemptFolder].Folder?
          && forall f: ScorerFile :: Nested(f) in d && d[Nested(f)] == ScorerPayload(f, run.attemptRun.value))
  }

  const INPUT_SLOTS := {DecodingJson, ModelJson, ControlScriptJson, ViewJson, LoopJson, CandidatePatch}

  /** The five layers of a finished write do not overlap. */
  lemma LayersAreDisjoint(run: Content, inputs: Dir, error: Content, scorer: Dir, record: Content)
    requires inputs.Keys <= INPUT_SLOTS
    requires forall s :: s in scorer ==> s.Nested? || s.AttemptFolder?
    ensures var m := map[RunJson := run] + inputs + map[ErrorTxt := error] + scorer + map[FinalManifest := record];
      && RunJson in m && m[RunJson] == run
      && ErrorTxt in m && m[ErrorTxt] == error
      && FinalManifest in m && m[FinalManifest] == record
      && (forall s :: s in scorer ==> s in m && m[s] == scorer[s])
      && (forall s :: s in inputs ==> s in m && m[s] == inputs[s])
      && (forall s :: s in INPUT_SLOTS && s !in inputs ==> s !in m)
      && GenerationManifest !in m && GenerationManifestTmp !in m
  {
  }

  lemma InputFilesAre(h: Harness, plan: Plan, run: AgentTaskRun, owns: bool)
    ensures var m := InputFiles(h, plan, run, owns);
      && m.Keys <= INPUT_SLOTS
      && (plan.script.Some? ==> ControlScriptJson in m && m[ControlScriptJson] == ScriptFile(plan.script.value))
      && (owns ==> m.Keys <= {ControlScriptJson})
      && (!owns ==>
            && DecodingJson in m && m[DecodingJson] == DecodingFile(plan.decoding)
            && (plan.model.Some? ==> ModelJson in m && m[ModelJson] == ModelFile(plan.model.value))
            && (run.view.Some? ==> ViewJson in m && m[ViewJson] == ViewFile(run.view.value))
            && (run.loop.Some? ==> LoopJson in m && m[LoopJson] == LoopFile(RedactLoop(h, run.loop.value)))
            && (run.result.candidatePatchHash.Some? ==> CandidatePatch in m && m[CandidatePatch] == PatchFile(run.candidatePatch)))
  {
    if owns {
      OwnedInputFilesAre(h, plan, run);
    } else {
      FreshInputFilesAre(h, plan, run);
    }
  }

  lemma OwnedInputFilesAre(h: Harness, plan: Plan, run: AgentTaskRun)
    ensures InputFiles(h, plan, run, true) == if plan.script.Some? then map[ControlScriptJson := ScriptFile(plan.script.value)] else map[]
  {
  }

  function OptionalFile(slot: Slot, content: Option<Content>): (d: Dir)
    ensures d.Keys <= {slot}
    ensures content.Some? ==> slot in d && d[slot] == content.value
  {
    if content.Some? then map[slot := content.value] else map[]
  }

  lemma FreshInputFilesAre(h: Harness, plan: Plan, run: AgentTaskRun)
    ensures var m := InputFiles(h, plan, run, false);
      && m.Keys <= INPUT_SLOTS
      && (plan.script.Some? ==> ControlScriptJson in m && m[ControlScriptJson] == ScriptFile(plan.script.value))
      && DecodingJson in m && m[DecodingJson] == DecodingFile(plan.decoding)
      && (plan.model.Some? ==> ModelJson in m && m[ModelJson] == ModelFile(plan.model.value))
      && (run.view.Some? ==> ViewJson in m && m[ViewJson] == ViewFile(run.view.value))
      && (run.loop.Some? ==> LoopJson in m && m[LoopJson] == LoopFile(RedactLoop(h, run.loop.value)))
      && (run.result.candidatePatchHash.Some? ==> CandidatePatch in m && m[CandidatePatch] == PatchFile(run.candidatePatch))
  {
    var model := if plan.model.Some? then Some(ModelFile(plan.model.value)) else None;
    var script := if plan.script.Some? then Some(ScriptFile(plan.script.value)) else None;
    var view := if run.view.Some? then Some(ViewFile(run.view.value)) else None;
    var loop := if run.loop.Some? then Some(LoopFile(RedactLoop(h, run.loop.value))) else None;
    var patch := if run.result.candidatePatchHash.Some? then Some(PatchFile(run.candidatePatch)) else None;
    SixLayers(map[DecodingJson := DecodingFile(plan.decoding)], model, script, view, loop, patch);
    InputFilesInLayers(h, plan, run, model, script, view, loop, patch);
  }

  lemma InputFilesInLayers(h: Harness, plan: Plan, run: AgentTaskRun, model: Option<Content>, script: Option<Content>,
                           view: Option<Content>, loop: Option<Content>, patch: Option<Content>)
    requires model == if plan.model.Some? then Some(ModelFile(plan.model.value)) else None
    requires script == if plan.script.Some? then Some(ScriptFile(plan.script.value)) else None
    requires view == if run.view.Some? then Some(ViewFile(run.view.value)) else None
    requires loop == if run.loop.Some? then Some(LoopFile(RedactLoop(h, run.loop.value))) else None
    requires patch == if run.result.candidatePatchHash.Some? then Some(PatchFile(run.candidatePatch)) else None
    ensures InputFiles(h, plan, run, false)
         == map[DecodingJson := DecodingFile(plan.decoding)] + OptionalFile(ModelJson, model) + OptionalFile(ControlScriptJson, script)
            + OptionalFile(ViewJson, view) + OptionalFile(LoopJson, loop) + OptionalFile(CandidatePatch, patch)
  {
  }

  lemma SixLayers(a: Dir, model: Option<Content>, script: Option<Content>, view: Option<Content>, loop: Option<Content>, patch: Option<Content>)
    requires a.Keys == {DecodingJson}
    ensures var m := a + OptionalFile(ModelJson, model) + OptionalFile(ControlScriptJson, script)
                     + OptionalFile(ViewJson, view) + OptionalFile(LoopJson, loop) + OptionalFile(CandidatePatch, patch);
      && m.Keys <= INPUT_SLOTS
      && DecodingJson in m && m[DecodingJson] == a[DecodingJson]
      && (model.Some? ==> ModelJson in m && m[ModelJson] == model.value)
      && (script.Some? ==> ControlScriptJson in m && m[ControlScriptJson] == script.value)
      && (view.Some? ==> ViewJson in m && m[ViewJson] == view.value)
      && (loop.Some? ==> LoopJson in m && m[LoopJson] == loop.value)
      && (patch.Some? ==> CandidatePatch in m && m[CandidatePatch] == patch.value)
  {
  }

  lemma RunFilesAre(h: Harness, plan: Plan, run: AgentTaskRun, owns: bool)
    ensures var m, inputs := RunFiles(h, plan, run, owns), InputFiles(h, plan, run, owns);
      && OutputsPresent(h, m, plan, run, owns)
      && inputs.Keys <= INPUT_SLOTS
      && (forall s :: s in inputs ==> s in m && m[s] == inputs[s])
      && (forall s :: s in INPUT_SLOTS && s !in inputs ==> s !in m)
      && GenerationManifest !in m
  {
    InputFilesAre(h, plan, run, owns);
    var scorer := if run.attemptRun.Some? then ScorerFiles(run.attemptRun.value) else map[];
    LayersAreDisjoint(RunFile(RedactResult(h, run.result)), InputFiles(h, plan, run, owns), ErrorFile(run.errorDetails),
                      scorer, RecordFile(RecordOfAttempt(plan, run, owns)));
  }

  lemma OutputsLand(h: Harness, before: Dir, plan: Plan, run: AgentTaskRun, owns: bool)
    ensures OutputsPresent(h, Exec(before, WriteOps(h, plan, run, owns)), plan, run, owns)
  {
    RunFilesLand(h, plan, run, owns);
    RunFilesAre(h, plan, run, owns);
    OutputsSurvive(h, before, RunFiles(h, plan, run, owns), plan, run, owns);
  }

  lemma OutputsSurvive(h: Harness, before: Dir, m: Dir, plan: Plan, run: AgentTaskRun, owns: bool)
    requires OutputsPresent(h, m, plan, run, owns)
    ensures OutputsPresent(h, before + m, plan, run, owns)
  {
  }

  /** Nothing the final phase writes replaces a file of the published generation. */
  lemma OwnedInputsStay(h: Harness, before: Dir, plan: Plan, run: AgentTaskRun, s: Slot)
    requires s in {DecodingJson, ModelJson, ViewJson, LoopJson, CandidatePatch, GenerationManifest} && s in before
    ensures var d := Exec(before, WriteOps(h, plan, run, true)); s in d && d[s] == before[s]
  {
    RunFilesLand(h, plan, run, true);
    RunFilesAre(h, plan, run, true);
    InputFilesAre(h, plan, run, true);
    NotWritten(before, RunFiles(h, plan, run, true), s);
  }

  lemma NotWritten(before: Dir, m: Dir, s: Slot)
    requires s in before && s !in m
    ensures s in before + m && (before + m)[s] == before[s]
  {
  }

  lemma PublishedInputs(h: Harness, plan: Plan, g: Generation, seed: Seed)
    requires AttemptRecovery.Published(plan, g)
    ensures InputsPresent(h, AttemptRecovery.FinalDir(h, plan, g, seed), plan, g, FinishPublished(h, g, seed))
    ensures GenerationManifest in AttemptRecovery.FinalDir(h, plan, g, seed)
         && !AttemptRecovery.FinalDir(h, plan, g, seed)[GenerationManifest].Folder?
  {
    var committed, run := AttemptRecovery.Committed(h, plan, g), FinishPublished(h, g, seed);
    OwnedInputsStay(h, committed, plan, run, DecodingJson);
    OwnedInputsStay(h, committed, plan, run, ModelJson);
    OwnedInputsStay(h, committed, plan, run, ViewJson);
    OwnedInputsStay(h, committed, plan, run, LoopJson);
    OwnedInputsStay(h, committed, plan, run, GenerationManifest);
    if g.loop.value.status.Completed? {
      OwnedInputsStay(h, committed, plan, run, CandidatePatch);
    }
  }

  lemma UndeclaredInputs(h: Harness, plan: Plan, g: Generation, run: AgentTaskRun)
    requires run.view == g.view && run.loop == g.loop && run.candidatePatch == g.candidatePatch
    ensures InputsPresent(h, Exec(map[], WriteOps(h, plan, run, false)), plan, g, run)
  {
    RunFilesLand(h, plan, run, false);
    UndeclaredRunFiles(h, plan, g, run);
    LandedOnNothing(WriteOps(h, plan, run, false), RunFiles(h, plan, run, false));
  }

  lemma LandedOnNothing(ops: seq<FileOp>, m: Dir)
    requires Lands(ops, m)
    ensures Exec(map[], ops) == m
  {
    assert map[] + m == m;
  }

  lemma UndeclaredRunFiles(h: Harness, plan: Plan, g: Generation, run: AgentTaskRun)
    requires run.view == g.view && run.loop == g.loop && run.candidatePatch == g.candidatePatch
    ensures InputsPresent(h, RunFiles(h, plan, run, false), plan, g, run)
  {
    RunFilesAre(h, plan, run, false);
    InputFilesAre(h, plan, run, false);
    InputsPresentBy(h, RunFiles(h, plan, run, false), InputFiles(h, plan, run, false), plan, g, run);
  }

  lemma InputsPresentBy(h: Harness, m: Dir, inputs: Dir, plan: Plan, g: Generation, run: AgentTaskRun)
    requires InputsPresent(h, inputs, plan, g, run)
    requires forall s :: s in inputs ==> s in m && m[s] == inputs[s]
    ensures InputsPresent(h, m, plan, g, run)
  {
  }

  lemma RecordIsValid(h: Harness, plan: Plan, g: Generation, run: AgentTaskRun, owns: bool)
    requires WellFormed(g) && SoundRun(h, g, run)
    requires owns ==> plan.model.Some? && plan.script.None? && g.loop.Some?
    ensures ValidAttemptRecord(RecordOfAttempt(plan, run, owns))
  {
    var names := IncludedNames(plan, run, owns);
    var m := RecordOfAttempt(plan, run, owns);
    assert m.artifacts.Keys == names;
    IncludedAre(plan, run, owns);
    var r := RedactResult(h, run.result);
    assert ValidRunResult(r);
    assert r.status == m.status && r.promptLoopStatus == m.promptLoopStatus;
  }

  lemma IncludedAre(plan: Plan, run: AgentTaskRun, owns: bool)
    ensures var names := IncludedNames(plan, run, owns);
      && {NRun, NError, NDecoding} <= names <= ATTEMPT_NAMES
      && (NGeneration in names <==> owns) && (NModel in names <==> plan.model.Some?) && (NControlScript in names <==> plan.script.Some?)
      && (NView in names <==> run.view.Some?) && (NLoop in names <==> run.loop.Some?)
      && (NCandidate in names <==> run.result.candidatePatchHash.Some?) && (NAttempt in names <==> run.attemptRun.Some?)
  {
  }

  lemma NamesExist(h: Harness, d: Dir, plan: Plan, g: Generation, run: AgentTaskRun, owns: bool)
    requires SoundRun(h, g, run)
    requires InputsPresent(h, d, plan, g, run) && OutputsPresent(h, d, plan, run, owns)
    requires owns ==> GenerationManifest in d && !d[GenerationManifest].Folder?
    ensures ArtifactsExist(d, RecordOfAttempt(plan, run, owns))
  {
    IncludedAre(plan, run, owns);
    var m := RecordOfAttempt(plan, run, owns);
    forall name | name in m.artifacts
      ensures m.artifacts[name] in d && (d[m.artifacts[name]].Folder? <==> name == NAttempt)
    {
      assert name in IncludedNames(plan, run, owns) && m.artifacts[name] == RefOf(name);
      NameExists(h, d, plan, g, run, owns, name);
    }
  }

  lemma NameExists(h: Harness, d: Dir, plan: Plan, g: Generation, run: AgentTaskRun, owns: bool, name: ArtifactName)
    requires SoundRun(h, g, run) && name in IncludedNames(plan, run, owns)
    requires InputsPresent(h, d, plan, g, run) && OutputsPresent(h, d, plan, run, owns)
    requires owns ==> GenerationManifest in d && !d[GenerationManifest].Folder?
    ensures RefOf(name) in d && (d[RefOf(name)].Folder? <==> name == NAttempt)
  {
    IncludedAre(plan, run, owns);
  }

  lemma PresentIsAccepted(h: Harness, d: Dir, plan: Plan, g: Generation, run: AgentTaskRun, owns: bool)
    requires WellFormed(g) && SoundRun(h, g, run)
    requires InputsPresent(h, d, plan, g, run) && OutputsPresent(h, d, plan, run, owns)
    requires owns ==> GenerationManifest in d && !d[GenerationManifest].Folder?
    ensures AgentAttemptAccepted(h, d, RecordOfAttempt(plan, run, owns))
  {
    var m := RecordOfAttempt(plan, run, owns);
    NamesExist(h, d, plan, g, run, owns);
    if g.loop.Some? {
      AttemptRecovery.RedactionKeepsValidity(h, g.loop.value);
    }
    IncludedAre(plan, run, owns);
    assert ResultMatchesManifest(RedactResult(h, run.result), m);
    PayloadsAccepted(h, d, plan, g, run, owns);
    assert CandidateMatches(h, d, m, RedactResult(h, run.result));
    NestedAccepted(h, d, plan, g, run, owns);
  }

  lemma PayloadsAccepted(h: Harness, d: Dir, plan: Plan, g: Generation, run: AgentTaskRun, owns: bool)
    requires WellFormed(g) && SoundRun(h, g, run) && InputsPresent(h, d, plan, g, run)
    ensures PayloadsMatch(d, RecordOfAttempt(plan, run, owns))
  {
    IncludedAre(plan, run, owns);
    if g.loop.Some? {
      AttemptRecovery.RedactionKeepsValidity(h, g.loop.value);
    }
  }

  lemma NestedAccepted(h: Harness, d: Dir, plan: Plan, g: Generation, run: AgentTaskRun, owns: bool)
    requires SoundRun(h, g, run) && OutputsPresent(h, d, plan, run, owns)
    ensures NestedMatches(h, d, RecordOfAttempt(plan, run, owns), RedactResult(h, run.result))
  {
    IncludedAre(plan, run, owns);
  }

  // ---------------------------------------------------------------- the main results

  /** What the entry point finished with. */
  function FinishedRun(h: Harness, plan: Plan, g: Generation, seed: Seed): AgentTaskRun
    requires WellFormed(g) && (Declared(plan) ==> Terminal(g))
  {
    if Declared(plan) then FinishPublished(h, g, seed)
    else Finish(h, g, None, if g.candidatePath.Some? then Some(g.candidatePatch) else None, seed)
  }

  lemma UninterruptedIsAccepted(h: Harness, plan: Plan, g: Generation, seed: Seed)
    requires OneDiffHash(h) && Allowed(plan) && WellFormed(g) && (Declared(plan) ==> Terminal(g))
    ensures var d, m := Exec(map[], FreshOps(h, plan, g, seed)), RecordOfAttempt(plan, FinishedRun(h, plan, g, seed), Declared(plan));
      && FinalManifest in d && d[FinalManifest] == RecordFile(m)
      && ValidAttemptRecord(m) && AgentAttemptAccepted(h, d, m)
  {
    var run := FinishedRun(h, plan, g, seed);
    if Declared(plan) {
      FinishIsSound(h, g, if g.loop.value.status.Completed? then Some(InAttemptDirectory) else None,
                    if g.loop.value.status.Completed? then Some(g.candidatePatch) else None, seed);
      AttemptRecovery.UninterruptedIsFinal(h, plan, g, seed);
      PublishedInputs(h, plan, g, seed);
      OutputsLand(h, AttemptRecovery.Committed(h, plan, g), plan, run, true);
    } else {
      FinishIsSound(h, g, None, if g.candidatePath.Some? then Some(g.candidatePatch) else None, seed);
      UndeclaredInputs(h, plan, g, run);
      OutputsLand(h, map[], plan, run, false);
    }
    RecordIsValid(h, plan, g, run, Declared(plan));
    PresentIsAccepted(h, Exec(map[], FreshOps(h, plan, g, seed)), plan, g, run, Declared(plan));
  }

  /**
   A visible final manifest is sound.  Wherever a fresh run is cut, for every combination of inputs it does not
   refuse: if the final manifest is there, it validates, every artifact it names exists, and the stored result,
   transcript, candidate and scorer folder agree with it.
   */
  lemma FinalManifestIsSound(h: Harness, plan: Plan, g: Generation, seed: Seed, k: nat)
    requires OneDiffHash(h) && Allowed(plan) && WellFormed(g)
    requires k <= |FreshOps(h, plan, g, seed)|
    requires FinalManifest in CrashAfter(map[], FreshOps(h, plan, g, seed), k)
    ensures var d := CrashAfter(map[], FreshOps(h, plan, g, seed), k);
      && d[FinalManifest].RecordFile? && ValidAttemptRecord(d[FinalManifest].record)
      && AgentAttemptAccepted(h, d, d[FinalManifest].record)
  {
    FinalManifestIsLast(h, plan, g, seed, k);
    var ops := FreshOps(h, plan, g, seed);
    assert ops[..|ops|] == ops;
    UninterruptedIsAccepted(h, plan, g, seed);
  }

  /** The final manifest appears with the very last operation. */
  lemma FinalManifestIsLast(h: Harness, plan: Plan, g: Generation, seed: Seed, k: nat)
    requires Allowed(plan) && WellFormed(g) && k <= |FreshOps(h, plan, g, seed)|
    requires FinalManifest in CrashAfter(map[], FreshOps(h, plan, g, seed), k)
    ensures k == |FreshOps(h, plan, g, seed)| && (Declared(plan) ==> Terminal(g))
  {
    if Declared(plan) {
      if Terminal(g) {
        var a := GenerationOps(h, plan, g);
        if k < |a| {
          CrashInFirst(map[], a, WriteOps(h, plan, FinishPublished(h, g, seed), true), k);
          AttemptRecovery.GenerationIsAtomic(h, plan, g, k);
        } else {
          AttemptRecovery.FreshCrash(h, plan, g, seed, k);
        }
      }
    } else {
      var run := FinishedRun(h, plan, g, seed);
      var ops, last := DownstreamOps(h, plan, run, false), Write(FinalManifest, RecordFile(RecordOfAttempt(plan, run, false)));
      if k <= |ops| {
        CrashInFirst(map[], ops, [last], k);
        NoManifestYet(h, plan, run, k);
      }
    }
  }

  lemma NoManifestYet(h: Harness, plan: Plan, run: AgentTaskRun, k: nat)
    requires k <= |DownstreamOps(h, plan, run, false)|
    ensures FinalManifest !in CrashAfter(map[], DownstreamOps(h, plan, run, false), k)
  {
    var ops := DownstreamOps(h, plan, run, false);
    WritesNoManifest(h, plan, run);
    var done := ops[..k];
    forall i | 0 <= i < |done| ensures done[i].Write? && done[i].slot != FinalManifest {
      assert done[i] == ops[i];
    }
    ExecWrites(map[], done);
  }

  lemma WritesNoManifest(h: Harness, plan: Plan, run: AgentTaskRun)
    ensures var ops := DownstreamOps(h, plan, run, false);
      forall i :: 0 <= i < |ops| ==> ops[i].Write? && ops[i].slot !in {FinalManifest, GenerationManifest}
  {
    var input := InputOps(h, plan, run, false);
    assert forall i :: 0 <= i < |input| ==> input[i].Write? && input[i].slot in INPUT_SLOTS;
  }

  /** A finished model attempt is accepted as the declared one, whoever finished it. */
  lemma FinishedModelAttemptIsAccepted(h: Harness, x: Expectation, g: Generation, seed: Seed)
    requires OneDiffHash(h) && x.policy.ModelPolicy? && AttemptRecovery.Published(PlanOf(x), g)
    requires g.taskId == x.taskId && g.taskManifestPath == x.taskManifestPath
    ensures CompletedAccepted(h, AttemptRecovery.FinalDir(h, PlanOf(x), g, seed), x)
  {
    var plan := PlanOf(x);
    var d := AttemptRecovery.FinalDir(h, plan, g, seed);
    UninterruptedIsAccepted(h, plan, g, seed);
    AttemptRecovery.UninterruptedIsFinal(h, plan, g, seed);
    AttemptRecovery.FinishedIsFinal(h, plan, g, seed);
    AttemptRecovery.CommittedLoads(h, plan, g, d);
    var run := FinishPublished(h, g, seed);
    OutputsLand(h, AttemptRecovery.Committed(h, plan, g), plan, run, true);
    ModelPolicyHolds(h, d, x, g, seed);
    FinishNames(h, g, seed);
    AllAccepted(h, d, x, RecordOfAttempt(plan, run, true), RedactResult(h, run.result));
  }

  lemma FinishNames(h: Harness, g: Generation, seed: Seed)
    requires WellFormed(g) && Terminal(g)
    ensures var r := FinishPublished(h, g, seed).result; r.taskId == g.taskId && r.taskManifestPath == g.taskManifestPath
  {
  }

  lemma AllAccepted(h: Harness, d: Dir, x: Expectation, m: AttemptRecord, r: RunResult)
    requires FinalManifest in d && d[FinalManifest] == RecordFile(m) && RunJson in d && d[RunJson] == RunFile(r)
    requires ValidAttemptRecord(m) && AgentAttemptAccepted(h, d, m) && PolicyAccepted(h, d, m, r, x)
    requires m.evalAttempt == Some(x.evalAttempt) && m.taskId == x.taskId && m.taskManifestPath == x.taskManifestPath
    ensures CompletedAccepted(h, d, x)
  {
  }

  lemma ModelPolicyHolds(h: Harness, d: Dir, x: Expectation, g: Generation, seed: Seed)
    requires x.policy.ModelPolicy? && AttemptRecovery.Published(PlanOf(x), g)
    requires g.taskId == x.taskId && g.taskManifestPath == x.taskManifestPath
    requires LoadGeneration(h, d) == Some(AttemptRecovery.LoadedOf(h, PlanOf(x), g))
    ensures var run := FinishPublished(h, g, seed);
      PolicyAccepted(h, d, RecordOfAttempt(PlanOf(x), run, true), RedactResult(h, run.result), x)
  {
    var run := FinishPublished(h, g, seed);
    IncludedAre(PlanOf(x), run, true);
    LoadedIsDeclared(h, x, g);
    GenerationRefs(h, PlanOf(x), g);
    assert RecordOfAttempt(PlanOf(x), run, true).artifacts[NModel] == ModelJson;
  }

  lemma GenerationRefs(h: Harness, plan: Plan, g: Generation)
    requires AttemptRecovery.Published(plan, g)
    ensures var refs := RecordOfGeneration(h, plan, g).artifacts;
      NModel in refs && refs[NModel] == ModelJson && NDecoding in refs && refs[NDecoding] == DecodingJson
  {
  }

  lemma LoadedIsDeclared(h: Harness, x: Expectation, g: Generation)
    requires x.policy.ModelPolicy? && AttemptRecovery.Published(PlanOf(x), g)
    requires g.taskId == x.taskId && g.taskManifestPath == x.taskManifestPath
    ensures GenerationDeclared(AttemptRecovery.LoadedOf(h, PlanOf(x), g), x)
  {
  }

  /** The directory a control-script attempt finishes with. */
  function ControlDir(h: Harness, x: Expectation, g: Generation, seed: Seed): Dir
    requires x.policy.ControlPolicy? && WellFormed(g)
  {
    Exec(map[], FreshOps(h, PlanOf(x), g, seed))
  }

  lemma ControlAcceptedByTaskId(h: Harness, x: Expectation, g: Generation, seed: Seed)
    requires OneDiffHash(h) && x.policy.ControlPolicy? && WellFormed(g) && g.taskManifestPath == x.taskManifestPath
    ensures CompletedAccepted(h, ControlDir(h, x, g, seed), x) <==> g.taskId == x.taskId
    ensures FinalManifest in ControlDir(h, x, g, seed)
  {
    var plan := PlanOf(x);
    UninterruptedIsAccepted(h, plan, g, seed);
    var run := FinishedRun(h, plan, g, seed);
    IncludedAre(plan, run, false);
    FinishIsSound(h, g, None, if g.candidatePath.Some? then Some(g.candidatePatch) else None, seed);
    UndeclaredInputs(h, plan, g, run);
    OutputsLand(h, map[], plan, run, false);
  }

  lemma ControlTaskKnown(h: Harness, x: Expectation, g: Generation, e: AgentGeneration.Environment, result: Option<PromptLoop.PromptLoopResult>)
    requires AgentGeneration.Records(g, e, result)
    requires e.prepared.Done? ==> e.prepared.value.input.taskId == x.taskId
    ensures g.taskId == x.taskId <==> e.prepared.Done? || x.taskId == AgentGeneration.UNKNOWN_TASK
  {
  }

  /** The generation some client produced for the declared task in environment e. */
  ghost predicate GeneratedFor(x: Expectation, g: Generation, e: AgentGeneration.Environment, modelId: string,
                               reply: (nat, seq<PromptLoop.Message>) -> PromptLoop.GenerateOutcome)
  {
    && AgentGeneration.Records(g, e, AgentGeneration.ResultFor(e, modelId, reply, 0))
    && (AgentGeneration.EntersLoop(e) ==> PromptLoopLaws.HonestWorld(AgentGeneration.LoopRun(e, modelId, reply, 0)))
    && e.taskManifestPath == x.taskManifestPath
    && (e.prepared.Done? ==> e.prepared.value.input.taskId == x.taskId)
  }

  /**
   A control attempt always finishes, and is then accepted exactly when its workspace could be prepared: one that
   failed before that records the task as unknown and is rejected, unless that happens to be the declared id.
   */
  lemma FinishedControlAttemptIsAcceptedIff(h: Harness, x: Expectation, g: Generation, e: AgentGeneration.Environment, modelId: string,
                                            reply: (nat, seq<PromptLoop.Message>) -> PromptLoop.GenerateOutcome, seed: Seed)
    requires OneDiffHash(h) && x.policy.ControlPolicy? && GeneratedFor(x, g, e, modelId, reply)
    ensures WellFormed(g) && FinalManifest in ControlDir(h, x, g, seed)
    ensures CompletedAccepted(h, ControlDir(h, x, g, seed), x) <==> e.prepared.Done? || x.taskId == AgentGeneration.UNKNOWN_TASK
  {
    AgentGeneration.GenerationIsWellFormed(g, e, modelId, reply, 0);
    ControlAcceptedByTaskId(h, x, g, seed);
    ControlTaskKnown(h, x, g, e, AgentGeneration.ResultFor(e, modelId, reply, 0));
  }

  /** Any environment in which preparing the workspace raises shows it. */
  lemma UnpreparedControlIsRejected(h: Harness, x: Expectation, e: AgentGeneration.Environment, exn: Scorer.Exn, seed: Seed)
    requires OneDiffHash(h) && x.policy.ControlPolicy? && x.taskId != AgentGeneration.UNKNOWN_TASK
    ensures var failing := e.(taskManifestPath := x.taskManifestPath, prepared := Scorer.Threw(exn));
      var g := AgentGeneration.RecordFor(failing, None);
      && WellFormed(g) && FinalManifest in ControlDir(h, x, g, seed)
      && !CompletedAccepted(h, ControlDir(h, x, g, seed), x)
  {
    var failing := e.(taskManifestPath := x.taskManifestPath, prepared := Scorer.Threw(exn));
    ControlAcceptedByTaskId(h, x, AgentGeneration.RecordFor(failing, None), seed);
  }
}
