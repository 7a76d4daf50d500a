/**
 What the files of an attempt hold at every moment of a run: the transcript with every string of it redacted, the
 inputs as they were given, and a generation manifest that describes exactly the generation beside it.
 */
module StoredAttempt {
  import opened Wrappers
  import opened AgentAttempt
  import PromptLoop
  import Scorer = ScorerAttempt
  import AttemptRecovery
  import AttemptDirectories

  // ---------------------------------------------------------------- a redacted transcript

  predicate RedactedOpt(h: Harness, stored: Option<string>, original: Option<string>) {
    (stored.Some? <==> original.Some?) && (stored.Some? && original.Some? ==> stored.value == h.redact(original.value))
  }

  predicate RedactedText(h: Harness, stored: string, original: string) {
    stored == h.redact(original)
  }

  predicate RedactedMetadata(h: Harness, stored: map<string, string>, original: map<string, string>) {
    stored.Keys == original.Keys && forall key :: key in original ==> key in stored && RedactedText(h, stored[key], original[key])
  }

  predicate RedactedMessage(h: Harness, stored: PromptLoop.Message, original: PromptLoop.Message) {
    && stored.id == original.id && stored.role == original.role
    && RedactedText(h, stored.content, original.content)
    && RedactedOpt(h, stored.name, original.name) && RedactedOpt(h, stored.toolCallId, original.toolCallId)
    && RedactedMetadata(h, stored.metadata, original.metadata)
  }

  predicate RedactedResponse(h: Harness, stored: PromptLoop.ModelResponse, original: PromptLoop.ModelResponse) {
    && RedactedText(h, stored.modelId, original.modelId) && RedactedText(h, stored.outputText, original.outputText)
    && RedactedOpt(h, stored.errorClass, original.errorClass) && RedactedOpt(h, stored.errorMessage, original.errorMessage)
    && RedactedText(h, stored.rawResponseRef, original.rawResponseRef)
    && stored.finishReason == original.finishReason && stored.latencyMs == original.latencyMs
    && stored.promptTokens == original.promptTokens && stored.completionTokens == original.completionTokens
    && stored.totalTokens == original.totalTokens
  }

  predicate RedactedTool(h: Harness, stored: PromptLoop.ToolResult, original: PromptLoop.ToolResult) {
    && RedactedText(h, stored.toolName, original.toolName) && RedactedText(h, stored.argumentsHash, original.argumentsHash)
    && RedactedText(h, stored.workspaceHashBefore, original.workspaceHashBefore)
    && RedactedText(h, stored.workspaceHashAfter, original.workspaceHashAfter)
    && RedactedOpt(h, stored.output, original.output)
    && RedactedText(h, stored.stdout, original.stdout) && RedactedText(h, stored.stderr, original.stderr)
    && RedactedOpt(h, stored.errorClass, original.errorClass) && RedactedOpt(h, stored.errorMessage, original.errorMessage)
    && stored.status == original.status && stored.exitCode == original.exitCode && stored.durationMs == original.durationMs
  }

  /** The same run, told with every string of its messages, answers and tool results redacted. */
  predicate RedactedTranscript(h: Harness, stored: PromptLoop.PromptLoopResult, original: PromptLoop.PromptLoopResult) {
    && stored.taskId == original.taskId && stored.status == original.status && stored.turnsExecuted == original.turnsExecuted
    && stored.durationMs == original.durationMs && stored.tokenUsage == original.tokenUsage
    && |stored.messages| == |original.messages|
    && (forall i :: 0 <= i < |original.messages| ==> RedactedMessage(h, stored.messages[i], original.messages[i]))
    && |stored.modelResponses| == |original.modelResponses|
    && (forall i :: 0 <= i < |original.modelResponses| ==> RedactedResponse(h, stored.modelResponses[i], original.modelResponses[i]))
    && |stored.toolResults| == |original.toolResults|
    && (forall i :: 0 <= i < |original.toolResults| ==> RedactedTool(h, stored.toolResults[i], original.toolResults[i]))
    && RedactedOpt(h, stored.errorClass, original.errorClass) && RedactedOpt(h, stored.errorMessage, original.errorMessage)
  }

  lemma LoopIsRedacted(h: Harness, r: PromptLoop.PromptLoopResult)
    ensures RedactedTranscript(h, RedactLoop(h, r), r)
  {
    var stored := RedactLoop(h, r);
    forall i | 0 <= i < |r.messages| ensures RedactedMessage(h, stored.messages[i], r.messages[i]) {
      assert stored.messages[i] == RedactMessage(h, r.messages[i]);
    }
    forall i | 0 <= i < |r.modelResponses| ensures RedactedResponse(h, stored.modelResponses[i], r.modelResponses[i]) {
      assert stored.modelResponses[i] == RedactResponse(h, r.modelResponses[i]);
    }
    forall i | 0 <= i < |r.toolResults| ensures RedactedTool(h, stored.toolResults[i], r.toolResults[i]) {
      assert stored.toolResults[i] == RedactTool(h, r.toolResults[i]);
    }
  }

  // ---------------------------------------------------------------- at every moment of a run

  predicate Input(s: Slot) {
    s in {ViewJson, LoopJson, DecodingJson, ModelJson, ControlScriptJson, CandidatePatch}
  }

  /** An input file holds what the run was given or what it obtained. */
  predicate Holds(h: Harness, plan: Plan, g: Generation, s: Slot, c: Content) {
    match s
    case ViewJson => g.view.Some? && c == ViewFile(g.view.value)
    case LoopJson => g.loop.Some? && c.LoopFile? && RedactedTranscript(h, c.loop, g.loop.value)
    case DecodingJson => c == DecodingFile(plan.decoding)
    case ModelJson => plan.model.Some? && c == ModelFile(plan.model.value)
    case ControlScriptJson => plan.script.Some? && c == ScriptFile(plan.script.value)
    case CandidatePatch => g.candidatePath.Some? && c == PatchFile(g.candidatePatch)
    case _ => true
  }

  predicate AllHold(h: Harness, plan: Plan, g: Generation, d: Dir) {
    forall s :: s in d ==> Holds(h, plan, g, s, d[s])
  }

  /** An operation that leaves the input files holding what they should. */
  predicate Keeps(h: Harness, plan: Plan, g: Generation, op: FileOp) {
    match op
    case Write(s, c) => Holds(h, plan, g, s, c)
    case Remove(_) => true
    case Rename(_, target) => !Input(target)
  }

  lemma {:induction false} KeptThroughout(h: Harness, plan: Plan, g: Generation, d: Dir, ops: seq<FileOp>)
    requires AllHold(h, plan, g, d) && forall i :: 0 <= i < |ops| ==> Keeps(h, plan, g, ops[i])
    ensures AllHold(h, plan, g, Exec(d, ops))
  {
    if |ops| > 0 {
      var n := |ops| - 1;
      KeptThroughout(h, plan, g, d, ops[..n]);
      KeptByOne(h, plan, g, Exec(d, ops[..n]), ops[n]);
    }
  }

  lemma KeptByOne(h: Harness, plan: Plan, g: Generation, d: Dir, op: FileOp)
    requires AllHold(h, plan, g, d) && Keeps(h, plan, g, op)
    ensures AllHold(h, plan, g, Apply(d, op))
  {
  }

  lemma GenerationKeeps(h: Harness, plan: Plan, g: Generation)
    requires AttemptRecovery.Published(plan, g)
    ensures forall i :: 0 <= i < |GenerationOps(h, plan, g)| ==> Keeps(h, plan, g, GenerationOps(h, plan, g)[i])
  {
    LoopIsRedacted(h, g.loop.value);
  }

  lemma ScorerKeeps(h: Harness, plan: Plan, g: Generation, run: Scorer.AttemptRun)
    ensures forall i :: 0 <= i < |ScorerOps(run)| ==> Keeps(h, plan, g, ScorerOps(run)[i])
  {
  }

  lemma InputsKeep(h: Harness, plan: Plan, g: Generation, run: AgentTaskRun, owns: bool)
    requires run.view == g.view && run.loop == g.loop && run.candidatePatch == g.candidatePatch
    requires run.result.candidatePatchHash.Some? ==> g.candidatePath.Some?
    ensures forall i :: 0 <= i < |InputOps(h, plan, run, owns)| ==> Keeps(h, plan, g, InputOps(h, plan, run, owns)[i])
  {
    if g.loop.Some? {
      LoopIsRedacted(h, g.loop.value);
    }
  }

  lemma WritesKeep(h: Harness, plan: Plan, g: Generation, run: AgentTaskRun, owns: bool)
    requires run.view == g.view && run.loop == g.loop && run.candidatePatch == g.candidatePatch
    requires run.result.candidatePatchHash.Some? ==> g.candidatePath.Some?
    ensures forall i :: 0 <= i < |WriteOps(h, plan, run, owns)| ==> Keeps(h, plan, g, WriteOps(h, plan, run, owns)[i])
  {
    InputsKeep(h, plan, g, run, owns);
    if run.attemptRun.Some? {
      ScorerKeeps(h, plan, g, run.attemptRun.value);
    }
  }

  lemma FinishKeepsItsInputs(h: Harness, g: Generation, scoringPath: Option<Location>, readBack: Option<string>, seed: Seed)
    requires WellFormed(g)
    ensures var run := Finish(h, g, scoringPath, readBack, seed);
      && run.view == g.view && run.loop == g.loop && run.candidatePatch == g.candidatePatch
      && (run.result.candidatePatchHash.Some? ==> g.candidatePath.Some?)
  {
  }

  lemma FreshOpsKeep(h: Harness, plan: Plan, g: Generation, seed: Seed)
    requires WellFormed(g)
    ensures forall i :: 0 <= i < |FreshOps(h, plan, g, seed)| ==> Keeps(h, plan, g, FreshOps(h, plan, g, seed)[i])
  {
    if Allowed(plan) && Declared(plan) {
      if Terminal(g) {
        GenerationKeeps(h, plan, g);
        var completed := g.loop.value.status.Completed?;
        FinishKeepsItsInputs(h, g, if completed then Some(InAttemptDirectory) else None, if completed then Some(g.candidatePatch) else None, seed);
        WritesKeep(h, plan, g, FinishPublished(h, g, seed), true);
      }
    } else if Allowed(plan) {
      var readBack := if g.candidatePath.Some? then Some(g.candidatePatch) else None;
      FinishKeepsItsInputs(h, g, None, readBack, seed);
      WritesKeep(h, plan, g, Finish(h, g, None, readBack, seed), false);
    }
  }

  /** Wherever a run is cut, declared or not: what is there of its inputs is right, and its transcript is redacted. */
  lemma InputsAreTold(h: Harness, plan: Plan, g: Generation, seed: Seed, k: nat)
    requires WellFormed(g) && k <= |FreshOps(h, plan, g, seed)|
    ensures AllHold(h, plan, g, CrashAfter(map[], FreshOps(h, plan, g, seed), k))
  {
    FreshOpsKeep(h, plan, g, seed);
    var ops := FreshOps(h, plan, g, seed);
    assert forall i :: 0 <= i < k ==> ops[..k][i] == ops[i];
    KeptThroughout(h, plan, g, map[], ops[..k]);
  }

  // ---------------------------------------------------------------- the committed generation

  predicate Describes(h: Harness, d: Dir, m: GenerationRecord, name: ArtifactName, slot: Slot) {
    && name in m.artifacts && m.artifacts[name] == slot && name in m.artifactHashes
    && slot in d && m.artifactHashes[name] == h.hash(d[slot])
  }

  /** What the generation manifest says of each file of the generation. */
  predicate FilesDescribed(h: Harness, d: Dir, m: GenerationRecord, completed: bool) {
    && Describes(h, d, m, NView, ViewJson) && Describes(h, d, m, NLoop, LoopJson)
    && Describes(h, d, m, NDecoding, DecodingJson) && Describes(h, d, m, NModel, ModelJson)
    && (completed ==> Describes(h, d, m, NCandidate, CandidatePatch))
    && m.artifacts.Keys == {NView, NLoop, NDecoding, NModel} + (if completed then {NCandidate} else {})
    && m.artifactHashes.Keys == m.artifacts.Keys
  }

  /** The generation manifest is the identity, the outcome and the timing of the generation, and the hashes of the files beside it. */
  predicate GenerationTold(h: Harness, d: Dir, plan: Plan, g: Generation)
    requires AttemptRecovery.Published(plan, g)
  {
    && GenerationManifest in d && d[GenerationManifest].GenerationFile?
    && var m, completed := d[GenerationManifest].generation, g.loop.value.status.Completed?;
       && m.agentAttemptId == g.agentAttemptId && m.taskId == g.taskId && m.taskManifestPath == g.taskManifestPath
       && Some(m.evalAttempt) == plan.evalAttempt && m.promptLoopStatus == g.loop.value.status
       && m.startedAt == g.startedAt && m.endedAt == g.endedAt && m.durationMs == g.durationMs
       && m.candidatePatchHash == (if completed then Some(h.hashDiff(g.candidatePatch)) else None)
       && FilesDescribed(h, d, m, completed)
  }

  /** Every file of a committed generation is there and holds what it should. */
  predicate CommittedTold(h: Harness, d: Dir, plan: Plan, g: Generation)
    requires AttemptRecovery.Published(plan, g)
  {
    && {ViewJson, LoopJson, DecodingJson, ModelJson} <= d.Keys && (g.loop.value.status.Completed? ==> CandidatePatch in d)
    && Holds(h, plan, g, ViewJson, d[ViewJson]) && Holds(h, plan, g, LoopJson, d[LoopJson])
    && Holds(h, plan, g, DecodingJson, d[DecodingJson]) && Holds(h, plan, g, ModelJson, d[ModelJson])
    && (g.loop.value.status.Completed? ==> Holds(h, plan, g, CandidatePatch, d[CandidatePatch]))
    && GenerationTold(h, d, plan, g)
  }

  /** A record of payloads describes those of them that are on disk. */
  lemma IsDescribed(h: Harness, d: Dir, m: GenerationRecord, payloads: map<ArtifactName, Content>, name: ArtifactName)
    requires m.artifacts == (map n | n in payloads :: RefOf(n)) && m.artifactHashes == (map n | n in payloads :: h.hash(payloads[n]))
    requires name in payloads && RefOf(name) in d && d[RefOf(name)] == payloads[name]
    ensures Describes(h, d, m, name, RefOf(name))
  {
  }

  lemma AreDescribed(h: Harness, d: Dir, m: GenerationRecord, payloads: map<ArtifactName, Content>, completed: bool)
    requires m.artifacts == (map n | n in payloads :: RefOf(n)) && m.artifactHashes == (map n | n in payloads :: h.hash(payloads[n]))
    requires payloads.Keys == {NView, NLoop, NDecoding, NModel} + (if completed then {NCandidate} else {})
    requires ViewJson in d && d[ViewJson] == payloads[NView] && LoopJson in d && d[LoopJson] == payloads[NLoop]
    requires DecodingJson in d && d[DecodingJson] == payloads[NDecoding] && ModelJson in d && d[ModelJson] == payloads[NModel]
    requires completed ==> CandidatePatch in d && d[CandidatePatch] == payloads[NCandidate]
    ensures FilesDescribed(h, d, m, completed)
  {
    IsDescribed(h, d, m, payloads, NView);
    IsDescribed(h, d, m, payloads, NLoop);
    IsDescribed(h, d, m, payloads, NDecoding);
    IsDescribed(h, d, m, payloads, NModel);
    if completed {
      IsDescribed(h, d, m, payloads, NCandidate);
    }
    assert m.artifacts.Keys == payloads.Keys && m.artifactHashes.Keys == payloads.Keys;
  }

  lemma PayloadsAreOnDisk(h: Harness, plan: Plan, g: Generation, d: Dir)
    requires AttemptRecovery.Published(plan, g) && AttemptRecovery.Holds(d, AttemptRecovery.Committed(h, plan, g))
    ensures var payloads, completed := GenerationPayloads(h, plan, g), g.loop.value.status.Completed?;
      && payloads.Keys == {NView, NLoop, NDecoding, NModel} + (if completed then {NCandidate} else {})
      && ViewJson in d && d[ViewJson] == payloads[NView] && LoopJson in d && d[LoopJson] == payloads[NLoop]
      && DecodingJson in d && d[DecodingJson] == payloads[NDecoding] && ModelJson in d && d[ModelJson] == payloads[NModel]
      && (completed ==> CandidatePatch in d && d[CandidatePatch] == payloads[NCandidate])
  {
    var c := AttemptRecovery.Committed(h, plan, g);
    assert ViewJson in c && LoopJson in c && DecodingJson in c && ModelJson in c;
  }

  lemma RecordIsThere(h: Harness, plan: Plan, g: Generation, d: Dir)
    requires AttemptRecovery.Published(plan, g) && AttemptRecovery.Holds(d, AttemptRecovery.Committed(h, plan, g))
    ensures GenerationManifest in d && d[GenerationManifest] == GenerationFile(RecordOfGeneration(h, plan, g))
  {
    assert GenerationManifest in AttemptRecovery.Committed(h, plan, g);
  }

  lemma GenerationIsTold(h: Harness, plan: Plan, g: Generation, d: Dir)
    requires AttemptRecovery.Published(plan, g) && AttemptRecovery.Holds(d, AttemptRecovery.Committed(h, plan, g))
    ensures GenerationTold(h, d, plan, g)
  {
    RecordIsThere(h, plan, g, d);
    PayloadsAreOnDisk(h, plan, g, d);
    AreDescribed(h, d, RecordOfGeneration(h, plan, g), GenerationPayloads(h, plan, g), g.loop.value.status.Completed?);
  }

  lemma CommittedFiles(h: Harness, plan: Plan, g: Generation)
    requires AttemptRecovery.Published(plan, g)
    ensures var c := AttemptRecovery.Committed(h, plan, g);
      && {ViewJson, LoopJson, DecodingJson, ModelJson} <= c.Keys && (g.loop.value.status.Completed? ==> CandidatePatch in c)
      && forall s :: s in c ==> Holds(h, plan, g, s, c[s])
  {
    LoopIsRedacted(h, g.loop.value);
  }

  /** Wherever the committed files are, they tell the generation. */
  lemma CommittedIsTold(h: Harness, plan: Plan, g: Generation, d: Dir)
    requires AttemptRecovery.Published(plan, g) && AttemptRecovery.Holds(d, AttemptRecovery.Committed(h, plan, g))
    ensures CommittedTold(h, d, plan, g)
  {
    CommittedFiles(h, plan, g);
    GenerationIsTold(h, plan, g, d);
    assert forall s :: s in AttemptRecovery.Committed(h, plan, g) ==> s in d && Holds(h, plan, g, s, d[s]);
  }

  /** From publication on, through any crash and any number of resumes. */
  lemma CommitmentIsTold(h: Harness, plan: Plan, g: Generation, seed: Seed, k: nat, sessions: seq<AttemptRecovery.Session>)
    requires AttemptRecovery.Published(plan, g) && AttemptRecovery.StableRedaction(h) && AttemptRecovery.DeterministicScorer(h)
    requires |GenerationOps(h, plan, g)| <= k <= |FreshOps(h, plan, g, seed)| && AttemptRecovery.AllCover(sessions)
    ensures CommittedTold(h, AttemptRecovery.Resumed(h, CrashAfter(map[], FreshOps(h, plan, g, seed), k), sessions), plan, g)
  {
    AttemptRecovery.ResumeConverges(h, plan, g, seed, k, sessions);
    CommittedIsTold(h, plan, g, AttemptRecovery.Resumed(h, CrashAfter(map[], FreshOps(h, plan, g, seed), k), sessions));
  }

  // ---------------------------------------------------------------- the scorer's folder

  /** The scorer's folder and each of its files. */
  predicate WholeFolder(d: Dir) {
    AttemptFolder in d && forall f: ScorerFile :: Nested(f) in d
  }

  function BeforeScorer(h: Harness, plan: Plan, run: AgentTaskRun, owns: bool): seq<FileOp> {
    [Write(RunJson, RunFile(RedactResult(h, run.result)))] + InputOps(h, plan, run, owns) + [Write(ErrorTxt, ErrorFile(run.errorDetails))]
  }

  lemma NothingNestedBefore(h: Harness, plan: Plan, run: AgentTaskRun, owns: bool)
    ensures var ops := BeforeScorer(h, plan, run, owns);
      forall i :: 0 <= i < |ops| ==> ops[i].Write? && !ops[i].slot.Nested?
  {
    var inputs := InputOps(h, plan, run, owns);
    assert forall i :: 0 <= i < |inputs| ==> inputs[i].Write? && !inputs[i].slot.Nested?;
  }

  lemma ScorerOpsAre(run: Scorer.AttemptRun)
    ensures var ops := ScorerOps(run);
      && |ops| == 8 && (forall i :: 0 <= i < |ops| ==> ops[i].Write?) && ops[0].slot == AttemptFolder
      && (forall i :: 0 <= i < |ops| && ops[i].slot == Nested(ScorerManifest) ==> i == 7)
      && forall f: ScorerFile :: exists i :: 0 <= i < |ops| && ops[i].slot == Nested(f)
  {
    var ops := ScorerOps(run);
    assert forall i :: 0 <= i < 7 ==> ops[i + 1].slot == Nested(SCORER_ORDER[i]);
    forall f: ScorerFile ensures exists i :: 0 <= i < |ops| && ops[i].slot == Nested(f) {
      var i := PlaceOf(f);
      assert ops[i + 1].slot == Nested(f);
    }
  }

  function PlaceOf(f: ScorerFile): (i: nat)
    ensures i < |SCORER_ORDER| && SCORER_ORDER[i] == f
  {
    match f
    case AttemptJson => 0 case Stdout => 1 case Stderr => 2 case ScorerError => 3 case ScorerTrace => 4 case FinalDiff => 5
    case ScorerManifest => 6
  }

  /** Wherever writing a finished run is cut: the scorer's manifest is never there without the whole folder. */
  lemma ScorerFolderIsWhole(h: Harness, before: Dir, plan: Plan, run: AgentTaskRun, owns: bool, k: nat)
    requires (forall f: ScorerFile :: Nested(f) !in before) && k <= |WriteOps(h, plan, run, owns)|
    ensures var d := CrashAfter(before, WriteOps(h, plan, run, owns), k);
      Nested(ScorerManifest) in d ==> WholeFolder(d)
  {
    var a := BeforeScorer(h, plan, run, owns);
    var b := if run.attemptRun.Some? then ScorerOps(run.attemptRun.value) else [];
    var c := [Write(FinalManifest, RecordFile(RecordOfAttempt(plan, run, owns)))];
    NothingNestedBefore(h, plan, run, owns);
    assert WriteOps(h, plan, run, owns) == a + b + c;
    if run.attemptRun.Some? {
      ScorerOpsAre(run.attemptRun.value);
    }
    FolderIsWhole(before, a, b, c, k);
  }

  lemma FolderIsWhole(before: Dir, a: seq<FileOp>, b: seq<FileOp>, c: seq<FileOp>, k: nat)
    requires (forall f: ScorerFile :: Nested(f) !in before) && k <= |a + b + c|
    requires forall i :: 0 <= i < |a| ==> a[i].Write? && !a[i].slot.Nested?
    requires forall i :: 0 <= i < |c| ==> c[i].Write? && !c[i].slot.Nested?
    requires forall i :: 0 <= i < |b| ==> b[i].Write? && (b[i].slot == Nested(ScorerManifest) ==> i == |b| - 1)
    requires b != [] ==> b[0].slot == AttemptFolder && forall f: ScorerFile :: exists i :: 0 <= i < |b| && b[i].slot == Nested(f)
    ensures var d := CrashAfter(before, a + b + c, k); Nested(ScorerManifest) in d ==> WholeFolder(d)
  {
    var ops := a + b + c;
    var done := ops[..k];
    AttemptDirectories.ExecWrites(before, done);
    var d := Exec(before, done);
    if Nested(ScorerManifest) in d {
      var i :| 0 <= i < |done| && done[i].slot == Nested(ScorerManifest);
      assert done[i] == ops[i] && i == |a| + |b| - 1;
      assert done[|a|] == b[0];
      forall f: ScorerFile ensures Nested(f) in d {
        var j :| 0 <= j < |b| && b[j].slot == Nested(f);
        assert done[|a| + j] == b[j];
      }
    }
  }
}
