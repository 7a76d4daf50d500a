/**
 One agent attempt on disk: generation, scoring, and the records written for each.  The attempt directory
 is a map from file slots to typed contents; an operation list is what a process would do to it, one atomic
 file operation at a time, so every prefix of a list is a possible crash.
 */
module AgentAttempt {
  import opened Wrappers
  import PromptLoop
  import Scorer = ScorerAttempt

  type Hash = Scorer.Hash
  type Seed = int

  // ---------------------------------------------------------------- slots

  datatype ScorerFile = AttemptJson | Stdout | Stderr | ScorerError | ScorerTrace | FinalDiff | ScorerManifest

  datatype Slot =
    | GenerationManifest
    | GenerationManifestTmp
    | ViewJson
    | LoopJson
    | DecodingJson
    | ModelJson
    | CandidatePatch
    | RunJson
    | ErrorTxt
    | ControlScriptJson
    | AttemptFolder
    | Nested(file: ScorerFile)
    | FinalManifest

  /** Artifact names as they appear in manifests. */
  datatype ArtifactName =
    | NGeneration | NRun | NError | NDecoding | NModel | NControlScript | NView | NLoop | NCandidate | NAttempt

  function RefOf(name: ArtifactName): Slot {
    match name
    case NGeneration => GenerationManifest
    case NRun => RunJson
    case NError => ErrorTxt
    case NDecoding => DecodingJson
    case NModel => ModelJson
    case NControlScript => ControlScriptJson
    case NView => ViewJson
    case NLoop => LoopJson
    case NCandidate => CandidatePatch
    case NAttempt => AttemptFolder
  }

  /** The order in which the clearing loop visits the references. */
  const REF_ORDER := [NGeneration, NRun, NError, NDecoding, NModel, NControlScript, NView, NLoop, NCandidate, NAttempt]

  // ---------------------------------------------------------------- records

  datatype EvalRef = EvalRef(suiteId: string, runId: string, attemptId: string, declarationHash: Hash)

  datatype Provenance = Provenance(sourceHash: Hash, config: string)

  datatype ErrorDetails = ErrorDetails(errorClass: string, message: string, traceback: string)

  datatype Location = InRunRoot(root: string) | InAttemptDirectory

  /** What _run_agent_generation hands on. */
  datatype Generation = Generation(
    agentAttemptId: string,
    taskManifestPath: string,
    taskId: string,
    startedAt: string,
    endedAt: string,
    durationMs: nat,
    view: Option<PromptLoop.TaskView>,
    loop: Option<PromptLoop.PromptLoopResult>,
    candidatePatch: string,
    candidatePath: Option<Location>,
    errorDetails: Option<ErrorDetails>)

  datatype RunStatus = Scored | AgentLoopFailed | OrchestratorError

  function RunStatusName(s: RunStatus): string {
    match s
    case Scored => "scored"
    case AgentLoopFailed => "agent_loop_failed"
    case OrchestratorError => "orchestrator_error"
  }

  datatype RunResult = RunResult(
    agentAttemptId: string,
    taskId: string,
    taskManifestPath: string,
    status: RunStatus,
    promptLoopStatus: Option<PromptLoop.LoopStatus>,
    candidatePatchPath: Option<Location>,
    candidatePatchHash: Option<Hash>,
    attemptResult: Option<Scorer.AttemptResult>,
    errorClass: Option<string>,
    errorMessage: Option<string>,
    startedAt: string,
    endedAt: string,
    durationMs: nat)

  datatype AgentTaskRun = AgentTaskRun(
    result: RunResult,
    view: Option<PromptLoop.TaskView>,
    loop: Option<PromptLoop.PromptLoopResult>,
    candidatePatch: string,
    attemptRun: Option<Scorer.AttemptRun>,
    errorDetails: Option<ErrorDetails>)

  datatype GenerationRecord = GenerationRecord(
    agentAttemptId: string,
    taskId: string,
    taskManifestPath: string,
    evalAttempt: EvalRef,
    promptLoopStatus: PromptLoop.LoopStatus,
    candidatePatchHash: Option<Hash>,
    startedAt: string,
    endedAt: string,
    durationMs: nat,
    artifacts: map<ArtifactName, Slot>,
    artifactHashes: map<ArtifactName, Hash>)

  datatype AttemptRecord = AttemptRecord(
    agentAttemptId: string,
    taskId: string,
    taskManifestPath: string,
    evalAttempt: Option<EvalRef>,
    status: RunStatus,
    promptLoopStatus: Option<PromptLoop.LoopStatus>,
    attemptStatus: Option<Scorer.AttemptStatus>,
    artifacts: map<ArtifactName, Slot>)

  /** File contents, already parsed; a reader that expects another kind of file sees a validation error. */
  datatype Content =
    | ViewFile(view: PromptLoop.TaskView)
    | LoopFile(loop: PromptLoop.PromptLoopResult)
    | DecodingFile(decoding: Provenance)
    | ModelFile(model: Provenance)
    | PatchFile(patch: string)
    | GenerationFile(generation: GenerationRecord)
    | RunFile(run: RunResult)
    | ErrorFile(details: Option<ErrorDetails>) // the text of the details, redacted as a whole
    | ScriptFile(script: string)
    | Folder
    | ScorerPayload(file: ScorerFile, attempt: Scorer.AttemptRun)
    | RecordFile(record: AttemptRecord)

  type Dir = map<Slot, Content>

  /** The harness functions the model leaves uninterpreted, and the clock and scorer a seed stands for. */
  datatype Harness = Harness(
    hash: Content -> Hash,
    hashDiff: string -> Hash,
    redact: string -> string,
    finishedAt: Seed -> string,
    finishedMs: Seed -> nat,
    traceback: Seed -> string,
    normalText: string -> string,
    prepareScoring: (string, string, Seed) -> Scorer.Step<Scorer.World>)

  /** What the caller fixes before the attempt starts. */
  datatype Plan = Plan(evalAttempt: Option<EvalRef>, model: Option<Provenance>, decoding: Provenance, script: Option<string>)

  predicate Declared(plan: Plan) {
    plan.evalAttempt.Some? && plan.model.Some?
  }

  /** The combinations run_and_persist_agent_task_attempt_to_dir does not refuse. */
  predicate Allowed(plan: Plan) {
    && (plan.evalAttempt.Some? && plan.model.None? ==> plan.script.Some?)
    && !(plan.model.Some? && plan.script.Some?)
  }

  // ---------------------------------------------------------------- validators

  predicate CanonicalRefs(artifacts: map<ArtifactName, Slot>, allowed: set<ArtifactName>) {
    forall name :: name in artifacts ==> name in allowed && artifacts[name] == RefOf(name)
  }

  const GENERATION_NAMES := {NView, NLoop, NCandidate, NDecoding, NModel}
  const GENERATION_REQUIRED := {NView, NLoop, NDecoding, NModel}
  const ATTEMPT_NAMES := {NGeneration, NRun, NError, NDecoding, NModel, NControlScript, NView, NLoop, NCandidate, NAttempt}

  predicate ValidGenerationRecord(m: GenerationRecord) {
    && CanonicalRefs(m.artifacts, GENERATION_NAMES)
    && GENERATION_REQUIRED <= m.artifacts.Keys
    && m.artifactHashes.Keys == m.artifacts.Keys
    && (if m.promptLoopStatus.Completed? then NCandidate in m.artifacts && m.candidatePatchHash.Some?
        else NCandidate !in m.artifacts && m.candidatePatchHash.None?)
  }

  predicate ValidAttemptRecord(m: AttemptRecord) {
    && CanonicalRefs(m.artifacts, ATTEMPT_NAMES)
    && {NRun, NError, NDecoding} <= m.artifacts.Keys
    && (NGeneration in m.artifacts ==>
          NModel in m.artifacts && NControlScript !in m.artifacts && m.promptLoopStatus.Some?)
    && (m.promptLoopStatus.Some? ==> {NView, NLoop} <= m.artifacts.Keys)
    && (match m.status
        case Scored =>
          && m.promptLoopStatus == Some(PromptLoop.Completed) && m.attemptStatus.Some?
          && {NLoop, NAttempt, NCandidate} <= m.artifacts.Keys
        case AgentLoopFailed =>
          && m.attemptStatus.None? && m.promptLoopStatus.Some? && m.promptLoopStatus != Some(PromptLoop.Completed)
          && NLoop in m.artifacts
        case OrchestratorError => m.attemptStatus.None?)
  }

  predicate ValidRunResult(r: RunResult) {
    match r.status
    case Scored =>
      && r.promptLoopStatus == Some(PromptLoop.Completed) && r.attemptResult.Some?
      && r.candidatePatchPath.Some? && r.candidatePatchHash.Some?
      && r.errorClass.None? && r.errorMessage.None?
    case AgentLoopFailed =>
      && r.attemptResult.None? && r.errorClass.Some?
      && r.promptLoopStatus.Some? && r.promptLoopStatus != Some(PromptLoop.Completed)
    case OrchestratorError => r.attemptResult.None? && r.errorClass.Some?
  }

  // ---------------------------------------------------------------- file operations

  datatype FileOp = Write(slot: Slot, content: Content) | Remove(slot: Slot) | Rename(source: Slot, target: Slot)

  function Apply(d: Dir, op: FileOp): Dir {
    match op
    case Write(s, c) => d[s := c]
    case Remove(s) => d - {s}
    case Rename(s, t) => if s in d then (d - {s})[t := d[s]] else d
  }

  function Exec(d: Dir, ops: seq<FileOp>): Dir {
    if |ops| == 0 then d else Apply(Exec(d, ops[..|ops| - 1]), ops[|ops| - 1])
  }

  /** The directory after a process died having completed k operations. */
  function CrashAfter(d: Dir, ops: seq<FileOp>, k: nat): Dir
    requires k <= |ops|
  {
    Exec(d, ops[..k])
  }

  lemma {:induction false} ExecConcat(d: Dir, a: seq<FileOp>, b: seq<FileOp>)
    ensures Exec(d, a + b) == Exec(Exec(d, a), b)
  {
    if |b| == 0 {
      assert a + b == a;
    } else {
      var ops := a + b;
      assert ops[..|ops| - 1] == a + b[..|b| - 1];
      ExecConcat(d, a, b[..|b| - 1]);
    }
  }

  // ---------------------------------------------------------------- error reports

  /** _error_text for one exception. */
  function ErrorText(e: ErrorDetails): string {
    "Error class: " + e.errorClass + "\n" + "Message: " + e.message + "\n" + "\n" + "Traceback:\n" + e.traceback
  }

  // ---------------------------------------------------------------- redaction on write

  function RedactOpt(h: Harness, o: Option<string>): Option<string> {
    match o case None => None case Some(s) => Some(h.redact(s))
  }

  /** Every string of a message but its id, a fresh `message_` numeral that holds no secret. */
  function RedactMessage(h: Harness, m: PromptLoop.Message): PromptLoop.Message {
    m.(content := h.redact(m.content), name := RedactOpt(h, m.name), toolCallId := RedactOpt(h, m.toolCallId),
       metadata := map key | key in m.metadata :: h.redact(m.metadata[key]))
  }

  function RedactResponse(h: Harness, r: PromptLoop.ModelResponse): PromptLoop.ModelResponse {
    r.(modelId := h.redact(r.modelId), outputText := h.redact(r.outputText), errorClass := RedactOpt(h, r.errorClass),
       errorMessage := RedactOpt(h, r.errorMessage), rawResponseRef := h.redact(r.rawResponseRef))
  }

  function RedactTool(h: Harness, t: PromptLoop.ToolResult): PromptLoop.ToolResult {
    t.(toolName := h.redact(t.toolName), argumentsHash := h.redact(t.argumentsHash),
       workspaceHashBefore := h.redact(t.workspaceHashBefore), workspaceHashAfter := h.redact(t.workspaceHashAfter),
       output := RedactOpt(h, t.output), stdout := h.redact(t.stdout), stderr := h.redact(t.stderr),
       errorClass := RedactOpt(h, t.errorClass), errorMessage := RedactOpt(h, t.errorMessage))
  }

  /** A transcript as it is written: every string in it redacted, ids apart. */
  function RedactLoop(h: Harness, r: PromptLoop.PromptLoopResult): PromptLoop.PromptLoopResult {
    r.(messages := seq(|r.messages|, i requires 0 <= i < |r.messages| => RedactMessage(h, r.messages[i])),
       modelResponses := seq(|r.modelResponses|, i requires 0 <= i < |r.modelResponses| => RedactResponse(h, r.modelResponses[i])),
       toolResults := seq(|r.toolResults|, i requires 0 <= i < |r.toolResults| => RedactTool(h, r.toolResults[i])),
       errorClass := RedactOpt(h, r.errorClass),
       errorMessage := RedactOpt(h, r.errorMessage))
  }

  function RedactResult(h: Harness, r: RunResult): RunResult {
    r.(errorClass := RedactOpt(h, r.errorClass), errorMessage := RedactOpt(h, r.errorMessage))
  }

  // ---------------------------------------------------------------- generation

  predicate Terminal(g: Generation) {
    g.errorDetails.None? && g.loop.Some? && (g.loop.value.status.Completed? ==> g.candidatePath.Some?)
  }

  /** What every value returned by _run_agent_generation satisfies. */
  predicate WellFormed(g: Generation) {
    && (g.errorDetails.None? ==> g.loop.Some? && (g.loop.value.status.Completed? ==> g.candidatePath.Some?))
    && (g.loop.Some? ==>
          && g.view.Some? && g.loop.value.taskId == g.view.value.input.taskId == g.taskId
          && PromptLoop.ValidPromptLoopResult(g.loop.value))
    && (g.candidatePath.Some? ==> g.loop.Some? && g.loop.value.status.Completed?)
  }

  function GenerationPayloads(h: Harness, plan: Plan, g: Generation): map<ArtifactName, Content>
    requires Declared(plan) && Terminal(g) && WellFormed(g)
  {
    var always := map[
      NView := ViewFile(g.view.value),
      NLoop := LoopFile(RedactLoop(h, g.loop.value)),
      NDecoding := DecodingFile(plan.decoding),
      NModel := ModelFile(plan.model.value)];
    if g.loop.value.status.Completed? then always[NCandidate := PatchFile(g.candidatePatch)] else always
  }

  function RecordOfGeneration(h: Harness, plan: Plan, g: Generation): GenerationRecord
    requires Declared(plan) && Terminal(g) && WellFormed(g)
  {
    var payloads := GenerationPayloads(h, plan, g);
    GenerationRecord(
      g.agentAttemptId, g.taskId, g.taskManifestPath, plan.evalAttempt.value, g.loop.value.status,
      if g.loop.value.status.Completed? then Some(h.hashDiff(g.candidatePatch)) else None,
      g.startedAt, g.endedAt, g.durationMs,
      map name | name in payloads :: RefOf(name),
      map name | name in payloads :: h.hash(payloads[name]))
  }

  /** The payloads in the order they are written, then the manifest under its temporary name. */
  function GenerationWrites(h: Harness, plan: Plan, g: Generation): seq<FileOp>
    requires Declared(plan) && Terminal(g) && WellFormed(g)
  {
    [Write(ViewJson, ViewFile(g.view.value)),
     Write(LoopJson, LoopFile(RedactLoop(h, g.loop.value))),
     Write(DecodingJson, DecodingFile(plan.decoding)),
     Write(ModelJson, ModelFile(plan.model.value))]
    + When(g.loop.value.status.Completed?, Write(CandidatePatch, PatchFile(g.candidatePatch)))
    + [Write(GenerationManifestTmp, GenerationFile(RecordOfGeneration(h, plan, g)))]
  }

  /** write_agent_generation_artifact: the rename is the moment the generation becomes visible. */
  function GenerationOps(h: Harness, plan: Plan, g: Generation): seq<FileOp>
    requires Declared(plan) && Terminal(g) && WellFormed(g)
  {
    GenerationWrites(h, plan, g) + [Rename(GenerationManifestTmp, GenerationManifest)]
  }

  datatype Loaded = Loaded(
    record: GenerationRecord,
    view: PromptLoop.TaskView,
    loop: PromptLoop.PromptLoopResult,
    model: Provenance,
    decoding: Provenance,
    candidatePatch: Option<string>)

  /** Every artifact the manifest names is a file whose bytes still hash to what the manifest recorded. */
  predicate ArtifactsIntact(h: Harness, d: Dir, m: GenerationRecord)
    requires m.artifactHashes.Keys == m.artifacts.Keys
  {
    forall name :: name in m.artifacts ==>
      && m.artifacts[name] in d && !d[m.artifacts[name]].Folder?
      && h.hash(d[m.artifacts[name]]) == m.artifactHashes[name]
  }

  predicate PayloadsParse(h: Harness, d: Dir, m: GenerationRecord) {
    && ViewJson in d && d[ViewJson].ViewFile?
    && LoopJson in d && d[LoopJson].LoopFile? && PromptLoop.ValidPromptLoopResult(d[LoopJson].loop)
    && ModelJson in d && d[ModelJson].ModelFile?
    && DecodingJson in d && d[DecodingJson].DecodingFile?
    && (NCandidate in m.artifacts ==>
          CandidatePatch in d && d[CandidatePatch].PatchFile? && Some(h.hashDiff(d[CandidatePatch].patch)) == m.candidatePatchHash)
  }

  predicate IdentitiesAgree(d: Dir, m: GenerationRecord)
    requires ViewJson in d && d[ViewJson].ViewFile? && LoopJson in d && d[LoopJson].LoopFile?
  {
    && d[ViewJson].view.input.taskId == m.taskId
    && d[LoopJson].loop.taskId == m.taskId
    && d[LoopJson].loop.status == m.promptLoopStatus
  }

  /** load_validated_agent_generation; None stands for any of its exceptions. */
  function LoadGeneration(h: Harness, d: Dir): Option<Loaded> {
    if GenerationManifest !in d || !d[GenerationManifest].GenerationFile? then None
    else
      var m := d[GenerationManifest].generation;
      if ValidGenerationRecord(m) && ArtifactsIntact(h, d, m) && PayloadsParse(h, d, m) && IdentitiesAgree(d, m) then
        Some(Loaded(m, d[ViewJson].view, d[LoopJson].loop, d[ModelJson].model, d[DecodingJson].decoding,
                    if NCandidate in m.artifacts then Some(d[CandidatePatch].patch) else None))
      else None
  }

  // ---------------------------------------------------------------- scoring and the final record

  datatype ScoreOutcome = ScoringRaised(details: ErrorDetails) | ScoringDone(run: Scorer.AttemptRun)

  function ExnDetails(h: Harness, e: Scorer.Exn, seed: Seed): ErrorDetails {
    match e
    case TimeoutExpired => ErrorDetails("TimeoutExpired", "timed out", h.traceback(seed))
    case Raised(cls, message) => ErrorDetails(cls, message, h.traceback(seed))
  }

  /** The scoring half of _finish_agent_task_attempt: read the patch back, compare, run the scorer. */
  function Score(h: Harness, taskManifestPath: string, readBack: Option<string>, generated: string, seed: Seed): ScoreOutcome {
    if readBack.None? then
      ScoringRaised(ErrorDetails("FileNotFoundError", "candidate patch", h.traceback(seed)))
    else if h.hashDiff(readBack.value) != h.hashDiff(generated) then
      ScoringRaised(ErrorDetails("ValueError", "Scoring candidate differs from generated candidate", h.traceback(seed)))
    else match h.prepareScoring(taskManifestPath, readBack.value, seed)
      case Threw(e) => ScoringRaised(ExnDetails(h, e, seed))
      case Done(w) => ScoringDone(Scorer.Attempt(w))
  }

  function ResultOf(h: Harness, g: Generation, status: RunStatus, path: Option<Location>, patchHash: Option<Hash>,
                    attempt: Option<Scorer.AttemptResult>, cls: Option<string>, message: Option<string>, seed: Seed): RunResult
  {
    RunResult(g.agentAttemptId, g.taskId, g.taskManifestPath, status,
              if g.loop.Some? then Some(g.loop.value.status) else None,
              path, patchHash, attempt, cls, message, g.startedAt, h.finishedAt(seed), h.finishedMs(seed))
  }

  /** _finish_agent_task_attempt. */
  function Finish(h: Harness, g: Generation, scoringPath: Option<Location>, readBack: Option<string>, seed: Seed): AgentTaskRun
    requires WellFormed(g)
  {
    if g.errorDetails.Some? then
      var e := g.errorDetails.value;
      AgentTaskRun(
        ResultOf(h, g, OrchestratorError, g.candidatePath,
                 if g.candidatePath.Some? then Some(h.hashDiff(g.candidatePatch)) else None,
                 None, Some(e.errorClass), Some(e.message), seed),
        g.view, g.loop, g.candidatePatch, None, g.errorDetails)
    else if !g.loop.value.status.Completed? then
      AgentTaskRun(
        ResultOf(h, g, if g.loop.value.status.LoopOrchestratorError? then OrchestratorError else AgentLoopFailed,
                 None, None, None, g.loop.value.errorClass, g.loop.value.errorMessage, seed),
        g.view, g.loop, g.candidatePatch, None, None)
    else
      var path := if scoringPath.Some? then scoringPath else g.candidatePath;
      var patchHash := Some(h.hashDiff(g.candidatePatch));
      match Score(h, g.taskManifestPath, readBack, g.candidatePatch, seed)
      case ScoringDone(run) =>
        AgentTaskRun(ResultOf(h, g, Scored, path, patchHash, Some(run.result), None, None, seed),
                     g.view, g.loop, g.candidatePatch, Some(run), None)
      case ScoringRaised(e) =>
        AgentTaskRun(ResultOf(h, g, OrchestratorError, path, patchHash, None, Some(e.errorClass), Some(e.message), seed),
                     g.view, g.loop, g.candidatePatch, None, Some(e))
  }

  function When<T>(condition: bool, x: T): seq<T> {
    if condition then [x] else []
  }

  function IncludedNames(plan: Plan, run: AgentTaskRun, owns: bool): set<ArtifactName> {
    {NRun, NError, NDecoding}
    + (if owns then {NGeneration} else {})
    + (if plan.model.Some? then {NModel} else {})
    + (if plan.script.Some? then {NControlScript} else {})
    + (if run.view.Some? then {NView} else {})
    + (if run.loop.Some? then {NLoop} else {})
    + (if run.result.candidatePatchHash.Some? then {NCandidate} else {})
    + (if run.attemptRun.Some? then {NAttempt} else {})
  }

  function RecordOfAttempt(plan: Plan, run: AgentTaskRun, owns: bool): AttemptRecord {
    AttemptRecord(
      run.result.agentAttemptId, run.result.taskId, run.result.taskManifestPath, plan.evalAttempt,
      run.result.status, run.result.promptLoopStatus,
      if run.result.attemptResult.Some? then Some(run.result.attemptResult.value.status) else None,
      map name | name in IncludedNames(plan, run, owns) :: RefOf(name))
  }

  /** write_attempt_artifacts: the folder, six payloads, then the scorer manifest. */
  const SCORER_ORDER := [AttemptJson, Stdout, Stderr, ScorerError, ScorerTrace, FinalDiff, ScorerManifest]

  function ScorerOps(run: Scorer.AttemptRun): seq<FileOp> {
    [Write(AttemptFolder, Folder)]
    + seq(|SCORER_ORDER|, i requires 0 <= i < |SCORER_ORDER| =>
        Write(Nested(SCORER_ORDER[i]), ScorerPayload(SCORER_ORDER[i], run)))
  }

  /** The inputs and transcripts, unless a published generation already holds them. */
  function InputOps(h: Harness, plan: Plan, run: AgentTaskRun, owns: bool): seq<FileOp> {
    When(!owns, Write(DecodingJson, DecodingFile(plan.decoding)))
    + (if !owns && plan.model.Some? then [Write(ModelJson, ModelFile(plan.model.value))] else [])
    + (if plan.script.Some? then [Write(ControlScriptJson, ScriptFile(plan.script.value))] else [])
    + (if !owns && run.view.Some? then [Write(ViewJson, ViewFile(run.view.value))] else [])
    + (if !owns && run.loop.Some? then [Write(LoopJson, LoopFile(RedactLoop(h, run.loop.value)))] else [])
    + When(!owns && run.result.candidatePatchHash.Some?, Write(CandidatePatch, PatchFile(run.candidatePatch)))
  }

  /** Everything _write_agent_task_run_artifacts_to_dir writes before the final manifest. */
  function DownstreamOps(h: Harness, plan: Plan, run: AgentTaskRun, owns: bool): seq<FileOp> {
    [Write(RunJson, RunFile(RedactResult(h, run.result)))]
    + InputOps(h, plan, run, owns)
    + [Write(ErrorTxt, ErrorFile(run.errorDetails))]
    + (if run.attemptRun.Some? then ScorerOps(run.attemptRun.value) else [])
  }

  function WriteOps(h: Harness, plan: Plan, run: AgentTaskRun, owns: bool): seq<FileOp> {
    DownstreamOps(h, plan, run, owns) + [Write(FinalManifest, RecordFile(RecordOfAttempt(plan, run, owns)))]
  }

  // ---------------------------------------------------------------- the two entry points

  /** Scoring uses the persisted candidate when the generation owns it. */
  function FinishPublished(h: Harness, g: Generation, seed: Seed): AgentTaskRun
    requires WellFormed(g) && Terminal(g)
  {
    if g.loop.value.status.Completed? then Finish(h, g, Some(InAttemptDirectory), Some(g.candidatePatch), seed)
    else Finish(h, g, None, None, seed)
  }

  /** run_and_persist_agent_task_attempt_to_dir on an empty directory; no operation when it refuses. */
  function FreshOps(h: Harness, plan: Plan, g: Generation, seed: Seed): seq<FileOp>
    requires WellFormed(g)
  {
    if !Allowed(plan) then []
    else if Declared(plan) then
      if !Terminal(g) then []
      else GenerationOps(h, plan, g) + WriteOps(h, plan, FinishPublished(h, g, seed), true)
    else
      WriteOps(h, plan, Finish(h, g, None, if g.candidatePath.Some? then Some(g.candidatePatch) else None, seed), false)
  }

  function OwnedSlots(m: GenerationRecord): set<Slot> {
    {GenerationManifest} + m.artifacts.Values
  }

  /** rmtree on the scorer folder, in whatever order it lists the files, the folder itself last. */
  function RemoveTreeOps(folder: Slot, order: seq<ScorerFile>): seq<FileOp> {
    (if folder.AttemptFolder? then seq(|order|, i requires 0 <= i < |order| => Remove(Nested(order[i]))) else [])
    + [Remove(folder)]
  }

  function ClearRef(d: Dir, owned: set<Slot>, order: seq<ScorerFile>, name: ArtifactName): seq<FileOp> {
    var slot := RefOf(name);
    if slot in owned || slot !in d then []
    else if d[slot].Folder? then RemoveTreeOps(slot, order)
    else [Remove(slot)]
  }

  /** _clear_incomplete_downstream_artifacts over a prefix of the references. */
  function ClearOps(d: Dir, owned: set<Slot>, order: seq<ScorerFile>, names: seq<ArtifactName>): seq<FileOp> {
    if |names| == 0 then []
    else ClearOps(d, owned, order, names[..|names| - 1]) + ClearRef(d, owned, order, names[|names| - 1])
  }

  /** The in-memory generation a resumed process rebuilds from disk. */
  function Rebuild(l: Loaded): Generation {
    Generation(l.record.agentAttemptId, l.record.taskManifestPath, l.record.taskId,
               l.record.startedAt, l.record.endedAt, l.record.durationMs,
               Some(l.view), Some(l.loop), if l.candidatePatch.Some? then l.candidatePatch.value else "",
               if l.loop.status.Completed? then Some(InAttemptDirectory) else None, None)
  }

  /** What the rebuilt process takes its inputs from. */
  function RebuildPlan(l: Loaded): Plan {
    Plan(Some(l.record.evalAttempt), Some(l.model), l.decoding, None)
  }

  /** finish_and_persist_agent_task_attempt_from_generation; no operation when it raises. */
  function ResumeOps(h: Harness, d: Dir, seed: Seed, order: seq<ScorerFile>): seq<FileOp> {
    match LoadGeneration(h, d)
    case None => []
    case Some(l) =>
      if FinalManifest in d then []
      else
        ClearOps(d, OwnedSlots(l.record), order, REF_ORDER)
        + WriteOps(h, RebuildPlan(l), FinishPublished(h, Rebuild(l), seed), true)
  }
}
