/**
 Replaying an unchanged control-script attempt.  Source and replay share script, model id, task and decoding
 input and run on tools and a scorer that answer alike; ids, clocks, temporary paths and the declared identity
 differ.  Then every file and every field agrees, with one exception that is stated exactly: what was raised.
 */
module ReplayFidelity {
  import opened Wrappers
  import opened AgentAttempt
  import opened ReplayNormalForm
  import opened ReplayAgreement
  import opened CompletedAttempt
  import PL = PromptLoop
  import Scorer = ScorerAttempt
  import ReplayVerdict
  import AgentGeneration
  import PromptLoopLaws
  import ScriptedClient

  // ---------------------------------------------------------------- files as JSON or text

  /** How the harness prints what the model leaves opaque. */
  datatype Dumps = Dumps(
    text: string -> string,
    location: Location -> string,
    artifacts: map<ArtifactName, Slot> -> Json,
    scorerFile: (ScorerFile, Scorer.AttemptRun) -> Json,
    scorerResult: Scorer.AttemptResult -> Json)

  function OptLoopStatus(s: Option<PL.LoopStatus>): Json {
    match s case None => JNull case Some(x) => JString(PL.LoopStatusName(x))
  }

  function OptScorerStatus(s: Option<Scorer.AttemptStatus>): Json {
    match s case None => JNull case Some(x) => JString(Scorer.StatusName(x))
  }

  function TaskViewJson(v: PL.TaskView): Json {
    JObject(map[
      "task_id" := JString(v.input.taskId),
      "instruction" := JString(v.input.instruction),
      "workspace_path" := JString(v.workspacePath),
      "allowed_tools" := JArray(seq(|v.input.allowedTools|, i requires 0 <= i < |v.input.allowedTools| => JString(v.input.allowedTools[i]))),
      "public_checks" := JArray(seq(|v.input.publicChecks|, i requires 0 <= i < |v.input.publicChecks| => JString(v.input.publicChecks[i]))),
      "max_turns" := JNumber(v.input.maxTurns)])
  }

  function PathJson(k: Dumps, path: Option<Location>): Json {
    match path case None => JNull case Some(p) => JString(k.location(p))
  }

  function AttemptResultJson(k: Dumps, r: Option<Scorer.AttemptResult>): Json {
    match r case None => JNull case Some(x) => k.scorerResult(x)
  }

  function RunResultJson(k: Dumps, r: RunResult): Json {
    JObject(map[
      "agent_attempt_id" := JString(r.agentAttemptId),
      "task_id" := JString(r.taskId),
      "task_manifest_path" := JString(r.taskManifestPath),
      "status" := JString(RunStatusName(r.status)),
      "prompt_loop_status" := OptLoopStatus(r.promptLoopStatus),
      "candidate_patch_path" := PathJson(k, r.candidatePatchPath),
      "candidate_patch_hash" := OptNum(r.candidatePatchHash),
      "attempt_result" := AttemptResultJson(k, r.attemptResult),
      "error_class" := OptStr(r.errorClass),
      "error_message" := OptStr(r.errorMessage),
      "started_at" := JString(r.startedAt),
      "ended_at" := JString(r.endedAt),
      "duration_ms" := JNumber(r.durationMs)])
  }

  function EvalRefJson(e: EvalRef): Json {
    JObject(map["eval_suite_id" := JString(e.suiteId), "eval_run_id" := JString(e.runId), "eval_attempt_id" := JString(e.attemptId),
                "eval_suite_declaration_hash" := JNumber(e.declarationHash)])
  }

  /** The manifest without its declared identity. */
  function RecordFields(k: Dumps, m: AttemptRecord): map<string, Json> {
    map["agent_attempt_id" := JString(m.agentAttemptId),
        "task_id" := JString(m.taskId),
        "task_manifest_path" := JString(m.taskManifestPath),
        "status" := JString(RunStatusName(m.status)),
        "prompt_loop_status" := OptLoopStatus(m.promptLoopStatus),
        "attempt_status" := OptScorerStatus(m.attemptStatus),
        "artifacts" := k.artifacts(m.artifacts)]
  }

  /** An undeclared attempt has no eval_attempt key at all. */
  function RecordJson(k: Dumps, m: AttemptRecord): Json {
    var fields := RecordFields(k, m);
    JObject(if m.evalAttempt.Some? then fields["eval_attempt" := EvalRefJson(m.evalAttempt.value)] else fields)
  }

  function ProvenanceJson(p: Provenance): Json {
    JObject(map["source_hash" := JNumber(p.sourceHash), "config" := JString(p.config)])
  }

  /** A file's JSON value; a text file is its text. */
  function FileJson(h: Harness, k: Dumps, c: Content): Json {
    match c
    case ViewFile(v) => TaskViewJson(v)
    case LoopFile(l) => ResultJson(l)
    case DecodingFile(p) => ProvenanceJson(p)
    case ModelFile(p) => ProvenanceJson(p)
    case PatchFile(s) => JString(s)
    case RunFile(r) => RunResultJson(k, r)
    case ErrorFile(e) => JString(h.redact(if e.Some? then ErrorText(e.value) else ""))
    case ScriptFile(s) => JString(s)
    case ScorerPayload(f, run) => k.scorerFile(f, run)
    case RecordFile(m) => RecordJson(k, m)
    case GenerationFile(_) => JNull
    case Folder => JNull
  }

  function Normal(h: Harness, k: Dumps): ReplayVerdict.Normaliser {
    c => NormalForm(FileJson(h, k, c), k.text)
  }

  // ---------------------------------------------------------------- what two sides have in common

  /** How a string reads in a comparison, once it was redacted on the way to disk. */
  function Stored(h: Harness, k: Dumps): Text {
    s => k.text(h.redact(s))
  }

  predicate TwinAttempts(k: Dumps, a: Scorer.AttemptRun, b: Scorer.AttemptRun) {
    && a.result.status == b.result.status
    && NormalForm(k.scorerResult(a.result), k.text) == NormalForm(k.scorerResult(b.result), k.text)
    && forall f: ScorerFile :: NormalForm(k.scorerFile(f, a), k.text) == NormalForm(k.scorerFile(f, b), k.text)
  }

  /** One exception raised twice: the messages may differ, their stored texts read alike. */
  predicate TwinDetails(h: Harness, k: Dumps, d: ErrorDetails, e: ErrorDetails) {
    && d.errorClass == e.errorClass
    && Stored(h, k)(d.message) == Stored(h, k)(e.message)
    && Stored(h, k)(ErrorText(d)) == Stored(h, k)(ErrorText(e))
  }

  predicate TwinErrors(h: Harness, k: Dumps, a: Option<ErrorDetails>, b: Option<ErrorDetails>) {
    match (a, b)
    case (None, None) => true
    case (Some(d), Some(e)) => TwinDetails(h, k, d, e)
    case _ => false
  }

  /** The two scoring runs of one patch: the same exception, or attempts whose files and results read alike. */
  predicate TwinScoring(h: Harness, k: Dumps, path: string, patch: string, s1: Seed, s2: Seed) {
    match (h.prepareScoring(path, patch, s1), h.prepareScoring(path, patch, s2))
    case (Threw(e1), Threw(e2)) => TwinDetails(h, k, ExnDetails(h, e1, s1), ExnDetails(h, e2, s2))
    case (Done(w1), Done(w2)) => TwinAttempts(k, Scorer.Attempt(w1), Scorer.Attempt(w2))
    case _ => false
  }

  predicate TwinViews(text: Text, a: Option<PL.TaskView>, b: Option<PL.TaskView>) {
    match (a, b)
    case (None, None) => true
    case (Some(v), Some(w)) => v.input == w.input && text(v.workspacePath) == text(w.workspacePath)
    case _ => false
  }

  predicate TwinPaths(k: Dumps, a: Option<Location>, b: Option<Location>) {
    match (a, b)
    case (None, None) => true
    case (Some(p), Some(q)) => k.text(k.location(p)) == k.text(k.location(q))
    case _ => false
  }

  predicate TwinLoopResults(text: Text, a: Option<PL.PromptLoopResult>, b: Option<PL.PromptLoopResult>) {
    match (a, b)
    case (None, None) => true
    case (Some(r), Some(q)) => TwinResults(text, r, q)
    case _ => false
  }

  /** Two generations of one control script. */
  predicate TwinGenerations(h: Harness, k: Dumps, a: Generation, b: Generation) {
    && a.taskId == b.taskId && a.taskManifestPath == b.taskManifestPath
    && TwinViews(k.text, a.view, b.view)
    && TwinLoopResults(Stored(h, k), a.loop, b.loop)
    && a.candidatePatch == b.candidatePatch && TwinPaths(k, a.candidatePath, b.candidatePath)
    && TwinErrors(h, k, a.errorDetails, b.errorDetails)
  }

  // ---------------------------------------------------------------- twin runs

  /** What two finished twins have in common. */
  predicate TwinOutcomes(h: Harness, k: Dumps, a: AgentTaskRun, b: AgentTaskRun) {
    && TwinRunResults(h, k, a.result, b.result)
    && TwinViews(k.text, a.view, b.view)
    && TwinLoopResults(Stored(h, k), a.loop, b.loop)
    && a.candidatePatch == b.candidatePatch
    && (a.attemptRun.Some? <==> b.attemptRun.Some?) && (a.attemptRun.Some? ==> TwinAttempts(k, a.attemptRun.value, b.attemptRun.value))
    && TwinErrors(h, k, a.errorDetails, b.errorDetails)
  }

  predicate TwinScored(k: Dumps, a: Option<Scorer.AttemptResult>, b: Option<Scorer.AttemptResult>) {
    match (a, b)
    case (None, None) => true
    case (Some(r), Some(q)) => r.status == q.status && NormalForm(k.scorerResult(r), k.text) == NormalForm(k.scorerResult(q), k.text)
    case _ => false
  }

  predicate TwinRunResults(h: Harness, k: Dumps, a: RunResult, b: RunResult) {
    && a.taskId == b.taskId && a.taskManifestPath == b.taskManifestPath && a.status == b.status
    && a.promptLoopStatus == b.promptLoopStatus && a.candidatePatchHash == b.candidatePatchHash
    && TwinPaths(k, a.candidatePatchPath, b.candidatePatchPath) && TwinScored(k, a.attemptResult, b.attemptResult)
    && a.errorClass == b.errorClass && SameText(Stored(h, k), a.errorMessage, b.errorMessage)
  }

  function ReadBackOf(g: Generation): Option<string> {
    if g.candidatePath.Some? then Some(g.candidatePatch) else None
  }

  /** A generation goes on to scoring when nothing was raised and its loop completed. */
  predicate GoesToScoring(g: Generation) {
    g.errorDetails.None? && g.loop.Some? && g.loop.value.status.Completed?
  }

  lemma FinishesAreTwins(h: Harness, k: Dumps, a: Generation, b: Generation, s1: Seed, s2: Seed)
    requires WellFormed(a) && WellFormed(b) && TwinGenerations(h, k, a, b)
    requires GoesToScoring(a) ==> TwinScoring(h, k, a.taskManifestPath, a.candidatePatch, s1, s2)
    ensures TwinOutcomes(h, k, Finish(h, a, None, ReadBackOf(a), s1), Finish(h, b, None, ReadBackOf(b), s2))
  {
    if GoesToScoring(a) {
      ScoredFinish(h, a, s1);
      ScoredFinish(h, b, s2);
    } else {
      UnscoredFinishesAreTwins(h, k, a, b, s1, s2);
    }
  }

  lemma UnscoredFinishesAreTwins(h: Harness, k: Dumps, a: Generation, b: Generation, s1: Seed, s2: Seed)
    requires WellFormed(a) && WellFormed(b) && TwinGenerations(h, k, a, b) && !GoesToScoring(a)
    ensures TwinOutcomes(h, k, Finish(h, a, None, ReadBackOf(a), s1), Finish(h, b, None, ReadBackOf(b), s2))
  {
  }

  /** The patch reads back as it was generated, so the scorer's outcome is the run's. */
  lemma ScoredFinish(h: Harness, g: Generation, seed: Seed)
    requires WellFormed(g) && GoesToScoring(g)
    ensures Finish(h, g, None, ReadBackOf(g), seed) ==
      match h.prepareScoring(g.taskManifestPath, g.candidatePatch, seed)
      case Threw(x) =>
        var e := ExnDetails(h, x, seed);
        AgentTaskRun(ResultOf(h, g, OrchestratorError, g.candidatePath, Some(h.hashDiff(g.candidatePatch)), None,
                              Some(e.errorClass), Some(e.message), seed), g.view, g.loop, g.candidatePatch, None, Some(e))
      case Done(w) =>
        AgentTaskRun(ResultOf(h, g, Scored, g.candidatePath, Some(h.hashDiff(g.candidatePatch)), Some(Scorer.Attempt(w).result),
                              None, None, seed), g.view, g.loop, g.candidatePatch, Some(Scorer.Attempt(w)), None)
  {
  }

  // ---------------------------------------------------------------- file by file

  lemma StoredMessagesAreTwins(h: Harness, k: Dumps, a: PL.Message, b: PL.Message)
    requires TwinMessages(Stored(h, k), a, b)
    ensures TwinMessages(k.text, RedactMessage(h, a), RedactMessage(h, b))
  {
  }

  lemma StoredToolsAreTwins(h: Harness, k: Dumps, a: PL.ToolResult, b: PL.ToolResult)
    requires TwinTools(Stored(h, k), a, b)
    ensures TwinTools(k.text, RedactTool(h, a), RedactTool(h, b))
  {
  }

  /** What reads alike when stored is stored as something that reads alike. */
  lemma StoredLoopsAreTwins(h: Harness, k: Dumps, a: PL.PromptLoopResult, b: PL.PromptLoopResult)
    requires TwinResults(Stored(h, k), a, b)
    ensures TwinResults(k.text, RedactLoop(h, a), RedactLoop(h, b))
  {
    var x, y := RedactLoop(h, a), RedactLoop(h, b);
    forall i | 0 <= i < |a.messages| ensures TwinMessages(k.text, x.messages[i], y.messages[i]) {
      StoredMessagesAreTwins(h, k, a.messages[i], b.messages[i]);
    }
    forall i | 0 <= i < |a.toolResults| ensures TwinTools(k.text, x.toolResults[i], y.toolResults[i]) {
      StoredToolsAreTwins(h, k, a.toolResults[i], b.toolResults[i]);
    }
    forall i | 0 <= i < |a.modelResponses| ensures TwinResponses(x.modelResponses[i], y.modelResponses[i]) {
      assert TwinResponses(a.modelResponses[i], b.modelResponses[i]);
    }
  }

  lemma LoopFilesAgree(h: Harness, k: Dumps, a: PL.PromptLoopResult, b: PL.PromptLoopResult)
    requires TwinResults(Stored(h, k), a, b)
    ensures Normal(h, k)(LoopFile(RedactLoop(h, a))) == Normal(h, k)(LoopFile(RedactLoop(h, b)))
  {
    StoredLoopsAreTwins(h, k, a, b);
    TwinResultsAgree(k.text, RedactLoop(h, a), RedactLoop(h, b));
    NormalFormDecidesAgreement(ResultJson(RedactLoop(h, a)), ResultJson(RedactLoop(h, b)), k.text);
  }

  lemma ViewFilesAgree(h: Harness, k: Dumps, a: PL.TaskView, b: PL.TaskView)
    requires TwinViews(k.text, Some(a), Some(b))
    ensures Normal(h, k)(ViewFile(a)) == Normal(h, k)(ViewFile(b))
  {
    assert Agree(TaskViewJson(a), TaskViewJson(b), k.text);
    NormalFormDecidesAgreement(TaskViewJson(a), TaskViewJson(b), k.text);
  }

  lemma RunFilesAgree(h: Harness, k: Dumps, a: RunResult, b: RunResult)
    requires TwinRunResults(h, k, a, b)
    ensures Normal(h, k)(RunFile(RedactResult(h, a))) == Normal(h, k)(RunFile(RedactResult(h, b)))
  {
    var x, y := RedactResult(h, a), RedactResult(h, b);
    AttemptResultsAgree(k, a.attemptResult, b.attemptResult);
    RunJsonsAgree(k, x, y);
    AgreeingResultFiles(h, k, x, y);
  }

  lemma AgreeingResultFiles(h: Harness, k: Dumps, x: RunResult, y: RunResult)
    requires Agree(RunResultJson(k, x), RunResultJson(k, y), k.text)
    ensures Normal(h, k)(RunFile(x)) == Normal(h, k)(RunFile(y))
  {
    NormalFormDecidesAgreement(RunResultJson(k, x), RunResultJson(k, y), k.text);
  }

  lemma RunJsonsAgree(k: Dumps, x: RunResult, y: RunResult)
    requires x.taskId == y.taskId && x.taskManifestPath == y.taskManifestPath && x.status == y.status
    requires x.promptLoopStatus == y.promptLoopStatus && x.candidatePatchHash == y.candidatePatchHash
    requires x.errorClass == y.errorClass && SameText(k.text, x.errorMessage, y.errorMessage)
    requires TwinPaths(k, x.candidatePatchPath, y.candidatePatchPath)
    requires Agree(AttemptResultJson(k, x.attemptResult), AttemptResultJson(k, y.attemptResult), k.text)
    ensures Agree(RunResultJson(k, x), RunResultJson(k, y), k.text)
  {
    assert Agree(PathJson(k, x.candidatePatchPath), PathJson(k, y.candidatePatchPath), k.text);
  }

  lemma AttemptResultsAgree(k: Dumps, a: Option<Scorer.AttemptResult>, b: Option<Scorer.AttemptResult>)
    requires TwinScored(k, a, b)
    ensures Agree(AttemptResultJson(k, a), AttemptResultJson(k, b), k.text)
  {
    if a.Some? {
      NormalFormDecidesAgreement(k.scorerResult(a.value), k.scorerResult(b.value), k.text);
    }
  }

  lemma ErrorFilesAgree(h: Harness, k: Dumps, a: Option<ErrorDetails>, b: Option<ErrorDetails>)
    requires TwinErrors(h, k, a, b)
    ensures Normal(h, k)(ErrorFile(a)) == Normal(h, k)(ErrorFile(b))
  {
    if a.Some? {
      assert Stored(h, k)(ErrorText(a.value)) == Stored(h, k)(ErrorText(b.value));
    }
  }

  lemma RecordFilesAgree(h: Harness, k: Dumps, a: AttemptRecord, b: AttemptRecord)
    requires a.taskId == b.taskId && a.taskManifestPath == b.taskManifestPath && a.status == b.status
    requires a.promptLoopStatus == b.promptLoopStatus && a.attemptStatus == b.attemptStatus && a.artifacts == b.artifacts
    requires b.evalAttempt.None?
    ensures Normal(h, k)(RecordFile(a)) == Normal(h, k)(RecordFile(b))
  {
    RecordFieldsAgree(k, a, b);
    SameNormalFields(k, a, b);
    IdentityIsErased(k, a);
    IdentityIsErased(k, b);
  }

  lemma SameNormalFields(k: Dumps, a: AttemptRecord, b: AttemptRecord)
    requires Agree(JObject(RecordFields(k, a)), JObject(RecordFields(k, b)), k.text)
    ensures NormalForm(JObject(RecordFields(k, a)), k.text) == NormalForm(JObject(RecordFields(k, b)), k.text)
  {
    NormalFormDecidesAgreement(JObject(RecordFields(k, a)), JObject(RecordFields(k, b)), k.text);
  }

  lemma RecordFieldsAgree(k: Dumps, a: AttemptRecord, b: AttemptRecord)
    requires a.taskId == b.taskId && a.taskManifestPath == b.taskManifestPath && a.status == b.status
    requires a.promptLoopStatus == b.promptLoopStatus && a.attemptStatus == b.attemptStatus && a.artifacts == b.artifacts
    ensures Agree(JObject(RecordFields(k, a)), JObject(RecordFields(k, b)), k.text)
  {
    NormalFormDecidesAgreement(k.artifacts(a.artifacts), k.artifacts(a.artifacts), k.text);
  }

  lemma IdentityIsErased(k: Dumps, m: AttemptRecord)
    ensures NormalForm(RecordJson(k, m), k.text) == NormalForm(JObject(RecordFields(k, m)), k.text)
  {
    if m.evalAttempt.Some? {
      NoIdentityField(k, m);
      DeclaredIdentityIsInvisible(RecordFields(k, m), EvalRefJson(m.evalAttempt.value), k.text);
    }
  }

  lemma NoIdentityField(k: Dumps, m: AttemptRecord)
    ensures "eval_attempt" !in RecordFields(k, m)
  {
  }

  // ---------------------------------------------------------------- source and replay side by side

  /** A control-script attempt, declared or not. */
  predicate ControlPlan(p: Plan) {
    p.model.None? && p.script.Some?
  }

  function ReplayPlan(p: Plan): Plan {
    p.(evalAttempt := None)
  }

  datatype Side = Side(plan: Plan, generation: Generation, seed: Seed)

  predicate SoundSide(x: Side) {
    ControlPlan(x.plan) && WellFormed(x.generation)
  }

  function RunOf(h: Harness, x: Side): AgentTaskRun
    requires SoundSide(x)
  {
    Finish(h, x.generation, None, ReadBackOf(x.generation), x.seed)
  }

  function DirOf(h: Harness, x: Side): Dir
    requires SoundSide(x)
  {
    Exec(map[], FreshOps(h, x.plan, x.generation, x.seed))
  }

  function ManifestOf(h: Harness, x: Side): AttemptRecord
    requires SoundSide(x)
  {
    RecordOfAttempt(x.plan, RunOf(h, x), false)
  }

  /**
   The replay runs the source's script on the source's decoding record, undeclared, and nothing it depends on
   has changed: these two generations and these two scoring runs read alike.
   */
  predicate IsReplay(h: Harness, k: Dumps, source: Side, replay: Side) {
    && SoundSide(source) && SoundSide(replay) && replay.plan == ReplayPlan(source.plan)
    && TwinGenerations(h, k, source.generation, replay.generation)
    && (GoesToScoring(source.generation) ==>
          TwinScoring(h, k, source.generation.taskManifestPath, source.generation.candidatePatch, source.seed, replay.seed))
  }

  lemma SideFiles(h: Harness, x: Side)
    requires SoundSide(x)
    ensures InputsPresent(h, DirOf(h, x), x.plan, x.generation, RunOf(h, x))
    ensures OutputsPresent(h, DirOf(h, x), x.plan, RunOf(h, x), false)
  {
    var run := RunOf(h, x);
    assert FreshOps(h, x.plan, x.generation, x.seed) == WriteOps(h, x.plan, run, false);
    UndeclaredInputs(h, x.plan, x.generation, run);
    OutputsLand(h, map[], x.plan, run, false);
  }

  lemma RunsAreTwins(h: Harness, k: Dumps, source: Side, replay: Side)
    requires IsReplay(h, k, source, replay)
    ensures TwinOutcomes(h, k, RunOf(h, source), RunOf(h, replay))
  {
    FinishesAreTwins(h, k, source.generation, replay.generation, source.seed, replay.seed);
  }

  const INPUTS := {DecodingJson, ControlScriptJson, ViewJson, LoopJson, CandidatePatch}

  /** Does this side have something to put into the input file? */
  predicate Supplies(x: Side, s: Slot) {
    && SoundSide(x) && s in INPUTS
    && (s == ViewJson ==> x.generation.view.Some?)
    && (s == LoopJson ==> x.generation.loop.Some?)
  }

  /** Did it write the file? */
  predicate HasInput(h: Harness, x: Side, s: Slot) {
    Supplies(x, s) && (s == CandidatePatch ==> RunOf(h, x).result.candidatePatchHash.Some?)
  }

  function InputOf(h: Harness, x: Side, s: Slot): (c: Content)
    requires Supplies(x, s)
    ensures !c.Folder?
  {
    if s == DecodingJson then DecodingFile(x.plan.decoding)
    else if s == ControlScriptJson then ScriptFile(x.plan.script.value)
    else if s == ViewJson then ViewFile(x.generation.view.value)
    else if s == LoopJson then LoopFile(RedactLoop(h, x.generation.loop.value))
    else PatchFile(x.generation.candidatePatch)
  }

  lemma InputIsIn(h: Harness, x: Side, d: Dir, run: AgentTaskRun, s: Slot)
    requires Supplies(x, s) && InputsPresent(h, d, x.plan, x.generation, run)
    requires s == CandidatePatch ==> run.result.candidatePatchHash.Some?
    ensures s in d && d[s] == InputOf(h, x, s)
  {
  }

  lemma InputIsThere(h: Harness, x: Side, s: Slot)
    requires HasInput(h, x, s)
    ensures s in DirOf(h, x) && DirOf(h, x)[s] == InputOf(h, x, s)
  {
    SideFiles(h, x);
    InputIsIn(h, x, DirOf(h, x), RunOf(h, x), s);
  }

  /** What the input files of two sides have in common. */
  predicate TwinInputs(h: Harness, k: Dumps, source: Side, replay: Side) {
    && replay.plan == ReplayPlan(source.plan) && source.generation.candidatePatch == replay.generation.candidatePatch
    && TwinViews(k.text, source.generation.view, replay.generation.view)
    && TwinLoopResults(Stored(h, k), source.generation.loop, replay.generation.loop)
  }

  lemma PlainInputsAgree(h: Harness, k: Dumps, source: Side, replay: Side, s: Slot)
    requires replay.plan == ReplayPlan(source.plan) && source.generation.candidatePatch == replay.generation.candidatePatch
    requires Supplies(source, s) && Supplies(replay, s) && s !in {ViewJson, LoopJson}
    ensures InputOf(h, source, s) == InputOf(h, replay, s)
  {
  }

  lemma ViewInputsAgree(h: Harness, k: Dumps, source: Side, replay: Side)
    requires Supplies(source, ViewJson) && Supplies(replay, ViewJson)
    requires TwinViews(k.text, source.generation.view, replay.generation.view)
    ensures Normal(h, k)(InputOf(h, source, ViewJson)) == Normal(h, k)(InputOf(h, replay, ViewJson))
  {
    ViewFilesAgree(h, k, source.generation.view.value, replay.generation.view.value);
  }

  lemma LoopInputsAgree(h: Harness, k: Dumps, source: Side, replay: Side)
    requires Supplies(source, LoopJson) && Supplies(replay, LoopJson)
    requires TwinLoopResults(Stored(h, k), source.generation.loop, replay.generation.loop)
    ensures Normal(h, k)(InputOf(h, source, LoopJson)) == Normal(h, k)(InputOf(h, replay, LoopJson))
  {
    LoopFilesAgree(h, k, source.generation.loop.value, replay.generation.loop.value);
  }

  lemma InputsAgree(h: Harness, k: Dumps, source: Side, replay: Side, s: Slot)
    requires TwinInputs(h, k, source, replay) && Supplies(source, s) && Supplies(replay, s)
    ensures Normal(h, k)(InputOf(h, source, s)) == Normal(h, k)(InputOf(h, replay, s))
  {
    if s == ViewJson {
      ViewInputsAgree(h, k, source, replay);
    } else if s == LoopJson {
      LoopInputsAgree(h, k, source, replay);
    } else {
      PlainInputsAgree(h, k, source, replay, s);
    }
  }

  lemma ReplaysHaveTwinInputs(h: Harness, k: Dumps, source: Side, replay: Side)
    requires IsReplay(h, k, source, replay)
    ensures TwinInputs(h, k, source, replay)
  {
  }

  lemma BothHaveInput(h: Harness, k: Dumps, source: Side, replay: Side, s: Slot)
    requires IsReplay(h, k, source, replay) && HasInput(h, source, s)
    ensures HasInput(h, replay, s)
  {
    RunsAreTwins(h, k, source, replay);
    TwinsHashAlike(h, k, RunOf(h, source), RunOf(h, replay));
  }

  lemma TwinsHashAlike(h: Harness, k: Dumps, a: AgentTaskRun, b: AgentTaskRun)
    requires TwinOutcomes(h, k, a, b)
    ensures a.result.candidatePatchHash == b.result.candidatePatchHash
  {
  }

  lemma TwinInputFilesMatch(h: Harness, k: Dumps, source: Side, replay: Side, s: Slot)
    requires TwinInputs(h, k, source, replay) && HasInput(h, source, s) && HasInput(h, replay, s)
    ensures ReplayVerdict.SameArtifact(DirOf(h, source), DirOf(h, replay), Normal(h, k), s)
  {
    InputIsThere(h, source, s);
    InputIsThere(h, replay, s);
    InputsAgree(h, k, source, replay, s);
    ContentsMatch(h, k, DirOf(h, source), DirOf(h, replay), s, InputOf(h, source, s), InputOf(h, replay, s));
  }

  /** An input file of the source reads the same in the replay. */
  lemma InputFilesMatch(h: Harness, k: Dumps, source: Side, replay: Side, s: Slot)
    requires IsReplay(h, k, source, replay) && HasInput(h, source, s)
    ensures ReplayVerdict.SameArtifact(DirOf(h, source), DirOf(h, replay), Normal(h, k), s)
  {
    BothHaveInput(h, k, source, replay, s);
    ReplaysHaveTwinInputs(h, k, source, replay);
    TwinInputFilesMatch(h, k, source, replay, s);
  }

  lemma ContentsMatch(h: Harness, k: Dumps, d1: Dir, d2: Dir, s: Slot, c1: Content, c2: Content)
    requires s in d1 && d1[s] == c1 && s in d2 && d2[s] == c2 && !c1.Folder? && !c2.Folder?
    requires Normal(h, k)(c1) == Normal(h, k)(c2)
    ensures ReplayVerdict.SameArtifact(d1, d2, Normal(h, k), s)
  {
  }

  lemma ResultFileMatches(h: Harness, k: Dumps, source: Side, replay: Side)
    requires IsReplay(h, k, source, replay)
    ensures ReplayVerdict.SameArtifact(DirOf(h, source), DirOf(h, replay), Normal(h, k), RunJson)
  {
    SideFiles(h, source);
    SideFiles(h, replay);
    var a, b := RunOf(h, source).result, RunOf(h, replay).result;
    RunsAreTwins(h, k, source, replay);
    RunFilesAgree(h, k, a, b);
    ContentsMatch(h, k, DirOf(h, source), DirOf(h, replay), RunJson, RunFile(RedactResult(h, a)), RunFile(RedactResult(h, b)));
  }

  lemma ErrorFileMatches(h: Harness, k: Dumps, source: Side, replay: Side)
    requires IsReplay(h, k, source, replay)
    ensures ReplayVerdict.SameArtifact(DirOf(h, source), DirOf(h, replay), Normal(h, k), ErrorTxt)
  {
    SideFiles(h, source);
    SideFiles(h, replay);
    var a, b := RunOf(h, source).errorDetails, RunOf(h, replay).errorDetails;
    RunsAreTwins(h, k, source, replay);
    ErrorFilesAgree(h, k, a, b);
    ContentsMatch(h, k, DirOf(h, source), DirOf(h, replay), ErrorTxt, ErrorFile(a), ErrorFile(b));
  }

  lemma ManifestFileMatches(h: Harness, k: Dumps, source: Side, replay: Side)
    requires IsReplay(h, k, source, replay)
    ensures ReplayVerdict.SameArtifact(DirOf(h, source), DirOf(h, replay), Normal(h, k), FinalManifest)
  {
    SideFiles(h, source);
    SideFiles(h, replay);
    ManifestsMatch(h, k, source, replay);
    ContentsMatch(h, k, DirOf(h, source), DirOf(h, replay), FinalManifest, RecordFile(ManifestOf(h, source)), RecordFile(ManifestOf(h, replay)));
  }

  lemma ScorerFileIs(h: Harness, x: Side, f: ScorerFile)
    requires SoundSide(x) && RunOf(h, x).attemptRun.Some?
    ensures Nested(f) in DirOf(h, x) && DirOf(h, x)[Nested(f)] == ScorerPayload(f, RunOf(h, x).attemptRun.value)
  {
    SideFiles(h, x);
  }

  lemma ScorerFilesAgree(h: Harness, k: Dumps, a: Scorer.AttemptRun, b: Scorer.AttemptRun, f: ScorerFile)
    requires TwinAttempts(k, a, b)
    ensures Normal(h, k)(ScorerPayload(f, a)) == Normal(h, k)(ScorerPayload(f, b))
  {
  }

  lemma ScorerFileMatches(h: Harness, k: Dumps, source: Side, replay: Side, f: ScorerFile)
    requires IsReplay(h, k, source, replay) && RunOf(h, source).attemptRun.Some?
    ensures ReplayVerdict.SameArtifact(DirOf(h, source), DirOf(h, replay), Normal(h, k), Nested(f))
  {
    RunsAreTwins(h, k, source, replay);
    ScorerFileIs(h, source, f);
    ScorerFileIs(h, replay, f);
    var a, b := RunOf(h, source).attemptRun.value, RunOf(h, replay).attemptRun.value;
    ScorerFilesAgree(h, k, a, b, f);
    ContentsMatch(h, k, DirOf(h, source), DirOf(h, replay), Nested(f), ScorerPayload(f, a), ScorerPayload(f, b));
  }

  lemma ManifestsMatch(h: Harness, k: Dumps, source: Side, replay: Side)
    requires IsReplay(h, k, source, replay)
    ensures Normal(h, k)(RecordFile(ManifestOf(h, source))) == Normal(h, k)(RecordFile(ManifestOf(h, replay)))
  {
    RunsAreTwins(h, k, source, replay);
    TwinsAreRecordedAlike(h, k, source.plan, RunOf(h, source), RunOf(h, replay));
  }

  lemma TwinsAreRecordedAlike(h: Harness, k: Dumps, plan: Plan, a: AgentTaskRun, b: AgentTaskRun)
    requires TwinOutcomes(h, k, a, b)
    ensures Normal(h, k)(RecordFile(RecordOfAttempt(plan, a, false))) == Normal(h, k)(RecordFile(RecordOfAttempt(ReplayPlan(plan), b, false)))
  {
    assert IncludedNames(plan, a, false) == IncludedNames(ReplayPlan(plan), b, false);
    RecordFilesAgree(h, k, RecordOfAttempt(plan, a, false), RecordOfAttempt(ReplayPlan(plan), b, false));
  }

  /** Each compared file is the manifest, a file of the scorer folder, or one the manifest names directly. */
  lemma RefIsNamed(h: Harness, x: Side, s: Slot)
    requires SoundSide(x) && s in ReplayVerdict.AgentRefs(ManifestOf(h, x))
    ensures s in {FinalManifest, RunJson, ErrorTxt} || s.Nested? || HasInput(h, x, s)
    ensures s.Nested? ==> RunOf(h, x).attemptRun.Some?
  {
    FinishIsFrom(h, x);
    NamedBy(x.plan, RunOf(h, x), s);
  }

  lemma NamedBy(plan: Plan, run: AgentTaskRun, s: Slot)
    requires ControlPlan(plan) && s in ReplayVerdict.AgentRefs(RecordOfAttempt(plan, run, false))
    ensures s in {FinalManifest, RunJson, ErrorTxt, DecodingJson, ControlScriptJson, ViewJson, LoopJson, CandidatePatch} || s.Nested?
    ensures s.Nested? ==> run.attemptRun.Some?
    ensures s == ViewJson ==> run.view.Some?
    ensures s == LoopJson ==> run.loop.Some?
    ensures s == CandidatePatch ==> run.result.candidatePatchHash.Some?
  {
    var m := RecordOfAttempt(plan, run, false);
    IncludedAre(plan, run, false);
    if s !in ReplayVerdict.NestedSlots() && s != FinalManifest {
      var name :| name in m.artifacts && name != NAttempt && m.artifacts[name] == s;
      assert s == RefOf(name) && name in IncludedNames(plan, run, false);
    }
  }

  lemma NamedFileMatches(h: Harness, k: Dumps, source: Side, replay: Side, s: Slot)
    requires IsReplay(h, k, source, replay)
    requires s in {FinalManifest, RunJson, ErrorTxt} || s.Nested? || HasInput(h, source, s)
    requires s.Nested? ==> RunOf(h, source).attemptRun.Some?
    ensures ReplayVerdict.SameArtifact(DirOf(h, source), DirOf(h, replay), Normal(h, k), s)
  {
    if s == FinalManifest {
      ManifestFileMatches(h, k, source, replay);
    } else if s == RunJson {
      ResultFileMatches(h, k, source, replay);
    } else if s == ErrorTxt {
      ErrorFileMatches(h, k, source, replay);
    } else if s.Nested? {
      ScorerFileMatches(h, k, source, replay, s.file);
    } else {
      InputFilesMatch(h, k, source, replay, s);
    }
  }

  lemma EveryFileMatches(h: Harness, k: Dumps, source: Side, replay: Side, s: Slot)
    requires IsReplay(h, k, source, replay) && s in ReplayVerdict.AgentRefs(ManifestOf(h, source))
    ensures ReplayVerdict.SameArtifact(DirOf(h, source), DirOf(h, replay), Normal(h, k), s)
  {
    RefIsNamed(h, source, s);
    NamedFileMatches(h, k, source, replay, s);
  }

  lemma FinishIsFrom(h: Harness, x: Side)
    requires SoundSide(x)
    ensures RunOf(h, x).view == x.generation.view && RunOf(h, x).loop == x.generation.loop
  {
  }

  /** What replaying the source compares: its stored result with the replay's result as it came back. */
  function Compared(h: Harness, id: Option<string>, place: ReplayVerdict.Place, source: Side, replay: Side): ReplayVerdict.Replayed
    requires SoundSide(source) && SoundSide(replay)
  {
    ReplayVerdict.AgentReplayed(id, ManifestOf(h, source), RedactResult(h, RunOf(h, source).result), RunOf(h, replay).result,
                                place, DirOf(h, source), DirOf(h, replay))
  }

  /** What ends an attempt without a score. */
  datatype Failure = Reported(errorClass: string, message: Option<string>)

  /** It is settled before the attempt is finished: the generation's exception, the loop's error, or the scorer's exception. */
  function FailureOf(h: Harness, g: Generation, seed: Seed): Option<Failure>
    requires WellFormed(g)
  {
    if g.errorDetails.Some? then Some(Reported(g.errorDetails.value.errorClass, Some(g.errorDetails.value.message)))
    else if !g.loop.value.status.Completed? then Some(Reported(g.loop.value.errorClass.value, g.loop.value.errorMessage))
    else match h.prepareScoring(g.taskManifestPath, g.candidatePatch, seed)
      case Threw(e) => Some(Reported(ExnDetails(h, e, seed).errorClass, Some(ExnDetails(h, e, seed).message)))
      case Done(_) => None
  }

  /** Redaction leaves the class as it is and turns the first message into the second. */
  predicate RedactsTo(h: Harness, a: Option<Failure>, b: Option<Failure>) {
    a.Some? ==>
      && h.redact(a.value.errorClass) == a.value.errorClass
      && b.Some? && RedactOpt(h, a.value.message) == b.value.message
  }

  lemma FailureIsReported(h: Harness, x: Side)
    requires SoundSide(x)
    ensures var failure, result := FailureOf(h, x.generation, x.seed), RunOf(h, x).result;
      && (failure.None? <==> result.status.Scored?)
      && result.errorClass == (if failure.Some? then Some(failure.value.errorClass) else None)
      && result.errorMessage == (if failure.Some? then failure.value.message else None)
  {
  }

  lemma ComparedIsComparable(h: Harness, id: Option<string>, place: ReplayVerdict.Place, source: Side, replay: Side)
    requires SoundSide(source) && SoundSide(replay)
    ensures ReplayVerdict.Comparable(Compared(h, id, place, source, replay))
  {
    IncludedAre(source.plan, RunOf(h, source), false);
  }

  lemma ArtifactsMatch(h: Harness, k: Dumps, id: Option<string>, place: ReplayVerdict.Place, source: Side, replay: Side)
    requires IsReplay(h, k, source, replay) && ReplayVerdict.Comparable(Compared(h, id, place, source, replay))
    ensures ReplayVerdict.AllTrue(ReplayVerdict.ComparisonOf(Compared(h, id, place, source, replay), Normal(h, k)).agentArtifacts)
  {
    var c := ReplayVerdict.ComparisonOf(Compared(h, id, place, source, replay), Normal(h, k));
    forall s | s in c.agentArtifacts ensures c.agentArtifacts[s] {
      EveryFileMatches(h, k, source, replay, s);
    }
  }

  lemma FieldsMatchIff(h: Harness, k: Dumps, source: Side, replay: Side)
    requires IsReplay(h, k, source, replay)
    ensures ReplayVerdict.AllTrue(ReplayVerdict.AgentFieldMatches(RedactResult(h, RunOf(h, source).result), RunOf(h, replay).result))
       <==> RedactsTo(h, FailureOf(h, source.generation, source.seed), FailureOf(h, replay.generation, replay.seed))
  {
    RunsAreTwins(h, k, source, replay);
    OnlyErrorsDecide(h, k, RunOf(h, source).result, RunOf(h, replay).result);
    FailureIsReported(h, source);
    FailureIsReported(h, replay);
  }

  lemma OnlyErrorsDecide(h: Harness, k: Dumps, a: RunResult, b: RunResult)
    requires TwinRunResults(h, k, a, b)
    ensures ReplayVerdict.AllTrue(ReplayVerdict.AgentFieldMatches(RedactResult(h, a), b))
       <==> RedactOpt(h, a.errorClass) == b.errorClass && RedactOpt(h, a.errorMessage) == b.errorMessage
  {
    var m := ReplayVerdict.AgentFieldMatches(RedactResult(h, a), b);
    assert m["error_class"] == (RedactOpt(h, a.errorClass) == b.errorClass);
    assert m["error_message"] == (RedactOpt(h, a.errorMessage) == b.errorMessage);
  }

  /**
   Replaying an unchanged control attempt matches exactly when nothing was raised, or redaction leaves the error
   class alone and turns the message of the source into the message of the replay.  Nothing else can differ: files
   are compared in normal form, but these two fields literally, the stored side redacted and the fresh side not.
   */
  lemma UnchangedReplayMatchesIff(h: Harness, k: Dumps, id: Option<string>, place: ReplayVerdict.Place, source: Side, replay: Side)
    requires IsReplay(h, k, source, replay)
    ensures ReplayVerdict.Comparable(Compared(h, id, place, source, replay))
    ensures ReplayVerdict.Matched(ReplayVerdict.ComparisonOf(Compared(h, id, place, source, replay), Normal(h, k))) <==>
      RedactsTo(h, FailureOf(h, source.generation, source.seed), FailureOf(h, replay.generation, replay.seed))
  {
    ComparedIsComparable(h, id, place, source, replay);
    ArtifactsMatch(h, k, id, place, source, replay);
    FieldsMatchIff(h, k, source, replay);
  }

  /** An attempt that was scored replays as a match. */
  lemma ErrorFreeReplayMatches(h: Harness, k: Dumps, id: Option<string>, place: ReplayVerdict.Place, source: Side, replay: Side)
    requires IsReplay(h, k, source, replay) && FailureOf(h, source.generation, source.seed).None?
    ensures ReplayVerdict.Comparable(Compared(h, id, place, source, replay))
    ensures ReplayVerdict.Matched(ReplayVerdict.ComparisonOf(Compared(h, id, place, source, replay), Normal(h, k)))
  {
    UnchangedReplayMatchesIff(h, k, id, place, source, replay);
  }

  // ---------------------------------------------------------------- where twin generations come from

  predicate TwinExceptions(h: Harness, k: Dumps, a: AgentGeneration.Environment, x: Scorer.Exn, b: AgentGeneration.Environment, y: Scorer.Exn) {
    TwinDetails(h, k, AgentGeneration.Details(a, x), AgentGeneration.Details(b, y))
  }

  predicate TwinSteps<T(==)>(h: Harness, k: Dumps, a: AgentGeneration.Environment, x: Scorer.Step<T>,
                             b: AgentGeneration.Environment, y: Scorer.Step<T>)
  {
    match (x, y)
    case (Threw(e1), Threw(e2)) => TwinExceptions(h, k, a, e1, b, e2)
    case (Done(v), Done(w)) => v == w
    case _ => false
  }

  predicate TwinPreparations(h: Harness, k: Dumps, a: AgentGeneration.Environment, b: AgentGeneration.Environment) {
    match (a.prepared, b.prepared)
    case (Threw(e1), Threw(e2)) => TwinExceptions(h, k, a, e1, b, e2)
    case (Done(v), Done(w)) => v.input == w.input && k.text(v.workspacePath) == k.text(w.workspacePath)
    case _ => false
  }

  /** One task prepared twice, and tools, guard, diff and disk that answer alike. */
  ghost predicate TwinEnvironments(h: Harness, k: Dumps, a: AgentGeneration.Environment, b: AgentGeneration.Environment) {
    && a.taskManifestPath == b.taskManifestPath
    && TwinPreparations(h, k, a, b)
    && TwinSteps(h, k, a, a.guard, b, b.guard) && TwinSteps(h, k, a, a.diff, b, b.diff) && TwinSteps(h, k, a, a.save, b, b.save)
    && k.text(k.location(InRunRoot(a.runRoot))) == k.text(k.location(InRunRoot(b.runRoot)))
    && TwinWorlds(Stored(h, k), a.loop, b.loop)
  }

  /** A control client keeps the default id, and a replay reads it back from the stored transcript. */
  lemma ReplayUsesTheSameModelId(h: Harness, r: PL.Run, script: seq<ScriptedClient.ScriptStep>, latencyMs: nat -> nat)
    requires r.modelId == DEFAULT_CONTROL_MODEL_ID && r.reply == ScriptedClient.ScriptedReply(r.modelId, script, latencyMs)
    requires h.redact(DEFAULT_CONTROL_MODEL_ID) == DEFAULT_CONTROL_MODEL_ID
    ensures SourceModelId(RedactLoop(h, PL.PromptLoopOf(r).result).modelResponses) == DEFAULT_CONTROL_MODEL_ID
  {
    ScriptedClientSigns(r, script, latencyMs);
    SignedRun(r, 0, PL.Start(r), []);
    var responses := PL.PromptLoopOf(r).result.modelResponses;
    var stored := RedactLoop(h, PL.PromptLoopOf(r).result).modelResponses;
    forall i | 0 <= i < |stored| ensures stored[i].modelId == DEFAULT_CONTROL_MODEL_ID {
      assert responses[i] in responses;
    }
    if |stored| > 0 {
      SourceModelIdIsTheName(DEFAULT_CONTROL_MODEL_ID, stored);
    }
  }

  lemma ScriptedLoopsAreTwins(text: Text, a: PL.Run, b: PL.Run, script: seq<ScriptedClient.ScriptStep>, l1: nat -> nat, l2: nat -> nat)
    requires a.view.input == b.view.input && a.base == b.base && a.modelId == b.modelId && TwinWorlds(text, a.w, b.w)
    requires a.reply == ScriptedClient.ScriptedReply(a.modelId, script, l1) && b.reply == ScriptedClient.ScriptedReply(b.modelId, script, l2)
    ensures TwinResults(text, PL.PromptLoopOf(a).result, PL.PromptLoopOf(b).result)
  {
    ScriptedClientsAreTwins(a.modelId, script, l1, l2);
    TwinStarts(text, a, b);
    TwinLoops(text, a, b, 0, PL.Start(a), PL.Start(b), [], []);
  }

  lemma TwinRecordsAreTwins(h: Harness, k: Dumps, g1: Generation, g2: Generation, e1: AgentGeneration.Environment, e2: AgentGeneration.Environment,
                            r1: Option<PL.PromptLoopResult>, r2: Option<PL.PromptLoopResult>)
    requires TwinEnvironments(h, k, e1, e2)
    requires AgentGeneration.Records(g1, e1, r1) && AgentGeneration.Records(g2, e2, r2)
    requires r1.Some? && r2.Some? ==> TwinResults(Stored(h, k), r1.value, r2.value)
    ensures TwinGenerations(h, k, g1, g2)
  {
  }

  /** The generation a fresh scripted client produces in an environment. */
  predicate Scripted(g: Generation, e: AgentGeneration.Environment, modelId: string, script: seq<ScriptedClient.ScriptStep>, latencyMs: nat -> nat) {
    AgentGeneration.Records(g, e, AgentGeneration.ResultFor(e, modelId, ScriptedClient.ScriptedReply(modelId, script, latencyMs), 0))
  }

  /** Running one control script twice from fresh clients gives twin generations. */
  lemma ScriptedGenerationsAreTwins(h: Harness, k: Dumps, g1: Generation, g2: Generation, e1: AgentGeneration.Environment, e2: AgentGeneration.Environment,
                                    modelId: string, script: seq<ScriptedClient.ScriptStep>, l1: nat -> nat, l2: nat -> nat)
    requires TwinEnvironments(h, k, e1, e2)
    requires Scripted(g1, e1, modelId, script, l1) && Scripted(g2, e2, modelId, script, l2)
    ensures TwinGenerations(h, k, g1, g2)
  {
    var c1, c2 := ScriptedClient.ScriptedReply(modelId, script, l1), ScriptedClient.ScriptedReply(modelId, script, l2);
    var r1, r2 := AgentGeneration.ResultFor(e1, modelId, c1, 0), AgentGeneration.ResultFor(e2, modelId, c2, 0);
    if r1.Some? && r2.Some? {
      ScriptedLoopsAreTwins(Stored(h, k), AgentGeneration.LoopRun(e1, modelId, c1, 0), AgentGeneration.LoopRun(e2, modelId, c2, 0), script, l1, l2);
    }
    TwinRecordsAreTwins(h, k, g1, g2, e1, e2, r1, r2);
  }

  /** One control script run twice from fresh clients, in environments and by scoring runs that answer alike. */
  ghost predicate SameScriptTwice(h: Harness, k: Dumps, source: Side, replay: Side, e1: AgentGeneration.Environment, e2: AgentGeneration.Environment,
                                  modelId: string, script: seq<ScriptedClient.ScriptStep>, l1: nat -> nat, l2: nat -> nat)
  {
    && ControlPlan(source.plan) && replay.plan == ReplayPlan(source.plan)
    && Scripted(source.generation, e1, modelId, script, l1) && Scripted(replay.generation, e2, modelId, script, l2)
    && HonestEnvironment(e1, modelId, script, l1) && HonestEnvironment(e2, modelId, script, l2)
    && TwinEnvironments(h, k, e1, e2)
    && (GoesToScoring(source.generation) ==>
          TwinScoring(h, k, e1.taskManifestPath, source.generation.candidatePatch, source.seed, replay.seed))
  }

  lemma SameScriptIsReplay(h: Harness, k: Dumps, source: Side, replay: Side, e1: AgentGeneration.Environment, e2: AgentGeneration.Environment,
                           modelId: string, script: seq<ScriptedClient.ScriptStep>, l1: nat -> nat, l2: nat -> nat)
    requires SameScriptTwice(h, k, source, replay, e1, e2, modelId, script, l1, l2)
    ensures IsReplay(h, k, source, replay)
  {
    ScriptedSideIsSound(source, e1, modelId, script, l1);
    ScriptedSideIsSound(replay, e2, modelId, script, l2);
    ScriptedGenerationsAreTwins(h, k, source.generation, replay.generation, e1, e2, modelId, script, l1, l2);
    TwinsMakeReplay(h, k, source, replay);
  }

  /**
   From the outside: one control script run twice, in environments that answer alike, with two scoring runs that
   read alike.  The comparison is a match exactly when what was raised survives redaction.
   */
  lemma ControlReplayMatchesIff(h: Harness, k: Dumps, id: Option<string>, place: ReplayVerdict.Place, source: Side, replay: Side,
                                e1: AgentGeneration.Environment, e2: AgentGeneration.Environment,
                                modelId: string, script: seq<ScriptedClient.ScriptStep>, l1: nat -> nat, l2: nat -> nat)
    requires SameScriptTwice(h, k, source, replay, e1, e2, modelId, script, l1, l2)
    ensures SoundSide(source) && SoundSide(replay)
    ensures ReplayVerdict.Comparable(Compared(h, id, place, source, replay))
    ensures ReplayVerdict.Matched(ReplayVerdict.ComparisonOf(Compared(h, id, place, source, replay), Normal(h, k))) <==>
      RedactsTo(h, FailureOf(h, source.generation, source.seed), FailureOf(h, replay.generation, replay.seed))
  {
    SameScriptIsReplay(h, k, source, replay, e1, e2, modelId, script, l1, l2);
    UnchangedReplayMatchesIff(h, k, id, place, source, replay);
  }

  lemma TwinsMakeReplay(h: Harness, k: Dumps, source: Side, replay: Side)
    requires SoundSide(source) && SoundSide(replay) && replay.plan == ReplayPlan(source.plan)
    requires TwinGenerations(h, k, source.generation, replay.generation)
    requires GoesToScoring(source.generation) ==>
      TwinScoring(h, k, source.generation.taskManifestPath, source.generation.candidatePatch, source.seed, replay.seed)
    ensures IsReplay(h, k, source, replay)
  {
  }

  lemma ScriptedSideIsSound(x: Side, e: AgentGeneration.Environment, modelId: string, script: seq<ScriptedClient.ScriptStep>, latencyMs: nat -> nat)
    requires ControlPlan(x.plan) && Scripted(x.generation, e, modelId, script, latencyMs) && HonestEnvironment(e, modelId, script, latencyMs)
    ensures SoundSide(x) && x.generation.taskManifestPath == e.taskManifestPath
  {
    AgentGeneration.GenerationIsWellFormed(x.generation, e, modelId, ScriptedClient.ScriptedReply(modelId, script, latencyMs), 0);
  }

  /** Tool results and scripted answers obey their schemas, message ids are fresh. */
  ghost predicate HonestEnvironment(e: AgentGeneration.Environment, modelId: string, script: seq<ScriptedClient.ScriptStep>, latencyMs: nat -> nat) {
    AgentGeneration.EntersLoop(e) ==>
      PromptLoopLaws.HonestWorld(AgentGeneration.LoopRun(e, modelId, ScriptedClient.ScriptedReply(modelId, script, latencyMs), 0))
  }
}
