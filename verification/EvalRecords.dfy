/** Attempt records and their summaries, as a running evaluation keeps them and as its manifest stores them. */
module EvalRecords {
  import opened Wrappers

  type Hash = int

  datatype ScorerSummary = ScorerSummary(
    scorerAttemptId: string,
    status: string,
    publicStatus: string,
    hiddenStatus: string,
    errorClass: Option<string>,
    finalDiffHash: Option<Hash>,
    durationMs: nat)

  datatype AgentSummary = AgentSummary(
    agentAttemptId: string,
    status: string,
    promptLoopStatus: Option<string>,
    errorClass: Option<string>,
    candidatePatchHash: Option<Hash>,
    durationMs: nat,
    scorerAttempt: Option<ScorerSummary>)

  datatype ArtifactType = ScorerAttempt | AgentAttempt

  /** A finished attempt in memory; its directory is an absolute path, component by component. */
  datatype AttemptRecord = AttemptRecord(
    evalAttemptId: string,
    taskId: string,
    attemptIndex: nat,
    attemptDir: seq<string>,
    artifactType: ArtifactType,
    scorer: Option<ScorerSummary>,
    agent: Option<AgentSummary>)

  /** The same attempt as its eval-run manifest names it; the directory is a reference relative to the run. */
  datatype ManifestAttempt = ManifestAttempt(
    evalAttemptId: string,
    taskId: string,
    attemptIndex: nat,
    artifactDir: string,
    artifactType: ArtifactType,
    scorer: Option<ScorerSummary>,
    agent: Option<AgentSummary>)
}
