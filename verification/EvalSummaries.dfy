/**
 What an evaluation keeps of a finished attempt, and the validators its manifest holds these summaries against:
 a summary of a valid result is a valid summary.
 */
module EvalSummaries {
  import opened Wrappers
  import opened EvalRecords
  import AgentAttempt
  import CompletedAttempt
  import PromptLoop
  import Scorer = ScorerAttempt

  /** _scorer_summary. */
  function SummaryOfScorer(r: Scorer.AttemptResult): ScorerSummary {
    ScorerSummary(r.identity.scorerAttemptId, Scorer.StatusName(r.status), Scorer.CheckName(r.publicStatus), Scorer.CheckName(r.hiddenStatus),
                  r.errorClass, r.finalDiffHash, r.clock.durationMs)
  }

  /** _agent_summary. */
  function SummaryOfRun(r: AgentAttempt.RunResult): AgentSummary {
    AgentSummary(r.agentAttemptId, AgentAttempt.RunStatusName(r.status),
                 if r.promptLoopStatus.Some? then Some(PromptLoop.LoopStatusName(r.promptLoopStatus.value)) else None,
                 r.errorClass, r.candidatePatchHash, r.durationMs,
                 if r.attemptResult.Some? then Some(SummaryOfScorer(r.attemptResult.value)) else None)
  }

  const UNCHECKED_STATUSES := {"PATCH_APPLY_ERROR", "INVALID_SHORTCUT", "HIDDEN_VALIDATOR_ACCESS_ATTEMPT", "ORCHESTRATOR_ERROR"}

  /** EvalRunScorerAttemptSummary, over the names the statuses are written with. */
  predicate ValidScorerSummary(s: ScorerSummary) {
    var pair := (s.publicStatus, s.hiddenStatus);
    if s.status == "PASS" then pair == ("PASS", "PASS") && s.errorClass.None? && s.finalDiffHash.Some?
    else
      && s.errorClass.Some?
      && if s.status == "PUBLIC_TEST_FAIL" then pair == ("FAIL", "NOT_RUN")
         else if s.status == "HIDDEN_TEST_FAIL" then pair == ("PASS", "FAIL")
         else if s.status == "TIMEOUT" then pair in {("NOT_RUN", "NOT_RUN"), ("FAIL", "NOT_RUN"), ("PASS", "FAIL")}
         else s.status in UNCHECKED_STATUSES && pair == ("NOT_RUN", "NOT_RUN")
  }

  /** EvalRunAgentAttemptSummary. */
  predicate ValidAgentSummary(a: AgentSummary) {
    if a.status == "scored" then
      && a.promptLoopStatus == Some("completed") && a.errorClass.None? && a.candidatePatchHash.Some?
      && a.scorerAttempt.Some? && ValidScorerSummary(a.scorerAttempt.value)
    else
      && a.status in {"agent_loop_failed", "orchestrator_error"}
      && a.scorerAttempt.None? && a.errorClass.Some?
      && (a.status == "agent_loop_failed" ==> a.promptLoopStatus.Some? && a.promptLoopStatus != Some("completed"))
  }

  lemma CheckNamesDiffer(a: Scorer.CheckStatus, b: Scorer.CheckStatus)
    ensures Scorer.CheckName(a) == Scorer.CheckName(b) <==> a == b
  {
    assert "PASS"[0] == 'P' && "FAIL"[0] == 'F' && "NOT_RUN"[0] == 'N';
  }

  lemma PairNames(p: Scorer.CheckStatus, h: Scorer.CheckStatus)
    ensures forall a, b :: (Scorer.CheckName(p), Scorer.CheckName(h)) == (Scorer.CheckName(a), Scorer.CheckName(b)) <==> (p, h) == (a, b)
  {
    forall a, b ensures (Scorer.CheckName(p), Scorer.CheckName(h)) == (Scorer.CheckName(a), Scorer.CheckName(b)) <==> (p, h) == (a, b) {
      CheckNamesDiffer(p, a);
      CheckNamesDiffer(h, b);
    }
  }

  lemma NamedPairs(p: Scorer.CheckStatus, h: Scorer.CheckStatus)
    ensures var pair := (Scorer.CheckName(p), Scorer.CheckName(h));
      && (pair == ("PASS", "PASS") <==> (p, h) == (Scorer.Passed, Scorer.Passed))
      && (pair == ("FAIL", "NOT_RUN") <==> (p, h) == (Scorer.Failed, Scorer.NotRun))
      && (pair == ("PASS", "FAIL") <==> (p, h) == (Scorer.Passed, Scorer.Failed))
      && (pair == ("NOT_RUN", "NOT_RUN") <==> (p, h) == (Scorer.NotRun, Scorer.NotRun))
  {
    PairNames(p, h);
    assert Scorer.CheckName(Scorer.Passed) == "PASS" && Scorer.CheckName(Scorer.Failed) == "FAIL" && Scorer.CheckName(Scorer.NotRun) == "NOT_RUN";
  }

  /** The manifest's table over names accepts exactly what the result's own table accepts. */
  lemma ScorerSummaryIsValidIff(r: Scorer.AttemptResult)
    ensures ValidScorerSummary(SummaryOfScorer(r)) <==> Scorer.ValidAttemptResult(r)
  {
    NamedPairs(r.publicStatus, r.hiddenStatus);
    match r.status
    case Pass =>
    case PublicTestFail => assert "PUBLIC_TEST_FAIL" != "PASS";
    case HiddenTestFail => assert "HIDDEN_TEST_FAIL"[0] == 'H';
    case Timeout => assert "TIMEOUT"[0] == 'T';
    case _ => assert Scorer.StatusName(r.status) in UNCHECKED_STATUSES;
  }

  /** A valid run result is summarised validly. */
  lemma AgentSummaryIsValid(r: AgentAttempt.RunResult)
    requires AgentAttempt.ValidRunResult(r)
    requires r.attemptResult.Some? ==> Scorer.ValidAttemptResult(r.attemptResult.value)
    ensures ValidAgentSummary(SummaryOfRun(r))
  {
    if r.attemptResult.Some? {
      ScorerSummaryIsValidIff(r.attemptResult.value);
    }
    if r.status.AgentLoopFailed? {
      OnlyCompletedIsCompleted(r.promptLoopStatus.value);
    }
  }

  lemma OnlyCompletedIsCompleted(s: PromptLoop.LoopStatus)
    ensures PromptLoop.LoopStatusName(s) == "completed" <==> s.Completed?
  {
    assert "completed"[0] == 'c';
  }

  /** So whatever an agent attempt comes to, its manifest entry carries a valid summary. */
  lemma FinishedRunIsSummarised(h: AgentAttempt.Harness, g: AgentAttempt.Generation, path: Option<AgentAttempt.Location>, readBack: Option<string>,
                                seed: AgentAttempt.Seed)
    requires AgentAttempt.WellFormed(g) && CompletedAttempt.OneDiffHash(h)
    ensures ValidAgentSummary(SummaryOfRun(AgentAttempt.Finish(h, g, path, readBack, seed).result))
  {
    CompletedAttempt.FinishIsSound(h, g, path, readBack, seed);
    AgentSummaryIsValid(AgentAttempt.Finish(h, g, path, readBack, seed).result);
  }

  /** And whatever a scorer attempt comes to. */
  lemma ScoredAttemptIsSummarised(w: Scorer.World)
    ensures ValidScorerSummary(SummaryOfScorer(Scorer.Attempt(w).result))
  {
    Scorer.AttemptIsValid(w);
    ScorerSummaryIsValidIff(Scorer.Attempt(w).result);
  }
}
