/**
 What the records of an evaluation say, told without the functions that make them: how often each status is counted,
 what a summary keeps of an attempt, and what a finished policy run lists.
 */
module EvalAnswers {
  import opened Wrappers
  import opened EvalRecords
  import opened EvalPlan
  import opened LayerCounts
  import ArtifactRefs
  import EvalRun
  import EvalSummaries
  import AgentAttempt
  import PromptLoop
  import Scorer = ScorerAttempt

  // ---------------------------------------------------------------- status counts

  /** Does the attempt have this status in this layer? */
  predicate HasStatus(scorer: Option<ScorerSummary>, agent: Option<AgentSummary>, layer: Layer, status: string) {
    match layer
    case ScorerStatus => scorer.Some? && scorer.value.status == status
    case ScorerPublicStatus => scorer.Some? && scorer.value.publicStatus == status
    case ScorerHiddenStatus => scorer.Some? && scorer.value.hiddenStatus == status
    case AgentStatus => agent.Some? && agent.value.status == status
    case PromptLoopStatus => agent.Some? && agent.value.promptLoopStatus == Some(status)
    case AgentScorerStatus => agent.Some? && agent.value.scorerAttempt.Some? && agent.value.scorerAttempt.value.status == status
    case AgentScorerPublicStatus => agent.Some? && agent.value.scorerAttempt.Some? && agent.value.scorerAttempt.value.publicStatus == status
    case AgentScorerHiddenStatus => agent.Some? && agent.value.scorerAttempt.Some? && agent.value.scorerAttempt.value.hiddenStatus == status
  }

  /** How many of the attempts have it. */
  function Having(attempts: seq<AttemptRecord>, layer: Layer, status: string): nat {
    if |attempts| == 0 then 0
    else
      var last := attempts[|attempts| - 1];
      Having(attempts[..|attempts| - 1], layer, status) + (if HasStatus(last.scorer, last.agent, layer, status) then 1 else 0)
  }

  lemma ScorerHas(scorer: Option<ScorerSummary>, l: Label)
    ensures multiset(OptionalScorerLabels(scorer))[l] ==
      if l.layer in {ScorerStatus, ScorerPublicStatus, ScorerHiddenStatus} && HasStatus(scorer, None, l.layer, l.status) then 1 else 0
  {
  }

  lemma NestedHas(s: Option<ScorerSummary>, l: Label)
    ensures multiset(OptionalNestedLabels(s))[l] ==
      if s.Some? && ((l.layer == AgentScorerStatus && s.value.status == l.status) || (l.layer == AgentScorerPublicStatus && s.value.publicStatus == l.status)
                     || (l.layer == AgentScorerHiddenStatus && s.value.hiddenStatus == l.status)) then 1 else 0
  {
  }

  lemma AgentHas(agent: Option<AgentSummary>, l: Label)
    ensures multiset(OptionalAgentLabels(agent))[l] ==
      if l.layer !in {ScorerStatus, ScorerPublicStatus, ScorerHiddenStatus} && HasStatus(None, agent, l.layer, l.status) then 1 else 0
  {
    if agent.Some? {
      NestedHas(agent.value.scorerAttempt, l);
      var a, b, c := [Label(AgentStatus, agent.value.status)], LoopLabels(agent.value.promptLoopStatus), OptionalNestedLabels(agent.value.scorerAttempt);
      assert multiset(a + b + c) == multiset(a) + multiset(b) + multiset(c);
      assert multiset(b)[l] == if l.layer == PromptLoopStatus && agent.value.promptLoopStatus == Some(l.status) then 1 else 0;
    }
  }

  lemma BothKinds(a: seq<Label>, b: seq<Label>, l: Label)
    ensures multiset(a + b)[l] == multiset(a)[l] + multiset(b)[l]
  {
  }

  lemma AttemptHas(a: AttemptRecord, l: Label)
    ensures multiset(Labels(a))[l] == if HasStatus(a.scorer, a.agent, l.layer, l.status) then 1 else 0
  {
    ScorerHas(a.scorer, l);
    AgentHas(a.agent, l);
    BothKinds(OptionalScorerLabels(a.scorer), OptionalAgentLabels(a.agent), l);
  }

  lemma LabelsOfOne(a: AttemptRecord)
    ensures AllLabels([a]) == Labels(a)
  {
    var parts := LabelLists([a]);
    assert parts == [Labels(a)];
    ConcatSnoc(parts, 0);
    assert parts[..0] == [] && parts[..1] == parts;
    assert Concat(parts) == [] + Labels(a);
  }

  function TimesLabelled(attempts: seq<AttemptRecord>, l: Label): nat {
    multiset(AllLabels(attempts))[l]
  }

  lemma LabelledSnoc(front: seq<AttemptRecord>, last: AttemptRecord, l: Label)
    ensures TimesLabelled(front + [last], l) == TimesLabelled(front, l) + (if HasStatus(last.scorer, last.agent, l.layer, l.status) then 1 else 0)
  {
    LabelsOfConcat(front, [last]);
    LabelsOfOne(last);
    AttemptHas(last, l);
  }

  lemma {:induction false} LabelsAreHad(attempts: seq<AttemptRecord>, l: Label)
    ensures TimesLabelled(attempts, l) == Having(attempts, l.layer, l.status)
  {
    if |attempts| > 0 {
      var n := |attempts| - 1;
      var front, last := attempts[..n], attempts[n];
      LabelsAreHad(front, l);
      LabelledSnoc(front, last, l);
      assert attempts == front + [last];
    }
  }

  /** A table of the attempts: an entry for every status some attempt has in a layer, with the number of those attempts. */
  lemma TableIsTold(attempts: seq<AttemptRecord>, c: Counts, layer: Layer, status: string)
    requires Tabulates(c, multiset(AllLabels(attempts)))
    ensures layer in c && status in c[layer] <==> Having(attempts, layer, status) > 0
    ensures layer in c && status in c[layer] ==> c[layer][status] == Having(attempts, layer, status)
    ensures layer in c ==> exists other :: Having(attempts, layer, other) > 0
  {
    LabelsAreHad(attempts, Label(layer, status));
    CompactEntry(c, layer, status);
    if layer in c {
      var other :| other in c[layer];
      LabelsAreHad(attempts, Label(layer, other));
      CompactEntry(c, layer, other);
    }
  }

  /** A table that says so of every layer and status. */
  ghost predicate CountsTold(counts: Counts, attempts: seq<AttemptRecord>) {
    forall layer, status ::
      && (layer in counts && status in counts[layer] <==> Having(attempts, layer, status) > 0)
      && (layer in counts && status in counts[layer] ==> counts[layer][status] == Having(attempts, layer, status))
  }

  lemma CountsAreTold(counts: Counts, attempts: seq<AttemptRecord>)
    requires Tabulates(counts, multiset(AllLabels(attempts)))
    ensures CountsTold(counts, attempts)
  {
    forall layer, status
      ensures layer in counts && status in counts[layer] <==> Having(attempts, layer, status) > 0
      ensures layer in counts && status in counts[layer] ==> counts[layer][status] == Having(attempts, layer, status)
    {
      TableIsTold(attempts, counts, layer, status);
    }
  }

  // ---------------------------------------------------------------- summaries

  /** The summary of a scorer attempt names its statuses as they are written, and keeps its class, hash and duration. */
  lemma ScorerSummaryIsTold(r: Scorer.AttemptResult)
    ensures var s := EvalSummaries.SummaryOfScorer(r);
      && s.scorerAttemptId == r.identity.scorerAttemptId && s.errorClass == r.errorClass
      && s.finalDiffHash == r.finalDiffHash && s.durationMs == r.clock.durationMs
      && (r.status == Scorer.Pass ==> s.status == "PASS") && (r.status == Scorer.PatchApplyError ==> s.status == "PATCH_APPLY_ERROR")
      && (r.status == Scorer.PublicTestFail ==> s.status == "PUBLIC_TEST_FAIL") && (r.status == Scorer.HiddenTestFail ==> s.status == "HIDDEN_TEST_FAIL")
      && (r.status == Scorer.InvalidShortcut ==> s.status == "INVALID_SHORTCUT")
      && (r.status == Scorer.HiddenValidatorAccessAttempt ==> s.status == "HIDDEN_VALIDATOR_ACCESS_ATTEMPT")
      && (r.status == Scorer.OrchestratorError ==> s.status == "ORCHESTRATOR_ERROR") && (r.status == Scorer.Timeout ==> s.status == "TIMEOUT")
      && CheckNamed(r.publicStatus, s.publicStatus) && CheckNamed(r.hiddenStatus, s.hiddenStatus)
  {
  }

  predicate CheckNamed(status: Scorer.CheckStatus, name: string) {
    && (status == Scorer.Passed ==> name == "PASS") && (status == Scorer.Failed ==> name == "FAIL")
    && (status == Scorer.NotRun ==> name == "NOT_RUN")
  }

  predicate LoopNamed(status: PromptLoop.LoopStatus, name: string) {
    && (status == PromptLoop.Completed ==> name == "completed") && (status == PromptLoop.MaxTurnsExceeded ==> name == "max_turns_exceeded")
    && (status == PromptLoop.ModelError ==> name == "model_error") && (status == PromptLoop.InvalidModelOutput ==> name == "invalid_model_output")
    && (status == PromptLoop.InvalidShortcutAttempted ==> name == "invalid_shortcut_attempted")
    && (status == PromptLoop.TerminalToolError ==> name == "terminal_tool_error")
    && (status == PromptLoop.LoopOrchestratorError ==> name == "orchestrator_error")
  }

  /** And the summary of an agent run, with that of its scorer attempt in it. */
  lemma AgentSummaryIsTold(r: AgentAttempt.RunResult)
    ensures var s := EvalSummaries.SummaryOfRun(r);
      && s.agentAttemptId == r.agentAttemptId && s.errorClass == r.errorClass
      && s.candidatePatchHash == r.candidatePatchHash && s.durationMs == r.durationMs
      && (r.status == AgentAttempt.Scored ==> s.status == "scored") && (r.status == AgentAttempt.AgentLoopFailed ==> s.status == "agent_loop_failed")
      && (r.status == AgentAttempt.OrchestratorError ==> s.status == "orchestrator_error")
      && (s.promptLoopStatus.Some? <==> r.promptLoopStatus.Some?)
      && (r.promptLoopStatus.Some? ==> LoopNamed(r.promptLoopStatus.value, s.promptLoopStatus.value))
      && (s.scorerAttempt.Some? <==> r.attemptResult.Some?)
      && (r.attemptResult.Some? ==> s.scorerAttempt == Some(EvalSummaries.SummaryOfScorer(r.attemptResult.value)))
  {
  }

  // ---------------------------------------------------------------- the records of a policy run

  /** A record carries its planned attempt's identity, the place its files are, and the summary of what came of it. */
  predicate RecordTold(outDir: seq<string>, planned: PlannedAttempt, outcome: EvalRun.Outcome, a: AttemptRecord) {
    && a.evalAttemptId == planned.evalAttemptId && a.taskId == planned.taskId && a.attemptIndex == planned.attemptIndex
    && a.attemptDir == outDir + ArtifactRefs.PathParts(planned.artifactDir)
    && match outcome
       case Raised => false
       case ScorerFinished(s) => a.artifactType == ScorerAttempt && a.scorer == Some(s) && a.agent == None
       case AgentFinished(s) => a.artifactType == AgentAttempt && a.agent == Some(s) && a.scorer == None
  }

  /** One record for every planned attempt, in the order of the plan. */
  lemma RecordsAreTold(outDir: seq<string>, plan: seq<PlannedAttempt>, execute: EvalRun.Executor)
    requires EvalRun.NoneRaised(plan, execute)
    ensures var records := EvalRun.RecordsFor(outDir, plan, execute);
      |records| == |plan| && forall k :: 0 <= k < |plan| ==> RecordTold(outDir, plan[k], execute(plan[k]), records[k])
  {
  }
}
