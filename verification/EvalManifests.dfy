/**
 The manifests of a finished policy run and of a finished suite, their validators, and the proof that every
 manifest built from completed work passes its validator.
 */
module EvalManifests {
  import opened Wrappers
  import opened EvalRecords
  import opened EvalPlan
  import opened EvalRun
  import LayerCounts
  import ArtifactRefs
  import EvalSummaries

  // ---------------------------------------------------------------- one policy run

  datatype RunManifest = RunManifest(
    policyType: PolicyType,
    attemptsPerTask: nat,
    selectedTasks: seq<string>,
    attemptCount: nat,
    layerCounts: LayerCounts.Counts,
    attempts: seq<ManifestAttempt>)

  function ListedAttempt(outDir: seq<string>, a: AttemptRecord): ManifestAttempt
    requires ArtifactRefs.Below(a.attemptDir, outDir)
  {
    ManifestAttempt(a.evalAttemptId, a.taskId, a.attemptIndex, ArtifactRefs.RelativeTo(a.attemptDir, outDir), a.artifactType, a.scorer, a.agent)
  }

  predicate AllBelow(outDir: seq<string>, attempts: seq<AttemptRecord>) {
    forall i :: 0 <= i < |attempts| ==> ArtifactRefs.Below(attempts[i].attemptDir, outDir)
  }

  function ListedAttempts(outDir: seq<string>, attempts: seq<AttemptRecord>): seq<ManifestAttempt>
    requires AllBelow(outDir, attempts)
  {
    seq(|attempts|, i requires 0 <= i < |attempts| => ListedAttempt(outDir, attempts[i]))
  }

  /** _build_eval_run_manifest. */
  method BuildRunManifest(outDir: seq<string>, c: Config, attempts: seq<AttemptRecord>) returns (m: RunManifest)
    requires AllBelow(outDir, attempts)
    ensures m == RunManifest(c.policy, c.attempts, c.tasks, |attempts|, m.layerCounts, ListedAttempts(outDir, attempts))
    ensures LayerCounts.Tabulates(m.layerCounts, multiset(LayerCounts.AllLabels(attempts)))
  {
    var counts := LayerCounts.CountAttemptLayers(attempts);
    m := RunManifest(c.policy, c.attempts, c.tasks, |attempts|, counts, ListedAttempts(outDir, attempts));
  }

  function ListedIds(attempts: seq<ManifestAttempt>): seq<string> {
    seq(|attempts|, i requires 0 <= i < |attempts| => attempts[i].evalAttemptId)
  }

  function ListedDirs(attempts: seq<ManifestAttempt>): seq<string> {
    seq(|attempts|, i requires 0 <= i < |attempts| => attempts[i].artifactDir)
  }

  function ListedPairs(attempts: seq<ManifestAttempt>): seq<Pair> {
    seq(|attempts|, i requires 0 <= i < |attempts| => (attempts[i].taskId, attempts[i].attemptIndex))
  }

  function ExpectedType(policy: PolicyType): ArtifactType {
    if policy.ScorerControlPatch? then ScorerAttempt else AgentAttempt
  }

  /** EvalRunAttemptManifestRecord: an accepted directory and the one valid summary its type calls for. */
  predicate ValidListing(a: ManifestAttempt, isAlpha: char -> bool) {
    && ArtifactRefs.Accepted(a.artifactDir, isAlpha)
    && (a.artifactType.ScorerAttempt? ==> a.scorer.Some? && a.agent.None?)
    && (a.artifactType.AgentAttempt? ==> a.agent.Some? && a.scorer.None?)
    && (a.scorer.Some? ==> EvalSummaries.ValidScorerSummary(a.scorer.value))
    && (a.agent.Some? ==> EvalSummaries.ValidAgentSummary(a.agent.value))
  }

  /** EvalRunManifest; its layer counts are compared with a recount of the attempts it lists. */
  ghost predicate ValidRunManifest(m: RunManifest, isAlpha: char -> bool) {
    && (forall i :: 0 <= i < |m.attempts| ==> ValidListing(m.attempts[i], isAlpha))
    && Unique(ListedIds(m.attempts)) && Unique(ListedDirs(m.attempts))
    && m.attemptCount == |m.attempts|
    && (forall i :: 0 <= i < |m.attempts| ==> m.attempts[i].artifactType == ExpectedType(m.policyType))
    && CoverageAccepted(ListedPairs(m.attempts), Elements(m.selectedTasks), m.attemptsPerTask)
    && LayerCounts.Tabulates(m.layerCounts, multiset(LayerCounts.AllManifestLabels(m.attempts)))
  }

  /** An outcome summarised from a finished attempt. */
  predicate SummarisedOutcome(o: Outcome) {
    match o
    case Raised => true
    case ScorerFinished(s) => EvalSummaries.ValidScorerSummary(s)
    case AgentFinished(a) => EvalSummaries.ValidAgentSummary(a)
  }

  /** A run that got through: its plan, and what executing it gave. */
  ghost predicate Completed(outDir: seq<string>, c: Config, plan: seq<PlannedAttempt>, execute: Executor, isAlpha: char -> bool) {
    && Unique(c.tasks) && PlanCovers(plan, c.tasks, c.attempts)
    && NoneRaised(plan, execute) && Unique(PlanIds(plan))
    && (forall k :: 0 <= k < |plan| ==> OutcomeFits(c.policy, execute(plan[k])) && SummarisedOutcome(execute(plan[k])))
    && (forall k :: 0 <= k < |plan| ==> ArtifactRefs.Accepted(plan[k].artifactDir, isAlpha))
  }

  lemma CompletedIsListed(outDir: seq<string>, c: Config, plan: seq<PlannedAttempt>, execute: Executor, isAlpha: char -> bool)
    requires Completed(outDir, c, plan, execute, isAlpha)
    ensures var attempts := RecordsFor(outDir, plan, execute);
      && AllBelow(outDir, attempts)
      && var listed := ListedAttempts(outDir, attempts);
         && |listed| == |plan|
         && forall k :: 0 <= k < |plan| ==>
              && listed[k].evalAttemptId == plan[k].evalAttemptId && listed[k].taskId == plan[k].taskId
              && listed[k].attemptIndex == plan[k].attemptIndex && listed[k].artifactDir == plan[k].artifactDir
              && listed[k].artifactType == ExpectedType(c.policy) && ValidListing(listed[k], isAlpha)
  {
    forall k | 0 <= k < |plan|
      ensures var a := RecordFor(outDir, plan[k], execute(plan[k]));
        ArtifactRefs.Below(a.attemptDir, outDir) && ArtifactRefs.RelativeTo(a.attemptDir, outDir) == plan[k].artifactDir
    {
      ArtifactRefs.ResolvedRefReadsBack(outDir, plan[k].artifactDir, isAlpha);
    }
  }

  lemma PlannedDirsAreUnique(plan: seq<PlannedAttempt>, tasks: seq<string>, n: nat)
    requires Unique(tasks) && PlanCovers(plan, tasks, n)
    ensures forall j, k :: 0 <= j < k < |plan| ==> plan[j].artifactDir != plan[k].artifactDir
  {
    CoveringPlanListsProduct(plan, tasks, n);
    var blank := BlankPlan(tasks, n);
    NewPlanDirs(tasks, n, (task, i) => "");
    assert |Triples(plan)| == |plan| && |Triples(blank)| == |blank|;
    forall j, k | 0 <= j < k < |plan| ensures plan[j].artifactDir != plan[k].artifactDir {
      assert Triples(plan)[j] == Triples(blank)[j] && Triples(plan)[k] == Triples(blank)[k];
      assert PlanPairs(plan)[j] != PlanPairs(plan)[k];
      if plan[j].artifactDir == plan[k].artifactDir {
        AttemptDirIsInjective(plan[j].taskId, plan[j].attemptIndex, plan[k].taskId, plan[k].attemptIndex);
      }
    }
  }

  lemma {:induction false} NewPlanDirs(tasks: seq<string>, n: nat, newId: (string, nat) -> string)
    ensures forall k :: 0 <= k < |NewPlan(tasks, n, newId)| ==>
      NewPlan(tasks, n, newId)[k].artifactDir == AttemptDir(NewPlan(tasks, n, newId)[k].taskId, NewPlan(tasks, n, newId)[k].attemptIndex)
  {
    if |tasks| > 0 {
      NewPlanDirs(tasks[..|tasks| - 1], n, newId);
    }
  }

  lemma CompletedListsAreUnique(outDir: seq<string>, c: Config, plan: seq<PlannedAttempt>, execute: Executor, isAlpha: char -> bool)
    requires Completed(outDir, c, plan, execute, isAlpha)
    ensures AllBelow(outDir, RecordsFor(outDir, plan, execute))
    ensures var listed := ListedAttempts(outDir, RecordsFor(outDir, plan, execute));
      Unique(ListedIds(listed)) && Unique(ListedDirs(listed)) && ListedPairs(listed) == PlanPairs(plan)
  {
    CompletedIsListed(outDir, c, plan, execute, isAlpha);
    PlannedDirsAreUnique(plan, c.tasks, c.attempts);
    var listed := ListedAttempts(outDir, RecordsFor(outDir, plan, execute));
    assert ListedIds(listed) == PlanIds(plan);
  }

  /** Whatever the attempts turned out to be, the manifest of a completed run validates. */
  lemma BuiltRunManifestIsValid(outDir: seq<string>, c: Config, plan: seq<PlannedAttempt>, execute: Executor, isAlpha: char -> bool, counts: LayerCounts.Counts)
    requires Completed(outDir, c, plan, execute, isAlpha)
    requires LayerCounts.Tabulates(counts, multiset(LayerCounts.AllLabels(RecordsFor(outDir, plan, execute))))
    ensures AllBelow(outDir, RecordsFor(outDir, plan, execute))
    ensures var attempts := RecordsFor(outDir, plan, execute);
      && ValidRunManifest(RunManifest(c.policy, c.attempts, c.tasks, |attempts|, counts, ListedAttempts(outDir, attempts)), isAlpha)
      && |attempts| == |c.tasks| * c.attempts
  {
    var attempts := RecordsFor(outDir, plan, execute);
    CompletedIsListed(outDir, c, plan, execute, isAlpha);
    CompletedListsAreUnique(outDir, c, plan, execute, isAlpha);
    var listed := ListedAttempts(outDir, attempts);
    CoveringPlanListsProduct(plan, c.tasks, c.attempts);
    ProductIsAccepted(PlanPairs(plan), Elements(c.tasks), c.attempts);
    LayerCounts.SameSummariesSameLabels(attempts, listed);
  }
}
