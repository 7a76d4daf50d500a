/**
 A whole suite in one process: declare it, execute every policy, replay what is configured, build the manifest.
 Nothing but the configuration, fresh ids and an honest environment is assumed of the steps in between.
 */
module SuiteRun {
  import opened Wrappers
  import opened EvalPlan
  import opened EvalSuite
  import opened SuitePlanning
  import opened SuiteDirectories
  import ArtifactTree
  import EvalRun
  import EvalManifests
  import ReplayVerdict
  import ArtifactRefs
  import EvalAnswers
  import LayerCounts

  /** How a policy's attempts turn out, what attempts and replays leave on disk, and what replays find and are called. */
  datatype World = World(
    execute: string -> EvalRun.Executor,
    traces: Traces,
    replayId: (string, nat) -> string,
    source: (string, nat) -> ReplayVerdict.Source)

  /** The files of a policy run with n attempts, as a replay sees them; they may fail to load. */
  predicate SourceOfRun(source: ReplayVerdict.Source, n: nat, isAlpha: char -> bool) {
    source.Unloadable? || (source.EvalRunSource? && |source.attempts| == n && ReplayVerdict.LoadedAll(source, isAlpha))
  }

  /** Policies produce attempts of their own type and summarise them as they ended, replay ids are fresh, replays read what was written, files have names. */
  ghost predicate HonestWorld(c: SuiteConfig, w: World, isAlpha: char -> bool) {
    && (forall i, a :: 0 <= i < |c.policies| ==>
          EvalRun.OutcomeFits(c.policies[i].kind, w.execute(c.policies[i].name)(a)) && EvalManifests.SummarisedOutcome(w.execute(c.policies[i].name)(a)))
    && (forall a, i: nat, b, j: nat :: w.replayId(a, i) == w.replayId(b, j) ==> a == b && i == j)
    && (forall i, k: nat :: 0 <= i < |c.policies| && k < c.policies[i].repeats ==>
          SourceOfRun(w.source(c.policies[i].name, k), |c.tasks| * c.policies[i].attempts, isAlpha))
    && RealTraces(w.traces)
  }

  predicate NothingRaised(c: SuiteConfig, s: Supply, w: World, n: nat) {
    n <= |c.policies| && forall i :: 0 <= i < n ==> EvalRun.NoneRaised(PlanOf(c, s, i), w.execute(c.policies[i].name))
  }

  function WorkOf(c: SuiteConfig, s: Supply, w: World, i: nat): Work
    requires i < |c.policies|
  {
    Work(PlanOf(c, s, i), w.execute(c.policies[i].name))
  }

  function Works(c: SuiteConfig, s: Supply, w: World): seq<Work> {
    seq(|c.policies|, i requires 0 <= i < |c.policies| => WorkOf(c, s, w, i))
  }

  function RunOf(root: Path, c: SuiteConfig, s: Supply, w: World, i: nat): PolicyRun
    requires i < |c.policies| && EvalRun.NoneRaised(PlanOf(c, s, i), w.execute(c.policies[i].name))
  {
    var p := c.policies[i];
    var outDir := ArtifactRefs.Resolve(root, PolicyRef(p.name));
    PolicyRun(p.name, s.runId(p.name), outDir, EvalRun.RecordsFor(outDir, PlanOf(c, s, i), w.execute(p.name)))
  }

  lemma PlanIsCovered(c: SuiteConfig, s: Supply, i: nat)
    requires ValidConfig(c) && FreshIds(s) && i < |c.policies|
    ensures PlanCovers(PlanOf(c, s, i), c.tasks, c.policies[i].attempts)
    ensures Unique(EvalRun.PlanIds(PlanOf(c, s, i)))
  {
    NewPlanCovers(c.tasks, c.policies[i].attempts, IdsFor(s, c.policies[i].name));
    PlannedAttemptsDiffer(c, c.policies[i], s);
  }

  /** run_eval_config for one policy; None when its directories are not free or an attempt raises. */
  method RunPolicy(disk: ArtifactTree.ArtifactDisk, root: Path, c: SuiteConfig, s: Supply, w: World, i: nat) returns (r: Option<PolicyRun>)
    requires ValidConfig(c) && FreshIds(s) && i < |c.policies| && disk.Valid() && RealTraces(w.traces)
    modifies disk
    ensures disk.Valid()
    ensures r.Some? <==>
      && EvalRun.NoneRaised(PlanOf(c, s, i), w.execute(c.policies[i].name))
      && ArtifactTree.Runs(old(disk.tree), PolicySteps(root, c, s, w.traces, i)).Some?
    ensures r.Some? ==> r.value == RunOf(root, c, s, w, i)
    ensures r.Some? ==> ArtifactTree.Runs(old(disk.tree), PolicySteps(root, c, s, w.traces, i)) == Some(disk.tree)
  {
    var p := c.policies[i];
    var outDir := ArtifactRefs.Resolve(root, PolicyRef(p.name));
    var planned := PlanPolicy(c, p, s);
    PlanIsCovered(c, s, i);
    var evaluation := new EvalRun.Evaluation(disk);
    var ok := evaluation.Run(outDir, planned.plannedAttempts, RunConfig(c, p), w.execute(p.name), w.traces.attempts(p.name));
    r := if ok then Some(PolicyRun(p.name, planned.evalRunId, outDir, evaluation.attempts)) else None;
  }

  lemma OneMoreRan(c: SuiteConfig, s: Supply, w: World, i: nat)
    requires i < |c.policies|
    ensures NothingRaised(c, s, w, i + 1) <==> NothingRaised(c, s, w, i) && EvalRun.NoneRaised(PlanOf(c, s, i), w.execute(c.policies[i].name))
    ensures NothingRaised(c, s, w, |c.policies|) ==> NothingRaised(c, s, w, i + 1)
  {
  }

  /** Every policy in order; None as soon as one does not get through. */
  method RunPolicies(disk: ArtifactTree.ArtifactDisk, root: Path, c: SuiteConfig, s: Supply, w: World) returns (r: Option<seq<PolicyRun>>)
    requires ValidConfig(c) && FreshIds(s) && disk.Valid() && RealTraces(w.traces)
    modifies disk
    ensures disk.Valid()
    ensures r.Some? <==>
      && NothingRaised(c, s, w, |c.policies|)
      && ArtifactTree.Runs(old(disk.tree), PoliciesSteps(root, c, s, w.traces, |c.policies|)).Some?
    ensures r.Some? ==> |r.value| == |c.policies| && forall i :: 0 <= i < |c.policies| ==> r.value[i] == RunOf(root, c, s, w, i)
    ensures r.Some? ==> ArtifactTree.Runs(old(disk.tree), PoliciesSteps(root, c, s, w.traces, |c.policies|)) == Some(disk.tree)
  {
    var runs: seq<PolicyRun> := [];
    ghost var base, parts := disk.tree, PolicyParts(root, c, s, w.traces);
    assert parts[..|c.policies|] == parts;
    for i := 0 to |c.policies|
      invariant |runs| == i && NothingRaised(c, s, w, i) && disk.Valid()
      invariant forall k :: 0 <= k < i ==> runs[k] == RunOf(root, c, s, w, k)
      invariant ArtifactTree.Runs(base, ArtifactTree.Flat(parts[..i])) == Some(disk.tree)
    {
      ArtifactTree.RunsFlatSnoc(base, parts, i);
      OneMoreRan(c, s, w, i);
      var run := RunPolicy(disk, root, c, s, w, i);
      if run.None? {
        if ArtifactTree.Runs(base, ArtifactTree.Flat(parts[..i + 1])).None? {
          ArtifactTree.RunsFlatStop(base, parts, i + 1);
        }
        return None;
      }
      runs := runs + [run.value];
    }
    r := Some(runs);
  }

  /** The declaration is written and the policies folder made, which nothing can prevent. */
  method OpenSuite(root: Path) returns (disk: ArtifactTree.ArtifactDisk)
    ensures disk.Valid() && fresh(disk) && disk.tree == OpenTree(root)
  {
    disk := new ArtifactTree.ArtifactDisk(root);
    SuiteOpens(root);
    OpeningFits(root);
    var saved := disk.SaveFiles(root, DECLARATION_FILE);
    var made := disk.MakeDirectory(root + [POLICIES]);
  }

  // ---------------------------------------------------------------- what the manifest says

  /** A policy's entry: what was configured, the run's id and place, and what its attempts came to. */
  ghost predicate PolicyTold(r: PolicyRecord, root: Path, c: SuiteConfig, s: Supply, w: World, i: nat)
    requires i < |c.policies|
  {
    var p := c.policies[i];
    && r.policy == p.name && r.kind == p.kind && r.attemptsPerTask == p.attempts && r.repeats == p.repeats
    && r.evalRunId == s.runId(p.name) && r.artifactDir == "policies" + "/" + p.name
    && r.manifest == r.artifactDir + "/" + "manifest.json" && r.attemptCount == |c.tasks| * p.attempts
    && EvalRun.NoneRaised(PlanOf(c, s, i), w.execute(p.name))
    && EvalAnswers.CountsTold(r.layerCounts, RunOf(root, c, s, w, i).attempts)
  }

  /** A replay's entry: one configured replay of a policy, and what it came to. */
  predicate ReplayTold(r: ReplayRecord, c: SuiteConfig, w: World, normal: ReplayVerdict.Normaliser) {
    exists i :: 0 <= i < |c.policies| && ReplayOfPolicy(r, c.policies[i], w, normal)
  }

  predicate ReplayOfPolicy(r: ReplayRecord, p: PolicyConfig, w: World, normal: ReplayVerdict.Normaliser) {
    && r.policy == p.name && r.replayIndex < p.repeats && r.replayRunId == w.replayId(p.name, r.replayIndex)
    && var run := ReplayVerdict.Verdict(r.replayRunId, w.source(p.name, r.replayIndex), normal);
       && r.status == run.status && r.attemptCount == |run.comparisons|
       && r.matchedAttempts == ReplayVerdict.CountMatched(run.comparisons)
       && r.errorCount == (if run.status.ReplayError? then 1 else 0)
       && r.artifactDir == ReplayRef(p.name, r.replayIndex)
       && r.manifest == r.artifactDir + "/" + "manifest.json" && r.replayResult == r.artifactDir + "/" + "replay_result.json"
  }

  ghost predicate SuiteTold(m: SuiteManifest, root: Path, c: SuiteConfig, s: Supply, w: World, normal: ReplayVerdict.Normaliser) {
    && m.tasks == c.tasks && m.selectedTasks == c.tasks && m.taskCount == |c.tasks|
    && m.policyCount == |c.policies| && |m.policyRuns| == |c.policies|
    && (forall i :: 0 <= i < |c.policies| ==> PolicyTold(m.policyRuns[i], root, c, s, w, i))
    && m.replayRunCount == |m.replayRuns| && forall j :: 0 <= j < |m.replayRuns| ==> ReplayTold(m.replayRuns[j], c, w, normal)
  }

  lemma FileIsNamed(root: Path, dir: string, file: string, isAlpha: char -> bool)
    requires ArtifactRefs.Accepted(dir, isAlpha) && ArtifactRefs.Ordinary(file) && |file| >= 2 && file[1] != ':'
    ensures ArtifactRefs.Below(ArtifactRefs.Resolve(root, dir) + [file], root)
    ensures ArtifactRefs.RelativeTo(ArtifactRefs.Resolve(root, dir) + [file], root) == dir + "/" + file
  {
    ArtifactRefs.PlainFileIsAccepted(file, isAlpha);
    ArtifactRefs.NestedRefIsAccepted(dir, file, isAlpha);
    ArtifactRefs.ResolvedRefReadsBack(root, dir + "/" + file, isAlpha);
    assert ArtifactRefs.Resolve(root, dir + "/" + file) == ArtifactRefs.Resolve(root, dir) + [file];
  }

  lemma PolicyIsTold(r: PolicyRecord, root: Path, c: SuiteConfig, s: Supply, w: World, isAlpha: char -> bool, i: nat)
    requires ValidConfig(c) && FreshIds(s) && HonestWorld(c, w, isAlpha) && ValidDeclaration(PlanAll(c, s), isAlpha)
    requires i < |c.policies| && EvalRun.NoneRaised(PlanOf(c, s, i), w.execute(c.policies[i].name))
    requires ArtifactRefs.Below(RunOf(root, c, s, w, i).outDir, root) && r == RecordOfPolicy(root, c.policies[i], RunOf(root, c, s, w, i), r.layerCounts)
    requires LayerCounts.Tabulates(r.layerCounts, multiset(LayerCounts.AllLabels(RunOf(root, c, s, w, i).attempts)))
    ensures PolicyTold(r, root, c, s, w, i)
  {
    PolicyIsCompleted(root, c, s, w, isAlpha, i);
    ArtifactRefs.ResolvedRefReadsBack(root, PolicyRef(c.policies[i].name), isAlpha);
    FileIsNamed(root, PolicyRef(c.policies[i].name), "manifest.json", isAlpha);
    EvalAnswers.CountsAreTold(r.layerCounts, RunOf(root, c, s, w, i).attempts);
  }

  lemma ReplayIsTold(root: Path, c: SuiteConfig, w: World, normal: ReplayVerdict.Normaliser, isAlpha: char -> bool, j: nat)
    requires forall i :: 0 <= i < |c.policies| ==> ArtifactRefs.Accepted(PolicyRef(c.policies[i].name), isAlpha)
    requires var replays := AllReplays(root, c.policies, VerdictsOf(w.replayId, w.source, normal));
      j < |replays| && ArtifactRefs.Below(replays[j].dir, root)
    ensures ReplayTold(RecordOfReplay(root, AllReplays(root, c.policies, VerdictsOf(w.replayId, w.source, normal))[j]), c, w, normal)
  {
    var replay := VerdictsOf(w.replayId, w.source, normal);
    var i := EveryReplay(root, c.policies, replay, j);
    var r, p := AllReplays(root, c.policies, replay)[j], c.policies[i];
    ReplayRefIsAccepted(p.name, r.replayIndex, isAlpha);
    var ref := ReplayRef(p.name, r.replayIndex);
    ArtifactRefs.ResolvedRefReadsBack(root, ref, isAlpha);
    FileIsNamed(root, ref, "manifest.json", isAlpha);
    FileIsNamed(root, ref, "replay_result.json", isAlpha);
    assert ReplayOfPolicy(RecordOfReplay(root, r), p, w, normal);
  }

  lemma SuiteIsTold(m: SuiteManifest, root: Path, c: SuiteConfig, s: Supply, w: World, normal: ReplayVerdict.Normaliser, isAlpha: char -> bool, runs: seq<PolicyRun>)
    requires RanThrough(root, c, s, w, isAlpha, runs)
    requires AllUnder(root, runs, AllReplays(root, c.policies, VerdictsOf(w.replayId, w.source, normal)))
    requires BuiltFrom(m, root, c, runs, AllReplays(root, c.policies, VerdictsOf(w.replayId, w.source, normal)))
    ensures SuiteTold(m, root, c, s, w, normal)
  {
    forall i | 0 <= i < |c.policies|
      ensures PolicyTold(m.policyRuns[i], root, c, s, w, i) && ArtifactRefs.Accepted(PolicyRef(c.policies[i].name), isAlpha)
    {
      PolicyIsCompleted(root, c, s, w, isAlpha, i);
      PolicyIsTold(m.policyRuns[i], root, c, s, w, isAlpha, i);
    }
    forall j | 0 <= j < |m.replayRuns| ensures ReplayTold(m.replayRuns[j], c, w, normal) {
      ReplayIsTold(root, c, w, normal, isAlpha, j);
    }
  }

  /**
   run_eval_config_all_policies in an output directory of its own: None when the declaration is refused, when a
   directory is to be prepared where something was written before, or when an attempt raises.
   */
  method RunSuite(root: Path, c: SuiteConfig, s: Supply, w: World, normal: ReplayVerdict.Normaliser, isAlpha: char -> bool)
    returns (m: Option<SuiteManifest>)
    requires ValidConfig(c) && FreshIds(s) && HonestWorld(c, w, isAlpha)
    ensures m.Some? <==>
      && AllPolicyNamesFit(c.policies) && AllTaskIdsFit(c.tasks) && NoNamesOverlap(c)
      && DirectoriesClear(root, c, s, w.traces)
      && NothingRaised(c, s, w, |c.policies|)
    ensures m.Some? ==> ValidSuite(m.value, isAlpha) && SuiteTold(m.value, root, c, s, w, normal)
  {
    var declaration := BuildDeclaration(c, s);
    PlannedSuiteIsValidIff(c, s, isAlpha);
    if !ValidDeclaration(declaration, isAlpha) {
      return None;
    }
    NamesThatFitAreInPlace(root, c, s);
    SuiteStepsRunIff(root, c, s, w.traces);
    m := RunDeclared(root, c, s, w, normal, isAlpha);
  }

  /** The suite once its declaration stands. */
  method RunDeclared(root: Path, c: SuiteConfig, s: Supply, w: World, normal: ReplayVerdict.Normaliser, isAlpha: char -> bool)
    returns (m: Option<SuiteManifest>)
    requires ValidConfig(c) && FreshIds(s) && HonestWorld(c, w, isAlpha) && ValidDeclaration(PlanAll(c, s), isAlpha)
    ensures m.Some? <==>
      NothingRaised(c, s, w, |c.policies|) && ArtifactTree.Runs(ArtifactTree.FreshTree(root), SuiteSteps(root, c, s, w.traces)).Some?
    ensures m.Some? ==> ValidSuite(m.value, isAlpha) && SuiteTold(m.value, root, c, s, w, normal)
  {
    var disk := OpenSuite(root);
    SuiteStepsAre(root, c, s, w.traces, VerdictsOf(w.replayId, w.source, normal));
    var executed := RunPolicies(disk, root, c, s, w);
    if executed.None? {
      return None;
    }
    var runs := executed.value;
    var replays := ReplayConfiguredRuns(disk, root, c, runs, w.replayId, w.source, normal, w.traces.replays);
    if replays.None? {
      return None;
    }
    SuiteIsUnder(root, c, s, w, normal, isAlpha, runs);
    var manifest := BuildSuiteManifest(root, c, runs, replays.value);
    SuiteManifestIsValid(manifest, root, c, s, w, normal, isAlpha, runs);
    SuiteIsCompleted(root, c, s, w, normal, isAlpha, runs);
    SuiteIsTold(manifest, root, c, s, w, normal, isAlpha, runs);
    m := Some(manifest);
  }

  /** Every policy ran through, under a declaration that was accepted. */
  ghost predicate RanThrough(root: Path, c: SuiteConfig, s: Supply, w: World, isAlpha: char -> bool, runs: seq<PolicyRun>) {
    && ValidConfig(c) && FreshIds(s) && HonestWorld(c, w, isAlpha) && ValidDeclaration(PlanAll(c, s), isAlpha)
    && NothingRaised(c, s, w, |c.policies|)
    && |runs| == |c.policies| && forall i :: 0 <= i < |c.policies| ==> runs[i] == RunOf(root, c, s, w, i)
  }

  lemma SuiteIsUnder(root: Path, c: SuiteConfig, s: Supply, w: World, normal: ReplayVerdict.Normaliser, isAlpha: char -> bool, runs: seq<PolicyRun>)
    requires RanThrough(root, c, s, w, isAlpha, runs)
    ensures AllUnder(root, runs, AllReplays(root, c.policies, VerdictsOf(w.replayId, w.source, normal)))
  {
    SuiteIsCompleted(root, c, s, w, normal, isAlpha, runs);
    EverythingIsUnder(root, c, runs, Works(c, s, w), VerdictsOf(w.replayId, w.source, normal), isAlpha);
  }

  lemma SuiteManifestIsValid(m: SuiteManifest, root: Path, c: SuiteConfig, s: Supply, w: World, normal: ReplayVerdict.Normaliser, isAlpha: char -> bool,
                             runs: seq<PolicyRun>)
    requires RanThrough(root, c, s, w, isAlpha, runs)
    requires AllUnder(root, runs, AllReplays(root, c.policies, VerdictsOf(w.replayId, w.source, normal)))
    requires BuiltFrom(m, root, c, runs, AllReplays(root, c.policies, VerdictsOf(w.replayId, w.source, normal)))
    ensures ValidSuite(m, isAlpha)
  {
    SuiteIsCompleted(root, c, s, w, normal, isAlpha, runs);
    BuiltSuiteIsValid(m, root, c, runs, Works(c, s, w), VerdictsOf(w.replayId, w.source, normal), isAlpha);
  }

  lemma PolicyIsCompleted(root: Path, c: SuiteConfig, s: Supply, w: World, isAlpha: char -> bool, i: nat)
    requires ValidConfig(c) && FreshIds(s) && HonestWorld(c, w, isAlpha) && ValidDeclaration(PlanAll(c, s), isAlpha)
    requires i < |c.policies| && EvalRun.NoneRaised(PlanOf(c, s, i), w.execute(c.policies[i].name))
    ensures CompletedPolicy(root, c, c.policies[i], RunOf(root, c, s, w, i), WorkOf(c, s, w, i), isAlpha)
    ensures |RunOf(root, c, s, w, i).attempts| == |c.tasks| * c.policies[i].attempts
  {
    var planned := PlanAll(c, s)[i];
    assert ValidPlannedRun(planned, isAlpha);
    PlanIsCovered(c, s, i);
    CoveringPlanListsProduct(planned.plannedAttempts, c.tasks, c.policies[i].attempts);
    forall k | 0 <= k < |planned.plannedAttempts| ensures ArtifactRefs.Accepted(planned.plannedAttempts[k].artifactDir, isAlpha) {
      assert ValidPlannedAttempt(planned.plannedAttempts[k], isAlpha);
    }
  }

  /** What the steps before left is what the manifest's validator expects of a completed suite. */
  lemma SuiteIsCompleted(root: Path, c: SuiteConfig, s: Supply, w: World, normal: ReplayVerdict.Normaliser, isAlpha: char -> bool, runs: seq<PolicyRun>)
    requires RanThrough(root, c, s, w, isAlpha, runs)
    ensures CompletedSuite(root, c, runs, Works(c, s, w), VerdictsOf(w.replayId, w.source, normal), isAlpha)
    ensures forall i :: 0 <= i < |runs| ==> |runs[i].attempts| == |c.tasks| * c.policies[i].attempts
  {
    forall i | 0 <= i < |runs|
      ensures CompletedPolicy(root, c, c.policies[i], runs[i], Works(c, s, w)[i], isAlpha)
      ensures |runs[i].attempts| == |c.tasks| * c.policies[i].attempts
    {
      PolicyIsCompleted(root, c, s, w, isAlpha, i);
    }
    forall i, j | 0 <= i < j < |runs| ensures runs[i].evalRunId != runs[j].evalRunId {
      assert PlanAll(c, s)[i].evalRunId != PlanAll(c, s)[j].evalRunId;
    }
    ReplaysAreSound(c, w, normal, isAlpha, runs);
  }

  lemma ReplaysAreSound(c: SuiteConfig, w: World, normal: ReplayVerdict.Normaliser, isAlpha: char -> bool, runs: seq<PolicyRun>)
    requires HonestWorld(c, w, isAlpha) && |runs| == |c.policies|
    requires forall i :: 0 <= i < |runs| ==> |runs[i].attempts| == |c.tasks| * c.policies[i].attempts
    ensures SoundReplays(c, runs, VerdictsOf(w.replayId, w.source, normal))
  {
    var replay := VerdictsOf(w.replayId, w.source, normal);
    forall i, k: nat | 0 <= i < |runs| && k < c.policies[i].repeats
      ensures FaithfulVerdict(replay(c.policies[i].name, k), |runs[i].attempts|)
    {
      var source := w.source(c.policies[i].name, k);
      assert SourceOfRun(source, |runs[i].attempts|, isAlpha);
      ReplayIsFaithful(w.replayId(c.policies[i].name, k), source, normal, isAlpha);
    }
  }
}
