/**
 The suite: every configured policy executed once, some of them replayed, and one manifest over all of it.  The
 manifest counts the same things several times over; its validator accepts every manifest a completed suite builds.
 */
module EvalSuite {
  import opened Wrappers
  import opened EvalRecords
  import opened EvalPlan
  import opened EvalRun
  import opened EvalManifests
  import LayerCounts
  import ArtifactRefs
  import Decimal
  import ReplayVerdict
  import ArtifactTree

  type Path = seq<string>

  datatype PolicyConfig = PolicyConfig(name: string, kind: PolicyType, attempts: nat, repeats: nat)

  /** Policies are a dictionary, in file order; tasks are unique and there is at least one of each. */
  datatype SuiteConfig = SuiteConfig(tasks: seq<string>, policies: seq<PolicyConfig>)

  function PolicyNames(policies: seq<PolicyConfig>): seq<string> {
    seq(|policies|, i requires 0 <= i < |policies| => policies[i].name)
  }

  predicate ValidConfig(c: SuiteConfig) {
    && Unique(c.tasks) && |c.tasks| > 0
    && Unique(PolicyNames(c.policies)) && |c.policies| > 0
    && forall i :: 0 <= i < |c.policies| ==> c.policies[i].attempts > 0
  }

  datatype PolicyRun = PolicyRun(policy: string, evalRunId: string, outDir: Path, attempts: seq<AttemptRecord>)

  datatype MatrixReplay = MatrixReplay(policy: string, replayIndex: nat, dir: Path, run: ReplayVerdict.ReplayRun)

  // ---------------------------------------------------------------- manifest records

  datatype PolicyRecord = PolicyRecord(
    policy: string, kind: PolicyType, attemptsPerTask: nat, repeats: nat, evalRunId: string,
    artifactDir: string, manifest: string, attemptCount: nat, layerCounts: LayerCounts.Counts)

  datatype ReplayRecord = ReplayRecord(
    policy: string, replayIndex: nat, replayRunId: string, status: ReplayVerdict.Status,
    artifactDir: string, manifest: string, replayResult: string,
    attemptCount: nat, matchedAttempts: nat, mismatchedAttempts: int, errorCount: nat)

  datatype SuiteManifest = SuiteManifest(
    tasks: seq<string>, selectedTasks: seq<string>, taskCount: nat, policyCount: nat, attemptCount: nat,
    layerCounts: LayerCounts.Counts, hasReplaysRef: bool, policyRuns: seq<PolicyRecord>,
    replayRunCount: nat, replayPolicyCount: nat, replaySummary: string, replayRuns: seq<ReplayRecord>)

  // ---------------------------------------------------------------- validators

  predicate ValidPolicyRecord(r: PolicyRecord, isAlpha: char -> bool) {
    && ArtifactRefs.Accepted(r.artifactDir, isAlpha) && ArtifactRefs.Accepted(r.manifest, isAlpha)
    && ArtifactRefs.UnderDir(r.artifactDir, r.manifest)
  }

  predicate ValidReplayRecord(r: ReplayRecord, isAlpha: char -> bool) {
    && ArtifactRefs.Accepted(r.artifactDir, isAlpha) && ArtifactRefs.Accepted(r.manifest, isAlpha)
    && ArtifactRefs.Accepted(r.replayResult, isAlpha)
    && ArtifactRefs.UnderDir(r.artifactDir, r.manifest) && ArtifactRefs.UnderDir(r.artifactDir, r.replayResult)
    && r.mismatchedAttempts >= 0 && r.matchedAttempts + r.mismatchedAttempts == r.attemptCount
    && ReplayVerdict.StatusFitsCounts(r.status, r.attemptCount, r.mismatchedAttempts, r.errorCount)
  }

  predicate ValidPolicyRecords(rs: seq<PolicyRecord>, isAlpha: char -> bool) {
    forall i :: 0 <= i < |rs| ==> ValidPolicyRecord(rs[i], isAlpha)
  }

  predicate ValidReplayRecords(rs: seq<ReplayRecord>, isAlpha: char -> bool) {
    forall j :: 0 <= j < |rs| ==> ValidReplayRecord(rs[j], isAlpha)
  }

  function PrimaryLayer(kind: PolicyType): LayerCounts.Layer {
    if kind.ScorerControlPatch? then LayerCounts.ScorerStatus else LayerCounts.AgentStatus
  }

  ghost predicate PrimaryTotalFits(r: PolicyRecord) {
    var layer := PrimaryLayer(r.kind);
    layer in r.layerCounts && LayerCounts.Total(r.layerCounts[layer]) == r.attemptCount
  }

  predicate DistinctPolicyRefs(rs: seq<PolicyRecord>) {
    forall i, j :: 0 <= i < j < |rs| ==>
      rs[i].policy != rs[j].policy && rs[i].evalRunId != rs[j].evalRunId && rs[i].artifactDir != rs[j].artifactDir
  }

  predicate DistinctReplayRefs(rs: seq<ReplayRecord>) {
    forall i, j :: 0 <= i < j < |rs| ==> rs[i].replayRunId != rs[j].replayRunId && rs[i].artifactDir != rs[j].artifactDir
  }

  function ReplayPairs(rs: seq<ReplayRecord>): seq<Pair> {
    seq(|rs|, i requires 0 <= i < |rs| => (rs[i].policy, rs[i].replayIndex))
  }

  /** Every replay belongs to a policy; each policy has exactly the indexes 0..repeats-1; none is partial. */
  predicate ReplayCoverage(policies: seq<PolicyRecord>, replays: seq<ReplayRecord>) {
    && (forall j :: 0 <= j < |replays| ==> exists i :: 0 <= i < |policies| && policies[i].policy == replays[j].policy)
    && (forall i :: 0 <= i < |policies| ==>
          var indexes := IndexesOf(ReplayPairs(replays), policies[i].policy);
          |indexes| == policies[i].repeats && Elements(indexes) == Range(policies[i].repeats))
    && (forall i, j :: 0 <= i < |policies| && 0 <= j < |replays| ==> NotPartial(policies[i], replays[j]))
  }

  predicate NotPartial(p: PolicyRecord, r: ReplayRecord) {
    p.policy == r.policy && !r.status.ReplayError? ==> r.attemptCount == p.attemptCount
  }

  function ReplayedPolicies(rs: seq<ReplayRecord>): set<string> {
    set j | 0 <= j < |rs| :: rs[j].policy
  }

  function PassedCount(rs: seq<ReplayRecord>): nat {
    if |rs| == 0 then 0 else PassedCount(rs[..|rs| - 1]) + (if rs[|rs| - 1].status.ReplayPass? then 1 else 0)
  }

  function Summary(passed: nat, total: nat): string {
    Decimal.Render(passed) + "/" + Decimal.Render(total)
  }

  function SumOfAttempts(rs: seq<PolicyRecord>): nat {
    if |rs| == 0 then 0 else SumOfAttempts(rs[..|rs| - 1]) + rs[|rs| - 1].attemptCount
  }

  function PolicyTables(rs: seq<PolicyRecord>): seq<LayerCounts.Counts> {
    seq(|rs|, i requires 0 <= i < |rs| => rs[i].layerCounts)
  }

  ghost predicate IsMergedTable(c: LayerCounts.Counts, tables: seq<LayerCounts.Counts>) {
    LayerCounts.Compact(c) && forall l :: LayerCounts.Count(c, l) == LayerCounts.SumOfCounts(tables, l)
  }

  ghost predicate PolicyCountsFit(m: SuiteManifest) {
    && (forall i :: 0 <= i < |m.policyRuns| ==> m.policyRuns[i].attemptCount == m.taskCount * m.policyRuns[i].attemptsPerTask)
    && (forall i :: 0 <= i < |m.policyRuns| ==> PrimaryTotalFits(m.policyRuns[i]))
    && m.attemptCount == SumOfAttempts(m.policyRuns)
    && IsMergedTable(m.layerCounts, PolicyTables(m.policyRuns))
  }

  predicate ReplayCountsFit(m: SuiteManifest) {
    && m.replayRunCount == |m.replayRuns| && (m.replayRunCount > 0 <==> m.hasReplaysRef)
    && ReplayCoverage(m.policyRuns, m.replayRuns)
    && m.replayPolicyCount == |ReplayedPolicies(m.replayRuns)|
    && m.replaySummary == Summary(PassedCount(m.replayRuns), |m.replayRuns|)
  }

  /** EvalSuiteManifest.validate_suite_counts, with the record validators it rests on. */
  ghost predicate ValidSuite(m: SuiteManifest, isAlpha: char -> bool) {
    && m.taskCount == |m.tasks| && m.tasks == m.selectedTasks && m.tasks != []
    && m.policyCount == |m.policyRuns| && m.policyCount > 0
    && ValidPolicyRecords(m.policyRuns, isAlpha) && ValidReplayRecords(m.replayRuns, isAlpha)
    && DistinctPolicyRefs(m.policyRuns) && DistinctReplayRefs(m.replayRuns)
    && PolicyCountsFit(m) && ReplayCountsFit(m)
  }

  // ---------------------------------------------------------------- what a completed suite is

  const POLICIES := "policies"
  const REPLAYS := "replays"

  function PolicyRef(name: string): string {
    POLICIES + "/" + name
  }

  function ReplaySuffix(index: nat): (suffix: string)
    ensures ArtifactRefs.Ordinary(suffix) && |suffix| >= 3
  {
    var numeral := Decimal.Padded(index + 1, 3);
    assert forall i :: 0 <= i < |numeral| ==> Decimal.IsDigit(numeral[i]);
    var suffix := "__replay_" + numeral;
    assert suffix[0] == '_';
    suffix
  }

  function ReplayRef(policy: string, index: nat): string {
    REPLAYS + "/" + policy + ReplaySuffix(index)
  }

  /** How one policy was executed. */
  datatype Work = Work(plan: seq<PlannedAttempt>, execute: Executor)

  function RunConfig(c: SuiteConfig, p: PolicyConfig): Config {
    Config(c.tasks, p.attempts, p.kind)
  }

  ghost predicate CompletedPolicy(root: Path, c: SuiteConfig, p: PolicyConfig, run: PolicyRun, w: Work, isAlpha: char -> bool) {
    && ArtifactRefs.Accepted(PolicyRef(p.name), isAlpha)
    && run.policy == p.name && run.outDir == ArtifactRefs.Resolve(root, PolicyRef(p.name))
    && Completed(run.outDir, RunConfig(c, p), w.plan, w.execute, isAlpha)
    && run.attempts == RecordsFor(run.outDir, w.plan, w.execute)
  }

  ghost predicate CompletedPolicies(root: Path, c: SuiteConfig, runs: seq<PolicyRun>, works: seq<Work>, isAlpha: char -> bool) {
    && |runs| == |works| == |c.policies|
    && (forall i :: 0 <= i < |runs| ==> CompletedPolicy(root, c, c.policies[i], runs[i], works[i], isAlpha))
    && (forall i, j :: 0 <= i < j < |runs| ==> runs[i].evalRunId != runs[j].evalRunId)
  }

  /** The replays of one policy run, in index order. */
  function ReplaysOf(root: Path, p: PolicyConfig, n: nat, replay: (string, nat) -> ReplayVerdict.ReplayRun): seq<MatrixReplay> {
    seq(n, i requires 0 <= i < n => MatrixReplay(p.name, i, ArtifactRefs.Resolve(root, ReplayRef(p.name, i)), replay(p.name, i)))
  }

  function AllReplays(root: Path, policies: seq<PolicyConfig>, replay: (string, nat) -> ReplayVerdict.ReplayRun): seq<MatrixReplay> {
    if |policies| == 0 then []
    else
      var last := policies[|policies| - 1];
      AllReplays(root, policies[..|policies| - 1], replay) + ReplaysOf(root, last, last.repeats, replay)
  }

  /** What replaying policy p for the i-th time comes to. */
  function VerdictsOf(id: (string, nat) -> string, source: (string, nat) -> ReplayVerdict.Source, normal: ReplayVerdict.Normaliser)
    : (string, nat) -> ReplayVerdict.ReplayRun
  {
    (policy: string, i: nat) => ReplayVerdict.Verdict(id(policy, i), source(policy, i), normal)
  }

  /** What replay i of a policy leaves in its attempts folder. */
  type ReplayLeaves = (string, nat) -> set<Path>

  const REPLAY_FILES: set<Path> := {["manifest.json"], ["replay_result.json"], ["replay_results.jsonl"], ["trace.jsonl"]}

  /** Every replay writes its four files, whatever its verdict. */
  function ReplayFiles(attempts: set<Path>): set<Path> {
    REPLAY_FILES + ArtifactTree.Below(["attempts"], attempts)
  }

  function ReplayStep(r: MatrixReplay, leaves: ReplayLeaves): ArtifactTree.Step {
    ArtifactTree.Step(ArtifactTree.Prepare, r.dir, ReplayFiles(leaves(r.policy, r.replayIndex)))
  }

  function ReplaySteps(rs: seq<MatrixReplay>, leaves: ReplayLeaves): seq<ArtifactTree.Step> {
    seq(|rs|, j requires 0 <= j < |rs| => ReplayStep(rs[j], leaves))
  }

  ghost predicate RealReplayLeaves(leaves: ReplayLeaves) {
    forall policy, i: nat :: ArtifactTree.RealFiles(leaves(policy, i))
  }

  lemma ReplayFilesAreReal(attempts: set<Path>)
    requires ArtifactTree.RealFiles(attempts)
    ensures ArtifactTree.RealFiles(ReplayFiles(attempts))
  {
    var files, below := ReplayFiles(attempts), ArtifactTree.Below(["attempts"], attempts);
    forall r | r in below ensures |r| > 1 && r[0] == "attempts" {
    }
    forall r, q | r in files && q in files ensures !(r < q) {
      if r in below && q in below {
        var a :| a in attempts && r == ["attempts"] + a;
        var b :| b in attempts && q == ["attempts"] + b;
        ArtifactTree.SameBase(["attempts"], a, b);
      } else {
        assert |r| > 0 && |q| > 0;
        assert r <= q ==> q[0] == r[0];
      }
    }
  }

  lemma ReplayStepsSnoc(rs: seq<MatrixReplay>, r: MatrixReplay, leaves: ReplayLeaves)
    ensures ReplaySteps(rs + [r], leaves) == ReplaySteps(rs, leaves) + [ReplayStep(r, leaves)]
  {
  }

  lemma ReplaysContinue(t: ArtifactTree.Tree, some: seq<MatrixReplay>, more: seq<MatrixReplay>, leaves: ReplayLeaves)
    requires ArtifactTree.Runs(t, ReplaySteps(some, leaves)).None?
    ensures ArtifactTree.Runs(t, ReplaySteps(some + more, leaves)).None?
  {
    assert ReplaySteps(some + more, leaves) == ReplaySteps(some, leaves) + ReplaySteps(more, leaves);
    ArtifactTree.RunsConcat(t, ReplaySteps(some, leaves), ReplaySteps(more, leaves));
  }

  lemma {:induction false} ReplaysBegin(root: Path, policies: seq<PolicyConfig>, replay: Replayer, i: nat)
    requires i <= |policies|
    ensures AllReplays(root, policies[..i], replay) <= AllReplays(root, policies, replay)
  {
    if i == |policies| {
      assert policies[..i] == policies;
    } else {
      var n := |policies| - 1;
      ReplaysBegin(root, policies[..n], replay, i);
      assert policies[..n][..i] == policies[..i];
    }
  }

  /** _replay_configured_policy_runs: run_replay once per policy and index; None when a replay's directory is not free. */
  method ReplayConfiguredRuns(disk: ArtifactTree.ArtifactDisk, root: Path, c: SuiteConfig, runs: seq<PolicyRun>, id: (string, nat) -> string,
                              source: (string, nat) -> ReplayVerdict.Source, normal: ReplayVerdict.Normaliser, leaves: ReplayLeaves)
    returns (r: Option<seq<MatrixReplay>>)
    requires |runs| == |c.policies| && forall i :: 0 <= i < |runs| ==> runs[i].policy == c.policies[i].name
    requires disk.Valid() && RealReplayLeaves(leaves)
    modifies disk
    ensures disk.Valid()
    ensures r.Some? <==> ArtifactTree.Runs(old(disk.tree), ReplaySteps(AllReplays(root, c.policies, VerdictsOf(id, source, normal)), leaves)).Some?
    ensures r.Some? ==> r.value == AllReplays(root, c.policies, VerdictsOf(id, source, normal))
  {
    var records: seq<MatrixReplay> := [];
    ghost var replay := VerdictsOf(id, source, normal);
    ghost var base := disk.tree;
    for i := 0 to |runs|
      invariant records == AllReplays(root, c.policies[..i], replay) && disk.Valid()
      invariant ArtifactTree.Runs(base, ReplaySteps(records, leaves)) == Some(disk.tree)
    {
      AllReplaysSnoc(root, c.policies, replay, i);
      var ok, more := ReplayPolicy(disk, root, c.policies[i], id, source, normal, leaves, records, base);
      if !ok {
        ReplaysStop(base, root, c.policies, replay, i + 1, leaves);
        return None;
      }
      records := more;
    }
    assert c.policies[..|runs|] == c.policies;
    r := Some(records);
  }

  lemma AllReplaysSnoc(root: Path, policies: seq<PolicyConfig>, replay: Replayer, i: nat)
    requires i < |policies|
    ensures AllReplays(root, policies[..i + 1], replay) == AllReplays(root, policies[..i], replay) + ReplaysOf(root, policies[i], policies[i].repeats, replay)
  {
    assert policies[..i + 1][..i] == policies[..i];
  }

  lemma ReplaysStop(base: ArtifactTree.Tree, root: Path, policies: seq<PolicyConfig>, replay: Replayer, i: nat, leaves: ReplayLeaves)
    requires i <= |policies| && ArtifactTree.Runs(base, ReplaySteps(AllReplays(root, policies[..i], replay), leaves)).None?
    ensures ArtifactTree.Runs(base, ReplaySteps(AllReplays(root, policies, replay), leaves)).None?
  {
    ReplaysBegin(root, policies, replay, i);
    var some, all := AllReplays(root, policies[..i], replay), AllReplays(root, policies, replay);
    assert all == some + all[|some|..];
    ReplaysContinue(base, some, all[|some|..], leaves);
  }

  /** The replays of one policy, after those already recorded. */
  method ReplayPolicy(disk: ArtifactTree.ArtifactDisk, root: Path, p: PolicyConfig, id: (string, nat) -> string,
                      source: (string, nat) -> ReplayVerdict.Source, normal: ReplayVerdict.Normaliser, leaves: ReplayLeaves,
                      before: seq<MatrixReplay>, ghost base: ArtifactTree.Tree)
    returns (ok: bool, records: seq<MatrixReplay>)
    requires disk.Valid() && RealReplayLeaves(leaves) && ArtifactTree.Runs(base, ReplaySteps(before, leaves)) == Some(disk.tree)
    modifies disk
    ensures disk.Valid()
    ensures ok ==> records == before + ReplaysOf(root, p, p.repeats, VerdictsOf(id, source, normal))
    ensures var all := before + ReplaysOf(root, p, p.repeats, VerdictsOf(id, source, normal));
      ArtifactTree.Runs(base, ReplaySteps(all, leaves)) == if ok then Some(disk.tree) else None
  {
    records := before;
    ghost var row := ReplaysOf(root, p, p.repeats, VerdictsOf(id, source, normal));
    for k := 0 to p.repeats
      invariant records == before + row[..k] && disk.Valid()
      invariant ArtifactTree.Runs(base, ReplaySteps(before + row[..k], leaves)) == Some(disk.tree)
    {
      RowSnoc(base, disk.tree, before, row, k, leaves);
      var record := ReplayOnce(disk, root, p, k, id, source, normal, leaves);
      if record.None? {
        RowContinues(base, before, row, k + 1, leaves);
        return false, records;
      }
      records := records + [record.value];
    }
    assert row[..p.repeats] == row;
    ok := true;
  }

  lemma RowSnoc(base: ArtifactTree.Tree, tree: ArtifactTree.Tree, before: seq<MatrixReplay>, row: seq<MatrixReplay>, k: nat, leaves: ReplayLeaves)
    requires k < |row| && ArtifactTree.Runs(base, ReplaySteps(before + row[..k], leaves)) == Some(tree)
    ensures ArtifactTree.Runs(base, ReplaySteps(before + row[..k + 1], leaves)) ==
      if ArtifactTree.Fits(tree, ReplayStep(row[k], leaves)) then Some(ArtifactTree.After(tree, ReplayStep(row[k], leaves))) else None
    ensures before + row[..k + 1] == before + row[..k] + [row[k]]
  {
    assert before + row[..k + 1] == (before + row[..k]) + [row[k]];
    ReplayStepsSnoc(before + row[..k], row[k], leaves);
    ArtifactTree.RunsSnoc(base, ReplaySteps(before + row[..k], leaves), ReplayStep(row[k], leaves));
  }

  lemma RowContinues(base: ArtifactTree.Tree, before: seq<MatrixReplay>, row: seq<MatrixReplay>, k: nat, leaves: ReplayLeaves)
    requires k <= |row| && ArtifactTree.Runs(base, ReplaySteps(before + row[..k], leaves)).None?
    ensures ArtifactTree.Runs(base, ReplaySteps(before + row, leaves)).None?
  {
    assert before + row == (before + row[..k]) + row[k..];
    ReplaysContinue(base, before + row[..k], row[k..], leaves);
  }

  /** run_replay: the directory is prepared before anything can be turned into a verdict. */
  method ReplayOnce(disk: ArtifactTree.ArtifactDisk, root: Path, p: PolicyConfig, k: nat, id: (string, nat) -> string,
                    source: (string, nat) -> ReplayVerdict.Source, normal: ReplayVerdict.Normaliser, leaves: ReplayLeaves)
    returns (record: Option<MatrixReplay>)
    requires k < p.repeats && disk.Valid() && RealReplayLeaves(leaves)
    modifies disk
    ensures disk.Valid()
    ensures var expected := ReplaysOf(root, p, p.repeats, VerdictsOf(id, source, normal))[k];
      && record == (if ArtifactTree.Fits(old(disk.tree), ReplayStep(expected, leaves)) then Some(expected) else None)
      && (record.Some? ==> disk.tree == ArtifactTree.After(old(disk.tree), ReplayStep(expected, leaves)))
  {
    var dir := ArtifactRefs.Resolve(root, ReplayRef(p.name, k));
    ReplayFilesAreReal(leaves(p.name, k));
    var free := disk.Leave(ArtifactTree.Prepare, dir, ReplayFiles(leaves(p.name, k)));
    if !free {
      return None;
    }
    var session := new ReplayVerdict.Session();
    var run := session.Run(id(p.name, k), source(p.name, k), normal);
    record := Some(MatrixReplay(p.name, k, dir, run));
  }

  /** A verdict on a source with this many attempts. */
  predicate FaithfulVerdict(run: ReplayVerdict.ReplayRun, attempts: nat) {
    && ReplayVerdict.ValidResult(ReplayVerdict.ResultOf(run))
    && (!run.status.ReplayError? ==> |run.comparisons| == attempts)
  }

  /** run_replay on an eval run satisfies it, whatever happens during the replay. */
  lemma ReplayIsFaithful(id: string, source: ReplayVerdict.Source, normal: ReplayVerdict.Normaliser, isAlpha: char -> bool)
    requires ReplayVerdict.LoadedAll(source, isAlpha)
    ensures FaithfulVerdict(ReplayVerdict.Verdict(id, source, normal), |ReplayVerdict.SourceAttempts(source)|)
  {
    ReplayVerdict.VerdictIsValid(id, source, normal, isAlpha);
    ReplayVerdict.OneComparisonPerAttempt(id, source, normal);
  }

  /** Fresh ids, faithful verdicts. */
  ghost predicate SoundReplays(c: SuiteConfig, runs: seq<PolicyRun>, replay: (string, nat) -> ReplayVerdict.ReplayRun)
    requires |runs| == |c.policies|
  {
    && (forall i, k: nat :: 0 <= i < |runs| && k < c.policies[i].repeats ==> FaithfulVerdict(replay(c.policies[i].name, k), |runs[i].attempts|))
    && (forall a, i: nat, b, j: nat :: replay(a, i).replayRunId == replay(b, j).replayRunId ==> a == b && i == j)
  }

  // ---------------------------------------------------------------- building the manifest

  const MANIFEST := ["manifest.json"]
  const REPLAY_RESULT := ["replay_result.json"]

  /** Everything a policy run and its replays are written to lies below the suite. */
  predicate AllUnder(root: Path, runs: seq<PolicyRun>, replays: seq<MatrixReplay>) {
    && (forall i :: 0 <= i < |runs| ==> ArtifactRefs.Below(runs[i].outDir, root))
    && (forall j :: 0 <= j < |replays| ==> ArtifactRefs.Below(replays[j].dir, root))
  }

  function RecordOfPolicy(root: Path, p: PolicyConfig, run: PolicyRun, counts: LayerCounts.Counts): PolicyRecord
    requires ArtifactRefs.Below(run.outDir, root)
  {
    PolicyRecord(run.policy, p.kind, p.attempts, p.repeats, run.evalRunId,
                 ArtifactRefs.RelativeTo(run.outDir, root), ArtifactRefs.RelativeTo(run.outDir + MANIFEST, root),
                 |run.attempts|, counts)
  }

  function RecordOfReplay(root: Path, r: MatrixReplay): ReplayRecord
    requires ArtifactRefs.Below(r.dir, root)
  {
    var result := ReplayVerdict.ResultOf(r.run);
    ReplayRecord(r.policy, r.replayIndex, r.run.replayRunId, r.run.status,
                 ArtifactRefs.RelativeTo(r.dir, root), ArtifactRefs.RelativeTo(r.dir + MANIFEST, root),
                 ArtifactRefs.RelativeTo(r.dir + REPLAY_RESULT, root),
                 result.attemptCount, result.matchedAttempts, result.mismatchedAttempts, result.errorCount)
  }

  function ReplayRecords(root: Path, replays: seq<MatrixReplay>): seq<ReplayRecord>
    requires forall j :: 0 <= j < |replays| ==> ArtifactRefs.Below(replays[j].dir, root)
  {
    seq(|replays|, j requires 0 <= j < |replays| => RecordOfReplay(root, replays[j]))
  }

  /** sum(1 for policy in policies if policy.replay.repeats > 0). */
  function ReplayedPolicyCount(policies: seq<PolicyConfig>): nat {
    if |policies| == 0 then 0
    else ReplayedPolicyCount(policies[..|policies| - 1]) + (if policies[|policies| - 1].repeats > 0 then 1 else 0)
  }

  /** len(attempts) per policy, keyed by policy. */
  function AttemptCounts(runs: seq<PolicyRun>): map<string, nat> {
    if |runs| == 0 then map[]
    else AttemptCounts(runs[..|runs| - 1])[runs[|runs| - 1].policy := |runs[|runs| - 1].attempts|]
  }

  method SumValues(counts: map<string, nat>) returns (total: nat)
    ensures total == LayerCounts.Total(counts)
  {
    total := 0;
    var left := counts;
    while left != map[]
      invariant total + LayerCounts.Total(left) == LayerCounts.Total(counts)
      decreases |left|
    {
      var k :| k in left;
      LayerCounts.TotalPick(left, k);
      total := total + left[k];
      left := left - {k};
    }
  }

  /** The manifest carries these records, and its own counts are computed the way the builder computes them. */
  ghost predicate BuiltFrom(m: SuiteManifest, root: Path, c: SuiteConfig, runs: seq<PolicyRun>, replays: seq<MatrixReplay>)
    requires |runs| == |c.policies| && AllUnder(root, runs, replays)
  {
    && m.tasks == m.selectedTasks == c.tasks && m.taskCount == |c.tasks| && m.policyCount == |runs|
    && m.attemptCount == LayerCounts.Total(AttemptCounts(runs))
    && |m.policyRuns| == |runs|
    && (forall i :: 0 <= i < |runs| ==> m.policyRuns[i] == RecordOfPolicy(root, c.policies[i], runs[i], m.policyRuns[i].layerCounts))
    && (forall i :: 0 <= i < |runs| ==>
          LayerCounts.Tabulates(m.policyRuns[i].layerCounts, multiset(LayerCounts.AllLabels(runs[i].attempts))))
    && IsMergedTable(m.layerCounts, PolicyTables(m.policyRuns))
    && m.hasReplaysRef == (replays != []) && m.replayRunCount == |replays|
    && m.replayRuns == ReplayRecords(root, replays)
    && m.replayPolicyCount == ReplayedPolicyCount(c.policies)
    && m.replaySummary == Summary(PassedCount(m.replayRuns), |replays|)
  }

  /** _build_eval_suite_manifest. */
  method BuildSuiteManifest(root: Path, c: SuiteConfig, runs: seq<PolicyRun>, replays: seq<MatrixReplay>) returns (m: SuiteManifest)
    requires |runs| == |c.policies| && AllUnder(root, runs, replays)
    ensures BuiltFrom(m, root, c, runs, replays)
  {
    var records: seq<PolicyRecord> := [];
    for i := 0 to |runs|
      invariant |records| == i
      invariant forall k :: 0 <= k < i ==> records[k] == RecordOfPolicy(root, c.policies[k], runs[k], records[k].layerCounts)
      invariant forall k :: 0 <= k < i ==>
        LayerCounts.Tabulates(records[k].layerCounts, multiset(LayerCounts.AllLabels(runs[k].attempts)))
    {
      var counts := LayerCounts.CountAttemptLayers(runs[i].attempts);
      records := records + [RecordOfPolicy(root, c.policies[i], runs[i], counts)];
    }
    var merged := LayerCounts.MergeTables(PolicyTables(records));
    var total := SumValues(AttemptCounts(runs));
    var replayRecords := ReplayRecords(root, replays);
    m := SuiteManifest(c.tasks, c.tasks, |c.tasks|, |runs|, total, merged, replays != [], records,
                       |replays|, ReplayedPolicyCount(c.policies), Summary(PassedCount(replayRecords), |replays|), replayRecords);
  }

  // ---------------------------------------------------------------- references

  lemma DirectoryNames()
    ensures '/' !in POLICIES && ArtifactRefs.Ordinary(REPLAYS) && |REPLAYS| >= 2 && REPLAYS[1] != ':'
  {
  }

  lemma ReplayRefIsAccepted(name: string, index: nat, isAlpha: char -> bool)
    requires ArtifactRefs.Accepted(PolicyRef(name), isAlpha)
    ensures ArtifactRefs.Accepted(ReplayRef(name, index), isAlpha)
  {
    DirectoryNames();
    ArtifactRefs.SuffixedElsewhere(POLICIES, REPLAYS, name, ReplaySuffix(index), isAlpha);
  }

  lemma ReplayRefIsInjective(a: string, i: nat, b: string, j: nat)
    requires ReplayRef(a, i) == ReplayRef(b, j)
    ensures a == b && i == j
  {
    var p := REPLAYS + "/";
    TaggedReplayRef(a, i);
    TaggedReplayRef(b, j);
    NumberedNameIsInjective(p + a, "__replay", i, p + b, j);
    assert a == (p + a)[|p|..] && b == (p + b)[|p|..];
  }

  lemma TaggedReplayRef(policy: string, index: nat)
    ensures ReplayRef(policy, index) == (REPLAYS + "/" + policy) + "__replay" + "_" + Decimal.Padded(index + 1, 3)
  {
    assert ReplaySuffix(index) == "__replay" + "_" + Decimal.Padded(index + 1, 3);
  }

  lemma PolicyRefIsInjective(a: string, b: string)
    requires PolicyRef(a) == PolicyRef(b)
    ensures a == b
  {
    var p := POLICIES + "/";
    assert a == PolicyRef(a)[|p|..] && b == PolicyRef(b)[|p|..];
  }

  lemma PolicyRecordIsValid(root: Path, c: SuiteConfig, p: PolicyConfig, run: PolicyRun, w: Work, isAlpha: char -> bool, counts: LayerCounts.Counts)
    requires CompletedPolicy(root, c, p, run, w, isAlpha)
    ensures ArtifactRefs.Below(run.outDir, root)
    ensures ValidPolicyRecord(RecordOfPolicy(root, p, run, counts), isAlpha)
    ensures RecordOfPolicy(root, p, run, counts).artifactDir == PolicyRef(p.name)
  {
    ArtifactRefs.ResolvedRefReadsBack(root, PolicyRef(p.name), isAlpha);
    ArtifactRefs.FileInRef(root, PolicyRef(p.name), "manifest.json", isAlpha);
  }

  lemma ReplayRecordIsValid(root: Path, policy: string, index: nat, run: ReplayVerdict.ReplayRun, isAlpha: char -> bool)
    requires ArtifactRefs.Accepted(PolicyRef(policy), isAlpha)
    requires ReplayVerdict.ValidResult(ReplayVerdict.ResultOf(run))
    ensures var r := MatrixReplay(policy, index, ArtifactRefs.Resolve(root, ReplayRef(policy, index)), run);
      && ArtifactRefs.Below(r.dir, root)
      && ValidReplayRecord(RecordOfReplay(root, r), isAlpha)
      && RecordOfReplay(root, r).artifactDir == ReplayRef(policy, index)
  {
    ReplayRefIsAccepted(policy, index, isAlpha);
    var ref := ReplayRef(policy, index);
    ArtifactRefs.ResolvedRefReadsBack(root, ref, isAlpha);
    ArtifactRefs.FileInRef(root, ref, "manifest.json", isAlpha);
    ArtifactRefs.FileInRef(root, ref, "replay_result.json", isAlpha);
  }

  // ---------------------------------------------------------------- counts

  lemma {:induction false} CountsKeys(runs: seq<PolicyRun>)
    ensures AttemptCounts(runs).Keys == set i | 0 <= i < |runs| :: runs[i].policy
  {
    if |runs| > 0 {
      var n := |runs| - 1;
      CountsKeys(runs[..n]);
      assert (set i | 0 <= i < |runs| :: runs[i].policy) == (set i | 0 <= i < n :: runs[..n][i].policy) + {runs[n].policy};
    }
  }

  /** Adding up the dictionary is adding up the records, because no policy occurs twice. */
  lemma {:induction false} TotalIsSum(runs: seq<PolicyRun>, records: seq<PolicyRecord>)
    requires |runs| == |records| && forall i :: 0 <= i < |runs| ==> records[i].attemptCount == |runs[i].attempts|
    requires forall i, j :: 0 <= i < j < |runs| ==> runs[i].policy != runs[j].policy
    ensures LayerCounts.Total(AttemptCounts(runs)) == SumOfAttempts(records)
  {
    if |runs| > 0 {
      var n := |runs| - 1;
      TotalIsSum(runs[..n], records[..n]);
      CountsKeys(runs[..n]);
      LayerCounts.TotalUpdate(AttemptCounts(runs[..n]), runs[n].policy, |runs[n].attempts|);
    }
  }

  lemma {:induction false} AllCarry(attempts: seq<AttemptRecord>, layer: LayerCounts.Layer)
    requires forall i :: 0 <= i < |attempts| ==> LayerCounts.Carries(attempts[i], layer)
    ensures LayerCounts.Carrying(attempts, layer) == |attempts|
  {
    if |attempts| > 0 {
      AllCarry(attempts[..|attempts| - 1], layer);
    }
  }

  /** A completed policy run has tasks times attempts records, each with a status in its primary layer. */
  lemma PrimaryTotals(root: Path, c: SuiteConfig, p: PolicyConfig, run: PolicyRun, w: Work, isAlpha: char -> bool, counts: LayerCounts.Counts)
    requires CompletedPolicy(root, c, p, run, w, isAlpha) && |c.tasks| > 0 && p.attempts > 0
    requires LayerCounts.Tabulates(counts, multiset(LayerCounts.AllLabels(run.attempts)))
    ensures |run.attempts| == |c.tasks| * p.attempts
    ensures PrimaryLayer(p.kind) in counts && LayerCounts.Total(counts[PrimaryLayer(p.kind)]) == |run.attempts|
  {
    CoveringPlanListsProduct(w.plan, c.tasks, p.attempts);
    assert |run.attempts| == |w.plan|;
    ProductIsPositive(|c.tasks|, p.attempts);
    forall i | 0 <= i < |run.attempts| ensures LayerCounts.Carries(run.attempts[i], PrimaryLayer(p.kind)) {
      assert OutcomeFits(p.kind, w.execute(w.plan[i]));
    }
    AllCarry(run.attempts, PrimaryLayer(p.kind));
    LayerCounts.LayerTotalIsCarryingAttempts(run.attempts, counts, PrimaryLayer(p.kind));
  }

  lemma ProductIsPositive(a: nat, b: nat)
    requires a > 0 && b > 0
    ensures a * b > 0
  {
  }

  // ---------------------------------------------------------------- replays

  type Replayer = (string, nat) -> ReplayVerdict.ReplayRun

  function MatrixPairs(rs: seq<MatrixReplay>): seq<Pair> {
    seq(|rs|, j requires 0 <= j < |rs| => (rs[j].policy, rs[j].replayIndex))
  }

  lemma {:induction false} IndexesOfConcat(a: seq<Pair>, b: seq<Pair>, policy: string)
    ensures IndexesOf(a + b, policy) == IndexesOf(a, policy) + IndexesOf(b, policy)
  {
    if |b| == 0 {
      assert a + b == a;
    } else {
      assert (a + b)[..|a + b| - 1] == a + b[..|b| - 1];
      IndexesOfConcat(a, b[..|b| - 1], policy);
    }
  }

  lemma {:induction false} IndexesInRow(root: Path, p: PolicyConfig, n: nat, replay: Replayer, policy: string)
    ensures var indexes := IndexesOf(MatrixPairs(ReplaysOf(root, p, n, replay)), policy);
      if policy == p.name then |indexes| == n && Elements(indexes) == Range(n) else indexes == []
  {
    var pairs := MatrixPairs(ReplaysOf(root, p, n, replay));
    if n > 0 {
      IndexesInRow(root, p, n - 1, replay, policy);
      var rest := MatrixPairs(ReplaysOf(root, p, n - 1, replay));
      assert pairs[..n - 1] == rest && pairs[n - 1] == (p.name, (n - 1) as nat);
      if policy == p.name {
        UniqueSnoc(IndexesOf(rest, policy), n - 1);
      }
    }
  }

  function RepeatsOf(policies: seq<PolicyConfig>, policy: string): nat {
    if |policies| == 0 then 0
    else
      var last := policies[|policies| - 1];
      if last.name == policy then last.repeats else RepeatsOf(policies[..|policies| - 1], policy)
  }

  lemma {:induction false} NamesOfPrefix(policies: seq<PolicyConfig>)
    requires |policies| > 0 && Unique(PolicyNames(policies))
    ensures Unique(PolicyNames(policies[..|policies| - 1]))
    ensures forall i :: 0 <= i < |policies| - 1 ==> policies[i].name != policies[|policies| - 1].name
  {
    var n := |policies| - 1;
    assert PolicyNames(policies[..n]) == PolicyNames(policies)[..n];
    forall i | 0 <= i < n ensures policies[i].name != policies[n].name {
      assert PolicyNames(policies)[i] != PolicyNames(policies)[n];
    }
  }

  /** The indexes below n, in some order. */
  predicate Lists(indexes: seq<nat>, n: nat) {
    |indexes| == n && Elements(indexes) == Range(n)
  }

  lemma ListsWithNothing(a: seq<nat>, b: seq<nat>, n: nat)
    requires (Lists(a, n) && b == []) || (a == [] && Lists(b, n))
    ensures Lists(a + b, n)
  {
    assert a + b == a || a + b == b;
  }

  /** Each policy's replays carry exactly the indexes below its repeats. */
  lemma {:induction false} ReplayIndexes(root: Path, policies: seq<PolicyConfig>, replay: Replayer, policy: string)
    requires Unique(PolicyNames(policies))
    ensures Lists(IndexesOf(MatrixPairs(AllReplays(root, policies, replay)), policy), RepeatsOf(policies, policy))
  {
    if |policies| > 0 {
      var rest, last := policies[..|policies| - 1], policies[|policies| - 1];
      var a := IndexesOf(MatrixPairs(AllReplays(root, rest, replay)), policy);
      var b := IndexesOf(MatrixPairs(ReplaysOf(root, last, last.repeats, replay)), policy);
      NamesOfPrefix(policies);
      ReplayIndexes(root, rest, replay, policy);
      ReplayIndexesSnoc(root, policies, replay, policy);
      IndexesInRow(root, last, last.repeats, replay, policy);
      if policy == last.name {
        RepeatsOfOthers(rest, policy);
      }
      ListsWithNothing(a, b, RepeatsOf(policies, policy));
    } else {
      assert MatrixPairs(AllReplays(root, policies, replay)) == [];
    }
  }

  lemma ReplayIndexesSnoc(root: Path, policies: seq<PolicyConfig>, replay: Replayer, policy: string)
    requires |policies| > 0
    ensures var rest, last := policies[..|policies| - 1], policies[|policies| - 1];
      IndexesOf(MatrixPairs(AllReplays(root, policies, replay)), policy)
        == IndexesOf(MatrixPairs(AllReplays(root, rest, replay)), policy) + IndexesOf(MatrixPairs(ReplaysOf(root, last, last.repeats, replay)), policy)
  {
    var rest, last := policies[..|policies| - 1], policies[|policies| - 1];
    var a, b := MatrixPairs(AllReplays(root, rest, replay)), MatrixPairs(ReplaysOf(root, last, last.repeats, replay));
    assert MatrixPairs(AllReplays(root, policies, replay)) == a + b;
    IndexesOfConcat(a, b, policy);
  }

  lemma {:induction false} RepeatsOfOthers(policies: seq<PolicyConfig>, policy: string)
    requires forall i :: 0 <= i < |policies| ==> policies[i].name != policy
    ensures RepeatsOf(policies, policy) == 0
  {
    if |policies| > 0 {
      RepeatsOfOthers(policies[..|policies| - 1], policy);
    }
  }

  lemma {:induction false} RepeatsAt(policies: seq<PolicyConfig>, i: nat)
    requires i < |policies| && Unique(PolicyNames(policies))
    ensures RepeatsOf(policies, policies[i].name) == policies[i].repeats
  {
    NamesOfPrefix(policies);
    if i < |policies| - 1 {
      RepeatsAt(policies[..|policies| - 1], i);
    }
  }

  predicate IsReplayOf(r: MatrixReplay, root: Path, p: PolicyConfig, replay: Replayer) {
    && r.policy == p.name && r.replayIndex < p.repeats
    && r.dir == ArtifactRefs.Resolve(root, ReplayRef(p.name, r.replayIndex)) && r.run == replay(p.name, r.replayIndex)
  }

  /** Every replay record is the run of one policy and one index. */
  lemma {:induction false} EveryReplay(root: Path, policies: seq<PolicyConfig>, replay: Replayer, j: nat) returns (i: nat)
    requires j < |AllReplays(root, policies, replay)|
    ensures i < |policies| && IsReplayOf(AllReplays(root, policies, replay)[j], root, policies[i], replay)
  {
    var n := |policies| - 1;
    if j < |AllReplays(root, policies[..n], replay)| {
      i := EveryReplay(root, policies[..n], replay, j);
    } else {
      i := n;
    }
  }

  lemma ReplayPairsAreUnique(root: Path, policies: seq<PolicyConfig>, replay: Replayer)
    requires Unique(PolicyNames(policies))
    ensures Unique(MatrixPairs(AllReplays(root, policies, replay)))
  {
    var pairs := MatrixPairs(AllReplays(root, policies, replay));
    forall policy: string ensures Unique(IndexesOf(pairs, policy)) {
      ReplayIndexes(root, policies, replay, policy);
      UniqueIffFullSize(IndexesOf(pairs, policy));
    }
    UniquePerTask(pairs);
  }

  function NamesOf(rs: seq<MatrixReplay>): set<string> {
    set j | 0 <= j < |rs| :: rs[j].policy
  }

  /** The policies that occur among the replays are those configured with at least one repeat. */
  lemma {:induction false} ReplayedNames(root: Path, policies: seq<PolicyConfig>, replay: Replayer)
    requires Unique(PolicyNames(policies))
    ensures NamesOf(AllReplays(root, policies, replay)) == set i | 0 <= i < |policies| && policies[i].repeats > 0 :: policies[i].name
    ensures |NamesOf(AllReplays(root, policies, replay))| == ReplayedPolicyCount(policies)
  {
    if |policies| > 0 {
      var n := |policies| - 1;
      var rest, last := policies[..n], policies[n];
      NamesOfPrefix(policies);
      ReplayedNames(root, rest, replay);
      var a, b := AllReplays(root, rest, replay), ReplaysOf(root, last, last.repeats, replay);
      NamesOfConcat(a, b);
      NamesOfRow(root, last, replay);
      ReplayedSnoc(policies);
    }
  }

  lemma NamesOfConcat(a: seq<MatrixReplay>, b: seq<MatrixReplay>)
    ensures NamesOf(a + b) == NamesOf(a) + NamesOf(b)
  {
    forall name | name in NamesOf(a) + NamesOf(b) ensures name in NamesOf(a + b) {
      if name in NamesOf(a) {
        var j :| 0 <= j < |a| && a[j].policy == name;
        assert (a + b)[j].policy == name;
      } else {
        var j :| 0 <= j < |b| && b[j].policy == name;
        assert (a + b)[|a| + j].policy == name;
      }
    }
  }

  lemma NamesOfRow(root: Path, p: PolicyConfig, replay: Replayer)
    ensures NamesOf(ReplaysOf(root, p, p.repeats, replay)) == if p.repeats > 0 then {p.name} else {}
  {
    var row := ReplaysOf(root, p, p.repeats, replay);
    if p.repeats > 0 {
      assert row[0].policy == p.name;
    }
  }

  function Replayed(policies: seq<PolicyConfig>): set<string> {
    set i | 0 <= i < |policies| && policies[i].repeats > 0 :: policies[i].name
  }

  lemma ReplayedSnoc(policies: seq<PolicyConfig>)
    requires |policies| > 0 && Unique(PolicyNames(policies))
    ensures var n := |policies| - 1;
      && Replayed(policies) == Replayed(policies[..n]) + (if policies[n].repeats > 0 then {policies[n].name} else {})
      && policies[n].name !in Replayed(policies[..n])
  {
    var n := |policies| - 1;
    NamesOfPrefix(policies);
    forall name | name in Replayed(policies[..n]) ensures name in Replayed(policies) {
      var i :| 0 <= i < n && policies[..n][i].repeats > 0 && policies[..n][i].name == name;
      assert policies[i].name == name;
    }
  }

  // ---------------------------------------------------------------- the suite manifest validates

  /** A suite in which every policy ran through and every configured replay was made. */
  ghost predicate CompletedSuite(root: Path, c: SuiteConfig, runs: seq<PolicyRun>, works: seq<Work>, replay: Replayer, isAlpha: char -> bool) {
    && ValidConfig(c) && CompletedPolicies(root, c, runs, works, isAlpha) && SoundReplays(c, runs, replay)
  }

  lemma RunIsCompleted(root: Path, c: SuiteConfig, runs: seq<PolicyRun>, works: seq<Work>, isAlpha: char -> bool, i: nat)
    requires CompletedPolicies(root, c, runs, works, isAlpha) && i < |runs|
    ensures CompletedPolicy(root, c, c.policies[i], runs[i], works[i], isAlpha)
  {
  }

  lemma EverythingIsUnder(root: Path, c: SuiteConfig, runs: seq<PolicyRun>, works: seq<Work>, replay: Replayer, isAlpha: char -> bool)
    requires CompletedSuite(root, c, runs, works, replay, isAlpha)
    ensures AllUnder(root, runs, AllReplays(root, c.policies, replay))
  {
    forall i | 0 <= i < |runs| ensures ArtifactRefs.Below(runs[i].outDir, root) {
      RunIsCompleted(root, c, runs, works, isAlpha, i);
    }
    var replays := AllReplays(root, c.policies, replay);
    forall j | 0 <= j < |replays| ensures ArtifactRefs.Below(replays[j].dir, root) {
      var i := EveryReplay(root, c.policies, replay, j);
    }
  }

  lemma PoliciesFit(m: SuiteManifest, root: Path, c: SuiteConfig, runs: seq<PolicyRun>, works: seq<Work>, replays: seq<MatrixReplay>, isAlpha: char -> bool)
    requires ValidConfig(c) && CompletedPolicies(root, c, runs, works, isAlpha)
    requires AllUnder(root, runs, replays) && BuiltFrom(m, root, c, runs, replays)
    ensures ValidPolicyRecords(m.policyRuns, isAlpha)
    ensures DistinctPolicyRefs(m.policyRuns) && PolicyCountsFit(m)
  {
    PolicyRecordsFit(m, root, c, runs, works, replays, isAlpha);
    PoliciesDiffer(m, root, c, runs, works, replays, isAlpha);
    TotalIsSum(runs, m.policyRuns);
  }

  lemma PolicyRecordsFit(m: SuiteManifest, root: Path, c: SuiteConfig, runs: seq<PolicyRun>, works: seq<Work>, replays: seq<MatrixReplay>, isAlpha: char -> bool)
    requires ValidConfig(c) && CompletedPolicies(root, c, runs, works, isAlpha)
    requires AllUnder(root, runs, replays) && BuiltFrom(m, root, c, runs, replays)
    ensures ValidPolicyRecords(m.policyRuns, isAlpha)
    ensures forall i :: 0 <= i < |m.policyRuns| ==> PrimaryTotalFits(m.policyRuns[i])
    ensures forall i :: 0 <= i < |m.policyRuns| ==>
      m.policyRuns[i].attemptCount == |runs[i].attempts| == m.taskCount * m.policyRuns[i].attemptsPerTask
  {
    forall i | 0 <= i < |runs|
      ensures ValidPolicyRecord(m.policyRuns[i], isAlpha) && PrimaryTotalFits(m.policyRuns[i])
      ensures m.policyRuns[i].attemptCount == |runs[i].attempts| == m.taskCount * m.policyRuns[i].attemptsPerTask
    {
      PolicyFits(m, root, c, runs, works, replays, isAlpha, i);
    }
  }

  lemma PoliciesDiffer(m: SuiteManifest, root: Path, c: SuiteConfig, runs: seq<PolicyRun>, works: seq<Work>, replays: seq<MatrixReplay>, isAlpha: char -> bool)
    requires ValidConfig(c) && CompletedPolicies(root, c, runs, works, isAlpha)
    requires AllUnder(root, runs, replays) && BuiltFrom(m, root, c, runs, replays)
    ensures DistinctPolicyRefs(m.policyRuns)
    ensures forall i, j :: 0 <= i < j < |runs| ==> runs[i].policy != runs[j].policy
  {
    forall i, j | 0 <= i < j < |runs|
      ensures runs[i].policy != runs[j].policy && m.policyRuns[i].policy != m.policyRuns[j].policy
      ensures m.policyRuns[i].evalRunId != m.policyRuns[j].evalRunId && m.policyRuns[i].artifactDir != m.policyRuns[j].artifactDir
    {
      PolicyFits(m, root, c, runs, works, replays, isAlpha, i);
      PolicyFits(m, root, c, runs, works, replays, isAlpha, j);
      assert PolicyNames(c.policies)[i] != PolicyNames(c.policies)[j];
      if m.policyRuns[i].artifactDir == m.policyRuns[j].artifactDir {
        PolicyRefIsInjective(c.policies[i].name, c.policies[j].name);
      }
    }
  }

  lemma PolicyFits(m: SuiteManifest, root: Path, c: SuiteConfig, runs: seq<PolicyRun>, works: seq<Work>, replays: seq<MatrixReplay>, isAlpha: char -> bool, i: nat)
    requires ValidConfig(c) && CompletedPolicies(root, c, runs, works, isAlpha) && i < |runs|
    requires AllUnder(root, runs, replays) && BuiltFrom(m, root, c, runs, replays)
    ensures ValidPolicyRecord(m.policyRuns[i], isAlpha) && m.policyRuns[i].artifactDir == PolicyRef(c.policies[i].name)
    ensures m.policyRuns[i].policy == c.policies[i].name && m.policyRuns[i].evalRunId == runs[i].evalRunId
    ensures m.policyRuns[i].attemptCount == |runs[i].attempts| == m.taskCount * m.policyRuns[i].attemptsPerTask
    ensures PrimaryTotalFits(m.policyRuns[i])
  {
    RunIsCompleted(root, c, runs, works, isAlpha, i);
    PolicyRecordIsValid(root, c, c.policies[i], runs[i], works[i], isAlpha, m.policyRuns[i].layerCounts);
    PrimaryTotals(root, c, c.policies[i], runs[i], works[i], isAlpha, m.policyRuns[i].layerCounts);
  }

  lemma ReplaysAreValid(root: Path, c: SuiteConfig, runs: seq<PolicyRun>, works: seq<Work>, replay: Replayer, isAlpha: char -> bool, j: nat) returns (i: nat)
    requires CompletedSuite(root, c, runs, works, replay, isAlpha)
    requires j < |AllReplays(root, c.policies, replay)|
    ensures i < |runs| && IsReplayOf(AllReplays(root, c.policies, replay)[j], root, c.policies[i], replay)
    ensures var r := AllReplays(root, c.policies, replay)[j];
      && ArtifactRefs.Below(r.dir, root)
      && ValidReplayRecord(RecordOfReplay(root, r), isAlpha)
      && RecordOfReplay(root, r).artifactDir == ReplayRef(r.policy, r.replayIndex)
      && FaithfulVerdict(r.run, |runs[i].attempts|)
  {
    i := EveryReplay(root, c.policies, replay, j);
    RunIsCompleted(root, c, runs, works, isAlpha, i);
    var r := AllReplays(root, c.policies, replay)[j];
    assert FaithfulVerdict(replay(c.policies[i].name, r.replayIndex), |runs[i].attempts|);
    ReplayRecordIsValid(root, r.policy, r.replayIndex, r.run, isAlpha);
  }

  lemma ReplayRefsAreDistinct(root: Path, c: SuiteConfig, runs: seq<PolicyRun>, works: seq<Work>, replay: Replayer, isAlpha: char -> bool)
    requires CompletedSuite(root, c, runs, works, replay, isAlpha)
    requires AllUnder(root, runs, AllReplays(root, c.policies, replay))
    ensures DistinctReplayRefs(ReplayRecords(root, AllReplays(root, c.policies, replay)))
  {
    var replays := AllReplays(root, c.policies, replay);
    var records := ReplayRecords(root, replays);
    ReplayPairsAreUnique(root, c.policies, replay);
    forall a, b | 0 <= a < b < |records| ensures records[a].replayRunId != records[b].replayRunId && records[a].artifactDir != records[b].artifactDir {
      assert MatrixPairs(replays)[a] != MatrixPairs(replays)[b];
      var i := ReplaysAreValid(root, c, runs, works, replay, isAlpha, a);
      var j := ReplaysAreValid(root, c, runs, works, replay, isAlpha, b);
      if records[a].artifactDir == records[b].artifactDir {
        ReplayRefIsInjective(replays[a].policy, replays[a].replayIndex, replays[b].policy, replays[b].replayIndex);
      }
    }
  }

  lemma ReplaysCover(m: SuiteManifest, root: Path, c: SuiteConfig, runs: seq<PolicyRun>, works: seq<Work>, replay: Replayer, isAlpha: char -> bool)
    requires CompletedSuite(root, c, runs, works, replay, isAlpha)
    requires AllUnder(root, runs, AllReplays(root, c.policies, replay))
    requires BuiltFrom(m, root, c, runs, AllReplays(root, c.policies, replay))
    ensures ReplayCoverage(m.policyRuns, m.replayRuns)
    ensures ValidReplayRecords(m.replayRuns, isAlpha)
  {
    PolicyNamesMatch(m, root, c, runs, works, AllReplays(root, c.policies, replay), isAlpha);
    assert ReplayPairs(m.replayRuns) == MatrixPairs(AllReplays(root, c.policies, replay));
    forall i | 0 <= i < |m.policyRuns|
      ensures Lists(IndexesOf(ReplayPairs(m.replayRuns), m.policyRuns[i].policy), m.policyRuns[i].repeats)
    {
      ReplayIndexes(root, c.policies, replay, c.policies[i].name);
      RepeatsAt(c.policies, i);
    }
    forall j | 0 <= j < |m.replayRuns|
      ensures ValidReplayRecord(m.replayRuns[j], isAlpha)
      ensures exists i :: 0 <= i < |m.policyRuns| && m.policyRuns[i].policy == m.replayRuns[j].policy
      ensures forall i :: 0 <= i < |m.policyRuns| ==> NotPartial(m.policyRuns[i], m.replayRuns[j])
    {
      ReplayIsCovered(m, root, c, runs, works, replay, isAlpha, j);
    }
  }

  lemma PolicyNamesMatch(m: SuiteManifest, root: Path, c: SuiteConfig, runs: seq<PolicyRun>, works: seq<Work>, replays: seq<MatrixReplay>, isAlpha: char -> bool)
    requires CompletedPolicies(root, c, runs, works, isAlpha) && AllUnder(root, runs, replays) && BuiltFrom(m, root, c, runs, replays)
    ensures |m.policyRuns| == |c.policies|
    ensures forall i :: 0 <= i < |c.policies| ==>
      && m.policyRuns[i].policy == c.policies[i].name && m.policyRuns[i].repeats == c.policies[i].repeats
      && m.policyRuns[i].attemptCount == |runs[i].attempts|
  {
    forall i | 0 <= i < |runs| ensures runs[i].policy == c.policies[i].name {
      RunIsCompleted(root, c, runs, works, isAlpha, i);
    }
  }

  lemma ReplayIsCovered(m: SuiteManifest, root: Path, c: SuiteConfig, runs: seq<PolicyRun>, works: seq<Work>, replay: Replayer, isAlpha: char -> bool, j: nat)
    requires CompletedSuite(root, c, runs, works, replay, isAlpha)
    requires AllUnder(root, runs, AllReplays(root, c.policies, replay))
    requires BuiltFrom(m, root, c, runs, AllReplays(root, c.policies, replay)) && j < |m.replayRuns|
    ensures ValidReplayRecord(m.replayRuns[j], isAlpha)
    ensures exists i :: 0 <= i < |m.policyRuns| && m.policyRuns[i].policy == m.replayRuns[j].policy
    ensures forall i :: 0 <= i < |m.policyRuns| ==> NotPartial(m.policyRuns[i], m.replayRuns[j])
  {
    var replays := AllReplays(root, c.policies, replay);
    PolicyNamesMatch(m, root, c, runs, works, replays, isAlpha);
    var k := ReplaysAreValid(root, c, runs, works, replay, isAlpha, j);
    assert m.replayRuns[j] == RecordOfReplay(root, replays[j]);
    assert m.policyRuns[k].policy == m.replayRuns[j].policy;
    forall i | 0 <= i < |m.policyRuns| ensures NotPartial(m.policyRuns[i], m.replayRuns[j]) {
      if i != k {
        assert PolicyNames(c.policies)[if i < k then i else k] != PolicyNames(c.policies)[if i < k then k else i];
      }
    }
  }

  lemma ReplayTotals(m: SuiteManifest, root: Path, c: SuiteConfig, runs: seq<PolicyRun>, replay: Replayer)
    requires ValidConfig(c) && |runs| == |c.policies|
    requires AllUnder(root, runs, AllReplays(root, c.policies, replay))
    requires BuiltFrom(m, root, c, runs, AllReplays(root, c.policies, replay))
    ensures m.replayRunCount == |m.replayRuns| && (m.replayRunCount > 0 <==> m.hasReplaysRef)
    ensures m.replayPolicyCount == |ReplayedPolicies(m.replayRuns)|
    ensures m.replaySummary == Summary(PassedCount(m.replayRuns), |m.replayRuns|)
  {
    var replays := AllReplays(root, c.policies, replay);
    ReplayedNames(root, c.policies, replay);
    forall j | 0 <= j < |replays| ensures m.replayRuns[j].policy == replays[j].policy {
    }
    assert ReplayedPolicies(m.replayRuns) == NamesOf(replays);
  }

  lemma BuiltHeader(m: SuiteManifest, root: Path, c: SuiteConfig, runs: seq<PolicyRun>, replays: seq<MatrixReplay>)
    requires ValidConfig(c) && |runs| == |c.policies| && AllUnder(root, runs, replays) && BuiltFrom(m, root, c, runs, replays)
    ensures m.taskCount == |m.tasks| && m.tasks == m.selectedTasks && m.tasks != []
    ensures m.policyCount == |m.policyRuns| && m.policyCount > 0
    ensures m.replayRuns == ReplayRecords(root, replays)
  {
  }

  /** Every manifest a completed suite builds passes the suite validator. */
  lemma BuiltSuiteIsValid(m: SuiteManifest, root: Path, c: SuiteConfig, runs: seq<PolicyRun>, works: seq<Work>, replay: Replayer, isAlpha: char -> bool)
    requires CompletedSuite(root, c, runs, works, replay, isAlpha)
    requires AllUnder(root, runs, AllReplays(root, c.policies, replay))
    requires BuiltFrom(m, root, c, runs, AllReplays(root, c.policies, replay))
    ensures ValidSuite(m, isAlpha)
  {
    var replays := AllReplays(root, c.policies, replay);
    BuiltHeader(m, root, c, runs, replays);
    PoliciesFit(m, root, c, runs, works, replays, isAlpha);
    ReplaysCover(m, root, c, runs, works, replay, isAlpha);
    ReplayRefsAreDistinct(root, c, runs, works, replay, isAlpha);
    ReplayTotals(m, root, c, runs, replay);
    PartsMakeSuite(m, isAlpha);
  }

  lemma PartsMakeSuite(m: SuiteManifest, isAlpha: char -> bool)
    requires m.taskCount == |m.tasks| && m.tasks == m.selectedTasks && m.tasks != []
    requires m.policyCount == |m.policyRuns| && m.policyCount > 0
    requires ValidPolicyRecords(m.policyRuns, isAlpha) && ValidReplayRecords(m.replayRuns, isAlpha)
    requires DistinctPolicyRefs(m.policyRuns) && DistinctReplayRefs(m.replayRuns)
    requires PolicyCountsFit(m) && ReplayCoverage(m.policyRuns, m.replayRuns)
    requires m.replayRunCount == |m.replayRuns| && (m.replayRunCount > 0 <==> m.hasReplaysRef)
    requires m.replayPolicyCount == |ReplayedPolicies(m.replayRuns)|
    requires m.replaySummary == Summary(PassedCount(m.replayRuns), |m.replayRuns|)
    ensures ValidSuite(m, isAlpha)
  {
  }

  /** The suite's layer counts are those of all its attempts together, its attempt count theirs. */
  lemma SuiteCountsAreFlatCounts(m: SuiteManifest, root: Path, c: SuiteConfig, runs: seq<PolicyRun>, replays: seq<MatrixReplay>, flat: LayerCounts.Counts)
    requires |runs| == |c.policies| && AllUnder(root, runs, replays) && BuiltFrom(m, root, c, runs, replays)
    requires LayerCounts.Tabulates(flat, multiset(LayerCounts.AllLabels(LayerCounts.Concat(AttemptLists(runs)))))
    ensures m.layerCounts == flat
  {
    var tables, lists := PolicyTables(m.policyRuns), AttemptLists(runs);
    forall i | 0 <= i < |lists| ensures LayerCounts.Tabulates(tables[i], multiset(LayerCounts.AllLabels(lists[i]))) {
      assert tables[i] == m.policyRuns[i].layerCounts;
    }
    assert LayerCounts.TabulateRuns(tables, lists);
    LayerCounts.MatrixCountIsTheFlatCount(tables, lists, m.layerCounts, flat);
  }

  function AttemptLists(runs: seq<PolicyRun>): seq<seq<AttemptRecord>> {
    seq(|runs|, i requires 0 <= i < |runs| => runs[i].attempts)
  }
}
