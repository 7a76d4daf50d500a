/**
 Where a suite writes: a directory for every policy, one for every attempt in it, one for every replay, each prepared
 in its turn.  Preparing raises when something is there already, so the order of the names matters.
 */
module SuiteDirectories {
  import opened Wrappers
  import opened EvalPlan
  import opened EvalRun
  import opened ArtifactTree
  import opened EvalSuite
  import opened SuitePlanning
  import ArtifactRefs
  import ReplayVerdict

  type Dir = seq<string>

  /** What attempts and replays leave in their directories. */
  datatype Traces = Traces(attempts: string -> Leaves, replays: ReplayLeaves)

  /** Real file names, and at least one file for every attempt. */
  ghost predicate RealTraces(traces: Traces) {
    && (forall policy: string, a: PlannedAttempt :: RealFiles(traces.attempts(policy)(a)) && traces.attempts(policy)(a) != {})
    && RealReplayLeaves(traces.replays)
  }

  function PlanOf(c: SuiteConfig, s: Supply, i: nat): seq<PlannedAttempt>
    requires i < |c.policies|
  {
    PlanPolicy(c, c.policies[i], s).plannedAttempts
  }

  function PolicyDir(root: Dir, c: SuiteConfig, i: nat): Dir
    requires i < |c.policies|
  {
    ArtifactRefs.Resolve(root, PolicyRef(c.policies[i].name))
  }

  // ---------------------------------------------------------------- the conditions

  /** An attempt's directory is on the way to, at, or inside a file an earlier attempt of the plan left. */
  predicate AttemptBlocked(outDir: Dir, plan: seq<PlannedAttempt>, leaves: Leaves, l: nat, k: nat)
    requires l < |plan| && k < |plan|
  {
    exists r :: r in leaves(plan[l]) && Related(AttemptDirectory(outDir, plan[k]), AttemptDirectory(outDir, plan[l]) + r)
  }

  predicate AttemptsClear(outDir: Dir, plan: seq<PlannedAttempt>, leaves: Leaves) {
    forall l, k :: 0 <= l < k < |plan| ==> !AttemptBlocked(outDir, plan, leaves, l, k)
  }

  /** A directory is on the way to, at, or inside a file a policy run left. */
  predicate BlockedByRun(dir: Dir, outDir: Dir, plan: seq<PlannedAttempt>, leaves: Leaves) {
    || (exists r :: r in RUN_FILES && Related(dir, outDir + r))
    || (exists k, r :: 0 <= k < |plan| && r in leaves(plan[k]) && Related(dir, AttemptDirectory(outDir, plan[k]) + r))
  }

  predicate PolicyClearOf(root: Dir, c: SuiteConfig, s: Supply, traces: Traces, i: nat, dir: Dir)
    requires i < |c.policies|
  {
    !BlockedByRun(dir, PolicyDir(root, c, i), PlanOf(c, s, i), traces.attempts(c.policies[i].name))
  }

  /** None of the first n policies wrote above, at or below a directory. */
  predicate ClearOfPolicies(root: Dir, c: SuiteConfig, s: Supply, traces: Traces, n: nat, dir: Dir)
    requires n <= |c.policies|
  {
    forall i :: 0 <= i < n ==> PolicyClearOf(root, c, s, traces, i, dir)
  }

  predicate PolicyAttemptsClear(root: Dir, c: SuiteConfig, s: Supply, traces: Traces, i: nat)
    requires i < |c.policies|
  {
    AttemptsClear(PolicyDir(root, c, i), PlanOf(c, s, i), traces.attempts(c.policies[i].name))
  }

  /** Policy n finds its directories free, as far as policies before it and its own attempts are concerned. */
  predicate PolicyClear(root: Dir, c: SuiteConfig, s: Supply, traces: Traces, n: nat)
    requires n < |c.policies|
  {
    ClearOfPolicies(root, c, s, traces, n, PolicyDir(root, c, n)) && PolicyAttemptsClear(root, c, s, traces, n)
  }

  predicate PoliciesClear(root: Dir, c: SuiteConfig, s: Supply, traces: Traces) {
    forall n :: 0 <= n < |c.policies| ==> PolicyClear(root, c, s, traces, n)
  }

  predicate ReplayBlocked(rs: seq<MatrixReplay>, leaves: ReplayLeaves, u: nat, v: nat)
    requires u < |rs| && v < |rs|
  {
    exists r :: r in ReplayFiles(leaves(rs[u].policy, rs[u].replayIndex)) && Related(rs[v].dir, rs[u].dir + r)
  }

  predicate ReplaysClear(rs: seq<MatrixReplay>, leaves: ReplayLeaves) {
    forall u, v :: 0 <= u < v < |rs| ==> !ReplayBlocked(rs, leaves, u, v)
  }

  /** The configured replays before any of them was made. */
  function PlannedReplays(root: Dir, c: SuiteConfig): seq<MatrixReplay> {
    AllReplays(root, c.policies, (policy: string, i: nat) => ReplayVerdict.ReplayRun("", ReplayVerdict.ReplayError, []))
  }

  /** No directory is prepared where something earlier was written. */
  predicate DirectoriesClear(root: Dir, c: SuiteConfig, s: Supply, traces: Traces) {
    && PoliciesClear(root, c, s, traces)
    && ReplaysClear(PlannedReplays(root, c), traces.replays)
  }

  // ---------------------------------------------------------------- the steps

  const DECLARATION_FILE: set<Path> := {["eval_suite_declaration.json"]}

  /** The declaration is written and the policies folder made. */
  function SuiteOpening(root: Dir): seq<Step> {
    [Step(Save, root, DECLARATION_FILE), Step(Make, root + [POLICIES], {})]
  }

  function PolicySteps(root: Dir, c: SuiteConfig, s: Supply, traces: Traces, i: nat): seq<Step>
    requires i < |c.policies|
  {
    RunSteps(PolicyDir(root, c, i), PlanOf(c, s, i), traces.attempts(c.policies[i].name))
  }

  function PolicyParts(root: Dir, c: SuiteConfig, s: Supply, traces: Traces): seq<seq<Step>> {
    seq(|c.policies|, i requires 0 <= i < |c.policies| => PolicySteps(root, c, s, traces, i))
  }

  /** The steps of the first n policies. */
  function PoliciesSteps(root: Dir, c: SuiteConfig, s: Supply, traces: Traces, n: nat): seq<Step>
    requires n <= |c.policies|
  {
    Flat(PolicyParts(root, c, s, traces)[..n])
  }

  function SuiteSteps(root: Dir, c: SuiteConfig, s: Supply, traces: Traces): seq<Step> {
    SuiteOpening(root) + PoliciesSteps(root, c, s, traces, |c.policies|) + ReplaySteps(PlannedReplays(root, c), traces.replays)
  }

  lemma {:induction false} SameReplaySteps(root: Dir, policies: seq<PolicyConfig>, a: Replayer, b: Replayer, leaves: ReplayLeaves)
    ensures ReplaySteps(AllReplays(root, policies, a), leaves) == ReplaySteps(AllReplays(root, policies, b), leaves)
  {
    if |policies| > 0 {
      var n := |policies| - 1;
      SameReplaySteps(root, policies[..n], a, b, leaves);
      var ra, rb := AllReplays(root, policies[..n], a), AllReplays(root, policies[..n], b);
      var la, lb := ReplaysOf(root, policies[n], policies[n].repeats, a), ReplaysOf(root, policies[n], policies[n].repeats, b);
      assert ReplaySteps(la, leaves) == ReplaySteps(lb, leaves);
      assert ReplaySteps(ra + la, leaves) == ReplaySteps(ra, leaves) + ReplaySteps(la, leaves);
      assert ReplaySteps(rb + lb, leaves) == ReplaySteps(rb, leaves) + ReplaySteps(lb, leaves);
    }
  }

  /** What verdicts the replays come to does not matter. */
  lemma VerdictsDoNotMatter(root: Dir, c: SuiteConfig, replay: Replayer, leaves: ReplayLeaves)
    ensures ReplaySteps(AllReplays(root, c.policies, replay), leaves) == ReplaySteps(PlannedReplays(root, c), leaves)
  {
    SameReplaySteps(root, c.policies, replay, (policy: string, i: nat) => ReplayVerdict.ReplayRun("", ReplayVerdict.ReplayError, []), leaves);
  }

  // ---------------------------------------------------------------- one run in its own directory

  /** Strictly below a named folder of a directory. */
  predicate UnderFolder(p: Dir, base: Dir, name: string) {
    |p| > |base| + 1 && base <= p && p[|base|] == name
  }

  lemma UnderIsBelow(p: Dir, base: Dir, name: string)
    requires UnderFolder(p, base, name)
    ensures base < p && base + [name] < p
  {
    assert p[..|base|] == base;
    assert p[..|base| + 1] == base + [name];
  }

  /** Nothing on the disk concerns what lies below a directory that can be prepared. */
  lemma ClearBelow(t: Tree, outDir: Dir, p: Dir)
    requires Fits(t, Step(Prepare, outDir, {})) && outDir < p
    ensures Fits(t, Step(Prepare, p, {})) && SaveFits(t, p) && forall f :: f in t.files ==> !(f <= p)
  {
    forall f | f in t.files ensures !(f <= p) {
      assert p == outDir + p[|outDir|..];
      EitherSide(f, outDir, p[|outDir|..]);
      assert f in t.files + t.folders;
    }
    forall n | n in t.files + t.folders ensures !(p < n) {
      if p < n {
        FurtherOn(outDir, p, n);
      }
    }
    assert p in t.folders ==> p in t.files + t.folders;
  }

  predicate AllUnderAttempts(outDir: Dir, plan: seq<PlannedAttempt>) {
    forall k :: 0 <= k < |plan| ==> UnderFolder(AttemptDirectory(outDir, plan[k]), outDir, "attempts")
  }

  /** An attempt is in the way of the next one's directory exactly when a file of it is. */
  lemma AttemptInTheWayIff(outDir: Dir, plan: seq<PlannedAttempt>, leaves: Leaves, l: nat, k: nat)
    requires l < |plan| && k < |plan| && leaves(plan[l]) != {}
    ensures InTheWay(AttemptStep(outDir, plan[l], leaves), AttemptStep(outDir, plan[k], leaves)) <==> AttemptBlocked(outDir, plan, leaves, l, k)
  {
    OnlyFilesMatter(AttemptStep(outDir, plan[l], leaves), AttemptDirectory(outDir, plan[k]), leaves(plan[k]));
  }

  /** A step that leaves files is in the way of preparing a directory exactly when one of the files is. */
  lemma OnlyFilesMatter(a: Step, dir: Dir, files: set<Path>)
    requires a.files != {}
    ensures InTheWay(a, Step(Prepare, dir, files)) <==> exists r :: r in a.files && Related(dir, a.dir + r)
  {
    if dir < a.dir {
      var r :| r in a.files;
      Extends(dir, a.dir, r);
    }
  }

  lemma Extends(p: Dir, q: Dir, r: Dir)
    requires p <= q
    ensures p <= q + r
  {
    assert (q + r)[..|p|] == q[..|p|] == p;
  }

  lemma Diverge(p: Dir, q: Dir, i: nat)
    requires i < |p| && i < |q| && p[i] != q[i]
    ensures !Related(p, q)
  {
  }

  /** Within its own directory a run's attempts are the only things in each other's way. */
  lemma RunRunsIff(t: Tree, outDir: Dir, plan: seq<PlannedAttempt>, leaves: Leaves)
    requires AllUnderAttempts(outDir, plan) && forall a :: leaves(a) != {}
    ensures Runs(t, RunSteps(outDir, plan, leaves)).Some? <==> Fits(t, Step(Prepare, outDir, {})) && AttemptsClear(outDir, plan, leaves)
  {
    RunsIffOrderly(t, RunSteps(outDir, plan, leaves));
    var steps := RunSteps(outDir, plan, leaves);
    var n := |plan|;
    assert |steps| == n + 3 && steps[0] == Step(Prepare, outDir, {}) && steps[1] == Step(Make, outDir + ["attempts"], {});
    if Orderly(t, steps) {
      assert Fits(t, steps[0]);
      AttemptsApart(outDir, plan, leaves, steps);
    }
    if Fits(t, Step(Prepare, outDir, {})) && AttemptsClear(outDir, plan, leaves) {
      RunStepsFit(t, outDir, plan, leaves, steps);
      RunStepsApart(outDir, plan, leaves, steps);
    }
  }

  lemma AttemptsApart(outDir: Dir, plan: seq<PlannedAttempt>, leaves: Leaves, steps: seq<Step>)
    requires steps == RunSteps(outDir, plan, leaves) && forall a :: leaves(a) != {}
    requires forall i, j :: 0 <= i < j < |steps| ==> !InTheWay(steps[i], steps[j])
    ensures AttemptsClear(outDir, plan, leaves)
  {
    forall l, k | 0 <= l < k < |plan| ensures !AttemptBlocked(outDir, plan, leaves, l, k) {
      AttemptInTheWayIff(outDir, plan, leaves, l, k);
      assert steps[l + 2] == AttemptStep(outDir, plan[l], leaves) && steps[k + 2] == AttemptStep(outDir, plan[k], leaves);
      assert !InTheWay(steps[l + 2], steps[k + 2]);
    }
  }

  lemma RunStepsFit(t: Tree, outDir: Dir, plan: seq<PlannedAttempt>, leaves: Leaves, steps: seq<Step>)
    requires AllUnderAttempts(outDir, plan) && steps == RunSteps(outDir, plan, leaves) && Fits(t, Step(Prepare, outDir, {}))
    ensures forall j :: 0 <= j < |steps| ==> Fits(t, steps[j])
  {
    var n := |plan|;
    forall j | 0 <= j < |steps| ensures Fits(t, steps[j]) {
      if j == 1 {
        ClearBelow(t, outDir, outDir + ["attempts"]);
      } else if 2 <= j < n + 2 {
        UnderIsBelow(AttemptDirectory(outDir, plan[j - 2]), outDir, "attempts");
        ClearBelow(t, outDir, AttemptDirectory(outDir, plan[j - 2]));
        assert steps[j] == AttemptStep(outDir, plan[j - 2], leaves);
      } else if j == n + 2 {
        forall r | r in RUN_FILES ensures SaveFits(t, outDir + r) {
          ClearBelow(t, outDir, outDir + r);
        }
      }
    }
  }

  /** Attempts and run files keep to different places. */
  lemma RunStepsApart(outDir: Dir, plan: seq<PlannedAttempt>, leaves: Leaves, steps: seq<Step>)
    requires AllUnderAttempts(outDir, plan) && steps == RunSteps(outDir, plan, leaves) && forall a :: leaves(a) != {}
    requires AttemptsClear(outDir, plan, leaves)
    ensures forall i, j :: 0 <= i < j < |steps| ==> !InTheWay(steps[i], steps[j])
  {
    var n := |plan|;
    forall i, j | 0 <= i < j < |steps| ensures !InTheWay(steps[i], steps[j]) {
      if j == n + 2 {
        NotInTheWayOfRunFiles(outDir, plan, leaves, steps, i);
      } else if 2 <= j && 2 <= i {
        assert steps[i] == AttemptStep(outDir, plan[i - 2], leaves) && steps[j] == AttemptStep(outDir, plan[j - 2], leaves);
        AttemptInTheWayIff(outDir, plan, leaves, i - 2, j - 2);
      } else if 2 <= j {
        assert steps[j] == AttemptStep(outDir, plan[j - 2], leaves);
        UnderIsBelow(AttemptDirectory(outDir, plan[j - 2]), outDir, "attempts");
      }
    }
  }

  lemma NotInTheWayOfRunFiles(outDir: Dir, plan: seq<PlannedAttempt>, leaves: Leaves, steps: seq<Step>, i: nat)
    requires AllUnderAttempts(outDir, plan) && steps == RunSteps(outDir, plan, leaves) && i < |plan| + 2
    ensures !InTheWay(steps[i], steps[|plan| + 2])
  {
    forall q | q in RUN_FILES ensures !FileInTheWay(steps[i], outDir + q) {
      var file := outDir + q;
      assert file[|outDir|] == q[0] && q[0] != "attempts";
      if i >= 2 {
        var dir := AttemptDirectory(outDir, plan[i - 2]);
        assert steps[i] == AttemptStep(outDir, plan[i - 2], leaves);
        Diverge(file, dir, |outDir|);
        forall r | r in leaves(plan[i - 2]) ensures !Related(file, dir + r) {
          assert (dir + r)[|outDir|] == dir[|outDir|];
          Diverge(file, dir + r, |outDir|);
        }
      } else if i == 1 {
        Diverge(file, outDir + ["attempts"], |outDir|);
      }
    }
  }

  // ---------------------------------------------------------------- later directories

  lemma NoneInTheWayConcat(a: seq<Step>, b: seq<Step>, s: Step)
    ensures NoneInTheWay(a + b, s) <==> NoneInTheWay(a, s) && NoneInTheWay(b, s)
  {
    var c := a + b;
    if NoneInTheWay(c, s) {
      forall i | 0 <= i < |a| ensures !InTheWay(a[i], s) {
        assert c[i] == a[i];
      }
      forall i | 0 <= i < |b| ensures !InTheWay(b[i], s) {
        assert c[|a| + i] == b[i];
      }
    }
  }

  /** A finished run is in the way of a directory exactly when one of its files is. */
  lemma RunInTheWayIff(dir: Dir, outDir: Dir, plan: seq<PlannedAttempt>, leaves: Leaves, files: set<Path>)
    requires forall a :: leaves(a) != {}
    ensures NoneInTheWay(RunSteps(outDir, plan, leaves), Step(Prepare, dir, files)) <==> !BlockedByRun(dir, outDir, plan, leaves)
  {
    var steps, s := RunSteps(outDir, plan, leaves), Step(Prepare, dir, files);
    var n := |plan|;
    assert |steps| == n + 3 && steps[0] == Step(Prepare, outDir, {}) && steps[1] == Step(Make, outDir + ["attempts"], {});
    assert steps[n + 2] == Step(Save, outDir, RUN_FILES);
    OnlyFilesMatter(steps[n + 2], dir, files);
    forall k | 0 <= k < n
      ensures steps[k + 2] == AttemptStep(outDir, plan[k], leaves)
      ensures InTheWay(steps[k + 2], s) <==> exists r :: r in leaves(plan[k]) && Related(dir, AttemptDirectory(outDir, plan[k]) + r)
    {
      OnlyFilesMatter(AttemptStep(outDir, plan[k], leaves), dir, files);
    }
    OpeningNeedsNoMention(dir, outDir, files);
    if NoneInTheWay(steps, s) {
      assert !InTheWay(steps[n + 2], s);
      forall k, r | 0 <= k < n && r in leaves(plan[k]) ensures !Related(dir, AttemptDirectory(outDir, plan[k]) + r) {
        assert !InTheWay(steps[k + 2], s);
      }
    }
    if !BlockedByRun(dir, outDir, plan, leaves) {
      forall i | 0 <= i < |steps| ensures !InTheWay(steps[i], s) {
        if 2 <= i < n + 2 {
          assert steps[i] == steps[(i - 2) + 2];
        }
      }
    }
  }

  /** What stops at the run's folders also stops at its files. */
  lemma OpeningNeedsNoMention(dir: Dir, outDir: Dir, files: set<Path>)
    ensures InTheWay(Step(Prepare, outDir, {}), Step(Prepare, dir, files)) || InTheWay(Step(Make, outDir + ["attempts"], {}), Step(Prepare, dir, files))
        ==> exists r :: r in RUN_FILES && Related(dir, outDir + r)
  {
    if dir < outDir + ["attempts"] {
      assert dir == (outDir + ["attempts"])[..|dir|] == outDir[..|dir|];
    }
    if dir <= outDir {
      assert ["trace.jsonl"] in RUN_FILES;
      Extends(dir, outDir, ["trace.jsonl"]);
    }
    AtOrAbove(dir, outDir);
  }

  lemma ClearOfOneMore(root: Dir, c: SuiteConfig, s: Supply, traces: Traces, n: nat, dir: Dir)
    requires n < |c.policies|
    ensures ClearOfPolicies(root, c, s, traces, n + 1, dir) <==> ClearOfPolicies(root, c, s, traces, n, dir) && PolicyClearOf(root, c, s, traces, n, dir)
  {
  }

  lemma {:induction false} PoliciesInTheWayIff(root: Dir, c: SuiteConfig, s: Supply, traces: Traces, n: nat, dir: Dir, files: set<Path>)
    requires n <= |c.policies| && RealTraces(traces)
    ensures NoneInTheWay(PoliciesSteps(root, c, s, traces, n), Step(Prepare, dir, files)) <==> ClearOfPolicies(root, c, s, traces, n, dir)
  {
    if n > 0 {
      PoliciesInTheWayIff(root, c, s, traces, n - 1, dir, files);
      RunsFlatSnoc(OpenTree(root), PolicyParts(root, c, s, traces), n - 1);
      NoneInTheWayConcat(PoliciesSteps(root, c, s, traces, n - 1), PolicySteps(root, c, s, traces, n - 1), Step(Prepare, dir, files));
      RunInTheWayIff(dir, PolicyDir(root, c, n - 1), PlanOf(c, s, n - 1), traces.attempts(c.policies[n - 1].name), files);
      ClearOfOneMore(root, c, s, traces, n - 1, dir);
    }
  }

  // ---------------------------------------------------------------- the suite

  function OpenTree(root: Dir): Tree {
    After(After(FreshTree(root), Step(Save, root, DECLARATION_FILE)), Step(Make, root + [POLICIES], {}))
  }

  lemma OpeningNames()
    ensures POLICIES != "eval_suite_declaration.json" && REPLAYS != "eval_suite_declaration.json" && POLICIES != REPLAYS
  {
  }

  lemma SuiteOpens(root: Dir)
    ensures Runs(FreshTree(root), SuiteOpening(root)) == Some(OpenTree(root))
  {
    var t, save, make := FreshTree(root), Step(Save, root, DECLARATION_FILE), Step(Make, root + [POLICIES], {});
    OpeningFits(root);
    RunsSnoc(t, [], save);
    RunsSnoc(t, [save], make);
    assert [] + [save] == [save] && [save] + [make] == SuiteOpening(root);
  }

  lemma OpeningFits(root: Dir)
    ensures Fits(FreshTree(root), Step(Save, root, DECLARATION_FILE)) && RealFiles(DECLARATION_FILE) && root in FreshTree(root).folders
    ensures Fits(After(FreshTree(root), Step(Save, root, DECLARATION_FILE)), Step(Make, root + [POLICIES], {}))
  {
    var t, save, make := FreshTree(root), Step(Save, root, DECLARATION_FILE), Step(Make, root + [POLICIES], {});
    OpeningNames();
    PrefixIs(root, root);
    forall r | r in DECLARATION_FILE ensures SaveFits(t, root + r) {
      PrefixIs(root + r, root);
    }
    forall f | f in After(t, save).files ensures !(f <= make.dir) {
      assert f == root + ["eval_suite_declaration.json"];
      Diverge(f, make.dir, |root|);
    }
  }

  /** The suite's steps, one part after the other. */
  lemma SuiteStepsAre(root: Dir, c: SuiteConfig, s: Supply, traces: Traces, replay: Replayer)
    ensures Runs(FreshTree(root), SuiteSteps(root, c, s, traces)) ==
      var ran := Runs(OpenTree(root), PoliciesSteps(root, c, s, traces, |c.policies|));
      if ran.Some? then Runs(ran.value, ReplaySteps(AllReplays(root, c.policies, replay), traces.replays)) else None
  {
    var policies := PoliciesSteps(root, c, s, traces, |c.policies|);
    SuiteOpens(root);
    RunsConcat(FreshTree(root), SuiteOpening(root), policies);
    RunsConcat(FreshTree(root), SuiteOpening(root) + policies, ReplaySteps(PlannedReplays(root, c), traces.replays));
    VerdictsDoNotMatter(root, c, replay, traces.replays);
  }

  /** At first nothing is in the way below the policies folder, nor below the replays folder. */
  lemma OpenTreeIsClear(root: Dir, dir: Dir, files: set<Path>, name: string)
    requires UnderFolder(dir, root, name) && name in {POLICIES, REPLAYS}
    ensures Fits(OpenTree(root), Step(Prepare, dir, files))
  {
    var t, save, make := FreshTree(root), Step(Save, root, DECLARATION_FILE), Step(Make, root + [POLICIES], {});
    var s := Step(Prepare, dir, files);
    OpeningNames();
    UnderIsBelow(dir, root, name);
    forall n | n in t.files + t.folders ensures !(dir < n) {
      PrefixIs(n, root);
    }
    FitsAfter(t, save, s);
    FitsAfter(After(t, save), make, s);
    forall r | r in DECLARATION_FILE ensures !Related(dir, root + r) {
      Diverge(dir, root + r, |root|);
    }
  }

  /** Names that fit give directories where they belong. */
  predicate InPlace(root: Dir, c: SuiteConfig, s: Supply) {
    && (forall i :: 0 <= i < |c.policies| ==> UnderFolder(PolicyDir(root, c, i), root, POLICIES) && AllUnderAttempts(PolicyDir(root, c, i), PlanOf(c, s, i)))
    && (forall v :: 0 <= v < |PlannedReplays(root, c)| ==> UnderFolder(PlannedReplays(root, c)[v].dir, root, REPLAYS))
  }

  lemma PolicyRunsIff(root: Dir, c: SuiteConfig, s: Supply, traces: Traces, n: nat, ran: Tree)
    requires n < |c.policies| && RealTraces(traces) && InPlace(root, c, s)
    requires Runs(OpenTree(root), PoliciesSteps(root, c, s, traces, n)) == Some(ran)
    ensures Runs(ran, PolicySteps(root, c, s, traces, n)).Some? <==> PolicyClear(root, c, s, traces, n)
  {
    var dir := PolicyDir(root, c, n);
    RunRunsIff(ran, dir, PlanOf(c, s, n), traces.attempts(c.policies[n].name));
    FitsAfterAll(OpenTree(root), PoliciesSteps(root, c, s, traces, n), Step(Prepare, dir, {}));
    OpenTreeIsClear(root, dir, {}, POLICIES);
    PoliciesInTheWayIff(root, c, s, traces, n, dir, {});
  }

  lemma EveryPolicyRunsIff(root: Dir, c: SuiteConfig, s: Supply, traces: Traces, parts: seq<seq<Step>>, flags: seq<bool>)
    requires RealTraces(traces) && InPlace(root, c, s)
    requires parts == PolicyParts(root, c, s, traces)
    requires |flags| == |c.policies| && forall n :: 0 <= n < |c.policies| ==> flags[n] == PolicyClear(root, c, s, traces, n)
    ensures forall m :: 0 <= m < |parts| ==> Tells(OpenTree(root), parts, m, flags[m])
  {
    forall m | 0 <= m < |parts| ensures Tells(OpenTree(root), parts, m, flags[m]) {
      if Runs(OpenTree(root), Flat(parts[..m])).Some? {
        PolicyRunsIff(root, c, s, traces, m, Runs(OpenTree(root), Flat(parts[..m])).value);
      }
    }
  }

  lemma PoliciesRunIff(root: Dir, c: SuiteConfig, s: Supply, traces: Traces)
    requires RealTraces(traces) && InPlace(root, c, s)
    ensures Runs(OpenTree(root), PoliciesSteps(root, c, s, traces, |c.policies|)).Some? <==> PoliciesClear(root, c, s, traces)
  {
    var parts := PolicyParts(root, c, s, traces);
    var flags := seq(|c.policies|, n requires 0 <= n < |c.policies| => PolicyClear(root, c, s, traces, n));
    EveryPolicyRunsIff(root, c, s, traces, parts, flags);
    RunsFlatIff(OpenTree(root), parts, flags, |c.policies|);
    FlagsMean(root, c, s, traces, flags);
  }

  lemma FlagsMean(root: Dir, c: SuiteConfig, s: Supply, traces: Traces, flags: seq<bool>)
    requires |flags| == |c.policies| && forall n :: 0 <= n < |c.policies| ==> flags[n] == PolicyClear(root, c, s, traces, n)
    ensures PoliciesClear(root, c, s, traces) <==> forall n :: 0 <= n < |flags| ==> flags[n]
  {
  }

  lemma PoliciesLeaveReplaysAlone(root: Dir, c: SuiteConfig, s: Supply, traces: Traces, dir: Dir, files: set<Path>)
    requires RealTraces(traces) && InPlace(root, c, s) && UnderFolder(dir, root, REPLAYS)
    ensures NoneInTheWay(PoliciesSteps(root, c, s, traces, |c.policies|), Step(Prepare, dir, files))
  {
    OpeningNames();
    PoliciesInTheWayIff(root, c, s, traces, |c.policies|, dir, files);
    forall i | 0 <= i < |c.policies|
      ensures PolicyClearOf(root, c, s, traces, i, dir)
    {
      var outDir, plan := PolicyDir(root, c, i), PlanOf(c, s, i);
      forall r: Path ensures !Related(dir, outDir + r) {
        assert (outDir + r)[|root|] == outDir[|root|];
        Diverge(dir, outDir + r, |root|);
      }
      forall k, r: Path | 0 <= k < |plan| ensures !Related(dir, AttemptDirectory(outDir, plan[k]) + r) {
        UnderIsBelow(AttemptDirectory(outDir, plan[k]), outDir, "attempts");
        assert AttemptDirectory(outDir, plan[k])[..|outDir|] == outDir;
        assert (AttemptDirectory(outDir, plan[k]) + r)[|root|] == outDir[|root|];
        Diverge(dir, AttemptDirectory(outDir, plan[k]) + r, |root|);
      }
    }
  }

  lemma ReplaysOrderlyIff(t: Tree, rs: seq<MatrixReplay>, leaves: ReplayLeaves)
    requires forall v :: 0 <= v < |rs| ==> Fits(t, ReplayStep(rs[v], leaves))
    ensures Runs(t, ReplaySteps(rs, leaves)).Some? <==> ReplaysClear(rs, leaves)
  {
    var steps := ReplaySteps(rs, leaves);
    RunsIffOrderly(t, steps);
    forall u, v | 0 <= u < v < |rs| ensures InTheWay(steps[u], steps[v]) <==> ReplayBlocked(rs, leaves, u, v) {
      assert ["trace.jsonl"] in steps[u].files;
      OnlyFilesMatter(steps[u], rs[v].dir, steps[v].files);
    }
    if Orderly(t, steps) {
      forall u, v | 0 <= u < v < |rs| ensures !ReplayBlocked(rs, leaves, u, v) {
        assert !InTheWay(steps[u], steps[v]);
      }
    }
  }

  /**
   A suite's directories can all be prepared exactly when no policy, attempt or replay is given a directory above, at
   or inside a file that an earlier policy run, attempt or replay left.
   */
  lemma SuiteStepsRunIff(root: Dir, c: SuiteConfig, s: Supply, traces: Traces)
    requires RealTraces(traces) && InPlace(root, c, s)
    ensures Runs(FreshTree(root), SuiteSteps(root, c, s, traces)).Some? <==> DirectoriesClear(root, c, s, traces)
  {
    var t, n := OpenTree(root), |c.policies|;
    var policies, rs := PoliciesSteps(root, c, s, traces, n), PlannedReplays(root, c);
    SuiteOpens(root);
    RunsConcat(FreshTree(root), SuiteOpening(root), policies);
    RunsConcat(FreshTree(root), SuiteOpening(root) + policies, ReplaySteps(rs, traces.replays));
    PoliciesRunIff(root, c, s, traces);
    if Runs(t, policies).Some? {
      forall v | 0 <= v < |rs| ensures Fits(Runs(t, policies).value, ReplayStep(rs[v], traces.replays)) {
        var step := ReplayStep(rs[v], traces.replays);
        OpenTreeIsClear(root, rs[v].dir, step.files, REPLAYS);
        PoliciesLeaveReplaysAlone(root, c, s, traces, rs[v].dir, step.files);
        FitsAfterAll(t, policies, step);
      }
      ReplaysOrderlyIff(Runs(t, policies).value, rs, traces.replays);
    }
  }

  lemma NamesThatFitAreInPlace(root: Dir, c: SuiteConfig, s: Supply)
    requires ValidConfig(c) && AllPolicyNamesFit(c.policies) && AllTaskIdsFit(c.tasks)
    ensures InPlace(root, c, s)
  {
    forall i | 0 <= i < |c.policies|
      ensures UnderFolder(PolicyDir(root, c, i), root, POLICIES) && AllUnderAttempts(PolicyDir(root, c, i), PlanOf(c, s, i))
    {
      PolicyDirIs(root, c, i);
      AttemptsAreInPlace(root, c, s, i);
    }
    var rs := PlannedReplays(root, c);
    forall v | 0 <= v < |rs| ensures UnderFolder(rs[v].dir, root, REPLAYS) {
      var i := EveryReplay(root, c.policies, (policy: string, i: nat) => ReplayVerdict.ReplayRun("", ReplayVerdict.ReplayError, []), v);
      ReplayDirIs(root, c.policies[i].name, rs[v].replayIndex);
    }
  }

  /** Components are told apart without regard to letters of any alphabet. */
  function NoLetters(): char -> bool {
    ch => false
  }

  lemma PolicyDirIs(root: Dir, c: SuiteConfig, i: nat)
    requires i < |c.policies| && PolicyNameFits(c.policies[i].name)
    ensures PolicyDir(root, c, i) == root + [POLICIES] + ArtifactRefs.Split(c.policies[i].name)
    ensures UnderFolder(PolicyDir(root, c, i), root, POLICIES)
  {
    var name := c.policies[i].name;
    PolicyRefAcceptedIff(name, NoLetters());
    DirectoryNames();
    ArtifactRefs.BehindFirst(POLICIES, name, NoLetters());
    FolderOf(root, POLICIES, ArtifactRefs.Split(name));
  }

  lemma ReplayDirIs(root: Dir, policy: string, index: nat)
    requires PolicyNameFits(policy)
    ensures ArtifactRefs.Resolve(root, ReplayRef(policy, index)) == root + [REPLAYS] + ArtifactRefs.Split(policy + ReplaySuffix(index))
    ensures UnderFolder(ArtifactRefs.Resolve(root, ReplayRef(policy, index)), root, REPLAYS)
  {
    PolicyRefAcceptedIff(policy, NoLetters());
    ReplayRefIsAccepted(policy, index, NoLetters());
    Regrouped(REPLAYS + "/", policy, ReplaySuffix(index));
    DirectoryNames();
    ArtifactRefs.BehindFirst(REPLAYS, policy + ReplaySuffix(index), NoLetters());
    FolderOf(root, REPLAYS, ArtifactRefs.Split(policy + ReplaySuffix(index)));
  }

  lemma Regrouped(a: string, b: string, d: string)
    ensures a + b + d == a + (b + d)
  {
  }

  lemma FolderOf(base: Dir, name: string, rest: seq<string>)
    requires |rest| > 0
    ensures base + ([name] + rest) == base + [name] + rest && UnderFolder(base + [name] + rest, base, name)
  {
  }

  lemma AttemptDirIs(outDir: Dir, task: string, index: nat)
    requires ArtifactRefs.PrefixFits(task)
    ensures ArtifactRefs.Resolve(outDir, AttemptDir(task, index)) == outDir + ["attempts"] + ArtifactRefs.Split(task + AttemptSuffix(index))
    ensures UnderFolder(ArtifactRefs.Resolve(outDir, AttemptDir(task, index)), outDir, "attempts")
  {
    AttemptDirAcceptedIff(task, index, NoLetters());
    SuffixedName(task, index);
    ArtifactRefs.BehindFirst("attempts", task + AttemptSuffix(index), NoLetters());
    FolderOf(outDir, "attempts", ArtifactRefs.Split(task + AttemptSuffix(index)));
  }

  lemma AttemptsAreInPlace(root: Dir, c: SuiteConfig, s: Supply, i: nat)
    requires i < |c.policies| && AllTaskIdsFit(c.tasks)
    ensures AllUnderAttempts(PolicyDir(root, c, i), PlanOf(c, s, i))
  {
    var plan := PlanOf(c, s, i);
    forall k | 0 <= k < |plan| ensures UnderFolder(AttemptDirectory(PolicyDir(root, c, i), plan[k]), PolicyDir(root, c, i), "attempts") {
      PlanEntries(c.tasks, c.policies[i].attempts, IdsFor(s, c.policies[i].name), k);
      AttemptDirIs(PolicyDir(root, c, i), plan[k].taskId, plan[k].attemptIndex);
    }
  }
}
