/**
 Configurations whose names make a valid declaration, and what their directories come to: plain names never meet, and
 every kind of directory can be taken by an earlier one.
 */
module SuiteDirectoryCases {
  import opened Wrappers
  import opened EvalPlan
  import opened EvalRun
  import opened ArtifactTree
  import opened EvalSuite
  import opened SuitePlanning
  import opened SuiteDirectories
  import ArtifactRefs
  import ReplayVerdict

  // ---------------------------------------------------------------- plain names

  predicate PlainNames(c: SuiteConfig) {
    && (forall i :: 0 <= i < |c.policies| ==> '/' !in c.policies[i].name && PolicyNameFits(c.policies[i].name))
    && (forall t :: 0 <= t < |c.tasks| ==> '/' !in c.tasks[t] && TaskIdFits(c.tasks[t]))
  }

  lemma DivergeBelow(base: Dir, name: string, other: string, p: Dir, q: Dir)
    requires base + [name] <= p && base + [other] <= q && name != other
    ensures !Related(p, q)
  {
    assert p[|base|] == (base + [name])[|base|] && q[|base|] == (base + [other])[|base|];
    Diverge(p, q, |base|);
  }

  lemma PlainPolicyDir(root: Dir, c: SuiteConfig, i: nat)
    requires i < |c.policies| && '/' !in c.policies[i].name && PolicyNameFits(c.policies[i].name)
    ensures PolicyDir(root, c, i) == root + [POLICIES] + [c.policies[i].name]
  {
    PolicyDirIs(root, c, i);
    ArtifactRefs.SplitOne(c.policies[i].name);
  }

  lemma PlainPoliciesClear(root: Dir, c: SuiteConfig, s: Supply, traces: Traces, i: nat, j: nat)
    requires ValidConfig(c) && PlainNames(c) && i < j < |c.policies|
    ensures PolicyClearOf(root, c, s, traces, i, PolicyDir(root, c, j))
  {
    var outDir, plan := PolicyDir(root, c, i), PlanOf(c, s, i);
    PlainPolicyDir(root, c, i);
    PlainPolicyDir(root, c, j);
    assert PolicyNames(c.policies)[i] != PolicyNames(c.policies)[j];
    forall r: Path ensures !Related(PolicyDir(root, c, j), outDir + r) {
      DivergeBelow(root + [POLICIES], c.policies[j].name, c.policies[i].name, PolicyDir(root, c, j), outDir + r);
    }
    forall k, r: Path | 0 <= k < |plan| ensures !Related(PolicyDir(root, c, j), AttemptDirectory(outDir, plan[k]) + r) {
      var rest := ArtifactRefs.PathParts(plan[k].artifactDir);
      assert AttemptDirectory(outDir, plan[k]) + r == outDir + (rest + r);
    }
  }

  lemma PlainAttemptDir(outDir: Dir, task: string, index: nat)
    requires '/' !in task && TaskIdFits(task)
    ensures ArtifactRefs.Resolve(outDir, AttemptDir(task, index)) == outDir + ["attempts"] + [AttemptName(task, index)]
  {
    AttemptDirIsAccepted(task, index, NoLetters());
  }

  lemma PlainAttemptsClear(root: Dir, c: SuiteConfig, s: Supply, traces: Traces, i: nat)
    requires ValidConfig(c) && PlainNames(c) && FreshIds(s) && i < |c.policies|
    ensures PolicyAttemptsClear(root, c, s, traces, i)
  {
    var outDir, plan := PolicyDir(root, c, i), PlanOf(c, s, i);
    PlannedAttemptsDiffer(c, c.policies[i], s);
    forall l, k | 0 <= l < k < |plan| ensures !AttemptBlocked(outDir, plan, traces.attempts(c.policies[i].name), l, k) {
      PlanEntries(c.tasks, c.policies[i].attempts, IdsFor(s, c.policies[i].name), l);
      PlanEntries(c.tasks, c.policies[i].attempts, IdsFor(s, c.policies[i].name), k);
      PlainAttemptDir(outDir, plan[l].taskId, plan[l].attemptIndex);
      PlainAttemptDir(outDir, plan[k].taskId, plan[k].attemptIndex);
      forall r: Path ensures !Related(AttemptDirectory(outDir, plan[k]), AttemptDirectory(outDir, plan[l]) + r) {
        DivergeBelow(outDir + ["attempts"], AttemptName(plan[k].taskId, plan[k].attemptIndex), AttemptName(plan[l].taskId, plan[l].attemptIndex),
                     AttemptDirectory(outDir, plan[k]), AttemptDirectory(outDir, plan[l]) + r);
      }
    }
  }

  lemma PlainReplayDir(root: Dir, policy: string, index: nat)
    requires '/' !in policy && PolicyNameFits(policy)
    ensures ArtifactRefs.Resolve(root, ReplayRef(policy, index)) == root + [REPLAYS] + [policy + ReplaySuffix(index)]
  {
    ReplayDirIs(root, policy, index);
    ArtifactRefs.SplitOne(policy + ReplaySuffix(index));
  }

  lemma SameReplayName(a: string, i: nat, b: string, j: nat)
    requires a + ReplaySuffix(i) == b + ReplaySuffix(j)
    ensures a == b && i == j
  {
    Regrouped(REPLAYS + "/", a, ReplaySuffix(i));
    Regrouped(REPLAYS + "/", b, ReplaySuffix(j));
    ReplayRefIsInjective(a, i, b, j);
  }

  lemma PlainReplaysClear(root: Dir, c: SuiteConfig, traces: Traces)
    requires ValidConfig(c) && PlainNames(c)
    ensures ReplaysClear(PlannedReplays(root, c), traces.replays)
  {
    var rs := PlannedReplays(root, c);
    var undecided := (policy: string, i: nat) => ReplayVerdict.ReplayRun("", ReplayVerdict.ReplayError, []);
    ReplayPairsAreUnique(root, c.policies, undecided);
    forall u, v | 0 <= u < v < |rs| ensures !ReplayBlocked(rs, traces.replays, u, v) {
      assert MatrixPairs(rs)[u] != MatrixPairs(rs)[v];
      var i := EveryReplay(root, c.policies, undecided, u);
      var j := EveryReplay(root, c.policies, undecided, v);
      PlainReplayDir(root, rs[u].policy, rs[u].replayIndex);
      PlainReplayDir(root, rs[v].policy, rs[v].replayIndex);
      var a, b := rs[u].policy + ReplaySuffix(rs[u].replayIndex), rs[v].policy + ReplaySuffix(rs[v].replayIndex);
      if a == b {
        SameReplayName(rs[u].policy, rs[u].replayIndex, rs[v].policy, rs[v].replayIndex);
        assert false;
      }
      forall r: Path ensures !Related(rs[v].dir, rs[u].dir + r) {
        DivergeBelow(root + [REPLAYS], b, a, rs[v].dir, rs[u].dir + r);
      }
    }
  }

  /** With names free of slashes no directory is ever in the way of another. */
  lemma PlainNamesAreClear(root: Dir, c: SuiteConfig, s: Supply, traces: Traces)
    requires ValidConfig(c) && PlainNames(c) && FreshIds(s)
    ensures DirectoriesClear(root, c, s, traces)
  {
    forall n | 0 <= n < |c.policies| ensures PolicyClear(root, c, s, traces, n) {
      PlainAttemptsClear(root, c, s, traces, n);
      forall i | 0 <= i < n ensures PolicyClearOf(root, c, s, traces, i, PolicyDir(root, c, n)) {
        PlainPoliciesClear(root, c, s, traces, i, n);
      }
    }
    PlainReplaysClear(root, c, traces);
  }

  // ---------------------------------------------------------------- directories already taken

  /** The names make a valid declaration. */
  predicate Declarable(c: SuiteConfig) {
    ValidConfig(c) && AllPolicyNamesFit(c.policies) && AllTaskIdsFit(c.tasks) && NoNamesOverlap(c)
  }

  lemma OneComponent(name: string)
    requires '/' !in name && ArtifactRefs.Ordinary(name)
    ensures ArtifactRefs.Split(name) == [name] && PolicyNameFits(name)
  {
    ArtifactRefs.SplitOne(name);
  }

  lemma TwoComponents(a: string, b: string)
    requires '/' !in a && '/' !in b && ArtifactRefs.Ordinary(a) && ArtifactRefs.Ordinary(b)
    ensures ArtifactRefs.Split(a + "/" + b) == [a, b] && PolicyNameFits(a + "/" + b)
  {
    ArtifactRefs.SplitOne(b);
    ArtifactRefs.SplitCons(a, b);
  }

  lemma PlainTaskFits(task: string)
    requires '/' !in task && ArtifactRefs.Ordinary(task)
    ensures TaskIdFits(task)
  {
    ArtifactRefs.SplitOne(task);
  }

  lemma TwoPoliciesDeclarable(a: string, b: string, kind: PolicyType)
    requires a != b && PolicyNameFits(a) && PolicyNameFits(b)
    ensures Declarable(TwoPolicies(a, b, ["t"], kind))
  {
    var c := TwoPolicies(a, b, ["t"], kind);
    assert PolicyNames(c.policies) == [a, b];
    PlainTaskFits("t");
    SlashFreeTasksNeverOverlap(c);
  }

  lemma SecondPolicyTaken(root: Dir, c: SuiteConfig, s: Supply, traces: Traces, r: Path)
    requires |c.policies| >= 2
    requires r in RUN_FILES && Related(PolicyDir(root, c, 1), PolicyDir(root, c, 0) + r)
    ensures !DirectoriesClear(root, c, s, traces)
  {
    assert BlockedByRun(PolicyDir(root, c, 1), PolicyDir(root, c, 0), PlanOf(c, s, 0), traces.attempts(c.policies[0].name));
    assert !PolicyClearOf(root, c, s, traces, 0, PolicyDir(root, c, 1));
    assert !PolicyClear(root, c, s, traces, 1);
  }

  /** A policy after one that is named below it: its directory holds the other's. */
  lemma ParentPolicyIsTaken(root: Dir, kind: PolicyType, s: Supply, traces: Traces)
    ensures var c := TwoPolicies("a" + "/" + "b", "a", ["t"], kind); Declarable(c) && !DirectoriesClear(root, c, s, traces)
  {
    var c := TwoPolicies("a" + "/" + "b", "a", ["t"], kind);
    OneComponent("a");
    TwoComponents("a", "b");
    assert |"a" + "/" + "b"| == 3;
    TwoPoliciesDeclarable("a" + "/" + "b", "a", kind);
    PolicyDirIs(root, c, 0);
    PolicyDirIs(root, c, 1);
    var first, second := PolicyDir(root, c, 0), PolicyDir(root, c, 1);
    assert first == second + ["b"];
    assert first + ["trace.jsonl"] == second + (["b"] + ["trace.jsonl"]);
    SecondPolicyTaken(root, c, s, traces, ["trace.jsonl"]);
  }

  lemma AttemptsPassChild(first: Dir, second: Dir, newId: (string, nat) -> string)
    requires second == first + ["b"]
    ensures var plan := NewPlan(["t"], 1, newId);
      forall k, r: Path :: 0 <= k < |plan| ==> !Related(second, AttemptDirectory(first, plan[k]) + r)
  {
    var plan := NewPlan(["t"], 1, newId);
    PlainTaskFits("t");
    forall k, r: Path | 0 <= k < |plan| ensures !Related(second, AttemptDirectory(first, plan[k]) + r) {
      PlanEntries(["t"], 1, newId, k);
      AttemptDirIs(first, "t", plan[k].attemptIndex);
      UnderIsBelow(AttemptDirectory(first, plan[k]), first, "attempts");
      Extends(first + ["attempts"], AttemptDirectory(first, plan[k]), r);
      DivergeBelow(first, "b", "attempts", second, AttemptDirectory(first, plan[k]) + r);
    }
  }

  /** The other way round the second directory is new, although it lies inside the first. */
  lemma ChildPolicyIsFree(root: Dir, kind: PolicyType, s: Supply, traces: Traces)
    requires FreshIds(s)
    ensures var c := TwoPolicies("a", "a" + "/" + "b", ["t"], kind); Declarable(c) && DirectoriesClear(root, c, s, traces)
  {
    var c := TwoPolicies("a", "a" + "/" + "b", ["t"], kind);
    OneComponent("a");
    TwoComponents("a", "b");
    assert |"a" + "/" + "b"| == 3;
    TwoPoliciesDeclarable("a", "a" + "/" + "b", kind);
    PolicyDirIs(root, c, 0);
    PolicyDirIs(root, c, 1);
    var first, second := PolicyDir(root, c, 0), PolicyDir(root, c, 1);
    assert second == first + ["b"];
    forall r | r in RUN_FILES ensures !Related(second, first + r) {
      DivergeBelow(first, "b", r[0], second, first + r);
    }
    AttemptsPassChild(first, second, IdsFor(s, "a"));
    assert PlanOf(c, s, 0) == NewPlan(["t"], 1, IdsFor(s, "a"));
    assert PolicyClearOf(root, c, s, traces, 0, second);
    SingleTaskAttemptsClear(root, c, s, traces, 0);
    SingleTaskAttemptsClear(root, c, s, traces, 1);
    NoReplays(root, c);
  }

  /** One attempt is in nobody's way. */
  lemma SingleTaskAttemptsClear(root: Dir, c: SuiteConfig, s: Supply, traces: Traces, i: nat)
    requires i < |c.policies| && |c.tasks| == 1 && c.policies[i].attempts == 1
    ensures PolicyAttemptsClear(root, c, s, traces, i)
  {
    var newId := IdsFor(s, c.policies[i].name);
    assert c.tasks[..0] == [] && NewPlan(c.tasks[..0], 1, newId) == [];
    assert NewPlan(c.tasks, 1, newId) == NewPlan(c.tasks[..|c.tasks| - 1], 1, newId) + PlannedFor(c.tasks[0], 1, newId);
    assert PlanOf(c, s, i) == NewPlan(c.tasks, 1, newId);
  }

  lemma NoReplays(root: Dir, c: SuiteConfig)
    requires |c.policies| == 2 && c.policies[0].repeats == 0 && c.policies[1].repeats == 0
    ensures PlannedReplays(root, c) == []
  {
    var undecided := (policy: string, i: nat) => ReplayVerdict.ReplayRun("", ReplayVerdict.ReplayError, []);
    AllReplaysSnoc(root, c.policies, undecided, 0);
    AllReplaysSnoc(root, c.policies, undecided, 1);
    assert c.policies[..0] == [] && c.policies[..2] == c.policies;
  }

  /** A policy named into the first one's attempts folder. */
  lemma AttemptsFolderIsTaken(root: Dir, kind: PolicyType, s: Supply, traces: Traces)
    requires FreshIds(s) && RealTraces(traces)
    ensures var c := TwoPolicies("a", "a" + "/" + "attempts", ["t"], kind); Declarable(c) && !DirectoriesClear(root, c, s, traces)
  {
    var c := TwoPolicies("a", "a" + "/" + "attempts", ["t"], kind);
    OneComponent("a");
    TwoComponents("a", "attempts");
    assert |"a" + "/" + "attempts"| == 10;
    TwoPoliciesDeclarable("a", "a" + "/" + "attempts", kind);
    PolicyDirIs(root, c, 0);
    PolicyDirIs(root, c, 1);
    var first, second := PolicyDir(root, c, 0), PolicyDir(root, c, 1);
    assert second == first + ["attempts"];
    var plan, leaves := PlanOf(c, s, 0), traces.attempts("a");
    var k := FirstAttemptOf(c, c.policies[0], s, 0);
    AttemptDirIs(first, "t", 0);
    var r :| r in leaves(plan[k]);
    UnderIsBelow(AttemptDirectory(first, plan[k]), first, "attempts");
    Extends(second, AttemptDirectory(first, plan[k]), r);
    assert BlockedByRun(second, first, plan, leaves);
    assert !PolicyClearOf(root, c, s, traces, 0, second);
    assert !PolicyClear(root, c, s, traces, 1);
  }

  /** A policy named after a file of the first one's run. */
  lemma RunFileIsTaken(root: Dir, kind: PolicyType, s: Supply, traces: Traces)
    ensures var c := TwoPolicies("a", "a" + "/" + "manifest.json", ["t"], kind); Declarable(c) && !DirectoriesClear(root, c, s, traces)
  {
    var c := TwoPolicies("a", "a" + "/" + "manifest.json", ["t"], kind);
    OneComponent("a");
    TwoComponents("a", "manifest.json");
    assert |"a" + "/" + "manifest.json"| == 15;
    TwoPoliciesDeclarable("a", "a" + "/" + "manifest.json", kind);
    PolicyDirIs(root, c, 0);
    PolicyDirIs(root, c, 1);
    assert PolicyDir(root, c, 1) == PolicyDir(root, c, 0) + ["manifest.json"];
    SecondPolicyTaken(root, c, s, traces, ["manifest.json"]);
  }

  /** A task whose attempt directory holds that of a task named below it. */
  lemma ParentAttemptIsTaken(root: Dir, kind: PolicyType, s: Supply, traces: Traces)
    requires FreshIds(s) && RealTraces(traces)
    ensures var c := SuiteConfig([AttemptName("x", 0) + "/" + "y", "x"], [PolicyConfig("a", kind, 1, 0)]);
      Declarable(c) && !DirectoriesClear(root, c, s, traces)
  {
    var name := AttemptName("x", 0);
    var c := SuiteConfig([name + "/" + "y", "x"], [PolicyConfig("a", kind, 1, 0)]);
    OneComponent("a");
    assert name == "x" + AttemptSuffix(0);
    assert '/' !in name && ArtifactRefs.Ordinary(name);
    TwoComponents(name, "y");
    PlainTaskFits("x");
    SlashedTaskFits(name, "y");
    assert |name + "/" + "y"| > 1;
    var outDir, plan, leaves := PolicyDir(root, c, 0), PlanOf(c, s, 0), traces.attempts("a");
    var l := FirstAttemptOf(c, c.policies[0], s, 0);
    var k := FirstAttemptOf(c, c.policies[0], s, 1);
    NestedAttempt(outDir, name, "y");
    PlainAttemptDir(outDir, "x", 0);
    TwoTasksInOrder(c, s, l, k);
    var r :| r in leaves(plan[l]);
    Extends(AttemptDirectory(outDir, plan[k]), AttemptDirectory(outDir, plan[l]), r);
    assert AttemptBlocked(outDir, plan, leaves, l, k);
    assert !PolicyAttemptsClear(root, c, s, traces, 0);
    assert !PolicyClear(root, c, s, traces, 0);
  }

  lemma SlashedTaskFits(a: string, b: string)
    requires '/' !in a && '/' !in b && ArtifactRefs.Ordinary(a) && ArtifactRefs.Ordinary(b)
    ensures TaskIdFits(a + "/" + b)
  {
    TwoComponents(a, b);
    var task := a + "/" + b;
    assert task[|a|] == '/';
    assert '\\' !in task;
  }

  lemma NestedAttempt(outDir: Dir, a: string, b: string)
    requires '/' !in a && '/' !in b && ArtifactRefs.Ordinary(a) && ArtifactRefs.Ordinary(b)
    ensures ArtifactRefs.Resolve(outDir, AttemptDir(a + "/" + b, 0)) == outDir + ["attempts"] + [a, b + AttemptSuffix(0)]
  {
    SlashedTaskFits(a, b);
    AttemptDirIs(outDir, a + "/" + b, 0);
    assert a + "/" + b + AttemptSuffix(0) == a + "/" + (b + AttemptSuffix(0));
    ArtifactRefs.SplitOne(b + AttemptSuffix(0));
    ArtifactRefs.SplitCons(a, b + AttemptSuffix(0));
  }

  lemma TwoTasksInOrder(c: SuiteConfig, s: Supply, l: nat, k: nat)
    requires |c.policies| == 1 && c.policies[0].attempts == 1 && |c.tasks| == 2 && c.tasks[0] != c.tasks[1]
    requires l < |PlanOf(c, s, 0)| && k < |PlanOf(c, s, 0)|
    requires PlanOf(c, s, 0)[l].taskId == c.tasks[0] && PlanOf(c, s, 0)[k].taskId == c.tasks[1]
    ensures l < k
  {
    var newId := IdsFor(s, c.policies[0].name);
    assert c.tasks[..1] == [c.tasks[0]] && c.tasks[..1][..0] == [];
    assert NewPlan(c.tasks, 1, newId) == NewPlan(c.tasks[..1], 1, newId) + PlannedFor(c.tasks[1], 1, newId);
    assert NewPlan(c.tasks[..1], 1, newId) == NewPlan([], 1, newId) + PlannedFor(c.tasks[0], 1, newId);
    assert PlanOf(c, s, 0)[0].taskId == c.tasks[0] && PlanOf(c, s, 0)[1].taskId == c.tasks[1];
  }

  /** A replay whose directory holds that of a policy named below it. */
  lemma ParentReplayIsTaken(root: Dir, kind: PolicyType, s: Supply, traces: Traces)
    ensures var below := "a" + ReplaySuffix(0) + "/" + "b";
      var c := SuiteConfig(["t"], [PolicyConfig(below, kind, 1, 1), PolicyConfig("a", kind, 1, 1)]);
      Declarable(c) && !DirectoriesClear(root, c, s, traces)
  {
    var name := "a" + ReplaySuffix(0);
    var below := name + "/" + "b";
    var c := SuiteConfig(["t"], [PolicyConfig(below, kind, 1, 1), PolicyConfig("a", kind, 1, 1)]);
    OneComponent("a");
    assert '/' !in name && ArtifactRefs.Ordinary(name);
    TwoComponents(name, "b");
    assert |below| > 1;
    assert PolicyNames(c.policies) == [below, "a"];
    PlainTaskFits("t");
    SlashFreeTasksNeverOverlap(c);
    NestedReplay(root, name, "b");
    PlainReplayDir(root, "a", 0);
    var rs := PlannedReplays(root, c);
    TwoReplays(root, c);
    assert rs[0].dir == rs[1].dir + ["b" + ReplaySuffix(0)];
    var r := ["trace.jsonl"];
    Extends(rs[1].dir, rs[0].dir, r);
    assert r in ReplayFiles(traces.replays(rs[0].policy, rs[0].replayIndex));
    assert ReplayBlocked(rs, traces.replays, 0, 1);
  }

  lemma NestedReplay(root: Dir, a: string, b: string)
    requires '/' !in a && '/' !in b && ArtifactRefs.Ordinary(a) && ArtifactRefs.Ordinary(b)
    ensures ArtifactRefs.Resolve(root, ReplayRef(a + "/" + b, 0)) == root + [REPLAYS] + [a, b + ReplaySuffix(0)]
  {
    TwoComponents(a, b);
    ReplayDirIs(root, a + "/" + b, 0);
    assert a + "/" + b + ReplaySuffix(0) == a + "/" + (b + ReplaySuffix(0));
    ArtifactRefs.SplitOne(b + ReplaySuffix(0));
    ArtifactRefs.SplitCons(a, b + ReplaySuffix(0));
  }

  lemma TwoReplays(root: Dir, c: SuiteConfig)
    requires |c.policies| == 2 && c.policies[0].repeats == 1 && c.policies[1].repeats == 1
    ensures var rs := PlannedReplays(root, c);
      && |rs| == 2
      && rs[0].dir == ArtifactRefs.Resolve(root, ReplayRef(c.policies[0].name, 0))
      && rs[1].dir == ArtifactRefs.Resolve(root, ReplayRef(c.policies[1].name, 0))
  {
    var undecided := (policy: string, i: nat) => ReplayVerdict.ReplayRun("", ReplayVerdict.ReplayError, []);
    AllReplaysSnoc(root, c.policies, undecided, 0);
    AllReplaysSnoc(root, c.policies, undecided, 1);
    assert c.policies[..0] == [] && c.policies[..2] == c.policies;
  }
}
