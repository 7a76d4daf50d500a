/**
 Declaring a suite before it runs: every policy, every attempt, every directory, without repetition.  The validator
 accepts the plan of exactly those configurations whose names pass three tests.
 */
module SuitePlanning {
  import opened Wrappers
  import opened EvalPlan
  import EvalRun
  import EvalSuite
  import opened SuiteDeclaration
  import AgentAttempt
  import ArtifactRefs
  import Decimal

  // ---------------------------------------------------------------- the contract

  /** PlannedEvalAttempt. */
  predicate ValidPlannedAttempt(a: PlannedAttempt, isAlpha: char -> bool) {
    a.taskId != "" && ArtifactRefs.Accepted(a.artifactDir, isAlpha)
  }

  /** PlannedEvalPolicyRun. */
  predicate ValidPlannedRun(p: PlannedPolicyRun, isAlpha: char -> bool) {
    && p.policy != "" && ArtifactRefs.Accepted(p.artifactDir, isAlpha)
    && (forall i :: 0 <= i < |p.plannedAttempts| ==> ValidPlannedAttempt(p.plannedAttempts[i], isAlpha))
    && BothOrNeither(p) && p.plannedAttempts != []
    && (forall i, j :: 0 <= i < j < |p.plannedAttempts| ==>
          p.plannedAttempts[i].evalAttemptId != p.plannedAttempts[j].evalAttemptId
          && p.plannedAttempts[i].artifactDir != p.plannedAttempts[j].artifactDir)
  }

  function AttemptPath(p: PlannedPolicyRun, k: nat): string
    requires k < |p.plannedAttempts|
  {
    p.artifactDir + "/" + p.plannedAttempts[k].artifactDir
  }

  /** Attempts at different places of the declaration have different ids and different paths. */
  predicate DistinctAttempts(runs: seq<PlannedPolicyRun>) {
    forall i, j, k, l :: 0 <= i < j < |runs| && 0 <= k < |runs[i].plannedAttempts| && 0 <= l < |runs[j].plannedAttempts| ==>
      && runs[i].plannedAttempts[k].evalAttemptId != runs[j].plannedAttempts[l].evalAttemptId
      && AttemptPath(runs[i], k) != AttemptPath(runs[j], l)
  }

  /** EvalSuiteDeclaration. */
  predicate ValidDeclaration(runs: seq<PlannedPolicyRun>, isAlpha: char -> bool) {
    && runs != [] && (forall i :: 0 <= i < |runs| ==> ValidPlannedRun(runs[i], isAlpha))
    && (forall i, j :: 0 <= i < j < |runs| ==>
          runs[i].policy != runs[j].policy && runs[i].evalRunId != runs[j].evalRunId && runs[i].artifactDir != runs[j].artifactDir)
    && DistinctAttempts(runs)
  }

  // ---------------------------------------------------------------- the builder

  /** Fresh ids, and the model inputs prepared for each agent-model policy. */
  datatype Supply = Supply(
    runId: string -> string,
    attemptId: (string, string, nat) -> string,
    inputs: string -> Option<(AgentAttempt.Provenance, AgentAttempt.Provenance)>)

  function PlanPolicy(c: EvalSuite.SuiteConfig, p: EvalSuite.PolicyConfig, s: Supply): PlannedPolicyRun {
    var inputs := s.inputs(p.name);
    PlannedPolicyRun(p.name, s.runId(p.name), EvalSuite.PolicyRef(p.name),
                     if inputs.Some? then Some(inputs.value.0) else None, if inputs.Some? then Some(inputs.value.1) else None,
                     NewPlan(c.tasks, p.attempts, IdsFor(s, p.name)))
  }

  function IdsFor(s: Supply, policy: string): (string, nat) -> string {
    (task: string, i: nat) => s.attemptId(policy, task, i)
  }

  /** _build_eval_suite_declaration. */
  method BuildDeclaration(c: EvalSuite.SuiteConfig, s: Supply) returns (runs: seq<PlannedPolicyRun>)
    ensures runs == PlanAll(c, s)
  {
    runs := [];
    for i := 0 to |c.policies|
      invariant |runs| == i && forall k :: 0 <= k < i ==> runs[k] == PlanPolicy(c, c.policies[k], s)
    {
      runs := runs + [PlanPolicy(c, c.policies[i], s)];
    }
  }

  function PlanAll(c: EvalSuite.SuiteConfig, s: Supply): seq<PlannedPolicyRun> {
    seq(|c.policies|, i requires 0 <= i < |c.policies| => PlanPolicy(c, c.policies[i], s))
  }

  ghost predicate FreshIds(s: Supply) {
    && (forall a, b :: s.runId(a) == s.runId(b) ==> a == b)
    && (forall a, t, i, b, u, j :: s.attemptId(a, t, i) == s.attemptId(b, u, j) ==> a == b && t == u && i == j)
  }

  // ---------------------------------------------------------------- paths across policies

  function JoinedPath(policy: string, task: string, index: nat): string {
    EvalSuite.PolicyRef(policy) + "/" + AttemptDir(task, index)
  }

  function PathStem(policy: string, task: string): string {
    EvalSuite.PolicyRef(policy) + "/" + "attempts/" + task
  }

  lemma JoinedPathIsNumbered(policy: string, task: string, index: nat)
    ensures JoinedPath(policy, task, index) == PathStem(policy, task) + "__attempt" + "_" + Decimal.Padded(index + 1, 3)
  {
    NumberedName(task, index);
  }

  const ATTEMPTS := "/attempts"

  /** The second policy's name ends in what the first one's attempts begin with. */
  predicate NamesOverlap(p1: string, t1: string, p2: string, t2: string) {
    var n := |p1| + |ATTEMPTS|;
    |p2| >= n && p2[..n] == p1 + ATTEMPTS && "/" + t1 == p2[n..] + ATTEMPTS + "/" + t2
  }

  /** Two attempts share a path exactly when they share the index and their names are the same or overlap. */
  lemma PathsCollideIff(p1: string, t1: string, i1: nat, p2: string, t2: string, i2: nat)
    ensures JoinedPath(p1, t1, i1) == JoinedPath(p2, t2, i2) <==>
      i1 == i2 && ((p1 == p2 && t1 == t2) || NamesOverlap(p1, t1, p2, t2) || NamesOverlap(p2, t2, p1, t1))
  {
    JoinedPathIsNumbered(p1, t1, i1);
    JoinedPathIsNumbered(p2, t2, i2);
    if JoinedPath(p1, t1, i1) == JoinedPath(p2, t2, i2) {
      NumberedNameIsInjective(PathStem(p1, t1), "__attempt", i1, PathStem(p2, t2), i2);
    }
    StemIs(p1, t1);
    StemIs(p2, t2);
    UnderPolicies(p1 + (ATTEMPTS + "/" + t1), p2 + (ATTEMPTS + "/" + t2));
    if |p1| <= |p2| {
      StemsAgreeIff(p1, t1, p2, t2);
    } else {
      StemsAgreeIff(p2, t2, p1, t1);
    }
  }

  lemma StemIs(policy: string, task: string)
    ensures PathStem(policy, task) == EvalSuite.POLICIES + "/" + (policy + (ATTEMPTS + "/" + task))
  {
    assert "/" + "attempts/" == ATTEMPTS + "/";
    assert EvalSuite.PolicyRef(policy) + "/" + "attempts/" + task == EvalSuite.PolicyRef(policy) + ("/" + "attempts/") + task;
  }

  lemma UnderPolicies(a: string, b: string)
    ensures EvalSuite.POLICIES + "/" + a == EvalSuite.POLICIES + "/" + b <==> a == b
  {
    var p := EvalSuite.POLICIES + "/";
    assert (p + a)[|p|..] == a && (p + b)[|p|..] == b;
  }

  lemma StemsAgreeIff(p1: string, t1: string, p2: string, t2: string)
    requires |p1| <= |p2|
    ensures p1 + (ATTEMPTS + "/" + t1) == p2 + (ATTEMPTS + "/" + t2) <==>
      (p1 == p2 && t1 == t2) || NamesOverlap(p1, t1, p2, t2)
    ensures !NamesOverlap(p2, t2, p1, t1)
  {
    var a, b := p1 + (ATTEMPTS + "/" + t1), p2 + (ATTEMPTS + "/" + t2);
    if NamesOverlap(p1, t1, p2, t2) {
      OverlapAgrees(p1, t1, p2, t2);
    }
    if a == b {
      if |p1| == |p2| {
        assert p1 == a[..|p1|] && p2 == b[..|p2|];
        assert ATTEMPTS + "/" + t1 == a[|p1|..] && ATTEMPTS + "/" + t2 == b[|p2|..];
        SameTask(t1, t2);
      } else {
        AgreementOverlaps(p1, t1, p2, t2);
      }
    }
  }

  lemma SameTask(t1: string, t2: string)
    requires ATTEMPTS + "/" + t1 == ATTEMPTS + "/" + t2
    ensures t1 == t2
  {
    var m := ATTEMPTS + "/";
    assert (m + t1)[|m|..] == t1 && (m + t2)[|m|..] == t2;
  }

  lemma OverlapAgrees(p1: string, t1: string, p2: string, t2: string)
    requires NamesOverlap(p1, t1, p2, t2)
    ensures p1 + (ATTEMPTS + "/" + t1) == p2 + (ATTEMPTS + "/" + t2)
  {
    var n := |p1| + |ATTEMPTS|;
    assert p2 == p2[..n] + p2[n..];
    assert p1 + (ATTEMPTS + "/" + t1) == p1 + ATTEMPTS + ("/" + t1);
    assert p2 + (ATTEMPTS + "/" + t2) == p2[..n] + (p2[n..] + ATTEMPTS + "/" + t2);
  }

  /** Only its first character is a slash, so the marker cannot begin inside itself. */
  lemma AgreementOverlaps(p1: string, t1: string, p2: string, t2: string)
    requires |p1| < |p2| && p1 + (ATTEMPTS + "/" + t1) == p2 + (ATTEMPTS + "/" + t2)
    ensures NamesOverlap(p1, t1, p2, t2)
  {
    var a, b := p1 + (ATTEMPTS + "/" + t1), p2 + (ATTEMPTS + "/" + t2);
    var n := |p1| + |ATTEMPTS|;
    assert b[|p2|] == ATTEMPTS[0] == '/';
    if |p2| < n {
      assert a[|p2|] == ATTEMPTS[|p2| - |p1|];
      MarkerHasOneSlash(|p2| - |p1|);
      assert false;
    }
    assert b[..n] == p2[..n] && a[..n] == p1 + ATTEMPTS;
    assert a[n..] == "/" + t1 && b[n..] == p2[n..] + (ATTEMPTS + "/" + t2);
    assert p2[n..] + (ATTEMPTS + "/" + t2) == p2[n..] + ATTEMPTS + "/" + t2;
  }

  lemma MarkerHasOneSlash(i: nat)
    requires 0 < i < |ATTEMPTS|
    ensures ATTEMPTS[i] != '/'
  {
  }

  /** Overlapping needs a slash in the first task id. */
  lemma OverlapHasSlash(p1: string, t1: string, p2: string, t2: string)
    requires NamesOverlap(p1, t1, p2, t2)
    ensures '/' in t1
  {
    var y := p2[|p1| + |ATTEMPTS|..];
    var s := y + ATTEMPTS + "/" + t2;
    assert s[|y| + |ATTEMPTS|] == '/';
    assert ("/" + t1)[|y| + |ATTEMPTS|] == t1[|y| + |ATTEMPTS| - 1];
  }

  // ---------------------------------------------------------------- names that make references

  /** Components of an ordinary path. */
  predicate PolicyNameFits(name: string) {
    ArtifactRefs.AllOrdinary(ArtifactRefs.Split(name))
  }

  /** The last component gets a suffix, so it may be anything but must not hold a backslash. */
  predicate TaskIdFits(task: string) {
    task != "" && ArtifactRefs.PrefixFits(task)
  }

  lemma PolicyRefAcceptedIff(name: string, isAlpha: char -> bool)
    ensures ArtifactRefs.Accepted(EvalSuite.PolicyRef(name), isAlpha) <==> PolicyNameFits(name)
    ensures PolicyNameFits(name) ==> name != ""
  {
    assert name == "" ==> ArtifactRefs.Split(name)[0] == "";
    if ArtifactRefs.Accepted(EvalSuite.PolicyRef(name), isAlpha) {
      ArtifactRefs.BehindFirst(EvalSuite.POLICIES, name, isAlpha);
    }
    if PolicyNameFits(name) {
      ArtifactRefs.JoinSplit(name);
      ArtifactRefs.OrdinaryBelow(EvalSuite.POLICIES, ArtifactRefs.Split(name), isAlpha);
    }
  }

  lemma AttemptDirAcceptedIff(task: string, index: nat, isAlpha: char -> bool)
    ensures ArtifactRefs.Accepted(AttemptDir(task, index), isAlpha) <==> ArtifactRefs.PrefixFits(task)
  {
    SuffixedName(task, index);
    ArtifactRefs.SuffixedBelowIff("attempts", task, AttemptSuffix(index), isAlpha);
  }

  function AttemptSuffix(index: nat): (suffix: string)
    ensures ArtifactRefs.Ordinary(suffix) && |suffix| >= 3
  {
    var numeral := Decimal.Padded(index + 1, 3);
    assert forall i :: 0 <= i < |numeral| ==> Decimal.IsDigit(numeral[i]);
    var suffix := "__attempt_" + numeral;
    assert suffix[0] == '_';
    suffix
  }

  lemma SuffixedName(task: string, index: nat)
    ensures AttemptDir(task, index) == "attempts" + "/" + (task + AttemptSuffix(index))
  {
    assert "attempts" + "/" == "attempts/";
    assert "__attempt" + "_" == "__attempt_";
    NumberedName(task, index);
  }

  // ---------------------------------------------------------------- the declaration is valid

  lemma {:induction false} PlanEntries(tasks: seq<string>, n: nat, newId: (string, nat) -> string, k: nat)
    requires k < |NewPlan(tasks, n, newId)|
    ensures var a := NewPlan(tasks, n, newId)[k];
      a.taskId in tasks && a.attemptIndex < n && a.evalAttemptId == newId(a.taskId, a.attemptIndex)
      && a.artifactDir == AttemptDir(a.taskId, a.attemptIndex)
  {
    var rest := |tasks| - 1;
    if k < |NewPlan(tasks[..rest], n, newId)| {
      PlanEntries(tasks[..rest], n, newId, k);
    }
  }

  predicate AllTaskIdsFit(tasks: seq<string>) {
    forall t :: 0 <= t < |tasks| ==> TaskIdFits(tasks[t])
  }

  predicate AllPolicyNamesFit(policies: seq<EvalSuite.PolicyConfig>) {
    forall i :: 0 <= i < |policies| ==> PolicyNameFits(policies[i].name)
  }

  /** No two policies with any two tasks have overlapping names. */
  predicate NoNamesOverlap(c: EvalSuite.SuiteConfig) {
    forall i, j, t, u :: 0 <= i < |c.policies| && 0 <= j < |c.policies| && i != j && 0 <= t < |c.tasks| && 0 <= u < |c.tasks| ==>
      !NamesOverlap(c.policies[i].name, c.tasks[t], c.policies[j].name, c.tasks[u])
  }

  lemma PlannedPolicyIsValidIff(c: EvalSuite.SuiteConfig, p: EvalSuite.PolicyConfig, s: Supply, isAlpha: char -> bool)
    requires EvalSuite.ValidConfig(c) && p.attempts > 0 && FreshIds(s)
    ensures ValidPlannedRun(PlanPolicy(c, p, s), isAlpha) <==> PolicyNameFits(p.name) && AllTaskIdsFit(c.tasks)
  {
    PlannedAttemptsDiffer(c, p, s);
    PolicyRefAcceptedIff(p.name, isAlpha);
    PlannedReferencesFitIff(c, p, s, isAlpha);
  }

  lemma PlannedReferencesFitIff(c: EvalSuite.SuiteConfig, p: EvalSuite.PolicyConfig, s: Supply, isAlpha: char -> bool)
    requires EvalSuite.ValidConfig(c) && p.attempts > 0
    ensures var plan := PlanPolicy(c, p, s).plannedAttempts;
      (forall k :: 0 <= k < |plan| ==> ValidPlannedAttempt(plan[k], isAlpha)) <==> AllTaskIdsFit(c.tasks)
  {
    var plan := PlanPolicy(c, p, s).plannedAttempts;
    if forall k :: 0 <= k < |plan| ==> ValidPlannedAttempt(plan[k], isAlpha) {
      forall t | 0 <= t < |c.tasks| ensures TaskIdFits(c.tasks[t]) {
        var k := FirstAttemptOf(c, p, s, t);
        assert ValidPlannedAttempt(plan[k], isAlpha);
        AttemptDirAcceptedIff(c.tasks[t], 0, isAlpha);
      }
    }
    if AllTaskIdsFit(c.tasks) {
      forall k | 0 <= k < |plan| ensures ValidPlannedAttempt(plan[k], isAlpha) {
        PlanEntries(c.tasks, p.attempts, IdsFor(s, p.name), k);
        var t :| 0 <= t < |c.tasks| && c.tasks[t] == plan[k].taskId;
        AttemptDirAcceptedIff(plan[k].taskId, plan[k].attemptIndex, isAlpha);
      }
    }
  }

  /** Every task's first attempt is in the plan. */
  lemma FirstAttemptOf(c: EvalSuite.SuiteConfig, p: EvalSuite.PolicyConfig, s: Supply, t: nat) returns (k: nat)
    requires EvalSuite.ValidConfig(c) && p.attempts > 0 && t < |c.tasks|
    ensures var plan := PlanPolicy(c, p, s).plannedAttempts;
      k < |plan| && plan[k].taskId == c.tasks[t] && plan[k].attemptIndex == 0 && plan[k].artifactDir == AttemptDir(c.tasks[t], 0)
  {
    var plan := PlanPolicy(c, p, s).plannedAttempts;
    NewPlanCovers(c.tasks, p.attempts, IdsFor(s, p.name));
    PlanAt(plan, c.tasks, p.attempts, t, 0);
    k := PlannedBefore(c.tasks, p.attempts, t) + 0;
  }

  lemma PlannedAttemptsDiffer(c: EvalSuite.SuiteConfig, p: EvalSuite.PolicyConfig, s: Supply)
    requires EvalSuite.ValidConfig(c) && p.attempts > 0 && FreshIds(s)
    ensures var plan := PlanPolicy(c, p, s).plannedAttempts;
      && plan != []
      && forall i, j :: 0 <= i < j < |plan| ==> plan[i].evalAttemptId != plan[j].evalAttemptId && plan[i].artifactDir != plan[j].artifactDir
  {
    var newId := IdsFor(s, p.name);
    var plan := NewPlan(c.tasks, p.attempts, newId);
    NewPlanCovers(c.tasks, p.attempts, newId);
    CoveringPlanListsProduct(plan, c.tasks, p.attempts);
    EvalSuite.ProductIsPositive(|c.tasks|, p.attempts);
    forall i, j | 0 <= i < j < |plan| ensures plan[i].evalAttemptId != plan[j].evalAttemptId && plan[i].artifactDir != plan[j].artifactDir {
      PlanEntries(c.tasks, p.attempts, newId, i);
      PlanEntries(c.tasks, p.attempts, newId, j);
      assert PlanPairs(plan)[i] != PlanPairs(plan)[j];
      if plan[i].artifactDir == plan[j].artifactDir {
        AttemptDirIsInjective(plan[i].taskId, plan[i].attemptIndex, plan[j].taskId, plan[j].attemptIndex);
      }
    }
  }

  /**
   The declared suite meets its contract exactly when every policy name is an ordinary path, every task id is one up
   to its last component and holds no backslash, and no two policies' names overlap.
   */
  lemma PlannedSuiteIsValidIff(c: EvalSuite.SuiteConfig, s: Supply, isAlpha: char -> bool)
    requires EvalSuite.ValidConfig(c) && FreshIds(s)
    ensures ValidDeclaration(PlanAll(c, s), isAlpha)
       <==> AllPolicyNamesFit(c.policies) && AllTaskIdsFit(c.tasks) && NoNamesOverlap(c)
  {
    var runs := PlanAll(c, s);
    forall i | 0 <= i < |runs|
      ensures ValidPlannedRun(runs[i], isAlpha) <==> PolicyNameFits(c.policies[i].name) && AllTaskIdsFit(c.tasks)
    {
      PlannedPolicyIsValidIff(c, c.policies[i], s, isAlpha);
    }
    PolicyRunsDiffer(c, s);
    AttemptsDifferIff(c, s);
    assert (forall i :: 0 <= i < |runs| ==> ValidPlannedRun(runs[i], isAlpha)) <==> AllPolicyNamesFit(c.policies) && AllTaskIdsFit(c.tasks) by {
      if forall i :: 0 <= i < |runs| ==> ValidPlannedRun(runs[i], isAlpha) {
        assert ValidPlannedRun(runs[0], isAlpha);
      }
    }
  }

  lemma PolicyRunsDiffer(c: EvalSuite.SuiteConfig, s: Supply)
    requires EvalSuite.ValidConfig(c) && FreshIds(s)
    ensures var runs := PlanAll(c, s); forall i, j :: 0 <= i < j < |runs| ==>
      runs[i].policy != runs[j].policy && runs[i].evalRunId != runs[j].evalRunId && runs[i].artifactDir != runs[j].artifactDir
  {
    var runs := PlanAll(c, s);
    forall i, j | 0 <= i < j < |runs|
      ensures runs[i].policy != runs[j].policy && runs[i].evalRunId != runs[j].evalRunId && runs[i].artifactDir != runs[j].artifactDir
    {
      assert EvalSuite.PolicyNames(c.policies)[i] != EvalSuite.PolicyNames(c.policies)[j];
      if runs[i].artifactDir == runs[j].artifactDir {
        EvalSuite.PolicyRefIsInjective(c.policies[i].name, c.policies[j].name);
      }
    }
  }

  lemma AttemptsDifferIff(c: EvalSuite.SuiteConfig, s: Supply)
    requires EvalSuite.ValidConfig(c) && FreshIds(s)
    ensures DistinctAttempts(PlanAll(c, s)) <==> NoNamesOverlap(c)
  {
    var runs := PlanAll(c, s);
    if NoNamesOverlap(c) {
      forall i, j, k, l | 0 <= i < j < |runs| && 0 <= k < |runs[i].plannedAttempts| && 0 <= l < |runs[j].plannedAttempts|
        ensures runs[i].plannedAttempts[k].evalAttemptId != runs[j].plannedAttempts[l].evalAttemptId
        ensures AttemptPath(runs[i], k) != AttemptPath(runs[j], l)
      {
        AttemptsAcrossPolicies(c, s, i, j, k, l);
      }
    }
    forall i, j, t, u | 0 <= i < |c.policies| && 0 <= j < |c.policies| && i != j && 0 <= t < |c.tasks| && 0 <= u < |c.tasks|
                        && NamesOverlap(c.policies[i].name, c.tasks[t], c.policies[j].name, c.tasks[u])
      ensures !DistinctAttempts(runs)
    {
      OverlapIsRefused(c, s, i, j, t, u);
    }
  }

  lemma AttemptsAcrossPolicies(c: EvalSuite.SuiteConfig, s: Supply, i: nat, j: nat, k: nat, l: nat)
    requires EvalSuite.ValidConfig(c) && FreshIds(s) && NoNamesOverlap(c) && i < j < |c.policies|
    requires k < |PlanPolicy(c, c.policies[i], s).plannedAttempts| && l < |PlanPolicy(c, c.policies[j], s).plannedAttempts|
    ensures var a, b := PlanPolicy(c, c.policies[i], s), PlanPolicy(c, c.policies[j], s);
      a.plannedAttempts[k].evalAttemptId != b.plannedAttempts[l].evalAttemptId && AttemptPath(a, k) != AttemptPath(b, l)
  {
    var p, q := c.policies[i], c.policies[j];
    var a, b := PlanPolicy(c, p, s).plannedAttempts[k], PlanPolicy(c, q, s).plannedAttempts[l];
    assert EvalSuite.PolicyNames(c.policies)[i] != EvalSuite.PolicyNames(c.policies)[j];
    PlanEntries(c.tasks, p.attempts, IdsFor(s, p.name), k);
    PlanEntries(c.tasks, q.attempts, IdsFor(s, q.name), l);
    var t :| 0 <= t < |c.tasks| && c.tasks[t] == a.taskId;
    var u :| 0 <= u < |c.tasks| && c.tasks[u] == b.taskId;
    assert !NamesOverlap(c.policies[i].name, c.tasks[t], c.policies[j].name, c.tasks[u]);
    assert !NamesOverlap(c.policies[j].name, c.tasks[u], c.policies[i].name, c.tasks[t]);
    PathsCollideIff(p.name, a.taskId, a.attemptIndex, q.name, b.taskId, b.attemptIndex);
  }

  lemma OverlapIsRefused(c: EvalSuite.SuiteConfig, s: Supply, i: nat, j: nat, t: nat, u: nat)
    requires EvalSuite.ValidConfig(c) && i < |c.policies| && j < |c.policies| && i != j && t < |c.tasks| && u < |c.tasks|
    requires NamesOverlap(c.policies[i].name, c.tasks[t], c.policies[j].name, c.tasks[u])
    ensures !DistinctAttempts(PlanAll(c, s))
  {
    var runs := PlanAll(c, s);
    var k := FirstAttemptOf(c, c.policies[i], s, t);
    var l := FirstAttemptOf(c, c.policies[j], s, u);
    PathsCollideIff(c.policies[i].name, c.tasks[t], 0, c.policies[j].name, c.tasks[u], 0);
    assert AttemptPath(runs[i], k) == AttemptPath(runs[j], l);
    if i < j {
      assert !DistinctAttempts(runs);
    } else {
      assert AttemptPath(runs[j], l) == AttemptPath(runs[i], k);
    }
  }

  /** With slash-free task ids only the spelling of the names matters. */
  lemma SlashFreeTasksNeverOverlap(c: EvalSuite.SuiteConfig)
    requires forall t :: 0 <= t < |c.tasks| ==> '/' !in c.tasks[t]
    ensures NoNamesOverlap(c)
  {
    forall i, j, t, u | 0 <= i < |c.policies| && 0 <= j < |c.policies| && i != j && 0 <= t < |c.tasks| && 0 <= u < |c.tasks|
      ensures !NamesOverlap(c.policies[i].name, c.tasks[t], c.policies[j].name, c.tasks[u])
    {
      if NamesOverlap(c.policies[i].name, c.tasks[t], c.policies[j].name, c.tasks[u]) {
        OverlapHasSlash(c.policies[i].name, c.tasks[t], c.policies[j].name, c.tasks[u]);
      }
    }
  }

  // ---------------------------------------------------------------- configurations whose plan is refused

  function TwoPolicies(a: string, b: string, tasks: seq<string>, kind: EvalRun.PolicyType): EvalSuite.SuiteConfig {
    EvalSuite.SuiteConfig(tasks, [EvalSuite.PolicyConfig(a, kind, 1, 0), EvalSuite.PolicyConfig(b, kind, 1, 0)])
  }

  lemma OverlappingPairIsRefused(a: string, t: string, b: string, u: string, kind: EvalRun.PolicyType, s: Supply, isAlpha: char -> bool)
    requires a != b && t != u && FreshIds(s) && NamesOverlap(a, t, b, u)
    ensures EvalSuite.ValidConfig(TwoPolicies(a, b, [t, u], kind))
    ensures !ValidDeclaration(PlanAll(TwoPolicies(a, b, [t, u], kind), s), isAlpha)
  {
    var c := TwoPolicies(a, b, [t, u], kind);
    assert EvalSuite.PolicyNames(c.policies) == [a, b];
    OverlapIsRefused(c, s, 0, 1, 0, 1);
  }

  /** Both ways in which slashes in otherwise ordinary names make the validator refuse the plan. */
  lemma SlashedNamesAreRefused(kind: EvalRun.PolicyType, s: Supply, isAlpha: char -> bool)
    requires FreshIds(s)
    ensures !ValidDeclaration(PlanAll(TwoPolicies("a", "a/attempts", ["attempts/y", "y"], kind), s), isAlpha)
    ensures !ValidDeclaration(PlanAll(TwoPolicies("a", "a/attempts/x", ["x/attempts/y", "y"], kind), s), isAlpha)
  {
    assert "a" + ATTEMPTS == "a/attempts" && "a/attempts"[10..] == "";
    assert "/" + "attempts/y" == "" + ATTEMPTS + "/" + "y";
    assert "a/attempts/x"[..10] == "a" + ATTEMPTS && "a/attempts/x"[10..] == "/x";
    assert "/" + "x/attempts/y" == "/x" + ATTEMPTS + "/" + "y";
    OverlappingPairIsRefused("a", "attempts/y", "a/attempts", "y", kind, s, isAlpha);
    OverlappingPairIsRefused("a", "x/attempts/y", "a/attempts/x", "y", kind, s, isAlpha);
  }

  /** A policy that would climb out of its directory, and a task id with a backslash. */
  lemma ImproperNamesAreRefused(kind: EvalRun.PolicyType, s: Supply, isAlpha: char -> bool)
    requires FreshIds(s)
    ensures !ValidDeclaration(PlanAll(TwoPolicies("..", "b", ["t"], kind), s), isAlpha)
    ensures !ValidDeclaration(PlanAll(TwoPolicies("a", "b", ["t\\u"], kind), s), isAlpha)
  {
    var c, d := TwoPolicies("..", "b", ["t"], kind), TwoPolicies("a", "b", ["t\\u"], kind);
    assert EvalSuite.PolicyNames(c.policies) == ["..", "b"] && EvalSuite.PolicyNames(d.policies) == ["a", "b"];
    ArtifactRefs.SplitOne("..");
    assert ArtifactRefs.Split("..")[0] == "..";
    assert !PolicyNameFits(c.policies[0].name);
    PlannedSuiteIsValidIff(c, s, isAlpha);
    assert "t\\u"[1] == '\\';
    assert !TaskIdFits(d.tasks[0]);
    PlannedSuiteIsValidIff(d, s, isAlpha);
  }
}
