/**
 Which attempts an evaluation plans, and which lists of attempts a manifest validator accepts as covering every
 selected task.
 */
module EvalPlan {
  import Decimal
  import ArtifactRefs

  type Pair = (string, nat)

  // ---------------------------------------------------------------- the coverage validator

  /** [a.attempt_index for a in attempts if a.task_id == task]. */
  function IndexesOf(pairs: seq<Pair>, task: string): seq<nat> {
    if |pairs| == 0 then []
    else
      var rest, last := IndexesOf(pairs[..|pairs| - 1], task), pairs[|pairs| - 1];
      if last.0 == task then rest + [last.1] else rest
  }

  function Elements<T>(s: seq<T>): set<T> {
    set i | 0 <= i < |s| :: s[i]
  }

  function Range(n: nat): (r: set<nat>)
    ensures |r| == n
    ensures forall i: nat :: i in r <==> i < n
  {
    if n == 0 then {} else Range(n - 1) + {n - 1}
  }

  /** No attempt of an unselected task, and for every selected one n attempts whose indexes are 0..n-1. */
  predicate CoverageAccepted(pairs: seq<Pair>, selected: set<string>, n: nat) {
    && (forall i :: 0 <= i < |pairs| ==> pairs[i].0 in selected)
    && (forall task :: task in selected ==> |IndexesOf(pairs, task)| == n && Elements(IndexesOf(pairs, task)) == Range(n))
  }

  // ---------------------------------------------------------------- what it accepts

  predicate Unique<T(==)>(s: seq<T>) {
    forall i, j :: 0 <= i < j < |s| ==> s[i] != s[j]
  }

  function Product(selected: set<string>, n: nat): set<Pair> {
    set task, i | task in selected && i in Range(n) :: (task, i)
  }

  /** Each pair of selected task and index below n exactly once. */
  predicate ListsProduct(pairs: seq<Pair>, selected: set<string>, n: nat) {
    Unique(pairs) && Elements(pairs) == Product(selected, n)
  }

  lemma UniqueSnoc<T>(s: seq<T>, x: T)
    ensures Unique(s + [x]) <==> Unique(s) && x !in s
    ensures Elements(s + [x]) == Elements(s) + {x}
  {
    var t := s + [x];
    assert t[|s|] == x && t[..|s|] == s;
    if Unique(t) {
      forall i, j | 0 <= i < j < |s| ensures s[i] != s[j] {
        assert t[i] != t[j];
      }
      forall i | 0 <= i < |s| ensures s[i] != x {
        assert t[i] != t[|s|];
      }
    }
    forall e | e in Elements(s) + {x} ensures e in Elements(t) {
      if e in Elements(s) {
        var i :| 0 <= i < |s| && s[i] == e;
        assert t[i] == e;
      }
    }
  }

  /** Pigeonhole: a list is as long as its element set exactly when nothing repeats. */
  lemma {:induction false} UniqueIffFullSize<T>(s: seq<T>)
    ensures |Elements(s)| <= |s|
    ensures |Elements(s)| == |s| <==> Unique(s)
  {
    if |s| > 0 {
      var rest, x := s[..|s| - 1], s[|s| - 1];
      UniqueIffFullSize(rest);
      UniqueSnoc(rest, x);
      assert s == rest + [x];
    }
  }

  lemma {:induction false} IndexesAre(pairs: seq<Pair>, task: string, index: nat)
    ensures index in IndexesOf(pairs, task) <==> (task, index) in pairs
  {
    if |pairs| > 0 {
      IndexesAre(pairs[..|pairs| - 1], task, index);
      assert pairs == pairs[..|pairs| - 1] + [pairs[|pairs| - 1]];
    }
  }

  ghost predicate UniqueIndexes(pairs: seq<Pair>) {
    forall task: string :: Unique(IndexesOf(pairs, task))
  }

  lemma UniqueIndexesSnoc(rest: seq<Pair>, last: Pair)
    ensures UniqueIndexes(rest + [last]) <==> UniqueIndexes(rest) && last !in rest
  {
    var pairs := rest + [last];
    assert pairs[..|rest|] == rest;
    UniqueSnoc(IndexesOf(rest, last.0), last.1);
    IndexesAre(rest, last.0, last.1);
    assert forall task: string :: task != last.0 ==> IndexesOf(pairs, task) == IndexesOf(rest, task);
    assert IndexesOf(pairs, last.0) == IndexesOf(rest, last.0) + [last.1];
  }

  /** Pairs are distinct exactly when every task's indexes are. */
  lemma {:induction false} UniquePerTask(pairs: seq<Pair>)
    ensures Unique(pairs) <==> UniqueIndexes(pairs)
  {
    if |pairs| > 0 {
      var rest, last := pairs[..|pairs| - 1], pairs[|pairs| - 1];
      UniquePerTask(rest);
      UniqueSnoc(rest, last);
      UniqueIndexesSnoc(rest, last);
      assert pairs == rest + [last];
    }
  }

  lemma TaskIndexesInRange(pairs: seq<Pair>, selected: set<string>, n: nat, task: string)
    requires Elements(pairs) == Product(selected, n) && task in selected
    ensures Elements(IndexesOf(pairs, task)) == Range(n)
  {
    var s := IndexesOf(pairs, task);
    forall i: nat ensures i in Elements(s) <==> i in Range(n) {
      IndexesAre(pairs, task, i);
      assert i in Elements(s) <==> i in s;
      assert (task, i) in Elements(pairs) <==> (task, i) in pairs;
      assert (task, i) in Product(selected, n) <==> i in Range(n);
    }
  }

  lemma AcceptedListsProduct(pairs: seq<Pair>, selected: set<string>, n: nat)
    requires CoverageAccepted(pairs, selected, n)
    ensures ListsProduct(pairs, selected, n)
  {
    forall task ensures Unique(IndexesOf(pairs, task)) {
      if task in selected {
        UniqueIffFullSize(IndexesOf(pairs, task));
      } else {
        NoIndexes(pairs, selected, task);
      }
    }
    UniquePerTask(pairs);
    forall task, i: nat ensures (task, i) in Elements(pairs) <==> (task, i) in Product(selected, n) {
      IndexesAre(pairs, task, i);
      assert (task, i) in Elements(pairs) <==> (task, i) in pairs;
      if task in selected {
        assert i in Elements(IndexesOf(pairs, task)) <==> i in IndexesOf(pairs, task);
      }
    }
  }

  lemma NoIndexes(pairs: seq<Pair>, selected: set<string>, task: string)
    requires (forall i :: 0 <= i < |pairs| ==> pairs[i].0 in selected) && task !in selected
    ensures IndexesOf(pairs, task) == []
  {
    if IndexesOf(pairs, task) != [] {
      var index := IndexesOf(pairs, task)[0];
      IndexesAre(pairs, task, index);
    }
  }

  lemma ProductIsAccepted(pairs: seq<Pair>, selected: set<string>, n: nat)
    requires ListsProduct(pairs, selected, n)
    ensures CoverageAccepted(pairs, selected, n)
  {
    UniquePerTask(pairs);
    forall i | 0 <= i < |pairs| ensures pairs[i].0 in selected {
      assert pairs[i] in Product(selected, n);
    }
    forall task | task in selected ensures |IndexesOf(pairs, task)| == n && Elements(IndexesOf(pairs, task)) == Range(n) {
      TaskIndexesInRange(pairs, selected, n, task);
      UniqueIffFullSize(IndexesOf(pairs, task));
    }
  }

  lemma {:induction false} ProductSize(selected: set<string>, n: nat)
    ensures |Product(selected, n)| == |selected| * n
  {
    if selected == {} {
      assert Product(selected, n) == {};
    } else {
      var task :| task in selected;
      var others := selected - {task};
      ProductSize(others, n);
      RowSize(task, n);
      ProductSplit(selected, task, n);
    }
  }

  lemma ProductSplit(selected: set<string>, task: string, n: nat)
    requires task in selected
    ensures |Product(selected, n)| == |Product(selected - {task}, n)| + |Row(task, n)|
    ensures |selected| * n == |selected - {task}| * n + n
  {
    var others := selected - {task};
    var a, b := Product(others, n), Row(task, n);
    forall t, i: nat ensures (t, i) in Product(selected, n) <==> (t, i) in a + b {
    }
    assert Product(selected, n) == a + b;
    assert a !! b;
    assert selected == others + {task};
    TimesSuccessor(|others|, n);
  }

  lemma TimesSuccessor(k: nat, n: nat)
    ensures (k + 1) * n == k * n + n
  {
  }

  function Row(task: string, n: nat): set<Pair> {
    set i | i in Range(n) :: (task, i)
  }

  lemma RowSize(task: string, n: nat)
    ensures |Row(task, n)| == n
  {
    var newId := (t: string, i: nat) => "";
    RowPairs(task, n, newId);
    UniqueIffFullSize(PlanPairs(PlannedFor(task, n, newId)));
  }

  /**
   The validator accepts exactly the lists that name every selected task with every index below n once, in any
   order; any such list has tasks times n entries.
   */
  lemma AcceptedIffProduct(pairs: seq<Pair>, selected: set<string>, n: nat)
    ensures CoverageAccepted(pairs, selected, n) <==> ListsProduct(pairs, selected, n)
    ensures CoverageAccepted(pairs, selected, n) ==> |pairs| == |selected| * n
  {
    if CoverageAccepted(pairs, selected, n) {
      AcceptedListsProduct(pairs, selected, n);
      UniqueIffFullSize(pairs);
      ProductSize(selected, n);
    } else if ListsProduct(pairs, selected, n) {
      ProductIsAccepted(pairs, selected, n);
    }
  }

  // ---------------------------------------------------------------- the plan

  datatype PlannedAttempt = PlannedAttempt(evalAttemptId: string, taskId: string, attemptIndex: nat, artifactDir: string)

  function AttemptName(task: string, index: nat): string {
    task + "__attempt_" + Decimal.Padded(index + 1, 3)
  }

  function AttemptDir(task: string, index: nat): string {
    "attempts/" + AttemptName(task, index)
  }

  function PlannedFor(task: string, n: nat, newId: (string, nat) -> string): seq<PlannedAttempt> {
    seq(n, i requires 0 <= i < n => PlannedAttempt(newId(task, i), task, i, AttemptDir(task, i)))
  }

  /** _new_planned_eval_attempts: for every task, for every index. */
  function NewPlan(tasks: seq<string>, n: nat, newId: (string, nat) -> string): seq<PlannedAttempt> {
    if |tasks| == 0 then [] else NewPlan(tasks[..|tasks| - 1], n, newId) + PlannedFor(tasks[|tasks| - 1], n, newId)
  }

  function PlanPairs(plan: seq<PlannedAttempt>): seq<Pair> {
    seq(|plan|, i requires 0 <= i < |plan| => (plan[i].taskId, plan[i].attemptIndex))
  }

  lemma UniqueConcat<T>(a: seq<T>, b: seq<T>)
    requires Unique(a) && Unique(b) && Elements(a) !! Elements(b)
    ensures Unique(a + b)
  {
    var s := a + b;
    forall i, j | 0 <= i < j < |s| ensures s[i] != s[j] {
      if i < |a| <= j {
        assert s[i] in Elements(a) && s[j] == b[j - |a|] && s[j] in Elements(b);
      }
    }
  }

  lemma ElementsConcat<T>(a: seq<T>, b: seq<T>)
    ensures Elements(a + b) == Elements(a) + Elements(b)
  {
    var s := a + b;
    forall e | e in Elements(a) + Elements(b) ensures e in Elements(s) {
      if e in Elements(a) {
        var i :| 0 <= i < |a| && a[i] == e;
        assert s[i] == e;
      } else {
        var i :| 0 <= i < |b| && b[i] == e;
        assert s[|a| + i] == e;
      }
    }
  }

  lemma RowPairs(task: string, n: nat, newId: (string, nat) -> string)
    ensures var pairs := PlanPairs(PlannedFor(task, n, newId)); Unique(pairs) && Elements(pairs) == Row(task, n)
  {
    var pairs := PlanPairs(PlannedFor(task, n, newId));
    assert forall i: nat :: i < n ==> pairs[i] == (task, i);
    forall e | e in Row(task, n) ensures e in Elements(pairs) {
      assert pairs[e.1] == e;
    }
  }

  /** The plan lists the product in config order, so what is executed in plan order is accepted. */
  lemma {:induction false} PlanListsProduct(tasks: seq<string>, n: nat, newId: (string, nat) -> string)
    requires Unique(tasks)
    ensures ListsProduct(PlanPairs(NewPlan(tasks, n, newId)), Elements(tasks), n)
  {
    if |tasks| == 0 {
      assert Product(Elements(tasks), n) == {};
    } else {
      var rest, task := tasks[..|tasks| - 1], tasks[|tasks| - 1];
      UniqueSnoc(rest, task);
      assert tasks == rest + [task];
      PlanListsProduct(rest, n, newId);
      RowPairs(task, n, newId);
      var a, b := PlanPairs(NewPlan(rest, n, newId)), PlanPairs(PlannedFor(task, n, newId));
      assert PlanPairs(NewPlan(tasks, n, newId)) == a + b;
      assert task !in Elements(rest);
      ElementsConcat(a, b);
      UniqueConcat(a, b);
      assert Product(Elements(tasks), n) == Product(Elements(rest), n) + Row(task, n);
    }
  }

  // ---------------------------------------------------------------- attempt directories

  /** Directory names determine task and index, whatever the task ids look like and however long the numeral. */
  lemma AttemptDirIsInjective(t1: string, i1: nat, t2: string, i2: nat)
    requires AttemptDir(t1, i1) == AttemptDir(t2, i2)
    ensures t1 == t2 && i1 == i2
  {
    var p := "attempts/";
    assert AttemptDir(t1, i1)[|p|..] == AttemptName(t1, i1) && AttemptDir(t2, i2)[|p|..] == AttemptName(t2, i2);
    AttemptNameIsInjective(t1, i1, t2, i2);
  }

  lemma AttemptNameIsInjective(t1: string, i1: nat, t2: string, i2: nat)
    requires AttemptName(t1, i1) == AttemptName(t2, i2)
    ensures t1 == t2 && i1 == i2
  {
    NumberedName(t1, i1);
    NumberedName(t2, i2);
    NumberedNameIsInjective(t1, "__attempt", i1, t2, i2);
  }

  lemma NumberedName(task: string, index: nat)
    ensures AttemptName(task, index) == task + "__attempt" + "_" + Decimal.Padded(index + 1, 3)
  {
  }

  /** A name, a fixed tag and a padded number can be told apart again. */
  lemma NumberedNameIsInjective(a: string, tag: string, i: nat, b: string, j: nat)
    requires a + tag + "_" + Decimal.Padded(i + 1, 3) == b + tag + "_" + Decimal.Padded(j + 1, 3)
    ensures a == b && i == j
  {
    Decimal.NumeralSuffixIsUnique(a + tag, Decimal.Padded(i + 1, 3), b + tag, Decimal.Padded(j + 1, 3));
    assert a == (a + tag)[..|a + tag| - |tag|] && b == (b + tag)[..|b + tag| - |tag|];
    Decimal.PaddedIsInjective(i + 1, j + 1, 3);
  }

  /** A slash-free task id makes an accepted reference two components deep. */
  lemma AttemptDirIsAccepted(task: string, index: nat, isAlpha: char -> bool)
    requires '/' !in task && '\\' !in task
    ensures ArtifactRefs.Accepted(AttemptDir(task, index), isAlpha)
    ensures ArtifactRefs.PathParts(AttemptDir(task, index)) == ["attempts", AttemptName(task, index)]
  {
    var name := AttemptName(task, index);
    var numeral := Decimal.Padded(index + 1, 3);
    assert |numeral| >= 3;
    assert name[|name| - 1] == numeral[|numeral| - 1];
    assert forall i :: 0 <= i < |numeral| ==> Decimal.IsDigit(numeral[i]);
    assert '/' !in name && '\\' !in name;
    assert ArtifactRefs.Ordinary(name);
    assert ArtifactRefs.Ordinary("attempts");
    var parts := ["attempts", name];
    assert ArtifactRefs.Join(parts) == AttemptDir(task, index) by {
      assert parts[1..] == [name];
    }
    ArtifactRefs.PartsOfJoin(parts);
    assert AttemptDir(task, index)[1] == 't';
    ArtifactRefs.AcceptedIffOrdinaryPath(AttemptDir(task, index), isAlpha);
  }

  // ---------------------------------------------------------------- is a plan the configured one?

  datatype Triple = Triple(taskId: string, attemptIndex: nat, artifactDir: string)

  function Triples(plan: seq<PlannedAttempt>): seq<Triple> {
    seq(|plan|, i requires 0 <= i < |plan| => Triple(plan[i].taskId, plan[i].attemptIndex, plan[i].artifactDir))
  }

  function BlankPlan(tasks: seq<string>, n: nat): seq<PlannedAttempt> {
    NewPlan(tasks, n, (task, i) => "")
  }

  /** _validate_planned_attempt_coverage: config order, every index, canonical directories; ids are free. */
  predicate PlanCovers(plan: seq<PlannedAttempt>, tasks: seq<string>, n: nat) {
    Triples(plan) == Triples(BlankPlan(tasks, n))
  }

  lemma {:induction false} NewPlanCovers(tasks: seq<string>, n: nat, newId: (string, nat) -> string)
    ensures PlanCovers(NewPlan(tasks, n, newId), tasks, n)
  {
    if |tasks| > 0 {
      var rest, task := tasks[..|tasks| - 1], tasks[|tasks| - 1];
      NewPlanCovers(rest, n, newId);
      assert Triples(NewPlan(tasks, n, newId)) == Triples(NewPlan(rest, n, newId)) + Triples(PlannedFor(task, n, newId));
      assert Triples(BlankPlan(tasks, n)) == Triples(BlankPlan(rest, n)) + Triples(PlannedFor(task, n, (task, i) => ""));
      assert Triples(PlannedFor(task, n, newId)) == Triples(PlannedFor(task, n, (task, i) => ""));
    }
  }

  lemma CoveringPlanListsProduct(plan: seq<PlannedAttempt>, tasks: seq<string>, n: nat)
    requires Unique(tasks) && PlanCovers(plan, tasks, n)
    ensures ListsProduct(PlanPairs(plan), Elements(tasks), n)
    ensures |plan| == |tasks| * n
  {
    var blank := BlankPlan(tasks, n);
    PlanListsProduct(tasks, n, (task, i) => "");
    assert |Triples(plan)| == |plan| && |Triples(blank)| == |blank|;
    forall i | 0 <= i < |plan| ensures PlanPairs(plan)[i] == PlanPairs(blank)[i] {
      assert Triples(plan)[i] == Triples(blank)[i];
    }
    assert PlanPairs(plan) == PlanPairs(blank);
    ProductIsAccepted(PlanPairs(plan), Elements(tasks), n);
    AcceptedIffProduct(PlanPairs(plan), Elements(tasks), n);
    UniqueIffFullSize(tasks);
  }

  /** Where the plan stands before task t. */
  function PlannedBefore(tasks: seq<string>, n: nat, t: nat): nat
    requires t <= |tasks|
  {
    |BlankPlan(tasks[..t], n)|
  }

  lemma PlannedBeforeStep(tasks: seq<string>, n: nat, t: nat)
    requires t < |tasks|
    ensures PlannedBefore(tasks, n, t + 1) == PlannedBefore(tasks, n, t) + n
  {
    assert tasks[..t + 1][..t] == tasks[..t];
  }

  lemma {:induction false} BlankPlanAt(tasks: seq<string>, n: nat, t: nat, i: nat)
    requires t < |tasks| && i < n
    ensures PlannedBefore(tasks, n, t) + i < |BlankPlan(tasks, n)|
    ensures BlankPlan(tasks, n)[PlannedBefore(tasks, n, t) + i] == PlannedAttempt("", tasks[t], i, AttemptDir(tasks[t], i))
  {
    var last := |tasks| - 1;
    BlankPlanSnoc(tasks, n);
    if t < last {
      BlankPlanAt(tasks[..last], n, t, i);
      assert tasks[..last][..t] == tasks[..t];
    }
  }

  lemma BlankPlanSnoc(tasks: seq<string>, n: nat)
    requires |tasks| > 0
    ensures var last := |tasks| - 1;
      && |BlankPlan(tasks, n)| == |BlankPlan(tasks[..last], n)| + n
      && (forall k :: 0 <= k < |BlankPlan(tasks[..last], n)| ==> BlankPlan(tasks, n)[k] == BlankPlan(tasks[..last], n)[k])
      && (forall i: nat :: i < n ==>
            BlankPlan(tasks, n)[|BlankPlan(tasks[..last], n)| + i] == PlannedAttempt("", tasks[last], i, AttemptDir(tasks[last], i)))
  {
    var row := PlannedFor(tasks[|tasks| - 1], n, (task, i) => "");
    assert BlankPlan(tasks, n) == BlankPlan(tasks[..|tasks| - 1], n) + row;
    assert forall i: nat :: i < n ==> row[i] == PlannedAttempt("", tasks[|tasks| - 1], i, AttemptDir(tasks[|tasks| - 1], i));
  }

  /** The plan's entry for the i-th attempt of the t-th task. */
  lemma PlanAt(plan: seq<PlannedAttempt>, tasks: seq<string>, n: nat, t: nat, i: nat)
    requires PlanCovers(plan, tasks, n) && t < |tasks| && i < n
    ensures var k := PlannedBefore(tasks, n, t) + i;
      k < |plan| && plan[k].taskId == tasks[t] && plan[k].attemptIndex == i && plan[k].artifactDir == AttemptDir(tasks[t], i)
  {
    BlankPlanAt(tasks, n, t, i);
    var k := PlannedBefore(tasks, n, t) + i;
    assert |Triples(plan)| == |plan| && |Triples(BlankPlan(tasks, n))| == |BlankPlan(tasks, n)|;
    assert Triples(plan)[k] == Triples(BlankPlan(tasks, n))[k];
  }

  lemma PlannedInAll(plan: seq<PlannedAttempt>, tasks: seq<string>, n: nat)
    requires PlanCovers(plan, tasks, n)
    ensures PlannedBefore(tasks, n, |tasks|) == |plan|
  {
    assert tasks[..|tasks|] == tasks;
    assert |Triples(plan)| == |plan| && |Triples(BlankPlan(tasks, n))| == |BlankPlan(tasks, n)|;
  }

  /** The dictionary keyed by task and index; a later entry with the same key wins. */
  function ByIdentity(plan: seq<PlannedAttempt>): map<Pair, PlannedAttempt> {
    if |plan| == 0 then map[]
    else
      var last := plan[|plan| - 1];
      ByIdentity(plan[..|plan| - 1])[(last.taskId, last.attemptIndex) := last]
  }

  lemma {:induction false} LookupFinds(plan: seq<PlannedAttempt>, k: nat)
    requires k < |plan| && Unique(PlanPairs(plan))
    ensures PlanPairs(plan)[k] in ByIdentity(plan) && ByIdentity(plan)[PlanPairs(plan)[k]] == plan[k]
  {
    var n := |plan| - 1;
    if k < n {
      assert PlanPairs(plan[..n]) == PlanPairs(plan)[..n];
      assert PlanPairs(plan)[k] != PlanPairs(plan)[n];
      LookupFinds(plan[..n], k);
    }
  }
}
