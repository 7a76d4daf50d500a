/**
 One policy over all configured tasks: nested loops that execute the planned attempts in order and write a trace
 as they go, then the manifest of the finished run.
 */
module EvalRun {
  import opened Wrappers
  import opened EvalRecords
  import opened EvalPlan
  import LayerCounts
  import ArtifactRefs
  import opened ArtifactTree

  datatype PolicyType = ScorerControlPatch | AgentControlScript | AgentModel

  /** How executing one attempt can turn out; Raised leaves the run without a manifest. */
  datatype Outcome = Raised | ScorerFinished(scorer: ScorerSummary) | AgentFinished(agent: AgentSummary)

  predicate OutcomeFits(policy: PolicyType, o: Outcome) {
    match o
    case Raised => true
    case ScorerFinished(_) => policy.ScorerControlPatch?
    case AgentFinished(_) => !policy.ScorerControlPatch?
  }

  type Executor = PlannedAttempt -> Outcome

  // ---------------------------------------------------------------- the trace

  datatype Event =
    | EvalStarted(taskCount: nat, attemptsPerTask: nat)
    | TaskStarted(task: nat)
    | AttemptStarted(task: nat, attempt: nat, evalAttemptId: string)
    | AttemptFinished(task: nat, attempt: nat, evalAttemptId: string)
    | TaskFinished(task: nat, attemptCount: nat, layerCounts: LayerCounts.Counts)
    | EvalFinished(attemptCount: nat, layerCounts: LayerCounts.Counts)

  datatype TraceEntry = TraceEntry(eventIndex: nat, event: Event)

  datatype Open = InEval | InTask(task: nat) | InAttempt(task: nat, attempt: nat, evalAttemptId: string)

  /** What is open after one more event; None once something closes, or opens, in the wrong place. */
  function NestingStep(open: Option<seq<Open>>, e: Event): Option<seq<Open>> {
    if open.None? then None
    else
      var stack := open.value;
      var top := |stack| - 1;
      match e
      case EvalStarted(_, _) => if stack == [] then Some([InEval]) else None
      case TaskStarted(t) => if stack == [InEval] then Some(stack + [InTask(t)]) else None
      case AttemptStarted(t, i, id) => if |stack| == 2 && stack[top] == InTask(t) then Some(stack + [InAttempt(t, i, id)]) else None
      case AttemptFinished(t, i, id) => if |stack| == 3 && stack[top] == InAttempt(t, i, id) then Some(stack[..top]) else None
      case TaskFinished(t, _, _) => if |stack| == 2 && stack[top] == InTask(t) then Some(stack[..top]) else None
      case EvalFinished(_, _) => if stack == [InEval] then Some([]) else None
  }

  function Nesting(trace: seq<TraceEntry>): Option<seq<Open>> {
    if |trace| == 0 then Some([]) else NestingStep(Nesting(trace[..|trace| - 1]), trace[|trace| - 1].event)
  }

  /** Every bracket closed by its own kind, and nothing left open. */
  predicate WellBracketed(trace: seq<TraceEntry>) {
    |trace| > 0 && Nesting(trace) == Some([])
  }

  predicate Numbered(trace: seq<TraceEntry>) {
    forall i :: 0 <= i < |trace| ==> trace[i].eventIndex == i
  }

  /** A finished attempt in the trace: the task it ran under, its index and its id. */
  type Shown = (nat, nat, string)

  /** The attempts the trace shows as finished, in order. */
  function FinishedAttempts(trace: seq<TraceEntry>): seq<Shown> {
    if |trace| == 0 then []
    else
      var rest, e := FinishedAttempts(trace[..|trace| - 1]), trace[|trace| - 1].event;
      if e.AttemptFinished? then rest + [(e.task, e.attempt, e.evalAttemptId)] else rest
  }

  /** The tasks and attempts per task the trace announces. */
  function Announced(trace: seq<TraceEntry>): seq<(nat, nat)> {
    if |trace| == 0 then []
    else
      var rest, e := Announced(trace[..|trace| - 1]), trace[|trace| - 1].event;
      if e.EvalStarted? then rest + [(e.taskCount, e.attemptsPerTask)] else rest
  }

  function TaskStack(t: nat): Option<seq<Open>> {
    Some([InEval, InTask(t)])
  }

  lemma TaskBrackets(t: nat, n: nat, counts: LayerCounts.Counts)
    ensures NestingStep(Some([InEval]), TaskStarted(t)) == TaskStack(t)
    ensures NestingStep(TaskStack(t), TaskFinished(t, n, counts)) == Some([InEval])
  {
    assert [InEval] + [InTask(t)] == [InEval, InTask(t)];
    assert [InEval, InTask(t)][..1] == [InEval];
  }

  lemma AttemptBrackets(t: nat, i: nat, id: string)
    ensures NestingStep(TaskStack(t), AttemptStarted(t, i, id)).Some?
    ensures NestingStep(NestingStep(TaskStack(t), AttemptStarted(t, i, id)), AttemptFinished(t, i, id)) == TaskStack(t)
  {
    var stack := [InEval, InTask(t)];
    assert (stack + [InAttempt(t, i, id)])[..2] == stack;
  }

  function WithFinished(shown: seq<Shown>, e: Event): seq<Shown> {
    if e.AttemptFinished? then shown + [(e.task, e.attempt, e.evalAttemptId)] else shown
  }

  function WithAnnounced(announced: seq<(nat, nat)>, e: Event): seq<(nat, nat)> {
    if e.EvalStarted? then announced + [(e.taskCount, e.attemptsPerTask)] else announced
  }

  lemma TraceSnoc(trace: seq<TraceEntry>, entry: TraceEntry)
    ensures Nesting(trace + [entry]) == NestingStep(Nesting(trace), entry.event)
    ensures FinishedAttempts(trace + [entry]) == WithFinished(FinishedAttempts(trace), entry.event)
    ensures Announced(trace + [entry]) == WithAnnounced(Announced(trace), entry.event)
  {
    assert (trace + [entry])[..|trace|] == trace;
  }

  // ---------------------------------------------------------------- executing the plan

  function RecordFor(outDir: seq<string>, planned: PlannedAttempt, o: Outcome): AttemptRecord
    requires !o.Raised?
  {
    AttemptRecord(planned.evalAttemptId, planned.taskId, planned.attemptIndex, ArtifactRefs.Resolve(outDir, planned.artifactDir),
                  if o.ScorerFinished? then ScorerAttempt else AgentAttempt,
                  if o.ScorerFinished? then Some(o.scorer) else None,
                  if o.AgentFinished? then Some(o.agent) else None)
  }

  predicate NoneRaised(plan: seq<PlannedAttempt>, execute: Executor) {
    forall k :: 0 <= k < |plan| ==> !execute(plan[k]).Raised?
  }

  function RecordsFor(outDir: seq<string>, plan: seq<PlannedAttempt>, execute: Executor): seq<AttemptRecord>
    requires NoneRaised(plan, execute)
  {
    seq(|plan|, k requires 0 <= k < |plan| => RecordFor(outDir, plan[k], execute(plan[k])))
  }

  function PlanIds(plan: seq<PlannedAttempt>): seq<string> {
    seq(|plan|, k requires 0 <= k < |plan| => plan[k].evalAttemptId)
  }

  /** Have exactly the first k planned attempts been executed and recorded? */
  predicate Executed(attempts: seq<AttemptRecord>, outDir: seq<string>, plan: seq<PlannedAttempt>, execute: Executor, k: nat) {
    && k <= |plan| && |attempts| == k
    && forall j :: 0 <= j < k ==> !execute(plan[j]).Raised? && attempts[j] == RecordFor(outDir, plan[j], execute(plan[j]))
  }

  /** The trace shows the planned attempt under its own task, with its own index and id. */
  predicate ShownAs(tasks: seq<string>, planned: PlannedAttempt, shown: Shown) {
    shown.0 < |tasks| && tasks[shown.0] == planned.taskId && shown.1 == planned.attemptIndex && shown.2 == planned.evalAttemptId
  }

  /** The trace shows the first k planned attempts as finished, in order. */
  predicate ShowsFinished(trace: seq<TraceEntry>, tasks: seq<string>, plan: seq<PlannedAttempt>, k: nat) {
    && k <= |plan| && |FinishedAttempts(trace)| == k
    && forall j :: 0 <= j < k ==> ShownAs(tasks, plan[j], FinishedAttempts(trace)[j])
  }

  /** The trace is numbered, it announces what is configured, and it and the records show the first k planned attempts. */
  predicate InStep(trace: seq<TraceEntry>, attempts: seq<AttemptRecord>, outDir: seq<string>, c: Config, plan: seq<PlannedAttempt>, execute: Executor, k: nat) {
    && Executed(attempts, outDir, plan, execute, k)
    && Numbered(trace) && ShowsFinished(trace, c.tasks, plan, k)
    && (trace != [] ==> Announced(trace) == [(|c.tasks|, c.attempts)])
  }

  lemma NothingShownYet(trace: seq<TraceEntry>, outDir: seq<string>, c: Config, plan: seq<PlannedAttempt>, execute: Executor)
    requires Numbered(trace) && FinishedAttempts(trace) == [] && Announced(trace) == [(|c.tasks|, c.attempts)]
    ensures InStep(trace, [], outDir, c, plan, execute, 0)
  {
  }

  lemma InStepSnoc(t1: seq<TraceEntry>, t2: seq<TraceEntry>, attempts: seq<AttemptRecord>, outDir: seq<string>, c: Config, plan: seq<PlannedAttempt>,
                   execute: Executor, k: nat, shown: Shown)
    requires InStep(t1, attempts, outDir, c, plan, execute, k) && t1 != [] && k < |plan| && !execute(plan[k]).Raised?
    requires Numbered(t2) && FinishedAttempts(t2) == FinishedAttempts(t1) + [shown] && Announced(t2) == Announced(t1)
    requires ShownAs(c.tasks, plan[k], shown)
    ensures InStep(t2, attempts + [RecordFor(outDir, plan[k], execute(plan[k]))], outDir, c, plan, execute, k + 1)
  {
  }

  // ---------------------------------------------------------------- directories

  /** The files an attempt leaves in its directory. */
  type Leaves = PlannedAttempt -> set<Path>

  const RUN_FILES: set<Path> := {["trace.jsonl"], ["manifest.json"]}

  function AttemptDirectory(outDir: Path, planned: PlannedAttempt): Path {
    ArtifactRefs.Resolve(outDir, planned.artifactDir)
  }

  function AttemptStep(outDir: Path, planned: PlannedAttempt, leaves: Leaves): Step {
    Step(Prepare, AttemptDirectory(outDir, planned), leaves(planned))
  }

  function AttemptSteps(outDir: Path, plan: seq<PlannedAttempt>, leaves: Leaves): seq<Step> {
    seq(|plan|, k requires 0 <= k < |plan| => AttemptStep(outDir, plan[k], leaves))
  }

  /** What a run does to the disk: its directory, the attempts folder, the attempts in order, its own two files. */
  function RunSteps(outDir: Path, plan: seq<PlannedAttempt>, leaves: Leaves): seq<Step> {
    Opening(outDir) + AttemptSteps(outDir, plan, leaves) + [Step(Save, outDir, RUN_FILES)]
  }

  function Opening(outDir: Path): seq<Step> {
    [Step(Prepare, outDir, {}), Step(Make, outDir + ["attempts"], {})]
  }

  ghost predicate RealLeaves(leaves: Leaves) {
    forall a: PlannedAttempt :: RealFiles(leaves(a))
  }

  /** The disk shows what the first k steps leave. */
  predicate OnDisk(base: Tree, tree: Tree, steps: seq<Step>, k: nat) {
    k <= |steps| && Runs(base, steps[..k]) == Some(tree)
  }

  /** The k-th attempt is the first not to get through. */
  predicate Fails(base: Tree, steps: seq<Step>, plan: seq<PlannedAttempt>, execute: Executor, k: nat)
    requires |steps| == |plan|
  {
    k < |plan| && (execute(plan[k]).Raised? || Runs(base, steps[..k + 1]).None?)
  }

  lemma SliceSnoc<T>(before: seq<T>, after: seq<T>, start: nat)
    requires start <= |before| && |after| == |before| + 1 && before <= after
    ensures after[start..] == before[start..] + [after[|after| - 1]]
  {
    assert after == before + [after[|before|]];
  }

  lemma OnDiskSnoc(base: Tree, tree: Tree, steps: seq<Step>, k: nat)
    requires k < |steps| && OnDisk(base, tree, steps, k)
    ensures Runs(base, steps[..k + 1]) == if Fits(tree, steps[k]) then Some(After(tree, steps[k])) else None
  {
    assert steps[..k + 1] == steps[..k] + [steps[k]];
    RunsSnoc(base, steps[..k], steps[k]);
  }

  lemma FailureStops(base: Tree, steps: seq<Step>, plan: seq<PlannedAttempt>, execute: Executor, k: nat)
    requires |steps| == |plan| && Fails(base, steps, plan, execute, k)
    ensures !NoneRaised(plan, execute) || Runs(base, steps).None?
  {
    RunsConcat(base, steps[..k + 1], steps[k + 1..]);
    assert steps == steps[..k + 1] + steps[k + 1..];
  }

  datatype Config = Config(tasks: seq<string>, attempts: nat, policy: PolicyType)

  /** The last event closes a task or the run, and reports these attempts and their counts. */
  ghost predicate ClosedWithCounts(trace: seq<TraceEntry>, attempts: seq<AttemptRecord>) {
    && |trace| > 0
    && var e := trace[|trace| - 1].event;
       && (e.TaskFinished? || e.EvalFinished?)
       && e.attemptCount == |attempts| && LayerCounts.Tabulates(e.layerCounts, multiset(LayerCounts.AllLabels(attempts)))
  }

  class Evaluation {
    const disk: ArtifactDisk
    var trace: seq<TraceEntry>
    var attempts: seq<AttemptRecord>

    constructor (disk: ArtifactDisk)
      ensures this.disk == disk && trace == [] && attempts == []
    {
      this.disk, trace, attempts := disk, [], [];
    }

    method Append(e: Event)
      modifies this`trace
      ensures trace == old(trace) + [TraceEntry(|old(trace)|, e)]
      ensures Nesting(trace) == NestingStep(old(Nesting(trace)), e)
      ensures FinishedAttempts(trace) == WithFinished(old(FinishedAttempts(trace)), e)
      ensures Announced(trace) == WithAnnounced(old(Announced(trace)), e)
      ensures old(Numbered(trace)) ==> Numbered(trace)
    {
      TraceSnoc(trace, TraceEntry(|trace|, e));
      trace := trace + [TraceEntry(|trace|, e)];
    }

    /** One bracketed attempt; an exception, or a directory that is not free, leaves its bracket open. */
    method RunAttempt(outDir: Path, planned: PlannedAttempt, execute: Executor, leaves: Leaves, task: nat) returns (ok: bool)
      requires Nesting(trace) == TaskStack(task) && Numbered(trace) && disk.Valid() && RealFiles(leaves(planned))
      modifies this, disk
      ensures ok == (!execute(planned).Raised? && Fits(old(disk.tree), AttemptStep(outDir, planned, leaves)))
      ensures disk.Valid() && (ok ==> disk.tree == After(old(disk.tree), AttemptStep(outDir, planned, leaves)))
      ensures Numbered(trace) && Nesting(trace).Some?
      ensures ok ==> attempts == old(attempts) + [RecordFor(outDir, planned, execute(planned))]
      ensures ok ==> |trace| == |old(trace)| + 2 && Nesting(trace) == old(Nesting(trace))
      ensures ok ==> FinishedAttempts(trace) == old(FinishedAttempts(trace)) + [(task, planned.attemptIndex, planned.evalAttemptId)]
      ensures Announced(trace) == old(Announced(trace))
      ensures !ok ==> attempts == old(attempts) && FinishedAttempts(trace) == old(FinishedAttempts(trace))
    {
      AttemptBrackets(task, planned.attemptIndex, planned.evalAttemptId);
      Append(AttemptStarted(task, planned.attemptIndex, planned.evalAttemptId));
      var outcome := execute(planned);
      if outcome.Raised? {
        return false;
      }
      var free := disk.Leave(Prepare, AttemptDirectory(outDir, planned), leaves(planned));
      if !free {
        return false;
      }
      attempts := attempts + [RecordFor(outDir, planned, outcome)];
      Append(AttemptFinished(task, planned.attemptIndex, planned.evalAttemptId));
      return true;
    }

    /** The i-th attempt of task t, found by its identity. */
    method RunPlanned(outDir: Path, plan: seq<PlannedAttempt>, c: Config, execute: Executor, leaves: Leaves, t: nat, i: nat, ghost base: Tree, ghost steps: seq<Step>)
      returns (ok: bool)
      requires steps == AttemptSteps(outDir, plan, leaves)
      requires t < |c.tasks| && i < c.attempts && Unique(c.tasks) && PlanCovers(plan, c.tasks, c.attempts)
      requires Nesting(trace) == TaskStack(t) && disk.Valid() && RealLeaves(leaves)
      requires InStep(trace, attempts, outDir, c, plan, execute, PlannedBefore(c.tasks, c.attempts, t) + i)
      requires OnDisk(base, disk.tree, steps, PlannedBefore(c.tasks, c.attempts, t) + i)
      modifies this, disk
      ensures var k := PlannedBefore(c.tasks, c.attempts, t) + i;
        && k < |plan| && Nesting(trace).Some? && disk.Valid()
        && InStep(trace, attempts, outDir, c, plan, execute, if ok then k + 1 else k)
        && (if ok then OnDisk(base, disk.tree, steps, k + 1) else Fails(base, steps, plan, execute, k))
        && (ok ==> Nesting(trace) == old(Nesting(trace)) && |trace| == |old(trace)| + 2)
        && old(attempts) <= attempts
    {
      ghost var k := PlannedBefore(c.tasks, c.attempts, t) + i;
      var lookup := ByIdentity(plan);
      CoveringPlanListsProduct(plan, c.tasks, c.attempts);
      PlanAt(plan, c.tasks, c.attempts, t, i);
      assert PlanPairs(plan)[k] == (c.tasks[t], i);
      LookupFinds(plan, k);
      var planned := lookup[(c.tasks[t], i)];
      OnDiskSnoc(base, disk.tree, steps, k);
      ok := RunAttempt(outDir, planned, execute, leaves, t);
      if ok {
        InStepSnoc(old(trace), trace, old(attempts), outDir, c, plan, execute, k, (t, i, planned.evalAttemptId));
      }
    }

    /** All attempts of one task, with their own layer counts at the end. */
    method RunTask(outDir: Path, plan: seq<PlannedAttempt>, c: Config, execute: Executor, leaves: Leaves, t: nat, ghost base: Tree, ghost steps: seq<Step>)
      returns (ok: bool)
      requires steps == AttemptSteps(outDir, plan, leaves)
      requires t < |c.tasks| && Unique(c.tasks) && PlanCovers(plan, c.tasks, c.attempts)
      requires Nesting(trace) == Some([InEval]) && disk.Valid() && RealLeaves(leaves)
      requires InStep(trace, attempts, outDir, c, plan, execute, PlannedBefore(c.tasks, c.attempts, t))
      requires OnDisk(base, disk.tree, steps, PlannedBefore(c.tasks, c.attempts, t))
      modifies this, disk
      ensures Nesting(trace).Some? && InStep(trace, attempts, outDir, c, plan, execute, |attempts|) && disk.Valid()
      ensures ok ==> Nesting(trace) == Some([InEval]) && |trace| == |old(trace)| + 2 + 2 * c.attempts
      ensures ok ==> |attempts| == PlannedBefore(c.tasks, c.attempts, t + 1)
      ensures ok ==> |old(attempts)| <= |attempts| && ClosedWithCounts(trace, attempts[|old(attempts)|..])
      ensures if ok then OnDisk(base, disk.tree, steps, |attempts|)
              else Fails(base, steps, plan, execute, |attempts|)
    {
      TaskBrackets(t, 0, map[]);
      Append(TaskStarted(t));
      var taskAttempts: seq<AttemptRecord>;
      ok, taskAttempts := RunTaskAttempts(outDir, plan, c, execute, leaves, t, base, steps);
      if ok {
        var counts := LayerCounts.CountAttemptLayers(taskAttempts);
        TaskBrackets(t, |taskAttempts|, counts);
        Append(TaskFinished(t, |taskAttempts|, counts));
      }
    }

    /** RunPlanned, as far as the attempts after it depend on it. */
    method RunInTask(outDir: Path, plan: seq<PlannedAttempt>, c: Config, execute: Executor, leaves: Leaves, t: nat, i: nat, ghost base: Tree, ghost steps: seq<Step>)
      returns (ok: bool)
      requires steps == AttemptSteps(outDir, plan, leaves)
      requires t < |c.tasks| && i < c.attempts && Unique(c.tasks) && PlanCovers(plan, c.tasks, c.attempts)
      requires Nesting(trace) == TaskStack(t) && disk.Valid() && RealLeaves(leaves)
      requires InStep(trace, attempts, outDir, c, plan, execute, PlannedBefore(c.tasks, c.attempts, t) + i)
      requires OnDisk(base, disk.tree, steps, PlannedBefore(c.tasks, c.attempts, t) + i)
      modifies this, disk
      ensures Nesting(trace).Some? && disk.Valid()
      ensures InStep(trace, attempts, outDir, c, plan, execute, PlannedBefore(c.tasks, c.attempts, t) + (if ok then i + 1 else i))
      ensures ok ==> OnDisk(base, disk.tree, steps, PlannedBefore(c.tasks, c.attempts, t) + i + 1)
      ensures !ok ==> Fails(base, steps, plan, execute, |attempts|)
      ensures ok ==> Nesting(trace) == TaskStack(t) && |trace| == |old(trace)| + 2
      ensures var start := PlannedBefore(c.tasks, c.attempts, t);
        ok ==> attempts[start..] == old(attempts)[start..] + [attempts[|attempts| - 1]]
    {
      ghost var before := attempts;
      ok := RunPlanned(outDir, plan, c, execute, leaves, t, i, base, steps);
      if ok {
        SliceSnoc(before, attempts, PlannedBefore(c.tasks, c.attempts, t));
      }
    }

    method RunTaskAttempts(outDir: Path, plan: seq<PlannedAttempt>, c: Config, execute: Executor, leaves: Leaves, t: nat, ghost base: Tree, ghost steps: seq<Step>)
      returns (ok: bool, taskAttempts: seq<AttemptRecord>)
      requires steps == AttemptSteps(outDir, plan, leaves)
      requires t < |c.tasks| && Unique(c.tasks) && PlanCovers(plan, c.tasks, c.attempts)
      requires Nesting(trace) == TaskStack(t) && disk.Valid() && RealLeaves(leaves)
      requires InStep(trace, attempts, outDir, c, plan, execute, PlannedBefore(c.tasks, c.attempts, t))
      requires OnDisk(base, disk.tree, steps, PlannedBefore(c.tasks, c.attempts, t))
      modifies this, disk
      ensures Nesting(trace).Some? && InStep(trace, attempts, outDir, c, plan, execute, |attempts|) && disk.Valid()
      ensures ok ==> Nesting(trace) == TaskStack(t) && |trace| == |old(trace)| + 2 * c.attempts
      ensures ok ==> |attempts| == PlannedBefore(c.tasks, c.attempts, t + 1)
      ensures ok ==> |old(attempts)| <= |attempts| && taskAttempts == attempts[|old(attempts)|..]
      ensures if ok then OnDisk(base, disk.tree, steps, |attempts|)
              else Fails(base, steps, plan, execute, |attempts|)
    {
      ok, taskAttempts := true, [];
      ghost var start := PlannedBefore(c.tasks, c.attempts, t);
      for i := 0 to c.attempts
        invariant Nesting(trace) == TaskStack(t) && ok && disk.Valid()
        invariant InStep(trace, attempts, outDir, c, plan, execute, start + i)
        invariant OnDisk(base, disk.tree, steps, start + i)
        invariant |trace| == |old(trace)| + 2 * i
        invariant taskAttempts == attempts[start..]
      {
        ok := RunInTask(outDir, plan, c, execute, leaves, t, i, base, steps);
        if !ok {
          return;
        }
        taskAttempts := taskAttempts + [attempts[|attempts| - 1]];
      }
      PlannedBeforeStep(c.tasks, c.attempts, t);
    }

    /**
     run_eval_config from preparing its directory to writing its files; false when something raised: a directory that
     was not free, an attempt, or an id that repeats.
     */
    method Run(outDir: Path, plan: seq<PlannedAttempt>, c: Config, execute: Executor, leaves: Leaves) returns (ok: bool)
      requires trace == [] && attempts == [] && Unique(c.tasks) && PlanCovers(plan, c.tasks, c.attempts)
      requires disk.Valid() && RealLeaves(leaves)
      modifies this, disk
      ensures Nesting(trace).Some? && InStep(trace, attempts, outDir, c, plan, execute, |attempts|) && disk.Valid()
      ensures ok <==> NoneRaised(plan, execute) && Unique(PlanIds(plan)) && Runs(old(disk.tree), RunSteps(outDir, plan, leaves)).Some?
      ensures ok ==> Runs(old(disk.tree), RunSteps(outDir, plan, leaves)) == Some(disk.tree)
      ensures ok ==> attempts == RecordsFor(outDir, plan, execute)
      ensures ok ==> WellBracketed(trace) && |trace| == 2 + |c.tasks| * (2 + 2 * c.attempts)
      ensures ok ==> ClosedWithCounts(trace, attempts)
    {
      RunStepsRun(disk.tree, outDir, plan, leaves);
      ok := Open(outDir);
      if !ok {
        return;
      }
      ghost var begun := disk.tree;
      ok := RunTasks(outDir, plan, c, execute, leaves);
      if !ok {
        return;
      }
      RootStays(old(disk.tree), begun, disk.tree, outDir, plan, leaves);
      ok := disk.SaveFiles(outDir, RUN_FILES);
    }

    /** The run's directory and the attempts folder in it. */
    method Open(outDir: Path) returns (ok: bool)
      requires disk.Valid()
      modifies disk
      ensures disk.Valid() && ok == Runs(old(disk.tree), Opening(outDir)).Some?
      ensures ok ==> Runs(old(disk.tree), Opening(outDir)) == Some(disk.tree)
    {
      OpeningRuns(disk.tree, outDir);
      ok := disk.PrepareDirectory(outDir);
      if ok {
        ok := disk.MakeDirectory(outDir + ["attempts"]);
      }
    }

    method Announce(c: Config)
      requires trace == []
      modifies this`trace
      ensures |trace| == 1 && Nesting(trace) == Some([InEval]) && Numbered(trace)
      ensures FinishedAttempts(trace) == [] && Announced(trace) == [(|c.tasks|, c.attempts)]
    {
      Append(EvalStarted(|c.tasks|, c.attempts));
    }

    /** From eval_started to eval_finished. */
    method RunTasks(outDir: Path, plan: seq<PlannedAttempt>, c: Config, execute: Executor, leaves: Leaves) returns (ok: bool)
      requires trace == [] && attempts == [] && Unique(c.tasks) && PlanCovers(plan, c.tasks, c.attempts)
      requires disk.Valid() && RealLeaves(leaves)
      modifies this, disk
      ensures Nesting(trace).Some? && InStep(trace, attempts, outDir, c, plan, execute, |attempts|) && disk.Valid()
      ensures ok <==> NoneRaised(plan, execute) && Unique(PlanIds(plan)) && Runs(old(disk.tree), AttemptSteps(outDir, plan, leaves)).Some?
      ensures ok ==> Runs(old(disk.tree), AttemptSteps(outDir, plan, leaves)) == Some(disk.tree)
      ensures ok ==> attempts == RecordsFor(outDir, plan, execute)
      ensures ok ==> WellBracketed(trace) && |trace| == 2 + |c.tasks| * (2 + 2 * c.attempts)
      ensures ok ==> ClosedWithCounts(trace, attempts)
    {
      ghost var base := disk.tree;
      ghost var steps := AttemptSteps(outDir, plan, leaves);
      Announce(c);
      ok := RunAllTasks(outDir, plan, c, execute, leaves, base, steps);
      if !ok {
        FailureStops(base, steps, plan, execute, |attempts|);
        return;
      }
      AllExecuted(attempts, outDir, plan, execute);
      assert steps[..|plan|] == steps;
      ok := UniqueIds(attempts);
      if !ok {
        return;
      }
      var counts := LayerCounts.CountAttemptLayers(attempts);
      Append(EvalFinished(|attempts|, counts));
    }

    method RunAllTasks(outDir: Path, plan: seq<PlannedAttempt>, c: Config, execute: Executor, leaves: Leaves, ghost base: Tree, ghost steps: seq<Step>)
      returns (ok: bool)
      requires steps == AttemptSteps(outDir, plan, leaves) && base == disk.tree
      requires attempts == [] && Unique(c.tasks) && PlanCovers(plan, c.tasks, c.attempts)
      requires Nesting(trace) == Some([InEval]) && |trace| == 1 && Numbered(trace) && FinishedAttempts(trace) == [] && Announced(trace) == [(|c.tasks|, c.attempts)]
      requires disk.Valid() && RealLeaves(leaves)
      modifies this, disk
      ensures Nesting(trace).Some? && InStep(trace, attempts, outDir, c, plan, execute, |attempts|) && disk.Valid()
      ensures ok ==> Nesting(trace) == Some([InEval]) && |trace| == 1 + |c.tasks| * (2 + 2 * c.attempts) && |attempts| == |plan|
      ensures if ok then OnDisk(base, disk.tree, steps, |plan|) else Fails(base, steps, plan, execute, |attempts|)
    {
      ok := true;
      assert steps[..0] == [];
      NothingShownYet(trace, outDir, c, plan, execute);
      for t := 0 to |c.tasks|
        invariant Nesting(trace) == Some([InEval]) && disk.Valid() && ok
        invariant |attempts| == PlannedBefore(c.tasks, c.attempts, t)
        invariant InStep(trace, attempts, outDir, c, plan, execute, |attempts|) && OnDisk(base, disk.tree, steps, |attempts|)
        invariant |trace| == LengthAfter(t, c.attempts)
      {
        ok := NextTask(outDir, plan, c, execute, leaves, t, base, steps);
        if !ok {
          return;
        }
      }
      PlannedInAll(plan, c.tasks, c.attempts);
      LengthAfterIs(|c.tasks|, c.attempts);
    }

    /** RunTask, as far as the tasks after it depend on it. */
    method NextTask(outDir: Path, plan: seq<PlannedAttempt>, c: Config, execute: Executor, leaves: Leaves, t: nat, ghost base: Tree, ghost steps: seq<Step>)
      returns (ok: bool)
      requires steps == AttemptSteps(outDir, plan, leaves)
      requires t < |c.tasks| && Unique(c.tasks) && PlanCovers(plan, c.tasks, c.attempts)
      requires Nesting(trace) == Some([InEval]) && disk.Valid() && RealLeaves(leaves) && |attempts| == PlannedBefore(c.tasks, c.attempts, t)
      requires InStep(trace, attempts, outDir, c, plan, execute, |attempts|) && OnDisk(base, disk.tree, steps, |attempts|)
      modifies this, disk
      ensures Nesting(trace).Some? && InStep(trace, attempts, outDir, c, plan, execute, |attempts|) && disk.Valid()
      ensures ok ==> Nesting(trace) == Some([InEval]) && |trace| == |old(trace)| + 2 + 2 * c.attempts
      ensures ok ==> |attempts| == PlannedBefore(c.tasks, c.attempts, t + 1)
      ensures if ok then OnDisk(base, disk.tree, steps, |attempts|) else Fails(base, steps, plan, execute, |attempts|)
    {
      ok := RunTask(outDir, plan, c, execute, leaves, t, base, steps);
    }
  }

  /** Events in the trace once t tasks are closed. */
  ghost function LengthAfter(t: nat, n: nat): nat {
    if t == 0 then 1 else LengthAfter(t - 1, n) + 2 + 2 * n
  }

  lemma {:induction false} LengthAfterIs(t: nat, n: nat)
    ensures LengthAfter(t, n) == 1 + t * (2 + 2 * n)
  {
    if t > 0 {
      LengthAfterIs(t - 1, n);
      TimesSuccessor(t - 1, 2 + 2 * n);
    }
  }

  lemma OpeningRuns(t: Tree, outDir: Path)
    ensures var prepare, make := Step(Prepare, outDir, {}), Step(Make, outDir + ["attempts"], {});
      Runs(t, Opening(outDir)) ==
        if Fits(t, prepare) && Fits(After(t, prepare), make) then Some(After(After(t, prepare), make)) else None
  {
    var prepare, make := Step(Prepare, outDir, {}), Step(Make, outDir + ["attempts"], {});
    RunsSnoc(t, [], prepare);
    RunsSnoc(t, [prepare], make);
    assert [] + [prepare] == [prepare] && [prepare] + [make] == Opening(outDir);
  }

  lemma RunStepsRun(t: Tree, outDir: Path, plan: seq<PlannedAttempt>, leaves: Leaves)
    ensures var begun := Runs(t, Opening(outDir));
      var attempted := if begun.Some? then Runs(begun.value, AttemptSteps(outDir, plan, leaves)) else None;
      Runs(t, RunSteps(outDir, plan, leaves)) ==
        if attempted.Some? && Fits(attempted.value, Step(Save, outDir, RUN_FILES))
        then Some(After(attempted.value, Step(Save, outDir, RUN_FILES))) else None
  {
    var steps := AttemptSteps(outDir, plan, leaves);
    RunsConcat(t, Opening(outDir), steps);
    RunsSnoc(t, Opening(outDir) + steps, Step(Save, outDir, RUN_FILES));
  }

  /** Steps never remove a folder. */
  lemma {:induction false} FoldersStay(t: Tree, steps: seq<Step>)
    ensures Runs(t, steps).Some? ==> t.folders <= Runs(t, steps).value.folders
  {
    if |steps| > 0 {
      FoldersStay(t, steps[..|steps| - 1]);
    }
  }

  lemma RootStays(t: Tree, begun: Tree, attempted: Tree, outDir: Path, plan: seq<PlannedAttempt>, leaves: Leaves)
    requires Runs(t, Opening(outDir)) == Some(begun) && Runs(begun, AttemptSteps(outDir, plan, leaves)) == Some(attempted)
    ensures outDir in attempted.folders && RealFiles(RUN_FILES)
  {
    OpeningRuns(t, outDir);
    PrefixIs(outDir, outDir);
    FoldersStay(begun, AttemptSteps(outDir, plan, leaves));
  }

  lemma AllExecuted(attempts: seq<AttemptRecord>, outDir: seq<string>, plan: seq<PlannedAttempt>, execute: Executor)
    requires Executed(attempts, outDir, plan, execute, |plan|)
    ensures NoneRaised(plan, execute) && attempts == RecordsFor(outDir, plan, execute)
    ensures RecordIds(attempts) == PlanIds(plan)
  {
  }

  function RecordIds(attempts: seq<AttemptRecord>): seq<string> {
    seq(|attempts|, k requires 0 <= k < |attempts| => attempts[k].evalAttemptId)
  }

  /** _validate_unique_eval_attempt_ids: one pass with a set of seen ids and a set of repeated ones. */
  method UniqueIds(attempts: seq<AttemptRecord>) returns (unique: bool)
    ensures unique <==> Unique(RecordIds(attempts))
  {
    var seen: set<string>, duplicates: set<string> := {}, {};
    ghost var ids := RecordIds(attempts);
    for i := 0 to |attempts|
      invariant seen == Elements(ids[..i])
      invariant duplicates == {} <==> Unique(ids[..i])
    {
      var id := attempts[i].evalAttemptId;
      UniqueSnoc(ids[..i], id);
      assert ids[..i + 1] == ids[..i] + [id];
      assert id in seen <==> id in ids[..i];
      if id in seen {
        duplicates := duplicates + {id};
      }
      seen := seen + {id};
    }
    assert ids[..|attempts|] == ids;
    unique := duplicates == {};
  }
}
