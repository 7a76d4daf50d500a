/**
 A whole control calibration: every task's scorer and agent controls run `repeats` times, declared public checks
 calibrated, the records grouped for flake detection, and one manifest over all of it.
 */
module ControlCalibration {
  import opened Wrappers
  import opened EvalPlan
  import opened FlakeDetection
  import opened ArtifactTree
  import opened ControlPaths
  import ArtifactRefs
  import Decimal

  /** A discovered task; `idempotent` says of each public check whether its tests are declared idempotent. */
  datatype ControlTask = ControlTask(taskId: string, manifestHash: string, idempotent: seq<bool>)

  datatype Outcome = Outcome(hashes: Hashes, matched: bool)

  /** The output directory, what attempts and checks come out as, and the files they leave. */
  datatype World = World(
    outDir: Path,
    attempt: (Layer, string, string, nat) -> Outcome, files: (Layer, string, string, nat) -> set<Path>,
    check: (string, nat) -> seq<CheckRun>, checkFiles: (string, nat) -> set<Path>)

  const SCORER_CONTROLS := ["oracle", "bad.noop", "bad.public_only"]
  const AGENT_CONTROLS := ["happy", "malformed", "recoverable"]
  const CHECKS_DIR := "public_check_idempotency"

  function Controls(layer: Layer): seq<string> {
    if layer == ScorerLayer then SCORER_CONTROLS else AGENT_CONTROLS
  }

  function LayerDir(layer: Layer): string {
    if layer == ScorerLayer then "scorer_control_patches" else "agent_control_scripts"
  }

  function TaskIds(tasks: seq<ControlTask>): seq<string> {
    seq(|tasks|, i requires 0 <= i < |tasks| => tasks[i].taskId)
  }

  // ---------------------------------------------------------------- directories

  /** _control_slug, which agent controls do without: none of their names has a dot. */
  function Slug(control: string): string {
    seq(|control|, i requires 0 <= i < |control| => if control[i] == '.' then '_' else control[i])
  }

  function RunSuffix(control: string, index: nat): string {
    "__" + Slug(control) + "__repeat" + "_" + Decimal.Padded(index + 1, 3)
  }

  function RunPath(w: World, layer: Layer, task: string, control: string, index: nat): ArtifactRefs.PurePath {
    TaggedPath(w.outDir, LayerDir(layer), task, RunSuffix(control, index))
  }

  function CheckSuffix(index: nat): string {
    "__public_check" + "_" + Decimal.Padded(index + 1, 3)
  }

  function CheckPath(w: World, task: string, index: nat): ArtifactRefs.PurePath {
    TaggedPath(w.outDir, CHECKS_DIR, task, CheckSuffix(index))
  }

  lemma ControlIsOne(layer: Layer, control: string)
    requires control in Controls(layer)
    ensures exists k :: 0 <= k < 3 && control == Controls(layer)[k]
  {
  }

  lemma ControlsEndDifferently(layer: Layer, a: string, b: string)
    requires a in Controls(layer) && b in Controls(layer)
    ensures |a| > 0 && |b| > 0 && (a[|a| - 1] == b[|b| - 1] ==> a == b)
    ensures a[|a| - 1] != '.' && b[|b| - 1] != '.'
  {
    ControlIsOne(layer, a);
    ControlIsOne(layer, b);
  }

  lemma ControlIsPlain(layer: Layer, control: string)
    requires control in Controls(layer)
    ensures '/' !in control && '\\' !in control
  {
    ControlIsOne(layer, control);
  }

  /** Slugs end in different letters, so the task can be read off the name again. */
  lemma StemIsInjective(layer: Layer, t1: string, c1: string, t2: string, c2: string)
    requires c1 in Controls(layer) && c2 in Controls(layer) && t1 + "__" + Slug(c1) == t2 + "__" + Slug(c2)
    ensures t1 == t2 && c1 == c2
  {
    var a, b := t1 + "__" + Slug(c1), t2 + "__" + Slug(c2);
    ControlsEndDifferently(layer, c1, c2);
    assert a[|a| - 1] == c1[|c1| - 1] && b[|b| - 1] == c2[|c2| - 1];
    assert t1 == a[..|t1|] && t2 == b[..|t2|];
  }

  /** Among the controls of one layer a run's name tells the task, the control and the repeat. */
  lemma RunNameIsInjective(layer: Layer, t1: string, c1: string, i1: nat, t2: string, c2: string, i2: nat)
    requires c1 in Controls(layer) && c2 in Controls(layer) && t1 + RunSuffix(c1, i1) == t2 + RunSuffix(c2, i2)
    ensures t1 == t2 && c1 == c2 && i1 == i2
  {
    RunNameIs(t1, c1, i1);
    RunNameIs(t2, c2, i2);
    NumberedNameIsInjective(t1 + "__" + Slug(c1), "__repeat", i1, t2 + "__" + Slug(c2), i2);
    StemIsInjective(layer, t1, c1, t2, c2);
  }

  lemma RunNameIs(task: string, control: string, index: nat)
    ensures task + RunSuffix(control, index) == (task + "__" + Slug(control)) + "__repeat" + "_" + Decimal.Padded(index + 1, 3)
  {
  }

  lemma RunSuffixIsTag(layer: Layer, control: string, index: nat)
    requires control in Controls(layer)
    ensures Tag(RunSuffix(control, index))
  {
    ControlIsPlain(layer, control);
    var slug, numeral := Slug(control), Decimal.Padded(index + 1, 3);
    assert '/' !in slug && '\\' !in slug;
    assert forall i :: 0 <= i < |numeral| ==> Decimal.IsDigit(numeral[i]);
    assert '/' !in "__" && '\\' !in "__" && '/' !in "__repeat" && '\\' !in "__repeat" && '/' !in "_" && '\\' !in "_";
    var suffix := RunSuffix(control, index);
    assert suffix[0] == '_' && suffix[1] == '_';
  }

  lemma CheckSuffixIsTag(index: nat)
    ensures Tag(CheckSuffix(index))
  {
    var numeral := Decimal.Padded(index + 1, 3);
    assert forall i :: 0 <= i < |numeral| ==> Decimal.IsDigit(numeral[i]);
    assert '/' !in "__public_check" && '\\' !in "__public_check" && '/' !in "_" && '\\' !in "_";
    var suffix := CheckSuffix(index);
    assert suffix[0] == '_' && suffix[1] == '_';
  }

  lemma LayerDirIsPlain(layer: Layer)
    ensures PlainFolder(LayerDir(layer))
  {
  }

  // ---------------------------------------------------------------- the records, as a function

  function RecordOf(t: ControlTask, layer: Layer, control: string, index: nat, w: World): Record {
    var outcome := w.attempt(layer, t.taskId, control, index);
    Record(layer, t.taskId, control, index, RunPath(w, layer, t.taskId, control, index), outcome.hashes, outcome.matched)
  }

  function RepeatRecords(t: ControlTask, layer: Layer, control: string, repeats: nat, w: World): seq<Record> {
    seq(repeats, i requires 0 <= i < repeats => RecordOf(t, layer, control, i, w))
  }

  function LayerRecords(t: ControlTask, layer: Layer, controls: seq<string>, repeats: nat, w: World): seq<Record> {
    if |controls| == 0 then []
    else
      var n := |controls| - 1;
      LayerRecords(t, layer, controls[..n], repeats, w) + RepeatRecords(t, layer, controls[n], repeats, w)
  }

  function TaskRecords(t: ControlTask, repeats: nat, w: World): seq<Record> {
    LayerRecords(t, ScorerLayer, SCORER_CONTROLS, repeats, w) + LayerRecords(t, AgentLayer, AGENT_CONTROLS, repeats, w)
  }

  function AllRecords(tasks: seq<ControlTask>, repeats: nat, w: World): seq<Record> {
    if |tasks| == 0 then []
    else
      var n := |tasks| - 1;
      AllRecords(tasks[..n], repeats, w) + TaskRecords(tasks[n], repeats, w)
  }

  predicate IsRun(r: Record, t: ControlTask, layer: Layer, control: string, repeats: nat, w: World) {
    r.repeatIndex < repeats && r == RecordOf(t, layer, control, r.repeatIndex, w)
  }

  lemma RepeatHolds(t: ControlTask, layer: Layer, control: string, repeats: nat, w: World, r: Record)
    ensures r in RepeatRecords(t, layer, control, repeats, w) <==> IsRun(r, t, layer, control, repeats, w)
  {
    if IsRun(r, t, layer, control, repeats, w) {
      assert RepeatRecords(t, layer, control, repeats, w)[r.repeatIndex] == r;
    }
  }

  lemma {:induction false} LayerRecordsHold(t: ControlTask, layer: Layer, controls: seq<string>, repeats: nat, w: World, r: Record)
    ensures r in LayerRecords(t, layer, controls, repeats, w) <==> r.controlName in controls && IsRun(r, t, layer, r.controlName, repeats, w)
  {
    if |controls| > 0 {
      var n := |controls| - 1;
      LayerRecordsHold(t, layer, controls[..n], repeats, w, r);
      RepeatHolds(t, layer, controls[n], repeats, w, r);
      assert controls == controls[..n] + [controls[n]];
    }
  }

  predicate IsTaskRun(r: Record, t: ControlTask, repeats: nat, w: World) {
    r.controlName in Controls(r.layer) && IsRun(r, t, r.layer, r.controlName, repeats, w)
  }

  lemma TaskRecordsHold(t: ControlTask, repeats: nat, w: World, r: Record)
    ensures r in TaskRecords(t, repeats, w) <==> IsTaskRun(r, t, repeats, w)
  {
    LayerRecordsHold(t, ScorerLayer, SCORER_CONTROLS, repeats, w, r);
    LayerRecordsHold(t, AgentLayer, AGENT_CONTROLS, repeats, w, r);
  }

  predicate SomeRun(tasks: seq<ControlTask>, repeats: nat, w: World, r: Record) {
    exists t :: t in tasks && IsTaskRun(r, t, repeats, w)
  }

  lemma SomeRunSnoc(front: seq<ControlTask>, last: ControlTask, repeats: nat, w: World, r: Record)
    ensures SomeRun(front + [last], repeats, w, r) <==> SomeRun(front, repeats, w, r) || IsTaskRun(r, last, repeats, w)
  {
    if t :| t in front && IsTaskRun(r, t, repeats, w) {
      assert t in front + [last];
    }
    assert last in front + [last];
  }

  lemma {:induction false} RecordsAreRuns(tasks: seq<ControlTask>, repeats: nat, w: World, r: Record)
    ensures r in AllRecords(tasks, repeats, w) <==> SomeRun(tasks, repeats, w, r)
  {
    if |tasks| > 0 {
      var n := |tasks| - 1;
      RecordsAreRuns(tasks[..n], repeats, w, r);
      TaskRecordsHold(tasks[n], repeats, w, r);
      SomeRunSnoc(tasks[..n], tasks[n], repeats, w, r);
      assert tasks == tasks[..n] + [tasks[n]];
    }
  }

  /** The records are exactly the runs of each task's controls with each repeat index. */
  lemma RecordsHold(tasks: seq<ControlTask>, repeats: nat, w: World, r: Record)
    ensures r in AllRecords(tasks, repeats, w) <==> exists t :: t in tasks && IsTaskRun(r, t, repeats, w)
  {
    RecordsAreRuns(tasks, repeats, w, r);
  }

  /** Three scorer controls and three agent controls, by name; each of them with every repeat of every task, and nothing else. */
  lemma ControlsAreTold(tasks: seq<ControlTask>, repeats: nat, w: World, layer: Layer, task: string, control: string, index: nat)
    ensures (exists r :: r in AllRecords(tasks, repeats, w) && (r.layer, r.taskId, r.controlName, r.repeatIndex) == (layer, task, control, index)) <==>
      && index < repeats && (exists t :: t in tasks && t.taskId == task)
      && control in (if layer == ScorerLayer then {"oracle", "bad.noop", "bad.public_only"} else {"happy", "malformed", "recoverable"})
  {
    ControlNames(layer, control);
    forall r | r in AllRecords(tasks, repeats, w) && (r.layer, r.taskId, r.controlName, r.repeatIndex) == (layer, task, control, index)
      ensures index < repeats && control in Controls(layer) && exists t :: t in tasks && t.taskId == task
    {
      RecordsHold(tasks, repeats, w, r);
    }
    forall t | t in tasks && t.taskId == task && index < repeats && control in Controls(layer)
      ensures exists r :: r in AllRecords(tasks, repeats, w) && (r.layer, r.taskId, r.controlName, r.repeatIndex) == (layer, task, control, index)
    {
      var r := RecordOf(t, layer, control, index, w);
      assert IsTaskRun(r, t, repeats, w);
      RecordsHold(tasks, repeats, w, r);
    }
  }

  lemma ControlNames(layer: Layer, control: string)
    ensures control in Controls(layer) <==>
      control in (if layer == ScorerLayer then {"oracle", "bad.noop", "bad.public_only"} else {"happy", "malformed", "recoverable"})
  {
    assert Controls(layer)[0] in Controls(layer) && Controls(layer)[1] in Controls(layer) && Controls(layer)[2] in Controls(layer);
  }

  // ---------------------------------------------------------------- nothing twice

  lemma UniqueConcat<T>(a: seq<T>, b: seq<T>)
    requires Unique(a) && Unique(b) && forall x :: x in a ==> x !in b
    ensures Unique(a + b)
  {
    var s := a + b;
    forall i, j | 0 <= i < j < |s| ensures s[i] != s[j] {
      if i < |a| <= j {
        assert s[i] in a && s[j] in b;
      }
    }
  }

  lemma {:induction false} LayerRecordsUnique(t: ControlTask, layer: Layer, controls: seq<string>, repeats: nat, w: World)
    requires Unique(controls)
    ensures Unique(LayerRecords(t, layer, controls, repeats, w))
  {
    if |controls| > 0 {
      var n := |controls| - 1;
      LayerRecordsUnique(t, layer, controls[..n], repeats, w);
      var a, b := LayerRecords(t, layer, controls[..n], repeats, w), RepeatRecords(t, layer, controls[n], repeats, w);
      forall i, j | 0 <= i < j < |b| ensures b[i] != b[j] {
        assert b[i].repeatIndex == i && b[j].repeatIndex == j;
      }
      forall r | r in a ensures r !in b {
        LayerRecordsHold(t, layer, controls[..n], repeats, w, r);
        RepeatHolds(t, layer, controls[n], repeats, w, r);
      }
      UniqueConcat(a, b);
    }
  }

  lemma ControlsAreUnique(layer: Layer)
    ensures Unique(Controls(layer))
  {
  }

  lemma TaskRecordsUnique(t: ControlTask, repeats: nat, w: World)
    ensures Unique(TaskRecords(t, repeats, w))
  {
    ControlsAreUnique(ScorerLayer);
    ControlsAreUnique(AgentLayer);
    LayerRecordsUnique(t, ScorerLayer, SCORER_CONTROLS, repeats, w);
    LayerRecordsUnique(t, AgentLayer, AGENT_CONTROLS, repeats, w);
    var a, b := LayerRecords(t, ScorerLayer, SCORER_CONTROLS, repeats, w), LayerRecords(t, AgentLayer, AGENT_CONTROLS, repeats, w);
    forall r | r in a ensures r !in b {
      LayerRecordsHold(t, ScorerLayer, SCORER_CONTROLS, repeats, w, r);
      LayerRecordsHold(t, AgentLayer, AGENT_CONTROLS, repeats, w, r);
    }
    UniqueConcat(a, b);
  }

  lemma FewerTaskIds(tasks: seq<ControlTask>)
    requires |tasks| > 0 && Unique(TaskIds(tasks))
    ensures var n := |tasks| - 1;
      Unique(TaskIds(tasks[..n])) && forall t :: t in tasks[..n] ==> t.taskId != tasks[n].taskId
  {
    var n := |tasks| - 1;
    forall i, j | 0 <= i < j < n ensures TaskIds(tasks[..n])[i] != TaskIds(tasks[..n])[j] {
      assert TaskIds(tasks)[i] != TaskIds(tasks)[j];
    }
    forall t | t in tasks[..n] ensures t.taskId != tasks[n].taskId {
      var i :| 0 <= i < n && tasks[i] == t;
      assert TaskIds(tasks)[i] != TaskIds(tasks)[n];
    }
  }

  lemma {:induction false} RecordsUnique(tasks: seq<ControlTask>, repeats: nat, w: World)
    requires Unique(TaskIds(tasks))
    ensures Unique(AllRecords(tasks, repeats, w))
  {
    if |tasks| > 0 {
      var n := |tasks| - 1;
      FewerTaskIds(tasks);
      RecordsUnique(tasks[..n], repeats, w);
      TaskRecordsUnique(tasks[n], repeats, w);
      var a, b := AllRecords(tasks[..n], repeats, w), TaskRecords(tasks[n], repeats, w);
      forall r | r in a ensures r !in b {
        RecordsHold(tasks[..n], repeats, w, r);
        TaskRecordsHold(tasks[n], repeats, w, r);
      }
      UniqueConcat(a, b);
    }
  }

  lemma SameTaskId(tasks: seq<ControlTask>, t: ControlTask, u: ControlTask)
    requires Unique(TaskIds(tasks)) && t in tasks && u in tasks && t.taskId == u.taskId
    ensures t == u
  {
    var i :| 0 <= i < |tasks| && tasks[i] == t;
    var j :| 0 <= j < |tasks| && tasks[j] == u;
    assert TaskIds(tasks)[i] == TaskIds(tasks)[j];
  }

  /** A task, a control and a repeat index name one record. */
  lemma OneRecordPerIdentity(tasks: seq<ControlTask>, repeats: nat, w: World, r: Record, q: Record)
    requires Unique(TaskIds(tasks)) && r in AllRecords(tasks, repeats, w) && q in AllRecords(tasks, repeats, w)
    requires SameRepeat(r, q)
    ensures r == q
  {
    RecordsHold(tasks, repeats, w, r);
    RecordsHold(tasks, repeats, w, q);
    var t :| t in tasks && IsTaskRun(r, t, repeats, w);
    var u :| u in tasks && IsTaskRun(q, u, repeats, w);
    SameTaskId(tasks, t, u);
  }

  // ---------------------------------------------------------------- public checks

  function CheckOf(t: ControlTask, index: nat, w: World): Calibration {
    var runs := w.check(t.taskId, index);
    Calibration(t.taskId, t.manifestHash, index, DerivedStatus(runs), Reasons(runs), runs)
  }

  /** The calibrations of the first n public checks of a task. */
  function TaskChecks(t: ControlTask, n: nat, w: World): seq<Calibration>
    requires n <= |t.idempotent|
  {
    if n == 0 then [] else TaskChecks(t, n - 1, w) + (if t.idempotent[n - 1] then [CheckOf(t, n - 1, w)] else [])
  }

  function AllChecks(tasks: seq<ControlTask>, w: World): seq<Calibration> {
    if |tasks| == 0 then []
    else
      var n := |tasks| - 1;
      AllChecks(tasks[..n], w) + TaskChecks(tasks[n], |tasks[n].idempotent|, w)
  }

  predicate IsCheck(c: Calibration, t: ControlTask, n: nat, w: World) {
    c.publicCheckIndex < n && n <= |t.idempotent| && t.idempotent[c.publicCheckIndex] && c == CheckOf(t, c.publicCheckIndex, w)
  }

  lemma {:induction false} TaskChecksHold(t: ControlTask, n: nat, w: World, c: Calibration)
    requires n <= |t.idempotent|
    ensures c in TaskChecks(t, n, w) <==> IsCheck(c, t, n, w)
  {
    if n > 0 {
      TaskChecksHold(t, n - 1, w, c);
    }
  }

  lemma {:induction false} ChecksHold(tasks: seq<ControlTask>, w: World, c: Calibration)
    ensures c in AllChecks(tasks, w) <==> exists t :: t in tasks && IsCheck(c, t, |t.idempotent|, w)
  {
    if |tasks| > 0 {
      var n := |tasks| - 1;
      ChecksHold(tasks[..n], w, c);
      TaskChecksHold(tasks[n], |tasks[n].idempotent|, w, c);
      assert tasks == tasks[..n] + [tasks[n]];
    }
  }

  lemma {:induction false} TaskChecksUnique(t: ControlTask, n: nat, w: World)
    requires n <= |t.idempotent|
    ensures Unique(TaskChecks(t, n, w))
  {
    if n > 0 {
      TaskChecksUnique(t, n - 1, w);
      var rest, last := TaskChecks(t, n - 1, w), CheckOf(t, n - 1, w);
      TaskChecksHold(t, n - 1, w, last);
      UniqueSnoc(rest, last);
      assert rest + [] == rest;
    }
  }

  lemma {:induction false} ChecksUnique(tasks: seq<ControlTask>, w: World)
    requires Unique(TaskIds(tasks))
    ensures Unique(AllChecks(tasks, w))
  {
    if |tasks| > 0 {
      var n := |tasks| - 1;
      FewerTaskIds(tasks);
      ChecksUnique(tasks[..n], w);
      TaskChecksUnique(tasks[n], |tasks[n].idempotent|, w);
      var a, b := AllChecks(tasks[..n], w), TaskChecks(tasks[n], |tasks[n].idempotent|, w);
      forall c | c in a ensures c !in b {
        ChecksHold(tasks[..n], w, c);
        TaskChecksHold(tasks[n], |tasks[n].idempotent|, w, c);
      }
      UniqueConcat(a, b);
    }
  }

  /** Two tasks whose manifests hash alike calibrate no check with the same index. */
  predicate NoSharedCheck(tasks: seq<ControlTask>) {
    forall t, u :: t in tasks && u in tasks ==> !SharesCheck(t, u)
  }

  predicate SharesCheck(t: ControlTask, u: ControlTask) {
    && t.taskId != u.taskId && t.manifestHash == u.manifestHash
    && exists k :: 0 <= k < |t.idempotent| && k < |u.idempotent| && t.idempotent[k] && u.idempotent[k]
  }

  lemma ChecksDistinctIff(tasks: seq<ControlTask>, w: World)
    requires Unique(TaskIds(tasks))
    ensures DistinctChecks(AllChecks(tasks, w)) <==> NoSharedCheck(tasks)
  {
    var checks := AllChecks(tasks, w);
    ChecksUnique(tasks, w);
    if NoSharedCheck(tasks) {
      forall i, j | 0 <= i < j < |checks|
        ensures (checks[i].taskManifestHash, checks[i].publicCheckIndex) != (checks[j].taskManifestHash, checks[j].publicCheckIndex)
      {
        ChecksHold(tasks, w, checks[i]);
        ChecksHold(tasks, w, checks[j]);
        var t :| t in tasks && IsCheck(checks[i], t, |t.idempotent|, w);
        var u :| u in tasks && IsCheck(checks[j], u, |u.idempotent|, w);
        if t.taskId == u.taskId {
          SameTaskId(tasks, t, u);
        }
        assert !SharesCheck(t, u);
      }
    }
    forall t, u | t in tasks && u in tasks && SharesCheck(t, u) ensures !DistinctChecks(checks) {
      var k :| 0 <= k < |t.idempotent| && k < |u.idempotent| && t.idempotent[k] && u.idempotent[k];
      SharedCheckClashes(tasks, w, t, u, k);
    }
  }

  lemma SharedCheckClashes(tasks: seq<ControlTask>, w: World, t: ControlTask, u: ControlTask, k: nat)
    requires t in tasks && u in tasks && t.taskId != u.taskId && t.manifestHash == u.manifestHash
    requires k < |t.idempotent| && k < |u.idempotent| && t.idempotent[k] && u.idempotent[k]
    ensures !DistinctChecks(AllChecks(tasks, w))
  {
    var checks := AllChecks(tasks, w);
    var c, d := CheckOf(t, k, w), CheckOf(u, k, w);
    assert IsCheck(c, t, |t.idempotent|, w) && IsCheck(d, u, |u.idempotent|, w);
    ChecksHold(tasks, w, c);
    ChecksHold(tasks, w, d);
    var i :| 0 <= i < |checks| && checks[i] == c;
    var j :| 0 <= j < |checks| && checks[j] == d;
    assert i != j;
    var a, b := if i < j then i else j, if i < j then j else i;
    assert (checks[a].taskManifestHash, checks[a].publicCheckIndex) == (checks[b].taskManifestHash, checks[b].publicCheckIndex);
  }

  // ---------------------------------------------------------------- what a calibration does to the disk

  const REPORT_FILES: set<Path> := {["control_results.jsonl"], ["manifest.json"], ["control_report.md"]}

  function RunStep(r: Record, w: World): Step {
    Step(Prepare, ArtifactRefs.Located(r.artifactDir), w.files(r.layer, r.taskId, r.controlName, r.repeatIndex))
  }

  function CheckStep(c: Calibration, w: World): Step {
    Step(MakeNew, ArtifactRefs.Located(CheckPath(w, c.taskId, c.publicCheckIndex)), w.checkFiles(c.taskId, c.publicCheckIndex))
  }

  function RunSteps(records: seq<Record>, w: World): seq<Step> {
    seq(|records|, i requires 0 <= i < |records| => RunStep(records[i], w))
  }

  function CheckSteps(checks: seq<Calibration>, w: World): seq<Step> {
    seq(|checks|, i requires 0 <= i < |checks| => CheckStep(checks[i], w))
  }

  function TaskSteps(t: ControlTask, repeats: nat, w: World): seq<Step> {
    TaskCheckSteps(t, |t.idempotent|, w) + RunSteps(TaskRecords(t, repeats, w), w)
  }

  function AllTaskSteps(tasks: seq<ControlTask>, repeats: nat, w: World): seq<Step> {
    if |tasks| == 0 then []
    else
      var n := |tasks| - 1;
      AllTaskSteps(tasks[..n], repeats, w) + TaskSteps(tasks[n], repeats, w)
  }

  function Opening(w: World): seq<Step> {
    [Step(Make, w.outDir, {}), Step(Make, w.outDir + [LayerDir(ScorerLayer)], {}), Step(Make, w.outDir + [LayerDir(AgentLayer)], {}),
     Step(Make, w.outDir + [CHECKS_DIR], {})]
  }

  /** The output directory and its folders, each task's checks and runs in order, the three files of the calibration. */
  function CalibrationSteps(tasks: seq<ControlTask>, repeats: nat, w: World): seq<Step> {
    Opening(w) + AllTaskSteps(tasks, repeats, w) + [Step(Save, w.outDir, REPORT_FILES)]
  }

  /**
   The output directory has been resolved; every attempt leaves files, its manifest at least; every check is run at
   least twice; files can stand side by side.
   */
  ghost predicate Working(w: World) {
    && ".." !in w.outDir && RealTraces(w)
    && (forall layer, task, control, i :: w.attempt(layer, task, control, i).hashes != map[])
    && (forall layer, task, control, i :: w.files(layer, task, control, i) != {})
    && (forall task, k :: |w.check(task, k)| >= 2)
  }

  ghost predicate RealTraces(w: World) {
    && (forall layer, task, control, i :: RealFiles(w.files(layer, task, control, i)))
    && (forall task, k :: RealFiles(w.checkFiles(task, k)))
  }

  /** The steps lead from one tree to the other, or do not get through. */
  predicate Did(before: Tree, after: Tree, steps: seq<Step>, ok: bool) {
    Runs(before, steps) == if ok then Some(after) else None
  }

  /** The first k steps have been done. */
  predicate OnDisk(base: Tree, tree: Tree, steps: seq<Step>, k: nat) {
    k <= |steps| && Runs(base, steps[..k]) == Some(tree)
  }

  lemma RowSnoc(before: seq<Record>, row: seq<Record>, i: nat)
    requires i < |row|
    ensures before + row[..i + 1] == before + row[..i] + [row[i]]
  {
  }

  lemma StopsEarly(t: Tree, steps: seq<Step>, all: seq<Step>)
    requires steps <= all && Runs(t, steps).None?
    ensures Runs(t, all).None?
  {
    assert all == steps + all[|steps|..];
    RunsConcat(t, steps, all[|steps|..]);
  }

  lemma NextStep(base: Tree, tree: Tree, steps: seq<Step>, i: nat)
    requires i < |steps| && OnDisk(base, tree, steps, i)
    ensures Runs(base, steps[..i + 1]) == if Fits(tree, steps[i]) then Some(After(tree, steps[i])) else None
  {
    assert steps[..i + 1] == steps[..i] + [steps[i]];
    RunsSnoc(base, steps[..i], steps[i]);
  }

  /** One more sequence of a longer one. */
  lemma DoesNext(before: Tree, middle: Tree, after: Tree, a: seq<Step>, b: seq<Step>, all: seq<Step>, ok: bool)
    requires Did(before, middle, a, true) && Did(middle, after, b, ok) && a + b <= all
    ensures Did(before, after, a + b, ok)
    ensures !ok ==> Did(before, after, all, false)
  {
    RunsConcat(before, a, b);
    if !ok {
      StopsEarly(before, a + b, all);
    }
  }

  lemma Appended<T>(a: seq<T>, b: seq<T>, c: seq<T>)
    ensures a + b + c == a + (b + c)
  {
  }

  lemma {:induction false} FolderStays(t: Tree, steps: seq<Step>, p: Path)
    requires p in t.folders && Runs(t, steps).Some?
    ensures p in Runs(t, steps).value.folders
  {
    if |steps| > 0 {
      FolderStays(t, steps[..|steps| - 1], p);
    }
  }

  lemma RunStepsConcat(a: seq<Record>, b: seq<Record>, w: World)
    ensures RunSteps(a + b, w) == RunSteps(a, w) + RunSteps(b, w)
  {
    var whole, halves := RunSteps(a + b, w), RunSteps(a, w) + RunSteps(b, w);
    forall i | 0 <= i < |whole| ensures whole[i] == halves[i] {
      assert (a + b)[i] == if i < |a| then a[i] else b[i - |a|];
    }
    assert whole == halves;
  }

  /** What the first k controls of a layer do. */
  function LayerSteps(t: ControlTask, layer: Layer, controls: seq<string>, k: nat, repeats: nat, w: World): seq<Step>
    requires k <= |controls|
  {
    RunSteps(LayerRecords(t, layer, controls[..k], repeats, w), w)
  }

  lemma LayerSnoc(t: ControlTask, layer: Layer, controls: seq<string>, k: nat, repeats: nat, w: World)
    requires k < |controls|
    ensures LayerRecords(t, layer, controls[..k + 1], repeats, w) ==
      LayerRecords(t, layer, controls[..k], repeats, w) + RepeatRecords(t, layer, controls[k], repeats, w)
    ensures LayerSteps(t, layer, controls, k + 1, repeats, w) ==
      LayerSteps(t, layer, controls, k, repeats, w) + RunSteps(RepeatRecords(t, layer, controls[k], repeats, w), w)
  {
    assert controls[..k + 1][..k] == controls[..k];
    RunStepsConcat(LayerRecords(t, layer, controls[..k], repeats, w), RepeatRecords(t, layer, controls[k], repeats, w), w);
  }

  lemma {:induction false} LayerStepsGrow(t: ControlTask, layer: Layer, controls: seq<string>, k: nat, n: nat, repeats: nat, w: World)
    requires k <= n <= |controls|
    ensures LayerSteps(t, layer, controls, k, repeats, w) <= LayerSteps(t, layer, controls, n, repeats, w)
  {
    if k < n {
      LayerStepsGrow(t, layer, controls, k, n - 1, repeats, w);
      LayerSnoc(t, layer, controls, n - 1, repeats, w);
    }
  }

  lemma BothLayers(before: seq<Record>, t: ControlTask, repeats: nat, w: World)
    ensures RunSteps(TaskRecords(t, repeats, w), w) ==
      LayerSteps(t, ScorerLayer, SCORER_CONTROLS, 3, repeats, w) + LayerSteps(t, AgentLayer, AGENT_CONTROLS, 3, repeats, w)
    ensures before + TaskRecords(t, repeats, w) ==
      before + LayerRecords(t, ScorerLayer, SCORER_CONTROLS, repeats, w) + LayerRecords(t, AgentLayer, AGENT_CONTROLS, repeats, w)
  {
    assert SCORER_CONTROLS[..3] == SCORER_CONTROLS && AGENT_CONTROLS[..3] == AGENT_CONTROLS;
    var a, b := LayerRecords(t, ScorerLayer, SCORER_CONTROLS, repeats, w), LayerRecords(t, AgentLayer, AGENT_CONTROLS, repeats, w);
    RunStepsConcat(a, b, w);
    Appended(before, a, b);
  }

  lemma {:induction false} TaskStepsGrow(tasks: seq<ControlTask>, k: nat, repeats: nat, w: World)
    requires k <= |tasks|
    ensures AllTaskSteps(tasks[..k], repeats, w) <= AllTaskSteps(tasks, repeats, w)
  {
    var n := |tasks|;
    if k == n {
      assert tasks[..k] == tasks;
    } else {
      assert tasks[..n - 1][..k] == tasks[..k];
      TaskStepsGrow(tasks[..n - 1], k, repeats, w);
    }
  }

  /** What the first k public checks of a task do. */
  function TaskCheckSteps(t: ControlTask, k: nat, w: World): seq<Step>
    requires k <= |t.idempotent|
  {
    CheckSteps(TaskChecks(t, k, w), w)
  }

  function CheckAt(t: ControlTask, k: nat, w: World): seq<Calibration>
    requires k < |t.idempotent|
  {
    if t.idempotent[k] then [CheckOf(t, k, w)] else []
  }

  lemma CheckStepsConcat(a: seq<Calibration>, b: seq<Calibration>, w: World)
    ensures CheckSteps(a + b, w) == CheckSteps(a, w) + CheckSteps(b, w)
  {
    var whole, halves := CheckSteps(a + b, w), CheckSteps(a, w) + CheckSteps(b, w);
    forall i | 0 <= i < |whole| ensures whole[i] == halves[i] {
      assert (a + b)[i] == if i < |a| then a[i] else b[i - |a|];
    }
    assert whole == halves;
  }

  lemma ChecksSnoc(t: ControlTask, k: nat, w: World)
    requires k < |t.idempotent|
    ensures TaskChecks(t, k + 1, w) == TaskChecks(t, k, w) + CheckAt(t, k, w)
    ensures TaskCheckSteps(t, k + 1, w) == TaskCheckSteps(t, k, w) + CheckSteps(CheckAt(t, k, w), w)
  {
    CheckStepsConcat(TaskChecks(t, k, w), CheckAt(t, k, w), w);
  }

  lemma GrowsWith(a: seq<Step>, b: seq<Step>, more: seq<Step>, c: seq<Step>)
    requires a <= b && c == b + more
    ensures a <= c
  {
  }

  lemma {:induction false} ChecksGrow(t: ControlTask, k: nat, n: nat, w: World)
    requires k <= n <= |t.idempotent|
    ensures TaskCheckSteps(t, k, w) <= TaskCheckSteps(t, n, w)
  {
    if k < n {
      var m: nat := n - 1;
      ChecksGrow(t, k, m, w);
      ChecksSnoc(t, m, w);
      GrowsWith(TaskCheckSteps(t, k, w), TaskCheckSteps(t, m, w), CheckSteps(CheckAt(t, m, w), w), TaskCheckSteps(t, n, w));
    }
  }

  // ---------------------------------------------------------------- the runs, as loops

  class Calibrating {
    const disk: ArtifactDisk
    var records: seq<Record>
    var checks: seq<Calibration>

    constructor (disk: ArtifactDisk)
      ensures this.disk == disk && records == [] && checks == []
    {
      this.disk, records, checks := disk, [], [];
    }

    /** One control, every repeat; false when a run's directory is not free. */
    method RunControl(t: ControlTask, layer: Layer, control: string, repeats: nat, w: World) returns (ok: bool)
      requires disk.Valid() && RealTraces(w)
      modifies this, disk
      ensures disk.Valid() && Did(old(disk.tree), disk.tree, RunSteps(RepeatRecords(t, layer, control, repeats, w), w), ok)
      ensures checks == old(checks)
      ensures ok ==> records == old(records) + RepeatRecords(t, layer, control, repeats, w)
    {
      ok := true;
      ghost var base, row := disk.tree, RepeatRecords(t, layer, control, repeats, w);
      ghost var steps := RunSteps(row, w);
      for i := 0 to repeats
        invariant ok && disk.Valid() && OnDisk(base, disk.tree, steps, i)
        invariant records == old(records) + row[..i] && checks == old(checks)
      {
        RowSnoc(old(records), row, i);
        ok := RunRepeat(t, layer, control, i, w, base, steps);
        if !ok {
          return;
        }
      }
      assert row[..repeats] == row && steps[..repeats] == steps;
    }

    method RunRepeat(t: ControlTask, layer: Layer, control: string, i: nat, w: World, ghost base: Tree, ghost steps: seq<Step>) returns (ok: bool)
      requires disk.Valid() && RealTraces(w)
      requires i < |steps| && OnDisk(base, disk.tree, steps, i) && steps[i] == RunStep(RecordOf(t, layer, control, i, w), w)
      modifies this, disk
      ensures disk.Valid() && checks == old(checks)
      ensures ok ==> OnDisk(base, disk.tree, steps, i + 1) && records == old(records) + [RecordOf(t, layer, control, i, w)]
      ensures !ok ==> Did(base, disk.tree, steps, false)
    {
      var r := RecordOf(t, layer, control, i, w);
      NextStep(base, disk.tree, steps, i);
      ok := disk.Leave(Prepare, ArtifactRefs.Located(r.artifactDir), w.files(layer, t.taskId, control, i));
      if !ok {
        StopsEarly(base, steps[..i + 1], steps);
        return;
      }
      records := records + [r];
    }

    method RunLayer(t: ControlTask, layer: Layer, controls: seq<string>, repeats: nat, w: World) returns (ok: bool)
      requires disk.Valid() && RealTraces(w)
      modifies this, disk
      ensures disk.Valid() && Did(old(disk.tree), disk.tree, LayerSteps(t, layer, controls, |controls|, repeats, w), ok)
      ensures checks == old(checks)
      ensures ok ==> records == old(records) + LayerRecords(t, layer, controls, repeats, w)
    {
      ok := true;
      ghost var base, all := disk.tree, LayerSteps(t, layer, controls, |controls|, repeats, w);
      for k := 0 to |controls|
        invariant ok && disk.Valid() && Did(base, disk.tree, LayerSteps(t, layer, controls, k, repeats, w), true)
        invariant records == old(records) + LayerRecords(t, layer, controls[..k], repeats, w) && checks == old(checks)
      {
        ghost var middle := disk.tree;
        ghost var before, row := LayerRecords(t, layer, controls[..k], repeats, w), RepeatRecords(t, layer, controls[k], repeats, w);
        LayerSnoc(t, layer, controls, k, repeats, w);
        LayerStepsGrow(t, layer, controls, k + 1, |controls|, repeats, w);
        Appended(old(records), before, row);
        ok := RunControl(t, layer, controls[k], repeats, w);
        DoesNext(base, middle, disk.tree, LayerSteps(t, layer, controls, k, repeats, w), RunSteps(row, w), all, ok);
        if !ok {
          return;
        }
      }
      assert controls[..|controls|] == controls;
    }

    method RunBothLayers(t: ControlTask, repeats: nat, w: World) returns (ok: bool)
      requires disk.Valid() && RealTraces(w)
      modifies this, disk
      ensures disk.Valid() && Did(old(disk.tree), disk.tree, RunSteps(TaskRecords(t, repeats, w), w), ok)
      ensures checks == old(checks)
      ensures ok ==> records == old(records) + TaskRecords(t, repeats, w)
    {
      ghost var a, b := LayerSteps(t, ScorerLayer, SCORER_CONTROLS, 3, repeats, w), LayerSteps(t, AgentLayer, AGENT_CONTROLS, 3, repeats, w);
      BothLayers(old(records), t, repeats, w);
      ok := RunLayer(t, ScorerLayer, SCORER_CONTROLS, repeats, w);
      if !ok {
        StopsEarly(old(disk.tree), a, a + b);
        return;
      }
      ghost var middle := disk.tree;
      ok := RunLayer(t, AgentLayer, AGENT_CONTROLS, repeats, w);
      DoesNext(old(disk.tree), middle, disk.tree, a, b, a + b, ok);
    }

    /** run_declared_public_check_idempotency_calibrations; false when a check's directory is there already. */
    method CalibrateChecks(t: ControlTask, w: World) returns (ok: bool)
      requires disk.Valid() && RealTraces(w)
      modifies this, disk
      ensures disk.Valid() && Did(old(disk.tree), disk.tree, TaskCheckSteps(t, |t.idempotent|, w), ok)
      ensures records == old(records)
      ensures ok ==> checks == old(checks) + TaskChecks(t, |t.idempotent|, w)
    {
      ok := true;
      ghost var base, all := disk.tree, TaskCheckSteps(t, |t.idempotent|, w);
      for i := 0 to |t.idempotent|
        invariant ok && disk.Valid() && Did(base, disk.tree, TaskCheckSteps(t, i, w), true)
        invariant checks == old(checks) + TaskChecks(t, i, w) && records == old(records)
      {
        ghost var middle, before, more := disk.tree, TaskCheckSteps(t, i, w), CheckSteps(CheckAt(t, i, w), w);
        ChecksSnoc(t, i, w);
        ChecksGrow(t, i + 1, |t.idempotent|, w);
        Appended(old(checks), TaskChecks(t, i, w), CheckAt(t, i, w));
        ok := CalibrateIfDeclared(t, i, w);
        DoesNext(base, middle, disk.tree, before, more, all, ok);
        if !ok {
          return;
        }
      }
    }

    method CalibrateIfDeclared(t: ControlTask, i: nat, w: World) returns (ok: bool)
      requires disk.Valid() && RealTraces(w) && i < |t.idempotent|
      modifies this, disk
      ensures disk.Valid() && records == old(records)
      ensures Did(old(disk.tree), disk.tree, CheckSteps(CheckAt(t, i, w), w), ok)
      ensures ok ==> checks == old(checks) + CheckAt(t, i, w)
    {
      if !t.idempotent[i] {
        return true;
      }
      var c := CheckOf(t, i, w);
      RunsSnoc(disk.tree, [], CheckStep(c, w));
      assert CheckSteps([c], w) == [] + [CheckStep(c, w)];
      ok := disk.Leave(MakeNew, ArtifactRefs.Located(CheckPath(w, t.taskId, i)), w.checkFiles(t.taskId, i));
      if ok {
        checks := checks + [c];
      }
    }

    method RunTask(t: ControlTask, repeats: nat, w: World) returns (ok: bool)
      requires disk.Valid() && RealTraces(w)
      modifies this, disk
      ensures disk.Valid() && Did(old(disk.tree), disk.tree, TaskSteps(t, repeats, w), ok)
      ensures ok ==> checks == old(checks) + TaskChecks(t, |t.idempotent|, w)
      ensures ok ==> records == old(records) + TaskRecords(t, repeats, w)
    {
      ghost var a, b := TaskCheckSteps(t, |t.idempotent|, w), RunSteps(TaskRecords(t, repeats, w), w);
      ok := CalibrateChecks(t, w);
      if !ok {
        StopsEarly(old(disk.tree), a, a + b);
        return;
      }
      ghost var middle := disk.tree;
      ok := RunBothLayers(t, repeats, w);
      DoesNext(old(disk.tree), middle, disk.tree, a, b, a + b, ok);
    }

    method RunTasks(tasks: seq<ControlTask>, repeats: nat, w: World) returns (ok: bool)
      requires disk.Valid() && RealTraces(w) && records == [] && checks == []
      modifies this, disk
      ensures disk.Valid() && Did(old(disk.tree), disk.tree, AllTaskSteps(tasks, repeats, w), ok)
      ensures ok ==> records == AllRecords(tasks, repeats, w) && checks == AllChecks(tasks, w)
    {
      ok := true;
      ghost var base := disk.tree;
      for k := 0 to |tasks|
        invariant ok && disk.Valid() && Did(base, disk.tree, AllTaskSteps(tasks[..k], repeats, w), true)
        invariant records == AllRecords(tasks[..k], repeats, w) && checks == AllChecks(tasks[..k], w)
      {
        ghost var middle, before := disk.tree, AllTaskSteps(tasks[..k], repeats, w);
        ok := RunTask(tasks[k], repeats, w);
        assert tasks[..k + 1][..k] == tasks[..k];
        TaskStepsGrow(tasks, k + 1, repeats, w);
        DoesNext(base, middle, disk.tree, before, TaskSteps(tasks[k], repeats, w), AllTaskSteps(tasks, repeats, w), ok);
        if !ok {
          return;
        }
      }
      assert tasks[..|tasks|] == tasks;
    }

    /** The output directory and its three folders, made unless they are there. */
    method Open(w: World) returns (ok: bool)
      requires disk.Valid()
      modifies disk
      ensures disk.Valid() && Did(old(disk.tree), disk.tree, Opening(w), ok)
      ensures ok ==> w.outDir in disk.tree.folders
    {
      OpeningRuns(disk.tree, w);
      PrefixIs(w.outDir, w.outDir);
      ok := disk.MakeDirectory(w.outDir);
      if ok {
        ok := disk.MakeDirectory(w.outDir + [LayerDir(ScorerLayer)]);
      }
      if ok {
        ok := disk.MakeDirectory(w.outDir + [LayerDir(AgentLayer)]);
      }
      if ok {
        ok := disk.MakeDirectory(w.outDir + [CHECKS_DIR]);
      }
    }
  }

  function MadeAfter(before: Option<Tree>, dir: Path): Option<Tree> {
    if before.Some? && Fits(before.value, Step(Make, dir, {})) then Some(After(before.value, Step(Make, dir, {}))) else None
  }

  lemma OpeningRuns(t: Tree, w: World)
    ensures Runs(t, Opening(w)) ==
      MadeAfter(MadeAfter(MadeAfter(MadeAfter(Some(t), w.outDir), w.outDir + [LayerDir(ScorerLayer)]), w.outDir + [LayerDir(AgentLayer)]),
                w.outDir + [CHECKS_DIR])
  {
    var s := Opening(w);
    assert s == ((([] + [s[0]]) + [s[1]]) + [s[2]]) + [s[3]];
    RunsSnoc(t, [], s[0]);
    RunsSnoc(t, [] + [s[0]], s[1]);
    RunsSnoc(t, ([] + [s[0]]) + [s[1]], s[2]);
    RunsSnoc(t, (([] + [s[0]]) + [s[1]]) + [s[2]], s[3]);
  }

  // ---------------------------------------------------------------- the manifest

  /** `refs` are the directories the records list, in order. */
  datatype CalibrationManifest = CalibrationManifest(
    taskHashes: map<string, string>, repeats: nat, recordCount: nat, overallMatch: bool, flake: Flake, records: seq<Record>, refs: seq<string>)

  function TaskHashes(tasks: seq<ControlTask>): map<string, string> {
    if |tasks| == 0 then map[] else TaskHashes(tasks[..|tasks| - 1])[tasks[|tasks| - 1].taskId := tasks[|tasks| - 1].manifestHash]
  }

  predicate AllMatched(records: seq<Record>) {
    forall i :: 0 <= i < |records| ==> records[i].matched
  }

  /** Every run's directory is below the output directory, as the path is written. */
  predicate AllListed(outDir: Path, records: seq<Record>) {
    forall i :: 0 <= i < |records| ==> ArtifactRefs.RefFrom(outDir, records[i].artifactDir).Some?
  }

  function Refs(outDir: Path, records: seq<Record>): seq<string>
    requires AllListed(outDir, records)
  {
    seq(|records|, i requires 0 <= i < |records| => ArtifactRefs.RefFrom(outDir, records[i].artifactDir).value)
  }

  /** _build_control_result_record for every record; None where relative_to raises. */
  method ListRuns(outDir: Path, records: seq<Record>) returns (refs: Option<seq<string>>)
    ensures refs.Some? <==> AllListed(outDir, records)
    ensures refs.Some? ==> refs.value == Refs(outDir, records)
  {
    var listed: seq<string> := [];
    for i := 0 to |records|
      invariant |listed| == i
      invariant forall k :: 0 <= k < i ==> ArtifactRefs.RefFrom(outDir, records[k].artifactDir) == Some(listed[k])
    {
      var ref := ArtifactRefs.RefFrom(outDir, records[i].artifactDir);
      if ref.None? {
        return None;
      }
      listed := listed + [ref.value];
    }
    refs := Some(listed);
  }

  function ManifestOf(tasks: seq<ControlTask>, repeats: nat, records: seq<Record>, outDir: Path, f: Flake): CalibrationManifest
    requires AllListed(outDir, records)
  {
    CalibrationManifest(TaskHashes(tasks), repeats, |records|, AllMatched(records) && f.status == Stable, f, records, Refs(outDir, records))
  }

  /** What run_controls needs of its tasks: there are some, with ids that are not empty and not used twice, and there are repeats. */
  predicate Startable(tasks: seq<ControlTask>, repeats: nat) {
    && tasks != [] && Unique(TaskIds(tasks)) && repeats > 0
    && forall t :: t in tasks ==> t.taskId != ""
  }

  lemma RunIsRecorded(tasks: seq<ControlTask>, repeats: nat, w: World, t: ControlTask, layer: Layer, control: string, index: nat)
    requires t in tasks && control in Controls(layer) && index < repeats
    ensures RecordOf(t, layer, control, index, w) in OfLayer(AllRecords(tasks, repeats, w), layer)
  {
    var r := RecordOf(t, layer, control, index, w);
    assert IsTaskRun(r, t, repeats, w);
    RecordsHold(tasks, repeats, w, r);
    LayerHolds(AllRecords(tasks, repeats, w), layer, r);
  }

  lemma LayerRecordIs(tasks: seq<ControlTask>, repeats: nat, w: World, layer: Layer, r: Record) returns (t: ControlTask)
    requires r in OfLayer(AllRecords(tasks, repeats, w), layer)
    ensures t in tasks && r.layer == layer && IsTaskRun(r, t, repeats, w)
  {
    LayerHolds(AllRecords(tasks, repeats, w), layer, r);
    RecordsHold(tasks, repeats, w, r);
    t :| t in tasks && IsTaskRun(r, t, repeats, w);
  }

  lemma EveryControlHasReference(tasks: seq<ControlTask>, repeats: nat, w: World, layer: Layer)
    requires repeats > 0
    ensures HasReferences(OfLayer(AllRecords(tasks, repeats, w), layer))
  {
    var records := OfLayer(AllRecords(tasks, repeats, w), layer);
    forall i | 0 <= i < |records| ensures HasReference(records, KeyOf(records[i])) {
      var t := LayerRecordIs(tasks, repeats, w, layer, records[i]);
      RunIsRecorded(tasks, repeats, w, t, layer, records[i].controlName, 0);
      var j :| 0 <= j < |records| && records[j] == RecordOf(t, layer, records[i].controlName, 0, w);
    }
  }

  // ---------------------------------------------------------------- the manifest's validator

  function RecordTaskIds(records: seq<Record>): set<string> {
    set i | 0 <= i < |records| :: records[i].taskId
  }

  function GroupTaskIds(groups: seq<Group>): set<string> {
    set i | 0 <= i < |groups| :: groups[i].taskId
  }

  function RepeatIndexes(records: seq<Record>, layer: Layer, key: Key): set<nat> {
    set i | 0 <= i < |records| && OfControl(records[i], layer, key) :: records[i].repeatIndex
  }

  /** The layer's groups name its recorded controls, each of which covers every repeat index. */
  predicate LayerCovered(m: CalibrationManifest, layer: Layer, groups: seq<Group>) {
    && GroupTaskIds(groups) == m.taskHashes.Keys
    && Elements(GroupKeys(groups)) == KeysOf(OfLayer(m.records, layer))
    && forall key :: key in KeysOf(OfLayer(m.records, layer)) ==> RepeatIndexes(m.records, layer, key) == Range(m.repeats)
  }

  predicate ChecksOfTasks(m: CalibrationManifest) {
    forall i :: 0 <= i < |m.flake.calibrations| ==>
      var c := m.flake.calibrations[i];
      c.taskId in m.taskHashes && c.taskManifestHash == m.taskHashes[c.taskId]
  }

  predicate ValidRecords(m: CalibrationManifest, isAlpha: char -> bool) {
    && m.recordCount == |m.records| && m.records != []
    && RecordTaskIds(m.records) == m.taskHashes.Keys
    && (forall i, j :: 0 <= i < j < |m.records| ==> !SameRepeat(m.records[i], m.records[j]))
    && (forall i :: 0 <= i < |m.records| ==> m.records[i].repeatIndex < m.repeats)
    && forall i :: 0 <= i < |m.refs| ==> ArtifactRefs.Accepted(m.refs[i], isAlpha)
  }

  /** ControlCalibrationManifest. */
  predicate ValidCalibrationManifest(m: CalibrationManifest, isAlpha: char -> bool) {
    && ValidRecords(m, isAlpha)
    && m.flake.repeats == m.repeats && ValidFlake(m.flake)
    && LayerCovered(m, ScorerLayer, m.flake.scorer) && LayerCovered(m, AgentLayer, m.flake.agent)
    && ChecksOfTasks(m)
    && m.overallMatch == (AllMatched(m.records) && m.flake.status == Stable)
  }

  lemma {:induction false} HashOfTask(tasks: seq<ControlTask>)
    requires Unique(TaskIds(tasks))
    ensures forall t :: t in tasks ==> t.taskId in TaskHashes(tasks) && TaskHashes(tasks)[t.taskId] == t.manifestHash
    ensures forall id :: id in TaskHashes(tasks) ==> exists t :: t in tasks && t.taskId == id
  {
    if |tasks| > 0 {
      FewerTaskIds(tasks);
      var n := |tasks| - 1;
      HashOfTask(tasks[..n]);
      assert tasks == tasks[..n] + [tasks[n]];
    }
  }

  /** What a finished run leaves is what flake detection expects. */
  lemma RunIsProper(tasks: seq<ControlTask>, repeats: nat, w: World)
    requires Startable(tasks, repeats) && Working(w)
    ensures ProperRecords(AllRecords(tasks, repeats, w), repeats)
  {
    var records := AllRecords(tasks, repeats, w);
    RecordsUnique(tasks, repeats, w);
    EveryControlHasReference(tasks, repeats, w, ScorerLayer);
    EveryControlHasReference(tasks, repeats, w, AgentLayer);
    forall i | 0 <= i < |records| ensures records[i].repeatIndex < repeats && records[i].hashes != map[] {
      RecordsHold(tasks, repeats, w, records[i]);
    }
    forall i, j | 0 <= i < |records| && 0 <= j < |records| && SameRepeat(records[i], records[j]) ensures records[i] == records[j] {
      OneRecordPerIdentity(tasks, repeats, w, records[i], records[j]);
    }
  }

  lemma RunLayerIsCovered(tasks: seq<ControlTask>, repeats: nat, w: World, m: CalibrationManifest, layer: Layer, groups: seq<Group>)
    requires Startable(tasks, repeats) && m.records == AllRecords(tasks, repeats, w) && m.repeats == repeats
    requires m.taskHashes == TaskHashes(tasks) && GroupsOf(groups, OfLayer(m.records, layer))
    ensures LayerCovered(m, layer, groups)
  {
    HashOfTask(tasks);
    GroupIdsAre(tasks, repeats, w, layer, groups);
    forall key | key in KeysOf(OfLayer(m.records, layer)) ensures RepeatIndexes(m.records, layer, key) == Range(repeats) {
      RepeatsAreCovered(tasks, repeats, w, layer, key);
    }
  }

  lemma GroupIdsAre(tasks: seq<ControlTask>, repeats: nat, w: World, layer: Layer, groups: seq<Group>)
    requires Startable(tasks, repeats) && GroupsOf(groups, OfLayer(AllRecords(tasks, repeats, w), layer))
    ensures GroupTaskIds(groups) == TaskHashes(tasks).Keys
  {
    HashOfTask(tasks);
    forall i | 0 <= i < |groups| ensures groups[i].taskId in TaskHashes(tasks) {
      GroupIsOfTask(tasks, repeats, w, layer, GroupKeys(groups), i);
    }
    forall t | t in tasks ensures t.taskId in GroupTaskIds(groups) {
      var i := TaskHasGroup(tasks, repeats, w, layer, GroupKeys(groups), t);
      assert groups[i].taskId == t.taskId;
    }
  }

  lemma GroupIsOfTask(tasks: seq<ControlTask>, repeats: nat, w: World, layer: Layer, keys: seq<Key>, i: nat)
    requires Startable(tasks, repeats) && Elements(keys) == KeysOf(OfLayer(AllRecords(tasks, repeats, w), layer)) && i < |keys|
    ensures exists t :: t in tasks && t.taskId == keys[i].0
  {
    var records := OfLayer(AllRecords(tasks, repeats, w), layer);
    assert keys[i] in Elements(keys);
    var k :| 0 <= k < |records| && KeyOf(records[k]) == keys[i];
    var t := LayerRecordIs(tasks, repeats, w, layer, records[k]);
  }

  lemma TaskHasGroup(tasks: seq<ControlTask>, repeats: nat, w: World, layer: Layer, keys: seq<Key>, t: ControlTask) returns (i: nat)
    requires Startable(tasks, repeats) && Elements(keys) == KeysOf(OfLayer(AllRecords(tasks, repeats, w), layer)) && t in tasks
    ensures i < |keys| && keys[i].0 == t.taskId
  {
    var records := OfLayer(AllRecords(tasks, repeats, w), layer);
    var control := Controls(layer)[0];
    RunIsRecorded(tasks, repeats, w, t, layer, control, 0);
    var r := RecordOf(t, layer, control, 0, w);
    var k :| 0 <= k < |records| && records[k] == r;
    assert KeyOf(r) in Elements(keys);
    i :| 0 <= i < |keys| && keys[i] == KeyOf(r);
  }

  lemma RepeatsAreCovered(tasks: seq<ControlTask>, repeats: nat, w: World, layer: Layer, key: Key)
    requires key in KeysOf(OfLayer(AllRecords(tasks, repeats, w), layer))
    ensures RepeatIndexes(AllRecords(tasks, repeats, w), layer, key) == Range(repeats)
  {
    var records := AllRecords(tasks, repeats, w);
    var k :| 0 <= k < |OfLayer(records, layer)| && KeyOf(OfLayer(records, layer)[k]) == key;
    var t := LayerRecordIs(tasks, repeats, w, layer, OfLayer(records, layer)[k]);
    forall i: nat ensures i in RepeatIndexes(records, layer, key) <==> i < repeats {
      if i < repeats {
        RunIsRecorded(tasks, repeats, w, t, layer, key.1, i);
        LayerHolds(records, layer, RecordOf(t, layer, key.1, i, w));
        var j :| 0 <= j < |records| && records[j] == RecordOf(t, layer, key.1, i, w);
        assert OfControl(records[j], layer, key);
      }
      if i in RepeatIndexes(records, layer, key) {
        var j :| 0 <= j < |records| && OfControl(records[j], layer, key) && records[j].repeatIndex == i;
        RecordsHold(tasks, repeats, w, records[j]);
      }
    }
  }

  predicate AllIdsFit(tasks: seq<ControlTask>, outDir: Path, isAlpha: char -> bool) {
    forall t :: t in tasks ==> IdFits(outDir, t.taskId, isAlpha)
  }

  lemma RunRecordsAreValidIff(tasks: seq<ControlTask>, repeats: nat, w: World, m: CalibrationManifest, isAlpha: char -> bool)
    requires Startable(tasks, repeats) && AllListed(w.outDir, AllRecords(tasks, repeats, w))
    requires m.records == AllRecords(tasks, repeats, w) && m.recordCount == |m.records| && m.repeats == repeats && m.taskHashes == TaskHashes(tasks)
    requires m.refs == Refs(w.outDir, m.records)
    ensures ValidRecords(m, isAlpha) <==> forall i :: 0 <= i < |m.records| ==> ListedWell(m.records[i], w.outDir, isAlpha)
  {
    var records := m.records;
    RecordsDiffer(tasks, repeats, w);
    RecordIdsAre(tasks, repeats, w);
    forall i | 0 <= i < |records| ensures ListedWell(records[i], w.outDir, isAlpha) <==> ArtifactRefs.Accepted(m.refs[i], isAlpha) {
      assert m.refs[i] == ArtifactRefs.RefFrom(w.outDir, records[i].artifactDir).value;
    }
  }

  lemma RecordsDiffer(tasks: seq<ControlTask>, repeats: nat, w: World)
    requires Startable(tasks, repeats)
    ensures var records := AllRecords(tasks, repeats, w);
      && (forall i :: 0 <= i < |records| ==> records[i].repeatIndex < repeats)
      && forall i, j :: 0 <= i < j < |records| ==> !SameRepeat(records[i], records[j])
  {
    var records := AllRecords(tasks, repeats, w);
    RecordsUnique(tasks, repeats, w);
    forall i | 0 <= i < |records| ensures records[i].repeatIndex < repeats {
      RecordsHold(tasks, repeats, w, records[i]);
    }
    forall i, j | 0 <= i < j < |records| ensures !SameRepeat(records[i], records[j]) {
      if SameRepeat(records[i], records[j]) {
        OneRecordPerIdentity(tasks, repeats, w, records[i], records[j]);
      }
    }
  }

  /** The record's directory can be written down relative to the output directory, in a form the validator takes. */
  predicate ListedWell(r: Record, outDir: Path, isAlpha: char -> bool) {
    var ref := ArtifactRefs.RefFrom(outDir, r.artifactDir);
    ref.Some? && ArtifactRefs.Accepted(ref.value, isAlpha)
  }

  lemma AllListedWellIff(tasks: seq<ControlTask>, repeats: nat, w: World, isAlpha: char -> bool)
    requires repeats > 0
    ensures (forall i :: 0 <= i < |AllRecords(tasks, repeats, w)| ==> ListedWell(AllRecords(tasks, repeats, w)[i], w.outDir, isAlpha))
       <==> AllIdsFit(tasks, w.outDir, isAlpha)
  {
    var records := AllRecords(tasks, repeats, w);
    forall i | 0 <= i < |records|
      ensures exists t :: t in tasks && t.taskId == records[i].taskId
      ensures ListedWell(records[i], w.outDir, isAlpha) <==> IdFits(w.outDir, records[i].taskId, isAlpha)
    {
      var r := records[i];
      RecordsHold(tasks, repeats, w, r);
      RunSuffixIsTag(r.layer, r.controlName, r.repeatIndex);
      LayerDirIsPlain(r.layer);
      ListedIffFits(w.outDir, LayerDir(r.layer), r.taskId, RunSuffix(r.controlName, r.repeatIndex), isAlpha);
    }
    forall t | t in tasks ensures exists i :: 0 <= i < |records| && records[i].taskId == t.taskId {
      var r := RecordOf(t, ScorerLayer, SCORER_CONTROLS[0], 0, w);
      assert IsTaskRun(r, t, repeats, w);
      RecordsHold(tasks, repeats, w, r);
      var i :| 0 <= i < |records| && records[i] == r;
    }
  }

  lemma RecordIdsAre(tasks: seq<ControlTask>, repeats: nat, w: World)
    requires Startable(tasks, repeats)
    ensures RecordTaskIds(AllRecords(tasks, repeats, w)) == TaskHashes(tasks).Keys && AllRecords(tasks, repeats, w) != []
  {
    var records := AllRecords(tasks, repeats, w);
    HashOfTask(tasks);
    forall id | id in RecordTaskIds(records) ensures id in TaskHashes(tasks) {
      var i :| 0 <= i < |records| && records[i].taskId == id;
      RecordsHold(tasks, repeats, w, records[i]);
    }
    forall t | t in tasks ensures t.taskId in RecordTaskIds(records) {
      var r := RecordOf(t, ScorerLayer, SCORER_CONTROLS[0], 0, w);
      assert IsTaskRun(r, t, repeats, w);
      RecordsHold(tasks, repeats, w, r);
      var i :| 0 <= i < |records| && records[i] == r;
    }
    assert tasks[0] in tasks;
  }

  /**
   The manifest of every control run can be built and validates exactly when each task id makes directories that can
   be listed and no two tasks with one manifest hash calibrate a check with the same index.
   */
  lemma CalibrationManifestIsValidIff(tasks: seq<ControlTask>, repeats: nat, w: World, f: Flake, isAlpha: char -> bool)
    requires Startable(tasks, repeats) && Working(w)
    requires BuiltFlake(f, repeats, AllRecords(tasks, repeats, w), AllChecks(tasks, w))
    ensures AllListed(w.outDir, AllRecords(tasks, repeats, w))
            && ValidCalibrationManifest(ManifestOf(tasks, repeats, AllRecords(tasks, repeats, w), w.outDir, f), isAlpha)
       <==> AllIdsFit(tasks, w.outDir, isAlpha) && NoSharedCheck(tasks)
  {
    var records := AllRecords(tasks, repeats, w);
    AllListedWellIff(tasks, repeats, w, isAlpha);
    if AllListed(w.outDir, records) {
      var m := ManifestOf(tasks, repeats, records, w.outDir, f);
      RunRecordsAreValidIff(tasks, repeats, w, m, isAlpha);
      RunIsProper(tasks, repeats, w);
      BuiltEvidenceIsValidIff(f, repeats, records, AllChecks(tasks, w));
      ChecksDistinctIff(tasks, w);
      RunLayerIsCovered(tasks, repeats, w, m, ScorerLayer, f.scorer);
      RunLayerIsCovered(tasks, repeats, w, m, AgentLayer, f.agent);
      ChecksAreOfTasks(tasks, repeats, w, m);
    }
  }

  lemma ChecksAreOfTasks(tasks: seq<ControlTask>, repeats: nat, w: World, m: CalibrationManifest)
    requires Unique(TaskIds(tasks)) && m.flake.calibrations == AllChecks(tasks, w) && m.taskHashes == TaskHashes(tasks)
    ensures ChecksOfTasks(m)
  {
    HashOfTask(tasks);
    forall i | 0 <= i < |m.flake.calibrations|
      ensures var c := m.flake.calibrations[i]; c.taskId in m.taskHashes && c.taskManifestHash == m.taskHashes[c.taskId]
    {
      ChecksHold(tasks, w, m.flake.calibrations[i]);
    }
  }

  lemma CalibrationsAreValid(tasks: seq<ControlTask>, w: World)
    requires Working(w)
    ensures forall i :: 0 <= i < |AllChecks(tasks, w)| ==> ValidCalibration(AllChecks(tasks, w)[i])
  {
    forall i | 0 <= i < |AllChecks(tasks, w)| ensures ValidCalibration(AllChecks(tasks, w)[i]) {
      ChecksHold(tasks, w, AllChecks(tasks, w)[i]);
    }
  }

  /** A calibration is reported as a match exactly when all controls came out as expected and nothing flaked. */
  lemma OverallMatchIff(tasks: seq<ControlTask>, repeats: nat, w: World, f: Flake)
    requires Startable(tasks, repeats) && Working(w)
    requires BuiltFlake(f, repeats, AllRecords(tasks, repeats, w), AllChecks(tasks, w)) && AllListed(w.outDir, AllRecords(tasks, repeats, w))
    ensures ManifestOf(tasks, repeats, AllRecords(tasks, repeats, w), w.outDir, f).overallMatch <==>
      && repeats >= 2
      && (forall t, layer, control, i: nat :: t in tasks && control in Controls(layer) && i < repeats ==>
            && w.attempt(layer, t.taskId, control, i).matched
            && w.attempt(layer, t.taskId, control, i).hashes == w.attempt(layer, t.taskId, control, 0).hashes)
      && (forall t, k: nat :: t in tasks && k < |t.idempotent| && t.idempotent[k] ==> OneOutcome(w.check(t.taskId, k)))
  {
    var records, checks := AllRecords(tasks, repeats, w), AllChecks(tasks, w);
    CalibrationsAreValid(tasks, w);
    StableIff(f, repeats, records, checks);
    MatchedAndAgreeIff(tasks, repeats, w);
    OutcomesIff(tasks, w);
  }

  lemma MatchedAndAgreeIff(tasks: seq<ControlTask>, repeats: nat, w: World)
    requires Startable(tasks, repeats)
    ensures AllMatched(AllRecords(tasks, repeats, w)) && RepeatsAgree(AllRecords(tasks, repeats, w), ScorerLayer)
            && RepeatsAgree(AllRecords(tasks, repeats, w), AgentLayer)
       <==> forall t, layer, control, i: nat :: t in tasks && control in Controls(layer) && i < repeats ==>
              && w.attempt(layer, t.taskId, control, i).matched
              && w.attempt(layer, t.taskId, control, i).hashes == w.attempt(layer, t.taskId, control, 0).hashes
  {
    var records := AllRecords(tasks, repeats, w);
    if AllMatched(records) && RepeatsAgree(records, ScorerLayer) && RepeatsAgree(records, AgentLayer) {
      forall t, layer, control, i: nat | t in tasks && control in Controls(layer) && i < repeats
        ensures w.attempt(layer, t.taskId, control, i).matched
        ensures w.attempt(layer, t.taskId, control, i).hashes == w.attempt(layer, t.taskId, control, 0).hashes
      {
        var r, q := RecordOf(t, layer, control, i, w), RecordOf(t, layer, control, 0, w);
        RunIsRecorded(tasks, repeats, w, t, layer, control, i);
        RunIsRecorded(tasks, repeats, w, t, layer, control, 0);
        LayerHolds(records, layer, r);
        LayerHolds(records, layer, q);
        assert SameControl(r, q);
      }
    }
    if forall t, layer, control, i: nat :: t in tasks && control in Controls(layer) && i < repeats ==>
         && w.attempt(layer, t.taskId, control, i).matched
         && w.attempt(layer, t.taskId, control, i).hashes == w.attempt(layer, t.taskId, control, 0).hashes
    {
      forall r | r in records
        ensures r.matched && r.hashes == w.attempt(r.layer, r.taskId, r.controlName, 0).hashes
      {
        RecordsHold(tasks, repeats, w, r);
      }
    }
  }

  lemma OutcomesIff(tasks: seq<ControlTask>, w: World)
    ensures (forall i :: 0 <= i < |AllChecks(tasks, w)| ==> OneOutcome(AllChecks(tasks, w)[i].runs))
       <==> forall t, k: nat :: t in tasks && k < |t.idempotent| && t.idempotent[k] ==> OneOutcome(w.check(t.taskId, k))
  {
    var checks := AllChecks(tasks, w);
    if forall i :: 0 <= i < |checks| ==> OneOutcome(checks[i].runs) {
      forall t, k: nat | t in tasks && k < |t.idempotent| && t.idempotent[k] ensures OneOutcome(w.check(t.taskId, k)) {
        var c := CheckOf(t, k, w);
        assert IsCheck(c, t, |t.idempotent|, w);
        ChecksHold(tasks, w, c);
        var i :| 0 <= i < |checks| && checks[i] == c;
      }
    }
    forall i | 0 <= i < |checks|
      ensures exists t :: t in tasks && IsCheck(checks[i], t, |t.idempotent|, w)
    {
      ChecksHold(tasks, w, checks[i]);
    }
  }

  // ---------------------------------------------------------------- run_controls

  /**
   run_controls on a disk that may hold anything; None when it raised.  It gets through exactly when its tasks can be
   started, nothing on the disk and no earlier step is in a step's way, ids can be listed and no check is shared.
   */
  method RunControls(disk: ArtifactDisk, tasks: seq<ControlTask>, repeats: nat, w: World, isAlpha: char -> bool)
    returns (m: Option<CalibrationManifest>)
    requires disk.Valid() && Working(w)
    modifies disk
    ensures disk.Valid()
    ensures m.Some? <==>
      && Startable(tasks, repeats)
      && Orderly(old(disk.tree), CalibrationSteps(tasks, repeats, w))
      && AllIdsFit(tasks, w.outDir, isAlpha) && NoSharedCheck(tasks)
    ensures m.Some? ==>
      && Runs(old(disk.tree), CalibrationSteps(tasks, repeats, w)) == Some(disk.tree)
      && AllListed(w.outDir, AllRecords(tasks, repeats, w))
      && BuiltFlake(m.value.flake, repeats, AllRecords(tasks, repeats, w), AllChecks(tasks, w))
      && m.value == ManifestOf(tasks, repeats, AllRecords(tasks, repeats, w), w.outDir, m.value.flake)
      && ValidCalibrationManifest(m.value, isAlpha)
  {
    if !Startable(tasks, repeats) {
      return None;
    }
    RunsIffOrderly(disk.tree, CalibrationSteps(tasks, repeats, w));
    m := RunStarted(disk, tasks, repeats, w, isAlpha);
  }

  method RunStarted(disk: ArtifactDisk, tasks: seq<ControlTask>, repeats: nat, w: World, isAlpha: char -> bool)
    returns (m: Option<CalibrationManifest>)
    requires disk.Valid() && Working(w) && Startable(tasks, repeats)
    modifies disk
    ensures disk.Valid()
    ensures m.Some? <==>
      && Runs(old(disk.tree), CalibrationSteps(tasks, repeats, w)).Some?
      && AllIdsFit(tasks, w.outDir, isAlpha) && NoSharedCheck(tasks)
    ensures m.Some? ==>
      && Runs(old(disk.tree), CalibrationSteps(tasks, repeats, w)) == Some(disk.tree)
      && AllListed(w.outDir, AllRecords(tasks, repeats, w))
      && BuiltFlake(m.value.flake, repeats, AllRecords(tasks, repeats, w), AllChecks(tasks, w))
      && m.value == ManifestOf(tasks, repeats, AllRecords(tasks, repeats, w), w.outDir, m.value.flake)
      && ValidCalibrationManifest(m.value, isAlpha)
  {
    ghost var base, worked, last := disk.tree, Opening(w) + AllTaskSteps(tasks, repeats, w), Step(Save, w.outDir, REPORT_FILES);
    RunsSnoc(base, worked, last);
    var run := new Calibrating(disk);
    var ok := RunAll(run, tasks, repeats, w);
    if !ok {
      return None;
    }
    m := Summarise(tasks, repeats, w, run.records, run.checks, isAlpha);
    if m.Some? {
      ok := disk.SaveFiles(w.outDir, REPORT_FILES);
      if !ok {
        return None;
      }
    }
  }

  /** All that runs before the results are put together. */
  method RunAll(run: Calibrating, tasks: seq<ControlTask>, repeats: nat, w: World) returns (ok: bool)
    requires run.disk.Valid() && RealTraces(w) && run.records == [] && run.checks == []
    modifies run, run.disk
    ensures run.disk.Valid() && Did(old(run.disk.tree), run.disk.tree, Opening(w) + AllTaskSteps(tasks, repeats, w), ok)
    ensures ok ==> run.records == AllRecords(tasks, repeats, w) && run.checks == AllChecks(tasks, w)
    ensures ok ==> w.outDir in run.disk.tree.folders
  {
    ok := run.Open(w);
    if !ok {
      StopsEarly(old(run.disk.tree), Opening(w), Opening(w) + AllTaskSteps(tasks, repeats, w));
      return;
    }
    ghost var begun := run.disk.tree;
    ok := run.RunTasks(tasks, repeats, w);
    ghost var a, b := Opening(w), AllTaskSteps(tasks, repeats, w);
    DoesNext(old(run.disk.tree), begun, run.disk.tree, a, b, a + b, ok);
    if ok {
      FolderStays(begun, AllTaskSteps(tasks, repeats, w), w.outDir);
    }
  }

  /** Flake detection, the listing of the runs and the manifest with its validator. */
  method Summarise(tasks: seq<ControlTask>, repeats: nat, w: World, records: seq<Record>, checks: seq<Calibration>, isAlpha: char -> bool)
    returns (m: Option<CalibrationManifest>)
    requires Startable(tasks, repeats) && Working(w) && records == AllRecords(tasks, repeats, w) && checks == AllChecks(tasks, w)
    ensures m.Some? <==> AllIdsFit(tasks, w.outDir, isAlpha) && NoSharedCheck(tasks)
    ensures m.Some? ==>
      && AllListed(w.outDir, records) && BuiltFlake(m.value.flake, repeats, records, checks)
      && m.value == ManifestOf(tasks, repeats, records, w.outDir, m.value.flake) && ValidCalibrationManifest(m.value, isAlpha)
  {
    EveryControlHasReference(tasks, repeats, w, ScorerLayer);
    EveryControlHasReference(tasks, repeats, w, AgentLayer);
    var f := BuildFlake(repeats, records, checks);
    CalibrationManifestIsValidIff(tasks, repeats, w, f.value, isAlpha);
    var refs := ListRuns(w.outDir, records);
    if refs.None? {
      return None;
    }
    var manifest := ManifestOf(tasks, repeats, records, w.outDir, f.value);
    m := if ValidCalibrationManifest(manifest, isAlpha) then Some(manifest) else None;
  }
}
