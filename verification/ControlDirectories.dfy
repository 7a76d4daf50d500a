/**
 Which task ids share a calibration's folders.  Ids without a slash always do; with slashes one run's directory can
 hold another's, and then the order of the tasks decides.
 */
module ControlDirectories {
  import opened Wrappers
  import opened EvalPlan
  import opened FlakeDetection
  import opened ArtifactTree
  import opened ControlPaths
  import opened ControlCalibration
  import ArtifactRefs
  import Decimal

  // ---------------------------------------------------------------- steps out of each other's way

  predicate Apart(steps: seq<Step>) {
    forall i, j :: 0 <= i < j < |steps| ==> !InTheWay(steps[i], steps[j])
  }

  predicate Passes(a: seq<Step>, b: seq<Step>) {
    forall x, y :: x in a && y in b ==> !InTheWay(x, y)
  }

  lemma ApartConcat(a: seq<Step>, b: seq<Step>)
    ensures Apart(a + b) <==> Apart(a) && Apart(b) && Passes(a, b)
  {
    var s := a + b;
    if Apart(s) {
      forall i, j | 0 <= i < j < |a| ensures !InTheWay(a[i], a[j]) {
        assert s[i] == a[i] && s[j] == a[j];
      }
      forall i, j | 0 <= i < j < |b| ensures !InTheWay(b[i], b[j]) {
        assert s[|a| + i] == b[i] && s[|a| + j] == b[j];
      }
      forall x, y | x in a && y in b ensures !InTheWay(x, y) {
        var i :| 0 <= i < |a| && a[i] == x;
        var j :| 0 <= j < |b| && b[j] == y;
        assert s[i] == x && s[|a| + j] == y;
      }
    }
    if Apart(a) && Apart(b) && Passes(a, b) {
      forall i, j | 0 <= i < j < |s| ensures !InTheWay(s[i], s[j]) {
        if i < |a| <= j {
          assert s[i] in a && s[j] in b;
        }
      }
    }
  }

  lemma TasksAreApart(t: Tree, tasks: seq<ControlTask>, repeats: nat, w: World)
    requires Orderly(t, CalibrationSteps(tasks, repeats, w))
    ensures Apart(AllTaskSteps(tasks, repeats, w))
  {
    var a, b, c := Opening(w), AllTaskSteps(tasks, repeats, w), [Step(Save, w.outDir, REPORT_FILES)];
    assert Apart(a + b + c);
    ApartConcat(a + b, c);
    ApartConcat(a, b);
  }

  lemma RunOfTaskIsStep(t: ControlTask, repeats: nat, w: World, r: Record)
    requires r in TaskRecords(t, repeats, w)
    ensures RunStep(r, w) in TaskSteps(t, repeats, w)
  {
    var records, steps := TaskRecords(t, repeats, w), RunSteps(TaskRecords(t, repeats, w), w);
    var i :| 0 <= i < |records| && records[i] == r;
    assert steps[i] == RunStep(r, w);
  }

  lemma {:induction false} RunIsStep(tasks: seq<ControlTask>, repeats: nat, w: World, r: Record)
    requires r in AllRecords(tasks, repeats, w)
    ensures RunStep(r, w) in AllTaskSteps(tasks, repeats, w)
  {
    var n := |tasks| - 1;
    if r in AllRecords(tasks[..n], repeats, w) {
      RunIsStep(tasks[..n], repeats, w, r);
    } else {
      RunOfTaskIsStep(tasks[n], repeats, w, r);
    }
  }

  lemma {:induction false} RunsAreApart(tasks: seq<ControlTask>, repeats: nat, w: World)
    requires Apart(AllTaskSteps(tasks, repeats, w))
    ensures Apart(RunSteps(AllRecords(tasks, repeats, w), w))
  {
    if |tasks| > 0 {
      var n := |tasks| - 1;
      var front, last := AllRecords(tasks[..n], repeats, w), TaskRecords(tasks[n], repeats, w);
      ApartConcat(AllTaskSteps(tasks[..n], repeats, w), TaskSteps(tasks[n], repeats, w));
      ApartConcat(TaskCheckSteps(tasks[n], |tasks[n].idempotent|, w), RunSteps(last, w));
      RunsAreApart(tasks[..n], repeats, w);
      forall x, y | x in RunSteps(front, w) && y in RunSteps(last, w) ensures !InTheWay(x, y) {
        var i :| 0 <= i < |front| && x == RunStep(front[i], w);
        var j :| 0 <= j < |last| && y == RunStep(last[j], w);
        RunIsStep(tasks[..n], repeats, w, front[i]);
        RunOfTaskIsStep(tasks[n], repeats, w, last[j]);
      }
      RunStepsConcat(front, last, w);
      ApartConcat(RunSteps(front, w), RunSteps(last, w));
    }
  }

  /** A directory is not free when something was left in it or below it. */
  lemma AboveIsInTheWay(a: Step, b: Step)
    requires b.kind.Prepare? && b.dir <= a.dir && a.files != {}
    ensures InTheWay(a, b)
  {
    var r :| r in a.files;
    assert (a.dir + r)[..|b.dir|] == a.dir[..|b.dir|] == b.dir;
  }

  /** In a calibration that got through no run has the directory of an earlier one, nor one that holds it. */
  lemma RunDirsAreTheirOwn(t: Tree, tasks: seq<ControlTask>, repeats: nat, w: World)
    requires Working(w) && Orderly(t, CalibrationSteps(tasks, repeats, w))
    ensures var records := AllRecords(tasks, repeats, w);
      forall i, j :: 0 <= i < j < |records| ==>
        !(ArtifactRefs.Located(records[j].artifactDir) <= ArtifactRefs.Located(records[i].artifactDir))
  {
    var records := AllRecords(tasks, repeats, w);
    var steps := RunSteps(records, w);
    TasksAreApart(t, tasks, repeats, w);
    RunsAreApart(tasks, repeats, w);
    forall i, j | 0 <= i < j < |records|
      ensures !(ArtifactRefs.Located(records[j].artifactDir) <= ArtifactRefs.Located(records[i].artifactDir))
    {
      assert !InTheWay(steps[i], steps[j]);
      if steps[j].dir <= steps[i].dir {
        AboveIsInTheWay(steps[i], steps[j]);
      }
    }
  }

  /** The directory of a calibration that got through cannot be used for the same tasks again. */
  lemma SecondCalibrationIsRefused(t: Tree, tasks: seq<ControlTask>, repeats: nat, w: World)
    requires Startable(tasks, repeats) && Working(w) && Runs(t, CalibrationSteps(tasks, repeats, w)).Some?
    ensures !Orderly(Runs(t, CalibrationSteps(tasks, repeats, w)).value, CalibrationSteps(tasks, repeats, w))
  {
    var steps := CalibrationSteps(tasks, repeats, w);
    var r := RecordOf(tasks[0], ScorerLayer, SCORER_CONTROLS[0], 0, w);
    assert tasks[0] in tasks && IsTaskRun(r, tasks[0], repeats, w);
    RecordsHold(tasks, repeats, w, r);
    RunIsStep(tasks, repeats, w, r);
    var s := RunStep(r, w);
    assert s in steps;
    var i :| 0 <= i < |steps| && steps[i] == s;
    AboveIsInTheWay(s, s);
    FitsAfterAll(t, steps, s);
  }

  // ---------------------------------------------------------------- ids without a slash

  predicate PlainIds(tasks: seq<ControlTask>) {
    forall t :: t in tasks ==> '/' !in t.taskId && '\\' !in t.taskId
  }

  lemma PlainIdFits(root: Path, id: string, isAlpha: char -> bool)
    requires '/' !in id && '\\' !in id
    ensures IdFits(root, id, isAlpha) && !ArtifactRefs.IsAbsolute(id) && ArtifactRefs.Front(id) == [] && ArtifactRefs.Last(id) == id
  {
    ArtifactRefs.SplitOne(id);
  }

  lemma PlainPlace(root: Path, folder: string, id: string, suffix: string)
    requires Tag(suffix) && PlainFolder(folder) && ".." !in root && '/' !in id && '\\' !in id
    ensures ArtifactRefs.Located(TaggedPath(root, folder, id, suffix)) == root + [folder] + [id + suffix]
  {
    var isAlpha := (c: char) => false;
    PlainIdFits(root, id, isAlpha);
    FittingIsLocated(root, folder, id, suffix, isAlpha);
  }

  /** A run of the task, or one of its checks, in a directory directly inside its folder. */
  predicate RunAt(s: Step, root: Path, t: ControlTask, layer: Layer, control: string, i: nat) {
    s.kind.Prepare? && control in Controls(layer) && s.dir == root + [LayerDir(layer)] + [t.taskId + RunSuffix(control, i)]
  }

  predicate CheckAtPlace(s: Step, root: Path, t: ControlTask, k: nat) {
    s.kind.MakeNew? && s.dir == root + [CHECKS_DIR] + [t.taskId + CheckSuffix(k)]
  }

  ghost predicate StepOf(s: Step, root: Path, t: ControlTask) {
    || (exists k: nat :: CheckAtPlace(s, root, t, k))
    || (exists layer, control, i: nat :: RunAt(s, root, t, layer, control, i))
  }

  lemma SameFolderAndName(root: Path, f: string, a: string, g: string, b: string)
    requires root + [f] + [a] == root + [g] + [b]
    ensures f == g && a == b
  {
    var p, q := root + [f] + [a], root + [g] + [b];
    assert p[|root|] == f && q[|root|] == g && p[|root| + 1] == a && q[|root| + 1] == b;
  }

  lemma CheckNameIsInjective(a: string, i: nat, b: string, j: nat)
    requires a + CheckSuffix(i) == b + CheckSuffix(j)
    ensures a == b && i == j
  {
    CheckNameIs(a, i);
    CheckNameIs(b, j);
    NumberedNameIsInjective(a, "__public_check", i, b, j);
  }

  lemma CheckNameIs(a: string, i: nat)
    ensures a + CheckSuffix(i) == a + "__public_check" + "_" + Decimal.Padded(i + 1, 3)
  {
  }

  /** The directory tells the task. */
  lemma DirTellsTask(x: Step, y: Step, root: Path, t: ControlTask, u: ControlTask)
    requires StepOf(x, root, t) && StepOf(y, root, u) && x.dir == y.dir
    ensures t.taskId == u.taskId
  {
    if k: nat :| CheckAtPlace(x, root, t, k) {
      if l: nat :| CheckAtPlace(y, root, u, l) {
        SameFolderAndName(root, CHECKS_DIR, t.taskId + CheckSuffix(k), CHECKS_DIR, u.taskId + CheckSuffix(l));
        CheckNameIsInjective(t.taskId, k, u.taskId, l);
      } else {
        var layer, control, i: nat :| RunAt(y, root, u, layer, control, i);
        SameFolderAndName(root, CHECKS_DIR, t.taskId + CheckSuffix(k), LayerDir(layer), u.taskId + RunSuffix(control, i));
      }
    } else {
      var layer, control, i: nat :| RunAt(x, root, t, layer, control, i);
      if l: nat :| CheckAtPlace(y, root, u, l) {
        SameFolderAndName(root, LayerDir(layer), t.taskId + RunSuffix(control, i), CHECKS_DIR, u.taskId + CheckSuffix(l));
      } else {
        var layer2, control2, j: nat :| RunAt(y, root, u, layer2, control2, j);
        SameFolderAndName(root, LayerDir(layer), t.taskId + RunSuffix(control, i), LayerDir(layer2), u.taskId + RunSuffix(control2, j));
        RunNameIsInjective(layer, t.taskId, control, i, u.taskId, control2, j);
      }
    }
  }

  predicate DifferentDirs(steps: seq<Step>) {
    forall i, j :: 0 <= i < j < |steps| ==> steps[i].dir != steps[j].dir
  }

  lemma DifferentConcat(a: seq<Step>, b: seq<Step>)
    requires DifferentDirs(a) && DifferentDirs(b) && forall x, y :: x in a && y in b ==> x.dir != y.dir
    ensures DifferentDirs(a + b)
  {
    var s := a + b;
    forall i, j | 0 <= i < j < |s| ensures s[i].dir != s[j].dir {
      if i < |a| <= j {
        assert s[i] in a && s[j] in b;
      }
    }
  }

  ghost predicate StepsOf(steps: seq<Step>, root: Path, t: ControlTask) {
    forall s :: s in steps ==> StepOf(s, root, t)
  }

  lemma CheckIsPlaced(t: ControlTask, w: World, c: Calibration)
    requires '/' !in t.taskId && '\\' !in t.taskId && ".." !in w.outDir && c in TaskChecks(t, |t.idempotent|, w)
    ensures c == CheckOf(t, c.publicCheckIndex, w) && CheckAtPlace(CheckStep(c, w), w.outDir, t, c.publicCheckIndex)
  {
    TaskChecksHold(t, |t.idempotent|, w, c);
    CheckPlace(w, t.taskId, c.publicCheckIndex);
  }

  lemma CheckPlace(w: World, id: string, k: nat)
    requires '/' !in id && '\\' !in id && ".." !in w.outDir
    ensures ArtifactRefs.Located(CheckPath(w, id, k)) == w.outDir + [CHECKS_DIR] + [id + CheckSuffix(k)]
  {
    CheckSuffixIsTag(k);
    PlainPlace(w.outDir, CHECKS_DIR, id, CheckSuffix(k));
  }

  lemma ChecksArePlain(t: ControlTask, w: World)
    requires '/' !in t.taskId && '\\' !in t.taskId && ".." !in w.outDir
    ensures var steps := TaskCheckSteps(t, |t.idempotent|, w);
      DifferentDirs(steps) && forall s :: s in steps ==> exists k: nat :: CheckAtPlace(s, w.outDir, t, k)
  {
    var n := |t.idempotent|;
    var checks, steps := TaskChecks(t, n, w), TaskCheckSteps(t, n, w);
    TaskChecksUnique(t, n, w);
    forall i | 0 <= i < |checks|
      ensures checks[i] == CheckOf(t, checks[i].publicCheckIndex, w) && CheckAtPlace(steps[i], w.outDir, t, checks[i].publicCheckIndex)
    {
      CheckIsPlaced(t, w, checks[i]);
    }
    forall i, j | 0 <= i < j < |steps| ensures steps[i].dir != steps[j].dir {
      assert checks[i] != checks[j];
      if steps[i].dir == steps[j].dir {
        var k, l := checks[i].publicCheckIndex, checks[j].publicCheckIndex;
        SameFolderAndName(w.outDir, CHECKS_DIR, t.taskId + CheckSuffix(k), CHECKS_DIR, t.taskId + CheckSuffix(l));
        CheckNameIsInjective(t.taskId, k, t.taskId, l);
      }
    }
  }

  lemma RunsArePlain(t: ControlTask, repeats: nat, w: World)
    requires '/' !in t.taskId && '\\' !in t.taskId && ".." !in w.outDir
    ensures var steps := RunSteps(TaskRecords(t, repeats, w), w);
      DifferentDirs(steps) && forall s :: s in steps ==> exists layer, control, i: nat :: RunAt(s, w.outDir, t, layer, control, i)
  {
    var records, steps := TaskRecords(t, repeats, w), RunSteps(TaskRecords(t, repeats, w), w);
    TaskRecordsUnique(t, repeats, w);
    forall i | 0 <= i < |records|
      ensures records[i] == RecordOf(t, records[i].layer, records[i].controlName, records[i].repeatIndex, w)
      ensures RunAt(steps[i], w.outDir, t, records[i].layer, records[i].controlName, records[i].repeatIndex)
    {
      var r := records[i];
      TaskRecordsHold(t, repeats, w, r);
      RunSuffixIsTag(r.layer, r.controlName, r.repeatIndex);
      LayerDirIsPlain(r.layer);
      PlainPlace(w.outDir, LayerDir(r.layer), t.taskId, RunSuffix(r.controlName, r.repeatIndex));
    }
    forall i, j | 0 <= i < j < |steps| ensures steps[i].dir != steps[j].dir {
      assert records[i] != records[j];
      if steps[i].dir == steps[j].dir {
        var r, q := records[i], records[j];
        SameFolderAndName(w.outDir, LayerDir(r.layer), t.taskId + RunSuffix(r.controlName, r.repeatIndex),
                          LayerDir(q.layer), t.taskId + RunSuffix(q.controlName, q.repeatIndex));
        RunNameIsInjective(r.layer, t.taskId, r.controlName, r.repeatIndex, t.taskId, q.controlName, q.repeatIndex);
      }
    }
  }

  lemma TaskIsPlain(t: ControlTask, repeats: nat, w: World)
    requires '/' !in t.taskId && '\\' !in t.taskId && ".." !in w.outDir
    ensures DifferentDirs(TaskSteps(t, repeats, w)) && StepsOf(TaskSteps(t, repeats, w), w.outDir, t)
  {
    var a, b := TaskCheckSteps(t, |t.idempotent|, w), RunSteps(TaskRecords(t, repeats, w), w);
    ChecksArePlain(t, w);
    RunsArePlain(t, repeats, w);
    forall x, y | x in a && y in b ensures x.dir != y.dir {
      var k: nat :| CheckAtPlace(x, w.outDir, t, k);
      var layer, control, i: nat :| RunAt(y, w.outDir, t, layer, control, i);
      if x.dir == y.dir {
        SameFolderAndName(w.outDir, CHECKS_DIR, t.taskId + CheckSuffix(k), LayerDir(layer), t.taskId + RunSuffix(control, i));
      }
    }
    DifferentConcat(a, b);
  }

  ghost predicate StepsOfTasks(steps: seq<Step>, root: Path, tasks: seq<ControlTask>) {
    forall s :: s in steps ==> exists t :: t in tasks && StepOf(s, root, t)
  }

  lemma {:induction false} TasksArePlain(tasks: seq<ControlTask>, repeats: nat, w: World)
    requires Unique(TaskIds(tasks)) && PlainIds(tasks) && ".." !in w.outDir
    ensures DifferentDirs(AllTaskSteps(tasks, repeats, w)) && StepsOfTasks(AllTaskSteps(tasks, repeats, w), w.outDir, tasks)
  {
    if |tasks| > 0 {
      var n := |tasks| - 1;
      var front, last := AllTaskSteps(tasks[..n], repeats, w), TaskSteps(tasks[n], repeats, w);
      FewerTaskIds(tasks);
      TasksArePlain(tasks[..n], repeats, w);
      TaskIsPlain(tasks[n], repeats, w);
      forall x, y | x in front && y in last ensures x.dir != y.dir {
        var t :| t in tasks[..n] && StepOf(x, w.outDir, t);
        if x.dir == y.dir {
          DirTellsTask(x, y, w.outDir, t, tasks[n]);
        }
      }
      DifferentConcat(front, last);
      MoreTasks(front, last, w.outDir, tasks);
    }
  }

  lemma MoreTasks(front: seq<Step>, last: seq<Step>, root: Path, tasks: seq<ControlTask>)
    requires |tasks| > 0 && StepsOfTasks(front, root, tasks[..|tasks| - 1]) && StepsOf(last, root, tasks[|tasks| - 1])
    ensures StepsOfTasks(front + last, root, tasks)
  {
    var n := |tasks| - 1;
    forall s | s in front + last ensures exists t :: t in tasks && StepOf(s, root, t) {
      if s in front {
        var t :| t in tasks[..n] && StepOf(s, root, t);
        assert t in tasks;
      } else {
        assert tasks[n] in tasks;
      }
    }
  }

  /** Two levels below the root, in one of the three folders. */
  predicate InFolder(s: Step, root: Path) {
    && (s.kind.Prepare? || s.kind.MakeNew?)
    && |s.dir| == |root| + 2 && root <= s.dir && s.dir[|root|] in {LayerDir(ScorerLayer), LayerDir(AgentLayer), CHECKS_DIR}
  }

  lemma StepIsInFolder(s: Step, root: Path, t: ControlTask)
    requires StepOf(s, root, t)
    ensures InFolder(s, root)
  {
    if k: nat :| CheckAtPlace(s, root, t, k) {
      assert s.dir[|root|] == CHECKS_DIR;
    } else {
      var layer, control, i: nat :| RunAt(s, root, t, layer, control, i);
      assert s.dir[|root|] == LayerDir(layer);
    }
  }

  lemma SameDepthApart(a: Step, b: Step)
    requires (b.kind.Prepare? || b.kind.MakeNew?) && |a.dir| == |b.dir| && a.dir != b.dir
    ensures !InTheWay(a, b)
  {
    forall r: Path ensures !Related(b.dir, a.dir + r) {
      assert (a.dir + r)[..|a.dir|] == a.dir && b.dir[..|a.dir|] == b.dir;
    }
  }

  lemma FreshFits(s: Step, root: Path)
    requires InFolder(s, root)
    ensures Fits(FreshTree(root), s)
  {
    forall n | n in Prefixes(root) ensures |n| <= |root| {
    }
  }

  lemma OpeningPasses(w: World, s: Step)
    requires InFolder(s, w.outDir)
    ensures Passes(Opening(w), [s])
  {
  }

  lemma ReportPasses(w: World, a: Step)
    requires InFolder(a, w.outDir) || a in Opening(w)
    ensures !InTheWay(a, Step(Save, w.outDir, REPORT_FILES))
  {
    forall q | q in REPORT_FILES ensures !FileInTheWay(a, w.outDir + q) {
      var file, n := w.outDir + q, |w.outDir|;
      assert file[n] == q[0];
      if InFolder(a, w.outDir) {
        forall r: Path ensures !(file <= a.dir + r) {
          assert (a.dir + r)[n] == a.dir[n];
        }
        assert a.dir + [] == a.dir;
      } else {
        assert a.files == {};
      }
    }
  }

  lemma PlainTasksApart(tasks: seq<ControlTask>, repeats: nat, w: World)
    requires Unique(TaskIds(tasks)) && PlainIds(tasks) && ".." !in w.outDir
    ensures var steps := AllTaskSteps(tasks, repeats, w);
      Apart(steps) && forall s :: s in steps ==> InFolder(s, w.outDir)
  {
    var steps := AllTaskSteps(tasks, repeats, w);
    TasksArePlain(tasks, repeats, w);
    forall s | s in steps ensures InFolder(s, w.outDir) {
      var t :| t in tasks && StepOf(s, w.outDir, t);
      StepIsInFolder(s, w.outDir, t);
    }
    forall i, j | 0 <= i < j < |steps| ensures !InTheWay(steps[i], steps[j]) {
      assert steps[i] in steps && steps[j] in steps;
      SameDepthApart(steps[i], steps[j]);
    }
  }

  lemma StepsApart(w: World, steps: seq<Step>)
    requires Apart(steps) && forall s :: s in steps ==> InFolder(s, w.outDir)
    ensures Apart(Opening(w) + steps + [Step(Save, w.outDir, REPORT_FILES)])
  {
    var a, c := Opening(w), [Step(Save, w.outDir, REPORT_FILES)];
    forall x, y | x in a && y in steps ensures !InTheWay(x, y) {
      OpeningPasses(w, y);
    }
    ApartConcat(a, steps);
    forall x, y | x in a + steps && y in c ensures !InTheWay(x, y) {
      ReportPasses(w, x);
    }
    ApartConcat(a + steps, c);
  }

  lemma StepsFit(w: World, steps: seq<Step>, s: Step)
    requires (forall x :: x in steps ==> InFolder(x, w.outDir)) && s in Opening(w) + steps + [Step(Save, w.outDir, REPORT_FILES)]
    ensures Fits(FreshTree(w.outDir), s)
  {
    if s in steps {
      FreshFits(s, w.outDir);
    }
    ReportFits(w.outDir);
  }

  /** With ids free of slashes and backslashes a calibration in a fresh directory is never held up by one. */
  lemma PlainIdsRunThrough(tasks: seq<ControlTask>, repeats: nat, w: World, isAlpha: char -> bool)
    requires Startable(tasks, repeats) && PlainIds(tasks) && ".." !in w.outDir
    ensures Orderly(FreshTree(w.outDir), CalibrationSteps(tasks, repeats, w)) && AllIdsFit(tasks, w.outDir, isAlpha)
  {
    var steps, all := AllTaskSteps(tasks, repeats, w), CalibrationSteps(tasks, repeats, w);
    PlainTasksApart(tasks, repeats, w);
    StepsApart(w, steps);
    forall j | 0 <= j < |all| ensures Fits(FreshTree(w.outDir), all[j]) {
      StepsFit(w, steps, all[j]);
    }
    forall t | t in tasks ensures IdFits(w.outDir, t.taskId, isAlpha) {
      PlainIdFits(w.outDir, t.taskId, isAlpha);
    }
  }

  lemma ReportFits(root: Path)
    ensures Fits(FreshTree(root), Step(Save, root, REPORT_FILES))
  {
    forall q | q in REPORT_FILES ensures SaveFits(FreshTree(root), root + q) {
      PrefixIs(root + q, root);
    }
  }

  // ---------------------------------------------------------------- ids with slashes

  lemma OneSlash(a: string, b: string)
    requires '/' !in a && '/' !in b && a !in {"", "."} && |a| > 0
    ensures ArtifactRefs.Front(a + "/" + b) == [a] && ArtifactRefs.Last(a + "/" + b) == b
  {
    ArtifactRefs.SplitOne(b);
    ArtifactRefs.SplitCons(a, b);
    assert ArtifactRefs.Split(a + "/" + b)[..1] == [a];
    assert ArtifactRefs.Kept([a]) == [a] + ArtifactRefs.Kept([]);
  }

  lemma TwoSlashes(a: string, b: string)
    requires '/' !in a && '/' !in b && a !in {"", "."} && |a| > 0
    ensures ArtifactRefs.Front(a + "/" + ("" + "/" + b)) == [a] && ArtifactRefs.Last(a + "/" + ("" + "/" + b)) == b
  {
    ArtifactRefs.SplitOne(b);
    ArtifactRefs.SplitCons("", b);
    ArtifactRefs.SplitCons(a, "" + "/" + b);
    var pieces := ArtifactRefs.Split(a + "/" + ("" + "/" + b));
    assert pieces == [a, "", b] && pieces[..2] == [a, ""];
    assert ArtifactRefs.Kept([a, ""]) == [a] + ArtifactRefs.Kept([""]);
  }

  /** A doubled slash is gone from what the manifest lists. */
  lemma DoubledSlashIsListed(root: Path, isAlpha: char -> bool)
    ensures IdFits(root, "a//b", isAlpha)
    ensures ArtifactRefs.RefFrom(root, TaggedPath(root, LayerDir(ScorerLayer), "a//b", RunSuffix("oracle", 0))) ==
      Some(LayerDir(ScorerLayer) + "/" + ("a" + "/" + ("b" + RunSuffix("oracle", 0))))
  {
    var folder, suffix := LayerDir(ScorerLayer), RunSuffix("oracle", 0);
    assert "a//b" == "a" + "/" + ("" + "/" + "b");
    TwoSlashes("a", "b");
    RunSuffixIsTag(ScorerLayer, "oracle", 0);
    TaggedPathIs(root, folder, "a//b", suffix);
    var below := [folder] + ["a"] + ["b" + suffix];
    assert TaggedParts(root, folder, "a//b", suffix) == root + below;
    assert (root + below)[|root|..] == below;
    JoinOfThree(folder, "a", "b" + suffix);
  }

  lemma JoinOfThree(a: string, b: string, c: string)
    ensures ArtifactRefs.Join([a] + [b] + [c]) == a + "/" + (b + "/" + c)
  {
    var parts := [a] + [b] + [c];
    assert parts[1..] == [b, c] && parts[1..][1..] == [c];
    assert ArtifactRefs.Join([c]) == c;
  }

  /** A backslash, a parent component before the last, and an absolute id that leads elsewhere. */
  lemma IdsThatDoNotFit(root: Path, isAlpha: char -> bool)
    ensures !IdFits(root, "a\\b", isAlpha)
    ensures !IdFits(root, "../b", isAlpha)
    ensures root != [] ==> !IdFits(root, "/b", isAlpha)
  {
    ArtifactRefs.SplitOne("a\\b");
    assert "a\\b"[1] == '\\';
    assert "../b" == ".." + "/" + "b" && "/b" == "" + "/" + "b";
    OneSlash("..", "b");
    assert !GoodPart([".."][0]);
    ArtifactRefs.SplitOne("b");
    ArtifactRefs.SplitCons("", "b");
    assert ArtifactRefs.Split("/b")[..1] == [""];
    assert ArtifactRefs.Kept([""]) == [];
  }

  /** An absolute id is fine when it leads into the output directory. */
  lemma AbsoluteIdInsideFits(isAlpha: char -> bool)
    ensures IdFits(["out"], "/out/b", isAlpha)
  {
    assert "/out/b" == "" + "/" + ("out" + "/" + "b");
    ArtifactRefs.SplitOne("b");
    ArtifactRefs.SplitCons("out", "b");
    ArtifactRefs.SplitCons("", "out/b");
    assert "out/b" == "out" + "/" + "b";
    assert ArtifactRefs.Split("/out/b")[..2] == ["", "out"];
    assert ArtifactRefs.Kept(["", "out"]) == ArtifactRefs.Kept(["out"]) == ["out"] + ArtifactRefs.Kept([]);
  }

  function TwoTasks(a: string, b: string): seq<ControlTask> {
    [ControlTask(a, "first", []), ControlTask(b, "second", [])]
  }

  lemma TwoTasksStart(a: string, b: string, repeats: nat)
    requires a != b && a != "" && b != "" && repeats > 0
    ensures Startable(TwoTasks(a, b), repeats) && NoSharedCheck(TwoTasks(a, b))
  {
    var tasks := TwoTasks(a, b);
    assert TaskIds(tasks) == [a, b];
  }

  lemma BlockedBySecond(t: Tree, tasks: seq<ControlTask>, repeats: nat, w: World)
    requires |tasks| == 2 && repeats > 0 && Working(w)
    requires ArtifactRefs.Located(RunPath(w, ScorerLayer, tasks[1].taskId, "oracle", 0)) <= ArtifactRefs.Located(RunPath(w, ScorerLayer, tasks[0].taskId, "oracle", 0))
    ensures !Orderly(t, CalibrationSteps(tasks, repeats, w))
  {
    var r, q := RecordOf(tasks[0], ScorerLayer, "oracle", 0, w), RecordOf(tasks[1], ScorerLayer, "oracle", 0, w);
    TaskRecordsHold(tasks[0], repeats, w, r);
    TaskRecordsHold(tasks[1], repeats, w, q);
    RunOfTaskIsStep(tasks[0], repeats, w, r);
    RunOfTaskIsStep(tasks[1], repeats, w, q);
    AboveIsInTheWay(RunStep(r, w), RunStep(q, w));
    var front := tasks[..1];
    assert front[..0] == [] && AllTaskSteps(front, repeats, w) == AllTaskSteps(front[..0], repeats, w) + TaskSteps(tasks[0], repeats, w);
    if Orderly(t, CalibrationSteps(tasks, repeats, w)) {
      TasksAreApart(t, tasks, repeats, w);
      ApartConcat(AllTaskSteps(front, repeats, w), TaskSteps(tasks[1], repeats, w));
    }
  }

  lemma SlashedPlace(w: World, id: string, a: string, b: string)
    requires ".." !in w.outDir && |id| > 0 && id[0] != '/'
    requires ArtifactRefs.Front(id) == [a] && ArtifactRefs.Last(id) == b && GoodPart(a) && '\\' !in b
    ensures ArtifactRefs.Located(RunPath(w, ScorerLayer, id, "oracle", 0)) == w.outDir + [LayerDir(ScorerLayer)] + [a] + [b + RunSuffix("oracle", 0)]
    ensures forall isAlpha :: IdFits(w.outDir, id, isAlpha)
  {
    RunSuffixIsTag(ScorerLayer, "oracle", 0);
    LayerDirIsPlain(ScorerLayer);
    FittingIsLocated(w.outDir, LayerDir(ScorerLayer), id, RunSuffix("oracle", 0), (c: char) => false);
  }

  /** A task named into the directory of a later task's first run. */
  lemma RunDirIsTaken(t: Tree, repeats: nat, w: World, isAlpha: char -> bool)
    requires repeats > 0 && Working(w)
    ensures var tasks := TwoTasks("x" + RunSuffix("oracle", 0) + "/" + "y", "x");
      && Startable(tasks, repeats) && AllIdsFit(tasks, w.outDir, isAlpha) && NoSharedCheck(tasks)
      && !Orderly(t, CalibrationSteps(tasks, repeats, w))
  {
    var name := "x" + RunSuffix("oracle", 0);
    var tasks := TwoTasks(name + "/" + "y", "x");
    RunSuffixIsTag(ScorerLayer, "oracle", 0);
    assert |name| > 2 && name[0] == 'x' && '/' !in name && '\\' !in name;
    assert (name + "/" + "y")[0] == 'x';
    assert |name + "/" + "y"| > 1;
    TwoTasksStart(name + "/" + "y", "x", repeats);
    OneSlash(name, "y");
    SlashedPlace(w, name + "/" + "y", name, "y");
    PlainIdFits(w.outDir, "x", isAlpha);
    LayerDirIsPlain(ScorerLayer);
    PlainPlace(w.outDir, LayerDir(ScorerLayer), "x", RunSuffix("oracle", 0));
    BlockedBySecond(t, tasks, repeats, w);
  }

  /** Two ids that are one path. */
  lemma SameDirIsTaken(t: Tree, repeats: nat, w: World, isAlpha: char -> bool)
    requires repeats > 0 && Working(w)
    ensures var tasks := TwoTasks("a/b", "a//b");
      && Startable(tasks, repeats) && AllIdsFit(tasks, w.outDir, isAlpha) && NoSharedCheck(tasks)
      && !Orderly(t, CalibrationSteps(tasks, repeats, w))
  {
    assert "a/b" == "a" + "/" + "b" && "a//b" == "a" + "/" + ("" + "/" + "b");
    TwoTasksStart("a/b", "a//b", repeats);
    OneSlash("a", "b");
    TwoSlashes("a", "b");
    SlashedPlace(w, "a/b", "a", "b");
    SlashedPlace(w, "a//b", "a", "b");
    BlockedBySecond(t, TwoTasks("a/b", "a//b"), repeats, w);
  }
}
