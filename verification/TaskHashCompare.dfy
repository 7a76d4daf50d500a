/** Are two evaluations of the same task inputs?  A comparison of recorded task hashes, with the drift spelled out. */
module TaskHashCompare {
  import opened Wrappers
  import opened FileDrift

  datatype FileHash = FileHash(hash: string, kind: string)
  datatype RequiredFile = RequiredFile(path: string, file: FileHash)

  datatype SelectedTask = SelectedTask(
    taskId: string, split: string, taskRecordHash: string, taskYamlHash: string,
    requiredTaskFilesHash: string, fullTaskDirHash: string, requiredTaskFiles: seq<RequiredFile>)

  datatype Source = Source(taskPackId: string, selectedTaskHashSet: string, selectedTasks: seq<SelectedTask>)

  /** {record.path: record for record in files}; a later record wins. */
  function FilesByPath(files: seq<RequiredFile>): map<string, FileHash> {
    if |files| == 0 then map[] else FilesByPath(files[..|files| - 1])[files[|files| - 1].path := files[|files| - 1].file]
  }

  function TasksById(tasks: seq<SelectedTask>): map<string, SelectedTask> {
    if |tasks| == 0 then map[] else TasksById(tasks[..|tasks| - 1])[tasks[|tasks| - 1].taskId := tasks[|tasks| - 1]]
  }

  function When(condition: bool, name: string): seq<string> {
    if condition then [name] else []
  }

  function ChangedFields(a: SelectedTask, b: SelectedTask): seq<string> {
    When(a.split != b.split, "split") + When(a.taskRecordHash != b.taskRecordHash, "task_record_hash")
    + When(a.taskYamlHash != b.taskYamlHash, "task_yaml_hash")
    + When(a.requiredTaskFilesHash != b.requiredTaskFilesHash, "required_task_files_hash")
    + When(a.fullTaskDirHash != b.fullTaskDirHash, "full_task_dir_hash")
  }

  datatype TaskDrift = TaskDrift(taskId: string, changedFields: seq<string>, fileDrifts: seq<Drift<FileHash>>)

  /** What a task's inputs are, for comparison. */
  datatype Inputs = Inputs(split: string, taskRecordHash: string, taskYamlHash: string, requiredTaskFilesHash: string,
                           fullTaskDirHash: string, files: map<string, FileHash>)

  function InputsOf(t: SelectedTask): Inputs {
    Inputs(t.split, t.taskRecordHash, t.taskYamlHash, t.requiredTaskFilesHash, t.fullTaskDirHash, FilesByPath(t.requiredTaskFiles))
  }

  /** A drift record tells every difference between two records of one task. */
  ghost predicate DescribesTask(d: TaskDrift, a: SelectedTask, b: SelectedTask) {
    && d.taskId == a.taskId && d.changedFields == ChangedFields(a, b)
    && IsDiff(d.fileDrifts, FilesByPath(a.requiredTaskFiles), FilesByPath(b.requiredTaskFiles))
  }

  lemma ChangedFieldsEmpty(a: SelectedTask, b: SelectedTask)
    ensures ChangedFields(a, b) == [] <==>
      a.split == b.split && a.taskRecordHash == b.taskRecordHash && a.taskYamlHash == b.taskYamlHash
      && a.requiredTaskFilesHash == b.requiredTaskFilesHash && a.fullTaskDirHash == b.fullTaskDirHash
  {
    assert |ChangedFields(a, b)| == |When(a.split != b.split, "split")| + |When(a.taskRecordHash != b.taskRecordHash, "task_record_hash")|
      + |When(a.taskYamlHash != b.taskYamlHash, "task_yaml_hash")|
      + |When(a.requiredTaskFilesHash != b.requiredTaskFilesHash, "required_task_files_hash")|
      + |When(a.fullTaskDirHash != b.fullTaskDirHash, "full_task_dir_hash")|;
  }

  /** Each changed field is named, by its own name, exactly when it changed. */
  lemma FieldIsNamedIff(a: SelectedTask, b: SelectedTask)
    ensures "split" in ChangedFields(a, b) <==> a.split != b.split
    ensures "task_record_hash" in ChangedFields(a, b) <==> a.taskRecordHash != b.taskRecordHash
    ensures "task_yaml_hash" in ChangedFields(a, b) <==> a.taskYamlHash != b.taskYamlHash
    ensures "required_task_files_hash" in ChangedFields(a, b) <==> a.requiredTaskFilesHash != b.requiredTaskFilesHash
    ensures "full_task_dir_hash" in ChangedFields(a, b) <==> a.fullTaskDirHash != b.fullTaskDirHash
    ensures forall name :: name in ChangedFields(a, b) ==>
      name in {"split", "task_record_hash", "task_yaml_hash", "required_task_files_hash", "full_task_dir_hash"}
  {
    assert "split"[0] == 's' && "task_record_hash"[5] == 'r' && "task_yaml_hash"[5] == 'y' && "required_task_files_hash"[0] == 'r' && "full_task_dir_hash"[0] == 'f';
  }

  /** _compare_selected_task_hashes: nothing to report exactly when the inputs are the same. */
  method CompareTasks(a: SelectedTask, b: SelectedTask) returns (d: Option<TaskDrift>)
    ensures d.None? <==> InputsOf(a) == InputsOf(b)
    ensures d.Some? ==> DescribesTask(d.value, a, b)
  {
    var fields := ChangedFields(a, b);
    var drifts := FileDrifts(FilesByPath(a.requiredTaskFiles), FilesByPath(b.requiredTaskFiles));
    ChangedFieldsEmpty(a, b);
    EmptyDiffIffEqual(drifts, FilesByPath(a.requiredTaskFiles), FilesByPath(b.requiredTaskFiles));
    d := if fields == [] && drifts == [] then None else Some(TaskDrift(a.taskId, fields, drifts));
  }

  /** The comparison record; the sorted tuples of the report are sets and a dictionary here. */
  datatype Comparison = Comparison(matched: bool, packIdMatch: bool, hashSetMatch: bool,
                                   added: set<string>, removed: set<string>, changed: map<string, TaskDrift>)

  function ChangedIds(a: Source, b: Source): set<string> {
    var ta, tb := TasksById(a.selectedTasks), TasksById(b.selectedTasks);
    set id | id in ta.Keys && id in tb.Keys && InputsOf(ta[id]) != InputsOf(tb[id])
  }

  ghost predicate Describes(c: Comparison, a: Source, b: Source) {
    var ta, tb := TasksById(a.selectedTasks), TasksById(b.selectedTasks);
    && c.packIdMatch == (a.taskPackId == b.taskPackId) && c.hashSetMatch == (a.selectedTaskHashSet == b.selectedTaskHashSet)
    && c.added == tb.Keys - ta.Keys && c.removed == ta.Keys - tb.Keys
    && c.changed.Keys == ChangedIds(a, b)
    && (forall id :: id in c.changed ==> id in ta && id in tb && DescribesTask(c.changed[id], ta[id], tb[id]))
    && c.matched == (c.packIdMatch && c.hashSetMatch && c.added == {} && c.removed == {} && c.changed == map[])
  }

  /** compare_eval_task_hash_sources. */
  method CompareSources(a: Source, b: Source) returns (c: Comparison)
    ensures Describes(c, a, b)
  {
    var ta, tb := TasksById(a.selectedTasks), TasksById(b.selectedTasks);
    var changed: map<string, TaskDrift> := map[];
    var left := ta.Keys * tb.Keys;
    while left != {}
      invariant left <= ta.Keys * tb.Keys
      invariant changed.Keys == ChangedIds(a, b) - left
      invariant forall id :: id in changed ==> id in ta && id in tb && DescribesTask(changed[id], ta[id], tb[id])
    {
      var id :| id in left;
      var drift := CompareTasks(ta[id], tb[id]);
      if drift.Some? {
        changed := changed[id := drift.value];
      }
      left := left - {id};
    }
    var packIdMatch, hashSetMatch := a.taskPackId == b.taskPackId, a.selectedTaskHashSet == b.selectedTaskHashSet;
    var added, removed := tb.Keys - ta.Keys, ta.Keys - tb.Keys;
    c := Comparison(packIdMatch && hashSetMatch && added == {} && removed == {} && changed == map[],
                    packIdMatch, hashSetMatch, added, removed, changed);
  }

  // ---------------------------------------------------------------- what a match means

  function AllInputs(s: Source): map<string, Inputs> {
    var tasks := TasksById(s.selectedTasks);
    map id | id in tasks :: InputsOf(tasks[id])
  }

  /** The task inputs of an evaluation, as far as two evaluations can be told apart by them. */
  predicate SameInputs(a: Source, b: Source) {
    a.taskPackId == b.taskPackId && a.selectedTaskHashSet == b.selectedTaskHashSet && AllInputs(a) == AllInputs(b)
  }

  /** Matched means same inputs, task by task and file by file. */
  lemma MatchedIffSameInputs(c: Comparison, a: Source, b: Source)
    requires Describes(c, a, b)
    ensures c.matched <==> SameInputs(a, b)
  {
    NothingChangedIff(a, b);
    assert c.changed == map[] <==> c.changed.Keys == {};
  }

  lemma NothingChangedIff(a: Source, b: Source)
    ensures var ta, tb := TasksById(a.selectedTasks), TasksById(b.selectedTasks);
      AllInputs(a) == AllInputs(b) <==> ta.Keys == tb.Keys && ChangedIds(a, b) == {}
    ensures var ta, tb := TasksById(a.selectedTasks), TasksById(b.selectedTasks);
      ta.Keys == tb.Keys <==> tb.Keys - ta.Keys == {} && ta.Keys - tb.Keys == {}
  {
    var ta, tb := TasksById(a.selectedTasks), TasksById(b.selectedTasks);
    assert AllInputs(a).Keys == ta.Keys && AllInputs(b).Keys == tb.Keys;
    if ta.Keys == tb.Keys && ChangedIds(a, b) == {} {
      forall id | id in ta ensures InputsOf(ta[id]) == InputsOf(tb[id]) {
        assert id !in ChangedIds(a, b);
      }
    }
    if AllInputs(a) == AllInputs(b) {
      forall id | id in ta ensures id in tb && InputsOf(ta[id]) == InputsOf(tb[id]) {
        assert AllInputs(a)[id] == AllInputs(b)[id];
      }
    }
    if tb.Keys - ta.Keys == {} && ta.Keys - tb.Keys == {} {
      forall id ensures id in ta.Keys <==> id in tb.Keys {
        assert id !in tb.Keys - ta.Keys && id !in ta.Keys - tb.Keys;
      }
    }
  }

  /** Comparisons of one source with itself, back and forth, and across a third agree as an equivalence would. */
  lemma MatchingIsAnEquivalence(a: Source, b: Source, c: Source, aa: Comparison, ab: Comparison, ba: Comparison, bc: Comparison, ac: Comparison)
    requires Describes(aa, a, a) && Describes(ab, a, b) && Describes(ba, b, a) && Describes(bc, b, c) && Describes(ac, a, c)
    ensures aa.matched
    ensures ab.matched == ba.matched
    ensures ab.matched && bc.matched ==> ac.matched
  {
    MatchedIffSameInputs(aa, a, a);
    MatchedIffSameInputs(ab, a, b);
    MatchedIffSameInputs(ba, b, a);
    MatchedIffSameInputs(bc, b, c);
    MatchedIffSameInputs(ac, a, c);
  }

  /** Swapping the sides swaps added and removed, reports the same changed tasks and mirrors their file drifts. */
  lemma SwappedComparisonMirrors(a: Source, b: Source, ab: Comparison, ba: Comparison, id: string)
    requires Describes(ab, a, b) && Describes(ba, b, a)
    ensures ab.added == ba.removed && ab.removed == ba.added && ab.changed.Keys == ba.changed.Keys
    ensures id in ab.changed ==>
      forall i :: 0 <= i < |ab.changed[id].fileDrifts| ==> Mirror(ab.changed[id].fileDrifts[i]) in ba.changed[id].fileDrifts
  {
    assert ChangedIds(a, b) == ChangedIds(b, a);
    if id in ab.changed {
      var fa := FilesByPath(TasksById(a.selectedTasks)[id].requiredTaskFiles);
      var fb := FilesByPath(TasksById(b.selectedTasks)[id].requiredTaskFiles);
      var x, y := ab.changed[id].fileDrifts, ba.changed[id].fileDrifts;
      MirroredDiff(x, fa, fb);
      DiffIsUnique(MirrorAll(x), y, fb, fa);
      forall i | 0 <= i < |x| ensures Mirror(x[i]) in y {
        assert MirrorAll(x)[i] == Mirror(x[i]);
      }
    }
  }
}
