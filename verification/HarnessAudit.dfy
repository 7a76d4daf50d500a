/**
 The agent-task audit: every case yields one record, whatever goes wrong on the way, and the layer's status is
 the same whether it is read off the records, computed from counts, or joined from parts.
 */
module HarnessAudit {
  import opened Wrappers
  import Scorer = ScorerAttempt

  datatype Stage = CasePreparation | HarnessExecution | ExpectationComparison | ResultPersistence

  datatype Provenance = Provenance(
    sourceCasePath: string, caseSourceHash: Option<string>, caseId: Option<string>, taskId: Option<string>,
    taskManifestPath: Option<string>, taskManifestHash: Option<string>, taskRecordHash: Option<string>)

  datatype Comparison = Comparison(field: string, matches: bool)

  datatype Record =
    | CompletedRecord(provenance: Provenance, comparisons: seq<Comparison>, overallMatch: bool)
    | ErrorRecord(provenance: Provenance, stage: Stage, errorClass: string)

  /** What the outside world answers while one case runs. */
  datatype World = World(
    sourceCasePath: string,
    sourceHash: Scorer.Step<string>,
    caseFile: Scorer.Step<string>,
    manifestPath: Scorer.Step<string>,
    manifestHash: Scorer.Step<string>,
    manifest: Scorer.Step<string>,
    recordHash: Scorer.Step<string>,
    script: Scorer.Step<()>,
    execution: Scorer.Step<()>,
    comparisons: Scorer.Step<seq<Comparison>>,
    persistence: Scorer.Step<()>)

  /** PartialHarnessAuditCaseProvenance: later facts presuppose earlier ones. */
  predicate ValidPartial(p: Provenance) {
    && (p.taskId.Some? ==> p.taskManifestPath.Some?)
    && (p.taskManifestHash.Some? ==> p.taskManifestPath.Some?)
    && (p.taskRecordHash.Some? ==> p.taskId.Some? && p.taskManifestPath.Some? && p.taskManifestHash.Some?)
  }

  predicate ValidComplete(p: Provenance) {
    && p.caseSourceHash.Some? && p.caseId.Some? && p.taskId.Some? && p.taskManifestPath.Some?
    && p.taskManifestHash.Some? && p.taskRecordHash.Some?
  }

  predicate AllMatch(cs: seq<Comparison>) {
    forall i :: 0 <= i < |cs| ==> cs[i].matches
  }

  predicate ValidRecord(r: Record) {
    match r
    case CompletedRecord(p, cs, overall) => ValidComplete(p) && cs != [] && overall == AllMatch(cs)
    case ErrorRecord(p, stage, cls) => ValidPartial(p) && cls != "" && (stage != CasePreparation ==> ValidComplete(p))
  }

  function ErrorClass(e: Scorer.Exn): string {
    match e case TimeoutExpired => "TimeoutExpired" case Raised(cls, _) => cls
  }

  predicate Prepared(w: World) {
    && w.sourceHash.Done? && w.caseFile.Done? && w.manifestPath.Done? && w.manifestHash.Done? && w.manifest.Done?
    && w.recordHash.Done? && w.script.Done?
  }

  /** Every step that the stage needs has succeeded; the stage's own step has not. */
  predicate FailsAt(w: World, stage: Stage) {
    match stage
    case CasePreparation => !Prepared(w)
    case HarnessExecution => Prepared(w) && w.execution.Threw?
    case ExpectationComparison => Prepared(w) && w.execution.Done? && w.comparisons.Threw?
    case ResultPersistence => Prepared(w) && w.execution.Done? && w.comparisons.Done? && (w.persistence.Threw? || w.comparisons.value == [])
  }

  predicate Known<T(==)>(fact: Option<T>, reached: bool, step: Scorer.Step<T>) {
    fact == if reached && step.Done? then Some(step.value) else None
  }

  /** Each fact is on record exactly when its step and all steps before it returned, and it is what the step returned. */
  predicate FactsTold(w: World, p: Provenance) {
    var hashed := w.sourceHash.Done?;
    var loaded := hashed && w.caseFile.Done?;
    var located := loaded && w.manifestPath.Done?;
    var manifestHashed := located && w.manifestHash.Done?;
    var parsed := manifestHashed && w.manifest.Done?;
    && p.sourceCasePath == w.sourceCasePath
    && Known(p.caseSourceHash, true, w.sourceHash) && Known(p.caseId, hashed, w.caseFile)
    && Known(p.taskManifestPath, loaded, w.manifestPath) && Known(p.taskManifestHash, located, w.manifestHash)
    && Known(p.taskId, manifestHashed, w.manifest) && Known(p.taskRecordHash, parsed, w.recordHash)
  }

  /** The first preparation step that raised let this out. */
  predicate RaisedFirst(w: World, e: Scorer.Exn) {
    || w.sourceHash == Scorer.Threw(e)
    || (w.sourceHash.Done? && w.caseFile == Scorer.Threw(e))
    || (w.sourceHash.Done? && w.caseFile.Done? && w.manifestPath == Scorer.Threw(e))
    || (w.sourceHash.Done? && w.caseFile.Done? && w.manifestPath.Done? && w.manifestHash == Scorer.Threw(e))
    || (w.sourceHash.Done? && w.caseFile.Done? && w.manifestPath.Done? && w.manifestHash.Done? && w.manifest == Scorer.Threw(e))
    || (w.sourceHash.Done? && w.caseFile.Done? && w.manifestPath.Done? && w.manifestHash.Done? && w.manifest.Done?
        && w.recordHash == Scorer.Threw(e))
    || (w.sourceHash.Done? && w.caseFile.Done? && w.manifestPath.Done? && w.manifestHash.Done? && w.manifest.Done?
        && w.recordHash.Done? && w.script == Scorer.Threw(e))
  }

  predicate NamesClass(cls: string, e: Scorer.Exn) {
    if e.Raised? then cls == e.errorClass else cls == "TimeoutExpired"
  }

  /** The record names the class of what its stage let out; a result without comparisons does not validate. */
  ghost predicate ClassTold(w: World, r: Record)
    requires r.ErrorRecord?
  {
    match r.stage
    case CasePreparation => exists e :: RaisedFirst(w, e) && NamesClass(r.errorClass, e)
    case HarnessExecution => w.execution.Threw? && NamesClass(r.errorClass, w.execution.exn)
    case ExpectationComparison => w.comparisons.Threw? && NamesClass(r.errorClass, w.comparisons.exn)
    case ResultPersistence =>
      if w.persistence.Threw? then NamesClass(r.errorClass, w.persistence.exn) else r.errorClass == "ValidationError"
  }

  /** A record tells how far its case got and what stopped it. */
  ghost predicate CaseTold(w: World, r: Record) {
    && FactsTold(w, r.provenance)
    && (r.CompletedRecord? <==> Prepared(w) && w.execution.Done? && w.comparisons.Done? && w.comparisons.value != [] && w.persistence.Done?)
    && (r.CompletedRecord? ==>
          r.comparisons == w.comparisons.value && (r.overallMatch <==> forall i :: 0 <= i < |r.comparisons| ==> r.comparisons[i].matches))
    && (r.ErrorRecord? ==> FailsAt(w, r.stage) && ClassTold(w, r))
  }

  /** The facts gathered so far, still there when a step raises. */
  class Case {
    var known: Provenance

    constructor (path: string)
      ensures known == Provenance(path, None, None, None, None, None, None)
    {
      known := Provenance(path, None, None, None, None, None, None);
    }

    /** Preparation: one fact after another; Some(exn) is the step that raised. */
    method Prepare(w: World) returns (failure: Option<Scorer.Exn>)
      requires known == Provenance(w.sourceCasePath, None, None, None, None, None, None)
      modifies this
      ensures failure.None? <==> Prepared(w)
      ensures ValidPartial(known) && known.sourceCasePath == w.sourceCasePath
      ensures failure.None? ==> ValidComplete(known)
      ensures failure.Some? ==> failure.value in Exceptions(w)
      ensures FactsTold(w, known) && (failure.Some? ==> RaisedFirst(w, failure.value))
    {
      if w.sourceHash.Threw? { return Some(w.sourceHash.exn); }
      known := known.(caseSourceHash := Some(w.sourceHash.value));
      if w.caseFile.Threw? { return Some(w.caseFile.exn); }
      known := known.(caseId := Some(w.caseFile.value));
      if w.manifestPath.Threw? { return Some(w.manifestPath.exn); }
      known := known.(taskManifestPath := Some(w.manifestPath.value));
      if w.manifestHash.Threw? { return Some(w.manifestHash.exn); }
      known := known.(taskManifestHash := Some(w.manifestHash.value));
      if w.manifest.Threw? { return Some(w.manifest.exn); }
      known := known.(taskId := Some(w.manifest.value));
      if w.recordHash.Threw? { return Some(w.recordHash.exn); }
      known := known.(taskRecordHash := Some(w.recordHash.value));
      if w.script.Threw? { return Some(w.script.exn); }
      return None;
    }
  }

  function Exceptions(w: World): set<Scorer.Exn> {
    (if w.sourceHash.Threw? then {w.sourceHash.exn} else {}) + (if w.caseFile.Threw? then {w.caseFile.exn} else {})
    + (if w.manifestPath.Threw? then {w.manifestPath.exn} else {}) + (if w.manifestHash.Threw? then {w.manifestHash.exn} else {})
    + (if w.manifest.Threw? then {w.manifest.exn} else {}) + (if w.recordHash.Threw? then {w.recordHash.exn} else {})
    + (if w.script.Threw? then {w.script.exn} else {})
  }

  /** Exceptions have a class name. */
  predicate NamedExceptions(w: World) {
    && (forall e :: e in Exceptions(w) ==> ErrorClass(e) != "")
    && (w.execution.Threw? ==> ErrorClass(w.execution.exn) != "")
    && (w.comparisons.Threw? ==> ErrorClass(w.comparisons.exn) != "")
    && (w.persistence.Threw? ==> ErrorClass(w.persistence.exn) != "")
  }

  /** _run_typed_agent_task_audit_case: always exactly one record, and always a valid one. */
  method RunCase(w: World) returns (r: Record)
    requires NamedExceptions(w)
    ensures ValidRecord(r) && CaseTold(w, r)
    ensures r.CompletedRecord? <==> forall stage: Stage :: !FailsAt(w, stage)
  {
    var c := new Case(w.sourceCasePath);
    var failure := c.Prepare(w);
    if failure.Some? {
      assert FailsAt(w, CasePreparation);
      return ErrorRecord(c.known, CasePreparation, ErrorClass(failure.value));
    }
    if w.execution.Threw? {
      assert FailsAt(w, HarnessExecution);
      return ErrorRecord(c.known, HarnessExecution, ErrorClass(w.execution.exn));
    }
    if w.comparisons.Threw? {
      assert FailsAt(w, ExpectationComparison);
      return ErrorRecord(c.known, ExpectationComparison, ErrorClass(w.comparisons.exn));
    }
    if w.persistence.Threw? {
      assert FailsAt(w, ResultPersistence);
      return ErrorRecord(c.known, ResultPersistence, ErrorClass(w.persistence.exn));
    }
    if w.comparisons.value == [] {
      assert FailsAt(w, ResultPersistence);
      return ErrorRecord(c.known, ResultPersistence, "ValidationError");
    }
    return CompletedRecord(c.known, w.comparisons.value, AllMatch(w.comparisons.value));
  }

  // ---------------------------------------------------------------- the layer

  datatype Status = LayerPass | LayerFail | LayerInconclusive

  predicate HasMismatch(rs: seq<Record>) {
    exists i :: 0 <= i < |rs| && rs[i].CompletedRecord? && !rs[i].overallMatch
  }

  predicate HasError(rs: seq<Record>) {
    exists i :: 0 <= i < |rs| && rs[i].ErrorRecord?
  }

  /** derive_harness_audit_layer_status, on at least one record. */
  function StatusOfRecords(rs: seq<Record>): Status {
    if HasMismatch(rs) then LayerFail else if HasError(rs) then LayerInconclusive else LayerPass
  }

  /** derive_harness_audit_layer_status_from_counts. */
  function StatusOfCounts(mismatched: nat, errors: nat): Status {
    if mismatched > 0 then LayerFail else if errors > 0 then LayerInconclusive else LayerPass
  }

  /** derive_harness_audit_status. */
  function Join(a: Status, b: Status): Status {
    if LayerFail in {a, b} then LayerFail else if LayerInconclusive in {a, b} then LayerInconclusive else LayerPass
  }

  datatype Summary = Summary(status: Status, discoveredCaseCount: nat, recordCount: nat, completedCount: nat,
                             matchedCount: nat, mismatchedCount: nat, auditErrorCount: nat)

  function CountCompleted(rs: seq<Record>): nat {
    if |rs| == 0 then 0 else CountCompleted(rs[..|rs| - 1]) + (if rs[|rs| - 1].CompletedRecord? then 1 else 0)
  }

  function CountMatched(rs: seq<Record>): nat {
    if |rs| == 0 then 0
    else CountMatched(rs[..|rs| - 1]) + (if rs[|rs| - 1].CompletedRecord? && rs[|rs| - 1].overallMatch then 1 else 0)
  }

  function CountErrors(rs: seq<Record>): nat {
    if |rs| == 0 then 0 else CountErrors(rs[..|rs| - 1]) + (if rs[|rs| - 1].ErrorRecord? then 1 else 0)
  }

  /** HarnessAuditLayerSummary. */
  predicate ValidSummary(s: Summary) {
    && s.recordCount > 0 && s.recordCount == s.discoveredCaseCount
    && s.completedCount + s.auditErrorCount == s.recordCount
    && s.matchedCount + s.mismatchedCount == s.completedCount
    && s.status == StatusOfCounts(s.mismatchedCount, s.auditErrorCount)
  }

  lemma {:induction false} CountsSplit(rs: seq<Record>)
    ensures CountCompleted(rs) + CountErrors(rs) == |rs| && CountMatched(rs) <= CountCompleted(rs)
    ensures CountMatched(rs) < CountCompleted(rs) <==> HasMismatch(rs)
    ensures CountErrors(rs) > 0 <==> HasError(rs)
  {
    if |rs| > 0 {
      var n := |rs| - 1;
      CountsSplit(rs[..n]);
      assert HasMismatch(rs) <==> HasMismatch(rs[..n]) || (rs[n].CompletedRecord? && !rs[n].overallMatch) by {
        if HasMismatch(rs[..n]) {
          var i :| 0 <= i < n && rs[..n][i].CompletedRecord? && !rs[..n][i].overallMatch;
          assert rs[i].CompletedRecord? && !rs[i].overallMatch;
        }
        if HasMismatch(rs) {
          var i :| 0 <= i < |rs| && rs[i].CompletedRecord? && !rs[i].overallMatch;
          assert i < n ==> rs[..n][i] == rs[i];
        }
      }
      assert HasError(rs) <==> HasError(rs[..n]) || rs[n].ErrorRecord? by {
        if HasError(rs[..n]) {
          var i :| 0 <= i < n && rs[..n][i].ErrorRecord?;
          assert rs[i].ErrorRecord?;
        }
        if HasError(rs) {
          var i :| 0 <= i < |rs| && rs[i].ErrorRecord?;
          assert i < n ==> rs[..n][i] == rs[i];
        }
      }
    }
  }

  /** Run every discovered case and summarise: one record per case, in order, and a summary that validates. */
  method RunLayer(cases: seq<World>) returns (rs: seq<Record>, s: Summary)
    requires |cases| > 0 && forall i :: 0 <= i < |cases| ==> NamedExceptions(cases[i])
    ensures |rs| == |cases| && forall i :: 0 <= i < |rs| ==> ValidRecord(rs[i]) && CaseTold(cases[i], rs[i])
    ensures ValidSummary(s) && s.status == StatusOfRecords(rs) && s.recordCount == |rs|
    ensures s.completedCount == CountCompleted(rs) && s.matchedCount == CountMatched(rs) && s.auditErrorCount == CountErrors(rs)
  {
    rs := [];
    for i := 0 to |cases|
      invariant |rs| == i
      invariant forall k :: 0 <= k < i ==> ValidRecord(rs[k]) && CaseTold(cases[k], rs[k])
    {
      var r := RunCase(cases[i]);
      rs := rs + [r];
    }
    CountsSplit(rs);
    s := Summary(StatusOfRecords(rs), |cases|, |rs|, CountCompleted(rs), CountMatched(rs), CountCompleted(rs) - CountMatched(rs), CountErrors(rs));
  }

  /** A layer passes when every case completed and matched, and fails when a completed one did not match. */
  lemma LayerStatusIff(rs: seq<Record>)
    ensures StatusOfRecords(rs) == LayerPass <==> forall i :: 0 <= i < |rs| ==> rs[i].CompletedRecord? && rs[i].overallMatch
    ensures StatusOfRecords(rs) == LayerFail <==> exists i :: 0 <= i < |rs| && rs[i].CompletedRecord? && !rs[i].overallMatch
  {
  }

  /** The status read off the records is the one computed from their counts. */
  lemma RecordStatusIsCountStatus(rs: seq<Record>)
    ensures CountMatched(rs) <= CountCompleted(rs)
    ensures StatusOfRecords(rs) == StatusOfCounts(CountCompleted(rs) - CountMatched(rs), CountErrors(rs))
  {
    CountsSplit(rs);
  }

  /** Joining the statuses of two layers is the status of all their records together. */
  lemma JoinIsStatusOfConcat(a: seq<Record>, b: seq<Record>)
    ensures Join(StatusOfRecords(a), StatusOfRecords(b)) == StatusOfRecords(a + b)
  {
    assert HasMismatch(a + b) <==> HasMismatch(a) || HasMismatch(b) by {
      if HasMismatch(a) {
        var i :| 0 <= i < |a| && a[i].CompletedRecord? && !a[i].overallMatch;
        assert (a + b)[i] == a[i];
      }
      if HasMismatch(b) {
        var i :| 0 <= i < |b| && b[i].CompletedRecord? && !b[i].overallMatch;
        assert (a + b)[|a| + i] == b[i];
      }
    }
    assert HasError(a + b) <==> HasError(a) || HasError(b) by {
      if HasError(a) {
        var i :| 0 <= i < |a| && a[i].ErrorRecord?;
        assert (a + b)[i] == a[i];
      }
      if HasError(b) {
        var i :| 0 <= i < |b| && b[i].ErrorRecord?;
        assert (a + b)[|a| + i] == b[i];
      }
    }
  }
}
