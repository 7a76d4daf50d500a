/**
 Replaying a finished run: every source attempt is executed again and compared, and whatever happens there is a
 verdict with a result record, comparison records and a manifest that validate.
 */
module ReplayVerdict {
  import opened Wrappers
  import opened AgentAttempt
  import Scorer = ScorerAttempt
  import opened ReplayNormalForm
  import ArtifactRefs

  /** The normal form in which two artifacts are compared. */
  type Normaliser = Content -> Json

  datatype Status = ReplayPass | Mismatch | ReplayError

  // ---------------------------------------------------------------- comparisons

  /** Where the compared attempt lives: below an eval run, or the replayed source itself. */
  datatype Place = InEvalRun(artifactDir: string) | WholeSource

  /** str(source_artifact_dir.relative_to(source_run_dir)). */
  function SourceRef(p: Place): string {
    match p case InEvalRun(dir) => dir case WholeSource => "."
  }

  /** Path(ref).name: the last component. */
  function BaseName(ref: string): string {
    var parts := ArtifactRefs.PathParts(ref);
    if |parts| == 0 then "" else parts[|parts| - 1]
  }

  /** Replays of a run's attempts are kept side by side under their directories' names. */
  function ReplayRef(p: Place): string {
    match p case InEvalRun(dir) => "attempts" + "/" + BaseName(dir) case WholeSource => "agent_task_run"
  }

  datatype Comparison =
    | ScorerComparison(evalAttemptId: string, taskId: string, sourceId: string, replayedId: string, place: Place,
                       fieldMatches: map<string, bool>, scorerArtifacts: map<ScorerFile, bool>)
    | AgentComparison(sourceEvalAttemptId: Option<string>, taskId: string, sourceId: string, replayedId: string, place: Place,
                      fieldMatches: map<string, bool>, agentArtifacts: map<Slot, bool>)

  predicate AllTrue<K>(m: map<K, bool>) {
    forall k :: k in m ==> m[k]
  }

  predicate Matched(c: Comparison) {
    && AllTrue(c.fieldMatches)
    && match c
       case ScorerComparison(_, _, _, _, _, _, artifacts) => AllTrue(artifacts)
       case AgentComparison(_, _, _, _, _, _, artifacts) => AllTrue(artifacts)
  }

  const SCORER_FIELDS := {"status", "public_status", "hidden_status", "error_class", "final_diff_hash"}
  const AGENT_FIELDS := {"status", "prompt_loop_status", "attempt_status", "candidate_patch_hash", "error_class", "error_message"}
  const SCORER_FILES := {AttemptJson, Stdout, Stderr, ScorerError, ScorerTrace, FinalDiff, ScorerManifest}
  const AGENT_REQUIRED := {FinalManifest, RunJson, ErrorTxt, DecodingJson, ControlScriptJson}

  function NestedSlots(): set<Slot> {
    set f | f in SCORER_FILES :: Nested(f)
  }

  function AgentAllowed(): set<Slot> {
    AGENT_REQUIRED + {ViewJson, LoopJson, ModelJson, CandidatePatch} + NestedSlots()
  }

  /** ReplayComparisonRecord: accepted references, complete evidence, and nothing that is not evidence. */
  predicate ValidComparison(c: Comparison, isAlpha: char -> bool) {
    && (SourceRef(c.place) == "." || ArtifactRefs.Accepted(SourceRef(c.place), isAlpha))
    && ArtifactRefs.Accepted(ReplayRef(c.place), isAlpha)
    && match c
       case ScorerComparison(_, _, _, _, _, fields, artifacts) => fields.Keys == SCORER_FIELDS && artifacts.Keys == SCORER_FILES
       case AgentComparison(_, _, _, _, _, fields, artifacts) =>
         fields.Keys == AGENT_FIELDS && AGENT_REQUIRED <= artifacts.Keys <= AgentAllowed()
  }

  /** The replay of an attempt in an accepted directory gets an accepted directory. */
  lemma ReplayRefIsAccepted(p: Place, isAlpha: char -> bool)
    requires p.InEvalRun? ==> ArtifactRefs.Accepted(p.artifactDir, isAlpha)
    ensures ArtifactRefs.Accepted(ReplayRef(p), isAlpha)
  {
    if p.InEvalRun? {
      ArtifactRefs.AcceptedParts(p.artifactDir, isAlpha);
      var parts := [BaseName(p.artifactDir)];
      AttemptsDirIsPlain();
      ArtifactRefs.OrdinaryBelow("attempts", parts, isAlpha);
    } else {
      AgentDirIsPlain();
      ArtifactRefs.PlainFileIsAccepted("agent_task_run", isAlpha);
    }
  }

  lemma AttemptsDirIsPlain()
    ensures ArtifactRefs.Ordinary("attempts") && "attempts"[1] != ':'
  {
  }

  lemma AgentDirIsPlain()
    ensures ArtifactRefs.Ordinary("agent_task_run") && "agent_task_run"[1] != ':'
  {
  }

  /** What replaying one attempt produced: an exception, or a source and a replay to compare. */
  datatype Replayed =
    | Raised
    | ScorerReplayed(evalAttemptId: string, source: Scorer.AttemptResult, replay: Scorer.AttemptResult,
                     place: Place, sourceFiles: map<ScorerFile, Content>, replayFiles: map<ScorerFile, Content>)
    | AgentReplayed(sourceEvalAttemptId: Option<string>, manifest: AttemptRecord, sourceRun: RunResult, replayRun: RunResult,
                    place: Place, sourceDir: Dir, replayDir: Dir)

  function ScorerFieldMatches(a: Scorer.AttemptResult, b: Scorer.AttemptResult): (m: map<string, bool>)
    ensures m.Keys == SCORER_FIELDS
  {
    map["status" := a.status == b.status, "public_status" := a.publicStatus == b.publicStatus,
        "hidden_status" := a.hiddenStatus == b.hiddenStatus, "error_class" := a.errorClass == b.errorClass,
        "final_diff_hash" := a.finalDiffHash == b.finalDiffHash]
  }

  function StatusOf(r: RunResult): Option<Scorer.AttemptStatus> {
    if r.attemptResult.Some? then Some(r.attemptResult.value.status) else None
  }

  function AgentFieldMatches(a: RunResult, b: RunResult): (m: map<string, bool>)
    ensures m.Keys == AGENT_FIELDS
  {
    map["status" := a.status == b.status, "prompt_loop_status" := a.promptLoopStatus == b.promptLoopStatus,
        "attempt_status" := StatusOf(a) == StatusOf(b), "candidate_patch_hash" := a.candidatePatchHash == b.candidatePatchHash,
        "error_class" := a.errorClass == b.errorClass, "error_message" := a.errorMessage == b.errorMessage]
  }

  /** The files a source manifest offers for comparison; the scorer folder stands for the files in it. */
  function AgentRefs(m: AttemptRecord): set<Slot> {
    {FinalManifest}
    + (set name | name in m.artifacts && name != NAttempt :: m.artifacts[name])
    + (if NAttempt in m.artifacts then NestedSlots() else {})
  }

  /** Both files exist and have the same normal form. */
  predicate SameArtifact<K>(source: map<K, Content>, replay: map<K, Content>, normal: Normaliser, ref: K) {
    && ref in source && !source[ref].Folder? && ref in replay && !replay[ref].Folder?
    && normal(source[ref]) == normal(replay[ref])
  }

  method CompareArtifacts<K(==)>(source: map<K, Content>, replay: map<K, Content>, normal: Normaliser, refs: set<K>)
    returns (matches: map<K, bool>)
    ensures matches == map ref | ref in refs :: SameArtifact(source, replay, normal, ref)
  {
    matches := map[];
    var left := refs;
    while left != {}
      invariant left <= refs
      invariant matches == map ref | ref in refs - left :: SameArtifact(source, replay, normal, ref)
    {
      var ref :| ref in left;
      if ref !in source || source[ref].Folder? || ref !in replay || replay[ref].Folder? {
        matches := matches[ref := false];
      } else {
        matches := matches[ref := normal(source[ref]) == normal(replay[ref])];
      }
      left := left - {ref};
      assert refs - left == (refs - (left + {ref})) + {ref};
    }
  }

  /** A replay needs the script and the decoding record of its source. */
  predicate Comparable(r: Replayed) {
    match r
    case Raised => false
    case ScorerReplayed(_, _, _, _, _, _) => true
    case AgentReplayed(_, m, _, _, _, _, _) => NControlScript in m.artifacts && NDecoding in m.artifacts
  }

  function ComparisonOf(r: Replayed, normal: Normaliser): Comparison
    requires Comparable(r)
  {
    match r
    case ScorerReplayed(id, source, replay, place, sourceFiles, replayFiles) =>
      ScorerComparison(id, source.identity.taskId, source.identity.scorerAttemptId, replay.identity.scorerAttemptId, place,
                       ScorerFieldMatches(source, replay),
                       map f | f in SCORER_FILES :: SameArtifact(sourceFiles, replayFiles, normal, f))
    case AgentReplayed(id, m, source, replay, place, sourceDir, replayDir) =>
      AgentComparison(id, source.taskId, source.agentAttemptId, replay.agentAttemptId, place,
                      AgentFieldMatches(source, replay),
                      map s | s in AgentRefs(m) :: SameArtifact(sourceDir, replayDir, normal, s))
  }

  function PlaceOf(r: Replayed): Place
    requires !r.Raised?
  {
    match r case ScorerReplayed(_, _, _, place, _, _) => place case AgentReplayed(_, _, _, _, place, _, _) => place
  }

  /** Manifests that validated: the attempt's own, and the one its directory reference was read from. */
  predicate LoadedSource(r: Replayed, isAlpha: char -> bool) {
    && (r.AgentReplayed? ==> ValidAttemptRecord(r.manifest))
    && (!r.Raised? && PlaceOf(r).InEvalRun? ==> ArtifactRefs.Accepted(PlaceOf(r).artifactDir, isAlpha))
  }

  lemma ScorerComparisonIsValid(r: Replayed, normal: Normaliser, isAlpha: char -> bool)
    requires r.ScorerReplayed? && LoadedSource(r, isAlpha)
    ensures ValidComparison(ComparisonOf(r, normal), isAlpha)
  {
    ReplayRefIsAccepted(PlaceOf(r), isAlpha);
  }

  lemma AgentComparisonIsValid(r: Replayed, normal: Normaliser, isAlpha: char -> bool)
    requires r.AgentReplayed? && Comparable(r) && LoadedSource(r, isAlpha)
    requires AGENT_REQUIRED <= AgentRefs(r.manifest) <= AgentAllowed()
    ensures ValidComparison(ComparisonOf(r, normal), isAlpha)
  {
    ReplayRefIsAccepted(PlaceOf(r), isAlpha);
    assert ComparisonOf(r, normal).agentArtifacts.Keys == AgentRefs(r.manifest);
  }

  lemma ComparisonIsValid(r: Replayed, normal: Normaliser, isAlpha: char -> bool)
    requires Comparable(r) && LoadedSource(r, isAlpha)
    ensures ValidComparison(ComparisonOf(r, normal), isAlpha)
  {
    if r.AgentReplayed? {
      RefsAreEvidence(r.manifest);
      AgentComparisonIsValid(r, normal, isAlpha);
    } else {
      ScorerComparisonIsValid(r, normal, isAlpha);
    }
  }

  /** With a control script there is no generation manifest, so every named file is admitted evidence. */
  lemma RefsAreEvidence(m: AttemptRecord)
    requires ValidAttemptRecord(m) && NControlScript in m.artifacts && NDecoding in m.artifacts
    ensures AGENT_REQUIRED <= AgentRefs(m) <= AgentAllowed()
  {
    assert NRun in m.artifacts && NError in m.artifacts && NGeneration !in m.artifacts;
    assert m.artifacts[NRun] == RunJson && m.artifacts[NError] == ErrorTxt;
    assert m.artifacts[NDecoding] == DecodingJson && m.artifacts[NControlScript] == ControlScriptJson;
    forall s | s in AgentRefs(m) ensures s in AgentAllowed() {
      if s != FinalManifest && s !in NestedSlots() {
        var name :| name in m.artifacts && name != NAttempt && m.artifacts[name] == s;
        assert s == RefOf(name);
      }
    }
  }

  // ---------------------------------------------------------------- the run

  datatype Source =
    | Unloadable
    | EvalRunSource(evalRunId: string, attempts: seq<Replayed>)
    | AgentAttemptSource(agentAttemptId: string, attempt: Replayed)

  datatype ReplayRun = ReplayRun(replayRunId: string, status: Status, comparisons: seq<Comparison>)

  function SourceAttempts(source: Source): seq<Replayed> {
    match source
    case Unloadable => []
    case EvalRunSource(_, attempts) => attempts
    case AgentAttemptSource(_, attempt) => [attempt]
  }

  predicate AllComparable(rs: seq<Replayed>) {
    forall i :: 0 <= i < |rs| ==> Comparable(rs[i])
  }

  function Comparisons(rs: seq<Replayed>, normal: Normaliser): seq<Comparison>
    requires AllComparable(rs)
  {
    seq(|rs|, i requires 0 <= i < |rs| => ComparisonOf(rs[i], normal))
  }

  predicate AllMatched(cs: seq<Comparison>) {
    forall i :: 0 <= i < |cs| ==> Matched(cs[i])
  }

  datatype Event = Started | SourceLoaded | ComparisonRecorded(matched: bool) | Failed | Finished(status: Status, matchedAttempts: nat)

  class Session {
    var trace: seq<Event>
    var comparisons: seq<Comparison>

    constructor ()
      ensures trace == [] && comparisons == []
    {
      trace, comparisons := [], [];
    }

    /** One attempt again; false stands for any exception on the way. */
    method ReplayAttempt(r: Replayed, normal: Normaliser) returns (ok: bool)
      modifies this
      ensures ok <==> Comparable(r)
      ensures ok ==> comparisons == old(comparisons) + [ComparisonOf(r, normal)]
      ensures ok ==> trace == old(trace) + [ComparisonRecorded(Matched(ComparisonOf(r, normal)))]
      ensures !ok ==> comparisons == old(comparisons) && trace == old(trace)
    {
      match r {
        case Raised => return false;
        case ScorerReplayed(id, source, replay, place, sourceFiles, replayFiles) =>
          var artifacts := CompareArtifacts(sourceFiles, replayFiles, normal, SCORER_FILES);
          var c := ScorerComparison(id, source.identity.taskId, source.identity.scorerAttemptId, replay.identity.scorerAttemptId, place,
                                    ScorerFieldMatches(source, replay), artifacts);
          comparisons, trace := comparisons + [c], trace + [ComparisonRecorded(Matched(c))];
        case AgentReplayed(id, m, source, replay, place, sourceDir, replayDir) =>
          if NControlScript !in m.artifacts || NDecoding !in m.artifacts {
            return false;
          }
          var artifacts := CompareArtifacts(sourceDir, replayDir, normal, AgentRefs(m));
          var c := AgentComparison(id, source.taskId, source.agentAttemptId, replay.agentAttemptId, place,
                                   AgentFieldMatches(source, replay), artifacts);
          comparisons, trace := comparisons + [c], trace + [ComparisonRecorded(Matched(c))];
      }
      return true;
    }

    /** All attempts of the source in order, until one raises. */
    method ReplayAttempts(rs: seq<Replayed>, normal: Normaliser) returns (ok: bool)
      requires comparisons == []
      modifies this
      ensures ok <==> AllComparable(rs)
      ensures ok ==> comparisons == Comparisons(rs, normal)
    {
      for i := 0 to |rs|
        invariant AllComparable(rs[..i]) && comparisons == Comparisons(rs[..i], normal)
      {
        ok := ReplayAttempt(rs[i], normal);
        if !ok {
          return;
        }
        assert rs[..i + 1] == rs[..i] + [rs[i]];
      }
      assert rs[..|rs|] == rs;
      ok := true;
    }

    /** run_replay: no comparisons, or an exception anywhere, is a replay error with no comparisons left. */
    method Run(replayRunId: string, source: Source, normal: Normaliser) returns (run: ReplayRun)
      requires trace == [] && comparisons == []
      modifies this
      ensures run == Verdict(replayRunId, source, normal)
      ensures |trace| > 0 && trace[|trace| - 1] == Finished(run.status, CountMatched(run.comparisons))
    {
      trace := trace + [Started];
      var ok := false;
      if !source.Unloadable? {
        trace := trace + [SourceLoaded];
        ok := ReplayAttempts(SourceAttempts(source), normal);
      }
      if ok && comparisons != [] {
        run := ReplayRun(replayRunId, if AllMatched(comparisons) then ReplayPass else Mismatch, comparisons);
      } else {
        trace := trace + [Failed];
        run := ReplayRun(replayRunId, ReplayError, []);
      }
      trace := trace + [Finished(run.status, CountMatched(run.comparisons))];
    }
  }

  function Verdict(replayRunId: string, source: Source, normal: Normaliser): ReplayRun {
    var rs := SourceAttempts(source);
    if rs == [] || !AllComparable(rs) then ReplayRun(replayRunId, ReplayError, [])
    else
      var cs := Comparisons(rs, normal);
      ReplayRun(replayRunId, if AllMatched(cs) then ReplayPass else Mismatch, cs)
  }

  function CountMatched(cs: seq<Comparison>): nat {
    if |cs| == 0 then 0 else CountMatched(cs[..|cs| - 1]) + (if Matched(cs[|cs| - 1]) then 1 else 0)
  }

  // ---------------------------------------------------------------- the records

  datatype ResultRecord = ResultRecord(replayRunId: string, status: Status, attemptCount: nat, matchedAttempts: nat, mismatchedAttempts: int, errorCount: nat)

  function ResultOf(run: ReplayRun): ResultRecord {
    var matched := CountMatched(run.comparisons);
    ResultRecord(run.replayRunId, run.status, |run.comparisons|, matched, |run.comparisons| - matched,
                 if run.status.ReplayError? then 1 else 0)
  }

  predicate StatusFitsCounts(status: Status, attempts: nat, mismatched: int, errors: nat) {
    match status
    case ReplayPass => attempts != 0 && mismatched == 0 && errors == 0
    case Mismatch => mismatched != 0 && errors == 0
    case ReplayError => errors != 0
  }

  /** ReplayResult. */
  predicate ValidResult(r: ResultRecord) {
    && r.mismatchedAttempts >= 0 && r.matchedAttempts + r.mismatchedAttempts == r.attemptCount
    && StatusFitsCounts(r.status, r.attemptCount, r.mismatchedAttempts, r.errorCount)
  }

  datatype SourceKind = EvalRunKind | AgentAttemptKind
  datatype ReplayName = NReplayResult | NReplayResults | NTrace | NAttempts | NAgentTaskRun

  datatype ManifestRecord = ManifestRecord(
    replayRunId: string, sourceKind: Option<SourceKind>, sourceEvalRunId: Option<string>, sourceAgentAttemptId: Option<string>,
    artifacts: set<ReplayName>)

  function ManifestOf(run: ReplayRun, source: Source): ManifestRecord {
    var always := {NReplayResult, NReplayResults, NTrace};
    ManifestRecord(
      run.replayRunId,
      match source case Unloadable => None case EvalRunSource(_, _) => Some(EvalRunKind) case AgentAttemptSource(_, _) => Some(AgentAttemptKind),
      if source.EvalRunSource? then Some(source.evalRunId) else None,
      if source.AgentAttemptSource? then Some(source.agentAttemptId) else None,
      if source.EvalRunSource? then always + {NAttempts}
      else if exists i :: 0 <= i < |run.comparisons| && run.comparisons[i].AgentComparison? then always + {NAgentTaskRun}
      else always)
  }

  /** ReplayRunManifest. */
  predicate ValidManifest(m: ManifestRecord) {
    && {NReplayResult, NReplayResults, NTrace} <= m.artifacts
    && match m.sourceKind
       case None => m.sourceEvalRunId.None? && m.sourceAgentAttemptId.None? && NAttempts !in m.artifacts && NAgentTaskRun !in m.artifacts
       case Some(EvalRunKind) =>
         m.sourceEvalRunId.Some? && m.sourceAgentAttemptId.None? && NAttempts in m.artifacts && NAgentTaskRun !in m.artifacts
       case Some(AgentAttemptKind) => m.sourceAgentAttemptId.Some? && m.sourceEvalRunId.None? && NAttempts !in m.artifacts
  }

  // ---------------------------------------------------------------- what every verdict satisfies

  lemma {:induction false} MatchedCount(cs: seq<Comparison>)
    ensures CountMatched(cs) <= |cs|
    ensures CountMatched(cs) == |cs| <==> AllMatched(cs)
  {
    if |cs| > 0 {
      MatchedCount(cs[..|cs| - 1]);
    }
  }

  /** A source as the loader hands it on: whatever manifest it has validated. */
  predicate LoadedAll(source: Source, isAlpha: char -> bool) {
    forall i :: 0 <= i < |SourceAttempts(source)| ==> LoadedSource(SourceAttempts(source)[i], isAlpha)
  }

  /** Whatever happens, including an exception at any attempt, the records written afterwards validate. */
  lemma VerdictIsValid(replayRunId: string, source: Source, normal: Normaliser, isAlpha: char -> bool)
    requires LoadedAll(source, isAlpha)
    ensures var run := Verdict(replayRunId, source, normal);
      && ValidResult(ResultOf(run)) && ValidManifest(ManifestOf(run, source))
      && forall i :: 0 <= i < |run.comparisons| ==> ValidComparison(run.comparisons[i], isAlpha)
  {
    VerdictRecordsAreValid(replayRunId, source, normal);
    ComparisonsAreValid(SourceAttempts(source), normal, isAlpha);
  }

  lemma VerdictRecordsAreValid(replayRunId: string, source: Source, normal: Normaliser)
    ensures var run := Verdict(replayRunId, source, normal); ValidResult(ResultOf(run)) && ValidManifest(ManifestOf(run, source))
  {
    MatchedCount(Verdict(replayRunId, source, normal).comparisons);
  }

  lemma ComparisonsAreValid(rs: seq<Replayed>, normal: Normaliser, isAlpha: char -> bool)
    requires forall i :: 0 <= i < |rs| ==> LoadedSource(rs[i], isAlpha)
    ensures AllComparable(rs) ==> forall i :: 0 <= i < |rs| ==> ValidComparison(Comparisons(rs, normal)[i], isAlpha)
  {
    if AllComparable(rs) {
      forall i | 0 <= i < |rs| ensures ValidComparison(Comparisons(rs, normal)[i], isAlpha) {
        ComparisonIsValid(rs[i], normal, isAlpha);
      }
    }
  }

  /** PASS says: something was compared, everything could be, and every field and every file agreed. */
  lemma PassIffEverythingAgrees(replayRunId: string, source: Source, normal: Normaliser)
    ensures Verdict(replayRunId, source, normal).status == ReplayPass <==>
      var rs := SourceAttempts(source);
      rs != [] && AllComparable(rs) && forall i :: 0 <= i < |rs| ==> Matched(ComparisonOf(rs[i], normal))
  {
    var rs := SourceAttempts(source);
    if rs != [] && AllComparable(rs) {
      assert forall i :: 0 <= i < |rs| ==> Comparisons(rs, normal)[i] == ComparisonOf(rs[i], normal);
    }
  }

  /** A non-error replay compares every source attempt exactly once, in order; an error compares none. */
  lemma OneComparisonPerAttempt(replayRunId: string, source: Source, normal: Normaliser)
    ensures var run, rs := Verdict(replayRunId, source, normal), SourceAttempts(source);
      if run.status.ReplayError? then run.comparisons == [] && (rs == [] || exists i :: 0 <= i < |rs| && !Comparable(rs[i]))
      else |run.comparisons| == |rs| && forall i :: 0 <= i < |rs| ==> Comparable(rs[i]) && run.comparisons[i] == ComparisonOf(rs[i], normal)
  {
  }
}
