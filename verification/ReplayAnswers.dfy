/**
 What a replay's verdict means, told field by field and file by file, and what a comparison of JSON values can and
 cannot see.
 */
module ReplayAnswers {
  import opened Wrappers
  import opened AgentAttempt
  import opened ReplayNormalForm
  import opened ReplayVerdict
  import Scorer = ScorerAttempt

  // ---------------------------------------------------------------- when a replay agrees with its source

  predicate ScorerFieldsAgree(a: Scorer.AttemptResult, b: Scorer.AttemptResult) {
    && a.status == b.status && a.publicStatus == b.publicStatus && a.hiddenStatus == b.hiddenStatus
    && a.errorClass == b.errorClass && a.finalDiffHash == b.finalDiffHash
  }

  predicate SameAttemptStatus(a: Option<Scorer.AttemptResult>, b: Option<Scorer.AttemptResult>) {
    (a.Some? <==> b.Some?) && (a.Some? && b.Some? ==> a.value.status == b.value.status)
  }

  predicate AgentFieldsAgree(a: RunResult, b: RunResult) {
    && a.status == b.status && a.promptLoopStatus == b.promptLoopStatus && SameAttemptStatus(a.attemptResult, b.attemptResult)
    && a.candidatePatchHash == b.candidatePatchHash && a.errorClass == b.errorClass && a.errorMessage == b.errorMessage
  }

  /** A file on both sides, and the two read the same once normalised. */
  predicate FileAgrees<K>(source: map<K, Content>, replay: map<K, Content>, normal: Normaliser, file: K) {
    && file in source && !source[file].Folder?
    && file in replay && !replay[file].Folder?
    && normal(source[file]) == normal(replay[file])
  }

  /** The final manifest, every file the source's manifest names, and for its scorer folder each of the scorer's files. */
  predicate IsCompared(m: AttemptRecord, s: Slot) {
    || s == FinalManifest
    || (exists name :: name in m.artifacts && name != NAttempt && m.artifacts[name] == s)
    || (NAttempt in m.artifacts && s.Nested?)
  }

  ghost predicate Agrees(r: Replayed, normal: Normaliser) {
    match r
    case Raised => false
    case ScorerReplayed(_, source, replay, _, sourceFiles, replayFiles) =>
      ScorerFieldsAgree(source, replay) && forall f :: FileAgrees(sourceFiles, replayFiles, normal, f)
    case AgentReplayed(_, m, source, replay, _, sourceDir, replayDir) =>
      AgentFieldsAgree(source, replay) && forall s :: IsCompared(m, s) ==> FileAgrees(sourceDir, replayDir, normal, s)
  }

  /** Nothing was raised, and an agent attempt left the script and the decoding record a replay needs. */
  predicate Replayable(r: Replayed) {
    && !r.Raised?
    && (r.AgentReplayed? ==> NControlScript in r.manifest.artifacts && NDecoding in r.manifest.artifacts)
  }

  lemma EveryScorerFile(f: ScorerFile)
    ensures f in SCORER_FILES
  {
  }

  lemma ComparedIsListed(m: AttemptRecord, s: Slot)
    ensures s in AgentRefs(m) <==> IsCompared(m, s)
  {
    if s.Nested? {
      EveryScorerFile(s.file);
      assert s in NestedSlots();
    }
  }

  lemma MatchedIffAgrees(r: Replayed, normal: Normaliser)
    requires Replayable(r)
    ensures Comparable(r) && (Matched(ComparisonOf(r, normal)) <==> Agrees(r, normal))
  {
    var c := ComparisonOf(r, normal);
    match r
    case ScorerReplayed(_, source, replay, _, sourceFiles, replayFiles) =>
      ScorerFieldsDecide(source, replay);
      forall f ensures f in c.scorerArtifacts && (c.scorerArtifacts[f] <==> FileAgrees(sourceFiles, replayFiles, normal, f)) {
        EveryScorerFile(f);
      }
    case AgentReplayed(_, m, source, replay, _, sourceDir, replayDir) =>
      AgentFieldsDecide(source, replay);
      forall s
        ensures s in c.agentArtifacts <==> IsCompared(m, s)
        ensures s in c.agentArtifacts ==> (c.agentArtifacts[s] <==> FileAgrees(sourceDir, replayDir, normal, s))
      {
        ComparedIsListed(m, s);
      }
  }

  lemma ScorerFieldsDecide(a: Scorer.AttemptResult, b: Scorer.AttemptResult)
    ensures AllTrue(ScorerFieldMatches(a, b)) <==> ScorerFieldsAgree(a, b)
  {
    var m := ScorerFieldMatches(a, b);
    assert AllTrue(m) <==> m["status"] && m["public_status"] && m["hidden_status"] && m["error_class"] && m["final_diff_hash"];
  }

  lemma AgentFieldsDecide(a: RunResult, b: RunResult)
    ensures AllTrue(AgentFieldMatches(a, b)) <==> AgentFieldsAgree(a, b)
  {
    var m := AgentFieldMatches(a, b);
    assert AllTrue(m) <==>
      && m["status"] && m["prompt_loop_status"] && m["attempt_status"] && m["candidate_patch_hash"]
      && m["error_class"] && m["error_message"];
  }

  predicate Tells(m: map<string, bool>, field: string, same: bool) {
    field in m && m[field] == same
  }

  /** A comparison's record says of every field and every file whether it agrees, and names the two attempts. */
  lemma ComparisonTells(r: Replayed, normal: Normaliser)
    requires Replayable(r) && Comparable(r)
    ensures var c := ComparisonOf(r, normal);
      match r
      case ScorerReplayed(id, source, replay, place, sourceFiles, replayFiles) =>
        && c.ScorerComparison? && c.evalAttemptId == id && c.taskId == source.identity.taskId && c.place == place
        && c.sourceId == source.identity.scorerAttemptId && c.replayedId == replay.identity.scorerAttemptId
        && Tells(c.fieldMatches, "status", source.status == replay.status)
        && Tells(c.fieldMatches, "public_status", source.publicStatus == replay.publicStatus)
        && Tells(c.fieldMatches, "hidden_status", source.hiddenStatus == replay.hiddenStatus)
        && Tells(c.fieldMatches, "error_class", source.errorClass == replay.errorClass)
        && Tells(c.fieldMatches, "final_diff_hash", source.finalDiffHash == replay.finalDiffHash)
        && forall f :: f in c.scorerArtifacts && (c.scorerArtifacts[f] <==> FileAgrees(sourceFiles, replayFiles, normal, f))
      case AgentReplayed(id, m, source, replay, place, sourceDir, replayDir) =>
        && c.AgentComparison? && c.sourceEvalAttemptId == id && c.taskId == source.taskId && c.place == place
        && c.sourceId == source.agentAttemptId && c.replayedId == replay.agentAttemptId
        && Tells(c.fieldMatches, "status", source.status == replay.status)
        && Tells(c.fieldMatches, "prompt_loop_status", source.promptLoopStatus == replay.promptLoopStatus)
        && Tells(c.fieldMatches, "attempt_status", SameAttemptStatus(source.attemptResult, replay.attemptResult))
        && Tells(c.fieldMatches, "candidate_patch_hash", source.candidatePatchHash == replay.candidatePatchHash)
        && Tells(c.fieldMatches, "error_class", source.errorClass == replay.errorClass)
        && Tells(c.fieldMatches, "error_message", source.errorMessage == replay.errorMessage)
        && (forall s :: s in c.agentArtifacts <==> IsCompared(m, s))
        && forall s :: s in c.agentArtifacts ==> (c.agentArtifacts[s] <==> FileAgrees(sourceDir, replayDir, normal, s))
  {
    match r
    case ScorerReplayed(_, _, _, _, _, _) =>
      forall f: ScorerFile ensures f in SCORER_FILES {
        EveryScorerFile(f);
      }
    case AgentReplayed(_, m, _, _, _, _, _) =>
      forall s ensures s in AgentRefs(m) <==> IsCompared(m, s) {
        ComparedIsListed(m, s);
      }
  }

  // ---------------------------------------------------------------- the verdict

  ghost predicate AllAgree(rs: seq<Replayed>, normal: Normaliser) {
    forall i :: 0 <= i < |rs| ==> Agrees(rs[i], normal)
  }

  predicate AllReplayable(rs: seq<Replayed>) {
    forall i :: 0 <= i < |rs| ==> Replayable(rs[i])
  }

  lemma ReplayableIsComparable(rs: seq<Replayed>)
    ensures AllReplayable(rs) <==> AllComparable(rs)
  {
    if AllComparable(rs) {
      forall i | 0 <= i < |rs| ensures Replayable(rs[i]) {
        assert Comparable(rs[i]);
      }
    }
    if AllReplayable(rs) {
      forall i | 0 <= i < |rs| ensures Comparable(rs[i]) {
        assert Replayable(rs[i]);
      }
    }
  }

  lemma AllMatchedIffAllAgree(rs: seq<Replayed>, normal: Normaliser)
    requires AllReplayable(rs) && AllComparable(rs)
    ensures AllMatched(Comparisons(rs, normal)) <==> AllAgree(rs, normal)
  {
    var cs := Comparisons(rs, normal);
    forall i | 0 <= i < |rs| ensures Matched(cs[i]) <==> Agrees(rs[i], normal) {
      MatchedIffAgrees(rs[i], normal);
    }
  }

  /** A replay passes when there is something to replay, all of it can be, and every field and file of it agrees. */
  lemma VerdictIff(replayRunId: string, source: Source, normal: Normaliser)
    ensures var status, rs := Verdict(replayRunId, source, normal).status, SourceAttempts(source);
      && (status == ReplayPass <==> rs != [] && AllReplayable(rs) && AllAgree(rs, normal))
      && (status == Mismatch <==> rs != [] && AllReplayable(rs) && !AllAgree(rs, normal))
      && (status == ReplayError <==> rs == [] || !AllReplayable(rs))
  {
    var rs := SourceAttempts(source);
    ReplayableIsComparable(rs);
    if AllReplayable(rs) {
      AllMatchedIffAllAgree(rs, normal);
    }
  }

  // ---------------------------------------------------------------- the counts

  ghost function Agreeing(rs: seq<Replayed>, normal: Normaliser): nat {
    if |rs| == 0 then 0 else Agreeing(rs[..|rs| - 1], normal) + (if Agrees(rs[|rs| - 1], normal) then 1 else 0)
  }

  lemma {:induction false} MatchedAreAgreeing(rs: seq<Replayed>, normal: Normaliser)
    requires AllReplayable(rs) && AllComparable(rs)
    ensures CountMatched(Comparisons(rs, normal)) == Agreeing(rs, normal)
  {
    if |rs| > 0 {
      var n := |rs| - 1;
      assert AllReplayable(rs[..n]) && AllComparable(rs[..n]);
      MatchedAreAgreeing(rs[..n], normal);
      assert Comparisons(rs, normal)[..n] == Comparisons(rs[..n], normal);
      assert Replayable(rs[n]);
      MatchedIffAgrees(rs[n], normal);
    }
  }

  /** The result record counts the attempts that agree, those that do not, and nothing after an error. */
  lemma CountsAreTold(replayRunId: string, source: Source, normal: Normaliser)
    ensures var record, rs := ReplayVerdict.ResultOf(Verdict(replayRunId, source, normal)), SourceAttempts(source);
      && record.replayRunId == replayRunId
      && if rs != [] && AllReplayable(rs) then
           && record.attemptCount == |rs| && record.matchedAttempts == Agreeing(rs, normal)
           && record.mismatchedAttempts == |rs| - Agreeing(rs, normal) && record.errorCount == 0
         else
           record.attemptCount == 0 && record.matchedAttempts == 0 && record.mismatchedAttempts == 0 && record.errorCount == 1
  {
    var rs := SourceAttempts(source);
    VerdictIff(replayRunId, source, normal);
    ReplayableIsComparable(rs);
    if rs != [] && AllReplayable(rs) {
      MatchedAreAgreeing(rs, normal);
    }
  }

  // ---------------------------------------------------------------- one file is enough

  /** One file of one attempt that reads differently makes the whole replay a mismatch. */
  lemma OneFileMismatches(replayRunId: string, source: Source, normal: Normaliser, i: nat, f: ScorerFile)
    requires AllReplayable(SourceAttempts(source)) && i < |SourceAttempts(source)| && SourceAttempts(source)[i].ScorerReplayed?
    requires var r := SourceAttempts(source)[i];
      f in r.sourceFiles && f in r.replayFiles && normal(r.sourceFiles[f]) != normal(r.replayFiles[f])
    ensures Verdict(replayRunId, source, normal).status == Mismatch
  {
    var rs := SourceAttempts(source);
    VerdictIff(replayRunId, source, normal);
    assert !FileAgrees(rs[i].sourceFiles, rs[i].replayFiles, normal, f);
    assert !Agrees(rs[i], normal);
  }

  function AllFiles(text: string): map<ScorerFile, Content> {
    map[AttemptJson := PatchFile(""), Stdout := PatchFile(text), Stderr := PatchFile(""), ScorerError := PatchFile(""),
        ScorerTrace := PatchFile(""), FinalDiff := PatchFile(""), ScorerManifest := PatchFile("")]
  }

  /** One attempt whose replay differs in what it printed and in nothing else. */
  lemma OtherOutputMismatches(result: Scorer.AttemptResult)
    ensures var normal: Normaliser := (c: Content) => if c.PatchFile? then JString(c.patch) else JNull;
      var r := ScorerReplayed("attempt", result, result, InEvalRun("attempts/t"), AllFiles("1 passed"), AllFiles("1 failed"));
      Verdict("replay", EvalRunSource("run", [r]), normal).status == Mismatch
  {
    var normal: Normaliser := (c: Content) => if c.PatchFile? then JString(c.patch) else JNull;
    var r := ScorerReplayed("attempt", result, result, InEvalRun("attempts/t"), AllFiles("1 passed"), AllFiles("1 failed"));
    var source := EvalRunSource("run", [r]);
    assert SourceAttempts(source)[0] == r;
    assert "1 passed"[2] != "1 failed"[2];
    OneFileMismatches("replay", source, normal, 0, Stdout);
  }

  // ---------------------------------------------------------------- what a comparison of values sees

  /** The keys whose values a comparison does not look at. */
  predicate Unseen(key: string) {
    key in {"eval_attempt", "agent_attempt_id", "message_id", "scorer_attempt_id", "started_at", "ended_at", "timestamp_utc",
            "duration_ms", "latency_ms", "stdout_bytes", "stderr_bytes"}
  }

  /** Changing one entry of an object shows exactly when its key is seen and the two values differ in normal form. */
  lemma ChangedEntryShowsIff(fields: map<string, Json>, key: string, v: Json, text: string -> string)
    requires key in fields
    ensures NormalForm(JObject(fields[key := v]), text) == NormalForm(JObject(fields), text) <==>
      Unseen(key) || NormalForm(v, text) == NormalForm(fields[key], text)
  {
    var a, b := NormalForm(JObject(fields), text), NormalForm(JObject(fields[key := v]), text);
    assert a.fields.Keys == b.fields.Keys;
    forall other | other in a.fields && other != key ensures a.fields[other] == b.fields[other] {
    }
    if key in a.fields {
      assert a.fields[key] == b.fields[key] <==> a.fields == b.fields;
    }
  }

  /** An added entry shows exactly when it is not the source's declared identity. */
  lemma AddedEntryShowsIff(fields: map<string, Json>, key: string, v: Json, text: string -> string)
    requires key !in fields
    ensures NormalForm(JObject(fields[key := v]), text) == NormalForm(JObject(fields), text) <==> key == "eval_attempt"
  {
    var a, b := NormalForm(JObject(fields), text), NormalForm(JObject(fields[key := v]), text);
    if key == "eval_attempt" {
      assert a.fields == b.fields;
    } else {
      assert key in b.fields && key !in a.fields;
    }
  }
}
