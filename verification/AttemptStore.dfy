/**
 The attempt directory as the processes see it: an object they write to, one file operation at a time.  Its
 journal is the sequence of operations completed so far, so a crash leaves the directory at some prefix.
 */
module AttemptStore {
  import opened Wrappers
  import opened AgentAttempt
  import opened AttemptDirectories
  import AgentGeneration
  import AttemptRecovery
  import PromptLoop
  import PromptLoopLaws
  import Scorer = ScorerAttempt

  datatype Refusal = Occupied(slot: Slot) | ReadbackFailed | Incomplete(errorClass: string) | BadInputs | InvalidGeneration | AlreadyFinal

  predicate Distinct(names: seq<ArtifactName>) {
    forall i, j :: 0 <= i < j < |names| ==> RefOf(names[i]) != RefOf(names[j])
  }

  function Refs(names: seq<ArtifactName>): set<Slot> {
    set i | 0 <= i < |names| :: RefOf(names[i])
  }

  lemma RefsGrow(names: seq<ArtifactName>, n: nat)
    requires n < |names|
    ensures Refs(names[..n + 1]) == Refs(names[..n]) + {RefOf(names[n])}
    ensures Distinct(names) ==> RefOf(names[n]) !in Refs(names[..n])
  {
    assert names[..n + 1] == names[..n] + [names[n]];
    forall s | s in Refs(names[..n]) ensures s in Refs(names[..n + 1]) {
      var i :| 0 <= i < n && RefOf(names[..n][i]) == s;
      assert names[..n + 1][i] == names[i];
    }
    assert names[..n + 1][n] == names[n];
  }

  /** The candidate patch comes last and only when the loop completed. */
  function PayloadNames(g: Generation): seq<ArtifactName>
    requires Terminal(g)
  {
    [NView, NLoop, NDecoding, NModel] + When(g.loop.value.status.Completed?, NCandidate)
  }

  function PayloadWrites(payloads: map<ArtifactName, Content>, names: seq<ArtifactName>): (ops: seq<FileOp>)
    requires forall name :: name in names ==> name in payloads
  {
    seq(|names|, i requires 0 <= i < |names| => Write(RefOf(names[i]), payloads[names[i]]))
  }

  lemma PayloadsComeFirst(h: Harness, plan: Plan, g: Generation)
    requires AttemptRecovery.Published(plan, g)
    ensures var payloads, names := GenerationPayloads(h, plan, g), PayloadNames(g);
      && payloads.Keys == (set name | name in names) && Distinct(names)
      && GenerationOps(h, plan, g) == PayloadWrites(payloads, names)
           + [Write(GenerationManifestTmp, GenerationFile(RecordOfGeneration(h, plan, g))), Rename(GenerationManifestTmp, GenerationManifest)]
  {
    var names := PayloadNames(g);
    assert RefOf(names[0]) == ViewJson && RefOf(names[1]) == LoopJson && RefOf(names[2]) == DecodingJson && RefOf(names[3]) == ModelJson;
    assert g.loop.value.status.Completed? ==> RefOf(names[4]) == CandidatePatch;
  }

  /** Clearing one reference looks at nothing but that reference. */
  lemma ClearOpsStep(now: Dir, start: Dir, owned: set<Slot>, order: seq<ScorerFile>, names: seq<ArtifactName>, i: nat)
    requires i < |names| && SameAt(RefOf(names[i]), now, start)
    ensures ClearOps(start, owned, order, names[..i + 1])
         == ClearOps(start, owned, order, names[..i]) + ClearRef(now, owned, order, names[i])
  {
    assert names[..i + 1][..i] == names[..i];
  }

  predicate PayloadsOnDisk(h: Harness, plan: Plan, g: Generation, d: Dir)
    requires AttemptRecovery.Published(plan, g)
  {
    var payloads, names := GenerationPayloads(h, plan, g), PayloadNames(g);
    forall i :: 0 <= i < |names| ==> names[i] in payloads && RefOf(names[i]) in d && d[RefOf(names[i])] == payloads[names[i]]
  }

  /** An operation list that was started and not finished. */
  ghost predicate CutShort(before: seq<FileOp>, after: seq<FileOp>, ops: seq<FileOp>) {
    exists k :: 0 <= k < |ops| && after == before + ops[..k]
  }

  lemma PrefixIsCutShort(before: seq<FileOp>, after: seq<FileOp>, ops: seq<FileOp>, n: nat)
    requires n < |ops| && after == before + ops[..n]
    ensures CutShort(before, after, ops)
  {
  }

  lemma ManifestsAreNoPayloads(g: Generation, n: nat)
    requires Terminal(g) && n <= |PayloadNames(g)|
    ensures GenerationManifest !in Refs(PayloadNames(g)[..n]) && FinalManifest !in Refs(PayloadNames(g)[..n])
  {
    var names := PayloadNames(g);
    forall i | 0 <= i < n ensures RefOf(names[..n][i]) != GenerationManifest && RefOf(names[..n][i]) != FinalManifest {
      assert names[i] in [NView, NLoop, NDecoding, NModel, NCandidate];
    }
  }

  lemma GuardsAreNames(g: Generation, d: Dir)
    requires Terminal(g)
    ensures var names := PayloadNames(g);
      (GuardedSlots(g) !! d.Keys) <==> GenerationManifest !in d && forall i :: 0 <= i < |names| ==> RefOf(names[i]) !in d
  {
    var names := PayloadNames(g);
    assert RefOf(names[0]) == ViewJson && RefOf(names[1]) == LoopJson && RefOf(names[2]) == DecodingJson && RefOf(names[3]) == ModelJson;
    assert g.loop.value.status.Completed? ==> RefOf(names[4]) == CandidatePatch;
  }

  /** The manifest built from the files as they are on disk. */
  function Recorded(h: Harness, plan: Plan, g: Generation, d: Dir): GenerationRecord
    requires AttemptRecovery.Published(plan, g) && PayloadsOnDisk(h, plan, g, d)
  {
    var names := PayloadNames(g);
    GenerationRecord(g.agentAttemptId, g.taskId, g.taskManifestPath, plan.evalAttempt.value, g.loop.value.status,
                     if g.loop.value.status.Completed? then Some(h.hashDiff(g.candidatePatch)) else None,
                     g.startedAt, g.endedAt, g.durationMs,
                     map name | name in names :: RefOf(name),
                     map name | name in names && RefOf(name) in d :: h.hash(d[RefOf(name)]))
  }

  lemma RecordedRefsAndHashes(h: Harness, payloads: map<ArtifactName, Content>, names: seq<ArtifactName>, d: Dir)
    requires payloads.Keys == set name | name in names
    requires forall i :: 0 <= i < |names| ==> RefOf(names[i]) in d && d[RefOf(names[i])] == payloads[names[i]]
    ensures forall name :: name in names ==> RefOf(name) in d
    ensures (map name | name in names :: RefOf(name)) == (map name | name in payloads :: RefOf(name))
    ensures (map name | name in names && RefOf(name) in d :: h.hash(d[RefOf(name)])) == (map name | name in payloads :: h.hash(payloads[name]))
  {
    forall name | name in names ensures name in payloads && RefOf(name) in d && d[RefOf(name)] == payloads[name] {
      var i :| 0 <= i < |names| && names[i] == name;
    }
    assert (map name | name in names && RefOf(name) in d :: h.hash(d[RefOf(name)])).Keys == payloads.Keys;
  }

  lemma RecordedIsRecord(h: Harness, plan: Plan, g: Generation, d: Dir)
    requires AttemptRecovery.Published(plan, g) && PayloadsOnDisk(h, plan, g, d)
    ensures Recorded(h, plan, g, d) == RecordOfGeneration(h, plan, g)
  {
    PayloadsComeFirst(h, plan, g);
    RecordedRefsAndHashes(h, GenerationPayloads(h, plan, g), PayloadNames(g), d);
  }

  lemma PublishKeepsPayloads(h: Harness, plan: Plan, g: Generation, before: Dir, after: Dir)
    requires AttemptRecovery.Published(plan, g) && PayloadsOnDisk(h, plan, g, before)
    requires forall s :: s !in {GenerationManifestTmp, GenerationManifest} ==> SameAt(s, after, before)
    ensures PayloadsOnDisk(h, plan, g, after)
  {
    var names := PayloadNames(g);
    forall i | 0 <= i < |names| ensures RefOf(names[i]) in after && after[RefOf(names[i])] == before[RefOf(names[i])] {
      assert SameAt(RefOf(names[i]), after, before);
    }
  }

  lemma CommittedReadback(h: Harness, plan: Plan, g: Generation, d: Dir)
    requires AttemptRecovery.Published(plan, g) && AttemptRecovery.Holds(d, AttemptRecovery.Committed(h, plan, g))
    ensures LoadGeneration(h, d).Some? && LoadGeneration(h, d).value.record == RecordOfGeneration(h, plan, g)
  {
    AttemptRecovery.CommittedLoads(h, plan, g, d);
  }

  /** The payloads and the manifest on disk are the committed files. */
  lemma CommittedFiles(h: Harness, plan: Plan, g: Generation, d: Dir)
    requires AttemptRecovery.Published(plan, g)
    requires GenerationManifest in d && d[GenerationManifest] == GenerationFile(RecordOfGeneration(h, plan, g))
    requires PayloadsOnDisk(h, plan, g, d)
    ensures AttemptRecovery.Holds(d, AttemptRecovery.Committed(h, plan, g))
  {
    var names := PayloadNames(g);
    assert RefOf(names[0]) == ViewJson && RefOf(names[1]) == LoopJson && RefOf(names[2]) == DecodingJson && RefOf(names[3]) == ModelJson;
    assert g.loop.value.status.Completed? ==> RefOf(names[4]) == CandidatePatch;
  }

  lemma RefOrderIsDistinct()
    ensures Distinct(REF_ORDER)
    ensures forall i, j :: 0 <= i < j < |REF_ORDER| ==> REF_ORDER[i] != REF_ORDER[j]
  {
  }

  /** The slots whose absence is demanded before anything is written to them. */
  function GuardedSlots(g: Generation): set<Slot>
    requires Terminal(g)
  {
    {ViewJson, LoopJson, DecodingJson, ModelJson, GenerationManifest}
    + (if g.loop.value.status.Completed? then {CandidatePatch} else {})
  }

  /** Each operation leads from one state to the next. */
  ghost predicate Steps(states: seq<Dir>, ops: seq<FileOp>) {
    && |states| == |ops| + 1
    && forall i :: 0 <= i < |ops| ==> states[i + 1] == Apply(states[i], ops[i])
  }

  lemma {:induction false} StatesAreCrashPoints(states: seq<Dir>, ops: seq<FileOp>, k: nat)
    requires Steps(states, ops) && k <= |ops|
    ensures states[k] == CrashAfter(states[0], ops, k)
  {
    if k > 0 {
      StatesAreCrashPoints(states, ops, k - 1);
      assert ops[..k][..k - 1] == ops[..k - 1];
    }
  }

  lemma CommittedSlots(h: Harness, plan: Plan, g: Generation)
    requires AttemptRecovery.Published(plan, g)
    ensures GenerationManifest in AttemptRecovery.Committed(h, plan, g)
    ensures g.loop.value.status.Completed? ==>
      CandidatePatch in AttemptRecovery.Committed(h, plan, g)
      && AttemptRecovery.Committed(h, plan, g)[CandidatePatch] == PatchFile(g.candidatePatch)
  {
  }

  /** What a loaded generation owns includes its manifest and, when completed, the candidate it loaded. */
  lemma LoadedIsOwned(h: Harness, d: Dir, l: Loaded)
    requires LoadGeneration(h, d) == Some(l)
    ensures WellFormed(Rebuild(l)) && Terminal(Rebuild(l))
    ensures GenerationManifest in d && GenerationManifest in OwnedSlots(l.record)
    ensures l.loop.status.Completed? ==>
      CandidatePatch in OwnedSlots(l.record) && CandidatePatch in d && d[CandidatePatch] == PatchFile(Rebuild(l).candidatePatch)
  {
    if l.loop.status.Completed? {
      assert l.record.artifacts[NCandidate] == CandidatePatch;
    }
  }

  lemma ResumeOpsOfLoaded(h: Harness, d: Dir, l: Loaded, seed: Seed, order: seq<ScorerFile>)
    requires LoadGeneration(h, d) == Some(l) && FinalManifest !in d
    ensures WellFormed(Rebuild(l)) && Terminal(Rebuild(l))
    ensures ResumeOps(h, d, seed, order)
         == ClearOps(d, OwnedSlots(l.record), order, REF_ORDER) + WriteOps(h, RebuildPlan(l), FinishPublished(h, Rebuild(l), seed), true)
  {
  }

  lemma Regroup<T>(s: seq<T>, a: seq<T>, b: seq<T>)
    ensures s + a + b == s + (a + b)
  {
  }

  lemma Regroup5<T>(s: seq<T>, a: seq<T>, b: seq<T>, c: seq<T>, d: seq<T>, e: seq<T>)
    ensures s + a + b + c + d + e == s + (a + b + c + d + e)
  {
    assert s + a + b + c + d == s + (a + b + c + d);
  }

  lemma Regroup6<T>(s: seq<T>, a: seq<T>, b: seq<T>, c: seq<T>, d: seq<T>, e: seq<T>, f: seq<T>)
    ensures s + a + b + c + d + e + f == s + (a + b + c + d + e + f)
  {
    Regroup5(s, a, b, c, d, e);
  }

  class AttemptDirectory {
    var files: Dir
    ghost var base: Dir
    ghost var journal: seq<FileOp>
    ghost var states: seq<Dir>  // the directory before each journalled operation, and now

    ghost predicate Valid()
      reads this
    {
      && |states| == |journal| + 1
      && states[0] == base && states[|journal|] == files
      && Steps(states, journal)
    }

    constructor ()
      ensures Valid() && files == map[] && base == map[] && journal == []
    {
      files, base, journal, states := map[], map[], [], [map[]];
    }

    method Perform(op: FileOp)
      requires Valid()
      modifies this
      ensures Valid() && base == old(base) && journal == old(journal) + [op] && files == Apply(old(files), op)
    {
      match op {
        case Write(slot, content) => files := files[slot := content];
        case Remove(slot) => files := files - {slot};
        case Rename(source, target) =>
          if source in files {
            files := (files - {source})[target := files[source]];
          }
      }
      journal, states := journal + [op], states + [files];
    }

    // ------------------------------------------------------------ publishing a generation

    /** Writes payloads in order, each demanded absent; stops at the first slot already taken. */
    method WritePayloads(payloads: map<ArtifactName, Content>, names: seq<ArtifactName>) returns (n: nat)
      requires Valid() && Distinct(names) && forall name :: name in names ==> name in payloads
      modifies this
      ensures Valid() && base == old(base) && n <= |names|
      ensures journal == old(journal) + PayloadWrites(payloads, names)[..n]
      ensures forall i :: 0 <= i < n ==> RefOf(names[i]) !in old(files)
      ensures forall i :: 0 <= i < n ==> RefOf(names[i]) in files && files[RefOf(names[i])] == payloads[names[i]]
      ensures n < |names| ==> RefOf(names[n]) in old(files)
      ensures forall s :: s !in Refs(names[..n]) ==> SameAt(s, files, old(files))
    {
      n := 0;
      ghost var ops := PayloadWrites(payloads, names);
      while n < |names|
        invariant Valid() && base == old(base) && n <= |names|
        invariant journal == old(journal) + ops[..n]
        invariant forall i :: 0 <= i < n ==> RefOf(names[i]) !in old(files)
        invariant forall i :: 0 <= i < n ==> RefOf(names[i]) in files && files[RefOf(names[i])] == payloads[names[i]]
        invariant forall s :: s !in Refs(names[..n]) ==> SameAt(s, files, old(files))
      {
        var slot := RefOf(names[n]);
        RefsGrow(names, n);
        assert SameAt(slot, files, old(files));
        if slot in files {
          return;
        }
        assert ops[n] == Write(slot, payloads[names[n]]);
        assert ops[..n + 1] == ops[..n] + [ops[n]];
        Perform(Write(slot, payloads[names[n]]));
        n := n + 1;
      }
    }

    /** The manifest under a temporary name, then renamed into place. */
    method Publish(record: GenerationRecord)
      requires Valid()
      modifies this
      ensures Valid() && base == old(base)
      ensures journal == old(journal) + [Write(GenerationManifestTmp, GenerationFile(record)), Rename(GenerationManifestTmp, GenerationManifest)]
      ensures GenerationManifest in files && files[GenerationManifest] == GenerationFile(record)
      ensures forall s :: s !in {GenerationManifestTmp, GenerationManifest} ==> SameAt(s, files, old(files))
    {
      Perform(Write(GenerationManifestTmp, GenerationFile(record)));
      Perform(Rename(GenerationManifestTmp, GenerationManifest));
    }

    /**
     Payloads, then the manifest.  Succeeds exactly when nothing is in the way; otherwise a proper prefix of the
     operations was done and the manifest slot keeps what it had.
     */
    method WriteAgentGeneration(h: Harness, plan: Plan, g: Generation) returns (r: Result<GenerationRecord, Refusal>)
      requires Valid() && AttemptRecovery.Published(plan, g)
      modifies this
      ensures Valid() && base == old(base)
      ensures r.Success? <==> GuardedSlots(g) !! old(files).Keys
      ensures r.Success? ==> r.value == RecordOfGeneration(h, plan, g) && journal == old(journal) + GenerationOps(h, plan, g)
      ensures r.Success? ==> AttemptRecovery.Holds(files, AttemptRecovery.Committed(h, plan, g))
      ensures r.Success? ==> SameAt(FinalManifest, files, old(files))
      ensures r.Failure? ==>
        && CutShort(old(journal), journal, GenerationOps(h, plan, g))
        && SameAt(GenerationManifest, files, old(files))
    {
      var names := PayloadNames(g);
      PayloadsComeFirst(h, plan, g);
      GuardsAreNames(g, files);
      var n := WritePayloads(GenerationPayloads(h, plan, g), names);
      PrefixIsCutShort(old(journal), journal, GenerationOps(h, plan, g), n);
      ManifestsAreNoPayloads(g, n);
      if n < |names| {
        return Failure(Occupied(RefOf(names[n])));
      }
      if GenerationManifest in files {
        return Failure(Occupied(GenerationManifest));
      }
      r := SealGeneration(h, plan, g);
    }

    /** Hashes what was written, publishes the manifest and reads everything back. */
    method SealGeneration(h: Harness, plan: Plan, g: Generation) returns (r: Result<GenerationRecord, Refusal>)
      requires Valid() && AttemptRecovery.Published(plan, g)
      requires PayloadsOnDisk(h, plan, g, files)
      modifies this
      ensures Valid() && base == old(base)
      ensures r == Success(RecordOfGeneration(h, plan, g))
      ensures journal == old(journal) + [Write(GenerationManifestTmp, GenerationFile(RecordOfGeneration(h, plan, g))), Rename(GenerationManifestTmp, GenerationManifest)]
      ensures AttemptRecovery.Holds(files, AttemptRecovery.Committed(h, plan, g))
      ensures SameAt(FinalManifest, files, old(files))
    {
      var record := Recorded(h, plan, g, files);
      RecordedIsRecord(h, plan, g, files);
      Publish(record);
      PublishKeepsPayloads(h, plan, g, old(files), files);
      CommittedFiles(h, plan, g, files);
      CommittedReadback(h, plan, g, files);
      var back := LoadGeneration(h, files);
      if back.None? || back.value.record != record {
        return Failure(ReadbackFailed);
      }
      return Success(record);
    }

    // ------------------------------------------------------------ clearing

    /** Deletes every reference that the generation does not own; folders with all they hold. */
    method ClearIncompleteDownstream(owned: set<Slot>, order: seq<ScorerFile>)
      requires Valid()
      modifies this
      ensures Valid() && base == old(base)
      ensures journal == old(journal) + ClearOps(old(files), owned, order, REF_ORDER)
      ensures GenerationManifest in owned ==> SameAt(GenerationManifest, files, old(files))
      ensures CandidatePatch in owned ==> SameAt(CandidatePatch, files, old(files))
    {
      RefOrderIsDistinct();
      ClearAll(REF_ORDER, owned, order);
    }

    method ClearAll(names: seq<ArtifactName>, owned: set<Slot>, order: seq<ScorerFile>)
      requires Valid() && forall i, j :: 0 <= i < j < |names| ==> names[i] != names[j]
      modifies this
      ensures Valid() && base == old(base)
      ensures journal == old(journal) + ClearOps(old(files), owned, order, names)
      ensures forall s: Slot :: s in owned && !s.Nested? ==> SameAt(s, files, old(files))
    {
      ghost var done := [];
      for i := 0 to |names|
        invariant Valid() && base == old(base)
        invariant journal == old(journal) + done && done == ClearOps(old(files), owned, order, names[..i])
        invariant forall j :: i <= j < |names| ==> SameAt(RefOf(names[j]), files, old(files))
        invariant forall s: Slot :: s in owned && !s.Nested? ==> SameAt(s, files, old(files))
      {
        ClearOpsStep(files, old(files), owned, order, names, i);
        ghost var cleared := ClearRef(files, owned, order, names[i]);
        ClearOne(names[i], owned, order);
        Regroup(old(journal), done, cleared);
        done := done + cleared;
      }
      assert names[..|names|] == names;
    }

    method ClearOne(name: ArtifactName, owned: set<Slot>, order: seq<ScorerFile>)
      requires Valid()
      modifies this
      ensures Valid() && base == old(base)
      ensures journal == old(journal) + ClearRef(old(files), owned, order, name)
      ensures forall other: ArtifactName :: other != name ==> SameAt(RefOf(other), files, old(files))
      ensures forall s: Slot :: s in owned && !s.Nested? ==> SameAt(s, files, old(files))
    {
      var slot := RefOf(name);
      if slot !in owned && slot in files {
        if files[slot].Folder? {
          RemoveTree(slot, order);
        } else {
          Perform(Remove(slot));
        }
      }
    }

    method RemoveTree(folder: Slot, order: seq<ScorerFile>)
      requires Valid()
      modifies this
      ensures Valid() && base == old(base)
      ensures journal == old(journal) + RemoveTreeOps(folder, order)
      ensures forall s: Slot :: !s.Nested? && s != folder ==> SameAt(s, files, old(files))
    {
      ghost var ops := RemoveTreeOps(folder, order);
      if folder.AttemptFolder? {
        for i := 0 to |order|
          invariant Valid() && base == old(base)
          invariant journal == old(journal) + ops[..i]
          invariant forall s: Slot :: !s.Nested? ==> SameAt(s, files, old(files))
        {
          Perform(Remove(Nested(order[i])));
          assert ops[..i + 1] == ops[..i] + [ops[i]];
        }
      }
      assert ops == ops[..|ops| - 1] + [Remove(folder)];
      Perform(Remove(folder));
    }

    // ------------------------------------------------------------ scoring and the final record

    /** Scores what is on disk when the generation was published, the in-memory candidate's copy otherwise. */
    method FinishAttempt(h: Harness, g: Generation, scoringPath: Option<Location>, seed: Seed) returns (run: AgentTaskRun)
      requires Valid() && WellFormed(g)
      requires scoringPath == Some(InAttemptDirectory) ==> CandidatePatch in files && files[CandidatePatch].PatchFile?
      ensures run == Finish(h, g, scoringPath, ReadBack(g, scoringPath), seed)
    {
      if g.errorDetails.Some? {
        var e := g.errorDetails.value;
        var kept := if g.candidatePath.Some? then Some(h.hashDiff(g.candidatePatch)) else None;
        return AgentTaskRun(ResultOf(h, g, OrchestratorError, g.candidatePath, kept, None, Some(e.errorClass), Some(e.message), seed),
                            g.view, g.loop, g.candidatePatch, None, g.errorDetails);
      }
      var loop := g.loop.value;
      if !loop.status.Completed? {
        var status := if loop.status.LoopOrchestratorError? then OrchestratorError else AgentLoopFailed;
        return AgentTaskRun(ResultOf(h, g, status, None, None, None, loop.errorClass, loop.errorMessage, seed),
                            g.view, g.loop, g.candidatePatch, None, None);
      }
      var path := if scoringPath.Some? then scoringPath else g.candidatePath;
      var patchHash := Some(h.hashDiff(g.candidatePatch));
      var outcome := ScoreCandidate(h, g, ReadBack(g, scoringPath), seed);
      match outcome {
        case ScoringDone(scored) =>
          run := AgentTaskRun(ResultOf(h, g, Scored, path, patchHash, Some(scored.result), None, None, seed),
                              g.view, g.loop, g.candidatePatch, Some(scored), None);
        case ScoringRaised(e) =>
          run := AgentTaskRun(ResultOf(h, g, OrchestratorError, path, patchHash, None, Some(e.errorClass), Some(e.message), seed),
                              g.view, g.loop, g.candidatePatch, None, Some(e));
      }
    }

    function ReadBack(g: Generation, scoringPath: Option<Location>): Option<string>
      reads this
      requires scoringPath == Some(InAttemptDirectory) ==> CandidatePatch in files && files[CandidatePatch].PatchFile?
    {
      if scoringPath == Some(InAttemptDirectory) then Some(files[CandidatePatch].patch)
      else if scoringPath.Some? || g.candidatePath.Some? then Some(g.candidatePatch)
      else None
    }

    method WriteAll(ops: seq<FileOp>)
      requires Valid()
      modifies this
      ensures Valid() && base == old(base) && journal == old(journal) + ops
    {
      for i := 0 to |ops|
        invariant Valid() && base == old(base) && journal == old(journal) + ops[..i]
      {
        Perform(ops[i]);
        assert ops[..i + 1] == ops[..i] + [ops[i]];
      }
      assert ops[..|ops|] == ops;
    }

    method WriteIf(condition: bool, slot: Slot, content: Content)
      requires Valid()
      modifies this
      ensures Valid() && base == old(base) && journal == old(journal) + When(condition, Write(slot, content))
    {
      if condition {
        Perform(Write(slot, content));
      }
    }

    /** The inputs and transcripts, unless a published generation already holds them. */
    method WriteInputs(h: Harness, plan: Plan, run: AgentTaskRun, owns: bool)
      requires Valid()
      modifies this
      ensures Valid() && base == old(base) && journal == old(journal) + InputOps(h, plan, run, owns)
    {
      ghost var start := journal;
      WriteIf(!owns, DecodingJson, DecodingFile(plan.decoding));
      WriteAll(if !owns && plan.model.Some? then [Write(ModelJson, ModelFile(plan.model.value))] else []);
      WriteAll(if plan.script.Some? then [Write(ControlScriptJson, ScriptFile(plan.script.value))] else []);
      WriteAll(if !owns && run.view.Some? then [Write(ViewJson, ViewFile(run.view.value))] else []);
      WriteAll(if !owns && run.loop.Some? then [Write(LoopJson, LoopFile(RedactLoop(h, run.loop.value)))] else []);
      WriteIf(!owns && run.result.candidatePatchHash.Some?, CandidatePatch, PatchFile(run.candidatePatch));
      Regroup6(start, When(!owns, Write(DecodingJson, DecodingFile(plan.decoding))),
               if !owns && plan.model.Some? then [Write(ModelJson, ModelFile(plan.model.value))] else [],
               if plan.script.Some? then [Write(ControlScriptJson, ScriptFile(plan.script.value))] else [],
               if !owns && run.view.Some? then [Write(ViewJson, ViewFile(run.view.value))] else [],
               if !owns && run.loop.Some? then [Write(LoopJson, LoopFile(RedactLoop(h, run.loop.value)))] else [],
               When(!owns && run.result.candidatePatchHash.Some?, Write(CandidatePatch, PatchFile(run.candidatePatch))));
    }

    /** The result first, the final manifest last. */
    method WriteRunArtifacts(h: Harness, plan: Plan, run: AgentTaskRun, owns: bool)
      requires Valid() && (owns ==> GenerationManifest in files)
      modifies this
      ensures Valid() && base == old(base)
      ensures journal == old(journal) + WriteOps(h, plan, run, owns)
    {
      ghost var start := journal;
      Perform(Write(RunJson, RunFile(RedactResult(h, run.result))));
      WriteInputs(h, plan, run, owns);
      Perform(Write(ErrorTxt, ErrorFile(run.errorDetails)));
      var nested := if run.attemptRun.Some? then ScorerOps(run.attemptRun.value) else [];
      WriteAll(nested);
      Perform(Write(FinalManifest, RecordFile(RecordOfAttempt(plan, run, owns))));
      Regroup5(start, [Write(RunJson, RunFile(RedactResult(h, run.result)))], InputOps(h, plan, run, owns),
               [Write(ErrorTxt, ErrorFile(run.errorDetails))], nested,
               [Write(FinalManifest, RecordFile(RecordOfAttempt(plan, run, owns)))]);
    }

    /** Scores the persisted candidate of a published generation and writes the record. */
    method FinishAndWrite(h: Harness, plan: Plan, g: Generation, seed: Seed) returns (run: AgentTaskRun)
      requires Valid() && WellFormed(g) && Terminal(g) && GenerationManifest in files
      requires g.loop.value.status.Completed? ==> CandidatePatch in files && files[CandidatePatch] == PatchFile(g.candidatePatch)
      modifies this
      ensures Valid() && base == old(base)
      ensures journal == old(journal) + WriteOps(h, plan, FinishPublished(h, g, seed), true)
    {
      var scoringPath := if g.loop.value.status.Completed? then Some(InAttemptDirectory) else None;
      run := FinishAttempt(h, g, scoringPath, seed);
      WriteRunArtifacts(h, plan, run, true);
    }

    // ------------------------------------------------------------ the two entry points

    /** Runs the model, publishes the generation when the attempt is declared, scores, and writes the record. */
    method RunAndPersist(h: Harness, plan: Plan, e: AgentGeneration.Environment, client: PromptLoop.ModelClient, seed: Seed)
      returns (r: Result<AgentTaskRun, Refusal>, ghost g: Generation)
      requires Valid() && files == map[]
      requires AgentGeneration.EntersLoop(e) ==>
        PromptLoopLaws.HonestWorld(AgentGeneration.LoopRun(e, client.modelId, client.reply, client.calls))
      modifies this, client
      ensures Valid() && base == old(base)
      ensures AgentGeneration.Records(g, e, AgentGeneration.ResultFor(e, client.modelId, client.reply, old(client.calls))) && WellFormed(g)
      ensures journal == old(journal) + FreshOps(h, plan, g, seed)
      ensures r.Success? <==> Allowed(plan) && (Declared(plan) ==> Terminal(g))
      ensures !Allowed(plan) ==> client.calls == old(client.calls)
    {
      if !Allowed(plan) {
        g := AgentGeneration.RecordFor(e, AgentGeneration.ResultFor(e, client.modelId, client.reply, client.calls));
        AgentGeneration.GenerationIsWellFormed(g, e, client.modelId, client.reply, client.calls);
        return Failure(BadInputs), g;
      }
      var generation := AgentGeneration.RunAgentGeneration(e, client);
      g := generation;
      AgentGeneration.GenerationIsWellFormed(g, e, client.modelId, client.reply, old(client.calls));
      r := Persist(h, plan, generation, seed);
    }

    /** Everything after the model has answered. */
    method Persist(h: Harness, plan: Plan, g: Generation, seed: Seed) returns (r: Result<AgentTaskRun, Refusal>)
      requires Valid() && files == map[] && Allowed(plan) && WellFormed(g)
      modifies this
      ensures Valid() && base == old(base)
      ensures journal == old(journal) + FreshOps(h, plan, g, seed)
      ensures r.Success? <==> (Declared(plan) ==> Terminal(g))
    {
      var run: AgentTaskRun;
      if !Declared(plan) {
        run := FinishAttempt(h, g, None, seed);
        WriteRunArtifacts(h, plan, run, false);
        return Success(run);
      }
      if !Terminal(g) {
        return Failure(Incomplete(if g.errorDetails.Some? then g.errorDetails.value.errorClass else "unknown"));
      }
      r := PublishAndFinish(h, plan, g, seed);
      Regroup(old(journal), GenerationOps(h, plan, g), WriteOps(h, plan, FinishPublished(h, g, seed), true));
    }

    /** A declared model attempt: the answer is committed before anything is scored. */
    method PublishAndFinish(h: Harness, plan: Plan, g: Generation, seed: Seed) returns (r: Result<AgentTaskRun, Refusal>)
      requires Valid() && AttemptRecovery.Published(plan, g)
      modifies this
      ensures Valid() && base == old(base)
      ensures r.Success? <==> GuardedSlots(g) !! old(files).Keys
      ensures r.Success? ==> journal == old(journal) + GenerationOps(h, plan, g) + WriteOps(h, plan, FinishPublished(h, g, seed), true)
    {
      var published := WriteAgentGeneration(h, plan, g);
      if published.Failure? {
        return Failure(published.error);
      }
      CommittedSlots(h, plan, g);
      var run := FinishAndWrite(h, plan, g, seed);
      return Success(run);
    }

    /** finish_and_persist_agent_task_attempt_from_generation: no model client in sight. */
    method FinishFromGeneration(h: Harness, seed: Seed, order: seq<ScorerFile>) returns (r: Result<AgentTaskRun, Refusal>)
      requires Valid()
      modifies this
      ensures Valid() && base == old(base)
      ensures journal == old(journal) + ResumeOps(h, old(files), seed, order)
      ensures r.Success? <==> LoadGeneration(h, old(files)).Some? && FinalManifest !in old(files)
    {
      var loaded := LoadGeneration(h, files);
      if loaded.None? {
        return Failure(InvalidGeneration);
      }
      if FinalManifest in files {
        return Failure(AlreadyFinal);
      }
      LoadedIsOwned(h, files, loaded.value);
      ResumeOpsOfLoaded(h, files, loaded.value, seed, order);
      var run := FinishLoaded(h, loaded.value, seed, order);
      return Success(run);
    }

    method FinishLoaded(h: Harness, l: Loaded, seed: Seed, order: seq<ScorerFile>) returns (run: AgentTaskRun)
      requires Valid() && WellFormed(Rebuild(l)) && Terminal(Rebuild(l))
      requires GenerationManifest in files && GenerationManifest in OwnedSlots(l.record)
      requires l.loop.status.Completed? ==>
        CandidatePatch in OwnedSlots(l.record) && CandidatePatch in files && files[CandidatePatch] == PatchFile(Rebuild(l).candidatePatch)
      modifies this
      ensures Valid() && base == old(base)
      ensures journal == old(journal) + (ClearOps(old(files), OwnedSlots(l.record), order, REF_ORDER)
                                         + WriteOps(h, RebuildPlan(l), FinishPublished(h, Rebuild(l), seed), true))
    {
      run := ClearAndFinish(h, OwnedSlots(l.record), RebuildPlan(l), Rebuild(l), seed, order);
      Regroup(old(journal), ClearOps(old(files), OwnedSlots(l.record), order, REF_ORDER),
              WriteOps(h, RebuildPlan(l), FinishPublished(h, Rebuild(l), seed), true));
    }

    method ClearAndFinish(h: Harness, owned: set<Slot>, plan: Plan, g: Generation, seed: Seed, order: seq<ScorerFile>) returns (run: AgentTaskRun)
      requires Valid() && WellFormed(g) && Terminal(g)
      requires GenerationManifest in files && GenerationManifest in owned
      requires g.loop.value.status.Completed? ==>
        CandidatePatch in owned && CandidatePatch in files && files[CandidatePatch] == PatchFile(g.candidatePatch)
      modifies this
      ensures Valid() && base == old(base)
      ensures journal == old(journal) + ClearOps(old(files), owned, order, REF_ORDER) + WriteOps(h, plan, FinishPublished(h, g, seed), true)
    {
      ClearIncompleteDownstream(owned, order);
      run := FinishAndWrite(h, plan, g, seed);
    }
  }

  method ScoreCandidate(h: Harness, g: Generation, readBack: Option<string>, seed: Seed) returns (outcome: ScoreOutcome)
    ensures outcome == Score(h, g.taskManifestPath, readBack, g.candidatePatch, seed)
  {
    if readBack.None? {
      return ScoringRaised(ErrorDetails("FileNotFoundError", "candidate patch", h.traceback(seed)));
    }
    if h.hashDiff(readBack.value) != h.hashDiff(g.candidatePatch) {
      return ScoringRaised(ErrorDetails("ValueError", "Scoring candidate differs from generated candidate", h.traceback(seed)));
    }
    var prepared := h.prepareScoring(g.taskManifestPath, readBack.value, seed);
    match prepared {
      case Threw(e) => outcome := ScoringRaised(ExnDetails(h, e, seed));
      case Done(w) =>
        var run := Scorer.RunPatchAttempt(w);
        outcome := ScoringDone(run);
    }
  }

  predicate SameAt(s: Slot, a: Dir, b: Dir) {
    if s in a then s in b && a[s] == b[s] else s !in b
  }
}
