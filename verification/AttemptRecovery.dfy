/**
 Crash and resume of a declared model attempt.  Once the generation manifest is visible the model's answer is
 settled: every later crash and every resume keeps it, and whichever resume gets through leaves the directory
 an uninterrupted run would have left.
 */
module AttemptRecovery {
  import opened Wrappers
  import opened AgentAttempt
  import opened AttemptDirectories
  import PromptLoop

  /** Redacting twice changes nothing. */
  ghost predicate StableRedaction(h: Harness) {
    forall s :: h.redact(h.redact(s)) == h.redact(s)
  }

  /** Scoring the same patch again differs in ids, clocks and text noise only. */
  ghost predicate DeterministicScorer(h: Harness) {
    forall path, patch, s1, s2 :: TwinScoring(h, h.prepareScoring(path, patch, s1), h.prepareScoring(path, patch, s2))
  }

  predicate TwinScoring(h: Harness, a: Scorer.Step<Scorer.World>, b: Scorer.Step<Scorer.World>) {
    match (a, b)
    case (Threw(e1), Threw(e2)) => TwinRaised(h, ExnDetails(h, e1, 0), ExnDetails(h, e2, 0))
    case (Done(w1), Done(w2)) => EraseAttempt(h, Scorer.Attempt(w1)) == EraseAttempt(h, Scorer.Attempt(w2))
    case _ => false
  }

  /** The same exception, its message alike up to text noise. */
  predicate TwinRaised(h: Harness, a: ErrorDetails, b: ErrorDetails) {
    a.errorClass == b.errorClass && EraseMessage(h, a.message) == EraseMessage(h, b.message)
  }

  /** A declared model attempt whose generation reached a terminal result. */
  predicate Published(plan: Plan, g: Generation) {
    Declared(plan) && Allowed(plan) && WellFormed(g) && Terminal(g)
  }

  // ---------------------------------------------------------------- the published generation

  /** The files a visible generation manifest stands for. */
  function Committed(h: Harness, plan: Plan, g: Generation): Dir
    requires Published(plan, g)
  {
    var always := map[
      ViewJson := ViewFile(g.view.value),
      LoopJson := LoopFile(RedactLoop(h, g.loop.value)),
      DecodingJson := DecodingFile(plan.decoding),
      ModelJson := ModelFile(plan.model.value),
      GenerationManifest := GenerationFile(RecordOfGeneration(h, plan, g))];
    if g.loop.value.status.Completed? then always[CandidatePatch := PatchFile(g.candidatePatch)] else always
  }

  function LoadedOf(h: Harness, plan: Plan, g: Generation): (l: Loaded)
    requires Published(plan, g)
    ensures WellFormed(Rebuild(l)) && Terminal(Rebuild(l))
  {
    RedactionKeepsValidity(h, g.loop.value);
    Loaded(RecordOfGeneration(h, plan, g), g.view.value, RedactLoop(h, g.loop.value), plan.model.value, plan.decoding,
           if g.loop.value.status.Completed? then Some(g.candidatePatch) else None)
  }

  predicate Holds(d: Dir, part: Dir) {
    forall s :: s in part ==> s in d && d[s] == part[s]
  }

  lemma ExecOne(d: Dir, op: FileOp)
    ensures Exec(d, [op]) == Apply(d, op)
  {
    assert [op][..0] == [];
  }

  lemma NotVisibleBeforeRename(h: Harness, plan: Plan, g: Generation, k: nat)
    requires Published(plan, g) && k <= |GenerationWrites(h, plan, g)|
    ensures var d := CrashAfter(map[], GenerationWrites(h, plan, g), k); FinalManifest !in d && GenerationManifest !in d
  {
    var done := GenerationWrites(h, plan, g)[..k];
    assert AllWrites(done) && forall i :: 0 <= i < |done| ==> done[i].slot !in {FinalManifest, GenerationManifest};
    ExecWrites(map[], done);
  }

  /** Before the rename nothing is visible; after it, exactly the committed files. */
  lemma GenerationIsAtomic(h: Harness, plan: Plan, g: Generation, k: nat)
    requires Published(plan, g) && k <= |GenerationOps(h, plan, g)|
    ensures var d := CrashAfter(map[], GenerationOps(h, plan, g), k);
      && FinalManifest !in d
      && (if k == |GenerationOps(h, plan, g)| then d == Committed(h, plan, g) else GenerationManifest !in d)
  {
    var writes, rename := GenerationWrites(h, plan, g), Rename(GenerationManifestTmp, GenerationManifest);
    if k <= |writes| {
      CrashInFirst(map[], writes, [rename], k);
      NotVisibleBeforeRename(h, plan, g, k);
    } else {
      assert (writes + [rename])[..k] == writes + [rename];
      ExecSnoc(map[], writes, rename);
      StagedFiles(h, plan, g);
      RenameCommits(Committed(h, plan, g), GenerationFile(RecordOfGeneration(h, plan, g)));
    }
  }

  lemma RenameCommits(committed: Dir, record: Content)
    requires GenerationManifest in committed && committed[GenerationManifest] == record && GenerationManifestTmp !in committed
    ensures Apply((committed - {GenerationManifest})[GenerationManifestTmp := record], Rename(GenerationManifestTmp, GenerationManifest)) == committed
  {
  }

  /** All payloads plus the manifest still under its temporary name. */
  lemma StagedFiles(h: Harness, plan: Plan, g: Generation)
    requires Published(plan, g)
    ensures var record := GenerationFile(RecordOfGeneration(h, plan, g));
      Exec(map[], GenerationWrites(h, plan, g)) == (Committed(h, plan, g) - {GenerationManifest})[GenerationManifestTmp := record]
  {
    var w1 := Write(ViewJson, ViewFile(g.view.value));
    var w2 := Write(LoopJson, LoopFile(RedactLoop(h, g.loop.value)));
    var w3 := Write(DecodingJson, DecodingFile(plan.decoding));
    var w4 := Write(ModelJson, ModelFile(plan.model.value));
    var tmp := Write(GenerationManifestTmp, GenerationFile(RecordOfGeneration(h, plan, g)));
    ExecOne(map[], w1);
    ExecSnoc(map[], [w1], w2);
    ExecSnoc(map[], [w1, w2], w3);
    ExecSnoc(map[], [w1, w2, w3], w4);
    assert [w1] + [w2] == [w1, w2] && [w1, w2] + [w3] == [w1, w2, w3] && [w1, w2, w3] + [w4] == [w1, w2, w3, w4];
    var four := [w1, w2, w3, w4];
    if g.loop.value.status.Completed? {
      var w5 := Write(CandidatePatch, PatchFile(g.candidatePatch));
      ExecSnoc(map[], four, w5);
      ExecSnoc(map[], four + [w5], tmp);
      assert GenerationWrites(h, plan, g) == four + [w5] + [tmp];
    } else {
      ExecSnoc(map[], four, tmp);
      assert GenerationWrites(h, plan, g) == four + [tmp];
    }
  }

  lemma ExecSnoc(d: Dir, ops: seq<FileOp>, op: FileOp)
    ensures Exec(d, ops + [op]) == Apply(Exec(d, ops), op)
  {
    assert (ops + [op])[..|ops|] == ops;
  }

  lemma RedactionKeepsValidity(h: Harness, r: PromptLoop.PromptLoopResult)
    requires PromptLoop.ValidPromptLoopResult(r)
    ensures PromptLoop.ValidPromptLoopResult(RedactLoop(h, r))
  {
    assert PromptLoop.MessageIds(RedactLoop(h, r).messages) == PromptLoop.MessageIds(r.messages);
  }

  /** Whatever else is in the directory, the committed files load and validate again. */
  lemma CommittedLoads(h: Harness, plan: Plan, g: Generation, d: Dir)
    requires Published(plan, g) && Holds(d, Committed(h, plan, g))
    ensures LoadGeneration(h, d) == Some(LoadedOf(h, plan, g))
  {
    RedactionKeepsValidity(h, g.loop.value);
    CommittedRecordIsValid(h, plan, g);
    CommittedIsIntact(h, plan, g, d);
    CommittedParses(h, plan, g, d);
  }

  lemma CommittedParses(h: Harness, plan: Plan, g: Generation, d: Dir)
    requires Published(plan, g) && Holds(d, Committed(h, plan, g)) && PromptLoop.ValidPromptLoopResult(RedactLoop(h, g.loop.value))
    ensures var m := RecordOfGeneration(h, plan, g);
      && GenerationManifest in d && d[GenerationManifest] == GenerationFile(m)
      && PayloadsParse(h, d, m) && IdentitiesAgree(d, m)
      && d[ViewJson].view == g.view.value && d[LoopJson].loop == RedactLoop(h, g.loop.value)
      && d[ModelJson].model == plan.model.value && d[DecodingJson].decoding == plan.decoding
      && (NCandidate in m.artifacts <==> g.loop.value.status.Completed?)
      && (NCandidate in m.artifacts ==> d[CandidatePatch].patch == g.candidatePatch)
  {
    var c := Committed(h, plan, g);
    assert c[GenerationManifest] == GenerationFile(RecordOfGeneration(h, plan, g));
    assert c[ViewJson] == ViewFile(g.view.value) && c[LoopJson] == LoopFile(RedactLoop(h, g.loop.value));
    assert c[ModelJson] == ModelFile(plan.model.value) && c[DecodingJson] == DecodingFile(plan.decoding);
    assert g.loop.value.status.Completed? ==> c[CandidatePatch] == PatchFile(g.candidatePatch);
  }

  lemma CommittedRecordIsValid(h: Harness, plan: Plan, g: Generation)
    requires Published(plan, g)
    ensures ValidGenerationRecord(RecordOfGeneration(h, plan, g))
  {
  }

  lemma PayloadIsCommitted(h: Harness, plan: Plan, g: Generation, name: ArtifactName)
    requires Published(plan, g) && name in GenerationPayloads(h, plan, g)
    ensures var c := GenerationPayloads(h, plan, g)[name];
      RefOf(name) in Committed(h, plan, g) && Committed(h, plan, g)[RefOf(name)] == c && !c.Folder?
  {
  }

  lemma CommittedIsIntact(h: Harness, plan: Plan, g: Generation, d: Dir)
    requires Published(plan, g) && Holds(d, Committed(h, plan, g))
    ensures ArtifactsIntact(h, d, RecordOfGeneration(h, plan, g))
  {
    var payloads := GenerationPayloads(h, plan, g);
    var m := RecordOfGeneration(h, plan, g);
    forall name | name in m.artifacts
      ensures m.artifacts[name] in d && !d[m.artifacts[name]].Folder? && h.hash(d[m.artifacts[name]]) == m.artifactHashes[name]
    {
      PayloadIsCommitted(h, plan, g, name);
    }
  }

  // ---------------------------------------------------------------- downstream files

  predicate Downstream(s: Slot) {
    s.RunJson? || s.ErrorTxt? || s.AttemptFolder? || s.Nested?
  }

  /** Published but not finished: the committed files plus some downstream files. */
  predicate Midway(d: Dir, committed: Dir) {
    && Holds(d, committed)
    && (forall s :: s in d ==> s in committed || Downstream(s))
    && (forall s :: s in d && Downstream(s) ==> (d[s].Folder? <==> s.AttemptFolder?))
    && (forall f :: Nested(f) in d ==> AttemptFolder in d)
  }

  lemma CommittedIsMidway(h: Harness, plan: Plan, g: Generation)
    requires Published(plan, g)
    ensures Midway(Committed(h, plan, g), Committed(h, plan, g))
  {
  }

  /** With a published generation the downstream writes touch downstream slots only, folder before nested files. */
  lemma DownstreamShape(h: Harness, plan: Plan, run: AgentTaskRun)
    requires plan.script.None?
    ensures var ops := DownstreamOps(h, plan, run, true);
      && AllWrites(ops)
      && (forall i :: 0 <= i < |ops| ==> Downstream(ops[i].slot) && (ops[i].content.Folder? <==> ops[i].slot.AttemptFolder?))
      && (forall i :: 0 <= i < |ops| && ops[i].slot.Nested? ==> 2 < i && ops[2] == Write(AttemptFolder, Folder))
  {
    var ops := DownstreamOps(h, plan, run, true);
    var head := [Write(RunJson, RunFile(RedactResult(h, run.result))), Write(ErrorTxt, ErrorFile(run.errorDetails))];
    assert ops == head + (if run.attemptRun.Some? then ScorerOps(run.attemptRun.value) else []);
  }

  lemma DownstreamCrashIsMidway(h: Harness, plan: Plan, run: AgentTaskRun, committed: Dir, k: nat)
    requires plan.script.None? && k <= |DownstreamOps(h, plan, run, true)|
    requires Midway(committed, committed) && forall s :: s in committed ==> !Downstream(s)
    ensures Midway(CrashAfter(committed, DownstreamOps(h, plan, run, true), k), committed)
    ensures FinalManifest !in committed ==> FinalManifest !in CrashAfter(committed, DownstreamOps(h, plan, run, true), k)
  {
    var ops := DownstreamOps(h, plan, run, true);
    DownstreamShape(h, plan, run);
    var done := ops[..k];
    assert AllWrites(done);
    ExecWrites(committed, done);
    var d := Exec(committed, done);
    forall s | s in d && s !in committed ensures Downstream(s) && (d[s].Folder? <==> s.AttemptFolder?) {
      assert Write(s, d[s]) in done;
    }
    forall f | Nested(f) in d ensures AttemptFolder in d {
      assert Write(Nested(f), d[Nested(f)]) in done;
      var i :| 0 <= i < k && done[i] == Write(Nested(f), d[Nested(f)]);
      assert ops[i].slot.Nested?;
      assert done[2].slot == AttemptFolder && AttemptFolder in WrittenSlots(done);
    }
  }

  // ---------------------------------------------------------------- clearing

  predicate Covers(order: seq<ScorerFile>) {
    forall f: ScorerFile :: f in order
  }

  /** The folder goes only after every file in it. */
  predicate FolderLast(ops: seq<FileOp>) {
    forall i, f :: 0 <= i < |ops| && ops[i] == Remove(AttemptFolder) ==> Remove(Nested(f)) in ops[..i]
  }

  lemma {:induction false} ClearingIsSafe(d: Dir, committed: Dir, owned: set<Slot>, order: seq<ScorerFile>, names: seq<ArtifactName>)
    requires Midway(d, committed) && owned == committed.Keys && Covers(order)
    requires forall s :: s in committed ==> !Downstream(s)
    ensures var ops := ClearOps(d, owned, order, names);
      && AllRemoves(ops) && FolderLast(ops)
      && (forall i :: 0 <= i < |ops| ==> Downstream(ops[i].slot))
      && (forall name :: name in names && RefOf(name) in d && RefOf(name) !in owned ==> Remove(RefOf(name)) in ops)
  {
    if |names| > 0 {
      var rest, name := names[..|names| - 1], names[|names| - 1];
      ClearingIsSafe(d, committed, owned, order, rest);
      var a, b := ClearOps(d, owned, order, rest), ClearRef(d, owned, order, name);
      assert FolderLast(b) && AllRemoves(b) by {
        if b == RemoveTreeOps(AttemptFolder, order) {
          forall i, f | 0 <= i < |b| && b[i] == Remove(AttemptFolder) ensures Remove(Nested(f)) in b[..i] {
            assert f in order;
            var j :| 0 <= j < |order| && order[j] == f;
            assert b[..i][j] == Remove(Nested(f));
          }
        }
      }
      var ops := a + b;
      forall i, f | 0 <= i < |ops| && ops[i] == Remove(AttemptFolder) ensures Remove(Nested(f)) in ops[..i] {
        if i < |a| {
          assert ops[..i] == a[..i];
        } else {
          assert ops[..i] == a + b[..i - |a|];
        }
      }
    }
  }

  lemma OwnedIsCommitted(h: Harness, plan: Plan, g: Generation)
    requires Published(plan, g)
    ensures OwnedSlots(RecordOfGeneration(h, plan, g)) == Committed(h, plan, g).Keys
  {
    var m := RecordOfGeneration(h, plan, g);
    assert m.artifacts[NView] == ViewJson && m.artifacts[NLoop] == LoopJson;
    assert m.artifacts[NDecoding] == DecodingJson && m.artifacts[NModel] == ModelJson;
    assert g.loop.value.status.Completed? ==> m.artifacts[NCandidate] == CandidatePatch;
  }

  lemma RemovedWithFolder(ops: seq<FileOp>, k: nat, f: ScorerFile)
    requires k <= |ops| && AllRemoves(ops) && FolderLast(ops)
    requires AttemptFolder in RemovedSlots(ops[..k])
    ensures Nested(f) in RemovedSlots(ops[..k])
  {
    var i :| 0 <= i < k && ops[..k][i].slot == AttemptFolder;
    assert ops[i] == Remove(AttemptFolder);
    var j :| 0 <= j < i && ops[..i][j] == Remove(Nested(f));
    assert ops[..k][j].slot == Nested(f);
  }

  lemma RemovalKeepsMidway(d: Dir, committed: Dir, gone: set<Slot>)
    requires Midway(d, committed) && forall s :: s in committed ==> !Downstream(s)
    requires forall s :: s in gone ==> Downstream(s)
    requires AttemptFolder in gone ==> forall f :: Nested(f) in gone
    ensures Midway(d - gone, committed)
  {
  }

  lemma EverythingCleared(d: Dir, committed: Dir, ops: seq<FileOp>)
    requires Midway(d, committed) && AllRemoves(ops) && FolderLast(ops)
    requires forall name :: name in REF_ORDER && RefOf(name) in d && RefOf(name) !in committed ==> Remove(RefOf(name)) in ops
    requires forall s :: s in committed ==> !Downstream(s)
    ensures forall s :: s in d && s !in committed ==> s in RemovedSlots(ops)
  {
    assert NRun == REF_ORDER[1] && NError == REF_ORDER[2] && NAttempt == REF_ORDER[9];
    forall s | s in d && s !in committed ensures s in RemovedSlots(ops) {
      var name := if s.RunJson? then NRun else if s.ErrorTxt? then NError else NAttempt;
      assert RefOf(name) in d;
      var i :| 0 <= i < |ops| && ops[i] == Remove(RefOf(name));
      assert ops[i].slot == RefOf(name);
      if s.Nested? {
        assert ops[..|ops|] == ops;
        RemovedWithFolder(ops, |ops|, s.file);
      }
    }
  }

  /** Clearing can be cut anywhere; when it finishes, exactly the committed files are left. */
  lemma ClearingCrash(h: Harness, plan: Plan, g: Generation, d: Dir, order: seq<ScorerFile>, k: nat)
    requires Published(plan, g) && Midway(d, Committed(h, plan, g)) && Covers(order)
    requires k <= |ClearOps(d, OwnedSlots(RecordOfGeneration(h, plan, g)), order, REF_ORDER)|
    ensures
      var ops := ClearOps(d, OwnedSlots(RecordOfGeneration(h, plan, g)), order, REF_ORDER);
      && Midway(CrashAfter(d, ops, k), Committed(h, plan, g))
      && (k == |ops| ==> CrashAfter(d, ops, k) == Committed(h, plan, g))
  {
    var committed, owned := Committed(h, plan, g), OwnedSlots(RecordOfGeneration(h, plan, g));
    OwnedIsCommitted(h, plan, g);
    ClearingIsSafe(d, committed, owned, order, REF_ORDER);
    ClearedTo(d, committed, ClearOps(d, owned, order, REF_ORDER), k);
  }

  lemma ClearedTo(d: Dir, committed: Dir, ops: seq<FileOp>, k: nat)
    requires Midway(d, committed) && AllRemoves(ops) && FolderLast(ops) && k <= |ops|
    requires forall i :: 0 <= i < |ops| ==> Downstream(ops[i].slot)
    requires forall name :: name in REF_ORDER && RefOf(name) in d && RefOf(name) !in committed ==> Remove(RefOf(name)) in ops
    requires forall s :: s in committed ==> !Downstream(s)
    ensures Midway(CrashAfter(d, ops, k), committed)
    ensures k == |ops| ==> CrashAfter(d, ops, k) == committed
  {
    var done := ops[..k];
    var gone := RemovedSlots(done);
    ExecRemoves(d, done);
    if AttemptFolder in gone {
      forall f ensures Nested(f) in gone {
        RemovedWithFolder(ops, k, f);
      }
    }
    RemovalKeepsMidway(d, committed, gone);
    if k == |ops| {
      assert done == ops;
      EverythingCleared(d, committed, ops);
      assert d - gone == committed;
    }
  }

  // ---------------------------------------------------------------- finishing from disk

  /** A process that rebuilt the generation from disk writes, byte for byte, what the original would have. */
  lemma RebuiltWritesTheSame(h: Harness, plan: Plan, g: Generation, seed: Seed)
    requires Published(plan, g) && StableRedaction(h)
    ensures RebuildPlan(LoadedOf(h, plan, g)) == plan
    ensures WriteOps(h, plan, FinishPublished(h, Rebuild(LoadedOf(h, plan, g)), seed), true)
         == WriteOps(h, plan, FinishPublished(h, g, seed), true)
  {
    var g' := Rebuild(LoadedOf(h, plan, g));
    var a, b := FinishPublished(h, g, seed), FinishPublished(h, g', seed);
    assert RedactResult(h, a.result) == RedactResult(h, b.result);
    assert a.attemptRun == b.attemptRun && a.errorDetails == b.errorDetails;
    assert IncludedNames(plan, a, true) == IncludedNames(plan, b, true);
    assert RecordOfAttempt(plan, a, true) == RecordOfAttempt(plan, b, true);
  }

  /** The finished directory for one clock and one scorer run. */
  function FinalDir(h: Harness, plan: Plan, g: Generation, seed: Seed): Dir
    requires Published(plan, g)
  {
    Exec(Committed(h, plan, g), WriteOps(h, plan, FinishPublished(h, g, seed), true))
  }

  lemma DownstreamPair(h: Harness, plan: Plan, run: AgentTaskRun)
    requires plan.script.None?
    ensures DownstreamOps(h, plan, run, true)
         == [Write(RunJson, RunFile(RedactResult(h, run.result))), Write(ErrorTxt, ErrorFile(run.errorDetails))]
          + (if run.attemptRun.Some? then ScorerOps(run.attemptRun.value) else [])
  {
  }

  lemma TwinScores(h: Harness, path: string, patch: Option<string>, generated: string, s1: Seed, s2: Seed)
    requires DeterministicScorer(h)
    ensures var a, b := Score(h, path, patch, generated, s1), Score(h, path, patch, generated, s2);
      match (a, b)
      case (ScoringRaised(e1), ScoringRaised(e2)) => TwinRaised(h, e1, e2)
      case (ScoringDone(r1), ScoringDone(r2)) => EraseAttempt(h, r1) == EraseAttempt(h, r2)
      case _ => false
  {
    if patch.Some? {
      assert TwinScoring(h, h.prepareScoring(path, patch.value, s1), h.prepareScoring(path, patch.value, s2));
    }
  }

  lemma TwinScorerOps(h: Harness, a: Scorer.AttemptRun, b: Scorer.AttemptRun)
    requires EraseAttempt(h, a) == EraseAttempt(h, b)
    ensures TwinWrites(h, ScorerOps(a), ScorerOps(b))
  {
  }

  lemma TwinConcat(h: Harness, a1: seq<FileOp>, b1: seq<FileOp>, a2: seq<FileOp>, b2: seq<FileOp>)
    requires TwinWrites(h, a1, b1) && TwinWrites(h, a2, b2)
    ensures TwinWrites(h, a1 + a2, b1 + b2)
  {
  }

  lemma TwinOutcomes(h: Harness, g: Generation, s1: Seed, s2: Seed)
    requires WellFormed(g) && Terminal(g) && DeterministicScorer(h)
    ensures var a, b := FinishPublished(h, g, s1), FinishPublished(h, g, s2);
      && EraseContent(h, RunFile(RedactResult(h, a.result))) == EraseContent(h, RunFile(RedactResult(h, b.result)))
      && EraseContent(h, ErrorFile(a.errorDetails)) == EraseContent(h, ErrorFile(b.errorDetails))
      && (a.attemptRun.Some? <==> b.attemptRun.Some?)
      && (a.attemptRun.Some? ==> EraseAttempt(h, a.attemptRun.value) == EraseAttempt(h, b.attemptRun.value))
      && a.view == b.view && a.loop == b.loop
      && a.result == b.result.(endedAt := a.result.endedAt, durationMs := a.result.durationMs, attemptResult := a.result.attemptResult,
                               errorMessage := a.result.errorMessage)
      && (a.result.attemptResult.Some? <==> b.result.attemptResult.Some?)
      && (a.result.attemptResult.Some? ==> EraseResult(a.result.attemptResult.value) == EraseResult(b.result.attemptResult.value))
  {
    if g.loop.value.status.Completed? {
      TwinScores(h, g.taskManifestPath, Some(g.candidatePatch), g.candidatePatch, s1, s2);
      var a := Score(h, g.taskManifestPath, Some(g.candidatePatch), g.candidatePatch, s1);
      var b := Score(h, g.taskManifestPath, Some(g.candidatePatch), g.candidatePatch, s2);
      if a.ScoringDone? {
        assert EraseAttempt(h, a.run).result == EraseAttempt(h, b.run).result;
      }
    }
  }

  lemma TwinFinishes(h: Harness, plan: Plan, g: Generation, s1: Seed, s2: Seed)
    requires Published(plan, g) && DeterministicScorer(h)
    ensures TwinWrites(h, WriteOps(h, plan, FinishPublished(h, g, s1), true), WriteOps(h, plan, FinishPublished(h, g, s2), true))
  {
    var a, b := FinishPublished(h, g, s1), FinishPublished(h, g, s2);
    TwinOutcomes(h, g, s1, s2);
    DownstreamPair(h, plan, a);
    DownstreamPair(h, plan, b);
    var headA := [Write(RunJson, RunFile(RedactResult(h, a.result))), Write(ErrorTxt, ErrorFile(a.errorDetails))];
    var headB := [Write(RunJson, RunFile(RedactResult(h, b.result))), Write(ErrorTxt, ErrorFile(b.errorDetails))];
    var tailA := if a.attemptRun.Some? then ScorerOps(a.attemptRun.value) else [];
    var tailB := if b.attemptRun.Some? then ScorerOps(b.attemptRun.value) else [];
    assert TwinWrites(h, headA, headB);
    if a.attemptRun.Some? {
      TwinScorerOps(h, a.attemptRun.value, b.attemptRun.value);
    }
    TwinConcat(h, headA, headB, tailA, tailB);
    assert IncludedNames(plan, a, true) == IncludedNames(plan, b, true);
    var lastA := Write(FinalManifest, RecordFile(RecordOfAttempt(plan, a, true)));
    var lastB := Write(FinalManifest, RecordFile(RecordOfAttempt(plan, b, true)));
    assert lastA == lastB;
    TwinConcat(h, headA + tailA, headB + tailB, [lastA], [lastB]);
  }

  /** Every finished directory of one generation is the same directory, ids and clocks apart. */
  lemma FinalDirsAgree(h: Harness, plan: Plan, g: Generation, s1: Seed, s2: Seed)
    requires Published(plan, g) && DeterministicScorer(h)
    ensures EraseDir(h, FinalDir(h, plan, g, s1)) == EraseDir(h, FinalDir(h, plan, g, s2))
  {
    TwinFinishes(h, plan, g, s1, s2);
    TwinWritesEndAlike(h, Committed(h, plan, g), WriteOps(h, plan, FinishPublished(h, g, s1), true),
                       WriteOps(h, plan, FinishPublished(h, g, s2), true));
  }

  // ---------------------------------------------------------------- crash points

  /** Cutting the final phase anywhere short of its last write leaves a midway directory. */
  lemma WritingCrash(h: Harness, plan: Plan, g: Generation, seed: Seed, k: nat)
    requires Published(plan, g) && k <= |WriteOps(h, plan, FinishPublished(h, g, seed), true)|
    ensures
      var ops := WriteOps(h, plan, FinishPublished(h, g, seed), true);
      var d := CrashAfter(Committed(h, plan, g), ops, k);
      && (k < |ops| ==> Midway(d, Committed(h, plan, g)) && FinalManifest !in d)
      && (k == |ops| ==> d == FinalDir(h, plan, g, seed) && Holds(d, Committed(h, plan, g)) && FinalManifest in d)
  {
    var run := FinishPublished(h, g, seed);
    var committed := Committed(h, plan, g);
    assert forall s :: s in committed ==> !Downstream(s) && s != FinalManifest;
    CommittedIsMidway(h, plan, g);
    var ops, record := DownstreamOps(h, plan, run, true), RecordFile(RecordOfAttempt(plan, run, true));
    DownstreamCrashIsMidway(h, plan, run, committed, if k <= |ops| then k else |ops|);
    SealedCrash(committed, ops, record, k);
  }

  /** A run of writes closed by the final manifest. */
  lemma SealedCrash(committed: Dir, ops: seq<FileOp>, record: Content, k: nat)
    requires k <= |ops| + 1 && FinalManifest !in committed
    requires Midway(CrashAfter(committed, ops, if k <= |ops| then k else |ops|), committed)
    requires FinalManifest !in CrashAfter(committed, ops, if k <= |ops| then k else |ops|)
    ensures var all := ops + [Write(FinalManifest, record)]; var d := CrashAfter(committed, all, k);
      && (k < |all| ==> Midway(d, committed) && FinalManifest !in d)
      && (k == |all| ==> d == Exec(committed, all) && Holds(d, committed) && FinalManifest in d)
  {
    var last := Write(FinalManifest, record);
    if k <= |ops| {
      CrashInFirst(committed, ops, [last], k);
    } else {
      assert (ops + [last])[..k] == ops + [last] && ops[..|ops|] == ops;
      ExecSnoc(committed, ops, last);
      SealKeepsCommitted(Exec(committed, ops), committed, record);
    }
  }

  lemma SealKeepsCommitted(d: Dir, committed: Dir, record: Content)
    requires Midway(d, committed) && FinalManifest !in committed
    ensures Holds(d[FinalManifest := record], committed)
  {
  }

  /** Reached by a published attempt: still midway, or finished by some run. */
  ghost predicate Settled(h: Harness, plan: Plan, g: Generation, d: Dir) {
    Published(plan, g) && (Midway(d, Committed(h, plan, g)) || exists seed :: d == FinalDir(h, plan, g, seed))
  }

  lemma FinishedIsFinal(h: Harness, plan: Plan, g: Generation, seed: Seed)
    requires Published(plan, g)
    ensures FinalManifest in FinalDir(h, plan, g, seed) && Holds(FinalDir(h, plan, g, seed), Committed(h, plan, g))
  {
    var ops := WriteOps(h, plan, FinishPublished(h, g, seed), true);
    WritingCrash(h, plan, g, seed, |ops|);
    assert ops[..|ops|] == ops;
  }

  lemma ResumeCrashSettles(h: Harness, plan: Plan, g: Generation, d: Dir, seed: Seed, order: seq<ScorerFile>, k: nat)
    requires Published(plan, g) && StableRedaction(h) && Covers(order)
    requires Midway(d, Committed(h, plan, g)) && k <= |ResumeOps(h, d, seed, order)|
    ensures Settled(h, plan, g, CrashAfter(d, ResumeOps(h, d, seed, order), k))
    ensures k == |ResumeOps(h, d, seed, order)| ==> FinalManifest in CrashAfter(d, ResumeOps(h, d, seed, order), k)
  {
    ResumeCrash(h, plan, g, d, seed, order, k);
    FinishedIsFinal(h, plan, g, seed);
  }

  /** A fresh run cut at or after publication. */
  lemma FreshCrash(h: Harness, plan: Plan, g: Generation, seed: Seed, k: nat)
    requires Published(plan, g) && |GenerationOps(h, plan, g)| <= k <= |FreshOps(h, plan, g, seed)|
    ensures var d := CrashAfter(map[], FreshOps(h, plan, g, seed), k);
      && (k < |FreshOps(h, plan, g, seed)| ==> Midway(d, Committed(h, plan, g)) && FinalManifest !in d)
      && (k == |FreshOps(h, plan, g, seed)| ==> d == FinalDir(h, plan, g, seed))
  {
    var a, b := GenerationOps(h, plan, g), WriteOps(h, plan, FinishPublished(h, g, seed), true);
    GenerationIsAtomic(h, plan, g, |a|);
    assert a[..|a|] == a;
    CrashInSecond(map[], a, b, k);
    WritingCrash(h, plan, g, seed, k - |a|);
  }

  lemma NotFinalYet(h: Harness, plan: Plan, g: Generation, d: Dir)
    requires Published(plan, g) && Midway(d, Committed(h, plan, g))
    ensures FinalManifest !in d
  {
    assert FinalManifest !in Committed(h, plan, g);
  }

  /** On a midway directory a resume clears, then writes what a fresh process would have written. */
  lemma ResumeOpsAre(h: Harness, plan: Plan, g: Generation, d: Dir, seed: Seed, order: seq<ScorerFile>)
    requires Published(plan, g) && StableRedaction(h)
    requires Midway(d, Committed(h, plan, g))
    ensures ResumeOps(h, d, seed, order)
         == ClearOps(d, OwnedSlots(RecordOfGeneration(h, plan, g)), order, REF_ORDER)
          + WriteOps(h, plan, FinishPublished(h, g, seed), true)
  {
    CommittedLoads(h, plan, g, d);
    NotFinalYet(h, plan, g, d);
    RebuiltWritesTheSame(h, plan, g, seed);
  }

  /** A resume cut anywhere: midway until its last write, which completes the attempt. */
  lemma ResumeCrash(h: Harness, plan: Plan, g: Generation, d: Dir, seed: Seed, order: seq<ScorerFile>, k: nat)
    requires Published(plan, g) && StableRedaction(h) && Covers(order)
    requires Midway(d, Committed(h, plan, g)) && k <= |ResumeOps(h, d, seed, order)|
    ensures var ops := ResumeOps(h, d, seed, order);
      && |ops| > 0
      && (k < |ops| ==> Midway(CrashAfter(d, ops, k), Committed(h, plan, g)) && FinalManifest !in CrashAfter(d, ops, k))
      && (k == |ops| ==> CrashAfter(d, ops, k) == FinalDir(h, plan, g, seed))
  {
    ResumeOpsAre(h, plan, g, d, seed, order);
    ClearThenWriteCrash(h, plan, g, d, seed, order, k);
  }

  lemma ClearThenWriteCrash(h: Harness, plan: Plan, g: Generation, d: Dir, seed: Seed, order: seq<ScorerFile>, k: nat)
    requires Published(plan, g) && Covers(order) && Midway(d, Committed(h, plan, g))
    requires
      var a := ClearOps(d, OwnedSlots(RecordOfGeneration(h, plan, g)), order, REF_ORDER);
      var b := WriteOps(h, plan, FinishPublished(h, g, seed), true);
      k <= |a + b|
    ensures
      var a := ClearOps(d, OwnedSlots(RecordOfGeneration(h, plan, g)), order, REF_ORDER);
      var b := WriteOps(h, plan, FinishPublished(h, g, seed), true);
      && |a + b| > 0
      && (k < |a + b| ==> Midway(CrashAfter(d, a + b, k), Committed(h, plan, g)) && FinalManifest !in CrashAfter(d, a + b, k))
      && (k == |a + b| ==> CrashAfter(d, a + b, k) == FinalDir(h, plan, g, seed))
  {
    var a := ClearOps(d, OwnedSlots(RecordOfGeneration(h, plan, g)), order, REF_ORDER);
    var b := WriteOps(h, plan, FinishPublished(h, g, seed), true);
    ClearingCrash(h, plan, g, d, order, if k < |a| then k else |a|);
    WritingCrash(h, plan, g, seed, if k < |a| then 0 else k - |a|);
    TwoStageCrash(d, Committed(h, plan, g), a, b, k);
  }

  lemma TwoStageCrash(d: Dir, between: Dir, a: seq<FileOp>, b: seq<FileOp>, k: nat)
    requires k <= |a| + |b|
    ensures k < |a| ==> CrashAfter(d, a + b, k) == CrashAfter(d, a, k)
    ensures k >= |a| && CrashAfter(d, a, |a|) == between ==> CrashAfter(d, a + b, k) == CrashAfter(between, b, k - |a|)
  {
    if k < |a| {
      CrashInFirst(d, a, b, k);
    } else {
      CrashInSecond(d, a, b, k);
      assert a[..|a|] == a;
    }
  }

  // ---------------------------------------------------------------- any number of resumes

  /** One process: its clock, its directory listing order, and where it dies, if it does. */
  datatype Session = Session(seed: Seed, order: seq<ScorerFile>, diesAfter: Option<nat>)

  function After(d: Dir, ops: seq<FileOp>, diesAfter: Option<nat>): Dir {
    if diesAfter.Some? && diesAfter.value < |ops| then CrashAfter(d, ops, diesAfter.value) else Exec(d, ops)
  }

  function ResumedOnce(h: Harness, d: Dir, s: Session): Dir {
    After(d, ResumeOps(h, d, s.seed, s.order), s.diesAfter)
  }

  function Resumed(h: Harness, d: Dir, sessions: seq<Session>): Dir {
    if |sessions| == 0 then d
    else ResumedOnce(h, Resumed(h, d, sessions[..|sessions| - 1]), sessions[|sessions| - 1])
  }

  lemma SettledStaysSettled(h: Harness, plan: Plan, g: Generation, d: Dir, s: Session)
    requires StableRedaction(h) && Settled(h, plan, g, d) && Covers(s.order)
    ensures Settled(h, plan, g, ResumedOnce(h, d, s))
    ensures s.diesAfter.None? || FinalManifest in d ==> FinalManifest in ResumedOnce(h, d, s)
    ensures FinalManifest in d ==> ResumedOnce(h, d, s) == d
  {
    var ops := ResumeOps(h, d, s.seed, s.order);
    assert ops[..|ops|] == ops;
    if Midway(d, Committed(h, plan, g)) {
      var k := if s.diesAfter.Some? && s.diesAfter.value < |ops| then s.diesAfter.value else |ops|;
      ResumeCrash(h, plan, g, d, s.seed, s.order, k);
      FinishedIsFinal(h, plan, g, s.seed);
    } else {
      var seed :| d == FinalDir(h, plan, g, seed);
      FinishedIsFinal(h, plan, g, seed);
      CommittedLoads(h, plan, g, d);
      assert ops == [];
    }
  }

  /** No session got through: each of them died. */
  predicate AllDied(sessions: seq<Session>) {
    forall i :: 0 <= i < |sessions| ==> sessions[i].diesAfter.Some?
  }

  predicate AllCover(sessions: seq<Session>) {
    forall i :: 0 <= i < |sessions| ==> Covers(sessions[i].order)
  }

  lemma {:induction false} ResumedStaysSettled(h: Harness, plan: Plan, g: Generation, d: Dir, sessions: seq<Session>)
    requires StableRedaction(h) && Settled(h, plan, g, d) && AllCover(sessions)
    ensures Settled(h, plan, g, Resumed(h, d, sessions))
    ensures FinalManifest !in Resumed(h, d, sessions) ==> AllDied(sessions)
  {
    if |sessions| > 0 {
      var n := |sessions| - 1;
      var before := Resumed(h, d, sessions[..n]);
      ResumedStaysSettled(h, plan, g, d, sessions[..n]);
      SettledStaysSettled(h, plan, g, before, sessions[n]);
      if AllDied(sessions[..n]) && sessions[n].diesAfter.Some? {
        DeathsAddUp(sessions);
      }
    }
  }

  lemma DeathsAddUp(sessions: seq<Session>)
    requires |sessions| > 0 && AllDied(sessions[..|sessions| - 1]) && sessions[|sessions| - 1].diesAfter.Some?
    ensures AllDied(sessions)
  {
  }

  /** What a settled directory shows, compared with any uninterrupted run of the same generation. */
  lemma SettledMeans(h: Harness, plan: Plan, g: Generation, d: Dir, seed: Seed)
    requires DeterministicScorer(h) && Settled(h, plan, g, d)
    ensures Holds(d, Committed(h, plan, g))
    ensures FinalManifest in d ==> EraseDir(h, d) == EraseDir(h, FinalDir(h, plan, g, seed))
  {
    if !Midway(d, Committed(h, plan, g)) {
      var last :| d == FinalDir(h, plan, g, last);
      FinalMeans(h, plan, g, d, last, seed);
    }
  }

  lemma FinalMeans(h: Harness, plan: Plan, g: Generation, d: Dir, last: Seed, seed: Seed)
    requires Published(plan, g) && DeterministicScorer(h) && d == FinalDir(h, plan, g, last)
    ensures Holds(d, Committed(h, plan, g)) && EraseDir(h, d) == EraseDir(h, FinalDir(h, plan, g, seed))
  {
    FinishedIsFinal(h, plan, g, last);
    FinalDirsAgree(h, plan, g, last, seed);
  }

  lemma UninterruptedIsFinal(h: Harness, plan: Plan, g: Generation, seed: Seed)
    requires Published(plan, g)
    ensures Exec(map[], FreshOps(h, plan, g, seed)) == FinalDir(h, plan, g, seed)
  {
    var ops := FreshOps(h, plan, g, seed);
    FreshCrash(h, plan, g, seed, |ops|);
    assert ops[..|ops|] == ops;
  }

  lemma FreshCrashIsSettled(h: Harness, plan: Plan, g: Generation, seed: Seed, k: nat)
    requires Published(plan, g) && |GenerationOps(h, plan, g)| <= k <= |FreshOps(h, plan, g, seed)|
    ensures Settled(h, plan, g, CrashAfter(map[], FreshOps(h, plan, g, seed), k))
  {
    FreshCrash(h, plan, g, seed, k);
  }

  /**
   Crash and resume.  A fresh run dies anywhere from publication on; any number of resumes follow, each dying
   anywhere or finishing.  The committed files never change; a visible final manifest means the directory an
   uninterrupted run would have left, ids and clocks apart; one resume that is not interrupted is enough.
   */
  lemma ResumeConverges(h: Harness, plan: Plan, g: Generation, seed: Seed, k: nat, sessions: seq<Session>)
    requires Published(plan, g) && StableRedaction(h) && DeterministicScorer(h)
    requires |GenerationOps(h, plan, g)| <= k <= |FreshOps(h, plan, g, seed)|
    requires AllCover(sessions)
    ensures
      var uninterrupted := Exec(map[], FreshOps(h, plan, g, seed));
      var d := Resumed(h, CrashAfter(map[], FreshOps(h, plan, g, seed), k), sessions);
      && Holds(d, Committed(h, plan, g))
      && LoadGeneration(h, d) == Some(LoadedOf(h, plan, g))
      && (FinalManifest in d ==> EraseDir(h, d) == EraseDir(h, uninterrupted))
      && (FinalManifest !in d ==> AllDied(sessions))
  {
    var start := CrashAfter(map[], FreshOps(h, plan, g, seed), k);
    FreshCrashIsSettled(h, plan, g, seed, k);
    ResumedStaysSettled(h, plan, g, start, sessions);
    var d := Resumed(h, start, sessions);
    SettledMeans(h, plan, g, d, seed);
    CommittedLoads(h, plan, g, d);
    UninterruptedIsFinal(h, plan, g, seed);
  }
}
