/**
 Resuming an interrupted suite.  Every declared attempt is classified from its directory alone; what can be
 reused is reused, what never reached a terminal result is run again, what is broken is left for a person.
 */
module SuiteResume {
  import opened Wrappers
  import opened AgentAttempt
  import opened AttemptDirectories
  import opened CompletedAttempt
  import AttemptRecovery

  datatype AttemptPath = Absent | NotDirectory | Directory(files: Dir)

  datatype Action = RunAttempt | ReuseGeneration | ReuseCompleted | Reject

  /** _classify_attempt. */
  function Classify(h: Harness, x: Expectation, path: AttemptPath): Action {
    match path
    case Absent => RunAttempt
    case NotDirectory => Reject
    case Directory(d) =>
      if FinalManifest in d then
        if CompletedAccepted(h, d, x) then ReuseCompleted else Reject
      else if GenerationManifest in d then
        if !x.policy.ModelPolicy? then Reject
        else match LoadGeneration(h, d)
          case None => Reject
          case Some(l) => if GenerationDeclared(l, x) then ReuseGeneration else Reject
      else RunAttempt
  }

  // ---------------------------------------------------------------- what a session does to one attempt

  datatype PathOp = Inside(op: FileOp) | MakeDir | RemoveDir | AskModel(answer: Generation)

  /** An attempt's directory, and every answer a model was asked for on its behalf. */
  datatype AttemptState = AttemptState(path: AttemptPath, asked: seq<Generation>)

  function Step(s: AttemptState, op: PathOp): AttemptState {
    match op
    case Inside(o) => if s.path.Directory? then s.(path := Directory(Apply(s.path.files, o))) else s
    case MakeDir => if s.path.Absent? then s.(path := Directory(map[])) else s
    case RemoveDir => s.(path := Absent)
    case AskModel(g) => s.(asked := s.asked + [g])
  }

  function Run(s: AttemptState, ops: seq<PathOp>): AttemptState {
    if |ops| == 0 then s else Step(Run(s, ops[..|ops| - 1]), ops[|ops| - 1])
  }

  /** What would come of working on an attempt now: answer, clock and scorer, and directory listing orders. */
  datatype Work = Work(generation: Generation, seed: Seed, order: seq<ScorerFile>, listing: seq<Slot>)

  function Lift(ops: seq<FileOp>): seq<PathOp> {
    seq(|ops|, i requires 0 <= i < |ops| => Inside(ops[i]))
  }

  function Removals(listing: seq<Slot>): seq<FileOp> {
    seq(|listing|, i requires 0 <= i < |listing| => Remove(listing[i]))
  }

  /** Clears what an earlier process left without a terminal result. */
  function ClearPart(path: AttemptPath, listing: seq<Slot>): seq<PathOp> {
    if path.Directory? then Lift(Removals(listing)) + [RemoveDir] else []
  }

  function RunPart(h: Harness, x: Expectation, w: Work): seq<PathOp>
    requires WellFormed(w.generation)
  {
    [MakeDir] + When(x.policy.ModelPolicy?, AskModel(w.generation)) + Lift(FreshOps(h, PlanOf(x), w.generation, w.seed))
  }

  /** resume_eval_suite, for one attempt: what its decision makes the session do. */
  function AttemptOps(h: Harness, x: Expectation, path: AttemptPath, w: Work): seq<PathOp>
    requires WellFormed(w.generation)
  {
    match Classify(h, x, path)
    case ReuseCompleted => []
    case Reject => []
    case ReuseGeneration => Lift(ResumeOps(h, path.files, w.seed, w.order))
    case RunAttempt => ClearPart(path, w.listing) + RunPart(h, x, w)
  }

  /** The environment's side of the bargain. */
  ghost predicate Fits(x: Expectation, w: Work) {
    && WellFormed(w.generation) && w.generation.taskManifestPath == x.taskManifestPath
    && (x.policy.ModelPolicy? && Terminal(w.generation) ==> w.generation.taskId == x.taskId)
    && AttemptRecovery.Covers(w.order)
    && (forall s: Slot :: s in w.listing)
  }

  ghost predicate HarnessLaws(h: Harness) {
    AttemptRecovery.StableRedaction(h) && OneDiffHash(h)
  }

  // ---------------------------------------------------------------- reachable attempts

  predicate Uncommitted(d: Dir) {
    FinalManifest !in d && GenerationManifest !in d
  }

  /** A generation that belongs to this declared attempt. */
  predicate Belongs(x: Expectation, g: Generation) {
    && x.policy.ModelPolicy? && AttemptRecovery.Published(PlanOf(x), g)
    && g.taskId == x.taskId && g.taskManifestPath == x.taskManifestPath
  }

  /** The model's answer on disk is the last one asked for, and the directory is on its way to the final record. */
  ghost predicate CommittedTo(h: Harness, x: Expectation, s: AttemptState) {
    && s.path.Directory? && |s.asked| > 0
    && var g := s.asked[|s.asked| - 1];
       && Belongs(x, g) && AttemptRecovery.Settled(h, PlanOf(x), g, s.path.files)
  }

  ghost predicate ControlFinished(h: Harness, x: Expectation, s: AttemptState) {
    && s.path.Directory? && x.policy.ControlPolicy?
    && exists g, seed ::
         WellFormed(g) && g.taskManifestPath == x.taskManifestPath && s.path.files == ControlDir(h, x, g, seed)
  }

  predicate Unstarted(s: AttemptState) {
    s.path.Absent? || (s.path.Directory? && Uncommitted(s.path.files))
  }

  /** Everything sessions can make of an attempt. */
  ghost predicate Sound(h: Harness, x: Expectation, s: AttemptState) {
    Unstarted(s) || CommittedTo(h, x, s) || ControlFinished(h, x, s)
  }

  // ---------------------------------------------------------------- running lists of operations

  lemma {:induction false} RunConcat(s: AttemptState, a: seq<PathOp>, b: seq<PathOp>)
    ensures Run(s, a + b) == Run(Run(s, a), b)
  {
    if |b| == 0 {
      assert a + b == a;
    } else {
      assert (a + b)[..|a + b| - 1] == a + b[..|b| - 1];
      RunConcat(s, a, b[..|b| - 1]);
    }
  }

  lemma RunPrefix(s: AttemptState, a: seq<PathOp>, b: seq<PathOp>, k: nat)
    requires k <= |a + b|
    ensures Run(s, (a + b)[..k]) == if k <= |a| then Run(s, a[..k]) else Run(Run(s, a), b[..k - |a|])
  {
    if k <= |a| {
      assert (a + b)[..k] == a[..k];
    } else {
      assert (a + b)[..k] == a + b[..k - |a|];
      RunConcat(s, a, b[..k - |a|]);
    }
  }

  lemma {:induction false} RunLifted(s: AttemptState, ops: seq<FileOp>)
    requires s.path.Directory?
    ensures Run(s, Lift(ops)) == s.(path := Directory(Exec(s.path.files, ops)))
  {
    if |ops| > 0 {
      RunLifted(s, ops[..|ops| - 1]);
      assert Lift(ops)[..|ops| - 1] == Lift(ops[..|ops| - 1]);
    }
  }

  lemma RunLiftedPrefix(s: AttemptState, ops: seq<FileOp>, k: nat)
    requires s.path.Directory? && k <= |ops|
    ensures Run(s, Lift(ops)[..k]) == s.(path := Directory(CrashAfter(s.path.files, ops, k)))
  {
    assert Lift(ops)[..k] == Lift(ops[..k]);
    RunLifted(s, ops[..k]);
  }

  lemma RunOne(s: AttemptState, op: PathOp)
    ensures Run(s, [op]) == Step(s, op)
  {
    assert [op][..0] == [];
  }

  // ---------------------------------------------------------------- decisions on reachable attempts

  predicate Finished(s: AttemptState) {
    s.path.Directory? && FinalManifest in s.path.files
  }

  predicate Resumable(h: Harness, x: Expectation, g: Generation, d: Dir) {
    Belongs(x, g) && AttemptRecovery.Midway(d, AttemptRecovery.Committed(h, PlanOf(x), g))
  }

  lemma MidwayIsResumed(h: Harness, x: Expectation, g: Generation, d: Dir)
    requires HarnessLaws(h) && Belongs(x, g) && AttemptRecovery.Midway(d, AttemptRecovery.Committed(h, PlanOf(x), g))
    ensures Classify(h, x, Directory(d)) == ReuseGeneration && FinalManifest !in d && GenerationManifest in d
  {
    AttemptRecovery.CommittedLoads(h, PlanOf(x), g, d);
    MidwayIsUnfinished(h, PlanOf(x), g, d);
  }

  lemma FinalIsReused(h: Harness, x: Expectation, g: Generation, seed: Seed)
    requires HarnessLaws(h) && Belongs(x, g)
    ensures var d := AttemptRecovery.FinalDir(h, PlanOf(x), g, seed);
      Classify(h, x, Directory(d)) == ReuseCompleted && FinalManifest in d && GenerationManifest in d
  {
    AttemptRecovery.FinishedIsFinal(h, PlanOf(x), g, seed);
    FinishedModelAttemptIsAccepted(h, x, g, seed);
    var d := AttemptRecovery.FinalDir(h, PlanOf(x), g, seed);
    CommittedHasManifest(h, PlanOf(x), g, d);
    AcceptedIsReused(h, x, d);
  }

  lemma AcceptedIsReused(h: Harness, x: Expectation, d: Dir)
    requires FinalManifest in d && CompletedAccepted(h, d, x)
    ensures Classify(h, x, Directory(d)) == ReuseCompleted
  {
  }

  lemma CommittedIsClassified(h: Harness, x: Expectation, s: AttemptState)
    requires HarnessLaws(h) && CommittedTo(h, x, s)
    ensures Classify(h, x, s.path) == if Finished(s) then ReuseCompleted else ReuseGeneration
    ensures Finished(s) || Resumable(h, x, s.asked[|s.asked| - 1], s.path.files)
    ensures GenerationManifest in s.path.files
  {
    var g, d, plan := s.asked[|s.asked| - 1], s.path.files, PlanOf(x);
    if AttemptRecovery.Midway(d, AttemptRecovery.Committed(h, plan, g)) {
      MidwayIsResumed(h, x, g, d);
    } else {
      var seed :| d == AttemptRecovery.FinalDir(h, plan, g, seed);
      FinalIsReused(h, x, g, seed);
    }
  }

  lemma CommittedHasManifest(h: Harness, plan: Plan, g: Generation, d: Dir)
    requires AttemptRecovery.Published(plan, g) && AttemptRecovery.Holds(d, AttemptRecovery.Committed(h, plan, g))
    ensures GenerationManifest in d
  {
    assert GenerationManifest in AttemptRecovery.Committed(h, plan, g);
  }

  lemma MidwayIsUnfinished(h: Harness, plan: Plan, g: Generation, d: Dir)
    requires AttemptRecovery.Published(plan, g) && AttemptRecovery.Midway(d, AttemptRecovery.Committed(h, plan, g))
    ensures FinalManifest !in d && GenerationManifest in d
  {
    CommittedHasManifest(h, plan, g, d);
    assert FinalManifest !in AttemptRecovery.Committed(h, plan, g);
  }

  lemma ControlIsFinished(h: Harness, x: Expectation, s: AttemptState)
    requires HarnessLaws(h) && ControlFinished(h, x, s)
    ensures Finished(s) && Classify(h, x, s.path) in {ReuseCompleted, Reject}
  {
    var g, seed :| WellFormed(g) && g.taskManifestPath == x.taskManifestPath && s.path.files == ControlDir(h, x, g, seed);
    UninterruptedIsAccepted(h, PlanOf(x), g, seed);
  }

  /**
   Classification is exact on everything sessions can produce: run what has no terminal result, resume what has
   a generation only, reuse what is finished; a model attempt is never rejected.
   */
  lemma ClassificationIsExact(h: Harness, x: Expectation, s: AttemptState)
    requires HarnessLaws(h) && Sound(h, x, s)
    ensures Classify(h, x, s.path) == RunAttempt <==> Unstarted(s)
    ensures Classify(h, x, s.path) == ReuseGeneration <==> CommittedTo(h, x, s) && !Finished(s)
    ensures x.policy.ModelPolicy? ==> (Classify(h, x, s.path) == ReuseCompleted <==> CommittedTo(h, x, s) && Finished(s))
    ensures x.policy.ModelPolicy? ==> Classify(h, x, s.path) != Reject
  {
    if CommittedTo(h, x, s) {
      CommittedIsClassified(h, x, s);
    } else if ControlFinished(h, x, s) {
      ControlIsFinished(h, x, s);
    }
  }

  // ---------------------------------------------------------------- one session, one attempt

  /** Clearing an unstarted attempt never makes it look started, and leaves nothing behind. */
  lemma ClearingStaysUnstarted(s: AttemptState, listing: seq<Slot>, k: nat)
    requires Unstarted(s) && k <= |ClearPart(s.path, listing)|
    ensures var after := Run(s, ClearPart(s.path, listing)[..k]);
      && Unstarted(after) && after.asked == s.asked
      && (k == |ClearPart(s.path, listing)| ==> after.path.Absent?)
  {
    if s.path.Directory? {
      var removals := Removals(listing);
      RunPrefix(s, Lift(removals), [RemoveDir], k);
      if k <= |removals| {
        RunLiftedPrefix(s, removals, k);
        ExecRemoves(s.path.files, removals[..k]);
      } else {
        RunLifted(s, removals);
        assert [RemoveDir][..k - |removals|] == [RemoveDir];
        RunOne(Run(s, Lift(removals)), RemoveDir);
      }
    } else {
      assert ClearPart(s.path, listing)[..k] == [];
    }
  }

  function Head(x: Expectation, w: Work): seq<PathOp> {
    [MakeDir] + When(x.policy.ModelPolicy?, AskModel(w.generation))
  }

  function AskedBy(x: Expectation, s: AttemptState, w: Work): seq<Generation> {
    if x.policy.ModelPolicy? then s.asked + [w.generation] else s.asked
  }

  lemma HeadRuns(x: Expectation, s: AttemptState, w: Work, k: nat)
    requires s.path.Absent? && k <= |Head(x, w)|
    ensures Unstarted(Run(s, Head(x, w)[..k]))
    ensures Run(s, Head(x, w)[..k]).asked in {s.asked, AskedBy(x, s, w)}
    ensures Run(s, Head(x, w)) == AttemptState(Directory(map[]), AskedBy(x, s, w))
  {
    RunOne(s, MakeDir);
    var made := Run(s, [MakeDir]);
    if x.policy.ModelPolicy? {
      assert Head(x, w) == [MakeDir] + [AskModel(w.generation)];
      RunConcat(s, [MakeDir], [AskModel(w.generation)]);
      RunOne(made, AskModel(w.generation));
      assert Head(x, w)[..k] == if k == 0 then [] else if k == 1 then [MakeDir] else Head(x, w);
    } else {
      assert Head(x, w) == [MakeDir];
      assert Head(x, w)[..k] == if k == 0 then [] else [MakeDir];
    }
  }

  /** Cutting a fresh run of a declared attempt anywhere leaves it unstarted, committed to its answer, or finished. */
  lemma FreshRunIsSound(h: Harness, x: Expectation, w: Work, asked: seq<Generation>, k: nat)
    requires HarnessLaws(h) && Fits(x, w) && k <= |FreshOps(h, PlanOf(x), w.generation, w.seed)|
    requires x.policy.ModelPolicy? ==> |asked| > 0 && asked[|asked| - 1] == w.generation
    ensures var after := AttemptState(Directory(CrashAfter(map[], FreshOps(h, PlanOf(x), w.generation, w.seed), k)), asked);
      && Sound(h, x, after)
      && (k == |FreshOps(h, PlanOf(x), w.generation, w.seed)| && (x.policy.ModelPolicy? ==> Terminal(w.generation)) ==> Finished(after))
  {
    var plan, g := PlanOf(x), w.generation;
    var ops := FreshOps(h, plan, g, w.seed);
    if x.policy.ControlPolicy? {
      ControlRunIsSound(h, x, w, asked, k);
    } else if Terminal(g) {
      assert AttemptRecovery.Published(plan, g);
      var n := |GenerationOps(h, plan, g)|;
      if k < n {
        CrashInFirst(map[], GenerationOps(h, plan, g), WriteOps(h, plan, FinishPublished(h, g, w.seed), true), k);
        AttemptRecovery.GenerationIsAtomic(h, plan, g, k);
      } else {
        AttemptRecovery.FreshCrashIsSettled(h, plan, g, w.seed, k);
        AttemptRecovery.FreshCrash(h, plan, g, w.seed, k);
        AttemptRecovery.FinishedIsFinal(h, plan, g, w.seed);
      }
    } else {
      assert ops == [];
    }
  }

  lemma ControlRunIsSound(h: Harness, x: Expectation, w: Work, asked: seq<Generation>, k: nat)
    requires HarnessLaws(h) && Fits(x, w) && x.policy.ControlPolicy? && k <= |FreshOps(h, PlanOf(x), w.generation, w.seed)|
    ensures var after := AttemptState(Directory(CrashAfter(map[], FreshOps(h, PlanOf(x), w.generation, w.seed), k)), asked);
      Sound(h, x, after) && (k == |FreshOps(h, PlanOf(x), w.generation, w.seed)| ==> Finished(after))
  {
    var plan, g := PlanOf(x), w.generation;
    var ops := FreshOps(h, plan, g, w.seed);
    if k == |ops| {
      assert ops[..k] == ops;
      UninterruptedIsAccepted(h, plan, g, w.seed);
      assert ControlDir(h, x, g, w.seed) == CrashAfter(map[], ops, k);
    } else {
      if FinalManifest in CrashAfter(map[], ops, k) {
        FinalManifestIsLast(h, plan, g, w.seed, k);
        assert false;
      }
      NoGenerationManifest(h, plan, g, w.seed, k);
    }
  }

  lemma NoGenerationManifest(h: Harness, plan: Plan, g: Generation, seed: Seed, k: nat)
    requires WellFormed(g) && Allowed(plan) && !Declared(plan) && k <= |FreshOps(h, plan, g, seed)|
    ensures GenerationManifest !in CrashAfter(map[], FreshOps(h, plan, g, seed), k)
  {
    var run := FinishedRun(h, plan, g, seed);
    WritesNoManifest(h, plan, run);
    var done := FreshOps(h, plan, g, seed)[..k];
    assert AllWrites(done) && forall i :: 0 <= i < |done| ==> done[i].slot != GenerationManifest;
    ExecWrites(map[], done);
  }

  /** A fresh directory, and the model asked if it is a model attempt: nothing has started yet. */
  lemma HeadIsUnstarted(h: Harness, x: Expectation, s: AttemptState, w: Work, k: nat)
    requires s.path.Absent? && WellFormed(w.generation) && k < |Head(x, w)|
    ensures var after := Run(s, RunPart(h, x, w)[..k]); Unstarted(after) && after.asked in {s.asked, AskedBy(x, s, w)}
  {
    var head, writes := Head(x, w), FreshOps(h, PlanOf(x), w.generation, w.seed);
    assert RunPart(h, x, w) == head + Lift(writes);
    RunPrefix(s, head, Lift(writes), k);
    HeadRuns(x, s, w, k);
  }

  lemma HeadThenWrites(h: Harness, x: Expectation, s: AttemptState, w: Work, k: nat)
    requires s.path.Absent? && WellFormed(w.generation) && |Head(x, w)| <= k <= |RunPart(h, x, w)|
    ensures k - |Head(x, w)| <= |FreshOps(h, PlanOf(x), w.generation, w.seed)|
    ensures Run(s, RunPart(h, x, w)[..k]) ==
      AttemptState(Directory(CrashAfter(map[], FreshOps(h, PlanOf(x), w.generation, w.seed), k - |Head(x, w)|)), AskedBy(x, s, w))
  {
    var head, writes := Head(x, w), FreshOps(h, PlanOf(x), w.generation, w.seed);
    assert RunPart(h, x, w) == head + Lift(writes);
    RunPrefix(s, head, Lift(writes), k);
    HeadRuns(x, s, w, |head|);
    assert head[..|head|] == head && Lift(writes)[..0] == [];
    RunLiftedPrefix(Run(s, head), writes, k - |head|);
  }

  /** What a session makes of an attempt it has cleared. */
  lemma ClearedRunIsSound(h: Harness, x: Expectation, s: AttemptState, w: Work, k: nat)
    requires HarnessLaws(h) && s.path.Absent? && Fits(x, w) && k <= |RunPart(h, x, w)|
    ensures var after := Run(s, RunPart(h, x, w)[..k]);
      && Sound(h, x, after)
      && after.asked in {s.asked, AskedBy(x, s, w)}
      && (k == |RunPart(h, x, w)| && (x.policy.ModelPolicy? ==> Terminal(w.generation)) ==> Finished(after))
  {
    assert RunPart(h, x, w) == Head(x, w) + Lift(FreshOps(h, PlanOf(x), w.generation, w.seed));
    if k < |Head(x, w)| {
      HeadIsUnstarted(h, x, s, w, k);
    } else {
      HeadThenWrites(h, x, s, w, k);
      FreshRunIsSound(h, x, w, AskedBy(x, s, w), k - |Head(x, w)|);
    }
  }

  lemma RunStep(h: Harness, x: Expectation, s: AttemptState, w: Work, k: nat)
    requires HarnessLaws(h) && Unstarted(s) && Fits(x, w) && k <= |AttemptOps(h, x, s.path, w)|
    ensures var after := Run(s, AttemptOps(h, x, s.path, w)[..k]);
      && Sound(h, x, after)
      && after.asked in {s.asked, AskedBy(x, s, w)}
      && (k == |AttemptOps(h, x, s.path, w)| && (x.policy.ModelPolicy? ==> Terminal(w.generation)) ==> Finished(after))
  {
    var clear, run := ClearPart(s.path, w.listing), RunPart(h, x, w);
    RunPrefix(s, clear, run, k);
    if k < |clear| {
      ClearingStaysUnstarted(s, w.listing, k);
    } else {
      assert clear[..|clear|] == clear && run[..0] == [];
      RunAfterClearing(h, x, s, w, k - |clear|);
    }
  }

  lemma RunAfterClearing(h: Harness, x: Expectation, s: AttemptState, w: Work, k: nat)
    requires HarnessLaws(h) && Unstarted(s) && Fits(x, w) && k <= |RunPart(h, x, w)|
    ensures var after := Run(Run(s, ClearPart(s.path, w.listing)), RunPart(h, x, w)[..k]);
      && Sound(h, x, after)
      && after.asked in {s.asked, AskedBy(x, s, w)}
      && (k == |RunPart(h, x, w)| && (x.policy.ModelPolicy? ==> Terminal(w.generation)) ==> Finished(after))
  {
    var clear := ClearPart(s.path, w.listing);
    ClearingStaysUnstarted(s, w.listing, |clear|);
    assert clear[..|clear|] == clear;
    ClearedRunIsSound(h, x, Run(s, clear), w, k);
  }

  lemma ResumeUnfinished(h: Harness, x: Expectation, s: AttemptState, w: Work, k: nat)
    requires HarnessLaws(h) && Fits(x, w) && s.path.Directory? && |s.asked| > 0
    requires Resumable(h, x, s.asked[|s.asked| - 1], s.path.files) && k <= |ResumeOps(h, s.path.files, w.seed, w.order)|
    ensures var ops := ResumeOps(h, s.path.files, w.seed, w.order);
      var after := Run(s, Lift(ops)[..k]);
      CommittedTo(h, x, after) && after.asked == s.asked && (k == |ops| ==> Finished(after))
  {
    ResumableSettles(h, x, s.asked[|s.asked| - 1], s.path.files, w, k);
    SettlesAfter(h, x, s, ResumeOps(h, s.path.files, w.seed, w.order), k);
  }

  lemma UnfinishedOps(h: Harness, x: Expectation, s: AttemptState, w: Work)
    requires HarnessLaws(h) && CommittedTo(h, x, s) && WellFormed(w.generation)
    ensures AttemptOps(h, x, s.path, w) == if Finished(s) then [] else Lift(ResumeOps(h, s.path.files, w.seed, w.order))
    ensures Finished(s) || Resumable(h, x, s.asked[|s.asked| - 1], s.path.files)
  {
    CommittedIsClassified(h, x, s);
  }

  lemma ResumeStep(h: Harness, x: Expectation, s: AttemptState, w: Work, k: nat)
    requires HarnessLaws(h) && CommittedTo(h, x, s) && Fits(x, w) && k <= |AttemptOps(h, x, s.path, w)|
    ensures var after := Run(s, AttemptOps(h, x, s.path, w)[..k]);
      && CommittedTo(h, x, after) && after.asked == s.asked
      && (Finished(s) ==> after == s)
      && (k == |AttemptOps(h, x, s.path, w)| ==> Finished(after))
  {
    UnfinishedOps(h, x, s, w);
    if Finished(s) {
      assert AttemptOps(h, x, s.path, w)[..k] == [];
    } else {
      ResumeUnfinished(h, x, s, w, k);
    }
  }

  lemma ResumableSettles(h: Harness, x: Expectation, g: Generation, d: Dir, w: Work, k: nat)
    requires HarnessLaws(h) && Fits(x, w) && Resumable(h, x, g, d) && k <= |ResumeOps(h, d, w.seed, w.order)|
    ensures AttemptRecovery.Settled(h, PlanOf(x), g, CrashAfter(d, ResumeOps(h, d, w.seed, w.order), k))
    ensures k == |ResumeOps(h, d, w.seed, w.order)| ==> FinalManifest in CrashAfter(d, ResumeOps(h, d, w.seed, w.order), k)
  {
    AttemptRecovery.ResumeCrashSettles(h, PlanOf(x), g, d, w.seed, w.order, k);
  }

  lemma SettlesAfter(h: Harness, x: Expectation, s: AttemptState, ops: seq<FileOp>, k: nat)
    requires s.path.Directory? && |s.asked| > 0 && Belongs(x, s.asked[|s.asked| - 1]) && k <= |ops|
    requires AttemptRecovery.Settled(h, PlanOf(x), s.asked[|s.asked| - 1], CrashAfter(s.path.files, ops, k))
    ensures var after := Run(s, Lift(ops)[..k]);
      CommittedTo(h, x, after) && after.asked == s.asked && after.path == Directory(CrashAfter(s.path.files, ops, k))
  {
    RunLiftedPrefix(s, ops, k);
  }

  /** The answer this session would get is needed: the attempt is run, and only a terminal answer gets it through. */
  predicate Needed(h: Harness, x: Expectation, path: AttemptPath) {
    x.policy.ModelPolicy? && Classify(h, x, path) == RunAttempt
  }

  lemma UnstartedIsRun(h: Harness, x: Expectation, s: AttemptState)
    requires HarnessLaws(h) && Unstarted(s)
    ensures Classify(h, x, s.path) == RunAttempt && !CommittedTo(h, x, s) && !Finished(s)
  {
    if CommittedTo(h, x, s) {
      CommittedIsClassified(h, x, s);
    }
  }

  /** One session, cut anywhere, on any reachable attempt. */
  lemma AttemptStep(h: Harness, x: Expectation, s: AttemptState, w: Work, k: nat)
    requires HarnessLaws(h) && Sound(h, x, s) && Fits(x, w) && k <= |AttemptOps(h, x, s.path, w)|
    ensures var after := Run(s, AttemptOps(h, x, s.path, w)[..k]);
      && Sound(h, x, after)
      && (CommittedTo(h, x, s) ==> CommittedTo(h, x, after) && after.asked == s.asked)
      && (Finished(s) ==> after == s)
      && |s.asked| <= |after.asked| <= |s.asked| + 1
      && (k == |AttemptOps(h, x, s.path, w)| && (Needed(h, x, s.path) ==> Terminal(w.generation)) ==> Finished(after))
  {
    if Unstarted(s) {
      RunStep(h, x, s, w, k);
      UnstartedIsRun(h, x, s);
    } else if CommittedTo(h, x, s) {
      ResumeStep(h, x, s, w, k);
    } else {
      ControlIsFinished(h, x, s);
      assert AttemptOps(h, x, s.path, w)[..k] == [];
    }
  }

  // ---------------------------------------------------------------- whole sessions

  /** Where a session died: at which attempt, after how many of its operations. */
  datatype Cut = Cut(attempt: nat, ops: nat)

  datatype Session = Session(works: seq<Work>, dies: Option<Cut>)

  ghost predicate SessionFits(xs: seq<Expectation>, t: Session) {
    |t.works| == |xs| && forall i :: 0 <= i < |xs| ==> Fits(xs[i], t.works[i])
  }

  /** The first attempt at or after i whose answer is needed and is not terminal: there the session raises. */
  function FirstAbort(h: Harness, xs: seq<Expectation>, states: seq<AttemptState>, works: seq<Work>, i: nat): (n: nat)
    requires |xs| == |states| == |works| && i <= |xs|
    ensures i <= n <= |xs|
    ensures forall j :: i <= j < n ==> Needed(h, xs[j], states[j].path) ==> Terminal(works[j].generation)
    decreases |xs| - i
  {
    if i == |xs| || (Needed(h, xs[i], states[i].path) && !Terminal(works[i].generation)) then i
    else FirstAbort(h, xs, states, works, i + 1)
  }

  /** How many of attempt i's operations the session completes. */
  function Budget(h: Harness, xs: seq<Expectation>, states: seq<AttemptState>, t: Session, i: nat): (n: nat)
    requires |xs| == |states| == |t.works| && i < |xs| && WellFormed(t.works[i].generation)
    ensures n <= |AttemptOps(h, xs[i], states[i].path, t.works[i])|
  {
    var all := |AttemptOps(h, xs[i], states[i].path, t.works[i])|;
    var aborts := FirstAbort(h, xs, states, t.works, 0);
    if i > aborts || (t.dies.Some? && i > t.dies.value.attempt) then 0
    else if t.dies.Some? && i == t.dies.value.attempt && t.dies.value.ops < all then t.dies.value.ops
    else all
  }

  /** resume_eval_suite up to its second classification: attempts in declared order, until it raises or dies. */
  ghost function AfterSession(h: Harness, xs: seq<Expectation>, states: seq<AttemptState>, t: Session): (after: seq<AttemptState>)
    requires |xs| == |states| && SessionFits(xs, t)
    ensures |after| == |xs|
  {
    seq(|xs|, i requires 0 <= i < |xs| => assert Fits(xs[i], t.works[i]);
      Run(states[i], AttemptOps(h, xs[i], states[i].path, t.works[i])[..Budget(h, xs, states, t, i)]))
  }

  ghost predicate AllFit(xs: seq<Expectation>, ts: seq<Session>) {
    forall i :: 0 <= i < |ts| ==> SessionFits(xs, ts[i])
  }

  ghost function AfterSessions(h: Harness, xs: seq<Expectation>, states: seq<AttemptState>, ts: seq<Session>): (after: seq<AttemptState>)
    requires |xs| == |states| && AllFit(xs, ts)
    ensures |after| == |xs|
  {
    if |ts| == 0 then states
    else
      assert AllFit(xs, ts[..|ts| - 1]);
      AfterSession(h, xs, AfterSessions(h, xs, states, ts[..|ts| - 1]), ts[|ts| - 1])
  }

  /**
   No resampling, for one attempt among arbitrary others.  Across any number of sessions, each cut anywhere:
   the attempt stays sound; each session asks the model for it at most once; once committed, its answer and the
   files that hold it never change and the model is not asked again; once finished, nothing about it changes.
   */
  lemma {:induction false} NeverResampled(h: Harness, xs: seq<Expectation>, states: seq<AttemptState>, ts: seq<Session>, i: nat)
    requires |xs| == |states| && AllFit(xs, ts) && i < |xs|
    requires HarnessLaws(h) && Sound(h, xs[i], states[i])
    ensures var before, after := states[i], AfterSessions(h, xs, states, ts)[i];
      && Sound(h, xs[i], after)
      && |before.asked| <= |after.asked| <= |before.asked| + |ts|
      && (CommittedTo(h, xs[i], before) ==> CommittedTo(h, xs[i], after) && after.asked == before.asked)
      && (Finished(before) ==> after == before)
  {
    if |ts| > 0 {
      var last := ts[|ts| - 1];
      assert AllFit(xs, ts[..|ts| - 1]);
      NeverResampled(h, xs, states, ts[..|ts| - 1], i);
      var mid := AfterSessions(h, xs, states, ts[..|ts| - 1]);
      assert Fits(xs[i], last.works[i]);
      AttemptStep(h, xs[i], mid[i], last.works[i], Budget(h, xs, mid, last, i));
    }
  }

  /** What a committed attempt's directory shows. */
  lemma CommittedKeepsItsAnswer(h: Harness, x: Expectation, s: AttemptState)
    requires CommittedTo(h, x, s)
    ensures AttemptRecovery.Holds(s.path.files, AttemptRecovery.Committed(h, PlanOf(x), s.asked[|s.asked| - 1]))
    ensures LoadGeneration(h, s.path.files) == Some(AttemptRecovery.LoadedOf(h, PlanOf(x), s.asked[|s.asked| - 1]))
  {
    var g, d, plan := s.asked[|s.asked| - 1], s.path.files, PlanOf(x);
    if !AttemptRecovery.Midway(d, AttemptRecovery.Committed(h, plan, g)) {
      var seed :| d == AttemptRecovery.FinalDir(h, plan, g, seed);
      AttemptRecovery.FinishedIsFinal(h, plan, g, seed);
    }
    AttemptRecovery.CommittedLoads(h, plan, g, d);
  }

  /** However often it was interrupted, a finished model attempt is what one uninterrupted run of its answer leaves. */
  lemma FinishedMatchesUninterrupted(h: Harness, x: Expectation, s: AttemptState, seed: Seed)
    requires AttemptRecovery.DeterministicScorer(h) && CommittedTo(h, x, s) && Finished(s)
    ensures EraseDir(h, s.path.files) == EraseDir(h, Exec(map[], FreshOps(h, PlanOf(x), s.asked[|s.asked| - 1], seed)))
  {
    AttemptRecovery.SettledMeans(h, PlanOf(x), s.asked[|s.asked| - 1], s.path.files, seed);
    AttemptRecovery.UninterruptedIsFinal(h, PlanOf(x), s.asked[|s.asked| - 1], seed);
  }

  /** A session that neither dies nor gets a non-terminal answer it needs finishes every sound attempt. */
  lemma OneGoodSessionFinishes(h: Harness, xs: seq<Expectation>, states: seq<AttemptState>, t: Session, i: nat)
    requires |xs| == |states| && SessionFits(xs, t) && i < |xs|
    requires HarnessLaws(h) && Sound(h, xs[i], states[i])
    requires t.dies.None? && forall j :: 0 <= j < |xs| && Needed(h, xs[j], states[j].path) ==> Terminal(t.works[j].generation)
    ensures var after := AfterSession(h, xs, states, t)[i];
      && Finished(after)
      && (xs[i].policy.ModelPolicy? ==> Classify(h, xs[i], after.path) == ReuseCompleted)
  {
    AbortsNowhere(h, xs, states, t.works, 0);
    assert Fits(xs[i], t.works[i]);
    var all := |AttemptOps(h, xs[i], states[i].path, t.works[i])|;
    AttemptStep(h, xs[i], states[i], t.works[i], all);
    var after := AfterSession(h, xs, states, t)[i];
    ClassificationIsExact(h, xs[i], after);
  }

  lemma {:induction false} AbortsNowhere(h: Harness, xs: seq<Expectation>, states: seq<AttemptState>, works: seq<Work>, i: nat)
    requires |xs| == |states| == |works| && i <= |xs|
    requires forall j :: 0 <= j < |xs| && Needed(h, xs[j], states[j].path) ==> Terminal(works[j].generation)
    ensures FirstAbort(h, xs, states, works, i) == |xs|
    decreases |xs| - i
  {
    if i < |xs| {
      AbortsNowhere(h, xs, states, works, i + 1);
    }
  }

  /** A committed file that no longer hashes to what the manifest recorded gets its attempt rejected. */
  lemma TamperingIsRejected(h: Harness, x: Expectation, d: Dir, name: ArtifactName)
    requires x.policy.ModelPolicy? && GenerationManifest in d && d[GenerationManifest].GenerationFile?
    requires var m := d[GenerationManifest].generation;
      name in m.artifacts && m.artifacts[name] in d && name in m.artifactHashes && h.hash(d[m.artifacts[name]]) != m.artifactHashes[name]
    ensures Classify(h, x, Directory(d)) == Reject
  {
    var m := d[GenerationManifest].generation;
    if ValidGenerationRecord(m) {
      assert !ArtifactsIntact(h, d, m);
    }
    assert LoadGeneration(h, d).None?;
  }

  /** A rejected attempt, however it got that way, is never touched again; the others are not held up by it. */
  lemma {:induction false} RejectedIsLeftAlone(h: Harness, xs: seq<Expectation>, states: seq<AttemptState>, ts: seq<Session>, i: nat)
    requires |xs| == |states| && AllFit(xs, ts) && i < |xs|
    requires Classify(h, xs[i], states[i].path) == Reject
    ensures AfterSessions(h, xs, states, ts)[i] == states[i]
  {
    if |ts| > 0 {
      var last := ts[|ts| - 1];
      assert AllFit(xs, ts[..|ts| - 1]);
      RejectedIsLeftAlone(h, xs, states, ts[..|ts| - 1], i);
      var mid := AfterSessions(h, xs, states, ts[..|ts| - 1]);
      assert Fits(xs[i], last.works[i]);
      assert AttemptOps(h, xs[i], mid[i].path, last.works[i])[..Budget(h, xs, mid, last, i)] == [];
    }
  }
}
