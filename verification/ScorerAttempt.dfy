/**
 The scorer attempt: one submission patch is applied to a fresh workspace, then public checks and
 hidden validators run.  Any step may time out or raise; the except clauses turn that into a status
 that depends on the phase in which it happened.
 */
module ScorerAttempt {
  import opened Wrappers

  type Hash = int

  datatype AttemptStatus =
    | Pass
    | PatchApplyError
    | PublicTestFail
    | HiddenTestFail
    | InvalidShortcut
    | HiddenValidatorAccessAttempt
    | OrchestratorError
    | Timeout

  datatype CheckStatus = Passed | Failed | NotRun

  function StatusName(s: AttemptStatus): string {
    match s
    case Pass => "PASS"
    case PatchApplyError => "PATCH_APPLY_ERROR"
    case PublicTestFail => "PUBLIC_TEST_FAIL"
    case HiddenTestFail => "HIDDEN_TEST_FAIL"
    case InvalidShortcut => "INVALID_SHORTCUT"
    case HiddenValidatorAccessAttempt => "HIDDEN_VALIDATOR_ACCESS_ATTEMPT"
    case OrchestratorError => "ORCHESTRATOR_ERROR"
    case Timeout => "TIMEOUT"
  }

  function CheckName(s: CheckStatus): string {
    match s case Passed => "PASS" case Failed => "FAIL" case NotRun => "NOT_RUN"
  }

  datatype Phase = Setup | PatchApply | PublicCheck | HiddenScore

  /** What can leave a step: its value, a subprocess timeout, or any other exception. */
  datatype Exn = TimeoutExpired | Raised(errorClass: string, message: string)

  datatype Step<+T> = Done(value: T) | Threw(exn: Exn)

  datatype CommandResult = CommandResult(returncode: int, stdout: string, stderr: string)

  datatype HiddenResult = HiddenResult(validatorId: string, passed: bool, command: CommandResult)

  datatype CommandName = SubmissionPatch | PublicCheckName(index: nat) | ValidatorName(id: string)

  datatype AttemptCommand = AttemptCommand(phase: Phase, name: CommandName, result: CommandResult)

  datatype Identity = Identity(scorerAttemptId: string, taskId: string, taskManifestPath: string, submissionPath: string)

  datatype Clock = Clock(startedAt: string, endedAt: string, durationMs: nat)

  /** Everything the outside world answers during one attempt. */
  datatype World = World(
    identity: Identity,
    clock: Clock,
    workspace: Step<()>,
    submission: Step<string>,
    hiddenReference: Step<bool>,
    modifiesPublicTests: Step<bool>,
    patch: Step<CommandResult>,
    diff: Step<string>,
    publicChecks: seq<Step<CommandResult>>,
    hiddenValidators: seq<Step<HiddenResult>>,
    hashDiff: string -> Hash)

  datatype AttemptResult = AttemptResult(
    identity: Identity,
    clock: Clock,
    status: AttemptStatus,
    publicStatus: CheckStatus,
    hiddenStatus: CheckStatus,
    errorClass: Option<string>,
    finalDiffHash: Option<Hash>)

  datatype AttemptRun = AttemptRun(
    result: AttemptResult,
    commands: seq<AttemptCommand>,
    finalDiff: string,
    errorDetails: Option<Exn>)

  datatype Verdict = Verdict(
    status: AttemptStatus,
    publicStatus: CheckStatus,
    hiddenStatus: CheckStatus,
    errorClass: Option<string>)

  // ---------------------------------------------------------------- acceptance table

  predicate ValidCheckStatuses(status: AttemptStatus, publicStatus: CheckStatus, hiddenStatus: CheckStatus) {
    var pair := (publicStatus, hiddenStatus);
    match status
    case Pass => pair == (Passed, Passed)
    case PublicTestFail => pair == (Failed, NotRun)
    case HiddenTestFail => pair == (Passed, Failed)
    case Timeout => pair in {(NotRun, NotRun), (Failed, NotRun), (Passed, Failed)}
    case _ => pair == (NotRun, NotRun)
  }

  predicate ValidStatusFields(v: Verdict) {
    && ValidCheckStatuses(v.status, v.publicStatus, v.hiddenStatus)
    && (v.status.Pass? <==> v.errorClass.None?)
  }

  predicate ValidAttemptResult(r: AttemptResult) {
    && ValidStatusFields(Verdict(r.status, r.publicStatus, r.hiddenStatus, r.errorClass))
    && (r.status.Pass? ==> r.finalDiffHash.Some?)
  }

  // ---------------------------------------------------------------- reference semantics

  /** A list comprehension over fallible calls: all values, or the first exception. */
  function Collect<T>(steps: seq<Step<T>>): (r: Step<seq<T>>)
    ensures r.Done? <==> forall s :: s in steps ==> s.Done?
    ensures r.Done? ==> |r.value| == |steps| && forall i :: 0 <= i < |steps| ==> steps[i] == Done(r.value[i])
  {
    if |steps| == 0 then Done([])
    else match steps[0]
      case Threw(e) => Threw(e)
      case Done(v) =>
        assert steps == [steps[0]] + steps[1..];
        match Collect(steps[1..])
        case Threw(e) => Threw(e)
        case Done(rest) => Done([v] + rest)
  }

  /** How an attempt ends: its verdict, and the details of an exception that was not a timeout. */
  datatype Ending = Ending(verdict: Verdict, details: Option<Exn>)

  /** A gate either lets the attempt proceed or ends it. */
  datatype Gate = Proceed | Stop(ending: Ending)

  function TimeoutVerdict(phase: Phase): Verdict {
    match phase
    case PatchApply => Verdict(Timeout, NotRun, NotRun, Some("PatchApplyTimeout"))
    case PublicCheck => Verdict(Timeout, Failed, NotRun, Some("PublicCheckTimeout"))
    case HiddenScore => Verdict(Timeout, Passed, Failed, Some("HiddenValidationTimeout"))
    case Setup => Verdict(Timeout, NotRun, NotRun, Some("SetupTimeout"))
  }

  /** The two except clauses. */
  function ExceptionEnding(phase: Phase, e: Exn): Ending {
    match e
    case TimeoutExpired => Ending(TimeoutVerdict(phase), None)
    case Raised(cls, _) => Ending(Verdict(OrchestratorError, NotRun, NotRun, Some(cls)), Some(e))
  }

  function Runs<T>(phase: Phase, s: Step<T>): Gate {
    match s
    case Done(_) => Proceed
    case Threw(e) => Stop(ExceptionEnding(phase, e))
  }

  function Requires<T>(s: Step<T>, ok: T -> bool, otherwise: Verdict): Gate {
    if s.Done? && !ok(s.value) then Stop(Ending(otherwise, None)) else Proceed
  }

  predicate ZeroExit(r: CommandResult) {
    r.returncode == 0
  }

  predicate AllZeroExit(rs: seq<CommandResult>) {
    forall r :: r in rs ==> ZeroExit(r)
  }

  predicate AllPassed(rs: seq<HiddenResult>) {
    forall r :: r in rs ==> r.passed
  }

  const PASS_VERDICT := Verdict(Pass, Passed, Passed, None)
  const HIDDEN_ACCESS := Verdict(HiddenValidatorAccessAttempt, NotRun, NotRun, Some("HiddenValidatorReference"))
  const SHORTCUT := Verdict(InvalidShortcut, NotRun, NotRun, Some("PublicTestModified"))
  const PATCH_FAILED := Verdict(PatchApplyError, NotRun, NotRun, Some("PatchApplyError"))
  const PUBLIC_FAILED := Verdict(PublicTestFail, Failed, NotRun, Some("PublicCheckFailed"))
  const HIDDEN_FAILED := Verdict(HiddenTestFail, Passed, Failed, Some("HiddenCheckFailed"))

  const GATE_COUNT := 13

  /** The attempt as a checklist, in execution order. */
  function GateAt(w: World, i: nat): Gate
    requires i < GATE_COUNT
  {
    match i
    case 0 => Runs(Setup, w.workspace)
    case 1 => Runs(Setup, w.submission)
    case 2 => Runs(Setup, w.hiddenReference)
    case 3 => Requires(w.hiddenReference, b => !b, HIDDEN_ACCESS)
    case 4 => Runs(Setup, w.modifiesPublicTests)
    case 5 => Requires(w.modifiesPublicTests, b => !b, SHORTCUT)
    case 6 => Runs(PatchApply, w.patch)
    case 7 => Runs(PatchApply, w.diff)
    case 8 => Requires(w.patch, ZeroExit, PATCH_FAILED)
    case 9 => Runs(PublicCheck, Collect(w.publicChecks))
    case 10 => Requires(Collect(w.publicChecks), AllZeroExit, PUBLIC_FAILED)
    case 11 => Runs(HiddenScore, Collect(w.hiddenValidators))
    case _ => Requires(Collect(w.hiddenValidators), AllPassed, HIDDEN_FAILED)
  }

  /** The first gate at or after i that stops the attempt, or GATE_COUNT. */
  function StopFrom(w: World, i: nat): (n: nat)
    requires i <= GATE_COUNT
    ensures i <= n <= GATE_COUNT
    decreases GATE_COUNT - i
  {
    if i == GATE_COUNT || GateAt(w, i).Stop? then i else StopFrom(w, i + 1)
  }

  lemma {:induction false} StopFromIsFirst(w: World, i: nat)
    requires i <= GATE_COUNT
    ensures forall k :: i <= k < StopFrom(w, i) ==> GateAt(w, k).Proceed?
    ensures StopFrom(w, i) < GATE_COUNT ==> GateAt(w, StopFrom(w, i)).Stop?
    decreases GATE_COUNT - i
  {
    if i < GATE_COUNT && GateAt(w, i).Proceed? {
      StopFromIsFirst(w, i + 1);
    }
  }

  function EndingOf(w: World): Ending {
    var n := StopFrom(w, 0);
    if n < GATE_COUNT then GateAt(w, n).ending else Ending(PASS_VERDICT, None)
  }

  // Gates to clear before the patch result, the diff and the public results are on record, the hidden phase begins,
  // and its results are on record.
  const PATCH_LOGGED := 7
  const DIFF_RENDERED := 8
  const PUBLIC_LOGGED := 10
  const HIDDEN_STARTED := 11
  const HIDDEN_LOGGED := 12

  predicate Reached(w: World, n: nat)
    requires n <= GATE_COUNT
  {
    StopFrom(w, 0) >= n
  }

  function PublicCommands(rs: seq<CommandResult>): seq<AttemptCommand> {
    seq(|rs|, i requires 0 <= i < |rs| => AttemptCommand(PublicCheck, PublicCheckName(i), rs[i]))
  }

  function HiddenCommands(rs: seq<HiddenResult>): seq<AttemptCommand> {
    seq(|rs|, i requires 0 <= i < |rs| => AttemptCommand(HiddenScore, ValidatorName(rs[i].validatorId), rs[i].command))
  }

  predicate PhaseIs(log: seq<AttemptCommand>, p: Phase) {
    forall i :: 0 <= i < |log| ==> log[i].phase == p
  }

  function PatchPart(w: World): seq<AttemptCommand> {
    if Reached(w, PATCH_LOGGED) then StopFromIsFirst(w, 0); assert GateAt(w, 6).Proceed?; [AttemptCommand(PatchApply, SubmissionPatch, w.patch.value)] else []
  }

  function PublicPart(w: World): (log: seq<AttemptCommand>)
    ensures PhaseIs(log, PublicCheck)
    ensures log == [] || (Reached(w, PUBLIC_LOGGED) && |log| == |w.publicChecks|)
    ensures Reached(w, PUBLIC_LOGGED) ==> |log| == |w.publicChecks|
    ensures forall i :: 0 <= i < |log| ==> log[i].name == PublicCheckName(i) && w.publicChecks[i] == Done(log[i].result)
  {
    if Reached(w, PUBLIC_LOGGED) then StopFromIsFirst(w, 0); assert GateAt(w, 9).Proceed?; PublicCommands(Collect(w.publicChecks).value) else []
  }

  function HiddenPart(w: World): (log: seq<AttemptCommand>)
    ensures PhaseIs(log, HiddenScore)
    ensures |log| == if Reached(w, HIDDEN_LOGGED) then |w.hiddenValidators| else 0
  {
    if Reached(w, HIDDEN_LOGGED) then StopFromIsFirst(w, 0); assert GateAt(w, 11).Proceed?; HiddenCommands(Collect(w.hiddenValidators).value) else []
  }

  function CommandLog(w: World): seq<AttemptCommand> {
    PatchPart(w) + PublicPart(w) + HiddenPart(w)
  }

  function FinalDiff(w: World): string {
    if Reached(w, DIFF_RENDERED) then StopFromIsFirst(w, 0); assert GateAt(w, 7).Proceed?; w.diff.value else ""
  }

  function FinalDiffHash(w: World): Option<Hash> {
    if Reached(w, DIFF_RENDERED) then StopFromIsFirst(w, 0); assert GateAt(w, 7).Proceed?; Some(w.hashDiff(w.diff.value)) else None
  }

  function Finish(w: World, ending: Ending, commands: seq<AttemptCommand>, diff: string, hash: Option<Hash>): AttemptRun {
    var v := ending.verdict;
    AttemptRun(AttemptResult(w.identity, w.clock, v.status, v.publicStatus, v.hiddenStatus, v.errorClass, hash),
               commands, diff, ending.details)
  }

  /** The checklist reading of one attempt; RunPatchAttempt refines it. */
  function Attempt(w: World): AttemptRun {
    Finish(w, EndingOf(w), CommandLog(w), FinalDiff(w), FinalDiffHash(w))
  }

  // ---------------------------------------------------------------- the phase machine

  /** The locals that survive an exception inside the try block. */
  class Execution {
    var phase: Phase
    var commands: seq<AttemptCommand>
    var finalDiff: string
    var finalDiffHash: Option<Hash>

    constructor ()
      ensures phase == Setup && commands == [] && finalDiff == "" && finalDiffHash == None
    {
      phase, commands, finalDiff, finalDiffHash := Setup, [], "", None;
    }

    /** What the surviving locals hold once n gates are behind: nothing is recorded before its gate. */
    predicate Recorded(w: World, n: nat)
      reads this
      requires n <= GATE_COUNT
    {
      && StopFrom(w, 0) >= n
      && commands == (if n >= PATCH_LOGGED then PatchPart(w) else [])
                     + (if n >= PUBLIC_LOGGED then PublicPart(w) else [])
                     + (if n >= HIDDEN_LOGGED then HiddenPart(w) else [])
      && finalDiff == (if n >= DIFF_RENDERED then FinalDiff(w) else "")
      && finalDiffHash == (if n >= DIFF_RENDERED then FinalDiffHash(w) else None)
    }

    /** How a phase ends: at gate n, with that gate's ending, and nothing more on record. */
    predicate EndedAs(w: World, r: Step<Verdict>)
      reads this
    {
      && Recorded(w, StopFrom(w, 0))
      && EndingOf(w) == if r.Done? then Ending(r.value, None) else ExceptionEnding(phase, r.exn)
    }

    /** Workspace and the two guards; None means the patch may be applied. */
    method Guards(w: World) returns (r: Option<Step<Verdict>>)
      requires phase == Setup && Recorded(w, 0)
      modifies this
      ensures if r.Some? then EndedAs(w, r.value) else Recorded(w, 6)
    {
      if w.workspace.Threw? { StopsAt(w, 0); return Some(Threw(w.workspace.exn)); }
      Clears(w, 0);
      if w.submission.Threw? { StopsAt(w, 1); return Some(Threw(w.submission.exn)); }
      Clears(w, 1);
      if w.hiddenReference.Threw? { StopsAt(w, 2); return Some(Threw(w.hiddenReference.exn)); }
      Clears(w, 2);
      if w.hiddenReference.value { StopsAt(w, 3); return Some(Done(HIDDEN_ACCESS)); }
      Clears(w, 3);
      if w.modifiesPublicTests.Threw? { StopsAt(w, 4); return Some(Threw(w.modifiesPublicTests.exn)); }
      Clears(w, 4);
      if w.modifiesPublicTests.value { StopsAt(w, 5); return Some(Done(SHORTCUT)); }
      Clears(w, 5);
      return None;
    }

    /** The patch is logged and the diff rendered even when it did not apply. */
    method ApplyPatch(w: World) returns (r: Option<Step<Verdict>>)
      requires Recorded(w, 6)
      modifies this
      ensures if r.Some? then EndedAs(w, r.value) else Recorded(w, 9)
    {
      phase := PatchApply;
      if w.patch.Threw? { StopsAt(w, 6); return Some(Threw(w.patch.exn)); }
      Clears(w, 6);
      commands := commands + [AttemptCommand(PatchApply, SubmissionPatch, w.patch.value)];
      if w.diff.Threw? { StopsAt(w, 7); return Some(Threw(w.diff.exn)); }
      Clears(w, 7);
      finalDiff := w.diff.value;
      finalDiffHash := Some(w.hashDiff(finalDiff));
      if w.patch.value.returncode != 0 { StopsAt(w, 8); return Some(Done(PATCH_FAILED)); }
      Clears(w, 8);
      return None;
    }

    method RunPublicChecks(w: World) returns (r: Option<Step<Verdict>>)
      requires Recorded(w, 9)
      modifies this
      ensures if r.Some? then EndedAs(w, r.value) else Recorded(w, 11)
    {
      phase := PublicCheck;
      var results := Collect(w.publicChecks);
      PublicOutcome(w);
      if results.Threw? { return Some(Threw(results.exn)); }
      NothingBetween(PatchPart(w), PublicPart(w));
      commands := commands + PublicCommands(results.value);
      if !AllZeroExit(results.value) { return Some(Done(PUBLIC_FAILED)); }
      return None;
    }

    method RunHiddenValidators(w: World) returns (r: Option<Step<Verdict>>)
      requires Recorded(w, 11)
      modifies this
      ensures if r.Some? then EndedAs(w, r.value) else Recorded(w, GATE_COUNT)
    {
      phase := HiddenScore;
      var results := Collect(w.hiddenValidators);
      HiddenOutcome(w);
      if results.Threw? { return Some(Threw(results.exn)); }
      NothingBetween(PatchPart(w) + PublicPart(w), HiddenPart(w));
      commands := commands + HiddenCommands(results.value);
      if !AllPassed(results.value) { return Some(Done(HIDDEN_FAILED)); }
      return None;
    }

    /** The try block: returns the verdict it finished with, or the exception it let out. */
    method RunSteps(w: World) returns (r: Step<Verdict>)
      requires phase == Setup && commands == [] && finalDiff == "" && finalDiffHash == None
      modifies this
      ensures EndedAs(w, r)
    {
      var ended := Guards(w);
      if ended.Some? { return ended.value; }
      ended := ApplyPatch(w);
      if ended.Some? { return ended.value; }
      ended := RunPublicChecks(w);
      if ended.Some? { return ended.value; }
      ended := RunHiddenValidators(w);
      if ended.Some? { return ended.value; }
      phase := Setup;
      return Done(PASS_VERDICT);
    }
  }

  lemma NothingBetween<T>(a: seq<T>, b: seq<T>)
    ensures a + [] + [] + b == a + b + [] && a + [] + b == a + b
  {
  }

  /** Where the attempt stands once the public checks have returned or thrown. */
  lemma PublicOutcome(w: World)
    requires StopFrom(w, 0) >= 9
    ensures match Collect(w.publicChecks)
      case Threw(e) => StopFrom(w, 0) == 9 && EndingOf(w) == ExceptionEnding(PublicCheck, e)
      case Done(results) =>
        && PublicPart(w) == PublicCommands(results)
        && (if AllZeroExit(results) then StopFrom(w, 0) >= 11
            else StopFrom(w, 0) == 10 && EndingOf(w) == Ending(PUBLIC_FAILED, None))
  {
    var r := Collect(w.publicChecks);
    if r.Threw? {
      StopsAt(w, 9);
    } else {
      Clears(w, 9);
      if AllZeroExit(r.value) { Clears(w, 10); } else { StopsAt(w, 10); }
    }
  }

  lemma HiddenOutcome(w: World)
    requires StopFrom(w, 0) >= 11
    ensures match Collect(w.hiddenValidators)
      case Threw(e) => StopFrom(w, 0) == 11 && EndingOf(w) == ExceptionEnding(HiddenScore, e)
      case Done(results) =>
        && HiddenPart(w) == HiddenCommands(results)
        && (if AllPassed(results) then StopFrom(w, 0) == GATE_COUNT
            else StopFrom(w, 0) == 12 && EndingOf(w) == Ending(HIDDEN_FAILED, None))
  {
    var r := Collect(w.hiddenValidators);
    if r.Threw? {
      StopsAt(w, 11);
    } else {
      Clears(w, 11);
      if AllPassed(r.value) { Clears(w, 12); } else { StopsAt(w, 12); }
    }
  }

  lemma Clears(w: World, i: nat)
    requires i < GATE_COUNT && StopFrom(w, 0) >= i && GateAt(w, i).Proceed?
    ensures StopFrom(w, 0) >= i + 1
  {
    StopFromIsFirst(w, 0);
  }

  lemma StopsAt(w: World, i: nat)
    requires i < GATE_COUNT && StopFrom(w, 0) >= i && GateAt(w, i).Stop?
    ensures StopFrom(w, 0) == i && EndingOf(w) == GateAt(w, i).ending
  {
    StopFromIsFirst(w, 0);
  }

  /** Runs the phases and maps whatever they let out to a finished attempt. */
  method RunPatchAttempt(w: World) returns (run: AttemptRun)
    ensures run == Attempt(w)
  {
    var state := new Execution();
    var r := state.RunSteps(w);
    var ending := match r case Done(v) => Ending(v, None) case Threw(e) => ExceptionEnding(state.phase, e);
    run := Finish(w, ending, state.commands, state.finalDiff, state.finalDiffHash);
  }

  // ---------------------------------------------------------------- what an attempt guarantees

  lemma OpenTo(w: World, n: nat)
    requires n <= GATE_COUNT
    requires forall k :: 0 <= k < n ==> GateAt(w, k).Proceed?
    ensures StopFrom(w, 0) >= n
  {
    StopFromIsFirst(w, 0);
  }

  lemma StoppedVerdictIsValid(w: World, i: nat)
    requires i < GATE_COUNT && GateAt(w, i).Stop?
    ensures ValidStatusFields(GateAt(w, i).ending.verdict) && !GateAt(w, i).ending.verdict.status.Pass?
  {
  }

  /** Whatever happens at whatever step, the result satisfies the status table. */
  lemma AttemptIsValid(w: World)
    ensures ValidAttemptResult(Attempt(w).result)
  {
    var n := StopFrom(w, 0);
    StopFromIsFirst(w, 0);
    if n < GATE_COUNT {
      StoppedVerdictIsValid(w, n);
    }
  }

  /** PASS says that every single step ran and every check succeeded, and nothing less. */
  predicate EveryStepSucceeded(w: World) {
    && w.workspace.Done? && w.submission.Done?
    && w.hiddenReference == Done(false) && w.modifiesPublicTests == Done(false)
    && w.patch.Done? && w.patch.value.returncode == 0 && w.diff.Done?
    && (forall s :: s in w.publicChecks ==> s.Done? && s.value.returncode == 0)
    && (forall s :: s in w.hiddenValidators ==> s.Done? && s.value.passed)
  }

  lemma PublicChecksClear(w: World)
    ensures GateAt(w, 9).Proceed? && GateAt(w, 10).Proceed?
       <==> forall s :: s in w.publicChecks ==> s.Done? && s.value.returncode == 0
  {
    var r := Collect(w.publicChecks);
    if r.Done? {
      assert forall i :: 0 <= i < |w.publicChecks| ==> w.publicChecks[i] == Done(r.value[i]) && w.publicChecks[i] in w.publicChecks;
      assert AllZeroExit(r.value) <==> forall i :: 0 <= i < |r.value| ==> ZeroExit(r.value[i]);
    }
  }

  lemma HiddenValidatorsClear(w: World)
    ensures GateAt(w, 11).Proceed? && GateAt(w, 12).Proceed?
       <==> forall s :: s in w.hiddenValidators ==> s.Done? && s.value.passed
  {
    var r := Collect(w.hiddenValidators);
    if r.Done? {
      assert forall i :: 0 <= i < |w.hiddenValidators| ==> w.hiddenValidators[i] == Done(r.value[i]) && w.hiddenValidators[i] in w.hiddenValidators;
      assert AllPassed(r.value) <==> forall i :: 0 <= i < |r.value| ==> r.value[i].passed;
    }
  }

  lemma PassIffAllGatesClear(w: World)
    ensures Attempt(w).result.status == Pass <==> StopFrom(w, 0) == GATE_COUNT
  {
    StopFromIsFirst(w, 0);
    if StopFrom(w, 0) < GATE_COUNT {
      StoppedVerdictIsValid(w, StopFrom(w, 0));
    }
  }

  lemma GatesClearWhenStepsSucceed(w: World, i: nat)
    requires i < GATE_COUNT && EveryStepSucceeded(w)
    ensures GateAt(w, i).Proceed?
  {
    PublicChecksClear(w);
    HiddenValidatorsClear(w);
  }

  lemma StepsSucceedWhenGatesClear(w: World)
    requires forall i :: 0 <= i < GATE_COUNT ==> GateAt(w, i).Proceed?
    ensures EveryStepSucceeded(w)
  {
    assert GateAt(w, 0).Proceed? && GateAt(w, 1).Proceed? && GateAt(w, 2).Proceed? && GateAt(w, 3).Proceed?
        && GateAt(w, 4).Proceed? && GateAt(w, 5).Proceed? && GateAt(w, 6).Proceed? && GateAt(w, 7).Proceed? && GateAt(w, 8).Proceed?;
    assert GateAt(w, 9).Proceed? && GateAt(w, 10).Proceed?;
    PublicChecksClear(w);
    assert GateAt(w, 11).Proceed? && GateAt(w, 12).Proceed?;
    HiddenValidatorsClear(w);
  }

  lemma PassIffEveryStepSucceeded(w: World)
    ensures Attempt(w).result.status == Pass <==> EveryStepSucceeded(w)
  {
    PassIffAllGatesClear(w);
    StopFromIsFirst(w, 0);
    if EveryStepSucceeded(w) {
      forall i | 0 <= i < GATE_COUNT ensures GateAt(w, i).Proceed? {
        GatesClearWhenStepsSucceed(w, i);
      }
      OpenTo(w, GATE_COUNT);
    } else if StopFrom(w, 0) == GATE_COUNT {
      StepsSucceedWhenGatesClear(w);
    }
  }

  lemma HiddenCommandIsLate(w: World, c: AttemptCommand)
    requires c in Attempt(w).commands && c.phase == HiddenScore
    ensures StopFrom(w, 0) >= HIDDEN_LOGGED
  {
    var log := PatchPart(w) + PublicPart(w) + HiddenPart(w);
    var i :| 0 <= i < |log| && log[i] == c;
    assert i >= |PatchPart(w)| + |PublicPart(w)|;
  }

  lemma HiddenStatusIsLate(w: World)
    requires Attempt(w).result.hiddenStatus != NotRun
    ensures StopFrom(w, 0) >= HIDDEN_STARTED
  {
    StopFromIsFirst(w, 0);
    var n := StopFrom(w, 0);
    if n < GATE_COUNT {
      assert GateAt(w, n).Stop? && GateAt(w, n).ending.verdict.hiddenStatus != NotRun;
    }
  }

  predicate HiddenCommandLogged(w: World) {
    exists i :: 0 <= i < |Attempt(w).commands| && Attempt(w).commands[i].phase == HiddenScore
  }

  /** The hidden phase shows, in the status or in the log, only after both guards, the patch and all public checks succeeded. */
  lemma HiddenOnlyAfterEverythingElse(w: World)
    requires Attempt(w).result.hiddenStatus != NotRun || HiddenCommandLogged(w)
    ensures w.hiddenReference == Done(false) && w.modifiesPublicTests == Done(false)
    ensures w.patch.Done? && w.patch.value.returncode == 0
    ensures forall s :: s in w.publicChecks ==> s.Done? && s.value.returncode == 0
  {
    if HiddenCommandLogged(w) {
      var i :| 0 <= i < |Attempt(w).commands| && Attempt(w).commands[i].phase == HiddenScore;
      HiddenCommandIsLate(w, Attempt(w).commands[i]);
    } else {
      HiddenStatusIsLate(w);
    }
    StopFromIsFirst(w, 0);
    assert GateAt(w, 2).Proceed? && GateAt(w, 3).Proceed? && GateAt(w, 4).Proceed? && GateAt(w, 5).Proceed?;
    assert GateAt(w, 6).Proceed? && GateAt(w, 8).Proceed?;
    assert GateAt(w, 9).Proceed? && GateAt(w, 10).Proceed?;
    PublicChecksClear(w);
  }

  function Rank(p: Phase): nat {
    match p case Setup => 0 case PatchApply => 1 case PublicCheck => 2 case HiddenScore => 3
  }

  lemma PartsAreOrdered(a: seq<AttemptCommand>, b: seq<AttemptCommand>, c: seq<AttemptCommand>)
    requires PhaseIs(a, PatchApply) && PhaseIs(b, PublicCheck) && PhaseIs(c, HiddenScore)
    requires |a| <= 1 && (|b| + |c| > 0 ==> |a| == 1)
    ensures var log := a + b + c;
      && (forall i, j :: 0 <= i < j < |log| ==> Rank(log[i].phase) <= Rank(log[j].phase))
      && (forall i :: 0 <= i < |log| ==> (log[i].phase == PatchApply <==> i == 0))
  {
  }

  /** The log is the patch, then the public checks, then the hidden validators, each group complete or absent. */
  lemma CommandLogIsOrdered(w: World)
    ensures var log := Attempt(w).commands;
      && (forall i, j :: 0 <= i < j < |log| ==> Rank(log[i].phase) <= Rank(log[j].phase))
      && (forall i :: 0 <= i < |log| ==> (log[i].phase == PatchApply <==> i == 0))
      && |log| in {0, 1, 1 + |w.publicChecks|, 1 + |w.publicChecks| + |w.hiddenValidators|}
      && (forall i :: 0 < i < |log| && i <= |w.publicChecks| ==>
            log[i].name == PublicCheckName(i - 1) && w.publicChecks[i - 1] == Done(log[i].result))
  {
    var a, b, c := PatchPart(w), PublicPart(w), HiddenPart(w);
    assert Attempt(w).commands == a + b + c;
    PartsAreOrdered(a, b, c);
  }

  /** What the public status says of where the attempt stopped. */
  lemma PublicStatusTells(w: World)
    ensures var n, status := StopFrom(w, 0), Attempt(w).result.publicStatus;
      && (status == Passed ==> n > 10)
      && (status == Failed ==> n == 10 || (n == 9 && Collect(w.publicChecks) == Threw(TimeoutExpired)))
  {
    StopFromIsFirst(w, 0);
    var n := StopFrom(w, 0);
    if n < GATE_COUNT {
      StoppedPublicStatus(w, n);
    }
  }

  lemma StoppedPublicStatus(w: World, n: nat)
    requires n < GATE_COUNT && GateAt(w, n).Stop?
    ensures var status := GateAt(w, n).ending.verdict.publicStatus;
      && (status == Passed ==> n > 10)
      && (status == Failed ==> n == 10 || (n == 9 && Collect(w.publicChecks) == Threw(TimeoutExpired)))
  {
  }

  lemma FailingCheckExists(w: World)
    requires StopFrom(w, 0) == 10
    ensures exists s :: s in w.publicChecks && s.Done? && s.value.returncode != 0
  {
    StopFromIsFirst(w, 0);
    assert GateAt(w, 9).Proceed? && GateAt(w, 10).Stop?;
    var r := Collect(w.publicChecks);
    var i :| 0 <= i < |r.value| && !ZeroExit(r.value[i]);
    assert w.publicChecks[i] == Done(r.value[i]) && w.publicChecks[i] in w.publicChecks;
  }

  /** The public status is evidence: PASS needs every public check, FAIL needs a failing or timed-out one. */
  lemma PublicStatusIsEvidence(w: World)
    ensures var r := Attempt(w).result;
      && (r.publicStatus == Passed ==> forall s :: s in w.publicChecks ==> s.Done? && s.value.returncode == 0)
      && (r.publicStatus == Failed ==>
            exists s :: s in w.publicChecks && (s == Threw(TimeoutExpired) || (s.Done? && s.value.returncode != 0)))
  {
    var status := Attempt(w).result.publicStatus;
    PublicStatusTells(w);
    if status == Passed {
      PublicChecksCleared(w);
    } else if status == Failed {
      if StopFrom(w, 0) == 10 {
        FailingCheckExists(w);
      } else {
        CollectThrows(w.publicChecks);
      }
    }
  }

  lemma PublicChecksCleared(w: World)
    requires StopFrom(w, 0) > 10
    ensures forall s :: s in w.publicChecks ==> s.Done? && s.value.returncode == 0
  {
    StopFromIsFirst(w, 0);
    assert GateAt(w, 9).Proceed? && GateAt(w, 10).Proceed?;
    PublicChecksClear(w);
  }

  lemma {:induction false} CollectThrows<T>(steps: seq<Step<T>>)
    requires Collect(steps).Threw?
    ensures Threw(Collect(steps).exn) in steps
  {
    if steps[0].Done? {
      CollectThrows(steps[1..]);
    }
  }
}
