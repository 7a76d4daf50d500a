/**
 What a scorer attempt answers, told by what happened to it: one condition on the outside world for every status,
 with the check statuses, the error class and the records that go with it.
 */
module ScorerAnswers {
  import opened Wrappers
  import opened ScorerAttempt

  // ---------------------------------------------------------------- what can happen

  /** The first step that did not return let this out. */
  predicate FirstThrew<T(!new)>(steps: seq<Step<T>>, e: Exn) {
    exists i :: 0 <= i < |steps| && steps[i] == Threw(e) && forall j :: 0 <= j < i ==> steps[j].Done?
  }

  predicate AllDone<T>(steps: seq<Step<T>>) {
    forall i :: 0 <= i < |steps| ==> steps[i].Done?
  }

  /** The workspace is there and the submission could be read. */
  predicate Ready(w: World) {
    w.workspace.Done? && w.submission.Done?
  }

  /** And neither guard objects. */
  predicate Admitted(w: World) {
    Ready(w) && w.hiddenReference == Done(false) && w.modifiesPublicTests == Done(false)
  }

  /** And the patch command ran and its diff was rendered. */
  predicate PatchRan(w: World) {
    Admitted(w) && w.patch.Done? && w.diff.Done?
  }

  predicate Applied(w: World) {
    PatchRan(w) && w.patch.value.returncode == 0
  }

  predicate PublicPassed(w: World) {
    Applied(w) && AllDone(w.publicChecks) && forall i :: 0 <= i < |w.publicChecks| ==> w.publicChecks[i].value.returncode == 0
  }

  predicate ThrewInSetup(w: World, e: Exn) {
    || w.workspace == Threw(e)
    || (w.workspace.Done? && w.submission == Threw(e))
    || (Ready(w) && w.hiddenReference == Threw(e))
    || (Ready(w) && w.hiddenReference == Done(false) && w.modifiesPublicTests == Threw(e))
  }

  predicate ThrewInPatch(w: World, e: Exn) {
    Admitted(w) && (w.patch == Threw(e) || (w.patch.Done? && w.diff == Threw(e)))
  }

  predicate ThrewInPublic(w: World, e: Exn) {
    Applied(w) && FirstThrew(w.publicChecks, e)
  }

  predicate ThrewInHidden(w: World, e: Exn) {
    PublicPassed(w) && FirstThrew(w.hiddenValidators, e)
  }

  predicate ThrewSomewhere(w: World, e: Exn) {
    ThrewInSetup(w, e) || ThrewInPatch(w, e) || ThrewInPublic(w, e) || ThrewInHidden(w, e)
  }

  predicate HiddenReferenced(w: World) {
    Ready(w) && w.hiddenReference == Done(true)
  }

  predicate PublicTestsTouched(w: World) {
    Ready(w) && w.hiddenReference == Done(false) && w.modifiesPublicTests == Done(true)
  }

  predicate PatchRefused(w: World) {
    PatchRan(w) && w.patch.value.returncode != 0
  }

  predicate PublicCheckFailed(w: World) {
    Applied(w) && AllDone(w.publicChecks) && exists i :: 0 <= i < |w.publicChecks| && w.publicChecks[i].value.returncode != 0
  }

  predicate ValidatorFailed(w: World) {
    PublicPassed(w) && AllDone(w.hiddenValidators) && exists i :: 0 <= i < |w.hiddenValidators| && !w.hiddenValidators[i].value.passed
  }

  predicate NothingFailed(w: World) {
    PublicPassed(w) && AllDone(w.hiddenValidators) && forall i :: 0 <= i < |w.hiddenValidators| ==> w.hiddenValidators[i].value.passed
  }

  // ---------------------------------------------------------------- the collected steps

  lemma {:induction false} CollectTells<T(!new)>(steps: seq<Step<T>>)
    ensures Collect(steps).Done? <==> AllDone(steps)
    ensures Collect(steps).Done? ==> |Collect(steps).value| == |steps| && forall i :: 0 <= i < |steps| ==> steps[i].value == Collect(steps).value[i]
    ensures forall e :: FirstThrew(steps, e) <==> Collect(steps) == Threw(e)
  {
    if |steps| > 0 {
      var rest := steps[1..];
      CollectTells(rest);
      assert forall i :: 0 <= i < |steps| ==> steps[i] in steps;
      forall e ensures FirstThrew(steps, e) <==> steps[0] == Threw(e) || (steps[0].Done? && FirstThrew(rest, e)) {
        if i :| 0 <= i < |rest| && rest[i] == Threw(e) && (forall j :: 0 <= j < i ==> rest[j].Done?) && steps[0].Done? {
          assert steps[i + 1] == Threw(e);
        }
        if i :| 0 <= i < |steps| && steps[i] == Threw(e) && (forall j :: 0 <= j < i ==> steps[j].Done?) && i > 0 {
          assert rest[i - 1] == Threw(e);
          assert forall j :: 0 <= j < i - 1 ==> rest[j] == steps[j + 1];
        }
      }
    }
  }

  // ---------------------------------------------------------------- one answer for everything that can happen

  predicate Answers(run: AttemptRun, status: AttemptStatus, publicStatus: CheckStatus, hiddenStatus: CheckStatus, errorClass: Option<string>) {
    run.result.status == status && run.result.publicStatus == publicStatus && run.result.hiddenStatus == hiddenStatus && run.result.errorClass == errorClass
  }

  /** A timeout is answered by the phase it happened in, any other exception by its class. */
  predicate AnswersRaised(run: AttemptRun, e: Exn, publicStatus: CheckStatus, hiddenStatus: CheckStatus, timeoutClass: string) {
    match e
    case TimeoutExpired => Answers(run, Timeout, publicStatus, hiddenStatus, Some(timeoutClass)) && run.errorDetails == None
    case Raised(cls, _) => Answers(run, OrchestratorError, NotRun, NotRun, Some(cls)) && run.errorDetails == Some(e)
  }

  /** Everything that can happen up to the patch, and how it is answered. */
  ghost predicate GuardsAnswered(w: World, run: AttemptRun) {
    && (forall e :: ThrewInSetup(w, e) ==> AnswersRaised(run, e, NotRun, NotRun, "SetupTimeout"))
    && (HiddenReferenced(w) ==> Answers(run, HiddenValidatorAccessAttempt, NotRun, NotRun, Some("HiddenValidatorReference")) && run.errorDetails == None)
    && (PublicTestsTouched(w) ==> Answers(run, InvalidShortcut, NotRun, NotRun, Some("PublicTestModified")) && run.errorDetails == None)
  }

  ghost predicate PatchAnswered(w: World, run: AttemptRun) {
    && (forall e :: ThrewInPatch(w, e) ==> AnswersRaised(run, e, NotRun, NotRun, "PatchApplyTimeout"))
    && (PatchRefused(w) ==> Answers(run, PatchApplyError, NotRun, NotRun, Some("PatchApplyError")) && run.errorDetails == None)
  }

  ghost predicate ChecksAnswered(w: World, run: AttemptRun) {
    && (forall e :: ThrewInPublic(w, e) ==> AnswersRaised(run, e, Failed, NotRun, "PublicCheckTimeout"))
    && (PublicCheckFailed(w) ==> Answers(run, PublicTestFail, Failed, NotRun, Some("PublicCheckFailed")) && run.errorDetails == None)
  }

  ghost predicate ValidatorsAnswered(w: World, run: AttemptRun) {
    && (forall e :: ThrewInHidden(w, e) ==> AnswersRaised(run, e, Passed, Failed, "HiddenValidationTimeout"))
    && (ValidatorFailed(w) ==> Answers(run, HiddenTestFail, Passed, Failed, Some("HiddenCheckFailed")) && run.errorDetails == None)
    && (NothingFailed(w) ==> Answers(run, Pass, Passed, Passed, None) && run.errorDetails == None)
  }

  lemma SetupAnswers(w: World)
    ensures GuardsAnswered(w, Attempt(w))
    ensures Admitted(w) ==> StopFrom(w, 0) >= 6
  {
    if w.workspace.Threw? { StopsAt(w, 0); return; }
    Clears(w, 0);
    if w.submission.Threw? { StopsAt(w, 1); return; }
    Clears(w, 1);
    if w.hiddenReference.Threw? { StopsAt(w, 2); return; }
    Clears(w, 2);
    if w.hiddenReference.value { StopsAt(w, 3); return; }
    Clears(w, 3);
    if w.modifiesPublicTests.Threw? { StopsAt(w, 4); return; }
    Clears(w, 4);
    if w.modifiesPublicTests.value { StopsAt(w, 5); return; }
    Clears(w, 5);
  }

  lemma PatchAnswers(w: World)
    ensures PatchAnswered(w, Attempt(w))
    ensures Applied(w) ==> StopFrom(w, 0) >= 9
  {
    SetupAnswers(w);
    if Admitted(w) {
      if w.patch.Threw? { StopsAt(w, 6); return; }
      Clears(w, 6);
      if w.diff.Threw? { StopsAt(w, 7); return; }
      Clears(w, 7);
      if w.patch.value.returncode != 0 { StopsAt(w, 8); return; }
      Clears(w, 8);
    }
  }

  lemma ZeroExits(w: World)
    requires AllDone(w.publicChecks)
    ensures Collect(w.publicChecks).Done?
    ensures AllZeroExit(Collect(w.publicChecks).value) <==> forall i :: 0 <= i < |w.publicChecks| ==> w.publicChecks[i].value.returncode == 0
  {
    CollectTells(w.publicChecks);
    var rs := Collect(w.publicChecks).value;
    assert AllZeroExit(rs) <==> forall i :: 0 <= i < |rs| ==> ZeroExit(rs[i]);
  }

  lemma PassedValidators(w: World)
    requires AllDone(w.hiddenValidators)
    ensures Collect(w.hiddenValidators).Done?
    ensures AllPassed(Collect(w.hiddenValidators).value) <==> forall i :: 0 <= i < |w.hiddenValidators| ==> w.hiddenValidators[i].value.passed
  {
    CollectTells(w.hiddenValidators);
    var rs := Collect(w.hiddenValidators).value;
    assert AllPassed(rs) <==> forall i :: 0 <= i < |rs| ==> rs[i].passed;
  }

  lemma ChecksAnswers(w: World)
    ensures ChecksAnswered(w, Attempt(w))
    ensures PublicPassed(w) ==> StopFrom(w, 0) >= 11
  {
    PatchAnswers(w);
    CollectTells(w.publicChecks);
    if Applied(w) {
      PublicOutcome(w);
      if AllDone(w.publicChecks) {
        ZeroExits(w);
      }
    }
  }

  lemma ValidatorsAnswers(w: World)
    ensures ValidatorsAnswered(w, Attempt(w))
  {
    ChecksAnswers(w);
    CollectTells(w.hiddenValidators);
    if PublicPassed(w) {
      HiddenOutcome(w);
      if AllDone(w.hiddenValidators) {
        PassedValidators(w);
      }
    }
  }

  /** Whatever happens, the attempt answers it so. */
  lemma EverythingIsAnswered(w: World)
    ensures GuardsAnswered(w, Attempt(w)) && PatchAnswered(w, Attempt(w)) && ChecksAnswered(w, Attempt(w)) && ValidatorsAnswered(w, Attempt(w))
  {
    SetupAnswers(w);
    PatchAnswers(w);
    ChecksAnswers(w);
    ValidatorsAnswers(w);
  }

  // ---------------------------------------------------------------- one condition for every status

  ghost predicate SomethingRaised(w: World) {
    exists cls, message :: ThrewSomewhere(w, Raised(cls, message))
  }

  ghost predicate SomethingThrew(w: World) {
    exists e :: ThrewSomewhere(w, e)
  }

  lemma SetupHappens(w: World)
    ensures SomethingThrew(w) || HiddenReferenced(w) || PublicTestsTouched(w) || Admitted(w)
  {
    if w.workspace.Threw? { assert ThrewSomewhere(w, w.workspace.exn); return; }
    if w.submission.Threw? { assert ThrewSomewhere(w, w.submission.exn); return; }
    if w.hiddenReference.Threw? { assert ThrewSomewhere(w, w.hiddenReference.exn); return; }
    if w.hiddenReference.value { assert w.hiddenReference == Done(true); return; }
    assert w.hiddenReference == Done(false);
    if w.modifiesPublicTests.Threw? { assert ThrewSomewhere(w, w.modifiesPublicTests.exn); return; }
    if w.modifiesPublicTests.value {
      assert w.modifiesPublicTests == Done(true);
    } else {
      assert w.modifiesPublicTests == Done(false);
    }
  }

  lemma PatchHappens(w: World)
    requires Admitted(w)
    ensures SomethingThrew(w) || PatchRefused(w) || Applied(w)
  {
    if w.patch.Threw? { assert ThrewSomewhere(w, w.patch.exn); return; }
    if w.diff.Threw? { assert ThrewSomewhere(w, w.diff.exn); return; }
  }

  lemma ChecksHappen(w: World)
    requires Applied(w)
    ensures SomethingThrew(w) || PublicCheckFailed(w) || ValidatorFailed(w) || NothingFailed(w)
  {
    CollectTells(w.publicChecks);
    CollectTells(w.hiddenValidators);
    if !AllDone(w.publicChecks) {
      assert ThrewSomewhere(w, Collect(w.publicChecks).exn);
    } else if PublicPassed(w) && !AllDone(w.hiddenValidators) {
      assert ThrewSomewhere(w, Collect(w.hiddenValidators).exn);
    }
  }

  lemma ThrownIsAnswered(w: World, e: Exn)
    requires ThrewSomewhere(w, e)
    ensures Attempt(w).result.status == if e.TimeoutExpired? then Timeout else OrchestratorError
    ensures e.Raised? ==> Attempt(w).result.errorClass == Some(e.errorClass) && Attempt(w).errorDetails == Some(e)
  {
    EverythingIsAnswered(w);
  }

  lemma SomethingHappens(w: World)
    ensures || SomethingThrew(w) || HiddenReferenced(w) || PublicTestsTouched(w) || PatchRefused(w) || PublicCheckFailed(w)
            || ValidatorFailed(w) || NothingFailed(w)
  {
    SetupHappens(w);
    if Admitted(w) {
      PatchHappens(w);
    }
    if Applied(w) {
      ChecksHappen(w);
    }
  }

  /** Every status has its condition, told without the order in which the attempt looks. */
  lemma StatusIff(w: World)
    ensures var status := Attempt(w).result.status;
      && (status == HiddenValidatorAccessAttempt <==> HiddenReferenced(w))
      && (status == InvalidShortcut <==> PublicTestsTouched(w))
      && (status == PatchApplyError <==> PatchRefused(w))
      && (status == PublicTestFail <==> PublicCheckFailed(w))
      && (status == HiddenTestFail <==> ValidatorFailed(w))
      && (status == Pass <==> NothingFailed(w))
      && (status == Timeout <==> ThrewSomewhere(w, TimeoutExpired))
      && (status == OrchestratorError <==> SomethingRaised(w))
  {
    EverythingIsAnswered(w);
    SomethingHappens(w);
    forall e | ThrewSomewhere(w, e)
      ensures Attempt(w).result.status == if e.TimeoutExpired? then Timeout else OrchestratorError
    {
      ThrownIsAnswered(w, e);
    }
    if SomethingThrew(w) {
      var e :| ThrewSomewhere(w, e);
      if e.Raised? {
        assert ThrewSomewhere(w, Raised(e.errorClass, e.message));
      }
    }
  }

  // ---------------------------------------------------------------- what is on record

  lemma LogReaches(w: World)
    ensures StopFrom(w, 0) >= 7 <==> Admitted(w) && w.patch.Done?
    ensures StopFrom(w, 0) >= 8 <==> PatchRan(w)
    ensures StopFrom(w, 0) >= 9 <==> Applied(w)
  {
    SetupAnswers(w);
    PatchAnswers(w);
    StopFromIsFirst(w, 0);
    assert StopFrom(w, 0) >= 7 ==> GateAt(w, 0).Proceed? && GateAt(w, 1).Proceed? && GateAt(w, 2).Proceed? && GateAt(w, 3).Proceed?;
    assert StopFrom(w, 0) >= 7 ==> GateAt(w, 4).Proceed? && GateAt(w, 5).Proceed? && GateAt(w, 6).Proceed?;
    assert StopFrom(w, 0) >= 8 ==> GateAt(w, 7).Proceed?;
    assert StopFrom(w, 0) >= 9 ==> GateAt(w, 8).Proceed?;
    if Admitted(w) && w.patch.Done? {
      Clears(w, 6);
      if w.diff.Done? {
        Clears(w, 7);
      }
    }
  }

  lemma CheckLogReaches(w: World)
    ensures StopFrom(w, 0) >= 10 <==> Applied(w) && AllDone(w.publicChecks)
    ensures StopFrom(w, 0) >= 11 <==> PublicPassed(w)
    ensures StopFrom(w, 0) >= 12 <==> PublicPassed(w) && AllDone(w.hiddenValidators)
  {
    LogReaches(w);
    CollectTells(w.publicChecks);
    CollectTells(w.hiddenValidators);
    if Applied(w) {
      PublicOutcome(w);
      if AllDone(w.publicChecks) {
        ZeroExits(w);
        Clears(w, 9);
      }
    }
    if StopFrom(w, 0) >= 11 {
      HiddenOutcome(w);
    }
  }

  function PatchLog(w: World): seq<AttemptCommand> {
    if Admitted(w) && w.patch.Done? then [AttemptCommand(PatchApply, SubmissionPatch, w.patch.value)] else []
  }

  function PublicLog(w: World): seq<AttemptCommand> {
    if Applied(w) && AllDone(w.publicChecks) then
      seq(|w.publicChecks|, i requires 0 <= i < |w.publicChecks| => AttemptCommand(PublicCheck, PublicCheckName(i), w.publicChecks[i].value))
    else []
  }

  function HiddenLog(w: World): seq<AttemptCommand> {
    if PublicPassed(w) && AllDone(w.hiddenValidators) then
      seq(|w.hiddenValidators|, i requires 0 <= i < |w.hiddenValidators| =>
        AttemptCommand(HiddenScore, ValidatorName(w.hiddenValidators[i].value.validatorId), w.hiddenValidators[i].value.command))
    else []
  }

  /** The record holds the identity it was given, each command that returned under its own name, and the diff once rendered. */
  lemma RecordsWhatReturned(w: World)
    ensures var run := Attempt(w);
      && run.result.identity == w.identity && run.result.clock == w.clock
      && run.commands == PatchLog(w) + PublicLog(w) + HiddenLog(w)
      && run.finalDiff == (if PatchRan(w) then w.diff.value else "")
      && run.result.finalDiffHash == (if PatchRan(w) then Some(w.hashDiff(w.diff.value)) else None)
  {
    LogReaches(w);
    CheckLogReaches(w);
    CollectTells(w.publicChecks);
    CollectTells(w.hiddenValidators);
    assert PatchPart(w) == PatchLog(w);
    assert PublicPart(w) == PublicLog(w);
    assert HiddenPart(w) == HiddenLog(w);
  }
}
