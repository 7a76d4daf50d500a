/**
 Two control attempts whose unchanged replay is a mismatch, with one secret of the environment replaced on writing
 and the temporary run directories removed on comparing, as the harness does.
 */
module ReplayWitnesses {
  import opened Wrappers
  import opened AgentAttempt
  import opened ReplayNormalForm
  import opened ReplayFidelity
  import Scorer = ScorerAttempt
  import ReplayVerdict
  import AgentGeneration

  // ---------------------------------------------------------------- text functions

  predicate StartsWith(s: string, prefix: string) {
    |s| >= |prefix| && s[..|prefix|] == prefix
  }

  /** str.replace. */
  function ReplaceAll(s: string, target: string, substitute: string): string
    requires |target| > 0
  {
    if |s| < |target| then s
    else if StartsWith(s, target) then substitute + ReplaceAll(s[|target|..], target, substitute)
    else [s[0]] + ReplaceAll(s[1..], target, substitute)
  }

  const RUN_ROOT := "/tmp/agentenv-"

  predicate EndsRunId(c: char) {
    c in {'/', ':', ' ', '\t', '\n', '\r'}
  }

  /** The length of the run id a text begins with. */
  function RunIdLength(s: string): (n: nat)
    ensures n <= |s|
  {
    if |s| == 0 || EndsRunId(s[0]) then 0 else 1 + RunIdLength(s[1..])
  }

  /** Replaces each run directory by one placeholder. */
  function CollapseRunRoots(s: string): string {
    if |s| == 0 then s
    else if StartsWith(s, RUN_ROOT) && RunIdLength(s[|RUN_ROOT|..]) > 0 then
      "<AGENTENV_TMP>" + CollapseRunRoots(s[|RUN_ROOT| + RunIdLength(s[|RUN_ROOT|..])..])
    else [s[0]] + CollapseRunRoots(s[1..])
  }

  predicate PlainRunId(id: string) {
    |id| > 0 && forall i :: 0 <= i < |id| ==> !EndsRunId(id[i])
  }

  lemma {:induction false} RunIdLengthIs(id: string, rest: string)
    requires forall i :: 0 <= i < |id| ==> !EndsRunId(id[i])
    requires rest == "" || EndsRunId(rest[0])
    ensures RunIdLength(id + rest) == |id|
  {
    if |id| == 0 {
      assert id + rest == rest;
    } else {
      assert (id + rest)[1..] == id[1..] + rest;
      RunIdLengthIs(id[1..], rest);
    }
  }

  lemma StartsOtherwise(s: string, prefix: string)
    requires |s| > 0 && |prefix| > 0 && s[0] != prefix[0]
    ensures !StartsWith(s, prefix)
  {
    assert |s| >= |prefix| ==> s[..|prefix|][0] == s[0];
  }

  lemma {:induction false} CollapseSkips(a: string, b: string)
    requires '/' !in a
    ensures CollapseRunRoots(a + b) == a + CollapseRunRoots(b)
  {
    if |a| == 0 {
      assert a + b == b;
    } else {
      assert (a + b)[0] == a[0] && a[0] in a && RUN_ROOT[0] == '/';
      StartsOtherwise(a + b, RUN_ROOT);
      assert (a + b)[1..] == a[1..] + b;
      CollapseSkips(a[1..], b);
    }
  }

  lemma LeadingRunRoot(id: string, after: string)
    requires PlainRunId(id) && (after == "" || EndsRunId(after[0]))
    ensures CollapseRunRoots(RUN_ROOT + (id + after)) == "<AGENTENV_TMP>" + CollapseRunRoots(after)
  {
    var s := RUN_ROOT + (id + after);
    PrefixOf(RUN_ROOT, id + after);
    RunIdLengthIs(id, after);
    AfterTwo(RUN_ROOT, id, after);
    assert |s| > 0;
  }

  lemma PrefixOf(a: string, b: string)
    ensures StartsWith(a + b, a) && (a + b)[|a|..] == b
  {
  }

  lemma AfterTwo(a: string, b: string, c: string)
    ensures (a + (b + c))[|a| + |b|..] == c
  {
  }

  /** Texts that name different run directories in one place read alike. */
  lemma RunRootCollapses(before: string, id: string, after: string)
    requires '/' !in before && PlainRunId(id) && (after == "" || EndsRunId(after[0]))
    ensures CollapseRunRoots(before + RUN_ROOT + id + after) == before + ("<AGENTENV_TMP>" + CollapseRunRoots(after))
  {
    Regrouped(before, RUN_ROOT, id, after);
    CollapseSkips(before, RUN_ROOT + (id + after));
    LeadingRunRoot(id, after);
  }

  lemma Regrouped(a: string, b: string, c: string, d: string)
    ensures a + b + c + d == a + (b + (c + d))
  {
  }

  // ---------------------------------------------------------------- a harness

  const SECRET := "wooden-horse-7"
  const REDACTED_SECRET := "[REDACTED_SECRET]"

  const harness := Harness(
    (c: Content) => 0, (s: string) => 0,
    (s: string) => ReplaceAll(s, SECRET, REDACTED_SECRET),
    (s: Seed) => "", (s: Seed) => 0, (s: Seed) => "", (s: string) => s,
    (path: string, patch: string, s: Seed) => Scorer.Threw(Scorer.TimeoutExpired))

  const dumps := Dumps(
    (s: string) => CollapseRunRoots(s), (l: Location) => "",
    (m: map<ArtifactName, Slot>) => JNull, (f: ScorerFile, run: Scorer.AttemptRun) => JNull,
    (r: Scorer.AttemptResult) => JNull)

  const plan := Plan(None, None, Provenance(0, ""), Some("script"))

  /** An attempt whose workspace preparation raised an OSError. */
  function Raising(attemptId: string, message: string): Side {
    Side(plan, Generation(attemptId, "task.yaml", AgentGeneration.UNKNOWN_TASK, "", "", 0, None, None, "", None,
                          Some(ErrorDetails("OSError", message, ""))), 0)
  }

  /** Whatever two such attempts raised: stored it reads alike, but the stored message is not the fresh one. */
  lemma RaisedMismatch(m1: string, m2: string)
    requires Stored(harness, dumps)(m1) == Stored(harness, dumps)(m2)
    requires Stored(harness, dumps)(ErrorText(ErrorDetails("OSError", m1, ""))) == Stored(harness, dumps)(ErrorText(ErrorDetails("OSError", m2, "")))
    requires harness.redact(m1) != m2
    ensures var source, replay := Raising("agent_attempt_1", m1), Raising("agent_attempt_2", m2);
      && IsReplay(harness, dumps, source, replay)
      && ReplayVerdict.Comparable(Compared(harness, None, ReplayVerdict.WholeSource, source, replay))
      && !ReplayVerdict.Matched(ReplayVerdict.ComparisonOf(Compared(harness, None, ReplayVerdict.WholeSource, source, replay), Normal(harness, dumps)))
  {
    var source, replay := Raising("agent_attempt_1", m1), Raising("agent_attempt_2", m2);
    RaisingIsReplay(m1, m2);
    RaisingFails(m1, m2);
    UnchangedReplayMatchesIff(harness, dumps, None, ReplayVerdict.WholeSource, source, replay);
  }

  lemma RaisingIsReplay(m1: string, m2: string)
    requires Stored(harness, dumps)(m1) == Stored(harness, dumps)(m2)
    requires Stored(harness, dumps)(ErrorText(ErrorDetails("OSError", m1, ""))) == Stored(harness, dumps)(ErrorText(ErrorDetails("OSError", m2, "")))
    ensures IsReplay(harness, dumps, Raising("agent_attempt_1", m1), Raising("agent_attempt_2", m2))
  {
    var source, replay := Raising("agent_attempt_1", m1), Raising("agent_attempt_2", m2);
    RaisingIsSound("agent_attempt_1", m1);
    RaisingIsSound("agent_attempt_2", m2);
    RaisedGenerationsAreTwins(harness, dumps, source.generation, replay.generation);
    TwinsMakeReplay(harness, dumps, source, replay);
  }

  lemma RaisingIsSound(attemptId: string, message: string)
    ensures SoundSide(Raising(attemptId, message)) && Raising(attemptId, message).plan == ReplayPlan(plan)
  {
  }

  /** Nothing but an exception is left of either generation. */
  lemma RaisedGenerationsAreTwins(h: Harness, k: Dumps, a: Generation, b: Generation)
    requires a.taskId == b.taskId && a.taskManifestPath == b.taskManifestPath && a.candidatePatch == b.candidatePatch
    requires a.view.None? && b.view.None? && a.loop.None? && b.loop.None? && a.candidatePath.None? && b.candidatePath.None?
    requires a.errorDetails.Some? && b.errorDetails.Some? && TwinDetails(h, k, a.errorDetails.value, b.errorDetails.value)
    ensures TwinGenerations(h, k, a, b) && !GoesToScoring(a)
  {
  }

  lemma RaisingFails(m1: string, m2: string)
    requires harness.redact(m1) != m2
    ensures var source, replay := Raising("agent_attempt_1", m1), Raising("agent_attempt_2", m2);
      !RedactsTo(harness, FailureOf(harness, source.generation, source.seed), FailureOf(harness, replay.generation, replay.seed))
  {
  }

  lemma WholeReplaced(target: string, substitute: string)
    requires |target| > 0
    ensures ReplaceAll(target, target, substitute) == substitute
  {
    assert target[..|target|] == target && target[|target|..] == "";
    assert ReplaceAll("", target, substitute) == "";
    assert substitute + "" == substitute;
  }

  /** A message with a secret in it is stored redacted and raised again as it was. */
  lemma SecretInErrorMismatches()
    ensures var source, replay := Raising("agent_attempt_1", SECRET), Raising("agent_attempt_2", SECRET);
      && IsReplay(harness, dumps, source, replay)
      && ReplayVerdict.Comparable(Compared(harness, None, ReplayVerdict.WholeSource, source, replay))
      && !ReplayVerdict.Matched(ReplayVerdict.ComparisonOf(Compared(harness, None, ReplayVerdict.WholeSource, source, replay), Normal(harness, dumps)))
  {
    WholeReplaced(SECRET, REDACTED_SECRET);
    assert |REDACTED_SECRET| != |SECRET|;
    RaisedMismatch(SECRET, SECRET);
  }

  lemma {:induction false} NothingToReplace(s: string, target: string, substitute: string)
    requires |target| > 0 && target[0] !in s
    ensures ReplaceAll(s, target, substitute) == s
  {
    if |s| >= |target| {
      assert s[0] in s;
      StartsOtherwise(s, target);
      NothingToReplace(s[1..], target, substitute);
    }
  }

  /** A message naming the run directory reads alike in the files and differs in the compared field. */
  lemma RunRootInErrorMismatches(a: string, b: string)
    requires PlainRunId(a) && PlainRunId(b) && a != b && 'w' !in a && 'w' !in b
    ensures var source, replay := Raising("agent_attempt_1", RUN_ROOT + a), Raising("agent_attempt_2", RUN_ROOT + b);
      && IsReplay(harness, dumps, source, replay)
      && ReplayVerdict.Comparable(Compared(harness, None, ReplayVerdict.WholeSource, source, replay))
      && !ReplayVerdict.Matched(ReplayVerdict.ComparisonOf(Compared(harness, None, ReplayVerdict.WholeSource, source, replay), Normal(harness, dumps)))
  {
    MessageReads(a);
    MessageReads(b);
    ReportReads(a);
    ReportReads(b);
    assert (RUN_ROOT + a)[|RUN_ROOT|..] == a && (RUN_ROOT + b)[|RUN_ROOT|..] == b;
    RaisedMismatch(RUN_ROOT + a, RUN_ROOT + b);
  }

  lemma MessageReads(id: string)
    requires PlainRunId(id) && 'w' !in id
    ensures harness.redact(RUN_ROOT + id) == RUN_ROOT + id
    ensures Stored(harness, dumps)(RUN_ROOT + id) == "" + ("<AGENTENV_TMP>" + CollapseRunRoots(""))
  {
    RunRootHasNoSecret();
    InNeither(RUN_ROOT, id, 'w');
    NothingToReplace(RUN_ROOT + id, SECRET, REDACTED_SECRET);
    RunRootCollapses("", id, "");
    Framed(RUN_ROOT, id);
  }

  lemma RunRootHasNoSecret()
    ensures 'w' !in RUN_ROOT && SECRET[0] == 'w'
  {
  }

  lemma InNeither(a: string, b: string, c: char)
    requires c !in a && c !in b
    ensures c !in a + b
  {
  }

  lemma Framed(a: string, b: string)
    ensures "" + a + b + "" == a + b
  {
  }

  const BEFORE := "Error class: " + "OSError" + "\n" + "Message: "
  const AFTER := "\n" + "\n" + "Traceback:\n"

  lemma ReportIs(message: string)
    ensures ErrorText(ErrorDetails("OSError", message, "")) == BEFORE + message + AFTER
  {
  }

  lemma FrameIsPlain()
    ensures '/' !in BEFORE && 'w' !in BEFORE && 'w' !in AFTER && AFTER[0] == '\n'
  {
  }

  lemma ReportReads(id: string)
    requires PlainRunId(id) && 'w' !in id
    ensures Stored(harness, dumps)(ErrorText(ErrorDetails("OSError", RUN_ROOT + id, "")))
         == BEFORE + ("<AGENTENV_TMP>" + CollapseRunRoots(AFTER))
  {
    FrameIsPlain();
    ReportIs(RUN_ROOT + id);
    var text := BEFORE + (RUN_ROOT + id) + AFTER;
    assert text == BEFORE + RUN_ROOT + id + AFTER;
    NothingToReplace(text, SECRET, REDACTED_SECRET);
    RunRootCollapses(BEFORE, id, AFTER);
  }
}
