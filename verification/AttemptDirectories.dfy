/** Closed forms for runs of writes and runs of removals on an attempt directory, and for their crash points. */
module AttemptDirectories {
  import opened Wrappers
  import opened AgentAttempt

  predicate AllWrites(ops: seq<FileOp>) {
    forall i :: 0 <= i < |ops| ==> ops[i].Write?
  }

  predicate AllRemoves(ops: seq<FileOp>) {
    forall i :: 0 <= i < |ops| ==> ops[i].Remove?
  }

  function WrittenSlots(ops: seq<FileOp>): set<Slot>
    requires AllWrites(ops)
  {
    set i | 0 <= i < |ops| :: ops[i].slot
  }

  function RemovedSlots(ops: seq<FileOp>): set<Slot>
    requires AllRemoves(ops)
  {
    set i | 0 <= i < |ops| :: ops[i].slot
  }

  /** After a run of writes: new slots hold one of the written contents, the others are untouched. */
  lemma {:induction false} ExecWrites(d: Dir, ops: seq<FileOp>)
    requires AllWrites(ops)
    ensures Exec(d, ops).Keys == d.Keys + WrittenSlots(ops)
    ensures forall s :: s in d && s !in WrittenSlots(ops) ==> Exec(d, ops)[s] == d[s]
    ensures forall s :: s in WrittenSlots(ops) ==> Write(s, Exec(d, ops)[s]) in ops
  {
    if |ops| > 0 {
      var rest, last := ops[..|ops| - 1], ops[|ops| - 1];
      ExecWrites(d, rest);
      assert WrittenSlots(ops) == WrittenSlots(rest) + {last.slot} by {
        forall s | s in WrittenSlots(ops) ensures s in WrittenSlots(rest) + {last.slot} {
          var i :| 0 <= i < |ops| && ops[i].slot == s;
          if i < |rest| {
            assert rest[i].slot == s;
          }
        }
        forall s | s in WrittenSlots(rest) ensures s in WrittenSlots(ops) {
          var i :| 0 <= i < |rest| && rest[i].slot == s;
          assert ops[i].slot == s;
        }
        assert ops[|ops| - 1].slot == last.slot;
      }
      forall s | s in WrittenSlots(ops) ensures Write(s, Exec(d, ops)[s]) in ops {
        if s != last.slot {
          assert Write(s, Exec(d, rest)[s]) in rest;
        }
      }
    }
  }

  /** A run of removals just shrinks the directory. */
  lemma {:induction false} ExecRemoves(d: Dir, ops: seq<FileOp>)
    requires AllRemoves(ops)
    ensures Exec(d, ops) == d - RemovedSlots(ops)
  {
    if |ops| > 0 {
      var rest, last := ops[..|ops| - 1], ops[|ops| - 1];
      ExecRemoves(d, rest);
      forall s | s in RemovedSlots(ops) ensures s in RemovedSlots(rest) + {last.slot} {
        var i :| 0 <= i < |ops| && ops[i].slot == s;
        if i < |rest| {
          assert rest[i].slot == s;
        }
      }
      forall s | s in RemovedSlots(rest) + {last.slot} ensures s in RemovedSlots(ops) {
        if s != last.slot {
          var i :| 0 <= i < |rest| && rest[i].slot == s;
          assert ops[i].slot == s;
        } else {
          assert ops[|ops| - 1].slot == s;
        }
      }
      assert RemovedSlots(ops) == RemovedSlots(rest) + {last.slot};
    }
  }

  /** Crashing inside the second of two runs is finishing the first and crashing inside the second. */
  lemma CrashInSecond(d: Dir, a: seq<FileOp>, b: seq<FileOp>, k: nat)
    requires |a| <= k <= |a| + |b|
    ensures CrashAfter(d, a + b, k) == CrashAfter(Exec(d, a), b, k - |a|)
  {
    assert (a + b)[..k] == a + b[..k - |a|];
    ExecConcat(d, a, b[..k - |a|]);
  }

  lemma CrashInFirst(d: Dir, a: seq<FileOp>, b: seq<FileOp>, k: nat)
    requires k <= |a|
    ensures CrashAfter(d, a + b, k) == CrashAfter(d, a, k)
  {
    assert (a + b)[..k] == a[..k];
  }

  // ---------------------------------------------------------------- what two runs may differ in

  function EraseClock(): Scorer.Clock {
    Scorer.Clock("", "", 0)
  }

  function EraseCommand(h: Harness, c: Scorer.AttemptCommand): Scorer.AttemptCommand {
    c.(result := c.result.(stdout := h.normalText(c.result.stdout), stderr := h.normalText(c.result.stderr)))
  }

  function EraseResult(r: Scorer.AttemptResult): Scorer.AttemptResult {
    r.(identity := r.identity.(scorerAttemptId := ""), clock := EraseClock())
  }

  /** Scorer ids, clock values and text noise removed. */
  function EraseAttempt(h: Harness, run: Scorer.AttemptRun): Scorer.AttemptRun {
    run.(result := EraseResult(run.result),
         commands := seq(|run.commands|, i requires 0 <= i < |run.commands| => EraseCommand(h, run.commands[i])))
  }

  /** A message as it is stored, text noise removed. */
  function EraseMessage(h: Harness, message: string): string {
    h.normalText(h.redact(message))
  }

  function EraseContent(h: Harness, c: Content): Content {
    match c
    case RunFile(r) =>
      RunFile(r.(endedAt := "", durationMs := 0,
                 errorMessage := if r.errorMessage.Some? then Some(h.normalText(r.errorMessage.value)) else None,
                 attemptResult := if r.attemptResult.Some? then Some(EraseResult(r.attemptResult.value)) else None))
    case ErrorFile(Some(e)) => ErrorFile(Some(e.(message := EraseMessage(h, e.message), traceback := "")))
    case ScorerPayload(file, run) => ScorerPayload(file, EraseAttempt(h, run))
    case _ => c
  }

  function EraseDir(h: Harness, d: Dir): Dir {
    map s | s in d :: EraseContent(h, d[s])
  }

  /** Two write runs over the same slots with contents that erase alike. */
  predicate TwinWrites(h: Harness, a: seq<FileOp>, b: seq<FileOp>) {
    && AllWrites(a) && AllWrites(b) && |a| == |b|
    && forall i :: 0 <= i < |a| ==> a[i].slot == b[i].slot && EraseContent(h, a[i].content) == EraseContent(h, b[i].content)
  }

  lemma {:induction false} TwinWritesEndAlike(h: Harness, d: Dir, a: seq<FileOp>, b: seq<FileOp>)
    requires TwinWrites(h, a, b)
    ensures EraseDir(h, Exec(d, a)) == EraseDir(h, Exec(d, b))
  {
    if |a| > 0 {
      var n := |a| - 1;
      TwinWritesEndAlike(h, d, a[..n], b[..n]);
      var da, db := Exec(d, a[..n]), Exec(d, b[..n]);
      assert EraseDir(h, da).Keys == da.Keys && EraseDir(h, db).Keys == db.Keys;
      forall s | s in Exec(d, a)
        ensures s in Exec(d, b) && EraseContent(h, Exec(d, a)[s]) == EraseContent(h, Exec(d, b)[s])
      {
        if s != a[n].slot {
          assert EraseDir(h, da)[s] == EraseDir(h, db)[s];
        }
      }
    }
  }
}
