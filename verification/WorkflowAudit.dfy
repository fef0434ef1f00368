/** The audit trail of a workflow run: after every write of run_workflow, after every commit of its stream. */
module WorkflowAudit {
  import opened Prelude
  import opened WorkflowRuns
  import opened WorkflowExecution
  import opened WorkflowThreading

  /** What may follow the pairs of e completed steps. */
  ghost predicate LogTail(j: Job, e: nat, tail: seq<Event>)
    requires e <= |j.ordered|
  {
    || tail == []
    || (e < |j.ordered| && tail == [WorkflowStepStarted(j.ordered[e].order)])
    || (e < |j.ordered| && |tail| == 2 && tail[0] == WorkflowStepStarted(j.ordered[e].order) && tail[1].WorkflowFailed?)
    || (e == |j.ordered| && |tail| == 1 && tail[0].WorkflowCompleted?)
  }

  /** The whole language of the event log, with e completed steps. */
  ghost predicate LogShape(j: Job, events: seq<Event>, e: nat) {
    && e <= |j.ordered|
    && (events == [] || (LogUpTo(j, e) <= events && LogTail(j, e, events[|LogUpTo(j, e)|..])))
  }

  /**
   A prefix of d COMPLETED rows, each with the input its step was given and the output it returned, and at most one
   more row, RUNNING or FAILED, with the input of its step and, if failed, the error.
   */
  ghost predicate RowsShape(j: Job, rows: seq<StepRow>, d: nat) {
    && d <= |rows| <= d + 1
    && |rows| <= |j.ordered|
    && rows[..d] == DoneRows(j, d)
    && (|rows| == d + 1 ==> rows[d] == OpenRow(j, d) || rows[d] == FailedRow(j, d))
  }

  /** The log may lag one step behind the rows, never more. */
  ghost predicate AuditShape(j: Job, a: Audit) {
    exists d: nat, e: nat :: RowsShape(j, a.steps, d) && LogShape(j, a.events, e) && e <= d <= e + 1
  }

  lemma Shaped(j: Job, a: Audit, d: nat, e: nat)
    requires RowsShape(j, a.steps, d) && LogShape(j, a.events, e) && e <= d <= e + 1
    ensures AuditShape(j, a)
  {
  }

  /** A completed step's row holds the input it was given and the output it returned. */
  lemma {:induction false} CompletedRows(j: Job, n: nat, i: nat)
    requires i < n <= |j.ordered|
    ensures DoneRows(j, n)[i] == DoneRow(j, i)
    decreases n
  {
    if i < n - 1 {
      CompletedRows(j, n - 1, i);
    }
  }

  lemma DoneRowsAreShaped(j: Job, n: nat)
    requires n <= |j.ordered|
    ensures RowsShape(j, DoneRows(j, n), n)
  {
    assert DoneRows(j, n)[..n] == DoneRows(j, n);
  }

  /** One more row after n completed ones. */
  lemma OneMoreRow(j: Job, n: nat, row: StepRow)
    requires n < |j.ordered|
    ensures row == OpenRow(j, n) || row == FailedRow(j, n) ==> RowsShape(j, DoneRows(j, n) + [row], n)
    ensures row == DoneRow(j, n) ==> RowsShape(j, DoneRows(j, n) + [row], n + 1)
  {
    var rows := DoneRows(j, n) + [row];
    assert rows[..n] == DoneRows(j, n) && rows[..n + 1] == rows;
  }

  /** The rows around step n, before it is started, while it runs, when it is done and when it has failed. */
  lemma RowsAroundStep(j: Job, n: nat)
    requires n < |j.ordered|
    ensures RowsShape(j, DoneRows(j, n) + [OpenRow(j, n)], n)
    ensures RowsShape(j, DoneRows(j, n) + [FailedRow(j, n)], n)
    ensures RowsShape(j, DoneRows(j, n) + [DoneRow(j, n)], n + 1)
  {
    OneMoreRow(j, n, OpenRow(j, n));
    OneMoreRow(j, n, FailedRow(j, n));
    OneMoreRow(j, n, DoneRow(j, n));
  }

  /** The log around step n. */
  lemma LogAroundStep(j: Job, n: nat)
    requires n < |j.ordered|
    ensures After(j, n).events == LogUpTo(j, n) && LogShape(j, LogUpTo(j, n), n)
    ensures Started(j, n).events == LogUpTo(j, n) + [WorkflowStepStarted(j.ordered[n].order)]
    ensures LogShape(j, Started(j, n).events, n)
    ensures After(j, n + 1).events == LogUpTo(j, n + 1) && LogShape(j, LogUpTo(j, n + 1), n + 1)
  {
    assert Started(j, n).events[|LogUpTo(j, n)|..] == [WorkflowStepStarted(j.ordered[n].order)];
  }

  /** Any state with these rows and this log around step n is shaped. */
  lemma AroundStepIsShaped(j: Job, n: nat, a: Audit, row: StepRow)
    requires n < |j.ordered| && row in {OpenRow(j, n), FailedRow(j, n), DoneRow(j, n)}
    requires a.steps == DoneRows(j, n) + [row]
    requires a.events == LogUpTo(j, n) || a.events == Started(j, n).events
    ensures AuditShape(j, a)
  {
    RowsAroundStep(j, n);
    LogAroundStep(j, n);
    Shaped(j, a, if row == DoneRow(j, n) then n + 1 else n, n);
  }

  lemma FailureIsShaped(j: Job, n: nat, a: Audit)
    requires n < |j.ordered| && a in FailedMoments(j, n)
    ensures AuditShape(j, a)
  {
    if a == Broken(j, n) {
      AroundStepIsShaped(j, n, a, FailedRow(j, n));
    } else {
      assert a == FailedMoments(j, n)[0] || a == Started(j, n);
      AroundStepIsShaped(j, n, a, OpenRow(j, n));
    }
  }

  lemma AfterIsShaped(j: Job, n: nat)
    requires n <= |j.ordered|
    ensures AuditShape(j, After(j, n))
  {
    DoneRowsAreShaped(j, n);
    Shaped(j, After(j, n), n, n);
  }

  lemma StepIsShaped(j: Job, n: nat, a: Audit)
    requires n < |j.ordered| && a in StepMoments(j, n)
    ensures AuditShape(j, a)
  {
    var moments := StepMoments(j, n);
    if a == After(j, n + 1) {
      AfterIsShaped(j, n + 1);
    } else if a == moments[2] {
      AroundStepIsShaped(j, n, a, DoneRow(j, n));
    } else {
      assert a == moments[0] || a == moments[1];
      AroundStepIsShaped(j, n, a, OpenRow(j, n));
    }
  }

  lemma CreationIsShaped(j: Job, a: Audit)
    requires a in Created(j)
    ensures AuditShape(j, a)
  {
    DoneRowsAreShaped(j, 0);
    assert LogShape(j, a.events, 0);
    Shaped(j, a, 0, 0);
  }

  lemma {:induction false} ProgressIsShaped(j: Job, n: nat, a: Audit)
    requires n <= |j.ordered| && a in MomentsUpTo(j, n)
    ensures AuditShape(j, a)
    decreases n
  {
    if n == 0 {
      CreationIsShaped(j, a);
    } else if a in MomentsUpTo(j, n - 1) {
      ProgressIsShaped(j, n - 1, a);
    } else {
      StepIsShaped(j, n - 1, a);
    }
  }

  lemma CompletedEndIsShaped(j: Job, result: string, a: Audit)
    requires a in LastMoments(j, |j.ordered|, result)
    ensures AuditShape(j, a)
  {
    var k, log := |j.ordered|, LogUpTo(j, |j.ordered|);
    DoneRowsAreShaped(j, k);
    assert a.steps == DoneRows(j, k);
    assert a.events == log || a.events == log + [WorkflowCompleted(|result|)];
    assert a.events[|log|..] == [] || a.events[|log|..] == [WorkflowCompleted(|result|)];
    Shaped(j, a, k, k);
  }

  lemma FailedEndIsShaped(j: Job, k: nat, result: string, a: Audit)
    requires k < |j.ordered| && a in LastMoments(j, k, result)
    ensures AuditShape(j, a)
  {
    if a in FailedMoments(j, k) {
      FailureIsShaped(j, k, a);
    } else {
      var log, order := LogUpTo(j, k), j.ordered[k].order;
      assert a.steps == DoneRows(j, k) + [FailedRow(j, k)];
      if a.events == Started(j, k).events {
        AroundStepIsShaped(j, k, a, FailedRow(j, k));
      } else {
        RowsAroundStep(j, k);
        assert a.events == log + [WorkflowStepStarted(order), WorkflowFailed(FailureOf(j, k))];
        assert a.events[|log|..] == [WorkflowStepStarted(order), WorkflowFailed(FailureOf(j, k))];
        Shaped(j, a, k, k);
      }
    }
  }

  /** After every single write of run_workflow, and of its stream, rows and log have their shape. */
  lemma EveryMomentIsShaped(j: Job, result: string, a: Audit)
    requires a in Moments(j, result)
    ensures AuditShape(j, a)
  {
    var k := Completed(j);
    if a in MomentsUpTo(j, k) {
      ProgressIsShaped(j, k, a);
    } else if k == |j.ordered| {
      CompletedEndIsShaped(j, result, a);
    } else {
      FailedEndIsShaped(j, k, result, a);
    }
  }

  lemma RowOfShape(j: Job, rows: seq<StepRow>, d: nat, i: nat)
    requires RowsShape(j, rows, d) && i < |rows|
    ensures rows[i] == DoneRow(j, i) || (i == |rows| - 1 && (rows[i] == OpenRow(j, i) || rows[i] == FailedRow(j, i)))
  {
    if i < d {
      CompletedRows(j, d, i);
      assert rows[i] == rows[..d][i];
    }
  }

  lemma RowsOfAudit(j: Job, a: Audit) returns (d: nat)
    requires AuditShape(j, a)
    ensures RowsShape(j, a.steps, d)
  {
    var e: nat;
    d, e :| RowsShape(j, a.steps, d) && LogShape(j, a.events, e) && e <= d <= e + 1;
  }

  /**
   At every moment, row i is that of step i: completed, with the step's input and output, or the last row, running or
   failed with the step's input.
   */
  lemma EveryRowIsItsStep(j: Job, result: string, a: Audit, i: nat)
    requires a in Moments(j, result) && i < |a.steps|
    ensures i < |j.ordered|
    ensures a.steps[i] == DoneRow(j, i)
            || (i == |a.steps| - 1 && (a.steps[i] == OpenRow(j, i) || a.steps[i] == FailedRow(j, i)))
  {
    EveryMomentIsShaped(j, result, a);
    var d := RowsOfAudit(j, a);
    RowOfShape(j, a.steps, d, i);
  }

  // ---------------------------------------------------------------------------------------------
  // Completed rows are final
  // ---------------------------------------------------------------------------------------------

  /** Every row completed in a is there unchanged in b. */
  ghost predicate Keeps(a: Audit, b: Audit) {
    forall i | 0 <= i < |a.steps| && a.steps[i].status == StepCompleted :: i < |b.steps| && b.steps[i] == a.steps[i]
  }

  ghost predicate KeepsAlong(moments: seq<Audit>) {
    forall i | 0 <= i < |moments| - 1 :: Keeps(moments[i], moments[i + 1])
  }

  lemma JoinKeeping(s: seq<Audit>, t: seq<Audit>)
    requires KeepsAlong(s) && KeepsAlong(t) && s != [] && t != [] && Keeps(s[|s| - 1], t[0])
    ensures KeepsAlong(s + t) && (s + t)[|s + t| - 1] == t[|t| - 1]
  {
    forall i | 0 <= i < |s + t| - 1
      ensures Keeps((s + t)[i], (s + t)[i + 1])
    {
      if i < |s| - 1 {
        assert (s + t)[i] == s[i] && (s + t)[i + 1] == s[i + 1];
      } else if i >= |s| {
        assert (s + t)[i] == t[i - |s|] && (s + t)[i + 1] == t[i - |s| + 1];
      }
    }
  }

  lemma StepKeeps(j: Job, n: nat)
    requires n < |j.ordered|
    ensures KeepsAlong(StepMoments(j, n)) && Keeps(After(j, n), StepMoments(j, n)[0])
    ensures KeepsAlong(FailedMoments(j, n)) && Keeps(After(j, n), FailedMoments(j, n)[0])
  {
  }

  /** Moments that keep completed rows and end after n steps. */
  ghost predicate KeepsUpTo(j: Job, n: nat, moments: seq<Audit>)
    requires n <= |j.ordered|
  {
    moments != [] && KeepsAlong(moments) && moments[|moments| - 1] == After(j, n)
  }

  lemma CreationKeeps(j: Job)
    ensures KeepsUpTo(j, 0, Created(j))
  {
  }

  lemma JoinStep(j: Job, n: nat, before: seq<Audit>, all: seq<Audit>)
    requires n < |j.ordered| && KeepsUpTo(j, n, before) && all == before + StepMoments(j, n)
    ensures KeepsUpTo(j, n + 1, all)
  {
    StepKeeps(j, n);
    JoinKeeping(before, StepMoments(j, n));
  }

  lemma {:induction false} ProgressKeeps(j: Job, n: nat)
    requires n <= |j.ordered|
    ensures KeepsUpTo(j, n, MomentsUpTo(j, n))
    decreases n
  {
    if n == 0 {
      CreationKeeps(j);
    } else {
      ProgressKeeps(j, n - 1);
      JoinStep(j, n - 1, MomentsUpTo(j, n - 1), MomentsUpTo(j, n));
    }
  }

  lemma {:induction false} KeepsAcross(moments: seq<Audit>, i: nat, k: nat)
    requires KeepsAlong(moments) && i <= k < |moments|
    ensures Keeps(moments[i], moments[k])
    decreases k
  {
    if i < k {
      KeepsAcross(moments, i, k - 1);
      assert Keeps(moments[k - 1], moments[(k - 1) + 1]);
    }
  }

  /** Nothing that happens later, a failure least of all, alters a completed step's row. */
  lemma CompletedRowsAreFinal(j: Job, result: string, i: nat, k: nat)
    requires i <= k < |Moments(j, result)|
    ensures Keeps(Moments(j, result)[i], Moments(j, result)[k])
  {
    var n := Completed(j);
    ProgressKeeps(j, n);
    if n < |j.ordered| {
      StepKeeps(j, n);
      var tail := LastMoments(j, n, result)[3..];
      assert LastMoments(j, n, result) == FailedMoments(j, n) + tail;
      assert KeepsAlong(tail) && tail[0].steps == Broken(j, n).steps;
      JoinKeeping(FailedMoments(j, n), tail);
    }
    JoinKeeping(MomentsUpTo(j, n), LastMoments(j, n, result));
    KeepsAcross(Moments(j, result), i, k);
  }

  // ---------------------------------------------------------------------------------------------
  // What the rows say
  // ---------------------------------------------------------------------------------------------

  lemma {:induction false} NoFailureYet(j: Job, n: nat, a: Audit)
    requires n <= |j.ordered| && a in MomentsUpTo(j, n)
    ensures forall i | 0 <= i < |a.steps| :: a.steps[i].status != StepFailed
    decreases n
  {
    if n > 0 && a in MomentsUpTo(j, n - 1) {
      NoFailureYet(j, n - 1, a);
    }
  }

  /** Only the step that raised has a failed row. */
  lemma FailedRowsRaised(j: Job, result: string, a: Audit, i: nat)
    requires a in Moments(j, result) && i < |a.steps| && a.steps[i].status == StepFailed
    ensures i == Completed(j) < |j.ordered|
  {
    if a in MomentsUpTo(j, Completed(j)) {
      NoFailureYet(j, Completed(j), a);
    }
  }

  /** Only a step that returned has a completed row. */
  lemma CompletedRowsReturned(j: Job, result: string, a: Audit, i: nat)
    requires a in Moments(j, result) && i < |a.steps| && a.steps[i].status == StepCompleted
    ensures i < Completed(j)
  {
    var moments, k := Moments(j, result), Completed(j);
    var m :| 0 <= m < |moments| && moments[m] == a;
    CompletedRowsAreFinal(j, result, m, |moments| - 1);
    assert moments[|moments| - 1] == Ended(j, k, result);
    assert Ended(j, k, result).steps[i].status == StepCompleted;
  }

  /** The row tells what happened: what the step was given, and what came of it. */
  predicate Truthful(j: Job, row: StepRow, i: nat)
    requires i < |j.ordered|
  {
    && row.order == j.ordered[i].order
    && match row.status {
         case StepRunning => row.output == None && row.error == None
         case StepCompleted =>
           row.output.Some? && row.error == None && j.run(j.ordered[i], row.input) == Ok(row.output.value)
         case StepFailed =>
           row.output == None && row.error.Some? && j.run(j.ordered[i], row.input) == Err(row.error.value)
       }
  }

  /** At every moment every row is that of its step and says what running the step on the row's input gave. */
  lemma RowsTellTheTruth(j: Job, result: string, a: Audit, i: nat)
    requires a in Moments(j, result) && i < |a.steps|
    ensures i < |j.ordered| && Truthful(j, a.steps[i], i)
  {
    EveryRowIsItsStep(j, result, a, i);
    if a.steps[i].status == StepCompleted {
      CompletedRowsReturned(j, result, a, i);
      CompletedStepsSucceed(j, 0, i);
    } else if a.steps[i].status == StepFailed {
      FailedRowsRaised(j, result, a, i);
    }
  }

  /** With consecutive steps the first row's input is the run's, and every other one the output of the row before it. */
  lemma RowsAreThreaded(j: Job, result: string, a: Audit, i: nat)
    requires Consecutive(j.ordered) && a in Moments(j, result) && i < |a.steps|
    ensures i == 0 ==> a.steps[i].input == j.input
    ensures i > 0 ==> a.steps[i - 1].output == Some(a.steps[i].input)
  {
    EveryRowIsItsStep(j, result, a, i);
    if i == 0 {
      InputIsPipeline(j, 0);
    } else {
      EveryRowIsItsStep(j, result, a, i - 1);
      CompletedRowsReturned(j, result, a, i - 1);
      InputIsPipeline(j, i);
    }
  }

  // ---------------------------------------------------------------------------------------------
  // Commits of the stream
  // ---------------------------------------------------------------------------------------------

  /** Committed rows and log agree exactly: no lag, and the terminal status comes with its event. */
  ghost predicate CommitShape(j: Job, a: Audit, e: nat) {
    && e <= |j.ordered|
    && RowsShape(j, a.steps, e)
    && a.run.Some?
    && LogUpTo(j, e) <= a.events
    && var tail := a.events[|LogUpTo(j, e)|..];
       && LogTail(j, e, tail)
       && (|a.steps| == e + 1 <==> tail != [] && tail[0].WorkflowStepStarted?)
       && (a.run.value.status == RunCompleted <==>
             tail != []
             && tail[|tail| - 1]
                == WorkflowCompleted(if a.run.value.result.Some? then |a.run.value.result.value| else 0))
       && (a.run.value.status == RunFailed <==>
             |tail| == 2 && a.run.value.error.Some? && tail[1] == WorkflowFailed(a.run.value.error.value))
       && (a.run.value.status == RunCompleted ==>
             && a.run.value.result.Some?
             && a.messages == [UserMessage(j.input), AssistantMessage(a.run.value.result.value)])
       && (a.run.value.status != RunCompleted ==> a.messages == [UserMessage(j.input)])
       && (a.run.value.status == RunFailed ==> a.steps[e].status == StepFailed)
  }

  ghost predicate Consistent(j: Job, a: Audit) {
    exists e: nat :: CommitShape(j, a, e)
  }

  lemma StatesAreConsistent(j: Job, n: nat)
    requires n <= |j.ordered|
    ensures CommitShape(j, After(j, n), n)
    ensures n < |j.ordered| ==> CommitShape(j, Started(j, n), n) && CommitShape(j, Broken(j, n), n)
  {
    DoneRowsAreShaped(j, n);
    if n < |j.ordered| {
      RowsAroundStep(j, n);
      assert Started(j, n).events == LogUpTo(j, n) + [WorkflowStepStarted(j.ordered[n].order)];
    }
  }

  lemma EndIsConsistent(j: Job, n: nat, result: string)
    requires n <= |j.ordered|
    ensures CommitShape(j, Ended(j, n, result), n)
  {
    var log := LogUpTo(j, n);
    DoneRowsAreShaped(j, n);
    if n < |j.ordered| {
      RowsAroundStep(j, n);
      var order := j.ordered[n].order;
      assert Ended(j, n, result).events == log + [WorkflowStepStarted(order), WorkflowFailed(FailureOf(j, n))];
    } else {
      assert Ended(j, n, result).events == log + [WorkflowCompleted(|result|)];
    }
  }

  lemma CreationIsConsistent(j: Job, a: Audit)
    requires a == Created(j)[2] || a == After(j, 0)
    ensures CommitShape(j, a, 0)
  {
  }

  lemma {:induction false} ProgressIsConsistent(j: Job, n: nat, a: Audit)
    requires n <= |j.ordered| && a in CommitsUpTo(j, n)
    ensures Consistent(j, a)
    decreases n
  {
    if n == 0 {
      CreationIsConsistent(j, a);
    } else if a in CommitsUpTo(j, n - 1) {
      ProgressIsConsistent(j, n - 1, a);
    } else if a == After(j, n) {
      StatesAreConsistent(j, n);
    } else {
      assert a == Started(j, n - 1);
      StatesAreConsistent(j, n - 1);
    }
  }

  /** Whatever commit a reader sees, rows, log, messages and status tell the same story. */
  lemma EveryCommitIsConsistent(j: Job, result: string, a: Audit)
    requires a in Commits(j, result)
    ensures Consistent(j, a)
  {
    var k := Completed(j);
    if a in CommitsUpTo(j, k) {
      ProgressIsConsistent(j, k, a);
    } else if a == Ended(j, k, result) {
      EndIsConsistent(j, k, result);
    } else {
      StatesAreConsistent(j, k);
    }
  }

  lemma {:induction false} CommitsOfStep(j: Job, n: nat, i: nat)
    requires i < n <= |j.ordered|
    ensures Started(j, i) in CommitsUpTo(j, n) && After(j, i + 1) in CommitsUpTo(j, n)
    decreases n
  {
    if i < n - 1 {
      CommitsOfStep(j, n - 1, i);
    }
  }

  /** A reader can see every step that is reached while it runs, and every step that returns once it has. */
  lemma EveryStepIsCommitted(j: Job, result: string, i: nat)
    requires i <= Completed(j) && i < |j.ordered|
    ensures exists a :: a in Commits(j, result) && |a.steps| == i + 1 && a.steps[i].status == StepRunning
    ensures i < Completed(j) ==>
              exists a :: a in Commits(j, result) && |a.steps| == i + 1 && a.steps[i].status == StepCompleted
  {
    var k := Completed(j);
    assert Started(j, i).steps[i] == OpenRow(j, i) && |Started(j, i).steps| == i + 1;
    if i < k {
      CommitsOfStep(j, k, i);
      assert After(j, i + 1) in Commits(j, result) && Started(j, i) in Commits(j, result);
    } else {
      assert Started(j, k) in Commits(j, result);
    }
  }

  /** The last commit says how the run ended: completed with its result, or failed at the first step that raised. */
  lemma LastCommitSaysHowItEnded(j: Job, result: string)
    ensures var last, k := Commits(j, result)[|Commits(j, result)| - 1], Completed(j);
      && (forall n | 0 <= n < k :: Outcome(j, n).Ok?)
      && (k == |j.ordered| ==> last.run == Some(RunRow(RunCompleted, Some(result), None)) && |last.steps| == k)
      && (k < |j.ordered| ==>
            && Outcome(j, k).Err? && |last.steps| == k + 1
            && last.run == Some(RunRow(RunFailed, None, Some(StepRaised(j.ordered[k].order, Outcome(j, k).error)))))
  {
    var k := Completed(j);
    forall n | 0 <= n < k
      ensures Outcome(j, n).Ok?
    {
      CompletedStepsSucceed(j, 0, n);
    }
    assert Commits(j, result)[|Commits(j, result)| - 1] == Ended(j, k, result);
  }

  // ---------------------------------------------------------------------------------------------
  // What the run endpoint keeps
  // ---------------------------------------------------------------------------------------------

  /**
   A request that runs a workflow to its end without streaming keeps the trail of the run exactly when every step
   succeeds; the trail of a failed run, which says so, is rolled back with the request.
   */
  lemma TrailIsKeptIff(j: Job)
    ensures Kept(j) == Ended(j, Completed(j), LastOutput(j)) <==> forall n | 0 <= n < |j.ordered| :: Outcome(j, n).Ok?
    ensures Kept(j) == NOTHING <==> exists n | 0 <= n < |j.ordered| :: Outcome(j, n).Err?
  {
    if Completed(j) == |j.ordered| {
      forall n | 0 <= n < |j.ordered|
        ensures Outcome(j, n).Ok?
      {
        CompletedStepsSucceed(j, 0, n);
      }
    } else {
      assert Outcome(j, Completed(j)).Err?;
      assert Ended(j, Completed(j), LastOutput(j)).run.Some?;
    }
  }

  /** A workflow whose only step raises: its trail ends in a FAILED run, and nothing of it is kept. */
  lemma AFailedTrailIsLost()
    ensures exists j: Job ::
      Ended(j, Completed(j), "").run == Some(RunRow(RunFailed, None, Some(StepRaised(0, "down")))) && Kept(j) == NOTHING
  {
    var j := Job([Step(0, "agent")], (step, input) => Err("down"), "in");
    assert Outcome(j, 0) == Err("down");
    assert Completed(j) == 0;
    assert Ended(j, Completed(j), "").run == Some(RunRow(RunFailed, None, Some(StepRaised(0, "down"))));
  }
}
