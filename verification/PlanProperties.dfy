/** What plan execution with retries promises over whole runs. */
module PlanProperties {
  import opened Prelude
  import opened Sorting
  import opened PlanExecution

  /** The try that counts is the first success, or the last try allowed when there is none. */
  lemma {:induction false} TriesEndAtFirstSuccess(run: TryFn, step: PlanStep, input: string, clock: nat, left: nat)
    requires left >= 1
    ensures var tries := Tries(run, step, input, clock, left);
      && 1 <= tries <= left
      && (forall moment: nat | clock <= moment < clock + tries - 1 :: run(step, input, moment).Err?)
      && (run(step, input, clock + tries - 1).Ok? || tries == left)
    decreases left
  {
    if left > 1 && run(step, input, clock).Err? {
      TriesEndAtFirstSuccess(run, step, input, clock + 1, left - 1);
    }
  }

  /** max_retries tries after the first one; without a positive max_retries the first one is all. */
  function AllTries(step: PlanStep): nat {
    if step.maxRetries > 0 then step.maxRetries + 1 else 1
  }

  /** One step ends with its first success, or when the tries now and in the max_retries moments after all fail. */
  lemma StepTries(run: TryFn, step: PlanStep, previous: string, clock: nat)
    ensures var end, input := Ended(run, step, previous, clock), StepInput(step, previous);
      && (end.out.Err? <==> forall moment: nat | moment == clock || clock < moment <= clock + step.maxRetries ::
                              run(step, input, moment).Err?)
      && (end.out.Err? ==> end.clock == clock + AllTries(step))
      && clock < end.clock <= clock + AllTries(step)
      && end.out == run(step, input, end.clock - 1)
      && (forall moment: nat | clock <= moment < end.clock - 1 :: run(step, input, moment).Err?)
  {
    TriesEndAtFirstSuccess(run, step, StepInput(step, previous), clock, Allowed(step));
  }

  /** Step k is reached, and every one of its tries fails. */
  ghost predicate Exhausts(run: TryFn, steps: seq<PlanStep>, k: nat, message: string, clock: nat)
    requires k < |steps|
  {
    var at := Executed(run, steps, k, message, clock);
    && at.out.Ok?
    && forall moment: nat | moment == at.clock || at.clock < moment <= at.clock + steps[k].maxRetries ::
         run(steps[k], StepInput(steps[k], at.out.value), moment).Err?
  }

  lemma StepFailsIffExhausted(run: TryFn, steps: seq<PlanStep>, k: nat, message: string, clock: nat)
    requires k < |steps| && Executed(run, steps, k, message, clock).out.Ok?
    ensures Executed(run, steps, k + 1, message, clock).out.Err? <==> Exhausts(run, steps, k, message, clock)
  {
    var at := Executed(run, steps, k, message, clock);
    StepTries(run, steps[k], at.out.value, at.clock);
  }

  /** A plan fails exactly when some step that is reached fails all its tries. */
  lemma {:induction false} PlanFailsIff(run: TryFn, steps: seq<PlanStep>, n: nat, message: string, clock: nat)
    requires n <= |steps|
    ensures Executed(run, steps, n, message, clock).out.Err?
       <==> exists k | 0 <= k < n :: Exhausts(run, steps, k, message, clock)
    decreases n
  {
    if n > 0 {
      PlanFailsIff(run, steps, n - 1, message, clock);
      if Executed(run, steps, n - 1, message, clock).out.Ok? {
        StepFailsIffExhausted(run, steps, n - 1, message, clock);
      }
    }
  }

  /** The row names the step's place and the team or agent it went to. */
  predicate IsRowOf(row: StepRun, step: PlanStep) {
    && row.order == step.order && row.target == step.target
    && var code := if step.target == Team then step.teamCode else step.agentCode;
       row.targetCode == (if code.Some? then code.value else "")
  }

  ghost predicate Shaped(steps: seq<PlanStep>, n: nat, end: Progress)
    requires n <= |steps|
  {
    && |end.rows| <= n
    && (forall i | 0 <= i < |end.rows| ::
         IsRowOf(end.rows[i], steps[i]) && 1 <= end.rows[i].attempts <= AllTries(steps[i]))
    && (end.out.Ok? ==> |end.rows| == n && forall i | 0 <= i < n :: end.rows[i].status == Completed)
    && (end.out.Err? ==>
         var last := |end.rows| - 1;
         && last >= 0
         && end.rows[last].status == Failed && end.rows[last].attempts == AllTries(steps[last])
         && end.out.error.StepFailed? && end.rows[last].error == Some(end.out.error.text)
         && forall i | 0 <= i < last :: end.rows[i].status == Completed)
  }

  /** A step's row: completed within the tries allowed, or failed after all of them. */
  ghost predicate RowShaped(step: PlanStep, end: StepEnd) {
    && IsRowOf(end.row, step)
    && 1 <= end.row.attempts <= AllTries(step)
    && (end.out.Ok? ==> end.row.status == Completed && end.row.output == Some(end.out.value))
    && (end.out.Err? ==> end.row.status == Failed && end.row.attempts == AllTries(step)
                         && end.row.error == Some(end.out.error))
  }

  lemma EndedIsShaped(run: TryFn, step: PlanStep, previous: string, clock: nat)
    ensures RowShaped(step, Ended(run, step, previous, clock))
    ensures Ended(run, step, previous, clock).clock == clock + Ended(run, step, previous, clock).row.attempts
  {
    TriesEndAtFirstSuccess(run, step, StepInput(step, previous), clock, Allowed(step));
  }

  lemma ShapedByOneMore(steps: seq<PlanStep>, n: nat, at: Progress, end: StepEnd)
    requires n < |steps| && Shaped(steps, n, at) && at.out.Ok? && RowShaped(steps[n], end)
    ensures Shaped(steps, n + 1, Progress(Outcome(steps[n], end.out), end.clock, at.rows + [end.row]))
  {
  }

  /** A completed prefix; a failure adds one failed row that used all its tries, and no row after it. */
  lemma {:induction false} RowsAreShaped(run: TryFn, steps: seq<PlanStep>, n: nat, message: string, clock: nat)
    requires n <= |steps|
    ensures Shaped(steps, n, Executed(run, steps, n, message, clock))
    decreases n
  {
    if n > 0 {
      RowsAreShaped(run, steps, n - 1, message, clock);
      var at := Executed(run, steps, n - 1, message, clock);
      if at.out.Ok? {
        EndedIsShaped(run, steps[n - 1], at.out.value, at.clock);
        ShapedByOneMore(steps, n - 1, at, Ended(run, steps[n - 1], at.out.value, at.clock));
      }
    }
  }

  /** A failed plan carries the text of the step that failed, which is the last step with a row. */
  lemma FailedPlanNamesItsStep(run: TryFn, steps: seq<PlanStep>, n: nat, message: string, clock: nat)
    requires n <= |steps| && Executed(run, steps, n, message, clock).out.Err?
    ensures var end := Executed(run, steps, n, message, clock);
      && end.rows != [] && end.rows[|end.rows| - 1].status == Failed
      && end.rows[|end.rows| - 1].error == Some(ErrorText(end.out.error))
      && end.out.error == StepFailed(end.rows[|end.rows| - 1].order, ErrorText(end.out.error))
  {
    RowsAreShaped(run, steps, n, message, clock);
    FailedAt(run, steps, n, message, clock);
  }

  lemma {:induction false} FailedAt(run: TryFn, steps: seq<PlanStep>, n: nat, message: string, clock: nat)
    requires n <= |steps| && Executed(run, steps, n, message, clock).out.Err?
    ensures var end := Executed(run, steps, n, message, clock);
      end.rows != [] && end.out.error.StepFailed? && end.out.error.order == end.rows[|end.rows| - 1].order
    decreases n
  {
    if Executed(run, steps, n - 1, message, clock).out.Err? {
      FailedAt(run, steps, n - 1, message, clock);
    }
  }

  /** A later step never alters an earlier row. */
  lemma {:induction false} RowsOnlyGrow(run: TryFn, steps: seq<PlanStep>, m: nat, n: nat, message: string, clock: nat)
    requires m <= n <= |steps|
    ensures Executed(run, steps, m, message, clock).rows <= Executed(run, steps, n, message, clock).rows
    decreases n
  {
    if m < n {
      RowsOnlyGrow(run, steps, m, n - 1, message, clock);
    }
  }

  function OutputOf(rows: seq<StepRun>, i: nat, message: string): string
    requires i <= |rows| && (i > 0 ==> rows[i - 1].output.Some?)
  {
    if i == 0 then message else rows[i - 1].output.value
  }

  /** The row ran on its step's template, or else on the output of the row before it. */
  predicate RowThreaded(step: PlanStep, rows: seq<StepRun>, i: nat, message: string)
    requires i < |rows|
  {
    (i > 0 ==> rows[i - 1].output.Some?)
    && rows[i].input
       == if step.inputTemplate.Some? && step.inputTemplate.value != "" then step.inputTemplate.value
          else OutputOf(rows, i, message)
  }

  ghost predicate Threaded(steps: seq<PlanStep>, message: string, end: Progress) {
    && |end.rows| <= |steps|
    && (forall i | 0 <= i < |end.rows| :: RowThreaded(steps[i], end.rows, i, message))
    && (end.out.Ok? ==> (end.rows != [] ==> end.rows[|end.rows| - 1].output.Some?)
                        && end.out.value == OutputOf(end.rows, |end.rows|, message))
  }

  lemma ThreadedByOneMore(steps: seq<PlanStep>, message: string, at: Progress, end: StepEnd)
    requires |at.rows| < |steps| && Threaded(steps, message, at) && at.out.Ok?
    requires end.row.input == StepInput(steps[|at.rows|], at.out.value)
    requires end.out.Ok? ==> end.row.output == Some(end.out.value)
    ensures Threaded(steps, message, Progress(Outcome(steps[|at.rows|], end.out), end.clock, at.rows + [end.row]))
  {
    var rows := at.rows + [end.row];
    assert forall i | 0 <= i < |at.rows| :: rows[i] == at.rows[i];
    forall i | 0 <= i < |rows|
      ensures RowThreaded(steps[i], rows, i, message)
    {
      if i < |at.rows| {
        assert RowThreaded(steps[i], at.rows, i, message);
      } else {
        assert OutputOf(rows, i, message) == OutputOf(at.rows, i, message) == at.out.value;
      }
    }
  }

  /** Each step ran on its template or on the output of the row before it, and the last output is the result. */
  lemma {:induction false} OutputsAreThreaded(run: TryFn, steps: seq<PlanStep>, n: nat, message: string, clock: nat)
    requires n <= |steps|
    ensures Threaded(steps, message, Executed(run, steps, n, message, clock))
    decreases n
  {
    if n > 0 {
      OutputsAreThreaded(run, steps, n - 1, message, clock);
      RowsAreShaped(run, steps, n - 1, message, clock);
      var at := Executed(run, steps, n - 1, message, clock);
      if at.out.Ok? {
        ThreadedByOneMore(steps, message, at, Ended(run, steps[n - 1], at.out.value, at.clock));
      }
    }
  }

  function TotalAttempts(rows: seq<StepRun>, n: nat): nat
    requires n <= |rows|
  {
    if n == 0 then 0 else TotalAttempts(rows, n - 1) + rows[n - 1].attempts
  }

  function TotalAllowed(steps: seq<PlanStep>, n: nat): nat
    requires n <= |steps|
  {
    if n == 0 then 0 else TotalAllowed(steps, n - 1) + AllTries(steps[n - 1])
  }

  lemma {:induction false} SameAttempts(a: seq<StepRun>, b: seq<StepRun>, n: nat)
    requires n <= |a| && a <= b
    ensures TotalAttempts(a, n) == TotalAttempts(b, n)
    decreases n
  {
    if n > 0 {
      SameAttempts(a, b, n - 1);
    }
  }

  /** attempt_count counts every try made, and all the tries together stay within the steps' allowances. */
  lemma {:induction false} AttemptsCountTries(run: TryFn, steps: seq<PlanStep>, n: nat, message: string, clock: nat)
    requires n <= |steps|
    ensures var end := Executed(run, steps, n, message, clock);
      && end.clock == clock + TotalAttempts(end.rows, |end.rows|)
      && TotalAttempts(end.rows, |end.rows|) <= TotalAllowed(steps, n)
    decreases n
  {
    if n > 0 {
      AttemptsCountTries(run, steps, n - 1, message, clock);
      var at := Executed(run, steps, n - 1, message, clock);
      if at.out.Ok? {
        EndedIsShaped(run, steps[n - 1], at.out.value, at.clock);
        var end := Ended(run, steps[n - 1], at.out.value, at.clock);
        SameAttempts(at.rows, at.rows + [end.row], |at.rows|);
      }
    }
  }

  /** The planner numbers its steps in order, so the engine's sort restores that order from any arrangement of them. */
  lemma PlannedOrderIsKept(planned: seq<PlanStep>, arranged: seq<PlanStep>)
    requires forall i | 0 <= i < |planned| :: planned[i].order == i
    requires multiset(arranged) == multiset(planned)
    ensures Sort(arranged, BY_ORDER) == planned
  {
    SortOfPermutation(arranged, planned, BY_ORDER);
  }
}
