/** Workflow execution as a fold: each step is given what the one before it returned. */
module WorkflowThreading {
  import opened Prelude
  import opened Sorting
  import opened WorkflowRuns
  import opened WorkflowExecution

  /** The fold the documentation describes: input -> step 1 -> output -> step 2 -> ... */
  function Pipeline(j: Job, n: nat): Result<string, Failure>
    requires n <= |j.ordered|
  {
    if n == 0 then Ok(j.input)
    else
      var before := Pipeline(j, n - 1);
      if before.Err? then before
      else
        var here := j.run(j.ordered[n - 1], before.value);
        if here.Ok? then Ok(here.value) else Err(StepRaised(j.ordered[n - 1].order, here.error))
  }

  /** What RunWorkflow returns for a runnable workflow. */
  function RunResult(j: Job): Result<string, Failure> {
    if Completed(j) == |j.ordered| then Ok(LastOutput(j)) else Err(FailureOf(j, Completed(j)))
  }

  /** No gap between adjacent steps, and step 0, which always gets the original input, comes first if it comes. */
  ghost predicate Consecutive(ordered: seq<Step>) {
    forall i | 1 <= i < |ordered| :: ordered[i].order == ordered[i - 1].order + 1 && ordered[i].order != 0
  }

  lemma {:induction false} CompletedStepsSucceed(j: Job, n: nat, i: nat)
    requires n <= |j.ordered| && n <= i < CompletedFrom(j, n)
    ensures Outcome(j, i).Ok?
    decreases |j.ordered| - n
  {
    if n < i {
      CompletedStepsSucceed(j, n + 1, i);
    }
  }

  lemma {:induction false} InputIsPipeline(j: Job, n: nat)
    requires Consecutive(j.ordered) && n <= Completed(j)
    ensures n < |j.ordered| ==> Pipeline(j, n) == Ok(StepInput(j, n))
    ensures n > 0 ==> Pipeline(j, n) == Ok(Text(Outcome(j, n - 1)))
    decreases n
  {
    if n > 0 {
      InputIsPipeline(j, n - 1);
      CompletedStepsSucceed(j, 0, n - 1);
    }
  }

  lemma {:induction false} FailedPipeline(j: Job, k: nat, n: nat)
    requires k < n <= |j.ordered| && Pipeline(j, k + 1).Err?
    ensures Pipeline(j, n) == Pipeline(j, k + 1)
    decreases n
  {
    if n > k + 1 {
      FailedPipeline(j, k, n - 1);
    }
  }

  lemma RunIsPipeline(j: Job)
    requires Consecutive(j.ordered)
    ensures RunResult(j) == Pipeline(j, |j.ordered|)
  {
    var k := Completed(j);
    InputIsPipeline(j, k);
    if k < |j.ordered| {
      FailedPipeline(j, k, |j.ordered|);
    }
  }

  /** replace_steps: the submitted list, numbered from 0. */
  function ReplaceSteps(targets: seq<string>): (steps: seq<Step>)
    ensures |steps| == |targets|
    ensures forall i | 0 <= i < |targets| :: steps[i] == Step(i, targets[i])
  {
    if targets == [] then []
    else
      var n := |targets| - 1;
      ReplaceSteps(targets[..n]) + [Step(n, targets[n])]
  }

  /** Whatever order the rows come back in, a workflow runs its submitted steps as one fold. */
  lemma AnyRowOrderRunsThePipeline(targets: seq<string>, rows: seq<Step>, run: StepFn, input: string)
    requires multiset(rows) == multiset(ReplaceSteps(targets))
    ensures Sort(rows, STEP_ORDER) == ReplaceSteps(targets)
    ensures RunResult(Job(Sort(rows, STEP_ORDER), run, input)) ==
              Pipeline(Job(ReplaceSteps(targets), run, input), |targets|)
  {
    SortOfPermutation(rows, ReplaceSteps(targets), STEP_ORDER);
    RunIsPipeline(Job(ReplaceSteps(targets), run, input));
  }

  lemma {:induction false} ResultKeys(j: Job, n: nat)
    requires n <= |j.ordered| && Increasing(j.ordered, STEP_ORDER)
    ensures forall o :: o in Results(j, n) <==> exists m :: 0 <= m < n && j.ordered[m].order == o
    ensures forall m | 0 <= m < n :: Results(j, n)[j.ordered[m].order] == Text(Outcome(j, m))
    decreases n
  {
    if n > 0 {
      ResultKeys(j, n - 1);
      forall m | 0 <= m < n
        ensures j.ordered[m].order in Results(j, n) && Results(j, n)[j.ordered[m].order] == Text(Outcome(j, m))
      {
        if m < n - 1 {
          assert STEP_ORDER(j.ordered[m]) < STEP_ORDER(j.ordered[n - 1]);
        }
      }
    }
  }

  /** The fallback in previous_output is dead code for a workflow numbered by replace_steps. */
  lemma DefaultIsNeverUsed(targets: seq<string>, run: StepFn, input: string, n: nat)
    requires 0 < n < |targets|
    ensures var j := Job(ReplaceSteps(targets), run, input);
            j.ordered[n].order != 0 && j.ordered[n].order - 1 in Results(j, n)
  {
    var j := Job(ReplaceSteps(targets), run, input);
    ResultKeys(j, n);
    assert j.ordered[n - 1].order == n - 1;
  }

  // ---------------------------------------------------------------------------------------------
  // Exactly which numberings run as a fold
  // ---------------------------------------------------------------------------------------------

  ghost predicate AlwaysAPipeline(ordered: seq<Step>) {
    forall run: StepFn, input: string :: RunResult(Job(ordered, run, input))
        == Pipeline(Job(ordered, run, input), |ordered|)
  }

  /** A step function under which every step adds one character. */
  const COUNT: StepFn := (step: Step, input: string) => Ok(input + ".")

  lemma {:induction false} CountCompletes(j: Job, n: nat)
    requires j.run == COUNT && n <= |j.ordered|
    ensures CompletedFrom(j, n) == |j.ordered|
    decreases |j.ordered| - n
  {
    if n < |j.ordered| {
      CountCompletes(j, n + 1);
    }
  }

  lemma {:induction false} CountPipeline(j: Job, n: nat)
    requires j.run == COUNT && n <= |j.ordered|
    ensures Pipeline(j, n).Ok? && |Pipeline(j, n).value| == |j.input| + n
    decreases n
  {
    if n > 0 {
      CountPipeline(j, n - 1);
    }
  }

  /** A step is given the workflow's input, or the output of the step numbered one below it. */
  lemma InputComesFrom(j: Job, n: nat) returns (m: int)
    requires n < |j.ordered| && Increasing(j.ordered, STEP_ORDER)
    ensures m < n
    ensures m < 0 ==> StepInput(j, n) == j.input
    ensures m >= 0 ==>
              && j.ordered[n].order != 0 && j.ordered[m].order == j.ordered[n].order - 1
              && StepInput(j, n) == Text(Outcome(j, m))
  {
    ResultKeys(j, n);
    m := -1;
    var order := j.ordered[n].order;
    if order != 0 && order - 1 in Results(j, n) {
      m :| 0 <= m < n && j.ordered[m].order == order - 1;
    }
  }

  /** Behind a gap at step i, every output is at least one step short. */
  lemma {:induction false} CountFallsShort(j: Job, i: nat, n: nat)
    requires j.run == COUNT && Increasing(j.ordered, STEP_ORDER) && n < |j.ordered| && 1 <= i < |j.ordered|
    requires j.ordered[i].order != j.ordered[i - 1].order + 1 || j.ordered[i].order == 0
    ensures |Text(Outcome(j, n))| <= |j.input| + n + (if n < i then 1 else 0)
    decreases n
  {
    var m := InputComesFrom(j, n);
    assert |Text(Outcome(j, n))| == |StepInput(j, n)| + 1;
    if m >= 0 {
      CountFallsShort(j, i, m);
      assert STEP_ORDER(j.ordered[i - 1]) < STEP_ORDER(j.ordered[i]);
      assert forall a | 0 <= a < i - 1 :: STEP_ORDER(j.ordered[a]) < STEP_ORDER(j.ordered[i - 1]);
    }
  }

  lemma NotConsecutive(ordered: seq<Step>, i: nat)
    requires Increasing(ordered, STEP_ORDER) && 1 <= i < |ordered|
    requires ordered[i].order != ordered[i - 1].order + 1 || ordered[i].order == 0
    ensures !AlwaysAPipeline(ordered)
  {
    var j := Job(ordered, COUNT, "");
    CountCompletes(j, 0);
    CountPipeline(j, |ordered|);
    CountFallsShort(j, i, |ordered| - 1);
    assert RunResult(j) == Ok(LastOutput(j));
    assert RunResult(Job(ordered, COUNT, "")) != Pipeline(Job(ordered, COUNT, ""), |ordered|);
  }

  /** Distinctly numbered steps run as a fold, for all step functions and inputs, exactly when they are consecutive. */
  lemma PipelineIffConsecutive(ordered: seq<Step>)
    requires Increasing(ordered, STEP_ORDER)
    ensures AlwaysAPipeline(ordered) <==> Consecutive(ordered)
  {
    if Consecutive(ordered) {
      forall run: StepFn, input: string
        ensures RunResult(Job(ordered, run, input)) == Pipeline(Job(ordered, run, input), |ordered|)
      {
        RunIsPipeline(Job(ordered, run, input));
      }
    } else {
      var i :| 1 <= i < |ordered| && !(ordered[i].order == ordered[i - 1].order + 1 && ordered[i].order != 0);
      NotConsecutive(ordered, i);
    }
  }

  // ---------------------------------------------------------------------------------------------
  // The streaming twin
  // ---------------------------------------------------------------------------------------------

  /** "The result at the highest key" is the last step's output. */
  lemma FinalResultIsLastOutput(j: Job, text: string)
    requires j.ordered != [] && Increasing(j.ordered, STEP_ORDER) && IsFinalResult(Results(j, |j.ordered|), text)
    ensures text == LastOutput(j)
  {
    var n := |j.ordered|;
    ResultKeys(j, n);
    var last := j.ordered[n - 1].order;
    assert last in Results(j, n);
    var k :| k in Results(j, n) && (forall m | m in Results(j, n) :: m <= k) && text == Results(j, n)[k];
    assert forall a | 0 <= a < n - 1 :: STEP_ORDER(j.ordered[a]) < STEP_ORDER(j.ordered[n - 1]);
    assert k == last;
  }

  /** Streaming a step and running it give the same text, or the same error. */
  ghost predicate Agree(run: StepFn, stream: StreamFn) {
    forall step, input :: Collected(stream)(step, input) == run(step, input)
  }

  lemma {:induction false} SameResults(j: Job, s: Job, n: nat)
    requires j.ordered == s.ordered && j.input == s.input && n <= |j.ordered|
    requires forall step, input :: j.run(step, input) == s.run(step, input)
    ensures Results(j, n) == Results(s, n)
    ensures n < |j.ordered| ==> StepInput(j, n) == StepInput(s, n) && Outcome(j, n) == Outcome(s, n)
    decreases n
  {
    if n > 0 {
      SameResults(j, s, n - 1);
    }
  }

  lemma {:induction false} SameCompleted(j: Job, s: Job, n: nat)
    requires j.ordered == s.ordered && j.input == s.input && n <= |j.ordered|
    requires forall step, input :: j.run(step, input) == s.run(step, input)
    ensures CompletedFrom(j, n) == CompletedFrom(s, n)
    decreases |j.ordered| - n
  {
    SameResults(j, s, n);
    if n < |j.ordered| {
      SameCompleted(j, s, n + 1);
    }
  }

  /** The two entry points end alike: same result, or the same step failing with the same error. */
  lemma TwinsAgree(ordered: seq<Step>, run: StepFn, stream: StreamFn, input: string, text: string)
    requires ordered != [] && Increasing(ordered, STEP_ORDER) && Agree(run, stream)
    ensures var j, s := Job(ordered, run, input), Job(ordered, Collected(stream), input);
            && RunResult(j) == RunResult(s)
            && (Completed(s) == |ordered| && IsFinalResult(Results(s, |ordered|), text) ==> RunResult(j) == Ok(text))
  {
    var j, s := Job(ordered, run, input), Job(ordered, Collected(stream), input);
    SameCompleted(j, s, 0);
    SameResults(j, s, |ordered| - 1);
    if Completed(s) < |ordered| {
      SameResults(j, s, Completed(s));
    } else if IsFinalResult(Results(s, |ordered|), text) {
      FinalResultIsLastOutput(s, text);
    }
  }
}
