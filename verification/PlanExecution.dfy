/** Building and executing plans with retries: app/planning/service.py and app/execution/service.py. */
module PlanExecution {
  import opened Prelude
  import opened Sorting

  datatype Target = Agent | Team

  datatype PlanStep = PlanStep(
    target: Target,
    teamCode: Option<string>,
    agentCode: Option<string>,
    inputTemplate: Option<string>,
    maxRetries: int,
    order: int)

  /** One caller-supplied step of an explicit plan. */
  datatype RawStep = RawStep(teamCode: Option<string>, agentCode: Option<string>, inputTemplate: Option<string>,
                             maxRetries: Option<int>)

  datatype Plan = Plan(message: string, steps: seq<PlanStep>)

  datatype RunStatus = Running | Retrying | Completed | Failed

  datatype StepRun = StepRun(order: int, target: Target, targetCode: string, status: RunStatus, attempts: nat,
                             input: string, output: Option<string>, error: Option<string>)

  datatype PlanRun = PlanRun(input: string, status: RunStatus, result: Option<string>, error: Option<string>)

  datatype PlanError = EngineDisabled | NoSteps | StepFailed(order: int, text: string)

  /** What one try at a step gives. Every try is made at a moment of its own, so tries are independent. */
  type TryFn = (PlanStep, string, nat) -> Result<string, string>

  const BY_ORDER: PlanStep -> int := (s: PlanStep) => s.order

  predicate Given(text: Option<string>) {
    text.Some? && text.value != ""
  }

  // ---------------------------------------------------------------------------------------------
  // Planning
  // ---------------------------------------------------------------------------------------------

  /** The step keeps what was asked for, and its place; it goes to the team whenever one is named. */
  predicate Plans(step: PlanStep, raw: RawStep, place: nat) {
    && step.order == place
    && step.teamCode == raw.teamCode && step.agentCode == raw.agentCode && step.inputTemplate == raw.inputTemplate
    && step.maxRetries == (if raw.maxRetries.Some? then raw.maxRetries.value else 0)
    && (step.target == Team <==> raw.teamCode !in {None, Some("")})
  }

  /** build_plan. Without the feature or without explicit steps it is the one step of a direct dispatch. */
  method BuildPlan(planning: bool, message: string, teamCode: Option<string>, agentCode: Option<string>,
                   explicitSteps: seq<RawStep>) returns (plan: Plan)
    ensures plan.message == message
    ensures var wanted := if planning && explicitSteps != [] then explicitSteps
                          else [RawStep(teamCode, agentCode, None, None)];
      |plan.steps| == |wanted| && forall i | 0 <= i < |wanted| :: Plans(plan.steps[i], wanted[i], i)
  {
    if !planning || explicitSteps == [] {
      var target := if teamCode.Some? && teamCode.value != "" then Team else Agent;
      return Plan(message, [PlanStep(target, teamCode, agentCode, None, 0, 0)]);
    }
    var steps: seq<PlanStep> := [];
    for i := 0 to |explicitSteps|
      invariant |steps| == i && forall k | 0 <= k < i :: Plans(steps[k], explicitSteps[k], k)
    {
      var raw := explicitSteps[i];
      var target := if raw.teamCode.Some? && raw.teamCode.value != "" then Team else Agent;
      var retries := if raw.maxRetries.Some? then raw.maxRetries.value else 0;
      steps := steps + [PlanStep(target, raw.teamCode, raw.agentCode, raw.inputTemplate, retries, i)];
    }
    plan := Plan(message, steps);
  }

  // ---------------------------------------------------------------------------------------------
  // What a plan's execution is
  // ---------------------------------------------------------------------------------------------

  /** How many tries a step is allowed. */
  function Allowed(step: PlanStep): nat
    ensures Allowed(step) >= 1
  {
    if step.maxRetries + 1 > 1 then step.maxRetries + 1 else 1
  }

  /** The tries made: up to the first success, but never more than are left. */
  function Tries(run: TryFn, step: PlanStep, input: string, clock: nat, left: nat): nat
    requires left >= 1
    decreases left
  {
    if left == 1 || run(step, input, clock).Ok? then 1 else 1 + Tries(run, step, input, clock + 1, left - 1)
  }

  function Code(code: Option<string>): string {
    if code.Some? then code.value else ""
  }

  function StepInput(step: PlanStep, previous: string): string {
    if Given(step.inputTemplate) then step.inputTemplate.value else previous
  }

  function Row(step: PlanStep, input: string, tries: nat, out: Result<string, string>): StepRun {
    StepRun(step.order, step.target, Code(if step.target == Team then step.teamCode else step.agentCode),
            if out.Ok? then Completed else Failed, tries, input,
            if out.Ok? then Some(out.value) else None, if out.Err? then Some(out.error) else None)
  }

  function ErrorText(error: PlanError): string {
    match error
    case EngineDisabled => "Execution Engine is not enabled on this deployment"
    case NoSteps => "ExecutionPlan has no steps to execute"
    case StepFailed(_, text) => text
  }

  /** How one step ends: its outcome, the moment after it, and its row. */
  datatype StepEnd = StepEnd(out: Result<string, string>, clock: nat, row: StepRun)

  /** The step run on its template or the previous output, tried until it first succeeds. */
  function Ended(run: TryFn, step: PlanStep, previous: string, clock: nat): StepEnd {
    var input := StepInput(step, previous);
    var tries := Tries(run, step, input, clock, Allowed(step));
    var out := run(step, input, clock + tries - 1);
    StepEnd(out, clock + tries, Row(step, input, tries, out))
  }

  datatype Progress = Progress(out: Result<string, PlanError>, clock: nat, rows: seq<StepRun>)

  function Outcome(step: PlanStep, out: Result<string, string>): Result<string, PlanError> {
    match out
    case Ok(text) => Ok(text)
    case Err(why) => Err(StepFailed(step.order, why))
  }

  /** The first n steps, each run on the output before it; a failure stops. */
  function Executed(run: TryFn, steps: seq<PlanStep>, n: nat, message: string, clock: nat): Progress
    requires n <= |steps|
    decreases n
  {
    if n == 0 then Progress(Ok(message), clock, [])
    else
      var before := Executed(run, steps, n - 1, message, clock);
      if before.out.Err? then before
      else
        var end := Ended(run, steps[n - 1], before.out.value, before.clock);
        Progress(Outcome(steps[n - 1], end.out), end.clock, before.rows + [end.row])
  }

  lemma OneMoreStep(run: TryFn, steps: seq<PlanStep>, n: nat, message: string, start: nat, at: Progress)
    requires n < |steps| && Executed(run, steps, n, message, start) == at && at.out.Ok?
    ensures var end := Ended(run, steps[n], at.out.value, at.clock);
      Executed(run, steps, n + 1, message, start)
      == Progress(Outcome(steps[n], end.out), end.clock, at.rows + [end.row])
  {
  }

  lemma {:induction false} FailedPlansStop(run: TryFn, steps: seq<PlanStep>, m: nat, n: nat, message: string,
      clock: nat)
    requires m <= n <= |steps| && Executed(run, steps, m, message, clock).out.Err?
    ensures Executed(run, steps, n, message, clock) == Executed(run, steps, m, message, clock)
    decreases n
  {
    if m < n {
      FailedPlansStop(run, steps, m, n - 1, message, clock);
    }
  }

  // ---------------------------------------------------------------------------------------------
  // The execution engine
  // ---------------------------------------------------------------------------------------------

  class ExecutionEngine {
    var planRuns: seq<PlanRun>
    var stepRuns: seq<StepRun>
    var clock: nat

    constructor ()
      ensures planRuns == [] && stepRuns == []
    {
      planRuns, stepRuns, clock := [], [], 0;
    }

    /** _execute_step_with_retry, on the step row created last. */
    method ExecuteStepWithRetry(run: TryFn, step: PlanStep, input: string) returns (out: Result<string, string>)
      requires stepRuns != [] && stepRuns[|stepRuns| - 1].attempts == 0
      requires stepRuns[|stepRuns| - 1].status == Running
      modifies `stepRuns, `clock
      ensures clock > old(clock) && out == run(step, input, clock - 1)
      ensures forall moment: nat | old(clock) <= moment < clock - 1 :: run(step, input, moment).Err?
      ensures clock <= old(clock) + step.maxRetries + 1 || clock == old(clock) + 1
      ensures out.Err? ==> clock == old(clock) + if step.maxRetries > 0 then step.maxRetries + 1 else 1
      ensures var tries := Tries(run, step, input, old(clock), Allowed(step));
        && clock == old(clock) + tries
        && stepRuns == old(stepRuns[..|stepRuns| - 1]) + [old(stepRuns[|stepRuns| - 1])
             .(attempts := tries, status := if tries > 1 then Retrying else Running)]
    {
      var attempts, last := if step.maxRetries + 1 > 1 then step.maxRetries + 1 else 1, |stepRuns| - 1;
      ghost var others, row := stepRuns[..last], stepRuns[last];
      assert stepRuns == others + [row];
      var made := 0;
      while true
        invariant 0 <= made < attempts && clock == old(clock) + made
        invariant forall moment: nat | old(clock) <= moment < clock :: run(step, input, moment).Err?
        invariant Tries(run, step, input, old(clock), attempts)
               == made + Tries(run, step, input, clock, attempts - made)
        invariant stepRuns == others + [row.(attempts := made, status := if made > 1 then Retrying else Running)]
        decreases attempts - made
      {
        made := made + 1;
        stepRuns := stepRuns[last := stepRuns[last].(attempts := stepRuns[last].attempts + 1)];
        if stepRuns[last].attempts > 1 {
          stepRuns := stepRuns[last := stepRuns[last].(status := Retrying)];
        }
        out := run(step, input, clock);
        clock := clock + 1;
        if out.Ok? || made == attempts {
          return;
        }
      }
    }

    /** run_plan. */
    method RunPlan(enabled: bool, run: TryFn, plan: Plan) returns (out: Result<string, PlanError>)
      modifies this
      ensures !enabled ==> out == Err(EngineDisabled)
      ensures enabled && plan.steps == [] ==> out == Err(NoSteps)
      ensures !enabled || plan.steps == [] ==> planRuns == old(planRuns) && stepRuns == old(stepRuns)
      ensures enabled && plan.steps != [] ==>
        var end := Executed(run, Sort(plan.steps, BY_ORDER), |Sort(plan.steps, BY_ORDER)|, plan.message, old(clock));
        && out == end.out && clock == end.clock && stepRuns == old(stepRuns) + end.rows
        && planRuns == old(planRuns) + [match end.out
             case Ok(result) => PlanRun(plan.message, Completed, Some(result), None)
             case Err(e) => PlanRun(plan.message, Failed, None, Some(ErrorText(e)))]
    {
      if !enabled {
        return Err(EngineDisabled);
      }
      if plan.steps == [] {
        return Err(NoSteps);
      }
      var planRun := |planRuns|;
      planRuns := planRuns + [PlanRun(plan.message, Running, None, None)];
      var result := RunSteps(run, Sort(plan.steps, BY_ORDER), plan.message);
      if result.Err? {
        planRuns := planRuns[planRun := planRuns[planRun].(status := Failed, error := Some(ErrorText(result.error)))];
        return result;
      }
      planRuns := planRuns[planRun := planRuns[planRun].(status := Completed, result := Some(result.value))];
      out := result;
    }

    /** The endpoint: run_plan inside get_db, which rolls the rows of a failed plan back with the request. */
    method RunPlanRequest(enabled: bool, run: TryFn, plan: Plan) returns (out: Result<string, PlanError>)
      modifies this
      ensures out.Ok? <==>
                && enabled && plan.steps != []
                && var ordered := Sort(plan.steps, BY_ORDER);
                   Executed(run, ordered, |ordered|, plan.message, old(clock)).out.Ok?
      ensures out.Ok? ==>
        stepRuns == old(stepRuns)
          + Executed(run, Sort(plan.steps, BY_ORDER), |Sort(plan.steps, BY_ORDER)|, plan.message, old(clock)).rows
      ensures out.Ok? ==> planRuns == old(planRuns) + [PlanRun(plan.message, Completed, Some(out.value), None)]
      ensures out.Err? ==> planRuns == old(planRuns) && stepRuns == old(stepRuns)
    {
      var savedPlans, savedSteps := planRuns, stepRuns;
      out := RunPlan(enabled, run, plan);
      if out.Err? {
        planRuns, stepRuns := savedPlans, savedSteps;
      }
    }

    /** run_plan's loop. */
    method RunSteps(run: TryFn, steps: seq<PlanStep>, message: string) returns (out: Result<string, PlanError>)
      modifies `stepRuns, `clock
      ensures old(stepRuns) <= stepRuns
      ensures Executed(run, steps, |steps|, message, old(clock)) == Progress(out, clock, stepRuns[|old(stepRuns)|..])
    {
      var current := message;
      ghost var done: seq<StepRun> := [];
      for i := 0 to |steps|
        invariant stepRuns == old(stepRuns) + done
        invariant Executed(run, steps, i, message, old(clock)) == Progress(Ok(current), clock, done)
      {
        OneMoreStep(run, steps, i, message, old(clock), Progress(Ok(current), clock, done));
        var result := RunStep(run, steps[i], current);
        done := done + [stepRuns[|stepRuns| - 1]];
        if result.Err? {
          out := Err(StepFailed(steps[i].order, result.error));
          FailedPlansStop(run, steps, i + 1, |steps|, message, old(clock));
          return;
        }
        current := result.value;
      }
      out := Ok(current);
    }

    /** One turn of run_plan's loop: the row, the tries, and the row's final state. */
    method RunStep(run: TryFn, step: PlanStep, current: string) returns (out: Result<string, string>)
      modifies `stepRuns, `clock
      ensures var end := Ended(run, step, current, old(clock));
        out == end.out && clock == end.clock && stepRuns == old(stepRuns) + [end.row]
    {
      var input := if step.inputTemplate.Some? && step.inputTemplate.value != "" then step.inputTemplate.value
          else current;
      var code := if step.target == Team then step.teamCode else step.agentCode;
      var last := |stepRuns|;
      stepRuns := stepRuns + [StepRun(step.order, step.target, if code.Some? then code.value else "", Running, 0, input,
                                      None, None)];
      out := ExecuteStepWithRetry(run, step, input);
      if out.Err? {
        stepRuns := stepRuns[last := stepRuns[last].(status := Failed, error := Some(out.error))];
      } else {
        stepRuns := stepRuns[last := stepRuns[last].(status := Completed, output := Some(out.value))];
      }
    }
  }
}
