/**
 Sequential workflow execution, plain and streaming: app/agno_runtime/workflow_executor.py driven by
 app/services/workflow_execution_service.py over app/agno_runtime/workflow_context.py.
 */
module WorkflowExecution {
  import opened Prelude
  import opened Sorting
  import opened WorkflowRuns

  datatype Step = Step(order: int, target: string)

  /** What running a step on an input gives; each step runs once, so a function loses no behaviour. */
  type StepFn = (Step, string) -> Result<string, string>

  const STEP_ORDER: Step -> int := (s: Step) => s.order

  /** A workflow's steps in execution order, what they do, and the run's input. */
  datatype Job = Job(ordered: seq<Step>, run: StepFn, input: string)

  // ---------------------------------------------------------------------------------------------
  // WorkflowContext
  // ---------------------------------------------------------------------------------------------

  /** previous_output over given step results. */
  function PreviousOutput(results: map<int, string>, order: int, original: string): string {
    if order == 0 then original
    else if order - 1 in results then results[order - 1] else original
  }

  class WorkflowContext {
    var stepResults: map<int, string>
    var keys: seq<int>    // the dict's keys, in insertion order

    ghost predicate Valid()
      reads this
    {
      forall k :: k in keys <==> k in stepResults
    }

    constructor ()
      ensures Valid() && stepResults == map[]
    {
      stepResults, keys := map[], [];
    }

    method RecordResult(order: int, output: string)
      requires Valid()
      modifies this
      ensures Valid() && stepResults == old(stepResults)[order := output]
    {
      if order !in stepResults {
        keys := keys + [order];
      }
      stepResults := stepResults[order := output];
    }

    /** `stepResults.get(max(stepResults.keys()), "")`, or "" without results. */
    method FinalResult() returns (text: string)
      requires Valid()
      ensures IsFinalResult(stepResults, text)
    {
      if keys == [] {
        return "";
      }
      var top := keys[0];
      for i := 1 to |keys|
        invariant top in keys && forall k | k in keys[..i] :: k <= top
      {
        assert keys[..i + 1] == keys[..i] + [keys[i]];
        if keys[i] > top {
          top := keys[i];
        }
      }
      assert keys[..|keys|] == keys;
      return stepResults[top];
    }
  }

  ghost predicate IsFinalResult(results: map<int, string>, text: string) {
    || (text == "" && forall k :: k !in results)
    || (exists k :: k in results && (forall m | m in results :: m <= k) && text == results[k])
  }

  // ---------------------------------------------------------------------------------------------
  // What each step is given and gives
  // ---------------------------------------------------------------------------------------------

  function Text(r: Result<string, string>): string {
    if r.Ok? then r.value else ""
  }

  /** The context's results after the first n steps. */
  function Results(j: Job, n: nat): map<int, string>
    requires n <= |j.ordered|
    decreases n, 0
  {
    if n == 0 then map[] else Results(j, n - 1)[j.ordered[n - 1].order := Text(Outcome(j, n - 1))]
  }

  function StepInput(j: Job, n: nat): string
    requires n < |j.ordered|
    decreases n, 1
  {
    PreviousOutput(Results(j, n), j.ordered[n].order, j.input)
  }

  function Outcome(j: Job, n: nat): Result<string, string>
    requires n < |j.ordered|
    decreases n, 2
  {
    j.run(j.ordered[n], StepInput(j, n))
  }

  /** How many steps complete before the first failure, counting from step n. */
  function CompletedFrom(j: Job, n: nat): (k: nat)
    requires n <= |j.ordered|
    ensures n <= k <= |j.ordered|
    ensures k < |j.ordered| ==> Outcome(j, k).Err?
    decreases |j.ordered| - n
  {
    if n == |j.ordered| || Outcome(j, n).Err? then n else CompletedFrom(j, n + 1)
  }

  function Completed(j: Job): nat {
    CompletedFrom(j, 0)
  }

  // ---------------------------------------------------------------------------------------------
  // The states the database goes through
  // ---------------------------------------------------------------------------------------------

  function Created(j: Job): seq<Audit> {
    var row := NOTHING.(run := Some(RunRow(RunPending, None, None)));
    var logged := row.(events := [WorkflowStarted(j.input)]);
    var asked := logged.(messages := [UserMessage(j.input)]);
    [row, logged, asked, After(j, 0)]
  }

  function OpenRow(j: Job, n: nat): StepRow
    requires n < |j.ordered|
  {
    StepRow(j.ordered[n].order, StepRunning, StepInput(j, n), None, None)
  }

  function DoneRow(j: Job, n: nat): StepRow
    requires n < |j.ordered|
  {
    StepRow(j.ordered[n].order, StepCompleted, StepInput(j, n), Some(Text(Outcome(j, n))), None)
  }

  function FailedRow(j: Job, n: nat): StepRow
    requires n < |j.ordered|
  {
    StepRow(j.ordered[n].order, StepFailed, StepInput(j, n), None,
            if Outcome(j, n).Err? then Some(Outcome(j, n).error) else None)
  }

  /** The rows of the first n steps, all done. */
  function DoneRows(j: Job, n: nat): (rows: seq<StepRow>)
    requires n <= |j.ordered|
    ensures |rows| == n
    ensures forall i | 0 <= i < n ::
              rows[i].order == j.ordered[i].order && rows[i].status == StepCompleted && rows[i].output.Some?
  {
    if n == 0 then [] else DoneRows(j, n - 1) + [DoneRow(j, n - 1)]
  }

  /** Started, then a pair of events for each of the first n steps. */
  function LogUpTo(j: Job, n: nat): seq<Event>
    requires n <= |j.ordered|
  {
    if n == 0 then [WorkflowStarted(j.input)]
    else LogUpTo(j, n - 1) + [WorkflowStepStarted(j.ordered[n - 1].order),
        WorkflowStepCompleted(j.ordered[n - 1].order)]
  }

  /** The first n steps done, nothing open. */
  function After(j: Job, n: nat): Audit
    requires n <= |j.ordered|
  {
    Audit(Some(RunRow(RunRunning, None, None)), DoneRows(j, n), LogUpTo(j, n), [UserMessage(j.input)])
  }

  /** The first n steps done, step n started. */
  function Started(j: Job, n: nat): Audit
    requires n < |j.ordered|
  {
    var before := After(j, n);
    before.(steps := before.steps + [OpenRow(j, n)],
            events := before.events + [WorkflowStepStarted(j.ordered[n].order)])
  }

  /** The first n steps done, step n failed. */
  function Broken(j: Job, n: nat): Audit
    requires n < |j.ordered|
  {
    Started(j, n).(steps := After(j, n).steps + [FailedRow(j, n)])
  }

  /** The writes of step n when it succeeds. */
  function StepMoments(j: Job, n: nat): seq<Audit>
    requires n < |j.ordered|
  {
    var before := After(j, n);
    [before.(steps := before.steps + [OpenRow(j, n)]), Started(j, n),
     Started(j, n).(steps := before.steps + [DoneRow(j, n)]), After(j, n + 1)]
  }

  /** Every write up to the completion of the first n steps. */
  function MomentsUpTo(j: Job, n: nat): seq<Audit>
    requires n <= |j.ordered|
  {
    if n == 0 then Created(j) else MomentsUpTo(j, n - 1) + StepMoments(j, n - 1)
  }

  function FailureOf(j: Job, k: nat): Failure
    requires k < |j.ordered|
  {
    StepRaised(j.ordered[k].order, if Outcome(j, k).Err? then Outcome(j, k).error else "")
  }

  /** The state that ends the run after k completed steps. */
  function Ended(j: Job, k: nat, result: string): Audit
    requires k <= |j.ordered|
  {
    if k == |j.ordered| then
      var db := After(j, k);
      db.(run := Some(RunRow(RunCompleted, Some(result), None)),
          events := db.events + [WorkflowCompleted(|result|)],
          messages := db.messages + [AssistantMessage(result)])
    else
      var db := Broken(j, k);
      db.(run := Some(RunRow(RunFailed, None, Some(FailureOf(j, k)))),
          events := db.events + [WorkflowFailed(FailureOf(j, k))])
  }

  /** The last writes. */
  function LastMoments(j: Job, k: nat, result: string): seq<Audit>
    requires k <= |j.ordered|
  {
    var ended := Ended(j, k, result);
    if k == |j.ordered| then
      var said := After(j, k).(messages := ended.messages);
      [said, said.(run := ended.run), ended]
    else
      FailedMoments(j, k) + [Broken(j, k).(run := ended.run), ended]
  }

  /** The writes of step k when it fails. */
  function FailedMoments(j: Job, k: nat): seq<Audit>
    requires k < |j.ordered|
  {
    [After(j, k).(steps := After(j, k).steps + [OpenRow(j, k)]), Started(j, k), Broken(j, k)]
  }

  /** Every state of the session, write by write. */
  function Moments(j: Job, result: string): seq<Audit> {
    var k := Completed(j);
    MomentsUpTo(j, k) + LastMoments(j, k, result)
  }

  /** The commits of the streaming run: its message, its start, two a step, and its end. */
  function CommitsUpTo(j: Job, n: nat): seq<Audit>
    requires n <= |j.ordered|
  {
    if n == 0 then [Created(j)[2], After(j, 0)] else CommitsUpTo(j, n - 1) + [Started(j, n - 1), After(j, n)]
  }

  function Commits(j: Job, result: string): seq<Audit> {
    var k := Completed(j);
    CommitsUpTo(j, k) + (if k < |j.ordered| then [Started(j, k), Broken(j, k)] else []) + [Ended(j, k, result)]
  }

  /** The text the last step returned. */
  function LastOutput(j: Job): string {
    if j.ordered == [] then j.input else Text(Outcome(j, |j.ordered| - 1))
  }

  // ---------------------------------------------------------------------------------------------
  // The code
  // ---------------------------------------------------------------------------------------------

  /** One turn of the executor's loop, with the callbacks run_workflow passes it. */
  method ExecuteStep(session: AuditSession, context: WorkflowContext, step: Step, run: StepFn, input: string,
      ghost j: Job, ghost n: nat)
    returns (outcome: Result<string, string>)
    requires n < |j.ordered| && step == j.ordered[n] && run == j.run && input == j.input
    requires context.Valid() && context.stepResults == Results(j, n)
    requires session.rows == After(j, n) && session.moments == MomentsUpTo(j, n)
    modifies session`rows, session`moments, context
    ensures outcome == Outcome(j, n)
    ensures outcome.Ok? ==>
              && context.Valid() && context.stepResults == Results(j, n + 1)
              && session.rows == After(j, n + 1)
              && session.moments == MomentsUpTo(j, n + 1)
    ensures outcome.Err? ==>
              && session.rows == Broken(j, n)
              && session.moments == MomentsUpTo(j, n) + FailedMoments(j, n)
  {
    var stepInput := PreviousOutput(context.stepResults, step.order, input);
    session.StartStep(step.order, stepInput);
    assert session.rows == Started(j, n);
    outcome := run(step, stepInput);
    if outcome.Err? {
      session.FailStep(outcome.error);
      assert session.rows.steps == Broken(j, n).steps;
    } else {
      session.CompleteStep(outcome.value);
      assert session.rows.steps == After(j, n + 1).steps && session.rows.events == After(j, n + 1).events;
      context.RecordResult(step.order, outcome.value);
    }
  }

  /** `execute`: every step in step_order, up to the first failure. */
  method Execute(session: AuditSession, steps: seq<Step>, run: StepFn, input: string)
      returns (r: Result<string, Failure>)
    requires var j := Job(Sort(steps, STEP_ORDER), run, input);
             session.rows == After(j, 0) && session.moments == MomentsUpTo(j, 0)
    modifies session`rows, session`moments
    ensures steps == [] ==>
              r == Err(NoSteps) && session.rows == old(session.rows) && session.moments == old(session.moments)
    ensures steps != [] ==>
            var j := Job(Sort(steps, STEP_ORDER), run, input);
            var k := Completed(j);
            && (r.Ok? <==> k == |j.ordered|)
            && (r.Ok? ==>
                  r.value == LastOutput(j) && session.rows == After(j, k) && session.moments == MomentsUpTo(j, k))
            && (r.Err? ==>
                  && r.error == FailureOf(j, k)
                  && session.rows == Broken(j, k)
                  && session.moments == MomentsUpTo(j, k) + FailedMoments(j, k))
  {
    if steps == [] {
      return Err(NoSteps);
    }
    var ordered := Sort(steps, STEP_ORDER);
    ghost var j := Job(ordered, run, input);
    var context := new WorkflowContext();
    var currentOutput := input;
    var n := 0;
    while n < |ordered|
      invariant 0 <= n <= |ordered| && CompletedFrom(j, n) == Completed(j)
      invariant context.Valid() && context.stepResults == Results(j, n) && fresh(context)
      invariant currentOutput == if n == 0 then input else Text(Outcome(j, n - 1))
      invariant session.rows == After(j, n) && session.moments == MomentsUpTo(j, n)
    {
      var outcome := ExecuteStep(session, context, ordered[n], run, input, j, n);
      if outcome.Err? {
        return Err(StepRaised(ordered[n].order, outcome.error));
      }
      currentOutput := outcome.value;
      n := n + 1;
    }
    return Ok(currentOutput);
  }

  /** What is looked up before a run exists: the workflow, and the chat session if the request names one. */
  datatype Lookup = Lookup(found: bool, enabled: bool, steps: seq<Step>, sessionUsable: bool)

  /** The first reason not to start a run. */
  function Refusal(l: Lookup): Option<Failure> {
    if !l.found then Some(WorkflowMissing)
    else if !l.enabled then Some(WorkflowDisabled)
    else if l.steps == [] then Some(NoSteps)
    else if !l.sessionUsable then Some(ForeignSession)
    else None
  }

  /** get_or_404, the two checks, and _get_or_create_session. */
  method CheckStart(l: Lookup) returns (refused: Option<Failure>)
    ensures refused == Refusal(l)
    ensures refused == None <==> l.found && l.enabled && l.steps != [] && l.sessionUsable
    ensures refused == Some(WorkflowMissing) <==> !l.found
    ensures refused == Some(WorkflowDisabled) <==> l.found && !l.enabled
    ensures refused == Some(NoSteps) <==> l.found && l.enabled && l.steps == []
    ensures refused == Some(ForeignSession) <==> l.found && l.enabled && l.steps != [] && !l.sessionUsable
  {
    if !l.found {
      return Some(WorkflowMissing);
    }
    if !l.enabled {
      return Some(WorkflowDisabled);
    }
    if l.steps == [] {
      return Some(NoSteps);
    }
    if !l.sessionUsable {
      return Some(ForeignSession);
    }
    return None;
  }

  /** run_workflow. */
  method RunWorkflow(session: AuditSession, l: Lookup, run: StepFn, input: string) returns (r: Result<string, Failure>)
    requires session.rows == NOTHING && session.moments == []
    modifies session`rows, session`moments
    ensures Refusal(l).Some? ==> r == Err(Refusal(l).value) && session.rows == NOTHING && session.moments == []
    ensures Refusal(l).None? ==>
              var j := Job(Sort(l.steps, STEP_ORDER), run, input);
              && session.moments == Moments(j, LastOutput(j))
              && session.rows == Ended(j, Completed(j), LastOutput(j))
              && r == (if Completed(j) == |j.ordered| then Ok(LastOutput(j)) else Err(FailureOf(j, Completed(j))))
  {
    var refused := CheckStart(l);
    if refused.Some? {
      return Err(refused.value);
    }
    ghost var j := Job(Sort(l.steps, STEP_ORDER), run, input);
    BeginRun(session, input, j);
    r := Execute(session, l.steps, run, input);
    FinishRun(session, r, j, Completed(j));
  }

  /** What a request to run the workflow leaves in the database: the trail of a completed run, or nothing. */
  function Kept(j: Job): Audit {
    if Completed(j) == |j.ordered| then Ended(j, |j.ordered|, LastOutput(j)) else NOTHING
  }

  /** The run endpoint: run_workflow inside get_db, which commits when it returns and rolls back when it raises. */
  method RunRequest(session: AuditSession, l: Lookup, run: StepFn, input: string) returns (r: Result<string, Failure>)
    requires session.rows == session.committed == NOTHING && session.moments == []
    modifies session
    ensures session.rows == session.committed
    ensures Refusal(l).Some? ==> r == Err(Refusal(l).value) && session.committed == NOTHING
    ensures Refusal(l).None? ==>
              var j := Job(Sort(l.steps, STEP_ORDER), run, input);
              && session.committed == Kept(j)
              && r == (if Completed(j) == |j.ordered| then Ok(LastOutput(j)) else Err(FailureOf(j, Completed(j))))
  {
    r := RunWorkflow(session, l, run, input);
    if r.Ok? {
      session.Commit();
    } else {
      session.Rollback();
    }
  }

  /** Creates the run with its user message and starts it. */
  method BeginRun(session: AuditSession, input: string, ghost j: Job)
    requires session.rows == NOTHING && session.moments == [] && j.input == input
    modifies session`rows, session`moments
    ensures session.rows == After(j, 0) && session.moments == Created(j)
  {
    session.CreateRun(input);
    assert session.rows.events == [WorkflowStarted(input)];
    session.AddMessage(UserMessage(input));
    assert session.rows.messages == [UserMessage(input)];
    session.MarkRunning();
  }

  /** mark_failed in the `except`, or the assistant message and mark_completed. */
  method FinishRun(session: AuditSession, r: Result<string, Failure>, ghost j: Job, ghost k: nat)
    requires k == Completed(j) && (r.Ok? <==> k == |j.ordered|)
    requires r.Ok? ==> r.value == LastOutput(j) && session.rows == After(j, k) && session.moments == MomentsUpTo(j, k)
    requires r.Err? ==> r.error == FailureOf(j, k) && session.rows == Broken(j, k)
                        && session.moments == MomentsUpTo(j, k) + FailedMoments(j, k)
    modifies session`rows, session`moments
    ensures session.moments == Moments(j, LastOutput(j)) && session.rows == Ended(j, k, LastOutput(j))
  {
    match r {
      case Err(error) =>
        session.MarkFailed(error);
      case Ok(result) =>
        session.AddMessage(AssistantMessage(result));
        session.MarkCompleted(result);
    }
  }

  // ---------------------------------------------------------------------------------------------
  // The streaming twin
  // ---------------------------------------------------------------------------------------------

  /** A piece of a step's stream; only assistant content is collected. */
  datatype StreamPiece = StreamPiece(assistant: bool, content: string)

  /** What streaming a step gives: its pieces, and the exception that ended it, if any. */
  datatype StepStream = StepStream(pieces: seq<StreamPiece>, failure: Option<string>)

  type StreamFn = (Step, string) -> StepStream

  /** The concatenation of the assistant pieces. */
  function Joined(pieces: seq<StreamPiece>): string {
    if pieces == [] then ""
    else
      var n := |pieces| - 1;
      Joined(pieces[..n]) + (if pieces[n].assistant then pieces[n].content else "")
  }

  /** Assistant content is appended; tool calls and reasoning leave the output alone. */
  lemma OneMorePiece(pieces: seq<StreamPiece>, p: StreamPiece)
    ensures Joined([]) == ""
    ensures p.assistant ==> Joined(pieces + [p]) == Joined(pieces) + p.content
    ensures !p.assistant ==> Joined(pieces + [p]) == Joined(pieces)
  {
    assert (pieces + [p])[..|pieces|] == pieces;
  }

  /** A streamed step seen as a plain one. */
  function Collected(stream: StreamFn): StepFn {
    (step, input) =>
      var s := stream(step, input);
      if s.failure.Some? then Err(s.failure.value) else Ok(Joined(s.pieces))
  }

  /** collected_output, joined. */
  method CollectOutput(pieces: seq<StreamPiece>) returns (text: string)
    ensures text == Joined(pieces)
  {
    text := "";
    for i := 0 to |pieces|
      invariant text == Joined(pieces[..i])
    {
      assert pieces[..i + 1][..i] == pieces[..i];
      if pieces[i].assistant {
        text := text + pieces[i].content;
      }
    }
    assert pieces[..|pieces|] == pieces;
  }

  /** One step of execute_stream as run_workflow_stream consumes it: a commit after each marker. */
  method StreamStep(session: AuditSession, context: WorkflowContext, step: Step, stream: StreamFn, input: string,
      ghost j: Job, ghost n: nat)
    returns (failure: Option<string>)
    requires n < |j.ordered| && step == j.ordered[n] && j.run == Collected(stream) && input == j.input
    requires context.Valid() && context.stepResults == Results(j, n)
    requires session.rows == After(j, n)
    requires session.commits == CommitsUpTo(j, n) && session.moments == MomentsUpTo(j, n)
    modifies session, context
    ensures failure.None? <==> Outcome(j, n).Ok?
    ensures failure.Some? ==>
              && Outcome(j, n) == Err(failure.value)
              && session.rows == Broken(j, n)
              && session.commits == CommitsUpTo(j, n) + [Started(j, n), Broken(j, n)]
              && session.moments == MomentsUpTo(j, n) + FailedMoments(j, n)
    ensures failure.None? ==>
              && context.Valid() && context.stepResults == Results(j, n + 1)
              && session.rows == After(j, n + 1)
              && session.commits == CommitsUpTo(j, n + 1)
              && session.moments == MomentsUpTo(j, n + 1)
  {
    var stepInput := PreviousOutput(context.stepResults, step.order, input);
    StartStreamStep(session, step, stepInput, j, n);
    var s := stream(step, stepInput);
    var output := CollectOutput(s.pieces);
    failure := s.failure;
    if failure.Some? {
      FailStreamStep(session, failure.value, j, n);
    } else {
      context.RecordResult(step.order, output);
      CompleteStreamStep(session, output, j, n);
    }
  }

  /** The started marker: start_step and its commit. */
  method StartStreamStep(session: AuditSession, step: Step, stepInput: string, ghost j: Job, ghost n: nat)
    requires n < |j.ordered| && step == j.ordered[n] && stepInput == StepInput(j, n) && session.rows == After(j, n)
    modifies session
    ensures session.rows == Started(j, n)
    ensures session.commits == old(session.commits) + [Started(j, n)]
    ensures session.moments == old(session.moments) + [StepMoments(j, n)[0], Started(j, n)]
  {
    session.StartStep(step.order, stepInput);
    session.Commit();
  }

  /** The failed marker: fail_step and its commit. */
  method FailStreamStep(session: AuditSession, error: string, ghost j: Job, ghost n: nat)
    requires n < |j.ordered| && Outcome(j, n) == Err(error) && session.rows == Started(j, n)
    modifies session
    ensures session.rows == Broken(j, n)
    ensures session.commits == old(session.commits) + [Broken(j, n)]
    ensures session.moments == old(session.moments) + [Broken(j, n)]
  {
    session.FailStep(error);
    assert session.rows.steps == Broken(j, n).steps;
    session.Commit();
  }

  /** The completed marker: complete_step and its commit. */
  method CompleteStreamStep(session: AuditSession, output: string, ghost j: Job, ghost n: nat)
    requires n < |j.ordered| && Outcome(j, n) == Ok(output) && session.rows == Started(j, n)
    modifies session
    ensures session.rows == After(j, n + 1)
    ensures session.commits == old(session.commits) + [After(j, n + 1)]
    ensures session.moments == old(session.moments) + [StepMoments(j, n)[2], After(j, n + 1)]
  {
    session.CompleteStep(output);
    assert session.rows.steps == After(j, n + 1).steps && session.rows.events == After(j, n + 1).events;
    session.Commit();
  }

  /** Creates the run and starts it, with a commit before and after mark_running. */
  method BeginStream(session: AuditSession, input: string, ghost j: Job)
    requires session.rows == NOTHING && session.commits == [] && session.moments == [] && j.input == input
    modifies session
    ensures session.rows == After(j, 0)
    ensures session.commits == CommitsUpTo(j, 0) && session.moments == MomentsUpTo(j, 0)
  {
    session.CreateRun(input);
    assert session.rows.events == [WorkflowStarted(input)];
    session.AddMessage(UserMessage(input));
    assert session.rows.messages == [UserMessage(input)];
    session.Commit();
    session.MarkRunning();
    session.Commit();
  }

  /** The assistant message, mark_completed and the last commit. */
  method FinishStream(session: AuditSession, result: string, ghost j: Job)
    requires Completed(j) == |j.ordered|
    requires session.rows == After(j, |j.ordered|)
    requires session.commits == CommitsUpTo(j, |j.ordered|) && session.moments == MomentsUpTo(j, |j.ordered|)
    modifies session
    ensures session.commits == Commits(j, result) && session.moments == Moments(j, result)
  {
    session.AddMessage(AssistantMessage(result));
    session.MarkCompleted(result);
    session.Commit();
    assert session.rows == Ended(j, |j.ordered|, result);
  }

  /** mark_failed and its commit. */
  method FailStream(session: AuditSession, error: Failure, ghost j: Job, ghost k: nat)
    requires k == Completed(j) < |j.ordered| && error == FailureOf(j, k)
    requires session.rows == Broken(j, k) && session.commits == CommitsUpTo(j, k) + [Started(j, k), Broken(j, k)]
    requires session.moments == MomentsUpTo(j, k) + FailedMoments(j, k)
    modifies session
    ensures session.commits == Commits(j, "") && session.moments == Moments(j, "")
  {
    session.MarkFailed(error);
    session.Commit();
    assert session.rows == Ended(j, k, "");
  }

  /** run_workflow_stream. */
  method RunWorkflowStream(session: AuditSession, l: Lookup, stream: StreamFn, input: string)
    returns (r: Result<string, Failure>)
    requires session.rows == NOTHING && session.commits == [] && session.moments == []
    modifies session
    ensures Refusal(l).Some? ==>
              r == Err(Refusal(l).value) && session.rows == NOTHING && session.commits == [] && session.moments == []
    ensures Refusal(l).None? ==>
              var j := Job(Sort(l.steps, STEP_ORDER), Collected(stream), input);
              var k := Completed(j);
              && (r.Ok? <==> k == |j.ordered|)
              && (r.Ok? ==>
                    && IsFinalResult(Results(j, k), r.value)
                    && session.commits == Commits(j, r.value) && session.moments == Moments(j, r.value))
              && (r.Err? ==>
                    && r.error == FailureOf(j, k)
                    && session.commits == Commits(j, "") && session.moments == Moments(j, ""))
  {
    var refused := CheckStart(l);
    if refused.Some? {
      return Err(refused.value);
    }
    var ordered := Sort(l.steps, STEP_ORDER);
    ghost var j := Job(ordered, Collected(stream), input);
    BeginStream(session, input, j);
    r := StreamSteps(session, ordered, stream, input, j);
  }

  /** The loop over the executor's markers, and what follows it. */
  method StreamSteps(session: AuditSession, ordered: seq<Step>, stream: StreamFn, input: string, ghost j: Job)
    returns (r: Result<string, Failure>)
    requires j == Job(ordered, Collected(stream), input)
    requires session.rows == After(j, 0)
    requires session.commits == CommitsUpTo(j, 0) && session.moments == MomentsUpTo(j, 0)
    modifies session
    ensures var k := Completed(j);
            && (r.Ok? <==> k == |j.ordered|)
            && (r.Ok? ==>
                  && IsFinalResult(Results(j, k), r.value)
                  && session.commits == Commits(j, r.value) && session.moments == Moments(j, r.value))
            && (r.Err? ==>
                  r.error == FailureOf(j, k) && session.commits == Commits(j, "") && session.moments == Moments(j, ""))
  {
    var context := new WorkflowContext();
    var n := 0;
    while n < |ordered|
      invariant 0 <= n <= |ordered| && CompletedFrom(j, n) == Completed(j)
      invariant context.Valid() && context.stepResults == Results(j, n) && fresh(context)
      invariant session.rows == After(j, n)
      invariant session.commits == CommitsUpTo(j, n) && session.moments == MomentsUpTo(j, n)
    {
      var failure := StreamStep(session, context, ordered[n], stream, input, j, n);
      if failure.Some? {
        FailStream(session, StepRaised(ordered[n].order, failure.value), j, n);
        return Err(StepRaised(ordered[n].order, failure.value));
      }
      n := n + 1;
    }
    var finalResult := context.FinalResult();
    FinishStream(session, finalResult, j);
    return Ok(finalResult);
  }
}
