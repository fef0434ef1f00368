/** The workflow audit trail and the writes of app/services/workflow_run_service.py. */
module WorkflowRuns {
  import opened Prelude

  datatype RunStatus = RunPending | RunRunning | RunCompleted | RunFailed

  datatype StepStatus = StepRunning | StepCompleted | StepFailed

  /** Why a run stops: a step that raised, or a run that cannot be started at all. */
  datatype Failure =
    | StepRaised(order: int, cause: string)
    | WorkflowMissing
    | WorkflowDisabled
    | NoSteps
    | ForeignSession

  datatype RunRow = RunRow(status: RunStatus, result: Option<string>, error: Option<Failure>)

  datatype StepRow = StepRow(order: int, status: StepStatus, input: string, output: Option<string>,
      error: Option<string>)

  datatype Event =
    | WorkflowStarted(input: string)
    | WorkflowStepStarted(order: int)
    | WorkflowStepCompleted(order: int)
    | WorkflowCompleted(length: nat)
    | WorkflowFailed(error: Failure)

  datatype Message = UserMessage(text: string) | AssistantMessage(text: string)

  /** Everything the database holds about one workflow run. */
  datatype Audit = Audit(run: Option<RunRow>, steps: seq<StepRow>, events: seq<Event>, messages: seq<Message>)

  const NOTHING := Audit(None, [], [], [])

  function SetLast(rows: seq<StepRow>, row: StepRow): seq<StepRow>
    requires rows != []
  {
    rows[..|rows| - 1] + [row]
  }

  /** The rows as the session sees them, with a history of every write and of every commit. */
  class AuditSession {
    var rows: Audit
    var committed: Audit
    ghost var moments: seq<Audit>
    ghost var commits: seq<Audit>

    /** One flushed write. */
    method Flush(next: Audit)
      modifies this`rows, this`moments
      ensures rows == next && moments == old(moments) + [next]
    {
      rows := next;
      moments := moments + [next];
    }

    method Commit()
      modifies this`committed, this`commits
      ensures committed == rows
      ensures commits == old(commits) + [rows]
    {
      committed := rows;
      commits := commits + [rows];
    }

    method Rollback()
      modifies this`rows
      ensures rows == committed
    {
      rows := committed;
    }

    method AddMessage(m: Message)
      modifies this`rows, this`moments
      ensures rows == old(rows).(messages := old(rows.messages) + [m])
      ensures moments == old(moments) + [rows]
    {
      Flush(rows.(messages := rows.messages + [m]));
    }

    method EmitEvent(e: Event)
      modifies this`rows, this`moments
      ensures rows == old(rows).(events := old(rows.events) + [e])
      ensures moments == old(moments) + [rows]
    {
      Flush(rows.(events := rows.events + [e]));
    }

    method CreateRun(input: string)
      modifies this`rows, this`moments
      ensures var created := old(rows).(run := Some(RunRow(RunPending, None, None)));
              && rows == created.(events := created.events + [WorkflowStarted(input)])
              && moments == old(moments) + [created, rows]
    {
      Flush(rows.(run := Some(RunRow(RunPending, None, None))));
      EmitEvent(WorkflowStarted(input));
    }

    method MarkRunning()
      requires rows.run.Some?
      modifies this`rows, this`moments
      ensures rows == old(rows).(run := Some(old(rows.run.value).(status := RunRunning)))
      ensures moments == old(moments) + [rows]
    {
      Flush(rows.(run := Some(rows.run.value.(status := RunRunning))));
    }

    method MarkCompleted(result: string)
      requires rows.run.Some?
      modifies this`rows, this`moments
      ensures var done := old(rows).(run := Some(old(rows.run.value).(status := RunCompleted, result := Some(result))));
              && rows == done.(events := done.events + [WorkflowCompleted(|result|)])
              && moments == old(moments) + [done, rows]
    {
      Flush(rows.(run := Some(rows.run.value.(status := RunCompleted, result := Some(result)))));
      EmitEvent(WorkflowCompleted(|result|));
    }

    method MarkFailed(error: Failure)
      requires rows.run.Some?
      modifies this`rows, this`moments
      ensures var failed := old(rows).(run := Some(old(rows.run.value).(status := RunFailed, error := Some(error))));
              && rows == failed.(events := failed.events + [WorkflowFailed(error)])
              && moments == old(moments) + [failed, rows]
    {
      Flush(rows.(run := Some(rows.run.value.(status := RunFailed, error := Some(error)))));
      EmitEvent(WorkflowFailed(error));
    }

    /** A new RUNNING row, then its event. */
    method StartStep(order: int, input: string)
      modifies this`rows, this`moments
      ensures var started := old(rows).(steps := old(rows.steps) + [StepRow(order, StepRunning, input, None, None)]);
              && rows == started.(events := started.events + [WorkflowStepStarted(order)])
              && moments == old(moments) + [started, rows]
    {
      Flush(rows.(steps := rows.steps + [StepRow(order, StepRunning, input, None, None)]));
      EmitEvent(WorkflowStepStarted(order));
    }

    /** Finishes the row start_step returned, which is the last one, then logs the event. */
    method CompleteStep(output: string)
      requires rows.steps != []
      modifies this`rows, this`moments
      ensures var row := old(rows.steps[|rows.steps| - 1]);
              var done := old(rows).(steps := SetLast(old(rows.steps),
                  row.(status := StepCompleted, output := Some(output))));
              && rows == done.(events := done.events + [WorkflowStepCompleted(row.order)])
              && moments == old(moments) + [done, rows]
    {
      var row := rows.steps[|rows.steps| - 1];
      Flush(rows.(steps := SetLast(rows.steps, row.(status := StepCompleted, output := Some(output)))));
      EmitEvent(WorkflowStepCompleted(row.order));
    }

    /** Logs no event of its own. */
    method FailStep(error: string)
      requires rows.steps != []
      modifies this`rows, this`moments
      ensures var row := old(rows.steps[|rows.steps| - 1]);
              rows == old(rows).(steps := SetLast(old(rows.steps), row.(status := StepFailed, error := Some(error))))
      ensures moments == old(moments) + [rows]
    {
      var row := rows.steps[|rows.steps| - 1];
      Flush(rows.(steps := SetLast(rows.steps, row.(status := StepFailed, error := Some(error)))));
    }
  }
}
