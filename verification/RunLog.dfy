/**
 One agent run as the database holds it: run row, event log, messages and usage rows, with the state
 changes of app/services/run_service.py. A database state is a value; `Session` holds the committed
 one and the one its open transaction sees.
 */
module RunLog {
  import opened Prelude
  import opened TokenMetrics

  datatype Status = Pending | Running | Completed | Failed | Cancelled {
    predicate Terminal() { Completed? || Failed? || Cancelled? }
  }

  datatype EventType =
    | AgentStarted | ReasoningStarted | ToolSelected | ToolCallStarted | ToolCallCompleted | AgentResponse
    | AgentCompleted | MemoryUpdateStarted | MemoryUpdateCompleted | ErrorEvent | RunCancelled

  /** An event's JSON payload, by its keys: those the run service writes, then those the engine writes. */
  datatype Payload = Payload(
    input: Option<string>,
    outputLength: Option<nat>,
    error: Option<string>,
    reason: Option<string>,
    agnoEvent: Option<string>,
    content: Option<string>,
    isAssistantContent: Option<bool>,
    tools: Option<string>,
    metrics: Option<Metrics>,
    uiActionPlan: Option<string>
  )

  const NO_KEYS := Payload(None, None, None, None, None, None, None, None, None, None)

  function Input(text: string): Payload {
    NO_KEYS.(input := Some(text))
  }

  function OutputLength(length: nat): Payload {
    NO_KEYS.(outputLength := Some(length))
  }

  function ErrorText(text: string): Payload {
    NO_KEYS.(error := Some(text))
  }

  function Reason(reason: string, length: nat): Payload {
    NO_KEYS.(reason := Some(reason), outputLength := Some(length))
  }

  /** Row ids are unique; the model numbers them. */
  datatype Event = Event(id: nat, kind: EventType, payload: Payload)

  datatype Role = UserRole | AssistantRole

  datatype Message = Message(role: Role, content: string)

  datatype UsageRow = UsageRow(user: string, inputTokens: int, outputTokens: int, cost: Option<real>)

  datatype RunRow = RunRow(status: Status, output: Option<string>, error: Option<string>)

  datatype Db = Db(run: Option<RunRow>, events: seq<Event>, messages: seq<Message>, usage: seq<UsageRow>)

  const EMPTY := Db(None, [], [], [])
  const CANCEL_REASON := "Cancelled by user"

  function Emit(db: Db, kind: EventType, payload: Payload): Db {
    db.(events := db.events + [Event(|db.events|, kind, payload)])
  }

  function AddMessage(db: Db, role: Role, content: string): Db {
    db.(messages := db.messages + [Message(role, content)])
  }

  function CreateRun(db: Db, input: string): Db {
    Emit(db.(run := Some(RunRow(Pending, None, None))), AgentStarted, Input(input))
  }

  function MarkRunning(db: Db): Db
    requires db.run.Some?
  {
    db.(run := Some(db.run.value.(status := Running)))
  }

  function MarkCompleted(db: Db, output: string): Db
    requires db.run.Some?
  {
    Emit(db.(run := Some(db.run.value.(status := Completed, output := Some(output)))), AgentCompleted,
        OutputLength(|output|))
  }

  function MarkFailed(db: Db, error: string): Db
    requires db.run.Some?
  {
    Emit(db.(run := Some(db.run.value.(status := Failed, error := Some(error)))), ErrorEvent, ErrorText(error))
  }

  /** An empty partial output is stored as NULL. */
  function MarkCancelled(db: Db, output: string): Db
    requires db.run.Some?
  {
    Emit(db.(run := Some(RunRow(Cancelled, if output == "" then None else Some(output), Some(CANCEL_REASON)))),
         RunCancelled, Reason(CANCEL_REASON, |output|))
  }

  // ---------------------------------------------------------------------------------------------
  // What a reader may rely on
  // ---------------------------------------------------------------------------------------------

  function AssistantTexts(messages: seq<Message>): seq<string> {
    if messages == [] then []
    else
      var n := |messages| - 1;
      AssistantTexts(messages[..n]) + (if messages[n].role == AssistantRole then [messages[n].content] else [])
  }

  /** The event the run service logs with this row's terminal status. */
  predicate Closes(e: Event, run: RunRow) {
    match run.status
    case Completed => run.output.Some? && e.kind == AgentCompleted && e.payload == OutputLength(|run.output.value|)
    case Failed => run.error.Some? && e.kind == ErrorEvent && e.payload == ErrorText(run.error.value)
    case Cancelled =>
      e.kind == RunCancelled && e.payload == Reason(CANCEL_REASON, if run.output.Some? then |run.output.value| else 0)
    case _ => false
  }

  /** An error event that holds nothing but its text: the run service writes such a one, and so does the engine. */
  predicate BareError(e: Event) {
    e.kind == ErrorEvent && e.payload.error.Some? && e.payload == ErrorText(e.payload.error.value)
  }

  /** An event that looks as if it closed its run, to a reader who sees no more than the event. */
  predicate LooksClosing(e: Event) {
    BareError(e) || (e.kind in {AgentCompleted, RunCancelled} && e.payload.outputLength.Some?)
  }

  /** A log that is closed, to a reader who sees no more than the log: a failed run's ends in two bare errors. */
  predicate LogClosed(events: seq<Event>) {
    var n := |events|;
    && n > 0
    && LooksClosing(events[n - 1])
    && (BareError(events[n - 1]) ==> n > 1 && BareError(events[n - 2]))
  }

  /** A committed state a reader can make sense of. */
  ghost predicate Consistent(db: Db) {
    && db.run.Some?
    && db.events != []
    && var run, last := db.run.value, db.events[|db.events| - 1];
       // the terminal status and its closing event stand or fall together, and it closes the log once
       && (run.status.Terminal() <==> Closes(last, run))
       && (forall i | 0 <= i < |db.events| - 1 :: !Closes(db.events[i], run))
       // which the log alone shows as well
       && (run.status.Terminal() <==> LogClosed(db.events))
       && (forall i | 0 <= i < |db.events| :: db.events[i].id == i)
       // the assistant message is the run's output
       && (run.status == Completed ==> run.output.Some? && AssistantTexts(db.messages) == [run.output.value])
       && (run.status == Cancelled ==>
             AssistantTexts(db.messages) == if run.output.Some? then [run.output.value] else [])
       && (run.status in {Pending, Running, Failed} ==> run.output.None? && AssistantTexts(db.messages) == [])
       // and the error says why there is none
       && (run.status in {Pending, Running, Completed} ==> run.error.None?)
       && (run.status == Cancelled ==> run.error == Some("Cancelled by user"))
       && (run.status == Failed ==> run.error.Some?)
       // usage is recorded for completed runs only
       && (db.usage != [] ==> run.status == Completed && |db.usage| == 1)
  }

  /** What the tail of a run and everyone else who polls it needs of the sequence of commits. */
  ghost predicate Disciplined(history: seq<Db>) {
    && (forall i | 0 <= i < |history| :: history[i].run.Some?)
    && (forall i, j | 0 <= i <= j < |history| :: history[i].events <= history[j].events)
    && (forall i, j | 0 <= i <= j < |history| && history[i].run.value.status.Terminal() ::
          history[j].run.value.status == history[i].run.value.status && history[j].events == history[i].events)
  }

  /** An AsyncSession on the run: what is committed, what its transaction sees, and every commit so far. */
  class Session {
    var committed: Db
    var pending: Db
    ghost var history: seq<Db>

    constructor ()
      ensures committed == pending == EMPTY && history == []
    {
      committed, pending := EMPTY, EMPTY;
      history := [];
    }

    method Commit()
      modifies this`committed, this`history
      ensures committed == pending
      ensures history == old(history) + [pending]
    {
      committed := pending;
      history := history + [pending];
    }

    method Rollback()
      modifies this`pending
      ensures pending == committed
    {
      pending := committed;
    }
  }
}
