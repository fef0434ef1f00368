/** The streaming chat turn: `handle_chat_stream` and `_handle_cancellation` in app/services/chat_service.py. */
module ChatTurn {
  import opened Prelude
  import opened ChatText
  import opened RunLog
  import opened TokenMetrics

  // ---------------------------------------------------------------------------------------------
  // The engine's stream
  // ---------------------------------------------------------------------------------------------

  /** What the engine calls an event: a value of the EventType enum, or a name it does not have. */
  datatype EventName = Known(kind: EventType) | Other(text: string)

  /**
   What run_stream yields: Agno's own events; on an exception the error event after which it raises; and after a
   finished run its metrics and the UI actions it proposed.
   */
  datatype StreamEvent =
    | FromAgno(mapped: EventName, agnoEvent: string, content: Option<string>, assistant: bool, tools: Option<string>)
    | RunFailed(error: string)
    | FinalMetrics(metrics: Metrics)
    | UiActions(plan: string)
  {
    function Name(): EventName {
      match this
      case FromAgno(mapped, _, _, _, _) => mapped
      case RunFailed(_) => Known(ErrorEvent)
      case FinalMetrics(_) => Known(AgentCompleted)
      case UiActions(_) => Other("ui_action_plan")
    }

    /** The payload, with exactly the keys the engine gives it. */
    function Keys(): Payload {
      match this
      case FromAgno(_, agnoEvent, content, assistant, tools) =>
        NO_KEYS.(agnoEvent := Some(agnoEvent), content := content, isAssistantContent := Some(assistant),
            tools := tools)
      case RunFailed(error) => ErrorText(error)
      case FinalMetrics(metrics) => NO_KEYS.(isAssistantContent := Some(false), metrics := Some(metrics))
      case UiActions(plan) => NO_KEYS.(isAssistantContent := Some(false), uiActionPlan := Some(plan))
    }
  }

  /** What run_stream puts before the exception's text when it raises. */
  const STREAM_FAILED := "Agno agent streaming execution failed: "

  function Lower(s: string): string {
    seq(|s|, i requires 0 <= i < |s| => if 'A' <= s[i] <= 'Z' then s[i] - 'A' + 'a' else s[i])
  }

  /** `_safe_event_type`: never fails, whatever the engine calls its events. */
  function SafeEventType(name: EventName): EventType {
    match name
    case Known(kind) => kind
    case Other(text) =>
      if Contains(text, "tool") then ToolCallStarted
      else if Contains(Lower(text), "error") then ErrorEvent
      else AgentResponse
  }

  /**
   One call of handle_chat_stream that passed the quota check: what the engine streams, what each poll of the cancel
   flag answers, and whether the usage row can be inserted.
   */
  datatype Turn = Turn(
    input: string,
    user: string,
    stream: seq<StreamEvent>,
    cancelSeen: seq<bool>,
    cost: Option<real>,
    usageInsertOk: bool
  )
  {
    /** The engine streams nothing after its error event. */
    predicate Valid() {
      && |cancelSeen| == |stream|
      && forall i | 0 <= i < |stream| - 1 :: !stream[i].RunFailed?
    }

    /** The text of the exception that ends the stream, if one does. */
    function Failure(): Option<string> {
      if stream != [] && stream[|stream| - 1].RunFailed? then Some(STREAM_FAILED + stream[|stream| - 1].error) else None
    }
  }

  predicate IsPiece(e: StreamEvent) {
    var keys := e.Keys();
    keys.content.Some? && keys.content.value != "" && keys.isAssistantContent == Some(true)
  }

  /** The assistant pieces of a stream, in order. */
  function Pieces(stream: seq<StreamEvent>): seq<string> {
    if stream == [] then []
    else
      var n := |stream| - 1;
      Pieces(stream[..n]) + (if IsPiece(stream[n]) then [stream[n].Keys().content.value] else [])
  }

  function TotalTokens(stream: seq<StreamEvent>): Tokens {
    if stream == [] then Tokens(0, 0)
    else
      var n := |stream| - 1;
      var before, here := TotalTokens(stream[..n]), ExtractTokenUsage(stream[n].Keys().metrics);
      Tokens(before.input + here.input, before.output + here.output)
  }

  /** How many events are consumed before the cancel flag is seen, or all of them. */
  function Consumed(cancelSeen: seq<bool>): (k: nat)
    ensures k <= |cancelSeen|
    ensures forall i | 0 <= i < k :: !cancelSeen[i]
    ensures k < |cancelSeen| ==> cancelSeen[k]
  {
    if cancelSeen == [] || cancelSeen[0] then 0 else 1 + Consumed(cancelSeen[1..])
  }

  // ---------------------------------------------------------------------------------------------
  // The committed states of a turn
  // ---------------------------------------------------------------------------------------------

  function Opened(t: Turn): Db {
    AddMessage(CreateRun(EMPTY, t.input), UserRole, t.input)
  }

  function LogEvent(db: Db, e: StreamEvent): Db {
    Emit(db, SafeEventType(e.Name()), e.Keys())
  }

  /** Running, with the first i events of the stream logged. */
  function Streamed(t: Turn, i: nat): (db: Db)
    requires i <= |t.stream|
    ensures db.run == Some(RunRow(Running, None, None)) && db.usage == []
  {
    if i == 0 then MarkRunning(Opened(t)) else LogEvent(Streamed(t, i - 1), t.stream[i - 1])
  }

  /** Every state committed up to the one that has n events of the stream logged. */
  function Progress(t: Turn, n: nat): seq<Db>
    requires n <= |t.stream|
  {
    if n == 0 then [Opened(t), Streamed(t, 0)] else Progress(t, n - 1) + [Streamed(t, n)]
  }

  /** The SSE events of a turn, by the name they are sent under. */
  datatype SseEvent = SseStarted | Forwarded(name: EventName) | SseCancelled | SseError | SseCompleted

  function Names(stream: seq<StreamEvent>): seq<SseEvent> {
    if stream == [] then [] else Names(stream[..|stream| - 1]) + [Forwarded(stream[|stream| - 1].Name())]
  }

  /** The state that ends the turn, after k consumed events. */
  function Closed(t: Turn, k: nat): Db
    requires t.Valid() && k <= |t.stream|
  {
    var db, text := Streamed(t, k), MergeParts(Pieces(t.stream[..k]));
    if k < |t.stream| then MarkCancelled(if text == "" then db else AddMessage(db, AssistantRole, text), text)
    else if t.Failure().Some? then MarkFailed(db, t.Failure().value)
    else MarkCompleted(AddMessage(db, AssistantRole, text), text)
  }

  predicate RecordsUsage(t: Turn)
    requires t.Valid()
  {
    Consumed(t.cancelSeen) == |t.stream| && t.Failure().None? && t.user != "" && t.usageInsertOk
  }

  function UsageOf(t: Turn): UsageRow {
    var tokens := TotalTokens(t.stream);
    UsageRow(t.user, tokens.input, tokens.output, t.cost)
  }

  /** Every state the turn commits, in order. */
  function History(t: Turn): seq<Db>
    requires t.Valid()
  {
    var k := Consumed(t.cancelSeen);
    Progress(t, k) + [Closed(t, k)] + UsageStates(t)
  }

  /** The commit of the usage row, where there is one. */
  function UsageStates(t: Turn): seq<Db>
    requires t.Valid()
  {
    if RecordsUsage(t) then [Closed(t, |t.stream|).(usage := [UsageOf(t)])] else []
  }

  // ---------------------------------------------------------------------------------------------
  // The code
  // ---------------------------------------------------------------------------------------------

  /** The durable half of record_usage: commits its own insert, rolls back a failed one. */
  method RecordUsageRow(session: Session, row: UsageRow, insertOk: bool)
    requires session.pending == session.committed
    modifies session
    ensures session.pending == session.committed
    ensures insertOk && row.user != "" ==>
              && session.committed == old(session.committed).(usage := old(session.committed.usage) + [row])
              && session.history == old(session.history) + [session.committed]
    ensures !(insertOk && row.user != "") ==>
              session.committed == old(session.committed) && session.history == old(session.history)
  {
    if row.user == "" {
      return;
    }
    session.pending := session.pending.(usage := session.pending.usage + [row]);
    if insertOk {
      session.Commit();
    } else {
      session.Rollback();
    }
  }

  /** Closes the turn with what has been produced so far; returns the partial text. */
  method HandleCancellation(session: Session, parts: seq<string>) returns (partial: string)
    requires session.pending.run.Some?
    modifies session
    ensures partial == MergeParts(parts)
    ensures session.committed == session.pending ==
              MarkCancelled(if partial == "" then old(session.pending)
                  else AddMessage(old(session.pending), AssistantRole, partial), partial)
    ensures session.history == old(session.history) + [session.committed]
  {
    partial := MergeContentParts(parts);
    if partial != "" {
      session.pending := AddMessage(session.pending, AssistantRole, partial);
    }
    session.pending := MarkCancelled(session.pending, partial);
    session.Commit();
  }

  /** The SSE events a turn yields. */
  function Yielded(t: Turn): seq<SseEvent>
    requires t.Valid()
  {
    var k := Consumed(t.cancelSeen);
    [SseStarted] + Names(t.stream[..k])
    + [if k < |t.stream| then SseCancelled else if t.Failure().Some? then SseError else SseCompleted]
  }

  /** What the `async for` over the engine's stream leaves behind. */
  datatype Consumption = Consumption(parts: seq<string>, tokens: Tokens, yielded: seq<SseEvent>, cancelled: bool)

  lemma OneMoreEvent(stream: seq<StreamEvent>, i: nat)
    requires i < |stream|
    ensures Pieces(stream[..i + 1]) == Pieces(stream[..i])
            + (if IsPiece(stream[i]) then [stream[i].Keys().content.value] else [])
    ensures TotalTokens(stream[..i + 1]) ==
              Tokens(TotalTokens(stream[..i]).input + ExtractTokenUsage(stream[i].Keys().metrics).input,
                     TotalTokens(stream[..i]).output + ExtractTokenUsage(stream[i].Keys().metrics).output)
    ensures Names(stream[..i + 1]) == Names(stream[..i]) + [Forwarded(stream[i].Name())]
  {
    assert stream[..i + 1][..i] == stream[..i];
  }

  /** The `async for`: the cancel flag is polled before each event is handled. */
  method ConsumeStream(session: Session, t: Turn) returns (c: Consumption)
    requires t.Valid()
    requires session.pending == session.committed == Streamed(t, 0) && session.history == Progress(t, 0)
    modifies session
    ensures session.pending == session.committed
    ensures c.yielded == Names(t.stream[..Consumed(t.cancelSeen)])
    ensures c.cancelled == (Consumed(t.cancelSeen) < |t.stream|)
    ensures c.cancelled ==> session.history == History(t)
    ensures !c.cancelled ==>
              && c.parts == Pieces(t.stream[..|t.stream|])
              && c.tokens == TotalTokens(t.stream[..|t.stream|])
              && session.committed == Streamed(t, |t.stream|)
              && session.history == Progress(t, |t.stream|)
  {
    var parts: seq<string>, total, yielded := [], Tokens(0, 0), [];
    ghost var k := Consumed(t.cancelSeen);
    var i := 0;
    while i < |t.stream|
      invariant 0 <= i <= k
      invariant session.pending == session.committed == Streamed(t, i)
      invariant session.history == Progress(t, i)
      invariant parts == Pieces(t.stream[..i])
      invariant total == TotalTokens(t.stream[..i])
      invariant yielded == Names(t.stream[..i])
    {
      if t.cancelSeen[i] {
        assert i == k;
        var partial := HandleCancellation(session, parts);
        assert session.committed == Closed(t, k) && UsageStates(t) == [];
        return Consumption(parts, total, yielded, true);
      }
      var event := t.stream[i];
      session.pending := LogEvent(session.pending, event);
      session.Commit();
      if IsPiece(event) {
        parts := parts + [event.Keys().content.value];
      }
      var tokens := ExtractTokenUsage(event.Keys().metrics);
      total := Tokens(total.input + tokens.input, total.output + tokens.output);
      yielded := yielded + [Forwarded(event.Name())];
      OneMoreEvent(t.stream, i);
      i := i + 1;
    }
    return Consumption(parts, total, yielded, false);
  }

  /** What follows the `async for`: the failure branch, or completion and usage. */
  method FinishTurn(session: Session, t: Turn, c: Consumption) returns (last: SseEvent)
    requires t.Valid() && Consumed(t.cancelSeen) == |t.stream|
    requires c.parts == Pieces(t.stream[..|t.stream|]) && c.tokens == TotalTokens(t.stream[..|t.stream|])
    requires session.pending == session.committed == Streamed(t, |t.stream|)
    requires session.history == Progress(t, |t.stream|)
    modifies session
    ensures session.history == History(t)
    ensures session.pending == session.committed
    ensures last == if t.Failure().Some? then SseError else SseCompleted
  {
    assert t.stream[..|t.stream|] == t.stream;
    if t.Failure().Some? {
      session.pending := MarkFailed(session.pending, t.Failure().value);
      session.Commit();
      return SseError;
    }
    var finalOutput := MergeContentParts(c.parts);
    session.pending := AddMessage(session.pending, AssistantRole, finalOutput);
    session.pending := MarkCompleted(session.pending, finalOutput);
    session.Commit();
    ghost var closing := session.committed;
    assert closing == Closed(t, |t.stream|) && closing.usage == [];
    RecordUsageRow(session, UsageRow(t.user, c.tokens.input, c.tokens.output, t.cost), t.usageInsertOk);
    assert [UsageOf(t)] == closing.usage + [UsageOf(t)];
    return SseCompleted;
  }

  /** handle_chat_stream, from the creation of the run on. */
  method HandleChatStream(session: Session, t: Turn) returns (yielded: seq<SseEvent>)
    requires t.Valid()
    requires session.committed == session.pending == EMPTY && session.history == []
    modifies session
    ensures session.history == History(t)
    ensures session.pending == session.committed
    ensures yielded == Yielded(t)
  {
    session.pending := CreateRun(session.pending, t.input);
    session.pending := AddMessage(session.pending, UserRole, t.input);
    session.Commit();
    session.pending := MarkRunning(session.pending);
    session.Commit();

    var consumed := ConsumeStream(session, t);
    if consumed.cancelled {
      return [SseStarted] + consumed.yielded + [SseCancelled];
    }
    var last := FinishTurn(session, t, consumed);
    return [SseStarted] + consumed.yielded + [last];
  }
}
