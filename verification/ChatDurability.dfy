/** What holds of every state a streaming chat turn commits, and of the order it commits them in. */
module ChatDurability {
  import opened Prelude
  import opened ChatText
  import opened RunLog
  import opened TokenMetrics
  import opened ChatTurn

  /** The log of a run under way: what was asked, then the engine's events as they came. */
  lemma {:induction false} StreamedShape(t: Turn, i: nat)
    requires i <= |t.stream|
    ensures var db := Streamed(t, i);
            && |db.events| == i + 1
            && db.events[0] == Event(0, AgentStarted, Input(t.input))
            && (forall j | 0 < j <= i :: db.events[j] == EventOf(t, j))
            && db.messages == [Message(UserRole, t.input)]
    decreases i
  {
    if i > 0 {
      StreamedShape(t, i - 1);
    }
  }

  /** The row that logs the stream's event j - 1. */
  function EventOf(t: Turn, j: nat): Event
    requires 0 < j <= |t.stream|
  {
    Event(j, SafeEventType(t.stream[j - 1].Name()), t.stream[j - 1].Keys())
  }

  /** Every commit that has the stream's event j - 1 logged holds it as row j, with the keys the engine gave it. */
  lemma LoggedEvent(t: Turn, i: nat, j: nat)
    requires 0 < j <= i <= |t.stream|
    ensures |Streamed(t, i).events| == i + 1
    ensures var row, e := Streamed(t, i).events[j], t.stream[j - 1];
      && row.id == j && row.kind == SafeEventType(e.Name())
      && row.payload.isAssistantContent == (if e.RunFailed? then None else Some(e.FromAgno? && e.assistant))
      && row.payload.agnoEvent == (if e.FromAgno? then Some(e.agnoEvent) else None)
      && row.payload.content == (if e.FromAgno? then e.content else None)
      && row.payload.tools == (if e.FromAgno? then e.tools else None)
      && row.payload.error == (if e.RunFailed? then Some(e.error) else None)
      && row.payload.metrics == (if e.FinalMetrics? then Some(e.metrics) else None)
      && row.payload.uiActionPlan == (if e.UiActions? then Some(e.plan) else None)
  {
    StreamedShape(t, i);
  }

  /** Of the engine's events only its error event looks like one that closes a run. */
  lemma OnlyTheErrorLooksClosing(t: Turn, j: nat)
    requires 0 < j <= |t.stream|
    ensures LooksClosing(EventOf(t, j)) <==> t.stream[j - 1].RunFailed?
    ensures BareError(EventOf(t, j)) <==> t.stream[j - 1].RunFailed?
  {
  }

  lemma OnlyUserMessage(text: string)
    ensures AssistantTexts([Message(UserRole, text)]) == []
  {
    assert [Message(UserRole, text)][..0] == [];
  }

  lemma StreamedIsConsistent(t: Turn, i: nat)
    requires t.Valid() && i <= |t.stream|
    ensures Consistent(Streamed(t, i))
  {
    StreamedShape(t, i);
    OnlyUserMessage(t.input);
    if i > 0 {
      OnlyTheErrorLooksClosing(t, i);
    }
    if i > 1 {
      OnlyTheErrorLooksClosing(t, i - 1);
    }
  }

  /** The assistant text of the closing state: the merge of exactly the pieces consumed, if it was to be kept. */
  function SavedText(t: Turn, k: nat): seq<string>
    requires k <= |t.stream|
  {
    var text := MergeParts(Pieces(t.stream[..k]));
    if k < |t.stream| then (if text == "" then [] else [text])
    else if t.Failure().Some? then [] else [text]
  }

  lemma AppendedText(messages: seq<Message>, text: string)
    ensures AssistantTexts(messages + [Message(AssistantRole, text)]) == AssistantTexts(messages) + [text]
  {
    assert (messages + [Message(AssistantRole, text)])[..|messages|] == messages;
  }

  lemma ClosedText(t: Turn, k: nat)
    requires t.Valid() && k <= |t.stream|
    ensures AssistantTexts(Closed(t, k).messages) == SavedText(t, k)
  {
    StreamedShape(t, k);
    OnlyUserMessage(t.input);
    AppendedText([Message(UserRole, t.input)], MergeParts(Pieces(t.stream[..k])));
  }

  /** A run under way: no event has the keys of a completion or a cancellation, and none this error text. */
  ghost predicate Open(db: Db, error: string) {
    && db.run == Some(RunRow(Running, None, None))
    && db.usage == []
    && (forall j | 0 <= j < |db.events| ::
          && db.events[j].id == j
          && db.events[j].payload.outputLength.None?
          && db.events[j].payload.error != Some(error))
  }

  lemma CompletionIsConsistent(db: Db, text: string)
    requires exists error :: Open(db, error)
    requires AssistantTexts(db.messages) == [text]
    ensures Consistent(MarkCompleted(db, text))
  {
  }

  lemma CancellationIsConsistent(db: Db, text: string)
    requires exists error :: Open(db, error)
    requires AssistantTexts(db.messages) == (if text == "" then [] else [text])
    ensures Consistent(MarkCancelled(db, text))
  {
  }

  /** A failure follows the engine's own error event, whose text is a different one. */
  lemma FailureIsConsistent(db: Db, error: string)
    requires Open(db, error) && AssistantTexts(db.messages) == []
    requires db.events != [] && BareError(db.events[|db.events| - 1])
    ensures Consistent(MarkFailed(db, error))
  {
  }

  /** The failure text of the run, or a text no failure has. */
  function NewError(t: Turn): string {
    if t.Failure().Some? then t.Failure().value else STREAM_FAILED
  }

  lemma EngineNeverLogs(t: Turn, j: nat)
    requires t.Valid() && 0 < j <= |t.stream|
    ensures EventOf(t, j).payload.outputLength.None? && EventOf(t, j).payload.error != Some(NewError(t))
  {
    if t.stream[j - 1].RunFailed? {
      assert j == |t.stream| && |NewError(t)| > |t.stream[j - 1].error|;
    }
  }

  /** Whatever the engine has streamed, the run is open, and the error text of its failure is new to the log. */
  lemma StreamedIsOpen(t: Turn, k: nat)
    requires t.Valid() && k <= |t.stream|
    ensures Open(Streamed(t, k), NewError(t))
  {
    StreamedShape(t, k);
    var events := Streamed(t, k).events;
    forall j | 0 <= j < |events|
      ensures events[j].id == j && events[j].payload.outputLength.None? && events[j].payload.error != Some(NewError(t))
    {
      if j > 0 {
        EngineNeverLogs(t, j);
      }
    }
  }

  lemma ClosedIsConsistent(t: Turn, k: nat)
    requires t.Valid() && k <= |t.stream|
    ensures Consistent(Closed(t, k))
  {
    StreamedShape(t, k);
    StreamedIsOpen(t, k);
    OnlyUserMessage(t.input);
    var db, text := Streamed(t, k), MergeParts(Pieces(t.stream[..k]));
    AppendedText(db.messages, text);
    var withText := AddMessage(db, AssistantRole, text);
    assert Open(withText, NewError(t));
    if k < |t.stream| {
      CancellationIsConsistent(if text == "" then db else withText, text);
    } else if t.Failure().Some? {
      OnlyTheErrorLooksClosing(t, k);
      FailureIsConsistent(db, NewError(t));
    } else {
      CompletionIsConsistent(withText, text);
    }
  }

  lemma ClosedWithUsageIsConsistent(t: Turn, k: nat, row: UsageRow)
    requires t.Valid() && k == |t.stream| && t.Failure().None?
    ensures Consistent(Closed(t, k).(usage := [row]))
  {
    ClosedIsConsistent(t, k);
  }

  lemma {:induction false} ProgressAt(t: Turn, n: nat)
    requires n <= |t.stream|
    ensures |Progress(t, n)| == n + 2 && Progress(t, n)[0] == Opened(t)
    ensures forall i | 0 <= i <= n :: Progress(t, n)[i + 1] == Streamed(t, i)
    decreases n
  {
    if n > 0 {
      ProgressAt(t, n - 1);
    }
  }

  /** Where each commit of the turn stands in its history. */
  lemma HistoryAt(t: Turn)
    requires t.Valid()
    ensures var k, h := Consumed(t.cancelSeen), History(t);
            && |h| == k + 3 + (if RecordsUsage(t) then 1 else 0)
            && h[0] == Opened(t)
            && (forall i | 0 <= i <= k :: h[i + 1] == Streamed(t, i))
            && h[k + 2] == Closed(t, k)
            && (RecordsUsage(t) ==> h[k + 3] == Closed(t, k).(usage := [UsageOf(t)]))
  {
    ProgressAt(t, Consumed(t.cancelSeen));
  }

  lemma OpenedIsConsistent(t: Turn)
    ensures Consistent(Opened(t))
  {
    OnlyUserMessage(t.input);
  }

  /** The i-th commit of the turn. */
  function CommitAt(t: Turn, i: nat): Db
    requires t.Valid()
  {
    var k := Consumed(t.cancelSeen);
    if i == 0 then Opened(t)
    else if i <= k + 1 then Streamed(t, i - 1)
    else if i == k + 2 || !RecordsUsage(t) then Closed(t, k)
    else Closed(t, k).(usage := [UsageOf(t)])
  }

  lemma HistoryIsCommits(t: Turn, i: nat)
    requires t.Valid() && i < |History(t)|
    ensures History(t)[i] == CommitAt(t, i)
  {
    HistoryAt(t);
    if 1 <= i <= Consumed(t.cancelSeen) + 1 {
      assert History(t)[(i - 1) + 1] == Streamed(t, i - 1);
    }
  }

  lemma CommitIsConsistent(t: Turn, i: nat)
    requires t.Valid()
    ensures Consistent(CommitAt(t, i))
  {
    var k := Consumed(t.cancelSeen);
    if i == 0 {
      OpenedIsConsistent(t);
    } else if i <= k + 1 {
      StreamedIsConsistent(t, i - 1);
    } else if i == k + 2 || !RecordsUsage(t) {
      ClosedIsConsistent(t, k);
    } else {
      ClosedWithUsageIsConsistent(t, k, UsageOf(t));
    }
  }

  /** Every committed state can be made sense of on its own. */
  lemma EveryCommitIsConsistent(t: Turn, i: nat)
    requires t.Valid() && i < |History(t)|
    ensures Consistent(History(t)[i])
  {
    HistoryIsCommits(t, i);
    CommitIsConsistent(t, i);
  }

  /** The commit of the engine's error event, just before the one that fails the run. */
  predicate AboutToFail(t: Turn, i: nat)
    requires t.Valid()
  {
    t.Failure().Some? && Consumed(t.cancelSeen) == |t.stream| && i == |t.stream| + 1
  }

  /** The last event looks as if it closed the run, and the run is not over. */
  predicate Misleads(db: Db) {
    db.run.Some? && db.events != [] && LooksClosing(db.events[|db.events| - 1]) && !db.run.value.status.Terminal()
  }

  lemma StreamedMisleadsIff(t: Turn, i: nat)
    requires t.Valid() && i <= |t.stream|
    ensures Misleads(Streamed(t, i)) <==> i > 0 && t.stream[i - 1].RunFailed?
  {
    StreamedShape(t, i);
    if i > 0 {
      OnlyTheErrorLooksClosing(t, i);
    }
  }

  lemma CommitMisleadsIff(t: Turn, i: nat)
    requires t.Valid() && i < |History(t)|
    ensures Misleads(CommitAt(t, i)) <==> AboutToFail(t, i)
  {
    HistoryAt(t);
    if 1 <= i <= Consumed(t.cancelSeen) + 1 {
      StreamedMisleadsIff(t, i - 1);
    }
  }

  /**
   What the last event alone does not tell: in every failing turn one commit ends in the engine's error event, which
   looks like the one that closes a failed run, while the run is still running. No other commit misleads, and the
   whole log never does.
   */
  lemma LastEventMisleadsIff(t: Turn, i: nat)
    requires t.Valid() && i < |History(t)|
    ensures Misleads(History(t)[i]) <==> AboutToFail(t, i)
    ensures History(t)[i].run.Some? && (History(t)[i].run.value.status.Terminal() <==> LogClosed(History(t)[i].events))
  {
    HistoryIsCommits(t, i);
    CommitMisleadsIff(t, i);
    CommitIsConsistent(t, i);
  }

  function FinalStatus(t: Turn): Status
    requires t.Valid()
  {
    if Consumed(t.cancelSeen) < |t.stream| then Cancelled else if t.Failure().Some? then Failed else Completed
  }

  /** Pending, then running, then exactly one terminal status that never changes again. */
  lemma StatusPath(t: Turn, i: nat)
    requires t.Valid() && i < |History(t)|
    ensures History(t)[i].run.Some?
    ensures History(t)[i].run.value.status ==
              if i == 0 then Pending
              else if i <= Consumed(t.cancelSeen) + 1 then Running
              else FinalStatus(t)
  {
    HistoryAt(t);
    if 1 <= i <= Consumed(t.cancelSeen) + 1 {
      assert History(t)[(i - 1) + 1] == Streamed(t, i - 1);
    }
  }

  lemma NextCommitGrows(t: Turn, i: nat)
    requires t.Valid() && i + 1 < |History(t)|
    ensures History(t)[i].events <= History(t)[i + 1].events
  {
    var h, k := History(t), Consumed(t.cancelSeen);
    HistoryAt(t);
    if i <= k + 1 {
      if i > 0 {
        assert h[(i - 1) + 1] == Streamed(t, i - 1);
      }
      if i <= k {
        assert h[i + 1] == Streamed(t, i);
      } else {
        assert Streamed(t, k).events <= Closed(t, k).events;
      }
    }
  }

  lemma {:induction false} LogGrows(t: Turn, i: nat, j: nat)
    requires t.Valid() && i <= j < |History(t)|
    ensures History(t)[i].events <= History(t)[j].events
    decreases j
  {
    if i < j {
      LogGrows(t, i, j - 1);
      NextCommitGrows(t, j - 1);
    }
  }

  /** The sequence of commits is one that the tail of a run can rely on. */
  lemma HistoryIsDisciplined(t: Turn)
    requires t.Valid()
    ensures Disciplined(History(t))
  {
    var h, k := History(t), Consumed(t.cancelSeen);
    forall i | 0 <= i < |h|
      ensures h[i].run.Some?
    {
      StatusPath(t, i);
    }
    forall i, j | 0 <= i <= j < |h|
      ensures h[i].events <= h[j].events
    {
      LogGrows(t, i, j);
    }
    HistoryAt(t);
    forall i, j | 0 <= i <= j < |h| && h[i].run.value.status.Terminal()
      ensures h[j].run.value.status == h[i].run.value.status && h[j].events == h[i].events
    {
      StatusPath(t, i);
      StatusPath(t, j);
    }
  }

  /** Once the cancel flag is seen, run_cancelled is the only event still logged, and nothing more is consumed. */
  lemma OnlyCancellationAfterTheFlag(t: Turn)
    requires t.Valid() && FinalStatus(t) == Cancelled
    ensures var k, last := Consumed(t.cancelSeen), History(t)[|History(t)| - 1];
            && t.cancelSeen[k] && |last.events| == k + 2
            && last.events[..k + 1] == Streamed(t, k).events
            && last.events[k + 1].kind == RunCancelled && last.events[k + 1].payload.reason == Some(CANCEL_REASON)
            && last.usage == []
  {
    HistoryAt(t);
    StreamedShape(t, Consumed(t.cancelSeen));
  }

  /** The saved answer is the merge of exactly the consumed pieces and contains each of them as a block. */
  lemma SavedTextHoldsEveryPiece(t: Turn)
    requires t.Valid() && FinalStatus(t) != Failed
    ensures var pieces := Pieces(t.stream[..Consumed(t.cancelSeen)]);
            var saved := AssistantTexts(History(t)[|History(t)| - 1].messages);
            && (pieces != [] ==> saved == [MergeParts(pieces)])
            && (forall j | 0 <= j < |pieces| :: Contains(MergeParts(pieces), pieces[j]))
  {
    var k := Consumed(t.cancelSeen);
    var pieces := Pieces(t.stream[..k]);
    HistoryAt(t);
    ClosedText(t, k);
    forall j | 0 <= j < |pieces|
      ensures Contains(MergeParts(pieces), pieces[j])
    {
      EveryPieceIsContained(pieces, j);
    }
    if pieces != [] {
      PiecesAreNotEmpty(t.stream[..k], 0);
      EveryPieceIsContained(pieces, 0);
    }
  }

  /** What one more event of the engine adds to the answer: its content, if it is the assistant's and not empty. */
  lemma OneMorePiece(stream: seq<StreamEvent>, e: StreamEvent)
    ensures Pieces([]) == []
    ensures Pieces(stream + [e])
         == Pieces(stream)
            + (if e.FromAgno? && e.assistant && e.content.Some? && e.content.value != "" then [e.content.value] else [])
  {
    assert (stream + [e])[..|stream|] == stream;
  }

  predicate Said(e: StreamEvent) {
    e.FromAgno? && e.assistant
  }

  /** The stream without tool calls, reasoning, memory updates, metrics, UI actions and errors. */
  function AssistantOnly(stream: seq<StreamEvent>): seq<StreamEvent> {
    if stream == [] then []
    else
      var n := |stream| - 1;
      AssistantOnly(stream[..n]) + (if Said(stream[n]) then [stream[n]] else [])
  }

  lemma {:induction false} OnlyItsEvents(stream: seq<StreamEvent>)
    ensures forall e | e in AssistantOnly(stream) :: Said(e)
    decreases |stream|
  {
    if stream != [] {
      OnlyItsEvents(stream[..|stream| - 1]);
    }
  }

  /** Nothing but what the assistant says goes into the answer. */
  lemma {:induction false} OnlyTheAssistantIsSaved(stream: seq<StreamEvent>)
    ensures Pieces(AssistantOnly(stream)) == Pieces(stream)
    decreases |stream|
  {
    if stream != [] {
      var n := |stream| - 1;
      var before, e := stream[..n], stream[n];
      OnlyTheAssistantIsSaved(before);
      assert stream == before + [e];
      OneMorePiece(before, e);
      OneMorePiece(AssistantOnly(before), e);
      assert AssistantOnly(stream) == if Said(e) then AssistantOnly(before) + [e] else AssistantOnly(before);
    }
  }

  /** The same turn of an engine that streams the assistant's events alone. */
  function Quiet(t: Turn): Turn {
    var said := AssistantOnly(t.stream);
    t.(stream := said, cancelSeen := seq(|said|, i => false))
  }

  lemma {:induction false} NeverSeen(seen: seq<bool>)
    requires forall i | 0 <= i < |seen| :: !seen[i]
    ensures Consumed(seen) == |seen|
    decreases |seen|
  {
    if seen != [] {
      NeverSeen(seen[1..]);
    }
  }

  lemma QuietCompletes(t: Turn)
    ensures Quiet(t).Valid() && FinalStatus(Quiet(t)) == Completed
  {
    OnlyItsEvents(t.stream);
    NeverSeen(Quiet(t).cancelSeen);
    var said := Quiet(t).stream;
    assert forall i | 0 <= i < |said| :: said[i] in said;
  }

  lemma LastCommit(t: Turn)
    requires t.Valid()
    ensures var last, closed := History(t)[|History(t)| - 1], Closed(t, Consumed(t.cancelSeen));
      last.run == closed.run && last.messages == closed.messages
  {
  }

  /**
   How a turn ends: cancelled when a poll saw the flag, else failed when the engine raised, else completed; with the
   merged text as output and answer except for a failed turn, which keeps neither.
   */
  lemma EndOfTurn(t: Turn)
    requires t.Valid()
    ensures var last, text := History(t)[|History(t)| - 1], MergeParts(Pieces(t.stream[..Consumed(t.cancelSeen)]));
      if true in t.cancelSeen then
        && last.run == Some(RunRow(Cancelled, if text == "" then None else Some(text), Some("Cancelled by user")))
        && AssistantTexts(last.messages) == if text == "" then [] else [text]
      else if t.stream != [] && t.stream[|t.stream| - 1].RunFailed? then
        && last.run == Some(RunRow(Failed, None, Some("Agno agent streaming execution failed: "
                                                      + t.stream[|t.stream| - 1].error)))
        && AssistantTexts(last.messages) == []
      else last.run == Some(RunRow(Completed, Some(text), None)) && AssistantTexts(last.messages) == [text]
  {
    var k := Consumed(t.cancelSeen);
    LastCommit(t);
    ClosedText(t, k);
    ClosedRun(t, k);
    SeenIff(t.cancelSeen);
  }

  lemma ClosedRun(t: Turn, k: nat)
    requires t.Valid() && k <= |t.stream|
    ensures var text := MergeParts(Pieces(t.stream[..k]));
      Closed(t, k).run
      == Some(if k < |t.stream| then RunRow(Cancelled, if text == "" then None else Some(text), Some(CANCEL_REASON))
              else if t.Failure().Some? then RunRow(Failed, None, t.Failure())
              else RunRow(Completed, Some(text), None))
  {
  }

  /** What the client sees: the start, every event under its own name, and one closing marker that fits the run row. */
  lemma WhatTheClientSees(t: Turn)
    requires t.Valid()
    ensures var seen, k := Yielded(t), Consumed(t.cancelSeen);
      && |seen| == k + 2 && seen[0] == SseStarted
      && (forall i | 0 <= i < k :: seen[i + 1] == Forwarded(t.stream[i].Name()))
      && (seen[k + 1] == SseCancelled <==> FinalStatus(t) == Cancelled)
      && (seen[k + 1] == SseError <==> FinalStatus(t) == Failed)
      && (seen[k + 1] == SseCompleted <==> FinalStatus(t) == Completed)
  {
    NamesOfEvents(t.stream[..Consumed(t.cancelSeen)]);
  }

  lemma {:induction false} SeenIff(seen: seq<bool>)
    ensures true in seen <==> Consumed(seen) < |seen|
    decreases |seen|
  {
    if seen != [] {
      SeenIff(seen[1..]);
      assert seen == [seen[0]] + seen[1..];
    }
  }

  /** Every event is forwarded under its own name, in order. */
  lemma {:induction false} NamesOfEvents(stream: seq<StreamEvent>)
    ensures |Names(stream)| == |stream|
    ensures forall i | 0 <= i < |stream| :: Names(stream)[i] == Forwarded(stream[i].Name())
    decreases |stream|
  {
    if stream != [] {
      NamesOfEvents(stream[..|stream| - 1]);
    }
  }

  /** An unknown event is logged under its enum value, whatever the engine adds to it. */
  lemma UnknownEventType(before: string, after: string)
    ensures SafeEventType(Other(before + "tool" + after)) == ToolCallStarted
    ensures SafeEventType(Other(before + "error" + after)) in {ToolCallStarted, ErrorEvent}
    ensures SafeEventType(Other(before)) == AgentResponse <==>
              !Contains(before, "tool") && !Contains(Lower(before), "error")
    ensures forall kind :: SafeEventType(Known(kind)) == kind
  {
    var name := before + "tool" + after;
    assert OccursAt(name, "tool", |before|);
    var other := before + "error" + after;
    assert Lower(other)[|before|..|before| + 5] == "error";
    assert OccursAt(Lower(other), "error", |before|);
  }

  /** Only the metrics that follow a finished run add to its usage. */
  lemma OneMoreUsage(stream: seq<StreamEvent>, e: StreamEvent)
    ensures TotalTokens([]) == Tokens(0, 0)
    ensures e.FinalMetrics? ==>
      var before, here := TotalTokens(stream), ExtractTokenUsage(Some(e.metrics));
      TotalTokens(stream + [e]) == Tokens(before.input + here.input, before.output + here.output)
    ensures !e.FinalMetrics? ==> TotalTokens(stream + [e]) == TotalTokens(stream)
  {
    assert (stream + [e])[..|stream|] == stream;
  }

  lemma CompletedWith(t: Turn)
    requires t.Valid() && FinalStatus(t) == Completed
    ensures var last, text := History(t)[|History(t)| - 1], MergeParts(Pieces(t.stream));
      last.run == Some(RunRow(Completed, Some(text), None)) && AssistantTexts(last.messages) == [text]
  {
    assert t.stream[..|t.stream|] == t.stream;
    SeenIff(t.cancelSeen);
    EndOfTurn(t);
  }

  /** A completed turn saves what it would have saved had the engine streamed the assistant's events alone. */
  lemma ToolsDoNotTouchTheAnswer(t: Turn)
    requires t.Valid() && FinalStatus(t) == Completed
    ensures Quiet(t).Valid() && FinalStatus(Quiet(t)) == Completed
    ensures var noisy, quiet := History(t)[|History(t)| - 1], History(Quiet(t))[|History(Quiet(t))| - 1];
      noisy.run == quiet.run && AssistantTexts(noisy.messages) == AssistantTexts(quiet.messages)
  {
    QuietCompletes(t);
    CompletedWith(t);
    CompletedWith(Quiet(t));
    OnlyTheAssistantIsSaved(t.stream);
  }

  lemma {:induction false} PiecesAreNotEmpty(stream: seq<StreamEvent>, j: nat)
    requires j < |Pieces(stream)|
    ensures Pieces(stream)[j] != ""
    decreases |stream|
  {
    var n := |stream| - 1;
    if j < |Pieces(stream[..n])| {
      PiecesAreNotEmpty(stream[..n], j);
    }
  }

  /** Usage is committed for completed runs of known users only; losing its insert loses nothing else. */
  lemma UsageIsSeparate(t: Turn)
    requires t.Valid()
    ensures var h := History(t);
            var last := h[|h| - 1];
            && (last.usage != [] <==> FinalStatus(t) == Completed && t.user != "" && t.usageInsertOk)
            && (last.usage != [] ==>
                  last.usage == [UsageRow(t.user, TotalTokens(t.stream).input, TotalTokens(t.stream).output, t.cost)])
            && History(t.(usageInsertOk := false)) == if last.usage != [] then h[..|h| - 1] else h
  {
    var lost := t.(usageInsertOk := false);
    HistoryAt(t);
    HistoryAt(lost);
    SameProgress(t, lost, Consumed(t.cancelSeen));
  }

  lemma {:induction false} SameProgress(t: Turn, u: Turn, n: nat)
    requires t.Valid() && u == t.(usageInsertOk := u.usageInsertOk) && n <= |t.stream|
    ensures Progress(t, n) == Progress(u, n) && Streamed(t, n) == Streamed(u, n)
    ensures Closed(t, n) == Closed(u, n)
    decreases n
  {
    if n > 0 {
      SameProgress(t, u, n - 1);
    }
  }
}
