/**
 The SSE tail of a run (`stream_run_events` in app/api/v1/runs.py) beside the process that writes it.
 The writer is the sequence of its commits; a poll reads the status in one of them and then the event
 log in that one or a later one.
 */
module RunTail {
  import opened Prelude
  import opened RunLog
  import ChatTurn
  import ChatDurability

  /** Which commits the two reads of one poll see. */
  datatype Poll = Poll(status: nat, events: nat)

  /** Polls of one connection: each read sees the last commit before it, and the status is read first. */
  ghost predicate InOrder(history: seq<Db>, polls: seq<Poll>) {
    && (forall i | 0 <= i < |polls| :: polls[i].status <= polls[i].events < |history|)
    && (forall i, j | 0 <= i < j < |polls| :: polls[i].events <= polls[j].status)
  }

  datatype End = RunNotFound | StreamClosed(status: Status)

  datatype Tail = Tail(sent: seq<Event>, end: Option<End>)

  /** The events not sent yet, in log order. */
  function Unseen(events: seq<Event>, seen: set<nat>): seq<Event> {
    if events == [] then []
    else
      var n := |events| - 1;
      Unseen(events[..n], seen) + (if events[n].id in seen then [] else [events[n]])
  }

  function Ids(events: seq<Event>): set<nat> {
    set e | e in events :: e.id
  }

  /** What the generator has sent after these polls; once it has ended it polls no more. */
  function TailOf(history: seq<Db>, polls: seq<Poll>): Tail
    requires forall p | p in polls :: p.status < |history| && p.events < |history|
  {
    if polls == [] then Tail([], None)
    else
      var n := |polls| - 1;
      var before := TailOf(history, polls[..n]);
      if before.end.Some? then before
      else
        var run := history[polls[n].status].run;
        if run.None? then before.(end := Some(RunNotFound))
        else
          Tail(before.sent + Unseen(history[polls[n].events].events, Ids(before.sent)),
               if run.value.status.Terminal() then Some(StreamClosed(run.value.status)) else None)
  }

  lemma IdsGrow(events: seq<Event>, e: Event)
    ensures Ids(events + [e]) == Ids(events) + {e.id}
  {
    assert forall x :: x in events + [e] <==> x in events || x == e;
  }

  /** The inner loop: sends what is not in `seen_ids` and puts it there. Ids within one log are distinct. */
  method SendUnseen(events: seq<Event>, sent: seq<Event>, seen: set<nat>) returns (now: seq<Event>, seenIds: set<nat>)
    requires forall i, j | 0 <= i < j < |events| :: events[i].id != events[j].id
    requires seen == Ids(sent)
    ensures now == sent + Unseen(events, seen)
    ensures seenIds == Ids(now)
  {
    now, seenIds := sent, seen;
    for i := 0 to |events|
      invariant now == sent + Unseen(events[..i], seen)
      invariant seenIds == Ids(now)
      invariant forall j | i <= j < |events| :: events[j].id in seenIds <==> events[j].id in seen
    {
      assert events[..i + 1][..i] == events[..i];
      if events[i].id !in seenIds {
        IdsGrow(now, events[i]);
        seenIds := seenIds + {events[i].id};
        now := now + [events[i]];
      }
    }
    assert events[..|events|] == events;
  }

  /** event_generator: the poll loop over a growing `seen_ids`. */
  method StreamRunEvents(history: seq<Db>, polls: seq<Poll>) returns (tail: Tail)
    requires forall p | p in polls :: p.status < |history| && p.events < |history|
    requires forall db | db in history :: forall i, j | 0 <= i < j < |db.events| :: db.events[i].id != db.events[j].id
    ensures tail == TailOf(history, polls)
  {
    var sent: seq<Event>, seenIds: set<nat> := [], {};
    for k := 0 to |polls|
      invariant TailOf(history, polls[..k]) == Tail(sent, None)
      invariant seenIds == Ids(sent)
    {
      assert polls[..k + 1][..k] == polls[..k];
      var run := history[polls[k].status].run;
      if run.None? {
        EndedForGood(history, polls, k + 1);
        return Tail(sent, Some(RunNotFound));
      }
      assert history[polls[k].events] in history;
      sent, seenIds := SendUnseen(history[polls[k].events].events, sent, seenIds);
      if run.value.status.Terminal() {
        EndedForGood(history, polls, k + 1);
        return Tail(sent, Some(StreamClosed(run.value.status)));
      }
    }
    assert polls[..|polls|] == polls;
    return Tail(sent, None);
  }

  lemma {:induction false} EndedForGood(history: seq<Db>, polls: seq<Poll>, k: nat)
    requires forall p | p in polls :: p.status < |history| && p.events < |history|
    requires k <= |polls| && TailOf(history, polls[..k]).end.Some?
    ensures TailOf(history, polls) == TailOf(history, polls[..k])
    decreases |polls|
  {
    if k < |polls| {
      var n := |polls| - 1;
      assert polls[..n][..k] == polls[..k];
      EndedForGood(history, polls[..n], k);
    } else {
      assert polls[..k] == polls;
    }
  }

  /** A poll of a run that is gone, or over. */
  predicate Ends(history: seq<Db>, p: Poll)
    requires p.status < |history|
  {
    history[p.status].run.None? || history[p.status].run.value.status in {Completed, Failed, Cancelled}
  }

  lemma OneMoreEnds(history: seq<Db>, polls: seq<Poll>, p: Poll)
    requires forall q | q in polls + [p] :: q.status < |history| && q.events < |history|
    requires TailOf(history, polls).end.None?
    ensures var tail, run := TailOf(history, polls + [p]), history[p.status].run;
      && (tail.end.Some? <==> Ends(history, p))
      && (run.None? ==> tail == Tail(TailOf(history, polls).sent, Some(RunNotFound)))
      && (run.Some? && tail.end.Some? ==> tail.end.value == StreamClosed(run.value.status))
  {
    assert (polls + [p])[..|polls|] == polls;
  }

  /** The stream ends with the first poll that finds the run over or gone. */
  lemma {:induction false} TailEndsIff(history: seq<Db>, polls: seq<Poll>)
    requires forall p | p in polls :: p.status < |history| && p.events < |history|
    ensures TailOf(history, polls).end.Some? <==> exists p :: p in polls && Ends(history, p)
    decreases |polls|
  {
    if polls != [] {
      var n := |polls| - 1;
      assert polls == polls[..n] + [polls[n]];
      TailEndsIff(history, polls[..n]);
      if TailOf(history, polls[..n]).end.None? {
        OneMoreEnds(history, polls[..n], polls[n]);
      }
    }
  }

  // ---------------------------------------------------------------------------------------------
  // Exactly once, in order, nothing missing
  // ---------------------------------------------------------------------------------------------

  /** A run whose log only grows, its rows numbered in log order. */
  ghost predicate Growing(history: seq<Db>) {
    && (forall i | 0 <= i < |history| :: history[i].run.Some?)
    && (forall i, j | 0 <= i < |history| && 0 <= j < |history[i].events| :: history[i].events[j].id == j)
    && (forall i, j | 0 <= i <= j < |history| :: history[i].events <= history[j].events)
  }

  lemma {:induction false} UnseenOfGrownLog(before: seq<Event>, events: seq<Event>)
    requires before <= events && forall j | 0 <= j < |events| :: events[j].id == j
    ensures before + Unseen(events, Ids(before)) == events
    decreases |events|
  {
    if events != [] {
      var n := |events| - 1;
      if |before| == |events| {
        assert before == events;
        NothingUnseen(events, Ids(before));
      } else {
        UnseenOfGrownLog(before, events[..n]);
        assert forall e | e in before :: e.id < n;
        assert events[..n] + [events[n]] == events;
      }
    }
  }

  lemma {:induction false} NothingUnseen(events: seq<Event>, seen: set<nat>)
    requires forall e | e in events :: e.id in seen
    ensures Unseen(events, seen) == []
  {
    if events != [] {
      assert events[|events| - 1] in events;
      NothingUnseen(events[..|events| - 1], seen);
    }
  }

  /** A poll that finds the run sends the rest of the log it reads. */
  lemma OneMorePoll(history: seq<Db>, polls: seq<Poll>)
    requires Growing(history) && InOrder(history, polls) && polls != []
    requires var before := TailOf(history, polls[..|polls| - 1]);
      before.end.None? && before.sent <= history[polls[|polls| - 1].events].events
    ensures var poll := polls[|polls| - 1];
      var status := history[poll.status].run.value.status;
      TailOf(history, polls)
      == Tail(history[poll.events].events, if status.Terminal() then Some(StreamClosed(status)) else None)
  {
    var before := TailOf(history, polls[..|polls| - 1]);
    UnseenOfGrownLog(before.sent, history[polls[|polls| - 1].events].events);
  }

  /** The m-th poll was the last one made, and the tail has sent exactly the log it read. */
  ghost predicate SentThrough(history: seq<Db>, polls: seq<Poll>, m: nat)
    requires Growing(history) && InOrder(history, polls) && m <= |polls|
  {
    var tail := TailOf(history, polls);
    && tail.sent == (if m == 0 then [] else history[polls[m - 1].events].events)
    && (tail.end.None? ==> m == |polls|)
    && (tail.end.Some? ==>
          && m > 0
          && history[polls[m - 1].status].run.value.status.Terminal()
          && tail.end.value == StreamClosed(history[polls[m - 1].status].run.value.status))
  }

  /** A tail that has ended polls no more. */
  lemma NoMorePolls(history: seq<Db>, polls: seq<Poll>, m: nat)
    requires Growing(history) && InOrder(history, polls) && polls != [] && m < |polls|
    requires InOrder(history, polls[..|polls| - 1]) && SentThrough(history, polls[..|polls| - 1], m)
    requires TailOf(history, polls[..|polls| - 1]).end.Some?
    ensures SentThrough(history, polls, m)
  {
    assert TailOf(history, polls) == TailOf(history, polls[..|polls| - 1]);
    assert polls[..|polls| - 1][m - 1] == polls[m - 1];
  }

  lemma SentBefore(history: seq<Db>, polls: seq<Poll>)
    requires Growing(history) && InOrder(history, polls) && polls != []
    requires InOrder(history, polls[..|polls| - 1]) && SentThrough(history, polls[..|polls| - 1], |polls| - 1)
    requires TailOf(history, polls[..|polls| - 1]).end.None?
    ensures TailOf(history, polls[..|polls| - 1]).sent <= history[polls[|polls| - 1].events].events
  {
    var n := |polls| - 1;
    if n > 0 {
      assert polls[..n][n - 1] == polls[n - 1];
      assert polls[n - 1].events <= polls[n].status <= polls[n].events;
    }
  }

  lemma SentSoFar(history: seq<Db>, polls: seq<Poll>, m: nat)
    requires Growing(history) && InOrder(history, polls) && polls != [] && m < |polls|
    requires InOrder(history, polls[..|polls| - 1]) && SentThrough(history, polls[..|polls| - 1], m)
    ensures SentThrough(history, polls, if TailOf(history, polls[..|polls| - 1]).end.Some? then m else |polls|)
  {
    if TailOf(history, polls[..|polls| - 1]).end.Some? {
      NoMorePolls(history, polls, m);
    } else {
      SentBefore(history, polls);
      OneMorePoll(history, polls);
    }
  }

  lemma NoPolls(history: seq<Db>)
    requires Growing(history) && InOrder(history, [])
    ensures SentThrough(history, [], 0)
  {
  }

  /** After its m-th and last poll the tail has sent exactly the log that poll read. */
  lemma {:induction false} SentIsTheLogRead(history: seq<Db>, polls: seq<Poll>) returns (m: nat)
    requires Growing(history) && InOrder(history, polls)
    ensures m <= |polls| && SentThrough(history, polls, m)
  {
    if polls == [] {
      NoPolls(history);
      m := 0;
    } else {
      var n := |polls| - 1;
      assert InOrder(history, polls[..n]);
      m := SentIsTheLogRead(history, polls[..n]);
      SentSoFar(history, polls, m);
      m := if TailOf(history, polls[..n]).end.Some? then m else |polls|;
    }
  }

  /** Nothing is missing when the stream closes. */
  ghost predicate NeverClosesEarly(history: seq<Db>) {
    forall polls: seq<Poll> | InOrder(history, polls) && TailOf(history, polls).end.Some? ::
      TailOf(history, polls).sent == history[|history| - 1].events
  }

  /**
   The tail never closes early exactly when no event is committed after a terminal status: status and
   closing event have to share a commit.
   */
  lemma NeverClosesEarlyIff(history: seq<Db>)
    requires history != [] && Growing(history)
    ensures NeverClosesEarly(history) <==>
              forall i | 0 <= i < |history| && history[i].run.value.status.Terminal() ::
                history[i].events == history[|history| - 1].events
  {
    if NeverClosesEarly(history) {
      forall i | 0 <= i < |history| && history[i].run.value.status.Terminal()
        ensures history[i].events == history[|history| - 1].events
      {
        var polls := [Poll(i, i)];
        var m := SentIsTheLogRead(history, polls);
        assert polls[..0] == [];
        assert InOrder(history, polls) && TailOf(history, polls).end.Some?;
      }
    }
    if forall i | 0 <= i < |history| && history[i].run.value.status.Terminal() ::
      history[i].events == history[|history| - 1].events {
      forall polls: seq<Poll> | InOrder(history, polls) && TailOf(history, polls).end.Some?
        ensures TailOf(history, polls).sent == history[|history| - 1].events
      {
        var m := SentIsTheLogRead(history, polls);
        var p: Poll := polls[m - 1];
        assert history[p.status].events <= history[p.events].events <= history[|history| - 1].events;
      }
    }
  }

  /**
   Tailing any streaming chat turn: at every moment the tail has sent a prefix of the final log, and
   when it closes it has sent all of it and reports the run's final status.
   */
  lemma TailOfAChatTurn(t: ChatTurn.Turn, polls: seq<Poll>)
    requires t.Valid() && InOrder(ChatTurn.History(t), polls)
    ensures var h := ChatTurn.History(t);
            var tail, final := TailOf(h, polls), h[|h| - 1].events;
            && tail.sent <= final
            && (tail.end.Some? ==> tail.sent == final && tail.end.value == StreamClosed(ChatDurability.FinalStatus(t)))
  {
    var h := ChatTurn.History(t);
    ChatDurability.HistoryIsDisciplined(t);
    forall i | 0 <= i < |h|
      ensures Consistent(h[i])
    {
      ChatDurability.EveryCommitIsConsistent(t, i);
    }
    assert Growing(h);
    var m := SentIsTheLogRead(h, polls);
    if m > 0 {
      assert h[polls[m - 1].events].events <= h[|h| - 1].events;
    }
    if TailOf(h, polls).end.Some? {
      var p := polls[m - 1];
      ChatDurability.StatusPath(t, p.status);
    }
  }

  /** A failed run, and its log before and after the commit that closes it. */
  lemma FailedRun() returns (h: seq<Db>, first: Event, last: Event)
    ensures |h| == 2 && Disciplined(h) && Growing(h)
    ensures h[0].events == [first] && h[1].events == [first, last]
    ensures h[1].run.Some? && h[1].run.value.status.Terminal()
  {
    var started := MarkRunning(CreateRun(EMPTY, ""));
    var done := MarkFailed(started, "");
    h, first, last := [started, done], done.events[0], done.events[1];
  }

  /** Reading the events before the status, as the code does not, can close the stream one event short. */
  lemma EventsBeforeStatusLosesTheLast()
    ensures exists h: seq<Db>, p: Poll ::
              && Disciplined(h) && Growing(h)
              && p.events < p.status < |h|
              && TailOf(h, [p]).end.Some?
              && TailOf(h, [p]).sent != h[|h| - 1].events
  {
    var h, first, last := FailedRun();
    var p := Poll(1, 0);
    assert [p][..0] == [] && h[0].events[..0] == [];
    assert Unseen([], Ids([])) == [];
    assert Unseen(h[0].events, Ids([])) == [first];
    assert TailOf(h, []) == Tail([], None);
    assert TailOf(h, [p]).sent == [] + Unseen(h[0].events, Ids([]));
  }
}
