/**
 `_fire_one` and `record_fired` as the code writes them, one replica acting on shared state. Each
 method is tied to the steps of the protocol in Schedule, so what is proved there about every
 interleaving covers these calls.
 */
module Ticker {
  import opened Prelude
  import opened Schedule

  /** How run_workflow ended: its status and run id, or the exception that `_fire_one` swallows. */
  datatype Outcome = Finished(status: string, runId: int) | Raised(error: string)

  /** The shared Redis key and database row, the replicas' places, and the history the claims are about. */
  class Platform {
    var now: int
    var row: Row
    var lock: Option<int>
    var replicas: seq<Replica>
    var lastRunAt: Option<int>
    var lastStatus: Option<string>
    var lastError: Option<string>
    var lastRunId: Option<int>
    ghost var wins: seq<int>
    ghost var fired: seq<Fire>

    ghost function View(): State
      reads this
    {
      State(now, row, lock, replicas, wins, fired)
    }

    /** SET key NX EX ttl. */
    method TryAcquireLock(c: Config, i: nat) returns (won: bool)
      requires i < |replicas| && replicas[i].Scanned? && Within(c.scanToLock, replicas[i].at, now)
      modifies this`lock, this`replicas, this`wins
      ensures won == !LockHeld(old(View()))
      ensures Apply(c, old(View()), TryLock(i)) == Some(View())
    {
      won := lock.None? || lock.value <= now;
      if won {
        lock := Some(now + c.ttl);
        wins := wins + [now];
        replicas := replicas[i := Won(now, replicas[i].seen)];
      } else {
        replicas := replicas[i := Idle];
      }
    }

    /** record_fired, up to its flush; the timing used is the one this replica re-read. */
    method RecordFired(c: Config, i: nat, outcome: Outcome, croniterNext: int)
      requires i < |replicas| && replicas[i].Running? && now < croniterNext
      modifies this`replicas, this`lastRunAt, this`lastStatus, this`lastError, this`lastRunId
      ensures Apply(c, old(View()), Record(i, NextRunAt(old(replicas[i].timing), now, croniterNext))) == Some(View())
      ensures replicas[i].Recorded?
      ensures lastRunAt == Some(now)
      ensures lastStatus == Some(if outcome.Finished? then outcome.status else "FAILED")
      ensures lastError == if outcome.Raised? then Some(outcome.error) else None
      ensures lastRunId == if outcome.Finished? then Some(outcome.runId) else None
    {
      lastRunAt := Some(now);
      match outcome {
        case Finished(status, runId) => lastStatus, lastError, lastRunId := Some(status), None, Some(runId);
        case Raised(error) => lastStatus, lastError, lastRunId := Some("FAILED"), Some(error), None;
      }
      var loaded := replicas[i];
      replicas := replicas[i := Recorded(loaded.wonAt, loaded.seen, NextRunAt(loaded.timing, now, croniterNext))];
    }

    /** run_workflow on the row as it was re-read; it takes this long. */
    method RunIt(c: Config, i: nat, seconds: nat)
      requires i < |replicas| && replicas[i].Won? && !row.deleted && row.enabled
      requires forall k | 0 <= k < |replicas| && replicas[k].Pending() ::
                 Within(c.lockToCommit, replicas[k].wonAt, now + seconds)
      modifies this`replicas, this`fired, this`now
      ensures Run(c, old(View()), [Refetch(i), Tick(seconds)]) == Some(View())
      ensures i < |replicas| && replicas[i].Running? && replicas[i].timing == row.timing
      ensures now == old(now) + seconds && |fired| == |old(fired)| + 1
    {
      ghost var s0 := View();
      fired := fired + [Fire(replicas[i].seen, replicas[i].wonAt, row.nextRunAt)];
      replicas := replicas[i := Running(replicas[i].wonAt, replicas[i].seen, row.timing)];
      ghost var s1 := View();
      Extend(c, s0, [], s0, Refetch(i), s1);
      now := now + seconds;
      Extend(c, s0, [] + [Refetch(i)], s1, Tick(seconds), View());
      assert [] + [Refetch(i)] + [Tick(seconds)] == [Refetch(i), Tick(seconds)];
    }

    /** record_fired, and the end of the session: its commit, or the rollback when that fails. */
    method FinishIt(c: Config, i: nat, outcome: Outcome, croniterNext: int, commitOk: bool)
      requires i < |replicas| && replicas[i].Running? && ValidTiming(replicas[i].timing) && now < croniterNext
      requires !commitOk ==> c.mayAbort
      modifies this`replicas, this`row, this`lastRunAt, this`lastStatus, this`lastError, this`lastRunId
      ensures var next := NextRunAt(old(replicas[i].timing), now, croniterNext);
        Run(c, old(View()), [Record(i, next), if commitOk then Commit(i) else Abort(i)]) == Some(View())
      ensures i < |replicas| && replicas[i] == Idle
      ensures commitOk ==> !Due(row, now) && lastRunAt == Some(now)
      ensures commitOk ==> var timing := old(replicas[i].timing);
                row == old(row).(nextRunAt := Some(if timing.Interval? then now + timing.seconds else croniterNext))
      ensures commitOk ==> lastStatus == Some(if outcome.Finished? then outcome.status else "FAILED")
      ensures commitOk ==> lastError == if outcome.Raised? then Some(outcome.error) else None
      ensures commitOk ==> lastRunId == if outcome.Finished? then Some(outcome.runId) else None
      ensures !commitOk ==> row == old(row) && lastRunAt == old(lastRunAt) && lastStatus == old(lastStatus)
      ensures !commitOk ==> lastError == old(lastError) && lastRunId == old(lastRunId)
    {
      ghost var s0 := View();
      ghost var next := NextRunAt(replicas[i].timing, now, croniterNext);
      var saved, savedStatus, savedError, savedId := lastRunAt, lastStatus, lastError, lastRunId;
      RecordFired(c, i, outcome, croniterNext);
      ghost var s1 := View();
      Extend(c, s0, [], s0, Record(i, next), s1);
      if commitOk {
        row := row.(nextRunAt := Some(replicas[i].next));
        replicas := replicas[i := Idle];
        Extend(c, s0, [] + [Record(i, next)], s1, Commit(i), View());
      } else {
        lastRunAt, lastStatus, lastError, lastRunId := saved, savedStatus, savedError, savedId;
        replicas := replicas[i := Idle];
        Extend(c, s0, [] + [Record(i, next)], s1, Abort(i), View());
      }
      assert [] + [Record(i, next)] + [if commitOk then Commit(i) else Abort(i)]
          == [Record(i, next), if commitOk then Commit(i) else Abort(i)];
    }

    /**
     One call of `_fire_one` that no other replica interleaves. The run takes `seconds`; the caller
     answers for its timing bounds only.
     */
    method FireOne(c: Config, i: nat, outcome: Outcome, seconds: nat, croniterNext: int, commitOk: bool)
      requires i < |replicas| && replicas[i].Scanned? && Within(c.scanToLock, replicas[i].at, now)
      requires ValidTiming(row.timing) && Within(c.lockToCommit, now, now + seconds) && now + seconds < croniterNext
      requires forall k | 0 <= k < |replicas| && replicas[k].Pending() ::
                 Within(c.lockToCommit, replicas[k].wonAt, now + seconds)
      requires !commitOk ==> c.mayAbort
      modifies this
      ensures Run(c, old(View()), FireOneSteps(old(View()), i, seconds, croniterNext, commitOk)) == Some(View())
      ensures i < |replicas| && replicas[i] == Idle
      // whatever the run's outcome, a schedule that fired is not left due, unless its commit fails
      ensures |fired| > |old(fired)| <==> !LockHeld(old(View())) && old(row.enabled) && !old(row.deleted)
      ensures |fired| > |old(fired)| && commitOk ==> !Due(row, now) && lastRunAt == Some(now)
      // and the row says when it is next due and how the run ended
      ensures |fired| > |old(fired)| && commitOk ==>
                && row == old(row).(nextRunAt := Some(if old(row).timing.Interval? then now + old(row).timing.seconds
                                                      else croniterNext))
                && lastStatus == Some(if outcome.Finished? then outcome.status else "FAILED")
                && lastError == (if outcome.Raised? then Some(outcome.error) else None)
                && lastRunId == (if outcome.Finished? then Some(outcome.runId) else None)
      ensures |fired| == |old(fired)| || !commitOk ==>
                && row == old(row)
                && lastRunAt == old(lastRunAt) && lastStatus == old(lastStatus)
                && lastError == old(lastError) && lastRunId == old(lastRunId)
    {
      ghost var s0 := View();
      var won := TryAcquireLock(c, i);
      ghost var s1 := View();
      Extend(c, s0, [], s0, TryLock(i), s1);
      assert [] + [TryLock(i)] == [TryLock(i)];
      if !won {
        return;
      }
      if row.deleted || !row.enabled {
        replicas := replicas[i := Idle];
        Extend(c, s0, [TryLock(i)], s1, Refetch(i), View());
        assert [TryLock(i)] + [Refetch(i)] == [TryLock(i), Refetch(i)];
        return;
      }
      RunIt(c, i, seconds);
      ghost var s2 := View();
      RunOn(c, s0, [TryLock(i)], s1, [Refetch(i), Tick(seconds)], s2);
      ghost var next := NextRunAt(replicas[i].timing, now, croniterNext);
      ghost var last := if commitOk then Commit(i) else Abort(i);
      FinishIt(c, i, outcome, croniterNext, commitOk);
      RunOn(c, s0, [TryLock(i)] + [Refetch(i), Tick(seconds)], s2, [Record(i, next), last], View());
      assert [TryLock(i)] + [Refetch(i), Tick(seconds)] + [Record(i, next), last]
          == [TryLock(i), Refetch(i), Tick(seconds), Record(i, next), last];
    }
  }

  /** One run after another. */
  lemma {:induction false} RunOn(c: Config, s: State, p: seq<Action>, t: State, q: seq<Action>, u: State)
    requires Run(c, s, p) == Some(t) && Run(c, t, q) == Some(u)
    ensures Run(c, s, p + q) == Some(u)
    decreases |p|
  {
    if p == [] {
      assert p + q == q;
    } else {
      assert (p + q)[1..] == p[1..] + q;
      RunOn(c, Apply(c, s, p[0]).value, p[1..], t, q, u);
    }
  }

  /** compute_next_run_at with croniter's answer passed in. */
  function NextRunAt(timing: Timing, anchor: int, croniterNext: int): (next: int)
    ensures ValidTiming(timing) && croniterNext > anchor ==> next > anchor
    ensures timing.Interval? ==> next - anchor == timing.seconds
  {
    if timing.Interval? then anchor + timing.seconds else croniterNext
  }

  /** Which protocol steps a call of `_fire_one` goes through. */
  function FireOneSteps(s: State, i: nat, seconds: nat, croniterNext: int, commitOk: bool): seq<Action> {
    if LockHeld(s) then [TryLock(i)]
    else if s.row.deleted || !s.row.enabled then [TryLock(i), Refetch(i)]
    else [TryLock(i), Refetch(i), Tick(seconds), Record(i, NextRunAt(s.row.timing, s.now + seconds, croniterNext)),
          if commitOk then Commit(i) else Abort(i)]
  }
}
