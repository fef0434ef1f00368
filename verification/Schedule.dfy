/**
 The workflow schedule ticker (app/schedule/ticker.py) run by N replicas against one schedule.

 A replica scans for the due row, tries a Redis SET NX EX lock that nobody ever releases,
 re-reads the row (looking at `enabled`, not at `next_run_at`), runs the workflow and commits the
 advanced `next_run_at`. The replicas interleave freely: `Apply` is one atomic step, `Run` a whole
 interleaving. Time is in whole seconds.
 */
module Schedule {
  import opened Prelude

  /** schedule_type with its parameter. */
  datatype Timing = Interval(seconds: nat) | Cron(expression: string)

  /** compute_next_run_at. croniter is only known to answer strictly after its anchor. */
  predicate IsNextRun(timing: Timing, anchor: int, next: int) {
    match timing
    case Interval(seconds) => next == anchor + seconds
    case Cron(_) => next > anchor
  }

  /** The schema refuses a missing, zero or negative interval_seconds. */
  predicate ValidTiming(timing: Timing) {
    timing.Interval? ==> timing.seconds > 0
  }

  /** The committed row of workflow_schedules. */
  datatype Row = Row(timing: Timing, enabled: bool, deleted: bool, nextRunAt: Option<int>)

  /** The eligibility filter of list_due. */
  predicate Due(row: Row, asOf: int) {
    && !row.deleted
    && row.enabled
    && row.nextRunAt.Some?
    && row.nextRunAt.value <= asOf
  }

  /** Where one replica stands with this schedule. */
  datatype Replica =
    | Idle
    | Scanned(at: int, seen: int)                       // list_due returned it, due at `seen`
    | Won(wonAt: int, seen: int)                        // holds the lock, not yet re-read
    | Running(wonAt: int, seen: int, timing: Timing)    // run_workflow called on the re-read row
    | Recorded(wonAt: int, seen: int, next: int)        // record_fired flushed, not committed
  {
    predicate Active() { Running? || Recorded? }

    predicate Pending() { Won? || Active() }
  }

  /** One call of run_workflow: the occurrence that was scanned, and the one on the row as it was re-read and run. */
  datatype Fire = Fire(seen: int, wonAt: int, ran: Option<int>)

  datatype State = State(
    now: int,
    row: Row,
    lock: Option<int>,          // expiry of the lock key
    replicas: seq<Replica>,
    wins: seq<int>,             // history: when the lock was won
    fired: seq<Fire>            // history: the workflow runs
  )

  /**
   Deployment: replica count, lock TTL, and how long a replica may take. A bound of None leaves the
   delay unlimited. `mayAbort` lets a replica's transaction be rolled back after the lock was won, and
   `updatesAnytime` lets an administrator's update come between a replica's scan and its re-read.
   */
  datatype Config = Config(
    n: nat,
    ttl: nat,
    scanToLock: Option<nat>,
    lockToCommit: Option<nat>,
    mayAbort: bool,
    updatesAnytime: bool
  )
  {
    predicate Valid() { ttl > 0 }

    /** The condition under which no occurrence can be fired twice. */
    predicate Safe() {
      || n == 0
      || (!mayAbort && (n == 1 || Bounded()))
    }

    predicate Bounded() {
      && scanToLock.Some?
      && lockToCommit.Some?
      && lockToCommit.value + scanToLock.value < ttl
    }
  }

  predicate Within(bound: Option<nat>, from: int, to: int) {
    bound.Some? ==> to <= from + bound.value
  }

  datatype Action =
    | Tick(seconds: nat)
    | Scan(i: nat, asOf: int)
    | TryLock(i: nat)
    | Refetch(i: nat)
    | Record(i: nat, next: int)
    | Commit(i: nat)
    | Abort(i: nat)
    | Update(timing: Timing, enabled: bool, next: int)
    | Delete

  /** No replica is between its scan and its re-read. */
  predicate Quiet(s: State) {
    forall r | r in s.replicas :: !r.Scanned? && !r.Won?
  }

  predicate LockHeld(s: State) {
    s.lock.Some? && s.now < s.lock.value
  }

  /** One step of the system, or None where the step cannot be taken. */
  function Apply(c: Config, s: State, a: Action): Option<State> {
    match a
    case Tick(d) =>
      if forall i | 0 <= i < |s.replicas| && s.replicas[i].Pending() ::
          Within(c.lockToCommit, s.replicas[i].wonAt, s.now + d)
      then Some(s.(now := s.now + d)) else None
    case Scan(i, asOf) =>
      if i < |s.replicas| && s.replicas[i].Idle? && asOf <= s.now && Due(s.row, asOf)
      then Some(s.(replicas := s.replicas[i := Scanned(s.now, s.row.nextRunAt.value)])) else None
    case TryLock(i) =>
      if i < |s.replicas| && s.replicas[i].Scanned? && Within(c.scanToLock, s.replicas[i].at, s.now)
      then Some(
             if LockHeld(s) then s.(replicas := s.replicas[i := Idle])
             else s.(lock := Some(s.now + c.ttl),
                     replicas := s.replicas[i := Won(s.now, s.replicas[i].seen)],
                     wins := s.wins + [s.now]))
      else None
    case Refetch(i) =>
      if i < |s.replicas| && s.replicas[i].Won?
      then Some(
             var r := s.replicas[i];
             if s.row.deleted || !s.row.enabled then s.(replicas := s.replicas[i := Idle])
             else s.(replicas := s.replicas[i := Running(r.wonAt, r.seen, s.row.timing)],
                     fired := s.fired + [Fire(r.seen, r.wonAt, s.row.nextRunAt)]))
      else None
    case Record(i, next) =>
      if i < |s.replicas| && s.replicas[i].Running? && IsNextRun(s.replicas[i].timing, s.now, next)
      then Some(s.(replicas := s.replicas[i := Recorded(s.replicas[i].wonAt, s.replicas[i].seen, next)])) else None
    case Commit(i) =>
      if i < |s.replicas| && s.replicas[i].Recorded?
      then Some(s.(row := s.row.(nextRunAt := Some(s.replicas[i].next)), replicas := s.replicas[i := Idle])) else None
    case Abort(i) =>
      if c.mayAbort && i < |s.replicas| && s.replicas[i].Pending()
      then Some(s.(replicas := s.replicas[i := Idle])) else None
    case Update(timing, enabled, next) =>
      if ValidTiming(timing) && IsNextRun(timing, s.now, next) && (c.updatesAnytime || Quiet(s))
      then Some(s.(row := s.row.(timing := timing, enabled := enabled,
                                 nextRunAt := if enabled then Some(next) else None))) else None
    case Delete =>
      Some(s.(row := s.row.(deleted := true)))
  }

  /** A whole interleaving, or None where some step of it cannot be taken. */
  function Run(c: Config, s: State, actions: seq<Action>): Option<State>
    decreases |actions|
  {
    if actions == [] then Some(s)
    else
      var next := Apply(c, s, actions[0]);
      if next.None? then None else Run(c, next.value, actions[1..])
  }

  /** Nothing scanned, locked or fired yet; any row. */
  predicate Init(c: Config, s: State) {
    && |s.replicas| == c.n
    && (forall r | r in s.replicas :: r == Idle)
    && s.lock == None
    && s.wins == []
    && s.fired == []
    && ValidTiming(s.row.timing)
  }

  ghost predicate AtMostOnce(s: State) {
    forall i, j | 0 <= i < j < |s.fired| :: s.fired[i].seen != s.fired[j].seen
  }

  /** The same, counted by the occurrence on the row that was run. */
  ghost predicate RanAtMostOnce(s: State) {
    forall i, j | 0 <= i < j < |s.fired| :: s.fired[i].ran != s.fired[j].ran
  }

  ghost predicate WinsApart(s: State, ttl: nat) {
    forall i, j | 0 <= i < j < |s.wins| :: s.wins[i] + ttl <= s.wins[j]
  }

  // ---------------------------------------------------------------------------------------------
  // What a step may do
  // ---------------------------------------------------------------------------------------------

  /** Only a re-read under a lock that was won runs the workflow, once, and only if it is enabled and not deleted. */
  lemma WhenAStepFires(c: Config, s: State, a: Action)
    requires Apply(c, s, a).Some?
    ensures var t := Apply(c, s, a).value;
      if a.Refetch? && s.row.enabled && !s.row.deleted then
        && s.replicas[a.i].Won? && t.replicas[a.i].Running?
        && t.fired == s.fired + [Fire(s.replicas[a.i].seen, s.replicas[a.i].wonAt, s.row.nextRunAt)]
      else t.fired == s.fired
  {
  }

  /** The lock is won only when nobody holds it, and then held for its TTL; a scan sees only what is due. */
  lemma WhatAStepNeeds(c: Config, s: State, a: Action)
    requires Apply(c, s, a).Some?
    ensures var t := Apply(c, s, a).value;
      && (t.wins == s.wins || (t.wins == s.wins + [s.now] && !LockHeld(s) && t.lock == Some(s.now + c.ttl)))
      && (t.lock != s.lock ==> t.wins != s.wins)
      && (a.Scan? ==> s.row.enabled && !s.row.deleted && t.replicas[a.i].Scanned?
                      && s.row.nextRunAt == Some(t.replicas[a.i].seen) && t.replicas[a.i].seen <= s.now)
      && (t.row != s.row ==> a.Commit? || a.Update? || a.Delete?)
  {
  }

  // ---------------------------------------------------------------------------------------------
  // What every step keeps
  // ---------------------------------------------------------------------------------------------

  /** The lock's history, with no assumption on how long anything takes. */
  ghost predicate LockInv(c: Config, s: State) {
    && WinsApart(s, c.ttl)
    && (forall w | w in s.wins :: w <= s.now)
    && (s.lock == if s.wins == [] then None else Some(s.wins[|s.wins| - 1] + c.ttl))
  }

  lemma LockInvStep(c: Config, s: State, a: Action)
    requires LockInv(c, s) && Apply(c, s, a).Some?
    ensures LockInv(c, Apply(c, s, a).value)
  {
    var t := Apply(c, s, a).value;
    if t.wins != s.wins {
      forall i, j | 0 <= i < j < |t.wins|
        ensures t.wins[i] + c.ttl <= t.wins[j]
      {
        if j == |s.wins| && i < |s.wins| - 1 {
          assert s.wins[i] + c.ttl <= s.wins[|s.wins| - 1];
        }
      }
    }
  }

  /** Facts about clocks, kept by every step of every configuration. */
  ghost predicate ClockInv(c: Config, s: State) {
    && |s.replicas| == c.n
    && ValidTiming(s.row.timing)
    && (forall r | r in s.replicas :: ReplicaClock(c, s, r))
    && (forall f | f in s.fired :: f.seen <= f.wonAt && f.wonAt in s.wins)
  }

  ghost predicate ReplicaClock(c: Config, s: State, r: Replica) {
    && (r.Scanned? ==> r.seen <= r.at <= s.now)
    && (r.Pending() ==> r.seen <= r.wonAt && r.wonAt in s.wins && Within(c.lockToCommit, r.wonAt, s.now))
    && (r.Running? ==> ValidTiming(r.timing))
    && (r.Recorded? ==> r.wonAt < r.next)
  }

  lemma ClockInvStep(c: Config, s: State, a: Action)
    requires LockInv(c, s) && ClockInv(c, s) && Apply(c, s, a).Some?
    ensures ClockInv(c, Apply(c, s, a).value)
  {
    var t := Apply(c, s, a).value;
    forall r | r in t.replicas
      ensures ReplicaClock(c, t, r)
    {
      var k :| 0 <= k < |t.replicas| && t.replicas[k] == r;
      assert s.replicas[k] in s.replicas;
      if a.TryLock? && k == a.i && r.Won? {
        assert t.wins[|s.wins|] == s.now;
      }
    }
    forall f | f in t.fired
      ensures f.seen <= f.wonAt && f.wonAt in t.wins
    {
      if f !in s.fired {
        assert s.replicas[a.i] in s.replicas;
      }
    }
  }

  /** The fire is over for good: the row has moved past its occurrence. */
  ghost predicate Settled(s: State, f: Fire) {
    s.row.nextRunAt.Some? ==> f.seen < s.row.nextRunAt.value
  }

  ghost predicate InProgress(s: State, f: Fire) {
    exists i :: 0 <= i < |s.replicas| && s.replicas[i].Active()
                && s.replicas[i].wonAt == f.wonAt && s.replicas[i].seen == f.seen
  }

  /** What keeps a safe configuration from firing one occurrence twice. */
  ghost predicate FireInv(c: Config, s: State) {
    && (forall i | 0 <= i < |s.replicas| && s.replicas[i].Pending() ::
          s.wins != [] && s.replicas[i].wonAt == s.wins[|s.wins| - 1])
    && (forall i, j | 0 <= i < j < |s.replicas| :: !(s.replicas[i].Pending() && s.replicas[j].Pending()))
    && (forall f | f in s.fired :: InProgress(s, f) || Settled(s, f))
    && (forall i, f | 0 <= i < |s.replicas| && f in s.fired :: NotYetFired(c, s.replicas[i], f))
    && AtMostOnce(s)
  }

  /** A replica about to fire `seen` has only earlier occurrences behind it. */
  ghost predicate NotYetFired(c: Config, r: Replica, f: Fire) {
    && (r.Won? ==> f.seen < r.seen)
    && (r.Scanned? && (c.n == 1 || (c.Bounded() && f.wonAt + c.lockToCommit.value < r.at)) ==> f.seen < r.seen)
  }

  lemma LastWinIsLatest(c: Config, s: State, w: int)
    requires LockInv(c, s) && w in s.wins
    ensures s.wins != [] && w <= s.wins[|s.wins| - 1]
    ensures w != s.wins[|s.wins| - 1] ==> w + c.ttl <= s.wins[|s.wins| - 1]
  {
    var k :| 0 <= k < |s.wins| && s.wins[k] == w;
    if k < |s.wins| - 1 {
      assert s.wins[k] + c.ttl <= s.wins[|s.wins| - 1];
    }
  }

  ghost predicate Inv(c: Config, s: State) {
    LockInv(c, s) && ClockInv(c, s) && FireInv(c, s)
  }

  lemma ScanKeepsFireInv(c: Config, s: State, i: nat, asOf: int)
    requires c.Safe() && Inv(c, s) && Apply(c, s, Scan(i, asOf)).Some?
    ensures FireInv(c, Apply(c, s, Scan(i, asOf)).value)
  {
    var t := Apply(c, s, Scan(i, asOf)).value;
    forall f | f in t.fired
      ensures (InProgress(t, f) || Settled(t, f)) && NotYetFired(c, t.replicas[i], f)
    {
      if InProgress(s, f) {
        var k :| 0 <= k < |s.replicas| && s.replicas[k].Active() && s.replicas[k].wonAt == f.wonAt
            && s.replicas[k].seen == f.seen;
        assert t.replicas[k] == s.replicas[k] && s.replicas[k] in s.replicas;
      }
    }
  }

  lemma TryLockKeepsFireInv(c: Config, s: State, i: nat)
    requires c.Valid() && c.Safe() && Inv(c, s) && Apply(c, s, TryLock(i)).Some?
    ensures FireInv(c, Apply(c, s, TryLock(i)).value)
  {
    var t := Apply(c, s, TryLock(i)).value;
    assert s.replicas[i] in s.replicas;
    forall f | f in t.fired
      ensures (InProgress(t, f) || Settled(t, f)) && NotYetFired(c, t.replicas[i], f)
    {
      if InProgress(s, f) {
        var k :| 0 <= k < |s.replicas| && s.replicas[k].Active() && s.replicas[k].wonAt == f.wonAt
            && s.replicas[k].seen == f.seen;
        assert t.replicas[k] == s.replicas[k];
      }
      assert NotYetFired(c, s.replicas[i], f);
      LastWinIsLatest(c, s, f.wonAt);
    }
    if !LockHeld(s) {
      forall k | 0 <= k < |s.replicas| && k != i
        ensures !s.replicas[k].Pending()
      {
        assert s.replicas[k] in s.replicas;
      }
    }
  }

  lemma RefetchKeepsFireInv(c: Config, s: State, i: nat)
    requires c.Safe() && Inv(c, s) && Apply(c, s, Refetch(i)).Some?
    ensures FireInv(c, Apply(c, s, Refetch(i)).value)
  {
    var t := Apply(c, s, Refetch(i)).value;
    assert s.replicas[i] in s.replicas;
    forall f | f in s.fired
      ensures f.seen != s.replicas[i].seen
    {
      assert NotYetFired(c, s.replicas[i], f);
    }
    forall f | f in t.fired
      ensures InProgress(t, f) || Settled(t, f)
    {
      if f !in s.fired {
        assert t.replicas[i].Active() && t.replicas[i].wonAt == f.wonAt;
      }
    }
    forall k, f | 0 <= k < |t.replicas| && f in t.fired
      ensures NotYetFired(c, t.replicas[k], f)
    {
      if f in s.fired {
        assert NotYetFired(c, s.replicas[k], f);
      } else if t.replicas[k].Scanned? {
        // the lock was won recently enough that this scan does not postdate its deadline
        assert t.replicas[k] == s.replicas[k] && s.replicas[k] in s.replicas;
      }
    }
  }

  lemma CommitKeepsFireInv(c: Config, s: State, i: nat)
    requires c.Safe() && Inv(c, s) && Apply(c, s, Commit(i)).Some?
    ensures FireInv(c, Apply(c, s, Commit(i)).value)
  {
    var t := Apply(c, s, Commit(i)).value;
    assert s.replicas[i] in s.replicas;
    forall f | f in t.fired
      ensures Settled(t, f)
    {
      LastWinIsLatest(c, s, f.wonAt);
    }
  }

  lemma OtherStepsKeepFireInv(c: Config, s: State, a: Action)
    requires c.Safe() && Inv(c, s) && Apply(c, s, a).Some?
    requires a.Tick? || a.Record? || a.Abort? || a.Update? || a.Delete?
    ensures FireInv(c, Apply(c, s, a).value)
  {
    var t := Apply(c, s, a).value;
    if c.n > 0 && a.Abort? {
      assert false;
    }
    forall f | f in t.fired
      ensures InProgress(t, f) || Settled(t, f)
    {
      LastWinIsLatest(c, s, f.wonAt);
      if InProgress(s, f) {
        var k :| 0 <= k < |s.replicas| && s.replicas[k].Active() && s.replicas[k].wonAt == f.wonAt
            && s.replicas[k].seen == f.seen;
        assert t.replicas[k].Active() && t.replicas[k].wonAt == f.wonAt && t.replicas[k].seen == f.seen;
      }
    }
    forall k, f | 0 <= k < |t.replicas| && f in t.fired
      ensures NotYetFired(c, t.replicas[k], f)
    {
      assert NotYetFired(c, s.replicas[k], f);
    }
  }

  lemma InvStep(c: Config, s: State, a: Action)
    requires c.Valid() && c.Safe() && Inv(c, s) && Apply(c, s, a).Some?
    ensures Inv(c, Apply(c, s, a).value)
  {
    LockInvStep(c, s, a);
    ClockInvStep(c, s, a);
    match a
    case Scan(i, asOf) => ScanKeepsFireInv(c, s, i, asOf);
    case TryLock(i) => TryLockKeepsFireInv(c, s, i);
    case Refetch(i) => RefetchKeepsFireInv(c, s, i);
    case Commit(i) => CommitKeepsFireInv(c, s, i);
    case _ => OtherStepsKeepFireInv(c, s, a);
  }

  // ---------------------------------------------------------------------------------------------
  // Whole runs
  // ---------------------------------------------------------------------------------------------

  lemma InitInv(c: Config, s: State)
    requires Init(c, s)
    ensures Inv(c, s)
  {
    forall i | 0 <= i < |s.replicas|
      ensures s.replicas[i] == Idle
    {
      assert s.replicas[i] in s.replicas;
    }
  }

  lemma {:induction false} LockInvRun(c: Config, s: State, actions: seq<Action>)
    requires LockInv(c, s) && Run(c, s, actions).Some?
    ensures LockInv(c, Run(c, s, actions).value)
    decreases |actions|
  {
    if actions != [] {
      LockInvStep(c, s, actions[0]);
      LockInvRun(c, Apply(c, s, actions[0]).value, actions[1..]);
    }
  }

  /** Any two lock wins are at least a TTL apart, however slow the replicas are. */
  lemma LockWinsAreATtlApart(c: Config, s: State, actions: seq<Action>)
    requires Init(c, s) && Run(c, s, actions).Some?
    ensures WinsApart(Run(c, s, actions).value, c.ttl)
  {
    LockInvRun(c, s, actions);
  }

  lemma {:induction false} InvRun(c: Config, s: State, actions: seq<Action>)
    requires c.Valid() && c.Safe() && Inv(c, s) && Run(c, s, actions).Some?
    ensures Inv(c, Run(c, s, actions).value)
    decreases |actions|
  {
    if actions != [] {
      InvStep(c, s, actions[0]);
      InvRun(c, Apply(c, s, actions[0]).value, actions[1..]);
    }
  }

  /** Every interleaving of every deployment of this configuration fires each occurrence at most once. */
  ghost predicate NeverFiresTwice(c: Config) {
    forall s, actions | Init(c, s) && Run(c, s, actions).Some? :: AtMostOnce(Run(c, s, actions).value)
  }

  /** The same, counted by the occurrence on the row that was run. */
  ghost predicate NeverRunsTwice(c: Config) {
    forall s, actions | Init(c, s) && Run(c, s, actions).Some? :: RanAtMostOnce(Run(c, s, actions).value)
  }

  /** A row due since instant 0, every replica idle. */
  function DueAtZero(c: Config): State {
    State(0, RowDueAt(0), None, seq(c.n, _ => Idle), [], [])
  }

  function RowDueAt(t: int): Row {
    Row(Cron("* * * * *"), true, false, Some(t))
  }

  /** One more step at the end of a run. */
  lemma {:induction false} Extend(c: Config, s: State, actions: seq<Action>, t: State, a: Action, u: State)
    requires Run(c, s, actions) == Some(t) && Apply(c, t, a) == Some(u)
    ensures Run(c, s, actions + [a]) == Some(u)
    decreases |actions|
  {
    if actions == [] {
      assert actions + [a] == [a];
      assert Run(c, u, []) == Some(u);
    } else {
      assert (actions + [a])[1..] == actions[1..] + [a];
      Extend(c, Apply(c, s, actions[0]).value, actions[1..], t, a, u);
    }
  }

  /** Replica i scans, wins the lock and starts the workflow, with no time passing. */
  lemma ScanAndFire(c: Config, s0: State, p: seq<Action>, s: State, i: nat) returns (q: seq<Action>, u: State)
    requires Run(c, s0, p) == Some(s)
    requires i < |s.replicas| && s.replicas[i].Idle? && Due(s.row, s.now) && !LockHeld(s)
    ensures Run(c, s0, q) == Some(u)
    ensures u == s.(lock := Some(s.now + c.ttl), wins := s.wins + [s.now],
                    replicas := s.replicas[i := Running(s.now, s.row.nextRunAt.value, s.row.timing)],
                    fired := s.fired + [Fire(s.row.nextRunAt.value, s.now, s.row.nextRunAt)])
  {
    var t := s.(replicas := s.replicas[i := Scanned(s.now, s.row.nextRunAt.value)]);
    Extend(c, s0, p, s, Scan(i, s.now), t);
    q, u := LockAndFire(c, s0, p + [Scan(i, s.now)], t, i);
    assert t.replicas[i := Running(s.now, s.row.nextRunAt.value, s.row.timing)] == u.replicas;
  }

  /** A replica that has scanned wins the lock and starts the workflow. */
  lemma LockAndFire(c: Config, s0: State, p: seq<Action>, s: State, i: nat) returns (q: seq<Action>, u: State)
    requires Run(c, s0, p) == Some(s)
    requires i < |s.replicas| && s.replicas[i].Scanned? && Within(c.scanToLock, s.replicas[i].at, s.now)
    requires !LockHeld(s) && s.row.enabled && !s.row.deleted
    ensures Run(c, s0, q) == Some(u)
    ensures u == s.(lock := Some(s.now + c.ttl), wins := s.wins + [s.now],
                    replicas := s.replicas[i := Running(s.now, s.replicas[i].seen, s.row.timing)],
                    fired := s.fired + [Fire(s.replicas[i].seen, s.now, s.row.nextRunAt)])
  {
    var t := s.(lock := Some(s.now + c.ttl), wins := s.wins + [s.now],
                replicas := s.replicas[i := Won(s.now, s.replicas[i].seen)]);
    Extend(c, s0, p, s, TryLock(i), t);
    u := s.(lock := Some(s.now + c.ttl), wins := s.wins + [s.now],
            replicas := s.replicas[i := Running(s.now, s.replicas[i].seen, s.row.timing)],
            fired := s.fired + [Fire(s.replicas[i].seen, s.now, s.row.nextRunAt)]);
    assert t.replicas[i := Running(s.now, s.replicas[i].seen, s.row.timing)] == u.replicas;
    Extend(c, s0, p + [TryLock(i)], t, Refetch(i), u);
    q := p + [TryLock(i)] + [Refetch(i)];
  }

  /** The replica running the workflow records its next run and commits. */
  lemma RecordAndCommit(c: Config, s0: State, p: seq<Action>, s: State, i: nat, next: int)
    returns (q: seq<Action>, u: State)
    requires Run(c, s0, p) == Some(s)
    requires i < |s.replicas| && s.replicas[i].Running? && IsNextRun(s.replicas[i].timing, s.now, next)
    ensures Run(c, s0, q) == Some(u)
    ensures u == s.(row := s.row.(nextRunAt := Some(next)), replicas := s.replicas[i := Idle])
  {
    var t := s.(replicas := s.replicas[i := Recorded(s.replicas[i].wonAt, s.replicas[i].seen, next)]);
    Extend(c, s0, p, s, Record(i, next), t);
    u := s.(row := s.row.(nextRunAt := Some(next)), replicas := s.replicas[i := Idle]);
    assert t.replicas[i := Idle] == u.replicas;
    Extend(c, s0, p + [Record(i, next)], t, Commit(i), u);
    q := p + [Record(i, next)] + [Commit(i)];
  }

  /** While replica 0 runs the workflow, replica 1 scans; then replica 0 commits. */
  lemma ScanBeforeCommit(c: Config, s0: State, p: seq<Action>, s: State, run: nat, next: int)
    returns (q: seq<Action>, u: State)
    requires Run(c, s0, p) == Some(s)
    requires |s.replicas| >= 2 && s.now == 0 && s.row == RowDueAt(0) && Within(c.lockToCommit, 0, run) && next > run
    requires s.replicas[0] == Running(0, 0, s.row.timing)
    requires forall k | 1 <= k < |s.replicas| :: s.replicas[k] == Idle
    ensures Run(c, s0, q) == Some(u)
    ensures u == s.(now := run, row := RowDueAt(next), replicas := s.replicas[0 := Idle][1 := Scanned(run, 0)])
  {
    var a := s.(now := run);
    Extend(c, s0, p, s, Tick(run), a);
    var b := a.(replicas := s.replicas[1 := Scanned(run, 0)]);
    Extend(c, s0, p + [Tick(run)], a, Scan(1, 0), b);
    q, u := RecordAndCommit(c, s0, p + [Tick(run)] + [Scan(1, 0)], b, 0, next);
    assert u.replicas == s.replicas[0 := Idle][1 := Scanned(run, 0)];
  }

  /** How far two replicas get without the bound: the second scans just before the first commits, and locks late. */
  lemma TwoFires(c: Config) returns (p: seq<Action>, s: State, late: nat)
    requires c.Valid() && c.n >= 2 && !c.Bounded()
    ensures Run(c, DueAtZero(c), p) == Some(s)
    ensures |s.replicas| == c.n && s.replicas[0] == Idle && s.replicas[1] == Running(late, 0, s.row.timing)
    ensures forall k | 2 <= k < c.n :: s.replicas[k] == Idle
    ensures s.now == late && s.row == RowDueAt(late + c.ttl) && s.lock == Some(late + c.ttl)
    ensures s.fired == [Fire(0, 0, Some(0)), Fire(0, late, Some(late + c.ttl))]
  {
    var run := if c.lockToCommit.Some? then c.lockToCommit.value else c.ttl;
    var delay := if c.scanToLock.Some? then c.scanToLock.value else c.ttl;
    late := run + delay;
    var s0 := DueAtZero(c);
    p, s := ScanAndFire(c, s0, [], s0, 0);
    p, s := ScanBeforeCommit(c, s0, p, s, run, late + c.ttl);
    var t := s.(now := late);
    Extend(c, s0, p, s, Tick(delay), t);
    p, s := LockAndFire(c, s0, p + [Tick(delay)], t, 1);
  }

  /** Two replicas fire the occurrence both had scanned. */
  lemma TwoReplicasCanFireTwice(c: Config)
    requires c.Valid() && c.n >= 2 && !c.Bounded()
    ensures !NeverFiresTwice(c)
  {
    var p, s, late := TwoFires(c);
    assert s.fired[0].seen == s.fired[1].seen;
  }

  /** The occurrence the second replica re-read and ran too early is run again when it is due. */
  lemma TwoReplicasCanRunTwice(c: Config)
    requires c.Valid() && c.n >= 2 && !c.Bounded()
    ensures !NeverRunsTwice(c)
  {
    var s0 := DueAtZero(c);
    var p, s, late := TwoFires(c);
    var q, t := RecordAndCommit(c, s0, p, s, 1, late + c.ttl);
    var u := t.(now := late + c.ttl);
    Extend(c, s0, q, t, Tick(c.ttl), u);
    q, u := ScanAndFire(c, s0, q + [Tick(c.ttl)], u, 0);
    assert u.fired[1].ran == u.fired[2].ran;
  }

  /** One replica whose commit fails finds the row still due when the lock has expired. */
  lemma ARolledBackFireIsRepeated(c: Config)
    requires c.Valid() && c.n >= 1 && c.mayAbort
    ensures !NeverFiresTwice(c) && !NeverRunsTwice(c)
  {
    var s0 := DueAtZero(c);
    var p, s := ScanAndFire(c, s0, [], s0, 0);
    var t := s.(replicas := s.replicas[0 := Idle]);
    Extend(c, s0, p, s, Abort(0), t);
    p := p + [Abort(0)];
    s, t := t, t.(now := c.ttl);
    Extend(c, s0, p, s, Tick(c.ttl), t);
    p := p + [Tick(c.ttl)];
    p, t := ScanAndFire(c, s0, p, t, 0);
    assert t.fired == [Fire(0, 0, Some(0)), Fire(0, c.ttl, Some(0))];
    assert t.fired[0].seen == t.fired[1].seen && t.fired[0].ran == t.fired[1].ran;
  }

  /** An update between scan and re-read: the new occurrence is run at once, and again when it is due. */
  lemma AnUpdateInBetweenIsRunTwice(c: Config)
    requires c.Valid() && c.n >= 1 && c.updatesAnytime
    ensures !NeverRunsTwice(c)
  {
    var s0, row := DueAtZero(c), RowDueAt(c.ttl);
    var s := s0.(replicas := s0.replicas[0 := Scanned(0, 0)]);
    Extend(c, s0, [], s0, Scan(0, 0), s);
    var t := s.(row := row);
    Extend(c, s0, [] + [Scan(0, 0)], s, Update(row.timing, true, c.ttl), t);
    var p, u := LockAndFire(c, s0, [] + [Scan(0, 0)] + [Update(row.timing, true, c.ttl)], t, 0);
    p, u := RecordAndCommit(c, s0, p, u, 0, c.ttl);
    var v := u.(now := c.ttl);
    Extend(c, s0, p, u, Tick(c.ttl), v);
    p, v := ScanAndFire(c, s0, p + [Tick(c.ttl)], v, 0);
    assert v.fired == [Fire(0, 0, Some(c.ttl)), Fire(c.ttl, c.ttl, Some(c.ttl))];
    assert v.fired[0].ran == v.fired[1].ran;
  }

  /**
   The exact timing bound: occurrences are fired at most once, in every interleaving, exactly when
   commits do not fail and there is one replica or lock-to-commit plus scan-to-lock stays under the TTL.
   */
  lemma FiresAtMostOnceIffSafe(c: Config)
    requires c.Valid()
    ensures NeverFiresTwice(c) <==> c.Safe()
  {
    if c.Safe() {
      forall s, actions | Init(c, s) && Run(c, s, actions).Some?
        ensures AtMostOnce(Run(c, s, actions).value)
      {
        InitInv(c, s);
        InvRun(c, s, actions);
      }
    } else if c.mayAbort {
      ARolledBackFireIsRepeated(c);
    } else {
      TwoReplicasCanFireTwice(c);
    }
  }

  // ---------------------------------------------------------------------------------------------
  // The occurrence that is run
  // ---------------------------------------------------------------------------------------------

  /** Some lock was won so late before this scan that it is still held while the scan may lead to one. */
  ghost predicate Overtaken(c: Config, s: State, r: Replica)
    requires r.Scanned?
  {
    c.n > 1 && c.Bounded() && exists w | w in s.wins :: r.at <= w + c.lockToCommit.value
  }

  /** What a replica has scanned is still what the row says, or it will not win the lock. */
  ghost predicate StillSeen(c: Config, s: State, r: Replica) {
    && (r.Won? ==> s.row.nextRunAt == Some(r.seen))
    && (r.Scanned? ==> s.row.nextRunAt == Some(r.seen) || Overtaken(c, s, r))
  }

  ghost predicate RanInv(c: Config, s: State) {
    && (forall r | r in s.replicas :: StillSeen(c, s, r))
    && (forall f | f in s.fired :: f.ran == Some(f.seen))
  }

  lemma TryLockKeepsRanInv(c: Config, s: State, i: nat)
    requires c.Valid() && c.Safe() && Inv(c, s) && RanInv(c, s) && Apply(c, s, TryLock(i)).Some?
    ensures RanInv(c, Apply(c, s, TryLock(i)).value)
  {
    var t := Apply(c, s, TryLock(i)).value;
    var r := s.replicas[i];
    assert r in s.replicas && StillSeen(c, s, r) && ReplicaClock(c, s, r);
    if !LockHeld(s) && s.row.nextRunAt != Some(r.seen) {
      var w :| w in s.wins && r.at <= w + c.lockToCommit.value;
      LastWinIsLatest(c, s, w);
      assert false;
    }
    forall q | q in t.replicas
      ensures StillSeen(c, t, q)
    {
      var k :| 0 <= k < |t.replicas| && t.replicas[k] == q;
      assert s.replicas[k] in s.replicas && StillSeen(c, s, s.replicas[k]);
      if k != i && q.Scanned? && Overtaken(c, s, q) {
        var w :| w in s.wins && q.at <= w + c.lockToCommit.value;
        assert w in t.wins;
      }
    }
  }

  lemma CommitKeepsRanInv(c: Config, s: State, i: nat)
    requires c.Safe() && Inv(c, s) && RanInv(c, s) && Apply(c, s, Commit(i)).Some?
    ensures RanInv(c, Apply(c, s, Commit(i)).value)
  {
    var t := Apply(c, s, Commit(i)).value;
    var done := s.replicas[i];
    assert done in s.replicas && ReplicaClock(c, s, done);
    forall q | q in t.replicas
      ensures StillSeen(c, t, q)
    {
      var k :| 0 <= k < |t.replicas| && t.replicas[k] == q;
      assert s.replicas[k] in s.replicas && ReplicaClock(c, s, s.replicas[k]);
      assert k < i || k == i || i < k;
      if q.Scanned? {
        assert q.at <= done.wonAt + c.lockToCommit.value && done.wonAt in t.wins;
      }
    }
  }

  lemma OtherStepsKeepRanInv(c: Config, s: State, a: Action)
    requires c.Safe() && !c.updatesAnytime && Inv(c, s) && RanInv(c, s) && Apply(c, s, a).Some?
    requires !a.TryLock? && !a.Commit?
    ensures RanInv(c, Apply(c, s, a).value)
  {
    var t := Apply(c, s, a).value;
    forall q | q in t.replicas
      ensures StillSeen(c, t, q)
    {
      var k :| 0 <= k < |t.replicas| && t.replicas[k] == q;
      assert s.replicas[k] in s.replicas && StillSeen(c, s, s.replicas[k]);
    }
    if a.Refetch? {
      assert s.replicas[a.i] in s.replicas && StillSeen(c, s, s.replicas[a.i]);
    }
  }

  lemma {:induction false} RanInvRun(c: Config, s: State, actions: seq<Action>)
    requires c.Valid() && c.Safe() && !c.updatesAnytime && Inv(c, s) && RanInv(c, s) && Run(c, s, actions).Some?
    ensures Inv(c, Run(c, s, actions).value) && RanInv(c, Run(c, s, actions).value)
    decreases |actions|
  {
    if actions != [] {
      var a := actions[0];
      InvStep(c, s, a);
      if a.TryLock? {
        TryLockKeepsRanInv(c, s, a.i);
      } else if a.Commit? {
        CommitKeepsRanInv(c, s, a.i);
      } else {
        OtherStepsKeepRanInv(c, s, a);
      }
      RanInvRun(c, Apply(c, s, a).value, actions[1..]);
    }
  }

  /**
   The occurrence on the row that is run, which the code re-reads after the lock: it is run at most once, in every
   interleaving, exactly when moreover no update comes between a scan and its re-read.
   */
  lemma RunsAtMostOnceIff(c: Config)
    requires c.Valid()
    ensures NeverRunsTwice(c) <==> c.n == 0 || (c.Safe() && !c.updatesAnytime)
  {
    if c.n == 0 || (c.Safe() && !c.updatesAnytime) {
      forall s, actions | Init(c, s) && Run(c, s, actions).Some?
        ensures RanAtMostOnce(Run(c, s, actions).value)
      {
        InitInv(c, s);
        if c.n == 0 {
          NobodyFires(c, s, actions);
        } else {
          assert RanInv(c, s);
          RanInvRun(c, s, actions);
          RanAsSeen(c, Run(c, s, actions).value);
        }
      }
    } else if c.mayAbort {
      ARolledBackFireIsRepeated(c);
    } else if c.Safe() {
      AnUpdateInBetweenIsRunTwice(c);
    } else {
      TwoReplicasCanRunTwice(c);
    }
  }

  lemma RanAsSeen(c: Config, s: State)
    requires Inv(c, s) && RanInv(c, s)
    ensures RanAtMostOnce(s)
  {
    forall i, j | 0 <= i < j < |s.fired|
      ensures s.fired[i].ran != s.fired[j].ran
    {
      assert s.fired[i] in s.fired && s.fired[j] in s.fired;
    }
  }

  lemma {:induction false} NobodyFires(c: Config, s: State, actions: seq<Action>)
    requires c.n == 0 && s.replicas == [] && s.fired == [] && Run(c, s, actions).Some?
    ensures Run(c, s, actions).value.fired == []
    decreases |actions|
  {
    if actions != [] {
      NobodyFires(c, Apply(c, s, actions[0]).value, actions[1..]);
    }
  }
}
