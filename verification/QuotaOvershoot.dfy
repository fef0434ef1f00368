/**
 How far concurrent turns can overshoot a quota: every turn checks the counter, runs, and only then
 increments it (app/services/chat_service.py around app/services/quota_service.py).
 */
module QuotaOvershoot {
  import opened Prelude
  import opened QuotaPeriods
  import opened QuotaKeys
  import opened QuotaPolicies
  import opened QuotaMeter

  /** One policy of a fixed set; at most `turns` turns under it in flight, each using at most `most` of its metric. */
  datatype Config = Config(policies: set<Policy>, p: Policy, turns: nat, most: real) {
    ghost predicate Valid() {
      PolicySet(policies) && p in policies && turns >= 1 && most > 0.0
    }
  }

  datatype State = State(store: Store, log: seq<Usage>, inFlight: nat, now: DateTime)

  datatype Action =
    | Wait(until: DateTime)
    | Admit                     // assert_within_quota lets a turn of this policy start
    | Finish(usage: Usage)      // record_usage for a turn of this policy
    | Fail                      // a turn of this policy ends without recording
    | Elsewhere(usage: Usage)   // record_usage for a caller this policy is not effective for

  ghost function Apply(c: Config, s: State, a: Action): Option<State>
    requires c.Valid()
  {
    match a
    case Wait(t) =>
      if s.now.Instant() <= t.Instant() && After(c.policies, [], t) then Some(s.(now := t)) else None
    case Admit =>
      if PeriodBucket(c.p.period, c.p.window, s.now).Some?
         && !AtLimit(c.p, Used(s.store, c.p, s.now)) && s.inFlight < c.turns
      then Some(s.(inFlight := s.inFlight + 1)) else None
    case Finish(u) =>
      if s.inFlight > 0 && u.at == s.now && GoodUsage(c.policies, u) && c.p in u.policies
          && 0.0 <= Delta(c.p.metric, u) <= c.most
      then Some(Recorded(s, u).(inFlight := s.inFlight - 1)) else None
    case Fail =>
      if s.inFlight > 0 then Some(s.(inFlight := s.inFlight - 1)) else None
    case Elsewhere(u) =>
      if u.at == s.now && GoodUsage(c.policies, u) && c.p !in u.policies then Some(Recorded(s, u)) else None
  }

  function Recorded(s: State, u: Usage): State {
    s.(store := RecordAll(s.store, u, u.policies), log := s.log + [u])
  }

  ghost function Run(c: Config, s: State, actions: seq<Action>): Option<State>
    requires c.Valid()
    decreases |actions|
  {
    if actions == [] then Some(s)
    else
      var next := Apply(c, s, actions[0]);
      if next.None? then None else Run(c, next.value, actions[1..])
  }

  /** Empty counters, nobody in flight. */
  ghost predicate Init(c: Config, s: State) {
    s.store == map[] && s.log == [] && s.inFlight == 0 && After(c.policies, [], s.now)
  }

  ghost predicate Logged(c: Config, log: seq<Usage>, now: DateTime) {
    && c.Valid()
    && GoodLog(c.policies, log)
    && After(c.policies, log, now)
    && (forall u | u in log && c.p in u.policies :: Delta(c.p.metric, u) >= 0.0)
  }

  ghost predicate InBound(c: Config, log: seq<Usage>, inFlight: nat, now: DateTime) {
    UsedInBucket(log, c.p, now) + Times(inFlight, c.most) < c.p.limit as real + Times(c.turns, c.most)
  }

  ghost predicate Sound(c: Config, log: seq<Usage>, inFlight: nat, now: DateTime) {
    && Logged(c, log, now)
    && inFlight <= c.turns
    && (inFlight > 0 ==> c.p.limit > 0)
    && InBound(c, log, inFlight, now)
  }

  ghost predicate Inv(c: Config, s: State) {
    Sound(c, s.log, s.inFlight, s.now) && s.store == Meter(s.log)
  }

  /** Either the bucket is still the same or nothing was recorded in the new one. */
  lemma {:induction false} RolledOverBucketIsEmpty(c: Config, log: seq<Usage>, now: DateTime, later: DateTime)
    requires c.Valid() && (forall u | u in log :: GoodUsage(c.policies, u))
    requires After(c.policies, log, now) && After(c.policies, [], later) && now.Instant() <= later.Instant()
    ensures UsedInBucket(log, c.p, later) == if SameBucket(c.p, now, later) then UsedInBucket(log, c.p, now) else 0.0
  {
    if SameBucket(c.p, now, later) {
      SumDependsOnBucketOnly(c.policies, log, c.p, now, later);
    } else if log != [] {
      var n := |log| - 1;
      assert log[n] in log;
      forall v | v in log[..n]
        ensures v in log
      {
      }
      RolledOverBucketIsEmpty(c, log[..n], now, later);
      SameBucketIsEquivalence(c.p, log[n].at, now, later);
    }
  }

  /** n turns at x each. */
  ghost function Times(n: nat, x: real): real {
    if n == 0 then 0.0 else Times(n - 1, x) + x
  }

  lemma {:induction false} TimesGrows(m: nat, n: nat, x: real)
    requires m <= n && x > 0.0
    ensures 0.0 <= Times(m, x) <= Times(n, x)
    decreases n
  {
    if m < n {
      TimesGrows(m, n - 1, x);
    } else if m > 0 {
      TimesGrows(0, m - 1, x);
    }
  }

  lemma {:induction false} TimesWhole(n: nat, m: nat)
    ensures Times(n, m as real) == (n * m) as real
    decreases n
  {
    if n > 0 {
      TimesWhole(n - 1, m);
      assert n * m == (n - 1) * m + m;
      assert ((n - 1) * m) as real + m as real == ((n - 1) * m + m) as real;
    }
  }

  lemma RecordingAddsDelta(c: Config, log: seq<Usage>, now: DateTime, u: Usage)
    requires u.at == now
    ensures UsedInBucket(log + [u], c.p, now) ==
              UsedInBucket(log, c.p, now) + (if c.p in u.policies then Delta(c.p.metric, u) else 0.0)
  {
    assert (log + [u])[..|log|] == log;
    InsideOwnPeriod(c.p.period, c.p.window, now);
  }

  lemma LongerLogIsGood(policies: set<Policy>, log: seq<Usage>, now: DateTime, u: Usage)
    requires GoodLog(policies, log) && After(policies, log, now) && u.at == now && GoodUsage(policies, u)
    ensures GoodLog(policies, log + [u])
  {
    var longer := log + [u];
    forall i, j | 0 <= i < j < |longer|
      ensures longer[i].at.Instant() <= longer[j].at.Instant()
    {
      assert longer[i] in log;
    }
  }

  lemma RecordingKeepsTheLog(c: Config, log: seq<Usage>, now: DateTime, u: Usage)
    requires Logged(c, log, now) && u.at == now && GoodUsage(c.policies, u)
    requires c.p in u.policies ==> Delta(c.p.metric, u) >= 0.0
    ensures Logged(c, log + [u], now)
  {
    LongerLogIsGood(c.policies, log, now, u);
    assert forall v | v in log + [u] :: v in log || v == u;
  }

  /** What record_usage leaves is what the meter makes of the longer log. */
  lemma RecordingIsMetered(store: Store, log: seq<Usage>, u: Usage)
    requires store == Meter(log)
    ensures RecordAll(store, u, u.policies) == Meter(log + [u])
  {
    var longer := log + [u];
    assert longer[..|longer| - 1] == log && longer[|longer| - 1] == u;
  }

  lemma InvStep(c: Config, s: State, a: Action)
    requires Inv(c, s) && Apply(c, s, a).Some?
    ensures Inv(c, Apply(c, s, a).value)
  {
    var t := Apply(c, s, a).value;
    match a {
      case Wait(until) =>
        WaitKeepsInv(c, s, until);
        assert t == s.(now := until);
      case Admit =>
        AdmitKeepsInv(c, s);
        assert t == s.(inFlight := s.inFlight + 1);
      case Finish(u) =>
        FinishKeepsInv(c, s, u);
        assert t == Recorded(s, u).(inFlight := s.inFlight - 1);
      case Fail =>
        FailKeepsInv(c, s);
        assert t == s.(inFlight := s.inFlight - 1);
      case Elsewhere(u) =>
        ElsewhereKeepsInv(c, s, u);
        assert t == Recorded(s, u);
    }
  }

  lemma {:induction false} NothingIsNegative(c: Config, log: seq<Usage>, now: DateTime)
    requires forall u | u in log && c.p in u.policies :: Delta(c.p.metric, u) >= 0.0
    ensures UsedInBucket(log, c.p, now) >= 0.0
  {
    if log != [] {
      assert log[|log| - 1] in log;
      NothingIsNegative(c, log[..|log| - 1], now);
    }
  }

  lemma AdmitIsSound(c: Config, log: seq<Usage>, inFlight: nat, now: DateTime)
    requires Sound(c, log, inFlight, now) && inFlight < c.turns && UsedInBucket(log, c.p, now) < c.p.limit as real
    ensures Sound(c, log, inFlight + 1, now)
  {
    TimesGrows(inFlight + 1, c.turns, c.most);
    NothingIsNegative(c, log, now);
  }

  lemma CounterRead(c: Config, s: State)
    requires Inv(c, s)
    ensures Used(s.store, c.p, s.now) == UsedInBucket(s.log, c.p, s.now)
  {
    CounterIsBucketSum(c.policies, s.log, c.p, s.now);
  }

  lemma AdmitKeepsInv(c: Config, s: State)
    requires Inv(c, s) && s.inFlight < c.turns && Used(s.store, c.p, s.now) < c.p.limit as real
    ensures Inv(c, s.(inFlight := s.inFlight + 1))
  {
    CounterRead(c, s);
    AdmitIsSound(c, s.log, s.inFlight, s.now);
  }

  /** What a turn recorded takes the place of what it was allowed. */
  lemma FinishStaysInBound(c: Config, log: seq<Usage>, inFlight: nat, now: DateTime, u: Usage)
    requires InBound(c, log, inFlight, now) && inFlight > 0 && u.at == now
    requires c.p in u.policies && Delta(c.p.metric, u) <= c.most
    ensures InBound(c, log + [u], inFlight - 1, now)
  {
    RecordingAddsDelta(c, log, now, u);
    assert Times(inFlight, c.most) == Times(inFlight - 1, c.most) + c.most;
  }

  lemma FinishIsSound(c: Config, log: seq<Usage>, inFlight: nat, now: DateTime, u: Usage)
    requires Sound(c, log, inFlight, now) && inFlight > 0 && u.at == now && GoodUsage(c.policies, u)
    requires c.p in u.policies && 0.0 <= Delta(c.p.metric, u) <= c.most
    ensures Sound(c, log + [u], inFlight - 1, now)
  {
    RecordingKeepsTheLog(c, log, now, u);
    FinishStaysInBound(c, log, inFlight, now, u);
  }

  lemma SoundIsInv(c: Config, log: seq<Usage>, inFlight: nat, now: DateTime)
    requires Sound(c, log, inFlight, now)
    ensures Inv(c, State(Meter(log), log, inFlight, now))
  {
  }

  lemma RecordedState(s: State, u: Usage)
    requires s.store == Meter(s.log)
    ensures Recorded(s, u) == State(Meter(s.log + [u]), s.log + [u], s.inFlight, s.now)
  {
    RecordingIsMetered(s.store, s.log, u);
  }

  lemma FinishKeepsInv(c: Config, s: State, u: Usage)
    requires Inv(c, s) && s.inFlight > 0 && u.at == s.now && GoodUsage(c.policies, u)
    requires c.p in u.policies && 0.0 <= Delta(c.p.metric, u) <= c.most
    ensures Inv(c, Recorded(s, u).(inFlight := s.inFlight - 1))
  {
    FinishIsSound(c, s.log, s.inFlight, s.now, u);
    SoundIsInv(c, s.log + [u], s.inFlight - 1, s.now);
    RecordedState(s, u);
  }

  lemma FailIsSound(c: Config, log: seq<Usage>, inFlight: nat, now: DateTime)
    requires Sound(c, log, inFlight, now) && inFlight > 0
    ensures Sound(c, log, inFlight - 1, now)
  {
    assert Times(inFlight, c.most) == Times(inFlight - 1, c.most) + c.most;
  }

  lemma FailKeepsInv(c: Config, s: State)
    requires Inv(c, s) && s.inFlight > 0
    ensures Inv(c, s.(inFlight := s.inFlight - 1))
  {
    FailIsSound(c, s.log, s.inFlight, s.now);
  }

  lemma ElsewhereIsSound(c: Config, log: seq<Usage>, inFlight: nat, now: DateTime, u: Usage)
    requires Sound(c, log, inFlight, now) && u.at == now && GoodUsage(c.policies, u) && c.p !in u.policies
    ensures Sound(c, log + [u], inFlight, now)
  {
    RecordingKeepsTheLog(c, log, now, u);
    RecordingAddsDelta(c, log, now, u);
  }

  lemma ElsewhereKeepsInv(c: Config, s: State, u: Usage)
    requires Inv(c, s) && u.at == s.now && GoodUsage(c.policies, u) && c.p !in u.policies
    ensures Inv(c, Recorded(s, u))
  {
    ElsewhereIsSound(c, s.log, s.inFlight, s.now, u);
    SoundIsInv(c, s.log + [u], s.inFlight, s.now);
    RecordedState(s, u);
  }

  lemma WaitIsSound(c: Config, log: seq<Usage>, inFlight: nat, now: DateTime, later: DateTime)
    requires Sound(c, log, inFlight, now) && now.Instant() <= later.Instant() && After(c.policies, [], later)
    ensures Sound(c, log, inFlight, later)
  {
    RolledOverBucketIsEmpty(c, log, now, later);
    TimesGrows(inFlight, c.turns, c.most);
    TimesGrows(1, c.turns, c.most);
    assert Times(1, c.most) == Times(0, c.most) + c.most;
  }

  lemma WaitKeepsInv(c: Config, s: State, t: DateTime)
    requires Inv(c, s) && s.now.Instant() <= t.Instant() && After(c.policies, [], t)
    ensures Inv(c, s.(now := t))
  {
    WaitIsSound(c, s.log, s.inFlight, s.now, t);
  }

  lemma {:induction false} InvRun(c: Config, s: State, actions: seq<Action>)
    requires Inv(c, s) && Run(c, s, actions).Some?
    ensures Inv(c, Run(c, s, actions).value)
    decreases |actions|
  {
    if actions != [] {
      InvStep(c, s, actions[0]);
      InvRun(c, Apply(c, s, actions[0]).value, actions[1..]);
    }
  }

  /** In every reachable state: counter + what is in flight < limit + turns in flight allowed, across rollovers. */
  lemma OvershootBound(c: Config, s: State, actions: seq<Action>)
    requires c.Valid() && Init(c, s) && Run(c, s, actions).Some?
    ensures var t := Run(c, s, actions).value;
            && After(c.policies, t.log, t.now)
            && Used(t.store, c.p, t.now) + Times(t.inFlight, c.most) < c.p.limit as real + Times(c.turns, c.most)
  {
    InitInv(c, s);
    InvRun(c, s, actions);
    var t := Run(c, s, actions).value;
    CounterIsBucketSum(c.policies, t.log, c.p, t.now);
  }

  lemma InitInv(c: Config, s: State)
    requires c.Valid() && Init(c, s)
    ensures Inv(c, s)
  {
    TimesGrows(1, c.turns, c.most);
    assert Times(1, c.most) == Times(0, c.most) + c.most;
  }

  /** Metrics that count in whole numbers. */
  predicate Whole(m: Metric) {
    m == Requests || m == Tokens
  }

  lemma {:induction false} UseIsWhole(log: seq<Usage>, p: Policy, now: DateTime) returns (n: nat)
    requires Whole(p.metric)
    ensures UsedInBucket(log, p, now) == n as real
  {
    n := 0;
    if log != [] {
      n := UseIsWhole(log[..|log| - 1], p, now);
      if UsedInBucket(log, p, now) != UsedInBucket(log[..|log| - 1], p, now) {
        var more: nat := if p.metric == Requests then 1 else log[|log| - 1].tokens;
        assert n as real + more as real == (n + more) as real;
        n := n + more;
      }
    }
  }

  /** REQUESTS and TOKENS: counter + what turns in flight may use never exceeds L - 1 + k·M. */
  lemma WholeOvershootBound(c: Config, s: State, actions: seq<Action>, most: nat)
    requires c.Valid() && Whole(c.p.metric) && c.most == most as real && Init(c, s) && Run(c, s, actions).Some?
    ensures var t := Run(c, s, actions).value;
            && After(c.policies, t.log, t.now)
            && Used(t.store, c.p, t.now) + (t.inFlight * most) as real <= (c.p.limit - 1 + c.turns * most) as real
  {
    OvershootBound(c, s, actions);
    InitInv(c, s);
    InvRun(c, s, actions);
    var t := Run(c, s, actions).value;
    CounterIsBucketSum(c.policies, t.log, c.p, t.now);
    WholeInBound(c, t.log, t.inFlight, t.now, most);
  }

  lemma WholeInBound(c: Config, log: seq<Usage>, inFlight: nat, now: DateTime, most: nat)
    requires InBound(c, log, inFlight, now) && Whole(c.p.metric) && c.most == most as real
    ensures UsedInBucket(log, c.p, now) + (inFlight * most) as real <= (c.p.limit - 1 + c.turns * most) as real
  {
    var n := UseIsWhole(log, c.p, now);
    TimesWhole(c.turns, most);
    TimesWhole(inFlight, most);
    WholeNumbers(n, inFlight * most, c.p.limit, c.turns * most);
    assert n as real + (inFlight * most) as real == (n + inFlight * most) as real;
  }

  lemma WholeNumbers(n: nat, inFlight: nat, limit: nat, turns: nat)
    requires n as real + inFlight as real < limit as real + turns as real
    ensures n + inFlight < limit + turns
  {
  }

  /** REQUESTS: counter + in-flight turns never exceed limit - 1 + the turns allowed at once. */
  lemma RequestOvershootBound(c: Config, s: State, actions: seq<Action>)
    requires c.Valid() && c.p.metric == Requests && c.most == 1.0 && Init(c, s) && Run(c, s, actions).Some?
    ensures var t := Run(c, s, actions).value;
            && After(c.policies, t.log, t.now)
            && Used(t.store, c.p, t.now) + t.inFlight as real <= (c.p.limit - 1 + c.turns) as real
  {
    WholeOvershootBound(c, s, actions, 1);
  }

  // ---------------------------------------------------------------------------------------------
  // The bound is reached
  // ---------------------------------------------------------------------------------------------

  lemma {:induction false} Extend(c: Config, s: State, actions: seq<Action>, t: State, a: Action)
    requires c.Valid() && Run(c, s, actions) == Some(t) && Apply(c, t, a).Some?
    ensures Run(c, s, actions + [a]) == Apply(c, t, a)
    decreases |actions|
  {
    if actions == [] {
      assert actions + [a] == [a];
      assert Run(c, Apply(c, s, a).value, []) == Apply(c, s, a);
    } else {
      assert (actions + [a])[1..] == actions[1..] + [a];
      Extend(c, Apply(c, s, actions[0]).value, actions[1..], t, a);
    }
  }

  /** A reached state with `count` requests recorded now and `inFlight` turns running. */
  ghost predicate Reached(c: Config, s: State, actions: seq<Action>, count: nat, inFlight: nat)
    requires c.Valid()
  {
    var r := Run(c, s, actions);
    && r.Some?
    && Inv(c, r.value)
    && r.value.now == s.now
    && r.value.inFlight == inFlight
    && UsedInBucket(r.value.log, c.p, s.now) == count as real
  }

  lemma AdmitOne(c: Config, s: State, actions: seq<Action>, count: nat, inFlight: nat)
    requires c.Valid() && Reached(c, s, actions, count, inFlight) && count < c.p.limit && inFlight < c.turns
    ensures Reached(c, s, actions + [Admit], count, inFlight + 1)
  {
    var t := Run(c, s, actions).value;
    CounterIsBucketSum(c.policies, t.log, c.p, t.now);
    Extend(c, s, actions, t, Admit);
    InvStep(c, t, Admit);
  }

  lemma OneTurnOf(c: Config, t: State, count: nat, amount: nat) returns (u: Usage)
    requires Inv(c, t) && t.inFlight > 0 && UsedInBucket(t.log, c.p, t.now) == count as real
    requires c.p.metric == Tokens || (c.p.metric == Requests && amount == 1)
    requires amount as real <= c.most
    ensures u.at == t.now && GoodUsage(c.policies, u) && c.p in u.policies && Delta(c.p.metric, u) == amount as real
    ensures UsedInBucket(t.log + [u], c.p, t.now) == (count + amount) as real
  {
    u := Usage(t.now, [c.p], amount, None);
    RecordingAddsDelta(c, t.log, t.now, u);
    assert count as real + amount as real == (count + amount) as real;
  }

  lemma FinishApplies(c: Config, t: State, u: Usage)
    requires c.Valid() && t.inFlight > 0 && u.at == t.now && GoodUsage(c.policies, u)
    requires c.p in u.policies && 0.0 <= Delta(c.p.metric, u) <= c.most
    ensures Apply(c, t, Finish(u)) == Some(Recorded(t, u).(inFlight := t.inFlight - 1))
  {
  }

  lemma ReachedBy(c: Config, s: State, actions: seq<Action>, t: State, count: nat)
    requires c.Valid() && Run(c, s, actions) == Some(t) && Inv(c, t) && t.now == s.now
    requires UsedInBucket(t.log, c.p, t.now) == count as real
    ensures Reached(c, s, actions, count, t.inFlight)
  {
  }

  /** A turn in flight records this much. */
  lemma FinishOne(c: Config, s: State, actions: seq<Action>, count: nat, inFlight: nat, amount: nat)
    returns (more: seq<Action>)
    requires c.Valid() && Reached(c, s, actions, count, inFlight) && inFlight > 0
    requires c.p.metric == Tokens || (c.p.metric == Requests && amount == 1)
    requires amount as real <= c.most
    ensures Reached(c, s, more, count + amount, inFlight - 1)
  {
    var t := Run(c, s, actions).value;
    var u := OneTurnOf(c, t, count, amount);
    FinishApplies(c, t, u);
    FinishKeepsInv(c, t, u);
    Extend(c, s, actions, t, Finish(u));
    more := actions + [Finish(u)];
    ReachedBy(c, s, more, Recorded(t, u).(inFlight := t.inFlight - 1), count + amount);
  }

  /** A run that leaves this much recorded, short of the limit, and nobody in flight. */
  lemma BelowLimit(c: Config, s: State, below: nat) returns (actions: seq<Action>)
    requires c.Valid() && Init(c, s) && Whole(c.p.metric) && below < c.p.limit && c.most >= 1.0
    ensures Reached(c, s, actions, below, 0)
  {
    actions := [];
    InitInv(c, s);
    var count := 0;
    while count < below
      invariant count <= below && Reached(c, s, actions, count, 0)
    {
      AdmitOne(c, s, actions, count, 0);
      actions := FinishOne(c, s, actions + [Admit], count, 1, 1);
      count := count + 1;
    }
  }

  /** Every free turn is admitted before any finishes. */
  lemma {:induction false} AdmitAll(c: Config, s: State, start: seq<Action>, count: nat, inFlight: nat)
    returns (actions: seq<Action>)
    requires c.Valid() && Reached(c, s, start, count, inFlight) && count < c.p.limit && inFlight <= c.turns
    ensures Reached(c, s, actions, count, c.turns)
    decreases c.turns - inFlight
  {
    actions := start;
    if inFlight < c.turns {
      AdmitOne(c, s, start, count, inFlight);
      actions := AdmitAll(c, s, start + [Admit], count, inFlight + 1);
    }
  }

  /** count + n·amount. */
  function Total(count: nat, n: nat, amount: nat): nat
    decreases n
  {
    if n == 0 then count else Total(count + amount, n - 1, amount)
  }

  lemma {:induction false} TotalIs(count: nat, n: nat, amount: nat)
    ensures Total(count, n, amount) == count + n * amount
    decreases n
  {
    if n > 0 {
      TotalIs(count + amount, n - 1, amount);
      assert amount + (n - 1) * amount == n * amount;
    }
  }

  /** Every turn in flight records this much. */
  lemma {:induction false} FinishAll(c: Config, s: State, start: seq<Action>, count: nat, inFlight: nat, amount: nat,
                                     total: nat)
    returns (actions: seq<Action>)
    requires c.Valid() && Reached(c, s, start, count, inFlight) && amount as real <= c.most
    requires c.p.metric == Tokens || (c.p.metric == Requests && amount == 1)
    requires total == Total(count, inFlight, amount)
    ensures Reached(c, s, actions, total, 0)
    decreases inFlight
  {
    actions := start;
    if inFlight > 0 {
      var next := FinishOne(c, s, start, count, inFlight, amount);
      actions := FinishAll(c, s, next, count + amount, inFlight - 1, amount, total);
    }
  }

  lemma OvershootingRun(c: Config, s: State, start: seq<Action>, below: nat, most: nat) returns (actions: seq<Action>)
    requires c.Valid() && Reached(c, s, start, below, 0) && below < c.p.limit && most as real <= c.most
    requires c.p.metric == Tokens || (c.p.metric == Requests && most == 1)
    ensures Reached(c, s, actions, Total(below, c.turns, most), 0)
  {
    actions := AdmitAll(c, s, start, below, 0);
    actions := FinishAll(c, s, actions, below, c.turns, most, Total(below, c.turns, most));
  }

  lemma AtLeastOne(c: Config, most: nat)
    requires c.Valid() && c.most == most as real
    ensures c.most >= 1.0
  {
  }

  lemma OvershootReaches(c: Config, s: State, below: nat, most: nat, total: nat) returns (actions: seq<Action>)
    requires c.Valid() && Init(c, s) && below < c.p.limit && c.most == most as real
    requires c.p.metric == Tokens || (c.p.metric == Requests && most == 1)
    requires total == Total(below, c.turns, most)
    ensures Reached(c, s, actions, total, 0)
  {
    AtLeastOne(c, most);
    var start := BelowLimit(c, s, below);
    actions := OvershootingRun(c, s, start, below, most);
  }

  /** Some run leaves the counter of a REQUESTS or TOKENS policy at exactly L - 1 + k·M: the bound is sharp. */
  lemma OvershootIsReached(c: Config, s: State, most: nat) returns (actions: seq<Action>)
    requires c.Valid() && Init(c, s) && c.p.limit >= 1 && c.most == most as real
    requires c.p.metric == Tokens || (c.p.metric == Requests && most == 1)
    ensures Run(c, s, actions).Some?
    ensures var t := Run(c, s, actions).value;
            && After(c.policies, t.log, t.now)
            && Used(t.store, c.p, t.now) == (c.p.limit - 1 + c.turns * most) as real
  {
    TotalIs(c.p.limit - 1, c.turns, most);
    actions := OvershootReaches(c, s, c.p.limit - 1, most, Total(c.p.limit - 1, c.turns, most));
    ReachedCounter(c, s, actions, Total(c.p.limit - 1, c.turns, most));
  }

  lemma ReachedCounter(c: Config, s: State, actions: seq<Action>, count: nat)
    requires c.Valid() && Reached(c, s, actions, count, 0)
    ensures Run(c, s, actions).Some?
    ensures var t := Run(c, s, actions).value;
      After(c.policies, t.log, t.now) && Used(t.store, c.p, t.now) == count as real
  {
    var t := Run(c, s, actions).value;
    CounterIsBucketSum(c.policies, t.log, c.p, t.now);
  }
}
