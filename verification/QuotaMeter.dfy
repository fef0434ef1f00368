/**
 Quota metering over expiring Redis counters: `record_usage` and `assert_within_quota` of
 app/services/quota_service.py, and the check-then-run-then-increment protocol around a chat turn.
 Amounts are exact reals where the code keeps Redis floats.
 */
module QuotaMeter {
  import opened Prelude
  import opened QuotaPeriods
  import opened QuotaKeys
  import opened QuotaPolicies

  // ---------------------------------------------------------------------------------------------
  // Redis
  // ---------------------------------------------------------------------------------------------

  datatype Entry = Entry(value: real, expiry: Option<int>)

  type Store = map<string, Entry>

  predicate Live(store: Store, key: string, now: int) {
    key in store && (store[key].expiry.Some? ==> now < store[key].expiry.value)
  }

  /** GET, with an absent or expired key read as 0. */
  function ReadKey(store: Store, key: string, now: int): real {
    if Live(store, key, now) then store[key].value else 0.0
  }

  /** INCRBYFLOAT keeps a live key's expiry and starts an absent key without one. */
  function IncrByFloat(store: Store, key: string, delta: real, now: int): Store {
    if Live(store, key, now) then store[key := Entry(store[key].value + delta, store[key].expiry)]
    else store[key := Entry(delta, None)]
  }

  /** EXPIRE. */
  function Expire(store: Store, key: string, seconds: int, now: int): Store {
    if Live(store, key, now) then store[key := store[key].(expiry := Some(now + seconds * SECOND))] else store
  }

  // ---------------------------------------------------------------------------------------------
  // Recording
  // ---------------------------------------------------------------------------------------------

  function KeyOf(p: Policy, bucket: string): Key {
    Key(p.scope, p.value, p.model, p.metric, p.period, bucket)
  }

  /** What the unique constraint on quota_policies compares. */
  predicate SameIdentity(p: Policy, q: Policy) {
    p.scope == q.scope && p.value == q.value && p.model == q.model && p.metric == q.metric && p.period == q.period
  }

  predicate ValidPolicy(p: Policy) {
    p.model.Some? ==> ':' !in p.model.value && p.model.value != "any"
  }

  /** One call of record_usage that got as far as its increments. */
  datatype Usage = Usage(at: DateTime, policies: seq<Policy>, tokens: nat, cost: Option<real>)

  function Delta(m: Metric, u: Usage): real {
    match m
    case Requests => 1.0
    case Tokens => u.tokens as real
    case CostUsd => if u.cost.Some? then u.cost.value else 0.0
  }

  /** The increments for the first policies of the list; the loop stops where `_period_bucket` raises. */
  function RecordAll(store: Store, u: Usage, policies: seq<Policy>): Store
    decreases |policies|
  {
    if policies == [] then store
    else
      var p := policies[0];
      if Delta(p.metric, u) == 0.0 then RecordAll(store, u, policies[1..])
      else
        var bucket := PeriodBucket(p.period, p.window, u.at);
        if bucket.None? then store
        else
          var key := Print(KeyOf(p, bucket.value.lbl));
          var now := u.at.Instant();
          RecordAll(Expire(IncrByFloat(store, key, Delta(p.metric, u), now), key, bucket.value.ttl, now), u,
              policies[1..])
  }

  /** The counters after a history of calls, oldest first. */
  function Meter(log: seq<Usage>): Store {
    if log == [] then map[]
    else
      var n := |log| - 1;
      RecordAll(Meter(log[..n]), log[n], log[n].policies)
  }

  /** The counter that assert_within_quota compares with the limit. */
  function Used(store: Store, p: Policy, now: DateTime): real
    requires PeriodBucket(p.period, p.window, now).Some?
  {
    ReadKey(store, Print(KeyOf(p, PeriodBucket(p.period, p.window, now).value.lbl)), now.Instant())
  }

  /** What assert_within_quota compares: the counter, as it is kept, with the limit, as it is stored. */
  predicate AtLimit(p: Policy, used: real) {
    used >= p.limit as real
  }

  /** The limit as its schema describes it: tokens, requests, or a cost in cents. Costs are counted in dollars. */
  predicate AtDocumentedLimit(p: Policy, used: real) {
    (if p.metric == CostUsd then 100.0 * used else used) >= p.limit as real
  }

  /** The two agree except for costs between a hundredth of the stored limit and the limit. */
  lemma LimitsDisagreeIff(p: Policy, used: real)
    ensures AtLimit(p, used) != AtDocumentedLimit(p, used)
       <==> p.metric == CostUsd && p.limit as real <= 100.0 * used && used < p.limit as real
  {
    if p.metric == CostUsd && AtLimit(p, used) {
      assert used >= 0.0;
    }
  }

  /** A limit of 100 cents after one call that cost 50 dollars: the next call is let through. */
  lemma ACostLimitIsNotEnforced(p: Policy, u: Usage)
    requires ValidPolicy(p) && p.metric == CostUsd && p.limit == 100
    requires PeriodBucket(p.period, p.window, u.at).Some? && u.policies == [p] && u.cost == Some(50.0)
    ensures Used(Meter([u]), p, u.at) == 50.0
    ensures AtDocumentedLimit(p, Used(Meter([u]), p, u.at)) && !AtLimit(p, Used(Meter([u]), p, u.at))
  {
    CounterIsBucketSum({p}, [u], p, u.at);
    assert [u][..0] == [] && UsedInBucket([], p, u.at) == 0.0;
    InsideOwnPeriod(p.period, p.window, u.at);
  }

  datatype QuotaExceeded = QuotaExceeded(policy: Policy, used: real)

  /** The Redis side of QuotaService. */
  class Counters {
    var store: Store

    /** `incrbyfloat` then `expire`, for every effective policy with something to add. */
    method RecordUsage(u: Usage)
      modifies this
      ensures store == RecordAll(old(store), u, u.policies)
    {
      var now := u.at.Instant();
      for i := 0 to |u.policies|
        invariant RecordAll(store, u, u.policies[i..]) == RecordAll(old(store), u, u.policies)
      {
        var policy := u.policies[i];
        assert u.policies[i..][1..] == u.policies[i + 1..];
        var delta := Delta(policy.metric, u);
        if delta != 0.0 {
          var bucket := PeriodBucket(policy.period, policy.window, u.at);
          if bucket.None? {
            return;
          }
          var key := Print(KeyOf(policy, bucket.value.lbl));
          store := IncrByFloat(store, key, delta, now);
          store := Expire(store, key, bucket.value.ttl, now);
        }
      }
    }

    /** Raises for the first effective policy at or over its limit; anonymous callers are never checked. */
    method AssertWithinQuota(user: string, policies: seq<Policy>, now: DateTime)
        returns (r: Result<bool, QuotaExceeded>)
      requires forall p | p in policies :: PeriodBucket(p.period, p.window, now).Some?
      ensures r.Ok? <==> user == "" || forall p | p in policies :: !AtLimit(p, Used(store, p, now))
      ensures r.Err? ==> exists i | 0 <= i < |policies| ::
        && r.error.policy == policies[i]
        && r.error.used == Used(store, policies[i], now) && AtLimit(policies[i], r.error.used)
        && forall j | 0 <= j < i :: !AtLimit(policies[j], Used(store, policies[j], now))
    {
      if user == "" {
        return Ok(true);
      }
      for i := 0 to |policies|
        invariant forall j | 0 <= j < i :: !AtLimit(policies[j], Used(store, policies[j], now))
      {
        var current := Used(store, policies[i], now);
        if current >= policies[i].limit as real {
          assert AtLimit(policies[i], current);
          return Err(QuotaExceeded(policies[i], current));
        }
      }
      return Ok(true);
    }
  }

  // ---------------------------------------------------------------------------------------------
  // The counter is the sum of its bucket
  // ---------------------------------------------------------------------------------------------

  /** A fixed policy set, each with its own counter. */
  ghost predicate PolicySet(policies: set<Policy>) {
    && (forall p | p in policies :: ValidPolicy(p))
    && (forall p, q | p in policies && q in policies && SameIdentity(p, q) :: p == q)
  }

  ghost predicate NoRepeats(s: seq<Policy>) {
    forall i, j | 0 <= i < j < |s| :: s[i] != s[j]
  }

  /** A call whose effective policies come from the set, one per slot, and whose buckets all exist. */
  ghost predicate GoodUsage(policies: set<Policy>, u: Usage) {
    && NoRepeats(u.policies)
    && (forall p | p in u.policies :: p in policies)
    && (forall p | p in policies :: PeriodBucket(p.period, p.window, u.at).Some?)
  }

  /** Calls in time order. */
  ghost predicate GoodLog(policies: set<Policy>, log: seq<Usage>) {
    && (forall u | u in log :: GoodUsage(policies, u))
    && (forall i, j | 0 <= i < j < |log| :: log[i].at.Instant() <= log[j].at.Instant())
  }

  /** `now` is no earlier than the log, and its buckets exist. */
  ghost predicate After(policies: set<Policy>, log: seq<Usage>, now: DateTime) {
    && (forall p | p in policies :: PeriodBucket(p.period, p.window, now).Some?)
    && (forall u | u in log :: u.at.Instant() <= now.Instant())
  }

  ghost predicate SameBucket(p: Policy, a: DateTime, b: DateTime)
  {
    PeriodStart(p.period, p.window, a) <= b.Instant() < PeriodEnd(p.period, p.window, a)
  }

  /** A call is one request, its tokens, and its dollars where they are known. */
  function Spent(metric: Metric, u: Usage): real {
    if metric == Requests then 1.0
    else if metric == Tokens then u.tokens as real
    else match u.cost { case Some(dollars) => dollars case None => 0.0 }
  }

  /** What the recorded calls used of one policy in the day, month or window of `now`. */
  ghost function UsedInBucket(log: seq<Usage>, p: Policy, now: DateTime): real
  {
    if log == [] then 0.0
    else
      var n := |log| - 1;
      var u := log[n];
      UsedInBucket(log[..n], p, now) + (if p in u.policies && SameBucket(p, u.at, now) then Spent(p.metric, u) else 0.0)
  }

  function CounterKey(p: Policy, now: DateTime): string
    requires PeriodBucket(p.period, p.window, now).Some?
  {
    Print(KeyOf(p, PeriodBucket(p.period, p.window, now).value.lbl))
  }

  lemma SameKeyIff(policies: set<Policy>, p: Policy, q: Policy, a: DateTime, b: DateTime)
    requires PolicySet(policies) && p in policies && q in policies
    requires PeriodBucket(p.period, p.window, a).Some? && PeriodBucket(q.period, q.window, b).Some?
    ensures CounterKey(p, a) == CounterKey(q, b) <==> p == q && SameBucket(p, a, b)
  {
    LabelsHaveNoColon(p.period, p.window, a);
    LabelsHaveNoColon(q.period, q.window, b);
    if CounterKey(p, a) == CounterKey(q, b) {
      PrintInjective(KeyOf(p, PeriodBucket(p.period, p.window, a).value.lbl),
          KeyOf(q, PeriodBucket(q.period, q.window, b).value.lbl));
      assert SameIdentity(p, q);
    }
    if p == q {
      SameLabelIffSamePeriod(p.period, p.window, a, b);
    }
  }

  /** One increment followed by its EXPIRE. */
  function Increment(store: Store, u: Usage, q: Policy): Store
    requires PeriodBucket(q.period, q.window, u.at).Some?
  {
    var key, now := CounterKey(q, u.at), u.at.Instant();
    Expire(IncrByFloat(store, key, Delta(q.metric, u), now), key, PeriodBucket(q.period, q.window, u.at).value.ttl, now)
  }

  lemma ReadAfterIncrement(policies: set<Policy>, store: Store, u: Usage, q: Policy, p: Policy, now: DateTime)
    requires PolicySet(policies) && p in policies && q in policies
    requires PeriodBucket(q.period, q.window, u.at).Some? && PeriodBucket(p.period, p.window, now).Some?
    requires u.at.Instant() <= now.Instant()
    ensures p == q && SameBucket(p, u.at, now) ==>
              Used(Increment(store, u, q), p, now) == Used(store, p, u.at) + Delta(p.metric, u)
    ensures !(p == q && SameBucket(p, u.at, now)) ==> Used(Increment(store, u, q), p, now) == Used(store, p, now)
  {
    SameKeyIff(policies, q, p, u.at, now);
    TtlOutlivesPeriod(q.period, q.window, u.at);
  }

  /** One call adds its delta to each of its policies' current counters and touches nothing else. */
  lemma {:induction false} ReadAfterRecord(policies: set<Policy>, store: Store, u: Usage, ps: seq<Policy>, p: Policy,
      now: DateTime)
    requires PolicySet(policies) && p in policies
    requires GoodUsage(policies, u) && NoRepeats(ps) && forall q | q in ps :: q in policies
    requires PeriodBucket(p.period, p.window, now).Some? && u.at.Instant() <= now.Instant()
    ensures Used(RecordAll(store, u, ps), p, now) ==
              if p in ps && SameBucket(p, u.at, now) && Delta(p.metric, u) != 0.0
              then Used(store, p, u.at) + Delta(p.metric, u)
              else Used(store, p, now)
    decreases |ps|
  {
    if ps != [] {
      var q := ps[0];
      assert q in ps;
      if Delta(q.metric, u) == 0.0 {
        ReadAfterRecord(policies, store, u, ps[1..], p, now);
      } else {
        ReadAfterRecord(policies, Increment(store, u, q), u, ps[1..], p, now);
        ReadAfterIncrement(policies, store, u, q, p, now);
        InsideOwnPeriod(p.period, p.window, u.at);
        ReadAfterIncrement(policies, store, u, q, p, u.at);
      }
    }
  }

  /** An increment leaves its key with the time to live of the bucket, counted from the call. */
  lemma IncrementSetsExpiry(store: Store, u: Usage, q: Policy)
    requires PeriodBucket(q.period, q.window, u.at).Some?
    ensures var key, bucket := CounterKey(q, u.at), PeriodBucket(q.period, q.window, u.at).value;
      && key in Increment(store, u, q)
      && Increment(store, u, q)[key].expiry == Some(u.at.Instant() + bucket.ttl * 1_000_000)
      && forall k | k != key :: (k in Increment(store, u, q) <==> k in store)
                                && (k in store ==> Increment(store, u, q)[k] == store[k])
  {
  }

  ghost predicate AllExpire(store: Store) {
    forall key | key in store :: store[key].expiry.Some?
  }

  /** No counter is kept for good. */
  lemma {:induction false} CountersExpire(store: Store, u: Usage, ps: seq<Policy>)
    requires AllExpire(store)
    ensures AllExpire(RecordAll(store, u, ps))
    decreases |ps|
  {
    if ps != [] {
      var q := ps[0];
      if Delta(q.metric, u) == 0.0 {
        CountersExpire(store, u, ps[1..]);
      } else if PeriodBucket(q.period, q.window, u.at).Some? {
        CountersExpire(Increment(store, u, q), u, ps[1..]);
      }
    }
  }

  lemma SameBucketIsEquivalence(p: Policy, a: DateTime, b: DateTime, c: DateTime)
    requires PeriodBucket(p.period, p.window, a).Some? && PeriodBucket(p.period, p.window, b).Some?
             && PeriodBucket(p.period, p.window, c).Some?
    ensures SameBucket(p, a, a)
    ensures SameBucket(p, a, b) ==> SameBucket(p, b, a) && (SameBucket(p, c, a) <==> SameBucket(p, c, b))
    ensures a.Instant() <= b.Instant() <= c.Instant() && SameBucket(p, a, c) ==>
              SameBucket(p, a, b) && SameBucket(p, b, c)
  {
    InsideOwnPeriod(p.period, p.window, a);
    SameLabelIffSamePeriod(p.period, p.window, a, b);
    SameLabelIffSamePeriod(p.period, p.window, b, a);
    SameLabelIffSamePeriod(p.period, p.window, c, a);
    SameLabelIffSamePeriod(p.period, p.window, c, b);
    SameLabelIffSamePeriod(p.period, p.window, a, c);
    SameLabelIffSamePeriod(p.period, p.window, b, c);
  }

  lemma {:induction false} SumDependsOnBucketOnly(policies: set<Policy>, log: seq<Usage>, p: Policy, a: DateTime,
      b: DateTime)
    requires forall u | u in log :: GoodUsage(policies, u)
    requires p in policies && After(policies, [], a) && After(policies, [], b) && SameBucket(p, a, b)
    ensures UsedInBucket(log, p, a) == UsedInBucket(log, p, b)
  {
    if log != [] {
      var n := |log| - 1;
      assert log[n] in log;
      SumDependsOnBucketOnly(policies, log[..n], p, a, b);
      SameBucketIsEquivalence(p, a, b, log[n].at);
    }
  }

  lemma PrefixIsGood(policies: set<Policy>, log: seq<Usage>, now: DateTime)
    requires log != [] && GoodLog(policies, log) && After(policies, log, now)
    ensures var n := |log| - 1;
            && GoodUsage(policies, log[n])
            && log[n].at.Instant() <= now.Instant()
            && GoodLog(policies, log[..n])
            && After(policies, log[..n], log[n].at)
            && After(policies, log[..n], now)
  {
    var n := |log| - 1;
    assert log[n] in log;
    forall v | v in log[..n]
      ensures v in log && v.at.Instant() <= log[n].at.Instant()
    {
    }
  }

  /**
   The counter read for a policy is what was recorded for it in the current bucket: no live counter
   expires before its bucket ends, and none leaks into another bucket or another policy.
   */
  lemma {:induction false} CounterIsBucketSum(policies: set<Policy>, log: seq<Usage>, p: Policy, now: DateTime)
    requires PolicySet(policies) && GoodLog(policies, log) && p in policies && After(policies, log, now)
    ensures Used(Meter(log), p, now) == UsedInBucket(log, p, now)
    decreases |log|
  {
    if log != [] {
      var n := |log| - 1;
      PrefixIsGood(policies, log, now);
      CounterIsBucketSum(policies, log[..n], p, now);
      CounterIsBucketSum(policies, log[..n], p, log[n].at);
      LastCallCounted(policies, Meter(log[..n]), log, p, now);
    }
  }

  lemma LastCallCounted(policies: set<Policy>, store: Store, log: seq<Usage>, p: Policy, now: DateTime)
    requires PolicySet(policies) && p in policies && log != [] && GoodLog(policies, log) && After(policies, log, now)
    requires var n := |log| - 1;
             && PeriodBucket(p.period, p.window, log[n].at).Some?
             && Used(store, p, now) == UsedInBucket(log[..n], p, now)
             && Used(store, p, log[n].at) == UsedInBucket(log[..n], p, log[n].at)
    ensures Used(RecordAll(store, log[|log| - 1], log[|log| - 1].policies), p, now) == UsedInBucket(log, p, now)
  {
    var n := |log| - 1;
    PrefixIsGood(policies, log, now);
    ReadAfterRecord(policies, store, log[n], log[n].policies, p, now);
    if SameBucket(p, log[n].at, now) {
      SumDependsOnBucketOnly(policies, log[..n], p, log[n].at, now);
    }
  }
}
