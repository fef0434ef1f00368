/** `_policy_key` of app/services/quota_service.py, with the parser that shows it loses nothing. */
module QuotaKeys {
  import opened Prelude
  import opened QuotaPeriods

  datatype Scope = Global | Group | User

  datatype Metric = Requests | Tokens | CostUsd

  function ScopeText(s: Scope): string {
    match s
    case Global => "GLOBAL"
    case Group => "GROUP"
    case User => "USER"
  }

  function MetricText(m: Metric): string {
    match m
    case Requests => "REQUESTS"
    case Tokens => "TOKENS"
    case CostUsd => "COST_USD"
  }

  function PeriodText(p: Period): string {
    match p
    case Daily => "DAILY"
    case Monthly => "MONTHLY"
    case FixedWindow => "FIXED_WINDOW"
  }

  /** What a counter is keyed by. The scope value is a user id or group name: any text, colons included. */
  datatype Key = Key(scope: Scope, value: string, model: Option<string>, metric: Metric, period: Period, bucket: string)
  {
    /** A model id prints as a UUID, a bucket as one of the labels of PeriodBucket. */
    predicate Valid() {
      && (model.Some? ==> ':' !in model.value && model.value != "any")
      && ':' !in bucket
    }
  }

  const PREFIX := "quota:usage:"

  /** The f-string: the fields, a colon between each two. */
  function Print(k: Key): string {
    var model := if k.model.Some? then k.model.value else "any";
    PREFIX + ScopeText(k.scope) + ":" + JoinFields(k.value,
        [model, MetricText(k.metric), PeriodText(k.period), k.bucket])
  }

  function JoinFields(s: string, fields: seq<string>): string {
    if fields == [] then s else JoinFields(s, fields[..|fields| - 1]) + ":" + fields[|fields| - 1]
  }

  /** Text up to the first colon, and the text after it. */
  function SplitFirst(s: string): Option<(string, string)> {
    if s == "" then None
    else if s[0] == ':' then Some(("", s[1..]))
    else
      var rest := SplitFirst(s[1..]);
      if rest.None? then None else Some(([s[0]] + rest.value.0, rest.value.1))
  }

  /** Text up to the last colon, and the text after it. */
  function SplitLast(s: string): Option<(string, string)> {
    if s == "" then None
    else
      var n := |s| - 1;
      if s[n] == ':' then Some((s[..n], ""))
      else
        var rest := SplitLast(s[..n]);
        if rest.None? then None else Some((rest.value.0, rest.value.1 + [s[n]]))
  }

  lemma {:induction false} SplitFirstOf(a: string, b: string)
    requires ':' !in a
    ensures SplitFirst(a + ":" + b) == Some((a, b))
  {
    var s := a + ":" + b;
    if a == "" {
      assert s[1..] == b;
    } else {
      assert s[1..] == a[1..] + ":" + b;
      SplitFirstOf(a[1..], b);
      assert [a[0]] + a[1..] == a;
    }
  }

  lemma {:induction false} SplitLastOf(a: string, b: string)
    requires ':' !in b
    ensures SplitLast(a + ":" + b) == Some((a, b))
  {
    var s := a + ":" + b;
    if b == "" {
      assert s[..|s| - 1] == a;
    } else {
      var m := |b| - 1;
      assert s[..|s| - 1] == a + ":" + b[..m];
      SplitLastOf(a, b[..m]);
      assert b[..m] + [b[m]] == b;
    }
  }

  function ParseScope(s: string): Option<Scope> {
    if s == "GLOBAL" then Some(Global) else if s == "GROUP" then Some(Group) else if s == "USER" then Some(User)
        else None
  }

  function ParseMetric(s: string): Option<Metric> {
    if s == "REQUESTS" then Some(Requests) else if s == "TOKENS" then Some(Tokens)
    else if s == "COST_USD" then Some(CostUsd) else None
  }

  function ParsePeriod(s: string): Option<Period> {
    if s == "DAILY" then Some(Daily) else if s == "MONTHLY" then Some(Monthly)
    else if s == "FIXED_WINDOW" then Some(FixedWindow) else None
  }

  /** Strips the scope from the left and four fields from the right; the scope value is what is left. */
  function Parse(s: string): Option<Key> {
    if |s| < |PREFIX| || s[..|PREFIX|] != PREFIX then None
    else
      var left := SplitFirst(s[|PREFIX|..]);
      if left.None? then None
      else
        var scope, right := ParseScope(left.value.0), SplitFields(left.value.1, 4);
        if scope.None? || right.None? then None
        else
          var fields := right.value.1;
          var metric, period := ParseMetric(fields[1]), ParsePeriod(fields[2]);
          if metric.None? || period.None? then None
          else Some(Key(scope.value, right.value.0, if fields[0] == "any" then None else Some(fields[0]),
                        metric.value, period.value, fields[3]))
  }

  /** The last n colon-separated fields, and the text before them. */
  function SplitFields(s: string, n: nat): (r: Option<(string, seq<string>)>)
    ensures r.Some? ==> |r.value.1| == n
    decreases n
  {
    if n == 0 then Some((s, []))
    else
      var last := SplitLast(s);
      if last.None? then None
      else
        var rest := SplitFields(last.value.0, n - 1);
        if rest.None? then None else Some((rest.value.0, rest.value.1 + [last.value.1]))
  }

  lemma {:induction false} SplitFieldsOf(s: string, fields: seq<string>)
    requires forall f | f in fields :: ':' !in f
    ensures SplitFields(JoinFields(s, fields), |fields|) == Some((s, fields))
  {
    if fields != [] {
      var m := |fields| - 1;
      SplitLastOf(JoinFields(s, fields[..m]), fields[m]);
      SplitFieldsOf(s, fields[..m]);
      assert fields[..m] + [fields[m]] == fields;
    }
  }

  lemma FieldsHaveNoColon(k: Key)
    ensures ':' !in ScopeText(k.scope) && ':' !in MetricText(k.metric) && ':' !in PeriodText(k.period)
    ensures ParseScope(ScopeText(k.scope)) == Some(k.scope)
    ensures ParseMetric(MetricText(k.metric)) == Some(k.metric)
    ensures ParsePeriod(PeriodText(k.period)) == Some(k.period)
  {
    assert ParseScope("GROUP") == Some(Group) && ParseScope("USER") == Some(User);
    assert ParseMetric("TOKENS") == Some(Tokens) && ParseMetric("COST_USD") == Some(CostUsd);
    assert ParsePeriod("MONTHLY") == Some(Monthly) && ParsePeriod("FIXED_WINDOW") == Some(FixedWindow);
  }

  /** The four fields after the scope value. */
  function LastFields(k: Key): seq<string> {
    [if k.model.Some? then k.model.value else "any", MetricText(k.metric), PeriodText(k.period), k.bucket]
  }

  lemma PartsOf(k: Key, rest: string)
    requires k.Valid() && rest == JoinFields(k.value, LastFields(k))
    ensures |Print(k)| >= |PREFIX| && Print(k)[..|PREFIX|] == PREFIX
    ensures SplitFirst(Print(k)[|PREFIX|..]) == Some((ScopeText(k.scope), rest))
  {
    FieldsHaveNoColon(k);
    assert Print(k) == PREFIX + (ScopeText(k.scope) + ":" + rest);
    SplitFirstOf(ScopeText(k.scope), rest);
  }

  /** The parser inverts the printer, even where the scope value holds colons. */
  lemma ParsePrint(k: Key)
    requires k.Valid()
    ensures Parse(Print(k)) == Some(k)
  {
    FieldsHaveNoColon(k);
    PartsOf(k, JoinFields(k.value, LastFields(k)));
    assert forall f | f in LastFields(k) :: ':' !in f;
    SplitFieldsOf(k.value, LastFields(k));
  }

  /** A key as Redis holds it: the values of the three enums, and "any" for a policy that names no model. */
  lemma KeyInRedis(k: Key)
    ensures var scope := if k.scope == User then "USER" else if k.scope == Group then "GROUP" else "GLOBAL";
      var metric := if k.metric == Tokens then "TOKENS" else if k.metric == CostUsd then "COST_USD" else "REQUESTS";
      var period := if k.period == Daily then "DAILY" else if k.period == Monthly then "MONTHLY" else "FIXED_WINDOW";
      var model := match k.model { case Some(id) => id case None => "any" };
      Print(k) == "quota:usage:" + scope + ":" + k.value + ":" + model + ":" + metric + ":" + period + ":" + k.bucket
  {
    var model := match k.model { case Some(id) => id case None => "any" };
    var fields := [model, MetricText(k.metric), PeriodText(k.period), k.bucket];
    JoinFour(k.value, fields[0], fields[1], fields[2], fields[3]);
    assert PREFIX + ScopeText(k.scope) + ":" + (k.value + ":" + fields[0] + ":" + fields[1] + ":" + fields[2] + ":"
                                                + fields[3])
      == PREFIX + ScopeText(k.scope) + ":" + k.value + ":" + fields[0] + ":" + fields[1] + ":" + fields[2] + ":"
         + fields[3];
  }

  lemma JoinSnoc(s: string, fields: seq<string>, last: string)
    ensures JoinFields(s, fields + [last]) == JoinFields(s, fields) + ":" + last
  {
    assert (fields + [last])[..|fields|] == fields;
  }

  lemma JoinFour(s: string, a: string, b: string, c: string, d: string)
    ensures JoinFields(s, [a, b, c, d]) == s + ":" + a + ":" + b + ":" + c + ":" + d
  {
    JoinSnoc(s, [], a);
    JoinSnoc(s, [a], b);
    JoinSnoc(s, [a, b], c);
    JoinSnoc(s, [a, b, c], d);
    assert [] + [a] == [a] && [a] + [b] == [a, b] && [a, b] + [c] == [a, b, c];
    assert [a, b, c] + [d] == [a, b, c, d];
  }

  /** No two policies, and no two buckets of one policy, share a counter. */
  lemma PrintInjective(k: Key, l: Key)
    requires k.Valid() && l.Valid() && Print(k) == Print(l)
    ensures k == l
  {
    ParsePrint(k);
    ParsePrint(l);
  }

  /** Bucket labels satisfy what Key.Valid asks of them. */
  lemma LabelsHaveNoColon(period: Period, window: Option<nat>, now: DateTime)
    requires PeriodBucket(period, window, now).Some?
    ensures ':' !in PeriodBucket(period, window, now).value.lbl
  {
  }
}
