/** Token counts of an event: `_sum_metric_field` and `_extract_token_usage` in app/services/chat_service.py. */
module TokenMetrics {
  import opened Prelude

  /** An element of a metric list: None, a count, or something sum() raises on. */
  datatype Item = Absent | Count(n: int) | Junk

  datatype MetricValue = NoValue | Scalar(n: int) | PerMessage(items: seq<Item>) | Unreadable

  datatype MetricKey = InputTokens | PromptTokens | OutputTokens | CompletionTokens

  type Metrics = map<MetricKey, MetricValue>

  function SumItems(items: seq<Item>): Option<int> {
    if items == [] then Some(0)
    else
      var rest := SumItems(items[1..]);
      match items[0]
      case Absent => rest
      case Count(n) => if rest.None? then None else Some(n + rest.value)
      case Junk => None
  }

  function Readable(v: MetricValue): Option<int> {
    match v
    case Scalar(n) => Some(n)
    case PerMessage(items) => SumItems(items)
    case _ => None
  }

  /** The first key whose value can be read; 0 when none can. */
  function SumMetricField(metrics: Metrics, keys: seq<MetricKey>): int {
    if keys == [] then 0
    else
      var value := if keys[0] in metrics then Readable(metrics[keys[0]]) else None;
      if value.Some? then value.value else SumMetricField(metrics, keys[1..])
  }

  /** A list sums to the total of its counts. */
  lemma {:induction false} SumGrowsByCount(items: seq<Item>, item: Item)
    requires Junk !in items
    ensures SumItems([]) == Some(0) && SumItems(items).Some?
    ensures item.Count? ==> SumItems(items + [item]) == Some(SumItems(items).value + item.n)
    ensures item == Absent ==> SumItems(items + [item]) == SumItems(items)
  {
    if items == [] {
      assert [item][1..] == [];
    } else {
      SumGrowsByCount(items[1..], item);
      assert (items + [item])[1..] == items[1..] + [item];
    }
  }

  /** sum() over a metric list skips None and raises exactly on what is no number. */
  lemma {:induction false} SumRaisesIff(items: seq<Item>)
    ensures SumItems(items).None? <==> Junk in items
    decreases |items|
  {
    if items != [] {
      SumRaisesIff(items[1..]);
      assert items == [items[0]] + items[1..];
    }
  }

  predicate CanRead(metrics: Metrics, key: MetricKey) {
    key in metrics && Readable(metrics[key]).Some?
  }

  /** The first readable key decides, unreadable ones before it are passed over, and nothing readable counts as 0. */
  lemma {:induction false} FirstReadableKeyCounts(metrics: Metrics, keys: seq<MetricKey>, i: nat)
    requires i <= |keys| && forall j | 0 <= j < i :: !CanRead(metrics, keys[j])
    ensures i == |keys| ==> SumMetricField(metrics, keys) == 0
    ensures i < |keys| && CanRead(metrics, keys[i]) ==>
      SumMetricField(metrics, keys) == Readable(metrics[keys[i]]).value
    decreases i
  {
    if i > 0 {
      assert !CanRead(metrics, keys[0]);
      FirstReadableKeyCounts(metrics, keys[1..], i - 1);
    }
  }

  datatype Tokens = Tokens(input: int, output: int)

  function ExtractTokenUsage(metrics: Option<Metrics>): Tokens {
    if metrics.None? then Tokens(0, 0)
    else Tokens(SumMetricField(metrics.value, [InputTokens, PromptTokens]),
                SumMetricField(metrics.value, [OutputTokens, CompletionTokens]))
  }

  /** What a metric value says, if it says anything. */
  function Reading(metrics: Metrics, key: MetricKey): (count: Option<int>)
    ensures key !in metrics ==> count == None
    ensures key in metrics && metrics[key].Scalar? ==> count == Some(metrics[key].n)
    ensures key in metrics && metrics[key].PerMessage? ==> count == SumItems(metrics[key].items)
    ensures key in metrics && metrics[key] in {NoValue, Unreadable} ==> count == None
  {
    if CanRead(metrics, key) then Readable(metrics[key]) else None
  }

  /** Input is read from input_tokens or else prompt_tokens, output from output_tokens or else completion_tokens. */
  lemma UsageKeys(metrics: Metrics)
    ensures var r := k => Reading(metrics, k);
      ExtractTokenUsage(Some(metrics))
      == Tokens(if r(InputTokens).Some? then r(InputTokens).value
                else if r(PromptTokens).Some? then r(PromptTokens).value else 0,
                if r(OutputTokens).Some? then r(OutputTokens).value
                else if r(CompletionTokens).Some? then r(CompletionTokens).value else 0)
    ensures ExtractTokenUsage(None) == Tokens(0, 0)
  {
    var input, output := [InputTokens, PromptTokens], [OutputTokens, CompletionTokens];
    FirstReadableKeyCounts(metrics, input, if CanRead(metrics, input[0]) then 0 else 1);
    FirstReadableKeyCounts(metrics, output, if CanRead(metrics, output[0]) then 0 else 1);
    if !CanRead(metrics, input[0]) && !CanRead(metrics, input[1]) {
      FirstReadableKeyCounts(metrics, input, 2);
    }
    if !CanRead(metrics, output[0]) && !CanRead(metrics, output[1]) {
      FirstReadableKeyCounts(metrics, output, 2);
    }
  }
}
