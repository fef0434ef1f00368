/** UI actions proposed during a run and their aggregated plan: app/uiaction/service.py, app/agno_runtime/engine.py. */
module UiPlan {
  import opened Prelude
  import opened Sorting

  /** One of the supported action types; ActionType(text.upper()) is a parameter of propose_ui_action. */
  type ActionType = nat

  datatype UIAction = UIAction(actionType: ActionType, target: string, value: Option<string>, reason: Option<string>,
                               businessMeaning: Option<string>, confidence: real, executionOrder: int)

  datatype Answer = Added | UnknownType | InvalidConfidence

  const BY_EXECUTION_ORDER: UIAction -> int := (a: UIAction) => a.executionOrder

  /** Every action carries its place in its own collector. */
  ghost predicate Numbered(actions: seq<UIAction>) {
    forall i | 0 <= i < |actions| :: actions[i].executionOrder == i
  }

  class UIActionPlanCollector {
    var actions: seq<UIAction>

    constructor ()
      ensures actions == []
    {
      actions := [];
    }

    /** propose_ui_action: an action joins the plan only if its type is known and its confidence valid. */
    method ProposeUiAction(kind: string -> Option<ActionType>, actionType: string, target: string,
                           value: Option<string>,
                           reason: Option<string>, businessMeaning: Option<string>, confidence: real)
      returns (answer: Answer)
      requires Numbered(actions)
      modifies this
      ensures Numbered(actions)
      ensures answer == Added <==> kind(actionType).Some? && 0.0 <= confidence <= 1.0
      ensures answer == Added ==> actions == old(actions) + [UIAction(kind(actionType).value, target, value, reason,
                                                                       businessMeaning, confidence, |old(actions)|)]
      ensures answer != Added ==> actions == old(actions)
    {
      var normalized := kind(actionType);
      if normalized.None? {
        return UnknownType;
      }
      if !(0.0 <= confidence <= 1.0) {
        return InvalidConfidence;
      }
      var action := UIAction(normalized.value, target, value, reason, businessMeaning, confidence, |actions|);
      actions := actions + [action];
      answer := Added;
    }
  }

  function Concat<T>(lists: seq<seq<T>>, n: nat): seq<T>
    requires n <= |lists|
  {
    if n == 0 then [] else Concat(lists, n - 1) + lists[n - 1]
  }

  /** One call an agent makes of propose_ui_action. */
  datatype Proposal = Proposal(actionType: string, target: string, value: Option<string>, reason: Option<string>,
                               businessMeaning: Option<string>, confidence: real)

  /** What a fresh collector holds after these calls. */
  function Accepted(kind: string -> Option<ActionType>, proposals: seq<Proposal>): seq<UIAction> {
    if proposals == [] then []
    else
      var before, p := Accepted(kind, proposals[..|proposals| - 1]), proposals[|proposals| - 1];
      if kind(p.actionType).Some? && 0.0 <= p.confidence <= 1.0 then
        before + [UIAction(kind(p.actionType).value, p.target, p.value, p.reason, p.businessMeaning, p.confidence,
            |before|)]
      else before
  }

  lemma {:induction false} AcceptedAreNumbered(kind: string -> Option<ActionType>, proposals: seq<Proposal>)
    ensures Numbered(Accepted(kind, proposals)) && |Accepted(kind, proposals)| <= |proposals|
    decreases |proposals|
  {
    if proposals != [] {
      AcceptedAreNumbered(kind, proposals[..|proposals| - 1]);
    }
  }

  /** A proposal adds its action behind those accepted before it, numbered by them, or adds nothing. */
  lemma OneMoreProposal(kind: string -> Option<ActionType>, proposals: seq<Proposal>, p: Proposal)
    ensures Accepted(kind, []) == []
    ensures var before := Accepted(kind, proposals);
      Accepted(kind, proposals + [p])
      == if kind(p.actionType) == None || p.confidence < 0.0 || p.confidence > 1.0 then before
         else before + [UIAction(kind(p.actionType).value, p.target, p.value, p.reason, p.businessMeaning, p.confidence,
                                 |before|)]
  {
    assert (proposals + [p])[..|proposals|] == proposals;
  }

  method ProposeAll(collector: UIActionPlanCollector, kind: string -> Option<ActionType>, proposals: seq<Proposal>)
    requires collector.actions == []
    modifies collector
    ensures collector.actions == Accepted(kind, proposals)
  {
    for i := 0 to |proposals|
      invariant collector.actions == Accepted(kind, proposals[..i]) && Numbered(collector.actions)
    {
      var p := proposals[i];
      assert proposals[..i + 1][..i] == proposals[..i];
      var _ := collector.ProposeUiAction(kind, p.actionType, p.target, p.value, p.reason, p.businessMeaning,
          p.confidence);
    }
    assert proposals[..|proposals|] == proposals;
  }

  /** What each agent of a run contributes. */
  function Lists(kind: string -> Option<ActionType>, proposals: seq<seq<Proposal>>): seq<seq<UIAction>> {
    seq(|proposals|, i requires 0 <= i < |proposals| => Accepted(kind, proposals[i]))
  }

  class Engine {
    var collectors: seq<UIActionPlanCollector>
    var lastPlan: Option<seq<UIAction>>

    constructor ()
      ensures collectors == [] && lastPlan == None
    {
      collectors, lastPlan := [], None;
    }

    function Proposed(): seq<seq<UIAction>>
      reads this, collectors
    {
      seq(|collectors|, i requires 0 <= i < |collectors| reads this, collectors => collectors[i].actions)
    }

    method ResetCollectors()
      modifies this
      ensures collectors == [] && lastPlan == None
    {
      collectors, lastPlan := [], None;
    }

    /** _aggregate_ui_action_plan. */
    method AggregatePlan() returns (plan: seq<UIAction>)
      ensures plan == Sort(Concat(Proposed(), |collectors|), BY_EXECUTION_ORDER)
    {
      var actions := [];
      for i := 0 to |collectors|
        invariant actions == Concat(Proposed(), i)
      {
        actions := actions + collectors[i].actions;
      }
      plan := Sort(actions, BY_EXECUTION_ORDER);
    }

    /**
     What a run does with the collectors: drops those of the run before, gives every agent it builds a new one, and
     aggregates them at its end. The agents' calls on their own collectors do not affect each other.
     */
    method Run(kind: string -> Option<ActionType>, proposals: seq<seq<Proposal>>) returns (plan: seq<UIAction>)
      modifies this
      ensures plan == Sort(Concat(Lists(kind, proposals), |proposals|), BY_EXECUTION_ORDER)
      ensures lastPlan == Some(plan)
    {
      ResetCollectors();
      for i := 0 to |proposals|
        invariant |collectors| == i && fresh(collectors)
        invariant forall j | 0 <= j < i :: collectors[j].actions == Accepted(kind, proposals[j])
      {
        var collector := new UIActionPlanCollector();
        ProposeAll(collector, kind, proposals[i]);
        collectors := collectors + [collector];
      }
      assert Proposed() == Lists(kind, proposals);
      plan := AggregatePlan();
      lastPlan := Some(plan);
    }
  }

  // ---------------------------------------------------------------------------------------------
  // What the plan is
  // ---------------------------------------------------------------------------------------------

  /** The r-th action of every collector that has one, in collector order. */
  function Round<T>(lists: seq<seq<T>>, r: nat, n: nat): seq<T>
    requires n <= |lists|
  {
    if n == 0 then []
    else Round(lists, r, n - 1) + (if r < |lists[n - 1]| then [lists[n - 1][r]] else [])
  }

  function Rounds<T>(lists: seq<seq<T>>, m: nat): seq<T> {
    if m == 0 then [] else Rounds(lists, m - 1) + Round(lists, m - 1, |lists|)
  }

  function Before(m: int): UIAction -> bool {
    (a: UIAction) => a.executionOrder < m
  }

  function At(m: int): UIAction -> bool {
    (a: UIAction) => a.executionOrder == m
  }

  lemma {:induction false} FilterNone(actions: seq<UIAction>, keep: UIAction -> bool)
    requires forall i | 0 <= i < |actions| :: !keep(actions[i])
    ensures Filter(actions, keep) == []
    decreases |actions|
  {
    if actions != [] {
      FilterNone(actions[..|actions| - 1], keep);
    }
  }

  lemma {:induction false} FilterAll(actions: seq<UIAction>, keep: UIAction -> bool)
    requires forall i | 0 <= i < |actions| :: keep(actions[i])
    ensures Filter(actions, keep) == actions
    decreases |actions|
  {
    if actions != [] {
      var n := |actions| - 1;
      FilterAll(actions[..n], keep);
      assert actions == actions[..n] + [actions[n]];
    }
  }

  /** A sorted list is its orders one after the other. */
  lemma {:induction false} SplitAt(actions: seq<UIAction>, m: int)
    requires Ascending(actions, BY_EXECUTION_ORDER)
    ensures Filter(actions, Before(m + 1)) == Filter(actions, Before(m)) + Filter(actions, At(m))
    decreases |actions|
  {
    if actions != [] {
      var n := |actions| - 1;
      SplitAt(actions[..n], m);
      if actions[n].executionOrder < m {
        assert forall i | 0 <= i < |actions| :: BY_EXECUTION_ORDER(actions[i]) <= BY_EXECUTION_ORDER(actions[n]);
        FilterNone(actions, At(m));
        FilterAll(actions, Before(m));
        FilterAll(actions, Before(m + 1));
      } else if actions[n].executionOrder == m {
        assert Filter(actions, Before(m)) == Filter(actions[..n], Before(m));
      } else {
        assert Filter(actions, At(m)) == Filter(actions[..n], At(m));
      }
    }
  }

  lemma {:induction false} FilterConcat(a: seq<UIAction>, b: seq<UIAction>, keep: UIAction -> bool)
    ensures Filter(a + b, keep) == Filter(a, keep) + Filter(b, keep)
    decreases |b|
  {
    if b == [] {
      assert a + b == a;
    } else {
      var n := |b| - 1;
      FilterConcat(a, b[..n], keep);
      assert a + b == a + b[..n] + [b[n]];
      FilterSnoc(a + b[..n], b[n], keep);
    }
  }

  lemma {:induction false} NumberedAt(actions: seq<UIAction>, r: nat)
    requires Numbered(actions)
    ensures Filter(actions, At(r)) == if r < |actions| then [actions[r]] else []
    decreases |actions|
  {
    if actions != [] {
      NumberedAt(actions[..|actions| - 1], r);
    }
  }

  lemma {:induction false} ConcatAt(lists: seq<seq<UIAction>>, r: nat, n: nat)
    requires n <= |lists| && forall c | 0 <= c < |lists| :: Numbered(lists[c])
    ensures Filter(Concat(lists, n), At(r)) == Round(lists, r, n)
    decreases n
  {
    if n > 0 {
      ConcatAt(lists, r, n - 1);
      NumberedAt(lists[n - 1], r);
      FilterConcat(Concat(lists, n - 1), lists[n - 1], At(r));
    }
  }

  lemma {:induction false} ConcatMembers(lists: seq<seq<UIAction>>, n: nat, a: UIAction)
    requires n <= |lists| && a in Concat(lists, n)
    ensures exists c, i :: 0 <= c < n && 0 <= i < |lists[c]| && lists[c][i] == a
    decreases n
  {
    if a in lists[n - 1] {
      var i :| 0 <= i < |lists[n - 1]| && lists[n - 1][i] == a;
    } else {
      ConcatMembers(lists, n - 1, a);
    }
  }

  lemma OneOrderAscends(actions: seq<UIAction>, r: nat)
    ensures Ascending(Filter(actions, At(r)), BY_EXECUTION_ORDER)
  {
    var part := Filter(actions, At(r));
    FilterMembers(actions, At(r));
    forall i | 0 <= i < |part|
      ensures BY_EXECUTION_ORDER(part[i]) == r
    {
      assert part[i] in part;
    }
  }

  lemma PlanAt(lists: seq<seq<UIAction>>, plan: seq<UIAction>, r: nat)
    requires forall c | 0 <= c < |lists| :: Numbered(lists[c])
    requires plan == Sort(Concat(lists, |lists|), BY_EXECUTION_ORDER)
    ensures Filter(plan, At(r)) == Round(lists, r, |lists|)
  {
    OneOrderAscends(Concat(lists, |lists|), r);
    SortKeepsOrderedParts(Concat(lists, |lists|), BY_EXECUTION_ORDER, At(r));
    ConcatAt(lists, r, |lists|);
  }

  lemma PlanOrders(lists: seq<seq<UIAction>>, plan: seq<UIAction>, m: nat)
    requires forall c | 0 <= c < |lists| :: Numbered(lists[c]) && |lists[c]| <= m
    requires multiset(plan) == multiset(Concat(lists, |lists|))
    ensures forall i | 0 <= i < |plan| :: 0 <= plan[i].executionOrder < m
  {
    forall i | 0 <= i < |plan|
      ensures 0 <= plan[i].executionOrder < m
    {
      assert plan[i] in multiset(plan);
      ConcatMembers(lists, |lists|, plan[i]);
    }
  }

  ghost predicate HasRounds(lists: seq<seq<UIAction>>, plan: seq<UIAction>) {
    forall r: nat :: Filter(plan, At(r)) == Round(lists, r, |lists|)
  }

  lemma OneMoreRound(lists: seq<seq<UIAction>>, plan: seq<UIAction>, m: nat)
    requires Ascending(plan, BY_EXECUTION_ORDER) && HasRounds(lists, plan)
    requires Filter(plan, Before(m)) == Rounds(lists, m)
    ensures Filter(plan, Before(m + 1)) == Rounds(lists, m + 1)
  {
    SplitAt(plan, m);
    var rounds, round := Rounds(lists, m), Round(lists, m, |lists|);
    assert Filter(plan, At(m)) == round;
    assert Rounds(lists, m + 1) == rounds + round;
  }

  lemma SortedBefore(lists: seq<seq<UIAction>>, plan: seq<UIAction>, m: nat)
    requires Ascending(plan, BY_EXECUTION_ORDER) && HasRounds(lists, plan)
    requires Filter(plan, Before(0)) == []
    ensures Filter(plan, Before(m)) == Rounds(lists, m)
  {
    var k: nat := 0;
    while k < m
      invariant k <= m && Filter(plan, Before(k)) == Rounds(lists, k)
    {
      OneMoreRound(lists, plan, k);
      k := k + 1;
    }
  }

  /** The plan interleaves the collectors: all their first actions, then all their second ones, and so on. */
  lemma PlanIsRoundRobin(lists: seq<seq<UIAction>>, m: nat)
    requires forall c | 0 <= c < |lists| :: Numbered(lists[c]) && |lists[c]| <= m
    ensures Sort(Concat(lists, |lists|), BY_EXECUTION_ORDER) == Rounds(lists, m)
    ensures multiset(Rounds(lists, m)) == multiset(Concat(lists, |lists|))
    ensures Ascending(Rounds(lists, m), BY_EXECUTION_ORDER)
  {
    var plan := Sort(Concat(lists, |lists|), BY_EXECUTION_ORDER);
    SortSorts(Concat(lists, |lists|), BY_EXECUTION_ORDER);
    PlanOrders(lists, plan, m);
    forall r: nat
      ensures Filter(plan, At(r)) == Round(lists, r, |lists|)
    {
      PlanAt(lists, plan, r);
    }
    FilterNone(plan, Before(0));
    SortedBefore(lists, plan, m);
    FilterAll(plan, Before(m));
  }

  /** The plan of a run depends on that run's calls alone, and interleaves its agents. */
  lemma RunsPlanIsRoundRobin(kind: string -> Option<ActionType>, proposals: seq<seq<Proposal>>, m: nat)
    requires forall c | 0 <= c < |proposals| :: |proposals[c]| <= m
    ensures Sort(Concat(Lists(kind, proposals), |proposals|), BY_EXECUTION_ORDER) == Rounds(Lists(kind, proposals), m)
  {
    forall c | 0 <= c < |proposals|
      ensures Numbered(Accepted(kind, proposals[c])) && |Accepted(kind, proposals[c])| <= m
    {
      AcceptedAreNumbered(kind, proposals[c]);
    }
    PlanIsRoundRobin(Lists(kind, proposals), m);
  }

  // ---------------------------------------------------------------------------------------------
  // What each collector finds of its own in the plan
  // ---------------------------------------------------------------------------------------------

  /** An action and the collector it came from. */
  datatype Owned = Owned(collector: nat, action: UIAction)

  const ACTION: Owned -> UIAction := (o: Owned) => o.action

  function Of(c: nat): Owned -> bool {
    (o: Owned) => o.collector == c
  }

  function Tagged(actions: seq<UIAction>, c: nat): seq<Owned> {
    seq(|actions|, i requires 0 <= i < |actions| => Owned(c, actions[i]))
  }

  function AllTagged(lists: seq<seq<UIAction>>, n: nat): seq<Owned>
    requires n <= |lists|
  {
    if n == 0 then [] else AllTagged(lists, n - 1) + Tagged(lists[n - 1], n - 1)
  }

  lemma {:induction false} MapTagged(before: seq<Owned>, actions: seq<UIAction>, c: nat)
    ensures Map(before + Tagged(actions, c), ACTION) == Map(before, ACTION) + actions
    decreases |actions|
  {
    if actions == [] {
      assert before + Tagged(actions, c) == before;
    } else {
      var n := |actions| - 1;
      MapTagged(before, actions[..n], c);
      assert before + Tagged(actions, c) == before + Tagged(actions[..n], c) + [Owned(c, actions[n])];
      MapSnoc(before + Tagged(actions[..n], c), Owned(c, actions[n]), ACTION);
    }
  }

  lemma {:induction false} MapAllTagged(lists: seq<seq<UIAction>>, n: nat)
    requires n <= |lists|
    ensures Map(AllTagged(lists, n), ACTION) == Concat(lists, n)
    decreases n
  {
    if n > 0 {
      MapAllTagged(lists, n - 1);
      MapTagged(AllTagged(lists, n - 1), lists[n - 1], n - 1);
    }
  }

  lemma TaggedSnoc(actions: seq<UIAction>, c: nat)
    requires actions != []
    ensures Tagged(actions, c) == Tagged(actions[..|actions| - 1], c) + [Owned(c, actions[|actions| - 1])]
  {
  }

  lemma {:induction false} FilterTagged(before: seq<Owned>, actions: seq<UIAction>, d: nat, c: nat)
    ensures Filter(before + Tagged(actions, d), Of(c))
      == Filter(before, Of(c)) + (if d == c then Tagged(actions, d) else [])
    decreases |actions|
  {
    if actions == [] {
      assert before + Tagged(actions, d) == before;
    } else {
      var n := |actions| - 1;
      var shorter := Tagged(actions[..n], d);
      FilterTagged(before, actions[..n], d, c);
      TaggedSnoc(actions, d);
      assert before + (shorter + [Owned(d, actions[n])]) == before + shorter + [Owned(d, actions[n])];
      FilterSnoc(before + shorter, Owned(d, actions[n]), Of(c));
      assert Filter(before, Of(c)) + (shorter + [Owned(d, actions[n])])
        == Filter(before, Of(c)) + shorter + [Owned(d, actions[n])];
    }
  }

  lemma {:induction false} FilterAllTagged(lists: seq<seq<UIAction>>, n: nat, c: nat)
    requires n <= |lists| && c < |lists|
    ensures Filter(AllTagged(lists, n), Of(c)) == if c < n then Tagged(lists[c], c) else []
    decreases n
  {
    if n > 0 {
      FilterAllTagged(lists, n - 1, c);
      var before, last := AllTagged(lists, n - 1), lists[n - 1];
      FilterTagged(before, last, n - 1, c);
      assert Filter(before, Of(c)) == if c < n - 1 then Tagged(lists[c], c) else [];
      assert AllTagged(lists, n) == before + Tagged(last, n - 1);
    }
  }

  /** The plan's actions can be handed back to their collectors so that each gets its own list in its own order. */
  lemma CollectorsKeepTheirOrder(lists: seq<seq<UIAction>>) returns (owned: seq<Owned>)
    requires forall c | 0 <= c < |lists| :: Numbered(lists[c])
    ensures Map(owned, ACTION) == Sort(Concat(lists, |lists|), BY_EXECUTION_ORDER)
    ensures forall c | 0 <= c < |lists| :: Filter(owned, Of(c)) == Tagged(lists[c], c)
  {
    var all, key := AllTagged(lists, |lists|), Compose(ACTION, BY_EXECUTION_ORDER);
    owned := Sort(all, key);
    MapAllTagged(lists, |lists|);
    MapSort(all, ACTION, BY_EXECUTION_ORDER);
    forall c | 0 <= c < |lists|
      ensures Filter(owned, Of(c)) == Tagged(lists[c], c)
    {
      FilterAllTagged(lists, |lists|, c);
      SortKeepsOrderedParts(all, key, Of(c));
    }
  }
}
