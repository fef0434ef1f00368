/** Which policies apply to a caller: `list_matching` and `_select_effective_policies`. */
module QuotaPolicies {
  import opened Prelude
  import opened QuotaPeriods
  import opened QuotaKeys

  datatype Policy = Policy(
    scope: Scope,
    value: string,
    model: Option<string>,
    metric: Metric,
    period: Period,
    window: Option<nat>,
    limit: nat,
    priority: int,
    enabled: bool,
    deleted: bool
  )

  datatype Slot = Slot(metric: Metric, period: Period)

  function SlotOf(p: Policy): Slot {
    Slot(p.metric, p.period)
  }

  /** The WHERE clause of list_matching. */
  predicate Matches(p: Policy, user: string, groups: seq<string>, model: Option<string>) {
    && !p.deleted
    && p.enabled
    && match p.scope {
         case User => p.value == user
         case Global => true
         case Group => p.value in groups
       }
    && (p.model.None? || p.model == model)
  }

  function ScopeRank(s: Scope): nat {
    match s
    case User => 0
    case Group => 1
    case Global => 2
  }

  /** What decides between two policies of one slot. */
  datatype Standing = Standing(rank: nat, priority: int, limit: nat)

  function StandingOf(p: Policy): Standing {
    Standing(ScopeRank(p.scope), p.priority, p.limit)
  }

  /** Most specific scope, then higher priority, then stricter limit. */
  predicate Precedes(a: Standing, b: Standing) {
    || a.rank < b.rank
    || (a.rank == b.rank && (a.priority > b.priority || (a.priority == b.priority && a.limit < b.limit)))
  }

  type Choice = map<Slot, Policy>

  /** The dict after the candidates have been seen in order. */
  function Selected(candidates: seq<Policy>): Choice {
    if candidates == [] then map[]
    else
      var n := |candidates| - 1;
      Consider(Selected(candidates[..n]), candidates[n])
  }

  function Consider(best: Choice, p: Policy): Choice {
    var slot := SlotOf(p);
    if slot !in best || Precedes(StandingOf(p), StandingOf(best[slot])) then best[slot := p] else best
  }

  /** The loop of `_select_effective_policies`. */
  method SelectEffectivePolicies(candidates: seq<Policy>) returns (best: Choice)
    ensures best == Selected(candidates)
  {
    best := map[];
    for i := 0 to |candidates|
      invariant best == Selected(candidates[..i])
    {
      var policy := candidates[i];
      var slot := SlotOf(policy);
      assert candidates[..i + 1][..i] == candidates[..i];
      if slot !in best {
        best := best[slot := policy];
      } else {
        var current := best[slot];
        var currentRank, newRank := ScopeRank(current.scope), ScopeRank(policy.scope);
        if newRank < currentRank {
          best := best[slot := policy];
        } else if newRank == currentRank {
          if policy.priority > current.priority {
            best := best[slot := policy];
          } else if policy.priority == current.priority && policy.limit < current.limit {
            best := best[slot := policy];
          }
        }
      }
    }
    assert candidates[..|candidates|] == candidates;
  }

  /** `winner` is a candidate of its slot that no other candidate of the slot precedes. */
  ghost predicate IsBest(candidates: seq<Policy>, slot: Slot, winner: Policy) {
    && winner in candidates
    && SlotOf(winner) == slot
    && forall p | p in candidates && SlotOf(p) == slot :: !Precedes(StandingOf(p), StandingOf(winner))
  }

  /** Exactly one policy per slot that occurs, and it is a best one. */
  lemma {:induction false} SelectionIsBest(candidates: seq<Policy>)
    ensures forall slot :: slot in Selected(candidates) <==> exists p :: p in candidates && SlotOf(p) == slot
    ensures forall slot | slot in Selected(candidates) :: IsBest(candidates, slot, Selected(candidates)[slot])
  {
    if candidates != [] {
      var n := |candidates| - 1;
      var before, p := candidates[..n], candidates[n];
      SelectionIsBest(before);
      assert candidates == before + [p];
      assert forall q :: q in candidates <==> q in before || q == p;
    }
  }

  /** The policy enforced for p's metric and period. */
  function WinnerOver(candidates: seq<Policy>, p: Policy): (winner: Policy)
    requires p in candidates
    ensures winner in candidates && winner in Selected(candidates).Values
    ensures winner.metric == p.metric && winner.period == p.period
  {
    SelectionIsBest(candidates);
    assert IsBest(candidates, SlotOf(p), Selected(candidates)[SlotOf(p)]);
    Selected(candidates)[SlotOf(p)]
  }

  /**
   USER beats GROUP beats GLOBAL, and within one scope the higher priority wins, then the smaller limit: a candidate
   loses only to a policy of its metric and period that is at least as good in this order.
   */
  lemma WinnerBeatsCandidate(candidates: seq<Policy>, p: Policy)
    requires p in candidates
    ensures var winner := WinnerOver(candidates, p);
      && (p.scope == User ==> winner.scope == User)
      && (p.scope == Group ==> winner.scope == User || winner.scope == Group)
      && (winner.scope == p.scope ==>
            winner.priority > p.priority || (winner.priority == p.priority && winner.limit <= p.limit))
  {
    SelectionIsBest(candidates);
    assert IsBest(candidates, SlotOf(p), Selected(candidates)[SlotOf(p)]);
  }

  /** At most one policy is enforced for each metric and period, and only candidates are. */
  lemma OneWinnerEach(candidates: seq<Policy>, a: Policy, b: Policy)
    requires a in Selected(candidates).Values && b in Selected(candidates).Values
    requires a.metric == b.metric && a.period == b.period
    ensures a == b && a in candidates && a == WinnerOver(candidates, a)
  {
    SelectionIsBest(candidates);
    var slot :| slot in Selected(candidates) && Selected(candidates)[slot] == a;
    assert IsBest(candidates, slot, a);
    SlotDeterminesWinner(candidates, a);
    SlotDeterminesWinner(candidates, b);
  }

  /** An enabled policy that is not deleted applies to its user, to the members of its group, or to everyone. */
  lemma WhoMatches(p: Policy, user: string, groups: seq<string>, model: Option<string>)
    ensures p.enabled && !p.deleted && p.model.None? ==>
      && (p.scope == User ==> (Matches(p, user, groups, model) <==> user == p.value))
      && (p.scope == Group ==> (Matches(p, user, groups, model) <==> p.value in groups))
      && (p.scope == Global ==> Matches(p, user, groups, model))
    ensures Matches(p, user, groups, model) ==> p.enabled && !p.deleted && (p.model.None? || model == p.model)
    ensures Matches(p.(model := None), user, groups, model) && p.model.Some? ==>
      (Matches(p, user, groups, model) <==> model == p.model)
  {
  }

  /** Whatever order the database returns the rows in, the same standing wins each slot. */
  lemma OrderDoesNotMatter(candidates: seq<Policy>, permuted: seq<Policy>)
    requires multiset(candidates) == multiset(permuted)
    ensures Selected(candidates).Keys == Selected(permuted).Keys
    ensures forall slot | slot in Selected(candidates) ::
              StandingOf(Selected(candidates)[slot]) == StandingOf(Selected(permuted)[slot])
  {
    SelectionIsBest(candidates);
    SelectionIsBest(permuted);
    assert forall p :: p in candidates <==> p in multiset(candidates);
    assert forall p :: p in permuted <==> p in multiset(permuted);
    forall slot
      ensures slot in Selected(candidates) <==> slot in Selected(permuted)
    {
    }
    forall slot | slot in Selected(candidates)
      ensures StandingOf(Selected(candidates)[slot]) == StandingOf(Selected(permuted)[slot])
    {
      assert IsBest(candidates, slot, Selected(candidates)[slot]);
      assert IsBest(permuted, slot, Selected(permuted)[slot]);
    }
  }

  /**
   A policy for one model and a policy for all models are rivals for one slot, so both are enforced
   only if no two matching policies share a (metric, period).
   */
  lemma EveryMatchIsEnforcedIff(candidates: seq<Policy>)
    ensures (forall p | p in candidates :: p in Selected(candidates).Values)
       <==> (forall p, q | p in candidates && q in candidates && SlotOf(p) == SlotOf(q) :: p == q)
  {
    SelectionIsBest(candidates);
    var best := Selected(candidates);
    if forall p | p in candidates :: p in best.Values {
      forall p, q | p in candidates && q in candidates && SlotOf(p) == SlotOf(q)
        ensures p == q
      {
        SlotDeterminesWinner(candidates, p);
        SlotDeterminesWinner(candidates, q);
      }
    } else {
      var p :| p in candidates && p !in best.Values;
      var slot := SlotOf(p);
      assert slot in best && best[slot] in best.Values;
      assert IsBest(candidates, slot, best[slot]);
    }
  }

  lemma SlotDeterminesWinner(candidates: seq<Policy>, p: Policy)
    requires p in Selected(candidates).Values
    ensures SlotOf(p) in Selected(candidates) && Selected(candidates)[SlotOf(p)] == p
  {
    SelectionIsBest(candidates);
    var slot :| slot in Selected(candidates) && Selected(candidates)[slot] == p;
    assert IsBest(candidates, slot, p);
  }

  /** A user's daily token limit over all models goes unenforced beside one for the model being called. */
  lemma AllModelsPolicyCanBeShadowed()
    ensures exists all, one ::
              && Matches(all, "u", [], Some("m"))
              && Matches(one, "u", [], Some("m"))
              && all.model.None? && one.model.Some?
              && all !in Selected([all, one]).Values
  {
    var all := Policy(User, "u", None, Tokens, Daily, None, 100, 0, true, false);
    var one := Policy(User, "u", Some("m"), Tokens, Daily, None, 50, 0, true, false);
    var slot := SlotOf(all);
    assert [all, one][..1] == [all] && [all][..0] == [];
    assert Selected([all]) == map[slot := all];
    assert Selected([all, one]) == map[slot := one];
    assert Selected([all, one]).Values == {one};
    assert Matches(all, "u", [], Some("m")) && Matches(one, "u", [], Some("m"));
  }
}
