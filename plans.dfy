/** Counting the poll events of a bucket plan. */
module Plans {
  import opened Types

  /** Occurrences of `e` in the buckets for seconds 0..k. */
  function CountUpTo(plan: Plan, e: PollEvent, k: nat): nat {
    (if k in plan then multiset(plan[k])[e] else 0)
    + (if k == 0 then 0 else CountUpTo(plan, e, k - 1))
  }

  /** How many times `e` is scheduled in one minute of `plan`. */
  function Count(plan: Plan, e: PollEvent): nat {
    CountUpTo(plan, e, SECONDS_IN_MINUTE)
  }

  /** Every bucket of the plan is a second of the minute, 1..60. */
  ghost predicate WithinMinute(plan: Plan) {
    forall k :: k in plan ==> 1 <= k <= SECONDS_IN_MINUTE
  }

  /** A plan whose buckets are all empty schedules nothing. */
  lemma {:induction false} CountEmpty(plan: Plan, e: PollEvent, k: nat)
    requires forall s :: s in plan ==> plan[s] == []
    ensures CountUpTo(plan, e, k) == 0
  {
    if k > 0 {
      CountEmpty(plan, e, k - 1);
    }
  }

  /**
   * Pushing `x` onto the bucket for second `b` adds one occurrence of `x`,
   * among the seconds up to k that include b, and leaves every other event's
   * count unchanged.
   */
  lemma {:induction false} CountAfterPush(plan: Plan, b: nat, x: PollEvent, e: PollEvent, k: nat)
    requires b in plan
    ensures CountUpTo(plan[b := plan[b] + [x]], e, k)
            == CountUpTo(plan, e, k) + (if b <= k && x == e then 1 else 0)
  {
    var plan' := plan[b := plan[b] + [x]];
    assert multiset(plan'[b]) == multiset(plan[b]) + multiset{x};
    if k > 0 {
      CountAfterPush(plan, b, x, e, k - 1);
    }
  }
}
