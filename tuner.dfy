/**
 * The bucket-plan tuner, `RedditStreamerTunner`. The repository holds two
 * copies of it (sources/redditStreamerTuner.js and
 * sources/reddit/redditStreamerTuner.js) whose live code is the same; this
 * module models both.
 */
module Tuner {
  import opened Types
  import opened Plans

  /** The 0.05 kept free of the quota, as a percentage. */
  const OVERFLOW_PROTECTION_PERCENT: nat := 5
  /** Share of the quota given to post requests: 0.25 - 0.05. */
  const POST_PERCENT: nat := 25 - OVERFLOW_PROTECTION_PERCENT
  /** Share of the quota given to comment requests: 0.75 - 0.05. */
  const COMMENT_PERCENT: nat := 75 - OVERFLOW_PROTECTION_PERCENT

  // ---------------------------------------------------------------------
  // Quota arithmetic

  /**
   * One subreddit's share of `percent`% of the quota,
   * `Math.floor(Math.floor(percent% * quota) / n)`: the largest r such that
   * n subreddits with r requests each stay within `percent`% of the quota.
   * With no subreddit nothing is shared out.
   */
  function Share(quota: nat, percent: nat, n: nat): (r: nat)
    ensures n > 0 ==> 100 * (n * r) <= percent * quota < 100 * (n * (r + 1))
  {
    if n == 0 then 0
    else
      var perMinute := percent * quota / 100;
      var r := perMinute / n;
      DivBounds(percent * quota, 100);
      DivBounds(perMinute, n);
      MulSucc(r, n);
      r
  }

  /** The per-subreddit demand of the initial plan. */
  function InitialDemand(quota: nat, n: nat): Demand {
    Demand(Share(quota, POST_PERCENT, n), Share(quota, COMMENT_PERCENT, n))
  }

  /** The initial split never asks for more than 90% of the quota. */
  lemma {:induction false} InitialDemandWithinQuota(quota: nat, n: nat)
    ensures 10 * (n * InitialDemand(quota, n).Weight()) <= 9 * quota
  {
    MulAdd(n, Share(quota, POST_PERCENT, n), Share(quota, COMMENT_PERCENT, n));
  }

  lemma {:induction false} MulAdd(n: nat, a: nat, b: nat)
    ensures n * (a + b) == n * a + n * b
  {
  }

  /** Spacing, in seconds, between two polls of one type. */
  type Seconds = n: nat | n >= 1 witness 1

  /** `Math.ceil(60 / total)`; a total of 0 gives JavaScript's Infinity. */
  datatype Interval = Every(seconds: Seconds) | Infinite

  /**
   * The smallest spacing that fits `total` polls into one minute: total
   * polls every f seconds cover the minute, with one spacing less they do not.
   */
  function Frequency(total: nat): (f: Interval)
    ensures f.Infinite? <==> total == 0
    ensures f.Every? ==> f.seconds <= SECONDS_IN_MINUTE
    ensures f.Every? ==> SECONDS_IN_MINUTE <= total * f.seconds
    ensures f.Every? ==> total * (f.seconds - 1) < SECONDS_IN_MINUTE
  {
    if total == 0 then Infinite
    else
      var q := (SECONDS_IN_MINUTE + total - 1) / total;
      DivBounds(SECONDS_IN_MINUTE + total - 1, total);
      assert q >= 1;
      MulSucc(q - 1, total);
      MulMono(1, total, q - 1);
      Every(q)
  }

  /** The seconds 1..60 that are multiples of the spacing. */
  function TriggerSet(f: Interval): (s: set<nat>)
    ensures forall x :: x in s ==> 1 <= x <= SECONDS_IN_MINUTE
  {
    match f
    case Infinite => {}
    case Every(n) => set x | 1 <= x <= SECONDS_IN_MINUTE && x % n == 0
  }

  /** `[f, 2f, ..., floor(60/f)·f]`, or `[]` for an infinite spacing. */
  ghost predicate IsTriggerList(s: seq<nat>, f: Interval) {
    match f
    case Infinite => s == []
    case Every(n) =>
      |s| == SECONDS_IN_MINUTE / n && forall i :: 0 <= i < |s| ==> s[i] == (i + 1) * n
  }

  /** The quotient of a by n is the largest k with k·n <= a. */
  lemma {:induction false} DivBounds(a: nat, n: nat)
    requires n >= 1
    ensures (a / n) * n <= a < (a / n) * n + n
  {
    assert (a / n) * n + a % n == a;
  }

  lemma {:induction false} MulMono(a: nat, b: nat, n: nat)
    ensures a <= b ==> a * n <= b * n
  {
  }

  lemma {:induction false} MulSucc(k: nat, n: nat)
    ensures (k + 1) * n == k * n + n
  {
  }

  /** k is the quotient of a by n when k·n <= a < (k+1)·n. */
  lemma {:induction false} DivExact(a: nat, n: nat, k: nat)
    requires n >= 1 && k * n <= a < (k + 1) * n
    ensures a / n == k
  {
    var q: nat := a / n;
    DivBounds(a, n);
    MulSucc(q, n);
    MulMono(q + 1, k, n);
    MulMono(k + 1, q, n);
  }

  lemma {:induction false} MultipleMod(k: nat, n: Seconds)
    ensures (k * n) % n == 0
  {
    MulSucc(k, n);
    DivExact(k * n, n, k);
    assert k * n == (k * n / n) * n + (k * n) % n;
  }

  /** The i-th entry of a trigger list is within the minute. */
  lemma {:induction false} TriggerInMinute(n: Seconds, i: nat)
    requires i < SECONDS_IN_MINUTE / n
    ensures 1 <= (i + 1) * n <= SECONDS_IN_MINUTE
    ensures ((i + 1) * n) % n == 0
  {
    var m := SECONDS_IN_MINUTE / n;
    assert m * n + SECONDS_IN_MINUTE % n == SECONDS_IN_MINUTE;
    MulMono(i + 1, m, n);
    MulMono(1, i + 1, n);
    MultipleMod(i + 1, n);
  }

  /** A multiple of n within the minute is an entry of the trigger list. */
  lemma {:induction false} MultipleIsTrigger(n: Seconds, x: nat)
    requires 1 <= x <= SECONDS_IN_MINUTE && x % n == 0
    ensures 1 <= x / n <= SECONDS_IN_MINUTE / n
    ensures x == (x / n) * n
  {
    var k: nat := x / n;
    var m: nat := SECONDS_IN_MINUTE / n;
    assert x == k * n + x % n;
    DivBounds(SECONDS_IN_MINUTE, n);
    MulSucc(m, n);
    MulMono(m + 1, k, n);
  }

  /** The entries of a trigger list grow strictly. */
  lemma {:induction false} TriggerListIncreasing(s: seq<nat>, n: Seconds)
    requires IsTriggerList(s, Every(n))
    ensures forall i, j :: 0 <= i < j < |s| ==> s[i] < s[j]
  {
    forall i, j | 0 <= i < j < |s| ensures s[i] < s[j] {
      MulMono(i + 2, j + 1, n);
      MulSucc(i + 1, n);
    }
  }

  /** The entries of a trigger list are exactly the multiples of its spacing in 1..60. */
  lemma {:induction false} TriggerListMembers(s: seq<nat>, n: Seconds)
    requires IsTriggerList(s, Every(n))
    ensures forall x :: x in s <==> x in TriggerSet(Every(n))
  {
    forall i | 0 <= i < |s| ensures s[i] in TriggerSet(Every(n)) {
      TriggerInMinute(n, i);
    }
    forall x | x in TriggerSet(Every(n)) ensures x in s {
      MultipleIsTrigger(n, x);
      assert s[x / n - 1] == x;
    }
  }

  /** A spacing of at most a minute fits at least once into it. */
  lemma {:induction false} QuotientPositive(a: nat, n: Seconds)
    requires n <= a
    ensures a / n >= 1
  {
    assert (a / n) * n + a % n == a;
  }

  /**
   * A trigger list is strictly increasing, lies within 1..60, holds exactly
   * the multiples of its spacing there, and is non-empty for a finite spacing.
   */
  lemma {:induction false} TriggerListFacts(s: seq<nat>, f: Interval)
    requires IsTriggerList(s, f)
    requires f.Every? ==> f.seconds <= SECONDS_IN_MINUTE
    ensures forall i, j :: 0 <= i < j < |s| ==> s[i] < s[j]
    ensures forall i :: 0 <= i < |s| ==> 1 <= s[i] <= SECONDS_IN_MINUTE
    ensures forall x :: x in s <==> x in TriggerSet(f)
    ensures f.Every? ==> |s| >= 1
  {
    if f.Every? {
      TriggerListIncreasing(s, f.seconds);
      TriggerListMembers(s, f.seconds);
      forall i | 0 <= i < |s| ensures 1 <= s[i] <= SECONDS_IN_MINUTE {
        assert s[i] in TriggerSet(f);
      }
      QuotientPositive(SECONDS_IN_MINUTE, f.seconds);
    }
  }

  // ---------------------------------------------------------------------
  // Demand totals (the `reduce` calls of getStreamerEvents)

  /** Sum of the `type` demands of `names`; no single one of them exceeds it. */
  function TypeTotal(counts: map<string, Demand>, names: seq<string>, t: ItemType): (r: nat)
    requires forall n :: n in names ==> n in counts
    ensures forall n :: n in names ==> counts[n].Of(t) <= r
  {
    if names == [] then 0 else counts[names[0]].Of(t) + TypeTotal(counts, names[1..], t)
  }

  /**
   * Sum of the post and comment demands of `names` (`this.totalRequests`):
   * the post total plus the comment total.
   */
  function TotalDemand(counts: map<string, Demand>, names: seq<string>): (r: nat)
    requires forall n :: n in names ==> n in counts
    ensures r == TypeTotal(counts, names, Post) + TypeTotal(counts, names, Comment)
  {
    if names == [] then 0 else counts[names[0]].Weight() + TotalDemand(counts, names[1..])
  }

  /** Changing the demand of one subreddit changes the total by the difference. */
  lemma {:induction false} TotalAfterUpdate(counts: map<string, Demand>, names: seq<string>, n: string, d: Demand)
    requires forall m :: m in names ==> m in counts
    requires Distinct(names) && n in names
    ensures TotalDemand(counts[n := d], names) + counts[n].Weight() == TotalDemand(counts, names) + d.Weight()
  {
    if names[0] != n {
      TotalAfterUpdate(counts, names[1..], n, d);
    } else {
      assert n !in names[1..];
      TotalUnchanged(counts, names[1..], n, d);
    }
  }

  /** Changing the demand of one subreddit changes the type total by the difference. */
  lemma {:induction false} TypeTotalAfterUpdate(counts: map<string, Demand>, names: seq<string>, n: string, d: Demand,
                                                t: ItemType)
    requires forall m :: m in names ==> m in counts
    requires Distinct(names) && n in names
    ensures TypeTotal(counts[n := d], names, t) + counts[n].Of(t) == TypeTotal(counts, names, t) + d.Of(t)
  {
    if names[0] != n {
      TypeTotalAfterUpdate(counts, names[1..], n, d, t);
    } else {
      assert n !in names[1..];
      TypeTotalUnchanged(counts, names[1..], n, d, t);
    }
  }

  /** Changing a subreddit outside `names` leaves their type total unchanged. */
  lemma {:induction false} TypeTotalUnchanged(counts: map<string, Demand>, names: seq<string>, n: string, d: Demand,
                                              t: ItemType)
    requires forall m :: m in names ==> m in counts
    requires n !in names
    ensures TypeTotal(counts[n := d], names, t) == TypeTotal(counts, names, t)
  {
    if names != [] {
      TypeTotalUnchanged(counts, names[1..], n, d, t);
    }
  }

  /** With no demand of type t left, the type total is zero. */
  lemma {:induction false} TypeTotalZero(counts: map<string, Demand>, names: seq<string>, t: ItemType)
    requires forall m :: m in names ==> m in counts && counts[m].Of(t) == 0
    ensures TypeTotal(counts, names, t) == 0
  {
    if names != [] {
      TypeTotalZero(counts, names[1..], t);
    }
  }

  /** Changing a subreddit outside `names` leaves their total unchanged. */
  lemma {:induction false} TotalUnchanged(counts: map<string, Demand>, names: seq<string>, n: string, d: Demand)
    requires forall m :: m in names ==> m in counts
    requires n !in names
    ensures TotalDemand(counts[n := d], names) == TotalDemand(counts, names)
  {
    if names != [] {
      TotalUnchanged(counts, names[1..], n, d);
    }
  }

  /** Every subreddit demanding `d`: `numberOfRequestsBySubreddit[s] = d`. */
  function Uniform(names: seq<string>, d: Demand): (counts: map<string, Demand>)
    ensures forall n :: n in counts <==> n in names
  {
    map n | n in names :: d
  }

  /** With the same demand everywhere the total is the count times it. */
  lemma {:induction false} TotalOfUniform(counts: map<string, Demand>, names: seq<string>, d: Demand)
    requires forall n :: n in names ==> n in counts && counts[n] == d
    ensures TotalDemand(counts, names) == |names| * d.Weight()
  {
    if names != [] {
      assert names[0] in names;
      TotalOfUniform(counts, names[1..], d);
      MulSucc(|names| - 1, d.Weight());
    }
  }

  // ---------------------------------------------------------------------
  // Retuning arithmetic

  /**
   * `Math.max(1, Math.ceil(count * 1.25 / limit))`: the fewest requests (at
   * least one) of `limit` records each that hold 5/4 of `count` records.
   */
  function Rescale(count: nat, limit: nat): (r: nat)
    requires limit >= 1
    ensures r >= 1
    ensures 5 * count <= 4 * limit * r
    ensures r == 1 || 4 * limit * (r - 1) < 5 * count
  {
    var q := (5 * count + 4 * limit - 1) / (4 * limit);
    assert 4 * limit * q <= 5 * count + 4 * limit - 1 < 4 * limit * (q + 1);
    assert 4 * limit * (q - 1) == 4 * limit * q - 4 * limit;
    if q < 1 then 1 else q
  }

  /** The demand of one subreddit after the tuning cycle. */
  function RescaleDemand(d: Demand, limit: nat): (r: Demand)
    requires limit >= 1
    ensures forall t :: r.Of(t) >= 1 && 5 * d.Of(t) <= 4 * limit * r.Of(t)
  {
    Demand(Rescale(d.post, limit), Rescale(d.comment, limit))
  }

  /** Every demand of the table rescaled, as the `forEach` of `handleDataStream` does. */
  function Rescaled(counts: map<string, Demand>, limit: nat): (r: map<string, Demand>)
    requires limit >= 1
    ensures r.Keys == counts.Keys
  {
    map n | n in counts :: RescaleDemand(counts[n], limit)
  }

  // ---------------------------------------------------------------------
  // What a plan for a demand table is

  /** The seconds at which polls of type t may fire under demand `counts`. */
  ghost function Triggers(counts: map<string, Demand>, names: seq<string>, t: ItemType): set<nat>
    requires forall n :: n in names ==> n in counts
  {
    TriggerSet(Frequency(TypeTotal(counts, names, t)))
  }

  /**
   * `plan` schedules the demand `counts` of `names`: its buckets are exactly
   * the post and comment trigger seconds; every subreddit gets exactly its
   * demand of each type; every event names a subreddit of the table and sits
   * in a trigger second of its own type.
   */
  ghost predicate PlanFor(plan: Plan, counts: map<string, Demand>, names: seq<string>)
    requires forall n :: n in names ==> n in counts
  {
    && plan.Keys == Triggers(counts, names, Post) + Triggers(counts, names, Comment)
    && (forall n, t :: n in names ==> Count(plan, PollEvent(t, n)) == counts[n].Of(t))
    && (forall k, j :: k in plan && 0 <= j < |plan[k]| ==>
          plan[k][j].subreddit in names && k in Triggers(counts, names, plan[k][j].kind))
  }

  /** A plan only uses seconds of the minute. */
  lemma {:induction false} PlanWithinMinute(plan: Plan, counts: map<string, Demand>, names: seq<string>)
    requires forall n :: n in names ==> n in counts
    requires PlanFor(plan, counts, names)
    ensures WithinMinute(plan)
  {
  }

  /**
   * What the round robin delivers is a plan for the demand once its trigger
   * lists are those of the demand's totals.
   */
  lemma {:induction false} AssignedIsPlanFor(plan: Plan, orig: map<string, Demand>, keys: seq<string>,
                          postTriggers: seq<nat>, commentTriggers: seq<nat>)
    requires forall n :: n in keys ==> n in orig
    requires forall x :: x in postTriggers <==> x in Triggers(orig, keys, Post)
    requires forall x :: x in commentTriggers <==> x in Triggers(orig, keys, Comment)
    requires forall k :: k in plan <==> k in postTriggers || k in commentTriggers
    requires forall n, t :: n in keys ==> Count(plan, PollEvent(t, n)) == orig[n].Of(t)
    requires forall k, j :: k in plan && 0 <= j < |plan[k]| ==>
               plan[k][j].subreddit in keys && k in TriggersOf(plan[k][j].kind, postTriggers, commentTriggers)
    ensures PlanFor(plan, orig, keys)
  {
    forall k, j | k in plan && 0 <= j < |plan[k]|
      ensures k in Triggers(orig, keys, plan[k][j].kind)
    {
      if plan[k][j].kind == Post {
        assert k in postTriggers;
      } else {
        assert k in commentTriggers;
      }
    }
    assert plan.Keys == Triggers(orig, keys, Post) + Triggers(orig, keys, Comment);
  }

  /** The trigger list an event of type t must be placed in. */
  function TriggersOf(t: ItemType, postTriggers: seq<nat>, commentTriggers: seq<nat>): seq<nat> {
    match t
    case Post => postTriggers
    case Comment => commentTriggers
  }

  /**
   * The loop state of the round robin: what is left in `counts` plus what
   * is already in `plan` is the original demand, and every placed event is
   * in a trigger second of its type.
   */
  ghost predicate Placed(plan: Plan, counts: map<string, Demand>, orig: map<string, Demand>, names: seq<string>,
                         postTriggers: seq<nat>, commentTriggers: seq<nat>)
  {
    && counts.Keys == orig.Keys
    && (forall n, t {:trigger Count(plan, PollEvent(t, n))} :: n in orig ==> Count(plan, PollEvent(t, n)) + counts[n].Of(t) == orig[n].Of(t))
    && (forall k, j :: k in plan && 0 <= j < |plan[k]| ==>
          plan[k][j].subreddit in names && k in TriggersOf(plan[k][j].kind, postTriggers, commentTriggers))
  }

  /** Placing one event of type t for `name` in a t-trigger second keeps `Placed`. */
  lemma {:induction false} PlacePreserves(plan: Plan, counts: map<string, Demand>, orig: map<string, Demand>, names: seq<string>,
                       postTriggers: seq<nat>, commentTriggers: seq<nat>, name: string, t: ItemType, b: nat)
    requires Placed(plan, counts, orig, names, postTriggers, commentTriggers)
    requires name in names && name in orig && counts[name].Of(t) > 0
    requires b in plan && b <= SECONDS_IN_MINUTE && b in TriggersOf(t, postTriggers, commentTriggers)
    ensures Placed(plan[b := plan[b] + [PollEvent(t, name)]], counts[name := counts[name].Less(t)], orig, names,
                   postTriggers, commentTriggers)
  {
    var x := PollEvent(t, name);
    var plan' := plan[b := plan[b] + [x]];
    var counts' := counts[name := counts[name].Less(t)];
    forall n, u | n in orig
      ensures Count(plan', PollEvent(u, n)) + counts'[n].Of(u) == orig[n].Of(u)
    {
      CountAfterPush(plan, b, x, PollEvent(u, n), SECONDS_IN_MINUTE);
      assert Count(plan, PollEvent(u, n)) + counts[n].Of(u) == orig[n].Of(u);
    }
    forall k, j | k in plan' && 0 <= j < |plan'[k]|
      ensures plan'[k][j].subreddit in names && k in TriggersOf(plan'[k][j].kind, postTriggers, commentTriggers)
    {
      if k == b && j == |plan[b]| {
        assert plan'[k][j] == x;
      } else {
        assert plan'[k][j] == plan[k][j];
      }
    }
  }

  // ---------------------------------------------------------------------
  // removeFromArray

  /** `array.indexOf(value)`: the first index holding v, or -1. */
  function IndexOf(a: seq<string>, v: string): (i: int)
    ensures -1 <= i < |a|
    ensures i == -1 <==> v !in a
    ensures 0 <= i ==> a[i] == v && v !in a[..i]
  {
    if a == [] then -1
    else if a[0] == v then 0
    else
      var j := IndexOf(a[1..], v);
      assert a[1..][..j + 1] == a[1..j + 2];
      if j == -1 then -1 else j + 1
  }

  /**
   * `array.splice(array.indexOf(value), 1)`: removes the first v; with v
   * absent indexOf gives -1 and splice drops the last element.
   */
  function RemoveFromArray(a: seq<string>, v: string): (r: seq<string>)
    ensures v in a ==> r == a[..IndexOf(a, v)] + a[IndexOf(a, v) + 1..]
    ensures v !in a ==> r == if a == [] then [] else a[..|a| - 1]
  {
    var i := IndexOf(a, v);
    var start := if i < 0 then (if |a| + i < 0 then 0 else |a| + i) else i;
    if start >= |a| then a else a[..start] + a[start + 1..]
  }

  /**
   * In a list of distinct names, removing a[i] removes index i: the rest
   * stay distinct, in order, and nothing but a[i] is lost.
   */
  lemma {:induction false} RemoveAt(a: seq<string>, i: nat)
    requires Distinct(a) && i < |a|
    ensures RemoveFromArray(a, a[i]) == a[..i] + a[i + 1..]
    ensures Distinct(RemoveFromArray(a, a[i]))
    ensures forall x :: x in RemoveFromArray(a, a[i]) <==> x in a && x != a[i]
    ensures forall j :: 0 <= j < i ==> RemoveFromArray(a, a[i])[j] == a[j]
  {
    var r := RemoveFromArray(a, a[i]);
    var k := IndexOf(a, a[i]);
    assert k == i;
    forall x
      ensures x in r <==> x in a && x != a[i]
    {
      if x in a && x != a[i] {
        var j :| 0 <= j < |a| && a[j] == x;
        if j < i {
          assert r[j] == x;
        } else {
          assert r[j - 1] == x;
        }
      }
    }
  }

  /** A cursor into a trigger list of the given length moves on and wraps to 0 at the end. */
  function Advance(cursor: nat, length: nat): (next: nat)
    requires cursor < length
    ensures next < length
    ensures next == 0 || next == cursor + 1
  {
    if cursor + 1 == length then 0 else cursor + 1
  }

  /**
   * Half a visit of the round robin: if subreddit `name` still wants
   * requests of type t it gets one poll in the second under the t cursor,
   * and that cursor moves on, wrapping at the end of the t trigger list.
   */
  method PlaceOne(counts: map<string, Demand>, plan: Plan, name: string, t: ItemType, cursor: nat,
                  postTriggers: seq<nat>, commentTriggers: seq<nat>, ghost orig: map<string, Demand>, ghost keys: seq<string>,
                  ghost placed: nat, ghost u: ItemType, ghost otherPlaced: nat, ghost otherCursor: nat)
    returns (counts': map<string, Demand>, plan': Plan, cursor': nat)
    requires name in keys && name in counts
    requires Placed(plan, counts, orig, keys, postTriggers, commentTriggers)
    requires forall k :: k in TriggersOf(t, postTriggers, commentTriggers) ==> k in plan && k <= SECONDS_IN_MINUTE
    requires cursor == 0 || cursor < |TriggersOf(t, postTriggers, commentTriggers)|
    requires counts[name].Of(t) > 0 ==> |TriggersOf(t, postTriggers, commentTriggers)| > 0
    requires u != t && Distinct(TriggersOf(t, postTriggers, commentTriggers))
    requires Spread(plan, TriggersOf(t, postTriggers, commentTriggers), t, placed, cursor)
    requires Spread(plan, TriggersOf(u, postTriggers, commentTriggers), u, otherPlaced, otherCursor)
    ensures Placed(plan', counts', orig, keys, postTriggers, commentTriggers)
    ensures plan'.Keys == plan.Keys
    ensures plan' == if counts[name].Of(t) > 0 then
                       var second := TriggersOf(t, postTriggers, commentTriggers)[cursor];
                       plan[second := plan[second] + [PollEvent(t, name)]]
                     else plan
    ensures counts' == if counts[name].Of(t) > 0 then counts[name := counts[name].Less(t)] else counts
    ensures cursor' == if counts[name].Of(t) > 0 then Advance(cursor, |TriggersOf(t, postTriggers, commentTriggers)|) else cursor
    ensures Spread(plan', TriggersOf(t, postTriggers, commentTriggers), t,
                   placed + (if counts[name].Of(t) > 0 then 1 else 0), cursor')
    ensures Spread(plan', TriggersOf(u, postTriggers, commentTriggers), u, otherPlaced, otherCursor)
  {
    var triggers := TriggersOf(t, postTriggers, commentTriggers);
    counts', plan', cursor' := counts, plan, cursor;
    if counts[name].Of(t) != 0 {
      var second := triggers[cursor];
      PlacePreserves(plan, counts, orig, keys, postTriggers, commentTriggers, name, t, second);
      SpreadPlace(plan, triggers, t, placed, cursor, name);
      SpreadOther(plan, TriggersOf(u, postTriggers, commentTriggers), u, otherPlaced, otherCursor, second,
                  PollEvent(t, name));
      plan' := plan[second := plan[second] + [PollEvent(t, name)]];
      counts' := counts[name := counts[name].Less(t)];
      cursor' := cursor + 1;
    }
    if cursor' == |triggers| {
      cursor' := 0;
    }
  }

  /** How many events of type t a bucket holds. */
  function KindCount(bucket: seq<PollEvent>, t: ItemType): (k: nat)
    ensures k <= |bucket|
  {
    if bucket == [] then 0
    else KindCount(bucket[..|bucket| - 1], t) + (if bucket[|bucket| - 1].kind == t then 1 else 0)
  }

  /**
   * The even spread of the round robin over the trigger seconds of type t:
   * after `placed` events of that type the cursor is at trigger
   * `placed % m`, and trigger j holds one event per full turn over the m
   * triggers, plus one if the current turn has passed it.
   */
  ghost predicate Spread(plan: Plan, triggers: seq<nat>, t: ItemType, placed: nat, cursor: nat) {
    && (|triggers| > 0 ==> cursor == placed % |triggers|)
    && EvenlySpread(plan, triggers, t, placed)
  }

  /**
   * `placed` events of type t dealt in turn over the m trigger seconds,
   * starting at the first: trigger j holds `(placed + m - 1 - j) / m` of
   * them, so no two triggers differ by more than one and the earlier ones
   * get the extra events.
   */
  ghost predicate EvenlySpread(plan: Plan, triggers: seq<nat>, t: ItemType, placed: nat) {
    forall j :: 0 <= j < |triggers| ==>
      triggers[j] in plan && KindCount(plan[triggers[j]], t) == (placed + |triggers| - 1 - j) / |triggers|
  }

  /** One more event in turn moves the share of trigger j up by one exactly when j is the cursor. */
  lemma {:induction false} ShareAfterOneMore(placed: nat, m: nat, j: nat)
    requires j < m
    ensures (placed + m - j) / m == (placed + m - 1 - j) / m + (if j == placed % m then 1 else 0)
  {
    var q, c := placed / m, placed % m;
    var qm := q * m;
    assert placed == qm + c;
    MulSucc(q, m);
    if j < c {
      DivOf(placed + m - 1 - j, m, q + 1, c - 1 - j);
      DivOf(placed + m - j, m, q + 1, c - j);
    } else if j == c {
      DivOf(placed + m - 1 - j, m, q, m - 1);
      DivOf(placed + m - j, m, q + 1, 0);
    } else {
      DivOf(placed + m - 1 - j, m, q, c + m - 1 - j);
      DivOf(placed + m - j, m, q, c + m - j);
    }
  }

  /** After one more event the cursor is at the next trigger, back at the first after the last. */
  lemma {:induction false} CursorAfterOneMore(placed: nat, m: nat)
    requires m > 0
    ensures (placed + 1) % m == Advance(placed % m, m)
  {
    var q, c := placed / m, placed % m;
    var qm := q * m;
    assert placed == qm + c;
    MulSucc(q, m);
    if c + 1 == m {
      DivOf(placed + 1, m, q + 1, 0);
    } else {
      DivOf(placed + 1, m, q, c + 1);
    }
  }

  /** The quotient and remainder of x by m are the unique q and r with x == q·m + r and r < m. */
  lemma {:induction false} DivOf(x: nat, m: nat, q: nat, r: nat)
    requires r < m && x == q * m + r
    ensures x / m == q && x % m == r
  {
    MulSucc(q, m);
    DivExact(x, m, q);
    assert x == (x / m) * m + x % m;
  }

  /** Appending an event adds one to the count of its own type only. */
  lemma {:induction false} KindCountSnoc(bucket: seq<PollEvent>, e: PollEvent, t: ItemType)
    ensures KindCount(bucket + [e], t) == KindCount(bucket, t) + (if e.kind == t then 1 else 0)
  {
    assert (bucket + [e])[..|bucket|] == bucket;
  }

  /** Placing an event of type t at the cursor keeps the spread of type t, one event further on. */
  lemma {:induction false} SpreadPlace(plan: Plan, triggers: seq<nat>, t: ItemType, placed: nat, cursor: nat,
                                       name: string)
    requires Spread(plan, triggers, t, placed, cursor) && Distinct(triggers) && |triggers| > 0
    ensures cursor < |triggers|
    ensures Spread(plan[triggers[cursor] := plan[triggers[cursor]] + [PollEvent(t, name)]], triggers, t,
                   placed + 1, Advance(cursor, |triggers|))
  {
    var m, second := |triggers|, triggers[cursor];
    var plan' := plan[second := plan[second] + [PollEvent(t, name)]];
    KindCountSnoc(plan[second], PollEvent(t, name), t);
    forall j | 0 <= j < m
      ensures triggers[j] in plan' && KindCount(plan'[triggers[j]], t) == (placed + 1 + m - 1 - j) / m
    {
      ShareAfterOneMore(placed, m, j);
    }
    CursorAfterOneMore(placed, m);
  }

  /** Placing an event of another type leaves the spread of type t as it was. */
  lemma {:induction false} SpreadOther(plan: Plan, triggers: seq<nat>, t: ItemType, placed: nat, cursor: nat,
                                       second: nat, e: PollEvent)
    requires Spread(plan, triggers, t, placed, cursor) && second in plan && e.kind != t
    ensures Spread(plan[second := plan[second] + [e]], triggers, t, placed, cursor)
  {
    KindCountSnoc(plan[second], e, t);
  }

  /**
   * One visit of the round robin: subreddit `name` gets a post poll, then
   * a comment poll, each only while it still wants that type.
   */
  method Visit(counts: map<string, Demand>, plan: Plan, name: string, postCursor: nat, commentCursor: nat,
               postTriggers: seq<nat>, commentTriggers: seq<nat>, ghost orig: map<string, Demand>, ghost keys: seq<string>,
               ghost postPlaced: nat, ghost commentPlaced: nat)
    returns (counts': map<string, Demand>, plan': Plan, postCursor': nat, commentCursor': nat)
    requires name in keys && name in counts
    requires Placed(plan, counts, orig, keys, postTriggers, commentTriggers)
    requires forall k :: k in postTriggers ==> k in plan && k <= SECONDS_IN_MINUTE
    requires forall k :: k in commentTriggers ==> k in plan && k <= SECONDS_IN_MINUTE
    requires postCursor == 0 || postCursor < |postTriggers|
    requires commentCursor == 0 || commentCursor < |commentTriggers|
    requires counts[name].Of(Post) > 0 ==> |postTriggers| > 0
    requires counts[name].Of(Comment) > 0 ==> |commentTriggers| > 0
    requires Distinct(postTriggers) && Distinct(commentTriggers)
    requires Spread(plan, postTriggers, Post, postPlaced, postCursor)
    requires Spread(plan, commentTriggers, Comment, commentPlaced, commentCursor)
    ensures Placed(plan', counts', orig, keys, postTriggers, commentTriggers)
    ensures plan'.Keys == plan.Keys
    ensures counts' == counts[name := counts[name].Served()]
    ensures postCursor' == if counts[name].Of(Post) > 0 then Advance(postCursor, |postTriggers|) else postCursor
    ensures commentCursor' == if counts[name].Of(Comment) > 0 then Advance(commentCursor, |commentTriggers|) else commentCursor
    ensures postCursor' == 0 || postCursor' < |postTriggers|
    ensures commentCursor' == 0 || commentCursor' < |commentTriggers|
    ensures Spread(plan', postTriggers, Post, postPlaced + (if counts[name].Of(Post) > 0 then 1 else 0), postCursor')
    ensures Spread(plan', commentTriggers, Comment, commentPlaced + (if counts[name].Of(Comment) > 0 then 1 else 0),
                   commentCursor')
  {
    ghost var postAfter := postPlaced + (if counts[name].Of(Post) > 0 then 1 else 0);
    assert TriggersOf(Post, postTriggers, commentTriggers) == postTriggers;
    assert TriggersOf(Comment, postTriggers, commentTriggers) == commentTriggers;
    var mid: map<string, Demand>;
    var midPlan: Plan;
    mid, midPlan, postCursor' :=
      PlaceOne(counts, plan, name, Post, postCursor, postTriggers, commentTriggers, orig, keys,
               postPlaced, Comment, commentPlaced, commentCursor);
    assert mid[name].Of(Comment) == counts[name].Of(Comment);
    counts', plan', commentCursor' :=
      PlaceOne(mid, midPlan, name, Comment, commentCursor, postTriggers, commentTriggers, orig, keys,
               commentPlaced, Post, postAfter, postCursor');
    ServedInTwoSteps(counts, name, mid, counts');
  }

  /** `Visit`, keeping the spread of both types over their trigger seconds (`Spreads`). */
  method VisitSpread(counts: map<string, Demand>, plan: Plan, name: string, postCursor: nat, commentCursor: nat,
                     postTriggers: seq<nat>, commentTriggers: seq<nat>, ghost orig: map<string, Demand>,
                     ghost keys: seq<string>)
    returns (counts': map<string, Demand>, plan': Plan, postCursor': nat, commentCursor': nat)
    requires name in keys && name in counts
    requires Placed(plan, counts, orig, keys, postTriggers, commentTriggers)
    requires forall k :: k in postTriggers ==> k in plan && k <= SECONDS_IN_MINUTE
    requires forall k :: k in commentTriggers ==> k in plan && k <= SECONDS_IN_MINUTE
    requires postCursor == 0 || postCursor < |postTriggers|
    requires commentCursor == 0 || commentCursor < |commentTriggers|
    requires counts[name].Of(Post) > 0 ==> |postTriggers| > 0
    requires counts[name].Of(Comment) > 0 ==> |commentTriggers| > 0
    requires Distinct(keys) && Spreads(plan, counts, orig, keys, postTriggers, commentTriggers, postCursor, commentCursor)
    ensures Placed(plan', counts', orig, keys, postTriggers, commentTriggers)
    ensures plan'.Keys == plan.Keys
    ensures counts' == counts[name := counts[name].Served()]
    ensures postCursor' == if counts[name].Of(Post) > 0 then Advance(postCursor, |postTriggers|) else postCursor
    ensures commentCursor' == if counts[name].Of(Comment) > 0 then Advance(commentCursor, |commentTriggers|) else commentCursor
    ensures postCursor' == 0 || postCursor' < |postTriggers|
    ensures commentCursor' == 0 || commentCursor' < |commentTriggers|
    ensures Spreads(plan', counts', orig, keys, postTriggers, commentTriggers, postCursor', commentCursor')
  {
    ghost var postPlaced: nat := TypeTotal(orig, keys, Post) - TypeTotal(counts, keys, Post);
    ghost var commentPlaced: nat := TypeTotal(orig, keys, Comment) - TypeTotal(counts, keys, Comment);
    counts', plan', postCursor', commentCursor' :=
      Visit(counts, plan, name, postCursor, commentCursor, postTriggers, commentTriggers, orig, keys,
            postPlaced, commentPlaced);
    VisitSpreads(plan', counts, counts', orig, keys, name, postTriggers, commentTriggers, postCursor', commentCursor',
                 postPlaced, commentPlaced);
  }

  /** Taking one post, then one comment, each only while wanted, is one visit's `Served`. */
  lemma {:induction false} ServedInTwoSteps(counts: map<string, Demand>, name: string, mid: map<string, Demand>,
                                            counts': map<string, Demand>)
    requires name in counts
    requires mid == if counts[name].Of(Post) > 0 then counts[name := counts[name].Less(Post)] else counts
    requires counts' == if mid[name].Of(Comment) > 0 then mid[name := mid[name].Less(Comment)] else mid
    ensures counts' == counts[name := counts[name].Served()]
  {
    var d := counts[name];
    var afterPost := if d.Of(Post) > 0 then d.Less(Post) else d;
    assert mid == counts[name := afterPost];
    var afterBoth := if afterPost.Of(Comment) > 0 then afterPost.Less(Comment) else afterPost;
    assert counts' == counts[name := afterBoth];
  }

  /**
   * After a visit to names[i], the loop splices names[i] out once its
   * demand is used up (`removeFromArray`). This keeps every subreddit with
   * demand left in the list, keeps the list distinct, and leaves the not yet
   * visited front of the list in place.
   */
  method SpliceIfDone(before: map<string, Demand>, after: map<string, Demand>, names: seq<string>, i: nat)
    returns (names': seq<string>)
    requires Distinct(names) && i < |names| && names[i] in before
    requires after.Keys == before.Keys
    requires forall n :: n in before && n != names[i] ==> after[n] == before[n]
    requires forall n :: n in before && before[n] != Demand(0, 0) ==> n in names
    ensures forall n :: n in after && after[n] != Demand(0, 0) ==> n in names'
    ensures Distinct(names') && forall n :: n in names' ==> n in names
    ensures |names'| == if after[names[i]] == Demand(0, 0) then |names| - 1 else |names|
    ensures forall j :: 0 <= j < i ==> names'[j] == names[j]
  {
    names' := names;
    if after[names[i]].post == 0 && after[names[i]].comment == 0 {
      RemoveAt(names, i);
      names' := RemoveFromArray(names, names[i]);
    }
    forall n | n in after && after[n] != Demand(0, 0)
      ensures n in names'
    {
      if n != names[i] {
        assert before[n] == after[n];
      }
    }
  }

  /**
   * The state the round robin keeps between visits: the trigger seconds are
   * buckets of the plan within the minute, a type with no trigger second
   * has no demand left, every subreddit with demand left is still in the
   * (distinct) list, the cursors index their trigger lists, and `Placed`.
   */
  ghost predicate RoundRobin(counts: map<string, Demand>, plan: Plan, names: seq<string>, postCursor: nat, commentCursor: nat,
                             postTriggers: seq<nat>, commentTriggers: seq<nat>, orig: map<string, Demand>, keys: seq<string>,
                             seconds: set<nat>)
  {
    && Distinct(keys) && (forall n :: n in keys <==> n in orig)
    && plan.Keys == seconds
    && (forall k :: k in postTriggers ==> k in seconds && k <= SECONDS_IN_MINUTE)
    && (forall k :: k in commentTriggers ==> k in seconds && k <= SECONDS_IN_MINUTE)
    && (|postTriggers| == 0 ==> forall n :: n in counts ==> counts[n].Of(Post) == 0)
    && (|commentTriggers| == 0 ==> forall n :: n in counts ==> counts[n].Of(Comment) == 0)
    && Distinct(names) && (forall n :: n in names ==> n in keys)
    && (forall n :: n in counts && counts[n] != Demand(0, 0) ==> n in names)
    && (postCursor == 0 || postCursor < |postTriggers|)
    && (commentCursor == 0 || commentCursor < |commentTriggers|)
    && Placed(plan, counts, orig, keys, postTriggers, commentTriggers)
  }

  /**
   * The spread of both types so far: the events placed of each type are
   * the original type total less what is left, and each type is spread
   * evenly over its (distinct) trigger seconds.
   */
  ghost predicate Spreads(plan: Plan, counts: map<string, Demand>, orig: map<string, Demand>, keys: seq<string>,
                          postTriggers: seq<nat>, commentTriggers: seq<nat>, postCursor: nat, commentCursor: nat)
  {
    && (forall n :: n in keys ==> n in counts && n in orig)
    && Distinct(postTriggers) && Distinct(commentTriggers)
    && TypeTotal(counts, keys, Post) <= TypeTotal(orig, keys, Post)
    && TypeTotal(counts, keys, Comment) <= TypeTotal(orig, keys, Comment)
    && Spread(plan, postTriggers, Post, TypeTotal(orig, keys, Post) - TypeTotal(counts, keys, Post), postCursor)
    && Spread(plan, commentTriggers, Comment, TypeTotal(orig, keys, Comment) - TypeTotal(counts, keys, Comment),
              commentCursor)
  }

  /** A visit that placed one event of each type still wanted keeps `Spreads`, with `counts` served once. */
  lemma {:induction false} VisitSpreads(plan: Plan, counts: map<string, Demand>, counts': map<string, Demand>,
                                        orig: map<string, Demand>, keys: seq<string>, name: string, postTriggers: seq<nat>,
                                        commentTriggers: seq<nat>, postCursor: nat, commentCursor: nat,
                                        postPlaced: nat, commentPlaced: nat)
    requires Distinct(keys) && name in keys && (forall n :: n in keys ==> n in counts && n in orig)
    requires Distinct(postTriggers) && Distinct(commentTriggers)
    requires postPlaced + TypeTotal(counts, keys, Post) == TypeTotal(orig, keys, Post)
    requires commentPlaced + TypeTotal(counts, keys, Comment) == TypeTotal(orig, keys, Comment)
    requires Spread(plan, postTriggers, Post, postPlaced + (if counts[name].Of(Post) > 0 then 1 else 0), postCursor)
    requires Spread(plan, commentTriggers, Comment, commentPlaced + (if counts[name].Of(Comment) > 0 then 1 else 0),
                    commentCursor)
    requires counts' == counts[name := counts[name].Served()]
    ensures Spreads(plan, counts', orig, keys, postTriggers, commentTriggers, postCursor, commentCursor)
  {
    TypeTotalAfterUpdate(counts, keys, name, counts[name].Served(), Post);
    TypeTotalAfterUpdate(counts, keys, name, counts[name].Served(), Comment);
    assert forall n :: n in keys ==> n in counts';
  }

  /** A visit followed by the splice keeps the state of the round robin. */
  lemma {:induction false} StepKeepsRoundRobin(counts: map<string, Demand>, plan: Plan, names: seq<string>, postCursor: nat, commentCursor: nat,
                            i: nat, postTriggers: seq<nat>, commentTriggers: seq<nat>, orig: map<string, Demand>,
                            keys: seq<string>, seconds: set<nat>, counts': map<string, Demand>, plan': Plan,
                            names': seq<string>, postCursor': nat, commentCursor': nat)
    requires RoundRobin(counts, plan, names, postCursor, commentCursor, postTriggers, commentTriggers, orig, keys, seconds)
    requires i < |names|
    requires Placed(plan', counts', orig, keys, postTriggers, commentTriggers)
    requires plan'.Keys == plan.Keys
    requires counts' == counts[names[i] := counts[names[i]].Served()]
    requires postCursor' == 0 || postCursor' < |postTriggers|
    requires commentCursor' == 0 || commentCursor' < |commentTriggers|
    requires forall n :: n in counts' && counts'[n] != Demand(0, 0) ==> n in names'
    requires Distinct(names') && forall n :: n in names' ==> n in names
    ensures RoundRobin(counts', plan', names', postCursor', commentCursor', postTriggers, commentTriggers, orig, keys, seconds)
  {
  }

  /**
   * Within a pass, a visit to names[i] serves that subreddit once and no
   * other: the front names[0..i] is still as at the start of the pass, and
   * every subreddit is either untouched or served once.
   */
  lemma {:induction false} StepIsFair(counts: map<string, Demand>, counts': map<string, Demand>, names: seq<string>, names': seq<string>,
                   i: nat, passStart: map<string, Demand>)
    requires Distinct(names) && i < |names| && forall n :: n in names ==> n in counts
    requires counts' == counts[names[i] := counts[names[i]].Served()]
    requires forall j :: 0 <= j <= i ==> names[j] in passStart && counts[names[j]] == passStart[names[j]]
    requires forall n :: n in passStart && n in counts ==> counts[n] == passStart[n] || counts[n] == passStart[n].Served()
    requires i <= |names'| && forall j :: 0 <= j < i ==> names'[j] == names[j]
    ensures forall j :: 0 <= j < i ==> names'[j] in passStart && counts'[names'[j]] == passStart[names'[j]]
    ensures forall n :: n in passStart && n in counts' ==> counts'[n] == passStart[n] || counts'[n] == passStart[n].Served()
  {
    forall j | 0 <= j < i
      ensures counts'[names'[j]] == passStart[names'[j]]
    {
      assert names'[j] == names[j] != names[i];
    }
  }

  /**
   * A visit makes progress: the subreddit visited loses demand, or its
   * demand was used up and it leaves the list of names.
   */
  lemma {:induction false} StepShrinks(counts: map<string, Demand>, keys: seq<string>, name: string, before: nat, after: nat)
    requires forall m :: m in keys ==> m in counts
    requires Distinct(keys) && name in keys
    requires after == if counts[name].Served() == Demand(0, 0) then before - 1 else before
    ensures TotalDemand(counts[name := counts[name].Served()], keys) + after + 1 <= TotalDemand(counts, keys) + before
  {
    TotalAfterUpdate(counts, keys, name, counts[name].Served());
  }

  /**
   * Within a pass, every subreddit of the list at the start of the pass is
   * either still in the unvisited front of the list or has been served once.
   * A visit to cur[i] moves cur[i] from the first group to the second.
   */
  lemma {:induction false} StepServes(passStart: map<string, Demand>, before: map<string, Demand>, after: map<string, Demand>,
                                      names: seq<string>, cur: seq<string>, next: seq<string>, i: nat)
    requires i < |cur| && cur[i] in before && cur[i] in passStart && before[cur[i]] == passStart[cur[i]]
    requires forall n :: n in names ==> n in passStart && n in before
    requires after == before[cur[i] := before[cur[i]].Served()]
    requires i <= |next| && forall j :: 0 <= j < i ==> next[j] == cur[j]
    requires forall n :: n in names ==> n in cur[..i + 1] || before[n] == passStart[n].Served()
    ensures forall n :: n in names ==> n in next[..i] || after[n] == passStart[n].Served()
  {
    forall n | n in names
      ensures n in next[..i] || after[n] == passStart[n].Served()
    {
      if n != cur[i] {
        assert after[n] == before[n];
        if n in cur[..i + 1] {
          var j :| 0 <= j < i + 1 && cur[..i + 1][j] == n;
          assert j < i && next[..i][j] == n;
        }
      }
    }
  }

  /**
   * The body of the inner for-loop: visit names[i], then splice it out if
   * its demand is used up. `passStart` is the demand when the pass began;
   * names[0..i] have not been visited in this pass yet.
   */
  method Step(counts: map<string, Demand>, plan: Plan, names: seq<string>, postCursor: nat, commentCursor: nat, i: nat,
              postTriggers: seq<nat>, commentTriggers: seq<nat>, ghost orig: map<string, Demand>, ghost keys: seq<string>,
              ghost seconds: set<nat>, ghost passStart: map<string, Demand>)
    returns (counts': map<string, Demand>, plan': Plan, names': seq<string>, postCursor': nat, commentCursor': nat)
    requires RoundRobin(counts, plan, names, postCursor, commentCursor, postTriggers, commentTriggers, orig, keys, seconds)
    requires i < |names|
    requires forall j :: 0 <= j <= i ==> names[j] in passStart && counts[names[j]] == passStart[names[j]]
    requires forall n :: n in passStart && n in counts ==> counts[n] == passStart[n] || counts[n] == passStart[n].Served()
    requires Spreads(plan, counts, orig, keys, postTriggers, commentTriggers, postCursor, commentCursor)
    ensures RoundRobin(counts', plan', names', postCursor', commentCursor', postTriggers, commentTriggers, orig, keys, seconds)
    ensures Spreads(plan', counts', orig, keys, postTriggers, commentTriggers, postCursor', commentCursor')
    ensures i - 1 < |names'| && forall n :: n in names' ==> n in names
    ensures TotalDemand(counts', keys) + |names'| + 1 <= TotalDemand(counts, keys) + |names|
    ensures forall j :: 0 <= j < i ==> names'[j] in passStart && counts'[names'[j]] == passStart[names'[j]]
    ensures forall n :: n in passStart && n in counts' ==> counts'[n] == passStart[n] || counts'[n] == passStart[n].Served()
    ensures counts' == counts[names[i] := counts[names[i]].Served()]
    ensures forall j :: 0 <= j < i ==> names'[j] == names[j]
  {
    var currentSubredditName := names[i];
    counts', plan', postCursor', commentCursor' :=
      VisitSpread(counts, plan, currentSubredditName, postCursor, commentCursor, postTriggers, commentTriggers, orig, keys);
    names' := SpliceIfDone(counts, counts', names, i);
    StepKeepsRoundRobin(counts, plan, names, postCursor, commentCursor, i, postTriggers, commentTriggers, orig, keys,
                        seconds, counts', plan', names', postCursor', commentCursor');
    StepIsFair(counts, counts', names, names', i, passStart);
    StepShrinks(counts, keys, currentSubredditName, |names|, |names'|);
  }

  /**
   * One pass of the round robin: visit the remaining subreddits from the
   * last to the first, splicing out each one whose demand is used up. In a
   * pass every subreddit loses at most one request of each type, and the
   * pass makes progress: demand or the list shrinks.
   */
  method Pass(counts: map<string, Demand>, plan: Plan, names: seq<string>, postCursor: nat, commentCursor: nat,
              postTriggers: seq<nat>, commentTriggers: seq<nat>, ghost orig: map<string, Demand>, ghost keys: seq<string>,
              ghost seconds: set<nat>)
    returns (counts': map<string, Demand>, plan': Plan, names': seq<string>, postCursor': nat, commentCursor': nat)
    requires RoundRobin(counts, plan, names, postCursor, commentCursor, postTriggers, commentTriggers, orig, keys, seconds)
    requires Spreads(plan, counts, orig, keys, postTriggers, commentTriggers, postCursor, commentCursor)
    ensures RoundRobin(counts', plan', names', postCursor', commentCursor', postTriggers, commentTriggers, orig, keys, seconds)
    ensures Spreads(plan', counts', orig, keys, postTriggers, commentTriggers, postCursor', commentCursor')
    ensures forall n :: n in names' ==> n in names
    ensures forall n :: n in counts && n in counts' ==> counts'[n] == counts[n] || counts'[n] == counts[n].Served()
    ensures forall n :: n in names ==> n in counts && n in counts' && counts'[n] == counts[n].Served()
    ensures |names| > 0 ==> TotalDemand(counts', keys) + |names'| < TotalDemand(counts, keys) + |names|
  {
    counts', plan', names', postCursor', commentCursor' := counts, plan, names, postCursor, commentCursor;
    var subredditIndex := |names'| - 1;
    assert names'[..subredditIndex + 1] == names;
    while subredditIndex >= 0
      invariant -1 <= subredditIndex < |names'|
      invariant RoundRobin(counts', plan', names', postCursor', commentCursor', postTriggers, commentTriggers, orig, keys, seconds)
      invariant Spreads(plan', counts', orig, keys, postTriggers, commentTriggers, postCursor', commentCursor')
      invariant forall n :: n in names' ==> n in names
      invariant TotalDemand(counts', keys) + |names'| + (|names| - 1 - subredditIndex) <= TotalDemand(counts, keys) + |names|
      invariant forall j :: 0 <= j <= subredditIndex ==> names'[j] in counts && counts'[names'[j]] == counts[names'[j]]
      invariant forall n :: n in counts && n in counts' ==> counts'[n] == counts[n] || counts'[n] == counts[n].Served()
      invariant forall n :: n in names ==> n in counts && n in counts'
      invariant forall n :: n in names ==> n in names'[..subredditIndex + 1] || counts'[n] == counts[n].Served()
      decreases subredditIndex
    {
      ghost var before, cur := counts', names';
      counts', plan', names', postCursor', commentCursor' :=
        Step(counts', plan', names', postCursor', commentCursor', subredditIndex, postTriggers, commentTriggers,
             orig, keys, seconds, counts);
      StepServes(counts, before, counts', names, cur, names', subredditIndex);
      subredditIndex := subredditIndex - 1;
    }
  }

  /** Once the demand is used up, each type is spread evenly over its triggers with its whole original total. */
  lemma {:induction false} SpreadsAtEnd(plan: Plan, counts: map<string, Demand>, orig: map<string, Demand>,
                                        keys: seq<string>, postTriggers: seq<nat>, commentTriggers: seq<nat>,
                                        postCursor: nat, commentCursor: nat)
    requires Spreads(plan, counts, orig, keys, postTriggers, commentTriggers, postCursor, commentCursor)
    requires forall n :: n in counts ==> counts[n] == Demand(0, 0)
    ensures EvenlySpread(plan, postTriggers, Post, TypeTotal(orig, keys, Post))
    ensures EvenlySpread(plan, commentTriggers, Comment, TypeTotal(orig, keys, Comment))
  {
    TypeTotalZero(counts, keys, Post);
    TypeTotalZero(counts, keys, Comment);
  }

  /** Before any placement, with every bucket empty, both types are spread evenly: nothing anywhere. */
  lemma {:induction false} StartSpreads(plan: Plan, orig: map<string, Demand>, keys: seq<string>,
                                        postTriggers: seq<nat>, commentTriggers: seq<nat>)
    requires forall n :: n in keys ==> n in orig
    requires Distinct(postTriggers) && Distinct(commentTriggers)
    requires forall k :: k in postTriggers ==> k in plan && plan[k] == []
    requires forall k :: k in commentTriggers ==> k in plan && plan[k] == []
    ensures Spreads(plan, orig, orig, keys, postTriggers, commentTriggers, 0, 0)
  {
    forall j | 0 <= j < |postTriggers|
      ensures KindCount(plan[postTriggers[j]], Post) == (|postTriggers| - 1 - j) / |postTriggers|
    {
      DivOf(|postTriggers| - 1 - j, |postTriggers|, 0, |postTriggers| - 1 - j);
    }
    forall j | 0 <= j < |commentTriggers|
      ensures KindCount(plan[commentTriggers[j]], Comment) == (|commentTriggers| - 1 - j) / |commentTriggers|
    {
      DivOf(|commentTriggers| - 1 - j, |commentTriggers|, 0, |commentTriggers| - 1 - j);
    }
    if postTriggers != [] {
      DivOf(0, |postTriggers|, 0, 0);
    }
    if commentTriggers != [] {
      DivOf(0, |commentTriggers|, 0, 0);
    }
  }

  /**
   * The round robin of getStreamerEvents: while subreddits remain, make a
   * pass over them. Every demanded request ends up in exactly one bucket of
   * a trigger second of its type, and the table is consumed.
   */
  method AssignBuckets(table: DemandTable, buckets: Plan, postTriggers: seq<nat>, commentTriggers: seq<nat>)
    returns (plan: Plan)
    requires table.Valid()
    requires forall k :: k in buckets ==> buckets[k] == []
    requires forall k :: k in postTriggers ==> k in buckets && k <= SECONDS_IN_MINUTE
    requires forall k :: k in commentTriggers ==> k in buckets && k <= SECONDS_IN_MINUTE
    requires |postTriggers| == 0 ==> forall n :: n in table.counts ==> table.counts[n].post == 0
    requires |commentTriggers| == 0 ==> forall n :: n in table.counts ==> table.counts[n].comment == 0
    requires Distinct(postTriggers) && Distinct(commentTriggers)
    modifies table
    ensures table.Valid()
    ensures plan.Keys == buckets.Keys
    ensures forall n, t :: n in table.names ==> Count(plan, PollEvent(t, n)) == old(table.counts)[n].Of(t)
    ensures forall k, j :: k in plan && 0 <= j < |plan[k]| ==>
              plan[k][j].subreddit in table.names && k in TriggersOf(plan[k][j].kind, postTriggers, commentTriggers)
    ensures forall n :: n in table.counts ==> table.counts[n] == Demand(0, 0)
    ensures EvenlySpread(plan, postTriggers, Post, TypeTotal(old(table.counts), table.names, Post))
    ensures EvenlySpread(plan, commentTriggers, Comment, TypeTotal(old(table.counts), table.names, Comment))
  {
    var counts := table.counts;
    ghost var orig := counts;
    ghost var keys := table.names;
    plan := buckets;
    forall n, t | n in orig ensures Count(plan, PollEvent(t, n)) == 0 {
      CountEmpty(plan, PollEvent(t, n), SECONDS_IN_MINUTE);
    }
    var subredditNames := table.names;
    var postCursor: nat, commentCursor: nat := 0, 0;
    StartSpreads(plan, orig, keys, postTriggers, commentTriggers);
    while |subredditNames| != 0
      invariant RoundRobin(counts, plan, subredditNames, postCursor, commentCursor, postTriggers, commentTriggers, orig, keys, buckets.Keys)
      invariant Spreads(plan, counts, orig, keys, postTriggers, commentTriggers, postCursor, commentCursor)
      decreases TotalDemand(counts, keys) + |subredditNames|
    {
      counts, plan, subredditNames, postCursor, commentCursor :=
        Pass(counts, plan, subredditNames, postCursor, commentCursor, postTriggers, commentTriggers, orig, keys, buckets.Keys);
    }
    SpreadsAtEnd(plan, counts, orig, keys, postTriggers, commentTriggers, postCursor, commentCursor);
    table.counts := counts;
  }

  // ---------------------------------------------------------------------
  // The demand table and the tuner

  /**
   * `numberOfRequestsBySubreddit`: a mutable object from subreddit name to
   * `{post, comment}`; `names` is its key order (`Object.keys`).
   */
  class DemandTable {
    const names: seq<string>
    var counts: map<string, Demand>

    ghost predicate Valid()
      reads this
    {
      Distinct(names) && forall n :: n in counts <==> n in names
    }

    /**
     * `initializeNumberOfRequestsBySubreddit(p, c)`: `{}`, then
     * `table[n] = {post: p, comment: c}` for each name in order.
     */
    constructor WithDemand(names: seq<string>, initial: Demand)
      requires Distinct(names)
      ensures Valid() && this.names == names
      ensures counts == Uniform(names, initial)
    {
      this.names := names;
      var table := map[];
      for i := 0 to |names|
        invariant forall n :: n in table <==> n in names[..i]
        invariant forall n :: n in table ==> table[n] == initial
      {
        table := table[names[i] := initial];
      }
      assert names[..|names|] == names;
      counts := table;
    }

    /**
     * The tuning loop of handleDataStream: every subreddit's demand, in key
     * order, becomes the requests that hold 5/4 of what it delivered.
     */
    method RescaleAll(limit: nat)
      requires Valid() && limit >= 1
      modifies this
      ensures Valid()
      ensures counts == Rescaled(old(counts), limit)
    {
      var observed := counts;
      var table := counts;
      for i := 0 to |names|
        invariant forall n :: n in table <==> n in observed
        invariant forall n :: n in observed ==>
                    table[n] == if n in names[..i] then RescaleDemand(observed[n], limit) else observed[n]
      {
        var currentSubreddit := table[names[i]];
        table := table[names[i] := Demand(Rescale(currentSubreddit.post, limit),
                                          Rescale(currentSubreddit.comment, limit))];
        assert forall n :: n in names[..i + 1] <==> n in names[..i] || n == names[i];
      }
      assert names[..|names|] == names;
      counts := table;
    }

    /** A consumed table, all zero, is the uniform zero demand. */
    lemma {:induction false} ConsumedIsZero()
      requires Valid()
      requires forall n :: n in counts ==> counts[n] == Demand(0, 0)
      ensures counts == Uniform(names, Demand(0, 0))
    {
    }
  }

  /** What handleDataStream did with one observed result. */
  datatype Feedback =
    | Accumulated                 // counted; the tuning cycle is not over
    | Retuned(plan: Plan)         // the callback received the new plan
    | CallbackMissing(plan: Plan) // the new plan was built but no callback was registered (a TypeError)

  /** What a call can change in a tuner: the counters, the callback flag and the demand table. */
  datatype TunerState = TunerState(requestCounter: nat, totalRequests: Option<nat>, callbackRegistered: bool,
                                   counts: map<string, Demand>)

  /** The table once the records of one result have been added to its subreddit's demand. */
  function Observed(counts: map<string, Demand>, data: StreamData): map<string, Demand>
    requires data.subredditName in counts
  {
    counts[data.subredditName := counts[data.subredditName].Plus(data.kind, |data.records|)]
  }

  /**
   * The end of a tuning cycle took the tuner from `s` to `s'` with
   * `feedback`: the demand in `s`, rescaled to the records limit, gives the
   * new plan and the new total, the table is all zero, and the plan goes to
   * the callback when one is registered. The counter and the callback flag
   * stay as they were.
   */
  ghost predicate CycleEnd(s: TunerState, subreddits: seq<string>, recordsLimit: nat, s': TunerState,
                           feedback: Feedback)
    requires recordsLimit >= 1
    requires forall n :: n in subreddits ==> n in s.counts
  {
    var rescaled := Rescaled(s.counts, recordsLimit);
    && s'.requestCounter == s.requestCounter
    && s'.callbackRegistered == s.callbackRegistered
    && !feedback.Accumulated?
    && (feedback.Retuned? <==> s.callbackRegistered)
    && PlanFor(feedback.plan, rescaled, subreddits)
    && s'.totalRequests == Some(TotalDemand(rescaled, subreddits))
    && s'.counts == Uniform(subreddits, Demand(0, 0))
  }

  /** The facts `Retune` establishes one by one make up `CycleEnd`. */
  lemma {:induction false} CycleEnds(s: TunerState, subreddits: seq<string>, recordsLimit: nat, s': TunerState,
                                     feedback: Feedback)
    requires recordsLimit >= 1
    requires forall n :: n in subreddits ==> n in s.counts
    requires s'.requestCounter == s.requestCounter && s'.callbackRegistered == s.callbackRegistered
    requires feedback.Retuned? || feedback.CallbackMissing?
    requires feedback.Retuned? <==> s.callbackRegistered
    requires PlanFor(feedback.plan, Rescaled(s.counts, recordsLimit), subreddits)
    requires s'.totalRequests == Some(TotalDemand(Rescaled(s.counts, recordsLimit), subreddits))
    requires s'.counts == Uniform(subreddits, Demand(0, 0))
    ensures CycleEnd(s, subreddits, recordsLimit, s', feedback)
  {
  }

  /**
   * `handleDataStream` took the tuner from `s` to `s'` with `feedback`: one
   * more request is counted and the result's records are added to its
   * subreddit's demand. On the request that completes the cycle (the counter
   * reaches `totalRequests`) the cycle ends from there; otherwise nothing
   * else changes.
   */
  ghost predicate Handled(s: TunerState, data: StreamData, subreddits: seq<string>, recordsLimit: nat,
                          s': TunerState, feedback: Feedback)
    requires recordsLimit >= 1 && data.subredditName in s.counts
    requires forall n :: n in subreddits ==> n in s.counts
  {
    var counted := s.(requestCounter := s.requestCounter + 1, counts := Observed(s.counts, data));
    if counted.totalRequests == Some(counted.requestCounter) then
      CycleEnd(counted, subreddits, recordsLimit, s', feedback)
    else
      feedback == Accumulated && s' == counted
  }

  /** Whether the next `handleDataStream` call from `s` completes the tuning cycle. */
  predicate EndsCycle(s: TunerState) {
    s.totalRequests == Some(s.requestCounter + 1)
  }

  /** The state `handleDataStream` leaves when it handles `data` from `s`. */
  function Fed(s: TunerState, data: StreamData, subreddits: seq<string>, recordsLimit: nat): (s': TunerState)
    requires recordsLimit >= 1 && data.subredditName in subreddits
    requires forall n :: n in subreddits ==> n in s.counts
    ensures forall n :: n in subreddits ==> n in s'.counts
    ensures s'.requestCounter == s.requestCounter + 1 && s'.callbackRegistered == s.callbackRegistered
  {
    var counts := Observed(s.counts, data);
    if EndsCycle(s) then
      TunerState(s.requestCounter + 1, Some(TotalDemand(Rescaled(counts, recordsLimit), subreddits)),
                 s.callbackRegistered, Uniform(subreddits, Demand(0, 0)))
    else
      s.(requestCounter := s.requestCounter + 1, counts := counts)
  }

  /**
   * `handleDataStream` is deterministic: the state it leaves is `Fed`, it
   * ends the cycle exactly when `EndsCycle`, the plan goes to the callback
   * exactly when one is registered (it throws otherwise), and that plan is
   * built for the demand observed with this very result, rescaled.
   */
  lemma {:induction false} HandledFed(s: TunerState, data: StreamData, subreddits: seq<string>, recordsLimit: nat,
                                      s': TunerState, feedback: Feedback)
    requires recordsLimit >= 1 && data.subredditName in subreddits
    requires forall n :: n in subreddits ==> n in s.counts
    requires Handled(s, data, subreddits, recordsLimit, s', feedback)
    ensures s' == Fed(s, data, subreddits, recordsLimit)
    ensures feedback.Retuned? <==> EndsCycle(s) && s.callbackRegistered
    ensures feedback.CallbackMissing? <==> EndsCycle(s) && !s.callbackRegistered
    ensures !feedback.Accumulated? ==> PlanFor(feedback.plan, Rescaled(Observed(s.counts, data), recordsLimit), subreddits)
  {
    var counted := s.(requestCounter := s.requestCounter + 1, counts := Observed(s.counts, data));
    if EndsCycle(s) {
      assert CycleEnd(counted, subreddits, recordsLimit, s', feedback);
      assert s' == TunerState(counted.requestCounter, s'.totalRequests, counted.callbackRegistered, s'.counts);
    }
  }

  class Tuner {
    const subreddits: seq<string>
    /** `RedditApi.MAX_REQUEST_PER_MINUTE`, a parameter of this model. */
    const quota: nat
    /** `RedditApi.MAX_REQUEST_RECORDS_LIMIT`, a parameter of this model. */
    const recordsLimit: nat
    var requestCounter: nat
    /** `numberOfRequestsBySubreddit`. */
    const demand: DemandTable
    /** `totalRequests`; None while it is still undefined. */
    var totalRequests: Option<nat>
    /** Whether optimizeEvents has stored `streamerCallback`. */
    var callbackRegistered: bool

    ghost predicate Valid()
      reads this, demand
    {
      demand.Valid() && demand.names == subreddits && recordsLimit >= 1
    }

    /** Everything a call can change: the counters, the callback flag and the table. */
    ghost function State(): TunerState
      reads this, demand
    {
      TunerState(requestCounter, totalRequests, callbackRegistered, demand.counts)
    }

    constructor (subreddits: seq<string>, quota: nat, recordsLimit: nat)
      requires Distinct(subreddits) && recordsLimit >= 1
      ensures Valid() && fresh(demand)
      ensures this.subreddits == subreddits && this.quota == quota && this.recordsLimit == recordsLimit
      ensures requestCounter == 0 && totalRequests == None && !callbackRegistered
      ensures demand.counts == Uniform(subreddits, Demand(0, 0))
    {
      this.subreddits := subreddits;
      this.quota := quota;
      this.recordsLimit := recordsLimit;
      requestCounter := 0;
      totalRequests := None;
      callbackRegistered := false;
      demand := new DemandTable.WithDemand(subreddits, Demand(0, 0));
    }

    /** A fresh table giving every subreddit `{post: p, comment: c}`. */
    method InitializeNumberOfRequestsBySubreddit(p: nat, c: nat) returns (table: DemandTable)
      requires Distinct(subreddits)
      ensures fresh(table) && table.Valid() && table.names == subreddits
      ensures table.counts == Uniform(subreddits, Demand(p, c))
    {
      table := new DemandTable.WithDemand(subreddits, Demand(p, c));
    }

    /**
     * The plan for an even split of the quota: POST_PERCENT% for posts and
     * COMMENT_PERCENT% for comments, shared equally by the subreddits. The
     * tuner's own table is not touched.
     */
    method GetInitialStreamerEvents() returns (plan: Plan)
      requires Valid()
      modifies this`totalRequests
      ensures Valid()
      ensures PlanFor(plan, Uniform(subreddits, InitialDemand(quota, |subreddits|)), subreddits)
      ensures totalRequests == Some(|subreddits| * InitialDemand(quota, |subreddits|).Weight())
      ensures 10 * totalRequests.value <= 9 * quota
    {
      var numberOfSubreddits := |subreddits|;
      var postRequestsPerSubreddit := Share(quota, POST_PERCENT, numberOfSubreddits);
      var commentRequestsPerSubreddit := Share(quota, COMMENT_PERCENT, numberOfSubreddits);
      var table := InitializeNumberOfRequestsBySubreddit(postRequestsPerSubreddit, commentRequestsPerSubreddit);
      plan := GetStreamerEvents(table);
      TotalOfUniform(Uniform(subreddits, InitialDemand(quota, numberOfSubreddits)), subreddits,
                     InitialDemand(quota, numberOfSubreddits));
      InitialDemandWithinQuota(quota, numberOfSubreddits);
    }

    /**
     * `getTriggerSeconds`: the seconds f, 2f, ... up to 60 for each spacing.
     */
    method GetTriggerSeconds(postFrequency: Interval, commentFrequency: Interval)
      returns (postTriggers: seq<nat>, commentTriggers: seq<nat>)
      ensures IsTriggerList(postTriggers, postFrequency)
      ensures IsTriggerList(commentTriggers, commentFrequency)
    {
      postTriggers := [];
      if postFrequency.Every? {
        var f := postFrequency.seconds;
        var currentSecond := f;
        while currentSecond <= SECONDS_IN_MINUTE
          invariant currentSecond == (|postTriggers| + 1) * f
          invariant |postTriggers| * f <= SECONDS_IN_MINUTE
          invariant forall i :: 0 <= i < |postTriggers| ==> postTriggers[i] == (i + 1) * f
          decreases SECONDS_IN_MINUTE + f - currentSecond
        {
          MulSucc(|postTriggers| + 1, f);
          postTriggers := postTriggers + [currentSecond];
          currentSecond := currentSecond + f;
        }
        DivExact(SECONDS_IN_MINUTE, f, |postTriggers|);
      }
      commentTriggers := [];
      if commentFrequency.Every? {
        var f := commentFrequency.seconds;
        var currentSecond := f;
        while currentSecond <= SECONDS_IN_MINUTE
          invariant currentSecond == (|commentTriggers| + 1) * f
          invariant |commentTriggers| * f <= SECONDS_IN_MINUTE
          invariant forall i :: 0 <= i < |commentTriggers| ==> commentTriggers[i] == (i + 1) * f
          decreases SECONDS_IN_MINUTE + f - currentSecond
        {
          MulSucc(|commentTriggers| + 1, f);
          commentTriggers := commentTriggers + [currentSecond];
          currentSecond := currentSecond + f;
        }
        DivExact(SECONDS_IN_MINUTE, f, |commentTriggers|);
      }
    }

    /**
     * `getStreamerEvents`: builds the plan for the demand in `table` by a
     * back-to-front round robin over the subreddits with one wrapping cursor
     * per type, consuming the table: every demand is 0 afterwards.
     */
    method GetStreamerEvents(table: DemandTable) returns (plan: Plan)
      requires table.Valid()
      modifies this`totalRequests, table
      ensures table.Valid()
      ensures totalRequests == Some(TotalDemand(old(table.counts), table.names))
      ensures PlanFor(plan, old(table.counts), table.names)
      ensures forall n :: n in table.counts ==> table.counts[n] == Demand(0, 0)
    {
      ghost var orig := table.counts;
      ghost var keys := table.names;
      totalRequests := Some(TotalDemand(table.counts, table.names));
      var postFrequency := Frequency(TypeTotal(table.counts, table.names, Post));
      var commentFrequency := Frequency(TypeTotal(table.counts, table.names, Comment));
      var postTriggers, commentTriggers := GetTriggerSeconds(postFrequency, commentFrequency);
      TriggerListFacts(postTriggers, postFrequency);
      TriggerListFacts(commentTriggers, commentFrequency);
      assert Distinct(postTriggers) && Distinct(commentTriggers);
      assert |postTriggers| == 0 ==> forall n :: n in orig ==> orig[n].post == 0;
      assert |commentTriggers| == 0 ==> forall n :: n in orig ==> orig[n].comment == 0;

      // one empty bucket per distinct trigger second
      var buckets := map s | s in postTriggers + commentTriggers :: [];
      plan := AssignBuckets(table, buckets, postTriggers, commentTriggers);
      assert forall k :: k in plan <==> k in postTriggers || k in commentTriggers by {
        assert plan.Keys == buckets.Keys;
      }
      AssignedIsPlanFor(plan, orig, keys, postTriggers, commentTriggers);
    }

    /** `optimizeEvents`: stores the callback that receives the retuned plan. */
    method OptimizeEvents()
      modifies this`callbackRegistered
      ensures callbackRegistered
    {
      callbackRegistered := true;
    }

    /**
     * The end of a tuning cycle in `handleDataStream`: every demand is
     * recomputed from the observed record counts and the plan for it goes to
     * the callback, or a TypeError is thrown when none is registered.
     */
    method Retune() returns (feedback: Feedback)
      requires Valid()
      modifies this`totalRequests, demand
      ensures Valid()
      ensures feedback.Retuned? || feedback.CallbackMissing?
      ensures feedback.Retuned? <==> callbackRegistered
      ensures PlanFor(feedback.plan, Rescaled(old(demand.counts), recordsLimit), subreddits)
      ensures totalRequests == Some(TotalDemand(Rescaled(old(demand.counts), recordsLimit), subreddits))
      ensures demand.counts == Uniform(subreddits, Demand(0, 0))
    {
      demand.RescaleAll(recordsLimit);
      var plan := GetStreamerEvents(demand);
      demand.ConsumedIsZero();
      if callbackRegistered {
        feedback := Retuned(plan);
      } else {
        feedback := CallbackMissing(plan);
      }
    }

    /**
     * `handleDataStream`: counts one observed result. On the call that
     * completes the tuning cycle every demand is recomputed from the observed
     * record counts and the plan for it goes to the callback.
     */
    method HandleDataStream(data: StreamData) returns (feedback: Feedback)
      requires Valid() && data.subredditName in demand.counts
      modifies this, demand
      ensures Valid()
      ensures Handled(old(State()), data, subreddits, recordsLimit, State(), feedback)
    {
      ghost var s := State();
      var current := demand.counts[data.subredditName];
      demand.counts := demand.counts[data.subredditName := current.Plus(data.kind, |data.records|)];
      requestCounter := requestCounter + 1;
      ghost var counted := s.(requestCounter := s.requestCounter + 1, counts := Observed(s.counts, data));
      assert State() == counted;
      if totalRequests == Some(requestCounter) {
        feedback := Retune();
        CycleEnds(counted, subreddits, recordsLimit, State(), feedback);
      } else {
        feedback := Accumulated;
      }
    }
  }
}
