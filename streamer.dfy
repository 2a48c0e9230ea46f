/**
 * The streamer: a list of subscribers that receive published stream data,
 * a once-a-second job that runs the polls of the active plan, a cache that
 * keeps already seen records from being published again, and the swap to
 * the tuner's plan once the tuning cycle is over.
 */
module Streamer {
  import opened Types
  import opened Plans
  import opened Cache
  import Tuner

  /** The limit of every poll the job and the preload issue. */
  const STREAM_LIMIT: nat := 100
  const STREAM_EVENT: string := "stream"
  const PRELOAD_EVENT: string := "preload"
  /** The subscriber name under which the tuner receives the stream. */
  const TUNER_NAME: string := "tuner"
  /** The counter wraps to 1 once it has passed this value. */
  const LAST_SECOND: nat := 60

  /** A subscriber's `events`: `'all'` or the list of event names it wants. */
  datatype EventFilter = All | Only(names: seq<string>) {
    predicate Accepts(event: string) {
      All? || event in names
    }
  }

  /**
   * A subscriber's `callback`: the tuner's `handleDataStream`, or a callback
   * outside this model, told apart by a tag.
   */
  datatype Handler = TunerFeed | External(tag: string)

  datatype Subscriber = Subscriber(name: string, callback: Handler, events: EventFilter)

  /** One `processStream(subredditName, type, event, limit)` call. */
  datatype StreamCall = StreamCall(subreddit: string, kind: ItemType, event: string, limit: nat)

  /** A job `startStreamer` scheduled; `cancelled` once it has been cancelled. */
  datatype Job = Job(events: Plan, cancelled: bool)

  // ---------------------------------------------------------------------
  // Subscribers

  /** The subscribers among the first n that `publish` calls for `event`, in list order. */
  function AudienceAmong(subs: seq<Subscriber>, n: nat, event: string): (r: seq<Subscriber>)
    requires n <= |subs|
    ensures |r| <= n
  {
    if n == 0 then []
    else AudienceAmong(subs, n - 1, event) + (if subs[n - 1].events.Accepts(event) then [subs[n - 1]] else [])
  }

  /** The subscribers `publish` calls for `event`, in list order. */
  function Audience(subs: seq<Subscriber>, event: string): (r: seq<Subscriber>)
    ensures |r| <= |subs|
  {
    AudienceAmong(subs, |subs|, event)
  }

  /** The audience among the first n is exactly those of them that accept the event. */
  lemma {:induction false} AudienceAmongMembers(subs: seq<Subscriber>, n: nat, event: string)
    requires n <= |subs|
    ensures forall s :: s in AudienceAmong(subs, n, event) <==> s in subs[..n] && s.events.Accepts(event)
  {
    if n > 0 {
      AudienceAmongMembers(subs, n - 1, event);
      assert subs[..n] == subs[..n - 1] + [subs[n - 1]];
    }
  }

  /** The audience is exactly the subscribers that accept the event. */
  lemma {:induction false} AudienceMembers(subs: seq<Subscriber>, event: string)
    ensures forall s :: s in Audience(subs, event) <==> s in subs && s.events.Accepts(event)
  {
    AudienceAmongMembers(subs, |subs|, event);
    assert subs[..|subs|] == subs;
  }

  /**
   * The audience among the first i subscribers starts the audience among the
   * first j >= i; if subscriber i accepts the event, it is in the latter when j > i.
   */
  lemma {:induction false} AudienceGrows(subs: seq<Subscriber>, i: nat, j: nat, event: string)
    requires i <= j <= |subs|
    ensures AudienceAmong(subs, i, event) <= AudienceAmong(subs, j, event)
    ensures i < j && subs[i].events.Accepts(event) ==> subs[i] in AudienceAmong(subs, j, event)
  {
    if i < j {
      AudienceGrows(subs, i, j - 1, event);
    }
  }

  /** The list `unsuscribe(name)` leaves: every entry not called `name`, in order. */
  function Without(subs: seq<Subscriber>, name: string): (r: seq<Subscriber>)
    ensures |r| <= |subs|
    ensures forall s :: s in r ==> s.name != name
  {
    FilterMembers(subs, (s: Subscriber) => s.name != name);
    Filter(subs, (s: Subscriber) => s.name != name)
  }

  /** Unsubscribing drops exactly the entries with that name. */
  lemma {:induction false} WithoutMembers(subs: seq<Subscriber>, name: string)
    ensures forall s :: s in Without(subs, name) <==> s in subs && s.name != name
  {
    FilterMembers(subs, (s: Subscriber) => s.name != name);
  }

  /** Unsubscribing a name twice is unsubscribing it once. */
  lemma {:induction false} WithoutIdempotent(subs: seq<Subscriber>, name: string)
    ensures Without(Without(subs, name), name) == Without(subs, name)
  {
    FilterMembers(subs, (s: Subscriber) => s.name != name);
    FilterKeepsAll(Without(subs, name), (s: Subscriber) => s.name != name);
  }

  /** Unsubscribing keeps the relative order of the rest: it splits at any point. */
  lemma {:induction false} WithoutSplits(a: seq<Subscriber>, b: seq<Subscriber>, name: string)
    ensures Without(a + b, name) == Without(a, name) + Without(b, name)
  {
    FilterAppend(a, b, (s: Subscriber) => s.name != name);
  }

  /** An entry subscribed after the others is kept or dropped on its own name alone. */
  lemma {:induction false} WithoutAfterSuscribe(subs: seq<Subscriber>, s: Subscriber, name: string)
    ensures Without(subs + [s], name) == Without(subs, name) + (if s.name != name then [s] else [])
  {
    FilterSnoc(subs, s, (x: Subscriber) => x.name != name);
  }

  /** No entry that feeds the tuner takes `event`. */
  ghost predicate TunerDeaf(subs: seq<Subscriber>, event: string) {
    forall s :: s in subs && s.callback == TunerFeed ==> !s.events.Accepts(event)
  }

  /** `after` is `before`, or `before` once the tuner's subscription has been dropped. */
  ghost predicate SameOrUntuned(before: seq<Subscriber>, after: seq<Subscriber>) {
    after == before || after == Without(before, TUNER_NAME)
  }

  /**
   * What the publishes since the subscribers `subs0` and the jobs `jobs0`
   * did to them: nothing, or one retune or more. Each retune dropped the
   * tuner's entries and cancelled the running job, so `jobs0` survive with
   * their running job cancelled, and the job that runs now has the plan the
   * tuner built for the demand `tuned` it observed, rescaled.
   */
  ghost predicate Retuning(subs0: seq<Subscriber>, jobs0: seq<Job>, subs: seq<Subscriber>, jobs: seq<Job>,
                           tuned: map<string, Demand>, subreddits: seq<string>, recordsLimit: nat)
  {
    || (subs == subs0 && jobs == jobs0)
    || (&& subs == Without(subs0, TUNER_NAME)
        && |jobs0| < |jobs| && jobs[..|jobs0|] == CancelCurrent(jobs0)
        && RunsTunedPlan(jobs, tuned, subreddits, recordsLimit))
  }

  /** The last job runs a plan the tuner built for the demand `tuned` of the subreddits, rescaled to the records limit. */
  ghost predicate RunsTunedPlan(jobs: seq<Job>, tuned: map<string, Demand>, subreddits: seq<string>, recordsLimit: nat) {
    && jobs != [] && recordsLimit >= 1
    && (forall n :: n in subreddits ==> n in tuned)
    && Tuner.PlanFor(jobs[|jobs| - 1].events, Tuner.Rescaled(tuned, recordsLimit), subreddits)
  }

  /** One retune to the plan built for `tuned` is a `Retuning`. */
  lemma {:induction false} RetuneRuns(subs0: seq<Subscriber>, jobs0: seq<Job>, plan: Plan, tuned: map<string, Demand>,
                                      subreddits: seq<string>, recordsLimit: nat)
    requires recordsLimit >= 1 && forall n :: n in subreddits ==> n in tuned
    requires Tuner.PlanFor(plan, Tuner.Rescaled(tuned, recordsLimit), subreddits)
    ensures Retuning(subs0, jobs0, Without(subs0, TUNER_NAME), CancelCurrent(jobs0) + [Job(plan, false)], tuned,
                     subreddits, recordsLimit)
  {
    var jobs := CancelCurrent(jobs0) + [Job(plan, false)];
    assert jobs[..|jobs0|] == CancelCurrent(jobs0);
  }

  /**
   * Two runs of publishes in a row are one run: `Retuning` composes, and
   * the plan that runs is the second run's if it retuned, else the first's.
   */
  lemma {:induction false} RetuningTrans(subs0: seq<Subscriber>, jobs0: seq<Job>, subs1: seq<Subscriber>,
                                         jobs1: seq<Job>, tuned1: map<string, Demand>, subs2: seq<Subscriber>,
                                         jobs2: seq<Job>, tuned2: map<string, Demand>, subreddits: seq<string>,
                                         recordsLimit: nat)
    requires Retuning(subs0, jobs0, subs1, jobs1, tuned1, subreddits, recordsLimit)
    requires Retuning(subs1, jobs1, subs2, jobs2, tuned2, subreddits, recordsLimit)
    ensures Retuning(subs0, jobs0, subs2, jobs2, if subs2 == subs1 && jobs2 == jobs1 then tuned1 else tuned2,
                     subreddits, recordsLimit)
  {
    if subs1 != subs0 || jobs1 != jobs0 {
      if subs2 != subs1 || jobs2 != jobs1 {
        WithoutIdempotent(subs0, TUNER_NAME);
        assert jobs2[..|jobs0|] == jobs2[..|jobs1|][..|jobs0|];
        assert CancelCurrent(jobs1)[..|jobs0|] == jobs1[..|jobs0|];
      }
    }
  }

  /** None of the entries is the tuner's `handleDataStream`. */
  ghost predicate NoTuner(subs: seq<Subscriber>) {
    forall s :: s in subs ==> s.callback != TunerFeed
  }

  /** How many of the entries are the tuner's `handleDataStream`. */
  function TunerCalls(subs: seq<Subscriber>): (k: nat)
    ensures k <= |subs|
  {
    if subs == [] then 0
    else TunerCalls(subs[..|subs| - 1]) + (if subs[|subs| - 1].callback == TunerFeed then 1 else 0)
  }

  /** No entry feeds the tuner exactly when the count of tuner entries is zero. */
  lemma {:induction false} NoTunerCalls(subs: seq<Subscriber>)
    ensures TunerCalls(subs) == 0 <==> forall s :: s in subs ==> s.callback != TunerFeed
  {
    if subs != [] {
      var n := |subs| - 1;
      NoTunerCalls(subs[..n]);
      assert subs == subs[..n] + [subs[n]];
    }
  }

  /** The requests a run of publishes counted in the tuner: its calls in each publish, added up. */
  function TunerCallsAll(invoked: seq<seq<Subscriber>>): (k: nat) {
    if invoked == [] then 0
    else TunerCallsAll(invoked[..|invoked| - 1]) + TunerCalls(invoked[|invoked| - 1])
  }

  /** One more publish adds its own tuner calls. */
  lemma {:induction false} TunerCallsAllSnoc(invoked: seq<seq<Subscriber>>, x: seq<Subscriber>)
    ensures TunerCallsAll(invoked + [x]) == TunerCallsAll(invoked) + TunerCalls(x)
  {
    assert (invoked + [x])[..|invoked|] == invoked;
  }

  /** The subscribers a publish called before it stopped make no more tuner calls than its whole audience. */
  lemma {:induction false} TunerCallsPrefix(a: seq<Subscriber>, b: seq<Subscriber>)
    requires a <= b
    ensures TunerCalls(a) <= TunerCalls(b)
    decreases |b|
  {
    if |a| < |b| {
      var n := |b| - 1;
      assert a <= b[..n];
      TunerCallsPrefix(a, b[..n]);
    } else {
      assert a == b;
    }
  }

  /**
   * When every entry that feeds the tuner is named 'tuner', as the tuner
   * subscribes itself, the retune's `unsuscribe('tuner')` leaves none that
   * does: no later publish reaches the tuner.
   */
  lemma {:induction false} RetuneDetachesTuner(subs: seq<Subscriber>, event: string)
    requires forall s :: s in subs && s.callback == TunerFeed ==> s.name == TUNER_NAME
    ensures forall s :: s in Without(subs, TUNER_NAME) ==> s.callback != TunerFeed
    ensures TunerCalls(Audience(Without(subs, TUNER_NAME), event)) == 0
  {
    WithoutMembers(subs, TUNER_NAME);
    AudienceMembers(Without(subs, TUNER_NAME), event);
    NoTunerCalls(Audience(Without(subs, TUNER_NAME), event));
  }

  /**
   * A publish whose audience is `audience` called `invoked`: all of it, or,
   * when a callback threw (`aborted`), the audience up to and including the
   * tuner call that threw.
   */
  ghost predicate Delivered(invoked: seq<Subscriber>, aborted: bool, audience: seq<Subscriber>) {
    if aborted then invoked <= audience && invoked != [] && invoked[|invoked| - 1].callback == TunerFeed
    else invoked == audience
  }

  /**
   * A publish in a run that started with the subscribers `subs0` called
   * `invoked`: it was delivered to the audience of `subs0`, or to that of
   * `subs0` once a retune had dropped the tuner.
   */
  ghost predicate Reached(invoked: seq<Subscriber>, aborted: bool, subs0: seq<Subscriber>, event: string) {
    || Delivered(invoked, aborted, Audience(subs0, event))
    || Delivered(invoked, aborted, Audience(Without(subs0, TUNER_NAME), event))
  }

  /** A publish reached from the subscribers a retune left is reached from those the run started with. */
  lemma {:induction false} ReachedAfterRetune(invoked: seq<Subscriber>, aborted: bool, subs0: seq<Subscriber>,
                                              subs: seq<Subscriber>, event: string)
    requires SameOrUntuned(subs0, subs) && Reached(invoked, aborted, subs, event)
    ensures Reached(invoked, aborted, subs0, event)
  {
    WithoutIdempotent(subs0, TUNER_NAME);
  }

  // ---------------------------------------------------------------------
  // What the tuner is handed

  /**
   * The tuner's state, with the demand `tuned` that its last retune
   * observed, which is the demand the plan that retune sent was built for.
   */
  datatype Feeding = Feeding(state: Tuner.TunerState, tuned: map<string, Demand>)

  /**
   * One call of `handleDataStream` with `data`: the tuner moves on as
   * `Tuner.Fed` says, and when that call ends a tuning cycle with a callback
   * registered, it retunes for the demand it observed with `data` counted.
   */
  function Feed(f: Feeding, data: StreamData, subreddits: seq<string>, recordsLimit: nat): (f': Feeding)
    requires recordsLimit >= 1 && data.subredditName in subreddits && Covers(f, subreddits)
    ensures Covers(f', subreddits)
    ensures f'.state.requestCounter == f.state.requestCounter + 1
    ensures f'.state.callbackRegistered == f.state.callbackRegistered
    ensures !f.state.callbackRegistered ==> f'.tuned == f.tuned
  {
    Feeding(Tuner.Fed(f.state, data, subreddits, recordsLimit),
            if Tuner.EndsCycle(f.state) && f.state.callbackRegistered then Tuner.Observed(f.state.counts, data)
            else f.tuned)
  }

  /** Every result is about one of the subreddits. */
  ghost predicate About(published: seq<StreamData>, subreddits: seq<string>) {
    forall d :: d in published ==> d.subredditName in subreddits
  }

  /** The tuner's table holds every subreddit. */
  ghost predicate Covers(f: Feeding, subreddits: seq<string>) {
    forall n :: n in subreddits ==> n in f.state.counts
  }

  /** Calls of `handleDataStream` with each of `handed` in turn. */
  function FeedAll(f: Feeding, handed: seq<StreamData>, subreddits: seq<string>, recordsLimit: nat): (f': Feeding)
    requires recordsLimit >= 1 && About(handed, subreddits) && Covers(f, subreddits)
    ensures Covers(f', subreddits)
    ensures f'.state.requestCounter == f.state.requestCounter + |handed|
    ensures f'.state.callbackRegistered == f.state.callbackRegistered
    ensures !f.state.callbackRegistered ==> f'.tuned == f.tuned
    decreases |handed|
  {
    if handed == [] then f
    else FeedAll(Feed(f, handed[0], subreddits, recordsLimit), handed[1..], subreddits, recordsLimit)
  }

  /** Two runs of calls in a row do to the tuner what the joined run does. */
  lemma {:induction false} FeedAllAppend(f: Feeding, a: seq<StreamData>, b: seq<StreamData>, subreddits: seq<string>,
                                         recordsLimit: nat)
    requires recordsLimit >= 1 && About(a, subreddits) && About(b, subreddits) && Covers(f, subreddits)
    ensures About(a + b, subreddits)
    ensures FeedAll(f, a + b, subreddits, recordsLimit)
            == FeedAll(FeedAll(f, a, subreddits, recordsLimit), b, subreddits, recordsLimit)
    decreases |a|
  {
    if a == [] {
      assert a + b == b;
    } else {
      assert (a + b)[0] == a[0] && (a + b)[1..] == a[1..] + b;
      FeedAllAppend(Feed(f, a[0], subreddits, recordsLimit), a[1..], b, subreddits, recordsLimit);
    }
  }

  /** One more call extends the run by itself. */
  lemma {:induction false} FeedAllSnoc(f: Feeding, handed: seq<StreamData>, data: StreamData, subreddits: seq<string>,
                                       recordsLimit: nat)
    requires recordsLimit >= 1 && About(handed, subreddits) && Covers(f, subreddits)
    requires data.subredditName in subreddits
    ensures About(handed + [data], subreddits)
    ensures FeedAll(f, handed + [data], subreddits, recordsLimit)
            == Feed(FeedAll(f, handed, subreddits, recordsLimit), data, subreddits, recordsLimit)
  {
    FeedAllAppend(f, handed, [data], subreddits, recordsLimit);
  }

  /** `k` copies of `data`: what a publish that called `k` tuner entries hands the tuner. */
  function Repeat(data: StreamData, k: nat): (r: seq<StreamData>)
    ensures |r| == k && forall d :: d in r ==> d == data
  {
    seq(k, _ => data)
  }

  /**
   * What a run of publishes hands the tuner, in order: the result of
   * publish k, `published[k]`, once for each tuner entry among the
   * subscribers it called, `invoked[k]`.
   */
  function Handed(published: seq<StreamData>, invoked: seq<seq<Subscriber>>): (r: seq<StreamData>)
    requires |published| == |invoked|
    ensures forall d :: d in r ==> d in published
  {
    if published == [] then []
    else
      var n := |published| - 1;
      Handed(published[..n], invoked[..n]) + Repeat(published[n], TunerCalls(invoked[n]))
  }

  /** One more publish extends what the run hands the tuner by its own share. */
  lemma {:induction false} HandedSnoc(published: seq<StreamData>, invoked: seq<seq<Subscriber>>, data: StreamData,
                                      called: seq<Subscriber>)
    requires |published| == |invoked|
    ensures Handed(published + [data], invoked + [called]) == Handed(published, invoked) + Repeat(data, TunerCalls(called))
  {
    assert (published + [data])[..|published|] == published;
    assert (invoked + [called])[..|invoked|] == invoked;
  }

  /** Two runs of publishes in a row hand the tuner what the joined run hands it. */
  lemma {:induction false} HandedAppend(a: seq<StreamData>, aInvoked: seq<seq<Subscriber>>, b: seq<StreamData>,
                                        bInvoked: seq<seq<Subscriber>>)
    requires |a| == |aInvoked| && |b| == |bInvoked|
    ensures Handed(a + b, aInvoked + bInvoked) == Handed(a, aInvoked) + Handed(b, bInvoked)
  {
    if b == [] {
      assert a + b == a && aInvoked + bInvoked == aInvoked;
    } else {
      var n := |b| - 1;
      var ab, abInvoked := a + b, aInvoked + bInvoked;
      assert ab[..|a| + n] == a + b[..n] && abInvoked[..|a| + n] == aInvoked + bInvoked[..n];
      assert ab[|a| + n] == b[n] && abInvoked[|a| + n] == bInvoked[n];
      var last := Repeat(b[n], TunerCalls(bInvoked[n]));
      assert Handed(ab, abInvoked) == Handed(a + b[..n], aInvoked + bInvoked[..n]) + last;
      assert Handed(b, bInvoked) == Handed(b[..n], bInvoked[..n]) + last;
      HandedAppend(a, aInvoked, b[..n], bInvoked[..n]);
    }
  }

  /** A run hands the tuner one result per tuner call it made. */
  lemma {:induction false} HandedLength(published: seq<StreamData>, invoked: seq<seq<Subscriber>>)
    requires |published| == |invoked|
    ensures |Handed(published, invoked)| == TunerCallsAll(invoked)
  {
    if published != [] {
      var n := |published| - 1;
      HandedLength(published[..n], invoked[..n]);
    }
  }

  /**
   * Whether `calls` more calls of `handleDataStream` from `s`, none of them
   * retuning, include one that throws: with no callback registered, one of
   * them brings the counter to `totalRequests`, which ends the cycle with no
   * callback to call.
   */
  predicate Overruns(s: Tuner.TunerState, calls: int) {
    && !s.callbackRegistered && s.totalRequests.Some?
    && s.requestCounter < s.totalRequests.value <= s.requestCounter + calls
  }

  /**
   * Whether `calls` tuner calls from `state0`, which took the tuner to `s`,
   * threw (`aborted`): exactly when they overran the cycle with no callback,
   * the last of them then reaching `totalRequests`. Until a throw, with no
   * callback, `totalRequests` stays.
   */
  ghost predicate CallsThrew(aborted: bool, state0: Tuner.TunerState, calls: nat, s: Tuner.TunerState) {
    && (aborted <==> Overruns(state0, calls))
    && (aborted ==> state0.totalRequests == Some(s.requestCounter))
    && (!aborted && !state0.callbackRegistered ==> s.totalRequests == state0.totalRequests)
  }

  /**
   * One more tuner call, after `k` calls from `state0` that did not throw,
   * throws exactly when the `k + 1` calls overrun the cycle: it ends the cycle
   * with no callback registered.
   */
  lemma {:induction false} FeedOverruns(state0: Tuner.TunerState, k: nat, f: Feeding, data: StreamData,
                                        subreddits: seq<string>, recordsLimit: nat, f': Feeding)
    requires recordsLimit >= 1 && data.subredditName in subreddits && Covers(f, subreddits)
    requires f.state.requestCounter == state0.requestCounter + k
    requires f.state.callbackRegistered == state0.callbackRegistered
    requires CallsThrew(false, state0, k, f.state)
    requires f' == Feed(f, data, subreddits, recordsLimit)
    ensures CallsThrew(Tuner.EndsCycle(f.state) && !f.state.callbackRegistered, state0, k + 1, f'.state)
  {
  }

  /** The tuner calls of `publishes` publishes that call `perPublish` tuner entries each. */
  function RunCalls(perPublish: nat, publishes: nat): (calls: nat)
    ensures publishes == 0 ==> calls == 0
  {
    if publishes == 0 then 0 else RunCalls(perPublish, publishes - 1) + perPublish
  }

  /** More publishes make at least as many tuner calls. */
  lemma {:induction false} RunCallsGrow(perPublish: nat, m: nat, n: nat)
    requires m <= n
    ensures RunCalls(perPublish, m) <= RunCalls(perPublish, n)
    decreases n
  {
    if m < n {
      RunCallsGrow(perPublish, m, n - 1);
    }
  }

  /**
   * Whether a run of `publishes` publishes from the tuner state `state0`,
   * each calling `perPublish` tuner entries until one throws, threw
   * (`failed`): exactly when those calls overran the cycle with no callback.
   * Until then `totalRequests` stays and each publish counts `perPublish`
   * requests, leaving the tuner at `final`.
   */
  ghost predicate ThrewWhen(failed: bool, state0: Tuner.TunerState, perPublish: nat, publishes: nat,
                            final: Tuner.TunerState)
  {
    && (failed <==> Overruns(state0, RunCalls(perPublish, publishes)))
    && (!failed && !state0.callbackRegistered ==>
          && final.totalRequests == state0.totalRequests
          && final.requestCounter == state0.requestCounter + RunCalls(perPublish, publishes))
  }

  /**
   * One more publish, from `mid`, that threw exactly when its own tuner calls
   * overran the cycle, extends the run by itself.
   */
  lemma {:induction false} ThrewWhenStep(failed: bool, aborted: bool, state0: Tuner.TunerState, perPublish: nat,
                                         publishes: nat, mid: Tuner.TunerState, final: Tuner.TunerState)
    requires ThrewWhen(failed, state0, perPublish, publishes, mid)
    requires mid.callbackRegistered == state0.callbackRegistered
    requires aborted ==> !state0.callbackRegistered
    requires !state0.callbackRegistered ==>
               && (aborted <==> Overruns(mid, perPublish))
               && (!aborted ==> && final.totalRequests == mid.totalRequests
                                && final.requestCounter == mid.requestCounter + perPublish)
    ensures ThrewWhen(failed || aborted, state0, perPublish, publishes + 1, final)
  {
    assert RunCalls(perPublish, publishes + 1) == RunCalls(perPublish, publishes) + perPublish;
  }

  // ---------------------------------------------------------------------
  // Runs of publishes

  /**
   * Calls of `handleDataStream` with each of `handed` in turn take the tuner,
   * and the demand its last retune observed, from `start` to `final`.
   */
  ghost predicate Handing(start: Feeding, handed: seq<StreamData>, final: Feeding, subreddits: seq<string>,
                          recordsLimit: nat)
  {
    && recordsLimit >= 1 && About(handed, subreddits) && Covers(start, subreddits)
    && final == FeedAll(start, handed, subreddits, recordsLimit)
  }

  /**
   * What publishes that started from the subscribers `subs0`, the jobs
   * `jobs0` and the tuner state `state0` left as `subs`, `jobs` and `state`:
   * `subs0` and `jobs0`, or what retunes left, the last retune observing
   * `tuned` (`prior` when none ran). Something threw (`threw`) only without
   * a callback registered, and without one the subscribers and jobs did not
   * change. When no tuner entry takes `event`, nothing threw and nothing
   * changed, the tuner included.
   */
  ghost predicate Settled(subs0: seq<Subscriber>, jobs0: seq<Job>, state0: Tuner.TunerState, prior: map<string, Demand>,
                          subs: seq<Subscriber>, jobs: seq<Job>, state: Tuner.TunerState, tuned: map<string, Demand>,
                          event: string, threw: bool, subreddits: seq<string>, recordsLimit: nat)
  {
    && Retuning(subs0, jobs0, subs, jobs, tuned, subreddits, recordsLimit)
    && (jobs == jobs0 ==> tuned == prior)
    && (threw ==> !state0.callbackRegistered)
    && (!state0.callbackRegistered ==> subs == subs0 && jobs == jobs0)
    && (TunerDeaf(subs0, event) ==> !threw && subs == subs0 && jobs == jobs0 && state == state0)
  }

  /** Two runs of publishes in a row, the tuner keeping its callback flag, are one run. */
  lemma {:induction false} SettledTrans(subs0: seq<Subscriber>, jobs0: seq<Job>, state0: Tuner.TunerState,
                                        prior: map<string, Demand>, subs1: seq<Subscriber>, jobs1: seq<Job>,
                                        state1: Tuner.TunerState, tuned1: map<string, Demand>, threw1: bool,
                                        subs2: seq<Subscriber>, jobs2: seq<Job>, state2: Tuner.TunerState,
                                        tuned2: map<string, Demand>, threw2: bool, event: string,
                                        subreddits: seq<string>, recordsLimit: nat)
    requires Settled(subs0, jobs0, state0, prior, subs1, jobs1, state1, tuned1, event, threw1, subreddits, recordsLimit)
    requires Settled(subs1, jobs1, state1, tuned1, subs2, jobs2, state2, tuned2, event, threw2, subreddits, recordsLimit)
    requires state1.callbackRegistered == state0.callbackRegistered
    ensures Settled(subs0, jobs0, state0, prior, subs2, jobs2, state2, tuned2, event, threw1 || threw2, subreddits,
                    recordsLimit)
  {
    RetuningTrans(subs0, jobs0, subs1, jobs1, tuned1, subs2, jobs2, tuned2, subreddits, recordsLimit);
  }

  /**
   * What one publish of `data` under `event` did, from the subscribers
   * `subs0`, the jobs `jobs0` and the tuner state `state0`: it called
   * `invoked`, the whole audience or, when `aborted`, the audience up to a
   * tuner call that threw; each tuner call counted one request and handed
   * `data` to the tuner, taking it to `final`; and it left the subscribers
   * `subs` and the jobs `jobs` as `Settled` says. It threw exactly when its
   * audience's tuner calls overran the cycle with no callback registered,
   * and then at the call that reached `totalRequests`.
   */
  ghost predicate Published(subs0: seq<Subscriber>, jobs0: seq<Job>, state0: Tuner.TunerState,
                            prior: map<string, Demand>, event: string, data: StreamData, invoked: seq<Subscriber>,
                            aborted: bool, subs: seq<Subscriber>, jobs: seq<Job>, final: Feeding,
                            subreddits: seq<string>, recordsLimit: nat)
  {
    && Delivered(invoked, aborted, Audience(subs0, event))
    && final.state.requestCounter == state0.requestCounter + TunerCalls(invoked)
    && data.subredditName in subreddits
    && Handing(Feeding(state0, prior), Repeat(data, TunerCalls(invoked)), final, subreddits, recordsLimit)
    && Settled(subs0, jobs0, state0, prior, subs, jobs, final.state, final.tuned, event, aborted, subreddits,
               recordsLimit)
    && CallsThrew(aborted, state0, TunerCalls(Audience(subs0, event)), final.state)
  }

  /**
   * What the publishes of a run did: publish k reached the subscribers the
   * run started with, `subs0`, having thrown when `threw[k]`, and handed its
   * result `published[k]` to the tuner once per tuner entry it called,
   * taking the tuner from `state0` and `prior` to `final`.
   */
  ghost predicate Ran(invoked: seq<seq<Subscriber>>, threw: seq<bool>, published: seq<StreamData>,
                      subs0: seq<Subscriber>, event: string, state0: Tuner.TunerState, prior: map<string, Demand>,
                      final: Feeding, subreddits: seq<string>, recordsLimit: nat)
  {
    && |invoked| == |threw| == |published|
    && (forall k :: 0 <= k < |invoked| ==> Reached(invoked[k], threw[k], subs0, event))
    && About(published, subreddits)
    && Handing(Feeding(state0, prior), Handed(published, invoked), final, subreddits, recordsLimit)
  }

  /** A publish is a run of one. */
  lemma {:induction false} RanOne(subs0: seq<Subscriber>, jobs0: seq<Job>, state0: Tuner.TunerState,
                                  prior: map<string, Demand>, event: string, data: StreamData,
                                  invoked: seq<Subscriber>, aborted: bool, subs: seq<Subscriber>, jobs: seq<Job>,
                                  final: Feeding, subreddits: seq<string>, recordsLimit: nat)
    requires Published(subs0, jobs0, state0, prior, event, data, invoked, aborted, subs, jobs, final, subreddits,
                       recordsLimit)
    ensures Ran([invoked], [aborted], [data], subs0, event, state0, prior, final, subreddits, recordsLimit)
  {
    HandedSnoc([], [], data, invoked);
    assert [] + [data] == [data] && [] + [invoked] == [invoked];
    assert Handed([data], [invoked]) == Repeat(data, TunerCalls(invoked));
    assert Reached([invoked][0], [aborted][0], subs0, event);
  }

  /**
   * A run followed by a second run, which started from the subscribers a
   * retune may have left and from the tuner where the first left it, is one
   * run from where the first started.
   */
  lemma {:induction false} RanAppend(invoked: seq<seq<Subscriber>>, threw: seq<bool>, published: seq<StreamData>,
                                     called: seq<seq<Subscriber>>, flags: seq<bool>, data: seq<StreamData>,
                                     subs0: seq<Subscriber>, subs1: seq<Subscriber>, event: string,
                                     state0: Tuner.TunerState, prior: map<string, Demand>, mid: Feeding,
                                     final: Feeding, subreddits: seq<string>, recordsLimit: nat)
    requires Ran(invoked, threw, published, subs0, event, state0, prior, mid, subreddits, recordsLimit)
    requires SameOrUntuned(subs0, subs1)
    requires Ran(called, flags, data, subs1, event, mid.state, mid.tuned, final, subreddits, recordsLimit)
    ensures Ran(invoked + called, threw + flags, published + data, subs0, event, state0, prior, final, subreddits,
                recordsLimit)
  {
    ReachedAppend(invoked, threw, called, flags, subs0, subs1, event);
    assert About(published + data, subreddits) by {
      assert forall d :: d in published + data ==> d in published || d in data;
    }
    HandedAppend(published, invoked, data, called);
    FeedAllAppend(Feeding(state0, prior), Handed(published, invoked), Handed(data, called), subreddits, recordsLimit);
  }

  /**
   * The publishes of a run, reached from `subs0`, followed by those of a
   * second run, reached from what a retune may have left of it, are all
   * reached from `subs0`.
   */
  lemma {:induction false} ReachedAppend(invoked: seq<seq<Subscriber>>, threw: seq<bool>, called: seq<seq<Subscriber>>,
                                         flags: seq<bool>, subs0: seq<Subscriber>, subs1: seq<Subscriber>,
                                         event: string)
    requires |invoked| == |threw| && |called| == |flags| && SameOrUntuned(subs0, subs1)
    requires forall k :: 0 <= k < |invoked| ==> Reached(invoked[k], threw[k], subs0, event)
    requires forall k :: 0 <= k < |called| ==> Reached(called[k], flags[k], subs1, event)
    ensures forall k :: 0 <= k < |invoked + called| ==> Reached((invoked + called)[k], (threw + flags)[k], subs0, event)
  {
    var n := |invoked|;
    forall k | 0 <= k < |invoked + called|
      ensures Reached((invoked + called)[k], (threw + flags)[k], subs0, event)
    {
      if k >= n {
        assert (invoked + called)[k] == called[k - n] && (threw + flags)[k] == flags[k - n];
        ReachedAfterRetune(called[k - n], flags[k - n], subs0, subs1, event);
      } else {
        assert (invoked + called)[k] == invoked[k] && (threw + flags)[k] == threw[k];
      }
    }
  }

  /**
   * A run followed by one more publish, from where the run left the
   * subscribers, the jobs and the tuner, is one run from where the first
   * started.
   */
  lemma {:induction false} RanThenPublished(invoked: seq<seq<Subscriber>>, threw: seq<bool>,
                                            published: seq<StreamData>, subs0: seq<Subscriber>, jobs0: seq<Job>,
                                            state0: Tuner.TunerState, prior: map<string, Demand>,
                                            subs1: seq<Subscriber>, jobs1: seq<Job>, mid: Feeding, threwBefore: bool,
                                            event: string, data: StreamData, called: seq<Subscriber>, aborted: bool,
                                            subs: seq<Subscriber>, jobs: seq<Job>, final: Feeding,
                                            subreddits: seq<string>, recordsLimit: nat)
    requires Ran(invoked, threw, published, subs0, event, state0, prior, mid, subreddits, recordsLimit)
    requires Settled(subs0, jobs0, state0, prior, subs1, jobs1, mid.state, mid.tuned, event, threwBefore, subreddits,
                     recordsLimit)
    requires Published(subs1, jobs1, mid.state, mid.tuned, event, data, called, aborted, subs, jobs, final, subreddits,
                       recordsLimit)
    ensures Ran(invoked + [called], threw + [aborted], published + [data], subs0, event, state0, prior, final,
                subreddits, recordsLimit)
    ensures Settled(subs0, jobs0, state0, prior, subs, jobs, final.state, final.tuned, event, threwBefore || aborted,
                    subreddits, recordsLimit)
  {
    RanOne(subs1, jobs1, mid.state, mid.tuned, event, data, called, aborted, subs, jobs, final, subreddits,
           recordsLimit);
    RanAppend(invoked, threw, published, [called], [aborted], [data], subs0, subs1, event, state0, prior, mid, final,
              subreddits, recordsLimit);
    SettledTrans(subs0, jobs0, state0, prior, subs1, jobs1, mid.state, mid.tuned, threwBefore, subs, jobs, final.state,
                 final.tuned, aborted, event, subreddits, recordsLimit);
  }

  // ---------------------------------------------------------------------
  // The second counter

  /** `secondCounter > 60 ? 1 : secondCounter + 1` */
  function NextSecond(c: nat): (n: nat)
    ensures 1 <= n
    ensures c <= LAST_SECOND + 1 ==> n <= LAST_SECOND + 1
  {
    if c > LAST_SECOND then 1 else c + 1
  }

  /** The counter after k ticks of jobs, starting from the constructor's 0. */
  function CounterAfter(k: nat): (c: nat)
    ensures c == 0 <==> k == 0
  {
    if k == 0 then 0 else NextSecond(CounterAfter(k - 1))
  }

  /** The counter is bounded: it never goes past 61. */
  lemma {:induction false} CounterBounded(k: nat)
    ensures CounterAfter(k) <= LAST_SECOND + 1
  {
    if k > 0 {
      CounterBounded(k - 1);
    }
  }

  /** In the first cycle the counter after k ticks is k, up to 61. */
  lemma {:induction false} CounterFirstCycle(k: nat)
    requires k <= LAST_SECOND + 1
    ensures CounterAfter(k) == k
  {
    if k > 0 {
      CounterFirstCycle(k - 1);
    }
  }

  /** From the first tick on, the counter repeats itself every 61 ticks. */
  lemma {:induction false} CounterPeriodic(k: nat)
    requires k >= 1
    ensures CounterAfter(k + LAST_SECOND + 1) == CounterAfter(k)
  {
    if k == 1 {
      CounterFirstCycle(LAST_SECOND + 1);
    } else {
      CounterPeriodic(k - 1);
    }
  }

  /** The polls a plan lists for one second: none when it has no entry for it. */
  function EventsAt(plan: Plan, second: nat): (events: seq<PollEvent>)
    ensures second !in plan ==> events == []
  {
    if second in plan then plan[second] else []
  }

  /**
   * Every 61st tick, starting with the first one at counter 0, the counter
   * is on a second no plan within the minute has a bucket for, so that tick
   * polls nothing.
   */
  lemma {:induction false} IdleSeconds(plan: Plan, m: nat)
    requires WithinMinute(plan)
    ensures CounterAfter(m * (LAST_SECOND + 1)) == if m == 0 then 0 else LAST_SECOND + 1
    ensures EventsAt(plan, CounterAfter(m * (LAST_SECOND + 1))) == []
  {
    if m == 1 {
      CounterFirstCycle(LAST_SECOND + 1);
    } else if m > 1 {
      IdleSeconds(plan, m - 1);
      CounterPeriodic((m - 1) * (LAST_SECOND + 1));
    }
  }

  /** The calls a tick makes for the polls of its second. */
  function StreamCalls(events: seq<PollEvent>): (calls: seq<StreamCall>)
    ensures |calls| == |events|
    ensures forall i :: 0 <= i < |events| ==>
              calls[i] == StreamCall(events[i].subreddit, events[i].kind, STREAM_EVENT, STREAM_LIMIT)
  {
    if events == [] then []
    else [StreamCall(events[0].subreddit, events[0].kind, STREAM_EVENT, STREAM_LIMIT)] + StreamCalls(events[1..])
  }

  /**
   * One subreddit's share of the preload: its post item, then its comment
   * item unless its post poll threw, since the `await` on the post poll then
   * skips the comment poll.
   */
  function PostThenComment<T>(post: T, comment: T, postThrew: bool): seq<T> {
    if postThrew then [post] else [post, comment]
  }

  /**
   * The preload's order over all subreddits: each one's share, as
   * `PostThenComment` gives it, in turn.
   */
  function Interleave<T>(posts: seq<T>, comments: seq<T>, postThrew: seq<bool>): (r: seq<T>)
    requires |posts| == |comments| == |postThrew|
    ensures |r| == 2 * |posts| - Throws(postThrew)
    ensures true !in postThrew ==>
              && |r| == 2 * |posts|
              && forall i :: 0 <= i < |posts| ==> r[2 * i] == posts[i] && r[2 * i + 1] == comments[i]
  {
    if posts == [] then []
    else PostThenComment(posts[0], comments[0], postThrew[0]) + Interleave(posts[1..], comments[1..], postThrew[1..])
  }

  /** How many of the flags are set. */
  function Throws(flags: seq<bool>): (k: nat)
    ensures k <= |flags|
    ensures k == 0 <==> true !in flags
  {
    if flags == [] then 0 else (if flags[0] then 1 else 0) + Throws(flags[1..])
  }

  /** The preload's polls of one type, one per subreddit in order. */
  function PreloadPolls(subreddits: seq<string>, t: ItemType): (calls: seq<StreamCall>)
    ensures |calls| == |subreddits|
  {
    seq(|subreddits|, i requires 0 <= i < |subreddits| => StreamCall(subreddits[i], t, PRELOAD_EVENT, STREAM_LIMIT))
  }

  /**
   * The calls of the preload: for each subreddit in order, its posts, then
   * its comments unless the post poll threw; all of them when none threw.
   */
  function PreloadCalls(subreddits: seq<string>, postThrew: seq<bool>): (calls: seq<StreamCall>)
    requires |postThrew| == |subreddits|
    ensures |calls| == 2 * |subreddits| - Throws(postThrew)
    ensures true !in postThrew ==>
              && |calls| == 2 * |subreddits|
              && forall i :: 0 <= i < |subreddits| ==>
                   && calls[2 * i] == StreamCall(subreddits[i], Post, PRELOAD_EVENT, STREAM_LIMIT)
                   && calls[2 * i + 1] == StreamCall(subreddits[i], Comment, PRELOAD_EVENT, STREAM_LIMIT)
  {
    Interleave(PreloadPolls(subreddits, Post), PreloadPolls(subreddits, Comment), postThrew)
  }

  /** The caches once the calls, in order, have each processed their batch. */
  function AfterPolls(caches: map<string, TypeCaches>, calls: seq<StreamCall>, batches: seq<seq<Record>>)
    : (r: map<string, TypeCaches>)
    requires |batches| == |calls|
    ensures forall s :: s in r <==> s in caches
  {
    if calls == [] then caches
    else
      var n := |calls| - 1;
      AfterPoll(AfterPolls(caches, calls[..n], batches[..n]), calls[n].subreddit, calls[n].kind, batches[n])
  }

  /**
   * What the calls, in order, publish: for each call, the records of its
   * batch that its cache had not seen when the call ran.
   */
  function PublishedBy(caches: map<string, TypeCaches>, calls: seq<StreamCall>, batches: seq<seq<Record>>)
    : (r: seq<StreamData>)
    requires |batches| == |calls|
    ensures |r| == |calls|
  {
    if calls == [] then []
    else
      var n := |calls| - 1;
      var before := AfterPolls(caches, calls[..n], batches[..n]);
      PublishedBy(caches, calls[..n], batches[..n])
        + [StreamData(Unseen(batches[n], CacheOf(before, calls[n].subreddit, calls[n].kind)), calls[n].subreddit, calls[n].kind)]
  }

  /**
   * Call i publishes the records of its batch that its cache had not seen
   * after the calls before it.
   */
  lemma {:induction false} PublishedAt(caches: map<string, TypeCaches>, calls: seq<StreamCall>, batches: seq<seq<Record>>,
                                       i: nat)
    requires |batches| == |calls| && i < |calls|
    ensures PublishedBy(caches, calls, batches)[i]
            == StreamData(Unseen(batches[i], CacheOf(AfterPolls(caches, calls[..i], batches[..i]), calls[i].subreddit, calls[i].kind)),
                          calls[i].subreddit, calls[i].kind)
  {
    var n := |calls| - 1;
    if i == n {
      PublishedLast(caches, calls, batches);
    } else {
      PublishedAt(caches, calls[..n], batches[..n], i);
      PublishedEarlier(caches, calls, batches, i);
    }
  }

  /** The last call publishes the unseen records of its batch against the caches the calls before it left. */
  lemma {:induction false} PublishedLast(caches: map<string, TypeCaches>, calls: seq<StreamCall>,
                                         batches: seq<seq<Record>>)
    requires |batches| == |calls| && |calls| > 0
    ensures var n := |calls| - 1;
            PublishedBy(caches, calls, batches)[n]
            == StreamData(Unseen(batches[n], CacheOf(AfterPolls(caches, calls[..n], batches[..n]), calls[n].subreddit,
                                                     calls[n].kind)), calls[n].subreddit, calls[n].kind)
  {
  }

  /** A call before the last publishes what it publishes in the run without the last call: the step of `PublishedAt`. */
  lemma {:induction false} PublishedEarlier(caches: map<string, TypeCaches>, calls: seq<StreamCall>,
                                            batches: seq<seq<Record>>, i: nat)
    requires |batches| == |calls| && i < |calls| - 1
    requires var n := |calls| - 1;
             PublishedBy(caches, calls[..n], batches[..n])[i]
             == StreamData(Unseen(batches[..n][i], CacheOf(AfterPolls(caches, calls[..n][..i], batches[..n][..i]),
                                                           calls[..n][i].subreddit, calls[..n][i].kind)),
                           calls[..n][i].subreddit, calls[..n][i].kind)
    ensures PublishedBy(caches, calls, batches)[i]
            == StreamData(Unseen(batches[i], CacheOf(AfterPolls(caches, calls[..i], batches[..i]), calls[i].subreddit,
                                                     calls[i].kind)), calls[i].subreddit, calls[i].kind)
  {
    var n := |calls| - 1;
    assert AfterPolls(caches, calls[..n][..i], batches[..n][..i]) == AfterPolls(caches, calls[..i], batches[..i]) by {
      TakeTake(calls, n, i);
      TakeTake(batches, n, i);
    }
    assert calls[..n][i] == calls[i] && batches[..n][i] == batches[i];
    PublishedBefore(caches, calls, batches, i);
  }

  /** Publishing does not look ahead: dropping the last call leaves what the earlier calls publish. */
  lemma {:induction false} PublishedBefore(caches: map<string, TypeCaches>, calls: seq<StreamCall>,
                                           batches: seq<seq<Record>>, i: nat)
    requires |batches| == |calls| && i < |calls| - 1
    ensures PublishedBy(caches, calls, batches)[i] == PublishedBy(caches, calls[..|calls| - 1], batches[..|calls| - 1])[i]
  {
  }

  /**
   * Each call publishes under its own subreddit and type, and only records
   * of its own batch, each at most once.
   */
  lemma {:induction false} PublishedFrom(caches: map<string, TypeCaches>, calls: seq<StreamCall>, batches: seq<seq<Record>>,
                                         i: nat)
    requires |batches| == |calls| && i < |calls|
    ensures PublishedBy(caches, calls, batches)[i].subredditName == calls[i].subreddit
    ensures PublishedBy(caches, calls, batches)[i].kind == calls[i].kind
    ensures forall x :: x in PublishedBy(caches, calls, batches)[i].records ==> x in batches[i]
    ensures DistinctIds(batches[i]) ==> DistinctIds(PublishedBy(caches, calls, batches)[i].records)
  {
    PublishedAt(caches, calls, batches, i);
    if DistinctIds(batches[i]) {
      var cache := CacheOf(AfterPolls(caches, calls[..i], batches[..i]), calls[i].subreddit, calls[i].kind);
      FilterDistinctIds(batches[i], (x: Record) => x.id !in cache);
    }
  }

  /** One more call extends both folds by its own poll. */
  lemma {:induction false} PollsSnoc(caches: map<string, TypeCaches>, calls: seq<StreamCall>, batches: seq<seq<Record>>,
                                     call: StreamCall, batch: seq<Record>)
    requires |batches| == |calls|
    ensures AfterPolls(caches, calls + [call], batches + [batch])
            == AfterPoll(AfterPolls(caches, calls, batches), call.subreddit, call.kind, batch)
    ensures PublishedBy(caches, calls + [call], batches + [batch])
            == PublishedBy(caches, calls, batches)
               + [StreamData(Unseen(batch, CacheOf(AfterPolls(caches, calls, batches), call.subreddit, call.kind)),
                             call.subreddit, call.kind)]
  {
    assert (calls + [call])[..|calls|] == calls;
    assert (batches + [batch])[..|calls|] == batches;
  }

  /** Calls that never poll (subreddit, t) leave that cache as it was. */
  lemma {:induction false} PollsElsewhere(caches: map<string, TypeCaches>, calls: seq<StreamCall>, batches: seq<seq<Record>>,
                                          subreddit: string, t: ItemType)
    requires |batches| == |calls|
    requires forall i :: 0 <= i < |calls| ==> calls[i].subreddit != subreddit || calls[i].kind != t
    ensures CacheOf(AfterPolls(caches, calls, batches), subreddit, t) == CacheOf(caches, subreddit, t)
  {
    if calls != [] {
      var n := |calls| - 1;
      PollsElsewhere(caches, calls[..n], batches[..n], subreddit, t);
      AfterPollCaches(AfterPolls(caches, calls[..n], batches[..n]), calls[n].subreddit, calls[n].kind, batches[n]);
    }
  }

  // ---------------------------------------------------------------------
  // Runs of polls

  /**
   * The calls `publish` made so far, away from the streamer's heap:
   * `invoked` are those of the first i subscribers of `subs` that take
   * `event`, and `aborted` only after a tuner call; the tuner, now `f`,
   * handled `data` once per tuner call, and the subscribers and jobs,
   * now `subs'` and `jobs'`, are as `Settled` says. `aborted` holds exactly
   * when those tuner calls overran the cycle with no callback, the last of
   * them reaching `totalRequests`; until then `totalRequests` is unchanged.
   */
  ghost predicate OfferedAt(subs: seq<Subscriber>, i: nat, invoked: seq<Subscriber>, aborted: bool, event: string,
                            data: StreamData, jobs0: seq<Job>, state0: Tuner.TunerState, prior: map<string, Demand>,
                            subs': seq<Subscriber>, jobs': seq<Job>, f: Feeding, subreddits: seq<string>,
                            recordsLimit: nat)
  {
    && i <= |subs|
    && invoked == AudienceAmong(subs, i, event)
    && (aborted ==> invoked != [] && invoked[|invoked| - 1].callback == TunerFeed)
    && data.subredditName in subreddits
    && Handing(Feeding(state0, prior), Repeat(data, TunerCalls(invoked)), f, subreddits, recordsLimit)
    && Settled(subs, jobs0, state0, prior, subs', jobs', f.state, f.tuned, event, aborted, subreddits, recordsLimit)
    && CallsThrew(aborted, state0, TunerCalls(invoked), f.state)
  }

  /**
   * Subscriber i, when it is not a tuner entry taking `event`, is called
   * exactly when its events match, and changes nothing of the streamer or
   * the tuner.
   */
  lemma {:induction false} OfferPasses(subs: seq<Subscriber>, i: nat, invoked: seq<Subscriber>, event: string,
                                       data: StreamData, jobs0: seq<Job>, state0: Tuner.TunerState,
                                       prior: map<string, Demand>, subs': seq<Subscriber>, jobs': seq<Job>, f: Feeding,
                                       subreddits: seq<string>, recordsLimit: nat)
    requires i < |subs| && !(subs[i].events.Accepts(event) && subs[i].callback == TunerFeed)
    requires OfferedAt(subs, i, invoked, false, event, data, jobs0, state0, prior, subs', jobs', f, subreddits,
                       recordsLimit)
    ensures subs[i].events.Accepts(event) ==>
              OfferedAt(subs, i + 1, invoked + [subs[i]], false, event, data, jobs0, state0, prior, subs', jobs', f,
                        subreddits, recordsLimit)
    ensures !subs[i].events.Accepts(event) ==>
              OfferedAt(subs, i + 1, invoked, false, event, data, jobs0, state0, prior, subs', jobs', f, subreddits,
                        recordsLimit)
  {
    if subs[i].events.Accepts(event) {
      assert (invoked + [subs[i]])[..|invoked|] == invoked;
    }
  }

  /** One more tuner call with `data` hands the tuner one more copy of it. */
  lemma {:induction false} HandingSnoc(start: Feeding, data: StreamData, k: nat, f: Feeding, f': Feeding,
                                       subreddits: seq<string>, recordsLimit: nat)
    requires data.subredditName in subreddits
    requires Handing(start, Repeat(data, k), f, subreddits, recordsLimit)
    requires f' == Feed(f, data, subreddits, recordsLimit)
    ensures Handing(start, Repeat(data, k + 1), f', subreddits, recordsLimit)
  {
    assert Repeat(data, k + 1) == Repeat(data, k) + [data];
    FeedAllSnoc(start, Repeat(data, k), data, subreddits, recordsLimit);
  }

  /**
   * A tuner call in a publish that has not thrown keeps it settled: a retune
   * (`retuned`, observing `fed`) composes with the earlier ones, and a throw
   * needs a missing callback and changes neither subscribers nor jobs.
   */
  lemma {:induction false} SettledFeed(subs0: seq<Subscriber>, jobs0: seq<Job>, state0: Tuner.TunerState,
                                       prior: map<string, Demand>, subs1: seq<Subscriber>, jobs1: seq<Job>,
                                       f1: Feeding, fed: map<string, Demand>, retuned: bool, aborted: bool,
                                       subs2: seq<Subscriber>, jobs2: seq<Job>, f2: Feeding, event: string,
                                       subreddits: seq<string>, recordsLimit: nat)
    requires Settled(subs0, jobs0, state0, prior, subs1, jobs1, f1.state, f1.tuned, event, false, subreddits,
                     recordsLimit)
    requires !TunerDeaf(subs0, event) && f1.state.callbackRegistered == state0.callbackRegistered
    requires retuned ==> f1.state.callbackRegistered
    requires aborted ==> !f1.state.callbackRegistered
    requires Retuning(subs1, jobs1, subs2, jobs2, fed, subreddits, recordsLimit)
    requires retuned ==> f2.tuned == fed && |jobs2| == |jobs1| + 1
    requires !retuned ==> f2.tuned == f1.tuned && subs2 == subs1 && jobs2 == jobs1
    ensures Settled(subs0, jobs0, state0, prior, subs2, jobs2, f2.state, f2.tuned, event, aborted, subreddits,
                    recordsLimit)
  {
    RetuningTrans(subs0, jobs0, subs1, jobs1, f1.tuned, subs2, jobs2, fed, subreddits, recordsLimit);
  }

  /**
   * Subscriber i, a tuner entry taking `event`, hands `data` to the tuner,
   * which moves on as `Feed` says, retuning (and so dropping the tuner's
   * entries and running the plan for `fed`, the demand it observed) when
   * the call ends a cycle with a callback, and throwing when it ends one
   * without.
   */
  lemma {:induction false} OfferFeeds(subs: seq<Subscriber>, i: nat, invoked: seq<Subscriber>, event: string,
                                      data: StreamData, jobs0: seq<Job>, state0: Tuner.TunerState,
                                      prior: map<string, Demand>, subs1: seq<Subscriber>, jobs1: seq<Job>, f1: Feeding,
                                      fed: map<string, Demand>, retuned: bool, aborted: bool,
                                      subs2: seq<Subscriber>, jobs2: seq<Job>, f2: Feeding, subreddits: seq<string>,
                                      recordsLimit: nat)
    requires i < |subs| && subs[i].events.Accepts(event) && subs[i].callback == TunerFeed
    requires OfferedAt(subs, i, invoked, false, event, data, jobs0, state0, prior, subs1, jobs1, f1, subreddits,
                       recordsLimit)
    requires retuned == (Tuner.EndsCycle(f1.state) && f1.state.callbackRegistered)
    requires aborted == (Tuner.EndsCycle(f1.state) && !f1.state.callbackRegistered)
    requires f2 == Feed(f1, data, subreddits, recordsLimit)
    requires Retuning(subs1, jobs1, subs2, jobs2, fed, subreddits, recordsLimit)
    requires retuned ==> f2.tuned == fed && |jobs2| == |jobs1| + 1
    requires !retuned ==> subs2 == subs1 && jobs2 == jobs1
    ensures OfferedAt(subs, i + 1, invoked + [subs[i]], aborted, event, data, jobs0, state0, prior, subs2, jobs2, f2,
                      subreddits, recordsLimit)
  {
    var k := TunerCalls(invoked);
    assert (invoked + [subs[i]])[..|invoked|] == invoked;
    assert subs[i] in subs && !TunerDeaf(subs, event);
    HandingSnoc(Feeding(state0, prior), data, k, f1, f2, subreddits, recordsLimit);
    SettledFeed(subs, jobs0, state0, prior, subs1, jobs1, f1, fed, retuned, aborted, subs2, jobs2, f2, event,
                subreddits, recordsLimit);
    FeedOverruns(state0, k, f1, data, subreddits, recordsLimit, f2);
  }

  /**
   * Where a run of `processStream` calls under `event` stands: the polls
   * `calls`, each with its batch, ran in order from the caches `start` and
   * left `caches`, publishing `published`; their publishes did what `Ran`
   * says from the subscribers `subs0`, the jobs `jobs0` and the tuner state
   * `state0`, and left the subscribers, the jobs and the tuner (`final`) as
   * `Settled` says, `failed` telling whether one of them threw. When no
   * tuner entry takes `event`, every publish called the whole audience.
   * The run threw exactly when, with no callback registered, the tuner
   * calls of its publishes, one audience's worth each, overran the cycle;
   * until then `totalRequests` stays and every publish counts that many.
   */
  ghost predicate PollRun(start: map<string, TypeCaches>, calls: seq<StreamCall>, batches: seq<seq<Record>>,
                          published: seq<StreamData>, invoked: seq<seq<Subscriber>>, threw: seq<bool>, failed: bool,
                          event: string, subs0: seq<Subscriber>, jobs0: seq<Job>, state0: Tuner.TunerState,
                          caches: map<string, TypeCaches>, subs: seq<Subscriber>, jobs: seq<Job>, final: Feeding,
                          subreddits: seq<string>, recordsLimit: nat)
  {
    && |batches| == |calls|
    && caches == AfterPolls(start, calls, batches)
    && published == PublishedBy(start, calls, batches)
    && Ran(invoked, threw, published, subs0, event, state0, map[], final, subreddits, recordsLimit)
    && Settled(subs0, jobs0, state0, map[], subs, jobs, final.state, final.tuned, event, failed, subreddits, recordsLimit)
    && (TunerDeaf(subs0, event) ==> forall k :: 0 <= k < |invoked| ==> invoked[k] == Audience(subs0, event))
    && ThrewWhen(failed, state0, TunerCalls(Audience(subs0, event)), |calls|, final.state)
  }

  /** A run starts with no polls, from where everything stands. */
  lemma {:induction false} PollRunStart(start: map<string, TypeCaches>, event: string, subs0: seq<Subscriber>,
                                        jobs0: seq<Job>, state0: Tuner.TunerState, subreddits: seq<string>,
                                        recordsLimit: nat)
    requires recordsLimit >= 1 && forall n :: n in subreddits ==> n in state0.counts
    ensures PollRun(start, [], [], [], [], [], false, event, subs0, jobs0, state0, start, subs0, jobs0,
                    Feeding(state0, map[]), subreddits, recordsLimit)
  {
    assert Handed([], []) == [];
  }

  /**
   * One more `processStream` call, which polled `call` with `batch`,
   * published `data` and then did what `Published` says from where the run
   * stood, extends the run by itself (the primed arguments are the run's
   * lists with the call's own item appended).
   */
  lemma {:induction false} PollStep(start: map<string, TypeCaches>, calls: seq<StreamCall>, batches: seq<seq<Record>>,
                                    published: seq<StreamData>, invoked: seq<seq<Subscriber>>, threw: seq<bool>,
                                    failed: bool, event: string, subs0: seq<Subscriber>, jobs0: seq<Job>,
                                    state0: Tuner.TunerState, caches: map<string, TypeCaches>,
                                    subs: seq<Subscriber>, jobs: seq<Job>, mid: Feeding,
                                    subreddits: seq<string>, recordsLimit: nat, call: StreamCall, batch: seq<Record>,
                                    data: StreamData, called: seq<Subscriber>, aborted: bool,
                                    calls': seq<StreamCall>, batches': seq<seq<Record>>, published': seq<StreamData>,
                                    invoked': seq<seq<Subscriber>>, threw': seq<bool>, failed': bool,
                                    caches': map<string, TypeCaches>, subs': seq<Subscriber>, jobs': seq<Job>,
                                    final: Feeding)
    requires PollRun(start, calls, batches, published, invoked, threw, failed, event, subs0, jobs0, state0, caches,
                     subs, jobs, mid, subreddits, recordsLimit)
    requires calls' == calls + [call] && batches' == batches + [batch] && published' == published + [data]
    requires invoked' == invoked + [called] && threw' == threw + [aborted] && failed' == (failed || aborted)
    requires caches' == AfterPolls(start, calls', batches')
    requires published' == PublishedBy(start, calls', batches')
    requires Published(subs, jobs, mid.state, mid.tuned, event, data, called, aborted, subs', jobs', final, subreddits,
                       recordsLimit)
    ensures PollRun(start, calls', batches', published', invoked', threw', failed', event, subs0, jobs0, state0,
                    caches', subs', jobs', final, subreddits, recordsLimit)
  {
    RanThenPublished(invoked, threw, published, subs0, jobs0, state0, map[], subs, jobs, mid, failed, event, data,
                     called, aborted, subs', jobs', final, subreddits, recordsLimit);
    if TunerDeaf(subs0, event) {
      forall k | 0 <= k < |invoked'|
        ensures invoked'[k] == Audience(subs0, event)
      {
        if k < |invoked| {
          assert invoked'[k] == invoked[k];
        }
      }
    }
    if !state0.callbackRegistered {
      assert subs == subs0;
    }
    ThrewWhenStep(failed, aborted, state0, TunerCalls(Audience(subs0, event)), |calls|, mid.state, final.state);
  }

  /**
   * Where the preload stands after the first i subreddits, away from the
   * streamer's heap: their polls ran in order from the caches `start`, each
   * subreddit's comment poll skipped when its post poll threw
   * (`postThrew`), with `threw` the flags of the polls made, as `PollRun`
   * says.
   */
  ghost predicate PreloadRun(i: nat, calls: seq<StreamCall>, published: seq<StreamData>, invoked: seq<seq<Subscriber>>,
                             threw: seq<bool>, postThrew: seq<bool>, commentThrew: seq<bool>,
                             postFetched: seq<seq<Record>>, commentFetched: seq<seq<Record>>,
                             start: map<string, TypeCaches>, subs0: seq<Subscriber>, jobs0: seq<Job>,
                             state0: Tuner.TunerState, caches: map<string, TypeCaches>, subs: seq<Subscriber>,
                             jobs: seq<Job>, final: Feeding, subreddits: seq<string>, recordsLimit: nat)
  {
    && i <= |subreddits| && |postFetched| == |commentFetched| == |subreddits|
    && |postThrew| == |commentThrew| == i
    && calls == PreloadCalls(subreddits[..i], postThrew)
    && threw == Interleave(postThrew, commentThrew, postThrew)
    && PollRun(start, calls, Interleave(postFetched[..i], commentFetched[..i], postThrew), published, invoked, threw,
               true in postThrew || true in commentThrew, PRELOAD_EVENT, subs0, jobs0, state0, caches, subs, jobs,
               final, subreddits, recordsLimit)
  }

  /**
   * Subreddit i's polls, appended to the run of the first i subreddits'
   * polls, make the preload of the first i + 1 subreddits.
   */
  lemma {:induction false} PreloadAdvance(i: nat, calls: seq<StreamCall>, published: seq<StreamData>,
                                          invoked: seq<seq<Subscriber>>, threw: seq<bool>, postThrew: seq<bool>,
                                          commentThrew: seq<bool>, postFetched: seq<seq<Record>>,
                                          commentFetched: seq<seq<Record>>, start: map<string, TypeCaches>,
                                          subs0: seq<Subscriber>, jobs0: seq<Job>, state0: Tuner.TunerState,
                                          subreddits: seq<string>, recordsLimit: nat, data: seq<StreamData>,
                                          called: seq<seq<Subscriber>>, postFailed: bool, commentFailed: bool,
                                          caches: map<string, TypeCaches>, subs: seq<Subscriber>, jobs: seq<Job>,
                                          final: Feeding)
    requires i < |subreddits| && |postFetched| == |commentFetched| == |subreddits|
    requires |postThrew| == |commentThrew| == i
    requires calls == PreloadCalls(subreddits[..i], postThrew)
    requires threw == Interleave(postThrew, commentThrew, postThrew)
    requires PollRun(start, calls + PostThenComment(StreamCall(subreddits[i], Post, PRELOAD_EVENT, STREAM_LIMIT),
                                                    StreamCall(subreddits[i], Comment, PRELOAD_EVENT, STREAM_LIMIT),
                                                    postFailed),
                     Interleave(postFetched[..i], commentFetched[..i], postThrew)
                     + PostThenComment(postFetched[i], commentFetched[i], postFailed),
                     published + data, invoked + called, threw + PostThenComment(postFailed, commentFailed, postFailed),
                     true in postThrew || true in commentThrew || postFailed || commentFailed, PRELOAD_EVENT, subs0,
                     jobs0, state0, caches, subs, jobs, final, subreddits, recordsLimit)
    ensures PreloadRun(i + 1, calls + PostThenComment(StreamCall(subreddits[i], Post, PRELOAD_EVENT, STREAM_LIMIT),
                                                      StreamCall(subreddits[i], Comment, PRELOAD_EVENT, STREAM_LIMIT),
                                                      postFailed),
                       published + data, invoked + called, threw + PostThenComment(postFailed, commentFailed, postFailed),
                       postThrew + [postFailed], commentThrew + [commentFailed], postFetched, commentFetched, start,
                       subs0, jobs0, state0, caches, subs, jobs, final, subreddits, recordsLimit)
  {
    PreloadCallsOfPrefix(subreddits, postThrew, postFailed);
    InterleaveOfPrefix(postFetched, commentFetched, postThrew, postFailed);
    InterleaveSnoc(postThrew, commentThrew, postThrew, postFailed, commentFailed, postFailed);
    assert (true in postThrew + [postFailed] || true in commentThrew + [commentFailed])
           == (true in postThrew || true in commentThrew || postFailed || commentFailed);
  }

  /**
   * The preload threw exactly when the tuner calls of all its 2N polls, one
   * audience's worth each, would overrun the cycle: a throw comes within the
   * polls made, which are at most 2N, and with no throw all 2N are made.
   */
  lemma {:induction false} PreloadOverruns(state0: Tuner.TunerState, perPoll: nat, postThrew: seq<bool>,
                                           commentThrew: seq<bool>, polls: nat, final: Tuner.TunerState)
    requires |postThrew| == |commentThrew| && polls == 2 * |postThrew| - Throws(postThrew)
    requires ThrewWhen(true in postThrew || true in commentThrew, state0, perPoll, polls, final)
    ensures (true in postThrew || true in commentThrew) <==> Overruns(state0, RunCalls(perPoll, 2 * |postThrew|))
  {
    RunCallsGrow(perPoll, polls, 2 * |postThrew|);
  }

  /**
   * Where a tick's loop stands after its first i polls, away from the
   * streamer's heap: they ran in order from the caches `start`, under
   * `'stream'`, as `PollRun` says.
   */
  ghost predicate StreamRun(i: nat, currentEvents: seq<PollEvent>, fetched: seq<seq<Record>>, calls: seq<StreamCall>,
                            published: seq<StreamData>, invoked: seq<seq<Subscriber>>, threw: seq<bool>,
                            start: map<string, TypeCaches>, subs0: seq<Subscriber>, jobs0: seq<Job>,
                            state0: Tuner.TunerState, caches: map<string, TypeCaches>, subs: seq<Subscriber>,
                            jobs: seq<Job>, final: Feeding, subreddits: seq<string>, recordsLimit: nat)
  {
    && i <= |currentEvents| == |fetched|
    && calls == StreamCalls(currentEvents[..i])
    && PollRun(start, calls, fetched[..i], published, invoked, threw, true in threw, STREAM_EVENT, subs0, jobs0, state0,
               caches, subs, jobs, final, subreddits, recordsLimit)
  }

  /** Poll i, appended to the run of a tick's first i polls, makes the run of its first i + 1. */
  lemma {:induction false} StreamAdvance(i: nat, currentEvents: seq<PollEvent>, fetched: seq<seq<Record>>,
                                         calls: seq<StreamCall>, published: seq<StreamData>,
                                         invoked: seq<seq<Subscriber>>, threw: seq<bool>,
                                         start: map<string, TypeCaches>, subs0: seq<Subscriber>, jobs0: seq<Job>,
                                         state0: Tuner.TunerState, subreddits: seq<string>, recordsLimit: nat,
                                         data: StreamData, called: seq<Subscriber>, aborted: bool,
                                         caches: map<string, TypeCaches>, subs: seq<Subscriber>, jobs: seq<Job>,
                                         final: Feeding)
    requires i < |currentEvents| == |fetched|
    requires calls == StreamCalls(currentEvents[..i])
    requires PollRun(start, calls + [StreamCall(currentEvents[i].subreddit, currentEvents[i].kind, STREAM_EVENT,
                                                STREAM_LIMIT)],
                     fetched[..i] + [fetched[i]], published + [data], invoked + [called], threw + [aborted],
                     true in threw || aborted, STREAM_EVENT, subs0, jobs0, state0, caches, subs, jobs, final,
                     subreddits, recordsLimit)
    ensures StreamRun(i + 1, currentEvents, fetched,
                      calls + [StreamCall(currentEvents[i].subreddit, currentEvents[i].kind, STREAM_EVENT,
                                          STREAM_LIMIT)],
                      published + [data], invoked + [called], threw + [aborted], start, subs0, jobs0, state0, caches,
                      subs, jobs, final, subreddits, recordsLimit)
  {
    StreamCallsOfPrefix(currentEvents, i);
    TakeNext(fetched, i);
    assert (true in threw + [aborted]) == (true in threw || aborted);
  }

  /**
   * What a run did to the tuner and the subscribers: it counted one request
   * for every tuner entry its publishes called and kept the callback flag;
   * it dropped the tuner's entries or left the subscribers alone; a run
   * that threw had no callback to call and changed neither the subscribers
   * nor the jobs; and a run no tuner entry took part in changed nothing.
   */
  lemma {:induction false} PollRunOutcome(start: map<string, TypeCaches>, calls: seq<StreamCall>,
                                         batches: seq<seq<Record>>, published: seq<StreamData>,
                                         invoked: seq<seq<Subscriber>>, threw: seq<bool>, failed: bool, event: string,
                                         subs0: seq<Subscriber>, jobs0: seq<Job>, state0: Tuner.TunerState,
                                         caches: map<string, TypeCaches>, subs: seq<Subscriber>, jobs: seq<Job>,
                                         final: Feeding, subreddits: seq<string>, recordsLimit: nat)
    requires PollRun(start, calls, batches, published, invoked, threw, failed, event, subs0, jobs0, state0, caches,
                     subs, jobs, final, subreddits, recordsLimit)
    ensures final.state.requestCounter == state0.requestCounter + TunerCallsAll(invoked)
    ensures final.state.callbackRegistered == state0.callbackRegistered
    ensures SameOrUntuned(subs0, subs)
    ensures failed ==> !state0.callbackRegistered && subs == subs0 && jobs == jobs0
    ensures TunerDeaf(subs0, event) ==> !failed && subs == subs0 && jobs == jobs0 && final.state == state0
  {
    HandedLength(published, invoked);
  }

  // ---------------------------------------------------------------------
  // Jobs

  /** Every job but the last has been cancelled, and the last one runs. */
  ghost predicate OnlyLastActive(jobs: seq<Job>) {
    && (forall i :: 0 <= i < |jobs| - 1 ==> jobs[i].cancelled)
    && (jobs != [] ==> !jobs[|jobs| - 1].cancelled)
  }

  /** The job list once `currentJob.cancel()` has run (a no-op without a job). */
  function CancelCurrent(jobs: seq<Job>): (r: seq<Job>)
    ensures |r| == |jobs|
    ensures forall i :: 0 <= i < |jobs| - 1 ==> r[i] == jobs[i]
    ensures jobs != [] ==> r[|jobs| - 1] == jobs[|jobs| - 1].(cancelled := true)
  {
    if jobs == [] then [] else jobs[..|jobs| - 1] + [jobs[|jobs| - 1].(cancelled := true)]
  }

  /** Starting a job after cancelling the current one leaves exactly one job running. */
  lemma {:induction false} StartKeepsOneActive(jobs: seq<Job>, events: Plan)
    requires OnlyLastActive(jobs)
    ensures OnlyLastActive(CancelCurrent(jobs) + [Job(events, false)])
    ensures forall i, j :: 0 <= i < j < |jobs| + 1 ==>
              (CancelCurrent(jobs) + [Job(events, false)])[i].cancelled
              || (CancelCurrent(jobs) + [Job(events, false)])[j].cancelled
  {
    var r := CancelCurrent(jobs) + [Job(events, false)];
    forall i | 0 <= i < |r| - 1 ensures r[i].cancelled {
      assert r[i] == CancelCurrent(jobs)[i];
    }
  }

  /** Only the last job runs, and every job polls only the given subreddits. */
  ghost predicate Scheduled(jobs: seq<Job>, subreddits: seq<string>) {
    OnlyLastActive(jobs) && forall i :: 0 <= i < |jobs| ==> Serves(jobs[i].events, subreddits)
  }

  /** Every poll of the plan names one of the subreddits. */
  ghost predicate Serves(plan: Plan, subreddits: seq<string>) {
    forall k, j :: k in plan && 0 <= j < |plan[k]| ==> plan[k][j].subreddit in subreddits
  }

  /** A plan the tuner builds for the demand of its subreddits polls only those. */
  lemma {:induction false} TunedPlanServes(plan: Plan, counts: map<string, Demand>, names: seq<string>)
    requires forall n :: n in names ==> n in counts
    requires Tuner.PlanFor(plan, counts, names)
    ensures Serves(plan, names)
  {
  }

  // ---------------------------------------------------------------------
  // The streamer

  class RedditStreamer {
    const subreddits: seq<string>
    const cache: RedditCache
    var suscribers: seq<Subscriber>
    var secondCounter: nat
    /** Every job scheduled so far; the last one is `currentJob`. */
    var jobs: seq<Job>

    ghost predicate Valid()
      reads this, cache
    {
      && cache.Valid()
      && (forall s :: s in subreddits ==> s in cache.allCaches)
      && secondCounter <= LAST_SECOND + 1
      && Scheduled(jobs, subreddits)
    }

    /** What a tuner must be for its `handleDataStream` to serve this streamer. */
    ghost predicate Feeds(tuner: Tuner.Tuner)
      reads tuner, tuner.demand
    {
      tuner.Valid() && tuner.subreddits == subreddits
    }

    constructor (subreddits: seq<string>)
      ensures Valid() && fresh(cache)
      ensures this.subreddits == subreddits
      ensures suscribers == [] && secondCounter == 0 && jobs == []
      ensures forall s, t :: s in cache.allCaches ==> cache.allCaches[s].Of(t) == []
    {
      this.subreddits := subreddits;
      cache := new RedditCache(subreddits);
      suscribers := [];
      secondCounter := 0;
      jobs := [];
    }

    /** `suscribe`: the new entry goes to the end; the others stay as they were. */
    method Suscribe(suscriberName: string, events: EventFilter, callback: Handler)
      modifies this`suscribers
      ensures suscribers == old(suscribers) + [Subscriber(suscriberName, callback, events)]
    {
      suscribers := suscribers + [Subscriber(suscriberName, callback, events)];
    }

    /** `unsuscribe`: drops every entry with that name and keeps the rest in order. */
    method Unsuscribe(suscriberName: string)
      modifies this`suscribers
      ensures suscribers == Without(old(suscribers), suscriberName)
    {
      suscribers := Filter(suscribers, (s: Subscriber) => s.name != suscriberName);
    }

    /** `startStreamer`: cancels the current job, if any, and schedules one for `events`. */
    method StartStreamer(events: Plan)
      requires Scheduled(jobs, subreddits) && Serves(events, subreddits)
      modifies this`jobs
      ensures Scheduled(jobs, subreddits)
      ensures jobs == CancelCurrent(old(jobs)) + [Job(events, false)]
    {
      var jobs' := jobs;
      if jobs' != [] {
        jobs' := jobs'[..|jobs'| - 1] + [jobs'[|jobs'| - 1].(cancelled := true)];
      }
      jobs := jobs' + [Job(events, false)];
      StartKeepsOneActive(old(jobs), events);
      assert forall i :: 0 <= i < |jobs| - 1 ==> jobs[i].events == old(jobs)[i].events;
    }

    /** The callback given to `optimizeEvents`: drop the tuner's subscription, run the new plan. */
    method OnRetuned(events: Plan)
      requires Scheduled(jobs, subreddits) && Serves(events, subreddits)
      modifies this`suscribers, this`jobs
      ensures Scheduled(jobs, subreddits)
      ensures suscribers == Without(old(suscribers), TUNER_NAME)
      ensures jobs == CancelCurrent(old(jobs)) + [Job(events, false)]
    {
      Unsuscribe(TUNER_NAME);
      StartStreamer(events);
    }

    /**
     * Hands one result to the tuner's `handleDataStream`. When that completes
     * the tuning cycle and a callback is registered, the callback drops the
     * tuner's subscription and runs the new plan; otherwise the subscribers
     * and the jobs stay as they were (`CallbackMissing` is the TypeError
     * thrown when no callback was registered yet).
     */
    method FeedTuner(data: StreamData, tuner: Tuner.Tuner) returns (feedback: Tuner.Feedback, ghost tuned: map<string, Demand>)
      requires Scheduled(jobs, subreddits) && Feeds(tuner) && data.subredditName in subreddits
      modifies this`suscribers, this`jobs, tuner, tuner.demand
      ensures Scheduled(jobs, subreddits) && Feeds(tuner)
      ensures Tuner.Handled(old(tuner.State()), data, subreddits, tuner.recordsLimit, tuner.State(), feedback)
      ensures tuner.State() == Tuner.Fed(old(tuner.State()), data, subreddits, tuner.recordsLimit)
      ensures feedback.Retuned? <==> Tuner.EndsCycle(old(tuner.State())) && old(tuner.callbackRegistered)
      ensures feedback.CallbackMissing? <==> Tuner.EndsCycle(old(tuner.State())) && !old(tuner.callbackRegistered)
      ensures feedback.Retuned? ==>
                && suscribers == Without(old(suscribers), TUNER_NAME)
                && jobs == CancelCurrent(old(jobs)) + [Job(feedback.plan, false)]
      ensures !feedback.Retuned? ==> suscribers == old(suscribers) && jobs == old(jobs)
      ensures tuned == Tuner.Observed(old(tuner.demand.counts), data)
      ensures Retuning(old(suscribers), old(jobs), suscribers, jobs, tuned, subreddits, tuner.recordsLimit)
    {
      tuned := Tuner.Observed(tuner.demand.counts, data);
      ghost var s0 := tuner.State();
      feedback := tuner.HandleDataStream(data);
      Tuner.HandledFed(s0, data, subreddits, tuner.recordsLimit, tuner.State(), feedback);
      if feedback.Retuned? {
        TunedPlanServes(feedback.plan, Tuner.Rescaled(tuned, tuner.recordsLimit), subreddits);
        OnRetuned(feedback.plan);
        RetuneRuns(old(suscribers), old(jobs), feedback.plan, tuned, subreddits, tuner.recordsLimit);
      }
    }

    /**
     * Where `publish` stands after offering `data` to the first i of the
     * subscribers `subs` it started with (see `Offered`), with the streamer
     * and the tuner still sound.
     */
    ghost predicate Publishing(subs: seq<Subscriber>, i: nat, invoked: seq<Subscriber>, aborted: bool, event: string,
                               data: StreamData, tuner: Tuner.Tuner, jobs0: seq<Job>, state0: Tuner.TunerState,
                               prior: map<string, Demand>, tuned: map<string, Demand>)
      reads this, tuner, tuner.demand
    {
      && Scheduled(jobs, subreddits) && Feeds(tuner)
      && OfferedAt(subs, i, invoked, aborted, event, data, jobs0, state0, prior, suscribers, jobs,
                   Feeding(tuner.State(), tuned), subreddits, tuner.recordsLimit)
    }

    /**
     * One step of `publish`: subscriber i, if its events match, has its
     * callback called with the data and joins the subscribers invoked so far.
     * A tuner subscriber hands the data to the tuner; a callback outside this
     * model changes nothing here.
     */
    method Offer(subs: seq<Subscriber>, i: nat, invoked: seq<Subscriber>, data: StreamData, event: string,
                 tuner: Tuner.Tuner, ghost jobs0: seq<Job>, ghost state0: Tuner.TunerState,
                 ghost prior: map<string, Demand>, ghost tuned: map<string, Demand>)
      returns (invoked': seq<Subscriber>, aborted: bool, ghost tuned': map<string, Demand>)
      requires i < |subs|
      requires Publishing(subs, i, invoked, false, event, data, tuner, jobs0, state0, prior, tuned)
      modifies this`suscribers, this`jobs, tuner, tuner.demand
      ensures Publishing(subs, i + 1, invoked', aborted, event, data, tuner, jobs0, state0, prior, tuned')
    {
      var suscriber := subs[i];
      invoked' := invoked;
      aborted := false;
      tuned' := tuned;
      if suscriber.events.Accepts(event) {
        invoked' := invoked + [suscriber];
        if suscriber.callback == TunerFeed {
          ghost var subs1, jobs1, s1 := suscribers, jobs, tuner.State();
          var feedback, fed := FeedTuner(data, tuner);
          aborted := feedback.CallbackMissing?;
          tuned' := if feedback.Retuned? then fed else tuned;
          OfferFeeds(subs, i, invoked, event, data, jobs0, state0, prior, subs1, jobs1, Feeding(s1, tuned), fed,
                     feedback.Retuned?, aborted, suscribers, jobs, Feeding(tuner.State(), tuned'), subreddits,
                     tuner.recordsLimit);
        } else {
          OfferPasses(subs, i, invoked, event, data, jobs0, state0, prior, suscribers, jobs,
                      Feeding(tuner.State(), tuned), subreddits, tuner.recordsLimit);
        }
      } else {
        OfferPasses(subs, i, invoked, event, data, jobs0, state0, prior, suscribers, jobs,
                    Feeding(tuner.State(), tuned), subreddits, tuner.recordsLimit);
      }
    }

    /**
     * `publish`: calls, in list order, the subscribers whose events are
     * `'all'` or include `event`. The list is the one at the start of the
     * call even when a callback changes it. A callback that throws ends the
     * call there. Every tuner entry called hands `data` to the tuner, and a
     * retune runs the plan for the demand observed then; `prior` is the
     * demand of an earlier retune, kept when this publish retunes nothing.
     */
    method Publish(data: StreamData, event: string, tuner: Tuner.Tuner, ghost prior: map<string, Demand>)
      returns (invoked: seq<Subscriber>, aborted: bool, ghost tuned: map<string, Demand>)
      requires Scheduled(jobs, subreddits) && Feeds(tuner) && data.subredditName in subreddits
      modifies this`suscribers, this`jobs, tuner, tuner.demand
      ensures Scheduled(jobs, subreddits) && Feeds(tuner)
      ensures Published(old(suscribers), old(jobs), old(tuner.State()), prior, event, data, invoked, aborted,
                        suscribers, jobs, Feeding(tuner.State(), tuned), subreddits, tuner.recordsLimit)
    {
      var subs := suscribers;
      ghost var jobs0, state0 := jobs, tuner.State();
      var i;
      i, invoked, aborted, tuned := OfferAll(subs, data, event, tuner, jobs0, state0, prior);
      AudienceGrows(subs, i, |subs|, event);
      TunerCallsPrefix(invoked, Audience(subs, event));
    }

    /** The loop of `publish`: offers the data to each subscriber in turn until one throws. */
    method OfferAll(subs: seq<Subscriber>, data: StreamData, event: string, tuner: Tuner.Tuner, ghost jobs0: seq<Job>,
                    ghost state0: Tuner.TunerState, ghost prior: map<string, Demand>)
      returns (i: nat, invoked: seq<Subscriber>, aborted: bool, ghost tuned: map<string, Demand>)
      requires Publishing(subs, 0, [], false, event, data, tuner, jobs0, state0, prior, prior)
      modifies this`suscribers, this`jobs, tuner, tuner.demand
      ensures aborted || i == |subs|
      ensures Publishing(subs, i, invoked, aborted, event, data, tuner, jobs0, state0, prior, tuned)
    {
      invoked := [];
      aborted := false;
      tuned := prior;
      i := 0;
      while i < |subs| && !aborted
        invariant Publishing(subs, i, invoked, aborted, event, data, tuner, jobs0, state0, prior, tuned)
        decreases |subs| - i
      {
        invoked, aborted, tuned := Offer(subs, i, invoked, data, event, tuner, jobs0, state0, prior, tuned);
        i := i + 1;
      }
    }

    /**
     * `processStream`: polls once, keeps the records the cache has not seen
     * (recording their ids) and publishes them under `event`.
     */
    method ProcessStream(fetched: seq<Record>, subredditName: string, t: ItemType, event: string,
                         tuner: Tuner.Tuner, ghost prior: map<string, Demand>)
      returns (data: StreamData, invoked: seq<Subscriber>, aborted: bool, ghost tuned: map<string, Demand>)
      requires Valid() && Feeds(tuner) && subredditName in subreddits
      requires DistinctIds(fetched)
      modifies this`suscribers, this`jobs, cache, tuner, tuner.demand
      ensures Valid() && Feeds(tuner)
      ensures data == StreamData(Unseen(fetched, old(cache.allCaches)[subredditName].Of(t)), subredditName, t)
      ensures cache.allCaches == AfterPoll(old(cache.allCaches), subredditName, t, fetched)
      ensures Published(old(suscribers), old(jobs), old(tuner.State()), prior, event, data, invoked, aborted,
                        suscribers, jobs, Feeding(tuner.State(), tuned), subreddits, tuner.recordsLimit)
    {
      var filteredStreamData, cacheSize := cache.FilterAndAdd(fetched, subredditName, t);
      data := StreamData(filteredStreamData, subredditName, t);
      assert Valid() && suscribers == old(suscribers) && jobs == old(jobs) && tuner.State() == old(tuner.State());
      ghost var caches := cache.allCaches;
      invoked, aborted, tuned := Publish(data, event, tuner, prior);
      assert cache.allCaches == caches && cache.Valid();
    }

    /**
     * One `processStream` call in a run of them (a tick's polls, the
     * preload's), polling `call` with `batch`: it publishes what
     * `PublishedBy` says the call publishes, leaves the caches the calls up
     * to and including this one leave, and extends the run by itself, as
     * `PollStep` says.
     */
    method PollNext(call: StreamCall, batch: seq<Record>, tuner: Tuner.Tuner, ghost start: map<string, TypeCaches>,
                    ghost calls: seq<StreamCall>, ghost batches: seq<seq<Record>>, ghost before: seq<StreamData>,
                    ghost invokedBefore: seq<seq<Subscriber>>, ghost threwBefore: seq<bool>, ghost failed: bool,
                    ghost subs0: seq<Subscriber>, ghost jobs0: seq<Job>, ghost state0: Tuner.TunerState,
                    ghost prior: map<string, Demand>)
      returns (data: StreamData, invoked: seq<Subscriber>, aborted: bool, ghost tuned: map<string, Demand>)
      requires Valid() && Feeds(tuner) && call.subreddit in subreddits && DistinctIds(batch)
      requires PollRun(start, calls, batches, before, invokedBefore, threwBefore, failed, call.event, subs0, jobs0,
                       state0, cache.allCaches, suscribers, jobs, Feeding(tuner.State(), prior), subreddits,
                       tuner.recordsLimit)
      modifies this`suscribers, this`jobs, cache, tuner, tuner.demand
      ensures Valid() && Feeds(tuner)
      ensures PollRun(start, calls + [call], batches + [batch], before + [data], invokedBefore + [invoked],
                      threwBefore + [aborted], failed || aborted, call.event, subs0, jobs0, state0, cache.allCaches,
                      suscribers, jobs, Feeding(tuner.State(), tuned), subreddits, tuner.recordsLimit)
    {
      ghost var caches1, subs1, jobs1, mid := cache.allCaches, suscribers, jobs, Feeding(tuner.State(), prior);
      PollsSnoc(start, calls, batches, call, batch);
      data, invoked, aborted, tuned := ProcessStream(batch, call.subreddit, call.kind, call.event, tuner, prior);
      PollStep(start, calls, batches, before, invokedBefore, threwBefore, failed, call.event, subs0, jobs0, state0,
               caches1, subs1, jobs1, mid, subreddits, tuner.recordsLimit, call, batch, data, invoked, aborted,
               calls + [call], batches + [batch], before + [data], invokedBefore + [invoked], threwBefore + [aborted],
               failed || aborted, cache.allCaches, suscribers, jobs, Feeding(tuner.State(), tuned));
    }

    /**
     * The body of the preload's loop for one subreddit, appended to the run
     * of polls so far: the post poll, then, unless its publish threw (which
     * also rejects this subreddit's part of the preload), the comment poll.
     */
    method PreloadOne(subredditName: string, postBatch: seq<Record>, commentBatch: seq<Record>, tuner: Tuner.Tuner,
                      ghost start: map<string, TypeCaches>, ghost calls: seq<StreamCall>,
                      ghost batches: seq<seq<Record>>, ghost before: seq<StreamData>,
                      ghost invokedBefore: seq<seq<Subscriber>>, ghost threwBefore: seq<bool>, ghost failed: bool,
                      ghost subs0: seq<Subscriber>, ghost jobs0: seq<Job>, ghost state0: Tuner.TunerState,
                      ghost prior: map<string, Demand>)
      returns (data: seq<StreamData>, invoked: seq<seq<Subscriber>>, postThrew: bool, commentThrew: bool,
               ghost tuned: map<string, Demand>)
      requires Valid() && Feeds(tuner) && subredditName in subreddits
      requires DistinctIds(postBatch) && DistinctIds(commentBatch)
      requires PollRun(start, calls, batches, before, invokedBefore, threwBefore, failed, PRELOAD_EVENT, subs0, jobs0,
                       state0, cache.allCaches, suscribers, jobs, Feeding(tuner.State(), prior), subreddits,
                       tuner.recordsLimit)
      modifies this`suscribers, this`jobs, cache, tuner, tuner.demand
      ensures Valid() && Feeds(tuner)
      ensures postThrew ==> !commentThrew
      ensures PollRun(start, calls + PostThenComment(StreamCall(subredditName, Post, PRELOAD_EVENT, STREAM_LIMIT),
                                                     StreamCall(subredditName, Comment, PRELOAD_EVENT, STREAM_LIMIT),
                                                     postThrew),
                      batches + PostThenComment(postBatch, commentBatch, postThrew), before + data,
                      invokedBefore + invoked, threwBefore + PostThenComment(postThrew, commentThrew, postThrew),
                      failed || postThrew || commentThrew, PRELOAD_EVENT, subs0, jobs0, state0, cache.allCaches,
                      suscribers, jobs, Feeding(tuner.State(), tuned), subreddits, tuner.recordsLimit)
    {
      var postCall := StreamCall(subredditName, Post, PRELOAD_EVENT, STREAM_LIMIT);
      var commentCall := StreamCall(subredditName, Comment, PRELOAD_EVENT, STREAM_LIMIT);
      var postData, postInvoked;
      ghost var postTuned;
      postData, postInvoked, postThrew, postTuned :=
        PollNext(postCall, postBatch, tuner, start, calls, batches, before, invokedBefore, threwBefore, failed, subs0,
                 jobs0, state0, prior);
      if postThrew {
        data, invoked, commentThrew, tuned := [postData], [postInvoked], false, postTuned;
      } else {
        var commentData, commentInvoked;
        commentData, commentInvoked, commentThrew, tuned :=
          PollNext(commentCall, commentBatch, tuner, start, calls + [postCall], batches + [postBatch],
                   before + [postData], invokedBefore + [postInvoked], threwBefore + [false], failed, subs0, jobs0,
                   state0, postTuned);
        data, invoked := [postData, commentData], [postInvoked, commentInvoked];
        AppendTwo(calls, postCall, commentCall);
        AppendTwo(batches, postBatch, commentBatch);
        AppendTwo(before, postData, commentData);
        AppendTwo(invokedBefore, postInvoked, commentInvoked);
        AppendTwo(threwBefore, false, commentThrew);
      }
    }

    /**
     * Where `preloadCaches` stands after the first i subreddits: their polls
     * ran in order from the caches `start`, each subreddit's comment poll
     * skipped when its post poll threw (`postThrew`), with `threw` the flags
     * of the polls made, as `PollRun` says.
     */
    ghost predicate Preloading(i: nat, calls: seq<StreamCall>, published: seq<StreamData>,
                               invoked: seq<seq<Subscriber>>, threw: seq<bool>, postThrew: seq<bool>,
                               commentThrew: seq<bool>, postFetched: seq<seq<Record>>,
                               commentFetched: seq<seq<Record>>, tuner: Tuner.Tuner, start: map<string, TypeCaches>,
                               subs0: seq<Subscriber>, jobs0: seq<Job>, state0: Tuner.TunerState,
                               tuned: map<string, Demand>)
      reads this, cache, tuner, tuner.demand
    {
      && Valid() && Feeds(tuner)
      && PreloadRun(i, calls, published, invoked, threw, postThrew, commentThrew, postFetched, commentFetched, start,
                    subs0, jobs0, state0, cache.allCaches, suscribers, jobs, Feeding(tuner.State(), tuned), subreddits,
                    tuner.recordsLimit)
    }

    /**
     * `preloadCaches`: for each subreddit in order, one post poll and, unless
     * its publish threw, one comment poll of STREAM_LIMIT records, published
     * under `'preload'`. A throw rejects that subreddit's part, and so the
     * preload, but the other subreddits' polls still run. The tuner sees
     * none of it unless it has subscribed to that event.
     */
    method PreloadCaches(postFetched: seq<seq<Record>>, commentFetched: seq<seq<Record>>, tuner: Tuner.Tuner)
      returns (calls: seq<StreamCall>, published: seq<StreamData>, invoked: seq<seq<Subscriber>>,
               threw: seq<bool>, postThrew: seq<bool>, commentThrew: seq<bool>, ghost tuned: map<string, Demand>)
      requires Valid() && Feeds(tuner)
      requires |postFetched| == |commentFetched| == |subreddits|
      requires forall i :: 0 <= i < |subreddits| ==> DistinctIds(postFetched[i]) && DistinctIds(commentFetched[i])
      modifies this`suscribers, this`jobs, cache, tuner, tuner.demand
      ensures Valid() && Feeds(tuner)
      ensures |postThrew| == |commentThrew| == |subreddits| && threw == Interleave(postThrew, commentThrew, postThrew)
      ensures calls == PreloadCalls(subreddits, postThrew)
      ensures PollRun(old(cache.allCaches), calls, Interleave(postFetched, commentFetched, postThrew), published,
                      invoked, threw, true in postThrew || true in commentThrew, PRELOAD_EVENT, old(suscribers),
                      old(jobs), old(tuner.State()), cache.allCaches, suscribers, jobs, Feeding(tuner.State(), tuned),
                      subreddits, tuner.recordsLimit)
      ensures tuner.requestCounter == old(tuner.requestCounter) + TunerCallsAll(invoked)
      ensures tuner.callbackRegistered == old(tuner.callbackRegistered)
      ensures SameOrUntuned(old(suscribers), suscribers)
      ensures true in postThrew || true in commentThrew ==>
                !old(tuner.callbackRegistered) && suscribers == old(suscribers) && jobs == old(jobs)
      ensures TunerDeaf(old(suscribers), PRELOAD_EVENT) ==>
                && true !in postThrew && true !in commentThrew
                && suscribers == old(suscribers) && jobs == old(jobs) && tuner.State() == old(tuner.State())
      ensures true in postThrew || true in commentThrew <==>
                Overruns(old(tuner.State()), RunCalls(TunerCalls(Audience(old(suscribers), PRELOAD_EVENT)), 2 * |subreddits|))
    {
      ghost var start, subs0, jobs0, state0 := cache.allCaches, suscribers, jobs, tuner.State();
      calls, published, invoked, threw, postThrew, commentThrew, tuned := [], [], [], [], [], [], map[];
      PollRunStart(start, PRELOAD_EVENT, subs0, jobs0, state0, subreddits, tuner.recordsLimit);
      assert PreloadCalls(subreddits[..0], []) == [] && Interleave(postFetched[..0], commentFetched[..0], []) == [];
      for i := 0 to |subreddits|
        invariant Preloading(i, calls, published, invoked, threw, postThrew, commentThrew, postFetched, commentFetched,
                             tuner, start, subs0, jobs0, state0, tuned)
      {
        calls, published, invoked, threw, postThrew, commentThrew, tuned :=
          PreloadNext(i, postFetched, commentFetched, tuner, calls, published, invoked, threw, postThrew, commentThrew,
                      start, subs0, jobs0, state0, tuned);
      }
      TakeAll(subreddits);
      TakeAll(postFetched);
      TakeAll(commentFetched);
      PollRunOutcome(start, calls, Interleave(postFetched, commentFetched, postThrew), published, invoked, threw,
                    true in postThrew || true in commentThrew, PRELOAD_EVENT, subs0, jobs0, state0, cache.allCaches,
                    suscribers, jobs, Feeding(tuner.State(), tuned), subreddits, tuner.recordsLimit);
      PreloadOverruns(state0, TunerCalls(Audience(subs0, PRELOAD_EVENT)), postThrew, commentThrew, |calls|,
                      tuner.State());
    }

    /** One turn of the preload's loop: the polls of subreddit i, appended to the run so far. */
    method PreloadNext(i: nat, postFetched: seq<seq<Record>>, commentFetched: seq<seq<Record>>, tuner: Tuner.Tuner,
                       calls: seq<StreamCall>, published: seq<StreamData>, invoked: seq<seq<Subscriber>>,
                       threw: seq<bool>, postThrew: seq<bool>, commentThrew: seq<bool>,
                       ghost start: map<string, TypeCaches>, ghost subs0: seq<Subscriber>, ghost jobs0: seq<Job>,
                       ghost state0: Tuner.TunerState, ghost tuned: map<string, Demand>)
      returns (calls': seq<StreamCall>, published': seq<StreamData>, invoked': seq<seq<Subscriber>>,
               threw': seq<bool>, postThrew': seq<bool>, commentThrew': seq<bool>, ghost tuned': map<string, Demand>)
      requires Preloading(i, calls, published, invoked, threw, postThrew, commentThrew, postFetched, commentFetched,
                          tuner, start, subs0, jobs0, state0, tuned)
      requires i < |subreddits| && DistinctIds(postFetched[i]) && DistinctIds(commentFetched[i])
      modifies this`suscribers, this`jobs, cache, tuner, tuner.demand
      ensures Preloading(i + 1, calls', published', invoked', threw', postThrew', commentThrew', postFetched,
                         commentFetched, tuner, start, subs0, jobs0, state0, tuned')
    {
      var subredditName := subreddits[i];
      var data, called, postFailed, commentFailed;
      data, called, postFailed, commentFailed, tuned' :=
        PreloadOne(subredditName, postFetched[i], commentFetched[i], tuner, start, calls,
                   Interleave(postFetched[..i], commentFetched[..i], postThrew), published, invoked, threw,
                   true in postThrew || true in commentThrew, subs0, jobs0, state0, tuned);
      PreloadAdvance(i, calls, published, invoked, threw, postThrew, commentThrew, postFetched, commentFetched, start,
                     subs0, jobs0, state0, subreddits, tuner.recordsLimit, data, called, postFailed, commentFailed,
                     cache.allCaches, suscribers, jobs, Feeding(tuner.State(), tuned'));
      calls' := calls + PostThenComment(StreamCall(subredditName, Post, PRELOAD_EVENT, STREAM_LIMIT),
                                        StreamCall(subredditName, Comment, PRELOAD_EVENT, STREAM_LIMIT), postFailed);
      published', invoked' := published + data, invoked + called;
      threw' := threw + PostThenComment(postFailed, commentFailed, postFailed);
      postThrew', commentThrew' := postThrew + [postFailed], commentThrew + [commentFailed];
    }

    /**
     * Where a tick's loop stands after its first i polls: they ran in order
     * from the caches `start`, under `'stream'`, as `PollRun` says.
     */
    ghost predicate Streaming(i: nat, currentEvents: seq<PollEvent>, fetched: seq<seq<Record>>,
                              calls: seq<StreamCall>, published: seq<StreamData>, invoked: seq<seq<Subscriber>>,
                              threw: seq<bool>, tuner: Tuner.Tuner, start: map<string, TypeCaches>,
                              subs0: seq<Subscriber>, jobs0: seq<Job>, state0: Tuner.TunerState,
                              tuned: map<string, Demand>)
      reads this, cache, tuner, tuner.demand
    {
      && Valid() && Feeds(tuner)
      && StreamRun(i, currentEvents, fetched, calls, published, invoked, threw, start, subs0, jobs0, state0,
                   cache.allCaches, suscribers, jobs, Feeding(tuner.State(), tuned), subreddits, tuner.recordsLimit)
    }

    /**
     * The loop of a tick: each poll of the second processed once, in list
     * order, under `'stream'`, with its own fetched batch. `invoked` holds
     * the subscribers each poll's publish called and `threw` whether it
     * threw; a publish that throws ends that poll alone.
     */
    method ProcessEvents(currentEvents: seq<PollEvent>, fetched: seq<seq<Record>>, tuner: Tuner.Tuner)
      returns (calls: seq<StreamCall>, published: seq<StreamData>, invoked: seq<seq<Subscriber>>, threw: seq<bool>,
               ghost tuned: map<string, Demand>)
      requires Valid() && Feeds(tuner)
      requires forall i :: 0 <= i < |currentEvents| ==> currentEvents[i].subreddit in subreddits
      requires |fetched| == |currentEvents| && forall i :: 0 <= i < |fetched| ==> DistinctIds(fetched[i])
      modifies this`suscribers, this`jobs, cache, tuner, tuner.demand
      ensures Valid() && Feeds(tuner)
      ensures calls == StreamCalls(currentEvents)
      ensures PollRun(old(cache.allCaches), calls, fetched, published, invoked, threw, true in threw, STREAM_EVENT,
                      old(suscribers), old(jobs), old(tuner.State()), cache.allCaches, suscribers, jobs,
                      Feeding(tuner.State(), tuned), subreddits, tuner.recordsLimit)
      ensures tuner.requestCounter == old(tuner.requestCounter) + TunerCallsAll(invoked)
    {
      ghost var start, subs0, jobs0, state0 := cache.allCaches, suscribers, jobs, tuner.State();
      calls, published, invoked, threw, tuned := [], [], [], [], map[];
      PollRunStart(start, STREAM_EVENT, subs0, jobs0, state0, subreddits, tuner.recordsLimit);
      for i := 0 to |currentEvents|
        invariant Streaming(i, currentEvents, fetched, calls, published, invoked, threw, tuner, start, subs0, jobs0,
                            state0, tuned)
      {
        calls, published, invoked, threw, tuned := StreamNext(i, currentEvents, fetched, tuner, calls, published, invoked,
                                                              threw, start, subs0, jobs0, state0, tuned);
      }
      TakeAll(currentEvents);
      TakeAll(fetched);
      PollRunOutcome(start, calls, fetched, published, invoked, threw, true in threw, STREAM_EVENT, subs0, jobs0, state0,
                    cache.allCaches, suscribers, jobs, Feeding(tuner.State(), tuned), subreddits, tuner.recordsLimit);
    }

    /** One turn of a tick's loop: poll i, appended to the run so far. */
    method StreamNext(i: nat, currentEvents: seq<PollEvent>, fetched: seq<seq<Record>>, tuner: Tuner.Tuner,
                      calls: seq<StreamCall>, published: seq<StreamData>, invoked: seq<seq<Subscriber>>,
                      threw: seq<bool>, ghost start: map<string, TypeCaches>, ghost subs0: seq<Subscriber>,
                      ghost jobs0: seq<Job>, ghost state0: Tuner.TunerState, ghost tuned: map<string, Demand>)
      returns (calls': seq<StreamCall>, published': seq<StreamData>, invoked': seq<seq<Subscriber>>,
               threw': seq<bool>, ghost tuned': map<string, Demand>)
      requires Streaming(i, currentEvents, fetched, calls, published, invoked, threw, tuner, start, subs0, jobs0,
                         state0, tuned)
      requires i < |currentEvents| && currentEvents[i].subreddit in subreddits && DistinctIds(fetched[i])
      modifies this`suscribers, this`jobs, cache, tuner, tuner.demand
      ensures Streaming(i + 1, currentEvents, fetched, calls', published', invoked', threw', tuner, start, subs0,
                        jobs0, state0, tuned')
    {
      var event := currentEvents[i];
      var call := StreamCall(event.subreddit, event.kind, STREAM_EVENT, STREAM_LIMIT);
      var data, called, aborted;
      data, called, aborted, tuned' :=
        PollNext(call, fetched[i], tuner, start, calls, fetched[..i], published, invoked, threw, true in threw, subs0,
                 jobs0, state0, tuned);
      StreamAdvance(i, currentEvents, fetched, calls, published, invoked, threw, start, subs0, jobs0, state0,
                    subreddits, tuner.recordsLimit, data, called, aborted, cache.allCaches, suscribers, jobs,
                    Feeding(tuner.State(), tuned'));
      calls', published', invoked', threw' := calls + [call], published + [data], invoked + [called], threw + [aborted];
    }

    /**
     * One tick of the job: the polls listed for the current second, each
     * processed once in list order under `'stream'`. The counter moves on as
     * soon as the polls are started, so before any of them caches or
     * publishes, since each first awaits its fetch. A retune during the tick
     * does not change the polls of this tick.
     */
    method Tick(fetched: seq<seq<Record>>, tuner: Tuner.Tuner)
      returns (calls: seq<StreamCall>, published: seq<StreamData>, invoked: seq<seq<Subscriber>>, threw: seq<bool>,
               ghost tuned: map<string, Demand>)
      requires Valid() && Feeds(tuner) && jobs != []
      requires |fetched| == |EventsAt(jobs[|jobs| - 1].events, secondCounter)|
      requires forall i :: 0 <= i < |fetched| ==> DistinctIds(fetched[i])
      modifies this`suscribers, this`jobs, this`secondCounter, cache, tuner, tuner.demand
      ensures Valid() && Feeds(tuner)
      ensures calls == StreamCalls(EventsAt(old(jobs[|jobs| - 1].events), old(secondCounter)))
      ensures PollRun(old(cache.allCaches), calls, fetched, published, invoked, threw, true in threw, STREAM_EVENT,
                      old(suscribers), old(jobs), old(tuner.State()), cache.allCaches, suscribers, jobs,
                      Feeding(tuner.State(), tuned), subreddits, tuner.recordsLimit)
      ensures tuner.requestCounter == old(tuner.requestCounter) + TunerCallsAll(invoked)
      ensures secondCounter == NextSecond(old(secondCounter))
    {
      var currentEvents := EventsAt(jobs[|jobs| - 1].events, secondCounter);
      assert forall i :: 0 <= i < |currentEvents| ==> currentEvents[i].subreddit in subreddits;
      secondCounter := NextSecond(secondCounter);
      calls, published, invoked, threw, tuned := ProcessEvents(currentEvents, fetched, tuner);
    }

    /**
     * `init`: preload the caches; if the preload rejected (a publish threw),
     * stop there (`launched` is `None`); otherwise run the tuner's initial
     * plan, then register the retune callback with the tuner.
     */
    method Init(postFetched: seq<seq<Record>>, commentFetched: seq<seq<Record>>, tuner: Tuner.Tuner)
      returns (launched: Option<Plan>, ghost postThrew: seq<bool>, ghost commentThrew: seq<bool>)
      requires Valid() && Feeds(tuner)
      requires |postFetched| == |commentFetched| == |subreddits|
      requires forall i :: 0 <= i < |subreddits| ==> DistinctIds(postFetched[i]) && DistinctIds(commentFetched[i])
      modifies this`suscribers, this`jobs, cache, tuner, tuner.demand
      ensures Valid() && Feeds(tuner)
      ensures |postThrew| == |commentThrew| == |subreddits|
      ensures launched == None <==> true in postThrew || true in commentThrew
      ensures launched == None <==>
                Overruns(old(tuner.State()), RunCalls(TunerCalls(Audience(old(suscribers), PRELOAD_EVENT)), 2 * |subreddits|))
      ensures cache.allCaches
              == AfterPolls(old(cache.allCaches), PreloadCalls(subreddits, postThrew),
                            Interleave(postFetched, commentFetched, postThrew))
      ensures launched == None ==>
                && !old(tuner.callbackRegistered) && !tuner.callbackRegistered
                && suscribers == old(suscribers) && jobs == old(jobs)
      ensures launched.Some? ==>
                && tuner.callbackRegistered
                && Tuner.PlanFor(launched.value,
                                 Tuner.Uniform(subreddits, Tuner.InitialDemand(tuner.quota, |subreddits|)), subreddits)
                && tuner.totalRequests == Some(|subreddits| * Tuner.InitialDemand(tuner.quota, |subreddits|).Weight())
                && jobs != [] && jobs[|jobs| - 1] == Job(launched.value, false)
      ensures SameOrUntuned(old(suscribers), suscribers)
      ensures TunerDeaf(old(suscribers), PRELOAD_EVENT) ==>
                && launched.Some? && suscribers == old(suscribers)
                && jobs == CancelCurrent(old(jobs)) + [Job(launched.value, false)]
                && tuner.requestCounter == old(tuner.requestCounter) && tuner.demand.counts == old(tuner.demand.counts)
    {
      var calls, published, invoked, threw, postFailed, commentFailed, tuned := PreloadCaches(postFetched, commentFetched, tuner);
      postThrew, commentThrew := postFailed, commentFailed;
      var failed := true in postFailed || true in commentFailed;
      launched := None;
      if !failed {
        ghost var jobs1 := jobs;
        var plan := Launch(tuner);
        ghost var tail := CancelCurrent(jobs1);
        assert jobs == tail + [Job(plan, false)] && |jobs| == |tail| + 1;
        launched := Some(plan);
      }
    }

    /**
     * The rest of `init`: run the tuner's initial plan and register the
     * callback that swaps in the plans it tunes.
     */
    method Launch(tuner: Tuner.Tuner) returns (plan: Plan)
      requires Valid() && Feeds(tuner)
      modifies this`jobs, tuner
      ensures Valid() && Feeds(tuner) && tuner.callbackRegistered
      ensures Tuner.PlanFor(plan, Tuner.Uniform(subreddits, Tuner.InitialDemand(tuner.quota, |subreddits|)), subreddits)
      ensures tuner.totalRequests == Some(|subreddits| * Tuner.InitialDemand(tuner.quota, |subreddits|).Weight())
      ensures jobs == CancelCurrent(old(jobs)) + [Job(plan, false)]
      ensures tuner.requestCounter == old(tuner.requestCounter) && tuner.demand.counts == old(tuner.demand.counts)
    {
      plan := tuner.GetInitialStreamerEvents();
      TunedPlanServes(plan, Tuner.Uniform(subreddits, Tuner.InitialDemand(tuner.quota, |subreddits|)), subreddits);
      StartStreamer(plan);
      tuner.OptimizeEvents();
    }
  }

  /** A subscriber to `'stream'` alone, as the tuner subscribes, never receives preload data. */
  lemma {:induction false} StreamOnlyMissesPreload(subs: seq<Subscriber>, s: Subscriber)
    requires s.events == Only([STREAM_EVENT])
    ensures s !in Audience(subs, PRELOAD_EVENT)
    ensures s in subs ==> s in Audience(subs, STREAM_EVENT)
  {
    AudienceMembers(subs, PRELOAD_EVENT);
    AudienceMembers(subs, STREAM_EVENT);
    assert PRELOAD_EVENT != STREAM_EVENT by {
      assert PRELOAD_EVENT[0] != STREAM_EVENT[0];
    }
  }

  /** The interleaving of longer lists ends with the last post item and, unless its post threw, the last comment item. */
  lemma {:induction false} InterleaveSnoc<T>(posts: seq<T>, comments: seq<T>, postThrew: seq<bool>, p: T, c: T, b: bool)
    requires |posts| == |comments| == |postThrew|
    ensures Interleave(posts + [p], comments + [c], postThrew + [b])
            == Interleave(posts, comments, postThrew) + PostThenComment(p, c, b)
  {
    if posts == [] {
      assert [p][1..] == [] && [c][1..] == [] && [b][1..] == [];
    } else {
      assert (posts + [p])[1..] == posts[1..] + [p];
      assert (comments + [c])[1..] == comments[1..] + [c];
      assert (postThrew + [b])[1..] == postThrew[1..] + [b];
      InterleaveSnoc(posts[1..], comments[1..], postThrew[1..], p, c, b);
    }
  }

  /** The interleaving of the first i + 1 items is that of the first i, then item i's. */
  lemma {:induction false} InterleaveOfPrefix<T>(posts: seq<T>, comments: seq<T>, postThrew: seq<bool>, b: bool)
    requires |posts| == |comments| && |postThrew| < |posts|
    ensures var i := |postThrew|;
            Interleave(posts[..i + 1], comments[..i + 1], postThrew + [b])
            == Interleave(posts[..i], comments[..i], postThrew) + PostThenComment(posts[i], comments[i], b)
  {
    var i := |postThrew|;
    assert posts[..i + 1] == posts[..i] + [posts[i]];
    assert comments[..i + 1] == comments[..i] + [comments[i]];
    InterleaveSnoc(posts[..i], comments[..i], postThrew, posts[i], comments[i], b);
  }

  /** The preload calls of the first i + 1 subreddits are those of the first i, then subreddit i's. */
  lemma {:induction false} PreloadCallsOfPrefix(subreddits: seq<string>, postThrew: seq<bool>, b: bool)
    requires |postThrew| < |subreddits|
    ensures var i := |postThrew|;
            PreloadCalls(subreddits[..i + 1], postThrew + [b])
            == PreloadCalls(subreddits[..i], postThrew)
               + PostThenComment(StreamCall(subreddits[i], Post, PRELOAD_EVENT, STREAM_LIMIT),
                                 StreamCall(subreddits[i], Comment, PRELOAD_EVENT, STREAM_LIMIT), b)
  {
    var i := |postThrew|;
    var post := StreamCall(subreddits[i], Post, PRELOAD_EVENT, STREAM_LIMIT);
    var comment := StreamCall(subreddits[i], Comment, PRELOAD_EVENT, STREAM_LIMIT);
    assert PreloadPolls(subreddits[..i + 1], Post) == PreloadPolls(subreddits[..i], Post) + [post];
    assert PreloadPolls(subreddits[..i + 1], Comment) == PreloadPolls(subreddits[..i], Comment) + [comment];
    InterleaveSnoc(PreloadPolls(subreddits[..i], Post), PreloadPolls(subreddits[..i], Comment), postThrew, post, comment, b);
  }

  /** The stream calls of the first i + 1 polls are those of the first i, then poll i's. */
  lemma {:induction false} StreamCallsOfPrefix(events: seq<PollEvent>, i: nat)
    requires i < |events|
    ensures StreamCalls(events[..i + 1])
            == StreamCalls(events[..i]) + [StreamCall(events[i].subreddit, events[i].kind, STREAM_EVENT, STREAM_LIMIT)]
  {
    assert events[..i + 1] == events[..i] + [events[i]];
  }
}
