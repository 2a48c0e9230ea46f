# VisMarket Reddit streamer: the adaptive polling scheduler

This project models the part of VisMarket that decides when the Reddit
listings are polled and what happens to the results. It is written in Dafny,
and the verifier proves properties of the model. There are three parts:

- **The bucket-plan tuner** (`RedditStreamerTunner`, module `Tuner`). The
  repository holds two copies with the same live code:
  sources/redditStreamerTuner.js and sources/reddit/redditStreamerTuner.js.
  The tuner keeps a demand table of requests per minute for every subreddit
  and for both types, post and comment. From that table it builds a plan,
  which maps a second of the minute to the ordered polls fired in that second.
  - It computes the trigger seconds `f, 2f, ...` of each type, where
    `f = ceil(60 / total)`.
  - It fills the buckets by a back-to-front round robin over the
    subreddits, with one wrapping cursor per type.
  - It splits the request quota evenly for the initial plan.
  - After one full cycle of observed results, it rescales the demand to the
    number of records seen and hands the new plan to a callback.
- **The dedup cache** (`RedditCache`, module `Cache`). Each (subreddit, type)
  pair has an insertion-ordered set of the ids seen most recently.
  - `add` evicts the oldest id once the size reaches 301, so a cache settles
    at 300 ids.
  - `filterAndAdd` returns the records of a batch that have not been seen and
    records their ids.
- **The streamer** (`RedditStreamer`, module `Streamer`):
  - the subscriber list (`suscribe`, `unsuscribe`);
  - `publish`, filtered by event name;
  - `processStream`, which polls once, deduplicates and publishes;
  - the preload;
  - the one-second job, with its second counter;
  - the swap to the tuner's plan once tuning is over.

  The fetch is not modelled: the records each poll returns are parameters
  of the methods that poll.

Modules `Types` (shared values, `Filter`) and `Plans` (counting the events of
a plan) hold what the three parts share.

Three behaviours of the code are easy to misread, and the model keeps them
as written:

- The second counter wraps to 1 only after it has passed 60, so it takes
  the value 61 once per cycle (sources/redditStreamer.js:70).
- `add` evicts once the size reaches 301 after the append, so a cache
  settles at 300 ids (sources/redditCache.js:14-16).
- The preload publishes under the event name `'preload'`
  (sources/redditStreamer.js:42-43). The tuner subscribes to `'stream'`
  alone (sources/redditSource.js:13), so it never sees preload data.

JavaScript objects whose fields are updated in place are Dafny classes:

- the tuner, the demand table, the cache and the streamer;
- the streamer's job list is a field of records, one per `scheduleJob`,
  with a flag that `cancel()` sets.

The rows for the tuner below cite sources/redditStreamerTuner.js. The same
members model the other copy, sources/reddit/redditStreamerTuner.js, whose
methods sit at these lines:

- constructor: 7-13
- `getInitialStreamerEvents`: 15-26
- `initializeNumberOfRequestsBySubreddit`: 28-34
- `getStreamerEvents`: 36-81 (the round robin at 51-77)
- `removeFromArray`: 83-85
- `getTriggerSeconds`: 87-100
- `optimizeEvents`: 102-105
- `handleDataStream`: 107-120

The scheduling loops of the tuner are methods with loop invariants. Each is
proved against a specification predicate (`PlanFor`, `Placed`, `RoundRobin`),
and the properties of those predicates are proved as lemmas.

## Model

| member | source | states |
|---|---|---|
| Types.Demand.Plus | sources/redditStreamerTuner.js:121 | adding n observed records to one type's demand raises that type by n and leaves the other type alone |
| Types.Demand.Less | sources/redditStreamerTuner.js:56-65 | placing one event lowers that type's demand by exactly one and leaves the other type alone |
| Types.Demand.Served | sources/redditStreamerTuner.js:56-65 | one visit of the round robin lowers each type that still has demand by one; the demand is then zero or its weight has dropped |
| Types.FilterMembers | sources/redditCache.js:22 | `filter` keeps exactly the elements the predicate accepts |
| Types.FilterSnoc | sources/redditStreamer.js:19 | filtering a list with one more element at the end adds that element exactly when it is kept |
| Types.FilterAppend | sources/redditCache.js:22 | filtering keeps relative order: it distributes over concatenation |
| Plans.CountEmpty | sources/redditStreamerTuner.js:45-48 | a plan whose buckets start empty schedules no event |
| Plans.CountAfterPush | sources/redditStreamerTuner.js:57 | pushing an event onto a bucket adds one occurrence of that event and changes no other event's count |
| Tuner.Share | sources/redditStreamerTuner.js:17-21 | `floor(floor(p% of Q) / N)` is the largest per-subreddit value r with N·r within p% of the quota Q |
| Tuner.InitialDemandWithinQuota | sources/redditStreamerTuner.js:16-23 | the initial even split of 20% for posts and 70% for comments never asks for more than 90% of the quota |
| Tuner.Frequency | sources/redditStreamerTuner.js:38-39 | `ceil(60 / total)` is Infinity exactly when the total is 0; otherwise it is the least spacing f in 1..60 with total·f >= 60 |
| Tuner.TriggerListFacts | sources/redditStreamerTuner.js:86-99 | a trigger list is strictly increasing, lies in 1..60, holds exactly the multiples of its spacing there, and is non-empty for a finite spacing |
| Tuner.TypeTotal | sources/redditStreamerTuner.js:37-39 | a type's total is at least each subreddit's demand of that type, so one subreddit still wanting the type makes its total positive |
| Tuner.TotalDemand | sources/redditStreamerTuner.js:37-39 | `totalRequests` is the post total plus the comment total |
| Tuner.TotalAfterUpdate | sources/redditStreamerTuner.js:55-59 | changing one subreddit's demand changes the total by exactly the difference |
| Tuner.Uniform | sources/redditStreamerTuner.js:27-33 | the initialised table has exactly the subreddits as keys |
| Tuner.TotalOfUniform | sources/redditStreamerTuner.js:37 | with the same demand everywhere the total is the number of subreddits times that demand |
| Tuner.Rescale | sources/redditStreamerTuner.js:127-128 | `max(1, ceil(count·1.25/L))` is the fewest requests, at least one, whose L records each hold 5/4 of the count |
| Tuner.RescaleDemand | sources/redditStreamerTuner.js:127-128 | each type of a rescaled demand is at least 1, and that many requests of L records hold 5/4 of the observed count |
| Tuner.Rescaled | sources/redditStreamerTuner.js:125-129 | rescaling keeps the set of subreddits |
| Tuner.PlanWithinMinute | sources/redditStreamerTuner.js:45-48 | every bucket of a plan is a second in 1..60 |
| Tuner.AssignedIsPlanFor | sources/redditStreamerTuner.js:45-76 | buckets on the union of the trigger lists, each subreddit scheduled exactly its demand, every event in a second of its type: that is a plan for the demand |
| Tuner.PlacePreserves | sources/redditStreamerTuner.js:56-65 | placing one event and lowering the demand by one keeps "placed plus remaining equals the original demand" |
| Tuner.IndexOf | sources/redditStreamerTuner.js:83 | `indexOf` is -1 exactly when the value is absent, else the first index holding it |
| Tuner.RemoveFromArray | sources/redditStreamerTuner.js:82-84 | `splice(indexOf(v), 1)` removes the first v; with v absent it drops the last element |
| Tuner.RemoveAt | sources/redditStreamerTuner.js:72-74 | in a list of distinct names, removing names[i] deletes index i: the rest stay distinct, in order, and only names[i] is lost |
| Tuner.Advance | sources/redditStreamerTuner.js:59-71 | a cursor moves by one and wraps to 0 at the list length, so it always indexes the list |
| Tuner.PlaceOne | sources/redditStreamerTuner.js:56-71 | half a visit: if the subreddit still wants the type, its poll is pushed onto exactly the bucket at the type's cursor, its demand drops by one and the cursor advances with wrap; otherwise nothing changes. It keeps the even spread of that type (one more event placed) and of the other type (unchanged) |
| Tuner.KindCount | sources/redditStreamerTuner.js:57 | the number of events of one type in a bucket, at most the bucket's length |
| Tuner.SpreadPlace | sources/redditStreamerTuner.js:57-59 | pushing the next event of a type onto the bucket at its cursor, over distinct trigger seconds, keeps that type evenly spread: bucket j then holds `(T + m - 1 - j) / m` of the T events placed, and the cursor is `T mod m` |
| Tuner.SpreadOther | sources/redditStreamerTuner.js:57-62 | pushing an event of one type leaves the spread of the other type as it was |
| Tuner.Visit | sources/redditStreamerTuner.js:54-71 | one visit gives a subreddit at most one post and one comment poll, lowers its demand to `Served`, touches no other subreddit, keeps the plan's buckets and keeps both types evenly spread over their trigger seconds |
| Tuner.VisitSpreads | sources/redditStreamerTuner.js:54-65 | the events of a type placed so far are its original total less what the table still wants; a visit that places one event of each type still wanted keeps this, with the table served once |
| Tuner.VisitSpread | sources/redditStreamerTuner.js:54-71 | `Visit`, keeping `Spreads`: each type's placed events are its original total less its remaining demand, spread evenly over its trigger seconds |
| Tuner.SpliceIfDone | sources/redditStreamerTuner.js:72-74 | a used-up subreddit leaves the list and no other does; every subreddit with demand left stays; the unvisited front stays in place |
| Tuner.StepKeepsRoundRobin | sources/redditStreamerTuner.js:53-75 | a visit followed by the splice keeps the round-robin invariant |
| Tuner.StepIsFair | sources/redditStreamerTuner.js:53-75 | within a pass every subreddit is untouched or served exactly once |
| Tuner.StepShrinks | sources/redditStreamerTuner.js:52-75 | each visit lowers the total demand or shortens the list |
| Tuner.StepServes | sources/redditStreamerTuner.js:53-75 | after the visit at index i, every subreddit of the pass is at an index below i of the new list or has been served |
| Tuner.Step | sources/redditStreamerTuner.js:54-74 | one iteration of the inner for-loop keeps the invariant and the even spread of both types, is fair and makes progress; it serves exactly `names[i]` and leaves the names before i in place |
| Tuner.Pass | sources/redditStreamerTuner.js:53-75 | a back-to-front pass serves every subreddit of the list exactly once (its demand becomes `Served`), touches no other, keeps both types evenly spread, and strictly lowers total demand plus list length |
| Tuner.StartSpreads | sources/redditStreamerTuner.js:45-51 | empty buckets with both cursors at 0 are evenly spread with nothing placed |
| Tuner.SpreadsAtEnd | sources/redditStreamerTuner.js:52-76 | once the table is all zero, every event of each type's original total has been placed, evenly spread |
| Tuner.AssignBuckets | sources/redditStreamerTuner.js:46-76 | the while-loop terminates; each subreddit gets exactly its post and comment demand, each event in a trigger second of its type; the table ends all zero; and with T events of a type over its m trigger seconds, the j-th trigger second holds exactly `(T - j + m - 1) / m` of them (the wrapping cursors of lines 57, 62 and 66-69) |
| Tuner.DemandTable.WithDemand | sources/redditStreamerTuner.js:27-33 | `initializeNumberOfRequestsBySubreddit(p, c)` maps every subreddit to `{post: p, comment: c}` |
| Tuner.DemandTable.RescaleAll | sources/redditStreamerTuner.js:125-129 | every subreddit's demand becomes the rescaled one |
| Tuner.DemandTable.ConsumedIsZero | sources/redditStreamerTuner.js:52-76 | a consumed table is the all-zero table of the same subreddits |
| Tuner.Tuner.constructor | sources/redditStreamerTuner.js:7-12 | counter 0, `totalRequests` undefined, no callback, all-zero demand table |
| Tuner.Tuner.InitializeNumberOfRequestsBySubreddit | sources/redditStreamerTuner.js:27-33 | a fresh table giving every subreddit the same demand |
| Tuner.Tuner.GetInitialStreamerEvents | sources/redditStreamerTuner.js:14-25 | the result is a plan for the even split; `totalRequests` is N times the per-subreddit demand and at most 90% of the quota; the tuner's own table is untouched |
| Tuner.Tuner.GetTriggerSeconds | sources/redditStreamerTuner.js:86-99 | each list is `[f, 2f, ..., floor(60/f)·f]`, or empty for an infinite spacing |
| Tuner.Tuner.GetStreamerEvents | sources/redditStreamerTuner.js:35-80 | `totalRequests` is the sum of all demands; the result is a plan for the given demand; the given table is consumed (all zero) |
| Tuner.Tuner.OptimizeEvents | sources/redditStreamerTuner.js:114-117 | the callback is registered |
| Tuner.Tuner.Retune | sources/redditStreamerTuner.js:122-132 | the end of a cycle: the plan is a plan for the rescaled demand and goes to the callback exactly when one is registered (a TypeError otherwise); `totalRequests` becomes its total; the table ends all zero |
| Tuner.Tuner.HandleDataStream | sources/redditStreamerTuner.js:119-135 | `Handled`: the record count is added to the result's subreddit and type and the call is counted; when the counter then equals `totalRequests` the cycle ends as `CycleEnd` says; otherwise nothing else changes |
| Cache.Appended | sources/redditCache.js:12-18 | `add` appends the id; when the size reaches 301 it removes exactly the front (oldest) id and keeps the rest in order; a cache below 301 stays below 301 |
| Cache.AfterAdding | sources/redditCache.js:23 | adding ids to a cache below 301 leaves it below 301 |
| Cache.Unseen | sources/redditCache.js:22 | the unseen records are exactly the batch records whose id the cache lacks |
| Cache.AppendedNewest | sources/redditCache.js:14-16 | one `add` keeps the newest 300 ids of the longer sequence |
| Cache.AfterAddingIsNewest | sources/redditCache.js:23 | adding ids one by one leaves the newest 300 of the old ids followed by the new ones |
| Cache.FillFromEmpty | sources/redditCache.js:15-16 | an empty cache fed at least 300 ids holds exactly the last 300 |
| Cache.AfterAddingShape | sources/redditCache.js:23 | adding fewer than 301 ids evicts the oldest ones and leaves the rest followed by the new ids |
| Cache.AfterAddingFrom | sources/redditCache.js:23 | every id in the cache after adding came from the cache or from the added ids |
| Cache.UnseenIds | sources/redditCache.js:22-23 | the ids added by `filterAndAdd` are distinct and not yet cached |
| Cache.FilterAgain | sources/redditCache.js:22-23 | a second `filterAndAdd` of the same batch returns exactly the records whose ids the first call evicted |
| Cache.FilterTwiceNoEviction | sources/redditCache.js:22-23 | without eviction the second call returns nothing |
| Cache.FilterTwiceFreshBatch | sources/redditCache.js:22-23 | a batch of at most 300 uncached ids returns nothing the second time |
| Cache.FilterTwiceAfterEviction | sources/redditCache.js:15-23 | with a full cache, a batch holding the oldest id and new ones returns that record again the second time |
| Cache.TypeCaches.With | sources/redditCache.js:13 | replacing one type's cache leaves the other type's cache unchanged |
| Cache.CachesAfterAddsIs | sources/redditCache.js:23 | adding ids one by one changes only that (subreddit, type) cache, which becomes `AfterAdding` |
| Cache.RedditCache.constructor | sources/redditCache.js:6-10 | every subreddit, and nothing else, gets an empty post cache and an empty comment cache |
| Cache.RedditCache.Add | sources/redditCache.js:12-18 | only the named cache changes, as `Appended` says, and every cache stays below 301 distinct ids |
| Cache.AfterPoll | sources/redditCache.js:20-25 | `filterAndAdd` keeps the set of subreddits |
| Cache.AfterPollCaches | sources/redditCache.js:20-25 | `filterAndAdd` refills only the named cache, with the ids of the records it had not seen; every other cache stays |
| Cache.RedditCache.FilterAndAdd | sources/redditCache.js:20-25 | returns the unseen records in batch order; the caches become `AfterPoll` of the old ones; `cacheSize` is the new size |
| Streamer.AudienceAmong | sources/redditStreamer.js:23-24 | among the first n subscribers, publish reaches at most n |
| Streamer.Audience | sources/redditStreamer.js:23-24 | publish reaches at most every subscriber once |
| Streamer.AudienceAmongMembers | sources/redditStreamer.js:23-24 | among the first n subscribers, publish reaches exactly those whose events match |
| Streamer.AudienceMembers | sources/redditStreamer.js:24 | `publish(e)` reaches exactly the subscribers with `'all'` or e among their events |
| Streamer.AudienceGrows | sources/redditStreamer.js:23 | subscribers are reached in list order: the audience of a prefix starts the audience of a longer one |
| Streamer.Without | sources/redditStreamer.js:19 | `unsuscribe(n)` leaves no longer a list, with no entry named n |
| Streamer.WithoutMembers | sources/redditStreamer.js:19 | `unsuscribe(n)` drops exactly the entries named n |
| Streamer.WithoutIdempotent | sources/redditStreamer.js:19 | unsubscribing twice is unsubscribing once |
| Streamer.WithoutSplits | sources/redditStreamer.js:19 | unsubscribing keeps the others in their original order |
| Streamer.WithoutAfterSuscribe | sources/redditStreamer.js:14-20 | an entry subscribed last is dropped or kept on its own name alone |
| Streamer.TunerCalls | sources/redditStreamer.js:25 | the number of tuner entries among the subscribers called, at most their number |
| Streamer.NoTunerCalls | sources/redditStreamer.js:25 | no tuner call happens exactly when no entry called is the tuner |
| Streamer.RetuneDetachesTuner | sources/redditStreamer.js:50-52 | if only entries named `'tuner'` hand data to the tuner (as sources/redditSource.js:13 subscribes it), then after the retune callback's `unsuscribe('tuner')` no entry does, and no later publish reaches the tuner |
| Streamer.RetuneRuns | sources/redditStreamer.js:50-52 | one retune (drop the tuner's entries, cancel the running job, start the tuned plan) is a `Retuning`: the old jobs stay with the running one cancelled and the last job runs the plan for the rescaled demand |
| Streamer.RetuningTrans | sources/redditStreamer.js:22-27 | two runs of publishes in a row compose into one `Retuning`, whose running plan is the later retune's |
| Streamer.TunerCallsAllSnoc | sources/redditStreamer.js:25 | one more publish adds exactly its own tuner calls to the requests counted |
| Streamer.TunerCallsPrefix | sources/redditStreamer.js:23-25 | the subscribers called before a throw make no more tuner calls than the whole audience would |
| Streamer.RunCallsGrow | sources/redditStreamer.js:41-43 | more polls with the same audience make at least as many tuner calls |
| Streamer.NextSecond | sources/redditStreamer.js:70 | the next counter value is at least 1, and at most 61 when the old one was |
| Streamer.CounterAfter | sources/redditStreamer.js:70 | after k ticks from 0 the counter is 0 exactly when k is 0 |
| Streamer.CounterBounded | sources/redditStreamer.js:70 | from 0 the counter stays in 0..61 |
| Streamer.CounterFirstCycle | sources/redditStreamer.js:70 | during the first 61 ticks the counter is the tick number, so it reaches 61 |
| Streamer.CounterPeriodic | sources/redditStreamer.js:70 | from the first tick on, the counter repeats every 61 ticks |
| Streamer.EventsAt | sources/redditStreamer.js:64 | a second without a plan entry has no polls |
| Streamer.IdleSeconds | sources/redditStreamer.js:64-70 | every 61st tick falls on counter 0 or 61, which no plan has a bucket for, so that tick polls nothing |
| Streamer.StreamCalls | sources/redditStreamer.js:66-68 | each poll of the second becomes one `processStream(subreddit, type, 'stream', 100)`, in list order |
| Streamer.PreloadCalls | sources/redditStreamer.js:41-44 | the preload polls each subreddit's posts then comments, with limit 100, under `'preload'` |
| Streamer.Interleave | sources/redditStreamer.js:41-44 | the preload's batches come in poll order, each subreddit's post item and then, unless its post poll threw, its comment item; one item fewer per thrown post poll; with no throw, subreddit i's post item is at 2i and its comment item at 2i+1 |
| Streamer.AfterPolls | sources/redditStreamer.js:32-33 | polls run in order, each a `filterAndAdd` of its batch; they keep the set of subreddits |
| Streamer.PublishedBy | sources/redditStreamer.js:32-35 | each poll publishes exactly one result |
| Streamer.PublishedAt | sources/redditStreamer.js:32-35 | poll i publishes the records of its batch that its cache had not seen after the polls before it |
| Streamer.PublishedFrom | sources/redditStreamer.js:32-35 | each poll publishes under its own subreddit and type, only records of its own batch, and no id twice when the batch has none twice |
| Streamer.PollsSnoc | sources/redditStreamer.js:32-35 | one more poll refills the caches and publishes once more, after the earlier ones |
| Streamer.PollsElsewhere | sources/redditStreamer.js:32-33 | polls of other (subreddit, type) pairs leave that pair's cache as it was |
| Streamer.CancelCurrent | sources/redditStreamer.js:57-60 | `cancel()` marks the current job cancelled and nothing else |
| Streamer.StartKeepsOneActive | sources/redditStreamer.js:56-62 | after `startStreamer` exactly the new job runs: of any two jobs, at least one is cancelled |
| Streamer.TunedPlanServes | sources/redditStreamer.js:49-52 | a plan the tuner builds polls only the streamer's subreddits |
| Streamer.StreamOnlyMissesPreload | sources/redditStreamer.js:42-43 | a subscriber to `'stream'` alone, as the tuner is subscribed, never receives preload data but does receive stream data |
| Streamer.Feed | sources/redditStreamerTuner.js:119-135 | one `handleDataStream` call counts one request, keeps the callback flag and the table's subreddits, and changes the demand a retune observed only when a callback is registered |
| Streamer.FeedAll | sources/redditStreamerTuner.js:119-135 | n calls in turn count n requests, keep the callback flag and the table's subreddits, and without a callback leave the observed demand as it was |
| Streamer.FeedAllAppend | sources/redditStreamerTuner.js:119-135 | handing the tuner two runs of results in a row is handing it the joined run |
| Streamer.FeedAllSnoc | sources/redditStreamerTuner.js:119-135 | one more result is handled after all the earlier ones |
| Streamer.FeedOverruns | sources/redditStreamerTuner.js:118-133 | with no callback registered, the k-th tuner call throws exactly when it brings the counter to `totalRequests`, and afterwards the counter stays there; a call that does not throw keeps `totalRequests` |
| Streamer.Repeat | sources/redditStreamer.js:25 | a publish with k tuner entries called hands its data exactly k times, and nothing else |
| Streamer.Handed | sources/redditStreamer.js:22-27 | the tuner is handed only results that were published |
| Streamer.HandedSnoc | sources/redditStreamer.js:22-27 | one more publish hands its data once per tuner entry it called, after what the earlier ones handed |
| Streamer.HandedAppend | sources/redditStreamer.js:22-27 | what two runs of publishes hand the tuner is what the first hands, then what the second hands |
| Streamer.HandedLength | sources/redditStreamer.js:25 | the tuner is handed one result per tuner call of the run |
| Streamer.SettledTrans | sources/redditStreamer.js:22-27 | two runs of publishes in a row, the callback flag kept, compose into one `Settled` whose throw flag is either run's |
| Streamer.ReachedAfterRetune | sources/redditStreamer.js:23-24 | a publish that reached the subscribers a retune left also reached from those the run started with |
| Streamer.RanOne | sources/redditStreamer.js:22-28 | a single publish is a run of one publish |
| Streamer.RanAppend | sources/redditStreamer.js:22-28 | two runs in a row, the second starting from the first's subscribers or those without the tuner, are one run from the first's subscribers |
| Streamer.ReachedAppend | sources/redditStreamer.js:22-28 | what each publish of two runs in a row reached is reached from the subscribers the first run started with |
| Streamer.RanThenPublished | sources/redditStreamer.js:22-36 | a run followed by one more publish is a run, `Settled` from the run's start with the throw flags joined |
| Streamer.Throws | sources/redditStreamer.js:42-43 | the number of post polls that threw, zero exactly when none did |
| Streamer.PreloadPolls | sources/redditStreamer.js:41-43 | one poll of the given type per subreddit, in order |
| Streamer.PreloadOverruns | sources/redditStreamer.js:41-43 | the preload throws exactly when the tuner calls of all 2N polls would overrun `totalRequests`: the polls skipped after a throw do not change that |
| Streamer.OfferPasses | sources/redditStreamer.js:23-26 | a subscriber that is not a tuner entry taking the event is called exactly when its events match and changes neither streamer nor tuner |
| Streamer.OfferFeeds | sources/redditStreamer.js:23-26 | a tuner entry taking the event is called and hands the data once more; the tuner moves on as `Feed` says; a retune leaves the tuner dropped and the plan for the demand observed running; the call throws exactly when, with no callback registered, it is the one that brings the request counter to `totalRequests` |
| Streamer.HandingSnoc | sources/redditStreamer.js:25 | one more tuner call hands the same data once more after the earlier calls of the publish |
| Streamer.SettledFeed | sources/redditStreamer.js:23-26 | a tuner call that retunes or not extends what the publish so far left of subscribers and jobs, its throw flag the call's own |
| Streamer.PollRunStart | sources/redditStreamer.js:30-36 | a run of no `processStream` calls leaves caches, subscribers, jobs and tuner as they were |
| Streamer.PollStep | sources/redditStreamer.js:30-36 | one more `processStream` call, which polled, refilled its cache, published and did what `Published` says, extends the run by itself; the run has thrown exactly when, with no callback registered, its tuner calls (`RunCalls`) carry the counter from below `totalRequests` to it |
| Streamer.ThrewWhenStep | sources/redditStreamer.js:30-36 | a run that has thrown exactly when its tuner calls overran `totalRequests`, followed by a publish that throws exactly when its own calls overrun the counter left, has thrown exactly when the longer run's calls overran it |
| Streamer.PreloadAdvance | sources/redditStreamer.js:41-44 | subreddit i's polls (posts, then comments unless the post poll threw) extend the preload of the first i subreddits to the first i + 1 |
| Streamer.StreamAdvance | sources/redditStreamer.js:66-68 | poll i of the second extends the tick's run of its first i polls to its first i + 1 |
| Streamer.PollRunOutcome | sources/redditStreamer.js:30-36 | a run counts one request per tuner call and keeps the callback flag; subscribers stay or lose the tuner; a run that threw had no callback registered and changed neither subscribers nor jobs; a run no tuner entry takes part in changes nothing |
| Streamer.RedditStreamer.constructor | sources/redditStreamer.js:6-12 | no subscribers, counter 0, no job, and empty caches for the subreddits |
| Streamer.RedditStreamer.Suscribe | sources/redditStreamer.js:14-16 | the new entry goes to the end; earlier entries are unchanged |
| Streamer.RedditStreamer.Unsuscribe | sources/redditStreamer.js:18-20 | the list becomes `Without(list, name)` |
| Streamer.RedditStreamer.StartStreamer | sources/redditStreamer.js:56-62 | the current job is cancelled and the new one appended, so only the last job runs |
| Streamer.RedditStreamer.OnRetuned | sources/redditStreamer.js:50-53 | the retune callback unsubscribes `'tuner'`, then starts the new plan |
| Streamer.RedditStreamer.FeedTuner | sources/redditStreamer.js:25 | the tuner handles the data as `Handled` says; when that retunes, the tuner's subscription is dropped and the current job is cancelled and followed by one running the plan for the rescaled observed demand (`Retuning`); otherwise subscribers and jobs are unchanged |
| Streamer.RedditStreamer.Offer | sources/redditStreamer.js:23-27 | one step of the `forEach` keeps `Publishing`: subscriber i is called exactly when its events match, a tuner call counts one request, and with no tuner in the audience nothing changes; the publish so far has thrown exactly when, with no callback registered, the tuner calls so far brought the counter to `totalRequests`, and then the counter stops there |
| Streamer.RedditStreamer.OfferAll | sources/redditStreamer.js:23-27 | the `forEach` runs over every subscriber unless a callback throws, keeping `Publishing`; it throws exactly when no callback is registered and the counter, below `totalRequests` at the start, reaches it within the audience's tuner calls |
| Streamer.RedditStreamer.Publish | sources/redditStreamer.js:22-28 | the subscribers called are, in list order, exactly the audience of the list at the start; a throwing callback cuts this short after itself; the tuner counts one request per tuner entry called; subscribers and jobs are unchanged or retuned to the plan for the observed demand (`Retuning`); the publish throws exactly when no callback is registered and the counter, below `totalRequests`, reaches it within `TunerCalls` of the audience, and it stops at the call that reaches it; with no tuner in the audience nothing else changes |
| Streamer.RedditStreamer.ProcessStream | sources/redditStreamer.js:30-36 | the published data is the unseen records of the polled batch; the caches become `AfterPoll` of the old ones; the audience receives the data, the tuner counts one request per tuner entry called, subscribers and jobs are unchanged or retuned (`Retuning`); the call throws exactly when no callback is registered and the audience's tuner calls carry the counter to `totalRequests`; with no tuner in the audience nothing else changes |
| Streamer.RedditStreamer.PollNext | sources/redditStreamer.js:30-36 | one `processStream` call extends the run of calls before it (`PollRun`) by itself: `AfterPolls` and `PublishedBy` grow by this call; it reached the audience of the run's first subscribers (or of them without the tuner), cut short only after a tuner call that threw; the tuner was handed the data once per tuner call; subscribers and jobs are unchanged or retuned to the plan for the demand observed; the run has thrown exactly when, with no callback registered, its calls' tuner requests (`RunCalls`) reach `totalRequests` from below; with no tuner taking the event, every call reached that whole audience |
| Streamer.RedditStreamer.PreloadOne | sources/redditStreamer.js:42-43 | one subreddit's post poll and then, unless the post poll's publish threw, its comment poll extend the run (`PollRun`) by exactly those polls in that order; a comment poll that runs follows a post poll that did not throw |
| Streamer.RedditStreamer.PreloadNext | sources/redditStreamer.js:41-44 | one iteration of the preload over subreddit i keeps the loop invariant `Preloading` (calls, caches, publications, counted requests and retunes so far) |
| Streamer.RedditStreamer.PreloadCaches | sources/redditStreamer.js:38-45 | the calls are exactly `PreloadCalls(subreddits)`, each subreddit's comment poll skipped when its post poll threw; the run (`PollRun`) refills the caches by each call's batch in turn (`AfterPolls`), publishes `PublishedBy` those calls and hands the tuner each result once per tuner call; the counter grows by every publish's tuner calls and the callback flag is kept; subscribers and jobs are unchanged or retuned; some poll throws exactly when no callback is registered and the 2N polls' tuner calls would carry the counter from below `totalRequests` to it; a throw changes neither subscribers nor jobs; if no tuner subscriber takes `'preload'`, nothing throws and subscribers, jobs and tuner are unchanged |
| Streamer.RedditStreamer.ProcessEvents | sources/redditStreamer.js:64-68 | the calls are the stream calls of the second's polls, in order; the caches are refilled by each in turn, and what is published is `PublishedBy` those calls; the tuner's counter grows by every publish's tuner calls; subscribers and jobs are unchanged or retuned to the plan for the observed demand; with no tuner in the `'stream'` audience subscribers, jobs and tuner are unchanged and every publish reaches that whole audience |
| Streamer.RedditStreamer.StreamNext | sources/redditStreamer.js:66-68 | one iteration of the `forEach` over the second's polls keeps the loop invariant `Streaming` |
| Streamer.RedditStreamer.Tick | sources/redditStreamer.js:62-71 | the calls are the stream calls of the running plan's current second; the caches are refilled by each in turn and what is published is `PublishedBy` those calls; the tuner's counter grows by every publish's tuner calls; subscribers and jobs are unchanged or retuned; with no tuner in the `'stream'` audience subscribers, jobs and tuner are unchanged; the counter moves to `NextSecond` |
| Streamer.RedditStreamer.Launch | sources/redditStreamer.js:49-53 | the current job is cancelled and followed by one running the tuner's initial plan, a plan for the even split; `totalRequests` is N times the per-subreddit demand; the retune callback is registered; the tuner's request counter and demand table are untouched |
| Streamer.RedditStreamer.Init | sources/redditStreamer.js:47-54 | the caches are those the preload leaves (`AfterPolls` over `PreloadCalls`); `init` is rejected (nothing launched) exactly when a preload publish throws, which is exactly when no callback is registered and the 2N preload polls' tuner calls would carry the counter from below `totalRequests` to it; then subscribers and jobs are unchanged; otherwise the running job is the tuner's initial plan, a plan for the even split, `totalRequests` is N times the per-subreddit demand, and the retune callback is registered; subscribers are unchanged or without the tuner; with no tuner taking `'preload'`, init launches, the subscribers stay, the old running job is cancelled and the tuner's counter and table are untouched |

## Left out

- The Reddit fetch, with its HTTP and JSON parsing, is a parameter. Each method that polls takes the records the polls return. The `redditApi` client is not part of this model.
- The constants `RedditApi.MAX_REQUEST_PER_MINUTE` and `MAX_REQUEST_RECORDS_LIMIT` do not appear in the source files used. They are the tuner's parameters `quota` (at least 0) and `recordsLimit` (at least 1).
- Timing is not modelled:
  - `node-schedule` firing once a second is replaced by `Tick`, one firing of the running job;
  - `processStream` calls that are not awaited are run one after another, in list order;
  - `Promise.all` in the preload runs the subreddits in order. A subreddit whose post publish throws skips its own comment poll, and the other subreddits' polls still run, as the closures `Promise.all` has already started would. Init then launches nothing.
- Floating point is replaced by exact percentages and 5/4:
  - `(0.25 - 0.05)` and `(0.75 - 0.05)` become 20% and 70%;
  - `1.25` becomes 5/4.
- Tuner.Share: computes `floor(p·Q/100)` exactly, for p = 20 (posts) and p = 70 (comments), so it does not model a double-precision product that rounds just below an integer.
- `console.log` output is left out, and so is the commented-out survey code in the tuner.
- The default `limit = 25` of `processStream` is left out. Every caller passes 100, and each `StreamCall` records that limit.
- Subscriber callbacks are left out except the tuner's own `handleDataStream`. Any other callback (e.g. the ingester) is a tag with no effect on the streamer.
- Event filters are `'all'` or a list of names. A string `events` other than `'all'` is left out: there, `includes` would do a substring match.
- Cache.RedditCache.Add: requires that the id is not already cached. What `OrderedDict.append` does with a key that is already present is library behaviour outside this model.
- Cache.RedditCache.FilterAndAdd: requires distinct ids within the batch, for the same reason. It also requires that the subreddit exists; the code would fail on `undefined`.
- Streamer.RedditStreamer.ProcessStream: requires distinct ids within each fetched batch, as `FilterAndAdd` does. `Tick`, `PreloadCaches` and `Init` carry the same requirement.
- Tuner.Tuner.HandleDataStream: requires a known subreddit; the code would throw a TypeError on `undefined`.
- Tuner.Tuner.constructor: requires distinct subreddit names. With duplicates, the JavaScript object would merge keys while `subreddits.length` still counts each one.
- Cache.AfterPoll: a subreddit without caches is left as it is, where the code would throw on `undefined`. The streamer only polls its own subreddits, which all have caches.
- The key order of a demand table (`Object.keys`) is `DemandTable.names`, the order of the subreddit list. JavaScript puts integer-like keys first, in ascending order. That order decides which second each poll lands in; no proved property (`PlanFor`, fairness, termination) depends on it.
- The `currentJob` of the code is the last of `jobs`. A cancelled job stays in the list, marked cancelled, so that "only one job runs" can be stated.

## Notes

- The second `filterAndAdd` of the same batch does not always return nothing. It returns exactly the records whose ids the first call evicted (`Cache.FilterAgain`). So it returns nothing when the first call evicted none of them (`Cache.FilterTwiceNoEviction`, `Cache.FilterTwiceFreshBatch`). `Cache.FilterTwiceAfterEviction` gives a full cache and a batch for which the same record comes back.
- `getInitialStreamerEvents` builds its plan from a fresh table, so the tuner's own table stays all zero until results arrive.
- `getStreamerEvents` consumes the table it is given. After a retune, the tuner's table is therefore all zero, and the counts of the next cycle start from zero.
