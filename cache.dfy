/**
 * The dedup cache: for every (subreddit, type) an insertion-ordered set of
 * the record ids seen last, evicting the oldest id once it holds
 * MAX_CACHE_SIZE of them, so that it settles at MAX_CACHE_SIZE - 1 ids.
 */
module Cache {
  import opened Types

  const MAX_CACHE_SIZE: nat := 301

  /** No two records of the batch share an id. */
  ghost predicate DistinctIds(rs: seq<Record>) {
    forall i, j :: 0 <= i < j < |rs| ==> rs[i].id != rs[j].id
  }

  /** A cache the class can hold: fewer than MAX_CACHE_SIZE ids, no id twice. */
  ghost predicate WellFormed(cache: seq<Id>) {
    |cache| < MAX_CACHE_SIZE && Distinct(cache)
  }

  /**
   * The ordered set after `add`: the id goes to the back and, when the size
   * has reached MAX_CACHE_SIZE, the front (oldest) id is removed.
   */
  function Appended(cache: seq<Id>, id: Id): (r: seq<Id>)
    ensures |cache| + 1 >= MAX_CACHE_SIZE ==> |cache| > 0 && cache + [id] == [cache[0]] + r
    ensures |cache| + 1 < MAX_CACHE_SIZE ==> cache + [id] == r
    ensures |cache| < MAX_CACHE_SIZE ==> |r| < MAX_CACHE_SIZE
  {
    var appended := cache + [id];
    if |appended| >= MAX_CACHE_SIZE then appended[1..] else appended
  }

  /** The cache after `add`ing the ids one after another. */
  function AfterAdding(cache: seq<Id>, ids: seq<Id>): (r: seq<Id>)
    ensures |cache| < MAX_CACHE_SIZE ==> |r| < MAX_CACHE_SIZE
  {
    if ids == [] then cache
    else Appended(AfterAdding(cache, ids[..|ids| - 1]), ids[|ids| - 1])
  }

  /** The MAX_CACHE_SIZE - 1 ids at the back of `s` (all of `s` if shorter). */
  function Newest(s: seq<Id>): (r: seq<Id>)
    ensures |r| == if |s| < MAX_CACHE_SIZE then |s| else MAX_CACHE_SIZE - 1
    ensures r == s[|s| - |r|..]
  {
    if |s| < MAX_CACHE_SIZE then s else s[|s| - (MAX_CACHE_SIZE - 1)..]
  }

  /** How many of the oldest ids go when `added` new ids enter `cache`. */
  function Evicted(cache: seq<Id>, added: nat): (k: nat)
    ensures k <= |cache| + added
  {
    if |cache| + added < MAX_CACHE_SIZE then 0 else |cache| + added - (MAX_CACHE_SIZE - 1)
  }

  /** The records of the batch whose ids are not in the cache, in batch order. */
  function Unseen(data: seq<Record>, cache: seq<Id>): (r: seq<Record>)
    ensures |r| <= |data|
    ensures forall x :: x in r <==> x in data && x.id !in cache
  {
    FilterMembers(data, (x: Record) => x.id !in cache);
    Filter(data, (x: Record) => x.id !in cache)
  }

  /** The cache after filterAndAdd of `data`. */
  function Refilled(cache: seq<Id>, data: seq<Record>): seq<Id>
  {
    AfterAdding(cache, Ids(Unseen(data, cache)))
  }

  /** One append keeps the newest ids of the longer sequence. */
  lemma {:induction false} AppendedNewest(s: seq<Id>, x: Id)
    ensures Appended(Newest(s), x) == Newest(s + [x])
  {
    var n := Newest(s);
    if |s| >= MAX_CACHE_SIZE - 1 {
      var from := |s| - (MAX_CACHE_SIZE - 2);
      assert n == s[from - 1..];
      assert Appended(n, x) == (n + [x])[1..];
      assert (n + [x])[1..] == s[from..] + [x];
      assert Newest(s + [x]) == (s + [x])[from..];
      assert (s + [x])[from..] == s[from..] + [x];
    } else {
      assert n == s;
    }
  }

  /**
   * Adding ids one by one to a cache below the bound keeps exactly the
   * newest MAX_CACHE_SIZE - 1 of the old ids followed by the new ones.
   */
  lemma {:induction false} AfterAddingIsNewest(cache: seq<Id>, ids: seq<Id>)
    requires |cache| < MAX_CACHE_SIZE
    ensures AfterAdding(cache, ids) == Newest(cache + ids)
  {
    if ids == [] {
      assert cache + ids == cache;
    } else {
      var front, x := ids[..|ids| - 1], ids[|ids| - 1];
      AfterAddingIsNewest(cache, front);
      assert cache + ids == (cache + front) + [x];
      AppendedNewest(cache + front, x);
    }
  }

  /** Filling an empty cache with at least MAX_CACHE_SIZE - 1 ids keeps the last ones. */
  lemma {:induction false} FillFromEmpty(ids: seq<Id>)
    requires |ids| >= MAX_CACHE_SIZE - 1
    ensures AfterAdding([], ids) == ids[|ids| - (MAX_CACHE_SIZE - 1)..]
  {
    AfterAddingIsNewest([], ids);
    assert [] + ids == ids;
    assert |Newest(ids)| == MAX_CACHE_SIZE - 1;
  }

  /** Dropping the first record keeps the ids distinct. */
  lemma {:induction false} DistinctIdsTail(data: seq<Record>)
    requires data != [] && DistinctIds(data)
    ensures DistinctIds(data[1..])
    ensures forall x :: x in data[1..] ==> x.id != data[0].id
  {
    forall i, j | 0 <= i < j < |data[1..]| ensures data[1..][i].id != data[1..][j].id {
      assert data[1..][i] == data[i + 1] && data[1..][j] == data[j + 1];
    }
    forall x | x in data[1..] ensures x.id != data[0].id {
      var k :| 0 <= k < |data[1..]| && data[1..][k] == x;
      assert data[k + 1] == x;
    }
  }

  /** Putting a record in front of records with other, distinct ids keeps the ids distinct. */
  lemma {:induction false} DistinctIdsCons(pre: seq<Record>, rest: seq<Record>)
    requires |pre| <= 1 && DistinctIds(rest)
    requires forall x, y :: x in pre && y in rest ==> x.id != y.id
    ensures DistinctIds(pre + rest)
  {
    forall i, j | 0 <= i < j < |pre + rest| ensures (pre + rest)[i].id != (pre + rest)[j].id {
      var o := |pre|;
      assert (pre + rest)[j] == rest[j - o];
      if o == 1 && i == 0 {
        assert pre[0] in pre && rest[j - o] in rest;
      } else {
        assert (pre + rest)[i] == rest[i - o];
      }
    }
  }

  /** The ids of records drawn from a batch of distinct ids are distinct. */
  lemma {:induction false} FilterDistinctIds(data: seq<Record>, keep: Record -> bool)
    requires DistinctIds(data)
    ensures DistinctIds(Filter(data, keep))
  {
    if data != [] {
      DistinctIdsTail(data);
      FilterDistinctIds(data[1..], keep);
      var pre := if keep(data[0]) then [data[0]] else [];
      FilterMembers(data[1..], keep);
      DistinctIdsCons(pre, Filter(data[1..], keep));
    }
  }

  /** `x` is in the ids of `rs` exactly when some record of `rs` has that id. */
  lemma {:induction false} InIds(rs: seq<Record>, x: Id)
    ensures x in Ids(rs) <==> exists r :: r in rs && r.id == x
  {
    if x in Ids(rs) {
      var i :| 0 <= i < |rs| && Ids(rs)[i] == x;
      assert rs[i] in rs;
    }
  }

  /** In a cache of distinct ids, an id is in the oldest k exactly when it is not in the rest. */
  lemma {:induction false} OldestOrRest(cache: seq<Id>, k: nat, x: Id)
    requires Distinct(cache) && k <= |cache| && x in cache
    ensures x in cache[..k] <==> x !in cache[k..]
  {
    var i :| 0 <= i < |cache| && cache[i] == x;
    if x in cache[k..] {
      var j :| 0 <= j < |cache[k..]| && cache[k..][j] == x;
      assert cache[k + j] == x;
    }
    if x in cache[..k] {
      var j :| 0 <= j < k && cache[..k][j] == x;
      assert cache[j] == x;
    }
    if i < k {
      assert cache[..k][i] == x;
    } else {
      assert cache[k..][i - k] == x;
    }
  }

  /** Adding fewer than MAX_CACHE_SIZE ids leaves the unevicted old ids followed by the new ones. */
  lemma {:induction false} AfterAddingShape(cache: seq<Id>, ids: seq<Id>)
    requires |cache| < MAX_CACHE_SIZE && |ids| < MAX_CACHE_SIZE
    ensures Evicted(cache, |ids|) <= |cache|
    ensures AfterAdding(cache, ids) == cache[Evicted(cache, |ids|)..] + ids
  {
    var all := cache + ids;
    var k := Evicted(cache, |ids|);
    AfterAddingIsNewest(cache, ids);
    assert Newest(all) == all[k..];
    assert all[k..] == cache[k..] + ids;
  }

  /**
   * Filtering the same batch again: what comes back is exactly the records
   * whose ids were among the oldest ones that the first call evicted.
   */
  lemma {:induction false} FilterAgain(data: seq<Record>, cache: seq<Id>)
    requires WellFormed(cache)
    requires |Unseen(data, cache)| < MAX_CACHE_SIZE
    ensures forall r :: r in Unseen(data, Refilled(cache, data)) <==>
              r in data && r.id in cache[..Evicted(cache, |Unseen(data, cache)|)]
  {
    var u := Unseen(data, cache);
    var k := Evicted(cache, |u|);
    AfterAddingShape(cache, Ids(u));
    forall r | r in data
      ensures r.id !in cache[k..] + Ids(u) <==> r.id in cache[..k]
    {
      InIds(u, r.id);
      if r.id in cache {
        OldestOrRest(cache, k, r.id);
      } else {
        assert r in u;
      }
    }
  }

  /** Without eviction the second call returns nothing. */
  lemma {:induction false} FilterTwiceNoEviction(data: seq<Record>, cache: seq<Id>)
    requires WellFormed(cache)
    requires |cache| + |Unseen(data, cache)| < MAX_CACHE_SIZE
    ensures Unseen(data, Refilled(cache, data)) == []
  {
    FilterAgain(data, cache);
    NoMembers(Unseen(data, Refilled(cache, data)));
  }

  /** A batch of ids none of which is cached yet comes back empty the second time. */
  lemma {:induction false} FilterTwiceFreshBatch(data: seq<Record>, cache: seq<Id>)
    requires WellFormed(cache)
    requires |data| < MAX_CACHE_SIZE
    requires forall r :: r in data ==> r.id !in cache
    ensures Unseen(data, Refilled(cache, data)) == []
  {
    FilterAgain(data, cache);
    NoMembers(Unseen(data, Refilled(cache, data)));
  }

  /**
   * With the cache full, a batch holding the oldest cached id and some new
   * ones evicts that id, so the same batch yields that record again.
   */
  lemma {:induction false} FilterTwiceAfterEviction(first: Record, newer: seq<Record>, cache: seq<Id>)
    requires WellFormed(cache) && |cache| == MAX_CACHE_SIZE - 1
    requires first.id == cache[0]
    requires 0 < |newer| < MAX_CACHE_SIZE
    requires forall r :: r in newer ==> r.id !in cache
    ensures Unseen([first] + newer, Refilled(cache, [first] + newer)) == [first]
  {
    var data := [first] + newer;
    FilterAgain(data, cache);
    assert Unseen(data, cache) == Filter(newer, (x: Record) => x.id !in cache) by {
      assert data[1..] == newer;
    }
    var k := Evicted(cache, |Unseen(data, cache)|);
    assert Unseen(data, cache) == newer by {
      FilterKeepsAll(newer, (x: Record) => x.id !in cache);
    }
    assert k >= 1 && cache[..k][0] == first.id;
    var again := Unseen(data, Refilled(cache, data));
    var rest := Filter(newer, (x: Record) => x.id !in Refilled(cache, data));
    FilterMembers(newer, (x: Record) => x.id !in Refilled(cache, data));
    assert data[1..] == newer;
    assert again == [first] + rest;
    NoMembers(rest);
  }

  /** Every id a cache holds after adding came from the cache or the added ids. */
  lemma {:induction false} AfterAddingFrom(cache: seq<Id>, ids: seq<Id>)
    requires |cache| < MAX_CACHE_SIZE
    ensures forall x :: x in AfterAdding(cache, ids) ==> x in cache || x in ids
  {
    AfterAddingIsNewest(cache, ids);
    forall x | x in AfterAdding(cache, ids) ensures x in cache || x in ids {
      assert x in cache + ids;
    }
  }

  /** The ids of the unseen records of a batch of distinct ids are distinct and not cached. */
  lemma {:induction false} UnseenIds(data: seq<Record>, cache: seq<Id>)
    requires DistinctIds(data)
    ensures Distinct(Ids(Unseen(data, cache)))
    ensures forall j :: 0 <= j < |Unseen(data, cache)| ==> Ids(Unseen(data, cache))[j] !in cache
  {
    var unseen := Unseen(data, cache);
    FilterDistinctIds(data, (x: Record) => x.id !in cache);
    forall j | 0 <= j < |unseen| ensures Ids(unseen)[j] !in cache {
      assert unseen[j] in unseen;
    }
  }

  /** The next of a list of distinct, uncached ids is not in the cache after the ones before it. */
  lemma {:induction false} AddingNext(cache: seq<Id>, ids: seq<Id>, i: nat)
    requires |cache| < MAX_CACHE_SIZE && i < |ids|
    requires Distinct(ids) && forall j :: 0 <= j < |ids| ==> ids[j] !in cache
    ensures ids[i] !in AfterAdding(cache, ids[..i])
  {
    AfterAddingFrom(cache, ids[..i]);
  }

  /** The two ordered sets of one subreddit, `{comment, post}`. */
  datatype TypeCaches = TypeCaches(comment: seq<Id>, post: seq<Id>) {
    function Of(t: ItemType): seq<Id> {
      match t
      case Post => post
      case Comment => comment
    }

    function With(t: ItemType, cache: seq<Id>): (r: TypeCaches)
      ensures r.Of(t) == cache
      ensures forall u :: u != t ==> r.Of(u) == Of(u)
    {
      match t
      case Post => TypeCaches(comment, cache)
      case Comment => TypeCaches(cache, post)
    }
  }

  /** Every cache after `add(id, subreddit, t)`: only that subreddit's `t` cache changes. */
  function CachesAfterAdd(caches: map<string, TypeCaches>, id: Id, subreddit: string, t: ItemType)
    : (r: map<string, TypeCaches>)
    requires subreddit in caches
    ensures subreddit in r
  {
    caches[subreddit := caches[subreddit].With(t, Appended(caches[subreddit].Of(t), id))]
  }

  /** Every cache after `add`ing the ids, in order, to one subreddit's `t` cache. */
  function CachesAfterAdds(caches: map<string, TypeCaches>, ids: seq<Id>, subreddit: string, t: ItemType)
    : (r: map<string, TypeCaches>)
    requires subreddit in caches
    ensures subreddit in r
  {
    if ids == [] then caches
    else CachesAfterAdd(CachesAfterAdds(caches, ids[..|ids| - 1], subreddit, t), ids[|ids| - 1], subreddit, t)
  }

  /** Adding ids one by one leaves every other cache alone and fills that one as AfterAdding says. */
  lemma {:induction false} CachesAfterAddsIs(caches: map<string, TypeCaches>, ids: seq<Id>, subreddit: string, t: ItemType)
    requires subreddit in caches
    ensures CachesAfterAdds(caches, ids, subreddit, t)
            == caches[subreddit := caches[subreddit].With(t, AfterAdding(caches[subreddit].Of(t), ids))]
  {
    if ids != [] {
      var front := ids[..|ids| - 1];
      CachesAfterAddsIs(caches, front, subreddit, t);
      var entry := caches[subreddit];
      var before := AfterAdding(entry.Of(t), front);
      assert entry.With(t, before).With(t, Appended(before, ids[|ids| - 1]))
             == entry.With(t, AfterAdding(entry.Of(t), ids));
    }
  }

  /**
   * Adding the next of a list of distinct ids none of which is cached: it is
   * not in the cache yet, and it is one more `add` after the ones before it.
   */
  lemma {:induction false} AddsNext(caches: map<string, TypeCaches>, ids: seq<Id>, i: nat, subreddit: string, t: ItemType)
    requires subreddit in caches && |caches[subreddit].Of(t)| < MAX_CACHE_SIZE && i < |ids|
    requires Distinct(ids) && forall j :: 0 <= j < |ids| ==> ids[j] !in caches[subreddit].Of(t)
    ensures ids[i] !in CachesAfterAdds(caches, ids[..i], subreddit, t)[subreddit].Of(t)
    ensures CachesAfterAdds(caches, ids[..i + 1], subreddit, t)
            == CachesAfterAdd(CachesAfterAdds(caches, ids[..i], subreddit, t), ids[i], subreddit, t)
  {
    AddingNext(caches[subreddit].Of(t), ids, i);
    CachesAfterAddsIs(caches, ids[..i], subreddit, t);
    assert ids[..i + 1][..i] == ids[..i];
  }

  /** The ids held for (subreddit, t); none for a subreddit without caches. */
  function CacheOf(caches: map<string, TypeCaches>, subreddit: string, t: ItemType): seq<Id>
  {
    if subreddit in caches then caches[subreddit].Of(t) else []
  }

  /** The caches once `filterAndAdd(data, subreddit, t)` has run. */
  function AfterPoll(caches: map<string, TypeCaches>, subreddit: string, t: ItemType, data: seq<Record>)
    : (r: map<string, TypeCaches>)
    ensures forall s :: s in r <==> s in caches
  {
    if subreddit in caches then caches[subreddit := caches[subreddit].With(t, Refilled(caches[subreddit].Of(t), data))]
    else caches
  }

  /**
   * After `filterAndAdd(data, subreddit, t)` that one cache takes the ids of
   * the batch it had not seen and no other cache changes. A subreddit
   * without caches is left as it is.
   */
  lemma {:induction false} AfterPollCaches(caches: map<string, TypeCaches>, subreddit: string, t: ItemType,
                                           data: seq<Record>)
    ensures forall s, u :: CacheOf(AfterPoll(caches, subreddit, t, data), s, u) ==
              if s == subreddit && u == t && s in caches then Refilled(CacheOf(caches, s, u), data)
              else CacheOf(caches, s, u)
  {
  }

  class RedditCache {
    /** `allCaches`: subreddit name to its two ordered sets. */
    var allCaches: map<string, TypeCaches>

    ghost predicate Valid()
      reads this
    {
      forall s, t :: s in allCaches ==> WellFormed(allCaches[s].Of(t))
    }

    /** Every subreddit starts with an empty post cache and an empty comment cache. */
    constructor (subreddits: seq<string>)
      ensures Valid()
      ensures forall s :: s in allCaches <==> s in subreddits
      ensures forall s, t :: s in allCaches ==> allCaches[s].Of(t) == []
    {
      allCaches := map s | s in subreddits :: TypeCaches([], []);
    }

    /**
     * `add`: appends the id to the (subreddit, type) cache and removes the
     * first entry when the size has reached MAX_CACHE_SIZE.
     */
    method Add(id: Id, subreddit: string, t: ItemType)
      requires Valid() && subreddit in allCaches
      requires id !in allCaches[subreddit].Of(t)
      modifies this
      ensures Valid()
      ensures allCaches == CachesAfterAdd(old(allCaches), id, subreddit, t)
    {
      var currentCache := allCaches[subreddit].Of(t);
      currentCache := currentCache + [id];
      if |currentCache| >= MAX_CACHE_SIZE {
        currentCache := currentCache[1..];
      }
      allCaches := allCaches[subreddit := allCaches[subreddit].With(t, currentCache)];
      assert Distinct(currentCache) by {
        var before := old(allCaches)[subreddit].Of(t);
        forall i, j | 0 <= i < j < |before + [id]| ensures (before + [id])[i] != (before + [id])[j] {
          if j == |before| {
            assert before[i] in before;
          }
        }
      }
    }

    /**
     * `filterAndAdd`: returns the records of the batch whose ids the cache
     * did not hold, in batch order, adds their ids in that order and reports
     * the size of the cache afterwards. No other cache changes.
     */
    method FilterAndAdd(data: seq<Record>, subreddit: string, t: ItemType)
      returns (filteredStreamData: seq<Record>, cacheSize: nat)
      requires Valid() && subreddit in allCaches
      requires DistinctIds(data)
      modifies this
      ensures Valid()
      ensures filteredStreamData == Unseen(data, old(allCaches)[subreddit].Of(t))
      ensures allCaches == AfterPoll(old(allCaches), subreddit, t, data)
      ensures cacheSize == |allCaches[subreddit].Of(t)|
    {
      var currentCache := allCaches[subreddit].Of(t);
      filteredStreamData := Filter(data, (x: Record) => x.id !in currentCache);
      var ids := Ids(filteredStreamData);
      UnseenIds(data, currentCache);
      for i := 0 to |filteredStreamData|
        invariant Valid()
        invariant allCaches == CachesAfterAdds(old(allCaches), ids[..i], subreddit, t)
      {
        AddsNext(old(allCaches), ids, i, subreddit, t);
        Add(filteredStreamData[i].id, subreddit, t);
      }
      assert ids[..|filteredStreamData|] == ids;
      CachesAfterAddsIs(old(allCaches), ids, subreddit, t);
      cacheSize := |allCaches[subreddit].Of(t)|;
    }
  }
}
