/** Values shared by the tuner, the cache and the streamer. */
module Types {

  datatype Option<T> = None | Some(value: T)

  /** The two kinds of listing the streamer polls ('post' and 'comment'). */
  datatype ItemType = Post | Comment

  type Id = string

  /** A fetched record: only `id` is used by the scheduler and the cache. */
  datatype Record = Record(id: Id, payload: string)

  /** One scheduled poll `{type, subreddit}` of a bucket plan. */
  datatype PollEvent = PollEvent(kind: ItemType, subreddit: string)

  /** A bucket plan: second of the minute to the ordered list of polls fired then. */
  type Plan = map<nat, seq<PollEvent>>

  const SECONDS_IN_MINUTE: nat := 60

  /** What `processStream` publishes: `{records, subredditName, type}`. */
  datatype StreamData = StreamData(records: seq<Record>, subredditName: string, kind: ItemType)

  /** Requests per minute wanted for one subreddit, `{post, comment}`. */
  datatype Demand = Demand(post: nat, comment: nat) {
    function Of(t: ItemType): nat {
      match t
      case Post => post
      case Comment => comment
    }

    /** `demand[type] += n` */
    function Plus(t: ItemType, n: nat): (d: Demand)
      ensures d.Of(t) == Of(t) + n
      ensures forall u :: u != t ==> d.Of(u) == Of(u)
    {
      match t
      case Post => Demand(post + n, comment)
      case Comment => Demand(post, comment + n)
    }

    /** `demand[type] -= 1` */
    function Less(t: ItemType): (d: Demand)
      requires Of(t) > 0
      ensures d.Of(t) + 1 == Of(t)
      ensures forall u :: u != t ==> d.Of(u) == Of(u)
    {
      match t
      case Post => Demand(post - 1, comment)
      case Comment => Demand(post, comment - 1)
    }

    function Weight(): nat { post + comment }

    /**
     * The demand left after one visit of the round robin, which schedules
     * one request of each type that is still wanted.
     */
    function Served(): (d: Demand)
      ensures forall t :: d.Of(t) == if Of(t) > 0 then Of(t) - 1 else 0
      ensures d == Demand(0, 0) || d.Weight() < Weight()
    {
      Demand(if post > 0 then post - 1 else 0, if comment > 0 then comment - 1 else 0)
    }
  }

  ghost predicate Distinct<T>(s: seq<T>) {
    forall i, j :: 0 <= i < j < |s| ==> s[i] != s[j]
  }

  function Ids(rs: seq<Record>): (ids: seq<Id>)
    ensures |ids| == |rs|
    ensures forall i :: 0 <= i < |rs| ==> ids[i] == rs[i].id
  {
    if rs == [] then [] else [rs[0].id] + Ids(rs[1..])
  }

  /**
   * Array.prototype.filter: the elements of `s` that `keep` accepts, in
   * their original order.
   */
  function Filter<T(!new)>(s: seq<T>, keep: T -> bool): (r: seq<T>)
    ensures |r| <= |s|
  {
    if s == [] then []
    else (if keep(s[0]) then [s[0]] else []) + Filter(s[1..], keep)
  }

  /** The filter keeps exactly the elements `keep` accepts. */
  lemma {:induction false} FilterMembers<T(!new)>(s: seq<T>, keep: T -> bool)
    ensures forall x :: x in Filter(s, keep) <==> x in s && keep(x)
  {
    if s != [] {
      FilterMembers(s[1..], keep);
      assert s == [s[0]] + s[1..];
    }
  }

  /** Filtering a longer prefix adds the next element exactly when it is kept. */
  lemma {:induction false} FilterSnoc<T(!new)>(s: seq<T>, x: T, keep: T -> bool)
    ensures Filter(s + [x], keep) == Filter(s, keep) + (if keep(x) then [x] else [])
  {
    var last := if keep(x) then [x] else [];
    if s == [] {
      calc {
        Filter(s + [x], keep);
        { assert s + [x] == [x] && [x][1..] == []; }
        last + Filter([], keep);
        { assert last + [] == last && Filter(s, keep) == []; }
        Filter(s, keep) + last;
      }
    } else {
      var first := if keep(s[0]) then [s[0]] else [];
      calc {
        Filter(s + [x], keep);
        { assert (s + [x])[0] == s[0] && (s + [x])[1..] == s[1..] + [x]; }
        first + Filter(s[1..] + [x], keep);
        { FilterSnoc(s[1..], x, keep); }
        first + (Filter(s[1..], keep) + last);
        (first + Filter(s[1..], keep)) + last;
        Filter(s, keep) + last;
      }
    }
  }

  /** Filtering keeps the relative order: it distributes over concatenation. */
  lemma {:induction false} FilterAppend<T(!new)>(a: seq<T>, b: seq<T>, keep: T -> bool)
    ensures Filter(a + b, keep) == Filter(a, keep) + Filter(b, keep)
  {
    if a == [] {
      calc {
        Filter(a + b, keep);
        { assert a + b == b; }
        Filter(b, keep);
        { assert Filter(a, keep) == []; }
        Filter(a, keep) + Filter(b, keep);
      }
    } else {
      var first := if keep(a[0]) then [a[0]] else [];
      calc {
        Filter(a + b, keep);
        { assert (a + b)[0] == a[0] && (a + b)[1..] == a[1..] + b; }
        first + Filter(a[1..] + b, keep);
        { FilterAppend(a[1..], b, keep); }
        first + (Filter(a[1..], keep) + Filter(b, keep));
        (first + Filter(a[1..], keep)) + Filter(b, keep);
        Filter(a, keep) + Filter(b, keep);
      }
    }
  }

  /** A filter that keeps every element returns the sequence itself. */
  lemma {:induction false} FilterKeepsAll<T(!new)>(s: seq<T>, keep: T -> bool)
    requires forall x :: x in s ==> keep(x)
    ensures Filter(s, keep) == s
  {
    if s != [] {
      assert s[0] in s;
      FilterKeepsAll(s[1..], keep);
    }
  }

  /** A sequence without members is empty. */
  lemma {:induction false} NoMembers<T>(s: seq<T>)
    ensures (forall x :: x !in s) ==> s == []
  {
    if s != [] {
      assert s[0] in s;
    }
  }

  /** The first i + 1 elements are the first i, then element i. */
  lemma {:induction false} TakeNext<T>(s: seq<T>, i: nat)
    requires i < |s|
    ensures s[..i + 1] == s[..i] + [s[i]]
  {
  }

  /** The first i elements of the first n are the first i. */
  lemma {:induction false} TakeTake<T>(s: seq<T>, n: nat, i: nat)
    requires i <= n <= |s|
    ensures s[..n][..i] == s[..i]
  {
  }

  /** The first |s| elements are all of s. */
  lemma {:induction false} TakeAll<T>(s: seq<T>)
    ensures s[..|s|] == s
  {
  }

  /** Appending two elements one at a time appends the pair. */
  lemma {:induction false} AppendTwo<T>(s: seq<T>, x: T, y: T)
    ensures s + [x] + [y] == s + [x, y]
  {
  }
}
