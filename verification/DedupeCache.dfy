/** The agent's duplicate-suppression cache (agent/internal/dedupe/cache.go).
    `order` is a FIFO of recorded ids. `Remove` leaves its id in `order`, so an id
    may occur there twice and `order` may be longer than the capacity. */
module DedupeCache {
  import opened Prelude
  import opened Protocol

  datatype Entry = Entry(seen: int, result: Option<Report>, running: bool)

  datatype State = State(entries: map<string, Entry>, order: seq<string>, capacity: int, ttl: int)

  const DEFAULT_CAPACITY := 1024
  const DEFAULT_TTL := 3_600_000_000_000  // one hour, in nanoseconds

  ghost predicate Valid(s: State) {
    && s.capacity >= 1 && s.ttl >= 1
    && (forall id :: id in s.entries ==> id in s.order)
    && |s.entries| <= s.capacity
  }

  // ---- What each call does, as functions on the state ----

  function Fresh(capacity: int, ttl: int): State {
    State(map[], [], if capacity <= 0 then DEFAULT_CAPACITY else capacity,
          if ttl <= 0 then DEFAULT_TTL else ttl)
  }

  function Evicted(s: State, now: int): State
    decreases |s.order|
  {
    if s.order == [] then s else
      var oldest := s.order[0];
      if oldest !in s.entries then
        Evicted(s.(order := s.order[1..]), now)
      else if now - s.entries[oldest].seen > s.ttl || |s.entries| >= s.capacity then
        Evicted(s.(entries := s.entries - {oldest}, order := s.order[1..]), now)
      else s
  }

  /** `Add` reads the clock three times under its lock: for eviction, for the age
      test, and for the new entry. */
  function Added(s: State, id: string, evictAt: int, checkAt: int, stampAt: int): (State, bool) {
    var e := Evicted(s, evictAt);
    if id in e.entries && checkAt - e.entries[id].seen < e.ttl then (e, false)
    else (e.(entries := e.entries[id := Entry(stampAt, None, true)], order := e.order + [id]), true)
  }

  function Removed(s: State, id: string): State {
    s.(entries := s.entries - {id})
  }

  function WithResult(s: State, id: string, result: Report): State {
    if id in s.entries
    then s.(entries := s.entries[id := s.entries[id].(result := Some(result), running := false)])
    else s
  }

  // ---- Eviction ----

  /** Eviction keeps the invariant, makes room for one more entry, and only forgets. */
  lemma {:induction false} EvictMakesRoom(s: State, now: int)
    requires Valid(s)
    ensures Valid(Evicted(s, now)) && |Evicted(s, now).entries| < s.capacity
    ensures Evicted(s, now).capacity == s.capacity && Evicted(s, now).ttl == s.ttl
    ensures forall id :: id in Evicted(s, now).entries ==>
      id in s.entries && Evicted(s, now).entries[id] == s.entries[id]
    ensures forall id :: id in Evicted(s, now).order ==> id in s.order
    decreases |s.order|
  {
    if s.order == [] {
      assert s.entries == map[];
    } else {
      var oldest := s.order[0];
      assert s.order == [oldest] + s.order[1..];
      if oldest !in s.entries {
        EvictMakesRoom(s.(order := s.order[1..]), now);
      } else if now - s.entries[oldest].seen > s.ttl || |s.entries| >= s.capacity {
        var s' := s.(entries := s.entries - {oldest}, order := s.order[1..]);
        assert s'.entries.Keys == s.entries.Keys - {oldest};
        assert |s'.entries| == |s.entries| - 1;
        EvictMakesRoom(s', now);
      }
    }
  }

  lemma AddValid(s: State, id: string, evictAt: int, checkAt: int, stampAt: int)
    requires Valid(s)
    ensures Valid(Added(s, id, evictAt, checkAt, stampAt).0)
    ensures Added(s, id, evictAt, checkAt, stampAt).0.capacity == s.capacity
    ensures Added(s, id, evictAt, checkAt, stampAt).0.ttl == s.ttl
    ensures id in Added(s, id, evictAt, checkAt, stampAt).0.entries
  {
    EvictMakesRoom(s, evictAt);
    var e := Evicted(s, evictAt);
    var a := e.entries[id := Entry(stampAt, None, true)];
    assert a.Keys == e.entries.Keys + {id};
    assert |a| <= |e.entries| + 1;
  }

  lemma RemoveCompleteValid(s: State, id: string, result: Report)
    requires Valid(s)
    ensures Valid(Removed(s, id)) && Valid(WithResult(s, id, result))
  {
    var r := s.entries - {id};
    assert r.Keys == s.entries.Keys - {id};
    SubsetCard(r.Keys, s.entries.Keys);
    if id in s.entries {
      var c := WithResult(s, id, result);
      assert c.entries.Keys == s.entries.Keys;
      assert |c.entries| == |c.entries.Keys| && |s.entries| == |s.entries.Keys|;
    }
  }

  // ---- Any sequence of calls ----

  datatype Call =
    | CallAdd(id: string, evictAt: int, checkAt: int, stampAt: int)
    | CallRemove(id: string)
    | CallComplete(id: string, result: Report)

  function Apply(s: State, c: Call): State {
    match c
    case CallAdd(id, e, k, t) => Added(s, id, e, k, t).0
    case CallRemove(id) => Removed(s, id)
    case CallComplete(id, r) => WithResult(s, id, r)
  }

  lemma ApplyMeans(s: State, id: string, e: int, k: int, t: int, r: Report)
    ensures Apply(s, CallAdd(id, e, k, t)) == Added(s, id, e, k, t).0
    ensures Apply(s, CallRemove(id)) == Removed(s, id) && Apply(s, CallComplete(id, r)) == WithResult(s, id, r)
  {
  }

  function Run(s: State, calls: seq<Call>): State
    decreases |calls|
  {
    if calls == [] then s else Run(Apply(s, calls[0]), calls[1..])
  }

  /** After any calls on a new cache, every remembered id is in `order` and the
      entries fit the capacity. */
  lemma {:induction false} RunValid(s: State, calls: seq<Call>)
    requires Valid(s)
    ensures Valid(Run(s, calls)) && Run(s, calls).capacity == s.capacity && Run(s, calls).ttl == s.ttl
    decreases |calls|
  {
    if calls != [] {
      match calls[0] {
        case CallAdd(id, e, k, t) => AddValid(s, id, e, k, t);
        case CallRemove(id) => RemoveCompleteValid(s, id, Accepted(id, Queued));
        case CallComplete(id, r) => RemoveCompleteValid(s, id, r);
      }
      RunValid(Apply(s, calls[0]), calls[1..]);
    }
  }

  /** What each call leaves of an id, in the entries' own fields. */
  lemma CallsMean(s: State, id: string, other: string, result: Report)
    ensures id !in Removed(s, id).entries && Removed(s, id).order == s.order
    ensures other != id && other in s.entries ==>
      other in Removed(s, id).entries && Removed(s, id).entries[other] == s.entries[other]
    ensures id in s.entries ==>
      && WithResult(s, id, result).entries.Keys == s.entries.Keys && WithResult(s, id, result).order == s.order
      && WithResult(s, id, result).entries[id] == Entry(s.entries[id].seen, Some(result), false)
    ensures id !in s.entries ==> WithResult(s, id, result) == s
    ensures other != id && other in s.entries ==>
      other in WithResult(s, id, result).entries && WithResult(s, id, result).entries[other] == s.entries[other]
  {
  }

  /** Add reports an id first exactly if eviction has dropped it or it is as old as the ttl; then it
      is entered afresh, as running, at the end of `order`. */
  lemma AddedIff(s: State, id: string, evictAt: int, checkAt: int, stampAt: int)
    requires Valid(s)
    ensures
      var (r, first) := Added(s, id, evictAt, checkAt, stampAt);
      && (first <==> id in Evicted(s, evictAt).entries ==> checkAt - Evicted(s, evictAt).entries[id].seen >= s.ttl)
      && (first ==> r.entries[id] == Entry(stampAt, None, true) && r.order == Evicted(s, evictAt).order + [id])
      && (!first ==> id in s.entries && r.entries[id] == s.entries[id])
      && forall x :: x in r.entries && x != id ==> x in s.entries && r.entries[x] == s.entries[x]
  {
    EvictMakesRoom(s, evictAt);
  }

  /** An entry older than the ttl at the front goes; a new cache holds an hour's ids, 1024 at most. */
  lemma OldFrontGoes(s: State, now: int, id: string, post: seq<string>)
    requires Valid(s) && s.order == [id] + post && id in s.entries && now - s.entries[id].seen > s.ttl
    ensures id !in Evicted(s, now).entries
    ensures Fresh(0, 0) == State(map[], [], 1024, 3_600_000_000_000)
  {
    EvictOnlyForgets(Popped(s), now);
    assert s.order[0] == id;
  }

  /** One round of the eviction loop: the front goes, with its entry if it has one. */
  function Popped(s: State): State
    requires s.order != []
  {
    s.(entries := s.entries - {s.order[0]}, order := s.order[1..])
  }

  lemma PopKeeps(s: State)
    requires Valid(s) && s.order != []
    ensures Valid(Popped(s))
    ensures s.order[0] !in s.entries ==> Popped(s) == s.(order := s.order[1..])
    ensures forall id :: id in s.entries && id != s.order[0] ==>
      id in Popped(s).entries && Popped(s).entries[id] == s.entries[id]
  {
    assert s.order == [s.order[0]] + s.order[1..];
    assert Popped(s).entries.Keys == s.entries.Keys - {s.order[0]};
    SubsetCard(Popped(s).entries.Keys, s.entries.Keys);
    if s.order[0] !in s.entries {
      assert Popped(s).entries == s.entries;
    }
  }

  lemma FewEntries(s: State, id: string, post: seq<string>, others: set<string>)
    requires Valid(s) && s.order == [id] + post && id !in post && Elems(post) <= others
    ensures |s.entries| <= 1 + |others|
  {
    assert s.entries.Keys <= {id} + Elems(post);
    SubsetCard(s.entries.Keys, {id} + Elems(post));
    SubsetCard(Elems(post), others);
    assert |{id} + Elems(post)| == 1 + |Elems(post)|;
  }

  lemma PoppedFront(s: State, pre: seq<string>, id: string, post: seq<string>)
    requires Valid(s) && s.order == pre + [id] + post && pre != [] && id !in pre && id in s.entries
    ensures Valid(Popped(s)) && Popped(s).order == pre[1..] + [id] + post && Popped(s).capacity == s.capacity
    ensures Popped(s).ttl == s.ttl
    ensures id in Popped(s).entries && Popped(s).entries[id] == s.entries[id]
  {
    PopKeeps(s);
    assert s.order[0] == pre[0];
  }

  /** No remembered id occurs in pre. */
  predicate NoneLive(s: State, pre: seq<string>) {
    forall x :: x in pre ==> x !in s.entries
  }

  /** The ids remembered besides `id` that occur after its first occurrence. */
  function LiveAfter(s: State, id: string, post: seq<string>): set<string> {
    s.entries.Keys * Elems(post) - {id}
  }

  /** Exactly when an id that is not over age goes: the cache is full and nothing remembered
      stands before its first occurrence, which may be one that `Remove` left behind. */
  lemma {:induction false} YoungEvictedWhenFull(s: State, now: int, pre: seq<string>, id: string, post: seq<string>)
    requires Valid(s) && s.order == pre + [id] + post && id !in pre
    requires id in s.entries && now - s.entries[id].seen <= s.ttl
    ensures id !in Evicted(s, now).entries <==> |s.entries| >= s.capacity && NoneLive(s, pre)
    decreases |pre|
  {
    var front := s.order[0];
    if pre == [] {
      assert front == id;
      PopKeeps(s);
      EvictOnlyForgets(Popped(s), now);
    } else {
      assert front == pre[0] && pre == [pre[0]] + pre[1..];
      PoppedFront(s, pre, id, post);
      PopKeeps(s);
      if front !in s.entries || now - s.entries[front].seen > s.ttl || |s.entries| >= s.capacity {
        PoppedCard(s);
        YoungEvictedWhenFull(Popped(s), now, pre[1..], id, post);
      }
    }
  }

  lemma PoppedCard(s: State)
    requires s.order != []
    ensures |Popped(s).entries| == |s.entries| - if s.order[0] in s.entries then 1 else 0
    ensures Popped(s).entries.Keys == s.entries.Keys - {s.order[0]}
  {
    assert Popped(s).entries.Keys == s.entries.Keys - {s.order[0]};
    assert |Popped(s).entries| == |Popped(s).entries.Keys| && |s.entries| == |s.entries.Keys|;
  }

  /** The same in the ids that follow: a young id goes exactly if at least capacity - 1 others
      are remembered after its first occurrence and none before it. */
  lemma YoungEvictedIff(s: State, now: int, pre: seq<string>, id: string, post: seq<string>)
    requires Valid(s) && s.order == pre + [id] + post && id !in pre
    requires id in s.entries && now - s.entries[id].seen <= s.ttl
    ensures id !in Evicted(s, now).entries <==> |LiveAfter(s, id, post)| >= s.capacity - 1 && NoneLive(s, pre)
  {
    YoungEvictedWhenFull(s, now, pre, id, post);
    assert |s.entries| == |s.entries.Keys|;
    if NoneLive(s, pre) {
      forall x | x in s.entries && x != id ensures x in Elems(post) {
        assert x in s.order;
      }
      assert LiveAfter(s, id, post) == s.entries.Keys - {id};
    }
  }

  /** Hence, counted from its first occurrence, an id is evicted only by age or after at least
      capacity - 1 distinct others. */
  lemma EvictionCause(s: State, now: int, pre: seq<string>, id: string, post: seq<string>)
    requires Valid(s) && s.order == pre + [id] + post && id !in pre
    requires id in s.entries && id !in Evicted(s, now).entries
    ensures now - s.entries[id].seen > s.ttl || |Elems(post) - {id}| >= s.capacity - 1
  {
    if now - s.entries[id].seen <= s.ttl {
      YoungEvictedIff(s, now, pre, id, post);
      SubsetCard(LiveAfter(s, id, post), Elems(post) - {id});
    }
  }

  /** The bound is tight: at the front with the cache at capacity, the id goes. */
  lemma FrontGoesAtCapacity(s: State, now: int, id: string, post: seq<string>)
    requires s.order == [id] + post && id in s.entries && |s.entries| >= s.capacity
    ensures id !in Evicted(s, now).entries
  {
    assert s.order[0] == id;
    EvictOnlyForgets(s.(entries := s.entries - {id}, order := s.order[1..]), now);
  }

  lemma {:induction false} EvictOnlyForgets(s: State, now: int)
    ensures forall id :: id in Evicted(s, now).entries ==> id in s.entries
    decreases |s.order|
  {
    if s.order != [] {
      var oldest := s.order[0];
      EvictOnlyForgets(s.(order := s.order[1..]), now);
      EvictOnlyForgets(s.(entries := s.entries - {oldest}, order := s.order[1..]), now);
    }
  }

  /** A call on a cache with room whose oldest entry is fresh just records the id. */
  lemma AddWithRoom(s: State, id: string)
    requires s.ttl >= 1 && |s.entries| < s.capacity && id !in s.entries
    requires s.order == [] || (s.order[0] in s.entries && s.entries[s.order[0]].seen == 0)
    ensures Added(s, id, 0, 0, 0) ==
            (s.(entries := s.entries[id := Entry(0, None, true)], order := s.order + [id]), true)
  {
  }

  /** Why "occurs once" is needed: after `Remove` and a second `Add` the id stands
      twice in `order`, and the stale occurrence gets the fresh entry evicted although
      only one id (fewer than capacity - 1) was recorded since and no time passed. */
  lemma ReaddedIdEvictedEarly()
    ensures
      var s2 := Added(Added(Fresh(3, 100), "x", 0, 0, 0).0, "a", 0, 0, 0).0;
      var s4 := Added(Removed(s2, "a"), "p", 0, 0, 0).0;
      var s6 := Added(Added(s4, "a", 0, 0, 0).0, "q", 0, 0, 0).0;
      "a" in s6.entries && "a" !in Added(s6, "r", 0, 0, 0).0.entries
  {
    var e := Entry(0, None, true);
    var s1 := Added(Fresh(3, 100), "x", 0, 0, 0).0;
    AddWithRoom(Fresh(3, 100), "x");
    AddWithRoom(s1, "a");
    var s2 := Added(s1, "a", 0, 0, 0).0;
    var s3 := Removed(s2, "a");
    assert s3.entries == map["x" := e] && s3.order == ["x", "a"];
    AddWithRoom(s3, "p");
    var s4 := Added(s3, "p", 0, 0, 0).0;
    assert s4.entries == map["x" := e, "p" := e] && s4.order == ["x", "a", "p"];
    AddWithRoom(s4, "a");
    var s5 := Added(s4, "a", 0, 0, 0).0;
    StaleOccurrence(s5);
  }

  /** The last three calls of that run. */
  lemma StaleOccurrence(s5: State)
    requires
      var e := Entry(0, None, true);
      s5 == State(map["x" := e, "p" := e, "a" := e], ["x", "a", "p", "a"], 3, 100)
    ensures
      var s6 := Added(s5, "q", 0, 0, 0).0;
      "a" in s6.entries && "a" !in Added(s6, "r", 0, 0, 0).0.entries
  {
    var e := Entry(0, None, true);
    var v := State(map["p" := e, "a" := e], ["a", "p", "a"], 3, 100);
    assert s5.order[1..] == v.order && s5.entries - {"x"} == v.entries;
    assert |s5.entries| == 3;
    assert Evicted(v, 0) == v;
    assert Evicted(s5, 0) == v;
    var s6 := Added(s5, "q", 0, 0, 0).0;
    assert s6.entries == map["p" := e, "a" := e, "q" := e];
    assert s6.order == ["a"] + ["p", "a", "q"];
    FrontGoesAtCapacity(s6, 0, "a", ["p", "a", "q"]);
  }

  // ---- Retention of one id ----

  /** `id` is remembered as recorded at `seen`, stands once in `order`, and everything
      recorded after it is in `others`. */
  ghost predicate Pinned(s: State, pre: seq<string>, id: string, post: seq<string>, seen: int, others: set<string>) {
    && s.order == pre + [id] + post && id !in pre && id !in post
    && id in s.entries && s.entries[id].seen == seen
    && Elems(post) <= others
  }

  lemma {:induction false} EvictPinned(
    s: State, now: int, pre: seq<string>, id: string, post: seq<string>, seen: int, others: set<string>)
    returns (pre': seq<string>)
    requires Valid(s) && Pinned(s, pre, id, post, seen, others)
    requires now - seen <= s.ttl && |others| <= s.capacity - 2
    ensures Pinned(Evicted(s, now), pre', id, post, seen, others)
    ensures Evicted(s, now).entries[id] == s.entries[id]
    decreases |pre|
  {
    var oldest := s.order[0];
    if pre == [] {
      assert oldest == id && s.order == [id] + post;
      FewEntries(s, id, post, others);
      pre' := [];
    } else if oldest in s.entries && !(now - s.entries[oldest].seen > s.ttl || |s.entries| >= s.capacity) {
      pre' := pre;
    } else {
      PopKeeps(s);
      PopPinned(s, pre, id, post, seen, others);
      pre' := EvictPinned(Popped(s), now, pre[1..], id, post, seen, others);
    }
  }

  lemma PopPinned(s: State, pre: seq<string>, id: string, post: seq<string>, seen: int, others: set<string>)
    requires Valid(s) && Pinned(s, pre, id, post, seen, others) && pre != []
    ensures Pinned(Popped(s), pre[1..], id, post, seen, others) && Popped(s).entries[id] == s.entries[id]
  {
    PopKeeps(s);
    assert s.order[0] == pre[0] && s.order[1..] == pre[1..] + [id] + post;
  }

  /** While it is young and few others were recorded, `Add` of the id says duplicate
      and `Add` of another id leaves it in place. */
  lemma AddPinned(
    s: State, id': string, evictAt: int, checkAt: int, stampAt: int,
    pre: seq<string>, id: string, post: seq<string>, seen: int, others: set<string>)
    returns (pre': seq<string>, post': seq<string>)
    requires Valid(s) && Pinned(s, pre, id, post, seen, others)
    requires evictAt <= checkAt && checkAt - seen < s.ttl && |others| <= s.capacity - 2
    ensures
      var (r, first) := Added(s, id', evictAt, checkAt, stampAt);
      && (id' == id ==> !first)
      && Pinned(r, pre', id, post', seen, others + (if first then {id'} else {}))
      && r.entries[id] == s.entries[id]
  {
    EvictMakesRoom(s, evictAt);
    pre' := EvictPinned(s, evictAt, pre, id, post, seen, others);
    var (r, first) := Added(s, id', evictAt, checkAt, stampAt);
    if first {
      post' := post + [id'];
      assert r.order == pre' + [id] + post';
      ElemsAppend(post, [id']);
    } else {
      post' := post;
    }
  }

  // ---- The cache itself ----

  class Cache {
    var entries: map<string, Entry>
    var order: seq<string>
    const capacity: int
    const ttl: int

    function Model(): State
      reads this
    {
      State(entries, order, capacity, ttl)
    }

    constructor (capacity: int, ttl: int)
      ensures Model() == Fresh(capacity, ttl) && Valid(Model())
    {
      this.capacity := if capacity <= 0 then DEFAULT_CAPACITY else capacity;
      this.ttl := if ttl <= 0 then DEFAULT_TTL else ttl;
      entries := map[];
      order := [];
    }

    method EvictLocked(now: int)
      modifies this
      ensures Model() == Evicted(old(Model()), now)
    {
      while |order| > 0
        invariant Evicted(Model(), now) == Evicted(old(Model()), now)
        decreases |order|
      {
        var oldest := order[0];
        var overCapacity := |entries| >= capacity;
        if oldest !in entries {
          order := order[1..];
          continue;
        }
        if now - entries[oldest].seen > ttl || overCapacity {
          entries := entries - {oldest};
          order := order[1..];
          continue;
        }
        break;
      }
    }

    method Add(id: string, evictAt: int, checkAt: int, stampAt: int) returns (first: bool)
      requires Valid(Model())
      modifies this
      ensures (Model(), first) == Added(old(Model()), id, evictAt, checkAt, stampAt)
      ensures Valid(Model()) && id in entries
    {
      AddValid(Model(), id, evictAt, checkAt, stampAt);
      EvictLocked(evictAt);
      if id in entries && checkAt - entries[id].seen < ttl {
        return false;
      }
      entries := entries[id := Entry(stampAt, None, true)];
      order := order + [id];
      first := true;
    }

    method Remove(id: string)
      requires Valid(Model())
      modifies this
      ensures Model() == Removed(old(Model()), id) && Valid(Model())
    {
      RemoveCompleteValid(Model(), id, Accepted(id, Queued));
      entries := entries - {id};
    }

    method Complete(id: string, result: Report)
      requires Valid(Model())
      modifies this
      ensures Model() == WithResult(old(Model()), id, result) && Valid(Model())
    {
      RemoveCompleteValid(Model(), id, result);
      if id in entries {
        entries := entries[id := entries[id].(result := Some(result), running := false)];
      }
    }

    /** `None` when the id is not remembered; otherwise the stored result and whether it runs. */
    method CachedResult(id: string) returns (found: Option<(Option<Report>, bool)>)
      ensures found == if id in entries then Some((entries[id].result, entries[id].running)) else None
    {
      if id !in entries {
        return None;
      }
      found := Some((entries[id].result, entries[id].running));
    }
  }
}
