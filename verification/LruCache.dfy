/** The decompression cache: stamp-based eviction, and the recency list it implements. */
module LruCache {
  import opened Common
  import opened Lists

  // ---- specification: keys by recency, most recent first -----------------------------------

  datatype Lru = Lru(order: seq<string>, data: map<string, Bytes>)

  const EMPTY: Lru := Lru([], map[])

  function Touch(order: seq<string>, key: string): seq<string> {
    [key] + Without(order, key)
  }

  /** The order after making room for `key`. */
  function Evict(order: seq<string>, key: string, max: nat): seq<string> {
    if |order| >= max && key !in order && order != [] then order[..|order| - 1] else order
  }

  function Lookup(c: Lru, key: string): (Lru, Option<Bytes>) {
    if key in c.data then (c.(order := Touch(c.order, key)), Some(c.data[key])) else (c, None)
  }

  function Insert(c: Lru, key: string, value: Bytes, max: nat): Lru {
    var kept := Evict(c.order, key, max);
    Lru(Touch(kept, key), (map k | k in c.data && k in kept :: c.data[k])[key := value])
  }

  datatype Op = Get(key: string) | Put(key: string, value: Bytes) | Clear

  function Step(c: Lru, op: Op, max: nat): Lru {
    match op
    case Get(key) => Lookup(c, key).0
    case Put(key, value) => Insert(c, key, value, max)
    case Clear => EMPTY
  }

  function Run(ops: seq<Op>, max: nat): Lru {
    if ops == [] then EMPTY else Step(Run(ops[..|ops| - 1], max), ops[|ops| - 1], max)
  }

  /** Capacity as it really is: inserting into a cache of size zero still keeps the new entry. */
  function Capacity(max: nat): nat {
    if max == 0 then 1 else max
  }

  ghost predicate Ok(c: Lru, max: nat) {
    Distinct(c.order) && (forall k :: k in c.order <==> k in c.data) && |c.order| <= Capacity(max)
  }

  lemma TouchKeeps(order: seq<string>, key: string)
    requires Distinct(order)
    ensures Distinct(Touch(order, key))
    ensures forall k :: k in Touch(order, key) <==> k == key || k in order
    ensures |Touch(order, key)| == if key in order then |order| else |order| + 1
  {
    WithoutKeeps(order, key);
    if key in order { WithoutSize(order, key); }
  }

  lemma EvictKeeps(order: seq<string>, key: string, max: nat)
    requires Distinct(order)
    ensures Distinct(Evict(order, key, max))
    ensures forall k :: k in Evict(order, key, max) ==> k in order
    ensures key in Evict(order, key, max) <==> key in order
  {
  }

  lemma StepOk(c: Lru, op: Op, max: nat)
    requires Ok(c, max)
    ensures Ok(Step(c, op, max), max)
  {
    match op
    case Get(key) => TouchKeeps(c.order, key);
    case Put(key, value) =>
      EvictKeeps(c.order, key, max);
      TouchKeeps(Evict(c.order, key, max), key);
    case Clear =>
  }

  lemma {:induction false} RunOk(ops: seq<Op>, max: nat)
    ensures Ok(Run(ops, max), max)
    decreases |ops|
  {
    if ops != [] {
      RunOk(ops[..|ops| - 1], max);
      StepOk(Run(ops[..|ops| - 1], max), ops[|ops| - 1], max);
    }
  }

  // ---- the cache holds the most recently touched keys ---------------------------------------

  /** The keys touched since the last clear, oldest first: every insert, and every lookup that hit. */
  function Touches(ops: seq<Op>, max: nat): seq<string> {
    if ops == [] then [] else
    var k := |ops| - 1;
    var before := Touches(ops[..k], max);
    match ops[k]
    case Get(key) => if key in Run(ops[..k], max).data then before + [key] else before
    case Put(key, _) => before + [key]
    case Clear => []
  }

  /** Distinct elements of a log by last occurrence, latest first. */
  function Recent(log: seq<string>): seq<string> {
    if log == [] then [] else
    Touch(Recent(log[..|log| - 1]), log[|log| - 1])
  }

  lemma {:induction false} RecentDistinct(log: seq<string>)
    ensures Distinct(Recent(log)) && forall x :: x in Recent(log) <==> x in log
    decreases |log|
  {
    if log != [] {
      hide Touch;
      var k := |log| - 1;
      RecentDistinct(log[..k]);
      TouchKeeps(Recent(log[..k]), log[k]);
      assert log == log[..k] + [log[k]];
    }
  }

  function Take(s: seq<string>, n: nat): seq<string> {
    if |s| <= n then s else s[..n]
  }

  /** Touching a key of the first `n` only reorders them. */
  lemma TakeTouched(r: seq<string>, n: nat, key: string)
    requires Distinct(r) && key in Take(r, n)
    ensures Touch(Take(r, n), key) == Take(Touch(r, key), n)
  {
    if |r| > n {
      assert r == r[..n] + r[n..];
      WithoutAppend(r[..n], r[n..], key);
      DistinctParts(r[..n], r[n..]);
      WithoutKeeps(r[n..], key);
      WithoutSize(r[..n], key);
    } else {
      WithoutSize(r, key);
    }
  }

  /** A key that is not among the first `n` comes in front, and the last of a full list goes. */
  lemma TakeInserted(r: seq<string>, max: nat, key: string)
    requires Distinct(r) && key !in Take(r, Capacity(max))
    ensures Touch(Evict(Take(r, Capacity(max)), key, max), key) == Take(Touch(r, key), Capacity(max))
  {
    var n := Capacity(max);
    var kept := Evict(Take(r, n), key, max);
    WithoutKeeps(kept, key);
    if |r| < n {
      WithoutKeeps(r, key);
    } else {
      assert kept == r[..n - 1];
      assert r == r[..n - 1] + r[n - 1..];
      assert key !in r[..n - 1] && key !in r[..n];
      WithoutAppend(r[..n - 1], r[n - 1..], key);
      WithoutKeeps(r[..n - 1], key);
      assert Without(r, key) == r[..n - 1] + Without(r[n - 1..], key);
    }
  }

  /** After any trace the cache holds exactly the most recently touched distinct keys, up to its capacity. */
  lemma {:induction false} HoldsMostRecent(ops: seq<Op>, max: nat)
    ensures Run(ops, max).order == Take(Recent(Touches(ops, max)), Capacity(max))
    decreases |ops|
  {
    if ops != [] {
      var k := |ops| - 1;
      var before, log := Run(ops[..k], max), Touches(ops[..k], max);
      HoldsMostRecent(ops[..k], max);
      RunOk(ops[..k], max);
      RecentDistinct(log);
      match ops[k] {
        case Get(key) => if key in before.data { TouchLogged(before, log, max, key); }
        case Put(key, value) => TouchLogged(before, log, max, key);
        case Clear =>
      }
    }
  }

  lemma TouchLogged(c: Lru, log: seq<string>, max: nat, key: string)
    requires c.order == Take(Recent(log), Capacity(max)) && Distinct(Recent(log))
    ensures Touch(Evict(c.order, key, max), key) == Take(Recent(log + [key]), Capacity(max))
    ensures key in c.order ==> Touch(c.order, key) == Take(Recent(log + [key]), Capacity(max))
  {
    assert (log + [key])[..|log|] == log;
    assert Recent(log + [key]) == Touch(Recent(log), key);
    if key in c.order {
      TakeTouched(Recent(log), Capacity(max), key);
    } else {
      TakeInserted(Recent(log), max, key);
    }
  }

  /** The value last inserted under `key` since the last clear. */
  function LastPut(ops: seq<Op>, key: string): Option<Bytes> {
    if ops == [] then None else
    var k := |ops| - 1;
    match ops[k]
    case Get(_) => LastPut(ops[..k], key)
    case Put(key', value) => if key' == key then Some(value) else LastPut(ops[..k], key)
    case Clear => None
  }

  /** Whatever the cache holds is what was last inserted. */
  lemma {:induction false} HoldsLastValue(ops: seq<Op>, max: nat, key: string)
    ensures key in Run(ops, max).data ==> LastPut(ops, key) == Some(Run(ops, max).data[key])
    decreases |ops|
  {
    if ops != [] { HoldsLastValue(ops[..|ops| - 1], max, key); }
  }

  // ---- a larger cache contains a smaller one ------------------------------------------------

  function Only(s: seq<string>, keep: set<string>): seq<string> {
    if s == [] then [] else (if s[0] in keep then [s[0]] else []) + Only(s[1..], keep)
  }

  lemma {:induction false} OnlyAppend(a: seq<string>, b: seq<string>, keep: set<string>)
    ensures Only(a + b, keep) == Only(a, keep) + Only(b, keep)
    decreases |a|
  {
    if a == [] {
      assert a + b == b;
    } else {
      assert (a + b)[1..] == a[1..] + b;
      OnlyAppend(a[1..], b, keep);
    }
  }

  lemma {:induction false} OnlyWithout(s: seq<string>, keep: set<string>, x: string)
    ensures Only(Without(s, x), keep) == Without(Only(s, keep), x)
    decreases |s|
  {
    if s != [] {
      OnlyWithout(s[1..], keep, x);
      OnlyAppend(if s[0] == x then [] else [s[0]], Without(s[1..], x), keep);
      WithoutAppend(if s[0] in keep then [s[0]] else [], Only(s[1..], keep), x);
    }
  }

  lemma {:induction false} OnlyTwice(s: seq<string>, keep: set<string>, less: set<string>)
    requires less <= keep
    ensures Only(Only(s, keep), less) == Only(s, less)
    decreases |s|
  {
    if s != [] {
      OnlyTwice(s[1..], keep, less);
      OnlyAppend(if s[0] in keep then [s[0]] else [], Only(s[1..], keep), less);
    }
  }

  lemma {:induction false} OnlyMore(s: seq<string>, keep: set<string>, x: string)
    ensures Without(Only(s, keep + {x}), x) == Without(Only(s, keep), x)
    decreases |s|
  {
    if s != [] {
      OnlyMore(s[1..], keep, x);
      WithoutAppend(if s[0] in keep + {x} then [s[0]] else [], Only(s[1..], keep + {x}), x);
      WithoutAppend(if s[0] in keep then [s[0]] else [], Only(s[1..], keep), x);
    }
  }

  lemma {:induction false} OnlyAll(s: seq<string>, keep: set<string>)
    requires forall x :: x in s ==> x in keep
    ensures Only(s, keep) == s
    decreases |s|
  {
    if s != [] { OnlyAll(s[1..], keep); }
  }

  lemma {:induction false} OnlyNone(s: seq<string>, keep: set<string>)
    requires forall x :: x in s ==> x !in keep
    ensures Only(s, keep) == []
    decreases |s|
  {
    if s != [] { OnlyNone(s[1..], keep); }
  }

  function Members(s: seq<string>): set<string> {
    set x | x in s
  }

  /** `small` is `large` restricted to fewer keys, in the same order. */
  ghost predicate Sublist(small: seq<string>, large: seq<string>) {
    small == Only(large, Members(small))
  }

  lemma {:induction false} OnlyMembers(s: seq<string>, keep: set<string>)
    ensures forall x :: x in Only(s, keep) <==> x in s && x in keep
    decreases |s|
  {
    if s != [] {
      OnlyMembers(s[1..], keep);
      assert forall x :: x in s <==> x == s[0] || x in s[1..];
    }
  }

  /** A sublist stays one when its last element goes. */
  lemma SublistDrop(small: seq<string>, large: seq<string>)
    requires Sublist(small, large) && Distinct(small) && small != []
    ensures Sublist(small[..|small| - 1], large)
  {
    var n := |small| - 1;
    var less := Members(small[..n]);
    OnlyTwice(large, Members(small), less);
    assert small == small[..n] + [small[n]];
    OnlyAppend(small[..n], [small[n]], less);
    OnlyAll(small[..n], less);
    OnlyNone([small[n]], less);
  }

  lemma LastShared(small: seq<string>, large: seq<string>)
    requires Sublist(small, large) && small != [] && large != [] && large[|large| - 1] in small
    ensures small[|small| - 1] == large[|large| - 1]
  {
    var m := |large| - 1;
    assert large == large[..m] + [large[m]];
    OnlyAppend(large[..m], [large[m]], Members(small));
    OnlyAll([large[m]], Members(small));
  }

  /** Losing the last element of the longer list is harmless if the shorter one loses its last too. */
  lemma SublistDropBoth(small: seq<string>, large: seq<string>)
    requires Sublist(small, large) && Distinct(small) && Distinct(large) && small != [] && large != []
    ensures Sublist(small[..|small| - 1], large[..|large| - 1])
  {
    var n, m := |small| - 1, |large| - 1;
    var less, last := Members(small[..n]), large[m];
    SublistDrop(small, large);
    assert large == large[..m] + [last];
    OnlyAppend(large[..m], [last], less);
    if last in less {
      LastShared(small, large);
    }
    OnlyNone([last], less);
  }

  /** Putting the same new key in front of both. */
  lemma SublistTouch(small: seq<string>, large: seq<string>, key: string)
    requires Sublist(small, large)
    ensures Sublist(Touch(small, key), Touch(large, key))
  {
    WithoutKeeps(small, key);
    var s' := Touch(small, key);
    assert Members(s') == Members(small) + {key};
    OnlyAppend([key], Without(large, key), Members(s'));
    OnlyAll([key], Members(s'));
    OnlyWithout(large, Members(s'), key);
    OnlyMore(large, Members(small), key);
  }

  /** A hit only the larger cache has. */
  lemma SublistRefresh(small: seq<string>, large: seq<string>, key: string)
    requires Sublist(small, large) && key !in small
    ensures Sublist(small, Touch(large, key))
  {
    OnlyAppend([key], Without(large, key), Members(small));
    OnlyNone([key], Members(small));
    OnlyWithout(large, Members(small), key);
    WithoutKeeps(small, key);
  }

  /** What holds between two caches of capacities `min` and `max` fed the same trace. */
  ghost predicate Nested(small: seq<string>, large: seq<string>, min: nat) {
    && Sublist(small, large)
    && |small| == if |large| < Capacity(min) then |large| else Capacity(min)
  }

  lemma NestedSame(small: seq<string>, large: seq<string>, min: nat, key: string)
    requires Nested(small, large, min) && Distinct(small) && Distinct(large) && key in large && key !in small
    ensures |small| == Capacity(min)
  {
    if |small| == |large| {
      OnlyMembers(large, Members(small));
      DistinctSize(small);
      DistinctSize(large);
      assert Members(small) <= Members(large);
      DistinctFills(small, Members(large));
    }
  }

  lemma NestedInsert(small: seq<string>, large: seq<string>, min: nat, max: nat, key: string)
    requires Nested(small, large, min) && Distinct(small) && Distinct(large) && min <= max
    requires |large| <= Capacity(max)
    ensures Nested(Touch(Evict(small, key, min), key), Touch(Evict(large, key, max), key), min)
  {
    OnlyMembers(large, Members(small));
    var s, l := Evict(small, key, min), Evict(large, key, max);
    EvictKeeps(small, key, min);
    EvictKeeps(large, key, max);
    TouchKeeps(s, key);
    TouchKeeps(l, key);
    if key in large && key !in small { NestedSame(small, large, min, key); }
    if l != large {
      SublistDropBoth(small, large);
    } else if s != small {
      SublistDrop(small, large);
    }
    SublistTouch(s, l, key);
    hide Touch, Sublist;
  }

  lemma {:induction false} RunsNested(ops: seq<Op>, min: nat, max: nat)
    requires min <= max
    ensures Nested(Run(ops, min).order, Run(ops, max).order, min)
    decreases |ops|
  {
    if ops != [] {
      var k := |ops| - 1;
      var s, l := Run(ops[..k], min), Run(ops[..k], max);
      RunsNested(ops[..k], min, max);
      RunOk(ops[..k], min);
      RunOk(ops[..k], max);
      OnlyMembers(l.order, Members(s.order));
      match ops[k] {
        case Get(key) =>
          TouchKeeps(s.order, key);
          TouchKeeps(l.order, key);
          if key in s.data {
            SublistTouch(s.order, l.order, key);
          } else if key in l.data {
            SublistRefresh(s.order, l.order, key);
          }
        case Put(key, value) => NestedInsert(s.order, l.order, min, max, key);
        case Clear =>
      }
      hide Touch, Sublist, Evict;
    }
  }

  /** Inclusion: on the same trace a larger cache holds every entry of a smaller one. */
  lemma Inclusion(ops: seq<Op>, min: nat, max: nat, key: string)
    requires min <= max && key in Run(ops, min).data
    ensures key in Run(ops, max).data && Run(ops, max).data[key] == Run(ops, min).data[key]
  {
    RunsNested(ops, min, max);
    RunOk(ops, min);
    RunOk(ops, max);
    OnlyMembers(Run(ops, max).order, Members(Run(ops, min).order));
    HoldsLastValue(ops, min, key);
    HoldsLastValue(ops, max, key);
  }

  // ---- the implementation -------------------------------------------------------------------

  datatype CacheEntry = CacheEntry(data: Bytes, stamp: nat)

  /** Stamps strictly fall along `order`; in particular no two are equal. */
  ghost predicate Falling(order: seq<string>, cache: map<string, CacheEntry>) {
    && (forall i :: 0 <= i < |order| ==> order[i] in cache)
    && (forall i, j :: 0 <= i < j < |order| ==> cache[order[i]].stamp > cache[order[j]].stamp)
  }

  ghost predicate Bounded(cache: map<string, CacheEntry>, counter: nat) {
    forall k :: k in cache ==> cache[k].stamp <= counter
  }

  ghost predicate SameData(cache: map<string, CacheEntry>, data: map<string, Bytes>) {
    cache.Keys == data.Keys && forall k :: k in cache ==> cache[k].data == data[k]
  }

  /** Stamps are distinct, bounded by the counter, and sort the keys by recency. */
  ghost predicate Represents(cache: map<string, CacheEntry>, counter: nat, c: Lru) {
    && SameData(cache, c.data) && Bounded(cache, counter) && Falling(c.order, cache)
    && Distinct(c.order) && (forall k :: k in cache ==> k in c.order)
  }

  lemma FallingAt(order: seq<string>, cache: map<string, CacheEntry>, i: nat, j: nat)
    requires Falling(order, cache) && i < j < |order|
    ensures order[i] in cache && order[j] in cache && cache[order[i]].stamp > cache[order[j]].stamp
  {
  }

  lemma FallingTail(order: seq<string>, cache: map<string, CacheEntry>)
    requires Falling(order, cache) && order != []
    ensures Falling(order[1..], cache) && order[0] in cache
    ensures forall x :: x in order[1..] ==> x in cache && cache[order[0]].stamp > cache[x].stamp
  {
    var rest := order[1..];
    forall i, j | 0 <= i < j < |rest| ensures cache[rest[i]].stamp > cache[rest[j]].stamp {
      FallingAt(order, cache, i + 1, j + 1);
    }
    forall x | x in rest ensures x in cache && cache[order[0]].stamp > cache[x].stamp {
      var j :| 0 <= j < |rest| && rest[j] == x;
      FallingAt(order, cache, 0, j + 1);
    }
  }

  lemma FallingCons(x: string, rest: seq<string>, cache: map<string, CacheEntry>)
    requires Falling(rest, cache) && x in cache
    requires forall y :: y in rest ==> y in cache && cache[x].stamp > cache[y].stamp
    ensures Falling([x] + rest, cache)
  {
    var order := [x] + rest;
    forall i, j | 0 <= i < j < |order| ensures cache[order[i]].stamp > cache[order[j]].stamp {
      assert order[j] == rest[j - 1] && rest[j - 1] in rest;
      if i > 0 { FallingAt(rest, cache, i - 1, j - 1); }
    }
  }

  lemma {:induction false} FallingWithout(order: seq<string>, key: string, cache: map<string, CacheEntry>)
    requires Falling(order, cache)
    ensures Falling(Without(order, key), cache)
    decreases |order|
  {
    hide Falling;
    if order != [] {
      FallingTail(order, cache);
      FallingWithout(order[1..], key, cache);
      WithoutKeeps(order[1..], key);
      if order[0] != key { FallingCons(order[0], Without(order[1..], key), cache); }
      assert [] + Without(order[1..], key) == Without(order[1..], key);
    }
  }

  lemma FallingTouch(order: seq<string>, key: string, cache: map<string, CacheEntry>, counter: nat, value: Bytes)
    requires Falling(order, cache) && Bounded(cache, counter)
    ensures Falling(Touch(order, key), cache[key := CacheEntry(value, counter + 1)])
  {
    FallingWithout(order, key, cache);
    WithoutKeeps(order, key);
    var w, cache' := Without(order, key), cache[key := CacheEntry(value, counter + 1)];
    forall i | 0 <= i < |w| ensures w[i] in cache && cache'[w[i]] == cache[w[i]] { assert w[i] in w; }
  }

  /** Stamping a key with a value above all others moves it to the front. */
  lemma Restamped(cache: map<string, CacheEntry>, counter: nat, c: Lru, key: string, value: Bytes)
    requires Represents(cache, counter, c)
    ensures Represents(cache[key := CacheEntry(value, counter + 1)], counter + 1,
                       Lru(Touch(c.order, key), c.data[key := value]))
  {
    FallingTouch(c.order, key, cache, counter, value);
    TouchKeeps(c.order, key);
    hide Falling, Distinct, Touch;
  }

  /** The least stamp belongs to the last of the recency list. */
  lemma LeastIsLast(cache: map<string, CacheEntry>, counter: nat, c: Lru, lru: string)
    requires Represents(cache, counter, c) && lru in cache
    requires forall k :: k in cache ==> cache[lru].stamp <= cache[k].stamp
    ensures c.order != [] && lru == c.order[|c.order| - 1]
  {
    hide Falling;
    assert lru in c.order;
    var n: nat, i: nat :| n == |c.order| - 1 && i < |c.order| && c.order[i] == lru;
    if i < n { FallingAt(c.order, cache, i, n); }
  }

  lemma LastApart(order: seq<string>)
    requires Distinct(order) && order != []
    ensures var n := |order| - 1;
            && Distinct(order[..n]) && order[n] !in order[..n]
            && forall k :: k in order ==> k == order[n] || k in order[..n]
  {
    var n := |order| - 1;
    assert order == order[..n] + [order[n]];
  }

  lemma FallingPrefix(order: seq<string>, cache: map<string, CacheEntry>, n: nat)
    requires Falling(order, cache) && n < |order|
    ensures Falling(order[..n], cache - {order[n]})
  {
    forall i | 0 <= i < n ensures order[i] in cache - {order[n]} {
      assert cache[order[i]].stamp > cache[order[n]].stamp;
    }
  }

  lemma LastRemoved(cache: map<string, CacheEntry>, counter: nat, c: Lru)
    requires Represents(cache, counter, c) && c.order != []
    ensures var n := |c.order| - 1; Represents(cache - {c.order[n]}, counter, Lru(c.order[..n], c.data - {c.order[n]}))
  {
    hide Falling, Distinct;
    var n := |c.order| - 1;
    LastApart(c.order);
    FallingPrefix(c.order, cache, n);
  }

  /** Size, membership and data of the specification, read off the map. */
  lemma Reads(cache: map<string, CacheEntry>, counter: nat, c: Lru)
    requires Represents(cache, counter, c)
    ensures |c.order| == |cache| && forall k :: k in c.order <==> k in cache
  {
    DistinctSize(c.order);
    forall k | k in c.order ensures k in cache {
      var i :| 0 <= i < |c.order| && c.order[i] == k;
      assert c.order[i] in cache;
    }
    assert (set k | k in c.order) == cache.Keys;
  }

  lemma Consistent(cache: map<string, CacheEntry>, counter: nat, c: Lru)
    requires Represents(cache, counter, c)
    ensures Distinct(c.order) && forall k :: k in c.data ==> k in c.order
  {
  }

  /** Data kept after an eviction. */
  lemma KeptData(c: Lru, key: string, max: nat)
    requires Distinct(c.order) && forall k :: k in c.data ==> k in c.order
    ensures var kept := Evict(c.order, key, max);
            (map k | k in c.data && k in kept :: c.data[k]) ==
            if kept == c.order then c.data else c.data - {c.order[|c.order| - 1]}
  {
    var n := |c.order| - 1;
    var kept := Evict(c.order, key, max);
    if kept != c.order {
      assert c.order == kept + [c.order[n]];
      DistinctParts(kept, [c.order[n]]);
    }
  }

  class CompressionCache {
    var cache: map<string, CacheEntry>
    const maxEntries: nat
    var counter: nat
    /** The recency list this cache stands for. */
    ghost var content: Lru

    ghost predicate Valid()
      reads this
    {
      Represents(cache, counter, content)
    }

    constructor (max: nat)
      ensures Valid() && content == EMPTY && maxEntries == max
    {
      cache, counter, maxEntries := map[], 0, max;
      content := EMPTY;
    }

    method Get(key: string) returns (r: Option<Bytes>)
      requires Valid()
      modifies this
      ensures Valid() && (content, r) == Lookup(old(content), key)
    {
      if key in cache {
        Restamped(cache, counter, content, key, cache[key].data);
        assert content.data[key := cache[key].data] == content.data;
        counter := counter + 1;
        cache := cache[key := cache[key].(stamp := counter)];
        content := content.(order := Touch(content.order, key));
        r := Some(cache[key].data);
      } else {
        r := None;
      }
    }

    /** The key with the least stamp, found by walking the map in any order. */
    method LeastRecent() returns (lru: string)
      requires cache != map[]
      ensures lru in cache && forall k :: k in cache ==> cache[lru].stamp <= cache[k].stamp
    {
      lru :| lru in cache;
      var todo := cache.Keys - {lru};
      while todo != {}
        invariant lru in cache && todo <= cache.Keys
        invariant forall k :: k in cache && k !in todo ==> cache[lru].stamp <= cache[k].stamp
        decreases todo
      {
        var k :| k in todo;
        todo := todo - {k};
        if cache[k].stamp < cache[lru].stamp { lru := k; }
      }
    }

    method InsertEntry(key: string, data: Bytes)
      requires Valid()
      modifies this
      ensures Valid() && content == Insert(old(content), key, data, maxEntries)
    {
      hide Represents, Touch, Distinct;
      Reads(cache, counter, content);
      Consistent(cache, counter, content);
      KeptData(content, key, maxEntries);
      ghost var before := content;
      if |cache| >= maxEntries && key !in cache && cache != map[] {
        var lru := LeastRecent();
        LeastIsLast(cache, counter, content, lru);
        LastRemoved(cache, counter, content);
        cache := cache - {lru};
        content := Lru(content.order[..|content.order| - 1], content.data - {lru});
      }
      assert content.order == Evict(before.order, key, maxEntries);
      Restamped(cache, counter, content, key, data);
      counter := counter + 1;
      cache := cache[key := CacheEntry(data, counter)];
      content := Lru(Touch(content.order, key), content.data[key := data]);
    }

    method ClearAll()
      requires Valid()
      modifies this
      ensures Valid() && content == EMPTY
    {
      cache := map[];
      content := EMPTY;
    }
  }
}
