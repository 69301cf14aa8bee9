/** Choosing the node that hosts a process, and the fairness of the round-robin cursor. */
module Placement {
  import opened Common
  import opened ClusterTypes
  import opened Lists

  predicate InTierRange(spec: Spec, tier: nat) {
    && (spec.minTier.Some? ==> tier >= spec.minTier.value)
    && (spec.maxTier.Some? ==> tier <= spec.maxTier.value)
  }

  function Eligible(nodes: map<NodeId, NodeInfo>, self: NodeId, spec: Spec): set<NodeId> {
    set n | n in nodes && n != self && nodes[n].status == Online && InTierRange(spec, nodes[n].tier)
  }

  predicate IsLeast(m: nat, s: set<nat>) {
    m in s && forall x :: x in s ==> m <= x
  }

  lemma {:induction false} LeastExists(s: set<nat>)
    requires s != {}
    ensures exists m :: IsLeast(m, s)
  {
    var y :| y in s;
    var rest := s - {y};
    assert forall x :: x in s ==> x == y || x in rest;
    if rest == {} {
      assert IsLeast(y, s);
    } else {
      LeastExists(rest);
      var m :| IsLeast(m, rest);
      assert IsLeast(if y < m then y else m, s);
    }
  }

  ghost predicate Ascending(ids: seq<nat>) {
    forall i, j :: 0 <= i < j < |ids| ==> ids[i] < ids[j]
  }

  ghost function SortedIds(s: set<nat>): (ids: seq<nat>)
    ensures Ascending(ids) && |ids| == |s|
    ensures forall x :: x in ids <==> x in s
  {
    if s == {} then [] else
      LeastExists(s);
      var m :| IsLeast(m, s);
      var rest := SortedIds(s - {m});
      assert forall i :: 0 <= i < |rest| ==> rest[i] in s - {m};
      [m] + rest
  }

  lemma SortedFirst(s: set<nat>, m: nat)
    requires IsLeast(m, s)
    ensures SortedIds(s) == [m] + SortedIds(s - {m})
  {
    assert forall x :: IsLeast(x, s) ==> x == m;
  }

  function LoadFraction(m: NodeMetrics): real {
    if m.ramTotal == 0 then 1.0 else m.ramUsed as real / m.ramTotal as real
  }

  /** The first element with the least key, as an iterator minimum over a sorted list yields. */
  function FirstLeast(ids: seq<nat>, key: map<nat, real>): (m: nat)
    requires ids != [] && Ascending(ids) && forall x :: x in ids ==> x in key
    ensures m in ids
    ensures forall x :: x in ids ==> key[m] < key[x] || (key[m] == key[x] && m <= x)
  {
    if |ids| == 1 then ids[0] else
      var m := FirstLeast(ids[1..], key);
      if key[ids[0]] <= key[m] then ids[0] else m
  }

  function Rank(nodes: map<NodeId, NodeInfo>, strategy: Strategy): map<nat, real> {
    map n | n in nodes :: if strategy == ByTier then nodes[n].tier as real else LoadFraction(nodes[n].metrics)
  }

  function Current(ids: seq<NodeId>, cursor: nat): (n: NodeId)
    requires ids != []
    ensures n in ids
  {
    ids[cursor % |ids|]
  }

  function Advanced(cursor: nat, k: nat): (c: nat)
    requires k > 0
    ensures c < k
  {
    (cursor + 1) % k
  }

  /** The node placement picks, with the cursor it leaves behind. */
  ghost function Select(nodes: map<NodeId, NodeInfo>, self: NodeId, strategy: Strategy, cursor: nat, spec: Spec)
    : (r: (nat, Option<NodeId>))
    ensures r.1.None? <==> Eligible(nodes, self, spec) == {}
    ensures r.1.Some? ==>
              && r.1.value in nodes && r.1.value != self && nodes[r.1.value].status == Online
              && InTierRange(spec, nodes[r.1.value].tier)
  {
    var ids := SortedIds(Eligible(nodes, self, spec));
    assert forall x :: x in ids ==> x in nodes;
    if ids == [] then
      assert |Eligible(nodes, self, spec)| == 0;
      (cursor, None)
    else if strategy == RoundRobin then (Advanced(cursor, |ids|), Some(Current(ids, cursor)))
    else (cursor, Some(FirstLeast(ids, Rank(nodes, strategy))))
  }

  /** Without the cursor the least loaded or lowest-tier node is picked, the lowest id among equals. */
  lemma SelectLeast(nodes: map<NodeId, NodeInfo>, self: NodeId, strategy: Strategy, cursor: nat, spec: Spec, n: NodeId)
    requires strategy != RoundRobin && n in Eligible(nodes, self, spec)
    ensures var (next, picked), rank := Select(nodes, self, strategy, cursor, spec), Rank(nodes, strategy);
            && next == cursor && picked.Some?
            && (rank[picked.value] < rank[n] || (rank[picked.value] == rank[n] && picked.value <= n))
  {
    hide Rank, FirstLeast;
    var ids := SortedIds(Eligible(nodes, self, spec));
    assert n in ids;
    assert Rank(nodes, strategy).Keys == nodes.Keys by { RankKeys(nodes, strategy); }
  }

  lemma RankKeys(nodes: map<NodeId, NodeInfo>, strategy: Strategy)
    ensures Rank(nodes, strategy).Keys == nodes.Keys
  {
  }

  /** How many of `s` come before `n`. */
  ghost function Below(s: set<nat>, n: nat): nat {
    |set x: nat | x in s && x < n|
  }

  lemma AscendingBelow(ids: seq<nat>, s: set<nat>, k: nat)
    requires Ascending(ids) && k < |ids| && forall x :: x in ids <==> x in s
    ensures Below(s, ids[k]) == k
  {
    var front := ids[..k];
    assert Distinct(front);
    forall x | x in s && x < ids[k] ensures x in front {
      var i :| 0 <= i < |ids| && ids[i] == x;
      assert front[i] == x;
    }
    assert forall x :: x in front ==> x in s && x < ids[k];
    var below, members := set x: nat | x in s && x < ids[k], set x: nat | x in front;
    DistinctSize<nat>(front);
    assert |members| == k;
    assert below == members;
  }

  /** The condition under which placement picks `n`: by position for the cursor, by rank otherwise. */
  ghost predicate Preferred(nodes: map<NodeId, NodeInfo>, self: NodeId, strategy: Strategy, cursor: nat, spec: Spec,
                            n: NodeId)
    requires n in Eligible(nodes, self, spec)
  {
    var s, rank := Eligible(nodes, self, spec), Rank(nodes, strategy);
    if strategy == RoundRobin then Below(s, n) == cursor % |s|
    else forall m :: m in s ==> rank[n] < rank[m] || (rank[n] == rank[m] && n <= m)
  }

  /** Exactly which node placement picks. */
  lemma PickedIff(nodes: map<NodeId, NodeInfo>, self: NodeId, strategy: Strategy, cursor: nat, spec: Spec, n: NodeId)
    ensures Select(nodes, self, strategy, cursor, spec).1 == Some(n)
            <==> n in Eligible(nodes, self, spec) && Preferred(nodes, self, strategy, cursor, spec, n)
  {
    hide Rank, Select, SortedIds, Below, InTierRange;
    var s := Eligible(nodes, self, spec);
    var picked := Select(nodes, self, strategy, cursor, spec).1;
    if n in s {
      if strategy == RoundRobin {
        CursorPicks(s, cursor, n);
        CursorSelects(nodes, self, cursor, spec);
      } else {
        assert Rank(nodes, strategy).Keys == nodes.Keys by { RankKeys(nodes, strategy); }
        forall m | m in s
          ensures var rank := Rank(nodes, strategy);
                  picked.Some? && (rank[picked.value] < rank[m] || (rank[picked.value] == rank[m] && picked.value <= m))
        {
          SelectLeast(nodes, self, strategy, cursor, spec, m);
        }
      }
    }
  }

  lemma CursorSelects(nodes: map<NodeId, NodeInfo>, self: NodeId, cursor: nat, spec: Spec)
    requires SortedIds(Eligible(nodes, self, spec)) != []
    ensures Select(nodes, self, RoundRobin, cursor, spec).1
            == Some(Current(SortedIds(Eligible(nodes, self, spec)), cursor))
  {
    hide SortedIds, Eligible, Current;
  }

  lemma CursorPicks(s: set<nat>, cursor: nat, n: nat)
    requires n in s
    ensures SortedIds(s) != [] && (Current(SortedIds(s), cursor) == n <==> Below(s, n) == cursor % |s|)
  {
    hide SortedIds, Below;
    var ids := SortedIds(s);
    var k :| 0 <= k < |ids| && ids[k] == n;
    AscendingBelow(ids, s, k);
    var c := cursor % |ids|;
    AscendingBelow(ids, s, c);
    if ids[c] == n { assert c == k; }
  }

  // ---- fairness -----------------------------------------------------------------------------

  /** `m` consecutive round-robin picks from the list `ids`, starting from `cursor`. */
  function Cycle(ids: seq<NodeId>, cursor: nat, m: nat): (picks: seq<NodeId>)
    requires ids != []
    ensures |picks| == m
    decreases m
  {
    if m == 0 then [] else [ids[cursor % |ids|]] + Cycle(ids, (cursor + 1) % |ids|, m - 1)
  }

  function Occurrences(xs: seq<NodeId>, x: NodeId): nat {
    if xs == [] then 0 else (if xs[0] == x then 1 else 0) + Occurrences(xs[1..], x)
  }

  /** Distance, in picks, from cursor position `c` to list position `j` in a cycle of length `k`. */
  function Ahead(c: nat, j: nat, k: nat): nat
    requires c < k && j < k
  {
    if c <= j then j - c else j + k - c
  }

  /** How often position `j` comes up in `m` picks. */
  function Share(c: nat, j: nat, k: nat, m: nat): nat
    requires c < k && j < k
  {
    if m <= Ahead(c, j, k) then 0 else (m - Ahead(c, j, k) - 1 + k) / k
  }

  lemma AtLeast(x: int, k: int)
    requires x >= 1 && k >= 1
    ensures x * k >= k
  {
    assert (x - 1) * k >= 0;
  }

  lemma DivModUnique(a: nat, q: int, r: nat, k: nat)
    requires 0 <= r < k && a == q * k + r
    ensures a / k == q && a % k == r
  {
    var d := a / k;
    if d < q {
      AtLeast(q - d, k);
    } else if d > q {
      AtLeast(d - q, k);
    }
  }

  lemma DivShift(a: nat, k: nat)
    requires k > 0
    ensures (a + k) / k == a / k + 1
  {
    var q := a / k;
    assert (q + 1) * k == q * k + k;
    DivModUnique(a + k, q + 1, a % k, k);
  }

  lemma DivMonotone(a: nat, b: nat, k: nat)
    requires k > 0 && a <= b
    ensures a / k <= b / k
  {
    var p, q := a / k, b / k;
    if p >= q + 1 {
      AtLeast(p - q, k);
    }
  }

  lemma ModStep(c: nat, k: nat)
    requires k > 0
    ensures (c + 1) % k == (if c % k + 1 == k then 0 else c % k + 1)
  {
    var q := c / k;
    if c % k + 1 == k {
      assert (q + 1) * k == q * k + k;
      DivModUnique(c + 1, q + 1, 0, k);
    } else {
      DivModUnique(c + 1, q, c % k + 1, k);
    }
  }

  lemma ShareStep(c: nat, j: nat, k: nat, m: nat)
    requires c < k && j < k && m > 0
    ensures var c' := if c + 1 == k then 0 else c + 1;
            Share(c, j, k, m) == (if c == j then 1 else 0) + Share(c', j, k, m - 1)
  {
    if c == j {
      if m - 1 <= k - 1 {
        DivModUnique(m - 1 + k, 1, m - 1, k);
      } else {
        DivShift(m - 1, k);
      }
    }
  }

  /** `Share` lies between the floor and the ceiling of the even split, for every position. */
  lemma ShareIsEven(c: nat, j: nat, k: nat, m: nat)
    requires c < k && j < k
    ensures m / k <= Share(c, j, k, m) <= (m + k - 1) / k
  {
    var a := Ahead(c, j, k);
    if m <= a {
      DivModUnique(m, 0, m, k);
      DivMonotone(0, m + k - 1, k);
    } else {
      DivMonotone(m, m - a - 1 + k, k);
      DivMonotone(m - a - 1 + k, m + k - 1, k);
    }
  }

  lemma {:induction false} CycleShare(ids: seq<NodeId>, cursor: nat, m: nat, j: nat)
    requires Ascending(ids) && j < |ids|
    ensures Occurrences(Cycle(ids, cursor, m), ids[j]) == Share(cursor % |ids|, j, |ids|, m)
    decreases m
  {
    if m > 0 {
      var k := |ids|;
      var cursor' := (cursor + 1) % k;
      CycleShare(ids, cursor', m - 1, j);
      ModStep(cursor, k);
      DivModUnique(cursor', 0, cursor', k);
      ShareStep(cursor % k, j, k, m);
      assert Cycle(ids, cursor, m)[1..] == Cycle(ids, cursor', m - 1);
    }
  }

  lemma {:induction false} CycleOnly(ids: seq<NodeId>, cursor: nat, m: nat, n: NodeId)
    requires ids != [] && n !in ids
    ensures Occurrences(Cycle(ids, cursor, m), n) == 0
    decreases m
  {
    if m > 0 {
      var cursor' := (cursor + 1) % |ids|;
      CycleOnly(ids, cursor', m - 1, n);
      assert Cycle(ids, cursor, m)[1..] == Cycle(ids, cursor', m - 1);
    }
  }

  /** `got` out of `m` is the floor or the ceiling of an even split among `k`. */
  predicate EvenShare(got: nat, m: nat, k: nat)
    requires k > 0
  {
    m / k <= got <= (m + k - 1) / k
  }

  lemma CycleFair(ids: seq<NodeId>, cursor: nat, m: nat, n: NodeId)
    requires Ascending(ids) && ids != []
    ensures n in ids ==> EvenShare(Occurrences(Cycle(ids, cursor, m), n), m, |ids|)
    ensures n !in ids ==> Occurrences(Cycle(ids, cursor, m), n) == 0
  {
    if n in ids {
      var j :| 0 <= j < |ids| && ids[j] == n;
      CycleShare(ids, cursor, m, j);
      ShareIsEven(cursor % |ids|, j, |ids|, m);
    } else {
      CycleOnly(ids, cursor, m, n);
    }
  }

  /** `m` consecutive placements over one cluster view, each leaving its cursor to the next. */
  ghost function Picks(nodes: map<NodeId, NodeInfo>, self: NodeId, cursor: nat, spec: Spec, m: nat): seq<NodeId>
    decreases m
  {
    if m == 0 then [] else
      var (cursor', pick) := Select(nodes, self, RoundRobin, cursor, spec);
      if pick.None? then [] else [pick.value] + Picks(nodes, self, cursor', spec, m - 1)
  }

  lemma {:induction false} PicksCycle(nodes: map<NodeId, NodeInfo>, self: NodeId, cursor: nat, spec: Spec, m: nat)
    requires SortedIds(Eligible(nodes, self, spec)) != []
    ensures Picks(nodes, self, cursor, spec, m) == Cycle(SortedIds(Eligible(nodes, self, spec)), cursor, m)
    decreases m
  {
    if m > 0 {
      var ids := SortedIds(Eligible(nodes, self, spec));
      PicksCycle(nodes, self, (cursor + 1) % |ids|, spec, m - 1);
    }
  }

  /** Over any `m` consecutive placements, from any cursor, every eligible node receives the floor
      or the ceiling of its even share and nothing lands anywhere else. */
  lemma RoundRobinFair(nodes: map<NodeId, NodeInfo>, self: NodeId, cursor: nat, spec: Spec, m: nat, n: NodeId)
    requires Eligible(nodes, self, spec) != {}
    ensures var eligible, picks := Eligible(nodes, self, spec), Picks(nodes, self, cursor, spec, m);
            && |picks| == m
            && (n in eligible ==> EvenShare(Occurrences(picks, n), m, |eligible|))
            && (n !in eligible ==> Occurrences(picks, n) == 0)
  {
    var ids := SortedIds(Eligible(nodes, self, spec));
    var x :| x in Eligible(nodes, self, spec);
    assert x in ids;
    PicksCycle(nodes, self, cursor, spec, m);
    CycleFair(ids, cursor, m, n);
  }
}
