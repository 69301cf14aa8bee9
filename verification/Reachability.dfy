/** Paths, reachability and acyclicity of dependency maps. */
module Reachability {
  import opened Lists

  type Graph = map<string, seq<string>>

  ghost predicate Edge(g: Graph, a: string, b: string) {
    a in g && b in g[a]
  }

  ghost predicate IsPath(g: Graph, p: seq<string>) {
    p != [] && forall i :: 0 <= i < |p| - 1 ==> Edge(g, p[i], p[i + 1])
  }

  ghost predicate PathFromTo(g: Graph, p: seq<string>, a: string, b: string) {
    IsPath(g, p) && p[0] == a && p[|p| - 1] == b
  }

  ghost predicate Reach(g: Graph, a: string, b: string) {
    exists p :: PathFromTo(g, p, a, b)
  }

  ghost predicate Acyclic(g: Graph) {
    forall p :: IsPath(g, p) && |p| >= 2 ==> p[0] != p[|p| - 1]
  }

  ghost predicate Closed(g: Graph) {
    forall a, b :: Edge(g, a, b) ==> b in g
  }

  ghost predicate NoDuplicates(g: Graph) {
    forall a :: a in g ==> Distinct(g[a])
  }

  /** What every dependency graph must satisfy. */
  ghost predicate Sound(g: Graph) {
    Closed(g) && NoDuplicates(g) && Acyclic(g)
  }

  /** Every edge of `g` is an edge of `g'`. */
  ghost predicate Within(g: Graph, g': Graph) {
    forall a, b :: Edge(g, a, b) ==> Edge(g', a, b)
  }

  lemma SubPath(g: Graph, p: seq<string>, i: nat, j: nat)
    requires IsPath(g, p) && i < j <= |p|
    ensures IsPath(g, p[i..j])
  {
    forall k | 0 <= k < j - i - 1 ensures Edge(g, p[i..j][k], p[i..j][k + 1]) {
      assert Edge(g, p[i + k], p[i + k + 1]);
    }
  }

  lemma PathPrepend(g: Graph, a: string, p: seq<string>)
    requires IsPath(g, p) && Edge(g, a, p[0])
    ensures IsPath(g, [a] + p)
  {
  }

  lemma PathWithin(g: Graph, g': Graph, p: seq<string>)
    requires IsPath(g, p) && Within(g, g')
    ensures IsPath(g', p)
  {
  }

  lemma ReachWithin(g: Graph, g': Graph, a: string, b: string)
    requires Reach(g, a, b) && Within(g, g')
    ensures Reach(g', a, b)
  {
    var p :| PathFromTo(g, p, a, b);
    PathWithin(g, g', p);
    assert PathFromTo(g', p, a, b);
  }

  lemma AcyclicWithin(g: Graph, g': Graph)
    requires Acyclic(g') && Within(g, g')
    ensures Acyclic(g)
  {
    forall p | IsPath(g, p) && |p| >= 2 ensures p[0] != p[|p| - 1] {
      PathWithin(g, g', p);
    }
  }

  lemma ReachSelf(g: Graph, a: string)
    ensures Reach(g, a, a)
  {
    assert PathFromTo(g, [a], a, a);
  }

  lemma ReachStep(g: Graph, a: string, b: string, c: string)
    requires Edge(g, a, b) && Reach(g, b, c)
    ensures Reach(g, a, c)
  {
    var p :| PathFromTo(g, p, b, c);
    assert PathFromTo(g, [a] + p, a, c);
  }

  /** Closing a path back to its start contradicts acyclicity. */
  lemma EdgeBack(g: Graph, a: string, b: string)
    requires Acyclic(g) && Edge(g, a, b)
    ensures !Reach(g, b, a)
  {
    if Reach(g, b, a) {
      var p :| PathFromTo(g, p, b, a);
      PathPrepend(g, a, p);
    }
  }

  /** A set that contains all successors of its members contains everything reachable from it. */
  lemma {:induction false} ClosedSet(g: Graph, s: set<string>, p: seq<string>)
    requires IsPath(g, p) && p[0] in s
    requires forall a, b :: a in s && Edge(g, a, b) ==> b in s
    ensures p[|p| - 1] in s
    decreases |p|
  {
    if |p| > 1 {
      assert Edge(g, p[0], p[1]);
      SubPath(g, p, 1, |p|);
      ClosedSet(g, s, p[1..]);
    }
  }

  // ---- adding an edge -----------------------------------------------------------------------

  ghost predicate Extends(g: Graph, b: string, d: string, g': Graph) {
    forall x, y :: Edge(g', x, y) <==> Edge(g, x, y) || (x == b && y == d)
  }

  /** A path to `b` can be cut at its first visit to `b`, and then uses no edge out of `b`. */
  lemma {:induction false} PathToTail(g: Graph, b: string, d: string, g': Graph, q: seq<string>)
    requires Extends(g, b, d, g') && IsPath(g', q) && q[|q| - 1] == b
    ensures Reach(g, q[0], b)
    decreases |q|
  {
    if q[0] == b {
      ReachSelf(g, b);
    } else {
      assert Edge(g', q[0], q[1]);
      SubPath(g', q, 1, |q|);
      PathToTail(g, b, d, g', q[1..]);
      ReachStep(g, q[0], q[1], b);
    }
  }

  /** Going round a closed path from just after position `i` leads back to position `i`. */
  lemma Rotate(g: Graph, p: seq<string>, i: nat)
    requires IsPath(g, p) && p[0] == p[|p| - 1] && i < |p| - 1
    ensures PathFromTo(g, p[i + 1..] + p[1..i + 1], p[i + 1], p[i])
  {
    var q := p[i + 1..] + p[1..i + 1];
    var n := |p| - i - 1;
    forall j | 0 <= j < |q| - 1 ensures Edge(g, q[j], q[j + 1]) {
      if j < n - 1 {
        assert Edge(g, p[i + 1 + j], p[i + 2 + j]);
      } else if j == n - 1 {
        assert q[j] == p[0] && q[j + 1] == p[1];
        assert Edge(g, p[0], p[1]);
      } else {
        assert q[j] == p[1 + j - n];
        assert Edge(g, p[1 + j - n], p[2 + j - n]);
      }
    }
  }

  lemma PathAvoids(g: Graph, b: string, d: string, g': Graph, p: seq<string>)
    requires Extends(g, b, d, g') && IsPath(g', p)
    requires !exists i :: 0 <= i < |p| - 1 && p[i] == b && p[i + 1] == d
    ensures IsPath(g, p)
  {
    forall i | 0 <= i < |p| - 1 ensures Edge(g, p[i], p[i + 1]) {
      assert Edge(g', p[i], p[i + 1]);
    }
  }

  /** An edge whose head cannot reach its tail closes no cycle. */
  lemma AddEdgeAcyclic(g: Graph, b: string, d: string, g': Graph)
    requires Acyclic(g) && Extends(g, b, d, g') && !Reach(g, d, b)
    ensures Acyclic(g')
  {
    forall p | IsPath(g', p) && |p| >= 2 ensures p[0] != p[|p| - 1] {
      if p[0] == p[|p| - 1] {
        if i :| 0 <= i < |p| - 1 && p[i] == b && p[i + 1] == d {
          Rotate(g', p, i);
          PathToTail(g, b, d, g', p[i + 1..] + p[1..i + 1]);
        } else {
          PathAvoids(g, b, d, g', p);
        }
      }
    }
  }

  // ---- finite sets ----------------------------------------------------------------------------

  ghost predicate HasNext(g: Graph, s: set<string>, a: string) {
    exists b :: b in s && Edge(g, a, b)
  }

  /** In a set whose every member has a successor in it, paths of any length exist. */
  lemma {:induction false} LongPath(g: Graph, stuck: set<string>, n: nat) returns (p: seq<string>)
    requires stuck != {} && n > 0
    requires forall a {:trigger HasNext(g, stuck, a)} :: a in stuck ==> HasNext(g, stuck, a)
    ensures IsPath(g, p) && |p| == n && forall i :: 0 <= i < |p| ==> p[i] in stuck
    decreases n
  {
    if n == 1 {
      var a :| a in stuck;
      p := [a];
    } else {
      var q := LongPath(g, stuck, n - 1);
      var last := q[|q| - 1];
      assert HasNext(g, stuck, last);
      var b :| b in stuck && Edge(g, last, b);
      p := q + [b];
    }
  }

  /** Such a set contains a cycle. */
  lemma StuckCyclic(g: Graph, stuck: set<string>)
    requires stuck != {}
    requires forall a {:trigger HasNext(g, stuck, a)} :: a in stuck ==> HasNext(g, stuck, a)
    ensures !Acyclic(g)
  {
    var p := LongPath(g, stuck, |stuck| + 1);
    assert !Distinct(p) by {
      if Distinct(p) { DistinctFits(p, stuck); }
    }
    hide HasNext;
    var i, j :| 0 <= i < j < |p| && p[i] == p[j];
    var q := p[i..j + 1];
    SubPath(g, p, i, j + 1);
    assert q[0] == q[|q| - 1];
  }

  // ---- orders -------------------------------------------------------------------------------

  /** `order` lists every block exactly once, each after everything it depends on. */
  ghost predicate LoadOrder(g: Graph, order: seq<string>) {
    && Distinct(order) && (forall x :: x in order <==> x in g)
    && forall i, d :: 0 <= i < |order| && Edge(g, order[i], d) ==> d in order[..i]
  }

  /** Along a path, positions in a load order strictly decrease. */
  lemma {:induction false} PathDescends(g: Graph, order: seq<string>, p: seq<string>, i: nat)
    requires LoadOrder(g, order) && IsPath(g, p) && |p| >= 2
    requires i < |order| && order[i] == p[0]
    ensures exists j :: 0 <= j < i && order[j] == p[|p| - 1]
    decreases |p|
  {
    assert Edge(g, p[0], p[1]);
    assert p[1] in order[..i];
    var k :| 0 <= k < i && order[..i][k] == p[1];
    if |p| > 2 {
      SubPath(g, p, 1, |p|);
      PathDescends(g, order, p[1..], k);
    } else {
      assert order[k] == p[|p| - 1];
    }
  }

  /** A graph that has a load order has no cycle. */
  lemma OrderedAcyclic(g: Graph, order: seq<string>)
    requires LoadOrder(g, order)
    ensures Acyclic(g)
  {
    forall p | IsPath(g, p) && |p| >= 2 ensures p[0] != p[|p| - 1] {
      assert Edge(g, p[0], p[1]);
      assert p[0] in order;
      var i :| 0 <= i < |order| && order[i] == p[0];
      PathDescends(g, order, p, i);
    }
  }
}
