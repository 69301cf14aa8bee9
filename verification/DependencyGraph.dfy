/** The block dependency graph: incremental cycle check and load order. */
module DependencyGraph {
  import opened Common
  import opened Lists
  import opened Reachability
  import Ordering = LoadOrdering

  datatype DependencyError = CircularDependency(chain: seq<string>)

  /** Every name the graph mentions. */
  function Names(g: Graph): set<string> {
    g.Keys + (set a, b | a in g && b in g[a] :: b)
  }

  function Ensure(g: Graph, name: string): Graph {
    if name in g then g else g[name := []]
  }

  ghost predicate Refused(g: Graph, block: string, dep: string) {
    block == dep || Reach(g, dep, block)
  }

  /** The graph after asking for `block` to depend on `dep`: both become known, and the edge is added
      unless it would close a cycle or is there already. */
  ghost function AddDep(g: Graph, block: string, dep: string): Graph {
    var g1 := Ensure(Ensure(g, block), dep);
    if Refused(g1, block, dep) || dep in g1[block] then g1 else g1[block := g1[block] + [dep]]
  }

  function RemoveName(g: Graph, name: string): Graph {
    map a | a in g && a != name :: Without(g[a], name)
  }

  // ---- every edit keeps the graph sound -----------------------------------------------------

  lemma EmptySound()
    ensures Sound(map[])
  {
    OrderedAcyclic(map[], []);
  }

  lemma EnsureSame(g: Graph, name: string, a: string, b: string)
    ensures Edge(Ensure(g, name), a, b) <==> Edge(g, a, b)
  {
  }

  lemma EnsureSound(g: Graph, name: string)
    requires Sound(g)
    ensures Sound(Ensure(g, name))
  {
    forall a, b ensures Edge(Ensure(g, name), a, b) <==> Edge(g, a, b) { EnsureSame(g, name, a, b); }
    AcyclicWithin(Ensure(g, name), g);
  }

  lemma AddDepSound(g: Graph, block: string, dep: string)
    requires Sound(g)
    ensures Sound(AddDep(g, block, dep))
  {
    EnsureSound(g, block);
    EnsureSound(Ensure(g, block), dep);
    var g1 := Ensure(Ensure(g, block), dep);
    var g2 := AddDep(g, block, dep);
    if g2 != g1 {
      assert Extends(g1, block, dep, g2);
      AddEdgeAcyclic(g1, block, dep, g2);
    }
  }

  lemma RemoveSound(g: Graph, name: string)
    requires Sound(g)
    ensures Sound(RemoveName(g, name)) && name !in Names(RemoveName(g, name))
  {
    var g' := RemoveName(g, name);
    forall a | a in g' ensures Distinct(g'[a]) && forall b :: b in g'[a] <==> b in g[a] && b != name {
      assert Distinct(g[a]);
      WithoutKeeps(g[a], name);
    }
    hide RemoveName, Distinct;
    assert forall a, b :: Edge(g', a, b) ==> Edge(g, a, b) && a != name && b != name;
    AcyclicWithin(g', g);
    hide Acyclic;
  }

  /** Any run of edits, from the empty graph, leaves a sound graph. */
  datatype Edit = AddBlock(name: string) | AddDependency(block: string, dep: string) | RemoveBlock(name: string)

  ghost function Apply(g: Graph, e: Edit): Graph {
    match e
    case AddBlock(name) => Ensure(g, name)
    case AddDependency(block, dep) => AddDep(g, block, dep)
    case RemoveBlock(name) => RemoveName(g, name)
  }

  ghost function ApplyAll(g: Graph, edits: seq<Edit>): Graph
    decreases |edits|
  {
    if edits == [] then g else ApplyAll(Apply(g, edits[0]), edits[1..])
  }

  lemma {:induction false} EditsSound(g: Graph, edits: seq<Edit>)
    requires Sound(g)
    ensures Sound(ApplyAll(g, edits))
    decreases |edits|
  {
    if edits != [] {
      match edits[0] {
        case AddBlock(name) => EnsureSound(g, name);
        case AddDependency(block, dep) => AddDepSound(g, block, dep);
        case RemoveBlock(name) => RemoveSound(g, name);
      }
      EditsSound(Apply(g, edits[0]), edits[1..]);
    }
  }

  // ---- the depth-first cycle check ----------------------------------------------------------

  /** Nodes of `done` differ from `goal`, and all their successors have been seen. */
  ghost predicate Explored(g: Graph, goal: string, done: set<string>, seen: set<string>) {
    && goal !in done
    && forall a, b :: a in done && Edge(g, a, b) ==> b in seen
  }

  lemma EdgeNamed(g: Graph, a: string, b: string)
    requires Edge(g, a, b)
    ensures b in Names(g)
  {
  }

  lemma ExploredNone(g: Graph, goal: string, seen: set<string>)
    ensures Explored(g, goal, seen - seen, seen)
  {
  }

  lemma ExploredNode(g: Graph, goal: string, a: string, done: set<string>, seen: set<string>)
    requires Explored(g, goal, done, seen) && a != goal && (a in g ==> forall b :: b in g[a] ==> b in seen)
    ensures Explored(g, goal, done + {a}, seen)
  {
  }

  /** What was explored before a nested search from `dep` and what that search explored, together. */
  lemma ExploredJoin(g: Graph, goal: string, dep: string, visited: set<string>, before: set<string>, seen: set<string>)
    requires visited <= before <= seen && dep !in before && dep in seen
    requires Explored(g, goal, before - visited, before)
    requires Explored(g, goal, seen - (before + {dep}) + {dep}, seen)
    ensures Explored(g, goal, seen - visited, seen)
  {
    assert seen - visited == (before - visited) + (seen - (before + {dep}) + {dep});
  }

  /** A completed unsuccessful search from `start` shows that `goal` is unreachable. */
  lemma ExploredUnreachable(g: Graph, goal: string, start: string, seen: set<string>)
    requires start in seen && Explored(g, goal, seen, seen)
    ensures !Reach(g, start, goal)
  {
    forall p | IsPath(g, p) && p[0] == start ensures p[|p| - 1] in seen { ClosedSet(g, seen, p); }
  }

  /** `order` lists every block exactly once, each before everything it depends on. */
  ghost predicate UnloadSequence(g: Graph, order: seq<string>) {
    && Distinct(order) && (forall x :: x in order <==> x in g)
    && forall i, d :: 0 <= i < |order| && Edge(g, order[i], d) ==> d in order[i + 1..]
  }

  lemma ReverseAfter(order: seq<string>, i: nat, d: string)
    requires i < |order| && d in order[..|order| - 1 - i]
    ensures d in Reverse(order)[i + 1..]
  {
    hide Reverse;
    var r, n := Reverse(order), |order|;
    var j :| 0 <= j < n - 1 - i && order[j] == d;
    var k := n - 1 - j;
    assert r[k] == order[n - 1 - k];
    assert r[i + 1..][k - (i + 1)] == r[k];
  }

  lemma ReversedUnloads(g: Graph, order: seq<string>)
    requires LoadOrder(g, order)
    ensures UnloadSequence(g, Reverse(order))
  {
    hide Edge;
    var r, n := Reverse(order), |order|;
    forall x | x in order ensures x in r {
      var i :| 0 <= i < n && order[i] == x;
      assert r[n - 1 - i] == x;
    }
    forall i, d | 0 <= i < n && Edge(g, r[i], d) ensures d in r[i + 1..] {
      assert d in order[..n - 1 - i];
      ReverseAfter(order, i, d);
    }
  }

  class DependencyGraph {
    var edges: Graph

    ghost predicate Valid()
      reads this
    {
      Sound(edges)
    }

    constructor ()
      ensures edges == map[] && Valid()
    {
      edges := map[];
      EmptySound();
    }

    method AddBlock(name: string)
      modifies this
      ensures edges == Ensure(old(edges), name)
      ensures old(Valid()) ==> Valid()
    {
      if name !in edges { edges := edges[name := []]; }
      if old(Valid()) { EnsureSound(old(edges), name); }
    }

    /** Depth-first search for `from` below `to`, growing one shared set of visited names. */
    method WouldCreateCycle(from: string, to: string, visited: set<string>) returns (found: bool, seen: set<string>)
      requires to in visited
      ensures visited <= seen <= visited + Names(edges)
      ensures found ==> Reach(edges, to, from)
      ensures !found ==> Explored(edges, from, seen - visited + {to}, seen)
      ensures visited == {to} ==> (found <==> Reach(edges, to, from))
      decreases |Names(edges) - visited|
    {
      hide Names, Reach, Explored;
      seen := visited;
      ExploredNone(edges, from, visited);
      if from == to {
        ReachSelf(edges, to);
        return true, seen;
      }
      if to in edges {
        var deps := edges[to];
        var i := 0;
        while i < |deps|
          invariant 0 <= i <= |deps|
          invariant visited <= seen <= visited + Names(edges)
          invariant forall j :: 0 <= j < i ==> deps[j] in seen
          invariant Explored(edges, from, seen - visited, seen)
        {
          var dep := deps[i];
          EdgeNamed(edges, to, dep);
          if dep !in seen {
            ghost var before := seen;
            var more := seen + {dep};
            Shrinks(Names(edges) - more, Names(edges) - visited, dep);
            found, seen := WouldCreateCycle(from, dep, more);
            if found {
              ReachStep(edges, to, dep, from);
              return;
            }
            ExploredJoin(edges, from, dep, visited, before, seen);
          }
          i := i + 1;
        }
      }
      found := false;
      ExploredNode(edges, from, to, seen - visited, seen);
      if visited == {to} {
        assert seen - visited + {to} == seen;
        ExploredUnreachable(edges, from, to, seen);
      }
    }

    method AddDependency(block: string, dependsOn: string) returns (r: Result<(), DependencyError>)
      modifies this
      ensures edges == AddDep(old(edges), block, dependsOn)
      ensures r.Ok? <==> !Refused(Ensure(Ensure(old(edges), block), dependsOn), block, dependsOn)
      ensures r.Ok? ==> Edge(edges, block, dependsOn)
      ensures r.Err? ==> r.error == CircularDependency(if block == dependsOn then [block] else [dependsOn, block])
      ensures old(Valid()) ==> Valid()
    {
      if old(Valid()) { AddDepSound(old(edges), block, dependsOn); }
      if block !in edges { edges := edges[block := []]; }
      if dependsOn !in edges { edges := edges[dependsOn := []]; }
      if block == dependsOn {
        return Err(CircularDependency([block]));
      }
      var cyclic, _ := WouldCreateCycle(block, dependsOn, {dependsOn});
      if cyclic {
        return Err(CircularDependency([dependsOn, block]));
      }
      if dependsOn !in edges[block] {
        edges := edges[block := edges[block] + [dependsOn]];
      }
      r := Ok(());
    }

    /** On every graph that edits can produce this succeeds, whatever the order of the hash map. */
    method LoadOrder() returns (r: Result<seq<string>, DependencyError>)
      requires Valid()
      ensures r.Ok? && Reachability.LoadOrder(edges, r.value)
    {
      var order := Ordering.FindLoadOrder(edges);
      r := match order case Ok(blocks) => Ok(blocks) case Err(blocks) => Err(CircularDependency(blocks));
    }

    method UnloadOrder() returns (r: Result<seq<string>, DependencyError>)
      requires Valid()
      ensures r.Ok? && UnloadSequence(edges, r.value)
    {
      var order := LoadOrder();
      if order.Err? { return order; }
      ReversedUnloads(edges, order.value);
      r := Ok(Reverse(order.value));
    }

    method RemoveBlock(name: string)
      modifies this
      ensures edges == RemoveName(old(edges), name)
      ensures old(Valid()) ==> Valid() && name !in Names(edges)
    {
      if old(Valid()) { RemoveSound(old(edges), name); }
      edges := RemoveName(edges, name);
    }
  }

  lemma Shrinks(a: set<string>, b: set<string>, x: string)
    requires a <= b && x in b && x !in a
    ensures |a| < |b|
  {
    SubsetSize(a, b - {x});
  }

  lemma {:induction false} SubsetSize(a: set<string>, b: set<string>)
    requires a <= b
    ensures |a| <= |b|
    decreases a
  {
    if a != {} {
      var x :| x in a;
      SubsetSize(a - {x}, b - {x});
    }
  }
}
