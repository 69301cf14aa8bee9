/** The registry's declared dependencies and the graph it builds from them. */
module BlockRegistry {
  import opened Common
  import opened Reachability
  import opened DependencyGraph

  datatype BlockState = Loaded | Active

  datatype BlockEntry = BlockEntry(name: string, version: string, binary: Bytes, state: BlockState)

  /** Everything declared, as a graph of its own: unknown, cyclic and self-referring names included. */
  ghost predicate Declared(deps: map<string, seq<string>>, block: string, dep: string) {
    block in deps && dep in deps[block]
  }

  /** The declared edge is in the graph, or it had to be dropped because the graph already leads back. */
  ghost predicate Honoured(g: Graph, block: string, dep: string) {
    Edge(g, block, dep) || block == dep || Reach(g, dep, block)
  }

  lemma AddDepWithin(g: Graph, block: string, dep: string)
    ensures Within(g, AddDep(g, block, dep)) && g.Keys <= AddDep(g, block, dep).Keys
    ensures Honoured(AddDep(g, block, dep), block, dep)
    ensures forall a, b :: Edge(AddDep(g, block, dep), a, b) ==> Edge(g, a, b) || (a == block && b == dep)
  {
    var g1, g2 := Ensure(Ensure(g, block), dep), AddDep(g, block, dep);
    if !Refused(g1, block, dep) && dep !in g1[block] {
      assert dep in g2[block];
    }
  }

  lemma HonouredWithin(g: Graph, g': Graph, block: string, dep: string)
    requires Honoured(g, block, dep) && Within(g, g')
    ensures Honoured(g', block, dep)
  {
    if Reach(g, dep, block) { ReachWithin(g, g', dep, block); }
  }

  /** The graph contains nothing but declared edges, and every declared edge it could hold. */
  ghost predicate Maximal(g: Graph, deps: map<string, seq<string>>) {
    && (forall a, b :: Edge(g, a, b) ==> Declared(deps, a, b))
    && (forall a, b :: Declared(deps, a, b) ==> Honoured(g, a, b))
  }

  /** If what was declared is free of cycles, nothing is dropped. */
  lemma NothingDropped(g: Graph, deps: map<string, seq<string>>)
    requires Maximal(g, deps) && Acyclic(deps)
    ensures forall a, b :: Edge(g, a, b) <==> Declared(deps, a, b)
  {
    assert Within(g, deps);
    forall a, b | Declared(deps, a, b) ensures Edge(g, a, b) {
      EdgeBack(deps, a, b);
      if a == b { ReachSelf(deps, a); }
      if Reach(g, b, a) { ReachWithin(g, deps, b, a); }
    }
  }

  /** Some edge of `g'` that `g` lacks lies on a path of `g'` from `a` to `b`. */
  ghost predicate NewWay(g: Graph, g': Graph, a: string, b: string) {
    exists x, y :: Edge(g', x, y) && !Edge(g, x, y) && Reach(g', a, x) && Reach(g', y, b)
  }

  /** A path that leads where `g` does not lead uses an edge that `g` lacks. */
  lemma {:induction false} NewPath(g: Graph, g': Graph, p: seq<string>)
    requires IsPath(g', p) && !Reach(g, p[0], p[|p| - 1])
    ensures NewWay(g, g', p[0], p[|p| - 1])
    decreases |p|
  {
    var a, b := p[0], p[|p| - 1];
    if |p| == 1 {
      ReachSelf(g, a);
    } else {
      SubPath(g', p, 1, |p|);
      assert Edge(g', a, p[1]) && PathFromTo(g', p[1..], p[1], b);
      if Edge(g, a, p[1]) {
        if Reach(g, p[1], b) { ReachStep(g, a, p[1], b); }
        NewPath(g, g', p[1..]);
        var x, y :| Edge(g', x, y) && !Edge(g, x, y) && Reach(g', p[1], x) && Reach(g', y, b);
        ReachStep(g', a, p[1], x);
      } else {
        ReachSelf(g', a);
      }
    }
  }

  /** A declared edge that one graph has and the other lacks: the other leads back, over an edge the first lacks. */
  lemma Displaced(g: Graph, g': Graph, a: string, b: string)
    requires Acyclic(g) && Edge(g, a, b) && !Edge(g', a, b) && Honoured(g', a, b)
    ensures NewWay(g, g', b, a)
  {
    EdgeBack(g, a, b);
    if a == b { ReachSelf(g, a); }
    var p :| PathFromTo(g', p, b, a);
    NewPath(g, g', p);
  }

  /** The graphs built before and after `name` was declared anew. The new one shows of `name` only the new list, and
      every block on it that does not lead back. Between the two, another block loses or gains an edge only to make way
      for, or in place of, an edge that the one graph has and the other lacks. */
  lemma LatestDeclaration(g: Graph, g': Graph, deps: map<string, seq<string>>, name: string, list: seq<string>)
    requires Maximal(g, deps) && Acyclic(g) && Maximal(g', deps[name := list]) && Acyclic(g')
    ensures forall b :: Edge(g', name, b) ==> b in list
    ensures forall b :: b in list && b != name && !Reach(g', b, name) ==> Edge(g', name, b)
    ensures forall a, b :: a != name && Edge(g, a, b) && !Edge(g', a, b) ==> NewWay(g, g', b, a)
    ensures forall a, b :: a != name && Edge(g', a, b) && !Edge(g, a, b) ==> NewWay(g', g, b, a)
  {
    var deps' := deps[name := list];
    hide Reach, Acyclic, NewWay;
    forall b | b in list && b != name && !Reach(g', b, name) ensures Edge(g', name, b) {
      assert Declared(deps', name, b);
      assert Honoured(g', name, b);
    }
    forall a, b | a != name && Edge(g, a, b) && !Edge(g', a, b) ensures NewWay(g, g', b, a) {
      assert Declared(deps', a, b);
      Displaced(g, g', a, b);
    }
    forall a, b | a != name && Edge(g', a, b) && !Edge(g, a, b) ensures NewWay(g', g, b, a) {
      assert Declared(deps, a, b);
      Displaced(g', g, a, b);
    }
  }

  /** If neither declaration closes a cycle, every other block keeps exactly its edges. */
  lemma OthersKeep(g: Graph, g': Graph, deps: map<string, seq<string>>, name: string, list: seq<string>)
    requires Maximal(g, deps) && Maximal(g', deps[name := list]) && Acyclic(deps) && Acyclic(deps[name := list])
    ensures forall a, b :: a != name ==> (Edge(g, a, b) <==> Edge(g', a, b))
  {
    NothingDropped(g, deps);
    NothingDropped(g', deps[name := list]);
    hide Acyclic, Maximal;
  }

  class BlockRegistry {
    var blocks: map<nat, BlockEntry>
    var nextId: nat
    var dependencies: map<string, seq<string>>

    constructor ()
      ensures blocks == map[] && nextId == 1 && dependencies == map[]
    {
      blocks, nextId, dependencies := map[], 1, map[];
    }

    method RegisterBlock(name: string, version: string, binary: Bytes) returns (id: nat)
      modifies this`blocks, this`nextId
      ensures id == old(nextId) && nextId == id + 1
      ensures blocks == old(blocks)[id := BlockEntry(name, version, binary, Loaded)]
    {
      id := nextId;
      nextId := nextId + 1;
      blocks := blocks[id := BlockEntry(name, version, binary, Loaded)];
    }

    method SetBlockDependencies(name: string, deps: seq<string>)
      modifies this`dependencies
      ensures dependencies == old(dependencies)[name := deps]
      ensures forall b :: Declared(dependencies, name, b) <==> b in deps
      ensures forall a, b :: a != name ==> (Declared(dependencies, a, b) <==> old(Declared(dependencies, a, b)))
    {
      dependencies := dependencies[name := deps];
    }

    /** Offer one block's declared dependencies to the graph, dropping those it refuses. */
    method Offer(graph: DependencyGraph, block: string, deps: seq<string>)
      requires graph.Valid()
      modifies graph
      ensures graph.Valid()
      ensures Within(old(graph.edges), graph.edges) && old(graph.edges).Keys <= graph.edges.Keys
      ensures forall dep :: dep in deps ==> Honoured(graph.edges, block, dep)
      ensures forall a, b :: Edge(graph.edges, a, b) ==> Edge(old(graph.edges), a, b) || (a == block && b in deps)
    {
      hide AddDep, Honoured, Sound, Refused, Ensure;
      var i := 0;
      while i < |deps|
        invariant 0 <= i <= |deps| && graph.Valid()
        invariant Within(old(graph.edges), graph.edges) && old(graph.edges).Keys <= graph.edges.Keys
        invariant forall j :: 0 <= j < i ==> Honoured(graph.edges, block, deps[j])
        invariant forall a, b :: Edge(graph.edges, a, b) ==> Edge(old(graph.edges), a, b) || (a == block && b in deps)
      {
        ghost var before := graph.edges;
        AddDepWithin(before, block, deps[i]);
        var _ := graph.AddDependency(block, deps[i]);
        forall j | 0 <= j < i ensures Honoured(graph.edges, block, deps[j]) {
          HonouredWithin(before, graph.edges, block, deps[j]);
        }
        i := i + 1;
      }
    }

    /** Whatever was declared and however the maps are walked, the graph is sound, knows every
        registered block, and is as large a part of what was declared as it can be. */
    method BuildGraph() returns (graph: DependencyGraph)
      ensures fresh(graph) && graph.Valid()
      ensures forall id :: id in blocks ==> blocks[id].name in graph.edges
      ensures Maximal(graph.edges, dependencies)
    {
      hide Sound, Honoured;
      graph := new DependencyGraph();
      var ids := blocks.Keys;
      while ids != {}
        invariant ids <= blocks.Keys && graph.Valid()
        invariant forall id :: id in blocks && id !in ids ==> blocks[id].name in graph.edges
        invariant forall a, b :: !Edge(graph.edges, a, b)
        decreases ids
      {
        var id :| id in ids;
        ghost var before := graph.edges;
        graph.AddBlock(blocks[id].name);
        forall a, b ensures !Edge(graph.edges, a, b) { EnsureSame(before, blocks[id].name, a, b); }
        ids := ids - {id};
      }
      var todo := dependencies.Keys;
      while todo != {}
        invariant todo <= dependencies.Keys && graph.Valid()
        invariant forall id :: id in blocks ==> blocks[id].name in graph.edges
        invariant forall a, b :: Edge(graph.edges, a, b) ==> Declared(dependencies, a, b)
        invariant forall a, b :: a !in todo && Declared(dependencies, a, b) ==> Honoured(graph.edges, a, b)
        decreases todo
      {
        var block :| block in todo;
        todo := todo - {block};
        ghost var before := graph.edges;
        Offer(graph, block, dependencies[block]);
        forall a, b | a !in todo && Declared(dependencies, a, b) ensures Honoured(graph.edges, a, b) {
          if a != block { HonouredWithin(before, graph.edges, a, b); }
        }
      }
    }

    /** The registry's load order exists for every history of declarations. */
    method BootOrder() returns (order: seq<string>, ghost edges: Graph)
      ensures Maximal(edges, dependencies) && LoadOrder(edges, order)
      ensures forall id :: id in blocks ==> blocks[id].name in order
    {
      var graph := BuildGraph();
      edges := graph.edges;
      var r := graph.LoadOrder();
      order := r.value;
    }
  }
}
