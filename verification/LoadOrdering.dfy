/** Kahn's algorithm over hash maps that may be walked in any order. */
module LoadOrdering {
  import opened Common
  import opened Lists
  import opened Reachability

  type Counts = map<string, nat>

  function DependentsIn(reverse: Graph, d: string): seq<string> {
    if d in reverse then reverse[d] else []
  }

  /** `list` holds, without repetition, exactly the blocks of `done` that depend on `d`. */
  ghost predicate Listed(g: Graph, done: set<string>, d: string, list: seq<string>) {
    Distinct(list) && forall b :: b in list <==> b in done && Edge(g, b, d)
  }

  ghost predicate Reversed(g: Graph, done: set<string>, reverse: Graph) {
    forall d :: Listed(g, done, d, DependentsIn(reverse, d))
  }

  lemma ListedMore(g: Graph, done: set<string>, d: string, list: seq<string>, block: string)
    requires Listed(g, done, d, list) && block !in done
    ensures Listed(g, done + {block}, d, list + (if Edge(g, block, d) then [block] else []))
  {
  }

  /** `r` is `reverse` with `block` added under each block of `deps`. */
  ghost predicate PushedUnder(reverse: Graph, r: Graph, deps: seq<string>, block: string) {
    forall d :: DependentsIn(r, d) == DependentsIn(reverse, d) + (if d in deps then [block] else [])
  }

  lemma PushOne(reverse: Graph, r: Graph, deps: seq<string>, block: string, d: string)
    requires PushedUnder(reverse, r, deps, block) && d !in deps
    ensures PushedUnder(reverse, r[d := DependentsIn(r, d) + [block]], deps + [d], block)
  {
    var r' := r[d := DependentsIn(r, d) + [block]];
    forall x ensures DependentsIn(r', x) == DependentsIn(reverse, x) + (if x in deps + [d] then [block] else []) {
      assert x in deps + [d] <==> x in deps || x == d;
      assert DependentsIn(r', x) == if x == d then DependentsIn(r, d) + [block] else DependentsIn(r, x);
    }
  }

  /** Push `block` under each of its dependencies. */
  method PushUnder(g: Graph, done: set<string>, block: string, reverse: Graph) returns (r: Graph)
    requires Reversed(g, done, reverse) && block in g && block !in done && Distinct(g[block])
    ensures Reversed(g, done + {block}, r)
  {
    hide Listed, PushedUnder;
    var deps := g[block];
    r := reverse;
    PushNone(reverse, block);
    var j := 0;
    while j < |deps|
      invariant 0 <= j <= |deps|
      invariant PushedUnder(reverse, r, deps[..j], block)
    {
      PushOne(reverse, r, deps[..j], block, deps[j]);
      assert deps[..j + 1] == deps[..j] + [deps[j]];
      r := r[deps[j] := DependentsIn(r, deps[j]) + [block]];
      j := j + 1;
    }
    assert deps[..|deps|] == deps;
    PushedAll(g, done, block, reverse, r);
  }

  lemma PushNone(reverse: Graph, block: string)
    ensures PushedUnder(reverse, reverse, [], block)
  {
  }

  lemma PushedAll(g: Graph, done: set<string>, block: string, reverse: Graph, r: Graph)
    requires Reversed(g, done, reverse) && block in g && block !in done && PushedUnder(reverse, r, g[block], block)
    ensures Reversed(g, done + {block}, r)
  {
    hide Listed;
    forall d ensures Listed(g, done + {block}, d, DependentsIn(r, d)) {
      ListedMore(g, done, d, DependentsIn(reverse, d), block);
    }
  }

  /** Dependency counts and reverse edges of the whole graph. */
  method Prepare(g: Graph) returns (counts: Counts, reverse: Graph)
    requires NoDuplicates(g)
    ensures counts.Keys == g.Keys && forall b :: b in g ==> counts[b] == |g[b]|
    ensures Reversed(g, g.Keys, reverse)
  {
    assert Reversed(g, {}, map[]);
    hide Listed;
    counts, reverse := map[], map[];
    var todo := g.Keys;
    while todo != {}
      invariant todo <= g.Keys && counts.Keys == g.Keys - todo
      invariant forall b :: b in counts ==> counts[b] == |g[b]|
      invariant Reversed(g, g.Keys - todo, reverse)
      decreases todo
    {
      var block :| block in todo;
      counts := counts[block := |g[block]|];
      reverse := PushUnder(g, g.Keys - todo, block, reverse);
      assert g.Keys - todo + {block} == g.Keys - (todo - {block});
      todo := todo - {block};
    }
    assert g.Keys - todo == g.Keys;
  }

  // ---- the counting invariant ---------------------------------------------------------------

  ghost function Waiting(g: Graph, b: string, result: seq<string>): set<string>
    requires b in g
  {
    set d | d in g[b] && d !in result
  }

  /** Loading `block` leaves each of its dependents waiting for one block fewer, and nobody else. */
  lemma WaitingStep(g: Graph, b: string, result: seq<string>, block: string)
    requires b in g && block !in result
    ensures |Waiting(g, b, result)| == |Waiting(g, b, result + [block])| + (if Edge(g, b, block) then 1 else 0)
  {
    var now, after := Waiting(g, b, result), Waiting(g, b, result + [block]);
    if Edge(g, b, block) {
      assert now == after + {block};
    } else {
      assert now == after;
    }
  }

  /** Every block comes after all it depends on. */
  ghost predicate InOrder(g: Graph, result: seq<string>) {
    forall i, d :: 0 <= i < |result| && Edge(g, result[i], d) ==> d in result[..i]
  }

  /** Loaded and queued blocks are exactly those waiting for nothing, and loading has respected order. */
  ghost predicate Progress(g: Graph, counts: Counts, queue: seq<string>, result: seq<string>) {
    && counts.Keys == g.Keys
    && Distinct(result + queue)
    && (forall b :: b in result + queue ==> b in g)
    && (forall b :: b in g ==> (counts[b] == 0 <==> b in result + queue))
    && (forall b :: b in g ==> counts[b] == |Waiting(g, b, result)|)
    && InOrder(g, result)
  }

  method Start(g: Graph, counts: Counts) returns (queue: seq<string>)
    requires NoDuplicates(g) && counts.Keys == g.Keys && forall b :: b in g ==> counts[b] == |g[b]|
    ensures Progress(g, counts, queue, [])
  {
    queue := [];
    var todo := g.Keys;
    while todo != {}
      invariant todo <= g.Keys
      invariant Distinct(queue) && forall b :: b in queue <==> b in g && b !in todo && counts[b] == 0
      decreases todo
    {
      var b :| b in todo;
      if counts[b] == 0 { queue := queue + [b]; }
      todo := todo - {b};
    }
    assert [] + queue == queue;
    forall b | b in g ensures counts[b] == |Waiting(g, b, [])| {
      DistinctSize(g[b]);
      assert Waiting(g, b, []) == set x | x in g[b];
    }
  }

  /** Halfway through the dependents of `block`: those in `left` have not been counted down yet. */
  ghost predicate CountingDown(g: Graph, counts: Counts, queue: seq<string>, result: seq<string>, left: seq<string>) {
    && counts.Keys == g.Keys
    && Distinct(result + queue)
    && (forall b :: b in result + queue ==> b in g)
    && (forall b :: b in g ==> (counts[b] == 0 <==> b in result + queue))
    && (forall b :: b in g ==> counts[b] == |Waiting(g, b, result)| + (if b in left then 1 else 0))
  }

  method CountDown(g: Graph, dependents: seq<string>, counts: Counts, queue: seq<string>, result: seq<string>)
    returns (c: Counts, q: seq<string>)
    requires Distinct(dependents) && (forall b :: b in dependents ==> b in g)
    requires CountingDown(g, counts, queue, result, dependents)
    ensures CountingDown(g, c, q, result, [])
  {
    c, q := counts, queue;
    var j := 0;
    while j < |dependents|
      invariant 0 <= j <= |dependents|
      invariant CountingDown(g, c, q, result, dependents[j..])
    {
      var b := dependents[j];
      assert dependents[j..] == [b] + dependents[j + 1..];
      assert b !in dependents[j + 1..];
      ghost var c0, q0 := c, q;
      if b in c {
        c := c[b := if c[b] > 0 then c[b] - 1 else 0];
        if c[b] == 0 { q := q + [b]; }
      }
      assert result + (q0 + [b]) == (result + q0) + [b];
      j := j + 1;
    }
  }

  lemma StillWaiting(g: Graph, counts: Counts, result: seq<string>, b: string)
    requires Closed(g) && Progress(g, counts, [], result) && b in g && b !in result
    ensures exists d :: d in g && d !in result && Edge(g, b, d)
  {
    assert result + [] == result;
    assert |Waiting(g, b, result)| != 0;
    var d :| d in Waiting(g, b, result);
    assert Edge(g, b, d);
  }

  /** The deadlock: nothing is queued, so every block that is left waits for another that is left. */
  lemma Stuck(g: Graph, counts: Counts, result: seq<string>, left: string)
    requires Closed(g) && Progress(g, counts, [], result) && left in g && left !in result
    ensures !Acyclic(g)
  {
    var stuck := set b | b in g && b !in result;
    assert left in stuck;
    forall b | b in stuck ensures HasNext(g, stuck, b) {
      StillWaiting(g, counts, result, b);
    }
    hide Progress, Waiting, HasNext;
    StuckCyclic(g, stuck);
  }

  /** Load order of any graph without dangling names or repetitions: found if and only if the graph has no
      cycle; otherwise the error lists exactly blocks that wait for each other. */
  method FindLoadOrder(g: Graph) returns (r: Result<seq<string>, seq<string>>)
    requires Closed(g) && NoDuplicates(g)
    ensures r.Ok? <==> Acyclic(g)
    ensures r.Ok? ==> LoadOrder(g, r.value)
    ensures r.Err? ==> r.error != [] && Distinct(r.error)
                       && forall b :: b in r.error ==> b in g && exists d :: d in r.error && Edge(g, b, d)
  {
    hide Waiting, Acyclic, Distinct, Closed, LoadOrder;
    var counts, reverse := Prepare(g);
    var queue := Start(g, counts);
    var result: seq<string> := [];
    while queue != []
      invariant Progress(g, counts, queue, result)
      decreases |g| - |result|
    {
      PopFront(g, counts, queue, result);
      counts, queue, result := LoadFirst(g, counts, queue, result, DependentsIn(reverse, queue[0]));
    }
    if |result| == |g| {
      Finished(g, counts, result);
      r := Ok(result);
    } else {
      var remaining := ReportCycle(g, counts, result);
      r := Err(remaining);
    }
  }

  lemma Finished(g: Graph, counts: Counts, result: seq<string>)
    requires Progress(g, counts, [], result) && |result| == |g|
    ensures LoadOrder(g, result) && Acyclic(g)
  {
    hide Waiting, Acyclic;
    assert result + [] == result;
    DistinctFills(result, g.Keys);
    OrderedAcyclic(g, result);
  }

  /** Blocks that wait for each other, when the queue ran dry too early. */
  method ReportCycle(g: Graph, counts: Counts, result: seq<string>) returns (remaining: seq<string>)
    requires Closed(g) && Progress(g, counts, [], result) && |result| != |g|
    ensures !Acyclic(g) && remaining != [] && Distinct(remaining)
    ensures forall b :: b in remaining ==> b in g && exists d :: d in remaining && Edge(g, b, d)
  {
    hide Waiting, Acyclic;
    assert result + [] == result;
    remaining := Remaining(g, result);
    SomethingLeft(g, result, remaining);
    Stuck(g, counts, result, remaining[0]);
    hide Distinct;
    forall b | b in remaining ensures exists d :: d in remaining && Edge(g, b, d) {
      StillWaiting(g, counts, result, b);
    }
  }

  lemma SameSize(g: Graph, result: seq<string>)
    requires Distinct(result) && forall b :: b in result <==> b in g
    ensures |result| == |g|
  {
    DistinctSize(result);
    assert (set x | x in result) == g.Keys;
  }

  lemma SomethingLeft(g: Graph, result: seq<string>, remaining: seq<string>)
    requires Distinct(result) && (forall b :: b in result ==> b in g) && |result| != |g|
    requires forall b :: b in remaining <==> b in g && b !in result
    ensures remaining != [] && remaining[0] in g && remaining[0] !in result
  {
    if forall b :: b in g ==> b in result {
      SameSize(g, result);
    } else {
      var b :| b in g && b !in result;
      assert b in remaining;
      assert remaining[0] in remaining;
    }
  }

  /** Take the front of the queue into the result and count its dependents down. */
  method LoadFirst(g: Graph, counts: Counts, queue: seq<string>, result: seq<string>, dependents: seq<string>)
    returns (c: Counts, q: seq<string>, loaded: seq<string>)
    requires Progress(g, counts, queue, result) && queue != [] && Listed(g, g.Keys, queue[0], dependents)
    ensures Progress(g, c, q, loaded) && loaded == result + [queue[0]]
  {
    var block := queue[0];
    PopFront(g, counts, queue, result);
    assert [block] + queue[1..] == queue;
    Popped(g, counts, queue[1..], result, block, dependents);
    loaded := result + [block];
    c, q := CountDown(g, dependents, counts, queue[1..], loaded);
    InOrderMore(g, result, block);
    hide Waiting, Distinct, InOrder;
  }

  lemma InOrderMore(g: Graph, result: seq<string>, block: string)
    requires InOrder(g, result) && forall d :: Edge(g, block, d) ==> d in result
    ensures InOrder(g, result + [block])
  {
    hide Edge;
    var loaded := result + [block];
    forall i, d | 0 <= i < |loaded| && Edge(g, loaded[i], d) ensures d in loaded[..i] {
      if i < |result| {
        assert result[i] == loaded[i] && result[..i] == loaded[..i];
      } else {
        assert loaded[..i] == result;
      }
    }
  }

  method Remaining(g: Graph, result: seq<string>) returns (rest: seq<string>)
    ensures Distinct(rest) && forall b :: b in rest <==> b in g && b !in result
  {
    rest := [];
    var todo := g.Keys;
    while todo != {}
      invariant todo <= g.Keys
      invariant Distinct(rest) && forall b :: b in rest <==> b in g && b !in todo && b !in result
      decreases todo
    {
      var b :| b in todo;
      if b !in result { rest := rest + [b]; }
      todo := todo - {b};
    }
  }

  lemma PopFront(g: Graph, counts: Counts, queue: seq<string>, result: seq<string>)
    requires Progress(g, counts, queue, result) && queue != []
    ensures queue[0] in g && queue[0] !in result && counts[queue[0]] == 0
    ensures (result + [queue[0]]) + queue[1..] == result + queue
    ensures |result| < |g|
  {
    assert (result + [queue[0]]) + queue[1..] == result + queue;
    DistinctParts(result, queue);
    DistinctFits(result + queue, g.Keys);
  }

  /** The state right after `block` moved from the queue to the result. */
  lemma Popped(g: Graph, counts: Counts, queue: seq<string>, before: seq<string>, block: string,
               dependents: seq<string>)
    requires Progress(g, counts, [block] + queue, before) && block in g && block !in before
    requires Distinct(dependents) && forall b :: b in dependents <==> b in g && Edge(g, b, block)
    ensures CountingDown(g, counts, queue, before + [block], dependents)
    ensures forall d :: Edge(g, block, d) ==> d in before
    ensures Distinct(before + [block])
  {
    assert (before + [block]) + queue == before + ([block] + queue);
    DistinctParts(before + [block], queue);
    forall b | b in g ensures counts[b] == |Waiting(g, b, before + [block])| + (if b in dependents then 1 else 0) {
      WaitingStep(g, b, before, block);
    }
    assert block in before + ([block] + queue);
    assert |Waiting(g, block, before)| == 0;
    forall d | Edge(g, block, d) ensures d in before {
      assert d !in Waiting(g, block, before);
    }
  }
}
