/** Failure detection and respawning: one `tick` of the coordinator. */
module Failover {
  import opened Common
  import opened ClusterTypes
  import opened Executor
  import opened ClusterModel
  import opened ClusterInvariant
  import opened ClusterSteps
  import opened ClusterCalls
  import opened ClusterOps

  /** What a tick reports. A respawn that carried a checkpoint is reported as "state restored"; `asOf` is the step at
      which the lost process was given up. */
  datatype Event =
    | NodeLost(node: NodeId)
    | Respawned(lost: Rid, heir: Rid, restored: Option<Snapshot>, asOf: nat)
    | RespawnFailed(lost: Rid, error: Error)

  function Age(at: nat, now: nat): nat {
    if at <= now then now - at else 0
  }

  function Prune(c: Coord, now: nat): Coord {
    c.(checkpoints := map rid | rid in c.checkpoints && Age(c.checkpoints[rid].at, now) < c.checkpointTtl
                        :: c.checkpoints[rid])
  }

  function Silent(c: Coord, now: nat): set<NodeId> {
    set n | n in c.nodes && c.nodes[n].status == Online
            && n in c.lastContact && Age(c.lastContact[n], now) > c.failoverThreshold
  }

  function Flipped(nodes: map<NodeId, NodeInfo>, failed: set<NodeId>): map<NodeId, NodeInfo> {
    map n | n in nodes :: if n in failed then nodes[n].(status := Offline) else nodes[n]
  }

  lemma FlipOne(nodes: map<NodeId, NodeInfo>, failed: set<NodeId>, id: NodeId)
    requires id in nodes && id !in failed
    ensures Flipped(nodes, failed)[id] == nodes[id]
    ensures Flipped(nodes, failed + {id}) == Flipped(nodes, failed)[id := nodes[id].(status := Offline)]
  {
  }

  function MarkOffline(c: Coord, failed: set<NodeId>): Coord {
    c.(nodes := Flipped(c.nodes, failed))
  }

  function Victims(c: Coord, node: NodeId): map<Rid, Spec> {
    map rid | rid in c.specs && rid.node == node :: c.specs[rid]
  }

  /** The coordinator forgets `rid`: a step of its own. */
  function GiveUp(s: Sys, rid: Rid): Sys {
    Sys(Untrack(s.c, rid), s.w.(steps := s.w.steps + 1))
  }

  /** Give up `rid` and start its spec again wherever placement says, from its checkpoint if there is one. */
  ghost function Respawn(s: Sys, rid: Rid, spec: Spec, env: CallEnv): (Sys, Event) {
    var saved := if rid in s.c.checkpoints then Some(s.c.checkpoints[rid]) else None;
    var state := if saved.Some? then Some(saved.value.state) else None;
    var t := GiveUp(s, rid);
    var (s', r) := SpawnOp(t, spec, None, state, env);
    (s', match r case Ok(heir) => Respawned(rid, heir, saved, t.w.steps) case Err(e) => RespawnFailed(rid, e))
  }

  // The order in which hash maps are walked is part of the environment: a turn names the next entry.
  datatype Turn = Turn(rid: Rid, env: CallEnv)
  datatype NodeTurn = NodeTurn(node: NodeId, turns: seq<Turn>)
  datatype TickEnv = TickEnv(pre: Schedule, nodeTurns: seq<NodeTurn>)

  ghost function RespawnAll(s: Sys, victims: map<Rid, Spec>, turns: seq<Turn>): (Sys, seq<Event>)
    requires forall t :: t in turns ==> t.rid in victims
  {
    if turns == [] then (s, []) else
    var k := |turns| - 1;
    var (s1, events) := RespawnAll(s, victims, turns[..k]);
    var (s2, e) := Respawn(s1, turns[k].rid, victims[turns[k].rid], turns[k].env);
    (s2, events + [e])
  }

  /** `turns` visits every victim exactly once. */
  ghost predicate Visits(turns: seq<Turn>, victims: map<Rid, Spec>) {
    && (forall t :: t in turns ==> t.rid in victims)
    && (forall rid :: rid in victims ==> exists i :: 0 <= i < |turns| && turns[i].rid == rid)
    && (forall i, j :: 0 <= i < j < |turns| ==> turns[i].rid != turns[j].rid)
  }

  /** Those no longer to do have been visited exactly once. */
  ghost predicate Visited(turns: seq<Turn>, victims: map<Rid, Spec>, todo: set<Rid>) {
    && (forall t :: t in turns ==> t.rid in victims && t.rid !in todo)
    && (forall rid :: rid in victims && rid !in todo ==> exists i :: 0 <= i < |turns| && turns[i].rid == rid)
    && (forall i, j :: 0 <= i < j < |turns| ==> turns[i].rid != turns[j].rid)
  }

  lemma VisitOne(turns: seq<Turn>, victims: map<Rid, Spec>, todo: set<Rid>, turn: Turn)
    requires Visited(turns, victims, todo) && turn.rid in todo && turn.rid in victims
    ensures Visited(turns + [turn], victims, todo - {turn.rid})
    ensures (turns + [turn])[..|turns|] == turns
  {
    var all := turns + [turn];
    assert all[|turns|].rid == turn.rid;
    assert forall i :: 0 <= i < |turns| ==> all[i] == turns[i] && turns[i] in turns;
  }

  ghost predicate ValidTurn(s: Sys, turn: NodeTurn) {
    s.c.failoverRespawn ==> Visits(turn.turns, Victims(s.c, turn.node))
  }

  ghost function FailNode(s: Sys, turn: NodeTurn): (Sys, seq<Event>)
    requires ValidTurn(s, turn)
  {
    if s.c.failoverRespawn then
      var (s', events) := RespawnAll(s, Victims(s.c, turn.node), turn.turns);
      (s', [NodeLost(turn.node)] + events)
    else (s, [NodeLost(turn.node)])
  }

  ghost predicate ValidTurns(s: Sys, turns: seq<NodeTurn>)
    decreases |turns|, 0
  {
    turns == [] ||
    (var k := |turns| - 1; ValidTurns(s, turns[..k]) && ValidTurn(FailNodes(s, turns[..k]).0, turns[k]))
  }

  ghost function FailNodes(s: Sys, turns: seq<NodeTurn>): (Sys, seq<Event>)
    requires ValidTurns(s, turns)
    decreases |turns|, 1
  {
    if turns == [] then (s, []) else
    var k := |turns| - 1;
    var (s1, events) := FailNodes(s, turns[..k]);
    var (s2, more) := FailNode(s1, turns[k]);
    (s2, events + more)
  }

  lemma TurnsAppend(s: Sys, turns: seq<NodeTurn>, turn: NodeTurn)
    requires ValidTurns(s, turns) && ValidTurn(FailNodes(s, turns).0, turn)
    ensures ValidTurns(s, turns + [turn])
    ensures var (s1, events) := FailNodes(s, turns); var (s2, more) := FailNode(s1, turn);
            FailNodes(s, turns + [turn]) == (s2, events + more)
  {
    hide FailNode, ValidTurn;
    assert (turns + [turn])[..|turns + [turn]| - 1] == turns;
  }

  /** The state in which a tick starts walking the failed nodes: a step of its own. */
  function Detect(s: Sys, pre: Schedule): Sys {
    var t := Play(s, pre);
    Sys(MarkOffline(Prune(t.c, t.w.now), Silent(t.c, t.w.now)), t.w.(steps := t.w.steps + 1))
  }

  ghost predicate ValidTick(s: Sys, env: TickEnv) {
    && ValidTurns(Detect(s, env.pre), env.nodeTurns)
    && (forall n :: n in Silent(Play(s, env.pre).c, Play(s, env.pre).w.now) <==>
          exists i :: 0 <= i < |env.nodeTurns| && env.nodeTurns[i].node == n)
    && (forall i, j :: 0 <= i < j < |env.nodeTurns| ==> env.nodeTurns[i].node != env.nodeTurns[j].node)
  }

  /** The nodes of `silent` that are no longer in `todo` have been walked exactly once. */
  ghost predicate Walked(turns: seq<NodeTurn>, silent: set<NodeId>, todo: set<NodeId>) {
    && (forall i :: 0 <= i < |turns| ==> turns[i].node in silent && turns[i].node !in todo)
    && (forall n :: n in silent && n !in todo ==> exists i :: 0 <= i < |turns| && turns[i].node == n)
    && (forall i, j :: 0 <= i < j < |turns| ==> turns[i].node != turns[j].node)
  }

  lemma WalkOne(turns: seq<NodeTurn>, silent: set<NodeId>, todo: set<NodeId>, turn: NodeTurn)
    requires Walked(turns, silent, todo) && turn.node in todo && turn.node in silent
    ensures Walked(turns + [turn], silent, todo - {turn.node})
  {
    var all := turns + [turn];
    assert all[|turns|].node == turn.node;
    assert forall i :: 0 <= i < |turns| ==> all[i] == turns[i];
  }

  ghost function TickOp(s: Sys, env: TickEnv): (Sys, seq<Event>)
    requires ValidTick(s, env)
  {
    FailNodes(Detect(s, env.pre), env.nodeTurns)
  }

  // ---- accounting ---------------------------------------------------------------------------

  /** The table after one event. */
  ghost function After(specs: map<Rid, Spec>, e: Event): map<Rid, Spec> {
    match e
    case NodeLost(_) => specs
    case Respawned(lost, heir, _, _) => if lost in specs then specs[heir := specs[lost]] - {lost} else specs
    case RespawnFailed(lost, _) => specs - {lost}
  }

  /** What the reported events say happened to the table of tracked processes. */
  ghost function Replay(specs: map<Rid, Spec>, events: seq<Event>): map<Rid, Spec> {
    if events == [] then specs else After(Replay(specs, events[..|events| - 1]), events[|events| - 1])
  }

  /** Each event concerns a process tracked at that point, and a respawn never overwrites another entry. */
  ghost predicate Accounted(specs: map<Rid, Spec>, events: seq<Event>) {
    events == [] ||
    (var k := |events| - 1;
     var before := Replay(specs, events[..k]);
     && Accounted(specs, events[..k])
     && match events[k]
        case NodeLost(_) => true
        case Respawned(lost, heir, _, _) => lost in before && heir !in before
        case RespawnFailed(lost, _) => lost in before)
  }

  /** How many tracked processes run `spec`. */
  ghost function Count(specs: map<Rid, Spec>, spec: Spec): nat {
    |set rid | rid in specs && specs[rid] == spec|
  }

  /** How many processes running `spec` the events report as lost. */
  ghost function LostCount(specs: map<Rid, Spec>, events: seq<Event>, spec: Spec): nat {
    if events == [] then 0 else
    var k := |events| - 1;
    var before := Replay(specs, events[..k]);
    LostCount(specs, events[..k], spec) +
    (if events[k].RespawnFailed? && events[k].lost in before && before[events[k].lost] == spec then 1 else 0)
  }

  lemma CountRemove(specs: map<Rid, Spec>, rid: Rid, spec: Spec)
    requires rid in specs
    ensures Count(specs, spec) == Count(specs - {rid}, spec) + (if specs[rid] == spec then 1 else 0)
  {
    var a, b := set r | r in specs && specs[r] == spec, set r | r in specs - {rid} && (specs - {rid})[r] == spec;
    assert b == a - {rid};
  }

  lemma CountAdd(specs: map<Rid, Spec>, rid: Rid, x: Spec, spec: Spec)
    requires rid !in specs
    ensures Count(specs[rid := x], spec) == Count(specs, spec) + (if x == spec then 1 else 0)
  {
    var more := specs[rid := x];
    var a, b := set r | r in specs && specs[r] == spec, set r | r in more && more[r] == spec;
    assert b == if x == spec then a + {rid} else a;
  }

  /** Accounted events conserve work: what was tracked is still tracked or reported lost. */
  lemma {:induction false} ReplayConserves(specs: map<Rid, Spec>, events: seq<Event>, spec: Spec)
    requires Accounted(specs, events)
    ensures Count(specs, spec) == Count(Replay(specs, events), spec) + LostCount(specs, events, spec)
    decreases |events|
  {
    if events != [] {
      var k := |events| - 1;
      var before := Replay(specs, events[..k]);
      ReplayConserves(specs, events[..k], spec);
      match events[k]
      case NodeLost(_) =>
      case Respawned(lost, heir, _, _) =>
        CountRemove(before, lost, spec);
        CountAdd(before - {lost}, heir, before[lost], spec);
        assert before[heir := before[lost]] - {lost} == (before - {lost})[heir := before[lost]];
      case RespawnFailed(lost, _) => CountRemove(before, lost, spec);
    }
  }

  lemma {:induction false} ReplayAppend(specs: map<Rid, Spec>, xs: seq<Event>, ys: seq<Event>)
    ensures Replay(specs, xs + ys) == Replay(Replay(specs, xs), ys)
    ensures Accounted(specs, xs + ys) <==> Accounted(specs, xs) && Accounted(Replay(specs, xs), ys)
    decreases |ys|
  {
    if ys == [] {
      assert xs + ys == xs;
    } else {
      var k := |ys| - 1;
      ReplayAppend(specs, xs, ys[..k]);
      assert (xs + ys)[..|xs + ys| - 1] == xs + ys[..k];
    }
  }

  // ---- respawning ---------------------------------------------------------------------------

  /** When a tick pruned the checkpoints. */
  datatype Moment = Moment(clock: nat, step: nat)

  ghost predicate NotAfter(start: Moment, w: World) {
    start.clock <= w.now && start.step <= w.steps
  }

  /** A checkpoint is usable in a tick if it was younger than the time to live when the tick started, or arrived
      since. */
  predicate Usable(x: Stamped, start: Moment, ttl: nat) {
    x.step >= start.step || Age(x.at, start.clock) < ttl
  }

  /** The newest checkpoint delivered before step `asOf`, if it is usable. */
  function NewestUsable(log: seq<Stamped>, asOf: nat, start: Moment, ttl: nat): Option<Snapshot> {
    match Latest(log, asOf)
    case None => None
    case Some(x) => if Usable(x, start, ttl) then Some(Snapshot(x.state, x.at)) else None
  }

  ghost predicate LastUsable(log: seq<Stamped>, start: Moment, ttl: nat) {
    log != [] && Usable(log[|log| - 1], start, ttl)
  }

  /** The coordinator stores only usable checkpoints, and the last one of each tracked process if that is usable. */
  ghost predicate Stocked(s: Sys, start: Moment) {
    && (forall rid :: rid in s.c.checkpoints ==> LastUsable(LogOf(s.w.delivered, rid), start, s.c.checkpointTtl))
    && (forall rid :: rid in s.c.specs && rid !in s.c.checkpoints ==>
          !LastUsable(LogOf(s.w.delivered, rid), start, s.c.checkpointTtl))
  }

  /** A reported respawn is real: the heir runs the same spec, for this coordinator. It starts from exactly the newest
      checkpoint of the lost process that was delivered before that process was given up, which are bytes the process
      once held, or from the spec's payload if there is none or it is not usable. */
  ghost predicate EventTrue(w: World, me: Addr, start: Moment, ttl: nat, e: Event) {
    e.Respawned? ==>
      && Issued(w, e.lost) && Issued(w, e.heir)
      && w.births[e.heir].from == me && w.births[e.heir].spec == w.births[e.lost].spec
      && w.births[e.heir].req in w.sent && start.step < e.asOf < w.sent[w.births[e.heir].req].at && e.asOf <= w.steps
      && e.restored == NewestUsable(LogOf(w.delivered, e.lost), e.asOf, start, ttl)
      && (e.restored.Some? ==>
            && w.births[e.heir].snapshot == e.restored.value.state
            && WasHeld(LogOf(w.held, e.lost), e.restored.value.state))
      && (e.restored.None? ==> w.births[e.heir].snapshot == w.births[e.heir].spec.payload)
  }

  ghost predicate EventsTrue(w: World, me: Addr, start: Moment, ttl: nat, events: seq<Event>) {
    forall i :: 0 <= i < |events| ==> EventTrue(w, me, start, ttl, events[i])
  }

  lemma EventStays(w: World, w': World, me: Addr, start: Moment, ttl: nat, e: Event)
    requires EventTrue(w, me, start, ttl, e) && Grows(w, w')
    ensures EventTrue(w', me, start, ttl, e)
  {
    if e.Respawned? {
      LogStays(w.delivered, w'.delivered, e.lost, w.steps, e.asOf);
      if e.restored.Some? { HeldGrows(w, w', e.lost, e.restored.value.state); }
      hide LogsGrow, WasHeld, Latest;
    }
  }

  lemma LogStays(logs: Logs, logs': Logs, rid: Rid, step: nat, at: nat)
    requires LogsGrow(logs, logs', step) && at <= step
    ensures Latest(LogOf(logs', rid), at) == Latest(LogOf(logs, rid), at)
  {
    if rid in logs' { LatestStays(LogOf(logs, rid), logs'[rid], step, at); }
  }

  lemma EventsStay(w: World, w': World, me: Addr, start: Moment, ttl: nat, events: seq<Event>)
    requires EventsTrue(w, me, start, ttl, events) && Grows(w, w')
    ensures EventsTrue(w', me, start, ttl, events)
  {
    hide EventTrue, Grows;
    forall i | 0 <= i < |events| ensures EventTrue(w', me, start, ttl, events[i]) {
      EventStays(w, w', me, start, ttl, events[i]);
    }
  }

  /** What is delivered after the tick has started is usable. */
  lemma LaterUsable(log: seq<Stamped>, log': seq<Stamped>, step: nat, start: Moment, ttl: nat)
    requires Extends(log, log', step) && log' != log && start.step <= step
    ensures LastUsable(log', start, ttl)
  {
    assert |log'| > |log|;
  }

  /** The stock after a spawn: `s'` tracks what `s` tracks and at most one more process, unknown in `s`. */
  lemma StockedOn(s: Sys, s': Sys, start: Moment)
    requires Stocked(s, start) && StockFollows(s, s') && LogsGrow(s.w.delivered, s'.w.delivered, s.w.steps)
    requires start.step <= s.w.steps && s'.c.checkpointTtl == s.c.checkpointTtl
    requires forall rid :: rid in s'.c.specs ==> rid in s.c.specs || LogOf(s.w.delivered, rid) == []
    ensures Stocked(s', start)
  {
    hide LastUsable;
    forall rid | LogOf(s'.w.delivered, rid) != LogOf(s.w.delivered, rid)
      ensures LastUsable(LogOf(s'.w.delivered, rid), start, s.c.checkpointTtl)
    {
      assert rid in s'.w.delivered;
      LaterUsable(LogOf(s.w.delivered, rid), s'.w.delivered[rid], s.w.steps, start, s.c.checkpointTtl);
    }
    assert !LastUsable([], start, s.c.checkpointTtl) by { NoneUsable(start, s.c.checkpointTtl); }
  }

  lemma NoneUsable(start: Moment, ttl: nat)
    ensures !LastUsable([], start, ttl)
  {
  }

  lemma GiveUpKeeps(s: Sys, rid: Rid, start: Moment)
    requires Inv(s) && Stocked(s, start)
    ensures Onward(s, GiveUp(s, rid)) && Stocked(GiveUp(s, rid), start)
  {
    hide Inv, Grows, SameBooks, LastUsable, StockFollows;
    var t := s.(w := s.w.(steps := s.w.steps + 1));
    IdleKeeps(s, t.w);
    FollowsOnward(s, t);
    UntrackKeeps(t, rid);
    OnwardTransitive(s, t, GiveUp(s, rid));
  }

  /** The checkpoint a respawn takes from the table is the newest usable one delivered so far. */
  lemma SavedIsNewest(s: Sys, rid: Rid, start: Moment)
    requires Inv(s) && Stocked(s, start) && rid in s.c.specs
    ensures var saved := if rid in s.c.checkpoints then Some(s.c.checkpoints[rid]) else None;
            && saved == NewestUsable(LogOf(s.w.delivered, rid), s.w.steps + 1, start, s.c.checkpointTtl)
            && (saved.Some? ==> WasHeld(LogOf(s.w.held, rid), saved.value.state))
  {
    hide HostsOk, HeldOk, PacketsOk, HistoryOk, TablesOk, WasHeld, Usable, Latest;
    var log := LogOf(s.w.delivered, rid);
    if log != [] {
      LatestIsLast(log, s.w.steps);
    } else {
      assert Latest(log, s.w.steps + 1) == None by { LatestNone(s.w.steps + 1); }
    }
  }

  lemma LatestNone(step: nat)
    ensures Latest([], step) == None
  {
  }

  /** One respawn: the lost process is replaced by a new entry with its spec, or dropped and reported; what the report
      says is true. */
  lemma RespawnSafe(s: Sys, rid: Rid, env: CallEnv, start: Moment)
    requires Inv(s) && rid in s.c.specs && Stocked(s, start) && NotAfter(start, s.w)
    ensures var (s', e) := Respawn(s, rid, s.c.specs[rid], env);
            && Onward(s, s') && Stocked(s', start)
            && !e.NodeLost? && e.lost == rid && s'.c.specs == After(s.c.specs, e)
            && (e.Respawned? ==> e.heir !in s.c.specs)
            && EventTrue(s'.w, s'.c.selfAddr, start, s'.c.checkpointTtl, e)
  {
    hide Inv, SpawnOp, Grows, Stocked, IssuedIn, NewestUsable, Usable, WasHeld, GiveUp;
    var spec := s.c.specs[rid];
    var saved := if rid in s.c.checkpoints then Some(s.c.checkpoints[rid]) else None;
    var state := if saved.Some? then Some(saved.value.state) else None;
    var t := GiveUp(s, rid);
    GivenUp(s, rid);
    GiveUpKeeps(s, rid, start);
    var (s', r) := SpawnOp(t, spec, None, state, env);
    SpawnSafe(t, spec, None, state, env);
    OnwardTransitive(s, t, s');
    RespawnStock(t, s', r, spec, state, start);
    if r.Ok? {
      SavedIsNewest(s, rid, start);
      HeirTrue(s, t, s', rid, r.value, spec, saved, start);
    }
    hide Spawned, Onward, Issued;
  }

  lemma GivenUp(s: Sys, rid: Rid)
    ensures var t := GiveUp(s, rid);
            && t.c == Untrack(s.c, rid) && t.w == s.w.(steps := s.w.steps + 1) && t.c.nextRequest == s.c.nextRequest
            && t.c.specs == s.c.specs - {rid} && t.c.selfAddr == s.c.selfAddr && t.c.checkpointTtl == s.c.checkpointTtl
  {
  }

  lemma RespawnStock(t: Sys, s': Sys, r: Result<Rid, Error>, spec: Spec, state: Option<Bytes>, start: Moment)
    requires Inv(t) && Stocked(t, start) && NotAfter(start, t.w) && Onward(t, s') && StockFollows(t, s')
    requires r.Err? ==> s'.c.specs == t.c.specs
    requires r.Ok? ==> Spawned(t, s', t.c.nextRequest, r.value, spec, state)
    ensures Stocked(s', start)
  {
    hide Inv, Stocked, StockFollows, LogsGrow;
    if r.Ok? { FreshlyBorn(t, s', r.value); }
    StockedOn(t, s', start);
  }

  lemma HeirTrue(s: Sys, t: Sys, s': Sys, rid: Rid, heir: Rid, spec: Spec, saved: Option<Snapshot>, start: Moment)
    requires Inv(s) && rid in s.c.specs && s.c.specs[rid] == spec && t == GiveUp(s, rid) && NotAfter(start, s.w)
    requires saved == NewestUsable(LogOf(s.w.delivered, rid), s.w.steps + 1, start, s.c.checkpointTtl)
    requires saved.Some? ==> WasHeld(LogOf(s.w.held, rid), saved.value.state)
    requires Onward(s, s') && Onward(t, s')
    requires Spawned(t, s', t.c.nextRequest, heir, spec, if saved.Some? then Some(saved.value.state) else None)
    ensures heir !in s.c.specs && s'.c.specs == After(s.c.specs, Respawned(rid, heir, saved, t.w.steps))
    ensures EventTrue(s'.w, s'.c.selfAddr, start, s'.c.checkpointTtl, Respawned(rid, heir, saved, t.w.steps))
  {
    hide Inv, Usable, WasHeld, Latest, LogsGrow;
    LostRecord(s, rid);
    FreshlyBorn(s, s', heir);
    assert s.c.specs[heir := spec] - {rid} == (s.c.specs - {rid})[heir := spec];
    assert Issued(s'.w, rid);
    LogStays(t.w.delivered, s'.w.delivered, rid, t.w.steps, t.w.steps);
    if saved.Some? { HeldGrows(s.w, s'.w, rid, saved.value.state); }
    hide Grows;
  }

  lemma LostRecord(s: Sys, rid: Rid)
    requires Inv(s) && rid in s.c.specs
    ensures Issued(s.w, rid) && s.w.births[rid].spec == s.c.specs[rid]
  {
    hide ExecsOk, PacketsOk, HistoryOk;
    assert Tracked(s.w, s.c, rid);
  }

  // ---- whole ticks --------------------------------------------------------------------------

  /** From `s` to `s'` the reported events account for every change to the table of tracked processes. */
  ghost predicate Progress(s: Sys, s': Sys, events: seq<Event>, start: Moment) {
    && Onward(s, s') && Stocked(s', start)
    && Accounted(s.c.specs, events) && s'.c.specs == Replay(s.c.specs, events)
    && EventsTrue(s'.w, s'.c.selfAddr, start, s'.c.checkpointTtl, events)
  }

  lemma ProgressNone(s: Sys, start: Moment)
    requires Inv(s) && Stocked(s, start)
    ensures Progress(s, s, [], start)
  {
    hide Inv;
  }

  lemma ProgressAppend(s: Sys, s1: Sys, s2: Sys, xs: seq<Event>, ys: seq<Event>, start: Moment)
    requires Progress(s, s1, xs, start) && Progress(s1, s2, ys, start)
    ensures Progress(s, s2, xs + ys, start)
  {
    hide Inv, EventTrue, Stocked, Accounted, Replay;
    ReplayAppend(s.c.specs, xs, ys);
    OnwardTransitive(s, s1, s2);
    EventsStay(s1.w, s2.w, s1.c.selfAddr, start, s1.c.checkpointTtl, xs);
  }

  lemma ProgressOne(s: Sys, s': Sys, e: Event, start: Moment)
    requires Onward(s, s') && Stocked(s', start) && s'.c.specs == After(s.c.specs, e)
    requires e.Respawned? ==> e.lost in s.c.specs && e.heir !in s.c.specs
    requires e.RespawnFailed? ==> e.lost in s.c.specs
    requires EventTrue(s'.w, s'.c.selfAddr, start, s'.c.checkpointTtl, e)
    ensures Progress(s, s', [e], start)
  {
    hide Onward, Stocked, EventTrue;
    var es := [e];
    assert es[..0] == [];
    assert Accounted(s.c.specs, []) && Replay(s.c.specs, []) == s.c.specs;
    assert Accounted(s.c.specs, es) && Replay(s.c.specs, es) == After(s.c.specs, e);
  }

  ghost predicate DistinctTurns(turns: seq<Turn>) {
    forall i, j :: 0 <= i < j < |turns| ==> turns[i].rid != turns[j].rid
  }

  /** The tracked entry `rid` still runs `spec`. */
  ghost predicate Runs(c: Coord, rid: Rid, spec: Spec) {
    rid in c.specs && c.specs[rid] == spec
  }

  lemma {:induction false} RespawnAllSafe(s: Sys, victims: map<Rid, Spec>, turns: seq<Turn>, start: Moment)
    requires Inv(s) && Stocked(s, start) && NotAfter(start, s.w)
    requires DistinctTurns(turns) && forall t :: t in turns ==> t.rid in victims
    requires forall rid :: rid in victims ==> Runs(s.c, rid, victims[rid])
    ensures var (s', events) := RespawnAll(s, victims, turns);
            && Progress(s, s', events, start) && |events| == |turns|
            && (forall i :: 0 <= i < |turns| ==> !events[i].NodeLost? && events[i].lost == turns[i].rid)
            && (forall rid :: rid in victims && (forall i :: 0 <= i < |turns| ==> turns[i].rid != rid) ==>
                  Runs(s'.c, rid, victims[rid]))
    decreases |turns|
  {
    hide Inv, Progress, Respawn, EventTrue, Stocked, Runs;
    if turns == [] {
      ProgressNone(s, start);
    } else {
      var k := |turns| - 1;
      var init, rid, env := turns[..k], turns[k].rid, turns[k].env;
      assert turns[k] in turns;
      RespawnAllSafe(s, victims, init, start);
      var (s1, events) := RespawnAll(s, victims, init);
      assert forall i :: 0 <= i < k ==> init[i].rid != rid;
      RunsSpec(s1.c, rid, victims[rid]);
      RespawnStep(s, s1, events, rid, env, start);
      var (s2, e) := Respawn(s1, rid, victims[rid], env);
      forall r | r in victims && (forall i :: 0 <= i < |turns| ==> turns[i].rid != r)
        ensures Runs(s2.c, r, victims[r])
      {
        assert forall i :: 0 <= i < k ==> init[i].rid == turns[i].rid;
        assert r != rid;
        assert Runs(s1.c, r, victims[r]);
      }
    }
  }

  lemma RunsSpec(c: Coord, rid: Rid, spec: Spec)
    requires Runs(c, rid, spec)
    ensures rid in c.specs && c.specs[rid] == spec
  {
  }

  lemma RespawnStep(s: Sys, s1: Sys, events: seq<Event>, rid: Rid, env: CallEnv, start: Moment)
    requires Progress(s, s1, events, start) && NotAfter(start, s.w) && rid in s1.c.specs
    ensures var (s2, e) := Respawn(s1, rid, s1.c.specs[rid], env);
            && Progress(s, s2, events + [e], start) && !e.NodeLost? && e.lost == rid
            && forall r, spec :: r != rid && Runs(s1.c, r, spec) ==> Runs(s2.c, r, spec)
  {
    hide Inv, Respawn, EventTrue, Stocked, Accounted, Replay, Grows;
    var (s2, e) := Respawn(s1, rid, s1.c.specs[rid], env);
    assert NotAfter(start, s1.w) by { LaterClock(s, s1); }
    RespawnSafe(s1, rid, env, start);
    ProgressOne(s1, s2, e, start);
    ProgressAppend(s, s1, s2, events, [e], start);
  }

  lemma LaterClock(s: Sys, s': Sys)
    requires Onward(s, s')
    ensures s.w.now <= s'.w.now && s.w.steps <= s'.w.steps
  {
    hide Inv;
  }

  /** The events report on the tracked process `rid`. */
  ghost predicate Reported(events: seq<Event>, rid: Rid) {
    exists i :: 0 <= i < |events| && !events[i].NodeLost? && events[i].lost == rid
  }

  lemma {:induction false} MissingReported(specs: map<Rid, Spec>, events: seq<Event>, rid: Rid)
    requires rid in specs && rid !in Replay(specs, events)
    ensures Reported(events, rid)
    decreases |events|
  {
    if events != [] {
      var k := |events| - 1;
      if rid !in Replay(specs, events[..k]) {
        MissingReported(specs, events[..k], rid);
        var i :| 0 <= i < k && !events[..k][i].NodeLost? && events[..k][i].lost == rid;
        assert events[i].lost == rid;
      }
    }
  }

  lemma ReportedAppend(xs: seq<Event>, ys: seq<Event>, rid: Rid)
    requires Reported(xs, rid) || Reported(ys, rid)
    ensures Reported(xs + ys, rid)
  {
    if Reported(xs, rid) {
      var i :| 0 <= i < |xs| && !xs[i].NodeLost? && xs[i].lost == rid;
      assert (xs + ys)[i].lost == rid;
    } else {
      var i :| 0 <= i < |ys| && !ys[i].NodeLost? && ys[i].lost == rid;
      assert (xs + ys)[|xs| + i].lost == rid;
    }
  }

  lemma FailNodeSafe(s: Sys, turn: NodeTurn, start: Moment)
    requires Inv(s) && Stocked(s, start) && NotAfter(start, s.w) && ValidTurn(s, turn)
    ensures var (s', events) := FailNode(s, turn);
            && Progress(s, s', events, start)
            && (s.c.failoverRespawn ==>
                  forall rid :: rid in s.c.specs && rid.node == turn.node ==> Reported(events, rid))
  {
    hide Inv, Progress, RespawnAll, Stocked;
    ProgressNone(s, start);
    assert Onward(s, s) by { hide Onward; SelfFollows(s); FollowsOnward(s, s); }
    assert EventTrue(s.w, s.c.selfAddr, start, s.c.checkpointTtl, NodeLost(turn.node));
    ProgressOne(s, s, NodeLost(turn.node), start);
    if s.c.failoverRespawn {
      var victims := Victims(s.c, turn.node);
      RespawnAllSafe(s, victims, turn.turns, start);
      var (s', events) := RespawnAll(s, victims, turn.turns);
      ProgressAppend(s, s, s', [NodeLost(turn.node)], events, start);
      forall rid | rid in s.c.specs && rid.node == turn.node ensures Reported([NodeLost(turn.node)] + events, rid) {
        assert rid in victims;
        var i :| 0 <= i < |turn.turns| && turn.turns[i].rid == rid;
        assert !events[i].NodeLost? && events[i].lost == rid;
        ReportedAppend([NodeLost(turn.node)], events, rid);
      }
    }
  }

  lemma {:induction false} FailNodesSafe(s: Sys, turns: seq<NodeTurn>, start: Moment)
    requires Inv(s) && Stocked(s, start) && NotAfter(start, s.w) && ValidTurns(s, turns)
    ensures var (s', events) := FailNodes(s, turns);
            && Progress(s, s', events, start)
            && (s.c.failoverRespawn ==>
                  forall rid, i :: 0 <= i < |turns| && rid in s.c.specs && rid.node == turns[i].node ==>
                    Reported(events, rid))
    decreases |turns|
  {
    hide Inv, Stocked, FailNode, ValidTurn, Replay, Accounted, EventsTrue;
    if turns == [] {
      ProgressNone(s, start);
    } else {
      var k := |turns| - 1;
      var init := turns[..k];
      FailNodesSafe(s, init, start);
      var (s1, events) := FailNodes(s, init);
      LaterClock(s, s1);
      FailNodeSafe(s1, turns[k], start);
      var (s2, more) := FailNode(s1, turns[k]);
      ProgressAppend(s, s1, s2, events, more, start);
      if s.c.failoverRespawn {
        forall rid, i | 0 <= i < |turns| && rid in s.c.specs && rid.node == turns[i].node
          ensures Reported(events + more, rid)
        {
          if i < k {
            assert init[i] == turns[i];
          } else if rid !in s1.c.specs {
            MissingReported(s.c.specs, events, rid);
          }
          ReportedAppend(events, more, rid);
        }
      }
    }
  }

  lemma SpecsFollow(s: Sys, s': Sys)
    requires Follows(s, s')
    ensures s'.c.specs == s.c.specs && Inv(s')
  {
    hide Inv, Grows;
  }

  /** Pruning drops exactly the checkpoints that are too old. */
  lemma PruneKept(s: Sys, failed: set<NodeId>)
    requires ArrivalsOk(s.w) && CheckpointsOk(s.w, s.c) && KeptOk(s.w, s.c)
    ensures var c' := MarkOffline(Prune(s.c, s.w.now), failed);
            && CheckpointsOk(s.w, c') && KeptOk(s.w, c')
            && Stocked(Sys(c', s.w.(steps := s.w.steps + 1)), Moment(s.w.now, s.w.steps + 1))
  {
    hide IssuedIn, WasHeld, Flipped;
    var c' := MarkOffline(Prune(s.c, s.w.now), failed);
    forall rid | rid in c'.specs && rid !in c'.checkpoints
      ensures Expired(LogOf(s.w.delivered, rid), s.w.now, c'.checkpointTtl)
      ensures !LastUsable(LogOf(s.w.delivered, rid), Moment(s.w.now, s.w.steps + 1), c'.checkpointTtl)
    {
      var log := LogOf(s.w.delivered, rid);
      if log != [] { assert log[|log| - 1].at <= s.w.now && log[|log| - 1].step <= s.w.steps; }
    }
  }

  lemma OfflineKeeps(s: Sys, failed: set<NodeId>)
    requires Inv(s)
    ensures var c' := MarkOffline(Prune(s.c, s.w.now), failed);
            && Onward(s, s.(c := c')) && c'.specs == s.c.specs
            && Stocked(Sys(c', s.w.(steps := s.w.steps + 1)), Moment(s.w.now, s.w.steps + 1))
  {
    PruneKept(s, failed);
    hide HostsOk, HeldOk, ArrivalsOk, PacketsOk, HistoryOk, IssuedIn, TablesOk, CheckpointsOk, KeptOk, Stocked;
    TablesMove(s.w, s.c, MarkOffline(Prune(s.c, s.w.now), failed));
  }

  ghost function StartOf(s: Sys, pre: Schedule): Moment {
    Moment(Detect(s, pre).w.now, Detect(s, pre).w.steps)
  }

  lemma DetectKeeps(s: Sys, pre: Schedule)
    requires Inv(s)
    ensures var t := Detect(s, pre);
            && Onward(s, t) && t.c.specs == s.c.specs && Stocked(t, StartOf(s, pre))
            && t.w.now == Play(s, pre).w.now
  {
    hide Inv, Play, Onward, Follows, Prune, MarkOffline, Silent, Stocked, SameBooks, Grows, StockFollows;
    PlayKeeps(s, pre);
    var p := Play(s, pre);
    SpecsFollow(s, p);
    FollowsOnward(s, p);
    OfflineKeeps(p, Silent(p.c, p.w.now));
    var q := p.(c := MarkOffline(Prune(p.c, p.w.now), Silent(p.c, p.w.now)));
    OnwardTransitive(s, p, q);
    assert Onward(q, q) by { OnwardSelf(s, q); }
    TickStep(q);
    OnwardTransitive(s, q, Detect(s, pre));
  }

  lemma OnwardSelf(s: Sys, s': Sys)
    requires Onward(s, s')
    ensures Onward(s', s')
  {
    hide Inv;
    SelfFollows(s');
    FollowsOnward(s', s');
  }

  lemma TickStep(s: Sys)
    requires Onward(s, s)
    ensures Onward(s, s.(w := s.w.(steps := s.w.steps + 1)))
  {
    hide Inv, Grows, SameBooks, StockFollows;
    IdleKeeps(s, s.w.(steps := s.w.steps + 1));
    FollowsOnward(s, s.(w := s.w.(steps := s.w.steps + 1)));
  }

  /** A tick, under every schedule and every order of walking the hash maps: the events it returns account exactly for
      what became of the tracked processes; every reported respawn is real and starts from the newest usable checkpoint
      of what was lost; every process of a node found silent is reported on. */
  lemma TickSafe(s: Sys, env: TickEnv)
    requires Inv(s) && ValidTick(s, env)
    ensures var (s', events) := TickOp(s, env);
            && Onward(s, s')
            && Accounted(s.c.specs, events) && s'.c.specs == Replay(s.c.specs, events)
            && EventsTrue(s'.w, s'.c.selfAddr, StartOf(s, env.pre), s'.c.checkpointTtl, events)
            && (s.c.failoverRespawn ==>
                  forall rid :: rid in s.c.specs && rid.node in Silent(Play(s, env.pre).c, Play(s, env.pre).w.now) ==>
                    Reported(events, rid))
  {
    hide Inv, Stocked, Play, ValidTurns, FailNodes, Accounted, Replay, EventsTrue, Reported, Silent, Detect;
    var t := Detect(s, env.pre);
    DetectKeeps(s, env.pre);
    FailNodesSafe(t, env.nodeTurns, StartOf(s, env.pre));
    OnwardTransitive(s, t, TickOp(s, env).0);
    forall rid | s.c.failoverRespawn && rid in s.c.specs
                 && rid.node in Silent(Play(s, env.pre).c, Play(s, env.pre).w.now)
      ensures Reported(TickOp(s, env).1, rid)
    {
      var i :| 0 <= i < |env.nodeTurns| && env.nodeTurns[i].node == rid.node;
    }
  }

  /** Failover conserves work: for every spec, the processes tracked before the tick are those tracked
      after it plus those whose respawn the tick reports as failed. */
  lemma TickConserves(s: Sys, env: TickEnv, spec: Spec)
    requires Inv(s) && ValidTick(s, env)
    ensures var (s', events) := TickOp(s, env);
            Count(s.c.specs, spec) == Count(s'.c.specs, spec) + LostCount(s.c.specs, events, spec)
  {
    TickSafe(s, env);
    ReplayConserves(s.c.specs, TickOp(s, env).1, spec);
  }
}
