/** The coordinating scheduler as the object it is: fields updated in place, wait loops that drain the
    inbox. Each method is proved to compute the corresponding function of the step system. */
module Scheduler {
  import opened Common
  import opened ClusterTypes
  import opened Executor
  import opened ClusterModel
  import Ops = ClusterOps
  import Fail = Failover
  import Mig = Migration
  import Placement
  import opened ClusterInvariant

  class DistributedScheduler {
    const selfId: NodeId
    const selfAddr: Addr
    const strategy: Strategy
    const failoverRespawn: bool
    const failoverThreshold: nat
    const checkpointTtl: nat
    var nodes: map<NodeId, NodeInfo>
    var remote: map<Rid, Status>
    var specs: map<Rid, Spec>
    var rrCursor: nat
    var nextRequest: RequestId
    var pending: Option<Pending>
    var spawnResult: Option<Result<Rid, Error>>
    var ctrlResult: Option<Result<(), Error>>
    var getStateResult: Option<Result<Bytes, Error>>
    var lastContact: map<NodeId, nat>
    var checkpoints: map<Rid, Snapshot>
    /** The transport, the peers behind it and the clock. */
    var net: World

    ghost function View(): Coord
      reads this
    {
      Coord(selfId, selfAddr, strategy, nodes, remote, specs, rrCursor, nextRequest, pending, spawnResult,
            ctrlResult, getStateResult, lastContact, checkpoints, failoverRespawn, failoverThreshold, checkpointTtl)
    }

    ghost function State(): Sys
      reads this
    {
      Sys(View(), net)
    }

    constructor (id: NodeId, addr: Addr, strategy: Strategy, respawn: bool, threshold: nat, ttl: nat, net: World)
      ensures State() == Sys(Coord(id, addr, strategy, map[], map[], map[], 0, 1, None, None, None, None, map[], map[],
                                   respawn, threshold, ttl), net)
    {
      selfId, selfAddr, this.strategy := id, addr, strategy;
      failoverRespawn, failoverThreshold, checkpointTtl := respawn, threshold, ttl;
      nodes, remote, specs, rrCursor, nextRequest := map[], map[], map[], 0, 1;
      pending, spawnResult, ctrlResult, getStateResult := None, None, None, None;
      lastContact, checkpoints := map[], map[];
      this.net := net;
    }

    method CompleteSpawn(req: RequestId, pid: nat, ok: bool, error: Option<string>)
      modifies this`spawnResult, this`pending
      ensures View() == Complete(old(View()), req, SpawnAck(pid, ok, error))
    {
      if pending.Some? && pending.value.id == req {
        if pending.value.kind.KSpawn? {
          spawnResult := Some(if ok then Ok(Rid(pending.value.kind.node, pid)) else Err(Rejected(error)));
          pending := None;
        }
      }
    }

    method CompleteCtrl(req: RequestId, ok: bool, error: Option<string>)
      modifies this`ctrlResult, this`pending
      ensures View() == Complete(old(View()), req, KillAck(ok, error))
      ensures View() == Complete(old(View()), req, SetPriorityAck(ok, error))
    {
      if pending.Some? && pending.value.id == req {
        ctrlResult := Some(if ok then Ok(()) else Err(Rejected(error)));
        pending := None;
      }
    }

    method CompleteGetState(req: RequestId, ok: bool, state: Bytes, error: Option<string>)
      modifies this`getStateResult, this`pending
      ensures View() == Complete(old(View()), req, GetStateReply(ok, state, error))
    {
      if pending.Some? && pending.value.id == req {
        getStateResult := Some(if ok then Ok(state) else Err(Rejected(error)));
        pending := None;
      }
    }

    method RegisterPeer(info: NodeInfo)
      modifies this`nodes, this`lastContact, this`net
      ensures State() == Sys(RegisterNode(old(View()), info, old(net.now)),
                             Post(old(net), info.addr, Metrics(selfId, LocalMetrics(old(net), selfId))))
    {
      if info.id in nodes {
        var node := nodes[info.id];
        nodes := nodes[info.id := node.(addr := info.addr, name := info.name, tier := info.tier, status := Online)];
      } else {
        nodes := nodes[info.id := info];
      }
      lastContact := lastContact[info.id := net.now];
      net := Post(net, info.addr, Metrics(selfId, LocalMetrics(net, selfId)));
    }

    method DispatchIncoming(msg: Message)
      modifies this
      ensures State() == Dispatch(old(State()), msg)
    {
      match msg {
        case Hello(info) =>
          if info.id != selfId { RegisterPeer(info); }
        case Metrics(id, metrics) =>
          if id in nodes {
            var node := nodes[id];
            nodes := nodes[id := node.(metrics := metrics)];
          } else {
            nodes := nodes[id := NodeInfo(id, "node", "", 0, Unknown, metrics)];
          }
          lastContact := lastContact[id := net.now];
        case Ask(req, from, body) =>
          net := Serve(net, selfAddr, selfId, req, from, body);
        case Answer(req, reply) =>
          match reply {
            case SpawnAck(pid, ok, error) => CompleteSpawn(req, pid, ok, error);
            case KillAck(ok, error) => CompleteCtrl(req, ok, error);
            case SetPriorityAck(ok, error) => CompleteCtrl(req, ok, error);
            case GetStateReply(ok, state, error) => CompleteGetState(req, ok, state, error);
          }
          hide Complete;
          if req !in net.acked { net := net.(acked := net.acked[req := net.steps]); }
        case Checkpoint(rid, state) =>
          checkpoints := checkpoints[rid := Snapshot(state, net.now)];
          net := net.(delivered := Noted(net.delivered, rid, Stamped(state, net.now, net.steps)));
        case StatusRequest(from) =>
          net := Post(net, from, StatusReply(StatusOf(net, selfId)));
        case StatusReply(processes) =>
          remote := remote + processes;
      }
    }
  
    /** One thing the environment does; a message for this node is dispatched here. */
    method Observe(e: EnvEvent)
      modifies this
      ensures State() == EnvStep(old(State()), e)
    {
      hide Dispatch, PeerTakes, Emit;
      net := net.(steps := net.steps + 1);
      match e {
        case Advance(ticks) => net := net.(now := net.now + ticks);
        case Drop(u) => net := net.(packets := net.packets - {u});
        case Deliver(u) =>
          if u in net.packets {
            var p := net.packets[u];
            net := net.(packets := net.packets - {u});
            if p.to == selfAddr {
              DispatchIncoming(p.msg);
            } else if p.to in net.nodeAt {
              net := PeerTakes(net, selfAddr, net.nodeAt[p.to], p.msg);
            }
          }
        case Rewrite(rid, state) => net := Rewritten(net, rid, state);
        case _ => net := Emit(net, selfAddr, e);
      }
    }

    method ProcessEvents(evs: Schedule)
      modifies this
      ensures State() == Play(old(State()), evs)
    {
      hide EnvStep;
      var i := 0;
      while i < |evs|
        invariant 0 <= i <= |evs|
        invariant Play(State(), evs[i..]) == Play(old(State()), evs)
      {
        assert evs[i..][1..] == evs[i + 1..];
        Observe(evs[i]);
        i := i + 1;
      }
    }

    /** The nodes a placement may use, in order of their ids. */
    method Candidates(spec: Spec) returns (ids: seq<NodeId>)
      ensures ids == Placement.SortedIds(Placement.Eligible(nodes, selfId, spec))
    {
      hide Placement.SortedIds, Placement.Ascending;
      var rest := Placement.Eligible(nodes, selfId, spec);
      ghost var all := Placement.SortedIds(rest);
      ids := [];
      while rest != {}
        invariant ids + Placement.SortedIds(rest) == all
        decreases rest
      {
        Placement.LeastExists(rest);
        var m :| m in rest && Placement.IsLeast(m, rest);
        Placement.SortedFirst(rest, m);
        ghost var tail := Placement.SortedIds(rest - {m});
        assert ids + ([m] + tail) == (ids + [m]) + tail;
        ids, rest := ids + [m], rest - {m};
      }
    }

    method SelectNode(spec: Spec) returns (node: Option<NodeId>)
      modifies this`rrCursor
      ensures (rrCursor, node) == Placement.Select(old(nodes), selfId, strategy, old(rrCursor), spec)
    {
      hide Placement.SortedIds, Placement.Rank, Placement.FirstLeast, Placement.Current, Placement.Advanced;
      var ids := Candidates(spec);
      if ids == [] {
        node := None;
      } else if strategy == RoundRobin {
        node := Some(Placement.Current(ids, rrCursor));
        rrCursor := Placement.Advanced(rrCursor, |ids|);
      } else {
        var rank := Placement.Rank(nodes, strategy);
        Placement.RankKeys(nodes, strategy);
        node := Some(Placement.FirstLeast(ids, rank));
      }
    }

    /** Hand one request to the transport. */
    method Send(node: NodeId, kind: Kind, body: Request, arrives: bool)
      requires node in nodes
      modifies this`net, this`nextRequest, this`pending
      ensures State() == Begin(old(State()), node, kind, body, arrives)
    {
      var req := nextRequest;
      nextRequest := nextRequest + 1;
      pending := Some(Pending(req, kind));
      net := net.(steps := net.steps + 1);
      net := net.(sent := net.sent[req := Sent(node, body, net.steps)]);
      if arrives { net := Post(net, nodes[node].addr, Ask(req, selfAddr, body)); }
    }

    predicate HasResult(kind: Kind)
      reads this
    {
      match kind
      case KSpawn(_) => spawnResult.Some?
      case KGetState => getStateResult.Some?
      case _ => ctrlResult.Some?
    }

    /** The wait loop every blocking call shares. */
    method WaitFor(kind: Kind, evs: Schedule)
      modifies this
      ensures State() == Await(old(State()), kind, evs)
    {
      hide EnvStep;
      var i := 0;
      while i < |evs| && !HasResult(kind)
        invariant 0 <= i <= |evs|
        invariant Await(State(), kind, evs[i..]) == Await(old(State()), kind, evs)
      {
        assert evs[i..][1..] == evs[i + 1..];
        Observe(evs[i]);
        i := i + 1;
      }
    }

    /** Send one request and wait for its result. */
    method Exchange(node: NodeId, kind: Kind, body: Request, env: CallEnv) returns (failed: Option<Error>)
      modifies this
      ensures (State(), failed) == Call(old(State()), node, kind, body, env)
    {
      hide Begin, Await;
      if node !in nodes { return Some(UnknownNode(node)); }
      Send(node, kind, body, env.arrives);
      if !env.sendOk { return Some(SendFailed); }
      WaitFor(kind, env.wait);
      if env.closes && !HasResult(kind) { return Some(Disconnected); }
      pending := None;
      failed := None;
    }

    method SpawnWithState(spec: Spec, target: Option<NodeId>, state: Option<Bytes>, env: CallEnv)
      returns (r: Result<Rid, Error>)
      modifies this
      ensures (State(), r) == Ops.SpawnOp(old(State()), spec, target, state, env)
    {
      hide Play, Call, Placement.Select;
      ProcessEvents(env.pre);
      spawnResult := None;
      var node := target;
      if target.None? {
        node := SelectNode(spec);
        if node.None? { return Err(NoNode); }
      }
      var failed := Exchange(node.value, KSpawn(node.value), Spawn(spec, state), env);
      if failed.Some? { return Err(failed.value); }
      if spawnResult.None? { return Err(TimedOut); }
      r := spawnResult.value;
      spawnResult := None;
      if r.Ok? {
        remote := remote[r.value := Status(r.value, spec.name, "Running", spec.ramMb)];
        specs := specs[r.value := spec];
      }
    }

    method KillProcess(rid: Rid, env: CallEnv) returns (r: Result<(), Error>)
      modifies this
      ensures (State(), r) == Ops.KillOp(old(State()), rid, env)
    {
      hide Play, Call;
      ProcessEvents(env.pre);
      ctrlResult := None;
      var failed := Exchange(rid.node, KKill, Kill(rid.pid), env);
      if failed.Some? { return Err(failed.value); }
      if ctrlResult.None? { return Err(TimedOut); }
      r := ctrlResult.value;
      ctrlResult := None;
      if r.Ok? {
        remote, specs, checkpoints := remote - {rid}, specs - {rid}, checkpoints - {rid};
      }
    }

    method ChangePriority(rid: Rid, priority: nat, env: CallEnv) returns (r: Result<(), Error>)
      modifies this
      ensures (State(), r) == Ops.SetPriorityOp(old(State()), rid, priority, env)
    {
      hide Play, Call;
      ProcessEvents(env.pre);
      ctrlResult := None;
      var failed := Exchange(rid.node, KSetPriority, SetPriority(rid.pid, priority), env);
      if failed.Some? { return Err(failed.value); }
      if ctrlResult.None? { return Err(TimedOut); }
      r := ctrlResult.value;
      ctrlResult := None;
    }

    method FetchState(rid: Rid, env: CallEnv) returns (r: Result<Bytes, Error>)
      modifies this
      ensures (State(), r) == Ops.GetStateOp(old(State()), rid, env)
    {
      hide Play, Call;
      ProcessEvents(env.pre);
      getStateResult := None;
      var failed := Exchange(rid.node, KGetState, GetState(rid.pid), env);
      if failed.Some? { return Err(failed.value); }
      if getStateResult.None? { return Err(TimedOut); }
      r := getStateResult.value;
      getStateResult := None;
    }

    /** Relocate a tracked process; safe on every path from every state that satisfies the invariant. */
    method Migrate(rid: Rid, target: Option<NodeId>, env: Mig.MigrateEnv) returns (r: Result<Rid, Error>)
      modifies this
      ensures (State(), r) == Mig.MigrateOp(old(State()), rid, target, env)
      ensures old(Inv(State())) ==>
                && Inv(State())
                && (r.Ok? ==> Mig.TookOver(old(State()), State(), rid, r.value))
                && (r.Err? ==> Mig.NothingLost(old(State()), State(), rid, r.error))
    {
      hide Inv, Play, Ops.GetStateOp, Ops.SpawnOp, Ops.KillOp, Mig.TookOver, Mig.NothingLost;
      ghost var start := State();
      if Inv(start) { Mig.MigrateSafe(start, rid, target, env); }
      ProcessEvents(env.pre);
      if rid !in specs { return Err(NotTracked); }
      var spec := specs[rid];
      if target == Some(rid.node) { return Err(SourceIsTarget); }
      var got := FetchState(rid, env.getState);
      if got.Err? { return Err(got.error); }
      var spawned := SpawnWithState(spec, target, Some(got.value), env.spawn);
      if spawned.Err? { return Err(spawned.error); }
      var newRid := spawned.value;
      if newRid.node == rid.node {
        var _ := KillProcess(newRid, env.kill);
        return Err(NoOtherNode);
      }
      var killed := KillProcess(rid, env.kill);
      r := match killed case Ok(_) => Ok(newRid) case Err(e) => Err(SourceNotKilled(newRid, e));
    }
  
    /** Give up one tracked process and start it again elsewhere. */
    method RespawnOne(rid: Rid, spec: Spec, env: CallEnv) returns (e: Fail.Event)
      modifies this
      ensures (State(), e) == Fail.Respawn(old(State()), rid, spec, env)
    {
      hide Ops.SpawnOp;
      var saved := if rid in checkpoints then Some(checkpoints[rid]) else None;
      remote, specs, checkpoints := remote - {rid}, specs - {rid}, checkpoints - {rid};
      net := net.(steps := net.steps + 1);
      var asOf := net.steps;
      var r := SpawnWithState(spec, None, if saved.Some? then Some(saved.value.state) else None, env);
      e := match r
           case Ok(heir) => Fail.Respawned(rid, heir, saved, asOf)
           case Err(error) => Fail.RespawnFailed(rid, error);
    }

    /** Walk the victims of one failed node, in whatever order the map yields them. */
    method RespawnVictims(victims: map<Rid, Spec>, envs: nat -> CallEnv, first: nat)
      returns (events: seq<Fail.Event>, next: nat, ghost turns: seq<Fail.Turn>)
      modifies this
      ensures Fail.Visits(turns, victims)
      ensures (State(), events) == Fail.RespawnAll(old(State()), victims, turns)
    {
      hide Fail.Respawn;
      events, next, turns := [], first, [];
      var todo := victims.Keys;
      while todo != {}
        invariant todo <= victims.Keys && Fail.Visited(turns, victims, todo)
        invariant (State(), events) == Fail.RespawnAll(old(State()), victims, turns)
        decreases todo
      {
        var rid :| rid in todo;
        var e := RespawnOne(rid, victims[rid], envs(next));
        Fail.VisitOne(turns, victims, todo, Fail.Turn(rid, envs(next)));
        todo := todo - {rid};
        events := events + [e];
        turns := turns + [Fail.Turn(rid, envs(next))];
        next := next + 1;
      }
    }

    /** Prune stale checkpoints and flip silent nodes to offline. */
    method DetectFailures() returns (failed: set<NodeId>)
      modifies this`nodes, this`checkpoints
      ensures failed == Fail.Silent(old(View()), old(net.now))
      ensures View() == Fail.MarkOffline(Fail.Prune(old(View()), old(net.now)), failed)
    {
      checkpoints := map rid | rid in checkpoints && Fail.Age(checkpoints[rid].at, net.now) < checkpointTtl
                       :: checkpoints[rid];
      assert View() == Fail.Prune(old(View()), net.now);
      ghost var pruned := checkpoints;
      assert Fail.Flipped(nodes, {}) == nodes;
      failed := {};
      var todo := nodes.Keys;
      while todo != {}
        invariant todo <= old(nodes).Keys && checkpoints == pruned
        invariant failed == set n | n in Fail.Silent(old(View()), old(net.now)) && n !in todo
        invariant nodes == Fail.Flipped(old(nodes), failed)
        decreases todo
      {
        var id :| id in todo;
        Fail.FlipOne(old(nodes), failed, id);
        todo := todo - {id};
        if nodes[id].status == Online && id in lastContact && Fail.Age(lastContact[id], net.now) > failoverThreshold {
          var info := nodes[id];
          nodes := nodes[id := info.(status := Offline)];
          failed := failed + {id};
        }
      }
    }

    /** Report one failed node and, if configured, respawn what it hosted. */
    method FailOver(id: NodeId, envs: nat -> CallEnv, first: nat)
      returns (events: seq<Fail.Event>, next: nat, ghost turn: Fail.NodeTurn)
      modifies this
      ensures turn.node == id && Fail.ValidTurn(old(State()), turn)
      ensures (State(), events) == Fail.FailNode(old(State()), turn)
    {
      hide Fail.RespawnAll;
      events, next, turn := [Fail.NodeLost(id)], first, Fail.NodeTurn(id, []);
      if failoverRespawn {
        var victims := map rid | rid in specs && rid.node == id :: specs[rid];
        var more;
        ghost var turns;
        more, next, turns := RespawnVictims(victims, envs, first);
        events, turn := events + more, Fail.NodeTurn(id, turns);
      }
    }

    /** Walk the failed nodes, in whatever order. */
    method FailOverAll(failed: set<NodeId>, envs: nat -> CallEnv)
      returns (events: seq<Fail.Event>, ghost turns: seq<Fail.NodeTurn>)
      modifies this
      ensures Fail.Walked(turns, failed, {})
      ensures Fail.ValidTurns(old(State()), turns) && (State(), events) == Fail.FailNodes(old(State()), turns)
    {
      hide Fail.ValidTurn, Fail.FailNode, Fail.ValidTurns, Fail.FailNodes;
      events, turns := [], [];
      NoTurns(State());
      var todo, next := failed, 0;
      while todo != {}
        invariant todo <= failed && Fail.Walked(turns, failed, todo)
        invariant Fail.ValidTurns(old(State()), turns) && (State(), events) == Fail.FailNodes(old(State()), turns)
        decreases todo
      {
        var id :| id in todo;
        var more;
        ghost var turn;
        more, next, turn := FailOver(id, envs, next);
        Fail.TurnsAppend(old(State()), turns, turn);
        Fail.WalkOne(turns, failed, todo, turn);
        todo := todo - {id};
        events, turns := events + more, turns + [turn];
      }
    }

    /** Drive failover detection; the order in which nodes and victims are visited is arbitrary. */
    method Tick(pre: Schedule, envs: nat -> CallEnv) returns (events: seq<Fail.Event>, ghost env: Fail.TickEnv)
      modifies this
      ensures Fail.ValidTick(old(State()), env) && (State(), events) == Fail.TickOp(old(State()), env)
      ensures old(Inv(State())) ==>
                && Inv(State()) && specs == Fail.Replay(old(specs), events)
                && Fail.EventsTrue(net, selfAddr, Fail.StartOf(old(State()), pre), checkpointTtl, events)
                && forall spec :: Fail.Count(old(specs), spec)
                                  == Fail.Count(specs, spec) + Fail.LostCount(old(specs), events, spec)
    {
      hide Inv, Play, Fail.Replay, Fail.LostCount, Fail.Count, Fail.ValidTurns, Fail.FailNodes, Fail.EventsTrue;
      ghost var begun := State();
      ProcessEvents(pre);
      var failed := DetectFailures();
      net := net.(steps := net.steps + 1);
      assert State() == Fail.Detect(begun, pre) && failed == Fail.Silent(Play(begun, pre).c, Play(begun, pre).w.now);
      hide Fail.Detect, Fail.Silent;
      ghost var turns;
      events, turns := FailOverAll(failed, envs);
      env := Fail.TickEnv(pre, turns);
      if Inv(begun) {
        Fail.TickSafe(begun, env);
        forall spec
          ensures Fail.Count(begun.c.specs, spec)
                  == Fail.Count(specs, spec) + Fail.LostCount(begun.c.specs, events, spec)
        {
          Fail.TickConserves(begun, env, spec);
        }
      }
    }
  }

  lemma NoTurns(s: Sys)
    ensures Fail.ValidTurns(s, []) && Fail.FailNodes(s, []) == (s, [])
  {
  }
}
