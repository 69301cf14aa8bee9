/** Migration without a target: placement may pick the source itself, and then the migration fails. */
module MigrationHome {
  import opened Common
  import opened ClusterTypes
  import opened Executor
  import opened ClusterModel
  import opened ClusterInvariant
  import opened ClusterSteps
  import opened ClusterCalls
  import opened ClusterOps
  import opened Migration
  import Placement
  import Runs = ClusterRuns

  // ---- exactly when -------------------------------------------------------------------------

  ghost function AfterFetch(s: Sys, rid: Rid, env: MigrateEnv): (Sys, Result<Bytes, Error>) {
    GetStateOp(Play(s, env.pre), rid, env.getState)
  }

  /** The coordinator at the moment it places the copy. */
  ghost function Placing(s: Sys, rid: Rid, env: MigrateEnv): Coord {
    Ready(AfterFetch(s, rid, env).0, KSpawn(0), env.spawn.pre).c
  }

  /** The state was fetched and the copy was started. */
  ghost predicate Copied(s: Sys, rid: Rid, env: MigrateEnv) {
    && rid in Play(s, env.pre).c.specs && AfterFetch(s, rid, env).1.Ok?
    && SpawnOp(AfterFetch(s, rid, env).0, Play(s, env.pre).c.specs[rid], None,
               Some(AfterFetch(s, rid, env).1.value), env.spawn).1.Ok?
  }

  /** Placement prefers the node that `rid` is on. */
  ghost predicate PrefersSource(c: Coord, spec: Spec, rid: Rid) {
    && rid.node in Placement.Eligible(c.nodes, c.selfId, spec)
    && Placement.Preferred(c.nodes, c.selfId, c.strategy, c.rrCursor, spec, rid.node)
  }

  lemma ChosenIff(s: Sys, spec: Spec, pre: Schedule, node: NodeId)
    ensures var c := Ready(s, KSpawn(0), pre).c;
            Chosen(s, spec, None, pre) == Some(node)
            <==> node in Placement.Eligible(c.nodes, c.selfId, spec)
                 && Placement.Preferred(c.nodes, c.selfId, c.strategy, c.rrCursor, spec, node)
  {
    hide Ready, Placement.Select, Placement.Eligible, Placement.Preferred;
    var c := Ready(s, KSpawn(0), pre).c;
    Placement.PickedIff(c.nodes, c.selfId, c.strategy, c.rrCursor, spec, node);
  }

  /** Once the copy runs, the migration is aborted if and only if placement preferred the source. */
  lemma AbortedIff(s: Sys, rid: Rid, env: MigrateEnv)
    requires Inv(s) && Copied(s, rid, env)
    ensures MigrateOp(s, rid, None, env).1 == Err(NoOtherNode)
            <==> PrefersSource(Placing(s, rid, env), Play(s, env.pre).c.specs[rid], rid)
  {
    hide Inv, Play, GetStateOp, SpawnOp, KillOp, Ready, Chosen, Follows, Onward, Spawned,
         Placement.Eligible, Placement.Preferred;
    var s0 := Play(s, env.pre);
    var (s1, got) := GetStateOp(s0, rid, env.getState);
    PlayInv(s, env.pre);
    FetchInv(s0, rid, env.getState);
    SpawnSafe(s1, s0.c.specs[rid], None, Some(got.value), env.spawn);
    ChosenIff(s1, s0.c.specs[rid], env.spawn.pre, rid.node);
  }

  lemma PlayInv(s: Sys, evs: Schedule)
    requires Inv(s)
    ensures Inv(Play(s, evs))
  {
    hide Inv, Play;
    PlayKeeps(s, evs);
  }

  lemma FetchInv(s: Sys, rid: Rid, env: CallEnv)
    requires Inv(s)
    ensures Inv(GetStateOp(s, rid, env).0)
  {
    hide Inv, GetStateOp;
    GetStateAnswered(s, rid, env);
  }

  /** With no other eligible node a migration without a target never succeeds. */
  lemma OnlySourceFails(s: Sys, rid: Rid, env: MigrateEnv)
    requires Inv(s) && rid in Play(s, env.pre).c.specs
    requires var c := Placing(s, rid, env);
             Placement.Eligible(c.nodes, c.selfId, Play(s, env.pre).c.specs[rid]) <= {rid.node}
    ensures MigrateOp(s, rid, None, env).1.Err?
  {
    hide Inv, Play, GetStateOp, SpawnOp, KillOp, Ready, Follows, Onward, Spawned, Placement.Select, Placement.Eligible;
    var s0 := Play(s, env.pre);
    var (s1, got) := GetStateOp(s0, rid, env.getState);
    PlayInv(s, env.pre);
    FetchInv(s0, rid, env.getState);
    if got.Ok? {
      SpawnSafe(s1, s0.c.specs[rid], None, Some(got.value), env.spawn);
      var c := Placing(s, rid, env);
      if Chosen(s1, s0.c.specs[rid], None, env.spawn.pre).Some? {
        var node := Chosen(s1, s0.c.specs[rid], None, env.spawn.pre).value;
        Placement.PickedIff(c.nodes, c.selfId, c.strategy, c.rrCursor, s0.c.specs[rid], node);
        assert Placement.Select(c.nodes, c.selfId, c.strategy, c.rrCursor, s0.c.specs[rid]).1 == Some(node);
        assert node in {rid.node};
        var (s2, spawned) := SpawnOp(s1, s0.c.specs[rid], None, Some(got.value), env.spawn);
        assert SpawnDone(s1, s2, spawned, s1.c.nextRequest, node, s0.c.specs[rid], Some(got.value));
        if spawned.Ok? { assert Settle(s2, rid, spawned.value, env.kill).1 == Err(NoOtherNode); }
      }
    }
  }

  // ---- a cluster in which it happens --------------------------------------------------------

  /** A network that delivers one request and its answer at once. */
  function Prompt(w: World): CallEnv {
    CallEnv([], true, true, [Deliver(w.nextPacket), Deliver(w.nextPacket + 1)], false)
  }

  /** Node `n` is known, reachable under its own address, and has an executor. */
  ghost predicate Reachable(s: Sys, n: NodeId) {
    && n in s.c.nodes && n in s.w.execs && s.c.nodes[n].addr != s.c.selfAddr
    && s.c.nodes[n].addr in s.w.nodeAt && s.w.nodeAt[s.c.nodes[n].addr] == n
  }

  /** What a prompt call changes: one executor, one slot, and the books of the network. */
  ghost predicate Prompted(s: Sys, s': Sys, n: NodeId, kind: Kind, body: Request)
    requires n in s.w.execs
  {
    && s'.w.nodeAt == s.w.nodeAt && s'.w.execs == s.w.execs[n := Perform(s.w.execs[n], body).0]
    && s'.w.delivered == s.w.delivered && s'.w.now == s.w.now
    && SlotIs(s'.c, kind, Perform(s.w.execs[n], body).1)
    && s'.c == s.c.(nextRequest := s'.c.nextRequest, pending := s'.c.pending, spawnResult := s'.c.spawnResult,
                    ctrlResult := s'.c.ctrlResult, getStateResult := s'.c.getStateResult)
  }

  lemma PromptServed(s: Sys, n: NodeId, kind: Kind, body: Request)
    requires Reachable(s, n)
    ensures var k, s1 := s.w.nextPacket, Begin(s, n, kind, body, true);
            var s2 := EnvStep(s1, Deliver(k));
            && s2.c == s1.c && k + 1 in s2.w.packets
            && s2.w.packets[k + 1] == Packet(s.c.selfAddr, Answer(s.c.nextRequest, Perform(s.w.execs[n], body).1))
            && s2.w.nodeAt == s.w.nodeAt && s2.w.execs == s.w.execs[n := Perform(s.w.execs[n], body).0]
            && s2.w.delivered == s.w.delivered && s2.w.now == s.w.now
  {
    hide Perform, NewBirths, NewHeld, Left;
  }

  lemma PromptAnswered(s: Sys, u: nat, req: RequestId, kind: Kind, reply: Reply)
    requires u in s.w.packets && s.w.packets[u] == Packet(s.c.selfAddr, Answer(req, reply))
    requires s.c.pending == Some(Pending(req, kind))
    requires match kind
             case KSpawn(_) => reply.SpawnAck?
             case KGetState => reply.GetStateReply?
             case _ => reply.KillAck? || reply.SetPriorityAck?
    ensures var s' := EnvStep(s, Deliver(u));
            && SlotIs(s'.c, kind, reply) && Filled(s'.c, kind)
            && s'.w.nodeAt == s.w.nodeAt && s'.w.execs == s.w.execs && s'.w.delivered == s.w.delivered
            && s'.w.now == s.w.now
            && s'.c == s.c.(pending := None, spawnResult := s'.c.spawnResult, ctrlResult := s'.c.ctrlResult,
                            getStateResult := s'.c.getStateResult)
  {
    hide Verdict;
  }

  lemma PromptCall(s: Sys, n: NodeId, kind: Kind, body: Request)
    requires Reachable(s, n) && !Filled(s.c, kind) && KindFits(kind, Sent(n, body, 0))
    ensures var (s', failed) := Call(s, n, kind, body, Prompt(s.w));
            failed.None? && Filled(s'.c, kind) && Prompted(s, s', n, kind, body)
  {
    hide EnvStep, Perform, SlotIs;
    var k, s1 := s.w.nextPacket, Begin(s, n, kind, body, true);
    var evs := [Deliver(k), Deliver(k + 1)];
    assert evs[1..] == [Deliver(k + 1)] && evs[1..][1..] == [];
    PromptServed(s, n, kind, body);
    var s2 := EnvStep(s1, Deliver(k));
    PerformAnswers(s.w.execs[n], body);
    PromptAnswered(s2, k + 1, s.c.nextRequest, kind, Perform(s.w.execs[n], body).1);
    var s3 := EnvStep(s2, Deliver(k + 1));
    assert Await(s1, kind, evs) == Await(s2, kind, evs[1..]);
    assert Await(s2, kind, evs[1..]) == Await(s3, kind, []);
    assert SlotIs(s3.c.(pending := None), kind, Perform(s.w.execs[n], body).1) by {
      SlotStays(s3.c, kind, Perform(s.w.execs[n], body).1);
    }
  }

  lemma SlotStays(c: Coord, kind: Kind, reply: Reply)
    requires SlotIs(c, kind, reply)
    ensures SlotIs(c.(pending := None), kind, reply)
  {
  }

  lemma PerformAnswers(e: Exec, body: Request)
    ensures Answers(body, Perform(e, body).1)
  {
  }

  /** The parts of the coordinator that placement depends on, and the processes it tracks. */
  ghost predicate SameView(c: Coord, c': Coord) {
    && c'.nodes == c.nodes && c'.selfId == c.selfId && c'.selfAddr == c.selfAddr && c'.strategy == c.strategy
    && c'.rrCursor == c.rrCursor && c'.specs == c.specs
  }

  /** The parts that failure detection depends on. */
  ghost predicate SameWatch(s: Sys, s': Sys) {
    && s'.c.lastContact == s.c.lastContact && s'.w.now == s.w.now && s'.c.failoverRespawn == s.c.failoverRespawn
    && s'.c.failoverThreshold == s.c.failoverThreshold
  }

  lemma FetchPrompt(s: Sys, rid: Rid)
    requires Reachable(s, rid.node) && rid.pid in s.w.execs[rid.node].states
    ensures var (s', got) := GetStateOp(s, rid, Prompt(s.w));
            && got == Ok(s.w.execs[rid.node].states[rid.pid])
            && SameView(s.c, s'.c) && s'.w.nodeAt == s.w.nodeAt && s'.w.execs == s.w.execs
  {
    hide Call;
    var e := s.w.execs[rid.node];
    assert Perform(e, GetState(rid.pid)) == (e, GetStateReply(true, e.states[rid.pid], None));
    assert s.w.execs[rid.node := e] == s.w.execs;
    hide Perform;
    PromptCall(s.(c := Clear(s.c, KGetState)), rid.node, KGetState, GetState(rid.pid));
  }

  lemma SpawnPerforms(e: Exec, spec: Spec, state: Option<Bytes>)
    ensures var (e', reply) := Perform(e, Spawn(spec, state));
            && reply.SpawnAck? && reply.ok && reply.pid == e.nextPid
            && e.nextPid in e'.states && forall pid :: pid in e.states ==> pid in e'.states
  {
  }

  lemma SpawnPrompt(s: Sys, spec: Spec, target: Option<NodeId>, state: Option<Bytes>, node: NodeId)
    requires Reachable(s, node) && Place(s.c, spec, target).1 == Some(node)
    ensures var (s', r) := SpawnOp(s, spec, target, state, Prompt(s.w));
            && r == Ok(Rid(node, s.w.execs[node].nextPid))
            && s'.c.nodes == s.c.nodes && s'.c.selfId == s.c.selfId && s'.c.selfAddr == s.c.selfAddr
            && s'.c.strategy == s.c.strategy && s'.c.specs == s.c.specs[r.value := spec]
            && SameWatch(s, s')
            && s'.w.nodeAt == s.w.nodeAt && node in s'.w.execs && s'.w.execs == s.w.execs[node := s'.w.execs[node]]
            && s'.w.delivered == s.w.delivered
            && r.value.pid in s'.w.execs[node].states
  {
    hide Call, Perform, Placement.Select;
    var s0 := s.(c := Clear(s.c, KSpawn(0)));
    var (c1, picked) := Place(s0.c, spec, target);
    assert picked == Some(node);
    SpawnPerforms(s.w.execs[node], spec, state);
    PromptCall(s0.(c := c1), node, KSpawn(node), Spawn(spec, state));
  }

  /** From a tracked, hosted process whose node placement prefers, a prompt migration ends where it began. */
  lemma PromptMigration(s: Sys, rid: Rid)
    requires rid in s.c.specs && Reachable(s, rid.node) && rid.pid in s.w.execs[rid.node].states
    requires PrefersSource(s.c, s.c.specs[rid], rid)
    ensures exists env :: MigrateOp(s, rid, None, env).1 == Err(NoOtherNode)
  {
    hide GetStateOp, SpawnOp, KillOp, Placement.Select, Placement.Eligible, Placement.Preferred;
    var spec := s.c.specs[rid];
    var s1 := GetStateOp(s, rid, Prompt(s.w)).0;
    FetchPrompt(s, rid);
    Placement.PickedIff(s1.c.nodes, s1.c.selfId, s1.c.strategy, s1.c.rrCursor, spec, rid.node);
    SpawnPrompt(s1, spec, None, Some(s.w.execs[rid.node].states[rid.pid]), rid.node);
    var env := MigrateEnv([], Prompt(s.w), Prompt(s1.w), Prompt(s1.w));
    assert MigrateOp(s, rid, None, env).1 == Err(NoOtherNode);
  }

  /** A node introduces itself. */
  function Greeting(w: World, info: NodeInfo): Schedule {
    [Announce(info), Deliver(w.nextPacket)]
  }

  lemma Greeted(s: Sys, info: NodeInfo)
    requires info.addr in s.w.nodeAt && s.w.nodeAt[info.addr] == info.id && info.id != s.c.selfId
    ensures var t := Play(s, Greeting(s.w, info));
            && t.c == RegisterNode(s.c, info, s.w.now) && t.w.nodeAt == s.w.nodeAt && t.w.execs == s.w.execs
            && t.w.now == s.w.now
  {
    hide EnvStep;
    var evs := Greeting(s.w, info);
    var s1 := EnvStep(s, Announce(info));
    AnnounceStep(s, info);
    HelloStep(s1, s.w.nextPacket, info);
    assert evs[1..] == [Deliver(s.w.nextPacket)] && evs[1..][1..] == [];
    assert Play(s, evs) == Play(s1, evs[1..]) && Play(s1, evs[1..]) == EnvStep(s1, Deliver(s.w.nextPacket));
  }

  lemma AnnounceStep(s: Sys, info: NodeInfo)
    requires info.addr in s.w.nodeAt && s.w.nodeAt[info.addr] == info.id
    ensures var s1, u := EnvStep(s, Announce(info)), s.w.nextPacket;
            && s1.c == s.c && s1.w.nodeAt == s.w.nodeAt && s1.w.execs == s.w.execs && s1.w.now == s.w.now
            && u in s1.w.packets && s1.w.packets[u] == Packet(s.c.selfAddr, Hello(info))
  {
  }

  lemma HelloStep(s: Sys, u: nat, info: NodeInfo)
    requires u in s.w.packets && s.w.packets[u] == Packet(s.c.selfAddr, Hello(info)) && info.id != s.c.selfId
    ensures var t := EnvStep(s, Deliver(u));
            && t.c == RegisterNode(s.c, info, s.w.now) && t.w.nodeAt == s.w.nodeAt && t.w.execs == s.w.execs
            && t.w.now == s.w.now
  {
    hide RegisterNode, LocalMetrics;
  }

  const IDLE := NodeMetrics(0.0, 0, 0, 0)
  const NEAR := NodeInfo(1, "near", "near", 1, Online, IDLE)
  const FAR := NodeInfo(2, "far", "far", 2, Online, IDLE)
  const JOB := Spec("job", 0, 0, None, [], None, None)

  /** A coordinator that places by tier and respawns what it loses, and two workers it has not heard of yet. */
  const COLD := Sys(
    Coord(0, "home", ByTier, map[], map[], map[], 0, 1, None, None, None, None, map[], map[], true, 5, 60),
    World(map["home" := 0, "near" := 1, "far" := 2], map[1 := EMPTY, 2 := EMPTY], map[], 0, 0, 0,
          map[], map[], map[], map[], map[], map[]))

  lemma ColdInitial()
    ensures Runs.Initial(COLD)
  {
  }

  /** Both workers are known. */
  ghost predicate Warm(s: Sys) {
    && s.c.nodes == map[1 := NEAR, 2 := FAR] && s.c.selfId == 0 && s.c.selfAddr == "home" && s.c.strategy == ByTier
    && s.w.nodeAt == map["home" := 0, "near" := 1, "far" := 2]
    && s.c.lastContact == map[1 := 0, 2 := 0] && s.w.now == 0 && s.c.failoverRespawn && s.c.failoverThreshold == 5
  }

  lemma WarmUp() returns (s: Sys, calls: seq<Runs.ApiCall>)
    ensures s == Runs.Run(COLD, calls) && Warm(s) && s.w.execs == map[1 := EMPTY, 2 := EMPTY] && s.c.specs == map[]
  {
    var g1 := Greeting(COLD.w, NEAR);
    Greeted(COLD, NEAR);
    var s1 := Play(COLD, g1);
    var g2 := Greeting(s1.w, FAR);
    Greeted(s1, FAR);
    s := Play(s1, g2);
    hide Play;
    calls := [Runs.DoProcessEvents(g1), Runs.DoProcessEvents(g2)];
    assert calls[1..] == [Runs.DoProcessEvents(g2)] && calls[1..][1..] == [];
    assert Runs.Run(COLD, calls) == Runs.Run(s1, calls[1..]) && Runs.Run(s1, calls[1..]) == Runs.Run(s, []);
    assert s.c.nodes == map[1 := NEAR, 2 := FAR];
    assert s.c.lastContact == map[1 := 0, 2 := 0];
  }

  lemma BothEligible(s: Sys)
    requires Warm(s)
    ensures Placement.Eligible(s.c.nodes, s.c.selfId, JOB) == {1, 2} && PrefersSource(s.c, JOB, Rid(1, 1))
  {
    assert Placement.Rank(s.c.nodes, ByTier)[1] == 1.0 && Placement.Rank(s.c.nodes, ByTier)[2] == 2.0;
  }

  /** The documented exclusion of the source fails in a reachable cluster: two nodes can host the process, placement
      prefers the one it is on, and the migration is aborted. */
  lemma SourceNotExcluded()
    ensures Runs.Initial(COLD)
    ensures exists calls, env ::
              var s := Runs.Run(COLD, calls);
              && Placement.Eligible(s.c.nodes, s.c.selfId, JOB) == {1, 2}
              && Rid(1, 1) in s.c.specs && s.c.specs[Rid(1, 1)] == JOB
              && MigrateOp(s, Rid(1, 1), None, env).1 == Err(NoOtherNode)
  {
    hide Runs.Initial, Runs.Run, MigrateOp, PrefersSource, Placement.Eligible, Warm;
    ColdInitial();
    var s, calls := Hosting();
    BothEligible(s);
    PromptMigration(s, Rid(1, 1));
    var env :| MigrateOp(s, Rid(1, 1), None, env).1 == Err(NoOtherNode);
  }

  /** A run after which the first worker hosts the coordinator's only process. */
  lemma Hosting() returns (s: Sys, calls: seq<Runs.ApiCall>)
    ensures s == Runs.Run(COLD, calls) && Warm(s) && s.c.specs == map[Rid(1, 1) := JOB]
    ensures Reachable(s, 1) && Reachable(s, 2) && 1 in s.w.execs[1].states
  {
    hide SpawnOp;
    var s0, calls0 := WarmUp();
    SpawnPrompt(s0, JOB, Some(1), None, 1);
    s := SpawnOp(s0, JOB, Some(1), None, Prompt(s0.w)).0;
    calls := calls0 + [Runs.DoSpawn(JOB, Some(1), Prompt(s0.w))];
    RunAppend(COLD, calls0, Runs.DoSpawn(JOB, Some(1), Prompt(s0.w)));
  }

  lemma {:induction false} RunAppend(s: Sys, calls: seq<Runs.ApiCall>, call: Runs.ApiCall)
    ensures Runs.Run(s, calls + [call]) == Runs.Step(Runs.Run(s, calls), call)
    decreases |calls|
  {
    hide Runs.Step;
    if calls == [] {
      assert (calls + [call])[1..] == [];
      assert Runs.Run(s, [call]) == Runs.Run(Runs.Step(s, call), []);
    } else {
      assert (calls + [call])[1..] == calls[1..] + [call];
      RunAppend(Runs.Step(s, calls[0]), calls[1..], call);
    }
  }
}
