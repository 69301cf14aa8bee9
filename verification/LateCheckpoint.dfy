/** Checkpoints that arrive while a respawn drains its inbox, after the lost process was given up and before the spawn
    is sent: they are stored and not used. */
module LateCheckpoint {
  import opened Common
  import opened ClusterTypes
  import opened Executor
  import opened ClusterModel
  import opened ClusterInvariant
  import opened ClusterSteps
  import opened ClusterCalls
  import opened ClusterOps
  import opened Failover
  import opened MigrationHome
  import Placement
  import Runs = ClusterRuns

  lemma {:induction false} LatestLater(log: seq<Stamped>, from: nat, to: nat)
    requires from <= to
    ensures Latest(log, to) == Latest(log, from) || (Latest(log, to).Some? && from <= Latest(log, to).value.step)
    decreases |log|
  {
    if log != [] { LatestLater(log[..|log| - 1], from, to); }
  }

  /** The step at which the spawn that started `rid` was sent. */
  ghost function SentAt(w: World, rid: Rid): nat
    requires rid in w.births && w.births[rid].req in w.sent
  {
    w.sent[w.births[rid].req].at
  }

  /** The heir starts from the newest usable checkpoint delivered before its spawn was sent. */
  ghost predicate FromNewestSent(w: World, start: Moment, ttl: nat, e: Event)
    requires e.Respawned? && e.heir in w.births && w.births[e.heir].req in w.sent
  {
    e.restored == NewestUsable(LogOf(w.delivered, e.lost), SentAt(w, e.heir), start, ttl)
  }

  /** Between the two steps no checkpoint arrived, or the last that did has the bytes and the clock of the last before
      them, which is usable. */
  ghost predicate Undisturbed(log: seq<Stamped>, asOf: nat, at: nat, start: Moment, ttl: nat) {
    var before, last := Latest(log, asOf), Latest(log, at);
    || last == before
    || (&& last.Some? && before.Some? && Usable(before.value, start, ttl)
        && last.value.state == before.value.state && last.value.at == before.value.at)
  }

  /** A respawn starts from the newest usable checkpoint delivered before its spawn was sent if and only if the log of
      the lost process was undisturbed from giving it up to that moment. */
  lemma SentIff(w: World, me: Addr, start: Moment, ttl: nat, e: Event)
    requires e.Respawned? && EventTrue(w, me, start, ttl, e)
    ensures FromNewestSent(w, start, ttl, e)
            <==> Undisturbed(LogOf(w.delivered, e.lost), e.asOf, SentAt(w, e.heir), start, ttl)
  {
    hide Latest, WasHeld;
    LatestLater(LogOf(w.delivered, e.lost), e.asOf, SentAt(w, e.heir));
  }

  /** A worker stores new bytes and replicates them, and the checkpoint arrives. */
  function Late(w: World, rid: Rid, bytes: Bytes): Schedule {
    [Rewrite(rid, bytes), Replicate(rid), Deliver(w.nextPacket)]
  }

  lemma LateArrives(s: Sys, rid: Rid, bytes: Bytes)
    requires rid.node in s.w.execs && rid.pid in s.w.execs[rid.node].states
    ensures var t := Play(s, Late(s.w, rid, bytes));
            && t.c == s.c.(checkpoints := s.c.checkpoints[rid := Snapshot(bytes, s.w.now)])
            && t.w.nodeAt == s.w.nodeAt && t.w.steps == s.w.steps + 3
            && t.w.execs == s.w.execs[rid.node := RestoreState(s.w.execs[rid.node], rid.pid, bytes).0]
            && t.w.delivered == Noted(s.w.delivered, rid, Stamped(bytes, s.w.now, t.w.steps))
  {
    var evs := Late(s.w, rid, bytes);
    var s1 := EnvStep(s, evs[0]);
    var s2 := EnvStep(s1, evs[1]);
    var s3 := EnvStep(s2, evs[2]);
    RewriteStep(s, rid, bytes);
    ReplicateStep(s1, rid);
    ArriveStep(s2, s.w.nextPacket, rid, bytes);
    hide EnvStep;
    assert evs[1..][0] == evs[1] && evs[1..][1..][0] == evs[2] && evs[1..][1..][1..] == [];
    assert Play(s, evs) == Play(s1, evs[1..]) && Play(s1, evs[1..]) == Play(s2, evs[1..][1..]);
    assert Play(s2, evs[1..][1..]) == Play(s3, []);
  }

  lemma RewriteStep(s: Sys, rid: Rid, bytes: Bytes)
    requires rid.node in s.w.execs && rid.pid in s.w.execs[rid.node].states
    ensures var t := EnvStep(s, Rewrite(rid, bytes));
            && t.c == s.c && t.w.nodeAt == s.w.nodeAt && t.w.steps == s.w.steps + 1 && t.w.now == s.w.now
            && t.w.execs == s.w.execs[rid.node := RestoreState(s.w.execs[rid.node], rid.pid, bytes).0]
            && t.w.delivered == s.w.delivered && t.w.nextPacket == s.w.nextPacket
            && t.w.execs[rid.node].states == s.w.execs[rid.node].states[rid.pid := bytes]
  {
  }

  lemma ReplicateStep(s: Sys, rid: Rid)
    requires rid.node in s.w.execs && rid.pid in s.w.execs[rid.node].states
    ensures var t, u := EnvStep(s, Replicate(rid)), s.w.nextPacket;
            && t.c == s.c && t.w.nodeAt == s.w.nodeAt && t.w.steps == s.w.steps + 1 && t.w.now == s.w.now
            && t.w.execs == s.w.execs && t.w.delivered == s.w.delivered && u in t.w.packets
            && t.w.packets[u] == Packet(s.c.selfAddr, Checkpoint(rid, s.w.execs[rid.node].states[rid.pid]))
  {
  }

  lemma ArriveStep(s: Sys, u: nat, rid: Rid, bytes: Bytes)
    requires u in s.w.packets && s.w.packets[u] == Packet(s.c.selfAddr, Checkpoint(rid, bytes))
    ensures var t := EnvStep(s, Deliver(u));
            && t.c == s.c.(checkpoints := s.c.checkpoints[rid := Snapshot(bytes, s.w.now)])
            && t.w.nodeAt == s.w.nodeAt && t.w.steps == s.w.steps + 1 && t.w.execs == s.w.execs
            && t.w.delivered == Noted(s.w.delivered, rid, Stamped(bytes, s.w.now, s.w.steps + 1))
  {
    hide Noted;
  }

  /** A spawn that drains first is a spawn from the drained state. */
  lemma DrainFirst(s: Sys, spec: Spec, state: Option<Bytes>, env: CallEnv)
    ensures SpawnOp(s, spec, None, state, env) == SpawnOp(Play(s, env.pre), spec, None, state, env.(pre := []))
  {
    hide Call, Placement.Select;
    assert Play(Play(s, env.pre), []) == Play(s, env.pre);
    var s0 := Ready(s, KSpawn(0), env.pre);
    var (c1, node) := Place(s0.c, spec, None);
    if node.Some? { SameCall(s0.(c := c1), node.value, KSpawn(node.value), Spawn(spec, state), env); }
  }

  lemma SameCall(s: Sys, node: NodeId, kind: Kind, body: Request, env: CallEnv)
    ensures Call(s, node, kind, body, env) == Call(s, node, kind, body, env.(pre := []))
  {
    hide Begin, Await;
  }

  /** Bytes other than those stored for `rid`. */
  function Other(c: Coord, rid: Rid): Bytes {
    if rid in c.checkpoints then c.checkpoints[rid].state + [0] else []
  }

  /** From any good state: a checkpoint arrives in the drain of the respawn, and its bytes are not restored. */
  lemma LateRespawn(s: Sys, rid: Rid, node: NodeId) returns (env: CallEnv)
    requires Inv(s) && rid in s.c.specs && Hosted(s, rid) && Reachable(s, node)
    requires Placement.Select(s.c.nodes, s.c.selfId, s.c.strategy, s.c.rrCursor, s.c.specs[rid]).1 == Some(node)
    ensures var (s', e) := Respawn(s, rid, s.c.specs[rid], env);
            && e.Respawned? && e.lost == rid && e.heir in s'.w.births && s'.w.births[e.heir].req in s'.w.sent
            && var last := Latest(LogOf(s'.w.delivered, rid), SentAt(s'.w, e.heir));
               && last.Some? && s.w.steps <= last.value.step
               && (e.restored.Some? ==> e.restored.value.state != last.value.state)
  {
    hide Inv, SpawnOp, Placement.Select, Onward, Grows, Spawned, Latest;
    var spec, bytes := s.c.specs[rid], Other(s.c, rid);
    var state := if rid in s.c.checkpoints then Some(s.c.checkpoints[rid].state) else None;
    var t := GiveUp(s, rid);
    var t1 := Play(t, Late(t.w, rid, bytes));
    LateArrives(t, rid, bytes);
    hide Play;
    env := Prompt(t1.w).(pre := Late(t.w, rid, bytes));
    DrainFirst(t, spec, state, env);
    assert env.(pre := []) == Prompt(t1.w);
    SpawnPrompt(t1, spec, None, state, node);
    LateSent(s, rid, t1, spec, state, node, bytes);
  }

  /** The respawn is not from the newest usable checkpoint delivered before its spawn was sent. */
  lemma LateIgnored(s: Sys, rid: Rid, node: NodeId, start: Moment) returns (env: CallEnv)
    requires Inv(s) && rid in s.c.specs && Hosted(s, rid) && Reachable(s, node) && start.step <= s.w.steps
    requires Placement.Select(s.c.nodes, s.c.selfId, s.c.strategy, s.c.rrCursor, s.c.specs[rid]).1 == Some(node)
    ensures var (s', e) := Respawn(s, rid, s.c.specs[rid], env); Ignored(s'.w, start, s.c.checkpointTtl, e)
  {
    hide Inv, Respawn, Latest, Placement.Select, Reachable, Hosted;
    env := LateRespawn(s, rid, node);
  }

  ghost predicate Hosted(s: Sys, rid: Rid) {
    rid.node in s.w.execs && rid.pid in s.w.execs[rid.node].states
  }

  /** A respawn that does not start from the newest usable checkpoint delivered before its spawn was sent. */
  ghost predicate Ignored(w: World, start: Moment, ttl: nat, e: Event) {
    e.Respawned? && e.heir in w.births && w.births[e.heir].req in w.sent && !FromNewestSent(w, start, ttl, e)
  }

  /** The spawn is sent after the late checkpoint has arrived. */
  lemma LateSent(s: Sys, rid: Rid, t1: Sys, spec: Spec, state: Option<Bytes>, node: NodeId, bytes: Bytes)
    requires Inv(s) && t1 == Play(GiveUp(s, rid), Late(s.w, rid, bytes))
    requires Reachable(t1, node) && Place(t1.c, spec, None).1 == Some(node)
    requires t1.w.delivered == Noted(s.w.delivered, rid, Stamped(bytes, s.w.now, t1.w.steps))
    ensures var (s', r) := SpawnOp(t1, spec, None, state, Prompt(t1.w));
            && r.Ok? && r.value in s'.w.births && s'.w.births[r.value].req in s'.w.sent
            && Latest(LogOf(s'.w.delivered, rid), s'.w.sent[s'.w.births[r.value].req].at)
               == Some(Stamped(bytes, s.w.now, t1.w.steps))
  {
    hide Inv, SpawnOp, Placement.Select, Place, Onward, Grows, Play;
    assert Inv(GiveUp(s, rid)) by { GiveUpInv(s, rid); }
    PlayInv(GiveUp(s, rid), Late(s.w, rid, bytes));
    SpawnPrompt(t1, spec, None, state, node);
    SpawnSafe(t1, spec, None, state, Prompt(t1.w));
    var log := LogOf(t1.w.delivered, rid);
    assert log[|log| - 1] == Stamped(bytes, s.w.now, t1.w.steps);
  }

  lemma GiveUpInv(s: Sys, rid: Rid)
    requires Inv(s)
    ensures Inv(GiveUp(s, rid))
  {
    hide Inv, Grows, SameBooks, StockFollows;
    var t := s.(w := s.w.(steps := s.w.steps + 1));
    IdleKeeps(s, t.w);
    UntrackKeeps(t, rid);
  }

  /** A tick whose walk is one silent node with one tracked process. */
  ghost function LoneTick(pre: Schedule, rid: Rid, env: CallEnv): TickEnv {
    TickEnv(pre, [NodeTurn(rid.node, [Turn(rid, env)])])
  }

  lemma LoneTurn(t: Sys, rid: Rid, env: CallEnv)
    requires t.c.failoverRespawn && rid in t.c.specs && Victims(t.c, rid.node).Keys == {rid}
    ensures var turns := [NodeTurn(rid.node, [Turn(rid, env)])];
            var (s', e) := Respawn(t, rid, t.c.specs[rid], env);
            ValidTurns(t, turns) && FailNodes(t, turns) == (s', [NodeLost(rid.node), e])
  {
    hide Respawn;
    var turn, victims := NodeTurn(rid.node, [Turn(rid, env)]), Victims(t.c, rid.node);
    assert turn.turns[0].rid == rid && turn.turns[..0] == [] && [turn][..0] == [];
    assert RespawnAll(t, victims, []) == (t, []) && FailNodes(t, []) == (t, []);
    assert Visits(turn.turns, victims);
    var (s', e) := Respawn(t, rid, victims[rid], env);
    assert RespawnAll(t, victims, turn.turns) == (s', [e]) by { assert [] + [e] == [e]; }
    assert FailNode(t, turn) == (s', [NodeLost(rid.node)] + [e]);
    assert [] + ([NodeLost(rid.node)] + [e]) == [NodeLost(rid.node), e];
  }

  lemma LoneValid(s: Sys, pre: Schedule, rid: Rid, env: CallEnv)
    requires var t := Detect(s, pre);
             t.c.failoverRespawn && rid in t.c.specs && Victims(t.c, rid.node).Keys == {rid}
    requires Silent(Play(s, pre).c, Play(s, pre).w.now) == {rid.node}
    ensures ValidTick(s, LoneTick(pre, rid, env))
    ensures var (s', e) := Respawn(Detect(s, pre), rid, Detect(s, pre).c.specs[rid], env);
            TickOp(s, LoneTick(pre, rid, env)) == (s', [NodeLost(rid.node), e])
  {
    hide Respawn, Detect, Silent, Play, FailNodes, ValidTurns, Victims;
    LoneTurn(Detect(s, pre), rid, env);
    assert LoneTick(pre, rid, env).nodeTurns[0].node == rid.node;
  }

  /** Six ticks pass and the far worker alone is heard from. */
  function Quiet(w: World): Schedule {
    [Advance(6)] + Greeting(w, FAR)
  }

  lemma QuietPlayed(s: Sys)
    requires Warm(s)
    ensures var p := Play(s, Quiet(s.w));
            && p.c == RegisterNode(s.c, FAR, 6) && p.w.nodeAt == s.w.nodeAt && p.w.execs == s.w.execs && p.w.now == 6
  {
    hide Play;
    var s1 := EnvStep(s, Advance(6));
    assert Quiet(s.w)[1..] == Greeting(s1.w, FAR);
    assert Play(s, Quiet(s.w)) == Play(s1, Greeting(s1.w, FAR)) by { PlayFirst(s, Quiet(s.w)); }
    Greeted(s1, FAR);
  }

  lemma PlayFirst(s: Sys, evs: Schedule)
    requires evs != []
    ensures Play(s, evs) == Play(EnvStep(s, evs[0]), evs[1..])
  {
  }

  lemma NearFlipped(c: Coord)
    requires c.nodes == map[1 := NEAR, 2 := FAR] && c.lastContact == map[1 := 0, 2 := 6] && c.failoverThreshold == 5
    ensures Silent(c, 6) == {1}
    ensures Flipped(c.nodes, {1}) == map[1 := NEAR.(status := Offline), 2 := FAR]
  {
  }

  /** What registering the far worker once more leaves. */
  lemma FarAgain(s: Sys)
    requires Warm(s)
    ensures var c := RegisterNode(s.c, FAR, 6);
            && c.nodes == map[1 := NEAR, 2 := FAR] && c.lastContact == map[1 := 0, 2 := 6] && c.failoverThreshold == 5
            && c.selfId == 0 && c.selfAddr == "home" && c.strategy == ByTier && c.failoverRespawn
            && c.specs == s.c.specs
  {
  }

  /** The near worker is found silent, and the far one is where its process will go. */
  lemma NearSilent(s: Sys)
    requires Warm(s) && s.c.specs == map[Rid(1, 1) := JOB] && Hosted(s, Rid(1, 1)) && 2 in s.w.execs
    ensures var p, t := Play(s, Quiet(s.w)), Detect(s, Quiet(s.w));
            && Silent(p.c, p.w.now) == {1} && t.c.failoverRespawn && t.c.specs == s.c.specs
            && Victims(t.c, 1).Keys == {Rid(1, 1)} && Hosted(t, Rid(1, 1)) && Reachable(t, 2)
            && Placement.Select(t.c.nodes, t.c.selfId, t.c.strategy, t.c.rrCursor, JOB).1 == Some(2)
  {
    hide Play, Placement.Select, Silent, Flipped, Quiet, RegisterNode;
    QuietPlayed(s);
    FarAgain(s);
    NearFlipped(Play(s, Quiet(s.w)).c);
    FarOnly(Detect(s, Quiet(s.w)).c);
  }

  lemma FarOnly(c: Coord)
    requires c.nodes == map[1 := NEAR.(status := Offline), 2 := FAR] && c.selfId == 0 && c.strategy == ByTier
    ensures Placement.Select(c.nodes, c.selfId, c.strategy, c.rrCursor, JOB).1 == Some(2)
  {
    hide Placement.Select;
    assert Placement.Eligible(c.nodes, c.selfId, JOB) == {2};
    Placement.PickedIff(c.nodes, c.selfId, c.strategy, c.rrCursor, JOB, 2);
  }

  lemma NearHosts(s: Sys)
    requires Reachable(s, 1) && Reachable(s, 2) && 1 in s.w.execs[1].states
    ensures Hosted(s, Rid(1, 1)) && 2 in s.w.execs
  {
  }

  lemma DetectInv(s: Sys, pre: Schedule)
    requires Inv(s)
    ensures Inv(Detect(s, pre)) && Detect(s, pre).c.checkpointTtl == s.c.checkpointTtl
  {
    hide Inv, Detect, Stocked, Grows, StartOf, Play;
    DetectKeeps(s, pre);
  }

  /** A tick that finds a node silent and respawns its process without the newest usable checkpoint. */
  ghost predicate LateTick(s: Sys, tenv: TickEnv) {
    && ValidTick(s, tenv)
    && var (s', events) := TickOp(s, tenv);
       && |events| == 2 && events[0] == NodeLost(1)
       && Ignored(s'.w, StartOf(s, tenv.pre), s.c.checkpointTtl, events[1])
  }

  /** A checkpoint that arrives in the drain is ignored in a tick of a reachable cluster: the near worker goes silent
      with the coordinator's only process, and the tick respawns it without what arrived last. */
  lemma LateExample()
    ensures Runs.Initial(COLD)
    ensures exists calls, tenv :: LateTick(Runs.Run(COLD, calls), tenv)
  {
    hide Runs.Run, Runs.Initial, Warm, Inv, Hosted, Reachable, Silent, Victims, Detect, Play, Placement.Select,
         TickOp, ValidTick, Respawn, Ignored, Onward;
    ColdInitial();
    var s, calls := Hosting();
    assert Inv(s) by { Runs.InitialInv(COLD); Runs.ReachedInv(COLD, calls); }
    NearHosts(s);
    NearSilent(s);
    var pre, rid := Quiet(s.w), Rid(1, 1);
    var t := Detect(s, pre);
    DetectInv(s, pre);
    var env := LateIgnored(t, rid, 2, StartOf(s, pre));
    LoneValid(s, pre, rid, env);
    assert LateTick(s, LoneTick(pre, rid, env));
  }
}
