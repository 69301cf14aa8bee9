/** The table of tracked processes as a ledger: what the calls of a run returned, killed and reported lost. */
module ClusterLedger {
  import opened Common
  import opened ClusterTypes
  import opened Executor
  import opened ClusterModel
  import opened ClusterInvariant
  import opened ClusterSteps
  import opened ClusterCalls
  import opened ClusterOps
  import opened Migration
  import opened Failover
  import Runs = ClusterRuns

  /** Processes whose spawn returned Ok, whose kill returned Ok, and which a tick reported as lost. */
  datatype Account = Account(returned: set<Rid>, killed: set<Rid>, lost: set<Rid>)

  const NOTHING := Account({}, {}, {})

  function Both(a: Account, b: Account): Account {
    Account(a.returned + b.returned, a.killed + b.killed, a.lost + b.lost)
  }

  // ---- what each call reports ---------------------------------------------------------------

  function SpawnAccount(r: Result<Rid, Error>): Account {
    Account(if r.Ok? then {r.value} else {}, {}, {})
  }

  function KillAccount(rid: Rid, r: Result<(), Error>): Account {
    Account({}, if r.Ok? then {rid} else {}, {})
  }

  /** A migration spawns the copy, then kills the copy if it landed on the source, and the source otherwise. */
  ghost function MigrateAccount(s: Sys, rid: Rid, target: Option<NodeId>, env: MigrateEnv): Account {
    var s0 := Play(s, env.pre);
    if rid !in s0.c.specs || target == Some(rid.node) then NOTHING else
    var (s1, got) := GetStateOp(s0, rid, env.getState);
    if got.Err? then NOTHING else
    var (s2, spawned) := SpawnOp(s1, s0.c.specs[rid], target, Some(got.value), env.spawn);
    if spawned.Err? then NOTHING else
    var doomed := if spawned.value.node == rid.node then spawned.value else rid;
    Both(SpawnAccount(spawned), KillAccount(doomed, KillOp(s2, doomed, env.kill).1))
  }

  function EventsAccount(events: seq<Event>): Account {
    Account(set e | e in events && e.Respawned? :: e.heir, {}, set e | e in events && !e.NodeLost? :: e.lost)
  }

  ghost function CallAccount(s: Sys, call: Runs.ApiCall): Account {
    match call
    case DoSpawn(spec, target, env) => SpawnAccount(SpawnOp(s, spec, target, None, env).1)
    case DoKill(rid, env) => KillAccount(rid, KillOp(s, rid, env).1)
    case DoMigrate(rid, target, menv) => MigrateAccount(s, rid, target, menv)
    case DoTick(tenv) => if ValidTick(s, tenv) then EventsAccount(TickOp(s, tenv).1) else NOTHING
    case _ => NOTHING
  }

  /** Everything the calls of a run report. */
  ghost function RunAccount(s: Sys, calls: seq<Runs.ApiCall>): Account
    decreases |calls|
  {
    if calls == [] then NOTHING else Both(CallAccount(s, calls[0]), RunAccount(Runs.Step(s, calls[0]), calls[1..]))
  }

  // ---- posting ------------------------------------------------------------------------------

  /** `rid` was issued and its node hosts it no longer. */
  ghost predicate Gone(w: World, rid: Rid) {
    rid.node in w.execs && rid.pid < w.execs[rid.node].nextPid && rid.pid !in w.execs[rid.node].processes
  }

  /** From `s` to `t` the table changed by exactly `a`; what was returned is new, and what was killed is gone. */
  ghost predicate Posted(s: Sys, t: Sys, a: Account) {
    && t.c.specs.Keys == s.c.specs.Keys + a.returned - a.killed - a.lost
    && a.returned !! s.w.births.Keys
    && a.returned + a.killed + a.lost <= t.w.births.Keys
    && forall rid :: rid in a.killed ==> Gone(t.w, rid)
  }

  lemma GoneStays(w: World, w': World, rid: Rid)
    requires Gone(w, rid) && Grows(w, w')
    ensures Gone(w', rid)
  {
    hide LogsGrow;
  }

  lemma BirthsStay(w: World, w': World)
    requires Grows(w, w')
    ensures w.births.Keys <= w'.births.Keys
  {
    hide LogsGrow;
  }

  /** Accounts add up: what a later call returns has not been killed or lost before. */
  lemma PostedBoth(s: Sys, t: Sys, u: Sys, a: Account, b: Account)
    requires Posted(s, t, a) && Posted(t, u, b) && Grows(s.w, t.w) && Grows(t.w, u.w)
    ensures Posted(s, u, Both(a, b))
  {
    hide Gone, Grows;
    BirthsStay(s.w, t.w);
    BirthsStay(t.w, u.w);
    forall rid | rid in a.killed ensures Gone(u.w, rid) { GoneStays(t.w, u.w, rid); }
  }

  lemma PostedNothing(s: Sys, t: Sys)
    requires t.c.specs == s.c.specs
    ensures Posted(s, t, NOTHING)
  {
  }

  lemma SpawnPosted(s: Sys, spec: Spec, target: Option<NodeId>, state: Option<Bytes>, env: CallEnv)
    requires Inv(s)
    ensures var (s', r) := SpawnOp(s, spec, target, state, env); Onward(s, s') && Posted(s, s', SpawnAccount(r))
  {
    hide Inv, SpawnOp, Chosen, Grows, Gone;
    var (s', r) := SpawnOp(s, spec, target, state, env);
    SpawnSafe(s, spec, target, state, env);
    if r.Ok? { FreshlyBorn(s, s', r.value); }
  }

  lemma KillPosted(s: Sys, rid: Rid, env: CallEnv)
    requires Inv(s)
    ensures var (s', r) := KillOp(s, rid, env); Onward(s, s') && Posted(s, s', KillAccount(rid, r))
  {
    hide Inv, KillOp, Grows;
    var (s', r) := KillOp(s, rid, env);
    KillSafe(s, rid, env);
    if r.Ok? { KilledIssued(s', s.c.nextRequest, rid); }
  }

  lemma KilledIssued(s: Sys, req: RequestId, rid: Rid)
    requires Inv(s) && Answered(s.w, req, rid.node, Kill(rid.pid)) && ReplyTo(s.w, req).ok
    ensures Issued(s.w, rid)
  {
    assert ServedOk(s.w, s.c.selfAddr, req) by { hide ServedOk; }
    hide ExecsOk, PacketsOk, CoordOk;
  }

  lemma MigratePosted(s: Sys, rid: Rid, target: Option<NodeId>, env: MigrateEnv)
    requires Inv(s)
    ensures Posted(s, MigrateOp(s, rid, target, env).0, MigrateAccount(s, rid, target, env))
  {
    hide Inv, Play, GetStateOp, SpawnOp, KillOp, Grows, Posted;
    var s0 := Play(s, env.pre);
    PlayKeeps(s, env.pre);
    PostedNothing(s, s0);
    if rid in s0.c.specs && target != Some(rid.node) {
      var (s1, got) := GetStateOp(s0, rid, env.getState);
      GetStateAnswered(s0, rid, env.getState);
      FollowsTransitive(s, s0, s1);
      PostedNothing(s, s1);
      if got.Ok? {
        var (s2, spawned) := SpawnOp(s1, s0.c.specs[rid], target, Some(got.value), env.spawn);
        SpawnPosted(s1, s0.c.specs[rid], target, Some(got.value), env.spawn);
        PostedBoth(s, s1, s2, NOTHING, SpawnAccount(spawned));
        assert Both(NOTHING, SpawnAccount(spawned)) == SpawnAccount(spawned);
        if spawned.Ok? {
          var doomed := if spawned.value.node == rid.node then spawned.value else rid;
          KillPosted(s2, doomed, env.kill);
          OnwardTransitive(s1, s2, KillOp(s2, doomed, env.kill).0);
          GrowsTransitive(s.w, s1.w, s2.w);
          PostedBoth(s, s2, KillOp(s2, doomed, env.kill).0, SpawnAccount(spawned),
                     KillAccount(doomed, KillOp(s2, doomed, env.kill).1));
        }
      }
    }
  }

  // ---- ticks --------------------------------------------------------------------------------

  lemma EventsBoth(xs: seq<Event>, ys: seq<Event>)
    ensures EventsAccount(xs + ys) == Both(EventsAccount(xs), EventsAccount(ys))
  {
  }

  /** The heir of a respawn that began in `s` is unknown in `s`. */
  lemma HeirUnborn(s: Sys, s': Sys, start: Moment, ttl: nat, e: Event)
    requires Inv(s) && Grows(s.w, s'.w) && e.Respawned? && EventTrue(s'.w, s.c.selfAddr, start, ttl, e)
    requires s.w.steps < e.asOf
    ensures e.heir !in s.w.births
  {
    hide ExecsOk, PacketsOk, CoordOk, ServedOk, LogsGrow, NewestUsable, WasHeld;
  }

  lemma RespawnPosted(s: Sys, rid: Rid, env: CallEnv, start: Moment)
    requires Inv(s) && rid in s.c.specs && Stocked(s, start) && NotAfter(start, s.w)
    ensures var (s', e) := Respawn(s, rid, s.c.specs[rid], env); Posted(s, s', EventsAccount([e]))
  {
    hide Inv, Grows, Stocked, EventTrue, SpawnOp, Gone;
    var (s', e) := Respawn(s, rid, s.c.specs[rid], env);
    RespawnSafe(s, rid, env, start);
    LostRecord(s, rid);
    BirthsStay(s.w, s'.w);
    if e.Respawned? {
      HeirUnborn(s, s', start, s'.c.checkpointTtl, e);
      HeirBorn(s'.w, s'.c.selfAddr, start, s'.c.checkpointTtl, e);
    }
    hide Respawn;
    assert EventsAccount([e]) == Account(if e.Respawned? then {e.heir} else {}, {}, {rid});
  }

  lemma HeirBorn(w: World, me: Addr, start: Moment, ttl: nat, e: Event)
    requires e.Respawned? && EventTrue(w, me, start, ttl, e)
    ensures e.heir in w.births
  {
  }

  lemma {:induction false} RespawnAllPosted(s: Sys, victims: map<Rid, Spec>, turns: seq<Turn>, start: Moment)
    requires Inv(s) && Stocked(s, start) && NotAfter(start, s.w)
    requires DistinctTurns(turns) && forall t :: t in turns ==> t.rid in victims
    requires forall rid :: rid in victims ==> Failover.Runs(s.c, rid, victims[rid])
    ensures var (s', events) := RespawnAll(s, victims, turns); Posted(s, s', EventsAccount(events))
    decreases |turns|
  {
    hide Inv, Posted, Respawn, EventTrue, Stocked, Accounted, Replay, Grows, EventsAccount;
    if turns == [] {
      assert EventsAccount([]) == NOTHING by { NoEvents(); }
      PostedNothing(s, s);
    } else {
      var k := |turns| - 1;
      var init, rid, env := turns[..k], turns[k].rid, turns[k].env;
      assert turns[k] in turns;
      RespawnAllPosted(s, victims, init, start);
      RespawnAllSafe(s, victims, init, start);
      var (s1, events) := RespawnAll(s, victims, init);
      assert forall i :: 0 <= i < k ==> init[i].rid != rid;
      RunsSpec(s1.c, rid, victims[rid]);
      assert NotAfter(start, s1.w) by { LaterClock(s, s1); }
      RespawnPosted(s1, rid, env, start);
      RespawnSafe(s1, rid, env, start);
      var (s2, e) := Respawn(s1, rid, victims[rid], env);
      PostedBoth(s, s1, s2, EventsAccount(events), EventsAccount([e]));
      EventsBoth(events, [e]);
    }
  }

  lemma NoEvents()
    ensures EventsAccount([]) == NOTHING
  {
  }

  lemma FailNodePosted(s: Sys, turn: NodeTurn, start: Moment)
    requires Inv(s) && Stocked(s, start) && NotAfter(start, s.w) && ValidTurn(s, turn)
    ensures var (s', events) := FailNode(s, turn); Posted(s, s', EventsAccount(events))
  {
    hide Inv, Posted, RespawnAll, Stocked, EventsAccount;
    var first := [NodeLost(turn.node)];
    assert EventsAccount(first) == NOTHING by { NodeEvent(turn.node); }
    PostedNothing(s, s);
    if s.c.failoverRespawn {
      var victims := Victims(s.c, turn.node);
      RespawnAllPosted(s, victims, turn.turns, start);
      var (s', events) := RespawnAll(s, victims, turn.turns);
      EventsBoth(first, events);
      assert Both(NOTHING, EventsAccount(events)) == EventsAccount(events);
    }
  }

  lemma NodeEvent(n: NodeId)
    ensures EventsAccount([NodeLost(n)]) == NOTHING
  {
  }

  lemma {:induction false} FailNodesPosted(s: Sys, turns: seq<NodeTurn>, start: Moment)
    requires Inv(s) && Stocked(s, start) && NotAfter(start, s.w) && ValidTurns(s, turns)
    ensures var (s', events) := FailNodes(s, turns); Posted(s, s', EventsAccount(events))
    decreases |turns|
  {
    hide Inv, Posted, Stocked, FailNode, ValidTurn, Accounted, Replay, EventsTrue, EventsAccount, Grows;
    if turns == [] {
      NoEvents();
      PostedNothing(s, s);
    } else {
      var k := |turns| - 1;
      FailNodesPosted(s, turns[..k], start);
      FailNodesSafe(s, turns[..k], start);
      var (s1, events) := FailNodes(s, turns[..k]);
      LaterClock(s, s1);
      FailNodePosted(s1, turns[k], start);
      FailNodeSafe(s1, turns[k], start);
      var (s2, more) := FailNode(s1, turns[k]);
      PostedBoth(s, s1, s2, EventsAccount(events), EventsAccount(more));
      EventsBoth(events, more);
    }
  }

  lemma TickPosted(s: Sys, env: TickEnv)
    requires Inv(s) && ValidTick(s, env)
    ensures var (s', events) := TickOp(s, env); Posted(s, s', EventsAccount(events))
  {
    hide Inv, Posted, Stocked, Play, ValidTurns, FailNodes, EventsTrue, Detect, Accounted, Replay, EventsAccount, Grows,
         Silent;
    var t := Detect(s, env.pre);
    DetectKeeps(s, env.pre);
    PostedNothing(s, t);
    FailNodesPosted(t, env.nodeTurns, StartOf(s, env.pre));
    FailNodesSafe(t, env.nodeTurns, StartOf(s, env.pre));
    var (s', events) := TickOp(s, env);
    PostedBoth(s, t, s', NOTHING, EventsAccount(events));
    assert Both(NOTHING, EventsAccount(events)) == EventsAccount(events);
  }

  // ---- runs ---------------------------------------------------------------------------------

  lemma CallPosted(s: Sys, call: Runs.ApiCall)
    requires Inv(s)
    ensures Posted(s, Runs.Step(s, call), CallAccount(s, call))
  {
    hide Inv, Posted, Play, SpawnOp, KillOp, SetPriorityOp, GetStateOp, MigrateOp, TickOp, Onward, ValidTick,
         MigrateAccount, SpawnAccount, KillAccount, EventsAccount;
    match call
    case DoProcessEvents(evs) => PlayKeeps(s, evs); SameTable(s, Play(s, evs));
    case DoSpawn(spec, target, env) => SpawnPosted(s, spec, target, None, env);
    case DoKill(rid, env) => KillPosted(s, rid, env);
    case DoSetPriority(rid, priority, env) =>
      SetPriorityAnswered(s, rid, priority, env);
      SameTable(s, SetPriorityOp(s, rid, priority, env).0);
    case DoGetState(rid, env) => GetStateAnswered(s, rid, env); SameTable(s, GetStateOp(s, rid, env).0);
    case DoMigrate(rid, target, menv) => MigratePosted(s, rid, target, menv);
    case DoTick(tenv) => if ValidTick(s, tenv) { TickPosted(s, tenv); } else { PostedNothing(s, s); }
  }

  lemma SameTable(s: Sys, t: Sys)
    requires Follows(s, t)
    ensures Posted(s, t, NOTHING)
  {
    hide Inv, Grows, Posted;
    PostedNothing(s, t);
  }

  lemma {:induction false} RunPosted(s: Sys, calls: seq<Runs.ApiCall>)
    requires Inv(s)
    ensures Posted(s, Runs.Run(s, calls), RunAccount(s, calls))
    decreases |calls|
  {
    hide Inv, Posted, Runs.Step, CallAccount, Grows;
    if calls == [] {
      PostedNothing(s, s);
    } else {
      var t := Runs.Step(s, calls[0]);
      CallPosted(s, calls[0]);
      Runs.StepKeeps(s, calls[0]);
      RunPosted(t, calls[1..]);
      Runs.RunKeeps(t, calls[1..]);
      PostedBoth(s, t, Runs.Run(s, calls), CallAccount(s, calls[0]), RunAccount(t, calls[1..]));
    }
  }

  /** `rid` runs on its node because this coordinator asked for it, and is not tracked. */
  ghost predicate Orphan(s: Sys, rid: Rid) {
    && rid.node in s.w.execs && rid.pid in s.w.execs[rid.node].processes
    && rid in s.w.births && s.w.births[rid].from == s.c.selfAddr && rid !in s.c.specs
  }

  /** After every run from a fresh coordinator, the table holds exactly the processes that some spawn returned and that
      no kill has confirmed and no tick has reported lost. A process left running untracked belongs to a request that
      was sent; its spawn did not return it, or a tick reported it lost. */
  lemma TableExact(s: Sys, calls: seq<Runs.ApiCall>)
    requires Runs.Initial(s)
    ensures var t, a := Runs.Run(s, calls), RunAccount(s, calls);
            && t.c.specs.Keys == a.returned - a.killed - a.lost
            && forall rid :: Orphan(t, rid) ==> t.w.births[rid].req in t.w.sent && (rid !in a.returned || rid in a.lost)
  {
    hide Runs.Initial, Runs.Run, RunAccount, Inv, Grows, Onward, Posted, Orphan;
    Runs.InitialInv(s);
    StartsEmpty(s);
    RunPosted(s, calls);
    Runs.ReachedInv(s, calls);
    var t, a := Runs.Run(s, calls), RunAccount(s, calls);
    PostedFromEmpty(s, t, a);
    forall rid | Orphan(t, rid)
      ensures rid in t.w.births && t.w.births[rid].req in t.w.sent && (rid !in a.returned || rid in a.lost)
    {
      OrphanAsked(s, t, a, rid);
    }
  }

  lemma StartsEmpty(s: Sys)
    requires Runs.Initial(s)
    ensures s.c.specs == map[]
  {
  }

  lemma PostedFromEmpty(s: Sys, t: Sys, a: Account)
    requires Posted(s, t, a) && s.c.specs == map[]
    ensures t.c.specs.Keys == a.returned - a.killed - a.lost
  {
  }

  lemma OrphanAsked(s: Sys, t: Sys, a: Account, rid: Rid)
    requires Inv(t) && Posted(s, t, a) && Orphan(t, rid)
    ensures rid in t.w.births && t.w.births[rid].req in t.w.sent && (rid !in a.returned || rid in a.lost)
  {
    hide ExecsOk, PacketsOk, CoordOk, ServedOk;
  }
}
