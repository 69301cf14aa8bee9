/** Whole runs of the coordinator: any calls, in any order, under any schedules. */
module ClusterRuns {
  import opened Common
  import opened ClusterTypes
  import opened Executor
  import opened ClusterModel
  import opened ClusterInvariant
  import opened ClusterSteps
  import opened ClusterCalls
  import opened ClusterOps
  import opened Migration
  import opened Failover

  datatype ApiCall =
    | DoProcessEvents(evs: Schedule)
    | DoSpawn(spec: Spec, target: Option<NodeId>, env: CallEnv)
    | DoKill(rid: Rid, env: CallEnv)
    | DoSetPriority(rid: Rid, priority: nat, env: CallEnv)
    | DoGetState(rid: Rid, env: CallEnv)
    | DoMigrate(rid: Rid, target: Option<NodeId>, menv: MigrateEnv)
    | DoTick(tenv: TickEnv)

  ghost function Step(s: Sys, call: ApiCall): Sys {
    match call
    case DoProcessEvents(evs) => Play(s, evs)
    case DoSpawn(spec, target, env) => SpawnOp(s, spec, target, None, env).0
    case DoKill(rid, env) => KillOp(s, rid, env).0
    case DoSetPriority(rid, priority, env) => SetPriorityOp(s, rid, priority, env).0
    case DoGetState(rid, env) => GetStateOp(s, rid, env).0
    case DoMigrate(rid, target, menv) => MigrateOp(s, rid, target, menv).0
    case DoTick(tenv) => if ValidTick(s, tenv) then TickOp(s, tenv).0 else s
  }

  ghost function Run(s: Sys, calls: seq<ApiCall>): Sys
    decreases |calls|
  {
    if calls == [] then s else Run(Step(s, calls[0]), calls[1..])
  }

  /** A fresh coordinator among peers that have hosted nothing yet. */
  ghost predicate Initial(s: Sys) {
    && s.c.nodes == map[] && s.c.remote == map[] && s.c.specs == map[] && s.c.pending.None? && s.c.checkpoints == map[]
    && s.w.packets == map[] && s.w.sent == map[] && s.w.served == map[] && s.w.acked == map[] && s.w.births == map[]
    && s.w.held == map[] && s.w.delivered == map[]
    && "" !in s.w.nodeAt && s.c.selfAddr in s.w.nodeAt && s.w.nodeAt[s.c.selfAddr] == s.c.selfId
    && forall n :: n in s.w.execs ==> s.w.execs[n] == EMPTY
  }

  lemma StepKeeps(s: Sys, call: ApiCall)
    requires Inv(s)
    ensures Onward(s, Step(s, call))
  {
    hide Inv, Play, SpawnOp, KillOp, SetPriorityOp, GetStateOp, MigrateOp, TickOp, Onward, Follows, ValidTick;
    match call
    case DoProcessEvents(evs) => PlayKeeps(s, evs); FollowsOnward(s, Play(s, evs));
    case DoSpawn(spec, target, env) => SpawnOnward(s, spec, target, env);
    case DoKill(rid, env) => KillSafe(s, rid, env);
    case DoSetPriority(rid, priority, env) =>
      SetPriorityAnswered(s, rid, priority, env);
      FollowsOnward(s, Step(s, call));
    case DoGetState(rid, env) => GetStateAnswered(s, rid, env); FollowsOnward(s, Step(s, call));
    case DoMigrate(rid, target, menv) => MigrateSafe(s, rid, target, menv);
    case DoTick(tenv) =>
      if ValidTick(s, tenv) { TickSafe(s, tenv); } else { SelfFollows(s); FollowsOnward(s, s); }
  }

  lemma SpawnOnward(s: Sys, spec: Spec, target: Option<NodeId>, env: CallEnv)
    requires Inv(s)
    ensures Onward(s, SpawnOp(s, spec, target, None, env).0)
  {
    hide Inv, SpawnOp, Onward, Follows, Spawned;
    SpawnSafe(s, spec, target, None, env);
  }

  /** Every reachable state satisfies the invariant. */
  lemma {:induction false} RunKeeps(s: Sys, calls: seq<ApiCall>)
    requires Inv(s)
    ensures Onward(s, Run(s, calls))
    decreases |calls|
  {
    if calls == [] {
      SelfFollows(s);
      FollowsOnward(s, s);
    } else {
      hide Step;
      StepKeeps(s, calls[0]);
      RunKeeps(Step(s, calls[0]), calls[1..]);
      OnwardTransitive(s, Step(s, calls[0]), Run(s, calls));
    }
  }

  lemma ReachedInv(s: Sys, calls: seq<ApiCall>)
    requires Inv(s)
    ensures Inv(Run(s, calls))
  {
    hide Inv, Run, Grows;
    RunKeeps(s, calls);
  }

  /** In every reachable state the tables are sound: tracked specs are listed, every listed process
      was issued by its node and its pid is below the next one, a tracked process was started for this
      coordinator with exactly the tracked spec, and each executor's two maps agree. */
  lemma ReachableSound(s: Sys, calls: seq<ApiCall>)
    requires Initial(s)
    ensures var t := Run(s, calls);
            && t.c.specs.Keys <= t.c.remote.Keys
            && (forall rid :: rid in t.c.remote ==> rid.node in t.w.execs && 1 <= rid.pid < t.w.execs[rid.node].nextPid)
            && (forall rid :: rid in t.c.specs ==>
                  rid in t.w.births && t.w.births[rid].from == t.c.selfAddr && t.w.births[rid].spec == t.c.specs[rid])
            && (forall n :: n in t.w.execs ==> t.w.execs[n].processes.Keys == t.w.execs[n].states.Keys)
  {
    InitialInv(s);
    RunKeeps(s, calls);
    hide Run, Initial;
    InvSound(Run(s, calls));
  }

  lemma InitialInv(s: Sys)
    requires Initial(s)
    ensures Inv(s)
  {
  }

  lemma InvSound(t: Sys)
    requires Inv(t)
    ensures t.c.specs.Keys <= t.c.remote.Keys
    ensures forall rid :: rid in t.c.remote ==> rid.node in t.w.execs && 1 <= rid.pid < t.w.execs[rid.node].nextPid
    ensures forall rid :: rid in t.c.specs ==>
              rid in t.w.births && t.w.births[rid].from == t.c.selfAddr && t.w.births[rid].spec == t.c.specs[rid]
    ensures forall n :: n in t.w.execs ==> t.w.execs[n].processes.Keys == t.w.execs[n].states.Keys
  {
    assert forall rid :: rid in t.c.specs ==> Tracked(t.w, t.c, rid);
    hide PacketsOk, HistoryOk, NodesOk, CheckpointsOk;
  }
}
