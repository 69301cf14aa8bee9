/** Relocating a tracked process: snapshot, spawn elsewhere, then kill the source. */
module Migration {
  import opened Common
  import opened ClusterTypes
  import opened Executor
  import opened ClusterModel
  import opened ClusterInvariant
  import opened ClusterSteps
  import opened ClusterCalls
  import opened ClusterOps

  datatype MigrateEnv = MigrateEnv(pre: Schedule, getState: CallEnv, spawn: CallEnv, kill: CallEnv)

  /** The destination answered; either give up the new copy or terminate the source. */
  function Settle(s: Sys, rid: Rid, newRid: Rid, env: CallEnv): (Sys, Result<Rid, Error>) {
    if newRid.node == rid.node then (KillOp(s, newRid, env).0, Err(NoOtherNode)) else
    var (s', killed) := KillOp(s, rid, env);
    (s', match killed case Ok(_) => Ok(newRid) case Err(e) => Err(SourceNotKilled(newRid, e)))
  }

  ghost function MigrateOp(s: Sys, rid: Rid, target: Option<NodeId>, env: MigrateEnv): (Sys, Result<Rid, Error>) {
    var s0 := Play(s, env.pre);
    if rid !in s0.c.specs then (s0, Err(NotTracked)) else
    if target == Some(rid.node) then (s0, Err(SourceIsTarget)) else
    var (s1, got) := GetStateOp(s0, rid, env.getState);
    if got.Err? then (s1, Err(got.error)) else
    var (s2, spawned) := SpawnOp(s1, s0.c.specs[rid], target, Some(got.value), env.spawn);
    if spawned.Err? then (s2, Err(spawned.error)) else
    Settle(s2, rid, spawned.value, env.kill)
  }

  /** The kill of `rid` was sent, and served, only after the acknowledgement of request `spawnReq` had arrived. */
  ghost predicate KilledAfter(w: World, rid: Rid, spawnReq: RequestId, killReq: RequestId) {
    && spawnReq in w.acked && Answered(w, killReq, rid.node, Kill(rid.pid)) && ReplyTo(w, killReq).ok
    && w.acked[spawnReq] < w.sent[killReq].at < w.served[killReq].at
  }

  /** Request `req`, sent after step `since`, fetched `bytes`: what `rid` held when its node served the request. */
  ghost predicate Fetched(w: World, rid: Rid, req: RequestId, bytes: Bytes, since: nat) {
    && Answered(w, req, rid.node, GetState(rid.pid)) && since < w.sent[req].at < w.served[req].at <= w.steps
    && ReplyTo(w, req) == GetStateReply(true, bytes, ReplyTo(w, req).error)
    && HeldThen(w, rid, w.served[req].at, bytes)
  }

  /** The snapshot `newRid` was born with had been fetched from `rid` by request `getReq`, whose reply was there before
      the spawn was sent. */
  ghost predicate Carried(w: World, rid: Rid, newRid: Rid, getReq: RequestId, since: nat)
    requires newRid in w.births
  {
    && Fetched(w, rid, getReq, w.births[newRid].snapshot, since)
    && w.births[newRid].req in w.sent && w.acked[getReq] < w.sent[w.births[newRid].req].at
  }

  /** `newRid` took over from `rid`: another node, the same spec, the bytes `rid` held when it was asked for them during
      this migration, and the source is gone. */
  ghost predicate TookOver(s: Sys, s': Sys, rid: Rid, newRid: Rid) {
    && rid in s.c.specs && newRid !in s.c.specs && newRid.node != rid.node
    && s'.c.specs == s.c.specs[newRid := s.c.specs[rid]] - {rid}
    && Issued(s'.w, rid) && Issued(s'.w, newRid)
    && s'.w.births[newRid].spec == s.c.specs[rid]
    && (exists getReq :: Carried(s'.w, rid, newRid, getReq, s.w.steps))
    && rid.pid !in s'.w.execs[rid.node].processes
    && exists killReq :: KilledAfter(s'.w, rid, s'.w.births[newRid].req, killReq)
  }

  /** A failed migration loses nothing: every tracked process keeps its spec, and the only thing
      that can have appeared is one further copy of the source. */
  ghost predicate NothingLost(s: Sys, s': Sys, rid: Rid, e: Error) {
    || s'.c.specs == s.c.specs
    || (&& rid in s.c.specs && (e == NoOtherNode || e.SourceNotKilled?)
        && exists newRid :: newRid !in s.c.specs && s'.c.specs == s.c.specs[newRid := s.c.specs[rid]])
  }

  lemma AckedBefore(s: Sys, s': Sys, req: RequestId)
    requires Inv(s) && Grows(s.w, s'.w) && req in s.w.acked
    ensures req in s'.w.acked && s'.w.acked[req] <= s.w.steps
  {
    hide ExecsOk, PacketsOk, CoordOk, ServedOk;
  }

  lemma ServedAfterSent(s: Sys, req: RequestId)
    requires Inv(s) && req in s.w.served
    ensures req in s.w.sent && s.w.sent[req].at < s.w.served[req].at <= s.w.steps
  {
    hide ExecsOk, PacketsOk, CoordOk;
    assert ServedOk(s.w, s.c.selfAddr, req);
  }

  lemma FetchedGrows(w: World, w': World, rid: Rid, req: RequestId, bytes: Bytes, since: nat)
    requires Fetched(w, rid, req, bytes, since) && Grows(w, w')
    ensures Fetched(w', rid, req, bytes, since)
  {
    assert rid in w.held && rid in w'.held;
    LatestStays(w.held[rid], w'.held[rid], w.steps, w.served[req].at);
    hide LogsGrow;
  }

  lemma SettleSafe(s: Sys, s2: Sys, rid: Rid, newRid: Rid, getReq: RequestId, bytes: Bytes, req: RequestId,
                   env: CallEnv)
    requires Inv(s2) && rid in s.c.specs && Issued(s2.w, rid) && newRid in s2.w.births
    requires Carried(s2.w, rid, newRid, getReq, s.w.steps)
    requires Spawned(s, s2, req, newRid, s.c.specs[rid], Some(bytes))
    ensures var (s', r) := Settle(s2, rid, newRid, env);
            && Onward(s2, s')
            && (r.Ok? ==> r.value == newRid && TookOver(s, s', rid, newRid))
            && (r.Err? ==> NothingLost(s, s', rid, r.error))
  {
    hide Inv, KillOp, TookOver, Grows, Issued, Carried;
    if newRid.node == rid.node {
      KillSafe(s2, newRid, env);
      assert s.c.specs[newRid := s.c.specs[rid]] - {newRid} == s.c.specs;
    } else {
      KillSafe(s2, rid, env);
      if KillOp(s2, rid, env).1.Ok? { SourceKilled(s, s2, KillOp(s2, rid, env).0, rid, newRid, getReq, bytes, req); }
    }
  }

  lemma SourceKilled(s: Sys, s2: Sys, s': Sys, rid: Rid, newRid: Rid, getReq: RequestId, bytes: Bytes, req: RequestId)
    requires Inv(s2) && rid in s.c.specs && Issued(s2.w, rid) && newRid in s2.w.births
    requires Carried(s2.w, rid, newRid, getReq, s.w.steps)
    requires Spawned(s, s2, req, newRid, s.c.specs[rid], Some(bytes)) && newRid.node != rid.node
    requires Onward(s2, s') && s'.c.specs == s2.c.specs - {rid}
    requires rid.node in s'.w.execs && rid.pid !in s'.w.execs[rid.node].processes
    requires ControlAnswer(s'.w, s2.c.nextRequest, rid.node, Kill(rid.pid), s2.w.steps, Ok(()))
    ensures TookOver(s, s', rid, newRid)
  {
    hide Inv, Fetched;
    AckedBefore(s2, s', req);
    ServedAfterSent(s', s2.c.nextRequest);
    FetchedGrows(s2.w, s'.w, rid, getReq, s2.w.births[newRid].snapshot, s.w.steps);
    FetchedIsAcked(s2.w, rid, getReq, s2.w.births[newRid].snapshot, s.w.steps);
    hide LogsGrow;
    assert Issued(s'.w, rid) && Issued(s'.w, newRid);
    assert s'.w.births[newRid] == s2.w.births[newRid];
    assert Carried(s'.w, rid, newRid, getReq, s.w.steps);
    hide Grows, Carried;
    assert KilledAfter(s'.w, rid, req, s2.c.nextRequest);
  }

  lemma FetchedIsAcked(w: World, rid: Rid, req: RequestId, bytes: Bytes, since: nat)
    requires Fetched(w, rid, req, bytes, since)
    ensures req in w.acked
  {
  }

  /** Migration is safe on every path and under every schedule. */
  lemma MigrateSafe(s: Sys, rid: Rid, target: Option<NodeId>, env: MigrateEnv)
    requires Inv(s)
    ensures var (s', r) := MigrateOp(s, rid, target, env);
            && Onward(s, s')
            && (r.Ok? ==> TookOver(s, s', rid, r.value) && (target.Some? ==> r.value.node == target.value))
            && (r.Err? ==> NothingLost(s, s', rid, r.error))
  {
    hide Inv, Grows, Play, GetStateOp, SpawnOp, Settle, Onward, TookOver;
    var s0 := Play(s, env.pre);
    PlayKeeps(s, env.pre);
    FollowsOnward(s, s0);
    if rid in s0.c.specs && target != Some(rid.node) {
      var (s1, got) := GetStateOp(s0, rid, env.getState);
      GetStateAnswered(s0, rid, env.getState);
      FollowsTransitive(s, s0, s1);
      FollowsOnward(s, s1);
      if got.Ok? {
        FetchDone(s, s0, s1, rid, got.value);
        MigrateSpawned(s, s1, rid, target, s0.c.nextRequest, got.value, env);
      }
    }
  }

  /** The answer to the get-state request, put as a fetch. */
  lemma FetchDone(s: Sys, s0: Sys, s1: Sys, rid: Rid, bytes: Bytes)
    requires Grows(s.w, s0.w) && Inv(s1)
    requires Answered(s1.w, s0.c.nextRequest, rid.node, GetState(rid.pid))
    requires s0.w.steps < s1.w.sent[s0.c.nextRequest].at
    requires ReplyTo(s1.w, s0.c.nextRequest) == GetStateReply(true, bytes, ReplyTo(s1.w, s0.c.nextRequest).error)
    requires HeldThen(s1.w, rid, s1.w.served[s0.c.nextRequest].at, bytes)
    ensures Fetched(s1.w, rid, s0.c.nextRequest, bytes, s.w.steps)
  {
    ServedAfterSent(s1, s0.c.nextRequest);
    hide Inv, LogsGrow, HeldThen;
  }

  lemma MigrateSpawned(s: Sys, s1: Sys, rid: Rid, target: Option<NodeId>, getReq: RequestId, bytes: Bytes,
                       env: MigrateEnv)
    requires Inv(s) && Follows(s, s1) && rid in s.c.specs && Issued(s1.w, rid)
    requires Fetched(s1.w, rid, getReq, bytes, s.w.steps)
    ensures var (s2, spawned) := SpawnOp(s1, s.c.specs[rid], target, Some(bytes), env.spawn);
            if spawned.Err? then Onward(s, s2) && s2.c.specs == s.c.specs
            else var (s', r) := Settle(s2, rid, spawned.value, env.kill);
              && Onward(s, s')
              && (r.Ok? ==> TookOver(s, s', rid, r.value) && (target.Some? ==> r.value.node == target.value))
              && (r.Err? ==> NothingLost(s, s', rid, r.error))
  {
    hide Inv, SpawnOp, Settle, TookOver, NothingLost, Fetched;
    var spec := s.c.specs[rid];
    var (s2, spawned) := SpawnOp(s1, spec, target, Some(bytes), env.spawn);
    SpawnSafe(s1, spec, target, Some(bytes), env.spawn);
    FollowsOnward(s, s1);
    OnwardTransitive(s, s1, s2);
    if spawned.Ok? {
      var req := s1.c.nextRequest;
      assert Spawned(s, s2, req, spawned.value, spec, Some(bytes));
      assert Issued(s2.w, rid);
      FetchedGrows(s1.w, s2.w, rid, getReq, bytes, s.w.steps);
      FetchedIsAcked(s1.w, rid, getReq, bytes, s.w.steps);
      AckedBefore(s1, s2, getReq);
      assert Carried(s2.w, rid, spawned.value, getReq, s.w.steps);
      SettleSafe(s, s2, rid, spawned.value, getReq, bytes, req, env.kill);
      OnwardTransitive(s, s2, Settle(s2, rid, spawned.value, env.kill).0);
    }
  }
}
