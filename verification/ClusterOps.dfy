/** Spawn, kill, priority and snapshot, as the coordinator offers them. */
module ClusterOps {
  import opened Common
  import opened ClusterTypes
  import opened Executor
  import opened ClusterModel
  import opened ClusterInvariant
  import opened ClusterSteps
  import opened ClusterCalls
  import Placement

  /** The coordinator after `process_events` and after emptying the slot of `kind`. */
  function Ready(s: Sys, kind: Kind, pre: Schedule): Sys {
    var t := Play(s, pre);
    t.(c := Clear(t.c, kind))
  }

  ghost function Place(c: Coord, spec: Spec, target: Option<NodeId>): (Coord, Option<NodeId>) {
    if target.Some? then (c, target) else
    var (cursor, pick) := Placement.Select(c.nodes, c.selfId, c.strategy, c.rrCursor, spec);
    (c.(rrCursor := cursor), pick)
  }

  function Track(c: Coord, rid: Rid, spec: Spec): Coord {
    c.(remote := c.remote[rid := Status(rid, spec.name, "Running", spec.ramMb)], specs := c.specs[rid := spec])
  }

  /** The wait is over: take the slot and, on success, track the new process. */
  function Finish(s2: Sys, failed: Option<Error>, spec: Spec): (Sys, Result<Rid, Error>) {
    if failed.Some? then (s2, Err(failed.value)) else
    if s2.c.spawnResult.None? then (s2, Err(TimedOut)) else
    var c3 := s2.c.(spawnResult := None);
    var r := s2.c.spawnResult.value;
    (s2.(c := if r.Ok? then Track(c3, r.value, spec) else c3), r)
  }

  ghost function SpawnOp(s: Sys, spec: Spec, target: Option<NodeId>, state: Option<Bytes>, env: CallEnv)
    : (Sys, Result<Rid, Error>)
  {
    var s0 := Ready(s, KSpawn(0), env.pre);
    var (c1, node) := Place(s0.c, spec, target);
    var s1 := s0.(c := c1);
    if node.None? then (s1, Err(NoNode)) else
    var (s2, failed) := Call(s1, node.value, KSpawn(node.value), Spawn(spec, state), env);
    Finish(s2, failed, spec)
  }

  function Untrack(c: Coord, rid: Rid): Coord {
    c.(remote := c.remote - {rid}, specs := c.specs - {rid}, checkpoints := c.checkpoints - {rid})
  }

  function Control(s: Sys, node: NodeId, kind: Kind, body: Request, env: CallEnv): (Sys, Result<(), Error>) {
    var (s2, failed) := Call(Ready(s, kind, env.pre), node, kind, body, env);
    if failed.Some? then (s2, Err(failed.value)) else
    if s2.c.ctrlResult.None? then (s2, Err(TimedOut)) else
    (s2.(c := s2.c.(ctrlResult := None)), s2.c.ctrlResult.value)
  }

  function KillOp(s: Sys, rid: Rid, env: CallEnv): (Sys, Result<(), Error>) {
    var (s2, r) := Control(s, rid.node, KKill, Kill(rid.pid), env);
    (if r.Ok? then s2.(c := Untrack(s2.c, rid)) else s2, r)
  }

  function SetPriorityOp(s: Sys, rid: Rid, priority: nat, env: CallEnv): (Sys, Result<(), Error>) {
    Control(s, rid.node, KSetPriority, SetPriority(rid.pid, priority), env)
  }

  function GetStateOp(s: Sys, rid: Rid, env: CallEnv): (Sys, Result<Bytes, Error>) {
    var (s2, failed) := Call(Ready(s, KGetState, env.pre), rid.node, KGetState, GetState(rid.pid), env);
    if failed.Some? then (s2, Err(failed.value)) else
    if s2.c.getStateResult.None? then (s2, Err(TimedOut)) else
    (s2.(c := s2.c.(getStateResult := None)), s2.c.getStateResult.value)
  }

  // ---- each call's result is its own request's answer ---------------------------------------

  lemma ClearSlots(c: Coord, kind: Kind)
    ensures OnlySlots(c, Clear(c, kind)) && !Filled(Clear(c, kind), kind) && Clear(c, kind).nextRequest == c.nextRequest
  {
  }

  lemma ReadyKeeps(s: Sys, kind: Kind, pre: Schedule)
    requires Inv(s)
    ensures var t := Ready(s, kind, pre);
            Follows(s, t) && !Filled(t.c, kind) && t.c.nextRequest == s.c.nextRequest
  {
    hide Inv, Play, Grows, SameBooks, Clear, OnlySlots, Filled;
    var p, t := Play(s, pre), Ready(s, kind, pre);
    PlayKeeps(s, pre);
    ClearSlots(p.c, kind);
    SlotsKeep(p, t.c);
    FollowsTransitive(s, p, t);
  }

  /** Only slots or the cursor differ. */
  ghost predicate OnlySlots(c: Coord, c': Coord) {
    c' == c.(spawnResult := c'.spawnResult, ctrlResult := c'.ctrlResult, getStateResult := c'.getStateResult,
             rrCursor := c'.rrCursor)
  }

  lemma SlotsKeep(s: Sys, c': Coord)
    requires Inv(s) && OnlySlots(s.c, c')
    ensures Follows(s, Sys(c', s.w))
  {
    hide ExecsOk, PacketsOk, HistoryOk, TablesOk, Issued;
    TablesMove(s.w, s.c, c');
    BooksKeep(s, c');
  }

  /** The reply that request `req` received. */
  ghost function ReplyTo(w: World, req: RequestId): Reply
    requires req in w.served
  {
    w.served[req].reply
  }

  /** `r` is exactly what `node` answered to request `req`, which was sent after step `since`. */
  ghost predicate ControlAnswer(w: World, req: RequestId, node: NodeId, body: Request, since: nat,
                                r: Result<(), Error>)
  {
    r.Ok? || r.error.Rejected? ==>
      && Answered(w, req, node, body) && w.sent[req].at > since
      && r == Verdict(ReplyTo(w, req).ok, (), ReplyTo(w, req).error)
  }

  lemma ControlAnswered(s: Sys, node: NodeId, kind: Kind, body: Request, env: CallEnv)
    requires Inv(s) && (kind == KKill || kind == KSetPriority) && KindFits(kind, Sent(node, body, 0))
    ensures var (s', r) := Control(s, node, kind, body, env);
            Follows(s, s') && ControlAnswer(s'.w, s.c.nextRequest, node, body, s.w.steps, r)
  {
    hide Inv;
    var t := Ready(s, kind, env.pre);
    ReadyKeeps(s, kind, env.pre);
    var (s2, failed) := Call(t, node, kind, body, env);
    CallAnswered(t, node, kind, body, env);
    FollowsTransitive(s, t, s2);
    var s3 := Control(s, node, kind, body, env).0;
    SlotsKeep(s2, s3.c);
    FollowsTransitive(s, s2, s3);
    hide Call, Ready;
  }

  /** `s'` is a later state of the same coordinator, whatever happened to its tracking table. */
  ghost predicate Onward(s: Sys, s': Sys) {
    && Inv(s') && Grows(s.w, s'.w)
    && s'.c.selfId == s.c.selfId && s'.c.selfAddr == s.c.selfAddr && s'.c.strategy == s.c.strategy
    && s.c.nextRequest <= s'.c.nextRequest
    && s'.c.failoverRespawn == s.c.failoverRespawn && s'.c.failoverThreshold == s.c.failoverThreshold
    && s'.c.checkpointTtl == s.c.checkpointTtl
  }

  lemma FollowsOnward(s: Sys, s': Sys)
    requires Follows(s, s')
    ensures Onward(s, s')
  {
    hide Inv, Grows;
  }

  lemma OnwardTransitive(s: Sys, s1: Sys, s2: Sys)
    requires Onward(s, s1) && Onward(s1, s2)
    ensures Onward(s, s2)
  {
    GrowsTransitive(s.w, s1.w, s2.w);
    hide Inv, Grows;
  }

  lemma UntrackKeeps(s: Sys, rid: Rid)
    requires Inv(s)
    ensures Onward(s, s.(c := Untrack(s.c, rid)))
  {
    hide ExecsOk, PacketsOk, HistoryOk, Issued;
    var c' := Untrack(s.c, rid);
    forall r | r in c'.specs ensures Tracked(s.w, c', r) { assert Tracked(s.w, s.c, r); }
    hide Tracked;
  }

  /** Kill: an unsuccessful call leaves the table alone; a successful one removes exactly `rid`, whose
      process is gone from its node for good. */
  lemma KillSafe(s: Sys, rid: Rid, env: CallEnv)
    requires Inv(s)
    ensures var (s', r) := KillOp(s, rid, env);
            && Onward(s, s')
            && ControlAnswer(s'.w, s.c.nextRequest, rid.node, Kill(rid.pid), s.w.steps, r)
            && (r.Err? ==> Follows(s, s'))
            && (r.Ok? ==>
                  && s'.c.specs == s.c.specs - {rid}
                  && rid.node in s'.w.execs && rid.pid !in s'.w.execs[rid.node].processes)
  {
    var (s2, r) := Control(s, rid.node, KKill, Kill(rid.pid), env);
    ControlAnswered(s, rid.node, KKill, Kill(rid.pid), env);
    FollowsOnward(s, s2);
    if r.Ok? {
      assert ServedOk(s2.w, s2.c.selfAddr, s.c.nextRequest) by { hide ServedOk; }
      UntrackKeeps(s2, rid);
      OnwardTransitive(s, s2, KillOp(s, rid, env).0);
    }
    hide Inv, Control, Grows;
  }

  /** Priority: a successful call means that the node left the process with the clamped priority. */
  lemma SetPriorityAnswered(s: Sys, rid: Rid, priority: nat, env: CallEnv)
    requires Inv(s)
    ensures var (s', r) := SetPriorityOp(s, rid, priority, env);
            && Follows(s, s')
            && ControlAnswer(s'.w, s.c.nextRequest, rid.node, SetPriority(rid.pid, priority), s.w.steps, r)
            && (r.Ok? ==>
                  && Issued(s'.w, rid) && s'.w.served[s.c.nextRequest].left.Some?
                  && s'.w.served[s.c.nextRequest].left.value.priority == Clamped(priority))
  {
    var (s', r) := SetPriorityOp(s, rid, priority, env);
    ControlAnswered(s, rid.node, KSetPriority, SetPriority(rid.pid, priority), env);
    if r.Ok? {
      assert ServedOk(s'.w, s'.c.selfAddr, s.c.nextRequest) by { hide ServedOk; }
    }
    hide Inv, Control, Grows;
  }

  /** Get-state: the bytes returned are those the node gave for this request, and they are what process `rid` held
      when its node served it. */
  lemma GetStateAnswered(s: Sys, rid: Rid, env: CallEnv)
    requires Inv(s)
    ensures var (s', r) := GetStateOp(s, rid, env);
            && Follows(s, s')
            && (r.Ok? || r.error.Rejected? ==>
                  && Answered(s'.w, s.c.nextRequest, rid.node, GetState(rid.pid))
                  && ReplyTo(s'.w, s.c.nextRequest).GetStateReply?
                  && r == Verdict(ReplyTo(s'.w, s.c.nextRequest).ok, ReplyTo(s'.w, s.c.nextRequest).state,
                                  ReplyTo(s'.w, s.c.nextRequest).error))
            && (r.Ok? ==>
                  && Issued(s'.w, rid) && s.w.steps < s'.w.sent[s.c.nextRequest].at
                  && HeldThen(s'.w, rid, s'.w.served[s.c.nextRequest].at, r.value))
  {
    var t := Ready(s, KGetState, env.pre);
    ReadyKeeps(s, KGetState, env.pre);
    var (s2, failed) := Call(t, rid.node, KGetState, GetState(rid.pid), env);
    CallAnswered(t, rid.node, KGetState, GetState(rid.pid), env);
    FollowsTransitive(s, t, s2);
    var (s3, r) := GetStateOp(s, rid, env);
    SlotsKeep(s2, s3.c);
    FollowsTransitive(s, s2, s3);
    if r.Ok? {
      assert ServedOk(s3.w, s3.c.selfAddr, s.c.nextRequest) by { hide ServedOk; }
    }
    hide Inv, Call, Ready, Grows;
  }

  lemma TrackKeeps(s: Sys, rid: Rid, spec: Spec)
    requires Inv(s) && Issued(s.w, rid)
    requires s.w.births[rid].from == s.c.selfAddr && s.w.births[rid].req < s.c.nextRequest
    requires s.w.births[rid].spec == spec
    requires rid !in s.c.checkpoints ==> LogOf(s.w.delivered, rid) == []
    ensures Onward(s, s.(c := Track(s.c, rid, spec)))
  {
    hide ExecsOk, PacketsOk, HistoryOk, Issued;
    var c' := Track(s.c, rid, spec);
    forall r | r in c'.specs ensures Tracked(s.w, c', r) {
      if r != rid { assert Tracked(s.w, s.c, r); }
    }
    hide Tracked;
  }

  /** A process born of a request that this coordinator had not sent yet in `s` is unknown in `s`. */
  lemma FreshlyBorn(s: Sys, s': Sys, rid: Rid)
    requires Inv(s) && Grows(s.w, s'.w) && rid in s'.w.births
    requires s'.w.births[rid].from == s.c.selfAddr && s'.w.births[rid].req >= s.c.nextRequest
    ensures rid !in s.w.births && rid !in s.c.specs && LogOf(s.w.delivered, rid) == []
  {
    hide HostsOk, HeldOk, PacketsOk, ServedOk, LogsGrow;
    assert rid !in s.w.births;
    assert forall r :: r in s.c.specs ==> Tracked(s.w, s.c, r);
  }

  /** What a successful spawn of `spec` with `state` as `rid`, under request `req`, amounts to. */
  ghost predicate Spawned(s: Sys, s': Sys, req: RequestId, rid: Rid, spec: Spec, state: Option<Bytes>) {
    && rid !in s.c.specs && s'.c.specs == s.c.specs[rid := spec]
    && Answered(s'.w, req, rid.node, Spawn(spec, state))
    && ReplyTo(s'.w, req).SpawnAck? && ReplyTo(s'.w, req).ok && ReplyTo(s'.w, req).pid == rid.pid
    && s.w.steps < s'.w.sent[req].at
    && Issued(s'.w, rid) && s'.w.births[rid] == Birth(s.c.selfAddr, req, spec, Seed(spec, state))
  }

  lemma PlaceKeeps(s: Sys, spec: Spec, target: Option<NodeId>)
    requires Inv(s)
    ensures var (c', node) := Place(s.c, spec, target);
            && Follows(s, s.(c := c')) && OnlySlots(s.c, c') && c'.spawnResult == s.c.spawnResult
            && (target.Some? ==> node == target)
  {
    hide Inv, Placement.Select;
    SlotsKeep(s, Place(s.c, spec, target).0);
  }

  /** The node a spawn is sent to, if placement finds one. */
  ghost function Chosen(s: Sys, spec: Spec, target: Option<NodeId>, pre: Schedule): Option<NodeId> {
    Place(Ready(s, KSpawn(0), pre).c, spec, target).1
  }

  /** Spawn: a failed call leaves the table alone; a successful one adds exactly one new entry, for a
      process its node started for this request with this spec and snapshot. */
  lemma SpawnSafe(s: Sys, spec: Spec, target: Option<NodeId>, state: Option<Bytes>, env: CallEnv)
    requires Inv(s)
    ensures var (s', r) := SpawnOp(s, spec, target, state, env);
            match Chosen(s, spec, target, env.pre)
            case None => r == Err(NoNode) && target.None? && Follows(s, s') && Onward(s, s')
            case Some(node) =>
              (target.Some? ==> node == target.value) && SpawnDone(s, s', r, s.c.nextRequest, node, spec, state)
  {
    var s0 := Ready(s, KSpawn(0), env.pre);
    ReadyKeeps(s, KSpawn(0), env.pre);
    var (c1, node) := Place(s0.c, spec, target);
    var s1 := s0.(c := c1);
    PlaceKeeps(s0, spec, target);
    FollowsTransitive(s, s0, s1);
    FollowsOnward(s, s1);
    if node.Some? {
      SpawnCalled(s, s1, node.value, spec, state, env);
    }
    hide Inv, Call, Ready, Place, Follows, Onward, SpawnDone;
  }

  /** `s'` and `r` are a correct end of a spawn begun in `s` under request `req`. */
  ghost predicate SpawnDone(s: Sys, s': Sys, r: Result<Rid, Error>, req: RequestId, node: NodeId, spec: Spec,
                            state: Option<Bytes>)
  {
    && Onward(s, s') && StockFollows(s, s')
    && (r.Err? ==> Follows(s, s'))
    && (r.Err? && r.error.Rejected? ==>
          && Answered(s'.w, req, node, Spawn(spec, state))
          && !ReplyTo(s'.w, req).ok && ReplyTo(s'.w, req).error == r.error.error)
    && (r.Ok? ==> Spawned(s, s', req, r.value, spec, state) && r.value.node == node)
  }

  lemma SpawnTracked(s: Sys, s3: Sys, req: RequestId, rid: Rid, spec: Spec, state: Option<Bytes>)
    requires Inv(s) && Follows(s, s3) && req == s.c.nextRequest && s3.c.nextRequest == req + 1
    requires Answered(s3.w, req, rid.node, Spawn(spec, state)) && s.w.steps < s3.w.sent[req].at
    requires ReplyTo(s3.w, req).SpawnAck? && ReplyTo(s3.w, req).ok && ReplyTo(s3.w, req).pid == rid.pid
    ensures var s' := s3.(c := Track(s3.c, rid, spec));
            Onward(s, s') && StockFollows(s, s') && Spawned(s, s', req, rid, spec, state)
  {
    hide Inv, Grows, Onward, Issued;
    SpawnBirth(s3, req, rid, spec, state);
    FollowsOnward(s, s3);
    FreshlyBorn(s, s3, rid);
    TrackKeeps(s3, rid, spec);
    OnwardTransitive(s, s3, s3.(c := Track(s3.c, rid, spec)));
  }

  /** The record that an acknowledged spawn left. */
  lemma SpawnBirth(s: Sys, req: RequestId, rid: Rid, spec: Spec, state: Option<Bytes>)
    requires Inv(s) && Answered(s.w, req, rid.node, Spawn(spec, state))
    requires ReplyTo(s.w, req).SpawnAck? && ReplyTo(s.w, req).ok && ReplyTo(s.w, req).pid == rid.pid
    ensures Issued(s.w, rid) && rid in s.w.births
    ensures s.w.births[rid] == Birth(s.c.selfAddr, req, spec, Seed(spec, state))
  {
    assert ServedOk(s.w, s.c.selfAddr, req) by { hide ServedOk; }
    hide ExecsOk, PacketsOk, CoordOk;
  }

  lemma SpawnCalled(s: Sys, s1: Sys, node: NodeId, spec: Spec, state: Option<Bytes>, env: CallEnv)
    requires Inv(s) && Follows(s, s1) && s1.c.nextRequest == s.c.nextRequest && s1.c.spawnResult.None?
    ensures var (s2, failed) := Call(s1, node, KSpawn(node), Spawn(spec, state), env);
            var (s', r) := Finish(s2, failed, spec);
            SpawnDone(s, s', r, s.c.nextRequest, node, spec, state)
  {
    hide Inv, Call, Onward, Spawned;
    var (s2, failed) := Call(s1, node, KSpawn(node), Spawn(spec, state), env);
    CallAnswered(s1, node, KSpawn(node), Spawn(spec, state), env);
    FollowsTransitive(s, s1, s2);
    FollowsOnward(s, s2);
    if failed.None? && s2.c.spawnResult.Some? {
      var s3 := s2.(c := s2.c.(spawnResult := None));
      SlotsKeep(s2, s3.c);
      FollowsTransitive(s, s2, s3);
      FollowsOnward(s, s3);
      var r := s2.c.spawnResult.value;
      if r.Ok? { SpawnTracked(s, s3, s.c.nextRequest, r.value, spec, state); }
      hide Grows, SameBooks;
    }
  }
}
