/** What every step of the cluster keeps. */
module ClusterInvariant {
  import opened Common
  import opened ClusterTypes
  import opened Executor
  import opened ClusterModel

  // ---- logs ---------------------------------------------------------------------------------

  /** `log'` is `log` with entries added at `step` or later. */
  ghost predicate Extends(log: seq<Stamped>, log': seq<Stamped>, step: nat) {
    log <= log' && forall i :: |log| <= i < |log'| ==> log'[i].step >= step
  }

  ghost predicate LogsGrow(logs: Logs, logs': Logs, step: nat) {
    logs.Keys <= logs'.Keys && forall rid :: rid in logs' ==> Extends(LogOf(logs, rid), logs'[rid], step)
  }

  /** Every entry was made by `step`. */
  ghost predicate MadeBy(log: seq<Stamped>, step: nat) {
    forall i :: 0 <= i < |log| ==> log[i].step <= step
  }

  ghost predicate ArrivedBy(log: seq<Stamped>, now: nat) {
    forall i :: 0 <= i < |log| ==> log[i].at <= now
  }

  ghost predicate Last(log: seq<Stamped>, state: Bytes) {
    log != [] && log[|log| - 1].state == state
  }

  ghost predicate WasHeld(log: seq<Stamped>, state: Bytes) {
    exists i :: 0 <= i < |log| && log[i].state == state
  }

  lemma ExtendsTransitive(a: seq<Stamped>, b: seq<Stamped>, c: seq<Stamped>, step: nat, step': nat)
    requires Extends(a, b, step) && Extends(b, c, step') && step <= step'
    ensures Extends(a, c, step)
  {
    forall i | |a| <= i < |c| ensures c[i].step >= step {
      if i < |b| { assert c[i] == b[i]; }
    }
  }

  lemma LogsTransitive(a: Logs, b: Logs, c: Logs, step: nat, step': nat)
    requires LogsGrow(a, b, step) && LogsGrow(b, c, step') && step <= step'
    ensures LogsGrow(a, c, step)
  {
    hide Extends;
    forall rid | rid in c ensures Extends(LogOf(a, rid), c[rid], step) {
      if rid in b {
        ExtendsTransitive(LogOf(a, rid), b[rid], c[rid], step, step');
      } else {
        assert Extends([], c[rid], step) by { LaterToo([], c[rid], step, step'); }
      }
    }
  }

  lemma LaterToo(a: seq<Stamped>, b: seq<Stamped>, step: nat, step': nat)
    requires Extends(a, b, step') && step <= step'
    ensures Extends(a, b, step)
  {
  }

  lemma LogsSame(logs: Logs, step: nat)
    ensures LogsGrow(logs, logs, step)
  {
  }

  lemma LogsNoted(logs: Logs, rid: Rid, x: Stamped, step: nat)
    requires x.step >= step
    ensures LogsGrow(logs, Noted(logs, rid, x), step)
  {
  }

  lemma HeldStays(log: seq<Stamped>, log': seq<Stamped>, step: nat, state: Bytes)
    requires Extends(log, log', step) && WasHeld(log, state)
    ensures WasHeld(log', state)
  {
    var i :| 0 <= i < |log| && log[i].state == state;
    assert log'[i] == log[i];
  }

  /** What was the latest entry before some step stays it. */
  lemma {:induction false} LatestStays(log: seq<Stamped>, log': seq<Stamped>, step: nat, at: nat)
    requires Extends(log, log', step) && at <= step
    ensures Latest(log', at) == Latest(log, at)
    decreases |log'|
  {
    if |log'| > |log| {
      var k := |log'| - 1;
      assert log <= log'[..k];
      LatestStays(log, log'[..k], step, at);
    } else {
      assert log' == log;
    }
  }

  lemma LatestIsLast(log: seq<Stamped>, step: nat)
    requires log != [] && MadeBy(log, step)
    ensures Latest(log, step + 1) == Some(log[|log| - 1])
  {
  }

  /** Process `rid` was issued by its node's executor, for a request that asked for it. */
  ghost predicate IssuedIn(execs: map<NodeId, Exec>, births: map<Rid, Birth>, rid: Rid) {
    && rid in births && rid.node in execs && 1 <= rid.pid < execs[rid.node].nextPid
  }

  ghost predicate Issued(w: World, rid: Rid) {
    IssuedIn(w.execs, w.births, rid)
  }

  /** Every hosted process was born of some request. */
  ghost predicate AllBorn(births: map<Rid, Birth>, n: NodeId, states: map<nat, Bytes>) {
    forall pid :: pid in states ==> Rid(n, pid) in births
  }

  ghost predicate HostsOk(execs: map<NodeId, Exec>, births: map<Rid, Birth>) {
    && (forall n :: n in execs ==> ExecInv(execs[n]) && AllBorn(births, n, execs[n].states))
    && (forall rid :: rid in births ==> IssuedIn(execs, births, rid))
  }

  /** The log of a process starts with the bytes it was born with. */
  ghost predicate LogOk(log: seq<Stamped>, born: Bytes, steps: nat) {
    log != [] && log[0].state == born && MadeBy(log, steps)
  }

  ghost predicate HoldsLast(held: Logs, n: NodeId, states: map<nat, Bytes>) {
    forall pid :: pid in states ==> Last(LogOf(held, Rid(n, pid)), states[pid])
  }

  /** The logs of held bytes are complete: a hosted process holds the last bytes in its log. */
  ghost predicate HeldOk(execs: map<NodeId, Exec>, births: map<Rid, Birth>, held: Logs, steps: nat) {
    && held.Keys == births.Keys
    && (forall rid :: rid in held ==> LogOk(held[rid], births[rid].snapshot, steps))
    && (forall n :: n in execs ==> HoldsLast(held, n, execs[n].states))
  }

  ghost predicate ArrivalsOk(w: World) {
    forall rid :: rid in w.delivered ==>
      && Issued(w, rid) && w.delivered[rid] != []
      && MadeBy(w.delivered[rid], w.steps) && ArrivedBy(w.delivered[rid], w.now)
  }

  ghost predicate ExecsOk(w: World) {
    HostsOk(w.execs, w.births) && HeldOk(w.execs, w.births, w.held, w.steps) && ArrivalsOk(w)
  }

  ghost predicate PacketOk(w: World, me: Addr, p: Packet) {
    match p.msg
    case Hello(info) => info.addr in w.nodeAt && w.nodeAt[info.addr] == info.id
    case Ask(req, from, body) =>
      from == me ==>
        && req in w.sent && w.sent[req].body == body && req !in w.served
        && (p.to in w.nodeAt ==> w.nodeAt[p.to] == w.sent[req].node)
    case Answer(req, reply) => p.to == me ==> req in w.served && w.served[req].reply == reply
    case Checkpoint(rid, state) => Issued(w, rid) && WasHeld(LogOf(w.held, rid), state)
    case StatusReply(processes) => forall rid :: rid in processes ==> Issued(w, rid)
    case _ => true
  }

  ghost predicate OwnAsk(p: Packet, me: Addr, req: RequestId) {
    p.msg.Ask? && p.msg.from == me && p.msg.req == req
  }

  ghost predicate PacketsOk(w: World, me: Addr) {
    && (forall u :: u in w.packets ==> u < w.nextPacket && PacketOk(w, me, w.packets[u]))
    && (forall u, v, req ::
          u in w.packets && v in w.packets && OwnAsk(w.packets[u], me, req) && OwnAsk(w.packets[v], me, req) ==> u == v)
  }

  /** Request `req` was served exactly as it was sent; a spawn that succeeded left its record, a process that was
      killed never comes back, a priority was set to the clamped one, and a snapshot is what the process held when
      the request was served. */
  ghost predicate ServedOk(w: World, me: Addr, req: RequestId)
    requires req in w.served
  {
    var v := w.served[req];
    && req in w.sent && v.node == w.sent[req].node && v.body == w.sent[req].body
    && Answers(v.body, v.reply)
    && w.sent[req].at < v.at <= w.steps
    && (v.reply.SpawnAck? && v.reply.ok ==>
          && Issued(w, Rid(v.node, v.reply.pid))
          && w.births[Rid(v.node, v.reply.pid)] == Birth(me, req, v.body.spec, Seed(v.body.spec, v.body.state)))
    && (!v.body.Spawn? && v.reply.ok ==> Issued(w, Rid(v.node, v.body.pid)))
    && (v.body.Kill? && v.reply.ok ==> v.body.pid !in w.execs[v.node].processes)
    && (v.body.SetPriority? && v.reply.ok ==> v.left.Some? && v.left.value.priority == Clamped(v.body.priority))
    && (v.body.GetState? && v.reply.ok ==> HeldThen(w, Rid(v.node, v.body.pid), v.at, v.reply.state))
  }

  /** `state` is what process `rid` held when step `step` was taken. */
  ghost predicate HeldThen(w: World, rid: Rid, step: nat, state: Bytes) {
    var entry := Latest(LogOf(w.held, rid), step);
    entry.Some? && entry.value.state == state
  }

  ghost predicate HistoryOk(w: World, me: Addr, nextRequest: RequestId) {
    && (forall req :: req in w.sent ==> req < nextRequest && w.sent[req].at <= w.steps)
    && (forall req :: req in w.served ==> ServedOk(w, me, req))
    && (forall req :: req in w.acked ==> req in w.served && w.served[req].at <= w.acked[req] <= w.steps)
    && (forall rid :: rid in w.births && w.births[rid].from == me ==> w.births[rid].req in w.sent)
  }

  ghost predicate KindFits(kind: Kind, sent: Sent) {
    match kind
    case KSpawn(n) => sent.body.Spawn? && sent.node == n
    case KKill => sent.body.Kill?
    case KSetPriority => sent.body.SetPriority?
    case KGetState => sent.body.GetState?
  }

  /** The tracked process `rid` runs `spec` because this coordinator asked its node for it. */
  ghost predicate Tracked(w: World, c: Coord, rid: Rid)
    requires rid in c.specs
  {
    && Issued(w, rid) && rid in c.remote
    && w.births[rid].from == c.selfAddr && w.births[rid].req < c.nextRequest
    && w.births[rid].spec == c.specs[rid]
  }

  ghost predicate NodesOk(w: World, c: Coord) {
    && "" !in w.nodeAt
    && c.selfAddr in w.nodeAt && w.nodeAt[c.selfAddr] == c.selfId
    && (forall n :: n in c.nodes ==>
          c.nodes[n].id == n && (c.nodes[n].addr in w.nodeAt ==> w.nodeAt[c.nodes[n].addr] == n))
  }

  ghost predicate IsNewest(log: seq<Stamped>, snapshot: Snapshot) {
    log != [] && log[|log| - 1].state == snapshot.state && log[|log| - 1].at == snapshot.at
  }

  /** Every stored checkpoint is the last one delivered for its process, and bytes that the process has held. */
  ghost predicate CheckpointsOk(w: World, c: Coord) {
    forall rid :: rid in c.checkpoints ==>
      && Issued(w, rid) && IsNewest(LogOf(w.delivered, rid), c.checkpoints[rid])
      && WasHeld(LogOf(w.held, rid), c.checkpoints[rid].state)
  }

  /** The last checkpoint delivered is too old to be kept at time `now`. */
  ghost predicate Expired(log: seq<Stamped>, now: nat, ttl: nat) {
    log != [] ==> log[|log| - 1].at + ttl <= now
  }

  /** No checkpoint of a tracked process is dropped before its time. */
  ghost predicate KeptOk(w: World, c: Coord) {
    forall rid :: rid in c.specs && rid !in c.checkpoints ==> Expired(LogOf(w.delivered, rid), w.now, c.checkpointTtl)
  }

  ghost predicate TablesOk(w: World, c: Coord) {
    && (forall rid :: rid in c.remote ==> Issued(w, rid))
    && (forall rid :: rid in c.specs ==> Tracked(w, c, rid))
    && (c.pending.Some? ==> c.pending.value.id in w.sent && KindFits(c.pending.value.kind, w.sent[c.pending.value.id]))
  }

  ghost predicate CoordOk(w: World, c: Coord) {
    NodesOk(w, c) && CheckpointsOk(w, c) && TablesOk(w, c) && KeptOk(w, c)
  }

  ghost predicate Inv(s: Sys) {
    && ExecsOk(s.w) && PacketsOk(s.w, s.c.selfAddr)
    && HistoryOk(s.w, s.c.selfAddr, s.c.nextRequest) && CoordOk(s.w, s.c)
  }

  /** Pids are issued in order and a process that is gone stays gone. */
  ghost predicate ExecGrows(e: Exec, e': Exec) {
    && e.nextPid <= e'.nextPid
    && forall pid :: pid < e.nextPid && pid !in e.processes ==> pid !in e'.processes
  }

  /** The world only learns: records persist, clocks advance, issued pids stay issued. */
  ghost predicate Grows(w: World, w': World) {
    && w'.nodeAt == w.nodeAt && w.now <= w'.now && w.steps <= w'.steps
    && (forall n :: n in w.execs ==> n in w'.execs && ExecGrows(w.execs[n], w'.execs[n]))
    && (forall req :: req in w.sent ==> req in w'.sent && w'.sent[req] == w.sent[req])
    && (forall req :: req in w.served ==> req in w'.served && w'.served[req] == w.served[req])
    && (forall req :: req in w.acked ==> req in w'.acked && w'.acked[req] == w.acked[req])
    && (forall rid :: rid in w.births ==> rid in w'.births && w'.births[rid] == w.births[rid])
    && LogsGrow(w.held, w'.held, w.steps) && LogsGrow(w.delivered, w'.delivered, w.steps)
  }

  /** The part of the coordinator that neither a message nor an unsuccessful call changes. */
  ghost predicate SameBooks(c: Coord, c': Coord) {
    && c'.selfId == c.selfId && c'.selfAddr == c.selfAddr && c'.strategy == c.strategy
    && c'.specs == c.specs && c.nextRequest <= c'.nextRequest
    && c'.failoverRespawn == c.failoverRespawn && c'.failoverThreshold == c.failoverThreshold
    && c'.checkpointTtl == c.checkpointTtl
    && c.nodes.Keys <= c'.nodes.Keys && c.remote.Keys <= c'.remote.Keys
  }

  // ---- posting and serving ------------------------------------------------------------------

  /** Posting a packet that is not a request of this coordinator keeps the packet invariant. */
  lemma PostKeeps(w: World, me: Addr, to: Addr, msg: Message)
    requires PacketsOk(w, me) && PacketOk(w, me, Packet(to, msg))
    requires msg.Ask? ==> msg.from != me
    ensures PacketsOk(Post(w, to, msg), me)
  {
    var w' := Post(w, to, msg);
    forall u | u in w'.packets ensures u < w'.nextPacket && PacketOk(w', me, w'.packets[u]) {
      if u in w.packets && u != w.nextPacket { assert PacketOk(w, me, w.packets[u]); }
    }
  }

  /** What a packet relies on survives any growth that leaves its own request unserved. */
  lemma PacketGrows(w: World, w': World, me: Addr, p: Packet)
    requires PacketOk(w, me, p) && Grows(w, w')
    requires p.msg.Ask? && p.msg.from == me ==> p.msg.req !in w'.served
    ensures PacketOk(w', me, p)
  {
    if p.msg.Checkpoint? { HeldGrows(w, w', p.msg.rid, p.msg.state); }
    hide LogsGrow, WasHeld;
  }

  /** Bytes once held stay in the log. */
  lemma HeldGrows(w: World, w': World, rid: Rid, state: Bytes)
    requires Grows(w, w') && WasHeld(LogOf(w.held, rid), state)
    ensures WasHeld(LogOf(w'.held, rid), state)
  {
    assert rid in w.held && rid in w'.held;
    HeldStays(w.held[rid], w'.held[rid], w.steps, state);
  }

  lemma PacketStays(w: World, w': World, me: Addr, p: Packet)
    requires PacketOk(w, me, p) && Grows(w, w') && w'.served == w.served
    ensures PacketOk(w', me, p)
  {
    PacketGrows(w, w', me, p);
  }

  /** No process has changed its state in the current step. */
  ghost predicate Settled(w: World) {
    0 < w.steps && forall rid :: rid in w.held ==> MadeBy(w.held[rid], w.steps - 1)
  }

  /** A world in which node `n` serves a request that has just been taken off the network. */
  ghost predicate CanServe(w: World, me: Addr, n: NodeId, req: RequestId, from: Addr, body: Request) {
    from == me ==>
      && req in w.sent && w.sent[req].body == body && w.sent[req].node == n && req !in w.served
      && w.sent[req].at < w.steps && Settled(w)
      && forall u :: u in w.packets ==> !OwnAsk(w.packets[u], me, req)
  }

  /** `w1` and `reply` are a correct outcome of serving `body` at node `n`. */
  ghost predicate PerformedAt(w: World, n: NodeId, body: Request, w1: World, reply: Reply) {
    if n in w.execs
    then && n in w1.execs && w1 == w.(execs := w.execs[n := w1.execs[n]])
         && Performed(w.execs[n], body, w1.execs[n], reply)
    else w1 == w && Answers(body, reply) && !reply.ok
  }

  lemma PerformAtKeeps(w: World, n: NodeId, body: Request)
    requires ExecsOk(w)
    ensures PerformedAt(w, n, body, PerformAt(w, n, body).0, PerformAt(w, n, body).1)
  {
    if n in w.execs { PerformKeeps(w.execs[n], body); }
  }

  lemma HostsKeep(execs: map<NodeId, Exec>, births: map<Rid, Birth>, n: NodeId, req: RequestId, from: Addr,
                  body: Request, e': Exec, reply: Reply)
    requires HostsOk(execs, births) && n in execs && Performed(execs[n], body, e', reply)
    ensures HostsOk(execs[n := e'], NewBirths(births, n, req, from, body, reply))
    ensures body.Spawn? ==> Rid(n, reply.pid) !in births
  {
    var execs', births' := execs[n := e'], NewBirths(births, n, req, from, body, reply);
    var born := Rid(n, execs[n].nextPid);
    assert !IssuedIn(execs, births, born);
    forall m | m in execs' ensures AllBorn(births', m, execs'[m].states) {
      assert AllBorn(births, m, execs[m].states);
      if m == n {
        forall pid | pid in e'.states ensures Rid(n, pid) in births' {
          assert pid in e'.processes;
          if pid != (if body.Spawn? then execs[n].nextPid else body.pid) { assert pid in execs[n].states; }
        }
      }
    }
    forall rid | rid in births' ensures IssuedIn(execs', births', rid) {
      if rid in births { assert IssuedIn(execs, births, rid); }
    }
  }

  /** What of a correct outcome matters to births and logs. */
  lemma SpawnShape(e: Exec, body: Request, e': Exec, reply: Reply)
    requires ExecInv(e) && Performed(e, body, e', reply)
    ensures body.Spawn? ==>
              && reply.SpawnAck? && reply.ok && reply.pid == e.nextPid && e.nextPid in e'.states
              && e'.states[e.nextPid] == Seed(body.spec, body.state)
    ensures !body.Spawn? ==> !reply.SpawnAck?
    ensures ExecGrows(e, e')
  {
  }

  lemma HeldEntries(births: map<Rid, Birth>, held: Logs, rid: Rid, birth: Birth, now: nat, steps: nat)
    requires held.Keys == births.Keys && rid !in births
    requires forall r :: r in held ==> LogOk(held[r], births[r].snapshot, steps)
    ensures var births', held' := births[rid := birth], held[rid := [Stamped(birth.snapshot, now, steps)]];
            && held'.Keys == births'.Keys && LogsGrow(held, held', steps)
            && forall r :: r in held' ==> LogOk(held'[r], births'[r].snapshot, steps)
  {
  }

  /** Logs after serving: only a spawn adds one, for the process it starts. */
  lemma HeldKeep(execs: map<NodeId, Exec>, births: map<Rid, Birth>, held: Logs, n: NodeId, req: RequestId, from: Addr,
                 body: Request, e': Exec, reply: Reply, now: nat, steps: nat)
    requires HostsOk(execs, births) && HeldOk(execs, births, held, steps)
    requires n in execs && Performed(execs[n], body, e', reply)
    ensures HeldOk(execs[n := e'], NewBirths(births, n, req, from, body, reply),
                   NewHeld(held, n, body, reply, now, steps), steps)
    ensures LogsGrow(held, NewHeld(held, n, body, reply, now, steps), steps)
  {
    hide HostsOk, Performed, LogOk, LogsGrow, HoldsLast, ExecInv, Seed;
    var execs', held' := execs[n := e'], NewHeld(held, n, body, reply, now, steps);
    var born := Rid(n, execs[n].nextPid);
    HostsKeep(execs, births, n, req, from, body, e', reply);
    HostInv(execs, births, n);
    SpawnShape(execs[n], body, e', reply);
    LogsSame(held, steps);
    if body.Spawn? {
      HeldEntries(births, held, born, Birth(from, req, body.spec, Seed(body.spec, body.state)), now, steps);
    }
    forall m | m in execs' ensures HoldsLast(held', m, execs'[m].states) {
      assert HoldsLast(held, m, execs[m].states);
      if m == n {
        HoldsAfter(held, held', n, execs[n], body, e', reply);
      } else if body.Spawn? {
        HoldsOther(held, born, held'[born], m, execs[m].states);
      }
    }
  }

  lemma HostInv(execs: map<NodeId, Exec>, births: map<Rid, Birth>, n: NodeId)
    requires HostsOk(execs, births) && n in execs
    ensures ExecInv(execs[n])
  {
  }

  lemma HoldsOther(held: Logs, born: Rid, log: seq<Stamped>, m: NodeId, states: map<nat, Bytes>)
    requires HoldsLast(held, m, states) && born.node != m
    ensures HoldsLast(held[born := log], m, states)
  {
    forall pid | pid in states ensures Last(LogOf(held[born := log], Rid(m, pid)), states[pid]) {
      assert Rid(m, pid) != born;
    }
  }

  lemma HoldsAfter(held: Logs, held': Logs, n: NodeId, e: Exec, body: Request, e': Exec, reply: Reply)
    requires ExecInv(e) && HoldsLast(held, n, e.states) && Performed(e, body, e', reply)
    requires forall pid :: !(body.Spawn? && pid == e.nextPid) ==> LogOf(held', Rid(n, pid)) == LogOf(held, Rid(n, pid))
    requires body.Spawn? ==> Last(LogOf(held', Rid(n, e.nextPid)), e'.states[e.nextPid])
    ensures HoldsLast(held', n, e'.states)
  {
    forall pid | pid in e'.states ensures Last(LogOf(held', Rid(n, pid)), e'.states[pid]) {
      assert pid in e'.processes;
      if body.Spawn? && pid == e.nextPid {
      } else {
        assert LogOf(held', Rid(n, pid)) == LogOf(held, Rid(n, pid));
        assert pid in e.states && e'.states[pid] == e.states[pid];
      }
    }
  }

  lemma ServeGrows(w: World, me: Addr, n: NodeId, req: RequestId, from: Addr, body: Request, w1: World, reply: Reply)
    requires ExecsOk(w) && PerformedAt(w, n, body, w1, reply) && CanServe(w, me, n, req, from, body)
    ensures Grows(w, Record(w1, me, n, req, from, body, reply))
  {
    hide HostsOk, HeldOk, LogsGrow, Performed, ArrivalsOk, ExecInv, ExecGrows, Settled, NewHeld, Left;
    LogsSame(w.held, w.steps);
    LogsSame(w.delivered, w.steps);
    ExecsSame(w.execs);
    if n in w.execs {
      HostsKeep(w.execs, w.births, n, req, from, body, w1.execs[n], reply);
      HeldKeep(w.execs, w.births, w.held, n, req, from, body, w1.execs[n], reply, w.now, w.steps);
      HostInv(w.execs, w.births, n);
      SpawnShape(w.execs[n], body, w1.execs[n], reply);
    } else {
      assert NewHeld(w.held, n, body, reply, w.now, w.steps) == w.held by {
        NotBorn(w.held, n, body, reply, w.now, w.steps);
      }
    }
  }

  lemma NotBorn(held: Logs, n: NodeId, body: Request, reply: Reply, now: nat, steps: nat)
    requires !reply.ok
    ensures NewHeld(held, n, body, reply, now, steps) == held
  {
  }

  lemma ExecsSame(execs: map<NodeId, Exec>)
    ensures forall n :: n in execs ==> ExecGrows(execs[n], execs[n])
  {
  }

  /** Arrivals recorded so far stay right. */
  lemma ArrivalsGrow(w: World, w': World)
    requires ArrivalsOk(w) && Grows(w, w') && w'.delivered == w.delivered
    ensures ArrivalsOk(w')
  {
    hide LogsGrow;
  }

  /** Executors, births and logs after serving. */
  lemma ServeExecs(w: World, me: Addr, n: NodeId, req: RequestId, from: Addr, body: Request, w1: World, reply: Reply)
    requires ExecsOk(w) && PerformedAt(w, n, body, w1, reply) && CanServe(w, me, n, req, from, body)
    ensures ExecsOk(Record(w1, me, n, req, from, body, reply))
    ensures Grows(w, Record(w1, me, n, req, from, body, reply))
  {
    ServeGrows(w, me, n, req, from, body, w1, reply);
    if n in w.execs {
      HostsKeep(w.execs, w.births, n, req, from, body, w1.execs[n], reply);
      HeldKeep(w.execs, w.births, w.held, n, req, from, body, w1.execs[n], reply, w.now, w.steps);
    }
    hide HostsOk, HeldOk, Performed;
    ArrivalsGrow(w, Record(w1, me, n, req, from, body, reply));
  }

  lemma ServedGrows(w: World, w': World, me: Addr, req: RequestId)
    requires req in w.served && ServedOk(w, me, req) && Grows(w, w')
    ensures ServedOk(w', me, req)
  {
    var v := w.served[req];
    if v.body.GetState? && v.reply.ok {
      var rid := Rid(v.node, v.body.pid);
      assert rid in w.held && rid in w'.held;
      LatestStays(w.held[rid], w'.held[rid], w.steps, v.at);
    }
    hide LogsGrow;
  }

  lemma HeldNow(w: World, rid: Rid)
    requires ExecsOk(w) && Settled(w) && rid.node in w.execs && rid.pid in w.execs[rid.node].states
    ensures HeldThen(w, rid, w.steps, w.execs[rid.node].states[rid.pid])
  {
    assert AllBorn(w.births, rid.node, w.execs[rid.node].states);
    assert HoldsLast(w.held, rid.node, w.execs[rid.node].states);
    LatestIsLast(w.held[rid], w.steps - 1);
  }

  lemma ServeNoted(w: World, me: Addr, n: NodeId, req: RequestId, body: Request, w1: World, reply: Reply)
    requires ExecsOk(w) && PerformedAt(w, n, body, w1, reply) && CanServe(w, me, n, req, me, body)
    ensures ServedOk(Record(w1, me, n, req, me, body, reply), me, req)
  {
    if n in w.execs {
      HostsKeep(w.execs, w.births, n, req, me, body, w1.execs[n], reply);
      assert AllBorn(w.births, n, w.execs[n].states);
      if body.GetState? && reply.ok { HeldNow(w, Rid(n, body.pid)); }
    }
  }

  /** What serving leaves alone. */
  lemma ServeFrame(w: World, me: Addr, n: NodeId, req: RequestId, from: Addr, body: Request, w1: World, reply: Reply)
    requires PerformedAt(w, n, body, w1, reply)
    ensures var w' := Record(w1, me, n, req, from, body, reply);
            && w'.sent == w.sent && w'.acked == w.acked && w'.steps == w.steps && w'.delivered == w.delivered
            && w'.nextPacket == w.nextPacket + 1
            && w'.packets == w.packets[w.nextPacket := Packet(from, Answer(req, reply))]
            && w'.births == NewBirths(w.births, n, req, from, body, reply)
            && w'.served.Keys == (if from == me then w.served.Keys + {req} else w.served.Keys)
            && (from == me ==> w'.served[req].reply == reply && w'.served[req].at == w.steps)
            && forall r :: r in w.served && (from != me || r != req) ==> w'.served[r] == w.served[r]
  {
    hide Performed;
  }

  lemma ServeHistory(w: World, me: Addr, n: NodeId, req: RequestId, from: Addr, body: Request, w1: World, reply: Reply,
                     nextRequest: RequestId)
    requires ExecsOk(w) && PerformedAt(w, n, body, w1, reply) && CanServe(w, me, n, req, from, body)
    requires HistoryOk(w, me, nextRequest)
    ensures HistoryOk(Record(w1, me, n, req, from, body, reply), me, nextRequest)
  {
    hide ExecsOk, PerformedAt, Record, Settled, Grows, ServedOk;
    var w' := Record(w1, me, n, req, from, body, reply);
    ServeFrame(w, me, n, req, from, body, w1, reply);
    ServeExecs(w, me, n, req, from, body, w1, reply);
    forall r | r in w'.served ensures ServedOk(w', me, r) {
      if from == me && r == req { ServeNoted(w, me, n, req, body, w1, reply); } else { ServedGrows(w, w', me, r); }
    }
  }

  lemma ServePackets(w: World, me: Addr, n: NodeId, req: RequestId, from: Addr, body: Request, w1: World, reply: Reply)
    requires ExecsOk(w) && PerformedAt(w, n, body, w1, reply) && CanServe(w, me, n, req, from, body)
    requires PacketsOk(w, me)
    ensures PacketsOk(Record(w1, me, n, req, from, body, reply), me)
  {
    hide ExecsOk, PerformedAt, Record, Settled, Grows, WasHeld;
    var w' := Record(w1, me, n, req, from, body, reply);
    ServeFrame(w, me, n, req, from, body, w1, reply);
    ServeExecs(w, me, n, req, from, body, w1, reply);
    forall u | u in w'.packets ensures u < w'.nextPacket && PacketOk(w', me, w'.packets[u]) {
      if u != w.nextPacket { PacketGrows(w, w', me, w.packets[u]); }
    }
  }

  lemma TablesGrow(w: World, w': World, c: Coord)
    requires TablesOk(w, c) && Grows(w, w')
    ensures TablesOk(w', c)
  {
    forall rid | rid in c.specs ensures Tracked(w', c, rid) { assert Tracked(w, c, rid); }
  }

  /** The coordinator's books stay right in a grown world. */
  lemma CoordGrows(w: World, w': World, c: Coord)
    requires CoordOk(w, c) && Grows(w, w') && w'.delivered == w.delivered
    ensures CoordOk(w', c)
  {
    TablesGrow(w, w', c);
    hide TablesOk, LogsGrow, WasHeld;
    forall rid | rid in c.checkpoints ensures WasHeld(LogOf(w'.held, rid), c.checkpoints[rid].state) {
      HeldGrows(w, w', rid, c.checkpoints[rid].state);
    }
  }

  /** Serving a request keeps the whole invariant. */
  lemma ServeKeeps(s: Sys, n: NodeId, req: RequestId, from: Addr, body: Request)
    requires Inv(s) && CanServe(s.w, s.c.selfAddr, n, req, from, body)
    ensures var w' := Serve(s.w, s.c.selfAddr, n, req, from, body);
            Inv(Sys(s.c, w')) && Grows(s.w, w') && w'.delivered == s.w.delivered
  {
    var me := s.c.selfAddr;
    var (w1, reply) := PerformAt(s.w, n, body);
    PerformAtKeeps(s.w, n, body);
    ServeExecs(s.w, me, n, req, from, body, w1, reply);
    ServeHistory(s.w, me, n, req, from, body, w1, reply, s.c.nextRequest);
    ServePackets(s.w, me, n, req, from, body, w1, reply);
    CoordGrows(s.w, Serve(s.w, me, n, req, from, body), s.c);
  }
}
