/** Every environment step keeps the invariant, and an outstanding request is only ever completed
    by the reply its own node gave to it. */
module ClusterSteps {
  import opened Common
  import opened ClusterTypes
  import opened Executor
  import opened ClusterModel
  import opened ClusterInvariant

  /** `s'` follows `s` by steps that leave the table of tracked processes alone. */
  ghost predicate Follows(s: Sys, s': Sys) {
    Inv(s') && Grows(s.w, s'.w) && SameBooks(s.c, s'.c) && StockFollows(s, s')
  }

  /** For every process either no checkpoint has arrived and it is stored as before, or one has and it is stored. */
  ghost predicate StockFollows(s: Sys, s': Sys) {
    forall rid :: if LogOf(s'.w.delivered, rid) == LogOf(s.w.delivered, rid)
                  then rid in s'.c.checkpoints <==> rid in s.c.checkpoints
                  else rid in s'.c.checkpoints
  }

  lemma StockTransitive(s: Sys, s1: Sys, s2: Sys)
    requires StockFollows(s, s1) && StockFollows(s1, s2) && Grows(s.w, s1.w) && Grows(s1.w, s2.w)
    ensures StockFollows(s, s2)
  {
    forall rid | LogOf(s2.w.delivered, rid) == LogOf(s.w.delivered, rid)
      ensures LogOf(s1.w.delivered, rid) == LogOf(s.w.delivered, rid)
    {
      LogPrefix(s.w.delivered, s1.w.delivered, rid, s.w.steps);
      LogPrefix(s1.w.delivered, s2.w.delivered, rid, s1.w.steps);
    }
    hide Grows;
  }

  lemma LogPrefix(logs: Logs, logs': Logs, rid: Rid, step: nat)
    requires LogsGrow(logs, logs', step)
    ensures LogOf(logs, rid) <= LogOf(logs', rid)
  {
  }

  lemma GrowsTransitive(w: World, w1: World, w2: World)
    requires Grows(w, w1) && Grows(w1, w2)
    ensures Grows(w, w2)
  {
    LogsTransitive(w.held, w1.held, w2.held, w.steps, w1.steps);
    LogsTransitive(w.delivered, w1.delivered, w2.delivered, w.steps, w1.steps);
    hide LogsGrow;
    forall n | n in w.execs ensures n in w2.execs && ExecGrows(w.execs[n], w2.execs[n]) {
      assert ExecGrows(w.execs[n], w1.execs[n]) && ExecGrows(w1.execs[n], w2.execs[n]);
    }
  }

  lemma FollowsTransitive(s: Sys, s1: Sys, s2: Sys)
    requires Follows(s, s1) && Follows(s1, s2)
    ensures Follows(s, s2)
  {
    hide Inv, Grows, StockFollows;
    GrowsTransitive(s.w, s1.w, s2.w);
    StockTransitive(s, s1, s2);
  }

  /** Packets, clock and step counter may change without any executor or record changing. */
  ghost predicate SameRecords(w: World, w': World) {
    && w'.nodeAt == w.nodeAt && w'.execs == w.execs && w'.sent == w.sent && w'.served == w.served
    && w'.acked == w.acked && w'.births == w.births && w'.held == w.held && w'.delivered == w.delivered
    && w.steps <= w'.steps && w.now <= w'.now
  }

  lemma RecordsGrow(w: World, w': World)
    requires SameRecords(w, w')
    ensures Grows(w, w')
  {
    LogsSame(w.held, w.steps);
    LogsSame(w.delivered, w.steps);
    hide LogsGrow;
  }

  lemma RecordsKeep(w: World, w': World)
    requires ExecsOk(w) && w.steps <= w'.steps && w.now <= w'.now
    requires w'.execs == w.execs && w'.births == w.births && w'.held == w.held && w'.delivered == w.delivered
    ensures ExecsOk(w')
  {
    hide HostsOk;
  }

  lemma RecordsHistory(w: World, w': World, me: Addr, nextRequest: RequestId)
    requires HistoryOk(w, me, nextRequest) && SameRecords(w, w') && Grows(w, w')
    ensures HistoryOk(w', me, nextRequest)
  {
    hide ServedOk, Grows;
    forall req | req in w'.served ensures ServedOk(w', me, req) { ServedGrows(w, w', me, req); }
  }

  /** While no record changes, the packets are all there is to check. */
  lemma RecordsFollow(s: Sys, w': World)
    requires Inv(s) && SameRecords(s.w, w') && PacketsOk(w', s.c.selfAddr)
    ensures Follows(s, Sys(s.c, w'))
  {
    hide ExecsOk, PacketsOk, HistoryOk, CoordOk, Grows;
    RecordsGrow(s.w, w');
    RecordsKeep(s.w, w');
    RecordsHistory(s.w, w', s.c.selfAddr, s.c.nextRequest);
    CoordGrows(s.w, w', s.c);
  }

  lemma IdleKeeps(s: Sys, w': World)
    requires Inv(s) && SameRecords(s.w, w') && w'.nextPacket == s.w.nextPacket
    requires w'.packets.Keys <= s.w.packets.Keys
    requires forall u :: u in w'.packets ==> w'.packets[u] == s.w.packets[u]
    ensures Follows(s, Sys(s.c, w'))
  {
    hide ExecsOk, PacketOk, HistoryOk, CoordOk, Grows, Follows;
    RecordsGrow(s.w, w');
    forall u | u in w'.packets ensures PacketOk(w', s.c.selfAddr, w'.packets[u]) {
      PacketStays(s.w, w', s.c.selfAddr, s.w.packets[u]);
    }
    RecordsFollow(s, w');
  }

  lemma PostInv(s: Sys, to: Addr, msg: Message)
    requires Inv(s) && PacketOk(s.w, s.c.selfAddr, Packet(to, msg))
    requires msg.Ask? ==> msg.from != s.c.selfAddr
    ensures Follows(s, Sys(s.c, Post(s.w, to, msg)))
  {
    hide ExecsOk, PacketOk, PacketsOk, HistoryOk, CoordOk, Follows;
    PostKeeps(s.w, s.c.selfAddr, to, msg);
    RecordsFollow(s, Post(s.w, to, msg));
  }

  lemma StatusPosted(s: Sys, n: NodeId, from: Addr)
    requires Inv(s)
    ensures Follows(s, Sys(s.c, Post(s.w, from, StatusReply(StatusOf(s.w, n)))))
  {
    forall rid | rid in StatusOf(s.w, n) ensures Issued(s.w, rid) {
      assert AllBorn(s.w.births, n, s.w.execs[n].states);
      assert rid.pid in s.w.execs[n].states;
    }
    PostInv(s, from, StatusReply(StatusOf(s.w, n)));
  }

  // ---- dispatch -----------------------------------------------------------------------------

  /** `msg` has just left the network for `to`, in state `s`. */
  ghost predicate JustTaken(s: Sys, to: Addr, n: NodeId, msg: Message) {
    && PacketOk(s.w, s.c.selfAddr, Packet(to, msg))
    && (msg.Ask? ==> CanServe(s.w, s.c.selfAddr, n, msg.req, msg.from, msg.body))
  }

  lemma BooksKeep(s: Sys, c': Coord)
    requires Inv(s) && SameBooks(s.c, c') && CoordOk(s.w, c') && c'.nextRequest == s.c.nextRequest
    requires c'.checkpoints == s.c.checkpoints
    ensures Follows(s, Sys(c', s.w))
  {
    hide ExecsOk, PacketsOk, HistoryOk, CoordOk;
  }

  lemma TablesMove(w: World, c: Coord, c': Coord)
    requires TablesOk(w, c) && c'.remote == c.remote && c'.specs == c.specs && c'.selfAddr == c.selfAddr
    requires c'.nextRequest >= c.nextRequest && (c'.pending == c.pending || c'.pending.None?)
    ensures TablesOk(w, c')
  {
    hide IssuedIn;
    forall rid | rid in c'.specs ensures Tracked(w, c', rid) { assert Tracked(w, c, rid); }
  }

  lemma RegisterKeeps(s: Sys, info: NodeInfo)
    requires Inv(s) && info.addr in s.w.nodeAt && s.w.nodeAt[info.addr] == info.id
    ensures Follows(s, Sys(RegisterNode(s.c, info, s.w.now), s.w))
  {
    hide ExecsOk, PacketsOk, HistoryOk, TablesOk, Issued;
    var c' := RegisterNode(s.c, info, s.w.now);
    TablesMove(s.w, s.c, c');
    BooksKeep(s, c');
  }

  lemma MetricsKeep(s: Sys, id: NodeId, metrics: NodeMetrics)
    requires Inv(s)
    ensures Follows(s, Sys(NoteMetrics(s.c, id, metrics, s.w.now), s.w))
  {
    hide ExecsOk, PacketsOk, HistoryOk, TablesOk, Issued;
    var c' := NoteMetrics(s.c, id, metrics, s.w.now);
    TablesMove(s.w, s.c, c');
    BooksKeep(s, c');
  }

  lemma CompleteBooks(c: Coord, req: RequestId, reply: Reply)
    ensures var c' := Complete(c, req, reply);
            && SameBooks(c, c') && c'.nextRequest == c.nextRequest && c'.nodes == c.nodes
            && c'.remote == c.remote && c'.checkpoints == c.checkpoints
            && (c'.pending == c.pending || c'.pending.None?)
  {
    if c.pending.Some? && c.pending.value.id == req {
      match reply
      case SpawnAck(pid, ok, error) => hide Verdict;
      case KillAck(ok, error) => hide Verdict;
      case SetPriorityAck(ok, error) => hide Verdict;
      case GetStateReply(ok, state, error) => hide Verdict;
    }
  }

  lemma CompleteKeeps(s: Sys, req: RequestId, reply: Reply)
    requires Inv(s)
    ensures Follows(s, Sys(Complete(s.c, req, reply), s.w))
  {
    hide ExecsOk, PacketsOk, HistoryOk, TablesOk, Issued, Complete;
    CompleteBooks(s.c, req, reply);
    TablesMove(s.w, s.c, Complete(s.c, req, reply));
    BooksKeep(s, Complete(s.c, req, reply));
  }

  lemma RemoteKeeps(s: Sys, processes: map<Rid, Status>)
    requires Inv(s) && forall rid :: rid in processes ==> Issued(s.w, rid)
    ensures Follows(s, Sys(s.c.(remote := s.c.remote + processes), s.w))
  {
    hide ExecsOk, PacketsOk, HistoryOk, Issued;
    var c' := s.c.(remote := s.c.remote + processes);
    forall rid | rid in c'.specs ensures Tracked(s.w, c', rid) { assert Tracked(s.w, s.c, rid); }
    BooksKeep(s, c');
  }

  /** Records and packets after the coordinator notes something for itself. */
  lemma NotesKeep(s: Sys, w': World)
    requires Inv(s) && Grows(s.w, w')
    requires w' == s.w.(acked := w'.acked, delivered := w'.delivered) && ArrivalsOk(w')
    ensures ExecsOk(w') && PacketsOk(w', s.c.selfAddr)
    ensures forall r :: r in w'.served ==> ServedOk(w', s.c.selfAddr, r)
  {
    hide HostsOk, HeldOk, ArrivalsOk, PacketOk, ServedOk, CoordOk, Grows;
    forall r | r in w'.served ensures ServedOk(w', s.c.selfAddr, r) { ServedGrows(s.w, w', s.c.selfAddr, r); }
    forall u | u in w'.packets ensures PacketOk(w', s.c.selfAddr, w'.packets[u]) {
      PacketStays(s.w, w', s.c.selfAddr, s.w.packets[u]);
    }
  }

  lemma ServedBy(w: World, me: Addr, req: RequestId)
    requires req in w.served && ServedOk(w, me, req)
    ensures req in w.sent && w.sent[req].at < w.served[req].at <= w.steps
  {
  }

  lemma AckKeeps(s: Sys, w': World, req: RequestId)
    requires Inv(s) && req in s.w.served
    requires w' == s.w.(acked := if req in s.w.acked then s.w.acked else s.w.acked[req := s.w.steps])
    ensures Follows(s, Sys(s.c, w'))
  {
    LogsSame(s.w.held, s.w.steps);
    LogsSame(s.w.delivered, s.w.steps);
    hide HostsOk, HeldOk, PacketsOk, CoordOk, ServedOk, LogsGrow;
    ServedBy(s.w, s.c.selfAddr, req);
    ArrivalsGrow(s.w, w');
    NotesKeep(s, w');
    CoordGrows(s.w, w', s.c);
  }

  lemma CheckpointGrows(s: Sys, rid: Rid, state: Bytes)
    ensures Grows(s.w, Dispatch(s, Checkpoint(rid, state)).w)
    ensures SameBooks(s.c, Dispatch(s, Checkpoint(rid, state)).c)
  {
    LogsSame(s.w.held, s.w.steps);
    LogsNoted(s.w.delivered, rid, Stamped(state, s.w.now, s.w.steps), s.w.steps);
    hide LogsGrow, Noted;
  }

  lemma CheckpointArrives(w: World, rid: Rid, x: Stamped)
    requires ArrivalsOk(w) && Issued(w, rid) && x.step == w.steps && x.at == w.now
    ensures ArrivalsOk(w.(delivered := Noted(w.delivered, rid, x)))
  {
  }

  lemma CheckpointCoord(s: Sys, rid: Rid, state: Bytes)
    requires CoordOk(s.w, s.c) && Issued(s.w, rid) && WasHeld(LogOf(s.w.held, rid), state)
    ensures CoordOk(Dispatch(s, Checkpoint(rid, state)).w, Dispatch(s, Checkpoint(rid, state)).c)
  {
    hide IssuedIn, Grows, SameBooks, WasHeld, TablesOk;
    var s' := Dispatch(s, Checkpoint(rid, state));
    CheckpointGrows(s, rid, state);
    TablesGrow(s.w, s'.w, s.c);
    TablesMove(s'.w, s.c, s'.c);
  }

  lemma CheckpointKeeps(s: Sys, rid: Rid, state: Bytes)
    requires Inv(s) && PacketOk(s.w, s.c.selfAddr, Packet(s.c.selfAddr, Checkpoint(rid, state)))
    ensures Follows(s, Dispatch(s, Checkpoint(rid, state)))
  {
    hide HostsOk, HeldOk, ArrivalsOk, PacketsOk, ServedOk, CoordOk, Grows, SameBooks, WasHeld;
    CheckpointGrows(s, rid, state);
    CheckpointArrives(s.w, rid, Stamped(state, s.w.now, s.w.steps));
    NotesKeep(s, Dispatch(s, Checkpoint(rid, state)).w);
    CheckpointCoord(s, rid, state);
  }

  lemma HelloKeeps(s: Sys, info: NodeInfo)
    requires Inv(s) && JustTaken(s, s.c.selfAddr, s.c.selfId, Hello(info))
    ensures Follows(s, Dispatch(s, Hello(info)))
  {
    var t := Sys(RegisterNode(s.c, info, s.w.now), s.w);
    if info.id != s.c.selfId {
      RegisterKeeps(s, info);
      PostInv(t, info.addr, Metrics(s.c.selfId, LocalMetrics(s.w, s.c.selfId)));
      FollowsTransitive(s, t, Dispatch(s, Hello(info)));
    } else {
      SelfFollows(s);
    }
    hide Follows, Inv;
  }

  lemma SelfFollows(s: Sys)
    requires Inv(s)
    ensures Follows(s, s)
  {
    hide Inv;
  }

  lemma AnswerKeeps(s: Sys, req: RequestId, reply: Reply)
    requires Inv(s) && JustTaken(s, s.c.selfAddr, s.c.selfId, Answer(req, reply))
    ensures Follows(s, Dispatch(s, Answer(req, reply)))
  {
    var t := Sys(Complete(s.c, req, reply), s.w);
    CompleteKeeps(s, req, reply);
    AckKeeps(t, Dispatch(s, Answer(req, reply)).w, req);
    FollowsTransitive(s, t, Dispatch(s, Answer(req, reply)));
    hide Follows, Inv, Complete;
  }

  lemma DispatchKeeps(s: Sys, msg: Message)
    requires Inv(s) && JustTaken(s, s.c.selfAddr, s.c.selfId, msg)
    ensures Follows(s, Dispatch(s, msg))
  {
    hide Inv, Grows, SameBooks, Serve, Post, RegisterNode, NoteMetrics, Complete, StatusOf, CanServe;
    match msg
    case Hello(info) => HelloKeeps(s, info);
    case Metrics(id, metrics) => MetricsKeep(s, id, metrics);
    case Ask(req, from, body) => ServeKeeps(s, s.c.selfId, req, from, body); SelfFollows(s);
    case Answer(req, reply) => AnswerKeeps(s, req, reply);
    case Checkpoint(rid, state) => CheckpointKeeps(s, rid, state);
    case StatusRequest(from) => StatusPosted(s, s.c.selfId, from);
    case StatusReply(processes) => RemoteKeeps(s, processes);
  }

  // ---- one environment step -----------------------------------------------------------------

  ghost function Taken(s: Sys, u: nat): Sys {
    Sys(s.c, s.w.(steps := s.w.steps + 1, packets := s.w.packets - {u}))
  }

  lemma TakenReady(s: Sys, u: nat)
    requires Inv(s) && u in s.w.packets
    ensures Follows(s, Taken(s, u))
    ensures var p := s.w.packets[u];
            && (p.to == s.c.selfAddr ==> JustTaken(Taken(s, u), p.to, s.c.selfId, p.msg))
            && (p.to in s.w.nodeAt ==> JustTaken(Taken(s, u), p.to, s.w.nodeAt[p.to], p.msg))
  {
    IdleKeeps(s, Taken(s, u).w);
    PacketGrows(s.w, Taken(s, u).w, s.c.selfAddr, s.w.packets[u]);
    assert Settled(Taken(s, u).w);
    hide HostsOk, HeldOk, ArrivalsOk, ServedOk, CoordOk, Grows, Settled;
  }

  lemma PeerKeeps(s: Sys, to: Addr, n: NodeId, msg: Message)
    requires Inv(s) && JustTaken(s, to, n, msg)
    ensures Follows(s, Sys(s.c, PeerTakes(s.w, s.c.selfAddr, n, msg)))
  {
    hide Inv, Grows, SameBooks, Serve, Post, StatusOf, CanServe;
    SelfFollows(s);
    match msg
    case Ask(req, from, body) => ServeKeeps(s, n, req, from, body);
    case StatusRequest(from) => StatusPosted(s, n, from);
    case _ =>
  }

  /** A delivery is taking the packet off the network, and then what the receiver does with it. */
  lemma DeliveryIs(s: Sys, u: nat)
    requires u in s.w.packets
    ensures var p, t := s.w.packets[u], Taken(s, u);
            EnvStep(s, Deliver(u)) == if p.to == s.c.selfAddr then Dispatch(t, p.msg)
                                      else if p.to in s.w.nodeAt
                                           then Sys(t.c, PeerTakes(t.w, s.c.selfAddr, s.w.nodeAt[p.to], p.msg))
                                      else t
    ensures Taken(s, u).c == s.c && Taken(s, u).w.nodeAt == s.w.nodeAt
  {
    hide Dispatch, PeerTakes;
  }

  lemma DeliverKeeps(s: Sys, u: nat)
    requires Inv(s) && u in s.w.packets
    ensures Follows(s, EnvStep(s, Deliver(u)))
  {
    hide Inv, Follows, JustTaken, EnvStep, Taken, Dispatch, PeerTakes;
    var p, t := s.w.packets[u], Taken(s, u);
    DeliveryIs(s, u);
    TakenReady(s, u);
    assert Inv(t) by { FollowsInv(s, t); }
    if p.to == s.c.selfAddr {
      DispatchKeeps(t, p.msg);
    } else if p.to in s.w.nodeAt {
      PeerKeeps(t, p.to, s.w.nodeAt[p.to], p.msg);
    } else {
      SelfFollows(t);
    }
    FollowsTransitive(s, t, EnvStep(s, Deliver(u)));
  }

  lemma FollowsInv(s: Sys, t: Sys)
    requires Follows(s, t)
    ensures Inv(t)
  {
    hide Inv, Grows;
  }

  lemma ReplicateOk(s: Sys, rid: Rid)
    requires Inv(s) && rid.node in s.w.execs && rid.pid in s.w.execs[rid.node].states
    ensures PacketOk(s.w, s.c.selfAddr, Packet(s.c.selfAddr, Checkpoint(rid, s.w.execs[rid.node].states[rid.pid])))
  {
    assert AllBorn(s.w.births, rid.node, s.w.execs[rid.node].states);
    assert HoldsLast(s.w.held, rid.node, s.w.execs[rid.node].states);
    assert s.w.held[rid][|s.w.held[rid]| - 1].state == s.w.execs[rid.node].states[rid.pid];
  }

  lemma SourceKeeps(s: Sys, e: EnvEvent)
    requires Inv(s) && !e.Advance? && !e.Drop? && !e.Deliver? && !e.Rewrite?
    ensures Follows(s, Sys(s.c, Emit(s.w, s.c.selfAddr, e)))
  {
    hide Inv, Follows, Post;
    SelfFollows(s);
    match e
    case Announce(info) =>
      if info.addr in s.w.nodeAt && s.w.nodeAt[info.addr] == info.id { PostInv(s, s.c.selfAddr, Hello(info)); }
    case ReportLoad(n, m) => PostInv(s, s.c.selfAddr, Metrics(n, m));
    case Replicate(rid) =>
      if rid.node in s.w.execs && rid.pid in s.w.execs[rid.node].states {
        ReplicateOk(s, rid);
        PostInv(s, s.c.selfAddr, Checkpoint(rid, s.w.execs[rid.node].states[rid.pid]));
      }
    case Foreign(to, req, from, body) => if from != s.c.selfAddr { PostInv(s, to, Ask(req, from, body)); }
    case AskStatus(to, from) => PostInv(s, to, StatusRequest(from));
  }

  lemma ClockKeeps(s: Sys, e: EnvEvent)
    requires Inv(s) && (e.Advance? || e.Drop?)
    ensures Follows(s, EnvStep(s, e))
  {
    IdleKeeps(s, EnvStep(s, e).w);
    hide Inv, Follows;
  }

  lemma RestoredHosts(execs: map<NodeId, Exec>, births: map<Rid, Birth>, n: NodeId, pid: nat, state: Bytes)
    requires HostsOk(execs, births) && n in execs && pid in execs[n].states
    ensures HostsOk(execs[n := RestoreState(execs[n], pid, state).0], births)
    ensures ExecGrows(execs[n], RestoreState(execs[n], pid, state).0)
  {
    var execs' := execs[n := RestoreState(execs[n], pid, state).0];
    forall m | m in execs' ensures AllBorn(births, m, execs'[m].states) { assert AllBorn(births, m, execs[m].states); }
    forall r | r in births ensures IssuedIn(execs', births, r) { assert IssuedIn(execs, births, r); }
  }

  lemma RestoredHolds(held: Logs, n: NodeId, states: map<nat, Bytes>, pid: nat, x: Stamped, m: NodeId)
    requires HoldsLast(held, m, states)
    ensures HoldsLast(Noted(held, Rid(n, pid), x), m, if m == n then states[pid := x.state] else states)
  {
    var held', states' := Noted(held, Rid(n, pid), x), if m == n then states[pid := x.state] else states;
    forall p | p in states' ensures Last(LogOf(held', Rid(m, p)), states'[p]) {
      if Rid(m, p) != Rid(n, pid) { assert LogOf(held', Rid(m, p)) == LogOf(held, Rid(m, p)); }
    }
  }

  lemma RestoredHeld(execs: map<NodeId, Exec>, births: map<Rid, Birth>, held: Logs, n: NodeId, pid: nat, x: Stamped,
                     steps: nat)
    requires HeldOk(execs, births, held, steps) && n in execs && pid in execs[n].states && Rid(n, pid) in births
    requires x.step == steps + 1
    ensures HeldOk(execs[n := RestoreState(execs[n], pid, x.state).0], births, Noted(held, Rid(n, pid), x), steps + 1)
  {
    hide HoldsLast;
    var execs', held' := execs[n := RestoreState(execs[n], pid, x.state).0], Noted(held, Rid(n, pid), x);
    forall m | m in execs' ensures HoldsLast(held', m, execs'[m].states) {
      RestoredHolds(held, n, execs[m].states, pid, x, m);
    }
    forall r | r in held' ensures LogOk(held'[r], births[r].snapshot, steps + 1) {
      assert LogOk(held[r], births[r].snapshot, steps);
    }
  }

  lemma HostBorn(execs: map<NodeId, Exec>, births: map<Rid, Birth>, rid: Rid)
    requires HostsOk(execs, births) && rid.node in execs && rid.pid in execs[rid.node].states
    ensures rid in births
  {
    assert AllBorn(births, rid.node, execs[rid.node].states);
    assert Rid(rid.node, rid.pid) == rid;
  }

  /** Executors and logs after a worker has replaced the state of a process it hosts. */
  lemma RewriteExecs(w: World, rid: Rid, state: Bytes)
    requires ExecsOk(w) && rid.node in w.execs && rid.pid in w.execs[rid.node].states
    ensures var w' := Rewritten(w.(steps := w.steps + 1), rid, state);
            && HostsOk(w'.execs, w'.births) && HeldOk(w'.execs, w'.births, w'.held, w'.steps)
  {
    hide HostsOk, HeldOk, ArrivalsOk, Noted, RestoreState, ExecGrows;
    HostBorn(w.execs, w.births, rid);
    RestoredHosts(w.execs, w.births, rid.node, rid.pid, state);
    RestoredHeld(w.execs, w.births, w.held, rid.node, rid.pid, Stamped(state, w.now, w.steps + 1), w.steps);
  }

  lemma RewriteGrows(w: World, rid: Rid, state: Bytes)
    requires ExecsOk(w) && rid.node in w.execs && rid.pid in w.execs[rid.node].states
    ensures Grows(w, Rewritten(w.(steps := w.steps + 1), rid, state))
  {
    hide HostsOk, HeldOk, ArrivalsOk, LogsGrow, Noted, RestoreState, ExecGrows;
    RestoredHosts(w.execs, w.births, rid.node, rid.pid, state);
    LogsSame(w.delivered, w.steps);
    LogsNoted(w.held, rid, Stamped(state, w.now, w.steps + 1), w.steps);
    ExecsSame(w.execs);
  }

  lemma RewriteKeeps(s: Sys, rid: Rid, state: Bytes)
    requires Inv(s) && rid.node in s.w.execs && rid.pid in s.w.execs[rid.node].states
    ensures Follows(s, EnvStep(s, Rewrite(rid, state)))
  {
    hide HostsOk, HeldOk, PacketOk, ServedOk, CoordOk, Grows, Rewritten, ArrivalsOk;
    var w' := EnvStep(s, Rewrite(rid, state)).w;
    RewriteExecs(s.w, rid, state);
    RewriteGrows(s.w, rid, state);
    RewriteFrame(s.w, rid, state);
    ArrivalsGrow(s.w, w');
    forall req | req in w'.served ensures ServedOk(w', s.c.selfAddr, req) { ServedGrows(s.w, w', s.c.selfAddr, req); }
    forall u | u in w'.packets ensures PacketOk(w', s.c.selfAddr, w'.packets[u]) {
      PacketStays(s.w, w', s.c.selfAddr, s.w.packets[u]);
    }
    CoordGrows(s.w, w', s.c);
  }

  /** Nothing but executors and logs of held bytes changes. */
  lemma RewriteFrame(w: World, rid: Rid, state: Bytes)
    ensures var w' := Rewritten(w.(steps := w.steps + 1), rid, state);
            w' == w.(steps := w.steps + 1, execs := w'.execs, held := w'.held)
  {
  }

  lemma EnvStepKeeps(s: Sys, e: EnvEvent)
    requires Inv(s)
    ensures Follows(s, EnvStep(s, e))
  {
    hide Inv, Emit, DeliverPacket, Grows, SameBooks;
    var t := Sys(s.c, s.w.(steps := s.w.steps + 1));
    IdleKeeps(s, t.w);
    if e.Advance? || e.Drop? {
      ClockKeeps(s, e);
    } else if e.Deliver? {
      if e.packet in s.w.packets { DeliverKeeps(s, e.packet); }
    } else if e.Rewrite? {
      if e.rid.node in s.w.execs && e.rid.pid in s.w.execs[e.rid.node].states { RewriteKeeps(s, e.rid, e.state); }
    } else {
      SourceKeeps(t, e);
      FollowsTransitive(s, t, Sys(t.c, Emit(t.w, t.c.selfAddr, e)));
    }
  }
}
