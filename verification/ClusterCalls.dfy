/** Blocking calls: a slot is only ever filled by the reply that the addressed node gave to the very
    request the caller sent. */
module ClusterCalls {
  import opened Common
  import opened ClusterTypes
  import opened Executor
  import opened ClusterModel
  import opened ClusterInvariant
  import opened ClusterSteps

  /** The slot of `kind` holds the translation of `reply`. */
  ghost predicate SlotIs(c: Coord, kind: Kind, reply: Reply) {
    match kind
    case KSpawn(n) => reply.SpawnAck? && c.spawnResult == Some(Verdict(reply.ok, Rid(n, reply.pid), reply.error))
    case KGetState => reply.GetStateReply? && c.getStateResult == Some(Verdict(reply.ok, reply.state, reply.error))
    case _ => (reply.KillAck? || reply.SetPriorityAck?) && c.ctrlResult == Some(Verdict(reply.ok, (), reply.error))
  }

  /** Request `req` is `body` for `node`; it was served there, and its reply has reached the coordinator. */
  ghost predicate Answered(w: World, req: RequestId, node: NodeId, body: Request) {
    && req in w.sent && req in w.served && req in w.acked
    && w.served[req].node == node && w.served[req].body == body
  }

  ghost predicate Outstanding(s: Sys, req: RequestId, kind: Kind, node: NodeId, body: Request) {
    && req in s.w.sent && s.w.sent[req].node == node && s.w.sent[req].body == body
    && KindFits(kind, s.w.sent[req])
    && s.c.nextRequest == req + 1
    && if Filled(s.c, kind)
       then s.c.pending.None? && Answered(s.w, req, node, body) && SlotIs(s.c, kind, s.w.served[req].reply)
       else s.c.pending == Some(Pending(req, kind))
  }

  // ---- one step of the wait loop ------------------------------------------------------------

  /** Pending request, slots and request counter agree. */
  ghost predicate SameSlots(c: Coord, c': Coord) {
    && c'.pending == c.pending && c'.spawnResult == c.spawnResult && c'.ctrlResult == c.ctrlResult
    && c'.getStateResult == c.getStateResult && c'.nextRequest == c.nextRequest
  }

  lemma DispatchSlots(s: Sys, msg: Message)
    requires !msg.Answer?
    ensures SameSlots(s.c, Dispatch(s, msg).c)
  {
    hide Serve, Post;
  }

  lemma QuietSlots(s: Sys, e: EnvEvent)
    requires e.Deliver? && e.packet in s.w.packets ==>
               s.w.packets[e.packet].to != s.c.selfAddr || !s.w.packets[e.packet].msg.Answer?
    ensures SameSlots(s.c, EnvStep(s, e).c)
  {
    hide Dispatch, PeerTakes, Post;
    if e.Deliver? && e.packet in s.w.packets {
      var p := s.w.packets[e.packet];
      if p.to == s.c.selfAddr { DispatchSlots(Taken(s, e.packet), p.msg); }
    }
  }

  lemma OutstandingGrows(s: Sys, s': Sys, req: RequestId, kind: Kind, node: NodeId, body: Request)
    requires Outstanding(s, req, kind, node, body) && Grows(s.w, s'.w) && SameSlots(s.c, s'.c)
    ensures Outstanding(s', req, kind, node, body)
  {
  }

  lemma AnswerOutstanding(s: Sys, req: RequestId, kind: Kind, node: NodeId, body: Request, r: RequestId, reply: Reply)
    requires Inv(s) && Outstanding(s, req, kind, node, body)
    requires r in s.w.served && s.w.served[r].reply == reply
    ensures Outstanding(Dispatch(s, Answer(r, reply)), req, kind, node, body)
  {
    hide ExecsOk, PacketsOk, CoordOk;
    assert ServedOk(s.w, s.c.selfAddr, r);
  }

  lemma EnvStepOutstanding(s: Sys, e: EnvEvent, req: RequestId, kind: Kind, node: NodeId, body: Request)
    requires Inv(s) && Outstanding(s, req, kind, node, body)
    ensures Outstanding(EnvStep(s, e), req, kind, node, body)
  {
    EnvStepKeeps(s, e);
    if && e.Deliver? && e.packet in s.w.packets
       && s.w.packets[e.packet].to == s.c.selfAddr && s.w.packets[e.packet].msg.Answer?
    {
      DeliveredAnswer(s, e.packet, req, kind, node, body);
    } else {
      QuietSlots(s, e);
      hide Inv, EnvStep;
      OutstandingGrows(s, EnvStep(s, e), req, kind, node, body);
    }
  }

  lemma TakenSlots(s: Sys, u: nat, req: RequestId, kind: Kind, node: NodeId, body: Request)
    requires Outstanding(s, req, kind, node, body)
    ensures Outstanding(Taken(s, u), req, kind, node, body)
  {
  }

  lemma DeliveredAnswer(s: Sys, u: nat, req: RequestId, kind: Kind, node: NodeId, body: Request)
    requires Inv(s) && Outstanding(s, req, kind, node, body)
    requires u in s.w.packets && s.w.packets[u].to == s.c.selfAddr && s.w.packets[u].msg.Answer?
    ensures Outstanding(EnvStep(s, Deliver(u)), req, kind, node, body)
  {
    hide Dispatch, Grows, SameBooks;
    var t, msg := Taken(s, u), s.w.packets[u].msg;
    TakenReady(s, u);
    hide Inv;
    TakenSlots(s, u, req, kind, node, body);
    AnswerOutstanding(t, req, kind, node, body, msg.req, msg.reply);
    hide Outstanding;
  }

  // ---- whole schedules ----------------------------------------------------------------------

  lemma {:induction false} PlayKeeps(s: Sys, evs: Schedule)
    requires Inv(s)
    ensures Follows(s, Play(s, evs)) && Play(s, evs).c.nextRequest == s.c.nextRequest
    decreases |evs|
  {
    hide Inv, EnvStep;
    SelfFollows(s);
    if evs != [] {
      var t := EnvStep(s, evs[0]);
      EnvStepKeeps(s, evs[0]);
      EnvStepCounter(s, evs[0]);
      PlayKeeps(t, evs[1..]);
      FollowsTransitive(s, t, Play(t, evs[1..]));
    }
  }

  lemma EnvStepCounter(s: Sys, e: EnvEvent)
    ensures EnvStep(s, e).c.nextRequest == s.c.nextRequest
  {
    hide Dispatch, PeerTakes, Emit;
    if e.Deliver? && e.packet in s.w.packets {
      var w := s.w.(steps := s.w.steps + 1);
      DispatchCounter(Sys(s.c, w.(packets := w.packets - {e.packet})), s.w.packets[e.packet].msg);
    }
  }

  lemma DispatchCounter(s: Sys, msg: Message)
    ensures Dispatch(s, msg).c.nextRequest == s.c.nextRequest
  {
    hide Serve, Post, Complete;
    if msg.Answer? { CompleteBooks(s.c, msg.req, msg.reply); }
  }

  lemma {:induction false} AwaitKeeps(s: Sys, evs: Schedule, req: RequestId, kind: Kind, node: NodeId, body: Request)
    requires Inv(s) && Outstanding(s, req, kind, node, body)
    ensures Follows(s, Await(s, kind, evs)) && Outstanding(Await(s, kind, evs), req, kind, node, body)
    decreases |evs|
  {
    hide Inv, EnvStep, Outstanding;
    SelfFollows(s);
    if evs != [] && !Filled(s.c, kind) {
      var t := EnvStep(s, evs[0]);
      EnvStepKeeps(s, evs[0]);
      EnvStepOutstanding(s, evs[0], req, kind, node, body);
      AwaitKeeps(t, evs[1..], req, kind, node, body);
      FollowsTransitive(s, t, Await(t, kind, evs[1..]));
    }
  }

  // ---- one blocking call --------------------------------------------------------------------

  lemma AddressOk(s: Sys, node: NodeId)
    requires CoordOk(s.w, s.c) && node in s.c.nodes
    ensures s.c.nodes[node].addr in s.w.nodeAt ==> s.w.nodeAt[s.c.nodes[node].addr] == node
  {
  }

  lemma BeginGrows(s: Sys, node: NodeId, kind: Kind, body: Request, arrives: bool)
    requires s.c.nextRequest !in s.w.sent && node in s.c.nodes
    ensures Grows(s.w, Begin(s, node, kind, body, arrives).w)
  {
    LogsSame(s.w.held, s.w.steps);
    LogsSame(s.w.delivered, s.w.steps);
    hide LogsGrow;
  }

  lemma BeginPackets(s: Sys, node: NodeId, kind: Kind, body: Request, arrives: bool)
    requires Inv(s) && node in s.c.nodes
    ensures PacketsOk(Begin(s, node, kind, body, arrives).w, s.c.selfAddr)
    ensures Grows(s.w, Begin(s, node, kind, body, arrives).w)
  {
    hide HostsOk, CoordOk;
    var w', me := Begin(s, node, kind, body, arrives).w, s.c.selfAddr;
    assert s.c.nextRequest !in s.w.sent;
    BeginGrows(s, node, kind, body, arrives);
    AddressOk(s, node);
    hide ServedOk, Grows, HistoryOk, ExecsOk;
    forall u | u in w'.packets ensures u < w'.nextPacket && PacketOk(w', me, w'.packets[u]) {
      if u != s.w.nextPacket { PacketGrows(s.w, w', me, s.w.packets[u]); }
    }
  }

  lemma BeginHistory(s: Sys, node: NodeId, kind: Kind, body: Request, arrives: bool)
    requires Inv(s) && node in s.c.nodes
    ensures HistoryOk(Begin(s, node, kind, body, arrives).w, s.c.selfAddr, s.c.nextRequest + 1)
  {
    var w' := Begin(s, node, kind, body, arrives).w;
    BeginPackets(s, node, kind, body, arrives);
    forall r | r in w'.served ensures ServedOk(w', s.c.selfAddr, r) { ServedGrows(s.w, w', s.c.selfAddr, r); }
    hide ExecsOk, PacketsOk, ServedOk, CoordOk, Grows;
  }

  lemma PendingOk(w: World, c: Coord, c': Coord)
    requires TablesOk(w, c) && c' == c.(nextRequest := c.nextRequest + 1, pending := c'.pending)
    requires c'.pending.Some? ==>
               c'.pending.value.id in w.sent && KindFits(c'.pending.value.kind, w.sent[c'.pending.value.id])
    ensures TablesOk(w, c')
  {
    hide IssuedIn;
    forall rid | rid in c'.specs ensures Tracked(w, c', rid) { assert Tracked(w, c, rid); }
  }

  lemma BeginCoord(s: Sys, node: NodeId, kind: Kind, body: Request, arrives: bool)
    requires Inv(s) && node in s.c.nodes && KindFits(kind, Sent(node, body, 0))
    ensures var s' := Begin(s, node, kind, body, arrives); CoordOk(s'.w, s'.c)
  {
    hide HostsOk, PacketsOk, HistoryOk, IssuedIn, TablesOk;
    var s' := Begin(s, node, kind, body, arrives);
    BeginPackets(s, node, kind, body, arrives);
    CoordGrows(s.w, s'.w, s.c);
    PendingOk(s'.w, s.c, s'.c);
    hide Grows, Issued;
  }

  lemma BeginKeeps(s: Sys, node: NodeId, kind: Kind, body: Request, arrives: bool)
    requires Inv(s) && node in s.c.nodes && !Filled(s.c, kind) && KindFits(kind, Sent(node, body, 0))
    ensures var s' := Begin(s, node, kind, body, arrives);
            && Follows(s, s') && Outstanding(s', s.c.nextRequest, kind, node, body)
            && s'.w.sent[s.c.nextRequest].at == s.w.steps + 1
  {
    hide ExecsOk, PacketsOk, HistoryOk, CoordOk, Grows;
    RecordsKeep(s.w, Begin(s, node, kind, body, arrives).w);
    BeginPackets(s, node, kind, body, arrives);
    BeginHistory(s, node, kind, body, arrives);
    BeginCoord(s, node, kind, body, arrives);
  }

  /** A call that returns normally with its slot filled was answered by its own node, after it was sent. */
  lemma CallAnswered(s: Sys, node: NodeId, kind: Kind, body: Request, env: CallEnv)
    requires Inv(s) && !Filled(s.c, kind) && KindFits(kind, Sent(node, body, 0))
    ensures var (s', failed) := Call(s, node, kind, body, env);
            && Follows(s, s')
            && (failed.None? ==> s'.c.pending.None?)
            && (failed.Some? ==> !failed.value.Rejected?)
            && (failed.None? && Filled(s'.c, kind) ==>
                  && s'.c.nextRequest == s.c.nextRequest + 1
                  && Answered(s'.w, s.c.nextRequest, node, body)
                  && SlotIs(s'.c, kind, s'.w.served[s.c.nextRequest].reply)
                  && s'.w.sent[s.c.nextRequest].at == s.w.steps + 1)
  {
    SelfFollows(s);
    if node in s.c.nodes {
      var req := s.c.nextRequest;
      var s1 := Begin(s, node, kind, body, env.arrives);
      BeginKeeps(s, node, kind, body, env.arrives);
      if env.sendOk {
        var s2 := Await(s1, kind, env.wait);
        AwaitKeeps(s1, env.wait, req, kind, node, body);
        FollowsTransitive(s, s1, s2);
        var s3 := s2.(c := s2.c.(pending := None));
        Unpend(s2);
        FollowsTransitive(s, s2, s3);
        hide Inv, Await;
      }
    }
  }

  lemma Unpend(s: Sys)
    requires Inv(s)
    ensures Follows(s, s.(c := s.c.(pending := None)))
  {
    hide ExecsOk, PacketsOk, HistoryOk, TablesOk, Issued;
    TablesMove(s.w, s.c, s.c.(pending := None));
    BooksKeep(s, s.c.(pending := None));
  }
}
