/** One coordinator, its peers and the messages in flight between them, as a step system.

    Everything the environment may do while the coordinator waits is an `EnvEvent`; a schedule is
    a sequence of them. A message may be delayed, reordered or lost, peers may announce
    themselves, replicate or replace the state of what they host, and serve requests of other
    coordinators at any moment. */
module ClusterModel {
  import opened Common
  import opened ClusterTypes
  import opened Executor

  datatype Kind = KSpawn(node: NodeId) | KKill | KSetPriority | KGetState

  datatype Pending = Pending(id: RequestId, kind: Kind)

  datatype Error =
    | NoNode
    | UnknownNode(node: NodeId)
    | SendFailed
    | Disconnected
    | TimedOut
    | Rejected(error: Option<string>)
    | NotTracked
    | SourceIsTarget
    | NoOtherNode
    | SourceNotKilled(newRid: Rid, cause: Error)

  datatype Snapshot = Snapshot(state: Bytes, at: nat)

  /** The fields of the coordinating scheduler. */
  datatype Coord = Coord(
    selfId: NodeId,
    selfAddr: Addr,
    strategy: Strategy,
    nodes: map<NodeId, NodeInfo>,
    remote: map<Rid, Status>,
    specs: map<Rid, Spec>,
    rrCursor: nat,
    nextRequest: RequestId,
    pending: Option<Pending>,
    spawnResult: Option<Result<Rid, Error>>,
    ctrlResult: Option<Result<(), Error>>,
    getStateResult: Option<Result<Bytes, Error>>,
    lastContact: map<NodeId, nat>,
    checkpoints: map<Rid, Snapshot>,
    failoverRespawn: bool,
    failoverThreshold: nat,
    checkpointTtl: nat)

  datatype Packet = Packet(to: Addr, msg: Message)

  // History, kept only to state properties: what was sent, served and acknowledged, which bytes each
  // process has held and which checkpoints have arrived, and when.
  datatype Sent = Sent(node: NodeId, body: Request, at: nat)
  datatype Served = Served(node: NodeId, body: Request, reply: Reply, left: Option<Process>, at: nat)
  datatype Birth = Birth(from: Addr, req: RequestId, spec: Spec, snapshot: Bytes)

  /** Bytes, with the clock and the step at which they were stored or arrived. */
  datatype Stamped = Stamped(state: Bytes, at: nat, step: nat)

  type Logs = map<Rid, seq<Stamped>>

  datatype World = World(
    nodeAt: map<Addr, NodeId>,
    execs: map<NodeId, Exec>,
    packets: map<nat, Packet>,
    nextPacket: nat,
    now: nat,
    steps: nat,
    sent: map<RequestId, Sent>,
    served: map<RequestId, Served>,
    acked: map<RequestId, nat>,
    births: map<Rid, Birth>,
    held: Logs,
    delivered: Logs)

  datatype Sys = Sys(c: Coord, w: World)

  datatype EnvEvent =
    | Advance(ticks: nat)
    | Drop(packet: nat)
    | Announce(info: NodeInfo)
    | ReportLoad(node: NodeId, metrics: NodeMetrics)
    | Replicate(rid: Rid)
    | Rewrite(rid: Rid, state: Bytes)
    | Foreign(to: Addr, req: RequestId, from: Addr, body: Request)
    | AskStatus(to: Addr, from: Addr)
    | Deliver(packet: nat)

  type Schedule = seq<EnvEvent>

  function LogOf(logs: Logs, rid: Rid): seq<Stamped> {
    if rid in logs then logs[rid] else []
  }

  function Noted(logs: Logs, rid: Rid, x: Stamped): Logs {
    logs[rid := LogOf(logs, rid) + [x]]
  }

  /** The last entry of `log` made before `step`. */
  function Latest(log: seq<Stamped>, step: nat): Option<Stamped> {
    if log == [] then None
    else if log[|log| - 1].step < step then Some(log[|log| - 1])
    else Latest(log[..|log| - 1], step)
  }

  function Post(w: World, to: Addr, msg: Message): World {
    w.(packets := w.packets[w.nextPacket := Packet(to, msg)], nextPacket := w.nextPacket + 1)
  }

  const NO_EXECUTOR: string := "node has no process executor"

  function Refusal(body: Request): Reply {
    match body
    case Spawn(_, _) => SpawnAck(0, false, Some(NO_EXECUTOR))
    case Kill(_) => KillAck(false, Some(NO_EXECUTOR))
    case SetPriority(_, _) => SetPriorityAck(false, Some(NO_EXECUTOR))
    case GetState(_) => GetStateReply(false, [], Some(NO_EXECUTOR))
  }

  function PerformAt(w: World, n: NodeId, body: Request): (World, Reply) {
    if n in w.execs then
      var (e, reply) := Perform(w.execs[n], body);
      (w.(execs := w.execs[n := e]), reply)
    else
      (w, Refusal(body))
  }

  function NewBirths(births: map<Rid, Birth>, n: NodeId, req: RequestId, from: Addr, body: Request, reply: Reply)
    : map<Rid, Birth>
  {
    if body.Spawn? && reply.SpawnAck? && reply.ok
    then births[Rid(n, reply.pid) := Birth(from, req, body.spec, Seed(body.spec, body.state))]
    else births
  }

  function NewHeld(held: Logs, n: NodeId, body: Request, reply: Reply, now: nat, steps: nat): Logs {
    if body.Spawn? && reply.SpawnAck? && reply.ok
    then held[Rid(n, reply.pid) := [Stamped(Seed(body.spec, body.state), now, steps)]]
    else held
  }

  /** The process a request was about, as node `n` has it. */
  function Left(execs: map<NodeId, Exec>, n: NodeId, body: Request, reply: Reply): Option<Process> {
    var pid := if body.Spawn? then (if reply.SpawnAck? then reply.pid else 0) else body.pid;
    if n in execs && pid in execs[n].processes then Some(execs[n].processes[pid]) else None
  }

  /** Note what serving did and answer the sender; `me` is the coordinator whose history is kept. */
  function Record(w: World, me: Addr, n: NodeId, req: RequestId, from: Addr, body: Request, reply: Reply): World {
    Post(w.(births := NewBirths(w.births, n, req, from, body, reply),
            held := NewHeld(w.held, n, body, reply, w.now, w.steps),
            served := if from == me
                      then w.served[req := Served(n, body, reply, Left(w.execs, n, body, reply), w.steps)]
                      else w.served),
         from, Answer(req, reply))
  }

  /** Node `n` serves a request. */
  function Serve(w: World, me: Addr, n: NodeId, req: RequestId, from: Addr, body: Request): World {
    var (w1, reply) := PerformAt(w, n, body);
    Record(w1, me, n, req, from, body, reply)
  }

  function StatusOf(w: World, n: NodeId): map<Rid, Status> {
    if n in w.execs then
      map rid | rid in (set pid | pid in w.execs[n].processes :: Rid(n, pid))
        :: Status(rid, w.execs[n].processes[rid.pid].name, w.execs[n].processes[rid.pid].state,
                  w.execs[n].processes[rid.pid].ramMb)
    else map[]
  }

  function LocalMetrics(w: World, n: NodeId): NodeMetrics {
    NodeMetrics(0.0, 0, 0, if n in w.execs then |w.execs[n].processes| else 0)
  }

  function RegisterNode(c: Coord, info: NodeInfo, now: nat): Coord {
    c.(nodes := c.nodes[info.id := if info.id in c.nodes
                                   then c.nodes[info.id].(addr := info.addr, name := info.name, tier := info.tier,
                                                         status := Online)
                                   else info],
       lastContact := c.lastContact[info.id := now])
  }

  function NoteMetrics(c: Coord, id: NodeId, metrics: NodeMetrics, now: nat): Coord {
    c.(nodes := c.nodes[id := if id in c.nodes then c.nodes[id].(metrics := metrics)
                              else NodeInfo(id, "node", "", 0, Unknown, metrics)],
       lastContact := c.lastContact[id := now])
  }

  function Verdict<T>(ok: bool, value: T, error: Option<string>): Result<T, Error> {
    if ok then Ok(value) else Err(Rejected(error))
  }

  function Complete(c: Coord, req: RequestId, reply: Reply): Coord {
    if c.pending.None? || c.pending.value.id != req then c
    else match reply
      case SpawnAck(pid, ok, error) =>
        (match c.pending.value.kind
         case KSpawn(node) => c.(spawnResult := Some(Verdict(ok, Rid(node, pid), error)), pending := None)
         case _ => c)
      case KillAck(ok, error) => c.(ctrlResult := Some(Verdict(ok, (), error)), pending := None)
      case SetPriorityAck(ok, error) => c.(ctrlResult := Some(Verdict(ok, (), error)), pending := None)
      case GetStateReply(ok, state, error) => c.(getStateResult := Some(Verdict(ok, state, error)), pending := None)
  }

  /** The coordinator takes one message off its inbox. */
  function Dispatch(s: Sys, msg: Message): Sys {
    var c, w := s.c, s.w;
    match msg
    case Hello(info) =>
      if info.id == c.selfId then s
      else Sys(RegisterNode(c, info, w.now), Post(w, info.addr, Metrics(c.selfId, LocalMetrics(w, c.selfId))))
    case Metrics(id, metrics) => Sys(NoteMetrics(c, id, metrics, w.now), w)
    case Ask(req, from, body) => Sys(c, Serve(w, c.selfAddr, c.selfId, req, from, body))
    case Answer(req, reply) =>
      Sys(Complete(c, req, reply), w.(acked := if req in w.acked then w.acked else w.acked[req := w.steps]))
    case Checkpoint(rid, state) =>
      Sys(c.(checkpoints := c.checkpoints[rid := Snapshot(state, w.now)]),
          w.(delivered := Noted(w.delivered, rid, Stamped(state, w.now, w.steps))))
    case StatusRequest(from) => Sys(c, Post(w, from, StatusReply(StatusOf(w, c.selfId))))
    case StatusReply(processes) => Sys(c.(remote := c.remote + processes), w)
  }

  /** A peer other than the coordinator takes a message. */
  function PeerTakes(w: World, me: Addr, n: NodeId, msg: Message): World {
    match msg
    case Ask(req, from, body) => Serve(w, me, n, req, from, body)
    case StatusRequest(from) => Post(w, from, StatusReply(StatusOf(w, n)))
    case _ => w
  }

  function DeliverPacket(s: Sys, u: nat): Sys
    requires u in s.w.packets
  {
    var p := s.w.packets[u];
    var w := s.w.(packets := s.w.packets - {u});
    if p.to == s.c.selfAddr then Dispatch(Sys(s.c, w), p.msg)
    else if p.to in w.nodeAt then Sys(s.c, PeerTakes(w, s.c.selfAddr, w.nodeAt[p.to], p.msg))
    else Sys(s.c, w)
  }

  /** The events that only put a message on the network. */
  function Emit(w: World, me: Addr, e: EnvEvent): World
    requires !e.Advance? && !e.Drop? && !e.Deliver? && !e.Rewrite?
  {
    match e
    case Announce(info) =>
      if info.addr in w.nodeAt && w.nodeAt[info.addr] == info.id then Post(w, me, Hello(info)) else w
    case ReportLoad(n, m) => Post(w, me, Metrics(n, m))
    case Replicate(rid) =>
      if rid.node in w.execs && rid.pid in w.execs[rid.node].states
      then Post(w, me, Checkpoint(rid, w.execs[rid.node].states[rid.pid])) else w
    case Foreign(to, req, from, body) => if from != me then Post(w, to, Ask(req, from, body)) else w
    case AskStatus(to, from) => Post(w, to, StatusRequest(from))
  }

  /** A worker replaces the state of a process it hosts. */
  function Rewritten(w: World, rid: Rid, state: Bytes): World {
    if rid.node in w.execs && rid.pid in w.execs[rid.node].states then
      w.(execs := w.execs[rid.node := RestoreState(w.execs[rid.node], rid.pid, state).0],
         held := Noted(w.held, rid, Stamped(state, w.now, w.steps)))
    else w
  }

  function EnvStep(s: Sys, e: EnvEvent): Sys {
    var t := Sys(s.c, s.w.(steps := s.w.steps + 1));
    match e
    case Advance(ticks) => Sys(t.c, t.w.(now := t.w.now + ticks))
    case Drop(u) => Sys(t.c, t.w.(packets := t.w.packets - {u}))
    case Deliver(u) => if u in t.w.packets then DeliverPacket(t, u) else t
    case Rewrite(rid, state) => Sys(t.c, Rewritten(t.w, rid, state))
    case _ => Sys(t.c, Emit(t.w, t.c.selfAddr, e))
  }

  function Play(s: Sys, evs: Schedule): Sys
    decreases |evs|
  {
    if evs == [] then s else Play(EnvStep(s, evs[0]), evs[1..])
  }

  predicate Filled(c: Coord, kind: Kind) {
    match kind
    case KSpawn(_) => c.spawnResult.Some?
    case KGetState => c.getStateResult.Some?
    case _ => c.ctrlResult.Some?
  }

  function Clear(c: Coord, kind: Kind): Coord {
    match kind
    case KSpawn(_) => c.(spawnResult := None)
    case KGetState => c.(getStateResult := None)
    case _ => c.(ctrlResult := None)
  }

  /** Allocate a request id, park it as pending and hand the message to the transport. */
  function Begin(s: Sys, node: NodeId, kind: Kind, body: Request, arrives: bool): Sys
    requires node in s.c.nodes
  {
    var id := s.c.nextRequest;
    var w := s.w.(steps := s.w.steps + 1);
    var w' := w.(sent := w.sent[id := Sent(node, body, w.steps)]);
    Sys(s.c.(nextRequest := id + 1, pending := Some(Pending(id, kind))),
        if arrives then Post(w', s.c.nodes[node].addr, Ask(id, s.c.selfAddr, body)) else w')
  }

  /** The wait loop: messages are dispatched until the slot fills or the schedule (the deadline) ends. */
  function Await(s: Sys, kind: Kind, evs: Schedule): Sys
    decreases |evs|
  {
    if evs == [] || Filled(s.c, kind) then s else Await(EnvStep(s, evs[0]), kind, evs[1..])
  }

  /** What the environment does around one blocking call. */
  datatype CallEnv = CallEnv(pre: Schedule, sendOk: bool, arrives: bool, wait: Schedule, closes: bool)

  /** Send one request and wait for its slot. `None` means the wait ended normally. */
  function Call(s: Sys, node: NodeId, kind: Kind, body: Request, env: CallEnv): (Sys, Option<Error>) {
    if node !in s.c.nodes then (s, Some(UnknownNode(node))) else
    var s1 := Begin(s, node, kind, body, env.arrives);
    if !env.sendOk then (s1, Some(SendFailed)) else
    var s2 := Await(s1, kind, env.wait);
    if env.closes && !Filled(s2.c, kind) then (s2, Some(Disconnected))
    else (s2.(c := s2.c.(pending := None)), None)
  }
}
