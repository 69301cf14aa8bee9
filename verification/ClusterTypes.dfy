/** Node identity, process references and wire messages of the cluster. */
module ClusterTypes {
  import opened Common

  type NodeId = nat
  type RequestId = nat
  type Addr = string

  datatype NodeStatus = Unknown | Online | Offline | Leaving

  datatype NodeMetrics = NodeMetrics(cpu: real, ramUsed: nat, ramTotal: nat, processCount: nat)

  datatype NodeInfo =
    NodeInfo(id: NodeId, name: string, addr: Addr, tier: nat, status: NodeStatus, metrics: NodeMetrics)

  datatype Rid = Rid(node: NodeId, pid: nat)

  datatype Spec = Spec(
    name: string, priority: nat, ramMb: nat, blockId: Option<nat>, payload: Bytes,
    minTier: Option<nat>, maxTier: Option<nat>)

  datatype Status = Status(id: Rid, name: string, state: string, ramMb: nat)

  datatype Strategy = RoundRobin | LeastLoaded | ByTier

  /** The four requests a coordinator sends; `id` and `from` travel in the message around it. */
  datatype Request =
    | Spawn(spec: Spec, state: Option<Bytes>)
    | Kill(pid: nat)
    | SetPriority(pid: nat, priority: nat)
    | GetState(pid: nat)

  datatype Reply =
    | SpawnAck(pid: nat, ok: bool, error: Option<string>)
    | KillAck(ok: bool, error: Option<string>)
    | SetPriorityAck(ok: bool, error: Option<string>)
    | GetStateReply(ok: bool, state: Bytes, error: Option<string>)

  datatype Message =
    | Hello(info: NodeInfo)
    | Metrics(id: NodeId, metrics: NodeMetrics)
    | Ask(req: RequestId, from: Addr, body: Request)
    | Answer(req: RequestId, reply: Reply)
    | Checkpoint(rid: Rid, state: Bytes)
    | StatusRequest(from: Addr)
    | StatusReply(processes: map<Rid, Status>)

  /** `reply` is of the kind a node gives to `body`. */
  predicate Answers(body: Request, reply: Reply) {
    match body
    case Spawn(_, _) => reply.SpawnAck?
    case Kill(_) => reply.KillAck?
    case SetPriority(_, _) => reply.SetPriorityAck?
    case GetState(_) => reply.GetStateReply?
  }
}
