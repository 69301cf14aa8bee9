/** The in-memory process executor that runs processes on behalf of peers. */
module Executor {
  import opened Common
  import opened ClusterTypes

  datatype Process = Process(name: string, priority: nat, ramMb: nat, state: string)

  datatype Exec = Exec(processes: map<nat, Process>, states: map<nat, Bytes>, nextPid: nat)

  const EMPTY: Exec := Exec(map[], map[], 1)

  /** Every hosted process has a snapshot and an already issued pid. */
  ghost predicate ExecInv(e: Exec) {
    && e.processes.Keys == e.states.Keys
    && 1 <= e.nextPid
    && forall pid :: pid in e.states ==> 1 <= pid < e.nextPid
  }

  function SpawnProcess(e: Exec, spec: Spec): (Exec, nat) {
    (Exec(e.processes[e.nextPid := Process(spec.name, spec.priority, spec.ramMb, "Running")],
          e.states[e.nextPid := spec.payload],
          e.nextPid + 1),
     e.nextPid)
  }

  function KillProcess(e: Exec, pid: nat): (Exec, Result<(), string>) {
    if pid in e.processes
    then (Exec(e.processes - {pid}, e.states - {pid}, e.nextPid), Ok(()))
    else (e, Err("no process"))
  }

  /** Priorities end at 4, the idle one. */
  function Clamped(priority: nat): nat {
    if priority > 4 then 4 else priority
  }

  function ChangePriority(e: Exec, pid: nat, priority: nat): (Exec, Result<(), string>) {
    if pid in e.processes
    then (e.(processes := e.processes[pid := e.processes[pid].(priority := Clamped(priority))]), Ok(()))
    else (e, Err("no process"))
  }

  function ExtractState(e: Exec, pid: nat): Result<Bytes, string> {
    if pid in e.states then Ok(e.states[pid]) else Err("no process")
  }

  function RestoreState(e: Exec, pid: nat, state: Bytes): (Exec, Result<(), string>) {
    if pid in e.states then (e.(states := e.states[pid := state]), Ok(())) else (e, Err("no process"))
  }

  /** The worker's half of a request: what the executor does and what it answers. */
  function Perform(e: Exec, body: Request): (Exec, Reply) {
    match body
    case Spawn(spec, state) =>
      var (e1, pid) := SpawnProcess(e, spec);
      var (e2, restored) := if state.Some? then RestoreState(e1, pid, state.value) else (e1, Ok(()));
      (match restored
       case Ok(_) => (e2, SpawnAck(pid, true, None))
       case Err(error) => (KillProcess(e2, pid).0, SpawnAck(0, false, Some(error))))
    case Kill(pid) =>
      var (e1, done) := KillProcess(e, pid);
      (e1, if done.Ok? then KillAck(true, None) else KillAck(false, Some(done.error)))
    case SetPriority(pid, priority) =>
      var (e1, done) := ChangePriority(e, pid, priority);
      (e1, if done.Ok? then SetPriorityAck(true, None) else SetPriorityAck(false, Some(done.error)))
    case GetState(pid) =>
      (match ExtractState(e, pid)
       case Ok(state) => (e, GetStateReply(true, state, None))
       case Err(error) => (e, GetStateReply(false, [], Some(error))))
  }

  /** The snapshot a freshly spawned process starts from. */
  function Seed(spec: Spec, state: Option<Bytes>): Bytes {
    if state.Some? then state.value else spec.payload
  }

  /** Every process but `pid` is as it was. */
  ghost predicate OthersSame(e: Exec, e': Exec, pid: nat) {
    && (forall p :: p != pid && p in e.processes ==> p in e'.processes && e'.processes[p] == e.processes[p])
    && (forall p :: p != pid && p in e'.processes ==> p in e.processes)
    && (forall p :: p != pid && p in e.states && p in e'.states ==> e'.states[p] == e.states[p])
  }

  /** `e'` and `reply` are a correct outcome of `body` on `e`: only the process it is about is touched and pids are
      never reused; an acknowledged spawn runs under a new pid with exactly the bytes it was sent, a kill removes its
      victim, a priority is changed to the clamped one, and a snapshot is handed out as it is. Anything but a spawn
      succeeds exactly for a hosted process. */
  ghost predicate Performed(e: Exec, body: Request, e': Exec, reply: Reply) {
    && ExecInv(e') && Answers(body, reply) && e.nextPid <= e'.nextPid
    && OthersSame(e, e', if body.Spawn? then e.nextPid else body.pid)
    && (body.Spawn? ==>
          && reply.ok && reply.pid == e.nextPid < e'.nextPid && reply.pid in e'.states
          && e'.states[reply.pid] == Seed(body.spec, body.state)
          && e'.processes[reply.pid] == Process(body.spec.name, body.spec.priority, body.spec.ramMb, "Running"))
    && (!body.Spawn? ==> (reply.ok <==> body.pid in e.processes))
    && (body.Kill? ==> body.pid !in e'.processes)
    && (body.SetPriority? || body.GetState? ==> e'.states == e.states)
    && (body.SetPriority? && reply.ok ==>
          && body.pid in e'.processes
          && e'.processes[body.pid] == e.processes[body.pid].(priority := Clamped(body.priority)))
    && (body.GetState? ==> e'.processes == e.processes)
    && (body.GetState? && reply.ok ==> reply.state == e.states[body.pid])
  }

  lemma PerformKeeps(e: Exec, body: Request)
    requires ExecInv(e)
    ensures Performed(e, body, Perform(e, body).0, Perform(e, body).1)
  {
  }

  class MockProcessExecutor {
    var processes: map<nat, Process>
    var states: map<nat, Bytes>
    var nextPid: nat

    ghost function View(): Exec
      reads this
    {
      Exec(processes, states, nextPid)
    }

    constructor ()
      ensures View() == EMPTY
    {
      processes, states, nextPid := map[], map[], 1;
    }

    method Spawn(spec: Spec) returns (pid: nat)
      modifies this
      ensures (View(), pid) == SpawnProcess(old(View()), spec)
      ensures old(ExecInv(View())) ==> ExecInv(View()) && pid !in old(states)
    {
      pid := nextPid;
      nextPid := nextPid + 1;
      processes := processes[pid := Process(spec.name, spec.priority, spec.ramMb, "Running")];
      states := states[pid := spec.payload];
    }

    method Kill(pid: nat) returns (r: Result<(), string>)
      modifies this
      ensures (View(), r) == KillProcess(old(View()), pid)
      ensures old(ExecInv(View())) ==> ExecInv(View()) && pid !in states
    {
      if pid in processes {
        processes := processes - {pid};
        states := states - {pid};
        r := Ok(());
      } else {
        r := Err("no process");
      }
    }

    method SetPriority(pid: nat, priority: nat) returns (r: Result<(), string>)
      modifies this
      ensures (View(), r) == ChangePriority(old(View()), pid, priority)
      ensures old(ExecInv(View())) ==> ExecInv(View())
      ensures OthersSame(old(View()), View(), pid) && states == old(states)
      ensures r.Ok? ==> processes[pid].priority <= 4
    {
      if pid in processes {
        var p := processes[pid];
        processes := processes[pid := p.(priority := Clamped(priority))];
        r := Ok(());
      } else {
        r := Err("no process");
      }
    }

    /** State is to be had of exactly the hosted processes. */
    method Extract(pid: nat) returns (r: Result<Bytes, string>)
      ensures r == ExtractState(View(), pid)
      ensures ExecInv(View()) ==> (r.Ok? <==> pid in processes)
    {
      if pid in states { r := Ok(states[pid]); } else { r := Err("no process"); }
    }

    method Restore(pid: nat, state: Bytes) returns (r: Result<(), string>)
      modifies this
      ensures (View(), r) == RestoreState(old(View()), pid, state)
      ensures r.Ok? ==> ExtractState(View(), pid) == Ok(state)
    {
      if pid in states {
        states := states[pid := state];
        r := Ok(());
      } else {
        r := Err("no process");
      }
    }
  }
}
