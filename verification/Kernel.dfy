/**
  The state of the Python kernel (core_system.py) and each system call as one atomic step.
  The handlers follow the order of checks and updates of the code; where the code raises, the
  state reached so far is kept and the reply is an error, as `invoke_syscall` does.
 */
module KernelModel {
  import opened Options
  import opened Lists

  type Pid = int

  datatype ProcState = Created | Ready | Running | Blocked | Suspended | Terminated | Zombie

  datatype BlockReason = WaitFor(pid: Pid) | IpcReceive

  datatype MemKind = Normal | Shared | Locked

  datatype RegionId = KernelMain | SystemShared | Code(pid: Pid) | Data(pid: Pid) | Stack(pid: Pid) | Uuid(n: nat)

  datatype Origin = Fresh | MappedFrom(target: RegionId)

  datatype Region = Region(start: int, size: int, owner: Pid, kind: MemKind, permissions: int, origin: Origin) {
    function End(): int { start + size }
    predicate IsMapping() { origin.MappedFrom? }
    // Memory that `memory_usage` was raised for: user segments and allocations.
    predicate IsCharged() { kind == Normal }
  }

  datatype Message = Message(id: nat, kind: int, sender: Pid, target: Pid, subject: string, payload: string)

  datatype Proc = Proc(parent: Pid, name: string, state: ProcState, priority: int, policy: int,
                       runtime: real, switches: nat, usage: int, exitCode: Option<int>)

  datatype Kernel = Kernel(
    processes: map<Pid, Proc>,
    nextPid: Pid,
    ready: seq<Pid>,
    blocked: map<Pid, BlockReason>,
    regions: map<RegionId, Region>,
    memory: map<Pid, seq<RegionId>>,
    mail: map<Pid, seq<Message>>)

  datatype Call =
    | Create(name: string, priority: int, policy: int)
    | Exit(exitCode: int)
    | Wait(target: Pid)
    | Allocate(size: int, permissions: int, uuid: nat)
    | Free(region: RegionId)
    | Map(region: RegionId, address: int, permissions: int, uuid: nat)
    | Send(target: Pid, subject: string, kind: int, payload: string, uuid: nat)
    | Receive(wait: bool)
    | Unregistered(number: int)

  datatype Value =
    | Nothing
    | NewPid(pid: Pid)
    | ExitCode(code: int)
    | BlockedStatus
    | Granted(id: RegionId, address: int, size: int)
    | Sent(messageId: nat)
    | Delivered(message: Message)

  datatype Error =
    | BadNumber | EmptyName | BadPriority | BadPolicy | NoProcess | NoTarget | NoSender
    | BadSize | BadPermissions | NoRegion | Denied | BadKind | KeyError

  datatype Outcome = Ok(value: Value) | Err(error: Error)

  datatype Reply = Reply(k: Kernel, out: Outcome)

  datatype Event = Syscall(caller: Pid, call: Call) | Pass

  const TIME_SLICE: real := 0.01
  const MIB: int := 1024 * 1024
  const USER_BASE: int := 0x20000000
  const MAPPING_BASE: int := 0x30000000

  function Max(a: int, b: int): int { if a < b then b else a }
  function Min(a: int, b: int): int { if a < b then a else b }

  // The values the enum constructors accept (core_system.py:35-50, 89-98, 170-177).
  predicate IsPriority(n: int) { 0 <= n <= 50 && n % 10 == 0 }
  predicate IsPolicy(n: int) { 1 <= n <= 5 }
  predicate IsPermission(n: int) { 0 <= n <= 7 }
  predicate IsMessageKind(n: int) { 1 <= n <= 6 }

  function ClampPriority(n: int): int { Min(Max(0, n), 50) }
  // len(SchedulingPolicy) - 1 == 4
  function ClampPolicy(n: int): int { Min(Max(0, n), 4) }

  function Get<T(==)>(m: map<Pid, seq<T>>, p: Pid): seq<T> {
    if p in m then m[p] else []
  }

  function SetState(k: Kernel, p: Pid, s: ProcState): Kernel
    requires p in k.processes
  {
    k.(processes := k.processes[p := k.processes[p].(state := s)])
  }

  function Recharged(procs: map<Pid, Proc>, p: Pid, amount: int): map<Pid, Proc> {
    if p in procs then procs[p := procs[p].(usage := procs[p].usage + amount)] else procs
  }

  function AddUsage(k: Kernel, p: Pid, amount: int): Kernel {
    k.(processes := Recharged(k.processes, p, amount))
  }

  function SetUsage(k: Kernel, p: Pid, amount: int): Kernel {
    k.(processes := if p in k.processes then k.processes[p := k.processes[p].(usage := amount)] else k.processes)
  }

  function Dequeue(k: Kernel, p: Pid): Kernel {
    k.(ready := Remove(k.ready, p))
  }

  function AddRegion(k: Kernel, id: RegionId, r: Region): Kernel {
    k.(regions := k.regions[id := r])
  }

  function AddToList(k: Kernel, p: Pid, id: RegionId): Kernel {
    k.(memory := k.memory[p := Get(k.memory, p) + [id]])
  }

  // ---- start-up (initialize, _init_memory) ----

  const BOOT: Kernel := Kernel(
    map[0 := Proc(0, "kernel", Running, 50, 2, 0.0, 0, 0, None),
        1 := Proc(0, "init", Ready, 50, 2, 0.0, 0, 0, None)],
    1000, [1], map[],
    map[KernelMain := Region(0x1000, 64 * MIB, 0, Locked, 7, Fresh),
        SystemShared := Region(0x10000000, 32 * MIB, 0, Shared, 3, Fresh)],
    map[0 := [KernelMain, SystemShared]],
    map[])

  // ---- process calls ----

  function UserSegments(pid: Pid): map<RegionId, Region> {
    map[Code(pid) := Region(USER_BASE, 1 * MIB, pid, Normal, 5, Fresh),
        Data(pid) := Region(0x21000000, 4 * MIB, pid, Normal, 3, Fresh),
        Stack(pid) := Region(0x22000000, 2 * MIB, pid, Normal, 3, Fresh)]
  }

  function InitMemory(k: Kernel, pid: Pid): Kernel {
    SetUsage(k.(regions := k.regions + UserSegments(pid),
                memory := k.memory[pid := [Code(pid), Data(pid), Stack(pid)]]),
             pid, 7 * MIB)
  }

  function FreeMemory(k: Kernel, pid: Pid): Kernel {
    if pid !in k.memory then k
    else
      SetUsage(k.(regions := k.regions - (set id | id in k.memory[pid]), memory := k.memory - {pid}), pid, 0)
  }

  function NewProc(caller: Pid, name: string, priority: int, policy: int): Proc {
    Proc(caller, name, Created, priority, policy, 0.0, 0, 0, None)
  }

  function ProcessCreate(k: Kernel, caller: Pid, name: string, priority: int, policy: int): Reply {
    if name == "" then Reply(k, Err(EmptyName))
    else
      var pid := k.nextPid;
      var bumped := k.(nextPid := pid + 1);
      if !IsPriority(ClampPriority(priority)) then Reply(bumped, Err(BadPriority))
      else if !IsPolicy(ClampPolicy(policy)) then Reply(bumped, Err(BadPolicy))
      else
        var proc := NewProc(caller, name, ClampPriority(priority), ClampPolicy(policy));
        var listed := bumped.(processes := k.processes[pid := proc.(state := Ready)], ready := k.ready + [pid]);
        var filled := InitMemory(listed, pid);
        Reply(filled.(mail := k.mail[pid := []]), Ok(NewPid(pid)))
  }

  function ProcessExit(k: Kernel, caller: Pid, exitCode: int): Reply {
    if caller !in k.processes then Reply(k, Err(NoProcess))
    else
      var p := k.processes[caller].(state := Terminated, exitCode := Some(exitCode));
      var stopped := k.(processes := k.processes[caller := p],
                        ready := Remove(k.ready, caller),
                        blocked := k.blocked - {caller});
      var freed := FreeMemory(stopped, caller);
      Reply(freed.(mail := k.mail - {caller}), Ok(Nothing))
  }

  function Block(k: Kernel, caller: Pid, reason: BlockReason): Kernel
    requires caller in k.processes
  {
    SetState(Dequeue(k, caller), caller, Blocked).(blocked := k.blocked[caller := reason])
  }

  function ProcessWait(k: Kernel, caller: Pid, target: Pid): Reply {
    if target !in k.processes then Reply(k, Err(NoTarget))
    else if k.processes[target].state == Terminated then
      var code := k.processes[target].exitCode;
      Reply(k, Ok(ExitCode(if code.Some? then code.value else 0)))
    else if caller !in k.processes then
      Reply(Dequeue(k, caller), Err(KeyError))
    else
      Reply(Block(k, caller, WaitFor(target)), Ok(BlockedStatus))
  }

  // ---- memory calls ----

  /** The largest region end among the first entries of a list, and at least `floor`. */
  function HighestEnd(regions: map<RegionId, Region>, ids: seq<RegionId>, floor: int): (r: int)
    requires forall id :: id in ids ==> id in regions
    ensures floor <= r
    ensures forall id :: id in ids ==> regions[id].End() <= r
    ensures r == floor || exists id :: id in ids && regions[id].End() == r
  {
    if ids == [] then floor
    else
      var n := |ids| - 1;
      assert ids == ids[..n] + [ids[n]];
      Max(HighestEnd(regions, ids[..n], floor), regions[ids[n]].End())
  }

  function MemoryAllocate(k: Kernel, caller: Pid, size: int, permissions: int, uuid: nat): Reply {
    if caller !in k.processes then Reply(k, Err(NoProcess))
    else if size <= 0 then Reply(k, Err(BadSize))
    else if exists id :: id in Get(k.memory, caller) && id !in k.regions then Reply(k, Err(KeyError))
    else if !IsPermission(permissions) then Reply(k, Err(BadPermissions))
    else
      var start := HighestEnd(k.regions, Get(k.memory, caller), USER_BASE);
      var r := Region(start, size, caller, Normal, permissions, Fresh);
      Reply(AddUsage(AddToList(AddRegion(k, Uuid(uuid), r), caller, Uuid(uuid)), caller, size),
            Ok(Granted(Uuid(uuid), start, size)))
  }

  function Unlist(k: Kernel, p: Pid, id: RegionId): Kernel {
    k.(memory := if p in k.memory then k.memory[p := Remove(k.memory[p], id)] else k.memory)
  }

  function MemoryFree(k: Kernel, caller: Pid, id: RegionId): Reply {
    if id !in k.regions then Reply(k, Err(NoRegion))
    else if k.regions[id].owner != caller then Reply(k, Err(Denied))
    else
      var refunded := AddUsage(Unlist(k, caller, id), caller, -k.regions[id].size);
      Reply(refunded.(regions := k.regions - {id}), Ok(Nothing))
  }

  function MemoryMap(k: Kernel, caller: Pid, target: RegionId, address: int, permissions: int, uuid: nat): Reply {
    if target !in k.regions then Reply(k, Err(NoRegion))
    else if k.regions[target].kind != Shared && k.regions[target].owner != caller then Reply(k, Err(Denied))
    else if !IsPermission(permissions) then Reply(k, Err(BadPermissions))
    else
      var start := if address > 0 then address else MAPPING_BASE;
      var r := Region(start, k.regions[target].size, caller, Shared, permissions, MappedFrom(target));
      Reply(AddToList(AddRegion(k, Uuid(uuid), r), caller, Uuid(uuid)), Ok(Granted(Uuid(uuid), start, r.size)))
  }

  // ---- message calls ----

  function Enqueue(k: Kernel, m: Message): Kernel {
    k.(mail := k.mail[m.target := Get(k.mail, m.target) + [m]])
  }

  predicate AwaitsMail(k: Kernel, p: Pid) {
    p in k.blocked && k.blocked[p] == IpcReceive && p in k.processes
  }

  function Wake(k: Kernel, p: Pid): Kernel {
    k.(blocked := if AwaitsMail(k, p) then k.blocked - {p} else k.blocked,
       ready := if AwaitsMail(k, p) then k.ready + [p] else k.ready,
       processes := if AwaitsMail(k, p) then k.processes[p := k.processes[p].(state := Ready)] else k.processes)
  }

  function IpcSend(k: Kernel, caller: Pid, target: Pid, subject: string, kind: int, payload: string, uuid: nat): Reply {
    if caller !in k.processes then Reply(k, Err(NoSender))
    else if target !in k.processes then Reply(k, Err(NoTarget))
    else if !IsMessageKind(kind) then Reply(k, Err(BadKind))
    else
      Reply(Wake(Enqueue(k, Message(uuid, kind, caller, target, subject, payload)), target), Ok(Sent(uuid)))
  }

  function IpcTake(k: Kernel, caller: Pid, wait: bool): Reply {
    if caller !in k.processes then Reply(k, Err(NoProcess))
    else if Get(k.mail, caller) != [] then
      Reply(k.(mail := k.mail[caller := k.mail[caller][1..]]), Ok(Delivered(k.mail[caller][0])))
    else if !wait then Reply(k, Ok(Nothing))
    else Reply(Block(k, caller, IpcReceive), Ok(BlockedStatus))
  }

  // ---- dispatch and scheduler ----

  function Invoke(k: Kernel, caller: Pid, call: Call): Reply {
    match call
    case Create(name, priority, policy) => ProcessCreate(k, caller, name, priority, policy)
    case Exit(code) => ProcessExit(k, caller, code)
    case Wait(target) => ProcessWait(k, caller, target)
    case Allocate(size, permissions, uuid) => MemoryAllocate(k, caller, size, permissions, uuid)
    case Free(id) => MemoryFree(k, caller, id)
    case Map(id, address, permissions, uuid) => MemoryMap(k, caller, id, address, permissions, uuid)
    case Send(target, subject, kind, payload, uuid) => IpcSend(k, caller, target, subject, kind, payload, uuid)
    case Receive(wait) => IpcTake(k, caller, wait)
    case Unregistered(_) => Reply(k, Err(BadNumber))
  }

  function Dispatched(p: Proc): Proc {
    p.(state := Ready, runtime := p.runtime + TIME_SLICE, switches := p.switches + 1)
  }

  /** A pass dispatches the head of the queue; a queued pid without a process is dropped. */
  predicate HasTurn(k: Kernel) {
    k.ready != [] && k.ready[0] in k.processes
  }

  function SchedulerPass(k: Kernel): Kernel {
    k.(ready := if HasTurn(k) then k.ready[1..] + [k.ready[0]] else if k.ready == [] then [] else k.ready[1..],
       processes := if HasTurn(k) then k.processes[k.ready[0] := Dispatched(k.processes[k.ready[0]])] else k.processes)
  }

  function Apply(k: Kernel, e: Event): Kernel {
    match e
    case Syscall(caller, call) => Invoke(k, caller, call).k
    case Pass => SchedulerPass(k)
  }

  function Run(k: Kernel, es: seq<Event>): Kernel
    decreases |es|
  {
    if es == [] then k else Run(Apply(k, es[0]), es[1..])
  }

  /** uuid4 gives an identifier that no live region has. */
  predicate FreshId(k: Kernel, e: Event) {
    match e
    case Syscall(_, Allocate(_, _, uuid)) => Uuid(uuid) !in k.regions
    case Syscall(_, Map(_, _, _, uuid)) => Uuid(uuid) !in k.regions
    case _ => true
  }

  predicate FreshIds(k: Kernel, es: seq<Event>)
    decreases |es|
  {
    es == [] || (FreshId(k, es[0]) && FreshIds(Apply(k, es[0]), es[1..]))
  }
}
