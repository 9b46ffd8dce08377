/**
  The Python kernel at the grain of single statements, with its four re-entrant locks.
  A thread runs a program of lock actions and micro steps; a micro step may decide how the program goes on.
  Here: the programs of all public operations, the locking discipline they share, and freedom from deadlock.
 */
module Threads {
  import opened Options
  import opened Lists
  import opened KernelModel

  datatype Lock = SyscallLock | ProcLock | MemLock | IpcLock

  /** The acquisitions of a thread that it has not released, innermost first; a lock may occur several times. */
  datatype Held = NoLocks | Over(top: Lock, below: Held) {
    predicate Has(l: Lock) {
      Over? && (top == l || below.Has(l))
    }

    /** `with` blocks release in the reverse order of acquisition. */
    function Released(): Held {
      if Over? then below else this
    }
  }

  datatype Micro =
    // process_create
    | CreateEnter(caller: Pid, name: string, priority: int, policy: int)
    | CreateEntry(caller: Pid, pid: Pid, name: string, priority: int, policy: int)
    | CreateReady(pid: Pid)
    | InitMem(pid: Pid)
    | InitMail(pid: Pid)
    // process_exit
    | ExitEnter(caller: Pid, exitCode: int)
    | ExitQueues(caller: Pid)
    | FreeMem(caller: Pid)
    | DropMail(caller: Pid)
    // process_wait
    | WaitEnter(caller: Pid, target: Pid)
    | WaitDequeue(caller: Pid)
    | WaitBlock(caller: Pid, target: Pid)
    // memory calls
    | AllocEnter(caller: Pid, size: int, permissions: int, uuid: nat)
    | FreeEnter(caller: Pid, id: RegionId)
    | MapEnter(caller: Pid, id: RegionId, address: int, permissions: int, uuid: nat)
    | PutRegion(id: RegionId, region: Region)
    | ListRegion(caller: Pid, id: RegionId, reply: Option<Outcome>)
    | Charge(caller: Pid, amount: int, reply: Option<Outcome>)
    | UnlistRegion(caller: Pid, id: RegionId)
    | DropRegion(id: RegionId)
    // message calls
    | SendEnter(caller: Pid, target: Pid, subject: string, kind: int, payload: string, uuid: nat)
    | Post(message: Message)
    | WakeUp(target: Pid, uuid: nat)
    | ReceiveEnter(caller: Pid, wait: bool)
    | ReceiveDequeue(caller: Pid)
    | ReceiveBlock(caller: Pid)
    // unknown number
    | Reject
    // scheduler pass
    | PassPop
    | PassMark(pid: Pid)
    | PassExecute(pid: Pid)
    | PassRequeue(pid: Pid)

  datatype Prog = End | Acq(lock: Lock, rest: Prog) | Rel(lock: Lock, rest: Prog) | Do(micro: Micro, rest: Prog)

  function SizeOf(k: Kernel, id: RegionId): int {
    if id in k.regions then k.regions[id].size else 0
  }

  function FreeSpace(k: Kernel, caller: Pid): int {
    if forall id :: id in Get(k.memory, caller) ==> id in k.regions then
      HighestEnd(k.regions, Get(k.memory, caller), USER_BASE)
    else USER_BASE
  }

  /** How the program goes on after a step that has decided to continue. */
  function Continue(m: Micro, k: Kernel, rest: Prog): Prog {
    match m
    case CreateEnter(caller, name, priority, policy) => Do(CreateEntry(caller, k.nextPid, name, priority, policy), rest)
    case CreateEntry(_, pid, _, _, _) =>
      Do(CreateReady(pid),
         Acq(MemLock, Do(InitMem(pid), Rel(MemLock,
         Acq(IpcLock, Do(InitMail(pid), Rel(IpcLock, rest)))))))
    case ExitEnter(caller, _) =>
      Do(ExitQueues(caller),
         Acq(MemLock, Do(FreeMem(caller), Rel(MemLock,
         Acq(IpcLock, Do(DropMail(caller), Rel(IpcLock, rest)))))))
    case WaitEnter(caller, target) => Do(WaitDequeue(caller), Do(WaitBlock(caller, target), rest))
    case AllocEnter(caller, size, permissions, uuid) =>
      var r := Region(FreeSpace(k, caller), size, caller, Normal, permissions, Fresh);
      Do(PutRegion(Uuid(uuid), r),
         Do(ListRegion(caller, Uuid(uuid), None),
         Do(Charge(caller, size, Some(Ok(Granted(Uuid(uuid), r.start, size)))), rest)))
    case FreeEnter(caller, id) =>
      Do(UnlistRegion(caller, id), Do(Charge(caller, -SizeOf(k, id), None), Do(DropRegion(id), rest)))
    case MapEnter(caller, id, address, permissions, uuid) =>
      var start := if address > 0 then address else MAPPING_BASE;
      var r := Region(start, SizeOf(k, id), caller, Shared, permissions, MappedFrom(id));
      Do(PutRegion(Uuid(uuid), r),
         Do(ListRegion(caller, Uuid(uuid), Some(Ok(Granted(Uuid(uuid), start, r.size)))), rest))
    case SendEnter(caller, target, subject, kind, payload, uuid) =>
      Do(Post(Message(uuid, kind, caller, target, subject, payload)),
         Acq(ProcLock, Do(WakeUp(target, uuid), Rel(ProcLock, rest))))
    case ReceiveEnter(caller, _) =>
      Acq(ProcLock, Do(ReceiveDequeue(caller), Do(ReceiveBlock(caller), Rel(ProcLock, rest))))
    case PassPop =>
      var pid := if k.ready == [] then 0 else k.ready[0];
      Do(PassMark(pid), Do(PassExecute(pid), Do(PassRequeue(pid), rest)))
    case _ => rest
  }

  /** What a micro step leaves: the kernel, the program still to run, and the reply if the operation has decided it. */
  datatype Effect = Effect(k: Kernel, prog: Prog, out: Option<Outcome>)

  predicate IsPass(m: Micro) { m.PassPop? || m.PassMark? || m.PassExecute? || m.PassRequeue? }

  /** The ready queue after a step of a scheduler pass: the head is popped, and requeued if it is still running. */
  function PassQueue(q: Micro, k: Kernel): seq<Pid> {
    match q
    case PassPop => if k.ready == [] then [] else k.ready[1..]
    case PassRequeue(pid) =>
      if pid in k.processes && k.processes[pid].state == Running then k.ready + [pid] else k.ready
    case _ => k.ready
  }

  function PassTable(q: Micro, procs: map<Pid, Proc>): map<Pid, Proc> {
    match q
    case PassMark(pid) => if pid in procs then procs[pid := procs[pid].(state := Running)] else procs
    case PassExecute(pid) =>
      if pid in procs then
        procs[pid := procs[pid].(runtime := procs[pid].runtime + TIME_SLICE, switches := procs[pid].switches + 1)]
      else procs
    case PassRequeue(pid) =>
      if pid in procs && procs[pid].state == Running then procs[pid := procs[pid].(state := Ready)] else procs
    case _ => procs
  }

  function ExecPass(q: Micro, k: Kernel, rest: Prog): Effect {
    Effect(k.(ready := PassQueue(q, k), processes := PassTable(q, k.processes)),
           if q.PassPop? && HasTurn(k) then Continue(q, k, rest) else rest,
           if q.PassRequeue? || (q.PassPop? && !HasTurn(k)) then Some(Ok(Nothing)) else None)
  }

  predicate IsEntry(m: Micro) { m.AllocEnter? || m.FreeEnter? || m.MapEnter? || m.SendEnter? }

  /** The checks at the start of the memory calls and of a send; the outcome is the first one that fails. */
  function Refusal(m: Micro, k: Kernel): Option<Outcome> {
    match m
    case AllocEnter(caller, size, permissions, _) =>
      if caller !in k.processes then Some(Err(NoProcess))
      else if size <= 0 then Some(Err(BadSize))
      else if exists id :: id in Get(k.memory, caller) && id !in k.regions then Some(Err(KeyError))
      else if !IsPermission(permissions) then Some(Err(BadPermissions))
      else None
    case FreeEnter(caller, id) =>
      if id !in k.regions then Some(Err(NoRegion))
      else if k.regions[id].owner != caller then Some(Err(Denied))
      else None
    case MapEnter(caller, id, _, permissions, _) =>
      if id !in k.regions then Some(Err(NoRegion))
      else if k.regions[id].kind != Shared && k.regions[id].owner != caller then Some(Err(Denied))
      else if !IsPermission(permissions) then Some(Err(BadPermissions))
      else None
    case SendEnter(caller, target, _, kind, _, _) =>
      if caller !in k.processes then Some(Err(NoSender))
      else if target !in k.processes then Some(Err(NoTarget))
      else if !IsMessageKind(kind) then Some(Err(BadKind))
      else None
    case _ => None
  }

  function ExecEntry(m: Micro, k: Kernel, rest: Prog): Effect {
    Effect(k, if Refusal(m, k).Some? then rest else Continue(m, k, rest), Refusal(m, k))
  }

  function Exec(m: Micro, k: Kernel, rest: Prog): Effect {
    match m
    case CreateEnter(_, name, _, _) =>
      if name == "" then Effect(k, rest, Some(Err(EmptyName)))
      else Effect(k.(nextPid := k.nextPid + 1), Continue(m, k, rest), None)
    case CreateEntry(caller, pid, name, priority, policy) =>
      if !IsPriority(ClampPriority(priority)) then Effect(k, rest, Some(Err(BadPriority)))
      else if !IsPolicy(ClampPolicy(policy)) then Effect(k, rest, Some(Err(BadPolicy)))
      else
        var p := NewProc(caller, name, ClampPriority(priority), ClampPolicy(policy));
        Effect(k.(processes := k.processes[pid := p]), Continue(m, k, rest), None)
    case CreateReady(pid) =>
      if pid in k.processes then Effect(SetState(k, pid, Ready).(ready := k.ready + [pid]), rest, None)
      else Effect(k, rest, None)
    case InitMem(pid) => Effect(InitMemory(k, pid), rest, None)
    case InitMail(pid) => Effect(k.(mail := k.mail[pid := []]), rest, Some(Ok(NewPid(pid))))
    case ExitEnter(caller, exitCode) =>
      if caller !in k.processes then Effect(k, rest, Some(Err(NoProcess)))
      else
        var p := k.processes[caller].(state := Terminated, exitCode := Some(exitCode));
        Effect(k.(processes := k.processes[caller := p]), Continue(m, k, rest), None)
    case ExitQueues(caller) =>
      Effect(k.(ready := Remove(k.ready, caller), blocked := k.blocked - {caller}), rest, None)
    case FreeMem(caller) => Effect(FreeMemory(k, caller), rest, None)
    case DropMail(caller) => Effect(k.(mail := k.mail - {caller}), rest, Some(Ok(Nothing)))
    case WaitEnter(_, target) =>
      if target !in k.processes then Effect(k, rest, Some(Err(NoTarget)))
      else if k.processes[target].state == Terminated then
        var code := k.processes[target].exitCode;
        Effect(k, rest, Some(Ok(ExitCode(if code.Some? then code.value else 0))))
      else Effect(k, Continue(m, k, rest), None)
    case WaitDequeue(caller) => Effect(Dequeue(k, caller), rest, None)
    case WaitBlock(caller, target) =>
      if caller !in k.processes then Effect(k, rest, Some(Err(KeyError)))
      else Effect(SetState(k, caller, Blocked).(blocked := k.blocked[caller := WaitFor(target)]), rest,
                  Some(Ok(BlockedStatus)))
    case PutRegion(id, region) => Effect(AddRegion(k, id, region), rest, None)
    case ListRegion(caller, id, reply) => Effect(AddToList(k, caller, id), rest, reply)
    case Charge(caller, amount, reply) => Effect(AddUsage(k, caller, amount), rest, reply)
    case UnlistRegion(caller, id) => Effect(Unlist(k, caller, id), rest, None)
    case DropRegion(id) => Effect(k.(regions := k.regions - {id}), rest, Some(Ok(Nothing)))
    case Post(message) => Effect(Enqueue(k, message), rest, None)
    case WakeUp(target, uuid) => Effect(Wake(k, target), rest, Some(Ok(Sent(uuid))))
    case ReceiveEnter(caller, wait) =>
      if caller !in k.processes then Effect(k, rest, Some(Err(NoProcess)))
      else if Get(k.mail, caller) != [] then
        Effect(k.(mail := k.mail[caller := k.mail[caller][1..]]), rest, Some(Ok(Delivered(k.mail[caller][0]))))
      else if !wait then Effect(k, rest, Some(Ok(Nothing)))
      else Effect(k, Continue(m, k, rest), None)
    case ReceiveDequeue(caller) => Effect(Dequeue(k, caller), rest, None)
    case ReceiveBlock(caller) =>
      if caller !in k.processes then Effect(k, rest, Some(Err(KeyError)))
      else Effect(SetState(k, caller, Blocked).(blocked := k.blocked[caller := IpcReceive]), rest,
                  Some(Ok(BlockedStatus)))
    case Reject => Effect(k, rest, Some(Err(BadNumber)))
    case _ => if IsPass(m) then ExecPass(m, k, rest) else ExecEntry(m, k, rest)
  }

  /** A step either leaves the rest of the program or continues as above; in the latter case it has no reply yet. */
  lemma ExecProg(m: Micro, k: Kernel, rest: Prog)
    ensures var e := Exec(m, k, rest); e.prog == rest || (e.prog == Continue(m, k, rest) && e.out.None?)
  {
  }

  // ---- operations ----

  // The read-only public methods; `inner` counts the nested calls that lock again.
  datatype Question =
    ProcessInfo | ProcessList(inner: nat) | MemoryInfo | MemoryMapInfo(inner: nat) | SystemInfo | Stats

  datatype Op = Sys(caller: Pid, call: Call) | SchedulerRun | Query(question: Question)

  function Inner(l: Lock, n: nat, rest: Prog): Prog {
    if n == 0 then rest else Acq(l, Rel(l, Inner(l, n - 1, rest)))
  }

  function Handler(caller: Pid, call: Call, rest: Prog): Prog {
    match call
    case Create(name, priority, policy) =>
      Acq(ProcLock, Do(CreateEnter(caller, name, priority, policy), Rel(ProcLock, rest)))
    case Exit(code) => Acq(ProcLock, Do(ExitEnter(caller, code), Rel(ProcLock, rest)))
    case Wait(target) => Acq(ProcLock, Do(WaitEnter(caller, target), Rel(ProcLock, rest)))
    case Allocate(size, permissions, uuid) =>
      Acq(MemLock, Do(AllocEnter(caller, size, permissions, uuid), Rel(MemLock, rest)))
    case Free(id) => Acq(MemLock, Do(FreeEnter(caller, id), Rel(MemLock, rest)))
    case Map(id, address, permissions, uuid) =>
      Acq(MemLock, Do(MapEnter(caller, id, address, permissions, uuid), Rel(MemLock, rest)))
    case Send(target, subject, kind, payload, uuid) =>
      Acq(IpcLock, Do(SendEnter(caller, target, subject, kind, payload, uuid), Rel(IpcLock, rest)))
    case Receive(wait) => Acq(IpcLock, Do(ReceiveEnter(caller, wait), Rel(IpcLock, rest)))
    case Unregistered(_) => Do(Reject, rest)
  }

  function Script(op: Op): Prog {
    match op
    case Sys(caller, call) => Acq(SyscallLock, Handler(caller, call, Rel(SyscallLock, End)))
    case SchedulerRun => Acq(ProcLock, Do(PassPop, Rel(ProcLock, End)))
    case Query(ProcessInfo) => Acq(ProcLock, Rel(ProcLock, End))
    case Query(ProcessList(n)) => Acq(ProcLock, Inner(ProcLock, n, Rel(ProcLock, End)))
    case Query(MemoryInfo) => Acq(MemLock, Rel(MemLock, End))
    case Query(MemoryMapInfo(n)) => Acq(MemLock, Inner(MemLock, n, Rel(MemLock, End)))
    case Query(SystemInfo) => Acq(ProcLock, Acq(MemLock, Rel(MemLock, Rel(ProcLock, End))))
    case Query(Stats) => Acq(SyscallLock, Rel(SyscallLock, End))
  }

  /**
    `held` counts each lock as often as the thread has acquired it. `out` is the reply of the current operation once
    decided, `results` the replies so far, `steps` the actions of the current operation executed so far.
   */
  datatype Thread = Thread(todo: seq<Op>, op: Op, prog: Prog, held: Held, out: Option<Outcome>,
                           results: seq<Outcome>, steps: nat)

  datatype Config = Config(k: Kernel, threads: seq<Thread>)

  function NewThread(todo: seq<Op>): Thread {
    Thread(todo, Query(ProcessInfo), End, NoLocks, Some(Ok(Nothing)), [], 0)
  }

  predicate Finished(th: Thread) { th.prog == End && th.todo == [] }

  /** Thread t can move: only an acquisition can be refused, when another thread holds the lock. */
  predicate Enabled(c: Config, t: nat) {
    t < |c.threads| &&
    match c.threads[t].prog
    case End => c.threads[t].todo != []
    case Acq(l, _) => forall u :: 0 <= u < |c.threads| && u != t ==> !c.threads[u].held.Has(l)
    case _ => true
  }

  function Begin(th: Thread): Thread
    requires th.todo != []
  {
    var op := th.todo[0];
    th.(todo := th.todo[1..], op := op, prog := Script(op), steps := 0,
        out := if op.Query? then Some(Ok(Nothing)) else None)
  }

  function Advance(th: Thread, e: Effect): Thread {
    th.(prog := e.prog, steps := th.steps + 1,
        out := if e.out.Some? then e.out else th.out,
        results := if e.out.Some? then th.results + [e.out.value] else th.results)
  }

  function StepThread(th: Thread, k: Kernel): Thread
    requires th.prog == End ==> th.todo != []
  {
    match th.prog
    case End => Begin(th)
    case Acq(l, rest) => th.(prog := rest, held := Over(l, th.held), steps := th.steps + 1)
    case Rel(l, rest) => th.(prog := rest, held := th.held.Released(), steps := th.steps + 1)
    case Do(m, rest) => Advance(th, Exec(m, k, rest))
  }

  function StepKernel(th: Thread, k: Kernel): Kernel {
    if th.prog.Do? then Exec(th.prog.micro, k, th.prog.rest).k else k
  }

  function Next(c: Config, t: nat): Config
    requires Enabled(c, t)
  {
    Config(StepKernel(c.threads[t], c.k), c.threads[t := StepThread(c.threads[t], c.k)])
  }

  predicate Schedule(c: Config, ts: seq<nat>)
    decreases |ts|
  {
    ts == [] || (Enabled(c, ts[0]) && Schedule(Next(c, ts[0]), ts[1..]))
  }

  function RunThreads(c: Config, ts: seq<nat>): Config
    requires Schedule(c, ts)
    decreases |ts|
  {
    if ts == [] then c else RunThreads(Next(c, ts[0]), ts[1..])
  }

  // ---- locking discipline ----

  /** The locks a micro step runs under, in the order they were taken. */
  function Locks(m: Micro): Held {
    var call := Over(SyscallLock, NoLocks);
    match m
    case InitMem(_) => Over(MemLock, Over(ProcLock, call))
    case FreeMem(_) => Over(MemLock, Over(ProcLock, call))
    case InitMail(_) => Over(IpcLock, Over(ProcLock, call))
    case DropMail(_) => Over(IpcLock, Over(ProcLock, call))
    case AllocEnter(_, _, _, _) => Over(MemLock, call)
    case FreeEnter(_, _) => Over(MemLock, call)
    case MapEnter(_, _, _, _, _) => Over(MemLock, call)
    case PutRegion(_, _) => Over(MemLock, call)
    case ListRegion(_, _, _) => Over(MemLock, call)
    case Charge(_, _, _) => Over(MemLock, call)
    case UnlistRegion(_, _) => Over(MemLock, call)
    case DropRegion(_) => Over(MemLock, call)
    case SendEnter(_, _, _, _, _, _) => Over(IpcLock, call)
    case Post(_) => Over(IpcLock, call)
    case ReceiveEnter(_, _) => Over(IpcLock, call)
    case WakeUp(_, _) => Over(ProcLock, Over(IpcLock, call))
    case ReceiveDequeue(_) => Over(ProcLock, Over(IpcLock, call))
    case ReceiveBlock(_) => Over(ProcLock, Over(IpcLock, call))
    case Reject => call
    case PassPop => Over(ProcLock, NoLocks)
    case PassMark(_) => Over(ProcLock, NoLocks)
    case PassExecute(_) => Over(ProcLock, NoLocks)
    case PassRequeue(_) => Over(ProcLock, NoLocks)
    case _ => Over(ProcLock, call)
  }

  /** Nothing else is acquired under the memory lock, the mail lock only under the system call lock, that one first. */
  predicate May(held: Held, l: Lock) {
    && (held.Has(MemLock) ==> l == MemLock)
    && (l == IpcLock ==> held.Has(SyscallLock))
    && (l == SyscallLock ==> held == NoLocks)
  }

  /** The mail lock is never held without the system call lock. */
  predicate MailGuarded(held: Held) {
    held.Has(IpcLock) ==> held.Has(SyscallLock)
  }

  ghost predicate Disciplined(prog: Prog, held: Held) {
    match prog
    case End => held == NoLocks
    case Acq(l, rest) => May(held, l) && Disciplined(rest, Over(l, held))
    case Rel(l, rest) => held.Over? && held.top == l && MailGuarded(held.below) && Disciplined(rest, held.below)
    case Do(m, rest) => held == Locks(m) && Disciplined(rest, held)
  }

  lemma Bracket(l: Lock, m: Micro, rest: Prog, held: Held)
    requires May(held, l) && MailGuarded(held) && Disciplined(rest, held) && Over(l, held) == Locks(m)
    ensures Disciplined(Acq(l, Do(m, Rel(l, rest))), held)
  {
  }

  lemma {:induction false} InnerDisciplined(l: Lock, n: nat, rest: Prog, held: Held)
    requires May(held, l) && MailGuarded(held) && Disciplined(rest, held)
    ensures Disciplined(Inner(l, n, rest), held)
  {
    if n > 0 {
      InnerDisciplined(l, n - 1, rest, held);
    }
  }

  lemma HandlerDisciplined(caller: Pid, call: Call)
    ensures Disciplined(Handler(caller, call, Rel(SyscallLock, End)), Over(SyscallLock, NoLocks))
  {
    var rest, held := Rel(SyscallLock, End), Over(SyscallLock, NoLocks);
    assert Disciplined(rest, held);
    match call
    case Create(name, priority, policy) => Bracket(ProcLock, CreateEnter(caller, name, priority, policy), rest, held);
    case Exit(code) => Bracket(ProcLock, ExitEnter(caller, code), rest, held);
    case Wait(target) => Bracket(ProcLock, WaitEnter(caller, target), rest, held);
    case Allocate(size, permissions, uuid) => Bracket(MemLock, AllocEnter(caller, size, permissions, uuid), rest, held);
    case Free(id) => Bracket(MemLock, FreeEnter(caller, id), rest, held);
    case Map(id, address, permissions, uuid) =>
      Bracket(MemLock, MapEnter(caller, id, address, permissions, uuid), rest, held);
    case Send(target, subject, kind, payload, uuid) =>
      Bracket(IpcLock, SendEnter(caller, target, subject, kind, payload, uuid), rest, held);
    case Receive(wait) => Bracket(IpcLock, ReceiveEnter(caller, wait), rest, held);
    case Unregistered(_) =>
  }

  /** Every public operation follows the discipline. */
  lemma ScriptDisciplined(op: Op)
    ensures Disciplined(Script(op), NoLocks)
  {
    match op
    case Sys(caller, call) => HandlerDisciplined(caller, call);
    case SchedulerRun => Bracket(ProcLock, PassPop, End, NoLocks);
    case Query(ProcessList(n)) => InnerDisciplined(ProcLock, n, Rel(ProcLock, End), Over(ProcLock, NoLocks));
    case Query(MemoryMapInfo(n)) => InnerDisciplined(MemLock, n, Rel(MemLock, End), Over(MemLock, NoLocks));
    case Query(_) =>
  }

  lemma TwoDisciplined(a: Micro, b: Micro, rest: Prog, held: Held)
    requires Disciplined(rest, held) && held == Locks(a) == Locks(b)
    ensures Disciplined(Do(a, Do(b, rest)), held)
  {
  }

  lemma ThreeDisciplined(a: Micro, b: Micro, c: Micro, rest: Prog, held: Held)
    requires Disciplined(rest, held) && held == Locks(a) == Locks(b) == Locks(c)
    ensures Disciplined(Do(a, Do(b, Do(c, rest))), held)
  {
    TwoDisciplined(b, c, rest, held);
  }

  lemma LifecycleDisciplined(m: Micro, k: Kernel, rest: Prog, held: Held)
    requires Disciplined(rest, held) && held == Locks(m) && (m.CreateEntry? || m.ExitEnter?)
    ensures Disciplined(Continue(m, k, rest), held)
  {
    var first, mem, mail :=
      if m.CreateEntry? then CreateReady(m.pid) else ExitQueues(m.caller),
      if m.CreateEntry? then InitMem(m.pid) else FreeMem(m.caller),
      if m.CreateEntry? then InitMail(m.pid) else DropMail(m.caller);
    var tail := Acq(IpcLock, Do(mail, Rel(IpcLock, rest)));
    Bracket(IpcLock, mail, rest, held);
    var body := Acq(MemLock, Do(mem, Rel(MemLock, tail)));
    Bracket(MemLock, mem, tail, held);
    assert Continue(m, k, rest) == Do(first, body);
  }

  lemma MailDisciplined(m: Micro, k: Kernel, rest: Prog, held: Held)
    requires Disciplined(rest, held) && held == Locks(m) && (m.SendEnter? || m.ReceiveEnter?)
    ensures Disciplined(Continue(m, k, rest), held)
  {
    if m.SendEnter? {
      Bracket(ProcLock, WakeUp(m.target, m.uuid), rest, held);
    } else {
      TwoDisciplined(ReceiveDequeue(m.caller), ReceiveBlock(m.caller), Rel(ProcLock, rest), Over(ProcLock, held));
    }
  }

  lemma MemoryDisciplined(m: Micro, k: Kernel, rest: Prog, held: Held)
    requires Disciplined(rest, held) && held == Locks(m) && (m.AllocEnter? || m.FreeEnter? || m.MapEnter?)
    ensures Disciplined(Continue(m, k, rest), held)
  {
    var p := Continue(m, k, rest);
    if m.MapEnter? {
      TwoDisciplined(p.micro, p.rest.micro, rest, held);
    } else {
      ThreeDisciplined(p.micro, p.rest.micro, p.rest.rest.micro, rest, held);
    }
  }

  lemma ContinueDisciplined(m: Micro, k: Kernel, rest: Prog, held: Held)
    requires Disciplined(Do(m, rest), held)
    ensures Disciplined(Continue(m, k, rest), held)
  {
    if m.CreateEntry? || m.ExitEnter? {
      LifecycleDisciplined(m, k, rest, held);
    } else if m.SendEnter? || m.ReceiveEnter? {
      MailDisciplined(m, k, rest, held);
    } else if m.AllocEnter? || m.FreeEnter? || m.MapEnter? {
      MemoryDisciplined(m, k, rest, held);
    } else if m.WaitEnter? {
      TwoDisciplined(WaitDequeue(m.caller), WaitBlock(m.caller, m.target), rest, held);
    } else if m.PassPop? {
      var pid := if k.ready == [] then 0 else k.ready[0];
      ThreeDisciplined(PassMark(pid), PassExecute(pid), PassRequeue(pid), rest, held);
    }
  }

  /** So does everything a micro step decides to do next, in any kernel state. */
  lemma ExecDisciplined(m: Micro, k: Kernel, rest: Prog, held: Held)
    requires Disciplined(Do(m, rest), held) && MailGuarded(held)
    ensures Disciplined(Exec(m, k, rest).prog, held)
  {
    ExecProg(m, k, rest);
    ContinueDisciplined(m, k, rest, held);
  }

  /** All threads follow the discipline and no lock has two holders. */
  ghost predicate LocksOk(c: Config) {
    && (forall t :: 0 <= t < |c.threads| ==>
          Disciplined(c.threads[t].prog, c.threads[t].held) && MailGuarded(c.threads[t].held))
    && forall t, u, l :: 0 <= t < |c.threads| && 0 <= u < |c.threads| && t != u && c.threads[t].held.Has(l) ==>
         !c.threads[u].held.Has(l)
  }

  lemma LocksKept(c: Config, t: nat)
    requires LocksOk(c) && Enabled(c, t)
    ensures LocksOk(Next(c, t))
  {
    var th := c.threads[t];
    match th.prog
    case End => ScriptDisciplined(th.todo[0]);
    case Do(m, rest) => ExecDisciplined(m, c.k, rest, th.held);
    case _ =>
  }

  // ---- freedom from deadlock ----

  ghost predicate Stuck(c: Config) {
    forall t :: !Enabled(c, t)
  }

  ghost predicate Unheld(c: Config, l: Lock) {
    forall t :: 0 <= t < |c.threads| ==> !c.threads[t].held.Has(l)
  }

  /** When nobody can move, a thread that holds a lock wants another one that a different thread holds. */
  lemma HolderWaits(c: Config, t: nat, l: Lock) returns (wanted: Lock, u: nat)
    requires LocksOk(c) && Stuck(c) && t < |c.threads| && c.threads[t].held.Has(l)
    ensures May(c.threads[t].held, wanted) && !c.threads[t].held.Has(wanted)
    ensures u < |c.threads| && u != t && c.threads[u].held.Has(wanted) && MailGuarded(c.threads[u].held)
  {
    assert !Enabled(c, t) && Disciplined(c.threads[t].prog, c.threads[t].held);
    wanted := c.threads[t].prog.lock;
    u :| 0 <= u < |c.threads| && u != t && c.threads[u].held.Has(wanted);
  }

  lemma StuckFreesMem(c: Config)
    requires LocksOk(c) && Stuck(c)
    ensures Unheld(c, MemLock)
  {
    forall t | 0 <= t < |c.threads|
      ensures !c.threads[t].held.Has(MemLock)
    {
      if c.threads[t].held.Has(MemLock) {
        var wanted, u := HolderWaits(c, t, MemLock);
      }
    }
  }

  /** A holder of the proc lock could only wait for the mail lock, whose holder would need the system call lock too. */
  lemma StuckFreesProc(c: Config)
    requires LocksOk(c) && Stuck(c)
    ensures Unheld(c, ProcLock)
  {
    StuckFreesMem(c);
    forall t | 0 <= t < |c.threads|
      ensures !c.threads[t].held.Has(ProcLock)
    {
      if c.threads[t].held.Has(ProcLock) {
        var wanted, u := HolderWaits(c, t, ProcLock);
      }
    }
  }

  lemma StuckFreesIpc(c: Config)
    requires LocksOk(c) && Stuck(c)
    ensures Unheld(c, IpcLock)
  {
    StuckFreesMem(c);
    StuckFreesProc(c);
    forall t | 0 <= t < |c.threads|
      ensures !c.threads[t].held.Has(IpcLock)
    {
      if c.threads[t].held.Has(IpcLock) {
        var wanted, u := HolderWaits(c, t, IpcLock);
      }
    }
  }

  lemma StuckFreesSyscall(c: Config)
    requires LocksOk(c) && Stuck(c)
    ensures Unheld(c, SyscallLock)
  {
    StuckFreesMem(c);
    StuckFreesProc(c);
    StuckFreesIpc(c);
    forall t | 0 <= t < |c.threads|
      ensures !c.threads[t].held.Has(SyscallLock)
    {
      if c.threads[t].held.Has(SyscallLock) {
        var wanted, u := HolderWaits(c, t, SyscallLock);
      }
    }
  }

  /** As long as some thread is unfinished, some thread can move. */
  lemma SomeoneCanMove(c: Config, t: nat)
    requires LocksOk(c) && t < |c.threads| && !Finished(c.threads[t])
    ensures exists u: nat :: Enabled(c, u)
  {
    if Stuck(c) {
      StuckFreesMem(c);
      StuckFreesProc(c);
      StuckFreesIpc(c);
      StuckFreesSyscall(c);
      assert Enabled(c, t);
    }
  }

  // ---- termination ----

  /** An upper bound for the actions a micro step leads to, itself included. */
  function Weight(m: Micro): nat {
    match m
    case CreateEnter(_, _, _, _) => 20
    case CreateEntry(_, _, _, _, _) => 15
    case ExitEnter(_, _) => 12
    case SendEnter(_, _, _, _, _, _) => 8
    case ReceiveEnter(_, _) => 8
    case AllocEnter(_, _, _, _) => 5
    case FreeEnter(_, _) => 5
    case MapEnter(_, _, _, _, _) => 5
    case WaitEnter(_, _) => 5
    case PassPop => 5
    case _ => 1
  }

  function Length(prog: Prog): nat {
    match prog
    case End => 0
    case Acq(_, rest) => 1 + Length(rest)
    case Rel(_, rest) => 1 + Length(rest)
    case Do(m, rest) => Weight(m) + Length(rest)
  }

  lemma BracketLength(l: Lock, m: Micro, rest: Prog)
    requires Weight(m) == 1
    ensures Length(Acq(l, Do(m, Rel(l, rest)))) == 3 + Length(rest)
  {
    var tail := Do(m, Rel(l, rest));
    assert Length(tail) == 2 + Length(rest);
  }

  lemma DoLength(a: Micro, b: Micro, c: Micro, rest: Prog)
    requires Weight(a) == Weight(b) == Weight(c) == 1
    ensures Length(Do(a, Do(b, rest))) == 2 + Length(rest)
    ensures Length(Do(a, Do(b, Do(c, rest)))) == 3 + Length(rest)
  {
    var tail := Do(b, Do(c, rest));
    assert Length(tail) == 2 + Length(rest);
  }

  lemma LifecycleLength(m: Micro, k: Kernel, rest: Prog)
    requires m.CreateEntry? || m.ExitEnter?
    ensures Length(Continue(m, k, rest)) == 7 + Length(rest)
  {
    var mem, mail :=
      if m.CreateEntry? then InitMem(m.pid) else FreeMem(m.caller),
      if m.CreateEntry? then InitMail(m.pid) else DropMail(m.caller);
    var tail := Acq(IpcLock, Do(mail, Rel(IpcLock, rest)));
    BracketLength(IpcLock, mail, rest);
    BracketLength(MemLock, mem, tail);
  }

  lemma StraightLength(m: Micro, k: Kernel, rest: Prog)
    requires m.AllocEnter? || m.FreeEnter? || m.PassPop? || m.MapEnter? || m.WaitEnter?
    ensures Length(Continue(m, k, rest)) <= 3 + Length(rest)
  {
    var p := Continue(m, k, rest);
    if m.MapEnter? || m.WaitEnter? {
      DoLength(p.micro, p.rest.micro, Reject, rest);
    } else {
      DoLength(p.micro, p.rest.micro, p.rest.rest.micro, rest);
    }
  }

  lemma MailLength(m: Micro, k: Kernel, rest: Prog)
    requires m.SendEnter? || m.ReceiveEnter?
    ensures Length(Continue(m, k, rest)) <= 4 + Length(rest)
  {
    if m.SendEnter? {
      BracketLength(ProcLock, WakeUp(m.target, m.uuid), rest);
    } else {
      DoLength(ReceiveDequeue(m.caller), ReceiveBlock(m.caller), Reject, Rel(ProcLock, rest));
    }
  }

  lemma ContinueShrinks(m: Micro, k: Kernel, rest: Prog)
    ensures Length(Continue(m, k, rest)) < Length(Do(m, rest))
  {
    if m.CreateEntry? || m.ExitEnter? {
      LifecycleLength(m, k, rest);
    } else if m.SendEnter? || m.ReceiveEnter? {
      MailLength(m, k, rest);
    } else if m.AllocEnter? || m.FreeEnter? || m.PassPop? || m.MapEnter? || m.WaitEnter? {
      StraightLength(m, k, rest);
    }
  }

  lemma ExecShrinks(m: Micro, k: Kernel, rest: Prog)
    ensures Length(Exec(m, k, rest).prog) < Length(Do(m, rest))
  {
    ExecProg(m, k, rest);
    ContinueShrinks(m, k, rest);
  }

  function Backlog(todo: seq<Op>): nat {
    if todo == [] then 0 else 1 + Length(Script(todo[0])) + Backlog(todo[1..])
  }

  function Work(th: Thread): nat { Length(th.prog) + Backlog(th.todo) }

  function TotalWork(threads: seq<Thread>): nat {
    if threads == [] then 0 else Work(threads[0]) + TotalWork(threads[1..])
  }

  lemma {:induction false} TotalUpdate(threads: seq<Thread>, t: nat, th: Thread)
    requires t < |threads|
    ensures TotalWork(threads[t := th]) == TotalWork(threads) - Work(threads[t]) + Work(th)
  {
    if t == 0 {
      assert threads[0 := th][1..] == threads[1..];
    } else {
      assert threads[t := th][1..] == threads[1..][t - 1 := th];
      TotalUpdate(threads[1..], t - 1, th);
    }
  }

  lemma StepShrinks(c: Config, t: nat)
    requires Enabled(c, t)
    ensures TotalWork(Next(c, t).threads) < TotalWork(c.threads)
  {
    var th := c.threads[t];
    TotalUpdate(c.threads, t, StepThread(th, c.k));
    if th.prog.Do? { ExecShrinks(th.prog.micro, c.k, th.prog.rest); }
  }

  /** Any schedule is at most as long as the remaining work, and keeps the locks in order. */
  lemma {:induction false} SchedulesAreBounded(c: Config, ts: seq<nat>)
    requires LocksOk(c) && Schedule(c, ts)
    ensures LocksOk(RunThreads(c, ts)) && |ts| + TotalWork(RunThreads(c, ts).threads) <= TotalWork(c.threads)
    decreases |ts|
  {
    if ts != [] {
      LocksKept(c, ts[0]);
      StepShrinks(c, ts[0]);
      SchedulesAreBounded(Next(c, ts[0]), ts[1..]);
    }
  }

  /** Threads that have not begun: any number of them, each with any list of operations. */
  function Start(k: Kernel, todos: seq<seq<Op>>): Config {
    Config(k, seq(|todos|, t requires 0 <= t < |todos| => NewThread(todos[t])))
  }

  lemma StartLocksOk(k: Kernel, todos: seq<seq<Op>>)
    ensures LocksOk(Start(k, todos))
  {
  }

  /** No deadlock: a schedule that cannot go on has finished every operation of every thread. */
  lemma DeadlockFreedom(k: Kernel, todos: seq<seq<Op>>, ts: seq<nat>)
    requires Schedule(Start(k, todos), ts)
    ensures var c := RunThreads(Start(k, todos), ts);
      && |ts| <= TotalWork(Start(k, todos).threads)
      && (Stuck(c) <==> forall t :: 0 <= t < |c.threads| ==> Finished(c.threads[t]))
  {
    StartLocksOk(k, todos);
    SchedulesAreBounded(Start(k, todos), ts);
    var c := RunThreads(Start(k, todos), ts);
    if t :| 0 <= t < |c.threads| && !Finished(c.threads[t]) {
      SomeoneCanMove(c, t);
    }
  }

  // ---- why the system call lock is needed ----

  /** A thread in the middle of a bare handler, not called through `invoke_syscall`. */
  function BareThread(caller: Pid, call: Call): Thread {
    NewThread([]).(op := Sys(caller, call), prog := Handler(caller, call, End), out := None)
  }

  lemma {:induction false} ScheduleConcat(c: Config, ts: seq<nat>, us: seq<nat>)
    requires Schedule(c, ts) && Schedule(RunThreads(c, ts), us)
    ensures Schedule(c, ts + us) && RunThreads(c, ts + us) == RunThreads(RunThreads(c, ts), us)
    decreases |ts|
  {
    if ts == [] {
      assert ts + us == us;
    } else {
      assert (ts + us)[1..] == ts[1..] + us;
      ScheduleConcat(Next(c, ts[0]), ts[1..], us);
    }
  }

  lemma Prefix(c: Config, t: nat, ts: seq<nat>)
    requires Enabled(c, t) && Schedule(Next(c, t), ts)
    ensures Schedule(c, [t] + ts) && RunThreads(c, [t] + ts) == RunThreads(Next(c, t), ts)
  {
    assert ([t] + ts)[1..] == ts;
  }

  lemma Twice(c: Config, t: nat)
    requires Enabled(c, t) && Enabled(Next(c, t), t)
    ensures Schedule(c, [t, t]) && RunThreads(c, [t, t]) == Next(Next(c, t), t)
  {
    Prefix(Next(c, t), t, []);
    Prefix(c, t, [t] + []);
    assert [t] + ([t] + []) == [t, t];
  }

  /** Alone, a bare exit gets as far as wanting the mail lock, with the proc lock in hand. */
  lemma ExitReachesMail(c: Config) returns (ts: seq<nat>)
    requires |c.threads| == 2 && c.threads[0] == BareThread(1, Exit(0)) && 1 in c.k.processes
    requires c.threads[1].held == NoLocks
    ensures Schedule(c, ts)
    ensures var d := RunThreads(c, ts);
      && |d.threads| == 2 && d.threads[1] == c.threads[1] && d.k.processes.Keys == c.k.processes.Keys
      && d.threads[0].prog.Acq? && d.threads[0].prog.lock == IpcLock && d.threads[0].held == Over(ProcLock, NoLocks)
  {
    var c2 := BareExitEnters(c);
    BareExitFrees(c2);
    var c4 := Next(Next(c2, 0), 0);
    Twice(c2, 0);
    Twice(c4, 0);
    ScheduleConcat(c2, [0, 0], [0, 0]);
    ScheduleConcat(c, [0, 0], [0, 0] + [0, 0]);
    ts := [0, 0] + ([0, 0] + [0, 0]);
  }

  /** The rest of a bare exit once it has entered. */
  function BareExitRest(): Prog {
    Do(ExitQueues(1),
       Acq(MemLock, Do(FreeMem(1), Rel(MemLock, Acq(IpcLock, Do(DropMail(1), Rel(IpcLock, Rel(ProcLock, End))))))))
  }

  lemma BareExitEnters(c: Config) returns (d: Config)
    requires |c.threads| == 2 && c.threads[0] == BareThread(1, Exit(0)) && 1 in c.k.processes
    requires c.threads[1].held == NoLocks
    ensures Schedule(c, [0, 0]) && d == RunThreads(c, [0, 0])
    ensures |d.threads| == 2 && d.threads[1] == c.threads[1] && d.k.processes.Keys == c.k.processes.Keys
    ensures d.threads[0].prog == BareExitRest() && d.threads[0].held == Over(ProcLock, NoLocks)
  {
    d := Next(Next(c, 0), 0);
    Twice(c, 0);
  }

  lemma BareExitFrees(c: Config)
    requires |c.threads| == 2 && c.threads[0].prog == BareExitRest() && c.threads[0].held == Over(ProcLock, NoLocks)
    requires c.threads[1].held == NoLocks
    ensures Enabled(c, 0) && Enabled(Next(c, 0), 0)
    ensures var c2 := Next(Next(c, 0), 0);
      && Enabled(c2, 0) && Enabled(Next(c2, 0), 0)
      && var d := Next(Next(c2, 0), 0);
      && |d.threads| == 2 && d.threads[1] == c.threads[1] && d.k.processes.Keys == c.k.processes.Keys
      && d.threads[0].prog.Acq? && d.threads[0].prog.lock == IpcLock && d.threads[0].held == Over(ProcLock, NoLocks)
  {
    var c1 := Next(c, 0);
    assert c1.threads[0].prog == BareExitRest().rest && c1.k.processes == c.k.processes;
    var c2 := Next(c1, 0);
    assert c2.threads[0].prog == BareExitRest().rest.rest;
  }

  lemma BareSend(c: Config)
    requires |c.threads| == 2 && c.threads[1] == BareThread(0, Send(1, "s", 1, "", 0))
    requires 0 in c.k.processes && 1 in c.k.processes && c.threads[0].held == Over(ProcLock, NoLocks)
    ensures Enabled(c, 1) && Enabled(Next(c, 1), 1) && Enabled(Next(Next(c, 1), 1), 1)
    ensures var d := Next(Next(Next(c, 1), 1), 1);
      && |d.threads| == 2 && d.threads[0] == c.threads[0]
      && d.threads[1].prog.Acq? && d.threads[1].prog.lock == ProcLock && d.threads[1].held == Over(IpcLock, NoLocks)
  {
    BareSendChecks(c.k);
    var c1 := Next(c, 1);
    assert c1.threads[1].prog.Do? && c1.threads[1].prog.micro == SendEnter(0, 1, "s", 1, "", 0) && c1.k == c.k;
    var c2 := Next(c1, 1);
    assert c2.threads[1].prog.Do? && c2.threads[1].prog.micro == Post(Message(0, 1, 0, 1, "s", ""));
  }

  lemma BareSendChecks(k: Kernel)
    requires 0 in k.processes && 1 in k.processes
    ensures var enter, post := SendEnter(0, 1, "s", 1, "", 0), Post(Message(0, 1, 0, 1, "s", ""));
      && (forall rest :: Exec(enter, k, rest) == Effect(k, Continue(enter, k, rest), None))
      && (forall j, rest :: Exec(post, j, rest) == Effect(Enqueue(j, post.message), rest, None))
  {
  }

  /** A bare send gets as far as wanting the proc lock, with the mail lock in hand. */
  lemma SendReachesProc(c: Config) returns (ts: seq<nat>)
    requires |c.threads| == 2 && c.threads[1] == BareThread(0, Send(1, "s", 1, "", 0))
    requires 0 in c.k.processes && 1 in c.k.processes && c.threads[0].held == Over(ProcLock, NoLocks)
    ensures Schedule(c, ts)
    ensures var d := RunThreads(c, ts);
      && |d.threads| == 2 && d.threads[0] == c.threads[0]
      && d.threads[1].prog.Acq? && d.threads[1].prog.lock == ProcLock && d.threads[1].held == Over(IpcLock, NoLocks)
  {
    BareSend(c);
    var c1 := Next(c, 1);
    var c2 := Next(c1, 1);
    Prefix(c2, 1, []);
    Prefix(c1, 1, [1] + []);
    Prefix(c, 1, [1] + ([1] + []));
    ts := [1] + ([1] + ([1] + []));
  }

  /** The bare exit and send handlers take the proc and mail locks in opposite order and can block each other. */
  lemma UngatedHandlersDeadlock(k: Kernel)
    requires 0 in k.processes && 1 in k.processes
    ensures var c := Config(k, [BareThread(1, Exit(0)), BareThread(0, Send(1, "s", 1, "", 0))]);
      exists ts :: Schedule(c, ts) && Stuck(RunThreads(c, ts)) &&
                   |RunThreads(c, ts).threads| == 2 && !Finished(RunThreads(c, ts).threads[0])
  {
    var c := Config(k, [BareThread(1, Exit(0)), BareThread(0, Send(1, "s", 1, "", 0))]);
    var ts := ExitReachesMail(c);
    var us := SendReachesProc(RunThreads(c, ts));
    ScheduleConcat(c, ts, us);
    var d := RunThreads(c, ts + us);
    assert d.threads[0].held.Has(ProcLock) && d.threads[1].held.Has(IpcLock);
  }
}
