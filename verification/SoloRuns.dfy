/**
  Programs of the Python kernel run alone: their shape, and that each one, run to its end without interference, has
  exactly the effect and reply of its atomic step.
 */
module SoloRuns {
  import opened Options
  import opened KernelModel
  import opened Threads

  // ---- the shape of programs ----

  predicate NoDo(prog: Prog) {
    match prog
    case End => true
    case Acq(_, rest) => NoDo(rest)
    case Rel(_, rest) => NoDo(rest)
    case Do(_, _) => false
  }

  /** Steps that may go on to further steps. */
  predicate Expands(m: Micro) {
    m.CreateEnter? || m.CreateEntry? || m.ExitEnter? || m.WaitEnter? || m.AllocEnter? || m.FreeEnter? || m.MapEnter?
    || m.SendEnter? || m.ReceiveEnter? || m.PassPop?
  }

  /** Steps that are always followed by another step of the same operation. */
  predicate Middle(m: Micro) {
    m.CreateReady? || m.InitMem? || m.ExitQueues? || m.FreeMem? || m.WaitDequeue? || m.PutRegion?
    || (m.ListRegion? && m.reply.None?) || (m.Charge? && m.reply.None?) || m.UnlistRegion? || m.Post?
    || m.ReceiveDequeue? || m.PassMark? || m.PassExecute?
  }

  /** Exactly the middle steps have a step behind them; after the proc or system call lock is released there is none. */
  predicate Shaped(prog: Prog) {
    match prog
    case End => true
    case Acq(_, rest) => Shaped(rest)
    case Rel(l, rest) => Shaped(rest) && (l == ProcLock || l == SyscallLock ==> NoDo(rest))
    case Do(m, rest) => Shaped(rest) && (Middle(m) <==> !NoDo(rest))
  }

  lemma ExecReply(m: Micro, k: Kernel, rest: Prog)
    ensures var e := Exec(m, k, rest);
      if Middle(m) then e.prog == rest && e.out.None?
      else (e.prog == rest && e.out.Some?) || (Expands(m) && e.prog == Continue(m, k, rest) && e.out.None?)
  {
  }

  lemma LastBracketShaped(l: Lock, m: Micro, rest: Prog)
    requires Shaped(rest) && NoDo(rest) && !Middle(m)
    ensures Shaped(Acq(l, Do(m, Rel(l, rest)))) && !NoDo(Acq(l, Do(m, Rel(l, rest))))
  {
    assert NoDo(Rel(l, rest));
    assert Shaped(Do(m, Rel(l, rest)));
  }

  lemma ContinueShaped(m: Micro, k: Kernel, rest: Prog)
    requires Expands(m) && Shaped(rest) && NoDo(rest)
    ensures Shaped(Continue(m, k, rest)) && !NoDo(Continue(m, k, rest))
  {
    if m.CreateEntry? || m.ExitEnter? {
      var mail := if m.CreateEntry? then InitMail(m.pid) else DropMail(m.caller);
      var mem := if m.CreateEntry? then InitMem(m.pid) else FreeMem(m.caller);
      var tail := Acq(IpcLock, Do(mail, Rel(IpcLock, rest)));
      LastBracketShaped(IpcLock, mail, rest);
      var body := Acq(MemLock, Do(mem, Rel(MemLock, tail)));
      assert Shaped(Rel(MemLock, tail)) && !NoDo(Rel(MemLock, tail));
      assert Shaped(Do(mem, Rel(MemLock, tail)));
      assert !NoDo(body);
    } else if m.ReceiveEnter? {
      assert Shaped(Rel(ProcLock, rest)) && NoDo(Rel(ProcLock, rest));
      assert Shaped(Do(ReceiveBlock(m.caller), Rel(ProcLock, rest)));
    } else if m.SendEnter? {
      LastBracketShaped(ProcLock, WakeUp(m.target, m.uuid), rest);
    } else if m.AllocEnter? || m.FreeEnter? || m.PassPop? {
      var p := Continue(m, k, rest);
      assert Shaped(p.rest.rest) && Shaped(p.rest);
    }
  }

  /** A step keeps the shape, and replies exactly when no step of the operation is left. */
  lemma ExecShaped(m: Micro, k: Kernel, rest: Prog)
    requires Shaped(Do(m, rest))
    ensures var e := Exec(m, k, rest); Shaped(e.prog) && (e.out.Some? <==> NoDo(e.prog))
  {
    ExecReply(m, k, rest);
    if Expands(m) { ContinueShaped(m, k, rest); }
  }

  lemma {:induction false} InnerShaped(l: Lock, n: nat, rest: Prog)
    requires Shaped(rest) && NoDo(rest)
    ensures Shaped(Inner(l, n, rest)) && NoDo(Inner(l, n, rest))
  {
    if n > 0 { InnerShaped(l, n - 1, rest); }
  }

  lemma ScriptShaped(op: Op)
    ensures Shaped(Script(op)) && (NoDo(Script(op)) <==> op.Query?)
  {
    match op
    case Sys(caller, call) => HandlerShaped(caller, call, Rel(SyscallLock, End));
    case SchedulerRun =>
    case Query(ProcessList(n)) => InnerShaped(ProcLock, n, Rel(ProcLock, End));
    case Query(MemoryMapInfo(n)) => InnerShaped(MemLock, n, Rel(MemLock, End));
    case Query(_) =>
  }

  lemma HandlerShaped(caller: Pid, call: Call, rest: Prog)
    requires Shaped(rest) && NoDo(rest)
    ensures Shaped(Handler(caller, call, rest)) && !NoDo(Handler(caller, call, rest))
  {
  }

  // ---- running alone ----

  /** A program run by itself; `entered` records whether it has been inside the proc lock. */
  datatype Trail = Trail(k: Kernel, prog: Prog, out: Option<Outcome>, entered: bool)

  predicate NonProc(m: Micro) { !Locks(m).Has(ProcLock) }

  function One(r: Trail): Trail {
    match r.prog
    case End => r
    case Acq(l, rest) => r.(prog := rest, entered := r.entered || l == ProcLock)
    case Rel(_, rest) => r.(prog := rest)
    case Do(m, rest) =>
      var e := Exec(m, r.k, rest);
      Trail(e.k, e.prog, if e.out.Some? then e.out else r.out, r.entered || !NonProc(m))
  }

  function Solo(k: Kernel, prog: Prog, n: nat): Trail {
    if n == 0 then Trail(k, prog, None, false) else One(Solo(k, prog, n - 1))
  }

  /** The state and reply a program ends with when it runs alone. */
  function Complete(k: Kernel, prog: Prog): Reply
    decreases Length(prog)
  {
    match prog
    case End => Reply(k, Err(KeyError))
    case Acq(_, rest) => Complete(k, rest)
    case Rel(_, rest) => Complete(k, rest)
    case Do(m, rest) =>
      ExecShrinks(m, k, rest);
      var e := Exec(m, k, rest);
      if e.out.Some? then Reply(e.k, e.out.value) else Complete(e.k, e.prog)
  }

  lemma {:induction false} SoloCompletes(k: Kernel, prog: Prog, n: nat)
    requires Solo(k, prog, n).out.None?
    ensures Complete(Solo(k, prog, n).k, Solo(k, prog, n).prog) == Complete(k, prog)
  {
    if n > 0 {
      SoloCompletes(k, prog, n - 1);
    }
  }

  lemma CompleteBracket(k: Kernel, l: Lock, m: Micro, rest: Prog)
    requires Exec(m, k, Rel(l, rest)).out.None? && Exec(m, k, Rel(l, rest)).prog == Rel(l, rest)
    ensures Complete(k, Acq(l, Do(m, Rel(l, rest)))) == Complete(Exec(m, k, Rel(l, rest)).k, rest)
  {
    assert Complete(k, Acq(l, Do(m, Rel(l, rest)))) == Complete(k, Do(m, Rel(l, rest)));
    assert Complete(k, Do(m, Rel(l, rest))) == Complete(Exec(m, k, Rel(l, rest)).k, Rel(l, rest));
  }

  lemma CompleteDo(k: Kernel, m: Micro, rest: Prog)
    ensures var e := Exec(m, k, rest);
      Complete(k, Do(m, rest)) == if e.out.Some? then Reply(e.k, e.out.value) else Complete(e.k, e.prog)
  {
  }

  lemma CompleteNext(k: Kernel, m: Micro, rest: Prog, k1: Kernel)
    requires Exec(m, k, rest) == Effect(k1, rest, None)
    ensures Complete(k, Do(m, rest)) == Complete(k1, rest)
  {
  }

  // ---- each handler, run alone, is its atomic step ----

  lemma CreateCompletes(k: Kernel, caller: Pid, name: string, priority: int, policy: int, rest: Prog)
    ensures Complete(k, Do(CreateEnter(caller, name, priority, policy), rest))
         == ProcessCreate(k, caller, name, priority, policy)
  {
    var enter := CreateEnter(caller, name, priority, policy);
    var entry := CreateEntry(caller, k.nextPid, name, priority, policy);
    CompleteDo(k, enter, rest);
    if name != "" {
      var k1, pid := Exec(enter, k, rest).k, k.nextPid;
      CompleteDo(k1, entry, rest);
      if Exec(entry, k1, rest).out.None? {
        var k2 := Exec(entry, k1, rest).k;
        var tail := Acq(IpcLock, Do(InitMail(pid), Rel(IpcLock, rest)));
        var body := Acq(MemLock, Do(InitMem(pid), Rel(MemLock, tail)));
        CompleteDo(k2, CreateReady(pid), body);
        var k3 := Exec(CreateReady(pid), k2, body).k;
        CompleteBracket(k3, MemLock, InitMem(pid), tail);
        CompleteDo(InitMemory(k3, pid), InitMail(pid), Rel(IpcLock, rest));
        var proc := NewProc(caller, name, ClampPriority(priority), ClampPolicy(policy));
        assert k3.processes == k.processes[pid := proc.(state := Ready)];
      }
    }
  }

  lemma ExitCompletes(k: Kernel, caller: Pid, exitCode: int, rest: Prog)
    ensures Complete(k, Do(ExitEnter(caller, exitCode), rest)) == ProcessExit(k, caller, exitCode)
  {
    var enter := ExitEnter(caller, exitCode);
    CompleteDo(k, enter, rest);
    if caller in k.processes {
      var k1 := Exec(enter, k, rest).k;
      var tail := Acq(IpcLock, Do(DropMail(caller), Rel(IpcLock, rest)));
      var body := Acq(MemLock, Do(FreeMem(caller), Rel(MemLock, tail)));
      CompleteDo(k1, ExitQueues(caller), body);
      var k2 := Exec(ExitQueues(caller), k1, body).k;
      CompleteBracket(k2, MemLock, FreeMem(caller), tail);
      CompleteDo(FreeMemory(k2, caller), DropMail(caller), Rel(IpcLock, rest));
    }
  }

  lemma WaitCompletes(k: Kernel, caller: Pid, target: Pid, rest: Prog)
    ensures Complete(k, Do(WaitEnter(caller, target), rest)) == ProcessWait(k, caller, target)
  {
    CompleteDo(k, WaitEnter(caller, target), rest);
    CompleteDo(k, WaitDequeue(caller), Do(WaitBlock(caller, target), rest));
    CompleteDo(Dequeue(k, caller), WaitBlock(caller, target), rest);
  }

  lemma AllocateCompletes(k: Kernel, caller: Pid, size: int, permissions: int, uuid: nat, rest: Prog)
    ensures Complete(k, Do(AllocEnter(caller, size, permissions, uuid), rest))
         == MemoryAllocate(k, caller, size, permissions, uuid)
  {
    var enter := AllocEnter(caller, size, permissions, uuid);
    CompleteDo(k, enter, rest);
    if Exec(enter, k, rest).out.None? {
      var id, start := Uuid(uuid), FreeSpace(k, caller);
      var r := Region(start, size, caller, Normal, permissions, Fresh);
      AllocateTail(k, caller, id, r, Ok(Granted(id, start, size)), rest);
    }
  }

  lemma AllocateTail(k: Kernel, caller: Pid, id: RegionId, r: Region, granted: Outcome, rest: Prog)
    ensures var charge := Charge(caller, r.size, Some(granted));
      Complete(k, Do(PutRegion(id, r), Do(ListRegion(caller, id, None), Do(charge, rest))))
      == Reply(AddUsage(AddToList(AddRegion(k, id, r), caller, id), caller, r.size), granted)
  {
    var k1, charge := AddRegion(k, id, r), Charge(caller, r.size, Some(granted));
    CompleteDo(k, PutRegion(id, r), Do(ListRegion(caller, id, None), Do(charge, rest)));
    CompleteDo(k1, ListRegion(caller, id, None), Do(charge, rest));
    CompleteDo(AddToList(k1, caller, id), charge, rest);
  }

  lemma FreeStatements(k: Kernel, caller: Pid, id: RegionId, rest: Prog)
    requires id in k.regions && k.regions[id].owner == caller
    ensures var k2 := AddUsage(Unlist(k, caller, id), caller, -k.regions[id].size);
      Exec(DropRegion(id), k2, rest) == Effect(MemoryFree(k, caller, id).k, rest, Some(Ok(Nothing)))
  {
  }

  lemma FreeTail(k: Kernel, caller: Pid, id: RegionId, rest: Prog)
    requires id in k.regions && k.regions[id].owner == caller
    ensures var refund := Charge(caller, -SizeOf(k, id), None);
      Complete(k, Do(UnlistRegion(caller, id), Do(refund, Do(DropRegion(id), rest))))
      == MemoryFree(k, caller, id)
  {
    var refund, k1 := Charge(caller, -SizeOf(k, id), None), Unlist(k, caller, id);
    CompleteNext(k, UnlistRegion(caller, id), Do(refund, Do(DropRegion(id), rest)), k1);
    CompleteNext(k1, refund, Do(DropRegion(id), rest), AddUsage(k1, caller, -SizeOf(k, id)));
    FreeStatements(k, caller, id, rest);
    CompleteDo(AddUsage(k1, caller, -SizeOf(k, id)), DropRegion(id), rest);
  }

  lemma FreeCompletes(k: Kernel, caller: Pid, id: RegionId, rest: Prog)
    ensures Complete(k, Do(FreeEnter(caller, id), rest)) == MemoryFree(k, caller, id)
  {
    var enter := FreeEnter(caller, id);
    assert Exec(enter, k, rest) == ExecEntry(enter, k, rest);
    CompleteDo(k, enter, rest);
    if Refusal(enter, k).None? {
      FreeTail(k, caller, id, rest);
    }
  }

  lemma MapCompletes(k: Kernel, caller: Pid, id: RegionId, address: int, permissions: int, uuid: nat, rest: Prog)
    ensures Complete(k, Do(MapEnter(caller, id, address, permissions, uuid), rest))
         == MemoryMap(k, caller, id, address, permissions, uuid)
  {
    var enter := MapEnter(caller, id, address, permissions, uuid);
    CompleteDo(k, enter, rest);
    if Exec(enter, k, rest).out.None? {
      var p := Continue(enter, k, rest);
      CompleteDo(k, p.micro, p.rest);
      CompleteDo(Exec(p.micro, k, p.rest).k, p.rest.micro, rest);
    }
  }

  lemma SendCompletes(k: Kernel, caller: Pid, call: Call, rest: Prog)
    requires call.Send?
    ensures Complete(k, Do(SendEnter(caller, call.target, call.subject, call.kind, call.payload, call.uuid), rest))
         == Invoke(k, caller, call)
  {
    var enter := SendEnter(caller, call.target, call.subject, call.kind, call.payload, call.uuid);
    CompleteDo(k, enter, rest);
    if Exec(enter, k, rest).out.None? {
      var m := Message(call.uuid, call.kind, caller, call.target, call.subject, call.payload);
      var body := Acq(ProcLock, Do(WakeUp(call.target, call.uuid), Rel(ProcLock, rest)));
      CompleteDo(k, Post(m), body);
      CompleteDo(Enqueue(k, m), WakeUp(call.target, call.uuid), Rel(ProcLock, rest));
    }
  }

  lemma ReceiveCompletes(k: Kernel, caller: Pid, wait: bool, rest: Prog)
    ensures Complete(k, Do(ReceiveEnter(caller, wait), rest)) == IpcTake(k, caller, wait)
  {
    var enter := ReceiveEnter(caller, wait);
    CompleteDo(k, enter, rest);
    if Exec(enter, k, rest).out.None? {
      ReceiveTail(k, caller, rest);
    }
  }

  lemma ReceiveTail(k: Kernel, caller: Pid, rest: Prog)
    requires caller in k.processes
    ensures Complete(k, Acq(ProcLock, Do(ReceiveDequeue(caller), Do(ReceiveBlock(caller), Rel(ProcLock, rest)))))
         == Reply(Block(k, caller, IpcReceive), Ok(BlockedStatus))
  {
    var body := Do(ReceiveBlock(caller), Rel(ProcLock, rest));
    var dequeue := Do(ReceiveDequeue(caller), body);
    assert Complete(k, Acq(ProcLock, dequeue)) == Complete(k, dequeue);
    CompleteDo(k, ReceiveDequeue(caller), body);
    CompleteDo(Dequeue(k, caller), ReceiveBlock(caller), Rel(ProcLock, rest));
  }

  lemma CallCompletes(k: Kernel, caller: Pid, call: Call)
    ensures Complete(k, Script(Sys(caller, call))) == Invoke(k, caller, call)
  {
    var handler := Handler(caller, call, Rel(SyscallLock, End));
    assert Complete(k, Script(Sys(caller, call))) == Complete(k, handler);
    var rest := if handler.Acq? then Rel(handler.lock, Rel(SyscallLock, End)) else Rel(SyscallLock, End);
    match call
    case Create(name, priority, policy) => CreateCompletes(k, caller, name, priority, policy, rest);
    case Exit(code) => ExitCompletes(k, caller, code, rest);
    case Wait(target) => WaitCompletes(k, caller, target, rest);
    case Allocate(size, permissions, uuid) => AllocateCompletes(k, caller, size, permissions, uuid, rest);
    case Free(id) => FreeCompletes(k, caller, id, rest);
    case Map(id, address, permissions, uuid) => MapCompletes(k, caller, id, address, permissions, uuid, rest);
    case Send(_, _, _, _, _) => SendCompletes(k, caller, call, rest);
    case Receive(wait) => ReceiveCompletes(k, caller, wait, rest);
    case Unregistered(_) => CompleteDo(k, Reject, rest);
  }

  /** The three statements on the process record of a pass, one after the other. */
  lemma PassStatements(k: Kernel, k1: Kernel, pid: Pid, rest: Prog)
    requires k.ready != [] && k.ready[0] == pid && pid in k.processes && k1 == k.(ready := k.ready[1..])
    ensures var k2 := SetState(k1, pid, Running);
      var k3 := Exec(PassExecute(pid), k2, rest).k;
      Exec(PassRequeue(pid), k3, rest) == Effect(SchedulerPass(k), rest, Some(Ok(Nothing)))
  {
    var k2 := SetState(k1, pid, Running);
    var k3 := Exec(PassExecute(pid), k2, rest).k;
    assert k3.processes[pid] == Dispatched(k.processes[pid]).(state := Running);
    assert SetState(k3, pid, Ready).processes == k.processes[pid := Dispatched(k.processes[pid])];
  }

  lemma PassCompletes(k: Kernel)
    ensures Complete(k, Script(SchedulerRun)) == Reply(SchedulerPass(k), Ok(Nothing))
  {
    var rest := Rel(ProcLock, End);
    assert Complete(k, Script(SchedulerRun)) == Complete(k, Do(PassPop, rest));
    CompleteDo(k, PassPop, rest);
    if HasTurn(k) {
      PassTail(k, k.(ready := k.ready[1..]), k.ready[0], rest);
    }
  }

  lemma PassTail(k: Kernel, k1: Kernel, pid: Pid, rest: Prog)
    requires k.ready != [] && k.ready[0] == pid && pid in k.processes && k1 == k.(ready := k.ready[1..])
    ensures Complete(k1, Do(PassMark(pid), Do(PassExecute(pid), Do(PassRequeue(pid), rest))))
         == Reply(SchedulerPass(k), Ok(Nothing))
  {
    CompleteDo(k1, PassMark(pid), Do(PassExecute(pid), Do(PassRequeue(pid), rest)));
    var k2 := SetState(k1, pid, Running);
    CompleteDo(k2, PassExecute(pid), Do(PassRequeue(pid), rest));
    CompleteDo(Exec(PassExecute(pid), k2, rest).k, PassRequeue(pid), rest);
    PassStatements(k, k1, pid, rest);
  }
}
