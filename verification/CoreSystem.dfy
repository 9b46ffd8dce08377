/**
  The Python class itself: fields updated in place, loops as in the code. Every method is proved to
  have exactly the effect of the atomic step of the same name, so all results about steps carry over.
 */
module CoreSystemClass {
  import opened Options
  import opened Lists
  import opened StableOrder
  import opened KernelModel
  import opened KernelIndex
  import opened KernelMemory

  const EMPTY := Kernel(map[], 1000, [], map[], map[], map[], map[])

  /** What `initialize` adds to the state it finds. */
  function Initialized(k: Kernel): Kernel {
    k.(processes := k.processes[0 := Proc(0, "kernel", Running, 50, 2, 0.0, 0, 0, None)]
                               [1 := Proc(0, "init", Ready, 50, 2, 0.0, 0, 0, None)],
       ready := k.ready + [1],
       regions := k.regions[KernelMain := Region(0x1000, 64 * MIB, 0, Locked, 7, Fresh)]
                           [SystemShared := Region(0x10000000, 32 * MIB, 0, Shared, 3, Fresh)],
       memory := k.memory[0 := Get(k.memory, 0) + [KernelMain] + [SystemShared]])
  }

  lemma InitializedBoots()
    ensures Initialized(EMPTY) == BOOT
  {
    assert Initialized(EMPTY).ready == [1];
    assert Initialized(EMPTY).memory[0] == [KernelMain, SystemShared];
  }

  class CoreSystem {
    var initialized: bool
    var processes: map<Pid, Proc>
    var nextPid: Pid
    var ready: seq<Pid>
    var blocked: map<Pid, BlockReason>
    var regions: map<RegionId, Region>
    var memory: map<Pid, seq<RegionId>>
    var mail: map<Pid, seq<Message>>

    ghost function View(): Kernel
      reads this
    {
      Kernel(processes, nextPid, ready, blocked, regions, memory, mail)
    }

    ghost predicate Valid()
      reads this
    {
      Index(View()) && Layout(View())
    }

    constructor ()
      ensures !initialized && View() == EMPTY
    {
      initialized := false;
      processes, nextPid, ready, blocked := map[], 1000, [], map[];
      regions, memory, mail := map[], map[], map[];
    }

    method Initialize() returns (ok: bool)
      modifies this
      ensures ok && initialized
      ensures View() == if old(initialized) then old(View()) else Initialized(old(View()))
      ensures !old(initialized) && old(View()) == EMPTY ==> View() == BOOT && Valid()
    {
      if initialized { return true; }
      processes := processes[0 := Proc(0, "kernel", Running, 50, 2, 0.0, 0, 0, None)];
      processes := processes[1 := Proc(0, "init", Ready, 50, 2, 0.0, 0, 0, None)];
      ready := ready + [1];
      InitKernelMemory();
      initialized := true;
      ok := true;
      InitializedBoots();
      BootIndex();
      BootMemory();
    }

    method InitKernelMemory()
      modifies this`regions, this`memory
      ensures regions == old(regions)[KernelMain := Region(0x1000, 64 * MIB, 0, Locked, 7, Fresh)]
                                     [SystemShared := Region(0x10000000, 32 * MIB, 0, Shared, 3, Fresh)]
      ensures memory == old(memory)[0 := Get(old(memory), 0) + [KernelMain] + [SystemShared]]
    {
      regions := regions[KernelMain := Region(0x1000, 64 * MIB, 0, Locked, 7, Fresh)];
      if 0 !in memory { memory := memory[0 := []]; }
      memory := memory[0 := memory[0] + [KernelMain]];
      regions := regions[SystemShared := Region(0x10000000, 32 * MIB, 0, Shared, 3, Fresh)];
      memory := memory[0 := memory[0] + [SystemShared]];
    }

    /** One pass of the scheduler loop, with `_execute_process` inlined. */
    method RunScheduler()
      modifies this`ready, this`processes
      ensures View() == SchedulerPass(old(View()))
    {
      ghost var was := View();
      if ready != [] {
        var pid := ready[0];
        ready := ready[1..];
        if pid in processes {
          processes := processes[pid := processes[pid].(state := Running)];
          processes := processes[pid := processes[pid].(runtime := processes[pid].runtime + TIME_SLICE)];
          processes := processes[pid := processes[pid].(switches := processes[pid].switches + 1)];
          if processes[pid].state == Running {
            processes := processes[pid := processes[pid].(state := Ready)];
            ready := ready + [pid];
          }
          assert processes == was.processes[pid := Dispatched(was.processes[pid])];
        }
      }
    }

    method InvokeSyscall(caller: Pid, call: Call) returns (out: Outcome)
      modifies this
      ensures Reply(View(), out) == Invoke(old(View()), caller, call)
      ensures initialized == old(initialized)
      ensures old(Valid()) && FreshId(old(View()), Syscall(caller, call)) ==> Valid()
    {
      ghost var was := View();
      match call {
        case Create(name, priority, policy) => out := SyscallProcessCreate(caller, name, priority, policy);
        case Exit(code) => out := SyscallProcessExit(caller, code);
        case Wait(target) => out := SyscallProcessWait(caller, target);
        case Allocate(size, permissions, uuid) => out := SyscallMemoryAllocate(caller, size, permissions, uuid);
        case Free(id) => out := SyscallMemoryFree(caller, id);
        case Map(id, address, permissions, uuid) => out := SyscallMemoryMap(caller, id, address, permissions, uuid);
        case Send(target, subject, kind, payload, uuid) =>
          out := SyscallIpcSend(caller, target, subject, kind, payload, uuid);
        case Receive(wait) => out := SyscallIpcReceive(caller, wait);
        case Unregistered(_) => out := Err(BadNumber);
      }
      if Index(was) && Layout(was) && FreshId(was, Syscall(caller, call)) {
        StepKeepsIndex(was, Syscall(caller, call));
        StepKeepsMemory(was, Syscall(caller, call));
      }
    }

    method SyscallProcessCreate(caller: Pid, name: string, priority: int, policy: int) returns (out: Outcome)
      modifies this
      ensures Reply(View(), out) == ProcessCreate(old(View()), caller, name, priority, policy)
      ensures initialized == old(initialized)
    {
      if name == "" { return Err(EmptyName); }
      var pid := nextPid;
      nextPid := nextPid + 1;
      if !IsPriority(ClampPriority(priority)) { return Err(BadPriority); }
      if !IsPolicy(ClampPolicy(policy)) { return Err(BadPolicy); }
      processes := processes[pid := NewProc(caller, name, ClampPriority(priority), ClampPolicy(policy))];
      processes := processes[pid := processes[pid].(state := Ready)];
      ready := ready + [pid];
      InitProcessMemory(pid);
      mail := mail[pid := []];
      out := Ok(NewPid(pid));
    }

    method InitProcessMemory(pid: Pid)
      modifies this`regions, this`memory, this`processes
      ensures View() == InitMemory(old(View()), pid)
    {
      var code := Region(USER_BASE, 1 * MIB, pid, Normal, 5, Fresh);
      regions := regions[Code(pid) := code];
      var data := Region(0x21000000, 4 * MIB, pid, Normal, 3, Fresh);
      regions := regions[Data(pid) := data];
      var stack := Region(0x22000000, 2 * MIB, pid, Normal, 3, Fresh);
      regions := regions[Stack(pid) := stack];
      assert regions == old(regions) + UserSegments(pid);
      memory := memory[pid := [Code(pid), Data(pid), Stack(pid)]];
      if pid in processes {
        processes := processes[pid := processes[pid].(usage := code.size + data.size + stack.size)];
      }
    }

    method SyscallProcessExit(caller: Pid, exitCode: int) returns (out: Outcome)
      modifies this
      ensures Reply(View(), out) == ProcessExit(old(View()), caller, exitCode)
      ensures initialized == old(initialized)
    {
      if caller !in processes { return Err(NoProcess); }
      ghost var was := View();
      MarkTerminated(caller, exitCode);
      if caller in ready { ready := Remove(ready, caller); }
      if caller in blocked { blocked := blocked - {caller}; }
      assert blocked == was.blocked - {caller};
      FreeProcessMemory(caller);
      if caller in mail { mail := mail - {caller}; }
      out := Ok(Nothing);
      assert mail == was.mail - {caller};
    }

    method MarkTerminated(caller: Pid, code: int)
      requires caller in processes
      modifies this`processes
      ensures processes ==
              old(processes)[caller := old(processes)[caller].(state := Terminated, exitCode := Some(code))]
    {
      processes := processes[caller := processes[caller].(state := Terminated)];
      processes := processes[caller := processes[caller].(exitCode := Some(code))];
    }

    method FreeProcessMemory(pid: Pid)
      modifies this`regions, this`memory, this`processes
      ensures View() == FreeMemory(old(View()), pid)
    {
      if pid !in memory { return; }
      var ids := memory[pid];
      for i := 0 to |ids|
        invariant regions == old(regions) - set id | id in ids[..i]
        invariant memory == old(memory) && processes == old(processes)
      {
        if ids[i] in regions { regions := regions - {ids[i]}; }
        assert ids[..i + 1] == ids[..i] + [ids[i]];
      }
      assert ids[..|ids|] == ids;
      memory := memory - {pid};
      if pid in processes { processes := processes[pid := processes[pid].(usage := 0)]; }
    }

    method BlockCaller(caller: Pid, reason: BlockReason)
      requires caller in processes
      modifies this`ready, this`processes, this`blocked
      ensures View() == Block(old(View()), caller, reason)
    {
      if caller in ready { ready := Remove(ready, caller); }
      processes := processes[caller := processes[caller].(state := Blocked)];
      blocked := blocked[caller := reason];
    }

    method SyscallProcessWait(caller: Pid, target: Pid) returns (out: Outcome)
      modifies this
      ensures Reply(View(), out) == ProcessWait(old(View()), caller, target)
      ensures initialized == old(initialized)
    {
      if target !in processes { return Err(NoTarget); }
      if processes[target].state == Terminated {
        var code := processes[target].exitCode;
        return Ok(ExitCode(if code.Some? then code.value else 0));
      }
      if caller !in processes {
        // the queue is cleaned before the table lookup raises
        if caller in ready { ready := Remove(ready, caller); }
        return Err(KeyError);
      }
      BlockCaller(caller, WaitFor(target));
      out := Ok(BlockedStatus);
    }

    /** What allocate and map do once the region is made. */
    method RecordRegion(caller: Pid, id: RegionId, r: Region)
      modifies this`regions, this`memory
      ensures View() == AddToList(AddRegion(old(View()), id, r), caller, id)
    {
      regions := regions[id := r];
      if caller !in memory { memory := memory[caller := []]; }
      memory := memory[caller := memory[caller] + [id]];
    }

    /** The first address behind all regions listed for the caller; None where the look-up of a listed region raises. */
    method FindStart(caller: Pid) returns (start: Option<int>)
      ensures start.None? <==> exists id :: id in Get(memory, caller) && id !in regions
      ensures start.Some? ==> start.value == HighestEnd(regions, Get(memory, caller), USER_BASE)
    {
      var highest := USER_BASE;
      if caller in memory {
        var ids := memory[caller];
        for i := 0 to |ids|
          invariant forall id :: id in ids[..i] ==> id in regions
          invariant highest == HighestEnd(regions, ids[..i], USER_BASE)
        {
          if ids[i] !in regions { return None; }
          assert ids[..i + 1] == ids[..i] + [ids[i]];
          assert ids[..i + 1][..i] == ids[..i];
          var end := regions[ids[i]].End();
          if end > highest { highest := end; }
        }
        assert ids[..|ids|] == ids;
      }
      start := Some(highest);
    }

    method SyscallMemoryAllocate(caller: Pid, size: int, permissions: int, uuid: nat) returns (out: Outcome)
      modifies this
      ensures Reply(View(), out) == MemoryAllocate(old(View()), caller, size, permissions, uuid)
      ensures initialized == old(initialized)
    {
      if caller !in processes { return Err(NoProcess); }
      if size <= 0 { return Err(BadSize); }
      var found := FindStart(caller);
      if found.None? { return Err(KeyError); }
      var start := found.value;
      if !IsPermission(permissions) { return Err(BadPermissions); }
      var r := Region(start, size, caller, Normal, permissions, Fresh);
      RecordRegion(caller, Uuid(uuid), r);
      processes := processes[caller := processes[caller].(usage := processes[caller].usage + size)];
      out := Ok(Granted(Uuid(uuid), r.start, r.size));
    }

    method SyscallMemoryFree(caller: Pid, id: RegionId) returns (out: Outcome)
      modifies this
      ensures Reply(View(), out) == MemoryFree(old(View()), caller, id)
      ensures initialized == old(initialized)
    {
      if id !in regions { return Err(NoRegion); }
      var r := regions[id];
      if r.owner != caller { return Err(Denied); }
      ghost var was := View();
      if caller in memory && id in memory[caller] {
        memory := memory[caller := Remove(memory[caller], id)];
      }
      assert memory == Unlist(was, caller, id).memory;
      if caller in processes {
        processes := processes[caller := processes[caller].(usage := processes[caller].usage - r.size)];
      }
      regions := regions - {id};
      out := Ok(Nothing);
    }

    method SyscallMemoryMap(caller: Pid, target: RegionId, address: int, permissions: int, uuid: nat)
      returns (out: Outcome)
      modifies this
      ensures Reply(View(), out) == MemoryMap(old(View()), caller, target, address, permissions, uuid)
      ensures initialized == old(initialized)
    {
      if target !in regions { return Err(NoRegion); }
      var t := regions[target];
      if t.kind != Shared && t.owner != caller { return Err(Denied); }
      var start := if address > 0 then address else MAPPING_BASE;
      if !IsPermission(permissions) { return Err(BadPermissions); }
      var r := Region(start, t.size, caller, Shared, permissions, MappedFrom(target));
      RecordRegion(caller, Uuid(uuid), r);
      out := Ok(Granted(Uuid(uuid), r.start, r.size));
    }

    method SyscallIpcSend(caller: Pid, target: Pid, subject: string, kind: int, payload: string, uuid: nat)
      returns (out: Outcome)
      modifies this
      ensures Reply(View(), out) == IpcSend(old(View()), caller, target, subject, kind, payload, uuid)
      ensures initialized == old(initialized)
    {
      if caller !in processes { return Err(NoSender); }
      if target !in processes { return Err(NoTarget); }
      if !IsMessageKind(kind) { return Err(BadKind); }
      var m := Message(uuid, kind, caller, target, subject, payload);
      if target !in mail { mail := mail[target := []]; }
      mail := mail[target := mail[target] + [m]];
      if target in blocked && blocked[target] == IpcReceive {
        blocked := blocked - {target};
        processes := processes[target := processes[target].(state := Ready)];
        ready := ready + [target];
      }
      out := Ok(Sent(uuid));
    }

    method SyscallIpcReceive(caller: Pid, wait: bool) returns (out: Outcome)
      modifies this
      ensures Reply(View(), out) == IpcTake(old(View()), caller, wait)
      ensures initialized == old(initialized)
    {
      if caller !in processes { return Err(NoProcess); }
      if caller in mail && |mail[caller]| > 0 {
        var m := mail[caller][0];
        mail := mail[caller := mail[caller][1..]];
        return Ok(Delivered(m));
      }
      if !wait { return Ok(Nothing); }
      BlockCaller(caller, IpcReceive);
      out := Ok(BlockedStatus);
    }

    /** The memory map of one process. */
    method GetMemoryMap(pid: Pid) returns (result: seq<RegionId>)
      ensures result == MemoryMapOf(View(), pid)
    {
      result := [];
      if pid in memory {
        var ids := memory[pid];
        for i := 0 to |ids|
          invariant result == Live(regions, ids[..i])
        {
          assert ids[..i + 1][..i] == ids[..i];
          if ids[i] in regions { result := result + [ids[i]]; }
        }
        assert ids[..|ids|] == ids;
      }
      result := Sort(StartOf(regions), result);
    }

    /** The per-state process counts of `get_system_info`. */
    method CountStates() returns (counts: map<ProcState, nat>)
      ensures forall s :: s in counts && counts[s] == |InState(processes, processes.Keys, s)|
    {
      counts := map[Created := 0, Ready := 0, Running := 0, Blocked := 0, Suspended := 0, Terminated := 0, Zombie := 0];
      var done: set<Pid> := {};
      ZeroCounts(counts, processes);
      while done != processes.Keys
        invariant done <= processes.Keys && Counted(counts, processes, done)
        decreases processes.Keys - done
      {
        ghost var x := SomethingLeft(processes.Keys, done);
        var p :| p in processes && p !in done;
        assert processes.Keys - (done + {p}) < processes.Keys - done;
        var s := processes[p].state;
        CountOneMore(counts, processes, done, p);
        counts := counts[s := counts[s] + 1];
        done := done + {p};
      }
    }
  }

  ghost predicate Counted(counts: map<ProcState, nat>, processes: map<Pid, Proc>, done: set<Pid>) {
    forall s :: s in counts && counts[s] == |InState(processes, done, s)|
  }

  lemma ZeroCounts(counts: map<ProcState, nat>, processes: map<Pid, Proc>)
    requires counts ==
             map[Created := 0, Ready := 0, Running := 0, Blocked := 0, Suspended := 0, Terminated := 0, Zombie := 0]
    ensures Counted(counts, processes, {})
  {
    forall s: ProcState
      ensures s in counts && counts[s] == |InState(processes, {}, s)|
    {
      assert s.Created? || s.Ready? || s.Running? || s.Blocked? || s.Suspended? || s.Terminated? || s.Zombie?;
      assert InState(processes, {}, s) == {};
    }
  }

  lemma CountOneMore(counts: map<ProcState, nat>, processes: map<Pid, Proc>, done: set<Pid>, p: Pid)
    requires Counted(counts, processes, done) && p in processes && p !in done
    ensures var s := processes[p].state; s in counts && Counted(counts[s := counts[s] + 1], processes, done + {p})
  {
    var s := processes[p].state;
    forall t
      ensures |InState(processes, done + {p}, t)| == |InState(processes, done, t)| + if t == s then 1 else 0
    {
      InStateOneMore(processes, done, p, t);
    }
  }

  lemma InStateOneMore(processes: map<Pid, Proc>, done: set<Pid>, p: Pid, t: ProcState)
    requires p in processes && p !in done
    ensures |InState(processes, done + {p}, t)| ==
            |InState(processes, done, t)| + if t == processes[p].state then 1 else 0
  {
    var before, after := InState(processes, done, t), InState(processes, done + {p}, t);
    if t == processes[p].state {
      assert after == before + {p};
    } else {
      assert after == before;
    }
  }

  /** The processes among `among` that are in state `s`. */
  function InState(processes: map<Pid, Proc>, among: set<Pid>, s: ProcState): set<Pid> {
    set p | p in among && p in processes && processes[p].state == s
  }

  /** The reported counts of ready and blocked processes are the lengths of the queue and of the block table. */
  lemma CountsMatchQueues(k: Kernel)
    requires ReadyAgrees(k) && BlockedAgrees(k) && TableOk(k)
    ensures |InState(k.processes, k.processes.Keys, Ready)| == |k.ready|
    ensures |InState(k.processes, k.processes.Keys, Blocked)| == |k.blocked|
    ensures InState(k.processes, k.processes.Keys, Running) <= {0}
  {
    NoDupLength(k.ready);
    var readyOnes := InState(k.processes, k.processes.Keys, Ready);
    var blockedOnes := InState(k.processes, k.processes.Keys, Blocked);
    assert forall p :: p in readyOnes <==> p in k.ready;
    assert readyOnes == set p | p in k.ready;
    assert forall p :: p in blockedOnes <==> p in k.blocked;
    assert blockedOnes == k.blocked.Keys;
    assert forall p :: p in k.processes ==> ProcOk(p, k.processes[p], k.nextPid);
  }
}
