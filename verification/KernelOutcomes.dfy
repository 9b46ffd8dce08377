/**
  What each system call answers and does, seen by its caller: when it is accepted, what the reply names, and what has
  changed. Further the laws that tie answers of several calls together: allocate and free undo each other, pids are
  never handed out twice, and receiving drains a mailbox in order.
 */
module KernelOutcomes {
  import opened Options
  import opened Lists
  import opened KernelModel
  import opened KernelIndex
  import opened KernelMemory
  import opened KernelHistory

  // ---- processes ----

  /** 0, 10, 20, 30, 40 and 50 are the priorities; anything outside that range is clamped into it. */
  predicate GoodPriority(n: int) {
    n <= 0 || n == 10 || n == 20 || n == 30 || n == 40 || 50 <= n
  }

  lemma CreateOutcome(k: Kernel, caller: Pid, name: string, priority: int, policy: int)
    requires Index(k)
    ensures var r, pid := Invoke(k, caller, Create(name, priority, policy)), k.nextPid;
      if name == "" then r == Reply(k, Err(EmptyName))
      else if !GoodPriority(priority) then r == Reply(k.(nextPid := pid + 1), Err(BadPriority))
      else if policy <= 0 then r == Reply(k.(nextPid := pid + 1), Err(BadPolicy))
      else
        && r.out == Ok(NewPid(pid)) && pid !in k.processes && r.k.nextPid == pid + 1
        && r.k.processes == k.processes[pid :=
             Proc(caller, name, Ready, if priority <= 0 then 0 else if 50 <= priority then 50 else priority,
                  if policy <= 4 then policy else 4, 0.0, 0, 7 * 1024 * 1024, None)]
        && r.k.ready == k.ready + [pid] && r.k.blocked == k.blocked && r.k.mail == k.mail[pid := []]
        && r.k.memory == k.memory[pid := [Code(pid), Data(pid), Stack(pid)]]
  {
    GoodArguments(priority, policy);
    assert k.nextPid in k.processes ==> ProcOk(k.nextPid, k.processes[k.nextPid], k.nextPid);
    var r := ProcessCreate(k, caller, name, priority, policy);
    assert Invoke(k, caller, Create(name, priority, policy)) == r;
    if name != "" && GoodPriority(priority) && 0 < policy {
      AcceptedCreate(k, caller, name, priority, policy);
      CreateEffect(k, caller, name, priority, policy);
    } else {
      RefusedCreate(k, caller, name, priority, policy);
    }
  }

  lemma GoodArguments(priority: int, policy: int)
    ensures IsPriority(ClampPriority(priority)) <==> GoodPriority(priority)
    ensures ClampPriority(priority) == if priority <= 0 then 0 else if 50 <= priority then 50 else priority
    ensures IsPolicy(ClampPolicy(policy)) <==> 0 < policy
    ensures 0 < policy ==> ClampPolicy(policy) == if policy <= 4 then policy else 4
  {
  }

  lemma AcceptedCreate(k: Kernel, caller: Pid, name: string, priority: int, policy: int)
    requires name != "" && IsPriority(ClampPriority(priority)) && IsPolicy(ClampPolicy(policy))
    ensures ProcessCreate(k, caller, name, priority, policy).out == Ok(NewPid(k.nextPid))
  {
  }

  lemma RefusedCreate(k: Kernel, caller: Pid, name: string, priority: int, policy: int)
    requires name == "" || !IsPriority(ClampPriority(priority)) || !IsPolicy(ClampPolicy(policy))
    ensures ProcessCreate(k, caller, name, priority, policy) ==
            if name == "" then Reply(k, Err(EmptyName))
            else Reply(k.(nextPid := k.nextPid + 1),
                       Err(if !IsPriority(ClampPriority(priority)) then BadPriority else BadPolicy))
  {
  }

  /** The new segments: readable code that cannot be written, data and stack that cannot be executed. */
  lemma CreatedSegments(k: Kernel, caller: Pid, call: Call)
    requires call.Create? && Invoke(k, caller, call).out.Ok?
    ensures var pid, j := k.nextPid, Invoke(k, caller, call).k;
      && Code(pid) in j.regions && Data(pid) in j.regions && Stack(pid) in j.regions
      && j.regions[Code(pid)] == Region(0x20000000, 0x100000, pid, Normal, 5, Fresh)
      && j.regions[Data(pid)] == Region(0x21000000, 0x400000, pid, Normal, 3, Fresh)
      && j.regions[Stack(pid)] == Region(0x22000000, 0x200000, pid, Normal, 3, Fresh)
      && forall id :: id !in {Code(pid), Data(pid), Stack(pid)} ==>
           (id in j.regions <==> id in k.regions) && (id in k.regions ==> j.regions[id] == k.regions[id])
  {
    CreateEffect(k, caller, call.name, call.priority, call.policy);
  }

  lemma ExitOutcome(k: Kernel, caller: Pid, exitCode: int)
    requires Index(k)
    ensures var r := Invoke(k, caller, Exit(exitCode));
      if caller !in k.processes then r == Reply(k, Err(NoProcess))
      else
        && r.out == Ok(Nothing)
        && r.k.processes == k.processes[caller := k.processes[caller].(
             state := Terminated, exitCode := Some(exitCode),
             usage := if caller in k.memory then 0 else k.processes[caller].usage)]
        && r.k.blocked == k.blocked - {caller} && r.k.memory == k.memory - {caller} && r.k.mail == k.mail - {caller}
        && r.k.nextPid == k.nextPid
        && (forall p :: p in r.k.ready <==> p in k.ready && p != caller)
  {
    RemoveMembers(k.ready, caller);
  }

  /** An unregistered number is refused and changes nothing. */
  lemma UnregisteredOutcome(k: Kernel, caller: Pid, number: int)
    ensures Invoke(k, caller, Unregistered(number)) == Reply(k, Err(BadNumber))
  {
  }

  // ---- memory ----

  /** Region `id`, not there before, is `r`; everything else in the region table is as it was. */
  ghost predicate OneNewRegion(k: Kernel, j: Kernel, id: RegionId, r: Region) {
    && id !in k.regions && id in j.regions && j.regions[id] == r
    && forall x :: x != id ==>
         (x in j.regions <==> x in k.regions) && (x in k.regions ==> j.regions[x] == k.regions[x])
  }

  /** The list of `p` has become `ids`; all other lists are as they were. */
  ghost predicate OneListChanged(k: Kernel, j: Kernel, p: Pid, ids: seq<RegionId>) {
    && Get(j.memory, p) == ids
    && forall q :: q != p ==> (q in j.memory <==> q in k.memory) && (q in k.memory ==> j.memory[q] == k.memory[q])
  }

  /** Only the usage of `p` has changed outside the memory, by this amount. */
  ghost predicate OneUsageChanged(k: Kernel, j: Kernel, p: Pid, amount: int) {
    && SameScheduling(k, j)
    && forall q :: q in k.processes ==>
         j.processes[q].usage == k.processes[q].usage + if q == p then amount else 0
  }

  lemma AllocateOutcome(k: Kernel, caller: Pid, size: int, permissions: int, uuid: nat)
    requires Layout(k) && Uuid(uuid) !in k.regions
    ensures var r, id := Invoke(k, caller, Allocate(size, permissions, uuid)), Uuid(uuid);
      if caller !in k.processes then r == Reply(k, Err(NoProcess))
      else if size <= 0 then r == Reply(k, Err(BadSize))
      else if !(0 <= permissions <= 7) then r == Reply(k, Err(BadPermissions))
      else
        && r.out.Ok? && r.out.value.Granted?
        && var start := r.out.value.address;
        && r.out.value == Granted(id, start, size)
        && OneNewRegion(k, r.k, id, Region(start, size, caller, Normal, permissions, Fresh))
        && OneListChanged(k, r.k, caller, Get(k.memory, caller) + [id])
        && OneUsageChanged(k, r.k, caller, size)
        && (forall x :: x in Get(k.memory, caller) ==> x in k.regions && k.regions[x].End() <= start)
        && 0x20000000 <= start
        && (start == 0x20000000 ||
            exists x :: x in Get(k.memory, caller) && x in k.regions && k.regions[x].End() == start)
  {
    MemoryCallsKeepScheduling(k, caller, Allocate(size, permissions, uuid));
    if caller in k.memory {
      assert ListOk(k.regions, caller, k.memory[caller]);
    }
  }

  lemma MapOutcome(k: Kernel, caller: Pid, target: RegionId, address: int, permissions: int, uuid: nat)
    requires Uuid(uuid) !in k.regions
    ensures var r, id := Invoke(k, caller, Map(target, address, permissions, uuid)), Uuid(uuid);
      if target !in k.regions then r == Reply(k, Err(NoRegion))
      else if !(k.regions[target].kind == Shared || k.regions[target].owner == caller) then r == Reply(k, Err(Denied))
      else if !(0 <= permissions <= 7) then r == Reply(k, Err(BadPermissions))
      else
        var start, size := if 0 < address then address else 0x30000000, k.regions[target].size;
        && r.out == Ok(Granted(id, start, size))
        && OneNewRegion(k, r.k, id, Region(start, size, caller, Shared, permissions, MappedFrom(target)))
        && OneListChanged(k, r.k, caller, Get(k.memory, caller) + [id])
        && OneUsageChanged(k, r.k, caller, 0)
  {
  }

  lemma FreeOutcome(k: Kernel, caller: Pid, id: RegionId)
    requires Layout(k)
    ensures var r := Invoke(k, caller, Free(id));
      if id !in k.regions then r == Reply(k, Err(NoRegion))
      else if k.regions[id].owner != caller then r == Reply(k, Err(Denied))
      else
        && r.out == Ok(Nothing)
        && OneNewRegion(r.k, k, id, k.regions[id])
        && OneUsageChanged(k, r.k, caller, -k.regions[id].size)
        && OneListChanged(k, r.k, caller, Remove(Get(k.memory, caller), id))
        && id !in Get(r.k.memory, caller)
  {
    MemoryCallsKeepScheduling(k, caller, Free(id));
    if caller in k.memory {
      assert ListOk(k.regions, caller, k.memory[caller]);
      RemoveMembers(k.memory[caller], id);
    }
  }

  lemma RemoveLast(ids: seq<RegionId>, id: RegionId)
    requires id !in ids
    ensures Remove(ids + [id], id) == ids
  {
    var longer := ids + [id];
    assert longer[|ids|] == id;
    assert forall i :: 0 <= i < |ids| ==> longer[i] == ids[i] && ids[i] in ids;
    assert IndexOf(longer, id) == |ids|;
    assert longer[..|ids|] + longer[|ids| + 1..] == ids;
  }

  lemma NewIdUnlisted(k: Kernel, p: Pid, id: RegionId)
    requires Listed(k) && id !in k.regions
    ensures id !in Get(k.memory, p)
  {
    if p in k.memory { assert ListOk(k.regions, p, k.memory[p]); }
  }

  /** Freeing what has just been allocated undoes the allocation, up to an empty list left behind. */
  lemma FreeUndoesAllocate(k: Kernel, caller: Pid, size: int, permissions: int, uuid: nat)
    requires Layout(k) && Uuid(uuid) !in k.regions
    ensures var r := Invoke(k, caller, Allocate(size, permissions, uuid));
      r.out.Ok? ==>
        && r.out.value.Granted?
        && Invoke(r.k, caller, Free(r.out.value.id)) ==
           Reply(k.(memory := k.memory[caller := Get(k.memory, caller)]), Ok(Nothing))
  {
    var r := Invoke(k, caller, Allocate(size, permissions, uuid));
    if r.out.Ok? {
      NewIdUnlisted(k, caller, Uuid(uuid));
      RemoveLast(Get(k.memory, caller), Uuid(uuid));
      AllocatedState(k, caller, size, permissions, uuid);
      AllocatedThenFreed(k, caller, r.out.value.address, size, permissions, uuid);
    }
  }

  lemma AllocatedState(k: Kernel, caller: Pid, size: int, permissions: int, uuid: nat)
    requires MemoryAllocate(k, caller, size, permissions, uuid).out.Ok?
    ensures var r, id := MemoryAllocate(k, caller, size, permissions, uuid), Uuid(uuid);
      && caller in k.processes && r.out.value.Granted? && r.out.value.id == id
      && r.k == k.(regions := k.regions[id := Region(r.out.value.address, size, caller, Normal, permissions, Fresh)],
                   memory := k.memory[caller := Get(k.memory, caller) + [id]],
                   processes := k.processes[caller := k.processes[caller].(usage := k.processes[caller].usage + size)])
  {
  }

  lemma AllocatedThenFreed(k: Kernel, caller: Pid, start: int, size: int, permissions: int, uuid: nat)
    requires caller in k.processes && Uuid(uuid) !in k.regions
    requires Remove(Get(k.memory, caller) + [Uuid(uuid)], Uuid(uuid)) == Get(k.memory, caller)
    ensures var id := Uuid(uuid);
      var j := k.(regions := k.regions[id := Region(start, size, caller, Normal, permissions, Fresh)],
                  memory := k.memory[caller := Get(k.memory, caller) + [id]],
                  processes := k.processes[caller := k.processes[caller].(usage := k.processes[caller].usage + size)]);
      MemoryFree(j, caller, id) == Reply(k.(memory := k.memory[caller := Get(k.memory, caller)]), Ok(Nothing))
  {
    var id, p, ids := Uuid(uuid), k.processes[caller], Get(k.memory, caller);
    var regions := k.regions[id := Region(start, size, caller, Normal, permissions, Fresh)];
    var j := k.(regions := regions, memory := k.memory[caller := ids + [id]],
                processes := k.processes[caller := p.(usage := p.usage + size)]);
    assert regions - {id} == k.regions;
    assert Unlist(j, caller, id).memory == k.memory[caller := ids];
    Recharge(k.processes, caller, size);
    var refunded := AddUsage(Unlist(j, caller, id), caller, -size);
    assert refunded == j.(memory := k.memory[caller := ids], processes := k.processes);
    assert MemoryFree(j, caller, id) == Reply(refunded.(regions := regions - {id}), Ok(Nothing));
  }

  lemma Recharge(procs: map<Pid, Proc>, p: Pid, amount: int)
    requires p in procs
    ensures Recharged(procs[p := procs[p].(usage := procs[p].usage + amount)], p, -amount) == procs
  {
  }

  /** Freeing a mapping just made does not undo it: the caller's usage falls by a size it never rose by. */
  lemma FreeRefundsMap(k: Kernel, caller: Pid, target: RegionId, address: int, permissions: int, uuid: nat)
    requires Layout(k) && Uuid(uuid) !in k.regions
    ensures var r := Invoke(k, caller, Map(target, address, permissions, uuid));
      r.out.Ok? ==>
        && r.out.value.Granted?
        && var f := Invoke(r.k, caller, Free(r.out.value.id));
        && f.out == Ok(Nothing) && f.k.regions == k.regions && Get(f.k.memory, caller) == Get(k.memory, caller)
        && OneUsageChanged(k, f.k, caller, -r.out.value.size)
  {
    var r := Invoke(k, caller, Map(target, address, permissions, uuid));
    MapOutcome(k, caller, target, address, permissions, uuid);
    if r.out.Ok? {
      NewIdUnlisted(k, caller, Uuid(uuid));
      RemoveLast(Get(k.memory, caller), Uuid(uuid));
      FreeKeepsScheduling(r.k, caller, Uuid(uuid));
    }
  }

  /** The first allocation of a new process begins where its stack ends. */
  lemma FirstAllocation(k: Kernel, caller: Pid, call: Call, size: int, permissions: int, uuid: nat)
    requires Index(k) && Layout(k) && call.Create? && Invoke(k, caller, call).out.Ok?
    requires 0 < size && 0 <= permissions <= 7 && Uuid(uuid) !in Invoke(k, caller, call).k.regions
    ensures Invoke(Invoke(k, caller, call).k, k.nextPid, Allocate(size, permissions, uuid)).out ==
            Ok(Granted(Uuid(uuid), 0x22200000, size))
  {
    var j, pid := Invoke(k, caller, call).k, k.nextPid;
    StepKeepsMemory(k, Syscall(caller, call));
    CreateEffect(k, caller, call.name, call.priority, call.policy);
    CreatedSegments(k, caller, call);
    BehindSegments(j, pid, size, permissions, uuid);
  }

  lemma BehindSegments(j: Kernel, pid: Pid, size: int, permissions: int, uuid: nat)
    requires Layout(j) && pid in j.processes && Uuid(uuid) !in j.regions
    requires Get(j.memory, pid) == [Code(pid), Data(pid), Stack(pid)]
    requires Code(pid) in j.regions && Data(pid) in j.regions && Stack(pid) in j.regions
    requires j.regions[Code(pid)].End() == 0x20100000 && j.regions[Data(pid)].End() == 0x21400000
    requires j.regions[Stack(pid)].End() == 0x22200000
    requires 0 < size && 0 <= permissions <= 7
    ensures Invoke(j, pid, Allocate(size, permissions, uuid)).out == Ok(Granted(Uuid(uuid), 0x22200000, size))
  {
    AllocateOutcome(j, pid, size, permissions, uuid);
    assert Get(j.memory, pid)[2] == Stack(pid);
  }

  /** After start-up the kernel runs, init alone is ready, nobody sleeps and no mailbox exists. */
  lemma BootProcesses()
    ensures BOOT.processes.Keys == {0, 1} && BOOT.ready == [1] && BOOT.nextPid == 1000
    ensures BOOT.blocked == map[] && BOOT.mail == map[]
    ensures BOOT.processes[0] == Proc(0, "kernel", Running, 50, 2, 0.0, 0, 0, None)
    ensures BOOT.processes[1] == Proc(0, "init", Ready, 50, 2, 0.0, 0, 0, None)
  {
  }

  /** The kernel regions are apart from each other and below user space; only the shared one is open to everybody. */
  lemma BootRegions(caller: Pid, uuid: nat)
    ensures BOOT.regions.Keys == {KernelMain, SystemShared}
    ensures BOOT.regions[KernelMain].End() <= BOOT.regions[SystemShared].start
    ensures BOOT.regions[SystemShared].End() <= 0x20000000
    ensures BOOT.regions[KernelMain].size == 0x4000000 && BOOT.regions[SystemShared].size == 0x2000000
    ensures BOOT.regions[KernelMain].start == 0x1000 && BOOT.regions[SystemShared].start == 0x10000000
    ensures BOOT.regions[KernelMain].permissions == 7 && BOOT.regions[SystemShared].permissions == 3
    ensures BOOT.memory == map[0 := [KernelMain, SystemShared]]
    ensures Invoke(BOOT, caller, Map(SystemShared, 0, 1, uuid)).out.Ok?
    ensures Invoke(BOOT, caller, Map(KernelMain, 0, 1, uuid)).out.Ok? <==> caller == 0
  {
    MapOutcome(BOOT, caller, SystemShared, 0, 1, uuid);
    MapOutcome(BOOT, caller, KernelMain, 0, 1, uuid);
  }

  // ---- messages ----

  lemma SendOutcome(k: Kernel, caller: Pid, target: Pid, subject: string, kind: int, payload: string, uuid: nat)
    requires Index(k)
    ensures var r := Invoke(k, caller, Send(target, subject, kind, payload, uuid));
      if caller !in k.processes then r == Reply(k, Err(NoSender))
      else if target !in k.processes then r == Reply(k, Err(NoTarget))
      else if !(1 <= kind <= 6) then r == Reply(k, Err(BadKind))
      else
        var woken := target in k.blocked && k.blocked[target] == IpcReceive;
        && r.out == Ok(Sent(uuid))
        && r.k.mail == k.mail[target := Get(k.mail, target) + [Message(uuid, kind, caller, target, subject, payload)]]
        && r.k.ready == k.ready + (if woken then [target] else [])
        && (forall p :: p in r.k.blocked <==> p in k.blocked && !(woken && p == target))
        && (forall p :: p in r.k.blocked ==> r.k.blocked[p] == k.blocked[p])
        && (forall p :: p in r.k.processes <==> p in k.processes)
        && (forall p :: p in k.processes ==>
              r.k.processes[p] == if woken && p == target then k.processes[p].(state := Ready) else k.processes[p])
        && r.k.regions == k.regions && r.k.memory == k.memory && r.k.nextPid == k.nextPid
  {
  }

  /** A receive takes the oldest message. With an empty mailbox it answers that there is none, or goes to sleep. */
  lemma ReceiveOutcome(k: Kernel, caller: Pid, wait: bool)
    requires Index(k)
    ensures var r := Invoke(k, caller, Receive(wait));
      if caller !in k.processes then r == Reply(k, Err(NoProcess))
      else if Get(k.mail, caller) == [] then
        if !wait then r == Reply(k, Ok(Nothing))
        else
          && r.out == Ok(BlockedStatus) && r.k.blocked == k.blocked[caller := IpcReceive]
          && r.k.processes == k.processes[caller := k.processes[caller].(state := Blocked)]
          && (forall p :: p in r.k.ready <==> p in k.ready && p != caller)
          && r.k == k.(ready := r.k.ready, blocked := r.k.blocked, processes := r.k.processes)
      else
        forall m, rest :: Get(k.mail, caller) == [m] + rest ==>
          r == Reply(k.(mail := k.mail[caller := rest]), Ok(Delivered(m)))
  {
    RemoveMembers(k.ready, caller);
    if Get(k.mail, caller) != [] {
      forall m, rest | Get(k.mail, caller) == [m] + rest
        ensures rest == k.mail[caller][1..] && m == k.mail[caller][0]
      {
        assert ([m] + rest)[1..] == rest;
      }
    }
  }

  function Repeat(e: Event, n: nat): seq<Event> { seq(n, _ => e) }

  /** The replies of a sequence of calls, in order. */
  function Replies(k: Kernel, es: seq<Event>): seq<Outcome>
    decreases |es|
  {
    if es == [] then []
    else (if es[0].Syscall? then [Invoke(k, es[0].caller, es[0].call).out] else []) + Replies(Apply(k, es[0]), es[1..])
  }

  function Deliveries(mail: seq<Message>): seq<Outcome> {
    seq(|mail|, i requires 0 <= i < |mail| => Ok(Delivered(mail[i])))
  }

  /** As many receives as there are messages waiting deliver exactly these, in order, and change nothing else. */
  lemma {:induction false} DrainMailbox(k: Kernel, p: Pid, wait: bool, waiting: seq<Message>)
    requires Index(k) && p in k.processes && Get(k.mail, p) == waiting
    ensures var es := Repeat(Syscall(p, Receive(wait)), |waiting|);
      && Replies(k, es) == Deliveries(waiting)
      && Run(k, es) == (if waiting == [] then k else k.(mail := k.mail[p := []]))
    decreases |waiting|
  {
    var e := Syscall(p, Receive(wait));
    if waiting != [] {
      var m, rest := waiting[0], waiting[1..];
      OneDelivery(k, p, wait, waiting);
      StepKeepsIndex(k, e);
      DrainMailbox(Apply(k, e), p, wait, rest);
      var es := Repeat(e, |waiting|);
      assert es[0] == e && es[1..] == Repeat(e, |rest|);
      assert Replies(k, es) == [Ok(Delivered(m))] + Replies(Apply(k, e), es[1..]);
      assert Deliveries(waiting) == [Ok(Delivered(m))] + Deliveries(rest);
    }
  }

  lemma OneDelivery(k: Kernel, p: Pid, wait: bool, waiting: seq<Message>)
    requires Index(k) && p in k.processes && Get(k.mail, p) == waiting != []
    ensures Invoke(k, p, Receive(wait)) == Reply(k.(mail := k.mail[p := waiting[1..]]), Ok(Delivered(waiting[0])))
    ensures k.mail[p := waiting[1..]][p := []] == k.mail[p := []]
  {
    assert waiting == [waiting[0]] + waiting[1..];
    ReceiveOutcome(k, p, wait);
  }

  lemma {:induction false} DrainRecord(w: World, p: Pid, wait: bool, n: nat)
    ensures Get(Record(w, Repeat(Syscall(p, Receive(wait)), n)).sent, p) == Get(w.sent, p)
    decreases n
  {
    if n > 0 {
      var e := Syscall(p, Receive(wait));
      assert Repeat(e, n)[1..] == Repeat(e, n - 1);
      DrainRecord(Observe(w, e), p, wait, n - 1);
    }
  }

  lemma {:induction false} ReceivesAreFresh(k: Kernel, p: Pid, wait: bool, n: nat)
    ensures FreshIds(k, Repeat(Syscall(p, Receive(wait)), n))
    decreases n
  {
    if n > 0 {
      var e := Syscall(p, Receive(wait));
      assert Repeat(e, n)[1..] == Repeat(e, n - 1);
      ReceivesAreFresh(Apply(k, e), p, wait, n - 1);
    }
  }

  /**
    After any run from start-up, a process that receives as often as it has messages waiting has received, since its
    last exit, exactly what has been sent to it since then, in order.
   */
  lemma EverythingIsDelivered(es: seq<Event>, p: Pid, wait: bool)
    requires FreshIds(BOOT, es) && p in Run(BOOT, es).processes
    ensures var w := Record(START, es);
      var receives := Repeat(Syscall(p, Receive(wait)), |Get(w.k.mail, p)|);
      var v := Record(w, receives);
      && w.k == Run(BOOT, es)
      && Replies(w.k, receives) == Deliveries(Get(w.k.mail, p))
      && Get(v.received, p) == Get(v.sent, p) == Get(w.sent, p) && Get(v.k.mail, p) == []
  {
    KernelSafety(es);
    var w := Record(START, es);
    var n := |Get(w.k.mail, p)|;
    var receives := Repeat(Syscall(p, Receive(wait)), n);
    DrainMailbox(w.k, p, wait, Get(w.k.mail, p));
    DrainRecord(w, p, wait, n);
    ReceivesAreFresh(w.k, p, wait, n);
    RecordKeepsGood(w, receives);
    assert LettersOf(Record(w, receives), p);
  }

  // ---- passes ----

  /** A pass changes the queue and, of the process it dispatches, the state, the run time and the dispatch count. */
  lemma PassOutcome(k: Kernel)
    requires Index(k)
    ensures var j := Apply(k, Pass);
      if k.ready == [] then j == k
      else
        var head := k.ready[0];
        && head in k.processes
        && j == k.(ready := k.ready[1..] + [head],
                   processes := k.processes[head := k.processes[head].(
                     state := Ready, runtime := k.processes[head].runtime + 0.01,
                     switches := k.processes[head].switches + 1)])
  {
    if k.ready != [] {
      var head := k.ready[0];
      assert ReadyAgrees(k) && head in k.ready;
    }
  }

  // ---- what never changes, and what is never used twice ----

  predicate SameIdentity(p: Proc, q: Proc) {
    p.parent == q.parent && p.name == q.name && p.priority == q.priority && p.policy == q.policy
  }

  lemma StepKeepsIdentity(k: Kernel, e: Event, p: Pid)
    requires Index(k) && p in k.processes
    ensures p in Apply(k, e).processes && SameIdentity(k.processes[p], Apply(k, e).processes[p])
  {
    match e
    case Pass => PassOutcome(k);
    case Syscall(caller, Create(name, priority, policy)) =>
      assert ProcOk(p, k.processes[p], k.nextPid);
      CreateOutcome(k, caller, name, priority, policy);
    case Syscall(caller, Exit(code)) => ExitOutcome(k, caller, code);
    case Syscall(caller, Wait(target)) => WaitKeepsIdentity(k, caller, target, p);
    case Syscall(caller, Send(target, subject, kind, payload, uuid)) =>
      SendOutcome(k, caller, target, subject, kind, payload, uuid);
    case Syscall(caller, Receive(wait)) => ReceiveKeepsIdentity(k, caller, wait, p);
    case Syscall(caller, Unregistered(_)) =>
    case Syscall(caller, call) => MemoryCallsKeepScheduling(k, caller, call);
  }

  lemma WaitKeepsIdentity(k: Kernel, caller: Pid, target: Pid, p: Pid)
    requires p in k.processes
    ensures var j := Invoke(k, caller, Wait(target)).k;
      p in j.processes && SameIdentity(k.processes[p], j.processes[p])
  {
  }

  lemma ReceiveKeepsIdentity(k: Kernel, caller: Pid, wait: bool, p: Pid)
    requires p in k.processes
    ensures var j := Invoke(k, caller, Receive(wait)).k;
      p in j.processes && SameIdentity(k.processes[p], j.processes[p])
  {
  }

  /** On every run the parent, name, priority and policy of a process stay what its creation gave it. */
  lemma {:induction false} IdentityKept(k: Kernel, es: seq<Event>, p: Pid)
    requires Index(k) && p in k.processes
    ensures p in Run(k, es).processes && SameIdentity(k.processes[p], Run(k, es).processes[p])
    decreases |es|
  {
    if es != [] {
      StepKeepsIdentity(k, es[0], p);
      StepKeepsIndex(k, es[0]);
      IdentityKept(Apply(k, es[0]), es[1..], p);
    }
  }

  /** The pid that a step answers with, if it does. */
  function AnsweredPid(k: Kernel, e: Event): seq<Pid> {
    if e.Syscall? && Invoke(k, e.caller, e.call).out.Ok? && Invoke(k, e.caller, e.call).out.value.NewPid?
    then [Invoke(k, e.caller, e.call).out.value.pid]
    else []
  }

  /** The pids that the steps of a run have answered with, in order. */
  function NewPids(k: Kernel, es: seq<Event>): seq<Pid>
    decreases |es|
  {
    if es == [] then [] else AnsweredPid(k, es[0]) + NewPids(Apply(k, es[0]), es[1..])
  }

  /** Exactly an accepted create answers with a pid, which is the next one. */
  lemma WhoAnswersPids(k: Kernel, e: Event)
    requires Index(k)
    ensures AnsweredPid(k, e) == if e.Syscall? && Acceptable(e.call) then [k.nextPid] else []
    ensures k.nextPid + |AnsweredPid(k, e)| <= Apply(k, e).nextPid
  {
    if e.Syscall? {
      match e.call {
        case Create(name, priority, policy) =>
          CreateOutcome(k, e.caller, name, priority, policy);
          GoodArguments(priority, policy);
        case Allocate(_, _, _) => MemoryCallsKeepScheduling(k, e.caller, e.call);
        case Free(_) => MemoryCallsKeepScheduling(k, e.caller, e.call);
        case Map(_, _, _, _) => MemoryCallsKeepScheduling(k, e.caller, e.call);
        case _ => OtherCallsAnswerNoPid(k, e.caller, e.call);
      }
    }
  }

  lemma OtherCallsAnswerNoPid(k: Kernel, caller: Pid, call: Call)
    requires call.Exit? || call.Wait? || call.Send? || call.Receive? || call.Unregistered?
    ensures var r := Invoke(k, caller, call); r.k.nextPid == k.nextPid && (r.out.Ok? ==> !r.out.value.NewPid?)
  {
  }

  ghost predicate Ascending(s: seq<Pid>, floor: Pid) {
    && (forall i :: 0 <= i < |s| ==> floor <= s[i])
    && forall i, j :: 0 <= i < j < |s| ==> s[i] < s[j]
  }

  lemma AscendingFrom(s: seq<Pid>, floor: Pid, low: Pid)
    requires Ascending(s, floor)
    ensures low <= floor ==> Ascending(s, low)
    ensures low < floor ==> Ascending([low] + s, low)
  {
  }

  /** On every run the pids handed out ascend strictly, from the next one on: none is handed out twice. */
  lemma {:induction false} PidsNeverReused(k: Kernel, es: seq<Event>)
    requires Index(k)
    ensures Ascending(NewPids(k, es), k.nextPid)
    decreases |es|
  {
    if es != [] {
      var j := Apply(k, es[0]);
      WhoAnswersPids(k, es[0]);
      StepKeepsIndex(k, es[0]);
      PidsNeverReused(j, es[1..]);
      AscendingFrom(NewPids(j, es[1..]), j.nextPid, k.nextPid);
      assert [] + NewPids(j, es[1..]) == NewPids(j, es[1..]);
    }
  }

  /** Each of them has belonged to no process before, and belongs to one from then on. */
  lemma {:induction false} PidsBelong(k: Kernel, es: seq<Event>, p: Pid)
    requires Index(k) && p in NewPids(k, es)
    ensures p !in k.processes && p in Run(k, es).processes
    decreases |es|
  {
    var j := Apply(k, es[0]);
    WhoAnswersPids(k, es[0]);
    StepKeepsIndex(k, es[0]);
    assert p in k.processes ==> ProcOk(p, k.processes[p], k.nextPid);
    if p in NewPids(j, es[1..]) {
      PidsBelong(j, es[1..], p);
      TableGrows(k, es[0]);
    } else {
      NewcomerListed(k, es[0]);
      IdentityKept(j, es[1..], p);
    }
  }

  lemma NewcomerListed(k: Kernel, e: Event)
    requires Index(k) && e.Syscall? && Acceptable(e.call)
    ensures k.nextPid in Apply(k, e).processes
  {
    CreateOutcome(k, e.caller, e.call.name, e.call.priority, e.call.policy);
    GoodArguments(e.call.priority, e.call.policy);
  }
}
