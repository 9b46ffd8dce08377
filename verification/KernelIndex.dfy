/**
  Agreement of the scheduler's redundant indices: the process table, the ready queue, the table of
  blocked processes and the mailboxes. Also what a failing call may leave behind.
 */
module KernelIndex {
  import opened Options
  import opened Lists
  import opened KernelModel

  ghost predicate ReadyAgrees(k: Kernel) {
    && NoDup(k.ready)
    && forall p :: p in k.ready <==> p in k.processes && k.processes[p].state == Ready
  }

  ghost predicate BlockedAgrees(k: Kernel) {
    forall p :: p in k.blocked <==> p in k.processes && k.processes[p].state == Blocked
  }

  ghost predicate ProcOk(p: Pid, proc: Proc, nextPid: Pid) {
    && p < nextPid
    && proc.state in {Ready, Running, Blocked, Terminated}
    && (proc.state == Running ==> p == 0)
    && (proc.state == Terminated ==> proc.exitCode.Some?)
    && proc.runtime == proc.switches as real * TIME_SLICE
  }

  ghost predicate TableOk(k: Kernel) {
    && 1000 <= k.nextPid
    && forall p :: p in k.processes ==> ProcOk(p, k.processes[p], k.nextPid)
  }

  /** Mailboxes belong to known processes, and nobody sleeps on a mailbox that has a message. */
  ghost predicate MailAgrees(k: Kernel) {
    && k.mail.Keys <= k.processes.Keys
    && forall p :: p in k.blocked && k.blocked[p] == IpcReceive ==> Get(k.mail, p) == []
  }

  ghost predicate Index(k: Kernel) {
    ReadyAgrees(k) && BlockedAgrees(k) && TableOk(k) && MailAgrees(k)
  }

  /** What the memory calls leave alone. */
  ghost predicate SameScheduling(k: Kernel, j: Kernel) {
    && j.ready == k.ready && j.blocked == k.blocked && j.nextPid == k.nextPid && j.mail == k.mail
    && j.processes.Keys == k.processes.Keys
    && forall p :: p in k.processes ==> j.processes[p] == k.processes[p].(usage := j.processes[p].usage)
  }

  lemma SameSchedulingKeeps(k: Kernel, j: Kernel)
    requires Index(k) && SameScheduling(k, j)
    ensures Index(j)
  {
    assert forall p :: p in j.processes ==> ProcOk(p, k.processes[p], k.nextPid);
  }

  lemma MemoryCallsKeepScheduling(k: Kernel, caller: Pid, call: Call)
    requires call.Allocate? || call.Free? || call.Map?
    ensures SameScheduling(k, Invoke(k, caller, call).k)
  {
    match call
    case Allocate(size, permissions, uuid) => AllocateKeepsScheduling(k, caller, size, permissions, uuid);
    case Free(id) => FreeKeepsScheduling(k, caller, id);
    case Map(id, address, permissions, uuid) => MapKeepsScheduling(k, caller, id, address, permissions, uuid);
  }

  lemma MapKeepsScheduling(k: Kernel, caller: Pid, id: RegionId, address: int, permissions: int, uuid: nat)
    ensures SameScheduling(k, MemoryMap(k, caller, id, address, permissions, uuid).k)
  {
  }

  lemma ChargeKeepsScheduling(k: Kernel, j: Kernel, p: Pid, amount: int)
    requires j == k.(regions := j.regions, memory := j.memory)
    ensures SameScheduling(k, AddUsage(j, p, amount))
  {
  }

  lemma AllocateKeepsScheduling(k: Kernel, caller: Pid, size: int, permissions: int, uuid: nat)
    ensures SameScheduling(k, MemoryAllocate(k, caller, size, permissions, uuid).k)
  {
    var r := MemoryAllocate(k, caller, size, permissions, uuid);
    if r.out.Ok? {
      var region := r.k.regions[Uuid(uuid)];
      ChargeKeepsScheduling(k, AddToList(AddRegion(k, Uuid(uuid), region), caller, Uuid(uuid)), caller, size);
    }
  }

  lemma FreeKeepsScheduling(k: Kernel, caller: Pid, id: RegionId)
    ensures SameScheduling(k, MemoryFree(k, caller, id).k)
  {
    if id in k.regions && k.regions[id].owner == caller {
      ChargeKeepsScheduling(k, Unlist(k, caller, id), caller, -k.regions[id].size);
    }
  }

  lemma ReadyAfterRemoval(k: Kernel, p: Pid)
    requires ReadyAgrees(k)
    ensures NoDup(Remove(k.ready, p))
    ensures forall q :: q in Remove(k.ready, p) <==> q in k.processes && k.processes[q].state == Ready && q != p
  {
    RemoveMembers(k.ready, p);
  }

  lemma BlockKeepsIndex(k: Kernel, p: Pid, reason: BlockReason)
    requires Index(k) && p in k.processes
    requires reason == IpcReceive ==> Get(k.mail, p) == []
    ensures Index(Block(k, p, reason))
  {
    ReadyAfterRemoval(k, p);
    assert ProcOk(p, k.processes[p], k.nextPid);
  }

  /** The whole effect of a create that succeeds. */
  lemma CreateEffect(k: Kernel, caller: Pid, name: string, priority: int, policy: int)
    requires ProcessCreate(k, caller, name, priority, policy).out.Ok?
    ensures var pid, j := k.nextPid, ProcessCreate(k, caller, name, priority, policy).k;
      && j.processes == k.processes[pid := Proc(caller, name, Ready, ClampPriority(priority), ClampPolicy(policy),
                                                0.0, 0, 7 * MIB, None)]
      && j == Kernel(j.processes, pid + 1, k.ready + [pid], k.blocked, k.regions + UserSegments(pid),
                     k.memory[pid := [Code(pid), Data(pid), Stack(pid)]], k.mail[pid := []])
  {
  }

  lemma EntryKeepsIndex(k: Kernel, j: Kernel, pid: Pid, proc: Proc)
    requires Index(k) && pid == k.nextPid && proc.state == Ready && proc.runtime == 0.0 && proc.switches == 0
    requires j.processes == k.processes[pid := proc] && j.ready == k.ready + [pid] && j.blocked == k.blocked
    requires j.nextPid == pid + 1 && j.mail == k.mail[pid := []]
    ensures Index(j)
  {
    assert pid !in k.processes && pid !in k.ready && pid !in k.blocked && pid !in k.mail;
    AppendNoDup(k.ready, pid);
    forall p | p in j.processes
      ensures ProcOk(p, j.processes[p], j.nextPid)
    {
      assert p in k.processes ==> ProcOk(p, k.processes[p], k.nextPid);
    }
  }

  lemma BumpKeepsIndex(k: Kernel)
    requires Index(k)
    ensures Index(k.(nextPid := k.nextPid + 1))
  {
    assert forall p :: p in k.processes ==> ProcOk(p, k.processes[p], k.nextPid);
  }

  /** The three things a create can do: nothing, use up a pid, or add the process. */
  lemma CreateCases(k: Kernel, caller: Pid, name: string, priority: int, policy: int)
    ensures var r := ProcessCreate(k, caller, name, priority, policy);
      r.out.Ok? || r.k == k || r.k == k.(nextPid := k.nextPid + 1)
  {
  }

  lemma CreateKeepsIndex(k: Kernel, caller: Pid, name: string, priority: int, policy: int, r: Reply)
    requires Index(k) && r == ProcessCreate(k, caller, name, priority, policy)
    ensures Index(r.k)
  {
    CreateCases(k, caller, name, priority, policy);
    if r.out.Ok? {
      CreateEffect(k, caller, name, priority, policy);
      EntryKeepsIndex(k, r.k, k.nextPid, r.k.processes[k.nextPid]);
    } else {
      BumpKeepsIndex(k);
    }
  }

  lemma ExitKeepsIndex(k: Kernel, caller: Pid, exitCode: int)
    requires Index(k)
    ensures Index(ProcessExit(k, caller, exitCode).k)
  {
    ReadyAfterRemoval(k, caller);
    if caller in k.processes {
      assert ProcOk(caller, k.processes[caller], k.nextPid);
    }
  }

  lemma WakeKeepsIndex(k: Kernel, m: Message)
    requires Index(k) && m.target in k.processes
    ensures Index(Wake(Enqueue(k, m), m.target))
  {
    assert ProcOk(m.target, k.processes[m.target], k.nextPid);
    if m.target in k.blocked {
      AppendNoDup(k.ready, m.target);
    }
  }

  lemma PassKeepsIndex(k: Kernel)
    requires Index(k)
    ensures Index(SchedulerPass(k))
  {
    if k.ready != [] {
      var pid, j := k.ready[0], SchedulerPass(k);
      assert ProcOk(pid, k.processes[pid], k.nextPid);
      RotatedMembers(k.ready);
      AppendNoDup(k.ready[1..], pid);
    }
  }

  lemma RotatedMembers(q: seq<Pid>)
    requires q != []
    ensures forall p :: p in q[1..] + [q[0]] <==> p in q
  {
    assert q == [q[0]] + q[1..];
  }

  /** Every call and every pass keeps all indices in agreement. */
  lemma StepKeepsIndex(k: Kernel, e: Event)
    requires Index(k)
    ensures Index(Apply(k, e))
  {
    match e
    case Pass => PassKeepsIndex(k);
    case Syscall(caller, call) =>
      match call {
        case Create(name, priority, policy) =>
          CreateKeepsIndex(k, caller, name, priority, policy, Invoke(k, caller, call));
        case Exit(code) => ExitKeepsIndex(k, caller, code);
        case Wait(target) =>
          if caller in k.processes {
            BlockKeepsIndex(k, caller, WaitFor(target));
          } else {
            assert caller !in k.ready;
          }
        case Send(target, subject, kind, payload, uuid) =>
          if target in k.processes {
            WakeKeepsIndex(k, Message(uuid, kind, caller, target, subject, payload));
          }
        case Receive(wait) =>
          if caller in k.processes && Get(k.mail, caller) == [] {
            BlockKeepsIndex(k, caller, IpcReceive);
          }
        case Unregistered(_) =>
        case _ =>
          MemoryCallsKeepScheduling(k, caller, call);
          SameSchedulingKeeps(k, Apply(k, e));
      }
  }

  lemma BootIndex()
    ensures Index(BOOT)
  {
    assert forall p :: p in BOOT.processes <==> p == 0 || p == 1;
  }

  lemma {:induction false} RunKeepsIndex(k: Kernel, es: seq<Event>)
    requires Index(k)
    ensures Index(Run(k, es))
    decreases |es|
  {
    if es != [] {
      StepKeepsIndex(k, es[0]);
      RunKeepsIndex(Apply(k, es[0]), es[1..]);
    }
  }

  // ---- failures ----

  /** A create that is refused only because of its priority or policy. */
  predicate BurnsPid(call: Call) {
    call.Create? && call.name != ""
    && !(IsPriority(ClampPriority(call.priority)) && IsPolicy(ClampPolicy(call.policy)))
  }

  /** A refused call changes nothing, except that a create refused for its priority or policy uses up one pid. */
  lemma FailureAtomicity(k: Kernel, caller: Pid, call: Call)
    requires Index(k)
    ensures Invoke(k, caller, call).out.Err? ==>
      Invoke(k, caller, call).k == if BurnsPid(call) then k.(nextPid := k.nextPid + 1) else k
    ensures BurnsPid(call) ==> Invoke(k, caller, call).out.Err?
  {
    if call.Wait? && caller !in k.processes {
      assert caller !in k.ready;
    }
  }

  /** What a create accepts, as its caller can check beforehand. */
  predicate Acceptable(call: Call) {
    call.Create? && call.name != "" && IsPriority(ClampPriority(call.priority)) && 1 <= call.policy
  }

  /** A create succeeds exactly then: the default policy 0 is refused, 1 to 4 are kept, larger ones become 4. */
  lemma PolicyRange(k: Kernel, caller: Pid, call: Call)
    requires call.Create?
    ensures Invoke(k, caller, call).out.Ok? <==> Acceptable(call)
    ensures Acceptable(call) ==>
      var j := Invoke(k, caller, call).k;
      && k.nextPid in j.processes
      && j.processes[k.nextPid].policy == (if call.policy <= 4 then call.policy else 4)
      && j.processes[k.nextPid].priority == ClampPriority(call.priority)
  {
  }
}
