/**
  Memory bookkeeping: the region table, the per-process lists of region ids and the layout of addresses.
 */
module KernelMemory {
  import opened Options
  import opened Lists
  import opened StableOrder
  import opened KernelModel
  import opened KernelIndex

  /** Every listed id is a live region of that process, listed once. */
  ghost predicate Listed(k: Kernel) {
    forall p :: p in k.memory ==> ListOk(k.regions, p, k.memory[p])
  }

  ghost predicate ListOk(regions: map<RegionId, Region>, p: Pid, ids: seq<RegionId>) {
    NoDup(ids) && forall id :: id in ids ==> id in regions && regions[id].owner == p
  }

  /** Regions are not empty, the segments of a pid exist only once that pid is taken, and charged regions are listed. */
  ghost predicate RegionOk(k: Kernel, id: RegionId, r: Region) {
    && 0 < r.size
    && (id.Code? || id.Data? || id.Stack? ==> id.pid < k.nextPid)
    && (r.IsCharged() ==> r.owner in k.processes && id in Get(k.memory, r.owner))
  }

  ghost predicate RegionsOk(k: Kernel) {
    forall id :: id in k.regions ==> RegionOk(k, id, k.regions[id])
  }

  /** A region that is not a mapping lies behind all regions listed before it. */
  ghost predicate OrderOk(regions: map<RegionId, Region>, ids: seq<RegionId>)
    requires forall id :: id in ids ==> id in regions
  {
    forall i, j :: 0 <= i < j < |ids| && !regions[ids[j]].IsMapping() ==>
      regions[ids[i]].End() <= regions[ids[j]].start
  }

  ghost predicate AddressOrder(k: Kernel)
    requires Listed(k)
  {
    forall p :: p in k.memory ==> OrderOk(k.regions, k.memory[p])
  }

  ghost predicate Layout(k: Kernel) {
    Listed(k) && RegionsOk(k) && AddressOrder(k)
  }

  // ---- preservation ----

  /** Steps that only touch scheduling, mail or usage, and possibly add to the process table. */
  ghost predicate SameMemory(k: Kernel, j: Kernel) {
    && j.regions == k.regions && j.memory == k.memory
    && k.nextPid <= j.nextPid && k.processes.Keys <= j.processes.Keys
  }

  lemma SameMemoryKeeps(k: Kernel, j: Kernel)
    requires Layout(k) && SameMemory(k, j)
    ensures Layout(j)
  {
    assert forall id :: id in k.regions ==> RegionOk(k, id, k.regions[id]);
  }

  lemma SendKeepsMemory(k: Kernel, m: Message)
    ensures SameMemory(k, Wake(Enqueue(k, m), m.target))
  {
  }

  lemma SchedulingStepsKeepMemory(k: Kernel, e: Event)
    requires e.Pass? || e.call.Wait? || e.call.Send? || e.call.Receive? || e.call.Unregistered?
    ensures SameMemory(k, Apply(k, e))
  {
    match e
    case Pass =>
    case Syscall(caller, Wait(_)) =>
    case Syscall(caller, Send(target, subject, kind, payload, uuid)) =>
      SendKeepsMemory(k, Message(uuid, kind, caller, target, subject, payload));
    case Syscall(caller, Receive(_)) =>
    case Syscall(caller, Unregistered(_)) =>
  }

  lemma ListOkGrows(regions: map<RegionId, Region>, p: Pid, ids: seq<RegionId>, id: RegionId, r: Region)
    requires ListOk(regions, p, ids) && id !in regions && r.owner == p
    ensures ListOk(regions[id := r], p, ids + [id])
  {
    AppendNoDup(ids, id);
  }

  lemma OrderOkGrows(regions: map<RegionId, Region>, p: Pid, ids: seq<RegionId>, id: RegionId, r: Region)
    requires ListOk(regions, p, ids) && OrderOk(regions, ids) && id !in regions && r.owner == p
    requires r.IsMapping() || forall x :: x in ids ==> regions[x].End() <= r.start
    ensures ListOk(regions[id := r], p, ids + [id]) && OrderOk(regions[id := r], ids + [id])
  {
    ListOkGrows(regions, p, ids, id, r);
    var regions', ids' := regions[id := r], ids + [id];
    forall i, j | 0 <= i < j < |ids'| && !regions'[ids'[j]].IsMapping()
      ensures regions'[ids'[i]].End() <= regions'[ids'[j]].start
    {
      assert ids[i] in ids;
      if j < |ids| { assert ids[j] in ids; }
    }
  }

  lemma AddKeepsLists(k: Kernel, p: Pid, id: RegionId, r: Region)
    requires Layout(k) && id !in k.regions && r.owner == p
    requires r.IsMapping() || forall x :: x in Get(k.memory, p) ==> k.regions[x].End() <= r.start
    ensures var j := AddToList(AddRegion(k, id, r), p, id); Listed(j) && AddressOrder(j)
  {
    var j := AddToList(AddRegion(k, id, r), p, id);
    OrderOkGrows(k.regions, p, Get(k.memory, p), id, r);
    forall q | q in j.memory
      ensures ListOk(j.regions, q, j.memory[q]) && OrderOk(j.regions, j.memory[q])
    {
      if q != p {
        assert ListOk(k.regions, q, k.memory[q]);
        assert OrderOk(k.regions, k.memory[q]);
      }
    }
  }

  /** A new region behind (or mapped over) the regions of its owner keeps the bookkeeping in order. */
  lemma AddKeepsMemory(k: Kernel, p: Pid, id: RegionId, r: Region)
    requires Layout(k) && id !in k.regions && id.Uuid? && r.owner == p && 0 < r.size
    requires r.IsCharged() ==> p in k.processes
    requires r.IsMapping() || forall x :: x in Get(k.memory, p) ==> k.regions[x].End() <= r.start
    ensures Layout(AddToList(AddRegion(k, id, r), p, id))
  {
    AddKeepsLists(k, p, id, r);
    var j := AddToList(AddRegion(k, id, r), p, id);
    forall x | x in j.regions
      ensures RegionOk(j, x, j.regions[x])
    {
      assert x in k.regions ==> RegionOk(k, x, k.regions[x]);
    }
  }

  lemma UsageKeepsMemory(k: Kernel, p: Pid, amount: int)
    requires Layout(k)
    ensures Layout(AddUsage(k, p, amount)) && Layout(SetUsage(k, p, amount))
  {
    SameMemoryKeeps(k, AddUsage(k, p, amount));
    SameMemoryKeeps(k, SetUsage(k, p, amount));
  }

  lemma OrderOkShrinks(regions: map<RegionId, Region>, ids: seq<RegionId>, id: RegionId)
    requires NoDup(ids) && (forall x :: x in ids ==> x in regions) && OrderOk(regions, ids)
    ensures (forall x :: x in Remove(ids, id) ==> x in ids)
    ensures OrderOk(regions, Remove(ids, id))
  {
    RemoveMembers(ids, id);
    if id in ids {
      var r := Remove(ids, id);
      forall i, j | 0 <= i < j < |r| && !regions[r[j]].IsMapping()
        ensures regions[r[i]].End() <= regions[r[j]].start
      {
        RemoveAt(ids, id, i);
        RemoveAt(ids, id, j);
      }
    }
  }

  lemma FreeKeepsLists(k: Kernel, p: Pid, id: RegionId)
    requires Layout(k) && id in k.regions && k.regions[id].owner == p
    ensures var j := Unlist(k, p, id).(regions := k.regions - {id}); Listed(j) && AddressOrder(j)
  {
    var j := Unlist(k, p, id).(regions := k.regions - {id});
    forall q | q in j.memory
      ensures ListOk(j.regions, q, j.memory[q]) && OrderOk(j.regions, j.memory[q])
    {
      assert ListOk(k.regions, q, k.memory[q]) && OrderOk(k.regions, k.memory[q]);
      if q == p {
        RemoveMembers(k.memory[p], id);
        OrderOkShrinks(k.regions, k.memory[p], id);
      }
    }
  }

  lemma FreeKeepsMemory(k: Kernel, p: Pid, id: RegionId)
    requires Layout(k) && id in k.regions && k.regions[id].owner == p
    ensures Layout(Unlist(k, p, id).(regions := k.regions - {id}))
  {
    FreeKeepsLists(k, p, id);
    var j := Unlist(k, p, id).(regions := k.regions - {id});
    forall x | x in j.regions
      ensures RegionOk(j, x, j.regions[x])
    {
      assert RegionOk(k, x, k.regions[x]);
      if p in k.memory {
        RemoveMembers(k.memory[p], id);
      }
    }
  }

  lemma FreeMemoryKeepsMemory(k: Kernel, p: Pid)
    requires Layout(k)
    ensures Layout(FreeMemory(k, p))
  {
    if p in k.memory {
      var gone := set id | id in k.memory[p];
      var j := k.(regions := k.regions - gone, memory := k.memory - {p});
      forall q | q in j.memory
        ensures ListOk(j.regions, q, j.memory[q]) && OrderOk(j.regions, j.memory[q])
      {
        assert ListOk(k.regions, q, k.memory[q]) && OrderOk(k.regions, k.memory[q]);
        assert ListOk(k.regions, p, k.memory[p]);
      }
      forall x | x in j.regions
        ensures RegionOk(j, x, j.regions[x])
      {
        assert RegionOk(k, x, k.regions[x]);
      }
      UsageKeepsMemory(j, p, 0);
    }
  }

  lemma SegmentsInOrder(k: Kernel, pid: Pid)
    ensures var regions, ids := k.regions + UserSegments(pid), [Code(pid), Data(pid), Stack(pid)];
      ListOk(regions, pid, ids) && OrderOk(regions, ids)
  {
  }

  lemma InitKeepsList(k: Kernel, j: Kernel, pid: Pid, q: Pid)
    requires Layout(k) && pid == k.nextPid && j.regions == k.regions + UserSegments(pid)
    requires q in k.memory && q != pid
    ensures ListOk(j.regions, q, k.memory[q]) && OrderOk(j.regions, k.memory[q])
  {
    assert ListOk(k.regions, q, k.memory[q]) && OrderOk(k.regions, k.memory[q]);
    NewSegmentsUnlisted(k, pid, q);
    assert forall id :: id in k.memory[q] ==> j.regions[id] == k.regions[id];
    forall x, y | 0 <= x < y < |k.memory[q]| && !j.regions[k.memory[q][y]].IsMapping()
      ensures j.regions[k.memory[q][x]].End() <= j.regions[k.memory[q][y]].start
    {
      assert k.memory[q][x] in k.memory[q] && k.memory[q][y] in k.memory[q];
    }
  }

  lemma InitKeepsRegion(k: Kernel, j: Kernel, pid: Pid, x: RegionId)
    requires Layout(k) && pid == k.nextPid && j.nextPid == pid + 1 && pid !in k.processes
    requires j.processes.Keys == k.processes.Keys + {pid} && j.regions == k.regions + UserSegments(pid)
    requires j.memory == k.memory[pid := [Code(pid), Data(pid), Stack(pid)]] && x in j.regions
    ensures RegionOk(j, x, j.regions[x])
  {
    if x !in UserSegments(pid) {
      assert RegionOk(k, x, k.regions[x]);
    }
  }

  lemma InitKeepsMemory(k: Kernel, j: Kernel, pid: Pid)
    requires Layout(k) && pid == k.nextPid && j.nextPid == pid + 1 && pid !in k.processes
    requires j.processes.Keys == k.processes.Keys + {pid} && j.regions == k.regions + UserSegments(pid)
    requires j.memory == k.memory[pid := [Code(pid), Data(pid), Stack(pid)]]
    ensures Layout(j)
  {
    SegmentsInOrder(k, pid);
    forall q | q in j.memory
      ensures ListOk(j.regions, q, j.memory[q]) && OrderOk(j.regions, j.memory[q])
    {
      if q != pid { InitKeepsList(k, j, pid, q); }
    }
    forall x | x in j.regions
      ensures RegionOk(j, x, j.regions[x])
    {
      InitKeepsRegion(k, j, pid, x);
    }
  }

  lemma NewSegmentsUnlisted(k: Kernel, pid: Pid, q: Pid)
    requires Layout(k) && pid == k.nextPid && q in k.memory
    ensures forall x :: x in k.memory[q] ==> x !in UserSegments(pid)
  {
    assert ListOk(k.regions, q, k.memory[q]);
    assert forall x :: x in k.regions ==> RegionOk(k, x, k.regions[x]);
  }

  lemma CreateKeepsMemory(k: Kernel, caller: Pid, name: string, priority: int, policy: int, r: Reply)
    requires Index(k) && Layout(k) && r == ProcessCreate(k, caller, name, priority, policy)
    ensures Layout(r.k)
  {
    CreateCases(k, caller, name, priority, policy);
    if r.out.Ok? {
      CreateEffect(k, caller, name, priority, policy);
      InitKeepsMemory(k, r.k, k.nextPid);
    } else {
      SameMemoryKeeps(k, r.k);
    }
  }

  lemma ExitKeepsMemory(k: Kernel, caller: Pid, exitCode: int, r: Reply)
    requires Layout(k) && r == ProcessExit(k, caller, exitCode)
    ensures Layout(r.k)
  {
    if caller in k.processes {
      var p := k.processes[caller].(state := Terminated, exitCode := Some(exitCode));
      var stopped := k.(processes := k.processes[caller := p], ready := Remove(k.ready, caller),
                        blocked := k.blocked - {caller});
      SameMemoryKeeps(k, stopped);
      FreeMemoryKeepsMemory(stopped, caller);
      SameMemoryKeeps(FreeMemory(stopped, caller), r.k);
    }
  }

  lemma AllocateKeepsMemory(k: Kernel, caller: Pid, size: int, permissions: int, uuid: nat)
    requires Layout(k) && Uuid(uuid) !in k.regions
    ensures Layout(MemoryAllocate(k, caller, size, permissions, uuid).k)
  {
    if MemoryAllocate(k, caller, size, permissions, uuid).out.Ok? {
      var id, start := Uuid(uuid), HighestEnd(k.regions, Get(k.memory, caller), USER_BASE);
      var r := Region(start, size, caller, Normal, permissions, Fresh);
      AddKeepsMemory(k, caller, id, r);
      UsageKeepsMemory(AddToList(AddRegion(k, id, r), caller, id), caller, size);
    }
  }

  lemma MapKeepsMemory(k: Kernel, caller: Pid, target: RegionId, address: int, permissions: int, uuid: nat)
    requires Layout(k) && Uuid(uuid) !in k.regions
    ensures Layout(MemoryMap(k, caller, target, address, permissions, uuid).k)
  {
    if MemoryMap(k, caller, target, address, permissions, uuid).out.Ok? {
      assert RegionOk(k, target, k.regions[target]);
      var start := if address > 0 then address else MAPPING_BASE;
      AddKeepsMemory(k, caller, Uuid(uuid),
                     Region(start, k.regions[target].size, caller, Shared, permissions, MappedFrom(target)));
    }
  }

  lemma StepKeepsMemory(k: Kernel, e: Event)
    requires Index(k) && Layout(k) && FreshId(k, e)
    ensures Layout(Apply(k, e))
  {
    if e.Syscall? {
      var caller := e.caller;
      match e.call {
        case Create(name, priority, policy) =>
          CreateKeepsMemory(k, caller, name, priority, policy, Invoke(k, caller, e.call));
        case Exit(code) => ExitKeepsMemory(k, caller, code, Invoke(k, caller, e.call));
        case Allocate(size, permissions, uuid) => AllocateKeepsMemory(k, caller, size, permissions, uuid);
        case Free(id) =>
          if id in k.regions && k.regions[id].owner == caller {
            FreeKeepsMemory(k, caller, id);
            UsageKeepsMemory(Unlist(k, caller, id).(regions := k.regions - {id}), caller, -k.regions[id].size);
          }
        case Map(id, address, permissions, uuid) => MapKeepsMemory(k, caller, id, address, permissions, uuid);
        case _ =>
          SchedulingStepsKeepMemory(k, e);
          SameMemoryKeeps(k, Apply(k, e));
      }
    } else {
      SchedulingStepsKeepMemory(k, e);
      SameMemoryKeeps(k, Apply(k, e));
    }
  }

  lemma BootMemory()
    ensures Layout(BOOT)
  {
    assert forall p :: p in BOOT.memory <==> p == 0;
    assert forall id :: id in BOOT.regions <==> id == KernelMain || id == SystemShared;
  }

  // ---- what the layout gives ----

  predicate Overlap(a: Region, b: Region) {
    a.start < b.End() && b.start < a.End()
  }

  /** Two regions of a process that share an address include a mapping, and it is the one made later. */
  lemma OverlapNeedsMapping(k: Kernel, p: Pid, i: nat, j: nat)
    requires Layout(k) && p in k.memory && i < j < |k.memory[p]|
    requires k.memory[p][i] in k.regions && k.memory[p][j] in k.regions
    ensures Overlap(k.regions[k.memory[p][i]], k.regions[k.memory[p][j]]) ==> k.regions[k.memory[p][j]].IsMapping()
  {
    assert OrderOk(k.regions, k.memory[p]);
  }

  /** The region lookup of the allocator never fails, and the space it picks is unused by its caller. */
  lemma AllocateFindsFreeSpace(k: Kernel, caller: Pid, size: int, permissions: int, uuid: nat)
    requires Layout(k)
    ensures var r := MemoryAllocate(k, caller, size, permissions, uuid);
      && (r.out.Ok? <==> caller in k.processes && 0 < size && IsPermission(permissions))
      && (r.out.Ok? ==>
            && r.out.value.Granted? && r.out.value.size == size && USER_BASE <= r.out.value.address
            && r.out.value.id in r.k.regions && r.k.regions[r.out.value.id].owner == caller
            && r.k.regions[r.out.value.id].start == r.out.value.address
            && forall id :: id in Get(k.memory, caller) ==>
                 id in k.regions && k.regions[id].End() <= r.out.value.address)
  {
    if caller in k.memory {
      assert ListOk(k.regions, caller, k.memory[caller]);
    }
  }

  // ---- get_memory_map ----

  function Live(regions: map<RegionId, Region>, ids: seq<RegionId>): (r: seq<RegionId>) {
    if ids == [] then []
    else
      var n := |ids| - 1;
      Live(regions, ids[..n]) + if ids[n] in regions then [ids[n]] else []
  }

  function StartOf(regions: map<RegionId, Region>): RegionId -> int {
    id => if id in regions then regions[id].start else 0
  }

  function MemoryMapOf(k: Kernel, p: Pid): seq<RegionId> {
    Sort(StartOf(k.regions), Live(k.regions, Get(k.memory, p)))
  }

  lemma {:induction false} AllLive(regions: map<RegionId, Region>, ids: seq<RegionId>)
    requires forall id :: id in ids ==> id in regions
    ensures Live(regions, ids) == ids
  {
    if ids != [] {
      var n := |ids| - 1;
      assert ids == ids[..n] + [ids[n]];
      AllLive(regions, ids[..n]);
    }
  }

  /** The reported map is the stable sort by address of everything the process has listed. */
  lemma MemoryMapIsStableSort(k: Kernel, p: Pid)
    requires Layout(k)
    ensures IsStableSort(StartOf(k.regions), Get(k.memory, p), MemoryMapOf(k, p))
  {
    if p in k.memory {
      assert ListOk(k.regions, p, k.memory[p]);
    }
    AllLive(k.regions, Get(k.memory, p));
    SortIsStable(StartOf(k.regions), Get(k.memory, p));
  }

  /** A process without mappings sees its regions in the order it created them. */
  /** Said in terms of the regions: the reported map has the ids of the list, by rising start address. */
  lemma ReportedByAddress(k: Kernel, p: Pid)
    requires Layout(k)
    ensures var m := MemoryMapOf(k, p);
      && (forall id :: id in m <==> id in Get(k.memory, p))
      && (forall id :: id in m ==> id in k.regions)
      && forall i, j :: 0 <= i < j < |m| && m[i] in k.regions && m[j] in k.regions ==>
           k.regions[m[i]].start <= k.regions[m[j]].start
  {
    MemoryMapIsStableSort(k, p);
    var m, ids := MemoryMapOf(k, p), Get(k.memory, p);
    if p in k.memory { assert ListOk(k.regions, p, ids); }
    forall id
      ensures id in m <==> id in ids
    {
      SameMembers(StartOf(k.regions), m, ids, id);
    }
    forall i, j | 0 <= i < j < |m| && m[i] in k.regions && m[j] in k.regions
      ensures k.regions[m[i]].start <= k.regions[m[j]].start
    {
      assert StartOf(k.regions)(m[i]) <= StartOf(k.regions)(m[j]);
    }
  }

  lemma CreationOrder(k: Kernel, p: Pid)
    requires Layout(k)
    requires forall id :: id in Get(k.memory, p) && id in k.regions ==> !k.regions[id].IsMapping()
    ensures MemoryMapOf(k, p) == Get(k.memory, p)
  {
    var ids := Get(k.memory, p);
    if p in k.memory {
      assert ListOk(k.regions, p, ids) && OrderOk(k.regions, ids);
      forall i, j | 0 <= i < j < |ids|
        ensures StartOf(k.regions)(ids[i]) <= StartOf(k.regions)(ids[j])
      {
        assert ids[i] in ids && ids[j] in ids;
        assert RegionOk(k, ids[i], k.regions[ids[i]]);
      }
    }
    AllLive(k.regions, ids);
    SortOfAscending(StartOf(k.regions), ids);
  }

  // ---- ownership ----

  /** Every live region is listed by its owner. With Listed: each region occurs exactly once in all lists together. */
  ghost predicate Owned(k: Kernel) {
    forall id :: id in k.regions ==> id in Get(k.memory, k.regions[id].owner)
  }

  /** The pid a create is about to hand out already has mapped memory. */
  predicate OrphansMappings(k: Kernel, e: Event) {
    e.Syscall? && Acceptable(e.call) && Get(k.memory, k.nextPid) != []
  }

  lemma InitOwned(k: Kernel, j: Kernel, pid: Pid)
    requires Layout(k) && Owned(k) && pid == k.nextPid
    requires j.regions == k.regions + UserSegments(pid)
    requires j.memory == k.memory[pid := [Code(pid), Data(pid), Stack(pid)]]
    ensures Owned(j) <==> Get(k.memory, pid) == []
  {
    if Get(k.memory, pid) != [] {
      var id := k.memory[pid][0];
      assert ListOk(k.regions, pid, k.memory[pid]);
      NewSegmentsUnlisted(k, pid, pid);
      assert id in j.regions && j.regions[id].owner == pid && id !in Get(j.memory, pid);
    } else {
      forall id | id in j.regions
        ensures id in Get(j.memory, j.regions[id].owner)
      {
        if id !in UserSegments(pid) {
          assert id in Get(k.memory, k.regions[id].owner);
        }
      }
    }
  }

  lemma ExitOwned(k: Kernel, caller: Pid, exitCode: int)
    requires Layout(k) && Owned(k)
    ensures Owned(ProcessExit(k, caller, exitCode).k)
  {
    var j := ProcessExit(k, caller, exitCode).k;
    if caller in k.processes && caller in k.memory {
      assert ListOk(k.regions, caller, k.memory[caller]);
      assert j.regions == k.regions - set id | id in k.memory[caller];
      assert j.memory == k.memory - {caller};
      forall id | id in j.regions
        ensures id in Get(j.memory, j.regions[id].owner)
      {
        assert id in Get(k.memory, k.regions[id].owner);
      }
    }
  }

  lemma FreeOwned(k: Kernel, caller: Pid, id: RegionId)
    requires Layout(k) && Owned(k)
    ensures Owned(MemoryFree(k, caller, id).k)
  {
    var j := MemoryFree(k, caller, id).k;
    if MemoryFree(k, caller, id).out.Ok? && caller in k.memory {
      assert ListOk(k.regions, caller, k.memory[caller]);
      RemoveMembers(k.memory[caller], id);
      forall x | x in j.regions
        ensures x in Get(j.memory, j.regions[x].owner)
      {
        assert x in Get(k.memory, k.regions[x].owner);
      }
    }
  }

  lemma AddOwned(k: Kernel, p: Pid, id: RegionId, r: Region)
    requires Owned(k) && id !in k.regions && r.owner == p
    ensures Owned(AddToList(AddRegion(k, id, r), p, id))
  {
    var j := AddToList(AddRegion(k, id, r), p, id);
    forall x | x in j.regions
      ensures x in Get(j.memory, j.regions[x].owner)
    {
      if x == id {
        assert j.memory[p][|Get(k.memory, p)|] == id;
      } else {
        assert x in Get(k.memory, k.regions[x].owner);
      }
    }
  }

  /** Ownership survives a step if and only if the step is not a create for a pid that already has mappings. */
  lemma StepKeepsOwned(k: Kernel, e: Event)
    requires Index(k) && Layout(k) && FreshId(k, e) && Owned(k)
    ensures Owned(Apply(k, e)) <==> !OrphansMappings(k, e)
  {
    if e.Syscall? {
      var caller, r := e.caller, Invoke(k, e.caller, e.call);
      match e.call {
        case Create(name, priority, policy) =>
          CreateCases(k, caller, name, priority, policy);
          PolicyRange(k, caller, e.call);
          if r.out.Ok? {
            CreateEffect(k, caller, name, priority, policy);
            InitOwned(k, r.k, k.nextPid);
          }
        case Exit(code) => ExitOwned(k, caller, code);
        case Allocate(size, permissions, uuid) =>
          if r.out.Ok? {
            var start := HighestEnd(k.regions, Get(k.memory, caller), USER_BASE);
            AddOwned(k, caller, Uuid(uuid), Region(start, size, caller, Normal, permissions, Fresh));
          }
        case Free(id) => FreeOwned(k, caller, id);
        case Map(target, address, permissions, uuid) =>
          if r.out.Ok? {
            var start := if address > 0 then address else MAPPING_BASE;
            AddOwned(k, caller, Uuid(uuid),
                     Region(start, k.regions[target].size, caller, Shared, permissions, MappedFrom(target)));
          }
        case _ => SchedulingStepsKeepMemory(k, e);
      }
    } else {
      SchedulingStepsKeepMemory(k, e);
    }
  }

  /** A process id from the future can map the shared region; creating that process then loses the mapping. */
  lemma OrphanExample()
    ensures var es := [Syscall(1000, Map(SystemShared, 0, 1, 0)), Syscall(0, Create("p", 20, 1))];
      FreshIds(BOOT, es) && !Owned(Run(BOOT, es))
  {
    OrphanedMapping();
    var e1, e2 := Syscall(1000, Map(SystemShared, 0, 1, 0)), Syscall(0, Create("p", 20, 1));
    TwoSteps(BOOT, e1, e2);
    var k2 := Apply(Apply(BOOT, e1), e2);
    assert Uuid(0) in k2.regions && Uuid(0) !in Get(k2.memory, 1000);
  }

  lemma TwoSteps(k: Kernel, a: Event, b: Event)
    ensures Run(k, [a, b]) == Apply(Apply(k, a), b)
    ensures FreshIds(k, [a, b]) <==> FreshId(k, a) && FreshId(Apply(k, a), b)
  {
    assert [a, b][1..] == [b] && [b][1..] == [];
    var k1 := Apply(k, a);
    assert Run(k1, [b]) == Run(Apply(k1, b), []) == Apply(k1, b);
    assert FreshIds(k1, [b]) <==> FreshId(k1, b) && FreshIds(Apply(k1, b), []);
    assert Run(k, [a, b]) == Run(k1, [b]);
  }

  lemma OrphanedMapping()
    ensures var k := Apply(Apply(BOOT, Syscall(1000, Map(SystemShared, 0, 1, 0))), Syscall(0, Create("p", 20, 1)));
      && 1000 in k.processes && k.processes[1000].usage == 7 * MIB
      && Get(k.memory, 1000) == [Code(1000), Data(1000), Stack(1000)]
      && Uuid(0) in k.regions && k.regions[Uuid(0)].owner == 1000 && k.regions[Uuid(0)].size == 32 * MIB
  {
  }

  /** Every region id occurs in exactly one list, once, and that is the list of its owner. */
  ghost predicate OneToOne(k: Kernel) {
    Listed(k) && forall id, p :: id in Get(k.memory, p) <==> id in k.regions && k.regions[id].owner == p
  }

  lemma OwnedIsOneToOne(k: Kernel)
    requires Listed(k)
    ensures Owned(k) <==> OneToOne(k)
  {
    if Owned(k) {
      forall id, p
        ensures id in Get(k.memory, p) <==> id in k.regions && k.regions[id].owner == p
      {
        if p in k.memory { assert ListOk(k.regions, p, k.memory[p]); }
        assert id in k.regions ==> id in Get(k.memory, k.regions[id].owner);
      }
    }
  }

  ghost predicate AlwaysOneToOne(k: Kernel, es: seq<Event>)
    decreases |es|
  {
    OneToOne(k) && (es != [] ==> AlwaysOneToOne(Apply(k, es[0]), es[1..]))
  }

  predicate NeverOrphans(k: Kernel, es: seq<Event>)
    decreases |es|
  {
    es == [] || (!OrphansMappings(k, es[0]) && NeverOrphans(Apply(k, es[0]), es[1..]))
  }

  /** Regions and lists match one to one in every state of a run if and only if no step of it orphans mappings. */
  lemma {:induction false} OwnershipOverRuns(k: Kernel, es: seq<Event>)
    requires Index(k) && Layout(k) && Owned(k) && FreshIds(k, es)
    ensures AlwaysOneToOne(k, es) <==> NeverOrphans(k, es)
    ensures NeverOrphans(k, es) ==> OneToOne(Run(k, es))
    decreases |es|
  {
    OwnedIsOneToOne(k);
    if es != [] {
      var j := Apply(k, es[0]);
      StepKeepsIndex(k, es[0]);
      StepKeepsMemory(k, es[0]);
      StepKeepsOwned(k, es[0]);
      OwnedIsOneToOne(j);
      if Owned(j) { OwnershipOverRuns(j, es[1..]); }
    }
  }

  // ---- ownership over runs whose map callers are existing or reserved pids ----

  predicate KnownMapCaller(k: Kernel, e: Event) {
    e.Syscall? && e.call.Map? ==> e.caller < k.nextPid
  }

  ghost predicate Tidy(k: Kernel) {
    Owned(k) && forall p :: p in k.memory ==> p < k.nextPid
  }

  lemma StepKeepsTidy(k: Kernel, e: Event)
    requires Index(k) && Layout(k) && FreshId(k, e) && Tidy(k) && KnownMapCaller(k, e)
    ensures Tidy(Apply(k, e))
  {
    StepKeepsOwned(k, e);
    ListsBelowNextPid(k, e);
  }

  /** Only create, allocate and map start a new list. */
  lemma NewLists(k: Kernel, e: Event)
    requires e.Syscall? ==> !e.call.Create?
    ensures Apply(k, e).nextPid == k.nextPid
    ensures forall p :: p in Apply(k, e).memory ==>
      p in k.memory || (e.Syscall? && p == e.caller && (e.call.Map? || p in k.processes))
  {
    if e.Syscall? {
      match e.call {
        case Exit(_) =>
        case Allocate(_, _, _) =>
        case Free(_) =>
        case Map(_, _, _, _) =>
        case _ => SchedulingStepsKeepMemory(k, e);
      }
    }
  }

  lemma ListsBelowNextPid(k: Kernel, e: Event)
    requires Index(k) && KnownMapCaller(k, e) && forall p :: p in k.memory ==> p < k.nextPid
    ensures var j := Apply(k, e); forall p :: p in j.memory ==> p < j.nextPid
  {
    if e.Syscall? && e.call.Create? {
      var r := Invoke(k, e.caller, e.call);
      CreateCases(k, e.caller, e.call.name, e.call.priority, e.call.policy);
      if r.out.Ok? {
        CreateEffect(k, e.caller, e.call.name, e.call.priority, e.call.policy);
      }
    } else {
      NewLists(k, e);
      assert forall p :: p in k.processes ==> ProcOk(p, k.processes[p], k.nextPid);
    }
  }

  /**
    An exit removes exactly the regions listed for the exiting process; these are exactly the regions it owns if and
    only if none of them has been orphaned.
   */
  lemma ExitRemovesExactlyOwn(k: Kernel, caller: Pid, exitCode: int)
    requires Layout(k) && caller in k.processes
    ensures var j := ProcessExit(k, caller, exitCode).k;
      && (forall id :: id in j.regions <==> id in k.regions && id !in Get(k.memory, caller))
      && (forall id :: id in j.regions ==> j.regions[id] == k.regions[id])
      && caller !in j.memory
      && ((forall id :: id in j.regions <==> id in k.regions && k.regions[id].owner != caller) <==>
          (forall id :: id in k.regions && k.regions[id].owner == caller ==> id in Get(k.memory, caller)))
  {
    var j := ProcessExit(k, caller, exitCode).k;
    if caller in k.memory {
      assert ListOk(k.regions, caller, k.memory[caller]);
      assert j.regions == k.regions - set id | id in k.memory[caller];
    } else {
      assert j.regions == k.regions;
    }
  }
}
