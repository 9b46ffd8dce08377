/**
  The kernel together with a record of what happened: refunds, and messages sent and received.
  The record never influences the kernel; it states the accounting law and the delivery law over whole runs.
 */
module KernelHistory {
  import opened Lists
  import opened KernelModel
  import opened KernelIndex
  import opened KernelMemory

  /**
    refunded: bytes of uncharged regions (mappings, boot regions) a process freed since its memory was last released;
    freed: the same since its last exit; sent, received: messages for a process since its last exit.
   */
  datatype World = World(k: Kernel, refunded: map<Pid, int>, freed: map<Pid, int>,
                         sent: map<Pid, seq<Message>>, received: map<Pid, seq<Message>>)

  const START := World(BOOT, map[], map[], map[], map[])

  function Tally(m: map<Pid, int>, p: Pid): int {
    if p in m then m[p] else 0
  }

  predicate Succeeds(k: Kernel, e: Event) {
    e.Syscall? && Invoke(k, e.caller, e.call).out.Ok?
  }

  /** A known process frees a region it was never charged for. */
  predicate Refunds(k: Kernel, p: Pid, id: RegionId) {
    p in k.processes && id in k.regions && !k.regions[id].IsCharged()
  }

  function RefundedAfter(w: World, e: Event): map<Pid, int> {
    if !Succeeds(w.k, e) then w.refunded
    else
      match e.call
      case Exit(_) => if e.caller in w.k.memory then w.refunded[e.caller := 0] else w.refunded
      case Free(id) =>
        if !Refunds(w.k, e.caller, id) then w.refunded
        else w.refunded[e.caller := Tally(w.refunded, e.caller) + w.k.regions[id].size]
      case _ => w.refunded
  }

  function FreedAfter(w: World, e: Event): map<Pid, int> {
    if !Succeeds(w.k, e) then w.freed
    else
      match e.call
      case Exit(_) => w.freed[e.caller := 0]
      case Free(id) =>
        if !Refunds(w.k, e.caller, id) then w.freed
        else w.freed[e.caller := Tally(w.freed, e.caller) + w.k.regions[id].size]
      case _ => w.freed
  }

  function SentAfter(w: World, e: Event): map<Pid, seq<Message>> {
    if !Succeeds(w.k, e) then w.sent
    else
      match e.call
      case Exit(_) => w.sent[e.caller := []]
      case Send(target, subject, kind, payload, uuid) =>
        w.sent[target := Get(w.sent, target) + [Message(uuid, kind, e.caller, target, subject, payload)]]
      case _ => w.sent
  }

  function ReceivedAfter(w: World, e: Event): map<Pid, seq<Message>> {
    if !Succeeds(w.k, e) then w.received
    else
      match e.call
      case Exit(_) => w.received[e.caller := []]
      case Receive(_) =>
        var value := Invoke(w.k, e.caller, e.call).out.value;
        if value.Delivered? then w.received[e.caller := Get(w.received, e.caller) + [value.message]] else w.received
      case _ => w.received
  }

  function Observe(w: World, e: Event): World {
    World(Apply(w.k, e), RefundedAfter(w, e), FreedAfter(w, e), SentAfter(w, e), ReceivedAfter(w, e))
  }

  function Record(w: World, es: seq<Event>): World
    decreases |es|
  {
    if es == [] then w else Record(Observe(w, es[0]), es[1..])
  }

  // ---- accounting ----

  function ChargeOf(regions: map<RegionId, Region>, id: RegionId): int {
    if id in regions && regions[id].IsCharged() then regions[id].size else 0
  }

  /** Total size of the charged regions in a list. */
  function Charged(regions: map<RegionId, Region>, ids: seq<RegionId>): int {
    if ids == [] then 0 else Charged(regions, ids[..|ids| - 1]) + ChargeOf(regions, ids[|ids| - 1])
  }

  ghost predicate AccountOk(w: World, p: Pid)
    requires p in w.k.processes
  {
    && w.k.processes[p].usage == Charged(w.k.regions, Get(w.k.memory, p)) - Tally(w.refunded, p)
    && 0 <= Tally(w.refunded, p)
  }

  ghost predicate Accounts(w: World) {
    && w.refunded.Keys <= w.k.processes.Keys
    && forall p :: p in w.k.processes ==> AccountOk(w, p)
  }

  lemma {:induction false} ChargedConcat(regions: map<RegionId, Region>, a: seq<RegionId>, b: seq<RegionId>)
    ensures Charged(regions, a + b) == Charged(regions, a) + Charged(regions, b)
  {
    if b == [] {
      assert a + b == a;
    } else {
      var n := |b| - 1;
      assert (a + b)[..|a| + n] == a + b[..n];
      ChargedConcat(regions, a, b[..n]);
    }
  }

  lemma ChargedRemove(regions: map<RegionId, Region>, ids: seq<RegionId>, id: RegionId)
    requires id in ids
    ensures Charged(regions, Remove(ids, id)) == Charged(regions, ids) - ChargeOf(regions, id)
  {
    var i := IndexOf(ids, id);
    assert ids == ids[..i] + [id] + ids[i + 1..];
    ChargedConcat(regions, ids[..i] + [id], ids[i + 1..]);
    ChargedConcat(regions, ids[..i], [id]);
    ChargedConcat(regions, ids[..i], ids[i + 1..]);
  }

  lemma {:induction false} ChargedFrame(regions: map<RegionId, Region>, regions': map<RegionId, Region>,
                                       ids: seq<RegionId>)
    requires forall id :: id in ids ==> id in regions && id in regions' && regions[id] == regions'[id]
    ensures Charged(regions, ids) == Charged(regions', ids)
  {
    if ids != [] {
      var n := |ids| - 1;
      assert ids == ids[..n] + [ids[n]];
      ChargedFrame(regions, regions', ids[..n]);
    }
  }

  /** The usage, the list and the listed regions of `p` are as before. */
  ghost predicate KeepsMemoryOf(k: Kernel, j: Kernel, p: Pid)
    requires p in k.processes
  {
    && p in j.processes && j.processes[p].usage == k.processes[p].usage
    && Get(j.memory, p) == Get(k.memory, p)
    && forall id :: id in Get(k.memory, p) ==> id in k.regions && id in j.regions && j.regions[id] == k.regions[id]
  }

  lemma ExitKeepsOthers(k: Kernel, caller: Pid, exitCode: int, p: Pid)
    requires Layout(k) && p in k.processes && p != caller
    ensures KeepsMemoryOf(k, ProcessExit(k, caller, exitCode).k, p)
  {
    if p in k.memory { assert ListOk(k.regions, p, k.memory[p]); }
    if caller in k.processes && caller in k.memory {
      assert ListOk(k.regions, caller, k.memory[caller]);
      assert ProcessExit(k, caller, exitCode).k.regions == k.regions - set id | id in k.memory[caller];
    }
  }

  lemma CreateKeepsOthers(k: Kernel, caller: Pid, name: string, priority: int, policy: int, p: Pid)
    requires Layout(k) && p in k.processes && p < k.nextPid
    ensures KeepsMemoryOf(k, ProcessCreate(k, caller, name, priority, policy).k, p)
  {
    var r := ProcessCreate(k, caller, name, priority, policy);
    CreateCases(k, caller, name, priority, policy);
    if p in k.memory {
      assert ListOk(k.regions, p, k.memory[p]);
      NewSegmentsUnlisted(k, k.nextPid, p);
    }
    if r.out.Ok? {
      CreateEffect(k, caller, name, priority, policy);
    }
  }

  lemma AllocateKeepsOthers(k: Kernel, caller: Pid, size: int, permissions: int, uuid: nat, p: Pid)
    requires Layout(k) && p in k.processes && p != caller && Uuid(uuid) !in k.regions
    ensures KeepsMemoryOf(k, MemoryAllocate(k, caller, size, permissions, uuid).k, p)
  {
    if p in k.memory { assert ListOk(k.regions, p, k.memory[p]); }
  }

  lemma MapKeepsOthers(k: Kernel, caller: Pid, id: RegionId, address: int, permissions: int, uuid: nat, p: Pid)
    requires Layout(k) && p in k.processes && p != caller && Uuid(uuid) !in k.regions
    ensures KeepsMemoryOf(k, MemoryMap(k, caller, id, address, permissions, uuid).k, p)
  {
    if p in k.memory { assert ListOk(k.regions, p, k.memory[p]); }
  }

  lemma FreeKeepsOthers(k: Kernel, caller: Pid, id: RegionId, p: Pid)
    requires Layout(k) && p in k.processes && p != caller
    ensures KeepsMemoryOf(k, MemoryFree(k, caller, id).k, p)
  {
    if p in k.memory { assert ListOk(k.regions, p, k.memory[p]); }
  }

  lemma SchedulingKeepsMemoryOf(k: Kernel, e: Event, p: Pid)
    requires Layout(k) && p in k.processes
    requires e.Pass? || e.call.Wait? || e.call.Send? || e.call.Receive? || e.call.Unregistered?
    ensures KeepsMemoryOf(k, Apply(k, e), p)
  {
    SchedulingStepsKeepMemory(k, e);
    if p in k.memory { assert ListOk(k.regions, p, k.memory[p]); }
  }

  /** No step by somebody else, and no pass, touches the memory or the usage of `p`. */
  lemma OthersMemory(k: Kernel, e: Event, p: Pid)
    requires Index(k) && Layout(k) && FreshId(k, e) && p in k.processes
    requires e.Syscall? ==> e.caller != p
    ensures KeepsMemoryOf(k, Apply(k, e), p)
  {
    match e
    case Pass => SchedulingKeepsMemoryOf(k, e, p);
    case Syscall(caller, Create(name, priority, policy)) =>
      assert ProcOk(p, k.processes[p], k.nextPid);
      CreateKeepsOthers(k, caller, name, priority, policy, p);
    case Syscall(caller, Exit(code)) => ExitKeepsOthers(k, caller, code, p);
    case Syscall(caller, Allocate(size, permissions, uuid)) =>
      AllocateKeepsOthers(k, caller, size, permissions, uuid, p);
    case Syscall(caller, Free(id)) => FreeKeepsOthers(k, caller, id, p);
    case Syscall(caller, Map(id, address, permissions, uuid)) =>
      MapKeepsOthers(k, caller, id, address, permissions, uuid, p);
    case _ => SchedulingKeepsMemoryOf(k, e, p);
  }

  lemma OthersAccount(w: World, e: Event, p: Pid)
    requires Index(w.k) && Layout(w.k) && FreshId(w.k, e) && p in w.k.processes && AccountOk(w, p)
    requires e.Syscall? ==> e.caller != p
    ensures p in Observe(w, e).k.processes && AccountOk(Observe(w, e), p)
  {
    OthersMemory(w.k, e, p);
    ChargedFrame(w.k.regions, Apply(w.k, e).regions, Get(w.k.memory, p));
    ObserveFollows(w, e);
  }

  /** The record follows the kernel, and only the caller's refund entry can change. */
  lemma ObserveFollows(w: World, e: Event)
    ensures Observe(w, e).k == Apply(w.k, e)
    ensures e.Pass? || (!e.call.Exit? && !e.call.Free?) || Invoke(w.k, e.caller, e.call).out.Err? ==>
      Observe(w, e).refunded == w.refunded
    ensures forall p :: (e.Syscall? && e.caller == p) || Tally(Observe(w, e).refunded, p) == Tally(w.refunded, p)
    ensures Observe(w, e).refunded.Keys <= w.refunded.Keys + (if e.Syscall? then {e.caller} else {})
  {
  }

  lemma NewcomerAccount(w: World, caller: Pid, call: Call)
    requires Index(w.k) && Accounts(w) && call.Create? && Invoke(w.k, caller, call).out.Ok?
    ensures var v := Observe(w, Syscall(caller, call)); w.k.nextPid in v.k.processes && AccountOk(v, w.k.nextPid)
  {
    var pid, j := w.k.nextPid, Invoke(w.k, caller, call).k;
    CreateEffect(w.k, caller, call.name, call.priority, call.policy);
    SegmentsCharge(j.regions, pid);
    ObserveFollows(w, Syscall(caller, call));
    assert pid !in w.k.processes by {
      assert forall p :: p in w.k.processes ==> ProcOk(p, w.k.processes[p], w.k.nextPid);
    }
  }

  lemma SegmentsCharge(regions: map<RegionId, Region>, pid: Pid)
    requires forall id :: id in UserSegments(pid) ==> id in regions && regions[id] == UserSegments(pid)[id]
    ensures Charged(regions, [Code(pid), Data(pid), Stack(pid)]) == 7 * MIB
  {
    assert [Code(pid), Data(pid), Stack(pid)] == [Code(pid)] + [Data(pid)] + [Stack(pid)];
    ChargedConcat(regions, [Code(pid)] + [Data(pid)], [Stack(pid)]);
    ChargedConcat(regions, [Code(pid)], [Data(pid)]);
  }

  /** Listing one more region, fresh in the table, adds its charge. */
  lemma ChargedGrows(k: Kernel, p: Pid, id: RegionId, r: Region)
    requires Layout(k) && id !in k.regions
    ensures Charged(k.regions[id := r], Get(k.memory, p) + [id])
         == Charged(k.regions, Get(k.memory, p)) + if r.IsCharged() then r.size else 0
  {
    var ids := Get(k.memory, p);
    if p in k.memory { assert ListOk(k.regions, p, ids); }
    ChargedFrame(k.regions, k.regions[id := r], ids);
    assert (ids + [id])[..|ids|] == ids;
  }

  /** A charge is added together with the region it pays for. */
  lemma AllocateAccount(w: World, p: Pid, call: Call)
    requires Layout(w.k) && p in w.k.processes && AccountOk(w, p)
    requires call.Allocate? && FreshId(w.k, Syscall(p, call)) && Invoke(w.k, p, call).out.Ok?
    ensures AccountOk(Observe(w, Syscall(p, call)), p)
  {
    var start := HighestEnd(w.k.regions, Get(w.k.memory, p), USER_BASE);
    ChargedGrows(w.k, p, Uuid(call.uuid), Region(start, call.size, p, Normal, call.permissions, Fresh));
    ObserveFollows(w, Syscall(p, call));
  }

  /** A mapping is listed but not paid for. */
  lemma MapAccount(w: World, p: Pid, call: Call)
    requires Layout(w.k) && p in w.k.processes && AccountOk(w, p)
    requires call.Map? && FreshId(w.k, Syscall(p, call)) && Invoke(w.k, p, call).out.Ok?
    ensures AccountOk(Observe(w, Syscall(p, call)), p)
  {
    var start := if call.address > 0 then call.address else MAPPING_BASE;
    ChargedGrows(w.k, p, Uuid(call.uuid),
                 Region(start, w.k.regions[call.region].size, p, Shared, call.permissions, MappedFrom(call.region)));
    ObserveFollows(w, Syscall(p, call));
  }

  lemma FreeEffect(k: Kernel, p: Pid, id: RegionId)
    requires p in k.processes && MemoryFree(k, p, id).out.Ok?
    ensures var j := MemoryFree(k, p, id).k;
      && Get(j.memory, p) == Remove(Get(k.memory, p), id) && j.regions == k.regions - {id}
      && p in j.processes && j.processes[p].usage == k.processes[p].usage - k.regions[id].size
  {
  }

  /** A region that is not listed carries no charge, so removing one always takes its charge out of the list. */
  lemma FreeCharge(k: Kernel, p: Pid, id: RegionId)
    requires Layout(k) && id in k.regions && k.regions[id].owner == p
    ensures Charged(k.regions - {id}, Remove(Get(k.memory, p), id)) ==
            Charged(k.regions, Get(k.memory, p)) - ChargeOf(k.regions, id)
  {
    var ids := Get(k.memory, p);
    assert RegionOk(k, id, k.regions[id]);
    if id in ids {
      ChargedRemove(k.regions, ids, id);
    }
    if p in k.memory {
      assert ListOk(k.regions, p, ids);
      RemoveMembers(ids, id);
    }
    ChargedFrame(k.regions, k.regions - {id}, Remove(ids, id));
  }

  /** Freeing a charged region settles its charge; freeing any other region leaves a refund behind. */
  lemma FreeAccount(w: World, p: Pid, id: RegionId)
    requires Layout(w.k) && p in w.k.processes && AccountOk(w, p)
    requires MemoryFree(w.k, p, id).out.Ok?
    ensures AccountOk(Observe(w, Syscall(p, Free(id))), p)
  {
    FreeEffect(w.k, p, id);
    FreeCharge(w.k, p, id);
    assert RegionOk(w.k, id, w.k.regions[id]);
  }

  lemma ExitAccount(w: World, p: Pid, exitCode: int)
    requires p in w.k.processes && AccountOk(w, p)
    ensures var v := Observe(w, Syscall(p, Exit(exitCode))); p in v.k.processes && AccountOk(v, p)
  {
  }

  lemma CreatorAccount(w: World, p: Pid, call: Call)
    requires Index(w.k) && Layout(w.k) && p in w.k.processes && AccountOk(w, p) && call.Create?
    ensures var v := Observe(w, Syscall(p, call)); p in v.k.processes && AccountOk(v, p)
  {
    assert ProcOk(p, w.k.processes[p], w.k.nextPid);
    CreateKeepsOthers(w.k, p, call.name, call.priority, call.policy, p);
    ChargedFrame(w.k.regions, Invoke(w.k, p, call).k.regions, Get(w.k.memory, p));
    ObserveFollows(w, Syscall(p, call));
  }

  lemma QuietAccount(w: World, p: Pid, call: Call)
    requires Layout(w.k) && p in w.k.processes && AccountOk(w, p)
    requires call.Wait? || call.Send? || call.Receive? || call.Unregistered?
    ensures var v := Observe(w, Syscall(p, call)); p in v.k.processes && AccountOk(v, p)
  {
    SchedulingKeepsMemoryOf(w.k, Syscall(p, call), p);
    SchedulingStepsKeepMemory(w.k, Syscall(p, call));
    ObserveFollows(w, Syscall(p, call));
  }

  lemma CallerAccount(w: World, p: Pid, call: Call)
    requires Index(w.k) && Layout(w.k) && FreshId(w.k, Syscall(p, call)) && p in w.k.processes && AccountOk(w, p)
    ensures var v := Observe(w, Syscall(p, call)); p in v.k.processes && AccountOk(v, p)
  {
    if Invoke(w.k, p, call).out.Err? {
      FailureAtomicity(w.k, p, call);
      ObserveFollows(w, Syscall(p, call));
    } else if call.Create? {
      CreatorAccount(w, p, call);
    } else if call.Exit? {
      ExitAccount(w, p, call.exitCode);
    } else if call.Allocate? {
      AllocateAccount(w, p, call);
    } else if call.Free? {
      FreeAccount(w, p, call.region);
    } else if call.Map? {
      MapAccount(w, p, call);
    } else {
      QuietAccount(w, p, call);
    }
  }

  /** Only a create adds to the process table, and nothing is ever removed from it. */
  lemma TableGrows(k: Kernel, e: Event)
    ensures k.processes.Keys <= Apply(k, e).processes.Keys
    ensures forall p :: p in Apply(k, e).processes && p !in k.processes ==>
      p == k.nextPid && e.Syscall? && e.call.Create? && Invoke(k, e.caller, e.call).out.Ok?
  {
    match e
    case Pass =>
    case Syscall(caller, Create(name, priority, policy)) =>
      CreateCases(k, caller, name, priority, policy);
      if Invoke(k, caller, e.call).out.Ok? {
        CreateEffect(k, caller, name, priority, policy);
      }
    case Syscall(caller, call) => OtherCallsKeepTable(k, caller, call);
  }

  lemma OtherCallsKeepTable(k: Kernel, caller: Pid, call: Call)
    requires !call.Create?
    ensures Invoke(k, caller, call).k.processes.Keys == k.processes.Keys
  {
    match call
    case Exit(_) =>
    case Wait(_) =>
    case Send(_, _, _, _, _) =>
    case Receive(_) =>
    case Unregistered(_) =>
    case _ => MemoryCallsKeepScheduling(k, caller, call);
  }

  lemma RefundsKnown(w: World, e: Event)
    requires Accounts(w)
    ensures Observe(w, e).refunded.Keys <= w.k.processes.Keys
  {
  }

  lemma StepKeepsAccounts(w: World, e: Event)
    requires Index(w.k) && Layout(w.k) && FreshId(w.k, e) && Accounts(w)
    ensures Accounts(Observe(w, e))
  {
    var v := Observe(w, e);
    TableGrows(w.k, e);
    ObserveFollows(w, e);
    RefundsKnown(w, e);
    forall p | p in v.k.processes
      ensures AccountOk(v, p)
    {
      if p !in w.k.processes {
        NewcomerAccount(w, e.caller, e.call);
      } else if e.Syscall? && e.caller == p {
        CallerAccount(w, p, e.call);
      } else {
        OthersAccount(w, e, p);
      }
    }
  }

  // ---- delivery ----

  /** Messages for `p` since its last exit: those received, in order, followed by those still waiting. */
  ghost predicate Letters(w: World) {
    forall p :: LettersOf(w, p)
  }

  lemma StepKeepsLetters(w: World, e: Event)
    requires Index(w.k) && Letters(w)
    ensures Letters(Observe(w, e))
  {
    var v := Observe(w, e);
    forall p
      ensures LettersOf(v, p)
    {
      assert LettersOf(w, p);
      MailOf(w, e, p);
    }
  }

  ghost predicate LettersOf(w: World, p: Pid) {
    Get(w.sent, p) == Get(w.received, p) + Get(w.k.mail, p)
  }

  lemma CreateKeepsLetters(w: World, caller: Pid, call: Call, p: Pid)
    requires Index(w.k) && LettersOf(w, p) && call.Create? && Invoke(w.k, caller, call).out.Ok?
    ensures LettersOf(Observe(w, Syscall(caller, call)), p)
  {
    CreateEffect(w.k, caller, call.name, call.priority, call.policy);
    assert w.k.nextPid !in w.k.mail by {
      assert forall q :: q in w.k.processes ==> ProcOk(q, w.k.processes[q], w.k.nextPid);
    }
  }

  lemma SendKeepsLetters(w: World, caller: Pid, call: Call, p: Pid)
    requires LettersOf(w, p) && call.Send? && Invoke(w.k, caller, call).out.Ok?
    ensures LettersOf(Observe(w, Syscall(caller, call)), p)
  {
    var m := Message(call.uuid, call.kind, caller, call.target, call.subject, call.payload);
    assert Invoke(w.k, caller, call).k.mail == Enqueue(w.k, m).mail;
  }

  lemma ReceiveKeepsLetters(w: World, caller: Pid, call: Call, p: Pid)
    requires LettersOf(w, p) && call.Receive? && Invoke(w.k, caller, call).out.Ok?
    ensures LettersOf(Observe(w, Syscall(caller, call)), p)
    ensures p == caller && Get(w.k.mail, p) != [] ==>
      var v := Observe(w, Syscall(caller, call));
      && Get(v.received, p) == Get(w.received, p) + [Get(w.k.mail, p)[0]]
      && Get(v.k.mail, p) == Get(w.k.mail, p)[1..]
  {
    if p == caller && Get(w.k.mail, p) != [] {
      var q := w.k.mail[p];
      assert q == [q[0]] + q[1..];
    }
  }

  lemma ExitKeepsLetters(w: World, caller: Pid, call: Call, p: Pid)
    requires LettersOf(w, p) && call.Exit? && Invoke(w.k, caller, call).out.Ok?
    ensures LettersOf(Observe(w, Syscall(caller, call)), p)
  {
  }

  lemma QuietKeepsLetters(w: World, caller: Pid, call: Call, p: Pid)
    requires LettersOf(w, p) && (call.Wait? || call.Allocate? || call.Free? || call.Map? || call.Unregistered?)
    ensures LettersOf(Observe(w, Syscall(caller, call)), p)
  {
    if call.Allocate? || call.Free? || call.Map? {
      MemoryCallsKeepScheduling(w.k, caller, call);
    }
  }

  lemma MailOf(w: World, e: Event, p: Pid)
    requires Index(w.k) && LettersOf(w, p)
    ensures LettersOf(Observe(w, e), p)
  {
    if e.Syscall? {
      if Invoke(w.k, e.caller, e.call).out.Err? {
        FailureAtomicity(w.k, e.caller, e.call);
      } else if e.call.Create? {
        CreateKeepsLetters(w, e.caller, e.call, p);
      } else if e.call.Send? {
        SendKeepsLetters(w, e.caller, e.call, p);
      } else if e.call.Receive? {
        ReceiveKeepsLetters(w, e.caller, e.call, p);
      } else if e.call.Exit? {
        ExitKeepsLetters(w, e.caller, e.call, p);
      } else {
        QuietKeepsLetters(w, e.caller, e.call, p);
      }
    }
  }

  // ---- whole runs ----

  ghost predicate Good(w: World) {
    Index(w.k) && Layout(w.k) && Accounts(w) && Letters(w)
  }

  lemma {:induction false} RecordKeepsGood(w: World, es: seq<Event>)
    requires Good(w) && FreshIds(w.k, es)
    ensures Good(Record(w, es)) && Record(w, es).k == Run(w.k, es)
    decreases |es|
  {
    if es != [] {
      StepKeepsIndex(w.k, es[0]);
      StepKeepsMemory(w.k, es[0]);
      StepKeepsAccounts(w, es[0]);
      StepKeepsLetters(w, es[0]);
      RecordKeepsGood(Observe(w, es[0]), es[1..]);
    }
  }

  lemma BootAccounts()
    ensures Accounts(START)
  {
    var a, b := [KernelMain], [SystemShared];
    ChargedConcat(BOOT.regions, a, b);
    assert a[..0] == [] && b[..0] == [];
    assert Charged(BOOT.regions, a) == 0 && Charged(BOOT.regions, b) == 0;
    assert a + b == [KernelMain, SystemShared];
    assert forall p :: p in BOOT.processes <==> p == 0 || p == 1;
  }

  lemma StartIsGood()
    ensures Good(START)
  {
    BootIndex();
    BootMemory();
    BootAccounts();
    assert forall p :: LettersOf(START, p);
  }

  /** Every run from start-up with fresh ids satisfies all invariants and both laws. */
  lemma KernelSafety(es: seq<Event>)
    requires FreshIds(BOOT, es)
    ensures Record(START, es).k == Run(BOOT, es) && Good(Record(START, es))
  {
    StartIsGood();
    RecordKeepsGood(START, es);
  }

  /** `memory_usage` is the charged total exactly for the processes that freed no uncharged region. */
  lemma UsageIsExact(es: seq<Event>, p: Pid)
    requires FreshIds(BOOT, es) && p in Run(BOOT, es).processes
    ensures var w := Record(START, es);
      && p in w.k.processes
      && w.k.processes[p].usage <= Charged(w.k.regions, Get(w.k.memory, p))
      && (w.k.processes[p].usage == Charged(w.k.regions, Get(w.k.memory, p)) <==> Tally(w.refunded, p) == 0)
  {
    KernelSafety(es);
    assert AccountOk(Record(START, es), p);
  }

  /** Nobody waits for a message while holding one, in any reachable state. */
  lemma NoLostWakeUp(es: seq<Event>, p: Pid)
    requires FreshIds(BOOT, es)
    ensures var k := Run(BOOT, es); p in k.blocked && k.blocked[p] == IpcReceive ==> Get(k.mail, p) == []
  {
    KernelSafety(es);
  }

  /**
    In any reachable state two regions of a process that share an address include a mapping, which is the later one;
    and a process without mappings sees its regions in the order it created them.
   */
  lemma ReachableLayout(es: seq<Event>, p: Pid, i: nat, j: nat)
    requires FreshIds(BOOT, es) && i < j < |Get(Run(BOOT, es).memory, p)|
    ensures var k := Run(BOOT, es);
      var ids := Get(k.memory, p);
      && ids[i] in k.regions && ids[j] in k.regions && ids[i] != ids[j]
      && (Overlap(k.regions[ids[i]], k.regions[ids[j]]) ==> k.regions[ids[j]].IsMapping())
      && ((forall id :: id in ids && id in k.regions ==> !k.regions[id].IsMapping()) ==> MemoryMapOf(k, p) == ids)
  {
    KernelSafety(es);
    var k := Run(BOOT, es);
    var ids := Get(k.memory, p);
    assert ListOk(k.regions, p, ids) && ids[i] in ids && ids[j] in ids;
    OverlapNeedsMapping(k, p, i, j);
    if forall id :: id in ids && id in k.regions ==> !k.regions[id].IsMapping() {
      CreationOrder(k, p);
    }
  }

  // ---- runs in which every mapping caller is an existing or reserved pid ----

  predicate KnownMapCallers(k: Kernel, es: seq<Event>)
    decreases |es|
  {
    es == [] || (KnownMapCaller(k, es[0]) && KnownMapCallers(Apply(k, es[0]), es[1..]))
  }

  /** Ownership holds, and a process without a memory list owes nothing: refunds restart at every exit. */
  ghost predicate TidyWorld(w: World) {
    Tidy(w.k) && forall p :: p !in w.k.memory ==> Tally(w.refunded, p) == 0
  }

  lemma StepKeepsTidyWorld(w: World, e: Event)
    requires Good(w) && FreshId(w.k, e) && TidyWorld(w) && KnownMapCaller(w.k, e)
    ensures TidyWorld(Observe(w, e))
  {
    StepKeepsTidy(w.k, e);
    var v := Observe(w, e);
    forall p | p !in v.k.memory
      ensures Tally(v.refunded, p) == 0
    {
      RefundNeedsList(w, e, p);
    }
  }

  lemma RefundNeedsList(w: World, e: Event, p: Pid)
    requires Index(w.k) && TidyWorld(w) && p !in Observe(w, e).k.memory
    ensures Tally(Observe(w, e).refunded, p) == 0
  {
    ObserveFollows(w, e);
    if e.Syscall? && e.call.Free? && e.caller == p {
      FreeNeedsList(w.k, p, e.call.region);
    } else if e.Syscall? && e.call.Exit? && e.caller == p {
    } else if p in w.k.memory {
      ListsStay(w.k, e, p);
    }
  }

  lemma FreeNeedsList(k: Kernel, p: Pid, id: RegionId)
    requires Owned(k)
    ensures MemoryFree(k, p, id).out.Ok? ==> p in MemoryFree(k, p, id).k.memory
  {
    if id in k.regions {
      assert id in Get(k.memory, k.regions[id].owner);
    }
  }

  /** Only an exit by its owner drops a list. */
  lemma ListsStay(k: Kernel, e: Event, p: Pid)
    requires p in k.memory && (e.Syscall? && e.call.Exit? ==> e.caller != p)
    ensures p in Apply(k, e).memory
  {
    match e
    case Pass =>
    case Syscall(caller, Create(name, priority, policy)) =>
      CreateCases(k, caller, name, priority, policy);
      if Invoke(k, caller, e.call).out.Ok? {
        CreateEffect(k, caller, name, priority, policy);
      }
    case Syscall(caller, Exit(_)) =>
    case Syscall(caller, Allocate(_, _, _)) =>
    case Syscall(caller, Free(_)) =>
    case Syscall(caller, Map(_, _, _, _)) =>
    case _ => SchedulingStepsKeepMemory(k, e);
  }

  lemma {:induction false} RecordKeepsTidy(w: World, es: seq<Event>)
    requires Good(w) && TidyWorld(w) && FreshIds(w.k, es) && KnownMapCallers(w.k, es)
    ensures TidyWorld(Record(w, es))
    decreases |es|
  {
    if es != [] {
      RecordKeepsGood(w, [es[0]]);
      assert Record(w, [es[0]]) == Record(Observe(w, es[0]), []) && [es[0]][1..] == [];
      StepKeepsTidyWorld(w, es[0]);
      RecordKeepsTidy(Observe(w, es[0]), es[1..]);
    }
  }

  lemma BootIsTidy()
    ensures TidyWorld(START)
  {
    assert forall id :: id in BOOT.regions <==> id == KernelMain || id == SystemShared;
  }

  /**
    With such callers no step orphans mappings, and no exit leaves a refund behind: both laws that fail on other runs
    hold on these.
   */
  lemma {:induction false} KnownCallersSuffice(w: World, es: seq<Event>)
    requires Good(w) && TidyWorld(w) && FreshIds(w.k, es) && KnownMapCallers(w.k, es)
    ensures NeverOrphans(w.k, es) && SettledExits(w.k, es)
    decreases |es|
  {
    if es != [] {
      var e := es[0];
      RecordOne(w, e);
      StepKeepsTidyWorld(w, e);
      ObserveFollows(w, e);
      assert e.Syscall? && e.caller in w.k.processes ==> AccountOk(w, e.caller);
      KnownCallersSuffice(Observe(w, e), es[1..]);
    }
  }

  lemma RecordOne(w: World, e: Event)
    requires Good(w) && FreshId(w.k, e)
    ensures Good(Observe(w, e))
  {
    StepKeepsIndex(w.k, e);
    StepKeepsMemory(w.k, e);
    StepKeepsAccounts(w, e);
    StepKeepsLetters(w, e);
    ObserveFollows(w, e);
  }

  /**
    On every run from start-up with fresh ids, the region table and the lists match one to one throughout if and only
    if no create hands out a pid that already has mappings. Map callers below the next pid rule such creates out.
   */
  lemma OwnershipBijection(es: seq<Event>)
    requires FreshIds(BOOT, es)
    ensures AlwaysOneToOne(BOOT, es) <==> NeverOrphans(BOOT, es)
    ensures NeverOrphans(BOOT, es) ==> OneToOne(Run(BOOT, es))
    ensures KnownMapCallers(BOOT, es) ==> NeverOrphans(BOOT, es)
  {
    StartIsGood();
    BootIsTidy();
    OwnershipOverRuns(BOOT, es);
    if KnownMapCallers(BOOT, es) { KnownCallersSuffice(START, es); }
  }

  // ---- accounting since the last exit ----

  /** The accounting law with refunds counted since the last exit, however that exit went. */
  ghost predicate SinceExit(w: World) {
    forall p :: p in w.k.processes ==>
      w.k.processes[p].usage == Charged(w.k.regions, Get(w.k.memory, p)) - Tally(w.freed, p)
  }

  /** Only known processes free anything. */
  ghost predicate FreedKnown(w: World) {
    w.freed.Keys <= w.k.processes.Keys
  }

  /** An exit by a process without memory list whose usage is not zero: it leaves the usage as it is. */
  predicate UnsettledExit(k: Kernel, e: Event) {
    e.Syscall? && e.call.Exit? && e.caller in k.processes && e.caller !in k.memory && k.processes[e.caller].usage != 0
  }

  predicate SettledExits(k: Kernel, es: seq<Event>)
    decreases |es|
  {
    es == [] || (!UnsettledExit(k, es[0]) && SettledExits(Apply(k, es[0]), es[1..]))
  }

  ghost predicate AlwaysSinceExit(w: World, es: seq<Event>)
    decreases |es|
  {
    SinceExit(w) && (es != [] ==> AlwaysSinceExit(Observe(w, es[0]), es[1..]))
  }

  /** An exit settles the account of the process if and only if it has a memory list or a usage of zero. */
  lemma ExitSettlesAccount(w: World, p: Pid, exitCode: int)
    requires Good(w) && p in w.k.processes
    ensures var v := Observe(w, Syscall(p, Exit(exitCode)));
      && p in v.k.processes
      && (Tally(v.refunded, p) == 0 <==> p in w.k.memory || w.k.processes[p].usage == 0)
      && (v.k.processes[p].usage == 0 <==> p in w.k.memory || w.k.processes[p].usage == 0)
  {
    assert AccountOk(w, p);
  }

  lemma SameTallies(w: World)
    requires Accounts(w)
    ensures SinceExit(w) <==> forall p :: p in w.k.processes ==> Tally(w.freed, p) == Tally(w.refunded, p)
  {
    assert forall p :: p in w.k.processes ==> AccountOk(w, p);
  }

  /** Both tallies of everybody but the caller stay; those of the caller change alike, except at an exit. */
  lemma TalliesMove(w: World, e: Event, p: Pid)
    requires Accounts(w) && p in w.k.processes && Tally(w.freed, p) == Tally(w.refunded, p)
    ensures var v := Observe(w, e);
      Tally(v.freed, p) == Tally(v.refunded, p) <==> !(UnsettledExit(w.k, e) && e.caller == p)
  {
    assert AccountOk(w, p);
  }

  lemma FreedStaysKnown(w: World, e: Event)
    requires FreedKnown(w) && w.k.processes.Keys <= Observe(w, e).k.processes.Keys
    ensures FreedKnown(Observe(w, e))
  {
  }

  lemma StepKeepsSinceExit(w: World, e: Event)
    requires Good(w) && FreshId(w.k, e) && SinceExit(w) && FreedKnown(w)
    ensures SinceExit(Observe(w, e)) <==> !UnsettledExit(w.k, e)
    ensures FreedKnown(Observe(w, e))
  {
    var v := Observe(w, e);
    RecordOne(w, e);
    TableGrows(w.k, e);
    ObserveFollows(w, e);
    FreedStaysKnown(w, e);
    SameTallies(w);
    SameTallies(v);
    forall p | p in v.k.processes
      ensures Tally(v.freed, p) == Tally(v.refunded, p) <==> !(UnsettledExit(w.k, e) && e.caller == p)
    {
      if p in w.k.processes { TalliesMove(w, e, p); } else { NewcomerTallies(w, e, p); }
    }
    if UnsettledExit(w.k, e) { assert e.caller in v.k.processes; }
  }

  lemma NewcomerTallies(w: World, e: Event, p: Pid)
    requires Good(w) && FreedKnown(w)
    ensures var v := Observe(w, e);
      p !in w.k.processes && p in v.k.processes ==> Tally(v.freed, p) == 0 == Tally(v.refunded, p)
  {
    TableGrows(w.k, e);
    ObserveFollows(w, e);
  }

  lemma {:induction false} SinceExitOverRuns(w: World, es: seq<Event>)
    requires Good(w) && FreshIds(w.k, es) && SinceExit(w) && FreedKnown(w)
    ensures AlwaysSinceExit(w, es) <==> SettledExits(w.k, es)
    decreases |es|
  {
    if es != [] {
      var v := Observe(w, es[0]);
      StepKeepsSinceExit(w, es[0]);
      RecordOne(w, es[0]);
      ObserveFollows(w, es[0]);
      if SinceExit(v) { SinceExitOverRuns(v, es[1..]); }
    }
  }

  /**
    On every run from start-up with fresh ids, usage equals the charged regions minus the uncharged ones freed since
    the last exit, throughout, if and only if no process exits without a memory list while its usage is not zero.
    Map callers below the next pid rule such exits out.
   */
  lemma UsageSinceLastExit(es: seq<Event>)
    requires FreshIds(BOOT, es)
    ensures AlwaysSinceExit(START, es) <==> SettledExits(BOOT, es)
    ensures KnownMapCallers(BOOT, es) ==> SettledExits(BOOT, es)
  {
    StartIsGood();
    BootIsTidy();
    SameTallies(START);
    SinceExitOverRuns(START, es);
    if KnownMapCallers(BOOT, es) { KnownCallersSuffice(START, es); }
  }

  /**
    The exit that settles nothing: a mapping made under a pid before that pid is created outlives the first exit of
    the process; freeing it afterwards makes the usage negative, and the second exit leaves it so.
   */
  lemma UnsettledExample()
    ensures var es := [Syscall(1000, Map(SystemShared, 0, 1, 0)), Syscall(0, Create("p", 20, 1)),
                       Syscall(1000, Exit(0)), Syscall(1000, Free(Uuid(0))), Syscall(1000, Exit(0))];
      var k := Run(BOOT, es);
      FreshIds(BOOT, es) && 1000 in k.processes && k.processes[1000].usage == -32 * MIB && !SettledExits(BOOT, es)
  {
    var mapping, create := Syscall(1000, Map(SystemShared, 0, 1, 0)), Syscall(0, Create("p", 20, 1));
    var exit, free := Syscall(1000, Exit(0)), Syscall(1000, Free(Uuid(0)));
    OrphanedMapping();
    FreedAfterExit(Apply(Apply(BOOT, mapping), create));
    FiveSteps(BOOT, mapping, create, exit, free, exit);
  }

  predicate TakesNoId(e: Event) {
    e.Syscall? && !e.call.Allocate? && !e.call.Map?
  }

  lemma FiveSteps(k: Kernel, a: Event, b: Event, c: Event, d: Event, e: Event)
    requires FreshId(k, a) && TakesNoId(b) && TakesNoId(c) && TakesNoId(d) && TakesNoId(e)
    ensures var k4 := Apply(Apply(Apply(Apply(k, a), b), c), d);
      && Run(k, [a, b, c, d, e]) == Apply(k4, e) && FreshIds(k, [a, b, c, d, e])
      && (UnsettledExit(k4, e) ==> !SettledExits(k, [a, b, c, d, e]))
  {
    assert [e] == [e] + [] && [d, e] == [d] + [e] && [c, d, e] == [c] + [d, e];
    assert [b, c, d, e] == [b] + [c, d, e] && [a, b, c, d, e] == [a] + [b, c, d, e];
    var k1 := Apply(k, a);
    var k2 := Apply(k1, b);
    var k3 := Apply(k2, c);
    var k4 := Apply(k3, d);
    UnfoldRun(k4, e, []);
    UnfoldRun(k3, d, [e]);
    UnfoldRun(k2, c, [d, e]);
    UnfoldRun(k1, b, [c, d, e]);
    UnfoldRun(k, a, [b, c, d, e]);
  }

  lemma UnfoldRun(k: Kernel, e: Event, es: seq<Event>)
    ensures Run(k, [e] + es) == Run(Apply(k, e), es)
    ensures FreshIds(k, [e] + es) <==> FreshId(k, e) && FreshIds(Apply(k, e), es)
    ensures SettledExits(k, [e] + es) <==> !UnsettledExit(k, e) && SettledExits(Apply(k, e), es)
  {
    assert ([e] + es)[1..] == es;
  }

  lemma FreedAfterExit(k: Kernel)
    requires 1000 in k.processes && Get(k.memory, 1000) == [Code(1000), Data(1000), Stack(1000)]
    requires Uuid(0) in k.regions && k.regions[Uuid(0)].owner == 1000 && k.regions[Uuid(0)].size == 32 * MIB
    ensures var k4 := Apply(Apply(k, Syscall(1000, Exit(0))), Syscall(1000, Free(Uuid(0))));
      var k5 := Apply(k4, Syscall(1000, Exit(0)));
      && UnsettledExit(k4, Syscall(1000, Exit(0)))
      && 1000 in k5.processes && k5.processes[1000].usage == -32 * MIB
  {
    var k3 := Apply(k, Syscall(1000, Exit(0)));
    assert Uuid(0) !in k.memory[1000];
    assert 1000 !in k3.memory && Uuid(0) in k3.regions && k3.regions[Uuid(0)] == k.regions[Uuid(0)];
    assert k3.processes[1000].usage == 0;
  }
}
