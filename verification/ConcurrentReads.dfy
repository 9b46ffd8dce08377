/**
  What the read-only methods of the Python kernel can see while calls and passes are under way. A reader that holds the
  proc lock sees the queue, the block table and the process records of the recorded sequence; a reader that holds the
  memory lock sees the memory of that sequence, with or without the call under way. No half-done update is visible.
 */
module ConcurrentReads {
  import opened Lists
  import opened KernelModel
  import opened KernelIndex
  import opened KernelMemory
  import opened KernelHistory
  import opened KernelFairness
  import opened Threads
  import opened SoloRuns
  import opened Atomicity
  import opened ConcurrentRuns

  /** No call and no pass under way holds this lock. */
  ghost predicate NoWriter(c: Config, l: Lock) {
    forall t :: 0 <= t < |c.threads| && (CallUnderWay(c.threads[t]) || PassUnderWay(c.threads[t])) ==>
      !c.threads[t].held.Has(l)
  }

  /** A read-only method that holds a lock keeps all writers out of it. */
  lemma ReaderKeepsWritersOut(c: Config, t: nat, l: Lock)
    requires LocksOk(c) && t < |c.threads| && c.threads[t].op.Query? && c.threads[t].held.Has(l)
    ensures NoWriter(c, l)
  {
  }

  /** The locks under which a read-only method reads. */
  function Needs(q: Question): set<Lock> {
    match q
    case ProcessInfo => {ProcLock}
    case ProcessList(_) => {ProcLock}
    case MemoryInfo => {MemLock}
    case MemoryMapInfo(_) => {MemLock}
    case SystemInfo => {ProcLock, MemLock}
    case Stats => {SyscallLock}
  }

  /** What a program holds after the acquisitions it begins with. */
  function HeldAtFirst(prog: Prog, held: Held): Held {
    if prog.Acq? then HeldAtFirst(prog.rest, Over(prog.lock, held)) else held
  }

  lemma QueryTakesItsLocks(q: Question, l: Lock)
    ensures HeldAtFirst(Script(Query(q)), NoLocks).Has(l) <==> l in Needs(q)
  {
    match q
    case ProcessList(n) => InnerHeld(ProcLock, n);
    case MemoryMapInfo(n) => InnerHeld(MemLock, n);
    case _ =>
  }

  lemma InnerHeld(l: Lock, n: nat)
    ensures HeldAtFirst(Inner(l, n, Rel(l, End)), Over(l, NoLocks)) ==
            if n == 0 then Over(l, NoLocks) else Over(l, Over(l, NoLocks))
  {
    if n > 0 {
      var rest := Rel(l, Inner(l, n - 1, Rel(l, End)));
      assert HeldAtFirst(rest, Over(l, Over(l, NoLocks))) == Over(l, Over(l, NoLocks));
    }
  }

  /** The record of the run so far, its sequence of events, and the links between them. */
  lemma RecordOf(todos: seq<seq<Op>>, ts: seq<nat>) returns (a: Audit)
    requires Schedule(Start(BOOT, todos), ts)
    ensures var c := RunThreads(Start(BOOT, todos), ts);
      && Linked(c, a) && a.base == Run(BOOT, EventsOf(LogAfter(BOOT, todos, ts)))
      && Index(a.base)
  {
    var c0, a0 := Start(BOOT, todos), Audit(BOOT, BOOT, []);
    StartLinked(BOOT, todos);
    RunsAreRecorded(BOOT, c0, a0, ts, todos);
    a := AuditRun(c0, a0, ts);
    ReplayIsRun(BOOT, a.log);
    BootIndex();
    RunKeepsIndex(BOOT, EventsOf(a.log));
  }

  // ---- under the proc lock ----

  /** Equal but for memory, mail and the usage of processes. */
  ghost predicate SeesSame(k: Kernel, j: Kernel) {
    && j.ready == k.ready && j.blocked == k.blocked && j.nextPid == k.nextPid
    && j.processes.Keys == k.processes.Keys
    && forall p :: p in k.processes ==> j.processes[p] == k.processes[p].(usage := j.processes[p].usage)
  }

  lemma OutsideSeesSame(m: Micro, k: Kernel, rest: Prog)
    requires NonProc(m)
    ensures SeesSame(k, Exec(m, k, rest).k)
  {
    if m.Charge? {
      assert Exec(m, k, rest).k == AddUsage(k, m.caller, m.amount);
      ChargeSeesSame(k, m.caller, m.amount);
    } else {
      StaysInMemoryAndMail(m, k, rest);
    }
  }

  lemma ChargeSeesSame(k: Kernel, p: Pid, amount: int)
    ensures SeesSame(k, AddUsage(k, p, amount))
  {
  }

  /** A call that has not entered the proc lock has changed nothing of this. */
  lemma {:induction false} NotEnteredSeesSame(k: Kernel, prog: Prog, n: nat)
    requires !Solo(k, prog, n).entered
    ensures SeesSame(k, Solo(k, prog, n).k)
  {
    if n > 0 {
      var r := Solo(k, prog, n - 1);
      NotEnteredSeesSame(k, prog, n - 1);
      if r.prog.Do? { OutsideSeesSame(r.prog.micro, r.k, r.prog.rest); }
    }
  }

  lemma SeenOfBase(c: Config, a: Audit)
    requires Linked(c, a) && NoWriter(c, ProcLock)
    ensures SeesSame(a.base, c.k)
  {
    assert c.k == a.mid;
    if t :| 0 <= t < |c.threads| && CallUnderWay(c.threads[t]) {
      var th := c.threads[t];
      assert ThreadOk(a, c.k, th);
      NotEnteredSeesSame(a.base, Script(th.op), th.steps);
    } else {
      assert a.mid == a.base;
    }
  }

  lemma SeesSameKeeps(k: Kernel, j: Kernel)
    requires Index(k) && SeesSame(k, j)
    ensures ReadyAgrees(j) && BlockedAgrees(j) && TableOk(j)
  {
    assert forall p :: p in j.processes ==> ProcOk(p, k.processes[p], k.nextPid);
  }

  /**
    In every reachable state in which no writer holds the proc lock, calls under way or not: queue, block table and
    process records, usage aside, are those of the recorded sequence, and the indices agree.
   */
  lemma SeenUnderProcLock(todos: seq<seq<Op>>, ts: seq<nat>)
    requires Schedule(Start(BOOT, todos), ts) && NoWriter(RunThreads(Start(BOOT, todos), ts), ProcLock)
    ensures var k := RunThreads(Start(BOOT, todos), ts).k;
      && SeesSame(Run(BOOT, EventsOf(LogAfter(BOOT, todos, ts))), k)
      && ReadyAgrees(k) && BlockedAgrees(k) && TableOk(k)
  {
    var c := RunThreads(Start(BOOT, todos), ts);
    var a := RecordOf(todos, ts);
    SeenOfBase(c, a);
    SeesSameKeeps(a.base, c.k);
  }

  /**
    Bounded waiting for any number of threads, between any two states in which no writer holds the proc lock: a
    process at place i of the queue that keeps itself ready has been dispatched once more than i passes have taken
    effect, however their statements and those of calls interleave.
   */
  lemma ConcurrentWaiting(todos: seq<seq<Op>>, ts: seq<nat>, us: seq<nat>, p: Pid)
    requires Schedule(Start(BOOT, todos), ts) && Schedule(RunThreads(Start(BOOT, todos), ts), us)
    requires NoWriter(RunThreads(Start(BOOT, todos), ts), ProcLock)
    requires NoWriter(RunThreads(RunThreads(Start(BOOT, todos), ts), us), ProcLock)
    requires p in RunThreads(Start(BOOT, todos), ts).k.ready
    ensures Schedule(Start(BOOT, todos), ts + us)
    ensures LogAfter(BOOT, todos, ts) <= LogAfter(BOOT, todos, ts + us)
    ensures var k, j := RunThreads(Start(BOOT, todos), ts).k, RunThreads(RunThreads(Start(BOOT, todos), ts), us).k;
      var first := LogAfter(BOOT, todos, ts);
      var es := EventsOf(LogAfter(BOOT, todos, ts + us)[|first|..]);
      AlwaysReady(Run(BOOT, EventsOf(first)), es, p) ==>
        p in j.ready && (IndexOf(k.ready, p) < Passes(es) ==> Switches(k, p) < Switches(j, p))
  {
    RealTimeOrder(BOOT, todos, ts, us);
    AuditConcat(Start(BOOT, todos), Audit(BOOT, BOOT, []), ts, us);
    SeenUnderProcLock(todos, ts);
    SeenUnderProcLock(todos, ts + us);
    var first, all := LogAfter(BOOT, todos, ts), LogAfter(BOOT, todos, ts + us);
    var k1, es := Run(BOOT, EventsOf(first)), EventsOf(all[|first|..]);
    assert all == first + all[|first|..];
    EventsConcat(first, all[|first|..]);
    RunConcat(BOOT, EventsOf(first), es);
    BootIndex();
    RunKeepsIndex(BOOT, EventsOf(first));
    if AlwaysReady(k1, es, p) { BoundedWaiting(k1, es, p); }
  }

  // ---- under the memory lock ----

  ghost predicate SameTables(k: Kernel, j: Kernel) {
    j.regions == k.regions && j.memory == k.memory
  }

  /** Statements that change the region table or the lists. */
  predicate MemStep(m: Micro) {
    m.InitMem? || m.FreeMem? || m.PutRegion? || m.ListRegion? || m.UnlistRegion? || m.DropRegion?
  }

  /** Those, and the statements that may go on to them. */
  predicate ToMem(m: Micro) {
    MemStep(m) || m.CreateEnter? || m.CreateEntry? || m.ExitEnter? || m.AllocEnter? || m.FreeEnter? || m.MapEnter?
  }

  predicate TouchesMem(prog: Prog) {
    match prog
    case End => false
    case Acq(_, rest) => TouchesMem(rest)
    case Rel(_, rest) => TouchesMem(rest)
    case Do(m, rest) => ToMem(m) || TouchesMem(rest)
  }

  /** After a release of the memory lock the program does not touch the memory again. */
  predicate MemOnce(prog: Prog) {
    match prog
    case End => true
    case Acq(_, rest) => MemOnce(rest)
    case Rel(l, rest) => MemOnce(rest) && (l == MemLock ==> !TouchesMem(rest))
    case Do(_, rest) => MemOnce(rest)
  }

  lemma {:induction false} NoDoTouchesNothing(prog: Prog)
    requires NoDo(prog)
    ensures !TouchesMem(prog) && MemOnce(prog)
  {
    if prog != End { NoDoTouchesNothing(prog.rest); }
  }

  lemma BracketMem(l: Lock, m: Micro, rest: Prog)
    requires MemOnce(rest) && !TouchesMem(rest)
    ensures MemOnce(Acq(l, Do(m, Rel(l, rest)))) && (TouchesMem(Acq(l, Do(m, Rel(l, rest)))) <==> ToMem(m))
  {
    assert MemOnce(Rel(l, rest)) && !TouchesMem(Rel(l, rest));
    assert MemOnce(Do(m, Rel(l, rest)));
  }

  lemma HandlerMemOnce(caller: Pid, call: Call)
    ensures MemOnce(Script(Sys(caller, call)))
  {
    var rest := Rel(SyscallLock, End);
    assert MemOnce(rest) && !TouchesMem(rest);
    var h := Handler(caller, call, rest);
    if h.Acq? { BracketMem(h.lock, h.rest.micro, rest); }
  }

  lemma ContinueMem(m: Micro, k: Kernel, rest: Prog)
    requires MemOnce(rest) && !TouchesMem(rest)
    ensures MemOnce(Continue(m, k, rest)) && (TouchesMem(Continue(m, k, rest)) ==> ToMem(m))
  {
    if m.CreateEntry? || m.ExitEnter? {
      var mail := if m.CreateEntry? then InitMail(m.pid) else DropMail(m.caller);
      BracketMem(IpcLock, mail, rest);
      var tail := Acq(IpcLock, Do(mail, Rel(IpcLock, rest)));
      BracketMem(MemLock, if m.CreateEntry? then InitMem(m.pid) else FreeMem(m.caller), tail);
    } else if m.SendEnter? {
      BracketMem(ProcLock, WakeUp(m.target, m.uuid), rest);
    } else if m.ReceiveEnter? {
      ReceiveMem(m.caller, rest);
    } else if m.AllocEnter? || m.FreeEnter? {
      var p := Continue(m, k, rest);
      assert MemOnce(p.rest.rest) && MemOnce(p.rest);
    } else if m.PassPop? {
      PassMem(if k.ready == [] then 0 else k.ready[0], rest);
    } else if m.WaitEnter? {
      var tail := Do(WaitBlock(m.caller, m.target), rest);
      assert MemOnce(tail) && !TouchesMem(tail);
    }
  }

  lemma PassMem(pid: Pid, rest: Prog)
    requires MemOnce(rest) && !TouchesMem(rest)
    ensures var p := Do(PassMark(pid), Do(PassExecute(pid), Do(PassRequeue(pid), rest))); MemOnce(p) && !TouchesMem(p)
  {
    var tail := Do(PassRequeue(pid), rest);
    assert MemOnce(tail) && !TouchesMem(tail);
    assert MemOnce(Do(PassExecute(pid), tail)) && !TouchesMem(Do(PassExecute(pid), tail));
  }

  lemma ReceiveMem(caller: Pid, rest: Prog)
    requires MemOnce(rest) && !TouchesMem(rest)
    ensures var p := Acq(ProcLock, Do(ReceiveDequeue(caller), Do(ReceiveBlock(caller), Rel(ProcLock, rest))));
      MemOnce(p) && !TouchesMem(p)
  {
    var tail := Do(ReceiveBlock(caller), Rel(ProcLock, rest));
    assert MemOnce(Rel(ProcLock, rest)) && !TouchesMem(Rel(ProcLock, rest));
    assert MemOnce(tail) && !TouchesMem(tail);
  }

  /** A statement goes on to the memory only if it was on the way there. */
  lemma ExecMem(m: Micro, k: Kernel, rest: Prog)
    requires Shaped(Do(m, rest)) && MemOnce(rest)
    ensures MemOnce(Exec(m, k, rest).prog)
    ensures TouchesMem(Exec(m, k, rest).prog) ==> TouchesMem(Do(m, rest))
  {
    ExecReply(m, k, rest);
    if Expands(m) {
      NoDoTouchesNothing(rest);
      ContinueMem(m, k, rest);
    }
  }

  lemma OtherStatementsKeepTables(m: Micro, k: Kernel, rest: Prog)
    requires !MemStep(m)
    ensures SameTables(k, Exec(m, k, rest).k)
  {
    if IsPass(m) {
      PassMicroFrame(m, k, rest);
    } else if NonProc(m) {
      QuietKeepsTables(m, k, rest);
    } else {
      ProcKeepsTables(m, k, rest);
    }
  }

  lemma QuietKeepsTables(m: Micro, k: Kernel, rest: Prog)
    requires IsEntry(m) || m.Charge? || m.Post? || m.ReceiveEnter? || m.Reject?
    ensures SameTables(k, Exec(m, k, rest).k)
  {
    if m.Charge? || m.Post? { UpdateKeepsTables(m, k, rest); }
  }

  lemma UpdateKeepsTables(m: Micro, k: Kernel, rest: Prog)
    requires m.Charge? || m.Post?
    ensures SameTables(k, Exec(m, k, rest).k)
  {
  }

  lemma ProcKeepsTables(m: Micro, k: Kernel, rest: Prog)
    requires !MemStep(m) && !NonProc(m) && !IsPass(m)
    ensures SameTables(k, Exec(m, k, rest).k)
  {
    if m.CreateEnter? || m.CreateEntry? || m.CreateReady? || m.InitMail? {
      CreateKeepsTables(m, k, rest);
    } else if m.ExitEnter? || m.ExitQueues? || m.DropMail? {
      ExitKeepsTables(m, k, rest);
    } else {
      SleepKeepsTables(m, k, rest);
    }
  }

  lemma CreateKeepsTables(m: Micro, k: Kernel, rest: Prog)
    requires m.CreateEnter? || m.CreateEntry? || m.CreateReady? || m.InitMail?
    ensures SameTables(k, Exec(m, k, rest).k)
  {
  }

  lemma ExitKeepsTables(m: Micro, k: Kernel, rest: Prog)
    requires m.ExitEnter? || m.ExitQueues? || m.DropMail?
    ensures SameTables(k, Exec(m, k, rest).k)
  {
  }

  lemma SleepKeepsTables(m: Micro, k: Kernel, rest: Prog)
    requires m.WaitEnter? || m.WaitDequeue? || m.WaitBlock? || m.WakeUp? || m.ReceiveDequeue? || m.ReceiveBlock?
    ensures SameTables(k, Exec(m, k, rest).k)
  {
  }

  /** What the rest of a program leaves of the memory if it does not touch it. */
  lemma {:induction false} UntouchedTables(k: Kernel, prog: Prog)
    requires Shaped(prog) && MemOnce(prog) && !TouchesMem(prog)
    ensures SameTables(k, Complete(k, prog).k)
    decreases Length(prog)
  {
    match prog
    case End =>
    case Acq(_, rest) => UntouchedTables(k, rest);
    case Rel(_, rest) => UntouchedTables(k, rest);
    case Do(m, rest) =>
      var e := Exec(m, k, rest);
      ExecMem(m, k, rest);
      ExecShaped(m, k, rest);
      ExecShrinks(m, k, rest);
      OtherStatementsKeepTables(m, k, rest);
      CompleteDo(k, m, rest);
      if e.out.None? { UntouchedTables(e.k, e.prog); }
  }

  // ---- the locks a program holds when it runs alone ----

  function HeldNext(prog: Prog, held: Held): Held {
    match prog
    case Acq(l, _) => Over(l, held)
    case Rel(_, _) => held.Released()
    case _ => held
  }

  /** While the memory lock is not held: either nothing of the memory has changed, or nothing of it will. */
  ghost predicate MemPhase(k: Kernel, r: Trail, held: Held) {
    && Shaped(r.prog) && MemOnce(r.prog) && Disciplined(r.prog, held) && MailGuarded(held)
    && (!held.Has(MemLock) && TouchesMem(r.prog) ==> SameTables(k, r.k))
  }

  lemma MemPhaseStep(k: Kernel, r: Trail, held: Held)
    requires MemPhase(k, r, held)
    ensures MemPhase(k, One(r), HeldNext(r.prog, held))
  {
    if r.prog.Do? {
      MemPhaseDo(k, r, held);
    }
  }

  lemma MemPhaseDo(k: Kernel, r: Trail, held: Held)
    requires MemPhase(k, r, held) && r.prog.Do?
    ensures MemPhase(k, One(r), held)
  {
    var m, rest := r.prog.micro, r.prog.rest;
    ExecMem(m, r.k, rest);
    ExecShaped(m, r.k, rest);
    ExecDisciplined(m, r.k, rest, held);
    if !held.Has(MemLock) {
      StepUnderLock(m);
      OtherStatementsKeepTables(m, r.k, rest);
    }
  }

  lemma StepUnderLock(m: Micro)
    ensures MemStep(m) ==> Locks(m).Has(MemLock)
  {
  }

  /** The locks held after n steps of a call are determined by the program that is left. */
  lemma {:induction false} OneHeld(prog: Prog, held: Held, held': Held)
    requires Disciplined(prog, held) && Disciplined(prog, held')
    ensures held == held'
  {
    match prog
    case End =>
    case Acq(l, rest) => OneHeld(rest, Over(l, held), Over(l, held'));
    case Rel(l, rest) => OneHeld(rest, held.below, held'.below);
    case Do(m, rest) => OneHeld(rest, held, held');
  }

  lemma {:induction false} SoloMemPhase(k: Kernel, caller: Pid, call: Call, n: nat) returns (held: Held)
    ensures MemPhase(k, Solo(k, Script(Sys(caller, call)), n), held)
  {
    if n == 0 {
      ScriptShaped(Sys(caller, call));
      HandlerMemOnce(caller, call);
      ScriptDisciplined(Sys(caller, call));
      held := NoLocks;
    } else {
      var before := SoloMemPhase(k, caller, call, n - 1);
      var r := Solo(k, Script(Sys(caller, call)), n - 1);
      MemPhaseStep(k, r, before);
      held := HeldNext(r.prog, before);
    }
  }

  /** A call that does not hold the memory lock has left the memory as it was, or as the whole call leaves it. */
  lemma CallSeen(a: Audit, k: Kernel, th: Thread)
    requires ThreadOk(a, k, th) && CallUnderWay(th) && Disciplined(th.prog, th.held) && !th.held.Has(MemLock)
    ensures SameTables(a.base, a.mid) || SameTables(Invoke(a.base, th.op.caller, th.op.call).k, a.mid)
  {
    var r := Solo(a.base, Script(th.op), th.steps);
    var held := SoloMemPhase(a.base, th.op.caller, th.op.call, th.steps);
    OneHeld(th.prog, held, th.held);
    if !TouchesMem(r.prog) {
      UntouchedTables(r.k, r.prog);
      SoloCompletes(a.base, Script(th.op), th.steps);
      CallCompletes(a.base, th.op.caller, th.op.call);
    }
  }

  lemma {:induction false} PassKeepsTables(k: Kernel, prog: Prog, n: nat)
    requires PassProg(prog)
    ensures PassProg(Solo(k, prog, n).prog) && SameTables(k, Solo(k, prog, n).k)
  {
    if n > 0 {
      PassKeepsTables(k, prog, n - 1);
      var r := Solo(k, prog, n - 1);
      if r.prog.Do? {
        ExecPassProg(r.prog.micro, r.k, r.prog.rest);
        PassMicroFrame(r.prog.micro, r.k, r.prog.rest);
      }
    }
  }

  /** Passes under way or not, the memory is that of the record without them. */
  lemma PassesUnseen(c: Config, a: Audit)
    requires Linked(c, a)
    ensures SameTables(a.mid, c.k)
  {
    if t :| 0 <= t < |c.threads| && PassUnderWay(c.threads[t]) {
      var th := c.threads[t];
      assert ThreadOk(a, c.k, th);
      PassKeepsTables(a.mid, Script(SchedulerRun), th.steps);
    } else {
      assert c.k == a.mid;
    }
  }

  /**
    In every reachable state in which no writer holds the memory lock, region table and lists are those of a
    sequential run: of the recorded sequence, or of that sequence with the call under way added.
   */
  lemma SeenUnderMemLock(todos: seq<seq<Op>>, ts: seq<nat>) returns (es: seq<Event>)
    requires Schedule(Start(BOOT, todos), ts) && NoWriter(RunThreads(Start(BOOT, todos), ts), MemLock)
    ensures var c, done := RunThreads(Start(BOOT, todos), ts), EventsOf(LogAfter(BOOT, todos, ts));
      && (es == done || exists t :: 0 <= t < |c.threads| && CallUnderWay(c.threads[t])
                                    && es == done + EventOf(c.threads[t].op))
      && SameTables(Run(BOOT, es), c.k)
  {
    var c := RunThreads(Start(BOOT, todos), ts);
    var a := RecordOf(todos, ts);
    var done := EventsOf(LogAfter(BOOT, todos, ts));
    es := done;
    PassesUnseen(c, a);
    if t :| 0 <= t < |c.threads| && CallUnderWay(c.threads[t]) {
      var th := c.threads[t];
      assert ThreadOk(a, c.k, th) && Disciplined(th.prog, th.held);
      CallSeen(a, c.k, th);
      if !SameTables(a.base, a.mid) {
        es := done + EventOf(th.op);
        RunConcat(BOOT, done, EventOf(th.op));
        OneEvent(a.base, th.op);
      }
    } else {
      assert a.mid == a.base;
    }
  }

  /**
    So what a memory report shows of a process, at any time: distinct live regions of that process, sorted by address
    in the one stable way, and overlapping only where the later one is a mapping.
   */
  lemma MemoryReports(todos: seq<seq<Op>>, ts: seq<nat>, es: seq<Event>, p: Pid)
    requires Schedule(Start(BOOT, todos), ts) && FreshIds(BOOT, es)
    requires SameTables(Run(BOOT, es), RunThreads(Start(BOOT, todos), ts).k)
    ensures var k := RunThreads(Start(BOOT, todos), ts).k;
      && Listed(k) && AddressOrder(k)
      && StableOrder.IsStableSort(StartOf(k.regions), Get(k.memory, p), MemoryMapOf(k, p))
      && ((forall id :: id in Get(k.memory, p) && id in k.regions ==> !k.regions[id].IsMapping()) ==>
            MemoryMapOf(k, p) == Get(k.memory, p))
  {
    KernelSafety(es);
    var j := Run(BOOT, es);
    MemoryMapIsStableSort(j, p);
    if forall id :: id in Get(j.memory, p) && id in j.regions ==> !j.regions[id].IsMapping() {
      CreationOrder(j, p);
    }
  }
}
