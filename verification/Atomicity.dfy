/**
  Atomicity of the Python kernel: whatever the interleaving of single statements of any number of threads, the kernel
  ends in the state, and every call gets the reply, of some sequence of whole calls and whole scheduler passes.

  An operation takes effect at its last statement. Until then the statements of a call that run outside the proc lock
  commute with those of a pass; a call that has entered the proc lock excludes passes.
 */
module Atomicity {
  import opened Options
  import opened KernelModel
  import opened Threads
  import opened SoloRuns

  // ---- statements outside the proc lock commute with a pass ----

  /** What a pass may change: the queue, and states and counters of processes. */
  ghost predicate PassFrame(k: Kernel, j: Kernel) {
    && j == k.(ready := j.ready, processes := j.processes)
    && j.processes.Keys == k.processes.Keys
    && forall p :: p in k.processes ==> j.processes[p].usage == k.processes[p].usage
  }

  lemma PassMicroFrame(q: Micro, k: Kernel, rest: Prog)
    requires IsPass(q)
    ensures PassFrame(k, Exec(q, k, rest).k)
  {
    match q
    case PassPop =>
    case PassMark(pid) =>
    case PassExecute(pid) =>
    case PassRequeue(pid) =>
  }

  lemma SchedulerPassFrame(k: Kernel)
    ensures PassFrame(k, SchedulerPass(k))
  {
  }

  /** Such a statement, Charge excepted, neither reads nor writes what a pass changes. */
  ghost predicate Ignores(m: Micro, k: Kernel, j: Kernel, rest: Prog) {
    var e, f := Exec(m, k, rest), Exec(m, j, rest);
    f == Effect(e.k.(ready := j.ready, processes := j.processes), e.prog, e.out)
    && e.k.processes == k.processes && e.k.ready == k.ready
  }

  lemma IgnoresPass(m: Micro, k: Kernel, j: Kernel, rest: Prog)
    requires NonProc(m) && !m.Charge? && PassFrame(k, j)
    ensures Ignores(m, k, j, rest)
  {
    if IsEntry(m) {
      EntryIgnores(m, k, j, rest);
    } else if m.Post? || m.Reject? {
      MailIgnores(m, k, j, rest);
    } else if m.ReceiveEnter? {
      ReceiveIgnores(m, k, j, rest);
    } else if m.PutRegion? || m.DropRegion? {
      RegionUpdateIgnores(m, k, j, rest);
    } else {
      ListUpdateIgnores(m, k, j, rest);
    }
  }

  lemma EntryIgnores(m: Micro, k: Kernel, j: Kernel, rest: Prog)
    requires IsEntry(m) && PassFrame(k, j)
    ensures Ignores(m, k, j, rest)
  {
    assert Continue(m, k, rest) == Continue(m, j, rest);
    assert Refusal(m, k) == Refusal(m, j);
  }

  lemma RegionUpdateIgnores(m: Micro, k: Kernel, j: Kernel, rest: Prog)
    requires (m.PutRegion? || m.DropRegion?) && PassFrame(k, j)
    ensures Ignores(m, k, j, rest)
  {
  }

  lemma ListUpdateIgnores(m: Micro, k: Kernel, j: Kernel, rest: Prog)
    requires (m.ListRegion? || m.UnlistRegion?) && PassFrame(k, j)
    ensures Ignores(m, k, j, rest)
  {
  }

  lemma MailIgnores(m: Micro, k: Kernel, j: Kernel, rest: Prog)
    requires (m.Post? || m.Reject?) && PassFrame(k, j)
    ensures Ignores(m, k, j, rest)
  {
    if m.Post? {
      assert Enqueue(j, m.message) == Enqueue(k, m.message).(ready := j.ready, processes := j.processes);
    }
  }

  lemma ReceiveIgnores(m: Micro, k: Kernel, j: Kernel, rest: Prog)
    requires m.ReceiveEnter? && PassFrame(k, j)
    ensures Ignores(m, k, j, rest)
  {
    assert Get(k.mail, m.caller) == Get(j.mail, m.caller);
    assert Continue(m, k, rest) == Continue(m, j, rest);
  }

  /** A pass statement reads only the queue and the process table. */
  ghost predicate ReadsSame(q: Micro, k: Kernel, j: Kernel, rest: Prog) {
    var e := Exec(q, k, rest);
    Exec(q, j, rest) == Effect(e.k.(regions := j.regions, memory := j.memory, mail := j.mail), e.prog, e.out)
  }

  lemma PassReads(q: Micro, k: Kernel, j: Kernel, rest: Prog)
    requires IsPass(q) && j == k.(regions := j.regions, memory := j.memory, mail := j.mail)
    ensures ReadsSame(q, k, j, rest)
  {
    match q
    case PassPop => PopReads(k, j, rest);
    case PassMark(_) =>
    case PassExecute(_) =>
    case PassRequeue(_) =>
  }

  lemma PopReads(k: Kernel, j: Kernel, rest: Prog)
    requires j == k.(regions := j.regions, memory := j.memory, mail := j.mail)
    ensures ReadsSame(PassPop, k, j, rest)
  {
    assert Continue(PassPop, k, rest) == Continue(PassPop, j, rest);
  }

  ghost predicate Stays(m: Micro, k: Kernel, rest: Prog) {
    var j := Exec(m, k, rest).k; j == k.(regions := j.regions, memory := j.memory, mail := j.mail)
  }

  lemma StaysInMemoryAndMail(m: Micro, k: Kernel, rest: Prog)
    requires NonProc(m) && !m.Charge?
    ensures Stays(m, k, rest)
  {
    if m.PutRegion? || m.ListRegion? || m.UnlistRegion? || m.DropRegion? {
      StaysInMemory(m, k, rest);
    } else if m.Post? || m.ReceiveEnter? {
      StaysInMail(m, k, rest);
    } else {
      EntryStays(m, k, rest);
    }
  }

  lemma EntryStays(m: Micro, k: Kernel, rest: Prog)
    requires IsEntry(m) || m.Reject?
    ensures Stays(m, k, rest)
  {
    assert Exec(m, k, rest).k == k;
  }

  lemma StaysInMemory(m: Micro, k: Kernel, rest: Prog)
    requires m.PutRegion? || m.ListRegion? || m.UnlistRegion? || m.DropRegion?
    ensures Stays(m, k, rest)
  {
  }

  lemma StaysInMail(m: Micro, k: Kernel, rest: Prog)
    requires m.Post? || m.ReceiveEnter?
    ensures Stays(m, k, rest)
  {
  }

  ghost predicate Commutes(m: Micro, q: Micro, k: Kernel, rm: Prog, rq: Prog) {
    var em, eq := Exec(m, k, rm), Exec(q, k, rq);
    var j := Exec(q, em.k, rq).k;
    && Exec(m, eq.k, rm) == Effect(j, em.prog, em.out)
    && Exec(q, em.k, rq) == Effect(j, eq.prog, eq.out)
  }

  // Updates of two different fields of process records, as functions on the process table.

  function Scheduled(procs: map<Pid, Proc>, pid: Pid, state: ProcState, runtime: real, switches: nat): map<Pid, Proc> {
    if pid in procs then procs[pid := procs[pid].(state := state, runtime := runtime, switches := switches)] else procs
  }

  lemma FieldsCommute(procs: map<Pid, Proc>, p: Pid, amount: int,
                      pid: Pid, state: ProcState, runtime: real, switches: nat)
    ensures Scheduled(Recharged(procs, p, amount), pid, state, runtime, switches)
         == Recharged(Scheduled(procs, pid, state, runtime, switches), p, amount)
  {
    if p in procs && pid in procs && p != pid {
      var x := procs[p].(usage := procs[p].usage + amount);
      var y := procs[pid].(state := state, runtime := runtime, switches := switches);
      assert procs[p := x][pid := y] == procs[pid := y][p := x];
    }
  }

  lemma RechargedKeeps(procs: map<Pid, Proc>, p: Pid, amount: int, pid: Pid)
    ensures Recharged(procs, p, amount).Keys == procs.Keys
    ensures pid in procs ==>
      Recharged(procs, p, amount)[pid] == procs[pid].(usage := Recharged(procs, p, amount)[pid].usage)
  {
  }

  lemma AddUsageIsRecharged(k: Kernel, p: Pid, amount: int)
    ensures AddUsage(k, p, amount) == k.(processes := Recharged(k.processes, p, amount))
  {
  }

  /** Each pass statement as an update of queue and scheduling fields. */
  lemma StatementIsScheduled(q: Micro, k: Kernel, rq: Prog)
    requires q.PassMark? || q.PassExecute? || q.PassRequeue?
    ensures var e := Exec(q, k, rq);
      if q.pid !in k.processes || (q.PassRequeue? && k.processes[q.pid].state != Running) then e.k == k
      else
        var p := k.processes[q.pid];
        e.k == k.(ready := if q.PassRequeue? then k.ready + [q.pid] else k.ready,
                  processes := Scheduled(k.processes, q.pid,
                                         if q.PassMark? then Running else if q.PassRequeue? then Ready else p.state,
                                         if q.PassExecute? then p.runtime + TIME_SLICE else p.runtime,
                                         if q.PassExecute? then p.switches + 1 else p.switches))
  {
  }

  lemma ChargeAndStatement(m: Micro, q: Micro, k: Kernel, rm: Prog, rq: Prog)
    requires m.Charge? && (q.PassMark? || q.PassExecute? || q.PassRequeue?)
    ensures Exec(q, Exec(m, k, rm).k, rq).k == Exec(m, Exec(q, k, rq).k, rm).k
  {
    var k1, k2 := Exec(m, k, rm).k, Exec(q, k, rq).k;
    AddUsageIsRecharged(k, m.caller, m.amount);
    AddUsageIsRecharged(k2, m.caller, m.amount);
    StatementIsScheduled(q, k, rq);
    StatementIsScheduled(q, k1, rq);
    RechargedKeeps(k.processes, m.caller, m.amount, q.pid);
    if q.pid in k.processes {
      var p := k.processes[q.pid];
      FieldsCommute(k.processes, m.caller, m.amount, q.pid,
                    if q.PassMark? then Running else if q.PassRequeue? then Ready else p.state,
                    if q.PassExecute? then p.runtime + TIME_SLICE else p.runtime,
                    if q.PassExecute? then p.switches + 1 else p.switches);
    }
  }

  lemma PopIgnoresRecords(k: Kernel, procs: map<Pid, Proc>, rq: Prog)
    requires procs.Keys == k.processes.Keys
    ensures var e := Exec(PassPop, k, rq);
      Exec(PassPop, k.(processes := procs), rq) == Effect(e.k.(processes := procs), e.prog, e.out)
      && e.k.processes == k.processes
  {
    assert Continue(PassPop, k, rq) == Continue(PassPop, k.(processes := procs), rq);
  }

  lemma ChargeAndPop(m: Micro, k: Kernel, rm: Prog, rq: Prog)
    requires m.Charge?
    ensures Commutes(m, PassPop, k, rm, rq)
  {
    var k2 := Exec(PassPop, k, rq).k;
    AddUsageIsRecharged(k, m.caller, m.amount);
    AddUsageIsRecharged(k2, m.caller, m.amount);
    RechargedKeeps(k.processes, m.caller, m.amount, 0);
    PopIgnoresRecords(k, Recharged(k.processes, m.caller, m.amount), rq);
  }

  /** Usage and scheduling are different fields of the same record. */
  lemma ChargeCommutes(m: Micro, q: Micro, k: Kernel, rm: Prog, rq: Prog)
    requires m.Charge? && IsPass(q)
    ensures Commutes(m, q, k, rm, rq)
  {
    if q.PassPop? {
      ChargeAndPop(m, k, rm, rq);
    } else {
      ChargeAndStatement(m, q, k, rm, rq);
      StraightOn(m, q, k, Exec(q, k, rq).k, rm, rq);
      StraightOn(m, q, Exec(m, k, rm).k, k, rm, rq);
    }
  }

  /** These statements go on alike, with the same reply, from any two kernels. */
  lemma StraightOn(m: Micro, q: Micro, k: Kernel, j: Kernel, rm: Prog, rq: Prog)
    requires m.Charge? && (q.PassMark? || q.PassExecute? || q.PassRequeue?)
    ensures Exec(m, j, rm).prog == Exec(m, k, rm).prog && Exec(m, j, rm).out == Exec(m, k, rm).out
    ensures Exec(q, k, rq).prog == Exec(q, j, rq).prog && Exec(q, k, rq).out == Exec(q, j, rq).out
  {
  }

  lemma StatementsCommute(m: Micro, q: Micro, k: Kernel, rm: Prog, rq: Prog)
    requires NonProc(m) && IsPass(q)
    ensures Commutes(m, q, k, rm, rq)
  {
    if m.Charge? {
      ChargeCommutes(m, q, k, rm, rq);
    } else {
      PassMicroFrame(q, k, rq);
      IgnoresPass(m, k, Exec(q, k, rq).k, rm);
      StaysInMemoryAndMail(m, k, rm);
      PassReads(q, k, Exec(m, k, rm).k, rq);
    }
  }

  lemma PassIsScheduled(k: Kernel)
    requires k.ready != [] && k.ready[0] in k.processes
    ensures var pid := k.ready[0]; var p := k.processes[pid];
      SchedulerPass(k) == k.(ready := k.ready[1..] + [pid],
                             processes := Scheduled(k.processes, pid, Ready, p.runtime + TIME_SLICE, p.switches + 1))
  {
  }

  lemma ChargeAndDispatch(k: Kernel, k1: Kernel, p: Pid, amount: int)
    requires k.ready != [] && k.ready[0] in k.processes && k1 == k.(processes := Recharged(k.processes, p, amount))
    ensures SchedulerPass(k1) == SchedulerPass(k).(processes := Recharged(SchedulerPass(k).processes, p, amount))
  {
    var pid, proc := k.ready[0], k.processes[k.ready[0]];
    RechargedKeeps(k.processes, p, amount, pid);
    PassIsScheduled(k);
    PassIsScheduled(k1);
    FieldsCommute(k.processes, p, amount, pid, Ready, proc.runtime + TIME_SLICE, proc.switches + 1);
  }

  lemma ChargeAndPass(k: Kernel, p: Pid, amount: int)
    ensures SchedulerPass(AddUsage(k, p, amount)) == AddUsage(SchedulerPass(k), p, amount)
  {
    var k1 := k.(processes := Recharged(k.processes, p, amount));
    AddUsageIsRecharged(k, p, amount);
    AddUsageIsRecharged(SchedulerPass(k), p, amount);
    RechargedKeeps(k.processes, p, amount, 0);
    if k.ready != [] && k.ready[0] in k.processes {
      ChargeAndDispatch(k, k1, p, amount);
    } else {
      assert SchedulerPass(k).processes == k.processes;
    }
  }

  lemma PassIgnoresRest(k: Kernel, j: Kernel)
    requires j == k.(regions := j.regions, memory := j.memory, mail := j.mail)
    ensures SchedulerPass(j) == SchedulerPass(k).(regions := j.regions, memory := j.memory, mail := j.mail)
  {
  }

  /** The same for a whole pass. */
  lemma PassCommutes(m: Micro, k: Kernel, rest: Prog)
    requires NonProc(m)
    ensures var e := Exec(m, k, rest);
      Exec(m, SchedulerPass(k), rest) == Effect(SchedulerPass(e.k), e.prog, e.out)
  {
    if m.Charge? {
      ChargeAndPass(k, m.caller, m.amount);
    } else {
      SchedulerPassFrame(k);
      IgnoresPass(m, k, SchedulerPass(k), rest);
      StaysInMemoryAndMail(m, k, rest);
      PassIgnoresRest(k, Exec(m, k, rest).k);
    }
  }

  // ---- prefixes of runs ----

  predicate PassProg(prog: Prog) {
    match prog
    case End => true
    case Acq(_, rest) => PassProg(rest)
    case Rel(_, rest) => PassProg(rest)
    case Do(q, rest) => IsPass(q) && PassProg(rest)
  }

  lemma ExecPassProg(q: Micro, k: Kernel, rest: Prog)
    requires IsPass(q) && PassProg(rest)
    ensures PassProg(Exec(q, k, rest).prog)
  {
    ExecReply(q, k, rest);
    if q.PassPop? {
      var p := Continue(q, k, rest);
      assert PassProg(p.rest.rest) && PassProg(p.rest);
    }
  }

  /** A statement of a call may be moved behind the part of a pass that is already done. */
  lemma {:induction false} MovesBehindPass(m: Micro, rm: Prog, k: Kernel, prog: Prog, n: nat)
    requires NonProc(m) && PassProg(prog)
    ensures var e, r := Exec(m, k, rm), Solo(k, prog, n);
      && PassProg(r.prog)
      && Exec(m, r.k, rm).prog == e.prog && Exec(m, r.k, rm).out == e.out
      && Solo(e.k, prog, n) == r.(k := Exec(m, r.k, rm).k)
  {
    if n > 0 {
      MovesBehindPass(m, rm, k, prog, n - 1);
      var r := Solo(k, prog, n - 1);
      if r.prog.Do? {
        StatementsCommute(m, r.prog.micro, r.k, rm, r.prog.rest);
        ExecPassProg(r.prog.micro, r.k, r.prog.rest);
      }
    }
  }

  /** A whole pass may be moved before the part of a call already done, if that part was outside the proc lock. */
  lemma {:induction false} PassMovesBefore(k: Kernel, prog: Prog, n: nat)
    requires !Solo(k, prog, n).entered
    ensures Solo(SchedulerPass(k), prog, n) == Solo(k, prog, n).(k := SchedulerPass(Solo(k, prog, n).k))
  {
    if n > 0 {
      var r := Solo(k, prog, n - 1);
      PassMovesBefore(k, prog, n - 1);
      if r.prog.Do? {
        PassCommutes(r.prog.micro, r.k, r.prog.rest);
      }
    }
  }

  // ---- the record of a run ----

  datatype Entry = Entry(thread: nat, op: Op, out: Outcome)

  /**
    `log`: the operations in the order they took effect. `base`: the kernel after exactly those. `mid`: the same, with
    the statements of the call under way added, but not those of a pass under way.
   */
  datatype Audit = Audit(base: Kernel, mid: Kernel, log: seq<Entry>)

  function AuditStep(c: Config, a: Audit, t: nat): Audit
    requires t < |c.threads|
  {
    var th := c.threads[t];
    if !th.prog.Do? then a
    else
      var m, rest := th.prog.micro, th.prog.rest;
      var e := Exec(m, c.k, rest);
      var mid := Exec(m, a.mid, rest).k;
      Audit(if e.out.None? then a.base else if th.op.Sys? then mid else SchedulerPass(a.base),
            if th.op.Sys? then mid else if e.out.Some? then e.k else a.mid,
            if e.out.Some? then a.log + [Entry(t, th.op, e.out.value)] else a.log)
  }

  function AuditRun(c: Config, a: Audit, ts: seq<nat>): Audit
    requires Schedule(c, ts)
    decreases |ts|
  {
    if ts == [] then a else AuditRun(Next(c, ts[0]), AuditStep(c, a, ts[0]), ts[1..])
  }

  /** One operation as an atomic step. */
  function Atomic(k: Kernel, op: Op): Reply {
    match op
    case Sys(caller, call) => Invoke(k, caller, call)
    case SchedulerRun => Reply(SchedulerPass(k), Ok(Nothing))
    case Query(_) => Reply(k, Ok(Nothing))
  }

  function Replay(k: Kernel, log: seq<Entry>): Kernel {
    if log == [] then k else Atomic(Replay(k, log[..|log| - 1]), log[|log| - 1].op).k
  }

  /** Every recorded reply is the one its operation gets at that place of the sequence. */
  ghost predicate Faithful(k: Kernel, log: seq<Entry>) {
    forall i :: 0 <= i < |log| ==> log[i].out == Atomic(Replay(k, log[..i]), log[i].op).out
  }

  // ---- the invariant ----

  predicate Open(th: Thread) { th.out.None? }

  predicate CallUnderWay(th: Thread) { Open(th) && th.op.Sys? && th.held.Has(SyscallLock) }

  predicate PassUnderWay(th: Thread) { Open(th) && th.op.SchedulerRun? && th.held.Has(ProcLock) }

  ghost predicate ThreadOk(a: Audit, k: Kernel, th: Thread) {
    && Shaped(th.prog) && (th.out.Some? <==> NoDo(th.prog))
    && (Open(th) ==> !th.op.Query?)
    && (CallUnderWay(th) ==> CallAt(a, th))
    && (PassUnderWay(th) ==> PassAt(a, k, th))
    && (Open(th) && !CallUnderWay(th) && !PassUnderWay(th) ==> th.prog == Script(th.op) && th.steps == 0)
  }

  ghost predicate CallAt(a: Audit, th: Thread) {
    var r := Solo(a.base, Script(th.op), th.steps);
    r.k == a.mid && r.prog == th.prog && r.out.None? && (r.entered ==> th.held.Has(ProcLock))
  }

  ghost predicate PassAt(a: Audit, k: Kernel, th: Thread) {
    var r := Solo(a.mid, Script(SchedulerRun), th.steps);
    r.k == k && r.prog == th.prog && r.out.None?
  }

  ghost predicate Quiet(c: Config, a: Audit) {
    && ((forall t :: 0 <= t < |c.threads| ==> !CallUnderWay(c.threads[t])) ==> a.mid == a.base)
    && ((forall t :: 0 <= t < |c.threads| ==> !PassUnderWay(c.threads[t])) ==> c.k == a.mid)
  }

  ghost predicate Linked(c: Config, a: Audit) {
    && LocksOk(c)
    && (forall t :: 0 <= t < |c.threads| ==> ThreadOk(a, c.k, c.threads[t]))
    && Quiet(c, a)
  }

  /** A thread whose call holds the system call lock is the only one with a call under way; likewise for passes. */
  lemma OnlyOne(c: Config, t: nat, u: nat)
    requires LocksOk(c) && t < |c.threads| && u < |c.threads| && t != u
    ensures !(c.threads[t].held.Has(SyscallLock) && CallUnderWay(c.threads[u]))
    ensures !(c.threads[t].held.Has(ProcLock) && PassUnderWay(c.threads[u]))
  {
  }

  lemma BeginLinked(c: Config, a: Audit, t: nat)
    requires Linked(c, a) && Enabled(c, t) && c.threads[t].prog == End
    ensures Linked(Next(c, t), a)
  {
    LocksKept(c, t);
    var th, d := c.threads[t], Next(c, t);
    ScriptShaped(th.todo[0]);
    assert th.held == NoLocks && th.out.Some?;
    SameUnderWay(c, a, d, t);
  }

  /** A step that leaves kernel and record alone, and starts or ends nothing in thread t, disturbs nobody. */
  lemma SameUnderWay(c: Config, a: Audit, d: Config, t: nat)
    requires Linked(c, a) && t < |c.threads| == |d.threads| && LocksOk(d)
    requires d == Config(c.k, c.threads[t := d.threads[t]])
    requires ThreadOk(a, c.k, d.threads[t])
    requires CallUnderWay(d.threads[t]) == CallUnderWay(c.threads[t])
    requires PassUnderWay(d.threads[t]) == PassUnderWay(c.threads[t])
    ensures Linked(d, a)
  {
    forall u | 0 <= u < |d.threads|
      ensures ThreadOk(a, d.k, d.threads[u])
      ensures CallUnderWay(d.threads[u]) == CallUnderWay(c.threads[u])
      ensures PassUnderWay(d.threads[u]) == PassUnderWay(c.threads[u])
    {
      assert u != t ==> d.threads[u] == c.threads[u];
    }
  }

  /** Taking a lock. A call begins to be under way with the system call lock, a pass with the proc lock. */
  lemma AcqLinked(c: Config, a: Audit, t: nat)
    requires Linked(c, a) && Enabled(c, t) && c.threads[t].prog.Acq?
    ensures Linked(Next(c, t), a)
  {
    LocksKept(c, t);
    var th, d := c.threads[t], Next(c, t);
    var th' := d.threads[t];
    assert ThreadOk(a, c.k, th);
    if Open(th) && !CallUnderWay(th) && !PassUnderWay(th) {
      EntryLinked(c, a, d, t);
    } else {
      AcquireOk(a, c.k, th);
      SameUnderWay(c, a, d, t);
    }
  }

  lemma AcquireOk(a: Audit, k: Kernel, th: Thread)
    requires ThreadOk(a, k, th) && th.prog.Acq? && (Open(th) ==> CallUnderWay(th) || PassUnderWay(th))
    ensures var th' := StepThread(th, k);
      ThreadOk(a, k, th') && CallUnderWay(th') == CallUnderWay(th) && PassUnderWay(th') == PassUnderWay(th)
  {
    if Open(th) {
      assert Solo(a.base, Script(th.op), th.steps + 1) == One(Solo(a.base, Script(th.op), th.steps));
      assert Solo(a.mid, Script(th.op), th.steps + 1) == One(Solo(a.mid, Script(th.op), th.steps));
    }
  }

  lemma EntryLinked(c: Config, a: Audit, d: Config, t: nat)
    requires Linked(c, a) && Enabled(c, t) && c.threads[t].prog.Acq? && d == Next(c, t) && LocksOk(d)
    requires Open(c.threads[t]) && !CallUnderWay(c.threads[t]) && !PassUnderWay(c.threads[t])
    ensures Linked(d, a)
  {
    var th, th' := c.threads[t], d.threads[t];
    assert ThreadOk(a, c.k, th);
    forall u | 0 <= u < |c.threads| && u != t
      ensures d.threads[u] == c.threads[u] && ThreadOk(a, c.k, c.threads[u])
      ensures th.op.Sys? ==> !CallUnderWay(c.threads[u])
      ensures th.op.SchedulerRun? ==> !PassUnderWay(c.threads[u])
    {
      OnlyOne(d, t, u);
    }
    assert th.op.Sys? ==> a.mid == a.base;
    assert th.op.SchedulerRun? ==> c.k == a.mid;
    var k0 := if th.op.Sys? then a.base else a.mid;
    assert Solo(k0, Script(th.op), 1) == One(Solo(k0, Script(th.op), 0));
    assert ThreadOk(a, d.k, th');
  }

  /** Releasing a lock never ends what is under way: by then the reply has been decided. */
  lemma RelLinked(c: Config, a: Audit, t: nat)
    requires Linked(c, a) && Enabled(c, t) && c.threads[t].prog.Rel?
    ensures Linked(Next(c, t), a)
  {
    LocksKept(c, t);
    ReleaseOk(a, c.k, c.threads[t]);
    SameUnderWay(c, a, Next(c, t), t);
  }

  lemma ReleaseOk(a: Audit, k: Kernel, th: Thread)
    requires ThreadOk(a, k, th) && th.prog.Rel? && Disciplined(th.prog, th.held)
    ensures var th' := StepThread(th, k);
      ThreadOk(a, k, th') && CallUnderWay(th') == CallUnderWay(th) && PassUnderWay(th') == PassUnderWay(th)
  {
    assert th.prog != Script(th.op);
    if Open(th) {
      assert Solo(a.base, Script(th.op), th.steps + 1) == One(Solo(a.base, Script(th.op), th.steps));
      assert Solo(a.mid, Script(th.op), th.steps + 1) == One(Solo(a.mid, Script(th.op), th.steps));
    }
  }

  // ---- a statement of a call ----

  /** Facts about the thread that is about to execute a statement of a call. */
  lemma CallStatement(c: Config, a: Audit, t: nat)
    requires Linked(c, a) && t < |c.threads| && c.threads[t].prog.Do? && c.threads[t].op.Sys?
    ensures var th := c.threads[t];
      && CallUnderWay(th) && CallAt(a, th) && Shaped(th.prog)
      && (!NonProc(th.prog.micro) ==> th.held.Has(ProcLock))
      && Solo(a.base, Script(th.op), th.steps + 1) == One(Solo(a.base, Script(th.op), th.steps))
  {
    var th := c.threads[t];
    assert ThreadOk(a, c.k, th) && Disciplined(th.prog, th.held);
  }

  /** Seen from the kernel without the pass under way, the statement does the same. */
  lemma SameFromMid(c: Config, a: Audit, t: nat)
    requires Linked(c, a) && t < |c.threads| && c.threads[t].prog.Do? && c.threads[t].op.Sys?
    ensures var m, rest := c.threads[t].prog.micro, c.threads[t].prog.rest;
      var e, em := Exec(m, c.k, rest), Exec(m, a.mid, rest);
      && e.prog == em.prog && e.out == em.out
      && ((forall u :: 0 <= u < |c.threads| ==> !PassUnderWay(c.threads[u])) ==> e.k == em.k)
      && forall u :: 0 <= u < |c.threads| && PassUnderWay(c.threads[u]) ==> PassAt(a.(mid := em.k), e.k, c.threads[u])
  {
    CallStatement(c, a, t);
    var m, rest := c.threads[t].prog.micro, c.threads[t].prog.rest;
    var e, em := Exec(m, c.k, rest), Exec(m, a.mid, rest);
    forall u | 0 <= u < |c.threads| && PassUnderWay(c.threads[u])
      ensures e.prog == em.prog && e.out == em.out && PassAt(a.(mid := em.k), e.k, c.threads[u])
    {
      assert ThreadOk(a, c.k, c.threads[u]);
      OnlyOne(c, t, u);
      MovesBehindPass(m, rest, a.mid, Script(SchedulerRun), c.threads[u].steps);
    }
  }

  lemma CallerOk(c: Config, a: Audit, t: nat)
    requires Linked(c, a) && Enabled(c, t) && c.threads[t].prog.Do? && c.threads[t].op.Sys?
    ensures var d, b := Next(c, t), AuditStep(c, a, t);
      && ThreadOk(b, d.k, d.threads[t]) && !PassUnderWay(d.threads[t])
      && (Open(d.threads[t]) ==> CallUnderWay(d.threads[t])) && (!Open(d.threads[t]) ==> b.base == b.mid)
  {
    CallStatement(c, a, t);
    CallerAt(c, a, t);
    var th := c.threads[t];
    ExecShaped(th.prog.micro, c.k, th.prog.rest);
  }

  lemma CallerAt(c: Config, a: Audit, t: nat)
    requires Linked(c, a) && Enabled(c, t) && c.threads[t].prog.Do? && c.threads[t].op.Sys?
    ensures var d, b := Next(c, t), AuditStep(c, a, t);
      if Open(d.threads[t]) then CallAt(b, d.threads[t]) else b.base == b.mid
  {
    CallStatement(c, a, t);
    SameAnswer(c, a, t);
    AuditOfCall(c, a, t);
    var th := c.threads[t];
    var e := Exec(th.prog.micro, c.k, th.prog.rest);
    if e.out.None? {
      AdvanceAt(a, AuditStep(c, a, t), th, e);
    }
  }

  lemma AdvanceAt(a: Audit, b: Audit, th: Thread, e: Effect)
    requires CallAt(a, th) && th.out.None? && th.prog.Do? && (!NonProc(th.prog.micro) ==> th.held.Has(ProcLock))
    requires var em := Exec(th.prog.micro, a.mid, th.prog.rest);
      e.out.None? && em.out.None? && e.prog == em.prog && b.mid == em.k && b.base == a.base
    ensures CallAt(b, Advance(th, e))
  {
    var r := Solo(a.base, Script(th.op), th.steps);
    assert Solo(a.base, Script(th.op), th.steps + 1) == One(r);
    OneDo(r);
  }

  lemma AuditOfCall(c: Config, a: Audit, t: nat)
    requires Enabled(c, t) && c.threads[t].prog.Do? && c.threads[t].op.Sys?
    ensures var th, b := c.threads[t], AuditStep(c, a, t); var e := Exec(th.prog.micro, c.k, th.prog.rest);
      && b.mid == Exec(th.prog.micro, a.mid, th.prog.rest).k && b.base == (if e.out.Some? then b.mid else a.base)
      && Next(c, t).threads[t] == Advance(th, e)
  {
  }

  lemma SameAnswer(c: Config, a: Audit, t: nat)
    requires Linked(c, a) && t < |c.threads| && c.threads[t].prog.Do? && c.threads[t].op.Sys?
    ensures var m, rest := c.threads[t].prog.micro, c.threads[t].prog.rest;
      Exec(m, c.k, rest).prog == Exec(m, a.mid, rest).prog && Exec(m, c.k, rest).out == Exec(m, a.mid, rest).out
  {
    SameFromMid(c, a, t);
  }

  lemma OneDo(r: Trail)
    requires r.prog.Do? && r.out.None?
    ensures var e := Exec(r.prog.micro, r.k, r.prog.rest);
      One(r) == Trail(e.k, e.prog, e.out, r.entered || !NonProc(r.prog.micro))
  {
  }

  lemma CallSparesOthers(c: Config, a: Audit, t: nat, u: nat)
    requires Linked(c, a) && Enabled(c, t) && c.threads[t].prog.Do? && c.threads[t].op.Sys?
    requires u < |c.threads| && u != t
    ensures var d, b := Next(c, t), AuditStep(c, a, t);
      d.threads[u] == c.threads[u] && ThreadOk(b, d.k, d.threads[u]) && !CallUnderWay(d.threads[u])
  {
    CallStatement(c, a, t);
    SameFromMid(c, a, t);
    OnlyOne(c, t, u);
    assert ThreadOk(a, c.k, c.threads[u]);
  }

  lemma CallLinked(c: Config, a: Audit, t: nat)
    requires Linked(c, a) && Enabled(c, t) && c.threads[t].prog.Do? && c.threads[t].op.Sys?
    ensures Linked(Next(c, t), AuditStep(c, a, t))
  {
    LocksKept(c, t);
    CallerOk(c, a, t);
    var d, b := Next(c, t), AuditStep(c, a, t);
    forall u | 0 <= u < |c.threads|
      ensures ThreadOk(b, d.k, d.threads[u])
      ensures PassUnderWay(d.threads[u]) == PassUnderWay(c.threads[u])
    {
      if u != t { CallSparesOthers(c, a, t, u); }
    }
    CallQuiet(c, a, t);
  }

  lemma CallQuiet(c: Config, a: Audit, t: nat)
    requires Linked(c, a) && Enabled(c, t) && c.threads[t].prog.Do? && c.threads[t].op.Sys?
    ensures Quiet(Next(c, t), AuditStep(c, a, t))
  {
    CallerOk(c, a, t);
    SameFromMid(c, a, t);
    var d, b := Next(c, t), AuditStep(c, a, t);
    if forall u :: 0 <= u < |d.threads| ==> !PassUnderWay(d.threads[u]) {
      forall u | 0 <= u < |c.threads|
        ensures !PassUnderWay(c.threads[u])
      {
        if u == t { CallStatement(c, a, t); } else { assert d.threads[u] == c.threads[u]; }
      }
    }
  }

  /** When the statement decides the reply, the call has had its atomic effect on the record. */
  lemma CallTakesEffect(c: Config, a: Audit, t: nat)
    requires Linked(c, a) && Enabled(c, t) && c.threads[t].prog.Do? && c.threads[t].op.Sys?
    requires Exec(c.threads[t].prog.micro, c.k, c.threads[t].prog.rest).out.Some?
    ensures var th, b := c.threads[t], AuditStep(c, a, t);
      Reply(b.base, Exec(th.prog.micro, c.k, th.prog.rest).out.value) == Atomic(a.base, th.op)
  {
    CallStatement(c, a, t);
    SameFromMid(c, a, t);
    var th := c.threads[t];
    SoloCompletes(a.base, Script(th.op), th.steps);
    CallCompletes(a.base, th.op.caller, th.op.call);
    CompleteDo(a.mid, th.prog.micro, th.prog.rest);
  }

  // ---- a statement of a pass ----

  lemma PassStatement(c: Config, a: Audit, t: nat)
    requires Linked(c, a) && t < |c.threads| && c.threads[t].prog.Do? && c.threads[t].op.SchedulerRun?
    ensures var th := c.threads[t];
      && PassUnderWay(th) && PassAt(a, c.k, th) && Shaped(th.prog)
      && Solo(a.mid, Script(th.op), th.steps + 1) == One(Solo(a.mid, Script(th.op), th.steps))
      && (forall u :: 0 <= u < |c.threads| && CallUnderWay(c.threads[u]) ==>
            u != t && !Solo(a.base, Script(c.threads[u].op), c.threads[u].steps).entered)
  {
    var th := c.threads[t];
    assert ThreadOk(a, c.k, th) && Disciplined(th.prog, th.held);
    forall u | 0 <= u < |c.threads| && CallUnderWay(c.threads[u])
      ensures u != t && !Solo(a.base, Script(c.threads[u].op), c.threads[u].steps).entered
    {
      assert ThreadOk(a, c.k, c.threads[u]);
      OnlyOne(c, u, t);
    }
  }

  /** The last statement of a pass completes exactly one atomic pass. */
  lemma PassTakesEffect(c: Config, a: Audit, t: nat)
    requires Linked(c, a) && Enabled(c, t) && c.threads[t].prog.Do? && c.threads[t].op.SchedulerRun?
    requires Exec(c.threads[t].prog.micro, c.k, c.threads[t].prog.rest).out.Some?
    ensures var th := c.threads[t]; var e := Exec(th.prog.micro, c.k, th.prog.rest);
      e.k == SchedulerPass(a.mid) && e.out == Some(Ok(Nothing))
  {
    PassStatement(c, a, t);
    var th := c.threads[t];
    SoloCompletes(a.mid, Script(SchedulerRun), th.steps);
    PassCompletes(a.mid);
    CompleteDo(c.k, th.prog.micro, th.prog.rest);
  }

  lemma PassMidLinked(c: Config, a: Audit, t: nat)
    requires Linked(c, a) && Enabled(c, t) && c.threads[t].prog.Do? && c.threads[t].op.SchedulerRun?
    requires Exec(c.threads[t].prog.micro, c.k, c.threads[t].prog.rest).out.None?
    ensures Linked(Next(c, t), a)
  {
    LocksKept(c, t);
    PassStatement(c, a, t);
    var th, d := c.threads[t], Next(c, t);
    ExecShaped(th.prog.micro, c.k, th.prog.rest);
    forall u | 0 <= u < |c.threads|
      ensures ThreadOk(a, d.k, d.threads[u])
      ensures CallUnderWay(d.threads[u]) == CallUnderWay(c.threads[u])
    {
      assert ThreadOk(a, c.k, c.threads[u]);
      if u != t {
        OnlyOne(c, t, u);
        assert d.threads[u] == c.threads[u];
      }
    }
    assert PassUnderWay(d.threads[t]);
  }

  lemma PassEndLinked(c: Config, a: Audit, t: nat)
    requires Linked(c, a) && Enabled(c, t) && c.threads[t].prog.Do? && c.threads[t].op.SchedulerRun?
    requires Exec(c.threads[t].prog.micro, c.k, c.threads[t].prog.rest).out.Some?
    ensures Linked(Next(c, t), AuditStep(c, a, t))
  {
    LocksKept(c, t);
    PassStatement(c, a, t);
    PassTakesEffect(c, a, t);
    var th, d, b := c.threads[t], Next(c, t), AuditStep(c, a, t);
    ExecShaped(th.prog.micro, c.k, th.prog.rest);
    forall u | 0 <= u < |c.threads|
      ensures ThreadOk(b, d.k, d.threads[u])
      ensures CallUnderWay(d.threads[u]) == CallUnderWay(c.threads[u])
      ensures !PassUnderWay(d.threads[u])
    {
      assert ThreadOk(a, c.k, c.threads[u]);
      if u != t {
        OnlyOne(c, t, u);
        assert d.threads[u] == c.threads[u];
        if CallUnderWay(c.threads[u]) {
          PassMovesBefore(a.base, Script(c.threads[u].op), c.threads[u].steps);
        }
      }
    }
  }

  lemma StepLinked(c: Config, a: Audit, t: nat)
    requires Linked(c, a) && Enabled(c, t)
    ensures Linked(Next(c, t), AuditStep(c, a, t))
  {
    var th := c.threads[t];
    assert ThreadOk(a, c.k, th);
    match th.prog
    case End => BeginLinked(c, a, t);
    case Acq(_, _) => AcqLinked(c, a, t);
    case Rel(_, _) => RelLinked(c, a, t);
    case Do(m, rest) =>
      if th.op.Sys? {
        CallLinked(c, a, t);
      } else if Exec(m, c.k, rest).out.None? {
        PassMidLinked(c, a, t);
      } else {
        PassEndLinked(c, a, t);
      }
  }

  // ---- the log ----

  /** The operations of a list that do more than look. */
  function Effective(todo: seq<Op>): seq<Op> {
    if todo == [] then [] else (if todo[0].Query? then [] else [todo[0]]) + Effective(todo[1..])
  }

  function OpsOf(log: seq<Entry>, t: nat): seq<Op> {
    if log == [] then []
    else OpsOf(log[..|log| - 1], t) + if log[|log| - 1].thread == t then [log[|log| - 1].op] else []
  }

  function OutsOf(log: seq<Entry>, t: nat): seq<Outcome> {
    if log == [] then []
    else OutsOf(log[..|log| - 1], t) + if log[|log| - 1].thread == t then [log[|log| - 1].out] else []
  }

  /** The log holds, in order, what thread t has done so far, with the replies the thread has seen. */
  ghost predicate Logged(log: seq<Entry>, th: Thread, t: nat, todo: seq<Op>) {
    && OutsOf(log, t) == th.results
    && OpsOf(log, t) + (if Open(th) then [th.op] else []) + Effective(th.todo) == Effective(todo)
  }

  ghost predicate Recorded(k0: Kernel, c: Config, a: Audit, todos: seq<seq<Op>>) {
    && |c.threads| == |todos|
    && a.base == Replay(k0, a.log) && Faithful(k0, a.log)
    && forall t :: 0 <= t < |c.threads| ==> Logged(a.log, c.threads[t], t, todos[t])
  }

  lemma LogGrows(log: seq<Entry>, e: Entry, t: nat)
    ensures OpsOf(log + [e], t) == OpsOf(log, t) + if e.thread == t then [e.op] else []
    ensures OutsOf(log + [e], t) == OutsOf(log, t) + if e.thread == t then [e.out] else []
  {
    assert (log + [e])[..|log|] == log;
  }

  lemma ReplayGrows(k0: Kernel, log: seq<Entry>, e: Entry)
    requires Faithful(k0, log) && e.out == Atomic(Replay(k0, log), e.op).out
    ensures Replay(k0, log + [e]) == Atomic(Replay(k0, log), e.op).k && Faithful(k0, log + [e])
  {
    var log' := log + [e];
    assert log'[..|log|] == log;
    forall i | 0 <= i < |log'|
      ensures log'[i].out == Atomic(Replay(k0, log'[..i]), log'[i].op).out
    {
      if i < |log| {
        assert log'[..i] == log[..i];
        assert log[i].out == Atomic(Replay(k0, log[..i]), log[i].op).out;
      }
    }
  }

  /** What a step does to the part of the log that belongs to one thread. */
  lemma EffectLogged(c: Config, a: Audit, t: nat, u: nat, todo: seq<Op>)
    requires Linked(c, a) && Enabled(c, t) && c.threads[t].prog.Do? && u < |c.threads|
    requires Exec(c.threads[t].prog.micro, c.k, c.threads[t].prog.rest).out.Some?
    requires Logged(a.log, c.threads[u], u, todo)
    ensures Logged(AuditStep(c, a, t).log, Next(c, t).threads[u], u, todo)
  {
    StatementOpen(a, c.k, c.threads[t]);
    OpenEffectLogged(c, a, t, u, todo);
  }

  lemma OpenEffectLogged(c: Config, a: Audit, t: nat, u: nat, todo: seq<Op>)
    requires Enabled(c, t) && c.threads[t].prog.Do? && Open(c.threads[t]) && u < |c.threads|
    requires Exec(c.threads[t].prog.micro, c.k, c.threads[t].prog.rest).out.Some?
    requires Logged(a.log, c.threads[u], u, todo)
    ensures Logged(AuditStep(c, a, t).log, Next(c, t).threads[u], u, todo)
  {
    var th := c.threads[t];
    var e := Exec(th.prog.micro, c.k, th.prog.rest);
    AuditLog(c, a, t);
    if u == t {
      ReplyLogged(a.log, th, t, e, todo);
    } else {
      LogGrows(a.log, Entry(t, th.op, e.out.value), u);
    }
  }

  /** A thread with a statement to execute has no reply yet. */
  lemma StatementOpen(a: Audit, k: Kernel, th: Thread)
    requires ThreadOk(a, k, th) && th.prog.Do?
    ensures Open(th)
  {
  }

  lemma AuditLog(c: Config, a: Audit, t: nat)
    requires Enabled(c, t) && c.threads[t].prog.Do?
    ensures var th := c.threads[t]; var e := Exec(th.prog.micro, c.k, th.prog.rest);
      && AuditStep(c, a, t).log == a.log + (if e.out.Some? then [Entry(t, th.op, e.out.value)] else [])
      && Next(c, t).threads == c.threads[t := Advance(th, e)]
  {
  }

  lemma ReplyLogged(log: seq<Entry>, th: Thread, t: nat, e: Effect, todo: seq<Op>)
    requires Open(th) && e.out.Some? && Logged(log, th, t, todo)
    ensures Logged(log + [Entry(t, th.op, e.out.value)], Advance(th, e), t, todo)
  {
    LogGrows(log, Entry(t, th.op, e.out.value), t);
  }

  lemma EffectRecorded(k0: Kernel, c: Config, a: Audit, t: nat, todos: seq<seq<Op>>)
    requires Linked(c, a) && Recorded(k0, c, a, todos) && Enabled(c, t) && c.threads[t].prog.Do?
    requires Exec(c.threads[t].prog.micro, c.k, c.threads[t].prog.rest).out.Some?
    ensures Recorded(k0, Next(c, t), AuditStep(c, a, t), todos)
  {
    var th, d, b := c.threads[t], Next(c, t), AuditStep(c, a, t);
    assert ThreadOk(a, c.k, th);
    if th.op.Sys? {
      CallTakesEffect(c, a, t);
    } else {
      PassTakesEffect(c, a, t);
    }
    ReplayGrows(k0, a.log, Entry(t, th.op, Exec(th.prog.micro, c.k, th.prog.rest).out.value));
    forall u | 0 <= u < |c.threads|
      ensures Logged(b.log, d.threads[u], u, todos[u])
    {
      EffectLogged(c, a, t, u, todos[u]);
    }
  }

  lemma NoEffectLogged(c: Config, a: Audit, t: nat, todo: seq<Op>)
    requires Linked(c, a) && Enabled(c, t) && Logged(a.log, c.threads[t], t, todo)
    requires c.threads[t].prog.Do? ==> Exec(c.threads[t].prog.micro, c.k, c.threads[t].prog.rest).out.None?
    ensures Logged(a.log, Next(c, t).threads[t], t, todo)
  {
    var th := c.threads[t];
    assert Next(c, t).threads[t] == StepThread(th, c.k);
    if th.prog.Do? {
      AuditLog(c, a, t);
    } else if th.prog == End {
      DoneAtEnd(a, c.k, th);
      BegunLogged(a.log, th, t, todo);
    }
  }

  lemma DoneAtEnd(a: Audit, k: Kernel, th: Thread)
    requires ThreadOk(a, k, th) && th.prog == End
    ensures !Open(th)
  {
  }

  lemma BegunLogged(log: seq<Entry>, th: Thread, t: nat, todo: seq<Op>)
    requires !Open(th) && th.todo != [] && Logged(log, th, t, todo)
    ensures Logged(log, Begin(th), t, todo)
  {
  }

  lemma NoEffectOnLog(c: Config, a: Audit, t: nat)
    requires Linked(c, a) && Enabled(c, t)
    requires c.threads[t].prog.Do? ==> Exec(c.threads[t].prog.micro, c.k, c.threads[t].prog.rest).out.None?
    ensures AuditStep(c, a, t).log == a.log && AuditStep(c, a, t).base == a.base
  {
    if c.threads[t].prog.Do? && c.threads[t].op.Sys? { SameFromMid(c, a, t); }
  }

  lemma NoEffectRecorded(k0: Kernel, c: Config, a: Audit, t: nat, todos: seq<seq<Op>>)
    requires Linked(c, a) && Recorded(k0, c, a, todos) && Enabled(c, t)
    requires c.threads[t].prog.Do? ==> Exec(c.threads[t].prog.micro, c.k, c.threads[t].prog.rest).out.None?
    ensures Recorded(k0, Next(c, t), AuditStep(c, a, t), todos)
  {
    NoEffectOnLog(c, a, t);
    var d := Next(c, t);
    forall u | 0 <= u < |c.threads|
      ensures Logged(a.log, d.threads[u], u, todos[u])
    {
      assert Logged(a.log, c.threads[u], u, todos[u]);
      if u == t { NoEffectLogged(c, a, t, todos[t]); }
    }
  }

  lemma {:induction false} RunsAreRecorded(k0: Kernel, c: Config, a: Audit, ts: seq<nat>, todos: seq<seq<Op>>)
    requires Linked(c, a) && Recorded(k0, c, a, todos) && Schedule(c, ts)
    ensures Linked(RunThreads(c, ts), AuditRun(c, a, ts))
    ensures Recorded(k0, RunThreads(c, ts), AuditRun(c, a, ts), todos)
    decreases |ts|
  {
    if ts != [] {
      var t := ts[0];
      StepLinked(c, a, t);
      if c.threads[t].prog.Do? && Exec(c.threads[t].prog.micro, c.k, c.threads[t].prog.rest).out.Some? {
        EffectRecorded(k0, c, a, t, todos);
      } else {
        NoEffectRecorded(k0, c, a, t, todos);
      }
      RunsAreRecorded(k0, Next(c, t), AuditStep(c, a, t), ts[1..], todos);
    }
  }

  lemma StartLinked(k: Kernel, todos: seq<seq<Op>>)
    ensures Linked(Start(k, todos), Audit(k, k, [])) && Recorded(k, Start(k, todos), Audit(k, k, []), todos)
  {
    StartLocksOk(k, todos);
  }

  ghost predicate Quiescent(c: Config) {
    forall t :: 0 <= t < |c.threads| ==> !CallUnderWay(c.threads[t]) && !PassUnderWay(c.threads[t])
  }

  /** In every reachable state in which no call and no pass is under way, the kernel is that of the logged sequence. */
  lemma QuiescentStates(k: Kernel, todos: seq<seq<Op>>, ts: seq<nat>)
    requires Schedule(Start(k, todos), ts)
    ensures var c := RunThreads(Start(k, todos), ts);
      var log := AuditRun(Start(k, todos), Audit(k, k, []), ts).log;
      && Faithful(k, log)
      && (Quiescent(c) ==> c.k == Replay(k, log))
  {
    StartLinked(k, todos);
    RunsAreRecorded(k, Start(k, todos), Audit(k, k, []), ts, todos);
  }

  /**
    Atomicity: any number of threads with any operations, scheduled in any way until all have finished, leave the
    kernel that one sequence of whole operations leaves. The sequence has the operations of each thread in their
    order, and every reply is the one the operation gets at its place in it.
   */
  lemma Atomicity(k: Kernel, todos: seq<seq<Op>>, ts: seq<nat>)
    requires Schedule(Start(k, todos), ts)
    requires Stuck(RunThreads(Start(k, todos), ts))
    ensures var c := RunThreads(Start(k, todos), ts);
      var log := AuditRun(Start(k, todos), Audit(k, k, []), ts).log;
      && c.k == Replay(k, log) && Faithful(k, log)
      && |c.threads| == |todos|
      && forall t :: 0 <= t < |todos| ==> OpsOf(log, t) == Effective(todos[t]) && OutsOf(log, t) == c.threads[t].results
  {
    var c0, a0 := Start(k, todos), Audit(k, k, []);
    StartLinked(k, todos);
    RunsAreRecorded(k, c0, a0, ts, todos);
    DeadlockFreedom(k, todos, ts);
    var c, a := RunThreads(c0, ts), AuditRun(c0, a0, ts);
    forall t | 0 <= t < |todos|
      ensures !Open(c.threads[t])
      ensures OpsOf(a.log, t) == Effective(todos[t]) && OutsOf(a.log, t) == c.threads[t].results
    {
      assert Finished(c.threads[t]) && ThreadOk(a, c.k, c.threads[t]) && Logged(a.log, c.threads[t], t, todos[t]);
    }
  }
}
