/**
  What concurrent runs of the Python kernel inherit from sequential ones. The recorded sequence of operations is a
  sequential run, it respects real time, and so every law about runs holds under concurrency, whenever no call and no
  pass is under way.
 */
module ConcurrentRuns {
  import opened KernelModel
  import opened KernelIndex
  import opened KernelHistory
  import opened KernelFairness
  import opened KernelFrame
  import opened Threads
  import opened Atomicity

  // ---- the recorded sequence is a run ----

  function EventsOf(log: seq<Entry>): seq<Event> {
    if log == [] then [] else EventsOf(log[..|log| - 1]) + EventOf(log[|log| - 1].op)
  }

  function EventOf(op: Op): seq<Event> {
    match op
    case Sys(caller, call) => [Syscall(caller, call)]
    case SchedulerRun => [Pass]
    case Query(_) => []
  }

  lemma {:induction false} ReplayIsRun(k: Kernel, log: seq<Entry>)
    ensures Replay(k, log) == Run(k, EventsOf(log))
  {
    if log != [] {
      var n := |log| - 1;
      ReplayIsRun(k, log[..n]);
      RunConcat(k, EventsOf(log[..n]), EventOf(log[n].op));
      OneEvent(Run(k, EventsOf(log[..n])), log[n].op);
    }
  }

  lemma OneEvent(k: Kernel, op: Op)
    ensures Run(k, EventOf(op)) == Atomic(k, op).k
  {
    match op
    case Sys(caller, call) => assert [Syscall(caller, call)][1..] == [];
    case SchedulerRun => assert [Pass][1..] == [];
    case Query(_) =>
  }

  lemma EventsLast(log: seq<Entry>, e: Entry)
    ensures EventsOf(log + [e]) == EventsOf(log) + EventOf(e.op)
  {
    assert (log + [e])[..|log|] == log;
  }

  lemma {:induction false} EventsConcat(a: seq<Entry>, b: seq<Entry>)
    ensures EventsOf(a + b) == EventsOf(a) + EventsOf(b)
  {
    if b == [] {
      assert a + b == a;
    } else {
      var front, last := b[..|b| - 1], b[|b| - 1];
      assert b == front + [last] && a + b == a + front + [last];
      EventsConcat(a, front);
      EventsLast(a + front, last);
      EventsLast(front, last);
    }
  }

  lemma {:induction false} OpsConcat(a: seq<Entry>, b: seq<Entry>, t: nat)
    ensures OpsOf(a + b, t) == OpsOf(a, t) + OpsOf(b, t)
  {
    if b == [] {
      assert a + b == a;
    } else {
      var front, last := b[..|b| - 1], b[|b| - 1];
      assert b == front + [last] && a + b == a + front + [last];
      OpsConcat(a, front, t);
      LogGrows(a + front, last, t);
      LogGrows(front, last, t);
    }
  }

  // ---- the record only grows ----

  lemma {:induction false} AuditConcat(c: Config, a: Audit, ts: seq<nat>, us: seq<nat>)
    requires Schedule(c, ts) && Schedule(RunThreads(c, ts), us)
    ensures Schedule(c, ts + us) && RunThreads(c, ts + us) == RunThreads(RunThreads(c, ts), us)
    ensures AuditRun(c, a, ts + us) == AuditRun(RunThreads(c, ts), AuditRun(c, a, ts), us)
    decreases |ts|
  {
    ScheduleConcat(c, ts, us);
    if ts == [] {
      assert ts + us == us;
    } else {
      assert (ts + us)[1..] == ts[1..] + us;
      AuditConcat(Next(c, ts[0]), AuditStep(c, a, ts[0]), ts[1..], us);
    }
  }

  lemma StepExtends(c: Config, a: Audit, t: nat)
    requires Enabled(c, t)
    ensures a.log <= AuditStep(c, a, t).log
  {
    if c.threads[t].prog.Do? { AuditLog(c, a, t); }
  }

  lemma {:induction false} LogExtends(c: Config, a: Audit, ts: seq<nat>)
    requires Schedule(c, ts)
    ensures a.log <= AuditRun(c, a, ts).log
    decreases |ts|
  {
    if ts != [] {
      StepExtends(c, a, ts[0]);
      LogExtends(Next(c, ts[0]), AuditStep(c, a, ts[0]), ts[1..]);
    }
  }

  function LogAfter(k: Kernel, todos: seq<seq<Op>>, ts: seq<nat>): seq<Entry>
    requires Schedule(Start(k, todos), ts)
  {
    AuditRun(Start(k, todos), Audit(k, k, []), ts).log
  }

  /** What a thread has begun, or has still to begin, without having its reply. */
  function Outstanding(th: Thread): seq<Op> {
    (if Open(th) then [th.op] else []) + Effective(th.todo)
  }

  lemma RecordAt(k: Kernel, todos: seq<seq<Op>>, ts: seq<nat>, t: nat)
    requires Schedule(Start(k, todos), ts) && t < |todos|
    ensures var c := RunThreads(Start(k, todos), ts);
      && |c.threads| == |todos|
      && OpsOf(LogAfter(k, todos, ts), t) + Outstanding(c.threads[t]) == Effective(todos[t])
  {
    StartLinked(k, todos);
    var c0, a0 := Start(k, todos), Audit(k, k, []);
    RunsAreRecorded(k, c0, a0, ts, todos);
    var c, log := RunThreads(c0, ts), LogAfter(k, todos, ts);
    LoggedOps(log, c.threads[t], t, todos[t]);
  }

  lemma LoggedOps(log: seq<Entry>, th: Thread, t: nat, todo: seq<Op>)
    requires Logged(log, th, t, todo)
    ensures OpsOf(log, t) + Outstanding(th) == Effective(todo)
  {
    var begun := if Open(th) then [th.op] else [];
    assert OpsOf(log, t) + (begun + Effective(th.todo)) == OpsOf(log, t) + begun + Effective(th.todo);
  }

  lemma CutOps(first: seq<Entry>, more: seq<Entry>, t: nat, x: seq<Op>, y: seq<Op>)
    requires OpsOf(first, t) + x == OpsOf(first + more, t) + y
    ensures OpsOf(more, t) + y == x
  {
    OpsConcat(first, more, t);
    var n := |OpsOf(first, t)|;
    assert x == (OpsOf(first, t) + x)[n..];
    assert OpsOf(more, t) + y == (OpsOf(first, t) + OpsOf(more, t) + y)[n..];
  }

  /**
    The sequence respects real time. Cut a schedule anywhere: what has its reply by then stands in the first part of
    the sequence, which the rest of the schedule never changes; what is begun later stands in the second part.
   */
  lemma RealTimeOrder(k: Kernel, todos: seq<seq<Op>>, ts: seq<nat>, us: seq<nat>)
    requires Schedule(Start(k, todos), ts) && Schedule(RunThreads(Start(k, todos), ts), us)
    ensures Schedule(Start(k, todos), ts + us)
    ensures var c, d := RunThreads(Start(k, todos), ts), RunThreads(Start(k, todos), ts + us);
      var first, all := LogAfter(k, todos, ts), LogAfter(k, todos, ts + us);
      && first <= all && |c.threads| == |d.threads| == |todos|
      && forall t :: 0 <= t < |todos| ==>
           && OpsOf(first, t) + Outstanding(c.threads[t]) == Effective(todos[t])
           && OpsOf(all[|first|..], t) + Outstanding(d.threads[t]) == Outstanding(c.threads[t])
  {
    var c0, a0 := Start(k, todos), Audit(k, k, []);
    AuditConcat(c0, a0, ts, us);
    LogExtends(RunThreads(c0, ts), AuditRun(c0, a0, ts), us);
    StartLinked(k, todos);
    RunsAreRecorded(k, c0, a0, ts, todos);
    RunsAreRecorded(k, c0, a0, ts + us, todos);
    forall t | 0 <= t < |todos|
      ensures var c, d := RunThreads(c0, ts), RunThreads(c0, ts + us);
        var first, all := LogAfter(k, todos, ts), LogAfter(k, todos, ts + us);
        && OpsOf(first, t) + Outstanding(c.threads[t]) == Effective(todos[t])
        && OpsOf(all[|first|..], t) + Outstanding(d.threads[t]) == Outstanding(c.threads[t])
    {
      CutAt(k, todos, ts, us, t);
    }
  }

  lemma CutAt(k: Kernel, todos: seq<seq<Op>>, ts: seq<nat>, us: seq<nat>, t: nat)
    requires Schedule(Start(k, todos), ts) && Schedule(Start(k, todos), ts + us) && t < |todos|
    requires LogAfter(k, todos, ts) <= LogAfter(k, todos, ts + us)
    ensures var c, d := RunThreads(Start(k, todos), ts), RunThreads(Start(k, todos), ts + us);
      var first, all := LogAfter(k, todos, ts), LogAfter(k, todos, ts + us);
      && |c.threads| == |d.threads| == |todos|
      && OpsOf(first, t) + Outstanding(c.threads[t]) == Effective(todos[t])
      && OpsOf(all[|first|..], t) + Outstanding(d.threads[t]) == Outstanding(c.threads[t])
  {
    var c, d := RunThreads(Start(k, todos), ts), RunThreads(Start(k, todos), ts + us);
    var first, all := LogAfter(k, todos, ts), LogAfter(k, todos, ts + us);
    RecordAt(k, todos, ts, t);
    RecordAt(k, todos, ts + us, t);
    assert all == first + all[|first|..];
    CutOps(first, all[|first|..], t, Outstanding(c.threads[t]), Outstanding(d.threads[t]));
  }

  // ---- the laws under concurrency ----

  /** In every quiescent state all invariants of sequential runs, the accounting law and the delivery law hold. */
  lemma ConcurrentSafety(todos: seq<seq<Op>>, ts: seq<nat>)
    requires Schedule(Start(BOOT, todos), ts)
    ensures var c := RunThreads(Start(BOOT, todos), ts);
      var es := EventsOf(LogAfter(BOOT, todos, ts));
      Quiescent(c) ==>
        && c.k == Run(BOOT, es) && Index(c.k)
        && (FreshIds(BOOT, es) ==> Record(START, es).k == c.k && Good(Record(START, es)))
  {
    QuiescentStates(BOOT, todos, ts);
    var log := LogAfter(BOOT, todos, ts);
    ReplayIsRun(BOOT, log);
    BootIndex();
    RunKeepsIndex(BOOT, EventsOf(log));
    if FreshIds(BOOT, EventsOf(log)) { KernelSafety(EventsOf(log)); }
  }

  /** From one quiescent state to a later one the kernel makes the run recorded in between. */
  lemma BetweenQuiescentStates(todos: seq<seq<Op>>, ts: seq<nat>, us: seq<nat>) returns (es: seq<Event>)
    requires Schedule(Start(BOOT, todos), ts) && Schedule(RunThreads(Start(BOOT, todos), ts), us)
    requires Quiescent(RunThreads(Start(BOOT, todos), ts))
    requires Quiescent(RunThreads(RunThreads(Start(BOOT, todos), ts), us))
    ensures Schedule(Start(BOOT, todos), ts + us)
    ensures var c := RunThreads(Start(BOOT, todos), ts);
      var first, all := LogAfter(BOOT, todos, ts), LogAfter(BOOT, todos, ts + us);
      && first <= all && es == EventsOf(all[|first|..])
      && Index(c.k) && RunThreads(c, us).k == Run(c.k, es)
  {
    RealTimeOrder(BOOT, todos, ts, us);
    AuditConcat(Start(BOOT, todos), Audit(BOOT, BOOT, []), ts, us);
    ConcurrentSafety(todos, ts);
    ConcurrentSafety(todos, ts + us);
    var first, all := LogAfter(BOOT, todos, ts), LogAfter(BOOT, todos, ts + us);
    es := EventsOf(all[|first|..]);
    assert all == first + all[|first|..];
    EventsConcat(first, all[|first|..]);
    RunConcat(BOOT, EventsOf(first), es);
  }

  // ---- exit codes ----

  ghost predicate SilentLog(log: seq<Entry>, p: Pid) {
    forall i :: 0 <= i < |log| && log[i].op.Sys? ==> log[i].op.caller != p
  }

  lemma {:induction false} SilentEvents(log: seq<Entry>, p: Pid)
    requires SilentLog(log, p)
    ensures Silent(EventsOf(log), p)
  {
    if log != [] {
      var front, last := log[..|log| - 1], log[|log| - 1];
      SilentEvents(front, p);
      assert log == front + [last] && (last.op.Sys? ==> last.op.caller != p);
      assert forall i :: 0 <= i < |EventOf(last.op)| ==> ByOthers(EventOf(last.op)[i], p);
    }
  }

  /** The kernel at a later place of the sequence, from the one just behind an exit. */
  lemma ReplayBehind(log: seq<Entry>, i: nat, j: nat, p: Pid, exitCode: int)
    requires i < j <= |log| && log[i].op == Sys(p, Exit(exitCode))
    ensures Replay(BOOT, log[..j]) == Run(ProcessExit(Replay(BOOT, log[..i]), p, exitCode).k, EventsOf(log[i + 1..j]))
  {
    var first, last := log[..i + 1], log[i + 1..j];
    assert log[..j] == first + last && first[..i] == log[..i] && first[i] == log[i];
    ReplayIsRun(BOOT, log[..j]);
    ReplayIsRun(BOOT, first);
    EventsConcat(first, last);
    RunConcat(BOOT, EventsOf(first), EventsOf(last));
    assert Replay(BOOT, first) == Atomic(Replay(BOOT, log[..i]), log[i].op).k;
  }

  /**
    At any cut of any schedule: a wait whose target has exited earlier in the sequence, and has taken no further call
    since, has been answered with the code of that exit.
   */
  lemma ConcurrentExitCode(todos: seq<seq<Op>>, ts: seq<nat>, i: nat, j: nat, p: Pid, exitCode: int, waiter: Pid)
    requires Schedule(Start(BOOT, todos), ts)
    requires var log := LogAfter(BOOT, todos, ts);
      && i < j < |log| && log[i].op == Sys(p, Exit(exitCode)) && log[i].out.Ok?
      && log[j].op == Sys(waiter, Wait(p)) && SilentLog(log[i + 1..j], p)
    ensures LogAfter(BOOT, todos, ts)[j].out == Ok(ExitCode(exitCode))
  {
    QuiescentStates(BOOT, todos, ts);
    var log := LogAfter(BOOT, todos, ts);
    var k := Replay(BOOT, log[..i]);
    assert log[i].out == Atomic(k, log[i].op).out;
    assert log[j].out == Atomic(Replay(BOOT, log[..j]), log[j].op).out;
    ReplayIsRun(BOOT, log[..i]);
    BootIndex();
    RunKeepsIndex(BOOT, EventsOf(log[..i]));
    ReplayBehind(log, i, j, p, exitCode);
    SilentEvents(log[i + 1..j], p);
    ExitCodeRoundTrip(k, p, exitCode, EventsOf(log[i + 1..j]), waiter);
  }
}
