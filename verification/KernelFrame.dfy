/** What others can do to a process, and what follows for exit codes and waiting. */
module KernelFrame {
  import opened Lists
  import opened KernelModel
  import opened KernelIndex

  predicate ByOthers(e: Event, p: Pid) {
    e.Syscall? ==> e.caller != p
  }

  /** The message this step puts into the mailbox of `p`, if any. */
  function Arriving(k: Kernel, e: Event, p: Pid): seq<Message> {
    if e.Syscall? && e.call.Send? && e.call.target == p && Invoke(k, e.caller, e.call).out.Ok? then
      [Message(e.call.uuid, e.call.kind, e.caller, p, e.call.subject, e.call.payload)]
    else []
  }

  predicate Wakes(k: Kernel, e: Event, p: Pid) {
    Arriving(k, e, p) != [] && p in k.blocked && k.blocked[p] == IpcReceive
  }

  predicate Dispatches(k: Kernel, e: Event, p: Pid) {
    e.Pass? && k.ready != [] && k.ready[0] == p
  }

  /** The process record of `p` after a step by others. */
  function ProcAfter(k: Kernel, e: Event, p: Pid): Proc
    requires p in k.processes
  {
    if Dispatches(k, e, p) then Dispatched(k.processes[p])
    else if Wakes(k, e, p) then k.processes[p].(state := Ready)
    else k.processes[p]
  }

  ghost predicate Framed(k: Kernel, e: Event, p: Pid)
    requires p in k.processes
  {
    var j := Apply(k, e);
    && p in j.processes && j.processes[p] == ProcAfter(k, e, p)
    && (p in j.blocked <==> p in k.blocked && !Wakes(k, e, p))
    && (p in j.blocked ==> p in k.blocked && j.blocked[p] == k.blocked[p])
    && Get(j.mail, p) == Get(k.mail, p) + Arriving(k, e, p)
  }

  lemma CreateFramed(k: Kernel, caller: Pid, call: Call, p: Pid)
    requires Index(k) && p in k.processes && call.Create?
    ensures Framed(k, Syscall(caller, call), p)
  {
    CreateCases(k, caller, call.name, call.priority, call.policy);
    assert ProcOk(p, k.processes[p], k.nextPid);
    if Invoke(k, caller, call).out.Ok? {
      CreateEffect(k, caller, call.name, call.priority, call.policy);
    }
  }

  lemma SendFramed(k: Kernel, caller: Pid, call: Call, p: Pid)
    requires p in k.processes && call.Send?
    ensures Framed(k, Syscall(caller, call), p)
  {
    var r := IpcSend(k, caller, call.target, call.subject, call.kind, call.payload, call.uuid);
    assert Invoke(k, caller, call) == r;
    if r.out.Ok? {
      PostFramed(k, Message(call.uuid, call.kind, caller, call.target, call.subject, call.payload), p);
    }
  }

  /** The part of a send behind its checks. */
  lemma PostFramed(k: Kernel, m: Message, p: Pid)
    requires p in k.processes && m.target in k.processes
    ensures var j, woken := Wake(Enqueue(k, m), m.target), p == m.target && AwaitsMail(k, p);
      && p in j.processes && j.processes[p] == (if woken then k.processes[p].(state := Ready) else k.processes[p])
      && (p in j.blocked <==> p in k.blocked && !woken)
      && (p in j.blocked ==> p in k.blocked && j.blocked[p] == k.blocked[p])
      && Get(j.mail, p) == Get(k.mail, p) + if m.target == p then [m] else []
  {
  }

  lemma MemoryFramed(k: Kernel, caller: Pid, call: Call, p: Pid)
    requires p in k.processes && p != caller && (call.Allocate? || call.Free? || call.Map?)
    ensures Framed(k, Syscall(caller, call), p)
  {
    MemoryCallsKeepScheduling(k, caller, call);
    UsageOfOthers(k, caller, call, p);
  }

  lemma UsageOfOthers(k: Kernel, caller: Pid, call: Call, p: Pid)
    requires p in k.processes && p != caller && (call.Allocate? || call.Free? || call.Map?)
    ensures var j := Invoke(k, caller, call).k; p in j.processes && j.processes[p].usage == k.processes[p].usage
  {
  }

  lemma PassFramed(k: Kernel, p: Pid)
    requires Index(k) && p in k.processes
    ensures Framed(k, Pass, p)
  {
  }

  lemma ExitFramed(k: Kernel, caller: Pid, call: Call, p: Pid)
    requires p in k.processes && p != caller && call.Exit?
    ensures Framed(k, Syscall(caller, call), p)
  {
  }

  lemma SleepFramed(k: Kernel, caller: Pid, call: Call, p: Pid)
    requires p in k.processes && p != caller && (call.Wait? || call.Receive?)
    ensures Framed(k, Syscall(caller, call), p)
  {
  }

  /**
    Steps of others and scheduler passes change the record, the block entry and the mailbox of `p` only by
    dispatching it, by sending to it, and by waking it from a receive.
   */
  lemma OthersFrame(k: Kernel, e: Event, p: Pid)
    requires Index(k) && p in k.processes && ByOthers(e, p)
    ensures Framed(k, e, p)
  {
    match e
    case Pass => PassFramed(k, p);
    case Syscall(caller, call) =>
      match call {
        case Create(_, _, _) => CreateFramed(k, caller, call, p);
        case Send(_, _, _, _, _) => SendFramed(k, caller, call, p);
        case Allocate(_, _, _) => MemoryFramed(k, caller, call, p);
        case Free(_) => MemoryFramed(k, caller, call, p);
        case Map(_, _, _, _) => MemoryFramed(k, caller, call, p);
        case Exit(_) => ExitFramed(k, caller, call, p);
        case Wait(_) => SleepFramed(k, caller, call, p);
        case Receive(_) => SleepFramed(k, caller, call, p);
        case Unregistered(_) =>
      }
  }

  ghost predicate Silent(es: seq<Event>, p: Pid) {
    forall i :: 0 <= i < |es| ==> ByOthers(es[i], p)
  }

  /** Terminated, or asleep in a wait: states that only the process itself can leave. */
  predicate AtRest(k: Kernel, p: Pid) {
    p in k.processes &&
    (k.processes[p].state == Terminated || (p in k.blocked && k.blocked[p].WaitFor?))
  }

  lemma {:induction false} AtRestStays(k: Kernel, es: seq<Event>, p: Pid)
    requires Index(k) && AtRest(k, p) && Silent(es, p)
    ensures var j := Run(k, es);
      && AtRest(j, p) && j.processes[p] == k.processes[p]
      && (p in j.blocked <==> p in k.blocked) && (p in k.blocked ==> j.blocked[p] == k.blocked[p])
    decreases |es|
  {
    if es != [] {
      OthersFrame(k, es[0], p);
      StepKeepsIndex(k, es[0]);
      AtRestStays(Apply(k, es[0]), es[1..], p);
    }
  }

  /** Whoever waits for a process that has exited and kept silent since gets the code of that exit. */
  lemma ExitCodeRoundTrip(k: Kernel, p: Pid, exitCode: int, es: seq<Event>, waiter: Pid)
    requires Index(k) && p in k.processes && Silent(es, p)
    ensures var j := Run(ProcessExit(k, p, exitCode).k, es);
      ProcessWait(j, waiter, p) == Reply(j, Ok(ExitCode(exitCode)))
  {
    StepKeepsIndex(k, Syscall(p, Exit(exitCode)));
    assert Apply(k, Syscall(p, Exit(exitCode))) == ProcessExit(k, p, exitCode).k;
    AtRestStays(ProcessExit(k, p, exitCode).k, es, p);
  }

  /**
    A wait yields an exit code exactly when its target is terminated, whoever calls. On any other known target it puts
    a known caller to sleep; an unknown target or caller is refused and nothing changes.
   */
  lemma WaitOutcome(k: Kernel, caller: Pid, target: Pid)
    requires Index(k)
    ensures var r := ProcessWait(k, caller, target);
      if target !in k.processes then r == Reply(k, Err(NoTarget))
      else if k.processes[target].state == Terminated then
        k.processes[target].exitCode.Some? && r == Reply(k, Ok(ExitCode(k.processes[target].exitCode.value)))
      else if caller !in k.processes then r == Reply(k, Err(KeyError))
      else
        r.out == Ok(BlockedStatus) && AtRest(r.k, caller) && r.k.blocked[caller] == WaitFor(target)
        && caller !in r.k.ready
  {
    assert target in k.processes ==> ProcOk(target, k.processes[target], k.nextPid);
    RemoveMembers(k.ready, caller);
    if caller !in k.processes { assert caller !in k.ready; }
  }

  /** Nothing that others do ends a wait: not even the exit of the process waited for. */
  lemma WaitersStayBlocked(k: Kernel, caller: Pid, target: Pid, es: seq<Event>)
    requires Index(k) && caller in k.processes && target in k.processes && k.processes[target].state != Terminated
    requires Silent(es, caller)
    ensures var j := Run(ProcessWait(k, caller, target).k, es);
      caller in j.blocked && j.blocked[caller] == WaitFor(target) && caller !in j.ready
  {
    var e := Syscall(caller, Wait(target));
    WaitOutcome(k, caller, target);
    StepKeepsIndex(k, e);
    assert Apply(k, e) == ProcessWait(k, caller, target).k;
    AtRestStays(Apply(k, e), es, caller);
    RunKeepsIndex(Apply(k, e), es);
  }
}
