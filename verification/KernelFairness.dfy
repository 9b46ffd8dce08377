/** Round robin: bounded waiting, equal shares, and exact rotation. */
module KernelFairness {
  import opened Lists
  import opened KernelModel
  import opened KernelIndex

  /** `p` neither exits nor blocks itself in this step. */
  predicate StaysReady(k: Kernel, e: Event, p: Pid) {
    e.Syscall? && e.caller == p ==> !e.call.Exit? && Invoke(k, p, e.call).out != Ok(BlockedStatus)
  }

  predicate AlwaysReady(k: Kernel, es: seq<Event>, p: Pid)
    decreases |es|
  {
    es == [] || (StaysReady(k, es[0], p) && AlwaysReady(Apply(k, es[0]), es[1..], p))
  }

  function Passes(es: seq<Event>): nat {
    if es == [] then 0 else (if es[0].Pass? then 1 else 0) + Passes(es[1..])
  }

  /** How often `p` was dispatched, as the process table counts it. */
  function Switches(k: Kernel, p: Pid): int {
    if p in k.processes then k.processes[p].switches else 0
  }

  ghost predicate Ahead(k: Kernel, p: Pid, q: Pid) {
    p in k.ready && q in k.ready && IndexOf(k.ready, p) < IndexOf(k.ready, q)
  }

  // ---- one step ----

  /** A call changes the queue by at most one element: its caller leaves, or somebody joins at the back. */
  lemma QueueChange(k: Kernel, caller: Pid, call: Call) returns (x: Pid)
    requires Index(k)
    ensures var j := Invoke(k, caller, call).k;
      || j.ready == k.ready
      || (j.ready == Remove(k.ready, caller) && (call.Exit? || Invoke(k, caller, call).out == Ok(BlockedStatus)))
      || (x !in k.ready && j.ready == k.ready + [x])
  {
    x := k.nextPid;
    assert k.nextPid !in k.ready by {
      assert forall p :: p in k.processes ==> ProcOk(p, k.processes[p], k.nextPid);
    }
    match call {
      case Create(name, priority, policy) => CreateQueue(k, caller, name, priority, policy);
      case Exit(_) =>
      case Wait(_) =>
      case Send(target, _, _, _, _) => x := target;
      case Receive(_) =>
      case Unregistered(_) =>
      case _ => MemoryCallsKeepScheduling(k, caller, call);
    }
  }

  lemma CreateQueue(k: Kernel, caller: Pid, name: string, priority: int, policy: int)
    ensures var j := ProcessCreate(k, caller, name, priority, policy).k;
      j.ready == k.ready || j.ready == k.ready + [k.nextPid]
  {
    CreateCases(k, caller, name, priority, policy);
    if ProcessCreate(k, caller, name, priority, policy).out.Ok? {
      CreateEffect(k, caller, name, priority, policy);
    }
  }

  /** Calls never change a dispatch count. */
  lemma CallsKeepSwitches(k: Kernel, caller: Pid, call: Call, p: Pid)
    requires Index(k) && p in k.processes
    ensures p in Invoke(k, caller, call).k.processes && Switches(Invoke(k, caller, call).k, p) == Switches(k, p)
  {
    match call
    case Create(name, priority, policy) =>
      CreateCases(k, caller, name, priority, policy);
      assert ProcOk(p, k.processes[p], k.nextPid);
      if Invoke(k, caller, call).out.Ok? { CreateEffect(k, caller, name, priority, policy); }
    case Exit(_) =>
    case Wait(_) =>
    case Send(_, _, _, _, _) =>
    case Receive(_) =>
    case Unregistered(_) =>
    case _ => MemoryCallsKeepScheduling(k, caller, call);
  }

  /** During calls a ready process only moves forward, and never past another ready process. */
  lemma CallKeepsPlace(k: Kernel, caller: Pid, call: Call, p: Pid)
    requires Index(k) && p in k.ready && StaysReady(k, Syscall(caller, call), p)
    ensures var j := Invoke(k, caller, call).k;
      p in j.ready && IndexOf(j.ready, p) <= IndexOf(k.ready, p) && Switches(j, p) == Switches(k, p)
  {
    var x := QueueChange(k, caller, call);
    CallsKeepSwitches(k, caller, call, p);
    var j := Invoke(k, caller, call).k;
    if j.ready == k.ready + [x] {
      AppendIndex(k.ready, x, p);
    } else if j.ready != k.ready {
      RemoveIndex(k.ready, caller, p);
    }
  }

  lemma CallKeepsOrder(k: Kernel, caller: Pid, call: Call, p: Pid, q: Pid)
    requires Index(k) && Ahead(k, p, q)
    requires StaysReady(k, Syscall(caller, call), p) && StaysReady(k, Syscall(caller, call), q)
    ensures Ahead(Invoke(k, caller, call).k, p, q)
  {
    var x := QueueChange(k, caller, call);
    var j := Invoke(k, caller, call).k;
    if j.ready == k.ready + [x] {
      AppendIndex(k.ready, x, p);
      AppendIndex(k.ready, x, q);
    } else if j.ready != k.ready {
      RemoveIndex(k.ready, caller, p);
      RemoveIndex(k.ready, caller, q);
    }
  }

  /** A pass dispatches the head, which goes to the back; everybody else moves one place forward. */
  lemma PassMoves(k: Kernel, p: Pid)
    requires Index(k) && p in k.ready
    ensures var j := SchedulerPass(k);
      && |j.ready| == |k.ready| && p in j.ready
      && (p == k.ready[0] ==> IndexOf(j.ready, p) == |k.ready| - 1 && Switches(j, p) == Switches(k, p) + 1)
      && (p != k.ready[0] ==> IndexOf(j.ready, p) == IndexOf(k.ready, p) - 1 && Switches(j, p) == Switches(k, p))
  {
    PassKeepsIndex(k);
    var i, j := IndexOf(k.ready, p), SchedulerPass(k);
    var i' := if i == 0 then |k.ready| - 1 else i - 1;
    var head := k.ready[0];
    assert ReadyAgrees(k) && head in k.ready;
    assert j.ready[i'] == p;
    IndexIsPosition(j.ready, i');
  }

  // ---- whole runs ----

  /** A process at place i that keeps itself ready is dispatched within i + 1 passes, whatever else happens. */
  lemma {:induction false} BoundedWaiting(k: Kernel, es: seq<Event>, p: Pid)
    requires Index(k) && p in k.ready && AlwaysReady(k, es, p)
    ensures p in Run(k, es).ready
    ensures Switches(k, p) <= Switches(Run(k, es), p)
    ensures IndexOf(k.ready, p) < Passes(es) ==> Switches(k, p) < Switches(Run(k, es), p)
    decreases |es|
  {
    if es != [] {
      StepKeepsIndex(k, es[0]);
      match es[0] {
        case Pass => PassMoves(k, p);
        case Syscall(caller, call) => CallKeepsPlace(k, caller, call, p);
      }
      BoundedWaiting(Apply(k, es[0]), es[1..], p);
    }
  }

  /** Of two processes that both stay ready, the one ahead is dispatched as often as the other or once more. */
  lemma {:induction false} EqualShares(k: Kernel, es: seq<Event>, p: Pid, q: Pid)
    requires Index(k) && Ahead(k, p, q) && AlwaysReady(k, es, p) && AlwaysReady(k, es, q)
    ensures var gain := (x: Pid) => Switches(Run(k, es), x) - Switches(k, x);
      gain(q) <= gain(p) <= gain(q) + 1
    decreases |es|
  {
    if es != [] {
      var j := Apply(k, es[0]);
      StepKeepsIndex(k, es[0]);
      match es[0] {
        case Pass =>
          PassMoves(k, p);
          PassMoves(k, q);
        case Syscall(caller, call) =>
          CallKeepsOrder(k, caller, call, p, q);
          CallKeepsPlace(k, caller, call, p);
          CallKeepsPlace(k, caller, call, q);
      }
      if Ahead(j, p, q) {
        EqualShares(j, es[1..], p, q);
      } else {
        EqualShares(j, es[1..], q, p);
      }
    }
  }

  // ---- passes only ----

  function PassRun(n: nat): seq<Event> { seq(n, _ => Pass) }

  lemma {:induction false} RunConcat(k: Kernel, es: seq<Event>, fs: seq<Event>)
    ensures Run(k, es + fs) == Run(Run(k, es), fs)
    decreases |es|
  {
    if es == [] {
      assert es + fs == fs;
    } else {
      assert (es + fs)[1..] == es[1..] + fs;
      RunConcat(Apply(k, es[0]), es[1..], fs);
    }
  }

  lemma OneMorePass(k: Kernel, m: nat)
    ensures Run(k, PassRun(m + 1)) == SchedulerPass(Run(k, PassRun(m)))
  {
    assert PassRun(m + 1) == PassRun(m) + [Pass];
    RunConcat(k, PassRun(m), [Pass]);
    assert Run(Run(k, PassRun(m)), [Pass]) == Run(SchedulerPass(Run(k, PassRun(m))), []);
  }

  /** The number of dispatches place i of a queue of length n gets out of m passes. */
  function Share(n: nat, m: nat, i: nat): int
    requires 0 < n
  {
    m / n + if i < m % n then 1 else 0
  }

  lemma NextShare(n: nat, m: nat, i: nat)
    requires i < n
    ensures Share(n, m + 1, i) == Share(n, m, i) + if i == m % n then 1 else 0
    ensures (m + 1) % n == if m % n == n - 1 then 0 else m % n + 1
  {
    var d, r := m / n, m % n;
    if r == n - 1 {
      DivUnique(m + 1, n, d + 1, 0);
    } else {
      DivUnique(m + 1, n, d, r + 1);
    }
  }

  lemma {:induction false} AtLeastOnce(n: int, e: int)
    requires 0 < n && 1 <= e
    ensures n <= n * e
  {
    if 1 < e {
      AtLeastOnce(n, e - 1);
      assert n * e == n * (e - 1) + n;
    }
  }

  /** A multiple of n strictly between -n and n is zero. */
  lemma NoGap(n: int, e: int)
    requires 0 < n && -n < n * e < n
    ensures e == 0
  {
    assert n * -e == -(n * e);
    if 1 <= e { AtLeastOnce(n, e); }
    if e <= -1 { AtLeastOnce(n, -e); }
  }

  lemma DivUnique(a: int, n: int, d: int, r: int)
    requires 0 <= r < n && a == n * d + r
    ensures a / n == d && a % n == r
  {
    var d', r' := a / n, a % n;
    assert a == n * d' + r';
    assert n * (d' - d) == n * d' - n * d == r - r';
    NoGap(n, d' - d);
  }

  ghost predicate Rotated(k: Kernel, j: Kernel, m: nat)
    requires k.ready != []
  {
    var n, r := |k.ready|, m % |k.ready|;
    && j.ready == k.ready[r..] + k.ready[..r]
    && (forall i :: 0 <= i < n ==> Switches(j, k.ready[i]) == Switches(k, k.ready[i]) + Share(n, m, i))
  }

  lemma RotateOnce(q: seq<Pid>, r: nat)
    requires r < |q|
    ensures var p := q[r..] + q[..r];
      p[0] == q[r] && p[1..] + [p[0]] == q[r + 1..] + q[..r + 1]
    ensures r + 1 == |q| ==> q[r + 1..] + q[..r + 1] == q[0..] + q[..0]
  {
    assert q[..r + 1] == q[..r] + [q[r]];
  }

  lemma RotatedQueue(k: Kernel, j: Kernel, m: nat)
    requires k.ready != [] && Index(j) && Rotated(k, j, m)
    ensures var r := (m + 1) % |k.ready|; SchedulerPass(j).ready == k.ready[r..] + k.ready[..r]
    ensures j.ready[0] == k.ready[m % |k.ready|]
  {
    NextShare(|k.ready|, m, 0);
    RotateOnce(k.ready, m % |k.ready|);
    assert j.ready[0] in j.ready;
  }

  lemma PassSwitches(j: Kernel, p: Pid)
    requires Index(j) && j.ready != []
    ensures Switches(SchedulerPass(j), p) == Switches(j, p) + if p == j.ready[0] then 1 else 0
  {
    assert j.ready[0] in j.ready;
  }

  lemma RotatedOnce(k: Kernel, j: Kernel, m: nat)
    requires k.ready != [] && NoDup(k.ready) && Index(j) && Rotated(k, j, m)
    ensures Rotated(k, SchedulerPass(j), m + 1)
  {
    RotatedQueue(k, j, m);
    forall i | 0 <= i < |k.ready|
      ensures Switches(SchedulerPass(j), k.ready[i]) == Switches(k, k.ready[i]) + Share(|k.ready|, m + 1, i)
    {
      NextShare(|k.ready|, m, i);
      PassSwitches(j, k.ready[i]);
    }
  }

  /** m passes and nothing else rotate a queue of n processes by m mod n and give place i its exact share. */
  lemma {:induction false} ExactRotation(k: Kernel, m: nat)
    requires Index(k) && k.ready != []
    ensures Rotated(k, Run(k, PassRun(m)), m)
  {
    if m == 0 {
      DivUnique(0, |k.ready|, 0, 0);
      assert PassRun(0) == [] && k.ready == k.ready[0..] + k.ready[..0];
    } else {
      ExactRotation(k, m - 1);
      RunKeepsIndex(k, PassRun(m - 1));
      OneMorePass(k, m - 1);
      RotatedOnce(k, Run(k, PassRun(m - 1)), m - 1);
    }
  }
}
