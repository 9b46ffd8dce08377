/**
  The C++ priority scheduler (src/core/CoreSystem.cpp): the data behind its mutex, and the class.
  The deque holds the waiting jobs; `addProcess` inserts behind the last job of at least the same priority.
 */
module PriorityScheduler {
  import opened Options
  import opened Lists
  import opened StableOrder

  // The task and the name travel with the job and are never inspected.
  datatype Job = Job(pid: int, priority: int)

  datatype JobState = Ready | Running | Terminated

  datatype Pool = Pool(queue: seq<Job>, states: map<int, JobState>, nextPid: int, running: bool)

  const EMPTY := Pool([], map[], 1, false)

  function Rank(j: Job): int { -j.priority }

  function Add(pool: Pool, priority: int): Pool {
    pool.(queue := Insert(Rank, pool.queue, Job(pool.nextPid, priority)),
          states := pool.states[pool.nextPid := Ready],
          nextPid := pool.nextPid + 1)
  }

  function Take(pool: Pool): Pool
    requires pool.queue != []
  {
    pool.(queue := pool.queue[1..], states := pool.states[pool.queue[0].pid := Running])
  }

  function Finish(pool: Pool, pid: int): Pool {
    pool.(states := pool.states[pid := Terminated])
  }

  // ---- order ----

  predicate Precedes(a: Job, b: Job) {
    a.priority > b.priority || (a.priority == b.priority && a.pid < b.pid)
  }

  ghost predicate Ordered(q: seq<Job>) {
    forall i, j :: 0 <= i < j < |q| ==> Precedes(q[i], q[j])
  }

  ghost predicate QueueOk(pool: Pool) {
    Ordered(pool.queue) && forall j :: j in pool.queue ==> j.pid < pool.nextPid
  }

  lemma InsertMembers(q: seq<Job>, x: Job)
    ensures forall j :: j in Insert(Rank, q, x) <==> j == x || j in q
  {
    var i := Slot(Rank, q, Rank(x));
    assert q == q[..i] + q[i..];
  }

  lemma InsertOrdered(q: seq<Job>, x: Job)
    requires Ordered(q) && forall j :: j in q ==> j.pid < x.pid
    ensures Ordered(Insert(Rank, q, x))
  {
    var i := Slot(Rank, q, Rank(x));
    forall j | i <= j < |q|
      ensures Precedes(x, q[j])
    {
      assert i < j ==> Precedes(q[i], q[j]);
    }
    assert forall j :: 0 <= j < i ==> q[j] in q && Precedes(q[j], x);
    SplicedOrdered(q, i, x);
  }

  lemma SplicedOrdered(q: seq<Job>, i: nat, x: Job)
    requires Ordered(q) && i <= |q|
    requires (forall j :: 0 <= j < i ==> Precedes(q[j], x)) && (forall j :: i <= j < |q| ==> Precedes(x, q[j]))
    ensures Ordered(q[..i] + [x] + q[i..])
  {
    var r := q[..i] + [x] + q[i..];
    assert forall j :: 0 <= j < |r| ==> r[j] == if j < i then q[j] else if j == i then x else q[j - 1];
  }

  lemma AddKeepsQueue(pool: Pool, priority: int)
    requires QueueOk(pool)
    ensures QueueOk(Add(pool, priority))
  {
    InsertMembers(pool.queue, Job(pool.nextPid, priority));
    InsertOrdered(pool.queue, Job(pool.nextPid, priority));
  }

  lemma TakeKeepsQueue(pool: Pool)
    requires QueueOk(pool) && pool.queue != []
    ensures QueueOk(Take(pool))
  {
  }

  // ---- refinement of "take the best" ----

  /** The pending job of highest priority, the oldest among equals. */
  ghost predicate IsBest(j: Job, pending: set<Job>) {
    j in pending && forall x :: x in pending && x != j ==> Precedes(j, x)
  }

  lemma BestIsUnique(a: Job, b: Job, pending: set<Job>)
    requires IsBest(a, pending) && IsBest(b, pending)
    ensures a == b
  {
    assert a != b ==> Precedes(a, b) && Precedes(b, a);
  }

  function Pending(q: seq<Job>): set<Job> { set j | j in q }

  lemma FrontIsBest(q: seq<Job>)
    requires Ordered(q) && q != []
    ensures IsBest(q[0], Pending(q)) && Pending(q[1..]) == Pending(q) - {q[0]}
  {
    assert q == [q[0]] + q[1..];
    forall x | x in q[1..]
      ensures x != q[0]
    {
      var i :| 0 <= i < |q| - 1 && q[1..][i] == x;
      assert Precedes(q[0], q[i + 1]);
    }
  }

  datatype Op = Arrive(priority: int) | Serve

  /** The jobs the deque hands out over a sequence of arrivals and serves; serving an empty deque waits. */
  function Served(pool: Pool, ops: seq<Op>): seq<Job>
    decreases |ops|
  {
    if ops == [] then []
    else
      match ops[0]
      case Arrive(priority) => Served(Add(pool, priority), ops[1..])
      case Serve => if pool.queue == [] then Served(pool, ops[1..]) else [pool.queue[0]] + Served(Take(pool), ops[1..])
  }

  /** The specification: a plain set of pending jobs, each serve taking the best one. */
  ghost predicate PicksBest(pending: set<Job>, nextPid: int, ops: seq<Op>, served: seq<Job>)
    decreases |ops|, 0
  {
    if ops == [] then served == []
    else
      match ops[0]
      case Arrive(priority) => PicksBest(pending + {Job(nextPid, priority)}, nextPid + 1, ops[1..], served)
      case Serve => ServesBest(pending, nextPid, ops[1..], served)
  }

  ghost predicate ServesBest(pending: set<Job>, nextPid: int, rest: seq<Op>, served: seq<Job>)
    decreases |rest|, 1
  {
    if pending == {} then PicksBest(pending, nextPid, rest, served)
    else served != [] && IsBest(served[0], pending)
         && PicksBest(pending - {served[0]}, nextPid, rest, served[1..])
  }

  lemma ArriveRefines(pool: Pool, priority: int)
    requires QueueOk(pool)
    ensures QueueOk(Add(pool, priority))
    ensures Pending(Add(pool, priority).queue) == Pending(pool.queue) + {Job(pool.nextPid, priority)}
  {
    AddKeepsQueue(pool, priority);
    InsertMembers(pool.queue, Job(pool.nextPid, priority));
  }

  lemma ServeRefines(pool: Pool, rest: seq<Job>)
    requires QueueOk(pool) && pool.queue != []
    ensures QueueOk(Take(pool)) && Pending(pool.queue) != {}
    ensures IsBest(pool.queue[0], Pending(pool.queue))
    ensures Pending(Take(pool).queue) == Pending(pool.queue) - {pool.queue[0]}
    ensures ([pool.queue[0]] + rest)[1..] == rest
  {
    TakeKeepsQueue(pool);
    FrontIsBest(pool.queue);
    assert pool.queue[0] in Pending(pool.queue);
  }

  lemma ServePicks(pool: Pool, rest: seq<Op>)
    requires QueueOk(pool) && pool.queue != []
    requires var p := Take(pool); PicksBest(Pending(p.queue), p.nextPid, rest, Served(p, rest))
    ensures ServesBest(Pending(pool.queue), pool.nextPid, rest, [pool.queue[0]] + Served(Take(pool), rest))
  {
    ServeRefines(pool, Served(Take(pool), rest));
  }

  /** Every interleaving of arrivals and serves hands out exactly the jobs the specification picks. */
  lemma {:induction false} DequeRefinesBest(pool: Pool, ops: seq<Op>)
    requires QueueOk(pool)
    ensures PicksBest(Pending(pool.queue), pool.nextPid, ops, Served(pool, ops))
    decreases |ops|
  {
    if ops != [] {
      match ops[0]
      case Arrive(priority) =>
        ArriveRefines(pool, priority);
        DequeRefinesBest(Add(pool, priority), ops[1..]);
      case Serve =>
        if pool.queue == [] {
          DequeRefinesBest(pool, ops[1..]);
        } else {
          ServeRefines(pool, Served(Take(pool), ops[1..]));
          DequeRefinesBest(Take(pool), ops[1..]);
          ServePicks(pool, ops[1..]);
        }
    }
  }

  // ---- a batch ----

  function AddAll(pool: Pool, priorities: seq<int>): Pool {
    if priorities == [] then pool
    else Add(AddAll(pool, priorities[..|priorities| - 1]), priorities[|priorities| - 1])
  }

  function Arrivals(first: int, priorities: seq<int>): seq<Job> {
    seq(|priorities|, i requires 0 <= i < |priorities| => Job(first + i, priorities[i]))
  }

  lemma {:induction false} BatchQueue(pool: Pool, priorities: seq<int>)
    requires pool.queue == []
    ensures var p := AddAll(pool, priorities);
      p.queue == Sort(Rank, Arrivals(pool.nextPid, priorities)) && p.nextPid == pool.nextPid + |priorities|
  {
    if priorities != [] {
      var n := |priorities| - 1;
      BatchQueue(pool, priorities[..n]);
      var a, x := Arrivals(pool.nextPid, priorities[..n]), Job(pool.nextPid + n, priorities[n]);
      assert Arrivals(pool.nextPid, priorities) == a + [x];
      SortLast(a, x);
    }
  }

  lemma SortLast(a: seq<Job>, x: Job)
    ensures Sort(Rank, a + [x]) == Insert(Rank, Sort(Rank, a), x)
  {
    assert (a + [x])[..|a|] == a;
  }

  /** A batch added to an empty deque waits in the one stable order by falling priority. */
  lemma BatchIsStableSort(pool: Pool, priorities: seq<int>, order: seq<Job>)
    requires pool.queue == []
    ensures IsStableSort(Rank, Arrivals(pool.nextPid, priorities), AddAll(pool, priorities).queue)
    ensures IsStableSort(Rank, Arrivals(pool.nextPid, priorities), order) ==> order == AddAll(pool, priorities).queue
  {
    var arrivals, q := Arrivals(pool.nextPid, priorities), AddAll(pool, priorities).queue;
    BatchQueue(pool, priorities);
    SortIsStable(Rank, arrivals);
    if IsStableSort(Rank, arrivals, order) {
      SameOrder(arrivals, order, q);
      StableSortUnique(Rank, order, q);
    }
  }

  lemma SameOrder(arrivals: seq<Job>, a: seq<Job>, b: seq<Job>)
    requires SameClasses(Rank, a, arrivals) && SameClasses(Rank, b, arrivals)
    ensures SameClasses(Rank, a, b)
  {
    forall v
      ensures WithKey(Rank, a, v) == WithKey(Rank, b, v)
    {
      assert WithKey(Rank, a, v) == WithKey(Rank, arrivals, v);
      assert WithKey(Rank, b, v) == WithKey(Rank, arrivals, v);
    }
  }

  // ---- exactly once ----

  predicate Queued(q: seq<Job>, p: int) {
    exists i :: 0 <= i < |q| && q[i].pid == p
  }

  ghost predicate DistinctPids(q: seq<Job>) {
    forall i, j :: 0 <= i < j < |q| ==> q[i].pid != q[j].pid
  }

  /**
    Every pid handed out is queued and READY, in the scheduler's hands and RUNNING, or TERMINATED.
    `trace` lists the pids in the order they were dispatched, `hand` is the one being run.
   */
  ghost predicate PlaceOk(pool: Pool, trace: seq<int>, hand: Option<int>, p: int) {
    && (p in pool.states <==> 1 <= p < pool.nextPid)
    && (Queued(pool.queue, p) <==> p in pool.states && pool.states[p] == Ready)
    && (hand == Some(p) <==> p in pool.states && pool.states[p] == Running)
    && (p in trace <==> p in pool.states && pool.states[p] != Ready)
  }

  ghost predicate Tracked(pool: Pool, trace: seq<int>, hand: Option<int>) {
    && 1 <= pool.nextPid && QueueOk(pool) && DistinctPids(pool.queue) && NoDup(trace)
    && forall p :: PlaceOk(pool, trace, hand, p)
  }

  lemma EmptyTracked()
    ensures Tracked(EMPTY, [], None)
  {
    assert forall p :: PlaceOk(EMPTY, [], None, p);
  }

  lemma FlagTracked(pool: Pool, trace: seq<int>, hand: Option<int>, running: bool)
    requires Tracked(pool, trace, hand)
    ensures Tracked(pool.(running := running), trace, hand)
  {
    forall p
      ensures PlaceOk(pool.(running := running), trace, hand, p)
    {
      assert PlaceOk(pool, trace, hand, p);
    }
  }

  lemma AddTracked(pool: Pool, trace: seq<int>, hand: Option<int>, priority: int)
    requires Tracked(pool, trace, hand)
    ensures Tracked(Add(pool, priority), trace, hand)
  {
    var x := Job(pool.nextPid, priority);
    AddKeepsQueue(pool, priority);
    assert PlaceOk(pool, trace, hand, x.pid);
    InsertPids(pool.queue, x);
    forall p
      ensures PlaceOk(Add(pool, priority), trace, hand, p)
    {
      assert PlaceOk(pool, trace, hand, p);
      InsertQueued(pool.queue, x, p);
    }
  }

  lemma InsertQueued(q: seq<Job>, x: Job, p: int)
    ensures Queued(Insert(Rank, q, x), p) <==> p == x.pid || Queued(q, p)
  {
    var r := Insert(Rank, q, x);
    InsertMembers(q, x);
    if Queued(q, p) {
      var i :| 0 <= i < |q| && q[i].pid == p;
      assert q[i] in r;
    }
    if Queued(r, p) {
      var i :| 0 <= i < |r| && r[i].pid == p;
      assert r[i] in r;
    }
    assert x in r;
  }

  lemma InsertPids(q: seq<Job>, x: Job)
    requires DistinctPids(q) && !Queued(q, x.pid)
    ensures DistinctPids(Insert(Rank, q, x))
  {
    var i, r := Slot(Rank, q, Rank(x)), Insert(Rank, q, x);
    assert forall j :: 0 <= j < |r| ==> r[j] == if j < i then q[j] else if j == i then x else q[j - 1];
  }

  lemma TakeTracked(pool: Pool, trace: seq<int>)
    requires Tracked(pool, trace, None) && pool.queue != []
    ensures Tracked(Take(pool), trace + [pool.queue[0].pid], Some(pool.queue[0].pid))
  {
    var front := pool.queue[0];
    TakeKeepsQueue(pool);
    assert Queued(pool.queue, front.pid) && PlaceOk(pool, trace, None, front.pid);
    AppendNoDup(trace, front.pid);
    forall p
      ensures PlaceOk(Take(pool), trace + [front.pid], Some(front.pid), p)
    {
      assert PlaceOk(pool, trace, None, p);
      TailQueued(pool.queue, p);
    }
  }

  lemma TailQueued(q: seq<Job>, p: int)
    requires DistinctPids(q) && q != []
    ensures Queued(q[1..], p) <==> Queued(q, p) && p != q[0].pid
  {
    if Queued(q, p) && p != q[0].pid {
      var i :| 0 <= i < |q| && q[i].pid == p;
      assert q[1..][i - 1].pid == p;
    }
    if Queued(q[1..], p) {
      var i :| 0 <= i < |q| - 1 && q[1..][i].pid == p;
      assert q[i + 1].pid == p;
    }
  }

  lemma FinishTracked(pool: Pool, trace: seq<int>, pid: int)
    requires Tracked(pool, trace, Some(pid))
    ensures Tracked(Finish(pool, pid), trace, None)
  {
    assert PlaceOk(pool, trace, Some(pid), pid);
    forall p
      ensures PlaceOk(Finish(pool, pid), trace, None, p)
    {
      assert PlaceOk(pool, trace, Some(pid), p);
    }
  }

  /** With nothing queued and nothing in hand every process added so far has terminated, after exactly one dispatch. */
  lemma EmptyMeansDone(pool: Pool, trace: seq<int>)
    requires Tracked(pool, trace, None) && pool.queue == []
    ensures forall p :: 1 <= p < pool.nextPid ==> p in pool.states && pool.states[p] == Terminated && p in trace
    ensures NoDup(trace) && |trace| == pool.nextPid - 1
  {
    forall p
      ensures p in trace <==> 1 <= p < pool.nextPid
      ensures 1 <= p < pool.nextPid ==> p in pool.states && pool.states[p] == Terminated
    {
      assert PlaceOk(pool, trace, None, p);
    }
    NoDupLength(trace);
    assert (set p | p in trace) == Below(pool.nextPid);
  }

  /** The pids 1 to n - 1. */
  ghost function Below(n: int): (r: set<int>)
    requires 1 <= n
    ensures |r| == n - 1
    ensures forall p :: p in r <==> 1 <= p < n
  {
    if n == 1 then {} else Below(n - 1) + {n - 1}
  }

  function Pids(jobs: seq<Job>): seq<int> {
    seq(|jobs|, i requires 0 <= i < |jobs| => jobs[i].pid)
  }

  lemma PidsAppend(jobs: seq<Job>, x: Job)
    ensures Pids(jobs + [x]) == Pids(jobs) + [x.pid]
  {
  }

  // ---- the class ----

  class CoreSystem {
    var readyQueue: seq<Job>
    var processStates: map<int, JobState>
    var nextPid: int
    var running: bool
    // Not in the code: the pids dispatched so far, and the one whose task is running.
    ghost var trace: seq<int>
    ghost var hand: Option<int>

    ghost function View(): Pool
      reads this
    {
      Pool(readyQueue, processStates, nextPid, running)
    }

    ghost predicate Valid()
      reads this
    {
      Tracked(View(), trace, hand)
    }

    constructor ()
      ensures View() == EMPTY && trace == [] && hand == None && Valid()
    {
      readyQueue, processStates, nextPid, running := [], map[], 1, false;
      trace, hand := [], None;
      new;
      EmptyTracked();
    }

    method Start()
      requires Valid()
      modifies this`running
      ensures Valid() && View() == old(View()).(running := true)
    {
      FlagTracked(View(), trace, hand, true);
      running := true;
    }

    /** The critical section of `stop`. */
    method RequestStop()
      requires Valid()
      modifies this`running
      ensures Valid() && View() == old(View()).(running := false)
    {
      FlagTracked(View(), trace, hand, false);
      running := false;
    }

    method AddProcess(priority: int)
      requires Valid()
      modifies this`readyQueue, this`processStates, this`nextPid
      ensures Valid() && View() == Add(old(View()), priority)
    {
      AddTracked(View(), trace, hand, priority);
      var pid := nextPid;
      nextPid := nextPid + 1;
      var it := 0;
      while it < |readyQueue| && !(priority > readyQueue[it].priority)
        invariant it <= |readyQueue|
        invariant forall j :: 0 <= j < it ==> readyQueue[j].priority >= priority
      {
        it := it + 1;
      }
      InsertedAt(readyQueue, Job(pid, priority), it);
      readyQueue := readyQueue[..it] + [Job(pid, priority)] + readyQueue[it..];
      processStates := processStates[pid := Ready];
    }

    /** None for a pid never handed out; otherwise what the answer says about the process. */
    method GetProcessState(pid: int) returns (state: Option<JobState>)
      requires Valid()
      ensures state == None <==> !(1 <= pid < nextPid)
      ensures state == Some(Ready) <==> Queued(readyQueue, pid)
      ensures state == Some(Running) <==> hand == Some(pid)
      ensures state == Some(Terminated) <==> pid in trace && hand != Some(pid)
    {
      assert PlaceOk(View(), trace, hand, pid);
      if pid in processStates { return Some(processStates[pid]); }
      state := None;
    }

    /** The first critical section of the loop, once its wait is over: None means the loop ends. */
    method TakeNext() returns (job: Option<Job>)
      requires Valid() && hand == None && (!running || readyQueue != [])
      modifies this`readyQueue, this`processStates, this`trace, this`hand
      ensures Valid()
      ensures job.None? <==> old(readyQueue) == []
      ensures job.None? ==> View() == old(View()) && trace == old(trace) && hand == None
      ensures job.Some? ==>
        && job.value == old(readyQueue)[0] && IsBest(job.value, Pending(old(readyQueue)))
        && View() == Take(old(View())) && trace == old(trace) + [job.value.pid] && hand == Some(job.value.pid)
    {
      if !running && readyQueue == [] { return None; }
      TakeTracked(View(), trace);
      FrontIsBest(readyQueue);
      var front := readyQueue[0];
      readyQueue := readyQueue[1..];
      processStates := processStates[front.pid := Running];
      trace, hand := trace + [front.pid], Some(front.pid);
      job := Some(front);
    }

    method FinishJob(job: Job)
      requires Valid() && hand == Some(job.pid)
      modifies this`processStates, this`hand
      ensures Valid() && hand == None && View() == Finish(old(View()), job.pid)
    {
      FinishTracked(View(), trace, job.pid);
      processStates := processStates[job.pid := Terminated];
      hand := None;
    }

    /** The body of the loop after a stop request, with a task that adds nothing: None means the loop ends. */
    method RunNext() returns (job: Option<Job>)
      requires Valid() && hand == None && !running
      modifies this
      ensures Valid() && hand == None && !running && nextPid == old(nextPid)
      ensures job.None? ==> old(readyQueue) == [] == readyQueue && trace == old(trace)
      ensures job.Some? ==>
        old(readyQueue) == [job.value] + readyQueue && trace == old(trace) + [job.value.pid]
    {
      job := TakeNext();
      if job.Some? { FinishJob(job.value); }
    }

    /** The loop after a stop request, with tasks that add nothing: it runs what is queued, in queue order. */
    method SchedulerLoop() returns (ran: seq<Job>)
      requires Valid() && hand == None && !running
      modifies this
      ensures Valid() && hand == None && !running && nextPid == old(nextPid)
      ensures ran == old(readyQueue) && readyQueue == []
      ensures trace == old(trace) + Pids(ran) && |trace| == nextPid - 1
      ensures forall p :: 1 <= p < nextPid ==> p in processStates && processStates[p] == Terminated && p in trace
    {
      ran := [];
      while true
        invariant Valid() && hand == None && !running && nextPid == old(nextPid)
        invariant ran + readyQueue == old(readyQueue)
        invariant trace == old(trace) + Pids(ran)
        decreases |readyQueue|
      {
        var job := RunNext();
        if job.None? { break; }
        PidsAppend(ran, job.value);
        ran := ran + [job.value];
      }
      EmptyMeansDone(View(), trace);
    }
  }

  lemma InsertedAt(q: seq<Job>, x: Job, it: nat)
    requires it <= |q| && (forall j :: 0 <= j < it ==> q[j].priority >= x.priority)
    requires it < |q| ==> x.priority > q[it].priority
    ensures Insert(Rank, q, x) == q[..it] + [x] + q[it..]
  {
    SlotIsFirst(q, x.priority, it);
  }

  lemma {:induction false} SlotIsFirst(q: seq<Job>, priority: int, it: nat)
    requires it <= |q| && (forall j :: 0 <= j < it ==> q[j].priority >= priority)
    requires it < |q| ==> priority > q[it].priority
    ensures Slot(Rank, q, -priority) == it
  {
    if it > 0 {
      assert forall j :: 0 <= j < it - 1 ==> q[1..][j] == q[j + 1];
      SlotIsFirst(q[1..], priority, it - 1);
    }
  }
}
