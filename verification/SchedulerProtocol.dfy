/**
  The threads around the C++ priority scheduler: one scheduler thread, any number of clients that add processes or
  stop the system, one mutex, one condition variable and the handle of the thread. Every lock, unlock, wait and notify
  is a step of its own, and so are the test whether the handle is joinable and the join itself. Adds that a task makes
  while it runs are adds of some client; a stop that a task makes has steps of its own, up to the join of a thread with
  itself, which ends the program.
 */
module SchedulerProtocol {
  import opened Options
  import opened Lists
  import opened PriorityScheduler

  datatype SchedPc =
    | NotStarted
    | Starting               // running_ is set, the thread does not exist yet
    | Entering               // about to lock for the wait
    | Testing                // holds the mutex, about to evaluate the wait condition
    | Parked                 // waits on the condition variable
    | Woken                  // notified, about to lock again
    | Executing(pid: int)    // runs the task
    | Finishing(pid: int)    // holds the mutex after the task
    | TaskStopping(pid: int) // the task stops the system and holds the mutex
    | TaskStopped(pid: int)  // the task has cleared running_ and is about to join its own thread
    | Crashed(pid: int)      // that join has thrown out of the thread: the program is terminated
    | Exited

  datatype ClientPc =
    | Idle
    | Adding(priority: int)  // holds the mutex
    | Added                  // holds the mutex, process inserted
    | Notified               // holds the mutex, notify_one done
    | Stopping               // holds the mutex
    | Stopped                // holds the mutex, running_ cleared
    | Unlocked               // between the unlock and notify_all
    | Checking               // notify_all done, about to ask whether the thread is joinable
    | Calling                // it was, about to call join
    | Joining                // waits for the scheduler thread to end
    | Failed                 // join has failed and stop has thrown

  datatype Holder = Nobody | Scheduler | Client(i: nat)

  /** `trace` lists the pids in the order they were dispatched; `joined` is set when a join returns. */
  datatype System =
    System(pool: Pool, holder: Holder, sched: SchedPc, clients: seq<ClientPc>, joined: bool, trace: seq<int>)

  datatype Move =
    | Launch | Spawn
    | Lock | Test | Spurious | FinishLock | FinishStep
    | TaskStop | TaskClear | TaskJoin
    | BeginAdd(i: nat, priority: int) | BeginStop(i: nat) | Advance(i: nat)

  function Initial(n: nat): System {
    System(EMPTY, Nobody, NotStarted, seq(n, _ => Idle), false, [])
  }

  predicate Holds(c: ClientPc) {
    c.Adding? || c.Added? || c.Notified? || c.Stopping? || c.Stopped?
  }

  /** The handle refers to a thread from the moment it exists until a join of it has returned. */
  predicate Joinable(s: System) {
    s.sched != NotStarted && s.sched != Starting && !s.joined
  }

  /** Some other client waits in join for the same thread. */
  predicate OtherJoins(s: System, i: nat) {
    exists j :: 0 <= j < |s.clients| && j != i && s.clients[j] == Joining
  }

  predicate Enabled(s: System, m: Move) {
    !s.sched.Crashed? &&
    match m
    case Launch => s.sched == NotStarted
    case Spawn => s.sched == Starting
    case Lock => (s.sched == Entering || s.sched == Woken) && s.holder == Nobody
    case Test => s.sched == Testing
    case Spurious => s.sched == Parked
    case FinishLock => s.sched.Executing? && s.holder == Nobody
    case FinishStep => s.sched.Finishing?
    case TaskStop => s.sched.Executing? && s.holder == Nobody
    case TaskClear => s.sched.TaskStopping?
    case TaskJoin => s.sched.TaskStopped?
    case BeginAdd(i, _) => i < |s.clients| && s.clients[i] == Idle && s.holder == Nobody
    case BeginStop(i) => i < |s.clients| && s.clients[i] == Idle && s.holder == Nobody
    case Advance(i) =>
      && i < |s.clients| && s.clients[i] != Idle && s.clients[i] != Failed
      && (s.clients[i] == Joining ==> s.sched == Exited)
  }

  function Notify(sched: SchedPc): SchedPc {
    if sched == Parked then Woken else sched
  }

  function TestStep(s: System): System
    requires s.sched == Testing
  {
    if s.pool.running && s.pool.queue == [] then s.(sched := Parked, holder := Nobody)
    else if s.pool.queue == [] then s.(sched := Exited, holder := Nobody)
    else
      var pid := s.pool.queue[0].pid;
      s.(pool := Take(s.pool), sched := Executing(pid), holder := Nobody, trace := s.trace + [pid])
  }

  function NextPc(s: System, i: nat): ClientPc
    requires i < |s.clients|
  {
    match s.clients[i]
    case Idle => Idle
    case Adding(_) => Added
    case Added => Notified
    case Notified => Idle
    case Stopping => Stopped
    case Stopped => Unlocked
    case Unlocked => Checking
    case Checking => if Joinable(s) then Calling else Idle
    case Calling => if s.joined || OtherJoins(s, i) then Failed else Joining
    case Joining => Idle
    case Failed => Failed
  }

  /** Inserts the process, clears the flag, or leaves the pool alone. */
  function ClientPool(pool: Pool, c: ClientPc): Pool {
    match c
    case Adding(priority) => Add(pool, priority)
    case Stopping => pool.(running := false)
    case _ => pool
  }

  function ClientStep(s: System, i: nat): System
    requires i < |s.clients|
  {
    var c := s.clients[i];
    s.(pool := ClientPool(s.pool, c),
       holder := if c == Notified || c == Stopped then Nobody else s.holder,
       sched := if c == Added || c == Unlocked then Notify(s.sched) else s.sched,
       clients := s.clients[i := NextPc(s, i)],
       joined := s.joined || c == Joining)
  }

  function Next(s: System, m: Move): System
    requires Enabled(s, m)
  {
    match m
    case Launch => s.(pool := s.pool.(running := true), sched := Starting)
    case Spawn => s.(sched := Entering)
    case Lock => s.(sched := Testing, holder := Scheduler)
    case Test => TestStep(s)
    case Spurious => s.(sched := Woken)
    case FinishLock => s.(sched := Finishing(s.sched.pid), holder := Scheduler)
    case FinishStep => s.(pool := PriorityScheduler.Finish(s.pool, s.sched.pid), sched := Entering, holder := Nobody)
    case TaskStop => s.(sched := TaskStopping(s.sched.pid), holder := Scheduler)
    case TaskClear => s.(pool := s.pool.(running := false), sched := TaskStopped(s.sched.pid), holder := Nobody)
    case TaskJoin => s.(sched := Crashed(s.sched.pid))
    case BeginAdd(i, priority) => s.(clients := s.clients[i := Adding(priority)], holder := Client(i))
    case BeginStop(i) => s.(clients := s.clients[i := Stopping], holder := Client(i))
    case Advance(i) => ClientStep(s, i)
  }

  predicate Schedule(s: System, ms: seq<Move>)
    decreases |ms|
  {
    ms == [] || (Enabled(s, ms[0]) && Schedule(Next(s, ms[0]), ms[1..]))
  }

  function Run(s: System, ms: seq<Move>): System
    requires Schedule(s, ms)
    decreases |ms|
  {
    if ms == [] then s else Run(Next(s, ms[0]), ms[1..])
  }

  // ---- mutual exclusion ----

  ghost predicate MutexOk(s: System) {
    && (s.holder == Scheduler <==> s.sched == Testing || s.sched.Finishing? || s.sched.TaskStopping?)
    && (forall i :: 0 <= i < |s.clients| ==> (Holds(s.clients[i]) <==> s.holder == Client(i)))
    && (s.holder.Client? ==> s.holder.i < |s.clients|)
  }

  lemma MutexKept(s: System, m: Move)
    requires MutexOk(s) && Enabled(s, m)
    ensures MutexOk(Next(s, m))
  {
  }

  // ---- condition variable ----

  /** Client i has changed what the scheduler waits for and has yet to notify it. */
  predicate Owes(s: System, i: nat) {
    i < |s.clients| && (s.clients[i] == Added || s.clients[i] == Stopped || s.clients[i] == Unlocked)
  }

  ghost predicate NoMissedWakeUp(s: System) {
    s.sched == Parked ==> (s.pool.running && s.pool.queue == []) || exists i: nat :: Owes(s, i)
  }

  lemma WakeUpKept(s: System, m: Move)
    requires MutexOk(s) && NoMissedWakeUp(s) && Enabled(s, m)
    ensures NoMissedWakeUp(Next(s, m))
  {
    var t := Next(s, m);
    if t.sched == Parked && s.sched == Parked {
      if m.Advance? && (s.clients[m.i].Adding? || s.clients[m.i] == Stopping || s.clients[m.i] == Stopped) {
        assert Owes(t, m.i);
      } else if i: nat :| Owes(s, i) {
        assert Owes(t, i);
      }
    }
  }

  /**
    Parked with the mutex free: either there is nothing to do, or a stop is between its unlock and notify_all.
    That notification can be sent at once, and it wakes the scheduler.
   */
  ghost predicate RestsRightly(s: System) {
    s.sched == Parked && s.holder == Nobody ==>
      && ((s.pool.running && s.pool.queue == []) || exists i :: 0 <= i < |s.clients| && s.clients[i] == Unlocked)
      && forall i :: 0 <= i < |s.clients| && s.clients[i] == Unlocked ==>
           Enabled(s, Advance(i)) && Next(s, Advance(i)).sched == Woken
  }

  lemma ParkedMeansNothingToDo(s: System)
    requires MutexOk(s) && NoMissedWakeUp(s)
    ensures RestsRightly(s)
  {
    if s.sched == Parked && s.holder == Nobody && !(s.pool.running && s.pool.queue == []) {
      var i: nat :| Owes(s, i);
      assert Holds(s.clients[i]) ==> s.holder == Client(i);
    }
  }

  // ---- pieces of schedules ----

  lemma {:induction false} ScheduleConcat(s: System, ms: seq<Move>, ns: seq<Move>)
    requires Schedule(s, ms) && Schedule(Run(s, ms), ns)
    ensures Schedule(s, ms + ns) && Run(s, ms + ns) == Run(Run(s, ms), ns)
    decreases |ms|
  {
    if ms == [] {
      assert ms + ns == ns;
    } else {
      assert (ms + ns)[1..] == ms[1..] + ns;
      ScheduleConcat(Next(s, ms[0]), ms[1..], ns);
    }
  }

  lemma OneMove(s: System, m: Move)
    requires Enabled(s, m)
    ensures Schedule(s, [m]) && Run(s, [m]) == Next(s, m)
  {
    assert [m][1..] == [];
  }

  lemma TwoMoves(s: System, m: Move, m': Move)
    requires Enabled(s, m) && Enabled(Next(s, m), m')
    ensures Schedule(s, [m] + [m']) && Run(s, [m] + [m']) == Next(Next(s, m), m')
  {
    OneMove(s, m);
    OneMove(Next(s, m), m');
    ScheduleConcat(s, [m], [m']);
  }

  lemma ThreeMoves(s: System, a: Move, b: Move, c: Move)
    requires Enabled(s, a) && Enabled(Next(s, a), b) && Enabled(Next(Next(s, a), b), c)
    ensures Schedule(s, [a] + [b] + [c]) && Run(s, [a] + [b] + [c]) == Next(Next(Next(s, a), b), c)
  {
    TwoMoves(s, a, b);
    OneMove(Next(Next(s, a), b), c);
    ScheduleConcat(s, [a] + [b], [c]);
  }

  /** Started with nothing to do, the scheduler goes to sleep. */
  lemma StartAndSleep(s: System) returns (ms: seq<Move>)
    requires s.sched == NotStarted && s.holder == Nobody && s.pool.queue == []
    ensures ms == [Launch] + [Spawn] + ([Lock] + [Test]) && Schedule(s, ms)
    ensures Run(s, ms) == s.(sched := Parked, pool := s.pool.(running := true))
  {
    TwoMoves(s, Launch, Spawn);
    var s2 := Next(Next(s, Launch), Spawn);
    TwoMoves(s2, Lock, Test);
    ms := [Launch] + [Spawn] + ([Lock] + [Test]);
    ScheduleConcat(s, [Launch] + [Spawn], [Lock] + [Test]);
  }

  /** A stop up to its unlock. */
  lemma StopToUnlock(s: System, i: nat) returns (ms: seq<Move>)
    requires i < |s.clients| && s.clients[i] == Idle && s.holder == Nobody && !s.sched.Crashed?
    ensures Schedule(s, ms)
    ensures Run(s, ms) == s.(pool := s.pool.(running := false), clients := s.clients[i := Unlocked])
  {
    ThreeMoves(s, BeginStop(i), Advance(i), Advance(i));
    ms := [BeginStop(i)] + [Advance(i)] + [Advance(i)];
    assert s.clients[i := Stopping][i := Stopped][i := Unlocked] == s.clients[i := Unlocked];
  }

  /** The window is real: a stop can have cleared the flag and unlocked while the scheduler is still parked. */
  lemma RaceWindow() returns (ms: seq<Move>)
    ensures Schedule(Initial(1), ms)
    ensures var s := Run(Initial(1), ms); s.sched == Parked && !s.pool.running && s.holder == Nobody
  {
    var a := StartAndSleep(Initial(1));
    var b := StopToUnlock(Run(Initial(1), a), 0);
    ScheduleConcat(Initial(1), a, b);
    ms := a + b;
  }

  // ---- exactly once ----

  function Hand(sched: SchedPc): Option<int> {
    if sched.Executing? || sched.Finishing? || sched.TaskStopping? || sched.TaskStopped? || sched.Crashed? then
      Some(sched.pid)
    else None
  }

  ghost predicate OnceOk(s: System) {
    Tracked(s.pool, s.trace, Hand(s.sched))
  }

  lemma OnceKept(s: System, m: Move)
    requires OnceOk(s) && Enabled(s, m)
    ensures OnceOk(Next(s, m))
  {
    if m.Test? && s.pool.queue != [] {
      TakeTracked(s.pool, s.trace);
    } else if m.FinishStep? {
      FinishTracked(s.pool, s.trace, s.sched.pid);
    } else if m.Advance? && s.clients[m.i].Adding? {
      AddTracked(s.pool, s.trace, Hand(s.sched), s.clients[m.i].priority);
    } else {
      FlagTracked(s.pool, s.trace, Hand(s.sched), Next(s, m).pool.running);
    }
  }

  function Stage(st: JobState): nat {
    match st case Ready => 0 case Running => 1 case Terminated => 2
  }

  /**
    From s to t process p stays where it is or moves one stage on; a dispatch is recorded and takes the best job.
   */
  ghost predicate MovesForward(s: System, t: System, p: int)
    requires p in s.pool.states
  {
    && p in t.pool.states
    && Stage(s.pool.states[p]) <= Stage(t.pool.states[p]) <= Stage(s.pool.states[p]) + 1
    && (s.pool.states[p] == Ready && t.pool.states[p] == Running ==>
          && t.trace == s.trace + [p]
          && s.pool.queue != [] && s.pool.queue[0].pid == p && IsBest(s.pool.queue[0], Pending(s.pool.queue)))
  }

  lemma OnlyForward(s: System, m: Move, p: int)
    requires OnceOk(s) && Enabled(s, m) && p in s.pool.states
    ensures MovesForward(s, Next(s, m), p)
  {
    var hand := Hand(s.sched);
    assert PlaceOk(s.pool, s.trace, hand, p) && PlaceOk(s.pool, s.trace, hand, s.pool.nextPid);
    if s.pool.queue != [] {
      FrontIsBest(s.pool.queue);
      var front := s.pool.queue[0].pid;
      assert Queued(s.pool.queue, front) && PlaceOk(s.pool, s.trace, hand, front);
    }
    if m.FinishStep? {
      assert PlaceOk(s.pool, s.trace, hand, s.sched.pid);
    }
  }

  /** If the loop ends at the next test, every process added so far has terminated, after exactly one dispatch. */
  ghost predicate EndsDrained(s: System) {
    s.sched == Testing && TestStep(s).sched == Exited ==>
      && !s.pool.running
      && (forall p :: 1 <= p < s.pool.nextPid ==> p in s.pool.states && s.pool.states[p] == Terminated && p in s.trace)
      && NoDup(s.trace) && |s.trace| == s.pool.nextPid - 1
  }

  lemma LoopEndDrains(s: System)
    requires OnceOk(s)
    ensures EndsDrained(s)
  {
    if s.sched == Testing && TestStep(s).sched == Exited {
      EmptyMeansDone(s.pool, s.trace);
    }
  }

  // ---- whole runs ----

  ghost predicate Inv(s: System) {
    MutexOk(s) && NoMissedWakeUp(s) && OnceOk(s)
  }

  lemma InitialInv(n: nat)
    ensures Inv(Initial(n))
  {
    EmptyTracked();
  }

  lemma StepKeepsInv(s: System, m: Move)
    requires Inv(s) && Enabled(s, m)
    ensures Inv(Next(s, m))
  {
    MutexKept(s, m);
    WakeUpKept(s, m);
    OnceKept(s, m);
  }

  lemma {:induction false} RunKeepsInv(s: System, ms: seq<Move>)
    requires Inv(s) && Schedule(s, ms)
    ensures Inv(Run(s, ms))
    decreases |ms|
  {
    if ms != [] {
      StepKeepsInv(s, ms[0]);
      RunKeepsInv(Next(s, ms[0]), ms[1..]);
    }
  }

  /**
    In every state that any schedule of any number of clients can reach: the mutex has one holder, each pid is in one
    place, the scheduler rests rightly, the next step moves processes only forward, and a loop that ends has drained.
   */
  lemma SchedulerSafety(n: nat, ms: seq<Move>)
    requires Schedule(Initial(n), ms)
    ensures var s := Run(Initial(n), ms);
      && Inv(s) && RestsRightly(s) && EndsDrained(s)
      && forall m, p :: Enabled(s, m) && p in s.pool.states ==> MovesForward(s, Next(s, m), p)
  {
    InitialInv(n);
    RunKeepsInv(Initial(n), ms);
    var s := Run(Initial(n), ms);
    ParkedMeansNothingToDo(s);
    LoopEndDrains(s);
    forall m, p | Enabled(s, m) && p in s.pool.states
      ensures MovesForward(s, Next(s, m), p)
    {
      OnlyForward(s, m, p);
    }
  }
}
