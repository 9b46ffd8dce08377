/**
  How a stop of the C++ scheduler ends. `stop` asks whether the thread is joinable and joins it without the mutex, so of
  two stops that overlap there the second join fails; and a task that stops the system joins its own thread. These are
  the only ways in which a stop that is not lost can go wrong.
 */
module JoinProtocol {
  import opened PriorityScheduler
  import opened SchedulerProtocol
  import opened StopProtocol

  // ---- when a join fails ----

  /** This step calls join on a thread that another client joins or has joined. */
  predicate FailingJoin(s: System, m: Move) {
    m.Advance? && m.i < |s.clients| && s.clients[m.i] == Calling && (s.joined || OtherJoins(s, m.i))
  }

  predicate NoFailingJoin(s: System, ms: seq<Move>)
    requires Schedule(s, ms)
    decreases |ms|
  {
    ms == [] || (!FailingJoin(s, ms[0]) && NoFailingJoin(Next(s, ms[0]), ms[1..]))
  }

  predicate NobodyFailed(s: System) {
    forall i :: 0 <= i < |s.clients| ==> s.clients[i] != Failed
  }

  lemma StepFails(s: System, m: Move)
    requires Enabled(s, m)
    ensures NobodyFailed(Next(s, m)) <==> NobodyFailed(s) && !FailingJoin(s, m)
  {
    var t := Next(s, m);
    if FailingJoin(s, m) { assert t.clients[m.i] == Failed; }
    if !NobodyFailed(s) {
      var i :| 0 <= i < |s.clients| && s.clients[i] == Failed;
      assert t.clients[i] == Failed;
    }
  }

  /** Over every schedule no client fails if and only if none calls join while, or after, another one joins. */
  lemma {:induction false} FailureFree(s: System, ms: seq<Move>)
    requires NobodyFailed(s) && Schedule(s, ms)
    ensures NobodyFailed(Run(s, ms)) <==> NoFailingJoin(s, ms)
    decreases |ms|
  {
    if ms != [] {
      StepFails(s, ms[0]);
      if NobodyFailed(Next(s, ms[0])) {
        FailureFree(Next(s, ms[0]), ms[1..]);
      } else {
        FailedStays(Next(s, ms[0]), ms[1..]);
      }
    }
  }

  lemma {:induction false} FailedStays(s: System, ms: seq<Move>)
    requires !NobodyFailed(s) && Schedule(s, ms)
    ensures !NobodyFailed(Run(s, ms))
    decreases |ms|
  {
    if ms != [] {
      StepFails(s, ms[0]);
      FailedStays(Next(s, ms[0]), ms[1..]);
    }
  }

  // ---- the overlap that leads there ----

  /** This client has found the thread joinable and has not come back from joining it. */
  predicate InJoin(c: ClientPc) { c == Calling || c == Joining }

  predicate OtherInJoin(s: System, i: nat) {
    exists j :: 0 <= j < |s.clients| && j != i && InJoin(s.clients[j])
  }

  /** This step finds the thread joinable while another client is between that finding and the return of its join. */
  predicate Overlap(s: System, m: Move) {
    m.Advance? && m.i < |s.clients| && s.clients[m.i] == Checking && Joinable(s) && OtherInJoin(s, m.i)
  }

  predicate NoOverlap(s: System, ms: seq<Move>)
    requires Schedule(s, ms)
    decreases |ms|
  {
    ms == [] || (!Overlap(s, ms[0]) && NoOverlap(Next(s, ms[0]), ms[1..]))
  }

  /** At most one client is about to join or joining, the thread is there for it, and nobody has failed. */
  ghost predicate Sound(s: System) {
    && (forall i, j :: 0 <= i < j < |s.clients| ==> !(InJoin(s.clients[i]) && InJoin(s.clients[j])))
    && (forall i :: 0 <= i < |s.clients| && InJoin(s.clients[i]) ==> !s.joined)
    && NobodyFailed(s)
  }

  /** Only one client at a time gets into join, for a thread not yet joined; a joined thread has ended. */
  ghost predicate JoinsOk(s: System) {
    && (forall i, j :: 0 <= i < j < |s.clients| ==> !(s.clients[i] == Joining && s.clients[j] == Joining))
    && (forall i :: 0 <= i < |s.clients| && s.clients[i] == Joining ==> !s.joined)
    && (forall i :: 0 <= i < |s.clients| && InJoin(s.clients[i]) ==> s.sched != NotStarted && s.sched != Starting)
    && (s.joined ==> s.sched == Exited)
  }

  lemma StepJoinsOk(s: System, m: Move)
    requires JoinsOk(s) && Enabled(s, m)
    ensures JoinsOk(Next(s, m))
  {
    if m.Advance? { ClientJoinsOk(s, m.i); } else { NoClientJoins(s, m); }
  }

  /** Moves of the scheduler thread and new calls do not touch the joins. */
  lemma NoClientJoins(s: System, m: Move)
    requires Enabled(s, m) && !m.Advance?
    ensures var t := Next(s, m);
      && t.joined == s.joined && |t.clients| == |s.clients|
      && (forall i :: 0 <= i < |s.clients| ==> InJoin(t.clients[i]) == InJoin(s.clients[i]))
      && (forall i :: 0 <= i < |s.clients| ==> (t.clients[i] == Joining <==> s.clients[i] == Joining))
      && (s.sched == Exited ==> t.sched == Exited)
      && (s.sched != NotStarted && s.sched != Starting ==> t.sched != NotStarted && t.sched != Starting)
  {
  }

  lemma ClientJoinsOk(s: System, i: nat)
    requires JoinsOk(s) && Enabled(s, Advance(i))
    ensures JoinsOk(ClientStep(s, i))
  {
    if s.clients[i] == Calling {
      assert forall j :: 0 <= j < |s.clients| && j != i && s.clients[j] == Joining ==> OtherJoins(s, i);
    }
  }

  lemma OverlapUnsound(s: System, m: Move)
    requires Enabled(s, m) && Overlap(s, m)
    ensures !Sound(Next(s, m))
  {
    var t := Next(s, m);
    var j :| 0 <= j < |s.clients| && j != m.i && InJoin(s.clients[j]);
    assert InJoin(t.clients[m.i]) && InJoin(t.clients[j]);
    assert InJoin(t.clients[if j < m.i then j else m.i]) && InJoin(t.clients[if j < m.i then m.i else j]);
  }

  lemma SoundNeverFails(s: System, m: Move)
    requires Sound(s)
    ensures !FailingJoin(s, m)
  {
  }

  lemma SoundStays(s: System, m: Move)
    requires Sound(s) && Enabled(s, m) && !Overlap(s, m)
    ensures Sound(Next(s, m))
  {
    StepFails(s, m);
    SoundNeverFails(s, m);
    if m.Advance? { ClientSound(s, m.i); } else { NoClientJoins(s, m); }
  }

  lemma ClientSound(s: System, i: nat)
    requires Sound(s) && Enabled(s, Advance(i)) && !Overlap(s, Advance(i)) && NobodyFailed(ClientStep(s, i))
    ensures Sound(ClientStep(s, i))
  {
    var t := ClientStep(s, i);
    if s.clients[i] == Checking && Joinable(s) {
      assert forall j :: 0 <= j < |s.clients| && j != i && InJoin(s.clients[j]) ==> OtherInJoin(s, i);
    }
    assert forall j :: 0 <= j < |s.clients| && j != i ==> t.clients[j] == s.clients[j];
    assert InJoin(t.clients[i]) && s.clients[i] != Checking ==> InJoin(s.clients[i]);
  }

  /** An overlap cannot be undone: one of the two clients fails, or is bound to. */
  lemma UnsoundStays(s: System, m: Move)
    requires !Sound(s) && JoinsOk(s) && Enabled(s, m)
    ensures !Sound(Next(s, m))
  {
    var t := Next(s, m);
    StepFails(s, m);
    if NobodyFailed(t) {
      if i, j :| 0 <= i < j < |s.clients| && InJoin(s.clients[i]) && InJoin(s.clients[j]) {
        PairStays(s, m, i, j);
      } else {
        var i :| 0 <= i < |s.clients| && InJoin(s.clients[i]) && s.joined;
        assert s.clients[i] == Calling;
        assert InJoin(t.clients[i]) && t.joined;
      }
    }
  }

  lemma PairStays(s: System, m: Move, i: nat, j: nat)
    requires JoinsOk(s) && Enabled(s, m) && NobodyFailed(Next(s, m))
    requires i < j < |s.clients| && InJoin(s.clients[i]) && InJoin(s.clients[j])
    ensures !Sound(Next(s, m))
  {
    var t := Next(s, m);
    if m == Advance(i) && s.clients[i] == Joining {
      assert InJoin(t.clients[j]) && t.joined;
    } else if m == Advance(j) && s.clients[j] == Joining {
      assert InJoin(t.clients[i]) && t.joined;
    } else {
      assert InJoin(t.clients[i]) && InJoin(t.clients[j]);
    }
  }

  lemma {:induction false} SoundRun(s: System, ms: seq<Move>)
    requires JoinsOk(s) && Schedule(s, ms)
    ensures JoinsOk(Run(s, ms))
    ensures Sound(s) ==> (Sound(Run(s, ms)) <==> NoOverlap(s, ms))
    ensures !Sound(s) ==> !Sound(Run(s, ms))
    decreases |ms|
  {
    if ms != [] {
      StepJoinsOk(s, ms[0]);
      if Sound(s) {
        if Overlap(s, ms[0]) { OverlapUnsound(s, ms[0]); } else { SoundStays(s, ms[0]); }
      } else {
        UnsoundStays(s, ms[0]);
      }
      SoundRun(Next(s, ms[0]), ms[1..]);
    }
  }

  // ---- one stop at a time ----

  predicate InStop(c: ClientPc) {
    c == Stopping || c == Stopped || c == Unlocked || c == Checking || InJoin(c)
  }

  /** No stop begins while another one has not returned: what the callers can see to. */
  predicate OneStopAtATime(s: System, ms: seq<Move>)
    requires Schedule(s, ms)
    decreases |ms|
  {
    ms == [] || (BeginsAlone(s, ms[0]) && OneStopAtATime(Next(s, ms[0]), ms[1..]))
  }

  ghost predicate AtMostOneStop(s: System) {
    forall i, j :: 0 <= i < j < |s.clients| ==> !(InStop(s.clients[i]) && InStop(s.clients[j]))
  }

  predicate BeginsAlone(s: System, m: Move) {
    m.BeginStop? ==> forall i :: 0 <= i < |s.clients| ==> !InStop(s.clients[i])
  }

  /** Except by a new stop nobody gets into one. */
  lemma StopsOnlyBegin(s: System, m: Move, i: nat)
    requires Enabled(s, m) && i < |s.clients|
    ensures |Next(s, m).clients| == |s.clients|
    ensures InStop(Next(s, m).clients[i]) ==> InStop(s.clients[i]) || m == BeginStop(i)
  {
  }

  lemma StepKeepsOneStop(s: System, m: Move)
    requires AtMostOneStop(s) && Enabled(s, m) && BeginsAlone(s, m)
    ensures AtMostOneStop(Next(s, m)) && !Overlap(s, m)
  {
    var t := Next(s, m);
    forall i, j | 0 <= i < j < |t.clients|
      ensures !(InStop(t.clients[i]) && InStop(t.clients[j]))
    {
      StopsOnlyBegin(s, m, i);
      StopsOnlyBegin(s, m, j);
    }
  }

  /** It rules out every overlap. */
  lemma {:induction false} OneStopNeverOverlaps(s: System, ms: seq<Move>)
    requires AtMostOneStop(s) && Schedule(s, ms) && OneStopAtATime(s, ms)
    ensures NoOverlap(s, ms) && AtMostOneStop(Run(s, ms))
    decreases |ms|
  {
    if ms != [] {
      StepKeepsOneStop(s, ms[0]);
      OneStopNeverOverlaps(Next(s, ms[0]), ms[1..]);
    }
  }

  // ---- a join that fails ----

  /** A stop up to the finding that the thread is joinable. */
  lemma StopToCall(s: System, i: nat) returns (ms: seq<Move>)
    requires i < |s.clients| && s.clients[i] == Idle && s.holder == Nobody && Joinable(s)
    requires !s.sched.Crashed? && s.sched != Parked
    ensures Schedule(s, ms)
    ensures Run(s, ms) == s.(pool := s.pool.(running := false), clients := s.clients[i := Calling])
  {
    var a := StopToUnlock(s, i);
    var t := Run(s, a);
    TwoMoves(t, Advance(i), Advance(i));
    ScheduleConcat(s, a, [Advance(i)] + [Advance(i)]);
    ms := a + ([Advance(i)] + [Advance(i)]);
    assert s.clients[i := Unlocked][i := Checking][i := Calling] == s.clients[i := Calling];
  }

  /** One client stops a running system and waits in join. */
  lemma FirstStopJoins() returns (ms: seq<Move>)
    ensures Schedule(Initial(2), ms)
    ensures var s := Run(Initial(2), ms);
      s.clients == [Joining, Idle] && s.sched == Entering && s.holder == Nobody && !s.joined
  {
    var s0 := Initial(2);
    TwoMoves(s0, Launch, Spawn);
    var s1 := Next(Next(s0, Launch), Spawn);
    var a := StopToCall(s1, 0);
    ScheduleConcat(s0, [Launch] + [Spawn], a);
    var s2 := Run(s1, a);
    OneMove(s2, Advance(0));
    ms := [Launch] + [Spawn] + a + [Advance(0)];
    ScheduleConcat(s0, [Launch] + [Spawn] + a, [Advance(0)]);
  }

  lemma SecondJoinFails(s: System) returns (ms: seq<Move>)
    requires s.clients == [Joining, Idle] && s.sched == Entering && s.holder == Nobody && !s.joined
    ensures Schedule(s, ms) && Run(s, ms).clients == [Joining, Failed]
  {
    var a := StopToCall(s, 1);
    var t := Run(s, a);
    assert t.clients == [Joining, Calling];
    assert t.clients[0] == Joining && OtherJoins(t, 1);
    OneMove(t, Advance(1));
    ScheduleConcat(s, a, [Advance(1)]);
    ms := a + [Advance(1)];
  }

  /** Two clients stop a running system at the same time: the join of the second one fails. */
  lemma OverlappingStops() returns (ms: seq<Move>)
    ensures Schedule(Initial(2), ms)
    ensures Run(Initial(2), ms).clients == [Joining, Failed] && !NoFailingJoin(Initial(2), ms)
  {
    var a := FirstStopJoins();
    var b := SecondJoinFails(Run(Initial(2), a));
    ScheduleConcat(Initial(2), a, b);
    ms := a + b;
    FailureFree(Initial(2), ms);
    assert Run(Initial(2), ms).clients[1] == Failed;
  }

  // ---- a stop made by a task ----

  predicate TaskQuits(sched: SchedPc) {
    sched.TaskStopping? || sched.TaskStopped? || sched.Crashed?
  }

  /** Once a task has begun a stop, nothing but its steps is left for the scheduler thread, up to the crash. */
  lemma {:induction false} TaskNeverReturns(s: System, ms: seq<Move>)
    requires Schedule(s, ms)
    ensures TaskQuits(Run(s, ms).sched) <==> TaskQuits(s.sched) || TaskStop in ms
    decreases |ms|
  {
    if ms != [] {
      assert TaskStop in ms <==> ms[0] == TaskStop || TaskStop in ms[1..];
      TaskNeverReturns(Next(s, ms[0]), ms[1..]);
    }
  }

  /** The flag is down from the step in which such a stop clears it. */
  lemma {:induction false} TaskStopLowersFlag(s: System, ms: seq<Move>)
    requires Schedule(s, ms) && (s.sched.TaskStopped? || s.sched.Crashed? ==> !s.pool.running)
    ensures var t := Run(s, ms); t.sched.TaskStopped? || t.sched.Crashed? ==> !t.pool.running
    decreases |ms|
  {
    if ms != [] { TaskStopLowersFlag(Next(s, ms[0]), ms[1..]); }
  }

  // ---- what a stop that returns has seen ----

  /** The stop of this client returns with this step. */
  predicate Returns(s: System, i: nat) {
    i < |s.clients| && PastClear(s.clients[i]) && Enabled(s, Advance(i)) && Next(s, Advance(i)).clients[i] == Idle
  }

  /** A stop that returns has seen the scheduler thread end if and only if that thread existed by then. */
  lemma ReturnSeesEnd(n: nat, ms: seq<Move>, i: nat)
    requires Schedule(Initial(n), ms) && Returns(Run(Initial(n), ms), i)
    ensures var s := Run(Initial(n), ms); s.sched == Exited <==> s.sched != NotStarted && s.sched != Starting
  {
    SoundRun(Initial(n), ms);
  }

  // ---- a stop that is heeded ends ----

  predicate NewWork(m: Move) { m.BeginAdd? || m.BeginStop? || m == TaskStop }

  predicate NoNewWork(ms: seq<Move>) {
    forall i :: 0 <= i < |ms| ==> !NewWork(ms[i])
  }

  function ClientWeight(c: ClientPc): nat {
    match c
    case Idle => 0
    case Adding(_) => 7
    case Added => 2
    case Notified => 1
    case Stopping => 6
    case Stopped => 5
    case Unlocked => 4
    case Checking => 3
    case Calling => 2
    case Joining => 1
    case Failed => 0
  }

  function Weights(clients: seq<ClientPc>): nat {
    if clients == [] then 0 else ClientWeight(clients[0]) + Weights(clients[1..])
  }

  function SchedWeight(sched: SchedPc): nat {
    match sched
    case NotStarted => 5
    case Starting => 4
    case Entering => 3
    case Testing => 2
    case Parked => 4
    case Woken => 3
    case Executing(_) => 5
    case Finishing(_) => 4
    case TaskStopping(_) => 2
    case TaskStopped(_) => 1
    case Crashed(_) => 0
    case Exited => 0
  }

  /** An upper bound for the steps left once the flag is down for good. */
  function Remaining(s: System): nat {
    Weights(s.clients) + 4 * |s.pool.queue| + SchedWeight(s.sched)
  }

  lemma {:induction false} WeightsUpdate(clients: seq<ClientPc>, i: nat, c: ClientPc)
    requires i < |clients|
    ensures Weights(clients[i := c]) == Weights(clients) - ClientWeight(clients[i]) + ClientWeight(c)
  {
    if i > 0 {
      assert clients[i := c][1..] == clients[1..][i - 1 := c];
      WeightsUpdate(clients[1..], i - 1, c);
    } else {
      assert clients[i := c][1..] == clients[1..];
    }
  }

  lemma StepShrinks(s: System, m: Move)
    requires !s.pool.running && s.sched != NotStarted && Enabled(s, m) && !NewWork(m)
    ensures Remaining(Next(s, m)) < Remaining(s)
  {
    if m.Advance? {
      ClientShrinks(s, m.i);
    }
  }

  lemma ClientShrinks(s: System, i: nat)
    requires Enabled(s, Advance(i))
    ensures Remaining(ClientStep(s, i)) < Remaining(s)
  {
    var t := ClientStep(s, i);
    WeightsUpdate(s.clients, i, t.clients[i]);
    assert t.clients == s.clients[i := t.clients[i]];
    assert |t.pool.queue| == |s.pool.queue| + if s.clients[i].Adding? then 1 else 0;
    assert SchedWeight(t.sched) <= SchedWeight(s.sched);
  }

  /** Once the flag is down for good, a schedule without new calls is bounded, spurious wake-ups included. */
  lemma {:induction false} StopIsBounded(s: System, ms: seq<Move>)
    requires !s.pool.running && s.sched != NotStarted && Schedule(s, ms) && NoNewWork(ms)
    ensures |ms| + Remaining(Run(s, ms)) <= Remaining(s)
    decreases |ms|
  {
    if ms != [] {
      assert !NewWork(ms[0]) && ms[0] != Launch;
      StepShrinks(s, ms[0]);
      StopIsBounded(Next(s, ms[0]), ms[1..]);
    }
  }

  /** Nothing can move any more except by a new call or a spurious wake-up. */
  ghost predicate AtEnd(s: System) {
    forall m :: Enabled(s, m) ==> NewWork(m) || m == Spurious
  }

  predicate AllIdle(s: System) {
    forall i :: 0 <= i < |s.clients| ==> s.clients[i] == Idle
  }

  lemma EndIsExit(s: System)
    requires Inv(s) && !s.pool.running && s.sched != NotStarted && AtEnd(s)
    ensures s.sched == Exited || s.sched.Crashed?
    ensures s.sched == Exited ==> forall i :: 0 <= i < |s.clients| ==> s.clients[i] == Idle || s.clients[i] == Failed
  {
    assert !Enabled(s, Spawn) && !Enabled(s, Lock) && !Enabled(s, Test) && !Enabled(s, FinishLock);
    assert !Enabled(s, FinishStep) && !Enabled(s, TaskClear) && !Enabled(s, TaskJoin);
    forall i: nat | i < |s.clients| && !s.sched.Crashed?
      ensures s.clients[i] == Idle || s.clients[i] == Failed || (s.clients[i] == Joining && s.sched != Exited)
    {
      assert !Enabled(s, Advance(i));
    }
  }

  /** No add is under way, and if the loop has ended it has left nothing behind. */
  predicate Closed(s: System) {
    && (forall i :: 0 <= i < |s.clients| ==> !s.clients[i].Adding?)
    && (s.sched == Exited ==> s.pool.queue == [])
  }

  lemma {:induction false} ClosedRun(s: System, ms: seq<Move>)
    requires Closed(s) && Schedule(s, ms) && NoNewWork(ms)
    ensures Closed(Run(s, ms))
    decreases |ms|
  {
    if ms != [] {
      assert !NewWork(ms[0]);
      ClosedRun(Next(s, ms[0]), ms[1..]);
    }
  }

  /** Nobody has failed where nothing can move any more if and only if no two stops have overlapped in join. */
  lemma EndIsSound(t: System)
    requires t.sched == Exited
    requires forall i :: 0 <= i < |t.clients| ==> t.clients[i] == Idle || t.clients[i] == Failed
    ensures AllIdle(t) <==> Sound(t)
  {
  }

  /**
    From any reachable state with the flag down after the start, every schedule without new calls is bounded. Where it
    cannot go on, the program has been terminated if and only if a task has made a stop; otherwise the scheduler
    thread has ended, and every stop has returned, none having thrown, if and only if no two of them overlapped in
    join. Then everything added has run, unless an add was still under way or came too late.
   */
  lemma StopCompletes(n: nat, ms: seq<Move>, ns: seq<Move>)
    requires Schedule(Initial(n), ms)
    requires var s := Run(Initial(n), ms);
      s.sched != NotStarted && !s.pool.running && Schedule(s, ns) && NoNewWork(ns)
    ensures var s := Run(Initial(n), ms);
      var t := Run(s, ns);
      && |ns| <= Remaining(s) && !t.pool.running
      && (AtEnd(t) ==>
            && (t.sched == Exited || t.sched.Crashed?) && (t.sched.Crashed? <==> TaskStop in ms)
            && (t.sched == Exited ==> (AllIdle(t) <==> NoOverlap(Initial(n), ms) && NoOverlap(s, ns)))
            && (t.sched == Exited && Closed(s) ==>
                  && (forall p :: 1 <= p < t.pool.nextPid ==> p in t.pool.states && t.pool.states[p] == Terminated)
                  && |t.trace| == t.pool.nextPid - 1))
  {
    var s := Run(Initial(n), ms);
    var t := Run(s, ns);
    SchedulerSafety(n, ms);
    StopIsBounded(s, ns);
    LaunchedOnce(s, ns);
    SoundRun(Initial(n), ms);
    SoundRun(s, ns);
    TaskNeverReturns(Initial(n), ms);
    StopEnds(s, ns);
    if AtEnd(t) && t.sched == Exited { EndIsSound(t); }
  }

  lemma StopEnds(s: System, ns: seq<Move>)
    requires Inv(s) && s.sched != NotStarted && !s.pool.running && Schedule(s, ns) && NoNewWork(ns)
    ensures var t := Run(s, ns);
      AtEnd(t) ==>
        && (t.sched == Exited || t.sched.Crashed?) && (t.sched.Crashed? <==> TaskQuits(s.sched))
        && (t.sched == Exited ==> forall i :: 0 <= i < |t.clients| ==> t.clients[i] == Idle || t.clients[i] == Failed)
        && (t.sched == Exited && Closed(s) ==>
              && (forall p :: 1 <= p < t.pool.nextPid ==> p in t.pool.states && t.pool.states[p] == Terminated)
              && |t.trace| == t.pool.nextPid - 1)
  {
    var t := Run(s, ns);
    RunKeepsInv(s, ns);
    LaunchedOnce(s, ns);
    TaskNeverReturns(s, ns);
    assert TaskStop !in ns by { assert forall i :: 0 <= i < |ns| ==> !NewWork(ns[i]); }
    if AtEnd(t) {
      EndIsExit(t);
      if t.sched == Exited && Closed(s) {
        ClosedRun(s, ns);
        EmptyMeansDone(t.pool, t.trace);
      }
    }
  }

  /** So with one stop at a time, and none made by a task, every stop that is not lost returns. */
  lemma StopsReturn(n: nat, ms: seq<Move>, ns: seq<Move>)
    requires Schedule(Initial(n), ms) && OneStopAtATime(Initial(n), ms) && TaskStop !in ms
    requires var s := Run(Initial(n), ms);
      s.sched != NotStarted && !s.pool.running && Schedule(s, ns) && NoNewWork(ns)
    ensures var t := Run(Run(Initial(n), ms), ns); AtEnd(t) ==> t.sched == Exited && AllIdle(t)
  {
    StopCompletes(n, ms, ns);
    var s := Run(Initial(n), ms);
    OneStopNeverOverlaps(Initial(n), ms);
    NoNewStops(s, ns);
    OneStopNeverOverlaps(s, ns);
  }

  lemma {:induction false} NoNewStops(s: System, ns: seq<Move>)
    requires Schedule(s, ns) && NoNewWork(ns)
    ensures OneStopAtATime(s, ns)
    decreases |ns|
  {
    if ns != [] {
      assert !NewWork(ns[0]);
      NoNewStops(Next(s, ns[0]), ns[1..]);
    }
  }
}
