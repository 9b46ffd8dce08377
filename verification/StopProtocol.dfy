/**
  What becomes of the flag that a stop of the C++ scheduler clears. `start` sets it without the mutex, so a start can
  overwrite what a stop has just cleared; that is the only way to lose a stop. How a stop ends is in JoinProtocol.
 */
module StopProtocol {
  import opened SchedulerProtocol

  /** The stop of this client has cleared the flag and has not returned. */
  predicate PastClear(c: ClientPc) {
    c == Stopped || c == Unlocked || Told(c)
  }

  /** The stop of this client has notified the scheduler and has not returned. */
  predicate Told(c: ClientPc) {
    c == Checking || c == Calling || c == Joining
  }

  /** Every such stop still finds the flag cleared, and none that has notified the scheduler finds it asleep. */
  ghost predicate Heeded(s: System) {
    forall i :: 0 <= i < |s.clients| && PastClear(s.clients[i]) ==>
      !s.pool.running && (Told(s.clients[i]) ==> s.sched != Parked)
  }

  ghost predicate AlwaysHeeded(s: System, ms: seq<Move>)
    requires Schedule(s, ms)
    decreases |ms|
  {
    Heeded(s) && (ms != [] ==> AlwaysHeeded(Next(s, ms[0]), ms[1..]))
  }

  /** No stop is past its clear. */
  predicate NoStopUnderWay(s: System) {
    forall i :: 0 <= i < |s.clients| ==> !PastClear(s.clients[i])
  }

  /** Whenever the system is started, no stop is past its clear. */
  predicate CalmLaunch(s: System, ms: seq<Move>)
    requires Schedule(s, ms)
    decreases |ms|
  {
    ms == [] || ((ms[0] == Launch ==> NoStopUnderWay(s)) && CalmLaunch(Next(s, ms[0]), ms[1..]))
  }

  /** Before the start the flag is down. */
  predicate DownBeforeLaunch(s: System) {
    s.sched == NotStarted ==> !s.pool.running
  }

  lemma StepHeeded(s: System, m: Move)
    requires Heeded(s) && DownBeforeLaunch(s) && Enabled(s, m)
    ensures DownBeforeLaunch(Next(s, m))
    ensures Heeded(Next(s, m)) <==> (m == Launch ==> NoStopUnderWay(s))
  {
    var t := Next(s, m);
    if m == Launch {
      assert t.clients == s.clients && t.pool.running;
    } else {
      forall i | 0 <= i < |t.clients| && PastClear(t.clients[i])
        ensures !t.pool.running && (Told(t.clients[i]) ==> t.sched != Parked)
      {
        assert PastClear(s.clients[i]) ==> !s.pool.running && (Told(s.clients[i]) ==> s.sched != Parked);
      }
    }
  }

  lemma {:induction false} HeededRun(s: System, ms: seq<Move>)
    requires Heeded(s) && DownBeforeLaunch(s) && Schedule(s, ms)
    ensures AlwaysHeeded(s, ms) <==> CalmLaunch(s, ms)
    decreases |ms|
  {
    if ms != [] {
      StepHeeded(s, ms[0]);
      if Heeded(Next(s, ms[0])) {
        HeededRun(Next(s, ms[0]), ms[1..]);
      }
    }
  }

  lemma {:induction false} HeededAtEnd(s: System, ms: seq<Move>)
    requires Schedule(s, ms) && AlwaysHeeded(s, ms)
    ensures Heeded(Run(s, ms))
    decreases |ms|
  {
    if ms != [] { HeededAtEnd(Next(s, ms[0]), ms[1..]); }
  }

  /**
    Over every schedule of any number of clients: no stop is ever lost if and only if the start does not overtake a
    stop that is past its clear.
   */
  lemma StopsHeeded(n: nat, ms: seq<Move>)
    requires Schedule(Initial(n), ms)
    ensures AlwaysHeeded(Initial(n), ms) <==> CalmLaunch(Initial(n), ms)
  {
    HeededRun(Initial(n), ms);
  }

  /**
    So after a calm start a scheduler that sleeps with the mutex free has no stop to heed, unless one is about to
    notify it.
   */
  lemma NoStopMissed(n: nat, ms: seq<Move>)
    requires Schedule(Initial(n), ms) && CalmLaunch(Initial(n), ms)
    ensures var s := Run(Initial(n), ms);
      s.sched == Parked && s.holder == Nobody ==>
        || (s.pool.running && s.pool.queue == [] && NoStopUnderWay(s))
        || exists i :: 0 <= i < |s.clients| && s.clients[i] == Unlocked && Next(s, Advance(i)).sched == Woken
  {
    SchedulerSafety(n, ms);
    StopsHeeded(n, ms);
    HeededAtEnd(Initial(n), ms);
  }

  // ---- one stop ----

  ghost predicate AlwaysDown(s: System, ms: seq<Move>)
    requires Schedule(s, ms)
    decreases |ms|
  {
    !s.pool.running && (ms != [] ==> AlwaysDown(Next(s, ms[0]), ms[1..]))
  }

  /** A cleared flag stays cleared throughout a schedule if and only if the schedule does not contain the start. */
  lemma {:induction false} ClearLasts(s: System, ms: seq<Move>)
    requires Schedule(s, ms) && !s.pool.running
    ensures AlwaysDown(s, ms) <==> Launch !in ms
    decreases |ms|
  {
    if ms != [] {
      assert Launch in ms <==> ms[0] == Launch || Launch in ms[1..];
      if ms[0] != Launch { ClearLasts(Next(s, ms[0]), ms[1..]); }
    }
  }

  /** There is only one start, so a stop that clears the flag after it is never overwritten. */
  lemma {:induction false} LaunchedOnce(s: System, ms: seq<Move>)
    requires Schedule(s, ms) && s.sched != NotStarted
    ensures Launch !in ms
    ensures !s.pool.running ==> AlwaysDown(s, ms) && !Run(s, ms).pool.running
    ensures Run(s, ms).sched != NotStarted
    decreases |ms|
  {
    if ms != [] { LaunchedOnce(Next(s, ms[0]), ms[1..]); }
  }

  // ---- a stop that is lost ----

  /** The one client waits for a scheduler thread that has been told to run and finds nothing to do. */
  predicate Hung(s: System) {
    && s.clients == [Joining] && s.pool.running && s.pool.queue == []
    && (s.sched == Parked || s.sched == Woken || s.sched == Testing)
  }

  lemma {:induction false} HangsForever(s: System, ms: seq<Move>)
    requires Hung(s) && Schedule(s, ms)
    ensures Hung(Run(s, ms))
    decreases |ms|
  {
    if ms != [] { HangsForever(Next(s, ms[0]), ms[1..]); }
  }

  /** A stop that has cleared the flag, overtaken by the start: the scheduler goes to sleep. */
  lemma StartOvertakes() returns (ms: seq<Move>)
    ensures Schedule(Initial(1), ms) && !CalmLaunch(Initial(1), ms)
    ensures var s := Run(Initial(1), ms);
      && s.sched == Parked && s.clients == [Unlocked] && s.holder == Nobody && !s.joined
      && s.pool.queue == [] && s.pool.running
  {
    var a := StopToUnlock(Initial(1), 0);
    var s := Run(Initial(1), a);
    var b := StartAndSleep(s);
    assert PastClear(s.clients[0]) && b[0] == Launch;
    ScheduleConcat(Initial(1), a, b);
    NotCalmAfter(Initial(1), a, b);
    ms := a + b;
  }

  lemma {:induction false} NotCalmAfter(s: System, ms: seq<Move>, ns: seq<Move>)
    requires Schedule(s, ms) && Schedule(Run(s, ms), ns) && Schedule(s, ms + ns)
    requires !CalmLaunch(Run(s, ms), ns)
    ensures !CalmLaunch(s, ms + ns)
    decreases |ms|
  {
    if ms == [] {
      assert ms + ns == ns;
    } else {
      assert (ms + ns)[1..] == ms[1..] + ns;
      NotCalmAfter(Next(s, ms[0]), ms[1..], ns);
    }
  }

  /** Its notification comes too late: the scheduler wakes, finds the flag set and sleeps again. */
  lemma LateNotification(s: System) returns (ms: seq<Move>)
    requires s.sched == Parked && s.clients == [Unlocked] && s.holder == Nobody && !s.joined
    requires s.pool.queue == [] && s.pool.running
    ensures Schedule(s, ms)
    ensures Run(s, ms) == s.(clients := [Joining])
  {
    ThreeMoves(s, Advance(0), Lock, Test);
    var s3 := Next(Next(Next(s, Advance(0)), Lock), Test);
    assert s3 == s.(clients := [Checking]);
    TwoMoves(s3, Advance(0), Advance(0));
    ScheduleConcat(s, [Advance(0)] + [Lock] + [Test], [Advance(0)] + [Advance(0)]);
    ms := [Advance(0)] + [Lock] + [Test] + ([Advance(0)] + [Advance(0)]);
  }

  /**
    A stop can be lost: one client, a start that overtakes its stop, and the client waits for ever, the scheduler's
    only possible step being a spurious wake-up.
   */
  lemma LostStop() returns (ms: seq<Move>)
    ensures Schedule(Initial(1), ms)
    ensures var s := Run(Initial(1), ms);
      && s.sched == Parked && s.pool.running && s.holder == Nobody && s.clients == [Joining] && Hung(s)
      && (forall m :: Enabled(s, m) ==> m == Spurious)
      && forall ns :: Schedule(s, ns) ==> Hung(Run(s, ns))
  {
    var a := StartOvertakes();
    var b := LateNotification(Run(Initial(1), a));
    ScheduleConcat(Initial(1), a, b);
    ms := a + b;
    var s := Run(Initial(1), ms);
    forall ns | Schedule(s, ns)
      ensures Hung(Run(s, ns))
    {
      HangsForever(s, ns);
    }
  }
}
