/**
  The C++ system call dispatcher (src/core/Syscall.cpp), after its textual arguments have been parsed.
  Mailboxes outlive their process; pids are never used twice.
 */
module Dispatcher {
  import opened Options

  datatype Letter = Letter(kind: int, data: string)

  datatype Call =
    | Create
    | Exit(pid: int)
    | Send(target: int, letter: Letter)
    | Receive(pid: int)
    | MissingPid          // exit or receive without arguments
    | MissingArguments    // send with fewer than three
    | Unknown

  datatype Result = Result(success: bool, value: int, message: string, letter: Option<Letter>)

  datatype State = State(processes: set<int>, nextPid: int, queues: map<int, seq<Letter>>)

  datatype Reply = Reply(s: State, result: Result)

  const INITIAL := State({}, 1, map[])

  function Refuse(message: string): Result { Result(false, -1, message, None) }

  function Get(m: map<int, seq<Letter>>, p: int): seq<Letter> {
    if p in m then m[p] else []
  }

  function Invoke(s: State, call: Call): Reply {
    match call
    case Create =>
      Reply(s.(processes := s.processes + {s.nextPid}, nextPid := s.nextPid + 1),
            Result(true, s.nextPid, "process created", None))
    case Exit(pid) =>
      if pid !in s.processes then Reply(s, Refuse("process not found"))
      else Reply(s.(processes := s.processes - {pid}), Result(true, 0, "process exited", None))
    case Send(target, letter) =>
      if target !in s.processes then Reply(s, Refuse("target process not found"))
      else Reply(Push(s, target, letter), Result(true, 0, "message sent", None))
    case Receive(pid) =>
      if Get(s.queues, pid) == [] then Reply(s, Refuse("no message"))
      else Reply(s.(queues := s.queues[pid := s.queues[pid][1..]]),
                 Result(true, 0, "message received", Some(s.queues[pid][0])))
    case MissingPid => Reply(s, Refuse("missing pid"))
    case MissingArguments => Reply(s, Refuse("missing arguments"))
    case Unknown => Reply(s, Refuse("unknown syscall"))
  }

  function Push(s: State, target: int, letter: Letter): State {
    s.(queues := s.queues[target := Get(s.queues, target) + [letter]])
  }

  // ---- conservation over whole runs ----

  /** The dispatcher with all messages ever sent to and received by each pid. */
  datatype World = World(s: State, sent: map<int, seq<Letter>>, received: map<int, seq<Letter>>)

  function Observe(w: World, call: Call): World {
    var r := Invoke(w.s, call);
    match call
    case Send(target, letter) =>
      World(r.s, if r.result.success then w.sent[target := Get(w.sent, target) + [letter]] else w.sent, w.received)
    case Receive(pid) =>
      World(r.s, w.sent,
            if r.result.letter.None? then w.received
            else w.received[pid := Get(w.received, pid) + [r.result.letter.value]])
    case _ => w.(s := r.s)
  }

  function Run(w: World, calls: seq<Call>): World
    decreases |calls|
  {
    if calls == [] then w else Run(Observe(w, calls[0]), calls[1..])
  }

  ghost predicate Delivered(w: World, p: int) {
    Get(w.sent, p) == Get(w.received, p) + Get(w.s.queues, p)
  }

  /** Everything about a pid that has not been handed out yet is empty. */
  ghost predicate Good(w: World) {
    && 1 <= w.s.nextPid
    && (forall p :: p in w.s.processes || p in w.s.queues || p in w.sent || p in w.received ==> 1 <= p < w.s.nextPid)
    && forall p :: Delivered(w, p)
  }

  lemma StepKeepsGood(w: World, call: Call)
    requires Good(w)
    ensures Good(Observe(w, call))
  {
    var v := Observe(w, call);
    forall p
      ensures Delivered(v, p)
    {
      assert Delivered(w, p);
      if call.Receive? && p == call.pid && Get(w.s.queues, p) != [] {
        var q := w.s.queues[p];
        assert q == [q[0]] + q[1..];
      }
    }
  }

  /**
    On every run, exits included: what was sent to a pid is what it received followed by what still waits, and the
    next pid to be handed out has neither mail nor history, so no message reaches a later process.
   */
  lemma {:induction false} Conservation(w: World, calls: seq<Call>)
    requires Good(w)
    ensures var v := Run(w, calls);
      && Good(v) && w.s.nextPid <= v.s.nextPid
      && (forall p :: Delivered(v, p))
      && Get(v.s.queues, v.s.nextPid) == [] && Get(v.sent, v.s.nextPid) == [] && v.s.nextPid !in v.s.processes
    decreases |calls|
  {
    if calls != [] {
      StepKeepsGood(w, calls[0]);
      Conservation(Observe(w, calls[0]), calls[1..]);
    }
  }

  const START := World(INITIAL, map[], map[])

  lemma StartIsGood()
    ensures Good(START)
  {
    assert forall p :: Delivered(START, p);
  }

  /** All of this in every state that calls can reach. */
  lemma DispatcherSafety(calls: seq<Call>)
    ensures var v := Run(START, calls);
      && Good(v)
      && (forall p :: Delivered(v, p))
      && Get(v.s.queues, v.s.nextPid) == [] && Get(v.sent, v.s.nextPid) == [] && v.s.nextPid !in v.s.processes
  {
    StartIsGood();
    Conservation(START, calls);
  }

  // ---- the answer of each call ----

  /** A create answers a pid that no process has or had, and that has no mail; nothing else changes. */
  lemma CreateOutcome(w: World)
    requires Good(w)
    ensures var r := Invoke(w.s, Create); var pid := r.result.value;
      && r.result == Result(true, pid, "process created", None)
      && pid !in w.s.processes && pid !in w.s.queues && Get(w.sent, pid) == [] && Get(w.received, pid) == []
      && r.s.processes == w.s.processes + {pid} && r.s.queues == w.s.queues
      && pid == w.s.nextPid && r.s.nextPid == pid + 1
  {
  }

  lemma ExitOutcome(s: State, pid: int)
    ensures var r := Invoke(s, Exit(pid));
      if pid in s.processes then
        r == Reply(s.(processes := s.processes - {pid}), Result(true, 0, "process exited", None))
      else r == Reply(s, Result(false, -1, "process not found", None))
  {
  }

  lemma SendEffect(s: State, target: int, letter: Letter)
    ensures var r := Invoke(s, Send(target, letter));
      if target in s.processes then
        && r.result == Result(true, 0, "message sent", None)
        && Get(r.s.queues, target) == Get(s.queues, target) + [letter]
        && (forall p :: p != target ==> Get(r.s.queues, p) == Get(s.queues, p))
        && r.s == s.(queues := r.s.queues)
      else r == Reply(s, Result(false, -1, "target process not found", None))
  {
  }

  /** A receive takes the oldest letter; an empty mailbox refuses it. It does not matter whether the process lives. */
  lemma ReceiveOutcome(s: State, pid: int)
    ensures var r := Invoke(s, Receive(pid));
      && (Get(s.queues, pid) == [] ==> r == Reply(s, Result(false, -1, "no message", None)))
      && forall letter, rest :: Get(s.queues, pid) == [letter] + rest ==>
           && r.result == Result(true, 0, "message received", Some(letter))
           && r.s == s.(queues := s.queues[pid := rest])
  {
    forall letter, rest | Get(s.queues, pid) == [letter] + rest
      ensures letter == s.queues[pid][0] && rest == s.queues[pid][1..]
    {
      assert ([letter] + rest)[1..] == rest;
    }
  }

  /** Calls without their arguments, and unknown calls, are refused and change nothing. */
  lemma MalformedOutcome(s: State)
    ensures Invoke(s, MissingPid) == Reply(s, Result(false, -1, "missing pid", None))
    ensures Invoke(s, MissingArguments) == Reply(s, Result(false, -1, "missing arguments", None))
    ensures Invoke(s, Unknown) == Reply(s, Result(false, -1, "unknown syscall", None))
  {
  }

  function Receives(pid: int, n: nat): seq<Call> { seq(n, _ => Receive(pid)) }

  /** The results of a sequence of calls, in order. */
  function Results(w: World, calls: seq<Call>): seq<Result>
    decreases |calls|
  {
    if calls == [] then [] else [Invoke(w.s, calls[0]).result] + Results(Observe(w, calls[0]), calls[1..])
  }

  function Handed(letters: seq<Letter>): seq<Result> {
    seq(|letters|, i requires 0 <= i < |letters| => Result(true, 0, "message received", Some(letters[i])))
  }

  /** As many receives as there are letters waiting hand out exactly these, in order. */
  lemma {:induction false} DrainMailbox(w: World, pid: int, waiting: seq<Letter>)
    requires Get(w.s.queues, pid) == waiting
    ensures var calls := Receives(pid, |waiting|);
      Results(w, calls) == Handed(waiting) && Get(Run(w, calls).s.queues, pid) == []
    decreases |waiting|
  {
    if waiting != [] {
      var rest := waiting[1..];
      assert waiting == [waiting[0]] + rest;
      ReceiveOutcome(w.s, pid);
      var v, calls := Observe(w, Receive(pid)), Receives(pid, |waiting|);
      DrainMailbox(v, pid, rest);
      assert calls[0] == Receive(pid) && calls[1..] == Receives(pid, |rest|);
      assert Handed(waiting) == Handed([waiting[0]]) + Handed(rest);
    }
  }

  /** So the letters left waiting at an exit can be received under the old pid, all of them, in order. */
  lemma ExitLeavesMail(calls: seq<Call>, pid: int)
    ensures var w := Run(START, calls + [Exit(pid)]);
      var before := Get(Run(START, calls).s.queues, pid);
      && Get(w.s.queues, pid) == before
      && Results(w, Receives(pid, |before|)) == Handed(before)
  {
    RunOneMore(START, calls, Exit(pid));
    var before := Get(Run(START, calls).s.queues, pid);
    DrainMailbox(Run(START, calls + [Exit(pid)]), pid, before);
  }

  /** The pids that the creates of a run have answered, in order. */
  function NewPids(w: World, calls: seq<Call>): seq<int>
    decreases |calls|
  {
    if calls == [] then []
    else
      var here := if calls[0].Create? then [Invoke(w.s, Create).result.value] else [];
      here + NewPids(Observe(w, calls[0]), calls[1..])
  }

  ghost predicate Ascending(s: seq<int>, low: int, high: int) {
    && (forall i :: 0 <= i < |s| ==> low <= s[i] < high)
    && forall i, j :: 0 <= i < j < |s| ==> s[i] < s[j]
  }

  lemma AscendingFrom(s: seq<int>, floor: int, low: int, high: int)
    requires Ascending(s, floor, high) && low <= floor <= high
    ensures Ascending(s, low, high) && (low < floor ==> Ascending([low] + s, low, high))
  {
  }

  /** On every run these ascend strictly: no pid is handed out twice. */
  lemma {:induction false} PidsNeverReused(w: World, calls: seq<Call>)
    requires Good(w)
    ensures Ascending(NewPids(w, calls), w.s.nextPid, Run(w, calls).s.nextPid)
    decreases |calls|
  {
    if calls != [] {
      var v := Observe(w, calls[0]);
      var later := NewPids(v, calls[1..]);
      StepKeepsGood(w, calls[0]);
      CreateOutcome(w);
      StepLifetime(w, calls[0], 0);
      PidsNeverReused(v, calls[1..]);
      Conservation(v, calls[1..]);
      AscendingFrom(later, v.s.nextPid, w.s.nextPid, Run(v, calls[1..]).s.nextPid);
      assert [] + later == later;
      assert calls[0].Create? ==> v.s.nextPid == w.s.nextPid + 1;
    }
  }

  // ---- lifetimes ----

  /** Process `pid` is told to exit during these calls, after its pid has been handed out. */
  predicate ExitedIn(w: World, calls: seq<Call>, pid: int)
    decreases |calls|
  {
    calls != [] &&
    ((calls[0] == Exit(pid) && pid < w.s.nextPid) || ExitedIn(Observe(w, calls[0]), calls[1..], pid))
  }

  lemma StepLifetime(w: World, call: Call, pid: int)
    requires Good(w)
    ensures var v := Observe(w, call);
      && w.s.nextPid <= v.s.nextPid
      && (pid in v.s.processes <==>
            (pid in w.s.processes || w.s.nextPid <= pid < v.s.nextPid) && !(call == Exit(pid) && pid < w.s.nextPid))
  {
  }

  lemma {:induction false} Lifetime(w: World, calls: seq<Call>, pid: int)
    requires Good(w)
    ensures var v := Run(w, calls);
      && w.s.nextPid <= v.s.nextPid
      && (pid in v.s.processes <==>
            (pid in w.s.processes || w.s.nextPid <= pid < v.s.nextPid) && !ExitedIn(w, calls, pid))
    decreases |calls|
  {
    if calls != [] {
      var u := Observe(w, calls[0]);
      StepKeepsGood(w, calls[0]);
      StepLifetime(w, calls[0], pid);
      Lifetime(u, calls[1..], pid);
      if calls[0] == Exit(pid) && pid < w.s.nextPid {
        assert pid !in u.s.processes && pid < u.s.nextPid;
      }
    }
  }

  /** After any calls a send, and likewise an exit, is accepted exactly for a pid handed out that has not exited. */
  lemma SendOutcome(calls: seq<Call>, pid: int, letter: Letter)
    ensures var s := Run(START, calls).s;
      && (Invoke(s, Send(pid, letter)).result.success <==> 1 <= pid < s.nextPid && !ExitedIn(START, calls, pid))
      && (Invoke(s, Exit(pid)).result.success <==> 1 <= pid < s.nextPid && !ExitedIn(START, calls, pid))
  {
    StartIsGood();
    Lifetime(START, calls, pid);
  }

  /**
    Once a process has exited, whatever happens, nothing more is sent to it; and the messages that were waiting can
    still be received under its pid, in order: they are those received since, followed by those still waiting.
   */
  lemma {:induction false} MailSurvivesExit(w: World, calls: seq<Call>, pid: int)
    requires Good(w) && pid !in w.s.processes && pid < w.s.nextPid
    ensures var v := Run(w, calls);
      var n := |Get(w.received, pid)|;
      && pid !in v.s.processes && Get(v.sent, pid) == Get(w.sent, pid)
      && n <= |Get(v.received, pid)| && Get(v.received, pid)[..n] == Get(w.received, pid)
      && Get(w.s.queues, pid) == Get(v.received, pid)[n..] + Get(v.s.queues, pid)
    decreases |calls|
  {
    if calls != [] {
      var u := Observe(w, calls[0]);
      StepKeepsGood(w, calls[0]);
      DeadMailStep(w, calls[0], pid);
      MailSurvivesExit(u, calls[1..], pid);
      Conservation(u, calls[1..]);
      var v, n := Run(w, calls), |Get(w.received, pid)|;
      assert Delivered(w, pid) && Delivered(v, pid);
      assert Get(v.received, pid)[..n] == Get(u.received, pid)[..n];
      Split(Get(w.received, pid), Get(w.s.queues, pid), Get(v.received, pid), Get(v.s.queues, pid));
    }
  }

  lemma DeadMailStep(w: World, call: Call, pid: int)
    requires Good(w) && pid !in w.s.processes && pid < w.s.nextPid
    ensures var v := Observe(w, call); var n := |Get(w.received, pid)|;
      && pid !in v.s.processes && pid < v.s.nextPid && Get(v.sent, pid) == Get(w.sent, pid)
      && n <= |Get(v.received, pid)| && Get(v.received, pid)[..n] == Get(w.received, pid)
  {
  }

  lemma Split(a: seq<Letter>, b: seq<Letter>, c: seq<Letter>, d: seq<Letter>)
    requires a + b == c + d && |a| <= |c|
    ensures b == c[|a|..] + d
  {
    assert b == (a + b)[|a|..];
    assert c[|a|..] + d == (c + d)[|a|..];
  }

  // ---- the two sections of a send ----

  /** Where a caller is: not in the dispatcher, just admitted, or between the check and the push of a send. */
  datatype Phase = Outside | Admitted(call: Call) | Checked(target: int, letter: Letter)

  datatype Entry = Entry(caller: nat, call: Call, result: Result)

  /** Callers sharing one dispatcher; `log` lists calls, callers and results in the order the calls took effect. */
  datatype Shared = Shared(s: State, phases: seq<Phase>, log: seq<Entry>)

  datatype Move = Enter(i: nat, call: Call) | Work(i: nat)

  /** With `gated`, entering needs the dispatcher mutex: nobody else may be inside. */
  predicate Allowed(c: Shared, m: Move, gated: bool) {
    m.i < |c.phases| &&
    match m
    case Enter(i, _) => c.phases[i] == Outside && (gated ==> forall j :: 0 <= j < |c.phases| ==> c.phases[j] == Outside)
    case Work(i) => c.phases[i] != Outside
  }

  function Next(c: Shared, m: Move): Shared
    requires m.i < |c.phases|
  {
    match m
    case Enter(i, call) => c.(phases := c.phases[i := Admitted(call)])
    case Work(i) =>
      match c.phases[i]
      case Outside => c
      case Admitted(Send(target, letter)) =>
        if target in c.s.processes then c.(phases := c.phases[i := Checked(target, letter)])
        else Done(c, c.s, i, Send(target, letter), Refuse("target process not found"))
      case Admitted(call) => Done(c, Invoke(c.s, call).s, i, call, Invoke(c.s, call).result)
      case Checked(target, letter) =>
        Done(c, Push(c.s, target, letter), i, Send(target, letter), Result(true, 0, "message sent", None))
  }

  /** Caller i leaves with its result. */
  function Done(c: Shared, s: State, i: nat, call: Call, result: Result): Shared
    requires i < |c.phases|
  {
    Shared(s, c.phases[i := Outside], c.log + [Entry(i, call, result)])
  }

  function Replay(s: State, log: seq<Entry>): State {
    if log == [] then s else Invoke(Replay(s, log[..|log| - 1]), log[|log| - 1].call).s
  }

  /** Every caller got the result that its call gets at its place of the sequence. */
  ghost predicate Faithful(s: State, log: seq<Entry>) {
    forall i :: 0 <= i < |log| ==> log[i].result == Invoke(Replay(s, log[..i]), log[i].call).result
  }

  /**
    State and results are what the logged calls produce one after the other, and a send under way still has a live
    target.
   */
  ghost predicate Serial(s0: State, c: Shared) {
    && c.s == Replay(s0, c.log) && Faithful(s0, c.log)
    && (forall i, j :: 0 <= i < |c.phases| && 0 <= j < |c.phases| && i != j ==>
          c.phases[i] == Outside || c.phases[j] == Outside)
    && forall i :: 0 <= i < |c.phases| && c.phases[i].Checked? ==> c.phases[i].target in c.s.processes
  }

  lemma ReplayGrows(s0: State, log: seq<Entry>, e: Entry)
    requires Faithful(s0, log) && e.result == Invoke(Replay(s0, log), e.call).result
    ensures Replay(s0, log + [e]) == Invoke(Replay(s0, log), e.call).s && Faithful(s0, log + [e])
  {
    var log' := log + [e];
    assert log'[..|log|] == log;
    forall i | 0 <= i < |log'|
      ensures log'[i].result == Invoke(Replay(s0, log'[..i]), log'[i].call).result
    {
      if i < |log| {
        assert log'[..i] == log[..i];
        assert log[i].result == Invoke(Replay(s0, log[..i]), log[i].call).result;
      }
    }
  }

  /** Caller i, alone inside, moves to another phase. */
  lemma AloneSerial(s0: State, c: Shared, d: Shared, i: nat)
    requires i < |c.phases| && (forall j :: 0 <= j < |c.phases| && j != i ==> c.phases[j] == Outside)
    requires |d.phases| == |c.phases| && d.phases == c.phases[i := d.phases[i]]
    requires d.s == Replay(s0, d.log) && Faithful(s0, d.log)
    requires d.phases[i].Checked? ==> d.phases[i].target in d.s.processes
    ensures Serial(s0, d)
  {
  }

  lemma WorkSerial(s0: State, c: Shared, i: nat)
    requires Serial(s0, c) && Allowed(c, Work(i), true)
    ensures Serial(s0, Next(c, Work(i)))
  {
    var d := Next(c, Work(i));
    if c.phases[i].Admitted? {
      AdmittedSerial(s0, c, i);
    } else {
      ReplayGrows(s0, c.log, d.log[|c.log|]);
      AloneSerial(s0, c, d, i);
    }
  }

  lemma AdmittedSerial(s0: State, c: Shared, i: nat)
    requires Serial(s0, c) && Allowed(c, Work(i), true) && c.phases[i].Admitted?
    ensures Serial(s0, Next(c, Work(i)))
  {
    var d := Next(c, Work(i));
    if d.phases[i] == Outside {
      ReplayGrows(s0, c.log, d.log[|c.log|]);
    }
    AloneSerial(s0, c, d, i);
  }

  lemma GateKeepsSerial(s0: State, c: Shared, m: Move)
    requires Serial(s0, c) && Allowed(c, m, true)
    ensures Serial(s0, Next(c, m))
  {
    match m
    case Enter(i, _) => AloneSerial(s0, c, Next(c, m), i);
    case Work(i) => WorkSerial(s0, c, i);
  }

  predicate AllAllowed(c: Shared, moves: seq<Move>, gated: bool)
    decreases |moves|
  {
    moves == [] || (Allowed(c, moves[0], gated) && AllAllowed(Next(c, moves[0]), moves[1..], gated))
  }

  function Moves(c: Shared, moves: seq<Move>): Shared
    requires AllAllowed(c, moves, true)
    decreases |moves|
  {
    if moves == [] then c else Moves(Next(c, moves[0]), moves[1..])
  }

  /** Under the dispatcher mutex every interleaving equals the sequence of its logged calls, with the same results. */
  lemma {:induction false} GatedRunsAreSerial(s0: State, c: Shared, moves: seq<Move>)
    requires Serial(s0, c) && AllAllowed(c, moves, true)
    ensures Serial(s0, Moves(c, moves))
    decreases |moves|
  {
    if moves != [] {
      GateKeepsSerial(s0, c, moves[0]);
      GatedRunsAreSerial(s0, Next(c, moves[0]), moves[1..]);
    }
  }

  // ---- the calls of each caller ----

  function CallsOf(log: seq<Entry>, i: nat): seq<Call> {
    if log == [] then []
    else CallsOf(log[..|log| - 1], i) + if log[|log| - 1].caller == i then [log[|log| - 1].call] else []
  }

  /** The call a caller is inside with, if any. */
  function UnderWay(phase: Phase): seq<Call> {
    match phase
    case Outside => []
    case Admitted(call) => [call]
    case Checked(target, letter) => [Send(target, letter)]
  }

  function EnteredBy(m: Move, i: nat): seq<Call> {
    if m.Enter? && m.i == i then [m.call] else []
  }

  function Entered(moves: seq<Move>, i: nat): seq<Call> {
    if moves == [] then [] else EnteredBy(moves[0], i) + Entered(moves[1..], i)
  }

  /** The calls of caller i that the dispatcher knows of. */
  function Known(c: Shared, i: nat): seq<Call>
    requires i < |c.phases|
  {
    CallsOf(c.log, i) + UnderWay(c.phases[i])
  }

  lemma StepLogs(c: Shared, m: Move, i: nat)
    requires Allowed(c, m, true) && i < |c.phases|
    ensures |Next(c, m).phases| == |c.phases| && Known(Next(c, m), i) == Known(c, i) + EnteredBy(m, i)
  {
    var d := Next(c, m);
    if |d.log| > |c.log| {
      assert d.log[..|c.log|] == c.log;
    }
  }

  lemma {:induction false} SamePhases(c: Shared, moves: seq<Move>)
    requires AllAllowed(c, moves, true)
    ensures |Moves(c, moves).phases| == |c.phases|
    decreases |moves|
  {
    if moves != [] { SamePhases(Next(c, moves[0]), moves[1..]); }
  }

  /** What caller i has entered is, in order, its part of the log followed by its call under way. */
  lemma {:induction false} RunLogs(c: Shared, moves: seq<Move>, i: nat)
    requires AllAllowed(c, moves, true) && i < |c.phases|
    ensures |Moves(c, moves).phases| == |c.phases| && Known(Moves(c, moves), i) == Known(c, i) + Entered(moves, i)
    decreases |moves|
  {
    SamePhases(c, moves);
    if moves != [] {
      StepLogs(c, moves[0], i);
      RunLogs(Next(c, moves[0]), moves[1..], i);
      Associate(Known(c, i), EnteredBy(moves[0], i), Entered(moves[1..], i));
    }
  }

  lemma Associate(a: seq<Call>, b: seq<Call>, c: seq<Call>)
    ensures a + b + c == a + (b + c)
  {
  }

  function Calls(log: seq<Entry>): seq<Call> {
    seq(|log|, i requires 0 <= i < |log| => log[i].call)
  }

  lemma {:induction false} RunOneMore(w: World, calls: seq<Call>, call: Call)
    ensures Run(w, calls + [call]) == Observe(Run(w, calls), call)
    decreases |calls|
  {
    if calls == [] {
      assert [call][1..] == [];
    } else {
      assert (calls + [call])[1..] == calls[1..] + [call];
      RunOneMore(Observe(w, calls[0]), calls[1..], call);
    }
  }

  lemma {:induction false} ReplayIsRun(w: World, log: seq<Entry>)
    ensures Replay(w.s, log) == Run(w, Calls(log)).s
  {
    if log != [] {
      var n := |log| - 1;
      ReplayIsRun(w, log[..n]);
      assert Calls(log) == Calls(log[..n]) + [log[n].call];
      RunOneMore(w, Calls(log[..n]), log[n].call);
    }
  }

  /**
    So conservation holds for any number of concurrent callers of a new dispatcher; and the log has the calls each of
    them entered, in its order, with the results it got.
   */
  lemma ConcurrentConservation(n: nat, moves: seq<Move>)
    requires AllAllowed(Shared(INITIAL, seq(n, _ => Outside), []), moves, true)
    ensures var c := Moves(Shared(INITIAL, seq(n, _ => Outside), []), moves);
      var v := Run(START, Calls(c.log));
      && c.s == v.s && Good(v) && Faithful(INITIAL, c.log) && |c.phases| == n
      && forall i :: 0 <= i < n ==> Known(c, i) == Entered(moves, i)
  {
    var c0 := Shared(INITIAL, seq(n, _ => Outside), []);
    GatedRunsAreSerial(INITIAL, c0, moves);
    var log := Moves(c0, moves).log;
    ReplayIsRun(START, log);
    DispatcherSafety(Calls(log));
    SamePhases(c0, moves);
    forall i | 0 <= i < n
      ensures Known(Moves(c0, moves), i) == Entered(moves, i)
    {
      RunLogs(c0, moves, i);
    }
  }

  /** Without it, an exit can slip between check and push: the log then contains a send its own replay refuses. */
  lemma UngatedSendReachesDeadProcess(letter: Letter)
    ensures var c0 := Shared(State({1}, 2, map[]), [Outside, Outside], []);
      var m := [Enter(0, Send(1, letter)), Work(0), Enter(1, Exit(1)), Work(1), Work(0)];
      var c1 := Next(c0, m[0]);
      var c2 := Next(c1, m[1]);
      var c3 := Next(c2, m[2]);
      var c4 := Next(c3, m[3]);
      var c5 := Next(c4, m[4]);
      && Allowed(c0, m[0], false) && Allowed(c1, m[1], false) && Allowed(c2, m[2], false)
      && Allowed(c3, m[3], false) && Allowed(c4, m[4], false)
      && c4.phases[0].Checked? && 1 !in c4.s.processes
      && Calls(c5.log) == [Exit(1), Send(1, letter)] && Get(c5.s.queues, 1) == [letter]
      && c5.s != Replay(c0.s, c5.log) && !Faithful(c0.s, c5.log)
  {
    var s0 := State({1}, 2, map[]);
    var gone := Entry(1, Exit(1), Result(true, 0, "process exited", None));
    var sent := Entry(0, Send(1, letter), Result(true, 0, "message sent", None));
    var log := [gone, sent];
    assert log[..1] == [gone] && [gone][..0] == [];
    assert Replay(s0, [gone]) == State({}, 2, map[]);
    assert Replay(s0, log) == State({}, 2, map[]);
    assert log[1].result != Invoke(Replay(s0, log[..1]), log[1].call).result;
  }

  // ---- the class ----

  class SyscallDispatcher {
    var processes: set<int>
    var nextPid: int
    var queues: map<int, seq<Letter>>

    ghost function View(): State
      reads this
    {
      State(processes, nextPid, queues)
    }

    constructor ()
      ensures View() == INITIAL
    {
      processes, nextPid, queues := {}, 1, map[];
    }

    method InvokeSyscall(call: Call) returns (r: Result)
      modifies this
      ensures Reply(View(), r) == Invoke(old(View()), call)
    {
      match call {
        case Create => r := ProcessCreate();
        case Exit(pid) => r := ProcessExit(pid);
        case Send(target, letter) => r := IpcSend(target, letter);
        case Receive(pid) => r := IpcReceive(pid);
        case MissingPid => r := Refuse("missing pid");
        case MissingArguments => r := Refuse("missing arguments");
        case Unknown => r := Refuse("unknown syscall");
      }
    }

    method ProcessCreate() returns (r: Result)
      modifies this`processes, this`nextPid
      ensures Reply(View(), r) == Invoke(old(View()), Create)
    {
      var pid := nextPid;
      nextPid := nextPid + 1;
      processes := processes + {pid};
      r := Result(true, pid, "process created", None);
    }

    method ProcessExit(pid: int) returns (r: Result)
      modifies this`processes
      ensures Reply(View(), r) == Invoke(old(View()), Exit(pid))
    {
      if pid !in processes { return Refuse("process not found"); }
      processes := processes - {pid};
      r := Result(true, 0, "process exited", None);
    }

    method IpcSend(target: int, letter: Letter) returns (r: Result)
      modifies this`queues
      ensures Reply(View(), r) == Invoke(old(View()), Send(target, letter))
    {
      if target !in processes { return Refuse("target process not found"); }
      if target !in queues { queues := queues[target := []]; }
      queues := queues[target := queues[target] + [letter]];
      r := Result(true, 0, "message sent", None);
    }

    method IpcReceive(pid: int) returns (r: Result)
      modifies this`queues
      ensures Reply(View(), r) == Invoke(old(View()), Receive(pid))
    {
      if pid !in queues || queues[pid] == [] { return Refuse("no message"); }
      var letter := queues[pid][0];
      queues := queues[pid := queues[pid][1..]];
      r := Result(true, 0, "message received", Some(letter));
    }
  }
}
