/**
  The C++ bump allocator (src/memory/MemoryRegion.hpp). Addresses are offsets from the base of the buffer,
  and sizes are 64-bit: additions wrap as `std::size_t` does.
 */
module RegionAllocator {

  const WORD: nat := 0x1_0000_0000_0000_0000

  type Size = n: nat | n < WORD

  datatype Address = Null | At(offset: nat)

  // permission and kind are carried along unchanged
  datatype Segment = Segment(address: Address, size: nat, permission: int, kind: int) {
    function Start(): nat { if address.At? then address.offset else 0 }
    function End(): nat { Start() + size }
  }

  datatype Arena = Arena(hasBuffer: bool, capacity: nat, used: nat, segments: seq<Segment>)

  // What a refused allocation returns: MemoryPermission::NONE and MemoryType::UNKNOWN.
  const NO_SEGMENT := Segment(Null, 0, 0, 0)

  datatype Granted = Granted(arena: Arena, segment: Segment)

  function Allocate(a: Arena, size: nat, permission: int, kind: int): Granted {
    if !a.hasBuffer || size == 0 || (a.used + size) % WORD > a.capacity then Granted(a, NO_SEGMENT)
    else
      var s := Segment(At(a.used), size, permission, kind);
      Granted(a.(used := (a.used + size) % WORD, segments := a.segments + [s]), s)
  }

  /** Index of the first segment at `address`, or the number of segments. */
  function Find(segments: seq<Segment>, address: Address): (i: nat)
    ensures i <= |segments|
    ensures forall j :: 0 <= j < i ==> segments[j].address != address
    ensures i < |segments| ==> segments[i].address == address
  {
    if segments == [] || segments[0].address == address then 0 else 1 + Find(segments[1..], address)
  }

  function Without(segments: seq<Segment>, i: nat): seq<Segment>
    requires i < |segments|
  {
    segments[..i] + segments[i + 1..]
  }

  function SubtractWord(a: nat, b: nat): nat {
    (a - b) % WORD
  }

  function Free(a: Arena, address: Address): Arena {
    var i := Find(a.segments, address);
    if i == |a.segments| then a
    else
      a.(used := if i == |a.segments| - 1 then SubtractWord(a.used, a.segments[i].size) else a.used,
         segments := Without(a.segments, i))
  }

  // ---- safety ----

  ghost predicate InOrder(segments: seq<Segment>) {
    && (forall i :: 0 <= i < |segments| ==> segments[i].address.At? && 0 < segments[i].size)
    && forall i, j :: 0 <= i < j < |segments| ==> segments[i].End() <= segments[j].Start()
  }

  function LastEnd(segments: seq<Segment>): nat {
    if segments == [] then 0 else segments[|segments| - 1].End()
  }

  /** Live segments are non-empty, ascending and disjoint, and lie inside the used part of the buffer. */
  ghost predicate Safe(a: Arena) {
    && InOrder(a.segments) && LastEnd(a.segments) <= a.used <= a.capacity < WORD
    && (!a.hasBuffer ==> a.capacity == 0)
  }

  lemma NewArenaIsSafe(capacity: Size)
    ensures Safe(Arena(capacity != 0, capacity, 0, []))
  {
  }

  lemma ExtendOrder(segments: seq<Segment>, s: Segment)
    requires InOrder(segments) && s.address.At? && 0 < s.size && LastEnd(segments) <= s.Start()
    ensures InOrder(segments + [s]) && LastEnd(segments + [s]) == s.End()
  {
    var n := |segments|;
    forall i | 0 <= i < n
      ensures segments[i].End() <= s.Start()
    {
      if i < n - 1 { assert segments[i].End() <= segments[n - 1].Start(); }
    }
  }

  lemma WrappedSum(used: nat, size: nat)
    requires used < WORD && size < WORD
    ensures (used + size) % WORD == if used + size < WORD then used + size else used + size - WORD
  {
  }

  /** An allocation keeps the arena safe if and only if `used + size` does not wrap around. */
  lemma AllocateSafety(a: Arena, size: Size, permission: int, kind: int)
    requires Safe(a)
    ensures Safe(Allocate(a, size, permission, kind).arena) <==> !a.hasBuffer || size == 0 || a.used + size < WORD
  {
    WrappedSum(a.used, size);
    if a.hasBuffer && size != 0 && (a.used + size) % WORD <= a.capacity {
      var s := Segment(At(a.used), size, permission, kind);
      ExtendOrder(a.segments, s);
    }
  }

  /**
    A request is granted exactly when it fits behind `used` or the sum wraps around. It starts behind all live
    segments; one that fits ends at the new `used`, one that wraps reaches beyond the buffer.
   */
  lemma AllocateOutcome(a: Arena, size: Size, permission: int, kind: int)
    requires Safe(a)
    ensures var g := Allocate(a, size, permission, kind);
      if a.hasBuffer && 0 < size && (a.used + size <= a.capacity || WORD <= a.used + size) then
        && g.segment == Segment(At(a.used), size, permission, kind) && LastEnd(a.segments) <= g.segment.Start()
        && g.arena.segments == a.segments + [g.segment]
        && g.arena == a.(used := g.arena.used, segments := g.arena.segments)
        && (a.used + size < WORD ==> g.segment.End() == g.arena.used <= a.capacity)
        && (WORD <= a.used + size ==> g.arena.used < a.used <= a.capacity < g.segment.End())
      else g.arena == a && g.segment.address == Null
  {
    WrappedSum(a.used, size);
  }

  /** The wrap is reachable: a request of 2^64 - 1 bytes is granted once a byte is in use. */
  lemma WrapExample()
    ensures var a := Allocate(Arena(true, 16, 0, []), 1, 3, 0).arena;
      Safe(a) && Allocate(a, WORD - 1, 3, 0).segment.address == At(1) && !Safe(Allocate(a, WORD - 1, 3, 0).arena)
  {
    var a := Allocate(Arena(true, 16, 0, []), 1, 3, 0).arena;
    AllocateSafety(Arena(true, 16, 0, []), 1, 3, 0);
    AllocateSafety(a, WORD - 1, 3, 0);
  }

  /** At most one live segment has a given address, so the lookup in `free` is unambiguous. */
  lemma AddressesUnique(a: Arena, i: nat, j: nat)
    requires Safe(a) && i < j < |a.segments|
    ensures a.segments[i].address != a.segments[j].address
  {
  }

  lemma WithoutInOrder(segments: seq<Segment>, i: nat)
    requires InOrder(segments) && i < |segments|
    ensures InOrder(Without(segments, i))
    ensures i == |segments| - 1 ==> LastEnd(Without(segments, i)) <= segments[i].Start()
    ensures i < |segments| - 1 ==> LastEnd(Without(segments, i)) == LastEnd(segments)
  {
    var r := Without(segments, i);
    assert forall j :: 0 <= j < |r| ==> r[j] == segments[if j < i then j else j + 1];
  }

  /** Freeing any address keeps the arena safe, also when holes leave `used` beyond the last segment. */
  lemma FreeSafety(a: Arena, address: Address)
    requires Safe(a)
    ensures Safe(Free(a, address))
  {
    var i := Find(a.segments, address);
    if i < |a.segments| {
      WithoutInOrder(a.segments, i);
    }
  }

  /** A free drops exactly the segment at the address; `used` falls by its size if it was the last one. */
  lemma FreeOutcome(a: Arena, address: Address)
    requires Safe(a)
    ensures var b := Free(a, address);
      && b == a.(used := b.used, segments := b.segments)
      && (forall s :: s in b.segments <==> s in a.segments && s.address != address)
      && ((forall s :: s in a.segments ==> s.address != address) ==> b == a)
      && (a.segments != [] && a.segments[|a.segments| - 1].address == address ==>
            b.used == a.used - a.segments[|a.segments| - 1].size)
      && (a.segments != [] && a.segments[|a.segments| - 1].address != address ==> b.used == a.used)
  {
    var i, b := Find(a.segments, address), Free(a, address);
    if i < |a.segments| {
      forall s
        ensures s in b.segments <==> s in a.segments && s.address != address
      {
        WithoutMembers(a, i, s);
      }
      LastLive(a);
      assert i < |a.segments| - 1 ==> a.segments[i].address != a.segments[|a.segments| - 1].address;
    } else {
      assert forall s :: s in a.segments ==> s.address != address;
    }
  }

  lemma LastLive(a: Arena)
    requires Safe(a) && a.segments != []
    ensures var s := a.segments[|a.segments| - 1]; s.size <= a.used && SubtractWord(a.used, s.size) == a.used - s.size
  {
  }

  lemma WithoutMembers(a: Arena, i: nat, s: Segment)
    requires Safe(a) && i < |a.segments|
    ensures s in Without(a.segments, i) <==> s in a.segments && s.address != a.segments[i].address
  {
    if s in a.segments && s.address != a.segments[i].address {
      KeptWithout(a.segments, i, s);
    }
    if s in Without(a.segments, i) {
      var j :| 0 <= j < |a.segments| - 1 && Without(a.segments, i)[j] == s;
      WithoutAt(a.segments, i, j);
      DifferentAddresses(a, i, if j < i then j else j + 1);
    }
  }

  lemma WithoutAt(segments: seq<Segment>, i: nat, j: nat)
    requires i < |segments| && j < |segments| - 1
    ensures Without(segments, i)[j] == segments[if j < i then j else j + 1]
  {
  }

  lemma KeptWithout(segments: seq<Segment>, i: nat, s: Segment)
    requires i < |segments| && s in segments && s != segments[i]
    ensures s in Without(segments, i)
  {
    var j :| 0 <= j < |segments| && segments[j] == s;
    WithoutAt(segments, i, if j < i then j else j - 1);
  }

  lemma DifferentAddresses(a: Arena, i: nat, j: nat)
    requires Safe(a) && i < |a.segments| && j < |a.segments| && i != j
    ensures a.segments[i].address != a.segments[j].address
  {
    if i < j { AddressesUnique(a, i, j); } else { AddressesUnique(a, j, i); }
  }

  /** Freeing what has just been granted restores the arena, unless the grant wrapped around. */
  lemma FreeUndoesAllocate(a: Arena, size: Size, permission: int, kind: int)
    requires Safe(a) && a.used + size < WORD
    ensures var g := Allocate(a, size, permission, kind);
      g.segment.address.At? ==> Free(g.arena, g.segment.address) == a
  {
    var g := Allocate(a, size, permission, kind);
    AllocateOutcome(a, size, permission, kind);
    AllocateSafety(a, size, permission, kind);
    if g.segment.address.At? {
      var n := |a.segments|;
      assert g.arena.segments[n] == g.segment;
      FoundAt(g.arena, n);
      LastLive(g.arena);
      assert Without(g.arena.segments, n) == a.segments;
    }
  }

  /** The look-up by address finds the segment that has it. */
  lemma FoundAt(a: Arena, n: nat)
    requires Safe(a) && n < |a.segments|
    ensures Find(a.segments, a.segments[n].address) == n
  {
    var i := Find(a.segments, a.segments[n].address);
    if i < n { AddressesUnique(a, i, n); }
  }

  // ---- conservation ----

  function Total(segments: seq<Segment>): nat {
    if segments == [] then 0 else Total(segments[..|segments| - 1]) + segments[|segments| - 1].size
  }

  /** The holes before and between live segments. */
  function Gaps(segments: seq<Segment>): int {
    if segments == [] then 0
    else
      var n := |segments| - 1;
      Gaps(segments[..n]) + (segments[n].Start() - LastEnd(segments[..n]))
  }

  lemma {:induction false} TotalConcat(a: seq<Segment>, b: seq<Segment>)
    ensures Total(a + b) == Total(a) + Total(b)
  {
    if b == [] {
      assert a + b == a;
    } else {
      var n := |b| - 1;
      assert (a + b)[..|a| + n] == a + b[..n];
      TotalConcat(a, b[..n]);
    }
  }

  lemma TotalMiddle(a: seq<Segment>, x: Segment, b: seq<Segment>)
    ensures Total(a + [x] + b) == Total(a + b) + x.size
  {
    TotalConcat(a + [x], b);
    TotalConcat(a, [x]);
    TotalConcat(a, b);
    assert [x][..0] == [] && Total([x]) == x.size;
  }

  lemma TotalWithout(segments: seq<Segment>, i: nat)
    requires i < |segments|
    ensures Total(Without(segments, i)) == Total(segments) - segments[i].size
  {
    var front, x, back := segments[..i], segments[i], segments[i + 1..];
    SplitAt(segments, i);
    TotalMiddle(front, x, back);
  }

  lemma SplitAt(segments: seq<Segment>, i: nat)
    requires i < |segments|
    ensures segments == segments[..i] + [segments[i]] + segments[i + 1..]
  {
  }

  lemma {:induction false} GapsAndSizes(segments: seq<Segment>)
    ensures Gaps(segments) + Total(segments) == LastEnd(segments)
  {
    if segments != [] {
      GapsAndSizes(segments[..|segments| - 1]);
    }
  }

  lemma {:induction false} GapsNonNegative(segments: seq<Segment>)
    requires InOrder(segments)
    ensures 0 <= Gaps(segments)
  {
    if segments != [] {
      GapsNonNegative(segments[..|segments| - 1]);
    }
  }

  datatype Op = Grab(size: Size, permission: int, kind: int) | Release(address: Address)

  /** The arena with the total size of segments that were freed while not last. */
  datatype Ledger = Ledger(arena: Arena, leak: nat)

  function Step(l: Ledger, op: Op): Ledger {
    match op
    case Grab(size, permission, kind) => l.(arena := Allocate(l.arena, size, permission, kind).arena)
    case Release(address) =>
      var i := Find(l.arena.segments, address);
      Ledger(Free(l.arena, address),
             if i + 1 < |l.arena.segments| then l.leak + l.arena.segments[i].size else l.leak)
  }

  /** The sum `used + size` of an effective request stays below 2^64. */
  predicate NoWrap(a: Arena, op: Op) {
    op.Grab? && a.hasBuffer && 0 < op.size ==> a.used + op.size < WORD
  }

  ghost predicate Conserved(l: Ledger) {
    Safe(l.arena) && l.arena.used == Total(l.arena.segments) + l.leak
  }

  lemma GrabConserves(l: Ledger, size: Size, permission: int, kind: int)
    requires Conserved(l)
    ensures Conserved(Step(l, Grab(size, permission, kind))) <==> NoWrap(l.arena, Grab(size, permission, kind))
  {
    AllocateSafety(l.arena, size, permission, kind);
    AllocateOutcome(l.arena, size, permission, kind);
    AppendTotal(l.arena.segments, Segment(At(l.arena.used), size, permission, kind));
  }

  lemma AppendTotal(segments: seq<Segment>, s: Segment)
    ensures Total(segments + [s]) == Total(segments) + s.size
  {
    assert (segments + [s])[..|segments|] == segments;
  }

  lemma ReleaseConserves(l: Ledger, address: Address)
    requires Conserved(l)
    ensures var i, a := Find(l.arena.segments, address), Free(l.arena, address);
      && Safe(a)
      && a.used == Total(a.segments) + l.leak + if i + 1 < |l.arena.segments| then l.arena.segments[i].size else 0
  {
    FreeSafety(l.arena, address);
    var i := Find(l.arena.segments, address);
    if i < |l.arena.segments| {
      TotalWithout(l.arena.segments, i);
    }
  }

  /** A step keeps layout and accounting if and only if it does not wrap around; the leak never falls. */
  lemma StepConserves(l: Ledger, op: Op)
    requires Conserved(l)
    ensures Conserved(Step(l, op)) <==> NoWrap(l.arena, op)
    ensures l.leak <= Step(l, op).leak && Step(l, op).arena.capacity == l.arena.capacity
  {
    match op
    case Grab(size, permission, kind) => GrabConserves(l, size, permission, kind);
    case Release(address) => ReleaseConserves(l, address);
  }

  function Run(l: Ledger, ops: seq<Op>): Ledger
    decreases |ops|
  {
    if ops == [] then l else Run(Step(l, ops[0]), ops[1..])
  }

  predicate NeverWraps(l: Ledger, ops: seq<Op>)
    decreases |ops|
  {
    ops == [] || (NoWrap(l.arena, ops[0]) && NeverWraps(Step(l, ops[0]), ops[1..]))
  }

  ghost predicate AlwaysConserved(l: Ledger, ops: seq<Op>)
    decreases |ops|
  {
    Conserved(l) && (ops != [] ==> AlwaysConserved(Step(l, ops[0]), ops[1..]))
  }

  /** Over every run: layout and accounting hold in all its states if and only if no request of it wraps around. */
  lemma {:induction false} RunConserves(l: Ledger, ops: seq<Op>)
    requires Conserved(l)
    ensures AlwaysConserved(l, ops) <==> NeverWraps(l, ops)
    ensures NeverWraps(l, ops) ==> Conserved(Run(l, ops)) && l.leak <= Run(l, ops).leak
    decreases |ops|
  {
    if ops != [] {
      StepConserves(l, ops[0]);
      if NoWrap(l.arena, ops[0]) {
        RunConserves(Step(l, ops[0]), ops[1..]);
      }
    }
  }

  /**
    On every run without wrap-around: the segments stay safe, and the leak is exactly the holes plus the unused
    tail below `used`. With nothing live, all of `used` is leaked.
   */
  lemma LeakLaw(capacity: Size, ops: seq<Op>)
    requires NeverWraps(Ledger(Arena(capacity != 0, capacity, 0, []), 0), ops)
    ensures var l := Run(Ledger(Arena(capacity != 0, capacity, 0, []), 0), ops);
      && Safe(l.arena)
      && l.leak == Gaps(l.arena.segments) + (l.arena.used - LastEnd(l.arena.segments))
      && 0 <= Gaps(l.arena.segments) <= l.leak
      && (l.arena.segments == [] ==> l.arena.used == l.leak)
  {
    var l0 := Ledger(Arena(capacity != 0, capacity, 0, []), 0);
    NewArenaIsSafe(capacity);
    RunConserves(l0, ops);
    var l := Run(l0, ops);
    GapsAndSizes(l.arena.segments);
    GapsNonNegative(l.arena.segments);
  }

  // ---- addresses outstanding ----

  function Addresses(segments: seq<Segment>): set<Address> {
    set s | s in segments :: s.address
  }

  /** The addresses granted over a sequence of operations and not released since, as the caller can count them. */
  function Outstanding(l: Ledger, held: set<Address>, ops: seq<Op>): set<Address>
    decreases |ops|
  {
    if ops == [] then held
    else
      var after :=
        match ops[0]
        case Grab(size, permission, kind) =>
          var granted := Allocate(l.arena, size, permission, kind).segment.address;
          if granted.At? then held + {granted} else held
        case Release(address) => held - {address};
      Outstanding(Step(l, ops[0]), after, ops[1..])
  }

  lemma GrabAddresses(a: Arena, size: Size, permission: int, kind: int)
    requires Safe(a)
    ensures var g := Allocate(a, size, permission, kind);
      Addresses(g.arena.segments) ==
      Addresses(a.segments) + (if g.segment.address.At? then {g.segment.address} else {})
  {
    AllocateOutcome(a, size, permission, kind);
    var g := Allocate(a, size, permission, kind);
    if g.segment.address.At? {
      assert forall s :: s in g.arena.segments <==> s in a.segments || s == g.segment;
    }
  }

  lemma ReleaseAddresses(a: Arena, address: Address)
    requires Safe(a)
    ensures Addresses(Free(a, address).segments) == Addresses(a.segments) - {address}
  {
    FreeOutcome(a, address);
  }

  lemma {:induction false} LiveIsOutstanding(l: Ledger, ops: seq<Op>)
    requires Conserved(l) && NeverWraps(l, ops)
    ensures Addresses(Run(l, ops).arena.segments) == Outstanding(l, Addresses(l.arena.segments), ops)
    decreases |ops|
  {
    if ops != [] {
      StepConserves(l, ops[0]);
      match ops[0] {
        case Grab(size, permission, kind) => GrabAddresses(l.arena, size, permission, kind);
        case Release(address) => ReleaseAddresses(l.arena, address);
      }
      LiveIsOutstanding(Step(l, ops[0]), ops[1..]);
    }
  }

  /** After any run without wrap-around, a free finds a segment exactly at an address granted and not freed since. */
  lemma FreesWhatIsGranted(capacity: Size, ops: seq<Op>, address: Address)
    requires NeverWraps(Ledger(Arena(capacity != 0, capacity, 0, []), 0), ops)
    ensures var l0 := Ledger(Arena(capacity != 0, capacity, 0, []), 0);
      var segments := Run(l0, ops).arena.segments;
      Find(segments, address) < |segments| <==> address in Outstanding(l0, {}, ops)
  {
    var l0 := Ledger(Arena(capacity != 0, capacity, 0, []), 0);
    NewArenaIsSafe(capacity);
    LiveIsOutstanding(l0, ops);
    assert Addresses([]) == {};
    var segments := Run(l0, ops).arena.segments;
    assert address in Addresses(segments) <==> exists i :: 0 <= i < |segments| && segments[i].address == address by {
      if address in Addresses(segments) {
        var s :| s in segments && s.address == address;
      }
      if i :| 0 <= i < |segments| && segments[i].address == address {
        assert segments[i] in segments;
      }
    }
  }

  // ---- last in, first out ----

  /** Only the most recent live segment is released; a release of an address that is not live does nothing. */
  predicate IsLifo(a: Arena, op: Op) {
    op.Release? ==> |a.segments| <= Find(a.segments, op.address) + 1
  }

  function Sizes(segments: seq<Segment>): seq<nat> {
    seq(|segments|, i requires 0 <= i < |segments| => segments[i].size)
  }

  function Sum(stack: seq<nat>): nat {
    if stack == [] then 0 else Sum(stack[..|stack| - 1]) + stack[|stack| - 1]
  }

  /** A stack of block sizes, by itself: the top block is addressed by the sum of the blocks below it. */
  function StackStep(stack: seq<nat>, capacity: nat, op: Op): seq<nat> {
    match op
    case Grab(size, _, _) => if 0 < size && Sum(stack) + size <= capacity then stack + [size] else stack
    case Release(address) =>
      if stack != [] && address == At(Sum(stack[..|stack| - 1])) then stack[..|stack| - 1] else stack
  }

  function StackRun(stack: seq<nat>, capacity: nat, ops: seq<Op>): seq<nat>
    decreases |ops|
  {
    if ops == [] then stack else StackRun(StackStep(stack, capacity, ops[0]), capacity, ops[1..])
  }

  lemma {:induction false} SumOfSizes(segments: seq<Segment>)
    ensures Sum(Sizes(segments)) == Total(segments)
  {
    if segments != [] {
      var n := |segments| - 1;
      SumOfSizes(segments[..n]);
      assert Sizes(segments)[..n] == Sizes(segments[..n]);
    }
  }

  lemma {:induction false} NoLeakIsPacked(segments: seq<Segment>, i: nat)
    requires InOrder(segments) && Gaps(segments) == 0 && i < |segments|
    ensures segments[i].Start() == Total(segments[..i])
  {
    var n := |segments| - 1;
    var front := segments[..n];
    GapsNonNegative(front);
    if i < n {
      assert front[..i] == segments[..i];
      NoLeakIsPacked(front, i);
    } else {
      GapsAndSizes(front);
    }
  }

  ghost predicate Packed(segments: seq<Segment>) {
    forall i :: 0 <= i < |segments| ==> segments[i].Start() == Total(segments[..i])
  }

  lemma NoLeakPacks(l: Ledger)
    requires Conserved(l) && l.leak == 0
    ensures Packed(l.arena.segments) && l.arena.used == Total(l.arena.segments) == LastEnd(l.arena.segments)
  {
    var s := l.arena.segments;
    GapsAndSizes(s);
    GapsNonNegative(s);
    forall i | 0 <= i < |s|
      ensures s[i].Start() == Total(s[..i])
    {
      NoLeakIsPacked(s, i);
    }
  }

  function Stack(l: Ledger): seq<nat> { Sizes(l.arena.segments) }

  /** A LIFO step from a state without leak is exactly the step of the stack if and only if it does not wrap. */
  lemma LifoRefinesStack(l: Ledger, op: Op)
    requires Conserved(l) && l.leak == 0 && IsLifo(l.arena, op)
    ensures Step(l, op).leak == 0
    ensures Stack(Step(l, op)) == StackStep(Stack(l), l.arena.capacity, op) <==> NoWrap(l.arena, op)
  {
    NoLeakPacks(l);
    SumOfSizes(l.arena.segments);
    match op
    case Grab(size, permission, kind) => PushSize(l.arena, size, permission, kind);
    case Release(address) => PopIsStackStep(l.arena, address);
  }

  lemma PopIsStackStep(a: Arena, address: Address)
    requires Safe(a) && Packed(a.segments) && |a.segments| <= Find(a.segments, address) + 1
    ensures Sizes(Free(a, address).segments) == StackStep(Sizes(a.segments), a.capacity, Release(address))
  {
    TopAddress(a, address);
    PopSize(a, address);
  }

  lemma PushSize(a: Arena, size: Size, permission: int, kind: int)
    requires Safe(a) && a.used == Total(a.segments)
    ensures NoWrap(a, Grab(size, permission, kind)) <==>
            Sizes(Allocate(a, size, permission, kind).arena.segments) ==
            Sizes(a.segments) + if 0 < size && a.used + size <= a.capacity then [size] else []
  {
    AllocateOutcome(a, size, permission, kind);
    var sizes := Sizes(Allocate(a, size, permission, kind).arena.segments);
    assert |sizes| == |Allocate(a, size, permission, kind).arena.segments|;
  }

  /** In a packed arena the only live address a LIFO release can name is the sum of all blocks but the last. */
  lemma TopAddress(a: Arena, address: Address)
    requires Safe(a) && Packed(a.segments) && |a.segments| <= Find(a.segments, address) + 1
    ensures Find(a.segments, address) < |a.segments| <==>
            a.segments != [] && address == At(Sum(Sizes(a.segments)[..|a.segments| - 1]))
  {
    if a.segments != [] {
      var n := |a.segments| - 1;
      SumOfSizes(a.segments[..n]);
      assert Sizes(a.segments)[..n] == Sizes(a.segments[..n]);
      assert a.segments[n].address == At(Total(a.segments[..n]));
    }
  }

  lemma PopSize(a: Arena, address: Address)
    requires |a.segments| <= Find(a.segments, address) + 1
    ensures Sizes(Free(a, address).segments) ==
            if Find(a.segments, address) == |a.segments| then Sizes(a.segments)
            else Sizes(a.segments)[..|a.segments| - 1]
  {
    var i := Find(a.segments, address);
    if i < |a.segments| {
      assert Without(a.segments, i) == a.segments[..i];
    }
  }

  predicate AlwaysLifo(l: Ledger, ops: seq<Op>)
    decreases |ops|
  {
    ops == [] || (IsLifo(l.arena, ops[0]) && AlwaysLifo(Step(l, ops[0]), ops[1..]))
  }

  /**
    A LIFO run never leaks and is the run of the stack: the live segments have the sizes of its blocks, stay packed
    from offset 0, and `used` is their sum.
   */
  lemma {:induction false} LifoRun(l: Ledger, ops: seq<Op>)
    requires Conserved(l) && l.leak == 0 && NeverWraps(l, ops) && AlwaysLifo(l, ops)
    ensures var m := Run(l, ops);
      && Stack(m) == StackRun(Stack(l), l.arena.capacity, ops)
      && m.leak == 0 && Packed(m.arena.segments) && m.arena.used == Sum(Stack(m))
    decreases |ops|
  {
    if ops == [] {
      NoLeakPacks(l);
      SumOfSizes(l.arena.segments);
    } else {
      StepConserves(l, ops[0]);
      LifoRefinesStack(l, ops[0]);
      LifoRun(Step(l, ops[0]), ops[1..]);
    }
  }

  ghost predicate AlwaysStack(l: Ledger, stack: seq<nat>, ops: seq<Op>)
    decreases |ops|
  {
    Stack(l) == stack
    && (ops != [] ==> AlwaysStack(Step(l, ops[0]), StackStep(stack, l.arena.capacity, ops[0]), ops[1..]))
  }

  /** A LIFO run without leak equals the run of the stack in all its states if and only if no request of it wraps. */
  lemma {:induction false} StackOverRuns(l: Ledger, ops: seq<Op>)
    requires Conserved(l) && l.leak == 0 && AlwaysLifo(l, ops)
    ensures AlwaysStack(l, Stack(l), ops) <==> NeverWraps(l, ops)
    decreases |ops|
  {
    if ops != [] {
      LifoRefinesStack(l, ops[0]);
      StepConserves(l, ops[0]);
      if NoWrap(l.arena, ops[0]) {
        StackOverRuns(Step(l, ops[0]), ops[1..]);
      }
    }
  }

  // ---- the class ----

  class MemoryRegion {
    var hasBuffer: bool
    var capacity: nat
    var used: nat
    var segments: seq<Segment>

    ghost function View(): Arena
      reads this
    {
      Arena(hasBuffer, capacity, used, segments)
    }

    constructor (capacity: Size)
      ensures View() == Arena(capacity != 0, capacity, 0, [])
    {
      this.capacity, used, segments := capacity, 0, [];
      hasBuffer := capacity != 0;
    }

    /** Move construction: takes everything over and leaves the source without buffer. */
    constructor Move(other: MemoryRegion)
      modifies other
      ensures View() == old(other.View())
      ensures other.View() == Arena(false, 0, 0, [])
    {
      hasBuffer, capacity, used, segments := other.hasBuffer, other.capacity, other.used, other.segments;
      new;
      other.segments := [];
      other.hasBuffer := false;
      other.capacity, other.used := 0, 0;
    }

    /** Move assignment; assigning an object to itself changes nothing. */
    method Assign(other: MemoryRegion)
      modifies this, other
      ensures View() == old(other.View())
      ensures other != this ==> other.View() == Arena(false, 0, 0, [])
    {
      if this != other {
        hasBuffer, capacity, used, segments := other.hasBuffer, other.capacity, other.used, other.segments;
        other.segments := [];
        other.hasBuffer := false;
        other.capacity, other.used := 0, 0;
      }
    }

    method AllocateSegment(size: Size, permission: int, kind: int) returns (s: Segment)
      modifies this`used, this`segments
      ensures Granted(View(), s) == Allocate(old(View()), size, permission, kind)
      ensures old(Safe(View())) ==> (Safe(View()) <==> NoWrap(old(View()), Grab(size, permission, kind)))
    {
      AllocateSafetyIfSafe(View(), size, permission, kind);
      if !hasBuffer || size == 0 || (used + size) % WORD > capacity { return NO_SEGMENT; }
      s := Segment(At(used), size, permission, kind);
      used := (used + size) % WORD;
      segments := segments + [s];
    }

    method FreeSegment(address: Address) returns (found: bool)
      modifies this`used, this`segments
      ensures View() == Free(old(View()), address)
      ensures found <==> exists i :: 0 <= i < |old(segments)| && old(segments)[i].address == address
      ensures old(Safe(View())) ==> Safe(View())
    {
      FreeSafetyIfSafe(View(), address);
      var i := 0;
      while i < |segments| && segments[i].address != address
        invariant i <= |segments|
        invariant forall j :: 0 <= j < i ==> segments[j].address != address
      {
        i := i + 1;
      }
      assert i == Find(segments, address);
      if i == |segments| { return false; }
      if i + 1 == |segments| { used := SubtractWord(used, segments[i].size); }
      segments := Without(segments, i);
      found := true;
    }
  }

  lemma AllocateSafetyIfSafe(a: Arena, size: Size, permission: int, kind: int)
    ensures Safe(a) ==>
      (Safe(Allocate(a, size, permission, kind).arena) <==> NoWrap(a, Grab(size, permission, kind)))
  {
    if Safe(a) { AllocateSafety(a, size, permission, kind); }
  }

  lemma FreeSafetyIfSafe(a: Arena, address: Address)
    ensures Safe(a) ==> Safe(Free(a, address))
  {
    if Safe(a) { FreeSafety(a, address); }
  }
}
