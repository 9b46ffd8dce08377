/**
  Ordered insertion and the stable sort it builds, for any integer key.
  The reference definition of "the stable sort" is IsStableSort: ascending keys, and for each key
  the elements with that key in their arrival order. StableSortUnique shows there is only one.
 */
module StableOrder {

  predicate Ascending<T>(key: T -> int, s: seq<T>) {
    forall i, j :: 0 <= i < j < |s| ==> key(s[i]) <= key(s[j])
  }

  /** The elements of `s` whose key is `v`, in their order in `s`. */
  function WithKey<T>(key: T -> int, s: seq<T>, v: int): (r: seq<T>) {
    if s == [] then []
    else
      var n := |s| - 1;
      WithKey(key, s[..n], v) + if key(s[n]) == v then [s[n]] else []
  }

  ghost predicate SameClasses<T(!new)>(key: T -> int, a: seq<T>, b: seq<T>) {
    forall v :: WithKey(key, a, v) == WithKey(key, b, v)
  }

  ghost predicate IsStableSort<T(!new)>(key: T -> int, arrivals: seq<T>, s: seq<T>) {
    Ascending(key, s) && SameClasses(key, s, arrivals)
  }

  /** Index of the first element with a larger key, or the length: where `find_if` stops. */
  function Slot<T>(key: T -> int, s: seq<T>, v: int): (i: nat)
    ensures i <= |s|
    ensures forall j :: 0 <= j < i ==> key(s[j]) <= v
    ensures i < |s| ==> v < key(s[i])
  {
    if s == [] || v < key(s[0]) then 0 else 1 + Slot(key, s[1..], v)
  }

  function Insert<T>(key: T -> int, s: seq<T>, x: T): (r: seq<T>) {
    var i := Slot(key, s, key(x));
    s[..i] + [x] + s[i..]
  }

  function Sort<T>(key: T -> int, arrivals: seq<T>): (r: seq<T>) {
    if arrivals == [] then []
    else Insert(key, Sort(key, arrivals[..|arrivals| - 1]), arrivals[|arrivals| - 1])
  }

  lemma {:induction false} WithKeyConcat<T>(key: T -> int, a: seq<T>, b: seq<T>, v: int)
    ensures WithKey(key, a + b, v) == WithKey(key, a, v) + WithKey(key, b, v)
  {
    if b == [] {
      assert a + b == a;
    } else {
      var n := |b| - 1;
      assert (a + b)[..|a| + n] == a + b[..n];
      WithKeyConcat(key, a, b[..n], v);
    }
  }

  lemma {:induction false} WithKeyNone<T>(key: T -> int, s: seq<T>, v: int)
    requires forall i :: 0 <= i < |s| ==> key(s[i]) != v
    ensures WithKey(key, s, v) == []
  {
    if s != [] {
      WithKeyNone(key, s[..|s| - 1], v);
    }
  }

  lemma {:induction false} WithKeyMember<T>(key: T -> int, s: seq<T>, v: int, x: T)
    ensures x in WithKey(key, s, v) <==> x in s && key(x) == v
  {
    if s != [] {
      var n := |s| - 1;
      WithKeyMember(key, s[..n], v, x);
      assert s == s[..n] + [s[n]];
    }
  }

  lemma InsertAscending<T>(key: T -> int, s: seq<T>, x: T)
    requires Ascending(key, s)
    ensures Ascending(key, Insert(key, s, x))
  {
    var i, r := Slot(key, s, key(x)), Insert(key, s, x);
    assert forall j :: 0 <= j < |r| ==> r[j] == if j < i then s[j] else if j == i then x else s[j - 1];
  }

  /** Insertion puts the newcomer behind its equals. */
  lemma InsertStable<T>(key: T -> int, s: seq<T>, x: T, v: int)
    requires Ascending(key, s)
    ensures WithKey(key, Insert(key, s, x), v) == WithKey(key, s + [x], v)
  {
    var i := Slot(key, s, key(x));
    if v == key(x) {
      BehindSlot(key, s, v);
      WithKeyNone(key, s[i..], v);
    } else {
      WithKeyNone(key, [x], v);
    }
    Exchange(key, s[..i], s[i..], [x], v);
    assert s[..i] + s[i..] == s;
  }

  lemma Exchange<T>(key: T -> int, a: seq<T>, b: seq<T>, c: seq<T>, v: int)
    requires WithKey(key, b, v) == [] || WithKey(key, c, v) == []
    ensures WithKey(key, a + c + b, v) == WithKey(key, a + b + c, v)
  {
    Concat3(key, a, c, b, v);
    Concat3(key, a, b, c, v);
  }

  lemma Concat3<T>(key: T -> int, a: seq<T>, b: seq<T>, c: seq<T>, v: int)
    ensures WithKey(key, a + b + c, v) == WithKey(key, a, v) + WithKey(key, b, v) + WithKey(key, c, v)
  {
    WithKeyConcat(key, a + b, c, v);
    WithKeyConcat(key, a, b, v);
  }

  lemma BehindSlot<T>(key: T -> int, s: seq<T>, v: int)
    requires Ascending(key, s)
    ensures var b := s[Slot(key, s, v)..]; forall j :: 0 <= j < |b| ==> key(b[j]) != v
  {
    var i := Slot(key, s, v);
    forall j | i <= j < |s|
      ensures v < key(s[j])
    {
      assert key(s[i]) <= key(s[j]);
    }
  }

  lemma {:induction false} SortIsStable<T(!new)>(key: T -> int, arrivals: seq<T>)
    ensures IsStableSort(key, arrivals, Sort(key, arrivals))
  {
    if arrivals != [] {
      var n := |arrivals| - 1;
      var before, x := arrivals[..n], arrivals[n];
      SortIsStable(key, before);
      var s := Sort(key, before);
      assert arrivals == before + [x];
      forall v
        ensures WithKey(key, Sort(key, arrivals), v) == WithKey(key, arrivals, v)
      {
        InsertStable(key, s, x, v);
        WithKeyConcat(key, s, [x], v);
        WithKeyConcat(key, before, [x], v);
      }
      InsertAscending(key, s, x);
    }
  }

  /** Two ascending sequences that agree on every key class are the same sequence. */
  lemma {:induction false} StableSortUnique<T(!new)>(key: T -> int, a: seq<T>, b: seq<T>)
    requires Ascending(key, a) && Ascending(key, b) && SameClasses(key, a, b)
    ensures a == b
  {
    if a == [] || b == [] {
      EmptyClasses(key, a, b);
    } else {
      SameLast(key, a, b);
      ButLast(key, a, b);
      StableSortUnique(key, a[..|a| - 1], b[..|b| - 1]);
      assert a == a[..|a| - 1] + [a[|a| - 1]] && b == b[..|b| - 1] + [b[|b| - 1]];
    }
  }

  lemma SameMembers<T(!new)>(key: T -> int, a: seq<T>, b: seq<T>, x: T)
    requires SameClasses(key, a, b)
    ensures x in a <==> x in b
  {
    WithKeyMember(key, a, key(x), x);
    WithKeyMember(key, b, key(x), x);
    assert WithKey(key, a, key(x)) == WithKey(key, b, key(x));
  }

  lemma EmptyClasses<T(!new)>(key: T -> int, a: seq<T>, b: seq<T>)
    requires SameClasses(key, a, b) && (a == [] || b == [])
    ensures a == b
  {
    if a != [] { SameMembers(key, a, b, a[0]); }
    if b != [] { SameMembers(key, a, b, b[0]); }
  }

  lemma SameLast<T(!new)>(key: T -> int, a: seq<T>, b: seq<T>)
    requires Ascending(key, a) && Ascending(key, b) && SameClasses(key, a, b) && a != [] && b != []
    ensures a[|a| - 1] == b[|b| - 1]
  {
    var x, y := a[|a| - 1], b[|b| - 1];
    SameMembers(key, a, b, x);
    SameMembers(key, a, b, y);
    assert WithKey(key, a, key(x)) == WithKey(key, b, key(x));
    DropLast(key, a, key(x));
    DropLast(key, b, key(x));
  }

  lemma DropLast<T>(key: T -> int, a: seq<T>, v: int)
    requires a != []
    ensures var m, r := |a| - 1, WithKey(key, a, v);
      if key(a[m]) == v then r != [] && r[|r| - 1] == a[m] && WithKey(key, a[..m], v) == r[..|r| - 1]
      else WithKey(key, a[..m], v) == r
  {
  }

  lemma ButLast<T(!new)>(key: T -> int, a: seq<T>, b: seq<T>)
    requires SameClasses(key, a, b) && a != [] && b != [] && a[|a| - 1] == b[|b| - 1]
    ensures SameClasses(key, a[..|a| - 1], b[..|b| - 1])
  {
    var a', b' := a[..|a| - 1], b[..|b| - 1];
    forall v
      ensures WithKey(key, a', v) == WithKey(key, b', v)
    {
      assert WithKey(key, a, v) == WithKey(key, b, v);
      DropLast(key, a, v);
      DropLast(key, b, v);
    }
  }

  /** A sequence that already ascends is its own stable sort. */
  lemma SortOfAscending<T(!new)>(key: T -> int, s: seq<T>)
    requires Ascending(key, s)
    ensures Sort(key, s) == s
  {
    SortIsStable(key, s);
    StableSortUnique(key, Sort(key, s), s);
  }
}
