/** Sequence facts behind the Python list operations `append`, `pop(0)` and `remove`. */
module Lists {

  predicate NoDup<T(==)>(s: seq<T>) {
    forall i, j :: 0 <= i < j < |s| ==> s[i] != s[j]
  }

  /** Position of the first occurrence. */
  function IndexOf<T(==)>(s: seq<T>, x: T): (i: nat)
    requires x in s
    ensures i < |s| && s[i] == x
    ensures forall j :: 0 <= j < i ==> s[j] != x
  {
    if s[0] == x then 0 else 1 + IndexOf(s[1..], x)
  }

  /** `if x in s: s.remove(x)`: drops the first occurrence, if there is one. */
  function Remove<T(==)>(s: seq<T>, x: T): (r: seq<T>)
    ensures x !in s ==> r == s
    ensures x in s ==> |r| == |s| - 1
  {
    if x in s then var i := IndexOf(s, x); s[..i] + s[i + 1..] else s
  }

  /** Every element of the shortened list comes from a place of the old one other than the removed place. */
  lemma RemoveAt<T>(s: seq<T>, x: T, j: nat)
    requires x in s && j < |s| - 1
    ensures Remove(s, x)[j] == s[if j < IndexOf(s, x) then j else j + 1]
  {
  }

  lemma RemoveKeeps<T>(s: seq<T>, x: T, y: T)
    requires y in s && y != x
    ensures y in Remove(s, x)
  {
    if x in s {
      var i, j := IndexOf(s, x), IndexOf(s, y);
      RemoveAt(s, x, if j < i then j else j - 1);
    }
  }

  lemma RemoveNoDup<T>(s: seq<T>, x: T)
    requires NoDup(s)
    ensures NoDup(Remove(s, x))
  {
    if x in s {
      forall i, j | 0 <= i < j < |s| - 1
        ensures Remove(s, x)[i] != Remove(s, x)[j]
      {
        RemoveAt(s, x, i);
        RemoveAt(s, x, j);
      }
    }
  }

  lemma RemoveMembers<T>(s: seq<T>, x: T)
    requires NoDup(s)
    ensures NoDup(Remove(s, x))
    ensures forall y :: y in Remove(s, x) <==> y in s && y != x
  {
    RemoveNoDup(s, x);
    var r := Remove(s, x);
    forall y
      ensures y in r <==> y in s && y != x
    {
      if y in s && y != x {
        RemoveKeeps(s, x, y);
      }
      if y in r && x in s {
        RemoveAt(s, x, IndexOf(r, y));
      }
    }
  }

  /** In a list without duplicates a position determines the index. */
  lemma IndexIsPosition<T>(s: seq<T>, i: nat)
    requires NoDup(s) && i < |s|
    ensures IndexOf(s, s[i]) == i
  {
  }

  /** Removing another element moves `y` forward by one place exactly when that element was ahead of it. */
  lemma RemoveIndex<T>(s: seq<T>, x: T, y: T)
    requires NoDup(s) && y in s && y != x
    ensures y in Remove(s, x)
    ensures IndexOf(Remove(s, x), y) ==
            if x in s && IndexOf(s, x) < IndexOf(s, y) then IndexOf(s, y) - 1 else IndexOf(s, y)
  {
    RemoveMembers(s, x);
    if x in s {
      var i, j, r := IndexOf(s, x), IndexOf(s, y), Remove(s, x);
      var j' := if i < j then j - 1 else j;
      assert r[j'] == y;
      IndexIsPosition(r, j');
    }
  }

  lemma AppendIndex<T>(s: seq<T>, x: T, y: T)
    requires y in s
    ensures y in s + [x] && IndexOf(s + [x], y) == IndexOf(s, y)
    ensures x !in s ==> IndexOf(s + [x], x) == |s|
  {
    var t := s + [x];
    assert t[IndexOf(s, y)] == y && t[|s|] == x;
    assert forall j :: 0 <= j < |s| ==> t[j] == s[j];
    assert forall j :: 0 <= j < |s| ==> s[j] in s;
  }

  lemma AppendNoDup<T>(s: seq<T>, x: T)
    requires NoDup(s) && x !in s
    ensures NoDup(s + [x])
  {
  }

  /** A list without duplicates is as long as its set of elements. */
  lemma {:induction false} NoDupLength<T>(s: seq<T>)
    requires NoDup(s)
    ensures |set x | x in s| == |s|
  {
    if s != [] {
      var n := |s| - 1;
      NoDupLength(s[..n]);
      assert s == s[..n] + [s[n]];
      assert (set x | x in s) == (set x | x in s[..n]) + {s[n]};
    }
  }

  lemma SomethingLeft<T>(all: set<T>, done: set<T>) returns (x: T)
    requires done <= all && done != all
    ensures x in all && x !in done
  {
    x :| x in all && x !in done;
  }
}
