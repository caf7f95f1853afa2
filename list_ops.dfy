/** The List<T> operations the link helpers of User and UserGroup use, with
    membership taken as object identity: Contains, Add guarded by Contains,
    IndexOf, and Remove (which drops the first occurrence only). */
module ListOps {

  predicate NoDuplicates<T(==)>(s: seq<T>) {
    forall i, j :: 0 <= i < j < |s| ==> s[i] != s[j]
  }

  /** `if (!list.Contains(x)) list.Add(x);` */
  function Added<T(==)>(s: seq<T>, x: T): (r: seq<T>)
    ensures x in r
    ensures forall i :: 0 <= i < |r| ==> r[i] in s || r[i] == x
    ensures s <= r
    ensures |r| == if x in s then |s| else |s| + 1
  {
    if x in s then s else s + [x]
  }

  /** List.IndexOf: the first position holding x, or -1. */
  function IndexOf<T(==)>(s: seq<T>, x: T): (i: int)
    ensures -1 <= i < |s|
    ensures i == -1 <==> x !in s
    ensures 0 <= i ==> s[i] == x && x !in s[..i]
  {
    if |s| == 0 then -1
    else if s[0] == x then 0
    else
      var k := IndexOf(s[1..], x);
      if k == -1 then -1
      else
        assert s[..k + 1] == [s[0]] + s[1..][..k];
        k + 1
  }

  /** List.Remove: drops the first occurrence of x, if any. */
  function Removed<T(==)>(s: seq<T>, x: T): (r: seq<T>)
    ensures multiset(r) == multiset(s) - multiset{x}
    ensures x !in s ==> r == s
    ensures x in s ==> r == s[..IndexOf(s, x)] + s[IndexOf(s, x) + 1..]
    ensures |r| == if x in s then |s| - 1 else |s|
  {
    var i := IndexOf(s, x);
    if i == -1 then s
    else
      assert s == s[..i] + [x] + s[i + 1..];
      s[..i] + s[i + 1..]
  }

  /** Remove cuts out the first occurrence and keeps the order of the rest. */
  lemma RemovedFirstOccurrence<T>(s: seq<T>, x: T)
    requires x in s
    ensures exists i :: 0 <= i < |s| && s[i] == x && x !in s[..i] && Removed(s, x) == s[..i] + s[i + 1..]
  {
    var i := IndexOf(s, x);
    assert s[i] == x && x !in s[..i];
  }

  /** Removal leaves every other element's membership as it was. */
  lemma RemovedKeepsOthers<T>(s: seq<T>, x: T, y: T)
    requires y != x
    ensures y in Removed(s, x) <==> y in s
  {
    assert y in Removed(s, x) <==> y in multiset(Removed(s, x));
    assert y in s <==> y in multiset(s);
  }

  /** Adding twice is adding once. */
  lemma AddedIdempotent<T>(s: seq<T>, x: T)
    ensures Added(Added(s, x), x) == Added(s, x)
  {
  }

  lemma {:induction false} AddedPreservesNoDuplicates<T>(s: seq<T>, x: T)
    requires NoDuplicates(s)
    ensures NoDuplicates(Added(s, x))
  {
    if x !in s {
      var r := s + [x];
      forall i, j | 0 <= i < j < |r| ensures r[i] != r[j] {
        if j == |s| {
          assert r[i] == s[i];
        }
      }
    }
  }

  /** On a duplicate-free list Remove takes every copy away. */
  lemma RemovedLeavesNone<T>(s: seq<T>, x: T)
    requires NoDuplicates(s)
    ensures x !in Removed(s, x)
  {
    if x in s {
      var i := IndexOf(s, x);
      assert s == s[..i] + [x] + s[i + 1..];
    }
  }

  /** Where position k of `s` with position i cut out comes from. */
  lemma ShiftedIndex<T>(s: seq<T>, i: nat, k: nat)
    requires i < |s| && k < |s| - 1
    ensures (s[..i] + s[i + 1..])[k] == if k < i then s[k] else s[k + 1]
  {
  }

  /** Cutting one position out of a duplicate-free list keeps it so. */
  lemma CutPreservesNoDuplicates<T>(s: seq<T>, i: nat)
    requires NoDuplicates(s) && i < |s|
    ensures NoDuplicates(s[..i] + s[i + 1..])
  {
    var r := s[..i] + s[i + 1..];
    forall p, q | 0 <= p < q < |r| ensures r[p] != r[q] {
      ShiftedIndex(s, i, p);
      ShiftedIndex(s, i, q);
    }
  }

  lemma {:induction false} RemovedPreservesNoDuplicates<T>(s: seq<T>, x: T)
    requires NoDuplicates(s)
    ensures NoDuplicates(Removed(s, x))
  {
    var i := IndexOf(s, x);
    if i != -1 {
      assert Removed(s, x) == s[..i] + s[i + 1..];
      CutPreservesNoDuplicates(s, i);
    }
  }

  /** Removing what was just appended to a list that lacked it gives the
      list back. */
  lemma RemovedAfterAdded<T>(s: seq<T>, x: T)
    requires x !in s
    ensures Removed(Added(s, x), x) == s
  {
    var r := s + [x];
    assert IndexOf(r, x) == |s|;
    assert r[..|s|] == s;
  }
}
