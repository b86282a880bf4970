/** Ascending sorting of numbers and the commit rule's choice from it. */
module Sorting {

  function Max(a: nat, b: nat): nat { if a < b then b else a }

  function Insert(x: nat, s: seq<nat>): (r: seq<nat>)
    ensures |r| == |s| + 1
  {
    if s == [] then [x]
    else if x <= s[0] then [x] + s
    else [s[0]] + Insert(x, s[1..])
  }

  function Sort(s: seq<nat>): (r: seq<nat>)
    ensures |r| == |s|
  {
    if s == [] then [] else Insert(s[0], Sort(s[1..]))
  }

  predicate Ascending(s: seq<nat>) {
    forall i, j :: 0 <= i <= j < |s| ==> s[i] <= s[j]
  }

  /** How many elements of s are at least v. */
  function CountFrom(s: seq<nat>, v: nat): nat {
    if s == [] then 0 else (if s[0] >= v then 1 else 0) + CountFrom(s[1..], v)
  }

  /** The positions holding at least v. */
  ghost function Holders(s: seq<nat>, v: nat): set<nat> {
    set i: nat | i < |s| && s[i] >= v
  }

  lemma {:induction false} InsertKeeps(x: nat, s: seq<nat>)
    ensures multiset(Insert(x, s)) == multiset{x} + multiset(s)
  {
    if s == [] {
    } else {
      assert s == [s[0]] + s[1..];
      if x > s[0] {
        InsertKeeps(x, s[1..]);
      }
    }
  }

  lemma {:induction false} InsertAscending(x: nat, s: seq<nat>)
    requires Ascending(s)
    ensures Ascending(Insert(x, s))
  {
    if s == [] || x <= s[0] {
    } else {
      InsertAscending(x, s[1..]);
      InsertKeeps(x, s[1..]);
      var r := Insert(x, s[1..]);
      forall k | 0 <= k < |r|
        ensures s[0] <= r[k]
      {
        assert r[k] in multiset(r);
        assert r[k] == x || r[k] in multiset(s[1..]);
      }
    }
  }

  lemma {:induction false} SortSorts(s: seq<nat>)
    ensures Ascending(Sort(s)) && multiset(Sort(s)) == multiset(s)
  {
    if s == [] {
    } else {
      SortSorts(s[1..]);
      InsertAscending(s[0], Sort(s[1..]));
      InsertKeeps(s[0], Sort(s[1..]));
      assert s == [s[0]] + s[1..];
    }
  }

  lemma {:induction false} CountInsert(x: nat, s: seq<nat>, v: nat)
    ensures CountFrom(Insert(x, s), v) == (if x >= v then 1 else 0) + CountFrom(s, v)
  {
    if s == [] || x <= s[0] {
    } else {
      CountInsert(x, s[1..], v);
    }
  }

  lemma {:induction false} CountSort(s: seq<nat>, v: nat)
    ensures CountFrom(Sort(s), v) == CountFrom(s, v)
  {
    if s == [] {
    } else {
      CountSort(s[1..], v);
      CountInsert(s[0], Sort(s[1..]), v);
    }
  }

  lemma {:induction false} CountAscending(s: seq<nat>, k: nat, v: nat)
    requires Ascending(s) && k <= |s| && (k < |s| ==> v <= s[k])
    ensures CountFrom(s, v) >= |s| - k
  {
    if s == [] {
    } else {
      CountAscending(s[1..], if k == 0 then 0 else k - 1, v);
    }
  }

  lemma {:induction false} CountHolders(s: seq<nat>, v: nat)
    ensures |Holders(s, v)| == CountFrom(s, v)
  {
    if s == [] {
    } else {
      CountHolders(s[1..], v);
      var rest := Holders(s[1..], v);
      ShiftCard(rest);
      var head: set<nat> := if s[0] >= v then {0} else {};
      forall i: nat
        ensures i in Holders(s, v) <==> i in head + Shift(rest)
      {
        if i > 0 {
          assert i in Shift(rest) <==> i - 1 in rest;
        }
      }
      assert Holders(s, v) == head + Shift(rest);
    }
  }

  ghost function Shift(a: set<nat>): set<nat> {
    set i: nat | i in a :: i + 1
  }

  lemma {:induction false} ShiftCard(a: set<nat>)
    ensures |Shift(a)| == |a|
    decreases |a|
  {
    if a == {} {
    } else {
      var x :| x in a;
      ShiftCard(a - {x});
      forall i: nat
        ensures i in Shift(a) <==> i in Shift(a - {x}) + {x + 1}
      {
        assert i in Shift(a) <==> i > 0 && i - 1 in a;
        assert i in Shift(a - {x}) <==> i > 0 && i - 1 in a - {x};
      }
      assert Shift(a) == Shift(a - {x}) + {x + 1};
    }
  }

  lemma {:induction false} CountBelow(s: seq<nat>, k: nat, v: nat)
    requires Ascending(s) && k < |s| && s[k] < v
    ensures CountFrom(s, v) <= |s| - k - 1
  {
    if k == 0 {
      CountAtMost(s[1..], v);
    } else {
      CountBelow(s[1..], k - 1, v);
    }
  }

  lemma {:induction false} CountAtMost(s: seq<nat>, v: nat)
    ensures CountFrom(s, v) <= |s|
  {
    if s == [] {
    } else {
      CountAtMost(s[1..], v);
    }
  }

  lemma {:induction false} CountAll(s: seq<nat>, v: nat)
    requires forall i :: 0 <= i < |s| ==> s[i] >= v
    ensures CountFrom(s, v) == |s|
  {
    if s == [] {
    } else {
      CountAll(s[1..], v);
    }
  }

  /** No index above the middle of the sorted ones is held by half of the cluster. */
  lemma MiddleIsGreatest(s: seq<nat>, v: nat)
    requires |s| > 0 && 2 * |Holders(s, v)| >= |s|
    ensures v <= Sort(s)[|s| / 2]
  {
    SortSorts(s);
    CountSort(s, v);
    CountHolders(s, v);
    if Sort(s)[|s| / 2] < v { CountBelow(Sort(s), |s| / 2, v); }
  }

  /** The commit rule: at least half of the cluster, rounded up, holds the middle of the sorted indexes. */
  lemma MiddleHeldByHalf(s: seq<nat>)
    requires |s| > 0
    ensures 2 * |Holders(s, Sort(s)[|s| / 2])| >= |s|
  {
    var v := Sort(s)[|s| / 2];
    SortSorts(s);
    CountAscending(Sort(s), |s| / 2, v);
    CountSort(s, v);
    CountHolders(s, v);
  }

  /** Every one of the sorted indexes is one of the indexes. */
  lemma MiddleAmong(s: seq<nat>, k: nat)
    requires k < |s|
    ensures Sort(s)[k] in s
  {
    SortSorts(s);
    assert Sort(s)[k] in multiset(Sort(s));
  }
}
