/** ORDER BY ... LIMIT, and sorted(..., key=...): stable insertion by an integer key. */
module Sorting {
  predicate SortedBy<T(!new)>(key: T -> int, s: seq<T>) {
    forall i, j :: 0 <= i < j < |s| ==> key(s[i]) <= key(s[j])
  }

  predicate NoRepeats<T(==)>(s: seq<T>) {
    forall i, j :: 0 <= i < j < |s| ==> s[i] != s[j]
  }

  function InsertBy<T>(key: T -> int, s: seq<T>, x: T): seq<T> {
    if |s| == 0 || key(x) < key(s[0]) then [x] + s else [s[0]] + InsertBy(key, s[1..], x)
  }

  function SortBy<T>(key: T -> int, s: seq<T>): seq<T> {
    if |s| == 0 then [] else InsertBy(key, SortBy(key, s[..|s| - 1]), s[|s| - 1])
  }

  lemma {:induction false} InsertKeepsAll<T>(key: T -> int, s: seq<T>, x: T)
    ensures multiset(InsertBy(key, s, x)) == multiset(s) + multiset{x}
  {
    if |s| > 0 && key(s[0]) <= key(x) {
      InsertKeepsAll(key, s[1..], x);
      assert s == [s[0]] + s[1..];
    }
  }

  lemma InsertMembers<T>(key: T -> int, s: seq<T>, x: T)
    ensures forall y :: y in InsertBy(key, s, x) <==> y == x || y in s
  {
    InsertKeepsAll(key, s, x);
    forall y
      ensures y in InsertBy(key, s, x) <==> y == x || y in s
    {
      assert y in multiset(InsertBy(key, s, x)) <==> y in multiset(s) || y == x;
    }
  }

  lemma {:induction false} InsertSorts<T(!new)>(key: T -> int, s: seq<T>, x: T)
    requires SortedBy(key, s)
    ensures SortedBy(key, InsertBy(key, s, x))
  {
    if |s| > 0 && key(s[0]) <= key(x) {
      var tail := s[1..];
      var rest := InsertBy(key, tail, x);
      InsertSorts(key, tail, x);
      InsertMembers(key, tail, x);
      forall j | 0 <= j < |rest|
        ensures key(s[0]) <= key(rest[j])
      {
        assert rest[j] in rest;
        assert rest[j] == x || rest[j] in tail;
      }
    }
  }

  lemma {:induction false} InsertRepeatsNothing<T>(key: T -> int, s: seq<T>, x: T)
    requires NoRepeats(s) && x !in s
    ensures NoRepeats(InsertBy(key, s, x))
  {
    if |s| > 0 && key(s[0]) <= key(x) {
      var rest := InsertBy(key, s[1..], x);
      InsertRepeatsNothing(key, s[1..], x);
      InsertMembers(key, s[1..], x);
      assert s[0] !in rest;
    }
  }

  lemma {:induction false} SortSorts<T(!new)>(key: T -> int, s: seq<T>)
    ensures SortedBy(key, SortBy(key, s)) && multiset(SortBy(key, s)) == multiset(s)
  {
    if |s| > 0 {
      var init, last := s[..|s| - 1], s[|s| - 1];
      SortSorts(key, init);
      InsertSorts(key, SortBy(key, init), last);
      InsertKeepsAll(key, SortBy(key, init), last);
      assert s == init + [last];
    }
  }

  lemma SortMembers<T(!new)>(key: T -> int, s: seq<T>)
    ensures forall y :: y in SortBy(key, s) <==> y in s
  {
    SortSorts(key, s);
    forall y
      ensures y in SortBy(key, s) <==> y in s
    {
      assert y in multiset(SortBy(key, s)) <==> y in multiset(s);
    }
  }

  /** pick is what SELECT ... WHERE due ORDER BY time LIMIT limit may return of rows 0..n. */
  predicate IsSelection(n: nat, due: nat -> bool, time: nat -> int, limit: nat, pick: seq<nat>) {
    && |pick| <= limit && NoRepeats<nat>(pick) && SortedBy<nat>(time, pick)
    && (forall a :: 0 <= a < |pick| ==> pick[a] < n && due(pick[a]))
    && (forall i :: 0 <= i < n && due(i) && i !in pick ==>
          |pick| == limit && forall a :: 0 <= a < |pick| ==> time(pick[a]) <= time(i))
  }

  lemma Truncated(n: nat, due: nat -> bool, time: nat -> int, limit: nat, all: seq<nat>)
    requires NoRepeats<nat>(all) && SortedBy<nat>(time, all)
    requires forall i :: i in all <==> 0 <= i < n && due(i)
    ensures IsSelection(n, due, time, limit, if |all| <= limit then all else all[..limit])
  {
    var pick := if |all| <= limit then all else all[..limit];
    assert forall a :: 0 <= a < |pick| ==> pick[a] == all[a] && all[a] in all;
    forall i | 0 <= i < n && due(i) && i !in pick
      ensures |pick| == limit && forall a :: 0 <= a < |pick| ==> time(pick[a]) <= time(i)
    {
      var b :| 0 <= b < |all| && all[b] == i;
      assert b >= |pick|;
    }
  }

  method Select(n: nat, due: nat -> bool, time: nat -> int, limit: nat) returns (pick: seq<nat>)
    ensures IsSelection(n, due, time, limit, pick)
  {
    var all: seq<nat> := [];
    for i := 0 to n
      invariant NoRepeats<nat>(all) && SortedBy<nat>(time, all)
      invariant forall k :: k in all <==> 0 <= k < i && due(k)
    {
      if due(i) {
        InsertSorts<nat>(time, all, i);
        InsertRepeatsNothing<nat>(time, all, i);
        InsertMembers<nat>(time, all, i);
        all := InsertBy<nat>(time, all, i);
      }
    }
    pick := if |all| <= limit then all else all[..limit];
    Truncated(n, due, time, limit, all);
  }
}
