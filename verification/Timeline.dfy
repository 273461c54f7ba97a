/**
 Row sequences keyed by time: the sorting, de-duplicating and binary-search steps that
 pandas and numpy perform for the engine, the bar store and the account replay.
 */
module Timeline {

  /** The rows stamped at or before `t`, in their order. */
  function UpTo<T>(s: seq<T>, key: T -> int, t: int): seq<T> {
    if s == [] then []
    else
      var rest := UpTo(s[..|s| - 1], key, t);
      if key(s[|s| - 1]) <= t then rest + [s[|s| - 1]] else rest
  }

  /** Stable insertion: `x` goes after every row with the same key. */
  function Insert<T>(s: seq<T>, key: T -> int, x: T): seq<T> {
    if s == [] || key(s[|s| - 1]) <= key(x) then s + [x]
    else Insert(s[..|s| - 1], key, x) + [s[|s| - 1]]
  }

  /** A stable sort. */
  function SortBy<T>(s: seq<T>, key: T -> int): seq<T> {
    if s == [] then [] else Insert(SortBy(s[..|s| - 1], key), key, s[|s| - 1])
  }

  predicate HasKey<T>(s: seq<T>, key: T -> int, t: int) {
    exists i :: 0 <= i < |s| && key(s[i]) == t
  }

  /** `drop_duplicates(keep="first")` */
  function KeepFirst<T>(s: seq<T>, key: T -> int): seq<T> {
    if s == [] then []
    else
      var rest := KeepFirst(s[..|s| - 1], key);
      if HasKey(s[..|s| - 1], key, key(s[|s| - 1])) then rest else rest + [s[|s| - 1]]
  }

  /** `drop_duplicates(keep="last")` */
  function KeepLast<T>(s: seq<T>, key: T -> int): seq<T> {
    if s == [] then []
    else if HasKey(s[1..], key, key(s[0])) then KeepLast(s[1..], key)
    else [s[0]] + KeepLast(s[1..], key)
  }

  ghost predicate Sorted<T>(s: seq<T>, key: T -> int) {
    forall i, j :: 0 <= i < j < |s| ==> key(s[i]) <= key(s[j])
  }

  ghost predicate Increasing<T>(s: seq<T>, key: T -> int) {
    forall i, j :: 0 <= i < j < |s| ==> key(s[i]) < key(s[j])
  }

  /** No two rows share a key. */
  ghost predicate UniqueKeys<T>(s: seq<T>, key: T -> int) {
    forall i, j :: 0 <= i < j < |s| ==> key(s[i]) != key(s[j])
  }

  /** Right-sided bisection, `numpy.searchsorted(..., side="right")`. */
  function Bisect<T>(s: seq<T>, key: T -> int, t: int, lo: nat, hi: nat): (r: nat)
    requires lo <= hi <= |s|
    ensures lo <= r <= hi
    decreases hi - lo
  {
    if lo == hi then lo
    else
      var mid := (lo + hi) / 2;
      if key(s[mid]) <= t then Bisect(s, key, t, mid + 1, hi) else Bisect(s, key, t, lo, mid)
  }

  function SearchRight<T>(s: seq<T>, key: T -> int, t: int): (r: nat)
    ensures r <= |s|
  {
    Bisect(s, key, t, 0, |s|)
  }

  // ---- facts about UpTo ----

  lemma {:induction false} UpToRows<T(!new)>(s: seq<T>, key: T -> int, t: int)
    ensures forall x :: x in UpTo(s, key, t) <==> x in s && key(x) <= t
  {
    if s != [] {
      UpToRows(s[..|s| - 1], key, t);
      assert s == s[..|s| - 1] + [s[|s| - 1]];
    }
  }

  lemma {:induction false} UpToShorter<T(!new)>(s: seq<T>, key: T -> int, t: int)
    ensures |UpTo(s, key, t)| <= |s|
  {
    if s != [] {
      UpToShorter(s[..|s| - 1], key, t);
    }
  }

  lemma {:induction false} UpToConcat<T(!new)>(a: seq<T>, b: seq<T>, key: T -> int, t: int)
    ensures UpTo(a + b, key, t) == UpTo(a, key, t) + UpTo(b, key, t)
  {
    if b == [] {
      assert a + b == a;
    } else {
      var init := b[..|b| - 1];
      assert (a + b)[..|a + b| - 1] == a + init;
      UpToConcat(a, init, key, t);
    }
  }

  lemma {:induction false} UpToAll<T(!new)>(s: seq<T>, key: T -> int, t: int)
    requires forall i :: 0 <= i < |s| ==> key(s[i]) <= t
    ensures UpTo(s, key, t) == s
  {
    if s != [] {
      UpToAll(s[..|s| - 1], key, t);
      assert s == s[..|s| - 1] + [s[|s| - 1]];
    }
  }

  lemma {:induction false} UpToNone<T(!new)>(s: seq<T>, key: T -> int, t: int)
    requires forall i :: 0 <= i < |s| ==> key(s[i]) > t
    ensures UpTo(s, key, t) == []
  {
    if s != [] {
      UpToNone(s[..|s| - 1], key, t);
    }
  }

  /** Filtering twice keeps what the earlier cutoff keeps. */
  lemma {:induction false} UpToUpTo<T(!new)>(s: seq<T>, key: T -> int, t: int, u: int)
    requires t <= u
    ensures UpTo(UpTo(s, key, u), key, t) == UpTo(s, key, t)
  {
    if s != [] {
      var init, last := s[..|s| - 1], s[|s| - 1];
      UpToUpTo(init, key, t, u);
      if key(last) <= u {
        assert (UpTo(init, key, u) + [last])[..|UpTo(init, key, u)|] == UpTo(init, key, u);
      }
    }
  }

  /** Row `r` separates the rows up to `t` from the rows after it. */
  ghost predicate SplitsAt<T>(s: seq<T>, key: T -> int, t: int, r: nat) {
    && r <= |s|
    && (forall i :: 0 <= i < r ==> key(s[i]) <= t)
    && (forall i :: r <= i < |s| ==> key(s[i]) > t)
  }

  /** Bisection splits a sorted sequence at `t`. */
  lemma {:induction false} BisectSplits<T(!new)>(s: seq<T>, key: T -> int, t: int, lo: nat, hi: nat)
    requires lo <= hi <= |s| && Sorted(s, key)
    requires forall i :: 0 <= i < lo ==> key(s[i]) <= t
    requires forall i :: hi <= i < |s| ==> key(s[i]) > t
    ensures SplitsAt(s, key, t, Bisect(s, key, t, lo, hi))
    decreases hi - lo
  {
    if lo < hi {
      var mid := (lo + hi) / 2;
      if key(s[mid]) <= t {
        BisectSplits(s, key, t, mid + 1, hi);
      } else {
        BisectSplits(s, key, t, lo, mid);
      }
    }
  }

  /** On a sorted sequence the binary search finds exactly the rows at or before `t`. */
  lemma SearchIsUpTo<T(!new)>(s: seq<T>, key: T -> int, t: int)
    requires Sorted(s, key)
    ensures s[..SearchRight(s, key, t)] == UpTo(s, key, t)
  {
    BisectSplits(s, key, t, 0, |s|);
    SplitIsUpTo(s, key, t, SearchRight(s, key, t));
  }

  lemma SplitIsUpTo<T(!new)>(s: seq<T>, key: T -> int, t: int, r: nat)
    requires SplitsAt(s, key, t, r)
    ensures s[..r] == UpTo(s, key, t)
  {
    UpToConcat(s[..r], s[r..], key, t);
    UpToAll(s[..r], key, t);
    UpToNone(s[r..], key, t);
    assert s == s[..r] + s[r..];
  }

  lemma UpToIncreasing<T(!new)>(s: seq<T>, key: T -> int, t: int)
    requires Increasing(s, key)
    ensures Increasing(UpTo(s, key, t), key)
  {
    SearchIsUpTo(s, key, t);
  }

  lemma EmptyTogether<T(!new)>(a: seq<T>, b: seq<T>)
    requires forall x :: x in a <==> x in b
    ensures a == [] <==> b == []
  {
    if a != [] {
      assert a[0] in b;
    }
    if b != [] {
      assert b[0] in a;
    }
  }

  /** Increasing sequences with the same rows end in the same row. */
  lemma SameRowsSameLast<T(!new)>(a: seq<T>, b: seq<T>, key: T -> int)
    requires Increasing(a, key) && Increasing(b, key) && (forall x :: x in a <==> x in b) && a != [] && b != []
    ensures a[|a| - 1] == b[|b| - 1]
  {
    var x, y := a[|a| - 1], b[|b| - 1];
    assert x in b && y in a;
    var i :| 0 <= i < |b| && b[i] == x;
    var j :| 0 <= j < |a| && a[j] == y;
    assert key(x) <= key(y) && key(y) <= key(x);
  }

  lemma InitRows<T(!new)>(a: seq<T>, key: T -> int)
    requires Increasing(a, key) && a != []
    ensures forall z :: z in a[..|a| - 1] <==> z in a && z != a[|a| - 1]
  {
    var init, last := a[..|a| - 1], a[|a| - 1];
    assert a == init + [last];
    forall k | 0 <= k < |init| ensures init[k] != last {
      assert key(a[k]) < key(a[|a| - 1]);
    }
  }

  /** Increasing sequences with the same rows are equal. */
  lemma {:induction false} SameRowsSameSeq<T(!new)>(a: seq<T>, b: seq<T>, key: T -> int)
    requires Increasing(a, key) && Increasing(b, key) && forall x :: x in a <==> x in b
    ensures a == b
  {
    EmptyTogether(a, b);
    if a != [] && b != [] {
      SameRowsSameLast(a, b, key);
      InitRows(a, key);
      InitRows(b, key);
      var ra, rb := a[..|a| - 1], b[..|b| - 1];
      forall z ensures z in ra <==> z in rb {
        assert z in a <==> z in b;
      }
      SameRowsSameSeq(ra, rb, key);
      assert a == ra + [a[|a| - 1]] && b == rb + [b[|b| - 1]];
    }
  }

  /** Rows up to the stamp of row `k` are the first `k + 1` rows. */
  lemma UpToPrefix<T(!new)>(s: seq<T>, key: T -> int, k: nat)
    requires Increasing(s, key) && k < |s|
    ensures UpTo(s, key, key(s[k])) == s[..k + 1]
  {
    SplitIsUpTo(s, key, key(s[k]), k + 1);
  }

  // ---- sorting ----

  lemma {:induction false} InsertRows<T(!new)>(s: seq<T>, key: T -> int, x: T)
    ensures multiset(Insert(s, key, x)) == multiset(s) + multiset{x}
    ensures forall y :: y in Insert(s, key, x) <==> y in s || y == x
  {
    if s != [] && key(s[|s| - 1]) > key(x) {
      InsertRows(s[..|s| - 1], key, x);
      assert s == s[..|s| - 1] + [s[|s| - 1]];
    }
  }

  lemma {:induction false} InsertSorted<T(!new)>(s: seq<T>, key: T -> int, x: T)
    requires Sorted(s, key)
    ensures Sorted(Insert(s, key, x), key)
  {
    if s != [] && key(s[|s| - 1]) > key(x) {
      var init, last := s[..|s| - 1], s[|s| - 1];
      InsertSorted(init, key, x);
      InsertRows(init, key, x);
      var r := Insert(init, key, x);
      forall i | 0 <= i < |r| ensures key(r[i]) <= key(last) {
        assert r[i] in r;
      }
    }
  }

  lemma {:induction false} SortIsSorted<T(!new)>(s: seq<T>, key: T -> int)
    ensures Sorted(SortBy(s, key), key)
    ensures multiset(SortBy(s, key)) == multiset(s)
    ensures forall y :: y in SortBy(s, key) <==> y in s
  {
    if s != [] {
      var init, last := s[..|s| - 1], s[|s| - 1];
      assert s == init + [last];
      SortIsSorted(init, key);
      InsertSorted(SortBy(init, key), key, last);
      InsertRows(SortBy(init, key), key, last);
    }
  }

  lemma {:induction false} SortOfSorted<T(!new)>(s: seq<T>, key: T -> int)
    requires Sorted(s, key)
    ensures SortBy(s, key) == s
  {
    if s != [] {
      var init := s[..|s| - 1];
      SortOfSorted(init, key);
      assert s == init + [s[|s| - 1]];
    }
  }

  lemma {:induction false} InsertUpTo<T(!new)>(s: seq<T>, key: T -> int, x: T, t: int)
    requires Sorted(s, key)
    ensures UpTo(Insert(s, key, x), key, t)
         == if key(x) <= t then Insert(UpTo(s, key, t), key, x) else UpTo(s, key, t)
  {
    if s == [] || key(s[|s| - 1]) <= key(x) {
      UpToConcat(s, [x], key, t);
      assert [x][..0] == [];
      if key(x) <= t {
        UpToAll(s, key, t);
      }
    } else {
      var init, last := s[..|s| - 1], s[|s| - 1];
      InsertUpTo(init, key, x, t);
      UpToConcat(Insert(init, key, x), [last], key, t);
      assert [last][..0] == [];
      if key(last) <= t {
        var r := UpTo(init, key, t);
        assert (r + [last])[..|r|] == r;
      }
    }
  }

  /** Cutting at a time and sorting commute. */
  lemma {:induction false} SortUpTo<T(!new)>(s: seq<T>, key: T -> int, t: int)
    ensures UpTo(SortBy(s, key), key, t) == SortBy(UpTo(s, key, t), key)
  {
    if s != [] {
      var init, last := s[..|s| - 1], s[|s| - 1];
      SortUpTo(init, key, t);
      SortIsSorted(init, key);
      InsertUpTo(SortBy(init, key), key, last, t);
      var r := UpTo(init, key, t);
      if key(last) <= t {
        assert (r + [last])[..|r|] == r;
      }
    }
  }

  // ---- duplicates ----

  lemma {:induction false} KeepFirstRows<T(!new)>(s: seq<T>, key: T -> int)
    ensures UniqueKeys(KeepFirst(s, key), key)
    ensures forall x :: x in KeepFirst(s, key) ==> x in s
    ensures forall t :: HasKey(KeepFirst(s, key), key, t) <==> HasKey(s, key, t)
  {
    if s != [] {
      var init, last := s[..|s| - 1], s[|s| - 1];
      KeepFirstRows(init, key);
      var r := KeepFirst(init, key);
      forall t ensures HasKey(KeepFirst(s, key), key, t) <==> HasKey(s, key, t) {
        if HasKey(s, key, t) {
          var i :| 0 <= i < |s| && key(s[i]) == t;
          if i < |init| {
            assert key(init[i]) == t && HasKey(init, key, t);
            var j :| 0 <= j < |r| && key(r[j]) == t;
            assert key(KeepFirst(s, key)[j]) == t;
          } else if !HasKey(init, key, key(last)) {
            assert key(KeepFirst(s, key)[|r|]) == t;
          } else {
            assert HasKey(r, key, t);
            var j :| 0 <= j < |r| && key(r[j]) == t;
            assert key(KeepFirst(s, key)[j]) == t;
          }
        }
        if HasKey(KeepFirst(s, key), key, t) {
          var i :| 0 <= i < |KeepFirst(s, key)| && key(KeepFirst(s, key)[i]) == t;
          if i < |r| {
            assert HasKey(r, key, t);
            var j :| 0 <= j < |init| && key(init[j]) == t;
            assert key(s[j]) == t;
          } else {
            assert key(s[|s| - 1]) == t;
          }
        }
      }
      if !HasKey(init, key, key(last)) {
        forall i | 0 <= i < |r| ensures key(r[i]) != key(last) {
          assert HasKey(r, key, key(r[i]));
        }
      }
    }
  }

  /** The kept row of each key is the first one. */
  lemma {:induction false} KeepFirstIsFirst<T(!new)>(s: seq<T>, key: T -> int, i: nat)
    requires i < |s| && forall j :: 0 <= j < i ==> key(s[j]) != key(s[i])
    ensures s[i] in KeepFirst(s, key)
  {
    if i < |s| - 1 {
      KeepFirstIsFirst(s[..|s| - 1], key, i);
    }
  }

  /** Sorting rows with distinct keys gives strictly increasing keys. */
  lemma SortUnique<T(!new)>(s: seq<T>, key: T -> int)
    requires UniqueKeys(s, key)
    ensures Increasing(SortBy(s, key), key)
  {
    SortIsSorted(s, key);
    SortKeepsUnique(s, key);
  }

  lemma {:induction false} InsertKeepsUnique<T(!new)>(s: seq<T>, key: T -> int, x: T)
    requires UniqueKeys(s, key) && !HasKey(s, key, key(x))
    ensures UniqueKeys(Insert(s, key, x), key)
    ensures forall t :: HasKey(Insert(s, key, x), key, t) ==> HasKey(s, key, t) || t == key(x)
  {
    if s != [] && key(s[|s| - 1]) > key(x) {
      var init, last := s[..|s| - 1], s[|s| - 1];
      forall t | HasKey(init, key, t) ensures HasKey(s, key, t) {
        var i :| 0 <= i < |init| && key(init[i]) == t;
        assert key(s[i]) == t;
      }
      InsertKeepsUnique(init, key, x);
      var r := Insert(init, key, x);
      forall i | 0 <= i < |r| ensures key(r[i]) != key(last) {
        assert HasKey(r, key, key(r[i]));
      }
      forall t | HasKey(r + [last], key, t) ensures HasKey(s, key, t) || t == key(x) {
        var i :| 0 <= i < |r + [last]| && key((r + [last])[i]) == t;
        if i < |r| {
          assert HasKey(r, key, t);
        } else {
          assert key(s[|s| - 1]) == t;
        }
      }
    } else {
      forall i | 0 <= i < |s| ensures key(s[i]) != key(x) {
      }
      forall t | HasKey(s + [x], key, t) ensures HasKey(s, key, t) || t == key(x) {
        var i :| 0 <= i < |s + [x]| && key((s + [x])[i]) == t;
        if i < |s| {
          assert key(s[i]) == t;
        }
      }
    }
  }

  lemma {:induction false} SortKeepsUnique<T(!new)>(s: seq<T>, key: T -> int)
    requires UniqueKeys(s, key)
    ensures UniqueKeys(SortBy(s, key), key)
  {
    if s != [] {
      var init, last := s[..|s| - 1], s[|s| - 1];
      SortKeepsUnique(init, key);
      SortIsSorted(init, key);
      var r := SortBy(init, key);
      forall i | 0 <= i < |r| ensures key(r[i]) != key(last) {
        assert r[i] in r;
        var j :| 0 <= j < |init| && init[j] == r[i];
        assert s[j] == init[j];
      }
      InsertKeepsUnique(SortBy(init, key), key, last);
    }
  }
}
