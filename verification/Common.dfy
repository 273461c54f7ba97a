/** Small shared vocabulary. */
module Common {
  datatype Option<+T> = None | Some(value: T)

  function Min(a: real, b: real): real {
    if a <= b then a else b
  }

  function Max(a: real, b: real): real {
    if a >= b then a else b
  }

  function Abs(a: real): real {
    if a < 0.0 then -a else a
  }
}

/**
 An insertion-ordered dictionary with the update rules of Python's `dict`: assigning to a
 present key keeps its place, assigning to a new key appends, deleting closes the gap.
 */
module OrderedDict {
  import opened Common

  datatype Entry<+K, +V> = Entry(key: K, value: V)

  function Find<K(==), V>(d: seq<Entry<K, V>>, k: K): Option<V> {
    if d == [] then None
    else if d[0].key == k then Some(d[0].value)
    else Find(d[1..], k)
  }

  function Put<K(==), V>(d: seq<Entry<K, V>>, k: K, v: V): seq<Entry<K, V>> {
    if d == [] then [Entry(k, v)]
    else if d[0].key == k then [Entry(k, v)] + d[1..]
    else [d[0]] + Put(d[1..], k, v)
  }

  function Remove<K(==), V>(d: seq<Entry<K, V>>, k: K): seq<Entry<K, V>> {
    if d == [] then []
    else if d[0].key == k then d[1..]
    else [d[0]] + Remove(d[1..], k)
  }

  /** The sum of `f` over all entries. */
  function Total<K, V>(d: seq<Entry<K, V>>, f: (K, V) -> real): real {
    if d == [] then 0.0 else f(d[0].key, d[0].value) + Total(d[1..], f)
  }

  ghost predicate Distinct<K, V>(d: seq<Entry<K, V>>) {
    forall i, j :: 0 <= i < j < |d| ==> d[i].key != d[j].key
  }

  ghost predicate All<K, V>(d: seq<Entry<K, V>>, p: (K, V) -> bool) {
    forall i :: 0 <= i < |d| ==> p(d[i].key, d[i].value)
  }

  /** Entry `i` of a dictionary is what looking up its key finds. */
  lemma {:induction false} FindAt<K(!new), V(!new)>(d: seq<Entry<K, V>>, i: nat)
    requires Distinct(d) && i < |d|
    ensures Find(d, d[i].key) == Some(d[i].value)
  {
    if i > 0 {
      assert d[0].key != d[i].key;
      FindAt(d[1..], i - 1);
    }
  }

  lemma {:induction false} FindIsEntry<K(!new), V(!new)>(d: seq<Entry<K, V>>, k: K)
    ensures Find(d, k).Some? <==> exists i :: 0 <= i < |d| && d[i].key == k
    ensures Find(d, k).Some? ==> exists i :: 0 <= i < |d| && d[i].key == k && d[i].value == Find(d, k).value
  {
    if d != [] && d[0].key != k {
      FindIsEntry(d[1..], k);
      if Find(d, k).Some? {
        var i :| 0 <= i < |d[1..]| && d[1..][i].key == k && d[1..][i].value == Find(d, k).value;
        assert d[i + 1] == d[1..][i];
      }
    } else if d != [] {
      assert d[0].key == k;
    }
  }

  lemma {:induction false} PutFind<K(!new), V(!new)>(d: seq<Entry<K, V>>, k: K, v: V, q: K)
    ensures Find(Put(d, k, v), q) == if q == k then Some(v) else Find(d, q)
  {
    if d != [] && d[0].key != k {
      PutFind(d[1..], k, v, q);
    }
  }

  lemma {:induction false} PutKeys<K(!new), V(!new)>(d: seq<Entry<K, V>>, k: K, v: V, p: (K, V) -> bool)
    requires Distinct(d)
    ensures Distinct(Put(d, k, v))
    ensures forall i :: 0 <= i < |Put(d, k, v)| ==> Put(d, k, v)[i] == Entry(k, v) || Put(d, k, v)[i] in d
    ensures All(d, p) && p(k, v) ==> All(Put(d, k, v), p)
  {
    if d != [] && d[0].key != k {
      PutKeys(d[1..], k, v, p);
      var r := Put(d[1..], k, v);
      forall i | 0 <= i < |r| ensures r[i].key != d[0].key {
        if r[i] != Entry(k, v) {
          var j :| 0 <= j < |d[1..]| && d[1..][j] == r[i];
          assert d[j + 1].key != d[0].key;
        }
      }
    }
  }

  lemma {:induction false} RemoveKeys<K(!new), V(!new)>(d: seq<Entry<K, V>>, k: K)
    requires Distinct(d)
    ensures Distinct(Remove(d, k))
    ensures forall e :: e in Remove(d, k) <==> e in d && e.key != k
  {
    if d == [] {
    } else if d[0].key == k {
      assert d == [d[0]] + d[1..];
    } else {
      RemoveKeys(d[1..], k);
      assert d == [d[0]] + d[1..];
      var r := Remove(d[1..], k);
      forall i | 0 <= i < |r| ensures r[i].key != d[0].key {
        assert r[i] in r;
      }
    }
  }

  /** Writing one key changes the sum by exactly the difference at that key. */
  lemma {:induction false} TotalPut<K(!new), V(!new)>(d: seq<Entry<K, V>>, k: K, v: V, f: (K, V) -> real)
    ensures Total(Put(d, k, v), f)
         == Total(d, f) + f(k, v) - (if Find(d, k).Some? then f(k, Find(d, k).value) else 0.0)
  {
    if d != [] && d[0].key != k {
      TotalPut(d[1..], k, v, f);
    }
  }

  lemma {:induction false} TotalAppend<K(!new), V(!new)>(d: seq<Entry<K, V>>, e: Entry<K, V>, f: (K, V) -> real)
    ensures Total(d + [e], f) == Total(d, f) + f(e.key, e.value)
  {
    if d == [] {
      assert [] + [e] == [e];
    } else {
      assert (d + [e])[1..] == d[1..] + [e];
      TotalAppend(d[1..], e, f);
    }
  }

  lemma {:induction false} TotalRemove<K(!new), V(!new)>(d: seq<Entry<K, V>>, k: K, f: (K, V) -> real)
    ensures Total(Remove(d, k), f)
         == Total(d, f) - (if Find(d, k).Some? then f(k, Find(d, k).value) else 0.0)
  {
    if d != [] && d[0].key != k {
      TotalRemove(d[1..], k, f);
    }
  }

  lemma {:induction false} RemoveFind<K(!new), V(!new)>(d: seq<Entry<K, V>>, k: K, q: K)
    requires Distinct(d)
    ensures Find(Remove(d, k), q) == if q == k then None else Find(d, q)
  {
    if d == [] {
    } else if d[0].key == k {
      if q == k {
        FindIsEntry(d[1..], k);
      }
    } else {
      RemoveFind(d[1..], k, q);
    }
  }
}
