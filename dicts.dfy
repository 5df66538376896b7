/** Python dictionaries as the store's reports use them: insertion-ordered
    association lists with distinct keys. */
module Dicts {
  import opened Wrappers
  import opened Text

  /** The keys of the dictionary, in insertion order. */
  function Keys<K, V>(d: seq<(K, V)>): (r: seq<K>)
    ensures |r| == |d|
    ensures forall i :: 0 <= i < |d| ==> r[i] == d[i].0
  {
    if d == [] then [] else [d[0].0] + Keys(d[1..])
  }

  predicate DistinctKeys<K(==), V>(d: seq<(K, V)>) {
    forall i, j :: 0 <= i < j < |d| ==> d[i].0 != d[j].0
  }

  /** `d.get(k)`: the value of the first entry with key `k`. */
  function Lookup<K(==), V>(d: seq<(K, V)>, k: K): (r: Option<V>)
    ensures r.None? <==> k !in Keys(d)
    ensures r.Some? ==> (k, r.value) in d
  {
    if d == [] then None
    else if d[0].0 == k then Some(d[0].1)
    else Lookup(d[1..], k)
  }

  /** `if k not in d: d[k] = zero` followed by `d[k] = f(d[k])`: an existing
      key keeps its position, a new key goes to the end. */
  function Upsert<K(==), V>(d: seq<(K, V)>, k: K, zero: V, f: V -> V): seq<(K, V)> {
    if d == [] then [(k, f(zero))]
    else if d[0].0 == k then [(k, f(d[0].1))] + d[1..]
    else [d[0]] + Upsert(d[1..], k, zero, f)
  }

  /** Upsert appends `k` to the key order only when it was absent. */
  lemma {:induction false} UpsertKeys<K, V>(d: seq<(K, V)>, k: K, zero: V, f: V -> V)
    ensures Keys(Upsert(d, k, zero, f)) == if k in Keys(d) then Keys(d) else Keys(d) + [k]
  {
    var r := Upsert(d, k, zero, f);
    if d == [] {
    } else if d[0].0 == k {
      assert Keys(r) == [k] + Keys(d[1..]);
      assert Keys(d) == [k] + Keys(d[1..]);
    } else {
      UpsertKeys(d[1..], k, zero, f);
      assert Keys(d) == [d[0].0] + Keys(d[1..]);
      assert Keys(r) == [d[0].0] + Keys(Upsert(d[1..], k, zero, f));
    }
  }

  /** Upsert applies `f` to the value at `k` (or to `zero`) and leaves every
      other key's value alone. */
  lemma {:induction false} UpsertLookup<K, V>(d: seq<(K, V)>, k: K, zero: V, f: V -> V, j: K)
    ensures Lookup(Upsert(d, k, zero, f), j)
         == if j == k then Some(f(Lookup(d, k).GetOr(zero))) else Lookup(d, j)
  {
    if d != [] && d[0].0 != k {
      UpsertLookup(d[1..], k, zero, f, j);
    }
  }

  /** Upsert keeps the keys of a dictionary distinct. */
  lemma UpsertDistinct<K, V>(d: seq<(K, V)>, k: K, zero: V, f: V -> V)
    requires DistinctKeys(d)
    ensures DistinctKeys(Upsert(d, k, zero, f))
  {
    UpsertKeys(d, k, zero, f);
    var r := Upsert(d, k, zero, f);
    assert forall i :: 0 <= i < |r| ==> r[i].0 == Keys(r)[i];
  }

  /** With distinct keys an entry is in the dictionary exactly when looking its
      key up yields its value. */
  lemma {:induction false} LookupByMembership<K, V>(d: seq<(K, V)>, k: K, v: V)
    requires DistinctKeys(d)
    ensures Lookup(d, k) == Some(v) <==> (k, v) in d
  {
    if d != [] && d[0].0 != k {
      LookupByMembership(d[1..], k, v);
    } else if d != [] && (k, v) in d {
      var i :| 0 <= i < |d| && d[i] == (k, v);
      assert i == 0;
    }
  }

  predicate StrictlyAscending<V>(d: seq<(string, V)>) {
    forall i, j :: 0 <= i < j < |d| ==> LexLess(d[i].0, d[j].0)
  }

  /** Inserts an entry in front of the first entry with a larger key. */
  function InsertByKey<V>(e: (string, V), d: seq<(string, V)>): seq<(string, V)> {
    if d == [] || LexLess(e.0, d[0].0) then [e] + d
    else [d[0]] + InsertByKey(e, d[1..])
  }

  /** `sorted(d.items())` for a dictionary keyed by strings. */
  function SortByKey<V>(d: seq<(string, V)>): seq<(string, V)> {
    if d == [] then [] else InsertByKey(d[0], SortByKey(d[1..]))
  }

  lemma {:induction false} InsertByKeyPermutes<V>(e: (string, V), d: seq<(string, V)>)
    ensures multiset(InsertByKey(e, d)) == multiset(d) + multiset{e}
  {
    if d != [] && !LexLess(e.0, d[0].0) {
      InsertByKeyPermutes(e, d[1..]);
      assert d == [d[0]] + d[1..];
    }
  }

  /** Sorting rearranges the entries and neither adds nor drops any. */
  lemma {:induction false} SortByKeyPermutes<V>(d: seq<(string, V)>)
    ensures multiset(SortByKey(d)) == multiset(d)
  {
    if d != [] {
      SortByKeyPermutes(d[1..]);
      InsertByKeyPermutes(d[0], SortByKey(d[1..]));
      assert d == [d[0]] + d[1..];
    }
  }

  lemma {:induction false} InsertByKeySorted<V>(e: (string, V), d: seq<(string, V)>)
    requires StrictlyAscending(d)
    requires e.0 !in Keys(d)
    ensures StrictlyAscending(InsertByKey(e, d))
  {
    if d == [] {
    } else if LexLess(e.0, d[0].0) {
      forall j | 0 < j < |d| + 1 ensures LexLess(e.0, ([e] + d)[j].0) {
        if j > 1 {
          LexLessTransitive(e.0, d[0].0, d[j - 1].0);
        }
      }
    } else {
      assert e.0 != d[0].0 by { assert Keys(d)[0] == d[0].0; }
      LexLessTotal(e.0, d[0].0);
      assert e.0 !in Keys(d[1..]) by {
        forall i | 0 <= i < |d| - 1 ensures Keys(d[1..])[i] != e.0 {
          assert Keys(d)[i + 1] == d[i + 1].0;
        }
      }
      InsertByKeySorted(e, d[1..]);
      InsertByKeyPermutes(e, d[1..]);
      var t := InsertByKey(e, d[1..]);
      forall x | x in t ensures LexLess(d[0].0, x.0) {
        assert x in multiset(t);
        assert x == e || x in multiset(d[1..]);
        if x != e {
          var i :| 0 <= i < |d[1..]| && d[1..][i] == x;
          assert d[i + 1] == x;
        }
      }
      forall i, j | 0 <= i < j < |[d[0]] + t|
        ensures LexLess(([d[0]] + t)[i].0, ([d[0]] + t)[j].0)
      {
        if i == 0 {
          assert ([d[0]] + t)[j] in t;
        }
      }
    }
  }

  /** A dictionary with distinct keys comes out of `sorted` in strictly
      ascending key order. */
  lemma {:induction false} SortByKeySorted<V>(d: seq<(string, V)>)
    requires DistinctKeys(d)
    ensures StrictlyAscending(SortByKey(d))
  {
    if d != [] {
      SortByKeySorted(d[1..]);
      SortByKeyPermutes(d[1..]);
      assert d[0].0 !in Keys(SortByKey(d[1..])) by {
        forall i | 0 <= i < |SortByKey(d[1..])|
          ensures Keys(SortByKey(d[1..]))[i] != d[0].0
        {
          var x := SortByKey(d[1..])[i];
          assert x in multiset(d[1..]);
          var j :| 0 <= j < |d[1..]| && d[1..][j] == x;
          assert d[j + 1] == x;
        }
      }
      InsertByKeySorted(d[0], SortByKey(d[1..]));
    }
  }
}
