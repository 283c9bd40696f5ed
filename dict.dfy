/** Dictionaries as JavaScript objects keep them: the keys in first-insertion
    order, and the value stored under each key. */
module OrderedDict {

  /** The key list and the map; `Valid` says the list has no duplicates and
      names exactly the keys of the map, as it is for every object. */
  datatype Dict<V> = Dict(keys: seq<string>, vals: map<string, V>)

  predicate Distinct(s: seq<string>) {
    forall i, j | 0 <= i < j < |s| :: s[i] != s[j]
  }

  ghost predicate Valid<V>(d: Dict<V>) {
    && Distinct(d.keys)
    && (forall i | 0 <= i < |d.keys| :: d.keys[i] in d.vals)
    && (forall k | k in d.vals :: k in d.keys)
  }

  function Empty<V>(): (r: Dict<V>)
    ensures Valid(r)
  {
    Dict([], map[])
  }

  /** `obj[k] = v`: an existing key keeps its position, a new key goes last. */
  function Put<V>(d: Dict<V>, k: string, v: V): Dict<V> {
    Dict(if k in d.vals then d.keys else d.keys + [k], d.vals[k := v])
  }

  lemma PutValid<V>(d: Dict<V>, k: string, v: V)
    requires Valid(d)
    ensures Valid(Put(d, k, v))
  {
  }

  /** `obj[k] || 0` for a dictionary of amounts. */
  function Get0(d: Dict<real>, k: string): real {
    if k in d.vals then d.vals[k] else 0.0
  }

  /** `obj[k] = (obj[k] || 0) + amount`. */
  function AddTo(d: Dict<real>, k: string, amount: real): (r: Dict<real>)
    ensures Get0(r, k) == Get0(d, k) + amount
    ensures forall j :: j != k ==> Get0(r, j) == Get0(d, j)
  {
    Put(d, k, Get0(d, k) + amount)
  }

  /** `Object.values(obj)`: the values in key order. */
  function Values<V>(d: Dict<V>): seq<V> {
    ValuesOf(d.keys, d.vals)
  }

  function ValuesOf<V>(ks: seq<string>, m: map<string, V>): seq<V> {
    if ks == [] then []
    else ValuesOf(ks[..|ks| - 1], m) + (if ks[|ks| - 1] in m then [m[ks[|ks| - 1]]] else [])
  }

  lemma {:induction false} ValuesOfAt<V>(ks: seq<string>, m: map<string, V>)
    requires forall i | 0 <= i < |ks| :: ks[i] in m
    ensures |ValuesOf(ks, m)| == |ks|
    ensures forall i | 0 <= i < |ks| :: ValuesOf(ks, m)[i] == m[ks[i]]
  {
    if ks != [] {
      ValuesOfAt(ks[..|ks| - 1], m);
    }
  }

  lemma {:induction false} ValuesOfFrame<V>(ks: seq<string>, m: map<string, V>, k: string, v: V)
    requires k !in ks
    ensures ValuesOf(ks, m[k := v]) == ValuesOf(ks, m)
  {
    if ks != [] {
      ValuesOfFrame(ks[..|ks| - 1], m, k, v);
    }
  }

  /** `Object.entries(obj)`: the key-value pairs in key order. */
  function Entries<V>(d: Dict<V>): seq<(string, V)> {
    EntriesOf(d.keys, d.vals)
  }

  function EntriesOf<V>(ks: seq<string>, m: map<string, V>): seq<(string, V)> {
    if ks == [] then []
    else EntriesOf(ks[..|ks| - 1], m) + (if ks[|ks| - 1] in m then [(ks[|ks| - 1], m[ks[|ks| - 1]])] else [])
  }

  /** Membership in a non-empty key list: in its prefix, or its last key. */
  lemma InSnoc(s: seq<string>, x: string)
    requires s != []
    ensures x in s <==> x in s[..|s| - 1] || x == s[|s| - 1]
  {
    assert s == s[..|s| - 1] + [s[|s| - 1]];
  }

  /** Dropping the last element of a concatenation with a non-empty right
      part drops it from the right part. */
  lemma ConcatLast<T>(xs: seq<T>, ys: seq<T>)
    requires ys != []
    ensures (xs + ys)[..|xs + ys| - 1] == xs + ys[..|ys| - 1]
    ensures (xs + ys)[|xs + ys| - 1] == ys[|ys| - 1]
  {
    assert (xs + ys)[..|xs + ys| - 1] == xs + ys[..|ys| - 1];
  }

  lemma TakeDrop<T>(s: seq<T>, k: nat)
    requires k <= |s|
    ensures s[..k] + s[k..] == s
  {
  }

  /** `f` applied to each element of `xs`, the results concatenated. */
  function FlatMap<A, B>(xs: seq<A>, f: A -> seq<B>): seq<B> {
    if xs == [] then [] else FlatMap(xs[..|xs| - 1], f) + f(xs[|xs| - 1])
  }

  lemma {:induction false} FlatMapAppend<A, B>(xs: seq<A>, ys: seq<A>, f: A -> seq<B>)
    ensures FlatMap(xs + ys, f) == FlatMap(xs, f) + FlatMap(ys, f)
  {
    if ys == [] {
      assert xs + ys == xs;
    } else {
      ConcatLast(xs, ys);
      FlatMapAppend(xs, ys[..|ys| - 1], f);
    }
  }

  /** The keys of `s` in order of first occurrence, each once. */
  function Dedup(s: seq<string>): (r: seq<string>)
    ensures Distinct(r)
    ensures forall x :: x in r <==> x in s
  {
    if s == [] then []
    else
      var p := Dedup(s[..|s| - 1]);
      if s[|s| - 1] in p then p else p + [s[|s| - 1]]
  }

  /** The sum of `f` over `s`. */
  function SumSeq<V>(s: seq<V>, f: V -> real): real {
    if s == [] then 0.0 else SumSeq(s[..|s| - 1], f) + f(s[|s| - 1])
  }

  lemma {:induction false} SumSeqUpdate<V>(s: seq<V>, i: nat, v: V, f: V -> real)
    requires i < |s|
    ensures SumSeq(s[i := v], f) == SumSeq(s, f) - f(s[i]) + f(v)
  {
    var n := |s| - 1;
    if i < n {
      assert s[i := v][..n] == s[..n][i := v];
      SumSeqUpdate(s[..n], i, v, f);
    } else {
      assert s[i := v][..n] == s[..n];
    }
  }

  lemma {:induction false} SumSeqCons<V>(x: V, s: seq<V>, f: V -> real)
    ensures SumSeq([x] + s, f) == f(x) + SumSeq(s, f)
  {
    if s == [] {
      assert ([x] + s)[..0] == [];
    } else {
      var n := |s| - 1;
      assert ([x] + s)[..|s|] == [x] + s[..n];
      SumSeqCons(x, s[..n], f);
    }
  }

  lemma SumSeqAppend<V>(s: seq<V>, v: V, f: V -> real)
    ensures SumSeq(s + [v], f) == SumSeq(s, f) + f(v)
  {
    assert (s + [v])[..|s|] == s;
  }

  lemma {:induction false} SumSeqConcat<V>(s: seq<V>, t: seq<V>, f: V -> real)
    ensures SumSeq(s + t, f) == SumSeq(s, f) + SumSeq(t, f)
  {
    if t == [] {
      assert s + t == s;
    } else {
      var n := |t| - 1;
      assert (s + t)[..|s + t| - 1] == s + t[..n];
      SumSeqConcat(s, t[..n], f);
    }
  }

  /** A sum does not depend on the order of its terms. */
  lemma {:induction false} SumSeqPermutation<V>(s: seq<V>, t: seq<V>, f: V -> real)
    requires multiset(s) == multiset(t)
    ensures SumSeq(s, f) == SumSeq(t, f)
    decreases |s|
  {
    if s == [] {
      assert t == [] by {
        assert |t| == |multiset(t)|;
      }
    } else {
      var n := |s| - 1;
      var x := s[n];
      assert s == s[..n] + [x];
      assert x in multiset(t);
      var j :| 0 <= j < |t| && t[j] == x;
      var rest := t[..j] + t[j + 1..];
      assert t == t[..j] + [x] + t[j + 1..];
      assert multiset(s) == multiset(s[..n]) + multiset{x};
      assert multiset(t) == multiset(rest) + multiset{x};
      assert multiset(s[..n]) == multiset(s) - multiset{x};
      assert multiset(rest) == multiset(t) - multiset{x};
      SumSeqPermutation(s[..n], rest, f);
      SumSeqConcat(t[..j] + [x], t[j + 1..], f);
      SumSeqConcat(t[..j], t[j + 1..], f);
      SumSeqAppend(t[..j], x, f);
    }
  }

  lemma PutValuesExisting<V>(d: Dict<V>, i: nat, v: V)
    requires Valid(d) && i < |d.keys|
    ensures |Values(d)| == |d.keys|
    ensures Values(Put(d, d.keys[i], v)) == Values(d)[i := v]
  {
    var r := Put(d, d.keys[i], v);
    ValuesOfAt(d.keys, d.vals);
    ValuesOfAt(r.keys, r.vals);
  }

  lemma PutValuesNew<V>(d: Dict<V>, k: string, v: V)
    requires k !in d.vals
    requires forall k' | k' in d.keys :: k' in d.vals
    ensures Values(Put(d, k, v)) == Values(d) + [v]
  {
    ValuesOfFrame(d.keys, d.vals, k, v);
    assert (d.keys + [k])[..|d.keys|] == d.keys;
  }

  /** Summing over the values after `Put` replaces the old value's share by
      the new one's. */
  lemma PutSum<V>(d: Dict<V>, k: string, v: V, f: V -> real)
    requires Valid(d)
    ensures SumSeq(Values(Put(d, k, v)), f)
         == SumSeq(Values(d), f) - (if k in d.vals then f(d.vals[k]) else 0.0) + f(v)
  {
    if k in d.vals {
      var i :| 0 <= i < |d.keys| && d.keys[i] == k;
      PutValuesExisting(d, i, v);
      ValuesOfAt(d.keys, d.vals);
      SumSeqUpdate(Values(d), i, v, f);
    } else {
      PutValuesNew(d, k, v);
      SumSeqAppend(Values(d), v, f);
    }
  }
}
