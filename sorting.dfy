/** The two sorts at the end of the aggregation: `Array.prototype.sort()`
    on the month labels (default string order) and the stable sort of the
    products by descending total value. */
module Sorting {
  import opened OrderedDict
  import opened SaftTypes

  // ---------------------------------------------------------------------
  // Month labels

  /** The default order of `sort()`: character by character, and a proper
      prefix comes first. */
  predicate StrLess(a: string, b: string)
    decreases |a|
  {
    if |a| == 0 then |b| > 0
    else if |b| == 0 then false
    else if a[0] != b[0] then a[0] < b[0]
    else StrLess(a[1..], b[1..])
  }

  lemma {:induction false} StrLessIrreflexive(a: string)
    ensures !StrLess(a, a)
    decreases |a|
  {
    if |a| > 0 {
      StrLessIrreflexive(a[1..]);
    }
  }

  lemma {:induction false} StrLessTotal(a: string, b: string)
    ensures a == b || StrLess(a, b) || StrLess(b, a)
    decreases |a|
  {
    if |a| > 0 && |b| > 0 && a[0] == b[0] {
      StrLessTotal(a[1..], b[1..]);
      if a[1..] == b[1..] {
        assert a == [a[0]] + a[1..] && b == [b[0]] + b[1..];
      }
    }
  }

  lemma {:induction false} StrLessTransitive(a: string, b: string, c: string)
    requires StrLess(a, b) && StrLess(b, c)
    ensures StrLess(a, c)
    decreases |a|
  {
    if |a| > 0 && a[0] == b[0] && b[0] == c[0] {
      StrLessTransitive(a[1..], b[1..], c[1..]);
    }
  }

  lemma StrLessAsymmetric(a: string, b: string)
    requires StrLess(a, b)
    ensures !StrLess(b, a)
  {
    if StrLess(b, a) {
      StrLessTransitive(a, b, a);
      StrLessIrreflexive(a);
    }
  }

  predicate StrictlyAscending(s: seq<string>) {
    forall i, j | 0 <= i < j < |s| :: StrLess(s[i], s[j])
  }

  /** Puts `x` after every element that `sort()` puts before it. */
  function InsertString(x: string, s: seq<string>): seq<string> {
    if s == [] then [x]
    else if StrLess(s[0], x) then [s[0]] + InsertString(x, s[1..])
    else [x] + s
  }

  function SortStrings(s: seq<string>): seq<string> {
    if s == [] then [] else InsertString(s[|s| - 1], SortStrings(s[..|s| - 1]))
  }

  lemma {:induction false} InsertStringElements(x: string, s: seq<string>)
    ensures multiset(InsertString(x, s)) == multiset(s) + multiset{x}
  {
    if s != [] && StrLess(s[0], x) {
      InsertStringElements(x, s[1..]);
      assert s == [s[0]] + s[1..];
    }
  }

  lemma {:induction false} InsertStringSpec(x: string, s: seq<string>)
    requires StrictlyAscending(s) && x !in s
    ensures StrictlyAscending(InsertString(x, s))
  {
    if s != [] {
      if StrLess(s[0], x) {
        InsertStringSpec(x, s[1..]);
        InsertStringElements(x, s[1..]);
        var t := InsertString(x, s[1..]);
        forall j | 0 <= j < |t| ensures StrLess(s[0], t[j]) {
          assert t[j] in multiset(t);
          if t[j] != x {
            assert t[j] in s[1..];
          }
        }
      } else {
        StrLessTotal(s[0], x);
        forall j | 0 < j < |s| ensures StrLess(x, s[j]) {
          StrLessTransitive(x, s[0], s[j]);
        }
      }
    }
  }

  /** The months in `sort()` order: strictly ascending when the input has no
      duplicates, and the same labels. */
  lemma {:induction false} SortStringsSpec(s: seq<string>)
    requires Distinct(s)
    ensures StrictlyAscending(SortStrings(s))
    ensures multiset(SortStrings(s)) == multiset(s)
  {
    if s != [] {
      var n := |s| - 1;
      SortStringsSpec(s[..n]);
      assert s[n] !in multiset(s[..n]);
      InsertStringSpec(s[n], SortStrings(s[..n]));
      InsertStringElements(s[n], SortStrings(s[..n]));
      assert s == s[..n] + [s[n]];
    }
  }

  // ---------------------------------------------------------------------
  // Products

  predicate NonIncreasing(s: seq<AggregatedProduct>) {
    forall i, j | 0 <= i < j < |s| :: s[i].totalValue >= s[j].totalValue
  }

  /** Puts `x` after every element whose value is at least its own, so that
      equal values keep their order: the comparator `b.totalValue -
      a.totalValue` under a stable sort. */
  function InsertByValue(x: AggregatedProduct, s: seq<AggregatedProduct>): seq<AggregatedProduct> {
    if s == [] then [x]
    else if s[0].totalValue >= x.totalValue then [s[0]] + InsertByValue(x, s[1..])
    else [x] + s
  }

  function SortByValue(s: seq<AggregatedProduct>): seq<AggregatedProduct> {
    if s == [] then [] else InsertByValue(s[|s| - 1], SortByValue(s[..|s| - 1]))
  }

  /** The elements of `s` with total value `v`, in order. */
  function WithValue(s: seq<AggregatedProduct>, v: real): seq<AggregatedProduct> {
    if s == [] then []
    else (if s[0].totalValue == v then [s[0]] else []) + WithValue(s[1..], v)
  }

  lemma {:induction false} WithValueAppend(a: seq<AggregatedProduct>, b: seq<AggregatedProduct>, v: real)
    ensures WithValue(a + b, v) == WithValue(a, v) + WithValue(b, v)
  {
    if a == [] {
      assert a + b == b;
    } else {
      var h := if a[0].totalValue == v then [a[0]] else [];
      assert (a + b)[0] == a[0];
      assert (a + b)[1..] == a[1..] + b;
      WithValueAppend(a[1..], b, v);
      calc {
        WithValue(a + b, v);
        h + WithValue(a[1..] + b, v);
        h + (WithValue(a[1..], v) + WithValue(b, v));
        (h + WithValue(a[1..], v)) + WithValue(b, v);
      }
    }
  }

  lemma {:induction false} WithValueNone(s: seq<AggregatedProduct>, v: real)
    requires forall i | 0 <= i < |s| :: s[i].totalValue < v
    ensures WithValue(s, v) == []
  {
    if s != [] {
      WithValueNone(s[1..], v);
    }
  }

  lemma {:induction false} InsertByValueElements(x: AggregatedProduct, s: seq<AggregatedProduct>)
    ensures multiset(InsertByValue(x, s)) == multiset(s) + multiset{x}
  {
    if s != [] && s[0].totalValue >= x.totalValue {
      InsertByValueElements(x, s[1..]);
      assert s == [s[0]] + s[1..];
    }
  }

  lemma {:induction false} InsertByValueSorted(x: AggregatedProduct, s: seq<AggregatedProduct>)
    requires NonIncreasing(s)
    ensures NonIncreasing(InsertByValue(x, s))
  {
    if s != [] && s[0].totalValue >= x.totalValue {
      InsertByValueSorted(x, s[1..]);
      InsertByValueElements(x, s[1..]);
      var t := InsertByValue(x, s[1..]);
      forall j | 0 <= j < |t| ensures s[0].totalValue >= t[j].totalValue {
        assert t[j] in multiset(t);
        if t[j] != x {
          assert t[j] in s[1..];
        }
      }
    }
  }

  lemma {:induction false} InsertByValueStable(x: AggregatedProduct, s: seq<AggregatedProduct>, v: real)
    requires NonIncreasing(s)
    ensures WithValue(InsertByValue(x, s), v) == WithValue(s, v) + WithValue([x], v)
  {
    if s != [] {
      assert s == [s[0]] + s[1..];
      if s[0].totalValue >= x.totalValue {
        InsertByValueStable(x, s[1..], v);
        WithValueAppend([s[0]], InsertByValue(x, s[1..]), v);
        WithValueAppend([s[0]], s[1..], v);
      } else {
        WithValueAppend([x], s, v);
        if x.totalValue == v {
          WithValueNone(s, v);
        }
      }
    }
  }

  /** The products in output order: non-increasing in total value, a
      permutation of the input, and stable — the products of any one value
      appear in their input order. */
  lemma {:induction false} SortByValueSpec(s: seq<AggregatedProduct>)
    ensures NonIncreasing(SortByValue(s))
    ensures multiset(SortByValue(s)) == multiset(s)
    ensures forall v :: WithValue(SortByValue(s), v) == WithValue(s, v)
  {
    if s != [] {
      var n := |s| - 1;
      SortByValueSpec(s[..n]);
      InsertByValueSorted(s[n], SortByValue(s[..n]));
      InsertByValueElements(s[n], SortByValue(s[..n]));
      assert s == s[..n] + [s[n]];
      forall v ensures WithValue(SortByValue(s), v) == WithValue(s, v) {
        InsertByValueStable(s[n], SortByValue(s[..n]), v);
        WithValueAppend(s[..n], [s[n]], v);
      }
    }
  }

  /** Sorting keeps every sum over the products. */
  lemma {:induction false} SortByValueSum(s: seq<AggregatedProduct>, f: AggregatedProduct -> real)
    ensures SumSeq(SortByValue(s), f) == SumSeq(s, f)
  {
    if s != [] {
      var n := |s| - 1;
      SortByValueSum(s[..n], f);
      InsertByValueSum(s[n], SortByValue(s[..n]), f);
    }
  }

  lemma {:induction false} InsertByValueSum(x: AggregatedProduct, s: seq<AggregatedProduct>, f: AggregatedProduct -> real)
    ensures SumSeq(InsertByValue(x, s), f) == SumSeq(s, f) + f(x)
  {
    if s == [] {
      assert SumSeq([x], f) == SumSeq([x][..0], f) + f(x);
    } else if s[0].totalValue >= x.totalValue {
      InsertByValueSum(x, s[1..], f);
      SumSeqCons(s[0], InsertByValue(x, s[1..]), f);
      SumSeqCons(s[0], s[1..], f);
      assert s == [s[0]] + s[1..];
    } else {
      SumSeqCons(x, s, f);
    }
  }
}
