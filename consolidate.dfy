/** What the cross-document fold computes: per product, the sums of the
    documents' partials; overall, the grand totals. */
module Consolidation {
  import opened OrderedDict
  import opened SaftTypes
  import opened Extractor
  import opened Aggregation

  /** What the consolidated dictionary holds for code `k`, 0 when it has no entry. */
  function TotalQuantityAt(all: Dict<AggregatedProduct>, k: string): real {
    if k in all.vals then all.vals[k].totalQuantity else 0.0
  }

  function TotalValueAt(all: Dict<AggregatedProduct>, k: string): real {
    if k in all.vals then all.vals[k].totalValue else 0.0
  }

  function TotalVatAt(all: Dict<AggregatedProduct>, k: string, rate: string): real {
    if k in all.vals then Get0(all.vals[k].vatBreakdown, rate) else 0.0
  }

  /** Sums over the outcomes of what each document holds for code `k`. */
  function SumQuantity(os: seq<Outcome>, k: string): real {
    if os == [] then 0.0 else SumQuantity(os[..|os| - 1], k) + QuantityAt(os[|os| - 1].products, k)
  }

  function SumValue(os: seq<Outcome>, k: string): real {
    if os == [] then 0.0 else SumValue(os[..|os| - 1], k) + ValueAt(os[|os| - 1].products, k)
  }

  function SumVat(os: seq<Outcome>, k: string, rate: string): real {
    if os == [] then 0.0 else SumVat(os[..|os| - 1], k, rate) + VatAt(os[|os| - 1].products, k, rate)
  }

  // ---------------------------------------------------------------------
  // VAT buckets

  lemma {:induction false} MergeVatOf(acc: Dict<real>, ks: seq<string>, m: map<string, real>, rate: string)
    requires Distinct(ks) && forall i | 0 <= i < |ks| :: ks[i] in m
    ensures Get0(MergeVat(acc, EntriesOf(ks, m)), rate) == Get0(acc, rate) + (if rate in ks then m[rate] else 0.0)
    ensures rate in MergeVat(acc, EntriesOf(ks, m)).vals <==> rate in acc.vals || rate in ks
  {
    if ks != [] {
      var n := |ks| - 1;
      InSnoc(ks, rate);
      var es := EntriesOf(ks[..n], m);
      MergeVatOf(acc, ks[..n], m, rate);
      assert (es + [(ks[n], m[ks[n]])])[..|es|] == es;
    }
  }

  /** Merging a document's VAT buckets adds each bucket under its own key. */
  lemma MergeVatSum(acc: Dict<real>, vat: Dict<real>, rate: string)
    requires Valid(vat)
    ensures Get0(MergeVat(acc, Entries(vat)), rate) == Get0(acc, rate) + Get0(vat, rate)
    ensures rate in MergeVat(acc, Entries(vat)).vals <==> rate in acc.vals || rate in vat.vals
  {
    MergeVatOf(acc, vat.keys, vat.vals, rate);
  }

  // ---------------------------------------------------------------------
  // One entry, one document

  /** One upsert adds the partial's totals and buckets to its own code only. */
  lemma MergeAt(all: Dict<AggregatedProduct>, code: string, data: Partial, k: string)
    requires Valid(data.vat)
    ensures TotalQuantityAt(Merge(all, code, data), k) == TotalQuantityAt(all, k) + (if k == code then data.quantity else 0.0)
    ensures TotalValueAt(Merge(all, code, data), k) == TotalValueAt(all, k) + (if k == code then data.value else 0.0)
    ensures forall rate :: TotalVatAt(Merge(all, code, data), k, rate)
                           == TotalVatAt(all, k, rate) + (if k == code then Get0(data.vat, rate) else 0.0)
  {
    var base := if code in all.vals then all.vals[code] else Fresh(code, data);
    forall rate
      ensures TotalVatAt(Merge(all, code, data), k, rate)
              == TotalVatAt(all, k, rate) + (if k == code then Get0(data.vat, rate) else 0.0)
    {
      MergeVatSum(base.vatBreakdown, data.vat, rate);
    }
  }

  /** One upsert adds its own code; a new code takes the partial's name and
      an existing entry keeps its own. */
  lemma MergeAtName(all: Dict<AggregatedProduct>, code: string, data: Partial, k: string)
    ensures k in Merge(all, code, data).vals <==> k in all.vals || k == code
    ensures k in Merge(all, code, data).vals ==>
              Merge(all, code, data).vals[k].productName == (if k in all.vals then all.vals[k].productName else data.name)
  {
  }

  lemma MergeProductsSnoc(all: Dict<AggregatedProduct>, es: seq<(string, Partial)>, e: (string, Partial))
    ensures MergeProducts(all, es + [e]) == Merge(MergeProducts(all, es), e.0, e.1)
  {
    assert (es + [e])[..|es|] == es;
  }

  /** Every VAT dictionary of the partials under `ks` is well formed. */
  ghost predicate VatsValid(ks: seq<string>, m: map<string, Partial>) {
    forall i | 0 <= i < |ks| :: ks[i] in m && Valid(m[ks[i]].vat)
  }

  lemma {:induction false} MergeProductsSums(all: Dict<AggregatedProduct>, ks: seq<string>, m: map<string, Partial>, k: string)
    requires Distinct(ks) && VatsValid(ks, m)
    ensures TotalQuantityAt(MergeProducts(all, EntriesOf(ks, m)), k)
            == TotalQuantityAt(all, k) + (if k in ks then m[k].quantity else 0.0)
    ensures TotalValueAt(MergeProducts(all, EntriesOf(ks, m)), k)
            == TotalValueAt(all, k) + (if k in ks then m[k].value else 0.0)
    ensures forall rate :: TotalVatAt(MergeProducts(all, EntriesOf(ks, m)), k, rate)
                           == TotalVatAt(all, k, rate) + (if k in ks then Get0(m[k].vat, rate) else 0.0)
  {
    if ks != [] {
      var n := |ks| - 1;
      InSnoc(ks, k);
      var es := EntriesOf(ks[..n], m);
      assert VatsValid(ks[..n], m);
      MergeProductsSums(all, ks[..n], m, k);
      MergeProductsSnoc(all, es, (ks[n], m[ks[n]]));
      MergeAt(MergeProducts(all, es), ks[n], m[ks[n]], k);
    }
  }

  lemma {:induction false} MergeProductsNames(all: Dict<AggregatedProduct>, ks: seq<string>, m: map<string, Partial>, k: string)
    requires forall i | 0 <= i < |ks| :: ks[i] in m
    ensures k in MergeProducts(all, EntriesOf(ks, m)).vals <==> k in all.vals || k in ks
    ensures k in MergeProducts(all, EntriesOf(ks, m)).vals ==>
              MergeProducts(all, EntriesOf(ks, m)).vals[k].productName
              == (if k in all.vals then all.vals[k].productName else m[k].name)
  {
    if ks != [] {
      var n := |ks| - 1;
      InSnoc(ks, k);
      var es := EntriesOf(ks[..n], m);
      MergeProductsNames(all, ks[..n], m, k);
      MergeProductsSnoc(all, es, (ks[n], m[ks[n]]));
      MergeAtName(MergeProducts(all, es), ks[n], m[ks[n]], k);
    }
  }

  /** Folding one document's products adds, for every code, what that
      document holds for it. */
  lemma MergeDocument(all: Dict<AggregatedProduct>, ps: Dict<Partial>, k: string)
    requires ValidProducts(ps)
    ensures TotalQuantityAt(MergeProducts(all, Entries(ps)), k) == TotalQuantityAt(all, k) + QuantityAt(ps, k)
    ensures TotalValueAt(MergeProducts(all, Entries(ps)), k) == TotalValueAt(all, k) + ValueAt(ps, k)
    ensures forall rate :: TotalVatAt(MergeProducts(all, Entries(ps)), k, rate) == TotalVatAt(all, k, rate) + VatAt(ps, k, rate)
  {
    assert VatsValid(ps.keys, ps.vals);
    MergeProductsSums(all, ps.keys, ps.vals, k);
  }

  /** Folding one document's products adds its codes; a new code takes the
      document's name. */
  lemma MergeDocumentNames(all: Dict<AggregatedProduct>, ps: Dict<Partial>, k: string)
    requires Valid(ps)
    ensures k in MergeProducts(all, Entries(ps)).vals <==> k in all.vals || k in ps.vals
    ensures k in MergeProducts(all, Entries(ps)).vals ==>
              MergeProducts(all, Entries(ps)).vals[k].productName
              == (if k in all.vals then all.vals[k].productName else ps.vals[k].name)
  {
    MergeProductsNames(all, ps.keys, ps.vals, k);
  }

  // ---------------------------------------------------------------------
  // All documents

  /** A consolidated dictionary is a well-formed object, and every entry is
      stored under its own product code. */
  ghost predicate ValidConsolidated(all: Dict<AggregatedProduct>) {
    Valid(all) && forall k | k in all.vals :: all.vals[k].productCode == k
  }

  lemma {:induction false} MergeProductsValid(all: Dict<AggregatedProduct>, es: seq<(string, Partial)>)
    requires ValidConsolidated(all)
    ensures ValidConsolidated(MergeProducts(all, es))
  {
    if es != [] {
      var n := |es| - 1;
      var m, e := MergeProducts(all, es[..n]), es[n];
      MergeProductsValid(all, es[..n]);
      var base := if e.0 in m.vals then m.vals[e.0] else Fresh(e.0, e.1);
      PutValid(m, e.0, Accumulated(base, e.1));
    }
  }

  lemma {:induction false} ConsolidateValid(os: seq<Outcome>)
    ensures ValidConsolidated(Consolidate(os))
  {
    if os != [] {
      ConsolidateValid(os[..|os| - 1]);
      MergeProductsValid(Consolidate(os[..|os| - 1]), Entries(os[|os| - 1].products));
    }
  }

  /** Each consolidated product's totals and VAT buckets are the sums of
      that code's per-document partials. */
  lemma {:induction false} ConsolidateSums(os: seq<Outcome>, k: string)
    requires ValidOutcomes(os)
    ensures TotalQuantityAt(Consolidate(os), k) == SumQuantity(os, k)
    ensures TotalValueAt(Consolidate(os), k) == SumValue(os, k)
    ensures forall rate :: TotalVatAt(Consolidate(os), k, rate) == SumVat(os, k, rate)
  {
    if os != [] {
      var n := |os| - 1;
      ConsolidateSums(os[..n], k);
      MergeDocument(Consolidate(os[..n]), os[n].products, k);
    }
  }

  /** One more document: its codes join the consolidated ones. */
  lemma ConsolidateStep(os: seq<Outcome>, k: string)
    requires os != [] && Valid(os[|os| - 1].products)
    ensures k in Consolidate(os).vals <==> k in Consolidate(os[..|os| - 1]).vals || k in os[|os| - 1].products.vals
  {
    MergeDocumentNames(Consolidate(os[..|os| - 1]), os[|os| - 1].products, k);
  }

  /** A consolidated code comes from some document. */
  lemma {:induction false} ConsolidateSource(os: seq<Outcome>, k: string) returns (i: nat)
    requires ValidOutcomes(os)
    requires k in Consolidate(os).vals
    ensures i < |os| && k in os[i].products.vals
  {
    var n := |os| - 1;
    ConsolidateStep(os, k);
    if k in os[n].products.vals {
      i := n;
    } else {
      i := ConsolidateSource(os[..n], k);
      assert os[..n][i] == os[i];
    }
  }

  /** Every code of every document is consolidated. */
  lemma {:induction false} ConsolidateHas(os: seq<Outcome>, i: nat, k: string)
    requires ValidOutcomes(os)
    requires i < |os| && k in os[i].products.vals
    ensures k in Consolidate(os).vals
  {
    var n := |os| - 1;
    if i < n {
      assert os[..n][i] == os[i];
      ConsolidateHas(os[..n], i, k);
    }
    ConsolidateStep(os, k);
  }

  /** A code is consolidated exactly when some document has it. */
  lemma ConsolidateMembers(os: seq<Outcome>, k: string)
    requires ValidOutcomes(os)
    ensures k in Consolidate(os).vals <==> exists i :: 0 <= i < |os| && k in os[i].products.vals
  {
    if k in Consolidate(os).vals {
      var i := ConsolidateSource(os, k);
    }
    if exists i :: 0 <= i < |os| && k in os[i].products.vals {
      var i :| 0 <= i < |os| && k in os[i].products.vals;
      ConsolidateHas(os, i, k);
    }
  }

  /** The consolidated name is the one of the first document with the code. */
  lemma {:induction false} ConsolidateName(os: seq<Outcome>, i: nat, k: string)
    requires ValidOutcomes(os)
    requires i < |os| && k in os[i].products.vals
    requires forall j | 0 <= j < i :: k !in os[j].products.vals
    ensures k in Consolidate(os).vals
    ensures Consolidate(os).vals[k].productName == os[i].products.vals[k].name
  {
    var n := |os| - 1;
    MergeDocumentNames(Consolidate(os[..n]), os[n].products, k);
    if i == n {
      ConsolidateMembers(os[..n], k);
    } else {
      ConsolidateName(os[..n], i, k);
    }
  }

  lemma {:induction false} MergeProductsTotals(all: Dict<AggregatedProduct>, es: seq<(string, Partial)>)
    requires ValidConsolidated(all)
    ensures SumSeq(Values(MergeProducts(all, es)), TotalValueOf) == SumSeq(Values(all), TotalValueOf) + SumSeq(es, EntryValue)
    ensures SumSeq(Values(MergeProducts(all, es)), TotalQuantityOf) == SumSeq(Values(all), TotalQuantityOf) + SumSeq(es, EntryQuantity)
  {
    if es != [] {
      var n := |es| - 1;
      var m, e := MergeProducts(all, es[..n]), es[n];
      MergeProductsTotals(all, es[..n]);
      MergeProductsValid(all, es[..n]);
      var base := if e.0 in m.vals then m.vals[e.0] else Fresh(e.0, e.1);
      PutSum(m, e.0, Accumulated(base, e.1), TotalValueOf);
      PutSum(m, e.0, Accumulated(base, e.1), TotalQuantityOf);
    }
  }

  /** The grand totals are the sums of the consolidated products' totals. */
  lemma {:induction false} ConsolidateTotals(os: seq<Outcome>)
    ensures SumSeq(Values(Consolidate(os)), TotalValueOf) == GrandValue(os)
    ensures SumSeq(Values(Consolidate(os)), TotalQuantityOf) == GrandQuantity(os)
  {
    if os != [] {
      var n := |os| - 1;
      ConsolidateTotals(os[..n]);
      ConsolidateValid(os[..n]);
      MergeProductsTotals(Consolidate(os[..n]), Entries(os[n].products));
    }
  }

  /** The product codes of the outcomes, document after document, each
      document's in its own key order. */
  function AllCodes(os: seq<Outcome>): seq<string> {
    if os == [] then [] else AllCodes(os[..|os| - 1]) + os[|os| - 1].products.keys
  }

  lemma {:induction false} MergeProductsKeys(all: Dict<AggregatedProduct>, pre: seq<string>, ks: seq<string>, m: map<string, Partial>)
    requires ValidConsolidated(all) && all.keys == Dedup(pre)
    requires forall i | 0 <= i < |ks| :: ks[i] in m
    ensures MergeProducts(all, EntriesOf(ks, m)).keys == Dedup(pre + ks)
  {
    if ks == [] {
      assert pre + ks == pre;
    } else {
      var n := |ks| - 1;
      var es := EntriesOf(ks[..n], m);
      MergeProductsKeys(all, pre, ks[..n], m);
      MergeProductsSnoc(all, es, (ks[n], m[ks[n]]));
      MergeProductsValid(all, es);
      assert (pre + ks)[..|pre + ks| - 1] == pre + ks[..n];
    }
  }

  /** The consolidated products are in order of first appearance across
      the documents. */
  lemma {:induction false} ConsolidateKeys(os: seq<Outcome>)
    requires ValidOutcomes(os)
    ensures Consolidate(os).keys == Dedup(AllCodes(os))
  {
    if os != [] {
      var n := |os| - 1;
      var ps := os[n].products;
      ConsolidateKeys(os[..n]);
      ConsolidateValid(os[..n]);
      MergeProductsKeys(Consolidate(os[..n]), AllCodes(os[..n]), ps.keys, ps.vals);
    } else {
      assert Dedup([]) == [];
    }
  }
}
