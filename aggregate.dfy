/** The aggregation engine: folds the outcomes of all files into one
    report, merging the per-document partials product by product. */
module Aggregation {
  import opened OrderedDict
  import opened SaftTypes
  import opened Extractor
  import opened Sorting
  import MonthLabel

  // ---------------------------------------------------------------------
  // The fold, as a specification

  /** `vatBreakdown` after adding the buckets `es` one after the other. */
  function MergeVat(acc: Dict<real>, es: seq<(string, real)>): Dict<real> {
    if es == [] then acc
    else
      var e := es[|es| - 1];
      AddTo(MergeVat(acc, es[..|es| - 1]), e.0, e.1)
  }

  /** A product's entry after one more partial: the totals and the VAT
      buckets grow by the partial's. */
  function Accumulated(ap: AggregatedProduct, data: Partial): AggregatedProduct {
    ap.(totalQuantity := ap.totalQuantity + data.quantity,
        totalValue := ap.totalValue + data.value,
        vatBreakdown := MergeVat(ap.vatBreakdown, Entries(data.vat)))
  }

  /** The entry a code gets on first sight: the partial's name, zero totals. */
  function Fresh(code: string, data: Partial): AggregatedProduct {
    AggregatedProduct(code, data.name, 0.0, 0.0, Empty())
  }

  /** One `[code, data]` of `Object.entries(result.products)` into `allProducts`. */
  function Merge(all: Dict<AggregatedProduct>, code: string, data: Partial): Dict<AggregatedProduct> {
    var base := if code in all.vals then all.vals[code] else Fresh(code, data);
    Put(all, code, Accumulated(base, data))
  }

  /** `allProducts` after the entries `es` of one document's products. */
  function MergeProducts(all: Dict<AggregatedProduct>, es: seq<(string, Partial)>): Dict<AggregatedProduct> {
    if es == [] then all
    else
      var e := es[|es| - 1];
      Merge(MergeProducts(all, es[..|es| - 1]), e.0, e.1)
  }

  /** `allProducts` after all of `os`. */
  function Consolidate(os: seq<Outcome>): Dict<AggregatedProduct> {
    if os == [] then Empty()
    else MergeProducts(Consolidate(os[..|os| - 1]), Entries(os[|os| - 1].products))
  }

  function EntryValue(e: (string, Partial)): real { e.1.value }
  function EntryQuantity(e: (string, Partial)): real { e.1.quantity }

  /** The grand totals: every partial of every outcome. */
  function GrandValue(os: seq<Outcome>): real {
    if os == [] then 0.0
    else GrandValue(os[..|os| - 1]) + SumSeq(Entries(os[|os| - 1].products), EntryValue)
  }

  function GrandQuantity(os: seq<Outcome>): real {
    if os == [] then 0.0
    else GrandQuantity(os[..|os| - 1]) + SumSeq(Entries(os[|os| - 1].products), EntryQuantity)
  }

  /** `if (result.error) errors.push(result.error)`. */
  function Errors(os: seq<Outcome>): seq<string> {
    if os == [] then []
    else
      var o := os[|os| - 1];
      Errors(os[..|os| - 1]) + (if o.error.Some? && o.error.value != "" then [o.error.value] else [])
  }

  /** `if (result.month) months.add(result.month)`: the set, in insertion order. */
  function SeenMonths(os: seq<Outcome>): seq<string> {
    if os == [] then []
    else
      var m := os[|os| - 1].month;
      var seen := SeenMonths(os[..|os| - 1]);
      if m != "" && m !in seen then seen + [m] else seen
  }

  /** `s.split("-")[0]`: the text before the first `-`. */
  function BeforeDash(s: string): string {
    if s == [] || s[0] == '-' then [] else [s[0]] + BeforeDash(s[1..])
  }

  /** `sortedMonths[0]?.split("-")[0] || "unknown"`. */
  function Period(months: seq<string>): string {
    if months == [] || BeforeDash(months[0]) == "" then "unknown" else BeforeDash(months[0])
  }

  /** The report `aggregateSAFTFiles` returns for the outcomes `os`. */
  function ReportOf(os: seq<Outcome>): Report {
    var months := SortStrings(SeenMonths(os));
    Report(Period(months), months, SortByValue(Values(Consolidate(os))),
           GrandValue(os), GrandQuantity(os), Errors(os))
  }

  /** The outcomes of `files`, one per file, in order (`files.map(parseSingleSAFT)`). */
  function Outcomes(files: seq<SaftFile>): (r: seq<Outcome>)
    ensures |r| == |files|
  {
    if files == [] then [] else Outcomes(files[..|files| - 1]) + [OutcomeOf(files[|files| - 1])]
  }

  /** Every outcome's dictionaries are well formed, stated outcome after
      outcome as the fold meets them. */
  ghost predicate ValidOutcomes(os: seq<Outcome>) {
    os == [] || (ValidOutcomes(os[..|os| - 1]) && ValidProducts(os[|os| - 1].products))
  }

  // ---------------------------------------------------------------------
  // The fold, as the source runs it

  /** `Object.entries(data.vat).forEach(...)`: add each bucket. */
  method MergeVatInto(acc: Dict<real>, vat: Dict<real>) returns (r: Dict<real>)
    ensures r == MergeVat(acc, Entries(vat))
  {
    var es := Entries(vat);
    r := acc;
    var t := 0;
    while t < |es|
      invariant 0 <= t <= |es|
      invariant r == MergeVat(acc, es[..t])
    {
      var (vatRate, amount) := es[t];
      assert es[..t + 1][..t] == es[..t];
      r := Put(r, vatRate, Get0(r, vatRate) + amount);
      t := t + 1;
    }
    assert es[..t] == es;
  }

  /** `Object.entries(result.products).forEach(...)` for one outcome:
      upsert each product and add its partial to the grand totals. */
  method FoldProducts(all: Dict<AggregatedProduct>, totalValue: real, totalQuantity: real, ps: Dict<Partial>)
    returns (all': Dict<AggregatedProduct>, totalValue': real, totalQuantity': real)
    ensures all' == MergeProducts(all, Entries(ps))
    ensures totalValue' == totalValue + SumSeq(Entries(ps), EntryValue)
    ensures totalQuantity' == totalQuantity + SumSeq(Entries(ps), EntryQuantity)
  {
    var es := Entries(ps);
    all', totalValue', totalQuantity' := all, totalValue, totalQuantity;
    var j := 0;
    while j < |es|
      invariant 0 <= j <= |es|
      invariant all' == MergeProducts(all, es[..j])
      invariant totalValue' == totalValue + SumSeq(es[..j], EntryValue)
      invariant totalQuantity' == totalQuantity + SumSeq(es[..j], EntryQuantity)
    {
      var (code, data) := es[j];
      assert es[..j + 1][..j] == es[..j];
      all' := MergeEntry(all', code, data);
      totalValue' := totalValue' + data.value;
      totalQuantity' := totalQuantity' + data.quantity;
      j := j + 1;
    }
    assert es[..j] == es;
  }

  /** The body of the per-product callback, without the grand totals:
      create the entry on first sight, then `+=` the totals and merge the
      VAT buckets. */
  method MergeEntry(all: Dict<AggregatedProduct>, code: string, data: Partial) returns (r: Dict<AggregatedProduct>)
    ensures r == Merge(all, code, data)
  {
    r := all;
    if code !in r.vals {
      FirstMerge(r, code, data);
      r := Put(r, code, Fresh(code, data));
    }
    var ap := r.vals[code];
    var vat := MergeVatInto(ap.vatBreakdown, data.vat);
    r := Put(r, code, ap.(totalQuantity := ap.totalQuantity + data.quantity,
                          totalValue := ap.totalValue + data.value,
                          vatBreakdown := vat));
  }

  lemma FirstMerge(all: Dict<AggregatedProduct>, code: string, data: Partial)
    requires code !in all.vals
    ensures var a1 := Put(all, code, Fresh(code, data));
            Put(a1, code, Accumulated(a1.vals[code], data)) == Merge(all, code, data)
  {
    var a1 := Put(all, code, Fresh(code, data));
    assert Put(a1, code, Accumulated(a1.vals[code], data)).vals == Merge(all, code, data).vals;
  }

  /** What one more outcome adds to each of the fold's accumulators. */
  lemma FoldStep(os: seq<Outcome>, i: nat)
    requires i < |os|
    ensures var o, p := os[i], os[..i];
            && Errors(os[..i + 1]) == Errors(p) + (if o.error.Some? && o.error.value != "" then [o.error.value] else [])
            && SeenMonths(os[..i + 1]) == (if o.month != "" && o.month !in SeenMonths(p) then SeenMonths(p) + [o.month] else SeenMonths(p))
            && Consolidate(os[..i + 1]) == MergeProducts(Consolidate(p), Entries(o.products))
            && GrandValue(os[..i + 1]) == GrandValue(p) + SumSeq(Entries(o.products), EntryValue)
            && GrandQuantity(os[..i + 1]) == GrandQuantity(p) + SumSeq(Entries(o.products), EntryQuantity)
  {
    assert os[..i + 1][..i] == os[..i];
  }

  /** The body of `results.forEach`: what one outcome adds to the
      error list, the month set, the products and the grand totals. */
  method FoldOutcome(errors: seq<string>, months: seq<string>, allProducts: Dict<AggregatedProduct>,
                     totalValue: real, totalQuantity: real, result: Outcome)
    returns (errors': seq<string>, months': seq<string>, allProducts': Dict<AggregatedProduct>,
             totalValue': real, totalQuantity': real)
    ensures errors' == errors + (if result.error.Some? && result.error.value != "" then [result.error.value] else [])
    ensures months' == if result.month != "" && result.month !in months then months + [result.month] else months
    ensures allProducts' == MergeProducts(allProducts, Entries(result.products))
    ensures totalValue' == totalValue + SumSeq(Entries(result.products), EntryValue)
    ensures totalQuantity' == totalQuantity + SumSeq(Entries(result.products), EntryQuantity)
  {
    errors', months' := errors, months;
    if result.error.Some? && result.error.value != "" {
      errors' := errors' + [result.error.value];
    }
    if result.month != "" && result.month !in months' {
      months' := months' + [result.month];
    }
    allProducts', totalValue', totalQuantity' :=
      FoldProducts(allProducts, totalValue, totalQuantity, result.products);
  }

  /** The `results.forEach` loop: the error list, the month set, the
      consolidated dictionary and the grand totals after all of `os`. */
  method FoldOutcomes(os: seq<Outcome>)
    returns (errors: seq<string>, months: seq<string>, allProducts: Dict<AggregatedProduct>,
             totalValue: real, totalQuantity: real)
    ensures errors == Errors(os) && months == SeenMonths(os) && allProducts == Consolidate(os)
    ensures totalValue == GrandValue(os) && totalQuantity == GrandQuantity(os)
  {
    errors, months, allProducts := [], [], Empty();
    totalValue, totalQuantity := 0.0, 0.0;
    var i := 0;
    while i < |os|
      invariant 0 <= i <= |os|
      invariant errors == Errors(os[..i])
      invariant months == SeenMonths(os[..i])
      invariant allProducts == Consolidate(os[..i])
      invariant totalValue == GrandValue(os[..i])
      invariant totalQuantity == GrandQuantity(os[..i])
    {
      FoldStep(os, i);
      errors, months, allProducts, totalValue, totalQuantity :=
        FoldOutcome(errors, months, allProducts, totalValue, totalQuantity, os[i]);
      i := i + 1;
    }
    assert os[..i] == os;
  }

  /** The fold, then the final sorts and the period. */
  method AggregateOutcomes(os: seq<Outcome>) returns (report: Report)
    ensures report == ReportOf(os)
  {
    var errors, months, allProducts, totalValue, totalQuantity := FoldOutcomes(os);
    var sortedProducts := SortByValue(Values(allProducts));
    var sortedMonths := SortStrings(months);
    var period := Period(sortedMonths);
    report := Report(period, sortedMonths, sortedProducts, totalValue, totalQuantity, errors);
  }

  /** `aggregateSAFTFiles`: extract every file, then fold. */
  method AggregateFiles(files: seq<SaftFile>) returns (report: Report)
    ensures report == ReportOf(Outcomes(files))
  {
    var results: seq<Outcome> := [];
    var i := 0;
    while i < |files|
      invariant 0 <= i <= |files|
      invariant results == Outcomes(files[..i])
    {
      var o := ParseSingle(files[i]);
      assert files[..i + 1][..i] == files[..i];
      results := results + [o];
      i := i + 1;
    }
    assert files[..i] == files;
    report := AggregateOutcomes(results);
  }
}
