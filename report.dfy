/** What the returned report promises: its totals, the order of its
    products and months, its period, and how files map to it. */
module ReportFacts {
  import opened OrderedDict
  import opened SaftTypes
  import opened Extractor
  import opened Sorting
  import opened Aggregation
  import opened Consolidation
  import MonthLabel

  // ---------------------------------------------------------------------
  // Totals and products

  /** `totalValue` and `totalQuantity` are the sums of the listed products'
      totals. */
  lemma ReportTotals(os: seq<Outcome>)
    ensures ReportOf(os).totalValue == SumSeq(ReportOf(os).products, TotalValueOf)
    ensures ReportOf(os).totalQuantity == SumSeq(ReportOf(os).products, TotalQuantityOf)
  {
    ConsolidateTotals(os);
    SortByValueSum(Values(Consolidate(os)), TotalValueOf);
    SortByValueSum(Values(Consolidate(os)), TotalQuantityOf);
  }

  /** No input, nothing to report. */
  lemma EmptyReport()
    ensures ReportOf([]) == Report("unknown", [], [], 0.0, 0.0, [])
  {
  }

  /** The products are the consolidated entries, by non-increasing total
      value, equal values in first-insertion order. */
  lemma ReportProducts(os: seq<Outcome>)
    ensures NonIncreasing(ReportOf(os).products)
    ensures multiset(ReportOf(os).products) == multiset(Values(Consolidate(os)))
    ensures forall v :: WithValue(ReportOf(os).products, v) == WithValue(Values(Consolidate(os)), v)
  {
    SortByValueSpec(Values(Consolidate(os)));
  }

  // ---------------------------------------------------------------------
  // Months and period

  lemma {:induction false} SeenMonthsSpec(os: seq<Outcome>)
    ensures Distinct(SeenMonths(os))
    ensures forall m :: m in SeenMonths(os) <==> m != "" && exists i :: 0 <= i < |os| && os[i].month == m
  {
    if os != [] {
      var n := |os| - 1;
      SeenMonthsSpec(os[..n]);
      assert forall i | 0 <= i < n :: os[..n][i] == os[i];
    }
  }

  /** The months are every non-empty label of an outcome, each once, in
      ascending order. */
  lemma ReportMonths(os: seq<Outcome>)
    ensures StrictlyAscending(ReportOf(os).months)
    ensures forall m :: m in ReportOf(os).months <==> m != "" && exists i :: 0 <= i < |os| && os[i].month == m
  {
    SeenMonthsSpec(os);
    SortStringsSpec(SeenMonths(os));
    forall m ensures m in ReportOf(os).months <==> m in SeenMonths(os) {
      assert m in ReportOf(os).months <==> m in multiset(ReportOf(os).months);
    }
  }

  /** `split("-")[0]`: a prefix without `-` that is the whole text or is
      followed by `-`. */
  lemma {:induction false} BeforeDashSpec(s: string)
    ensures |BeforeDash(s)| <= |s| && BeforeDash(s) == s[..|BeforeDash(s)|]
    ensures '-' !in BeforeDash(s)
    ensures |BeforeDash(s)| < |s| ==> s[|BeforeDash(s)|] == '-'
  {
    if s != [] && s[0] != '-' {
      BeforeDashSpec(s[1..]);
    }
  }

  /** The period is the part before `-` of the smallest month, `"unknown"`
      when there is none or it is empty. */
  lemma ReportPeriod(os: seq<Outcome>)
    ensures ReportOf(os).months == [] ==> ReportOf(os).period == "unknown"
    ensures ReportOf(os).months != [] ==>
              && (forall m | m in ReportOf(os).months :: m == ReportOf(os).months[0] || StrLess(ReportOf(os).months[0], m))
              && ReportOf(os).period == (if BeforeDash(ReportOf(os).months[0]) == "" then "unknown" else BeforeDash(ReportOf(os).months[0]))
  {
    ReportMonths(os);
  }

  lemma {:induction false} BeforeFirstDash(s: string, n: nat)
    requires n < |s| && s[n] == '-' && forall j | 0 <= j < n :: s[j] != '-'
    ensures BeforeDash(s) == s[..n]
  {
    if n > 0 {
      BeforeFirstDash(s[1..], n - 1);
      assert s[..n] == [s[0]] + s[1..][..n - 1];
    }
  }

  /** A dated label `YYYY-MM` gives the period `YYYY`. */
  lemma LabelYear(name: string, i: nat)
    requires MonthLabel.SixDigitsAt(name, i)
    requires forall j | 0 <= j < i :: !MonthLabel.SixDigitsAt(name, j)
    ensures BeforeDash(MonthLabel.Month(name)) == name[i..i + 4]
  {
    var r := MonthLabel.Month(name);
    assert r == name[i..i + 4] + "-" + name[i + 4..i + 6];
    assert forall j | 0 <= j < 4 :: r[j] == name[i + j] && MonthLabel.IsDigit(name[i + j]);
    BeforeFirstDash(r, 4);
  }

  // ---------------------------------------------------------------------
  // From files to the report

  lemma {:induction false} OutcomesAt(files: seq<SaftFile>, i: nat)
    requires i < |files|
    ensures Outcomes(files)[i] == OutcomeOf(files[i])
  {
    var n := |files| - 1;
    var pre := Outcomes(files[..n]);
    assert Outcomes(files) == pre + [OutcomeOf(files[n])];
    if i < n {
      OutcomesAt(files[..n], i);
      assert files[..n][i] == files[i];
      assert (pre + [OutcomeOf(files[n])])[i] == pre[i];
    }
  }

  lemma OutcomesPrefix(files: seq<SaftFile>, n: nat)
    requires n == |files| - 1
    ensures Outcomes(files)[..n] == Outcomes(files[..n])
  {
  }

  /** The files that could not be read or parsed, in input order. */
  function Failed(files: seq<SaftFile>): seq<SaftFile> {
    if files == [] then []
    else Failed(files[..|files| - 1]) + (if Succeeds(files[|files| - 1]) then [] else [files[|files| - 1]])
  }

  /** The error text of each of `fs`. */
  function ErrorTexts(fs: seq<SaftFile>): seq<string> {
    if fs == [] then []
    else
      var o := OutcomeOf(fs[|fs| - 1]);
      ErrorTexts(fs[..|fs| - 1]) + [if o.error.Some? then o.error.value else ""]
  }

  /** `errors` holds one text per failed file, in input order. */
  lemma {:induction false} FileErrors(files: seq<SaftFile>)
    ensures Errors(Outcomes(files)) == ErrorTexts(Failed(files))
  {
    if files != [] {
      var n := |files| - 1;
      var os, f := Outcomes(files), files[n];
      FileErrors(files[..n]);
      OutcomesPrefix(files, n);
      var o := os[n];
      assert Errors(os) == Errors(os[..n]) + (if o.error.Some? && o.error.value != "" then [o.error.value] else []);
      if Succeeds(f) {
        ParsedOutcome(f);
        assert Failed(files) == Failed(files[..n]);
      } else {
        FailureOutcome(f);
        var fs := Failed(files[..n]) + [f];
        assert Failed(files) == fs;
        assert fs[..|fs| - 1] == Failed(files[..n]);
      }
    }
  }

  /** The file name has no run of six digits. */
  ghost predicate Undated(name: string) {
    forall j :: !MonthLabel.SixDigitsAt(name, j)
  }

  /** A file's month is never empty, and is `"unknown"` exactly when the
      file failed or its name is undated. */
  lemma FileMonth(f: SaftFile)
    ensures OutcomeOf(f).month != ""
    ensures OutcomeOf(f).month == "unknown" <==> !Succeeds(f) || Undated(f.name)
  {
    var i := MonthLabel.FirstRunFrom(f.name, 0);
    if i.Some? {
      assert MonthLabel.Month(f.name)[4] == '-';
    }
  }

  /** The months are the labels of the files, each once, ascending. */
  lemma FileMonths(files: seq<SaftFile>)
    ensures StrictlyAscending(ReportOf(Outcomes(files)).months)
    ensures forall m :: m in ReportOf(Outcomes(files)).months <==> exists i :: 0 <= i < |files| && OutcomeOf(files[i]).month == m
  {
    var os := Outcomes(files);
    ReportMonths(os);
    forall i | 0 <= i < |files| ensures os[i] == OutcomeOf(files[i]) && os[i].month != "" {
      OutcomesAt(files, i);
      FileMonth(files[i]);
    }
  }

  /** `"unknown"` is a month exactly when some file failed or has an
      undated name. */
  lemma UnknownMonth(files: seq<SaftFile>)
    ensures "unknown" in ReportOf(Outcomes(files)).months <==>
            exists i :: 0 <= i < |files| && (!Succeeds(files[i]) || Undated(files[i].name))
  {
    FileMonths(files);
    if "unknown" in ReportOf(Outcomes(files)).months {
      var i :| 0 <= i < |files| && OutcomeOf(files[i]).month == "unknown";
      FileMonth(files[i]);
    }
    if exists i :: 0 <= i < |files| && (!Succeeds(files[i]) || Undated(files[i].name)) {
      var i :| 0 <= i < |files| && (!Succeeds(files[i]) || Undated(files[i].name));
      FileMonth(files[i]);
    }
  }

  /** What one file's lines add up to: nothing when it failed. */
  function FileValue(f: SaftFile): real {
    if Succeeds(f) then ItemsValue(DocumentItems(f.content.document)) else 0.0
  }

  function FileQuantity(f: SaftFile): real {
    if Succeeds(f) then ItemsQuantity(DocumentItems(f.content.document)) else 0.0
  }

  /** Sums over the parsed files of their lines. */
  function ParsedValue(files: seq<SaftFile>): real {
    SumSeq(files, FileValue)
  }

  function ParsedQuantity(files: seq<SaftFile>): real {
    SumSeq(files, FileQuantity)
  }

  lemma {:induction false} EntriesSums(ks: seq<string>, m: map<string, Partial>)
    ensures SumSeq(EntriesOf(ks, m), EntryValue) == SumSeq(ValuesOf(ks, m), PartialValueOf)
    ensures SumSeq(EntriesOf(ks, m), EntryQuantity) == SumSeq(ValuesOf(ks, m), PartialQuantityOf)
  {
    if ks != [] {
      var n := |ks| - 1;
      EntriesSums(ks[..n], m);
      if ks[n] in m {
        SumSeqAppend(EntriesOf(ks[..n], m), (ks[n], m[ks[n]]), EntryValue);
        SumSeqAppend(EntriesOf(ks[..n], m), (ks[n], m[ks[n]]), EntryQuantity);
        SumSeqAppend(ValuesOf(ks[..n], m), m[ks[n]], PartialValueOf);
        SumSeqAppend(ValuesOf(ks[..n], m), m[ks[n]], PartialQuantityOf);
      } else {
        assert EntriesOf(ks[..n], m) + [] == EntriesOf(ks[..n], m);
        assert ValuesOf(ks[..n], m) + [] == ValuesOf(ks[..n], m);
      }
    }
  }

  lemma {:induction false} FileGrandValue(files: seq<SaftFile>)
    ensures GrandValue(Outcomes(files)) == ParsedValue(files)
  {
    if files != [] {
      var n := |files| - 1;
      var f := files[n];
      FileGrandValue(files[..n]);
      OutcomesPrefix(files, n);
      var ps := OutcomeOf(f).products;
      EntriesSums(ps.keys, ps.vals);
      if Succeeds(f) {
        TallyValueTotal(DocumentItems(f.content.document));
      }
    }
  }

  lemma {:induction false} FileGrandQuantity(files: seq<SaftFile>)
    ensures GrandQuantity(Outcomes(files)) == ParsedQuantity(files)
  {
    if files != [] {
      var n := |files| - 1;
      var f := files[n];
      FileGrandQuantity(files[..n]);
      OutcomesPrefix(files, n);
      var ps := OutcomeOf(f).products;
      EntriesSums(ps.keys, ps.vals);
      if Succeeds(f) {
        TallyQuantityTotal(DocumentItems(f.content.document));
      }
    }
  }

  /** The grand totals are the sums over every line of every parsed file. */
  lemma FileTotals(files: seq<SaftFile>)
    ensures ReportOf(Outcomes(files)).totalValue == ParsedValue(files)
    ensures ReportOf(Outcomes(files)).totalQuantity == ParsedQuantity(files)
  {
    FileGrandValue(files);
    FileGrandQuantity(files);
  }

  lemma {:induction false} OutcomesValid(files: seq<SaftFile>)
    ensures ValidOutcomes(Outcomes(files))
  {
    if files != [] {
      var n := |files| - 1;
      OutcomesValid(files[..n]);
      OutcomeValid(files[n]);
      assert Outcomes(files)[..n] == Outcomes(files[..n]);
    }
  }

  /** What one file's lines with code `k` add up to. */
  function FileValueOf(f: SaftFile, k: string): real {
    if Succeeds(f) then ValueOf(DocumentItems(f.content.document), k) else 0.0
  }

  function FileQuantityOf(f: SaftFile, k: string): real {
    if Succeeds(f) then QuantityOf(DocumentItems(f.content.document), k) else 0.0
  }

  function FileTaxOf(f: SaftFile, k: string, rate: string): real {
    if Succeeds(f) then TaxOf(DocumentItems(f.content.document), k, rate) else 0.0
  }

  /** Sums over the parsed files of the lines with code `k`. */
  function ParsedValueOf(files: seq<SaftFile>, k: string): real {
    SumSeq(files, f => FileValueOf(f, k))
  }

  function ParsedQuantityOf(files: seq<SaftFile>, k: string): real {
    SumSeq(files, f => FileQuantityOf(f, k))
  }

  function ParsedTaxOf(files: seq<SaftFile>, k: string, rate: string): real {
    SumSeq(files, f => FileTaxOf(f, k, rate))
  }

  lemma {:induction false} DocumentSums(files: seq<SaftFile>, k: string, rate: string)
    ensures SumValue(Outcomes(files), k) == ParsedValueOf(files, k)
    ensures SumQuantity(Outcomes(files), k) == ParsedQuantityOf(files, k)
    ensures SumVat(Outcomes(files), k, rate) == ParsedTaxOf(files, k, rate)
  {
    if files != [] {
      var n := |files| - 1;
      var f := files[n];
      DocumentSums(files[..n], k, rate);
      OutcomesPrefix(files, n);
      if Succeeds(f) {
        TallySums(DocumentItems(f.content.document), k);
      }
    }
  }

  /** Each reported product's totals and VAT buckets are the sums over the
      lines with its code in all parsed files. */
  lemma FileProductSums(files: seq<SaftFile>, k: string, rate: string)
    ensures TotalValueAt(Consolidate(Outcomes(files)), k) == ParsedValueOf(files, k)
    ensures TotalQuantityAt(Consolidate(Outcomes(files)), k) == ParsedQuantityOf(files, k)
    ensures TotalVatAt(Consolidate(Outcomes(files)), k, rate) == ParsedTaxOf(files, k, rate)
  {
    OutcomesValid(files);
    ConsolidateSums(Outcomes(files), k);
    DocumentSums(files, k, rate);
  }

  /** Some line of the parsed file `f` carries product code `k`. */
  ghost predicate HasCode(f: SaftFile, k: string) {
    Succeeds(f) && exists j :: 0 <= j < |DocumentItems(f.content.document)| && DocumentItems(f.content.document)[j].code == k
  }

  lemma FileHasCode(f: SaftFile, k: string)
    ensures k in OutcomeOf(f).products.vals <==> HasCode(f, k)
  {
    if Succeeds(f) {
      TallyMembers(DocumentItems(f.content.document), k);
    }
  }

  /** A code is reported exactly when a line of some parsed file carries it. */
  lemma FileCodes(files: seq<SaftFile>, k: string)
    ensures k in Consolidate(Outcomes(files)).vals <==> exists i :: 0 <= i < |files| && HasCode(files[i], k)
  {
    var os := Outcomes(files);
    OutcomesValid(files);
    ConsolidateMembers(os, k);
    if k in Consolidate(os).vals {
      var i :| 0 <= i < |os| && k in os[i].products.vals;
      OutcomesAt(files, i);
      FileHasCode(files[i], k);
    }
    if exists i :: 0 <= i < |files| && HasCode(files[i], k) {
      var i :| 0 <= i < |files| && HasCode(files[i], k);
      OutcomesAt(files, i);
      FileHasCode(files[i], k);
      assert k in os[i].products.vals;
    }
  }

  // ---------------------------------------------------------------------
  // The order of the files

  /** Two ascending lists with the same elements are the same list. */
  lemma {:induction false} AscendingUnique(x: seq<string>, y: seq<string>)
    requires StrictlyAscending(x) && StrictlyAscending(y)
    requires forall m :: m in x <==> m in y
    ensures x == y
    decreases |x|
  {
    if x != [] {
      assert x[0] in y;
    }
    if y != [] {
      assert y[0] in x;
    }
    if x != [] && y != [] {
      if x[0] != y[0] {
        assert x[0] in y && y[0] in x;
        assert StrLess(y[0], x[0]) && StrLess(x[0], y[0]);
        StrLessAsymmetric(y[0], x[0]);
      }
      assert x == [x[0]] + x[1..] && y == [y[0]] + y[1..];
      forall m ensures m in x[1..] <==> m in y[1..] {
        if m in x[1..] {
          var i :| 1 <= i < |x| && x[i] == m;
          assert StrLess(x[0], x[i]);
          StrLessIrreflexive(m);
          assert m in y && m != y[0];
        }
        if m in y[1..] {
          var i :| 1 <= i < |y| && y[i] == m;
          assert StrLess(y[0], y[i]);
          StrLessIrreflexive(m);
          assert m in x && m != x[0];
        }
      }
      AscendingUnique(x[1..], y[1..]);
    }
  }

  lemma SameFiles(a: seq<SaftFile>, b: seq<SaftFile>)
    requires multiset(a) == multiset(b)
    ensures forall f :: f in a <==> f in b
  {
    forall f ensures f in a <==> f in b {
      assert f in a <==> f in multiset(a);
      assert f in b <==> f in multiset(b);
    }
  }

  lemma CodesIncluded(a: seq<SaftFile>, b: seq<SaftFile>, k: string)
    requires forall f | f in a :: f in b
    requires k in Consolidate(Outcomes(a)).vals
    ensures k in Consolidate(Outcomes(b)).vals
  {
    FileCodes(a, k);
    FileCodes(b, k);
    var i :| 0 <= i < |a| && HasCode(a[i], k);
    assert a[i] in b;
  }

  /** Reordering the files does not change which codes are reported. */
  lemma ReorderedCodes(a: seq<SaftFile>, b: seq<SaftFile>, k: string)
    requires multiset(a) == multiset(b)
    ensures k in Consolidate(Outcomes(a)).vals <==> k in Consolidate(Outcomes(b)).vals
  {
    SameFiles(a, b);
    if k in Consolidate(Outcomes(a)).vals {
      CodesIncluded(a, b, k);
    }
    if k in Consolidate(Outcomes(b)).vals {
      CodesIncluded(b, a, k);
    }
  }

  /** Reordering the files changes no product's totals or VAT buckets. */
  lemma ReorderedSums(a: seq<SaftFile>, b: seq<SaftFile>, k: string, rate: string)
    requires multiset(a) == multiset(b)
    ensures TotalValueAt(Consolidate(Outcomes(a)), k) == TotalValueAt(Consolidate(Outcomes(b)), k)
    ensures TotalQuantityAt(Consolidate(Outcomes(a)), k) == TotalQuantityAt(Consolidate(Outcomes(b)), k)
    ensures TotalVatAt(Consolidate(Outcomes(a)), k, rate) == TotalVatAt(Consolidate(Outcomes(b)), k, rate)
  {
    FileProductSums(a, k, rate);
    FileProductSums(b, k, rate);
    SumSeqPermutation(a, b, f => FileValueOf(f, k));
    SumSeqPermutation(a, b, f => FileQuantityOf(f, k));
    SumSeqPermutation(a, b, f => FileTaxOf(f, k, rate));
  }

  /** Reordering the files does not change the grand totals. */
  lemma ReorderedTotals(a: seq<SaftFile>, b: seq<SaftFile>)
    requires multiset(a) == multiset(b)
    ensures ReportOf(Outcomes(a)).totalValue == ReportOf(Outcomes(b)).totalValue
    ensures ReportOf(Outcomes(a)).totalQuantity == ReportOf(Outcomes(b)).totalQuantity
  {
    FileTotals(a);
    FileTotals(b);
    SumSeqPermutation(a, b, FileValue);
    SumSeqPermutation(a, b, FileQuantity);
  }

  lemma MonthsIncluded(a: seq<SaftFile>, b: seq<SaftFile>, m: string)
    requires forall f | f in a :: f in b
    requires m in ReportOf(Outcomes(a)).months
    ensures m in ReportOf(Outcomes(b)).months
  {
    FileMonths(a);
    FileMonths(b);
    var i :| 0 <= i < |a| && OutcomeOf(a[i]).month == m;
    assert a[i] in b;
  }

  /** Reordering the files does not change the months or the period. */
  lemma ReorderedMonths(a: seq<SaftFile>, b: seq<SaftFile>)
    requires multiset(a) == multiset(b)
    ensures ReportOf(Outcomes(a)).months == ReportOf(Outcomes(b)).months
    ensures ReportOf(Outcomes(a)).period == ReportOf(Outcomes(b)).period
  {
    SameFiles(a, b);
    var x, y := ReportOf(Outcomes(a)).months, ReportOf(Outcomes(b)).months;
    forall m ensures m in x <==> m in y {
      if m in x {
        MonthsIncluded(a, b, m);
      }
      if m in y {
        MonthsIncluded(b, a, m);
      }
    }
    FileMonths(a);
    FileMonths(b);
    AscendingUnique(x, y);
  }

  /** The same files twice give every product, and the grand totals, twice
      their amounts. */
  lemma DoubledFiles(files: seq<SaftFile>, k: string, rate: string)
    ensures TotalValueAt(Consolidate(Outcomes(files + files)), k) == 2.0 * TotalValueAt(Consolidate(Outcomes(files)), k)
    ensures TotalQuantityAt(Consolidate(Outcomes(files + files)), k) == 2.0 * TotalQuantityAt(Consolidate(Outcomes(files)), k)
    ensures TotalVatAt(Consolidate(Outcomes(files + files)), k, rate) == 2.0 * TotalVatAt(Consolidate(Outcomes(files)), k, rate)
    ensures ReportOf(Outcomes(files + files)).totalValue == 2.0 * ReportOf(Outcomes(files)).totalValue
    ensures ReportOf(Outcomes(files + files)).totalQuantity == 2.0 * ReportOf(Outcomes(files)).totalQuantity
  {
    FileProductSums(files + files, k, rate);
    FileProductSums(files, k, rate);
    SumSeqConcat(files, files, f => FileValueOf(f, k));
    SumSeqConcat(files, files, f => FileQuantityOf(f, k));
    SumSeqConcat(files, files, f => FileTaxOf(f, k, rate));
    FileTotals(files + files);
    FileTotals(files);
    SumSeqConcat(files, files, FileValue);
    SumSeqConcat(files, files, FileQuantity);
  }
}
