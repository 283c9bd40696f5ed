/** The per-document extractor: from the parsed tree of one SAF-T file to
    the products it sells, summed per product code, or to an error outcome. */
module Extractor {
  import opened OrderedDict
  import opened SaftTypes
  import MonthLabel

  // ---------------------------------------------------------------------
  // Navigating the tree

  /** `(x || {}).Child` one level down: only a single element has children;
      a missing element reads as `{}` and an array has no such property. */
  function Section<T>(f: Field<T>): Option<T> {
    match f
    case One(v) => Some(v)
    case _ => None
  }

  /** `Array.isArray(x) ? x : x ? [x] : []`. */
  function Coerce<T>(f: Field<T>): (r: seq<T>)
    ensures f.Absent? ==> r == []
    ensures f.One? ==> r == [f.value]
    ensures f.Many? ==> r == f.values
  {
    match f
    case Absent => []
    case One(v) => [v]
    case Many(vs) => vs
  }

  /** `AuditFile > SourceDocuments > SalesInvoices > Invoice`. */
  function Invoices(doc: Document): seq<Invoice> {
    match Section(doc.auditFile)
    case None => []
    case Some(af) =>
      match Section(af.sourceDocuments)
      case None => []
      case Some(sd) =>
        match Section(sd.salesInvoices)
        case None => []
        case Some(si) => Coerce(si.invoice)
  }

  /** Invoices are found only below single `AuditFile`, `SourceDocuments`
      and `SalesInvoices` elements; any other shape gives none. */
  lemma InvoicesPath(doc: Document)
    ensures Invoices(doc) != [] ==>
      && doc.auditFile.One?
      && doc.auditFile.value.sourceDocuments.One?
      && doc.auditFile.value.sourceDocuments.value.salesInvoices.One?
    ensures doc.auditFile.One? && doc.auditFile.value.sourceDocuments.One?
            && doc.auditFile.value.sourceDocuments.value.salesInvoices.One? ==>
      Invoices(doc) == Coerce(doc.auditFile.value.sourceDocuments.value.salesInvoices.value.invoice)
  {
  }

  function LinesOf(inv: Invoice): seq<LineElem> {
    Coerce(inv.line)
  }

  // ---------------------------------------------------------------------
  // One line with its defaults

  /** `s || fallback` for a text field. */
  function TextOr(o: Option<string>, fallback: string): string {
    if o.Some? && o.value != "" then o.value else fallback
  }

  /** `parseFloat(x ?? "0") || 0`. */
  function NumberOr0(o: Option<real>): real {
    if o.Some? then o.value else 0.0
  }

  /** The normalised line item the accumulation loop works with. */
  function LineItem(l: LineElem): Item {
    var quantity := NumberOr0(l.quantity);
    var lineTotal := quantity * NumberOr0(l.unitPrice);
    var rate := if l.taxPercentage.Some? then l.taxPercentage.value.rate else 0.0;
    Item(
      TextOr(l.productCode, "unknown"),
      TextOr(l.productDescription, "Unnamed Product"),
      quantity,
      lineTotal,
      if l.taxPercentage.Some? && rate != 0.0 then l.taxPercentage.value.text + "%" else "unknown",
      lineTotal * rate / 100.0)
  }

  /** The defaults of a line: code `"unknown"`, name `"Unnamed Product"`,
      0 for a missing or unparsable number; the value is quantity times unit
      price; the bucket is `"<pct>%"` for a non-zero percentage and
      `"unknown"` otherwise; the tax is value times percentage over 100, and
      0 without a percentage. */
  lemma LineDefaults(l: LineElem)
    ensures l.productCode.None? || l.productCode == Some("") ==> LineItem(l).code == "unknown"
    ensures l.productCode.Some? && l.productCode.value != "" ==> LineItem(l).code == l.productCode.value
    ensures l.productDescription.None? || l.productDescription == Some("") ==> LineItem(l).name == "Unnamed Product"
    ensures l.productDescription.Some? && l.productDescription.value != "" ==>
              LineItem(l).name == l.productDescription.value
    ensures l.quantity.None? ==> LineItem(l).quantity == 0.0
    ensures l.quantity.Some? ==> LineItem(l).quantity == l.quantity.value
    ensures l.unitPrice.None? ==> LineItem(l).value == 0.0
    ensures l.unitPrice.Some? ==> LineItem(l).value == LineItem(l).quantity * l.unitPrice.value
    ensures LineItem(l).taxKey == (if l.taxPercentage.Some? && l.taxPercentage.value.rate != 0.0
                                   then l.taxPercentage.value.text + "%" else "unknown")
    ensures l.taxPercentage.None? ==> LineItem(l).taxAmount == 0.0
    ensures l.taxPercentage.Some? ==>
              LineItem(l).taxAmount == LineItem(l).value * l.taxPercentage.value.rate / 100.0
  {
  }

  /** The normalised items of an invoice's lines, in order. */
  function ItemsOf(lines: seq<LineElem>): (r: seq<Item>)
    ensures |r| == |lines|
  {
    if lines == [] then [] else ItemsOf(lines[..|lines| - 1]) + [LineItem(lines[|lines| - 1])]
  }

  /** Item `i` is the normalised line `i`. */
  lemma {:induction false} ItemsOfAt(lines: seq<LineElem>, i: nat)
    requires i < |lines|
    ensures ItemsOf(lines)[i] == LineItem(lines[i])
  {
    var n := |lines| - 1;
    if i < n {
      ItemsOfAt(lines[..n], i);
      assert lines[..n][i] == lines[i];
    }
  }

  lemma ItemsOfSnoc(lines: seq<LineElem>, j: nat)
    requires j < |lines|
    ensures ItemsOf(lines[..j + 1]) == ItemsOf(lines[..j]) + [LineItem(lines[j])]
  {
    assert lines[..j + 1][..j] == lines[..j];
  }

  /** The line items of a list of invoices, invoice by invoice. */
  function InvoiceItems(invs: seq<Invoice>): seq<Item> {
    if invs == [] then []
    else InvoiceItems(invs[..|invs| - 1]) + ItemsOf(LinesOf(invs[|invs| - 1]))
  }

  function DocumentItems(doc: Document): seq<Item> {
    InvoiceItems(Invoices(doc))
  }

  // ---------------------------------------------------------------------
  // Accumulation, as a specification

  /** The entry for the line's code after one line: created with the line's
      name on first sight of the code, then quantity, value and the tax
      amount added. */
  function Updated(d: Dict<Partial>, it: Item): Partial {
    var base := if it.code in d.vals then d.vals[it.code] else Partial(it.name, 0.0, 0.0, Empty());
    Added(base, it)
  }

  lemma UpdatedFacts(d: Dict<Partial>, it: Item)
    ensures it.code in d.vals ==> Updated(d, it).name == d.vals[it.code].name
    ensures it.code !in d.vals ==> Updated(d, it).name == it.name
    ensures Updated(d, it).quantity == QuantityAt(d, it.code) + it.quantity
    ensures Updated(d, it).value == ValueAt(d, it.code) + it.value
    ensures forall rate :: Get0(Updated(d, it).vat, rate)
                           == VatAt(d, it.code, rate) + (if rate == it.taxKey then it.taxAmount else 0.0)
    ensures forall rate :: rate in Updated(d, it).vat.vals <==>
                           rate == it.taxKey || (it.code in d.vals && rate in d.vals[it.code].vat.vals)
  {
  }

  /** `+=` of one line into an entry. */
  function Added(p: Partial, it: Item): Partial {
    Partial(p.name, p.quantity + it.quantity, p.value + it.value, AddTo(p.vat, it.taxKey, it.taxAmount))
  }

  /** Adding one line to the products dictionary. */
  function Record(d: Dict<Partial>, it: Item): Dict<Partial> {
    Put(d, it.code, Updated(d, it))
  }

  /** `d` after recording each of `items`, in order. */
  function RecordAll(d: Dict<Partial>, items: seq<Item>): Dict<Partial> {
    if items == [] then d else Record(RecordAll(d, items[..|items| - 1]), items[|items| - 1])
  }

  /** The products dictionary of a document whose lines are `items`. */
  function Tally(items: seq<Item>): Dict<Partial> {
    RecordAll(Empty(), items)
  }

  function Codes(items: seq<Item>): (r: seq<string>)
    ensures |r| == |items|
    ensures forall i | 0 <= i < |items| :: r[i] == items[i].code
  {
    seq(|items|, i requires 0 <= i < |items| => items[i].code)
  }

  /** Sums over the lines carrying product code `k`. */
  function QuantityOf(items: seq<Item>, k: string): real {
    if items == [] then 0.0
    else
      var it := items[|items| - 1];
      QuantityOf(items[..|items| - 1], k) + (if it.code == k then it.quantity else 0.0)
  }

  function ValueOf(items: seq<Item>, k: string): real {
    if items == [] then 0.0
    else
      var it := items[|items| - 1];
      ValueOf(items[..|items| - 1], k) + (if it.code == k then it.value else 0.0)
  }

  function TaxOf(items: seq<Item>, k: string, rate: string): real {
    if items == [] then 0.0
    else
      var it := items[|items| - 1];
      TaxOf(items[..|items| - 1], k, rate) + (if it.code == k && it.taxKey == rate then it.taxAmount else 0.0)
  }

  /** Sums over all lines. */
  function ItemsQuantity(items: seq<Item>): real {
    if items == [] then 0.0 else ItemsQuantity(items[..|items| - 1]) + items[|items| - 1].quantity
  }

  function ItemsValue(items: seq<Item>): real {
    if items == [] then 0.0 else ItemsValue(items[..|items| - 1]) + items[|items| - 1].value
  }

  /** What a products dictionary holds for code `k`, 0 when it has no entry. */
  function QuantityAt(d: Dict<Partial>, k: string): real {
    if k in d.vals then d.vals[k].quantity else 0.0
  }

  function ValueAt(d: Dict<Partial>, k: string): real {
    if k in d.vals then d.vals[k].value else 0.0
  }

  function VatAt(d: Dict<Partial>, k: string, rate: string): real {
    if k in d.vals then Get0(d.vals[k].vat, rate) else 0.0
  }

  lemma RecordAllSnoc(d: Dict<Partial>, xs: seq<Item>, x: Item)
    ensures RecordAll(d, xs + [x]) == Record(RecordAll(d, xs), x)
  {
    assert (xs + [x])[..|xs|] == xs;
  }

  lemma {:induction false} RecordAllAppend(d: Dict<Partial>, xs: seq<Item>, ys: seq<Item>)
    ensures RecordAll(d, xs + ys) == RecordAll(RecordAll(d, xs), ys)
  {
    if ys == [] {
      assert xs + ys == xs;
    } else {
      var n := |ys| - 1;
      assert (xs + ys)[..|xs + ys| - 1] == xs + ys[..n];
      RecordAllAppend(d, xs, ys[..n]);
    }
  }

  // ---------------------------------------------------------------------
  // Codes that every object already has

  /** The properties a plain object `{}` inherits from `Object.prototype`.
      For such a code `products[code]` is already truthy (a function, or the
      prototype itself for `__proto__`), so no entry is created, and
      `products[code].vat` is `undefined`. */
  const Inherited: set<string> := {
    "constructor", "__proto__", "__defineGetter__", "__defineSetter__",
    "__lookupGetter__", "__lookupSetter__", "hasOwnProperty", "isPrototypeOf",
    "propertyIsEnumerable", "toString", "toLocaleString", "valueOf"
  }

  /** The message of the `TypeError` raised by reading a bucket of an
      `undefined` VAT dictionary, in the wording of V8. */
  function UndefinedRead(taxKey: string): string {
    "Cannot read properties of undefined (reading '" + taxKey + "')"
  }

  /** The message of the exception the accumulation loop raises: that of
      the first line whose code is inherited, if there is one. */
  function ThrowOf(items: seq<Item>): Option<string> {
    if items == [] then None
    else if items[0].code in Inherited then Some(UndefinedRead(items[0].taxKey))
    else ThrowOf(items[1..])
  }

  /** The loop runs to the end exactly when no line has an inherited code;
      otherwise it stops at the first that has one. */
  lemma {:induction false} ThrowSpec(items: seq<Item>)
    ensures ThrowOf(items).None? <==> forall i | 0 <= i < |items| :: items[i].code !in Inherited
    ensures ThrowOf(items).Some? ==>
              exists i | 0 <= i < |items| :: items[i].code in Inherited
                && ThrowOf(items) == Some(UndefinedRead(items[i].taxKey))
                && forall j | 0 <= j < i :: items[j].code !in Inherited
  {
    if items != [] && items[0].code !in Inherited {
      ThrowSpec(items[1..]);
      if ThrowOf(items).Some? {
        var i :| 0 <= i < |items[1..]| && items[1..][i].code in Inherited
                 && ThrowOf(items[1..]) == Some(UndefinedRead(items[1..][i].taxKey))
                 && forall j | 0 <= j < i :: items[1..][j].code !in Inherited;
        assert items[i + 1] == items[1..][i];
        forall j | 0 <= j < i + 1 ensures items[j].code !in Inherited {
          if j > 0 {
            assert items[j] == items[1..][j - 1];
          }
        }
      } else {
        forall i | 0 <= i < |items| ensures items[i].code !in Inherited {
          if i > 0 {
            assert items[i] == items[1..][i - 1];
          }
        }
      }
    }
  }

  lemma {:induction false} ThrowAppend(xs: seq<Item>, ys: seq<Item>)
    ensures ThrowOf(xs + ys) == if ThrowOf(xs).Some? then ThrowOf(xs) else ThrowOf(ys)
  {
    if xs == [] {
      assert xs + ys == ys;
    } else {
      assert (xs + ys)[0] == xs[0];
      assert (xs + ys)[1..] == xs[1..] + ys;
      ThrowAppend(xs[1..], ys);
    }
  }

  // ---------------------------------------------------------------------
  // What the accumulation computes

  /** The product codes, in order of their first line. */
  lemma {:induction false} TallyKeys(items: seq<Item>)
    ensures Tally(items).keys == Dedup(Codes(items))
  {
    if items != [] {
      var n := |items| - 1;
      TallyKeys(items[..n]);
      TallyValid(items[..n]);
      assert Codes(items)[..n] == Codes(items[..n]);
    }
  }

  /** A code has an entry exactly when some line carries it. */
  lemma {:induction false} TallyMembers(items: seq<Item>, k: string)
    ensures k in Tally(items).vals <==> exists i :: 0 <= i < |items| && items[i].code == k
  {
    if items != [] {
      var n := |items| - 1;
      TallyMembers(items[..n], k);
      if i :| 0 <= i < |items| && items[i].code == k {
        if i < n {
          assert items[..n][i] == items[i];
        }
      }
      if i :| 0 <= i < n && items[..n][i].code == k {
        assert items[i] == items[..n][i];
      }
    }
  }

  /** Every products dictionary, and every VAT dictionary in it, is a
      well-formed object. */
  ghost predicate ValidProducts(d: Dict<Partial>) {
    Valid(d) && forall k | k in d.vals :: Valid(d.vals[k].vat)
  }

  lemma RecordValid(d: Dict<Partial>, it: Item)
    requires ValidProducts(d)
    ensures ValidProducts(Record(d, it))
  {
    var base := if it.code in d.vals then d.vals[it.code] else Partial(it.name, 0.0, 0.0, Empty());
    PutValid(base.vat, it.taxKey, Get0(base.vat, it.taxKey) + it.taxAmount);
    PutValid(d, it.code, Updated(d, it));
    var r := Record(d, it);
    forall k | k in r.vals
      ensures Valid(r.vals[k].vat)
    {
      if k != it.code {
        assert r.vals[k] == d.vals[k];
      }
    }
  }

  lemma {:induction false} TallyValid(items: seq<Item>)
    ensures ValidProducts(Tally(items))
  {
    if items != [] {
      var n := |items| - 1;
      TallyValid(items[..n]);
      RecordValid(Tally(items[..n]), items[n]);
    }
  }

  /** Per code: stored quantity, value and every VAT bucket are the sums over
      the lines with that code. */
  lemma {:induction false} TallySums(items: seq<Item>, k: string)
    ensures QuantityAt(Tally(items), k) == QuantityOf(items, k)
    ensures ValueAt(Tally(items), k) == ValueOf(items, k)
    ensures forall rate :: VatAt(Tally(items), k, rate) == TaxOf(items, k, rate)
  {
    if items != [] {
      TallySums(items[..|items| - 1], k);
      UpdatedFacts(Tally(items[..|items| - 1]), items[|items| - 1]);
    }
  }

  /** The stored name is that of the first line with the code. */
  lemma {:induction false} TallyName(items: seq<Item>, i: nat)
    requires i < |items|
    requires forall j | 0 <= j < i :: items[j].code != items[i].code
    ensures items[i].code in Tally(items).vals
    ensures Tally(items).vals[items[i].code].name == items[i].name
  {
    var n := |items| - 1;
    var k := items[i].code;
    if i == n {
      TallyMembers(items[..n], k);
    } else {
      TallyName(items[..n], i);
    }
  }

  lemma RecordVatKey(d: Dict<Partial>, it: Item, k: string, rate: string)
    requires k in Record(d, it).vals
    ensures rate in Record(d, it).vals[k].vat.vals <==>
            (k in d.vals && rate in d.vals[k].vat.vals) || (it.code == k && it.taxKey == rate)
  {
    UpdatedFacts(d, it);
  }

  /** A product's VAT buckets are the tax keys of its lines. */
  lemma {:induction false} TallyVatKeys(items: seq<Item>, k: string, rate: string)
    requires k in Tally(items).vals
    ensures rate in Tally(items).vals[k].vat.vals <==>
            exists i :: 0 <= i < |items| && items[i].code == k && items[i].taxKey == rate
  {
    var n := |items| - 1;
    var pre, last := items[..n], items[n];
    RecordVatKey(Tally(pre), last, k, rate);
    if k in Tally(pre).vals {
      TallyVatKeys(pre, k, rate);
    } else {
      TallyMembers(pre, k);
    }
    TaxLineSnoc(items, k, rate);
  }

  lemma TaxLineSnoc(items: seq<Item>, k: string, rate: string)
    requires items != []
    ensures var n := |items| - 1;
            (exists i :: 0 <= i < |items| && items[i].code == k && items[i].taxKey == rate) <==>
            (exists i :: 0 <= i < n && items[..n][i].code == k && items[..n][i].taxKey == rate)
            || (items[n].code == k && items[n].taxKey == rate)
  {
    var n := |items| - 1;
    if i :| 0 <= i < |items| && items[i].code == k && items[i].taxKey == rate {
      if i < n {
        assert items[..n][i] == items[i];
      }
    }
    if i :| 0 <= i < n && items[..n][i].code == k && items[..n][i].taxKey == rate {
      assert items[i] == items[..n][i];
    }
  }

  /** The document's partials add up to its lines. */
  lemma {:induction false} TallyValueTotal(items: seq<Item>)
    ensures SumSeq(Values(Tally(items)), PartialValueOf) == ItemsValue(items)
  {
    if items != [] {
      var n := |items| - 1;
      var d, it := Tally(items[..n]), items[n];
      TallyValueTotal(items[..n]);
      TallyValid(items[..n]);
      UpdatedFacts(d, it);
      assert Tally(items) == Put(d, it.code, Updated(d, it));
      PutSum(d, it.code, Updated(d, it), PartialValueOf);
    }
  }

  lemma {:induction false} TallyQuantityTotal(items: seq<Item>)
    ensures SumSeq(Values(Tally(items)), PartialQuantityOf) == ItemsQuantity(items)
  {
    if items != [] {
      var n := |items| - 1;
      var d, it := Tally(items[..n]), items[n];
      TallyQuantityTotal(items[..n]);
      TallyValid(items[..n]);
      UpdatedFacts(d, it);
      assert Tally(items) == Put(d, it.code, Updated(d, it));
      PutSum(d, it.code, Updated(d, it), PartialQuantityOf);
    }
  }

  /** Creating the entry first and then adding the line is one `Record`
      step. */
  lemma FirstSight(d: Dict<Partial>, it: Item)
    requires it.code !in d.vals
    ensures var d1 := Put(d, it.code, Partial(it.name, 0.0, 0.0, Empty()));
            Put(d1, it.code, Added(d1.vals[it.code], it)) == Record(d, it)
  {
    var d1 := Put(d, it.code, Partial(it.name, 0.0, 0.0, Empty()));
    assert Put(d1, it.code, Added(d1.vals[it.code], it)).vals == Record(d, it).vals;
  }

  // ---------------------------------------------------------------------
  // One file

  /** The outcome the extractor resolves with for `file`. */
  function OutcomeOf(file: SaftFile): Outcome {
    match file.content
    case ReadFailure => Outcome("unknown", Empty(), Some("Failed to read file " + file.name))
    case ParseFailure(msg) => Outcome("unknown", Empty(), Some("Failed to parse " + file.name + ": " + msg))
    case Parsed(doc) =>
      match ThrowOf(DocumentItems(doc))
      case Some(msg) => Outcome("unknown", Empty(), Some("Failed to parse " + file.name + ": " + msg))
      case None => Outcome(MonthLabel.Month(file.name), Tally(DocumentItems(doc)), None)
  }

  /** The file was read, parsed, and its lines were all accumulated. */
  predicate Succeeds(file: SaftFile) {
    file.content.Parsed? && ThrowOf(DocumentItems(file.content.document)).None?
  }

  /** `part` occurs in `whole` starting at position `i`. */
  predicate OccursAt(part: string, whole: string, i: int) {
    0 <= i && i + |part| <= |whole| && whole[i..i + |part|] == part
  }

  /** A failed file contributes no products, month `"unknown"`, and an
      error that names the file. */
  lemma FailureOutcome(file: SaftFile)
    requires !Succeeds(file)
    ensures OutcomeOf(file).products == Empty()
    ensures OutcomeOf(file).month == "unknown"
    ensures OutcomeOf(file).error.Some? && OutcomeOf(file).error.value != ""
    ensures exists i :: OccursAt(file.name, OutcomeOf(file).error.value, i)
  {
    if file.content.ReadFailure? {
      NamedIn("Failed to read file ", file.name, "");
      assert "Failed to read file " + file.name + "" == "Failed to read file " + file.name;
    } else {
      var msg := if file.content.ParseFailure? then file.content.message
                 else ThrowOf(DocumentItems(file.content.document)).value;
      NamedIn("Failed to parse ", file.name, ": " + msg);
      assert "Failed to parse " + file.name + ": " + msg == "Failed to parse " + file.name + (": " + msg);
    }
  }

  lemma NamedIn(prefix: string, name: string, suffix: string)
    requires prefix != []
    ensures prefix + name + suffix != ""
    ensures OccursAt(name, prefix + name + suffix, |prefix|)
  {
    var e := prefix + name + suffix;
    assert e[|prefix|..|prefix| + |name|] == name;
  }

  lemma OutcomeValid(file: SaftFile)
    ensures ValidProducts(OutcomeOf(file).products)
  {
    if Succeeds(file) {
      TallyValid(DocumentItems(file.content.document));
    }
  }

  /** A file that succeeds gives no error, its month label, and its lines. */
  lemma ParsedOutcome(file: SaftFile)
    requires Succeeds(file)
    ensures OutcomeOf(file).error.None?
    ensures OutcomeOf(file).month == MonthLabel.Month(file.name)
    ensures forall k :: ValueAt(OutcomeOf(file).products, k) == ValueOf(DocumentItems(file.content.document), k)
    ensures forall k :: QuantityAt(OutcomeOf(file).products, k) == QuantityOf(DocumentItems(file.content.document), k)
  {
    forall k
      ensures ValueAt(OutcomeOf(file).products, k) == ValueOf(DocumentItems(file.content.document), k)
      ensures QuantityAt(OutcomeOf(file).products, k) == QuantityOf(DocumentItems(file.content.document), k)
    {
      TallySums(DocumentItems(file.content.document), k);
    }
  }

  /** A parsed file with a line whose code is inherited fails like a file
      that could not be parsed: month `"unknown"`, no products, and the
      message of the `TypeError` of its first such line. */
  lemma InheritedCodeOutcome(file: SaftFile, i: nat)
    requires file.content.Parsed?
    requires i < |DocumentItems(file.content.document)|
    requires DocumentItems(file.content.document)[i].code in Inherited
    requires forall j | 0 <= j < i :: DocumentItems(file.content.document)[j].code !in Inherited
    ensures !Succeeds(file)
    ensures OutcomeOf(file) == Outcome("unknown", Empty(), Some("Failed to parse " + file.name + ": "
              + UndefinedRead(DocumentItems(file.content.document)[i].taxKey)))
  {
    ThrowAt(DocumentItems(file.content.document), i);
  }

  lemma {:induction false} ThrowAt(items: seq<Item>, i: nat)
    requires i < |items| && items[i].code in Inherited
    requires forall j | 0 <= j < i :: items[j].code !in Inherited
    ensures ThrowOf(items) == Some(UndefinedRead(items[i].taxKey))
  {
    if i > 0 {
      assert items[1..][i - 1] == items[i];
      assert forall j | 0 <= j < i - 1 :: items[1..][j] == items[j + 1];
      ThrowAt(items[1..], i - 1);
    }
  }

  /** No outcome has an entry under an inherited code. */
  lemma OutcomeCodes(file: SaftFile, k: string)
    requires k in OutcomeOf(file).products.vals
    ensures k !in Inherited
  {
    var items := DocumentItems(file.content.document);
    TallyMembers(items, k);
    ThrowSpec(items);
  }

  /** A monthly export whose one line has the code `constructor` is a
      parse failure, whatever its percentage. */
  lemma ConstructorExample(tp: TaxPercentage)
    ensures var line := LineElem(Some("constructor"), Some("Widget"), Some(1.0), Some(10.0), Some(tp));
            var inv := Invoice(One(line));
            var doc := Document(One(AuditFile(One(SourceDocuments(One(SalesInvoices(One(inv))))))));
            var file := SaftFile("SAFT-202501.xml", Parsed(doc));
            && OutcomeOf(file).month == "unknown"
            && OutcomeOf(file).products == Empty()
            && OutcomeOf(file).error.Some?
  {
    var line := LineElem(Some("constructor"), Some("Widget"), Some(1.0), Some(10.0), Some(tp));
    var inv := Invoice(One(line));
    var doc := Document(One(AuditFile(One(SourceDocuments(One(SalesInvoices(One(inv))))))));
    assert Invoices(doc) == [inv];
    assert InvoiceItems([inv]) == InvoiceItems([]) + ItemsOf(LinesOf(inv));
    assert DocumentItems(doc) == [LineItem(line)];
    assert LineItem(line).code == "constructor";
  }

  /** The `lines.forEach` callback applied to each line of one invoice:
      create the entry on first sight of the code, then `+=` quantity, value
      and the tax bucket. A line whose code is inherited finds
      `products[code]` already set and its `vat` undefined: the loop stops
      with that `TypeError`. */
  method AddLines(products: Dict<Partial>, lines: seq<LineElem>) returns (r: Dict<Partial>, thrown: Option<string>)
    ensures thrown == ThrowOf(ItemsOf(lines))
    ensures thrown.None? ==> r == RecordAll(products, ItemsOf(lines))
  {
    r := products;
    var j := 0;
    while j < |lines|
      invariant 0 <= j <= |lines|
      invariant ThrowOf(ItemsOf(lines[..j])).None?
      invariant r == RecordAll(products, ItemsOf(lines[..j]))
    {
      var it := LineItem(lines[j]);
      LinesStep(products, lines, j);
      if it.code in Inherited {
        thrown := Some(UndefinedRead(it.taxKey));
        return;
      }
      r := AddLine(r, it);
      j := j + 1;
    }
    assert lines[..j] == lines;
    thrown := None;
  }

  /** One line of the loop: a line with an inherited code raises for the
      whole invoice, any other is recorded. */
  lemma LinesStep(products: Dict<Partial>, lines: seq<LineElem>, j: nat)
    requires j < |lines| && ThrowOf(ItemsOf(lines[..j])).None?
    ensures LineItem(lines[j]).code in Inherited ==>
              ThrowOf(ItemsOf(lines)) == Some(UndefinedRead(LineItem(lines[j]).taxKey))
    ensures LineItem(lines[j]).code !in Inherited ==>
              && ThrowOf(ItemsOf(lines[..j + 1])).None?
              && RecordAll(products, ItemsOf(lines[..j + 1]))
                 == Record(RecordAll(products, ItemsOf(lines[..j])), LineItem(lines[j]))
  {
    var it := LineItem(lines[j]);
    ItemsOfSnoc(lines, j);
    ThrowAppend(ItemsOf(lines[..j]), [it]);
    if it.code in Inherited {
      TakeDrop(lines, j + 1);
      ItemsOfAppend(lines[..j + 1], lines[j + 1..]);
      ThrowAppend(ItemsOf(lines[..j + 1]), ItemsOf(lines[j + 1..]));
    } else {
      RecordAllSnoc(products, ItemsOf(lines[..j]), it);
    }
  }

  /** The callback's body for a line whose code is an own key or new:
      create the entry on first sight, then add the line to it. */
  method AddLine(d: Dict<Partial>, it: Item) returns (r: Dict<Partial>)
    ensures r == Record(d, it)
  {
    r := d;
    if it.code !in r.vals {
      FirstSight(r, it);
      r := Put(r, it.code, Partial(it.name, 0.0, 0.0, Empty()));
    }
    var p := r.vals[it.code];
    r := Put(r, it.code, Added(p, it));
  }

  lemma {:induction false} ItemsOfAppend(xs: seq<LineElem>, ys: seq<LineElem>)
    ensures ItemsOf(xs + ys) == ItemsOf(xs) + ItemsOf(ys)
  {
    if ys == [] {
      assert xs + ys == xs;
    } else {
      var n := |ys| - 1;
      ConcatLast(xs, ys);
      ItemsOfAppend(xs, ys[..n]);
    }
  }

  function InvoiceLineItems(inv: Invoice): seq<Item> {
    ItemsOf(LinesOf(inv))
  }

  lemma {:induction false} InvoiceItemsFlat(invs: seq<Invoice>)
    ensures InvoiceItems(invs) == FlatMap(invs, InvoiceLineItems)
  {
    if invs != [] {
      InvoiceItemsFlat(invs[..|invs| - 1]);
    }
  }

  lemma InvoiceItemsSnoc(invs: seq<Invoice>, i: nat)
    requires i < |invs|
    ensures InvoiceItems(invs[..i + 1]) == InvoiceItems(invs[..i]) + ItemsOf(LinesOf(invs[i]))
  {
    assert invs[..i + 1][..i] == invs[..i];
  }

  lemma InvoiceItemsAppend(xs: seq<Invoice>, ys: seq<Invoice>)
    ensures InvoiceItems(xs + ys) == InvoiceItems(xs) + InvoiceItems(ys)
  {
    InvoiceItemsFlat(xs);
    InvoiceItemsFlat(ys);
    InvoiceItemsFlat(xs + ys);
    FlatMapAppend(xs, ys, InvoiceLineItems);
  }

  /** The `invoices.forEach` loop of one parsed document. */
  method AddInvoices(invoices: seq<Invoice>) returns (products: Dict<Partial>, thrown: Option<string>)
    ensures thrown == ThrowOf(InvoiceItems(invoices))
    ensures thrown.None? ==> products == Tally(InvoiceItems(invoices))
  {
    products := Empty();
    var i := 0;
    while i < |invoices|
      invariant 0 <= i <= |invoices|
      invariant ThrowOf(InvoiceItems(invoices[..i])).None?
      invariant products == Tally(InvoiceItems(invoices[..i]))
    {
      InvoicesStep(invoices, i);
      products, thrown := AddLines(products, LinesOf(invoices[i]));
      if thrown.Some? {
        return;
      }
      i := i + 1;
    }
    assert invoices[..i] == invoices;
    thrown := None;
  }

  /** One invoice of the loop: its lines continue the tally of the invoices
      before it, and an exception they raise is the whole document's. */
  lemma InvoicesStep(invoices: seq<Invoice>, i: nat)
    requires i < |invoices| && ThrowOf(InvoiceItems(invoices[..i])).None?
    ensures ThrowOf(InvoiceItems(invoices[..i + 1])) == ThrowOf(ItemsOf(LinesOf(invoices[i])))
    ensures Tally(InvoiceItems(invoices[..i + 1]))
            == RecordAll(Tally(InvoiceItems(invoices[..i])), ItemsOf(LinesOf(invoices[i])))
    ensures ThrowOf(InvoiceItems(invoices[..i + 1])).Some? ==>
              ThrowOf(InvoiceItems(invoices)) == ThrowOf(InvoiceItems(invoices[..i + 1]))
  {
    var lineItems := ItemsOf(LinesOf(invoices[i]));
    InvoiceItemsSnoc(invoices, i);
    RecordAllAppend(Empty(), InvoiceItems(invoices[..i]), lineItems);
    ThrowAppend(InvoiceItems(invoices[..i]), lineItems);
    if ThrowOf(InvoiceItems(invoices[..i + 1])).Some? {
      ThrowRest(invoices, i);
    }
  }

  /** Once the invoices up to `i` raise, so does the whole document. */
  lemma ThrowRest(invoices: seq<Invoice>, i: nat)
    requires i < |invoices| && ThrowOf(InvoiceItems(invoices[..i + 1])).Some?
    ensures ThrowOf(InvoiceItems(invoices)) == ThrowOf(InvoiceItems(invoices[..i + 1]))
  {
    TakeDrop(invoices, i + 1);
    ThrowPrefix(invoices[..i + 1], invoices[i + 1..]);
  }

  lemma ThrowPrefix(xs: seq<Invoice>, ys: seq<Invoice>)
    requires ThrowOf(InvoiceItems(xs)).Some?
    ensures ThrowOf(InvoiceItems(xs + ys)) == ThrowOf(InvoiceItems(xs))
  {
    InvoiceItemsAppend(xs, ys);
    ThrowAppend(InvoiceItems(xs), InvoiceItems(ys));
  }

  /** The `reader.onload` / `reader.onerror` body: walk the invoices and
      their lines, filling the products dictionary line by line; an
      exception raised on the way becomes the parse-failure outcome. */
  method ParseSingle(file: SaftFile) returns (o: Outcome)
    ensures o == OutcomeOf(file)
  {
    match file.content
    case ReadFailure =>
      o := Outcome("unknown", Empty(), Some("Failed to read file " + file.name));
    case ParseFailure(msg) =>
      o := Outcome("unknown", Empty(), Some("Failed to parse " + file.name + ": " + msg));
    case Parsed(doc) =>
      var month := MonthLabel.Month(file.name);
      var products, thrown := AddInvoices(Invoices(doc));
      if thrown.Some? {
        o := Outcome("unknown", Empty(), Some("Failed to parse " + file.name + ": " + thrown.value));
      } else {
        o := Outcome(month, products, None);
      }
  }
}
