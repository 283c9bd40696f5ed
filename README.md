# SAF-T sales aggregation, modelled in Dafny

This project models the core of `src/lib/saftParser.ts`. That file reads a batch of Portuguese SAF-T
(Standard Audit File for Tax) XML exports and folds them into one sales report.

- **Extractor (`parseSingleSAFT`).** It labels each file with a reporting month taken from its name. It walks
  `AuditFile > SourceDocuments > SalesInvoices > Invoice > Line`. It normalises every line with its defaults,
  and sums quantity, value and VAT per product code into a per-document dictionary. A file that cannot be
  read or parsed becomes an error outcome. So does a file with a line whose product code names a property
  that every object inherits, such as `constructor`: `products[code]` is then already truthy, no entry is
  created, and reading `products[code].vat[...]` raises a `TypeError` that the `catch` turns into the
  parse-failure outcome.
- **Aggregation (`aggregateSAFTFiles`).** It walks the outcomes in input order. It collects the errors and
  the set of month labels. It upserts every per-document partial into one consolidated dictionary, merges
  the VAT buckets by key, and accumulates the grand totals. At the end it stable-sorts the products by
  descending total value, sorts the months, and derives the period.

The modules follow that structure:

- `OrderedDict` (`dict.dfy`): JavaScript objects as an insertion-ordered key list plus a map.
  - `Put` is `obj[k] = v`.
  - `Get0` is `obj[k] || 0`.
  - `Entries` and `Values` are `Object.entries` and `Object.values`.
- `SaftTypes` (`types.dfy`): the parsed tree and the records. A child element is `Absent`, `One` or
  `Many`, as the XML parser delivers it.
- `MonthLabel` (`month.dfy`): the regular expression `(\d{4})(\d{2})`.
- `Extractor` (`extract.dfy`): each file's outcome is specified as a function (`OutcomeOf`, built on the
  fold `Tally`, and on `ThrowOf`, the exception the loop raises). The nested `forEach` loops are the methods
  `ParseSingle`, `AddInvoices` and `AddLines`, which are proved equal to those functions.
- `Sorting` (`sorting.dfy`): the default string order of `sort()`, and the stable sort by descending
  `totalValue`.
- `Aggregation` (`aggregate.dfy`):
  - the fold as specification functions (`Consolidate`, `GrandValue`, `Errors`, `SeenMonths`, `Period`,
    `ReportOf`);
  - the same fold as methods (`AggregateFiles`, `AggregateOutcomes`, `FoldProducts`, `MergeEntry`,
    `MergeVatInto`), each proved equal to its function.
- `Consolidation` (`consolidate.dfy`) and `ReportFacts` (`report.dfy`): what the fold computes, from one
  upsert up to whole batches of files.

Numbers are `real`, so every sum is exact. A number field that is missing or does not parse is `None` and
reads as 0.

## Model

| member | source | states |
|---|---|---|
| MonthLabel.FirstRunFrom | src/lib/saftParser.ts:55 | the position found is the leftmost at or after the start where six digits begin; with none found, no position has six digits |
| MonthLabel.Month | src/lib/saftParser.ts:54-58 | the label is `"unknown"` exactly when the name has no run of six digits; otherwise it is the first four digits of the leftmost run, `-`, then the next two |
| MonthLabel.MonthExample | src/lib/saftParser.ts:54 | `SAFT-202501.xml` gives `2025-01` |
| Extractor.Invoices | src/lib/saftParser.ts:72-79 | the invoices of a document: the coerced `Invoice` field below single `AuditFile`, `SourceDocuments` and `SalesInvoices` elements, and none otherwise |
| Extractor.Coerce | src/lib/saftParser.ts:75-86 | an array stays as it is, a single element becomes a one-element sequence, and a missing one becomes the empty sequence |
| Extractor.InvoicesPath | src/lib/saftParser.ts:72-79 | invoices are found only below single `AuditFile`, `SourceDocuments` and `SalesInvoices` elements, and there they are the coerced `Invoice` field |
| Extractor.LineItem | src/lib/saftParser.ts:89-102 | the normalised line: code, name, quantity, value, bucket key and tax amount with their defaults |
| Extractor.LineDefaults | src/lib/saftParser.ts:89-102 | a missing or empty code gives `"unknown"` and a missing or empty description gives `"Unnamed Product"`; a missing or unparsable quantity or price gives 0; value = quantity × price; the bucket is `"<pct>%"` for a non-zero percentage and `"unknown"` otherwise; tax = value × pct / 100, and 0 without a percentage |
| Extractor.Updated | src/lib/saftParser.ts:104-116 | the entry for a line's code after that line: a fresh entry with the line's name on first sight, then quantity, value and the tax bucket added |
| Extractor.RecordAll | src/lib/saftParser.ts:88-117 | the products dictionary after recording the lines one after the other |
| Extractor.Tally | src/lib/saftParser.ts:81-118 | the products dictionary of a document, from `{}` |
| Extractor.UpdatedFacts | src/lib/saftParser.ts:104-116 | one line creates the entry with its own name only when the code is new; it adds its quantity, its value and its tax to its own bucket, and creates exactly that bucket |
| Extractor.TallyKeys | src/lib/saftParser.ts:104-111 | the document's product codes are those of its lines, in order of first appearance, each once |
| Extractor.TallyMembers | src/lib/saftParser.ts:104-111 | a code has an entry exactly when some line carries it |
| Extractor.TallyValid | src/lib/saftParser.ts:104-116 | the products dictionary and each of its VAT dictionaries have each key once, in the key list and in the map alike |
| Extractor.TallySums | src/lib/saftParser.ts:113-116 | per code, the stored quantity, the value and every VAT bucket are the sums over the lines with that code |
| Extractor.TallyName | src/lib/saftParser.ts:104-111 | the stored name is that of the first line with the code; later lines never overwrite it |
| Extractor.TallyVatKeys | src/lib/saftParser.ts:115-116 | a product has a VAT bucket exactly for the tax keys of its lines |
| Extractor.TallyValueTotal | src/lib/saftParser.ts:113-114 | the values of a document's partials add up to the sum of its lines' values |
| Extractor.TallyQuantityTotal | src/lib/saftParser.ts:113-114 | the quantities of a document's partials add up to the sum of its lines' quantities |
| Extractor.ThrowOf | src/lib/saftParser.ts:104-116 | the exception of the accumulation loop: the `TypeError` of the first line whose code is inherited, or none |
| Extractor.ThrowSpec | src/lib/saftParser.ts:104-116 | the loop raises nothing exactly when no line has an inherited code; otherwise it raises for the first line that has one |
| Extractor.ThrowAt | src/lib/saftParser.ts:104-116 | the first line with an inherited code decides the message |
| Extractor.ThrowAppend | src/lib/saftParser.ts:81-118 | over two runs of lines, the first exception wins |
| Extractor.OutcomeOf | src/lib/saftParser.ts:45-136 | the outcome of a file: the read failure, the parse failure (the parser's message or the loop's `TypeError`), or the month label with the products dictionary |
| Extractor.FailureOutcome | src/lib/saftParser.ts:121-136 | a file that fails to read, to parse, or in its loop gives no products, the month `"unknown"`, and a non-empty error that contains the file name |
| Extractor.ParsedOutcome | src/lib/saftParser.ts:120 | a file that succeeds gives no error, the month label of its name, and per code the sums of its lines |
| Extractor.InheritedCodeOutcome | src/lib/saftParser.ts:104-126 | a parsed file with a line whose code is inherited resolves with month `"unknown"`, no products, and `Failed to parse <name>: ` followed by the `TypeError` of its first such line |
| Extractor.OutcomeCodes | src/lib/saftParser.ts:104-126 | no outcome has an entry under an inherited code |
| Extractor.ConstructorExample | src/lib/saftParser.ts:104-126 | a monthly export whose only line has code `constructor` gives month `"unknown"`, no products and an error |
| Extractor.AddLine | src/lib/saftParser.ts:104-116 | creating the entry on first sight of a code and then adding quantity, value and tax to it is exactly one `Record` step |
| Extractor.LinesStep | src/lib/saftParser.ts:88-117 | after a run of lines that raised nothing, a line with an inherited code makes the whole invoice raise with that line's message, and any other line extends the fold by one `Record` step |
| Extractor.InvoicesStep | src/lib/saftParser.ts:81-118 | after invoices that raised nothing, the next invoice's lines continue the fold, and an exception they raise is the whole document's |
| Extractor.AddLines | src/lib/saftParser.ts:88-117 | the `lines.forEach` loop raises exactly `ThrowOf` of its lines, and when it raises nothing it leaves the dictionary that the specification fold gives |
| Extractor.AddInvoices | src/lib/saftParser.ts:81-118 | the `invoices.forEach` loop raises exactly `ThrowOf` of the document's lines, and otherwise leaves `Tally` of them |
| Extractor.ParseSingle | src/lib/saftParser.ts:45-136 | the `onload`/`onerror` logic resolves with exactly `OutcomeOf(file)` |
| Sorting.StrLess | src/lib/saftParser.ts:194 | the default order of `sort()`: the first differing character decides, and a proper prefix comes first |
| Sorting.SortStrings | src/lib/saftParser.ts:194 | `Array.from(months).sort()`, as insertion of each label after every label that sorts before it |
| Sorting.StrLessIrreflexive | src/lib/saftParser.ts:194 | no label sorts before itself |
| Sorting.StrLessTotal | src/lib/saftParser.ts:194 | of two different labels, one sorts before the other |
| Sorting.StrLessTransitive | src/lib/saftParser.ts:194 | sorting before is transitive |
| Sorting.SortStringsSpec | src/lib/saftParser.ts:194 | sorting distinct labels gives a strictly ascending list with the same labels |
| Sorting.SortByValue | src/lib/saftParser.ts:191-193 | the products sorted by `b.totalValue - a.totalValue`, each inserted after every product whose value is at least its own |
| Sorting.SortByValueSpec | src/lib/saftParser.ts:191-193 | the sorted products are non-increasing in total value and a permutation of the input; for every value, its products keep their input order (stability) |
| Sorting.SortByValueSum | src/lib/saftParser.ts:191-193 | sorting keeps every sum over the products |
| Aggregation.MergeVat | src/lib/saftParser.ts:181-184 | a VAT breakdown after adding the buckets one after the other, `|| 0` for a new rate |
| Aggregation.Merge | src/lib/saftParser.ts:166-184 | `allProducts` after one `[code, data]`: a fresh entry with the partial's name on first sight, then the totals and the VAT buckets added |
| Aggregation.MergeProducts | src/lib/saftParser.ts:166-188 | `allProducts` after one document's entries, in order |
| Aggregation.Consolidate | src/lib/saftParser.ts:157-189 | `allProducts` after all the outcomes, in order |
| Aggregation.GrandValue | src/lib/saftParser.ts:186 | `totalValue`: every partial's value of every outcome, added up |
| Aggregation.GrandQuantity | src/lib/saftParser.ts:187 | `totalQuantity`: every partial's quantity of every outcome, added up |
| Aggregation.Errors | src/lib/saftParser.ts:158-160 | the errors pushed: each truthy error text, in outcome order |
| Aggregation.SeenMonths | src/lib/saftParser.ts:162-164 | the month set in insertion order: each truthy month, when not yet present |
| Aggregation.BeforeDash | src/lib/saftParser.ts:195 | `split("-")[0]`: the text before the first `-` |
| Aggregation.Period | src/lib/saftParser.ts:195 | the part before `-` of the first sorted month, `"unknown"` without months or when that part is empty |
| Aggregation.ReportOf | src/lib/saftParser.ts:191-204 | the returned record: period, sorted months, sorted products, the two grand totals and the errors |
| Aggregation.Outcomes | src/lib/saftParser.ts:155 | one outcome per file |
| Aggregation.MergeVatInto | src/lib/saftParser.ts:181-184 | the VAT loop leaves the breakdown that the specification `MergeVat` gives |
| Aggregation.MergeEntry | src/lib/saftParser.ts:167-184 | the upsert of one `[code, data]` leaves the dictionary that `Merge` gives |
| Aggregation.FoldProducts | src/lib/saftParser.ts:166-188 | the per-document loop leaves the dictionary given by `MergeProducts`, and grand totals grown by the sums of the partials |
| Aggregation.FoldStep | src/lib/saftParser.ts:157-189 | what one more outcome adds to the error list, the month set, the dictionary and the grand totals |
| Aggregation.FoldOutcome | src/lib/saftParser.ts:157-189 | one outcome pushes its non-empty error, adds its month when new, and folds its products into the dictionary and the totals |
| Aggregation.FoldOutcomes | src/lib/saftParser.ts:148-189 | the `forEach` over the outcomes leaves exactly `Errors`, `SeenMonths`, `Consolidate`, `GrandValue` and `GrandQuantity` of all of them |
| Aggregation.AggregateOutcomes | src/lib/saftParser.ts:148-204 | the fold and the final sorts return exactly `ReportOf(os)` |
| Aggregation.AggregateFiles | src/lib/saftParser.ts:145-205 | `aggregateSAFTFiles` returns exactly `ReportOf(Outcomes(files))` |
| Consolidation.MergeVatSum | src/lib/saftParser.ts:181-184 | merging a breakdown adds every bucket under its own rate, and the rates afterwards are those of either side |
| Consolidation.MergeAt | src/lib/saftParser.ts:166-184 | one upsert adds the partial's totals and buckets to its own code only |
| Consolidation.MergeDocument | src/lib/saftParser.ts:166-188 | folding in one document adds, for every code, that document's quantity, value and buckets |
| Consolidation.MergeDocumentNames | src/lib/saftParser.ts:166-176 | folding in one document adds exactly its codes; a new code takes the document's name and an existing one keeps its own |
| Consolidation.ConsolidateValid | src/lib/saftParser.ts:167-175 | the consolidated dictionary has each key once, and every entry's `productCode` is its key |
| Consolidation.ConsolidateSums | src/lib/saftParser.ts:157-188 | each consolidated `totalQuantity`, `totalValue` and `vatBreakdown[rate]` is the sum over the documents of that code's partials |
| Consolidation.ConsolidateSource | src/lib/saftParser.ts:166-175 | every consolidated code names a document that has it |
| Consolidation.ConsolidateHas | src/lib/saftParser.ts:166-175 | every code of every document is consolidated |
| Consolidation.ConsolidateMembers | src/lib/saftParser.ts:166-175 | a code is consolidated exactly when some document has it |
| Consolidation.ConsolidateName | src/lib/saftParser.ts:167-175 | the consolidated `productName` is that of the first document with the code |
| Consolidation.ConsolidateTotals | src/lib/saftParser.ts:177-187 | the grand totals are the sums of the consolidated products' totals |
| Consolidation.ConsolidateKeys | src/lib/saftParser.ts:166-175 | the consolidated products are in order of first appearance across the documents |
| ReportFacts.ReportTotals | src/lib/saftParser.ts:186-193 | the report's `totalValue` and `totalQuantity` are the sums over its product list |
| ReportFacts.EmptyReport | src/lib/saftParser.ts:148-152 | no outcomes give period `"unknown"`, no months, no products, totals 0 and no errors |
| ReportFacts.ReportProducts | src/lib/saftParser.ts:191-193 | the products are the consolidated entries, non-increasing in total value; equal values keep first-insertion order |
| ReportFacts.SeenMonthsSpec | src/lib/saftParser.ts:162-164 | the month set has each label once, and holds exactly the non-empty months of the outcomes |
| ReportFacts.ReportMonths | src/lib/saftParser.ts:162-194 | the months are strictly ascending and are exactly the non-empty month labels of the outcomes |
| ReportFacts.BeforeDashSpec | src/lib/saftParser.ts:195 | `split("-")[0]` is a prefix without `-`; it is the whole text or is followed by `-` |
| ReportFacts.ReportPeriod | src/lib/saftParser.ts:194-195 | without months the period is `"unknown"`; otherwise `months[0]` is the smallest label, and the period is its part before `-`, or `"unknown"` when that part is empty |
| ReportFacts.LabelYear | src/lib/saftParser.ts:195 | a dated label's period is the four year digits of the file name |
| ReportFacts.FileErrors | src/lib/saftParser.ts:158-160 | `errors` holds the error text of each failed file, one per failed file, in input order |
| ReportFacts.FileMonth | src/lib/saftParser.ts:120-135 | a file's month is never empty; it is `"unknown"` exactly when the file failed or its name is undated |
| ReportFacts.FileMonths | src/lib/saftParser.ts:162-164 | the report's months are strictly ascending and are exactly the files' month labels |
| ReportFacts.UnknownMonth | src/lib/saftParser.ts:162-164 | `"unknown"` is among the months exactly when some file failed or has an undated name |
| ReportFacts.FileGrandValue | src/lib/saftParser.ts:186-187 | `totalValue` is the sum of the values of every line of every file that succeeds; failed files add nothing |
| ReportFacts.FileGrandQuantity | src/lib/saftParser.ts:186-187 | `totalQuantity` is the sum of the quantities of every line of every file that succeeds; failed files add nothing |
| ReportFacts.FileTotals | src/lib/saftParser.ts:186-187 | the report's grand totals are those two sums |
| ReportFacts.FileProductSums | src/lib/saftParser.ts:177-184 | each product's totals and VAT buckets are the sums over its lines in all files that succeed |
| ReportFacts.FileCodes | src/lib/saftParser.ts:166-175 | a code is reported exactly when a line of some file that succeeds carries it |
| ReportFacts.ReorderedCodes | src/lib/saftParser.ts:166-175 | reordering the files does not change which codes are reported |
| ReportFacts.ReorderedSums | src/lib/saftParser.ts:177-184 | reordering the files changes no product's totals or VAT buckets |
| ReportFacts.ReorderedTotals | src/lib/saftParser.ts:186-187 | reordering the files does not change the grand totals |
| ReportFacts.ReorderedMonths | src/lib/saftParser.ts:162-195 | reordering the files does not change the months or the period |
| ReportFacts.DoubledFiles | src/lib/saftParser.ts:177-187 | the same files twice give every product total, every bucket and both grand totals twice over |

## Left out

- Reading files is not modelled: `FileReader`, `readAsText`, `Promise`, `Promise.all` and `async` (lines 42-45, 130-139, 155). A file arrives already read. Its `content` records a read failure, a parse failure with its message, or the parsed tree. `Promise.all` over `files.map` is the sequence `Outcomes(files)`.
- The XML parser (`fast-xml-parser`, lines 1 and 48-52) is not modelled: its output is the input datatype `Document`. A thrown exception is `ParseFailure(message)`.
- A child element that the parser delivers as a bare scalar (for example `<Line>5</Line>`) is not modelled; children are records or lists of records.
- IEEE-754 arithmetic is not modelled: rounding, and the `NaN` that a non-numeric `TaxPercentage` produces at line 102. `parseFloat` is not modelled beyond "number or none".
- The bucket key is the percentage's text followed by `%`. How JavaScript prints the number is not modelled.
- JavaScript object key order is not modelled. JavaScript lists integer-like keys first, in numeric order. The model keeps every key in insertion order.
- The truthiness of a numeric product code `0` is not modelled (JavaScript would read it as `"unknown"`).
- `taxCode` (line 96) is not modelled: it is computed but never used. The `TaxPointDate` placeholder at line 101 always yields 0, so the tax amount is the percentage formula.
- The default `sort()` compares UTF-16 code units; `Sorting.StrLess` compares characters, which is the same order for the labels that occur.
- The comparator `b.totalValue - a.totalValue` is modelled as a stable insertion of each product after every product whose value is at least its own. Comparators over `NaN` are not modelled.
- Consolidation.ConsolidateSums: requires `ValidOutcomes`, meaning every outcome's dictionaries have each key once. Every outcome the extractor produces meets this (`ReportFacts.OutcomesValid`). The file-level lemmas carry no such precondition.
- Consolidation.ConsolidateMembers: requires `ValidOutcomes`, for the same reason.
- Consolidation.ConsolidateName: requires `ValidOutcomes`, for the same reason.
- Consolidation.ConsolidateKeys: requires `ValidOutcomes`, for the same reason.
- Sorting.SortStringsSpec: requires distinct labels. The labels come from a `Set`, which `ReportFacts.SeenMonthsSpec` shows to be duplicate-free.
- ReportFacts.ReorderedSums: covers codes, totals and VAT buckets; it does not say that a product's name is independent of file order. The name is taken from the first document with the code, so it then depends on the order (see below).
- Extractor.UndefinedRead: the text of the `TypeError` for a line with an inherited code follows V8's wording; other engines word it differently, and the text is platform behaviour rather than part of the source.
- Extractor.ParseSingle: the `NaN` that lines 113-114 write onto the inherited object before the exception (onto `Object.prototype` itself for `__proto__`) is not modelled; nothing in the report reads it.
- Aggregation.Consolidate: over arbitrary outcomes every code is treated as an own key. The outcomes the extractor produces never carry an inherited code (`Extractor.OutcomeCodes`), so the report of a batch of files is not affected.
- `src-tauri/src/lib.rs` is not part of this model: it is application start-up with no part in the computation.

### Behaviour worth noting

- A failed file also adds the month `"unknown"`: lines 122-123 and 131-132 set it, and lines 162-164 add every truthy month (`ReportFacts.UnknownMonth`).
- Only `Invoice` and `Line` are coerced to lists (lines 75-79, 82-86). An array at `AuditFile`, `SourceDocuments` or `SalesInvoices` has no child property, so it yields no invoices (`Extractor.InvoicesPath`).
- The tax bucket tests the percentage for truthiness (lines 97-99), so a percentage of 0 goes to `"unknown"`, with amount 0 (`Extractor.LineDefaults`).
- Reordering the files keeps every product's code, totals and buckets (`ReportFacts.ReorderedSums`). The name comes from the first document with the code (lines 167-170), so it can change when files that give the code different product names are reordered.
- A product code that names an inherited property of `Object.prototype` (`constructor`, `toString`, `__proto__` and the rest of `Extractor.Inherited`) makes the whole file a parse failure (lines 104-116, 121-126; `Extractor.InheritedCodeOutcome`).
