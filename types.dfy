/** The records of the SAF-T aggregation engine: the tree the XML parser
    hands over, the normalised line item, the per-document partials and
    outcome, and the consolidated report. */
module SaftTypes {
  import opened OrderedDict

  datatype Option<T> = None | Some(value: T)

  /** A child element as the XML parser delivers it: missing, a single
      element, or an array when the element repeats. */
  datatype Field<T> = Absent | One(value: T) | Many(values: seq<T>)

  /** A present `TaxPercentage`: the text it is printed as, and its number. */
  datatype TaxPercentage = TaxPercentage(text: string, rate: real)

  /** A `Line` element. A number field is `None` when it is missing or does
      not parse as a number. */
  datatype LineElem = LineElem(
    productCode: Option<string>,
    productDescription: Option<string>,
    quantity: Option<real>,
    unitPrice: Option<real>,
    taxPercentage: Option<TaxPercentage>)

  datatype Invoice = Invoice(line: Field<LineElem>)
  datatype SalesInvoices = SalesInvoices(invoice: Field<Invoice>)
  datatype SourceDocuments = SourceDocuments(salesInvoices: Field<SalesInvoices>)
  datatype AuditFile = AuditFile(sourceDocuments: Field<SourceDocuments>)

  /** The root object the parser returns. */
  datatype Document = Document(auditFile: Field<AuditFile>)

  /** What reading and parsing one file gave: a read error, a parser error
      with its message, or the parsed tree. */
  datatype Content = ReadFailure | ParseFailure(message: string) | Parsed(document: Document)

  datatype SaftFile = SaftFile(name: string, content: Content)

  /** One line after defaults: its product, its value (quantity times unit
      price), and the tax bucket it adds to with the amount it adds. */
  datatype Item = Item(
    code: string,
    name: string,
    quantity: real,
    value: real,
    taxKey: string,
    taxAmount: real)

  /** What one document accumulated for one product code. */
  datatype Partial = Partial(name: string, quantity: real, value: real, vat: Dict<real>)

  /** Result of one file; `error` is set exactly when it failed. */
  datatype Outcome = Outcome(month: string, products: Dict<Partial>, error: Option<string>)

  datatype AggregatedProduct = AggregatedProduct(
    productCode: string,
    productName: string,
    totalQuantity: real,
    totalValue: real,
    vatBreakdown: Dict<real>)

  datatype Report = Report(
    period: string,
    months: seq<string>,
    products: seq<AggregatedProduct>,
    totalValue: real,
    totalQuantity: real,
    errors: seq<string>)

  function TotalValueOf(p: AggregatedProduct): real { p.totalValue }
  function TotalQuantityOf(p: AggregatedProduct): real { p.totalQuantity }
  function PartialValueOf(p: Partial): real { p.value }
  function PartialQuantityOf(p: Partial): real { p.quantity }
}
