/** The evidence corpus as the gate reads it: chunks, their provenance and the features that the
    policy's patterns find in each chunk's text.

    Pattern matching itself is not modelled. A chunk carries, as data, what the patterns find in it,
    and a search over several joined texts finds the union of what it finds in each. */
module Corpus {
  import opened Outcomes
  import opened Decimals

  /** A digest of a normalised entity name; only equality matters. */
  type Identity = nat

  datatype DocType =
    | Aadhaar | Agreement | AuditedFinancials | BankStatement | FinancialInformationReport
    | FinancialStatement | Gst | Incorporation | NoDues | Pan | Payroll | Registration
    | TaxReturn | Udyam | Unknown | UtilityBill | Valuation

  /** The types in the alphabetical order of their names in the policy. */
  const ALPHABETICAL: seq<DocType> :=
    [Aadhaar, Agreement, AuditedFinancials, BankStatement, FinancialInformationReport,
     FinancialStatement, Gst, Incorporation, NoDues, Pan, Payroll, Registration,
     TaxReturn, Udyam, Unknown, UtilityBill, Valuation]

  lemma {:induction false} EveryTypeIsListed(t: DocType)
    ensures t in ALPHABETICAL
  {
    match t
    case Aadhaar => assert ALPHABETICAL[0] == t;
    case Agreement => assert ALPHABETICAL[1] == t;
    case AuditedFinancials => assert ALPHABETICAL[2] == t;
    case BankStatement => assert ALPHABETICAL[3] == t;
    case FinancialInformationReport => assert ALPHABETICAL[4] == t;
    case FinancialStatement => assert ALPHABETICAL[5] == t;
    case Gst => assert ALPHABETICAL[6] == t;
    case Incorporation => assert ALPHABETICAL[7] == t;
    case NoDues => assert ALPHABETICAL[8] == t;
    case Pan => assert ALPHABETICAL[9] == t;
    case Payroll => assert ALPHABETICAL[10] == t;
    case Registration => assert ALPHABETICAL[11] == t;
    case TaxReturn => assert ALPHABETICAL[12] == t;
    case Udyam => assert ALPHABETICAL[13] == t;
    case Unknown => assert ALPHABETICAL[14] == t;
    case UtilityBill => assert ALPHABETICAL[15] == t;
    case Valuation => assert ALPHABETICAL[16] == t;
  }

  /** The metrics that the code names; every other policy entry is Named. */
  datatype Metric =
    | OperatingRevenue | OperatingExpenses | PnlTotalExpenses | FinanceCost | DebtService
    | AllLoanPrincipal | AllLoanInterest | AdditionalLease | NetOperatingIncome | CashFlowAvailable
    | ProfitBeforeTax | NetTax | ProfitAfterTax | Depreciation | TermInterest | PrincipalDue
    | LongTermBorrowings | ShortTermBorrowings | PartnersContribution | PartnersCurrentAccount
    | TotalEquity | TotalDebt | Ebitda | AnnualRevenue
    | EbitdaMarginPct | Dscr | DebtToEquity | DebtToEbitda
    | BorrowerName | Region | Named(name: string)

  datatype Basis = Standalone | Consolidated | OtherBasis(name: string)

  datatype MoneyUnit = Crore | Lakh | Million | Thousand | Rupee

  datatype Kind = Money | Percent | Ratio | Count | Text | Date

  datatype Box = Box(x0: real, y0: real, x1: real, y1: real)

  /** Where a chunk comes from; SourceCitation has the same three fields. Document ids are digests of
      fixed length, so their text order is the order of the numbers they spell. */
  datatype Provenance = Provenance(document: nat, page: nat, box: Box)

  /** A cell's text with the readings that the conversions may ask of it. */
  datatype Raw = Raw(text: string, number: Option<Numeral>, date: Option<nat>,
                     name: Identity, regions: set<string>)

  /** A label/value row with the year of its column, when it has one. */
  datatype Row = Row(raw: Raw, period: Option<nat>)

  datatype RowFault = PeriodUnclear | ValueUnclear | ValuesConflict

  datatype RowScan = Rows(rows: seq<Row>) | Refused(fault: RowFault)

  /** What the row scanner reports for one metric: heading lines that spell an entity's name, by the
      identity they spell, and the label/value rows or the reason for refusing the chunk. */
  datatype Scan = Scan(headings: map<Identity, seq<Raw>>, lines: RowScan)

  datatype Chunk = Chunk(
    id: nat,
    table: bool,
    provenance: seq<Provenance>,
    tableProvenance: seq<Provenance>,
    types: set<DocType>,          // document_types patterns found
    sectionTypes: set<DocType>,   // classification patterns found
    owners: set<Identity>,        // names in explicit owner fields
    titles: set<Identity>,        // names in title lines
    years: seq<nat>,              // report years
    units: set<MoneyUnit>,
    bases: set<Basis>,
    declaresBasis: bool,          // a basis-declaration heading is present
    nicTable: bool,               // a table with NIC activities
    percentShown: set<Metric>,    // metrics with a % sign on their label's line
    scans: map<Metric, Scan>      // by metric
  )

  predicate SingleOwner(c: Chunk) {
    c.provenance != [] && forall p | p in c.provenance :: p.document == c.provenance[0].document
  }

  function Owner(c: Chunk): nat
    requires SingleOwner(c)
  {
    c.provenance[0].document
  }

  predicate AllOwned(cs: set<Chunk>) {
    forall c | c in cs :: SingleOwner(c)
  }

  function Pages(c: Chunk): set<nat> {
    set p | p in c.provenance :: p.page
  }

  /** The documents that chunks belong to, in order of first appearance. */
  function Order(chunks: seq<Chunk>): seq<nat>
    requires forall c | c in chunks :: SingleOwner(c)
  {
    if chunks == [] then []
    else
      var before := Order(chunks[..|chunks| - 1]);
      var d := Owner(chunks[|chunks| - 1]);
      if d in before then before else before + [d]
  }

  /** The chunks of one document, in their order. */
  function Items(chunks: seq<Chunk>, d: nat): seq<Chunk>
    requires forall c | c in chunks :: SingleOwner(c)
  {
    if chunks == [] then []
    else
      var last := chunks[|chunks| - 1];
      var before := Items(chunks[..|chunks| - 1], d);
      if Owner(last) == d then before + [last] else before
  }

  lemma {:induction false} OrderListsOwners(chunks: seq<Chunk>, d: nat)
    requires forall c | c in chunks :: SingleOwner(c)
    ensures d in Order(chunks) <==> exists c :: c in chunks && Owner(c) == d
  {
    if chunks != [] {
      var n := |chunks| - 1;
      OrderListsOwners(chunks[..n], d);
      assert forall c :: c in chunks <==> c == chunks[n] || c in chunks[..n];
    }
  }

  lemma {:induction false} ItemsAreOwned(chunks: seq<Chunk>, d: nat, c: Chunk)
    requires forall c | c in chunks :: SingleOwner(c)
    ensures c in Items(chunks, d) <==> c in chunks && Owner(c) == d
  {
    if chunks != [] {
      var n := |chunks| - 1;
      ItemsAreOwned(chunks[..n], d, c);
      assert c in chunks <==> c == chunks[n] || c in chunks[..n];
    }
  }

  /** The documents in a set of chunks, and the chunks of one of them. */
  function Documents(cs: set<Chunk>): set<nat>
    requires AllOwned(cs)
  {
    set c | c in cs :: Owner(c)
  }

  function Document(cs: set<Chunk>, d: nat): set<Chunk>
    requires AllOwned(cs)
  {
    set c | c in cs && Owner(c) == d
  }

  lemma {:induction false} ItemsAreDocument(chunks: seq<Chunk>, d: nat)
    requires AllOwned(Elements(chunks))
    ensures Elements(Items(chunks, d)) == Document(Elements(chunks), d)
  {
    assert forall c :: c in chunks <==> c in Elements(chunks);
    forall c ensures c in Elements(Items(chunks, d)) <==> c in Document(Elements(chunks), d) {
      ItemsAreOwned(chunks, d, c);
    }
  }

  lemma {:induction false} OrderIsDocuments(chunks: seq<Chunk>)
    requires AllOwned(Elements(chunks))
    ensures Elements(Order(chunks)) == Documents(Elements(chunks))
  {
    assert forall c :: c in chunks <==> c in Elements(chunks);
    forall d ensures d in Elements(Order(chunks)) <==> d in Documents(Elements(chunks)) {
      OrderListsOwners(chunks, d);
    }
  }
}
