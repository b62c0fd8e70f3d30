/** The evidence policy and the figures that the gate returns. */
module Policies {
  import opened Outcomes
  import opened Decimals
  import opened Corpus

  /** A metric's rule. Labels, context labels and table columns act through the chunk scans. */
  datatype Rule = Rule(sources: set<DocType>, kind: Kind, requirePeriod: bool, requireBasis: bool,
                       nicLevel: bool, headingPattern: bool)

  /** The keys of the formula table, without their version suffix. */
  datatype FormulaId =
    | NoiOperatingTotal | NoiOperatingSchedule | NoiPnlTotal | NoiPnlSchedule
    | NoiReportedTotal | NoiReportedSchedule
    | DebtEbitdaBorrowings | CfadsAllObligations | CashAccrualPbt
    | DebtEquityLlpBorrowings | DebtEquityBorrowings | DebtEbitdaBorrowingsPbt
    | EbitdaMargin | Cfads | DebtEquity | DebtEbitda | PatPbtNetTax | EbitdaPbtFinanceDa
    | EbitdaMarginPbtFinanceDa | DebtEbitdaPbtFinanceDa | CfadsSchedule | CashAccrual

  datatype Approval = Approval(provider: string, id: string)

  /** unit_to_crore: one factor for each unit the unit patterns can name. */
  datatype Factors = Factors(crore: Numeral, lakh: Numeral, million: Numeral, thousand: Numeral, rupee: Numeral) {
    function Of(u: MoneyUnit): Numeral {
      match u
      case Crore => crore
      case Lakh => lakh
      case Million => million
      case Thousand => thousand
      case Rupee => rupee
    }
  }

  datatype Policy = Policy(
    hash: nat,
    metrics: map<Metric, Rule>,
    operands: map<Metric, Rule>,
    calculations: map<Metric, FormulaId>,
    alternatives: map<Metric, seq<FormulaId>>,
    approvals: map<(nat, nat), Approval>,   // by application and document, which never repeat
    factors: Factors,
    sectionPatterns: seq<DocType>)          // the classification policy's patterns, in its order

  /** A gate bound to one application; reviewer interpretations are not modelled. */
  datatype Gate = Gate(policy: Policy, application: Option<nat>)

  function RuleOf(policy: Policy, metric: Metric): Option<Rule> {
    if metric in policy.metrics then Some(policy.metrics[metric])
    else if metric in policy.operands then Some(policy.operands[metric])
    else None
  }

  function ApprovalOf(gate: Gate, document: nat): Option<Approval> {
    if gate.application.Some? && (gate.application.value, document) in gate.policy.approvals
    then Some(gate.policy.approvals[(gate.application.value, document)])
    else None
  }

  datatype Resolution = SamePage | ReportDeclaration

  /** What a value is: a decimal as written, a quotient that a formula computed, or a text or date. */
  datatype Value = Amount(numeral: Numeral) | Computed(number: real) | Words(text: string) | Day(day: nat)

  datatype FigureUnit = InrCrore | Times | PercentSign | Each | PlainText | CalendarDate | Address

  datatype SourceUnit = In(unit: MoneyUnit) | Own(own: FigureUnit) | Calculation

  datatype Receipt = Receipt(
    policyHash: nat, metric: Metric, documentType: DocType, entity: Identity, chunk: nat,
    source: Option<Raw>, sourceUnit: SourceUnit, factor: Numeral, period: Option<nat>,
    basis: Option<Basis>, resolution: Option<Resolution>, context: set<Provenance>,
    approval: Option<Approval>, nicMapped: bool)

  datatype Figure = Figure(metric: Metric, value: Value, unit: FigureUnit, period: Option<nat>,
                           citation: Provenance, receipt: Receipt, workings: Option<Workings>)

  datatype Workings = Workings(formula: FormulaId, policyHash: nat, operands: seq<Figure>)

  /** Decimal(value): text that is not a number is an exception of its own. */
  function AsDecimal(v: Value): Result<real> {
    match v
    case Amount(n) => Ok(n.Value())
    case Computed(x) => Ok(x)
    case Words(_) => Err(InvalidDecimal)
    case Day(_) => Err(InvalidDecimal)
  }
}
