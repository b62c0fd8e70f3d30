/** The fixed accounting formulas: coefficient vectors over named operands, with sign and denominator
    guards. Arithmetic is over exact reals. */
module Formulas {
  import opened Outcomes
  import opened Corpus
  import opened Policies

  datatype Formula = Formula(metric: Metric, operands: seq<Metric>, numerator: seq<int>,
                             denominator: seq<int>, scale: int, unit: FigureUnit)

  function FormulaOf(id: FormulaId): Formula {
    match id
    case NoiOperatingTotal =>
      Formula(Dscr, [OperatingRevenue, OperatingExpenses, DebtService], [1, -1, 0], [0, 0, 1], 1, Times)
    case NoiOperatingSchedule =>
      Formula(Dscr, [OperatingRevenue, OperatingExpenses, AllLoanPrincipal, AllLoanInterest, AdditionalLease],
              [1, -1, 0, 0, 0], [0, 0, 1, 1, 1], 1, Times)
    case NoiPnlTotal =>
      Formula(Dscr, [OperatingRevenue, PnlTotalExpenses, FinanceCost, DebtService],
              [1, -1, 1, 0], [0, 0, 0, 1], 1, Times)
    case NoiPnlSchedule =>
      Formula(Dscr,
              [OperatingRevenue, PnlTotalExpenses, FinanceCost, AllLoanPrincipal, AllLoanInterest, AdditionalLease],
              [1, -1, 1, 0, 0, 0], [0, 0, 0, 1, 1, 1], 1, Times)
    case NoiReportedTotal => Formula(Dscr, [NetOperatingIncome, DebtService], [1, 0], [0, 1], 1, Times)
    case NoiReportedSchedule =>
      Formula(Dscr, [NetOperatingIncome, AllLoanPrincipal, AllLoanInterest, AdditionalLease],
              [1, 0, 0, 0], [0, 1, 1, 1], 1, Times)
    case DebtEbitdaBorrowings =>
      Formula(DebtToEbitda, [LongTermBorrowings, ShortTermBorrowings, Ebitda], [1, 1, 0], [0, 0, 1], 1, Times)
    case CfadsAllObligations =>
      Formula(Dscr, [CashFlowAvailable, AllLoanPrincipal, AllLoanInterest, AdditionalLease],
              [1, 0, 0, 0], [0, 1, 1, 1], 1, Times)
    case CashAccrualPbt =>
      Formula(Dscr, [ProfitBeforeTax, NetTax, Depreciation, TermInterest, PrincipalDue],
              [1, -1, 1, 1, 0], [0, 0, 0, 1, 1], 1, Times)
    case DebtEquityLlpBorrowings =>
      Formula(DebtToEquity, [LongTermBorrowings, ShortTermBorrowings, PartnersContribution, PartnersCurrentAccount],
              [1, 1, 0, 0], [0, 0, 1, 1], 1, Times)
    case DebtEquityBorrowings =>
      Formula(DebtToEquity, [LongTermBorrowings, ShortTermBorrowings, TotalEquity], [1, 1, 0], [0, 0, 1], 1, Times)
    case DebtEbitdaBorrowingsPbt =>
      Formula(DebtToEbitda, [LongTermBorrowings, ShortTermBorrowings, ProfitBeforeTax, FinanceCost, Depreciation],
              [1, 1, 0, 0, 0], [0, 0, 1, 1, 1], 1, Times)
    case EbitdaMargin => Formula(EbitdaMarginPct, [Ebitda, AnnualRevenue], [1, 0], [0, 1], 100, PercentSign)
    case Cfads => Formula(Dscr, [CashFlowAvailable, DebtService], [1, 0], [0, 1], 1, Times)
    case DebtEquity => Formula(DebtToEquity, [TotalDebt, TotalEquity], [1, 0], [0, 1], 1, Times)
    case DebtEbitda => Formula(DebtToEbitda, [TotalDebt, Ebitda], [1, 0], [0, 1], 1, Times)
    case PatPbtNetTax => Formula(ProfitAfterTax, [ProfitBeforeTax, NetTax], [1, -1], [], 1, InrCrore)
    case EbitdaPbtFinanceDa => Formula(Ebitda, [ProfitBeforeTax, FinanceCost, Depreciation], [1, 1, 1], [], 1, InrCrore)
    case EbitdaMarginPbtFinanceDa =>
      Formula(EbitdaMarginPct, [ProfitBeforeTax, FinanceCost, Depreciation, AnnualRevenue],
              [1, 1, 1, 0], [0, 0, 0, 1], 100, PercentSign)
    case DebtEbitdaPbtFinanceDa =>
      Formula(DebtToEbitda, [TotalDebt, ProfitBeforeTax, FinanceCost, Depreciation],
              [1, 0, 0, 0], [0, 1, 1, 1], 1, Times)
    case CfadsSchedule => Formula(Dscr, [CashFlowAvailable, TermInterest, PrincipalDue], [1, 0, 0], [0, 1, 1], 1, Times)
    case CashAccrual =>
      Formula(Dscr, [ProfitAfterTax, Depreciation, TermInterest, PrincipalDue], [1, 1, 1, 0], [0, 0, 1, 1], 1, Times)
  }

  // ----- evaluation -----

  /** The operands that may not be negative: the two whose name mentions borrowings, and a fixed list. */
  predicate MustNotBeNegative(operand: Metric) {
    operand in {LongTermBorrowings, ShortTermBorrowings} ||
    operand in {AllLoanPrincipal, AllLoanInterest, AdditionalLease, OperatingExpenses, PnlTotalExpenses,
                FinanceCost, Depreciation, TermInterest, PrincipalDue}
  }

  function Dot(values: seq<real>, coefficients: seq<int>): real
    requires |values| == |coefficients|
  {
    if values == [] then 0.0
    else values[0] * coefficients[0] as real + Dot(values[1..], coefficients[1..])
  }

  predicate Shaped(f: Formula) {
    |f.numerator| == |f.operands| && (f.denominator == [] || |f.denominator| == |f.operands|)
  }

  predicate SignsAllowed(f: Formula, values: seq<real>)
    requires |values| == |f.operands|
  {
    forall i | 0 <= i < |values| :: values[i] < 0.0 ==> !MustNotBeNegative(f.operands[i])
  }

  function Bottom(f: Formula, values: seq<real>): real
    requires Shaped(f) && |values| == |f.operands|
  {
    if f.denominator == [] then 1.0 else Dot(values, f.denominator)
  }

  function Quotient(top: real, bottom: real, scale: int): real
    requires bottom > 0.0
  {
    top / bottom * scale as real
  }

  /** The formula's value, or None for its ValueError: a wrong number of operands, a negative component
      or a denominator that is not positive. */
  function Evaluate(f: Formula, values: seq<real>): Option<real>
    requires Shaped(f)
  {
    if |values| != |f.operands| || !SignsAllowed(f, values) || Bottom(f, values) <= 0.0 then None
    else Some(Quotient(Dot(values, f.numerator), Bottom(f, values), f.scale))
  }

  // ----- the table -----

  predicate NonZeroSomewhere(f: Formula)
    requires Shaped(f)
  {
    forall i | 0 <= i < |f.operands| :: f.numerator[i] != 0 || (f.denominator != [] && f.denominator[i] != 0)
  }

  /** Every formula of the table has vectors of its operands' length and two to six operands. */
  lemma {:induction false} TableIsShaped(id: FormulaId)
    ensures Shaped(FormulaOf(id)) && 2 <= |FormulaOf(id).operands| <= 6
    ensures FormulaOf(id).metric == Dscr ==> FormulaOf(id).denominator != []
  {
  }

  lemma {:induction false} ShortFormulaHasNoIdle(id: FormulaId)
    requires |FormulaOf(id).operands| <= 3
    ensures Shaped(FormulaOf(id)) && NonZeroSomewhere(FormulaOf(id))
  {
  }

  lemma {:induction false} LongFormulaHasNoIdle(id: FormulaId)
    requires |FormulaOf(id).operands| > 3
    ensures Shaped(FormulaOf(id)) && NonZeroSomewhere(FormulaOf(id))
  {
  }

  /** Every formula of the table uses every operand on some side. */
  lemma {:induction false} NoOperandIsIdle(id: FormulaId)
    ensures Shaped(FormulaOf(id)) && NonZeroSomewhere(FormulaOf(id))
  {
    if |FormulaOf(id).operands| <= 3 {
      ShortFormulaHasNoIdle(id);
    } else {
      LongFormulaHasNoIdle(id);
    }
  }

  // ----- scaling -----

  function Scaled(values: seq<real>, t: real): seq<real> {
    seq(|values|, i requires 0 <= i < |values| => values[i] * t)
  }

  lemma {:induction false} DotScales(values: seq<real>, coefficients: seq<int>, t: real)
    requires |values| == |coefficients|
    ensures Dot(Scaled(values, t), coefficients) == Dot(values, coefficients) * t
  {
    if values != [] {
      DotScales(values[1..], coefficients[1..], t);
      forall i | 0 <= i < |values| - 1 ensures Scaled(values, t)[1..][i] == Scaled(values[1..], t)[i] {
        assert values[1..][i] == values[i + 1];
      }
      assert Scaled(values, t)[1..] == Scaled(values[1..], t);
      var v, c, d := values[0], coefficients[0] as real, Dot(values[1..], coefficients[1..]);
      assert (v * t) * c + d * t == (v * c + d) * t;
    }
  }

  lemma {:induction false} ScalingKeepsSigns(f: Formula, values: seq<real>, t: real)
    requires t > 0.0 && |values| == |f.operands|
    ensures SignsAllowed(f, Scaled(values, t)) <==> SignsAllowed(f, values)
  {
    forall i | 0 <= i < |values| ensures Scaled(values, t)[i] < 0.0 <==> values[i] < 0.0 {
      PositiveFactor(values[i], t);
    }
  }

  lemma {:induction false} PositiveFactor(x: real, t: real)
    requires t > 0.0
    ensures x * t < 0.0 <==> x < 0.0
    ensures x * t <= 0.0 <==> x <= 0.0
  {
  }

  lemma {:induction false} CommonFactorCancels(a: real, b: real, scale: int, t: real, at: real, bt: real)
    requires b > 0.0 && t > 0.0 && at == a * t && bt == b * t
    ensures bt > 0.0 && Quotient(at, bt, scale) == Quotient(a, b, scale)
  {
    var q := a / b;
    assert a == q * b;
    assert at == q * bt;
    assert at / bt == q;
  }

  lemma {:induction false} WholeQuotientScales(a: real, scale: int, t: real, at: real, v: real)
    requires at == a * t && v == Quotient(a, 1.0, scale)
    ensures Quotient(at, 1.0, scale) == v * t
  {
    var s := scale as real;
    assert v == a * s;
    assert at * s == (a * s) * t;
  }

  /** The restatement of a value: a ratio stays, an amount is restated. */
  function Restated(f: Formula, v: real, t: real): real {
    if f.denominator == [] then v * t else v
  }

  /** Restating every operand in another unit leaves a ratio as it was, and restates a formula without
      a denominator; the guards answer the same. */
  lemma {:induction false} ScalingRestates(f: Formula, values: seq<real>, t: real)
    requires Shaped(f) && t > 0.0
    ensures Evaluate(f, Scaled(values, t)).Some? <==> Evaluate(f, values).Some?
    ensures Evaluate(f, values).Some? ==>
              Evaluate(f, Scaled(values, t)).value == Restated(f, Evaluate(f, values).value, t)
  {
    if |values| == |f.operands| {
      var scaled := Scaled(values, t);
      ScalingKeepsSigns(f, values, t);
      DotScales(values, f.numerator, t);
      var top, bottom := Dot(values, f.numerator), Bottom(f, values);
      if f.denominator == [] {
        if SignsAllowed(f, values) {
          WholeQuotientScales(top, f.scale, t, Dot(scaled, f.numerator), Evaluate(f, values).value);
        }
      } else {
        DotScales(values, f.denominator, t);
        PositiveFactor(bottom, t);
        if bottom > 0.0 {
          CommonFactorCancels(top, bottom, f.scale, t, Dot(scaled, f.numerator), Bottom(f, scaled));
        }
      }
    }
  }

  // ----- component formulas -----

  function Values(id: FormulaId, values: seq<real>): Option<real> {
    TableIsShaped(id);
    Evaluate(FormulaOf(id), values)
  }

  lemma {:induction false} DotOf2(v: seq<real>, c: seq<int>)
    requires |v| == |c| == 2
    ensures Dot(v, c) == v[0] * c[0] as real + v[1] * c[1] as real
  {
    assert Dot(v[1..], c[1..]) == v[1] * c[1] as real + Dot(v[1..][1..], c[1..][1..]);
  }

  lemma {:induction false} DotOf3(v: seq<real>, c: seq<int>)
    requires |v| == |c| == 3
    ensures Dot(v, c) == v[0] * c[0] as real + v[1] * c[1] as real + v[2] * c[2] as real
  {
    DotOf2(v[1..], c[1..]);
  }

  lemma {:induction false} DotOf4(v: seq<real>, c: seq<int>)
    requires |v| == |c| == 4
    ensures Dot(v, c) == v[0] * c[0] as real + v[1] * c[1] as real + v[2] * c[2] as real + v[3] * c[3] as real
  {
    DotOf3(v[1..], c[1..]);
  }

  lemma {:induction false} DotOf5(v: seq<real>, c: seq<int>)
    requires |v| == |c| == 5
    ensures Dot(v, c) == v[0] * c[0] as real + v[1] * c[1] as real + v[2] * c[2] as real + v[3] * c[3] as real +
            v[4] * c[4] as real
  {
    DotOf4(v[1..], c[1..]);
  }

  lemma {:induction false} SameFraction(f: Formula, v: seq<real>, g: Formula, w: seq<real>)
    requires Shaped(f) && Shaped(g) && |v| == |f.operands| && |w| == |g.operands|
    requires Dot(v, f.numerator) == Dot(w, g.numerator) && Bottom(f, v) == Bottom(g, w) && f.scale == g.scale
    requires SignsAllowed(f, v) <==> SignsAllowed(g, w)
    ensures Evaluate(f, v) == Evaluate(g, w)
  {
  }

  /** EBITDA formed from its components: no guard but the signs of the two costs. */
  lemma {:induction false} EbitdaOf(pbt: real, finance: real, da: real)
    ensures Values(EbitdaPbtFinanceDa, [pbt, finance, da]) ==
            if finance < 0.0 || da < 0.0 then None else Some(pbt + finance + da)
  {
    var f, v := FormulaOf(EbitdaPbtFinanceDa), [pbt, finance, da];
    DotOf3(v, f.numerator);
    assert SignsAllowed(f, v) <==> finance >= 0.0 && da >= 0.0;
  }

  lemma {:induction false} ProfitAfterTaxOf(pbt: real, tax: real)
    ensures Values(PatPbtNetTax, [pbt, tax]) == Some(pbt - tax)
  {
    var f, v := FormulaOf(PatPbtNetTax), [pbt, tax];
    DotOf2(v, f.numerator);
    assert SignsAllowed(f, v);
  }

  lemma {:induction false} DebtSides(v: seq<real>, u: seq<real>)
    requires |v| == 4 && |u| == 2
    ensures var f, g := FormulaOf(DebtEbitdaPbtFinanceDa), FormulaOf(DebtEbitda);
            && |f.operands| == |f.numerator| == |f.denominator| == 4 &&
            |g.operands| == |g.numerator| == |g.denominator| == 2
            && Dot(v, f.numerator) == v[0] && Bottom(f, v) == v[1] + v[2] + v[3]
            && Dot(u, g.numerator) == u[0] && Bottom(g, u) == u[1]
  {
    var f, g := FormulaOf(DebtEbitdaPbtFinanceDa), FormulaOf(DebtEbitda);
    DotOf4(v, f.numerator);
    DotOf4(v, f.denominator);
    DotOf2(u, g.numerator);
    DotOf2(u, g.denominator);
  }

  lemma {:induction false} DebtSigns(v: seq<real>, u: seq<real>)
    requires |v| == 4 && |u| == 2
    ensures SignsAllowed(FormulaOf(DebtEbitdaPbtFinanceDa), v) <==> v[2] >= 0.0 && v[3] >= 0.0
    ensures SignsAllowed(FormulaOf(DebtEbitda), u)
  {
  }

  lemma {:induction false} SameDebtMultiple(v: seq<real>, u: seq<real>)
    requires |v| == 4 && |u| == 2 && u[0] == v[0] && u[1] == v[1] + v[2] + v[3]
    ensures Values(DebtEbitdaPbtFinanceDa, v) == if v[2] < 0.0 || v[3] < 0.0 then None else Values(DebtEbitda, u)
  {
    DebtSides(v, u);
    DebtSigns(v, u);
    if v[2] >= 0.0 && v[3] >= 0.0 {
      SameFraction(FormulaOf(DebtEbitdaPbtFinanceDa), v, FormulaOf(DebtEbitda), u);
    }
  }

  /** Reading EBITDA from a statement and forming it from its components give the same multiple of the
      total debt, and are refused alike. */
  lemma {:induction false} DebtMultipleComposes(debt: real, pbt: real, finance: real, da: real)
    ensures Values(DebtEbitdaPbtFinanceDa, [debt, pbt, finance, da]) ==
            match Values(EbitdaPbtFinanceDa, [pbt, finance, da])
            case None => None
            case Some(e) => Values(DebtEbitda, [debt, e])
  {
    EbitdaOf(pbt, finance, da);
    SameDebtMultiple([debt, pbt, finance, da], [debt, pbt + finance + da]);
  }

  lemma {:induction false} BorrowingSigns(v: seq<real>, u: seq<real>)
    requires |v| == 5 && |u| == 3
    ensures SignsAllowed(FormulaOf(DebtEbitdaBorrowingsPbt), v) <==>
              v[0] >= 0.0 && v[1] >= 0.0 && v[3] >= 0.0 && v[4] >= 0.0
    ensures SignsAllowed(FormulaOf(DebtEbitdaBorrowings), u) <==> u[0] >= 0.0 && u[1] >= 0.0
  {
  }

  lemma {:induction false} BorrowingSides(v: seq<real>, u: seq<real>)
    requires |v| == 5 && |u| == 3
    ensures var f, g := FormulaOf(DebtEbitdaBorrowingsPbt), FormulaOf(DebtEbitdaBorrowings);
            && |f.operands| == |f.numerator| == |f.denominator| == 5 &&
            |g.operands| == |g.numerator| == |g.denominator| == 3
            && Dot(v, f.numerator) == v[0] + v[1] && Bottom(f, v) == v[2] + v[3] + v[4]
            && Dot(u, g.numerator) == u[0] + u[1] && Bottom(g, u) == u[2]
  {
    var f, g := FormulaOf(DebtEbitdaBorrowingsPbt), FormulaOf(DebtEbitdaBorrowings);
    DotOf5(v, f.numerator);
    DotOf5(v, f.denominator);
    DotOf3(u, g.numerator);
    DotOf3(u, g.denominator);
  }

  lemma {:induction false} SameBorrowingsMultiple(v: seq<real>, u: seq<real>)
    requires |v| == 5 && |u| == 3 && u[0] == v[0] && u[1] == v[1] && u[2] == v[2] + v[3] + v[4]
    ensures Values(DebtEbitdaBorrowingsPbt, v) == if v[3] < 0.0 || v[4] < 0.0 then None
            else Values(DebtEbitdaBorrowings, u)
  {
    BorrowingSides(v, u);
    BorrowingSigns(v, u);
    if v[3] >= 0.0 && v[4] >= 0.0 {
      SameFraction(FormulaOf(DebtEbitdaBorrowingsPbt), v, FormulaOf(DebtEbitdaBorrowings), u);
    }
  }

  /** The same for the multiple of the borrowings, whose own signs are guarded in both forms. */
  lemma {:induction false} BorrowingsMultipleComposes(long: real, short: real, pbt: real, finance: real, da: real)
    ensures Values(DebtEbitdaBorrowingsPbt, [long, short, pbt, finance, da]) ==
            match Values(EbitdaPbtFinanceDa, [pbt, finance, da])
            case None => None
            case Some(e) => Values(DebtEbitdaBorrowings, [long, short, e])
  {
    EbitdaOf(pbt, finance, da);
    SameBorrowingsMultiple([long, short, pbt, finance, da], [long, short, pbt + finance + da]);
  }

  lemma {:induction false} MarginSides(v: seq<real>, u: seq<real>)
    requires |v| == 4 && |u| == 2
    ensures var f, g := FormulaOf(EbitdaMarginPbtFinanceDa), FormulaOf(EbitdaMargin);
            && |f.operands| == |f.numerator| == |f.denominator| == 4 &&
            |g.operands| == |g.numerator| == |g.denominator| == 2
            && Dot(v, f.numerator) == v[0] + v[1] + v[2] && Bottom(f, v) == v[3]
            && Dot(u, g.numerator) == u[0] && Bottom(g, u) == u[1]
  {
    var f, g := FormulaOf(EbitdaMarginPbtFinanceDa), FormulaOf(EbitdaMargin);
    DotOf4(v, f.numerator);
    DotOf4(v, f.denominator);
    DotOf2(u, g.numerator);
    DotOf2(u, g.denominator);
  }

  lemma {:induction false} MarginSigns(v: seq<real>, u: seq<real>)
    requires |v| == 4 && |u| == 2
    ensures SignsAllowed(FormulaOf(EbitdaMarginPbtFinanceDa), v) <==> v[1] >= 0.0 && v[2] >= 0.0
    ensures SignsAllowed(FormulaOf(EbitdaMargin), u)
  {
  }

  lemma {:induction false} SameMargin(v: seq<real>, u: seq<real>)
    requires |v| == 4 && |u| == 2 && u[0] == v[0] + v[1] + v[2] && u[1] == v[3]
    ensures Values(EbitdaMarginPbtFinanceDa, v) == if v[1] < 0.0 || v[2] < 0.0 then None else Values(EbitdaMargin, u)
  {
    MarginSides(v, u);
    MarginSigns(v, u);
    if v[1] >= 0.0 && v[2] >= 0.0 {
      SameFraction(FormulaOf(EbitdaMarginPbtFinanceDa), v, FormulaOf(EbitdaMargin), u);
    }
  }

  /** The same for the margin on annual revenue. */
  lemma {:induction false} MarginComposes(pbt: real, finance: real, da: real, revenue: real)
    ensures Values(EbitdaMarginPbtFinanceDa, [pbt, finance, da, revenue]) ==
            match Values(EbitdaPbtFinanceDa, [pbt, finance, da])
            case None => None
            case Some(e) => Values(EbitdaMargin, [e, revenue])
  {
    EbitdaOf(pbt, finance, da);
    SameMargin([pbt, finance, da, revenue], [pbt + finance + da, revenue]);
  }

  lemma {:induction false} AccrualSides(v: seq<real>, u: seq<real>)
    requires |v| == 5 && |u| == 4
    ensures var f, g := FormulaOf(CashAccrualPbt), FormulaOf(CashAccrual);
            && |f.operands| == |f.numerator| == |f.denominator| == 5 &&
            |g.operands| == |g.numerator| == |g.denominator| == 4
            && Dot(v, f.numerator) == v[0] - v[1] + v[2] + v[3] && Bottom(f, v) == v[3] + v[4]
            && Dot(u, g.numerator) == u[0] + u[1] + u[2] && Bottom(g, u) == u[2] + u[3]
  {
    var f, g := FormulaOf(CashAccrualPbt), FormulaOf(CashAccrual);
    DotOf5(v, f.numerator);
    DotOf5(v, f.denominator);
    DotOf4(u, g.numerator);
    DotOf4(u, g.denominator);
  }

  lemma {:induction false} AccrualSigns(v: seq<real>, u: seq<real>)
    requires |v| == 5 && |u| == 4
    ensures SignsAllowed(FormulaOf(CashAccrualPbt), v) <==> v[2] >= 0.0 && v[3] >= 0.0 && v[4] >= 0.0
    ensures SignsAllowed(FormulaOf(CashAccrual), u) <==> u[1] >= 0.0 && u[2] >= 0.0 && u[3] >= 0.0
  {
  }

  lemma {:induction false} SameAccrual(v: seq<real>, u: seq<real>)
    requires |v| == 5 && |u| == 4 && u[0] == v[0] - v[1] && u[1..] == v[2..]
    ensures Values(CashAccrualPbt, v) == Values(CashAccrual, u)
  {
    assert u[1..][0] == v[2..][0] && u[1..][1] == v[2..][1] && u[1..][2] == v[2..][2];
    AccrualSides(v, u);
    AccrualSigns(v, u);
    SameFraction(FormulaOf(CashAccrualPbt), v, FormulaOf(CashAccrual), u);
  }

  /** Profit after tax read from a statement and formed from profit before tax and net tax give the
      same cash-accrual cover. */
  lemma {:induction false} CashAccrualComposes(pbt: real, tax: real, da: real, interest: real, principal: real)
    ensures Values(CashAccrualPbt, [pbt, tax, da, interest, principal]) ==
            match Values(PatPbtNetTax, [pbt, tax])
            case None => None
            case Some(pat) => Values(CashAccrual, [pat, da, interest, principal])
  {
    ProfitAfterTaxOf(pbt, tax);
    SameAccrual([pbt, tax, da, interest, principal], [pbt - tax, da, interest, principal]);
  }

  lemma {:induction false} DotOf6(v: seq<real>, c: seq<int>)
    requires |v| == |c| == 6
    ensures Dot(v, c) == v[0] * c[0] as real + v[1] * c[1] as real + v[2] * c[2] as real + v[3] * c[3] as real +
                         v[4] * c[4] as real + v[5] * c[5] as real
  {
    DotOf5(v[1..], c[1..]);
  }

  lemma {:induction false} RatioTimesBottom(f: Formula, v: seq<real>)
    requires Shaped(f) && f.scale == 1 && Evaluate(f, v).Some?
    ensures |v| == |f.operands| && Bottom(f, v) > 0.0
    ensures Evaluate(f, v).value * Bottom(f, v) == Dot(v, f.numerator)
  {
    var top, bottom := Dot(v, f.numerator), Bottom(f, v);
    var q := top / bottom;
    assert q * bottom == top;
    assert Evaluate(f, v).value == q;
  }

  /** The cover on the operating route, against either debt service. */
  lemma {:induction false} OperatingCover(revenue: real, expenses: real, service: real, v: real)
    requires Values(NoiOperatingTotal, [revenue, expenses, service]) == Some(v)
    ensures service > 0.0 && v * service == revenue - expenses
  {
    var f, w := FormulaOf(NoiOperatingTotal), [revenue, expenses, service];
    DotOf3(w, f.numerator);
    DotOf3(w, f.denominator);
    RatioTimesBottom(f, w);
  }

  lemma {:induction false} OperatingScheduleCover(revenue: real, expenses: real, p: real, i: real, l: real, v: real)
    requires Values(NoiOperatingSchedule, [revenue, expenses, p, i, l]) == Some(v)
    ensures p + i + l > 0.0 && v * (p + i + l) == revenue - expenses
  {
    var f, w := FormulaOf(NoiOperatingSchedule), [revenue, expenses, p, i, l];
    DotOf5(w, f.numerator);
    DotOf5(w, f.denominator);
    RatioTimesBottom(f, w);
  }

  /** The cover on the profit-and-loss route, against either debt service. */
  lemma {:induction false} PnlCover(revenue: real, expenses: real, finance: real, service: real, v: real)
    requires Values(NoiPnlTotal, [revenue, expenses, finance, service]) == Some(v)
    ensures service > 0.0 && v * service == revenue - expenses + finance
  {
    var f, w := FormulaOf(NoiPnlTotal), [revenue, expenses, finance, service];
    DotOf4(w, f.numerator);
    DotOf4(w, f.denominator);
    RatioTimesBottom(f, w);
  }

  lemma {:induction false} PnlScheduleCover(revenue: real, expenses: real, finance: real, p: real, i: real, l: real,
                                            v: real)
    requires Values(NoiPnlSchedule, [revenue, expenses, finance, p, i, l]) == Some(v)
    ensures p + i + l > 0.0 && v * (p + i + l) == revenue - expenses + finance
  {
    var f, w := FormulaOf(NoiPnlSchedule), [revenue, expenses, finance, p, i, l];
    DotOf6(w, f.numerator);
    DotOf6(w, f.denominator);
    RatioTimesBottom(f, w);
  }
}
