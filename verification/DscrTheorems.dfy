/** What a returned cover certifies, and what it does not depend on. */
module DscrTheorems {
  import opened Outcomes
  import opened Corpus
  import opened Policies
  import opened Formulas
  import opened Calculations
  import opened DebtServiceCheck
  import opened DscrStages

  // ----- the cover without any order -----

  ghost predicate TouchesOnlyTolerable(ids: set<FormulaId>, read: Reader) {
    forall id, side, n | id in ids && n in OnSide(id, side) :: Tolerable(read(n))
  }

  /** All routes that can be computed are computed, and their values are one. */
  ghost predicate RoutesAgree(ids: set<FormulaId>, read: Reader, policyHash: nat) {
    && (forall id | id in ids :: Tolerable(Calculate(id, read, policyHash)))
    && (exists id :: id in ids && Calculate(id, read, policyHash).Ok?)
    && (forall a, b | a in ids && b in ids && Calculate(a, read, policyHash).Ok? &&
        Calculate(b, read, policyHash).Ok? ::
          AsDecimal(Calculate(a, read, policyHash).value.value) ==
            AsDecimal(Calculate(b, read, policyHash).value.value))
  }

  ghost predicate Settles(ids: set<FormulaId>, read: Reader, policyHash: nat) {
    && TouchesOnlyTolerable(ids, read)
    && Reconcile(read).None?
    && (forall id | id in ids :: CheckDenominator(id, read).None?)
    && Tolerable(read(Dscr))
    && RoutesAgree(ids, read, policyHash)
  }

  lemma {:induction false} DiscoveryPasses(choices: seq<FormulaId>, read: Reader)
    ensures Discovery(TouchOrder(choices), read).None? <==> TouchesOnlyTolerable(Elements(choices), read)
  {
    var names := TouchOrder(choices);
    FirstRefusalNone(names, read);
    if FirstRefusal(names, read).None? {
      FirstStopIsRefused(names, read);
    }
    if Discovery(names, read).None? {
      forall id, side, n | id in Elements(choices) && n in OnSide(id, side) ensures Tolerable(read(n)) {
        var i :| 0 <= i < |choices| && choices[i] == id;
        TouchedHas(choices, side, i, n);
        assert n in names;
      }
    }
    if TouchesOnlyTolerable(Elements(choices), read) {
      forall n | n in names ensures Tolerable(read(n)) {
        var side := if n in Touched(choices, Numerator) then Numerator else Denominator;
        assert n in Touched(choices, side);
        FlattenHas(Sides(choices, side), n);
        var i :| 0 <= i < |choices| && n in Sides(choices, side)[i];
        assert choices[i] in Elements(choices) && n in OnSide(choices[i], side);
      }
    }
  }

  lemma {:induction false} NoFault(faults: seq<Option<Code>>)
    ensures FirstFault(faults).None? <==> forall i | 0 <= i < |faults| :: faults[i].None?
  {
    if faults != [] {
      var n := |faults| - 1;
      NoFault(faults[..n]);
      assert forall i | 0 <= i < n :: faults[..n][i] == faults[i];
    }
  }

  lemma {:induction false} DenominatorsPass(choices: seq<FormulaId>, read: Reader)
    ensures FirstFault(DenominatorFaults(choices, read)).None? <==>
            forall id | id in choices :: CheckDenominator(id, read).None?
  {
    var faults := DenominatorFaults(choices, read);
    NoFault(faults);
    assert forall i | 0 <= i < |choices| :: faults[i] == CheckDenominator(choices[i], read) && choices[i] in choices;
  }

  lemma {:induction false} RoutesPass(choices: seq<FormulaId>, read: Reader, policyHash: nat)
    ensures var r := Available(Routes(choices, read, policyHash));
            && (r.Ok? <==> forall id | id in choices :: Tolerable(Calculate(id, read, policyHash)))
            && (r.Ok? ==> forall f :: f in r.value <==>
                exists id :: id in choices && Calculate(id, read, policyHash) == Ok(f))
  {
    var parts := Routes(choices, read, policyHash);
    AvailableFacts(parts);
    assert forall i | 0 <= i < |choices| ::
             parts[i] == Calculate(choices[i], read, policyHash) && parts[i] in parts && choices[i] in choices;
    forall f ensures Ok(f) in parts <==> exists id :: id in choices && Calculate(id, read, policyHash) == Ok(f) {
      if Ok(f) in parts {
        var i :| 0 <= i < |parts| && parts[i] == Ok(f);
        assert choices[i] in choices;
      }
      if id :| id in choices && Calculate(id, read, policyHash) == Ok(f) {
        var i :| 0 <= i < |choices| && choices[i] == id;
        assert parts[i] == Ok(f);
      }
    }
  }

  lemma {:induction false} AgreementIsMutual(choices: seq<FormulaId>, read: Reader, policyHash: nat,
                                             results: seq<Figure>)
    requires Available(Routes(choices, read, policyHash)) == Ok(results)
    ensures results != [] && AgreeOn(results) <==> RoutesAgree(Elements(choices), read, policyHash)
  {
    RoutesPass(choices, read, policyHash);
    if results != [] && AgreeOn(results) {
      assert results[0] in results;
      forall a, b | a in choices && b in choices && Calculate(a, read, policyHash).Ok? &&
      Calculate(b, read, policyHash).Ok?
        ensures AsDecimal(Calculate(a, read, policyHash).value.value) ==
                  AsDecimal(Calculate(b, read, policyHash).value.value)
      {
        assert Calculate(a, read, policyHash).value in results && Calculate(b, read, policyHash).value in results;
      }
    }
    if RoutesAgree(Elements(choices), read, policyHash) {
      var id :| id in Elements(choices) && Calculate(id, read, policyHash).Ok?;
      assert Calculate(id, read, policyHash).value in results;
      assert results[0] in results;
    }
  }

  lemma {:induction false} RoutesAgreeIff(choices: seq<FormulaId>, read: Reader, policyHash: nat)
    ensures var computed := Available(Routes(choices, read, policyHash));
            RoutesAgree(Elements(choices), read, policyHash) <==>
              computed.Ok? && computed.value != [] && AgreeOn(computed.value)
  {
    RoutesPass(choices, read, policyHash);
    var computed := Available(Routes(choices, read, policyHash));
    if computed.Ok? {
      AgreementIsMutual(choices, read, policyHash, computed.value);
    }
  }

  lemma {:induction false} RouteIsResult(choices: seq<FormulaId>, read: Reader, policyHash: nat, id: FormulaId)
    requires Available(Routes(choices, read, policyHash)).Ok? && id in choices && Calculate(id, read, policyHash).Ok?
    ensures Calculate(id, read, policyHash).value in Available(Routes(choices, read, policyHash)).value
  {
    RoutesPass(choices, read, policyHash);
  }

  /** Nothing in the procedure refuses, and the results of the routes agree. */
  ghost predicate Returns(choices: seq<FormulaId>, read: Reader, policyHash: nat) {
    var computed := Available(Routes(choices, read, policyHash));
    && Discovery(TouchOrder(choices), read).None? && Reconcile(read).None?
    && FirstFault(DenominatorFaults(choices, read)).None? && Tolerable(read(Dscr))
    && computed.Ok? && computed.value != [] && AgreeOn(computed.value)
  }

  lemma {:induction false} CoverReturnsIff(policy: Policy, read: Reader)
    ensures Cover(policy, read).Ok? <==> Choices(policy) != [] && Returns(Choices(policy), read, policy.hash)
  {
  }

  lemma {:induction false} SettlesIff(choices: seq<FormulaId>, read: Reader, policyHash: nat)
    ensures Settles(Elements(choices), read, policyHash) <==> Returns(choices, read, policyHash)
  {
    DiscoveryPasses(choices, read);
    DenominatorsPass(choices, read);
    RoutesAgreeIff(choices, read, policyHash);
    assert forall id :: id in Elements(choices) <==> id in choices;
  }

  lemma {:induction false} CoverIsFirstResult(policy: Policy, read: Reader)
    requires Cover(policy, read).Ok?
    ensures var computed := Available(Routes(Choices(policy), read, policy.hash));
            computed.Ok? && computed.value != [] && AgreeOn(computed.value) &&
            Cover(policy, read) == Ok(computed.value[0])
  {
  }

  lemma {:induction false} CoverIsEveryRoute(policy: Policy, read: Reader, id: FormulaId)
    requires Cover(policy, read).Ok? && id in Choices(policy) && Calculate(id, read, policy.hash).Ok?
    ensures AsDecimal(Calculate(id, read, policy.hash).value.value) == AsDecimal(Cover(policy, read).value.value)
  {
    CoverIsFirstResult(policy, read);
    RouteIsResult(Choices(policy), read, policy.hash, id);
  }

  /** A cover is returned exactly when the set of configured formulas settles it, and it is the value
      of every route that can be computed. */
  lemma {:induction false} CoverSettles(policy: Policy, read: Reader)
    ensures Cover(policy, read).Ok? <==> Choices(policy) != [] && Settles(Elements(Choices(policy)), read, policy.hash)
    ensures Cover(policy, read).Ok? ==>
              forall id | id in Choices(policy) && Calculate(id, read, policy.hash).Ok? ::
                AsDecimal(Calculate(id, read, policy.hash).value.value) == AsDecimal(Cover(policy, read).value.value)
  {
    CoverReturnsIff(policy, read);
    SettlesIff(Choices(policy), read, policy.hash);
    if Cover(policy, read).Ok? {
      forall id | id in Choices(policy) && Calculate(id, read, policy.hash).Ok?
        ensures AsDecimal(Calculate(id, read, policy.hash).value.value) == AsDecimal(Cover(policy, read).value.value)
      {
        CoverIsEveryRoute(policy, read, id);
      }
    }
  }

  // ----- consensus -----

  lemma {:induction false} WeightedHas(names: seq<Metric>, coefficients: seq<int>, i: nat)
    requires |names| == |coefficients| && i < |names| && coefficients[i] != 0
    ensures names[i] in Weighted(names, coefficients)
  {
    if i > 0 {
      WeightedHas(names[1..], coefficients[1..], i - 1);
    }
  }

  lemma {:induction false} OperandHasWeight(f: Formula, n: Metric)
    requires Shaped(f) && NonZeroSomewhere(f) && n in f.operands
    ensures n in Weighted(f.operands, f.numerator) || n in Weighted(f.operands, f.denominator)
  {
    var i :| 0 <= i < |f.operands| && f.operands[i] == n;
    if f.numerator[i] != 0 {
      WeightedHas(f.operands, f.numerator, i);
    } else {
      WeightedHas(f.operands, f.denominator, i);
    }
  }

  /** Every operand of a formula of the table is touched by one of the passes. */
  lemma {:induction false} OperandsAreTouched(id: FormulaId, n: Metric)
    requires n in FormulaOf(id).operands
    ensures n in OnSide(id, Numerator) || n in OnSide(id, Denominator)
  {
    NoOperandIsIdle(id);
    OperandHasWeight(FormulaOf(id), n);
  }

  /** On success no operand of any route has a refusal other than absence, and every route whose
      operands are all there evaluates to the returned number. */
  lemma {:induction false} CoverIsConsensus(policy: Policy, read: Reader, id: FormulaId)
    requires Cover(policy, read).Ok? && id in Choices(policy)
    ensures forall n | n in FormulaOf(id).operands :: Tolerable(read(n))
    ensures Cover(policy, read).value.value.Computed?
    ensures AllRead(FormulaOf(id).operands, read) ==>
              && ReadAll(FormulaOf(id).operands, read).Ok?
              && Numbers(ReadAll(FormulaOf(id).operands, read).value).Ok?
              && Values(id, Numbers(ReadAll(FormulaOf(id).operands, read).value).value) ==
                Some(Cover(policy, read).value.value.number)
  {
    CoverSettles(policy, read);
    assert id in Elements(Choices(policy));
    forall n | n in FormulaOf(id).operands ensures Tolerable(read(n)) {
      OperandsAreTouched(id, n);
    }
    CoverIsComputed(policy, read);
    CalculateFacts(id, read, policy.hash);
    if AllRead(FormulaOf(id).operands, read) {
      assert Tolerable(Calculate(id, read, policy.hash));
    }
  }

  lemma {:induction false} CoverIsComputed(policy: Policy, read: Reader)
    requires Cover(policy, read).Ok?
    ensures Cover(policy, read).value.value.Computed?
    ensures exists id :: id in Choices(policy) && Calculate(id, read, policy.hash) == Cover(policy, read)
  {
    CoverIsFirstResult(policy, read);
    var id := FirstResultHasRoute(Choices(policy), read, policy.hash);
    ComputesNumber(id, read, policy.hash);
  }

  lemma {:induction false} FirstResultHasRoute(choices: seq<FormulaId>, read: Reader, policyHash: nat)
    returns (id: FormulaId)
    requires Available(Routes(choices, read, policyHash)).Ok? &&
             Available(Routes(choices, read, policyHash)).value != []
    ensures id in choices && Calculate(id, read, policyHash) ==
              Ok(Available(Routes(choices, read, policyHash)).value[0])
  {
    RoutesPass(choices, read, policyHash);
    var results := Available(Routes(choices, read, policyHash)).value;
    assert results[0] in results;
    id :| id in choices && Calculate(id, read, policyHash) == Ok(results[0]);
  }

  lemma {:induction false} ComputesNumber(id: FormulaId, read: Reader, policyHash: nat)
    requires Calculate(id, read, policyHash).Ok?
    ensures Calculate(id, read, policyHash).value.value.Computed?
  {
    CalculateFacts(id, read, policyHash);
  }

  // ----- more evidence -----

  /** A reading that was there is still there with its number, or is refused for a reason other than
      absence. A reading that was absent may become anything. */
  ghost predicate KeepsReading(was: Result<Figure>, now: Result<Figure>) {
    was.Ok? ==>
      && now != Err(MetricMissing)
      && (now.Ok? ==> AsDecimal(now.value.value) == AsDecimal(was.value.value))
  }

  lemma {:induction false} SameNumbers(a: seq<Figure>, b: seq<Figure>)
    requires |a| == |b| && forall i | 0 <= i < |a| :: AsDecimal(a[i].value) == AsDecimal(b[i].value)
    ensures Numbers(a) == Numbers(b)
  {
    if a != [] {
      SameNumbers(a[1..], b[1..]);
    }
  }

  lemma {:induction false} NumbersKept(names: seq<Metric>, was: Reader, now: Reader)
    requires AllRead(names, was) && AllRead(names, now)
    requires forall n | n in names :: KeepsReading(was(n), now(n))
    ensures ReadAll(names, was).Ok? && ReadAll(names, now).Ok?
    ensures Numbers(ReadAll(names, was).value) == Numbers(ReadAll(names, now).value)
  {
    ReadAllFacts(names, was);
    ReadAllFacts(names, now);
    assert forall i | 0 <= i < |names| :: names[i] in names;
    var a, b := ReadAll(names, was).value, ReadAll(names, now).value;
    forall i | 0 <= i < |names| ensures AsDecimal(a[i].value) == AsDecimal(b[i].value) {
      assert KeepsReading(was(names[i]), now(names[i]));
    }
    SameNumbers(a, b);
  }

  /** If the readings of its operands are kept, a calculation cannot go missing or change its number. */
  lemma {:induction false} CalculationKept(id: FormulaId, was: Reader, now: Reader, policyHash: nat)
    requires Calculate(id, was, policyHash).Ok?
    requires forall n | n in FormulaOf(id).operands :: KeepsReading(was(n), now(n))
    ensures Calculate(id, now, policyHash) != Err(MetricMissing)
    ensures Calculate(id, now, policyHash).Ok? ==>
              AsDecimal(Calculate(id, was, policyHash).value.value) ==
                AsDecimal(Calculate(id, now, policyHash).value.value)
  {
    CalculateFacts(id, was, policyHash);
    CalculateFacts(id, now, policyHash);
    if Calculate(id, now, policyHash).Ok? {
      NumbersKept(FormulaOf(id).operands, was, now);
    }
  }

  /** If readings are kept, a cover is kept: two corpora that both yield one yield the same number. */
  lemma {:induction false} CoverIsMonotone(policy: Policy, was: Reader, now: Reader)
    requires Cover(policy, was).Ok? && Cover(policy, now).Ok?
    requires forall id, n | id in Choices(policy) && n in FormulaOf(id).operands :: KeepsReading(was(n), now(n))
    ensures AsDecimal(Cover(policy, was).value.value) == AsDecimal(Cover(policy, now).value.value)
  {
    CoverIsComputed(policy, was);
    var id :| id in Choices(policy) && Calculate(id, was, policy.hash) == Cover(policy, was);
    var names := FormulaOf(id).operands;
    CalculateFacts(id, was, policy.hash);
    CoverIsConsensus(policy, was, id);
    CoverIsConsensus(policy, now, id);
    assert AllRead(names, now) by {
      forall n | n in names ensures now(n).Ok? {
        assert KeepsReading(was(n), now(n)) && Tolerable(now(n));
      }
    }
    NumbersKept(names, was, now);
  }

  // ----- reconciliation -----

  /** The numbers on which a computed route stands. */
  lemma {:induction false} RouteNumbers(policy: Policy, read: Reader, id: FormulaId) returns (w: seq<real>)
    requires Cover(policy, read).Ok? && id in Choices(policy) && AllRead(FormulaOf(id).operands, read)
    ensures |w| == |FormulaOf(id).operands|
    ensures forall i | 0 <= i < |w| :: Says(read, FormulaOf(id).operands[i], w[i])
    ensures Cover(policy, read).value.value.Computed?
    ensures Values(id, w) == Some(Cover(policy, read).value.value.number)
  {
    var names := FormulaOf(id).operands;
    CoverIsConsensus(policy, read, id);
    ReadAllFacts(names, read);
    NumbersFacts(ReadAll(names, read).value);
    w := Numbers(ReadAll(names, read).value).value;
  }

  predicate IsOperating(id: FormulaId) { id == NoiOperatingTotal || id == NoiOperatingSchedule }

  predicate IsPnl(id: FormulaId) { id == NoiPnlTotal || id == NoiPnlSchedule }

  /** What the two debt services are: the reported total, or the sum of the schedule. */
  ghost predicate IsService(read: Reader, total: bool, service: real) {
    if total then Says(read, DebtService, service)
    else
      exists p, i, l ::
        && Says(read, AllLoanPrincipal, p) && Says(read, AllLoanInterest, i) && Says(read, AdditionalLease, l)
        && service == p + i + l
  }

  ghost predicate Stands(read: Reader, id: FormulaId, w: seq<real>, cover: real) {
    && |w| == |FormulaOf(id).operands|
    && (forall i | 0 <= i < |w| :: Says(read, FormulaOf(id).operands[i], w[i]))
    && Values(id, w) == Some(cover)
  }

  /** A computed operating route is an equation between its operands and the cover. */
  lemma {:induction false} OperatingEquation(read: Reader, id: FormulaId, w: seq<real>, cover: real)
    returns (service: real)
    requires IsOperating(id) && Stands(read, id, w, cover)
    ensures |w| >= 2 && Says(read, OperatingRevenue, w[0]) && Says(read, OperatingExpenses, w[1])
    ensures IsService(read, id == NoiOperatingTotal, service) && service > 0.0
    ensures cover * service == w[0] - w[1]
  {
    if id == NoiOperatingTotal {
      service := w[2];
      assert w == [w[0], w[1], w[2]];
      OperatingCover(w[0], w[1], w[2], cover);
    } else {
      service := w[2] + w[3] + w[4];
      assert w == [w[0], w[1], w[2], w[3], w[4]];
      OperatingScheduleCover(w[0], w[1], w[2], w[3], w[4], cover);
      assert Says(read, AllLoanPrincipal, w[2]) && Says(read, AllLoanInterest, w[3]) &&
             Says(read, AdditionalLease, w[4]);
    }
  }

  /** The same for a profit-and-loss route. */
  lemma {:induction false} PnlEquation(read: Reader, id: FormulaId, w: seq<real>, cover: real) returns (service: real)
    requires IsPnl(id) && Stands(read, id, w, cover)
    ensures |w| >= 3 && Says(read, OperatingRevenue, w[0]) && Says(read, PnlTotalExpenses, w[1]) &&
            Says(read, FinanceCost, w[2])
    ensures IsService(read, id == NoiPnlTotal, service) && service > 0.0
    ensures cover * service == w[0] - w[1] + w[2]
  {
    if id == NoiPnlTotal {
      service := w[3];
      assert w == [w[0], w[1], w[2], w[3]];
      PnlCover(w[0], w[1], w[2], w[3], cover);
    } else {
      service := PnlScheduleEquation(read, w, cover);
    }
  }

  lemma {:induction false} PnlScheduleEquation(read: Reader, w: seq<real>, cover: real) returns (service: real)
    requires Stands(read, NoiPnlSchedule, w, cover)
    ensures |w| == 6 && IsService(read, false, service) && service > 0.0
    ensures cover * service == w[0] - w[1] + w[2]
  {
    service := w[3] + w[4] + w[5];
    assert w == [w[0], w[1], w[2], w[3], w[4], w[5]];
    PnlScheduleCover(w[0], w[1], w[2], w[3], w[4], w[5], cover);
    assert Says(read, AllLoanPrincipal, w[3]) && Says(read, AllLoanInterest, w[4]) && Says(read, AdditionalLease, w[5]);
  }

  lemma {:induction false} SameService(read: Reader, a: bool, s: real, b: bool, t: real)
    requires IsService(read, a, s) && IsService(read, b, t)
    requires forall x, y | IsService(read, true, x) && IsService(read, false, y) :: x == y
    ensures s == t
  {
  }

  lemma {:induction false} EquationsCombine(read: Reader, a: FormulaId, b: FormulaId, w: seq<real>, v: seq<real>,
                                            cover: real)
    requires IsOperating(a) && Stands(read, a, w, cover) && IsPnl(b) && Stands(read, b, v, cover)
    requires forall x, y | IsService(read, true, x) && IsService(read, false, y) :: x == y
    ensures |w| >= 2 && Says(read, OperatingExpenses, w[1])
    ensures |v| >= 3 && Says(read, PnlTotalExpenses, v[1]) && Says(read, FinanceCost, v[2])
    ensures w[1] == v[1] - v[2]
  {
    var s := OperatingEquation(read, a, w, cover);
    var t := PnlEquation(read, b, v, cover);
    SameService(read, a == NoiOperatingTotal, s, b == NoiPnlTotal, t);
    assert cover * s == cover * t;
    assert w[0] == v[0];
  }

  /** Success reconciles the debt service: the schedule of three is there in full or not at all; in full
      it adds up to a reported total, so a route's debt service is one number; without it, a reported
      total with both term components is their sum. */
  lemma {:induction false} CoverReconcilesService(policy: Policy, read: Reader)
    requires Cover(policy, read).Ok?
    ensures AllRead(SCHEDULE, read) || AllMissing(SCHEDULE, read)
    ensures forall a, b | IsService(read, true, a) && IsService(read, false, b) :: a == b
    ensures AllMissing(SCHEDULE, read) && AllRead(TERM, read) ==>
              exists p, i ::
                Says(read, PrincipalDue, p) && Says(read, TermInterest, i) && Says(read, DebtService, p + i)
  {
    CoverSettles(policy, read);
    NoPartialSchedule(read);
    if AllRead(SCHEDULE, read) {
      var p, i, l := ScheduleAddsUp(read);
    } else {
      assert AllLoanPrincipal in SCHEDULE;
      if AllRead(TERM, read) {
        var t, p, i := TermAddsUp(read);
      }
    }
  }

  /** Success reconciles the numerator: with an operating and a profit-and-loss route both computed, the
      operating expenses are the total expenses less the finance cost. */
  lemma {:induction false} CoverReconcilesExpenses(policy: Policy, read: Reader, a: FormulaId, b: FormulaId)
    returns (operating: real, total: real, finance: real)
    requires Cover(policy, read).Ok? && a in Choices(policy) && b in Choices(policy)
    requires IsOperating(a) && AllRead(FormulaOf(a).operands, read)
    requires IsPnl(b) && AllRead(FormulaOf(b).operands, read)
    ensures Says(read, OperatingExpenses, operating) && Says(read, PnlTotalExpenses, total) &&
            Says(read, FinanceCost, finance)
    ensures operating == total - finance
  {
    CoverReconcilesService(policy, read);
    var w := RouteNumbers(policy, read, a);
    var v := RouteNumbers(policy, read, b);
    EquationsCombine(read, a, b, w, v, Cover(policy, read).value.value.number);
    operating, total, finance := w[1], v[1], v[2];
  }
}
