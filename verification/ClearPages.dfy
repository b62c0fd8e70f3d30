/** Evidence that suffices: what one unambiguous audited page lets the gate read and compute. */
module ClearPages {
  import opened Outcomes
  import opened Decimals
  import opened Corpus
  import opened Policies
  import opened BasisResolution
  import opened Classification
  import opened EvidenceGate
  import opened EvidenceTheorems
  import opened Formulas
  import opened Calculations
  import opened DebtServiceCheck
  import opened DscrStages
  import opened DscrTheorems
  import opened DscrEvidence

  /** The facts that a page settles: its borrower, year, money unit and basis. */
  datatype Facts = Facts(entity: Identity, year: nat, unit: MoneyUnit, basis: Basis)

  /** A page of an audited report on which everything but the rows is settled. */
  predicate IsClear(c: Chunk, k: Facts) {
    && !c.table && |c.provenance| == 1
    && c.types == {AuditedFinancials} && c.sectionTypes * INCOMPATIBLE == {}
    && c.owners == {k.entity}
    && k.year in c.years && (forall y | y in c.years :: y <= k.year)
    && c.units == {k.unit} && c.bases == {k.basis}
  }

  /** A dated rule for audited reports. */
  predicate IsDated(rule: Rule) {
    rule.sources == {AuditedFinancials} && rule.requirePeriod
  }

  /** A statement rule: a number from audited reports, dated and with a basis. */
  predicate IsStatement(rule: Rule) {
    && IsDated(rule) && rule.kind in {Money, Percent, Ratio} && rule.requireBasis
    && !rule.nicLevel && !rule.headingPattern
  }

  /** The factor that a number of some kind is converted with, and the unit it is returned in. */
  function FactorOf(gate: Gate, kind: Kind, k: Facts): Numeral {
    if kind == Money then gate.policy.factors.Of(k.unit) else ONE
  }

  function UnitOf(kind: Kind): FigureUnit {
    if kind == Money then InrCrore else OwnUnit(kind)
  }

  /** The page has just one row for the metric, a number in its year, with its sign if it is a percentage. */
  predicate Carries(c: Chunk, k: Facts, kind: Kind, metric: Metric, amount: Numeral) {
    metric in c.scans && (kind == Percent ==> metric in c.percentShown) &&
    match c.scans[metric].lines
    case Refused(_) => false
    case Rows(rows) => |rows| == 1 && rows[0].period == Some(k.year) && rows[0].raw.number == Some(amount)
  }

  lemma {:induction false} OnlyDocument(c: Chunk, k: Facts)
    requires IsClear(c, k)
    ensures AllOwned({c}) && Documents({c}) == {Owner(c)} && Document({c}, Owner(c)) == {c}
    ensures ProfileIn({c}, Owner(c)) == Profile(Owner(c), {AuditedFinancials}, Some(k.entity), false)
  {
    assert Document({c}, Owner(c)) == {c};
    var items := {c};
    var explicit, found := set x, i | x in items && i in x.owners :: i, set x, t | x in items && t in x.types :: t;
    assert explicit == {k.entity} && found == {AuditedFinancials};
    assert |explicit| == 1 && Sole(explicit) == Some(k.entity);
    assert ProfileOf(Owner(c), items) == Profile(Owner(c), {AuditedFinancials}, Some(k.entity), false);
  }

  lemma {:induction false} PageIsSource(gate: Gate, rule: Rule, c: Chunk, k: Facts)
    requires IsClear(c, k) && IsDated(rule)
    ensures AllOwned({c}) && SourceDocs(gate, rule, {c}) == {Owner(c)}
    ensures SourceYears(gate, rule, {c}) == Elements(c.years)
  {
    OnlyDocument(c, k);
    assert AuditedFinancials in {AuditedFinancials} * Allowed(rule);
    assert SourceDocs(gate, rule, {c}) == {Owner(c)};
    assert (set x | x in {c} && Owner(x) in SourceDocs(gate, rule, {c})) == {c};
    forall y ensures y in YearsIn({c}) <==> y in Elements(c.years) {
    }
  }

  lemma {:induction false} PageAnchors(gate: Gate, c: Chunk, k: Facts)
    requires IsClear(c, k)
    ensures AllOwned({c}) && AnchorDocs(gate, {c}) == {Owner(c)} && Sole(AnchoredEntities(gate, {c})) == Some(k.entity)
  {
    OnlyDocument(c, k);
    assert AuditedFinancials in {AuditedFinancials} * {Registration, Agreement, AuditedFinancials, Pan};
    assert forall d :: d in Documents({c}) ==> !IsRegistration(ProfileIn({c}, d));
    assert AnchorDocs(gate, {c}) == {Owner(c)};
    assert AnchoredEntities(gate, {c}) == {k.entity};
    assert |{k.entity}| == 1;
  }

  lemma {:induction false} PageOpens(gate: Gate, rule: Rule, c: Chunk, k: Facts)
    requires IsClear(c, k) && IsDated(rule)
    ensures AllOwned({c}) && Opening(gate, rule, {c}) == Ok(Setting(rule, k.entity, Some(k.year)))
  {
    PageIsSource(gate, rule, c, k);
    PageAnchors(gate, c, k);
    LatestYear(c, k);
    PageIsNotVendorReport(c, k);
  }

  lemma {:induction false} LatestYear(c: Chunk, k: Facts)
    requires IsClear(c, k)
    ensures Elements(c.years) != {} && MaxOf(Elements(c.years)) == k.year
  {
    assert k.year in Elements(c.years);
  }

  lemma {:induction false} PageIsNotVendorReport(c: Chunk, k: Facts)
    requires IsClear(c, k)
    ensures AllOwned({c}) && forall d | d in Documents({c}) :: !ProfileIn({c}, d).ambiguous
  {
    OnlyDocument(c, k);
  }

  lemma {:induction false} PageIsCompatible(gate: Gate, c: Chunk, k: Facts)
    requires IsClear(c, k)
    ensures SingleOwner(c) && !Conflicts(gate, {c}, c)
  {
    forall p | p in Pages(c)
      ensures TypesOnPage(gate.policy.sectionPatterns, {c}, PageKey(Owner(c), p)) * INCOMPATIBLE == {}
    {
      var hits := HitsIn(gate.policy.sectionPatterns, ChunksOn({c}, PageKey(Owner(c), p)));
      assert hits <= c.sectionTypes;
      forall t | t in INCOMPATIBLE ensures t !in hits {
        assert t in c.sectionTypes ==> t in c.sectionTypes * INCOMPATIBLE;
      }
    }
  }

  lemma {:induction false} PageNames(c: Chunk, k: Facts, period: Option<nat>)
    requires IsClear(c, k)
    ensures OnPages({c}, Pages(c)) == {c} && Sole(UnitsIn({c})) == Some(k.unit)
    ensures BasisOf(c, {c}, period).Ok? && BasisOf(c, {c}, period).value.basis == k.basis
  {
    var p := c.provenance[0];
    assert p.page in Pages(c) * Pages(c);
    assert OnPages({c}, Pages(c)) == {c};
    assert BasesIn({c}) == {k.basis} && |{k.basis}| == 1;
    assert UnitsIn({c}) == {k.unit} && |{k.unit}| == 1;
    BasisIsUnambiguous(c, {c}, period, k.basis);
  }

  /** The context of a clear page for rows of its year. */
  lemma {:induction false} PageShares(gate: Gate, metric: Metric, st: Setting, c: Chunk, k: Facts, row: Row)
    returns (shared: Shared)
    requires IsClear(c, k) && IsStatement(st.rule) && st.entity == k.entity && row.period == Some(k.year)
    requires st.rule.kind == Percent ==> metric in c.percentShown
    ensures SharedOf(gate, metric, st, Profile(Owner(c), {AuditedFinancials}, Some(k.entity), false), {c}, c, false,
                     [row]) == Ok(shared)
    ensures shared.factor == FactorOf(gate, st.rule.kind, k)
    ensures shared.basis.Some? && shared.basis.value.basis == k.basis
  {
    PageNames(c, k, row.period);
    assert PeriodsOf([row]) == {row.period} && |{row.period}| == 1;
    assert Sole(PeriodsOf([row])) == Some(row.period);
    shared := SharedOf(gate, metric, st, Profile(Owner(c), {AuditedFinancials}, Some(k.entity), false), {c}, c, false,
                       [row]).value;
  }

  lemma {:induction false} RowIsRead(gate: Gate, metric: Metric, st: Setting, source: Profile, c: Chunk, shared: Shared,
                                     row: Row, amount: Numeral)
    requires source.types == {AuditedFinancials} && IsStatement(st.rule) && !c.table && |c.provenance| == 1
    requires metric != BorrowerName && metric != Region && row.raw.number == Some(amount)
    ensures source.types * Allowed(st.rule) != {}
    ensures FigureOf(gate, metric, st, source, c, shared, row).Ok?
    ensures var f := FigureOf(gate, metric, st, source, c, shared, row).value;
            && f.metric == metric && f.value == Amount(amount.Times(shared.factor)) && f.unit == UnitOf(st.rule.kind)
            && f.period == row.period && f.workings == None && !f.receipt.nicMapped
            && f.receipt.policyHash == gate.policy.hash && f.receipt.documentType == AuditedFinancials
            && f.receipt.entity == st.entity && f.receipt.period == row.period
            && f.receipt.basis == (if shared.basis.Some? then Some(shared.basis.value.basis) else None)
  {
    assert AuditedFinancials in source.types * Allowed(st.rule);
    assert source.types * Allowed(st.rule) == {AuditedFinancials};
  }

  /** The rows of a clear page: its one row, or none. */
  lemma {:induction false} PageRows(c: Chunk, k: Facts, metric: Metric, amount: Numeral, st: Setting) returns (row: Row)
    requires Carries(c, k, st.rule.kind, metric, amount) && IsStatement(st.rule) && st.latest == Some(k.year)
    ensures row.period == Some(k.year) && row.raw.number == Some(amount)
    ensures RowsOf(c, metric, st.rule, st.entity) == Ok([row])
    ensures Current([row], st.latest) == [row] && !HasOlder([row], st.latest)
  {
    row := c.scans[metric].lines.rows[0];
    assert c.scans[metric].lines.rows == [row];
    assert Current([], st.latest) == [] && [row][..0] == [];
    assert IsCurrent(row, st.latest);
  }

  lemma {:induction false} PageIsJudged(gate: Gate, metric: Metric, st: Setting, c: Chunk, k: Facts, amount: Numeral)
    returns (f: Figure)
    requires IsClear(c, k) && IsStatement(st.rule) && st.entity == k.entity && st.latest == Some(k.year)
    requires Carries(c, k, st.rule.kind, metric, amount) && metric != BorrowerName && metric != Region
    ensures AllOwned({c}) && Heard(gate, st.rule, {c}, c) && Judge(gate, metric, st, {c}, c) == Ok(Finding([f], false))
    ensures IsAmount(gate, k, st.rule.kind, metric, amount, f)
  {
    OnlyDocument(c, k);
    PageIsSource(gate, st.rule, c, k);
    PageIsCompatible(gate, c, k);
    var row := PageRows(c, k, metric, amount, st);
    var shared := PageShares(gate, metric, st, c, k, row);
    var source := ProfileIn({c}, Owner(c));
    RowIsRead(gate, metric, st, source, c, shared, row, amount);
    f := FigureOf(gate, metric, st, source, c, shared, row).value;
    var parts := RowParts(gate, metric, st, source, c, shared, [row]);
    assert parts == [Ok(Finding([f], false))];
    GatherOne(parts[0]);
  }

  lemma {:induction false} GatherOne(part: Result<Finding>)
    ensures Gather([part]) == part
  {
    assert [part][..0] == [];
    assert Gather([]) == Ok(NOTHING);
    if part.Ok? {
      assert [] + part.value.candidates == part.value.candidates;
    }
  }

  /** The figure that a row of a clear page gives. */
  predicate IsAmount(gate: Gate, k: Facts, kind: Kind, metric: Metric, amount: Numeral, f: Figure) {
    && f.metric == metric && f.unit == UnitOf(kind) && f.value == Amount(amount.Times(FactorOf(gate, kind, k)))
    && f.period == Some(k.year) && f.workings == None && !f.receipt.nicMapped
    && f.receipt.policyHash == gate.policy.hash && f.receipt.documentType == AuditedFinancials
    && f.receipt.entity == k.entity && f.receipt.period == Some(k.year) && f.receipt.basis == Some(k.basis)
  }

  lemma {:induction false} OneCandidateDecides(rule: Rule, year: nat, f: Figure)
    requires rule.requirePeriod && f.period == Some(year)
    ensures Deciding(rule, Some(year), {f}, false) == Ok({f}) && Sole(Keys({f})) == Some(KeyFor(f))
  {
    assert Preferred({f}) == {f};
    assert DatedYears({f}) == {year};
    assert InYear({f}, year) == {f};
    assert Keys({f}) == {KeyFor(f)} && |{KeyFor(f)}| == 1;
  }

  lemma {:induction false} PageIsClear(gate: Gate, metric: Metric, st: Setting, c: Chunk, k: Facts)
    requires IsClear(c, k) && AllOwned({c})
    requires Heard(gate, st.rule, {c}, c) && Judge(gate, metric, st, {c}, c).Ok?
    ensures AllClear(gate, metric, st, {c})
  {
    OnlyDocument(c, k);
    assert !MixedAudit(ProfileIn({c}, Owner(c)));
    forall d | d in Documents({c}) ensures SourceClear(gate, metric, st, {c}, d) {
    }
  }

  lemma {:induction false} PageCandidates(gate: Gate, metric: Metric, st: Setting, c: Chunk)
    requires AllOwned({c}) && Heard(gate, st.rule, {c}, c) && Judge(gate, metric, st, {c}, c).Ok?
    ensures CandidatesOf(gate, metric, st, {c}) == Elements(Judge(gate, metric, st, {c}, c).value.candidates)
  {
    var fs := Judge(gate, metric, st, {c}, c).value.candidates;
    forall f ensures f in CandidatesOf(gate, metric, st, {c}) <==> f in Elements(fs) {
    }
  }

  lemma {:induction false} PagePassed(gate: Gate, metric: Metric, st: Setting, c: Chunk)
    requires AllOwned({c})
    ensures PassedOlder(gate, metric, st, {c}) <==> SpeaksOlder(gate, metric, st, {c}, c)
  {
    assert c in {c};
    if PassedOlder(gate, metric, st, {c}) {
      var x :| x in {c} && SpeaksOlder(gate, metric, st, {c}, x);
      assert x == c;
    }
  }

  /** The verdict on a page from what is gathered there. */
  lemma {:induction false} PageVerdict(gate: Gate, metric: Metric, c: Chunk, k: Facts, st: Setting, found: Finding)
    requires RuleOf(gate.policy, metric).Some? && IsClear(c, k) && AllOwned({c})
    requires Opening(gate, RuleOf(gate.policy, metric).value, {c}) == Ok(st)
    requires Heard(gate, st.rule, {c}, c) && Judge(gate, metric, st, {c}, c) == Ok(found)
    ensures VerdictOn(gate, metric, {c}) ==
              VerdictFrom(Deciding(st.rule, st.latest, Elements(found.candidates), found.older))
  {
    PageIsClear(gate, metric, st, c, k);
    PageCandidates(gate, metric, st, c);
    PagePassed(gate, metric, st, c);
  }

  lemma {:induction false} SoleCandidateSettles(gate: Gate, metric: Metric, cs: set<Chunk>, st: Setting, f: Figure)
    requires AllOwned(cs) && RuleOf(gate.policy, metric).Some? &&
             Opening(gate, RuleOf(gate.policy, metric).value, cs) == Ok(st)
    requires AllClear(gate, metric, st, cs) && CandidatesOf(gate, metric, st, cs) == {f} &&
             !PassedOlder(gate, metric, st, cs)
    requires st.rule.requirePeriod && st.latest.Some? && f.period == st.latest
    ensures VerdictOn(gate, metric, cs) == Settled(KeyFor(f))
  {
    OneCandidateDecides(st.rule, st.latest.value, f);
  }

  lemma {:induction false} SoleVoiceSettles(gate: Gate, metric: Metric, st: Setting, c: Chunk, k: Facts, f: Figure)
    requires IsClear(c, k) && AllOwned({c}) && RuleOf(gate.policy, metric).Some? && st.rule.requirePeriod
    requires Opening(gate, RuleOf(gate.policy, metric).value, {c}) == Ok(st) && st.latest.Some? && f.period == st.latest
    requires Heard(gate, st.rule, {c}, c) && Judge(gate, metric, st, {c}, c) == Ok(Finding([f], false))
    ensures CandidatesOf(gate, metric, st, {c}) == {f} && VerdictOn(gate, metric, {c}) == Settled(KeyFor(f))
  {
    assert Elements([f]) == {f};
    PageIsClear(gate, metric, st, c, k);
    PageCandidates(gate, metric, st, c);
    PagePassed(gate, metric, st, c);
    SoleCandidateSettles(gate, metric, {c}, st, f);
  }

  /** One unambiguous audited page with one row for a metric in its latest year is enough: the gate reads the row,
      converted from the unit of the page. */
  lemma {:induction false} PageIsRead(gate: Gate, metric: Metric, rule: Rule, c: Chunk, k: Facts, amount: Numeral)
    requires RuleOf(gate.policy, metric) == Some(rule) && IsStatement(rule)
    requires IsClear(c, k) && Carries(c, k, rule.kind, metric, amount) && metric != BorrowerName && metric != Region
    ensures Direct(gate, metric, [c]).Ok? &&
            IsAmount(gate, k, rule.kind, metric, amount, Direct(gate, metric, [c]).value)
  {
    var st := Setting(rule, k.entity, Some(k.year));
    PageOpens(gate, rule, c, k);
    var f := PageIsJudged(gate, metric, st, c, k, amount);
    assert Elements([c]) == {c};
    SoleVoiceSettles(gate, metric, st, c, k, f);
    SoleFigureIsReturned(gate, metric, [c], st, f);
  }

  lemma {:induction false} SoleFigureIsReturned(gate: Gate, metric: Metric, chunks: seq<Chunk>, st: Setting, f: Figure)
    requires AllOwned(Elements(chunks)) && RuleOf(gate.policy, metric).Some?
    requires VerdictOn(gate, metric, Elements(chunks)) == Settled(KeyFor(f))
    requires Opening(gate, RuleOf(gate.policy, metric).value, Elements(chunks)) == Ok(st)
    requires CandidatesOf(gate, metric, st, Elements(chunks)) == {f}
    ensures Direct(gate, metric, chunks) == Ok(f)
  {
    var cs, rule := Elements(chunks), RuleOf(gate.policy, metric).value;
    DirectReachesVerdict(gate, metric, chunks);
    var setting, voice := FigureHasVoice(gate, metric, chunks);
    OpeningFixes(gate, rule, cs);
    FixedOnce(gate, rule, cs, setting, st);
    assert Direct(gate, metric, chunks).value in CandidatesOf(gate, metric, st, cs);
  }

  /** A page that has nothing scanned for a metric leaves it missing. */
  lemma {:induction false} PageLacks(gate: Gate, metric: Metric, c: Chunk, k: Facts)
    requires RuleOf(gate.policy, metric).Some? && IsDated(RuleOf(gate.policy, metric).value)
    requires IsClear(c, k) && metric !in c.scans
    ensures Direct(gate, metric, [c]) == Err(MetricMissing)
  {
    var rule := RuleOf(gate.policy, metric).value;
    var st := Setting(rule, k.entity, Some(k.year));
    PageOpens(gate, rule, c, k);
    NothingIsJudged(gate, metric, st, c, k);
    PageVerdict(gate, metric, c, k, st, Finding([], false));
    assert Elements([c]) == {c};
    DirectReachesVerdict(gate, metric, [c]);
  }

  lemma {:induction false} NothingIsJudged(gate: Gate, metric: Metric, st: Setting, c: Chunk, k: Facts)
    requires IsClear(c, k) && IsDated(st.rule) && metric !in c.scans
    ensures AllOwned({c}) && Heard(gate, st.rule, {c}, c) && Judge(gate, metric, st, {c}, c) == Ok(Finding([], false))
  {
    OnlyDocument(c, k);
    PageIsSource(gate, st.rule, c, k);
    assert Current([], st.latest) == [] && !HasOlder([], st.latest);
  }

  // ----- a cover from one page -----

  predicate IsNumber(f: Figure, x: real) {
    AsDecimal(f.value) == Ok(x)
  }

  lemma {:induction false} TermIsPartial(read: Reader)
    requires read(DebtService).Ok? && read(PrincipalDue) == Err(MetricMissing) &&
             read(TermInterest) == Err(MetricMissing)
    requires AllMissing(SCHEDULE, read)
    ensures Reconcile(read).None?
  {
    NothingFound(SCHEDULE, read);
    var parts := Reads(TERM, read);
    AvailableFacts(parts);
    AvailableReads(TERM, read);
    assert PrincipalDue in TERM;
    assert forall r | r in parts :: Tolerable(r);
    var values := Available(parts).value;
    assert |values| != 3;
  }

  function Kept(name: Metric, coefficient: int): seq<Metric> {
    if coefficient != 0 then [name] else []
  }

  lemma {:induction false} WeightedCons(name: Metric, names: seq<Metric>, coefficient: int, coefficients: seq<int>)
    ensures Weighted([name] + names, [coefficient] + coefficients) ==
              Kept(name, coefficient) + Weighted(names, coefficients)
  {
    assert ([name] + names)[1..] == names && ([coefficient] + coefficients)[1..] == coefficients;
  }

  lemma {:induction false} WeightedOfThree(a: Metric, b: Metric, c: Metric, x: int, y: int, z: int)
    ensures Weighted([a, b, c], [x, y, z]) == Kept(a, x) + (Kept(b, y) + Kept(c, z))
  {
    WeightedCons(a, [b, c], x, [y, z]);
    WeightedCons(b, [c], y, [z]);
    WeightedCons(c, [], z, []);
    assert [a, b, c] == [a] + [b, c] && [b, c] == [b] + [c] && [c] == [c] + [];
    assert [x, y, z] == [x] + [y, z] && [y, z] == [y] + [z] && [z] == [z] + [];
    assert Kept(c, z) + [] == Kept(c, z);
  }

  lemma {:induction false} OperatingSides()
    ensures OnSide(NoiOperatingTotal, Numerator) == [OperatingRevenue, OperatingExpenses]
    ensures OnSide(NoiOperatingTotal, Denominator) == [DebtService]
  {
    WeightedOfThree(OperatingRevenue, OperatingExpenses, DebtService, 1, -1, 0);
    WeightedOfThree(OperatingRevenue, OperatingExpenses, DebtService, 0, 0, 1);
  }

  lemma {:induction false} PositiveService(read: Reader, service: Figure, s: real)
    requires read(DebtService) == Ok(service) && IsNumber(service, s) && s > 0.0
    ensures CheckDenominator(NoiOperatingTotal, read).None?
  {
    OperatingSides();
    var answers := Reads([DebtService], read);
    assert answers == [Ok(service)] && answers[1..] == [];
    assert Figures(answers) == [service] by { assert Figures([]) == []; }
    assert [service][1..] == [];
    assert AnyNegative([]) == Ok(false);
    assert AnyNegative([service]) == Ok(false);
    NumbersFacts([service]);
    assert Numbers([service]).Ok? && Numbers([service]).value == [s];
    assert [s][1..] == [] && SumOf([]) == 0.0;
    assert SumOf([s]) == s;
  }

  lemma {:induction false} OperatingRouteComputes(read: Reader, hash: nat, figures: seq<Figure>, r: real, e: real,
                                                  s: real)
    requires |figures| == 3 && ContextHolds(figures, hash)
    requires read(OperatingRevenue) == Ok(figures[0]) && read(OperatingExpenses) == Ok(figures[1]) &&
             read(DebtService) == Ok(figures[2])
    requires IsNumber(figures[0], r) && IsNumber(figures[1], e) && IsNumber(figures[2], s) && e >= 0.0 && s > 0.0
    ensures Calculate(NoiOperatingTotal, read, hash).Ok?
  {
    var f := FormulaOf(NoiOperatingTotal);
    ReadAllFacts(f.operands, read);
    assert ReadAll(f.operands, read).value == figures;
    NumbersFacts(figures);
    assert Numbers(figures).value == [r, e, s];
    DotOf3([r, e, s], f.denominator);
    assert SignsAllowed(f, [r, e, s]);
  }

  /** Three readings in one context make a cover on the operating route: revenue less expenses over debt service. */
  lemma {:induction false} OperatingRouteSuffices(policy: Policy, read: Reader, figures: seq<Figure>, r: real, e: real,
                                                  s: real) returns (cover: real)
    requires Choices(policy) == [NoiOperatingTotal] && |figures| == 3 && ContextHolds(figures, policy.hash)
    requires read(OperatingRevenue) == Ok(figures[0]) && read(OperatingExpenses) == Ok(figures[1]) &&
             read(DebtService) == Ok(figures[2])
    requires IsNumber(figures[0], r) && IsNumber(figures[1], e) && IsNumber(figures[2], s) && e >= 0.0 && s > 0.0
    requires AllMissing(SCHEDULE + [PrincipalDue, TermInterest, Dscr], read)
    ensures Cover(policy, read).Ok? && AsDecimal(Cover(policy, read).value.value) == Ok(cover)
    ensures cover * s == r - e
  {
    AllRestMissing(read);
    OperatingRouteComputes(read, policy.hash, figures, r, e, s);
    cover := OperatingNumber(read, policy.hash, figures, r, e, s);
    TermIsPartial(read);
    PositiveService(read, figures[2], s);
    SidesTolerable(read);
    CoverOfOneRoute(policy, read);
  }

  lemma {:induction false} AllRestMissing(read: Reader)
    requires AllMissing(SCHEDULE + [PrincipalDue, TermInterest, Dscr], read)
    ensures AllMissing(SCHEDULE, read)
    ensures read(PrincipalDue) == Err(MetricMissing) && read(TermInterest) == Err(MetricMissing) &&
            read(Dscr) == Err(MetricMissing)
  {
    var all := SCHEDULE + [PrincipalDue, TermInterest, Dscr];
    assert all[3] == PrincipalDue && all[4] == TermInterest && all[5] == Dscr;
    assert forall n | n in SCHEDULE :: n in all;
  }

  ghost predicate BothSidesTolerable(read: Reader) {
    forall side, n | n in OnSide(NoiOperatingTotal, side) :: Tolerable(read(n))
  }

  lemma {:induction false} SidesTolerable(read: Reader)
    requires read(OperatingRevenue).Ok? && read(OperatingExpenses).Ok? && read(DebtService).Ok?
    ensures BothSidesTolerable(read)
  {
    OperatingSides();
    forall side, n | n in OnSide(NoiOperatingTotal, side) ensures Tolerable(read(n)) {
      assert side == Numerator || side == Denominator;
    }
  }

  lemma {:induction false} CoverOfOneRoute(policy: Policy, read: Reader)
    requires Choices(policy) == [NoiOperatingTotal] && BothSidesTolerable(read)
    requires Reconcile(read).None? && CheckDenominator(NoiOperatingTotal, read).None? && Tolerable(read(Dscr))
    requires Calculate(NoiOperatingTotal, read, policy.hash).Ok?
    ensures Cover(policy, read).Ok?
    ensures AsDecimal(Cover(policy, read).value.value) ==
              AsDecimal(Calculate(NoiOperatingTotal, read, policy.hash).value.value)
  {
    SingleRouteSettles(read, policy.hash);
    assert Elements(Choices(policy)) == {NoiOperatingTotal};
    CoverSettles(policy, read);
  }

  lemma {:induction false} SingleRouteSettles(read: Reader, hash: nat)
    requires BothSidesTolerable(read)
    requires Reconcile(read).None? && CheckDenominator(NoiOperatingTotal, read).None? && Tolerable(read(Dscr))
    requires Calculate(NoiOperatingTotal, read, hash).Ok?
    ensures Settles({NoiOperatingTotal}, read, hash)
  {
    assert RoutesAgree({NoiOperatingTotal}, read, hash) by {
      assert NoiOperatingTotal in {NoiOperatingTotal};
    }
  }

  lemma {:induction false} OperatingNumber(read: Reader, hash: nat, figures: seq<Figure>, r: real, e: real, s: real)
    returns (cover: real)
    requires |figures| == 3 && Calculate(NoiOperatingTotal, read, hash).Ok?
    requires read(OperatingRevenue) == Ok(figures[0]) && read(OperatingExpenses) == Ok(figures[1]) &&
             read(DebtService) == Ok(figures[2])
    requires IsNumber(figures[0], r) && IsNumber(figures[1], e) && IsNumber(figures[2], s)
    ensures AsDecimal(Calculate(NoiOperatingTotal, read, hash).value.value) == Ok(cover) && cover * s == r - e
  {
    CalculateFacts(NoiOperatingTotal, read, hash);
    var names := FormulaOf(NoiOperatingTotal).operands;
    ReadAllFacts(names, read);
    assert ReadAll(names, read).value == figures;
    NumbersFacts(figures);
    assert Numbers(figures).value == [r, e, s];
    cover := Calculate(NoiOperatingTotal, read, hash).value.value.number;
    OperatingCover(r, e, s, cover);
  }

  /** The number that a row of a clear page stands for. */
  function InCrore(gate: Gate, k: Facts, amount: Numeral): real {
    amount.Value() * gate.policy.factors.Of(k.unit).Value()
  }

  /** A rule for every metric that the operating route consults. */
  predicate HasRules(policy: Policy) {
    && (forall n | n in [OperatingRevenue, OperatingExpenses, DebtService] ::
          RuleOf(policy, n).Some? && IsStatement(RuleOf(policy, n).value) && RuleOf(policy, n).value.kind == Money)
    && (forall n | n in SCHEDULE + [PrincipalDue, TermInterest, Dscr] ::
        RuleOf(policy, n).Some? && IsDated(RuleOf(policy, n).value))
  }

  lemma {:induction false} AmountIsNumber(gate: Gate, k: Facts, metric: Metric, amount: Numeral, f: Figure)
    requires IsAmount(gate, k, Money, metric, amount, f)
    ensures IsNumber(f, InCrore(gate, k, amount))
  {
    var factor := gate.policy.factors.Of(k.unit);
    TimesMultipliesValues(amount, factor);
    var x := amount.Times(factor).Value();
    assert AsDecimal(f.value) == Ok(x);
    assert x == InCrore(gate, k, amount);
  }

  /** The page as readings: what it carries, and what it leaves missing. */
  lemma {:induction false} PageReadings(gate: Gate, c: Chunk, k: Facts, revenue: Numeral, expenses: Numeral,
                                        service: Numeral)
    returns (figures: seq<Figure>)
    requires HasRules(gate.policy) && IsClear(c, k) && k.basis in {Standalone, Consolidated}
    requires Carries(c, k, Money, OperatingRevenue, revenue) && Carries(c, k, Money, OperatingExpenses, expenses) &&
             Carries(c, k, Money, DebtService, service)
    requires forall n | n in SCHEDULE + [PrincipalDue, TermInterest, Dscr] :: n !in c.scans
    ensures |figures| == 3 && ContextHolds(figures, gate.policy.hash)
    ensures Direct(gate, OperatingRevenue, [c]) == Ok(figures[0]) &&
            Direct(gate, OperatingExpenses, [c]) == Ok(figures[1])
    ensures Direct(gate, DebtService, [c]) == Ok(figures[2])
    ensures IsAmount(gate, k, Money, OperatingRevenue, revenue, figures[0]) &&
            IsAmount(gate, k, Money, OperatingExpenses, expenses, figures[1])
    ensures IsAmount(gate, k, Money, DebtService, service, figures[2])
  {
    var names := [OperatingRevenue, OperatingExpenses, DebtService];
    assert names[0] == OperatingRevenue && names[1] == OperatingExpenses && names[2] == DebtService;
    PageIsRead(gate, OperatingRevenue, RuleOf(gate.policy, OperatingRevenue).value, c, k, revenue);
    PageIsRead(gate, OperatingExpenses, RuleOf(gate.policy, OperatingExpenses).value, c, k, expenses);
    PageIsRead(gate, DebtService, RuleOf(gate.policy, DebtService).value, c, k, service);
    figures := [Direct(gate, OperatingRevenue, [c]).value, Direct(gate, OperatingExpenses, [c]).value,
                Direct(gate, DebtService, [c]).value];
    OneContext(gate, k, figures[0], figures[1], figures[2], revenue, expenses, service);
  }

  lemma {:induction false} PageLacksRest(gate: Gate, c: Chunk, k: Facts)
    requires HasRules(gate.policy) && IsClear(c, k)
    requires forall n | n in SCHEDULE + [PrincipalDue, TermInterest, Dscr] :: n !in c.scans
    ensures AllMissing(SCHEDULE + [PrincipalDue, TermInterest, Dscr], DirectReader(gate, [c]))
  {
    forall n | n in SCHEDULE + [PrincipalDue, TermInterest, Dscr]
      ensures DirectReader(gate, [c])(n) == Err(MetricMissing) {
      PageLacks(gate, n, c, k);
    }
  }

  /** A page of an audited report that shows operating revenue, operating expenses and debt service, with nothing else
      to consult, yields the cover: revenue less expenses over debt service. */
  lemma {:induction false} PageYieldsCover(gate: Gate, c: Chunk, k: Facts, revenue: Numeral, expenses: Numeral,
                                           service: Numeral, r: real, e: real, s: real) returns (cover: real)
    requires Choices(gate.policy) == [NoiOperatingTotal] && HasRules(gate.policy)
    requires IsClear(c, k) && k.basis in {Standalone, Consolidated}
    requires Carries(c, k, Money, OperatingRevenue, revenue) && Carries(c, k, Money, OperatingExpenses, expenses) &&
             Carries(c, k, Money, DebtService, service)
    requires forall n | n in SCHEDULE + [PrincipalDue, TermInterest, Dscr] :: n !in c.scans
    requires r == InCrore(gate, k, revenue) && e == InCrore(gate, k, expenses) && s == InCrore(gate, k, service)
    requires e >= 0.0 && s > 0.0
    ensures Cover(gate.policy, DirectReader(gate, [c])).Ok?
    ensures AsDecimal(Cover(gate.policy, DirectReader(gate, [c])).value.value) == Ok(cover) && cover * s == r - e
  {
    var figures := PageReadings(gate, c, k, revenue, expenses, service);
    AmountIsNumber(gate, k, OperatingRevenue, revenue, figures[0]);
    AmountIsNumber(gate, k, OperatingExpenses, expenses, figures[1]);
    AmountIsNumber(gate, k, DebtService, service, figures[2]);
    PageLacksRest(gate, c, k);
    cover := OperatingRouteSuffices(gate.policy, DirectReader(gate, [c]), figures, r, e, s);
  }

  lemma {:induction false} OneContext(gate: Gate, k: Facts, r: Figure, e: Figure, s: Figure, revenue: Numeral,
                                      expenses: Numeral, service: Numeral)
    requires IsAmount(gate, k, Money, OperatingRevenue, revenue, r) &&
             IsAmount(gate, k, Money, OperatingExpenses, expenses, e)
    requires IsAmount(gate, k, Money, DebtService, service, s) && k.basis in {Standalone, Consolidated}
    ensures ContextHolds([r, e, s], gate.policy.hash)
  {
  }
}
