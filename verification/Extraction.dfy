/** Extraction of a metric: the debt-service cover has its procedure; any other metric is read directly first, and
    computed by a configured formula only when the reading is missing. */
module Extraction {
  import opened Outcomes
  import opened Decimals
  import opened Corpus
  import opened Policies
  import opened EvidenceGate
  import opened EvidenceTheorems
  import opened Formulas
  import opened Calculations
  import opened DscrStages
  import opened DscrTheorems
  import opened DscrEvidence
  import opened ClearPages
  import opened AddedPages

  /** The first attempt that is not merely missing decides. */
  function FirstPresent(attempts: seq<Result<Figure>>): Result<Figure> {
    if attempts == [] then Err(MetricMissing)
    else if attempts[0] == Err(MetricMissing) then FirstPresent(attempts[1..])
    else attempts[0]
  }

  function Attempts(ids: seq<FormulaId>, read: Reader, policyHash: nat): (attempts: seq<Result<Figure>>)
    ensures |attempts| == |ids| && forall i | 0 <= i < |ids| :: attempts[i] == Calculate(ids[i], read, policyHash)
  {
    seq(|ids|, i requires 0 <= i < |ids| => Calculate(ids[i], read, policyHash))
  }

  function FirstComputed(ids: seq<FormulaId>, read: Reader, policyHash: nat): Result<Figure> {
    FirstPresent(Attempts(ids, read, policyHash))
  }

  function FormulasFor(policy: Policy, metric: Metric): seq<FormulaId> {
    if metric !in policy.calculations then []
    else [policy.calculations[metric]] + if metric in policy.alternatives then policy.alternatives[metric] else []
  }

  function Extracted(policy: Policy, read: Reader, metric: Metric): Result<Figure> {
    if metric == Dscr then Cover(policy, read)
    else if read(metric) == Err(MetricMissing) then FirstComputed(FormulasFor(policy, metric), read, policy.hash)
    else read(metric)
  }

  /** What a corpus of chunks yields for a metric. */
  function ExtractedFrom(gate: Gate, chunks: seq<Chunk>, metric: Metric): Result<Figure> {
    Extracted(gate.policy, DirectReader(gate, chunks), metric)
  }

  /** The loop over the configured formulas. */
  method ComputeFirst(ids: seq<FormulaId>, read: Reader, policyHash: nat) returns (r: Result<Figure>)
    ensures r == FirstComputed(ids, read, policyHash)
  {
    ghost var attempts := Attempts(ids, read, policyHash);
    assert attempts[0..] == attempts;
    for i := 0 to |ids|
      invariant FirstPresent(attempts) == FirstPresent(attempts[i..])
    {
      assert attempts[i..][1..] == attempts[i + 1..];
      r := Calculate(ids[i], read, policyHash);
      if r.Ok? || r.code != MetricMissing {
        return;
      }
    }
    return Err(MetricMissing);
  }

  /** extract: the cover by its own procedure, any other metric directly and then by formula. */
  method Extract(gate: Gate, metric: Metric, chunks: seq<Chunk>) returns (r: Result<Figure>)
    ensures r == ExtractedFrom(gate, chunks, metric)
  {
    if metric == Dscr {
      var cache;
      r, cache := CalculateDscr(gate.policy, DirectReader(gate, chunks));
      return;
    }
    r := SelectDirect(gate, metric, chunks);
    if r.Ok? {
      return;
    }
    if r.code != MetricMissing || metric !in gate.policy.calculations {
      return;
    }
    var alternatives := if metric in gate.policy.alternatives then gate.policy.alternatives[metric] else [];
    r := ComputeFirst([gate.policy.calculations[metric]] + alternatives, DirectReader(gate, chunks), gate.policy.hash);
  }

  // Formulas never go round evidence that is there.

  ghost predicate LacksOperand(id: FormulaId, read: Reader) {
    exists n :: n in FormulaOf(id).operands && read(n) == Err(MetricMissing)
  }

  lemma {:induction false} FirstPresentIsFirst(attempts: seq<Result<Figure>>) returns (i: nat)
    requires FirstPresent(attempts).Ok?
    ensures i < |attempts| && FirstPresent(attempts) == attempts[i]
    ensures forall j | 0 <= j < i :: attempts[j] == Err(MetricMissing)
  {
    if attempts[0] == Err(MetricMissing) {
      var rest := FirstPresentIsFirst(attempts[1..]);
      i := rest + 1;
      assert forall j | 0 < j < i :: attempts[j] == attempts[1..][j - 1];
    } else {
      i := 0;
    }
  }

  lemma {:induction false} MissingLacksOperand(id: FormulaId, read: Reader, policyHash: nat)
    requires Calculate(id, read, policyHash) == Err(MetricMissing)
    ensures LacksOperand(id, read)
  {
    CalculateFacts(id, read, policyHash);
  }

  /** A figure is read directly, or it is computed by the first configured formula after ones that each lack an operand
      altogether, and the metric itself was not to be found: a reading that is refused is never computed around. */
  lemma {:induction false} FormulasOnlyFillGaps(policy: Policy, read: Reader, metric: Metric) returns (i: nat)
    requires metric != Dscr && Extracted(policy, read, metric).Ok? && read(metric).Err?
    ensures read(metric) == Err(MetricMissing)
    ensures i < |FormulasFor(policy, metric)|
    ensures Extracted(policy, read, metric) == Calculate(FormulasFor(policy, metric)[i], read, policy.hash)
    ensures AllRead(FormulaOf(FormulasFor(policy, metric)[i]).operands, read)
    ensures forall j | 0 <= j < i :: LacksOperand(FormulasFor(policy, metric)[j], read)
  {
    var ids := FormulasFor(policy, metric);
    i := FirstPresentIsFirst(Attempts(ids, read, policy.hash));
    CalculateFacts(ids[i], read, policy.hash);
    forall j | 0 <= j < i ensures LacksOperand(ids[j], read) {
      MissingLacksOperand(ids[j], read, policy.hash);
    }
  }

  // More evidence.

  /** The metrics that an extraction may read: the metric itself and the operands of its formulas. */
  function Consulted(policy: Policy, metric: Metric): set<Metric> {
    {metric} + set id, n | id in FormulasFor(policy, metric) && n in FormulaOf(id).operands :: n
  }

  ghost predicate AllKept(names: set<Metric>, was: Reader, now: Reader) {
    forall n | n in names :: KeepsReading(was(n), now(n))
  }

  /** What is extracted now, if anything, has the number extracted before. */
  ghost predicate SameNumber(was: Result<Figure>, now: Result<Figure>) {
    was.Ok? && now.Ok? ==> AsDecimal(was.value.value) == AsDecimal(now.value.value)
  }

  /** The figure is computed by formula i now and was computed by a later formula j, i having lacked an operand. */
  ghost predicate ComputedEarlier(policy: Policy, metric: Metric, was: Reader, now: Reader, i: nat, j: nat) {
    var ids := FormulasFor(policy, metric);
    && i < j < |ids| && LacksOperand(ids[i], was)
    && Extracted(policy, was, metric) == Calculate(ids[j], was, policy.hash)
    && Extracted(policy, now, metric) == Calculate(ids[i], now, policy.hash)
  }

  lemma {:induction false} AllAttemptsMissing(attempts: seq<Result<Figure>>, i: nat)
    requires FirstPresent(attempts) == Err(MetricMissing) && i < |attempts|
    ensures attempts[i] == Err(MetricMissing)
  {
    if i > 0 {
      AllAttemptsMissing(attempts[1..], i - 1);
    }
  }

  /** If attempts that succeeded stay present with their numbers, the first one present is kept, or one goes first that
      was missing. */
  lemma {:induction false} FirstPresentKept(was: seq<Result<Figure>>, now: seq<Result<Figure>>) returns (i: nat, j: nat)
    requires |was| == |now| && FirstPresent(was).Ok?
    requires forall m | 0 <= m < |was| && was[m].Ok? :: now[m] != Err(MetricMissing) && SameNumber(was[m], now[m])
    ensures FirstPresent(now) != Err(MetricMissing)
    ensures j < |was| && FirstPresent(was) == was[j]
    ensures !SameNumber(FirstPresent(was), FirstPresent(now)) ==>
              i < j && FirstPresent(now) == now[i] && was[i] == Err(MetricMissing)
  {
    i := 0;
    j := FirstPresentIsFirst(was);
    if FirstPresent(now) == Err(MetricMissing) {
      AllAttemptsMissing(now, j);
    }
    if FirstPresent(now).Ok? {
      i := FirstPresentIsFirst(now);
    }
  }

  lemma {:induction false} FormulaKept(id: FormulaId, names: set<Metric>, was: Reader, now: Reader, policyHash: nat)
    requires AllKept(names, was, now) && (forall n | n in FormulaOf(id).operands :: n in names)
    requires Calculate(id, was, policyHash).Ok?
    ensures Calculate(id, now, policyHash) != Err(MetricMissing)
    ensures SameNumber(Calculate(id, was, policyHash), Calculate(id, now, policyHash))
  {
    CalculationKept(id, was, now, policyHash);
  }

  lemma {:induction false} AttemptsKept(policy: Policy, metric: Metric, was: Reader, now: Reader, m: nat)
    requires AllKept(Consulted(policy, metric), was, now) && m < |FormulasFor(policy, metric)|
    requires Attempts(FormulasFor(policy, metric), was, policy.hash)[m].Ok?
    ensures var ids := FormulasFor(policy, metric);
            Attempts(ids, now, policy.hash)[m] != Err(MetricMissing) &&
            SameNumber(Attempts(ids, was, policy.hash)[m], Attempts(ids, now, policy.hash)[m])
  {
    var id := FormulasFor(policy, metric)[m];
    forall n | n in FormulaOf(id).operands ensures n in Consulted(policy, metric) {
      assert id in FormulasFor(policy, metric);
    }
    FormulaKept(id, Consulted(policy, metric), was, now, policy.hash);
  }

  lemma {:induction false} ComputedKept(policy: Policy, metric: Metric, was: Reader, now: Reader)
    returns (i: nat, j: nat)
    requires AllKept(Consulted(policy, metric), was, now)
    requires FirstComputed(FormulasFor(policy, metric), was, policy.hash).Ok?
    ensures var ids := FormulasFor(policy, metric);
            var before, after := FirstComputed(ids, was, policy.hash), FirstComputed(ids, now, policy.hash);
            && after != Err(MetricMissing)
            && (!SameNumber(before, after) ==>
                  && i < j < |ids| && LacksOperand(ids[i], was)
                  && before == Calculate(ids[j], was, policy.hash) && after == Calculate(ids[i], now, policy.hash))
  {
    var ids := FormulasFor(policy, metric);
    var a, b := Attempts(ids, was, policy.hash), Attempts(ids, now, policy.hash);
    forall m | 0 <= m < |a| && a[m].Ok? ensures b[m] != Err(MetricMissing) && SameNumber(a[m], b[m]) {
      AttemptsKept(policy, metric, was, now, m);
    }
    i, j := FirstPresentKept(a, b);
    if !SameNumber(FirstPresent(a), FirstPresent(b)) {
      MissingLacksOperand(ids[i], was, policy.hash);
    }
  }

  /** If the readings consulted are kept, so is the number, or the gate abstains; a different number can only come from
      a source that goes first and was missing: the metric itself, or an earlier formula. */
  lemma {:induction false} ChangeHasEarlierSource(policy: Policy, metric: Metric, was: Reader, now: Reader)
    returns (i: nat, j: nat)
    requires metric != Dscr && AllKept(Consulted(policy, metric), was, now) && Extracted(policy, was, metric).Ok?
    ensures Extracted(policy, now, metric) != Err(MetricMissing)
    ensures !SameNumber(Extracted(policy, was, metric), Extracted(policy, now, metric)) ==>
              was(metric) == Err(MetricMissing) &&
              (now(metric).Ok? || ComputedEarlier(policy, metric, was, now, i, j))
  {
    i, j := 0, 0;
    assert KeepsReading(was(metric), now(metric));
    if was(metric).Err? && now(metric) == Err(MetricMissing) {
      i, j := ComputedKept(policy, metric, was, now);
    }
  }

  // More documents.

  /** Whole new documents that bring no later year to any rule that the extraction consults. */
  ghost predicate AddsTo(gate: Gate, metric: Metric, base: set<Chunk>, more: set<Chunk>) {
    && AllOwned(base) && AddsDocuments(base, more)
    && (AllOwned(more) ==>
          forall n | n in Consulted(gate.policy, metric) && RuleOf(gate.policy, n).Some? ::
            NoLaterYear(gate, RuleOf(gate.policy, n).value, base, more))
  }

  /** None of the rules consulted reads NIC tables or entity headings. */
  ghost predicate PlainRules(policy: Policy, metric: Metric) {
    forall n | n in Consulted(policy, metric) && RuleOf(policy, n).Some? ::
      !RuleOf(policy, n).value.nicLevel && !RuleOf(policy, n).value.headingPattern
  }

  lemma {:induction false} ConsultedAreNotNames(policy: Policy, metric: Metric)
    requires metric != BorrowerName
    ensures BorrowerName !in Consulted(policy, metric)
  {
    forall id | id in FormulasFor(policy, metric) ensures BorrowerName !in FormulaOf(id).operands {
      OperandsAreNotNames(id);
    }
  }

  /** The same for corpora: adding such documents keeps the number, or makes the gate abstain, unless the new documents
      supply a source that goes first. */
  lemma {:induction false} MoreDocumentsKeepNumber(gate: Gate, metric: Metric, base: seq<Chunk>, more: seq<Chunk>)
    returns (i: nat, j: nat)
    requires metric != Dscr && metric != BorrowerName && PlainRules(gate.policy, metric)
    requires AddsTo(gate, metric, Elements(base), Elements(more)) && ExtractedFrom(gate, base, metric).Ok?
    ensures ExtractedFrom(gate, more, metric) != Err(MetricMissing)
    ensures !SameNumber(ExtractedFrom(gate, base, metric), ExtractedFrom(gate, more, metric)) ==>
              Direct(gate, metric, base) == Err(MetricMissing) &&
              (Direct(gate, metric, more).Ok? ||
               ComputedEarlier(gate.policy, metric, DirectReader(gate, base), DirectReader(gate, more), i, j))
  {
    var was, now := DirectReader(gate, base), DirectReader(gate, more);
    ConsultedAreNotNames(gate.policy, metric);
    forall n | n in Consulted(gate.policy, metric) ensures KeepsReading(was(n), now(n)) {
      ReadingKept(gate, n, base, more);
    }
    i, j := ChangeHasEarlierSource(gate.policy, metric, was, now);
  }

  // A computed number gives way.

  /** A document that is not there yet. */
  function UnusedDocument(cs: set<Chunk>): (d: nat)
    requires AllOwned(cs)
    ensures d !in Documents(cs)
  {
    if Documents(cs) == {} then 0 else MaxOf(Documents(cs)) + 1
  }

  function WholeNumber(n: nat): Numeral {
    Numeral(false, n, 0)
  }

  /** A page of an audited report with one row for one metric. */
  function PageOf(document: nat, k: Facts, metric: Metric, amount: Numeral): (c: Chunk)
    ensures SingleOwner(c) && Owner(c) == document
  {
    var row := Row(Raw("", Some(amount), None, 0, {}), Some(k.year));
    Chunk(0, false, [Provenance(document, 1, Box(0.0, 0.0, 1.0, 1.0))], [], {AuditedFinancials}, {}, {k.entity}, {},
          [k.year], {k.unit}, {k.basis}, false, false, {metric}, map[metric := Scan(map[], Rows([row]))])
  }

  lemma {:induction false} PageOfIsClear(document: nat, k: Facts, kind: Kind, metric: Metric, amount: Numeral)
    ensures IsClear(PageOf(document, k, metric, amount), k)
    ensures Carries(PageOf(document, k, metric, amount), k, kind, metric, amount)
  {
    assert k.year in [k.year];
  }

  /** Of a page that shows zero and one that shows one, at least one differs from a given number. */
  lemma {:induction false} OneOfTwoDiffers(factor: Numeral, x: Result<real>) returns (amount: Numeral)
    requires factor.Value() != 0.0
    ensures Ok(amount.Times(factor).Value()) != x
  {
    TimesMultipliesValues(WholeNumber(0), factor);
    TimesMultipliesValues(WholeNumber(1), factor);
    assert WholeNumber(0).Value() == 0.0 && WholeNumber(1).Value() == 1.0;
    amount := if x == Ok(0.0) then WholeNumber(1) else WholeNumber(0);
  }

  /** What evidence that leaves a metric missing settles: a borrower and a latest year. */
  lemma {:induction false} MissingOpens(gate: Gate, metric: Metric, rule: Rule, base: seq<Chunk>) returns (k: Facts)
    requires RuleOf(gate.policy, metric) == Some(rule) && IsStatement(rule)
    requires Direct(gate, metric, base) == Err(MetricMissing)
    ensures AllOwned(Elements(base)) && k.unit == Crore
    ensures Opening(gate, rule, Elements(base)) == Ok(Setting(rule, k.entity, Some(k.year)))
    ensures SourceYears(gate, rule, Elements(base)) != {} && MaxOf(SourceYears(gate, rule, Elements(base))) == k.year
  {
    DirectReachesVerdict(gate, metric, base);
    var st := VerdictUnfolds(gate, metric, Elements(base));
    OpeningFixes(gate, rule, Elements(base));
    k := Facts(st.entity, st.latest.value, Crore, Standalone);
  }

  lemma {:induction false} PageAddsTo(gate: Gate, metric: Metric, rule: Rule, cs: set<Chunk>, c: Chunk, k: Facts)
    requires IsNew(cs, c, k) && IsDated(rule)
    requires SourceYears(gate, rule, cs) != {} && MaxOf(SourceYears(gate, rule, cs)) == k.year
    ensures AllOwned(cs + {c}) && AddsTo(gate, metric, cs, cs + {c})
  {
    PageIsNewDocument(gate, cs, c, k);
    forall n | n in Consulted(gate.policy, metric) && RuleOf(gate.policy, n).Some?
      ensures NoLaterYear(gate, RuleOf(gate.policy, n).value, cs, cs + {c})
    {
      PageBringsNoLaterYear(gate, rule, RuleOf(gate.policy, n).value, cs, c, k);
    }
  }

  lemma {:induction false} DirectNumberIsExtracted(gate: Gate, metric: Metric, chunks: seq<Chunk>)
    requires metric != Dscr && Direct(gate, metric, chunks) != Err(MetricMissing)
    ensures ExtractedFrom(gate, chunks, metric) == Direct(gate, metric, chunks)
  {
    assert DirectReader(gate, chunks)(metric) == Direct(gate, metric, chunks);
  }

  lemma {:induction false} ComputedMeansMissing(gate: Gate, metric: Metric, chunks: seq<Chunk>)
    requires metric != Dscr && ExtractedFrom(gate, chunks, metric).Ok? && Direct(gate, metric, chunks).Err?
    ensures Direct(gate, metric, chunks) == Err(MetricMissing)
  {
    assert DirectReader(gate, chunks)(metric) == Direct(gate, metric, chunks);
  }

  lemma {:induction false} ShownNumberIsExtracted(gate: Gate, metric: Metric, rule: Rule, base: seq<Chunk>, c: Chunk,
                                                  k: Facts, amount: Numeral)
    requires metric !in {Dscr, BorrowerName, Region} && RuleOf(gate.policy, metric) == Some(rule)
    requires Joins(gate, rule, Elements(base), c, k) && Direct(gate, metric, base) == Err(MetricMissing)
    requires Carries(c, k, rule.kind, metric, amount)
    ensures ExtractedFrom(gate, base + [c], metric).Ok?
    ensures AsDecimal(ExtractedFrom(gate, base + [c], metric).value.value)
            == Ok(amount.Times(FactorOf(gate, rule.kind, k)).Value())
  {
    AddedPageIsRead(gate, metric, rule, base, c, k, amount);
    DirectNumberIsExtracted(gate, metric, base + [c]);
  }

  lemma {:induction false} OneIsOne()
    ensures ONE.Value() == 1.0
  {
  }

  /** A new page that shows a missing metric with another number than a given one. */
  lemma {:induction false} DifferingPage(gate: Gate, metric: Metric, rule: Rule, base: seq<Chunk>, x: Result<real>)
    returns (c: Chunk, k: Facts, amount: Numeral)
    requires RuleOf(gate.policy, metric) == Some(rule) && IsStatement(rule) &&
             Direct(gate, metric, base) == Err(MetricMissing)
    requires rule.kind == Money ==> gate.policy.factors.crore.Value() != 0.0
    ensures Joins(gate, rule, Elements(base), c, k) && Carries(c, k, rule.kind, metric, amount)
    ensures AllOwned(Elements(base) + {c}) && AddsTo(gate, metric, Elements(base), Elements(base) + {c})
    ensures Ok(amount.Times(FactorOf(gate, rule.kind, k)).Value()) != x
  {
    k := MissingOpens(gate, metric, rule, base);
    OneIsOne();
    amount := OneOfTwoDiffers(FactorOf(gate, rule.kind, k), x);
    var document := UnusedDocument(Elements(base));
    c := PageOf(document, k, metric, amount);
    PageOfIsClear(document, k, rule.kind, metric, amount);
    PageAddsTo(gate, metric, rule, Elements(base), c, k);
  }

  /** New evidence against a computed number: one clear page of a new document, about the same borrower and year, that
      shows the metric itself with another number. */
  lemma {:induction false} PageReplacesNumber(gate: Gate, metric: Metric, rule: Rule, base: seq<Chunk>)
    returns (more: seq<Chunk>)
    requires metric !in {Dscr, BorrowerName, Region} && RuleOf(gate.policy, metric) == Some(rule) && IsStatement(rule)
    requires rule.kind == Money ==> gate.policy.factors.crore.Value() != 0.0
    requires ExtractedFrom(gate, base, metric).Ok? && Direct(gate, metric, base).Err?
    ensures AddsTo(gate, metric, Elements(base), Elements(more)) && AllOwned(Elements(more))
    ensures !SameNumber(ExtractedFrom(gate, base, metric), ExtractedFrom(gate, more, metric))
  {
    ComputedMeansMissing(gate, metric, base);
    var number := AsDecimal(ExtractedFrom(gate, base, metric).value.value);
    var c, k, amount := DifferingPage(gate, metric, rule, base, number);
    more := base + [c];
    assert Elements(more) == Elements(base) + {c};
    ShownNumberIsExtracted(gate, metric, rule, base, c, k, amount);
  }

  /** A number from a statement rule stays, whatever documents of no later year are added, exactly when it was read
      directly: a computed number gives way to any clear page that shows the metric, without the two being compared. */
  lemma {:induction false} NumberIsStableIff(gate: Gate, metric: Metric, rule: Rule, base: seq<Chunk>)
    requires metric !in {Dscr, BorrowerName, Region} && RuleOf(gate.policy, metric) == Some(rule) && IsStatement(rule)
    requires rule.kind == Money ==> gate.policy.factors.crore.Value() != 0.0
    requires ExtractedFrom(gate, base, metric).Ok?
    ensures (forall more: seq<Chunk> | AddsTo(gate, metric, Elements(base), Elements(more)) ::
               SameNumber(ExtractedFrom(gate, base, metric), ExtractedFrom(gate, more, metric)))
            <==> Direct(gate, metric, base).Ok?
  {
    if Direct(gate, metric, base).Ok? {
      forall more: seq<Chunk> | AddsTo(gate, metric, Elements(base), Elements(more))
        ensures SameNumber(ExtractedFrom(gate, base, metric), ExtractedFrom(gate, more, metric))
      {
        DirectNumberStays(gate, metric, rule, base, more);
      }
    } else {
      var more := PageReplacesNumber(gate, metric, rule, base);
    }
  }

  lemma {:induction false} DirectNumberStays(gate: Gate, metric: Metric, rule: Rule, base: seq<Chunk>, more: seq<Chunk>)
    requires metric != Dscr && metric != BorrowerName && RuleOf(gate.policy, metric) == Some(rule) && IsStatement(rule)
    requires Direct(gate, metric, base).Ok? && AddsTo(gate, metric, Elements(base), Elements(more))
    ensures SameNumber(ExtractedFrom(gate, base, metric), ExtractedFrom(gate, more, metric))
  {
    ReadingKept(gate, metric, base, more);
    assert DirectReader(gate, base)(metric) == Direct(gate, metric, base);
    assert DirectReader(gate, more)(metric) == Direct(gate, metric, more);
  }

  // Such a number exists.

  /** The page shows profit before tax and the tax on it, but not the profit after tax. */
  ghost predicate ShowsTaxOnly(c: Chunk, k: Facts, before: Numeral, tax: Numeral) {
    && IsClear(c, k) && k.basis in {Standalone, Consolidated} && ProfitAfterTax !in c.scans
    && Carries(c, k, Money, ProfitBeforeTax, before) && Carries(c, k, Money, NetTax, tax)
  }

  predicate IsMoneyStatement(policy: Policy, metric: Metric) {
    RuleOf(policy, metric).Some? && IsStatement(RuleOf(policy, metric).value) &&
    RuleOf(policy, metric).value.kind == Money
  }

  /** Profit after tax is computed from profit before tax and the tax, and all three are statement figures. */
  predicate ComputesProfit(policy: Policy) {
    && FormulasFor(policy, ProfitAfterTax) == [PatPbtNetTax]
    && IsMoneyStatement(policy, ProfitBeforeTax) && IsMoneyStatement(policy, NetTax)
    && IsMoneyStatement(policy, ProfitAfterTax)
  }

  lemma {:induction false} ProfitComputes(read: Reader, hash: nat, p: Figure, t: Figure, x: real, y: real)
    requires read(ProfitBeforeTax) == Ok(p) && read(NetTax) == Ok(t) && ContextHolds([p, t], hash)
    requires IsNumber(p, x) && IsNumber(t, y)
    ensures Calculate(PatPbtNetTax, read, hash).Ok?
    ensures AsDecimal(Calculate(PatPbtNetTax, read, hash).value.value) == Ok(x - y)
  {
    var names := FormulaOf(PatPbtNetTax).operands;
    ReadAllFacts(names, read);
    assert ReadAll(names, read).value == [p, t];
    NumbersFacts([p, t]);
    assert Numbers([p, t]).value == [x, y];
    ProfitAfterTaxOf(x, y);
  }

  lemma {:induction false} ShownFigure(gate: Gate, metric: Metric, c: Chunk, k: Facts, amount: Numeral)
    returns (f: Figure)
    requires IsMoneyStatement(gate.policy, metric) && metric != BorrowerName && metric != Region
    requires IsClear(c, k) && Carries(c, k, Money, metric, amount)
    ensures Direct(gate, metric, [c]) == Ok(f) && IsAmount(gate, k, Money, metric, amount, f)
    ensures IsNumber(f, InCrore(gate, k, amount))
  {
    PageIsRead(gate, metric, RuleOf(gate.policy, metric).value, c, k, amount);
    f := Direct(gate, metric, [c]).value;
    AmountIsNumber(gate, k, metric, amount, f);
  }

  lemma {:induction false} SharedContext(gate: Gate, k: Facts, p: Figure, t: Figure, before: Numeral, tax: Numeral)
    requires IsAmount(gate, k, Money, ProfitBeforeTax, before, p) && IsAmount(gate, k, Money, NetTax, tax, t)
    requires k.basis in {Standalone, Consolidated}
    ensures ContextHolds([p, t], gate.policy.hash)
  {
  }

  lemma {:induction false} OneAttempt(a: Result<Figure>)
    ensures FirstPresent([a]) == a
  {
    assert [a][1..] == [] && FirstPresent([]) == Err(MetricMissing);
  }

  lemma {:induction false} OneFormulaComputes(policy: Policy, read: Reader, metric: Metric, id: FormulaId)
    requires metric != Dscr && FormulasFor(policy, metric) == [id] && read(metric) == Err(MetricMissing)
    ensures Extracted(policy, read, metric) == Calculate(id, read, policy.hash)
  {
    assert Attempts([id], read, policy.hash) == [Calculate(id, read, policy.hash)];
    OneAttempt(Calculate(id, read, policy.hash));
  }

  lemma {:induction false} ProfitIsExtracted(policy: Policy, read: Reader, p: Figure, t: Figure, x: real, y: real)
    requires FormulasFor(policy, ProfitAfterTax) == [PatPbtNetTax] && read(ProfitAfterTax) == Err(MetricMissing)
    requires read(ProfitBeforeTax) == Ok(p) && read(NetTax) == Ok(t) && ContextHolds([p, t], policy.hash)
    requires IsNumber(p, x) && IsNumber(t, y)
    ensures Extracted(policy, read, ProfitAfterTax).Ok?
    ensures AsDecimal(Extracted(policy, read, ProfitAfterTax).value.value) == Ok(x - y)
  {
    ProfitComputes(read, policy.hash, p, t, x, y);
    OneFormulaComputes(policy, read, ProfitAfterTax, PatPbtNetTax);
  }

  lemma {:induction false} TaxPageReadings(gate: Gate, c: Chunk, k: Facts, before: Numeral, tax: Numeral)
    returns (p: Figure, t: Figure)
    requires ComputesProfit(gate.policy) && ShowsTaxOnly(c, k, before, tax)
    ensures Direct(gate, ProfitBeforeTax, [c]) == Ok(p) && IsNumber(p, InCrore(gate, k, before))
    ensures Direct(gate, NetTax, [c]) == Ok(t) && IsNumber(t, InCrore(gate, k, tax))
    ensures ContextHolds([p, t], gate.policy.hash) && Direct(gate, ProfitAfterTax, [c]) == Err(MetricMissing)
  {
    p := ShownFigure(gate, ProfitBeforeTax, c, k, before);
    t := ShownFigure(gate, NetTax, c, k, tax);
    SharedContext(gate, k, p, t, before, tax);
    PageLacks(gate, ProfitAfterTax, c, k);
  }

  /** One page that shows profit before tax and the tax yields the profit after tax: their difference. */
  lemma {:induction false} PageYieldsProfit(gate: Gate, c: Chunk, k: Facts, before: Numeral, tax: Numeral, x: real,
                                            y: real)
    requires ComputesProfit(gate.policy) && ShowsTaxOnly(c, k, before, tax)
    requires x == InCrore(gate, k, before) && y == InCrore(gate, k, tax)
    ensures Direct(gate, ProfitAfterTax, [c]) == Err(MetricMissing) && ExtractedFrom(gate, [c], ProfitAfterTax).Ok?
    ensures AsDecimal(ExtractedFrom(gate, [c], ProfitAfterTax).value.value) == Ok(x - y)
  {
    var p, t := TaxPageReadings(gate, c, k, before, tax);
    ProfitIsExtracted(gate.policy, DirectReader(gate, [c]), p, t, x, y);
  }

  /** One more document, about the same borrower and year, changes the profit extracted from such a page. */
  lemma {:induction false} ComputedProfitGivesWay(gate: Gate, c: Chunk, k: Facts, before: Numeral, tax: Numeral)
    returns (more: seq<Chunk>)
    requires ComputesProfit(gate.policy) && ShowsTaxOnly(c, k, before, tax)
    requires gate.policy.factors.crore.Value() != 0.0
    ensures AddsTo(gate, ProfitAfterTax, Elements([c]), Elements(more)) && AllOwned(Elements(more))
    ensures ExtractedFrom(gate, [c], ProfitAfterTax).Ok? && ExtractedFrom(gate, more, ProfitAfterTax).Ok?
    ensures !SameNumber(ExtractedFrom(gate, [c], ProfitAfterTax), ExtractedFrom(gate, more, ProfitAfterTax))
  {
    PageYieldsProfit(gate, c, k, before, tax, InCrore(gate, k, before), InCrore(gate, k, tax));
    more := PageReplacesNumber(gate, ProfitAfterTax, RuleOf(gate.policy, ProfitAfterTax).value, [c]);
  }
}
