/** Calculation of one formula over directly read operands, and the memo through which operands are
    read. */
module Calculations {
  import opened Outcomes
  import opened Decimals
  import opened Corpus
  import opened Policies
  import opened Formulas

  /** How a metric is read: the gate's direct reading on a fixed corpus. */
  type Reader = Metric -> Result<Figure>

  // ----- attempts of which some may be absent -----

  /** The attempts that succeeded, in order; absence is skipped and any other refusal stops. */
  function Available(parts: seq<Result<Figure>>): Result<seq<Figure>> {
    if parts == [] then Ok([])
    else
      var before :- Available(parts[..|parts| - 1]);
      match parts[|parts| - 1]
      case Ok(f) => Ok(before + [f])
      case Err(code) => if code == MetricMissing then Ok(before) else Err(code)
  }

  predicate Tolerable(r: Result<Figure>) {
    r.Ok? || r.code == MetricMissing
  }

  lemma {:induction false} AvailableEnds(parts: seq<Result<Figure>>, n: nat)
    requires n <= |parts| && Available(parts[..n]).Err?
    ensures Available(parts) == Available(parts[..n])
  {
    if n == |parts| {
      assert parts[..n] == parts;
    } else {
      var shorter := parts[..|parts| - 1];
      assert shorter[..n] == parts[..n];
      AvailableEnds(shorter, n);
    }
  }

  lemma {:induction false} AvailableStep(parts: seq<Result<Figure>>, i: nat, before: seq<Figure>)
    requires i < |parts| && Available(parts[..i]) == Ok(before)
    ensures !Tolerable(parts[i]) ==> Available(parts) == Err(parts[i].code)
    ensures parts[i].Ok? ==> Available(parts[..i + 1]) == Ok(before + [parts[i].value])
    ensures Tolerable(parts[i]) && parts[i].Err? ==> Available(parts[..i + 1]) == Ok(before)
  {
    assert parts[..i + 1][..i] == parts[..i];
    if !Tolerable(parts[i]) {
      AvailableEnds(parts, i + 1);
    }
  }

  lemma {:induction false} AvailableFacts(parts: seq<Result<Figure>>)
    ensures Available(parts).Ok? <==> forall i | 0 <= i < |parts| :: Tolerable(parts[i])
    ensures Available(parts).Err? ==> Available(parts).code != MetricMissing
    ensures Available(parts).Ok? ==>
              && |Available(parts).value| <= |parts|
              && (forall f :: f in Available(parts).value <==> Ok(f) in parts)
              && (|Available(parts).value| == |parts| <==> forall i | 0 <= i < |parts| :: parts[i].Ok?)
              && (|Available(parts).value| == |parts| ==>
                    forall i | 0 <= i < |parts| :: parts[i] == Ok(Available(parts).value[i]))
  {
    if parts != [] {
      var n := |parts| - 1;
      AvailableFacts(parts[..n]);
      assert forall i | 0 <= i < n :: parts[..n][i] == parts[i];
      assert forall r :: r in parts <==> r in parts[..n] || r == parts[n];
    }
  }

  // ----- one calculation -----

  /** All operands in order, or the first refusal. */
  function ReadAll(names: seq<Metric>, read: Reader): Result<seq<Figure>> {
    if names == [] then Ok([])
    else
      var first :- read(names[0]);
      var rest :- ReadAll(names[1..], read);
      Ok([first] + rest)
  }

  lemma {:induction false} ReadAllFacts(names: seq<Metric>, read: Reader)
    ensures ReadAll(names, read).Ok? <==> forall i | 0 <= i < |names| :: read(names[i]).Ok?
    ensures ReadAll(names, read).Ok? ==>
              |ReadAll(names, read).value| == |names| &&
              forall i | 0 <= i < |names| :: read(names[i]) == Ok(ReadAll(names, read).value[i])
    ensures ReadAll(names, read).Err? ==>
              exists i :: 0 <= i < |names| && read(names[i]) == Err(ReadAll(names, read).code)
  {
    if names != [] {
      ReadAllFacts(names[1..], read);
      assert forall i | 1 <= i < |names| :: names[i] == names[1..][i - 1];
    }
  }

  function Numbers(figures: seq<Figure>): Result<seq<real>> {
    if figures == [] then Ok([])
    else
      var first :- AsDecimal(figures[0].value);
      var rest :- Numbers(figures[1..]);
      Ok([first] + rest)
  }

  lemma {:induction false} NumbersFacts(figures: seq<Figure>)
    ensures Numbers(figures).Err? ==> Numbers(figures).code == InvalidDecimal
    ensures Numbers(figures).Ok? <==> forall i | 0 <= i < |figures| :: AsDecimal(figures[i].value).Ok?
    ensures Numbers(figures).Ok? ==>
              |Numbers(figures).value| == |figures| &&
              forall i | 0 <= i < |figures| :: AsDecimal(figures[i].value) == Ok(Numbers(figures).value[i])
  {
    if figures != [] {
      NumbersFacts(figures[1..]);
      assert forall i | 1 <= i < |figures| :: figures[i] == figures[1..][i - 1];
    }
  }

  /** An operand that a calculation may use: read directly under this policy, in crore, from audited
      accounts or an approved vendor report, with a basis and a period. */
  predicate Usable(f: Figure, policyHash: nat) {
    && f.receipt.policyHash == policyHash
    && f.workings.None?
    && f.unit == InrCrore
    && (f.receipt.documentType == AuditedFinancials ||
        (f.receipt.documentType == FinancialInformationReport && f.receipt.approval.Some? &&
         f.receipt.approval.value.provider == "probe42" && f.receipt.approval.value.id != ""))
    && f.receipt.basis in {Some(Standalone), Some(Consolidated)}
    && f.receipt.period.Some?
  }

  predicate SameContext(a: Figure, b: Figure) {
    a.receipt.entity == b.receipt.entity && a.receipt.period == b.receipt.period && a.receipt.basis == b.receipt.basis
  }

  predicate ContextHolds(figures: seq<Figure>, policyHash: nat) {
    && (forall f | f in figures :: Usable(f, policyHash))
    && figures != []
    && (forall f | f in figures :: SameContext(f, figures[0]))
  }

  function ResultOf(id: FormulaId, figures: seq<Figure>, policyHash: nat, value: real): Figure
    requires figures != []
  {
    var formula := FormulaOf(id);
    var receipt := figures[0].receipt.(metric := formula.metric, source := None, sourceUnit := Calculation,
                                       factor := ONE);
    Figure(formula.metric, Computed(value), formula.unit, figures[0].period, figures[0].citation, receipt,
           Some(Workings(id, policyHash, figures)))
  }

  /** calculate: the operands in order, one context, one evaluation. */
  function Calculate(id: FormulaId, read: Reader, policyHash: nat): Result<Figure> {
    TableIsShaped(id);
    var figures :- ReadAll(FormulaOf(id).operands, read);
    if !ContextHolds(figures, policyHash) then Err(ContextConflict)
    else
      var numbers :- Numbers(figures);
      var value := Evaluate(FormulaOf(id), numbers);
      if value.None? then Err(ValueAmbiguous)
      else Ok(ResultOf(id, figures, policyHash, value.value))
  }

  ghost predicate AllRead(names: seq<Metric>, read: Reader) {
    forall n | n in names :: read(n).Ok?
  }

  /** What a calculated figure certifies: every operand was read, all in one context, and the value is
      the formula's on their numbers. A calculation is merely missing only if an operand is. */
  lemma {:induction false} CalculateFacts(id: FormulaId, read: Reader, policyHash: nat)
    ensures Calculate(id, read, policyHash).Ok? ==>
              var f := Calculate(id, read, policyHash).value;
              && AllRead(FormulaOf(id).operands, read)
              && ReadAll(FormulaOf(id).operands, read).Ok?
              && var figures := ReadAll(FormulaOf(id).operands, read).value;
              && ContextHolds(figures, policyHash)
              && Numbers(figures).Ok?
              && f.workings == Some(Workings(id, policyHash, figures))
              && f.value.Computed?
              && Values(id, Numbers(figures).value) == Some(f.value.number)
    ensures AllRead(FormulaOf(id).operands, read) ==> Calculate(id, read, policyHash) != Err(MetricMissing)
    ensures Calculate(id, read, policyHash).Err? && !AllRead(FormulaOf(id).operands, read) ==>
              exists n :: n in FormulaOf(id).operands && read(n) == Err(Calculate(id, read, policyHash).code)
  {
    var names := FormulaOf(id).operands;
    ReadAllFacts(names, read);
    assert AllRead(names, read) <==> ReadAll(names, read).Ok? by {
      assert forall i | 0 <= i < |names| :: names[i] in names;
    }
    if ReadAll(names, read).Ok? {
      NumbersFacts(ReadAll(names, read).value);
    }
  }

  // ----- the memo -----

  /** A reading that raises something else than an abstention: no caller catches it, and the memo does not keep it. */
  predicate Escapes(r: Result<Figure>) {
    r.Err? && !Abstains(r.code)
  }

  /** The dictionary of operands already read, with the order of first reads. */
  class OperandCache {
    const read: Reader
    var entries: map<Metric, Result<Figure>>
    var order: seq<Metric>
    ghost var performed: seq<Metric>   // the direct readings made so far

    ghost predicate Valid()
      reads this
    {
      && (forall n | n in entries :: entries[n] == read(n))
      && (forall n :: n in order <==> n in entries)
      && (forall i, j | 0 <= i < j < |order| :: order[i] != order[j])
      && (forall n | n in entries :: !Escapes(entries[n]) && multiset(performed)[n] == 1)
      && (forall n | n in performed :: n in entries || Escapes(read(n)))
    }

    constructor (read: Reader)
      ensures Valid() && this.read == read && order == []
    {
      this.read := read;
      entries, order, performed := map[], [], [];
    }

    /** A metric is read directly the first time only; afterwards the memo answers, abstentions included. What escapes
        is not kept. */
    method Extract(name: Metric) returns (r: Result<Figure>)
      requires Valid()
      modifies this`entries, this`order, this`performed
      ensures Valid() && r == read(name) && (Escapes(r) || name in entries)
      ensures order == (if name in old(order) || Escapes(r) then old(order) else old(order) + [name])
      ensures performed == (if name in old(order) then old(performed) else old(performed) + [name])
      ensures old(entries).Keys <= entries.Keys
    {
      if name !in entries {
        performed := performed + [name];
        r := read(name);
        if Escapes(r) {
          return;
        }
        assert name !in old(performed);
        entries, order := entries[name := r], order + [name];
      }
      r := entries[name];
    }
  }
}
