/** The debt-service cover on a corpus of evidence: what more documents can do to it. */
module DscrEvidence {
  import opened Outcomes
  import opened Corpus
  import opened Policies
  import opened EvidenceGate
  import opened EvidenceTheorems
  import opened Formulas
  import opened Calculations
  import opened DscrStages
  import opened DscrTheorems

  /** The gate's direct readings on a corpus. */
  function DirectReader(gate: Gate, chunks: seq<Chunk>): Reader {
    (metric: Metric) => Direct(gate, metric, chunks)
  }

  /** No added document reports a later year than the old sources of any operand do, and no operand is
      read from NIC tables or entity headings. */
  ghost predicate NothingLater(gate: Gate, base: seq<Chunk>, more: seq<Chunk>)
    requires AllOwned(Elements(base)) && AllOwned(Elements(more))
  {
    forall id, n | id in Choices(gate.policy) && n in FormulaOf(id).operands && RuleOf(gate.policy, n).Some? ::
      NoLaterYear(gate, RuleOf(gate.policy, n).value, Elements(base), Elements(more))
  }

  ghost predicate PlainOperands(policy: Policy) {
    forall id, n | id in Choices(policy) && n in FormulaOf(id).operands && RuleOf(policy, n).Some? ::
      !RuleOf(policy, n).value.nicLevel && !RuleOf(policy, n).value.headingPattern
  }

  lemma {:induction false} OperandsAreNotNames(id: FormulaId)
    ensures BorrowerName !in FormulaOf(id).operands
  {
  }

  lemma {:induction false} ReadingKept(gate: Gate, n: Metric, base: seq<Chunk>, more: seq<Chunk>)
    requires n != BorrowerName && AllOwned(Elements(base)) && AddsDocuments(Elements(base), Elements(more))
    requires RuleOf(gate.policy, n).Some? ==>
               !RuleOf(gate.policy, n).value.nicLevel && !RuleOf(gate.policy, n).value.headingPattern
    requires RuleOf(gate.policy, n).Some? && AllOwned(Elements(more)) ==>
               NoLaterYear(gate, RuleOf(gate.policy, n).value, Elements(base), Elements(more))
    ensures KeepsReading(Direct(gate, n, base), Direct(gate, n, more))
  {
    if Direct(gate, n, base).Ok? {
      FigureIsLabelled(gate, n, base);
      DirectIsMonotone(gate, n, base, more);
      if Direct(gate, n, more).Ok? {
        FigureIsLabelled(gate, n, more);
      }
    }
  }

  lemma {:induction false} ReadMeansOwned(gate: Gate, n: Metric, chunks: seq<Chunk>)
    requires Direct(gate, n, chunks).Ok?
    ensures AllOwned(Elements(chunks))
  {
    if !AllOwned(Elements(chunks)) {
      DirectOpens(gate, n, chunks);
    }
  }

  /** A cover rests on readings, so each of its chunks belongs to one document. */
  lemma {:induction false} CoverMeansOwned(gate: Gate, chunks: seq<Chunk>)
    requires Cover(gate.policy, DirectReader(gate, chunks)).Ok?
    ensures AllOwned(Elements(chunks))
  {
    var read := DirectReader(gate, chunks);
    CoverIsComputed(gate.policy, read);
    var id :| id in Choices(gate.policy) && Calculate(id, read, gate.policy.hash) == Cover(gate.policy, read);
    CalculateFacts(id, read, gate.policy.hash);
    TableIsShaped(id);
    var n := FormulaOf(id).operands[0];
    assert read(n).Ok?;
    ReadMeansOwned(gate, n, chunks);
  }

  /** Adding whole new documents that bring no later reporting year either leaves the cover's value as
      it was or makes the gate abstain: two corpora related in this way never yield two different
      covers. Routes that the new documents make computable must agree with the old ones. */
  lemma {:induction false} CoverSurvivesEvidence(gate: Gate, base: seq<Chunk>, more: seq<Chunk>)
    requires PlainOperands(gate.policy)
    requires AllOwned(Elements(base)) && AllOwned(Elements(more)) ==>
               AddsDocuments(Elements(base), Elements(more)) && NothingLater(gate, base, more)
    requires Cover(gate.policy, DirectReader(gate, base)).Ok?
    requires Cover(gate.policy, DirectReader(gate, more)).Ok?
    ensures AsDecimal(Cover(gate.policy, DirectReader(gate, base)).value.value) ==
            AsDecimal(Cover(gate.policy, DirectReader(gate, more)).value.value)
  {
    CoverMeansOwned(gate, base);
    CoverMeansOwned(gate, more);
    forall id, n | id in Choices(gate.policy) && n in FormulaOf(id).operands
      ensures KeepsReading(DirectReader(gate, base)(n), DirectReader(gate, more)(n))
    {
      OperandsAreNotNames(id);
      ReadingKept(gate, n, base, more);
    }
    CoverIsMonotone(gate.policy, DirectReader(gate, base), DirectReader(gate, more));
  }
}
