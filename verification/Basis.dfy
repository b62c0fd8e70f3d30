/** Accounting-basis resolution within one financial report: the basis named on the figure's own
    page, else the one basis that the report declares for the figure's year. */
module BasisResolution {
  import opened Outcomes
  import opened Corpus
  import opened Policies

  datatype BasisFinding = BasisFinding(basis: Basis, resolution: Resolution, context: set<Provenance>)

  function OnPages(items: set<Chunk>, pages: set<nat>): set<Chunk> {
    set c | c in items && Pages(c) * pages != {}
  }

  function BasesIn(cs: set<Chunk>): set<Basis> {
    set c, b | c in cs && b in c.bases :: b
  }

  function YearsIn(cs: set<Chunk>): set<nat> {
    set c, y | c in cs && y in c.years :: y
  }

  /** Every chunk of the source belongs to the target's only document. */
  predicate InScope(target: Chunk, items: set<Chunk>) {
    SingleOwner(target) &&
    forall c, p | c in items && p in c.provenance :: p.document == Owner(target)
  }

  /** A declaration that is on pages which name the period. */
  predicate DeclaresFor(items: set<Chunk>, c: Chunk, period: Option<nat>) {
    c.declaresBasis && period.Some? && period.value in YearsIn(OnPages(items, Pages(c)))
  }

  /** The declarations for a period, among some of the report's chunks. */
  function Declared(items: set<Chunk>, among: set<Chunk>, period: Option<nat>): set<Chunk> {
    set c | c in among && DeclaresFor(items, c, period)
  }

  /** A declaration's provenance and that of the period headings on its pages. */
  function ContextOf(items: set<Chunk>, c: Chunk, period: Option<nat>): set<Provenance>
    requires period.Some?
  {
    set e, p | e in OnPages(items, Pages(c)) && (e == c || period.value in e.years) && p in e.provenance :: p
  }

  function DeclarationContext(items: set<Chunk>, among: set<Chunk>, period: Option<nat>): set<Provenance> {
    set c, p | c in Declared(items, among, period) && p in ContextOf(items, c, period) :: p
  }

  /** Refusals are the same whichever chunk causes them, so the outcome is a function of the set. */
  function BasisOf(target: Chunk, items: set<Chunk>, period: Option<nat>): Result<BasisFinding> {
    if !InScope(target, items) then Err(ScopeViolation)
    else
      var local := OnPages(items, Pages(target));
      var named := Sole(BasesIn(local));
      if named.Some? then
        Ok(BasisFinding(named.value, SamePage,
                        set c, p | c in local && named.value in c.bases && p in c.provenance :: p))
      else if BasesIn(local) != {} then Err(BasisAmbiguous)
      else if exists c :: c in items && c.declaresBasis && Sole(c.bases).None? then Err(BasisAmbiguous)
      else
        var declared := Sole(BasesIn(Declared(items, items, period)));
        if declared.None? || |BasesIn(items)| > 1 then Err(BasisAmbiguous)
        else Ok(BasisFinding(declared.value, ReportDeclaration, DeclarationContext(items, items, period)))
  }

  ghost predicate UniqueOnPage(target: Chunk, items: set<Chunk>, b: Basis) {
    BasesIn(OnPages(items, Pages(target))) == {b}
  }

  ghost predicate UniquelyDeclared(target: Chunk, items: set<Chunk>, period: Option<nat>, b: Basis) {
    && BasesIn(OnPages(items, Pages(target))) == {}
    && BasesIn(items) == {b}
    && (forall c | c in items && c.declaresBasis :: c.bases == {b})
    && exists c :: c in items && DeclaresFor(items, c, period)
  }

  lemma {:induction false} OnlyBasis(cs: set<Chunk>, b: Basis)
    requires exists c :: c in cs && b in c.bases
    requires forall c | c in cs :: c.bases <= {b}
    ensures BasesIn(cs) == {b} && Sole(BasesIn(cs)) == Some(b)
  {
    assert BasesIn(cs) == {b};
    assert |BasesIn(cs)| == |{b}|;
  }

  lemma {:induction false} AtMostOneBasis(cs: set<Chunk>, b: Basis)
    requires b in BasesIn(cs) && |BasesIn(cs)| <= 1
    ensures BasesIn(cs) == {b}
  {
    assert |BasesIn(cs)| != 0;
    SingletonHasOneMember(BasesIn(cs), b);
  }

  lemma {:induction false} DeclaredBasisIsUnique(target: Chunk, items: set<Chunk>, period: Option<nat>)
    requires InScope(target, items) && BasesIn(OnPages(items, Pages(target))) == {}
    requires BasisOf(target, items, period).Ok?
    ensures UniquelyDeclared(target, items, period, BasisOf(target, items, period).value.basis)
  {
    var d := BasisOf(target, items, period).value.basis;
    var declared := Declared(items, items, period);
    assert BasesIn(declared) == {d};
    var c :| c in declared && d in c.bases;
    assert c in items && DeclaresFor(items, c, period);
    assert d in BasesIn(items);
    AtMostOneBasis(items, d);
    forall e | e in items && e.declaresBasis ensures e.bases == {d} {
      var own := Sole(e.bases);
      assert own.value in BasesIn(items);
    }
  }

  lemma {:induction false} UniqueDeclarationIsFound(target: Chunk, items: set<Chunk>, period: Option<nat>, b: Basis)
    requires InScope(target, items)
    requires UniquelyDeclared(target, items, period, b)
    ensures BasisOf(target, items, period).Ok? && BasisOf(target, items, period).value.basis == b
  {
    forall c | c in items && c.declaresBasis ensures Sole(c.bases).Some? {
      assert |c.bases| == |{b}|;
    }
    var c :| c in items && DeclaresFor(items, c, period);
    assert c in Declared(items, items, period);
    OnlyBasis(Declared(items, items, period), b);
    assert |BasesIn(items)| == |{b}|;
  }

  /** A basis is used exactly when it is the only one on the figure's page, or when the page names
      none and it is the only one the report names, declared under a heading for the figure's year. */
  lemma {:induction false} BasisIsUnambiguous(target: Chunk, items: set<Chunk>, period: Option<nat>, b: Basis)
    requires InScope(target, items)
    ensures (BasisOf(target, items, period).Ok? && BasisOf(target, items, period).value.basis == b) <==>
            UniqueOnPage(target, items, b) || UniquelyDeclared(target, items, period, b)
  {
    var local := BasesIn(OnPages(items, Pages(target)));
    if local == {} {
      if BasisOf(target, items, period).Ok? {
        DeclaredBasisIsUnique(target, items, period);
      }
      if UniquelyDeclared(target, items, period, b) {
        UniqueDeclarationIsFound(target, items, period, b);
      }
    } else if local == {b} {
      assert |local| == |{b}|;
    }
  }

  lemma {:induction false} DeclarationStep(items: set<Chunk>, before: set<Chunk>, c: Chunk, period: Option<nat>)
    ensures var after := before + {c};
            if DeclaresFor(items, c, period) then
              && BasesIn(Declared(items, after, period)) == BasesIn(Declared(items, before, period)) + c.bases
              && DeclarationContext(items, after, period) ==
                   DeclarationContext(items, before, period) + ContextOf(items, c, period)
            else Declared(items, after, period) == Declared(items, before, period)
  {
    var after := before + {c};
    if DeclaresFor(items, c, period) {
      assert Declared(items, after, period) == Declared(items, before, period) + {c};
    } else {
      assert Declared(items, after, period) == Declared(items, before, period);
    }
  }

  /** The loop over the report's chunks that gathers declarations, refusing a heading that names no
      basis or several. */
  method GatherDeclarations(source: seq<Chunk>, period: Option<nat>)
    returns (r: Result<(set<Basis>, set<Provenance>)>)
    ensures var items := Elements(source);
            if exists c :: c in items && c.declaresBasis && Sole(c.bases).None? then r == Err(BasisAmbiguous)
            else r == Ok((BasesIn(Declared(items, items, period)), DeclarationContext(items, items, period)))
  {
    var items := Elements(source);
    var declared: set<Basis> := {};
    var context: set<Provenance> := {};
    for i := 0 to |source|
      invariant forall c | c in source[..i] && c.declaresBasis :: Sole(c.bases).Some?
      invariant declared == BasesIn(Declared(items, Elements(source[..i]), period))
      invariant context == DeclarationContext(items, Elements(source[..i]), period)
    {
      var chunk := source[i];
      assert Elements(source[..i + 1]) == Elements(source[..i]) + {chunk};
      DeclarationStep(items, Elements(source[..i]), chunk, period);
      if !chunk.declaresBasis {
        continue;
      }
      var bases := Sole(chunk.bases);
      if bases.None? {
        assert chunk in items;
        return Err(BasisAmbiguous);
      }
      if period.None? || period.value !in YearsIn(OnPages(items, Pages(chunk))) {
        continue;
      }
      declared := declared + {bases.value};
      context := context + ContextOf(items, chunk, period);
    }
    assert source[..|source|] == source;
    return Ok((declared, context));
  }

  /** The resolver with its early refusals and returns. */
  method ResolveBasis(target: Chunk, source: seq<Chunk>, period: Option<nat>) returns (r: Result<BasisFinding>)
    ensures r == BasisOf(target, Elements(source), period)
  {
    var items := Elements(source);
    if !InScope(target, items) {
      return Err(ScopeViolation);
    }
    var local := OnPages(items, Pages(target));
    var localBases := BasesIn(local);
    if |localBases| > 1 {
      return Err(BasisAmbiguous);
    }
    var named := Sole(localBases);
    if named.Some? {
      return Ok(BasisFinding(named.value, SamePage,
                             set c, p | c in local && named.value in c.bases && p in c.provenance :: p));
    }
    assert localBases == {};
    var gathered :- GatherDeclarations(source, period);
    var (declared, context) := gathered;
    if |BasesIn(items)| > 1 || |declared| != 1 {
      return Err(BasisAmbiguous);
    }
    return Ok(BasisFinding(Sole(declared).value, ReportDeclaration, context));
  }
}
