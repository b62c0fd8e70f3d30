/** A clear page added as a new document to evidence that leaves a metric missing settles the metric. */
module AddedPages {
  import opened Outcomes
  import opened Corpus
  import opened Policies
  import opened Classification
  import opened EvidenceGate
  import opened EvidenceTheorems
  import opened ClearPages
  import opened Decimals

  /** The page is a document of its own. */
  ghost predicate IsNew(cs: set<Chunk>, c: Chunk, k: Facts) {
    AllOwned(cs) && IsClear(c, k) && Owner(c) !in Documents(cs)
  }

  /** It is about the borrower that the evidence anchors, in its latest year. */
  ghost predicate Joins(gate: Gate, rule: Rule, cs: set<Chunk>, c: Chunk, k: Facts) {
    IsNew(cs, c, k) && IsStatement(rule) && Opening(gate, rule, cs) == Ok(Setting(rule, k.entity, Some(k.year)))
  }

  lemma {:induction false} PageIsNewDocument(gate: Gate, cs: set<Chunk>, c: Chunk, k: Facts)
    requires IsNew(cs, c, k)
    ensures AllOwned(cs + {c}) && AddsDocuments(cs, cs + {c})
    ensures Documents(cs + {c}) == Documents(cs) + {Owner(c)}
    ensures Document(cs + {c}, Owner(c)) == {c}
    ensures ProfileIn(cs + {c}, Owner(c)) == Profile(Owner(c), {AuditedFinancials}, Some(k.entity), false)
    ensures forall d | d in Documents(cs) :: Document(cs + {c}, d) == Document(cs, d)
  {
    var more := cs + {c};
    OnlyDocument(c, k);
    forall d ensures d in Documents(more) <==> d in Documents(cs) || d == Owner(c) {
      if d in Documents(cs) {
        var x :| x in cs && Owner(x) == d;
        assert x in more;
      }
      if d == Owner(c) {
        assert c in more;
      }
    }
    forall x | x in cs ensures Owner(x) != Owner(c) {
      assert Owner(x) in Documents(cs);
    }
    assert Document(more, Owner(c)) == {c};
    assert ProfileIn(more, Owner(c)) == ProfileIn({c}, Owner(c));
    forall d | d in Documents(cs) ensures Document(more, d) == Document(cs, d) {
    }
  }

  lemma {:induction false} SourcesGrow(gate: Gate, rule: Rule, cs: set<Chunk>, c: Chunk, k: Facts)
    requires IsNew(cs, c, k) && IsDated(rule)
    ensures AllOwned(cs + {c}) && SourceDocs(gate, rule, cs + {c}) == SourceDocs(gate, rule, cs) + {Owner(c)}
  {
    PageIsNewDocument(gate, cs, c, k);
    assert AuditedFinancials in {AuditedFinancials} * Allowed(rule);
  }

  /** Whoever listens to audited reports listens to the page's documents, old and new. */
  lemma {:induction false} ListenersKnowYears(gate: Gate, rule: Rule, other: Rule, cs: set<Chunk>)
    requires AllOwned(cs) && IsDated(rule) && AuditedFinancials in other.sources
    ensures SourceYears(gate, rule, cs) <= SourceYears(gate, other, cs)
  {
    assert forall t :: t in Allowed(rule) ==> t in Allowed(other);
    forall d | d in SourceDocs(gate, rule, cs) ensures d in SourceDocs(gate, other, cs) {
      var t :| t in ProfileIn(cs, d).types * Allowed(rule);
      assert t in ProfileIn(cs, d).types * Allowed(other);
    }
  }

  lemma {:induction false} PageIsHeardByListeners(gate: Gate, other: Rule, cs: set<Chunk>, c: Chunk, k: Facts)
    requires IsNew(cs, c, k) && AllOwned(cs + {c}) && Owner(c) in SourceDocs(gate, other, cs + {c})
    ensures AuditedFinancials in other.sources
  {
    PageIsNewDocument(gate, cs, c, k);
    var t :| t in {AuditedFinancials} * Allowed(other);
  }

  lemma {:induction false} OldSource(gate: Gate, other: Rule, cs: set<Chunk>, c: Chunk, k: Facts, x: Chunk)
    requires IsNew(cs, c, k) && AllOwned(cs + {c}) && x in cs && Owner(x) in SourceDocs(gate, other, cs + {c})
    ensures Owner(x) in SourceDocs(gate, other, cs)
  {
    PageIsNewDocument(gate, cs, c, k);
    assert Owner(x) in Documents(cs);
  }

  lemma {:induction false} YearOfListener(gate: Gate, other: Rule, cs: set<Chunk>, c: Chunk, k: Facts, y: nat)
    requires IsNew(cs, c, k) && AllOwned(cs + {c}) && y in SourceYears(gate, other, cs + {c})
    ensures y in SourceYears(gate, other, cs) || (y in c.years && AuditedFinancials in other.sources)
  {
    var x :| x in cs + {c} && Owner(x) in SourceDocs(gate, other, cs + {c}) && y in x.years;
    if x == c {
      PageIsHeardByListeners(gate, other, cs, c, k);
    } else {
      OldSource(gate, other, cs, c, k, x);
    }
  }

  lemma {:induction false} YearsGrow(gate: Gate, rule: Rule, cs: set<Chunk>, c: Chunk, k: Facts)
    requires IsNew(cs, c, k) && IsDated(rule)
    ensures AllOwned(cs + {c}) && SourceYears(gate, rule, cs + {c}) == SourceYears(gate, rule, cs) + Elements(c.years)
  {
    SourcesGrow(gate, rule, cs, c, k);
    var more := cs + {c};
    forall y ensures y in SourceYears(gate, rule, more) <==> y in SourceYears(gate, rule, cs) + Elements(c.years) {
      if y in SourceYears(gate, rule, more) {
        YearOfListener(gate, rule, cs, c, k, y);
      }
      if y in SourceYears(gate, rule, cs) {
        var x :| x in cs && Owner(x) in SourceDocs(gate, rule, cs) && y in x.years;
        assert x in more;
      }
      if y in c.years {
        assert c in more;
      }
    }
  }

  lemma {:induction false} LatestOfBoth(before: set<nat>, added: set<nat>, year: nat)
    requires before != {} && MaxOf(before) == year && forall y | y in added :: y <= year
    ensures MaxOf(before + added) == year
  {
    MaxOfBounded(before, before + added);
  }

  lemma {:induction false} LatestYearStays(gate: Gate, rule: Rule, cs: set<Chunk>, c: Chunk, k: Facts)
    requires IsNew(cs, c, k) && IsDated(rule)
    requires SourceYears(gate, rule, cs) != {} && MaxOf(SourceYears(gate, rule, cs)) == k.year
    ensures AllOwned(cs + {c}) && SourceYears(gate, rule, cs + {c}) != {}
    ensures MaxOf(SourceYears(gate, rule, cs + {c})) == k.year
  {
    YearsGrow(gate, rule, cs, c, k);
    LatestOfBoth(SourceYears(gate, rule, cs), Elements(c.years), k.year);
  }

  /** A new clear page of the latest year of a dated rule brings no later year for that rule or any other. */
  lemma {:induction false} PageBringsNoLaterYear(gate: Gate, rule: Rule, other: Rule, cs: set<Chunk>, c: Chunk,
                                                 k: Facts)
    requires IsNew(cs, c, k) && IsDated(rule)
    requires SourceYears(gate, rule, cs) != {} && MaxOf(SourceYears(gate, rule, cs)) == k.year
    ensures AllOwned(cs + {c}) && NoLaterYear(gate, other, cs, cs + {c})
  {
    PageIsNewDocument(gate, cs, c, k);
    if SourceYears(gate, other, cs) != {} {
      forall y | y in SourceYears(gate, other, cs + {c}) ensures y <= MaxOf(SourceYears(gate, other, cs)) {
        YearOfListener(gate, other, cs, c, k, y);
        if y !in SourceYears(gate, other, cs) {
          ListenersKnowYears(gate, rule, other, cs);
          assert k.year in SourceYears(gate, other, cs);
        }
      }
    }
  }

  lemma {:induction false} AnchorsGrow(gate: Gate, cs: set<Chunk>, c: Chunk, k: Facts)
    requires IsNew(cs, c, k)
    ensures AllOwned(cs + {c})
    ensures AnchorDocs(gate, cs) <= AnchorDocs(gate, cs + {c}) <= AnchorDocs(gate, cs) + {Owner(c)}
  {
    var more := cs + {c};
    PageIsNewDocument(gate, cs, c, k);
    assert !IsRegistration(ProfileIn(more, Owner(c)));
    var registrations := set d | d in Documents(cs) && IsRegistration(ProfileIn(cs, d));
    assert registrations == set d | d in Documents(more) && IsRegistration(ProfileIn(more, d));
  }

  lemma {:induction false} AnchorStays(gate: Gate, cs: set<Chunk>, c: Chunk, k: Facts, d: nat)
    requires IsNew(cs, c, k) && AllOwned(cs + {c}) && d in AnchorDocs(gate, cs + {c})
    ensures if d == Owner(c) then ProfileIn(cs + {c}, d) == Profile(d, {AuditedFinancials}, Some(k.entity), false)
            else d in AnchorDocs(gate, cs) && ProfileIn(cs + {c}, d) == ProfileIn(cs, d)
  {
    PageIsNewDocument(gate, cs, c, k);
    AnchorsGrow(gate, cs, c, k);
    assert d in Documents(cs + {c});
  }

  lemma {:induction false} EntityStays(gate: Gate, rule: Rule, cs: set<Chunk>, c: Chunk, k: Facts, st: Setting)
    requires IsNew(cs, c, k) && Fixes(gate, rule, cs, st) && st.entity == k.entity
    ensures AllOwned(cs + {c}) && AnchoredEntities(gate, cs + {c}) == {k.entity}
    ensures forall d | d in AnchorDocs(gate, cs + {c}) :: !ProfileIn(cs + {c}, d).ambiguous
  {
    var more := cs + {c};
    PageIsNewDocument(gate, cs, c, k);
    AnchorsGrow(gate, cs, c, k);
    AnchoredOnce(gate, cs, k.entity);
    forall x | x in AnchorDocs(gate, more)
      ensures !ProfileIn(more, x).ambiguous && ProfileIn(more, x).entity in {None, Some(k.entity)}
    {
      AnchorStays(gate, cs, c, k, x);
      if x != Owner(c) {
        AnchorNames(gate, cs, k.entity, x);
      }
    }
    var d :| d in AnchorDocs(gate, cs) && ProfileIn(cs, d).entity == Some(k.entity);
    assert d in Documents(cs);
    assert ProfileIn(more, d) == ProfileIn(cs, d);
    AnchoredBy(gate, more, k.entity, d);
  }

  lemma {:induction false} AnchoredOnce(gate: Gate, cs: set<Chunk>, e: Identity)
    requires AllOwned(cs) && AnchoredEntities(gate, cs) == {e}
    ensures exists d :: d in AnchorDocs(gate, cs) && ProfileIn(cs, d).entity == Some(e)
  {
    assert e in AnchoredEntities(gate, cs);
  }

  lemma {:induction false} AnchorNames(gate: Gate, cs: set<Chunk>, e: Identity, x: nat)
    requires AllOwned(cs) && AnchoredEntities(gate, cs) == {e} && x in AnchorDocs(gate, cs)
    ensures ProfileIn(cs, x).entity in {None, Some(e)}
  {
    if ProfileIn(cs, x).entity.Some? {
      assert ProfileIn(cs, x).entity.value in AnchoredEntities(gate, cs);
    }
  }

  lemma {:induction false} AnchoredBy(gate: Gate, cs: set<Chunk>, e: Identity, d: nat)
    requires AllOwned(cs) && d in AnchorDocs(gate, cs) && ProfileIn(cs, d).entity == Some(e)
    requires forall x | x in AnchorDocs(gate, cs) :: ProfileIn(cs, x).entity in {None, Some(e)}
    ensures AnchoredEntities(gate, cs) == {e}
  {
  }

  lemma {:induction false} OpensAlike(gate: Gate, rule: Rule, cs: set<Chunk>, st: Setting)
    requires AllOwned(cs) && SourceDocs(gate, rule, cs) != {} && AnchoredEntities(gate, cs) == {st.entity}
    requires forall d | d in AnchorDocs(gate, cs) :: !ProfileIn(cs, d).ambiguous
    requires rule.requirePeriod && SourceYears(gate, rule, cs) != {}
    requires st == Setting(rule, st.entity, Some(MaxOf(SourceYears(gate, rule, cs))))
    ensures Opening(gate, rule, cs) == Ok(st)
  {
    SoleIsOnly(AnchoredEntities(gate, cs));
    assert Sole(AnchoredEntities(gate, cs)).value in {st.entity};
  }

  lemma {:induction false} OpeningStays(gate: Gate, rule: Rule, cs: set<Chunk>, c: Chunk, k: Facts)
    requires Joins(gate, rule, cs, c, k)
    ensures AllOwned(cs + {c}) && Opening(gate, rule, cs + {c}) == Ok(Setting(rule, k.entity, Some(k.year)))
  {
    var st := Setting(rule, k.entity, Some(k.year));
    OpeningFixes(gate, rule, cs);
    SourcesGrow(gate, rule, cs, c, k);
    LatestYearStays(gate, rule, cs, c, k);
    EntityStays(gate, rule, cs, c, k, st);
    OpensAlike(gate, rule, cs + {c}, st);
  }

  /** Old chunks are judged as before. */
  lemma {:induction false} JudgementStays(gate: Gate, metric: Metric, st: Setting, cs: set<Chunk>, c: Chunk, k: Facts,
                                          x: Chunk)
    requires IsNew(cs, c, k) && IsDated(st.rule) && x in cs
    ensures AllOwned(cs + {c}) && (Heard(gate, st.rule, cs + {c}, x) <==> Heard(gate, st.rule, cs, x))
    ensures Heard(gate, st.rule, cs, x) ==> Judge(gate, metric, st, cs + {c}, x) == Judge(gate, metric, st, cs, x)
  {
    SourcesGrow(gate, st.rule, cs, c, k);
    PageIsNewDocument(gate, cs, c, k);
    assert Owner(x) in Documents(cs);
    ConflictsKept(gate, cs, cs + {c}, x);
  }

  lemma {:induction false} PageStandsAlone(gate: Gate, cs: set<Chunk>, c: Chunk, k: Facts)
    requires IsNew(cs, c, k)
    ensures Conflicts(gate, cs + {c}, c) <==> Conflicts(gate, {c}, c)
  {
    var more := cs + {c};
    PageIsNewDocument(gate, cs, c, k);
    forall p ensures ChunksOn(more, PageKey(Owner(c), p)) == ChunksOn({c}, PageKey(Owner(c), p)) {
      forall x | x in ChunksOn(more, PageKey(Owner(c), p)) ensures x == c {
        assert Owner(x) == Owner(c);
        assert x in Document(more, Owner(c));
      }
    }
  }

  /** The new page is heard, and judged as it is alone. */
  lemma {:induction false} PageIsJudgedAlike(gate: Gate, metric: Metric, st: Setting, cs: set<Chunk>, c: Chunk,
                                             k: Facts)
    requires IsNew(cs, c, k) && IsDated(st.rule)
    ensures AllOwned(cs + {c}) && Heard(gate, st.rule, cs + {c}, c) && AllOwned({c}) && Heard(gate, st.rule, {c}, c)
    ensures Judge(gate, metric, st, cs + {c}, c) == Judge(gate, metric, st, {c}, c)
  {
    SourcesGrow(gate, st.rule, cs, c, k);
    PageIsNewDocument(gate, cs, c, k);
    PageIsSource(gate, st.rule, c, k);
    OnlyDocument(c, k);
    PageStandsAlone(gate, cs, c, k);
  }

  lemma {:induction false} NothingDecides(rule: Rule, latest: Option<nat>, fs: set<Figure>, older: bool)
    requires VerdictFrom(Deciding(rule, latest, fs, older)) == Absent
    ensures fs == {} && !older
  {
  }

  /** Evidence that leaves a metric missing is clear, has no candidate, and passed over no older row. */
  lemma {:induction false} AbsentUnfolds(gate: Gate, metric: Metric, cs: set<Chunk>, st: Setting)
    requires VerdictOn(gate, metric, cs) == Absent && AllOwned(cs) && RuleOf(gate.policy, metric).Some?
    requires Opening(gate, RuleOf(gate.policy, metric).value, cs) == Ok(st)
    ensures AllClear(gate, metric, st, cs) && CandidatesOf(gate, metric, st, cs) == {} &&
            !PassedOlder(gate, metric, st, cs)
  {
    var same := VerdictUnfolds(gate, metric, cs);
    NothingDecides(st.rule, st.latest, CandidatesOf(gate, metric, st, cs), PassedOlder(gate, metric, st, cs));
  }

  lemma {:induction false} ChunkStaysClear(gate: Gate, metric: Metric, st: Setting, cs: set<Chunk>, c: Chunk, k: Facts,
                                           x: Chunk)
    requires IsNew(cs, c, k) && IsDated(st.rule) && AllClear(gate, metric, st, cs)
    requires AllOwned({c}) && Heard(gate, st.rule, {c}, c) && Judge(gate, metric, st, {c}, c).Ok?
    requires AllOwned(cs + {c}) && Heard(gate, st.rule, cs + {c}, x)
    ensures Judge(gate, metric, st, cs + {c}, x).Ok?
  {
    if x == c {
      PageIsJudgedAlike(gate, metric, st, cs, c, k);
    } else {
      JudgementStays(gate, metric, st, cs, c, k, x);
      assert SourceClear(gate, metric, st, cs, Owner(x));
    }
  }

  lemma {:induction false} MoreIsClear(gate: Gate, metric: Metric, st: Setting, cs: set<Chunk>, c: Chunk, k: Facts)
    requires IsNew(cs, c, k) && IsDated(st.rule) && AllClear(gate, metric, st, cs)
    requires AllOwned({c}) && Heard(gate, st.rule, {c}, c) && Judge(gate, metric, st, {c}, c).Ok?
    ensures AllOwned(cs + {c}) && AllClear(gate, metric, st, cs + {c})
  {
    PageIsNewDocument(gate, cs, c, k);
    SourcesGrow(gate, st.rule, cs, c, k);
    forall d | d in Documents(cs + {c}) ensures SourceClear(gate, metric, st, cs + {c}, d) {
      if d != Owner(c) {
        assert SourceClear(gate, metric, st, cs, d);
        assert ProfileIn(cs + {c}, d) == ProfileIn(cs, d);
      }
      forall x | Heard(gate, st.rule, cs + {c}, x) && Owner(x) == d ensures Judge(gate, metric, st, cs + {c}, x).Ok? {
        ChunkStaysClear(gate, metric, st, cs, c, k, x);
      }
    }
  }

  lemma {:induction false} OldVoice(gate: Gate, metric: Metric, st: Setting, cs: set<Chunk>, c: Chunk, k: Facts,
                                    x: Chunk, g: Figure)
    requires IsNew(cs, c, k) && IsDated(st.rule) && AllOwned(cs + {c}) && x in cs &&
             Speaks(gate, metric, st, cs + {c}, x, g)
    ensures g in CandidatesOf(gate, metric, st, cs)
  {
    JudgementStays(gate, metric, st, cs, c, k, x);
    CandidatesSpeak(gate, metric, st, cs, g);
    assert Speaks(gate, metric, st, cs, x, g);
  }

  lemma {:induction false} NewVoice(gate: Gate, metric: Metric, st: Setting, cs: set<Chunk>, c: Chunk, k: Facts,
                                    f: Figure, g: Figure)
    requires IsNew(cs, c, k) && IsDated(st.rule) && AllOwned(cs + {c})
    requires AllOwned({c}) && Heard(gate, st.rule, {c}, c) && Judge(gate, metric, st, {c}, c) == Ok(Finding([f], false))
    ensures Speaks(gate, metric, st, cs + {c}, c, g) <==> g == f
  {
    PageIsJudgedAlike(gate, metric, st, cs, c, k);
  }

  lemma {:induction false} CandidateVoice(gate: Gate, metric: Metric, st: Setting, cs: set<Chunk>, g: Figure)
    returns (x: Chunk)
    requires AllOwned(cs) && g in CandidatesOf(gate, metric, st, cs)
    ensures x in cs && Speaks(gate, metric, st, cs, x, g)
  {
    CandidatesSpeak(gate, metric, st, cs, g);
    x :| x in cs && Speaks(gate, metric, st, cs, x, g);
  }

  lemma {:induction false} VoiceCandidate(gate: Gate, metric: Metric, st: Setting, cs: set<Chunk>, x: Chunk, g: Figure)
    requires AllOwned(cs) && x in cs && Speaks(gate, metric, st, cs, x, g)
    ensures g in CandidatesOf(gate, metric, st, cs)
  {
    CandidatesSpeak(gate, metric, st, cs, g);
  }

  lemma {:induction false} OnlyNewVoice(gate: Gate, metric: Metric, st: Setting, cs: set<Chunk>, c: Chunk, k: Facts,
                                        f: Figure, g: Figure)
    requires IsNew(cs, c, k) && IsDated(st.rule) && AllOwned(cs + {c}) && CandidatesOf(gate, metric, st, cs) == {}
    requires AllOwned({c}) && Heard(gate, st.rule, {c}, c) && Judge(gate, metric, st, {c}, c) == Ok(Finding([f], false))
    requires g in CandidatesOf(gate, metric, st, cs + {c})
    ensures g == f
  {
    var x := CandidateVoice(gate, metric, st, cs + {c}, g);
    if x in cs {
      OldVoice(gate, metric, st, cs, c, k, x, g);
      assert false;
    }
    NewVoice(gate, metric, st, cs, c, k, f, g);
  }

  lemma {:induction false} MoreCandidates(gate: Gate, metric: Metric, st: Setting, cs: set<Chunk>, c: Chunk, k: Facts,
                                          f: Figure)
    requires IsNew(cs, c, k) && IsDated(st.rule) && AllOwned(cs + {c}) && CandidatesOf(gate, metric, st, cs) == {}
    requires AllOwned({c}) && Heard(gate, st.rule, {c}, c) && Judge(gate, metric, st, {c}, c) == Ok(Finding([f], false))
    ensures CandidatesOf(gate, metric, st, cs + {c}) == {f}
  {
    NewVoice(gate, metric, st, cs, c, k, f, f);
    VoiceCandidate(gate, metric, st, cs + {c}, c, f);
    var candidates := CandidatesOf(gate, metric, st, cs + {c});
    forall g | g in candidates ensures g == f {
      OnlyNewVoice(gate, metric, st, cs, c, k, f, g);
    }
  }

  lemma {:induction false} OlderStays(gate: Gate, metric: Metric, st: Setting, cs: set<Chunk>, c: Chunk, k: Facts,
                                      x: Chunk)
    requires IsNew(cs, c, k) && IsDated(st.rule) && AllOwned(cs + {c}) && x in cs + {c}
    requires AllOwned({c}) && Heard(gate, st.rule, {c}, c) && Judge(gate, metric, st, {c}, c).Ok?
    requires !Judge(gate, metric, st, {c}, c).value.older && SpeaksOlder(gate, metric, st, cs + {c}, x)
    ensures x in cs && SpeaksOlder(gate, metric, st, cs, x)
  {
    if x == c {
      PageIsJudgedAlike(gate, metric, st, cs, c, k);
    } else {
      JudgementStays(gate, metric, st, cs, c, k, x);
    }
  }

  lemma {:induction false} NothingOlder(gate: Gate, metric: Metric, st: Setting, cs: set<Chunk>, c: Chunk, k: Facts)
    requires IsNew(cs, c, k) && IsDated(st.rule) && !PassedOlder(gate, metric, st, cs)
    requires AllOwned({c}) && Heard(gate, st.rule, {c}, c) && Judge(gate, metric, st, {c}, c).Ok?
    requires !Judge(gate, metric, st, {c}, c).value.older
    ensures AllOwned(cs + {c}) && !PassedOlder(gate, metric, st, cs + {c})
  {
    PageIsNewDocument(gate, cs, c, k);
    if x :| x in cs + {c} && SpeaksOlder(gate, metric, st, cs + {c}, x) {
      OlderStays(gate, metric, st, cs, c, k, x);
    }
  }

  /** A new clear page about the borrower, in the latest year, with a row for a metric that was missing: the gate now
      reads that row. */
  lemma {:induction false} AddedPageIsRead(gate: Gate, metric: Metric, rule: Rule, base: seq<Chunk>, c: Chunk, k: Facts,
                                           amount: Numeral)
    requires RuleOf(gate.policy, metric) == Some(rule) && metric != BorrowerName && metric != Region
    requires Joins(gate, rule, Elements(base), c, k) && Direct(gate, metric, base) == Err(MetricMissing)
    requires Carries(c, k, rule.kind, metric, amount)
    ensures Direct(gate, metric, base + [c]).Ok?
    ensures IsAmount(gate, k, rule.kind, metric, amount, Direct(gate, metric, base + [c]).value)
  {
    var cs, st := Elements(base), Setting(rule, k.entity, Some(k.year));
    assert Elements(base + [c]) == cs + {c};
    DirectReachesVerdict(gate, metric, base);
    AbsentUnfolds(gate, metric, cs, st);
    var f := PageIsJudged(gate, metric, st, c, k, amount);
    OpeningStays(gate, rule, cs, c, k);
    MoreIsClear(gate, metric, st, cs, c, k);
    MoreCandidates(gate, metric, st, cs, c, k, f);
    NothingOlder(gate, metric, st, cs, c, k);
    SoleCandidateSettles(gate, metric, cs + {c}, st, f);
    SoleFigureIsReturned(gate, metric, base + [c], st, f);
  }
}
