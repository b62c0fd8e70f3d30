/** Which of the candidates that agree is returned, and what that owes to the order of the chunks. */
module EvidenceOrder {
  import opened Outcomes
  import opened Decimals
  import opened Corpus
  import opened Policies
  import opened EvidenceGate
  import opened EvidenceTheorems
  import opened ClearPages

  /** The figures of a set that are cited first, by document and page. */
  function Foremost(fs: set<Figure>): set<Figure> {
    set f | f in fs && forall g | g in fs :: !Earlier(g, f)
  }

  /** No figure of the set is cited before another. */
  predicate Tied(fs: set<Figure>) {
    forall f, g | f in fs && g in fs :: !Earlier(f, g)
  }

  lemma {:induction false} FirstAt(fs: seq<Figure>, among: set<Figure>) returns (k: nat)
    requires First(fs, among).Some?
    ensures k < |fs| && First(fs, among) == Some(fs[k])
    ensures forall j | 0 <= j < k && fs[j] in among :: Earlier(fs[k], fs[j])
  {
    var n := |fs| - 1;
    if First(fs, among) == First(fs[..n], among) {
      k := FirstAt(fs[..n], among);
      assert forall j | 0 <= j < k :: fs[j] == fs[..n][j];
    } else {
      k := n;
      forall j | 0 <= j < n && fs[j] in among ensures Earlier(fs[n], fs[j]) {
        assert fs[..n][j] == fs[j];
      }
    }
  }

  lemma {:induction false} FirstIsOnly(fs: seq<Figure>, among: set<Figure>, k: nat)
    requires k < |fs| && fs[k] in among && Tied(among) && forall j | 0 <= j < k :: fs[j] !in among
    ensures First(fs, among) == Some(fs[k])
  {
    var i := FirstAt(fs, among);
    assert !Earlier(fs[i], fs[k]);
  }

  /** Only the foremost of the figures among which to choose matter. */
  lemma {:induction false} FirstIsForemost(fs: seq<Figure>, among: set<Figure>)
    requires forall f | f in among :: f in fs
    ensures Tied(Foremost(among)) && First(fs, among) == First(fs, Foremost(among))
  {
    var foremost := Foremost(among);
    if First(fs, among).Some? {
      var k := FirstAt(fs, among);
      var first := fs[k];
      assert first in foremost;
      forall j | 0 <= j < k ensures fs[j] !in foremost {
        var other := fs[j];
        assert other in foremost ==> !Earlier(first, other);
      }
      FirstIsOnly(fs, foremost, k);
    } else {
      assert foremost == {};
    }
  }

  lemma {:induction false} FirstOfSum(a: seq<Figure>, b: seq<Figure>, among: set<Figure>)
    requires Tied(among)
    ensures First(a + b, among) == if First(a, among).Some? then First(a, among) else First(b, among)
  {
    if b == [] {
      assert a + b == a;
    } else {
      var n := |b| - 1;
      FirstOfSum(a, b[..n], among);
      assert (a + b)[..|a + b| - 1] == a + b[..n];
    }
  }

  // ----- the first in a loop's findings -----

  lemma {:induction false} LastPart(parts: seq<Result<Finding>>, among: set<Figure>)
    requires parts != [] && Gather(parts).Ok? && Tied(among)
    ensures var n := |parts| - 1;
            && Gather(parts[..n]).Ok? && parts[n].Ok?
            && var before := First(Gather(parts[..n]).value.candidates, among);
            First(Gather(parts).value.candidates, among) ==
              if before.Some? then before else First(parts[n].value.candidates, among)
  {
    var n := |parts| - 1;
    FirstOfSum(Gather(parts[..n]).value.candidates, parts[n].value.candidates, among);
  }

  /** What the first turn of a loop has to offer goes first. */
  lemma {:induction false} FirstTurnLeads(parts: seq<Result<Finding>>, among: set<Figure>)
    requires parts != [] && Gather(parts).Ok? && Tied(among)
    ensures parts[0].Ok?
    ensures First(parts[0].value.candidates, among).Some? ==>
              First(Gather(parts).value.candidates, among) == First(parts[0].value.candidates, among)
  {
    LastPart(parts, among);
    if |parts| > 1 {
      FirstTurnLeads(parts[..|parts| - 1], among);
    } else {
      assert parts[..0] == [];
    }
  }

  /** And what is first in all findings is first in some turn's. */
  lemma {:induction false} SomeTurnLeads(parts: seq<Result<Finding>>, among: set<Figure>) returns (i: nat)
    requires Gather(parts).Ok? && Tied(among) && First(Gather(parts).value.candidates, among).Some?
    ensures i < |parts| && parts[i].Ok?
    ensures First(parts[i].value.candidates, among) == First(Gather(parts).value.candidates, among)
  {
    LastPart(parts, among);
    var n := |parts| - 1;
    if First(Gather(parts[..n]).value.candidates, among).Some? {
      i := SomeTurnLeads(parts[..n], among);
    } else {
      i := n;
    }
  }

  // ----- leads -----

  /** The figure of a chunk that may be returned: the first in its rows of the foremost deciding candidates. */
  ghost function LeadOf(gate: Gate, metric: Metric, st: Setting, cs: set<Chunk>, c: Chunk): Option<Figure>
    requires AllOwned(cs)
  {
    var deciding := DecidingIn(gate, metric, cs, st);
    if Heard(gate, st.rule, cs, c) && Judge(gate, metric, st, cs, c).Ok? && deciding.Ok?
    then First(Judge(gate, metric, st, cs, c).value.candidates, Foremost(deciding.value))
    else None
  }

  lemma {:induction false} ConclusionIsFirst(rule: Rule, latest: Option<nat>, finding: Finding)
    requires Conclude(rule, latest, finding).Ok?
    ensures var deciding := Deciding(rule, latest, Elements(finding.candidates), finding.older);
            && deciding.Ok? && Tied(Foremost(deciding.value))
            && First(finding.candidates, Foremost(deciding.value)) == Some(Conclude(rule, latest, finding).value)
  {
    var deciding := Deciding(rule, latest, Elements(finding.candidates), finding.older).value;
    forall f | f in deciding ensures f in finding.candidates {
      DecidersAreCandidates(rule, latest, Elements(finding.candidates), finding.older, f);
    }
    FirstIsForemost(finding.candidates, deciding);
  }

  lemma {:induction false} FoundIsDecided(gate: Gate, metric: Metric, st: Setting, chunks: seq<Chunk>)
    requires AllOwned(Elements(chunks)) && AllClear(gate, metric, st, Elements(chunks))
    ensures var found := Gather(Turns(gate, metric, st, chunks));
            && found.Ok?
            && Deciding(st.rule, st.latest, Elements(found.value.candidates), found.value.older)
               == DecidingIn(gate, metric, Elements(chunks), st)
  {
    SurveyGathers(gate, metric, st, chunks);
  }

  lemma {:induction false} DirectIsConclusion(gate: Gate, metric: Metric, chunks: seq<Chunk>) returns (st: Setting)
    requires Direct(gate, metric, chunks).Ok?
    ensures AllOwned(Elements(chunks)) && RuleOf(gate.policy, metric).Some?
    ensures Opening(gate, RuleOf(gate.policy, metric).value, Elements(chunks)) == Ok(st)
    ensures AllClear(gate, metric, st, Elements(chunks)) && st.rule == RuleOf(gate.policy, metric).value
    ensures var found := Gather(Turns(gate, metric, st, chunks));
            found.Ok? && Conclude(st.rule, st.latest, found.value) == Direct(gate, metric, chunks)
  {
    DirectReachesVerdict(gate, metric, chunks);
    st := VerdictUnfolds(gate, metric, Elements(chunks));
    OpeningFixes(gate, RuleOf(gate.policy, metric).value, Elements(chunks));
    SurveyRefuses(gate, metric, st, chunks);
    DirectUnfolds(gate, metric, chunks, st);
  }

  /** What is returned is the first of the foremost deciding candidates in the order of the scan. */
  lemma {:induction false} DirectIsFirst(gate: Gate, metric: Metric, chunks: seq<Chunk>) returns (st: Setting)
    requires Direct(gate, metric, chunks).Ok?
    ensures AllOwned(Elements(chunks)) && RuleOf(gate.policy, metric).Some?
    ensures Opening(gate, RuleOf(gate.policy, metric).value, Elements(chunks)) == Ok(st)
    ensures var deciding := DecidingIn(gate, metric, Elements(chunks), st);
            var found := Gather(Turns(gate, metric, st, chunks));
            && deciding.Ok? && found.Ok? && Tied(Foremost(deciding.value))
            && First(found.value.candidates, Foremost(deciding.value)) == Some(Direct(gate, metric, chunks).value)
  {
    st := DirectIsConclusion(gate, metric, chunks);
    FoundIsDecided(gate, metric, st, chunks);
    ConclusionIsFirst(st.rule, st.latest, Gather(Turns(gate, metric, st, chunks)).value);
  }

  /** A turn of the outer loop that offers a candidate gathers the judgements of a document. */
  lemma {:induction false} OfferingTurn(gate: Gate, metric: Metric, st: Setting, chunks: seq<Chunk>, i: nat)
    requires AllOwned(Elements(chunks)) && i < |Order(chunks)|
    requires Turns(gate, metric, st, chunks)[i].Ok? && Turns(gate, metric, st, chunks)[i].value.candidates != []
    ensures Order(chunks)[i] in SourceDocs(gate, st.rule, Elements(chunks))
    ensures Turns(gate, metric, st, chunks)[i] == Gather(PartsIn(gate, metric, st, chunks, Order(chunks)[i]))
  {
    OrderIsDocuments(chunks);
    assert Order(chunks)[i] in Elements(Order(chunks));
    SourcePartUnfolds(gate, metric, st, chunks, Order(chunks)[i]);
  }

  /** Whatever the order, a figure that is returned is the lead of some chunk. */
  lemma {:induction false} ReturnedIsLead(gate: Gate, metric: Metric, chunks: seq<Chunk>)
    returns (st: Setting, c: Chunk)
    requires Direct(gate, metric, chunks).Ok?
    ensures AllOwned(Elements(chunks)) && RuleOf(gate.policy, metric).Some?
    ensures Opening(gate, RuleOf(gate.policy, metric).value, Elements(chunks)) == Ok(st)
    ensures c in chunks
    ensures LeadOf(gate, metric, st, Elements(chunks), c) == Some(Direct(gate, metric, chunks).value)
  {
    st := DirectIsFirst(gate, metric, chunks);
    var foremost := Foremost(DecidingIn(gate, metric, Elements(chunks), st).value);
    var i := SomeTurnLeads(Turns(gate, metric, st, chunks), foremost);
    OfferingTurn(gate, metric, st, chunks, i);
    var d := Order(chunks)[i];
    var j := SomeTurnLeads(PartsIn(gate, metric, st, chunks, d), foremost);
    PartsAreJudgements(gate, metric, st, chunks, d);
    c := Items(chunks, d)[j];
    ItemsAreOwned(chunks, d, c);
  }

  lemma {:induction false} HeadIsListedFirst(chunks: seq<Chunk>)
    requires chunks != [] && AllOwned(Elements(chunks))
    ensures Order(chunks) != [] && Order(chunks)[0] == Owner(chunks[0])
    ensures Items(chunks, Owner(chunks[0])) != [] && Items(chunks, Owner(chunks[0]))[0] == chunks[0]
  {
    var n := |chunks| - 1;
    if n > 0 {
      assert forall c | c in chunks[..n] :: c in Elements(chunks);
      HeadIsListedFirst(chunks[..n]);
    }
  }

  /** If the chunk listed first has a lead, its lead is what is returned. */
  lemma {:induction false} HeadLeadIsReturned(gate: Gate, metric: Metric, chunks: seq<Chunk>, st: Setting)
    requires Direct(gate, metric, chunks).Ok? && chunks != []
    requires AllOwned(Elements(chunks)) && RuleOf(gate.policy, metric).Some?
    requires Opening(gate, RuleOf(gate.policy, metric).value, Elements(chunks)) == Ok(st)
    requires LeadOf(gate, metric, st, Elements(chunks), chunks[0]).Some?
    ensures Direct(gate, metric, chunks) == Ok(LeadOf(gate, metric, st, Elements(chunks), chunks[0]).value)
  {
    var same := DirectIsFirst(gate, metric, chunks);
    var foremost, d := Foremost(DecidingIn(gate, metric, Elements(chunks), st).value), Owner(chunks[0]);
    HeadIsListedFirst(chunks);
    PartsAreJudgements(gate, metric, st, chunks, d);
    SourcePartUnfolds(gate, metric, st, chunks, d);
    FirstTurnLeads(Turns(gate, metric, st, chunks), foremost);
    FirstTurnLeads(PartsIn(gate, metric, st, chunks, d), foremost);
  }

  /** The chunks with one of them moved to the front. */
  lemma {:induction false} MovedToFront(chunks: seq<Chunk>, c: Chunk) returns (moved: seq<Chunk>)
    requires c in chunks
    ensures multiset(moved) == multiset(chunks) && moved != [] && moved[0] == c
    ensures Elements(moved) == Elements(chunks)
  {
    var i :| 0 <= i < |chunks| && chunks[i] == c;
    moved := [c] + (chunks[..i] + chunks[i + 1..]);
    assert chunks == chunks[..i] + [c] + chunks[i + 1..];
    SameMembers(moved, chunks);
  }

  lemma SameMembers<T>(a: seq<T>, b: seq<T>)
    requires multiset(a) == multiset(b)
    ensures Elements(a) == Elements(b)
  {
    assert forall x :: x in a <==> x in multiset(a);
    assert forall x :: x in b <==> x in multiset(b);
  }

  ghost predicate Returns(gate: Gate, metric: Metric, chunks: seq<Chunk>, f: Figure) {
    exists b: seq<Chunk> :: multiset(b) == multiset(chunks) && Direct(gate, metric, b) == Ok(f)
  }

  ghost predicate Leads(gate: Gate, metric: Metric, st: Setting, chunks: seq<Chunk>, f: Figure)
    requires AllOwned(Elements(chunks))
  {
    exists c :: c in chunks && LeadOf(gate, metric, st, Elements(chunks), c) == Some(f)
  }

  lemma {:induction false} LeadIsReturned(gate: Gate, metric: Metric, chunks: seq<Chunk>, st: Setting, c: Chunk,
                                          f: Figure)
    requires Direct(gate, metric, chunks).Ok? && AllOwned(Elements(chunks)) && RuleOf(gate.policy, metric).Some?
    requires Opening(gate, RuleOf(gate.policy, metric).value, Elements(chunks)) == Ok(st)
    requires c in chunks && LeadOf(gate, metric, st, Elements(chunks), c) == Some(f)
    ensures Returns(gate, metric, chunks, f)
  {
    var b := MovedToFront(chunks, c);
    forall x ensures x in b <==> x in chunks {
      assert x in b <==> x in Elements(b);
      assert x in chunks <==> x in Elements(chunks);
    }
    ChunkOrderIsIrrelevant(gate, metric, chunks, b);
    HeadLeadIsReturned(gate, metric, b, st);
  }

  /** The figures that the orders of the same chunks return are the leads of the chunks: each order returns one, and
      each is returned in some order. */
  lemma {:induction false} OrdersReturnLeads(gate: Gate, metric: Metric, chunks: seq<Chunk>, st: Setting, f: Figure)
    requires Direct(gate, metric, chunks).Ok? && AllOwned(Elements(chunks)) && RuleOf(gate.policy, metric).Some?
    requires Opening(gate, RuleOf(gate.policy, metric).value, Elements(chunks)) == Ok(st)
    ensures Returns(gate, metric, chunks, f) <==> Leads(gate, metric, st, chunks, f)
  {
    if b: seq<Chunk> :| multiset(b) == multiset(chunks) && Direct(gate, metric, b) == Ok(f) {
      SameMembers(b, chunks);
      var same, c := ReturnedIsLead(gate, metric, b);
      assert c in Elements(b);
    }
    if c :| c in chunks && LeadOf(gate, metric, st, Elements(chunks), c) == Some(f) {
      LeadIsReturned(gate, metric, chunks, st, c, f);
    }
  }

  /** All leads have one value. */
  ghost predicate LeadsAgree(gate: Gate, metric: Metric, st: Setting, chunks: seq<Chunk>)
    requires AllOwned(Elements(chunks))
  {
    forall f, g | Leads(gate, metric, st, chunks, f) && Leads(gate, metric, st, chunks, g) :: f.value == g.value
  }

  /** Every order of the chunks returns the same value exactly when all leads have one value. */
  lemma {:induction false} ValueIsOrderFreeIff(gate: Gate, metric: Metric, chunks: seq<Chunk>, st: Setting)
    requires Direct(gate, metric, chunks).Ok? && AllOwned(Elements(chunks)) && RuleOf(gate.policy, metric).Some?
    requires Opening(gate, RuleOf(gate.policy, metric).value, Elements(chunks)) == Ok(st)
    ensures (forall f, g | Returns(gate, metric, chunks, f) && Returns(gate, metric, chunks, g) :: f.value == g.value)
            <==> LeadsAgree(gate, metric, st, chunks)
  {
    forall f ensures Returns(gate, metric, chunks, f) <==> Leads(gate, metric, st, chunks, f) {
      OrdersReturnLeads(gate, metric, chunks, st, f);
    }
  }

  /** The candidates that could be leads: the foremost of those that decide. */
  ghost function Candidates(gate: Gate, metric: Metric, st: Setting, cs: set<Chunk>): set<Figure>
    requires AllOwned(cs)
  {
    var deciding := DecidingIn(gate, metric, cs, st);
    if deciding.Ok? then Foremost(deciding.value) else {}
  }

  /** No chunk offers two candidates, as when each names the borrower once. */
  ghost predicate OneEach(gate: Gate, metric: Metric, st: Setting, cs: set<Chunk>)
    requires AllOwned(cs)
  {
    forall c | Heard(gate, st.rule, cs, c) && Judge(gate, metric, st, cs, c).Ok? ::
      |Judge(gate, metric, st, cs, c).value.candidates| <= 1
  }

  lemma {:induction false} FirstOfOne(fs: seq<Figure>, among: set<Figure>, f: Figure)
    requires |fs| <= 1 && f in fs && f in among
    ensures First(fs, among) == Some(f)
  {
    assert fs == [f];
  }

  lemma {:induction false} CandidateIsVoiced(gate: Gate, metric: Metric, st: Setting, cs: set<Chunk>, f: Figure)
    returns (c: Chunk)
    requires AllOwned(cs) && f in Candidates(gate, metric, st, cs)
    ensures c in cs && Speaks(gate, metric, st, cs, c, f)
  {
    var fs, older := CandidatesOf(gate, metric, st, cs), PassedOlder(gate, metric, st, cs);
    DecidersAreCandidates(st.rule, st.latest, fs, older, f);
    CandidatesSpeak(gate, metric, st, cs, f);
    c :| c in cs && Speaks(gate, metric, st, cs, c, f);
  }

  lemma {:induction false} LoneCandidateLeads(gate: Gate, metric: Metric, st: Setting, chunks: seq<Chunk>, f: Figure)
    requires AllOwned(Elements(chunks)) && OneEach(gate, metric, st, Elements(chunks))
    requires f in Candidates(gate, metric, st, Elements(chunks))
    ensures Leads(gate, metric, st, chunks, f)
  {
    var c := CandidateIsVoiced(gate, metric, st, Elements(chunks), f);
    FirstOfOne(Judge(gate, metric, st, Elements(chunks), c).value.candidates,
               Foremost(DecidingIn(gate, metric, Elements(chunks), st).value), f);
    assert LeadOf(gate, metric, st, Elements(chunks), c) == Some(f);
  }

  lemma {:induction false} LeadIsCandidate(gate: Gate, metric: Metric, st: Setting, chunks: seq<Chunk>, f: Figure)
    requires AllOwned(Elements(chunks)) && Leads(gate, metric, st, chunks, f)
    ensures f in Candidates(gate, metric, st, Elements(chunks))
  {
  }

  /** With one candidate at most in each chunk, every order of the chunks returns the same value exactly when the
      deciding candidates of the least document and page all have one value. */
  lemma {:induction false} OneSpellingIff(gate: Gate, metric: Metric, chunks: seq<Chunk>, st: Setting)
    requires Direct(gate, metric, chunks).Ok? && AllOwned(Elements(chunks)) && RuleOf(gate.policy, metric).Some?
    requires Opening(gate, RuleOf(gate.policy, metric).value, Elements(chunks)) == Ok(st)
    requires OneEach(gate, metric, st, Elements(chunks))
    ensures (forall f, g | Returns(gate, metric, chunks, f) && Returns(gate, metric, chunks, g) :: f.value == g.value)
            <==> forall f, g | f in Candidates(gate, metric, st, Elements(chunks)) &&
                               g in Candidates(gate, metric, st, Elements(chunks)) :: f.value == g.value
  {
    ValueIsOrderFreeIff(gate, metric, chunks, st);
    forall f ensures Leads(gate, metric, st, chunks, f) <==> f in Candidates(gate, metric, st, Elements(chunks)) {
      if f in Candidates(gate, metric, st, Elements(chunks)) {
        LoneCandidateLeads(gate, metric, st, chunks, f);
      }
      if Leads(gate, metric, st, chunks, f) {
        LeadIsCandidate(gate, metric, st, chunks, f);
      }
    }
  }

  // ----- a name that depends on the order -----

  /** A row that spells the borrower's name. */
  function NameRow(entity: Identity, text: string): Row {
    Row(Raw(text, None, None, entity, {}), None)
  }

  /** A chunk of an audited report that names its borrower in one row. */
  function Naming(id: nat, document: nat, entity: Identity, text: string): Chunk {
    var scan := Scan(map[], Rows([NameRow(entity, text)]));
    Chunk(id, false, [Provenance(document, 1, Box(0.0, 0.0, 1.0, 1.0))], [], {AuditedFinancials}, {}, {entity}, {}, [],
          {}, {}, false, false, {}, map[BorrowerName := scan])
  }

  /** A rule like the one for the borrower's name: a text, undated, without basis or NIC level, from audited reports
      among others. */
  predicate IsNameRule(rule: Rule) {
    && rule.kind == Text && !rule.requirePeriod && !rule.requireBasis && !rule.nicLevel
    && AuditedFinancials in rule.sources
  }

  predicate IsName(text: string) {
    0 < |text| <= 300
  }

  /** Two chunks of one page that spell the borrower's name. */
  function TwoNames(document: nat, entity: Identity, s: string, t: string): set<Chunk> {
    {Naming(1, document, entity, s), Naming(2, document, entity, t)}
  }

  lemma {:induction false} TwoNamesOpen(gate: Gate, rule: Rule, d: nat, e: Identity, s: string, t: string)
    requires IsNameRule(rule)
    ensures var cs := TwoNames(d, e, s, t);
            && AllOwned(cs) && Documents(cs) == {d} && Document(cs, d) == cs
            && ProfileIn(cs, d) == Profile(d, {AuditedFinancials}, Some(e), false)
            && SourceDocs(gate, rule, cs) == {d} && Opening(gate, rule, cs) == Ok(Setting(rule, e, None))
  {
    var cs := TwoNames(d, e, s, t);
    assert AllOwned(cs);
    assert Documents(cs) == {d} by {
      assert Naming(1, d, e, s) in cs;
    }
    assert Document(cs, d) == cs;
    TwoNamesProfile(d, e, s, t);
    assert AuditedFinancials in {AuditedFinancials} * Allowed(rule);
    assert SourceDocs(gate, rule, cs) == {d};
    assert AnchorDocs(gate, cs) == {d} by {
      assert AuditedFinancials in {AuditedFinancials} * {Registration, Agreement, AuditedFinancials, Pan};
    }
    assert AnchoredEntities(gate, cs) == {e};
    SoleIsOnly(AnchoredEntities(gate, cs));
    assert Sole(AnchoredEntities(gate, cs)).value in {e};
  }

  lemma {:induction false} TwoNamesProfile(d: nat, e: Identity, s: string, t: string)
    ensures ProfileOf(d, TwoNames(d, e, s, t)) == Profile(d, {AuditedFinancials}, Some(e), false)
  {
    var cs := TwoNames(d, e, s, t);
    var c := Naming(1, d, e, s);
    assert c in cs && e in c.owners && AuditedFinancials in c.types;
    assert (set x, i | x in cs && i in x.owners :: i) == {e};
    assert (set x, u | x in cs && u in x.types :: u) == {AuditedFinancials};
    SoleIsOnly({e});
    assert Sole({e}).value in {e};
  }

  lemma {:induction false} NamingRows(id: nat, d: nat, e: Identity, text: string, rule: Rule)
    ensures RowsOf(Naming(id, d, e, text), BorrowerName, rule, e) == Ok([NameRow(e, text)])
    ensures Current([NameRow(e, text)], None) == [NameRow(e, text)] && !HasOlder([NameRow(e, text)], None)
  {
    assert Current([], None) == [] && [NameRow(e, text)][..0] == [];
  }

  const UNCONVERTED := Shared(None, Own(PlainText), ONE)

  lemma {:induction false} NameIsRead(gate: Gate, rule: Rule, source: Profile, id: nat, d: nat, e: Identity,
                                      text: string) returns (f: Figure)
    requires IsNameRule(rule) && IsName(text) && source.types == {AuditedFinancials}
    ensures source.types * Allowed(rule) != {}
    ensures var c, st := Naming(id, d, e, text), Setting(rule, e, None);
            FigureOf(gate, BorrowerName, st, source, c, UNCONVERTED, NameRow(e, text)) == Ok(f)
    ensures IsNamed(f, d, e, text)
  {
    assert AuditedFinancials in source.types * Allowed(rule);
    var c, st := Naming(id, d, e, text), Setting(rule, e, None);
    f := FigureOf(gate, BorrowerName, st, source, c, UNCONVERTED, NameRow(e, text)).value;
  }

  /** The figure that such a row gives. */
  predicate IsNamed(f: Figure, d: nat, e: Identity, text: string) {
    && f.metric == BorrowerName && f.value == Words(text) && f.unit == PlainText && f.period == None
    && f.receipt.basis == None && f.receipt.source == Some(NameRow(e, text).raw) && !f.receipt.nicMapped
    && f.citation.document == d && f.citation.page == 1
  }

  lemma {:induction false} NameIsGathered(gate: Gate, rule: Rule, source: Profile, id: nat, d: nat, e: Identity,
                                          text: string, f: Figure)
    requires source.types * Allowed(rule) != {}
    requires FigureOf(gate, BorrowerName, Setting(rule, e, None), source, Naming(id, d, e, text), UNCONVERTED,
                      NameRow(e, text)) == Ok(f)
    ensures Gather(RowParts(gate, BorrowerName, Setting(rule, e, None), source, Naming(id, d, e, text), UNCONVERTED,
                            [NameRow(e, text)])) == Ok(Finding([f], false))
  {
    assert RowParts(gate, BorrowerName, Setting(rule, e, None), source, Naming(id, d, e, text), UNCONVERTED,
                    [NameRow(e, text)]) == [Ok(Finding([f], false))];
    GatherOne(Ok(Finding([f], false)));
  }

  /** What such a chunk says. */
  lemma {:induction false} NamingIsExamined(gate: Gate, rule: Rule, source: Profile, items: set<Chunk>, id: nat, d: nat,
                                            e: Identity, text: string, conflict: bool) returns (f: Figure)
    requires IsNameRule(rule) && IsName(text) && source == Profile(d, {AuditedFinancials}, Some(e), false)
    ensures source.types * Allowed(rule) != {}
    ensures Examine(gate, BorrowerName, Setting(rule, e, None), source, items, Naming(id, d, e, text), conflict)
            == Ok(Finding([f], false))
    ensures IsNamed(f, d, e, text)
  {
    NamingRows(id, d, e, text, rule);
    f := NameIsRead(gate, rule, source, id, d, e, text);
    NameIsGathered(gate, rule, source, id, d, e, text, f);
    assert SharedOf(gate, BorrowerName, Setting(rule, e, None), source, items, Naming(id, d, e, text), conflict,
                    [NameRow(e, text)]) == Ok(UNCONVERTED);
  }

  lemma {:induction false} NamingIsJudged(gate: Gate, rule: Rule, d: nat, e: Identity, s: string, t: string, id: nat,
                                          text: string) returns (f: Figure)
    requires IsNameRule(rule) && IsName(text) && Naming(id, d, e, text) in TwoNames(d, e, s, t)
    ensures var cs, c := TwoNames(d, e, s, t), Naming(id, d, e, text);
            && AllOwned(cs) && Heard(gate, rule, cs, c)
            && Judge(gate, BorrowerName, Setting(rule, e, None), cs, c) == Ok(Finding([f], false))
    ensures IsNamed(f, d, e, text)
  {
    var cs, c := TwoNames(d, e, s, t), Naming(id, d, e, text);
    TwoNamesOpen(gate, rule, d, e, s, t);
    f := NamingIsExamined(gate, rule, ProfileIn(cs, d), Document(cs, d), id, d, e, text, Conflicts(gate, cs, c));
  }

  lemma {:induction false} TwoNamesJudged(gate: Gate, rule: Rule, d: nat, e: Identity, s: string, t: string)
    returns (f: Figure, g: Figure)
    requires IsNameRule(rule) && IsName(s) && IsName(t)
    ensures Speakers(gate, BorrowerName, Setting(rule, e, None), Naming(1, d, e, s), Naming(2, d, e, t), f, g)
    ensures IsNamed(f, d, e, s) && IsNamed(g, d, e, t)
  {
    TwoNamesOpen(gate, rule, d, e, s, t);
    f := NamingIsJudged(gate, rule, d, e, s, t, 1, s);
    g := NamingIsJudged(gate, rule, d, e, s, t, 2, t);
  }

  /** Two chunks of one clear document that say one figure each. */
  ghost predicate Speakers(gate: Gate, metric: Metric, st: Setting, a: Chunk, b: Chunk, f: Figure, g: Figure) {
    && AllOwned({a, b}) && Owner(a) == Owner(b) && !MixedAudit(ProfileIn({a, b}, Owner(a)))
    && Heard(gate, st.rule, {a, b}, a) && Judge(gate, metric, st, {a, b}, a) == Ok(Finding([f], false))
    && Heard(gate, st.rule, {a, b}, b) && Judge(gate, metric, st, {a, b}, b) == Ok(Finding([g], false))
  }

  lemma {:induction false} SpeakersSay(gate: Gate, metric: Metric, st: Setting, a: Chunk, b: Chunk, f: Figure,
                                       g: Figure, x: Figure)
    requires Speakers(gate, metric, st, a, b, f, g)
    ensures Speaks(gate, metric, st, {a, b}, a, x) <==> x == f
    ensures Speaks(gate, metric, st, {a, b}, b, x) <==> x == g
  {
  }

  lemma {:induction false} SpeakersOffer(gate: Gate, metric: Metric, st: Setting, a: Chunk, b: Chunk, f: Figure,
                                         g: Figure, x: Figure)
    requires Speakers(gate, metric, st, a, b, f, g)
    ensures x in CandidatesOf(gate, metric, st, {a, b}) <==> x == f || x == g
  {
    SpeakersSay(gate, metric, st, a, b, f, g, x);
    CandidatesSpeak(gate, metric, st, {a, b}, x);
    assert a in {a, b} && b in {a, b};
  }

  lemma {:induction false} SpeakersGather(gate: Gate, metric: Metric, st: Setting, a: Chunk, b: Chunk, f: Figure,
                                          g: Figure)
    requires Speakers(gate, metric, st, a, b, f, g)
    ensures CandidatesOf(gate, metric, st, {a, b}) == {f, g}
  {
    var candidates := CandidatesOf(gate, metric, st, {a, b});
    forall x ensures x in candidates <==> x in {f, g} {
      SpeakersOffer(gate, metric, st, a, b, f, g, x);
    }
  }

  lemma {:induction false} SpeakersAreClear(gate: Gate, metric: Metric, st: Setting, a: Chunk, b: Chunk, f: Figure,
                                            g: Figure)
    requires Speakers(gate, metric, st, a, b, f, g)
    ensures AllClear(gate, metric, st, {a, b})
  {
    forall d | d in Documents({a, b}) ensures SourceClear(gate, metric, st, {a, b}, d) {
      assert d == Owner(a);
    }
  }

  lemma {:induction false} PairDecides(rule: Rule, latest: Option<nat>, older: bool, f: Figure, g: Figure)
    requires !rule.requirePeriod && !f.receipt.nicMapped && !g.receipt.nicMapped
    requires KeyFor(f) == KeyFor(g) && !Earlier(f, g) && !Earlier(g, f)
    ensures Deciding(rule, latest, {f, g}, older) == Ok({f, g}) && Sole(Keys({f, g})) == Some(KeyFor(f))
    ensures Foremost({f, g}) == {f, g}
  {
    assert Preferred({f, g}) == {f, g};
    assert Keys({f, g}) == {KeyFor(f)};
    SoleIsOnly(Keys({f, g}));
    assert Sole(Keys({f, g})).value in {KeyFor(f)};
  }

  lemma {:induction false} SpeakerLeads(gate: Gate, metric: Metric, st: Setting, cs: set<Chunk>, c: Chunk, f: Figure,
                                        fs: set<Figure>)
    requires AllOwned(cs) && Heard(gate, st.rule, cs, c) && Judge(gate, metric, st, cs, c) == Ok(Finding([f], false))
    requires DecidingIn(gate, metric, cs, st) == Ok(fs) && Foremost(fs) == fs && f in fs
    ensures LeadOf(gate, metric, st, cs, c) == Some(f)
  {
    FirstOfOne([f], fs, f);
  }

  lemma {:induction false} SpeakersDecide(gate: Gate, metric: Metric, st: Setting, a: Chunk, b: Chunk, f: Figure,
                                          g: Figure)
    requires Speakers(gate, metric, st, a, b, f, g)
    requires !st.rule.requirePeriod && !f.receipt.nicMapped && !g.receipt.nicMapped
    requires KeyFor(f) == KeyFor(g) && !Earlier(f, g) && !Earlier(g, f)
    ensures DecidingIn(gate, metric, {a, b}, st) == Ok({f, g}) && Foremost({f, g}) == {f, g}
    ensures VerdictFrom(DecidingIn(gate, metric, {a, b}, st)) == Settled(KeyFor(f))
  {
    SpeakersGather(gate, metric, st, a, b, f, g);
    PairDecides(st.rule, st.latest, PassedOlder(gate, metric, st, {a, b}), f, g);
  }

  /** If they agree, both decide, and either leads. */
  lemma {:induction false} SpeakersLead(gate: Gate, metric: Metric, st: Setting, a: Chunk, b: Chunk, f: Figure,
                                        g: Figure)
    requires Speakers(gate, metric, st, a, b, f, g) && RuleOf(gate.policy, metric).Some?
    requires Opening(gate, RuleOf(gate.policy, metric).value, {a, b}) == Ok(st)
    requires !st.rule.requirePeriod && !f.receipt.nicMapped && !g.receipt.nicMapped
    requires KeyFor(f) == KeyFor(g) && !Earlier(f, g) && !Earlier(g, f)
    ensures VerdictOn(gate, metric, {a, b}) == Settled(KeyFor(f))
    ensures LeadOf(gate, metric, st, {a, b}, a) == Some(f) && LeadOf(gate, metric, st, {a, b}, b) == Some(g)
  {
    SpeakersDecide(gate, metric, st, a, b, f, g);
    SpeakersAreClear(gate, metric, st, a, b, f, g);
    SpeakerLeads(gate, metric, st, {a, b}, a, f, {f, g});
    SpeakerLeads(gate, metric, st, {a, b}, b, g, {f, g});
  }

  lemma {:induction false} SettledIsReturned(gate: Gate, metric: Metric, chunks: seq<Chunk>)
    requires VerdictOn(gate, metric, Elements(chunks)).Settled?
    ensures Direct(gate, metric, chunks).Ok?
  {
    DirectReachesVerdict(gate, metric, chunks);
  }

  lemma {:induction false} SpeakerListedFirst(gate: Gate, metric: Metric, st: Setting, a: Chunk, b: Chunk, f: Figure)
    requires AllOwned({a, b}) && RuleOf(gate.policy, metric).Some?
    requires Opening(gate, RuleOf(gate.policy, metric).value, {a, b}) == Ok(st)
    requires VerdictOn(gate, metric, {a, b}).Settled? && LeadOf(gate, metric, st, {a, b}, a) == Some(f)
    ensures Direct(gate, metric, [a, b]) == Ok(f)
  {
    assert Elements([a, b]) == {a, b};
    SettledIsReturned(gate, metric, [a, b]);
    HeadLeadIsReturned(gate, metric, [a, b], st);
  }

  lemma {:induction false} NamesAgree(f: Figure, g: Figure, d: nat, e: Identity, s: string, t: string)
    requires IsNamed(f, d, e, s) && IsNamed(g, d, e, t)
    ensures KeyFor(f) == KeyFor(g) && !Earlier(f, g) && !Earlier(g, f)
  {
  }

  lemma {:induction false} TwoNamesLead(gate: Gate, rule: Rule, d: nat, e: Identity, s: string, t: string)
    returns (f: Figure, g: Figure)
    requires RuleOf(gate.policy, BorrowerName) == Some(rule) && IsNameRule(rule) && IsName(s) && IsName(t)
    ensures var a, b, st := Naming(1, d, e, s), Naming(2, d, e, t), Setting(rule, e, None);
            && AllOwned({a, b}) && Opening(gate, rule, {a, b}) == Ok(st)
            && VerdictOn(gate, BorrowerName, {a, b}).Settled?
            && LeadOf(gate, BorrowerName, st, {a, b}, a) == Some(f)
            && LeadOf(gate, BorrowerName, st, {a, b}, b) == Some(g)
    ensures f.value == Words(s) && g.value == Words(t)
  {
    f, g := TwoNamesJudged(gate, rule, d, e, s, t);
    TwoNamesOpen(gate, rule, d, e, s, t);
    NamesAgree(f, g, d, e, s, t);
    SpeakersLead(gate, BorrowerName, Setting(rule, e, None), Naming(1, d, e, s), Naming(2, d, e, t), f, g);
  }

  /** Two chunks of one page that spell the one borrower in two ways: whichever is listed first gives the name. */
  lemma {:induction false} NameDependsOnOrder(gate: Gate, rule: Rule, d: nat, e: Identity, s: string, t: string)
    requires RuleOf(gate.policy, BorrowerName) == Some(rule) && IsNameRule(rule) && IsName(s) && IsName(t)
    ensures var a, b := Naming(1, d, e, s), Naming(2, d, e, t);
            && Direct(gate, BorrowerName, [a, b]).Ok? && Direct(gate, BorrowerName, [a, b]).value.value == Words(s)
            && Direct(gate, BorrowerName, [b, a]).Ok? && Direct(gate, BorrowerName, [b, a]).value.value == Words(t)
  {
    var a, b, st := Naming(1, d, e, s), Naming(2, d, e, t), Setting(rule, e, None);
    var f, g := TwoNamesLead(gate, rule, d, e, s, t);
    SpeakerListedFirst(gate, BorrowerName, st, a, b, f);
    assert {a, b} == {b, a};
    SpeakerListedFirst(gate, BorrowerName, st, b, a, g);
  }
}
