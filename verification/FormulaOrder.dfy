/** The order in which a policy lists the formulas of the cover changes the policy's hash, which every receipt carries,
    and nothing else about readings and covers. */
module FormulaOrder {
  import opened Outcomes
  import opened Corpus
  import opened Policies
  import opened Classification
  import opened EvidenceGate
  import opened EvidenceTheorems
  import opened Formulas
  import opened Calculations
  import opened DebtServiceCheck
  import opened DscrStages
  import opened DscrTheorems
  import opened DscrEvidence

  /** Two gates of one application whose policies differ in the formulas configured, and so in the hash, at most. */
  predicate DifferInFormulas(g: Gate, h: Gate) {
    && g.application == h.application
    && h.policy == g.policy.(hash := h.policy.hash, calculations := h.policy.calculations,
                             alternatives := h.policy.alternatives)
  }

  function Stamped(f: Figure, hash: nat): Figure {
    f.(receipt := f.receipt.(policyHash := hash))
  }

  function StampedAll(fs: seq<Figure>, hash: nat): (stamped: seq<Figure>)
    ensures |stamped| == |fs| && forall i | 0 <= i < |fs| :: stamped[i] == Stamped(fs[i], hash)
  {
    seq(|fs|, i requires 0 <= i < |fs| => Stamped(fs[i], hash))
  }

  /** The same result with another policy's hash in the receipt. */
  function Restamped(r: Result<Figure>, hash: nat): Result<Figure> {
    if r.Ok? then Ok(Stamped(r.value, hash)) else r
  }

  function Refound(r: Result<Finding>, hash: nat): Result<Finding> {
    if r.Ok? then Ok(Finding(StampedAll(r.value.candidates, hash), r.value.older)) else r
  }

  // ----- the opening -----

  lemma {:induction false} SameSources(g: Gate, h: Gate, rule: Rule, cs: set<Chunk>)
    requires DifferInFormulas(g, h) && AllOwned(cs)
    ensures SourceDocs(g, rule, cs) == SourceDocs(h, rule, cs) && AnchorDocs(g, cs) == AnchorDocs(h, cs)
  {
    forall p: Profile ensures (IsSource(g, rule, p) <==> IsSource(h, rule, p)) && (IsAnchor(g, p) <==> IsAnchor(h, p)) {
      assert ApprovalOf(g, p.document) == ApprovalOf(h, p.document);
    }
  }

  lemma {:induction false} SameOpening(g: Gate, h: Gate, rule: Rule, cs: set<Chunk>)
    requires DifferInFormulas(g, h) && AllOwned(cs)
    ensures Opening(g, rule, cs) == Opening(h, rule, cs)
  {
    SameSources(g, h, rule, cs);
    assert AnchoredEntities(g, cs) == AnchoredEntities(h, cs);
    assert SourceYears(g, rule, cs) == SourceYears(h, rule, cs);
  }

  // ----- the scan -----

  lemma {:induction false} StampedSum(a: seq<Figure>, b: seq<Figure>, hash: nat)
    ensures StampedAll(a + b, hash) == StampedAll(a, hash) + StampedAll(b, hash)
  {
  }

  lemma {:induction false} RefoundGather(parts: seq<Result<Finding>>, others: seq<Result<Finding>>, hash: nat)
    requires |parts| == |others| && forall i | 0 <= i < |parts| :: others[i] == Refound(parts[i], hash)
    ensures Gather(others) == Refound(Gather(parts), hash)
  {
    if parts != [] {
      var n := |parts| - 1;
      RefoundGather(parts[..n], others[..n], hash);
      if Gather(parts[..n]).Ok? && parts[n].Ok? {
        StampedSum(Gather(parts[..n]).value.candidates, parts[n].value.candidates, hash);
      }
    }
  }

  lemma {:induction false} RefoundRow(g: Gate, h: Gate, metric: Metric, st: Setting, source: Profile, c: Chunk,
                                      shared: Shared, row: Row)
    requires DifferInFormulas(g, h) && source.types * Allowed(st.rule) != {}
    ensures RowPart(h, metric, st, source, c, shared, row) ==
              Refound(RowPart(g, metric, st, source, c, shared, row), h.policy.hash)
  {
    var figure := FigureOf(g, metric, st, source, c, shared, row);
    assert FigureOf(h, metric, st, source, c, shared, row) == Restamped(figure, h.policy.hash);
    if figure.Ok? {
      assert StampedAll([figure.value], h.policy.hash) == [Stamped(figure.value, h.policy.hash)];
    }
  }

  lemma {:induction false} RefoundRows(g: Gate, h: Gate, metric: Metric, st: Setting, source: Profile, c: Chunk,
                                       shared: Shared, rows: seq<Row>)
    requires DifferInFormulas(g, h) && source.types * Allowed(st.rule) != {}
    ensures Gather(RowParts(h, metric, st, source, c, shared, rows)) ==
              Refound(Gather(RowParts(g, metric, st, source, c, shared, rows)), h.policy.hash)
  {
    var parts := RowParts(g, metric, st, source, c, shared, rows);
    var others := RowParts(h, metric, st, source, c, shared, rows);
    forall i | 0 <= i < |rows| ensures others[i] == Refound(parts[i], h.policy.hash) {
      RefoundRow(g, h, metric, st, source, c, shared, rows[i]);
    }
    RefoundGather(parts, others, h.policy.hash);
  }

  lemma {:induction false} SameShared(g: Gate, h: Gate, metric: Metric, st: Setting, source: Profile, items: set<Chunk>,
                                      c: Chunk, conflict: bool, rows: seq<Row>)
    requires DifferInFormulas(g, h)
    ensures SharedOf(h, metric, st, source, items, c, conflict, rows) ==
              SharedOf(g, metric, st, source, items, c, conflict, rows)
  {
  }

  /** The part of a chunk's examination that follows once its rows are known. */
  function WithRows(g: Gate, metric: Metric, st: Setting, source: Profile, c: Chunk, shared: Result<Shared>,
                    rows: seq<Row>, older: bool): Result<Finding>
    requires source.types * Allowed(st.rule) != {}
  {
    if shared.Err? then Err(shared.code)
    else
      var found := Gather(RowParts(g, metric, st, source, c, shared.value, rows));
      if found.Err? then found else Ok(Finding(found.value.candidates, older))
  }

  lemma {:induction false} ExamineUnfolds(g: Gate, metric: Metric, st: Setting, source: Profile, items: set<Chunk>,
                                          c: Chunk, conflict: bool, rows: seq<Row>, older: bool)
    requires source.types * Allowed(st.rule) != {} && RowsOf(c, metric, st.rule, st.entity).Ok?
    requires rows == Current(RowsOf(c, metric, st.rule, st.entity).value, st.latest) && rows != []
    requires older == HasOlder(RowsOf(c, metric, st.rule, st.entity).value, st.latest)
    ensures Examine(g, metric, st, source, items, c, conflict) ==
              WithRows(g, metric, st, source, c, SharedOf(g, metric, st, source, items, c, conflict, rows), rows, older)
  {
  }

  lemma {:induction false} RefoundWithRows(g: Gate, h: Gate, metric: Metric, st: Setting, source: Profile, c: Chunk,
                                           shared: Result<Shared>, rows: seq<Row>, older: bool)
    requires DifferInFormulas(g, h) && source.types * Allowed(st.rule) != {}
    ensures WithRows(h, metric, st, source, c, shared, rows, older) ==
              Refound(WithRows(g, metric, st, source, c, shared, rows, older), h.policy.hash)
  {
    if shared.Ok? {
      RefoundRows(g, h, metric, st, source, c, shared.value, rows);
    }
  }

  lemma {:induction false} RefoundChunk(g: Gate, h: Gate, metric: Metric, st: Setting, source: Profile,
                                        items: set<Chunk>, c: Chunk, conflict: bool)
    requires DifferInFormulas(g, h) && source.types * Allowed(st.rule) != {}
    ensures Examine(h, metric, st, source, items, c, conflict) ==
              Refound(Examine(g, metric, st, source, items, c, conflict), h.policy.hash)
  {
    var all := RowsOf(c, metric, st.rule, st.entity);
    if all.Ok? && Current(all.value, st.latest) != [] {
      var rows, older := Current(all.value, st.latest), HasOlder(all.value, st.latest);
      ExamineUnfolds(g, metric, st, source, items, c, conflict, rows, older);
      ExamineUnfolds(h, metric, st, source, items, c, conflict, rows, older);
      SameShared(g, h, metric, st, source, items, c, conflict, rows);
      var shared := SharedOf(g, metric, st, source, items, c, conflict, rows);
      RefoundWithRows(g, h, metric, st, source, c, shared, rows, older);
    }
  }

  lemma {:induction false} RefoundSource(g: Gate, h: Gate, metric: Metric, st: Setting, sections: seq<Section>, d: nat,
                                         items: seq<Chunk>)
    requires DifferInFormulas(g, h)
    ensures SourcePart(h, metric, st, sections, d, items) ==
              Refound(SourcePart(g, metric, st, sections, d, items), h.policy.hash)
  {
    var source := ProfileOf(d, Elements(items));
    assert ApprovalOf(g, d) == ApprovalOf(h, d);
    if IsSource(g, st.rule, source) && !MixedAudit(source) {
      var parts := ChunkParts(g, metric, st, sections, source, Elements(items), items);
      var others := ChunkParts(h, metric, st, sections, source, Elements(items), items);
      forall i | 0 <= i < |items| ensures others[i] == Refound(parts[i], h.policy.hash) {
        RefoundChunk(g, h, metric, st, source, Elements(items), items[i],
                     Touches(sections, source.document, Pages(items[i]), INCOMPATIBLE));
      }
      RefoundGather(parts, others, h.policy.hash);
    }
  }

  lemma {:induction false} RefoundSurvey(g: Gate, h: Gate, metric: Metric, st: Setting, chunks: seq<Chunk>)
    requires DifferInFormulas(g, h) && AllOwned(Elements(chunks))
    ensures Gather(Turns(h, metric, st, chunks)) == Refound(Gather(Turns(g, metric, st, chunks)), h.policy.hash)
  {
    var parts, others := Turns(g, metric, st, chunks), Turns(h, metric, st, chunks);
    forall i | 0 <= i < |Order(chunks)| ensures others[i] == Refound(parts[i], h.policy.hash) {
      RefoundSource(g, h, metric, st, Sections(g.policy.sectionPatterns, chunks), Order(chunks)[i],
                    Items(chunks, Order(chunks)[i]));
    }
    RefoundGather(parts, others, h.policy.hash);
  }

  // ----- the conclusion -----

  /** All receipts carry one policy's hash. */
  predicate From(fs: set<Figure>, hash: nat) {
    forall f | f in fs :: f.receipt.policyHash == hash
  }

  function Image(fs: set<Figure>, hash: nat): set<Figure> {
    set f | f in fs :: Stamped(f, hash)
  }

  lemma {:induction false} ImageHas(fs: set<Figure>, was: nat, hash: nat, f: Figure)
    requires From(fs, was) && f.receipt.policyHash == was
    ensures Stamped(f, hash) in Image(fs, hash) <==> f in fs
  {
    if Stamped(f, hash) in Image(fs, hash) {
      var g :| g in fs && Stamped(g, hash) == Stamped(f, hash);
      assert Stamped(Stamped(g, hash), was) == g && Stamped(Stamped(f, hash), was) == f;
    }
  }

  lemma {:induction false} ImagePrefers(fs: set<Figure>, hash: nat)
    ensures Preferred(Image(fs, hash)) == Image(Preferred(fs), hash)
    ensures DatedYears(Image(fs, hash)) == DatedYears(fs)
  {
    var nic := set f | f in fs && f.receipt.nicMapped;
    var other := set f | f in Image(fs, hash) && f.receipt.nicMapped;
    assert other == Image(nic, hash);
    assert nic == {} <==> other == {} by {
      if f :| f in nic { assert Stamped(f, hash) in other; }
    }
    forall y ensures y in DatedYears(Image(fs, hash)) <==> y in DatedYears(fs) {
      if y in DatedYears(fs) {
        var f :| f in fs && f.period == Some(y);
        assert Stamped(f, hash) in Image(fs, hash);
      }
    }
  }

  lemma {:induction false} ImageInYear(fs: set<Figure>, hash: nat, year: nat)
    ensures InYear(Image(fs, hash), year) == Image(InYear(fs, year), hash)
  {
  }

  lemma {:induction false} ImageDecides(rule: Rule, latest: Option<nat>, fs: set<Figure>, older: bool, hash: nat)
    ensures var was, now := Deciding(rule, latest, fs, older), Deciding(rule, latest, Image(fs, hash), older);
            now == if was.Ok? then Ok(Image(was.value, hash)) else was
  {
    ImagePrefers(fs, hash);
    assert fs == {} <==> Image(fs, hash) == {} by {
      if f :| f in fs { assert Stamped(f, hash) in Image(fs, hash); }
    }
    ImagePrefers(Preferred(fs), hash);
    if DatedYears(Preferred(fs)) != {} {
      ImageInYear(Preferred(fs), hash, MaxOf(DatedYears(Preferred(fs))));
    }
  }

  lemma {:induction false} ImageKeys(fs: set<Figure>, hash: nat)
    ensures Keys(Image(fs, hash)) == Keys(fs)
  {
    forall k ensures k in Keys(Image(fs, hash)) <==> k in Keys(fs) {
      if k in Keys(fs) {
        var f :| f in fs && KeyFor(f) == k;
        assert Stamped(f, hash) in Image(fs, hash) && KeyFor(Stamped(f, hash)) == k;
      }
    }
  }

  lemma {:induction false} ImageFirst(fs: seq<Figure>, among: set<Figure>, was: nat, hash: nat)
    requires From(Elements(fs), was) && From(among, was)
    ensures First(StampedAll(fs, hash), Image(among, hash)) ==
              if First(fs, among).Some? then Some(Stamped(First(fs, among).value, hash)) else None
  {
    if fs != [] {
      var n := |fs| - 1;
      assert StampedAll(fs, hash)[..n] == StampedAll(fs[..n], hash);
      assert fs[n] in Elements(fs);
      forall f | f in Elements(fs[..n]) ensures f in Elements(fs) {
      }
      ImageFirst(fs[..n], among, was, hash);
      ImageHas(among, was, hash, fs[n]);
    }
  }

  lemma {:induction false} ImageOfElements(fs: seq<Figure>, hash: nat)
    ensures Elements(StampedAll(fs, hash)) == Image(Elements(fs), hash)
  {
    forall g ensures g in Elements(StampedAll(fs, hash)) <==> g in Image(Elements(fs), hash) {
      if g in Image(Elements(fs), hash) {
        var f :| f in fs && Stamped(f, hash) == g;
        var i :| 0 <= i < |fs| && fs[i] == f;
        assert StampedAll(fs, hash)[i] == g;
      }
    }
  }

  lemma {:induction false} RestampedConclusion(rule: Rule, latest: Option<nat>, finding: Finding, was: nat, hash: nat)
    requires From(Elements(finding.candidates), was)
    ensures Conclude(rule, latest, Refound(Ok(finding), hash).value) == Restamped(Conclude(rule, latest, finding), hash)
  {
    var fs := Elements(finding.candidates);
    ImageOfElements(finding.candidates, hash);
    ImageDecides(rule, latest, fs, finding.older, hash);
    var deciding := Deciding(rule, latest, fs, finding.older);
    if deciding.Ok? {
      forall f | f in deciding.value ensures f.receipt.policyHash == was {
        DecidersAreCandidates(rule, latest, fs, finding.older, f);
      }
      ImageKeys(deciding.value, hash);
      ImageFirst(finding.candidates, deciding.value, was, hash);
    }
  }

  lemma {:induction false} FoundCarryHash(gate: Gate, metric: Metric, st: Setting, chunks: seq<Chunk>)
    requires AllOwned(Elements(chunks)) && Gather(Turns(gate, metric, st, chunks)).Ok?
    ensures From(Elements(Gather(Turns(gate, metric, st, chunks)).value.candidates), gate.policy.hash)
  {
    var cs := Elements(chunks);
    SurveyRefuses(gate, metric, st, chunks);
    SurveyGathers(gate, metric, st, chunks);
    forall f | f in CandidatesOf(gate, metric, st, cs) ensures f.receipt.policyHash == gate.policy.hash {
      CandidatesSpeak(gate, metric, st, cs, f);
      var c :| c in cs && Speaks(gate, metric, st, cs, c, f);
      var row := CandidateHasRow(gate, metric, st, cs, c, f);
      VoiceSource(gate, metric, st, cs, c, row, f);
    }
  }

  function Concluded(gate: Gate, metric: Metric, rule: Rule, st: Setting, chunks: seq<Chunk>): Result<Figure>
    requires AllOwned(Elements(chunks))
  {
    var found := Gather(Turns(gate, metric, st, chunks));
    if found.Err? then Err(found.code) else Conclude(rule, st.latest, found.value)
  }

  lemma {:induction false} ConcludedAlike(g: Gate, h: Gate, metric: Metric, rule: Rule, st: Setting, chunks: seq<Chunk>)
    requires DifferInFormulas(g, h) && AllOwned(Elements(chunks))
    ensures Concluded(h, metric, rule, st, chunks) == Restamped(Concluded(g, metric, rule, st, chunks), h.policy.hash)
  {
    RefoundSurvey(g, h, metric, st, chunks);
    var found := Gather(Turns(g, metric, st, chunks));
    if found.Ok? {
      FoundCarryHash(g, metric, st, chunks);
      RestampedConclusion(rule, st.latest, found.value, g.policy.hash, h.policy.hash);
    }
  }

  lemma {:induction false} DirectIsOpened(gate: Gate, metric: Metric, rule: Rule, chunks: seq<Chunk>)
    requires RuleOf(gate.policy, metric) == Some(rule) && AllOwned(Elements(chunks))
    ensures var opening := Opening(gate, rule, Elements(chunks));
            Direct(gate, metric, chunks) ==
              if opening.Err? then Err(opening.code) else Concluded(gate, metric, rule, opening.value, chunks)
  {
    var opening := Opening(gate, rule, Elements(chunks));
    if opening.Ok? {
      DirectUnfolds(gate, metric, chunks, opening.value);
    } else {
      assert forall c | c in chunks :: c in Elements(chunks);
    }
  }

  lemma {:induction false} DirectIsClosed(gate: Gate, metric: Metric, chunks: seq<Chunk>)
    requires RuleOf(gate.policy, metric).None? || !AllOwned(Elements(chunks))
    ensures Direct(gate, metric, chunks) ==
              Err(if RuleOf(gate.policy, metric).None? then MetricNotAllowed else DocumentAmbiguous)
  {
    if !AllOwned(Elements(chunks)) {
      var c :| c in Elements(chunks) && !SingleOwner(c);
      assert c in chunks;
    }
  }

  /** Listing other formulas changes a direct reading in the receipt's policy hash only. */
  lemma {:induction false} ReadingIgnoresFormulas(g: Gate, h: Gate, metric: Metric, chunks: seq<Chunk>)
    requires DifferInFormulas(g, h)
    ensures Direct(h, metric, chunks) == Restamped(Direct(g, metric, chunks), h.policy.hash)
  {
    var rule, cs := RuleOf(g.policy, metric), Elements(chunks);
    assert RuleOf(h.policy, metric) == rule;
    if rule.Some? && AllOwned(cs) {
      SameOpening(g, h, rule.value, cs);
      DirectIsOpened(g, metric, rule.value, chunks);
      DirectIsOpened(h, metric, rule.value, chunks);
      if Opening(g, rule.value, cs).Ok? {
        ConcludedAlike(g, h, metric, rule.value, Opening(g, rule.value, cs).value, chunks);
      }
    } else {
      DirectIsClosed(g, metric, chunks);
      DirectIsClosed(h, metric, chunks);
    }
  }

  // ----- the cover -----

  /** The same readings under another policy's hash. */
  ghost predicate Alike(was: Reader, now: Reader, p: nat, q: nat) {
    forall n :: now(n) == Restamped(was(n), q) && (was(n).Ok? ==> was(n).value.receipt.policyHash == p)
  }

  predicate SameOutcome(a: Result<Figure>, b: Result<Figure>) {
    if a.Ok? then b.Ok? && b.value.value == a.value.value else b == a
  }

  lemma {:induction false} ReadAllAlike(names: seq<Metric>, was: Reader, now: Reader, p: nat, q: nat)
    requires Alike(was, now, p, q)
    ensures var a, b := ReadAll(names, was), ReadAll(names, now);
            && b == (if a.Ok? then Ok(StampedAll(a.value, q)) else a)
            && (a.Ok? ==> forall f | f in a.value :: f.receipt.policyHash == p)
  {
    if names != [] {
      ReadAllAlike(names[1..], was, now, p, q);
      var first, rest := was(names[0]), ReadAll(names[1..], was);
      if first.Ok? && rest.Ok? {
        StampedSum([first.value], rest.value, q);
        assert StampedAll([first.value], q) == [Stamped(first.value, q)];
      }
    }
  }

  lemma {:induction false} NumbersAlike(fs: seq<Figure>, hash: nat)
    ensures Numbers(StampedAll(fs, hash)) == Numbers(fs) && AnyNegative(StampedAll(fs, hash)) == AnyNegative(fs)
  {
    if fs != [] {
      NumbersAlike(fs[1..], hash);
      assert StampedAll(fs, hash)[1..] == StampedAll(fs[1..], hash);
    }
  }

  lemma {:induction false} ContextAlike(fs: seq<Figure>, p: nat, q: nat)
    requires forall f | f in fs :: f.receipt.policyHash == p
    ensures ContextHolds(StampedAll(fs, q), q) <==> ContextHolds(fs, p)
  {
    var stamped := StampedAll(fs, q);
    forall i | 0 <= i < |fs|
      ensures Usable(stamped[i], q) <==> Usable(fs[i], p)
      ensures SameContext(stamped[i], stamped[0]) <==> SameContext(fs[i], fs[0])
    {
      assert fs[i] in fs;
    }
  }

  lemma {:induction false} CalculationAlike(id: FormulaId, was: Reader, now: Reader, p: nat, q: nat)
    requires Alike(was, now, p, q)
    ensures SameOutcome(Calculate(id, was, p), Calculate(id, now, q))
  {
    var names := FormulaOf(id).operands;
    ReadAllAlike(names, was, now, p, q);
    if ReadAll(names, was).Ok? {
      NumbersAlike(ReadAll(names, was).value, q);
      ContextAlike(ReadAll(names, was).value, p, q);
    }
  }

  lemma {:induction false} AvailableAlike(names: seq<Metric>, was: Reader, now: Reader, p: nat, q: nat)
    requires Alike(was, now, p, q)
    ensures var a, b := Available(Reads(names, was)), Available(Reads(names, now));
            && b == (if a.Ok? then Ok(StampedAll(a.value, q)) else a)
            && (a.Ok? ==> forall f | f in a.value :: f.receipt.policyHash == p)
  {
    if names != [] {
      var n := |names| - 1;
      AvailableAlike(names[..n], was, now, p, q);
      assert Reads(names, was)[..n] == Reads(names[..n], was) && Reads(names, now)[..n] == Reads(names[..n], now);
      var before, last := Available(Reads(names[..n], was)), was(names[n]);
      if before.Ok? && last.Ok? {
        StampedSum(before.value, [last.value], q);
        assert StampedAll([last.value], q) == [Stamped(last.value, q)];
      }
    }
  }

  lemma {:induction false} ReceiptsAlike(fs: seq<Figure>, p: nat, q: nat)
    requires fs != [] && forall f | f in fs :: f.receipt.policyHash == p
    ensures OneReceipt(StampedAll(fs, q)) <==> OneReceipt(fs)
  {
    var stamped := StampedAll(fs, q);
    forall i | 0 <= i < |fs| ensures SameReceipt(stamped[i], stamped[0]) <==> SameReceipt(fs[i], fs[0]) {
      assert fs[i] in fs && fs[0] in fs;
    }
  }

  lemma {:induction false} ReconciliationAlike(was: Reader, now: Reader, p: nat, q: nat)
    requires Alike(was, now, p, q)
    ensures Reconcile(now) == Reconcile(was)
  {
    AvailableAlike(SCHEDULE, was, now, p, q);
    AvailableAlike(TERM, was, now, p, q);
    var complete := Available(Reads(SCHEDULE, was));
    if complete.Ok? {
      if complete.value != [] {
        ScheduleAlike(complete.value, was, now, p, q);
      } else if Available(Reads(TERM, was)).Ok? {
        TermAlike(Available(Reads(TERM, was)).value, p, q);
      }
    }
  }

  lemma {:induction false} ScheduleAlike(complete: seq<Figure>, was: Reader, now: Reader, p: nat, q: nat)
    requires Alike(was, now, p, q) && complete != [] && forall f | f in complete :: f.receipt.policyHash == p
    ensures CheckSchedule(StampedAll(complete, q), now) == CheckSchedule(complete, was)
  {
    ReceiptsAlike(complete, p, q);
    NumbersAlike(complete, q);
    assert complete[0] in complete;
    assert now(DebtService) == Restamped(was(DebtService), q);
  }

  lemma {:induction false} TermAlike(values: seq<Figure>, p: nat, q: nat)
    requires forall f | f in values :: f.receipt.policyHash == p
    ensures CheckTerm(StampedAll(values, q)) == CheckTerm(values)
  {
    if values != [] {
      ReceiptsAlike(values, p, q);
    }
    NumbersAlike(values, q);
  }

  lemma {:induction false} FiguresAlike(names: seq<Metric>, was: Reader, now: Reader, p: nat, q: nat)
    requires Alike(was, now, p, q)
    ensures Figures(Reads(names, now)) == StampedAll(Figures(Reads(names, was)), q)
  {
    if names != [] {
      FiguresAlike(names[1..], was, now, p, q);
      assert Reads(names, was)[1..] == Reads(names[1..], was) && Reads(names, now)[1..] == Reads(names[1..], now);
      var first := was(names[0]);
      if first.Ok? {
        StampedSum([first.value], Figures(Reads(names[1..], was)), q);
        assert StampedAll([first.value], q) == [Stamped(first.value, q)];
      }
    }
  }

  lemma {:induction false} DenominatorAlike(id: FormulaId, was: Reader, now: Reader, p: nat, q: nat)
    requires Alike(was, now, p, q)
    ensures CheckDenominator(id, now) == CheckDenominator(id, was)
  {
    var names := OnSide(id, Denominator);
    FiguresAlike(names, was, now, p, q);
    NumbersAlike(Figures(Reads(names, was)), q);
  }

  lemma {:induction false} RoutesAlike(ids: set<FormulaId>, was: Reader, now: Reader, p: nat, q: nat)
    requires Alike(was, now, p, q)
    ensures RoutesAgree(ids, was, p) <==> RoutesAgree(ids, now, q)
  {
    forall id ensures SameOutcome(Calculate(id, was, p), Calculate(id, now, q)) {
      CalculationAlike(id, was, now, p, q);
    }
  }

  lemma {:induction false} SettlesAlike(ids: set<FormulaId>, was: Reader, now: Reader, p: nat, q: nat)
    requires Alike(was, now, p, q)
    ensures Settles(ids, was, p) <==> Settles(ids, now, q)
  {
    forall n ensures Tolerable(was(n)) <==> Tolerable(now(n)) {
      assert now(n) == Restamped(was(n), q);
    }
    ReconciliationAlike(was, now, p, q);
    forall id ensures CheckDenominator(id, now) == CheckDenominator(id, was) {
      DenominatorAlike(id, was, now, p, q);
    }
    RoutesAlike(ids, was, now, p, q);
  }

  lemma {:induction false} CoversAlike(p: Policy, q: Policy, was: Reader, now: Reader)
    requires Alike(was, now, p.hash, q.hash) && Elements(Choices(p)) == Elements(Choices(q))
    ensures Cover(p, was).Ok? <==> Cover(q, now).Ok?
    ensures Cover(p, was).Ok? ==> AsDecimal(Cover(p, was).value.value) == AsDecimal(Cover(q, now).value.value)
  {
    CoverSettles(p, was);
    CoverSettles(q, now);
    SettlesAlike(Elements(Choices(p)), was, now, p.hash, q.hash);
    assert Choices(p) == [] <==> Choices(q) == [] by {
      assert Choices(p) != [] ==> Choices(p)[0] in Elements(Choices(p));
      assert Choices(q) != [] ==> Choices(q)[0] in Elements(Choices(q));
    }
    if Cover(p, was).Ok? {
      var id :| id in Elements(Choices(p)) && Calculate(id, was, p.hash).Ok?;
      assert id in Choices(p) && id in Choices(q);
      CalculationAlike(id, was, now, p.hash, q.hash);
    }
  }

  /** Two gates whose policies configure the same formulas for the cover, in whatever order and with whatever
      repetition, yield covers on the same corpora, with the same value, although their policies have other hashes. */
  lemma {:induction false} FormulaOrderIsIrrelevant(g: Gate, h: Gate, chunks: seq<Chunk>)
    requires DifferInFormulas(g, h) && Elements(Choices(g.policy)) == Elements(Choices(h.policy))
    ensures var was, now := Cover(g.policy, DirectReader(g, chunks)), Cover(h.policy, DirectReader(h, chunks));
            && (was.Ok? <==> now.Ok?)
            && (was.Ok? ==> AsDecimal(was.value.value) == AsDecimal(now.value.value))
  {
    var was, now := DirectReader(g, chunks), DirectReader(h, chunks);
    forall n ensures now(n) == Restamped(was(n), h.policy.hash)
             ensures was(n).Ok? ==> was(n).value.receipt.policyHash == g.policy.hash
    {
      ReadingIgnoresFormulas(g, h, n, chunks);
      if was(n).Ok? {
        FigureIsLabelled(g, n, chunks);
      }
    }
    CoversAlike(g.policy, h.policy, was, now);
  }
}
