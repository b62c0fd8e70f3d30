/** What the gate's direct reading depends on and promises: its verdict is a function of the set of
    chunks, a figure is sound for that set, and more evidence never changes a figure silently. */
module EvidenceTheorems {
  import opened Outcomes
  import opened Decimals
  import opened Corpus
  import opened Policies
  import opened BasisResolution
  import opened Classification
  import opened EvidenceGate

  // ----- a verdict without any order -----

  /** Some page of the chunk is classified as something a financial figure cannot come from. */
  predicate Conflicts(gate: Gate, cs: set<Chunk>, c: Chunk)
    requires SingleOwner(c)
  {
    exists p :: p in Pages(c) &&
      TypesOnPage(gate.policy.sectionPatterns, cs, PageKey(Owner(c), p)) * INCOMPATIBLE != {}
  }

  predicate Heard(gate: Gate, rule: Rule, cs: set<Chunk>, c: Chunk)
    requires AllOwned(cs)
  {
    c in cs && Owner(c) in SourceDocs(gate, rule, cs)
  }

  /** One source chunk judged within its own document. */
  function Judge(gate: Gate, metric: Metric, st: Setting, cs: set<Chunk>, c: Chunk): Result<Finding>
    requires AllOwned(cs) && Heard(gate, st.rule, cs, c)
  {
    Examine(gate, metric, st, ProfileIn(cs, Owner(c)), Document(cs, Owner(c)), c, Conflicts(gate, cs, c))
  }

  ghost predicate SourceClear(gate: Gate, metric: Metric, st: Setting, cs: set<Chunk>, d: nat)
    requires AllOwned(cs)
  {
    d in SourceDocs(gate, st.rule, cs) ==>
      && !MixedAudit(ProfileIn(cs, d))
      && (forall c | Heard(gate, st.rule, cs, c) && Owner(c) == d :: Judge(gate, metric, st, cs, c).Ok?)
  }

  /** No source document and none of its chunks is refused. */
  ghost predicate AllClear(gate: Gate, metric: Metric, st: Setting, cs: set<Chunk>)
    requires AllOwned(cs)
  {
    forall d | d in Documents(cs) :: SourceClear(gate, metric, st, cs, d)
  }

  /** A chunk says that the metric is a figure. */
  predicate Speaks(gate: Gate, metric: Metric, st: Setting, cs: set<Chunk>, c: Chunk, f: Figure)
    requires AllOwned(cs)
  {
    Heard(gate, st.rule, cs, c) && Judge(gate, metric, st, cs, c).Ok? &&
    f in Judge(gate, metric, st, cs, c).value.candidates
  }

  predicate SpeaksOlder(gate: Gate, metric: Metric, st: Setting, cs: set<Chunk>, c: Chunk)
    requires AllOwned(cs)
  {
    Heard(gate, st.rule, cs, c) && Judge(gate, metric, st, cs, c).Ok? && Judge(gate, metric, st, cs, c).value.older
  }

  function CandidatesOf(gate: Gate, metric: Metric, st: Setting, cs: set<Chunk>): set<Figure>
    requires AllOwned(cs)
  {
    set c, f | c in cs && Heard(gate, st.rule, cs, c) && Judge(gate, metric, st, cs, c).Ok? &&
               f in Judge(gate, metric, st, cs, c).value.candidates :: f
  }

  ghost predicate PassedOlder(gate: Gate, metric: Metric, st: Setting, cs: set<Chunk>)
    requires AllOwned(cs)
  {
    exists c :: c in cs && SpeaksOlder(gate, metric, st, cs, c)
  }

  /** Settled on what all deciding candidates agree on; Absent when nothing speaks to the metric, the
      one outcome that other routes may follow; Refused otherwise. */
  datatype Verdict = Settled(key: Key) | Absent | Refusal

  ghost function DecidingIn(gate: Gate, metric: Metric, cs: set<Chunk>, st: Setting): Result<set<Figure>>
    requires AllOwned(cs)
  {
    Deciding(st.rule, st.latest, CandidatesOf(gate, metric, st, cs), PassedOlder(gate, metric, st, cs))
  }

  function VerdictFrom(deciding: Result<set<Figure>>): Verdict {
    match deciding
    case Err(code) => if code == MetricMissing then Absent else Refusal
    case Ok(figures) => if Sole(Keys(figures)).Some? then Settled(Sole(Keys(figures)).value) else Refusal
  }

  ghost function VerdictOn(gate: Gate, metric: Metric, cs: set<Chunk>): Verdict {
    var rule := RuleOf(gate.policy, metric);
    if rule.None? || !AllOwned(cs) || Opening(gate, rule.value, cs).Err? then Refusal
    else
      var st := Opening(gate, rule.value, cs).value;
      if !AllClear(gate, metric, st, cs) then Refusal
      else
        VerdictFrom(DecidingIn(gate, metric, cs, st))
  }

  function AsVerdict(r: Result<Figure>): Verdict {
    match r
    case Ok(f) => Settled(KeyFor(f))
    case Err(code) => if code == MetricMissing then Absent else Refusal
  }

  /** What the opening fixes: the one anchored entity and, for a dated rule, the latest source year. */
  ghost predicate Fixes(gate: Gate, rule: Rule, cs: set<Chunk>, st: Setting)
    requires AllOwned(cs)
  {
    && st.rule == rule
    && AnchoredEntities(gate, cs) == {st.entity}
    && (forall d | d in AnchorDocs(gate, cs) :: !ProfileIn(cs, d).ambiguous)
    && (rule.requirePeriod ==>
          SourceYears(gate, rule, cs) != {} && st.latest == Some(MaxOf(SourceYears(gate, rule, cs))))
    && (!rule.requirePeriod ==> st.latest == None)
  }

  lemma {:induction false} OpeningFixes(gate: Gate, rule: Rule, cs: set<Chunk>)
    requires AllOwned(cs) && Opening(gate, rule, cs).Ok?
    ensures Fixes(gate, rule, cs, Opening(gate, rule, cs).value)
  {
  }

  // ----- the ordered scan reaches that verdict -----

  lemma {:induction false} SectionsJudgePages(gate: Gate, chunks: seq<Chunk>, c: Chunk)
    requires c in chunks && SingleOwner(c)
    ensures Touches(Sections(gate.policy.sectionPatterns, chunks), Owner(c), Pages(c), INCOMPATIBLE) <==>
            Conflicts(gate, Elements(chunks), c)
  {
    forall p | p in Pages(c) ensures exists e :: e in chunks && OnPage(e, PageKey(Owner(c), p)) {
      var at :| at in c.provenance && at.page == p;
      assert KeyOf(at) == PageKey(Owner(c), p);
      assert OnPage(c, PageKey(Owner(c), p));
    }
    SectionsAnswerForPages(gate.policy.sectionPatterns, chunks, Owner(c), Pages(c), INCOMPATIBLE);
  }

  /** A turn of the inner loop is the judgement of its chunk. */
  lemma {:induction false} ChunkPartIsJudgement(gate: Gate, metric: Metric, st: Setting, chunks: seq<Chunk>, d: nat,
                                                i: nat)
    requires AllOwned(Elements(chunks)) && d in SourceDocs(gate, st.rule, Elements(chunks))
    requires i < |Items(chunks, d)|
    ensures var cs := Elements(chunks);
            var items := Items(chunks, d);
            && ProfileOf(d, Elements(items)) == ProfileIn(cs, d)
            && Heard(gate, st.rule, cs, items[i]) && Owner(items[i]) == d
            && ChunkParts(gate, metric, st, Sections(gate.policy.sectionPatterns, chunks), ProfileIn(cs, d),
                          Elements(items), items)[i]
               == Judge(gate, metric, st, cs, items[i])
  {
    ItemsAreDocument(chunks, d);
    ItemsAreOwned(chunks, d, Items(chunks, d)[i]);
    SectionsJudgePages(gate, chunks, Items(chunks, d)[i]);
  }

  /** What the inner loop makes of the chunks of a document that is heard. */
  function PartsIn(gate: Gate, metric: Metric, st: Setting, chunks: seq<Chunk>, d: nat): seq<Result<Finding>>
    requires AllOwned(Elements(chunks)) && d in SourceDocs(gate, st.rule, Elements(chunks))
  {
    ChunkParts(gate, metric, st, Sections(gate.policy.sectionPatterns, chunks), ProfileIn(Elements(chunks), d),
               Elements(Items(chunks, d)), Items(chunks, d))
  }

  lemma {:induction false} PartsAreJudgements(gate: Gate, metric: Metric, st: Setting, chunks: seq<Chunk>, d: nat)
    requires AllOwned(Elements(chunks)) && d in SourceDocs(gate, st.rule, Elements(chunks))
    ensures var items, parts := Items(chunks, d), PartsIn(gate, metric, st, chunks, d);
            && |parts| == |items|
            && forall i | 0 <= i < |items| ::
                 && Heard(gate, st.rule, Elements(chunks), items[i])
                 && parts[i] == Judge(gate, metric, st, Elements(chunks), items[i])
  {
    var items := Items(chunks, d);
    forall i | 0 <= i < |items|
      ensures Heard(gate, st.rule, Elements(chunks), items[i])
      ensures PartsIn(gate, metric, st, chunks, d)[i] == Judge(gate, metric, st, Elements(chunks), items[i])
    {
      ChunkPartIsJudgement(gate, metric, st, chunks, d, i);
    }
  }

  /** What a loop gathers, if it makes of each item what a function gives for it. */
  lemma {:induction false} GatheredOver(items: seq<Chunk>, parts: seq<Result<Finding>>, judge: Chunk -> Result<Finding>)
    requires |parts| == |items| && forall i | 0 <= i < |items| :: parts[i] == judge(items[i])
    ensures Gather(parts).Ok? <==> forall c | c in items :: judge(c).Ok?
    ensures Gather(parts).Ok? ==>
              && (forall f :: f in Gather(parts).value.candidates <==>
                    exists c :: c in items && f in judge(c).value.candidates)
              && (Gather(parts).value.older <==> exists c :: c in items && judge(c).value.older)
  {
    Gathered(parts);
    forall c | c in items ensures judge(c) in parts {
      var i :| 0 <= i < |items| && items[i] == c;
      assert parts[i] == judge(c);
    }
    assert forall i | 0 <= i < |items| :: items[i] in items;
  }

  function Judgement(gate: Gate, metric: Metric, st: Setting, cs: set<Chunk>, c: Chunk): Result<Finding>
    requires AllOwned(cs)
  {
    if Heard(gate, st.rule, cs, c) then Judge(gate, metric, st, cs, c) else Ok(NOTHING)
  }

  /** A turn of the outer loop that hears a document gathers the judgements of its chunks. */
  lemma {:induction false} DocumentGathered(gate: Gate, metric: Metric, st: Setting, chunks: seq<Chunk>, d: nat)
    requires AllOwned(Elements(chunks)) && d in SourceDocs(gate, st.rule, Elements(chunks))
    ensures var cs := Elements(chunks);
            var items := Items(chunks, d);
            var part := Gather(ChunkParts(gate, metric, st, Sections(gate.policy.sectionPatterns, chunks),
                                          ProfileIn(cs, d), Elements(items), items));
            && (part.Ok? <==> forall c | c in items ::
                Heard(gate, st.rule, cs, c) && Judge(gate, metric, st, cs, c).Ok?)
            && (part.Ok? ==>
                  && (forall f :: f in part.value.candidates <==>
                        exists c :: c in items && f in Judge(gate, metric, st, cs, c).value.candidates)
                  && (part.value.older <==> exists c :: c in items && Judge(gate, metric, st, cs, c).value.older))
  {
    var cs, items := Elements(chunks), Items(chunks, d);
    var parts := PartsIn(gate, metric, st, chunks, d);
    PartsAreJudgements(gate, metric, st, chunks, d);
    var judge := (c: Chunk) => Judgement(gate, metric, st, cs, c);
    forall c | c in items ensures Heard(gate, st.rule, cs, c) && judge(c) == Judge(gate, metric, st, cs, c) {
      var i :| 0 <= i < |items| && items[i] == c;
    }
    assert forall i | 0 <= i < |items| :: parts[i] == judge(items[i]);
    GatheredOver(items, parts, judge);
  }

  lemma {:induction false} DocumentRefusals(gate: Gate, metric: Metric, st: Setting, chunks: seq<Chunk>, d: nat)
    requires AllOwned(Elements(chunks)) && d in SourceDocs(gate, st.rule, Elements(chunks))
    ensures var cs := Elements(chunks);
            var items := Items(chunks, d);
            var part := Gather(ChunkParts(gate, metric, st, Sections(gate.policy.sectionPatterns, chunks),
                                          ProfileIn(cs, d), Elements(items), items));
            part.Err? ==> part.code != MetricMissing && part.code != ScopeViolation
  {
    var cs := Elements(chunks);
    var items := Items(chunks, d);
    var sections := Sections(gate.policy.sectionPatterns, chunks);
    var parts := ChunkParts(gate, metric, st, sections, ProfileIn(cs, d), Elements(items), items);
    Gathered(parts);
    if Gather(parts).Err? {
      var i :| 0 <= i < |parts| && parts[i] == Gather(parts);
      ItemsAreDocument(chunks, d);
      assert items[i] in Elements(items);
      ExamineRefusals(gate, metric, st, ProfileIn(cs, d), Elements(items), items[i],
                      Touches(sections, d, Pages(items[i]), INCOMPATIBLE));
    }
  }

  lemma {:induction false} SourcePartUnfolds(gate: Gate, metric: Metric, st: Setting, chunks: seq<Chunk>, d: nat)
    requires AllOwned(Elements(chunks)) && d in Documents(Elements(chunks))
    ensures var cs := Elements(chunks);
            var items := Items(chunks, d);
            var sections := Sections(gate.policy.sectionPatterns, chunks);
            SourcePart(gate, metric, st, sections, d, items) ==
              if d !in SourceDocs(gate, st.rule, cs) then Ok(NOTHING)
              else if MixedAudit(ProfileIn(cs, d)) then Err(DocumentAmbiguous)
              else Gather(ChunkParts(gate, metric, st, sections, ProfileIn(cs, d), Elements(items), items))
  {
    ItemsAreDocument(chunks, d);
  }

  /** What a turn gathers from the judgements of a document's chunks, in terms of all chunks. */
  lemma {:induction false} HeardPartFinds(gate: Gate, metric: Metric, st: Setting, chunks: seq<Chunk>, d: nat,
                                          found: Finding)
    requires AllOwned(Elements(chunks)) && d in SourceDocs(gate, st.rule, Elements(chunks))
    requires forall c | c in Items(chunks, d) ::
               Heard(gate, st.rule, Elements(chunks), c) && Judge(gate, metric, st, Elements(chunks), c).Ok?
    requires forall f :: f in found.candidates <==>
               exists c :: c in Items(chunks, d) && f in Judge(gate, metric, st, Elements(chunks), c).value.candidates
    requires found.older <==> exists c ::
               c in Items(chunks, d) && Judge(gate, metric, st, Elements(chunks), c).value.older
    ensures var cs := Elements(chunks);
            && (forall f :: f in found.candidates <==>
                  exists c :: c in cs && Owner(c) == d && Speaks(gate, metric, st, cs, c, f))
            && (found.older <==> exists c :: c in cs && Owner(c) == d && SpeaksOlder(gate, metric, st, cs, c))
  {
    forall c ensures c in Items(chunks, d) <==> c in Elements(chunks) && Owner(c) == d {
      ItemsAreOwned(chunks, d, c);
    }
  }

  /** What a document that is heard finds, in terms of all chunks. */
  lemma {:induction false} HeardPartFacts(gate: Gate, metric: Metric, st: Setting, chunks: seq<Chunk>, d: nat,
                                          part: Result<Finding>)
    requires AllOwned(Elements(chunks)) && d in SourceDocs(gate, st.rule, Elements(chunks)) &&
             !MixedAudit(ProfileIn(Elements(chunks), d))
    requires part == Gather(ChunkParts(gate, metric, st, Sections(gate.policy.sectionPatterns, chunks),
                                       ProfileIn(Elements(chunks), d), Elements(Items(chunks, d)), Items(chunks, d)))
    ensures var cs := Elements(chunks);
            && (part.Ok? <==> SourceClear(gate, metric, st, cs, d))
            && (part.Ok? ==>
                  && (forall f :: f in part.value.candidates <==>
                        exists c :: c in cs && Owner(c) == d && Speaks(gate, metric, st, cs, c, f))
                  && (part.value.older <==> exists c ::
                      c in cs && Owner(c) == d && SpeaksOlder(gate, metric, st, cs, c)))
  {
    var cs := Elements(chunks);
    DocumentGathered(gate, metric, st, chunks, d);
    forall c ensures c in Items(chunks, d) <==> c in cs && Owner(c) == d {
      ItemsAreOwned(chunks, d, c);
    }
    if part.Ok? {
      HeardPartFinds(gate, metric, st, chunks, d, part.value);
    }
  }

  /** A turn of the outer loop: it refuses exactly when its document is not clear, and otherwise finds
      what the chunks of its document say. */
  lemma {:induction false} SourcePartFacts(gate: Gate, metric: Metric, st: Setting, chunks: seq<Chunk>, d: nat,
                                           part: Result<Finding>)
    requires AllOwned(Elements(chunks)) && d in Documents(Elements(chunks))
    requires part == SourcePart(gate, metric, st, Sections(gate.policy.sectionPatterns, chunks), d, Items(chunks, d))
    ensures var cs := Elements(chunks);
            && (part.Ok? <==> SourceClear(gate, metric, st, cs, d))
            && (part.Err? ==> part.code != MetricMissing && part.code != ScopeViolation)
            && (part.Ok? ==>
                  && (forall f :: f in part.value.candidates <==>
                        exists c :: c in cs && Owner(c) == d && Speaks(gate, metric, st, cs, c, f))
                  && (part.value.older <==> exists c ::
                      c in cs && Owner(c) == d && SpeaksOlder(gate, metric, st, cs, c)))
  {
    var cs := Elements(chunks);
    SourcePartUnfolds(gate, metric, st, chunks, d);
    if d in SourceDocs(gate, st.rule, cs) && !MixedAudit(ProfileIn(cs, d)) {
      HeardPartFacts(gate, metric, st, chunks, d, part);
      DocumentRefusals(gate, metric, st, chunks, d);
    }
  }

  function Turns(gate: Gate, metric: Metric, st: Setting, chunks: seq<Chunk>): seq<Result<Finding>>
    requires AllOwned(Elements(chunks))
  {
    SourceParts(gate, metric, st, Sections(gate.policy.sectionPatterns, chunks), chunks, Order(chunks))
  }

  lemma {:induction false} TurnFacts(gate: Gate, metric: Metric, st: Setting, chunks: seq<Chunk>, i: nat)
    requires AllOwned(Elements(chunks)) && i < |Order(chunks)|
    ensures var cs := Elements(chunks);
            var d := Order(chunks)[i];
            var part := Turns(gate, metric, st, chunks)[i];
            && d in Documents(cs)
            && (part.Ok? <==> SourceClear(gate, metric, st, cs, d))
            && (part.Err? ==> part.code != MetricMissing && part.code != ScopeViolation)
            && (part.Ok? ==>
                  && (forall f :: f in part.value.candidates <==>
                        exists c :: c in cs && Owner(c) == d && Speaks(gate, metric, st, cs, c, f))
                  && (part.value.older <==> exists c ::
                      c in cs && Owner(c) == d && SpeaksOlder(gate, metric, st, cs, c)))
  {
    OrderIsDocuments(chunks);
    assert Order(chunks)[i] in Elements(Order(chunks));
    SourcePartFacts(gate, metric, st, chunks, Order(chunks)[i], Turns(gate, metric, st, chunks)[i]);
  }

  lemma {:induction false} TurnOf(chunks: seq<Chunk>, d: nat) returns (i: nat)
    requires AllOwned(Elements(chunks)) && d in Documents(Elements(chunks))
    ensures i < |Order(chunks)| && Order(chunks)[i] == d
  {
    OrderIsDocuments(chunks);
    assert d in Elements(Order(chunks));
    i :| 0 <= i < |Order(chunks)| && Order(chunks)[i] == d;
  }

  /** The nested loops refuse exactly when something is not clear. */
  lemma {:induction false} SurveyRefuses(gate: Gate, metric: Metric, st: Setting, chunks: seq<Chunk>)
    requires AllOwned(Elements(chunks))
    ensures var r := Gather(Turns(gate, metric, st, chunks));
            && (r.Ok? <==> AllClear(gate, metric, st, Elements(chunks)))
            && (r.Err? ==> r.code != MetricMissing && r.code != ScopeViolation)
  {
    var cs := Elements(chunks);
    var parts := Turns(gate, metric, st, chunks);
    Gathered(parts);
    if Gather(parts).Err? {
      var i :| 0 <= i < |parts| && parts[i] == Gather(parts);
      TurnFacts(gate, metric, st, chunks, i);
    } else {
      forall d | d in Documents(cs) ensures SourceClear(gate, metric, st, cs, d) {
        var i := TurnOf(chunks, d);
        TurnFacts(gate, metric, st, chunks, i);
      }
    }
  }

  lemma {:induction false} SpeakingTurn(gate: Gate, metric: Metric, st: Setting, chunks: seq<Chunk>, c: Chunk,
                                        f: Figure)
    returns (i: nat)
    requires AllOwned(Elements(chunks)) && AllClear(gate, metric, st, Elements(chunks))
    requires c in Elements(chunks) && Speaks(gate, metric, st, Elements(chunks), c, f)
    ensures i < |Order(chunks)| && Turns(gate, metric, st, chunks)[i].Ok?
    ensures f in Turns(gate, metric, st, chunks)[i].value.candidates
  {
    i := TurnOf(chunks, Owner(c));
    TurnFacts(gate, metric, st, chunks, i);
  }

  lemma {:induction false} SurveyFinds(gate: Gate, metric: Metric, st: Setting, chunks: seq<Chunk>, f: Figure)
    requires AllOwned(Elements(chunks)) && AllClear(gate, metric, st, Elements(chunks))
    ensures var r := Gather(Turns(gate, metric, st, chunks));
            r.Ok? && (f in r.value.candidates <==>
                      exists c :: c in Elements(chunks) && Speaks(gate, metric, st, Elements(chunks), c, f))
  {
    var parts := Turns(gate, metric, st, chunks);
    SurveyRefuses(gate, metric, st, chunks);
    Gathered(parts);
    if f in Gather(parts).value.candidates {
      var i :| 0 <= i < |parts| && f in parts[i].value.candidates;
      TurnFacts(gate, metric, st, chunks, i);
    }
    if c :| c in Elements(chunks) && Speaks(gate, metric, st, Elements(chunks), c, f) {
      var i := SpeakingTurn(gate, metric, st, chunks, c, f);
    }
  }

  lemma {:induction false} CandidatesSpeak(gate: Gate, metric: Metric, st: Setting, cs: set<Chunk>, f: Figure)
    requires AllOwned(cs)
    ensures f in CandidatesOf(gate, metric, st, cs) <==> exists c :: c in cs && Speaks(gate, metric, st, cs, c, f)
  {
  }

  lemma {:induction false} OlderTurn(gate: Gate, metric: Metric, st: Setting, chunks: seq<Chunk>) returns (i: nat)
    requires AllOwned(Elements(chunks)) && AllClear(gate, metric, st, Elements(chunks))
    requires PassedOlder(gate, metric, st, Elements(chunks))
    ensures i < |Order(chunks)| && Turns(gate, metric, st, chunks)[i].Ok? &&
            Turns(gate, metric, st, chunks)[i].value.older
  {
    var c :| c in Elements(chunks) && SpeaksOlder(gate, metric, st, Elements(chunks), c);
    i := TurnOf(chunks, Owner(c));
    TurnFacts(gate, metric, st, chunks, i);
  }

  lemma {:induction false} SurveyPassesOlder(gate: Gate, metric: Metric, st: Setting, chunks: seq<Chunk>)
    requires AllOwned(Elements(chunks)) && AllClear(gate, metric, st, Elements(chunks))
    ensures var r := Gather(Turns(gate, metric, st, chunks));
            r.Ok? && (r.value.older <==> PassedOlder(gate, metric, st, Elements(chunks)))
  {
    var parts := Turns(gate, metric, st, chunks);
    SurveyRefuses(gate, metric, st, chunks);
    Gathered(parts);
    forall i | 0 <= i < |parts| ensures parts[i].value.older ==> PassedOlder(gate, metric, st, Elements(chunks)) {
      TurnFacts(gate, metric, st, chunks, i);
    }
    if PassedOlder(gate, metric, st, Elements(chunks)) {
      var i := OlderTurn(gate, metric, st, chunks);
    }
  }

  /** Otherwise they gather exactly what the source chunks say, whatever the order of documents and
      chunks. */
  lemma {:induction false} SurveyGathers(gate: Gate, metric: Metric, st: Setting, chunks: seq<Chunk>)
    requires AllOwned(Elements(chunks)) && AllClear(gate, metric, st, Elements(chunks))
    ensures var r := Gather(Turns(gate, metric, st, chunks));
            && r.Ok?
            && Elements(r.value.candidates) == CandidatesOf(gate, metric, st, Elements(chunks))
            && (r.value.older <==> PassedOlder(gate, metric, st, Elements(chunks)))
  {
    SurveyPassesOlder(gate, metric, st, chunks);
    var found := Gather(Turns(gate, metric, st, chunks)).value;
    forall f ensures f in Elements(found.candidates) <==> f in CandidatesOf(gate, metric, st, Elements(chunks)) {
      SurveyFinds(gate, metric, st, chunks, f);
      CandidatesSpeak(gate, metric, st, Elements(chunks), f);
    }
  }

  lemma {:induction false} DirectUnfolds(gate: Gate, metric: Metric, chunks: seq<Chunk>, st: Setting)
    requires AllOwned(Elements(chunks)) && RuleOf(gate.policy, metric).Some?
    requires Opening(gate, RuleOf(gate.policy, metric).value, Elements(chunks)) == Ok(st)
    ensures var found := Gather(Turns(gate, metric, st, chunks));
            Direct(gate, metric, chunks) ==
              if found.Err? then Err(found.code)
                 else Conclude(RuleOf(gate.policy, metric).value, st.latest, found.value)
  {
    assert forall c | c in chunks :: c in Elements(chunks);
  }

  lemma {:induction false} DirectOpens(gate: Gate, metric: Metric, chunks: seq<Chunk>)
    requires RuleOf(gate.policy, metric).None? || !AllOwned(Elements(chunks)) ||
             Opening(gate, RuleOf(gate.policy, metric).value, Elements(chunks)).Err?
    ensures var r := Direct(gate, metric, chunks);
            r.Err? && r.code != MetricMissing && r.code != ScopeViolation
  {
    assert forall c | c in chunks :: c in Elements(chunks);
    assert forall c | c in Elements(chunks) :: c in chunks;
  }

  /** The gate's verdict is the order-free verdict on the set of its chunks; a scope violation is out
      of its reach. */
  lemma {:induction false} DirectReachesVerdict(gate: Gate, metric: Metric, chunks: seq<Chunk>)
    ensures AsVerdict(Direct(gate, metric, chunks)) == VerdictOn(gate, metric, Elements(chunks))
    ensures Direct(gate, metric, chunks) != Err(ScopeViolation)
  {
    var cs := Elements(chunks);
    var rule := RuleOf(gate.policy, metric);
    if rule.None? || !AllOwned(cs) || Opening(gate, rule.value, cs).Err? {
      DirectOpens(gate, metric, chunks);
    } else {
      var st := Opening(gate, rule.value, cs).value;
      DirectUnfolds(gate, metric, chunks, st);
      SurveyRefuses(gate, metric, st, chunks);
      if AllClear(gate, metric, st, cs) {
        SurveyGathers(gate, metric, st, chunks);
        OpeningFixes(gate, rule.value, cs);
        ConclusionIsVerdict(rule.value, st.latest, Gather(Turns(gate, metric, st, chunks)).value);
      }
    }
  }

  lemma {:induction false} ConclusionIsVerdict(rule: Rule, latest: Option<nat>, finding: Finding)
    ensures var r := Conclude(rule, latest, finding);
            var deciding := Deciding(rule, latest, Elements(finding.candidates), finding.older);
            && r != Err(ScopeViolation)
            && AsVerdict(r) == VerdictFrom(deciding)
            && (r.Ok? ==> deciding.Ok? && r.value in deciding.value)
  {
    var deciding := Deciding(rule, latest, Elements(finding.candidates), finding.older);
    if deciding.Ok? && Sole(Keys(deciding.value)).Some? {
      var key := Sole(Keys(deciding.value)).value;
      assert key in Keys(deciding.value);
      var f :| f in deciding.value && KeyFor(f) == key;
      assert f in finding.candidates;
      var first := First(finding.candidates, deciding.value);
      assert first.Some?;
      assert KeyFor(first.value) in Keys(deciding.value);
    }
  }

  /** Two figures say the same: the unit, the period, the basis and, unless they name the borrower, the value. Two
      names of the borrower spell the one anchored identity, and may be written differently. */
  predicate SaysSame(metric: Metric, f: Figure, g: Figure) {
    f.unit == g.unit && f.period == g.period && f.receipt.basis == g.receipt.basis &&
    (metric != BorrowerName ==> f.value == g.value)
  }

  /** Only the set of chunks matters: permuting, or repeating, chunks changes neither success nor what the figure says,
      nor whether the metric is merely absent. */
  lemma {:induction false} ChunkOrderIsIrrelevant(gate: Gate, metric: Metric, a: seq<Chunk>, b: seq<Chunk>)
    requires forall c :: c in a <==> c in b
    ensures AsVerdict(Direct(gate, metric, a)) == AsVerdict(Direct(gate, metric, b))
    ensures Direct(gate, metric, a).Ok? ==>
              Direct(gate, metric, b).Ok? &&
              SaysSame(metric, Direct(gate, metric, a).value, Direct(gate, metric, b).value)
  {
    DirectReachesVerdict(gate, metric, a);
    DirectReachesVerdict(gate, metric, b);
    assert Elements(a) == Elements(b);
    if Direct(gate, metric, a).Ok? {
      FigureIsLabelled(gate, metric, a);
      FigureIsLabelled(gate, metric, b);
    }
  }

  // ----- where a candidate comes from -----

  lemma {:induction false} CurrentRows(rows: seq<Row>, latest: Option<nat>, r: Row)
    ensures r in Current(rows, latest) <==> r in rows && IsCurrent(r, latest)
  {
    if rows != [] {
      CurrentRows(rows[..|rows| - 1], latest, r);
      assert r in rows <==> r in rows[..|rows| - 1] || r == rows[|rows| - 1];
    }
  }

  /** The rows of a chunk that the gate considers. */
  function RowsHeard(metric: Metric, st: Setting, c: Chunk): seq<Row> {
    match RowsOf(c, metric, st.rule, st.entity)
    case Ok(rows) => Current(rows, st.latest)
    case Err(_) => []
  }

  /** They are the rows that the scan gives and that are not older than the latest year. */
  lemma {:induction false} HeardRowsAreCurrent(metric: Metric, st: Setting, c: Chunk, row: Row)
    ensures row in RowsHeard(metric, st, c) <==>
              var all := RowsOf(c, metric, st.rule, st.entity);
              all.Ok? && row in all.value && IsCurrent(row, st.latest)
  {
    var all := RowsOf(c, metric, st.rule, st.entity);
    if all.Ok? {
      CurrentRows(all.value, st.latest, row);
    }
  }

  function SharedIn(gate: Gate, metric: Metric, st: Setting, cs: set<Chunk>, c: Chunk): Result<Shared>
    requires AllOwned(cs) && Heard(gate, st.rule, cs, c)
  {
    SharedOf(gate, metric, st, ProfileIn(cs, Owner(c)), Document(cs, Owner(c)), c, Conflicts(gate, cs, c),
             RowsHeard(metric, st, c))
  }

  lemma {:induction false} GatheredRow(gate: Gate, metric: Metric, st: Setting, source: Profile, c: Chunk,
                                       shared: Shared, rows: seq<Row>, f: Figure) returns (row: Row)
    requires source.types * Allowed(st.rule) != {}
    requires var r := Gather(RowParts(gate, metric, st, source, c, shared, rows)); r.Ok? && f in r.value.candidates
    ensures row in rows && FigureOf(gate, metric, st, source, c, shared, row) == Ok(f)
  {
    var parts := RowParts(gate, metric, st, source, c, shared, rows);
    Gathered(parts);
    var i :| 0 <= i < |parts| && f in parts[i].value.candidates;
    row := rows[i];
  }

  /** A chunk with candidates has a context, in which its current rows are read. */
  lemma {:induction false} SpeakerReads(gate: Gate, metric: Metric, st: Setting, cs: set<Chunk>, c: Chunk)
    requires AllOwned(cs) && Heard(gate, st.rule, cs, c) && Judge(gate, metric, st, cs, c).Ok?
    requires Judge(gate, metric, st, cs, c).value.candidates != []
    ensures SharedIn(gate, metric, st, cs, c).Ok?
    ensures var r := Gather(RowParts(gate, metric, st, ProfileIn(cs, Owner(c)), c,
                                     SharedIn(gate, metric, st, cs, c).value, RowsHeard(metric, st, c)));
            r.Ok? && r.value.candidates == Judge(gate, metric, st, cs, c).value.candidates
  {
  }

  /** Every candidate is the conversion of one current row of a chunk, in the context of its page. */
  lemma {:induction false} CandidateHasRow(gate: Gate, metric: Metric, st: Setting, cs: set<Chunk>, c: Chunk, f: Figure)
    returns (row: Row)
    requires AllOwned(cs) && Speaks(gate, metric, st, cs, c, f)
    ensures row in RowsHeard(metric, st, c)
    ensures SharedIn(gate, metric, st, cs, c).Ok?
    ensures FigureOf(gate, metric, st, ProfileIn(cs, Owner(c)), c, SharedIn(gate, metric, st, cs, c).value, row) ==
              Ok(f)
  {
    SpeakerReads(gate, metric, st, cs, c);
    row := GatheredRow(gate, metric, st, ProfileIn(cs, Owner(c)), c, SharedIn(gate, metric, st, cs, c).value,
                       RowsHeard(metric, st, c), f);
  }

  /** And every current row of a chunk that is not refused is a candidate. */
  lemma {:induction false} RowIsCandidate(gate: Gate, metric: Metric, st: Setting, cs: set<Chunk>, c: Chunk, row: Row)
    returns (f: Figure)
    requires AllOwned(cs) && Heard(gate, st.rule, cs, c) && Judge(gate, metric, st, cs, c).Ok?
    requires row in RowsHeard(metric, st, c)
    ensures Speaks(gate, metric, st, cs, c, f) && f.period == row.period && f.receipt.source == Some(row.raw)
    ensures SharedIn(gate, metric, st, cs, c).Ok?
    ensures FigureOf(gate, metric, st, ProfileIn(cs, Owner(c)), c, SharedIn(gate, metric, st, cs, c).value, row) ==
              Ok(f)
  {
    var rows := RowsHeard(metric, st, c);
    var source := ProfileIn(cs, Owner(c));
    var shared := SharedIn(gate, metric, st, cs, c).value;
    var parts := RowParts(gate, metric, st, source, c, shared, rows);
    Gathered(parts);
    var i :| 0 <= i < |rows| && rows[i] == row;
    f := parts[i].value.candidates[0];
    assert f in parts[i].value.candidates;
  }

  // ----- more evidence -----

  /** Whole new documents: no chunk is added to, or missing from, a document already there. */
  ghost predicate AddsDocuments(base: set<Chunk>, more: set<Chunk>)
    requires AllOwned(base)
  {
    base <= more && forall c | c in more && SingleOwner(c) && Owner(c) in Documents(base) :: c in base
  }

  lemma {:induction false} OldDocumentsKept(base: set<Chunk>, more: set<Chunk>, d: nat)
    requires AllOwned(base) && AllOwned(more) && AddsDocuments(base, more) && d in Documents(base)
    ensures d in Documents(more) && Document(more, d) == Document(base, d)
  {
    var c :| c in base && Owner(c) == d;
    assert c in more;
  }

  /** For a dated rule, no added source document reports a later year than the old sources do. */
  ghost predicate NoLaterYear(gate: Gate, rule: Rule, base: set<Chunk>, more: set<Chunk>)
    requires AllOwned(base) && AllOwned(more)
  {
    rule.requirePeriod && SourceYears(gate, rule, base) != {} ==>
      forall y | y in SourceYears(gate, rule, more) :: y <= MaxOf(SourceYears(gate, rule, base))
  }

  lemma {:induction false} SourcesKept(gate: Gate, rule: Rule, base: set<Chunk>, more: set<Chunk>)
    requires AllOwned(base) && AllOwned(more) && AddsDocuments(base, more)
    ensures SourceDocs(gate, rule, base) <= SourceDocs(gate, rule, more)
    ensures SourceYears(gate, rule, base) <= SourceYears(gate, rule, more)
  {
    forall d | d in SourceDocs(gate, rule, base) ensures d in SourceDocs(gate, rule, more) {
      OldDocumentsKept(base, more, d);
    }
    forall y | y in SourceYears(gate, rule, base) ensures y in SourceYears(gate, rule, more) {
      var c :| c in base && Owner(c) in SourceDocs(gate, rule, base) && y in c.years;
      assert c in more;
    }
  }

  lemma {:induction false} LatestYearKept(gate: Gate, rule: Rule, base: set<Chunk>, more: set<Chunk>, st: Setting,
                                          now: Setting)
    requires AllOwned(base) && AllOwned(more) && AddsDocuments(base, more) && NoLaterYear(gate, rule, base, more)
    requires Fixes(gate, rule, base, st) && Fixes(gate, rule, more, now)
    ensures st.latest == now.latest
  {
    SourcesKept(gate, rule, base, more);
    if rule.requirePeriod {
      MaxOfBounded(SourceYears(gate, rule, base), SourceYears(gate, rule, more));
    }
  }

  lemma {:induction false} ConflictsKept(gate: Gate, base: set<Chunk>, more: set<Chunk>, c: Chunk)
    requires AllOwned(base) && AllOwned(more) && AddsDocuments(base, more) && c in base
    ensures Conflicts(gate, base, c) <==> Conflicts(gate, more, c)
  {
    forall p ensures ChunksOn(base, PageKey(Owner(c), p)) == ChunksOn(more, PageKey(Owner(c), p)) {
      forall e | e in ChunksOn(more, PageKey(Owner(c), p)) ensures e in base {
        assert Owner(e) == Owner(c);
        assert Owner(c) in Documents(base);
      }
    }
  }

  lemma {:induction false} JudgementKept(gate: Gate, metric: Metric, base: set<Chunk>, more: set<Chunk>, st: Setting,
                                         c: Chunk)
    requires AllOwned(base) && AllOwned(more) && AddsDocuments(base, more) && Heard(gate, st.rule, base, c)
    ensures Heard(gate, st.rule, more, c) && Judge(gate, metric, st, more, c) == Judge(gate, metric, st, base, c)
  {
    SourcesKept(gate, st.rule, base, more);
    OldDocumentsKept(base, more, Owner(c));
    ConflictsKept(gate, base, more, c);
  }

  /** A chunk with rows in a document that names another borrower, or none, is refused. */
  lemma {:induction false} StrangerIsRefused(gate: Gate, metric: Metric, st: Setting, cs: set<Chunk>, c: Chunk)
    requires AllOwned(cs) && Heard(gate, st.rule, cs, c) && RowsHeard(metric, st, c) != []
    requires ProfileIn(cs, Owner(c)).entity != Some(st.entity)
    ensures Judge(gate, metric, st, cs, c).Err?
  {
  }

  /** A chunk that spoke before the documents were added says the same afterwards, or is refused
      because the added documents anchor another borrower. */
  lemma {:induction false} VoiceKept(gate: Gate, metric: Metric, base: set<Chunk>, more: set<Chunk>, st: Setting,
                                     now: Setting, c: Chunk, f: Figure)
    requires AllOwned(base) && AllOwned(more) && AddsDocuments(base, more)
    requires st.rule == now.rule && st.latest == now.latest && !st.rule.headingPattern
    requires Speaks(gate, metric, st, base, c, f)
    ensures Heard(gate, now.rule, more, c)
    ensures st.entity == now.entity ==> Speaks(gate, metric, now, more, c, f)
    ensures st.entity != now.entity ==> Judge(gate, metric, now, more, c).Err?
  {
    JudgementKept(gate, metric, base, more, st, c);
    if st.entity != now.entity {
      var row := CandidateHasRow(gate, metric, st, base, c, f);
      OldDocumentsKept(base, more, Owner(c));
      StrangerIsRefused(gate, metric, now, more, c);
    }
  }

  lemma {:induction false} SpeakerIsNic(gate: Gate, metric: Metric, st: Setting, cs: set<Chunk>, c: Chunk, f: Figure)
    requires AllOwned(cs) && Speaks(gate, metric, st, cs, c, f)
    ensures f.receipt.nicMapped <==> st.rule.nicLevel && c.nicTable
  {
    var row := CandidateHasRow(gate, metric, st, cs, c, f);
  }

  /** Rows of a NIC table outrank others: a chunk's rows decide if it has such a table, or no chunk with one has rows,
      or the rule does not ask for a NIC level. */
  ghost predicate Outranks(gate: Gate, metric: Metric, st: Setting, cs: set<Chunk>, c: Chunk)
    requires AllOwned(cs)
  {
    st.rule.nicLevel ==>
      c.nicTable || forall x | Heard(gate, st.rule, cs, x) && x.nicTable :: RowsHeard(metric, st, x) == []
  }

  lemma {:induction false} CandidateIsNotNic(gate: Gate, metric: Metric, st: Setting, cs: set<Chunk>, g: Figure)
    requires AllOwned(cs) && g in CandidatesOf(gate, metric, st, cs)
    requires st.rule.nicLevel ==>
               forall x | Heard(gate, st.rule, cs, x) && x.nicTable :: RowsHeard(metric, st, x) == []
    ensures !g.receipt.nicMapped
  {
    CandidatesSpeak(gate, metric, st, cs, g);
    var x :| x in cs && Speaks(gate, metric, st, cs, x, g);
    SpeakerIsNic(gate, metric, st, cs, x, g);
    var row := CandidateHasRow(gate, metric, st, cs, x, g);
  }

  lemma {:induction false} MemberIsPreferred(fs: set<Figure>, f: Figure)
    requires f in fs && (f.receipt.nicMapped || forall g | g in fs :: !g.receipt.nicMapped)
    ensures f in Preferred(fs)
  {
  }

  lemma {:induction false} VoiceIsPreferred(gate: Gate, metric: Metric, st: Setting, cs: set<Chunk>, c: Chunk,
                                            f: Figure)
    requires AllOwned(cs) && Speaks(gate, metric, st, cs, c, f) && Outranks(gate, metric, st, cs, c)
    ensures f in Preferred(CandidatesOf(gate, metric, st, cs))
  {
    CandidatesSpeak(gate, metric, st, cs, f);
    SpeakerIsNic(gate, metric, st, cs, c, f);
    if !f.receipt.nicMapped {
      forall g | g in CandidatesOf(gate, metric, st, cs) ensures !g.receipt.nicMapped {
        CandidateIsNotNic(gate, metric, st, cs, g);
      }
    }
    MemberIsPreferred(CandidatesOf(gate, metric, st, cs), f);
  }

  lemma {:induction false} DecidersAreCandidates(rule: Rule, latest: Option<nat>, fs: set<Figure>, older: bool,
                                                 f: Figure)
    requires Deciding(rule, latest, fs, older).Ok? && f in Deciding(rule, latest, fs, older).value
    ensures f in fs
    ensures rule.requirePeriod && latest.Some? ==> f.period == latest
  {
  }

  lemma {:induction false} CurrentCandidatesDecide(rule: Rule, latest: Option<nat>, fs: set<Figure>, older: bool,
                                                   f: Figure)
    requires f in Preferred(fs) && (rule.requirePeriod ==> latest.Some? && f.period == latest)
    ensures var deciding := Deciding(rule, latest, fs, older);
            && deciding != Err(MetricMissing)
            && (deciding.Ok? ==> f in deciding.value)
  {
  }

  lemma {:induction false} VerdictUnfolds(gate: Gate, metric: Metric, cs: set<Chunk>) returns (st: Setting)
    requires VerdictOn(gate, metric, cs) != Refusal
    ensures AllOwned(cs) && RuleOf(gate.policy, metric).Some?
    ensures Opening(gate, RuleOf(gate.policy, metric).value, cs) == Ok(st)
    ensures AllClear(gate, metric, st, cs)
    ensures VerdictOn(gate, metric, cs) == VerdictFrom(DecidingIn(gate, metric, cs, st))
  {
    st := Opening(gate, RuleOf(gate.policy, metric).value, cs).value;
  }

  lemma {:induction false} SettledHasDecider(deciding: Result<set<Figure>>, k: Key) returns (f: Figure)
    requires VerdictFrom(deciding) == Settled(k)
    ensures deciding.Ok? && f in deciding.value && KeyFor(f) == k
  {
    assert k in Keys(deciding.value);
    f :| f in deciding.value && KeyFor(f) == k;
  }

  lemma {:induction false} DeciderSettles(deciding: Result<set<Figure>>, f: Figure)
    requires deciding.Ok? && f in deciding.value
    ensures VerdictFrom(deciding) in {Settled(KeyFor(f)), Refusal}
  {
    assert KeyFor(f) in Keys(deciding.value);
  }

  /** A settled verdict has a candidate that says it, in the latest year if the rule is dated. */
  lemma {:induction false} SettledHasVoice(gate: Gate, metric: Metric, cs: set<Chunk>, k: Key)
    returns (st: Setting, c: Chunk, f: Figure)
    requires VerdictOn(gate, metric, cs) == Settled(k)
    ensures AllOwned(cs) && RuleOf(gate.policy, metric).Some?
    ensures Fixes(gate, RuleOf(gate.policy, metric).value, cs, st)
    ensures Opening(gate, RuleOf(gate.policy, metric).value, cs) == Ok(st)
    ensures Speaks(gate, metric, st, cs, c, f) && KeyFor(f) == k
    ensures st.latest.Some? ==> f.period == st.latest
  {
    st := VerdictUnfolds(gate, metric, cs);
    OpeningFixes(gate, st.rule, cs);
    f := SettledHasDecider(DecidingIn(gate, metric, cs, st), k);
    DecidersAreCandidates(st.rule, st.latest, CandidatesOf(gate, metric, st, cs), PassedOlder(gate, metric, st, cs), f);
    CandidatesSpeak(gate, metric, st, cs, f);
    c :| c in cs && Speaks(gate, metric, st, cs, c, f);
  }

  lemma {:induction false} VoiceDecides(gate: Gate, metric: Metric, cs: set<Chunk>, st: Setting, c: Chunk, f: Figure)
    requires AllOwned(cs) && (st.rule.requirePeriod <==> st.latest.Some?)
    requires Speaks(gate, metric, st, cs, c, f) && Outranks(gate, metric, st, cs, c)
    requires st.latest.Some? ==> f.period == st.latest
    ensures VerdictFrom(DecidingIn(gate, metric, cs, st)) in {Settled(KeyFor(f)), Refusal}
  {
    VoiceIsPreferred(gate, metric, st, cs, c, f);
    CurrentCandidatesDecide(st.rule, st.latest, CandidatesOf(gate, metric, st, cs), PassedOlder(gate, metric, st, cs),
                            f);
    if DecidingIn(gate, metric, cs, st).Ok? {
      DeciderSettles(DecidingIn(gate, metric, cs, st), f);
    }
  }

  /** A voice in the deciding year is part of any settled verdict. */
  lemma {:induction false} VoiceIsHeard(gate: Gate, metric: Metric, cs: set<Chunk>, st: Setting, c: Chunk, f: Figure)
    requires AllOwned(cs) && RuleOf(gate.policy, metric).Some?
    requires Opening(gate, RuleOf(gate.policy, metric).value, cs) == Ok(st)
    requires Speaks(gate, metric, st, cs, c, f) && Outranks(gate, metric, st, cs, c)
    requires st.latest.Some? ==> f.period == st.latest
    ensures VerdictOn(gate, metric, cs) in {Settled(KeyFor(f)), Refusal}
  {
    OpeningFixes(gate, RuleOf(gate.policy, metric).value, cs);
    VoiceDecides(gate, metric, cs, st, c, f);
    if VerdictOn(gate, metric, cs) != Refusal {
      var same := VerdictUnfolds(gate, metric, cs);
    }
  }

  /** More evidence never changes a figure silently: adding whole documents that report no later year
      leaves what a direct reading says (value, unit, period and basis) as it was, or makes it refuse
      for a reason other than absence. That covers added registrations which anchor another borrower,
      and chunks that belong to no single document. */
  lemma {:induction false} EvidenceIsMonotone(gate: Gate, metric: Metric, base: set<Chunk>, more: set<Chunk>, k: Key)
    requires RuleOf(gate.policy, metric).Some?
    requires !RuleOf(gate.policy, metric).value.nicLevel && !RuleOf(gate.policy, metric).value.headingPattern
    requires AllOwned(base) && AddsDocuments(base, more)
    requires AllOwned(more) ==> NoLaterYear(gate, RuleOf(gate.policy, metric).value, base, more)
    requires VerdictOn(gate, metric, base) == Settled(k)
    ensures VerdictOn(gate, metric, more) in {Settled(k), Refusal}
  {
    var rule := RuleOf(gate.policy, metric).value;
    var st, c, f := SettledHasVoice(gate, metric, base, k);
    if AllOwned(more) && Opening(gate, rule, more).Ok? {
      var now := Opening(gate, rule, more).value;
      OpeningFixes(gate, rule, more);
      LatestYearKept(gate, rule, base, more, st, now);
      VoiceKept(gate, metric, base, more, st, now, c, f);
      if st.entity == now.entity {
        VoiceIsHeard(gate, metric, more, now, c, f);
      } else {
        assert !SourceClear(gate, metric, now, more, Owner(c));
      }
    }
  }

  /** The same for the reading itself, on any two chunk sequences. */
  lemma {:induction false} DirectIsMonotone(gate: Gate, metric: Metric, base: seq<Chunk>, more: seq<Chunk>)
    requires RuleOf(gate.policy, metric).Some?
    requires !RuleOf(gate.policy, metric).value.nicLevel && !RuleOf(gate.policy, metric).value.headingPattern
    requires AllOwned(Elements(base)) && AddsDocuments(Elements(base), Elements(more))
    requires AllOwned(Elements(more)) ==>
               NoLaterYear(gate, RuleOf(gate.policy, metric).value, Elements(base), Elements(more))
    requires Direct(gate, metric, base).Ok?
    ensures var was, now := Direct(gate, metric, base), Direct(gate, metric, more);
            && now != Err(MetricMissing)
            && (now.Ok? ==> KeyFor(now.value) == KeyFor(was.value) && SaysSame(metric, was.value, now.value))
  {
    DirectReachesVerdict(gate, metric, base);
    DirectReachesVerdict(gate, metric, more);
    EvidenceIsMonotone(gate, metric, Elements(base), Elements(more), KeyFor(Direct(gate, metric, base).value));
    FigureIsLabelled(gate, metric, base);
    if Direct(gate, metric, more).Ok? {
      FigureIsLabelled(gate, metric, more);
    }
  }

  // ----- what a figure certifies -----

  /** A returned figure is one of the deciding candidates, and some source chunk says it. */
  lemma {:induction false} FigureHasVoice(gate: Gate, metric: Metric, chunks: seq<Chunk>)
    returns (st: Setting, c: Chunk)
    requires Direct(gate, metric, chunks).Ok?
    ensures var cs := Elements(chunks);
            var f := Direct(gate, metric, chunks).value;
            && AllOwned(cs) && RuleOf(gate.policy, metric).Some?
            && Fixes(gate, RuleOf(gate.policy, metric).value, cs, st)
            && AllClear(gate, metric, st, cs)
            && Speaks(gate, metric, st, cs, c, f)
            && DecidingIn(gate, metric, cs, st).Ok? && f in DecidingIn(gate, metric, cs, st).value
            && Keys(DecidingIn(gate, metric, cs, st).value) == {KeyFor(f)}
  {
    var cs := Elements(chunks);
    var f := Direct(gate, metric, chunks).value;
    DirectReachesVerdict(gate, metric, chunks);
    st := VerdictUnfolds(gate, metric, cs);
    OpeningFixes(gate, st.rule, cs);
    DirectUnfolds(gate, metric, chunks, st);
    SurveyGathers(gate, metric, st, chunks);
    ConclusionIsVerdict(st.rule, st.latest, Gather(Turns(gate, metric, st, chunks)).value);
    DecidersAreCandidates(st.rule, st.latest, CandidatesOf(gate, metric, st, cs), PassedOlder(gate, metric, st, cs), f);
    CandidatesSpeak(gate, metric, st, cs, f);
    c :| c in cs && Speaks(gate, metric, st, cs, c, f);
  }

  ghost predicate Converted(gate: Gate, items: set<Chunk>, c: Chunk, row: Row, f: Figure) {
    exists u :: UnitsIn(OnPages(items, Pages(c))) == {u} && f.receipt.sourceUnit == In(u) &&
      row.raw.number.Some? && f.value == Amount(row.raw.number.value.Times(gate.policy.factors.Of(u)))
  }

  /** A number in its own unit: as written, for the factor is one. */
  ghost predicate AsWritten(row: Row, f: Figure) {
    row.raw.number.Some? && f.value == Amount(row.raw.number.value.Times(ONE)) && f.receipt.sourceUnit == Own(f.unit) &&
    f.value.numeral.Value() == row.raw.number.value.Value()
  }

  /** What a figure says is what its row says, for each kind of rule. */
  ghost predicate SaysRow(gate: Gate, metric: Metric, kind: Kind, items: set<Chunk>, c: Chunk, row: Row, f: Figure) {
    && (metric == BorrowerName ==> row.raw.name == f.receipt.entity)
    && if metric == Region then
         && Sole(row.raw.regions).Some? && f.value == Words(Sole(row.raw.regions).value)
         && f.unit == (if kind == Money then InrCrore else Address) && f.receipt.sourceUnit == Own(Address)
       else
         match kind
         case Money => f.unit == InrCrore && Converted(gate, items, c, row, f)
         case Percent => f.unit == PercentSign && AsWritten(row, f) && metric in c.percentShown
         case Ratio => f.unit == Times && AsWritten(row, f)
         case Count =>
           && f.unit == Each && AsWritten(row, f)
           && row.raw.number.value.IsIntegral() && f.value.numeral.Value() >= 0.0
         case Text => f.unit == PlainText && f.value == Words(row.raw.text) && 0 < |row.raw.text| <= 300
         case Date => f.unit == CalendarDate && row.raw.date.Some? && f.value == Day(row.raw.date.value)
  }

  /** The setting that a figure's own receipt and period give back. */
  function SettingOf(rule: Rule, f: Figure): Setting {
    Setting(rule, f.receipt.entity, if rule.requirePeriod then f.period else None)
  }

  /** The whole chain of custody of a figure: its row and chunk, document, entity, year, citation, basis and value. */
  ghost predicate Certified(gate: Gate, metric: Metric, rule: Rule, cs: set<Chunk>, c: Chunk, row: Row, f: Figure)
    requires AllOwned(cs) && Heard(gate, rule, cs, c)
  {
    var d := Owner(c);
    var items := Document(cs, d);
    // it comes from a row that the gate considers, and its receipt names that row and its chunk
    && row in RowsHeard(metric, SettingOf(rule, f), c)
    && f.receipt.source == Some(row.raw) && f.receipt.chunk == c.id
    // its document is a source that is about the one anchored entity, and about no other
    && AnchoredEntities(gate, cs) == {f.receipt.entity}
    && ProfileIn(cs, d).entity == Some(f.receipt.entity) && !ProfileIn(cs, d).ambiguous
    && !MixedAudit(ProfileIn(cs, d))
    && f.receipt.documentType in ProfileIn(cs, d).types * Allowed(rule)
    // it is dated, if the rule is, by the latest year that any source reports
    && f.period == row.period
    && (rule.requirePeriod ==>
          SourceYears(gate, rule, cs) != {} && f.period == Some(MaxOf(SourceYears(gate, rule, cs))))
    // its citation is the chunk's only one
    && f.citation in c.provenance && f.citation.document == d && CitationOf(c) == Ok(f.citation)
    // its basis, if one is required, is the only one on its page or the only one declared for its year
    && (rule.requireBasis ==>
          && !Conflicts(gate, cs, c)
          && f.receipt.basis.Some?
          && (UniqueOnPage(c, items, f.receipt.basis.value) ||
              UniquelyDeclared(c, items, f.period, f.receipt.basis.value)))
    && (!rule.requireBasis ==> f.receipt.basis == None)
    // it says what its row says; an amount of money is the product of the number in the row and the factor of the
    // one unit named on its pages
    && SaysRow(gate, metric, rule.kind, items, c, row, f)
  }

  lemma {:induction false} ChunkInItsDocument(cs: set<Chunk>, c: Chunk)
    requires AllOwned(cs) && c in cs
    ensures InScope(c, Document(cs, Owner(c)))
  {
  }

  lemma {:induction false} VoiceBasis(gate: Gate, metric: Metric, st: Setting, cs: set<Chunk>, c: Chunk, row: Row,
                                      f: Figure)
    requires AllOwned(cs) && Heard(gate, st.rule, cs, c) && row in RowsHeard(metric, st, c)
    requires SharedIn(gate, metric, st, cs, c).Ok?
    requires FigureOf(gate, metric, st, ProfileIn(cs, Owner(c)), c, SharedIn(gate, metric, st, cs, c).value, row) ==
               Ok(f)
    ensures var items := Document(cs, Owner(c));
            st.rule.requireBasis ==>
              && f.receipt.basis.Some?
              && (UniqueOnPage(c, items, f.receipt.basis.value) ||
                  UniquelyDeclared(c, items, f.period, f.receipt.basis.value))
  {
    if st.rule.requireBasis {
      ChunkInItsDocument(cs, c);
      var periods := PeriodsOf(RowsHeard(metric, st, c));
      assert row.period in periods;
      assert Sole(periods).value == row.period;
      BasisIsUnambiguous(c, Document(cs, Owner(c)), row.period, f.receipt.basis.value);
    }
  }

  /** The unit of a context: the only one on the chunk's pages for money, else the kind's own. */
  lemma {:induction false} ContextUnit(gate: Gate, metric: Metric, st: Setting, cs: set<Chunk>, c: Chunk)
    returns (u: MoneyUnit)
    requires AllOwned(cs) && Heard(gate, st.rule, cs, c)
    requires SharedIn(gate, metric, st, cs, c).Ok?
    ensures var shared := SharedIn(gate, metric, st, cs, c).value;
            if st.rule.kind == Money then
              && UnitsIn(OnPages(Document(cs, Owner(c)), Pages(c))) == {u}
              && shared.unit == In(u) && shared.factor == gate.policy.factors.Of(u)
            else
              && shared.unit == Own(OwnUnit(st.rule.kind)) && shared.factor == ONE
              && (st.rule.kind == Percent ==> metric in c.percentShown)
  {
    if st.rule.kind == Money {
      u := Sole(UnitsIn(OnPages(Document(cs, Owner(c)), Pages(c)))).value;
    } else {
      u := Crore;
    }
  }

  lemma {:induction false} FigureIsReading(gate: Gate, metric: Metric, st: Setting, source: Profile, c: Chunk,
                                           shared: Shared, row: Row, f: Figure)
    requires source.types * Allowed(st.rule) != {}
    requires FigureOf(gate, metric, st, source, c, shared, row) == Ok(f)
    ensures Read(metric, st, shared.unit, shared.factor, row.raw) == Ok(Reading(f.value, f.unit, f.receipt.sourceUnit))
    ensures f.receipt.entity == st.entity
  {
  }

  /** What a reading says of a row, for each kind; for money the factor and the unit are those of the context. */
  lemma {:induction false} ReadingSaysRow(metric: Metric, st: Setting, unit: SourceUnit, factor: Numeral, raw: Raw,
                                          r: Reading)
    requires Read(metric, st, unit, factor, raw) == Ok(r)
    ensures metric == BorrowerName ==> raw.name == st.entity
    ensures metric == Region ==>
              && Sole(raw.regions).Some? && r.value == Words(Sole(raw.regions).value)
              && r.unit == (if st.rule.kind == Money then InrCrore else Address) && r.sourceUnit == Own(Address)
    ensures metric != Region ==>
              && r.unit == (if st.rule.kind == Money then InrCrore else OwnUnit(st.rule.kind)) && r.sourceUnit == unit
              && (st.rule.kind == Text ==> r.value == Words(raw.text) && 0 < |raw.text| <= 300)
              && (st.rule.kind == Date ==> raw.date.Some? && r.value == Day(raw.date.value))
              && (st.rule.kind in {Money, Percent, Ratio, Count} ==>
                    raw.number.Some? && r.value == Amount(raw.number.value.Times(factor)))
              && (st.rule.kind == Count ==> !raw.number.value.IsNegative() && raw.number.value.IsIntegral())
  {
  }

  lemma {:induction false} OneKeepsValue(n: Numeral)
    ensures n.Times(ONE).Value() == n.Value()
    ensures !n.IsNegative() <==> n.Value() >= 0.0
  {
    TimesMultipliesValues(n, ONE);
    assert ONE.Value() == 1.0;
    NegativeIsBelowZero(n);
  }

  lemma {:induction false} VoiceSaysRow(gate: Gate, metric: Metric, st: Setting, cs: set<Chunk>, c: Chunk, row: Row,
                                        f: Figure)
    requires AllOwned(cs) && Heard(gate, st.rule, cs, c) && SharedIn(gate, metric, st, cs, c).Ok?
    requires FigureOf(gate, metric, st, ProfileIn(cs, Owner(c)), c, SharedIn(gate, metric, st, cs, c).value, row) ==
               Ok(f)
    ensures SaysRow(gate, metric, st.rule.kind, Document(cs, Owner(c)), c, row, f)
  {
    var shared := SharedIn(gate, metric, st, cs, c).value;
    var u := ContextUnit(gate, metric, st, cs, c);
    FigureIsReading(gate, metric, st, ProfileIn(cs, Owner(c)), c, shared, row, f);
    ReadingSaysRow(metric, st, shared.unit, shared.factor, row.raw, Reading(f.value, f.unit, f.receipt.sourceUnit));
    if metric != Region && st.rule.kind in {Percent, Ratio, Count} {
      OneKeepsValue(row.raw.number.value);
    }
  }

  lemma {:induction false} VoiceSource(gate: Gate, metric: Metric, st: Setting, cs: set<Chunk>, c: Chunk, row: Row,
                                       f: Figure)
    requires AllOwned(cs) && Heard(gate, st.rule, cs, c)
    requires SharedIn(gate, metric, st, cs, c).Ok?
    requires FigureOf(gate, metric, st, ProfileIn(cs, Owner(c)), c, SharedIn(gate, metric, st, cs, c).value, row) ==
               Ok(f)
    ensures f.metric == metric && f.period == row.period && f.receipt.entity == st.entity && f.workings == None
    ensures f.receipt.policyHash == gate.policy.hash && f.receipt.period == row.period
    ensures f.receipt.source == Some(row.raw) && f.receipt.chunk == c.id
    ensures ProfileIn(cs, Owner(c)).entity == Some(st.entity) && !ProfileIn(cs, Owner(c)).ambiguous
    ensures f.receipt.documentType in ProfileIn(cs, Owner(c)).types * Allowed(st.rule)
    ensures CitationOf(c) == Ok(f.citation) && f.citation in c.provenance && f.citation.document == Owner(c)
    ensures st.rule.requireBasis ==> !Conflicts(gate, cs, c)
    ensures !st.rule.requireBasis ==> f.receipt.basis == None
  {
  }

  lemma {:induction false} VoiceIsCertified(gate: Gate, metric: Metric, st: Setting, cs: set<Chunk>, c: Chunk, row: Row,
                                            f: Figure)
    requires AllOwned(cs) && Heard(gate, st.rule, cs, c) && row in RowsHeard(metric, st, c)
    requires SharedIn(gate, metric, st, cs, c).Ok?
    requires FigureOf(gate, metric, st, ProfileIn(cs, Owner(c)), c, SharedIn(gate, metric, st, cs, c).value, row) ==
               Ok(f)
    requires Fixes(gate, st.rule, cs, st) && !MixedAudit(ProfileIn(cs, Owner(c)))
    requires st.latest.Some? ==> f.period == st.latest
    ensures Certified(gate, metric, st.rule, cs, c, row, f)
  {
    VoiceSource(gate, metric, st, cs, c, row, f);
    VoiceBasis(gate, metric, st, cs, c, row, f);
    VoiceSaysRow(gate, metric, st, cs, c, row, f);
    assert SettingOf(st.rule, f) == st;
  }

  /** A returned figure is certified by a row of a source chunk. */
  lemma {:induction false} FigureIsCertified(gate: Gate, metric: Metric, chunks: seq<Chunk>)
    returns (rule: Rule, c: Chunk, row: Row)
    requires Direct(gate, metric, chunks).Ok?
    ensures AllOwned(Elements(chunks)) && RuleOf(gate.policy, metric) == Some(rule)
    ensures Heard(gate, rule, Elements(chunks), c)
    ensures Certified(gate, metric, rule, Elements(chunks), c, row, Direct(gate, metric, chunks).value)
    ensures var st := SettingOf(rule, Direct(gate, metric, chunks).value);
            var all := RowsOf(c, metric, rule, st.entity);
            all.Ok? && row in all.value && IsCurrent(row, st.latest)
  {
    var cs := Elements(chunks);
    var f := Direct(gate, metric, chunks).value;
    var st;
    st, c := FigureHasVoice(gate, metric, chunks);
    rule := st.rule;
    row := CandidateHasRow(gate, metric, st, cs, c, f);
    DecidersAreCandidates(st.rule, st.latest, CandidatesOf(gate, metric, st, cs), PassedOlder(gate, metric, st, cs), f);
    assert SourceClear(gate, metric, st, cs, Owner(c));
    VoiceIsCertified(gate, metric, st, cs, c, row, f);
    HeardRowsAreCurrent(metric, SettingOf(rule, f), c, row);
  }

  /** The receipt of a returned figure names its metric, its period and the policy. */
  lemma {:induction false} FigureIsLabelled(gate: Gate, metric: Metric, chunks: seq<Chunk>)
    requires Direct(gate, metric, chunks).Ok?
    ensures var f := Direct(gate, metric, chunks).value;
            && f.metric == metric && f.workings == None
            && f.receipt.policyHash == gate.policy.hash && f.receipt.period == f.period
  {
    var cs := Elements(chunks);
    var f := Direct(gate, metric, chunks).value;
    var st, c := FigureHasVoice(gate, metric, chunks);
    var row := CandidateHasRow(gate, metric, st, cs, c, f);
    VoiceSource(gate, metric, st, cs, c, row, f);
  }

  lemma {:induction false} FixedOnce(gate: Gate, rule: Rule, cs: set<Chunk>, a: Setting, b: Setting)
    requires AllOwned(cs) && Fixes(gate, rule, cs, a) && Fixes(gate, rule, cs, b)
    ensures a == b
  {
    assert a.entity in {b.entity};
  }

  lemma {:induction false} SuccessIsClear(gate: Gate, metric: Metric, chunks: seq<Chunk>, st: Setting)
    requires Direct(gate, metric, chunks).Ok? && AllOwned(Elements(chunks)) && RuleOf(gate.policy, metric).Some?
    requires Opening(gate, RuleOf(gate.policy, metric).value, Elements(chunks)) == Ok(st)
    ensures AllClear(gate, metric, st, Elements(chunks))
  {
    var rule := RuleOf(gate.policy, metric).value;
    var setting, voice := FigureHasVoice(gate, metric, chunks);
    OpeningFixes(gate, rule, Elements(chunks));
    FixedOnce(gate, rule, Elements(chunks), setting, st);
  }

  /** All rows that decide agree: every current row of every source chunk in the deciding year that no row of a NIC
      table outranks was read, and its figure says what the figure returned says. */
  lemma {:induction false} DecidersAgree(gate: Gate, metric: Metric, chunks: seq<Chunk>, st: Setting, c: Chunk,
                                         row: Row)
    returns (f: Figure)
    requires Direct(gate, metric, chunks).Ok? && AllOwned(Elements(chunks)) && RuleOf(gate.policy, metric).Some?
    requires Opening(gate, RuleOf(gate.policy, metric).value, Elements(chunks)) == Ok(st)
    requires Heard(gate, st.rule, Elements(chunks), c) && row in RowsHeard(metric, st, c)
    requires Outranks(gate, metric, st, Elements(chunks), c)
    requires st.rule.requirePeriod ==> row.period == st.latest
    ensures f.receipt.source == Some(row.raw) && f.period == row.period
    ensures SaysRow(gate, metric, st.rule.kind, Document(Elements(chunks), Owner(c)), c, row, f)
    ensures KeyFor(f) == KeyFor(Direct(gate, metric, chunks).value)
    ensures SaysSame(metric, f, Direct(gate, metric, chunks).value)
  {
    var cs := Elements(chunks);
    FigureIsLabelled(gate, metric, chunks);
    SuccessIsClear(gate, metric, chunks, st);
    assert SourceClear(gate, metric, st, cs, Owner(c));
    f := RowIsCandidate(gate, metric, st, cs, c, row);
    VoiceSource(gate, metric, st, cs, c, row, f);
    VoiceSaysRow(gate, metric, st, cs, c, row, f);
    OpeningFixes(gate, RuleOf(gate.policy, metric).value, cs);
    VoiceIsHeard(gate, metric, cs, st, c, f);
    DirectReachesVerdict(gate, metric, chunks);
  }

  // ----- when a chunk has a context -----

  /** Everything that a chunk's rows need from around them is settled. */
  ghost predicate ContextSettled(metric: Metric, st: Setting, source: Profile, items: set<Chunk>, c: Chunk,
                                 conflict: bool, rows: seq<Row>) {
    && (st.rule.requireBasis ==> !conflict)
    && !source.ambiguous && source.entity == Some(st.entity)
    && (st.rule.requireBasis ==>
          exists p :: PeriodsOf(rows) == {p} &&
            exists b :: UniqueOnPage(c, items, b) || UniquelyDeclared(c, items, p, b))
    && (st.rule.kind == Percent ==> metric in c.percentShown)
    && (st.rule.kind == Money ==> exists u :: UnitsIn(OnPages(items, Pages(c))) == {u})
  }

  lemma {:induction false} SoleIsOnly<T>(s: set<T>)
    ensures Sole(s).Some? <==> exists x :: s == {x}
    ensures Sole(s).Some? ==> s == {Sole(s).value}
  {
    if x :| s == {x} {
      assert |s| == |{x}|;
    }
  }

  /** The rows of a chunk are read at all exactly when their context is settled: no incompatible page if a basis is
      required, the borrower's own document, one period with one basis on the page or declared for it, a percent sign
      for a percentage, one unit on the page for money. */
  lemma {:induction false} ContextIsSharedIff(gate: Gate, metric: Metric, st: Setting, source: Profile,
                                              items: set<Chunk>, c: Chunk, conflict: bool, rows: seq<Row>)
    requires InScope(c, items)
    ensures SharedOf(gate, metric, st, source, items, c, conflict, rows).Ok? <==>
            ContextSettled(metric, st, source, items, c, conflict, rows)
  {
    SoleIsOnly(PeriodsOf(rows));
    SoleIsOnly(UnitsIn(OnPages(items, Pages(c))));
    if Sole(PeriodsOf(rows)).Some? {
      var p := Sole(PeriodsOf(rows)).value;
      forall q | PeriodsOf(rows) == {q} ensures q == p {
        assert q in {p};
      }
      BasisFoundIff(c, items, p);
    }
  }

  /** What that context is: for a rule with a basis, the one on the chunk's pages or declared for the rows' period; for
      money, the one unit on those pages with its factor; otherwise no conversion. */
  lemma {:induction false} SharedIsContext(gate: Gate, metric: Metric, st: Setting, source: Profile, items: set<Chunk>,
                                           c: Chunk, conflict: bool, rows: seq<Row>, shared: Shared)
    requires InScope(c, items) && SharedOf(gate, metric, st, source, items, c, conflict, rows) == Ok(shared)
    ensures shared.basis.Some? <==> st.rule.requireBasis
    ensures st.rule.requireBasis ==>
              exists p :: PeriodsOf(rows) == {p} && var b := shared.basis.value.basis;
                UniqueOnPage(c, items, b) || UniquelyDeclared(c, items, p, b)
    ensures if st.rule.kind == Money then
              exists u :: && UnitsIn(OnPages(items, Pages(c))) == {u}
                          && shared.unit == In(u) && shared.factor == gate.policy.factors.Of(u)
            else shared.unit == Own(OwnUnit(st.rule.kind)) && shared.factor == ONE
  {
    if st.rule.requireBasis {
      var p := Sole(PeriodsOf(rows)).value;
      BasisIsUnambiguous(c, items, p, shared.basis.value.basis);
    }
  }

  lemma {:induction false} BasisFoundIff(c: Chunk, items: set<Chunk>, period: Option<nat>)
    requires InScope(c, items)
    ensures BasisOf(c, items, period).Ok? <==>
            exists b :: UniqueOnPage(c, items, b) || UniquelyDeclared(c, items, period, b)
  {
    if BasisOf(c, items, period).Ok? {
      BasisIsUnambiguous(c, items, period, BasisOf(c, items, period).value.basis);
    }
    if b :| UniqueOnPage(c, items, b) || UniquelyDeclared(c, items, period, b) {
      BasisIsUnambiguous(c, items, period, b);
    }
  }
}
