/** Direct selection of a borrower fact: filter the documents that may speak, anchor one entity, keep
    the latest reporting year, collect candidate rows and demand that all of them agree. */
module EvidenceGate {
  import opened Outcomes
  import opened Decimals
  import opened Corpus
  import opened Policies
  import opened BasisResolution
  import opened Classification

  // ----- document profiles -----

  datatype Profile = Profile(document: nat, types: set<DocType>, entity: Option<Identity>, ambiguous: bool)

  /** An explicit owner field outranks the title lines of first pages; a vendor's report does not
      become an audit or a registration by mentioning one. */
  function ProfileOf(d: nat, items: set<Chunk>): Profile {
    var explicit := set c, i | c in items && i in c.owners :: i;
    var titles := set c, i | c in items && 1 in Pages(c) && i in c.titles :: i;
    var identities := if explicit != {} then explicit else titles;
    var found := set c, t | c in items && t in c.types :: t;
    var types :=
      if FinancialInformationReport in found
      then found - {AuditedFinancials, Registration, Agreement, UtilityBill, NoDues} else found;
    Profile(d, types, Sole(identities), |identities| > 1)
  }

  function ProfileIn(cs: set<Chunk>, d: nat): Profile
    requires AllOwned(cs)
  {
    ProfileOf(d, Document(cs, d))
  }

  function Allowed(rule: Rule): set<DocType> {
    rule.sources + if AuditedFinancials in rule.sources then {FinancialInformationReport} else {}
  }

  predicate IsSource(gate: Gate, rule: Rule, p: Profile) {
    p.types * Allowed(rule) != {} &&
    (FinancialInformationReport in p.types ==> ApprovalOf(gate, p.document).Some?)
  }

  predicate IsRegistration(p: Profile) {
    Registration in p.types && Agreement !in p.types && p.entity.Some?
  }

  predicate IsAnchor(gate: Gate, p: Profile) {
    p.types * {Registration, Agreement, AuditedFinancials, Pan} != {} ||
    (FinancialInformationReport in p.types && ApprovalOf(gate, p.document).Some?)
  }

  function SourceDocs(gate: Gate, rule: Rule, cs: set<Chunk>): set<nat>
    requires AllOwned(cs)
  {
    set d | d in Documents(cs) && IsSource(gate, rule, ProfileIn(cs, d))
  }

  function AnchorDocs(gate: Gate, cs: set<Chunk>): set<nat>
    requires AllOwned(cs)
  {
    var registrations := set d | d in Documents(cs) && IsRegistration(ProfileIn(cs, d));
    if registrations != {} then registrations
    else set d | d in Documents(cs) && IsAnchor(gate, ProfileIn(cs, d))
  }

  function AnchoredEntities(gate: Gate, cs: set<Chunk>): set<Identity>
    requires AllOwned(cs)
  {
    set d | d in AnchorDocs(gate, cs) && ProfileIn(cs, d).entity.Some? :: ProfileIn(cs, d).entity.value
  }

  function SourceYears(gate: Gate, rule: Rule, cs: set<Chunk>): set<nat>
    requires AllOwned(cs)
  {
    YearsIn(set c | c in cs && Owner(c) in SourceDocs(gate, rule, cs))
  }

  /** What the row scan depends on: the rule, the borrower and, for a dated rule, the latest year. */
  datatype Setting = Setting(rule: Rule, entity: Identity, latest: Option<nat>)

  /** Everything that is decided before the first row is read. */
  function Opening(gate: Gate, rule: Rule, cs: set<Chunk>): (r: Result<Setting>)
    requires AllOwned(cs)
    ensures r.Err? ==> r.code != MetricMissing && r.code != ScopeViolation
  {
    var sources := SourceDocs(gate, rule, cs);
    if sources == {} && (exists d :: d in Documents(cs) && FinancialInformationReport in ProfileIn(cs, d).types) then
      Err(DocumentTypeMissing)
    else if exists d :: d in AnchorDocs(gate, cs) && ProfileIn(cs, d).ambiguous then
      Err(EntityAmbiguous)
    else
      var entity := Sole(AnchoredEntities(gate, cs));
      if entity.None? then Err(EntityAmbiguous)
      else if sources == {} then Err(DocumentTypeMissing)
      else if !rule.requirePeriod then Ok(Setting(rule, entity.value, None))
      else if SourceYears(gate, rule, cs) == {} then Err(PeriodAmbiguous)
      else Ok(Setting(rule, entity.value, Some(MaxOf(SourceYears(gate, rule, cs)))))
  }

  // ----- one chunk -----

  function CodeOf(fault: RowFault): Code {
    match fault
    case PeriodUnclear => PeriodAmbiguous
    case ValueUnclear => ValueAmbiguous
    case ValuesConflict => ConflictingValues
  }

  /** The row scanner: headings that spell the expected entity come first, without a period. */
  function RowsOf(c: Chunk, metric: Metric, rule: Rule, entity: Identity): (r: Result<seq<Row>>)
    ensures r.Err? ==> r.code != MetricMissing && r.code != ScopeViolation
  {
    if metric !in c.scans then Ok([])
    else
      var scan := c.scans[metric];
      if rule.headingPattern && entity in scan.headings && scan.headings[entity] != [] then
        var names := scan.headings[entity];
        Ok(seq(|names|, i requires 0 <= i < |names| => Row(names[i], None)))
      else
        match scan.lines
        case Rows(rows) => Ok(rows)
        case Refused(fault) => Err(CodeOf(fault))
  }

  predicate IsCurrent(row: Row, latest: Option<nat>) {
    latest.Some? && row.period.Some? ==> latest.value <= row.period.value
  }

  /** The rows that are not older than the latest source year; undated rows stay. */
  function Current(rows: seq<Row>, latest: Option<nat>): seq<Row> {
    if rows == [] then []
    else
      var before := Current(rows[..|rows| - 1], latest);
      if IsCurrent(rows[|rows| - 1], latest) then before + [rows[|rows| - 1]] else before
  }

  predicate HasOlder(rows: seq<Row>, latest: Option<nat>) {
    exists r :: r in rows && !IsCurrent(r, latest)
  }

  const INCOMPATIBLE: set<DocType> :=
    {Pan, Aadhaar, Gst, Udyam, Incorporation, Agreement, BankStatement, UtilityBill, NoDues}

  function OwnUnit(kind: Kind): FigureUnit
    requires kind != Money
  {
    match kind
    case Ratio => Times
    case Percent => PercentSign
    case Count => Each
    case Text => PlainText
    case Date => CalendarDate
  }

  function UnitsIn(cs: set<Chunk>): set<MoneyUnit> {
    set c, u | c in cs && u in c.units :: u
  }

  /** The first of some types in a list that holds them all. */
  function FirstIn(list: seq<DocType>, types: set<DocType>): (t: DocType)
    requires exists u :: u in list && u in types
    ensures t in types
  {
    if list[0] in types then list[0]
    else
      assert forall u :: u in list <==> u == list[0] || u in list[1..];
      FirstIn(list[1..], types)
  }

  /** sorted(types)[0]. */
  function LeastType(types: set<DocType>): (t: DocType)
    requires types != {}
    ensures t in types
  {
    var u :| u in types;
    EveryTypeIsListed(u);
    FirstIn(ALPHABETICAL, types)
  }

  /** A converted value with the unit it is returned in and the unit it was written in. */
  datatype Reading = Reading(value: Value, unit: FigureUnit, sourceUnit: SourceUnit)

  /** The conversion of one raw value. */
  function Read(metric: Metric, st: Setting, unit: SourceUnit, factor: Numeral, raw: Raw): (r: Result<Reading>)
    ensures r.Err? ==> r.code != MetricMissing && r.code != ScopeViolation
  {
    var kind := st.rule.kind;
    var value: Result<Value> :=
      if kind == Date then
        if raw.date.None? then Err(ValueAmbiguous) else Ok(Day(raw.date.value))
      else if kind == Text then
        if raw.text == "" || |raw.text| > 300 then Err(ValueAmbiguous) else Ok(Words(raw.text))
      else if raw.number.None? then Err(ValueAmbiguous)
      else if kind == Count && (raw.number.value.IsNegative() ||
                                !raw.number.value.IsIntegral()) then Err(ValueAmbiguous)
      else Ok(Amount(raw.number.value.Times(factor)));
    if value.Err? then Err(value.code)
    else if metric == BorrowerName && raw.name != st.entity then Err(EntityAmbiguous)
    else if metric == Region then
      if Sole(raw.regions).None? then Err(RegionAmbiguous)
      else Ok(Reading(Words(Sole(raw.regions).value), if kind == Money then InrCrore else Address, Own(Address)))
    else
      Ok(Reading(value.value, if kind == Money then InrCrore else OwnUnit(kind), unit))
  }

  /** A chunk's citation: the table's own box for a table, and only if there is exactly one. */
  function CitationOf(c: Chunk): (r: Result<Provenance>)
    ensures r.Err? ==> r.code == CitationAmbiguous
  {
    var provenance := if c.table && c.tableProvenance != [] then c.tableProvenance else c.provenance;
    if (exists p :: p in provenance && p !in c.provenance) || |provenance| != 1 then Err(CitationAmbiguous)
    else Ok(provenance[0])
  }

  /** What a chunk's rows share: the basis, the unit they are written in and its factor. */
  datatype Shared = Shared(basis: Option<BasisFinding>, unit: SourceUnit, factor: Numeral)

  function PeriodsOf(rows: seq<Row>): set<Option<nat>> {
    set r | r in rows :: r.period
  }

  function SharedOf(gate: Gate, metric: Metric, st: Setting, source: Profile, items: set<Chunk>, c: Chunk,
                    conflict: bool, rows: seq<Row>): (r: Result<Shared>)
    ensures r.Err? ==> r.code != MetricMissing
    ensures r.Err? && InScope(c, items) ==> r.code != ScopeViolation
  {
    if st.rule.requireBasis && conflict then Err(DocumentAmbiguous)
    else if source.ambiguous || source.entity != Some(st.entity) then Err(EntityAmbiguous)
    else
      var basis: Result<Option<BasisFinding>> :=
        if !st.rule.requireBasis then Ok(None)
        else
          var period := Sole(PeriodsOf(rows));
          if period.None? then Err(PeriodAmbiguous)
          else
            var found := BasisOf(c, items, period.value);
            if found.Err? then Err(found.code) else Ok(Some(found.value));
      if basis.Err? then Err(basis.code)
      else if st.rule.kind == Percent && metric !in c.percentShown then Err(UnitAmbiguous)
      else if st.rule.kind == Money then
        var unit := Sole(UnitsIn(OnPages(items, Pages(c))));
        if unit.None? then Err(UnitAmbiguous)
        else Ok(Shared(basis.value, In(unit.value), gate.policy.factors.Of(unit.value)))
      else Ok(Shared(basis.value, Own(OwnUnit(st.rule.kind)), ONE))
  }

  function FigureOf(gate: Gate, metric: Metric, st: Setting, source: Profile, c: Chunk, shared: Shared,
                    row: Row): (r: Result<Figure>)
    requires source.types * Allowed(st.rule) != {}
    ensures r.Err? ==> r.code != MetricMissing && r.code != ScopeViolation
  {
    var reading := Read(metric, st, shared.unit, shared.factor, row.raw);
    if reading.Err? then Err(reading.code)
    else
      var citation := CitationOf(c);
      if citation.Err? then Err(citation.code)
      else
        var receipt := Receipt(
          gate.policy.hash, metric, LeastType(source.types * Allowed(st.rule)), st.entity, c.id,
          Some(row.raw), reading.value.sourceUnit, shared.factor, row.period,
          if shared.basis.Some? then Some(shared.basis.value.basis) else None,
          if shared.basis.Some? then Some(shared.basis.value.resolution) else None,
          if shared.basis.Some? then shared.basis.value.context else {},
          ApprovalOf(gate, source.document), st.rule.nicLevel && c.nicTable);
        Ok(Figure(metric, reading.value.value, reading.value.unit, row.period, citation.value, receipt, None))
  }

  /** What a scan has gathered: candidate figures, and whether an older row was passed over. */
  datatype Finding = Finding(candidates: seq<Figure>, older: bool)

  const NOTHING := Finding([], false)

  /** The findings of a loop's turns put together; the first refusal ends the loop. */
  function Gather(parts: seq<Result<Finding>>): (r: Result<Finding>)
  {
    if parts == [] then Ok(NOTHING)
    else
      var before :- Gather(parts[..|parts| - 1]);
      var last :- parts[|parts| - 1];
      Ok(Finding(before.candidates + last.candidates, before.older || last.older))
  }

  lemma {:induction false} GatherEnds(parts: seq<Result<Finding>>, n: nat)
    requires n <= |parts| && Gather(parts[..n]).Err?
    ensures Gather(parts) == Gather(parts[..n])
  {
    if n == |parts| {
      assert parts[..n] == parts;
    } else {
      var shorter := parts[..|parts| - 1];
      assert shorter[..n] == parts[..n];
      GatherEnds(shorter, n);
    }
  }

  lemma {:induction false} GatherStep(parts: seq<Result<Finding>>, i: nat, before: Finding)
    requires i < |parts| && Gather(parts[..i]) == Ok(before)
    ensures parts[i].Err? ==> Gather(parts) == parts[i]
    ensures parts[i].Ok? ==>
              Gather(parts[..i + 1]) ==
                Ok(Finding(before.candidates + parts[i].value.candidates, before.older || parts[i].value.older))
  {
    assert parts[..i + 1][..i] == parts[..i];
    if parts[i].Err? {
      GatherEnds(parts, i + 1);
    }
  }

  lemma {:induction false} Gathered(parts: seq<Result<Finding>>)
    ensures Gather(parts).Ok? <==> forall i | 0 <= i < |parts| :: parts[i].Ok?
    ensures Gather(parts).Err? ==> exists i :: 0 <= i < |parts| && parts[i] == Gather(parts)
    ensures Gather(parts).Ok? ==>
              && (forall f :: f in Gather(parts).value.candidates <==>
                    exists i :: 0 <= i < |parts| && f in parts[i].value.candidates)
              && (Gather(parts).value.older <==> exists i :: 0 <= i < |parts| && parts[i].value.older)
  {
    if parts != [] {
      var n := |parts| - 1;
      Gathered(parts[..n]);
      assert forall i | 0 <= i < n :: parts[..n][i] == parts[i];
    }
  }

  function RowPart(gate: Gate, metric: Metric, st: Setting, source: Profile, c: Chunk, shared: Shared,
                   row: Row): Result<Finding>
    requires source.types * Allowed(st.rule) != {}
  {
    var figure :- FigureOf(gate, metric, st, source, c, shared, row);
    Ok(Finding([figure], false))
  }

  function RowParts(gate: Gate, metric: Metric, st: Setting, source: Profile, c: Chunk, shared: Shared,
                    rows: seq<Row>): seq<Result<Finding>>
    requires source.types * Allowed(st.rule) != {}
  {
    seq(|rows|, i requires 0 <= i < |rows| => RowPart(gate, metric, st, source, c, shared, rows[i]))
  }

  /** One chunk of a source document. */
  function Examine(gate: Gate, metric: Metric, st: Setting, source: Profile, items: set<Chunk>, c: Chunk,
                   conflict: bool): Result<Finding>
    requires source.types * Allowed(st.rule) != {}
  {
    var all :- RowsOf(c, metric, st.rule, st.entity);
    var older := HasOlder(all, st.latest);
    var rows := Current(all, st.latest);
    if rows == [] then Ok(Finding([], older))
    else
      var shared :- SharedOf(gate, metric, st, source, items, c, conflict, rows);
      var found :- Gather(RowParts(gate, metric, st, source, c, shared, rows));
      Ok(Finding(found.candidates, older))
  }

  /** Nothing that happens inside a chunk reads as a missing metric or as a breach of scope. */
  lemma {:induction false} ExamineRefusals(gate: Gate, metric: Metric, st: Setting, source: Profile, items: set<Chunk>,
                                           c: Chunk, conflict: bool)
    requires source.types * Allowed(st.rule) != {} && InScope(c, items)
    ensures var r := Examine(gate, metric, st, source, items, c, conflict);
            r.Err? ==> r.code != MetricMissing && r.code != ScopeViolation
  {
    var all := RowsOf(c, metric, st.rule, st.entity);
    if all.Ok? && Current(all.value, st.latest) != [] {
      var rows := Current(all.value, st.latest);
      var shared := SharedOf(gate, metric, st, source, items, c, conflict, rows);
      if shared.Ok? {
        Gathered(RowParts(gate, metric, st, source, c, shared.value, rows));
      }
    }
  }

  // ----- all chunks of all sources -----

  predicate MixedAudit(p: Profile) {
    AuditedFinancials in p.types && p.types * {UtilityBill, NoDues} != {}
  }

  function ChunkParts(gate: Gate, metric: Metric, st: Setting, sections: seq<Section>, source: Profile,
                      items: set<Chunk>, chunks: seq<Chunk>): seq<Result<Finding>>
    requires source.types * Allowed(st.rule) != {}
  {
    seq(|chunks|, i requires 0 <= i < |chunks| =>
      Examine(gate, metric, st, source, items, chunks[i],
              Touches(sections, source.document, Pages(chunks[i]), INCOMPATIBLE)))
  }

  /** One document of the outer loop. */
  function SourcePart(gate: Gate, metric: Metric, st: Setting, sections: seq<Section>, d: nat,
                      sourceChunks: seq<Chunk>): Result<Finding> {
    var source := ProfileOf(d, Elements(sourceChunks));
    if !IsSource(gate, st.rule, source) then Ok(NOTHING)
    else if MixedAudit(source) then Err(DocumentAmbiguous)
    else Gather(ChunkParts(gate, metric, st, sections, source, Elements(sourceChunks), sourceChunks))
  }

  function SourceParts(gate: Gate, metric: Metric, st: Setting, sections: seq<Section>, chunks: seq<Chunk>,
                       order: seq<nat>): seq<Result<Finding>>
    requires forall c | c in chunks :: SingleOwner(c)
  {
    seq(|order|, i requires 0 <= i < |order| =>
        SourcePart(gate, metric, st, sections, order[i], Items(chunks, order[i])))
  }

  // ----- agreement -----

  /** What candidates must agree on: the value (for the borrower's name, the identity it spells), the
      unit, the period and the basis. */
  datatype Agreed = Stated(value: Value) | Spelled(name: Option<Identity>)

  datatype Key = Key(agreed: Agreed, unit: FigureUnit, period: Option<nat>, basis: Option<Basis>)

  function KeyFor(f: Figure): Key {
    Key(if f.metric == BorrowerName
        then Spelled(if f.receipt.source.Some? then Some(f.receipt.source.value.name) else None)
        else Stated(f.value),
        f.unit, f.period, f.receipt.basis)
  }

  function Keys(fs: set<Figure>): set<Key> {
    set f | f in fs :: KeyFor(f)
  }

  /** Specific NIC descriptions outrank the generic ones. */
  function Preferred(fs: set<Figure>): set<Figure> {
    var nic := set f | f in fs && f.receipt.nicMapped;
    if nic != {} then nic else fs
  }

  function DatedYears(fs: set<Figure>): set<nat> {
    set f | f in fs && f.period.Some? :: f.period.value
  }

  function InYear(fs: set<Figure>, year: nat): set<Figure> {
    set f | f in fs && f.period == Some(year)
  }

  /** The candidates that decide, or the reason that none can. */
  function Deciding(rule: Rule, latest: Option<nat>, fs: set<Figure>, older: bool): Result<set<Figure>> {
    if fs == {} then Err(if older then LatestPeriodMissing else MetricMissing)
    else
      var preferred := Preferred(fs);
      if !rule.requirePeriod then Ok(preferred)
      else if DatedYears(preferred) == {} then Err(InvalidYear)
      else
        var newest := MaxOf(DatedYears(preferred));
        if latest.Some? && newest != latest.value then Err(LatestPeriodMissing)
        else Ok(InYear(preferred, newest))
  }

  predicate Earlier(a: Figure, b: Figure) {
    a.citation.document < b.citation.document ||
    (a.citation.document == b.citation.document && a.citation.page < b.citation.page)
  }

  /** The first of the figures in a set, by document and page; ties go to the one listed first. */
  function First(fs: seq<Figure>, among: set<Figure>): (r: Option<Figure>)
    ensures r.Some? ==> r.value in fs && r.value in among
    ensures r.None? <==> forall f | f in fs :: f !in among
    ensures r.Some? ==> forall f | f in fs && f in among :: !Earlier(f, r.value)
  {
    if fs == [] then None
    else
      var n := |fs| - 1;
      var before := First(fs[..n], among);
      assert forall f :: f in fs <==> f == fs[n] || f in fs[..n];
      if fs[n] in among && (before.None? || Earlier(fs[n], before.value)) then Some(fs[n]) else before
  }

  function Conclude(rule: Rule, latest: Option<nat>, finding: Finding): Result<Figure> {
    var deciding :- Deciding(rule, latest, Elements(finding.candidates), finding.older);
    var first := First(finding.candidates, deciding);
    if Sole(Keys(deciding)).None? || first.None? then Err(ConflictingValues)
    else Ok(first.value)
  }

  /** The direct reading of one metric. */
  function Direct(gate: Gate, metric: Metric, chunks: seq<Chunk>): Result<Figure> {
    var rule := RuleOf(gate.policy, metric);
    if rule.None? then Err(MetricNotAllowed)
    else if exists c :: c in chunks && !SingleOwner(c) then Err(DocumentAmbiguous)
    else
      var st :- Opening(gate, rule.value, Elements(chunks));
      var sections := Sections(gate.policy.sectionPatterns, chunks);
      var finding :- Gather(SourceParts(gate, metric, st, sections, chunks, Order(chunks)));
      Conclude(rule.value, st.latest, finding)
  }

  // ----- the gate's loops -----

  /** The context that a chunk's rows share, refused in the order in which the gate looks. */
  method ShareContext(gate: Gate, metric: Metric, st: Setting, source: Profile, sourceChunks: seq<Chunk>, c: Chunk,
                      conflict: bool, rows: seq<Row>) returns (r: Result<Shared>)
    ensures r == SharedOf(gate, metric, st, source, Elements(sourceChunks), c, conflict, rows)
  {
    if st.rule.requireBasis && conflict {
      return Err(DocumentAmbiguous);
    }
    if source.ambiguous || source.entity != Some(st.entity) {
      return Err(EntityAmbiguous);
    }
    var basis: Option<BasisFinding> := None;
    if st.rule.requireBasis {
      var period := Sole(PeriodsOf(rows));
      if period.None? {
        return Err(PeriodAmbiguous);
      }
      var found := ResolveBasis(c, sourceChunks, period.value);
      if found.Err? {
        return Err(found.code);
      }
      basis := Some(found.value);
    }
    if st.rule.kind == Percent && metric !in c.percentShown {
      return Err(UnitAmbiguous);
    }
    if st.rule.kind == Money {
      var unit := Sole(UnitsIn(OnPages(Elements(sourceChunks), Pages(c))));
      if unit.None? {
        return Err(UnitAmbiguous);
      }
      return Ok(Shared(basis, In(unit.value), gate.policy.factors.Of(unit.value)));
    }
    return Ok(Shared(basis, Own(OwnUnit(st.rule.kind)), ONE));
  }

  /** The loop over a chunk's rows. */
  method ReadRows(gate: Gate, metric: Metric, st: Setting, source: Profile, c: Chunk, shared: Shared, rows: seq<Row>)
    returns (r: Result<Finding>)
    requires source.types * Allowed(st.rule) != {}
    ensures r == Gather(RowParts(gate, metric, st, source, c, shared, rows))
  {
    ghost var parts := RowParts(gate, metric, st, source, c, shared, rows);
    var figures: seq<Figure> := [];
    for i := 0 to |rows|
      invariant Gather(parts[..i]) == Ok(Finding(figures, false))
    {
      GatherStep(parts, i, Finding(figures, false));
      var figure := FigureOf(gate, metric, st, source, c, shared, rows[i]);
      if figure.Err? {
        return Err(figure.code);
      }
      figures := figures + [figure.value];
    }
    assert parts[..|rows|] == parts;
    return Ok(Finding(figures, false));
  }

  /** One chunk of the inner loop. */
  method ExamineChunk(gate: Gate, metric: Metric, st: Setting, source: Profile, sourceChunks: seq<Chunk>, c: Chunk,
                      conflict: bool) returns (r: Result<Finding>)
    requires source.types * Allowed(st.rule) != {}
    ensures r == Examine(gate, metric, st, source, Elements(sourceChunks), c, conflict)
  {
    var all :- RowsOf(c, metric, st.rule, st.entity);
    var older := HasOlder(all, st.latest);
    var rows := Current(all, st.latest);
    if rows == [] {
      return Ok(Finding([], older));
    }
    var shared :- ShareContext(gate, metric, st, source, sourceChunks, c, conflict, rows);
    var found :- ReadRows(gate, metric, st, source, c, shared, rows);
    return Ok(Finding(found.candidates, older));
  }

  /** The documents dictionary, filled chunk by chunk. */
  method GroupDocuments(chunks: seq<Chunk>) returns (r: Result<(map<nat, seq<Chunk>>, seq<nat>)>)
    ensures r.Err? <==> exists c :: c in chunks && !SingleOwner(c)
    ensures r.Err? ==> r.code == DocumentAmbiguous
    ensures r.Ok? ==> r.value.1 == Order(chunks)
    ensures r.Ok? ==> forall d | d in r.value.1 :: d in r.value.0 && r.value.0[d] == Items(chunks, d)
  {
    var documents: map<nat, seq<Chunk>> := map[];
    var order: seq<nat> := [];
    for i := 0 to |chunks|
      invariant forall c | c in chunks[..i] :: SingleOwner(c)
      invariant order == Order(chunks[..i])
      invariant forall d :: d in documents <==> d in order
      invariant forall d | d in documents :: documents[d] == Items(chunks[..i], d)
    {
      if !SingleOwner(chunks[i]) {
        assert chunks[i] in chunks;
        return Err(DocumentAmbiguous);
      }
      var d := Owner(chunks[i]);
      GroupingStep(chunks, i);
      if d !in documents {
        NoItemsYet(chunks[..i], d);
        order := order + [d];
        documents := documents[d := []];
      }
      documents := documents[d := documents[d] + [chunks[i]]];
    }
    assert chunks[..|chunks|] == chunks;
    return Ok((documents, order));
  }

  lemma {:induction false} GroupingStep(chunks: seq<Chunk>, i: nat)
    requires i < |chunks| && SingleOwner(chunks[i]) && forall c | c in chunks[..i] :: SingleOwner(c)
    ensures forall c | c in chunks[..i + 1] :: SingleOwner(c)
    ensures Order(chunks[..i + 1]) ==
              (if Owner(chunks[i]) in Order(chunks[..i]) then Order(chunks[..i])
               else Order(chunks[..i]) + [Owner(chunks[i])])
    ensures forall d :: Items(chunks[..i + 1], d) ==
              (if d == Owner(chunks[i]) then Items(chunks[..i], d) + [chunks[i]] else Items(chunks[..i], d))
  {
    assert chunks[..i + 1][..i] == chunks[..i];
    assert forall c :: c in chunks[..i + 1] <==> c in chunks[..i] || c == chunks[i];
  }

  lemma {:induction false} NoItemsYet(chunks: seq<Chunk>, d: nat)
    requires forall c | c in chunks :: SingleOwner(c)
    requires d !in Order(chunks)
    ensures Items(chunks, d) == []
  {
    if Items(chunks, d) != [] {
      ItemsAreOwned(chunks, d, Items(chunks, d)[0]);
      OrderListsOwners(chunks, d);
    }
  }

  /** The inner loop over a source's chunks. */
  method ScanSource(gate: Gate, metric: Metric, st: Setting, sections: seq<Section>, source: Profile,
                    sourceChunks: seq<Chunk>) returns (r: Result<Finding>)
    requires source.types * Allowed(st.rule) != {}
    ensures r == Gather(ChunkParts(gate, metric, st, sections, source, Elements(sourceChunks), sourceChunks))
  {
    ghost var parts := ChunkParts(gate, metric, st, sections, source, Elements(sourceChunks), sourceChunks);
    var candidates: seq<Figure> := [];
    var older := false;
    for i := 0 to |sourceChunks|
      invariant Gather(parts[..i]) == Ok(Finding(candidates, older))
    {
      GatherStep(parts, i, Finding(candidates, older));
      var c := sourceChunks[i];
      var found := ExamineChunk(gate, metric, st, source, sourceChunks, c,
                                Touches(sections, source.document, Pages(c), INCOMPATIBLE));
      if found.Err? {
        return Err(found.code);
      }
      candidates := candidates + found.value.candidates;
      older := older || found.value.older;
    }
    assert parts[..|sourceChunks|] == parts;
    return Ok(Finding(candidates, older));
  }

  /** The outer loop over the documents: skip those that may not speak, refuse a mixed audit. */
  method ScanSources(gate: Gate, metric: Metric, st: Setting, sections: seq<Section>, ghost chunks: seq<Chunk>,
                     documents: map<nat, seq<Chunk>>, order: seq<nat>) returns (r: Result<Finding>)
    requires forall c | c in chunks :: SingleOwner(c)
    requires forall d | d in order :: d in documents && documents[d] == Items(chunks, d)
    ensures r == Gather(SourceParts(gate, metric, st, sections, chunks, order))
  {
    ghost var parts := SourceParts(gate, metric, st, sections, chunks, order);
    var candidates: seq<Figure> := [];
    var older := false;
    for i := 0 to |order|
      invariant Gather(parts[..i]) == Ok(Finding(candidates, older))
    {
      GatherStep(parts, i, Finding(candidates, older));
      assert order[i] in order;
      var sourceChunks := documents[order[i]];
      var source := ProfileOf(order[i], Elements(sourceChunks));
      if !IsSource(gate, st.rule, source) {
        assert candidates + NOTHING.candidates == candidates;
        continue;
      }
      if MixedAudit(source) {
        return Err(DocumentAmbiguous);
      }
      var found := ScanSource(gate, metric, st, sections, source, sourceChunks);
      if found.Err? {
        return Err(found.code);
      }
      candidates := candidates + found.value.candidates;
      older := older || found.value.older;
    }
    assert parts[..|order|] == parts;
    return Ok(Finding(candidates, older));
  }

  /** _direct. */
  method SelectDirect(gate: Gate, metric: Metric, chunks: seq<Chunk>) returns (r: Result<Figure>)
    ensures r == Direct(gate, metric, chunks)
  {
    var rule := RuleOf(gate.policy, metric);
    if rule.None? {
      return Err(MetricNotAllowed);
    }
    var grouped :- GroupDocuments(chunks);
    var st :- Opening(gate, rule.value, Elements(chunks));
    var classified := ClassifySections(gate.policy.sectionPatterns, chunks);
    var finding :- ScanSources(gate, metric, st, classified.value, chunks, grouped.0, grouped.1);
    r := Conclude(rule.value, st.latest, finding);
  }
}
