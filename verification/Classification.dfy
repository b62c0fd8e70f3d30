/** Content-based section classification: per-page type hits, run-length encoded per document. */
module Classification {
  import opened Outcomes
  import opened Corpus

  datatype PageKey = PageKey(document: nat, page: nat)

  datatype Status = Confirmed | Ambiguous | Unidentified

  datatype Section = Section(document: nat, start: nat, end: nat, types: set<DocType>,
                             status: Status, citations: seq<Provenance>)

  /** One page as the classification sees it. */
  datatype PageEntry = PageEntry(key: PageKey, types: set<DocType>, status: Status)

  // ----- pages and their order -----

  predicate Before(a: PageKey, b: PageKey) {
    a.document < b.document || (a.document == b.document && a.page < b.page)
  }

  ghost predicate Ascending(keys: seq<PageKey>) {
    forall i, j | 0 <= i < j < |keys| :: Before(keys[i], keys[j])
  }

  function InsertPage(keys: seq<PageKey>, k: PageKey): (r: seq<PageKey>)
    requires Ascending(keys)
    ensures Ascending(r)
    ensures forall e :: e in r <==> e == k || e in keys
  {
    if keys == [] || Before(k, keys[0]) then
      assert forall e :: e in [k] + keys <==> e == k || e in keys;
      [k] + keys
    else if k == keys[0] then
      keys
    else
      var rest := InsertPage(keys[1..], k);
      assert forall e :: e in [keys[0]] + rest <==> e == keys[0] || e in rest;
      assert forall e :: e in keys <==> e == keys[0] || e in keys[1..];
      assert forall i | 0 <= i < |rest| :: rest[i] in rest;
      [keys[0]] + rest
  }

  /** sorted() on the keys of a dictionary, which never repeat. */
  function SortPages(keys: seq<PageKey>): (r: seq<PageKey>)
    ensures Ascending(r)
    ensures forall e :: e in r <==> e in keys
  {
    if keys == [] then []
    else
      var n := |keys| - 1;
      var rest := SortPages(keys[..n]);
      assert forall e :: e in keys <==> e == keys[n] || e in keys[..n];
      InsertPage(rest, keys[n])
  }

  function KeyOf(p: Provenance): PageKey {
    PageKey(p.document, p.page)
  }

  predicate OnPage(c: Chunk, k: PageKey) {
    exists p :: p in c.provenance && KeyOf(p) == k
  }

  /** The page keys of some provenance entries added to a list of keys, first appearances only. */
  function AddKeys(keys: seq<PageKey>, provenance: seq<Provenance>): (r: seq<PageKey>)
  {
    if provenance == [] then keys
    else
      var n := |provenance| - 1;
      var before := AddKeys(keys, provenance[..n]);
      var k := KeyOf(provenance[n]);
      if k in before then before else before + [k]
  }

  function PageKeys(chunks: seq<Chunk>): (r: seq<PageKey>)
  {
    if chunks == [] then []
    else AddKeys(PageKeys(chunks[..|chunks| - 1]), chunks[|chunks| - 1].provenance)
  }

  lemma {:induction false} AddedKeys(keys: seq<PageKey>, provenance: seq<Provenance>, k: PageKey)
    ensures k in AddKeys(keys, provenance) <==> k in keys || exists p :: p in provenance && KeyOf(p) == k
  {
    if provenance != [] {
      var n := |provenance| - 1;
      AddedKeys(keys, provenance[..n], k);
      assert forall p :: p in provenance <==> p == provenance[n] || p in provenance[..n];
    }
  }

  lemma {:induction false} PageKeysAreOccupied(chunks: seq<Chunk>, k: PageKey)
    ensures k in PageKeys(chunks) <==> exists c :: c in chunks && OnPage(c, k)
  {
    if chunks != [] {
      var n := |chunks| - 1;
      PageKeysAreOccupied(chunks[..n], k);
      AddedKeys(PageKeys(chunks[..n]), chunks[n].provenance, k);
      assert k in PageKeys(chunks) <==> k in PageKeys(chunks[..n]) || OnPage(chunks[n], k);
      assert forall c :: c in chunks <==> c == chunks[n] || c in chunks[..n];
    }
  }

  /** A chunk is listed on a page once for each of its provenance entries there. */
  function Repeats(c: Chunk, provenance: seq<Provenance>, k: PageKey): (r: seq<Chunk>)
  {
    if provenance == [] then []
    else
      var n := |provenance| - 1;
      var before := Repeats(c, provenance[..n], k);
      if KeyOf(provenance[n]) == k then before + [c] else before
  }

  function PageItems(chunks: seq<Chunk>, k: PageKey): (r: seq<Chunk>)
  {
    if chunks == [] then []
    else
      var n := |chunks| - 1;
      PageItems(chunks[..n], k) + Repeats(chunks[n], chunks[n].provenance, k)
  }

  lemma {:induction false} RepeatsList(c: Chunk, provenance: seq<Provenance>, k: PageKey)
    ensures Repeats(c, provenance, k) == [] <==> forall p | p in provenance :: KeyOf(p) != k
    ensures forall e | e in Repeats(c, provenance, k) :: e == c
  {
    if provenance != [] {
      var n := |provenance| - 1;
      RepeatsList(c, provenance[..n], k);
      assert forall p :: p in provenance <==> p == provenance[n] || p in provenance[..n];
    }
  }

  lemma {:induction false} ItemsOnPage(chunks: seq<Chunk>, k: PageKey, c: Chunk)
    ensures c in PageItems(chunks, k) <==> c in chunks && OnPage(c, k)
  {
    if chunks != [] {
      var n := |chunks| - 1;
      ItemsOnPage(chunks[..n], k, c);
      var repeats := Repeats(chunks[n], chunks[n].provenance, k);
      RepeatsList(chunks[n], chunks[n].provenance, k);
      assert repeats != [] ==> repeats[0] in repeats;
      assert c in chunks <==> c == chunks[n] || c in chunks[..n];
    }
  }

  // ----- one page -----

  /** A vendor's report is not an audit, and an audited heading contains the generic one. */
  function Specific(found: set<DocType>): set<DocType> {
    var s := if FinancialInformationReport in found then found - {AuditedFinancials} else found;
    if AuditedFinancials in s then s - {FinancialStatement} else s
  }

  /** The pattern names that some item matches, after Specific, in the policy's pattern order. */
  function Found(items: seq<Chunk>): set<DocType> {
    set c, t | c in items && t in c.sectionTypes :: t
  }

  function Named(patterns: seq<DocType>, items: seq<Chunk>): set<DocType> {
    Specific(set t | t in patterns && t in Found(items))
  }

  function PageStatus(hits: set<DocType>): Status {
    if |hits| == 1 then Confirmed else if hits != {} then Ambiguous else Unidentified
  }

  function PageTypes(hits: set<DocType>): set<DocType> {
    if hits == {} then {Unknown} else hits
  }

  function AddOnPage(acc: seq<Provenance>, provenance: seq<Provenance>, k: PageKey): seq<Provenance> {
    if provenance == [] then acc
    else
      var n := |provenance| - 1;
      var before := AddOnPage(acc, provenance[..n], k);
      var p := provenance[n];
      if KeyOf(p) == k && p !in before then before + [p] else before
  }

  function AddItems(acc: seq<Provenance>, t: DocType, items: seq<Chunk>, k: PageKey): seq<Provenance> {
    if items == [] then acc
    else
      var n := |items| - 1;
      var before := AddItems(acc, t, items[..n], k);
      if t in items[n].sectionTypes then AddOnPage(before, items[n].provenance, k) else before
  }

  /** Each citation once, in the order of the patterns, then of the items, then of their provenance. */
  function PageCitations(patterns: seq<DocType>, hits: set<DocType>, items: seq<Chunk>, k: PageKey): seq<Provenance> {
    if patterns == [] then []
    else
      var n := |patterns| - 1;
      var before := PageCitations(patterns[..n], hits, items, k);
      if patterns[n] in hits then AddItems(before, patterns[n], items, k) else before
  }

  function PageSection(patterns: seq<DocType>, items: seq<Chunk>, k: PageKey): Section {
    var hits := Named(patterns, items);
    Section(k.document, k.page, k.page, PageTypes(hits), PageStatus(hits),
            PageCitations(patterns, hits, items, k))
  }

  // ----- runs -----

  predicate Joinable(a: Section, b: Section) {
    a.document == b.document && a.end + 1 == b.start && a.types == b.types && a.status == b.status
  }

  /** Push a page's section, or pop the last one and push its extension. */
  function Push(sections: seq<Section>, s: Section): seq<Section> {
    var n := |sections|;
    if n > 0 && Joinable(sections[n - 1], s) then
      var prior := sections[n - 1];
      sections[..n - 1] + [prior.(end := s.end, citations := prior.citations + s.citations)]
    else
      sections + [s]
  }

  function Runs(pages: seq<Section>): seq<Section> {
    if pages == [] then []
    else Push(Runs(pages[..|pages| - 1]), pages[|pages| - 1])
  }

  function PageSections(patterns: seq<DocType>, chunks: seq<Chunk>, keys: seq<PageKey>): seq<Section> {
    seq(|keys|, i requires 0 <= i < |keys| => PageSection(patterns, PageItems(chunks, keys[i]), keys[i]))
  }

  function Sections(patterns: seq<DocType>, chunks: seq<Chunk>): seq<Section> {
    Runs(PageSections(patterns, chunks, SortPages(PageKeys(chunks))))
  }

  lemma {:induction false} NoItemsOnNewPage(chunks: seq<Chunk>, k: PageKey)
    requires k !in PageKeys(chunks)
    ensures PageItems(chunks, k) == []
  {
    if PageItems(chunks, k) != [] {
      ItemsOnPage(chunks, k, PageItems(chunks, k)[0]);
      PageKeysAreOccupied(chunks, k);
    }
  }

  ghost function ListedOn(before: seq<Chunk>, c: Chunk, provenance: seq<Provenance>, k: PageKey): seq<Chunk> {
    PageItems(before, k) + Repeats(c, provenance, k)
  }

  lemma {:induction false} ListedStep(before: seq<Chunk>, c: Chunk, j: nat, k: PageKey)
    requires j < |c.provenance|
    ensures ListedOn(before, c, c.provenance[..j + 1], k) ==
              ListedOn(before, c, c.provenance[..j], k) + (if KeyOf(c.provenance[j]) == k then [c] else [])
  {
    assert c.provenance[..j + 1][..j] == c.provenance[..j];
  }

  lemma {:induction false} AddKeysStep(keys: seq<PageKey>, provenance: seq<Provenance>, j: nat)
    requires j < |provenance|
    ensures var now := AddKeys(keys, provenance[..j]);
            AddKeys(keys, provenance[..j + 1]) ==
              (if KeyOf(provenance[j]) in now then now else now + [KeyOf(provenance[j])])
  {
    assert provenance[..j + 1][..j] == provenance[..j];
  }

  /** The dictionary lists exactly the keys, each with the chunks seen on that page so far. */
  ghost predicate Grouped(pages: map<PageKey, seq<Chunk>>, keys: seq<PageKey>,
                          before: seq<Chunk>, c: Chunk, provenance: seq<Provenance>)
  {
    && (forall k :: k in pages <==> k in keys)
    && (forall k | k in pages :: pages[k] == ListedOn(before, c, provenance, k))
  }

  lemma {:induction false} GroupedStep(pages: map<PageKey, seq<Chunk>>, keys: seq<PageKey>,
                                       before: seq<Chunk>, c: Chunk, j: nat)
    requires j < |c.provenance|
    requires keys == AddKeys(PageKeys(before), c.provenance[..j])
    requires Grouped(pages, keys, before, c, c.provenance[..j])
    ensures var k := KeyOf(c.provenance[j]);
            Grouped(pages[k := (if k in pages then pages[k] else []) + [c]],
                    AddKeys(PageKeys(before), c.provenance[..j + 1]), before, c, c.provenance[..j + 1])
  {
    var key := KeyOf(c.provenance[j]);
    var grown := pages[key := (if key in pages then pages[key] else []) + [c]];
    var after := AddKeys(PageKeys(before), c.provenance[..j + 1]);
    AddKeysStep(PageKeys(before), c.provenance, j);
    if key !in keys {
      AddedKeys(PageKeys(before), c.provenance[..j], key);
      NoItemsOnNewPage(before, key);
      RepeatsList(c, c.provenance[..j], key);
    }
    assert forall k :: k in after <==> k in keys || k == key;
    forall k | k in grown ensures grown[k] == ListedOn(before, c, c.provenance[..j + 1], k) {
      ListedStep(before, c, j, k);
    }
  }

  /** One chunk's entries in the page dictionary. */
  method AddChunk(ghost before: seq<Chunk>, chunk: Chunk, pages0: map<PageKey, seq<Chunk>>, keys0: seq<PageKey>)
    returns (pages: map<PageKey, seq<Chunk>>, keys: seq<PageKey>)
    requires keys0 == PageKeys(before) && Grouped(pages0, keys0, before, chunk, [])
    ensures keys == PageKeys(before + [chunk])
    ensures Grouped(pages, keys, before, chunk, chunk.provenance)
  {
    pages, keys := pages0, keys0;
    for j := 0 to |chunk.provenance|
      invariant keys == AddKeys(keys0, chunk.provenance[..j])
      invariant Grouped(pages, keys, before, chunk, chunk.provenance[..j])
    {
      var k := KeyOf(chunk.provenance[j]);
      GroupedStep(pages, keys, before, chunk, j);
      AddKeysStep(keys0, chunk.provenance, j);
      if k !in pages {
        keys := keys + [k];
        pages := pages[k := []];
      }
      pages := pages[k := pages[k] + [chunk]];
    }
    assert chunk.provenance[..|chunk.provenance|] == chunk.provenance;
    assert (before + [chunk])[..|before|] == before;
  }

  method GroupPages(chunks: seq<Chunk>) returns (r: Result<(map<PageKey, seq<Chunk>>, seq<PageKey>)>)
    ensures r.Err? <==> exists c :: c in chunks && !SingleOwner(c)
    ensures r.Err? ==> r.code == ScopeViolation
    ensures r.Ok? ==> r.value.1 == PageKeys(chunks) && (forall k :: k in r.value.0 <==> k in r.value.1)
    ensures r.Ok? ==> forall k | k in r.value.0 :: r.value.0[k] == PageItems(chunks, k)
  {
    var pages: map<PageKey, seq<Chunk>> := map[];
    var keys: seq<PageKey> := [];
    for i := 0 to |chunks|
      invariant forall c | c in chunks[..i] :: SingleOwner(c)
      invariant keys == PageKeys(chunks[..i]) && (forall k :: k in pages <==> k in keys)
      invariant forall k | k in pages :: pages[k] == PageItems(chunks[..i], k)
    {
      if !SingleOwner(chunks[i]) {
        assert chunks[i] in chunks;
        return Err(ScopeViolation);
      }
      pages, keys := AddChunk(chunks[..i], chunks[i], pages, keys);
      assert chunks[..i + 1] == chunks[..i] + [chunks[i]];
      assert chunks[..i + 1][..i] == chunks[..i];
    }
    assert chunks[..|chunks|] == chunks;
    return Ok((pages, keys));
  }

  /** The classifier: two dictionary-filling loops, a sort and a merging loop. A chunk without a
      single owner is a ValueError. */
  method ClassifySections(patterns: seq<DocType>, chunks: seq<Chunk>) returns (r: Result<seq<Section>>)
    ensures r.Err? <==> exists c :: c in chunks && !SingleOwner(c)
    ensures r.Err? ==> r.code == ScopeViolation
    ensures r.Ok? ==> r.value == Sections(patterns, chunks)
  {
    var grouped :- GroupPages(chunks);
    var (pages, keys) := grouped;
    var ordered := SortPages(keys);
    var sections: seq<Section> := [];
    ghost var singles := PageSections(patterns, chunks, ordered);
    for i := 0 to |ordered|
      invariant sections == Runs(singles[..i])
    {
      var key := ordered[i];
      assert key in ordered;
      var section := PageSection(patterns, pages[key], key);
      assert singles[..i + 1][..i] == singles[..i] && singles[i] == section;
      if |sections| > 0 && Joinable(sections[|sections| - 1], section) {
        var prior := sections[|sections| - 1];
        sections := sections[..|sections| - 1];
        section := prior.(end := key.page, citations := prior.citations + section.citations);
      }
      sections := sections + [section];
    }
    assert singles[..|ordered|] == singles;
    return Ok(sections);
  }

  // ----- the encoding loses nothing and merges everything it can -----

  function Expand(s: Section): seq<PageEntry> {
    if s.end < s.start then []
    else seq(s.end - s.start + 1, i requires 0 <= i => PageEntry(PageKey(s.document, s.start + i), s.types, s.status))
  }

  function ExpandAll(sections: seq<Section>): seq<PageEntry> {
    if sections == [] then []
    else ExpandAll(sections[..|sections| - 1]) + Expand(sections[|sections| - 1])
  }

  function AllCitations(sections: seq<Section>): seq<Provenance> {
    if sections == [] then []
    else AllCitations(sections[..|sections| - 1]) + sections[|sections| - 1].citations
  }

  ghost predicate Follows(a: Section, b: Section) {
    a.document < b.document || (a.document == b.document && a.end < b.start)
  }

  ghost predicate WellFormed(sections: seq<Section>) {
    && (forall i | 0 <= i < |sections| :: sections[i].start <= sections[i].end)
    && (forall i, j | 0 <= i < j < |sections| :: Follows(sections[i], sections[j]))
    && (forall i | 0 < i < |sections| :: !Joinable(sections[i - 1], sections[i]))
  }

  ghost predicate SinglePages(pages: seq<Section>) {
    && (forall i | 0 <= i < |pages| :: pages[i].start == pages[i].end)
    && (forall i, j | 0 <= i < j < |pages| :: Follows(pages[i], pages[j]))
  }

  lemma {:induction false} PushKeepsForm(sections: seq<Section>, page: Section)
    requires WellFormed(sections) && page.start == page.end
    requires sections != [] ==> Follows(sections[|sections| - 1], page)
    ensures WellFormed(Push(sections, page))
  {
    var m := |sections|;
    forall i | 0 <= i < m ensures Follows(sections[i], page) {
      if i < m - 1 { assert Follows(sections[i], sections[m - 1]); }
    }
  }

  lemma {:induction false} PushKeepsPages(sections: seq<Section>, page: Section)
    requires page.start == page.end
    requires forall i | 0 <= i < |sections| :: sections[i].start <= sections[i].end
    ensures ExpandAll(Push(sections, page)) == ExpandAll(sections) + Expand(page)
    ensures AllCitations(Push(sections, page)) == AllCitations(sections) + page.citations
  {
    var m := |sections|;
    var pushed := Push(sections, page);
    var last := pushed[|pushed| - 1];
    if m > 0 && Joinable(sections[m - 1], page) {
      assert pushed[..m - 1] == sections[..m - 1];
      assert Expand(last) == Expand(sections[m - 1]) + Expand(page);
    } else {
      assert pushed[..m] == sections;
    }
  }

  ghost predicate EndsWith(runs: seq<Section>, pages: seq<Section>) {
    if pages == [] then runs == []
    else
      runs != [] &&
      var a, b := runs[|runs| - 1], pages[|pages| - 1];
      a.document == b.document && a.end == b.end
  }

  lemma {:induction false} RunsAreMaximal(pages: seq<Section>)
    requires SinglePages(pages)
    ensures WellFormed(Runs(pages)) && EndsWith(Runs(pages), pages)
  {
    if pages != [] {
      var n := |pages| - 1;
      RunsAreMaximal(pages[..n]);
      if n > 0 {
        assert Follows(pages[n - 1], pages[n]);
      }
      PushKeepsForm(Runs(pages[..n]), pages[n]);
    }
  }

  lemma {:induction false} RunsLoseNothing(pages: seq<Section>)
    requires SinglePages(pages)
    ensures ExpandAll(Runs(pages)) == ExpandAll(pages)
    ensures AllCitations(Runs(pages)) == AllCitations(pages)
  {
    if pages != [] {
      var n := |pages| - 1;
      RunsLoseNothing(pages[..n]);
      RunsAreMaximal(pages[..n]);
      PushKeepsPages(Runs(pages[..n]), pages[n]);
    }
  }

  lemma {:induction false} PagesAreSingle(patterns: seq<DocType>, chunks: seq<Chunk>, keys: seq<PageKey>)
    requires Ascending(keys)
    ensures SinglePages(PageSections(patterns, chunks, keys))
  {
    var pages := PageSections(patterns, chunks, keys);
    forall i, j | 0 <= i < j < |pages| ensures Follows(pages[i], pages[j]) {
      assert Before(keys[i], keys[j]);
    }
  }

  /** The per-page map that the sections encode: every page that carries a chunk, in order, with the
      types and status found on it. */
  function PageMap(patterns: seq<DocType>, chunks: seq<Chunk>, keys: seq<PageKey>): seq<PageEntry> {
    seq(|keys|, i requires 0 <= i < |keys| => EntryOf(patterns, PageItems(chunks, keys[i]), keys[i]))
  }

  function EntryOf(patterns: seq<DocType>, items: seq<Chunk>, k: PageKey): PageEntry {
    var hits := Named(patterns, items);
    PageEntry(k, PageTypes(hits), PageStatus(hits))
  }

  lemma {:induction false} SingleExpands(patterns: seq<DocType>, items: seq<Chunk>, k: PageKey)
    ensures Expand(PageSection(patterns, items, k)) == [EntryOf(patterns, items, k)]
  {
  }

  lemma {:induction false} SinglesExpand(pages: seq<Section>, entries: seq<PageEntry>)
    requires |pages| == |entries| && forall i | 0 <= i < |pages| :: Expand(pages[i]) == [entries[i]]
    ensures ExpandAll(pages) == entries
  {
    if pages != [] {
      var n := |pages| - 1;
      SinglesExpand(pages[..n], entries[..n]);
      assert entries == entries[..n] + [entries[n]];
    }
  }

  lemma {:induction false} SinglesExpandToMap(patterns: seq<DocType>, chunks: seq<Chunk>, keys: seq<PageKey>)
    ensures ExpandAll(PageSections(patterns, chunks, keys)) == PageMap(patterns, chunks, keys)
  {
    var pages, entries := PageSections(patterns, chunks, keys), PageMap(patterns, chunks, keys);
    forall i | 0 <= i < |keys| ensures Expand(pages[i]) == [entries[i]] {
      SingleExpands(patterns, PageItems(chunks, keys[i]), keys[i]);
    }
    SinglesExpand(pages, entries);
  }

  /** The sections are a maximal run-length encoding of the per-page map: expanding them gives the map
      back, they are disjoint and sorted, no two neighbours could still be merged, and the page
      citations are conserved in order. */
  lemma {:induction false} SectionsEncodePages(patterns: seq<DocType>, chunks: seq<Chunk>)
    ensures var keys := SortPages(PageKeys(chunks));
            var sections := Sections(patterns, chunks);
            && Ascending(keys)
            && (forall k :: k in keys <==> exists c :: c in chunks && OnPage(c, k))
            && ExpandAll(sections) == PageMap(patterns, chunks, keys)
            && WellFormed(sections)
            && AllCitations(sections) == AllCitations(PageSections(patterns, chunks, keys))
  {
    var keys := SortPages(PageKeys(chunks));
    forall k ensures k in keys <==> exists c :: c in chunks && OnPage(c, k) { PageKeysAreOccupied(chunks, k); }
    PagesAreSingle(patterns, chunks, keys);
    RunsAreMaximal(PageSections(patterns, chunks, keys));
    RunsLoseNothing(PageSections(patterns, chunks, keys));
    SinglesExpandToMap(patterns, chunks, keys);
  }

  // ----- what the evidence gate asks of the sections -----

  lemma {:induction false} SomeOfMore(rest: seq<Section>, last: Section, e: PageEntry)
    ensures (exists s :: s in rest + [last] && e in Expand(s)) <==>
              (exists s :: s in rest && e in Expand(s)) || e in Expand(last)
  {
    assert last in rest + [last];
    assert forall s :: s in rest + [last] <==> s in rest || s == last;
  }

  lemma {:induction false} ExpandedFromSome(sections: seq<Section>, e: PageEntry)
    ensures e in ExpandAll(sections) <==> exists s :: s in sections && e in Expand(s)
  {
    if sections != [] {
      var n := |sections| - 1;
      ExpandedFromSome(sections[..n], e);
      SomeOfMore(sections[..n], sections[n], e);
      assert sections == sections[..n] + [sections[n]];
    }
  }

  lemma {:induction false} SectionOf(sections: seq<Section>, e: PageEntry) returns (s: Section)
    requires e in ExpandAll(sections)
    ensures s in sections && s.document == e.key.document && s.start <= e.key.page <= s.end
  {
    ExpandedFromSome(sections, e);
    s :| s in sections && e in Expand(s);
  }

  /** The types on a page, from the chunks alone. */
  function TypesOnPage(patterns: seq<DocType>, cs: set<Chunk>, k: PageKey): set<DocType> {
    PageTypes(Specific(HitsIn(patterns, ChunksOn(cs, k))))
  }

  function ChunksOn(cs: set<Chunk>, k: PageKey): set<Chunk> {
    set c | c in cs && OnPage(c, k)
  }

  function HitsIn(patterns: seq<DocType>, cs: set<Chunk>): set<DocType> {
    set c, t | c in cs && t in c.sectionTypes && t in patterns :: t
  }

  predicate Touches(sections: seq<Section>, d: nat, pages: set<nat>, types: set<DocType>) {
    exists s :: s in sections && s.document == d && s.types * types != {} &&
      exists p :: p in pages && s.start <= p <= s.end
  }

  lemma {:induction false} TypesOnPageAreNamed(patterns: seq<DocType>, chunks: seq<Chunk>, k: PageKey)
    ensures PageTypes(Named(patterns, PageItems(chunks, k))) == TypesOnPage(patterns, Elements(chunks), k)
  {
    var a := set t | t in patterns && t in Found(PageItems(chunks, k));
    var b := HitsIn(patterns, ChunksOn(Elements(chunks), k));
    forall t | t in b ensures t in a {
      var c :| c in ChunksOn(Elements(chunks), k) && t in c.sectionTypes && t in patterns;
      ItemsOnPage(chunks, k, c);
    }
    forall t | t in a ensures t in b {
      var c :| c in PageItems(chunks, k) && t in c.sectionTypes;
      ItemsOnPage(chunks, k, c);
      assert c in ChunksOn(Elements(chunks), k);
    }
    assert a == b;
  }

  lemma {:induction false} EntryHasPageTypes(patterns: seq<DocType>, chunks: seq<Chunk>, e: PageEntry)
    requires e in ExpandAll(Sections(patterns, chunks))
    ensures e.types == TypesOnPage(patterns, Elements(chunks), e.key)
  {
    SectionsEncodePages(patterns, chunks);
    var keys := SortPages(PageKeys(chunks));
    var i :| 0 <= i < |keys| && PageMap(patterns, chunks, keys)[i] == e;
    TypesOnPageAreNamed(patterns, chunks, e.key);
  }

  lemma {:induction false} SectionCovers(sections: seq<Section>, s: Section, p: nat) returns (e: PageEntry)
    requires s in sections && s.start <= p <= s.end
    ensures e in ExpandAll(sections) && e.key == PageKey(s.document, p) && e.types == s.types
  {
    e := PageEntry(PageKey(s.document, p), s.types, s.status);
    assert Expand(s)[p - s.start] == e;
    ExpandedFromSome(sections, e);
  }

  /** The entry of a page in the map is the entry of the section that covers the page. */
  lemma {:induction false} CoveringSectionHasPageTypes(patterns: seq<DocType>, chunks: seq<Chunk>, s: Section, p: nat)
    requires s in Sections(patterns, chunks) && s.start <= p <= s.end
    ensures s.types == TypesOnPage(patterns, Elements(chunks), PageKey(s.document, p))
  {
    var e := SectionCovers(Sections(patterns, chunks), s, p);
    EntryHasPageTypes(patterns, chunks, e);
  }

  lemma {:induction false} OccupiedPageIsCovered(patterns: seq<DocType>, chunks: seq<Chunk>, k: PageKey)
    returns (s: Section)
    requires exists c :: c in chunks && OnPage(c, k)
    ensures s in Sections(patterns, chunks) && s.document == k.document && s.start <= k.page <= s.end
  {
    SectionsEncodePages(patterns, chunks);
    var keys := SortPages(PageKeys(chunks));
    assert k in keys;
    var i :| 0 <= i < |keys| && keys[i] == k;
    var entry := PageMap(patterns, chunks, keys)[i];
    assert entry in ExpandAll(Sections(patterns, chunks));
    s := SectionOf(Sections(patterns, chunks), entry);
  }

  /** Asking the sections is asking the pages: a document's section of given types covers one of some
      occupied pages exactly when one of those pages itself has such a type. */
  lemma {:induction false} SectionsAnswerForPages(patterns: seq<DocType>, chunks: seq<Chunk>, d: nat, pages: set<nat>,
                                                  types: set<DocType>)
    requires forall p | p in pages :: exists c :: c in chunks && OnPage(c, PageKey(d, p))
    ensures Touches(Sections(patterns, chunks), d, pages, types) <==>
            exists p :: p in pages && TypesOnPage(patterns, Elements(chunks), PageKey(d, p)) * types != {}
  {
    var sections := Sections(patterns, chunks);
    if Touches(sections, d, pages, types) {
      var s :| s in sections && s.document == d && s.types * types != {} &&
        exists p :: p in pages && s.start <= p <= s.end;
      var p :| p in pages && s.start <= p <= s.end;
      CoveringSectionHasPageTypes(patterns, chunks, s, p);
    }
    if p :| p in pages && TypesOnPage(patterns, Elements(chunks), PageKey(d, p)) * types != {} {
      var s := OccupiedPageIsCovered(patterns, chunks, PageKey(d, p));
      CoveringSectionHasPageTypes(patterns, chunks, s, p);
    }
  }
}
