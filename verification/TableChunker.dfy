/** Layout-aware chunking: tables are atomic, continuation tables are merged in place into the last
    table chunk, text blocks are split. */
module TableChunker {
  import opened Outcomes
  import opened Corpus
  import opened TextSplitter

  datatype BlockKind = Heading | Paragraph | Caption | Table | Image

  /** A parsed block. saysContinued: the text contains "continued", ignoring case. */
  datatype Block = Block(kind: BlockKind, text: string, saysContinued: bool, place: Provenance, tableId: Option<string>)

  datatype Piece =
    | TextPiece(text: string, place: Provenance, kind: BlockKind, part: nat)
    | TablePiece(text: string, tableText: string, caption: Option<string>, preceding: Option<string>,
                 provenance: seq<Provenance>, tableProvenance: seq<Provenance>, tableId: Option<string>, parts: nat)

  // ----- joining -----

  const GAP: string := "\n\n"

  /** "sep".join(parts). */
  function Join(parts: seq<string>, sep: string): string {
    if parts == [] then ""
    else if |parts| == 1 then parts[0]
    else Join(parts[..|parts| - 1], sep) + sep + parts[|parts| - 1]
  }

  function Present(parts: seq<Option<string>>): seq<string> {
    if parts == [] then []
    else Present(parts[..|parts| - 1]) +
         (match parts[|parts| - 1] case None => [] case Some(t) => if t == "" then [] else [t])
  }

  /** Each provenance entry once, in order of first appearance. */
  function Unique(acc: seq<Provenance>, items: seq<Provenance>): seq<Provenance> {
    if items == [] then acc
    else
      var before := Unique(acc, items[..|items| - 1]);
      var p := items[|items| - 1];
      if p in before then before else before + [p]
  }

  method UniqueProvenance(items: seq<Provenance>) returns (unique: seq<Provenance>)
    ensures unique == Unique([], items)
  {
    var seen: set<Provenance> := {};
    unique := [];
    for i := 0 to |items|
      invariant unique == Unique([], items[..i])
      invariant seen == Elements(unique)
    {
      assert items[..i + 1][..i] == items[..i];
      if items[i] !in seen {
        seen := seen + {items[i]};
        unique := unique + [items[i]];
      }
    }
    assert items[..|items|] == items;
  }

  // ----- one table -----

  predicate IsAt(blocks: seq<Block>, i: int, kind: BlockKind, page: nat) {
    0 <= i < |blocks| && blocks[i].kind == kind && blocks[i].place.page == page
  }

  /** The caption beside a table on its page: before it, else after it. */
  function CaptionAt(blocks: seq<Block>, index: nat): Option<nat>
    requires index < |blocks|
  {
    var page := blocks[index].place.page;
    if IsAt(blocks, index - 1, Caption, page) then Some(index - 1)
    else if IsAt(blocks, index + 1, Caption, page) then Some(index + 1)
    else None
  }

  /** The paragraph or heading before the table and its caption, at most one page back. */
  function PrecedingAt(blocks: seq<Block>, index: nat): Option<nat>
    requires index < |blocks|
  {
    var start := if index >= 1 && CaptionAt(blocks, index) == Some(index - 1) then index - 2 else index - 1;
    if start < 0 then None
    else if blocks[start].kind !in {Paragraph, Heading} then None
    else if blocks[index].place.page - blocks[start].place.page > 1 then None
    else Some(start)
  }

  function TextOf(blocks: seq<Block>, at: Option<nat>): Option<string>
    requires at.Some? ==> at.value < |blocks|
  {
    if at.None? then None else Some(blocks[at.value].text)
  }

  function PlacesOf(blocks: seq<Block>, at: Option<nat>): seq<Provenance>
    requires at.Some? ==> at.value < |blocks|
  {
    if at.None? then [] else [blocks[at.value].place]
  }

  /** The chunk of one table block, or None for the refusal of an oversized table. */
  function TableChunkAt(blocks: seq<Block>, index: nat, config: Config): Option<Piece>
    requires index < |blocks|
  {
    var table := blocks[index];
    if |table.text| > config.maxTable then None
    else
      var caption, preceding := CaptionAt(blocks, index), PrecedingAt(blocks, index);
      var text := Join(Present([TextOf(blocks, preceding), TextOf(blocks, caption), Some(table.text)]), GAP);
      var provenance := Unique([], PlacesOf(blocks, preceding) + PlacesOf(blocks, caption) + [table.place]);
      Some(TablePiece(text, table.text, TextOf(blocks, caption), TextOf(blocks, preceding),
                      provenance, [table.place], table.tableId, 1))
  }

  /** A table continues the last one if its caption says so. */
  predicate ContinuesAt(blocks: seq<Block>, index: nat)
    requires index < |blocks|
  {
    CaptionAt(blocks, index).Some? && blocks[CaptionAt(blocks, index).value].saysContinued
  }

  /** _merge_table_parts; None when the merged table is too long. */
  function Merged(first: Piece, next: Piece, config: Config): Option<Piece>
    requires first.TablePiece? && next.TablePiece?
  {
    var tableText := first.tableText + GAP + next.tableText;
    if |tableText| > config.maxTable then None
    else
      var captions := Join(Present([first.caption, next.caption]), " / ");
      var caption := if captions == "" then None else Some(captions);
      Some(TablePiece(Join(Present([first.preceding, caption, Some(tableText)]), GAP), tableText, caption,
                      first.preceding,
                      Unique([], first.provenance + next.provenance),
                      first.tableProvenance + next.tableProvenance, first.tableId, first.parts + 1))
  }

  // ----- text blocks -----

  function TextPieces(block: Block, config: Config): seq<Piece>
    requires config.Valid()
  {
    var text := Strip(block.text);
    if text == "" then []
    else
      var parts := Split(text, config);
      seq(|parts|, i requires 0 <= i < |parts| => TextPiece(parts[i], block.place, block.kind, i))
  }

  // ----- the chunker -----

  /** The chunks so far and the position of the last table chunk. */
  datatype State = State(chunks: seq<Piece>, lastTable: Option<nat>)

  predicate Merges(st: State, blocks: seq<Block>, index: nat)
    requires index < |blocks|
  {
    ContinuesAt(blocks, index) && st.lastTable.Some? && st.lastTable.value < |st.chunks| &&
    st.chunks[st.lastTable.value].TablePiece?
  }

  function Step(st: State, blocks: seq<Block>, index: nat, config: Config): Option<State>
    requires config.Valid() && index < |blocks|
  {
    var block := blocks[index];
    if block.kind == Table then
      var table := TableChunkAt(blocks, index, config);
      if table.None? then None
      else if Merges(st, blocks, index) then
        var position := st.lastTable.value;
        var merged := Merged(st.chunks[position], table.value, config);
        if merged.None? then None else Some(State(st.chunks[position := merged.value], st.lastTable))
      else Some(State(st.chunks + [table.value], Some(|st.chunks|)))
    else if block.kind in {Caption, Image} then Some(st)
    else Some(State(st.chunks + TextPieces(block, config), st.lastTable))
  }

  /** The state after the first n blocks. */
  function Chunked(blocks: seq<Block>, n: nat, config: Config): Option<State>
    requires config.Valid() && n <= |blocks|
  {
    if n == 0 then Some(State([], None))
    else
      var before := Chunked(blocks, n - 1, config);
      if before.None? then None else Step(before.value, blocks, n - 1, config)
  }

  lemma {:induction false} ChunkedStep(blocks: seq<Block>, n: nat, config: Config)
    requires config.Valid() && n < |blocks|
    ensures Chunked(blocks, n + 1, config) ==
            if Chunked(blocks, n, config).None? then None else Step(Chunked(blocks, n, config).value, blocks, n, config)
  {
  }

  lemma {:induction false} RefusalStands(blocks: seq<Block>, n: nat, m: nat, config: Config)
    requires config.Valid() && n <= m <= |blocks| && Chunked(blocks, n, config).None?
    ensures Chunked(blocks, m, config).None?
  {
    if n < m {
      RefusalStands(blocks, n, m - 1, config);
    }
  }

  /** One turn of the loop for a table: patch the last table chunk in place, append a new one, or refuse. */
  method ChunkTable(chunks: seq<Piece>, lastTable: Option<nat>, blocks: seq<Block>, index: nat, config: Config)
    returns (next: Option<State>)
    requires config.Valid() && index < |blocks| && blocks[index].kind == Table
    ensures next == Step(State(chunks, lastTable), blocks, index, config)
  {
    var table := TableChunkAt(blocks, index, config);
    if table.None? {
      return None;
    }
    if Merges(State(chunks, lastTable), blocks, index) {
      var position := lastTable.value;
      var merged := Merged(chunks[position], table.value, config);
      if merged.None? {
        return None;
      }
      return Some(State(chunks[position := merged.value], lastTable));
    }
    return Some(State(chunks + [table.value], Some(|chunks|)));
  }

  /** One turn of the loop for any block. */
  method ChunkBlock(chunks: seq<Piece>, lastTable: Option<nat>, blocks: seq<Block>, index: nat, config: Config)
    returns (next: Option<State>)
    requires config.Valid() && index < |blocks| && Chunked(blocks, index, config) == Some(State(chunks, lastTable))
    ensures next == Chunked(blocks, index + 1, config)
    ensures next.None? ==> Chunked(blocks, |blocks|, config).None?
  {
    ChunkedStep(blocks, index, config);
    if Chunked(blocks, index + 1, config).None? {
      RefusalStands(blocks, index + 1, |blocks|, config);
    }
    var block := blocks[index];
    if block.kind == Table {
      next := ChunkTable(chunks, lastTable, blocks, index, config);
    } else if block.kind == Caption || block.kind == Image {
      next := Some(State(chunks, lastTable));
    } else {
      next := Some(State(chunks + TextPieces(block, config), lastTable));
    }
  }

  /** chunk: append, patch in place, or refuse. None stands for its ValueError. */
  method Chunk(blocks: seq<Block>, config: Config) returns (r: Option<seq<Piece>>)
    requires config.Valid()
    ensures r.None? <==> Chunked(blocks, |blocks|, config).None?
    ensures r.Some? ==> r.value == Chunked(blocks, |blocks|, config).value.chunks
  {
    var chunks: seq<Piece> := [];
    var lastTable: Option<nat> := None;
    for index := 0 to |blocks|
      invariant Chunked(blocks, index, config) == Some(State(chunks, lastTable))
    {
      var next := ChunkBlock(chunks, lastTable, blocks, index, config);
      if next.None? {
        return None;
      }
      chunks, lastTable := next.value.chunks, next.value.lastTable;
    }
    return Some(chunks);
  }

  // ----- conservation of tables -----

  function TablesIn(chunks: seq<Piece>): seq<Piece> {
    if chunks == [] then []
    else
      var last := chunks[|chunks| - 1];
      TablesIn(chunks[..|chunks| - 1]) + if last.TablePiece? then [last] else []
  }

  function TextsIn(chunks: seq<Piece>): seq<Piece> {
    if chunks == [] then []
    else
      var last := chunks[|chunks| - 1];
      TextsIn(chunks[..|chunks| - 1]) + if last.TextPiece? then [last] else []
  }

  lemma {:induction false} PartsOfSum(a: seq<Piece>, b: seq<Piece>)
    ensures TablesIn(a + b) == TablesIn(a) + TablesIn(b)
    ensures TextsIn(a + b) == TextsIn(a) + TextsIn(b)
  {
    if b == [] {
      assert a + b == a;
    } else {
      var n := |b| - 1;
      assert (a + b)[..|a + b| - 1] == a + b[..n];
      PartsOfSum(a, b[..n]);
    }
  }

  lemma {:induction false} OnlyTexts(texts: seq<Piece>)
    requires forall t | t in texts :: t.TextPiece?
    ensures TablesIn(texts) == [] && TextsIn(texts) == texts
  {
    if texts != [] {
      var n := |texts| - 1;
      OnlyTexts(texts[..n]);
      assert texts[n] in texts && texts == texts[..n] + [texts[n]];
    }
  }

  /** The runs of table blocks among the first n blocks: a table opens a run unless it is a continuation
      and a run is open. */
  function TableRuns(blocks: seq<Block>, n: nat): seq<seq<nat>>
    requires n <= |blocks|
  {
    if n == 0 then []
    else
      var runs := TableRuns(blocks, n - 1);
      var i := n - 1;
      if blocks[i].kind != Table then runs
      else if runs != [] && ContinuesAt(blocks, i) then runs[|runs| - 1 := runs[|runs| - 1] + [i]]
      else runs + [[i]]
  }

  function TextsOf(blocks: seq<Block>, run: seq<nat>): seq<string>
    requires forall i | i in run :: i < |blocks|
  {
    seq(|run|, k requires 0 <= k < |run| => assert run[k] in run; blocks[run[k]].text)
  }

  function RunPlaces(blocks: seq<Block>, run: seq<nat>): seq<Provenance>
    requires forall i | i in run :: i < |blocks|
  {
    seq(|run|, k requires 0 <= k < |run| => assert run[k] in run; blocks[run[k]].place)
  }

  /** A table chunk is the merger of a run: its text is the join of the run's texts, its table provenance
      the run's places in order, its count the run's length, and it is within the limit. */
  ghost predicate IsMerger(blocks: seq<Block>, run: seq<nat>, table: Piece, config: Config) {
    && table.TablePiece?
    && (forall i | i in run :: i < |blocks| && blocks[i].kind == Table)
    && run != []
    && table.tableText == Join(TextsOf(blocks, run), GAP)
    && table.tableProvenance == RunPlaces(blocks, run)
    && table.parts == |run|
    && |table.tableText| <= config.maxTable
  }

  ghost predicate Mergers(blocks: seq<Block>, runs: seq<seq<nat>>, tables: seq<Piece>, config: Config) {
    |tables| == |runs| && forall k | 0 <= k < |runs| :: IsMerger(blocks, runs[k], tables[k], config)
  }

  lemma {:induction false} MergersAdd(blocks: seq<Block>, runs: seq<seq<nat>>, tables: seq<Piece>, run: seq<nat>,
                                      x: Piece, config: Config)
    requires Mergers(blocks, runs, tables, config) && IsMerger(blocks, run, x, config)
    ensures Mergers(blocks, runs + [run], tables + [x], config)
  {
    forall k | 0 <= k < |runs + [run]| ensures IsMerger(blocks, (runs + [run])[k], (tables + [x])[k], config) {
      assert k < |runs| ==> IsMerger(blocks, runs[k], tables[k], config);
    }
  }

  lemma {:induction false} MergersDropLast(blocks: seq<Block>, runs: seq<seq<nat>>, tables: seq<Piece>, config: Config)
    requires Mergers(blocks, runs, tables, config) && runs != []
    ensures Mergers(blocks, runs[..|runs| - 1], tables[..|tables| - 1], config)
  {
    var fewer, tablesLess := runs[..|runs| - 1], tables[..|tables| - 1];
    forall k | 0 <= k < |fewer| ensures IsMerger(blocks, fewer[k], tablesLess[k], config) {
      assert IsMerger(blocks, runs[k], tables[k], config);
    }
  }

  /** The last-table position points at the last table chunk, and the table chunks are the mergers of the
      table runs, in order. */
  ghost predicate Conserves(blocks: seq<Block>, n: nat, st: State, config: Config)
    requires n <= |blocks|
  {
    var runs, tables := TableRuns(blocks, n), TablesIn(st.chunks);
    && Mergers(blocks, runs, tables, config)
    && (st.lastTable.None? <==> runs == [])
    && (st.lastTable.Some? ==> LastTableAt(st.chunks, st.lastTable.value))
  }

  ghost predicate LastTableAt(chunks: seq<Piece>, p: nat) {
    p < |chunks| && chunks[p].TablePiece? && TablesIn(chunks[p + 1..]) == []
  }

  lemma {:induction false} PatchLastTable(chunks: seq<Piece>, p: nat, x: Piece)
    requires LastTableAt(chunks, p) && x.TablePiece?
    ensures LastTableAt(chunks[p := x], p)
    ensures TablesIn(chunks) == TablesIn(chunks[..p]) + [chunks[p]]
    ensures TablesIn(chunks[p := x]) == TablesIn(chunks[..p]) + [x]
    ensures TextsIn(chunks[p := x]) == TextsIn(chunks)
  {
    var before, after := chunks[..p], chunks[p + 1..];
    assert chunks == (before + [chunks[p]]) + after;
    assert chunks[p := x] == (before + [x]) + after;
    assert chunks[p := x][p + 1..] == after;
    PartsOfSum(before + [chunks[p]], after);
    PartsOfSum(before + [x], after);
    PartsOfSum(before, [chunks[p]]);
    PartsOfSum(before, [x]);
  }

  lemma {:induction false} AppendTexts(chunks: seq<Piece>, texts: seq<Piece>, last: Option<nat>)
    requires forall t | t in texts :: t.TextPiece?
    requires last.Some? ==> LastTableAt(chunks, last.value)
    ensures last.Some? ==> LastTableAt(chunks + texts, last.value)
    ensures TablesIn(chunks + texts) == TablesIn(chunks)
  {
    OnlyTexts(texts);
    PartsOfSum(chunks, texts);
    if last.Some? {
      var p := last.value;
      assert (chunks + texts)[p + 1..] == chunks[p + 1..] + texts;
      PartsOfSum(chunks[p + 1..], texts);
    }
  }

  lemma {:induction false} TableChunkFacts(blocks: seq<Block>, i: nat, config: Config)
    requires i < |blocks| && TableChunkAt(blocks, i, config).Some?
    ensures var table := TableChunkAt(blocks, i, config).value;
            && table.TablePiece? && table.tableText == blocks[i].text && |table.tableText| <= config.maxTable
            && table.tableProvenance == [blocks[i].place] && table.parts == 1
  {
  }

  lemma {:induction false} MergedFacts(first: Piece, next: Piece, config: Config)
    requires first.TablePiece? && next.TablePiece? && Merged(first, next, config).Some?
    ensures var table := Merged(first, next, config).value;
            && table.TablePiece? && table.tableText == first.tableText + GAP + next.tableText
            && |table.tableText| <= config.maxTable
            && table.tableProvenance == first.tableProvenance + next.tableProvenance && table.parts == first.parts + 1
  {
  }

  lemma {:induction false} JoinOneMore(parts: seq<string>, part: string, sep: string)
    requires parts != []
    ensures Join(parts + [part], sep) == Join(parts, sep) + sep + part
  {
    assert (parts + [part])[..|parts|] == parts;
  }

  lemma {:induction false} RunGrows(blocks: seq<Block>, run: seq<nat>, i: nat)
    requires i < |blocks| && forall j | j in run :: j < |blocks|
    ensures forall j | j in run + [i] :: j < |blocks|
    ensures TextsOf(blocks, run + [i]) == TextsOf(blocks, run) + [blocks[i].text]
    ensures RunPlaces(blocks, run + [i]) == RunPlaces(blocks, run) + [blocks[i].place]
  {
    assert forall j | j in run + [i] :: j in run || j == i;
  }

  lemma {:induction false} MergerGrows(blocks: seq<Block>, run: seq<nat>, i: nat, first: Piece, next: Piece,
                                       merged: Piece, config: Config)
    requires IsMerger(blocks, run, first, config) && i < |blocks| && blocks[i].kind == Table
    requires next.TablePiece? && next.tableText == blocks[i].text && next.tableProvenance == [blocks[i].place]
    requires merged.TablePiece? && merged.tableText == first.tableText + GAP + next.tableText
    requires |merged.tableText| <= config.maxTable
    requires merged.tableProvenance == first.tableProvenance + next.tableProvenance && merged.parts == first.parts + 1
    ensures IsMerger(blocks, run + [i], merged, config)
  {
    RunGrows(blocks, run, i);
    JoinOneMore(TextsOf(blocks, run), blocks[i].text, GAP);
    assert forall j | j in run + [i] :: j in run || j == i;
  }

  lemma {:induction false} SingleMerger(blocks: seq<Block>, i: nat, table: Piece, config: Config)
    requires i < |blocks| && blocks[i].kind == Table
    requires table.TablePiece? && table.tableText == blocks[i].text && |table.tableText| <= config.maxTable
    requires table.tableProvenance == [blocks[i].place] && table.parts == 1
    ensures IsMerger(blocks, [i], table, config)
  {
    assert TextsOf(blocks, [i]) == [blocks[i].text];
    assert RunPlaces(blocks, [i]) == [blocks[i].place];
  }

  /** Patching the last table chunk with a longer merger extends the last run. */
  lemma {:induction false} MergeConserves(blocks: seq<Block>, i: nat, st: State, x: Piece, config: Config)
    requires i < |blocks| && blocks[i].kind == Table && ContinuesAt(blocks, i)
    requires Conserves(blocks, i, st, config) && st.lastTable.Some?
    requires var runs := TableRuns(blocks, i); IsMerger(blocks, runs[|runs| - 1] + [i], x, config)
    ensures Conserves(blocks, i + 1, State(st.chunks[st.lastTable.value := x], st.lastTable), config)
  {
    var runs, tables := TableRuns(blocks, i), TablesIn(st.chunks);
    var p := st.lastTable.value;
    PatchLastTable(st.chunks, p, x);
    MergersDropLast(blocks, runs, tables, config);
    MergersAdd(blocks, runs[..|runs| - 1], tables[..|tables| - 1], runs[|runs| - 1] + [i], x, config);
    assert TablesIn(st.chunks[p := x]) == tables[..|tables| - 1] + [x];
    assert TableRuns(blocks, i + 1) == runs[..|runs| - 1] + [runs[|runs| - 1] + [i]];
  }

  lemma {:induction false} LastIsAppended(chunks: seq<Piece>, x: Piece)
    requires x.TablePiece?
    ensures LastTableAt(chunks + [x], |chunks|) && TablesIn(chunks + [x]) == TablesIn(chunks) + [x]
  {
    PartsOfSum(chunks, [x]);
    assert TablesIn([x]) == [x] by { assert [x][..0] == []; }
    assert (chunks + [x])[|chunks| + 1..] == [];
  }

  /** Appending a table chunk opens a run. */
  lemma {:induction false} AppendConserves(blocks: seq<Block>, i: nat, st: State, x: Piece, config: Config)
    requires i < |blocks| && blocks[i].kind == Table && (ContinuesAt(blocks, i) ==> st.lastTable.None?)
    requires Conserves(blocks, i, st, config) && IsMerger(blocks, [i], x, config)
    ensures Conserves(blocks, i + 1, State(st.chunks + [x], Some(|st.chunks|)), config)
  {
    LastIsAppended(st.chunks, x);
    MergersAdd(blocks, TableRuns(blocks, i), TablesIn(st.chunks), [i], x, config);
    assert TableRuns(blocks, i + 1) == TableRuns(blocks, i) + [[i]];
  }

  lemma {:induction false} TextConserves(blocks: seq<Block>, i: nat, st: State, texts: seq<Piece>, config: Config)
    requires i < |blocks| && blocks[i].kind != Table
    requires Conserves(blocks, i, st, config) && forall t | t in texts :: t.TextPiece?
    ensures Conserves(blocks, i + 1, State(st.chunks + texts, st.lastTable), config)
    ensures Conserves(blocks, i + 1, st, config)
  {
    AppendTexts(st.chunks, texts, st.lastTable);
  }

  lemma {:induction false} TableStepConserves(blocks: seq<Block>, i: nat, st: State, config: Config)
    requires config.Valid() && i < |blocks| && blocks[i].kind == Table
    requires Conserves(blocks, i, st, config) && Step(st, blocks, i, config).Some?
    ensures Conserves(blocks, i + 1, Step(st, blocks, i, config).value, config)
  {
    var table := TableChunkAt(blocks, i, config).value;
    if Merges(st, blocks, i) {
      var runs := TableRuns(blocks, i);
      var first := st.chunks[st.lastTable.value];
      PatchLastTable(st.chunks, st.lastTable.value, first);
      TableChunkFacts(blocks, i, config);
      MergedFacts(first, table, config);
      var merged := Merged(first, table, config).value;
      MergerGrows(blocks, runs[|runs| - 1], i, first, table, merged, config);
      MergeConserves(blocks, i, st, merged, config);
    } else {
      TableChunkFacts(blocks, i, config);
      SingleMerger(blocks, i, table, config);
      AppendConserves(blocks, i, st, table, config);
    }
  }

  lemma {:induction false} StepConserves(blocks: seq<Block>, i: nat, st: State, config: Config)
    requires config.Valid() && i < |blocks|
    requires Conserves(blocks, i, st, config) && Step(st, blocks, i, config).Some?
    ensures Conserves(blocks, i + 1, Step(st, blocks, i, config).value, config)
  {
    if blocks[i].kind == Table {
      TableStepConserves(blocks, i, st, config);
    } else {
      TextConserves(blocks, i, st, TextPieces(blocks[i], config), config);
    }
  }

  /** Every accepted document keeps its tables: after any number of blocks the position of the last table
      is right, and the table chunks are exactly the mergers of the table runs, in order. */
  lemma {:induction false} TablesAreConserved(blocks: seq<Block>, n: nat, config: Config)
    requires config.Valid() && n <= |blocks| && Chunked(blocks, n, config).Some?
    ensures Conserves(blocks, n, Chunked(blocks, n, config).value, config)
  {
    if n > 0 {
      TablesAreConserved(blocks, n - 1, config);
      StepConserves(blocks, n - 1, Chunked(blocks, n - 1, config).value, config);
    }
  }

  function Flatten(runs: seq<seq<nat>>): seq<nat> {
    if runs == [] then [] else Flatten(runs[..|runs| - 1]) + runs[|runs| - 1]
  }

  function TableIndices(blocks: seq<Block>, n: nat): seq<nat>
    requires n <= |blocks|
  {
    if n == 0 then [] else TableIndices(blocks, n - 1) + if blocks[n - 1].kind == Table then [n - 1] else []
  }

  /** The runs partition the table blocks in order. */
  lemma {:induction false} RunsPartitionTables(blocks: seq<Block>, n: nat)
    requires n <= |blocks|
    ensures Flatten(TableRuns(blocks, n)) == TableIndices(blocks, n)
  {
    if n > 0 {
      RunsPartitionTables(blocks, n - 1);
      var before, runs := TableRuns(blocks, n - 1), TableRuns(blocks, n);
      if blocks[n - 1].kind == Table {
        if before != [] && ContinuesAt(blocks, n - 1) {
          assert runs[..|runs| - 1] == before[..|before| - 1];
        } else {
          assert runs[..|runs| - 1] == before;
        }
      }
    }
  }

  ghost predicate OpensProperly(blocks: seq<Block>, run: seq<nat>, isFirst: bool) {
    && run != [] && (forall j | 0 <= j < |run| :: run[j] < |blocks|)
    && (forall j | 0 < j < |run| :: ContinuesAt(blocks, run[j]))
    && (!isFirst ==> !ContinuesAt(blocks, run[0]))
  }

  /** Within a run all but the first block are continuations, and only the first run may open with one:
      a document that begins with a continuation. */
  lemma {:induction false} RunsOpenProperly(blocks: seq<Block>, n: nat)
    requires n <= |blocks|
    ensures forall k | 0 <= k < |TableRuns(blocks, n)| :: OpensProperly(blocks, TableRuns(blocks, n)[k], k == 0)
  {
    if n > 0 {
      RunsOpenProperly(blocks, n - 1);
      var before := TableRuns(blocks, n - 1);
      if blocks[n - 1].kind == Table && before != [] && ContinuesAt(blocks, n - 1) {
        var run := before[|before| - 1];
        assert OpensProperly(blocks, run, |before| == 1);
        assert forall i | i in run + [n - 1] :: i in run || i == n - 1;
      }
    }
  }

  function AllPlaces(tables: seq<Piece>): seq<Provenance>
    requires forall t | t in tables :: t.TablePiece?
  {
    if tables == [] then []
    else
      assert forall t | t in tables[..|tables| - 1] :: t in tables;
      AllPlaces(tables[..|tables| - 1]) + tables[|tables| - 1].tableProvenance
  }

  lemma {:induction false} PlacesOfFlat(blocks: seq<Block>, runs: seq<seq<nat>>, tables: seq<Piece>, config: Config)
    requires Mergers(blocks, runs, tables, config)
    ensures forall t | t in tables :: t.TablePiece?
    ensures forall i | i in Flatten(runs) :: i < |blocks|
    ensures AllPlaces(tables) == RunPlaces(blocks, Flatten(runs))
  {
    if runs != [] {
      var n := |runs| - 1;
      MergersDropLast(blocks, runs, tables, config);
      PlacesOfFlat(blocks, runs[..n], tables[..n], config);
      var a, b := Flatten(runs[..n]), runs[n];
      assert Flatten(runs) == a + b;
      assert RunPlaces(blocks, a + b) == RunPlaces(blocks, a) + RunPlaces(blocks, b);
      assert forall t | t in tables :: t in tables[..n] || t == tables[n];
    }
  }

  /** Reading the table provenance of the table chunks in order gives back exactly the document's table
      blocks in order. */
  lemma {:induction false} TableProvenanceIsExact(blocks: seq<Block>, config: Config)
    requires config.Valid() && Chunked(blocks, |blocks|, config).Some?
    ensures var tables := TablesIn(Chunked(blocks, |blocks|, config).value.chunks);
            && (forall t | t in tables :: t.TablePiece?)
            && (forall i | i in TableIndices(blocks, |blocks|) :: i < |blocks|)
            && AllPlaces(tables) == RunPlaces(blocks, TableIndices(blocks, |blocks|))
  {
    TablesAreConserved(blocks, |blocks|, config);
    RunsPartitionTables(blocks, |blocks|);
    PlacesOfFlat(blocks, TableRuns(blocks, |blocks|), TablesIn(Chunked(blocks, |blocks|, config).value.chunks), config);
  }

  function AllTexts(blocks: seq<Block>, n: nat, config: Config): seq<Piece>
    requires config.Valid() && n <= |blocks|
  {
    if n == 0 then []
    else
      AllTexts(blocks, n - 1, config) +
      if blocks[n - 1].kind in {Table, Caption, Image} then [] else TextPieces(blocks[n - 1], config)
  }

  lemma {:induction false} TableStepKeepsTexts(blocks: seq<Block>, i: nat, st: State, config: Config)
    requires config.Valid() && i < |blocks| && blocks[i].kind == Table
    requires Conserves(blocks, i, st, config) && Step(st, blocks, i, config).Some?
    ensures TextsIn(Step(st, blocks, i, config).value.chunks) == TextsIn(st.chunks)
  {
    var table := TableChunkAt(blocks, i, config).value;
    if Merges(st, blocks, i) {
      PatchLastTable(st.chunks, st.lastTable.value, Merged(st.chunks[st.lastTable.value], table, config).value);
    } else {
      PartsOfSum(st.chunks, [table]);
      assert TextsIn([table]) == [] by { assert [table][..0] == []; }
    }
  }

  lemma {:induction false} OtherStepAddsTexts(blocks: seq<Block>, i: nat, st: State, config: Config)
    requires config.Valid() && i < |blocks| && blocks[i].kind != Table
    ensures Step(st, blocks, i, config).Some?
    ensures TextsIn(Step(st, blocks, i, config).value.chunks) ==
            TextsIn(st.chunks) + if blocks[i].kind in {Table, Caption, Image} then [] else TextPieces(blocks[i], config)
  {
    var texts := TextPieces(blocks[i], config);
    PartsOfSum(st.chunks, texts);
    OnlyTexts(texts);
  }

  /** Merging tables in place leaves the text chunks alone: they are the splits of the text blocks, in
      order. */
  lemma {:induction false} TextsAreConserved(blocks: seq<Block>, n: nat, config: Config)
    requires config.Valid() && n <= |blocks| && Chunked(blocks, n, config).Some?
    ensures TextsIn(Chunked(blocks, n, config).value.chunks) == AllTexts(blocks, n, config)
  {
    if n > 0 {
      var i := n - 1;
      ChunkedStep(blocks, i, config);
      TextsAreConserved(blocks, i, config);
      if blocks[i].kind == Table {
        TablesAreConserved(blocks, i, config);
        TableStepKeepsTexts(blocks, i, Chunked(blocks, i, config).value, config);
      } else {
        OtherStepAddsTexts(blocks, i, Chunked(blocks, i, config).value, config);
      }
    }
  }
}
