# FinDocIQ: a model of the evidence gate, the chunker, the scorers and the stateful protocols

FinDocIQ turns scanned financial documents into cited figures and abstains when the evidence does not
settle one. This project models its deterministic core in Dafny and proves what it promises.

Evidence selection and staged calculation. `Corpus` and `Policies` hold the chunks, the policy and the
figures. `EvidenceGate` is the direct selection with its nested loops and abstention codes, `Basis` the
resolution of a reporting basis, `Classification` the page sections. `EvidenceTheorems` shows that the
selection, which stops at its first refusal, depends only on the set of chunks, that more evidence never
changes a figure silently, and what a returned figure certifies; `EvidenceOrder` which of the agreeing
candidates an order of the chunks returns; `ClearPages` shows that a clear page is enough for a figure and
for a cover, `AddedPages` that one more clear page settles a metric that was missing. `Formulas`,
`Calculations`, `DebtServiceCheck` and `DscrStages` are the accounting formulas and the debt-service cover
with its memo; `DscrTheorems`, `DscrEvidence` and `FormulaOrder` show consensus, reconciliation,
monotonicity and independence of formula order of the cover. `Extraction` is the extraction of any metric,
and what more documents can do to the number.

Chunking. `TextSplitter` is the overlapping splitter, `TableChunker` the merging of continued tables in
place.

Ranking, matching and scoring. `GreedyMatching`, `CitationScoring`, `Geometry` and `Grounding` are citation
scoring and grounding; `RetrievalMetrics` the recall, reciprocal rank and nDCG; `RankFusion` the
reciprocal-rank fusion.

Stateful protocols. `GpuLease` is the lease that puts vLLM to sleep as one thread runs it, with a failure
possible at every request; `LeaseSchedules` is the transition system of all interleavings, and
`BatchSchedules` relates the two. `CacheKeys`, `RetrievalCache` and `CacheTheorems` are the retrieval cache,
`ActivityLog` the bounded event log read by cursor, and `Inventory` the paged read of a scope.

Code that loops or updates state is a method, or a class with methods, proved equal to a function of its
inputs and old state; the theorems are about those functions. Errors are a datatype of codes, since which
code arises drives the control flow.

## Findings

- A batch whose sleep request is obeyed but whose state cannot be read ends without any attempt to wake
  vLLM (`GpuLease.SleepCanBeLeftBehind`), although the class documents that it restores vLLM even when a
  batch fails; `GpuLease.WakeIsTriedIff` gives the exact condition.
- A tolerant parser (`fail_on_vision_required` off) swallows an error of the lease and goes on, so a batch can
  work with vLLM awake; `LeaseSchedules.BatchMayWorkAwakeIff` and `GpuLease.BodyEndsAsleepIff` give the exact
  conditions.
- A computed figure gives way to a direct reading that turns up in a new document, without the two being
  compared: `Extraction.PageReplacesNumber` gives the page, `Extraction.NumberIsStableIff` the exact condition.
  The debt-service cover does not have this weakness.
- A report that the event schema refuses still uses up a sequence number, so retained numbers need not be
  consecutive (`ActivityLog.ConsecutiveIffAdmitted`); a poller misses nothing because of it.
- `report` on an unknown batch adds it without eviction, so the number of batches can exceed its bound, for
  good (`ActivityLog.ReportExceedsBound`, `ActivityLog.ExcessStays`); `ActivityLog.BoundHoldsIff` gives the exact
  condition.
- An answer cached for a question over all applications survives the invalidation of one of them
  (`CacheTheorems.UnscopedAnswerGoesStale`); `CacheTheorems.InvalidationSufficesIff` gives the exact condition.
- A prediction that repeats a chunk can push nDCG above the bound that the metrics schema enforces
  (`RetrievalMetrics.RepeatedChunkBreaksBound`); `RetrievalMetrics.NdcgIsBoundedIff` gives the exact condition, that
  the first eight ids hold no more hits than an ideal list shows.
- The text of the borrower's name can depend on the order of the chunks: candidates are compared by the identity they
  spell, and the final sort leaves a tie on document and page to the one listed first
  (`EvidenceOrder.NameDependsOnOrder`); `EvidenceOrder.ValueIsOrderFreeIff` gives the exact condition.
- Between a change of an application's index and its invalidation, a cached answer can be stale
  (`CacheTheorems.PendingHitCanBeStale`); `CacheTheorems.StaleIffPendingHit` gives the exact condition. Only an
  ingestion in production mode invalidates (src/findociq/api/app.py:672-674), so elsewhere the interval does not end.
- The adjustment of the splitter for a full stop can never fire (`TextSplitter.StopNeverWins`).

## Model

| member | source | states |
|---|---|---|
| `EvidenceGate.SelectDirect` | src/findociq/reason/evidence_gate.py:523-807 | The imperative selection (grouping dictionary, opening checks, section classification, nested loops, conclusion) computes Direct, for every chunk sequence and every policy; which code is raised first is part of the equality |
| `EvidenceGate.GroupDocuments` | src/findociq/reason/evidence_gate.py:527-532 | Groups chunks by their single document in order of first appearance, or refuses the first chunk that has none or several |
| `EvidenceGate.ScanSources` | src/findociq/reason/evidence_gate.py:588-590 | Visits the sources in dictionary order, refuses a report that is also a bill or a no-dues letter when it is reached, and collects candidates and the older-rows flag |
| `EvidenceGate.ScanSource` | src/findociq/reason/evidence_gate.py:591-603 | Collects the candidates of one source, keeping only rows of the latest year and undated ones, and noting older ones |
| `EvidenceGate.ReadRows` | src/findociq/reason/evidence_gate.py:685-777 | Each row becomes one candidate figure or the first refusal: date, text, number, count, name, region, citation |
| `EvidenceGate.ExamineRefusals` | src/findociq/reason/evidence_gate.py:592-735 | Nothing inside a chunk is refused as missing or as a breach of scope, so only an empty survey can be missing |
| `EvidenceTheorems.DirectReachesVerdict` | src/findociq/reason/evidence_gate.py:523-807 | The code as a whole reaches the order-free verdict on the set of its chunks, although its loops stop at the first refusal; it never reports a breach of scope |
| `EvidenceTheorems.ChunkOrderIsIrrelevant` | src/findociq/reason/evidence_gate.py:575-807 | Permuting or repeating chunks changes neither success, nor unit, period and basis, nor the value of any metric but the borrower's name (of which only the identity spelled is kept), nor whether the metric is merely missing |
| `EvidenceOrder.OrdersReturnLeads` | src/findociq/reason/evidence_gate.py:778-807 | For any metric, the figures that the orders of the same chunks return are exactly the leads of the chunks: of the deciding candidates of the least document and page, the first in the rows of some chunk |
| `EvidenceOrder.ValueIsOrderFreeIff` | src/findociq/reason/evidence_gate.py:793-807 | Every order of the chunks returns one value if and only if all leads have one value |
| `EvidenceOrder.OneSpellingIff` | src/findociq/reason/evidence_gate.py:793-807 | If no chunk offers two candidates, every order returns one value if and only if the deciding candidates of the least document and page all have one value |
| `EvidenceOrder.NameDependsOnOrder` | src/findociq/reason/evidence_gate.py:793-807 | The borrower's name fails this: of two chunks of one page that spell one identity in two ways, the one listed first gives the name |
| `EvidenceTheorems.SurveyRefuses` | src/findociq/reason/evidence_gate.py:588-735 | The nested loops refuse if and only if some source document or some chunk that is heard is refused |
| `EvidenceTheorems.SurveyGathers` | src/findociq/reason/evidence_gate.py:588-777 | Otherwise they gather exactly what the source chunks say, in whatever order |
| `EvidenceTheorems.CandidateHasRow` | src/findociq/reason/evidence_gate.py:593-777 | Every candidate is the conversion of one current row of one source chunk |
| `EvidenceTheorems.RowIsCandidate` | src/findociq/reason/evidence_gate.py:593-777 | Every current row of a chunk that is not refused becomes a candidate, with its period and its raw text |
| `EvidenceTheorems.ContextIsSharedIff` | src/findociq/reason/evidence_gate.py:604-684 | The rows of a chunk are read at all if and only if their context is settled: no incompatible page where a basis is required, a document of the anchored borrower, one period with one basis on the pages or declared for it, a percent sign for a percentage, one money unit on the pages |
| `EvidenceTheorems.SharedIsContext` | src/findociq/reason/evidence_gate.py:636-684 | That context is the basis on the pages or declared for the period, and the one unit with its factor, or no conversion |
| `EvidenceTheorems.EvidenceIsMonotone` | src/findociq/reason/evidence_gate.py:545-634 | On sets of chunks: adding whole documents that report no later year keeps what the candidates agree on (value, unit, period and basis; for the borrower's name the identity spelled in place of the value) or makes the reading refuse for a reason other than absence, also when a new registration anchors another borrower |
| `EvidenceTheorems.DirectIsMonotone` | src/findociq/reason/evidence_gate.py:523-807 | The same for the code on any two chunk sequences, with the value itself kept for every metric but the borrower's name |
| `EvidenceTheorems.FigureIsCertified` | src/findociq/reason/evidence_gate.py:545-807 | A returned figure is what one current row of one source chunk says, both named in the receipt: value and unit of the row for each kind of rule, money by the factor of the only unit on the pages; the document names the single anchored entity, the period is the latest reporting year of all sources when the rule is dated, and the basis is unique on the pages or uniquely declared for the year |
| `EvidenceTheorems.FigureIsLabelled` | src/findociq/reason/evidence_gate.py:736-776 | The receipt names the metric asked for, the period of the figure and the policy |
| `ClearPages.PageIsRead` | src/findociq/reason/evidence_gate.py:523-807 | The gate does answer: one unambiguous audited page with one row for a statement metric (money, percentage or ratio) in its latest year is enough for the figure, converted from the unit of the page |
| `ClearPages.PageLacks` | src/findociq/reason/evidence_gate.py:778-781 | A page with nothing scanned for a dated metric leaves it missing, rather than refused |
| `AddedPages.AddedPageIsRead` | src/findociq/reason/evidence_gate.py:523-807 | A clear page added as a new document to any evidence that leaves a statement metric missing, about the same borrower and latest year, settles the metric on its row |
| `AddedPages.PageBringsNoLaterYear` | src/findociq/reason/evidence_gate.py:566-587 | Such a page brings no later reporting year to any rule, its own or another |
| `EvidenceTheorems.DecidersAgree` | src/findociq/reason/evidence_gate.py:778-806 | Every current row of every source chunk in the deciding year that no row of a NIC table outranks was read, and its figure has the unit, period and basis of the returned figure and, but for the borrower's name, its value |
| `BasisResolution.ResolveBasis` | src/findociq/reason/basis.py:15-73 | The resolver with its early refusals and returns computes BasisOf |
| `BasisResolution.GatherDeclarations` | src/findociq/reason/basis.py:43-65 | The declaration loop gathers the declarations for the year, or refuses a heading that names no basis or several |
| `BasisResolution.BasisIsUnambiguous` | src/findociq/reason/basis.py:26-73 | A basis results if and only if it is the only one on the pages of the figure, or those pages name none and it is the only one in the report and declared under a heading for the year |
| `Classification.ClassifySections` | src/findociq/reason/classification.py:58-107 | Page grouping in nested loops, page order, and the pop-and-push merge compute Sections; a chunk without a single owner is an error |
| `Classification.GroupPages` | src/findociq/reason/classification.py:59-65 | The page dictionary holds, for each page, the chunks with provenance there, once for each provenance entry |
| `Classification.SectionsEncodePages` | src/findociq/reason/classification.py:66-107 | Expanding the sections gives back the map from pages to types and status; sections are disjoint and sorted, no two neighbours could still be merged, and page citations are conserved in order |
| `Classification.RunsAreMaximal` | src/findociq/reason/classification.py:95-106 | No two consecutive sections of one document touch and agree in types and status |
| `Classification.SectionsAnswerForPages` | src/findociq/reason/evidence_gate.py:619-625 | Asking whether a section of given types covers one of some occupied pages is asking whether one of those pages has such a type itself |
| `Decimals.TimesMultipliesValues` | src/findociq/reason/evidence_gate.py:705-707 | Unit conversion multiplies the numbers denoted, whatever the places written |
| `Extraction.Extract` | src/findociq/reason/evidence_gate.py:480-521 | The cover by its own procedure; any other metric directly first, by formulas only when it is missing, by alternatives only after a formula that was missing an operand |
| `Extraction.FormulasOnlyFillGaps` | src/findociq/reason/evidence_gate.py:490-521 | A computed figure comes from the first configured formula after ones that each lack an operand altogether, and the metric itself was not to be found; evidence that is refused is never computed around |
| `Extraction.ChangeHasEarlierSource` | src/findociq/reason/evidence_gate.py:490-521 | If the readings that an extraction consults are kept, it cannot go missing, and a different number comes only from a source that goes first and was missing before: the metric itself, or an earlier formula that lacked an operand |
| `Extraction.MoreDocumentsKeepNumber` | src/findociq/reason/evidence_gate.py:490-521 | The same for two corpora: whole new documents of no later year keep the number, or make the gate abstain, unless they supply a source that goes first |
| `Extraction.NumberIsStableIff` | src/findociq/reason/evidence_gate.py:490-521 | On corpora: for a statement metric, the number extracted stays under every addition of whole documents that bring no later year to any rule consulted if and only if it was read directly |
| `Extraction.PageReplacesNumber` | src/findociq/reason/evidence_gate.py:490-521 | Every computed number of a statement metric can be replaced: one clear page of a new document, about the same borrower and year, is enough |
| `Extraction.ComputedProfitGivesWay` | src/findociq/reason/evidence_gate.py:490-521 | Such numbers exist: a page with profit before tax and the tax yields the profit after tax, and one more document changes the number |
| `Calculations.CalculateFacts` | src/findociq/reason/calculations.py:10-67 | A computed figure had every operand read, all in one context, and has the value of its formula on their numbers; a calculation is missing only if an operand is |
| `Calculations.OperandCache.Extract` | src/findociq/reason/dscr.py:19-28 | The memo answers with the direct reading, abstentions included, and reads a metric directly the first time only; an exception that is not an abstention escapes and is not kept |
| `Formulas.NoOperandIsIdle` | src/findociq/reason/accounting_formulas.py:47-241 | Every formula of the table has coefficient vectors of the length of its operands and gives each operand a weight on some side |
| `Formulas.ScalingRestates` | src/findociq/reason/accounting_formulas.py:16-44 | Multiplying every operand by one positive factor leaves a ratio as it was and scales a formula without denominator, with the same refusals |
| `Formulas.EbitdaOf` | src/findociq/reason/accounting_formulas.py:121-240 | EBITDA from profit before tax, finance cost and depreciation is their sum, refused exactly for a negative cost |
| `Formulas.ProfitAfterTaxOf` | src/findociq/reason/accounting_formulas.py:121-240 | Profit after tax from profit before tax and net tax is their difference |
| `Formulas.DebtMultipleComposes` | src/findociq/reason/accounting_formulas.py:121-240 | The component form of debt to EBITDA is the direct form composed with the formula of EBITDA, refusals included |
| `Formulas.BorrowingsMultipleComposes` | src/findociq/reason/accounting_formulas.py:121-240 | The same for the multiple of long- and short-term borrowings |
| `Formulas.MarginComposes` | src/findociq/reason/accounting_formulas.py:121-240 | The same for the EBITDA margin |
| `Formulas.CashAccrualComposes` | src/findociq/reason/accounting_formulas.py:121-240 | The cash-accrual cover from profit before tax and net tax is the one from profit after tax composed with its formula |
| `DebtServiceCheck.ReconcileAnnualService` | src/findociq/reason/debt_service.py:6-74 | The two extraction loops, the partial-schedule refusal and both reconciliations compute Reconcile |
| `DebtServiceCheck.NoPartialSchedule` | src/findociq/reason/debt_service.py:9-24 | If the reconciliation passes, the schedule of three is read in full or missing in full |
| `DebtServiceCheck.ScheduleAddsUp` | src/findociq/reason/debt_service.py:25-49 | In full its parts are non-negative and not all zero, and a reported total is their sum |
| `DebtServiceCheck.TermAddsUp` | src/findociq/reason/debt_service.py:51-74 | Without it a reported total with both term components is positive and is their sum |
| `DscrStages.CalculateDscr` | src/findociq/reason/dscr.py:10-78 | The staged computation over the memo returns what the same stages give with no memo; the memo agrees with direct reading and every operand is read directly once |
| `DscrStages.LookUp` | src/findociq/reason/dscr.py:51-56 | No lookup in the memo can miss |
| `DscrStages.Pass` | src/findociq/reason/dscr.py:33-42 | A pass stops exactly when it touches an operand with a breach of scope, or one whose reading raises something else than an abstention, and otherwise memoises its operands in order of first use |
| `DscrTheorems.CoverSettles` | src/findociq/reason/dscr.py:16-78 | A cover is returned if and only if the set of configured formulas settles it: no touched operand has a refusal other than absence, the debt service reconciles, denominators are positive, and the computable routes agree |
| `FormulaOrder.ReadingIgnoresFormulas` | src/findociq/reason/evidence_gate.py:523-807 | Configuring other formulas changes a direct reading in the policy hash of its receipt only, refusals included |
| `FormulaOrder.FormulaOrderIsIrrelevant` | src/findociq/reason/dscr.py:16-78 | Two gates whose policies configure the same formulas for the cover in whatever order, and so have other hashes, succeed on the same corpora with the same value |
| `DscrTheorems.CoverIsConsensus` | src/findociq/reason/dscr.py:44-77 | On success no operand of any route has a refusal other than absence, and every route whose operands are all there evaluates to the returned number |
| `DscrTheorems.CoverIsComputed` | src/findociq/reason/dscr.py:67-77 | The returned cover is one of the computed routes, never a copied ratio |
| `DscrTheorems.CoverIsMonotone` | src/findociq/reason/dscr.py:10-78 | If readings are kept, two covers are the same number |
| `DscrEvidence.CoverSurvivesEvidence` | src/findociq/reason/dscr.py:10-78 | Adding whole documents that bring no later reporting year leaves the cover as it was or makes the gate abstain: two corpora so related never yield two different covers |
| `ClearPages.PageYieldsCover` | src/findociq/reason/dscr.py:10-78 | The cover is reachable from evidence: a clear page that shows operating revenue, expenses and debt service yields their quotient |
| `DscrTheorems.CoverReconcilesExpenses` | src/findociq/reason/accounting_formulas.py:50-120 | With an operating and a profit-and-loss route both computed, operating expenses are total expenses less finance cost |
| `DscrTheorems.CoverReconcilesService` | src/findociq/reason/dscr.py:48-77 | With a reported total and the full schedule, the total is principal plus interest plus lease; a partly present schedule never yields a cover |
| `TextSplitter.SplitText` | src/findociq/ingest/chunker.py:98-129 | The window loop terminates and computes Split |
| `TextSplitter.StopNeverWins` | src/findociq/ingest/chunker.py:110-119 | A full stop with its space is never the best break, so the adjustment after it never fires |
| `TextSplitter.CutIsLastBreak` | src/findociq/ingest/chunker.py:107-121 | A window that does not reach the end is cut at the last space or blank line inside it after its start, or is full |
| `TextSplitter.WindowsCover` | src/findociq/ingest/chunker.py:106-128 | Starts increase strictly, windows are within the maximum, and they cover the text without a gap |
| `TextSplitter.NothingIsLost` | src/findociq/ingest/chunker.py:104-129 | Every character that is not white space survives in place in a returned piece |
| `TextSplitter.PiecesAreBounded` | src/findociq/ingest/chunker.py:101-129 | No piece is empty or longer than the maximum unless the whole text is short |
| `TextSplitter.EndsStepBackByOne` | src/findociq/ingest/chunker.py:110-128 | The end of the next window is at most one character before the end of this one |
| `TextSplitter.EndsCanStepBack` | src/findociq/ingest/chunker.py:110-128 | Ends do step back, on a concrete family of texts |
| `TableChunker.Chunk` | src/findociq/ingest/chunker.py:39-56 | Appending, patching the last table chunk in place, and refusing compute Chunked |
| `TableChunker.UniqueProvenance` | src/findociq/ingest/chunker.py:165-174 | Keeps each provenance entry once, in order of first appearance |
| `TableChunker.TablesAreConserved` | src/findociq/ingest/chunker.py:39-80 | The last-table position always points at the last table chunk; each table chunk is the join of a run of table blocks, with their places, their count, and a text within the limit |
| `TableChunker.RunsPartitionTables` | src/findociq/ingest/chunker.py:44-53 | The runs are exactly the table blocks, in order |
| `TableChunker.RunsOpenProperly` | src/findociq/ingest/chunker.py:46-53 | All blocks of a run but the first are continuations, and only the first run may open with one |
| `TableChunker.TableProvenanceIsExact` | src/findociq/ingest/chunker.py:181-210 | The table provenance of the table chunks in order is the list of places of the table blocks of the document |
| `TableChunker.TextsAreConserved` | src/findociq/ingest/chunker.py:54-55 | Merging tables in place leaves the text chunks as the splits of the text blocks, in order |
| `CitationScoring.ScoreCitations` | evals/scorers/citation.py:21-37 | The matching loops with their break compute the scores of the greedy matching |
| `CitationScoring.CountMatched` | evals/scorers/citation.py:26-33 | The loops count what greedy matching matches |
| `CitationScoring.MatchedIsHalfOptimal` | evals/scorers/citation.py:26-33 | What is counted is one-to-one, maximal, and at least half of any one-to-one matching |
| `CitationScoring.MatchedIsOptimalWithoutBoxes` | evals/scorers/citation.py:10-33 | Without boxes on the predictions it is the size of the multiset intersection of the pages, and no matching has more |
| `CitationScoring.MatchedIsOptimalWithoutExpectedBoxes` | evals/scorers/citation.py:10-33 | The same without boxes on the expected citations |
| `CitationScoring.MatchedCanHalve` | evals/scorers/citation.py:26-33 | With boxes the half is reached, on a concrete pair of lists |
| `CitationScoring.F1IsDice` | evals/scorers/citation.py:34-37 | F1 is twice the matched over the two lengths together, and all scores lie between 0 and 1 |
| `GreedyMatching.GreedyIsHalfOptimal` | evals/scorers/citation.py:26-33 | For any relation, greedy matching finds at least half of any one-to-one matching |
| `GreedyMatching.GreedyIsOptimalByLabel` | evals/scorers/citation.py:26-33 | For a relation that compares labels greedy matching is optimal |
| `Geometry.IouIsSymmetric` | evals/scorers/citation.py:40-49 | Overlap does not depend on the order of the boxes |
| `Geometry.IouIsNormalised` | src/findociq/reason/schema.py:212-221 | Overlap lies in the unit interval and is 1 exactly for equal boxes with an area |
| `Grounding.GroundedOnBest` | src/findociq/reason/schema.py:184-201 | Grounding succeeds exactly when a candidate on the page overlaps enough, and returns a candidate of that page that no other overlaps more |
| `Grounding.AllowedCitationIsFixed` | src/findociq/reason/schema.py:184-201 | A citation already allowed is returned as it is if and only if its box has an area; a degenerate one is refused |
| `Grounding.GroundingIsIdempotent` | src/findociq/reason/schema.py:184-201 | Grounding a result with an area again changes nothing |
| `RetrievalMetrics.NdcgIsNormalised` | evals/scorers/retrieval.py:28-47 | If the first eight ids hold no more hits than an ideal list shows, as distinct ids do, nDCG lies in the unit interval for any positive strictly decreasing discount, and is 1 exactly when the first ids, as many as could be relevant, all are |
| `RetrievalMetrics.NdcgIsBoundedIff` | evals/scorers/retrieval.py:28-47 | nDCG is at most 1 in every order of the first eight ids if and only if they hold no more hits than an ideal list shows |
| `RetrievalMetrics.GainIsBoundedIff` | evals/scorers/retrieval.py:28-47 | The gain stays within the ideal for every order of the hits if and only if there are no more hits than an ideal list shows |
| `RetrievalMetrics.FrontLoadedGainsMost` | evals/scorers/retrieval.py:28-34 | For a number of hits the gain is greatest exactly when they come first |
| `RetrievalMetrics.RecallIsOrdered` | evals/scorers/retrieval.py:21-22 | Recall grows with the cut-off within the unit interval |
| `RetrievalMetrics.RecallWithinReciprocalRank` | evals/scorers/retrieval.py:21-27 | Recall at 1 never exceeds the reciprocal rank |
| `RetrievalMetrics.MeansAreWellformed` | evals/scorers/retrieval.py:44-64 | The aggregated means meet the bounds that RetrievalMetrics validates, and keep the order of the recalls, whenever no prediction shows more hits than an ideal list, as when none repeats a chunk |
| `RetrievalMetrics.RepeatedChunkBreaksBound` | evals/scorers/retrieval.py:28-47 | A chunk listed twice lifts nDCG above 1, under every discount |
| `RankFusion.ReciprocalRankFusion` | src/findociq/retrieve/hybrid.py:10-48 | The accumulating loops over the fused dictionary, the sort and the limit compute Fusion; a rank constant or limit that is not positive is an error |
| `RankFusion.FuseList` | src/findociq/retrieve/hybrid.py:25-34 | After each list the dictionary holds, for each chunk seen, its first hit, its order of appearance and its sum so far |
| `RankFusion.FusionRanksEveryChunk` | src/findociq/retrieve/hybrid.py:23-48 | Every chunk appears once with the sum of its shares; higher sums first, ties by first appearance, ranks from one |
| `RankFusion.FirstHitIsKept` | src/findociq/retrieve/hybrid.py:30-47 | What is returned besides the score comes from the first hit of the chunk |
| `RankFusion.LimitIsPrefix` | src/findociq/retrieve/hybrid.py:36-38 | A limit returns the front of the unlimited result |
| `RankFusion.DominantChunkComesFirst` | src/findociq/retrieve/hybrid.py:25-36 | A chunk above another in every list that has the other is fused ahead of it, if no list repeats the lower one |
| `RankFusion.RepeatsBreakDominance` | src/findociq/retrieve/hybrid.py:25-36 | A repeated lower chunk overtakes, for every rank constant |
| `GpuLease.Lease.IngestionBatch` | src/findociq/ingest/gpu_lease.py:69-94 | Lock, sleep handshake, flag, body, wake and error grouping leave the trace of requests and the error of BatchRun, for a strict and for a tolerant parser; flag cleared, lock given back on every exit |
| `GpuLease.Lease.Fallback` | src/findociq/ingest/gpu_lease.py:96-107 | Wake, generation and sleep leave the trace and error of FallbackRun; a failing sleep replaces the error of the generation |
| `GpuLease.PageEndsBodyIff` | src/findociq/ingest/docling_parser.py:126-138 | With the lease kept, a page ends the body only by what its generation raised, and under a tolerant parser only by something else than a RuntimeError; with the lease broken it ends the body if and only if the parser is strict |
| `GpuLease.FallbackReturnsAsleepIff` | src/findociq/ingest/gpu_lease.py:96-107 | A generation leaves vLLM asleep if and only if both its handshakes completed, whatever the generation raised |
| `GpuLease.Lease.Sleep` | src/findociq/ingest/gpu_lease.py:109-112 | Makes the requests of the sleep handshake up to the first that is not accepted |
| `GpuLease.Lease.Wake` | src/findociq/ingest/gpu_lease.py:114-118 | The same for the wake handshake with its health request |
| `GpuLease.BatchRestoresVllm` | src/findociq/ingest/gpu_lease.py:77-94 | Once vLLM sleeps, a batch ends with exactly the outcome of its body, tolerant or not, if and only if a completed wake and health handshake is the last thing requested; otherwise the error carries that of the wake |
| `GpuLease.BodyEndsAsleepIff` | src/findociq/ingest/gpu_lease.py:79-107 | A body that returns normally ends with vLLM asleep if and only if its last generation did not break its lease; a strict parser never returns normally after that |
| `GpuLease.BodiesEndAsleepIffStrict` | src/findociq/ingest/docling_parser.py:126-138 | All bodies that return normally end with vLLM asleep if and only if the parser fails on a page it cannot read |
| `GpuLease.WakeIsTriedIff` | src/findociq/ingest/gpu_lease.py:77-94 | A wake is requested if and only if the first sleep handshake went through |
| `GpuLease.SleepCanBeLeftBehind` | src/findociq/ingest/gpu_lease.py:77-94 | So the documented promise to restore vLLM fails when the sleep request is obeyed but the state cannot be read |
| `LeaseSchedules.SchedulesKeepInvariant` | src/findociq/ingest/gpu_lease.py:62-118 | For every interleaving of threads, every pattern of failures and a strict or tolerant parser: lock, depth, flag, sleep state and phases stay consistent |
| `LeaseSchedules.ReasoningOwnsTheGpu` | src/findociq/service.py:196-208 | In every schedule a query reasons only with vLLM awake and retrieval models released, every other thread idle and unable to take a step |
| `LeaseSchedules.BatchesOwnTheGpu` | src/findociq/ingest/gpu_lease.py:69-107 | In every schedule a batch works only while vLLM sleeps, unless its parser is tolerant and its last generation ended in a swallowed error of the lease; it generates only while vLLM is awake |
| `LeaseSchedules.BatchMayWorkAwakeIff` | src/findociq/ingest/docling_parser.py:126-138 | Some schedule has a batch work with vLLM awake if and only if the parser is tolerant |
| `LeaseSchedules.ExitsAsleepIff` | src/findociq/ingest/gpu_lease.py:77-94 | In every schedule the step that leaves a batch leaves vLLM asleep exactly when a refused entry had or got it asleep, or the first request of the final wake failed without effect |
| `LeaseSchedules.HandshakeIsPerformed` | src/findociq/ingest/gpu_lease.py:109-118 | A handshake inside a schedule ends as the lease class performs it on the same answers, and changes nothing else in the shared state than sleep |
| `BatchSchedules.BatchIsPerformed` | src/findociq/ingest/gpu_lease.py:69-118 | A whole batch run by one thread of a schedule makes as many requests as the lease makes of the same network, gets to its last handshake and fails in its body exactly if the lease does, and leaves the thread idle, the lock free and the flag clear |
| `LeaseSchedules.QueryGetsToReason` | src/findociq/service.py:196-208 | A query that nothing fails gets to reason, from every start |
| `LeaseSchedules.DisabledLeaseOnlySerializes` | src/findociq/ingest/gpu_lease.py:73-76 | With the lease off threads still exclude one another and no request is made |
| `LeaseSchedules.LockComesFree` | src/findociq/ingest/gpu_lease.py:62-94 | From every state that satisfies the invariant, failures included, at most five steps of the owner free the lock and clear the flag |
| `CacheKeys.KeysAreInjective` | src/findociq/retrieve/pipeline.py:144-144 | Requests with separator-free ids have different keys, whatever their queries |
| `CacheKeys.UncleanKeyIsShared` | src/findociq/retrieve/pipeline.py:144-144 | Every request whose ids are not clean (a separator in one, or an empty document id) shares its key with another request |
| `CacheKeys.KeyIsOwnIff` | src/findociq/retrieve/pipeline.py:144-144 | Among all requests, clean or not, a key belongs to one request if and only if it has one proper document id and no NUL in its query or application |
| `CacheKeys.MarkedIffOwn` | src/findociq/retrieve/pipeline.py:196-201 | The marker of an application occurs in the key of a clean request if and only if it is its own |
| `RetrievalCache.RetrievalPipeline.Retrieve` | src/findociq/retrieve/pipeline.py:126-194 | Blank queries, hits, misses, failures, storing and eviction leave the answer and the cache of Retrieved |
| `RetrievalCache.RetrievalPipeline.Evict` | src/findociq/retrieve/pipeline.py:191-193 | The eviction loop keeps the most recent entries, as many as the cap |
| `RetrievalCache.RetrievalPipeline.InvalidateApplication` | src/findociq/retrieve/pipeline.py:196-202 | The deletion loop leaves the entries whose keys lack the marker, in their order |
| `RetrievalCache.BestAreKept` | src/findociq/retrieve/pipeline.py:204-220 | Reranking keeps the best hits, as many as asked for, and drops none that is better than one it keeps |
| `CacheTheorems.RunsAreTransparent` | src/findociq/retrieve/pipeline.py:144-202 | Every run of requests with clean ids that all name an application answers what a pipeline without a cache answers, over any changes that indexing applications again makes, if no request names one of them between its change and its invalidation |
| `CacheTheorems.UnnamedRunsAreTransparent` | src/findociq/retrieve/pipeline.py:144-202 | So does every such run with clean ids, naming an application or not, while index changes leave the answers of requests that name none |
| `CacheTheorems.StaleIffPendingHit` | src/findociq/retrieve/pipeline.py:144-202 | After any run, an answer is stale if and only if its request names an application indexed again since its last invalidation and hits an entry with another answer; with nothing pending none is |
| `CacheTheorems.PendingHitCanBeStale` | src/findociq/retrieve/pipeline.py:144-202 | Any request that hits an entry can get a stale answer between a change of its index and the invalidation |
| `CacheTheorems.InvalidationSufficesIff` | src/findociq/retrieve/pipeline.py:196-202 | Whatever indexing an application again alters, for requests that name it or name none, its invalidation leaves the cache right if and only if no clean request that names no application has an entry that is kept |
| `CacheTheorems.RunsStayBounded` | src/findociq/retrieve/pipeline.py:190-193 | No run exceeds the cap |
| `CacheTheorems.EvictionIsLeastRecent` | src/findociq/retrieve/pipeline.py:145-193 | After any run of retrievals the cache holds exactly the most recently answered keys |
| `CacheTheorems.InvalidationIsExact` | src/findociq/retrieve/pipeline.py:196-202 | For clean requests an invalidation removes all and only the entries of its application |
| `CacheTheorems.UnscopedAnswerGoesStale` | src/findociq/retrieve/pipeline.py:196-202 | A question over all applications keeps its old answer after one of them is indexed again |
| `ActivityLog.IngestionActivityRegistry.Report` | src/findociq/api/activity.py:43-58 | Adds to the unbounded history of the batch, for which the log is kept as a bounded view; a new batch is added without eviction |
| `ActivityLog.IngestionActivityRegistry.Start` | src/findociq/api/activity.py:25-37 | Empties the history of the batch, evicting the oldest batch when a new one finds the registry full |
| `ActivityLog.BoundHoldsIff` | src/findociq/api/activity.py:25-58 | Over any run of starts and reports the number of batches stays within its bound if and only if no report named an unknown batch while the registry was full |
| `ActivityLog.ReportExceedsBound` | src/findociq/api/activity.py:43-58 | It does get exceeded: a batch that reports after its eviction is added again, and the next start leaves both |
| `ActivityLog.ExcessStays` | src/findociq/api/activity.py:25-58 | No later call brings an exceeded number down |
| `ActivityLog.IngestionActivityRegistry.Snapshot` | src/findociq/api/activity.py:64-75 | Returns the view of the whole history after a sequence number |
| `ActivityLog.RetainedIsLast` | src/findociq/api/activity.py:43-58 | Trimming after every report retains the last events ever numbered |
| `ActivityLog.PollSeesTheNew` | src/findociq/api/activity.py:43-75 | A poll from the last cursor returns the events added since, all of them if and only if they are no more than the cap |
| `ActivityLog.PollsRepeatNothing` | src/findociq/api/activity.py:43-75 | Over any run of polls no event is seen twice and numbers strictly increase |
| `ActivityLog.PollsMissNothingIff` | src/findociq/api/activity.py:43-75 | Over any run of polls every event is seen if and only if no round added more than the cap |
| `ActivityLog.ConsecutiveIffAdmitted` | src/findociq/api/activity.py:45-58 | Retained numbers are consecutive and end at the counter if and only if the schema refused none of as many last reports: a refused report uses up its number |
| `ActivityLog.RestartHidesEvents` | src/findociq/api/activity.py:25-75 | After a restart a poller that keeps its cursor misses just the retained events numbered up to it, for any new run, refused reports and trimmed events included |
| `ActivityLog.RestartHidesFirst` | src/findociq/api/activity.py:25-75 | With every report admitted and within the cap, those are the first ones, as many as the cursor counts |
| `Inventory.ScopedChunks` | src/findociq/index/store.py:121-157 | The paged read asks for at least one record each time and computes Scoped, however the store cuts its pages |
| `Inventory.NothingIsTruncated` | src/findociq/index/store.py:121-157 | It succeeds only with the whole inventory, and exactly when that fits the bound, is in scope and covers the documents asked for |

## Left out

- Pattern matching on text (labels, years, units, bases, entity names, NIC tables, table cells): a chunk carries what
  the patterns find in it, and a search over joined texts finds the union of what it finds in each.
- Rounding: `Decimal` at 28 digits and `float` are exact reals, and the formatting of values is not modelled; decimals
  as written keep their sign, digits and places, because candidates are compared as text.
- Hashes and identities: document, chunk, application and policy ids are numbers or texts compared for equality;
  document digests order as the numbers they spell.
- Reviewer interpretation links: the gate is modelled with none.
- Unknown formula ids: formula ids are a datatype, so the refusal of an id outside the table cannot arise; likewise
  every money unit has a factor.
- Absent receipts: every figure carries one here, because the gate always attaches one.
- The company-age metric, field assessments and rejected-candidate citations of `assess`, and the NIC activity list.
- EvidenceTheorems.DirectIsMonotone: rules with a NIC level or an entity-heading pattern are excluded, because such
  rows outrank others by design and a new document may bring one.
- DscrEvidence.CoverSurvivesEvidence: the operands' rules are those without a NIC level or a heading pattern.
- Extraction.MoreDocumentsKeepNumber: the same restriction on the rules consulted.
- Extraction.NumberIsStableIff: for a number from audited reports, dated and with a basis, which every metric with a
  formula is in the shipped policy; the factor of the crore is not zero.
- Context citations of a receipt are a set, not an ordered tuple; the section types are a set where the code sorts them.
- Continuation flags in table metadata: a caption block carries whether it says that it is continued.
- The logarithmic discount of nDCG: any positive strictly decreasing discount stands for it.
- Interrupts (exceptions outside `Exception`) and a batch nested in a batch of the same thread, in the lease.
- LeaseSchedules.ReasoningOwnsTheGpu: assumes that vLLM reports its sleep state truthfully and that a request takes
  effect, if at all, before its call returns.
- Generation under the lease is modelled for the thread that runs the batch, which is where the repository uses it.
- CacheTheorems.RunsAreTransparent: search, embedding and scoring are fixed functions between index changes, and a
  retrieval is one step; a change of the index during a retrieval is not modelled.
- The lock of the activity registry: its methods are atomic; time stamps and message texts are one opaque value.
- The store behind the paged read: a page is never empty while records remain; validation of stored payloads.
- Qdrant, embedding and reranking models, vLLM over HTTP, OCR, layout analysis, prompts and generation clients.
- HTTP routes, configuration loading, command lines, observability, registries, guardrails and encryption: mostly
  single-branch checks that would add easy members only.
