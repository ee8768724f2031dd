# A verified model of the ingestion, retrieval, wiki and agent core

The repository ingests documents into a chunk table and a vector store, answers queries over
them, distils answers into a versioned wiki, and runs a tool-calling agent. This project models
the parts of it whose correctness is not obvious from one function, and proves what they are
for. Each module follows one component; code that updates things in a loop is a method with a
loop, tables and stores that are updated in place are classes, and both are proved against
specifications about which the lemmas speak.

- **Documents.** `Markdown` is the line scanner with its heading stack, `FrontMatter` the header
  cut before it, `Sections` the section builder with its monotonic stack and path dictionary.
  `HeadingStack` defines which headings are open by a scan over all of them, with no stack;
  `BlockReading` says of every block, from the document's lines alone, what it must be;
  `ParseIsUnique` shows that the description `ParseBlocks` is proved against leaves no choice;
  `DocumentTree` proves that scanner and section builder describe one tree.
- **Chunks.** `Packing` is greedy grouping in general, `TokenSplit` the sentence and line splitter,
  `SemanticChunker` the chunker with its two passes.
- **Ranking.** `StableSort`, `Hybrid` (reciprocal rank fusion), `SubQueryBatches`
  (`_rerank_batches`), `Rerank`, `ContextBuilder`, and `QueryPipeline` for their composition.
  Scores are exact reals.
- **Streaming and paging.** `Sse` is the client's stream parser against a line-by-line reading of
  the stream, and the printer's inverse; `Paging` the keyset walk over a table that may change
  between pages; `Reconcile` the walk that finds orphan vector points.
- **Ingestion.** `IngestionSteps` is the protocol as steps on the shared stores, with a crash
  possible between any two; `IngestionSafety` its invariant, `IngestionRuns` what that says of
  whole runs, `IngestionPipeline` the code of `process` and of the worker passes, proved to take
  only those steps.
- **Wiki.** `WikiStore` is the tables and transactions, `WikiRuns` what a transaction keeps,
  `WikiDistill` any interleaving of distills, and one distill run alone.
- **Agent.** `ToolGate` is the policy and the execution gate, `AgentGraph` the graph, `AgentSafety`
  and `AgentRuns` what every run keeps across interrupts and resumes, `AgentAnswers` what becomes
  of every call the model makes.

Check it with `dafny verify dfyconfig.toml`.

## Where code and expectation part

Each of these is proved below, with the exact condition and an input or run at which the
expectation fails; the model follows the code.

- `_find_section_id` gives the innermost section containing a block if and only if no later
  section has the same path: the path map keeps the last of equal paths
  (`DocumentTree.FoundSectionIsInnermost`; two headings of one title in
  `DocumentTree.RepeatedTitleMisleads`). Parent lookup through the other dictionary is
  right however many titles repeat, because it is read while it is built
  (`DocumentTree.ParentIsNearestAbove`).
- "Found by both paths ranks above found by one" holds for all repeat-free lists of lengths v and
  w if and only if one is empty or (v - 1)(w - 1) < (rrf_k + 1)^2 (`Hybrid.BothPathsBoundIsExact`).
  Two lists of at most rrf_k + 1 hits are within it; past it, a chunk that is last in both lists
  does not outscore the first of one (`Hybrid.LastInBothLoses`).
- `resume_graph` documents that the human's approval decides whether a high-risk tool runs. On the
  route through the gate it does not: the gate evaluates the call again, without knowing of the
  approval, and refuses. A call that asks and is approved runs if and only if the graph runs tools bare
  (`AgentRuns.ApprovedCallRunsIffBare`; the run in `AgentRuns.ApprovedCallIsRefused`).
- A child chunk's parent is meant to hold it. A child has a parent if and only if one coarse unit
  of its kind has all its blocks, and that unit's first chunk is the parent. The parent's text
  has the child's blocks if the unit is a run of blocks; if it is a split block, every piece of
  it gets the first coarse piece as its parent (`SemanticChunker.ParentIffCoarseUnit`,
  `SemanticChunker.ParentText`, `SemanticChunker.SecondPieceGetsFirstParent`).
- A document is left in PROCESSING with no active job by exactly one kind of step: the reclaim
  pass on a job with no attempt left (`IngestionRuns.StrandedExactlyByLastReclaim`; a run in
  `IngestionRuns.ADocumentCanBeStranded`).
- `_rerank_batches` raises an index error exactly on lists in which two candidates of one chunk
  both improve on everything read before them (`SubQueryBatches.RerankBatches`). Fusion returns
  no such list.

## Model

| member | source | states |
|---|---|---|
| HeadingStack.OpenAfter | app/ingestion/parsers/markdown.py:144-146 | after a heading, exactly itself and the headings strictly above its level that were open stay open |
| HeadingStack.PopThenPush | app/ingestion/parsers/markdown.py:144-146 | popping to the first smaller level and pushing gives the list of open headings that a scan over all headings defines |
| HeadingStack.OpenStackUnique | app/ingestion/parsers/markdown.py:128-147 | the open headings in order are the only list meeting the description of the stack |
| HeadingStack.OpenLevelsIncrease | app/ingestion/parsers/markdown.py:144-146 | levels on the stack strictly increase |
| Text.SplitOfJoin | app/ingestion/parsers/markdown.py:75-81 | splitting joined lines into lines gives them back, but for an empty last line |
| Text.BlankIsAllSpace | app/ingestion/parsers/markdown.py:136 | `not s.strip()` holds exactly of text that is nothing but space |
| Text.StripIs | app/ingestion/parsers/markdown.py:240 | stripping takes away space at the two ends only, and all of it |
| Text.SplitLinesIs | app/ingestion/parsers/markdown.py:73 | the lines with their ends put together are the text; every end but perhaps a missing last one is one breaking character or a carriage return and line feed, which are never parted |
| Markdown.PushHeading | app/ingestion/parsers/markdown.py:144-147 | the stack loop turns the stack of the headings so far into that of the headings with the new one |
| Markdown.FenceEnd | app/ingestion/parsers/markdown.py:163-170 | the code block ends at the first later fence of the same character, or with the document |
| Markdown.RunEnd | app/ingestion/parsers/markdown.py:185-187 | a table, quote or indented run is the longest run of such lines |
| Markdown.IndentedEnd | app/ingestion/parsers/markdown.py:204-220 | indented code is the longest indented run less the blank lines it ends with |
| Markdown.ParagraphEnd | app/ingestion/parsers/markdown.py:268-279 | a paragraph runs up to the first blank or interrupting line after its first |
| Markdown.ListEnd | app/ingestion/parsers/markdown.py:223-249 | the list's last line, and its item blocks in order |
| Markdown.TextBlock | app/ingestion/parsers/markdown.py:163-289 | the block at a non-heading line: kind by the branch order, content, lines and path |
| Markdown.NextBlock | app/ingestion/parsers/markdown.py:140-289 | the block at any non-blank line, and the stack from there on |
| Markdown.ParseBlocks | app/ingestion/parsers/markdown.py:126-291 | terminates; line ranges strictly increase and are disjoint, cover every non-blank line, each block is what its first line opens, each path is the titles of the open headings |
| BlockReading.EveryBlockReads | app/ingestion/parsers/markdown.py:132-289 | every block of a parse, from the lines alone: the kind its first line opens by the branch order, how far it goes, its text, level and list items |
| BlockReading.DedentIs | app/ingestion/parsers/markdown.py:38-42 | dedenting takes one tab, or as many spaces as there are up to four, and nothing else |
| ParseIsUnique.SameEnd | app/ingestion/parsers/markdown.py:163-289 | a block's first line and kind determine its last line |
| ParseIsUnique.ParseIsDetermined | app/ingestion/parsers/markdown.py:126-291 | the description of a parse fits one block list only |
| FrontMatter.ExtractFrontMatter | app/ingestion/parsers/markdown.py:72-82 | header and body are cut at the first delimiter after an opening one, the body's first line number is right, and without a closing delimiter the text is untouched |
| FrontMatter.BodyKeepsLines | app/ingestion/parsers/markdown.py:78-81 | the lines of the rejoined body are the document's lines at the shifted numbers |
| FrontMatter.BlocksDescribeDocument | app/ingestion/parsers/markdown.py:62-63 | content other than headings and dedented code equals the document's lines at the block's range, and every non-blank body line of the document is covered |
| FrontMatter.FirstHeading | app/ingestion/parsers/markdown.py:119-123 | the title of the first heading block, none exactly if there is no heading |
| FrontMatter.ParseDocument | app/ingestion/parsers/markdown.py:49-69 | the blocks are the parse of the document's own lines behind the header, at their own numbers; the title is the header's or else the first heading's; it fails on blank text exactly |
| Sections.NextSiblings | app/ingestion/pipeline.py:475-484 | the monotonic stack gives, for every heading, the first later one of the same or higher level, as a nested scan would |
| Sections.BuildSections | app/ingestion/pipeline.py:453-514 | one section a heading, in order, with its title, path, joined path, level and order; it ends before the next heading of its level or above or with the last line; its parent is the last section before it with the path but for the title |
| Sections.FindSection | app/ingestion/pipeline.py:517-523 | the entry of the longest prefix of the path in the map, none if there is none |
| DocumentTree.ParentIsNearestAbove | app/ingestion/pipeline.py:489-498 | however many headings share a title, the parent found through the dictionary is the nearest earlier heading of strictly smaller level, or none |
| DocumentTree.SectionsFormATree | app/ingestion/pipeline.py:472-512 | of the sections built: none is empty, any two are nested or disjoint, and every parent encloses its child |
| DocumentTree.ParserGivesOpenTitles | app/ingestion/parsers/markdown.py:147-153 | a parse gives every heading the path its place in the outline calls for |
| DocumentTree.ContainsIffOpen | app/ingestion/pipeline.py:472-508 | a section's lines contain a block exactly when its heading is open at the block |
| DocumentTree.PathIsEnclosingSections | app/ingestion/parsers/markdown.py:126-161 | a block's heading path is exactly the titles, outermost first, of the sections whose range contains it: parser and section builder agree |
| DocumentTree.FoundSectionIsInnermost | app/ingestion/pipeline.py:234-237 | the section found for a block is the innermost one containing it if and only if no later section has the same path |
| DocumentTree.RepeatedTitleMisleads | app/ingestion/pipeline.py:234-237 | with two headings of one title, the section found for the paragraph under the first is the second, which does not contain it |
| DocumentTree.SectionOfBlock | app/ingestion/pipeline.py:453-523 | building, indexing and looking up, as one run, with that condition |
| Packing.GreedyIsFewest | app/ingestion/chunkers/token_split.py:44-54 | for a monotone cost, greedy grouping has as few groups as any grouping whose groups fit or are single items |
| Packing.GreedyIsUnique | app/ingestion/chunkers/token_split.py:44-54 | the description of the greedy grouping fits one grouping only |
| TokenSplit.FallbackIsMonotone | app/ingestion/chunkers/token_split.py:36 | the fallback counter never counts less for longer text |
| TokenSplit.CutBehindEveryEnd | app/ingestion/chunkers/token_split.py:13 | the pieces of the boundary split concatenate to the text; each but the last has its only sentence end at its end, and the last has none |
| TokenSplit.NonBlankAreKept | app/ingestion/chunkers/token_split.py:43 | the pieces kept are exactly those that are not just space, each once and in order |
| TokenSplit.PackSentences | app/ingestion/chunkers/token_split.py:44-54 | the parts are the greedy grouping of the pieces: each grown while it fitted, closed only by overflow |
| TokenSplit.SentencePartsAreFewest | app/ingestion/chunkers/token_split.py:39-54 | for a monotone counter no grouping of the sentences into fitting groups or single sentences has fewer parts |
| TokenSplit.SplitByLines | app/ingestion/chunkers/token_split.py:67-82 | the parts are the greedy packing of the lines, cut only where one more line would not fit; each fits or is one line, and no character but line breaks is lost |
| TokenSplit.Split | app/ingestion/chunkers/token_split.py:39-64 | fitting text is untouched; otherwise no character but space is lost, any over-budget result is one line of one sentence, and the result is the greedy parts of the non-blank pieces with only the over-budget ones replaced, in place, by the packing of their lines |
| TokenSplit.FewestIfSentencesFit | app/ingestion/chunkers/token_split.py:39-64 | if every sentence fits and the counter is monotone, the result is as short as any admissible grouping |
| SemanticChunker.EmitTextUnits | app/ingestion/chunkers/semantic.py:123-181 | extends the chunking of the blocks before the pending ones by that of the pending ones |
| SemanticChunker.ChunkFlat | app/ingestion/chunkers/semantic.py:95-121 | every chunk is a run of text blocks of one path within the budget, one whole code block or table, or a piece of an over-long block, with text, raw content, path, lines and token count; every block but the headings arrives, in order and once; no run could take its next block |
| SemanticChunker.ChunkingIsUnique | app/ingestion/chunkers/semantic.py:95-181 | that description fits one list of chunks only, for any counter |
| SemanticChunker.FindContainer | app/ingestion/chunkers/semantic.py:211-224 | the first of the smallest parents of the same kind whose lines contain the child's |
| SemanticChunker.ChunkWithParents | app/ingestion/chunkers/semantic.py:76-93 | every child of the fine chunking once, in order, with its container in the coarse one; code and tables have none |
| SemanticChunker.ParentIffCoarseUnit | app/ingestion/chunkers/semantic.py:211-224 | a child has a parent if and only if one coarse unit of its kind has all its blocks, and the parent is that unit's first chunk |
| SemanticChunker.ParentText | app/ingestion/chunkers/semantic.py:76-93 | the parent's text has all the child's blocks if the coarse unit is a run, and only the first coarse piece if it is a split block |
| SemanticChunker.SecondPieceGetsFirstParent | app/ingestion/chunkers/semantic.py:211-224 | a paragraph over both budgets: the second piece's parent has the first piece's text |
| StableSort.SortIsStable | app/retrieval/hybrid.py:102 | elements that tie keep their order |
| Hybrid.RrfFuse | app/retrieval/hybrid.py:91-103 | ids found by either path, each once with its summed score, up to the limit, by falling score and ties by first occurrence; nothing left out outscores what is in |
| Hybrid.ScoreByPlaces | app/retrieval/hybrid.py:97-101 | on lists without repeats the score is 1 / (rrf_k + rank) for the place in each list that has the id |
| Hybrid.RankingIsComplete | app/retrieval/hybrid.py:98-102 | the ranking holds each id found by either path once, with its summed score |
| Hybrid.RankingIsStableDescending | app/retrieval/hybrid.py:102 | scores descend, and ties stay in order of first discovery |
| Hybrid.CutKeepsTheBest | app/retrieval/hybrid.py:103 | no id outside the cut outscores one inside |
| Hybrid.BothPathsOutrankOne | app/retrieval/hybrid.py:97-101 | within the bound on the two lengths, every id found by both paths strictly outscores every id found by one |
| Hybrid.ShortListsMeetTheBound | app/retrieval/hybrid.py:97-101 | two lists of at most rrf_k + 1 hits are within the bound |
| Hybrid.LastInBothLoses | app/retrieval/hybrid.py:97-101 | past the bound, an id last in both lists does not outscore the first hit of one |
| Hybrid.BothPathsBoundIsExact | app/retrieval/hybrid.py:97-101 | for given lengths the ranking promise holds of all repeat-free lists if and only if the lengths are within the bound |
| SubQueryBatches.RerankBatches | app/services/query_service.py:310-345 | fails with an index error exactly if two candidates of one chunk in one list both improve on all read before them; on lists without repeats it never does, and each batch is its sub-query with exactly those of its candidates, in order, that no list scores higher and no earlier list as high |
| SubQueryBatches.CollisionOneMore | app/services/query_service.py:332-342 | one more candidate brings the failure exactly if it is the best so far and its own list already owns the chunk |
| SubQueryBatches.RepeatsCanCollide | app/services/query_service.py:328-343 | a list on which the failure occurs |
| SubQueryBatches.RepeatsNeedNotCollide | app/services/query_service.py:328-343 | a repeat that outscores all before it does no harm if the first of the two did not improve |
| SubQueryBatches.TakeOver | app/services/query_service.py:332-342 | rewriting the earlier batch removes just the chunk taken over |
| SubQueryBatches.EachChunkInOneBatch | app/services/query_service.py:314-320 | each candidate is in exactly one batch, once, with its maximum score, in the first sub-query attaining it |
| SubQueryBatches.KeptIsSubsequence | app/services/query_service.py:328-344 | a batch is a subsequence of its input |
| SubQueryBatches.BatchesAreDisjoint | app/services/query_service.py:314-320 | no id is in two batches, or twice in one |
| Rerank.CollectParentTexts | app/retrieval/rerank.py:83-86 | every loaded candidate gets its parent's text, if its parent row was loaded |
| Rerank.Rank | app/retrieval/rerank.py:65-136 | if the reranker's first answers per index are in range and enough, chunk k is the row of its k-th answer with its score; else it is the k-th loaded candidate with its fused score; cut to top_n, all columns and the parent's text carried over, and the fallback flag set exactly if a wanted reranker was not used |
| Rerank.ScoreIsOwn | app/retrieval/rerank.py:82-132 | without repeats the fallback gives every candidate its own fused score |
| Rerank.RankKeepsCandidates | app/retrieval/rerank.py:91-136 | for any answer or failure, exactly min(top_n, loaded) distinct candidates come back |
| QueryPipeline.RankMany | app/services/query_service.py:276-286 | the rankings of the batches, one behind the other in batch order, with no id twice |
| QueryPipeline.RankedCandidates | app/services/query_service.py:259-289 | fusion, batching, ranking and sorting composed: every batch's ranking arrives whole and in its own order and nothing else does, sub-query ids ascend, and no id arrives twice, so the context builder's deduplication is the identity |
| QueryPipeline.TextLessIs | app/services/query_service.py:288 | one text sorts before another exactly if at the first difference it ends or has the smaller character |
| ContextBuilder.Dedup | app/retrieval/context/builder.py:73-81 | the first chunk of each id, in order |
| ContextBuilder.CollapseToParents | app/retrieval/context/builder.py:92-110 | the first chunk of each parent, others by id |
| ContextBuilder.ApplyVersionCaps | app/retrieval/context/builder.py:113-122 | the first `cap` chunks of each product and version |
| ContextBuilder.FirstOfEachCounts | app/retrieval/context/builder.py:113-122 | filtering keeps of each key as many as the cap allows, and no fewer |
| ContextBuilder.Select | app/retrieval/context/builder.py:46-66 | the longest prefix of the filtered ranking that fits, over-long parents replaced by the child's own text; the total is the summed cost of the bodies selected |
| ContextBuilder.SelectionIsUnique | app/retrieval/context/builder.py:46-66 | the description of the selection fits one selection only |
| ContextBuilder.SelectionFitsBudget | app/retrieval/context/builder.py:47-66 | the selected bodies never cost more than the budget |
| ContextBuilder.GroupByVersion | app/retrieval/context/builder.py:130-137 | groups in order of first appearance, each in ranking order |
| ContextBuilder.Format | app/retrieval/context/builder.py:125-148 | headers and bodies of the groups, joined |
| ContextBuilder.FormatIsStableGrouping | app/retrieval/context/builder.py:130-148 | formatting permutes the chunks, group by group, keeping ranking order in each; with labels, each group is its label followed by its bodies |
| ContextBuilder.FormattedIs | app/retrieval/context/builder.py:139-148 | the text is the grouped parts, with labels exactly if no version was asked for and there is more than one |
| ContextBuilder.PartShows | app/retrieval/context/builder.py:84-89 | a part is the heading path and the parent's text if expanded, else the raw content, else the text, whichever is first not empty |
| ContextBuilder.LabelNames | app/retrieval/context/builder.py:143-145 | a label names product and version, either alone, or says that the version is unknown |
| ContextBuilder.Build | app/retrieval/context/builder.py:34-70 | in turn: the first chunk of each id; unless a version was asked for, of each product and version those with fewer than the cap before them; with expansion, the first of each parent; then the prefix that fits the budget by the texts shown, a chunk whose parent does not fit cut to its own text if that fits |
| ContextBuilder.CapsHold | app/retrieval/context/builder.py:40-41 | no product and version exceeds its cap in the context built |
| ContextBuilder.RebuildChangesNothing | app/retrieval/context/builder.py:34-70 | building from the chunks of a context gives that context again |
| Sse.SplitIsStream | web/src/lib/api.ts:253-271 | splitting at double newlines and reading each block yields the events of a line-by-line reading |
| Sse.RunYields | web/src/lib/api.ts:257-270 | lines up to an empty one give at most one event: its name the trimmed value of the last event line, its data the JSON of all data lines joined, an empty object without any, and nothing without a name or with broken JSON |
| Sse.Flush | web/src/lib/api.ts:253-271 | yields the events of the text it is given |
| Sse.CutAtBreak | web/src/lib/api.ts:278-282 | a stream may be cut behind any double newline |
| Sse.StreamQuery | web/src/lib/api.ts:273-287 | the buffer loop yields the events of the concatenated chunks |
| Sse.ChunkIndependence | web/src/lib/api.ts:273-287 | two ways of cutting the same text into chunks yield the same events |
| Sse.PrintedStreamReadsBack | app/api/routers/query.py:33-34 | reading what the printer wrote, keep-alive comments in between, gives the events back |
| Sse.RoundTrip | web/src/lib/api.ts:249-287 | the same through the buffer loop, under any chunking |
| Paging.ListPage | app/storage/postgres/repositories/document.py:78-96 | rows behind the cursor by falling creation time and then id, at most the limit; every other row behind the cursor is behind all of them, and there is one exactly if the page says so |
| Paging.ListingIs | app/storage/postgres/repositories/_common.py:12-36 | the query behind a cursor lists exactly the rows past it, each once, newest first |
| Paging.Walk | app/api/pagination.py:34-39 | following the cursors over a changing table: rows newest first, none twice, all from the snapshots, and at the end every row present throughout |
| Paging.WalkStatic | app/api/pagination.py:15-39 | over an unchanging table the pages concatenate to the full listing |
| Reconcile.BatchIs | app/storage/postgres/repositories/chunk.py:126-135 | a batch is the smallest ids past the last one, in order, and leaves out only larger ones |
| Reconcile.ReconcileOrphans | app/services/cleanup_service.py:143-166 | over a changing table: no point whose row was there throughout is deleted, and every point kept had its row in some snapshot, early exit included |
| Reconcile.ReconcileStatic | app/services/cleanup_service.py:143-166 | over an unchanging table exactly the points without a row are deleted |
| IngestionSafety.StepSparesDocuments | app/ingestion/pipeline.py:144-380 | a step of one document's run leaves the rows, vectors and status of every other document alone |
| IngestionSafety.StepKeepsInv | app/ingestion/pipeline.py:144-434 | every commit, external effect, claim, reclaim and crash keeps the invariant on jobs, workers, rows and vectors |
| IngestionRuns.IndexIsConsistent | app/ingestion/pipeline.py:207-380 | in every run a READY document's child chunks are exactly its vector points, every point has a child row, and every row was built under the fingerprint its document stores |
| IngestionRuns.NoOrphans | app/services/cleanup_service.py:143-166 | whatever crashes, ingestion leaves no point without a row for reconciliation to delete |
| IngestionRuns.SkipIsSafe | app/ingestion/pipeline.py:144-173 | a run that is skipped leaves an index that is complete and built with the current fingerprint |
| IngestionRuns.AttemptsAreParses | app/ingestion/pipeline.py:134-176 | attempt_count is the number of committed PARSE transitions |
| IngestionRuns.RaiseRetriesOrFails | app/ingestion/pipeline.py:396-434 | in any run a failure requeues the job exactly if the error is not final and the attempt that failed is not the last, that attempt being counted by PARSE transitions; else job and document fail, by code; nothing else changes |
| IngestionRuns.JobsAreBounded | app/storage/postgres/repositories/ingestion_job.py:94-157 | attempts never exceed the maximum, a PENDING job has one left, and no two live workers share a job or a document |
| IngestionRuns.SettledForGood | app/ingestion/pipeline.py:396-434 | a SUCCEEDED or FAILED job never changes again |
| IngestionRuns.StepKeepsLastTry | app/ingestion/pipeline.py:173-176 | a RUNNING job that has used all attempts has its document in PROCESSING |
| IngestionRuns.StrandedExactlyByLastReclaim | workers/ingestion_worker.py:49-71 | a step leaves a document in PROCESSING without an active job exactly if it reclaims its job on the last attempt |
| IngestionRuns.RunStrandsExactlyByLastReclaim | workers/ingestion_worker.py:49-71 | the same for the last step of any run |
| IngestionRuns.ADocumentCanBeStranded | workers/ingestion_worker.py:49-71 | a run that does so: upload, claim, PARSE transition, crash, reclaim |
| IngestionPipeline.Stores.HandleFailure | app/ingestion/pipeline.py:396-434 | requeue below the maximum and not terminal, else fail job and document, by code |
| IngestionPipeline.Stores.Stop | app/ingestion/pipeline.py:387-434 | an exception requeues or fails the job and its document, a death leaves both; either is one legal step that ends the run |
| IngestionPipeline.Stores.IndexChunks | app/ingestion/pipeline.py:335-385 | vectors one by one, then the closing commit, each a legal step, up to the first point that fails; what the job, the document and the vectors are then |
| IngestionPipeline.Stores.Rebuild | app/ingestion/pipeline.py:178-385 | from the PARSE transition on: partial deletes, the chunk commit and indexing are legal steps, and what they leave at whichever point the run fails |
| IngestionPipeline.Stores.Process | app/ingestion/pipeline.py:112-434 | for any faults: a run ends at the first point that fails, and by that point it is stated what became of the job, its attempt count, the document, its fingerprint, the chunk rows and the vectors; the run is a legal sequence of steps and keeps the invariant |
| IngestionPipeline.OldestFirst | app/storage/postgres/repositories/ingestion_job.py:137-150 | a due job is passed over only when the limit is used up by older ones |
| IngestionPipeline.ClaimIsSteps | app/storage/postgres/repositories/ingestion_job.py:151-157 | one update over several jobs is as good as claiming them one by one |
| IngestionPipeline.ClaimPending | app/storage/postgres/repositories/ingestion_job.py:122-157 | flips at most `limit` due PENDING jobs to RUNNING and no others, none passed over for a younger one; legal steps |
| IngestionPipeline.ReclaimStaleJobs | workers/ingestion_worker.py:40-73 | requeues stale jobs with attempts left, fails the others, touches nothing else; legal steps if no live worker holds them |
| WikiStore.PageOf | app/storage/postgres/repositories/wiki.py:42-50 | a page with the slug, none exactly if no page has it |
| WikiStore.ShadowOf | app/storage/postgres/repositories/document.py:63-76 | the newest live shadow document of the page, none only if all are deleted |
| WikiStore.Store.LoadExistingRevision | app/services/wiki_service.py:219-239 | none exactly if no page has the slug; else that page with its title and the content and version of a revision row that none of its rows exceeds |
| WikiDistill.ExistingIs | app/services/wiki_service.py:219-239 | on sound tables what is read is the latest content, and its version is the number of revisions |
| WikiDistill.IndexIs | app/services/wiki_service.py:368-435 | indexing fails exactly on content that another page's live document has, and otherwise leaves of the page's documents and chunks only the new ones alive and changes no others |
| WikiStore.Store.IndexDb | app/services/wiki_service.py:368-435 | retires the old shadow document and its chunks, adds the new one, or fails on content that is already live |
| WikiStore.Store.AppendRevision | app/services/wiki_service.py:241-292 | conflict on a changed version; a failure leaves every table as it was |
| WikiStore.Store.CreatePage | app/services/wiki_service.py:294-338 | conflict on a taken slug; a failure leaves every table as it was |
| WikiStore.Store.ApplyVectors | app/services/wiki_service.py:437-471 | what either half failing leaves in the vector store |
| WikiRuns.IndexReplaces | app/services/wiki_service.py:387-435 | after indexing, one live document with one live chunk holds the page's new content |
| WikiRuns.IndexLeavesOthers | app/services/wiki_service.py:387-435 | other pages keep theirs |
| WikiRuns.AppendKeepsSound | app/services/wiki_service.py:255-292 | an append of text merged from the latest content keeps every page's history and shadow sound |
| WikiRuns.CreateKeepsSound | app/services/wiki_service.py:305-338 | so does creating a page |
| WikiDistill.StepKeepsInv | app/services/wiki_service.py:128-174 | every event of any distill, in any interleaving, keeps the invariant |
| WikiDistill.NoLostUpdate | app/services/wiki_service.py:219-292 | in every run versions are exactly 1..revision_count, each revision was merged from the content of the one before, and one live document and chunk hold the latest content |
| WikiDistill.ConflictIffChanged | app/services/wiki_service.py:258-269 | a write is refused with a conflict exactly if the page changed, or appeared, since it was read |
| WikiDistill.OnlyLatestIsServed | app/retrieval/rerank.py:41-63 | whatever the candidates and the order of vector writes, only chunks with their page's latest content are served, and each page's is when asked for |
| WikiDistill.LoadRows | app/retrieval/rerank.py:41-63 | on sound tables every row loaded has its page's latest content, and every page whose chunk is a candidate has its row |
| WikiDistill.LivePointStays | app/services/wiki_service.py:437-465 | no vector write takes the point of a live chunk |
| WikiDistill.UpsertedIsRecallable | app/services/wiki_service.py:437-465 | once upserted, a chunk stays in the vector store for as long as it is live |
| WikiDistill.EveryAcceptedAnswerIsServed | app/services/wiki_service.py:128-165 | if merging keeps the existing facts and adds the answer's, the served text says what every accepted answer said |
| WikiDistill.Distill | app/services/wiki_service.py:128-182 | alone: of an existing page it is skipped exactly if the merge of the latest revision is none or blank; refused exactly if another live document has the content; else it appends the next version or creates the page, with the page row, the revision, the reindexed document and the vectors stated; it never meets a conflict |
| ToolGate.WhoMayDoWhat | app/policy/engine.py:19-56 | who is allowed and what asks for approval, by role, risk and settings; never both |
| ToolGate.ExecuteWithPolicy | app/tools/gate.py:51-102 | the trail gets the audit row where one is due and can be written, and the handler call only if allowed and, if high-risk, audited |
| ToolGate.GateIsGuarded | app/tools/gate.py:78-102 | a handler call was allowed, and a high-risk one directly follows its committed audit row |
| AgentGraph.LastTextIs | app/agent/graph.py:212-221 | the answer is the last model message with text, if any has |
| AgentGraph.Graph.ReasonNode | app/agent/graph.py:117-119 | one model message and one more round, with the budget checked before the tool calls |
| AgentGraph.Graph.Collect | app/agent/graph.py:147-159 | a call starts out approved exactly if it does not ask; those that ask are pending |
| AgentGraph.Graph.ApproveNode | app/agent/graph.py:121-172 | run from the top, first or again: suspends exactly the first time, in interrupt mode, if a call asks; else approves exactly what does not ask, and all of it after an approving resume; runs no tool |
| AgentGraph.Graph.RunCall | app/agent/graph.py:180-209 | what becomes of one call |
| AgentGraph.Graph.ActNode | app/agent/graph.py:174-210 | every call once, in order, each answered, with the entries it leaves |
| AgentGraph.Graph.FinalizeNode | app/agent/graph.py:212-221 | answers with the last model text |
| AgentSafety.EntriesFit | app/agent/graph.py:180-209 | the handler calls of a round were let through, guarded if gated, and come in call order |
| AgentSafety.RoundKeepsSound | app/agent/graph.py:174-210 | a round whose asking calls were approved keeps the whole trail sound |
| AgentRuns.StepKeepsInv | app/agent/graph.py:117-243 | every node, interrupt and resume keeps the invariant |
| AgentRuns.HandlersRunOnce | app/agent/graph.py:121-210 | across any interrupts and resumes no call reaches its handler twice, one that asks only after an approving resume, and through the gate only if allowed and, if high-risk, audited just before |
| AgentRuns.RoundsAreBounded | app/agent/graph.py:223-228 | reason runs at most max(1, max_iterations) times, act at least once less |
| AgentRuns.EveryRunEnds | app/agent/graph.py:223-243 | a run has at most 4 * max(1, max_iterations) + 2 steps, and until its end a step is possible |
| AgentRuns.RejectModeNeverWaits | app/agent/runner.py:313-324 | in the runner's mode no run ever waits for a human |
| AgentRuns.RejectModeRunsNothingThatAsks | app/agent/runner.py:313-324 | in that mode no handler call answers a call that asks for approval |
| AgentRuns.ApprovedCallRunsIffBare | app/agent/graph.py:332-340 | after an approving resume an asking call runs exactly if the route is bare |
| AgentRuns.ApprovedCallIsRefused | app/agent/graph.py:332-340 | a run through the gate that stops for approval, is approved, and calls no handler |
| AgentAnswers.AsksExactly | app/agent/graph.py:121-158 | a call asks exactly if its tool is known, the user is no admin, and the tool's mark or the policy says so |
| AgentAnswers.ApprovedIffFreeOrGranted | app/agent/graph.py:147-172 | in any run, when act is about to run, a call of the round is approved if and only if it does not ask or the human approved the round |
| AgentAnswers.EveryCallIsAnswered | app/agent/graph.py:174-210 | in any run, every call of a round reaches its handler exactly once if its tool is known, no approval is missing and the route lets it through, and never otherwise; its reply is the output or names what stopped it; the gate audits exactly what it denies and all above low risk |
| AgentAnswers.RepliesGoOnOrEnd | app/agent/graph.py:223-228 | calls are taken up exactly while the budget lasts; a reply without calls, or the one that uses up the budget, leads to the answer |
| AgentAnswers.LastReplyIsTheAnswer | app/agent/graph.py:212-228 | a reply that says something and calls no tool is the answer |

## Left out

- HTTP, Redis, Qdrant, SQLAlchemy, the LLM, embeddings and LangGraph's engine: they appear as maps, sets, failing steps and arbitrary replies.
- The regular expressions of the Markdown parser (one predicate a pattern), the token counter, the embedding-based splitter and the table normaliser: parameters, any functions.
- The parsing of the YAML header (its title entry is a parameter), and the HTML and PDF parsers.
- UTF-8 decoding on the server and the stream decoder in the browser: the model starts from decoded text; JSON and cursor text are inverse functions where a round trip needs it.
- Rounding of scores: real arithmetic.
- Negative and zero settings where the API or the settings validation excludes them: the page limit and batch size are at least 1, the attempt maximum at least 1.
- FrontMatter.ParseDocument: leaves out the metadata dictionary, which passes the header and the caller's values on.
- Paging.ListingIs: leaves out the ascending branch of `_apply_cursor`, because every caller passes `descending=True`.
- SubQueryBatches.RerankBatches: on lists with repeated ids only whether it fails is stated, because fusion returns none; what its batches then hold is not.
- Paging.Walk: the cursor is decoded by an inverse of its encoding; rejecting a malformed cursor with 400 is not stated.
- Liveness of ingestion. Any stage may fail in the model, which includes inserting parent rows (app/ingestion/pipeline.py:292-304 leaves out two arguments that `_to_chunk` requires).
- Sections and metadata written during ingestion: only chunk rows, vectors, fingerprint and status are in the protocol.
- The text of chunk rows in the ingestion protocol: a row records the fingerprint of the run that built it. Settings that are not part of the fingerprint, such as the chunk sizes, do not trigger a rebuild and are not modelled.
- The Redis fast path, which processes a job without claiming it; deletion of documents; two simultaneous reindex requests, which could both find no active job: the guard and the insert are one step here.
- Stale-timeout reclaim of a job whose worker is alive but slow: the protocol's reclaim step is for jobs no live worker holds.
- A vector write that is still under way when its worker dies and takes effect later.
- `delete_page` racing a distill, physical purging of soft-deleted rows, and interleaving inside one wiki transaction, which is one step.
- Reading the trace and the first extraction of a distill, slug normalisation, summaries and evidence lists.
- Repeating `act` after a crash inside it: the checkpoint is taken between nodes.
- Truncation of audited arguments, filtering of tool arguments by schema, and metrics.
