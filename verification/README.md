# MARK, modelled and proved in Dafny

MARK is a local memory for language-model agents.  This project models the parts of it whose behaviour is
decided by state and loops, and proves what they are for:

* the vector index (`Ranking`, `VectorBackends`, `NumpyBackend`, `NumpySearch`, `SearchSpec`, `BackendRuns`,
  `SearchRaces`, `IndexSpec`, `VectorIndexes`, `IndexRaces`, `BulkLoad`): a dict backend and a matrix backend
  with dead rows, compaction and shared snapshots answer every search alike, also across promotion in
  mid-life, and a search, of one partition or of the whole index, that races with mutations reports nothing
  that was not there;
* score propagation through the memory graph (`GraphExpansion`);
* two concurrent protocols as step systems: one server per database (`ServerLock`), and the self-stopping
  worker thread (`WatchWorker`);
* the token budget (`Budget`, `BudgetLaws`, `BudgetEstimate`), for every counter and renderer;
* chunked ingest that survives the death of the server, and the facts that do not (`Ingest`);
* replaced lines and their order in a briefing (`Outdated`, `Reordering`), relative dates (`Dates`), chunk
  packing (`Chunking`), the best passage of a long memory (`PassageWindow`), the LRU embedding cache
  (`EmbeddingCache`), the conversation window (`History`) and the HTTP reader (`Wire`).

Where the source updates state in place (arrays, dicts, lists shared with snapshots, counters), the model
does too: classes and methods with loops, each proved against a function of its inputs or of the old state.
The laws are then lemmas about those functions.  Vectors have exact real components; texts are sequences of
characters; Python's dicts are association lists in insertion order (`Assoc`).  Parts that only look at
text (regular expressions, stemming, tokenising, number parsing, the embedder, the token counter, the
renderer) are parameters, arbitrary unless a contract says otherwise.

`dafny verify dfyconfig.toml` checks the whole project.

## Findings

Where the code does not do what its comments or documentation say, the model follows the code; the exact
condition under which the two agree is proved, and an input on which they do not.

| location | as written | input | intended | confidence |
|---|---|---|---|---|
| src/mark/intelligence/index_bulk_load.py:69-72 | an accepted delta leaves the allowed ids if and only if the partition held what the previous scope keeps (`BulkLoad.AcceptedIff`) | the synced "a" is removed from the index and "b" added; the next delta adds nothing and is accepted (`BulkLoad.AcceptedThoughWrong`) | equal sizes mean equal sets | proved |
| src/mark/_cli/client.py:210-212 | the skipped count is right if and only if no chunk that skips a line is followed by one that skips none (`Ingest.SkippedIsTotalIff`) | a chunk with a refused line, then one without (`Ingest.SkippedLost`) | the counts add up (client.py:198) | proved |
| src/mark/_cli/client.py:186-190 | a chunk is one transaction per kind group: a dying server leaves all or nothing of it if and only if its accepted lines are of one kind (`Ingest.OneTransactionIff`); the ids make the retry safe all the same (`Ingest.EveryScheduleStoresTheSame`) | two lines of two kinds, and a death after the first group (`Ingest.HalfAChunk`) | each chunk is one transaction | proved |
| src/mark/memory/facade/write_batch.py:128-130 | facts are extracted after the commit, and a retry extracts only for what it newly stores: an ingest ends with the facts of all it stored if and only if no server death falls between a commit and the extraction for its new ids (`Ingest.FactsCompleteIff`) | one line, and a death just after its commit (`Ingest.FactsLost`) | the idempotency key makes retries safe (write_batch.py:93-96) | proved |
| src/mark/context/history.py:130-138 | an orphaned tool result (no assistant message before it) is kept if and only if one is among the newest keep_last messages, behind some other message or with nothing dropped at all (`History.OrphansKeptIff`) | a lone tool result (`History.OrphanExample`); a question, a tool result and an answer of which two are asked for (`History.OrphanBehindQuestion`) | orphans are dropped (history.py:16-18) | proved |
| src/mark/context/history.py:133-135 | the window is extended to the message in front of the results, whoever wrote it; to an assistant's for every kept result if and only if it is for those among the newest keep_last (`History.CallsAreAssistantsIff`) | the same question, tool result and answer (`History.OrphanBehindQuestion`) | extended to the assistant message that made the calls (history.py:16-17) | proved |
| src/mark/context/watch_render.py:231-233 | lines moved to one anchor stand newest first if and only if no two differ in time (`Reordering.OldestFirstBetween`) | two lines of different age replaced by one (`Reordering.OldestFirstExample`) | newest first between them (watch_render.py:225) | proved |
| src/mark/intelligence/passage_window.py:28-32 | for limits of 1 and 2 the marks for what was left out may exceed the limit; it is kept if and only if `TinyFits` holds of the memory, its hits and the limit: a blank at the first of the rarest hits (or the start), at an end of the memory for 1 (`PassageWindow.Window`, `PassageWindow.TinyFitsIff`) | the middle of "abc" with a limit of two (`PassageWindow.TinyExample`) | a window of at most max_chars | proved |
| src/mark/documents/chunking.py:155-155 | packing raises if and only if a fence over the hard cap has no marker on its first line or no plain line (`Chunking.PackBlocks`) | a fence of one long line (`Chunking.FenceWithoutLines`) | an oversized fence is split (chunking.py:198) | proved |
| src/mark/embeddings/cache.py:49-78 | a batch uses its hits before its misses; the order asked for would leave the same texts cached, whatever was cached before, if and only if the batch's different texts all fit (`EmbeddingCache.SameCacheIff`) | room for one text, "a" cached, "b" and "a" asked for: "b" stays (`EmbeddingCache.LostExample`) | the least recently used text goes | proved |
| src/mark/context/budget.py:172-173 | for the briefing renderer the measured overhead is 0 though its tags cost 33 characters; only the verification loop keeps the cap (`BudgetLaws.BriefingOverheadIsZero`) | two records of 1 and 5 characters under a cap of nine tokens: both are picked, the second is removed again (`BudgetLaws.BriefingExample`) | the wrapper's tags are measured | proved |
| src/mark/_cli/wire.py:64-81 | the result is independent of how the bytes arrive, except exactly for a well-formed response with a negative length shorter than what follows its head (`Wire.PiecesIrrelevantIff`) | "Content-Length: -1" with the body "ab" (`Wire.NegativeLengthExample`) | complete means complete | proved |
| src/mark/_cli/wire.py:30-37 | the body has the announced length if and only if that many bytes came; no error otherwise (`Wire.FullLengthIff`) | "Content-Length: 5", then "ab" and the end (`Wire.CutShortExample`) | a network failure raises (wire.py:22) | proved |

## Model

| member | source | states |
|---|---|---|
| Ranking.MergeTops | src/mark/index/vector.py:213-233 | cutting every partition to its own best k first loses nothing: the best k of the rest are the best k of all partitions together |
| VectorBackends.PythonPartition.Add | src/mark/index/vector_backends.py:28-29 | an insertion-ordered dict: a new id goes last, a known one keeps its place |
| VectorBackends.PythonPartition.Remove | src/mark/index/vector_backends.py:31-32 | the id is gone, all others keep their order |
| VectorBackends.PythonTop | src/mark/index/vector_backends.py:50-57 | the hits are the best k of the entries in scope by score, then insertion order, best first |
| NumpyBackend.NumpyPartition.Add | src/mark/index/vector_backends.py:97-109 | the live rows in row order change as the dict would; growth and the in-place overwrite leave every snapshot's promise intact |
| NumpyBackend.NumpyPartition.AddMatrix | src/mark/index/vector_backends.py:111-122 | the block follows the entries that were there, in order, whatever capacity was expected; snapshots hold |
| NumpyBackend.NumpyPartition.Remove | src/mark/index/vector_backends.py:124-138 | the live rows lose exactly this id and keep their order, also when the removal triggers a compaction; snapshots hold |
| NumpyBackend.NumpyPartition.Grow | src/mark/index/vector_backends.py:144-155 | room for the needed rows in a fresh matrix; entries, id list and row map as before; snapshots keep the old arrays |
| NumpyBackend.NumpyPartition.Compact | src/mark/index/vector_backends.py:157-169 | dropping the dead rows changes no entry and no order, in fresh objects, so that every snapshot still holds |
| NumpyBackend.NumpyPartition.TakeSnapshot | src/mark/index/vector_backends.py:171-172 | a snapshot shares the partition's own arrays; from here on every operation keeps its promise |
| NumpyBackend.NumpyPartition.SharedStep | src/mark/index/vector_backends.py:97-142 | any step that adds rows, overwrites live rows with vectors of their own id or kills rows keeps what every snapshot counts on: a row never passes to another id and holds a vector once stored for its id |
| NumpySearch.CandidatesEnough | src/mark/index/vector_backends.py:190-199 | cutting at the k-th score keeps all ties: a row left out scores strictly below at least k rows kept |
| NumpySearch.TopExact | src/mark/index/vector_backends.py:174-211 | masked rows scored at minus infinity and skipped rows do not disturb the answer: the hits are exactly the best k reportable rows |
| NumpySearch.Top | src/mark/index/vector_backends.py:174-211 | safe on any snapshot, and the exact best k rows when none it shows was removed since |
| SearchSpec.PositionsDoNotMatter | src/mark/index/vector.py:213-240 | whichever increasing numbers stand for insertion order (list positions, or matrix rows with gaps), the best k hits are the same |
| SearchSpec.SearchExact | src/mark/index/vector.py:196-240 | searching every partition for its own best k and ranking the results gives the first k of all matching vectors by score, partition order and insertion order |
| BackendRuns.RunNumpy | src/mark/index/vector_backends.py:63-211 | after any run of adds, re-adds, block appends and removals the live rows are the entries a dict would hold, in its order |
| BackendRuns.RunPython | src/mark/index/vector_backends.py:22-60 | the same for the dict backend, so the two backends refine one specification |
| BackendRuns.SearchNumpy | src/mark/index/vector_backends.py:171-211 | a search of a quiet matrix partition: the best k entries, at their rows |
| BackendRuns.SameAnswers | src/mark/index/vector_backends.py:22-211 | for every run of operations, query, k and scope both backends return the same ids with the same scores in the same order, those of the specification |
| SearchRaces.SearchDuring | src/mark/index/vector_backends.py:97-211 | other threads may run any operations before every single look-up, score, mask and id read of a search: its hits are in rank order, at most k, no row and no id twice, each live when the snapshot was taken at the row it had then, in scope, scored with a vector stored for that id |
| IndexRaces.SearchDuring | src/mark/index/vector.py:196-240 | the search of the whole index, any calls of other threads (adds, moves, bulk adds, removals, clearing, promotion) running before each access once the lock is given up: the hits of all partitions are in rank order, at most k, no id twice, each in its partition when the search began, in scope, scored with a vector stored there; what is returned is those above the minimum score |
| IndexRaces.MergedSafe | src/mark/index/vector.py:213-233 | safe hits of several snapshots, merged and cut to k, are safe together: no id twice, because no id was in two partitions when the snapshots were taken |
| IndexSpec.AddKeeps | src/mark/index/vector.py:81-113 | adding or moving a vector keeps: an agent's partition holds an id exactly when the agent owns it, no partition is empty, contents belong to owned ids; the vector is found where it was put |
| IndexSpec.RemoveKeeps | src/mark/index/vector.py:132-142 | removal keeps the same, and the id has no owner any more |
| IndexSpec.ClearKeeps | src/mark/index/vector.py:177-194 | clearing one agent keeps the same and leaves it nothing |
| IndexSpec.OneOwner | src/mark/index/vector.py:48-113 | an owned id is in its owner's partition and in no other |
| IndexSpec.BlockIsAdds | src/mark/index/vector_bulk.py:32-64 | for new distinct ids one block append gives the index that adding the vectors one by one gives |
| VectorIndexes.VectorIndex.Add | src/mark/index/vector.py:81-113 | which embeddings are refused and why; else the index of the specification, the revision one higher, whether or not the add promotes; a refusal changes nothing |
| VectorIndexes.VectorIndex.AddMany | src/mark/index/vector_bulk.py:17-64 | it succeeds exactly when there are no ids, or as many embeddings as ids, all of the index's (or one common) width and not empty; then the index is that of adding one by one, on the block path, the per-vector path and across promotion |
| VectorIndexes.VectorIndex.Remove | src/mark/index/vector.py:132-142 | the specified index; the revision moves only if the id was there; the dimension is forgotten with the last vector |
| VectorIndexes.VectorIndex.Clear | src/mark/index/vector.py:177-194 | everything, or one agent's vectors, owners and contents, are gone and nothing else; when the dimension is forgotten |
| VectorIndexes.VectorIndex.Count | src/mark/index/vector.py:159-165 | all vectors, or the agent's |
| VectorIndexes.VectorIndex.Missing | src/mark/index/vector.py:167-175 | exactly the given ids the agent's partition lacks |
| VectorIndexes.VectorIndex.Promote | src/mark/index/vector_bulk.py:67-87 | switching every partition to the matrix backend leaves entries, order, owners, contents and revision as they were |
| VectorIndexes.VectorIndex.Search | src/mark/index/vector.py:196-240 | the answer of the specification over the searched partitions, whatever their backend, cut at the minimum score, with contents; nothing for k of 0 or less; which queries are refused |
| BulkLoad.AcceptedIff | src/mark/intelligence/index_bulk_load.py:69-72 | an accepted delta leaves exactly the allowed ids if and only if the partition held what the previous scope keeps |
| BulkLoad.AcceptedThoughWrong | src/mark/intelligence/index_bulk_load.py:45-73 | a real index on which the delta is accepted with the wrong ids |
| BulkLoad.AddFrom | src/mark/intelligence/index_bulk_load.py:199-208 | exactly the ids with a usable vector are indexed, the others are returned; no failure when the widths agree |
| BulkLoad.SyncDelta | src/mark/intelligence/index_bulk_load.py:45-73 | a result means the counts agree, and equality with the scope exactly under the condition of `AcceptedIff`; when the delta applies and every added id can be supplied the partition loses the removed and gains the added ids, and it returns a result exactly when the counts agree |
| BulkLoad.RestoreSnapshot | src/mark/intelligence/index_bulk_load.py:140-178 | without a large cold start, numpy and a snapshot of the right dimension nothing is touched; else the partition is the snapshot's wanted ids and the ids left are exactly the wanted ones not loaded; when a load fails; when a snapshot should be saved |
| BulkLoad.LoadSnapshot | src/mark/intelligence/index_bulk_load.py:163-177 | the difference may be skipped when the counts agree: what is left is still exactly what is missing |
| GraphExpansion.PopFirst | src/mark/intelligence/graph_expansion.py:57-58 | the first entry by score, id and hops, and all the others |
| GraphExpansion.NoBetterPath | src/mark/intelligence/graph_expansion.py:56-85 | once the heap is empty no path beats the best score of its last node |
| GraphExpansion.Expand | src/mark/intelligence/graph_expansion.py:28-87 | no seed score is lowered and every other score is that of a path of 1 to limit hops; when the limit is at least the number of nodes and weights damp, every fragment has at least the score of every path to its nodes, so its score is the maximum |
| ServerLock.OneServer | src/mark/_cli/server.py:156-215 | in every interleaving with crashes anywhere, at most one process is past the inode check and not yet unlinked; the path names the file it locked; the lock file has its pid and the state file its token |
| ServerLock.UnlinksOnlyItsOwn | src/mark/_cli/server.py:136-215 | a leaving server unlinks only its own lock file and its own state file, and no other server is past the check then |
| ServerLock.LockAloneIsNotEnough | src/mark/_cli/server.py:169-177 | a run in which one process holds the lock of an unlinked file while another has passed the check: the inode comparison is needed |
| WatchWorker.OneWorkerInOrder | src/mark/context/watch_worker.py:46-79 | in every interleaving at most one thread is alive, and tasks start in the order they were submitted |
| WatchWorker.WorkIsServed | src/mark/context/watch_worker.py:46-79 | while not stopped and no submit is inside its lock, a non-empty queue has a worker that has not committed to exit |
| WatchWorker.NothingLeftBehind | src/mark/context/watch_worker.py:46-96 | once a stop call has drained the queue, none holds a task and the worker has left, every future ever queued is finished or cancelled |
| Budget.OneOrder | src/mark/context/budget.py:170-171 | the priority order of a set of items is unique |
| Budget.LongestCut | src/mark/context/budget.py:207-218 | a cut the binary search finds fits; when shorter cuts never cost more it is the longest that fits, and none is found only if none fits |
| Budget.LengthCounterDownwardClosed | src/mark/context/budget.py:207-218 | shorter cuts never cost more under render_lines when the counter grows with the length |
| Budget.Truncate | src/mark/context/budget.py:207-218 | the binary search of the source returns that cut of the item |
| Budget.Fit | src/mark/context/budget.py:162-205 | the dict, the set of groups and the verification loop compute the specified fit |
| BudgetLaws.FitKeepsPriorityPrefix | src/mark/context/budget.py:162-205 | for every counter and renderer the text is within the cap; the items kept are, in input order, the longest run of picks from the highest priority that fits; only the very first may be cut |
| BudgetLaws.RefitIsSame | src/mark/context/budget.py:162-205 | fitting the kept items again keeps them all with the same text, when nothing was cut |
| BudgetLaws.Usage | src/mark/context/budget.py:220-232 | an entry for exactly the sections that occur, each with its own counts |
| BudgetLaws.UsageCountsEveryItem | src/mark/context/budget.py:92-99 | included over the sections is the number of items kept, and included plus dropped the number of items |
| BudgetLaws.BriefingOverheadIsZero | src/mark/context/watch_render.py:98-105 | the briefing's measured overhead is 0 though its tags add 33 characters, and the cap holds all the same |
| BudgetLaws.BriefingExample | src/mark/context/budget.py:172-205 | a briefing whose second item is picked with tokens to spare, and removed by the verification loop |
| BudgetEstimate.RenderedChars | src/mark/context/budget.py:122-131 | with contiguous groups a rendering has exactly the characters of its lines and of one header per group |
| BudgetEstimate.EstimatesSuffice | src/mark/context/budget.py:173-205 | with the default counter, render_lines and contiguous groups the charged costs bound the real count: verification removes nothing |
| Ingest.CmdIngest | src/mark/_cli/engine.py:71-95 | group by group, the store gains exactly the ids of the chunk's valid texts, the report counts new, existing and refused ones, and the ids that gain facts are exactly the newly stored ones |
| Ingest.IdsDiffer | src/mark/memory/facade/write_batch.py:56-61 | different lines of a chunk, equal texts included, are stored under different ids |
| Ingest.OneTransactionIff | src/mark/_cli/client.py:186-190 | a dying server leaves all or nothing of a chunk exactly when the accepted lines are of one kind |
| Ingest.HalfAChunk | src/mark/_cli/client.py:186-190 | a chunk of which half is left |
| Ingest.ChunksAreTheLines | src/mark/_cli/client.py:216-226 | the chunks in order are the lines; each is within the size cap or one line; none could have taken the next line |
| Ingest.IngestInChunks | src/mark/_cli/client.py:183-226 | the loop with its growing chunk, switching to in-process when the server dies, sends exactly those chunks |
| Ingest.EveryScheduleStoresTheSame | src/mark/_cli/client.py:183-226 | wherever the server dies and whatever part of the chunk it had committed, the store ends up with exactly the ids of the lines, and stored plus existing counts every valid line once |
| Ingest.SameAsInProcess | src/mark/_cli/client.py:183-226 | an ingest through a server leaves the store and the total of an in-process ingest |
| Ingest.RerunAddsNothing | src/mark/_cli/client.py:183-226 | running lines again that are stored changes nothing and reports nothing stored |
| Ingest.StoredIsNew | src/mark/_cli/client.py:209-212 | stored never overstates what is new, and is exact when no server died |
| Ingest.SkippedIsTotalIff | src/mark/_cli/client.py:210-212 | the skipped total is right exactly when no chunk that skips a line is followed by one that skips none |
| Ingest.SkippedLost | src/mark/_cli/client.py:210-212 | lines whose refused line is not reported |
| Ingest.LostFactsStayLost | src/mark/memory/facade/write_batch.py:112-130 | whatever the deaths, the ids left without facts are those without any before and those a dying server committed and did not get to; no retry gives them facts |
| Ingest.FactsCompleteIff | src/mark/_cli/client.py:183-226 | an ingest has the facts of all it stored exactly when no death falls between a commit and the extraction for its new ids |
| Ingest.FactsLost | src/mark/_cli/client.py:183-226 | one line stored, its facts never extracted |
| Outdated.TimedOk | src/mark/context/outdated.py:123-124 | one fragment per id, oldest first |
| Outdated.NoPairMissed | src/mark/context/outdated.py:114-122 | no pair outside the index's candidates could match |
| Outdated.ReplacedByIndex | src/mark/context/outdated.py:114-142 | the indexed search, newest candidate first, gives exactly what comparing every pair gives |
| Outdated.LinksGoForward | src/mark/context/outdated.py:114-142 | a line has a link exactly when a strictly later line replaces it, and then to the newest such line |
| Reordering.AfterReplacement | src/mark/context/watch_render.py:224-234 | every anchor is found; the result is a permutation; lines that stay keep their order; with distinct ids each moved line follows its replacement with only moved lines in between |
| Reordering.PoolLinksForward | src/mark/context/watch_render.py:178-178 | links computed over a pool go forward between any lines picked from it, which is what the anchors rest on |
| Reordering.OldestFirstBetween | src/mark/context/watch_render.py:224-234 | lines of one anchor that differ in time stand oldest first; the documented newest-first order holds exactly when no two differ |
| Reordering.OldestFirstExample | src/mark/context/watch_render.py:224-234 | two lines of one anchor, the older first |
| Dates.RangesPartition | src/mark/intelligence/date_parsing.py:253-264 | a unit's range contains the date, and is the range of exactly the dates it contains: no overlap |
| Dates.NextRangeFollows | src/mark/intelligence/date_parsing.py:253-264 | the day after a range starts the next one: no gap |
| Dates.ShiftMovesWholeRanges | src/mark/intelligence/date_parsing.py:241-250 | shifting by n units lands exactly n ranges later or earlier, in spite of month-end clamping |
| Dates.RelativeWeekdayUnique | src/mark/intelligence/date_parsing.py:217-223 | the resolved day is the only one of its weekday in the 7 days strictly before, strictly after, or in the reference's week |
| Dates.NamedMonthUnique | src/mark/intelligence/date_parsing.py:164-198 | a last or next named month is the only such month among the 12 before or after |
| Dates.PastIsARange | src/mark/intelligence/date_parsing.py:206-212 | a past-n-units range starts no later than it ends |
| Dates.ClaimsAreDisjoint | src/mark/intelligence/date_parsing.py:116-129 | claimed spans never overlap, are resolvable matches, and a resolvable match that is free in its turn is claimed |
| Dates.ClaimedIff | src/mark/intelligence/date_parsing.py:116-129 | a match is left out exactly when it does not resolve, or an earlier claim that is not the same match overlaps it |
| Dates.FindDates | src/mark/intelligence/date_parsing.py:108-129 | the claimed spans in text order; each ends before the next begins when matches are not empty |
| Chunking.Tail | src/mark/documents/chunking.py:213-225 | the longest suffix without a fence that fits the overlap and the room |
| Chunking.SplitWords | src/mark/documents/chunking.py:185-194 | every word once and in order; each part fits or is one word; no part could have taken the next word |
| Chunking.WordsKeepTokens | src/mark/documents/chunking.py:35-38 | the tokens of a text are those of its words |
| Chunking.BlockFacts | src/mark/documents/chunking.py:172-210 | a block's parts hold all its tokens, but for an oversized fence; each fits, is a whole fence within the cap, is one word, or re-fences lines of a larger fence within the cap or one line; there is none exactly when an oversized fence has no plain line |
| Chunking.SplitBlock | src/mark/documents/chunking.py:172-182 | the parts of a block: itself, the parts of an oversized fence, or its sentences' parts in order; it fails exactly for an oversized fence without its marker on the first line |
| Chunking.SplitLines | src/mark/documents/chunking.py:197-210 | every plain line once and in order, in fences of their own with the first line and the marker; lines that fit together stay together; it fails exactly when the first line is no fence |
| Chunking.LinesAreTheText | src/mark/documents/chunking.py:199-199 | the lines joined again are the text |
| Chunking.PartsIffLines | src/mark/documents/chunking.py:202-210 | no part is made exactly when the fence encloses no plain line |
| Chunking.FenceTokens | src/mark/documents/chunking.py:197-210 | the plain lines keep their tokens; each part adds those of its first and last line, and marker lines inside are lost |
| Chunking.PackBlocks | src/mark/documents/chunking.py:150-169 | it fails exactly when a block cannot be split; else the bodies are contiguous runs that cover every piece in order, no token is lost outside oversized fences; a body over the budget is one whole fence, re-fenced lines of a larger one, or one word; each body repeats only the overlap of the one before, a fence-free suffix that left room for the piece |
| Chunking.FenceWithoutLines | src/mark/documents/chunking.py:155-155 | a fence of one long line, which cannot be packed |
| PassageWindow.BestSpan | src/mark/intelligence/passage_window.py:52-67 | the sliding scan with running counts finds the first span of the highest distinct-term weight: none outweighs it, every earlier one weighs less |
| PassageWindow.BestOfAllWindows | src/mark/intelligence/passage_window.py:35-67 | no window of that size, wherever it starts, holds more distinct-term weight than the best span |
| PassageWindow.BestStart | src/mark/intelligence/passage_window.py:35-74 | the start centres the window on the outermost rarest terms of the first best span, inside the memory |
| PassageWindow.OneStart | src/mark/intelligence/passage_window.py:35-74 | which start that is, is determined by the memory's hits, its length and the size alone |
| PassageWindow.FocusInWindow | src/mark/intelligence/passage_window.py:68-74 | all rarest terms of the best span start in the window; one at the far end may start just after it, in one case only |
| PassageWindow.SnapInside | src/mark/intelligence/passage_window.py:77-90 | snapping never widens a window and never empties it |
| PassageWindow.Window | src/mark/intelligence/passage_window.py:22-32 | the memory itself when it fits; else a non-empty slice inside the window centred on the first best span, with snapped edges; the rendering is at most max_chars exactly when the limit is not 1 or 2, the memory fits, or `TinyFits` holds of the inputs |
| PassageWindow.StartsTiny | src/mark/intelligence/passage_window.py:35-74 | a window of one character is put at the first of the rarest hits, or at the start without hits |
| PassageWindow.TinyFitsIff | src/mark/intelligence/passage_window.py:28-32 | when the rendering of a window for 1 or 2 characters fits, from the memory, its hits and the limit |
| PassageWindow.TinyExample | src/mark/intelligence/passage_window.py:28-32 | three characters for a limit of two, where `TinyFits` fails |
| EmbeddingCache.RecentByLastUse | src/mark/embeddings/cache.py:49-78 | what most recently used means: each used text once, by its last use |
| EmbeddingCache.HoldsTheMostRecent | src/mark/embeddings/cache.py:49-78 | a cache within its size holds exactly the maxsize most recently used texts |
| EmbeddingCache.SameCacheIff | src/mark/embeddings/cache.py:49-78 | counting a batch's hits before its misses leaves what the order asked for would leave, for every history, exactly when the batch's different texts fit into the cache |
| EmbeddingCache.LastAskedLost | src/mark/embeddings/cache.py:49-78 | for every batch of more different texts: a history after which the text asked for last is not cached |
| EmbeddingCache.LostExample | src/mark/embeddings/cache.py:49-78 | room for one text, and the one asked for last is gone |
| EmbeddingCache.CachedEmbeddingProvider.Create | src/mark/embeddings/cache.py:20-28 | a maxsize below 1 is refused; else an empty cache |
| EmbeddingCache.CachedEmbeddingProvider.EmbedBatch | src/mark/embeddings/cache.py:49-78 | every text gets its own embedding, duplicates and batches over the cache size included; hits plus misses grow by the texts asked for, misses by the distinct new ones; the cache again holds exactly the most recently used texts |
| EmbeddingCache.CachedEmbeddingProvider.Clear | src/mark/embeddings/cache.py:92-97 | nothing is cached and nothing counted |
| History.SplitHistory | src/mark/context/history.py:124-145 | the loops that move the window's start compute the declarative rule of which messages stay |
| History.SplitPartitions | src/mark/context/history.py:140-145 | kept and dropped are complementary parts of the messages, each in order; every system message is kept |
| History.WindowIsSafe | src/mark/context/history.py:124-145 | when something is dropped: a kept tool result is kept with the message its results follow and all between, what follows a kept window message is kept, the last user message is kept, and of the newest keep_last only results with nothing else before them go |
| History.SplitIdempotent | src/mark/context/history.py:124-145 | splitting the kept messages again keeps them all |
| History.OrphansKeptIff | src/mark/context/history.py:130-138 | a tool result with no assistant message before it is kept exactly when one is among the newest keep_last messages, behind another message or with nothing dropped |
| History.CallsAreAssistantsIff | src/mark/context/history.py:132-135 | every kept result is kept behind an assistant message exactly when those among the newest keep_last follow one |
| History.OrphanExample | src/mark/context/history.py:130-131 | a lone tool result is kept |
| History.OrphanBehindQuestion | src/mark/context/history.py:132-145 | a question, a tool result and an answer: the window is extended to the question and the orphan kept |
| Wire.Receive | src/mark/_cli/wire.py:27-37 | the receive loop reads exactly as far as the specified reader |
| Wire.CompleteStable | src/mark/_cli/wire.py:64-81 | a complete response stays complete and parses the same whatever follows |
| Wire.PiecesIrrelevantIff | src/mark/_cli/wire.py:27-81 | every fragmentation gives the result of reading the bytes whole, except exactly for a well-formed response that announces a negative length shorter than what follows its head |
| Wire.NegativeLengthExample | src/mark/_cli/wire.py:56-81 | such a response, and two fragmentations that differ |
| Wire.ReadsWhatWasSent | src/mark/_cli/wire.py:27-81 | a response with a Content-Length, cut any way and followed by anything, gives its status and exactly its body, blank lines in the body included |
| Wire.FullLengthIff | src/mark/_cli/wire.py:27-81 | the answer has the announced length exactly when that many bytes came; else it is what came |
| Wire.CutShortExample | src/mark/_cli/wire.py:72-81 | five bytes announced, two delivered, no error |

## Left out

- float32 rounding and numpy itself: scores are exact real dot products, and normalisation is an arbitrary
  function that keeps the length.
- SearchRaces.SearchDuring: an operation of another thread, and one read of a row, is a single step; a row
  read while it is being overwritten is not modelled.
- IndexRaces.SearchDuring: the same; which content is read, and what the other threads' calls leave behind
  (stated call by call in `VectorIndexes`), is not stated again.  Bulk adds of other threads normalise.
- `VectorIndex.save` and `load`, `get`, `ids` and `_export_rows`: JSON, and read-only views.
- VectorIndexes.VectorIndex.AddMany: after a refusal only the index invariant is promised, not which vectors
  were added before it; likewise for a bulk load that fails.
- `bulk_index`, `_unusable` and `save_snapshot`: paging and decoding of stored blobs.  In `restore_snapshot`
  the write version read before loading is left out.
- GraphExpansion.Expand: under a hop limit smaller than the number of nodes only the path behind every score
  is stated; the code does not guarantee the best one then.  Termination is proved for any limit.
- A failing thread start, `stop`'s wait with a timeout, and `flush`/`reset` around the worker.  Progress
  (that a step which can happen does) is not stated; the laws of the two protocols are about safety.
- Windows file locking, the probing for older servers (`RefuseLegacy` may happen at any time) and clean-up
  of state files by other processes.
- A server that answers with an error (`RuntimeError`): the client gives up there, and no law is stated.
- The store's own writing is modelled as a set of ids, from its idempotent batch write; digests are taken as
  injective.  Facts are a set of ids extracted inline; the background extractor and the `extracted` and
  `facts` counts are not modelled.
- PassageWindow.BestSpan: weights are exact reals; floating-point sums could order nearly equal spans otherwise.
- Recognising dates, sections and anchors, stemming and splitting at sentence ends: regular expressions.
- Python's limited year range: dates go on forever in both directions.
- EmbeddingCache.CachedEmbeddingProvider.EmbedBatch: a batch is one step, concurrency around the cache's lock
  is not modelled.  The inner embedder is a function.
- Requests (`request` before the receive loop), JSON, timeouts and socket errors of the HTTP client.
- The order of equal keys after `sequence_order` in a briefing, and everything else in it that only formats.
- Command line, HTTP handlers, adapters, document loaders and the SQLite store.
