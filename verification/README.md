# Verification of the ingestion pipeline

A Dafny model of a document question-answering service's ingestion side: how parsed documents become chunks, how
an upload becomes a searchable document under retries, crashes and re-uploads, and four smaller algorithms around
them. Run `dafny verify dfyconfig.toml --resource-limit 2000000 --verification-time-limit 0` here to check everything.

## What is modelled

**The chunker** (`Text`, `Tokens`, `Blocks`, `Packing`, `Splitting`, `Procedures`, `Markers`, `Chunking`). Text is a
sequence of characters with Python's whitespace and line breaks; `Words` is `str.split()`. The loops and the
assembler object are methods and a class, each proved equal to a function of its inputs, and the theorems are about
those functions. They hold for every token counter that is subadditive, monotone and counts words (`Tokens.Lawful`,
which the default estimator meets) and for every recogniser of step numbers; `Markers.StepNumber` is the code's own.
`SentenceCuts` and `Parts` say exactly what the splitters return. `Ceiling` and `CeilingExact` prove the hard ceiling and
exactly when it holds, `TargetBound` what the soft target promises of prose, `Conservation` that no word is lost and that
labels are those of the first new word, `Slides` the one-chunk-per-slide rule, `Wholeness` when a table or procedure stays
whole, `Crowding` how large a buffer within the target can grow once joined, `TornProcedure`, `CrowdedProcedure` and
`TornTable` for exactly which settings every procedure and every table does, and `CarriedOverlap` how much room a block
needs for it under the other settings.

**The ingestion protocol** (`Queue`, `Embedding`, `Ingestion`, `Freshness`, `Safety`, `Progress`, `Limits`, `Site`).
`Ingestion` is a transition system: document rows with their stored bytes and chunks, jobs with attempts and
checkpoint, and one worker with its program counter and locals. Each database transaction is one step; uploads,
reindexes, failures, crashes, restarts and sweeps can come between any two. Parsing with chunking, hashing, type
detection and embedding are arbitrary functions (`World`); contextual headers and page counts are arbitrary inputs of
each step. `Freshness` proves one invariant for all actions, `Safety` draws the guarantees from it for every run,
`Progress` proves that a worker left alone finishes the backlog, also after any history and a restart, and `Limits`
gives the runs that show where the guarantees stop. `Site` is the code in its own form, methods over mutable tables,
proved to be runs of the transition system. `Queue.JobTable` and `Embedding.ChunkTable` are the queue and the
embedding loop on their own, with the bounds on attempts and on texts sent.

**Smaller cores**: `RankFusion` (reciprocal rank fusion over exact fractions), `MarkdownLines`, `Markdown` and
`MarkdownTables` (the markdown block parser over any grammar of lines, the grammar of the code, and its tables as
input of the chunker), `Vocabulary` (the counted workspace vocabulary), `Backoff` (the retry loop over every sequence
of outcomes).

## Where the code does less than its documentation says

- "A numbered procedure is never split mid-sequence" (app/pipeline/chunking.py:5): under the default counter procedures
  within the ceiling stay whole exactly under the settings of `CrowdedProcedure.ProceduresStayWholeIff`. Any overlap
  breaks it, and the default carries 75 tokens; without overlap, so does a ceiling close to the target, because the
  running total leaves the separators out. The ceiling may override the rule (line 8), but here the procedure itself
  fits: what is put beside it pushes the chunk over, and the backstop then cuts inside the procedure. Under any setting a
  procedure is safe that leaves room for the longest text before it and a full target
  (`CarriedOverlap.BlockWithRoomStaysWhole`).
- "A table always carries its header row, repeated on every part it spans" (app/pipeline/chunking.py:6): true of a table
  over the target (`Parts.TablePartsRepeatHeader`). One within the target is not split by rows, and the backstop can
  cut it the same way (`TornTable.TablesStayWholeIff`) and put its last row into a chunk without the header
  (`TornTable.HeaderIsLost`).
- "Packs blocks up to a token target" (app/pipeline/chunking.py:3): the running total leaves the separators out, and text
  that does not fit with the carried overlap is put behind it all the same, so a chunk of prose can exceed the target;
  `TargetBound.ProseStaysNearTarget` says by how much at most.
- The header extracted from a table with a blank line among its first two is longer than what the split takes off the
  body, so the separator row is repeated in the body (`MarkdownTables.SeparatorIsRepeated`). No word is lost
  (`MarkdownTables.ExtractedHeaderCovers`), and tables from the markdown parser are split exactly
  (`MarkdownTables.MarkdownHeadersLead`).
- A READY document is fully embedded in every run exactly when the batch size is not 0
  (`Limits.ReadyMeansEmbeddedIff`); the setting is not validated.
- "Stale text cannot outlive a re-upload" (app/pipeline/intake.py:9-11): an upload that arrives between the read of the
  file and the write of its chunks leaves a READY document whose chunks are those of the superseded bytes
  (`Limits.ReadyCanBeStale`), also when the run is killed and resumed in between (`Limits.ResumedCanBeStale`); one that
  arrives after the write leaves it READY without chunks (`Limits.ReadyCanBeEmpty`). `Safety.FreshAtTheEndIff` says
  exactly when a run, resumed or not, ends fresh. Freshness holds once the newest job has written its chunks
  (`Safety.SettledMeansFresh`); a document can be stale at rest only if its newest job is FAILED with nothing written
  (`Safety.StaleOnlyIf`), and then it can stay READY and stale for good (`Limits.StaleForGood`).
- Two documents of a workspace can come to share a file name, after which new versions of it are refused
  (`Limits.NamesCanCollide`; `Safety.NamesStayDistinctIff` says exactly which uploads do this).
- Agreement of both search halves decides the order only for limits up to 15 (`RankFusion.AgreementWinsIff`).

## Model

| member | source | states |
|---|---|---|
| `Tokens.EstimateIsLawful` | app/pipeline/tokens.py:31-38 | the default estimator is subadditive over every concatenation, never counts a part above the whole and counts every word, despite its ceiling and its two maxima |
| `Packing.Pack` | app/pipeline/splitting.py:24-47 | the loop returns the groups the next six rows describe, each joined by the separator |
| `Packing.PackDivides` | app/pipeline/splitting.py:36-46 | every unit is in exactly one group, in order; every group is one unit or within the limit |
| `Packing.PackIsGreedy` | app/pipeline/splitting.py:38-42 | no group could have taken the unit that follows it: with that unit and its separator it would be charged more than the limit |
| `Packing.GreedyIsUnique` | app/pipeline/splitting.py:24-47 | and there is no other such division: any division of the units into lone units and groups within the limit, none of which could have taken the next unit, is the one the loop makes |
| `Packing.PackMonotone` | app/pipeline/splitting.py:38-46 | fewer units never need more groups |
| `Packing.PackOptimal` | app/pipeline/splitting.py:24-47 | no division of the units into groups that are single units or within the limit has fewer groups than the greedy loop |
| `Packing.PackMeasured` | app/pipeline/splitting.py:27-33 | a group measured again after joining is within the limit, or is one unit that was over it before |
| `Packing.PackKeepsWords` | app/pipeline/splitting.py:24-47 | packing loses, repeats and reorders no word |
| `Parts.CostIsTotal` | app/pipeline/splitting.py:39-44 | a group is charged the tokens of its units and one separator for each |
| `Splitting.SentencesKeepWords` | app/pipeline/splitting.py:18-18 | cutting at sentence boundaries loses no word and leaves no blank sentence |
| `SentenceCuts.CutAtBoundary` | app/pipeline/splitting.py:18-18 | where prose is cut, without the matcher: between two stretches of text with whitespace between them, when the first ends in a full stop, exclamation or question mark and the second begins with A to Z or 0 to 9, or when two line feeds stand in the whitespace, the sentences of the whole are those of the one and then those of the other |
| `SentenceCuts.OneSentenceIff` | app/pipeline/splitting.py:18-18 | and nowhere else: a stripped text is one sentence if and only if there is no such place in it |
| `SentenceCuts.SurroundingsDoNotMatter` | app/pipeline/splitting.py:58-58 | whitespace around a text makes no difference to its sentences; with the two rows before, this determines the sentences of every text |
| `Splitting.BuildSentenceParts` | app/pipeline/splitting.py:55-67 | the method computes the parts the next three rows describe |
| `Parts.SentencePartsAreGreedy` | app/pipeline/splitting.py:55-67 | the parts are the greedy groups, joined by spaces, of these units in order: each sentence that fits the limit as it is, and of a larger one its words in greedy groups; text without words is one part |
| `Splitting.SentencePartsKeepWords` | app/pipeline/splitting.py:55-67 | splitting prose loses, repeats and reorders no word |
| `Splitting.SentencePartsWithin` | app/pipeline/splitting.py:55-67 | every part of non-blank prose is within the limit when each word is |
| `Splitting.BuildTableParts` | app/pipeline/splitting.py:70-88 | the method computes the parts the next four rows describe |
| `Parts.TablePartsRepeatHeader` | app/pipeline/splitting.py:70-88 | every part is the header, a line feed and a run of rows; the rows are the lines after as many as the header has, once and in order, each line that fits the limit less the tokens of the header and line feed (at least 1) as it is, and only a larger one broken into words; the runs are the greedy ones |
| `Parts.FittingRowsStayWhole` | app/pipeline/splitting.py:79-88 | so when the header leaves room and every line fits it, the rows are the lines, none cut, and no division of the lines into runs charged at most that room has fewer parts |
| `Parts.NothingToDivide` | app/pipeline/splitting.py:75-88 | a table with no line after the header is one part, the text itself; a text of at most one step is split as prose |
| `Text.LinesAtBreak` | app/pipeline/splitting.py:74-75 | how text is divided into lines: at its first line break, a carriage return with its line feed being one, and what follows on its own |
| `Text.LinesWithoutBreak` | app/pipeline/splitting.py:74-75 | text without a line break is one line, or none when it is empty |
| `Splitting.TableKeepsWordsIff` | app/pipeline/splitting.py:74-75 | a split table keeps its words if and only if the header repeats the words of the lines it replaces |
| `Splitting.TablePartsWithin` | app/pipeline/splitting.py:76-88 | every part is within the limit when the header and its line feed are smaller than it and every word fits what they leave |
| `Splitting.BuildProcedureParts` | app/pipeline/splitting.py:91-113 | the method computes the parts the next five rows describe |
| `Parts.ProcedureCutBetweenUnits` | app/pipeline/splitting.py:91-113 | the parts are the greedy runs of units, the later ones led by the marker and a line feed; the units are the steps once and in order, each step that fits the limit less the tokens of the marker and 1 (at least 1) as it is, and only a larger one split as prose at that size |
| `Parts.ProcedureCutBetweenSteps` | app/pipeline/splitting.py:91-113 | so when every step fits that, a procedure is cut only between steps, and into as few parts as can be |
| `Splitting.ProcedureUnitsKeepWords` | app/pipeline/splitting.py:91-113 | without the markers, the parts keep every word, also when a step itself is split |
| `Splitting.ProcedurePartsWithin` | app/pipeline/splitting.py:103-113 | every part is within the limit, marker included |
| `Splitting.DefaultProcedurePartsWithin` | app/pipeline/splitting.py:20-21 | with the default counter that holds from a limit of eight on, when every word leaves seven tokens |
| `Splitting.BuildTailOverlap` | app/pipeline/splitting.py:116-131 | the backward loop computes the overlap the next three rows describe |
| `Splitting.OverlapIsSuffix` | app/pipeline/splitting.py:116-131 | what is carried over is a run of words from the very end of the text |
| `Splitting.OverlapMeasured` | app/pipeline/splitting.py:123-130 | the overlap is the last sentence, however long, or sentences worth at most the budget |
| `Parts.OverlapIsLongest` | app/pipeline/splitting.py:116-131 | exactly how much is kept: the last sentence, and in front of it sentences as long as the total stays within the budget; with one sentence more it would not |
| `Procedures.SplitSteps` | app/pipeline/procedures.py:36-52 | the line loop computes the steps the next two rows describe |
| `Procedures.StepsAreRunsOfLines` | app/pipeline/procedures.py:36-52 | the steps are consecutive runs of lines, cut exactly at the numbered lines, each joined by line feeds and stripped at the end; those without text are dropped |
| `Procedures.StepsKeepWords` | app/pipeline/procedures.py:36-52 | taking a procedure apart loses no word and leaves no blank step |
| `Procedures.GroupNumberedProcedures` | app/pipeline/procedures.py:62-121 | the two nested loops compute the grouping the next two rows describe |
| `Procedures.GroupingIsSound` | app/pipeline/procedures.py:55-121 | the document is divided into consecutive runs: each is a maximal procedure (list, text, code and table blocks, numbered at both ends, ascending from 0 or 1, no two unnumbered in a row, not extendable) merged into one atomic block under the labels of its first, or a single block where none starts, unchanged |
| `Procedures.GroupingKeepsWords` | app/pipeline/procedures.py:62-121 | grouping loses, repeats and reorders no word |
| `Markers.StepNumberIff` | app/pipeline/procedures.py:15-33 | exactly which texts have a step number, and which: those whose first line is one to three digits with a closing sign and text, or the word step in any case and such a number not run on from, or such a number in parentheses and text |
| `Markers.FirstLineDecides` | app/pipeline/procedures.py:26-33 | text after the first line never changes the step number, so a merged procedure opens with the number of its first step |
| `Chunking.Assembler.Add` | app/pipeline/chunking.py:65-74 | blank text changes nothing; otherwise the buffer is flushed first when the text would overshoot the target, and then extended |
| `Chunking.Assembler.EmitStandalone` | app/pipeline/chunking.py:76-86 | the open chunk is closed without overlap, and the text is a chunk of its own |
| `Chunking.Assembler.Flush` | app/pipeline/chunking.py:88-117 | the buffer becomes one draft, or several at the ceiling, and leaves the overlap |
| `Chunking.Assembler.Process` | app/pipeline/chunking.py:171-197 | one turn of the main loop computes the route of a block: what each route gives is in the rows on tables, procedures, prose and whole blocks below |
| `Chunking.ChunkBlocks` | app/pipeline/chunking.py:161-200 | the whole of chunk_blocks computes the chunks the theorems are about: their size in the rows of Ceiling, CeilingExact and TargetBound, their words and labels in Conservation and Slides, what stays whole in Wholeness to TornTable |
| `Ceiling.EveryChunkWithinCeiling` | app/pipeline/chunking.py:88-200 | for every document and configuration, if every word fits the ceiling then every chunk does; recorded sizes are real sizes and ordinals count up from 0 |
| `CeilingExact.ChunksFitIffWordsFit` | app/pipeline/chunking.py:99-103 | with headers and marker within the ceiling, and split tables whose header reads at least every word of the lines it replaces, every chunk is within the ceiling if and only if every word of the document is |
| `TargetBound.ProseStaysNearTarget` | app/pipeline/chunking.py:3-3 | the soft target, whatever the ceiling: in a document without slides, tables with headers and atomic blocks whose words fit the target, under the default counter every chunk measures at most the closed formula of Crowding.CrowdedBuffer for the target when there is no overlap; with overlap at most that, or one token, the target and the larger of the target and twice the overlap budget less one |
| `TargetBound.SmallDocumentIsOneChunk` | app/pipeline/chunking.py:65-74 | and nothing is split before it must be: a document whose texts add up to the target at most, its procedures within the ceiling, is one chunk, the texts with blank lines between them, or what prose splitting makes of that when it is over the ceiling |
| `TargetBound.PiecesNoLarger` | app/pipeline/chunking.py:99-103 | for every lawful counter no piece the backstop makes measures more than the content it cuts |
| `Conservation.CarriedIsConserved` | app/pipeline/chunking.py:42-200 | for every document without slides: the chunks are consecutive segments of repeated words and new words; the new words in order are those of each block, with the header in place of the lines it replaces where a table is split; a repeat is a carried end of the segment before, the continuation marker or a table header; and every chunk of a segment has the section path, page and slide of the block its first new word stands in |
| `Conservation.NothingLost` | app/pipeline/chunking.py:42-200 | where every split table leads with its header, the new words in order are exactly the words of the document |
| `Wholeness.WholeWithoutOverlap` | app/pipeline/chunking.py:55-117 | without overlap a block that fits the ceiling and is not chosen to be split is in one chunk, end to end, when whatever can be buffered with it within the target stays within the ceiling once joined; for every lawful counter |
| `Wholeness.ProceduresStayWholeWithoutOverlap` | app/pipeline/chunking.py:182-190 | for every lawful counter, without overlap and with a ceiling of a full target and its separators, every numbered procedure within the ceiling is in one chunk |
| `Crowding.SentencesJoin` | app/pipeline/splitting.py:18-18 | no sentence spans two texts: the sentences of two texts joined by a blank line are those of the one and then those of the other |
| `Crowding.CrowdedBuffer` | app/pipeline/chunking.py:65-74 | under the default counter, texts within the target measure at most a closed formula of the target once joined, separators included |
| `CrowdedProcedure.ProceduresStayWholeIff` | app/pipeline/chunking.py:5-5 | under the default counter and recogniser, for every configuration: every merged procedure within the ceiling is in one chunk, in every document, if and only if the ceiling is below six tokens, which no procedure meets, or no overlap is carried and either the target is below eight or the ceiling holds the fullest buffer a procedure can be in |
| `CrowdedProcedure.CrowdedIsTorn` | app/pipeline/chunking.py:65-103 | whatever the overlap, below that ceiling: a document of short paragraphs around a procedure that fits the ceiling and is torn between its first number and its text |
| `TornProcedure.ProcedureIsTorn` | app/pipeline/chunking.py:55-103 | with any overlap and any ceiling of six tokens or more that the target does not exceed by two, a three-block document whose procedure fits the ceiling and is in no chunk |
| `TornTable.TablesStayWholeIff` | app/pipeline/chunking.py:6-6 | under the default counter and recogniser, for every configuration: every table with a header and within the target is in one chunk as it is, in every document, if and only if the target is below three tokens or no overlap is carried and the ceiling holds the fullest buffer a table can be in |
| `TornTable.HeaderIsLost` | app/pipeline/chunking.py:6-6 | with any overlap, a target of four or more and a ceiling above it and of at least six: a document with a table within the target whose last row is a chunk of its own, without the header |
| `CarriedOverlap.BlockWithRoomStaysWhole` | app/pipeline/chunking.py:55-117 | whatever the overlap: a block that is not chosen to be split stays in one chunk when it leaves room for c tokens and a separator, c being at least the overlap budget and what every earlier block can leave behind |
| `CarriedOverlap.LastSentenceIsLast` | app/pipeline/splitting.py:116-131 | the last sentence of a joined buffer measures no more than the last text put into it, because every sentence match stops at the blank line between texts |
| `CarriedOverlap.OverlapTruncates` | app/pipeline/chunking.py:37-39 | the overlap budget is the share of the target, cut to a whole number toward zero |
| `Wholeness.TableChunkedIntoParts` | app/pipeline/chunking.py:174-180 | a table over the target, whose header and words leave room, is chunked into exactly its parts, each leading with its header |
| `Wholeness.ProcedureChunkedIntoParts` | app/pipeline/chunking.py:182-185 | a procedure over the ceiling, whose words leave room for the marker, is chunked into exactly its parts |
| `Slides.SlidesPartition` | app/pipeline/chunking.py:122-129 | grouping by slide only rearranges blocks |
| `Slides.SlidesKeepWords` | app/pipeline/chunking.py:131-158 | the chunks of a deck hold the words of its slides, slide by slide and in order |
| `Slides.OneChunkPerSlide` | app/pipeline/chunking.py:140-142 | a deck whose slides, texts joined by blank lines, all fit the ceiling has exactly one chunk for each slide, which reads so and has its number |
| `Slides.DeckChunks` | app/pipeline/chunking.py:120-166 | the whole deck: slides are distinct and in order of first appearance, every block is on one, words are kept; the chunks of each slide are its texts joined by blank lines, whole or, over the ceiling, cut as prose, all labelled with its number as page and slide and with the first section path on it that is not empty |
| `Slides.OnSlideSplits` | app/pipeline/chunking.py:122-129 | the blocks of a slide come in the order of the document |
| `Slides.OnSlideOne` | app/pipeline/chunking.py:125-125 | a block is on the slide of its number, on slide 0 when it has none |
| `Queue.JobTable.Claim` | app/workers/queue.py:44-74 | the oldest pending job becomes running and its attempt is counted, or nothing changes |
| `Queue.JobTable.Release` | app/workers/queue.py:121-147 | back to pending while attempts are left, failed otherwise |
| `Queue.JobTable.Drain` | app/workers/worker.py:83-100 | left alone, the queue drains: each pending job ends with its first successful attempt, or fails once its attempts are used up |
| `Embedding.BatchFollowsPrefix` | app/pipeline/embedding.py:42-56 | the batch is the run of ordinals right after the embedded prefix |
| `Embedding.CommitExtendsPrefix` | app/pipeline/embedding.py:91-108 | a committed batch gives exactly its rows the vectors of their own texts, header and blank line in front of the content when there is a header, changes nothing else and keeps the embedded rows in front |
| `Embedding.EmptyBatchMeansDone` | app/pipeline/embedding.py:81-83 | with a positive batch size the search is empty exactly when every chunk has a vector |
| `Embedding.ChunkTable.EmbedDocument` | app/pipeline/embedding.py:64-119 | the loop ends; however it breaks off, vectors are kept, each is its own chunk's, none is committed twice, and at most one batch of texts is sent in vain |
| `Embedding.ChunkTable.Resume` | app/pipeline/ingest.py:133-166 | over k interrupted attempts at most n + k * batch size texts are sent and at the end each chunk had its vector committed exactly once |
| `Freshness.ReclaimKeeps` | app/workers/queue.py:150-175 | a sweep or restart keeps the invariant |
| `Freshness.ActionKeeps` | app/workers/worker.py:42-136 | every upload, reindex, worker step, failure, crash, restart and sweep keeps the invariant |
| `Freshness.RunKeeps` | app/pipeline/ingest.py:118-204 | the invariant holds after every sequence of actions |
| `Safety.ReadyMeansEmbedded` | app/implementations/pgvector_store.py:47-60 | in every reachable state each chunk of a READY document carries the vector of its own text: its content, with its contextual header and a blank line in front when it has one |
| `Safety.ChunksAreKept` | app/pipeline/persist.py:69-104 | in one action after any run a chunk stays as it is but for a vector it did not have, or an upload removes all chunks of its document, or the write of a run replaces them all: content by content, each with the contextual header of its place, new ids and no vectors |
| `Safety.StatusIsKept` | app/pipeline/persist.py:27-42 | who changes the status of a document in one action after any run: the worker, to the stage it marks, PARSING with a page count, READY and indexed, or FAILED; a reindex or an accepted upload, to PENDING and not indexed; and only an upload changes the file |
| `Safety.StagesAreShown` | app/pipeline/ingest.py:47-57 | in every reachable state a READY document is indexed, a finished job shows how it ended and an untried one nothing; while the worker is busy its job shows the stage it is in, and its document too one transaction later, unless a newer job is waiting |
| `Safety.SettledMeansFresh` | app/pipeline/ingest.py:118-204 | in every reachable state, once a document's newest job has written its chunks or succeeded, its chunks are those of the stored bytes and every vector is its own chunk's |
| `Safety.FreshIff` | app/pipeline/persist.py:69-104 | in every reachable state a document's chunks are those of the file they were written from, so it is fresh if and only if that file gives the chunks of the stored one |
| `Safety.FreshAtTheEndIff` | app/pipeline/ingest.py:196-198 | any run about to mark its document READY, begun afresh or resumed, ends fresh if and only if the file the chunks were written from gives those of the stored file; for a run that read the file itself that is the file it read, unless an upload removed the chunks since; it ends stale only when a newer job has everything to do |
| `Safety.StaleOnlyIf` | app/workers/queue.py:121-147 | a document is stale only while its newest job has written nothing; once that job is over, only if it is FAILED without a checkpoint |
| `Safety.RestIsForGood` | app/pipeline/intake.py:88-94 | a site with nothing queued and nothing running stays as it is through any crashes, restarts, sweeps and uploads of bytes that a READY document has |
| `Safety.EmbeddedPrefix` | app/pipeline/embedding.py:81-108 | in every reachable state the embedded chunks of a document are a prefix by ordinal |
| `Safety.AttemptsBounded` | app/workers/queue.py:121-147 | attempts are at most max(1, max_attempts) plus reclaims, each attempt after the first is paid for by a release or reclaim, and a failed job used its attempts up |
| `Safety.OverForGood` | app/workers/queue.py:106-147 | a job that is SUCCEEDED or FAILED never changes again |
| `Safety.IdenticalIsFound` | app/pipeline/intake.py:79-104 | in every reachable state uploading bytes the workspace already has finds that document: left alone if READY, queued again otherwise |
| `Safety.DecisionByHash` | app/pipeline/intake.py:79-116 | a document is left alone or retried only for the same hash, superseded only for its name and a hash the workspace does not have, and created only for a new name and hash |
| `Safety.DecideIff` | app/pipeline/intake.py:66-116 | the whole decision, case by case and if and only if: too large, empty, not accepted; then by how many documents of the workspace have the same hash (one: left alone if READY and retried if not; more: refused); with none, by how many have the name (one: superseded; more: refused; none: created) |
| `Safety.UploadTakesEffect` | app/pipeline/intake.py:106-142 | an upload changes nothing, or exactly one document becomes this row: the uploaded bytes, their hash, name and the type found for them, PENDING, not indexed, no chunk, the next version exactly when the hash changed; and one new job for it comes last in the queue |
| `Safety.ReindexTakesEffect` | app/pipeline/ingest.py:207-229 | a reindex in every reachable state: each document of the workspace, whatever its status, is PENDING and not indexed, keeps its file and chunks, and gets one new job from stage one, after all others; nothing else changes |
| `Safety.NamesStayDistinctIff` | app/pipeline/intake.py:96-116 | an upload keeps file names unique if and only if it does not retry an unfinished document under another document's name |
| `Limits.ReadyMeansEmbeddedIff` | app/pipeline/embedding.py:81-83 | READY documents are fully embedded in every run if and only if the batch size is not 0 |
| `Limits.ZeroBatchLeavesNulls` | app/pipeline/embedding.py:81-83 | with batch size 0 an ordinary first upload ends READY without vectors |
| `Limits.ReadyCanBeEmpty` | app/pipeline/ingest.py:196-198 | a run in which an upload overtakes the last step leaves the document READY with no chunk, its newest job still pending |
| `Limits.ReadyCanBeStale` | app/pipeline/intake.py:9-11 | a run in which an upload arrives between the read and the chunk write leaves the document READY with the new bytes stored and the chunks of the old ones, its newest job still pending |
| `Limits.ResumedCanBeStale` | app/pipeline/ingest.py:129-157 | the same run killed before the last step and resumed from its checkpoint after a restart, without reading any file, ends stale too |
| `Limits.StaleForGood` | app/pipeline/intake.py:88-94 | the stale document stays READY and stale for good when the newer job fails its last attempt and the process is killed before the document is marked: nothing is queued, restarts and sweeps change nothing, and uploading the same bytes again is a duplicate |
| `Limits.NamesCanCollide` | app/pipeline/intake.py:96-116 | three uploads after which two documents share a name and the next version of it is refused |
| `Progress.ReachesSetReady` | app/pipeline/ingest.py:118-198 | an undisturbed run has its chunks embedded after finitely many steps and touches no other document or job |
| `Progress.OldestJobIsFinished` | app/workers/worker.py:83-97 | with a positive batch size, an idle worker takes the oldest pending job to SUCCEEDED and its document to READY, wherever an earlier attempt stopped, if the job has written its chunks or the stored file has text |
| `Progress.NextAttempt` | app/workers/worker.py:42-67 | one undisturbed attempt, whatever the file: such a job succeeds; another waits for its next attempt, or is FAILED with its document, and its tries fall |
| `Progress.BacklogIsIndexed` | app/workers/worker.py:83-97 | left alone, with a positive batch size and whatever the files, the worker empties the queue: a pending job succeeds if and only if it has written its chunks or its file has text, and is FAILED otherwise; a document ends READY or FAILED by its newest pending job; nothing else changes |
| `Progress.RestartRecovers` | app/workers/worker.py:122-137 | after any history, with a positive batch size, a restart and an undisturbed worker leave every job over; a document whose newest job was unfinished ends READY with the chunks of its stored bytes and all vectors if that job has written its chunks or the stored file has text, and FAILED with its job if neither |
| `Site.Tables.IntakeUpload` | app/pipeline/intake.py:58-142 | the code of the upload does what the transition system says, for every outcome; Safety.DecideIff and Safety.UploadTakesEffect say what that is |
| `Site.Tables.RequeueWorkspace` | app/pipeline/ingest.py:207-229 | the loop does what the transition system says, which is Safety.ReindexTakesEffect, and counts the queued documents |
| `Site.Tables.EmbedDocument` | app/pipeline/embedding.py:64-119 | the loop is a run of the transition system and ends; Safety.ReadyMeansEmbedded says what it leaves |
| `Site.Tables.RunJob` | app/pipeline/ingest.py:118-204 | undisturbed, the whole job is a run of the transition system to its last stage or to the failure it raises |
| `Site.Tables.Start` | app/workers/worker.py:122-137 | starting the pool is the system's restart: with a timeout of zero no job stays running, and pending ones are found again |
| `Site.Tables.SweepOnce` | app/workers/worker.py:103-113 | one turn of the reclaim loop is a sweep of the system, and a worker whose job reported within the timeout keeps it |
| `Site.Tables.WorkOnce` | app/workers/worker.py:87-93 | one turn of the loop is a run of the transition system and uses up an attempt |
| `Site.Tables.WorkerLoop` | app/workers/worker.py:83-100 | the loop reaches an empty queue by a run of the transition system, with the invariant kept |
| `RankFusion.BetterRanksScoreHigher` | app/implementations/pgvector_store.py:61-69 | a chunk no worse in both halves never scores lower, and higher when better in one |
| `RankFusion.ScoreIs` | app/implementations/pgvector_store.py:61-69 | the score is 1/61 for the first place in a half, 1/62 for the second and so on, added up over the halves that found the chunk |
| `RankFusion.AgreementWinsIff` | app/implementations/pgvector_store.py:169-170 | found by both always outranks found by one, for all rankings the pool admits, if and only if the limit is at most 15 |
| `RankFusion.SearchReturnsTheBest` | app/implementations/pgvector_store.py:61-77 | the result has no repeats, the higher score first and among equal scores the earlier chunk, as many entries as asked for or found, and nothing left out would stand before anything returned |
| `RankFusion.AgreementIsNotDisplaced` | app/implementations/pgvector_store.py:146-178 | with a limit of at most 15 a chunk both halves found is never displaced by one only a single half found |
| `Markdown.MarkdownToBlocks` | app/implementations/parsers/text_parser.py:48-110 | the loop computes the blocks of the scan |
| `Markdown.MarkdownFindsBlocks` | app/implementations/parsers/text_parser.py:48-110 | the one-pass parser finds exactly the blocks of the reference division: at each line the block that starts there, its kind, its lines, the sections open there and its header |
| `Markdown.IsBlockIffSpanAt` | app/implementations/parsers/text_parser.py:48-110 | the lines of a block are determined: code runs from a fence to the next fence or the end of the file with none between, and text and table runs are maximal |
| `Markdown.BodyIsKept` | app/implementations/parsers/text_parser.py:48-110 | the words of the lines that are not headings reach the other blocks once and in order |
| `MarkdownLines.HeadingIff` | app/implementations/parsers/text_parser.py:13-13 | exactly which lines are headings, and of what level and title: one to six number signs, whitespace, the title, and number signs that close it |
| `MarkdownLines.FenceIff` | app/implementations/parsers/text_parser.py:15-15 | exactly which lines are fences |
| `MarkdownLines.TableRowIff` | app/implementations/parsers/text_parser.py:14-14 | exactly which lines are table rows |
| `MarkdownLines.TableHeaderIff` | app/implementations/parsers/docling_blocks.py:65-74 | exactly which tables have a header, and which: their first two lines with text, when the first has a bar and the second rules it off |
| `MarkdownTables.ExtractedHeaderCovers` | app/implementations/parsers/docling_blocks.py:65-74 | the lines a split drops always read as a beginning of the header extracted for them, and as all of it if and only if the first two lines both have text |
| `MarkdownTables.SeparatorIsRepeated` | app/implementations/parsers/docling_blocks.py:65-74 | for every table with one blank line between its first row and its separator, whatever follows, the header is the row and the separator but only the row leaves the body, so the separator comes again at the head of the body |
| `MarkdownTables.ExtractedReadsAll` | app/implementations/parsers/docling_blocks.py:65-74 | a header extracted from the block's own text reads every word the split takes off |
| `MarkdownTables.MarkdownHeadersLead` | app/implementations/parsers/text_parser.py:36-36 | every table block of a markdown file has a header the chunker can split by without loss |
| `MarkdownTables.MarkdownIsConserved` | app/pipeline/chunking.py:161-200 | from a markdown file to its chunks nothing is lost, repeated or reordered except carried overlap, markers and table headers |
| `Vocabulary.StringList` | app/pipeline/profiling.py:97-110 | the loop with its early stop computes the cleaned list |
| `Vocabulary.CleanedIsTidy` | app/pipeline/profiling.py:97-110 | a cleaned list has at most 12 stripped, non-blank terms, no two alike up to case |
| `Vocabulary.CleanedTakesTheFirst` | app/pipeline/profiling.py:97-110 | which terms are kept: the first twelve, stripped, that are not blank and not the same up to case as one kept before |
| `Vocabulary.TidyIsKept` | app/pipeline/profiling.py:97-110 | cleaning leaves a list as it is exactly when it is such a list; so cleaning twice is cleaning once |
| `Vocabulary.RebuildWorkspaceProfile` | app/pipeline/profiling.py:164-181 | the rebuild loop computes the vocabulary the next three rows are about, from the stored profiles in their order |
| `Vocabulary.RebuildIsAccumulation` | app/pipeline/profiling.py:164-181 | rebuilding from stored profiles equals merging them one by one |
| `Vocabulary.RebuiltCountsDocuments` | app/pipeline/profiling.py:144-181 | each count is exactly the number of documents that list the term, nothing else is counted, and no count exceeds the number of documents |
| `Vocabulary.RebuiltIgnoresOrder` | app/pipeline/profiling.py:164-181 | the order of the documents does not matter |
| `Backoff.WithBackoff` | app/implementations/retry.py:152-200 | the loop makes exactly the calls and sleeps the policy prescribes, and its result tells the last call |
| `Backoff.EpisodeIsUnique` | app/implementations/retry.py:152-200 | one sequence of outcomes and draws allows one course of calls, sleeps and result |
| `Backoff.EpisodeGoes` | app/implementations/retry.py:168-184 | a call is tried again exactly when its failure is worth it, attempts are left and, with a person waiting, it is the first call and the rate limit names at most 8 s; the last outcome is passed on, a rate limit with the delay named, cut to 65 s |
| `Backoff.DelaysDouble` | app/implementations/retry.py:189-195 | without a named delay the code waits the base delay, then twice as long each time, up to the longest delay, spread by the random factor |
| `Backoff.CallsBounded` | app/implementations/retry.py:168-184 | at least one and at most max(1, max_attempts) calls |
| `Backoff.ServerDelayHonoured` | app/implementations/retry.py:186-188 | a delay the provider asked for, up to 65 s, is slept in full and 0.5 to 2 s more |
| `Backoff.TotalSleepBounded` | app/implementations/retry.py:186-200 | the sleeps total at most (max_attempts - 1) times the longest delay, 90 s by default |
| `Backoff.InteractiveWaitsOnce` | app/implementations/retry.py:177-179 | with a person waiting, at most one rate limit is slept out, after the first call, for at most 10 s |

## Left out

- Tokens.EstimateIsLawful: the two ratios are exact fractions; floating-point rounding of the estimate is not modelled.
- CrowdedProcedure.ProceduresStayWholeIff: over merged procedures; a numbered block that is not merged is prose to the chunker and is split like prose.
- CarriedOverlap.BlockWithRoomStaysWhole: sufficient, not necessary; a block without that room may still end up whole, depending on where sentence ends fall.
- Markers.FirstLineDecides: `StepNumber` recognises ASCII digits and letters; other Unicode digits and word characters are not modelled. The grouping and splitting theorems hold for any recogniser.
- Progress.RestartRecovers: a positive batch size, and no call that fails after the restart except on files without text; failing calls are covered by `Safety.AttemptsBounded`, not by a claim of success.
- Limits.ReadyMeansEmbeddedIff: asks that the site accepts at least one upload with text, without which batch size 0 does no harm.
- Queue.JobTable.Drain: one worker and no reclaims. When a job last reported is an input of a sweep; in the transition system a sweep may take any set of running jobs as stalled.
- Safety.IdenticalIsFound: an upload is one atomic step, bytes included. The code looks for the hash and inserts in one transaction without a unique index on workspace and hash, so two concurrent uploads of the same bytes can create two rows; nothing is claimed for them.
- Several workers at once: finish and release check no ownership, so the document-level guarantees are not claimed for them.
- Database commits with an unknown outcome: every transaction either happens or does not, and the worker knows which.
- Deleting documents, the run without embedding, progress percentages, error messages, page counts as numbers, sizes and timestamps.
- Version labels are counted as numbers; labels that are not of the form v1, v2, ... are not modelled.
- A file without text raises at the chunk write in the model; the code raises earlier when there are no blocks at all. The failure path is the same.
- The order in which a reindex enqueues documents, which the query leaves open, is by document.
- Contextual headers and tags of chunk drafts: written by the language model and not read by the chunker.
- The sentence pattern is modelled character by character; its lookaround is exactly the code's, over the characters A to Z and 0 to 9 it names.
- Lower-casing in the vocabulary is an arbitrary function; profile values that are not lists, and the timestamp, are not modelled.
- How exceptions are classified for a retry (status codes, class names, message text) is an input of the backoff model.
- The two candidate rankings of a search are given; distances, text ranking and index recall are not modelled.
- Decoding of text files and the plain-text parser, which only splits at blank lines.
- Routes, authentication, settings, provider clients, prompts, and the parsers for PDF, Office and HTML.
