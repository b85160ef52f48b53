# Verification of Patchouli's storage protocol and its neighbours

A Dafny 4.11 project. `dafny verify dfyconfig.toml` checks all of it.

## What is modelled

**The Page history.** The tables behind a Page (`Tables.dfy`) and the statements on them
(`Statements.dfy`) follow the schema as it stands after migration 0028, with the actor columns of
0017, 0019, 0025 and 0027. A statement writes one row. Its BEFORE triggers, CHECKs, keys and immediate
foreign keys may refuse it, which undoes that statement alone; its AFTER triggers cascade; deferred
foreign keys are looked at only by COMMIT (`Runs.dfy`). `Statements.dfy` gives the net effect of a
statement. `Triggers.dfy` and `PageTriggers.dfy` give the triggers themselves, one at a time, and
prove that every firing order reaches that net effect. `PageStore.dfy` is the store as a program: a
class whose methods run the triggers one by one over fields it changes in place, proved to make
exactly the steps of the run model. `Invariants.dfy`, `HistoryKept.dfy` and `ContentKept.dfy` hold
the inductive invariants, `History.dfy` the merge and the replay of the four logs, and
`Guarantees.dfy` and `AppendGuards.dfy` the theorems over all runs. `Progress.dfy` and
`ContentProgress.dfy` say what goes through: from every reachable state, exactly which statements move,
correct, retitle, delete, restore, create or extend a Page, and every table afterwards, in conditions read
off the tables. `LifecycleRun.dfy` is one run in full.

**The search index.** `SearchIndex.dfy` adds the view a Page's index row is computed from, proves
what the dirty marks tell, and that flushing before each commit keeps the index equal to the
recomputed view. `RollbackMarks.dfy` says what the marks are worth across rollbacks.
`SearchCoordinator.dfy` is the transaction wrapper on a live store.

**The search experiments.** `Tokenizer.dfy` is the application tokenizer, `ScaleSearch.dfy` the gram
index against the full scan, `SectionSearch.dfy` the per-Section index with its limits and scores.
`SearchOrder.dfy` says what a searcher sees of either: which documents, in which order, and which are left
out, in points counted from the texts.

**Text and path rewriting.** `PercentCodec.dfy`, `References.dfy` and `ReferenceEdits.dfy` are the
relative links of a Page's files and the edits of a rename, `LinkTargets.dfy` the meaning of a link target;
`SchemaRewrite.dfy` the counted rewriting
of stored schema text and its same-order inverse, `SchemaTexts.dfy` the texts it is used with;
`LosslessRebuild.dfy` the two table rebuilds.

**Fault-tolerant protocols.** `RestoreRetry.dfy`, `RestoreDurability.dfy` and `RestoreDialog.dfy` are the
browser's restore with its stored request, `RestoreProgress.dfy` what it comes to when the storage works,
`ResourceLedger.dfy` the restore drill's ownership ledger,
`CursorChain.dfy` the checker of search pages, `LegacyRoutes.dfy` the redirect map,
`RetiredScreens.dfy` and `SiteScreens.dfy` its screens one by one. `Strings.dfy` and `Common.dfy` hold what
several modules share.

## Conventions

- Identifiers, digests and request ids are abstract values; where the code compares ids as text, the
  order of integers stands for that of the texts. SHA-256 is taken as injective, so a scoped token is
  the pair of its scope and its token. A digest column is stored beside its bytes and compared with
  them, never computed.
- Texts are taken as already normalized, or the normalization is a parameter (`SectionSearch`).
  Which characters are alphanumeric or space is a parameter of the tokenizer; the Han ranges are
  written out.
- FTS5 MATCH means that every quoted token is in some column of the row. Rows come back in any order.
- What the world decides (command failures, storage failures, responses, trigger orders, fetched
  pages) is a parameter of the member concerned, and every theorem is for all of its values.
- Numbers are unbounded; the signed 64-bit limit appears where a CHECK states it.

## Where the code and a plausible claim differ

- Append guards have no INSERT trigger, so a guard written by hand that names the current Revision of a
  Page survives COMMIT. `AppendGuards` gives a run that leaves one, says exactly when one that is written
  and then committed gets through, inside a transaction or outside, and shows that every one ever left
  was written by hand and names the current Revision.
- A ROLLBACK takes the dirty counter back, so a mark seen inside a transaction may tell nothing after it.
  `RollbackMarks` gives a run in which a changed Page carries too low a mark, and says exactly from which
  states this cannot happen: those whose counter is the one the last COMMIT left.
- A retired preview or Revision path of a Page whose identity is `new` is redirected to a path the site
  does not have. `LegacyRoutes.RetiredGoesToCanonical` says that these are the only ones.
- Removing the stored restore request can succeed while the check of the removal throws. The dialog then
  says that it could not be cleared and still shows it, but a reload finds nothing and lets another
  request be sent while the outcome of the first is unknown. `RestoreDurability` gives such runs and
  shows that nothing else a single dialog does loses a request; a retry with a working write restores it.
  It also says exactly what the handlers of a dialog that was left can undo.

## Model

| member | source | states |
|---|---|---|
| `Guarantees.HistoryReplays` | migrations/versions/20261001_0028_page_moves.py:261-325 | In the committed tables of every run, the occurrence, lifecycle, move and title rows of a Page, merged by change time, are strictly increasing, are an interleaving of the four logs, and replay the row the Page was inserted with to the Section, Book, title, declared time and deletion it has now. |
| `Guarantees.NoGuardSurvives` | migrations/versions/20260929_0011_page_occurrence_corrections.py:116-126 | No occurrence, lifecycle or move guard is left in the committed tables of any run. |
| `Guarantees.DeferredEmptiesGuards` | migrations/versions/20260929_0012_page_lifecycle.py:86-99 | With the history invariant the deferred foreign keys of the three guard tables hold exactly when all three are empty. |
| `Guarantees.LogsOnlyGrowByUpdates` | migrations/versions/20260929_0011_page_occurrence_corrections.py:186-204 | At any point of any run an occurrence, lifecycle or move row written by hand is refused; the log grows only through the Page update that consumes its guard. |
| `Guarantees.PendingGuardsDescribeTheirPage` | migrations/versions/20261001_0028_page_moves.py:261-299 | While a guard is pending, the Page still has the declared time, deletion or membership the guard calls old, and the guard asks for a different one. |
| `Guarantees.LifecycleAlternates` | migrations/versions/20260929_0012_page_lifecycle.py:63-67 | Lifecycle rows are numbered 1, 2, 3, ..., alternate delete and restore starting with delete, end with a delete exactly while the Page is deleted, and each restore records the Section, declared time and Revision number of the delete before it. |
| `Guarantees.DeletedPageReturns` | migrations/versions/20260929_0012_page_lifecycle.py:217-270 | In every run that deletes a live Page, goes on, and restores it (no ROLLBACK before the transaction of the delete has ended, anything after that, COMMITs and ROLLBACKs included, and no lifecycle row in between), Section, Book, title, declared time and current Revision are those from before the delete. |
| `LifecycleRun.DeletedThenRestored` | migrations/versions/20260929_0012_page_lifecycle.py:217-270 | A concrete run of that kind, with the delete committed before the restore begins. |
| `Guarantees.RevisionsAreContiguous` | migrations/versions/20260813_0004_page_revision_content.py:90-101 | In the committed tables the Revision numbers of a Page are exactly 1..current, one Revision each, the current one exists, and an append guard, if any is left, names it. |
| `Guarantees.RevisionsMidTransaction` | migrations/versions/20260813_0004_page_revision_content.py:370-463 | In the middle of a transaction the numbers are 1..current plus at most current + 1, which the append guard then names; before the first Revision there are none and current is 1. |
| `Guarantees.PointerStep` | migrations/versions/20260813_0004_page_revision_content.py:406-420 | One statement leaves the current pointer of a Page alone or advances it by exactly one, to a Revision that exists, and never while the Page is deleted. |
| `Guarantees.EveryRevisionIsSealed` | migrations/versions/20260929_0013_multifile_revision.py:349-381 | In the committed tables every Revision has its seal, and its set is the exact content.md mirror of its Markdown, or matches its manifest in file count and byte sum. |
| `Guarantees.CommittedFactsLast` | migrations/versions/20260929_0013_multifile_revision.py:321-330 | Whatever runs later, committed Revisions, sealed sets with their manifests and files, and every earlier row of the four logs stay as they are; a deleted Page is frozen until its next lifecycle row. |
| `AppendGuards.NoAppendGuardSurvives` | migrations/versions/20260813_0004_page_revision_content.py:397-404 | When append guards are written by the Revision trigger alone, none is left in the committed tables. |
| `AppendGuards.HandWrittenGuard` | migrations/versions/20260813_0004_page_revision_content.py:191-229 | The table has no INSERT trigger: a guard written by hand, outside a transaction or followed by the COMMIT of the open one, is committed exactly when the tables could be committed without it and it names the current Revision, numbered two or more, of a Page that has no guard; a refused one leaves the COMMIT what it was, any other makes it fail. |
| `AppendGuards.SurvivorWasHandWritten` | migrations/versions/20260813_0004_page_revision_content.py:212-223 | In every run an append guard in the committed tables was written by hand and names the current Revision of its Page. |
| `AppendGuards.HandWrittenGuardSurvives` | migrations/versions/20260813_0004_page_revision_content.py:212-223 | A concrete run that leaves an append guard in the committed tables, so that the general claim of none being left is false. |
| `Triggers.AnyOrderOfRevisionTriggers` | migrations/versions/20260929_0013_multifile_revision.py:449-473 | An accepted Revision leaves the same tables behind in every firing order of its four AFTER INSERT triggers, and no statement inside them is refused. |
| `Triggers.AnyOrderOfFileTriggers` | migrations/versions/20260929_0013_multifile_revision.py:397-408 | Both firing orders of the triggers on a file accept the same files and leave the same tables; a file of a Markdown Revision is accepted only if it completes the exact mirror. |
| `PageTriggers.AnyOrderOfPageTriggers` | migrations/versions/20260929_0012_page_lifecycle.py:243-260 | An accepted UPDATE of a Page leaves the same tables behind in all 720 firing orders of its AFTER triggers: the event is always accepted from its guard and the guard always removed. |
| `PageTriggers.UnusedOccAudit` | migrations/versions/20260929_0011_page_occurrence_corrections.py:186-204 | The audit a pending occurrence guard names is used by no recorded correction of any Page. |
| `PageTriggers.UnusedMoveAudit` | migrations/versions/20261001_0028_page_moves.py:281-291 | The audit a pending move guard names is used by no recorded move of any Page. |
| `History.MergeIsAnInterleaving` | migrations/versions/20261001_0028_page_moves.py:246-259 | Merging the four logs by change time loses and invents nothing: taking the merged sequence apart by kind gives the logs back in order. |
| `History.MergeLatest` | migrations/versions/20261001_0028_page_moves.py:246-259 | A row later than all others is merged last. |
| `History.DeleteThenRestore` | migrations/versions/20260929_0012_page_lifecycle.py:63-67 | In a history that replays, the row after a delete is the restore of that very deletion, and the two together change nothing that is shown. |
| `HistoryKept.UpdateIsLogged` | migrations/versions/20261001_0028_page_moves.py:299-325 | An accepted UPDATE changes at most one of membership, title, declared time and deletion, and the row it logs, if any, is later than the Page and replays exactly that change. |
| `HistoryKept.HistoryStmtKept` | migrations/versions/20260929_0011_page_occurrence_corrections.py:142-204 | Every statement on the logs, guards and audits keeps the history invariant. |
| `HistoryKept.PageUpdateKept` | migrations/versions/20260929_0011_page_occurrence_corrections.py:218-254 | An accepted UPDATE of a Page keeps the history invariant of every Page. |
| `HistoryKept.PendingOccGuard` | migrations/versions/20260929_0011_page_occurrence_corrections.py:170-184 | A pending occurrence guard cannot be deleted by hand, and its sequence number is in no correction of its Page. |
| `HistoryKept.PendingLifeGuard` | migrations/versions/20260929_0012_page_lifecycle.py:159-179 | The same for a pending lifecycle guard. |
| `HistoryKept.PendingMoveGuard` | migrations/versions/20261001_0028_page_moves.py:292-297 | The same for a pending move guard. |
| `HistoryKept.NoHandWrittenOccEvent` | migrations/versions/20260929_0011_page_occurrence_corrections.py:186-204 | No correction can be inserted by hand in any reachable state. |
| `HistoryKept.NoHandWrittenLifeEvent` | migrations/versions/20260929_0012_page_lifecycle.py:181-202 | No lifecycle event can be inserted by hand in any reachable state. |
| `HistoryKept.NoHandWrittenMoveEvent` | migrations/versions/20261001_0028_page_moves.py:281-291 | No move event can be inserted by hand in any reachable state. |
| `ContentKept.SealedSetUnchanged` | migrations/versions/20260929_0013_multifile_revision.py:382-394 | No statement changes the Revision, manifest or files of a sealed set. |
| `ContentKept.NewSealFits` | migrations/versions/20260929_0013_multifile_revision.py:349-381 | Whatever statement adds a seal, the set carrying it is the mirror of its Markdown or matches its manifest. |
| `ContentKept.ContentKept` | migrations/versions/20260929_0008_revision_seals.py:117-156 | Every statement keeps the invariants of Revision numbers, append guards, file sets, seals and seal guards. |
| `ContentKept.Advanced` | migrations/versions/20260813_0004_page_revision_content.py:406-432 | Moving the pointer to the pending Revision keeps the numbers below it complete. |
| `Runs.RunOk` | migrations/versions/20261001_0028_page_moves.py:261-325 | Every state of every run, inside transactions and at COMMIT, satisfies the invariants, and the committed tables only ever extend. |
| `Runs.ExecExtends` | migrations/versions/20260929_0012_page_lifecycle.py:217-270 | One statement, accepted or aborted, extends the state it runs in. |
| `Runs.UpdatedStory` | migrations/versions/20260930_0022_page_title_edits.py:65-118 | An accepted UPDATE of a Page keeps its merged logs replaying from its inserted row. |
| `PageStore.PageStore.Execute` | migrations/versions/20261001_0028_page_moves.py:299-325 | Running one statement trigger by trigger, undoing it on any abort and committing it at once outside a transaction, is exactly one step of the run model, for every firing order; what a step leaves in the tables is said row by row in `Progress` and `ContentProgress`. |
| `Progress.MoveGoesThrough` | migrations/versions/20261001_0028_page_moves.py:261-325 | From every reachable state of an open transaction, a move guard and an UPDATE to another Section or Book move the Page exactly when the guard row has the next sequence, the present membership, Revision and times of a live Page, another destination, and an audit of that time no move row or guard names, and the new row is the old one with that destination and time; the log then has that one row more, no guard is left, one mark is set and nothing else changes. Otherwise pages, logs and marks stay. |
| `Progress.CorrectionGoesThrough` | migrations/versions/20260929_0011_page_occurrence_corrections.py:152-254 | The same for a declared-time correction by a Caller or a master: exactly when the guard is the next correction of a live Page to another time in range; the row logged carries old and new time and the current Revision number. |
| `Progress.LifecycleGoesThrough` | migrations/versions/20260929_0012_page_lifecycle.py:135-260 | The same for delete and restore: exactly when the guard row records the present state of the Page, deletes a live one or restores a deleted one, and the new row differs in deletion and change time alone. |
| `Progress.TitleEditGoesThrough` | migrations/versions/20260930_0022_page_title_edits.py:65-118 | An UPDATE to another title goes through exactly when the Page is live, nothing but title and a later change time differ, and exactly one audited title edit of that time is named by no title row; the row logged is spelled out, with that audit. |
| `Progress.PlainUpdateGoesThrough` | migrations/versions/20260929_0011_page_occurrence_corrections.py:28-46 | Any other UPDATE changes page type and change time alone, forwards, or nothing; no Page changes its key, and nothing is logged or marked. |
| `Progress.CommitGoesThrough` | migrations/versions/20260929_0012_page_lifecycle.py:86-99 | COMMIT goes through in an open transaction of any run exactly when no guard of the history is pending, every Page has its current Revision, every append guard names the current one, and every Revision is sealed. |
| `Progress.AuditGoesThrough` | migrations/versions/20260929_0018_master_audit.py:35-56 | An audit row is recorded once under its identifier, with a time that is not negative, and nothing else changes. |
| `Progress.ByHandChangesNothing` | migrations/versions/20261001_0028_page_moves.py:281-297 | Log rows and seal guards written by hand, deletions of guards and rewrites of protected rows leave every table as it was, in every reachable state of a transaction. |
| `ContentProgress.BirthGoesThrough` | migrations/versions/20260929_0013_multifile_revision.py:449-473 | A new Page arrives exactly when its row is in order and its identifier is new to the Library, and its first Revision exactly when that row and identifier are too; Markdown brings its one-file set with the seal. All tables afterwards are spelled out. |
| `ContentProgress.AppendGoesThrough` | migrations/versions/20260813_0004_page_revision_content.py:370-432 | A Revision and the UPDATE of the pointer append it exactly when it has the next number and an identifier new to the Library, the Page is live and no append guard waits; none is left. A Revision whose pointer UPDATE is refused stays waiting under its guard. |
| `ContentProgress.FileSetGoesThrough` | migrations/versions/20260929_0013_multifile_revision.py:296-410 | A manifest, any files and a seal give a waiting Revision the manifest if it is in order, the files in order whose names come first, and the seal exactly when their number and bytes add up to the manifest. |
| `ContentProgress.KeptAll` | migrations/versions/20260929_0013_multifile_revision.py:382-394 | All files are kept exactly when each is in order and no name comes twice. |
| `ContentProgress.TagsGoThrough` | migrations/versions/20260930_0024_search_index_v2.py:85-108 | Which tags which Pages have after adding, dropping or reassigning one, and which marks that leaves; a refused statement changes nothing. |
| `PageStore.PageStore.Commit` | migrations/versions/20260929_0011_page_occurrence_corrections.py:116-126 | COMMIT succeeds exactly inside a transaction whose deferred foreign keys hold, and otherwise leaves the transaction open. |
| `PageStore.PageStore.Rollback` | src/patchouli_lib/database.py:70-72 | ROLLBACK returns to the committed tables. |
| `PageStore.PageStore.UpdatePageRow` | migrations/versions/20261001_0028_page_moves.py:299-325 | The UPDATE cascade, run trigger by trigger in any order, is accepted exactly when the specification accepts it and reaches the specified tables. |
| `PageStore.PageStore.InsertRevisionRow` | migrations/versions/20260813_0004_page_revision_content.py:377-404 | The Revision cascade, run trigger by trigger in any order, is accepted exactly when the specification accepts it and reaches the specified tables. |
| `PageStore.PageStore.InsertFileRow` | migrations/versions/20260929_0013_multifile_revision.py:382-408 | The same for the cascade of a file. |
| `PageStore.PageStore.TitleChangeAudited` | migrations/versions/20260930_0022_page_title_edits.py:65-84 | The title check accepts exactly when one unused audit names the Page and the new update time and nothing else changes. |
| `PageStore.PageStore.FirePageTrigger` | migrations/versions/20260929_0012_page_lifecycle.py:243-260 | Each AFTER UPDATE trigger, with its nested INSERT and DELETE and their own BEFORE triggers, does what the trigger function says. |
| `SearchIndex.ExecTracks` | migrations/versions/20260930_0024_search_index_v2.py:47-108 | One statement, accepted or not: a Page whose searchable view changes gets a mark above the previous dirty sequence. |
| `SearchIndex.ViewTellsApart` | migrations/versions/20260930_0024_search_index_v2.py:60-95 | Equal views of a Page mean equal searchable columns and tags, and the same current Revision with the same row, manifest, files and seal. |
| `SearchIndex.RunTracks` | migrations/versions/20260930_0024_search_index_v2.py:47-108 | From any committed state of any run, rollbacks included: a Page whose view is different later carries a mark above the counter of that state. |
| `SearchIndex.RunTracksWithoutRollback` | migrations/versions/20260930_0024_search_index_v2.py:47-108 | From any state inside a transaction the same holds as long as nothing is rolled back. |
| `RollbackMarks.RollbackTells` | migrations/versions/20260930_0024_search_index_v2.py:47-57 | From a state of a run the marks tell every later change of a view, whatever the run does next, exactly when the dirty sequence is where the last COMMIT left it: a ROLLBACK takes the sequence back. |
| `RollbackMarks.CountedBack` | migrations/versions/20260930_0024_search_index_v2.py:47-57 | Otherwise undoing the transaction and inserting another Page changes a view under a mark that is not above the earlier sequence. |
| `RollbackMarks.MarkTooLow` | migrations/versions/20260930_0024_search_index_v2.py:47-60 | A concrete run in which that happens. |
| `SearchIndex.FlushIsEnough` | src/patchouli_lib/database.py:64-68 | Recomputing the index rows of the Pages marked above the starting counter brings the whole index level with the authority tables. |
| `SearchIndex.IndexIsAlwaysLevel` | src/patchouli_lib/database.py:51-72 | At every commit of every sequence of wrapped transactions, whatever raises in them, the index equals the recomputed view of every Page. |
| `SearchIndex.ContentStmtTells` | migrations/versions/20260930_0024_search_index_v2.py:85-95 | A statement about Revisions, file sets, files or seals marks the Page whenever its current Revision is concerned. |
| `SearchCoordinator.Coordinator.Immediate` | src/patchouli_lib/database.py:51-72 | Begin, body, flush, commit, and rollback on any failure: tables and index end as the transaction model says, and it commits exactly when the body and the flush complete and the deferred keys hold. |
| `SearchCoordinator.Coordinator.FlushSince` | src/patchouli_lib/database.py:64-68 | The flushing loop recomputes exactly the rows marked above the given sequence. |
| `Tokenizer.ApplicationTokens` | scripts/evaluate_fts.py:370-418 | The scanner returns the tokens in order of first occurrence, and fails exactly when there are more distinct ones than the limit. |
| `Tokenizer.TokensAre` | scripts/evaluate_fts.py:388-418 | Each token is kept once, and the tokens are exactly the Han grams of one to three characters, the whole runs of word characters and the single visible characters of the text. |
| `Tokenizer.CollectMeaning` | scripts/evaluate_fts.py:381-386 | Appending unique tokens under a limit succeeds exactly when no more are distinct, and then keeps the same ones as without a limit. |
| `Tokenizer.Recall` | scripts/evaluate_fts.py:388-418 | If a query occurs in a text and neither end of it splits a run of word characters, every token of the query is a token of the text. |
| `Tokenizer.HanRecall` | scripts/evaluate_fts.py:390-401 | Wherever a non-empty Han query occurs, all its tokens are found. |
| `Tokenizer.SplitWordIsLost` | scripts/evaluate_fts.py:403-411 | A query of word characters inside one longer word is not found: the condition of recall is needed. |
| `Tokenizer.NoTokens` | scripts/evaluate_fts.py:388-418 | A text has no token exactly when all of it is space. |
| `ScaleSearch.IndexAgreesWithScan` | scripts/evaluate_fts.py:1864-1971 | For non-empty Han keywords, comma-free tags and loadable documents the gram index returns exactly the ordered list of the full scan, under every library, tag and half-open time filter and in whatever order rows come back; without Libraries it refuses. |
| `ScaleSearch.Load` | scripts/evaluate_fts.py:1808-1861 | Loading succeeds exactly when Page ids are distinct and no Page repeats a tag, and stores deleted Pages without indexing them. |
| `ScaleSearch.ScaleSearch` | scripts/evaluate_fts.py:1933-1953 | The search loop answers as specified: the selected rows ranked and sorted, refused without Libraries, empty where no keyword has a token; `SearchOrder` says which rows and in which order. |
| `ScaleSearch.ScaleExpected` | scripts/evaluate_fts.py:1956-1971 | The scan loop answers as specified: the wanted documents ranked and sorted; `SearchOrder` says which documents and in which order. |
| `SearchOrder.ScanFinds` | scripts/evaluate_fts.py:1956-1971 | The scan answers with the ids of exactly the live documents of the Libraries, time span and tags asked for in whose title or body some keyword occurs. |
| `SearchOrder.ScanOrder` | scripts/evaluate_fts.py:1913-1971 | Of two documents it answers with, the first has more points (10 for each keyword in the title, 1 for each in the body, 6 for each wanted tag), or as many and the smaller id. |
| `SearchOrder.SearchFinds` | scripts/evaluate_fts.py:1933-1953 | Of the rows SQL selected, the index search answers with exactly those in whose title or body some keyword occurs. |
| `SearchOrder.SearchOrder` | scripts/evaluate_fts.py:1951-1953 | They are in the same order: more points first, the smaller id on ties. |
| `ScaleSearch.SameFilter` | scripts/evaluate_fts.py:1890-1905 | The SQL conditions select a row exactly when the scan wants its document. |
| `ScaleSearch.SameRank` | scripts/evaluate_fts.py:1913-1930 | Ranking the stored row, its tag column split again, gives the rank of the document. |
| `ScaleSearch.HitMatches` | scripts/evaluate_fts.py:1872-1886 | A document in which some Han keyword occurs matches the MATCH expression. |
| `ScaleSearch.AscendingUnique` | scripts/evaluate_fts.py:1951-1953 | The sorted list is determined by what is sorted. |
| `SectionSearch.CandidateIndex.Replace` | scripts/evaluate_fts.py:557-631 | A replacement is refused exactly for a full Section, an oversized body or too many derived tokens; refused, it changes nothing; otherwise full-text and rank rows again follow the documents exactly, moves between Sections included. |
| `SectionSearch.CandidateIndex.Search` | scripts/evaluate_fts.py:634-717 | The answer from the index tables is the one recomputed from the stored documents: same refusals, every document with all query tokens, weights 10, 6, 4 and 1 over the number of query tokens, best first, ties by id, limited. |
| `SearchOrder.HitIs` | scripts/evaluate_fts.py:667-693 | Every hit is a document of the Section with every query token in some field, its score is 10, 6, 4 and 1 points for each token in title, tags, summary and body over the number of query tokens, and there are no more than the limit. |
| `SearchOrder.HitOrder` | scripts/evaluate_fts.py:688-690 | Of two hits the first has the higher score, or the same and the smaller id. |
| `SearchOrder.LeftOut` | scripts/evaluate_fts.py:688-693 | A matching document that is no hit is left out by a limit that is reached, and every hit has a higher score than it, or the same and a smaller id. |
| `SearchOrder.BytesAreUtf8` | scripts/evaluate_fts.py:436-441 | The byte limits count the bytes of the text in UTF-8. |
| `SectionSearch.AlwaysWithinLimits` | scripts/evaluate_fts.py:562-588 | After any sequence of replacements every Section stays within its Page limit and every document within its own limits. |
| `SectionSearch.SectionsAreIsolated` | scripts/evaluate_fts.py:641-693 | A Section's answers depend only on that Section's documents. |
| `SectionSearch.AnswerIsUnique` | scripts/evaluate_fts.py:650-693 | There is one answer to every query. |
| `SectionSearch.ScoresAgree` | scripts/evaluate_fts.py:667-693 | The sum over the rank table is the score recomputed from the text. |
| `SectionSearch.MatchingIdsAre` | scripts/evaluate_fts.py:650-663 | The rows MATCH and the Section select are those of the documents that have every query token, one each. |
| `PercentCodec.DecodeEncode` | web/src/references.ts:195-204 | Decoding undoes encoding, in front of any decodable text, for every character from one to four UTF-8 bytes. |
| `PercentCodec.EncodeAlphabet` | web/src/references.ts:195-204 | Encoded text holds only unreserved characters and percent signs. |
| `References.ResolveLocalTarget` | web/src/references.ts:3-27 | The resolving loop computes the specified function; `LinkTargets` says what that function is, without its steps. |
| `LinkTargets.SchemeIsRefused` | web/src/references.ts:8 | A letter, then letters, digits and + . -, then a colon: such a target is never local, whatever follows. |
| `LinkTargets.ResolveIs` | web/src/references.ts:3-27 | From a file in any directory a target resolves to nothing if it has a scheme, starts at the root or holds a control character, or if its path is malformed; otherwise exactly unless at some point more segments lead up than in, and then to the names, of the directory and of the path, that no later `..` leads out of, with the suffix kept. Empty segments and `.` lead nowhere. |
| `LinkTargets.WalkIs` | web/src/references.ts:18-25 | The walk over the segments fails exactly when the steps climb, and otherwise ends at those names. |
| `LinkTargets.DotSlash` | web/src/references.ts:8-25 | Behind `./` a path is looked at as a path even if it starts like a scheme or at the root. |
| `LinkTargets.DecodeIs` | web/src/references.ts:12-17 | Decoding succeeds exactly on texts that spell some text character by character, each as itself or as the escaped bytes of its UTF-8 form in digits of either case, and gives that text. |
| `References.RelativeTarget` | web/src/references.ts:28-36 | The stripping loop computes the relative path. |
| `References.LinkRoundTrip` | web/src/references.ts:3-36 | Resolving the encoded relative path plus any control-free ? or # suffix gives back target and suffix exactly when the target is the empty path or every segment it does not share with the directory of the source is non-empty and no dot segment. |
| `References.PlainTargetRoundTrip` | web/src/references.ts:3-36 | Targets of non-empty segments that are no dot segments always make the round trip. |
| `References.RenamedLinkResolves` | web/src/references.ts:195-204 | A rewritten link resolves to the new name from where its file is afterwards, the renamed file itself included. |
| `References.SelfLinkResolves` | web/src/references.ts:195-204 | In the renamed file itself the link resolves exactly when the last segment of the new name is plain, or the name is empty. |
| `ReferenceEdits.ApplyReferenceEdits` | web/src/references.ts:212-228 | It fails exactly when some selected edit is stale; otherwise every file is the one left-to-right simultaneous substitution of its own selected edits, and files without any are untouched. |
| `ReferenceEdits.SpliceIsSubstitute` | web/src/references.ts:218-225 | Splicing the leftmost edit into a text where all later ones are done is substituting it along with them. |
| `ReferenceEdits.EditsOfAre` | web/src/references.ts:217-219 | The edits substituted in a file are its selected ones, strictly ascending. |
| `ReferenceEdits.KeptText` | web/src/references.ts:222-225 | The substitution keeps the text between edits, and its length is the source plus what is inserted less what is removed. |
| `SchemaRewrite.SameOrderInverse` | migrations/versions/20261018_0031_optional_credential_expiry.py:62-68 | Whenever counted replacements succeed in both directions at disjoint sites with texts that do not overlap themselves, the inverses in the order of the upgrade return the original text. |
| `SchemaRewrite.RewriteIff` | migrations/versions/20260929_0017_actor_home_library.py:102-105 | At disjoint sites a rewrite succeeds exactly when at each pair the text so far counts as many occurrences as there are sites. |
| `SchemaRewrite.UnquoteIs` | migrations/versions/20260929_0017_actor_home_library.py:188-197 | A declaration with its table name quoted or not is taken up with the name unquoted. |
| `SchemaRewrite.TableRoundTrip` | migrations/versions/20260929_0017_actor_home_library.py:188-227 | The same for a whole declaration, up to the quotes of the table name. |
| `SchemaRewrite.RewriteAll` | migrations/versions/20261002_0029_caller_page_moves.py:48-59 | The folding loop with exact counts computes the specified rewrite, or fails where a count is wrong. |
| `SchemaRewrite.CountedPieces` | migrations/versions/20260929_0017_actor_home_library.py:102-105 | If a pattern that does not overlap itself is counted as often as it was written, the occurrences found are the ones written. |
| `SchemaRewrite.SelfOverlapBreaks` | migrations/versions/20261002_0029_caller_page_moves.py:48-51 | A replacement text that overlaps itself can be counted right in both directions and still not be undone: a concrete example. |
| `SchemaRewrite.ExpiryTextsBorderFree` | migrations/versions/20261018_0031_optional_credential_expiry.py:62-66 | None of the six texts of the credential migration overlaps itself. |
| `SchemaTexts.HomeTextsBorderFree` | migrations/versions/20260929_0017_actor_home_library.py:200-227 | None of the texts replaced in the declarations of the six tables overlaps itself. |
| `SchemaTexts.HomeTableRoundTrip` | migrations/versions/20260929_0017_actor_home_library.py:188-227 | Every declaration with these texts at disjoint places comes back from upgrade and downgrade, up to the quotes of its table name. |
| `SchemaTexts.MoveTextsBorderFree` | migrations/versions/20261002_0029_caller_page_moves.py:37-59 | None of the texts replaced in the declarations of the move tables overlaps itself. |
| `SchemaTexts.MoveTableRoundTrip` | migrations/versions/20261002_0029_caller_page_moves.py:54-59 | Every declaration of a move table with these texts at disjoint places comes back. |
| `LosslessRebuild.ThereAndBack` | migrations/versions/20260929_0017_actor_home_library.py:283-326 | One rebuild and then the other is the identity on rows in both directions, and the second is never refused. |
| `LosslessRebuild.DowngradeIffUpgraded` | migrations/versions/20260929_0017_actor_home_library.py:108-146 | A downgrade is accepted exactly on the databases some upgrade could have produced. |
| `LosslessRebuild.UpgradeKeysHold` | migrations/versions/20260929_0017_actor_home_library.py:283-326 | The last foreign key check of an upgrade never fails once its checks in advance have passed. |
| `LosslessRebuild.RebuildGoesThrough` | migrations/versions/20260929_0017_actor_home_library.py:108-146 | A rebuild goes through exactly when the schema is the other one and as expected, no guard is pending, and every row has its Caller (and audit rows their credential) in the Library of the row, which before a downgrade is its home; it then sets or takes away the home column of every row and changes nothing else. |
| `LosslessRebuild.HomeTables.Run` | migrations/versions/20260929_0017_actor_home_library.py:283-326 | Copying aside, dropping, recreating and copying back table by table converts every row and nothing else; a refusal leaves all as it was. |
| `LosslessRebuild.LifeThereAndBack` | migrations/versions/20260930_0019_master_lifecycle.py:223-266 | The same identity for the lifecycle events. |
| `LosslessRebuild.LifeGoesThrough` | migrations/versions/20260930_0019_master_lifecycle.py:81-105 | The lifecycle rebuild goes through exactly when the schema is the other one and as expected, no guard is pending and every event was made by a known Caller, and changes no event. |
| `LosslessRebuild.LifeDowngradeIffUpgraded` | migrations/versions/20260930_0019_master_lifecycle.py:81-105 | The lifecycle downgrade is accepted exactly on what an upgrade could have produced: matching keys and schema, no guard, and every event attributed to a Caller. |
| `LosslessRebuild.RebuildLifecycle` | migrations/versions/20260930_0019_master_lifecycle.py:223-266 | The copying loop computes the specified rows. |
| `RestoreRetry.SendIsStored` | web/src/history.tsx:301-322 | Whatever happens, an event sends at most one request, and that request then stands in the storage with the same key, path and body. |
| `RestoreDurability.OutstandingIsStored` | web/src/history.tsx:91-112 | In every run a request whose outcome is unknown is in the storage throughout, exactly when it is never abandoned with a removal that works and a check that throws. |
| `RestoreDurability.DurableStep` | web/src/history.tsx:91-112 | Every single event keeps it stored, except exactly that one. |
| `RestoreDurability.NoOtherIsSent` | web/src/history.tsx:258-322 | As long as nothing is lost that way, no other request is sent while one is outstanding. |
| `RestoreDurability.LossIsTheOnlyRisk` | web/src/history.tsx:91-112 | From a state with the outstanding request stored, and for any event: every continuation that loses nothing more sends no other request while one is outstanding, exactly when the event does not lose it. |
| `RestoreDurability.SecondRequestSent` | web/src/history.tsx:101-112 | A concrete run that sends a second request while the outcome of the first is unknown. |
| `RestoreDurability.ShownIffNeverHidden` | web/src/history.tsx:91-112 | In every run the request the dialog shows as unknown is in the storage throughout, exactly when it is never abandoned with a removal that works and a check that throws. |
| `RestoreDurability.ShownStep` | web/src/history.tsx:91-112 | The same for a single event. |
| `RestoreDurability.ShownButNotStored` | web/src/history.tsx:91-100 | A visit that finds a stored request, and an abandoning after which the dialog shows it and the storage is empty. |
| `RestoreDurability.ResendRestores` | web/src/history.tsx:258-322 | A click with a working write puts a lost request back and sends the very same one. |
| `RestoreDurability.LeftReplyKeeps` | web/src/history.tsx:341-371 | A final reply to a handler of a dialog that was left takes the new dialog's outstanding request out of the storage exactly when the removal works. |
| `RestoreDurability.LeftFetchSends` | web/src/history.tsx:288-322 | A handler left while fetching sends its own request although another is outstanding exactly when its write works. |
| `RestoreDurability.LeftFetchOverwrites` | web/src/history.tsx:288-322 | A concrete run: both requests are on their way, and only the one of the dialog that was left is stored. |
| `RestoreRetry.OneRevisionPerOperation` | migrations/versions/20261020_0037_workspace_receipts.py:29-51 | In every interleaving of lost responses, storage failures, late deliveries and reloads, one key always carries one path and body; the server never acts twice on one key, so each operation creates at most one Revision. |
| `RestoreProgress.NewRequestGoes` | web/src/history.tsx:258-322 | From every reachable state with a dialog open and nothing stored, a click and the fetched state store a new request, send it and await its reply. |
| `RestoreProgress.ConfirmedRequest` | web/src/history.tsx:324-353 | A confirmed request is on record under its key, has had its effect once, and dialog and storage are empty. |
| `RestoreProgress.RejectedRequest` | web/src/history.tsx:354-371 | A rejected first send leaves the dialog open with nothing stored, and the server as it was. |
| `RestoreProgress.RejectedRepetition` | web/src/history.tsx:354-371 | A rejected repetition leaves the request remembered and stored. |
| `RestoreProgress.LostResponse` | web/src/history.tsx:354-371 | After a lost or unusable response the request is remembered and stored. |
| `RestoreProgress.ReloadedRequest` | web/src/history.tsx:71-90 | A reload shows a readable stored request again, with its outcome unknown. |
| `RestoreProgress.ResentRequest` | web/src/history.tsx:258-322 | A click on it sends the very same request. |
| `RestoreProgress.RepeatedRestore` | migrations/versions/20261020_0037_workspace_receipts.py:29-51 | From every such state: the response is lost, whether or not the server acted, the page is reloaded, the request sent again and confirmed. Exactly one Revision was created, and nothing is left stored. |
| `RestoreRetry.RejectionIsFinal` | web/src/history.tsx:354-371 | Where the dialog takes a rejection as final, the request is not on record, created nothing, and no copy of it is still on its way. |
| `RestoreRetry.RunOk` | web/src/history.tsx:258-374 | Every state of every run satisfies the protocol invariant. |
| `RestoreDialog.Dialog.OnClick` | web/src/history.tsx:258-311 | The restore handler, statement by statement, makes exactly the protocol step, with any storage failure. |
| `RestoreDialog.Dialog.OnFetched` | web/src/history.tsx:288-322 | After the current state has arrived the new request is stored and only then sent. |
| `RestoreDialog.Dialog.OnReply` | web/src/history.tsx:324-371 | A confirmation, a rejection or anything else updates refs, state and storage as the protocol says. |
| `RestoreDialog.Dialog.Abandon` | web/src/history.tsx:101-112 | Abandoning clears the stored request and only then the state. |
| `RestoreDialog.Dialog.CloseModal` | web/src/history.tsx:234-240 | Closing does nothing while an outcome is unknown, and clears an unsent request first. |
| `RestoreDialog.Dialog.Reload` | web/src/history.tsx:71-90 | A reload starts from what the storage holds. |
| `ResourceLedger.RunDockerSmoke` | scripts/container_restore_smoke.py:458-593 | Whatever commands fail: every start and removal comes right after an inspection that found the run's label on its target; what was created and still exists had its look-up right after the creation fail, or the cleanup that ends the log could not read its label or remove it; the creations and starts ordered are a beginning of the plan. A normal return means the whole plan and nothing created left, and it does return so when every command works and the names are free. |
| `ResourceLedger.Ledger.Cleanup` | scripts/container_restore_smoke.py:287-302 | Every listed resource is attempted, containers, then volumes, then images, each last first, whatever fails; what is left of them could not be inspected or removed, and success means all of them are gone. |
| `ResourceLedger.Ledger.RemoveAll` | scripts/container_restore_smoke.py:289-300 | A failing removal does not stop the ones after it. |
| `ResourceLedger.Ledger.CreateOwned` | scripts/container_restore_smoke.py:375-412 | Whatever the creation reports, what exists afterwards is listed unless the look-up right after it failed; a failed creation is reported as failed even so. |
| `ResourceLedger.Docker.CreateAndFind` | scripts/container_restore_smoke.py:375-412 | Whatever is new after a creation and its look-up has the name asked for and was found, unless that look-up failed. |
| `ResourceLedger.Ledger.RemoveContainer` | scripts/container_restore_smoke.py:273-285 | A container is removed only right after its label was rechecked, and leaves the ledger only then. |
| `ResourceLedger.Ledger.RunContainer` | scripts/container_restore_smoke.py:442-455 | Running a container keeps everything that still exists in the ledger. |
| `ResourceLedger.NothingCreatedIsLeft` | scripts/container_restore_smoke.py:287-302 | If all created resources that still exist are listed and everything listed is gone, nothing created is left. |
| `ResourceLedger.OnlyStuck` | scripts/container_restore_smoke.py:287-302 | If everything created that still exists is listed or could not be looked up, and everything listed is settled by the cleanup, only stuck resources are left. |
| `CursorChain.CheckPagination` | scripts/bench_search_v2_matrix.py:449-489 | The checker accepts exactly the chains whose pages are the consecutive slices of a duplicate-free list with distinct non-empty inner cursors and a null last one; it always terminates and never leaves its loop by the page bound. |
| `CursorChain.Verdict` | scripts/bench_search_v2_matrix.py:469-487 | The first call that is not as it should be decides against the chain, and a right last page decides by its cursor and the duplicates. |
| `CursorChain.PageBounds` | scripts/bench_search_v2_matrix.py:466-477 | Every page of the list starts within the loop bound, and only the last ends with the list. |
| `LegacyRoutes.CanonicalIsNotRetired` | web/src/legacy-routes.ts:34-87 | No path of the site is redirected. |
| `LegacyRoutes.RetiredGoesToCanonical` | web/src/legacy-routes.ts:90-163 | Every retired path goes in one hop to a path that is not itself retired, and that the site has exactly unless the retired path names a Revision of a Page whose identity is `new`. |
| `RetiredScreens.ScreenGoes` | web/src/legacy-routes.ts:90-163 | Each of the fourteen retired screens below a Library, written as the segments of its path, is sent to the screen that replaces it: the Library, Page and Revision named in the path are kept, and the query carries the Library, or the Section and the Book, from their places. |
| `RetiredScreens.FixedScreens` | web/src/legacy-routes.ts:92-103 | The eight fixed retired screens and where each is sent. |
| `RetiredScreens.TrailingSlash` | web/src/legacy-routes.ts:91 | A slash at the end of a path makes no difference. |
| `RetiredScreens.RetiredExactly` | web/src/legacy-routes.ts:90-163 | A path has a redirect exactly when, up to that slash, it is one of the fixed screens or the path of one of the fourteen. |
| `SiteScreens.ScreensExactly` | web/src/legacy-routes.ts:34-87 | The site has exactly the listed screens, the credentials of a Caller, and the twelve screens of a Library, none of them below a Page or Skill `new`. |
| `SiteScreens.RevisionNumbers` | web/src/legacy-routes.ts:4-11 | A Revision number is a number up to the largest signed 64-bit integer in decimal, without leading zeros. |
| `LegacyRoutes.PreviewOfNewIsLost` | web/src/legacy-routes.ts:121-130 | The family of retired paths for which that fails: preview screens of the Revisions of `new`. |
| `LegacyRoutes.NewRevisionIsLost` | web/src/legacy-routes.ts:79-86 | A concrete one of them. |
| `Strings.SplitJoin` | web/src/references.ts:19-26 | Splitting undoes joining for pieces without the separator; joining nothing reads back as one empty piece. |

## Left out

- Hand-written rows of the title log: that log has no guard, so it grows only through its recording trigger here.
- Moves attributed to a Caller (migration 0029): a move is attributed to a master audit, as in 0028.
- Multi-row UPDATEs, deletion of Pages, `INSERT OR REPLACE` conflicts and schema changes while running.
- Rows of libraries, sections, books, callers and audits other than the master audit: the foreign keys of guards and Pages to them are not modelled.
- The collision counters, identifier registry and Page sources of migration 0004, and the receipt tables of 0028 and 0029.
- CHECKs on the form of identifiers and digests, and on file names beyond being non-empty.
- The digests of file sets: SQLite seals count and byte sum only; recomputing hashes is the business of services that are not part of this model.
- PageStore.PageStore.Execute: one connection; `BEGIN IMMEDIATE` makes writers serial, so concurrency between connections is not modelled.
- PageStore.PageStore.InsertRevisionRow: the order of the two marks of an UPDATE of `page_tags` is part of the statement; all other marks of one statement concern one Page.
- SearchCoordinator.Coordinator.FlushSince: `flush_dirty_since` and the projection of index rows are not part of this model; the flush is the recomputation from the view, and leaves the dirty rows as they are. Writes that bypass the wrapper leave the index behind and are not claimed about.
- Unicode normalization, case folding and character classes.
- The trigram and NFC-gram candidates of the scale experiment, and the native FTS5 candidates of the Section experiment with their snippets.
- ScaleSearch.IndexAgreesWithScan: stated for Han keywords; a keyword with a word character can occur inside a longer word, which the index does not find (`Tokenizer.SplitWordIsLost`).
- The Markdown scanning that finds links: edits are taken as given, in bounds and disjoint within each file, and the source spelling of suffixes with entities is taken as the suffix.
- Lone surrogates, which `encodeURIComponent` refuses, cannot arise in a Dafny string.
- The texts replaced in triggers by migrations 0017, 0019 and 0029, and in the tables of 0019: the general theorem holds for them, but that none of them overlaps itself is not shown.
- SchemaRewrite.SameOrderInverse: that the sites are disjoint is a hypothesis about the stored text, stated by giving the text with its sites; the declarations themselves are not part of this model.
- LosslessRebuild.HomeTables.Run: the checks of columns, triggers and indexes are one flag, and the shadow tables are a map; the SQL texts are in SchemaRewrite.
- RestoreDurability.LeftFetchSends: runs with several dialogs at once, after leaving the screen inside the application, are not modelled; what one handler left behind does to any state of a run is. A second tab has a storage of its own.
- ResourceLedger.RunDockerSmoke: an interrupt during the cleanup, and other programs acting between two commands, are not modelled; a zero exit status is taken to mean that the command had its effect, and a volume's identity is not its name.
- CursorChain.CheckPagination: a page limit of zero, which the code would divide by, is required not to happen.
- The constructor of query strings in the redirect map: values are identities, which need no escaping.
- Timing, latency statistics, corpus generators, Docker and TLS plumbing, React rendering and translations.
