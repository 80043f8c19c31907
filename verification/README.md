# Verification of the import, delivery and storage protocols

A Dafny model of the concurrent parts of the container entry and of the dump
rewriter beside it, with proofs of what they promise. Each module follows one
source file or one protocol; the specification of a loop or of an object's
method is a function, and the promises are lemmas about that function.

**CSV staging and apply** (`Csv*.dfy`). `CsvStage` is one row of the private
`stages` table and the updates made to it; `CsvSidecar` every synchronous
stretch of the staging service; `CsvRuns` the native run store; `CsvProtocol`
one state machine over both stores, the object directory, the clock and all
commands in flight: uploads, mappings, previews, purges, sweeps, claims, the
whole of an apply or resume command from its first read to its activation, and
the cancel command with its retries. Each event is at most one stretch between
two awaits, so a sequence of events is an arbitrary interleaving, with failures
and restarts. `CsvProtocolLaws`, `CsvProtocolSteps`, `CsvUploadSteps`,
`CsvApplySteps` and `CsvExecSteps` prove the invariant event by event;
`CsvGuarantees`, `CsvReplays`, `CsvCommands` and `CsvEmptyClaim` draw the
conclusions; `CsvAccess` says who can change a stage, and until when, `CsvSweeps` what a
sweep achieves among all other commands.
`CsvStagingService` and `CsvDisk` are the same stretches as objects with fields.
`CsvLedger` is the ledger of imported rows under every interleaving of commits,
`CsvResume` the resume check over it. `CsvPaging` and `CsvCursorText` are the
signed pages, `CsvCatalog` the source catalogue, `HexText` the form of a digest.

**Dump rewriter** (`D1*.dfy`). `D1Text`, `D1Utf8` and `D1Literals` hold the
round trips, `D1Rewrite` the cursor loops, `D1Preserve` and `D1Outcome` the
preservation of meaning, `D1Gate` and `D1Written` the wrapper and the gate.

**Shutdown and storage.** `EmailQueue` (the queue object and its drain) and
`EmailShutdown` (every interleaving of it), `OutboxScheduler`, `ApplyTicks`,
`DiskAttachments` with `AttachmentSafety` (every interleaving of puts and gets)
and `AttachmentStore` (put and get from beginning to end).

**Address box.** `InvoiceAddresses`.

## Assumptions

- A digest of a preview binding is injective; content digests need not be.
- Object keys are fresh, the clock does not go back, and authority does not
  change inside one stretch between two awaits (it may change at every await).
- Uploads are shorter than the retention window: the clock does not advance past
  the window while an upload's file is older than it (`CsvProtocol.UploadsPrompt`).
- The cursor signature is a function, 64 lower-case hex digits long; the JSON and
  base64url readers of the platform give back a position the service has written,
  and nothing is assumed of any other text (`CsvPaging.Sound`); a list has fewer
  than 2^53 items.
- What a worker computes, and the field checks of a mapping, are arbitrary values.
- A mail task settles, and each job has a bounded number of retries (its budget).

## Where the code does less than its documentation

- A claim without a request packet and with an empty preview id is accepted and
  records the empty id (`CsvEmptyClaim.EmptyPreviewClaimIsAccepted`); it records the
  current preview exactly when the id is not empty (`CsvGuarantees.PreviewIntegrity`).
- The rewriter does not follow quoting, so an ordinary literal whose text holds
  `unistr('` or ends in `unistr(` is taken for a call (`D1Outcome.LiteralIsRewritten`),
  and the gate does not see it (`D1Written.GateMissesTheLiteral`). A literal keeps
  its value exactly when its value is not such a text
  (`D1Outcome.LiteralKeepsItsValueExactly`); the whole output is the expected
  translation exactly when no run of the dump prints that opening.
- A dump that is only its transaction wrapper, and no other, is written empty and
  then the summary fails (`D1Written.SummaryIsMissingExactly`).
- The address printer is called the inverse of the parser, but a name holding
  U+2028 or U+2029, which the route accepts, does not come back
  (`InvoiceAddresses.SeparatorInNameIsRefused`).
- A second `close()` of the outbox scheduler resolves while the drain the first
  one waits for is still running (`OutboxScheduler.SecondCloseResolvesEarly`); a
  first one whose timeout is refused has closed the scheduler all the same.

## Model

| member | source | states |
|---|---|---|
| CsvGuarantees.Reachable | entries/container/src/csv-staging-service.ts:334-363 | the global invariant over rows, previews, files, runs and every command in flight holds after every sequence of events |
| CsvGuarantees.StepKeeps | entries/container/src/csv-staging-service.ts:661-1349 | each single event, whichever command or failure it belongs to, keeps that invariant and moves both stores one permitted step |
| CsvGuarantees.StartIsOk | entries/container/src/csv-staging-service.ts:267-330 | the empty service satisfies the invariant |
| CsvGuarantees.OneStep | entries/container/src/csv-staging-service.ts:351-358 | one event changes a row only by one guarded edit that adds one to its version |
| CsvGuarantees.VersionsCountWrites | entries/container/src/csv-staging-service.ts:351-363 | no ABA: over a whole run a version counts the writes of its row exactly, so equal versions are the same row; lifecycle rank never falls, write-once columns are kept, lease generations never fall |
| CsvGuarantees.OneWriterPerVersion | entries/container/src/csv-staging-service.ts:351-358 | of all commands that read one version of a stage at most one ever writes |
| CsvGuarantees.OneActivationPerStage | entries/container/src/csv-apply-service.ts:48-58 | at most one native run is ever activated for a stage: the one its row names, under the confirming command, and bound before any cancellation was recorded |
| CsvGuarantees.CancelledStageRefusesBind | entries/container/src/csv-staging-service.ts:1232-1242 | once a cancellation is recorded no bind is acknowledged and neither store changes |
| CsvGuarantees.CancelledRunStaysStopped | packages/db/src/csv-apply-runtime.ts:435-462 | a cancelled native run is never runnable or activated again, whatever was in flight |
| CsvGuarantees.ObjectCustody | entries/container/src/csv-staging-service.ts:679-762 | in every reachable state a stage that is not purged has its file, with the recorded length and digest, and a cleared key means the file is gone |
| CsvGuarantees.KeyClearedAfterFile | entries/container/src/csv-staging-service.ts:996-1013 | a row lets go of its object key only when purged and with the file already unlinked, and otherwise keeps the same key |
| CsvGuarantees.SweepLeavesNoOrphan | entries/container/src/csv-staging-service.ts:1337-1349 | a sweep that has gone through its listing leaves no file older than its cutoff that no row names |
| CsvGuarantees.PreviewIntegrity | entries/container/src/csv-staging-service.ts:889-930 | every previewed, confirmed or finished stage has its own saved preview bound to its target, owner, file and present choices; from confirmation until purge the confirmed preview is the current one if and only if the recorded id is not empty; a purged stage has none |
| CsvGuarantees.PacketClaimsConfirmCurrent | entries/container/src/csv-apply-service.ts:248-254 | when claims carry their packet, as the command layer's do, the confirmed preview is the current one without exception |
| CsvGuarantees.OneLiveStagePerFile | entries/container/src/csv-staging-service.ts:724-757 | two unexpired staged or previewed stages of one target, owner, digest and length are the same stage |
| CsvGuarantees.OneWorkItem | entries/container/src/csv-staging-service.ts:308-317 | at most one parse or plan is in progress at any time, whether an upload, a preview or an apply command asked for it |
| CsvStage.EditKeepsOrder | entries/container/src/csv-staging-service.ts:1125-1129 | every update issued under its guard keeps the row well-formed, never lowers the lifecycle rank and writes each once-only column at most once |
| CsvSidecarLaws.CurrentIsTheRowRead | entries/container/src/csv-staging-service.ts:359-363 | when the re-read after an await passes, the row is the very one read before it |
| CsvSidecarLaws.WriteMovesForward | entries/container/src/csv-staging-service.ts:351-358 | one guarded edit moves exactly one row forward by one version and touches no other |
| CsvAccess.OthersChangeNothing | entries/container/src/csv-staging-service.ts:332-342 | whatever event happens, a row changes only for its owner, with authority, over the destination it was staged for, or by a sweep or its run's progress, which leave every decision of the owner alone |
| CsvAccess.OwnerDecidesAlone | entries/container/src/csv-staging-service.ts:332-363 | over any run without an event for its owner, a stage is not mapped, previewed, confirmed, cancelled or bound, and at most purged |
| CsvAccess.ExpiredNeverConfirmed | entries/container/src/csv-staging-service.ts:343-350 | a stage whose window has passed unconfirmed is never confirmed, bound or activated, whatever was in flight |
| CsvReplays.ClaimReplayNeverWrites | entries/container/src/csv-staging-service.ts:1108-1117 | after an accepted claim and any further events, every accepted claim on the stage leaves the row and its version alone |
| CsvReplays.CancellationReplayNeverWrites | entries/container/src/csv-staging-service.ts:1042-1046 | after a recorded cancellation only that same request is accepted, and it writes nothing |
| CsvReplays.BindReplayNeverWrites | entries/container/src/csv-staging-service.ts:1250-1254 | repeating an acknowledged bind after any events acknowledges or refuses, and never writes |
| CsvReplays.RunsOnlyEvolve | packages/db/src/csv-apply-runtime.ts:222-366 | over any run every native run only moves forward and keeps every command it accepted |
| CsvReplays.ClaimConfirmsCurrentPreview | entries/container/src/csv-staging-service.ts:1104-1129 | an accepted claim records the current preview if and only if the preview id it names is not empty |
| CsvReplays.PacketNamesThePreview | entries/container/src/csv-staging-service.ts:1091-1103 | a claim with a request packet always names a preview, so the command layer never meets the empty case |
| CsvEmptyClaim.EmptyPreviewClaimIsAccepted | entries/container/src/csv-staging-service.ts:364-372 | from nothing, fourteen events, an upload, a mapping, a preview and one claim without packet and preview id, lead to a stage confirmed under the empty id |
| CsvRuns.AcceptedOnce | packages/db/src/csv-apply-runtime.ts:222-262 | a command accepted once only replays or is refused, however the run moved on |
| CsvRuns.HeldStays | packages/db/src/csv-apply-runtime.ts:106-117 | a run snapshot somebody holds stays exact as long as the generation has not moved |
| CsvCommands.OneRunPerStage | entries/container/src/csv-apply-service.ts:208-232 | all commands of a stage that were ever accepted were accepted by one run, and every receipt a run keeps is among them |
| CsvCommands.RepeatedCommandIsInert | entries/container/src/csv-apply-service.ts:203-313 | after a command of a stage has been accepted and any further events, no run whatever accepts it again, no claim on the stage writes, and the confirmation stays as it was |
| CsvCommands.AcceptedIsOnlyAnswered | entries/container/src/csv-apply-service.ts:208-232 | offered again while a run serves the stage, an accepted command meets that very run and its receipt, and is answered or refused as a conflict |
| CsvCommands.CancelStopsTheStage | entries/container/src/csv-apply-service.ts:322-364 | once a cancel command has ended its loop, no run of the stage is runnable in any later state |
| CsvCommands.AttemptEndsTheLoop | entries/container/src/csv-apply-service.ts:341-364 | an attempt ends the loop if and only if it leaves no partial run of the stage; only a refused stop goes round again |
| CsvCommands.HistoryGrows | packages/db/src/csv-apply-runtime.ts:222-366 | accepted commands and finished cancellations are never forgotten |
| CsvStagingService.StagingService.Insert | entries/container/src/csv-staging-service.ts:724-757 | an answered upload leaves exactly one unexpired stage of its file that can still be mapped; a new row appears only when there was none; on refusal and on a duplicate nothing changes |
| CsvStagingService.StagingService.EndMap | entries/container/src/csv-staging-service.ts:848-866 | the mapping is stored if and only if the row is still the very row read at the start and its user may act; then that one row moves one version, loses its preview and keeps the rest; otherwise nothing changes |
| CsvStagingService.StagingService.EndPreview | entries/container/src/csv-staging-service.ts:910-930 | preview and row are written together or not at all, exactly when the row is unchanged; the stored preview then describes the row, and no other preview is touched |
| CsvStagingService.StagingService.BeginPurge | entries/container/src/csv-staging-service.ts:996-1008 | refused if and only if the user may not act or the stage is confirmed; otherwise the stage is purged with its key kept and all its previews gone, and no other row or preview changes |
| CsvStagingService.StagingService.EndPurge | entries/container/src/csv-staging-service.ts:1008-1013 | the key is let go if and only if the purged row is unchanged, and nothing else of it changes |
| CsvStagingService.StagingService.ClaimConfirmation | entries/container/src/csv-staging-service.ts:1088-1135 | an accepted claim leaves the stage confirmed by its command at the returned version: a replay writes nothing, and a new one has met an unexpired, uncancelled, previewed row at the expected version and names the current preview; a refused one changes nothing |
| CsvStagingService.StagingService.RequestOwnedCancellation | entries/container/src/csv-staging-service.ts:1016-1057 | an accepted request is on the row of the confirmation it names: there already, with nothing written, or recorded by one write at the expected version; a refused one changes nothing |
| CsvStagingService.StagingService.BindConfirmedRun | entries/container/src/csv-staging-service.ts:1232-1261 | an acknowledged bind is on a confirmed, uncancelled row under its command, never with an older lease; it writes nothing when already there, else one row by one version; a refused one changes nothing |
| CsvStagingService.StagingService.MarkSystemProgress | entries/container/src/csv-staging-service.ts:1262-1301 | recorded progress moves the bound confirmed row one version to the status of the phase; an end is dated in the past and sets the deadline a retention window later; otherwise nothing changes |
| CsvStagingService.StagingService.SweepRow | entries/container/src/csv-staging-service.ts:1323-1337 | one expired row ends purged, without previews and without its file |
| CsvStagingService.StagingService.SweepRows | entries/container/src/csv-staging-service.ts:1307-1338 | undisturbed, a sweep purges every expired row and touches no other row, preview or file |
| CsvSweeps.SweepClearsEveryExpiredRow | entries/container/src/csv-staging-service.ts:1305-1339 | whatever happens beside a sweep: once it has come to its directory listing, every row expired when it began is purged, has no file any more and never gets one again |
| CsvSweeps.SweepGoesOn | entries/container/src/csv-staging-service.ts:1322-1338 | a row a sweep has taken up is still to come or purged without its key, as long as nothing ends the sweep |
| CsvSweeps.OthersLeaveSweep | entries/container/src/csv-staging-service.ts:1322-1338 | no other command or sweep moves a sweep on |
| CsvDisk.StagingDisk.Put | entries/container/src/csv-staging-disk.ts:49-84 | installs the object exactly when the stream arrives whole with the promised length and digest within the budget and nothing fails; otherwise the directory is as before, but for a temporary whose own removal failed |
| CsvDisk.StagingDisk.RoundTrip | entries/container/src/csv-staging-disk.ts:49-108 | what was installed reads back as it was sent, and deleting it leaves the directory as before |
| CsvDisk.StagingDisk.SweepOrphans | entries/container/src/csv-staging-disk.ts:109-125 | removes exactly the files at or before the cutoff that are not known objects |
| CsvDisk.ConcatGrows | packages/api/src/csv-import-staging-contract.ts:293-303 | a stream over its budget at some chunk is over it as a whole |
| CsvResume.AcceptHistory | entries/container/src/csv-staging-service.ts:1150-1205 | the version check, the guards and the loops accept a changed import history exactly when the declarative predicate does |
| CsvResume.AcceptedExactly | entries/container/src/csv-staging-service.ts:1150-1205 | after any events since the preview a resumable run is accepted if and only if no previewed row has changed its seconds and every row added since is one this run has committed |
| CsvResume.JoinIsTheChunk | entries/container/src/csv-staging-service.ts:1194-1204 | in a consistent ledger the comparison of line and seconds in the join never fails: a chunk of the run is enough |
| CsvResume.AcceptedOnlyGrows | entries/container/src/csv-staging-service.ts:1150-1205 | every key accepted once is in every later history; while resumes are accepted the previewed rows keep their seconds, and an entry that differs is the run's own row whose time entry was changed since |
| CsvResume.OwnProgressIsAccepted | entries/container/src/csv-staging-service.ts:1170-1205 | the run's own commits and acknowledgements never stand in the way of resuming it |
| CsvLedger.LedgerGrows | packages/db/src/migrations/0164_csv_browser_dataset.ts:64-76 | whatever happens, plans, closed runs, rows with their evidence and chunks are never lost or changed, chunks fill the positions of a run without gap, and each stands for a row with its very evidence |
| CsvLedger.ReachableLedger | packages/db/src/migrations/0164_csv_browser_dataset.ts:20-36 | the ledger is consistent after any events from an empty one |
| CsvLedger.StepKeeps | packages/db/src/csv-browser-import.ts:280-326 | each write batch, seal, import or edit keeps the ledger consistent |
| CsvLedger.RepeatedCommitWritesNothing | packages/db/src/csv-browser-import.ts:643-740 | a row committed once is never committed again: whatever later ledgers its reads see, in any order, committing or acknowledging it once more and recovering from a failed batch answer the first outcome or are refused, and a batch already decided changes nothing any more |
| CsvLedger.DecidedBatchFits | packages/db/src/csv-browser-import.ts:332-385 | where nothing happens in between, the batch a commit or an acknowledgement decides on goes through if and only if the run has a row left to commit |
| CsvLedger.WrittenByChunks | packages/db/src/csv-browser-import.ts:714-733 | the rows written in a run's name are exactly the rows its chunks inserted, all of its own source |
| CsvLedger.CompleteIsWhole | packages/db/src/csv-browser-import.ts:742-776 | a completed run stays so and has committed as many different keys as rows were selected, each with its row and evidence |
| CsvPaging.CursorIsForItsListOnly | entries/container/src/csv-staging-service.ts:471-519 | the cursor a page carries is accepted for a question if and only if it is the same preview, the same list and the same page size, and then stands for the item behind that page |
| CsvPaging.AcceptedCursorIsSigned | entries/container/src/csv-staging-service.ts:473-500 | whatever is accepted carries the signature of its own text and names this list |
| CsvPaging.PagesAreTheWholeList | entries/container/src/csv-staging-service.ts:503-519 | for every list of every preview, following the cursors never fails and yields the whole list in order in as many pages as it needs |
| CsvPaging.FollowFrom | entries/container/src/csv-staging-service.ts:471-519 | the same from any page on |
| CsvPaging.IssuedIsShort | entries/container/src/csv-staging-service.ts:472 | no cursor the service issues is longer than 357 characters, so the limit of 2048 never refuses one |
| CsvPaging.StrictReaderIsSound | entries/container/src/csv-staging-service.ts:481-500 | the one assumption about the readers, that they give back what was written, is met by a reader of written texts alone |
| CsvPaging.ScopeNamesTheQuestion | entries/container/src/csv-staging-service.ts:942-985 | two questions have the same scope if and only if they are the same |
| CsvPaging.ListedIsVerbatim | entries/container/src/csv-staging-service.ts:955-986 | whatever is listed has a short scope that JSON writes as it is; an unknown source key lists nothing |
| CsvCursorText.TextRoundTrip | entries/container/src/csv-staging-service.ts:505-513 | the text of a position is read back, and holds no dot |
| CsvCursorText.Base64RoundTrip | entries/container/src/csv-staging-service.ts:505-513 | base64url without padding decodes to the bytes encoded, four signs for three bytes (RFC 4648, section 5) |
| CsvCursorText.JsonRoundTrip | entries/container/src/csv-staging-service.ts:506-512 | a text is read as a position if and only if it is what is written for that position |
| CsvCursorText.TextLength | entries/container/src/csv-staging-service.ts:505-513 | the text of a position is bounded by its preview and scope |
| CsvCatalog.BuildCatalog | entries/container/src/csv-staging-service.ts:521-604 | the nested loops compute the catalogue of first visits |
| CsvCatalog.VisitRow | entries/container/src/csv-staging-service.ts:532-603 | the inner loop over the four kinds of one row |
| CsvCatalog.CatalogIsComplete | entries/container/src/csv-staging-service.ts:521-604 | each key appears once, exactly the keys some row carries; excluded exactly when no selected row carries it; every parent key is itself listed |
| CsvCatalog.EntriesAreFirstVisits | entries/container/src/csv-staging-service.ts:553 | the entry of a key is made by the first visit of that key |
| CsvCatalog.OrderedSelectsFirst | entries/container/src/csv-staging-service.ts:526-530 | sorting is a stable partition: every row as often as before, the selected ones first, both groups in file order |
| CsvCatalog.EntryKindIsColumn | entries/container/src/csv-staging-service.ts:532-556 | with keys disjoint by kind an entry has the kind of the column its key comes from |
| D1Text.JoinLines | scripts/d1ify.py:166-175 | splitting at newlines and joining gives the text back |
| D1Text.LinesJoin | scripts/d1ify.py:166-175 | joining lines and splitting gives the lines back |
| D1Text.ContainsJoined | scripts/d1ify.py:148-175 | a text without newline occurs in the joined file exactly when one line holds it |
| D1Text.Find | scripts/d1ify.py:69 | the first occurrence, or none when there is none |
| D1Utf8.Utf8RoundTrip | scripts/d1ify.py:92 | UTF-8 decoding is the exact inverse of encoding and accepts nothing else (RFC 3629, section 3) |
| D1Utf8.HexRoundTrip | scripts/d1ify.py:92 | a hexadecimal blob reads back as its bytes |
| D1Utf8.FixedRoundTrip | scripts/d1ify.py:108-114 | a number written with enough hexadecimal digits reads back |
| D1Literals.QuoteRoundTrip | scripts/d1ify.py:75-87 | a literal reads as a text exactly when it is that text with its quotes doubled |
| D1Literals.UnescapeSpelled | scripts/d1ify.py:98-121 | every properly escaped text is read back, whatever else the number parser accepts |
| D1Literals.EscapeRoundTrip | scripts/d1ify.py:98-121 | escaping any text the way the dump does and unescaping it gives the text back |
| D1Literals.DecodeUnistr | scripts/d1ify.py:98-121 | the cursor loop computes the unescaping function, errors included |
| D1Rewrite.ReadLiteral | scripts/d1ify.py:74-87 | the inner cursor loop reads exactly one literal |
| D1Rewrite.RewriteOne | scripts/d1ify.py:73-94 | one call is read and replaced, or refused with its offset |
| D1Rewrite.RewriteUnistr | scripts/d1ify.py:65-94 | the outer loop computes the rewriting function, errors included |
| D1Preserve.RewritePreservesMeaning | scripts/d1ify.py:65-94 | the output is the expected translation, all other tokens kept and each call its cast, if and only if no run of tokens prints the opening of a call; in that translation every value is the same |
| D1Preserve.RewriteAfterIsExpected | scripts/d1ify.py:65-94 | the same behind any text already passed |
| D1Preserve.ValuesAreKept | scripts/d1ify.py:91-93 | each hexadecimal cast, decoded as UTF-8, is the value of the call it replaces |
| D1Preserve.FindAfterRun | scripts/d1ify.py:69 | behind a clean run the next call is the first one found: no occurrence straddles |
| D1Outcome.AcceptedExactlyWhenReadable | scripts/d1ify.py:65-94 | a dump text is accepted if and only if it reads as clean tokens whose calls all evaluate, and the output is their translation |
| D1Outcome.CleanIsAccepted | scripts/d1ify.py:65-121 | a dump without look-alikes is accepted exactly when every call in it evaluates to text |
| D1Outcome.NoNewlineAdded | scripts/d1ify.py:22-24 | the rewritten text has at most the newlines of the dump |
| D1Outcome.RewrittenIsFinal | scripts/d1ify.py:65-94 | the rewritten text holds no opening of a call, so rewriting again changes nothing |
| D1Outcome.LiteralLooksLikeCall | scripts/d1ify.py:69 | a literal prints the opening of a call exactly when its value holds it or ends in the function name and parenthesis |
| D1Outcome.LiteralIsRewritten | scripts/d1ify.py:69 | the ordinary text unistr('') is rewritten inside its literal |
| D1Outcome.LiteralKeepsItsValueExactly | scripts/d1ify.py:65-94 | a text literal of an accepted dump, behind a prefix that opens no call, still reads as its value if and only if that value neither holds the opening of a call nor ends in the function name and parenthesis |
| D1Gate.StripTransactionWrapper | scripts/d1ify.py:124-138 | drops exactly the first BEGIN among the first five lines and the COMMIT that is the last line not blank, all other lines in order |
| D1Gate.FindBegin | scripts/d1ify.py:127-131 | the first BEGIN of the header, or none |
| D1Gate.FindLast | scripts/d1ify.py:132-135 | the last line that is not blank |
| D1Gate.OffendingLine | scripts/d1ify.py:141-155 | the first line that would be refused, or none when no line would |
| D1Gate.LongestLine | scripts/d1ify.py:177 | the largest byte length of any line |
| D1Gate.D1ify | scripts/d1ify.py:158-184 | a run fails, names the first offender, or writes the stripped lines, and reports truthfully |
| D1Written.WrittenIsAcceptable | scripts/d1ify.py:166-175 | a written file holds no unistr( and no refusable line, and its lines are the rewritten lines without the wrapper |
| D1Written.AnyCaseIsRefused | scripts/d1ify.py:144-148 | a line is refused whatever the case of its keyword and the space before it |
| D1Written.NothingLeftIsWrapperOnly | scripts/d1ify.py:124-138 | nothing is left exactly when the dump is the wrapper and nothing else |
| D1Written.SummaryIsMissingExactly | scripts/d1ify.py:173-177 | for every dump and every answer: the run stops after writing an empty file, without its summary, if and only if the dump is a bare wrapper |
| D1Written.BareWrapperHasNoSummary | scripts/d1ify.py:173-177 | the dump of an empty database, BEGIN TRANSACTION and COMMIT alone, is such a one |
| D1Written.WrapperSurvives | scripts/d1ify.py:65-94 | rewriting neither makes a bare wrapper of a dump nor changes one |
| D1Written.GateMissesTheLiteral | scripts/d1ify.py:148 | the gate has no objection to the literal that was rewritten inside |
| InvoiceAddresses.ParseInvoiceAddressLines | apps/web/src/invoice-addresses.ts:30-53 | the loop with its set of seen keys computes the parse function, the first wrong line included |
| InvoiceAddresses.RoundTripExactlyForCanonical | apps/web/src/invoice-addresses.ts:18-53 | a list comes back from its printed form if and only if its addresses are canonical and no two share an email ignoring case |
| InvoiceAddresses.ReprintIsStable | apps/web/src/invoice-addresses.ts:18-53 | for any text that parses, printing and parsing again changes nothing |
| InvoiceAddresses.KeepsTheFirsts | apps/web/src/invoice-addresses.ts:46-50 | the kept addresses are, in order, exactly the first of each email |
| InvoiceAddresses.ParsedListIsCanonical | apps/web/src/invoice-addresses.ts:33-52 | whatever parses is canonical |
| InvoiceAddresses.NamedIsShortestMatch | apps/web/src/invoice-addresses.ts:35 | the named form is what the lazy pattern matches: the shortest group, or none when nothing matches |
| InvoiceAddresses.LineRoundTrip | apps/web/src/invoice-addresses.ts:19-20 | every canonical address is read back from its own line |
| InvoiceAddresses.SeparatorInNameIsRefused | apps/web/src/invoice-addresses.ts:35-45 | a name with a line or paragraph separator passes every check but its printed line is refused |
| InvoiceAddresses.SeparatorExample | packages/core/src/invoice-recipients.ts:54-60 | one such address |
| InvoiceAddresses.SplitJoin | apps/web/src/invoice-addresses.ts:22-23 | joined lines split into themselves |
| EmailQueue.ContainerEmailQueue.Send | entries/container/src/email-queue.ts:77-80 | schedules one task, or refuses once closing |
| EmailQueue.ContainerEmailQueue.TimerFires | entries/container/src/email-queue.ts:39-48 | starts the task of a live timer and takes it off the waiting list |
| EmailQueue.ContainerEmailQueue.TaskRetries | packages/mailer/src/index.ts:984-1000 | a running task schedules one retry with a smaller budget |
| EmailQueue.ContainerEmailQueue.TaskSettles | entries/container/src/email-queue.ts:65-75 | a settled task leaves the active set |
| EmailQueue.ContainerEmailQueue.StartWaiting | entries/container/src/email-queue.ts:88-92 | one pass starts every waiting task, oldest first, timers cleared |
| EmailQueue.ContainerEmailQueue.AwaitAll | entries/container/src/email-queue.ts:93 | waiting ends with every task of the snapshot settled, whatever else happens meanwhile, or with the time over while one of them runs |
| EmailQueue.ContainerEmailQueue.Close | entries/container/src/email-queue.ts:82-117 | a timeout that is none changes nothing; otherwise nothing new is accepted, and the drain terminates with nothing waiting or running and every task ever scheduled started exactly once, or its time is over while a task runs |
| EmailQueue.StartAllIs | entries/container/src/email-queue.ts:88-92 | after one pass nothing waits and everything that waited runs |
| EmailShutdown.StartedExactlyOnce | entries/container/src/email-queue.ts:33-75 | over every interleaving a task waits with a live timer or was started exactly once, by timer or drain |
| EmailShutdown.DrainedForGood | entries/container/src/email-queue.ts:86-95 | once one drain is finished nothing waits, runs or ever starts again |
| EmailShutdown.DrainsEnd | entries/container/src/email-queue.ts:86-95 | after a close a bounded number of events can happen before somebody closes again |
| EmailShutdown.StuckMeansDrained | entries/container/src/email-queue.ts:86-95 | where nothing more can happen every drain is finished and both sets are empty |
| EmailShutdown.AnswersAreFinal | entries/container/src/email-queue.ts:97-117 | an answered close call stays so; one told that its drain is done leaves nothing waiting or running for good |
| EmailShutdown.LateMetRunning | entries/container/src/email-queue.ts:97-117 | a close call is told that its time is over only while a task runs, and its drain goes on unchanged |
| EmailShutdown.StepCosts | entries/container/src/email-queue.ts:65-95 | every event after a close uses up potential |
| OutboxScheduler.ContainerOutboxScheduler.DrainOnce | entries/container/src/outbox-scheduler.ts:49-70 | joins the active drain, begins one when there is none, refuses when closed |
| OutboxScheduler.ContainerOutboxScheduler.StartPolling | entries/container/src/outbox-scheduler.ts:42-47 | a timer and a first drain, once, unless closed |
| OutboxScheduler.ContainerOutboxScheduler.CloseAndWait | entries/container/src/outbox-scheduler.ts:72-97 | closes for good whatever it answers; it is refused for its timeout exactly when a first close has a drain to wait for, ends late only with that drain in flight, and otherwise leaves nothing in flight; a later close returns at once |
| OutboxScheduler.SingleFlight | entries/container/src/outbox-scheduler.ts:49-57 | over every interleaving at most one drain is in flight and calls then join it |
| OutboxScheduler.FirstCloseIsFinal | entries/container/src/outbox-scheduler.ts:72-97 | once a close that found the scheduler open has ended nothing starts again, and unless it was cut short nothing runs |
| OutboxScheduler.CutShortWhileDraining | entries/container/src/outbox-scheduler.ts:72-97 | such a close ends cut short if and only if it ends while a drain is in flight; without a drain a bad timeout goes unnoticed |
| OutboxScheduler.LaterCloseDoesNotWait | entries/container/src/outbox-scheduler.ts:73 | a close call resolves with a drain in flight if and only if the scheduler is already closed and that drain has not ended |
| OutboxScheduler.SecondCloseResolvesEarly | entries/container/src/outbox-scheduler.ts:73 | two close calls during one drain: the second resolves first |
| ApplyTicks.CsvImportApply.StartTick | entries/container/src/csv-apply-service.ts:405-464 | begins a tick only when none is in flight and nothing is closed |
| ApplyTicks.CsvImportApply.CloseAndWait | entries/container/src/csv-apply-service.ts:400-404 | every close ends with no tick in flight |
| ApplyTicks.OneTickAtATime | entries/container/src/csv-apply-service.ts:405-464 | over every interleaving at most one tick is in flight |
| ApplyTicks.EveryCloseIsFinal | entries/container/src/csv-apply-service.ts:400-404 | once any close call has resolved nothing runs and nothing begins again |
| DiskAttachments.KeyNamesItsHash | entries/container/src/disk-attachments.ts:17-25 | a key is accepted if and only if it is the key of some hash, and names that hash |
| AttachmentSafety.StepKeepsInv | entries/container/src/disk-attachments.ts:81-154 | every step of every call, failure or crash keeps the store consistent and every published file as it is |
| AttachmentSafety.PublishedNeverChanges | entries/container/src/disk-attachments.ts:104-123 | a published name leads to bytes of that digest and to those very bytes for ever |
| AttachmentSafety.GetNeverSeesPart | entries/container/src/disk-attachments.ts:125-154 | an answered get has the whole file, and no content check of a get or a collided put ever fails |
| AttachmentSafety.StoredIsPublished | entries/container/src/disk-attachments.ts:104-123 | a put that succeeded has published its key for good |
| AttachmentSafety.TempOnlyAfterFailure | entries/container/src/disk-attachments.ts:95-114 | a temporary file outlives the calls only after a failed write, a failed removal or a crash |
| AttachmentSafety.NothingLostWithoutFailure | entries/container/src/disk-attachments.ts:95-114 | without such a failure nothing is left behind |
| AttachmentStore.DiskStore.Put | entries/container/src/disk-attachments.ts:82-123 | the answer, the names and the files it leaves, exactly, for every combination of failures, with the store consistent and every published file unchanged throughout |
| AttachmentStore.DiskStore.Get | entries/container/src/disk-attachments.ts:125-154 | nothing for an absent name, the whole matching file otherwise |
| AttachmentStore.DiskStore.WriteTemp | entries/container/src/disk-attachments.ts:94-101 | a new temporary file with all the bytes, or with exactly those written before the failure |

## Left out

- CsvGuarantees.SweepLeavesNoOrphan: speaks of files at the end of the listing, under the assumption that uploads are shorter than the retention window.
- CsvStagingService.StagingService.SweepRows: runs undisturbed; the sweep among other commands is `CsvSweeps.SweepClearsEveryExpiredRow`.
- CsvSweeps.SweepClearsEveryExpiredRow: a sweep that loses a race for one row ends there, as a command that fails, and the next sweep takes up what it has left.
- CsvCommands.CancelStopsTheStage: the three attempts are modelled as such; a refusal of another kind than a moved run ends the command, which is an abandoned task.
- CsvResume.AcceptedExactly: one source and one run at a time, histories in any order; the command machine itself takes the outcome of this check as an arbitrary value (`CsvProtocol.StillPreviewed`).
- CsvLedger.RepeatedCommitWritesNothing: the lease, the destination fence and the account closures are one arbitrary answer per statement; a failed batch is an event that changes nothing, and whether it failed on a duplicate key is any answer; setup records and draft runs are not part of the ledger.
- CsvCatalog.CatalogIsComplete: entries carry kind, key, parents and state, not labels, candidates and selected destinations.
- D1Literals.UnescapeSpelled: digits that are not plain hexadecimal go to a parameter, since the script's number parser also takes signs, blanks, underscores and other scripts' digits.
- D1Gate.OffendingLine: capital letters follow ASCII and the listed characters whose capital form holds ASCII letters; the text of the message is not modelled.
- InvoiceAddresses.ParseInvoiceAddressLines: lower-casing is a parameter, and text holds whole characters, no lone surrogates.
- EmailQueue.ContainerEmailQueue.Close: one drain; several at once are in `EmailShutdown`. The abort signal a second before the timeout only makes deliveries fail sooner, which any task may do at any time.
- AttachmentSafety.PublishedNeverChanges: names and files as maps; directories, symbolic links and permissions are not part of it, and the directory sync is only in `AttachmentStore`.
- SQL text, transactions of the database engine, worker threads and file-system calls: each stretch between two awaits is one step on maps, a few adjacent ones joined as the header of `CsvProtocol` says.
- Planning, parsing, rounding and dataset registration of an import: their results are arbitrary values.
- Rows deleted by closing a session or an account, and draft runs, in the run store.
- The status view and its allowed actions, the contents of diagnostics, tallies and messages.
- Environment reading, HTTP handlers, preferences, theme and rendering helpers.
