# Ledger, exactly-once writes and admission control

A Dafny model of three connected parts of the system, each in the form its code has, with
proofs of what the parts promise over whole runs.

**The general ledger** (`Ledger`, `LedgerInvariant`, `LedgerRuns`, `LedgerHistory`,
`LedgerDocuments`, `LedgerCancellation`, `LedgerAcceptance`, `LedgerBatches`, `LedgerAnswers`,
`LedgerContents`, `Reports`, `ReportFigures`, `Calendar`, `Sums`, `LedgerService`).
The tables are one value; every endpoint's unit of work is a step that works on a copy and
publishes it, with the deferred triggers, or leaves the tables alone.  `LedgerSession` is the
service itself: the same statements in the same order over a session, each method proved to
compute its ledger transaction, and `Handle` to move the committed tables by exactly one step.
What the service promises is then proved of those steps and of all runs of them; `LedgerAnswers`
and `LedgerContents` say what every request answers and leaves behind, and `ReportFigures` what every
report adds up, in terms of the rows and the request alone.

**Exactly-once writes** (`IdempotencyServer`, `IdempotencySession`, `IdempotencyAnswers`,
`WritePath`, `WritePathEvents`, `WritePathTrace`, `WritePathOutbox`, `WritePathOneEffect`, `ExactlyOnce`, `WritePathRuns`,
`WritePathAnswers`, `WritePathReplays`, `WriteClient`, `WriteClientRuns`, `WriteClientNetworks`,
`WriteClientPasses`).
The server is a transition system of interleaved READ COMMITTED transactions over two unique
indexes, one step per statement.  `IdempotencySession` is the same code as a session that
serves one request at a time, each statement tied to a step of that system.  `WritePath` adds
the network, which may lose either direction, and the client with its outbox, overlapping
replays, and switches of its tenant and its user.  `WritePathRuns` plays concrete runs of it,
`WritePathAnswers` says what an otherwise idle server answers to any request, and
`WritePathReplays` what a replay gets from it.  `WriteClient` is the client object itself:
`request`, the outbox store, `retry` and `retryAll`; `WriteClientRuns` and `WriteClientPasses` show
that its requests, replays and replay passes are runs of the write path under a network that
answers both alike, and `WriteClientNetworks` that there is such a network.

**Admission** (`Admission`, `RateLimiter`, `SelfHeal`).  A ghost history of hits and decisions;
the rate limiter's deques, its database buckets and its failover, and the supervisor's
self-heal budget, are proved to decide by a rule on that history alone.

## Assumptions

- The clock does not decrease, and the application and the database read the same one.
- Ids, idempotency keys and times that the code mints are parameters; a minted id that is
  already taken is a unique violation, a minted idempotency key is new.  Hashes of payloads and
  of limiter keys are as good as the hashed values.
- `created_at` of a journal is its insertion ordinal.
- Callers of the journal endpoint leave the document types `REVERSAL` and `BATCH` to
  `reverse_journal` and `post_batch` (`LedgerDocuments.Disciplined`).  Nothing in the code
  enforces this; what happens otherwise is proved exactly, see the first two findings.
- `batch_id` is a column of its own (`Db.batchOf`) beside the immutable part of a journal.  The
  flag `guarded` says whether the trigger that blocks updates of journals is installed; unless a
  statement fixes it, it holds for both values.
- No `await` separates the supervisor's test of the backup lock from the restart that follows it
  (`supervisor/app/main.py:572-604`), so one round of its loop is one step.

## Findings

- A journal posted by hand under (`REVERSAL`, id of a journal) is handed back by
  `reverse_journal` as the reversal, which then posts nothing
  (`LedgerDocuments.TakenReversalPostsNothing`); such a journal can be posted, empty, while the
  original's period is open (`ReversalDocumentCanBeTaken`); the reversal is a new mirror image exactly
  when no journal has taken that document (`ReversalMirrorsExactlyWhen`).  The two cancel in every
  report of every later ledger exactly when the document is free, or the journal that took it
  comes, on every account and department, to the opposite of the original, on the same date unless
  both come to nothing (`LedgerCancellation.ReversalCancelsExactlyWhen`); an empty one does not, unless
  the original comes to nothing by itself (`EmptyReversalCancelsExactlyWhen`).
- The same holds of (`BATCH`, id of a batch).  The first post of a batch books its payload exactly
  when no journal has taken that document (`LedgerBatches.BatchPostsPayloadExactlyWhen`), and then
  for good, whatever callers do later (`FreeBatchBooksPayload`).  Otherwise the batch becomes posted
  with the unrelated journal and its payload is not booked (`TakenBatchPostsNothing`,
  `BatchDocumentCanBeTaken`).
- The trigger `fn_block_mutation` on the journals table makes the write of `batch_id` after the
  flush fail, so with the migration as it stands no batch can be posted
  (`LedgerBatches.GuardedPostFails`, `GuardedNeverPosts`).  The batch properties below are of
  interest for a database without it.
- The guard answers 409 to every repeat of a claimed (tenant, key) within the retention.  A write
  whose effect is committed but whose answer was lost (`WritePathRuns.ResponseCanBeLost`) is
  therefore never answered with success under its tenant (`ExactlyOnce.NeverHearsSuccess`).  While
  the tenant is not switched its item stays in the outbox until the user removes it
  (`LostResponseBlocksWithoutSwitch`), and because a pass stops at its first failure it blocks every
  newer item (`WriteClient.Client.RetryAll`).  Stored responses are reached only when the claim is
  stale or the guard does not claim.  Once it is stale, a replay gets the stored response of a write
  that its endpoint records, and executes any other write again
  (`WritePathReplays.ReplayAfterRetention`, `LateReplayRepeatsExactlyUnrecorded`).
- A replay carries the tenant that is active at that moment, not the tenant the write was made
  under.  After a switch the item of the previous finding leaves the outbox by executing the write
  a second time, under the other tenant (`WritePathRuns.SwitchEmptiesOutbox`).  A run with two
  effects of one guarded write within the retention, under these two tenants, exists exactly when
  the tenants differ (`WritePathRuns.ExecutedTwiceExactlyAcrossTenants`).
- A replay that meets a network failure queues a copy with the same key and puts the original
  back as well (`WriteClient.Client.Retry`), and a late put-back stores again an item that another
  pass has deleted after its success (`WritePathRuns.LatePutBackRestoresItem`).  Neither costs the
  one-effect guarantee.
- In memory a limit of zero or less lets every rejected key leave an empty deque behind and never
  evicts (`RateLimiter.Limiter.Dispatch`); a negative window makes the periodic cleanup delete
  the current bucket (`RateLimiter.CleanupSparesCurrentExactlyWhen`); a window of zero always
  falls over to memory.

## Model

| member | source | states |
|---|---|---|
| `Calendar.OrdinalIs` | backend/app/modules/accounting/api.py:282-290 | every date's ordinal by the leap-day formula, the table of month ends and the leap rule, all written out |
| `Calendar.MonthIs` | backend/app/modules/accounting/api.py:282-290 | by that table a month starts on its own first day and monthrange's last day is the day before the next month's first, 31 December in the last |
| `Calendar.MonthsAbut` | backend/app/modules/accounting/api.py:282-290 | the month seeded next starts the day after the last day monthrange gives, across leap years and year ends, against the closed ordinal formula |
| `Calendar.MonthUnique` | backend/app/modules/accounting/api.py:282-290 | no date lies in two seeded months |
| `LedgerInvariant.CoverUnique` | backend/app/modules/accounting/service.py:44-57 | at most one period of a tenant covers a date, so `scalar_one_or_none` has one answer |
| `LedgerInvariant.ServicePassesTriggers` | backend/app/modules/accounting/service.py:107-188 | what the service lets through, the insert trigger and the CHECK constraints accept |
| `LedgerInvariant.InsertBalanced` | backend/migrations/versions/39a9bb3e30c6_patcha_1_accounting_hardening_.py:178-215 | adding a journal the service found balanced leaves every journal balanced |
| `LedgerInvariant.ApplyProjects` | backend/migrations/versions/39a9bb3e30c6_patcha_1_accounting_hardening_.py:217-274 | the row-by-row upserts turn the grouped sums of the old lines into those of all lines, with a row exactly where a line exists |
| `LedgerInvariant.PublishInsert` | backend/migrations/versions/39a9bb3e30c6_patcha_1_accounting_hardening_.py:178-274 | at commit no deferred trigger rejects and the master invariant holds again |
| `LedgerRuns.StepInv` | backend/app/modules/accounting/service.py:77-393 | every request, committed or failed, keeps the master invariant |
| `LedgerRuns.StepShape` | backend/app/core/uow.py:33-51 | a block that ends commits its working copy with the balances brought up to date, one that raises changes nothing |
| `LedgerRuns.NoCorruption` | backend/app/modules/accounting/service.py:101-105 | the three corrupt errors and both triggers' rejections cannot occur in a reachable ledger |
| `LedgerRuns.RunInv` | backend/app/modules/accounting/service.py:77-393 | the master invariant holds in every committed state of every run |
| `LedgerHistory.RunGrows` | backend/migrations/versions/39a9bb3e30c6_patcha_1_accounting_hardening_.py:100-132 | no run changes or removes a journal, line, lock, link or batch_id, or more of a period than its status |
| `LedgerHistory.RepeatPost` | backend/app/modules/accounting/service.py:90-105 | after any later requests a second post of a document answers the first journal and changes nothing |
| `LedgerHistory.RepeatReversal` | backend/app/modules/accounting/service.py:204-217 | after any later requests a second reversal answers the first one's journal and changes nothing |
| `LedgerHistory.ClosedPeriodFrozen` | backend/app/modules/accounting/service.py:39-41 | over any run that does not reopen it, the lines and all balance rows of a closed period stay as they were |
| `LedgerHistory.ReseedCreatesNothing` | backend/app/modules/accounting/api.py:273-295 | a seeded year, seeded again after any run, creates nothing |
| `LedgerHistory.SeededYearCovered` | backend/app/modules/accounting/service.py:44-57 | every date of a seeded year has exactly one period, the one `find_period_for_date` returns |
| `LedgerHistory.SeedYearCoversForever` | backend/app/modules/accounting/api.py:263-295 | this stays so after any run, with years seeded in any order and with repeats |
| `Reports.SelectedBalanced` | backend/app/modules/accounting/api.py:545-549 | every filter selects lines that net to zero |
| `Reports.TrialBalanceTotals` | backend/app/modules/accounting/api.py:551-583 | the debit and credit columns have equal totals under every filter |
| `Reports.TrialBalanceIsProjection` | backend/app/modules/accounting/api.py:545-581 | the trial balance of a period is the account_balances table of that period, row for row |
| `Reports.DetailAgreesWithTrialBalance` | backend/app/modules/accounting/api.py:597-625 | the drill-down adds up to the account's row and is empty exactly without one, though it filters tenants on the lines |
| `Reports.IncomeIsKindNet` | backend/app/modules/accounting/api.py:795-822 | the per-account income rows of a type add up to minus the net of its lines |
| `Reports.StatementsFromTrialBalance` | backend/app/modules/accounting/api.py:780-871 | each figure of both statements is the signed sum of the trial-balance rows of one type |
| `Reports.BooksCloseExactlyWhen` | backend/app/modules/accounting/api.py:833-871 | assets equal liabilities, equity and net income exactly when lines on accounts of unknown type net to zero |
| `Reports.BooksClose` | backend/migrations/versions/d9e1f8a2c4b7_patcha5_a6_a10_hardening.py:180-189 | with the type constraint the equation holds in every reachable ledger under every filter |
| `ReportFigures.TrialBalanceIs` | backend/app/modules/accounting/api.py:545-581 | a row for each account with a line whose journal is the tenant's, in the period if one is given and dated no later than as_of, and its debits and credits are those of just these lines |
| `ReportFigures.IncomeRowsAre` | backend/app/modules/accounting/api.py:789-821 | a row for each such revenue or expense account, its credits less its debits |
| `ReportFigures.StatementsAre` | backend/app/modules/accounting/api.py:780-871 | each figure of both statements is the signed sum of just these lines over one account type |
| `ReportFigures.GlDetailIs` | backend/app/modules/accounting/api.py:597-625 | the drill-down holds each line of the tenant on the account, in the period if one is given, as often as it was booked, and no other |
| `LedgerAnswers.CreateJournalAnswers` | backend/app/modules/accounting/service.py:90-188 | a posted document is answered with its journal; any other with the first thing wrong with its lines, its date or its accounts, or the new id; a refusal changes nothing |
| `LedgerAnswers.ReverseJournalAnswers` | backend/app/modules/accounting/service.py:191-256 | a reversal is answered by the journal's rows, period, document and accounts, in this order |
| `LedgerAnswers.CreateAccountDoes` | backend/app/modules/accounting/api.py:126-143 | an account of one of the five types with an unused number is added as it is given, any other refused |
| `LedgerAnswers.UpdateAccountDoes` | backend/app/modules/accounting/api.py:171-196 | each field that is given is taken over and every other kept, for the tenant's own account |
| `LedgerAnswers.ClosePeriodDoes` | backend/app/modules/accounting/api.py:308-328 | closing works for the tenant's own period and no other; then the period is closed, and nothing else changes |
| `LedgerAnswers.OpenPeriodDoes` | backend/app/modules/accounting/api.py:352-371 | reopening likewise |
| `LedgerAnswers.CreateBatchDoes` | backend/app/modules/accounting/service.py:275-304 | the payload is stored as a draft, or refused for what is wrong with it |
| `LedgerAnswers.CheckBatchDoes` | backend/app/modules/accounting/service.py:323-342 | validation looks at the payload again, stamps the batch and counts its version, or says what is wrong |
| `LedgerAnswers.FlushAnswers` | backend/migrations/versions/39a9bb3e30c6_patcha_1_accounting_hardening_.py:137-174 | the insert trigger and the constraints: which journal and lines the database refuses, and with which error |
| `LedgerAnswers.CommitAnswers` | backend/migrations/versions/39a9bb3e30c6_patcha_1_accounting_hardening_.py:178-215 | the deferred trigger rejects a commit exactly when a journal that got a line has unequal sides |
| `LedgerContents.CreateJournalBooks` | backend/app/modules/accounting/service.py:107-188 | an accepted journal with a free document is booked with just the caller's fields and lines, in an open period that holds its date, and nothing else changes |
| `LedgerContents.ReverseJournalBooks` | backend/app/modules/accounting/service.py:219-266 | an accepted reversal books each line of the original with its sides exchanged, account and department kept, on the same date, and links the two; or it only links or answers |
| `LedgerContents.FinishBatchDoes` | backend/app/modules/accounting/service.py:345-393 | the answer of every post of a batch and what it books: payload, BATCH document, stamp and version |
| `LedgerContents.GuardedFinishDoes` | backend/migrations/versions/39a9bb3e30c6_patcha_1_accounting_hardening_.py:100-132 | with the update trigger each of these posts fails, for its own reason or the trigger's |
| `LedgerContents.ClosedRefusesPosts` | backend/app/modules/accounting/service.py:39-41 | after a close, and any requests that do not reopen the period, a post with a free document dated in it is refused |
| `LedgerContents.ReopenedTakesPosts` | backend/app/modules/accounting/service.py:107-188 | once reopened it takes exactly the balanced posts on usable accounts |
| `LedgerContents.SeedYearDoes` | backend/app/modules/accounting/api.py:263-295 | for the years 2000 to 2100 the months that the tenant lacks are added, open, with the first and last day of the table, and nothing else changes |
| `LedgerAcceptance.PostAcceptedExactlyWhen` | backend/app/modules/accounting/service.py:90-188 | a post is accepted exactly when its document was posted before, or its lines are balanced, one-sided and on usable accounts and its date is in an open period |
| `LedgerAcceptance.ReversalAcceptedExactlyWhen` | backend/app/modules/accounting/service.py:191-256 | a reversal is accepted exactly when the tenant's journal was reversed before, or its own period is open and its document is taken or its accounts are active and require no dimension but a department the line has |
| `LedgerAcceptance.BatchAcceptedExactlyWhen` | backend/app/modules/accounting/service.py:352-387 | without the update trigger a post of a batch is accepted exactly when it was posted before, or its date is in an open period and its document is taken or its accounts, first looked at here, are usable |
| `LedgerDocuments.RunGenuine` | backend/app/modules/accounting/service.py:233-266 | in disciplined runs every link joins a journal to its mirror image in the same period, and every BATCH journal is its batch's payload |
| `LedgerDocuments.ReversalMirrorsExactlyWhen` | backend/app/modules/accounting/service.py:219-266 | a first reversal posts the mirror image exactly when its document is free |
| `LedgerDocuments.TakenReversalPostsNothing` | backend/app/modules/accounting/service.py:101-105 | otherwise the unrelated journal is linked and nothing is posted |
| `LedgerDocuments.ReversalDocumentCanBeTaken` | backend/app/modules/accounting/service.py:77-188 | an empty journal can take the document first, and reversing the original then answers it and posts nothing |
| `LedgerDocuments.ReversalCancels` | backend/app/modules/accounting/service.py:233-243 | with a mirrored pair each account's and department's net, under every filter, is what it is without the two |
| `LedgerDocuments.ReversalsCancel` | backend/app/modules/accounting/service.py:191-272 | this holds for every linked pair of every ledger that disciplined requests reach |
| `LedgerCancellation.CancelExactlyWhen` | backend/app/modules/accounting/api.py:545-583 | two journals of a tenant cancel, each net of an account or department under any filter being what it is without them, exactly when their entries come to opposite nets, on one date unless each comes to nothing |
| `LedgerCancellation.CancelInTrialBalance` | backend/app/modules/accounting/api.py:551-583 | then the net of every trial-balance row, under every filter, is the net of the lines without the two |
| `LedgerCancellation.ReversalCancelsExactlyWhen` | backend/app/modules/accounting/service.py:191-272 | a first reversal's answer cancels the original in every later ledger, whatever requests follow, exactly when its document was free or taken by an opposite journal |
| `LedgerCancellation.FreeReversalCancels` | backend/app/modules/accounting/service.py:219-272 | so a reversal whose document was free cancels for good, whatever other callers do |
| `LedgerCancellation.EmptyReversalCancelsExactlyWhen` | backend/app/modules/accounting/service.py:101-105 | with an empty journal posted in its place it cancels, now or later, exactly when the original comes to nothing by itself |
| `LedgerDocuments.LinksInjective` | backend/app/modules/accounting/models.py:187-192 | a journal is the reversal of at most one journal |
| `LedgerDocuments.Chain` | backend/app/modules/accounting/service.py:204-217 | following links from a journal, each id linked to the next, ends, in the same tenant, at later and later journals, at one without a link |
| `LedgerBatches.BatchStep` | backend/app/modules/accounting/service.py:323-393 | one request moves a batch's status forward only, keeps its payload, and counts its version |
| `LedgerBatches.RowVersionCounts` | backend/app/modules/accounting/service.py:337-340 | row_version is 1 plus the validations plus one if posted, after any run |
| `LedgerBatches.BatchRun` | backend/app/modules/accounting/service.py:323-393 | over any run the payload is fixed and the status never goes back |
| `LedgerBatches.PostedBatchJournal` | backend/app/modules/accounting/service.py:356-392 | in every reachable ledger a batch is posted exactly when one journal carries its id, and that journal is its document |
| `LedgerBatches.BatchPostsPayloadExactlyWhen` | backend/app/modules/accounting/service.py:370-392 | the first post of a batch adds a journal with the payload's date and lines exactly when its document is free |
| `LedgerBatches.TakenBatchPostsNothing` | backend/app/modules/accounting/service.py:101-105 | otherwise the unrelated journal is given the batch's id, the batch becomes posted and nothing is posted |
| `LedgerBatches.BatchDocumentCanBeTaken` | backend/app/modules/accounting/service.py:77-188 | an empty journal can take the document of a draft, and the post of the batch then answers it |
| `LedgerBatches.FreeBatchBooksPayload` | backend/app/modules/accounting/service.py:375-392 | what a batch with a free document posted is still its journal's date and lines after any later requests |
| `LedgerBatches.PostedBatchPayload` | backend/app/modules/accounting/service.py:370-392 | in disciplined runs the journal of a posted batch always has the payload's date and lines |
| `LedgerBatches.RepeatBatchPost` | backend/app/modules/accounting/service.py:356-368 | posting a batch again, after any requests, answers the same journal and changes nothing |
| `LedgerBatches.GuardedPostFails` | backend/migrations/versions/39a9bb3e30c6_patcha_1_accounting_hardening_.py:100-132 | with the update trigger on journals the post of an unposted batch fails and changes nothing |
| `LedgerBatches.GuardedNeverPosts` | backend/app/modules/accounting/service.py:387-392 | under that trigger no run holds a posted batch |
| `LedgerService.LedgerSession.ValidateBalanced` | backend/app/modules/accounting/service.py:60-74 | the accumulator loop returns the fault of the first faulty line, else whether the sums differ |
| `LedgerService.LedgerSession.FindPeriodForDate` | backend/app/modules/accounting/service.py:44-57 | the period that covers the date, or none |
| `LedgerService.LedgerSession.FlushJournal` | backend/app/modules/accounting/service.py:112-187 | row-by-row insertion is the insertion of the whole journal or its first violation |
| `LedgerService.LedgerSession.BuildLines` | backend/app/modules/accounting/service.py:125-171 | the rows of the lines, or the first failing account or dimension check in the code's order |
| `LedgerService.LedgerSession.CreateManualJournal` | backend/app/modules/accounting/service.py:77-188 | the session moves as the specified post does, and queues exactly the new lines |
| `LedgerService.LedgerSession.ReverseJournal` | backend/app/modules/accounting/service.py:191-272 | as the specified reversal |
| `LedgerService.LedgerSession.CreateBatch` | backend/app/modules/accounting/service.py:275-304 | as the specified draft |
| `LedgerService.LedgerSession.ValidateBatch` | backend/app/modules/accounting/service.py:323-342 | as the specified validation |
| `LedgerService.LedgerSession.PostBatch` | backend/app/modules/accounting/service.py:345-393 | as the specified post of a batch |
| `LedgerService.LedgerSession.SeedYear` | backend/app/modules/accounting/api.py:273-293 | the loop over twelve months adds exactly the missing ones |
| `LedgerService.LedgerSession.Commit` | backend/app/core/uow.py:43-47 | the deferred triggers run in order and publish, or reject and restore |
| `LedgerService.LedgerSession.Handle` | backend/app/core/uow.py:29-51 | a whole request moves the committed tables by exactly one ledger step and returns its result |
| `IdempotencyServer.RunServer` | backend/app/core/idempotency.py:90-269 | the invariants of claims and records hold in every interleaving |
| `IdempotencyServer.OneEffectPerRetention` | backend/app/core/idempotency.py:90-125 | two committed effects of one tenant and key are more than the retention apart |
| `IdempotencyServer.RecordedOnce` | backend/app/core/idempotency.py:170-269 | a committed record holds its response, a scope executes once for good, and success under it means the recorded payload and response, purges or not |
| `IdempotencyServer.SuccessHasEffect` | backend/app/core/idempotency.py:170-269 | every success answer stands for a committed effect of its key |
| `IdempotencyServer.SuccessNeedsStale` | backend/app/core/idempotency.py:93-104 | a guarded success needs all earlier effects of the key to be stale |
| `IdempotencyServer.NoSecondSuccess` | backend/app/core/idempotency.py:90-108 | once an effect is committed no retry of its key succeeds within the retention |
| `IdempotencyAnswers.ServedRight` | backend/app/core/idempotency.py:90-269 | a request served alone, by the columns of both tables: its answer, and every row after it |
| `IdempotencyAnswers.ClaimRaceLost` | backend/app/core/idempotency.py:106-108 | a request whose key somebody else claimed since it looked fails and changes no table |
| `IdempotencyAnswers.RecordRaceLost` | backend/app/core/idempotency.py:225-251 | one whose record somebody else stored is rolled back, claim and purge included, and answered by that record |
| `IdempotencyAnswers.ClaimWaits` | backend/app/core/idempotency.py:106-108 | while another open request has inserted or deleted a claim of the key, the insert waits |
| `IdempotencyAnswers.RecordWaits` | backend/app/core/idempotency.py:214-225 | likewise for a record of the same tenant, user, endpoint and key |
| `IdempotencyAnswers.PurgeDoes` | backend/app/core/idempotency.py:116-125 | the purge takes exactly the tenant's claims older than the retention, or waits for another open request that has one of them |
| `IdempotencyAnswers.OnlySuccessChangesTables` | backend/app/core/uow.py:33-51 | in any interleaving, a statement that answers nobody with success changes no table, and one that does publishes just its own transaction |
| `IdempotencyAnswers.CommitDoes` | backend/app/core/uow.py:43-47 | a commit after the work: one effect, the response in the record, the claim stamped with the start |
| `IdempotencySession.Session.PurgeStaleKeyClaims` | backend/app/core/idempotency.py:116-125 | removes exactly the tenant's stale claims and returns how many |
| `IdempotencySession.Session.ClaimIdempotencyKey` | backend/app/core/idempotency.py:90-108 | claims the key exactly when no claim of it still stands, as purge, select and insert steps |
| `IdempotencySession.Session.StartIdempotentRequest` | backend/app/core/idempotency.py:170-253 | mismatch, replay, in progress or a new empty record, by the record found |
| `IdempotencySession.Session.FinalizeIdempotentRequest` | backend/app/core/idempotency.py:256-269 | the request's own record gets the response |
| `IdempotencySession.Session.Handle` | backend/app/modules/accounting/api.py:387-473 | a request served alone: which of refuse, replay, fail and execute happens, with the whole new state, as a run of the interleaved server |
| `WritePathEvents.SubmitSends` | frontend/src/lib/api.ts:285-306 | a write goes out under the minted key with the tenant and the user of this moment |
| `WritePathEvents.ReplaySends` | frontend/src/lib/outbox.ts:200-205 | a replay goes out under its item's key, with the tenant and the user of this moment |
| `WritePathEvents.FailureQueues` | frontend/src/lib/api.ts:333-342 | a network failure queues the write under its key with no retries, and nothing else queues |
| `WritePathEvents.UserRemoves` | frontend/src/lib/outbox.ts:146-158 | only the user's removals count as such, with just the keys of the items removed |
| `WritePathTrace.HappensKeys` | frontend/src/lib/api.ts:302-306 | no event parts a key from the write it was minted for |
| `WritePathOneEffect.HappensOne` | frontend/src/lib/api.ts:383-388 | a write keeps one live key; one given up after a 401 has had no effect and can have none |
| `ExactlyOnce.RunSystem` | frontend/src/lib/outbox.ts:193-231 | the joint invariant of clients, network and server holds in every run |
| `ExactlyOnce.OneEffectPerWrite` | frontend/src/lib/api.ts:273-413 | all effects of a user's write have one key and are that write, and two of them under one tenant are more than the retention apart |
| `ExactlyOnce.OneEffectWithoutSwitch` | frontend/src/lib/api.ts:288-300 | while the tenant is not switched, a guarded write has one effect per retention over all keys it was sent under |
| `WritePathRuns.ExecutedTwiceExactlyAcrossTenants` | frontend/src/lib/api.ts:288-300 | a run with two effects of one guarded write within the retention, under two given tenants, exists exactly when they differ |
| `ExactlyOnce.OneTenant` | frontend/src/lib/api.ts:288-300 | without a switch every request ever sent is of the first tenant |
| `ExactlyOnce.SeenHasEffect` | frontend/src/lib/api.ts:363-380 | every key the client saw answered with success has an effect, of the user's own write |
| `ExactlyOnce.SeenHasOneEffect` | frontend/src/lib/api.ts:363-380 | in a run no longer than the retention a guarded one has exactly one |
| `ExactlyOnce.NothingLost` | frontend/src/lib/outbox.ts:193-216 | a queued key is in the outbox until it was answered with success or the user removed it |
| `ExactlyOnce.NeverHearsSuccess` | backend/app/core/idempotency.py:98-104 | once an effect is committed and nobody is about to hear of it, its (tenant, key) is never answered with success within the retention, whatever is sent |
| `ExactlyOnce.LostResponseStaysQueued` | frontend/src/lib/outbox.ts:193-216 | such a write, queued, is in the outbox until the user removes it or its key is answered with success under another tenant |
| `ExactlyOnce.LostResponseBlocksWithoutSwitch` | frontend/src/lib/outbox.ts:193-216 | while the tenant is not switched it is in the outbox until the user removes it |
| `WritePathRuns.ResponseCanBeLost` | frontend/src/lib/api.ts:333-342 | a run that leaves a committed write queued with nobody about to hear of it |
| `WritePathRuns.SwitchEmptiesOutbox` | frontend/src/lib/outbox.ts:200-207 | that run, a switch of the tenant and one replay: the outbox is empty, the user removed nothing, and the write was executed twice |
| `WritePathRuns.LatePutBackRestoresItem` | frontend/src/lib/outbox.ts:208-213 | two overlapping replays after which an item that was settled and deleted is in the outbox again |
| `WritePathAnswers.AnswersAlone` | backend/app/core/idempotency.py:90-269 | all statements of one request, whatever its work does, on an idle server: which answer it gets and the whole new state |
| `WritePathReplays.ReplayAfterRetention` | backend/app/core/idempotency.py:170-253 | a replay whose claim no longer stands gets the stored response of a recorded write with no second effect, and any other write takes effect again or fails |
| `WritePathReplays.ReplayWithinRetention` | backend/app/core/idempotency.py:98-104 | a replay whose claim still stands gets a conflict, changes no table and is put back |
| `WritePathReplays.LateReplayRepeatsExactlyUnrecorded` | backend/app/core/idempotency.py:116-125 | a run: the response is lost, the retention goes by, and the replay executes the write a second time exactly when its endpoint keeps no record |
| `WriteClient.OnlyLastFetchSettles` | frontend/src/lib/api.ts:325-331 | at most two fetches of a write and four of a GET; only the last fetch of a write can get anything but a 401 |
| `WriteClient.GetTriesThrice` | frontend/src/lib/api.ts:325-331 | a GET is given up for want of an answer exactly after the third fetch without one |
| `WriteClient.Client.RefreshAccessToken` | frontend/src/lib/api.ts:183-271 | succeeds exactly with a refresh token and a new pair; a refusal clears the tokens, no answer does not |
| `WriteClient.Client.Request` | frontend/src/lib/api.ts:273-413 | what goes on the network, when it stops retrying and why, the keys it mints; a write ends with its first answer, or after a 401 and a new token with the second; it is queued exactly when it is keyed, got no answer and its path is none of the three, with a slash before it if it has none |
| `WriteClient.Client.Enqueue` | frontend/src/lib/outbox.ts:117-136 | the new item, under a new id and not older than any other |
| `WriteClient.Client.List` | frontend/src/lib/outbox.ts:103-108 | every stored item once, oldest first |
| `WriteClient.Client.Retry` | frontend/src/lib/outbox.ts:193-216 | the item goes only when its own key was answered with success; else the same item is put back, its time, verb, path, tenant flag and key kept, with one more retry, and with a copy after a network failure; it is tried again once after a 401 |
| `WriteClient.Client.RetryAll` | frontend/src/lib/outbox.ts:218-223 | a pass sends in createdAt order, stops at its first failure and leaves the rest; an item it removed was acknowledged; its attempts, each from the store the last one left |
| `WriteClientRuns.RequestIsRun` | frontend/src/lib/api.ts:273-413 | a write requested of the client is a run of the write path that the network answers alike: the same keys, the same queued item, the same success seen |
| `WriteClientRuns.RetryIsRun` | frontend/src/lib/outbox.ts:193-216 | a replay by the client is such a run, and leaves the same outbox up to the id of the copy |
| `WriteClientPasses.PassIsRun` | frontend/src/lib/outbox.ts:218-223 | a whole pass is such a run, replay after replay: every item it deletes was seen answered with success, and it leaves the same outbox up to the id of the copy |
| `WriteClientNetworks.AnswerableExactlyWhen` | backend/app/core/idempotency.py:98-253 | the work of a request on an idle server can be such that it gets this status exactly when the claims and records allow it |
| `WriteClientNetworks.RequestHasNetwork` | frontend/src/lib/api.ts:273-413 | for every list of fetches of a user's write, in every reachable system, a network that answers the write path alike |
| `WriteClientNetworks.RetryHasNetwork` | frontend/src/lib/outbox.ts:193-216 | for the fetches of a replay there is one if the tables allow its last reply |
| `WriteClientPasses.NextTryHasNetwork` | frontend/src/lib/outbox.ts:218-223 | so for each attempt of a pass, wherever it has got to |
| `Admission.SpanBound` | backend/app/core/middleware.py:259-276 | any closed span of one window holds at most limit accepts of the memory window |
| `Admission.SameHitsSameDecisions` | backend/app/core/middleware.py:259-276 | the rule decides: two gates fed the same hits have the same history |
| `Admission.BucketTakesFirst` | backend/app/core/middleware.py:188-221 | of a bucket's hits exactly the first limit are let through |
| `Admission.SpanBoundAcrossFailover` | backend/app/core/middleware.py:243-276 | any span of one window holds at most twice the limit by the database and three times across the failover |
| `Admission.SpanBoundsAreTight` | backend/app/core/middleware.py:243-276 | both bounds are reached |
| `Admission.EveryHitDecided` | backend/app/core/middleware.py:240-276 | every decision of every history, by counting earlier hits one by one: memory admits under limit accepted hits of the window that ends now, the database under limit hits of the bucket |
| `Admission.BucketIs` | backend/app/core/middleware.py:188-192 | a bucket holds the times from its multiple of the window up to the next |
| `RateLimiter.RowsAre` | backend/app/core/middleware.py:193-220 | a counted hit adds one to its own row; the cleanup leaves exactly the rows touched within ten windows |
| `RateLimiter.EvictedAre` | backend/app/core/middleware.py:277-281 | the keys that go are empty or without a hit since the cutoff, the first such in dictionary order, and as many as there are keys too many |
| `RateLimiter.CleanupSparesCurrentExactlyWhen` | backend/app/core/middleware.py:210-220 | the cleanup spares the current bucket's row exactly when the window is positive |
| `RateLimiter.EvictionBound` | backend/app/core/middleware.py:277-281 | what an eviction leaves is at most the maximum or the number of live keys, and it takes stale keys only |
| `RateLimiter.Limiter.Slide` | backend/app/core/middleware.py:260-263 | the deque without exactly its hits from before the cutoff |
| `RateLimiter.Limiter.Evict` | backend/app/core/middleware.py:278-281 | removes the first stale keys in dictionary order, as many as there are keys too many |
| `RateLimiter.Limiter.HitDbWindow` | backend/app/core/middleware.py:188-225 | the upsert and cleanup of one transaction, or the failure that ends the use of the table |
| `RateLimiter.Limiter.HitMemory` | backend/app/core/middleware.py:259-282 | accepts exactly when fewer than limit earlier accepts lie in the window, whatever was evicted, and bounds the keys |
| `RateLimiter.Limiter.Dispatch` | backend/app/core/middleware.py:240-282 | every hit is decided by the rule on the history, by the database until its first failure and by memory ever after |
| `RateLimiter.Limiter.EverySpanIsBounded` | backend/app/core/middleware.py:240-282 | in every state a limiter can reach, every span of one window obeys the bounds |
| `SelfHeal.Supervisor.WithinBudget` | supervisor/app/main.py:302-311 | the filtered list decides by the limiter's rule, and the flag goes up exactly at a refusal and stays |
| `SelfHeal.Supervisor.Tick` | supervisor/app/main.py:569-609 | which one service a round may restart, and that a locked or docker-less round does nothing |
| `SelfHeal.Supervisor.RestartsAreBounded` | supervisor/app/main.py:569-620 | at most threshold restarts of a service per window, none while the backup lock is held |
| `SelfHeal.Supervisor.DecidesLikeLimiter` | supervisor/app/main.py:302-311 | supervisor and limiter with equal bounds, fed the same hits, decide the same |

## Left out

- LedgerHistory.ClosedPeriodFrozen: serial transactions only, because the code does not lock the period row against a concurrent post.
- LedgerDocuments.ReversalsCancel: every link, but only in ledgers reached by callers who leave the two reserved document types alone; LedgerCancellation.ReversalCancelsExactlyWhen has no such restriction.
- Admission.BucketTakesFirst: for a positive window; for a negative one the cleanup deletes current rows, and a window of zero never uses the table.
- WriteClient.Client.RetryAll: one pass at a time; overlapping passes are in WritePath.
- LedgerBatches.PostedBatchPayload: only for ledgers reached by callers who leave the two reserved document types alone; BatchPostsPayloadExactlyWhen and FreeBatchBooksPayload say exactly what a post of a batch books otherwise.
- WriteClientNetworks.RetryHasNetwork: one direction; a reply that the tables rule out may still come if other requests change them first.
- WriteClientPasses.PassIsRun: passes whose attempts all reach the network; one that lacks the tenant id of its item fails before its first fetch; and items of none of the three authentication paths, which `request` never queues.
- WritePathReplays.ReplayAfterRetention: with no other request open; interleaved ones are bounded by IdempotencyServer.OneEffectPerRetention and RecordedOnce.
- WriteClientRuns.RequestIsRun: writes outside the three authentication paths; GETs and authentication calls are no part of the write path.
- ExactlyOnce.SeenHasOneEffect: for runs no longer than the retention; over longer ones OneEffectPerWrite spaces the effects.
- IdempotencySession.Session.Handle: one request at a time; interleaved ones are in IdempotencyServer.
- Journal memos, reasons, users, timestamps, audit events, ids of lines, locks, links and balance rows, and account names and normal balances: carried along by the code, looked at by none of the modelled logic.
- The order of report rows and the pagination of lists.
- 32-bit overflow of amount columns, and malformed batch payloads (`acct_batch_payload_invalid`): the payload is written by the service itself.
- Header parsing of the guard (missing, blank or overlong keys, exempt paths, the 428 answer) and the trimming of keys: a write is simply guarded or not.
- The fallback of the claim for databases without the platform tables.
- The coalescing of concurrent token refreshes in one promise, the Authorization header, request logging, and the readiness check of `autoReplay`.
- Which paths the rate limiter applies to, how its key is built, and several workers sharing one table with limiters of their own.
- Rounding of floating-point times: times are real numbers.
- Docker, backup archives, diagnostics and the scheduler of the supervisor; permissions, configuration, pages, realtime transport and metrics; the funding, deals, event store, inventory and service modules.
