# A model of the bank-to-YNAB synchroniser

The service fetches transactions from banks, classifies them against a local
table of tracked transactions, and writes them to YNAB, a remote ledger that
never lets an import_id be used twice, even after its transaction is deleted.
Calls may fail before or after they take effect, and the same classified cycle
is submitted again until one attempt completes.  The question behind most of
the model is what is left in the two stores after any sequence of such runs.

## How it is modelled

* `Ynab`: the remote ledger as a list of transactions whose position is their
  id; creation (with YNAB's native matching and linked transfers), patching,
  deletion, the listings, and what one call may do: work, be answered with a
  400 or another error status, get lost on the way there, or get lost on the
  way back.
* `StateDb`: the tables, each operation as a function and as a method of a
  class that changes the fields in place.
* `Classification`: phase 1 (`_classify` and the loops of
  `fetch_and_classify`, with both candidate caches); `TransferLinking` and
  `Transfers`: pairing the two legs of a transfer.
* `SyncSpec`: phase 2 (`submit` and everything below it) as functions on the
  three stores: table, ledger, and the script of what each API call will do.
  A script is any list of outcomes, so a statement about every script covers a
  break-off at every call.  `Engine`: the same phase as the methods and loops
  of the engine, proved to compute those functions.
* `Recovery`: what a correction does whose target is gone from YNAB; the engine
  submits with these recoveries, and an attempt that meets no missing target is
  the one without them.
* `Convergence`, `EngineRetries`, `ManualReplacement`, `RepeatedMatching`,
  `RepeatedRecovery`, `RecoveryEndings`, `FuzzyClaims`, `Settlement`,
  `Resubmission`, `RecordLayout`, `CandidateCache`, `Runs`, `OwnTransactions`,
  `Mirroring`, `MatchedOriginals`, `Repeats`, `RepeatedKeys`, `BookingFlags`,
  `Provenance`, `RowOrigins`, `Searches`, `LinkedTransfers`, `Readd`, `Windows`:
  the properties, with their building blocks in `Creation`, `Frames`,
  `MatchFrames`, `RowFacts`, `RowRecords`, `RecoveryFacts`, `TrackedKeys`,
  `UntouchedImports`, `Filing` and `AttemptEffects`.
  `ClassifiedCycles` applies them to the cycles that classification produces.
* `TwoCharges`, `OneChargeTwice`, `TwoPurchases`, `TwoOriginals`, `LostPreauth`,
  `LostTransition`: short histories in which the code does not do what it
  promises.
* `Scheduler`: retries, backoff, the cached work item and notifications.
* `PendingMatch`, `Sanitize`, `Money`, `ImportIds`, `DateWindow`,
  `PayeeCache`: the matchers, arithmetic, identifiers and the payee cache.

Times are whole seconds, in the scheduler seconds with fractions; dates are day
numbers, decimals are reals and YNAB milliunits are integers.  Parameters stand
for what the code cannot decide: the hash (only its output format is used), the
working-day calendar, the next cron fire, YNAB's native matching, payee
normalisation, the order in which SQLite scans a table and in which Python
walks a set.

## What turned out not to hold

Each of these is a lemma that names the failing inputs; where it says "exactly"
or "if and only if", the code does what it promises on all the others.

* A list of manual candidates that is widened comes back without the claimed
  ones if and only if nothing was claimed from it
  (`WideningIsRightIffNothingClaimed`).  Without such a late widening no
  candidate is claimed twice in a cycle (`NoCandidateClaimedTwice`) and no
  matched money vanishes (`ClassifiedMoneyNeverVanishes`); with one both fail
  (`LateWideningClaimsTwice`, `LateWideningLosesMoney`), against
  src/ynab_auto_sync/sync/engine.py:415-417.
* That result asks that whatever a cycle matches is filed in it once, as when each
  purchase is reported once (`DistinctReportsMatchApart`).  One that is reported
  over two amounts in one fetch may claim a manual transaction for each, under
  one import_id: one original stays visible beside its replacement, and the
  other amount is gone (`ReportedTwiceClaimsTwo`).
* A manual transaction that YNAB matched natively has no import_id and so
  stays a candidate (`MatchedStaysOffered`).  A cycle leaves all earlier
  matched originals visible if and only if none of its matches chose one;
  otherwise it deletes that one, and the earlier bank transaction is no longer
  visible anywhere (`EarlierMatchesSurviveIffUnmatched`,
  `SecondPurchaseHidesFirst`).  The failing half rests on an assumption about
  YNAB, whose matching is undocumented: that it does not match a transaction a
  second time (`CanMatch` asks for `matched.None?`).
* A cycle whose calls all work and whose targets are all alive may still fail, on
  its first submission if and only if one of its creates records a key that a
  pending row is to be moved to, or two rows are to be moved to one key
  (`ClassifiedCycles.FuzzyTransitionsLoseNothing`).  A purchase that settles a
  pending row by its looks and is reported twice in one fetch is such a create:
  creates are recorded before any row moves.  No later submission of that cycle
  completes (`TakenKeyNeverCompletes`), and the purchase stands in YNAB twice
  (`OneChargeTwoTransactions`), against
  src/ynab_auto_sync/sync/engine.py:220-232.
* A pending row may get a plain and a fuzzy update in one cycle
  (`BothClaimOneRow`).  Once its corrections went through, a cycle can be
  submitted again if and only if that happened to none of its rows and, which
  only a repeated report can bring about, no moved row was matched anew as
  pending (`ClassifiedRetryFailsIffRowShared`, against the same promise).
  Even if nothing fails, the two bank transactions of such a row end as one
  transaction in YNAB (`TwoChargesOneTransaction`).
* A purchase that settled a pending row by its looks keeps that row's import_id in
  YNAB.  If the local tables are lost, the next fetch imports it a second time if
  and only if its own import_id is free (`ComesBackIffIdFree`,
  `LostTransitionIsImportedAgain`), against
  src/ynab_auto_sync/providers/base.py:103-107.
* A correction whose target is gone from YNAB may be recovered by a manual
  transaction.  Submitting it again changes nothing if and only if YNAB had
  matched that one natively and nothing else fits around its date
  (`ResubmittedRecovery`, against the same promise); otherwise a row whose
  transaction is visible becomes DELETED, or another manual transaction is
  deleted.  If the answer to its create is lost, the retry deletes the manual
  transaction and records nothing, and the money is gone from YNAB if and only
  if YNAB had matched that transaction natively (`LostRecoveryLosesMatched`).
* A feed that reports one key several times is imported once (`ExactlyOnce`),
  but its row follows the last report.  The same data fetched again leaves YNAB
  alone if no new transaction was reported booked but last of all pending, and no
  recovery met a burned import_id (`RepeatLeavesYnabAlone`).  A transaction that
  was is corrected again (`CorrectedAgainIffLeftPending`, `StutterChangesYnab`),
  and a recovery leaves its row PENDING if and only if it met one
  (`LeftPendingIffBurned`).
* After a success, the row of a newly tracked import says what YNAB shows if and
  only if its import_id was free and the first and the last report of it agree in
  amount and in being booked, or it was burned and what is listed under it is
  cleared as the last report asks for (`SuccessMirrorsIff`): YNAB creates the
  first report, a duplicate is not corrected, and the row records the last.  If
  YNAB matched it with a manual transaction, the amounts alone must agree
  (`MatchedMirrorsIff`).  A preauthorisation and its charge in one fetch
  (`BothAtOnceStaysUncleared`), or in two with the first answer lost
  (`LostPreauthStaysUncleared`), stay uncleared at the preauthorised amount for
  good under a BOOKED row.
* The leg that YNAB adds to a linked transfer is uncleared.  If it is booked, its
  row says so, and agrees with it if and only if the call that clears it arrives
  (`TransferMirrorsIff`).  Otherwise it stays uncleared for good, against
  src/ynab_auto_sync/sync/engine.py:1668-1673: submitting the create again changes
  nothing (`TriesChangeNothing`), and no later cycle corrects a BOOKED row
  (`BookedIsNeverCorrected`).
* If the response to a re-add is lost, the row can never be re-added again
  (`LostResponseEndsReadds`).
* The retention validator keeps a pruned row out of the fetch window if and
  only if no old pending row holds that window open
  (`PrunedRowIsRejected`, `OldPendingRowReopensWindow`).  Even then the row
  is only resubmitted under its burned import_id.
* The cursor is stamped when the submission ends.  If retries take longer than
  the overlap, the next window starts after the last fetch
  (`NextWindowReachesLastFetch`).
* The backoff settings are not validated.  Exactly when base and cap are both
  positive is the number of retries before a cron fire bounded
  (`BackoffTerminates`, `UncheckedSettingsNeverGiveUp`).
* A margin of zero makes the pending matcher depend on the order of its
  candidates (`NoMarginDependsOnOrder`).  The engine passes no margin, and the
  default of 0.15 is positive.
* Parsed amounts survive the trip to milliunits exactly for up to three
  decimal places (`ThreePlacesIsExact`).

Comments in the repository disagree on whether an account's plain listing
shows a natively matched shadow (src/ynab_auto_sync/sync/engine.py:1696-1703 and
1887-1896); `Settings.shadowsListed` allows both, and every result holds for
both.

In `_recover_missing_pending_update` the code and its documentation disagree,
and the model follows the code: a row given up as DELETED keeps its own key even
for a fuzzy update, where the docstring promises the new one
(src/ynab_auto_sync/sync/engine.py:1140-1143 and 1195-1208), and the exit for a
missing row returns two values where its caller unpacks three (1156-1163 and
938), so the attempt ends there.

## Model

| member | source | states |
|---|---|---|
| Convergence.RetryConvergence | src/ynab_auto_sync/sync/engine.py:826-1077 | for ordinary creates plus plain and fuzzy corrections of distinct live rows: however many attempts break off at whatever call, before or after it took effect, and in whatever budget order, once one completes the ledger equals that of one uninterrupted run and the tables are the same up to payee text and timestamps; the uninterrupted run completes |
| EngineRetries.FullRetryConvergence | src/ynab_auto_sync/sync/engine.py:826-1077 | the same of the engine's own submit(), which recovers missing targets, as long as no call is answered with a 400: no attempt then recovers anything |
| Runs.ExactlyOnce | src/ynab_auto_sync/sync/engine.py:282-309 | over any run of fetches in which no report is settled or matched by its looks, whatever keys they repeat, completed and broken-off submissions with the recoveries of missing targets, restarts, give-ups, loss of the database, pruning and edits by the user, a tracking key has at most one transaction in YNAB under its own import_id, deleted ones included, unless a recovery in another budget hashes to that import_id |
| Runs.NothingLost | src/ynab_auto_sync/sync/engine.py:282-309 | over any such run, everything a successful cycle accepted stays in YNAB under its import_id, and so does every tracked row; the row carries that import_id or one that a recovery of it made, which is burned too |
| Runs.SuccessImportsWindow | src/ynab_auto_sync/sync/engine.py:734-800 | when a cycle succeeds, every mapped, in-window transaction it fetched has its import_id in YNAB |
| Runs.FreshStoreFits | src/ynab_auto_sync/sync/engine.py:282-309 | a fresh installation meets what these results ask of the stores, on any ledger that holds no import_id twice and each of the source's in its own budget |
| OwnTransactions.RunKeepsOwned | src/ynab_auto_sync/sync/engine.py:1402-1574 | over every such run each row is for a transaction without an import_id, or with one that is named after the row's key: its own, or one that a recovery of it made |
| Repeats.RepeatLeavesYnabAlone | src/ynab_auto_sync/sync/engine.py:600-824 | after a success, fetching the same bank data again and submitting it, even if that breaks off, leaves the ledger exactly as it was, provided that no recovery of the success met a burned import_id, that no new transaction was reported booked but last of all pending, and that nothing of the repeat is matched by its looks |
| Repeats.NothingMissedIsFresh | src/ynab_auto_sync/sync/engine.py:905-946 | a success that found every target it corrected meets no burned import_id in a recovery |
| RecoveryEndings.LeftPendingIffBurned | src/ynab_auto_sync/sync/engine.py:1111-1259 | a recovery that goes through and finds one transaction to stand for its target leaves a pending row PENDING if and only if the import_id of the replacement was burned before |
| Repeats.RunIsTimely | src/ynab_auto_sync/sync/engine.py:323-352 | over every run with a clock that never runs backwards, what the results on repeats and on windows ask of the stores stays true: cursors lie in the past, and the rows of a cached job in its windows |
| Repeats.FreshIsTimely | src/ynab_auto_sync/sync/engine.py:323-352 | a fresh installation meets it |
| RepeatedKeys.CorrectedAgainIffLeftPending | src/ynab_auto_sync/sync/engine.py:1402-1574 | a new transaction reported booked and tracked by a success is corrected once more by the same report, fetched again, if and only if the last of its reports was a pending one |
| RepeatedKeys.StutterChangesYnab | src/ynab_auto_sync/sync/engine.py:1402-1574 | one purchase reported as a preauthorisation, a charge and the preauthorisation again: the repeat of a successful cycle changes YNAB |
| Filing.CycleFindsLast | src/ynab_auto_sync/sync/engine.py:1435 | of all the creates of such a cycle with one import_id the one that is recorded is the last that was reported |
| Filing.CycleFindsFirst | src/ynab_auto_sync/ynab/client.py:215-240 | and the first payload with it, which YNAB acts on, is that of the first report |
| Mirroring.SuccessMirrorsIff | src/ynab_auto_sync/sync/engine.py:1402-1574 | a success that comes to track a transaction under an import of its own, recoveries and repeated reports included: the row has the amount and the flag of its YNAB transaction if and only if, before the attempt, its import_id was free and the first and the last new report of it agree in milliunits and in being booked, or it was burned and the transaction listed under it was cleared as the last report asks for |
| MatchedOriginals.MatchedMirrorsIff | src/ynab_auto_sync/sync/engine.py:1402-1574 | the same where YNAB matched the create natively with a transaction that no correction of the cycle is for, and no call is answered with a 400: the row has the amount and the flag of that transaction if and only if the first and the last new report agree in milliunits |
| LostPreauth.LostPreauthStaysUncleared | src/ynab_auto_sync/sync/engine.py:2213-2231 | a preauthorisation is created but its answer lost, the cycle is given up, and the next fetch reports the charge: the success leaves a BOOKED row over a transaction that is uncleared at the preauthorised amount |
| LostPreauth.BothAtOnceStaysUncleared | src/ynab_auto_sync/sync/engine.py:1435 | one fetch reports a preauthorisation and its charge, and nothing fails: the success leaves a BOOKED, cleared row over the charged amount for a transaction that is uncleared at the preauthorised one |
| Repeats.WindowNeverMovesBack | src/ynab_auto_sync/sync/engine.py:323-352 | after a completed submission, whatever it recorded as pending and whenever those rows were first seen, no account's next fetch window starts earlier than the one before |
| Filing.CycleFilesExactly | src/ynab_auto_sync/sync/engine.py:395-598 | a cycle in which nothing is settled or matched by its looks holds a create for exactly the accepted untracked transactions, a plain update for exactly the accepted booked ones whose row is pending, and nothing else |
| Filing.ExactRules | src/ynab_auto_sync/sync/engine.py:395-598 | with manual matching and pending import off every cycle is one |
| Classification.CycleSorter.FetchAndClassify | src/ynab_auto_sync/sync/engine.py:600-824 | the loops with their caches popped in place compute the cycle that one transaction after another determines |
| Classification.CycleSorter.ComputeFetchWindows | src/ynab_auto_sync/sync/engine.py:323-352 | each account's window is its cursor's bound, widened to its earliest pending row |
| Classification.ManualMatchIsSole | src/ynab_auto_sync/sync/engine.py:354-393 | the exact matcher returns a candidate if and only if it is the one and only same-amount, unsplit candidate in the window |
| Provenance.CycleComesFromReports | src/ynab_auto_sync/sync/engine.py:434-598 | whatever is fetched and cached, every item of a cycle comes from one report, field by field: a create has its key, account, mapping, date, milliunits, payee, flag, status and account numbers; a match the same under the amount and payee of a visible, unimported transaction of the mapped account that its own opt-in allows; a plain update books the PENDING row of its own key, and a fuzzy one a PENDING row of its account within the tolerance and the window, each with that row's transaction and budget |
| Provenance.ReplacementIsChosen | src/ynab_auto_sync/sync/engine.py:479-505 | with a positive margin, a booked report is matched with a candidate if and only if no other place in the list holds one that its opt-in, exact milliunits and window allow; a pending one if and only if its own opt-in is on and the candidate, within the tolerance and the window, is the only one or leads by its payee |
| Provenance.OutcomeIsChosen | src/ynab_auto_sync/sync/engine.py:430-568 | with a positive margin, an untracked booked report settles the pending row that leads for it, whatever else it is like; a report that settles none replaces the manual transaction that is chosen for it; and it is created if no offered row could have become it and no listed transaction is allowed |
| FuzzyClaims.NoRowClaimedTwice | src/ynab_auto_sync/sync/engine.py:434-459 | in one classify loop every fuzzy update comes from a pending row in that row's budget and no row is claimed twice; no new key is used twice if each is reported once |
| ClassifiedCycles.FuzzyTransitionsLoseNothing | src/ynab_auto_sync/sync/engine.py:826-1037 | the first submission of a cycle that classification and transfer linking produce, whatever its feed repeats, with every call working and every target alive: it ends in a database error if and only if a create of the cycle records a key that a pending row is to be moved to, or two rows are to be moved to one key; otherwise it completes, every claimed row is BOOKED under its new key for the YNAB transaction it was for, and the number of rows and the multiset of their transactions are kept |
| ClassifiedCycles.TakenKeyNeverCompletes | src/ynab_auto_sync/sync/engine.py:220-232 | in the first of those cases no later submission completes, on whatever script |
| OneChargeTwice.OneChargeTwoTransactions | src/ynab_auto_sync/sync/engine.py:847-872 | a booked charge that settles a pending row by its looks and is reported twice: its first submission fails without any fault, none of any number of later ones completes, and two visible transactions stand for it |
| TrackedKeys.CreatesTrack | src/ynab_auto_sync/sync/engine.py:847-872 | creates that went through track exactly the keys that were tracked, those of the creates recorded for an import_id, unless it is burned by something no lookup finds, and those of the other legs of transfers that were made |
| RowOrigins.RowsComeFromReports | src/ynab_auto_sync/sync/engine.py:1402-1574 | after any attempts at a classified cycle, linked or not, on any scripts and with their recoveries: a row whose key was not tracked has the account key of a report of that key, its mapped account and budget, its date, flag and import_id (a local one and the report's milliunits for the other leg of a transfer) and its status, or is DELETED under its milliunits; or it was moved there from a PENDING row of that account that the report could have become.  A row that was tracked is as it was, or was PENDING and is BOOKED or DELETED under the milliunits of such a report, in the same account |
| RowOrigins.PendingImportStaysOpen | src/ynab_auto_sync/sync/state_db.py:590-643 | so a row recorded as PENDING comes from a pending report: every later fetch window of that report's account reaches back to when the row was first seen, and the row is offered to the booked charges of that account, with its transaction, budget, amount and payee |
| Settlement.SettlesIffClear | src/ynab_auto_sync/sync/state_db.py:645-709 | a list of bookings and rekeys of distinct rows goes through if and only if every row is where its correction looks for it and no free key is wanted twice |
| Resubmission.SmoothAttempt | src/ynab_auto_sync/sync/engine.py:826-1077 | any attempt in which every call works and every target is alive completes if and only if, once its creates are recorded, every row is where its corrections look for it and no free key is wanted twice; otherwise it ends in a database error |
| Resubmission.BlockedNeverCompletes | src/ynab_auto_sync/sync/engine.py:946-1037 | while a pending row and the key it is to be moved to are both tracked, no attempt of any sequence completes |
| Resubmission.RetryEndsInDbFailedIffRowShared | src/ynab_auto_sync/sync/engine.py:946-1037 | once some attempt, after whatever others, got through its corrections, a retry in which every call works and every target is alive ends in a database error if and only if some pending row has both a plain and a fuzzy update, or some moved row was matched anew as other than BOOKED, and completes otherwise |
| ClassifiedCycles.ClassifiedRetryFailsIffRowShared | src/ynab_auto_sync/sync/engine.py:220-232 | the same for every cycle that classification and transfer linking produce, whatever its feed repeats; the second case needs a repeated report |
| ClassifiedCycles.SharedRowSharesTransaction | src/ynab_auto_sync/sync/engine.py:434-459 | both updates of a shared row patch the same YNAB transaction, whatever the feed repeats |
| TwoCharges.BothClaimOneRow | src/ynab_auto_sync/sync/engine.py:434-494 | a new charge that looks like a pending row, and then the row's own booking: classification files a fuzzy and a plain update of that row |
| TwoCharges.BothResubmitted | src/ynab_auto_sync/sync/engine.py:946-1037 | that cycle, submitted again after its corrections, fails |
| TwoCharges.TwoChargesOneTransaction | src/ynab_auto_sync/sync/engine.py:826-1077 | after that cycle and the next one, without any fault, both booked charges are tracked as one YNAB transaction, over the amount of the first |
| LostTransition.ComesBackIffIdFree | src/ynab_auto_sync/providers/base.py:103-107 | with nothing tracked, the create of a purchase that stands in YNAB as an import of another id leaves that one as it is and adds a second transaction if and only if the purchase's own import_id is free |
| LostTransition.LostTransitionIsImportedAgain | src/ynab_auto_sync/providers/base.py:103-107 | a booked charge settles a pending row by its looks, the tables are lost and the charge is fetched again, all without any fault: two visible transactions stand for it |
| CandidateCache.CachedMatchingIsFullMatching | src/ynab_auto_sync/sync/engine.py:641-666 | if the windows fit in the listing and no list is widened after a claim, the cached bounded lists give the same cycle as listing the whole account, less its claims, for every transaction |
| CandidateCache.WideningIsRightIffNothingClaimed | src/ynab_auto_sync/sync/engine.py:654-666 | at any point of a cycle, a widening refetch returns the account without its claimed candidates if and only if nothing has been claimed from it |
| CandidateCache.LateWideningClaimsTwice | src/ynab_auto_sync/sync/engine.py:655-665 | two purchases, the later-dated one first, both claim the same hand-typed transaction |
| ClassifiedCycles.NoCandidateClaimedTwice | src/ynab_auto_sync/sync/engine.py:415-417 | as long as no list is widened after a claim from it, no manual transaction is claimed twice in a cycle |
| TwoPurchases.LateWideningLosesMoney | src/ynab_auto_sync/sync/engine.py:1683-1921 | the two claims of a late widening, submitted without any fault, the first one matched natively: its purchase is visible neither as the hand-typed transaction nor under its own import_id |
| Engine.SyncEngine.SubmitCycle | src/ynab_auto_sync/sync/engine.py:826-1077 | the engine's loops over both stores, recoveries included, leave exactly the stores, outcome and counts of the phase-2 specification, on every script |
| Engine.SyncEngine.RecordCreatedRows | src/ynab_auto_sync/sync/engine.py:1402-1574 | recording the response row by row, stopping where a call raises, computes its specification |
| Engine.SyncEngine.BackfillDuplicates | src/ynab_auto_sync/sync/engine.py:2147-2294 | the lookups for untracked duplicates compute their specification |
| Searches.DuplicateIsListed | src/ynab_auto_sync/ynab/client.py:305-343 | the transaction found for a duplicate is the first that is listed under its import_id in its own budget and account, dated at most the backfill before it |
| Searches.DeletedDuplicateIsFirst | src/ynab_auto_sync/ynab/client.py:384-412 | it counts as deleted if and only if the first transaction of the budget under that import_id in that reach is |
| Engine.SyncEngine.CorrectOneBudget | src/ynab_auto_sync/sync/engine.py:874-1037 | the pre-check and the corrections of one budget, recovering those whose target is gone, compute their specification |
| Engine.SyncEngine.RecoverMissingUpdate | src/ynab_auto_sync/sync/engine.py:1111-1259 | the search for a replacement and its two endings compute their specification |
| Recovery.SubmitIsSubmitFully | src/ynab_auto_sync/sync/engine.py:905-946 | an attempt that meets no missing target is the same with and without recoveries, so what is proved of such attempts holds of the engine |
| RepeatedRecovery.RecoveryEffect | src/ynab_auto_sync/sync/engine.py:1111-1259 | with every call working, a recovery that finds one replacement leaves exactly one of it and its import visible, over the corrected amount and tracked under the final key; no other transaction or row changes, so the row a fuzzy update came from stays PENDING |
| RepeatedRecovery.RecoveryFields | src/ynab_auto_sync/sync/engine.py:1111-1259 | its import is filed in the account of the row, on the day and under the payee of what it replaces, over the corrected milliunits, cleared, under an import_id of the row's own domain; its row keeps account and payee and is BOOKED |
| RepeatedRecovery.StandInIsFound | src/ynab_auto_sync/sync/engine.py:1165-1193 | every visible, unsplit, unimported transaction of the row's account over the new milliunits, within the window of the row's date and the backfill, may stand for the row |
| Recovery.ReevalSeedInjective | src/ynab_auto_sync/sync/engine.py:1224-1245 | no two recoveries share a seed, and none shares one with a re-add |
| Searches.CorrectedIffInReach | src/ynab_auto_sync/sync/engine.py:883-946 | with calls that work, a correction is applied if and only if its target is not deleted and dated at most the backfill before some correction of the budget, and recovered otherwise |
| RepeatedRecovery.ResubmittedRecovery | src/ynab_auto_sync/sync/engine.py:1111-1259 | the same correction submitted again leaves the row and YNAB alone if and only if YNAB had matched the replacement natively and nothing else fits around its date; otherwise the row is given up as DELETED although its transaction is visible, or another manual transaction is deleted |
| RepeatedRecovery.LostRecoveryLosesMatched | src/ynab_auto_sync/sync/engine.py:1877-1889 | the answer to a recovery's create is lost and every call of the retry works: the retry deletes the replacement and records nothing, and the amount is visible under the new import_id if and only if YNAB had not matched the replacement natively |
| Engine.SyncEngine.SubmitMatchBatch | src/ynab_auto_sync/sync/engine.py:1683-1921 | creating, finishing natively or by deleting, and recovering duplicates of manual matches compute their specification |
| Searches.MatchedDuplicateIsListed | src/ynab_auto_sync/sync/engine.py:1866-1921 | with calls that work, an untracked duplicate match is tracked afterwards if and only if its import_id is listed in its own account, for the first transaction listed, or for the original if YNAB matched that one |
| Engine.SyncEngine.ReaddDeletedTransaction | src/ynab_auto_sync/sync/engine.py:2296-2374 | the re-add changes the stores as specified and reports which of its endings was taken |
| RecordLayout.LayoutDoesNotMatter | src/ynab_auto_sync/sync/engine.py:1402-1574 | two responses with the same answers to the submitted ids, in any order and among any echoed rows, give the same table and the same counts |
| RecordLayout.CountsAreKeysWritten | src/ynab_auto_sync/sync/engine.py:1402-1681 | created plus updated is the number of tracking keys written, transfer secondaries included |
| ManualReplacement.MatchedMoneyNeverVanishes | src/ynab_auto_sync/sync/engine.py:1683-1921 | within one cycle of distinct matches, after any attempts aborted at any call, of every manual original and its replacement at least one is visible; once an attempt completes in which no delete was refused, exactly one is |
| ClassifiedCycles.ClassifiedMoneyNeverVanishes | src/ynab_auto_sync/sync/engine.py:600-824 | the same for every cycle that classification and transfer linking produce without a late widening, whatever its feed repeats, as long as whatever is matched is filed once |
| ClassifiedCycles.DistinctReportsMatchApart | src/ynab_auto_sync/sync/engine.py:600-824 | it is if the feed reports each key and import_id once |
| TwoOriginals.ReportedTwiceClaimsTwo | src/ynab_auto_sync/sync/engine.py:1747 | one purchase reported over two amounts, each typed in by hand: without any fault one original stays visible beside its replacement and nothing visible has the other amount |
| RepeatedMatching.MatchedStaysOffered | src/ynab_auto_sync/ynab/client.py:122-155 | a visible in-window transaction of the account is listed as a candidate if and only if it has no import_id, whether or not it is already matched |
| RepeatedMatching.EarlierMatchesSurviveIffUnmatched | src/ynab_auto_sync/sync/engine.py:1822-1864 | when YNAB's own matching, if it fires, picks the chosen candidates, a cycle that completes after whatever attempts leaves every earlier natively matched original visible if and only if none of its matches chose one that carried a match; either way earlier rows stay as they are |
| TwoPurchases.SecondPurchaseHidesFirst | src/ynab_auto_sync/sync/engine.py:1822-1864 | two purchases of one amount in two cycles without any fault, the first one matched natively: the second deletes the transaction that the first was matched to, and the first is not visible any more |
| TransferLinking.LinkTransfers | src/ynab_auto_sync/sync/engine.py:1923-2019 | linking one budget's creates keeps the multiset of legs.  A listed create is one of them, or is one with the fields of a non-positive create that transfers to the account of its secondary, another one of them: other accounts, opposite amounts, dates within the window, one naming the account number of the other, and no third create so related to either.  Every two such creates are linked, if money moves and the account has a transfer payee |
| TransferLinking.MatchTransfers | src/ynab_auto_sync/sync/engine.py:1923-2019 | the same budget by budget, so no link crosses budgets |
| TransferLinking.LinkingConserves | src/ynab_auto_sync/sync/engine.py:1923-2019 | the total over listed creates and secondaries is unchanged, and each tracking key is a leg as often as before |
| LinkedTransfers.TransferMirrorsIff | src/ynab_auto_sync/sync/engine.py:1576-1681 | once the create of a new linked transfer works, the row of the submitted leg agrees with its transaction in account, milliunits and flag; the row of the other leg has its own status and milliunits, and agrees with the transaction that YNAB added if and only if that leg is pending or the call that clears it arrives |
| LinkedTransfers.TriesChangeNothing | src/ynab_auto_sync/sync/engine.py:847-872 | after that, no number of attempts at the same create, on any scripts, changes the ledger or the table |
| LinkedTransfers.BookedIsNeverCorrected | src/ynab_auto_sync/sync/engine.py:576-598 | nor does any later cycle correct a BOOKED row |
| Transfers.FindTransferPairs | src/ynab_auto_sync/sync/transfers.py:32-112 | each returned pair has different accounts, amounts that sum to zero, dates within the window, and the remote account number of one equal to the account number of the other, and no third candidate is so related to either; every two such candidates are paired, each index in at most one pair |
| Transfers.PairRemovalKeepsPartners | src/ynab_auto_sync/sync/transfers.py:96-112 | removing a matched pair changes no other candidate's set of partners |
| Transfers.PairsDoNotDependOnOrder | src/ynab_auto_sync/sync/transfers.py:32-112 | results for two orderings of the same candidates hold the same unordered pairs |
| PendingMatch.PendingMatchIsClearWinner | src/ynab_auto_sync/sync/pending_match.py:145-220 | with a positive margin a candidate is returned if and only if, of all that fit, it is the only one, or its normalised payee reaches the floor and leads every other one by the margin |
| PendingMatch.PendingMatchFits | src/ynab_auto_sync/sync/pending_match.py:145-220 | whatever is returned is listed and fits: the same account, amounts at most the tolerance apart on either side, dates at most the window apart, and payees that agree if they must; if only one place in the list fits, that one is returned with similarity 1, and if none does, nothing is |
| PendingMatch.PendingMatchIgnoresOrderAndNoise | src/ynab_auto_sync/sync/pending_match.py:145-220 | with a positive margin neither the order of the candidates nor candidates that fail a hard filter change the result |
| PendingMatch.ManualMatchIgnoresOrderAndNoise | src/ynab_auto_sync/sync/pending_match.py:223-283 | the same for the tolerant manual matcher; without a payee it returns only a sole survivor |
| PendingMatch.ManualMatchIsClearWinner | src/ynab_auto_sync/sync/pending_match.py:223-283 | with a payee, the tolerant matcher returns exactly the only candidate that fits, or the one whose payee reaches the floor and leads every other one by the margin |
| PendingMatch.ManualMatchFits | src/ynab_auto_sync/sync/pending_match.py:223-283 | with or without a payee, whatever is returned is listed, unsplit, at most the tolerance and the window away; the only place that fits is returned, and nothing if none does |
| PendingMatch.NoMarginDependsOnOrder | src/ynab_auto_sync/sync/pending_match.py:200-220 | without a positive margin two tied candidates that pass every filter are told apart by their order alone |
| Sanitize.LevenshteinDistance | src/ynab_auto_sync/sync/sanitize.py:100-126 | the two-row, operand-swapping loop computes the recursive edit distance |
| Sanitize.DistanceIsLeastEdits | src/ynab_auto_sync/sync/sanitize.py:100-126 | that distance is the length of some edit script and of no shorter one |
| Sanitize.DistanceIsAMetric | src/ynab_auto_sync/sync/sanitize.py:100-126 | zero exactly for equal strings, symmetric, the triangle inequality, and at most the longer length |
| Sanitize.SimilarityRange | src/ynab_auto_sync/sync/sanitize.py:129-147 | the similarity lies in [0, 1] and is 1 exactly for equal strings |
| Sanitize.SimilarityCountsEdits | src/ynab_auto_sync/sync/sanitize.py:129-147 | the similarity times the longer length is that length less the number of edits in a shortest script |
| Sanitize.PlausibleMatchIsSharedPrefix | src/ynab_auto_sync/sync/sanitize.py:79-97 | two normalised payees match plausibly if and only if neither is empty and they agree up to the required length or the end of the shorter one, in either order |
| Money.RoundingIsNearestTiesToEven | src/ynab_auto_sync/sync/money.py:14-21 | the rounding gives the one nearest integer, ties to even |
| Money.ToMilliunitsIsNearest | src/ynab_auto_sync/sync/money.py:14-21 | to_milliunits is off by at most half a milliunit, monotone and odd |
| Money.MilliunitsRoundTrip | src/ynab_auto_sync/sync/money.py:24-26 | from_milliunits is exact and to_milliunits inverts it |
| Money.ParsedAmountSurvives | src/ynab_auto_sync/sync/money.py:29-45 | an amount parsed with at most three places survives the trip to milliunits and back |
| Money.ThreePlacesIsExact | src/ynab_auto_sync/sync/money.py:29-45 | every parsed amount survives if and only if it is parsed with at most three places |
| BookingFlags.EveryWriteKeepsConsistent | src/ynab_auto_sync/sync/state_db.py:461-623 | over every sequence of submissions of classified cycles, each linked by whatever rule and accounts, with their recoveries, re-adds and prunings, a non-DELETED row is PENDING if and only if it is uncleared, and amount_milliunits is to_milliunits of amount_decimal |
| RecoveryFacts.SubmitFullyKeeps | src/ynab_auto_sync/sync/state_db.py:461-536 | whatever holds of every row, of every row the cycle would record, and of every settled, recovered or given-up row still holds after any attempt, recoveries included, on any script |
| StateDb.MigrationAgrees | src/ynab_auto_sync/sync/state_db.py:291-309 | the migrated decimal is a thousandth of the stored milliunits, and both columns agree |
| BookingFlags.MigratedAmountsStay | src/ynab_auto_sync/sync/state_db.py:291-309 | after the migration and any engine writes, whatever cycles they submit, both amount columns agree in every row |
| BookingFlags.MigratedStaysConsistent | src/ynab_auto_sync/sync/state_db.py:291-309 | if the migrated flags fit their statuses and the cycles are genuine, they go on fitting |
| StateDb.EarliestPending | src/ynab_auto_sync/sync/state_db.py:590-605 | the least first-seen time over the account's pending rows, none if and only if there is no such row |
| StateDb.RepeatedUpserts | src/ynab_auto_sync/sync/state_db.py:461-536 | however often a row is upserted, among whatever others, it holds the facts of the last time and the first_seen_at and re-add count it had before; a new row was first seen at its first upsert |
| StateDb.StateDB.RekeyPendingToBooked | src/ynab_auto_sync/sync/state_db.py:645-709 | the row moves to the new key as BOOKED and cleared under the new amount in both columns, everything else in it unchanged, and the old row is returned, if and only if it is there and the new key is free or its own; a repeat returns nothing; a missing row or a taken key fails; no other row changes |
| Readd.ReaddKeepsConsistent | src/ynab_auto_sync/sync/state_db.py:549-588 | a re-add keeps both amount columns equal in every row, and PENDING and uncleared in step |
| StateDb.StateDB.PruneBookedTransactions | src/ynab_auto_sync/sync/state_db.py:711-731 | exactly the BOOKED rows dated before the cutoff go, their number is returned, and the first-seen times of pending rows, which hold the fetch windows open, stay as they were for every account |
| ImportIds.PrefixRoundTrip | src/ynab_auto_sync/sync/import_ids.py:28-54 | prefix_of undoes derive_import_id if and only if the prefix is empty or its only colon comes last |
| ImportIds.ImportIdFits | src/ynab_auto_sync/sync/import_ids.py:20-38 | a derived import_id fits in 36 characters if and only if its prefix has at most six |
| ImportIds.ReaddSeedInjective | src/ynab_auto_sync/sync/engine.py:2322-2329 | no two re-adds, of one row or of different rows, share a seed |
| Readd.ReaddSucceedsIffFresh | src/ynab_auto_sync/sync/engine.py:2296-2374 | with a call that works, a re-add succeeds exactly when its import_id is not burned.  YNAB then has one more transaction, with the budget, account, milliunits, date, payee and flag of the row and the fresh import_id; the row points at it, or at the transaction it was natively matched with, which has that account and amount; otherwise nothing changes |
| Readd.RoundsKeepDomain | src/ynab_auto_sync/sync/engine.py:2296-2374 | after any positive number of delete and re-add rounds the import_id is in the original dedup domain, as long as that domain allows, made from a seed no other round or row uses, and the status follows the cleared flag |
| Readd.LostResponseEndsReadds | src/ynab_auto_sync/sync/engine.py:2343-2374 | if the response is lost, the row stays DELETED and no later re-add of it can succeed |
| Windows.PrunedRowIsRejected | src/ynab_auto_sync/config.py:258-268 | under the validator's inequality a pruned row, re-reported up to ceil(overlap / 24) days later, is rejected by every later cutoff if and only if no pending row of the account was first seen on or before the re-reported date |
| Windows.OldPendingRowReopensWindow | src/ynab_auto_sync/sync/engine.py:343-351 | otherwise it is filed as new |
| Windows.ShorterRetentionReadmits | src/ynab_auto_sync/config.py:258-268 | with any less retention than the validator asks for, some pruned row is accepted again |
| Windows.NextWindowReachesLastFetch | src/ynab_auto_sync/sync/engine.py:1062-1068 | without pending rows the next window reaches back to the last fetch if and only if the submission ended within the overlap and the next cycle starts within the backfill |
| Scheduler.SyncScheduler.AttemptCycle | src/ynab_auto_sync/scheduler.py:277-354 | one attempt changes fields, tables, fetches made and notes sent as specified |
| Scheduler.SyncScheduler.SecondsUntilNextWake | src/ynab_auto_sync/scheduler.py:142-153 | the wait ends at the next cron fire, or at a deadline that comes before it, at once if that is overdue |
| Scheduler.RunKeepsInv | src/ynab_auto_sync/scheduler.py:155-188 | over every run, restarts included, cached work implies a deadline, and there are no attempts exactly when there is no deadline |
| Scheduler.DeadlineBeforeFire | src/ynab_auto_sync/scheduler.py:160-188 | a deadline left behind is that attempt's own backoff and lies strictly before the cron fire that follows |
| Scheduler.RetryIffBeforeFire | src/ynab_auto_sync/scheduler.py:160-188 | after a failed submission, or a fetch that failed for another reason than authorisation, there is a deadline if and only if now plus the smaller of base times two to the number of attempts and the cap lies before the next fire; it is then that time, with one attempt more and the submitted work cached; otherwise, and after a success or a failed authorisation, there is no deadline, no attempt and no cached work |
| Scheduler.AttemptRecords | src/ynab_auto_sync/scheduler.py:277-354 | what an attempt records: times, error, authorisation and counters of the run, the cursors of a success, and the note of a success that says whether anything changed |
| Scheduler.CachedWorkIsNotRefetched | src/ynab_auto_sync/scheduler.py:277-327 | from a failed submission until success or give-up no provider is fetched and the cached work stays the same |
| Scheduler.OnlySuccessCounts | src/ynab_auto_sync/scheduler.py:329-337 | over every run cursors change only by what successes recorded, and imported_total grows by the sum of their imports |
| Scheduler.RunNotifies | src/ynab_auto_sync/scheduler.py:262-275 | without restarts no two consecutive error notes have the same text, and nothing sent is lost |
| Scheduler.AttemptNotifies | src/ynab_auto_sync/scheduler.py:262-275 | an attempt sends no note only if it would repeat the last error, and the remembered error is the last one recorded |
| Scheduler.BackoffTerminates | src/ynab_auto_sync/scheduler.py:160-188 | n retries scheduled before one cron fire have delays that sum to less than the time from the first failure to that fire, so n times the smaller of base and cap is below it |
| Scheduler.DelaysNeverDecrease | src/ynab_auto_sync/scheduler.py:160-168 | with a base that is not negative, delays never decrease |
| Scheduler.UncheckedSettingsNeverGiveUp | src/ynab_auto_sync/scheduler.py:160-188 | unless base and cap are both positive, every failing submission is rescheduled at once and its work kept |
| PayeeCache.PayeeMappings.ReconcilePayeeMappings | src/ynab_auto_sync/sync/engine.py:2021-2145 | a sweep runs if and only if there was none yet or the last one started at least 86400 seconds ago; it deletes exactly the mappings of the configured budgets that are missing from a fetched list and individually confirmed gone, returns how many, and is stamped now |
| PayeeCache.PayeeMappings.UpsertPayeeMapping | src/ynab_auto_sync/sync/state_db.py:1044-1057 | the pair is cached afterwards, under the id it had if it was cached before; nothing else changes |
| PayeeCache.LivePayeesStay | src/ynab_auto_sync/sync/engine.py:2029-2051 | with truthful lookups no sequence of learning and sweeping, whatever the bulk lists say, loses a payee that is alive |
| PayeeCache.SweepIsComplete | src/ynab_auto_sync/sync/engine.py:2021-2145 | if a budget's list was fetched and holds only live payees and no lookup fails, every cached id of that budget that survives is live |
| PayeeCache.ValuesChangeOnlyByDeletion | src/ynab_auto_sync/sync/state_db.py:984-1057 | while an entry stays cached its value never changes |
| Creation.ResubmittedBatch | src/ynab_auto_sync/ynab/client.py:215-240 | resubmitting a batch whose ids are burned changes nothing and reports only duplicates |
| Creation.CreateAllKeepsUnique | src/ynab_auto_sync/ynab/client.py:215-240 | whatever native matching and transfers do, a batch create burns every submitted id, reuses none and keeps every transaction's identity |

## Left out

- Engine.SyncEngine.RecordCreatedRows: does not model learning and correcting payee text while recording a create (lines 1461-1570 of the engine); the payee cache is a component of its own.
- Engine.SyncEngine.RecoverMissingUpdate: takes the account key of the tracked row, which is that of its correction.
- RowOrigins.RowsComeFromReports: says nothing of the amount of a row recorded as reported, which for a recovered duplicate is what YNAB holds (`Mirroring` and `MatchedOriginals` compare it), nor of the payee of a linked create.
- Recovery.SubmitIsSubmitFully: the results on resubmitted corrections and on matches (`Resubmission`, `ClassifiedCycles`, `ManualReplacement`, `RepeatedMatching`) are about attempts that meet no missing target; `Runs` and `BookingFlags` include recoveries, and what one does, once, twice and with its answer lost, is in `RepeatedRecovery`.
- Convergence.RetryConvergence: assumes that correction targets are live and rows distinct, and a correction answered with a 400 counts as broken off, whereas the engine looks for a replacement; native matching and transfer links are outside it.
- Runs.ExactlyOnce: is for runs in which no report is settled or matched by its looks, and without transfer links.
- Mirroring.SuccessMirrorsIff: is for rows that are not given up as DELETED, under a key whose import_id no other key or recovery repeats.
- MatchedOriginals.MatchedMirrorsIff: leaves out a create whose un-clearing PATCH is answered with a 400, which the engine only logs, and an original that a correction of the same cycle is for.
- ClassifiedCycles.FuzzyTransitionsLoseNothing: is for the stores the cycle was classified from; later submissions are in `SmoothAttempt`, `TakenKeyNeverCompletes` and `RetryEndsInDbFailedIffRowShared`.
- ClassifiedCycles.ClassifiedMoneyNeverVanishes: is for cycles in which nothing shares the key or import_id of a match, without which it fails (`ReportedTwiceClaimsTwo`), submitted on the stores they were classified from.
- RecordLayout.LayoutDoesNotMatter: is for a response recorded without a failing call in between.
- Scheduler.BackoffTerminates: is for runs without manual triggers and pauses, with one clock reading per attempt.
- The secondary leg of a transfer whose create response was lost stays untracked, as in the code; no theorem covers it.
- `_PendingCreate` objects are shared between lists in the code; here they are values, rewritten where the code rewrites the object.
- The file-import path, mapping edits, audit events, progress reports, log text, the vacuum and reconcile timers beyond their due checks.
- HTTP, OAuth, JSON, SQLite, MQTT, websockets, the web API and the frontend; the providers are feeds of normalised transactions.
- Text cleaning and payee normalisation: the matchers take normalised text through a parameter.
- A failing payee fetch while linking transfers, which aborts the cycle before anything is written.
- Decimal context precision and floating-point rounding of similarity scores: both are exact reals.
