# FoundersHQ: five protocols, proved

A Dafny model of the parts of FoundersHQ whose guarantees only show over whole runs, with proofs of those
guarantees and, where one does not hold, of exactly when it does.

1. **Membership and tokens** (`Membership*`, `ResetTokens`, `ResetHandlers`). Each request is a transaction that
   runs one database statement at a time against committed tables. Reads are READ COMMITTED, a transaction's own
   writes stay private until it commits, and row locks and pending unique-index entries are kept until commit or
   rollback. A schedule is any interleaving of any number of such transactions, with aborts and clock ticks anywhere.
   `MembershipHandlers` and `ResetHandlers` hold the handlers in the order the source writes them, as methods of a
   class, each proved to commit what its transaction commits when it is alone in the state machine.
2. **Insights** (`Evidence`, `Generators`, `Loaders`, `Insights`, `InsightTheorems`, `InsightRows`,
   `InsightReadings`, `RunwayOrder`, `LateInvoices`). Loaders bucket rows, five generators emit candidates, and a
   dedupe loop persists those the organisation never had.
3. **Audit log** (`Base64Url`, `AuditQuery`). Keyset pagination while rows are inserted, the cursor codec (unpadded
   base64url, sections 3.2 and 5 of RFC 4648), and the export scan.
4. **Events** (`EventSeq`, `EventReplay`, `EventClient`, `EventRuns`, `EventTheorems`, `EventReconnect`, `EventGaps`,
   `EventDisconnect`). Zero-padded sequence strings, an outbox with a publisher, replay from a cursor, and a browser
   client that disconnects and reconnects.
5. **Imports and rates** (`Import`, `ImportTheorems`, `Fx`, `FxIngest`). A batch loop whose added but unflushed rows
   are invisible to its own dedupe query, and an upsert table with a "latest on or before" lookup.

`Base` and `Ordering` are shared: options, orders, stable sorting, filtering and sums over sequences.
`dafny verify dfyconfig.toml` checks everything.

## Where the code and its description differ

Each of these is proved in the file named.

- The CSV export calls the scan with a chunk size of 500, which the query clamps to 200; the short-page rule then
  ends the scan, so an export stops after 200 rows although its comment promises every row (`AuditQuery`).
- An acceptance is checked against the expiry at the time it reads the clock, not at the time it commits
  (`MembershipLimits`). It commits in time exactly if the clock moved by less in between than was left
  (`MembershipHistory`).
- An acceptance that finds a membership inserts none. If a removal of that user commits after the membership was
  read and no later event makes the user a member again, the accepted user has none; otherwise the user has one
  (`MembershipHistory`, `MembershipLimits`).
- Inviting and revoking rest on a check made before the transaction writes. Authority withdrawn between check and
  commit, and not granted again, does not stop them (`MembershipHistory`; `InvitationCanOutliveAuthority` in
  `MembershipLimits` is a run).
- A reset "invalidates any other unconsumed tokens", but only those its bulk update's snapshot saw; a token
  committed after the snapshot, yet before the reset, stays usable (`ResetTokens`).
- Vendors that spike without spending in the current month have no evidence ids, so their insights share one key and
  only one is ever stored. The rows a run stores depend on the order in which its facts are read exactly if that key
  is still free and such vendors differ in severity (`InsightReadings`).
- The late-invoice window defaults to one day: an invoice that comes due on a day without a run is never stored
  (`LateInvoices`).
- A cash balance of zero is treated as if there were none (`Loaders`).
- The import deduplicates against rows it has flushed. Duplicates inside one chunk are all stored, and later
  imports report them as errors (`ImportTheorems`).
- The hashed text of a transaction has no separator between description and amount and leaves out currency and
  merchant, so different transactions can share a hash; exactly which is proved (`ImportTheorems`).
- A skipped row also skips its progress report, so the report that all rows are done may never come
  (`ImportTheorems`).
- Loading the same rates again is documented as a no-op. It leaves every rate as it is, but counts updates again if
  a key carries two rates or a rate has more decimals than its column (`FxIngest`).
- A client that reconnects loses every event published between the answer to its replay and its new subscription
  as soon as a later one is delivered, although the replay exists to close that gap (`EventReconnect`).
- `disconnect` lasts if and only if no `connect` is waiting for its replay; such a one opens the stream afterwards
  (`EventDisconnect`).

The runway generator takes its evidence from the three largest changes of rows that are read without an order. For
arbitrary rows the evidence can depend on that order, and `RunwayOrder` says exactly when. All rows of a forecast that
the system stores carry the same ids, so there it never does, although every forecast of four or more weeks is tied.

## Model

| member | source | states |
|---|---|---|
| MembershipTheorems.Serializable | backend/app/api/routers/org.py:175-306 | over every schedule of register, accept, role-change, remove, invite and revoke transactions, the committed tables are those of running the committed transactions one after another, each permitted at its turn: role changes and removals by authority held at the turn, invitations and revocations by authority held when it was checked |
| MembershipHistory.InvitersWereAuthorized | backend/app/api/routers/org.py:90-159 | whoever commits an invitation or a revocation was owner or admin when checked, and is at the commit if and only if every withdrawal of that authority in between was followed by a grant |
| MembershipLimits.InvitationCanOutliveAuthority | backend/app/api/routers/org.py:90-109 | a run from the empty database in which an admin passes the check, is removed by a committed request, and the invitation then commits |
| MembershipTheorems.EveryOrgAlwaysHasAnOwner | backend/app/api/routers/org.py:175-243 | in every reachable state every registered organisation has a committed owner, and no user has two memberships in one organisation |
| MembershipTheorems.ChangesAreAuthorized | backend/app/api/routers/org.py:175-295 | every committed role change or removal was made by someone who was owner or admin at its turn, by an owner where ownership is touched, and never took the last owner |
| MembershipTheorems.OwnershipIsInherited | backend/app/api/routers/org.py:227-228 | every owner there ever is registered the organisation or was promoted by someone who was its owner at that moment |
| MembershipLimits.WithoutTheLockAnOrgLosesEveryOwner | backend/app/api/routers/org.py:177 | without the row lock, a run from the empty database ends with an organisation that two owners, demoting each other, leave with none: the lock is necessary |
| MembershipTheorems.InvitationAcceptedAtMostOnce | backend/app/services/auth/tokens.py:59-71 | no acceptance commits after a committed acceptance or revocation of the same token, and each is decided before expiry |
| MembershipTheorems.SecondAcceptanceWaits | backend/app/services/auth/tokens.py:62-71 | while one request has consumed a token without committing, another acceptance of it is blocked |
| MembershipTheorems.RollbackLeavesTokenUsable | backend/app/api/routers/auth.py:186-199 | a rolled-back acceptance changes no table and leaves the token to the request that waited, exactly if that request meets the expiry and the address |
| MembershipTheorems.CommitRefusesSecondAcceptance | backend/app/services/auth/tokens.py:62-71 | after a committed acceptance the request that waited is refused |
| MembershipTheorems.AcceptanceLeavesMembership | backend/app/api/routers/auth.py:201-207 | a committed acceptance leaves the membership it inserted; the row it found is left if and only if no removal of that row committed between the read and the commit |
| MembershipHistory.AcceptanceLeavesMembershipIff | backend/app/api/routers/auth.py:201-207 | after a committed acceptance its user is a member of the organisation, by whatever row, if and only if it inserted one or every removal of the user since the read was followed by another insertion |
| MembershipLimits.AcceptanceCanLeaveNoMembership | backend/app/api/routers/auth.py:201-207 | a run from the empty database in which an accepted user ends without a membership |
| MembershipLimits.AcceptanceCanCommitAfterExpiry | backend/app/services/auth/tokens.py:61-66 | a run from the empty database in which an acceptance commits after its invitation has expired |
| MembershipHistory.AcceptanceInTimeIff | backend/app/services/auth/tokens.py:59-71 | over every schedule an acceptance's clock reading is that of its first step, is before the expiry and not after its commit; the commit is before the expiry if and only if the clock ticked between the two by less than what was left |
| MembershipHandlers.AloneIsARun | backend/app/models/base.py:52-61 | what a handler is compared with is a run of the concurrent state machine with one transaction in it |
| MembershipHandlers.Served | backend/app/models/base.py:52-61 | a request served from beginning to end takes the machine from one idle state to the next, with its event committed |
| MembershipHandlers.ChangeAlone | backend/app/api/routers/org.py:220-243 | with nothing interleaved, a role change or removal commits if and only if the actor's role, the target and the owner count allow it |
| MembershipHandlers.AcceptAlone | backend/app/api/routers/auth.py:187-207 | with nothing interleaved, an acceptance commits if and only if the token is usable, the address matches and a new user brings a password of eight characters; and what it commits |
| MembershipHandlers.Service.Register | backend/app/api/routers/auth.py:57-71 | commits what the transaction commits alone, which is permitted, and keeps the tables valid; nothing else changes |
| MembershipHandlers.Service.PatchMemberRole | backend/app/api/routers/org.py:211-243 | likewise, for role changes |
| MembershipHandlers.Service.RemoveMember | backend/app/api/routers/org.py:266-295 | likewise, for removals |
| MembershipHandlers.Service.AcceptInvite | backend/app/api/routers/auth.py:182-207 | likewise, for acceptances |
| MembershipHandlers.Service.CreateInvitation | backend/app/api/routers/org.py:90-109 | likewise, for invitations, which never carry the role owner |
| MembershipHandlers.Service.RevokeInvitation | backend/app/api/routers/org.py:145-159 | likewise, for revocations |
| ResetTokens.TokenSpentAtMostOnce | backend/app/services/auth/tokens.py:90-101 | under every schedule, no token is spent by two committed resets, as the token presented or as one invalidated; resets are decided before expiry |
| ResetTokens.ResetLeavesOnlyNewerTokens | backend/app/api/routers/auth.py:155-164 | after a committed reset a token of the user is unconsumed if and only if it was just before and is newer than the bulk update's snapshot |
| ResetTokens.ResetCanLeaveAnEarlierTokenUsable | backend/app/api/routers/auth.py:158-164 | a run in which a token committed before the reset stays usable after it |
| ResetTokens.PasswordIsFromLastReset | backend/app/api/routers/auth.py:155-156 | a stored password is that of the user's last committed reset, which presented a live token issued to that user |
| ResetTokens.RollbackLeavesTokenUsable | backend/app/services/auth/tokens.py:93-101 | a second reset waits for the first; a rollback leaves the token to it, a commit refuses it |
| ResetHandlers.ResetAlone | backend/app/api/routers/auth.py:148-164 | with nothing interleaved, a reset commits if and only if its token is usable, and then spends it and all the user's other unconsumed tokens |
| ResetHandlers.Accounts.ResetPassword | backend/app/api/routers/auth.py:144-164 | does what the transaction does alone, leaves the user no unconsumed token and sets the password |
| ResetHandlers.Accounts.ForgotPassword | backend/app/api/routers/auth.py:104-126 | does what the transaction does alone and keeps every earlier token |
| Evidence.CanonicalIffSameIds | backend/app/services/insights/__init__.py:54-62 | two lists of non-empty comma-free ids have the same hashed text if and only if they are equal as multisets |
| Evidence.JoinInjective | backend/app/services/insights/__init__.py:57-61 | the comma join of clean ids is injective |
| Generators.DetectNewlyLate | backend/app/services/insights/late_invoice.py:36-106 | the loop computes the specification `NewlyLate` |
| Generators.DetectRenewalsComing | backend/app/services/insights/commitment_renewal.py:50-114 | the loop and its in-place sort compute the specification `Renewals` |
| Generators.DetectVendorSpendSpike | backend/app/services/insights/vendor_spike.py:42-112 | the loop computes the specification `VendorSpikes` |
| Generators.DetectRunwayChange | backend/app/services/insights/runway_change.py:42-129 | the branches and the nested evidence loop compute the specification `RunwayChanges` |
| Generators.FirstSeen | backend/app/services/insights/runway_change.py:90-100 | the nested loop with a `seen` set yields each id once, where it first occurs |
| Loaders.WeekStartIs | backend/app/utils/dates.py:14-16 | the week start is the one Monday within the seven days up to the date |
| Loaders.LoadCashHistory | backend/app/services/insights/run_all.py:168-221 | the bucketing loop and the walk back give each active week the balance less the net of all later active weeks, and the outflows of the latest week |
| Loaders.CashAddsUp | backend/app/services/insights/run_all.py:210-217 | the last value is the balance, and the cash before the first active week plus every recent amount is the balance |
| Loaders.CashDropIff | backend/app/services/insights/cash_drop.py:62-99 | loader and detector together: a drop is found if and only if there are two active weeks, net < 0 and balance <= -3 net, and is critical if and only if also balance <= -net |
| Loaders.LoadVendorHistory | backend/app/services/insights/run_all.py:117-165 | the dictionary of dictionaries holds, for each vendor in order of first occurrence, the exact spend of each month and the ids of the latest |
| Insights.InsightStore.RunAll | backend/app/services/insights/run_all.py:359-432 | the table becomes that of persisting all five generators' candidates; returns exactly the added rows |
| Insights.InsightStore.DedupeAndPersist | backend/app/services/insights/run_all.py:396-432 | the loop with its growing key set adds exactly the candidates whose key the organisation never had, each with its audit |
| Insights.InsightStore.Dismiss | backend/app/api/routers/insights.py:81-105 | found if and only if the row is the organisation's; audits only the first dismissal |
| InsightTheorems.StoreKeepsItsRows | backend/app/services/insights/run_all.py:290-308 | over any runs and dismissals keys stay unique per organisation, no row is lost, a row only ever becomes dismissed, and created-audits match rows one to one |
| InsightTheorems.AtMostOncePerEvidence | backend/app/services/insights/run_all.py:396-403 | with any hash, at most one row per organisation, type and multiset of evidence ids, ever |
| InsightRows.CandidateIsStoredIff | backend/app/services/insights/run_all.py:395-416 | with an injective hash, a candidate becomes a row if and only if its type with its multiset of evidence ids is new to the organisation and to the batch so far |
| InsightReadings.RowsForgetReadingIff | backend/app/services/insights/run_all.py:359-432 | with ids that are primary keys, an injective hash and order-independent runway evidence, a run stores the same rows in whatever order its queries return their rows, if and only if the organisation already has an insight of spikes without ids or all vendors that spike without ids have one severity |
| InsightReadings.StoredRowCanDependOnReading | backend/app/services/insights/run_all.py:156-163 | eight transactions of two vendors and another order of them with which a run stores another row |
| InsightTheorems.CandidatesForgetOrder | backend/app/services/insights/run_all.py:360-393 | all five generators give the same candidates whatever order the loaders read in, if a runway change that is put forward has order-independent evidence |
| InsightTheorems.RerunAddsNothing | backend/app/services/insights/run_all.py:395-432 | under the same condition, a later run on the same facts, read in any order and after any operations in between, adds nothing |
| InsightTheorems.RerunOnStoredForecastAddsNothing | backend/app/api/routers/runway.py:85-118 | the same without a condition, for the forecasts this system stores |
| LateInvoices.RerunAddsNothingIff | backend/app/services/insights/run_all.py:272-287 | for arbitrary facts, a second run adds nothing in whatever order it reads them if and only if that condition holds |
| RunwayOrder.EvidenceIsOrderIndependentIff | backend/app/services/insights/runway_change.py:88-100 | runway evidence is independent of the row order if and only if the cut at three is harmless: of the rows as large as the third, fewer go without an id that one of them carries, and no larger row does, than are taken |
| RunwayOrder.StoredForecastsAreHarmless | backend/app/api/routers/runway.py:69-86 | every forecast the system stores meets this, although all its rows are tied |
| LateInvoices.HarmfulCutAddsAgain | backend/app/services/insights/run_all.py:386-403 | at every harmful cut some other order of the same facts makes a second run add an insight |
| LateInvoices.StoredIffSomeWindowCovers | backend/app/services/insights/late_invoice.py:66-106 | along any chain of an organisation's runs with any windows, and with dismissals, audits and runs of other organisations between them, an invoice unpaid throughout gets its row if and only if some run's window holds its due day |
| LateInvoices.DefaultWindowStoresIff | backend/app/api/routers/insights.py:133 | with the default window, which both callers use, if and only if some run falls on its due day |
| LateInvoices.LateInvoiceIsStoredIff | backend/app/services/insights/late_invoice.py:66-106 | with each run's window from the previous run on, if and only if it came due after the first day and by the last |
| LateInvoices.ExactlyOneRunReports | backend/app/services/insights/late_invoice.py:66-75 | exactly one run of such a chain finds the invoice |
| LateInvoices.DefaultWindowReportsTheDay | backend/app/services/insights/late_invoice.py:66-75 | with the default window an invoice is found if and only if some run falls on its due day |
| Base64Url.UnpaddedRoundTrip | backend/app/services/audit/query.py:79-95 | decoding inverts encoding for every payload, with the padding stripped and restored |
| Base64Url.PadUndoesStrip | backend/app/services/audit/query.py:82-94 | appending `-len mod 4` characters restores exactly the padding stripped, at every length |
| AuditQuery.CursorRoundTrip | backend/app/services/audit/query.py:79-108 | a printed cursor is never empty and reads back as the same position |
| AuditQuery.MatchingIs | backend/app/services/audit/query.py:53-74 | the unlimited answer holds exactly the matching rows, strictly newest first |
| AuditQuery.ScanReturnsEveryRowOnce | backend/app/api/routers/audit.py:69-77 | following cursors to the end while rows are inserted returns a strictly descending sequence, only matching rows, and every matching row present from the start |
| AuditQuery.InsertedRowIsSeenIffAhead | backend/app/services/audit/query.py:122-128 | a row inserted between two requests is returned if and only if it is older than the last row returned |
| AuditQuery.PagedEqualsUnpaged | backend/app/services/audit/query.py:111-128 | on a fixed table the pages concatenate to the unpaged answer |
| AuditQuery.IterAuditRows | backend/app/services/audit/query.py:133-176 | the export loop ends and yields all matching rows when the chunk size is within the limit, and the first 200 otherwise |
| AuditQuery.ExportIsCompleteIff | backend/app/services/audit/query.py:138-174 | the export is complete if and only if no chunk is cut by the clamp, which the default size does not ensure |
| EventSeq.SeqOrder | backend/app/services/events/publisher.py:29-36 | for millis below 10^15 and counters below 10^9 the strings compare as the pairs do, and are equal only for equal pairs |
| EventSeq.CounterOverflowBreaksOrder | backend/app/services/events/publisher.py:32-36 | a ten-digit counter sorts before a nine-digit one if and only if its first nine digits are smaller: the bound is needed |
| EventReplay.Publisher.PublishEvent | backend/app/services/events/publisher.py:39-66 | the row is added before the message is sent and stays when sending fails; with a non-decreasing clock its sequence string is above all earlier ones |
| EventReplay.PageThrough | backend/app/api/routers/events.py:43-57 | paging by the last sequence string received returns all rows after the starting cursor |
| EventReplay.PagingIsComplete | backend/app/api/routers/events.py:49-57 | those rows are strictly ascending and hold each wanted row exactly as often as the table |
| EventClient.RealtimeClient.AfterReplay | frontend/lib/realtime/index.ts:99-121 | the loop dispatches every replayed row and moves the cursor; a failed replay is ignored and the stream opens |
| EventClient.AlwaysSound | frontend/lib/realtime/index.ts:50-123 | over every history of connects, answers, messages, errors, timeouts and disconnects, the cursor of the next replay is the last sequence string dispatched, the stream opens without a replay only if none was, and at most one reconnect is pending |
| EventClient.SilentAfterDisconnect | frontend/lib/realtime/index.ts:76-83 | after a disconnect no stream is open, no timeout is pending, and nothing that the stream or the window does dispatches or reconnects |
| EventDisconnect.DisconnectLastsIff | frontend/lib/realtime/index.ts:50-83 | after any run, a disconnect keeps the stream closed and dispatches nothing whatever happens without another call of connect, if and only if no connect is waiting for its replay; otherwise the stream can open again |
| EventDisconnect.DisconnectCanFail | frontend/lib/realtime/index.ts:50-59 | a run that reaches a waiting connect and survives the disconnect |
| EventClient.DispatchAllIs | frontend/lib/realtime/index.ts:109-117 | replayed rows extend the dispatch log in order and leave the cursor at the last of them |
| EventTheorems.DispatchedInOrder | frontend/lib/realtime/index.ts:50-123 | over every schedule the dispatched sequence strings strictly increase, and every dispatched event was published to the client's organisation |
| EventTheorems.CompleteFromFirstSeen | frontend/lib/realtime/index.ts:50-123 | under the stated conditions the log is at all times a stretch of the organisation's outbox from the first event seen, and all of the rest once the stream is drained |
| EventTheorems.AnswerClosesGapIff | backend/app/api/routers/events.py:53-57 | a replay's answer is everything missed if and only if all of it has committed and it is at most 500 rows |
| EventTheorems.SkippedIsLost | frontend/lib/realtime/index.ts:60-64 | an event overtaken by a later one is never dispatched, whatever happens next |
| EventReconnect.ReconnectIsGaplessIff | frontend/lib/realtime/index.ts:50-68 | for one reconnect, from the replay request to the first live event and with anything published and committed in between, the log stays a stretch of the organisation's events if and only if at the answer everything missed had committed and was at most one page, nothing was published from the answer to the subscription, and nothing after it bypassed the channel |
| EventReconnect.MissedAreLost | frontend/lib/realtime/index.ts:50-68 | every event published in such a gap is never dispatched, whatever happens next |
| EventReconnect.GapsAreForever | frontend/lib/realtime/index.ts:60-64 | a log that is no stretch of the organisation's events never becomes one again |
| EventGaps.RunIsGaplessIff | frontend/lib/realtime/index.ts:50-123 | over every schedule, with any number of reconnects and failed replays, the log is a stretch of the organisation's events if and only if every action that dispatches hands out the events that come next after the cursor |
| EventGaps.FailedReplayIsGaplessIff | frontend/lib/realtime/index.ts:99-122 | a reconnect whose replay fails loses nothing if and only if nothing was due when it failed and nothing was published before the first live event without being heard |
| EventTheorems.RequestIsReachable | frontend/lib/realtime/index.ts:50-54 | runs do reach such a replay request |
| Import.ImportSession.ImportTransactions | backend/app/tasks/jobs.py:139-223 | the loop with its pending rows, `continue`, counters and chunked flushes computes the step function `After` and its report |
| ImportTheorems.ReportsCountStoredRows | backend/app/tasks/jobs.py:195-206 | every progress report is made with nothing pending: as many rows as it says were imported are stored by then |
| ImportTheorems.EveryRowIsAccountedFor | backend/app/tasks/jobs.py:139-194 | at every point imported + skipped + row errors equals the rows processed, and the table has grown by the rows imported |
| ImportTheorems.ReimportInsertsNothing | backend/app/tasks/jobs.py:159-168 | after any import and any further imports, importing all or some of its rows again in any order inserts nothing |
| ImportTheorems.ReimportSkipsRowsStoredOnce | backend/app/tasks/jobs.py:159-194 | on importing again, rows stored once are skipped and all others are errors |
| ImportTheorems.StoresNothingTwiceIff | backend/app/tasks/jobs.py:151-206 | no hash is stored twice if and only if none was before and each repetition of a new row follows a chunk end at a row that is not skipped |
| ImportTheorems.SmallBatchStoresNothingTwiceIff | backend/app/tasks/jobs.py:151 | for at most twenty rows: if and only if new rows do not repeat |
| ImportTheorems.SameHashIff | backend/app/tasks/jobs.py:160 | with an injective digest, two rows share a hash if and only if they have the same date and their descriptions followed by their amounts read the same |
| ImportTheorems.DifferentRowsShareAHash | backend/app/tasks/jobs.py:160 | so moving a character from the description to the amount keeps the hash |
| ImportTheorems.CurrencyIsNotHashed | backend/app/tasks/jobs.py:159-168 | and of two rows that differ in currency or merchant only, imported in two batches, the second is never stored |
| ImportTheorems.LookAlikeIsSkippedIff | backend/app/tasks/jobs.py:159-168 | of two new transactions in two batches the second is stored if and only if they do not share a hash |
| ImportTheorems.ProgressAdvances | backend/app/tasks/jobs.py:195-206 | progress reports carry strictly increasing counts, at most the rows processed |
| ImportTheorems.ReportCount | backend/app/tasks/jobs.py:147-151 | beyond twenty rows there are at most 39 reports, and exactly 20 + ceil((n mod 20) / (n div 20)) if no row is skipped |
| ImportTheorems.SkippedIff | backend/app/tasks/jobs.py:159-168 | told from the table and the rows alone: a row is skipped if and only if the table holds its hash once, or not at all and at some flush before it exactly one row had had that hash |
| ImportTheorems.LastReportIff | backend/app/tasks/jobs.py:195-197 | the report of completion is made if and only if the last row is not so skipped |
| ImportTheorems.SmallBatchLastReportIff | backend/app/tasks/jobs.py:151 | for at most twenty rows: unless the table holds the last row exactly once |
| Fx.GetRateIff | backend/app/services/fx/rates.py:42-72 | the lookup finds exactly the rate of the latest row on or before the date, and is missing exactly if there is none |
| Fx.NewestIsLatest | backend/app/services/ingestion/fx_attach.py:33-100 | sorting the usable rows and taking the first finds what scanning for the largest date finds |
| Fx.AttachesAgree | backend/app/services/ingestion/fx_attach.py:33-100 | the async and the sync lookup, written as these two separate scans, agree on every table |
| FxIngest.RateSession.UpsertRates | backend/app/services/fx/ingest.py:40-74 | the loop over found and pending rows and the final flush compute `Flush` of `UpsertAll` |
| FxIngest.RejectedIff | backend/app/models/fx_rate.py:43-50 | a batch is refused if and only if it gives a new key more than once |
| FxIngest.TableIsOverridden | backend/app/services/fx/ingest.py:48-73 | an accepted batch leaves the old table overridden by its rows, the last row of a key winning |
| FxIngest.CountsForDistinctKeys | backend/app/services/fx/ingest.py:46-74 | with distinct keys, inserted counts the new ones and updated those stored with another rate |
| FxIngest.AgainChangesNothing | backend/app/services/fx/ingest.py:3-7 | loading an accepted batch again inserts nothing and changes no rate, and reports no update if and only if no key carries two rates and every rate fits the column |
| FxIngest.LoadedRowChangesItsStretch | backend/app/services/fx/rates.py:57-68 | a loaded row changes lookups for its pair only, from its date up to the pair's next stored date |

## Left out

- CompleteFromFirstSeen: its conditions on publishers and replays suffice. The exact condition of a whole run is
  `EventGaps.RunIsGaplessIff`, on what each action dispatches; back to publication it is traced for one reconnect.
- Statements of one request are atomic, and the locks a foreign-key check takes in PostgreSQL are not modelled, so
  schedules are allowed that the database would delay; every guarantee covers those too.
- The concurrent machine keeps a transaction's own writes in its program counter, not in shared rows; updates in
  place appear in the handler classes, which run alone.
- Which organisation a request acts on is a parameter; the choice of a user's first membership is not modelled.
- Tokens, ids and hashes: generated values are parameters that are fresh when generated; SHA-256 is a parameter,
  assumed injective only where a lemma says so; bcrypt and JWT are not part of this model.
- Lower-casing covers ASCII letters, stripping covers ASCII white space; other characters are left as they are.
- A reset marks invalidated tokens with the time it started, not with a second reading of the clock.
- `delete_org_data` and other purges, notifications, and publishing through the best-effort queue.
- Titles, bodies and links of insights; only type, severity and evidence are kept.
- Money is exact (`real`); the 28-digit decimal context is not modelled. Months are a function of the day, given.
- Orchestrator runs of one organisation that overlap: the code gives no uniqueness there, so runs are sequential.
- The health score, funding score, lateness and runway computations, which are single formulas.
- JSON and ISO date text in the cursor are one given codec whose reading undoes its writing; row ids are numbers.
- `extra` filters and the `limit` bounds of the audit router, which are checked before the modelled code.
- Events: one publisher process, `publish_event` calls that do not overlap, a clock that does not go back, and no
  `connect` that starts while another waits for its replay. The code orders nothing without these.
- The client's handler registry and token; a dispatch is recorded, what handlers do with it is not, so
  neither is a handler that throws, which ends a replay early. Rendering on a
  server without a `window` and malformed messages, which change nothing, are left out.
- The server's keepalives and the time the reconnect timer takes.
- A flush or commit that fails during an import, as for a row without a date, and the Redis half of its reports.
- The invoice import, which shares the loop; parsing of CSV text.
- Rates too large for their column.
