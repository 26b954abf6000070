# Verified model of the backend core

This project models the stateful core of an Express/Prisma backend and proves what its protocols,
ledgers and reports promise. Database tables are maps, a transaction or a conditional update is one
atomic step, times are integer milliseconds, hours and money are integer hundredths, and the
distance between two positions is a parameter. Where the code updates rows or variables in place
the model has a class or a loop method, proved equal to a transition function or definition; the
results over whole runs are lemmas about those functions.

| file | what it models |
|---|---|
| TokenRotation.dfy | refresh-token rotation by concurrent requests, device sessions, logout |
| LaborLedger.dfy, LaborViews.dfy | labor hours, payments and their audit log; payment filters; the read projection and the KPI totals |
| MessagePaging.dfy, ReadMarks.dfy | keyset pagination of messages with an anchor window; the read-up-to-boundary protocol |
| AppealStatus.dfy | the status machine of an appeal and the SLA calculator fed by its history |
| InvoiceDelivery.dfy, DeliverySafety.dfy | delivery of an invoice by concurrent calls under leases; what it guarantees and exactly when |
| InvoiceQueue.dfy, Executor.dfy | mirroring of the 1C queue, the shared-cursor executor |
| Identity.dfy | resolving and linking Telegram and MAX accounts |
| Tracking.dfy, RoutePoints.dfy, Stops.dfy, RouteSummary.dfy | tracking sessions and point upload, stop detection, route summaries and daily statistics |
| StockTree.dfy | the two-level stock tree, the per-node endpoint, paging |
| Roles.dfy | role inheritance and permissions |
| Options.dfy, Sequences.dfy, Numbers.dfy | optional values, lists without repeats, minimum and maximum |

`dafny verify dfyconfig.toml` checks the whole project.

## Where the code does not do what one would expect

Each of these is proved, together with the exact condition under which it happens and an input or a
run that reaches it.

- A labor request that names one assignee twice can store hours the audit log denies
  (`RepeatedAssigneeBreaksTheLog`, `UpsertIsFaithful`) or fail half-way
  (`ClearedTwiceCrashes`, `UpsertCrashIff`).
- Two sign-ins with the same phone depend on their order when they contend for a free phone
  (`CommutesUnlessContended`, `ContentionHappens`).
- Two invoices are active at once after a re-reported displaced token (`ReportedAgain`), after the
  closing write of a call whose row was superseded (`ClosedAfterSupersession`), or after a failing
  acknowledgement of an invoice that was SENT when the next one arrived (`AckFailsAfterSent`); the
  exact condition is in `StepBreaksOnlyByReviving` and `UniqueIffNoneRevives`.
- A document or a note can go out twice exactly when a claim succeeds while another call may still send
  it, or a call is cut off between an acceptance and its record (`FairnessIsExact`, `ClaimIsFairIff`).
  A claim succeeds then once the lease has run out, as during a slow PDF generation
  (`SlowGeneration`, `SlowGenerationSendsTwice`, `LeaseDecides`), or after a late failing
  acknowledgement (`LateAckOverlaps`); `RecordCanBeLost` reaches the cut.
- A SENT delivery row is overwritten by a call that looked at it before (`ReopensIff`,
  `SentIsOverwritten`).
- Child pages do not tile the list when the limit is above 200 and there are more children than that,
  or when the last page begins beyond offset 5000; on long lists paging then never ends
  (`PagesTileIff`, `ClampsLoseChildren`, `ClampedPagesNeverEnd`).
- An upload can leave a completed route with a point after its end (`UploadCoversIff`,
  `CoveredIffNoneUncovers`, `LatePointHappens`).
- The walk over roles by name stops at an empty name, the walk by id does not (`WalksAgreeIff`,
  `EmptyNameSplitsTheWalks`).
- The has-more flag against the paging direction is wrong when nothing live is left on that side of
  the cursor (`ForwardPage`, `BackwardPage`, `DeletedCursorMisleads`).

## Assumptions

- TokenRotation: a failed transaction leaves no visible write and is no event; ids are handed out in
  creation order; a raw token and its hash stand for the row id. Session revocation by other routes
  is an environment event.
- DeliverySafety: `FairOn` asks, for one message, that no claim that may send it succeeds while another
  call may still send it, and that no call is cut off between its acceptance and its record;
  `FairnessIsExact` proves that nothing less will do. `Fair` asks the same of whole calls, and `Timely`
  states what leases ask of concurrent callers. `ReopensIff` and `NotesAlwaysFollow` assume nothing. A
  send that is accepted without the service learning of it is a send followed by a lost record.
- InvoiceQueue: `Ordered` states that a round finishes its sync before it processes and that 1C reports
  a token with a newer sibling only to withdraw it. The order service also syncs and processes outside
  the rounds (src/modules/clientOrders/clientOrderInvoices.service.ts); the exact step and run
  results need neither assumption.
- AppealStatus: each request is atomic and the clock does not run backwards.
- Identity: each resolve or link call is atomic.
- MessagePaging: rows have distinct (createdAt, id) keys; the ISO text of a time contains no bar and
  parses back to that time.
- Roles: parents exist and ids count from one, as the database enforces.

## Model

| member | source | states |
|---|---|---|
| `TokenRotation.RotationIsSafe` | src/routes/auth.ts:2310-2430 | after every interleaving of logins, refreshes (each split into lookup, recheck, claim, create, link), logouts and session revocations: at most one live token per family, one successor per token and one predecessor per successor however many requests present it, replacement links within one user and family and only on revoked tokens, device sessions owned by the token's user |
| `TokenRotation.RevocationIsFinal` | src/routes/auth.ts:2387-2421 | whatever follows any prefix of a run, a revoked token stays revoked, and no row changes its user, family, session or existing link |
| `TokenRotation.LinksAreAcyclic` | src/routes/auth.ts:2415-2420 | following replacedBy any positive number of steps never returns to the token it started from |
| `TokenRotation.FamilyIsOneChain` | src/routes/auth.ts:2397-2421 | whenever no rotation stands between create and link, any two tokens of a family lead to the same last token, and every other token of the family is revoked |
| `TokenRotation.RunKeepsInv` | src/routes/auth.ts:2310-2430 | the inductive invariant behind these results (chain tail, taker, successor and predecessor of every token) holds in every reachable state, and rows only grow |
| `TokenRotation.RefreshSucceedsIff` | src/routes/auth.ts:2310-2421 | after any run, an undisturbed refresh replaces its token if and only if the token is stored, live and unexpired at lookup, recheck and claim, and well signed: the request ends linked to a new live token of the same user and family with a full lifetime and the right session, the old one is revoked, stamped and linked, nothing else changes; otherwise no token changes |
| `TokenRotation.ClaimedRequestsFinish` | src/routes/auth.ts:2397-2421 | a request that has claimed its token replaces it whenever its last two statements run, whatever all other requests do before and in between |
| `TokenRotation.TakenWhileLive` | src/routes/auth.ts:2388-2413 | the converse over every interleaving: a request that took its token, up to linking a successor, claimed it at a moment when it was live and unexpired |
| `TokenRotation.AnswersAreExact` | src/routes/auth.ts:2330-2361 | after any run each answer to a presented token has its exact condition; for one minute after its use a token reads as already rotated, later as revoked |
| `TokenRotation.LogoutLocksOut` | src/routes/auth.ts:2499-2510 | logging out revokes one's own token for every continuation and touches nothing else; somebody else's token stays as it is |
| `TokenRotation.LoginStores` | src/services/authRefreshTokenService.ts:36-128 | after any run a login stores one new live token with a family of its own, in the session the device names, else in the newest of its install, else in a new one |
| `TokenRotation.RevokedSessionIsDead` | src/services/authRefreshTokenService.ts:36-101 | revoking a session changes that session only; over every continuation it stays revoked and no new token belongs to it |
| `TokenRotation.Inspect` | src/routes/auth.ts:2312-2356 | the first answer lets a request proceed only for a stored, unrevoked, unexpired token |
| `TokenRotation.NewestFor` | src/services/authRefreshTokenService.ts:70-77 | the session chosen by install id is the user's newest unrevoked one for that install, or there is none |
| `TokenRotation.TokenStore.EnsureDeviceSession` | src/services/authRefreshTokenService.ts:36-101 | reuses the named usable session (taking over the reported install id), else the newest of the install, else creates one; equals the transition function |
| `TokenRotation.TokenStore.PersistToken` | src/services/authRefreshTokenService.ts:103-128 | stores a live token with its session; a missing family id starts a new family |
| `TokenRotation.TokenStore.Present` | src/routes/auth.ts:2312-2386 | the lookup answers in the route's order (unknown, rotating, revoked, expired, bad signature) and opens a request otherwise |
| `TokenRotation.TokenStore.Recheck` | src/routes/auth.ts:2388-2395 | inside the transaction a revoked or expired row refuses the request |
| `TokenRotation.TokenStore.Claim` | src/routes/auth.ts:2397-2413 | the conditional update hits one row exactly when the row is live and unexpired at that moment |
| `TokenRotation.TokenStore.CreateSuccessor` | src/routes/auth.ts:2415-2415 | the successor gets the same user and family |
| `TokenRotation.TokenStore.LinkSuccessor` | src/routes/auth.ts:2416-2419 | the claimed token is linked to the successor just created |
| `TokenRotation.TokenStore.LogOut` | src/routes/auth.ts:2499-2510 | revokes the user's own token only |
| `LaborLedger.RunKeepsLedger` | src/routes/appeals.ts:2608-2845 | after any run of labor requests with distinct assignees and of mark-paid calls: paid <= accrued, stored status is the derived one, paidAt and paidBy are set exactly on PAID entries, and replaying the audit log rebuilds (hours, paid, status) of every assignee, absent meaning (0, 0, UNPAID) |
| `LaborLedger.RunKeepsEntries` | src/routes/appeals.ts:2641-2845 | the entry part of that invariant holds after every run, repeated assignees included |
| `LaborLedger.UpsertIsFaithful` | src/routes/appeals.ts:2707-2845 | a committed request leaves the audit log exact if and only if, for every assignee, the last item naming it changes the stored values or no item naming it does |
| `LaborLedger.DistinctUpsert` | src/routes/appeals.ts:2606-2845 | with distinct assignees a request never fails half-way, keeps the ledger exact, and is refused exactly when an item names a non-assignee or explicitly pays more than it accrues |
| `LaborLedger.UpsertStores` | src/routes/appeals.ts:2707-2845 | what a committed request stores per item, in terms of its fields: clipped hours, the rate kept or newly in force (personal before department), paid hours given or following from a bare status, the payment stamp kept while PAID; zero hours delete the row and no unnamed row survives |
| `LaborLedger.WaivingStores` | src/routes/appeals.ts:2653-2705 | setting an appeal labor-not-required leaves exactly its assignees and its old entries, all zeroed |
| `LaborLedger.LogIsAChain` | src/routes/appeals.ts:2618-2645 | over every such run each audit row starts from exactly the values that the rows before it leave for its assignee, or from nothing |
| `LaborLedger.SheetsChangeByName` | src/routes/appeals.ts:2539-2893 | an appeal's sheet begins empty, once, and changes only by requests that name it |
| `LaborLedger.RepeatedAssigneeBreaksTheLog` | src/routes/appeals.ts:2708-2771 | a concrete request naming one assignee twice stores 5 hours the log denies |
| `LaborLedger.UpsertCrashIff` | src/routes/appeals.ts:2708-2845 | a request fails half-way on a delete exactly when it names assignees only, asks for labor, and some item deletes a stored row that the last item naming it has deleted already, before any item is refused |
| `LaborLedger.ClearedTwiceCrashes` | src/routes/appeals.ts:2749-2760 | a concrete request that does so: it clears one stored row twice |
| `LaborLedger.RateStaysLocked` | src/routes/appeals.ts:2729-2738 | no event changes the rate of a surviving entry of an appeal that was and stays labor-required |
| `LaborLedger.PayKeepsLedger` | src/routes/appeals.ts:3262-3297 | paying one queued entry in full keeps entries well formed and the log exact |
| `LaborLedger.PayAllTracks` | src/routes/appeals.ts:3260-3298 | a mark-paid call keeps hours, rates, the set of entries and the ledger invariant of every appeal |
| `LaborLedger.PaysExactlyWhatIsDue` | src/routes/appeals.ts:3260-3282 | a mark-paid call pays exactly the listed UNPAID and PARTIAL entries of payable appeals, in full with time and actor, however often they are listed, and leaves every other entry as it was |
| `LaborLedger.PaymentsAreLogged` | src/routes/appeals.ts:3283-3297 | it adds to each log one row per entry paid, with the values before and after, and no other row |
| `LaborLedger.ProcessItems` | src/routes/appeals.ts:2707-2822 | the item loop computes the transition function, including where it stops on an error |
| `LaborLedger.RemoveUnnamed` | src/routes/appeals.ts:2824-2845 | the clean-up loop deletes and audits exactly the listed entries no item named |
| `LaborLedger.WaiveTargets` | src/routes/appeals.ts:2653-2705 | the labor-not-required loop zeroes every assignee and every existing entry |
| `LaborLedger.LaborDesk.UpsertLabor` | src/routes/appeals.ts:2539-2893 | commits the whole request or nothing |
| `LaborLedger.LaborDesk.MarkAllPaid` | src/routes/appeals.ts:3245-3305 | pays each queued pair that is payable and still open and skips the others; the returned count is the number of distinct pairs paid |
| `LaborViews.FiltersPartition` | src/routes/appeals.ts:575-657 | in every reachable ledger each appeal matches exactly one of the filters UNPAID, PAID, NOT_REQUIRED and UNSET |
| `LaborViews.FiltersMean` | src/routes/appeals.ts:575-657 | which one: UNPAID when some entry with a rate has unpaid hours, PAID when there is such an entry and each is paid in full, NOT_REQUIRED when labor is waived or no entry has a rate, UNSET when there is no entry |
| `LaborViews.UnreachableSheetMatchesNothing` | src/routes/appeals.ts:575-657 | outside the reachable states this fails: an unpaid row without hours matches none |
| `LaborViews.ProjectionIsFaithful` | src/routes/appeals.ts:452-514 | a well-formed entry is shown with its stored hours, paid hours, rate, status and payment time; accrued = paid + remaining exactly, each amount is the nearest kopeck to hours times rate, and the parts differ from the whole by one kopeck at most |
| `LaborViews.ReachableEntriesAreShown` | src/routes/appeals.ts:452-514 | the same for every entry of every reachable ledger |
| `LaborViews.AmountsAddUp` | src/routes/appeals.ts:399-406 | rounded amounts of two parts differ from the rounded amount of the whole by at most one kopeck |
| `LaborViews.ColumnsBalance` | src/routes/appeals.ts:3068-3084 | over any rows: payable hours split exactly, each hour is in one column, rubles within n kopecks over n payable rows |
| `LaborViews.HoursMeasure` | src/routes/appeals.ts:3040-3084 | on well-formed rows the columns are all paid hours, the unpaid hours of entries with a rate, and the hours of entries without |
| `LaborViews.MoneyMeasures` | src/routes/appeals.ts:3040-3084 | the money columns are hours times rate, within half a kopeck per row |
| `LaborViews.KpiTotals` | src/routes/appeals.ts:3040-3084 | the KPI loop returns those column sums |
| `MessagePaging.WalksVisitEverything` | src/routes/appeals.ts:4175-4202 | for any limit >= 1 following cursors forward, or backward, visits every live message exactly once in (createdAt, id) order |
| `MessagePaging.WalksEnd` | src/routes/appeals.ts:4175-4202 | both walks come to an end |
| `MessagePaging.ForwardPage` | src/routes/appeals.ts:4175-4202 | a forward page from any cursor, the key of a deleted message included, is the next slice of live messages with exact hasMoreAfter; hasMoreBefore is right exactly when there is no cursor or something live is at or before it |
| `MessagePaging.BackwardPage` | src/routes/appeals.ts:4175-4202 | the same for a backward page |
| `MessagePaging.DeletedCursorMisleads` | src/routes/appeals.ts:4196-4203 | a cursor for which the other has-more flag is wrong: that of a lone message deleted since |
| `MessagePaging.WalksResume` | src/routes/appeals.ts:1147-1170 | a walk resumed from any key visits exactly the live messages after it (before it), once and in order |
| `MessagePaging.BootstrapWindow` | src/routes/appeals.ts:4096-4169 | the bootstrap window is a contiguous slice with exact has-more flags both ways: around the first or last unread message if any, else the end of the list |
| `MessagePaging.WindowExtends` | src/routes/appeals.ts:4096-4210 | walking outward from the window's two end cursors rebuilds the whole list without gap or overlap |
| `MessagePaging.AnchorFound` | src/routes/appeals.ts:4101-4116 | the anchor query returns the first or the last unread message, and nothing only if none is unread |
| `MessagePaging.QuerySound` | src/routes/appeals.ts:1147-1170 | a range query returns exactly the live messages in its range, in order |
| `MessagePaging.CursorRoundTrip` | src/routes/appeals.ts:1126-1145 | decoding an encoded cursor gives back the position |
| `ReadMarks.RunKeepsInv` | src/routes/appeals.ts:5775-5822 | with messages appended in increasing (createdAt, id) order, in every reachable state each user's read set over live messages from others is downward closed |
| `ReadMarks.BulkIsGreatestSingle` | src/routes/appeals.ts:5775-5822 | a bulk read equals the single read of its greatest readable member, and does nothing if it has none |
| `ReadMarks.ReadMovesWatermark` | src/routes/appeals.ts:5924-5948 | every user has a watermark, and reading a message moves it to the later of the two: what is unread is exactly what comes after it |
| `ReadMarks.MarkedAfter` | src/routes/appeals.ts:5800-5821 | which marks a read call adds, and that it adds no others |
| `ReadMarks.AppendIsExact` | src/routes/appeals.ts:5531-5545 | a stored message becomes the last one, live, with an id above all others |
| `ReadMarks.MessageStore.ReadBulk` | src/routes/appeals.ts:5775-5822 | the bulk route's loop over the boundary equals the transition function |
| `ReadMarks.MessageStore.ReadOne` | src/routes/appeals.ts:5924-5948 | the single route equals the transition function |
| `ReadMarks.MessageStore.Boundary` | src/routes/appeals.ts:5794-5798 | the boundary is the greatest readable message by (createdAt, id) |
| `AppealStatus.RunKeepsPath` | src/routes/appeals.ts:4318-4347 | over every run of assign, claim, transfer and status requests the status history is a self-loop-free path from OPEN to the current status, with non-decreasing times from creation to now |
| `AppealStatus.MovesIffEntitled` | src/routes/appeals.ts:5097-5133 | each request moves the status to a given one exactly when it is entitled to: admins and managers anywhere, the creator to COMPLETED or from RESOLVED to IN_PROGRESS, another assignee to RESOLVED; assignment, claim and transfer by their own rules |
| `AppealStatus.EveryChangeHasItsAuthor` | src/routes/appeals.ts:4318-5133 | over every run each recorded change was made by a request entitled to it, from the status the appeal had then and at the time recorded |
| `AppealStatus.ClosingNeedsAuthority` | src/routes/appeals.ts:5101-5110 | without admin or manager status requests no appeal is ever DECLINED, and one is COMPLETED only by its creator |
| `AppealStatus.AssignedIff` | src/routes/appeals.ts:4318-4766 | over every run a user is assigned exactly when some granted assignment or claim put them in and no later assignment or transfer took them out |
| `AppealStatus.AnswersAreExact` | src/routes/appeals.ts:4318-5136 | when each request is done, unchanged, refused or not found; a request not done changes nothing |
| `AppealStatus.SlaOfReachableHistory` | src/routes/appeals.ts:345-381 | on every reachable history the last segment carries the current status, the segments add up to now - createdAt, open and work are the milliseconds really spent OPEN and IN_PROGRESS, and together never exceed the elapsed time |
| `AppealStatus.WaitingTimesAreExact` | src/routes/appeals.ts:367-381 | on every reachable history the first-change times are the waits until the appeal first went to that status, missing exactly when it never did |
| `AppealStatus.SegmentsMeasureTime` | src/routes/appeals.ts:352-366 | summing segments per status equals counting the milliseconds at which the appeal had that status |
| `AppealStatus.SortByTimeSorts` | src/routes/appeals.ts:351-351 | the copy of the history is sorted by time |
| `AppealStatus.SortByTimeKeepsAll` | src/routes/appeals.ts:351-351 | and keeps every change |
| `AppealStatus.CalculateSla` | src/routes/appeals.ts:345-381 | the cursor loop, the two sums and the two first-change lookups equal their definitions, for any history |
| `AppealStatus.AppealRecord.AssignUsers` | src/routes/appeals.ts:4318-4347 | replaces the assignees, moves the status and records the change in one step |
| `AppealStatus.AppealRecord.ClaimAppeal` | src/routes/appeals.ts:4561-4595 | only an employee of the department may claim; the claim adds the user and moves to IN_PROGRESS |
| `AppealStatus.AppealRecord.TransferTo` | src/routes/appeals.ts:4717-4766 | a transfer clears the assignees and reopens; same department and missing department change nothing |
| `AppealStatus.AppealRecord.UpdateStatus` | src/routes/appeals.ts:5083-5136 | who may set which status, the no-op case, and the recorded change |
| `DeliverySafety.FairnessIsExact` | src/services/clientOrderInvoiceWorker.ts:467-620 | for both channels and for document and note, after any fair run: one more event is fair if and only if no fair continuation has the message accepted twice. Fair means that a claim which may send the message does not succeed while another call may still send it, from its own claim on, PDF generation and channels not yet reached included, and that no call is cut off between an acceptance and its record |
| `DeliverySafety.ClaimIsFairIff` | src/services/clientOrderInvoiceWorker.ts:610-620 | for a new call that may send, fair means: the state is not processable, or the lease is not over, or no other call may still send the message |
| `DeliverySafety.SentAtMostOnce` | src/services/clientOrderInvoiceWorker.ts:510-608 | over every interleaving of calls, sync, failures and clock, overlapping calls included: a channel gets a message accepted at most once while every event is fair to it |
| `DeliverySafety.RunKeepsRisk` | src/services/clientOrderInvoiceWorker.ts:510-795 | the inductive invariant behind it: one call at most may still send the message, and the number of acceptances is what the row and that call say |
| `DeliverySafety.OverlapSendsTwice` | src/services/clientOrderInvoiceWorker.ts:510-608 | from any reachable state in which two calls may still send a message, one of them not having looked at its row yet, a run makes the channel get it twice |
| `DeliverySafety.LostRecordSendsTwice` | src/services/clientOrderInvoiceWorker.ts:551-607 | a call cut off between acceptance and record, by a stopping process, an exception or a failing write: a fair run follows in which the message goes out again |
| `DeliverySafety.SlowGenerationSendsTwice` | src/services/clientOrderInvoiceWorker.ts:467-501 | a reached instance for either channel: a second call claimed at the end of the lease, while the first still generates the PDF, makes document and note go out twice |
| `DeliverySafety.SlowGeneration` | src/services/clientOrderInvoiceWorker.ts:610-654 | during PDF generation a second claim is unfair exactly from the end of the lease on |
| `DeliverySafety.LeaseDecides` | src/services/clientOrderInvoiceWorker.ts:540-620 | at every statement of a lone call: a second claim is fair to the document exactly before the end of the lease or once the document is recorded |
| `DeliverySafety.LateAckOverlaps` | src/services/clientOrderInvoiceWorker.ts:654-673 | an unfair claim without any lease outlived: the failing acknowledgement of an earlier call clears the lease of a later one |
| `DeliverySafety.RecordCanBeLost` | src/services/clientOrderInvoiceWorker.ts:551-577 | each of the three ways to lose the record is reached |
| `DeliverySafety.DeliveredAtMostOnce` | src/services/clientOrderInvoiceWorker.ts:510-608 | whatever fails and however long a call takes: as long as no claim succeeds while another call works and accepted sends get recorded, each channel gets the document at most once and the note at most once, and at most one call works |
| `DeliverySafety.NotesAlwaysFollow` | src/services/clientOrderInvoiceWorker.ts:551-597 | in every run whatsoever a note goes out only after its document |
| `DeliverySafety.LeaseKeepsCallsApart` | src/services/clientOrderInvoiceWorker.ts:610-620 | while calls respect their leases no successful claim overlaps a working call, in any interleaving |
| `DeliverySafety.TimelyDelivery` | src/services/clientOrderInvoiceWorker.ts:510-620 | so concurrent callers that respect their leases deliver each message at most once |
| `DeliverySafety.ReopensIff` | src/services/clientOrderInvoiceWorker.ts:526-607 | in any state, the exact events that make a SENT delivery not SENT: a call that looked before it was SENT marks it, fails to send, or fails to record |
| `DeliverySafety.SentIsFinal` | src/services/clientOrderInvoiceWorker.ts:510-608 | over every run that is fair to the note, overlapping calls included, a SENT delivery never changes |
| `DeliverySafety.SentIsOverwritten` | src/services/clientOrderInvoiceWorker.ts:543-546 | a run in which one is overwritten: a call looks, outlives its lease while another delivers, and goes on |
| `DeliverySafety.VerdictIsExact` | src/services/clientOrderInvoiceWorker.ts:736-747 | SENT exactly when all eligible channels have the invoice and at least one channel does, PARTIAL exactly when some but not all eligible ones have it, ERROR otherwise |
| `DeliverySafety.DeliversToAll` | src/services/clientOrderInvoiceWorker.ts:654-767 | in any state a call that nothing disturbs, with its sends accepted and its channels due, sends exactly what the channels it may reach miss, delivers to all of them and ends SENT |
| `DeliverySafety.InvoiceIsExact` | src/services/clientOrderInvoiceWorker.ts:214-795 | what every event writes to the invoice row, from any state: its state, a lease of two minutes and an attempt by a claim, no lease by any other write but a plain report; all other events leave it alone |
| `DeliverySafety.RunKeepsInv` | src/services/clientOrderInvoiceWorker.ts:510-795 | the inductive invariant of calls that do not overlap: one works at most, and its results say which channels have the invoice |
| `InvoiceDelivery.StatementActs` | src/services/clientOrderInvoiceWorker.ts:520-607 | every statement of deliverChannel, failing record writes included, changes only its own call, its channel's row and the outbox, as the table of effects says |
| `InvoiceDelivery.SendOutAmounts` | src/services/clientOrderInvoiceWorker.ts:540-608 | what the sending half of deliverChannel leaves behind in each combination of outcomes |
| `InvoiceDelivery.InvoiceStore.ClaimInvoice` | src/services/clientOrderInvoiceWorker.ts:610-620 | the conditional update wins exactly on a processable row whose lease is free |
| `InvoiceDelivery.InvoiceStore.SendMessages` | src/services/clientOrderInvoiceWorker.ts:540-608 | PDF unless already sent, then the note, each acceptance recorded; equals the statement sequence |
| `InvoiceDelivery.InvoiceStore.LookAtChannel` | src/services/clientOrderInvoiceWorker.ts:520-536 | already sent, not eligible or not due: the row and result each leaves; otherwise ready to send |
| `InvoiceDelivery.InvoiceStore.DeliverChannel` | src/services/clientOrderInvoiceWorker.ts:510-608 | looked away, validation throwing, candidate withdrawn, or sent: equals the statement sequence |
| `InvoiceDelivery.InvoiceStore.WriteVerdict` | src/services/clientOrderInvoiceWorker.ts:736-767 | the counting loop writes the verdict and clears the lease |
| `InvoiceQueue.AtMostOneActive` | src/services/clientOrderInvoiceWorker.ts:214-318 | over every run of rounds (sync before processing; each claim, closing write and failing call or acknowledgement its own event) in which 1C re-reports an older token only to withdraw it, each (order, realization) has at most one active invoice |
| `InvoiceQueue.StateMovesIff` | src/services/clientOrderInvoiceWorker.ts:214-318 | from any state, the exact events that move a row to a given state: reports, supersession, take-up, closing write, failing call, withdrawal |
| `InvoiceQueue.KnownTokenIsMirrored` | src/services/clientOrderInvoiceWorker.ts:280-316 | a report of a known token: a withdrawal cancels, a SENT row or one under a running lease keeps everything else out, any other row takes the reported state (READY is QUEUED, STORED is AVAILABLE) |
| `InvoiceQueue.NewTokenIsMirrored` | src/services/clientOrderInvoiceWorker.ts:243-279 | a new token gets its row and every active row of the same realization is superseded; items that do not count change nothing |
| `InvoiceQueue.ReadyIsTakenUp` | src/services/clientOrderInvoiceWorker.ts:301-314 | after a READY report the next call wins the row as soon as no lease is running, unless it was SENT |
| `InvoiceQueue.WithdrawnStaysOut` | src/services/clientOrderInvoiceWorker.ts:294-300 | a row withdrawn while no call works on it stays CANCELLED and is never taken up over every run, until the token is reported alive again |
| `InvoiceQueue.TakeUpWinsIff` | src/services/clientOrderInvoiceWorker.ts:610-620 | a new call wins a row exactly when it is processable and its lease free |
| `InvoiceQueue.LeasesAreExact` | src/services/clientOrderInvoiceWorker.ts:243-318 | what sets a lease, what clears it, and that nothing else does |
| `InvoiceQueue.CallsAreExact` | src/services/clientOrderInvoiceWorker.ts:610-795 | how a call begins, closes its row once, and ends |
| `InvoiceQueue.SameKeyIff` | src/services/clientOrderInvoiceWorker.ts:340-340 | two items share a key exactly when order and realization are equal up to case |
| `InvoiceQueue.StepBreaksOnlyByReviving` | src/services/clientOrderInvoiceWorker.ts:260-318 | with no assumption on 1C or on overlapping sync and processing: from any state with unique active invoices one event breaks uniqueness exactly when it makes an inactive row active beside an active sibling |
| `InvoiceQueue.UniqueIffNoneRevives` | src/services/clientOrderInvoiceWorker.ts:755-787 | from the empty queue uniqueness holds at every prefix of a run exactly when no step does that |
| `InvoiceQueue.ReportedAgain` | src/services/clientOrderInvoiceWorker.ts:301-314 | it happens: 1C reports a, then b, then a again |
| `InvoiceQueue.ClosedAfterSupersession` | src/services/clientOrderInvoiceWorker.ts:755-767 | it happens: the unconditional closing write of a call whose row was superseded meanwhile |
| `InvoiceQueue.AckFailsAfterSent` | src/services/clientOrderInvoiceWorker.ts:772-787 | it happens: a is SENT, b arrives, then the acknowledgement of a fails and its handler makes a active again |
| `InvoiceQueue.RunKeepsInv` | src/services/clientOrderInvoiceWorker.ts:214-318 | the inductive invariant: an active row, and a row under processing, is the newest of its key |
| `InvoiceQueue.LatestByRealization` | src/services/clientOrderInvoiceWorker.ts:338-349 | the per-response map has exactly the keys of the response, each with the last item that is maximal by (updatedAt, version) |
| `InvoiceQueue.QueueStore.SyncQueueItem` | src/services/clientOrderInvoiceWorker.ts:214-318 | ignored items, new tokens with supersession, and the update rules for known tokens equal the transition function |
| `Executor.ExecutorIsExact` | src/services/clientOrderInvoiceWorker.ts:197-212 | for every order in which tasks settle: items start in order and once each, in flight is exactly min(workers, unfinished) with workers = min(max(1, c), n), done exactly when all settled, throws exactly when some task failed and then the earliest error |
| `Executor.RunKeepsInv` | src/services/clientOrderInvoiceWorker.ts:197-212 | no item is lost or taken twice in any reachable state |
| `Executor.SharedRun.constructor` | src/services/clientOrderInvoiceWorker.ts:198-211 | starts the workers on the first items |
| `Executor.SharedRun.TakeNext` | src/services/clientOrderInvoiceWorker.ts:202-206 | an idle worker takes the item at the shared cursor, if any |
| `Executor.SharedRun.OnSettled` | src/services/clientOrderInvoiceWorker.ts:205-209 | a settled task records its error and frees its worker for the next item |
| `Identity.RunKeepsUnique` | src/routes/auth.ts:251-459 | over every run of registrations, Telegram and MAX resolutions and link requests phone, telegramId and maxId each stay unique |
| `Identity.CommutesUnlessContended` | src/routes/auth.ts:251-459 | resolving a Telegram and a MAX session with the same phone gives the same answers and the same users table in both orders if and only if they do not contend for a free phone (phone free, ids not on one account, at least one on an account, no account involved has a phone) |
| `Identity.UnlinkedIdsCommute` | src/routes/auth.ts:251-459 | in particular whenever neither id is linked yet |
| `Identity.ContentionHappens` | src/routes/auth.ts:902-910 | a run that reaches contention: register by e-mail, link Telegram, then sign in both ways with a free phone |
| `Identity.ResolveIsIdempotent` | src/routes/auth.ts:251-459 | resolving twice changes nothing more and answers the same |
| `Identity.OutcomeIsExact` | src/routes/auth.ts:251-355 | READY names the one account holding the id afterwards; NEED_PHONE and NEED_LINK change nothing and are given exactly when the id is free and the phone is missing, or its owner is linked elsewhere |
| `Identity.ReadyIsExact` | src/routes/auth.ts:251-355 | what READY leaves behind: the holder of the id takes the name and, if free and missing, the phone; else the phone owner is linked and becomes HYBRID; else a new account of that provider; nobody else changes |
| `Identity.LinkIsExact` | src/routes/auth.ts:1285-1320 | linking writes id, name and HYBRID to an existing user unless somebody else holds the id |
| `Identity.ResolveNeverSteals` | src/routes/auth.ts:251-355 | a resolve call never takes a phone, telegramId or maxId from the account that has it |
| `Identity.UserStore.ResolveTelegram` | src/routes/auth.ts:251-355 | the Telegram branch structure equals the common definition |
| `Identity.UserStore.ResolveMax` | src/routes/auth.ts:357-459 | the MAX copy of the code equals the same definition |
| `Identity.UserStore.LinkMessenger` | src/routes/auth.ts:1285-1320 | a link succeeds exactly when nobody else holds the id and the user exists; the MAX route 1495-1530 is the same |
| `Tracking.TrackingIsSound` | src/routes/tracking.ts:918-1142 | over every run of start, stop and upload: one ACTIVE route per user, startedAt <= every stored point, endedAt >= startedAt once completed, sequence numbers exactly 1..n per route, no clientPointId stored twice for a user |
| `Tracking.SaveKeepsInv` | src/routes/tracking.ts:918-1142 | one upload keeps all that, loses no stored point, and received = created + duplicate + accuracy + jitter |
| `Tracking.FilterIsExact` | src/routes/tracking.ts:985-1020 | kept are, in their order, exactly the points that repeat no id, are accurate to 100 m and are stops or moved from the kept point before (12 m, or 5 m and 12 s, or 90 s); jitter counts exactly the other sound ones |
| `Tracking.UploadStoresExactly` | src/routes/tracking.ts:918-1142 | an upload of 1 to 1000 points goes to the route it should and stores there exactly those points, measured from the last stored one; any other is refused |
| `Tracking.TargetIsExact` | src/routes/tracking.ts:918-945 | the named own route if active or to be ended, else a new one if asked or none is active, else the active one; a new one closes the active one at the first point received |
| `Tracking.UploadLeavesRoutes` | src/routes/tracking.ts:918-1142 | the chosen route ends up completed or active as asked, and every other route stays as it was |
| `Tracking.UploadSetsTimes` | src/routes/tracking.ts:1022-1142 | the chosen route starts at the earliest of its old start and the added points, and ends, if it does now, at the last of them, never before its start |
| `Tracking.StartIsExact` | src/routes/tracking.ts:253-275 | starting answers with the one active route of the user, new only if there was none |
| `Tracking.StopIsExact` | src/routes/tracking.ts:314-372 | which route a stop is about, when it is refused, and that nothing else changes |
| `Tracking.StopCoversPoints` | src/routes/tracking.ts:330-372 | stopping an active route leaves it ending exactly at its last point (or now, if it has none), with all its points between start and end |
| `Tracking.UploadCoversIff` | src/routes/tracking.ts:918-1142 | an upload leaves some completed route with a point after its end exactly when it closes the old route before one of its points, ends its own route before a stored point, or adds a later point to a route that has ended |
| `Tracking.CoveredIffNoneUncovers` | src/routes/tracking.ts:918-1142 | over every run: completed routes end no earlier than their last point at every moment exactly when no upload on the way does one of these; starting and stopping never do |
| `Tracking.LatePointHappens` | src/routes/tracking.ts:918-1142 | a run in which it does |
| `Tracking.FilterCounts` | src/routes/tracking.ts:985-1020 | every received point is kept or counted under exactly one rejection |
| `Tracking.CountersAreExact` | src/routes/tracking.ts:985-998 | a point is counted duplicate exactly when its id is stored or came earlier in the batch, inaccurate exactly when it is not duplicate and its accuracy exceeds 100 |
| `Tracking.FilterKeeps` | src/routes/tracking.ts:985-1020 | kept points are accurate, have new and distinct ids, and are no jitter against the one before unless STOP |
| `Tracking.FilterPoints` | src/routes/tracking.ts:985-1020 | the filter loop equals its definition and has these properties |
| `Tracking.InsertSkipsNothing` | src/routes/tracking.ts:1096-1117 | skipDuplicates never skips a row of a filtered batch |
| `Tracking.TrackingStore.StartTracking` | src/routes/tracking.ts:253-275 | returns the active route or creates one |
| `Tracking.TrackingStore.StopTracking` | src/routes/tracking.ts:314-372 | finds the route, covers its first point, clamps its end |
| `Tracking.TrackingStore.UploadPoints` | src/routes/tracking.ts:918-1142 | chooses the route (closing the old one for a new one), filters, creates or moves back the route, numbers and inserts, ends the route |
| `Tracking.TrackingStore.CompleteRoute` | src/routes/tracking.ts:191-194 | the end is clamped to the start |
| `Tracking.TrackingStore.CoverPoint` | src/routes/tracking.ts:196-206 | the start is moved back to an earlier point and never forward |
| `Stops.DetectStops` | src/routes/tracking.ts:1351-1419 | the one-pass detector returns the stops of its definition |
| `Stops.OneStopPerRun` | src/routes/tracking.ts:1364-1419 | each maximal run of points with gaps <= 30 m and span >= 60 s has its stop, at its place in time order, at the mean position of the run |
| `Stops.OnlyRunsStop` | src/routes/tracking.ts:1364-1419 | each stop in the list is the stop of one such run |
| `Stops.EveryPointInOneRun` | src/routes/tracking.ts:1364-1384 | every point lies in exactly one maximal run |
| `Stops.StopsDoNotOverlap` | src/routes/tracking.ts:1351-1419 | on points in time order the stops' intervals follow one another without overlap |
| `RouteSummary.Summarize` | src/routes/tracking.ts:2062-2117 | exact totals, a maximum speed no segment exceeds and some segment attains, and an average speed never above it |
| `RouteSummary.DurationsAddUp` | src/routes/tracking.ts:2067-2092 | on points in time order moving + stopped equals last minus first time |
| `RouteSummary.DistanceIsBounded` | src/routes/tracking.ts:2074-2099 | the whole distance is at most the bound of the segment speeds times the whole time, although instant segments are skipped |
| `RouteSummary.ByDay` | src/routes/tracking.ts:2231-2269 | the daily map has a day exactly when a counted segment begins on it, with that day's totals and routes |
| `RouteSummary.DailyStats` | src/routes/tracking.ts:2231-2280 | the answer lists those days in order |
| `RouteSummary.DaysEqualRoutes` | src/routes/tracking.ts:2231-2269 | distance, moving and stopped time summed over all days equal the summary's per-route totals summed over all routes of the window |
| `StockTree.BuildTree` | src/routes/stockBalances.ts:418-502 | the tree loop gives every root, and every child under it, exactly the totals, counts and leaves below it, and no other nodes |
| `StockTree.RootIsSumOfChildren` | src/routes/stockBalances.ts:418-502 | each of a root's seven totals is the sum over its leaves and over its children; the children's leaf counts add up to the root's leaves |
| `StockTree.GroupChildren` | src/routes/stockBalances.ts:587-639 | the per-node loop, with its own copy of the arithmetic, gives exactly the children of its root |
| `StockTree.ChildrenAgreeWithTree` | src/routes/stockBalances.ts:567-639 | /children gives for every root the same child totals and leaf counts as /tree, whatever order the rows come in |
| `StockTree.SwitchTransposes` | src/routes/stockBalances.ts:421-446 | switching the hierarchy transposes the cells without changing their totals or counts |
| `StockTree.PagesTileIff` | src/routes/stockBalances.ts:540-541 | pages of any positive limit rebuild a list of different children exactly when the list is empty, or the limit is at most 200 or all fit in 200, and the last page begins at or before offset 5000 |
| `StockTree.PagesTile` | src/routes/stockBalances.ts:641-650 | pages follow one another without gap or overlap while the offset is not clamped and the limit is not cut down for more than one page |
| `StockTree.HasMoreIsExact` | src/routes/stockBalances.ts:641-649 | within the offset clamp hasMore is true exactly before the last page or where the limit clamp has cut the page short |
| `StockTree.ClampedPagesNeverEnd` | src/routes/stockBalances.ts:540-541 | on a list longer than 5000 plus the served page every page from offset 5000 on is the same and claims that there is more |
| `StockTree.ClampsLoseChildren` | src/routes/stockBalances.ts:540-541 | both clamps lose children: 500 in pages of 250, 5201 in pages of 200 |
| `Roles.CollectRoleChain` | src/middleware/auth.ts:135-150 | on every parent graph, cyclic ones included, the walk ends and returns exactly the roles reachable by parent links |
| `Roles.GetRoleHierarchyByName` | src/middleware/auth.ts:90-109 | the same for the walk by name, when names are unique |
| `Roles.WalksAgreeIff` | src/middleware/auth.ts:90-150 | with unique names the two walks agree on every name exactly when no role on the chain has an empty name |
| `Roles.WalksAgree` | src/middleware/auth.ts:90-150 | one name at a time: found by name exactly when a role of that name is found by id |
| `Roles.EmptyNameSplitsTheWalks` | src/middleware/auth.ts:90-150 | a role table on which they differ |
| `Roles.ComputeUserPermissions` | src/middleware/auth.ts:157-196 | the permissions are exactly those granted to a role reachable from the user's own role or a department role; an unknown user has none |
| `Roles.HeldRolesAreLeast` | src/middleware/auth.ts:135-196 | the roles a user holds are the least set with the direct roles and closed under parents |

## Left out

- Request parsing and validation (Zod schemas, dates, phones), authentication middleware, response texts, sockets, push messages and exports: input and output only.
- JWT signing, bcrypt and SHA hashing: the outcome of a signature check is a parameter.
- The trigonometry of the distance formula and floating-point rounding: distances are arbitrary values and arithmetic is exact.
- Concurrent requests inside one status change, one resolve call or one tracking transaction: these are atomic steps; only token rotation, invoice delivery and the executor are interleaved.
- Names, avatars, log lines and timestamps written by account resolution, except the messenger user names.
- Ties between stored points with equal times: the first stored one is taken where the database may return either.
- The CANCELLED route status, which none of the modelled requests writes, and native tracking tokens.
- The order and paging of tree roots and the sort of children by localized name; paging is proved for any list of different children.
- Caches, locks, rate limits, the sync cursor and timers of the worker, retry back-off lengths (retry times are parameters) and the texts of acknowledgements.
- The count of updated rows that the read routes return, and read receipts of deleted messages.
- Creating and deleting accounts by other routes than e-mail registration and sign-in; the account table starts in any state whose three keys are unique.
- Cursor text: MessagePaging parses plain decimal ids only, where JavaScript numbers accept more spellings; every cursor the service hands out is plain.
- Administrator bypass and the any/all modes of the permission check: one-line conditions over the computed permission set.
- LaborLedger.ProcessItems: does not model rounding of requested hours to two places, because hours are hundredths throughout.
- InvoiceDelivery.InvoiceStore.DeliverChannel: runs one channel without interruption; interruptions are covered by the event lemmas, not by this method.
- Tracking.TrackingStore.UploadPoints: does not write the tracking audit rows.
