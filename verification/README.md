# Ivy Ticketing: verified models

Dafny models of the parts of Ivy Ticketing in which several parties work on the same records at once:
the offline scanner and the server it replays to, the transactional ledgers behind a sale, and race
timing. Each module keeps the branches, guards and constants of the code it models, and proves what holds
of every run. Where a promise of the code's own documentation fails, a lemma shows a run in which it
fails, and another states exactly when it holds.

Verify with `dafny verify dfyconfig.toml`.

## What is modelled

**Scanner.** `ScanQueue` says what a sync run means for the queue: a pure map from the queue and one
answer per operation to the next queue, and what follows over any history of runs. `SyncEngine` has the
local store and the engine as classes and proves that the loop of `syncNow` computes that map, for every
listing order. `ScanProtocol` takes the same engine apart at every `await` and adds the network, the
server transactions, the idempotency ledger, other devices and crashes, as one step function;
`ScanInvariant` holds the invariant and `ScanSafety` the theorems over all runs; `ScanRefinement` ties
the step machine back to the pure map. `Base64Url` and `QrToken` cover what a scan must pass before it
is queued.

**Ledgers.** `Checkout` interleaves checkouts under the category lock with payments, sweeps,
cancellations, refunds and claims, with the ACTIVE and the PAID count as separate statements.
`PaymentInbox` is the deduplication of gateway callbacks. `BallotLapse` sets the two-step expirer of
ballot winners against orders and payments, `BallotDraw` is the draw itself. `AccessPool` covers slots
and grants, `Waitlist` positions and promotion, `WebhookDelivery` outgoing deliveries and dispatchers.

**Race timing.** `RaceRanking` has the `RANK()` passes, `ChipMapping` the chip-to-bib log, and
`PassingIngest` deduplicated ingestion and processing rounds.

`Common` holds optional values and a few facts about finite sets.

## Assumptions

- A committed SQL statement, or a transaction that holds its row locks to its end, is one atomic step;
  isolation is READ COMMITTED, so separate statements of one transaction are separate steps wherever
  something else may commit between them.
- New keys and identifiers are fresh. Equal request hashes and equal result digests mean equal contents.
- One sync engine runs per local store. A request can be lost, executed with its answer lost, or executed
  after the scanner gave up on it.
- A run of a step function is any sequence of actions; an action that is not enabled changes nothing.
- JSON parsing is a parameter. HMAC signatures are one more token segment. Times are integers.
- Normalised bibs and chip codes, labels and identifiers are numbers; only their equality matters.
- Ties in `observed_at` are listed in some fixed order; chip mappings do not change between rounds.

## Where the code and its documentation differ

The models follow the code.

- The API transport sends no pickup method (`apps/scanner/src/lib/sync.ts:163-173`), and the server
  requires one before anything else (`services/api/internal/modules/racepack/service.go:276-279`): no
  queued PICKUP ever drains, each one fails with 400. Without a counter its body does not even decode.
- A draw records the shuffled results against the unshuffled listing
  (`services/api/internal/modules/ballot/service.go:268-275`): the recorded winners are the first of the
  listing whatever was drawn, and all recorded digests verify only when every position draws itself.
- A callback's dedupe key is claimed before its transaction
  (`services/api/internal/modules/payments/processor.go:135-150`): when that transaction fails, the
  gateway's retries are dropped as duplicates.
- The pool manager consumes a slot when it creates the grant
  (`services/api/internal/modules/access/pool.go:46-61`), and the priority and code paths never do, each
  in separate statements outside a transaction, so the counters of a pool do not in general count its
  grants by status. `ExpireGrant` carries no guard on the status
  (`services/api/internal/db/access.sql.go:345-347`), so an expiry can release a used slot; its one user,
  `ExpireStaleGrants` (`services/api/internal/modules/access/pool.go:112`), has no caller in the repository.
- A passing that resolves to no bib is never marked, so enough of them starve everything listed after
  them (`services/api/internal/modules/results/timing/processor.go:177-192`).
- A failed grant does not stop a promotion batch (`services/api/internal/modules/waitlist/service.go:97-102`),
  so an entry can be passed over, and its slot stays reserved.
- The marks of a webhook delivery carry no guard (`services/api/internal/db/enterprise.sql.go:393-412`):
  with overlapping dispatchers a delivered row can become pending again.
- A refund frees the place but not the ticket (`services/api/internal/modules/orders/service.go:501-539`).
- A guest checkout reserves its place for the nil user (`services/api/internal/modules/orders/service.go:374-383`),
  which the foreign key of the reservation table refuses
  (`database/migrations/00013_create_inventory_reservations.sql:8`): the transaction rolls back, and
  claiming a guest order never finds one.
- The comment at `services/api/internal/db/results.sql.go:455-458` says that ranks follow the chip time;
  the overall, gender and category passes order by gun time first.
- Assigning a chip is three statements outside a transaction
  (`services/api/internal/modules/results/timing_service.go:318-338`): interleaved replacements can lose one.

## Model

| member | source | states |
|---|---|---|
| ScanQueue.RunAccounting | apps/scanner/src/lib/sync.ts:281-312 | A run lowers the PENDING count by exactly its answers that are not RETAIN and touches no operation that was not PENDING. |
| ScanQueue.PendingAfterRun | apps/scanner/src/lib/sync.ts:294-311 | What is PENDING after a run is exactly what it retained. |
| ScanQueue.SettledOperation | apps/scanner/src/lib/sync.ts:294-311 | An operation leaves the queue exactly when its answer drains it; otherwise it is patched, and only if it was PENDING. |
| ScanQueue.FateIsFirstVerdict | apps/scanner/src/lib/sync.ts:269-319 | Over any history of runs the first answer other than RETAIN decides an operation for good, with the attempts counted up to it. |
| ScanQueue.SettledStaysSettled | apps/scanner/src/lib/sync.ts:282-284 | A FAILED operation never changes and a drained one never returns, whatever later runs answer. |
| ScanQueue.QueueDrainsExactlyWhen | apps/scanner/src/lib/sync.ts:269-319 | The queue is empty of PENDING work after a history exactly when every operation met a verdict in it. |
| ScanQueue.FlagsRecordDrains | apps/scanner/src/lib/sync.ts:366-381 | A cached flag is set after a history exactly when it was before or an operation of its ticket and kind met DRAIN first. |
| SyncEngine.Engine.SyncNow | apps/scanner/src/lib/sync.ts:269-319 | The loop computes the pure map of a run on queue and flags, sends each PENDING operation exactly once, shows the new store, and does nothing while a run is in progress. |
| SyncEngine.Engine.DrainPending | apps/scanner/src/lib/sync.ts:284-312 | The loop over any listing order of the PENDING operations reaches the same queue and flags, one answer per operation. |
| SyncEngine.Engine.ApplyOutcome | apps/scanner/src/lib/sync.ts:294-311 | One outcome drains with its flag set, or patches status, attempts and error. |
| SyncEngine.Engine.MarkProcessed | apps/scanner/src/lib/sync.ts:366-381 | Exactly one flag is added; the other flag of the ticket and every other ticket stay. |
| SyncEngine.Engine.Refresh | apps/scanner/src/lib/sync.ts:251-259 | The badge shows the number of PENDING operations and each FAILED one once. |
| SyncEngine.LocalStore.EnqueueScan | apps/scanner/src/lib/offline-db.ts:357-393 | A scan is rejected, reported as a duplicate of a set flag, or stored once as PENDING with its own ids; nothing is stored otherwise. |
| SyncEngine.LocalStore.UpdateStatus | apps/scanner/src/lib/offline-db.ts:161-180 | Patches the given fields of a stored operation and reports it; a missing one is left missing. |
| SyncEngine.LocalStore.ListOperations | apps/scanner/src/lib/offline-db.ts:140-143 | Every stored operation once, in some order. |
| SyncEngine.LocalStore.RestoreQueue | apps/scanner/src/lib/offline-db.ts:187-190 | Exactly the operations that are not FAILED, each once. |
| SyncEngine.Stages | apps/scanner/src/lib/sync.ts:284-312 | A run over any listing passes, one answered operation at a time, from the queue it found to the queue the pure map gives. |
| ScanProtocol.DrainsExactlyWhen | apps/scanner/src/lib/sync.ts:119-141 | An answer drains exactly when it is a success or one of the two resolved duplicates. |
| ScanProtocol.DecodedMethodIsNormal | services/api/internal/modules/racepack/dto.go:139 | The method is trimmed and upper-cased on decoding; the service's own normalisation then changes nothing, so what it accepts is what it inserts. |
| ScanRefinement.RunSettlesAll | apps/scanner/src/lib/sync.ts:281-312 | Whatever is scanned and whatever the network and the server do meanwhile, a run of the step machine between its listing and its end gives each PENDING operation one result and reaches exactly the queue and the flags of the pure map on those results, together with the scans stored meanwhile as they came. |
| ScanInvariant.RunKeepsInv | apps/scanner/src/lib/sync.ts:269-319 | Every action keeps the joint invariant of device, network and server. |
| ScanInvariant.ExecuteIsSound | services/api/internal/modules/scanner/service.go:353-440 | A server transaction undoes nothing, takes effect at most once per ticket, and reports success only when the effect is on the books. |
| ScanInvariant.RememberKeepsInv | services/api/internal/modules/scanner/handler.go:233-237 | The first-write-wins idempotency row only ever replays what was accomplished. |
| ScanInvariant.LookupKeepsInv | services/api/internal/modules/scanner/handler.go:186-206 | A replayed answer is true of the payload it answers, and an undecodable body or a different payload under the same key never drains. |
| ScanSafety.ExactlyOnce | services/api/internal/db/tickets.sql.go:544-550 | In every reachable state each ticket went VALID to USED at most once, each pack was handed out at most once, and every drained scan has its ticket USED. |
| ScanSafety.NothingLost | apps/scanner/src/lib/sync.ts:295-310 | At every point, crashes included, an accepted scan is stored PENDING or FAILED unchanged, or drained with its flag set, and never both. |
| ScanSafety.DrainedIsFinal | apps/scanner/src/lib/offline-db.ts:363-372 | After a drain and anything else, another scan of that ticket and kind is a duplicate, the operation stays gone and the ticket USED. |
| ScanSafety.FailedIsFrozen | apps/scanner/src/lib/sync.ts:282 | A FAILED operation keeps its record through any run, and no request is ever made under its key again. |
| ScanSafety.LostAnswerIsHarmless | services/api/internal/modules/scanner/service.go:382-390 | Once a check-in took effect, the same payload executed at any later time changes nothing and drains. |
| ScanSafety.ArrivalsAreLeftAlone | apps/scanner/src/lib/sync.ts:281-284 | A scan stored while a run is in progress is neither sent nor touched by it. |
| ScanSafety.SentOncePerListing | apps/scanner/src/lib/sync.ts:275-292 | Over any run an operation is sent at most once per listing of the queue, and not again by a run that has sent it. |
| ScanSafety.CheckInDrainsExactlyWhen | services/api/internal/modules/scanner/service.go:364-413 | A check-in drains exactly for a known, uncancelled ticket of the event. |
| ScanSafety.PickupDrainsExactlyWhen | services/api/internal/modules/racepack/service.go:276-356 | A pickup drains exactly for a valid method, once trimmed and upper-cased on decoding (services/api/internal/modules/racepack/dto.go:139), and a known, uncancelled ticket of the event with a bib, that is picked up already or has its order PAID and a counter and slot that serve. |
| ScanSafety.QueuedPickupsFail | apps/scanner/src/lib/sync.ts:162-174 | What the transport sends for a PICKUP is refused with 400 and fails: undecodable without a counter, without a method otherwise. |
| ScanSafety.DrainedAreCheckIns | services/api/internal/modules/racepack/service.go:626-636 | No PICKUP is ever drained by the API transport. |
| ScanSafety.RunIsLater | apps/scanner/src/lib/offline-db.ts:203-212 | Accepted scans, drained scans, FAILED records, flags and server effects are never undone by any run. |
| Base64Url.RoundTrip | apps/scanner/src/lib/offline-db.ts:250-272 | Decoding the unpadded base64url encoding (section 5 of RFC 4648) of any bytes gives them back, in the right length. |
| Base64Url.DecodesExactlyWhen | apps/scanner/src/lib/offline-db.ts:251-257 | Decoding fails exactly on a foreign character or a length of 1 modulo 4, and otherwise yields floor(3n/4) bytes. |
| Base64Url.CanonicalExactlyWhen | apps/scanner/src/lib/offline-db.ts:244-249 | A decodable segment is the encoding of its bytes exactly when its unused trailing bits are zero. |
| Base64Url.AtobOfPadded | apps/scanner/src/lib/offline-db.ts:258-263 | Substituting two characters and padding makes the platform decoder compute the url-safe decoding. |
| Base64Url.Base64UrlDecode | apps/scanner/src/lib/offline-db.ts:250-272 | The decoder returns null exactly when decoding is undefined, and otherwise an array of exactly the decoded bytes. |
| QrToken.JoinOfSplit | apps/scanner/src/lib/offline-db.ts:285 | Splitting loses nothing and leaves no separator inside a segment. |
| QrToken.SplitOfJoin | apps/scanner/src/lib/offline-db.ts:285 | A text has only one decomposition into segments without separators. |
| QrToken.AcceptedExactlyWhen | apps/scanner/src/lib/offline-db.ts:284-323 | A token is accepted with given ids exactly when it is three segments spelling version 1, a decodable payload with those two UUIDs, and the selected event. |
| QrToken.IssuedTokenAccepted | services/api/internal/modules/tickets/qr/qr.go:67-76 | An issued token for the selected event is always accepted, with its own ids. |
| QrToken.IssuedTokenMismatch | apps/scanner/src/lib/offline-db.ts:318-320 | For any other event the same token is an event mismatch and nothing else. |
| Checkout.RunKeepsInv | services/api/internal/modules/inventory/service.go:23-48 | Every interleaving keeps the linked tables, the capacity bound and the per-buyer limit. |
| Checkout.NoOversell | services/api/internal/modules/inventory/service.go:32-45 | ACTIVE reservations plus PAID orders never exceed capacity, although payments commit between the two counts; pending orders and ACTIVE reservations are the same. |
| Checkout.CheckoutSucceedsExactlyWhen | services/api/internal/modules/orders/service.go:96-191 | An undisturbed checkout adds its order and reservation exactly for a participant below the limit while a place is free. |
| Checkout.PaidAtMostOnce | services/api/internal/modules/payments/processor.go:223-307 | Under any replay a payment leaves PENDING at most once, an order turns PAID at most once, and ticket, fee and settled payment exist only for orders that did. |
| Checkout.TakenPaymentSellsExactlyWhen | services/api/internal/modules/payments/processor.go:249-285 | A taken payment either sold its order or found it expired or cancelled, and then there is no ticket. |
| Checkout.OneStandingPayment | database/migrations/00015_create_payments.sql:33 | An order has at most one open or settled payment. |
| Checkout.FinalOrdersStay | services/api/internal/db/orders.sql.go:524-528 | Expired, cancelled and refunded orders stay so and are never paid; sold orders stay sold. |
| Checkout.TicketsInCirculation | services/api/internal/modules/orders/service.go:501-539 | Tickets are the PAID plus the REFUNDED orders, so they exceed the capacity exactly when the refunds outnumber the places not PAID. |
| Checkout.RefundedPlaceIsSoldAgain | services/api/internal/modules/orders/service.go:501-539 | A reachable category of one place has two tickets: sold, refunded and sold again. |
| Checkout.PurchaseLimit | services/api/internal/modules/orders/service.go:120-128 | No participant ever holds more live orders of the category than the limit. |
| Checkout.GuestOrdersNeverCommit | database/migrations/00013_create_inventory_reservations.sql:8 | A guest checkout reserves for the nil user, which the foreign key refuses: every order belongs to the participant who checked it out, and a claim never finds one to take. |
| PaymentInbox.SettledExactlyWhenFirstCommits | services/api/internal/modules/payments/processor.go:132-150 | However often a callback is redelivered, it settles its payment exactly when the transaction of its first claim commits. |
| PaymentInbox.AbortedIsDropped | services/api/internal/modules/payments/processor.go:136-145 | After a failed transaction every redelivery of the key is dropped. |
| PaymentInbox.ReconcileRepairs | services/api/internal/modules/payments/reconcile.go:27-58 | Reconciling settles a payment left open at any point, and the result is final. |
| PaymentInbox.FinalStays | services/api/internal/modules/payments/processor.go:176-185 | A final payment is changed by nothing. |
| BallotLapse.EntryFollowsItsOrder | services/api/internal/db/ballot.sql.go:29-37 | An entry covered by a participant's pending order does not lapse while the order is live, and once the order is paid it is CONVERTED for good, even if it had lapsed. |
| BallotLapse.PaidEntryIsNeverLapsed | services/api/internal/modules/payments/service.go:48-50 | In every reachable state an entry covered by a PAID order is not lapsed, since only an owned order can be paid. |
| BallotLapse.CoveredWinnerDoesNotLapse | services/api/internal/db/ballot.sql.go:164-178 | A winner covered by an order has not lapsed at the end of any run that leaves the order PAID or live, whatever the expirer had listed. |
| BallotLapse.LiveOrderProtects | services/api/internal/db/ballot.sql.go:164-178 | From any state, an entry that is not lapsed does not lapse while its covering order is pending and not overdue. |
| BallotLapse.RunIsOnward | services/api/internal/db/ballot.sql.go:29-37 | CONVERTED is final and a lapsed entry never wins again. |
| BallotDraw.Shuffle | services/api/internal/modules/ballot/draw.go:24-35 | The in-place loop yields the shuffle its draws determine, a permutation of the entries. |
| BallotDraw.ShuffleIsBijective | services/api/internal/modules/ballot/draw.go:30-33 | Exactly the permutations can be drawn, each by exactly one sequence of draws. |
| BallotDraw.AssignedWinners | services/api/internal/modules/ballot/draw.go:37-58 | The assigned winners are the first quota of the shuffled order. |
| BallotDraw.RecordedWinners | services/api/internal/modules/ballot/service.go:266-287 | The recorded winners are the first quota of the listing whatever was drawn. |
| BallotDraw.WinnersAreDrawnExactlyWhen | services/api/internal/modules/ballot/service.go:263-287 | For distinct entries, recorded and drawn winners agree exactly when no position from the quota on draws a number below the quota. |
| BallotDraw.RowsVerifyExactlyWhen | services/api/internal/modules/ballot/service.go:525-538 | For distinct entries, all recorded rows verify exactly when every position draws itself. |
| BallotDraw.DrawThatFails | services/api/internal/modules/ballot/service.go:268-275 | One winner out of two entries: with 0 drawn for the second position, the recorded winner is not the drawn one and neither row verifies. |
| BallotDraw.WinnerCount | services/api/internal/modules/ballot/draw.go:41-47 | As many winners as the quota allows, as far as the entries go. |
| AccessPool.AdmissionBalances | services/api/internal/db/access.sql.go:850-866 | In any order of statements reserved plus used stays within total, and admitted grants plus the reservations in hand or given up and the expiries not released equal the taken slots plus the stale expiries. |
| AccessPool.OveradmitsExactlyWhen | services/api/internal/modules/access/pool.go:112-126 | More are admitted than the pool holds exactly when the stale expiries exceed the slots that are free, in hand, given up or not released. |
| AccessPool.NoStaleExpiryExactlyWhen | services/api/internal/db/access.sql.go:345-347 | No expiry of a run counts as stale exactly when each `ExpireGrant` of it finds its grant ACTIVE, the guard the statement does without. |
| AccessPool.FreshExpiriesNeverOveradmit | services/api/internal/modules/access/pool.go:112-126 | A run whose expiries all find their grants ACTIVE never admits more than the pool holds. |
| AccessPool.StaleExpiryReleasesUsedSlot | services/api/internal/db/access.sql.go:345-347 | In any reachable full pool with no slot lost, a checkout between listing and expiry releases a used slot and one more is admitted. |
| AccessPool.StaleExpiryOveradmits | services/api/internal/db/access.sql.go:345-347 | From an empty pool of one, two come to be admitted. |
| AccessPool.CountersBalance | services/api/internal/modules/access/pool.go:37-61 | In every reachable state used counts the manager's grants less the consumptions not made, and released counts the grants expired unused and the stale expiries less the releases not made. |
| AccessPool.ReadsAsDesignedExactlyWhen | services/api/internal/modules/access/pool.go:46-61 | Reserved, used and released count the ACTIVE, CONSUMED and EXPIRED grants exactly when nothing is in hand or given up, the manager's grants are the CONSUMED ones plus the consumptions not made, and releases not made offset stale expiries. |
| AccessPool.ManagerUsesOneSlotPerGrantExactlyWhen | services/api/internal/modules/waitlist/service.go:94-99 | Under the pool manager used counts every grant ever issued, with nothing reserved or released, exactly when no promotion is under way or has failed and no expiry has found a slot to release. |
| AccessPool.ManagerSlotReturned | services/api/internal/modules/access/pool.go:112-126 | From any idle pool with two free slots, an expiry that releases the slot reserved for the next promotion leaves two grants with one slot used and one released. |
| AccessPool.RedeemUsesNoSlot | services/api/internal/modules/access/priority.go:106-128 | Under the priority and code paths no slot is ever used, each grant or failed grant holds a slot reserved until released, and the counters read by status exactly when no grant is CONSUMED, none is in hand or given up, and releases not made offset stale expiries. |
| AccessPool.DesignCounts | database/migrations/00035_create_access_pools.sql:11-25 | Were each change of a grant to move its slot with it, the counters would count the grants by status in every run. |
| Waitlist.PositionIsFirstOfRank | services/api/internal/db/waitlist.sql.go:15-18 | A position is the list index of the first entry of the same rank. |
| Waitlist.PositionIsIndexExactlyWhen | services/api/internal/db/waitlist.sql.go:216-221 | Positions are list indexes for everybody exactly when no two waiting entries share a rank. |
| Waitlist.PromotionMovesUp | services/api/internal/db/waitlist.sql.go:291-298 | Promoting entries moves everybody else up by the number of them that were ahead. |
| Waitlist.PromotingFirstMovesUpByCount | services/api/internal/modules/waitlist/service.go:76-118 | With distinct ranks, promoting the first k moves everybody else up by exactly k and leaves the rest of the list in order. |
| Waitlist.NobodyPassedOverExactlyWhen | services/api/internal/modules/waitlist/service.go:88-103 | A batch passes nobody over exactly when no grant fails before another succeeds. |
| Waitlist.WaitlistTable.PromoteBatch | services/api/internal/modules/waitlist/service.go:76-118 | A batch promotes exactly the granted entries before the pool is exhausted, and reserves a slot for every one tried. |
| Waitlist.WaitlistTable.ListWaitingEntries | services/api/internal/db/waitlist.sql.go:216-221 | The listing is the waiting entries of smallest rank, in rank order, up to the limit. |
| WebhookDelivery.DeliveriesAreBounded | services/api/internal/modules/enterprise/dispatcher.go:21-25 | For dispatchers that do not overlap, requests are at most six per delivery plus its lost outcomes, and six per row plus the lost outcomes in all. |
| WebhookDelivery.LedgerStaysOk | services/api/internal/modules/enterprise/dispatcher.go:21-25 | Over every run of any dispatchers, overlapping or not, there is one row per endpoint and event key and every PENDING row is below the ceiling. |
| WebhookDelivery.RunKeepsInv | services/api/internal/db/enterprise.sql.go:393-412 | For dispatchers that do not overlap, DELIVERED and DEAD rows are final. |
| WebhookDelivery.SingleDispatcherIsSeparate | services/api/internal/modules/enterprise/dispatcher.go:68-79 | A single dispatcher never overlaps itself, crashes included. |
| WebhookDelivery.OverlappingDispatchersReopen | services/api/internal/db/enterprise.sql.go:404-412 | From the empty ledger, two dispatchers that list the same row put a delivered one back to PENDING. |
| WebhookDelivery.FinalRowsStayExactlyWhen | services/api/internal/db/enterprise.sql.go:393-412 | Over any run of any dispatchers, DELIVERED and DEAD rows stay as they are from every point to the end exactly when no outcome is recorded on a row that is not PENDING. |
| WebhookDelivery.DeliveryLedger.EnqueueDelivery | services/api/internal/db/enterprise.sql.go:107-112 | An event is queued for an endpoint unless it already has been, and keys stay unique. |
| WebhookDelivery.DeliveryLedger.Dispatch | services/api/internal/modules/enterprise/dispatcher.go:68-104 | A tick attempts each row of its batch once, keeps every row within bounds and changes nothing else. |
| WebhookDelivery.Backoff | services/api/internal/modules/enterprise/dispatcher.go:156-167 | The delay is 30 seconds doubled per earlier attempt and capped at half an hour. |
| RaceRanking.BeforeIsStrictTotalOrder | services/api/internal/db/results.sql.go:440-448 | The two-key order with NULLS LAST is a strict total order on keys. |
| RaceRanking.RankFollowsKey | services/api/internal/db/results.sql.go:440-453 | Within a partition a smaller rank means a strictly earlier key, and an equal rank an equal key. |
| RaceRanking.RankCountsSmallerRanks | services/api/internal/db/results.sql.go:440-453 | The rows of a partition with a smaller written rank number exactly the rank less one. |
| RaceRanking.RankingIsIdempotent | services/api/internal/db/results.sql.go:440-453 | A pass repeated changes nothing. |
| RaceRanking.RankingsCommute | services/api/internal/modules/results/service.go:128-142 | Passes over different columns or events can run in either order. |
| RaceRanking.RecomputeRanksEveryColumn | services/api/internal/modules/results/service.go:128-142 | After a recompute each column holds the count its own pass gives on the race as it was, and ineligible rows keep theirs. |
| RaceRanking.NarrowRanksAgree | services/api/internal/db/results.sql.go:400-433 | Gender and category ranks never exceed the overall rank and order rows alike. |
| RaceRanking.KeysAgreeExactlyWhen | services/api/internal/db/results.sql.go:380-393 | Gun-first and chip-first keys coincide for a row exactly when it does not hold two different times. |
| RaceRanking.AgeGroupOrderAgreesExactlyWhen | services/api/internal/db/results.sql.go:380-393 | Two rows of an age group stand alike in the age-group and the overall column exactly when their chip-first and gun-first keys compare alike. |
| RaceRanking.AgeGroupOrderAgreesOnTimes | services/api/internal/db/results.sql.go:380-393 | For rows with both times: exactly when the gun never reverses the chip and level chip times have level gun times. |
| RaceRanking.AgeGroupRankStaysWithinExactlyWhen | services/api/internal/db/results.sql.go:380-393 | A row's age-group rank is at most its overall rank in the race and in every race among some of its rows exactly when nobody of the age group is ahead of it by chip time alone. |
| RaceRanking.AgeGroupRankCanExceedOverall | services/api/internal/db/results.sql.go:380-393 | In general it does not: two finishers show an age-group rank above the overall one. |
| RaceRanking.ResultTable.Rank | services/api/internal/db/results.sql.go:440-453 | Sorting and walking, in place, computes the counting definition of a pass. |
| RaceRanking.ResultTable.RecomputeRanks | services/api/internal/modules/results/service.go:128-142 | In place, the four passes leave in every column the rank its own pass gives on the race as it was, and change nothing but ranks. |
| RaceRanking.WalkCounts | services/api/internal/db/results.sql.go:440-453 | The walk's counters give the number of rows strictly ahead. |
| ChipMapping.AnyInterleaving | database/migrations/00062_create_timing_system.sql:80-88 | Statements of any number of assignments in any order keep the partial bijection, and rows go off for good. |
| ChipMapping.RowsAgreeWithReplay | services/api/internal/modules/results/timing_service.go:305-339 | After any log the active rows are the map one gets by replaying the log, and no chip is on two bibs. |
| ChipMapping.LastAssignmentWins | services/api/internal/modules/results/timing_service.go:314-323 | With replacement throughout, a pair is active exactly when nothing after its last assignment named its bib or its chip. |
| ChipMapping.ChipOfReadsRows | services/api/internal/db/timing.sql.go:140-143 | The map holds a pair exactly when an active row does. |
| ChipMapping.ChipOfIsInjective | database/migrations/00062_create_timing_system.sql:85-88 | No chip is on two bibs. |
| ChipMapping.AssignMeans | services/api/internal/modules/results/timing_service.go:314-338 | An undisturbed assignment does to the rows what it means on the map, and succeeds exactly with replacement or with both sides free. |
| ChipMapping.InterleavedReplacementIsRefused | services/api/internal/modules/results/timing_service.go:314-338 | Two interleaved replacements of one bib lose the second. |
| ChipMapping.ReplacementIsRefusedExactlyWhen | services/api/internal/modules/results/timing_service.go:314-338 | After its two deactivations, anywhere among other statements, a replacement's insert is refused exactly when an accepted insert naming its bib or its chip stands with nothing later deactivating it. |
| ChipMapping.InsertIsRefusedExactlyWhen | database/migrations/00062_create_timing_system.sql:80-88 | After any statements from any rows, an insert is refused exactly when such an insert stands or an earlier active row was never turned off. |
| ChipMapping.LinkedAfterExactlyWhen | services/api/internal/db/timing.sql.go:80-100 | After any statements a pair is active exactly when an accepted insert of it stands, or it was active and nothing turned it off. |
| ChipMapping.MappingTable.AssignMapping | services/api/internal/modules/results/timing_service.go:305-339 | The three statements in place have that meaning, and the result says whether the row was inserted. |
| ChipMapping.MappingTable.DeactivateBibMappings | services/api/internal/db/timing.sql.go:80-84 | Turns off exactly the active rows of the bib. |
| ChipMapping.MappingTable.DeactivateChipMappings | services/api/internal/db/timing.sql.go:96-100 | Turns off exactly the active rows of the chip. |
| ChipMapping.MappingTable.InsertMapping | services/api/internal/db/timing.sql.go:307-313 | Appends exactly when neither unique index refuses. |
| ChipMapping.MappingTable.GetActiveMappingByBib | services/api/internal/db/timing.sql.go:140-143 | Lookup by bib is lookup in the map. |
| ChipMapping.MappingTable.GetActiveMappingByChip | services/api/internal/db/timing.sql.go:168-171 | Lookup by chip is inverse lookup in the map. |
| PassingIngest.KeptAreFirst | services/api/internal/db/timing.sql.go:352-366 | What is stored is exactly the observations no earlier one of their key preceded. |
| PassingIngest.KeptKeys | services/api/internal/db/timing.sql.go:352-366 | No new key is dropped. |
| PassingIngest.KeptOnce | services/api/internal/db/timing.sql.go:419-432 | No key is stored twice. |
| PassingIngest.BatchesDoNotMatter | services/api/internal/modules/results/timing_service.go:463-509 | However a stream is cut into batches, its first occurrences are stored. |
| PassingIngest.ReingestingChangesNothing | services/api/internal/modules/results/timing_service.go:463-509 | Ingesting seen keys again changes nothing. |
| PassingIngest.PassingTable.Insert | services/api/internal/db/timing.sql.go:352-366 | Appends under a fresh id exactly when the dedupe key is new. |
| PassingIngest.PassingTable.IngestPassings | services/api/internal/modules/results/timing_service.go:441-512 | A batch stores what its keys allow and reports how many were new. |
| PassingIngest.ProcessRound | services/api/internal/modules/results/timing_service.go:599-698 | A round lists the first unprocessed passings and marks the resolvable ones. |
| PassingIngest.ListedExactlyWhen | services/api/internal/db/timing.sql.go:652-657 | A passing is listed exactly when it is unprocessed with fewer than the limit unprocessed before it. |
| PassingIngest.EventuallyProcessedExactlyWhen | services/api/internal/modules/results/timing/processor.go:177-192 | A resolvable passing is eventually processed exactly when fewer than the limit unresolvable ones come before it. |
| PassingIngest.ProcessedInTime | services/api/internal/modules/results/timing_service.go:599-698 | It then takes at most one round per resolvable passing up to it. |
| PassingIngest.NeverProcessed | services/api/internal/modules/results/timing/processor.go:188-192 | Behind that many unresolvable ones it is never processed. |
| PassingIngest.RoundsCoverOnce | services/api/internal/db/timing.sql.go:652-705 | When all resolve, each round lists the next stretch: every passing is listed in exactly one round and all are processed. |

## Left out

- HTTP clients, routing, configuration, user interface, notifications, audit entries and metrics: no state that the properties speak of.
- HMAC verification, JSON syntax, UUID generation and the server's own `DecodeStructure`, which skips line breaks in a segment and accepts more spellings of a UUID than the scanner.
- Admin statements without guards: direct ballot outcome updates, lowering a category's capacity, cancelling a ticket, reversing a pickup.
- Server refusals of a scan for reasons outside the model, such as a permission or an outage, are one action with any answer that does not drain.
- ScanSafety.PickupDrainsExactlyWhen: what the pickup transaction reads of the bib, the order, the counter and the slot is an input of the transaction; the tables behind it and the slot's own count are not modelled.
- ScanSafety.QueuedPickupsFail: an identifier that is not empty is taken to decode as a UUID.
- Checkout.CheckoutSucceedsExactlyWhen: the admission gate, the registration window, the form check, the order number and the grant check are left out; each can only refuse a checkout, which then rolls back.
- AccessPool.DesignCounts: assumes that each change of a grant moves its slot with it; the services run separate statements, for which AccessPool.ReadsAsDesignedExactlyWhen gives the exact condition.
- AccessPool.OveradmitsExactlyWhen: `CheckGrant` is not part of this model; a grant admits while it is ACTIVE.
- The Redis release queue, the abuse guard, corporate accounts and eligibility rules.
- The ledgers and the scan protocol are step functions on values, not classes: what happens inside one transaction, other than where its steps are split, is not captured.
- Scoring of passings, debouncing, splits and cut-off policy; a result row computed from several rounds is not modelled.
- `UpsertRaceResult` and stale ranks of rows that are no longer eligible: a pass leaves them as they are, and nothing more is claimed.
- Ties between equal `observed_at` values, and chip mappings that change between processing rounds.
- Failure of a whole database transaction is a step that does not happen, except where a service acts before or after it.
