# Verified models of the inventory, sales, security and HR cores

A Dafny 4.11 project that models the repository's transactional cores and proves what
their code relies on. `dafny verify dfyconfig.toml` checks all of it.

## What is modelled

- **Inventory ledger** (`Inventory*.dfy`). Stock rows, reservations and the movement log
  are linked by an invariant no method states: reserved is the sum of RESERVED rows, on hand
  is the net of the log, and the first is at most the second. `InventorySpec` gives each call as
  a function, `InventoryRepository` the statements in place with rollback, and
  `InventoryConcurrency` overlapping transactions statement by statement, with row locks and
  reads of committed rows plus own writes. `InventorySolo` ties the last two views together.
- **Orders and deliveries** (`Sales*.dfy`). Reserve, cancel, link and complete over that ledger: as
  functions and in place (`SalesSpec`, `SalesServices`), and statement by statement with everything
  overlapping (`SalesConcurrency`), where each sales transaction carries one of the inventory's.
  `SalesSafety`, `SalesInterleaving` and `SalesOrdersSafety` prove what every interleaving keeps,
  `SalesAhead`, `SalesOverlap` and `SalesDirect` exactly when a call breaks it.
- **One-time passwords** (`Bits`, `Base32*`, `Decimals`, `Totp`). Base32 with its 32-bit
  accumulator against the bit streams of section 6 of RFC 4648, the truncation of section 5.3 of
  RFC 4226, and the window of counters.
- **Commercial amounts** (`Commercial`). Rounding per line and per document in exact reals.
- **Refresh tokens** (`RefreshRotation`, `RotationConcurrency`). Rotation alone, over every
  serial run, and statement by statement, where every interleaving equals a serial run.
- **Login snapshots** (`KeyedSort`, `Json`, `JsonText`, `LoginSnapshot`). A canonical JSON form, its
  text, and when a pending selection is still valid.
- **Leave and payroll** (`Leave`, `LeaveService`, `Payroll`). Balances against the leave log; run
  totals against payslips.
- **Invoice issue** (`InvoiceIssue`, `InvoiceConcurrency`, `InvoiceOverlap`). Snapshot, posting and
  status change in one transaction, alone and overlapping.
- **Audit export** (`AuditCsv`). The CSV text read back.

Quantities count ten-thousandths and leave days hundredths, the scales of the stored columns.
Identifiers are numbers; rows are identified by position. Operation keys and posting keys keep the
structure their text has, so `sales-delivery:<id>:<reservation>` is a value of its own.

## What the code does not promise

Some expectations fail, and the model says where and exactly when:

- A transition reads the status without a lock and its last update asks for the version alone. A call
  that expects a version above the one it reads can therefore cancel an issued invoice, a completed
  delivery or a reserved order. How far above is exact for invoices and deliveries
  (`InvoiceOverlap.AheadExactly`, `SalesAhead.AheadExactly`), and so is what the last update does
  (`LateCancelExactly`, `LateDeliveryExactly`, `LateOrderExactly`, `LateReleaseExactly`); runs are in
  `CancelOverridesIssue`, `CancelOverridesCompletion` and `CancelOverridesReserve`. A caller who passes
  a version it has been shown is never at fault, as versions only grow (`VersionsGrow`,
  `DeliveryVersionsGrow`, `OrderVersionsGrow`).
- A reserve marks its order with an update that asks for neither version nor status, so it can mark an
  order cancelled meanwhile and leave it with RESERVED rows, with every version honest
  (`LateMarkExactly`, `ReserveOverridesCancel`).
- A reservation made directly may name an order as its source, as the source's type is any text. It can
  leave an order that is not marked reserved, a cancelled one for instance, with a RESERVED row
  (`DirectReserveExactly`, `DirectReserveClaims`).
- An order that repeats an item can never get a delivery (`RepeatedItemNeverDelivers`), and a second
  reserve of an order whose row was released reports it reserved without reserving
  (`ReservedOrderHoldsEveryLine`).
- Creating a delivery again with an earlier delivery's idempotency key and another order's id
  relinks the earlier delivery to the other order's reservations, so it can become COMPLETED while
  the rows it refers to are RESERVED (`CreationLinksOwnOrder`, `RelinkedDeliveryCompletes`).
- An order that repeats an item with one quantity reserves it once (`ReservesEachItemOnce`).
- A document's total can differ from the sum of its line totals and be negative
  (`TotalAgreesExactly`, `TotalCanBeNegative`).
- Payroll totals and payslips can differ by rounding, and a payslip's net can differ by a cent from
  gross less deductions (`GrossAgreesExactly`, `NetAgreesExactly`, `SlipNetExactly`).
- Leave approved under the SQL year is cancelled under the UTC year (`CancelAgreesExactly`).
- A secret with whitespace after a final equals sign does not decode (`AcceptedExactly`).
- A reversed payroll run can be calculated anew (`ReversedCanBeRecalculated`).

## Model

| member | source | states |
|---|---|---|
| InventorySafety.EveryInterleavingBalances | src/infrastructure/database/repositories/postgres-inventory-repository.ts:187-243 | Under every statement-level interleaving of reserve, release, fulfil, receive and return transactions with row locks, every committed state has 0 <= reserved <= on hand, reserved equal to the sum of RESERVED rows and on hand equal to the movement log |
| InventorySafety.NoInterleavingRunsShort | src/infrastructure/database/repositories/postgres-inventory-repository.ts:371-384 | No interleaving reaches the "Insufficient reserved stock" throw: the guarded update either waits for the row lock or succeeds |
| InventoryUniqueness.EveryInterleavingIsUnique | src/infrastructure/database/repositories/postgres-inventory-repository.ts:198-215 | When all requests for a source and item name one warehouse, the second lookup behind the stock row lock leaves at most one reservation per source and item in every committed state |
| InventoryKeys.EveryInterleavingLogsOnce | src/infrastructure/database/migrations/0003_inventory.sql:237-238 | However receipts, returns and issues overlap, no two committed movements share tenant, branch and operation key: the unique index lets the second insert wait and then throw |
| InventorySolo.SoloCallRefines | src/infrastructure/database/repositories/postgres-inventory-repository.ts:144-451 | A call executed statement by statement with no other lock holder ends in exactly the tables, or the failure, of the call-level function |
| InventorySpec.EveryRunBalances | src/infrastructure/database/repositories/postgres-inventory-repository.ts:144-451 | Every sequence of calls keeps the three tables in balance and one row per source and item |
| InventorySpec.FulfilNeverShort | src/infrastructure/database/repositories/postgres-inventory-repository.ts:331-384 | From empty tables the short-stock throw is unreachable and the unguarded decrement of a release never leaves a negative quantity |
| InventorySpec.ReservedIsCovered | src/infrastructure/database/repositories/postgres-inventory-repository.ts:371-384 | In balanced tables the stock row of a RESERVED reservation exists and covers its quantity in reserved and on hand |
| InventorySpec.ReserveKeepsBalance | src/infrastructure/database/repositories/postgres-inventory-repository.ts:187-243 | A reservation raises reserved by the quantity of the row it adds and stays within on hand |
| InventorySpec.ReleaseKeepsBalance | src/infrastructure/database/repositories/postgres-inventory-repository.ts:330-351 | The unguarded decrement takes back exactly what the row had claimed |
| InventorySpec.FulfilKeepsBalance | src/infrastructure/database/repositories/postgres-inventory-repository.ts:362-407 | An issue lowers on hand and reserved together with the movement and the status it writes |
| InventorySpec.DepositKeepsBalance | src/infrastructure/database/repositories/postgres-inventory-repository.ts:144-172 | A receipt or a return raises on hand by the movement it logs |
| InventorySpec.ApplyKeepsOneRowPerSource | src/infrastructure/database/repositories/postgres-inventory-repository.ts:188-197 | The lookup by source and item keeps one row per source and item |
| InventorySpec.ReplayChangesNothing | src/infrastructure/database/repositories/postgres-inventory-repository.ts:504-513 | Once a receive, return or fulfil changed anything, any later one with the same tenant, branch and operation key changes no table, whatever happened in between |
| InventoryBySource.FulfillBySourceOutcome | src/infrastructure/database/repositories/postgres-inventory-repository.ts:300-319 | Fulfilling a source succeeds exactly when it has rows and none is RELEASED; a row then is FULFILLED exactly when its key had not been taken |
| InventoryBySource.SourceRows | src/infrastructure/database/repositories/postgres-inventory-repository.ts:301-306 | The rows of a source, all of them, ordered by item |
| InventoryBySource.FulfillRowsEffect | src/infrastructure/database/repositories/postgres-inventory-repository.ts:308-318 | The loop fulfils the listed rows, touches no other row and only moves statuses |
| InventoryBySource.FulfillRowsKeepsBalance | src/infrastructure/database/repositories/postgres-inventory-repository.ts:308-318 | Fulfilling any list of rows keeps the tables in balance and one row per source and item |
| InventoryRepository.Repository.ReceiveStock | src/infrastructure/database/repositories/postgres-inventory-repository.ts:144-172 | The statements in place equal the call-level receive, with its answer and errors, and keep the balance |
| InventoryRepository.Repository.ReserveStock | src/infrastructure/database/repositories/postgres-inventory-repository.ts:187-243 | The statements in place equal the call-level reserve; a throw restores the tables |
| InventoryRepository.Repository.ReleaseReservation | src/infrastructure/database/repositories/postgres-inventory-repository.ts:330-351 | The statements in place equal the call-level release and keep the balance |
| InventoryRepository.Repository.FulfillReservation | src/infrastructure/database/repositories/postgres-inventory-repository.ts:362-407 | The statements in place equal the call-level fulfil; with balanced tables the last throw does not occur |
| InventoryRepository.Repository.FulfillReservationsBySource | src/infrastructure/database/repositories/postgres-inventory-repository.ts:300-319 | The loop over the rows of a source equals its specification; a throw in any row undoes all |
| InventoryRepository.Repository.ReturnStock | src/infrastructure/database/repositories/postgres-inventory-repository.ts:422-450 | The statements in place equal the call-level return and keep the balance |
| SalesInterleaving.CompletedMeansIssued | src/application/services/delivery-service.ts:158-181 | Under every statement-level interleaving of order, delivery and direct inventory transactions, from any honest world, every row a COMPLETED delivery refers to is FULFILLED in that committed state and in every later one; it needs that a repeated creation names the order of the delivery it finds, and that no direct call uses a completion's operation key for another row |
| SalesInterleaving.ReleasedNeverCompletes | src/application/services/delivery-service.ts:162-181 | Under the same two conditions a delivery that in some committed state refers to a RELEASED row is not COMPLETED and never will be, whatever is open then and whatever overlaps later |
| SalesInterleaving.StatusesMoveLegally | src/infrastructure/database/repositories/postgres-delivery-repository.ts:130-144 | When besides no call expects a version above the one it reads, every committed change of a delivery's status is one the transitions allow, and COMPLETED and CANCELLED deliveries stay as they are, under every interleaving |
| SalesAhead.AheadExactly | src/infrastructure/database/repositories/postgres-delivery-repository.ts:130-163 | When one call expects a version above the one it reads and everyone else is on time, some run changes the delivery as no transition may exactly when it asks at least one above from DRAFT, one above from DISPATCHED or, if the delivery can be completed, two, or one above from DELIVERED if it can be completed |
| SalesAhead.CancelOverridesCompletion | src/application/services/delivery-service.ts:158-181 | From every honest world with a DISPATCHED delivery that can be completed: a cancellation asking for the version two above reads, the delivery is delivered and completed, and from that state the cancellation goes through, its rows staying FULFILLED; every other call is on time |
| SalesInterleaving.DeliveryVersionsGrow | src/infrastructure/database/repositories/postgres-delivery-repository.ts:93-144 | A delivery's version only grows, whatever versions calls expect, so one a caller has been shown is never above one read later |
| SalesOrderVersions.OrderVersionsGrow | src/infrastructure/database/repositories/postgres-order-repository.ts:95-142 | The same of an order, in every run without any condition |
| SalesOrdersSafety.CancelledOrdersClaimNothing | src/application/services/order-service.ts:131-211 | Under every interleaving in which no transition expects a version above the one it reads, no reserve marks an order cancelled since its read and no direct reservation names an order as its source, an order not marked reserved has no RESERVED row and a CANCELLED order is never marked |
| SalesOrdersSafety.OrderStatusesMoveLegally | src/infrastructure/database/repositories/postgres-order-repository.ts:119-142 | Under the same three conditions orders change status only as the transitions allow and final ones keep theirs |
| SalesRows.EveryInterleavingKeepsFinalRows | src/infrastructure/database/repositories/postgres-inventory-repository.ts:330-407 | Under every interleaving a committed RELEASED or FULFILLED row stays exactly as it is, and a completion's operation key in the log belongs to a FULFILLED row |
| SalesRows.CompletionKeyUnused | src/infrastructure/database/repositories/postgres-inventory-repository.ts:366-370 | In no interleaving does the lookup of a completion's key, behind the row lock, find a movement |
| SalesSafety.ListingCovers | src/infrastructure/database/repositories/postgres-inventory-repository.ts:301-306 | The locked listing of a completion contains every row its delivery refers to |
| SalesOverlap.LateDeliveryExactly | src/infrastructure/database/repositories/postgres-delivery-repository.ts:130-144 | The last update of a delivery goes through on any status at its version; the change is a legal one exactly when the transitions allow it from that status, and if the row has changed at all the version asked for was above the one read |
| SalesOverlap.LateOrderExactly | src/infrastructure/database/repositories/postgres-order-repository.ts:119-133 | The same for an order; a cancellation leaves it right exactly when it is not marked reserved by then |
| SalesOverlap.LateReleaseExactly | src/application/services/order-service.ts:137-167 | A cancellation that releases leaves the order right exactly when every row the order claims by its last update is among those it freed; if the order changed since it was read, the version asked for was above the one read |
| SalesOverlap.LateMarkExactly | src/infrastructure/database/repositories/postgres-order-repository.ts:134-142 | A reserve's mark, which asks for no version, leaves a CANCELLED order marked exactly when the order was cancelled by then |
| SalesOverlap.CancelOverridesReserve | src/application/services/order-service.ts:131-166 | In every honest world with a reservable one-line order: a cancellation asking for the next version reads, a reserve commits, and the cancellation leaves a CANCELLED order with a RESERVED row; the run keeps the other two conditions |
| SalesOverlap.ReserveOverridesCancel | src/application/services/order-service.ts:187-211 | In the same worlds, with no version above the one read at any event of the run: a reserve reads, a cancellation commits, and the reserve leaves a CANCELLED order with a RESERVED row |
| SalesDirect.DirectReserveExactly | src/application/services/inventory-service.ts:207-216 | A direct reservation leaves every order claiming only what its mark says exactly when it adds no row or its free-text source names no order that is not marked reserved |
| SalesDirect.DirectCommitExactly | src/infrastructure/database/repositories/postgres-inventory-repository.ts:187-243 | At the commit of a direct transaction that overlaps others an order stays right exactly when it is marked by then or the transaction adds no claim of it |
| SalesDirect.DirectReserveClaims | src/application/services/inventory-service.ts:108-116 | From every world: such a reservation, for a CANCELLED order for instance, commits a RESERVED row for an order that is not marked, the run keeping the other two conditions |
| SalesRuns.HonestExactly | src/infrastructure/database/repositories/postgres-delivery-repository.ts:130-144 | The runs that break none of the conditions are exactly those the theorems on orders and on deliveries speak of |
| SalesServices.Services.Reserve | src/application/services/order-service.ts:187-225 | Run alone, the reserve loop equals its specification: either every line is processed or the world is as before |
| SalesServices.Services.TransitionOrder | src/application/services/order-service.ts:131-180 | Run alone, a transition with release on cancel and the shifted version equals its specification; a throw restores everything |
| SalesServices.Services.ReleaseAll | src/application/services/order-service.ts:141-150 | The release loop over the listed reservations equals its specification |
| SalesServices.Services.CreateDelivery | src/application/services/delivery-service.ts:48-88 | Creation and reservation linking equal their specification; a throw leaves no delivery |
| SalesServices.Services.MatchLines | src/application/services/delivery-service.ts:62-66 | The loop gives each line the first listed row of its item, or throws exactly when some line has none |
| SalesServices.Services.AttachReservationReferences | src/infrastructure/database/repositories/postgres-delivery-repository.ts:108-129 | The head update and the line updates under the unique index leave all lines linked or throw |
| SalesServices.Services.TransitionDelivery | src/application/services/delivery-service.ts:158-194 | Run alone, a transition with fulfilment on COMPLETED equals its specification; a version conflict undoes the fulfilment |
| SalesOrders.ReservedOrderHoldsEveryLine | src/application/services/order-service.ts:194-203 | After a successful reserve every line has a row of its item and quantity, RESERVED exactly when the order had not already given up or issued a row of the item; no goods moved |
| SalesOrders.ReserveLinesSucceeds | src/application/services/order-service.ts:194-203 | For every list of lines the loop goes through exactly when each line has the quantity of the order's row of its item, or there is none and it has the quantity of the first such line and can be reserved by itself |
| SalesOrders.ReserveOrderSucceeds | src/application/services/order-service.ts:188-211 | When an order can be reserved, repeated items and earlier rows included |
| SalesOrders.ReservesEachItemOnce | src/application/services/order-service.ts:194-203 | What an order reserves of an item is the quantity of its first line; that equals what was ordered exactly when no second line names the item |
| SalesOrders.RepeatedItemsAgree | src/infrastructure/database/repositories/postgres-inventory-repository.ts:193-197 | Two lines for one item can pass only with equal quantities |
| SalesOrders.ReserveThenCancelRestores | src/application/services/order-service.ts:137-159 | Reserve then cancel of an order without rows goes through and restores on hand and reserved of every stock row, also when an item repeats |
| SalesOrders.CancelledOrderClaimsNothing | src/application/services/order-service.ts:141-150 | After a cancellation of a reserved order none of its rows is RESERVED and no other row changed |
| SalesOrders.ReleaseOrderEffect | src/application/services/order-service.ts:141-150 | The release loop cannot fail on balanced tables and frees exactly the RESERVED rows of the order |
| SalesDeliveries.CompletionExactly | src/application/services/delivery-service.ts:162-181 | When a completion succeeds, and which rows are FULFILLED after it, without any condition on keys or creations |
| SalesDeliveries.CreationLinksOwnOrder | src/infrastructure/database/repositories/postgres-delivery-repository.ts:19-26 | A successful creation leaves references to the delivery's own order exactly when the delivery found is of the order the call names |
| SalesCounterexamples.RelinkedDeliveryCompletes | src/application/services/delivery-service.ts:49-74 | Whenever a creation falls on an earlier delivery of another order, that delivery can become COMPLETED while every row it refers to is still RESERVED |
| SalesReferences.RowsAreDeliveredOnce | src/infrastructure/database/migrations/0002_sales.sql:666-666 | Along every run two delivery lines of a tenant refer to different rows |
| SalesReferences.RepeatedItemNeverDelivers | src/application/services/delivery-service.ts:62-74 | Creating a delivery always throws when two lines of the order name one item |
| SalesCounterexamples.TwoOrdersIsReached | src/infrastructure/database/repositories/postgres-delivery-repository.ts:19-26 | Eight admissible calls from empty tables make that world |
| SalesCounterexamples.TwoOrdersFails | src/infrastructure/database/repositories/postgres-delivery-repository.ts:19-26 | A world with two orders that meets the conditions of that failure |
| SalesCounterexamples.TakenKeyLeavesRowReserved | src/infrastructure/database/repositories/postgres-inventory-repository.ts:366-370 | If a completion's key for a RESERVED row is in the log already, the delivery completes and the row stays RESERVED |
| Base32.EncodeBase32 | src/infrastructure/security/totp.ts:57-73 | The loop with its unmasked 32-bit accumulator gives the unpadded encoding of section 6 of RFC 4648 |
| Base32.DecodeBase32 | src/infrastructure/security/totp.ts:75-93 | The loop gives the whole bytes of the letters' bit stream, or throws exactly when a normalised character is outside the alphabet |
| Bits.OrBit | src/infrastructure/security/totp.ts:63-63 | The bits of an or of two 32-bit patterns |
| Bits.AndBit | src/infrastructure/security/totp.ts:66-66 | The bits of a masked pattern |
| Bits.ShlBit | src/infrastructure/security/totp.ts:63-63 | A left shift loses exactly the bits that leave the 32-bit word |
| Bits.ShrBit | src/infrastructure/security/totp.ts:66-66 | The bits of an unsigned right shift |
| Base32.ShiftIn | src/infrastructure/security/totp.ts:63-64 | Shifting a word in keeps the low bits the loop still needs although older bits leave the 32-bit word |
| Base32.EncodedDigits | src/infrastructure/security/totp.ts:57-73 | ceil(8n/5) digits for n bytes |
| Base32RoundTrip.EncodeThenDecode | src/infrastructure/security/totp.ts:57-93 | Decoding an encoding gives the bytes back, for any length, with ceil(8n/5) letters of the alphabet |
| Base32RoundTrip.DecodeThenEncode | src/infrastructure/security/totp.ts:57-93 | An alphabet string comes back exactly when its length mod 8 is not 1, 3 or 6 and the unused low bits of its last letter are zero |
| Base32RoundTrip.AcceptedExactly | src/infrastructure/security/totp.ts:76-83 | A string decodes exactly when it is characters whose upper case is letters of the alphabet or whitespace, followed only by equals signs |
| Base32RoundTrip.VariantsDecodeAlike | src/infrastructure/security/totp.ts:76-76 | Case, inserted whitespace and a final run of equals signs do not change what is decoded |
| Base32RoundTrip.UnusedBitsOfLast | src/infrastructure/security/totp.ts:71-71 | The bits no byte uses are the low 5m mod 8 bits of the last digit |
| Totp.TruncateIsDynamic | src/infrastructure/security/totp.ts:48-53 | The masked and shifted bytes are the 31-bit number of section 5.3 of RFC 4226 |
| Totp.CodeSays | src/infrastructure/security/totp.ts:54-54 | A code has the configured number of digits and denotes the truncated value modulo their power of ten |
| Totp.CodesAgree | src/infrastructure/security/totp.ts:54-54 | Two codes are equal exactly when the truncated values agree in those digits |
| Totp.CountersFit | src/infrastructure/security/totp.ts:45-46 | The eight hashed bytes determine the counter |
| Totp.Verify | src/infrastructure/security/totp.ts:28-40 | A token is accepted exactly when it is well formed and some offset of the window gives it before any offset throws; otherwise the first throwing offset is the error |
| Totp.CompareWindow | src/infrastructure/security/totp.ts:34-39 | The loop over the offsets, earliest first |
| Totp.AcceptsInRange | src/infrastructure/security/totp.ts:31-39 | With a decodable secret and counters in range nothing throws and a token is accepted exactly when some counter of the window gives it |
| Totp.GeneratedIsAccepted | src/infrastructure/security/totp.ts:28-55 | A code generated for a counter is accepted whenever the time's counter is at most the window away |
| Commercial.ResolveCommercialLines | src/application/services/commercial-transaction-service.ts:41-72 | The loop resolves every line or stops at the first that throws; the document is that of the calculated lines |
| Commercial.CalculatedLineIsOk | src/domain/commercial-calculation.ts:23-38 | Per line 0 <= discount <= gross and line total = gross - discount, exactly, with price and gross within half a ten-thousandth |
| Commercial.TotalsAreExact | src/domain/commercial-calculation.ts:40-44 | Totals of calculated lines are the exact sums, the total being the sum of line totals |
| Commercial.TotalDiffersByDrift | src/application/services/commercial-transaction-service.ts:64-72 | The document total minus the sum of line totals is exactly the rounded difference of the recomputed gross amounts |
| Commercial.DriftOfItems | src/application/services/commercial-transaction-service.ts:64-72 | That difference is the sum over the items of quantity times rounded price less the rounded product |
| Commercial.TotalAgreesExactly | src/application/services/commercial-transaction-service.ts:64-72 | They are equal exactly when that sum over the items lies in [-0.00005, 0.00005) |
| Commercial.TotalIsNear | src/application/services/commercial-transaction-service.ts:64-72 | The difference is at most 0.00005 (1 + n + sum of quantities), and 0.00005 (1 + n) with four-decimal prices |
| Commercial.WholeQuantitiesAgree | src/application/services/commercial-transaction-service.ts:64-72 | With whole quantities and four-decimal prices they are equal |
| Commercial.TotalCanBeNegative | src/application/services/commercial-transaction-service.ts:64-72 | A line whose price rounds to nothing, wholly discounted: the document total is -0.04 |
| Commercial.MoneyIsNear | src/domain/commercial-calculation.ts:21-21 | Rounding gives four decimals and moves an amount by at most 0.00005 |
| RotationConcurrency.EveryInterleavingIsSerial | src/application/services/refresh-token-rotation-service.ts:37-186 | Every statement-level interleaving leaves the tables and answers of serving the committed calls one after the other, and the "lost its session lock invariant" throw is unreachable |
| RotationConcurrency.NoInterleavingRotatesTwice | src/application/services/refresh-token-rotation-service.ts:120-139 | No two transactions rotate one hash of a tenant, and successful rotations of a session all commit before a detected reuse |
| RotationConcurrency.CommitServes | src/application/services/refresh-token-rotation-service.ts:141-184 | At its commit a rotation has written what the rotation alone would write on the committed tables |
| RefreshRotation.RotatedAtMostOnce | src/application/services/refresh-token-rotation-service.ts:120-139 | Each hash is rotated at most once per tenant, also when a replacement repeats an earlier hash |
| RefreshRotation.ReuseEndsSession | src/application/services/refresh-token-rotation-service.ts:60-88 | After a detected reuse no later rotation of that session succeeds |
| RefreshRotation.ConsumedTokenIsDetected | src/application/services/refresh-token-rotation-service.ts:60-84 | A consumed token presented again never rotates and, unless it is the current one again, revokes the session |
| RefreshRotation.ChainEndsAtCurrent | src/application/services/refresh-token-rotation-service.ts:120-152 | With fresh hashes, following replaced_by_hash from the first hash passes each consumed hash once and ends at the current one |
| RefreshRotation.RotationService.RotateToken | src/application/services/refresh-token-rotation-service.ts:37-186 | The statements in place equal the rotation function; the update always matches its row |
| LoginSnapshot.SelectionPassesExactly | src/application/services/unified-authentication-service.ts:245-259 | A selection by an offered reference passes exactly when the same contexts, snapshotted ids and versions and the same identity version are resolved, whatever the order of contexts or stored keys |
| LoginSnapshot.ShotsAgree | src/application/services/unified-authentication-service.ts:51-75 | Two context snapshots agree exactly when what they show of the contexts and the references are equal |
| LoginSnapshot.SortedShowSame | src/domain/contracts/unified-authentication.ts:98-102 | In key order two lists show the same exactly when they hold the same contexts |
| LoginSnapshot.OffersAgree | src/application/services/unified-authentication-service.ts:77-101 | The offer rebuilt from stored references agrees with the first exactly when the contexts are the same |
| LoginSnapshot.StoredReferences | src/application/services/unified-authentication-service.ts:85-91 | References read back from a stored snapshot do not depend on its key order |
| LoginSnapshot.KeyDetermines | src/domain/contracts/unified-authentication.ts:99-100 | The sort key determines type and identifier |
| Json.StableIsCanonical | src/application/services/unified-authentication-service.ts:17-27 | Two values have the same stable form exactly when they differ only in key order, at every depth |
| Json.StableTwice | src/application/services/unified-authentication-service.ts:95-95 | Taking the stable form again changes nothing |
| JsonText.TextDetermines | src/application/services/unified-authentication-service.ts:29-31 | Two trees have the same JSON text exactly when they are equal |
| Leave.EveryRunNeverShort | src/application/services/hr-service.ts:210-224 | Available leave stays non-negative over every run of decisions, cancellations, encashments, accruals, carry-forwards and initialisations |
| Leave.CarryLeavesAdjustment | src/application/services/hr-service.ts:218-219 | What a carry-forward leaves, and that a negative adjustment can make it negative |
| Leave.UsedIsLogged | src/application/services/hr-service.ts:330-343 | Without carry-forward runs and with one year per request, used equals usage minus cancellations in the log and the floor at zero never acts |
| Leave.CancelAgreesExactly | src/application/services/hr-service.ts:336-338 | Cancelling an approved request keeps used and log equal exactly when the balance of the UTC year shows its days as used |
| Leave.TwoYearsDisagree | src/application/services/hr-service.ts:336-337 | A start date on 1 January read east of Greenwich: approval and cancellation use different years and nothing is given back |
| Leave.RoundedDaysFit | src/application/services/hr-service.ts:128-130 | Rounding encashed days to two decimals never takes more than was available |
| LeaveService.Service.ApplyWorkflowDecision | src/application/services/hr-service.ts:49-57 | The decision with its consumption in one transaction equals its specification |
| LeaveService.Service.ConsumeLeave | src/application/services/hr-service.ts:58-58 | Consumption takes the request's days from the balance and logs them, or throws and changes nothing |
| LeaveService.Service.CancelLeave | src/application/services/hr-service.ts:330-343 | Cancellation equals its specification, log row included when no balance exists |
| LeaveService.Service.EncashLeave | src/application/services/hr-service.ts:123-133 | Encashment equals its specification and keeps balances non-negative |
| LeaveService.Service.RunLeaveAccrual | src/application/services/hr-service.ts:107-122 | The nested loops equal the accrual of every employee and type, once per year |
| LeaveService.Service.RunLeavePolicy | src/application/services/hr-service.ts:210-224 | The nested loops equal the carry-forward of every balance |
| LeaveService.Service.InitializeLeaveBalances | src/application/services/hr-service.ts:59-59 | The loop creates only missing balances and logs annual grants |
| Payroll.TotalsFollowPayslips | src/application/services/hr-service.ts:72-81 | After a calculation count and deductions are those of the payslips, gross and net within half a cent per payslip plus half a cent, and equal when earnings are whole cents |
| Payroll.GrossAgreesExactly | src/application/services/hr-service.ts:78-81 | The gross total equals the payslips' sum exactly when what rounding takes from each employee's earning adds up to [-0.5, 0.5) cents, or (-0.5, 0.5] for a negative total |
| Payroll.NetAgreesExactly | src/application/services/hr-service.ts:78-81 | The net total equals the payslips' sum exactly when what rounding takes from each earning less deductions adds up to the same intervals |
| Payroll.HalfCentsDisagree | src/application/services/hr-service.ts:78-81 | Two half-paid employees: the payslips sum to one cent more than the run |
| Payroll.SlipNetExactly | src/application/services/hr-service.ts:78-79 | A payslip's net is gross less deductions except when the earning ends in half a cent and the deductions change its sign |
| Payroll.OnlyNegativeNet | src/application/services/hr-service.ts:231-234 | Validated straight after a calculation only NEGATIVE_NET can be reported, exactly when the net total is negative |
| Payroll.FixedUntilReversed | src/application/services/hr-service.ts:67-67 | From approval the payslips and totals are fixed until a reversal that goes through |
| Payroll.ReversedCanBeRecalculated | src/application/services/hr-service.ts:67-69 | A reversed run can be calculated anew |
| Payroll.RunRecord.CalculatePayroll | src/application/services/hr-service.ts:61-83 | The loop with its running totals equals the calculation |
| Payroll.RunRecord.ValidatePayroll | src/application/services/hr-service.ts:225-238 | The issues listed are exactly those that hold |
| Payroll.RunRecord.ApprovePayroll | src/application/services/hr-service.ts:90-96 | Only a CALCULATED run is approved |
| Payroll.RunRecord.ClosePayroll | src/application/services/hr-service.ts:85-85 | Only an APPROVED run is closed |
| Payroll.RunRecord.ReversePayroll | src/application/services/hr-service.ts:251-260 | Only a CLOSED run is reversed |
| InvoiceConcurrency.EveryInterleavingIsSerial | src/application/services/invoice-service.ts:115-171 | When no cancellation expects a version above the one it reads, every statement-level interleaving leaves the books its committed calls leave one after the other; an invoice has a posting, for its own amount, exactly when ISSUED |
| InvoiceConcurrency.FinalInvoicesStay | src/infrastructure/database/repositories/postgres-invoice-repository.ts:120-134 | Under the same condition an ISSUED or CANCELLED invoice is never changed again, whatever overlaps |
| InvoiceConcurrency.CommitServes | src/application/services/invoice-service.ts:137-170 | At its commit a transition has done what the call does alone on the committed books |
| InvoiceConcurrency.VersionsGrow | src/infrastructure/database/repositories/postgres-invoice-repository.ts:120-158 | Versions only grow, so a version a caller has been shown is never above one read later |
| InvoiceOverlap.LateCancelExactly | src/infrastructure/database/repositories/postgres-invoice-repository.ts:120-134 | A cancellation goes through on any status at its version; the books stay right exactly when the invoice is not ISSUED by then, and a row no longer DRAFT means the version asked for was above the one read |
| InvoiceOverlap.AheadExactly | src/infrastructure/database/repositories/postgres-invoice-repository.ts:120-158 | When one cancellation expects a version above the one it reads and everyone else is on time, some run lets it change an invoice that is no draft any more exactly when it asks at least one above, and some run leaves an invoice and its posting disagreeing exactly when it asks at least three above and the taxable amount is not negative |
| InvoiceOverlap.CancelOverridesIssue | src/application/services/invoice-service.ts:115-171 | Whenever an issue would go through, a cancellation asking for the version three above and reading first goes through from the state the issue leaves, and makes a CANCELLED invoice with posting and snapshot |
| InvoiceOverlap.SomeRunPostsAndCancels | src/application/services/invoice-service.ts:115-171 | Such a run exists from empty books |
| InvoiceIssue.IssueExactly | src/application/services/invoice-service.ts:115-171 | An issue succeeds exactly from a visible DRAFT at the caller's version with a usable tax result whose sum has four decimals; it raises the version by three |
| InvoiceIssue.InvoiceService.TransitionInvoice | src/application/services/invoice-service.ts:115-184 | The ordered updates, with the version checked last and a rollback on any throw, equal the specification |
| InvoiceIssue.InvoiceService.PostSalesDocument | src/infrastructure/database/repositories/postgres-finance-repository.ts:19-58 | Insert or read by idempotency key, then compare type, document and amount |
| InvoiceIssue.InvoiceService.UpdateTaxSnapshot | src/infrastructure/database/repositories/postgres-invoice-repository.ts:135-151 | The guarded update writes the snapshot and bumps the version only on a DRAFT |
| InvoiceIssue.InvoiceService.UpdateFinanceStatus | src/infrastructure/database/repositories/postgres-invoice-repository.ts:152-158 | The guarded update writes the reference and bumps the version only on a DRAFT |
| AuditCsv.ExportReadsBack | src/application/services/security-administration-service.ts:75-95 | A reader of the format of section 2 of RFC 4180 recovers the column names and every field, absent ones as empty |
| AuditCsv.ReadQuote | src/application/services/security-administration-service.ts:77-77 | A quoted field reads as its value whatever characters it has |

## Left out

- SalesServices.Services.TransitionOrder: one call alone; overlapping calls are those of SalesConcurrency, which splits the read from the updates.
- SalesServices.Services.TransitionDelivery: one call alone, as above.
- InvoiceIssue.InvoiceService.TransitionInvoice: one call alone; overlapping calls are those of InvoiceConcurrency.
- SalesDeliveries.CompletedMeansIssued: calls run one after the other; SalesInterleaving.CompletedMeansIssued is over all interleavings.
- SalesDeliveries.ReleasedNeverCompletes: calls run one after the other; SalesInterleaving.ReleasedNeverCompletes is over all interleavings.
- SalesDeliveries.FinalStatesStay: calls run one after the other; SalesInterleaving.StatusesMoveLegally is over all interleavings.
- InvoiceIssue.PostedExactlyWhenIssued: calls run one after the other; InvoiceConcurrency.EveryInterleavingIsSerial is over all interleavings.
- InvoiceIssue.FinalInvoicesStay: calls run one after the other; InvoiceConcurrency.FinalInvoicesStay is over all interleavings.
- InventoryKeys.EveryInterleavingLogsOnce: the index is per tenant and branch here; the database's spans branches and refuses more, which in an interleaving is a transaction that aborts.
- SalesConcurrency leaves out the unique indexes on deliveries, which only refuse more, and takes creations of orders, deletions and notes edits as one step each; InvoiceConcurrency does so for creations, edits and credit notes.
- Leave.EveryRunNeverShort: opening a balance through the generic create and update calls is not modelled, so adjusted stays as it was and is never negative.
- LoginSnapshot.SelectionPassesExactly: locale collation of object keys and code-unit order of context keys are any total orders here.
- Schema CHECK and UNIQUE constraints other than those on operation keys and linked rows: the modelled states are a superset of what the database admits.
- The positive-quantity check of src/application/services/inventory-service.ts:214-215 is part of each inventory call; other input validation, permissions, module checks and audit rows are not modelled.
- Version and audit columns of stock and reservation rows, and the idempotency key stored with a reservation.
- Which of two matching deliveries or invoices a lookup by key or document returns first is unspecified in SQL; the model takes the earliest.
- Deadlocks: a waiting statement is a step that changes nothing, and nothing is claimed about progress.
- Floating point and Number.EPSILON: amounts are exact reals or scaled integers.
- SHA-256, HMAC, random references and clocks: functions or parameters; token hashes are plain values.
- Lone surrogates in JSON text: characters are Unicode scalar values.
- Generic HR create and update calls, automatic workflow approval, statutory calculations and payroll postings.
- The expiry step of a leave policy run, which only deletes ACCRUAL rows of the log.
- The tax provider and the price and discount lookups: any function or result.
- UnitOfWork and withTenantContext as code with callbacks: their effect, one commit or one rollback of the outermost transaction, is built into each service method.
- A fulfilment of a source outside any transaction, where the inner calls would wait for the outer connection's locks.
- Credit notes, sales returns, procurement, manufacturing, the HTTP layer, configuration and provisioning.
