# Verified model of the inventory and order API

A Dafny model of the part of the API that moves stock, and of the protocols around it, with proofs of
what they promise:

- the transactional stock engine: reserving, releasing, fulfilling, adjusting, creating a product;
- the idempotency-key protocol around it (claim, complete, resolve) and the canonical JSON text that
  requests are fingerprinted by;
- keyset pagination of orders and products;
- the session idle window and the Redis rate limiter.

`dafny verify dfyconfig.toml` checks everything.

## How the model is laid out

| file | what it holds |
|---|---|
| `Tables.dfy` | the tables, requests and outcomes as values |
| `Sorting.dfy`, `Sums.dfy` | `ORDER BY`; sums over order items and over the movement ledger |
| `Engine.dfy` | what each operation decides from the rows it has read (`Exec` is its meaning on a whole store) |
| `WriteLoop.dfy` | the loops that write rows from a snapshot |
| `StoreInvariant.dfy` | the invariant of every committed store, kept by every operation |
| `OperationEffects.dfy` | when each operation succeeds, what it moves, what it answers |
| `Ledger.dfy` | the item and movement rows each order operation appends, and its answer, value by value |
| `StockService.dfy` | the services as a class over mutable tables: loops, in-place updates, appends |
| `ServiceGuarantees.dfy` | safety and retries of requests served one after another |
| `CanonicalJson.dfy`, `Unambiguity.dfy`, `Fingerprint.dfy` | the canonical printer, its injectivity, request fingerprints |
| `Idempotency.dfy`, `KeyScope.dfy` | claim, complete, resolve; what one key covers |
| `Machine.dfy` | any number of READ COMMITTED transactions interleaved statement by statement |
| `TxnInvariant.dfy`, `TxnFrame.dfy`, `MachineSafety.dfy` | the invariant of that machine |
| `RunGuarantees.dfy`, `RunHistory.dfy`, `Progress.dfy` | its guarantees: serialisability, exactly-once, what later steps cannot undo, deadlock freedom, termination |
| `Alone.dfy` | the two models meet: a request run alone on the machine is `Performed` by the service |
| `Refusals.dfy` | refusals that rest on rows read without a lock |
| `Tenancy.dfy`, `Projection.dfy` | organisation isolation, of one operation and of whole runs |
| `Pagination.dfy`, `Sessions.dfy`, `RateLimit.dfy` | the listing cursor, sessions, the rate limiter |

The services appear twice. `StockDatabase` has their loops and updates as written, and each method is
proved to do what `Exec` says. `Machine` cuts the same transactions into statements that other
transactions may fall between, and its commits are proved to do what `Exec` says too. Everything else
is proved about `Exec`. `AloneIsPerformed` ties the two: a request whose statements nobody interleaves leaves
the database, and gets the reply, of the service.

What the machine takes as given of PostgreSQL: a row lock, and the claim a unique insert makes, is held
to commit or abort; a conflicting statement waits, then sees what was committed; a locked row is read at
its committed value; uncommitted writes are invisible to others. A new order row is locked only by its
own transaction and invisible to all others until commit, so it takes no part in the lock order.

## Where a promise holds only under a condition

- `pagination.util.ts` says that a page boundary never skips a row. Cursors carry milliseconds and
  `created_at` has microseconds, so a row that shares a millisecond with the last row of a page can be
  skipped for good (`SameMillisecondIsLost`). `CompleteIffNothingLost` says, for every page size, exactly
  which unchanging tables are listed in full; `CompleteForEveryLimit` says which are for every page size;
  `PagingIsComplete` is the documented promise, under inserts, for times on whole milliseconds. That no
  row is ever repeated holds for all times.
- A release or fulfilment is refused in two statements: an UPDATE that matches no pending order, then a
  SELECT of the status. If the order is created between the two, which takes a guessed id, the answer is a
  409 saying that the order is already `pending`, and repeats of the request get it for ever
  (`GuessedIdRun`, `RefusedForEver`). `RefusalIsSerialUnlessPending` says that this is the only refusal that
  is not the serial answer when it is read.
- The idle window is documented as 30 minutes. Because touches are throttled, the pause a client can
  count on is exactly 29 minutes (`SafeGapIsTwentyNineMinutes`).
- A rate-limit counter is reset exactly when an EXPIRE of it has run and its deadline has passed
  (`ResetIffExpired`). If the process stops between INCR and EXPIRE that never happens, and the client is
  locked out for ever (`LostExpireLocksOut`).
- `stableStringify` prints `[undefined]` and `[]` alike (`UndefinedElementIsLost`), which no request can
  carry. `CanonicalText` is stated for values without such an array, `PrintsAlike` for all.

## Model

| member | source | states |
|---|---|---|
| WriteLoop.SnapshotLoopIsInPlace | apps/api/src/reservations/reservations.service.ts:199-205 | writing every row from the snapshot equals updating the rows in place line after line if and only if no product is named twice |
| WriteLoop.LineOrderIsIrrelevant | apps/api/src/reservations/reservations.service.ts:86-92 | with distinct products, the resulting inventory does not depend on the order of the lines |
| WriteLoop.InPlaceIs | apps/api/src/reservations/reservations.service.ts:385-401 | updating in place moves each row by the total quantity the lines name of it |
| Engine.NoShortfallMeansAvailable | apps/api/src/reservations/reservations.service.ts:176-188 | the shortfall list is empty exactly when every line is available |
| OperationEffects.ReservationIsExact | apps/api/src/reservations/reservations.service.ts:171-197 | a reservation succeeds if and only if every line asks at most what is available (0 without a row); otherwise 409 and no table changes |
| OperationEffects.RefusalNamesShortLines | apps/api/src/reservations/reservations.service.ts:171-196 | the shortfalls are exactly the short lines, in request order, each with its true availability |
| OperationEffects.ReservationHolds | apps/api/src/reservations/reservations.service.ts:199-221 | success raises `reserved` by each line's quantity and touches no other counter; it adds one order, pending since the current time, in the requested currency or else USD, with the request's lines as its items |
| OperationEffects.TransitionMovesItems | apps/api/src/reservations/reservations.service.ts:313-401 | a release or fulfilment succeeds exactly on a pending order of the caller's organisation and then moves exactly what its items hold |
| OperationEffects.ReserveThenTransition | apps/api/src/reservations/reservations.service.ts:577-589 | reserve then cancel restores every inventory row; reserve then fulfil takes the ordered quantities off `on_hand` and holds nothing |
| OperationEffects.EveryWriteInRange | apps/api/src/reservations/reservations.service.ts:199-205 | run alone, the CHECK constraints and the int4 range hold after every single row update of the three write loops, not only at commit |
| OperationEffects.AdjustmentIsExact | apps/api/src/inventory/inventory.service.ts:109-203 | an adjustment succeeds exactly when the product is the organisation's and the new count is between `reserved` and 2147483647; 404, 409 and 422 each exactly when due |
| OperationEffects.AdjustmentWrites | apps/api/src/inventory/inventory.service.ts:161-227 | success changes that one count by `delta`, appends one `on_hand_adjustment` of `delta` and answers the new counts; a refusal writes nothing and names the counts that refused it |
| OperationEffects.AdjustmentWithoutRow | apps/api/src/inventory/inventory.service.ts:140-159 | without an inventory row a decrease is refused with 409 and an increase starts the row |
| OperationEffects.CreationIsExact | apps/api/src/products/products.service.ts:55-112 | creation succeeds exactly when the organisation has no product with the SKU; it stores the request's SKU and price and the initial stock, 0 when absent, with one movement for a positive stock and none for 0 |
| OperationEffects.AnswerDescribesStore | apps/api/src/reservations/reservations.service.ts:213-258 | every successful answer agrees with the rows written, prices, currency and times included, and its time is the current one |
| Ledger.ReservationRecords | apps/api/src/reservations/reservations.service.ts:213-233 | one item per request line at the product's price, and one `reservation` movement per line that adds its quantity to `reserved` |
| Ledger.ReservationAnswers | apps/api/src/reservations/reservations.service.ts:244-258 | 201 with the new order's id, `pending`, the currency, the current time and the lines at the products' prices |
| Ledger.ReleaseRecords | apps/api/src/reservations/reservations.service.ts:313-437 | the order is cancelled now and nothing else of it changes; one `release` movement per item, by product, that takes its quantity off `reserved`; 200 with `cancelled` |
| Ledger.FulfillmentRecords | apps/api/src/reservations/reservations.service.ts:495-626 | the order is fulfilled now and nothing else of it changes; one `fulfillment` movement per item, by product, that takes its quantity off both counters; 200 with `fulfilled` |
| Ledger.TransitionRefused | apps/api/src/reservations/reservations.service.ts:329-352 | nothing changes: 404 for an order that is missing or another organisation's, 409 naming its status for one that has ended |
| Sums.MovementsSum | apps/api/src/reservations/reservations.service.ts:223-233 | the movement rows of one order operation add up, column by column, to what it moved |
| Sums.OrderLinesQty | apps/api/src/reservations/reservations.service.ts:356-365 | the lines a transition reads carry exactly the order's quantities |
| StoreInvariant.EmptyStoreInv | apps/api/src/database/schema/inventory.schema.ts:53-58 | the empty database satisfies the invariant |
| StoreInvariant.ReserveKeepsInv | apps/api/src/reservations/reservations.service.ts:199-233 | a reservation keeps counters in range, backed by pending orders and explained by the ledger |
| StoreInvariant.TransitionCovered | apps/api/src/reservations/reservations.service.ts:385-396 | in a sound store every line of a pending order is covered by its row, so the throw's guard is false |
| StoreInvariant.TransitionKeepsInv | apps/api/src/reservations/reservations.service.ts:356-415 | releasing and fulfilling keep the same invariant, stamps and per-order netting included |
| StoreInvariant.AdjustKeepsInv | apps/api/src/inventory/inventory.service.ts:161-213 | an adjustment keeps it |
| StoreInvariant.CreateKeepsInv | apps/api/src/products/products.service.ts:59-90 | creating a product keeps it |
| StoreInvariant.ExecKeepsInv | apps/api/src/database/schema/inventory.schema.ts:53-58 | no operation throws on a sound store, none makes a CHECK constraint or an int4 column fail, and rejections write nothing |
| StockService.StockDatabase.constructor | apps/api/src/database/schema/inventory.schema.ts:22-60 | starts with all tables empty |
| StockService.StockDatabase.FindShortfalls | apps/api/src/reservations/reservations.service.ts:171-186 | the shortfall loop builds the shortfall list |
| StockService.StockDatabase.WriteReserved | apps/api/src/reservations/reservations.service.ts:199-205 | the loop writes the snapshot values plus each quantity and nothing else |
| StockService.StockDatabase.ReserveStock | apps/api/src/reservations/reservations.service.ts:137-259 | the tables afterwards and the outcome are those of the specification |
| StockService.StockDatabase.WriteReleased | apps/api/src/reservations/reservations.service.ts:385-401 | throws exactly when some line is not covered, otherwise gives every quantity back |
| StockService.StockDatabase.ReleaseStock | apps/api/src/reservations/reservations.service.ts:307-437 | the tables afterwards and the outcome, or the throw, are those of the specification |
| StockService.StockDatabase.WriteFulfilled | apps/api/src/reservations/reservations.service.ts:571-590 | throws exactly when some line is not covered on both counters, otherwise takes every quantity off both |
| StockService.StockDatabase.FulfillStock | apps/api/src/reservations/reservations.service.ts:492-626 | the tables afterwards and the outcome, or the throw, are those of the specification |
| StockService.StockDatabase.ApplyAdjustment | apps/api/src/inventory/inventory.service.ts:104-227 | every check, the row written and the movement appended |
| StockService.StockDatabase.InsertNewProduct | apps/api/src/products/products.service.ts:51-113 | product, inventory row and, for a positive count, one movement; or the SKU conflict |
| StockService.StockDatabase.ClaimIdempotencyKey | apps/api/src/idempotency/idempotency.util.ts:40-61 | inserts an in-progress row exactly when the key is new |
| StockService.StockDatabase.CompleteIdempotencyKey | apps/api/src/idempotency/idempotency.util.ts:70-90 | records the outcome in the key's row and touches no other |
| StockService.StockDatabase.RunOperation | apps/api/src/idempotency/idempotency.util.ts:34-39 | the transaction body of each guarded operation does what the specification decides |
| StockService.StockDatabase.Transact | apps/api/src/reservations/reservations.service.ts:116-133 | claim, body, completion and commit; roll back of a throw; resolution of a lost claim |
| StockService.StockDatabase.Serve | apps/api/src/reservations/reservations.service.ts:75-134 | one guarded request, prechecks included, changes the database and replies as specified |
| ServiceGuarantees.ServedIsSafe | apps/api/src/reservations/reservations.service.ts:386-396 | every request is answered, never with the invariant error, and leaves a sound database |
| ServiceGuarantees.RefusalChangesNothing | apps/api/src/common/operation-outcome.util.ts:3-18 | a refused request changes no business table |
| ServiceGuarantees.RetryIsIdentical | apps/api/src/idempotency/idempotency.util.ts:97-98 | repeating a request that had passed its prechecks under its key, after any other requests of all five kinds, gets the identical answer and changes nothing |
| ServiceGuarantees.ReuseIsRefused | apps/api/src/idempotency/idempotency.util.ts:130-139 | another payload under a spent key changes nothing: it is refused with 409, or turned away by its own prechecks before that |
| Unambiguity.QuoteRoundTrip | apps/api/src/common/canonical-json.util.ts:17-21 | a quoted string can be read back, with what follows it, surrogates and control characters included |
| Unambiguity.PrintUnambiguous | apps/api/src/common/canonical-json.util.ts:9-22 | two key-sorted values with the same text, whatever follows, are the same value |
| Unambiguity.NormIsEquiv | apps/api/src/common/canonical-json.util.ts:14-18 | sorting keys and reading `[undefined]` as `[]`, at every depth, identifies exactly the values equal up to key order after that reading |
| Unambiguity.CanonicalText | apps/api/src/common/canonical-json.util.ts:9-22 | two values in which no array is just `[undefined]` print alike if and only if they are equal up to key order at every depth |
| Unambiguity.PrintsAlike | apps/api/src/common/canonical-json.util.ts:9-22 | any two values print alike if and only if they are equal up to key order once every `[undefined]` is read as `[]` |
| Unambiguity.UndefinedElementIsLost | apps/api/src/common/canonical-json.util.ts:10-12 | `[undefined]` and `[]` print alike |
| Unambiguity.KeysAscend | apps/api/src/common/canonical-json.util.ts:14-14 | an object's properties are all printed, in ascending UTF-16 order of their keys |
| Unambiguity.UnitText | apps/api/src/common/canonical-json.util.ts:15-21 | how each code unit of a string is written |
| Unambiguity.ArrayText | apps/api/src/common/canonical-json.util.ts:11-11 | elements are printed in order between brackets, joined by commas, an `undefined` one as nothing |
| Unambiguity.ObjectText | apps/api/src/common/canonical-json.util.ts:15-19 | sorted properties are printed between braces as key, colon and value, joined by commas |
| Unambiguity.ScalarText | apps/api/src/common/canonical-json.util.ts:21-21 | the texts of `null`, booleans and integers |
| Fingerprint.FingerprintIdentifies | apps/api/src/common/canonical-json.util.ts:29-31 | under one organisation and operation, fingerprints agree exactly when the requests are the same |
| Idempotency.CompleteThenResolve | apps/api/src/idempotency/idempotency.util.ts:141-151 | replay returns the original outcome exactly when its `ok` flag agreed with `status < 400` |
| KeyScope.KeyIdentifies | apps/api/src/idempotency/idempotency.util.ts:45-51 | two requests claim the same key if and only if organisation, operation and the client's text all agree |
| KeyScope.PrechecksTurnAway | apps/api/src/reservations/reservations.service.ts:86-109 | duplicate lines, then unknown products, are answered 400 and change nothing |
| KeyScope.NewKeyIsExecuted | apps/api/src/idempotency/idempotency.util.ts:40-61 | a request past its prechecks for which no row has its organisation, operation and text is executed, answered as decided, and completed under those three values |
| KeyScope.RecordedKeyIsNotExecuted | apps/api/src/idempotency/idempotency.util.ts:108-117 | a request for which such a row exists changes nothing |
| KeyScope.UnusedKeyIsExecuted | apps/api/src/idempotency/idempotency.util.ts:34-39 | whatever was served before under other keys, a request whose own key was not used is executed and answered as decided |
| KeyScope.UnfinishedRowAnswers | apps/api/src/idempotency/idempotency.util.ts:119-161 | a missing, unfinished or differently fingerprinted row is answered 409, a completed one without status 500 |
| KeyScope.ReplayMeansSameKey | apps/api/src/idempotency/idempotency.util.ts:45-51 | in every interleaving, a request loses its claim only to another, committed request with the same organisation, operation and text |
| KeyScope.ClaimWaitsForSameKey | apps/api/src/idempotency/idempotency.util.ts:34-39 | and waits with it only for an unfinished one with the same three values |
| KeyScope.NewKeyClaims | apps/api/src/idempotency/idempotency.util.ts:45-51 | the claim is lost if and only if a row with the three values exists; otherwise an in-progress row is written and the operation goes on |
| KeyScope.NewKeyRuns | apps/api/src/reservations/reservations.service.ts:116-133 | on the machine too, a request under a new key with nobody in its way is executed and answered as decided |
| Machine.Ascending | apps/api/src/reservations/reservations.service.ts:158-165 | rows are locked once each, in strictly ascending product id |
| TxnInvariant.StepKeepsTxnOk | apps/api/src/reservations/reservations.service.ts:313-401 | every statement keeps what its transaction relies on (claim, order and rows held and current), and none throws |
| TxnFrame.CommitFrame | apps/api/src/reservations/reservations.service.ts:117-122 | a commit changes only rows its transaction holds, and fresh ones |
| TxnFrame.CommitDecision | apps/api/src/reservations/reservations.service.ts:148-205 | what a successful transaction commits is what its request decides on the store it commits to |
| TxnFrame.StableTxn | apps/api/src/reservations/reservations.service.ts:143-169 | one transaction's commit leaves everything another relies on true |
| MachineSafety.RunKeepsGood | apps/api/src/reservations/reservations.service.ts:116-122 | every run keeps the machine invariant |
| RunGuarantees.InterleavingIsSerial | apps/api/src/reservations/reservations.service.ts:148-205 | the committed tables, and each success's outcome, are those of the successful commits run one by one in commit order |
| RunGuarantees.OnlySuccessesWrite | apps/api/src/common/operation-outcome.util.ts:3-18 | claims, reads, rejections, replays and aborts change no business row |
| RunGuarantees.ReachableStock | apps/api/src/database/schema/inventory.schema.ts:53-58 | in every reachable state counters are in range, `reserved` is what pending orders hold, and the ledger sums to both counters |
| RunGuarantees.ReachableOrder | apps/api/src/reservations/reservations.service.ts:403-415 | stamps follow the status, and an order's movements net to what its status says |
| RunGuarantees.ImpossiblePathsUnreachable | apps/api/src/reservations/reservations.service.ts:387-396 | the thrown invariant errors, and an adjustment's missing-row insert, are unreachable in every interleaving |
| RunGuarantees.CommitsOncePerKey | apps/api/src/idempotency/idempotency.util.ts:34-39 | at most one transaction per organisation, operation and key ever commits |
| RunGuarantees.ReplayIsIdentical | apps/api/src/idempotency/idempotency.util.ts:97-98 | a lost claim is answered with the winner's very outcome for the same request, and 409 for any other |
| RunGuarantees.ResolutionFindsCompleted | apps/api/src/idempotency/idempotency.util.ts:119-161 | the missing-row, in-progress and default-500 branches are never taken |
| RunGuarantees.AbortFreesKey | apps/api/src/idempotency/idempotency.util.ts:101-102 | an aborted attempt leaves its key unused and unheld |
| RunGuarantees.TerminalOrderKept | apps/api/src/reservations/reservations.service.ts:320-326 | no operation changes an order that has left `pending` |
| RunGuarantees.OneTransitionPerOrder | apps/api/src/reservations/reservations.service.ts:446-452 | over any run, at most one release or fulfilment of an order succeeds |
| RunHistory.TerminalForever | apps/api/src/reservations/reservations.service.ts:313-326 | an order fulfilled or cancelled at some moment of a run keeps that very row, however the run goes on |
| RunHistory.SpentKeyReplays | apps/api/src/idempotency/idempotency.util.ts:34-39 | a request repeated under its key, begun any time after the first committed and interleaved with anything, ends replayed with that outcome or aborted: never executed, never refused |
| RunHistory.FirmAnswersAreSerial | apps/api/src/reservations/reservations.service.ts:167-197 | at its commit, every success, every answer to a reservation (shortfalls included) and every answer to an adjustment of a known product is the serial one on the committed store |
| RunHistory.UncommittedRowsInRange | apps/api/src/database/schema/inventory.schema.ts:53-58 | in every interleaving, after every single write, all rows as the transaction sees them satisfy the CHECK constraints and the int4 range |
| Progress.AcquiresInOrder | apps/api/src/reservations/reservations.service.ts:145-147 | every transaction acquires key, order and inventory rows in strictly increasing rank |
| Progress.DeadlockFree | apps/api/src/reservations/reservations.service.ts:145-147 | in every reachable state with unfinished transactions one of them can run |
| Progress.ActionShrinks | apps/api/src/reservations/reservations.service.ts:199-205 | every statement, commit and abort leaves strictly less work |
| Progress.EveryRequestCanFinish | apps/api/src/reservations/reservations.service.ts:116-133 | from every reachable state all requests in flight can be run, by their own statements, until each is committed, refused or replayed: none ends aborted or by an error |
| Alone.RunAlone | apps/api/src/reservations/reservations.service.ts:116-133 | a transaction that has seen no commit since it began and has nobody in its way can be run to its end by its own statements, and ends with the service's database and reply |
| Alone.AloneIsPerformed | apps/api/src/reservations/reservations.service.ts:75-134 | any of the five requests, begun in any sound state in which nobody holds its key or any row and run without interleaving, leaves exactly the database, the reply and the log entry of the service's method; everyone else's state is untouched |
| Alone.EverySerialHistoryRuns | apps/api/src/reservations/reservations.service.ts:75-134 | every sequence of requests served one after another is a run of the machine, with the same final database and the same replies in order |
| Refusals.RefusalIsSerialUnlessPending | apps/api/src/reservations/reservations.service.ts:329-352 | an order's refusal, an unknown product and a taken SKU are, when read, the serial answer if and only if the answer is not 409 `pending`; and that one is given exactly when the status SELECT finds the order pending |
| Refusals.GuessedIdIsRefused | apps/api/src/reservations/reservations.service.ts:313-352 | from any quiet state, a release or fulfilment that names the id a reservation is about to get can be committed as 409 `pending` while that order is pending |
| Refusals.GuessedIdRun | apps/api/src/reservations/reservations.service.ts:313-352 | a concrete run from the empty database in which this happens |
| Refusals.RefusedForEver | apps/api/src/idempotency/idempotency.util.ts:97-98 | once it has happened, every repeat of the request under its key that finishes is replayed that 409 or aborted |
| Tenancy.LinesInSlice | apps/api/src/reservations/reservations.service.ts:356-363 | the item query, by order id alone, finds only the organisation's own items |
| Tenancy.SeesOnlyItsSlice | apps/api/src/reservations/reservations.service.ts:320-384 | an operation decides as if its organisation were alone in the database |
| Tenancy.SliceOfApply | apps/api/src/database/schema/order-items.schema.ts:43-53 | an organisation's writes change its own rows by exactly those writes and nobody else's |
| Tenancy.SameForTenant | apps/api/src/database/schema/order-items.schema.ts:43-53 | two sound stores agreeing on one organisation give it the same decision and still agree on it afterwards |
| Tenancy.OthersUntouched | apps/api/src/reservations/reservations.service.ts:320-384 | no operation changes another organisation's rows |
| Tenancy.ServedInSlice | apps/api/src/idempotency/idempotency.util.ts:108-117 | the same with prechecks and idempotency keys |
| Tenancy.ServedLeavesOthers | apps/api/src/idempotency/idempotency.util.ts:83-89 | a served request leaves other organisations' rows and keys alone |
| Tenancy.ReachableSameForTenant | apps/api/src/reservations/reservations.service.ts:313-384 | two reachable stores that agree on one organisation give each of its operations the same decision and still agree on it afterwards |
| Tenancy.SameReplyForTenant | apps/api/src/idempotency/idempotency.util.ts:108-117 | two sound databases that agree on one organisation's rows and keys give any of its five requests the same reply, prechecks and replays included, and still agree on them afterwards |
| Tenancy.ReachableSameReply | apps/api/src/idempotency/idempotency.util.ts:108-117 | the same between any two reachable databases |
| Projection.StepInSlice | apps/api/src/reservations/reservations.service.ts:313-384 | every statement of a transaction waits for, reads and does on its organisation's slice what it does on the whole database |
| Projection.AloneItSeesTheSame | apps/api/src/reservations/reservations.service.ts:116-122 | erasing every other organisation's requests, statements, commits and aborts from a run leaves a run, and it ends with this organisation's very rows, keys and transactions, answers included |
| Projection.SameActionsSameView | apps/api/src/reservations/reservations.service.ts:116-122 | two runs in which an organisation does the same end the same for it, whatever the others do in either |
| Tenancy.ActionLeavesOthers | apps/api/src/reservations/reservations.service.ts:116-122 | no step of any transaction, in any interleaving, changes another organisation's committed rows or keys |
| Tenancy.GetOrderInSlice | apps/api/src/orders/orders.service.ts:91-129 | an order's details come from its organisation's rows alone and lose no item in the join |
| Tenancy.GetOrderIs | apps/api/src/orders/orders.service.ts:91-129 | an order is found exactly in its own organisation, with its row and one line per item: product, SKU, quantity and stored price, by product id |
| Pagination.NormalizeLimit | apps/api/src/common/pagination.util.ts:27-32 | 20 for an absent, non-finite or too small limit, the whole part of one from 1 to 100, 100 above |
| Pagination.List | apps/api/src/orders/orders.service.ts:63-67 | a cursor is refused exactly when it is there and does not decode |
| Pagination.PageIsTop | apps/api/src/common/pagination.util.ts:80-91 | a page is the top of what its cursor leaves; it has a next cursor exactly when rows remain, and then it is full |
| Pagination.WalkReturnsRows | apps/api/src/orders/orders.service.ts:76-86 | everything listed is a row of the organisation, below the cursor |
| Pagination.WalkDescends | apps/api/src/common/pagination.util.ts:65-74 | following cursors gives strictly descending rows, so no repeats, for any stored times and any changes in between |
| Pagination.WalkEnds | apps/api/src/common/pagination.util.ts:87-90 | it ends within one call more than there are rows |
| Pagination.PagingIsComplete | apps/api/src/common/pagination.util.ts:4-12 | with millisecond-aligned times every row of the first call is returned exactly once, newest first, under any inserts and limits |
| Pagination.CompleteIffNothingLost | apps/api/src/common/pagination.util.ts:34-38 | for every table and every limit, all rows are listed if and only if no page boundary's truncated cursor loses a row after it |
| Pagination.CompleteForEveryLimit | apps/api/src/common/pagination.util.ts:34-38 | a table is listed in full with every limit if and only if no two rows fall in one millisecond in a losing way |
| Pagination.LostIs | apps/api/src/common/pagination.util.ts:34-38 | what the losing way is: the later row shares the millisecond of the earlier and is not on the millisecond itself with the smaller id |
| Pagination.SameMillisecondIsLost | apps/api/src/common/pagination.util.ts:34-38 | two rows in one millisecond of which one is never listed, one row a page |
| Pagination.SameMillisecondFitsOnePage | apps/api/src/common/pagination.util.ts:14-32 | with the default limit the very same rows are both listed |
| Sessions.SessionService.constructor | apps/api/src/auth/session.service.ts:36-37 | no sessions at first |
| Sessions.SessionService.CreateSession | apps/api/src/auth/session.service.ts:43-62 | adds one session of that user, idle for 30 minutes and absolute for 8 hours from now |
| Sessions.SessionService.ValidateToken | apps/api/src/auth/session.service.ts:70-94 | returns the row exactly when it is unrevoked and inside both windows, and touches it only then |
| Sessions.SessionService.Touch | apps/api/src/auth/session.service.ts:134-147 | extends the idle window unless the last write is less than a minute old |
| Sessions.SessionService.RevokeByToken | apps/api/src/auth/session.service.ts:122-130 | revokes once and keeps the first time |
| Sessions.RowBelongs | apps/api/src/auth/session.service.ts:43-62 | whatever came in between, a token's row keeps the user, creation time and absolute expiry it was created with, and the time of its first revocation |
| Sessions.AcceptedAsItsUser | apps/api/src/auth/session.service.ts:70-94 | a request that is let in is let in as the user its token was created for |
| Sessions.CreatedOnce | apps/api/src/auth/session.service.ts:43-62 | a token is created once |
| Sessions.AcceptedIsInWindow | apps/api/src/auth/session.service.ts:74-86 | over any run, an accepted request is unrevoked, under 8 h from creation and under 30 min from the last acceptance |
| Sessions.SteadyClientNeverRejected | apps/api/src/auth/session.service.ts:132-147 | a client whose gaps are at most 29 minutes is never rejected before absolute expiry or revocation |
| Sessions.RejectionIsFinal | apps/api/src/auth/session.service.ts:64-69 | once rejected, always rejected |
| Sessions.SafeGapIsTwentyNineMinutes | apps/api/src/auth/session.constants.ts:5-10 | a pause is safe in every history if and only if it is at most idle window less throttle (or past the absolute window) |
| RateLimit.RateLimitGuard.RedisIncr | apps/api/src/auth/guards/rate-limit.guard.ts:50-50 | counts up, or starts a counter without expiry |
| RateLimit.RateLimitGuard.RedisExpire | apps/api/src/auth/guards/rate-limit.guard.ts:52-52 | sets the expiry of a live counter |
| RateLimit.RateLimitGuard.CanActivate | apps/api/src/auth/guards/rate-limit.guard.ts:36-63 | refuses exactly when the count passes the limit; only the first request sets the expiry |
| RateLimit.LimitPerLifetime | apps/api/src/auth/guards/rate-limit.guard.ts:50-60 | one counter admits at most `limit` requests |
| RateLimit.BirthsApart | apps/api/src/auth/guards/rate-limit.guard.ts:50-53 | counters of one key start more than a window apart, however the commands interleave |
| RateLimit.LimitPerWindow | apps/api/src/auth/guards/rate-limit.guard.ts:50-60 | any interval one window long, both ends included, sees at most `2 * limit - 1` admissions |
| RateLimit.LimitPerWindowIsReached | apps/api/src/auth/guards/rate-limit.guard.ts:50-60 | that bound is attained for every limit and window |
| RateLimit.ResetIffExpired | apps/api/src/auth/guards/rate-limit.guard.ts:50-53 | the next INCR starts a new counter if and only if an EXPIRE of the current one has run and its deadline, unless moved in time, has passed |
| RateLimit.ResetAWindowAfterExpire | apps/api/src/auth/guards/rate-limit.guard.ts:50-62 | with the one EXPIRE the guard sends, the next INCR starts a new counter if and only if it comes more than a window after it, and that request is let in |
| RateLimit.NotResetWithoutExpire | apps/api/src/auth/guards/rate-limit.guard.ts:50-53 | without its EXPIRE a counter is not reset |
| RateLimit.LostExpireLocksOut | apps/api/src/auth/guards/rate-limit.guard.ts:50-53 | without its EXPIRE a counter admits at most `limit` requests for ever |

## Left out

- InterleavingIsSerial: speaks of successful commits. Rejections of reservations and of adjustments of known products are serial at their commit too (`FirmAnswersAreSerial`); an order's refusal, an unknown product and a taken SKU are so at the statement that reads them (`RefusalIsSerialUnlessPending`), and may be overtaken by another commit before the answer is sent.
- AcceptedIsInWindow: each validation is one atomic step; a touch delayed past another request's check is not modelled.
- RateLimitGuard: `windowSeconds` is a positive whole number, as in both uses; Redis deletes a key whose expiry is not positive.
- LimitPerWindow: an admission is dated at its INCR; a guard that answers arbitrarily late is not bounded by any window.
- CompleteIffNothingLost: is about one unchanging table; under inserts only the sufficient condition of `PagingIsComplete` is stated.
- WalkEnds: the tables may change between calls but draw from finitely many rows.
- PostgreSQL beyond the rules above: foreign-key share locks, statement retries, connection loss, and deletes, which the API never issues on these tables.
- `inventory` rows are keyed by product id, which is unique, instead of by their own row id.
- `lower(btrim(sku))`: a product's SKU stands for the normalised one.
- SHA-256 is an injective function, so a fingerprint is the canonical text, and a session row is keyed by its token; UUIDs are canonical and their text injective.
- JSON numbers are integers; doubles do not occur in fingerprinted payloads.
- Base64url, `JSON.parse` and `Date` parsing of a cursor: a cursor decodes to what was encoded or is malformed.
- Clocks and generated ids are parameters; a generated id is new to the tables and to all requests in flight.
- The audit log, names, descriptions, reasons, `updatedAt` and the product columns that stock answers repeat are carried by the source but decide nothing; `reason` is kept where it is fingerprinted.
- Controllers, DTO decorators (their bounds are the `WellFormed` predicate), CSRF, passwords, roles, the web application, health checks and the seed script, which writes stock without a movement.
- `unwrapOutcome`: turns a rejection into an HTTP exception after the commit, one branch.
- `listInventory`, `getProduct` and dashboard counts: projections with nothing to prove beyond their body.
