# Stock-Master: stock ledger, one-time passwords and chat SQL, in Dafny

This project models three parts of the Stock-Master inventory backend and
proves properties of them.

- **Operations** (`backend/routes/operations.ts`).
  - An operation (receipt, delivery, transfer or adjustment) is created as
    *pending*.
  - Confirming it appends one or two rows to the `stock_moves` log. Each row
    carries a `balance_after` snapshot read from the log. Confirming then
    moves the product's cached `products.total_stock` and marks the
    operation *completed*.
  - The list endpoint builds a filtered query with `$1..$n` placeholders.
  - The database is a class `Operations.StockDb` whose fields are the three
    tables. The handlers are methods that change those fields statement by
    statement, with no transaction, as the source does.
  - `balance_after`, the per-pair balance and the product stock are
    functions over the log (module `Ledger`). The list query is a method
    that appends filter by filter (module `OperationsQuery`).
- **One-time passwords** (`src/utils/otp.ts`).
  - The in-memory store maps an e-mail address to a code, its expiry time
    and a count of wrong attempts.
  - It is the class `Otp.OtpService` with a `map` field. The clock is a
    `now` parameter in milliseconds.
  - One `verifyOTP` step is also given as a function `Otp.Verify`. Sequences
    of calls are replayed through it to prove the lockout and at-most-once
    properties.
- **Chat SQL** (`backend/services/aiChat.ts`, `generateSQL`).
  - A pure function from the intent record the language model produces to a
    query text with `?` placeholders and the bound LIKE patterns.

Facts that come from the database layer (`backend/config/database.ts`):
- Foreign keys are enforced (line 20).
- `stock_moves.product_id` and `warehouse_id` are NOT NULL (lines 199-212).
- `operations.reference` is UNIQUE (line 177).
- `$n` placeholders are rewritten to `?` and bound by position (lines 29-31).
- `getClient` is a plain pass-through with no transaction (lines 88-97).

The model therefore has these properties:
- A `stock_moves` insert fails when the product or warehouse id is missing
  or names no row (`StockDb.CanInsertMove`).
- An `operations` insert fails on a reused reference or a dangling id
  (`StockDb.CanInsertOperation`).
- A failed statement ends the confirm handler with a 500 response. Rows
  inserted before it stay.

## Model

| member | source | states |
|---|---|---|
| `Ledger.BalanceOfAppend` | backend/routes/operations.ts:102-106 | the balance SELECT (signed sum, 0 for no rows) changes by a new move's signed quantity for that move's own pair and is unchanged for every other pair |
| `Ledger.SnapshotMatchesSum` | backend/routes/operations.ts:102-111 | on a log whose snapshots are all consistent, the latest `balance_after` of a pair equals the summed balance, and a pair without moves has balance 0 |
| `Ledger.ContinuousAppend` | backend/routes/operations.ts:108-111 | appending a row whose `balance_after` is the balance read before it plus its delta keeps every snapshot of the log consistent |
| `Ledger.Written` | backend/routes/operations.ts:100-166 | the rows a confirmation inserts: one per target warehouse, in insertion order (source then destination for a transfer), each carrying the operation id and product |
| `Ledger.AdjustmentWarehouse` | backend/routes/operations.ts:154 | the adjusted warehouse is the destination id when given, else the source id; it is present iff either id is |
| `Ledger.ReceiptEffect` | backend/routes/operations.ts:100-112 | a receipt writes one 'in' row of the quantity at the destination; the pair's balance rises by the quantity and the row's snapshot is the new balance |
| `Ledger.DeliveryEffect` | backend/routes/operations.ts:113-125 | a delivery writes one 'out' row at the source; the pair's balance falls by the quantity, with nothing stopping it going negative |
| `Ledger.TransferEffect` | backend/routes/operations.ts:126-149 | a transfer writes 'out' at the source then 'in' at the destination, both of the quantity; between two warehouses the quantity moves from one balance to the other; within one warehouse the balance ends where it began; the product's stock is unchanged |
| `Ledger.TransferWithinWarehouse` | backend/routes/operations.ts:140-148 | the destination balance is read after the 'out' row, so a same-warehouse transfer's 'in' snapshot equals the balance before the transfer |
| `Ledger.TransferBetweenWarehouses` | backend/routes/operations.ts:134-149 | an 'out' and an 'in' of one quantity for one product move that quantity between the two pairs, touch no other pair and leave the product's stock unchanged |
| `Ledger.AdjustmentEffect` | backend/routes/operations.ts:150-166 | an adjustment writes one row that is 'in' iff the signed quantity is positive, carries its magnitude, and moves the pair's balance by the signed quantity |
| `Ledger.WrittenNetChange` | backend/routes/operations.ts:100-166 | the signed deltas of the rows a confirmation writes add up to the change it applies to `total_stock`; a transfer's two rows cancel |
| `Ledger.WrittenStock` | backend/routes/operations.ts:100-166 | the written rows change the logged stock of the operation's product by that change and no other product's |
| `Ledger.WrittenKeepsContinuity` | backend/routes/operations.ts:100-166 | appending the written rows keeps every snapshot consistent, including a same-warehouse transfer |
| `Ledger.RecordKeepsDrift` | backend/routes/operations.ts:108-112 | logging a move and moving the cached total by the same signed amount keeps every product's cache-minus-log difference |
| `Ledger.UnrecordedMoveShiftsDrift` | backend/routes/operations.ts:134-137 | logging a move without touching the cache (the stranded 'out' row of a failed transfer) shifts its product's cache-minus-log difference by the opposite of its delta |
| `Ledger.ConfirmKeepsDrift` | backend/routes/operations.ts:100-170 | a complete confirmation keeps every product's cache-minus-log difference; a reconciled catalogue stays reconciled |
| `Ledger.ShiftStock` | backend/routes/operations.ts:112 | `UPDATE products SET total_stock = total_stock + change WHERE id = p` keeps the set of products, moves the named product's total by `change` and leaves every other total alone; a null id or an id with no row updates nothing |
| `Ledger.Matching` | backend/routes/operations.ts:102-106 | the rows `WHERE product_id = $1 AND warehouse_id = $2` selects: every one carries both bound ids, so a null id selects none |
| `Ledger.MatchingBalance` | backend/routes/operations.ts:102-106 | the SUM over the selected rows is the pair's balance `BalanceOf` when both ids are given and the COALESCE default 0 when either is null |
| `Operations.StockDb.PairBalance` | backend/routes/operations.ts:102-106 | the balance SELECT: the signed quantities of the selected rows, summed; equal to the pair's balance when both ids are given and 0 when either is null |
| `Operations.StockDb.Create` | backend/routes/operations.ts:58-79 | the insert succeeds iff a quantity is given (`quantity NOT NULL`), the reference is unused and every given id names a row; the new operation is pending, gets the next id and carries `TYPE-now` as its reference; on failure nothing changes |
| `Operations.StockDb.InsertMove` | backend/routes/operations.ts:108-111 | a `stock_moves` insert appends its row iff both ids are present and exist, and changes nothing otherwise |
| `Operations.StockDb.AddToTotal` | backend/routes/operations.ts:112 | the `total_stock` UPDATE, as `ShiftStock` |
| `Operations.StockDb.WriteTransfer` | backend/routes/operations.ts:126-149 | out-insert, destination read, in-insert: both rows when both are accepted; only the 'out' row when the 'in' insert is rejected |
| `Operations.StockDb.WriteMoves` | backend/routes/operations.ts:99-167 | the per-kind statements: on success exactly the `Written` rows and the `StockAfter` totals; on a rejected insert the totals are untouched and only a transfer's 'out' row may remain |
| `Operations.StockDb.Confirm` | backend/routes/operations.ts:82-177 | not found iff no row (nothing changes); already confirmed iff completed (nothing changes); confirmed iff pending and every insert is accepted, in which case exactly the written rows, the new totals and status completed; an unknown kind is completed with no rows; the log only grows, snapshots stay consistent, and the cache-minus-log difference is kept, or shifted by the stranded 'out' row of a failed transfer |
| `Operations.ConfirmTwice` | backend/routes/operations.ts:93-95 | a second confirm after a successful one answers already-confirmed and the state is that of one confirmation; after any other first outcome the second has the same outcome |
| `OperationsQuery.Placeholder` | backend/routes/operations.ts:27 | `$${paramIndex}` is one placeholder numbered `paramIndex` |
| `OperationsQuery.TruthyValues` | backend/routes/operations.ts:26-45 | the pushed parameters: no more than the filters, none of them empty, all of them when every filter is truthy |
| `OperationsQuery.FiltersPlaceholders` | backend/routes/operations.ts:26-45 | the filter text carries the placeholders `$i, $i+1, ...`, one per truthy value and no other `$` |
| `OperationsQuery.AddFilter` | backend/routes/operations.ts:26-30 | one `if (value)` block: appends the condition and `$paramIndex`, pushes the value and increments the index when the value is truthy; otherwise changes nothing |
| `OperationsQuery.ListQueryPlaceholders` | backend/routes/operations.ts:12-47 | the whole list query carries `$1..$n` for its n parameters and no other `$` |
| `OperationsQuery.ListQuery` | backend/routes/operations.ts:11-47 | the parameters are the truthy values of type, status, startDate, endDate in that order; the text is the select, their filters and the ordering; its placeholders are numbered `1..n` for the n parameters, so positional binding after the `$n`-to-`?` rewrite pairs each value with its own condition |
| `Otp.Verify` | src/utils/otp.ts:41-87 | no-OTP iff there is no entry; expired iff past the expiry (checked first, even for the right code); too-many-attempts iff unexpired with 3 or more attempts; success iff unexpired, fewer than 3 attempts and the code matches; invalid iff unexpired, fewer than 3 attempts and the code differs; the entry survives only after a wrong code, with one more attempt and `3 - attempts` reported remaining |
| `Otp.ReplayWithoutCode` | src/utils/otp.ts:45-52 | without a stored code every call answers no-OTP |
| `Otp.AtMostOneSuccess` | src/utils/otp.ts:73-79 | a stored code is accepted at most once over any sequence of calls |
| `Otp.NoSuccessWithoutCode` | src/utils/otp.ts:73-79 | once the entry is gone, no later call succeeds |
| `Otp.WrongGuessesBounded` | src/utils/otp.ts:64-86 | over any sequence of calls, at most `3 - attempts` wrong codes are answered "Invalid OTP" |
| `Otp.LockedOutAfterThreeWrong` | src/utils/otp.ts:64-86 | three wrong codes answer 2, 1 and 0 remaining; then even the right code is refused as too many attempts and the entry is dropped |
| `Otp.FreshCodeLifetime` | src/utils/otp.ts:29-61 | a code just stored is accepted up to ten minutes (600000 ms) later and refused as expired after that |
| `Otp.OtpService.constructor` | src/utils/otp.ts:12 | the store starts empty |
| `Otp.OtpService.StoreOtp` | src/utils/otp.ts:29-34 | the address's entry becomes the new code, expiring `now + 600000`, with no attempts; any earlier entry is overwritten; other addresses are untouched |
| `Otp.OtpService.VerifyOtp` | src/utils/otp.ts:41-87 | the verdict and the address's new slot are those of `Verify`; every other address is untouched; with no entry the store is unchanged |
| `Otp.OtpService.ClearOtp` | src/utils/otp.ts:92-94 | removes the given address only |
| `Otp.OtpService.HasValidOtp` | src/utils/otp.ts:99-107 | true iff an entry exists and `now <= expiresAt`; an expired entry is deleted; nothing else changes |
| `Otp.OtpService.GetRemainingTime` | src/utils/otp.ts:112-117 | 0 with no entry or once expired; otherwise the whole seconds left, `floor((expiresAt - now) / 1000)`; reads the store only |
| `AiChat.GenerateSql` | backend/services/aiChat.ts:137-259 | at most two parameters; the first is `%product%` and needs a truthy product; a second is `%warehouse%` and only for GET_STOCK with a truthy warehouse; a truthy product always yields one for GET_STOCK, MOVE_HISTORY and FORECAST; both yield two for GET_STOCK; no product, LOW_STOCK and any other intent yield none |
| `AiChat.StockCount` | backend/services/aiChat.ts:141-177 | each GET_STOCK text holds as many `?` as parameters: 2, 1 or 0 |
| `AiChat.MoveHistoryTextCount` | backend/services/aiChat.ts:212-226 | the MOVE_HISTORY text holds a `?` iff the product is truthy; the time filters add none |
| `AiChat.MoveHistoryCount` | backend/services/aiChat.ts:196-229 | the MOVE_HISTORY text holds one `?` per parameter |
| `AiChat.ForecastTextCount` | backend/services/aiChat.ts:245 | the FORECAST text holds a `?` iff the product is truthy |
| `AiChat.ForecastCount` | backend/services/aiChat.ts:231-251 | the FORECAST text holds one `?` per parameter |
| `AiChat.PlaceholdersMatchParams` | backend/services/aiChat.ts:137-259 | for every intent record, the number of `?` placeholders in the query equals the number of parameters |
| `AiChat.TimeFilterChoice` | backend/services/aiChat.ts:217-224 | the seven-day filter iff the range is truthy and mentions "week" (even if it also mentions "month"); the thirty-day filter iff it mentions "month" but not "week"; no filter otherwise |
| `AiChat.LastWeekFilter` | backend/services/aiChat.ts:218-220 | "last week" selects the seven-day filter |
| `AiChat.LastMonthFilter` | backend/services/aiChat.ts:218-222 | "last month" selects the thirty-day filter |
| `AiChat.TodayNoFilter` | backend/services/aiChat.ts:217-224 | a range naming neither adds no filter |
| `AiChat.MoveHistoryFrame` | backend/services/aiChat.ts:197-226 | every MOVE_HISTORY text starts with the joined select and ends with `ORDER BY sm.created_at DESC LIMIT 20` |
| `AiChat.WarehouseAloneIgnored` | backend/services/aiChat.ts:141-176 | GET_STOCK without a product is the fixed LIMIT 10 list with no parameters whatever warehouse is named |
| `AiChat.QueryTextIgnoresValues` | backend/services/aiChat.ts:137-259 | the text depends on the user's values only through whether they are given (and the time range only through the filter it picks), so those values reach the database as bound parameters only |

## Left out

- HTTP plumbing: Express routing, the JWT middleware, response bodies and
  messages (outcomes are datatype constructors), and `console` logging.
- The database engine: each statement's effect is written out from the
  schema. Modelled rejections: the UNIQUE reference, `quantity NOT NULL`
  and the product and warehouse foreign keys of `operations`, and the NOT
  NULL and foreign-key checks of `stock_moves`. The `created_by` foreign
  key is not modelled: the `users` table is not part of this model, and
  the signed-in user is taken to exist. A missing `type` breaks
  `toUpperCase` before the insert (see below). The RETURNING emulation and
  the DDL are not modelled.
- Numbers: quantities, balances and totals are unbounded integers. The
  source stores whatever JSON value the request sent in an INTEGER-affinity
  column: a fractional value stays REAL, a non-numeric string stays TEXT
  (and `currentBalance + quantity` then concatenates strings), and SQLite's
  64-bit integer arithmetic turns into REAL on overflow. The model assumes
  every quantity is an integer that fits.
- The money columns: `unit_price`, `total_value` (floating point), `reason`,
  `notes`, `created_by` and timestamps are not fields of `Operation`.
- `type.toUpperCase()` on a missing `type` throws; `kind` is always a string
  here. Upper-casing covers ASCII letters only.
- `Date.now()`: the clock is an explicit `now` parameter (the reference
  suffix and the OTP times).
- `generateOTP` and `OTP_LENGTH`: random codes. The code is a parameter of
  `StoreOtp`. Sending codes by e-mail or SMS is not modelled.
- The OTP store is a plain map. Addresses such as `__proto__`, which collide
  with JavaScript object internals, are not modelled.
- `interpretIntent`, `formatAnswer` and the language-model call, and the
  `extra` field of `IntentResult`. An intent string outside the four named
  ones is `Unknown`.
- Query texts are written with each run of whitespace in the source's
  template literals collapsed to one space. Leading and trailing whitespace
  is dropped. Placeholder counts do not depend on whitespace.
- Concurrency between requests: each handler runs alone.
- `OperationsQuery.Placeholders`: placeholders are read as a `$` followed by
  one digit. The list query never has more than four, so `$10` and beyond
  are not needed.
