# New-Order transaction and script driver

This project models two pieces of a TPC-C benchmark client written in Java
against Cassandra:

- The New-Order transaction handler (`NewOrderTransaction`). It follows
  clause 2.4.2 of the TPC-C benchmark.
- The driver loop (`Driver.runQueries`). It reads a transaction script and
  dispatches each record to its handler.

Modules:

- `Wrappers`: `Option`, `Result` and a map lookup. A null row read from the
  database is `None`. An exception is a `Failure`.
- `JavaLang`: the Java library behaviour the code depends on.
  - 32-bit `int` wrap-around.
  - `String.split(",")`, including the dropping of trailing empty strings.
  - `Integer.parseInt`.
  - The decimal rendering of an `int`.
- `DataStore`: the database as a `Store` class with one map field per CQL
  table. It offers:
  - plain reads, where a missing row is `None`;
  - inserts, which overwrite;
  - the two lightweight-transaction updates `UPDATE … IF guard = expected`.
    These change the row only while its guard column still holds the
    expected value.
- `NewOrder`: the `NewOrderTransaction` class and the functions that specify
  it.
  - The two read / conditional-write retry loops are `while` loops over the
    store.
  - A write by another client between a read and its conditional write is an
    environment step. Attempt k of a loop meets entry k of a finite
    interference schedule: a foreign write of the whole row, or nothing.
    Once the schedule is used up, nothing interferes and the write applies.
  - What each attempt reads (`ReadAt`), which attempt's write applies
    (`FirstApplying`), and the rows that attempt read and found
    (`AppliedRead`, `AppliedClaim`) are functions of the initial row and the
    schedule. The loops are proved against them, so the order id, D_TAX, the
    district row and every stock row written are determined by the initial
    store and the schedules.
  - Parsing, the all-local flag, the stock row computation, the line amount
    and the total are functions.
  - The effect of processing the lines is stated as left folds over the lines
    in index order: the results, the ORDER_LINE rows and the STOCK rows. The
    lemmas beside the folds state what the folds mean.
- `ScriptDriver`: the `Driver` class.
  - Its fields are the two counters `numQueries` and `skippedTransactions`,
    plus the timing samples handed to the statistics calculator.
  - `RunQueries` is proved equal to the recursive specification `Run`.
  - The lemmas characterise `Run` through the list of records it dispatches
    (`ScanRecords`).
  - The handlers and the clock are an oracle: whether the handler of
    transaction `id` throws on a record, and the milliseconds it took.

The model follows the code as written, including where it departs from the
TPC-C New-Order transaction:

- At `NewOrderTransaction.java:253-255` the code computes
  `adjustedQty.add(new BigDecimal(100))` when the new quantity falls below
  10, but never uses the value, because `BigDecimal` is immutable. The
  quantity written is therefore always the quantity read minus the quantity
  ordered, where clause 2.4.2.2 of TPC-C adds 91 back in that case.
  - `NewOrder.ReplenishedQuantity` is the rule the branch at
    `NewOrderTransaction.java:253-255` evidently means: + 100 below 10.
  - `NewOrder.ReplenishmentDiscarded` and `NewOrder.UncontendedExample` show
    where the two differ: 8 − 3 gives 5 as written, and 105 under that rule.
- The total is Σ amounts × (1 + D_TAX + W_TAX) × (1 − C_DISCOUNT), as the code
  computes it at `NewOrderTransaction.java:174-181` and as clause 2.4.2.2 of
  TPC-C states it.
- `O_OL_CNT` is `parameters[4]`, not the number of detail lines parsed.

## Model

| member | source | states |
|---|---|---|
| JavaLang.Wrap32 | src/main/java/cs4224/transactions/NewOrderTransaction.java:204 | Java `int` arithmetic: the result is the exact value when that is in range, and always differs from it by a multiple of 2^32 |
| JavaLang.IncrementChanges | src/main/java/cs4224/transactions/NewOrderTransaction.java:261 | `n + 1` on an `int` is `n + 1`, or INT_MIN after INT_MAX, and never `n` itself |
| JavaLang.Split | src/main/java/cs4224/transactions/NewOrderTransaction.java:227 | `split(",")` of a string without a comma is that string alone, the empty string included |
| JavaLang.SplitShape | src/main/java/cs4224/transactions/NewOrderTransaction.java:227 | no piece of `split(",")` holds a comma; a comma-free string comes back whole; a split with a comma never ends in an empty piece |
| JavaLang.SplitJoin | src/main/java/cs4224/transactions/NewOrderTransaction.java:227 | splitting undoes joining with commas, for comma-free pieces whose last one is not empty |
| JavaLang.ParseInt | src/main/java/cs4224/transactions/NewOrderTransaction.java:152-155 | `Integer.parseInt` succeeds only on a non-empty string with at least one character after a sign; the value is negative only under a minus sign |
| JavaLang.ParseFormat | src/main/java/cs4224/transactions/NewOrderTransaction.java:228-229 | `Integer.parseInt` of the decimal rendering of any `int` gives that `int` back |
| DataStore.Store.UpdateDistrictNextOidIf | src/main/java/cs4224/transactions/NewOrderTransaction.java:99-104 | the conditional write applies exactly when the row exists and D_NEXT_O_ID still equals the expected value; it changes only that counter; a rejected write changes nothing |
| DataStore.Store.UpdateStockIf | src/main/java/cs4224/transactions/NewOrderTransaction.java:117-122 | the conditional write applies exactly when the row exists and S_ORDER_CNT still equals the expected value; otherwise the table is unchanged |
| NewOrder.NewOrderTransaction.ParseParameters | src/main/java/cs4224/transactions/NewOrderTransaction.java:152-155 | succeeds exactly when parameters[1..4] all parse as `int`, and then sets the customer, warehouse, district and item-count fields to them |
| NewOrder.ParseNewOrderLine | src/main/java/cs4224/transactions/NewOrderTransaction.java:227-229 | a detail line parses only when it has at least three comma-separated fields |
| NewOrder.ParseNewOrderLineFields | src/main/java/cs4224/transactions/NewOrderTransaction.java:227-229 | a detail line parses exactly when its first three fields parse as `int`, and they are then the item, the supplier warehouse and the quantity, in that order |
| NewOrder.ParseNewOrderLines | src/main/java/cs4224/transactions/NewOrderTransaction.java:225-231 | when the detail lines parse, there is one parsed line per detail line |
| NewOrder.ParsedLineInOrder | src/main/java/cs4224/transactions/NewOrderTransaction.java:225-231 | when the detail lines parse, there are as many parsed lines as detail lines, and parsed line k is detail line k "item,supplier,quantity" |
| NewOrder.BadLineFailsAll | src/main/java/cs4224/transactions/NewOrderTransaction.java:225-231 | one detail line that does not parse makes the whole parse throw |
| NewOrder.GoodLinesParse | src/main/java/cs4224/transactions/NewOrderTransaction.java:225-231 | when every detail line parses, so do the lines |
| NewOrder.ParseFormatNewOrderLine | src/main/java/cs4224/transactions/NewOrderTransaction.java:227-229 | a line written "item,supplier,quantity" parses back to the same triple |
| NewOrder.IsAllItemsLocal | src/main/java/cs4224/transactions/NewOrderTransaction.java:233-235 | `allMatch` over no lines is true, and an all-local order's last line is supplied by the home warehouse |
| NewOrder.IsAllItemsLocalIff | src/main/java/cs4224/transactions/NewOrderTransaction.java:233-235 | the order is all-local exactly when every line's supplier warehouse is the home warehouse, so an order without lines is all-local |
| NewOrder.AllLocalFlag | src/main/java/cs4224/transactions/NewOrderTransaction.java:222 | O_ALL_LOCAL is 1 or 0, and 1 exactly when the order is all-local |
| NewOrder.OrderHeaderColumns | src/main/java/cs4224/transactions/NewOrderTransaction.java:212-222 | the ORDERS row has carrier id −1, O_OL_CNT equal to parameters[4] whatever the number of lines, and O_ALL_LOCAL 1 exactly when every line is local, else 0 |
| NewOrder.NewOrderTransaction.CreateNewOrder | src/main/java/cs4224/transactions/NewOrderTransaction.java:212-223 | inserts that ORDERS row under (warehouse, district, order id), and nothing else |
| NewOrder.NewOrderTransaction.GetAndUpdateDistrictNextOid | src/main/java/cs4224/transactions/NewOrderTransaction.java:186-210 | throws exactly when the district row is missing, and then changes nothing. Otherwise it returns the D_NEXT_O_ID and D_TAX of the row read on the attempt whose conditional write applied, and the district row becomes the row that write found with the counter one past the value read |
| NewOrder.FirstApplying | src/main/java/cs4224/transactions/NewOrderTransaction.java:192-207 | the loop stops at the first attempt whose write is not rejected; every earlier attempt was rejected, and the stopping attempt lies within the interference schedule |
| NewOrder.AppliedAttempt | src/main/java/cs4224/transactions/NewOrderTransaction.java:192-207 | an attempt k preceded only by rejected attempts and not rejected itself is the applying attempt: the row read and the row found are those of attempt k, and the guard the write found is the value read |
| NewOrder.RejectedByForeignWrite | src/main/java/cs4224/transactions/NewOrderTransaction.java:199-206 | a conditional write is rejected only after a foreign write to its row |
| NewOrder.UncontendedAttempt | src/main/java/cs4224/transactions/NewOrderTransaction.java:192-207 | without interference the first attempt applies, and its write finds the row it read |
| NewOrder.AllocationIncrements | src/main/java/cs4224/transactions/NewOrderTransaction.java:195-206 | no increment is lost: the allocated id is the counter the applying write found, the counter then holds that value + 1 (wrapped, so it always changes), and without interference the id is the counter as it was and only the counter changes |
| NewOrder.SecondAllocationRejected | src/main/java/cs4224/transactions/NewOrderTransaction.java:199-206 | once one client's conditional write has moved D_NEXT_O_ID past the value read, a second write expecting that value is rejected and changes nothing, so two clients never claim the same id |
| NewOrder.StockAfterOrder | src/main/java/cs4224/transactions/NewOrderTransaction.java:251-267 | the written row has quantity = read − ordered (the +100 is discarded), ytd + ordered, order count + 1 (wrapped, so always changed), and the remote count + 1 (wrapped) exactly when the supplier is not the home warehouse, else unchanged |
| NewOrder.ReplenishmentDiscarded | src/main/java/cs4224/transactions/NewOrderTransaction.java:252-255 | the quantity written agrees with the replenishment rule exactly when the new quantity is at least 10 |
| NewOrder.SecondStockWriteRejected | src/main/java/cs4224/transactions/NewOrderTransaction.java:257-268 | once one placement's conditional write has applied to a stock row, a second write expecting the S_ORDER_CNT both read is rejected and changes nothing |
| NewOrder.NewOrderTransaction.UpdateStock | src/main/java/cs4224/transactions/NewOrderTransaction.java:245-271 | throws exactly when the stock row is missing. Otherwise it returns the quantity read, and the write applies exactly when no interfering write moved S_ORDER_CNT; the row is then `StockAfterOrder` of the row read, else the interfering row |
| NewOrder.NewOrderTransaction.CreateNewOrderLine | src/main/java/cs4224/transactions/NewOrderTransaction.java:273-302 | throws exactly when the item is missing. Otherwise it inserts the ORDER_LINE row under the given line number, with amount = quantity × I_PRICE, no delivery date and S_DIST_<district>, and returns the line's result |
| NewOrder.NewOrderTransaction.ProcessNewOrderLine | src/main/java/cs4224/transactions/NewOrderTransaction.java:237-243 | throws exactly on a missing stock or item row. Otherwise the stock row is `StockAfterOrder` of the row read on the attempt whose write applied, and the result carries that row's quantity |
| NewOrder.ExpectedResultsInOrder | src/main/java/cs4224/transactions/NewOrderTransaction.java:164-167 | result k is line k's result, in input order: its item, supplier, quantity, amount = quantity × price, and the stock quantity read for it |
| NewOrder.OrderLineInserted | src/main/java/cs4224/transactions/NewOrderTransaction.java:166 | line k's ORDER_LINE row is under line number k + 1, priced at its item's price |
| NewOrder.OtherOrderLinesUnchanged | src/main/java/cs4224/transactions/NewOrderTransaction.java:281-292 | an ORDER_LINE row other than this order's line numbers 1..n is neither added nor changed |
| NewOrder.OrderLinesKept | src/main/java/cs4224/transactions/NewOrderTransaction.java:281-292 | inserting the order lines removes no row |
| NewOrder.StockUpdatesKeys | src/main/java/cs4224/transactions/NewOrderTransaction.java:257-268 | the stock updates of an order add no STOCK row |
| NewOrder.UnnamedStockUnchanged | src/main/java/cs4224/transactions/NewOrderTransaction.java:257-268 | a stock row that no line names is left as it was |
| NewOrder.LastStockWriteWins | src/main/java/cs4224/transactions/NewOrderTransaction.java:164-167 | when lines are processed in index order, a row named by several lines holds what the last of them wrote |
| NewOrder.UncontendedExample | src/main/java/cs4224/transactions/NewOrderTransaction.java:251-258 | without interference, ordering 5 of 50 and 3 of 8 leaves 45 and 5, where the replenishment rule would give 105 |
| NewOrder.LinesProcessedStep | src/main/java/cs4224/transactions/NewOrderTransaction.java:164-167 | processing line i on top of lines 0..i−1 extends the rows read, the results, ORDER_LINE and STOCK by exactly that line, the row read being the one line i's applying attempt read from STOCK as the earlier lines left it |
| NewOrder.FirstLineFailureNone | src/main/java/cs4224/transactions/NewOrderTransaction.java:246-251 | no line fails exactly when every line names an existing stock row and item |
| NewOrder.NewOrderTransaction.ProcessLineAt | src/main/java/cs4224/transactions/NewOrderTransaction.java:166 | line i fails as `FirstLineFailure` says at i; otherwise the folds grow by that line |
| NewOrder.NewOrderTransaction.ProcessNewOrderLines | src/main/java/cs4224/transactions/NewOrderTransaction.java:164-167 | fails with the first line whose stock or item row is missing. Otherwise the rows read are those of each line's applying attempt; the results, ORDER_LINE and STOCK are the folds over the lines in input order; STOCK keeps its keys; without interference STOCK is the uncontended fold |
| NewOrder.TotalAmount | src/main/java/cs4224/transactions/NewOrderTransaction.java:174-181 | the total of an order without lines is 0 |
| NewOrder.SumPermutation | src/main/java/cs4224/transactions/NewOrderTransaction.java:177-179 | the sum of the line amounts does not depend on their order |
| NewOrder.TotalAmountPermutation | src/main/java/cs4224/transactions/NewOrderTransaction.java:174-181 | the total does not depend on the order of the lines |
| NewOrder.NewOrderTransaction.GetWarehouseTax | src/main/java/cs4224/transactions/NewOrderTransaction.java:304-309 | the W_TAX of the warehouse, or a throw when it is missing |
| NewOrder.NewOrderTransaction.GetCustomerInfo | src/main/java/cs4224/transactions/NewOrderTransaction.java:311-322 | C_LAST, C_CREDIT and C_DISCOUNT of the customer, or a throw when it is missing |
| NewOrder.FailureAfterLines | src/main/java/cs4224/transactions/NewOrderTransaction.java:164-172 | after parsing, `execute` throws only for a missing stock row, item, warehouse or customer; when it does not, the warehouse and customer exist |
| NewOrder.FailureAfterHeader | src/main/java/cs4224/transactions/NewOrderTransaction.java:157-172 | after the parameters, `execute` returns only if the detail lines parse and nothing after them fails; it never reports bad parameters |
| NewOrder.FailureOf | src/main/java/cs4224/transactions/NewOrderTransaction.java:151-172 | `execute` fails on its parameters exactly when parameters[1..4] do not all parse; when it returns, both the parameters and the lines parsed |
| NewOrder.NewOrderTransaction.CompleteOrder | src/main/java/cs4224/transactions/NewOrderTransaction.java:162-183 | fails exactly as `FailureAfterLines` says. Otherwise it inserts the header, processes the lines as `ProcessNewOrderLines` says, and returns the summary with the taxes, the customer's columns and the total |
| NewOrder.NewOrderTransaction.PlaceOrder | src/main/java/cs4224/transactions/NewOrderTransaction.java:157-167 | allocates the order id first. A missing district changes nothing. On a bad detail line and on success the district row is as the allocation leaves it; a bad detail line changes nothing else; on success the order id and D_TAX are those read on the applying attempt and the order completes under that id |
| NewOrder.NewOrderTransaction.Execute | src/main/java/cs4224/transactions/NewOrderTransaction.java:151-184 | fails exactly as `FailureOf` says of the initial store. Bad parameters or a missing district change nothing; a bad detail line changes only the district row, as the allocation leaves it. On success the fields hold parameters[1..4], the summary's order id and D_TAX are those read on the allocation's applying attempt, and the order, its lines, the stock and the summary are as `Completed` says |
| ScriptDriver.ClassifyTags | src/main/java/cs4224/Driver.java:59-93 | exactly the eight tags N, P, D, O, S, I, T, R select a handler, and only "N" selects New-Order |
| ScriptDriver.Decode | src/main/java/cs4224/Driver.java:55-93 | a dispatched record carries the split line and ends at a later line within the script; a line with no fields throws |
| ScriptDriver.DecodeCases | src/main/java/cs4224/Driver.java:55-67 | an unknown tag is skipped. A dispatched record carries the split line; an `N` record carries exactly the parameters[4] lines after it, and any other record none. The loop throws on an empty split, or on an `N` line whose parameters[4] is missing, not an int, negative or beyond the script's end |
| ScriptDriver.Dispatched | src/main/java/cs4224/Driver.java:96-109 | a dispatched record adds one query, adds one skipped transaction exactly when its handler throws, and appends one sample of its type |
| ScriptDriver.Run | src/main/java/cs4224/Driver.java:52-112 | running the script never lowers a counter, skips at most as many transactions as it runs, and only appends samples |
| ScriptDriver.UnknownRecordIgnored | src/main/java/cs4224/Driver.java:89-93 | a line with an unknown tag changes no counter and adds no sample, whether or not it holds a non-whitespace character |
| ScriptDriver.ScanLayout | src/main/java/cs4224/Driver.java:52-67 | the dispatched records are in script order, each at its own line with its detail lines right after it, and the next record starts after them, so no detail line is dispatched |
| ScriptDriver.SkippedBounds | src/main/java/cs4224/Driver.java:100-106 | at most every record is skipped, and none is exactly when no handler throws |
| ScriptDriver.SamplesInOrder | src/main/java/cs4224/Driver.java:107-109 | one sample per record, in record order, under the record's type |
| ScriptDriver.TallyCounts | src/main/java/cs4224/Driver.java:99-109 | running records one after another adds one query each, one skip per throwing handler, and their samples in order; record k runs as transaction `numQueries + k + 1` |
| ScriptDriver.RunAsTally | src/main/java/cs4224/Driver.java:52-112 | the loop's result is the run of the records it dispatches, plus the count of the line whose exception escaped, if any |
| ScriptDriver.RunTally | src/main/java/cs4224/Driver.java:52-112 | over the whole script, the final counters and samples are stated in terms of the dispatched records, and the loop aborts exactly when a line throws outside the handler |
| ScriptDriver.Driver.RunQueries | src/main/java/cs4224/Driver.java:41-118 | the loop ends with exactly the counters, samples and outcome that `Run` gives |
| ScriptDriver.Driver.RunRecord | src/main/java/cs4224/Driver.java:53-111 | one pass of the loop: aborts exactly on a malformed line, after counting it; an unknown tag changes nothing; a record is dispatched as `Dispatched` says and the loop moves past its detail lines |
| ScriptDriver.ReadDetailLines | src/main/java/cs4224/Driver.java:63-66 | copies the next `count` lines, and is incomplete exactly when the script ends first |

## Left out

- The CQL statement text, `session.prepare` and `session.execute`, and `Row`
  accessors. They are foreign driver calls, replaced by the `Store` class.
- The `Scanner` and the file. The script is a sequence of lines in memory.
  - Each line comes with the fields `line.split(",")` gives. The record line
    is split by the reader.
  - `Scanner.hasNext` is modelled as "some later line holds a non-whitespace
    character". `nextLine` is modelled as taking the next line whole.
- Output and the clock:
  - `printSummary` and all console output;
  - `Instant.now()`, which is a parameter `now`;
  - `System.nanoTime` and the `TimeUnit` conversion, which are the `lapse`
    oracle;
  - the `Statistics` calculator, of which only the sequence of samples it
    ingests is kept, and `computeTimeStatistics`.
- `ParallelExecutor` and `DistrictDao`. They are not part of this model.
- Real concurrency.
  - The parallel stream at `NewOrderTransaction.java:164-167` is a
    sequential loop in index order, which is the order `collect` keeps.
  - Other clients are a finite interference schedule per retry loop, so an
    infinitely contended loop, which the code allows, is not modelled.
- Handler execution is an oracle. The other seven handlers and what
  `execute` of New-Order does to the store when the driver runs it are not
  connected to the driver model.
- The driver's `long` counters are unbounded integers; their overflow is not
  modelled.
- NewOrder.NewOrderTransaction.Execute: on a failure after the order id is
  allocated, the contract names the failure but not the partial writes
  already made (the header, earlier lines' stock and ORDER_LINE rows).
- NewOrder.NewOrderTransaction.ProcessNewOrderLines: on a failure, the
  contract names the failing line but not the rows earlier lines wrote.
- JavaLang.ParseInt: only the ASCII digits '0'..'9' are digits. Java's
  `Character.digit` also accepts the other Unicode decimal digits (for
  example the fullwidth '５'), so a parameter or detail line written with them
  parses in Java but is rejected here. The Unicode digit tables are left out.
- NewOrder.TotalAmount: BigDecimal scale and rounding are not modelled; the
  amounts are exact reals.
- NewOrder.StockAfterOrder: S_QUANTITY and S_YTD are BigDecimal columns
  holding integers, modelled as unbounded integers.
