# Monitoring-event warehouse load, modelled in Dafny

This project models the core of the monitoring-event ETL job in
`MonitoringEvent/index.js`. Each enriched monitoring event is formatted into a
flat row of SQL value literals (`transform`, with `getOperationRange`). The
rows are then loaded into the warehouse's staging table (`load`). Loading cuts
them into batches of 1000 INSERT statements and runs the batches inside one
transaction. If every batch succeeds, the transaction calls the procedure
`DL_UPSERT_FACT_MONITORING_EVENT` and commits. If a batch or the upsert fails,
it rolls back.

Modules, one file each:

- `wrappers.dfy` (`Wrappers`) defines `Option` and `Result`.
- `js_values.dfy` (`JsValues`) covers JavaScript column values, their truthiness, how `${v}` renders them, and the quote replacement `.replace(/'/g, '"')`.
- `calendar.dfy` (`Calendar`) covers moment's `YYYY-MM-DD` and `HH:mm:ss` formatting with a UTC local zone, and moment's reading of `YYYY-MM-DDTHH:mm:ss.000Z` back into an instant.
- `records.dfy` (`Records`) holds the enriched record, with the machine, division, production order, buyer and machine event joined to it, and the 57-field output row.
- `formatter.dfy` (`Formatter`) models `transform` and `getOperationRange`.
- `formatter_properties.dfy` (`FormatterProperties`) states what each group of row fields promises.
- `batching.dfy` (`Batching`) covers the `count % 1000` batching loop.
- `transaction.dfy` (`Transaction`) models the begin / insert / upsert / commit / rollback protocol as a state machine. It also gives a case-by-case reference reading, and the main theorem proves the two agree.
- `loader.dfy` (`Loader`) covers the INSERT value tuple, `load` built from batching and the transaction, and the `transform → load` pipeline.

### Behaviour of the code worth knowing

- **The formatter can throw.** `transform` throws a TypeError in these cases:
  - the machine's name or process is not a string (lines 197-198);
  - the machine's unit has no division (line 201);
  - a production order has no buyer, or the buyer's name is not a string (lines 205-209);
  - a truthy remark or machine-event name is not a string (lines 230, 239).

  The model returns `Failure(TypeError(field))`, naming the first field in object-literal order that throws. `Loader.Pipeline` then issues no warehouse request.
- **eventRange is guarded by dateEnd alone** (line 240). With dateEnd present and the start date, start time or end time missing, the re-read instant is invalid (lines 178-183) and eventRange is the text `'NaN'`.
- **The delivery date is guarded by the production order alone** (line 212). A present production order with a null delivery date stores the text `'Invalid date'`.
- **Errors are passed on as raised.** `load` rejects with the driver's own error from the failed batch, upsert, commit, rollback or opening (lines 300-327). The outer `.catch` at lines 329-331 then replaces every one of them with a ReferenceError (see Findings).

## Model

| member | source | states |
|---|---|---|
| JsValues.Escape | MonitoringEvent/index.js:197 | The replaced text has the source's length. Each single quote becomes a double quote, every other character is kept, and no single quote is left. |
| JsValues.EscapeCountsQuotes | MonitoringEvent/index.js:197 | Double quotes in the result = double quotes in the source + single quotes in the source. No single quotes remain. |
| JsValues.EscapeFixedPoints | MonitoringEvent/index.js:197 | Replacing changes a string exactly when it contains a single quote. Replacing twice is the same as replacing once. |
| JsValues.EscapeLeavesNumbers | MonitoringEvent/index.js:241 | `no.toString().replace(...)` does nothing to a number or a flag. |
| JsValues.EscapeExample | MonitoringEvent/index.js:230 | `it's fine` is stored as `it"s fine`. |
| JsValues.DecimalRoundTrip | MonitoringEvent/index.js:204 | The decimal digits `${n}` writes for a natural number read back as that number. |
| JsValues.RenderNumberRoundTrip | MonitoringEvent/index.js:204 | The bare machine year `${year}` reads back as the year, sign included. |
| JsValues.Truthy | MonitoringEvent/index.js:188-244 | JavaScript truthiness, the test of every `x ? … : null`: undefined, null, the empty string, 0 and false are falsy, everything else truthy. |
| JsValues.Render | MonitoringEvent/index.js:188-244 | The text `${v}` gives: `undefined`, `null`, the string itself, the decimal digits of an integer with its sign, `true` or `false`. JsValues.RenderNumberRoundTrip and JsValues.EscapeLeavesNumbers state its properties. |
| Calendar.DateText | MonitoringEvent/index.js:180-181 | `moment(t).format("YYYY-MM-DD")` with a UTC zone: the civil date of the instant's day, year zero-filled to four digits. Calendar.DateTextRoundTrip and Calendar.DateTextLen state its properties; it is also used at lines 190, 193 and 212. |
| Calendar.TimeText | MonitoringEvent/index.js:178-179 | `moment(t).format("HH:mm:ss")` with a UTC zone: the instant's second of the day as two-digit hours, minutes and seconds. Calendar.TimeTextRoundTrip states its property; it is also used at lines 191-192. |
| Calendar.ParseInstant | MonitoringEvent/index.js:182-183 | `moment(date + "T" + time + ".000Z")`: a valid date part and time part give that instant, anything else is invalid. Calendar.ParseInstantParts states its property. |
| Calendar.SplitYearsSound | MonitoringEvent/index.js:190 | Walking whole years from 1970 gives a year and a day of that year inside the year's length. The days before that year plus the day of the year give back the input. |
| Calendar.MonthOfSound | MonitoringEvent/index.js:190 | The month found for a day of the year holds that day: the day falls between the start of that month and the start of the next. |
| Calendar.CivilRoundTrip | MonitoringEvent/index.js:190 | The year-month-day computed for a day number is a valid calendar day, and it maps back to that day number. |
| Calendar.ZeroFillRoundTrip | MonitoringEvent/index.js:190-191 | Zero-filled fields of width w have exactly w digits and read back as the value. |
| Calendar.CivilTextRoundTrip | MonitoringEvent/index.js:190 | `YYYY-MM-DD` of a calendar day in years 0..9999 is 10 characters long and parses back to that day. |
| Calendar.DateTextRoundTrip | MonitoringEvent/index.js:190 | The `YYYY-MM-DD` rendering of an instant parses back to the instant's day. |
| Calendar.ClockTextRoundTrip | MonitoringEvent/index.js:191 | `HH:mm:ss` of a second of the day is 8 characters long and parses back to that second. |
| Calendar.TimeTextRoundTrip | MonitoringEvent/index.js:191 | The `HH:mm:ss` rendering of an instant parses back to the instant's second of the day. |
| Calendar.ParseInstantParts | MonitoringEvent/index.js:182-183 | `date + "T" + time + ".000Z"` is read as the date part and the time part separately. The instant is invalid when either part is. |
| Calendar.ShiftedSecondOfDay | MonitoringEvent/index.js:191 | Adding 7 hours moves the time of day 25 200 seconds forward, modulo one day. |
| Calendar.ShiftedDayNumber | MonitoringEvent/index.js:190 | Adding 7 hours moves to the next day exactly when the time of day is 17:00 or later. |
| Formatter.BuildRow | MonitoringEvent/index.js:187-245 | The object literal, field by field, for a record on which it does not throw. Its properties are stated by the FormatterProperties lemmas below. |
| Formatter.OperationRange | MonitoringEvent/index.js:27-29 | `getOperationRange`: the minute count divided by 60, as a real number. FormatterProperties.HoursBetweenWholeHours states what it gives. |
| Formatter.HoursBetween | MonitoringEvent/index.js:182-184 | `moment(end).diff(moment(start), "minutes")` passed to `getOperationRange`. Minutes are truncated toward zero, and NaN comes out when either instant is invalid. The HoursBetween lemmas below state its properties. |
| Formatter.Format | MonitoringEvent/index.js:187-245 | Formatting one record succeeds exactly when no field access throws. On failure, the error names the first throwing field in object-literal order. |
| Formatter.Collect | MonitoringEvent/index.js:174-246 | Mapping stops at the first throw. It succeeds exactly when every element succeeds, with the same length and each value in place. Otherwise the error is that of the first failing element. |
| Formatter.Transform | MonitoringEvent/index.js:173-248 | Gives one row per record, in order, exactly when every record is well shaped; each row is the record's formatted row. Otherwise it fails with the error of the first record that throws. |
| FormatterProperties.AbsentJoinsNeverThrow | MonitoringEvent/index.js:187-245 | With no machine, production order or machine event joined, formatting throws only when a truthy remark is not a string. |
| FormatterProperties.AbsentMachineIsNull | MonitoringEvent/index.js:194-204 | No machine means all eleven machine-derived fields are NULL. |
| FormatterProperties.AbsentProductionOrderIsNull | MonitoringEvent/index.js:205-229 | No production order means all 25 production-order fields are NULL. |
| FormatterProperties.AbsentMachineEventIsNull | MonitoringEvent/index.js:239-244 | No machine event means the machine event name, machine event number and category are NULL. |
| FormatterProperties.NullMarkerRule | MonitoringEvent/index.js:188-189 | cartNumber and code are NULL exactly when falsy, the empty string included. Otherwise each is the value quoted verbatim, with no quote replacement. |
| FormatterProperties.PresentMachineRendered | MonitoringEvent/index.js:194-204 | With a machine, the code, condition, manufacture, division code, division name and unit name are the source values in single quotes, and the year is bare. The unit code is NULL exactly when it is falsy, and otherwise quoted. |
| FormatterProperties.PresentProductionOrderRendered | MonitoringEvent/index.js:213-229 | With a production order, finish width, handling standard, material, order number, order quantity, order type, process type, remark, run, sales contract number, sample, shrinkage standard and unit of measure are the source values in single quotes, falsy values included. |
| FormatterProperties.PresentBuyerRendered | MonitoringEvent/index.js:205-210 | With a production order, the buyer's address, code, contact, country and tempo are the source values in single quotes. |
| FormatterProperties.QuoteReplacedFields | MonitoringEvent/index.js:197-241 | The six replaced fields are quoted with the source's length, no single quote, and each single quote turned into a double quote. These are machine name and process, buyer name, remark, and machine event name and number. Machine name and process are NULL exactly when there is no machine, buyer name exactly when there is no production order, and machine event name and number exactly when there is no machine event or the field is falsy. |
| FormatterProperties.ConstantShapeFields | MonitoringEvent/index.js:231-244 | The eight selected-detail fields are always NULL. `deleted` and `createdBy` are always quoted. The step process is NULL exactly when there is no machine, no step or a falsy step process. When the step process is truthy the column holds the step id in single quotes. The event category is NULL exactly when it is falsy, and otherwise it is the category in single quotes. |
| FormatterProperties.PresentProductionOrderGuarded | MonitoringEvent/index.js:211-228 | With a production order, construction, design, origin greige fabric and roll length are NULL exactly when falsy and otherwise the value in single quotes; spelling is NULL exactly when falsy and otherwise bare. |
| FormatterProperties.UnselectedOrderFieldsNull | MonitoringEvent/index.js:211-228 | Construction, design, origin greige fabric, roll length and spelling are NULL while the join leaves them undefined. |
| FormatterProperties.DateTimeNullMarkers | MonitoringEvent/index.js:190-193 | The started and end dates are NULL exactly when missing. The started and end times are NULL exactly when missing or 0. |
| FormatterProperties.ShiftedDateReadsBack | MonitoringEvent/index.js:190 | A stored date is the day of the instant 7 hours later: the same day before 17:00 UTC, the next day from 17:00 on. |
| FormatterProperties.ShiftedTimeReadsBack | MonitoringEvent/index.js:191 | A stored time is the time of day plus 25 200 seconds, wrapping at midnight. |
| FormatterProperties.StartDateShifted | MonitoringEvent/index.js:190 | The started date a row stores is quoted and reads back as the day of dateStart moved 7 hours on. |
| FormatterProperties.EndDateShifted | MonitoringEvent/index.js:193 | The end date a row stores is quoted and reads back as the day of dateEnd moved 7 hours on. |
| FormatterProperties.StartTimeShifted | MonitoringEvent/index.js:191 | For a non-zero timeInMilisStart, the started time a row stores reads back as its time of day plus 25 200 seconds, wrapping at midnight. |
| FormatterProperties.EndTimeShifted | MonitoringEvent/index.js:192 | For a non-zero timeInMilisEnd, the end time a row stores reads back as its time of day plus 25 200 seconds, wrapping at midnight. |
| FormatterProperties.RowDeliveryDate | MonitoringEvent/index.js:212 | The row's delivery date is NULL exactly without a production order. With one it is always quoted, and `'Invalid date'` for a null delivery date. |
| FormatterProperties.DeliveryDateShifted | MonitoringEvent/index.js:212 | A present delivery date is stored quoted and reads back as the day 7 hours after it. |
| FormatterProperties.DeliveryDateReadsBack | MonitoringEvent/index.js:212 | With a production order, the delivery date is always quoted. A null date gives `Invalid date`; a present date gives the day 7 hours later. |
| FormatterProperties.InstantOfPresent | MonitoringEvent/index.js:178-182 | The rendered start or end date and time, joined and re-read, are the UNSHIFTED day plus the whole seconds of the time's day. |
| FormatterProperties.InstantOfMissing | MonitoringEvent/index.js:178-183 | A missing date or time renders as `Invalid date`, and the joined text is no valid instant. |
| FormatterProperties.EventRangeGuard | MonitoringEvent/index.js:240 | eventRange is NULL exactly when dateEnd is missing. With dateEnd present, a missing start date, start time or end time gives NaN. |
| FormatterProperties.EventRangeMinutes | MonitoringEvent/index.js:182-184 | With all four parts present, eventRange is the hours between the unshifted start and end instants. |
| FormatterProperties.HoursBetweenAntisymmetric | MonitoringEvent/index.js:184 | Swapping start and end negates the figure: minutes are truncated toward zero, not floored. |
| FormatterProperties.HoursBetweenWholeHours | MonitoringEvent/index.js:27-29 | Instants a whole number h of hours apart give exactly h. |
| FormatterProperties.HoursBetweenUnderAMinute | MonitoringEvent/index.js:184 | Instants less than a minute apart, in either order, give 0. |
| FormatterProperties.RowEventRange | MonitoringEvent/index.js:240 | From the instants of lines 178-184, the row's eventRange is NULL exactly without dateEnd. It is NaN when dateEnd is present but the start date, start time or end time is missing. With all four present, it is the hours, by whole minutes truncated toward zero, between the unshifted start and end instants. |
| FormatterProperties.CartWithoutMachineExample | MonitoringEvent/index.js:188-204 | A record with cart number C1 and no machine formats, with `'C1'` and every machine field NULL. |
| FormatterProperties.RemarkField | MonitoringEvent/index.js:230 | The remark is NULL exactly when it is falsy. A truthy remark is quoted with the source's length, no single quote left, and each single quote turned into a double quote. |
| FormatterProperties.RemarkExample | MonitoringEvent/index.js:230 | The remark `it's fine` is stored as `'it"s fine'`. |
| Batching.Present | MonitoringEvent/index.js:274-275 | The rows `if (item)` lets through, in order; never more than were given. |
| Batching.Chunks | MonitoringEvent/index.js:276-289 | Cutting into consecutive batches of n rows, the last possibly shorter. Batching.ChunksFlatten, Batching.ChunksShape and Batching.ChunksCount state its properties. |
| Batching.SmallLoads | MonitoringEvent/index.js:276-290 | One row goes out as one batch of one; no rows give no batch at all. |
| Batching.PresentContents | MonitoringEvent/index.js:274-275 | `if (item)` keeps exactly the present entries: every kept row was present, and every present entry is kept. |
| Batching.ChunksFlatten | MonitoringEvent/index.js:273-289 | The batches, concatenated, are the rows in order: none lost, none repeated. |
| Batching.ChunksShape | MonitoringEvent/index.js:276-289 | Every batch but the last is full, and the last holds between 1 and the batch size. |
| Batching.ChunksCount | MonitoringEvent/index.js:276-289 | The number of batches is the least c with c times the batch size at least the row count. |
| Batching.BatchCount | MonitoringEvent/index.js:278-289 | With batches of 1000 there are ceil(rows / 1000) batches. |
| Batching.ChunksOfFull | MonitoringEvent/index.js:278-289 | Full batches followed by a shorter remainder are cut exactly that way, with the remainder dropped when empty. |
| Batching.CollectBatches | MonitoringEvent/index.js:270-289 | The counting loop (flush at `count % 1000 == 0`, flush again after the loop if anything is left) gives exactly the 1000-row cut of the present rows. |
| Batching.TwoThousandFiveHundredRows | MonitoringEvent/index.js:278-289 | 2500 rows are submitted as three batches of 1000, 1000 and 500. |
| Transaction.Run | MonitoringEvent/index.js:264-324 | The transaction for n batches, stepped from opening to a settled state, with every request it sent. Transaction.RunMatchesExpected ties it to Transaction.Expected. |
| Transaction.Expected | MonitoringEvent/index.js:264-324 | The same transaction read off case by case: opening fails; a batch fails; the upsert fails; the commit fails; all succeed. |
| Transaction.FirstFailure | MonitoringEvent/index.js:291 | There is no failure exactly when every batch reply is Ok. Otherwise the reported error is that of a failed batch with only Ok replies before it. |
| Transaction.Step | MonitoringEvent/index.js:264-324 | Every step of an unfinished run lowers its rank, and a finished run stays put. So the state machine always terminates. |
| Transaction.InsertPhase | MonitoringEvent/index.js:278-291 | From batch i on, the remaining batches are submitted in order. The run then settles on the replies to all of them. |
| Transaction.RunMatchesExpected | MonitoringEvent/index.js:264-324 | Stepping the state machine gives the same outcome and request trace as the case-by-case reading. |
| Transaction.UpsertOnlyAfterAllBatches | MonitoringEvent/index.js:291-296 | The upsert is requested exactly when the transaction opened and every batch succeeded. The commit is requested exactly when, in addition, the upsert succeeded. |
| Transaction.RollbackExactlyOnFailure | MonitoringEvent/index.js:298-323 | A rollback is requested exactly when the transaction opened and then a batch or the upsert failed. Commit and rollback are never both requested. |
| Transaction.SuccessExactlyWhenAllSucceed | MonitoringEvent/index.js:291-303 | The load resolves exactly when opening, every batch, the upsert and the commit succeed. It then resolves with each batch's metadata in submission order. |
| Transaction.AllBatchesSubmitted | MonitoringEvent/index.js:278-291 | After the transaction opens, every batch is submitted once, in order, before any reply is looked at. No insert is requested later. |
| Transaction.RejectionCause | MonitoringEvent/index.js:300-327 | The rejection error is chosen in this order: a failed rollback's own error; else the first failed batch's error; else the upsert's; else the commit's; else the opening's. |
| Transaction.NoBatches | MonitoringEvent/index.js:288-303 | With zero batches, the transaction still opens, runs the upsert and commits, and resolves with no results. |
| Loader.InsertValues | MonitoringEvent/index.js:276 | The INSERT's value tuple: 35 values in the column order of the statement, the four `productionOrderDetail…` columns taking the row's `selectedProductionOrderDetail…` values. |
| Loader.Load | MonitoringEvent/index.js:264-328 | The corrected `load`: cut the present rows into batches of 1000 and run the transaction over them. It rejects with the warehouse's error. Loader.LoadWritesEveryRow, Loader.LoadOutcome and Loader.LoadRejectsWithCause state its properties. |
| Loader.LoadAsWritten | MonitoringEvent/index.js:264-332 | `load` as written. It resolves like Loader.Load, but every rejection is replaced by a ReferenceError for the unbound `reject` (lines 329-331). |
| Loader.Pipeline | MonitoringEvent/index.js:11-13 | `transform` then `load`: a formatter error skips the load. It uses the corrected Loader.Load, so its `Loading(error)` is the warehouse's error; as written, lines 329-331 deliver a ReferenceError instead. |
| Loader.InsertShape | MonitoringEvent/index.js:276 | The INSERT names 35 columns and carries one value per column. eventRange is column 29, and every other value is a text literal. |
| Loader.DetailColumnsNull | MonitoringEvent/index.js:276 | The four `productionOrderDetail…` columns and the four `selectedProductionOrderDetail…` columns are written as NULL whenever the row's selected-detail fields are NULL. FormatterProperties.ConstantShapeFields shows that every formatted row qualifies. |
| Loader.UnwrittenFieldsIgnored | MonitoringEvent/index.js:276 | Row fields the INSERT does not name never reach the warehouse. Examples are the machine condition, the buyer address and the delivery date. |
| Loader.LoadWritesEveryRow | MonitoringEvent/index.js:270-289 | Every present row is written exactly once, in order. Batches are full except the last, and there are ceil(rows / 1000) of them. |
| Loader.LoadOutcome | MonitoringEvent/index.js:264-324 | `load` resolves exactly when every warehouse request succeeds, and then with one result per batch. After opening, one insert is issued per batch. |
| Loader.OuterCatchLosesCause | MonitoringEvent/index.js:328-331 | As written, every rejection of `load` reports a ReferenceError for `reject` instead of the warehouse's error. |
| Loader.OuterCatchCounterexample | MonitoringEvent/index.js:329-331 | When the upsert fails with `deadlock`, the corrected load reports `deadlock`. The code as written reports the unbound `reject`. |
| Loader.LoadRejectsWithCause | MonitoringEvent/index.js:300-327 | The corrected `load` rejects with the error of what failed, with the rollback's own error taking precedence. |
| Loader.AllPresent | MonitoringEvent/index.js:275 | Formatted rows are objects, so `if (item)` keeps them all. |
| Loader.TwoThousandFiveHundredRowsLoad | MonitoringEvent/index.js:264-324 | 2500 rows against an accepting warehouse give the requests begin, three inserts, upsert and commit. |
| Loader.OneRecordLoad | MonitoringEvent/index.js:264-324 | One row against an accepting warehouse gives begin, one insert, upsert and commit, and resolves with one result. |
| Loader.RowsInserted | MonitoringEvent/index.js:265-291 | Loading formatted rows into an opened transaction submits one insert per started thousand rows, right after the opening. |
| Loader.PipelineFormattingFailure | MonitoringEvent/index.js:11-13 | A record the formatter throws on means no warehouse request at all, and the run fails with the formatting error. |
| Loader.PipelineInserts | MonitoringEvent/index.js:11-13 | With every record well shaped and the transaction opened, one insert per started thousand records follows the opening. |
| Loader.PipelineSuccess | MonitoringEvent/index.js:11-13 | The run succeeds exactly when every record is well shaped and the warehouse answers the opening, every batch, the upsert and the commit with Ok. |

## Left out

- The joins at lines 31-171 (machine, division, production order, buyer and machine event lookups) are not modelled. Their results are the fields of `Records.MonitoringEvent`, with an absent join as `None`. `joinMachine` and `joinProductionOrder` run for every event (lines 55-56), and each dereferences the first row of its lookup without a check: `machine.unit = {}` (line 84) and `productionOrder.buyer = …` (line 135). An event whose id matches no row, a null id included (`where id = ?` at lines 78 and 129 then matches nothing), makes the extractor throw there. So, as written, `machine: None` and `productionOrder: None` never reach `transform`; only `machineEvent: None` can (`joinMachineEvent` returns `machineEvent[0]` unchecked). These throws are not modelled. The formatter itself handles an absent machine or production order (lines 194-229), and FormatterProperties.AbsentMachineIsNull, FormatterProperties.AbsentProductionOrderIsNull and FormatterProperties.AbsentJoinsNeverThrow describe `transform` on its own, apart from what the extractor can produce.
- The HTTP trigger and response body (lines 8-25) are not modelled. `Loader.Pipeline` models only the `transform → load` chain.
- `insertQuery` (lines 250-262) is reduced to one warehouse reply per batch.
- The SQL text is not modelled. The INSERT is its value tuple (`Loader.InsertValues`), and a batch is the list of its tuples.
- The rendering of `${getOperationRange(...)}` as a JavaScript number string is not modelled, and neither is the rendering of non-integer numbers. eventRange is kept as a real number or NaN. Numeric columns are integers.
- moment's local time zone is taken to be UTC. The `+7 hours` shift is therefore modelled on UTC instants, and the re-read of `…T….000Z` agrees with the rendering.
- Calendar.DateTextRoundTrip: is stated only for years 0..9999, the range moment renders as four plain digits. moment's fallback parser for other strings is not modelled either: anything but `YYYY-MM-DDTHH:mm:ss.000Z` counts as invalid.
- FormatterProperties.ShiftedDateReadsBack: is stated only for years 0..9999 after the shift, as Calendar.DateTextRoundTrip.
- FormatterProperties.DeliveryDateReadsBack: its read-back clause is stated only for years 0..9999 after the shift, as Calendar.DateTextRoundTrip.
- FormatterProperties.StartDateShifted: is stated only for years 0..9999 after the shift, as Calendar.DateTextRoundTrip.
- FormatterProperties.EndDateShifted: is stated only for years 0..9999 after the shift, as Calendar.DateTextRoundTrip.
- FormatterProperties.DeliveryDateShifted: is stated only for years 0..9999 after the shift, as Calendar.DateTextRoundTrip.
- FormatterProperties.InstantOfPresent: is stated only for years 0..9999, as Calendar.DateTextRoundTrip.
- FormatterProperties.RowEventRange: its hours clause is stated only for start and end dates in years 0..9999, as Calendar.DateTextRoundTrip.
- FormatterProperties.EventRangeMinutes: is stated only for years 0..9999 and in terms of `HoursBetween` (truncated minutes over 60) on the re-read instants, not as a closed real-number formula.
- Concurrency is not modelled. The batch inserts are issued concurrently and awaited together. `Promise.all` rejects with the error that arrives first in time; the model takes the first failure in submission order. Statements still in flight when the rollback is issued are not modelled.
- JavaScript numbers are IEEE doubles; the model's integers are unbounded. Integers beyond 2^53 are not exact in the source, `${n}` switches to exponent notation from 1e21 on (JsValues.Render, JsValues.Decimal write plain digits for every integer), and moment reports `Invalid date` for instants beyond ±8.64e15 ms, the `+7 hours` shift included (Calendar.DateText, Calendar.TimeText render every integer instant). The model covers values inside those ranges only.
- Timing columns are integer milliseconds or absent. String or bigint column types are not modelled.
- Logging (`console.log`, `context.log`) is not modelled.

## Findings

| source | as written | input that shows it | evidently intended | confidence | as-written member | corrected member |
|---|---|---|---|---|---|---|
| MonitoringEvent/index.js:329-331 | The trailing `.catch((err) => { reject(err); })` runs outside the Promise executor, where `reject` is unbound. Every rejection of the inner promise therefore throws a ReferenceError, which replaces the warehouse error. | An upsert that fails with `deadlock` while the rollback succeeds. The expected rejection is `deadlock`; the caller receives a ReferenceError for `reject`. | Pass the original error on (no outer catch, or `throw err`). | high, not executed | Loader.LoadAsWritten (Loader.OuterCatchLosesCause, Loader.OuterCatchCounterexample) | Loader.Load (Loader.LoadRejectsWithCause) |
