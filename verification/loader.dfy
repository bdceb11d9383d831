/** `load` and the pipeline around it: each formatted row becomes the value
    tuple of one INSERT into the staging table, the tuples are cut into
    batches of 1000, and the batches run inside one warehouse transaction. */
module Loader {
  import opened Wrappers
  import opened Records
  import opened Formatter
  import opened Batching
  import opened Transaction

  /** One value of an INSERT: a text literal, or the eventRange figure. */
  datatype Cell = Value(sql: Sql) | RangeValue(range: Literal<Hours>)

  /** The staging table's columns, in the order the INSERT names them. */
  const InsertColumns: seq<string> := [
    "cartNumber", "monitoringEventCode", "monitoringEventStartedDate", "eventStartedTime",
    "monitoringEventEndDate", "eventEndTime", "machineCode", "machineName", "machineProcess",
    "machineStepProcess", "unitCode", "divisionCode", "divisionName", "unitName",
    "productionOrderBuyerName", "productionOrderConstruction", "productionOrderDetailCode",
    "productionOrderDetailColorRequest", "productionOrderDetailColorTemplate",
    "productionOrderDetailColorTypeName", "productionOrderOrderType", "productionOrderProcessType",
    "productionOrderSalesContractNo", "monitoringEventRemark", "selectedProductionOrderDetailCode",
    "selectedProductionOrderDetailColorRequest", "selectedProductionOrderDetailColorTemplate",
    "selectedProductionOrderDetailColorTypeName", "machineEventName", "eventRange",
    "productionOrderOrderNo", "machineEventNo", "createdBy", "deleted", "eventCategory"]

  /** The INSERT's value tuple for one row. The four `productionOrderDetail…`
      columns take the row's `selectedProductionOrderDetail…` literals, as the
      statement spells them. */
  function InsertValues(r: Row): seq<Cell> {
    [Value(r.cartNumber), Value(r.monitoringEventCode), Value(r.monitoringEventStartedDate),
     Value(r.eventStartedTime), Value(r.monitoringEventEndDate), Value(r.eventEndTime),
     Value(r.machineCode), Value(r.machineName), Value(r.machineProcess), Value(r.machineStepProcess),
     Value(r.unitCode), Value(r.divisionCode), Value(r.divisionName), Value(r.unitName),
     Value(r.productionOrderBuyerName), Value(r.productionOrderConstruction),
     Value(r.selectedProductionOrderDetailCode), Value(r.selectedProductionOrderDetailColorRequest),
     Value(r.selectedProductionOrderDetailColorTemplate), Value(r.selectedProductionOrderDetailColorTypeName),
     Value(r.productionOrderOrderType), Value(r.productionOrderProcessType),
     Value(r.productionOrderSalesContractNo), Value(r.monitoringEventRemark),
     Value(r.selectedProductionOrderDetailCode), Value(r.selectedProductionOrderDetailColorRequest),
     Value(r.selectedProductionOrderDetailColorTemplate), Value(r.selectedProductionOrderDetailColorTypeName),
     Value(r.machineEventName), RangeValue(r.eventRange), Value(r.productionOrderOrderNo),
     Value(r.machineEventNo), Value(r.createdBy), Value(r.deleted), Value(r.eventCategory)]
  }

  /** One value per column; eventRange is the only value that is not a text literal. */
  lemma InsertShape(r: Row)
    ensures |InsertValues(r)| == |InsertColumns| == 35
    ensures InsertColumns[29] == "eventRange" && InsertValues(r)[29] == RangeValue(r.eventRange)
    ensures forall i :: 0 <= i < 35 && i != 29 ==> InsertValues(r)[i].Value?
  {
  }

  /** The four `productionOrderDetail…` columns (16 to 19) and the four
      `selectedProductionOrderDetail…` columns (24 to 27) are written as NULL
      whenever the selected-detail placeholders are, as they are in every
      formatted row. */
  lemma DetailColumnsNull(r: Row)
    requires SelectedDetailNull(r)
    ensures forall k :: 16 <= k < 20 || 24 <= k < 28 ==> InsertValues(r)[k] == Value(Null)
  {
  }

  /** The row fields the INSERT does not name never reach the warehouse:
      replacing all of them leaves the value tuple unchanged. */
  lemma UnwrittenFieldsIgnored(r: Row, other: Row)
    ensures InsertValues(r.(machineCondition := other.machineCondition,
                            machineManufacture := other.machineManufacture,
                            machineYear := other.machineYear,
                            productionOrderBuyerAddress := other.productionOrderBuyerAddress,
                            productionOrderBuyerCode := other.productionOrderBuyerCode,
                            productionOrderBuyerContact := other.productionOrderBuyerContact,
                            productionOrderBuyerCountry := other.productionOrderBuyerCountry,
                            productionOrderBuyerTempo := other.productionOrderBuyerTempo,
                            productionOrderDeliveryDate := other.productionOrderDeliveryDate,
                            productionOrderProductionOrderDesign := other.productionOrderProductionOrderDesign,
                            productionOrderFinishWidth := other.productionOrderFinishWidth,
                            productionOrderHandlingStandard := other.productionOrderHandlingStandard,
                            productionOrderMaterial := other.productionOrderMaterial,
                            productionOrderOrderQuantity := other.productionOrderOrderQuantity,
                            productionOrderOriginGreigeFabric := other.productionOrderOriginGreigeFabric,
                            productionOrderRemark := other.productionOrderRemark,
                            productionOrderRollLength := other.productionOrderRollLength,
                            productionOrderRun := other.productionOrderRun,
                            productionOrderSample := other.productionOrderSample,
                            productionOrderShrinkageStandard := other.productionOrderShrinkageStandard,
                            productionOrderSpelling := other.productionOrderSpelling,
                            productionOrderUom := other.productionOrderUom,
                            selectedProductionOrderDetailColorTypeCode := other.selectedProductionOrderDetailColorTypeCode,
                            selectedProductionOrderDetailColorTypeRemark := other.selectedProductionOrderDetailColorTypeRemark,
                            selectedProductionOrderDetailQuantity := other.selectedProductionOrderDetailQuantity,
                            selectedProductionOrderDetailUom := other.selectedProductionOrderDetailUom))
            == InsertValues(r)
  {
  }

  /** The value tuples of one batch, in row order. */
  function BatchStatements(batch: seq<Row>): (r: seq<seq<Cell>>)
    ensures |r| == |batch| && forall j :: 0 <= j < |batch| ==> r[j] == InsertValues(batch[j])
  {
    seq(|batch|, j requires 0 <= j < |batch| => InsertValues(batch[j]))
  }

  /** What one `load` did: the statements of each batch, how it settled, and
      the requests it sent. */
  datatype Loaded = Loaded(batches: seq<seq<seq<Cell>>>, outcome: Result<seq<Meta>, Error>, calls: seq<Call>)

  /** `load(data)`: batch the present rows, then run the transaction over the batches. */
  function Load(w: Warehouse, rows: seq<Option<Row>>): Loaded {
    var chunks := Chunks(Present(rows), BatchSize);
    var run := Run(w, |chunks|);
    Loaded(seq(|chunks|, i requires 0 <= i < |chunks| => BatchStatements(chunks[i])), run.0, run.1)
  }

  lemma FlattenStatements(chunks: seq<seq<Row>>)
    ensures Flatten(seq(|chunks|, i requires 0 <= i < |chunks| => BatchStatements(chunks[i])))
              == BatchStatements(Flatten(chunks))
  {
    if |chunks| > 0 {
      var tail := seq(|chunks| - 1, i requires 0 <= i < |chunks| - 1 => BatchStatements(chunks[1..][i]));
      assert seq(|chunks|, i requires 0 <= i < |chunks| => BatchStatements(chunks[i]))[1..] == tail;
      FlattenStatements(chunks[1..]);
      assert BatchStatements(Flatten(chunks)) == BatchStatements(chunks[0]) + BatchStatements(Flatten(chunks[1..]));
    }
  }

  /** Every present row is written exactly once, in order, and every batch but
      the last holds 1000 statements; there are `ceil(rows / 1000)` batches. */
  lemma LoadWritesEveryRow(w: Warehouse, rows: seq<Option<Row>>)
    ensures Flatten(Load(w, rows).batches) == BatchStatements(Present(rows))
    ensures WellCut(Load(w, rows).batches, BatchSize)
    ensures |Load(w, rows).batches| == (|Present(rows)| + BatchSize - 1) / BatchSize
  {
    var chunks := Chunks(Present(rows), BatchSize);
    FlattenStatements(chunks);
    ChunksFlatten(Present(rows), BatchSize);
    ChunksShape(Present(rows), BatchSize);
    BatchCount(Present(rows));
  }

  /** The load resolves exactly when the transaction opens, every batch, the
      upsert and the commit succeed, and then with one result per batch; a
      batch is submitted for every batch cut, right after the transaction opens. */
  lemma LoadOutcome(w: Warehouse, rows: seq<Option<Row>>)
    ensures var n := |Load(w, rows).batches|;
            Load(w, rows).outcome.Success? <==>
              w.begin.Ok? && (forall i :: 0 <= i < n ==> w.insert(i).Ok?) && w.upsert.Ok? && w.commit.Ok?
    ensures Load(w, rows).outcome.Success? ==> |Load(w, rows).outcome.value| == |Load(w, rows).batches|
    ensures w.begin.Ok? ==> var n := |Load(w, rows).batches|;
              |Load(w, rows).calls| > n + 1 && Load(w, rows).calls[..n + 1] == [Begin] + Inserts(n)
  {
    var n := |Load(w, rows).batches|;
    SuccessExactlyWhenAllSucceed(w, n);
    if w.begin.Ok? {
      AllBatchesSubmitted(w, n);
    }
  }

  /** Why the promise `load` returns rejects: an error raised by the warehouse,
      or a ReferenceError thrown by JavaScript for an unbound identifier. */
  datatype Rejection = Raised(error: Error) | ReferenceError(identifier: string)

  /** `load` as written: the promise built at lines 265-328 is followed by a
      `.catch` whose handler calls `reject`, which is not in scope there, so
      every rejection is replaced by a ReferenceError for `reject`. */
  function LoadAsWritten(w: Warehouse, rows: seq<Option<Row>>): (Result<seq<Meta>, Rejection>, seq<Call>) {
    var loaded := Load(w, rows);
    (if loaded.outcome.Success? then Success(loaded.outcome.value) else Failure(ReferenceError("reject")),
     loaded.calls)
  }

  /** As written, a rejected load never reports the warehouse's error: it
      always reports the unbound `reject`, whatever failed. */
  lemma OuterCatchLosesCause(w: Warehouse, rows: seq<Option<Row>>)
    ensures LoadAsWritten(w, rows).0.Success? <==> Load(w, rows).outcome.Success?
    ensures LoadAsWritten(w, rows).0.Failure? ==> LoadAsWritten(w, rows).0.error == ReferenceError("reject")
    ensures LoadAsWritten(w, rows).1 == Load(w, rows).calls
  {
  }

  /** A failing upsert: the corrected load reports the upsert's error, the
      code as written reports `reject` instead. */
  lemma OuterCatchCounterexample()
    ensures var w := Accepting().(upsert := Fail("deadlock"));
            && Load(w, []).outcome == Failure("deadlock")
            && LoadAsWritten(w, []).0 == Failure(ReferenceError("reject"))
  {
    var w := Accepting().(upsert := Fail("deadlock"));
    RunMatchesExpected(w, 0);
    assert Replies(w, 0) == [];
  }

  /** The corrected load rejects with the error of what failed: the failed
      rollback's own error, else the first failed batch's or the upsert's,
      else the commit's, else the opening's. */
  lemma LoadRejectsWithCause(w: Warehouse, rows: seq<Option<Row>>)
    requires Load(w, rows).outcome.Failure?
    ensures var e, n := Load(w, rows).outcome.error, |Load(w, rows).batches|;
            if w.begin.Fail? then e == w.begin.error
            else if (exists i :: 0 <= i < n && w.insert(i).Fail?) || w.upsert.Fail? then
              (w.rollback.Fail? ==> e == w.rollback.error)
              && (w.rollback.Ok? && (exists i :: 0 <= i < n && w.insert(i).Fail?) ==>
                    exists i :: 0 <= i < n && w.insert(i) == Fail(e) && forall j :: 0 <= j < i ==> w.insert(j).Ok?)
              && (w.rollback.Ok? && (forall i :: 0 <= i < n ==> w.insert(i).Ok?) ==> e == w.upsert.error)
            else w.commit == Fail(e)
  {
    RejectionCause(w, |Load(w, rows).batches|);
  }

  /** A warehouse that accepts everything. */
  function Accepting(): Warehouse {
    Warehouse(Ok(""), _ => Ok(""), Ok(""), Ok(""), Ok(""))
  }

  /** 2500 present rows: three inserts, then the upsert and the commit. */
  lemma TwoThousandFiveHundredRowsLoad(rows: seq<Row>)
    requires |rows| == 2500
    ensures Load(Accepting(), seq(2500, i requires 0 <= i < 2500 => Some(rows[i]))).calls
              == [Begin, Insert(0), Insert(1), Insert(2), Upsert, Commit]
  {
    var items := seq(2500, i requires 0 <= i < 2500 => Some(rows[i]));
    AllPresent(rows);
    assert items == Somes(rows);
    TwoThousandFiveHundredRows(rows);
    RunMatchesExpected(Accepting(), 3);
    assert Inserts(3) == [Insert(0), Insert(1), Insert(2)];
  }

  /** Each row wrapped as a present entry. */
  function Somes(rows: seq<Row>): (r: seq<Option<Row>>)
    ensures |r| == |rows| && forall i :: 0 <= i < |rows| ==> r[i] == Some(rows[i])
  {
    seq(|rows|, i requires 0 <= i < |rows| => Some(rows[i]))
  }

  /** Formatted rows are objects, so `if (item)` keeps them all. */
  lemma {:induction false} AllPresent(rows: seq<Row>)
    ensures Present(Somes(rows)) == rows
  {
    if |rows| > 0 {
      var init := rows[..|rows| - 1];
      assert Somes(rows)[..|rows| - 1] == Somes(init);
      AllPresent(init);
      assert rows == init + [rows[|rows| - 1]];
    }
  }

  /** A failure of the whole run: a record the formatter throws on, or the
      warehouse error `load` rejects with. */
  datatype RunError = Formatting(cause: FormatError) | Loading(error: Error)

  /** `extractMonitoringEvent().then(transform).then(load)` after extraction:
      a formatter error skips the load entirely. */
  function Pipeline(w: Warehouse, events: seq<MonitoringEvent>): (Result<seq<Meta>, RunError>, seq<Call>) {
    match Transform(events)
    case Failure(e) => (Failure(Formatting(e)), [])
    case Success(rows) =>
      var loaded := Load(w, Somes(rows));
      (if loaded.outcome.Success? then Success(loaded.outcome.value) else Failure(Loading(loaded.outcome.error)),
       loaded.calls)
  }

  /** A record the formatter throws on means no warehouse request at all:
      the transaction is never opened. */
  lemma PipelineFormattingFailure(w: Warehouse, events: seq<MonitoringEvent>)
    requires exists i :: 0 <= i < |events| && !WellShaped(events[i])
    ensures Pipeline(w, events).1 == []
    ensures Pipeline(w, events).0.Failure? && Pipeline(w, events).0.error.Formatting?
  {
  }

  /** Loading n formatted rows cuts `ceil(n / 1000)` batches. */
  lemma RowsBatchCount(w: Warehouse, rows: seq<Row>)
    ensures |Load(w, Somes(rows)).batches| == (|rows| + BatchSize - 1) / BatchSize
  {
    AllPresent(rows);
    LoadWritesEveryRow(w, Somes(rows));
  }

  /** Loading formatted rows into an open transaction submits one insert per
      started thousand rows, right after opening it. */
  lemma RowsInserted(w: Warehouse, rows: seq<Row>)
    requires w.begin.Ok?
    ensures var n := (|rows| + BatchSize - 1) / BatchSize;
            |Load(w, Somes(rows)).calls| > n + 1 && Load(w, Somes(rows)).calls[..n + 1] == [Begin] + Inserts(n)
  {
    RowsBatchCount(w, rows);
    LoadOutcome(w, Somes(rows));
  }

  /** With every record well shaped, one insert per started thousand records
      follows the opening of the transaction. */
  lemma PipelineInserts(w: Warehouse, events: seq<MonitoringEvent>)
    requires forall i :: 0 <= i < |events| ==> WellShaped(events[i])
    requires w.begin.Ok?
    ensures var n := (|events| + BatchSize - 1) / BatchSize;
            |Pipeline(w, events).1| > n + 1 && Pipeline(w, events).1[..n + 1] == [Begin] + Inserts(n)
  {
    var t := Transform(events);
    var rows := t.value;
    RowsInserted(w, rows);
  }

  /** The run succeeds exactly when every record is well shaped and the
      warehouse answers every request Ok. */
  lemma PipelineSuccess(w: Warehouse, events: seq<MonitoringEvent>)
    ensures Pipeline(w, events).0.Success? <==>
              && (forall i :: 0 <= i < |events| ==> WellShaped(events[i]))
              && w.begin.Ok? && w.upsert.Ok? && w.commit.Ok?
              && forall i :: 0 <= i < (|events| + BatchSize - 1) / BatchSize ==> w.insert(i).Ok?
  {
    var t := Transform(events);
    if t.Success? {
      RowsBatchCount(w, t.value);
      LoadOutcome(w, Somes(t.value));
    }
  }

  /** One record, one batch: the transaction opens, inserts once, upserts and commits. */
  lemma OneRecordLoad(row: Row)
    ensures Load(Accepting(), [Some(row)]).calls == [Begin, Insert(0), Upsert, Commit]
    ensures Load(Accepting(), [Some(row)]).outcome == Success([""])
  {
    assert Present([Some(row)]) == [row] by {
      assert [Some(row)][..0] == [];
    }
    RunMatchesExpected(Accepting(), 1);
    assert Inserts(1) == [Insert(0)];
    assert Metas(Replies(Accepting(), 1)) == [""];
  }
}
