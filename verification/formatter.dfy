/** The record formatter: one enriched monitoring event to one row of
    warehouse literals, and the whole extract to the list of rows. */
module Formatter {
  import opened Wrappers
  import opened JsValues
  import opened Calendar
  import opened Records

  /** The TypeError the object literal throws, named by the field being built. */
  datatype FormatError = TypeError(field: string)

  /** `v ? '${v}' : null` */
  function QuoteTruthy(v: Value): Sql {
    if Truthy(v) then Quoted(Render(v)) else Null
  }

  /** A date column shifted by +7 hours and formatted `YYYY-MM-DD`, or null. */
  function ShiftedDate(d: Option<int>): Sql {
    if DateSet(d) then Quoted(DateText(d.value + SevenHours)) else Null
  }

  /** A millisecond column shifted by +7 hours and formatted `HH:mm:ss`, or null. */
  function ShiftedTime(t: Option<int>): Sql {
    if MillisSet(t) then Quoted(TimeText(t.value + SevenHours)) else Null
  }

  /** `moment(d).format("YYYY-MM-DD")`, unshifted. */
  function MomentDate(d: Option<int>): string {
    match d
    case None => InvalidDate
    case Some(t) => DateText(t)
  }

  /** `moment(t).format("HH:mm:ss")`, unshifted. */
  function MomentTime(t: Option<int>): string {
    match t
    case None => InvalidDate
    case Some(ms) => TimeText(ms)
  }

  /** The instant `moment(date + "T" + time + ".000Z")` denotes, if valid. */
  function InstantOf(date: Option<int>, time: Option<int>): Option<int> {
    ParseInstant(MomentDate(date) + "T" + MomentTime(time) + ".000Z")
  }

  /** Integer division rounding toward zero, as moment's `diff(…, "minutes")`. */
  function TruncDiv(a: int, b: int): int
    requires b > 0
  {
    if a >= 0 then a / b else -((-a) / b)
  }

  /** `getOperationRange`: the minute count divided by 60. */
  function OperationRange(minutes: int): Hours {
    Finite(minutes as real / 60.0)
  }

  /** `getOperationRange(moment(end).diff(moment(start), "minutes"))`: NaN
      when either instant is invalid. */
  function HoursBetween(start: Option<int>, end: Option<int>): Hours {
    if start.Some? && end.Some? then OperationRange(TruncDiv(end.value - start.value, MsPerMinute))
    else NotANumber
  }

  /** The fields whose building throws when the joined machine lacks them. */
  predicate MachineShaped(m: Machine) {
    m.name.Text? && m.process.Text? && m.unit.division.Some?
  }

  predicate ProductionOrderShaped(p: ProductionOrder) {
    p.buyer.Some? && p.buyer.value.name.Text?
  }

  predicate MachineEventShaped(me: MachineEvent) {
    Truthy(me.name) ==> me.name.Text?
  }

  /** The record can be formatted without a TypeError: every `.replace` is
      applied to a string, and every nested object dereferenced is present. */
  predicate WellShaped(e: MonitoringEvent) {
    && (e.machine.Some? ==> MachineShaped(e.machine.value))
    && (e.productionOrder.Some? ==> ProductionOrderShaped(e.productionOrder.value))
    && (Truthy(e.remark) ==> e.remark.Text?)
    && (e.machineEvent.Some? ==> MachineEventShaped(e.machineEvent.value))
  }

  /** The field at which building the object literal first throws. */
  function FirstFault(e: MonitoringEvent): Option<string> {
    if e.machine.Some? && !e.machine.value.name.Text? then Some("machineName")
    else if e.machine.Some? && !e.machine.value.process.Text? then Some("machineProcess")
    else if e.machine.Some? && e.machine.value.unit.division.None? then Some("divisionCode")
    else if e.productionOrder.Some? && e.productionOrder.value.buyer.None? then Some("productionOrderBuyerAddress")
    else if e.productionOrder.Some? && !e.productionOrder.value.buyer.value.name.Text? then Some("productionOrderBuyerName")
    else if Truthy(e.remark) && !e.remark.Text? then Some("monitoringEventRemark")
    else if e.machineEvent.Some? && Truthy(e.machineEvent.value.name) && !e.machineEvent.value.name.Text? then Some("machineEventName")
    else None
  }

  /** The object literal of the formatter, for a record on which it does not throw. */
  function BuildRow(e: MonitoringEvent): Row
    requires WellShaped(e)
  {
    var m := e.machine;
    var p := e.productionOrder;
    var me := e.machineEvent;
    var hasM := m.Some?;
    var hasP := p.Some?;
    Row(
      cartNumber := QuoteTruthy(e.cartNumber),
      monitoringEventCode := QuoteTruthy(e.code),
      monitoringEventStartedDate := ShiftedDate(e.dateStart),
      eventStartedTime := ShiftedTime(e.timeInMilisStart),
      eventEndTime := ShiftedTime(e.timeInMilisEnd),
      monitoringEventEndDate := ShiftedDate(e.dateEnd),
      machineCode := if hasM then Quoted(Render(m.value.code)) else Null,
      machineCondition := if hasM then Quoted(Render(m.value.condition)) else Null,
      machineManufacture := if hasM then Quoted(Render(m.value.manufacture)) else Null,
      machineName := if hasM then Quoted(Escape(m.value.name.s)) else Null,
      machineProcess := if hasM then Quoted(Escape(m.value.process.s)) else Null,
      machineStepProcess :=
        if hasM && m.value.step.Some? && Truthy(m.value.step.value.process)
        then Quoted(Render(m.value.step.value.stepId)) else Null,
      unitCode := if hasM && Truthy(m.value.unit.code) then Quoted(Render(m.value.unit.code)) else Null,
      divisionCode := if hasM then Quoted(Render(m.value.unit.division.value.code)) else Null,
      divisionName := if hasM then Quoted(Render(m.value.unit.division.value.name)) else Null,
      unitName := if hasM then Quoted(Render(m.value.unit.name)) else Null,
      machineYear := if hasM then Bare(Render(m.value.year)) else Null,
      productionOrderBuyerAddress := if hasP then Quoted(Render(p.value.buyer.value.address)) else Null,
      productionOrderBuyerCode := if hasP then Quoted(Render(p.value.buyer.value.code)) else Null,
      productionOrderBuyerContact := if hasP then Quoted(Render(p.value.buyer.value.contact)) else Null,
      productionOrderBuyerCountry := if hasP then Quoted(Render(p.value.buyer.value.country)) else Null,
      productionOrderBuyerName := if hasP then Quoted(Escape(p.value.buyer.value.name.s)) else Null,
      productionOrderBuyerTempo := if hasP then Quoted(Render(p.value.buyer.value.tempo)) else Null,
      productionOrderConstruction := if hasP && Truthy(p.value.construction) then Quoted(Render(p.value.construction)) else Null,
      productionOrderDeliveryDate := DeliveryDate(p),
      productionOrderProductionOrderDesign := if hasP && Truthy(p.value.design) then Quoted(Render(p.value.design)) else Null,
      productionOrderFinishWidth := if hasP then Quoted(Render(p.value.finishWidth)) else Null,
      productionOrderHandlingStandard := if hasP then Quoted(Render(p.value.handlingStandard)) else Null,
      productionOrderMaterial := if hasP then Quoted(Render(p.value.materialName)) else Null,
      productionOrderOrderNo := if hasP then Quoted(Render(p.value.orderNo)) else Null,
      productionOrderOrderQuantity := if hasP then Quoted(Render(p.value.orderQuantity)) else Null,
      productionOrderOrderType := if hasP then Quoted(Render(p.value.orderTypeName)) else Null,
      productionOrderOriginGreigeFabric :=
        if hasP && Truthy(p.value.originGreigeFabric) then Quoted(Render(p.value.originGreigeFabric)) else Null,
      productionOrderProcessType := if hasP then Quoted(Render(p.value.processTypeName)) else Null,
      productionOrderRemark := if hasP then Quoted(Render(p.value.remark)) else Null,
      productionOrderRollLength := if hasP && Truthy(p.value.rollLength) then Quoted(Render(p.value.rollLength)) else Null,
      productionOrderRun := if hasP then Quoted(Render(p.value.run)) else Null,
      productionOrderSalesContractNo := if hasP then Quoted(Render(p.value.salesContractNo)) else Null,
      productionOrderSample := if hasP then Quoted(Render(p.value.sample)) else Null,
      productionOrderShrinkageStandard := if hasP then Quoted(Render(p.value.shrinkageStandard)) else Null,
      productionOrderSpelling := if hasP && Truthy(p.value.spelling) then Bare(Render(p.value.spelling)) else Null,
      productionOrderUom := if hasP then Quoted(Render(p.value.uomUnit)) else Null,
      monitoringEventRemark := if Truthy(e.remark) then Quoted(Escape(e.remark.s)) else Null,
      selectedProductionOrderDetailCode := Null,
      selectedProductionOrderDetailColorRequest := Null,
      selectedProductionOrderDetailColorTemplate := Null,
      selectedProductionOrderDetailColorTypeCode := Null,
      selectedProductionOrderDetailColorTypeName := Null,
      selectedProductionOrderDetailColorTypeRemark := Null,
      selectedProductionOrderDetailQuantity := Null,
      selectedProductionOrderDetailUom := Null,
      machineEventName := if me.Some? && Truthy(me.value.name) then Quoted(Escape(me.value.name.s)) else Null,
      eventRange := EventRange(e.dateEnd, InstantOf(e.dateStart, e.timeInMilisStart),
                               InstantOf(e.dateEnd, e.timeInMilisEnd)),
      machineEventNo := if me.Some? && Truthy(me.value.no) then Quoted(Escape(Render(me.value.no))) else Null,
      createdBy := Quoted(Render(e.createdBy)),
      deleted := Quoted(Render(e.isDeleted)),
      eventCategory := if me.Some? && Truthy(me.value.category) then Quoted(Render(me.value.category)) else Null)
  }

  /** `eventRange`: guarded by dateEnd alone, computed from the start and
      end instants. */
  function EventRange(dateEnd: Option<int>, start: Option<int>, end: Option<int>): Literal<Hours> {
    if DateSet(dateEnd) then Quoted(HoursBetween(start, end)) else Null
  }

  /** `productionOrderDeliveryDate`: guarded by the production order alone. */
  function DeliveryDate(p: Option<ProductionOrder>): Sql {
    if p.Some? then Quoted(MomentDate(ShiftOption(p.value.deliveryDate))) else Null
  }

  /** `moment(d).add(7, "hours")`: a null date stays invalid. */
  function ShiftOption(d: Option<int>): Option<int> {
    match d
    case None => None
    case Some(t) => Some(t + SevenHours)
  }

  /** One record through the formatter's `map` callback. */
  function Format(e: MonitoringEvent): (r: Result<Row, FormatError>)
    ensures r.Success? <==> WellShaped(e)
    ensures r.Failure? ==> FirstFault(e) == Some(r.error.field)
  {
    match FirstFault(e)
    case Some(field) => Failure(TypeError(field))
    case None => Success(BuildRow(e))
  }

  /** A `map` whose callback may throw: every result in order, or the error
      of the first callback that threw. */
  function Collect<R, E>(results: seq<Result<R, E>>): (r: Result<seq<R>, E>)
    ensures r.Success? <==> forall i :: 0 <= i < |results| ==> results[i].Success?
    ensures r.Success? ==> |r.value| == |results|
    ensures r.Success? ==> forall i :: 0 <= i < |results| ==> results[i] == Success(r.value[i])
    ensures r.Failure? ==>
      exists k :: 0 <= k < |results| && results[k] == Failure(r.error)
                  && forall j :: 0 <= j < k ==> results[j].Success?
    decreases |results|
  {
    if |results| == 0 then Success([])
    else
      match results[0]
      case Failure(err) => Failure(err)
      case Success(row) =>
        match Collect(results[1..])
        case Failure(err) => Failure(err)
        case Success(rows) => Success([row] + rows)
  }

  /** `transform`: one row per record, in order, unless some record throws.
      The flattening `[].concat.apply([], result)` is the identity here
      because no element of the mapped list is itself a list. */
  function Transform(events: seq<MonitoringEvent>): (r: Result<seq<Row>, FormatError>)
    ensures r.Success? <==> forall i :: 0 <= i < |events| ==> WellShaped(events[i])
    ensures r.Success? ==> |r.value| == |events|
    ensures r.Success? ==> forall i :: 0 <= i < |events| ==> Format(events[i]) == Success(r.value[i])
    ensures r.Failure? ==>
      exists k :: 0 <= k < |events| && Format(events[k]) == Failure(r.error)
                  && forall j :: 0 <= j < k ==> WellShaped(events[j])
  {
    var results := seq(|events|, i requires 0 <= i < |events| => Format(events[i]));
    assert forall i :: 0 <= i < |events| ==> (results[i].Success? <==> WellShaped(events[i]));
    Collect(results)
  }
}
