/** The enriched monitoring-event record the formatter receives, and the flat
    row of warehouse literals it produces. */
module Records {
  import opened Wrappers
  import opened JsValues

  /** Division joined by the machine's unit division id. */
  datatype Division = Division(code: Value, name: Value)

  /** The unit object built from the machine's unit columns; its division is
      absent when the division lookup found no row. */
  datatype Unit = Unit(code: Value, name: Value, division: Option<Division>)

  /** A machine step; the machine query never selects one, so it is absent
      on every machine the join builds. */
  datatype Step = Step(process: Value, stepId: Value)

  /** Machine joined by the event's machine id. */
  datatype Machine = Machine(
    code: Value,
    condition: Value,
    manufacture: Value,
    name: Value,
    process: Value,
    year: Value,
    unit: Unit,
    step: Option<Step>)

  /** Buyer joined by the production order's buyer id. */
  datatype Buyer = Buyer(
    address: Value,
    code: Value,
    contact: Value,
    country: Value,
    name: Value,
    tempo: Value)

  /** Production order joined by the event's production order id. The
      wrappers `material`, `orderType`, `processType` and `uom` hold one
      column each and appear here as that column. The last five fields are
      read by the formatter but selected by no query, so the join leaves
      them Undefined. */
  datatype ProductionOrder = ProductionOrder(
    buyer: Option<Buyer>,
    deliveryDate: Option<int>,
    finishWidth: Value,
    handlingStandard: Value,
    materialName: Value,
    orderNo: Value,
    orderQuantity: Value,
    orderTypeName: Value,
    processTypeName: Value,
    remark: Value,
    run: Value,
    salesContractNo: Value,
    sample: Value,
    shrinkageStandard: Value,
    uomUnit: Value,
    construction: Value,
    design: Value,
    originGreigeFabric: Value,
    rollLength: Value,
    spelling: Value)

  /** Machine event joined by the event's machine-event id. */
  datatype MachineEvent = MachineEvent(no: Value, name: Value, category: Value)

  /** A monitoring event with its joins attached. `dateStart`, `dateEnd` are
      date columns (a Date object or null); `timeInMilisStart`,
      `timeInMilisEnd` are millisecond numbers (or null). */
  datatype MonitoringEvent = MonitoringEvent(
    cartNumber: Value,
    code: Value,
    dateStart: Option<int>,
    dateEnd: Option<int>,
    timeInMilisStart: Option<int>,
    timeInMilisEnd: Option<int>,
    remark: Value,
    createdBy: Value,
    isDeleted: Value,
    machine: Option<Machine>,
    productionOrder: Option<ProductionOrder>,
    machineEvent: Option<MachineEvent>)

  /** A date column is truthy when it holds a Date object. */
  predicate DateSet(d: Option<int>) {
    d.Some?
  }

  /** A millisecond column is truthy when it holds a non-zero number. */
  predicate MillisSet(t: Option<int>) {
    t.Some? && t.value != 0
  }

  /** A warehouse value literal: `null`, a value in single quotes, or a bare value. */
  datatype Literal<T> = Null | Quoted(value: T) | Bare(value: T)

  type Sql = Literal<string>

  /** The figure `eventRange` carries: a number of minutes divided by 60, or
      NaN when a start or end instant is invalid. */
  datatype Hours = Finite(hours: real) | NotANumber

  /** The formatted row, one literal per warehouse column, in the order the
      formatter writes them. */
  datatype Row = Row(
    cartNumber: Sql,
    monitoringEventCode: Sql,
    monitoringEventStartedDate: Sql,
    eventStartedTime: Sql,
    eventEndTime: Sql,
    monitoringEventEndDate: Sql,
    machineCode: Sql,
    machineCondition: Sql,
    machineManufacture: Sql,
    machineName: Sql,
    machineProcess: Sql,
    machineStepProcess: Sql,
    unitCode: Sql,
    divisionCode: Sql,
    divisionName: Sql,
    unitName: Sql,
    machineYear: Sql,
    productionOrderBuyerAddress: Sql,
    productionOrderBuyerCode: Sql,
    productionOrderBuyerContact: Sql,
    productionOrderBuyerCountry: Sql,
    productionOrderBuyerName: Sql,
    productionOrderBuyerTempo: Sql,
    productionOrderConstruction: Sql,
    productionOrderDeliveryDate: Sql,
    productionOrderProductionOrderDesign: Sql,
    productionOrderFinishWidth: Sql,
    productionOrderHandlingStandard: Sql,
    productionOrderMaterial: Sql,
    productionOrderOrderNo: Sql,
    productionOrderOrderQuantity: Sql,
    productionOrderOrderType: Sql,
    productionOrderOriginGreigeFabric: Sql,
    productionOrderProcessType: Sql,
    productionOrderRemark: Sql,
    productionOrderRollLength: Sql,
    productionOrderRun: Sql,
    productionOrderSalesContractNo: Sql,
    productionOrderSample: Sql,
    productionOrderShrinkageStandard: Sql,
    productionOrderSpelling: Sql,
    productionOrderUom: Sql,
    monitoringEventRemark: Sql,
    selectedProductionOrderDetailCode: Sql,
    selectedProductionOrderDetailColorRequest: Sql,
    selectedProductionOrderDetailColorTemplate: Sql,
    selectedProductionOrderDetailColorTypeCode: Sql,
    selectedProductionOrderDetailColorTypeName: Sql,
    selectedProductionOrderDetailColorTypeRemark: Sql,
    selectedProductionOrderDetailQuantity: Sql,
    selectedProductionOrderDetailUom: Sql,
    machineEventName: Sql,
    eventRange: Literal<Hours>,
    machineEventNo: Sql,
    createdBy: Sql,
    deleted: Sql,
    eventCategory: Sql)

  /** Every literal derived from the joined machine is the null marker. */
  predicate MachineNull(r: Row) {
    && r.machineCode.Null? && r.machineCondition.Null? && r.machineManufacture.Null?
    && r.machineName.Null? && r.machineProcess.Null? && r.machineStepProcess.Null?
    && r.unitCode.Null? && r.divisionCode.Null? && r.divisionName.Null?
    && r.unitName.Null? && r.machineYear.Null?
  }

  /** Every literal derived from the joined production order and its buyer is
      the null marker. */
  predicate ProductionOrderNull(r: Row) {
    && r.productionOrderBuyerAddress.Null? && r.productionOrderBuyerCode.Null?
    && r.productionOrderBuyerContact.Null? && r.productionOrderBuyerCountry.Null?
    && r.productionOrderBuyerName.Null? && r.productionOrderBuyerTempo.Null?
    && r.productionOrderConstruction.Null? && r.productionOrderDeliveryDate.Null?
    && r.productionOrderProductionOrderDesign.Null? && r.productionOrderFinishWidth.Null?
    && r.productionOrderHandlingStandard.Null? && r.productionOrderMaterial.Null?
    && r.productionOrderOrderNo.Null? && r.productionOrderOrderQuantity.Null?
    && r.productionOrderOrderType.Null? && r.productionOrderOriginGreigeFabric.Null?
    && r.productionOrderProcessType.Null? && r.productionOrderRemark.Null?
    && r.productionOrderRollLength.Null? && r.productionOrderRun.Null?
    && r.productionOrderSalesContractNo.Null? && r.productionOrderSample.Null?
    && r.productionOrderShrinkageStandard.Null? && r.productionOrderSpelling.Null?
    && r.productionOrderUom.Null?
  }

  /** Every literal derived from the joined machine event is the null marker. */
  predicate MachineEventNull(r: Row) {
    r.machineEventName.Null? && r.machineEventNo.Null? && r.eventCategory.Null?
  }

  /** The eight placeholders for a detail-level join the job does not perform
      are the null marker. */
  predicate SelectedDetailNull(r: Row) {
    && r.selectedProductionOrderDetailCode.Null?
    && r.selectedProductionOrderDetailColorRequest.Null?
    && r.selectedProductionOrderDetailColorTemplate.Null?
    && r.selectedProductionOrderDetailColorTypeCode.Null?
    && r.selectedProductionOrderDetailColorTypeName.Null?
    && r.selectedProductionOrderDetailColorTypeRemark.Null?
    && r.selectedProductionOrderDetailQuantity.Null?
    && r.selectedProductionOrderDetailUom.Null?
  }
}
