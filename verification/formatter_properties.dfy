/** What the formatter promises about the rows it builds: null markers for
    absent joins and falsy values, quote replacement, constant fields, the
    +7 hour shift and the eventRange figure. */
module FormatterProperties {
  import opened Wrappers
  import opened JsValues
  import opened Calendar
  import opened Records
  import opened Formatter

  /** Literal l is the quote-replaced source text src, wrapped in single quotes. */
  predicate EscapedFrom(l: Sql, src: string) {
    && l.Quoted?
    && |l.value| == |src|
    && '\'' !in l.value
    && forall i :: 0 <= i < |src| ==> l.value[i] == (if src[i] == '\'' then '"' else src[i])
  }

  /** Instant t lies in a year moment renders with four plain digits. */
  predicate FourDigitYear(t: int) {
    0 <= CivilFromDays(DayNumber(t)).year <= 9999
  }

  /** A record whose joins are all absent formats without error as soon as
      its remark is a string or falsy; the absent joins never throw. */
  lemma AbsentJoinsNeverThrow(e: MonitoringEvent)
    requires e.machine.None? && e.productionOrder.None? && e.machineEvent.None?
    ensures Format(e).Success? <==> (Truthy(e.remark) ==> e.remark.Text?)
  {
  }

  /** Every field derived from an absent join is the null marker. */
  lemma AbsentMachineIsNull(e: MonitoringEvent)
    requires Format(e).Success? && e.machine.None?
    ensures MachineNull(Format(e).value)
  {
  }

  lemma AbsentProductionOrderIsNull(e: MonitoringEvent)
    requires Format(e).Success? && e.productionOrder.None?
    ensures ProductionOrderNull(Format(e).value)
  {
  }

  lemma AbsentMachineEventIsNull(e: MonitoringEvent)
    requires Format(e).Success? && e.machineEvent.None?
    ensures MachineEventNull(Format(e).value)
  {
  }

  /** cartNumber and code are null exactly when falsy (the empty string
      included), and otherwise the value wrapped verbatim in single quotes,
      without quote replacement. */
  lemma NullMarkerRule(e: MonitoringEvent)
    requires Format(e).Success?
    ensures Format(e).value.cartNumber.Null? <==> !Truthy(e.cartNumber)
    ensures Truthy(e.cartNumber) ==> Format(e).value.cartNumber == Quoted(Render(e.cartNumber))
    ensures Format(e).value.monitoringEventCode.Null? <==> !Truthy(e.code)
    ensures Truthy(e.code) ==> Format(e).value.monitoringEventCode == Quoted(Render(e.code))
    ensures e.cartNumber == Text("") ==> Format(e).value.cartNumber.Null?
  {
  }

  /** A present machine renders every machine column, quoted, except the
      year, which is bare; name and process are quote-replaced, and the unit
      code is null when falsy. */
  lemma PresentMachineRendered(e: MonitoringEvent)
    requires Format(e).Success? && e.machine.Some?
    ensures var r, m := Format(e).value, e.machine.value;
            && r.machineCode == Quoted(Render(m.code))
            && r.machineCondition == Quoted(Render(m.condition))
            && r.machineManufacture == Quoted(Render(m.manufacture))
            && r.divisionCode == Quoted(Render(m.unit.division.value.code))
            && r.divisionName == Quoted(Render(m.unit.division.value.name))
            && r.unitName == Quoted(Render(m.unit.name))
            && r.machineYear == Bare(Render(m.year))
            && (r.unitCode.Null? <==> !Truthy(m.unit.code))
            && (Truthy(m.unit.code) ==> r.unitCode == Quoted(Render(m.unit.code)))
  {
  }

  /** A present production order renders each of its own unguarded columns
      as the source value in single quotes, whatever the value, falsy ones
      included. */
  lemma PresentProductionOrderRendered(e: MonitoringEvent)
    requires Format(e).Success? && e.productionOrder.Some?
    ensures var r, p := Format(e).value, e.productionOrder.value;
            && r.productionOrderFinishWidth == Quoted(Render(p.finishWidth))
            && r.productionOrderHandlingStandard == Quoted(Render(p.handlingStandard))
            && r.productionOrderMaterial == Quoted(Render(p.materialName))
            && r.productionOrderOrderNo == Quoted(Render(p.orderNo))
            && r.productionOrderOrderQuantity == Quoted(Render(p.orderQuantity))
            && r.productionOrderOrderType == Quoted(Render(p.orderTypeName))
            && r.productionOrderProcessType == Quoted(Render(p.processTypeName))
            && r.productionOrderRemark == Quoted(Render(p.remark))
            && r.productionOrderRun == Quoted(Render(p.run))
            && r.productionOrderSalesContractNo == Quoted(Render(p.salesContractNo))
            && r.productionOrderSample == Quoted(Render(p.sample))
            && r.productionOrderShrinkageStandard == Quoted(Render(p.shrinkageStandard))
            && r.productionOrderUom == Quoted(Render(p.uomUnit))
  {
  }

  /** A present production order renders each guarded column as null
      exactly when its value is falsy, and otherwise as the value in single
      quotes; spelling is written bare. */
  lemma PresentProductionOrderGuarded(e: MonitoringEvent)
    requires Format(e).Success? && e.productionOrder.Some?
    ensures var r, p := Format(e).value, e.productionOrder.value;
            && (r.productionOrderConstruction.Null? <==> !Truthy(p.construction))
            && (Truthy(p.construction) ==> r.productionOrderConstruction == Quoted(Render(p.construction)))
            && (r.productionOrderProductionOrderDesign.Null? <==> !Truthy(p.design))
            && (Truthy(p.design) ==> r.productionOrderProductionOrderDesign == Quoted(Render(p.design)))
            && (r.productionOrderOriginGreigeFabric.Null? <==> !Truthy(p.originGreigeFabric))
            && (Truthy(p.originGreigeFabric) ==> r.productionOrderOriginGreigeFabric == Quoted(Render(p.originGreigeFabric)))
            && (r.productionOrderRollLength.Null? <==> !Truthy(p.rollLength))
            && (Truthy(p.rollLength) ==> r.productionOrderRollLength == Quoted(Render(p.rollLength)))
            && (r.productionOrderSpelling.Null? <==> !Truthy(p.spelling))
            && (Truthy(p.spelling) ==> r.productionOrderSpelling == Bare(Render(p.spelling)))
  {
  }

  /** A present production order renders its buyer's columns, quoted. */
  lemma PresentBuyerRendered(e: MonitoringEvent)
    requires Format(e).Success? && e.productionOrder.Some?
    ensures var r, b := Format(e).value, e.productionOrder.value.buyer.value;
            && r.productionOrderBuyerAddress == Quoted(Render(b.address))
            && r.productionOrderBuyerCode == Quoted(Render(b.code))
            && r.productionOrderBuyerContact == Quoted(Render(b.contact))
            && r.productionOrderBuyerCountry == Quoted(Render(b.country))
            && r.productionOrderBuyerTempo == Quoted(Render(b.tempo))
  {
  }

  /** The six replaced fields: no single quote is left, the length is the
      source length, and each single quote became a double quote. */
  lemma QuoteReplacedFields(e: MonitoringEvent)
    requires Format(e).Success?
    ensures var r := Format(e).value;
            && (e.machine.Some? ==> EscapedFrom(r.machineName, e.machine.value.name.s))
            && (e.machine.Some? ==> EscapedFrom(r.machineProcess, e.machine.value.process.s))
            && (e.productionOrder.Some? ==>
                  EscapedFrom(r.productionOrderBuyerName, e.productionOrder.value.buyer.value.name.s))
            && (Truthy(e.remark) ==> EscapedFrom(r.monitoringEventRemark, e.remark.s))
            && (e.machineEvent.Some? && Truthy(e.machineEvent.value.name) ==>
                  EscapedFrom(r.machineEventName, e.machineEvent.value.name.s))
            && (e.machineEvent.Some? && Truthy(e.machineEvent.value.no) ==>
                  EscapedFrom(r.machineEventNo, Render(e.machineEvent.value.no)))
    ensures var r := Format(e).value;
            && (r.machineName.Null? <==> e.machine.None?)
            && (r.machineProcess.Null? <==> e.machine.None?)
            && (r.productionOrderBuyerName.Null? <==> e.productionOrder.None?)
            && (r.machineEventName.Null? <==> e.machineEvent.None? || !Truthy(e.machineEvent.value.name))
            && (r.machineEventNo.Null? <==> e.machineEvent.None? || !Truthy(e.machineEvent.value.no))
  {
  }

  /** Fields that are null, or quoted, whatever the record holds. */
  lemma ConstantShapeFields(e: MonitoringEvent)
    requires Format(e).Success?
    ensures var r := Format(e).value;
            && SelectedDetailNull(r)
            && r.deleted == Quoted(Render(e.isDeleted))
            && r.createdBy == Quoted(Render(e.createdBy))
            && r.machineStepProcess.Null? == (e.machine.None? || e.machine.value.step.None?
                                              || !Truthy(e.machine.value.step.value.process))
            && (r.eventCategory.Null? <==> e.machineEvent.None? || !Truthy(e.machineEvent.value.category))
    ensures var r, m := Format(e).value, e.machine;
            m.Some? && m.value.step.Some? && Truthy(m.value.step.value.process) ==>
              r.machineStepProcess == Quoted(Render(m.value.step.value.stepId))
    ensures var r, me := Format(e).value, e.machineEvent;
            me.Some? && Truthy(me.value.category) ==> r.eventCategory == Quoted(Render(me.value.category))
  {
  }

  /** The production-order fields no query selects stay null on every
      production order the join builds, where they are Undefined. */
  lemma UnselectedOrderFieldsNull(e: MonitoringEvent)
    requires Format(e).Success? && e.productionOrder.Some?
    requires var p := e.productionOrder.value;
             p.construction == Undefined && p.design == Undefined && p.originGreigeFabric == Undefined
             && p.rollLength == Undefined && p.spelling == Undefined
    ensures var r := Format(e).value;
            && r.productionOrderConstruction.Null? && r.productionOrderProductionOrderDesign.Null?
            && r.productionOrderOriginGreigeFabric.Null? && r.productionOrderRollLength.Null?
            && r.productionOrderSpelling.Null?
  {
  }

  /** Started and end dates and times are the source instants moved forward by
      seven hours; falsy sources give null. A millisecond time of 0 is falsy. */
  lemma DateTimeNullMarkers(e: MonitoringEvent)
    requires Format(e).Success?
    ensures var r := Format(e).value;
            && (r.monitoringEventStartedDate.Null? <==> e.dateStart.None?)
            && (r.monitoringEventEndDate.Null? <==> e.dateEnd.None?)
            && (r.eventStartedTime.Null? <==> !MillisSet(e.timeInMilisStart))
            && (r.eventEndTime.Null? <==> !MillisSet(e.timeInMilisEnd))
  {
  }

  /** A present date column, shifted and formatted, reads back as the day
      seven hours later: the same day before 17:00, the next from 17:00 on. */
  lemma ShiftedDateReadsBack(d: Option<int>)
    requires d.Some? && FourDigitYear(d.value + SevenHours)
    ensures ShiftedDate(d).Quoted?
    ensures ParseDate(ShiftedDate(d).value) == Some(DayNumber(d.value) + (if SecondOfDay(d.value) >= 61_200 then 1 else 0))
  {
    DateTextRoundTrip(d.value + SevenHours);
    ShiftedDayNumber(d.value);
  }

  /** A set millisecond column, shifted and formatted, reads back as its time
      of day plus 25 200 seconds, wrapping at midnight. */
  lemma ShiftedTimeReadsBack(t: Option<int>)
    requires MillisSet(t)
    ensures ShiftedTime(t).Quoted?
    ensures ParseTime(ShiftedTime(t).value) == Some((SecondOfDay(t.value) + 25_200) % SecondsPerDay)
  {
    TimeTextRoundTrip(t.value + SevenHours);
    ShiftedSecondOfDay(t.value);
  }

  /** A column holding the quoted `YYYY-MM-DD` of instant t reads back as t's
      day, for years 0..9999. */
  lemma DateColumnReadsBack(l: Sql, t: int)
    requires l == Quoted(DateText(t)) && FourDigitYear(t)
    ensures ParseDate(l.value) == Some(DayNumber(t))
  {
    DateTextRoundTrip(t);
  }

  /** A column holding the quoted `HH:mm:ss` of instant t + 7 h reads back as
      t's time of day plus 25 200 seconds, wrapping at midnight. */
  lemma TimeColumnReadsBack(l: Sql, t: int)
    requires l == Quoted(TimeText(t + SevenHours))
    ensures ParseTime(l.value) == Some((SecondOfDay(t) + 25_200) % SecondsPerDay)
  {
    TimeTextRoundTrip(t + SevenHours);
    ShiftedSecondOfDay(t);
  }

  lemma StartDateText(e: MonitoringEvent, t: int)
    requires Format(e).Success? && e.dateStart == Some(t)
    ensures Format(e).value.monitoringEventStartedDate == Quoted(DateText(t + SevenHours))
  {
  }

  lemma EndDateText(e: MonitoringEvent, t: int)
    requires Format(e).Success? && e.dateEnd == Some(t)
    ensures Format(e).value.monitoringEventEndDate == Quoted(DateText(t + SevenHours))
  {
  }

  lemma StartTimeText(e: MonitoringEvent, t: int)
    requires Format(e).Success? && e.timeInMilisStart == Some(t) && t != 0
    ensures Format(e).value.eventStartedTime == Quoted(TimeText(t + SevenHours))
  {
  }

  lemma EndTimeText(e: MonitoringEvent, t: int)
    requires Format(e).Success? && e.timeInMilisEnd == Some(t) && t != 0
    ensures Format(e).value.eventEndTime == Quoted(TimeText(t + SevenHours))
  {
  }

  /** The started date a row stores reads back as the day of dateStart moved
      seven hours on: the same day before 17:00, the next from 17:00 on. */
  lemma StartDateShifted(e: MonitoringEvent, t: int)
    requires Format(e).Success? && e.dateStart == Some(t) && FourDigitYear(t + SevenHours)
    ensures Format(e).value.monitoringEventStartedDate.Quoted?
    ensures ParseDate(Format(e).value.monitoringEventStartedDate.value) == Some(DayNumber(t + SevenHours))
  {
    StartDateText(e, t);
    DateColumnReadsBack(Format(e).value.monitoringEventStartedDate, t + SevenHours);
  }

  /** The end date a row stores reads back as the day of dateEnd moved seven hours on. */
  lemma EndDateShifted(e: MonitoringEvent, t: int)
    requires Format(e).Success? && e.dateEnd == Some(t) && FourDigitYear(t + SevenHours)
    ensures Format(e).value.monitoringEventEndDate.Quoted?
    ensures ParseDate(Format(e).value.monitoringEventEndDate.value) == Some(DayNumber(t + SevenHours))
  {
    EndDateText(e, t);
    DateColumnReadsBack(Format(e).value.monitoringEventEndDate, t + SevenHours);
  }

  /** The started time a row stores reads back as the time of day of
      timeInMilisStart plus 25 200 seconds, wrapping at midnight. */
  lemma StartTimeShifted(e: MonitoringEvent, t: int)
    requires Format(e).Success? && e.timeInMilisStart == Some(t) && t != 0
    ensures Format(e).value.eventStartedTime.Quoted?
    ensures ParseTime(Format(e).value.eventStartedTime.value) == Some((SecondOfDay(t) + 25_200) % SecondsPerDay)
  {
    StartTimeText(e, t);
    TimeColumnReadsBack(Format(e).value.eventStartedTime, t);
  }

  /** The end time a row stores reads back as the time of day of
      timeInMilisEnd plus 25 200 seconds, wrapping at midnight. */
  lemma EndTimeShifted(e: MonitoringEvent, t: int)
    requires Format(e).Success? && e.timeInMilisEnd == Some(t) && t != 0
    ensures Format(e).value.eventEndTime.Quoted?
    ensures ParseTime(Format(e).value.eventEndTime.value) == Some((SecondOfDay(t) + 25_200) % SecondsPerDay)
  {
    EndTimeText(e, t);
    TimeColumnReadsBack(Format(e).value.eventEndTime, t);
  }

  /** The row's delivery date is null exactly without a production order;
      with one it is always quoted, and `Invalid date` for a null delivery date. */
  lemma RowDeliveryDate(e: MonitoringEvent)
    requires Format(e).Success?
    ensures var r := Format(e).value;
            && (r.productionOrderDeliveryDate.Null? <==> e.productionOrder.None?)
            && (e.productionOrder.Some? ==> r.productionOrderDeliveryDate.Quoted?)
    ensures var r, p := Format(e).value, e.productionOrder;
            p.Some? && p.value.deliveryDate.None? ==> r.productionOrderDeliveryDate == Quoted(InvalidDate)
  {
  }

  lemma DeliveryDateText(e: MonitoringEvent, t: int)
    requires Format(e).Success? && e.productionOrder.Some? && e.productionOrder.value.deliveryDate == Some(t)
    ensures Format(e).value.productionOrderDeliveryDate == Quoted(DateText(t + SevenHours))
  {
  }

  /** A present delivery date reads back as the day seven hours after it. */
  lemma DeliveryDateShifted(e: MonitoringEvent, t: int)
    requires Format(e).Success? && e.productionOrder.Some? && e.productionOrder.value.deliveryDate == Some(t)
    requires FourDigitYear(t + SevenHours)
    ensures Format(e).value.productionOrderDeliveryDate.Quoted?
    ensures ParseDate(Format(e).value.productionOrderDeliveryDate.value) == Some(DayNumber(t + SevenHours))
  {
    DeliveryDateText(e, t);
    DateColumnReadsBack(Format(e).value.productionOrderDeliveryDate, t + SevenHours);
  }

  /** A present production order always yields a quoted delivery date: a null
      delivery date renders as the text `Invalid date`, a present one as the
      day seven hours later. */
  lemma DeliveryDateReadsBack(p: ProductionOrder)
    ensures DeliveryDate(Some(p)).Quoted?
    ensures p.deliveryDate.None? ==> DeliveryDate(Some(p)).value == InvalidDate
    ensures p.deliveryDate.Some? && FourDigitYear(p.deliveryDate.value + SevenHours) ==>
              ParseDate(DeliveryDate(Some(p)).value) == Some(DayNumber(p.deliveryDate.value + SevenHours))
  {
    if p.deliveryDate.Some? && FourDigitYear(p.deliveryDate.value + SevenHours) {
      DateTextRoundTrip(p.deliveryDate.value + SevenHours);
    }
  }

  /** A rendered date and time joined as `…T….000Z` denote the unshifted
      instant: the day of `date` plus the whole seconds of the day of `time`. */
  lemma InstantOfPresent(date: int, time: int)
    requires FourDigitYear(date)
    ensures InstantOf(Some(date), Some(time)) == Some(InstantMs(DayNumber(date), SecondOfDay(time)))
  {
    DateTextRoundTrip(date);
    TimeTextRoundTrip(time);
    ParseInstantParts(DateText(date), TimeText(time));
  }

  /** A missing date or time makes the joined text unreadable. */
  lemma InstantOfMissing(date: Option<int>, time: Option<int>)
    requires date.None? || time.None?
    ensures InstantOf(date, time).None?
  {
    var s := MomentDate(date) + "T" + MomentTime(time) + ".000Z";
    if date.Some? {
      DateTextLen(date.value);
    }
    if time.Some? {
      TimeTextRoundTrip(time.value);
    }
    assert |s| != 24;
  }

  /** eventRange is null exactly when dateEnd is missing; with dateEnd
      present, a missing start date or time, or end time, gives NaN. */
  lemma EventRangeGuard(dateStart: Option<int>, timeStart: Option<int>, dateEnd: Option<int>, timeEnd: Option<int>)
    ensures var l := EventRange(dateEnd, InstantOf(dateStart, timeStart), InstantOf(dateEnd, timeEnd));
            && (l.Null? <==> dateEnd.None?)
            && (dateEnd.Some? && (dateStart.None? || timeStart.None? || timeEnd.None?) ==> l == Quoted(NotANumber))
  {
    if dateEnd.Some? {
      if dateStart.None? || timeStart.None? {
        InstantOfMissing(dateStart, timeStart);
      } else if timeEnd.None? {
        InstantOfMissing(dateEnd, timeEnd);
      }
    }
  }

  /** With all four parts present, eventRange is the whole minutes between
      the UNSHIFTED start and end instants, rounded toward zero, divided by 60. */
  lemma EventRangeMinutes(dateStart: int, timeStart: int, dateEnd: int, timeEnd: int)
    requires FourDigitYear(dateStart) && FourDigitYear(dateEnd)
    ensures var start := InstantMs(DayNumber(dateStart), SecondOfDay(timeStart));
            var end := InstantMs(DayNumber(dateEnd), SecondOfDay(timeEnd));
            EventRange(Some(dateEnd), InstantOf(Some(dateStart), Some(timeStart)), InstantOf(Some(dateEnd), Some(timeEnd)))
              == Quoted(HoursBetween(Some(start), Some(end)))
  {
    InstantOfPresent(dateStart, timeStart);
    InstantOfPresent(dateEnd, timeEnd);
  }

  /** Swapping the instants negates the figure: minutes are truncated toward
      zero, not floored. */
  lemma HoursBetweenAntisymmetric(start: int, end: int)
    ensures HoursBetween(Some(end), Some(start)).Finite?
    ensures HoursBetween(Some(end), Some(start)).hours == -HoursBetween(Some(start), Some(end)).hours
  {
  }

  /** Whole hours apart gives exactly that many hours. */
  lemma HoursBetweenWholeHours(start: int, h: int)
    ensures HoursBetween(Some(start), Some(start + h * 60 * MsPerMinute)) == Finite(h as real)
  {
    var d := h * 60 * MsPerMinute;
    if h >= 0 {
      assert d / MsPerMinute == h * 60;
    } else {
      assert (-d) / MsPerMinute == -h * 60;
    }
  }

  /** Less than a minute apart, in either direction, gives zero hours. */
  lemma HoursBetweenUnderAMinute(start: int, end: int)
    requires -MsPerMinute < end - start < MsPerMinute
    ensures HoursBetween(Some(start), Some(end)) == Finite(0.0)
  {
  }

  /** The row's eventRange is null exactly without dateEnd; NaN when a start
      date, start time or end time is missing; and otherwise the hours, by
      whole truncated minutes, between the UNSHIFTED start and end instants. */
  lemma RowEventRange(e: MonitoringEvent)
    requires Format(e).Success?
    ensures var l := Format(e).value.eventRange;
            && (l.Null? <==> e.dateEnd.None?)
            && ((e.dateEnd.Some? && (e.dateStart.None? || e.timeInMilisStart.None? || e.timeInMilisEnd.None?))
                ==> l == Quoted(NotANumber))
    ensures var l, ds, ts, de, te := Format(e).value.eventRange, e.dateStart, e.timeInMilisStart, e.dateEnd, e.timeInMilisEnd;
            ds.Some? && ts.Some? && de.Some? && te.Some? && FourDigitYear(ds.value) && FourDigitYear(de.value) ==>
              l == Quoted(HoursBetween(Some(InstantMs(DayNumber(ds.value), SecondOfDay(ts.value))),
                                       Some(InstantMs(DayNumber(de.value), SecondOfDay(te.value)))))
  {
    var r := Format(e).value;
    assert r.eventRange == EventRange(e.dateEnd, InstantOf(e.dateStart, e.timeInMilisStart), InstantOf(e.dateEnd, e.timeInMilisEnd));
    EventRangeGuard(e.dateStart, e.timeInMilisStart, e.dateEnd, e.timeInMilisEnd);
    if e.dateStart.Some? && e.timeInMilisStart.Some? && e.dateEnd.Some? && e.timeInMilisEnd.Some?
       && FourDigitYear(e.dateStart.value) && FourDigitYear(e.dateEnd.value) {
      EventRangeMinutes(e.dateStart.value, e.timeInMilisStart.value, e.dateEnd.value, e.timeInMilisEnd.value);
    }
  }

  /** A base record with cart number C1 and no machine. */
  function CartWithoutMachine(): MonitoringEvent {
    MonitoringEvent(Text("C1"), Text("EV-1"), None, None, None, None, JsNull, Text("dev"), Flag(false),
                    None, None, None)
  }

  /** The cart number is quoted and every machine field is null. */
  lemma CartWithoutMachineExample()
    ensures Format(CartWithoutMachine()).Success?
    ensures Format(CartWithoutMachine()).value.cartNumber == Quoted("C1")
    ensures MachineNull(Format(CartWithoutMachine()).value)
  {
  }

  /** The remark `it's fine` is stored as `'it"s fine'`. */
  lemma RemarkExample()
    ensures var e := CartWithoutMachine().(remark := Text("it's fine"));
            Format(e).Success? && Format(e).value.monitoringEventRemark == Quoted("it\"s fine")
  {
    var e := CartWithoutMachine().(remark := Text("it's fine"));
    assert WellShaped(e);
    assert Format(e).value.monitoringEventRemark == Quoted(Escape("it's fine"));
    EscapeExample();
  }

  /** The remark is null exactly when falsy; a truthy remark is the
      quote-replaced source text. */
  lemma RemarkField(e: MonitoringEvent)
    requires Format(e).Success?
    ensures Format(e).value.monitoringEventRemark.Null? <==> !Truthy(e.remark)
    ensures Truthy(e.remark) ==> EscapedFrom(Format(e).value.monitoringEventRemark, e.remark.s)
  {
  }
}
