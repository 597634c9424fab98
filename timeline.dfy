/**
 * `criar_timeline_entrega`: the five delivery milestones of one shipment, each
 * with its date as DD/MM/YYYY, an optional duration label and a
 * completed/pending status, plus the total elapsed days.
 */
module Timeline {
  import opened Wrappers
  import opened Numerals
  import opened Dates
  import opened Records

  datatype Status = Concluido | Pendente

  datatype Stage = Stage(title: string, date: Option<string>, duration: Option<string>, status: Status, icon: string)

  datatype Timeline = Timeline(stages: seq<Stage>, totalDays: Option<int>)

  /**
   * `dias_despacho` is only assigned when both the invoice date and the
   * dispatch date parse; the total-days test then reads it unassigned
   * (Python's UnboundLocalError).
   */
  datatype TimelineError = UnboundDispatchDays

  const StageTitles: seq<string> := [
    "📝 Implantação do Pedido",
    "📋 Nota Fiscal Emitida",
    "🚚 Mercadoria Despachada",
    "🎯 Previsão de Entrega",
    "✅ Entrega Realizada"
  ]

  const DoneIcon: string := "✅"
  const PendingIcon: string := "⭕"

  /** The unit words of the duration labels. */
  const Days: string := "dias"
  const BusinessDays: string := "dias úteis"

  /** `format_date_timeline`: DD/MM/YYYY, or None for a blank, '', 'N/A' or unparseable cell. */
  function TimelineDate(c: DateCell): (r: Option<string>)
    ensures r.Some? <==> !IsBlankText(c) && ToDatetime(c).Some?
    ensures r.Some? ==> ParseDate(r.value, '/') == Some(ToDatetime(c).value)
  {
    var shown :=
      match c
      case Blank => None
      case Text(t, p) => if t == "" || t == "N/A" then None else p
      case Stamp(d) => Some(d);
    match shown
    case None => None
    case Some(d) => FormatDateReadsBack(d, '/'); Some(FormatDate(d, '/'))
  }

  /** `f"{n} {unit}"`. */
  function DurationLabel(n: int, unit: string): string {
    IntToString(n) + " " + unit
  }

  /** The number a duration label starts with. */
  function LabelDays(duration: Option<string>): Option<int> {
    match duration
    case None => None
    case Some(s) => ParseInt(BeforeSpace(s))
  }

  /** The unit words of a duration label. */
  function LabelUnit(duration: Option<string>): Option<string> {
    match duration
    case None => None
    case Some(s) => Some(AfterSpace(s))
  }

  lemma DurationLabelReadsBack(n: int, unit: string)
    ensures LabelDays(Some(DurationLabel(n, unit))) == Some(n)
    ensures LabelUnit(Some(DurationLabel(n, unit))) == Some(unit)
  {
    SplitAtSpace(IntToString(n), unit);
    IntToStringParses(n);
  }

  /** The label of an optional whole number of `unit`, absent with the number. */
  function OptionalLabel(n: Option<int>, unit: string): (r: Option<string>)
    ensures LabelDays(r) == n
    ensures r.Some? ==> LabelUnit(r) == Some(unit)
  {
    match n
    case None => None
    case Some(k) => DurationLabelReadsBack(k, unit); Some(DurationLabel(k, unit))
  }

  function TruncateOption(x: Option<real>): Option<int> {
    match x
    case None => None
    case Some(v) => Some(Truncate(v))
  }

  /** A stage whose status and icon follow from whether its date is shown. */
  function MakeStage(title: string, date: Option<string>, duration: Option<string>): (st: Stage)
    ensures st.title == title && st.date == date && st.duration == duration
    ensures st.status == Concluido <==> date.Some?
    ensures st.icon == (if st.status == Concluido then DoneIcon else PendingIcon)
  {
    if date.Some? then Stage(title, date, duration, Concluido, DoneIcon)
    else Stage(title, date, duration, Pendente, PendingIcon)
  }

  /** The date cell each stage shows, in stage order. */
  function StageCell(r: Record, i: nat): DateCell
    requires i < 5
  {
    [r.implantacao, r.nota, r.saida, r.previsao, r.entrega][i]
  }

  /** Five stages with the fixed titles, each completed exactly when its date is shown. */
  predicate WellFormed(t: Timeline) {
    WellFormedStages(t.stages)
  }

  predicate WellFormedStages(s: seq<Stage>) {
    && |s| == 5
    && (forall i :: 0 <= i < 5 ==> s[i].title == StageTitles[i])
    && (forall i :: 0 <= i < 5 ==> (s[i].status == Concluido <==> s[i].date.Some?))
    && (forall i :: 0 <= i < 5 ==> s[i].icon == (if s[i].status == Concluido then DoneIcon else PendingIcon))
  }

  /** The duration label of each stage: none for the order itself. */
  function StageDuration(r: Record, i: nat): Option<string>
    requires i < 5
  {
    if i == 1 then OptionalLabel(TruncateOption(r.diasFaturamento), Days)
    else if i == 2 then OptionalLabel(CalendarDaysBetween(r.nota, r.saida), Days)
    else if i == 3 then OptionalLabel(TruncateOption(r.leadTime), BusinessDays)
    else if i == 4 then OptionalLabel(BusinessDaysBetween(r.nota, r.entrega), BusinessDays)
    else None
  }

  /** The five stages, whether or not the total can be computed. */
  function StagesOf(r: Record): seq<Stage> {
    seq(5, i requires 0 <= i < 5 => MakeStage(StageTitles[i], TimelineDate(StageCell(r, i)), StageDuration(r, i)))
  }

  lemma StagesOfShape(r: Record)
    ensures WellFormedStages(StagesOf(r))
    ensures forall i :: 0 <= i < 5 ==> StagesOf(r)[i].date == TimelineDate(StageCell(r, i))
  {
  }

  lemma StagesOfDurations(r: Record)
    ensures StagesOf(r)[0].duration.None?
    ensures LabelDays(StagesOf(r)[1].duration) == TruncateOption(r.diasFaturamento)
    ensures LabelDays(StagesOf(r)[2].duration) == CalendarDaysBetween(r.nota, r.saida)
    ensures LabelDays(StagesOf(r)[3].duration) == TruncateOption(r.leadTime)
    ensures LabelDays(StagesOf(r)[4].duration) == BusinessDaysBetween(r.nota, r.entrega)
    ensures StagesOf(r)[1].duration.Some? ==> LabelUnit(StagesOf(r)[1].duration) == Some(Days)
    ensures StagesOf(r)[2].duration.Some? ==> LabelUnit(StagesOf(r)[2].duration) == Some(Days)
    ensures StagesOf(r)[3].duration.Some? ==> LabelUnit(StagesOf(r)[3].duration) == Some(BusinessDays)
    ensures StagesOf(r)[4].duration.Some? ==> LabelUnit(StagesOf(r)[4].duration) == Some(BusinessDays)
  {
  }

  function DeliveryTimeline(r: Record): (out: Result<Timeline, TimelineError>)
    // The source raises exactly when the billing days are known but the dispatch interval is not.
    ensures out.Err? <==> r.diasFaturamento.Some? && CalendarDaysBetween(r.nota, r.saida).None?
    ensures out.Ok? ==> WellFormed(out.value)
    ensures out.Ok? ==> forall i :: 0 <= i < 5 ==> out.value.stages[i].date == TimelineDate(StageCell(r, i))
    // Durations: none for the order, the given billing days, the calendar days from invoice to
    // dispatch, the given lead time, and the business days from invoice to delivery.
    ensures out.Ok? ==> out.value.stages[0].duration.None?
    ensures out.Ok? ==> LabelDays(out.value.stages[1].duration) == TruncateOption(r.diasFaturamento)
    ensures out.Ok? ==> LabelDays(out.value.stages[2].duration) == CalendarDaysBetween(r.nota, r.saida)
    ensures out.Ok? ==> LabelDays(out.value.stages[3].duration) == TruncateOption(r.leadTime)
    ensures out.Ok? ==> LabelDays(out.value.stages[4].duration) == BusinessDaysBetween(r.nota, r.entrega)
    // Units: calendar days for billing and dispatch, business days for the lead time and delivery.
    ensures out.Ok? && out.value.stages[1].duration.Some? ==> LabelUnit(out.value.stages[1].duration) == Some(Days)
    ensures out.Ok? && out.value.stages[2].duration.Some? ==> LabelUnit(out.value.stages[2].duration) == Some(Days)
    ensures out.Ok? && out.value.stages[3].duration.Some? ==> LabelUnit(out.value.stages[3].duration) == Some(BusinessDays)
    ensures out.Ok? && out.value.stages[4].duration.Some? ==> LabelUnit(out.value.stages[4].duration) == Some(BusinessDays)
  {
    var billing := TruncateOption(r.diasFaturamento);
    var dispatch := CalendarDaysBetween(r.nota, r.saida);
    var deliveryCalendar := CalendarDaysBetween(r.nota, r.entrega);
    if billing.Some? && dispatch.None? then
      Err(UnboundDispatchDays)
    else
      var total :=
        if billing.Some? && dispatch.Some? && deliveryCalendar.Some?
        then Some(billing.value + dispatch.value + deliveryCalendar.value)
        else None;
      StagesOfShape(r);
      StagesOfDurations(r);
      Ok(Timeline(StagesOf(r), total))
  }

  /**
   * The total is present only when the billing days and the invoice, dispatch
   * and delivery dates all are, and then adds the billing days to the
   * calendar days from invoice to dispatch and from invoice to delivery.
   */
  lemma TimelineTotal(r: Record)
    requires DeliveryTimeline(r).Ok?
    ensures var t := DeliveryTimeline(r).value;
      && (t.totalDays.Some? <==>
          r.diasFaturamento.Some? && ToDatetime(r.nota).Some? && ToDatetime(r.saida).Some? && ToDatetime(r.entrega).Some?)
      && (t.totalDays.Some? ==>
          t.totalDays.value == Truncate(r.diasFaturamento.value)
            + CalendarDaysBetween(r.nota, r.saida).value + CalendarDaysBetween(r.nota, r.entrega).value)
  {
  }

  /**
   * A shipment invoiced Wednesday 10 January 2024, dispatched on the 12th and
   * delivered Friday the 19th (one day before the forecast), with 3 billing
   * days and a lead time of 5.
   */
  const ExampleRecord: Record := Record("123456", None, None, Blank,
    Stamp(CivilDate(2024, 1, 10)), Stamp(CivilDate(2024, 1, 12)),
    Stamp(CivilDate(2024, 1, 20)), Stamp(CivilDate(2024, 1, 19)),
    Some(3.0), Some(5.0), NoRomaneio)

  /** Two days of dispatch, seven business days to delivery and a total of 3 + 2 + 9 = 14 days. */
  lemma ExampleShipment()
    ensures DeliveryTimeline(ExampleRecord).Ok?
    ensures var t := DeliveryTimeline(ExampleRecord).value;
      && t.stages[0].status == Pendente
      && t.stages[2].duration == Some("2 dias")
      && t.stages[4].date == Some("19/01/2024")
      && t.stages[4].duration == Some("7 dias úteis")
      && t.stages[4].status == Concluido
      && t.totalDays == Some(14)
  {
    ExampleTotal();
    ExampleStages();
  }

  lemma ExampleTotal()
    ensures DeliveryTimeline(ExampleRecord) == Ok(Timeline(StagesOf(ExampleRecord), Some(14)))
  {
    var r := ExampleRecord;
    ExampleBusinessDays();
    assert CalendarDaysBetween(r.nota, r.saida) == Some(2);
    assert CalendarDaysBetween(r.nota, r.entrega) == Some(9);
  }

  lemma ExampleStages()
    ensures var s := StagesOf(ExampleRecord);
      && s[0].status == Pendente
      && s[2].duration == Some("2 dias")
      && s[4].date == Some("19/01/2024")
      && s[4].duration == Some("7 dias úteis")
      && s[4].status == Concluido
  {
    var r := ExampleRecord;
    ExampleBusinessDays();
    ExampleTexts();
    assert CalendarDaysBetween(r.nota, r.saida) == Some(2);
    assert BusinessDaysBetween(r.nota, r.entrega) == Some(7);
    assert StageDuration(r, 2) == Some("2 dias");
    assert StageDuration(r, 4) == Some("7 dias úteis");
    var stages := StagesOf(r);
    assert stages[0] == MakeStage(StageTitles[0], TimelineDate(StageCell(r, 0)), StageDuration(r, 0));
    assert stages[2] == MakeStage(StageTitles[2], TimelineDate(StageCell(r, 2)), StageDuration(r, 2));
    assert stages[4] == MakeStage(StageTitles[4], TimelineDate(StageCell(r, 4)), StageDuration(r, 4));
    assert StageCell(r, 0) == Blank && StageCell(r, 4) == Stamp(CivilDate(2024, 1, 19));
  }

  lemma ExampleTexts()
    ensures OptionalLabel(Some(2), Days) == Some("2 dias")
    ensures OptionalLabel(Some(7), BusinessDays) == Some("7 dias úteis")
    ensures TimelineDate(Stamp(CivilDate(2024, 1, 19))) == Some("19/01/2024")
  {
    assert IntToString(2) == "2" && IntToString(7) == "7";
    assert DurationLabel(2, Days) == "2 dias";
    assert DurationLabel(7, BusinessDays) == "7 dias úteis";
    assert ZeroPad(19, 2) == "19" && ZeroPad(1, 2) == "01" && ZeroPad(2024, 4) == "2024";
    assert FormatDate(CivilDate(2024, 1, 19), '/') == "19/01/2024";
  }

  /** Wednesday 10 to Friday 19 January 2024 holds eight weekdays: seven business-day steps. */
  lemma ExampleBusinessDays()
    ensures Ordinal(CivilDate(2024, 1, 10)) == 19732
    ensures Ordinal(CivilDate(2024, 1, 12)) == 19734
    ensures Ordinal(CivilDate(2024, 1, 19)) == 19741
    ensures BusinessDayCount(CivilDate(2024, 1, 10), CivilDate(2024, 1, 19)) == 7
  {
    assert WeekdaysIn(19732, 19741) == 8;
  }
}
