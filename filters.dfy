/**
 * The global sidebar filters: business unit, invoice-date period and carrier,
 * applied one after the other to the loaded table.
 */
module Filters {
  import opened Wrappers
  import opened Dates
  import opened Records

  /** `column.dropna().unique()`: the present values, each once. */
  function PresentValues(vs: seq<Option<string>>): (r: seq<string>)
    ensures Distinct(r)
  {
    if vs == [] then []
    else
      var rest := PresentValues(vs[1..]);
      if vs[0].Some? && vs[0].value !in rest then [vs[0].value] + rest else rest
  }

  lemma {:induction false} PresentValuesMembers(vs: seq<Option<string>>, c: string)
    ensures c in PresentValues(vs) <==> Some(c) in vs
  {
    if vs != [] {
      PresentValuesMembers(vs[1..], c);
      assert vs == [vs[0]] + vs[1..];
    }
  }

  function BuOf(r: Record): Option<string> { r.bu }
  function CarrierOf(r: Record): Option<string> { r.carrier }

  /** The exclusion list of business units, empty as the source has it. */
  const ExcludedBus: seq<string> := []

  /** `bus_disponiveis`: the business units of the table that are not excluded. */
  function AvailableBus(rs: seq<Record>): seq<string> {
    Filter(PresentValues(Map(rs, BuOf)), b => b !in ExcludedBus)
  }

  /** `transportadoras_disponiveis`. */
  function AvailableCarriers(rs: seq<Record>): seq<string> {
    PresentValues(Map(rs, CarrierOf))
  }

  /** The options offered are the distinct values present in the table, none excluded. */
  lemma AvailableOptions(rs: seq<Record>, c: string)
    ensures Distinct(AvailableBus(rs)) && Distinct(AvailableCarriers(rs))
    ensures c in AvailableBus(rs) <==> exists r :: r in rs && r.bu == Some(c)
    ensures c in AvailableCarriers(rs) <==> exists r :: r in rs && r.carrier == Some(c)
  {
    FilterKeepsAll(PresentValues(Map(rs, BuOf)), b => b !in ExcludedBus);
    PresentValuesMembers(Map(rs, BuOf), c);
    PresentValuesMembers(Map(rs, CarrierOf), c);
    MapMembers(rs, BuOf, Some(c));
    MapMembers(rs, CarrierOf, Some(c));
  }

  lemma MapMembers<T, U>(s: seq<T>, f: T -> U, y: U)
    ensures y in Map(s, f) <==> exists x :: x in s && f(x) == y
  {
    if y in Map(s, f) {
      var i :| 0 <= i < |s| && Map(s, f)[i] == y;
      assert s[i] in s;
    }
  }

  /** `if not selecionadas: selecionadas = disponiveis`: picking nothing means picking everything. */
  function Resolve(picked: seq<string>, available: seq<string>): seq<string> {
    if picked == [] then available else picked
  }

  /** A selection is applied only when it is non-empty and shorter than the options list. */
  predicate Narrows(selected: seq<string>, available: seq<string>) {
    selected != [] && |selected| < |available|
  }

  /** `isin(selected)`: a missing value never matches. */
  predicate ValueIn(v: Option<string>, selected: seq<string>) {
    v.Some? && v.value in selected
  }

  function BuStep(rs: seq<Record>, selected: seq<string>, available: seq<string>): seq<Record> {
    if Narrows(selected, available) then Filter(rs, (r: Record) => ValueIn(r.bu, selected)) else rs
  }

  function CarrierStep(rs: seq<Record>, selected: seq<string>, available: seq<string>): seq<Record> {
    if Narrows(selected, available) then Filter(rs, (r: Record) => ValueIn(r.carrier, selected)) else rs
  }

  // ---------------------------------------------------------------------
  // Invoice-date period (sla.py:336-361, 390-394)

  function NotaDate(r: Record): Option<Date> {
    ToDatetime(r.nota)
  }

  /** `sla['Dt Nota Fiscal'].min()`, skipping NaT; None when no invoice date parses. */
  function EarliestNota(rs: seq<Record>): (m: Option<Date>)
    ensures m.None? <==> forall r :: r in rs ==> NotaDate(r).None?
    ensures m.Some? ==> exists r :: r in rs && NotaDate(r) == m
    ensures m.Some? ==> forall r :: r in rs && NotaDate(r).Some? ==> NotAfter(m.value, NotaDate(r).value)
  {
    if rs == [] then None
    else
      var rest := EarliestNota(rs[1..]);
      assert forall r :: r in rs <==> r == rs[0] || r in rs[1..];
      match NotaDate(rs[0])
      case None => rest
      case Some(d) =>
        if rest.Some? && NotAfter(rest.value, d) then rest else Some(d)
  }

  /** `sla['Dt Nota Fiscal'].max()`, skipping NaT. */
  function LatestNota(rs: seq<Record>): (m: Option<Date>)
    ensures m.None? <==> forall r :: r in rs ==> NotaDate(r).None?
    ensures m.Some? ==> exists r :: r in rs && NotaDate(r) == m
    ensures m.Some? ==> forall r :: r in rs && NotaDate(r).Some? ==> NotAfter(NotaDate(r).value, m.value)
  {
    if rs == [] then None
    else
      var rest := LatestNota(rs[1..]);
      assert forall r :: r in rs <==> r == rs[0] || r in rs[1..];
      match NotaDate(rs[0])
      case None => rest
      case Some(d) =>
        if rest.Some? && NotAfter(d, rest.value) then rest else Some(d)
  }

  /** The period the date filter applies; `AllDates` when no invoice date parses and the filter is off. */
  datatype Period = AllDates | Between(lo: Date, hi: Date)

  /**
   * The picked start and end, or the whole span of invoice dates when the
   * start is after the end (the sidebar's reset).
   */
  function ChosenPeriod(rs: seq<Record>, start: Date, end: Date): (p: Period)
    ensures p.AllDates? <==> forall r :: r in rs ==> NotaDate(r).None?
    ensures p.Between? ==> NotAfter(p.lo, p.hi)
    ensures p.Between? && NotAfter(start, end) ==> p == Between(start, end)
    ensures p.Between? && !NotAfter(start, end) ==>
      (forall r :: r in rs && NotaDate(r).Some? ==> NotAfter(p.lo, NotaDate(r).value) && NotAfter(NotaDate(r).value, p.hi))
    // `data_inicio = data_min; data_fim = data_max`
    ensures p.Between? && !NotAfter(start, end) ==> p == Between(EarliestNota(rs).value, LatestNota(rs).value)
  {
    var earliest := EarliestNota(rs);
    var latest := LatestNota(rs);
    if earliest.None? then AllDates
    else
      assert latest.Some?;
      var r :| r in rs && NotaDate(r) == earliest;
      assert NotAfter(earliest.value, latest.value);
      if !NotAfter(start, end) then Between(earliest.value, latest.value) else Between(start, end)
  }

  /** The invoice date's day lies in the period, inclusively; a missing date does not. */
  predicate InPeriod(r: Record, lo: Date, hi: Date) {
    NotaDate(r).Some? && NotAfter(lo, NotaDate(r).value) && NotAfter(NotaDate(r).value, hi)
  }

  function DateStep(rs: seq<Record>, p: Period): seq<Record> {
    match p
    case AllDates => rs
    case Between(lo, hi) => Filter(rs, r => InPeriod(r, lo, hi))
  }

  // ---------------------------------------------------------------------
  // The whole pipeline (sla.py:381-399)

  /** What the sidebar widgets return. */
  datatype Picks = Picks(bus: seq<string>, start: Date, end: Date, carriers: seq<string>)

  function BuSelection(rs: seq<Record>, picks: Picks): seq<string> {
    Resolve(picks.bus, AvailableBus(rs))
  }

  function CarrierSelection(rs: seq<Record>, picks: Picks): seq<string> {
    Resolve(picks.carriers, AvailableCarriers(rs))
  }

  /** `sla_filtrado` after the three steps, in the source's order. */
  function Filtered(rs: seq<Record>, picks: Picks): seq<Record> {
    var byBu := BuStep(rs, BuSelection(rs, picks), AvailableBus(rs));
    var byDate := DateStep(byBu, ChosenPeriod(rs, picks.start, picks.end));
    CarrierStep(byDate, CarrierSelection(rs, picks), AvailableCarriers(rs))
  }

  /** The business-unit condition: a narrowing selection must hold the row's unit. */
  predicate BuOk(selected: seq<string>, available: seq<string>, r: Record) {
    Narrows(selected, available) ==> ValueIn(r.bu, selected)
  }

  /** The period condition: the invoice date lies in the period, when there is one. */
  predicate PeriodOk(p: Period, r: Record) {
    match p
    case AllDates => true
    case Between(lo, hi) => InPeriod(r, lo, hi)
  }

  /** The carrier condition: a narrowing selection must hold the row's carrier. */
  predicate CarrierOk(selected: seq<string>, available: seq<string>, r: Record) {
    Narrows(selected, available) ==> ValueIn(r.carrier, selected)
  }

  /** The conditions a row of the table must meet to survive the filters. */
  predicate Kept(rs: seq<Record>, picks: Picks, r: Record) {
    && BuOk(BuSelection(rs, picks), AvailableBus(rs), r)
    && PeriodOk(ChosenPeriod(rs, picks.start, picks.end), r)
    && CarrierOk(CarrierSelection(rs, picks), AvailableCarriers(rs), r)
  }

  /** Each step is one mask, which holds everywhere when the step is off. */
  lemma BuStepIsFilter(rs: seq<Record>, selected: seq<string>, available: seq<string>)
    ensures BuStep(rs, selected, available) == Filter(rs, (r: Record) => BuOk(selected, available, r))
  {
    if Narrows(selected, available) {
      FilterSameOn(rs, (r: Record) => ValueIn(r.bu, selected), (r: Record) => BuOk(selected, available, r));
    } else {
      FilterKeepsAll(rs, (r: Record) => BuOk(selected, available, r));
    }
  }

  lemma DateStepIsFilter(rs: seq<Record>, p: Period)
    ensures DateStep(rs, p) == Filter(rs, (r: Record) => PeriodOk(p, r))
  {
    if p.Between? {
      FilterSameOn(rs, r => InPeriod(r, p.lo, p.hi), (r: Record) => PeriodOk(p, r));
    } else {
      FilterKeepsAll(rs, (r: Record) => PeriodOk(p, r));
    }
  }

  lemma CarrierStepIsFilter(rs: seq<Record>, selected: seq<string>, available: seq<string>)
    ensures CarrierStep(rs, selected, available) == Filter(rs, (r: Record) => CarrierOk(selected, available, r))
  {
    if Narrows(selected, available) {
      FilterSameOn(rs, (r: Record) => ValueIn(r.carrier, selected), (r: Record) => CarrierOk(selected, available, r));
    } else {
      FilterKeepsAll(rs, (r: Record) => CarrierOk(selected, available, r));
    }
  }

  /**
   * The three steps select exactly the rows of the table that meet every
   * active condition, every copy of each, in their original order.
   */
  lemma FilteredCorrect(rs: seq<Record>, picks: Picks)
    ensures Filtered(rs, picks) == Filter(rs, (r: Record) => Kept(rs, picks, r))
    ensures forall r :: r in Filtered(rs, picks) <==> r in rs && Kept(rs, picks, r)
    ensures IsSubsequence(Filtered(rs, picks), rs)
  {
    var buSel, buAll := BuSelection(rs, picks), AvailableBus(rs);
    var period := ChosenPeriod(rs, picks.start, picks.end);
    var carSel, carAll := CarrierSelection(rs, picks), AvailableCarriers(rs);
    var bu := (r: Record) => BuOk(buSel, buAll, r);
    var inPeriod := (r: Record) => PeriodOk(period, r);
    var carrier := (r: Record) => CarrierOk(carSel, carAll, r);
    var buAndPeriod := (r: Record) => BuOk(buSel, buAll, r) && PeriodOk(period, r);
    var kept := (r: Record) => Kept(rs, picks, r);
    BuStepIsFilter(rs, buSel, buAll);
    DateStepIsFilter(Filter(rs, bu), period);
    FilterTwice(rs, bu, inPeriod, buAndPeriod);
    CarrierStepIsFilter(Filter(rs, buAndPeriod), carSel, carAll);
    FilterTwice(rs, buAndPeriod, carrier, kept);
    FilterMembers(rs, kept);
    FilterIsSubsequence(rs, kept);
  }

  /**
   * With nothing picked in either list, only the period filters; and when the
   * period is the whole span of invoice dates (the pickers' defaults, or the
   * reset after a start later than the end), the table keeps exactly its rows
   * with an invoice date, every copy of each, in order.
   */
  lemma DefaultViewKeepsDatedRows(rs: seq<Record>, start: Date, end: Date)
    requires EarliestNota(rs).Some? && LatestNota(rs).Some?
    requires (start == EarliestNota(rs).value && end == LatestNota(rs).value) || !NotAfter(start, end)
    ensures Filtered(rs, Picks([], start, end, [])) == Filter(rs, (r: Record) => NotaDate(r).Some?)
  {
    var picks := Picks([], start, end, []);
    forall i | 0 <= i < |rs| ensures Kept(rs, picks, rs[i]) == NotaDate(rs[i]).Some? {
      DefaultPicksKeep(rs, start, end, rs[i]);
    }
    FilteredCorrect(rs, picks);
    FilterSameOn(rs, (r: Record) => Kept(rs, picks, r), (r: Record) => NotaDate(r).Some?);
  }

  /** Under the default view, a row of the table is kept exactly when it has an invoice date. */
  lemma DefaultPicksKeep(rs: seq<Record>, start: Date, end: Date, r: Record)
    requires r in rs && EarliestNota(rs).Some? && LatestNota(rs).Some?
    requires (start == EarliestNota(rs).value && end == LatestNota(rs).value) || !NotAfter(start, end)
    ensures Kept(rs, Picks([], start, end, []), r) == NotaDate(r).Some?
  {
    var picks := Picks([], start, end, []);
    var lo, hi := EarliestNota(rs).value, LatestNota(rs).value;
    assert ChosenPeriod(rs, start, end) == Between(lo, hi);
    SpanHoldsDated(rs, r);
    assert PeriodOk(Between(lo, hi), r) == NotaDate(r).Some?;
    assert BuSelection(rs, picks) == AvailableBus(rs);
    assert CarrierSelection(rs, picks) == AvailableCarriers(rs);
  }

  /** Every invoice date of the table lies between its earliest and its latest. */
  lemma SpanHoldsDated(rs: seq<Record>, r: Record)
    requires r in rs && EarliestNota(rs).Some? && LatestNota(rs).Some?
    ensures InPeriod(r, EarliestNota(rs).value, LatestNota(rs).value) == NotaDate(r).Some?
  {
  }

  /** When no invoice date parses, the period filter is off and an empty pick keeps the whole table. */
  lemma NoDatesKeepsAll(rs: seq<Record>, start: Date, end: Date)
    requires forall r :: r in rs ==> NotaDate(r).None?
    ensures Filtered(rs, Picks([], start, end, [])) == rs
  {
    assert ChosenPeriod(rs, start, end) == AllDates;
  }
}
