/**
 * The delivery-performance figures computed over the filtered table: the SLA
 * attainment rate and its status band, the per-carrier on-time table, and the
 * pending/overdue set. Every date comparison is on parsed dates, as after the
 * table's delivery and forecast columns have gone through `pd.to_datetime`.
 */
module Metrics {
  import opened Wrappers
  import opened Dates
  import opened Records

  /** Both the delivery date and the forecast parse: the rows `dropna(subset=[...])` keeps. */
  predicate HasBothDates(r: Record) {
    ToDatetime(r.entrega).Some? && ToDatetime(r.previsao).Some?
  }

  /** `Data de Entrega <= Previsão de Entrega`, for a row that has both. */
  predicate InTime(r: Record) {
    HasBothDates(r) && NotAfter(ToDatetime(r.entrega).value, ToDatetime(r.previsao).value)
  }

  /** Delivered after the forecast. */
  predicate Late(r: Record) {
    HasBothDates(r) && !NotAfter(ToDatetime(r.entrega).value, ToDatetime(r.previsao).value)
  }

  /** No delivery date: `Data de Entrega` is NaT. */
  predicate Undelivered(r: Record) {
    ToDatetime(r.entrega).None?
  }

  function DeliveredCount(rs: seq<Record>): nat { |Filter(rs, HasBothDates)| }
  function OnTimeCount(rs: seq<Record>): nat { |Filter(rs, InTime)| }
  function LateCount(rs: seq<Record>): nat { |Filter(rs, Late)| }

  /** Every row with both dates is either on time or late. */
  lemma DeliveredSplits(rs: seq<Record>)
    ensures DeliveredCount(rs) == OnTimeCount(rs) + LateCount(rs)
  {
    FilterPartition(rs, HasBothDates, InTime, Late);
  }

  // ---------------------------------------------------------------------
  // SLA attainment rate (sla.py:457-462) and its status band (sla.py:529-544)

  /** `part / whole * 100`, or 0 for an empty whole. */
  function Percent(part: nat, whole: nat): (rate: real)
    requires part <= whole
    ensures 0.0 <= rate <= 100.0
    ensures rate == 0.0 <==> whole == 0 || part == 0
    ensures rate == 100.0 <==> whole > 0 && part == whole
    ensures (100.0 - rate) * whole as real == 100.0 * (whole - part) as real
  {
    if whole > 0 then
      var q := part as real / whole as real;
      assert q * whole as real == part as real;
      assert 0.0 <= q <= 1.0;
      q * 100.0
    else 0.0
  }

  /** `taxa_sla`: on-time deliveries as a percentage of the rows with both dates, 0 when there are none. */
  function SlaRate(rs: seq<Record>): (rate: real)
    ensures 0.0 <= rate <= 100.0
    ensures DeliveredCount(rs) == 0 ==> rate == 0.0
    ensures rate == 0.0 <==> OnTimeCount(rs) == 0
    ensures rate == 100.0 <==> DeliveredCount(rs) > 0 && LateCount(rs) == 0
    // `entregas_atrasadas = 100 - taxa_sla` is the late share of the rows with both dates.
    ensures (100.0 - rate) * DeliveredCount(rs) as real == 100.0 * LateCount(rs) as real
  {
    DeliveredSplits(rs);
    Percent(OnTimeCount(rs), DeliveredCount(rs))
  }

  datatype Band = Excelente | Bom | Atencao | Critico

  /** Critico 0, Atencao 1, Bom 2, Excelente 3. */
  function BandRank(b: Band): nat {
    match b
    case Critico => 0
    case Atencao => 1
    case Bom => 2
    case Excelente => 3
  }

  /** The status shown on the SLA gauge: one rank per threshold (70, 85, 95) the rate reaches. */
  function StatusBand(rate: real): (b: Band)
    ensures BandRank(b) == (if rate >= 70.0 then 1 else 0) + (if rate >= 85.0 then 1 else 0) + (if rate >= 95.0 then 1 else 0)
  {
    if rate >= 95.0 then Excelente
    else if rate >= 85.0 then Bom
    else if rate >= 70.0 then Atencao
    else Critico
  }

  /** A higher rate never gets a worse band. */
  lemma StatusBandMonotone(a: real, b: real)
    requires a <= b
    ensures BandRank(StatusBand(a)) <= BandRank(StatusBand(b))
  {
  }

  /** The band of a table follows from its deliveries: all on time is Excelente, none on time is Critico. */
  lemma SlaBandExtremes(rs: seq<Record>)
    ensures DeliveredCount(rs) > 0 && LateCount(rs) == 0 ==> StatusBand(SlaRate(rs)) == Excelente
    ensures OnTimeCount(rs) == 0 ==> StatusBand(SlaRate(rs)) == Critico
  {
  }

  // ---------------------------------------------------------------------
  // Per-carrier performance (sla.py:1003-1023, 1042)

  /** A row of `entregas_realizadas`: both dates and a carrier. */
  predicate Observed(r: Record) {
    HasBothDates(r) && r.carrier.Some?
  }

  predicate DeliveredBy(r: Record, c: string) {
    Observed(r) && r.carrier.value == c
  }

  /** A row of `performance_transp`: the on-time, late and total counts and `% SLA`. */
  datatype CarrierRow = CarrierRow(carrier: string, onTime: nat, late: nat, total: nat, pct: real)

  /** What the performance tab shows. */
  datatype CarrierTable =
    | NoDeliveries        // no row has both dates and a carrier
    | NoOnTimeColumn      // no on-time delivery at all: the 'Entregue no Prazo' column is missing
    | NoRelevantCarrier   // no carrier reaches the floor
    | MissingLateColumn   // no late delivery at all: indexing 'Entregue Atrasada' raises KeyError
    | Table(rows: seq<CarrierRow>)

  /** The relevance floor: carriers with fewer observed deliveries are not shown. */
  const MinDeliveries: nat := 10

  function GroupSize(rs: seq<Record>, c: string): nat {
    |Filter(rs, r => DeliveredBy(r, c))|
  }

  /** One group of `groupby(['Transportador', 'Status_Entrega']).size().unstack(fill_value=0)`. */
  function RowOf(rs: seq<Record>, c: string): CarrierRow {
    GroupCounts(rs, c);
    CarrierRow(c, OnTimeBy(rs, c), LateBy(rs, c), GroupSize(rs, c), Percent(OnTimeBy(rs, c), GroupSize(rs, c)))
  }

  function OnTimeBy(rs: seq<Record>, c: string): nat {
    |Filter(rs, r => DeliveredBy(r, c) && InTime(r))|
  }

  function LateBy(rs: seq<Record>, c: string): nat {
    |Filter(rs, r => DeliveredBy(r, c) && !InTime(r))|
  }

  /** The carriers that have observed deliveries, each once. */
  function CarriersOf(rs: seq<Record>): (cs: seq<string>)
    ensures Distinct(cs)
  {
    if rs == [] then []
    else
      var rest := CarriersOf(rs[1..]);
      if Observed(rs[0]) && rs[0].carrier.value !in rest then [rs[0].carrier.value] + rest else rest
  }

  /** A carrier is listed exactly when some row was delivered by it. */
  lemma {:induction false} CarriersOfMembers(rs: seq<Record>, c: string)
    ensures c in CarriersOf(rs) <==> exists r :: r in rs && DeliveredBy(r, c)
  {
    if rs != [] {
      CarriersOfMembers(rs[1..], c);
      var rest := CarriersOf(rs[1..]);
      if c in CarriersOf(rs) {
        if c !in rest {
          assert DeliveredBy(rs[0], c);
        } else {
          var r :| r in rs[1..] && DeliveredBy(r, c);
          assert r in rs;
        }
      }
      if exists r :: r in rs && DeliveredBy(r, c) {
        var r :| r in rs && DeliveredBy(r, c);
        if r != rs[0] {
          assert r in rs[1..];
        }
      }
    }
  }

  /** The rows of the carriers in `cs` that reach the floor, in the order of `cs`. */
  function RelevantRows(rs: seq<Record>, cs: seq<string>): seq<CarrierRow> {
    if cs == [] then []
    else (if GroupSize(rs, cs[0]) >= MinDeliveries then [RowOf(rs, cs[0])] else []) + RelevantRows(rs, cs[1..])
  }

  function CarrierPerformance(rs: seq<Record>): CarrierTable {
    var observed := Filter(rs, Observed);
    if observed == [] then NoDeliveries
    else if Filter(observed, InTime) == [] then NoOnTimeColumn
    else
      var rows := RelevantRows(rs, CarriersOf(rs));
      if rows == [] then NoRelevantCarrier
      else if Filter(observed, Late) == [] then MissingLateColumn
      else Table(rows)
  }

  lemma {:induction false} RelevantRowsSound(rs: seq<Record>, cs: seq<string>)
    ensures forall row :: row in RelevantRows(rs, cs) ==> row.carrier in cs && row == RowOf(rs, row.carrier) && row.total >= MinDeliveries
    ensures forall c :: c in cs && GroupSize(rs, c) >= MinDeliveries ==> RowOf(rs, c) in RelevantRows(rs, cs)
  {
    if cs != [] {
      RelevantRowsSound(rs, cs[1..]);
    }
  }

  predicate DistinctCarriers(rows: seq<CarrierRow>) {
    forall i, j :: 0 <= i < j < |rows| ==> rows[i].carrier != rows[j].carrier
  }

  lemma TailDistinct(cs: seq<string>)
    requires cs != [] && Distinct(cs)
    ensures Distinct(cs[1..]) && cs[0] !in cs[1..]
  {
    var tail := cs[1..];
    forall i, j | 0 <= i < j < |tail| ensures tail[i] != tail[j] {
      assert tail[i] == cs[i + 1] && tail[j] == cs[j + 1];
    }
    forall k | 0 <= k < |tail| ensures tail[k] != cs[0] {
      assert tail[k] == cs[k + 1];
    }
  }

  lemma ConsDistinct(x: CarrierRow, rest: seq<CarrierRow>, names: seq<string>)
    requires x.carrier !in names && DistinctCarriers(rest)
    requires forall row :: row in rest ==> row.carrier in names
    ensures DistinctCarriers([x] + rest)
  {
    var rows := [x] + rest;
    forall i, j | 0 <= i < j < |rows| ensures rows[i].carrier != rows[j].carrier {
      assert rows[j] == rest[j - 1] && rest[j - 1] in rest;
      if i > 0 {
        assert rows[i] == rest[i - 1];
      }
    }
  }

  lemma {:induction false} RelevantRowsDistinct(rs: seq<Record>, cs: seq<string>)
    requires Distinct(cs)
    ensures DistinctCarriers(RelevantRows(rs, cs))
  {
    if cs != [] {
      TailDistinct(cs);
      RelevantRowsDistinct(rs, cs[1..]);
      RelevantRowsSound(rs, cs[1..]);
      if GroupSize(rs, cs[0]) >= MinDeliveries {
        ConsDistinct(RowOf(rs, cs[0]), RelevantRows(rs, cs[1..]), cs[1..]);
      }
    }
  }

  /** Each group's size is its on-time plus its late deliveries. */
  lemma {:induction false} GroupCounts(rs: seq<Record>, c: string)
    ensures GroupSize(rs, c) == OnTimeBy(rs, c) + LateBy(rs, c)
  {
    if rs != [] {
      GroupCounts(rs[1..], c);
    }
  }

  /** `Total` is the row sum, and `% SLA` is the on-time share of it. */
  lemma RowCounts(rs: seq<Record>, c: string)
    ensures RowOf(rs, c).total == RowOf(rs, c).onTime + RowOf(rs, c).late
    ensures RowOf(rs, c).pct == Percent(RowOf(rs, c).onTime, RowOf(rs, c).total)
    ensures 0.0 <= RowOf(rs, c).pct <= 100.0
    ensures RowOf(rs, c).pct == 100.0 <==> RowOf(rs, c).total > 0 && RowOf(rs, c).late == 0
  {
    GroupCounts(rs, c);
  }

  /**
   * The shown table has one row per carrier with at least ten observed
   * deliveries and no other; each row's total is its on-time plus its late
   * deliveries, and its `% SLA` is the on-time share of that total.
   */
  lemma CarrierTableCorrect(rs: seq<Record>)
    ensures CarrierPerformance(rs).Table? ==>
      var rows := CarrierPerformance(rs).rows;
      && (forall row :: row in rows ==>
            row.total == row.onTime + row.late && row.total >= MinDeliveries && row.total == GroupSize(rs, row.carrier)
            && row.onTime == OnTimeBy(rs, row.carrier) && row.late == LateBy(rs, row.carrier)
            && row.pct == Percent(row.onTime, row.total))
      && (forall c :: (exists row :: row in rows && row.carrier == c) <==> GroupSize(rs, c) >= MinDeliveries)
      && DistinctCarriers(rows)
  {
    var cs := CarriersOf(rs);
    var rows := RelevantRows(rs, cs);
    RelevantRowsSound(rs, cs);
    RelevantRowsDistinct(rs, cs);
    forall row | row in rows ensures row.total == row.onTime + row.late {
      RowCounts(rs, row.carrier);
    }
    forall c | GroupSize(rs, c) >= MinDeliveries ensures RowOf(rs, c) in rows && RowOf(rs, c).carrier == c {
      GroupHasMember(rs, c);
      CarriersOfMembers(rs, c);
    }
    forall row | row in rows ensures GroupSize(rs, row.carrier) >= MinDeliveries {
    }
  }

  lemma {:induction false} GroupHasMember(rs: seq<Record>, c: string)
    requires GroupSize(rs, c) > 0
    ensures exists r :: r in rs && DeliveredBy(r, c)
  {
    FilterMembers(rs, r => DeliveredBy(r, c));
    var r := Filter(rs, r => DeliveredBy(r, c))[0];
    assert r in Filter(rs, r => DeliveredBy(r, c));
  }

  /** Some observed delivery was on time: the 'Entregue no Prazo' column exists. */
  ghost predicate SomeOnTime(rs: seq<Record>) {
    exists r :: r in rs && Observed(r) && InTime(r)
  }

  /** Some observed delivery was late: the 'Entregue Atrasada' column exists. */
  ghost predicate SomeLate(rs: seq<Record>) {
    exists r :: r in rs && Observed(r) && Late(r)
  }

  /** Some carrier reaches the relevance floor. */
  ghost predicate SomeRelevant(rs: seq<Record>) {
    exists c :: GroupSize(rs, c) >= MinDeliveries
  }

  /** A mask selects nothing exactly when no row meets it. */
  lemma FilterEmpty<T>(s: seq<T>, keep: T -> bool)
    ensures Filter(s, keep) == [] <==> forall x :: x in s ==> !keep(x)
  {
    FilterMembers(s, keep);
    if Filter(s, keep) != [] {
      assert Filter(s, keep)[0] in Filter(s, keep);
    }
  }

  /** The relevant rows are empty exactly when no carrier reaches the floor. */
  lemma RelevantRowsEmpty(rs: seq<Record>)
    ensures RelevantRows(rs, CarriersOf(rs)) != [] <==> SomeRelevant(rs)
  {
    var cs := CarriersOf(rs);
    var rows := RelevantRows(rs, cs);
    RelevantRowsSound(rs, cs);
    if rows != [] {
      assert rows[0] in rows;
      assert GroupSize(rs, rows[0].carrier) >= MinDeliveries;
    }
    if SomeRelevant(rs) {
      var c :| GroupSize(rs, c) >= MinDeliveries;
      GroupHasMember(rs, c);
      CarriersOfMembers(rs, c);
      assert RowOf(rs, c) in rows;
    }
  }

  /**
   * Which outcome the performance tab reaches: no observed delivery; none on
   * time (no on-time column); no carrier with ten deliveries; none late (the
   * KeyError on the late column); or the table.
   */
  lemma CarrierTableGuards(rs: seq<Record>)
    ensures CarrierPerformance(rs) == NoDeliveries <==> forall r :: r in rs ==> !Observed(r)
    ensures CarrierPerformance(rs) == NoOnTimeColumn <==> (exists r :: r in rs && Observed(r)) && !SomeOnTime(rs)
    ensures CarrierPerformance(rs) == NoRelevantCarrier <==> SomeOnTime(rs) && !SomeRelevant(rs)
    ensures CarrierPerformance(rs) == MissingLateColumn <==> SomeOnTime(rs) && SomeRelevant(rs) && !SomeLate(rs)
    ensures CarrierPerformance(rs).Table? <==> SomeOnTime(rs) && SomeRelevant(rs) && SomeLate(rs)
  {
    var observed := Filter(rs, Observed);
    FilterMembers(rs, Observed);
    FilterEmpty(rs, Observed);
    FilterEmpty(observed, InTime);
    FilterEmpty(observed, Late);
    RelevantRowsEmpty(rs);
  }


  // ---------------------------------------------------------------------
  // Pending and overdue invoices (sla.py:1066-1080)

  /** `pd.concat([notas_pendentes, notas_atrasadas])`: undelivered rows, then late rows. */
  function PendingSet(rs: seq<Record>): seq<Record> {
    Filter(rs, Undelivered) + Filter(rs, Late)
  }

  /**
   * A row is pending exactly when it has no delivery date or was delivered
   * late; the two parts never share a row, so the total is their sum.
   */
  lemma PendingSetCorrect(rs: seq<Record>)
    ensures forall r :: r in PendingSet(rs) <==> r in rs && (Undelivered(r) || Late(r))
    ensures forall r :: r in Filter(rs, Undelivered) ==> r !in Filter(rs, Late)
    ensures |PendingSet(rs)| == |Filter(rs, Undelivered)| + |Filter(rs, Late)|
    ensures IsSubsequence(Filter(rs, Undelivered), rs) && IsSubsequence(Filter(rs, Late), rs)
  {
    FilterMembers(rs, Undelivered);
    FilterMembers(rs, Late);
    FilterIsSubsequence(rs, Undelivered);
    FilterIsSubsequence(rs, Late);
  }

  /** An undelivered row with a forecast counts as undelivered, never as late; an on-time row is not pending. */
  lemma PendingClassification(rs: seq<Record>, r: Record)
    requires r in rs
    ensures Undelivered(r) ==> r in Filter(rs, Undelivered) && r !in Filter(rs, Late)
    ensures InTime(r) ==> r !in PendingSet(rs)
  {
    PendingSetCorrect(rs);
  }
}
