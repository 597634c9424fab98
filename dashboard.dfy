/**
 * The dashboard's shared table and the order in which the script changes it:
 * the invoice-date column is parsed in place, an unfiltered copy is kept for
 * the lookup, the filters replace the table, and the first tab parses the
 * delivery and forecast columns in place before computing the SLA rate.
 */
module Dashboard {
  import opened Wrappers
  import opened Dates
  import opened Records
  import opened Filters
  import opened Metrics
  import opened Lookup

  /** `sla['Dt Nota Fiscal'] = pd.to_datetime(..., errors='coerce')` on one row. */
  function NormalizeNota(r: Record): (n: Record)
    ensures n == r.(nota := n.nota)
    ensures n.nota.Blank? || n.nota.Stamp?
    ensures ToDatetime(n.nota) == ToDatetime(r.nota)
  {
    r.(nota := Normalized(r.nota))
  }

  /** The same for `Data de Entrega` and `Previsão de Entrega`. */
  function NormalizeDelivery(r: Record): (n: Record)
    ensures n == r.(previsao := n.previsao, entrega := n.entrega)
    ensures (n.previsao.Blank? || n.previsao.Stamp?) && (n.entrega.Blank? || n.entrega.Stamp?)
    ensures ToDatetime(n.previsao) == ToDatetime(r.previsao) && ToDatetime(n.entrega) == ToDatetime(r.entrega)
  {
    r.(previsao := Normalized(r.previsao), entrega := Normalized(r.entrega))
  }

  /** Parsing the delivery columns in place leaves every SLA figure as it was. */
  lemma NormalizingKeepsRate(rs: seq<Record>)
    ensures DeliveredCount(Map(rs, NormalizeDelivery)) == DeliveredCount(rs)
    ensures OnTimeCount(Map(rs, NormalizeDelivery)) == OnTimeCount(rs)
    ensures LateCount(Map(rs, NormalizeDelivery)) == LateCount(rs)
    ensures SlaRate(Map(rs, NormalizeDelivery)) == SlaRate(rs)
  {
    FilterMapCount(rs, NormalizeDelivery, HasBothDates, HasBothDates);
    FilterMapCount(rs, NormalizeDelivery, InTime, InTime);
    FilterMapCount(rs, NormalizeDelivery, Late, Late);
  }

  class Session {
    /** `sla`: the table every tab reads. */
    var table: seq<Record>
    /** `sla_original`: the copy taken before filtering; empty until then. */
    var original: seq<Record>

    constructor (loaded: seq<Record>)
      ensures table == loaded && original == []
    {
      table := loaded;
      original := [];
    }

    /** sla.py:313-316. */
    method NormalizeInvoiceDates()
      modifies this
      ensures table == Map(old(table), NormalizeNota)
      ensures original == old(original)
    {
      table := Map(table, NormalizeNota);
    }

    /**
     * sla.py:381-435: keep a copy, narrow the table one step at a time, and
     * report the halt of line 432: the filters changed the row count to zero.
     */
    method ApplyFilters(picks: Picks) returns (stopped: bool)
      modifies this
      ensures original == old(table)
      ensures table == Filtered(old(table), picks)
      ensures IsSubsequence(table, original)
      ensures stopped <==> table == [] && original != []
    {
      var rs := table;
      original := rs;
      var filtered := rs;
      filtered := BuStep(filtered, BuSelection(rs, picks), AvailableBus(rs));
      filtered := DateStep(filtered, ChosenPeriod(rs, picks.start, picks.end));
      filtered := CarrierStep(filtered, CarrierSelection(rs, picks), AvailableCarriers(rs));
      FilteredCorrect(rs, picks);
      if rs == [] {
        assert filtered == [];
      }
      stopped := |filtered| != |rs| && |filtered| == 0;
      table := filtered;
    }

    /** sla.py:451-457: only when the filtered table is not empty. */
    method NormalizeDeliveryDates()
      modifies this
      ensures table == (if old(table) == [] then old(table) else Map(old(table), NormalizeDelivery))
      ensures original == old(original)
    {
      if table != [] {
        table := Map(table, NormalizeDelivery);
      }
    }

    /** sla.py:1130-1135: an empty query searches nothing; otherwise the unfiltered copy is searched. */
    method FindInvoice(query: string) returns (found: Option<seq<Record>>)
      ensures query == "" ==> found == None
      ensures query != "" ==> found == Some(Search(original, query))
    {
      if query == "" {
        found := None;
      } else {
        found := Some(Search(original, query));
      }
    }
  }

  /** A row property that parsing the delivery columns cannot change holds somewhere before exactly when it holds somewhere after. */
  lemma ExistsAfterNormalizing(rs: seq<Record>, p: Record -> bool)
    requires forall r :: p(NormalizeDelivery(r)) == p(r)
    ensures (exists r :: r in Map(rs, NormalizeDelivery) && p(r)) <==> (exists r :: r in rs && p(r))
  {
    if exists r :: r in Map(rs, NormalizeDelivery) && p(r) {
      var r :| r in Map(rs, NormalizeDelivery) && p(r);
      MapMembers(rs, NormalizeDelivery, r);
      var x :| x in rs && NormalizeDelivery(x) == r;
      assert p(x);
    }
    if exists r :: r in rs && p(r) {
      var r :| r in rs && p(r);
      MapMembers(rs, NormalizeDelivery, NormalizeDelivery(r));
    }
  }

  lemma OnTimeAfterNormalizing(rs: seq<Record>)
    ensures SomeOnTime(Map(rs, NormalizeDelivery)) == SomeOnTime(rs)
  {
    ExistsAfterNormalizing(rs, (r: Record) => Observed(r) && InTime(r));
  }

  lemma LateAfterNormalizing(rs: seq<Record>)
    ensures SomeLate(Map(rs, NormalizeDelivery)) == SomeLate(rs)
  {
    ExistsAfterNormalizing(rs, (r: Record) => Observed(r) && Late(r));
  }

  lemma RelevantAfterNormalizing(rs: seq<Record>)
    ensures SomeRelevant(Map(rs, NormalizeDelivery)) == SomeRelevant(rs)
  {
    forall c ensures GroupSize(Map(rs, NormalizeDelivery), c) == GroupSize(rs, c) {
      FilterMapCount(rs, NormalizeDelivery, (r: Record) => DeliveredBy(r, c), (r: Record) => DeliveredBy(r, c));
    }
  }

  /** Parsing the delivery columns in place leaves the performance tab's outcome as it was. */
  lemma NormalizingKeepsCarrierOutcome(rs: seq<Record>)
    ensures (CarrierPerformance(Map(rs, NormalizeDelivery)) == MissingLateColumn) == (CarrierPerformance(rs) == MissingLateColumn)
  {
    OnTimeAfterNormalizing(rs);
    LateAfterNormalizing(rs);
    RelevantAfterNormalizing(rs);
    CarrierTableGuards(rs);
    CarrierTableGuards(Map(rs, NormalizeDelivery));
  }

  /**
   * What one run shows: nothing after the halt; the rate and then nothing
   * after the KeyError on the performance tab (the one failure of the tabs
   * that is modelled); otherwise the rate (absent for an empty table) and the
   * lookup.
   */
  datatype Run =
    | Stopped
    | Aborted(rate: Option<real>)
    | Shown(rate: Option<real>, found: Option<seq<Record>>)

  /**
   * One run of the script over a loaded table. When the filters leave no row
   * of a non-empty table, the script stops before any tab. Otherwise the
   * first tab shows the SLA rate of the filtered table, computed only when it
   * has rows. Of the failures that can end the run after the rate, only the
   * performance tab's is modelled: it ends the run when no observed delivery
   * was late while a carrier table would be built. Past it, the lookup finds
   * its rows in the whole table, whatever the filters picked.
   */
  method RunDashboard(loaded: seq<Record>, picks: Picks, query: string) returns (run: Run)
    ensures run.Stopped? <==> loaded != [] && Filtered(Map(loaded, NormalizeNota), picks) == []
    ensures run.Aborted? <==>
      !run.Stopped? && CarrierPerformance(Filtered(Map(loaded, NormalizeNota), picks)) == MissingLateColumn
    ensures !run.Stopped? ==> (run.rate.None? <==> loaded == [])
    ensures !run.Stopped? && run.rate.Some? ==>
      run.rate.value == SlaRate(Filtered(Map(loaded, NormalizeNota), picks)) && 0.0 <= run.rate.value <= 100.0
    ensures run.Shown? && query == "" ==> run.found == None
    ensures run.Shown? && query != "" ==> run.found == Some(Search(Map(loaded, NormalizeNota), query))
  {
    var session := new Session(loaded);
    session.NormalizeInvoiceDates();
    var stopped := session.ApplyFilters(picks);
    if stopped {
      return Stopped;
    }
    var rate: Option<real> := None;
    if session.table != [] {
      session.NormalizeDeliveryDates();
      NormalizingKeepsRate(Filtered(Map(loaded, NormalizeNota), picks));
      NormalizingKeepsCarrierOutcome(Filtered(Map(loaded, NormalizeNota), picks));
      rate := Some(SlaRate(session.table));
    }
    if CarrierPerformance(session.table) == MissingLateColumn {
      return Aborted(rate);
    }
    var found := session.FindInvoice(query);
    run := Shown(rate, found);
  }
}
