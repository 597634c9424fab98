/**
 * `ordenar_meses` and `ordenar_dataframe_por_meses`: keep the Portuguese
 * month names present among the keys of a month-indexed series (or the rows
 * of a month-indexed table) and put them in calendar order, January first.
 * The two source functions differ only in what a key maps to, so both are
 * OrderMonths, generic in the value type.
 */
module Months {
  import opened Records

  /** The calendar order of the month names, as the source lists them. */
  const MonthOrder: seq<string> := [
    "JANEIRO", "FEVEREIRO", "MARÇO", "ABRIL", "MAIO", "JUNHO",
    "JULHO", "AGOSTO", "SETEMBRO", "OUTUBRO", "NOVEMBRO", "DEZEMBRO"
  ]

  function IndexOf(s: seq<string>, x: string): (k: nat)
    requires x in s
    ensures k < |s| && s[k] == x
  {
    if s[0] == x then 0 else 1 + IndexOf(s[1..], x)
  }

  /**
   * `[name for name in names[k..] if name in m]`, each paired with its value:
   * what `reindex` yields.
   */
  function PresentFrom<V>(names: seq<string>, m: map<string, V>, k: nat): seq<(string, V)>
    requires k <= |names|
    decreases |names| - k
  {
    if k == |names| then []
    else (if names[k] in m then [(names[k], m[names[k]])] else []) + PresentFrom(names, m, k + 1)
  }

  function OrderMonths<V>(m: map<string, V>): seq<(string, V)> {
    PresentFrom(MonthOrder, m, 0)
  }

  /** A series built from (key, value) pairs; the first pair of a key wins. */
  function ToMap<V>(r: seq<(string, V)>): map<string, V> {
    if r == [] then map[] else ToMap(r[1..])[r[0].0 := r[0].1]
  }

  /** The keys of `r` appear in `names` in the order of `names`. */
  predicate InOrderOf<V>(r: seq<(string, V)>, names: seq<string>) {
    (forall i :: 0 <= i < |r| ==> r[i].0 in names)
    && forall i, j :: 0 <= i < j < |r| && r[i].0 in names && r[j].0 in names ==> IndexOf(names, r[i].0) < IndexOf(names, r[j].0)
  }

  lemma {:induction false} PresentFromSound<V>(names: seq<string>, m: map<string, V>, k: nat)
    requires k <= |names|
    ensures forall p :: p in PresentFrom(names, m, k) ==> p.0 in names[k..] && p.0 in m && p.1 == m[p.0]
    ensures |PresentFrom(names, m, k)| <= |names| - k
    decreases |names| - k
  {
    if k < |names| {
      PresentFromSound(names, m, k + 1);
      assert names[k + 1..] == names[k..][1..];
    }
  }

  lemma {:induction false} PresentFromComplete<V>(names: seq<string>, m: map<string, V>, k: nat, j: nat)
    requires k <= j < |names| && names[j] in m
    ensures (names[j], m[names[j]]) in PresentFrom(names, m, k)
    decreases j - k
  {
    if k < j {
      PresentFromComplete(names, m, k + 1, j);
    }
  }

  lemma IndexOfDistinct(names: seq<string>, x: string, j: nat)
    requires Distinct(names) && j < |names| && names[j] == x
    ensures IndexOf(names, x) == j
  {
  }

  /** Every key taken from names[k..] sits at position k or later. */
  lemma PositionsFrom(names: seq<string>, x: string, k: nat)
    requires Distinct(names) && k <= |names| && x in names[k..]
    ensures x in names && IndexOf(names, x) >= k
  {
    var j :| k <= j < |names| && names[j] == x;
    IndexOfDistinct(names, x, j);
  }

  /** Putting the month at position k in front of pairs taken from later months keeps the order. */
  lemma ConsOrdered<V>(names: seq<string>, k: nat, x: (string, V), rest: seq<(string, V)>)
    requires Distinct(names) && k < |names| && x.0 == names[k]
    requires InOrderOf(rest, names)
    requires forall p :: p in rest ==> p.0 in names[k + 1..]
    ensures InOrderOf([x] + rest, names)
  {
    var r := [x] + rest;
    IndexOfDistinct(names, names[k], k);
    forall j | 1 <= j < |r| ensures r[j].0 in names && IndexOf(names, r[j].0) > k {
      assert r[j] == rest[j - 1] && rest[j - 1] in rest;
      PositionsFrom(names, r[j].0, k + 1);
    }
    forall i, j | 0 <= i < j < |r| && r[i].0 in names && r[j].0 in names
      ensures IndexOf(names, r[i].0) < IndexOf(names, r[j].0)
    {
      if i > 0 { assert r[i] == rest[i - 1] && r[j] == rest[j - 1]; }
    }
  }

  lemma {:induction false} PresentFromOrdered<V>(names: seq<string>, m: map<string, V>, k: nat)
    requires Distinct(names) && k <= |names|
    ensures InOrderOf(PresentFrom(names, m, k), names)
    decreases |names| - k
  {
    if k < |names| {
      PresentFromOrdered(names, m, k + 1);
      PresentFromSound(names, m, k + 1);
      if names[k] in m {
        ConsOrdered(names, k, (names[k], m[names[k]]), PresentFrom(names, m, k + 1));
      }
    }
  }

  /** Only the keys listed in `names` matter. */
  lemma {:induction false} PresentFromSameOnNames<V>(names: seq<string>, m: map<string, V>, m': map<string, V>, k: nat)
    requires k <= |names|
    requires forall x :: x in names ==> (x in m <==> x in m') && (x in m ==> m[x] == m'[x])
    ensures PresentFrom(names, m, k) == PresentFrom(names, m', k)
    decreases |names| - k
  {
    if k < |names| {
      PresentFromSameOnNames(names, m, m', k + 1);
    }
  }

  /** Reading the ordered pairs back as a series gives the input on every listed key. */
  lemma {:induction false} ToMapOfPresentFrom<V>(names: seq<string>, m: map<string, V>, k: nat)
    requires k <= |names|
    ensures forall x :: x in names[k..] ==> (x in ToMap(PresentFrom(names, m, k)) <==> x in m)
    ensures forall x :: x in names[k..] && x in m ==> ToMap(PresentFrom(names, m, k))[x] == m[x]
    decreases |names| - k
  {
    if k < |names| {
      var rest := PresentFrom(names, m, k + 1);
      ToMapOfPresentFrom(names, m, k + 1);
      PresentFromSound(names, m, k + 1);
      assert forall x :: x in names[k..] && x != names[k] ==> x in names[k + 1..];
      var r := PresentFrom(names, m, k);
      if names[k] in m {
        assert r[0] == (names[k], m[names[k]]) && r[1..] == rest;
      } else {
        assert r == rest;
        forall x | x in ToMap(rest) ensures x in m {
          ToMapKeys(rest, x);
        }
      }
    }
  }

  lemma {:induction false} ToMapKeys<V>(r: seq<(string, V)>, k: string)
    requires k in ToMap(r)
    ensures exists p :: p in r && p.0 == k
  {
    if r[0].0 != k {
      ToMapKeys(r[1..], k);
      var p :| p in r[1..] && p.0 == k;
      assert p in r;
    }
  }

  lemma MonthOrderDistinct()
    ensures Distinct(MonthOrder)
  {
  }

  /**
   * The result holds exactly the month keys of the input, each with its own
   * value, in calendar order: other keys are dropped and absent months are
   * not filled in.
   */
  lemma OrderMonthsCorrect<V>(m: map<string, V>)
    ensures forall p :: p in OrderMonths(m) ==> p.0 in MonthOrder && p.0 in m && p.1 == m[p.0]
    ensures forall x :: x in MonthOrder && x in m ==> (x, m[x]) in OrderMonths(m)
    ensures InOrderOf(OrderMonths(m), MonthOrder)
    ensures |OrderMonths(m)| <= 12
  {
    PresentFromSound(MonthOrder, m, 0);
    assert MonthOrder[0..] == MonthOrder;
    forall x | x in MonthOrder && x in m ensures (x, m[x]) in OrderMonths(m) {
      var j :| 0 <= j < 12 && MonthOrder[j] == x;
      PresentFromComplete(MonthOrder, m, 0, j);
    }
    MonthOrderDistinct();
    PresentFromOrdered(MonthOrder, m, 0);
  }

  /** Ordering an already ordered series changes nothing. */
  lemma OrderMonthsIdempotent<V>(m: map<string, V>)
    ensures OrderMonths(ToMap(OrderMonths(m))) == OrderMonths(m)
  {
    ToMapOfPresentFrom(MonthOrder, m, 0);
    assert MonthOrder[0..] == MonthOrder;
    PresentFromSameOnNames(MonthOrder, ToMap(OrderMonths(m)), m, 0);
  }
}
