/**
 * `ajustar_posicao_texto`: where to print the value label of each bar of a
 * chart. A bar smaller than a percentage of the tallest bar gets its label
 * outside, in black; every other bar gets it inside, in white.
 */
module Labels {

  datatype Position = Outside | Inside
  datatype TextColor = Black | White

  function MaxOf(s: seq<real>): (r: real)
    requires |s| > 0
    ensures r in s
    ensures forall i :: 0 <= i < |s| ==> s[i] <= r
  {
    if |s| == 1 then s[0]
    else
      var rest := MaxOf(s[1..]);
      if s[0] >= rest then s[0] else rest
  }

  /** `max(valores) if valores else 1`, times `threshold_percent / 100`. */
  function Threshold(values: seq<real>, percent: real): real {
    (if |values| == 0 then 1.0 else MaxOf(values)) * (percent / 100.0)
  }

  /**
   * The loop of the source: one position and one colour appended per value,
   * in input order.
   */
  method PlaceLabels(values: seq<real>, percent: real) returns (positions: seq<Position>, colors: seq<TextColor>)
    ensures |positions| == |values| && |colors| == |values|
    ensures forall i :: 0 <= i < |values| ==> (positions[i] == Outside <==> values[i] < Threshold(values, percent))
    ensures forall i :: 0 <= i < |values| ==> (colors[i] == Black <==> positions[i] == Outside)
    ensures forall i :: 0 <= i < |values| ==> (colors[i] == White <==> positions[i] == Inside)
    // With a percentage of at most 100, a non-negative tallest bar is always labelled inside.
    ensures 0.0 <= percent <= 100.0 && |values| > 0 && MaxOf(values) >= 0.0 ==>
      forall i :: 0 <= i < |values| && values[i] == MaxOf(values) ==> positions[i] == Inside
    // Bars of one non-negative height are all labelled inside.
    ensures percent <= 100.0 && (forall i :: 0 <= i < |values| ==> 0.0 <= values[i] == values[0]) ==>
      forall i :: 0 <= i < |values| ==> positions[i] == Inside
  {
    var threshold := Threshold(values, percent);
    positions, colors := [], [];
    for i := 0 to |values|
      invariant |positions| == i && |colors| == i
      invariant forall k :: 0 <= k < i ==> (positions[k] == Outside <==> values[k] < threshold)
      invariant forall k :: 0 <= k < i ==> (colors[k] == Black <==> positions[k] == Outside)
      invariant forall k :: 0 <= k < i ==> (colors[k] == White <==> positions[k] == Inside)
    {
      if values[i] < threshold {
        positions := positions + [Outside];
        colors := colors + [Black];
      } else {
        positions := positions + [Inside];
        colors := colors + [White];
      }
    }
    if |values| > 0 && 0.0 <= percent <= 100.0 && MaxOf(values) >= 0.0 {
      TallestBarInside(values, percent);
    }
    if percent <= 100.0 && (forall i :: 0 <= i < |values| ==> 0.0 <= values[i] == values[0]) {
      EqualBarsInside(values, percent);
    }
  }

  /** With a percentage of at most 100, no bar reaching the non-negative maximum falls below the threshold. */
  lemma TallestBarInside(values: seq<real>, percent: real)
    requires |values| > 0 && 0.0 <= percent <= 100.0 && MaxOf(values) >= 0.0
    ensures !(MaxOf(values) < Threshold(values, percent))
  {
    var m := MaxOf(values);
    assert m * (percent / 100.0) <= m * 1.0;
  }

  /** When every bar has one non-negative height, none is below a threshold of at most 100 percent. */
  lemma EqualBarsInside(values: seq<real>, percent: real)
    requires percent <= 100.0
    requires forall i :: 0 <= i < |values| ==> 0.0 <= values[i] == values[0]
    ensures forall i :: 0 <= i < |values| ==> !(values[i] < Threshold(values, percent))
  {
    if |values| > 0 {
      var m := MaxOf(values);
      assert m == values[0];
      assert m * (percent / 100.0) <= m;
    }
  }
}
