/**
 * The arithmetic both bar charts share: the largest value of a column, a bar's
 * width as a percentage of it, and the minimum width a non-zero bar keeps.
 */
module Bars {
  /** One column of a chart, `data.map(d => value(d))`. */
  function Column<T>(rows: seq<T>, value: T -> real): (vs: seq<real>)
    ensures |vs| == |rows| && forall i :: 0 <= i < |rows| ==> vs[i] == value(rows[i])
  {
    seq(|rows|, i requires 0 <= i < |rows| => value(rows[i]))
  }

  /** `Math.max(...values)` over a non-empty column. */
  function MaxOf(vs: seq<real>): (m: real)
    requires |vs| > 0
    ensures forall i :: 0 <= i < |vs| ==> vs[i] <= m
    ensures exists i :: 0 <= i < |vs| && vs[i] == m
  {
    if |vs| == 1 then vs[0]
    else
      var m := MaxOf(vs[..|vs| - 1]);
      if vs[|vs| - 1] > m then vs[|vs| - 1] else m
  }

  /** `w` is `v`'s share of `max`, in percent. */
  predicate Share(w: real, v: real, max: real) { w * max == v * 100.0 }

  /** `max > 0 ? (v / max) * 100 : 0` */
  function Width(v: real, max: real): (w: real)
    ensures max <= 0.0 ==> w == 0.0
    ensures max > 0.0 ==> Share(w, v, max)
  {
    if max > 0.0 then v / max * 100.0 else 0.0
  }

  /** A non-negative value no larger than the maximum gets a width within 0..100; the maximum gets 100. */
  lemma WidthFacts(v: real, max: real)
    requires 0.0 <= v <= max
    ensures 0.0 <= Width(v, max) <= 100.0
    ensures max > 0.0 && v == max ==> Width(v, max) == 100.0
    ensures Width(v, max) == 0.0 <==> v == 0.0 || max == 0.0
  {
    if max > 0.0 {
      var w := Width(v, max);
      assert w * max == v * 100.0;
    }
  }

  /** Widths keep the order of the values. */
  lemma WidthMonotone(u: real, v: real, max: real)
    requires u <= v
    ensures Width(u, max) <= Width(v, max)
  {
    if max > 0.0 {
      assert Width(u, max) * max <= Width(v, max) * max;
    }
  }

  /** `value > 0 ? 'Npx' : '0'`: the minimum width in pixels. */
  function MinWidth(v: real, px: nat): (w: nat)
    ensures w == px || w == 0
    ensures w == px && px > 0 <==> v > 0.0 && px > 0
  {
    if v > 0.0 then px else 0
  }
}
