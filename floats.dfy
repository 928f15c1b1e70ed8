/**
 * The float64 results of the reducers and of the exporter's scaling.
 * A finite result is computed exactly as a real; a division by zero yields
 * NaN or an infinity in Go, and here yields NonFinite, which every later
 * arithmetic step keeps (NaN and infinities stay non-finite under +, * and /
 * by a finite non-zero constant).
 */
module Floats {

  datatype Value = Finite(x: real) | NonFinite

  /** `float64(num) / float64(den)`. */
  function Div(num: int, den: int): (v: Value)
    ensures v.Finite? <==> den != 0
    ensures v.Finite? ==> v.x * (den as real) == num as real
  {
    if den == 0 then NonFinite else Finite(num as real / den as real)
  }

  /** `a + b`. */
  function Add(a: Value, b: Value): (v: Value)
    ensures v.Finite? <==> a.Finite? && b.Finite?
  {
    if a.Finite? && b.Finite? then Finite(a.x + b.x) else NonFinite
  }

  /** `v * k`. */
  function Times(v: Value, k: real): (r: Value)
    ensures r.Finite? <==> v.Finite?
  {
    if v.Finite? then Finite(v.x * k) else NonFinite
  }

  /** `v / d` for a non-zero constant `d`. */
  function Over(v: Value, d: real): (r: Value)
    requires d != 0.0
    ensures r.Finite? <==> v.Finite?
    ensures r.Finite? ==> r.x * d == v.x
  {
    if v.Finite? then Finite(v.x / d) else NonFinite
  }

  /** Adding two shares of the same denominator adds the numerators. */
  lemma DivAdd(a: int, b: int, den: int)
    ensures Add(Div(a, den), Div(b, den)) == Div(a + b, den)
  {
    if den != 0 {
      var d := den as real;
      assert a as real / d + b as real / d == (a + b) as real / d;
    }
  }

  /** A part of a positive whole is a fraction in [0, 1]. */
  lemma DivFraction(part: int, whole: int)
    requires 0 <= part <= whole && whole > 0
    ensures Div(part, whole).Finite?
    ensures 0.0 <= Div(part, whole).x <= 1.0
  {
    var p, w := part as real, whole as real;
    assert p / w <= w / w;
  }

  /** Dividing twice by 1024 divides by 1048576. */
  lemma OverOver(num: int, den: int)
    ensures Over(Over(Div(num, den), 1024.0), 1024.0) == Div(num, den * 1048576)
  {
    if den != 0 {
      var n, d := num as real, den as real;
      assert n / d / 1024.0 / 1024.0 == n / (d * 1048576.0);
    }
  }

  /** The share `part / (other + part)` of two non-negative counts, not both zero. */
  lemma Share(part: int, other: int)
    requires part >= 0 && other >= 0 && part + other > 0
    ensures Div(part, other + part).Finite?
    ensures 0.0 <= Div(part, other + part).x <= 1.0
    ensures Div(part, other + part).x == 1.0 <==> other == 0
    ensures Div(part, other + part).x == 0.0 <==> part == 0
  {
    var p, w := part as real, (other + part) as real;
    var q := p / w;
    assert q * w == p;
    DivFraction(part, other + part);
    if q == 1.0 {
      assert p == w;
    }
    if q == 0.0 {
      assert p == 0.0;
    }
  }

  lemma DivSelf(n: int)
    requires n != 0
    ensures Div(n, n) == Finite(1.0)
  {
  }
}
