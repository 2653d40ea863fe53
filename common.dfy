/** Numeric conventions shared by every module: Rust's `f64 as usize`
    (saturating truncation), absolute value and left-to-right sums. */
module Num {

  /** `x as usize` for a non-NaN `f64`: negative values saturate to 0 and
      the fractional part is dropped. Saturation at `usize::MAX` is not
      modelled: integers here are unbounded. */
  function Trunc(x: real): (n: nat)
    ensures x <= 0.0 ==> n == 0
    ensures 0.0 <= x ==> n as real <= x < n as real + 1.0
  {
    if x <= 0.0 then 0 else x.Floor
  }

  function Abs(x: real): (r: real)
    ensures 0.0 <= r && (r == x || r == -x)
    ensures r == 0.0 <==> x == 0.0
  {
    if x < 0.0 then -x else x
  }

  /** A product of reals as a named term: lemmas about products state their
      facts through it, so that the facts apply to whatever expressions the
      caller passes. */
  function Mul(a: real, b: real): real
  {
    a * b
  }

  /** A quotient of reals as a named term, as `Mul`. */
  function Div(a: real, b: real): real
    requires b != 0.0
  {
    a / b
  }

  /** Multiplying by a non-negative factor keeps an inequality. */
  lemma MulMono(a: real, x: real, y: real)
    requires 0.0 <= a && x <= y
    ensures Mul(a, x) <= Mul(a, y)
  {
    assert a * y - a * x == a * (y - x);
  }

  /** A positive number over a positive number is positive. */
  lemma DivPos(p: real, q: real)
    requires 0.0 < p && 0.0 < q
    ensures 0.0 < Div(p, q)
  {
    assert p / q * q == p;
    assert 0.0 < p / q * q;
  }

  /** A positive product with a positive factor has a positive cofactor. */
  lemma PosFactor(w: real, x: real)
    requires 0.0 < w && 0.0 < Mul(w, x)
    ensures 0.0 < x
  {
    DivPos(Mul(w, x), w);
    assert Div(Mul(w, x), w) == (w * x) / w == x;
  }

  /** `iter().sum()` over a vector of `f64`. */
  function Sum(s: seq<real>): real
  {
    if s == [] then 0.0 else s[0] + Sum(s[1..])
  }

  /** `true` when every entry is a draw of `gen::<f64>()`, that is in [0,1). */
  ghost predicate UnitDraws(d: seq<real>)
  {
    forall i :: 0 <= i < |d| ==> 0.0 <= d[i] < 1.0
  }

  lemma {:induction false} SumNonNegative(s: seq<real>)
    requires forall i :: 0 <= i < |s| ==> 0.0 <= s[i]
    ensures 0.0 <= Sum(s)
    ensures Sum(s) == 0.0 <==> forall i :: 0 <= i < |s| ==> s[i] == 0.0
  {
    if s != [] {
      SumNonNegative(s[1..]);
      assert forall i :: 1 <= i < |s| ==> s[1..][i - 1] == s[i];
    }
  }

  lemma {:induction false} SumAppend(s: seq<real>, t: seq<real>)
    ensures Sum(s + t) == Sum(s) + Sum(t)
  {
    if s == [] {
      assert s + t == t;
    } else {
      assert (s + t)[1..] == s[1..] + t;
      SumAppend(s[1..], t);
    }
  }

  /** Lowering one entry of a sequence by `d` lowers its sum by `d`. */
  lemma {:induction false} SumUpdate(s: seq<real>, k: nat, v: real)
    requires k < |s|
    ensures Sum(s[k := v]) == Sum(s) - s[k] + v
  {
    if k == 0 {
      assert s[k := v][1..] == s[1..];
    } else {
      assert s[k := v][1..] == s[1..][k - 1 := v];
      SumUpdate(s[1..], k - 1, v);
    }
  }
}
