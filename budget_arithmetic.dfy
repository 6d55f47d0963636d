/** Money arithmetic of the budget service: rounding up to whole cents
    (`roundUpToCents`) and the sums its `reduce` calls compute. Amounts are
    exact reals, so binary floating-point error is not part of the model. */
module BudgetArithmetic {

  /** `x` is a whole number of cents. */
  predicate CentAligned(x: real) {
    (x * 100.0).Floor as real == x * 100.0
  }

  function Ceil(y: real): (c: int)
    ensures y <= c as real < y + 1.0
  {
    -((-y).Floor)
  }

  /** `Math.ceil(value * 100) / 100`: the smallest whole number of cents that
      is not below `value`. */
  function RoundUpToCents(value: real): (r: real)
    ensures CentAligned(r)
    ensures value <= r < value + 0.01
    ensures CentAligned(value) ==> r == value
  {
    var c := Ceil(value * 100.0);
    var r := c as real / 100.0;
    assert r * 100.0 == c as real;
    assert (r * 100.0).Floor == c;
    assert CentAligned(value) ==> c as real == value * 100.0 by {
      if CentAligned(value) {
        var k := (value * 100.0).Floor;
        assert (-(value * 100.0)).Floor == -k;
      }
    }
    r
  }

  /** No whole number of cents lies in between: every cent-aligned amount that
      covers `value` also covers `RoundUpToCents(value)`. */
  lemma RoundUpIsLeast(value: real, c: real)
    requires CentAligned(c) && value <= c
    ensures RoundUpToCents(value) <= c
  {
    var k := (c * 100.0).Floor;
    assert k as real >= value * 100.0;
    assert Ceil(value * 100.0) <= k;
  }

  lemma AlignedSub(a: real, b: real)
    requires CentAligned(a) && CentAligned(b)
    ensures CentAligned(a - b)
  {
    var ka, kb := (a * 100.0).Floor, (b * 100.0).Floor;
    assert (a - b) * 100.0 == (ka - kb) as real;
  }

  lemma AlignedAdd(a: real, b: real)
    requires CentAligned(a) && CentAligned(b)
    ensures CentAligned(a + b)
  {
    var ka, kb := (a * 100.0).Floor, (b * 100.0).Floor;
    assert (a + b) * 100.0 == (ka + kb) as real;
  }

  /** A whole number of cents below half a cent in size is zero. */
  lemma AlignedNearZero(a: real)
    requires CentAligned(a) && -0.005 < a < 0.005
    ensures a == 0.0
  {
    var k := (a * 100.0).Floor;
    assert -0.5 < k as real < 0.5;
  }

  /** Sum of a list of amounts, as `reduce((sum, x) => sum + x, 0)`. */
  function Sum(xs: seq<real>): real {
    if |xs| == 0 then 0.0 else Sum(xs[..|xs| - 1]) + xs[|xs| - 1]
  }

  lemma {:induction false} SumAppend(xs: seq<real>, x: real)
    ensures Sum(xs + [x]) == Sum(xs) + x
  {
    assert (xs + [x])[..|xs|] == xs;
  }

  lemma {:induction false} SumPositive(xs: seq<real>)
    requires forall i :: 0 <= i < |xs| ==> xs[i] > 0.0
    requires |xs| > 0
    ensures Sum(xs) > 0.0
    decreases |xs|
  {
    if |xs| > 1 {
      SumPositive(xs[..|xs| - 1]);
    }
  }
}
