/**
 Welford's running variance (metrics/welford.go), over exact reals: the running
 values are the mean and the sum of squared deviations of everything added.
 */
module Welford {
  datatype Option<T> = None | Some(value: T)

  function SumOf(xs: seq<real>, f: real -> real): real {
    if xs == [] then 0.0 else SumOf(xs[..|xs| - 1], f) + f(xs[|xs| - 1])
  }

  function Itself(): real -> real {
    x => x
  }

  function Sum(xs: seq<real>): real {
    SumOf(xs, Itself())
  }

  /** The arithmetic mean; 0 of nothing. */
  function Mean(xs: seq<real>): real {
    if xs == [] then 0.0 else Sum(xs) / |xs| as real
  }

  function Apart(m: real): real -> real {
    x => (x - m) * (x - m)
  }

  /** The sum of squared deviations from m. */
  function Deviations(xs: seq<real>, m: real): real {
    SumOf(xs, Apart(m))
  }

  /** f exceeds g by a times id, plus b. */
  ghost predicate Exceeds(f: real -> real, g: real -> real, id: real -> real, a: real, b: real, x: real) {
    f(x) == g(x) + a * id(x) + b
  }

  ghost predicate ExceedsAlways(f: real -> real, g: real -> real, id: real -> real, a: real, b: real) {
    forall x {:trigger Exceeds(f, g, id, a, b, x)} :: Exceeds(f, g, id, a, b, x)
  }

  lemma SumStep(a: real, b: real, n: real, s: real, y: real)
    ensures a * (s + y) == a * s + a * y && (n + 1.0) * b == n * b + b
  {
  }

  /** What exceeds value by value exceeds in sum. */
  lemma {:induction false} SumExceeds(xs: seq<real>, f: real -> real, g: real -> real, id: real -> real, a: real, b: real)
    requires ExceedsAlways(f, g, id, a, b)
    ensures SumOf(xs, f) == SumOf(xs, g) + a * SumOf(xs, id) + |xs| as real * b
  {
    if xs != [] {
      var front, x := xs[..|xs| - 1], xs[|xs| - 1];
      SumExceeds(front, f, g, id, a, b);
      assert Exceeds(f, g, id, a, b, x);
      SumStep(a, b, |front| as real, SumOf(front, id), id(x));
      assert |xs| as real == |front| as real + 1.0;
    }
  }

  /** The new mean lies off the new value by n times what it moved. */
  lemma MeanStep(n: real, mean: real, x: real, mean': real)
    requires n >= 0.0 && mean' == mean + (x - mean) / (n + 1.0)
    ensures mean' * (n + 1.0) == mean * n + x
    ensures x - mean' == n * (mean' - mean)
  {
    var d := mean' - mean;
    assert d * (n + 1.0) == x - mean;
    assert mean' * (n + 1.0) == mean * (n + 1.0) + d * (n + 1.0);
    assert d * (n + 1.0) == n * d + d;
  }

  lemma Cross(n: real, mean: real, mean': real, x: real)
    requires x - mean' == n * (mean' - mean)
    ensures (x - mean) * (x - mean') == (x - mean') * (x - mean') + n * (mean' - mean) * (mean' - mean)
  {
    var d, e := mean' - mean, x - mean';
    assert (x - mean) * e == e * e + d * e;
    assert d * e == d * (n * d);
  }

  lemma ApartExceeds(m: real, m': real, a: real, b: real, x: real)
    requires a == 2.0 * (m - m') && b == m' * m' - m * m
    ensures Exceeds(Apart(m'), Apart(m), Itself(), a, b, x)
  {
    assert (x - m') * (x - m') == x * x - 2.0 * m' * x + m' * m';
    assert (x - m) * (x - m) == x * x - 2.0 * m * x + m * m;
    assert a * x == 2.0 * m * x - 2.0 * m' * x;
  }

  lemma ApartExceedsAlways(m: real, m': real, a: real, b: real)
    requires a == 2.0 * (m - m') && b == m' * m' - m * m
    ensures ExceedsAlways(Apart(m'), Apart(m), Itself(), a, b)
  {
    forall x ensures Exceeds(Apart(m'), Apart(m), Itself(), a, b, x) {
      ApartExceeds(m, m', a, b, x);
    }
  }

  lemma DeviationsMove(xs: seq<real>, m: real, m': real, a: real, b: real)
    requires ExceedsAlways(Apart(m'), Apart(m), Itself(), a, b)
    ensures Deviations(xs, m') == Deviations(xs, m) + a * Sum(xs) + |xs| as real * b
  {
    SumExceeds(xs, Apart(m'), Apart(m), Itself(), a, b);
  }

  lemma ShiftAlgebra(n: real, m: real, m': real, s: real, a: real, b: real)
    requires m * n == s && a == 2.0 * (m - m') && b == m' * m' - m * m
    ensures a * s + n * b == n * (m' - m) * (m' - m)
  {
    assert a * s == 2.0 * (m * m * n - m' * m * n);
    assert n * b == n * m' * m' - m * m * n;
    assert n * (m' - m) * (m' - m) == n * m' * m' - 2.0 * (m' * m * n) + m * m * n;
  }

  /** Deviations from another point exceed those from the mean by the moved distance squared, n times. */
  lemma Shift(xs: seq<real>, m: real, m': real, n: real)
    requires n == |xs| as real && m * n == Sum(xs)
    ensures Deviations(xs, m') == Deviations(xs, m) + n * (m' - m) * (m' - m)
  {
    var a, b := 2.0 * (m - m'), m' * m' - m * m;
    ApartExceedsAlways(m, m', a, b);
    DeviationsMove(xs, m, m', a, b);
    ShiftAlgebra(n, m, m', Sum(xs), a, b);
  }

  lemma MeanTimesCount(xs: seq<real>)
    ensures Mean(xs) * |xs| as real == Sum(xs)
  {
  }

  lemma Quotient(m: real, n: real, s: real)
    requires n > 0.0 && m * n == s
    ensures m == s / n
  {
  }

  lemma MeanIs(xs: seq<real>, x: real, m: real)
    requires m * (|xs| as real + 1.0) == Sum(xs) + x
    ensures m == Mean(xs + [x])
  {
    Quotient(m, |xs| as real + 1.0, Sum(xs) + x);
    assert (xs + [x])[..|xs|] == xs && |xs + [x]| as real == |xs| as real + 1.0;
  }

  lemma DeviationsSnoc(xs: seq<real>, x: real, m: real)
    ensures Deviations(xs + [x], m) == Deviations(xs, m) + (x - m) * (x - m)
  {
    assert (xs + [x])[..|xs|] == xs;
  }

  /** One update takes the mean and spread of xs to those of xs and x. */
  lemma UpdateStep(xs: seq<real>, x: real, mean': real)
    requires mean' == Mean(xs) + (x - Mean(xs)) / (|xs| as real + 1.0)
    ensures mean' == Mean(xs + [x])
    ensures Deviations(xs, Mean(xs)) + (x - Mean(xs)) * (x - mean') == Deviations(xs + [x], mean')
  {
    var n, mean := |xs| as real, Mean(xs);
    MeanTimesCount(xs);
    MeanStep(n, mean, x, mean');
    MeanIs(xs, x, mean');
    calc {
      Deviations(xs, mean) + (x - mean) * (x - mean');
    == { Cross(n, mean, mean', x); }
      Deviations(xs, mean) + n * (mean' - mean) * (mean' - mean) + (x - mean') * (x - mean');
    == { Shift(xs, mean, mean', n); }
      Deviations(xs, mean') + (x - mean') * (x - mean');
    == { DeviationsSnoc(xs, x, mean'); }
      Deviations(xs + [x], mean');
    }
  }

  class Welford {
    var mean: real
    var m2: real
    var count: nat
    ghost var values: seq<real>

    /** The fields are the mean and spread of everything added since the last reset. */
    ghost predicate Valid()
      reads this
    {
      count == |values| && mean == Mean(values) && m2 == Deviations(values, mean)
    }

    constructor ()
      ensures Valid() && values == []
    {
      mean, m2, count, values := 0.0, 0.0, 0, [];
    }

    method Update(val: real)
      requires Valid()
      modifies this
      ensures Valid() && values == old(values) + [val]
    {
      count := count + 1;
      var delta := val - mean;
      mean := mean + delta / count as real;
      var delta2 := val - mean;
      m2 := m2 + delta * delta2;
      assert count as real == |values| as real + 1.0;
      UpdateStep(values, val, mean);
      values := values + [val];
    }

    /** The mean and the sample variance; no variance (NaN) below two values. */
    method Get() returns (m: real, variance: Option<real>, n: nat)
      requires Valid()
      ensures m == Mean(values) && n == |values| && (variance.None? <==> n < 2)
      ensures n >= 2 ==> variance.value == Deviations(values, Mean(values)) / (n - 1) as real
    {
      m, variance, n := mean, None, count;
      if count >= 2 {
        variance := Some(m2 / (count - 1) as real);
      }
    }

    method Reset()
      modifies this
      ensures Valid() && values == []
    {
      mean, m2, count, values := 0.0, 0.0, 0, [];
    }
  }
}
