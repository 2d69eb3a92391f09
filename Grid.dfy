/**
 Evenly spaced sample grids, as numpy's `linspace` builds them with both
 endpoints included, over exact reals.
 */
module Grid {

  /** The distance between two neighbouring grid values. */
  function Step(a: real, b: real, n: nat): real
    requires n >= 2
  {
    (b - a) / ((n - 1) as real)
  }

  /** Grid value i: i steps from the start. */
  function Point(a: real, b: real, n: nat, i: nat): real
    requires n >= 2
  {
    a + (i as real) * Step(a, b, n)
  }

  /** `n` evenly spaced values from `a` to `b`, both included; `[a]` when
      n = 1 and empty when n = 0. Nothing is rejected when a > b: the grid
      then runs downwards. */
  function Linspace(a: real, b: real, n: nat): (r: seq<real>)
    ensures |r| == n
    ensures n >= 1 ==> r[0] == a
  {
    if n == 0 then []
    else if n == 1 then [a]
    else seq(n, i requires 0 <= i < n => Point(a, b, n, i))
  }

  /** The n - 1 steps of a grid cover exactly b - a, so the step is
      positive, zero or negative as b lies above, at or below a. */
  lemma StepSign(a: real, b: real, n: nat)
    requires n >= 2
    ensures ((n - 1) as real) * Step(a, b, n) == b - a
    ensures a < b ==> Step(a, b, n) > 0.0
    ensures a == b ==> Step(a, b, n) == 0.0
    ensures a > b ==> Step(a, b, n) < 0.0
  {
    var m := (n - 1) as real;
    assert m > 0.0;
    assert m * ((b - a) / m) == b - a;
  }

  /** Two grid values are as many steps apart as their indices. */
  lemma PointDiff(a: real, b: real, n: nat, i: nat, j: nat)
    requires n >= 2
    ensures Point(a, b, n, j) - Point(a, b, n, i) == ((j as real) - (i as real)) * Step(a, b, n)
  {
  }

  /** A positive factor keeps the sign of the other. */
  lemma MulSign(d: real, s: real)
    requires d > 0.0
    ensures s > 0.0 ==> d * s > 0.0
    ensures s == 0.0 ==> d * s == 0.0
    ensures s < 0.0 ==> d * s < 0.0
  {
  }

  /** The last grid value is exactly the upper endpoint. */
  lemma LinspaceLast(a: real, b: real, n: nat)
    requires n >= 2
    ensures Linspace(a, b, n)[n - 1] == b
  {
    StepSign(a, b, n);
  }

  /** Neighbouring grid values are one step apart. */
  lemma LinspaceEvenlySpaced(a: real, b: real, n: nat, i: nat)
    requires n >= 2 && i + 1 < n
    ensures Linspace(a, b, n)[i + 1] - Linspace(a, b, n)[i] == Step(a, b, n)
  {
    PointDiff(a, b, n, i, i + 1);
  }

  /** For a <= b the grid is ascending; for a < b strictly ascending. */
  lemma LinspaceAscending(a: real, b: real, n: nat, i: nat, j: nat)
    requires i < j < n && a <= b
    ensures Linspace(a, b, n)[i] <= Linspace(a, b, n)[j]
    ensures a < b ==> Linspace(a, b, n)[i] < Linspace(a, b, n)[j]
  {
    var s, d := Step(a, b, n), (j as real) - (i as real);
    StepSign(a, b, n);
    PointDiff(a, b, n, i, j);
    MulSign(d, s);
    assert Linspace(a, b, n)[j] - Linspace(a, b, n)[i] == d * s;
  }

  /** For a > b nothing is rejected and the grid is strictly descending. */
  lemma LinspaceDescending(a: real, b: real, n: nat, i: nat, j: nat)
    requires i < j < n && a > b
    ensures Linspace(a, b, n)[i] > Linspace(a, b, n)[j]
  {
    var s, d := Step(a, b, n), (j as real) - (i as real);
    StepSign(a, b, n);
    PointDiff(a, b, n, i, j);
    MulSign(d, s);
    assert Linspace(a, b, n)[j] - Linspace(a, b, n)[i] == d * s;
  }

  /** For a <= b every grid value lies within [a, b]. */
  lemma LinspaceWithin(a: real, b: real, n: nat, i: nat)
    requires i < n && a <= b
    ensures a <= Linspace(a, b, n)[i] <= b
  {
    if i > 0 {
      LinspaceAscending(a, b, n, 0, i);
    }
    if i < n - 1 {
      LinspaceAscending(a, b, n, i, n - 1);
    }
    if n >= 2 {
      LinspaceLast(a, b, n);
    }
  }

  /** Negating the numerator negates the quotient. */
  lemma NegQuotient(x: real, m: real)
    requires m != 0.0
    ensures (-x) / m == -(x / m)
  {
  }

  /** With at least two points, the grid from b to a is the grid from a to b
      read backwards (a single-point grid is just its start value). */
  lemma LinspaceReversed(a: real, b: real, n: nat, i: nat)
    requires 2 <= n && i < n
    ensures Linspace(b, a, n)[i] == Linspace(a, b, n)[n - 1 - i]
  {
    var t := Step(a, b, n);
    NegQuotient(b - a, (n - 1) as real);
    assert Step(b, a, n) == -t;
    StepSign(a, b, n);
    PointDiff(a, b, n, n - 1 - i, n - 1);
    assert Point(a, b, n, n - 1) == b;
    assert Point(b, a, n, i) == b - (i as real) * t;
  }
}
