/** Powers and geometric sums over the reals. */
module Geometric {

  function Pow(x: real, n: nat): real {
    if n == 0 then 1.0 else x * Pow(x, n - 1)
  }

  lemma {:induction false} PowNonNegative(x: real, n: nat)
    requires x >= 0.0
    ensures Pow(x, n) >= 0.0
  {
    if n > 0 {
      PowNonNegative(x, n - 1);
    }
  }

  /** Powers multiply as their exponents add. */
  lemma {:induction false} PowAdds(x: real, m: nat, n: nat)
    ensures Pow(x, m + n) == Pow(x, m) * Pow(x, n)
    ensures Pow(x, 1) == x
  {
    assert Pow(x, 1) == x * Pow(x, 0);
    if m > 0 {
      PowAdds(x, m - 1, n);
      var p, q := Pow(x, m - 1), Pow(x, n);
      assert x * (p * q) == (x * p) * q;
    }
  }

  function SumOf(s: seq<real>): real {
    if s == [] then 0.0 else SumOf(s[..|s| - 1]) + s[|s| - 1]
  }

  function SumTo(f: nat -> real, n: nat): real {
    if n == 0 then 0.0 else SumTo(f, n - 1) + f(n - 1)
  }

  lemma {:induction false} SumBelow(s: seq<real>, f: nat -> real)
    requires forall j :: 0 <= j < |s| ==> s[j] <= f(j)
    ensures SumOf(s) <= SumTo(f, |s|)
  {
    if s != [] {
      SumBelow(s[..|s| - 1], f);
    }
  }

  /** first, first*ratio, first*ratio^2, ... */
  function Progression(first: real, ratio: real): nat -> real {
    (j: nat) => first * Pow(ratio, j)
  }

  /** The geometric sum of n terms, given power = ratio^n. */
  function ClosedForm(first: real, ratio: real, n: nat, power: real): real {
    if ratio == 1.0 then first * n as real else first * (power - 1.0) / (ratio - 1.0)
  }

  predicate Telescoped(sum: real, first: real, ratio: real, power: real) {
    sum * (ratio - 1.0) == first * (power - 1.0)
  }

  lemma {:induction false} GeometricSum(first: real, ratio: real, n: nat) returns (g: real, p: real)
    ensures g == SumTo(Progression(first, ratio), n) && p == Pow(ratio, n)
    ensures Telescoped(g, first, ratio, p)
  {
    if n == 0 {
      g, p := 0.0, 1.0;
    } else {
      var g', p' := GeometricSum(first, ratio, n - 1);
      g, p := g' + first * p', ratio * p';
      assert Progression(first, ratio)(n - 1) == first * p';
      calc {
        g * (ratio - 1.0);
        g' * (ratio - 1.0) + first * p' * (ratio - 1.0);
        first * (p' - 1.0) + first * p' * (ratio - 1.0);
        first * (p - 1.0);
      }
    }
  }

  lemma DivideOut(g: real, first: real, ratio: real, n: nat, p: real)
    requires ratio != 1.0 && Telescoped(g, first, ratio, p)
    ensures g == ClosedForm(first, ratio, n, p)
  {
    var d := ratio - 1.0;
    assert g == g * d / d;
  }

  lemma {:induction false} ConstantSum(first: real, n: nat)
    ensures SumTo(Progression(first, 1.0), n) == first * n as real && Pow(1.0, n) == 1.0
  {
    if n > 0 {
      ConstantSum(first, n - 1);
    }
  }

  lemma GeometricClosedForm(first: real, ratio: real, n: nat)
    ensures SumTo(Progression(first, ratio), n) == ClosedForm(first, ratio, n, Pow(ratio, n))
  {
    if ratio == 1.0 {
      ConstantSum(first, n);
    } else {
      var g, p := GeometricSum(first, ratio, n);
      DivideOut(g, first, ratio, n, p);
    }
  }

  lemma {:induction false} ProgressionGrows(first: real, ratio: real, n: nat, limit: nat)
    requires first >= 0.0 && ratio >= 0.0 && n <= limit
    ensures SumTo(Progression(first, ratio), n) <= SumTo(Progression(first, ratio), limit)
    decreases limit - n
  {
    if n < limit {
      ProgressionGrows(first, ratio, n, limit - 1);
      PowNonNegative(ratio, limit - 1);
      var p := Pow(ratio, limit - 1);
      assert first * p >= 0.0;
    }
  }
}
