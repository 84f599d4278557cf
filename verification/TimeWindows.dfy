/** Lists of points in time, and how many of them a half-open window can hold. */
module TimeWindows {

  predicate Ascending(h: seq<real>) {
    forall i, j :: 0 <= i < j < |h| ==> h[i] <= h[j]
  }

  /** Each entry is at least w after the n-th before it. */
  predicate Spaced(h: seq<real>, n: nat, w: real) {
    forall i :: 0 <= i < |h| - n ==> h[i] + w <= h[i + n]
  }

  lemma SpacedExtends(h: seq<real>, n: nat, w: real, last: real)
    requires Ascending(h) && Spaced(h, n, w) && n > 0
    requires h != [] ==> h[|h| - 1] <= last
    requires |h| >= n ==> h[|h| - n] + w <= last
    ensures Ascending(h + [last]) && Spaced(h + [last], n, w)
  {
  }

  /** How many entries lie in [a, b). */
  function CountIn(h: seq<real>, a: real, b: real): (n: nat)
    ensures n <= |h|
  {
    if h == [] then 0 else (if a <= h[0] < b then 1 else 0) + CountIn(h[1..], a, b)
  }

  lemma {:induction false} CountInConcat(s: seq<real>, t: seq<real>, a: real, b: real)
    ensures CountIn(s + t, a, b) == CountIn(s, a, b) + CountIn(t, a, b)
  {
    if s == [] {
      assert s + t == t;
    } else {
      assert (s + t)[1..] == s[1..] + t;
      CountInConcat(s[1..], t, a, b);
    }
  }

  lemma {:induction false} CountInNone(h: seq<real>, a: real, b: real)
    requires forall i :: 0 <= i < |h| ==> h[i] < a
    ensures CountIn(h, a, b) == 0
  {
    if h != [] {
      CountInNone(h[1..], a, b);
    }
  }

  /** Spacing bounds every half-open window, wherever it starts. */
  lemma {:induction false} SpacedBoundsWindows(h: seq<real>, n: nat, w: real, a: real)
    requires Ascending(h) && Spaced(h, n, w)
    ensures CountIn(h, a, a + w) <= n
  {
    if h != [] {
      var m := |h| - 1;
      assert h == h[..m] + [h[m]];
      CountInConcat(h[..m], [h[m]], a, a + w);
      if !(a <= h[m] < a + w) {
        SpacedBoundsWindows(h[..m], n, w, a);
        assert CountIn([h[m]][1..], a, a + w) == 0;
      } else if m >= n {
        // The entry n places earlier, and everything before it, lies before the window.
        var k := m - n + 1;
        assert h[m - n] + w <= h[m];
        assert h == h[..k] + h[k..];
        CountInNone(h[..k], a, a + w);
        CountInConcat(h[..k], h[k..], a, a + w);
      }
    }
  }

  /** The entries later than the cutoff. */
  function After(h: seq<real>, cutoff: real): seq<real> {
    if h == [] then [] else if h[0] > cutoff then [h[0]] + After(h[1..], cutoff) else After(h[1..], cutoff)
  }

  /** On an ascending list that is a suffix. */
  lemma {:induction false} AfterIsSuffix(h: seq<real>, cutoff: real) returns (k: nat)
    requires Ascending(h)
    ensures k <= |h| && After(h, cutoff) == h[k..]
    ensures forall i :: 0 <= i < k ==> h[i] <= cutoff
    ensures forall i :: k <= i < |h| ==> h[i] > cutoff
  {
    if h == [] {
      k := 0;
    } else {
      var k' := AfterIsSuffix(h[1..], cutoff);
      if h[0] > cutoff {
        assert forall i :: 0 <= i < |h| - 1 ==> h[1..][i] == h[i + 1] >= h[0];
        assert k' == 0;
        k := 0;
      } else {
        k := k' + 1;
      }
    }
  }

  function Repeated(t: real, n: nat): seq<real> {
    seq(n, _ => t)
  }

  lemma {:induction false} AllAfter(h: seq<real>, cutoff: real)
    requires forall i :: 0 <= i < |h| ==> h[i] > cutoff
    ensures After(h, cutoff) == h
  {
    if h != [] {
      AllAfter(h[1..], cutoff);
      assert h == [h[0]] + h[1..];
    }
  }

  lemma {:induction false} NoneAfter(h: seq<real>, cutoff: real)
    requires forall i :: 0 <= i < |h| ==> h[i] <= cutoff
    ensures After(h, cutoff) == []
  {
    if h != [] {
      NoneAfter(h[1..], cutoff);
    }
  }
}
