/** Down-sampling of a route for the simulated drive. */
module RouteSampling {

  datatype Coordinate = Coordinate(lat: real, lng: real)

  /** The position taken for slot `i` of `n` in a route of `len` points: the integer part of i * (len-1)/(n-1). */
  function SampleIndex(len: nat, n: nat, i: nat): nat
    requires len >= 1 && n >= 2
  {
    i * (len - 1) / (n - 1)
  }

  lemma QuotientBounds(p: nat, b: nat, q: nat)
    requires b > 0 && q == p / b
    ensures q * b <= p < (q + 1) * b
  {
  }

  lemma ProductMonotone(x: int, y: int, b: nat)
    requires x <= y
    ensures x * b <= y * b
  {
  }

  lemma QuotientUnique(p: nat, b: nat, q: int)
    requires b > 0 && q * b <= p < (q + 1) * b
    ensures p / b == q
  {
    var r := p / b;
    QuotientBounds(p, b, r);
    if r + 1 <= q { ProductMonotone(r + 1, q, b); }
    if q + 1 <= r { ProductMonotone(q + 1, r, b); }
  }

  lemma {:induction false} CastProduct(q: int, b: nat) returns (p: int)
    ensures p == q * b && p as real == q as real * b as real
    decreases b
  {
    if b == 0 {
      p := 0;
    } else {
      var before := CastProduct(q, b - 1);
      p := before + q;
      assert q * b == q * (b - 1) + q;
      assert b as real == (b - 1) as real + 1.0;
      assert q as real * b as real == q as real * (b - 1) as real + q as real;
    }
  }

  lemma StrictProduct(x: real, y: real, b: real, xb: real, yb: real)
    requires b > 0.0 && xb == x * b && yb == y * b
    ensures x <= y ==> xb <= yb
    ensures x < y ==> xb < yb
  {
    assert (y - x) * b == y * b - x * b;
    assert y > x ==> (y - x) * b > 0.0;
  }

  lemma Associate(i: real, r: real, b: real, a: real, x: real, y: real)
    requires r * b == a && x == i * r && y == i * a
    ensures x * b == y
  {
    assert (i * r) * b == i * (r * b);
  }

  lemma QuotientTimes(a: real, b: real) returns (r: real)
    requires b > 0.0
    ensures r == a / b && r * b == a
  {
    r := a / b;
  }

  lemma FloorTimes(x: real, q: int, next: int, b: nat, p: nat) returns (lower: int, upper: int)
    requires b > 0 && q as real <= x < next as real && x * b as real == p as real
    ensures lower == q * b && upper == next * b && lower <= p < upper
  {
    lower := CastProduct(q, b);
    upper := CastProduct(next, b);
    StrictProduct(q as real, x, b as real, lower as real, p as real);
    StrictProduct(x, next as real, b as real, p as real, upper as real);
  }

  /** Truncating the product with the real-valued step gives the integer quotient. */
  lemma StepFloor(i: nat, a: nat, b: nat)
    requires b > 0
    ensures (i as real * (a as real / b as real)).Floor == i * a / b
  {
    var r := QuotientTimes(a as real, b as real);
    var x := i as real * r;
    var p := CastProduct(i, a);
    Associate(i as real, r, b as real, a as real, x, p as real);
    var lower, upper := FloorTimes(x, x.Floor, x.Floor + 1, b, p);
    QuotientUnique(p, b, x.Floor);
  }

  /** Consecutive samples are the floor or the ceiling of the step apart. */
  lemma SampleGap(len: nat, n: nat, i: nat)
    requires len >= 1 && n >= 2
    ensures var gap := SampleIndex(len, n, i + 1) - SampleIndex(len, n, i);
            var step := (len - 1) / (n - 1);
            gap == step || (gap == step + 1 && (len - 1) % (n - 1) != 0)
  {
    var a, b := len - 1, n - 1;
    var q, s := i * a / b, a / b;
    assert (i + 1) * a == i * a + a;
    QuotientBounds(i * a, b, q);
    QuotientBounds(a, b, s);
    assert (q + s) * b == q * b + s * b && (q + s + 1) * b == q * b + s * b + b
        && (q + s + 2) * b == q * b + s * b + 2 * b;
    if i * a + a < (q + s + 1) * b {
      QuotientUnique(i * a + a, b, q + s);
    } else {
      QuotientUnique(i * a + a, b, q + s + 1);
      assert a != s * b;
      assert a == s * b + a % b;
    }
  }

  lemma SampleEnds(len: nat, n: nat)
    requires len >= 1 && n >= 2
    ensures SampleIndex(len, n, 0) == 0 && SampleIndex(len, n, n - 1) == len - 1
  {
    QuotientUnique((n - 1) * (len - 1), n - 1, len - 1);
  }

  /** On a route longer than `n` no position is taken twice, and both ends are kept. */
  lemma {:induction false} SamplesIncrease(len: nat, n: nat, i: nat, j: nat)
    requires 2 <= n < len && i < j < n
    ensures 0 <= SampleIndex(len, n, i) < SampleIndex(len, n, j) < len
    decreases j, i
  {
    SampleGap(len, n, j - 1);
    QuotientBounds(len - 1, n - 1, (len - 1) / (n - 1));
    if i < j - 1 {
      SamplesIncrease(len, n, i, j - 1);
    }
    if j < n - 1 {
      SampleBelowEnd(len, n, j);
    } else {
      SampleEnds(len, n);
    }
  }

  lemma SampleBelowEnd(len: nat, n: nat, i: nat)
    requires len >= 1 && n >= 2 && i < n
    ensures SampleIndex(len, n, i) < len
  {
    var a, b := len - 1, n - 1;
    var p := i * a;
    var r := p / b;
    QuotientBounds(p, b, r);
    ProductMonotone(i, b, a);
    if a < r {
      ProductMonotone(a + 1, r, b);
      assert false;
    }
  }

  /** The position the loop computes with real arithmetic. */
  function Taken(i: nat, step: real): int {
    (i as real * step).Floor
  }

  function StepOf(len: nat, n: nat): real
    requires len >= 1 && n >= 2
  {
    (len - 1) as real / (n - 1) as real
  }

  lemma TakenIsSample(len: nat, n: nat, i: nat)
    requires len >= 1 && n >= 2 && i < n
    ensures 0 <= Taken(i, StepOf(len, n)) == SampleIndex(len, n, i) < len
  {
    StepFloor(i, len - 1, n - 1);
    SampleBelowEnd(len, n, i);
  }

  ghost predicate Sampled(route: seq<Coordinate>, n: nat, i: nat, c: Coordinate)
    requires |route| >= 1 && n >= 2
  {
    SampleIndex(|route|, n, i) < |route| && c == route[SampleIndex(|route|, n, i)]
  }

  /** A short route is returned whole. Callers pass n >= 2; for n <= 0 the last store would be out of range. */
  method SampleRoute(route: seq<Coordinate>, n: int) returns (out: seq<Coordinate>)
    requires |route| <= n || n >= 2
    ensures |route| <= n ==> out == route
    ensures n < |route| ==>
              && |out| == n && out[0] == route[0] && out[n - 1] == route[|route| - 1]
              && forall i | 0 <= i < n :: Sampled(route, n, i, out[i])
  {
    if |route| <= n {
      return route;
    }
    out := [];
    var step := StepOf(|route|, n);
    for i := 0 to n
      invariant |out| == i
      invariant i > 0 ==> out[0] == route[0]
      invariant forall k | 0 <= k < i :: Sampled(route, n, k, out[k])
    {
      TakenIsSample(|route|, n, i);
      if i == 0 { SampleEnds(|route|, n); }
      out := out + [route[Taken(i, step)]];
    }
    SampleEnds(|route|, n);
    out := out[|out| - 1 := route[|route| - 1]];
  }
}
