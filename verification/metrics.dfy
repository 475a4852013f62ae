/**
 The arithmetic of the reports, over the reals: the Wilson interval and the
 startup phases that must add up.
 */
module Metrics {
  import opened Wrappers
  import opened RealOrder

  // ---------------------------------------------------------------------
  // Wilson interval

  const Z := 1.959963984540054

  // With u = z^2/n, the interval's centre and half-width; t is z times the
  // square root in the program's formula.
  function Centre(p: real, u: real): real
    requires u > 0.0
  {
    (p + u / 2.0) / (1.0 + u)
  }

  function Half(t: real, u: real): real
    requires u > 0.0
  {
    t / (1.0 + u)
  }

  datatype Interval = Interval(low: real, high: real)

  // p, d, centre and half as the program computes them; `root` is what its
  // square root returns.
  function Radicand(p: real, n: nat): real
    requires n > 0
  {
    p * (1.0 - p) / n as real + Z * Z / (4.0 * (n as real * n as real))
  }

  function Wilson(numerator: nat, denominator: nat, sqrt: real -> real): Option<Interval> {
    if denominator < 3 then None else
    var n := denominator as real;
    var p := numerator as real / n;
    var d := 1.0 + Z * Z / n;
    ZSquareOver(n);
    var centre := (p + Z * Z / (2.0 * n)) / d;
    var half := Z * sqrt(Radicand(p, denominator)) / d;
    Some(Interval(centre - half, centre + half))
  }

  lemma ZSquareOver(n: real)
    requires n > 0.0
    ensures Z * Z / n > 0.0
  {
    Inverse(n);
    AsProduct(Z * Z, n);
    PositiveProduct(Z * Z, 1.0 / n);
  }

  // t*t <= b*b gives the four bounds; the differences are squares.
  lemma UpperRoom(p: real, u: real, t: real)
    requires 0.0 <= p <= 1.0 && u > 0.0 && t >= 0.0
    requires t * t == u * p * (1.0 - p) + u * u / 4.0
    ensures t <= p + u / 2.0
  {
    var b := p + u / 2.0;
    ProductSign(p, p);
    ProductSign(p * p, u);
    assert b * b == p * p + p * u + u * u / 4.0;
    assert u * p * (1.0 - p) == p * u - p * p * u;
    SquareOrder(t, b);
  }

  lemma InnerRoom(p: real, u: real, t: real)
    requires 0.0 <= p <= 1.0 && u > 0.0 && t >= 0.0
    requires t * t == u * p * (1.0 - p) + u * u / 4.0
    ensures u * (1.0 - 2.0 * p) / 2.0 <= t
  {
    var a, q := u * (1.0 - 2.0 * p) / 2.0, p * (1.0 - p);
    ProductSign(p, 1.0 - p);
    ProductSign(u, q);
    ProductSign(u * u, q);
    assert a * a == u * u / 4.0 - u * u * q;
    assert u * p * (1.0 - p) == u * q;
    SquareOrder(a, t);
  }

  lemma Mirror(p: real, u: real)
    ensures u * (1.0 - p) * (1.0 - (1.0 - p)) == u * p * (1.0 - p)
  {
  }

  lemma IntervalInside(p: real, u: real, t: real)
    requires 0.0 <= p <= 1.0 && u > 0.0 && t >= 0.0
    requires t * t == u * p * (1.0 - p) + u * u / 4.0
    ensures 0.0 <= Centre(p, u) - Half(t, u) <= p <= Centre(p, u) + Half(t, u) <= 1.0
  {
    var d := 1.0 + u;
    Mirror(p, u);
    UpperRoom(p, u, t);
    UpperRoom(1.0 - p, u, t);
    InnerRoom(p, u, t);
    InnerRoom(1.0 - p, u, t);
    var low, high := p + u / 2.0 - t, p + u / 2.0 + t;
    Split(p + u / 2.0, t, d);
    QuotientUp(0.0, low, d);
    QuotientIs(0.0, d, 0.0);
    assert p * d == p + p * u;
    assert u * (1.0 - 2.0 * p) / 2.0 == u / 2.0 - p * u;
    assert u * (1.0 - 2.0 * (1.0 - p)) / 2.0 == p * u - u / 2.0;
    QuotientIs(p, d, p * d);
    QuotientUp(low, p * d, d);
    QuotientUp(p * d, high, d);
    QuotientUp(high, d, d);
    QuotientIs(1.0, d, d);
  }

  lemma Split(a: real, b: real, d: real)
    requires d > 0.0
    ensures a / d - b / d == (a - b) / d && a / d + b / d == (a + b) / d
  {
    AsProduct(a, d);
    AsProduct(b, d);
    AsProduct(a - b, d);
    AsProduct(a + b, d);
  }

  // The program's radicand, scaled by z^2, is the one above.
  lemma RadicandScales(p: real, n: nat)
    requires n > 0 && 0.0 <= p <= 1.0
    ensures var u := Z * Z / n as real;
      Z * Z * Radicand(p, n) == u * p * (1.0 - p) + u * u / 4.0
  {
    var m, zz := n as real, Z * Z;
    var inv := 1.0 / m;
    Inverse(m);
    AsProduct(zz, m);
    AsProduct(p * (1.0 - p), m);
    var q := p * (1.0 - p);
    SquareInverse(m);
    AsProduct(zz, 4.0 * (m * m));
    assert zz * (q * inv) == (zz * inv) * q;
    assert zz * (zz * (inv * inv / 4.0)) == (zz * inv) * (zz * inv) / 4.0;
  }

  lemma SquareInverse(m: real)
    requires m > 0.0
    ensures 4.0 * (m * m) > 0.0 && 1.0 / (4.0 * (m * m)) == (1.0 / m) * (1.0 / m) / 4.0
  {
    var inv := 1.0 / m;
    Inverse(m);
    PositiveProduct(m, m);
    assert (inv * inv / 4.0) * (4.0 * (m * m)) == (inv * m) * (inv * m);
    QuotientIs(inv * inv / 4.0, 4.0 * (m * m), 1.0);
  }

  // The interval is a sub-interval of [0, 1] around the observed share.
  lemma WilsonIsInside(numerator: nat, denominator: nat, sqrt: real -> real)
    requires numerator <= denominator && denominator >= 3
    requires var x := Radicand(numerator as real / denominator as real, denominator);
      sqrt(x) >= 0.0 && sqrt(x) * sqrt(x) == x
    ensures var i := Wilson(numerator, denominator, sqrt).value;
      0.0 <= i.low <= numerator as real / denominator as real <= i.high <= 1.0
  {
    var n := denominator as real;
    var p, u := numerator as real / n, Z * Z / n;
    QuotientUp(0.0, numerator as real, n);
    QuotientIs(0.0, n, 0.0);
    QuotientUp(numerator as real, n, n);
    QuotientIs(1.0, n, n);
    ZSquareOver(n);
    var root := sqrt(Radicand(p, denominator));
    var t := Z * root;
    ProductSign(Z, root);
    RadicandScales(p, denominator);
    assert t * t == Z * Z * (root * root);
    HalfOfU(n);
    IntervalInside(p, u, t);
  }

  lemma HalfOfU(n: real)
    requires n > 0.0
    ensures Z * Z / (2.0 * n) == (Z * Z / n) / 2.0
  {
    var u := Z * Z / n;
    assert u * n == Z * Z;
    assert (u / 2.0) * (2.0 * n) == u * n;
    QuotientIs(u / 2.0, 2.0 * n, Z * Z);
  }

  lemma ZeroFactor(a: real, d: real)
    requires d > 0.0 && a * d == 0.0
    ensures a == 0.0
  {
    if a > 0.0 {
      PositiveProduct(a, d);
    } else if a < 0.0 {
      PositiveProduct(-a, d);
    }
  }

  lemma Spread(x: real, p: real, u: real)
    ensures (x - p) * (x - p) - u * (x * (1.0 - x)) == (1.0 + u) * (x * x) - (2.0 * p + u) * x + p * p
  {
  }

  lemma Scaled(x: real, y: real, e: real, q: real, d: real)
    requires y == x * d
    ensures (d * (x * x) - e * x + q) * d == y * y - e * y + q * d
  {
    assert d * (x * x) * d == y * y;
    assert e * x * d == e * y;
  }

  // With t the scaled root, (b + t) / (1 + u) solves the score equation.
  lemma ScoreRoot(p: real, u: real, t: real, x: real)
    requires u > 0.0 && x * (1.0 + u) == p + u / 2.0 + t
    requires t * t == u * p * (1.0 - p) + u * u / 4.0
    ensures (x - p) * (x - p) == u * (x * (1.0 - x))
  {
    var d, y, e := 1.0 + u, p + u / 2.0 + t, 2.0 * p + u;
    Scaled(x, y, e, p * p, d);
    assert y * y - e * y + p * p * d == t * t - (u * p * (1.0 - p) + u * u / 4.0) by {
      assert e == 2.0 * (p + u / 2.0);
      assert y * y - e * y == t * t - (p + u / 2.0) * (p + u / 2.0);
      assert (p + u / 2.0) * (p + u / 2.0) == p * p + p * u + u * u / 4.0;
      assert u * p * (1.0 - p) == p * u - p * p * u;
    }
    ZeroFactor(d * (x * x) - e * x + p * p, d);
    Spread(x, p, u);
  }

  predicate OnScore(x: real, p: real, n: real) {
    n * ((x - p) * (x - p)) == Z * Z * (x * (1.0 - x))
  }

  lemma ScaledScore(x: real, p: real, u: real, n: real)
    requires n > 0.0 && u * n == Z * Z && (x - p) * (x - p) == u * (x * (1.0 - x))
    ensures OnScore(x, p, n)
  {
    var q := x * (1.0 - x);
    assert n * (u * q) == (u * n) * q;
  }

  // The root is positive, for the radicand is.
  lemma RootIsPositive(p: real, u: real, t: real)
    requires 0.0 <= p <= 1.0 && u > 0.0 && t >= 0.0 && t * t == u * p * (1.0 - p) + u * u / 4.0
    ensures t > 0.0
  {
    if t == 0.0 {
      var q := p * (1.0 - p);
      ProductSign(p, 1.0 - p);
      ProductSign(u, q);
      assert u * p * (1.0 - p) == u * q;
      PositiveSquare(u);
      NoSum(t * t, u * q, u * u);
    }
  }

  lemma PositiveSquare(u: real)
    requires u > 0.0
    ensures u * u > 0.0
  {
  }

  lemma NoSum(a: real, b: real, c: real)
    requires a == b + c / 4.0 && a == 0.0 && b >= 0.0
    ensures c <= 0.0
  {
  }

  lemma EndsSolve(p: real, u: real, t: real, n: real)
    requires 0.0 <= p <= 1.0 && u > 0.0 && t >= 0.0 && n > 0.0 && u * n == Z * Z
    requires t * t == u * p * (1.0 - p) + u * u / 4.0
    ensures var low, high := Centre(p, u) - Half(t, u), Centre(p, u) + Half(t, u);
      OnScore(low, p, n) && OnScore(high, p, n) && low < high
  {
    var d, low, high := 1.0 + u, Centre(p, u) - Half(t, u), Centre(p, u) + Half(t, u);
    Split(p + u / 2.0, t, d);
    assert low * d == p + u / 2.0 - t && high * d == p + u / 2.0 + t;
    RootIsPositive(p, u, t);
    ScoreRoot(p, u, -t, low);
    ScoreRoot(p, u, t, high);
    hide OnScore, Centre, Half;
    ScaledScore(low, p, u, n);
    ScaledScore(high, p, u, n);
    if high <= low {
      ScaleUp(high, low, d);
    }
  }

  // Both ends of the interval lie where the observed share is exactly Z
  // standard errors away, and they are different.
  lemma WilsonSolvesScore(numerator: nat, denominator: nat, sqrt: real -> real)
    requires numerator <= denominator && denominator >= 3
    requires var x := Radicand(numerator as real / denominator as real, denominator);
      sqrt(x) >= 0.0 && sqrt(x) * sqrt(x) == x
    ensures var (i, p, n) := (Wilson(numerator, denominator, sqrt).value, numerator as real / denominator as real,
                              denominator as real);
      OnScore(i.low, p, n) && OnScore(i.high, p, n) && i.low < i.high
  {
    var n := denominator as real;
    var p, u := numerator as real / n, Z * Z / n;
    QuotientUp(0.0, numerator as real, n);
    QuotientIs(0.0, n, 0.0);
    QuotientUp(numerator as real, n, n);
    QuotientIs(1.0, n, n);
    ZSquareOver(n);
    var root := sqrt(Radicand(p, denominator));
    var t := Z * root;
    ProductSign(Z, root);
    RadicandScales(p, denominator);
    assert t * t == Z * Z * (root * root);
    HalfOfU(n);
    hide OnScore, Radicand;
    EndsSolve(p, u, t, n);
  }

  // ---------------------------------------------------------------------
  // Startup phases

  datatype Phase = Phase(start: int, end: int)

  function Milliseconds(from: int, to: int): real {
    (to - from) as real / 1000000.0
  }

  // Each phase starts where the one before it ended, and none runs backwards.
  predicate GapFree(phases: seq<Phase>, start: int, ready: int) {
    if phases == [] then start == ready
    else phases[0].start == start && phases[0].start <= phases[0].end && GapFree(phases[1..], phases[0].end, ready)
  }

  lemma {:induction false} GapFreeMeans(phases: seq<Phase>, start: int, ready: int)
    ensures GapFree(phases, start, ready) <==>
      if phases == [] then start == ready else
      && phases[0].start == start && phases[|phases| - 1].end == ready
      && (forall k :: 0 <= k < |phases| ==> phases[k].start <= phases[k].end)
      && (forall k :: 0 < k < |phases| ==> phases[k].start == phases[k - 1].end)
  {
    if phases == [] {
    } else {
      var rest := phases[1..];
      GapFreeMeans(rest, phases[0].end, ready);
      assert forall k :: 0 < k < |phases| ==> phases[k] == rest[k - 1];
      assert |phases| > 1 ==> phases[1] == rest[0] && phases[|phases| - 1] == rest[|rest| - 1];
    }
  }

  function Sum(s: seq<real>): real {
    if s == [] then 0.0 else Sum(s[..|s| - 1]) + s[|s| - 1]
  }

  predicate Apart(a: real, b: real) {
    a - b > 1.0 || b - a > 1.0
  }

  // The cursor walks the phases; the sum check at the end cannot fail once the
  // walk has arrived at readiness.
  method PhaseLatencies(start: int, ready: int, phases: seq<Phase>) returns (latencies: Option<seq<real>>)
    ensures latencies.Some? <==> GapFree(phases, start, ready)
    ensures latencies.Some? ==> |latencies.value| == |phases| && Sum(latencies.value) == Milliseconds(start, ready)
    ensures latencies.Some? ==> forall k :: 0 <= k < |phases| ==>
      latencies.value[k] == Milliseconds(phases[k].start, phases[k].end) && latencies.value[k] >= 0.0
  {
    var cursor, found := start, [];
    for k := 0 to |phases|
      invariant |found| == k && Sum(found) == Milliseconds(start, cursor)
      invariant forall j :: 0 <= j < k ==> found[j] == Milliseconds(phases[j].start, phases[j].end) && found[j] >= 0.0
      invariant GapFree(phases, start, ready) <==> GapFree(phases[k..], cursor, ready)
    {
      var phase := phases[k];
      assert phases[k..][0] == phase && phases[k..][1..] == phases[k + 1..];
      if phase.start != cursor || phase.end < phase.start {
        return None;
      }
      Telescope(start, cursor, phase.end);
      assert (found + [Milliseconds(cursor, phase.end)])[..k] == found;
      found := found + [Milliseconds(cursor, phase.end)];
      cursor := phase.end;
    }
    assert phases[|phases|..] == [];
    if cursor != ready {
      return None;
    }
    if Apart(Sum(found), Milliseconds(start, ready)) {
      assert false;
    }
    return Some(found);
  }

  lemma Telescope(a: int, b: int, c: int)
    ensures Milliseconds(a, b) + Milliseconds(b, c) == Milliseconds(a, c)
    ensures b <= c ==> Milliseconds(b, c) >= 0.0
  {
  }
}
