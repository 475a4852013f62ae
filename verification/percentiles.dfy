/** The interpolated percentile of the latency reports, over the reals. */
module Percentiles {
  import opened Wrappers
  import opened RealOrder

  predicate Ascending(s: seq<real>) {
    forall i, k :: 0 <= i <= k < |s| ==> s[i] <= s[k]
  }

  function Insert(s: seq<real>, x: real): (r: seq<real>)
    ensures |r| == |s| + 1
  {
    if s == [] then [x] else if x <= s[0] then [x] + s else [s[0]] + Insert(s[1..], x)
  }

  function Sorted(s: seq<real>): (r: seq<real>)
    ensures |r| == |s|
  {
    if s == [] then [] else Insert(Sorted(s[1..]), s[0])
  }

  lemma {:induction false} InsertMembers(s: seq<real>, x: real)
    ensures forall y :: y in Insert(s, x) <==> y in s || y == x
  {
    if s != [] && x > s[0] {
      InsertMembers(s[1..], x);
      assert s == [s[0]] + s[1..];
    }
  }

  lemma {:induction false} InsertAscends(s: seq<real>, x: real)
    requires Ascending(s)
    ensures Ascending(Insert(s, x))
  {
    if s == [] {
    } else {
      if x > s[0] {
        InsertAscends(s[1..], x);
        InsertMembers(s[1..], x);
        PrependAscending(s[0], Insert(s[1..], x));
      } else {
        PrependAscending(x, s);
      }
    }
  }

  lemma PrependAscending(x: real, s: seq<real>)
    requires Ascending(s) && forall y :: y in s ==> x <= y
    ensures Ascending([x] + s)
  {
    var t := [x] + s;
    forall i, k | 0 <= i <= k < |t| ensures t[i] <= t[k] {
      if i > 0 {
        assert s[i - 1] <= s[k - 1];
      } else if k > 0 {
        assert s[k - 1] in s;
      }
    }
  }

  lemma {:induction false} SortedAscends(s: seq<real>)
    ensures Ascending(Sorted(s)) && forall y :: y in Sorted(s) <==> y in s
  {
    if s == [] {
    } else {
      SortedAscends(s[1..]);
      InsertAscends(Sorted(s[1..]), s[0]);
      InsertMembers(Sorted(s[1..]), s[0]);
      assert s == [s[0]] + s[1..];
    }
  }

  lemma TailMultiset(s: seq<real>)
    requires s != []
    ensures multiset(s) == multiset{s[0]} + multiset(s[1..])
  {
    assert s == [s[0]] + s[1..];
  }

  lemma {:induction false} InsertMultiset(s: seq<real>, x: real)
    ensures multiset(Insert(s, x)) == multiset(s) + multiset{x}
  {
    if s != [] && x > s[0] {
      InsertMultiset(s[1..], x);
      TailMultiset(s);
      TailMultiset(Insert(s, x));
      assert Insert(s, x)[1..] == Insert(s[1..], x);
    }
  }

  lemma {:induction false} SortedPermutes(s: seq<real>)
    ensures multiset(Sorted(s)) == multiset(s)
  {
    if s == [] {
    } else {
      SortedPermutes(s[1..]);
      InsertMultiset(Sorted(s[1..]), s[0]);
      TailMultiset(s);
    }
  }

  lemma LeastFirst(a: seq<real>, b: seq<real>)
    requires a != [] && Ascending(b) && multiset(a) == multiset(b)
    ensures b != [] && b[0] <= a[0]
  {
    assert a[0] in multiset(b);
  }

  // Two ascending lists with the same elements are the same list.
  lemma {:induction false} AscendingIsUnique(a: seq<real>, b: seq<real>)
    requires Ascending(a) && Ascending(b) && multiset(a) == multiset(b)
    ensures a == b
  {
    if a == [] {
      if b != [] {
        LeastFirst(b, a);
      }
    } else {
      LeastFirst(a, b);
      LeastFirst(b, a);
      TailMultiset(a);
      TailMultiset(b);
      SameTails(multiset{a[0]}, multiset(a[1..]), multiset(b[1..]));
      AscendingIsUnique(a[1..], b[1..]);
      assert a == [a[0]] + a[1..] && b == [b[0]] + b[1..];
    }
  }

  lemma SameTails(x: multiset<real>, a: multiset<real>, b: multiset<real>)
    requires x + a == x + b
    ensures a == b
  {
    assert a == (x + a) - x && b == (x + b) - x;
  }

  // The value at a fractional position of an ascending list.
  function At(s: seq<real>, position: real): real
    requires s != [] && 0.0 <= position <= (|s| - 1) as real
  {
    var lower := position.Floor;
    var upper := if lower + 1 < |s| - 1 then lower + 1 else |s| - 1;
    var weight := position - lower as real;
    s[lower] * (1.0 - weight) + s[upper] * weight
  }

  lemma PositionInRange(n: nat, quantile: real)
    requires n > 0 && 0.0 <= quantile <= 1.0
    ensures 0.0 <= (n - 1) as real * quantile <= (n - 1) as real
  {
    ProductSign((n - 1) as real, quantile);
    ScaleUp(quantile, 1.0, (n - 1) as real);
  }

  // An empty list has no percentile.
  function AtQuantile(ordered: seq<real>, quantile: real): Option<real>
    requires 0.0 <= quantile <= 1.0
  {
    if ordered == [] then None else
    PositionInRange(|ordered|, quantile);
    Some(At(ordered, (|ordered| - 1) as real * quantile))
  }

  function Percentile(values: seq<real>, quantile: real): Option<real>
    requires 0.0 <= quantile <= 1.0
  {
    AtQuantile(Sorted(values), quantile)
  }

  // Between its two neighbours, and at the neighbours at the ends.
  lemma Blend(a: real, b: real, w: real)
    requires a <= b && 0.0 <= w <= 1.0
    ensures a <= a * (1.0 - w) + b * w <= b
  {
    ProductSign(b - a, w);
    ProductSign(b - a, 1.0 - w);
    assert a * (1.0 - w) + b * w - a == (b - a) * w;
    assert b - (a * (1.0 - w) + b * w) == (b - a) * (1.0 - w);
  }

  lemma BlendUp(a: real, b: real, w: real, v: real)
    requires a <= b && 0.0 <= w <= v <= 1.0
    ensures a * (1.0 - w) + b * w <= a * (1.0 - v) + b * v
  {
    ProductSign(b - a, v - w);
    assert (a * (1.0 - v) + b * v) - (a * (1.0 - w) + b * w) == (b - a) * (v - w);
  }

  lemma AtIsBetween(s: seq<real>, x: real)
    requires s != [] && Ascending(s) && 0.0 <= x <= (|s| - 1) as real
    ensures s[x.Floor] <= At(s, x) <= s[if x.Floor + 1 < |s| - 1 then x.Floor + 1 else |s| - 1]
  {
    var upper := if x.Floor + 1 < |s| - 1 then x.Floor + 1 else |s| - 1;
    Blend(s[x.Floor], s[upper], x - x.Floor as real);
  }

  lemma AtIsMonotone(s: seq<real>, x: real, y: real)
    requires s != [] && Ascending(s) && 0.0 <= x <= y <= (|s| - 1) as real
    ensures At(s, x) <= At(s, y)
  {
    var i, k := x.Floor, y.Floor;
    if i == k {
      var upper := if i + 1 < |s| - 1 then i + 1 else |s| - 1;
      BlendUp(s[i], s[upper], x - i as real, y - i as real);
    } else {
      AtIsBetween(s, x);
      AtIsBetween(s, y);
    }
  }

  lemma QuantileIsBetween(s: seq<real>, quantile: real) returns (low: real, high: real)
    requires s != [] && Ascending(s) && 0.0 <= quantile <= 1.0
    ensures low in s && high in s && low <= AtQuantile(s, quantile).value <= high
    ensures quantile == 0.0 ==> forall x :: x in s ==> AtQuantile(s, quantile).value <= x
    ensures quantile == 1.0 ==> forall x :: x in s ==> x <= AtQuantile(s, quantile).value
  {
    hide At, Ascending;
    PositionInRange(|s|, quantile);
    var position := (|s| - 1) as real * quantile;
    assert quantile == 0.0 ==> position == 0.0;
    assert quantile == 1.0 ==> position == (|s| - 1) as real;
    AtIsBetween(s, position);
    low, high := s[position.Floor], s[if position.Floor + 1 < |s| - 1 then position.Floor + 1 else |s| - 1];
    Ends(s);
  }

  lemma Ends(s: seq<real>)
    requires s != [] && Ascending(s)
    ensures At(s, 0.0) == s[0] && At(s, (|s| - 1) as real) == s[|s| - 1]
    ensures forall x :: x in s ==> s[0] <= x <= s[|s| - 1]
  {
  }

  // A percentile lies between two of the values; at the ends of the scale it
  // is the least and the greatest of them.
  lemma PercentileIsBetween(values: seq<real>, quantile: real) returns (low: real, high: real)
    requires values != [] && 0.0 <= quantile <= 1.0
    ensures low in values && high in values && low <= Percentile(values, quantile).value <= high
    ensures quantile == 0.0 ==> forall x :: x in values ==> Percentile(values, quantile).value <= x
    ensures quantile == 1.0 ==> forall x :: x in values ==> x <= Percentile(values, quantile).value
  {
    SortedAscends(values);
    SortedLength(values);
    hide Sorted, Ascending, AtQuantile;
    low, high := QuantileIsBetween(Sorted(values), quantile);
  }

  // The share w of the way from a to b.
  function Towards(a: real, b: real, w: real): real {
    a + (b - a) * w
  }

  lemma BlendFrom(a: real, b: real, w: real)
    ensures a * (1.0 - w) + b * w == Towards(a, b, w)
  {
  }

  lemma AtFrom(s: seq<real>, x: real)
    requires s != [] && 0.0 <= x <= (|s| - 1) as real
    ensures var i := x.Floor;
      At(s, x) == if i == |s| - 1 then s[i] else Towards(s[i], s[i + 1], x - i as real)
  {
    var i := x.Floor;
    BlendFrom(s[i], s[if i + 1 < |s| - 1 then i + 1 else |s| - 1], x - i as real);
  }

  function Position(n: nat, quantile: real): real {
    (n - 1) as real * quantile
  }

  lemma AtPosition(s: seq<real>, quantile: real)
    requires s != [] && 0.0 <= quantile <= 1.0
    ensures var x := Position(|s|, quantile);
      0.0 <= x <= (|s| - 1) as real && AtQuantile(s, quantile) == Some(At(s, x))
  {
    PositionInRange(|s|, quantile);
  }

  // Between neighbours the percentile moves in proportion to the position.
  lemma PercentileInterpolates(values: seq<real>, quantile: real) returns (ordered: seq<real>, i: nat)
    requires values != [] && 0.0 <= quantile <= 1.0
    ensures multiset(ordered) == multiset(values) && Ascending(ordered) && i < |ordered|
    ensures var position := Position(|ordered|, quantile);
      && i as real <= position < i as real + 1.0
      && Percentile(values, quantile)
         == Some(if i == |ordered| - 1 then ordered[i]
                 else Towards(ordered[i], ordered[i + 1], position - i as real))
  {
    ordered := Sorted(values);
    SortedPermutes(values);
    SortedAscends(values);
    SortedLength(values);
    AtPosition(ordered, quantile);
    hide Sorted, Ascending, At, AtQuantile, Towards, Position;
    var position := Position(|ordered|, quantile);
    i := position.Floor;
    AtFrom(ordered, position);
  }

  lemma SortedLength(values: seq<real>)
    ensures |Sorted(values)| == |values|
  {
  }

  // The order of the values does not matter.
  lemma PercentileIgnoresOrder(a: seq<real>, b: seq<real>, quantile: real)
    requires multiset(a) == multiset(b) && 0.0 <= quantile <= 1.0
    ensures Percentile(a, quantile) == Percentile(b, quantile)
  {
    hide Sorted, AtQuantile, Ascending;
    SortedAscends(a);
    SortedAscends(b);
    SortedPermutes(a);
    SortedPermutes(b);
    AscendingIsUnique(Sorted(a), Sorted(b));
  }

  // A higher quantile never gives a lower value: median, 95th and 99th
  // percentile come in this order.
  lemma PercentilesAreOrdered(values: seq<real>, q: real, r: real)
    requires values != [] && 0.0 <= q <= r <= 1.0
    ensures Percentile(values, q).value <= Percentile(values, r).value
  {
    SortedAscends(values);
    SortedLength(values);
    hide Sorted, Ascending, AtQuantile;
    QuantilesAreOrdered(Sorted(values), q, r);
  }

  lemma QuantilesAreOrdered(s: seq<real>, q: real, r: real)
    requires s != [] && Ascending(s) && 0.0 <= q <= r <= 1.0
    ensures AtQuantile(s, q).value <= AtQuantile(s, r).value
  {
    hide At, Ascending;
    PositionInRange(|s|, q);
    PositionInRange(|s|, r);
    ScaleUp(q, r, (|s| - 1) as real);
    AtIsMonotone(s, (|s| - 1) as real * q, (|s| - 1) as real * r);
  }
}
