/** Order facts about products and quotients of reals. */
module RealOrder {

  lemma ProductSign(a: real, b: real)
    requires a >= 0.0 && b >= 0.0
    ensures a * b >= 0.0
  {
  }

  lemma ScaleUp(a: real, b: real, k: real)
    requires a <= b && k >= 0.0
    ensures a * k <= b * k
  {
    ProductSign(b - a, k);
    assert (b - a) * k == b * k - a * k;
  }

  lemma Inverse(w: real)
    requires w > 0.0
    ensures 1.0 / w > 0.0 && (1.0 / w) * w == 1.0
  {
  }

  lemma QuotientIs(x: real, w: real, a: real)
    requires w > 0.0 && x * w == a
    ensures a / w == x
  {
  }

  lemma AsProduct(a: real, w: real)
    requires w > 0.0
    ensures a / w == a * (1.0 / w)
  {
    var inv := 1.0 / w;
    Inverse(w);
    Reassociate(a, inv, w);
    QuotientIs(a * inv, w, a);
  }

  lemma Reassociate(a: real, b: real, c: real)
    requires b * c == 1.0
    ensures (a * b) * c == a
  {
    assert (a * b) * c == a * (b * c);
  }

  lemma QuotientUp(a: real, b: real, w: real)
    requires a <= b && w > 0.0
    ensures a / w <= b / w
  {
    AsProduct(a, w);
    AsProduct(b, w);
    Inverse(w);
    ScaleUp(a, b, 1.0 / w);
  }

  lemma PositiveProduct(a: real, b: real)
    requires a > 0.0 && b > 0.0
    ensures a * b > 0.0
  {
  }

  // Non-negative numbers order like their squares.
  lemma SquareOrder(a: real, b: real)
    requires b >= 0.0 && a * a <= b * b
    ensures a <= b
  {
    assert (a - b) * (a + b) == a * a - b * b;
    if a > b {
      PositiveProduct(a - b, a + b);
    }
  }
}
