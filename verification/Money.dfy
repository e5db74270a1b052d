/** Money amounts in soles, as exact reals, and the rounding to céntimos that the
    services apply to every computed amount. */
module Money {

  /** An amount with at most two decimals: what a Decimal(10, 2) column can hold. */
  ghost predicate IsCents(v: real) {
    (v * 100.0).Floor as real == v * 100.0
  }

  /** Math.round(v * 100) / 100: the nearest céntimo, ties upwards also below zero. */
  function Round2(v: real): (r: real)
    ensures IsCents(r)
    ensures v - 0.005 < r <= v + 0.005
  {
    var n := (v * 100.0 + 0.5).Floor;
    assert (n as real / 100.0) * 100.0 == n as real;
    n as real / 100.0
  }

  /** What a number of units is worth at a unit cost. */
  function Worth(units: int, unitCost: real): real {
    units as real * unitCost
  }

  lemma WorthAdds(m: int, n: int, unitCost: real)
    ensures Worth(m + n, unitCost) == Worth(m, unitCost) + Worth(n, unitCost)
    ensures Worth(m - n, unitCost) == Worth(m, unitCost) - Worth(n, unitCost)
  {
    var x, y := m as real, n as real;
    assert (m + n) as real == x + y && (m - n) as real == x - y;
  }

  /** x and y differ by at most tolerance. */
  ghost predicate Near(x: real, y: real, tolerance: real) {
    y - tolerance <= x <= y + tolerance
  }

  /** Scaling an approximation by k scales its error by k. */
  lemma ScaledError(k: real, x: real, y: real, tolerance: real)
    requires k >= 0.0
    requires Near(x, y, tolerance)
    ensures Near(k * x, k * y, tolerance * k)
  {
    MulMonotone(k, y - tolerance, x);
    MulMonotone(k, x, y + tolerance);
    Distribute(k, y, tolerance);
    Distribute(k, y, -tolerance);
  }

  lemma ScaledErrorTo(k: real, x: real, y: real, tolerance: real, target: real)
    requires k >= 0.0
    requires Near(x, y, tolerance)
    requires k * y == target
    ensures Near(k * x, target, tolerance * k)
  {
    ScaledError(k, x, y, tolerance);
  }

  lemma MulMonotone(k: real, x: real, y: real)
    requires k >= 0.0
    requires x <= y
    ensures k * x <= k * y
  {
    assert k * (y - x) >= 0.0;
  }

  lemma Distribute(k: real, x: real, y: real)
    ensures k * (x + y) == k * x + k * y
  {
  }

  lemma DivMonotone(x: real, y: real, w: real)
    requires w > 0.0
    requires x <= y
    ensures x / w <= y / w
  {
    assert y / w - x / w == (y - x) / w;
  }

  /** Two céntimo amounts less than one céntimo apart are the same amount. */
  lemma CentsAreDiscrete(a: real, b: real)
    requires IsCents(a) && IsCents(b)
    requires a < b
    ensures a + 0.01 <= b
  {
    var m, n := (a * 100.0).Floor, (b * 100.0).Floor;
    assert m as real < n as real;
    assert m + 1 <= n;
  }

  /** The contract of Round2 leaves exactly one result. */
  lemma Round2Unique(v: real, r: real)
    requires IsCents(r)
    requires v - 0.005 < r <= v + 0.005
    ensures r == Round2(v)
  {
    var q := Round2(v);
    if r < q { CentsAreDiscrete(r, q); }
    if q < r { CentsAreDiscrete(q, r); }
  }

  lemma Round2FixesCents(v: real)
    requires IsCents(v)
    ensures Round2(v) == v
  {
    Round2Unique(v, v);
  }

  lemma Round2Monotone(v: real, w: real)
    requires v <= w
    ensures Round2(v) <= Round2(w)
  {
    if Round2(w) < Round2(v) {
      CentsAreDiscrete(Round2(w), Round2(v));
    }
  }

  /** Rounding never leaves an interval whose ends are céntimo amounts. */
  lemma Round2Stays(lo: real, v: real, hi: real)
    requires IsCents(lo) && IsCents(hi)
    requires lo <= v <= hi
    ensures lo <= Round2(v) <= hi
  {
    Round2FixesCents(lo);
    Round2FixesCents(hi);
    Round2Monotone(lo, v);
    Round2Monotone(v, hi);
  }
}
