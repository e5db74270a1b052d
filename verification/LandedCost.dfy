/** Proportional allocation of customs and commission over the lines of a purchase, and
    the weighted average that blends a receipt into the cost of an item. */
module LandedCost {
  import opened Money
  import opened Weighted

  datatype LineInput = LineInput(itemId: nat, quantity: nat, unitCost: real)

  datatype Allocation = Allocation(
    itemId: nat,
    quantity: nat,
    baseUnitCost: real,
    customsPerUnit: real,
    commissionPerUnit: real,
    landedUnitCost: real)

  datatype BlendedCost = BlendedCost(costPrice: real, customsCost: real)

  function Quantities(lines: seq<LineInput>): seq<nat> {
    seq(|lines|, i requires 0 <= i < |lines| => lines[i].quantity)
  }

  function UnitCosts(lines: seq<LineInput>): seq<real> {
    seq(|lines|, i requires 0 <= i < |lines| => lines[i].unitCost)
  }

  function Subtotal(lines: seq<LineInput>): real {
    Sum(Quantities(lines), UnitCosts(lines), |lines|)
  }

  /** The unrounded part of amount that falls on one unit of the line. */
  function PerUnit(line: LineInput, amount: real, subtotal: real): real {
    var lineSubtotal := line.quantity as real * line.unitCost;
    var share := if subtotal > 0.0 then lineSubtotal / subtotal else 0.0;
    if line.quantity > 0 then amount * share / line.quantity as real else 0.0
  }

  function AllocateLine(line: LineInput, subtotal: real, customs: real, commission: real): Allocation {
    var customsPerUnit := PerUnit(line, customs, subtotal);
    var commissionPerUnit := PerUnit(line, commission, subtotal);
    Allocation(
      line.itemId,
      line.quantity,
      line.unitCost,
      Round2(customsPerUnit),
      Round2(commissionPerUnit),
      Round2(line.unitCost + customsPerUnit + commissionPerUnit))
  }

  function Allocate(lines: seq<LineInput>, customs: real, commission: real): seq<Allocation> {
    var subtotal := Subtotal(lines);
    seq(|lines|, i requires 0 <= i < |lines| => AllocateLine(lines[i], subtotal, customs, commission))
  }

  function Mean(m: real, x: real, n: real, y: real): real
    requires m + n != 0.0
  {
    (m * x + n * y) / (m + n)
  }

  function Blend(existingStock: int, existingCostPrice: real, existingCustomsCost: real,
                 incomingQty: int, incomingLandedUnitCost: real, incomingCustomsPerUnit: real): BlendedCost
  {
    var totalQty := existingStock + incomingQty;
    if totalQty <= 0 then BlendedCost(incomingLandedUnitCost, incomingCustomsPerUnit)
    else
      var s, q := existingStock as real, incomingQty as real;
      BlendedCost(
        Round2(Mean(s, existingCostPrice, q, incomingLandedUnitCost)),
        Round2(Mean(s, existingCustomsCost, q, incomingCustomsPerUnit)))
  }

  // ---- Allocation conserves what was declared ----

  function Units(lines: seq<LineInput>): nat {
    Count(Quantities(lines), |lines|)
  }

  /** The unrounded parts of amount per unit of each line. */
  ghost function PerUnits(lines: seq<LineInput>, amount: real): seq<real> {
    seq(|lines|, i requires 0 <= i < |lines| => PerUnit(lines[i], amount, Subtotal(lines)))
  }

  lemma PerUnitIsProportional(line: LineInput, amount: real, subtotal: real, k: real)
    requires line.quantity > 0
    requires k == if subtotal > 0.0 then amount / subtotal else 0.0
    ensures PerUnit(line, amount, subtotal) == k * line.unitCost
  {
    if subtotal > 0.0 {
      var q, u := line.quantity as real, line.unitCost;
      var share := q * u / subtotal;
      assert share / q == u / subtotal;
      assert amount * share / q == amount * (share / q);
    }
  }

  /** The unrounded parts add up to the amount exactly when there is something to weigh
      them by: a purchase whose subtotal is not positive drops the amount altogether. */
  lemma SharesAreExact(lines: seq<LineInput>, amount: real)
    ensures Sum(Quantities(lines), PerUnits(lines, amount), |lines|) == (if Subtotal(lines) > 0.0 then amount else 0.0)
  {
    var subtotal := Subtotal(lines);
    var k := if subtotal > 0.0 then amount / subtotal else 0.0;
    SharesAreProportional(lines, amount, subtotal, k, PerUnits(lines, amount));
    if subtotal > 0.0 {
      QuotientTimes(amount, subtotal);
    }
  }

  lemma SharesAreProportional(lines: seq<LineInput>, amount: real, subtotal: real, k: real, xs: seq<real>)
    requires k == if subtotal > 0.0 then amount / subtotal else 0.0
    requires |xs| == |lines|
    requires forall i :: 0 <= i < |lines| ==> xs[i] == PerUnit(lines[i], amount, subtotal)
    ensures Sum(Quantities(lines), xs, |lines|) == k * Subtotal(lines)
  {
    hide PerUnit, Sum;
    var ns, ys := Quantities(lines), UnitCosts(lines);
    assert forall i :: 0 <= i < |lines| && ns[i] > 0 ==> xs[i] == k * ys[i] by {
      forall i | 0 <= i < |lines| && ns[i] > 0
        ensures xs[i] == k * ys[i]
      {
        PerUnitIsProportional(lines[i], amount, subtotal, k);
      }
    }
    SumScaled(ns, xs, ys, |lines|, k);
  }

  lemma QuotientTimes(x: real, w: real)
    requires w != 0.0
    ensures x / w * w == x
  {
  }

  datatype Field = Customs | Commission | Landed

  function Get(a: Allocation, field: Field): real {
    match field
    case Customs => a.customsPerUnit
    case Commission => a.commissionPerUnit
    case Landed => a.landedUnitCost
  }

  /** Sum of quantity times one of the rounded per-unit fields of the allocation. */
  ghost function Booked(lines: seq<LineInput>, allocations: seq<Allocation>, field: Field): real
    requires |allocations| == |lines|
  {
    Sum(Quantities(lines), seq(|lines|, i requires 0 <= i < |lines| => Get(allocations[i], field)), |lines|)
  }

  /** The same over the first n lines, for as many allocations. */
  ghost function BookedOver(lines: seq<LineInput>, allocations: seq<Allocation>, field: Field, n: nat): real
    requires |allocations| == |lines| && n <= |lines|
  {
    Sum(Quantities(lines), seq(|lines|, i requires 0 <= i < |lines| => Get(allocations[i], field)), n)
  }

  lemma OneMoreUnits(lines: seq<LineInput>, line: LineInput)
    ensures Units([]) == 0
    ensures Units(lines + [line]) == Units(lines) + line.quantity
  {
    CountOfPrefix(Quantities(lines), Quantities(lines + [line]), |lines|);
  }

  lemma {:induction false} CountOfPrefix(ns: seq<nat>, more: seq<nat>, n: nat)
    requires n <= |ns| && n <= |more| && forall i :: 0 <= i < n ==> ns[i] == more[i]
    ensures Count(ns, n) == Count(more, n)
  {
    if n > 0 {
      CountOfPrefix(ns, more, n - 1);
    }
  }

  /** What the lines carry per unit adds up to what the purchase declared, within half a
      céntimo per unit bought: customs and commission each on their own, and both on top
      of the prices in the landed cost. */
  lemma AllocationConservesCost(lines: seq<LineInput>, customs: real, commission: real)
    requires Subtotal(lines) > 0.0
    ensures var allocations := Allocate(lines, customs, commission);
            var tolerance := 0.005 * Units(lines) as real;
            && Near(Booked(lines, allocations, Customs), customs, tolerance)
            && Near(Booked(lines, allocations, Commission), commission, tolerance)
            && Near(Booked(lines, allocations, Landed), Subtotal(lines) + customs + commission, tolerance)
  {
    hide PerUnit, Sum, Count;
    var n, ns := |lines|, Quantities(lines);
    var allocations := Allocate(lines, customs, commission);
    var cs, ks := PerUnits(lines, customs), PerUnits(lines, commission);
    var extra := seq(n, i requires 0 <= i < n => cs[i] + ks[i]);
    var exact := seq(n, i requires 0 <= i < n => UnitCosts(lines)[i] + extra[i]);
    SharesAreExact(lines, customs);
    SharesAreExact(lines, commission);
    SumAdds(ns, cs, ks, extra, n);
    SumAdds(ns, UnitCosts(lines), extra, exact, n);
    SumNear(ns, seq(n, i requires 0 <= i < n => Get(allocations[i], Customs)), cs, n);
    SumNear(ns, seq(n, i requires 0 <= i < n => Get(allocations[i], Commission)), ks, n);
    SumNear(ns, seq(n, i requires 0 <= i < n => Get(allocations[i], Landed)), exact, n);
  }

  /** Without a positive subtotal nothing is allocated: each line keeps its own price. */
  lemma NothingAllocated(lines: seq<LineInput>, customs: real, commission: real, i: nat)
    requires Subtotal(lines) <= 0.0 && i < |lines|
    ensures var a := Allocate(lines, customs, commission)[i];
            a.customsPerUnit == 0.0 && a.commissionPerUnit == 0.0 && a.landedUnitCost == Round2(lines[i].unitCost)
  {
    Round2FixesCents(0.0);
  }

  // ---- Blending ----

  /** A weighted mean lies between its two values. */
  lemma MeanIsBetween(m: real, x: real, n: real, y: real, lo: real, hi: real)
    requires m >= 0.0 && n >= 0.0 && m + n > 0.0
    requires lo <= x <= hi && lo <= y <= hi
    ensures lo <= Mean(m, x, n, y) <= hi
  {
    var sum, w := m * x + n * y, m + n;
    ProductsBetween(m, x, n, y, lo, hi, w, sum);
    DivMonotone(w * lo, sum, w);
    DivMonotone(sum, w * hi, w);
    ProductOver(w, lo);
    ProductOver(w, hi);
  }

  lemma ProductsBetween(m: real, x: real, n: real, y: real, lo: real, hi: real, w: real, sum: real)
    requires m >= 0.0 && n >= 0.0 && w == m + n && sum == m * x + n * y
    requires lo <= x <= hi && lo <= y <= hi
    ensures w * lo <= sum <= w * hi
  {
    var xLo, yLo, xHi, yHi := m * (x - lo), n * (y - lo), m * (hi - x), n * (hi - y);
    assert xLo >= 0.0 && yLo >= 0.0 && xHi >= 0.0 && yHi >= 0.0;
    assert sum - w * lo == xLo + yLo;
    assert w * hi - sum == xHi + yHi;
  }

  lemma ProductOver(w: real, x: real)
    requires w != 0.0
    ensures w * x / w == x
  {
  }

  /** Blended costs never leave the range of the costs that went in. */
  lemma BlendStaysInRange(stock: nat, cost: real, qty: nat, landed: real, lo: real, hi: real,
                          other: real, incoming: real)
    requires IsCents(lo) && IsCents(hi)
    requires lo <= cost <= hi && lo <= landed <= hi
    ensures lo <= Blend(stock, cost, other, qty, landed, incoming).costPrice <= hi
    ensures lo <= Blend(stock, other, cost, qty, incoming, landed).customsCost <= hi
  {
    if stock + qty > 0 {
      MeanIsBetween(stock as real, cost, qty as real, landed, lo, hi);
      Round2Stays(lo, Mean(stock as real, cost, qty as real, landed), hi);
    }
  }

  /** Value made up or lost because total - qty units entered the stock unweighed. */
  ghost function UnweighedGap(stock: nat, cost: real, qty: nat, total: nat, landed: real): real
    requires qty > 0
  {
    stock as real * (total as real - qty as real) * (cost - landed) / (stock as real + qty as real)
  }

  /** The value after a blend, for a stock that grew by total units of which only the
      last qty were weighed in. Besides rounding there is one systematic term. */
  lemma BlendedValue(stock: nat, cost: real, customsCost: real, qty: nat, total: nat, landed: real, customs: real)
    requires 0 < qty <= total
    ensures Near(Worth(stock + total, Blend(stock, cost, customsCost, qty, landed, customs).costPrice),
                 Worth(stock, cost) + Worth(total, landed) + UnweighedGap(stock, cost, qty, total, landed),
                 0.005 * (stock as real + total as real))
  {
    var s, q, t := stock as real, qty as real, total as real;
    var gap := UnweighedGap(stock, cost, qty, total, landed);
    var blended := Blend(stock, cost, customsCost, qty, landed, customs).costPrice;
    assert Near(blended, Mean(s, cost, q, landed), 0.005);
    assert (stock + total) as real == s + t;
    WorthOfReals(stock + total, s + t, blended);
    WorthOfReals(stock, s, cost);
    WorthOfReals(total, t, landed);
    BlendedValueOfReals(s, cost, q, t, landed, blended, s + t, s * cost + t * landed + gap);
  }

  lemma WorthOfReals(units: int, n: real, unitCost: real)
    requires n == units as real
    ensures Worth(units, unitCost) == n * unitCost
  {
  }

  lemma BlendedValueOfReals(s: real, cost: real, q: real, t: real, landed: real,
                            blended: real, after: real, target: real)
    requires s >= 0.0 && q > 0.0 && t >= 0.0
    requires Near(blended, Mean(s, cost, q, landed), 0.005)
    requires after == s + t
    requires target == s * cost + t * landed + s * (t - q) * (cost - landed) / (s + q)
    ensures Near(after * blended, target, 0.005 * after)
  {
    var mean := Mean(s, cost, q, landed);
    assert after * mean == target by {
      UnroundedGap(s, cost, q, t, landed, mean);
    }
    ScaledErrorTo(after, blended, mean, 0.005, target);
  }

  lemma UnroundedGap(s: real, cost: real, q: real, t: real, landed: real, mean: real)
    requires s >= 0.0 && q > 0.0
    requires mean == Mean(s, cost, q, landed)
    ensures (s + t) * mean == s * cost + t * landed + s * (t - q) * (cost - landed) / (s + q)
  {
    var w, d := s + q, s * (cost - landed);
    var sum := s * cost + q * landed;
    assert mean * w == sum;
    assert (s + t) * mean == sum + (t - q) * mean by {
      assert s + t == w + (t - q);
      assert (w + (t - q)) * mean == w * mean + (t - q) * mean;
    }
    assert mean == landed + d / w by {
      assert (landed + d / w) * w == sum;
    }
    assert (t - q) * (landed + d / w) == (t - q) * landed + (t - q) * d / w;
    assert (t - q) * d == s * (t - q) * (cost - landed);
  }

  lemma GapVanishes(s: real, q: real, t: real, difference: real)
    requires s >= 0.0 && q > 0.0
    ensures s * (t - q) * difference / (s + q) == 0.0 <==> s == 0.0 || q == t || difference == 0.0
  {
    var product := s * (t - q) * difference;
    var gap := product / (s + q);
    assert gap * (s + q) == product;
    assert s * (t - q) == 0.0 <==> s == 0.0 || t == q;
    assert product == 0.0 <==> s * (t - q) == 0.0 || difference == 0.0;
  }

  /** The systematic term vanishes exactly when the stock was empty, every unit was
      weighed in, or the incoming cost is the old one. */
  lemma UnweighedGapVanishes(stock: nat, cost: real, qty: nat, total: nat, landed: real)
    requires 0 < qty <= total
    ensures UnweighedGap(stock, cost, qty, total, landed) == 0.0 <==> stock == 0 || qty == total || cost == landed
  {
    GapVanishes(stock as real, qty as real, total as real, cost - landed);
  }

  // ---- What one line is allocated ----

  lemma OneMoreLine(lines: seq<LineInput>, line: LineInput)
    ensures Subtotal([]) == 0.0
    ensures Subtotal(lines + [line]) == Subtotal(lines) + line.quantity as real * line.unitCost
  {
    SumOfPrefix(Quantities(lines), Quantities(lines + [line]), UnitCosts(lines), UnitCosts(lines + [line]), |lines|);
  }

  lemma {:induction false} SumOfPrefix(ns: seq<nat>, more: seq<nat>, xs: seq<real>, ys: seq<real>, n: nat)
    requires n <= |ns| && n <= |more| && n <= |xs| && n <= |ys|
    requires forall i :: 0 <= i < n ==> ns[i] == more[i] && xs[i] == ys[i]
    ensures Sum(ns, xs, n) == Sum(more, ys, n)
  {
    if n > 0 {
      SumOfPrefix(ns, more, xs, ys, n - 1);
    }
  }

  /** What one unit of a price carries of customs and commission, and what it costs in all: the
      part of each amount is to the amount as the price is to the subtotal S. */
  ghost predicate Carries(price: real, customs: real, commission: real, S: real, c: real, k: real, landed: real) {
    && S > 0.0
    && c * S == price * customs
    && k * S == price * commission
    && landed == price + c + k
  }

  /** The share of a line goes by its price. */
  lemma AllocatedLine(lines: seq<LineInput>, customs: real, commission: real, i: nat, c: real, k: real, landed: real)
    requires i < |lines| && lines[i].quantity > 0
    requires Carries(lines[i].unitCost, customs, commission, Subtotal(lines), c, k, landed)
    ensures var a := Allocate(lines, customs, commission)[i];
            && a.itemId == lines[i].itemId && a.quantity == lines[i].quantity && a.baseUnitCost == lines[i].unitCost
            && Near(a.customsPerUnit, c, 0.005)
            && Near(a.commissionPerUnit, k, 0.005)
            && Near(a.landedUnitCost, landed, 0.005)
  {
    var S := Subtotal(lines);
    PerUnitOfPrice(lines[i], customs, S, c);
    PerUnitOfPrice(lines[i], commission, S, k);
    hide Subtotal, PerUnit;
  }

  lemma PerUnitOfPrice(line: LineInput, amount: real, subtotal: real, part: real)
    requires line.quantity > 0 && subtotal > 0.0
    requires part * subtotal == line.unitCost * amount
    ensures PerUnit(line, amount, subtotal) == part
  {
    var k := amount / subtotal;
    PerUnitIsProportional(line, amount, subtotal, k);
    hide PerUnit;
    QuotientTimes(amount, subtotal);
    SamePart(k, line.unitCost, amount, subtotal, part);
  }

  lemma SamePart(k: real, price: real, amount: real, subtotal: real, part: real)
    requires subtotal > 0.0 && k * subtotal == amount && part * subtotal == price * amount
    ensures k * price == part
  {
    assert (k * price) * subtotal == price * amount;
    assert (k * price - part) * subtotal == 0.0;
  }

  /** What a blend does to the customs of an item is what it does to its cost. */
  lemma BlendedCustoms(stock: nat, cost: real, customsCost: real, qty: nat, total: nat, landed: real, customs: real)
    requires 0 < qty <= total
    ensures Near(Worth(stock + total, Blend(stock, cost, customsCost, qty, landed, customs).customsCost),
                 Worth(stock, customsCost) + Worth(total, customs)
                   + UnweighedGap(stock, customsCost, qty, total, customs),
                 0.005 * (stock as real + total as real))
  {
    BlendIsSymmetric(stock, cost, customsCost, qty, landed, customs);
    BlendedValue(stock, customsCost, cost, qty, total, customs, landed);
    hide Blend, Worth, UnweighedGap;
  }

  lemma BlendIsSymmetric(stock: int, cost: real, customsCost: real, qty: int, landed: real, customs: real)
    ensures Blend(stock, cost, customsCost, qty, landed, customs).customsCost
         == Blend(stock, customsCost, cost, qty, customs, landed).costPrice
  {
  }

  /** Into a stock that is nothing or less, the incoming costs go as they are. */
  lemma BlendIntoNothing(stock: int, cost: real, customsCost: real, qty: int, landed: real, customs: real)
    requires stock + qty <= 0
    ensures Blend(stock, cost, customsCost, qty, landed, customs) == BlendedCost(landed, customs)
  {
  }
}
