/** Integer-pence arithmetic in 64 bits. The largest value doubles as the
    fail-closed sentinel of an overflow. */
module Pence {
  import opened Options

  const MAX_INT64: int := 0x7fff_ffff_ffff_ffff
  const MAXIMUM_PENCE: int := 1_000_000_000_000
  const WORD: int := 0x1_0000_0000_0000_0000


  predicate Int64(x: int) { -MAX_INT64 - 1 <= x <= MAX_INT64 }

  function Min(a: int, b: int): int { if b < a then b else a }

  function Max(a: int, b: int): int { if a < b then b else a }

  /** The exact quotient, rounded up. */
  function CeilDiv(a: int, b: int): int
    requires 0 <= a && 0 < b
  {
    (a + b - 1) / b
  }

  function Sum(terms: seq<int>): int {
    if terms == [] then 0 else Sum(terms[..|terms| - 1]) + terms[|terms| - 1]
  }

  predicate NonNegative(terms: seq<int>) { forall i :: 0 <= i < |terms| ==> 0 <= terms[i] }

  // ------------------------------------------------------------ checked totals

  /** The true total of nonnegative terms, capped; anything else is the sentinel. */
  function CashTotal(costs: seq<int>): int {
    if NonNegative(costs) then Min(MAX_INT64, Sum(costs)) else MAX_INT64
  }

  lemma {:induction false} SumOfNonNegative(terms: seq<int>)
    requires NonNegative(terms)
    ensures 0 <= Sum(terms)
    decreases |terms|
  {
    if terms != [] {
      SumOfNonNegative(terms[..|terms| - 1]);
    }
  }

  lemma {:induction false} SumConcat(a: seq<int>, b: seq<int>)
    ensures Sum(a + b) == Sum(a) + Sum(b)
    decreases |b|
  {
    if b == [] {
      assert a + b == a;
    } else {
      assert (a + b)[..|a + b| - 1] == a + b[..|b| - 1];
      SumConcat(a, b[..|b| - 1]);
    }
  }

  /** The running total never overflows: it stops at the first term that would. */
  method GrowthCashTotal(costs: seq<int>) returns (total: int)
    requires forall cost <- costs :: Int64(cost)
    ensures total == CashTotal(costs)
    ensures 0 <= total <= MAX_INT64
  {
    total := 0;
    for i := 0 to |costs|
      invariant NonNegative(costs[..i])
      invariant 0 <= total == Sum(costs[..i]) <= MAX_INT64
    {
      assert costs[..i + 1][..i] == costs[..i];
      assert costs == costs[..i + 1] + costs[i + 1..];
      if costs[i] < 0 || costs[i] > MAX_INT64 - total {
        if NonNegative(costs) {
          assert costs[..i + 1] == costs[..i] + [costs[i]];
          SumConcat(costs[..i + 1], costs[i + 1..]);
          SumOfNonNegative(costs[i + 1..]);
          assert Sum(costs[..i + 1]) == total + costs[i];
        }
        return MAX_INT64;
      }
      total := total + costs[i];
    }
    assert costs[..|costs|] == costs;
  }

  lemma MultisetWithout(s: seq<int>, i: nat)
    requires i < |s|
    ensures multiset(s[..i] + s[i + 1..]) == multiset(s) - multiset{s[i]}
  {
    assert s == s[..i] + [s[i]] + s[i + 1..];
  }

  lemma SumWithout(front: seq<int>, last: int, rest: seq<int>)
    ensures Sum(front + [last] + rest) == Sum(front + rest) + last
  {
    SumConcat(front, rest);
    SumConcat(front, [last]);
    SumConcat(front + [last], rest);
    assert [last][..0] == [];
    assert Sum([last]) == last;
  }

  lemma {:induction false} SumPermuted(a: seq<int>, b: seq<int>)
    requires multiset(a) == multiset(b)
    ensures Sum(a) == Sum(b)
    decreases |a|
  {
    assert |a| == |multiset(a)| == |multiset(b)| == |b|;
    if a != [] {
      var n, last := |a| - 1, a[|a| - 1];
      assert last in multiset(a);
      var i :| 0 <= i < |b| && b[i] == last;
      MultisetWithout(a, n);
      MultisetWithout(b, i);
      assert a[..n] + a[n + 1..] == a[..n];
      SumPermuted(a[..n], b[..i] + b[i + 1..]);
      assert b == b[..i] + [last] + b[i + 1..];
      SumWithout(b[..i], last, b[i + 1..]);
    }
  }

  lemma NonNegativePermuted(a: seq<int>, b: seq<int>)
    requires multiset(a) == multiset(b)
    ensures NonNegative(a) ==> NonNegative(b)
  {
    forall i | 0 <= i < |b| && NonNegative(a) ensures 0 <= b[i] {
      assert b[i] in multiset(b);
      assert b[i] in multiset(a);
    }
  }

  /** The order of the terms does not matter. */
  lemma CashTotalPermuted(a: seq<int>, b: seq<int>)
    requires multiset(a) == multiset(b)
    ensures CashTotal(a) == CashTotal(b)
  {
    SumPermuted(a, b);
    NonNegativePermuted(a, b);
    NonNegativePermuted(b, a);
  }

  lemma NonNegativeConcat(a: seq<int>, b: seq<int>)
    ensures NonNegative(a + b) <==> NonNegative(a) && NonNegative(b)
  {
    if NonNegative(a + b) {
      forall i | 0 <= i < |a| ensures 0 <= a[i] { assert (a + b)[i] == a[i]; }
      forall i | 0 <= i < |b| ensures 0 <= b[i] { assert (a + b)[|a| + i] == b[i]; }
    }
  }

  /** Neither does totalling part of them first. */
  lemma CashTotalNested(a: seq<int>, b: seq<int>)
    ensures CashTotal([CashTotal(a)] + b) == CashTotal(a + b)
  {
    SumConcat([CashTotal(a)], b);
    assert [CashTotal(a)][..0] == [];
    assert Sum([CashTotal(a)]) == CashTotal(a);
    SumConcat(a, b);
    NonNegativeConcat(a, b);
    NonNegativeConcat([CashTotal(a)], b);
    if NonNegative(a) {
      SumOfNonNegative(a);
    }
    if NonNegative(b) {
      SumOfNonNegative(b);
    }
  }

  /** A total below the sentinel is the true one, and every true one is kept. */
  lemma CashTotalBelowSentinel(costs: seq<int>)
    ensures CashTotal(costs) < MAX_INT64 <==> NonNegative(costs) && Sum(costs) < MAX_INT64
    ensures CashTotal(costs) < MAX_INT64 ==> CashTotal(costs) == Sum(costs)
  {
  }

  // ------------------------------------------------------- products and customs

  function CheckedPenceProduct(quantity: int, price: int): int {
    if quantity < 0 || price < 0 || (quantity > 0 && price > MAX_INT64 / quantity) then MAX_INT64
    else quantity * price
  }

  lemma CheckedProductExact(quantity: int, price: int)
    requires 0 <= quantity && 0 <= price
    ensures CheckedPenceProduct(quantity, price) == Min(MAX_INT64, quantity * price)
  {
    if quantity > 0 {
      if price > MAX_INT64 / quantity {
        assert price >= MAX_INT64 / quantity + 1;
        assert quantity * price >= quantity * (MAX_INT64 / quantity + 1) > MAX_INT64;
      } else {
        assert quantity * price <= quantity * (MAX_INT64 / quantity) <= MAX_INT64;
      }
    }
  }

  function CeilBPS(pence: int, bps: int): int {
    if pence <= 0 || bps <= 0 then 0
    else (pence / 10_000) * bps + ((pence % 10_000) * bps + 9_999) / 10_000
  }

  /** Cash that an immediate-or-cancel purchase may need. */
  function IocCash(quantity: int, limit: int, customsBPS: int): int {
    if quantity < 0 || customsBPS < 0 || (quantity > 0 && limit <= 0) then MAX_INT64
    else if quantity == 0 then 0
    else
      var purchase := CheckedPenceProduct(quantity, limit);
      var customs := CashTotal([
        CheckedPenceProduct(purchase / 10_000, customsBPS),
        CheckedPenceProduct(purchase % 10_000, customsBPS / 10_000),
        CeilBPS(purchase % 10_000, customsBPS % 10_000)]);
      // Each whole-ton fill may round its buyer customs separately.
      CashTotal([purchase, customs, quantity])
  }

  lemma SumOfThree(a: int, b: int, c: int)
    ensures Sum([a, b, c]) == a + b + c
  {
    assert [a][..0] == [];
    assert Sum([a]) == a;
    assert [a, b][..1] == [a];
    assert Sum([a, b]) == a + b;
    assert [a, b, c][..2] == [a, b];
  }

  /** Splitting both factors at 10,000 leaves one small product to round. */
  lemma SplitCustoms(purchase: int, bps: int)
    requires 0 <= purchase && 0 <= bps
    ensures
      CeilDiv(purchase * bps, 10_000) ==
      (purchase / 10_000) * bps + (purchase % 10_000) * (bps / 10_000) + CeilBPS(purchase % 10_000, bps % 10_000)
  {
    var a, r, c, d := purchase / 10_000, purchase % 10_000, bps / 10_000, bps % 10_000;
    calc {
      purchase * bps;
      (10_000 * a + r) * bps;
      10_000 * (a * bps) + r * bps;
      10_000 * (a * bps) + r * (10_000 * c + d);
      10_000 * (a * bps + r * c) + r * d;
    }
    assert 0 <= r * d;
    CeilShift(a * bps + r * c, r * d);
    if r > 0 && d > 0 {
      assert r / 10_000 == 0 && r % 10_000 == r;
    } else {
      assert r * d == 0;
    }
  }

  lemma CeilShift(whole: int, rest: int)
    requires 0 <= rest && 0 <= 10_000 * whole + rest
    ensures CeilDiv(10_000 * whole + rest, 10_000) == whole + CeilDiv(rest, 10_000)
  {
  }

  lemma CustomsExact(purchase: int, bps: int)
    requires 0 <= purchase && 0 <= bps
    ensures 0 <= purchase * bps
    ensures
      CashTotal([CheckedPenceProduct(purchase / 10_000, bps), CheckedPenceProduct(purchase % 10_000, bps / 10_000),
                 CeilBPS(purchase % 10_000, bps % 10_000)])
      == Min(MAX_INT64, CeilDiv(purchase * bps, 10_000))
  {
    var x := CheckedPenceProduct(purchase / 10_000, bps);
    var y := CheckedPenceProduct(purchase % 10_000, bps / 10_000);
    var z := CeilBPS(purchase % 10_000, bps % 10_000);
    CheckedProductExact(purchase / 10_000, bps);
    CheckedProductExact(purchase % 10_000, bps / 10_000);
    SumOfThree(x, y, z);
    assert 0 <= (purchase / 10_000) * bps && 0 <= (purchase % 10_000) * (bps / 10_000);
    assert 0 <= z;
    assert NonNegative([x, y, z]);
    SplitCustoms(purchase, bps);
  }

  /** The bound is the limit price, its exact customs and a penny a ton, capped. */
  lemma IocCashExact(quantity: int, limit: int, bps: int)
    requires 0 < quantity && 0 < limit && 0 <= bps
    ensures 0 <= quantity * limit * bps
    ensures IocCash(quantity, limit, bps) ==
            Min(MAX_INT64, quantity * limit + CeilDiv(quantity * limit * bps, 10_000) + quantity)
  {
    var exact, purchase := quantity * limit, CheckedPenceProduct(quantity, limit);
    CheckedProductExact(quantity, limit);
    assert 0 < exact;
    CustomsExact(purchase, bps);
    assert 0 <= exact * bps;
    var customs := Min(MAX_INT64, CeilDiv(purchase * bps, 10_000));
    SumOfThree(purchase, customs, quantity);
    assert NonNegative([purchase, customs, quantity]);
  }

  // ----------------------------------------------------------- partial fills

  datatype Fill = Fill(tons: int, price: int)

  function FillCost(fill: Fill, bps: int): int
    requires 0 < fill.tons && 0 <= fill.price && 0 <= bps
  {
    var gross := fill.tons * fill.price;
    assert 0 <= gross * bps;
    gross + CeilDiv(gross * bps, 10_000)
  }

  predicate Executable(fills: seq<Fill>, limit: int) {
    forall fill <- fills :: 0 < fill.tons && 0 <= fill.price <= limit
  }

  function Tons(fills: seq<Fill>): int {
    if fills == [] then 0 else fills[0].tons + Tons(fills[1..])
  }

  function Cost(fills: seq<Fill>, limit: int, bps: int): int
    requires Executable(fills, limit) && 0 <= bps
  {
    if fills == [] then 0 else FillCost(fills[0], bps) + Cost(fills[1..], limit, bps)
  }

  lemma CeilSplit(a: int, b: int)
    requires 0 <= a && 0 <= b
    ensures CeilDiv(a, 10_000) + CeilDiv(b, 10_000) <= CeilDiv(a + b, 10_000) + 1
    ensures CeilDiv(a, 10_000) <= CeilDiv(a + b, 10_000)
  {
  }

  /** One more fill: its own rounding, and the rounding of the rest of the order. */
  lemma FillAdds(fill: Fill, rest: int, limit: int, bps: int)
    requires 0 < fill.tons && 0 <= fill.price <= limit && 0 <= rest && 0 <= bps && 0 <= rest * limit * bps
    ensures 0 <= (fill.tons + rest) * limit * bps
    ensures FillCost(fill, bps) + rest * limit + CeilDiv(rest * limit * bps, 10_000)
            <= (fill.tons + rest) * limit + CeilDiv((fill.tons + rest) * limit * bps, 10_000) + 1
  {
    var gross, top, tail := fill.tons * fill.price, fill.tons * limit, rest * limit;
    Scale(fill.price, limit, fill.tons);
    Scale(0, fill.price, fill.tons);
    Scale(gross, top, bps);
    Scale(0, gross, bps);
    AddInside(fill.tons, rest, limit);
    AddInside(top, tail, bps);
    CeilSplit(gross * bps, top * bps - gross * bps);
    CeilSplit(top * bps, tail * bps);
  }

  /** However an order is split into fills, the extra rounding costs at most a
      penny a ton. */
  lemma {:induction false} SplitCostBounded(fills: seq<Fill>, limit: int, bps: int)
    requires Executable(fills, limit) && 0 <= limit && 0 <= bps
    ensures 0 <= Tons(fills) && 0 <= Tons(fills) * limit * bps
    ensures Cost(fills, limit, bps) <= Tons(fills) * limit + CeilDiv(Tons(fills) * limit * bps, 10_000) + Tons(fills)
    decreases |fills|
  {
    if fills != [] {
      SplitCostBounded(fills[1..], limit, bps);
      FillAdds(fills[0], Tons(fills[1..]), limit, bps);
    }
  }

  /** The reserved cash covers every way the order can fill at or below its limit. */
  lemma IocCashCoversEveryFill(fills: seq<Fill>, limit: int, bps: int)
    requires fills != [] && Executable(fills, limit) && 0 < limit && 0 <= bps
    requires IocCash(Tons(fills), limit, bps) < MAX_INT64
    ensures Cost(fills, limit, bps) <= IocCash(Tons(fills), limit, bps)
  {
    SplitCostBounded(fills, limit, bps);
    SplitCostBounded(fills[1..], limit, bps);
    IocCashExact(Tons(fills), limit, bps);
  }

  // ------------------------------------------------------- 128-bit intermediates

  /** The high and low words of an unsigned product. */
  function Mul64(a: int, b: int): (words: (int, int))
    requires 0 <= a && 0 <= b
    ensures words.0 * WORD + words.1 == a * b && 0 <= words.1 < WORD && 0 <= words.0
  {
    assert 0 <= a * b;
    (a * b / WORD, a * b % WORD)
  }

  /** Quotient and remainder of a double word; the quotient fits one word. */
  function Div64(high: int, low: int, divisor: int): (parts: (int, int))
    requires 0 <= high < divisor && 0 <= low < WORD
    ensures parts.0 * divisor + parts.1 == high * WORD + low && 0 <= parts.1 < divisor && 0 <= parts.0
  {
    var value := high * WORD + low;
    (value / divisor, value % divisor)
  }

  function HazardCharge(pence: int, bps: int): Option<int> {
    if pence < 0 || bps < 0 then None
    else
      var (high, low) := Mul64(pence, bps);
      if high >= 10_000 then None
      else
        var (charge, remainder) := Div64(high, low, 10_000);
        if charge > MAX_INT64 || (charge == MAX_INT64 && remainder != 0) then None
        else Some(if remainder != 0 then charge + 1 else charge)
  }

  lemma CeilFromParts(value: int, divisor: int, quotient: int, remainder: int)
    requires 0 < divisor && 0 <= remainder < divisor && 0 <= quotient && value == quotient * divisor + remainder
    ensures 0 <= value
    ensures CeilDiv(value, divisor) == if remainder != 0 then quotient + 1 else quotient
  {
    assert 0 <= quotient * divisor;
    var ceiling := if remainder != 0 then quotient + 1 else quotient;
    var up := value + divisor - 1;
    assert ceiling * divisor <= up < (ceiling + 1) * divisor by {
      assert (quotient + 1) * divisor == quotient * divisor + divisor;
      assert (quotient + 2) * divisor == quotient * divisor + 2 * divisor;
    }
    DivUnique(up, divisor, ceiling);
  }

  lemma DivUnique(value: int, divisor: int, quotient: int)
    requires 0 < divisor && quotient * divisor <= value < (quotient + 1) * divisor
    ensures value / divisor == quotient
  {
    var d := value / divisor;
    assert d * divisor <= value < (d + 1) * divisor;
    if d < quotient {
      Scale(d + 1, quotient, divisor);
    } else if d > quotient {
      Scale(quotient + 1, d, divisor);
    }
  }

  lemma Scale(a: int, b: int, factor: int)
    requires a <= b && 0 <= factor
    ensures a * factor <= b * factor
  {
  }

  /** The charge is the exact ceiling whenever that fits, and refused otherwise. */
  lemma HazardChargeExact(pence: int, bps: int)
    requires 0 <= pence <= MAX_INT64 && 0 <= bps <= MAX_INT64
    ensures 0 <= pence * bps
    ensures HazardCharge(pence, bps) ==
            if CeilDiv(pence * bps, 10_000) <= MAX_INT64 then Some(CeilDiv(pence * bps, 10_000)) else None
  {
    assert 0 <= pence * bps;
    var (high, low) := Mul64(pence, bps);
    if high >= 10_000 {
      assert pence * bps >= 10_000 * WORD;
    } else {
      var (charge, remainder) := Div64(high, low, 10_000);
      CeilFromParts(pence * bps, 10_000, charge, remainder);
    }
  }

  /** Customs at the limit price, in the ratio already paid. */
  function WorstCustoms(purchase: int, customs: int, worst: int): int {
    if worst <= purchase || customs <= 0 then customs
    else if purchase <= 0 then MAX_INT64
    else
      var (high, low) := Mul64(customs, worst);
      if high >= purchase then MAX_INT64
      else
        var (quotient, remainder) := Div64(high, low, purchase);
        if quotient >= MAX_INT64 then MAX_INT64
        else if remainder != 0 then quotient + 1 else quotient
  }

  lemma WorstCustomsExact(purchase: int, customs: int, worst: int)
    requires 0 < purchase < worst <= MAX_INT64 && 0 < customs <= MAX_INT64
    ensures 0 <= customs * worst
    ensures WorstCustoms(purchase, customs, worst) == Min(MAX_INT64, CeilDiv(customs * worst, purchase))
  {
    assert 0 <= customs * worst;
    var (high, low) := Mul64(customs, worst);
    if high >= purchase {
      var excess := high - purchase;
      assert customs * worst == purchase * WORD + excess * WORD + low;
      CeilAtLeast(customs * worst, purchase, WORD);
    } else {
      var (quotient, remainder) := Div64(high, low, purchase);
      CeilFromParts(customs * worst, purchase, quotient, remainder);
    }
  }

  lemma CeilAtLeast(value: int, divisor: int, bound: int)
    requires 0 < divisor && 0 <= value && bound * divisor <= value
    ensures bound <= CeilDiv(value, divisor)
  {
    var up := value + divisor - 1;
    var q := up / divisor;
    assert up < (q + 1) * divisor;
    if q < bound {
      Scale(q + 1, bound, divisor);
    }
  }

  // ---------------------------------------------------------------- safe floors

  /** Floor of `value * numerator / denominator` without a wide product. */
  function SplitFloor(value: int, numerator: int, denominator: int): int
    requires 0 <= value && 0 < denominator
  {
    value / denominator * numerator + value % denominator * numerator / denominator
  }

  /** Exact, and no intermediate value leaves 64 bits while the fraction is at most one. */
  lemma SplitFloorExact(value: int, numerator: int, denominator: int)
    requires 0 <= value <= MAX_INT64 && 0 <= numerator <= denominator && 0 < denominator <= 10_000
    ensures 0 <= value * numerator
    ensures SplitFloor(value, numerator, denominator) == value * numerator / denominator <= value
    ensures 0 <= value / denominator * numerator <= MAX_INT64
    ensures 0 <= value % denominator * numerator <= MAX_INT64
  {
    var q, r := value / denominator, value % denominator;
    assert value == q * denominator + r;
    SplitBounds(q, r, numerator, denominator);
    SplitExact(q, r, numerator, denominator);
    var whole, part := q * numerator, r * numerator / denominator;
    assert SplitFloor(value, numerator, denominator) == whole + part;
    assert whole <= q * denominator <= value <= MAX_INT64;
  }

  lemma SplitExact(q: int, r: int, numerator: int, denominator: int)
    requires 0 <= q && 0 <= numerator && 0 <= r < denominator
    ensures 0 <= (q * denominator + r) * numerator
    ensures (q * denominator + r) * numerator / denominator == q * numerator + r * numerator / denominator
  {
    var head, tail := q * numerator, r * numerator;
    Scale(0, q, numerator);
    Scale(0, r, numerator);
    AddInside(q * denominator, r, numerator);
    assert q * denominator * numerator == head * denominator;
    DivShift(head, tail, denominator);
  }

  lemma DivShift(head: int, tail: int, divisor: int)
    requires 0 <= head && 0 <= tail && 0 < divisor
    ensures 0 <= head * divisor && (head * divisor + tail) / divisor == head + tail / divisor
  {
    var part := tail / divisor;
    Scale(0, head, divisor);
    AddInside(head, part, divisor);
    AddInside(head, part + 1, divisor);
    AddInside(part, 1, divisor);
    DivUnique(head * divisor + tail, divisor, head + part);
  }

  lemma AddInside(a: int, b: int, factor: int)
    ensures (a + b) * factor == a * factor + b * factor
  {
  }

  lemma SplitBounds(q: int, r: int, numerator: int, denominator: int)
    requires 0 <= q && 0 <= numerator <= denominator && 0 <= r < denominator <= 10_000
    ensures 0 <= q * numerator <= q * denominator
    ensures 0 <= r * numerator <= r * denominator <= 10_000 * 10_000
    ensures 0 <= r * numerator / denominator <= r
  {
    Scale(numerator, denominator, q);
    Scale(numerator, denominator, r);
    Scale(r, 10_000, denominator);
    DivUnique(r * denominator, denominator, r);
    DivMonotone(r * numerator, r * denominator, denominator);
  }

  lemma DivMonotone(a: int, b: int, divisor: int)
    requires 0 <= a <= b && 0 < divisor
    ensures 0 <= a / divisor <= b / divisor
  {
    if b / divisor < a / divisor {
      Scale(b / divisor + 1, a / divisor, divisor);
    }
  }

  /** Seven twentieths of the fleet's worth: the cap on an estimated exposure. */
  function ExposureLimit(netWorth: int): int
    requires 0 <= netWorth
  {
    SplitFloor(netWorth, 7, 20)
  }

  /** Nine tenths of an installment: the most a refinance may cost. */
  function InstallmentLimit(installment: int): int
    requires 0 <= installment
  {
    SplitFloor(installment, 9, 10)
  }

  function RemittanceFee(gross: int, feeBPS: int): int
    requires 0 <= gross
  {
    SplitFloor(gross, feeBPS, 10_000)
  }

  lemma SafeFloorsExact(value: int, feeBPS: int)
    requires 0 <= value <= MAX_INT64 && 0 <= feeBPS <= 10_000
    ensures 0 <= value * feeBPS
    ensures ExposureLimit(value) == value * 7 / 20
    ensures InstallmentLimit(value) == value * 9 / 10
    ensures RemittanceFee(value, feeBPS) == value * feeBPS / 10_000 <= value
  {
    SplitFloorExact(value, 7, 20);
    SplitFloorExact(value, 9, 10);
    SplitFloorExact(value, feeBPS, 10_000);
  }
}
