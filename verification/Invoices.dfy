/**
The tax arithmetic of an invoice: 18% of a whole number of cents, quantized with the default rounding, ties to even
(section 4.3.1 of IEEE 754-2008).
 */
module Invoices {
  /** x / d to the nearest integer, ties to even. */
  function HalfEven(x: int, d: int): int
    requires d > 0
  {
    var low := x / d;
    var rest := x % d;
    if 2 * rest < d || (2 * rest == d && low % 2 == 0) then low else low + 1
  }

  /** 18% of the subtotal: 18n / 100 cents. */
  function Tax(subtotal: int): int { HalfEven(18 * subtotal, 100) }

  function Total(subtotal: int): int { subtotal + Tax(subtotal) }

  lemma HalfEvenIsNearest(x: int)
    ensures var error := 100 * HalfEven(x, 100) - x;
      && -50 <= error <= 50
      && ((error == 50 || error == -50) <==> x % 100 == 50)
      && (x % 100 == 50 ==> HalfEven(x, 100) % 2 == 0)
  {
  }

  /** The exact tax lies halfway between two cents. */
  predicate Tie(subtotal: int) { (18 * subtotal) % 100 == 50 }

  lemma TiesExactly(subtotal: int)
    ensures Tie(subtotal) <==> subtotal % 50 == 25
  {
    Residues(subtotal / 50, subtotal % 50);
  }

  lemma Residues(q: int, r: int)
    requires 0 <= r < 50
    ensures (18 * (50 * q + r)) % 100 == 50 <==> r == 25
  {
    var x := 18 * (50 * q + r);
    var k := x / 100;
    assert x == 100 * k + x % 100;
    if x % 100 == 50 {
      assert 9 * (r - 25) == 50 * (k - 9 * q - 4);
      assert r == 25;
    }
  }

  /** The tax is within half a cent of exact, off by a whole half only on a tie, and then it is even. */
  lemma TaxIsNearest(subtotal: int)
    ensures var error := 100 * Tax(subtotal) - 18 * subtotal;
      && -50 <= error <= 50
      && ((error == 50 || error == -50) <==> Tie(subtotal))
      && (Tie(subtotal) ==> Tax(subtotal) % 2 == 0)
  {
    HalfEvenIsNearest(18 * subtotal);
  }

  lemma TotalIncreases(low: int, high: int)
    requires low < high
    ensures Total(low) < Total(high)
    ensures Tax(low) <= Tax(high)
  {
  }

  function Sum(orders: seq<int>): int { if orders == [] then 0 else Sum(orders[..|orders| - 1]) + orders[|orders| - 1] }

  function SumOfTaxes(orders: seq<int>): int {
    if orders == [] then 0 else SumOfTaxes(orders[..|orders| - 1]) + Tax(orders[|orders| - 1])
  }

  lemma {:induction false} TaxesNearExact(orders: seq<int>)
    ensures -50 * |orders| <= 100 * SumOfTaxes(orders) - 18 * Sum(orders) <= 50 * |orders|
  {
    if orders != [] {
      TaxesNearExact(orders[..|orders| - 1]);
      TaxIsNearest(orders[|orders| - 1]);
    }
  }

  /** Invoicing k orders apart differs from taxing their sum by at most (k + 1) / 2 cents. */
  lemma SplitInvoices(orders: seq<int>)
    ensures -(|orders| + 1) <= 2 * (SumOfTaxes(orders) - Tax(Sum(orders))) <= |orders| + 1
  {
    TaxesNearExact(orders);
    TaxIsNearest(Sum(orders));
  }

  /** The total is within half a cent of 118%. */
  lemma TotalIsNearest(subtotal: int)
    ensures -50 <= 100 * Total(subtotal) - 118 * subtotal <= 50
  {
    TaxIsNearest(subtotal);
  }

  /** The total determines the subtotal. */
  lemma TotalInjective(a: int, b: int)
    ensures Total(a) == Total(b) <==> a == b
  {
    if a < b {
      TotalIncreases(a, b);
    } else if b < a {
      TotalIncreases(b, a);
    }
  }
}
