/** The constant-product rule that the pool contract and Knight's calculator share, over the
    integers, with the facts that follow from its rounding. */
module ConstantProduct {
  import opened Common

  /** The output of a swap with the 0.3% fee, rounded down. */
  function ExactOut(x: nat, reserveIn: nat, reserveOut: nat): (out: nat)
    requires x > 0
  {
    Quotient(Times(997 * x, reserveOut), 1000 * reserveIn + 997 * x)
  }

  /** No intermediate value of the quote leaves a 256-bit word. */
  predicate Fits(x: nat, reserveIn: nat, reserveOut: nat)
  {
    && 1000 * reserveIn + 997 * x < WORD
    && Times(997 * x, reserveOut) < WORD
  }

  /** What rounding down means for a quote, with the products named. */
  lemma OutBounds(x: nat, reserveIn: nat, reserveOut: nat, out: nat)
    requires x > 0 && out == ExactOut(x, reserveIn, reserveOut)
    ensures out * (1000 * reserveIn + 997 * x) <= 997 * (x * reserveOut)
    ensures 997 * (x * reserveOut) < (out + 1) * (1000 * reserveIn + 997 * x)
  {
    QuotientFloors(Times(997 * x, reserveOut), 1000 * reserveIn + 997 * x);
    Commute(x, reserveOut, 0);
  }

  lemma OutBelowReserve(x: nat, reserveIn: nat, reserveOut: nat)
    requires x > 0 && reserveIn > 0 && reserveOut > 0
    ensures ExactOut(x, reserveIn, reserveOut) < reserveOut
  {
    var out := ExactOut(x, reserveIn, reserveOut);
    OutBounds(x, reserveIn, reserveOut, out);
    var n := 1000 * reserveIn + 997 * x;
    MulLess(997 * x, n, reserveOut);
    Commute(x, reserveOut, n);
    CancelLess(n, out, reserveOut);
  }

  lemma Commute(x: nat, r: nat, n: nat)
    ensures 997 * (x * r) == (997 * x) * r
    ensures n * r == r * n
  {
  }

  /** Because of the fee every swap strictly increases the product of the reserves. */
  lemma ProductGrows(x: nat, reserveIn: nat, reserveOut: nat, out: nat)
    requires x > 0 && reserveIn > 0 && reserveOut > 0
    requires out == ExactOut(x, reserveIn, reserveOut)
    ensures out < reserveOut
    ensures (reserveIn + x) * (reserveOut - out) > reserveIn * reserveOut
  {
    OutBelowReserve(x, reserveIn, reserveOut);
    OutBounds(x, reserveIn, reserveOut, out);
    ProductGrowsFrom(x, reserveIn, reserveOut, out, x * reserveOut, out * reserveIn, out * x);
  }

  lemma ProductGrowsFrom(x: nat, rin: nat, rout: nat, out: nat, xr: nat, oi: nat, ox: nat)
    requires out < rout && x > 0
    requires xr == x * rout && oi == out * rin && ox == out * x
    requires out * (1000 * rin + 997 * x) <= 997 * xr
    ensures (rin + x) * (rout - out) > rin * rout
  {
    assert out * (1000 * rin + 997 * x) == 1000 * oi + 997 * ox;
    assert ox < xr by {
      assert out * x < rout * x;
    }
    assert (rin + x) * (rout - out) == rin * rout + xr - oi - ox;
  }
}
