/** Floor arithmetic of calc.rs and fee.rs. */
module Calc {
  import opened Base

  const MAX_BASIS_POINTS: nat := 10_000
  const MAX_BP_CENTS: nat := 1_000_000

  /** amount * numerator / denominator, `amount` itself when the denominator is zero;
      the u128 quotient must fit u64. */
  function Proportional(amount: nat, numerator: nat, denominator: nat): Option<nat> {
    if denominator == 0 then Some(amount)
    else
      var quotient := amount * numerator / denominator;
      if quotient <= U64_MAX then Some(quotient) else None
  }

  function ValueFromShares(shares: nat, totalValue: nat, totalShares: nat): Option<nat> {
    Proportional(shares, totalValue, totalShares)
  }

  function SharesFromValue(value: nat, totalValue: nat, totalShares: nat): Option<nat> {
    if totalShares == 0 then Some(value) else Proportional(value, totalShares, totalValue)
  }

  /** Fee::apply: the quotient is cast to u64, which truncates. */
  function ApplyFee(basisPoints: nat, lamports: nat): nat {
    lamports * basisPoints / MAX_BASIS_POINTS % (U64_MAX + 1)
  }

  /** FeeCents::apply. */
  function ApplyFeeCents(bpCents: nat, lamports: nat): nat {
    lamports * bpCents / MAX_BP_CENTS % (U64_MAX + 1)
  }

  // ---------- floor division ----------

  lemma Floor(x: nat, d: nat)
    requires d > 0
    ensures x / d * d <= x < x / d * d + d
  {
  }

  /** A floored quotient is the largest integer below the exact one. */
  lemma FloorIsGreatest(x: nat, d: nat, q: nat)
    requires d > 0
    ensures q * d <= x <==> q <= x / d
  {
    Floor(x, d);
    if q <= x / d {
      MulMono(q, x / d, d);
    } else {
      MulMono(x / d + 1, q, d);
      assert (x / d + 1) * d == x / d * d + d;
    }
  }

  lemma MulMono(a: nat, b: nat, c: nat)
    requires a <= b
    ensures a * c <= b * c
  {
  }

  lemma Distribute(a: int, b: int, c: int)
    ensures (a + b) * c == a * c + b * c
    ensures (a - b) * c == a * c - b * c
  {
  }

  lemma DivMono(x: nat, y: nat, d: nat)
    requires d > 0 && x <= y
    ensures x / d <= y / d
  {
    Floor(x, d);
    FloorIsGreatest(y, d, x / d);
  }

  /** Two floored parts never exceed the floored whole. */
  lemma FloorSuperadditive(x: nat, y: nat, d: nat)
    requires d > 0
    ensures x / d + y / d <= (x + y) / d
  {
    Floor(x, d);
    Floor(y, d);
    Distribute(x / d, y / d, d);
    FloorIsGreatest(x + y, d, x / d + y / d);
  }

  /** Cancelling a positive factor of an inequality. */
  lemma CancelMul(a: nat, b: nat, c: nat)
    requires c > 0 && a * c <= b * c
    ensures a <= b
  {
    if b < a {
      Distribute(a - b, b, c);
      MulMono(1, a - b, c);
      assert false;
    }
  }

  lemma DivExact(d: nat, v: nat)
    requires d > 0
    ensures d * v / d == v
  {
    Floor(d * v, d);
    FloorIsGreatest(d * v, d, v);
    FloorIsGreatest(d * v, d, v + 1);
    Distribute(v, 1, d);
  }

  lemma CancelStrict(a: int, b: int, c: nat)
    requires a * c < b * c
    ensures a < b
  {
    if b <= a {
      Distribute(a, b, c);
      MulMono(0, a - b, c);
      assert false;
    }
  }

  // ---------- what the conversions promise ----------

  /** Shares bought with a value are worth at most that value at the price they were bought at. */
  lemma SharesAreCovered(value: nat, totalValue: nat, totalShares: nat)
    requires totalShares > 0
    requires SharesFromValue(value, totalValue, totalShares).Some?
    ensures SharesFromValue(value, totalValue, totalShares).value * totalValue <= value * totalShares
  {
    if totalValue > 0 {
      Floor(value * totalShares, totalValue);
    }
  }

  /** The value paid for shares is at most their part of the total. */
  lemma ValueIsCovered(shares: nat, totalValue: nat, totalShares: nat)
    requires totalShares > 0
    requires ValueFromShares(shares, totalValue, totalShares).Some?
    ensures var value := ValueFromShares(shares, totalValue, totalShares).value;
            value * totalShares <= shares * totalValue < value * totalShares + totalShares
  {
    Floor(shares * totalValue, totalShares);
  }

  /** Within 100% a fee is the exact floored part and never more than the amount. */
  lemma FeeIsExact(basisPoints: nat, lamports: nat)
    requires basisPoints <= MAX_BASIS_POINTS && lamports <= U64_MAX
    ensures ApplyFee(basisPoints, lamports) == lamports * basisPoints / MAX_BASIS_POINTS <= lamports
  {
    MulMono(basisPoints, MAX_BASIS_POINTS, lamports);
    DivMono(lamports * basisPoints, lamports * MAX_BASIS_POINTS, MAX_BASIS_POINTS);
    assert lamports * MAX_BASIS_POINTS / MAX_BASIS_POINTS == lamports;
  }

  /** A fee within 100% never exceeds the amount, whatever the amount. */
  lemma FeeIsPart(basisPoints: nat, lamports: nat)
    requires basisPoints <= MAX_BASIS_POINTS
    ensures ApplyFee(basisPoints, lamports) <= lamports
  {
    MulMono(basisPoints, MAX_BASIS_POINTS, lamports);
    DivMono(lamports * basisPoints, lamports * MAX_BASIS_POINTS, MAX_BASIS_POINTS);
    assert lamports * MAX_BASIS_POINTS / MAX_BASIS_POINTS == lamports;
    assert forall n: nat {:trigger n % (U64_MAX + 1)} :: n % (U64_MAX + 1) <= n;
  }

  // ---------- rounding ----------

  /** `q` is `x / d` rounded down. */
  predicate IsFloor(q: int, x: int, d: int) {
    d > 0 && q * d <= x < q * d + d
  }

  lemma ValueIsFloor(shares: nat, totalValue: nat, totalShares: nat)
    requires totalShares > 0 && ValueFromShares(shares, totalValue, totalShares).Some?
    ensures IsFloor(ValueFromShares(shares, totalValue, totalShares).value, shares * totalValue, totalShares)
  {
    Floor(shares * totalValue, totalShares);
  }

  lemma SharesIsFloor(value: nat, totalValue: nat, totalShares: nat)
    requires totalShares > 0 && totalValue > 0 && SharesFromValue(value, totalValue, totalShares).Some?
    ensures IsFloor(SharesFromValue(value, totalValue, totalShares).value, value * totalShares, totalValue)
  {
    Floor(value * totalShares, totalValue);
  }

  lemma FeeIsFloor(basisPoints: nat, lamports: nat)
    requires basisPoints <= MAX_BASIS_POINTS && lamports <= U64_MAX
    ensures IsFloor(ApplyFee(basisPoints, lamports), lamports * basisPoints, MAX_BASIS_POINTS)
    ensures ApplyFee(basisPoints, lamports) <= lamports
  {
    FeeIsExact(basisPoints, lamports);
    Floor(lamports * basisPoints, MAX_BASIS_POINTS);
  }

  /** The same of a fee in hundredths of basis points. */
  lemma FeeCentsIsFloor(bpCents: nat, lamports: nat)
    requires bpCents <= MAX_BP_CENTS && lamports <= U64_MAX
    ensures IsFloor(ApplyFeeCents(bpCents, lamports), lamports * bpCents, MAX_BP_CENTS)
    ensures ApplyFeeCents(bpCents, lamports) <= lamports
  {
    MulMono(bpCents, MAX_BP_CENTS, lamports);
    DivMono(lamports * bpCents, lamports * MAX_BP_CENTS, MAX_BP_CENTS);
    assert lamports * MAX_BP_CENTS / MAX_BP_CENTS == lamports;
    Floor(lamports * bpCents, MAX_BP_CENTS);
  }
}
