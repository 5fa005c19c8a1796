/** The liquid-unstake fee as a function of the liquidity left. */
module FeeCurve {
  import opened Base
  import opened Calc
  import opened Model

  /** A floored part of a range stays in the range. */
  lemma PartOfRange(range: nat, lamports: nat, target: nat)
    requires lamports <= target && target > 0
    ensures range * lamports / target <= range
  {
    MulMono(lamports, target, range);
    Floor(range * lamports, target);
    CancelMul(range * lamports / target, range, target);
  }

  /** The discount the liquidity has earned. */
  function Discount(p: LiqPool, lamports: nat): nat
    requires ValidPool(p)
  {
    var range: nat := p.maxFee - p.minFee;
    range * lamports / p.liquidityTarget
  }

  lemma DiscountGrows(range: nat, less: nat, more: nat, target: nat)
    requires less <= more && target > 0
    ensures range * less / target <= range * more / target
  {
    MulMono(less, more, range);
    DivMono(range * less, range * more, target);
  }

  lemma FeeIsDiscounted(p: LiqPool, lamports: nat)
    requires ValidPool(p) && lamports < p.liquidityTarget
    ensures Discount(p, lamports) <= p.maxFee - p.minFee
    ensures LinearFee(p, lamports) == Some(p.maxFee - Discount(p, lamports))
  {
    PartOfRange(p.maxFee - p.minFee, lamports, p.liquidityTarget);
  }

  /** For valid parameters the fee never panics and stays between the minimum and the maximum. */
  lemma FeeWithinBounds(p: LiqPool, lamports: nat)
    requires ValidPool(p)
    ensures LinearFee(p, lamports).Some?
    ensures p.minFee <= LinearFee(p, lamports).value <= p.maxFee
    ensures lamports >= p.liquidityTarget ==> LinearFee(p, lamports).value == p.minFee
    ensures lamports == 0 ==> LinearFee(p, lamports).value == p.maxFee
  {
    if lamports < p.liquidityTarget {
      FeeIsDiscounted(p, lamports);
    }
  }

  /** More liquidity never costs more. */
  lemma FeeFallsWithLiquidity(p: LiqPool, less: nat, more: nat)
    requires ValidPool(p) && less <= more
    ensures LinearFee(p, less).Some? && LinearFee(p, more).Some?
    ensures LinearFee(p, more).value <= LinearFee(p, less).value
  {
    FeeWithinBounds(p, less);
    FeeWithinBounds(p, more);
    if more < p.liquidityTarget {
      FeeIsDiscounted(p, less);
      FeeIsDiscounted(p, more);
      DiscountGrows(p.maxFee - p.minFee, less, more, p.liquidityTarget);
    }
  }
}
