/** What the liquidity pool charges and pays. */
module Swaps {
  import opened Base
  import opened Calc
  import opened Model
  import opened Instructions
  import opened FeeCurve
  import opened RoundTrips
  import opened Minting

  // ---------- liquid_unstake ----------

  /** The fee rate of a swap that leaves `left` lamports in the pool: the maximum when nothing is left, the
      minimum from the target on, in between the maximum less the earned part of the range, rounded down. */
  predicate RateAt(p: LiqPool, left: int, rate: int) {
    if left <= 0 then rate == p.maxFee
    else if left >= p.liquidityTarget then rate == p.minFee
    else IsFloor(p.maxFee - rate, (p.maxFee - p.minFee) * left, p.liquidityTarget)
  }

  lemma LinearFeeIsRate(p: LiqPool, left: nat)
    requires ValidPool(p)
    ensures LinearFee(p, left).Some? && RateAt(p, left, LinearFee(p, left).value)
  {
    FeeWithinBounds(p, left);
    if 0 < left < p.liquidityTarget {
      FeeIsDiscounted(p, left);
      Floor((p.maxFee - p.minFee) * left, p.liquidityTarget);
    }
  }

  /** The parts of a swap, as the code computes them. */
  lemma SwapParts(w: World, msol: nat, treasury: bool, w': World) returns (value: nat, rate: nat, fee: nat, cut: nat)
    requires LiquidUnstake(w, msol, treasury) == Some(w')
    ensures MsolToSol(w.state, msol) == Some(value)
    ensures var available := SaturatingSub(w.chain.solLeg, w.state.cfg.rent);
            if value >= available then rate == w.state.pool.maxFee
            else LinearFee(w.state.pool, available - value) == Some(rate)
    ensures fee == ApplyFee(rate, msol) <= msol && MsolToSol(w.state, msol - fee).Some?
    ensures cut == if treasury then ApplyFee(w.state.pool.treasuryCut, fee) else 0
    ensures var paid := MsolToSol(w.state, msol - fee).value;
            && paid >= w.state.cfg.minWithdraw && paid + w.state.cfg.rent <= w.chain.solLeg
            && cut <= msol
            && w'.chain == w.chain.(solLeg := w.chain.solLeg - paid, msolLeg := w.chain.msolLeg + (msol - cut))
  {
    var available := SaturatingSub(w.chain.solLeg, w.state.cfg.rent);
    value := MsolToSol(w.state, msol).value;
    rate := (if value >= available then Some(w.state.pool.maxFee) else LinearFee(w.state.pool, available - value)).value;
    fee := ApplyFee(rate, msol);
    cut := if treasury then ApplyFee(w.state.pool.treasuryCut, fee) else 0;
  }

  /** A swap is charged by the liquidity it would leave if it were free: the user is paid the worth of the
      mSOL less the fee at that rate, and the pool keeps the mSOL less the treasury's part of the fee. */
  lemma LiquidUnstakeCharges(w: World, msol: nat, treasury: bool, w': World)
    returns (value: nat, rate: nat, fee: nat, cut: nat)
    requires LiquidUnstake(w, msol, treasury) == Some(w') && ValidPool(w.state.pool) && msol <= U64_MAX
    ensures Worth(w.state, msol, value) && RateAt(w.state.pool, w.chain.solLeg - w.state.cfg.rent - value, rate)
    ensures IsFloor(fee, msol * rate, MAX_BASIS_POINTS) && fee <= msol
    ensures if treasury then IsFloor(cut, fee * w.state.pool.treasuryCut, MAX_BASIS_POINTS) else cut == 0
    ensures Worth(w.state, msol - fee, w.chain.solLeg - w'.chain.solLeg)
    ensures w.chain.solLeg - w'.chain.solLeg >= w.state.cfg.minWithdraw && w'.chain.solLeg >= w.state.cfg.rent
    ensures w'.chain.msolLeg == w.chain.msolLeg + msol - cut
    ensures w' == w.(chain := w.chain.(solLeg := w'.chain.solLeg, msolLeg := w'.chain.msolLeg))
  {
    value, rate, fee, cut := SwapParts(w, msol, treasury, w');
    MsolToSolIsWorth(w.state, msol);
    MsolToSolIsWorth(w.state, msol - fee);
    var available := SaturatingSub(w.chain.solLeg, w.state.cfg.rent);
    if value < available {
      LinearFeeIsRate(w.state.pool, available - value);
      FeeWithinBounds(w.state.pool, available - value);
    }
    FeeIsFloor(rate, msol);
    FeeIsFloor(w.state.pool.treasuryCut, fee);
  }

  // ---------- liquidity ----------

  /** Liquidity is added at the floored value of the pool before: the shares are the deposit's part of the
      LP supply, as many as lamports when there is none; both LP supplies agree afterwards. */
  lemma AddLiquidityBuys(w: World, lamports: nat, userFunds: nat, w': World) returns (shares: nat)
    requires AddLiquidity(w, lamports, userFunds) == Some(w')
    ensures w.state.cfg.minDeposit <= lamports <= userFunds
    ensures if w.chain.lpMinted > 0 && PoolValue(w) > 0 then IsFloor(shares, lamports * w.chain.lpMinted, PoolValue(w))
            else shares == lamports
    ensures w'.chain == w.chain.(solLeg := w.chain.solLeg + lamports, lpMinted := w.chain.lpMinted + shares)
    ensures w'.state == w.state.(pool := w.state.pool.(lpSupply := w'.chain.lpMinted))
    ensures w'.chain.solLeg <= w.state.pool.liquidityCap
  {
    MsolToSolIsRate(w.state, w.chain.msolLeg);
    shares := w'.chain.lpMinted - w.chain.lpMinted;
    if w.chain.lpMinted > 0 && PoolValue(w) > 0 {
      SharesIsFloor(lamports, PoolValue(w), w.chain.lpMinted);
    }
  }

  /** `out` is the part of `leg` that `tokens` of `supply` shares redeem. */
  predicate Redeems(tokens: nat, supply: nat, leg: int, out: int) {
    if supply > 0 then IsFloor(out, tokens * leg, supply) else out == tokens
  }

  /** The parts of a removal, as the code computes them. */
  lemma RemovalParts(w: World, tokens: nat, w': World) returns (solOut: nat, msolOut: nat)
    requires RemoveLiquidity(w, tokens) == Some(w')
    ensures var supply := Min(w.chain.lpMinted, w.state.pool.lpSupply);
            && tokens <= w.chain.lpMinted && tokens <= supply && w.chain.solLeg >= w.state.cfg.rent
            && Proportional(tokens, w.chain.solLeg - w.state.cfg.rent, supply) == Some(solOut)
            && Proportional(tokens, w.chain.msolLeg, supply) == Some(msolOut)
            && MsolToSol(w.state, msolOut).Some? && solOut + MsolToSol(w.state, msolOut).value >= w.state.cfg.minWithdraw
            && solOut <= w.chain.solLeg && msolOut <= w.chain.msolLeg
            && w' == World(w.state.(pool := w.state.pool.(lpSupply := supply - tokens)),
                           w.chain.(solLeg := w.chain.solLeg - solOut, msolLeg := w.chain.msolLeg - msolOut,
                                    lpMinted := w.chain.lpMinted - tokens))
  {
    solOut, msolOut := w.chain.solLeg - w'.chain.solLeg, w.chain.msolLeg - w'.chain.msolLeg;
  }

  /** Liquidity is removed in proportion from both legs; the shares are gone from both LP supplies. */
  lemma RemoveLiquidityPays(w: World, tokens: nat, w': World) returns (msolValue: nat)
    requires RemoveLiquidity(w, tokens) == Some(w')
    ensures tokens <= w.chain.lpMinted && w.chain.solLeg >= w.state.cfg.rent
    ensures var supply := Min(w.chain.lpMinted, w.state.pool.lpSupply);
            var solOut, msolOut := w.chain.solLeg - w'.chain.solLeg, w.chain.msolLeg - w'.chain.msolLeg;
            && Redeems(tokens, supply, w.chain.solLeg - w.state.cfg.rent, solOut)
            && Redeems(tokens, supply, w.chain.msolLeg, msolOut)
            && 0 <= msolOut && Worth(w.state, msolOut, msolValue) && solOut + msolValue >= w.state.cfg.minWithdraw
            && w'.state == w.state.(pool := w.state.pool.(lpSupply := supply - tokens))
    ensures w'.chain == w.chain.(solLeg := w'.chain.solLeg, msolLeg := w'.chain.msolLeg,
    lpMinted := w.chain.lpMinted - tokens)
  {
    var supply := Min(w.chain.lpMinted, w.state.pool.lpSupply);
    var solOut, msolOut := RemovalParts(w, tokens, w');
    msolValue := MsolToSol(w.state, msolOut).value;
    MsolToSolIsWorth(w.state, msolOut);
    if supply > 0 {
      ValueIsFloor(tokens, w.chain.solLeg - w.state.cfg.rent, supply);
      ValueIsFloor(tokens, w.chain.msolLeg, supply);
    }
  }
}
