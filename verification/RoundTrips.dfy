/** What a user gets back: deposit then unstake, add then remove liquidity; and what the
    liquidity pool is worth in between. */
module RoundTrips {
  import opened Base
  import opened Calc
  import opened Model
  import opened Instructions
  import opened Price

  // ---------- deposit, then order the unstake of everything received ----------

  /** mSOL the depositor received: what left the pool and what was minted. */
  function Received(w: World, w': World): int {
    w.chain.msolLeg - w'.chain.msolLeg + w'.state.msolSupply - w.state.msolSupply
  }

  lemma Associate(a: int, b: int, c: int)
    ensures a * b * c == a * (b * c) == b * (a * c)
  {
  }

  /** x < v*d/s + 1 and order <= l*s/v give order*x < l*d + order. */
  lemma ScaledShare(x: nat, v: nat, d: nat, s: nat, l: nat, order: nat)
    requires x * s < v * d + s && order * v <= l * s && order > 0
    ensures order * x < l * d + order
  {
    var bound := v * d + s;
    assert order * (x * s) < order * bound by {
      Distribute(bound, x * s, order);
      MulMono(1, bound - x * s, order);
    }
    assert order * bound == order * v * d + order * s by {
      Distribute(v * d, s, order);
      Associate(order, v, d);
    }
    MulMono(order * v, l * s, d);
    assert l * s * d == l * d * s by {
      Associate(l, s, d);
      Associate(l, d, s);
    }
    Associate(order, x, s);
    Distribute(l * d, order, s);
    CancelStrict(order * x, l * d + order, s);
  }

  /** `order` shares of the new total are worth at most `l`: here `leg` of them were sold by the
      pool for the floored value `q`, and `order - leg` were minted. The slack of the flooring is
      below `order`, which is why the pool must not hold more mSOL than exists. */
  lemma MixedOrder(v: nat, s: nat, l: nat, order: nat, leg: nat, q: nat)
    requires leg <= s && leg <= order && q <= l && q <= v && order > 0
    requires order * v <= l * s && leg * v < q * s + s
    ensures order * (v + l - q) < (l + 1) * (s + order - leg)
  {
    Distribute(v, q, s);
    Distribute(s, leg, v);
    ScaledShare(v - q, v, s - leg, s, l, order);
    Distribute(v - q, l, order);
    Distribute(s - leg, order, l);
    Distribute(l, 1, s + order - leg);
  }

  /** The bounds a deposit's three parts obey at the price before it. */
  lemma DepositBounds(w: World, lamports: nat, userFunds: nat, w1: World)
    returns (order: nat, swapped: nat, sold: nat)
    requires w.state.msolSupply > 0 && Deposit(w, lamports, userFunds) == Some(w1)
    ensures order * Virtual(w.state) <= lamports * w.state.msolSupply
    ensures swapped <= order && swapped <= w.chain.msolLeg && sold <= lamports && Received(w, w1) == order
    ensures swapped < order ==>
              swapped == w.chain.msolLeg &&
              sold * w.state.msolSupply <= swapped * Virtual(w.state) < sold * w.state.msolSupply + w.state.msolSupply
    ensures swapped == order ==> sold == (if order == 0 then 0 else lamports)
    ensures Virtual(w1.state) <= Virtual(w.state) + lamports - sold
    ensures Virtual(w1.state) >= Virtual(w.state)
    ensures w1.state.msolSupply == w.state.msolSupply + order - swapped
    ensures w1.chain.solLeg == w.chain.solLeg + sold && w1.chain.msolLeg == w.chain.msolLeg - swapped
    ensures w1.state.cfg == w.state.cfg
  {
    order, swapped, sold := DepositParts(w, lamports, userFunds, w1);
    NetIsCovered(w.state, SaturatingSub(lamports, ApplyFeeCents(w.state.cfg.depositSolFee, lamports)), lamports, order);
    if 0 < swapped < order {
      ValueIsCovered(swapped, Virtual(w.state), w.state.msolSupply);
    }
  }

  lemma OrderBound(v: nat, s: nat, l: nat, order: nat, swapped: nat, sold: nat, v1: nat, s1: nat)
    requires s > 0 && swapped <= s && swapped <= order && sold <= l
    requires order * v <= l * s
    requires swapped < order ==> sold * s <= swapped * v < sold * s + s
    requires swapped == order > 0 ==> sold == l
    requires v1 <= v + l - sold && s1 == s + order - swapped
    ensures order * v1 < (l + 1) * s1
  {
    if swapped < order {
      MulMono(swapped, s, v);
      CancelMul(sold, v, s);
      MixedOrder(v, s, l, order, swapped, sold);
      MulMono(v1, v + l - sold, order);
    } else {
      Distribute(l, 1, s);
      if order > 0 {
        MulMono(v1, v, order);
      } else {
        MulMono(1, s, l);
      }
    }
  }

  /** The order at the price after the deposit. */
  lemma OrderAfterDeposit(w: World, lamports: nat, userFunds: nat, w1: World, order: nat)
    requires w.state.msolSupply > 0 && w.chain.msolLeg <= w.state.msolSupply
    requires Deposit(w, lamports, userFunds) == Some(w1) && Received(w, w1) == order
    ensures order * Virtual(w1.state) < (lamports + 1) * w1.state.msolSupply
  {
    var o, swapped, sold := DepositBounds(w, lamports, userFunds, w1);
    OrderBound(Virtual(w.state), w.state.msolSupply, lamports, order, swapped, sold,
               Virtual(w1.state), w1.state.msolSupply);
  }

  /** Whatever part of a deposit the pool fills, unstaking everything received orders a ticket of
      at most the deposit. */
  lemma DepositRoundTrip(w: World, lamports: nat, userFunds: nat, w1: World, ticket: Key, w2: World)
    requires w.state.msolSupply > 0 && w.chain.msolLeg <= w.state.msolSupply
    requires Deposit(w, lamports, userFunds) == Some(w1)
    requires Received(w, w1) >= 0 && OrderUnstake(w1, Received(w, w1), ticket) == Some(w2)
    ensures ticket in w2.chain.tickets && w2.chain.tickets[ticket].lamports <= lamports
  {
    var order := Received(w, w1);
    var v1, s1 := Virtual(w1.state), w1.state.msolSupply;
    OrderAfterDeposit(w, lamports, userFunds, w1, order);
    var value := MsolToSol(w1.state, order).value;
    ValueIsCovered(order, v1, s1);
    CancelStrict(value, lamports + 1, s1);
  }

  /** Without any supply the first depositor is given the whole virtual stake, what was left in the
      program before included: the reason for the positive supply above. */
  lemma FirstDepositTakesAll(w: World, lamports: nat, userFunds: nat, w1: World)
    requires w.state.msolSupply == 0 && w.chain.msolLeg == 0
    requires Deposit(w, lamports, userFunds) == Some(w1) && w1.state.msolSupply > 0
    requires MsolToSol(w1.state, w1.state.msolSupply).Some?
    ensures Received(w, w1) == w1.state.msolSupply
    ensures MsolToSol(w1.state, w1.state.msolSupply).value == Virtual(w1.state)
    ensures Control(w.state) >= w.state.ticketBalance ==> Virtual(w1.state) == Virtual(w.state) + lamports
  {
    var order, swapped, sold := DepositParts(w, lamports, userFunds, w1);
    Floor(w1.state.msolSupply * Virtual(w1.state), w1.state.msolSupply);
    FloorIsGreatest(w1.state.msolSupply * Virtual(w1.state), w1.state.msolSupply, Virtual(w1.state));
    ValueIsCovered(w1.state.msolSupply, Virtual(w1.state), w1.state.msolSupply);
    CancelMul(MsolToSol(w1.state, w1.state.msolSupply).value, Virtual(w1.state), w1.state.msolSupply);
  }

  /** The round trip without supply, exactly: the ticket exceeds the deposit if and only if what was
      under control and not owed before exceeds the fee of the ticket order. */
  lemma FirstDepositRoundTrip(w: World, lamports: nat, userFunds: nat, w1: World, ticket: Key, w2: World)
    requires w.state.msolSupply == 0 && w.chain.msolLeg == 0
    requires Deposit(w, lamports, userFunds) == Some(w1)
    requires Received(w, w1) >= 0 && OrderUnstake(w1, Received(w, w1), ticket) == Some(w2)
    ensures ticket in w2.chain.tickets
    ensures w2.chain.tickets[ticket].lamports > lamports
            <==> && SaturatingSub(lamports, ApplyFeeCents(w.state.cfg.depositSolFee, lamports)) > 0
                 && Virtual(w.state) > ApplyFeeCents(w.state.cfg.delayedUnstakeFee, Virtual(w.state) + lamports)
  {
    var order, swapped, sold := DepositParts(w, lamports, userFunds, w1);
    assert order == w1.state.msolSupply && Control(w1.state) == Control(w.state) + lamports;
    if order > 0 {
      WholeSupply(w1.state);
    }
  }

  /** The whole supply is worth all the virtual lamports. */
  lemma WholeSupply(s: State)
    requires s.msolSupply > 0
    ensures MsolToSol(s, s.msolSupply) == if ControlFits(s) then Some(Virtual(s)) else None
  {
    DivExact(s.msolSupply, Virtual(s));
  }

  // ---------- the value of the pool ----------

  /** msol_to_sol as a fraction: 1/1 before the first mint. */
  function RateNum(s: State): nat {
    if s.msolSupply == 0 then 1 else Virtual(s)
  }

  function RateDen(s: State): (d: nat)
    ensures d > 0
  {
    if s.msolSupply == 0 then 1 else s.msolSupply
  }

  /** total_liq_pool_value: the SOL above rent and the floored value of the mSOL. */
  function PoolValue(w: World): int {
    w.chain.solLeg - w.state.cfg.rent + w.chain.msolLeg * RateNum(w.state) / RateDen(w.state)
  }

  lemma MsolToSolIsRate(s: State, msol: nat)
    requires MsolToSol(s, msol).Some?
    ensures MsolToSol(s, msol).value == msol * RateNum(s) / RateDen(s)
  {
  }

  /** What a swap pays and what the pool keeps of it: the treasury's cut comes out of the fee. */
  lemma LiquidUnstakeParts(w: World, msol: nat, treasury: bool, w': World) returns (sold: nat, kept: nat)
    requires w.state.pool.treasuryCut <= MAX_BASIS_POINTS
    requires LiquidUnstake(w, msol, treasury) == Some(w')
    ensures sold <= kept && w'.chain.msolLeg == w.chain.msolLeg + kept
    ensures MsolToSol(w.state, sold).Some?
    ensures w'.chain.solLeg == w.chain.solLeg - MsolToSol(w.state, sold).value
    ensures w'.state == w.state
  {
    var available := SaturatingSub(w.chain.solLeg, w.state.cfg.rent);
    var wanted := MsolToSol(w.state, msol).value;
    var rate := (if wanted >= available then Some(w.state.pool.maxFee)
                 else LinearFee(w.state.pool, available - wanted)).value;
    var fee := ApplyFee(rate, msol);
    sold, kept := msol - fee, w'.chain.msolLeg - w.chain.msolLeg;
    FeeIsPart(w.state.pool.treasuryCut, fee);
  }

  lemma SwapKeepsValue(leg: nat, sold: nat, kept: nat, num: nat, den: nat)
    requires den > 0 && sold <= kept
    ensures (leg + kept) * num / den >= leg * num / den + sold * num / den
  {
    MulMono(sold, kept, num);
    DivMono(sold * num, kept * num, den);
    FloorSuperadditive(leg * num, kept * num, den);
    Distribute(leg, kept, num);
  }

  /** Swapping mSOL for SOL never lowers the value of the pool. */
  lemma LiquidUnstakeKeepsPool(w: World, msol: nat, treasury: bool, w': World)
    requires w.state.pool.treasuryCut <= MAX_BASIS_POINTS
    requires LiquidUnstake(w, msol, treasury) == Some(w')
    ensures PoolValue(w') >= PoolValue(w)
    ensures w'.state == w.state
  {
    var sold, kept := LiquidUnstakeParts(w, msol, treasury, w');
    MsolToSolIsRate(w.state, sold);
    SwapKeepsValue(w.chain.msolLeg, sold, kept, RateNum(w.state), RateDen(w.state));
  }

  /** x shares fewer in the pool lose at most their floored value plus one, and l covers it. */
  lemma SoldForMore(leg: nat, x: nat, num: nat, den: nat, l: nat)
    requires den > 0 && x <= leg && x * num <= l * den
    ensures leg * num / den <= (leg - x) * num / den + l
  {
    Distribute(leg, x, num);
    Floor(leg * num, den);
    Floor((leg - x) * num, den);
    Distribute((leg - x) * num / den, l, den);
    var a, b := leg * num / den, (leg - x) * num / den + l;
    Distribute(b, 1, den);
    CancelStrict(a, b + 1, den);
  }

  lemma LegGrows(leg: nat, v: nat, v': nat, s: nat)
    requires s > 0 && v <= v'
    ensures leg * v / s <= leg * v' / s
  {
    MulMono(v, v', leg);
    DivMono(leg * v, leg * v', s);
  }

  lemma DepositLegValue(v: nat, s: nat, leg: nat, l: nat, order: nat, swapped: nat, sold: nat, v1: nat, s1: nat)
    requires s > 0 && swapped <= leg && swapped <= order
    requires order * v <= l * s
    requires swapped < order ==> swapped == leg && sold * s <= swapped * v < sold * s + s
    requires swapped == order ==> sold == (if order == 0 then 0 else l)
    requires v1 >= v && s1 == s + order - swapped
    ensures (leg - swapped) * v1 / s1 + sold >= leg * v / s
  {
    if swapped < order {
      Floor(leg * v, s);
      Distribute(sold, 1, s);
      CancelStrict(leg * v / s, sold + 1, s);
    } else if order == 0 {
      LegGrows(leg, v, v1, s);
    } else {
      SoldForMore(leg, swapped, v, s, l);
      LegGrows(leg - swapped, v, v1, s);
    }
  }

  /** The value of the pool after a change of its legs and of a positive supply. */
  lemma PoolValueChange(w: World, w': World)
    requires w.state.msolSupply > 0 && w'.state.msolSupply > 0 && w.state.cfg == w'.state.cfg
    ensures PoolValue(w') - PoolValue(w)
            == w'.chain.solLeg - w.chain.solLeg
               + w'.chain.msolLeg * Virtual(w'.state) / w'.state.msolSupply
               - w.chain.msolLeg * Virtual(w.state) / w.state.msolSupply
  {
  }

  lemma EmptyLeg(w: World)
    requires w.chain.msolLeg == 0
    ensures PoolValue(w) == w.chain.solLeg - w.state.cfg.rent
  {
    Floor(0, RateDen(w.state));
  }

  lemma DepositKeepsFundedPool(w: World, lamports: nat, userFunds: nat, w': World)
    requires 0 < w.state.msolSupply && w.chain.msolLeg <= w.state.msolSupply
    requires Deposit(w, lamports, userFunds) == Some(w')
    ensures PoolValue(w') >= PoolValue(w)
  {
    var order, swapped, sold := DepositBounds(w, lamports, userFunds, w');
    var v, s, leg := Virtual(w.state), w.state.msolSupply, w.chain.msolLeg;
    var v1, s1 := Virtual(w'.state), w'.state.msolSupply;
    DepositLegValue(v, s, leg, lamports, order, swapped, sold, v1, s1);
    PoolValueChange(w, w');
    assert w'.chain.msolLeg == leg - swapped;
  }

  /** A deposit never lowers the value of the pool, whether the pool fills it wholly, partly or not
      at all, and whatever it does to the price. */
  lemma DepositKeepsPool(w: World, lamports: nat, userFunds: nat, w': World)
    requires w.chain.msolLeg <= w.state.msolSupply
    requires Deposit(w, lamports, userFunds) == Some(w')
    ensures PoolValue(w') >= PoolValue(w)
  {
    if w.state.msolSupply > 0 {
      DepositKeepsFundedPool(w, lamports, userFunds, w');
    } else {
      var order, swapped, sold := DepositParts(w, lamports, userFunds, w');
      EmptyLeg(w);
      EmptyLeg(w');
    }
  }

  /** Adding liquidity raises the value of the pool by exactly the deposit and never lowers the
      value of an LP share. */
  lemma AddLiquidityKeepsShares(w: World, lamports: nat, userFunds: nat, w': World)
    requires w.chain.lpMinted > 0 && AddLiquidity(w, lamports, userFunds) == Some(w')
    ensures 0 <= PoolValue(w) && PoolValue(w') == PoolValue(w) + lamports
    ensures PoolValue(w') * w.chain.lpMinted >= PoolValue(w) * w'.chain.lpMinted
  {
    MsolToSolIsRate(w.state, w.chain.msolLeg);
    var total, shares := PoolValue(w), w'.chain.lpMinted - w.chain.lpMinted;
    SharesAreCovered(lamports, total, w.chain.lpMinted);
    MintKeeps(total, w.chain.lpMinted, lamports, shares);
  }

  lemma RedeemKeepsLeg(leg: nat, supply: nat, tokens: nat, out: nat)
    requires supply > 0 && tokens <= supply && Proportional(tokens, leg, supply) == Some(out)
    ensures out <= leg && (leg - out) * supply >= leg * (supply - tokens)
  {
    Floor(tokens * leg, supply);
    MulMono(tokens, supply, leg);
    CancelMul(out, leg, supply);
    BurnKeeps(leg, supply, out, tokens);
  }

  /** Removing liquidity never lowers what is left of either leg per LP share. */
  lemma RemoveLiquidityKeepsLegs(w: World, tokens: nat, w': World)
    requires 0 < w.chain.lpMinted <= w.state.pool.lpSupply
    requires RemoveLiquidity(w, tokens) == Some(w')
    ensures w'.chain.lpMinted == w.chain.lpMinted - tokens
    ensures (w'.chain.solLeg - w.state.cfg.rent) * w.chain.lpMinted
            >= (w.chain.solLeg - w.state.cfg.rent) * w'.chain.lpMinted
    ensures w'.chain.msolLeg * w.chain.lpMinted >= w.chain.msolLeg * w'.chain.lpMinted
  {
    RedeemKeepsLeg(w.chain.solLeg - w.state.cfg.rent, w.chain.lpMinted, tokens, w.chain.solLeg - w'.chain.solLeg);
    RedeemKeepsLeg(w.chain.msolLeg, w.chain.lpMinted, tokens, w.chain.msolLeg - w'.chain.msolLeg);
  }

  // ---------- add, then remove liquidity ----------

  /** The mSOL leg of a redemption: strictly below its share of the leg's value rounded up. */
  lemma RedeemedLeg(leg: nat, num: nat, den: nat, q: nat, shares: nat, msolOut: nat, value: nat)
    requires den > 0 && shares > 0
    requires msolOut * q <= shares * leg && value * den <= msolOut * num
    ensures value * q < shares * (leg * num / den + 1)
  {
    var g := leg * num / den;
    Floor(leg * num, den);
    MulMono(value * den, msolOut * num, q);
    Associate(msolOut, num, q);
    Associate(num, msolOut, q);
    MulMono(msolOut * q, shares * leg, num);
    assert value * den * q <= shares * leg * num;
    Associate(shares, leg, num);
    Distribute(g * den + den, leg * num, shares);
    MulMono(1, g * den + den - leg * num, shares);
    assert value * den * q < (g * den + den) * shares;
    Distribute(g, 1, den);
    Associate(shares, g + 1, den);
    Associate(value, den, q);
    Associate(value, q, den);
    assert value * q * den < shares * (g + 1) * den;
    CancelStrict(value * q, shares * (g + 1), den);
  }

  /** The shares bought with `l` redeem to at most `l`, although they were priced by a floored pool
      value: sol + floor(leg*num/den). */
  lemma RedeemedShare(sol: nat, leg: nat, num: nat, den: nat, p: nat, shares: nat, l: nat,
                      solOut: nat, msolOut: nat, value: nat)
    requires den > 0 && p + shares > 0
    requires shares * (sol + leg * num / den) <= l * p
    requires solOut * (p + shares) <= shares * (sol + l)
    requires msolOut * (p + shares) <= shares * leg
    requires value * den <= msolOut * num
    ensures solOut + value <= l
  {
    var q, g := p + shares, leg * num / den;
    if shares == 0 {
      CancelMul(solOut, 0, q);
      CancelMul(msolOut, 0, q);
      CancelMul(value, 0, den);
    } else {
      RedeemedLeg(leg, num, den, q, shares, msolOut, value);
      Distribute(solOut, value, q);
      Distribute(sol + l, g + 1, shares);
      Distribute(sol + g, l + 1, shares);
      assert (solOut + value) * q < shares * (sol + g) + shares * (l + 1);
      Distribute(l, 1, shares);
      Distribute(p, shares, l);
      Distribute(l, 1, q);
      assert (solOut + value) * q < l * q + shares;
      CancelStrict(solOut + value, l + 1, q);
    }
  }

  /** What add_liquidity asks and gives: shares priced by the floored pool value. */
  lemma AddLiquidityParts(w: World, lamports: nat, userFunds: nat, w': World) returns (shares: nat)
    requires w.chain.lpMinted > 0 && AddLiquidity(w, lamports, userFunds) == Some(w')
    ensures w.chain.solLeg >= w.state.cfg.rent
    ensures w' == World(w.state.(pool := w'.state.pool),
                        w.chain.(solLeg := w.chain.solLeg + lamports, lpMinted := w.chain.lpMinted + shares))
    ensures w'.state.pool.lpSupply == w'.chain.lpMinted
    ensures shares * (w.chain.solLeg - w.state.cfg.rent + w.chain.msolLeg * RateNum(w.state) / RateDen(w.state))
            <= lamports * w.chain.lpMinted
  {
    shares := w'.chain.lpMinted - w.chain.lpMinted;
    MsolToSolIsRate(w.state, w.chain.msolLeg);
    SharesAreCovered(lamports, PoolValue(w), w.chain.lpMinted);
  }

  /** What remove_liquidity pays out of each leg, and what the mSOL is worth. */
  lemma RemoveLiquidityParts(w: World, tokens: nat, w': World) returns (solOut: nat, msolOut: nat, value: nat)
    requires 0 < w.chain.lpMinted == w.state.pool.lpSupply && RemoveLiquidity(w, tokens) == Some(w')
    ensures w.chain.solLeg >= w.state.cfg.rent
    ensures solOut == w.chain.solLeg - w'.chain.solLeg && msolOut == w.chain.msolLeg - w'.chain.msolLeg
    ensures solOut * w.chain.lpMinted <= tokens * (w.chain.solLeg - w.state.cfg.rent)
    ensures msolOut * w.chain.lpMinted <= tokens * w.chain.msolLeg
    ensures MsolToSol(w.state, msolOut) == Some(value)
    ensures value * RateDen(w.state) <= msolOut * RateNum(w.state)
  {
    solOut, msolOut := w.chain.solLeg - w'.chain.solLeg, w.chain.msolLeg - w'.chain.msolLeg;
    value := MsolToSol(w.state, msolOut).value;
    Floor(tokens * (w.chain.solLeg - w.state.cfg.rent), w.chain.lpMinted);
    Floor(tokens * w.chain.msolLeg, w.chain.lpMinted);
    MsolToSolIsRate(w.state, msolOut);
    Floor(msolOut * RateNum(w.state), RateDen(w.state));
  }

  /** Adding liquidity and removing exactly the shares received returns SOL and mSOL worth at most
      what was added. */
  lemma LiquidityRoundTrip(w: World, lamports: nat, userFunds: nat, w1: World, w2: World)
    requires w.chain.lpMinted > 0
    requires AddLiquidity(w, lamports, userFunds) == Some(w1)
    requires w1.chain.lpMinted >= w.chain.lpMinted
    requires RemoveLiquidity(w1, w1.chain.lpMinted - w.chain.lpMinted) == Some(w2)
    ensures var solOut, msolOut := w1.chain.solLeg - w2.chain.solLeg, w1.chain.msolLeg - w2.chain.msolLeg;
            && solOut >= 0 && msolOut >= 0 && MsolToSol(w.state, msolOut).Some?
            && solOut + MsolToSol(w.state, msolOut).value <= lamports
  {
    var shares := AddLiquidityParts(w, lamports, userFunds, w1);
    var solOut, msolOut, value := RemoveLiquidityParts(w1, shares, w2);
    assert RateNum(w1.state) == RateNum(w.state) && RateDen(w1.state) == RateDen(w.state);
    RedeemedShare(w.chain.solLeg - w.state.cfg.rent, w.chain.msolLeg, RateNum(w.state), RateDen(w.state),
                  w.chain.lpMinted, shares, lamports, solOut, msolOut, value);
  }
}
