/** When the users' instructions succeed: their checks are all that can stop them while the books hold. */
module Successes {
  import opened Base
  import opened Calc
  import opened Model
  import opened Instructions
  import opened Price
  import opened FeeCurve
  import opened Minting
  import opened Totals
  import opened Soundness
  import opened LedgerSafety
  import L = LedgerOps

  /** The u64 fields are within their width. */
  predicate Widths(w: World) {
    && ControlFits(w.state) && w.state.msolSupply <= U64_MAX && w.state.ticketBalance <= U64_MAX
    && w.chain.solLeg <= U64_MAX
  }

  // ---------- deposit ----------

  /** What the pool is paid for its part of an `order` when it has `leg` mSOL. */
  function SoldFor(s: State, lamports: nat, order: nat, leg: nat): Option<nat> {
    if order == 0 || leg == 0 then Some(0) else if order <= leg then Some(lamports) else MsolToSol(s, leg)
  }

  lemma Affordable(leg: nat, order: nat, v: nat, supply: nat, net: nat)
    requires supply > 0 && leg <= order && order * v <= net * supply
    ensures leg * v / supply <= net
  {
    MulMono(leg, order, v);
    Floor(leg * v, supply);
    CancelMul(leg * v / supply, net, supply);
  }

  /** The pool's mSOL, bought with less than the deposit, is worth no more than it. */
  lemma PoolIsAffordable(s: State, net: nat, lamports: nat, order: nat, leg: nat)
    requires ControlFits(s) && MsolFromLamports(s, net) == Some(order) && net <= lamports <= U64_MAX
    requires leg <= s.msolSupply
    ensures SoldFor(s, lamports, order, leg).Some? && SoldFor(s, lamports, order, leg).value <= lamports
  {
    if 0 < leg < order {
      SharesAreCovered(net, Virtual(s), s.msolSupply);
      Affordable(leg, order, Virtual(s), s.msolSupply, net);
    }
  }

  /** The mSOL fits, and what reaches the reserve is within the staking cap. */
  predicate DepositFits(s: State, lamports: nat, order: nat, leg: nat) {
    var sold := SoldFor(s, lamports, order, leg);
    && s.msolSupply + order - Min(order, leg) <= U64_MAX
    && sold.Some?
    && (sold.value < lamports ==> Control(s) + lamports - sold.value <= Min(s.stakingCap, U64_MAX))
  }

  lemma DepositPlaced(w: World, lamports: nat, userFunds: nat, order: nat)
    requires var s := w.state;
             MsolFromLamports(s, SaturatingSub(lamports, ApplyFeeCents(s.cfg.depositSolFee, lamports))) == Some(order)
    requires Widths(w)
    requires SoldFor(w.state, lamports, order, w.chain.msolLeg).Some?
    requires SoldFor(w.state, lamports, order, w.chain.msolLeg).value <= lamports
    requires !w.state.cfg.paused && w.state.cfg.minDeposit <= lamports <= userFunds
    requires w.chain.msolMinted <= w.state.msolSupply
    ensures Deposit(w, lamports, userFunds).Some? <==> DepositFits(w.state, lamports, order, w.chain.msolLeg)
  {
  }

  /** deposit succeeds exactly when the program is not paused, the deposit is within the user's means and
      not too small, the mSOL fits, and what reaches the reserve is within the staking cap. */
  lemma DepositIff(w: World, lamports: nat, userFunds: nat)
    requires Covered(w) && Widths(w) && lamports <= U64_MAX && w.state.cfg.depositSolFee <= MAX_BP_CENTS
    ensures var s := w.state;
            var order := MsolFromLamports(s, SaturatingSub(lamports, ApplyFeeCents(s.cfg.depositSolFee, lamports)));
            Deposit(w, lamports, userFunds).Some?
            <==> && !s.cfg.paused && s.cfg.minDeposit <= lamports <= userFunds
                 && order.Some? && DepositFits(s, lamports, order.value, w.chain.msolLeg)
  {
    var s, leg := w.state, w.chain.msolLeg;
    NetOfFee(s.cfg.depositSolFee, lamports);
    var net := lamports - ApplyFeeCents(s.cfg.depositSolFee, lamports);
    var order := MsolFromLamports(s, net);
    if order.Some? && !s.cfg.paused && s.cfg.minDeposit <= lamports <= userFunds {
      PoolIsAffordable(s, net, lamports, order.value, leg);
      DepositPlaced(w, lamports, userFunds, order.value);
    }
  }

  // ---------- order_unstake ----------

  /** order_unstake succeeds exactly when the program is not paused, the mSOL exists, and the ticket is fresh
      and not too small. */
  lemma OrderUnstakeIff(w: World, msol: nat, ticket: Key)
    requires Covered(w) && Widths(w) && w.state.cfg.delayedUnstakeFee <= MAX_BP_CENTS && msol <= U64_MAX
    requires w.state.ticketBalance <= Control(w.state)
    requires w.state.msolSupply > 0 && w.state.ticketCount < U64_MAX && w.chain.clock.epoch < U64_MAX
    ensures OrderUnstake(w, msol, ticket).Some?
            <==> && !w.state.cfg.paused && w.chain.msolLeg + msol <= w.chain.msolMinted && ticket !in w.chain.tickets
                 && MsolToSol(w.state, msol).Some?
                 && var value := MsolToSol(w.state, msol).value;
                 value - ApplyFeeCents(w.state.cfg.delayedUnstakeFee, value) >= w.state.cfg.minWithdraw
  {
    var s := w.state;
    if MsolToSol(s, msol).Some? {
      var value := MsolToSol(s, msol).value;
      NetOfFee(s.cfg.delayedUnstakeFee, value);
      if msol <= s.msolSupply {
        ValueIsCovered(msol, Virtual(s), s.msolSupply);
        MulMono(msol, s.msolSupply, Virtual(s));
        CancelMul(value, Virtual(s), s.msolSupply);
      }
    }
  }

  // ---------- liquid_unstake ----------

  /** The rate of a swap of `value` lamports' worth. */
  function RateOf(w: World, value: nat): Option<nat> {
    var available := SaturatingSub(w.chain.solLeg, w.state.cfg.rent);
    if value >= available then Some(w.state.pool.maxFee) else LinearFee(w.state.pool, available - value)
  }

  lemma SwapFee(w: World, msol: nat, value: nat)
    requires ValidPool(w.state.pool) && msol <= U64_MAX
    ensures RateOf(w, value).Some? && ApplyFee(RateOf(w, value).value, msol) <= msol
    ensures ApplyFee(w.state.pool.treasuryCut, ApplyFee(RateOf(w, value).value, msol)) <= msol
  {
    var available := SaturatingSub(w.chain.solLeg, w.state.cfg.rent);
    if value < available {
      FeeWithinBounds(w.state.pool, available - value);
    }
    var fee := ApplyFee(RateOf(w, value).value, msol);
    FeeIsPart(RateOf(w, value).value, msol);
    FeeIsPart(w.state.pool.treasuryCut, fee);
  }

  /** liquid_unstake succeeds exactly when the program is not paused, the mSOL exists, and its worth less the
      fee is in the pool and not too small. */
  lemma LiquidUnstakeIff(w: World, msol: nat, treasury: bool)
    requires ValidPool(w.state.pool) && msol <= U64_MAX && Widths(w)
    ensures MsolToSol(w.state, msol).Some? ==>
              var rate := RateOf(w, MsolToSol(w.state, msol).value);
              rate.Some? && ApplyFee(rate.value, msol) <= msol
    ensures LiquidUnstake(w, msol, treasury).Some?
            <==> && !w.state.cfg.paused && w.chain.msolLeg + msol <= w.chain.msolMinted && MsolToSol(w.state, msol).Some?
                 && var rate := RateOf(w, MsolToSol(w.state, msol).value).value;
                 var paid := MsolToSol(w.state, msol - ApplyFee(rate, msol));
                 && paid.Some? && w.state.cfg.minWithdraw <= paid.value <= w.chain.solLeg - w.state.cfg.rent
  {
    if MsolToSol(w.state, msol).Some? {
      SwapFee(w, msol, MsolToSol(w.state, msol).value);
    }
  }

  // ---------- deposit_stake_account ----------

  lemma {:induction false} ActiveAtMost(a: Accounts, s: seq<StakeRecord>)
    ensures Total(CountActive, a, s) <= |s|
  {
    if s != [] {
      ActiveAtMost(a, s[..|s| - 1]);
    }
  }

  /** A new Active record only has to fit its validator's balance, in every phase of the migration. */
  lemma AddActiveIff(l: Ledger, a: Accounts, account: Key, amount: nat, epoch: nat, j: nat, deltaEpoch: nat)
    requires Sound(l, a) && j < |l.validators| && |l.stakes| < U32_MAX && l.totalActive + amount <= U64_MAX
    ensures L.AddActive(l, account, amount, epoch, j, deltaEpoch).Some? <==> l.validators[j].balance + amount <= U64_MAX
  {
    ActiveAtMost(a, l.stakes);
    match l.upgrader {
      case IteratingStakes(_, _, _) => assert BalanceCovers(l.validators[j], a, l.stakes);
      case IteratingValidators(next, _) => assert Halfway(l.validators[j], j < next, a, l.stakes);
      case Done =>
    }
  }

  /** The account can be handed to the program: activated, unlocked, somebody's, and with nothing above its
      rent and its delegation. */
  predicate Depositable(w: World, account: Key) {
    && account in w.chain.accounts && w.chain.accounts[account].delegation.Some?
    && var source := w.chain.accounts[account]; var d := source.delegation.value;
    && !source.ours && !source.locked && !d.deactivating && d.activationEpoch <= w.chain.clock.epoch
    && d.stake >= w.state.cfg.minStake && source.lamports == source.rent + d.stake
  }

  /** deposit_stake_account succeeds exactly when the program is not paused, the account can be handed over,
      its validator is listed, the list has room, and stake and mSOL fit the cap and their fields. */
  lemma DepositStakeAccountIff(w: World, account: Key, j: nat)
    requires WorldOk(w) && Covered(w) && Widths(w) && |w.state.ledger.stakes| < U32_MAX
    ensures DepositStakeAccount(w, account, j).Some?
            <==> && !w.state.cfg.paused && Depositable(w, account) && j < |w.state.ledger.validators|
                 && |w.state.ledger.stakes| < w.chain.stakeCapacity
                 && var d := w.chain.accounts[account].delegation.value;
                 && w.state.ledger.validators[j].vote == d.voter
                 && Control(w.state) + d.stake <= Min(w.state.stakingCap, U64_MAX)
                 && w.state.ledger.validators[j].balance + d.stake <= U64_MAX
                 && var minted := MsolFromLamports(w.state, SaturatingSub(d.stake, ApplyFeeCents(w.state.cfg.depositStakeFee,
                                                                                                 d.stake)));
                 minted.Some? && w.state.msolSupply + minted.value <= U64_MAX
  {
    if Depositable(w, account) && j < |w.state.ledger.validators| {
      var stake, l := w.chain.accounts[account].delegation.value.stake, w.state.ledger;
      if l.totalActive + stake <= U64_MAX {
        AddActiveIff(l, w.chain.accounts, account, stake, w.chain.clock.epoch, j, l.validators[j].lastDeltaEpoch);
      }
    }
  }

  // ---------- liquidity ----------

  /** add_liquidity succeeds exactly when the program is not paused, the deposit is within means, minimum and
      the pool's cap, no unknown LP tokens exist, and the shares fit. */
  lemma AddLiquidityIff(w: World, lamports: nat, userFunds: nat)
    requires Widths(w) && w.chain.solLeg >= w.state.cfg.rent
    ensures var legValue := MsolToSol(w.state, w.chain.msolLeg);
            AddLiquidity(w, lamports, userFunds).Some?
            <==> && !w.state.cfg.paused && w.state.cfg.minDeposit <= lamports <= userFunds
                 && w.chain.solLeg + lamports <= Min(w.state.pool.liquidityCap, U64_MAX)
                 && w.chain.lpMinted <= w.state.pool.lpSupply
                 && legValue.Some? && w.chain.solLeg - w.state.cfg.rent + legValue.value <= U64_MAX
                 && var shares := SharesFromValue(lamports, w.chain.solLeg - w.state.cfg.rent + legValue.value,
                                                  w.chain.lpMinted);
                 shares.Some? && w.chain.lpMinted + shares.value <= U64_MAX
  {
  }

  lemma PartFits(tokens: nat, leg: nat, supply: nat)
    requires tokens <= supply && leg <= U64_MAX && supply > 0
    ensures Proportional(tokens, leg, supply).Some? && Proportional(tokens, leg, supply).value <= leg
  {
    PartOfRange(leg, tokens, supply);
  }

  /** remove_liquidity succeeds exactly when the program is not paused, the tokens exist, and what they redeem
      is not too small: neither leg runs short. */
  lemma RemoveLiquidityIff(w: World, tokens: nat)
    requires Widths(w) && w.chain.solLeg >= w.state.cfg.rent && w.chain.msolLeg <= U64_MAX
    requires 0 < w.chain.lpMinted <= w.state.pool.lpSupply && tokens <= w.chain.lpMinted
    ensures var solOut := Proportional(tokens, w.chain.solLeg - w.state.cfg.rent, w.chain.lpMinted);
            var msolOut := Proportional(tokens, w.chain.msolLeg, w.chain.lpMinted);
            && solOut.Some? && msolOut.Some?
            && (RemoveLiquidity(w, tokens).Some?
                <==> && !w.state.cfg.paused
                     && var value := MsolToSol(w.state, msolOut.value);
                     value.Some? && w.state.cfg.minWithdraw <= solOut.value + value.value <= U64_MAX)
  {
    PartFits(tokens, w.chain.solLeg - w.state.cfg.rent, w.chain.lpMinted);
    PartFits(tokens, w.chain.msolLeg, w.chain.lpMinted);
  }

  // ---------- reshaping and validators ----------

  /** Record `i` is Active, its live account is delegated as recorded to validator `j`. */
  predicate Mergeable(w: World, i: nat, account: Key, j: nat) {
    && i < |w.state.ledger.stakes| && j < |w.state.ledger.validators|
    && w.state.ledger.stakes[i].account == account && w.state.ledger.stakes[i].status.Active?
    && UpToDate(w.chain.accounts, account, w.state.ledger.stakes[i].lamports, w.state.ledger.validators[j].vote)
    && !w.chain.accounts[account].delegation.value.deactivating
  }

  /** merge_stakes succeeds exactly when the program is not paused nor migrating, both stakes are live, up to
      date and with the same validator, the destination is its canonical one, the source holds nothing
      above its rent, and no more than that rent was activated. */
  lemma MergeStakesIff(w: World, dst: nat, dstAccount: Key, src: nat, srcAccount: Key, j: nat, merged: nat)
    requires WorldOk(w) && merged <= U64_MAX && w.state.ledger.totalActive + merged <= U64_MAX
    ensures MergeStakes(w, dst, dstAccount, src, srcAccount, j, merged).Some?
            <==> && !w.state.cfg.paused && w.state.ledger.upgrader.Done?
                 && Mergeable(w, dst, dstAccount, j) && Mergeable(w, src, srcAccount, j)
                 && dstAccount == CanonicalStake(w.state.ledger.validators[j].vote) && srcAccount != dstAccount
                 && var from := w.chain.accounts[srcAccount];
                 && from.lamports == from.rent + w.state.ledger.stakes[src].lamports
                 && 0 <= merged - w.state.ledger.stakes[dst].lamports - w.state.ledger.stakes[src].lamports <= from.rent
  {
    if w.state.ledger.upgrader.Done? && j < |w.state.ledger.validators| {
      GaugeInSum(Balance, w.state.ledger.validators, j);
    }
  }

  /** set_validator_score succeeds exactly when the program is not paused, the validator is at that index and
      the new total fits: taking the old score off never fails. */
  lemma SetValidatorScoreIff(w: World, j: nat, vote: Key, score: nat)
    requires WorldOk(w)
    ensures SetValidatorScore(w, j, vote, score).Some?
            <==> && !w.state.cfg.paused && j < |w.state.ledger.validators| && w.state.ledger.validators[j].vote == vote
                 && w.state.ledger.totalScore - w.state.ledger.validators[j].score + score <= U32_MAX
  {
    if j < |w.state.ledger.validators| {
      GaugeInSum(Score, w.state.ledger.validators, j);
    }
  }

  /** remove_validator succeeds exactly when the program is not paused nor migrating, the validator is at that
      index, and nothing is staked with it: its flag is always there. */
  lemma RemoveValidatorIff(w: World, j: nat, vote: Key)
    requires WorldOk(w)
    ensures RemoveValidator(w, j, vote).Some?
            <==> && !w.state.cfg.paused && w.state.ledger.upgrader.Done?
                 && j < |w.state.ledger.validators| && w.state.ledger.validators[j].vote == vote
                 && w.state.ledger.validators[j].balance == 0
  {
    if j < |w.state.ledger.validators| {
      GaugeInSum(Score, w.state.ledger.validators, j);
      assert Listed(w.state.ledger.validators, w.state.ledger.validators[j].vote);
    }
  }

  /** add_validator succeeds exactly when the program is not paused nor migrating, the list has room, the new
      total fits, and no listed validator has that vote. */
  lemma AddValidatorIff(w: World, vote: Key, score: nat)
    requires WorldOk(w)
    ensures AddValidator(w, vote, score).Some?
            <==> && !w.state.cfg.paused && w.state.ledger.upgrader.Done?
                 && |w.state.ledger.validators| < w.chain.validatorCapacity
                 && w.state.ledger.totalScore + score <= U32_MAX
                 && forall m :: 0 <= m < |w.state.ledger.validators| ==> w.state.ledger.validators[m].vote != vote
  {
    assert vote in w.chain.flags <==> Listed(w.state.ledger.validators, vote);
  }
}
