/** What deposits give: the mSOL is the floored worth of the net deposit at the price before it. */
module Minting {
  import opened Base
  import opened Calc
  import opened Model
  import opened Instructions
  import opened Price

  /** `msol` is what `net` lamports buy when `value` lamports back `supply` mSOL. */
  predicate BuysAt(value: nat, supply: nat, net: nat, msol: int) {
    if supply > 0 && value > 0 then IsFloor(msol, net * supply, value) else msol == net
  }

  /** The same at the price of state `s`. */
  predicate Buys(s: State, net: nat, msol: int) {
    BuysAt(Virtual(s), s.msolSupply, net, msol)
  }

  /** `lamports` are what `msol` is worth at the price of state `s`. */
  predicate Worth(s: State, msol: nat, lamports: int) {
    if s.msolSupply > 0 then IsFloor(lamports, msol * Virtual(s), s.msolSupply) else lamports == msol
  }

  /** `net` is what a fee of `bpCents` leaves of `gross`. */
  predicate Net(bpCents: nat, gross: nat, net: int) {
    IsFloor(gross - net, gross * bpCents, MAX_BP_CENTS)
  }

  lemma MsolFromLamportsBuys(s: State, net: nat)
    requires MsolFromLamports(s, net).Some?
    ensures Buys(s, net, MsolFromLamports(s, net).value)
  {
    if s.msolSupply > 0 && Virtual(s) > 0 {
      SharesIsFloor(net, Virtual(s), s.msolSupply);
    }
  }

  lemma MsolToSolIsWorth(s: State, msol: nat)
    requires MsolToSol(s, msol).Some?
    ensures Worth(s, msol, MsolToSol(s, msol).value)
  {
    if s.msolSupply > 0 {
      ValueIsFloor(msol, Virtual(s), s.msolSupply);
    }
  }

  lemma NetOfFee(bpCents: nat, gross: nat)
    requires bpCents <= MAX_BP_CENTS && gross <= U64_MAX
    ensures ApplyFeeCents(bpCents, gross) <= gross && Net(bpCents, gross, gross - ApplyFeeCents(bpCents, gross))
  {
    FeeCentsIsFloor(bpCents, gross);
  }

  // ---------- deposit ----------

  /** A deposit: the user's mSOL is bought at the price before it with the deposit less its fee. The pool
      sells as much of it as it has, for the whole deposit when that is all, for its worth otherwise; the
      other lamports go to the reserve, the other mSOL is minted, on the books and on the chain alike. */
  lemma DepositBuys(w: World, lamports: nat, userFunds: nat, w': World) returns (net: nat, order: nat)
    requires Deposit(w, lamports, userFunds) == Some(w') && lamports <= U64_MAX
    requires w.state.cfg.depositSolFee <= MAX_BP_CENTS
    ensures w.state.cfg.minDeposit <= lamports <= userFunds && w.chain.msolMinted <= w.state.msolSupply
    ensures Net(w.state.cfg.depositSolFee, lamports, net) && Buys(w.state, net, order)
    ensures var swapped := w.chain.msolLeg - w'.chain.msolLeg;
            var minted := w'.state.msolSupply - w.state.msolSupply;
            && swapped == Min(order, w.chain.msolLeg) && minted == order - swapped
            && w'.chain.msolMinted - w.chain.msolMinted == minted
    ensures var sold, kept := w'.chain.solLeg - w.chain.solLeg, w'.state.reserve - w.state.reserve;
            && sold + kept == lamports && w'.chain.reserveLamports - w.chain.reserveLamports == kept
            && if order == 0 || w.chain.msolLeg == 0 then sold == 0
               else if order <= w.chain.msolLeg then sold == lamports
               else Worth(w.state, w.chain.msolLeg, sold)
  {
    var s := w.state;
    var swapped, sold;
    order, swapped, sold := DepositParts(w, lamports, userFunds, w');
    NetOfFee(s.cfg.depositSolFee, lamports);
    net := lamports - ApplyFeeCents(s.cfg.depositSolFee, lamports);
    MsolFromLamportsBuys(s, net);
    if 0 < swapped < order {
      MsolToSolIsWorth(s, swapped);
    }
  }

  // ---------- deposit_stake_account ----------

  /** A stake deposit: an activated, unlocked account with nothing above its rent and its delegation
      becomes the program's, and the user's mSOL is bought with the delegation less its fee at the price
      before the stake counts. */
  lemma DepositStakeAccountBuys(w: World, account: Key, j: nat, w': World) returns (net: nat, minted: nat)
    requires DepositStakeAccount(w, account, j) == Some(w') && w.state.cfg.depositStakeFee <= MAX_BP_CENTS
    ensures account in w.chain.accounts && w.chain.accounts[account].delegation.Some?
    ensures var source := w.chain.accounts[account]; var d := source.delegation.value;
            && !source.ours && !source.locked && !d.deactivating && d.activationEpoch <= w.chain.clock.epoch
            && d.stake >= w.state.cfg.minStake && source.lamports == source.rent + d.stake
            && w'.chain.accounts == w.chain.accounts[account := source.(ours := true)]
            && Net(w.state.cfg.depositStakeFee, d.stake, net) && Buys(w.state, net, minted)
    ensures w'.state.msolSupply == w.state.msolSupply + minted && w.chain.msolMinted <= w.state.msolSupply
    ensures w'.chain.msolMinted == w.chain.msolMinted + minted
    ensures w'.state.reserve == w.state.reserve && w'.chain.reserveLamports == w.chain.reserveLamports
    ensures j < |w.state.ledger.validators| && |w'.state.ledger.validators| == |w.state.ledger.validators|
    ensures var l, l', stake := w.state.ledger, w'.state.ledger, w.chain.accounts[account].delegation.value.stake;
            && l.validators[j].vote == w.chain.accounts[account].delegation.value.voter
            && l'.stakes == l.stakes + [StakeRecord(account, stake, w.chain.clock.epoch, false, Active)]
            && l'.validators == l.validators[j := l.validators[j].(balance := l.validators[j].balance + stake,
                                                                   upgraderBalance := l'.validators[j].upgraderBalance)]
            && l'.totalActive == l.totalActive + stake
  {
    var s, stake := w.state, w.chain.accounts[account].delegation.value.stake;
    NetOfFee(s.cfg.depositStakeFee, stake);
    net := stake - ApplyFeeCents(s.cfg.depositStakeFee, stake);
    MsolFromLamportsBuys(s, net);
    minted := w'.state.msolSupply - s.msolSupply;
  }
}
