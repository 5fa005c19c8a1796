/** What an update earns: the lamports it credits and the mSOL it mints as the fee on them. */
module Rewards {
  import opened Base
  import opened Calc
  import opened Model
  import opened Instructions
  import opened Parts
  import opened Price
  import opened Minting
  import opened UpdateTotality
  import L = LedgerOps

  /** The part of `incoming` lamports a reward fee of `basisPoints` takes, if it can be paid. */
  predicate FeePart(basisPoints: nat, incoming: nat, treasury: bool, part: int) {
    if treasury then IsFloor(part, incoming * basisPoints, MAX_BASIS_POINTS) else part == 0
  }

  /** The lamports backing the mSOL supply when `control` are under control. */
  function Backing(w: World, control: int): nat
    requires control >= 0
  {
    SaturatingSub(control, w.state.ticketBalance)
  }

  lemma MintFeeBuys(s: State, incoming: nat, treasury: bool, s': State) returns (part: nat, fee: nat)
    requires s.cfg.rewardFee <= MAX_BASIS_POINTS && incoming <= U64_MAX && MintFee(s, incoming, treasury) == Some(s')
    ensures FeePart(s.cfg.rewardFee, incoming, treasury, part) && Buys(s, part, fee)
    ensures s' == s.(msolSupply := s.msolSupply + fee)
  {
    part := if treasury then ApplyFee(s.cfg.rewardFee, incoming) else 0;
    fee := ProtocolFee(s, incoming, treasury).value;
    FeeIsFloor(s.cfg.rewardFee, incoming);
    if treasury {
      MsolFromLamportsBuys(s, part);
    }
  }

  lemma CreditExtraBuys(s: State, extra: nat, treasury: bool, s': State) returns (part: nat, fee: nat)
    requires s.cfg.rewardFee <= MAX_BASIS_POINTS && extra <= U64_MAX && CreditExtra(s, extra, treasury) == Some(s')
    ensures FeePart(s.cfg.rewardFee, extra, treasury, part)
    ensures BuysAt(SaturatingSub(Control(s) + extra, s.ticketBalance), s.msolSupply, part, fee)
    ensures s' == s.(reserve := s.reserve + extra, msolSupply := s.msolSupply + fee)
  {
    if extra == 0 {
      part, fee := 0, 0;
    } else {
      part, fee := MintFeeBuys(s.(reserve := s.reserve + extra), extra, treasury, s');
    }
  }

  lemma FeeOnGrowthBuys(s: State, last: nat, now: nat, treasury: bool, s': State) returns (part: nat, fee: nat)
    requires s.cfg.rewardFee <= MAX_BASIS_POINTS && now <= U64_MAX && FeeOnGrowth(s, last, now, treasury) == Some(s')
    ensures FeePart(s.cfg.rewardFee, SaturatingSub(now, last), treasury, part) && Buys(s, part, fee)
    ensures s' == s.(msolSupply := s.msolSupply + fee)
  {
    if now >= last {
      part, fee := MintFeeBuys(s, now - last, treasury, s');
    } else {
      part, fee := 0, 0;
    }
  }

  // ---------- update_active ----------

  lemma SettleActiveEarns(w: World, i: nat, account: Key, j: nat, last: nat, treasury: bool, w': World)
    returns (part1: nat, fee1: nat, part2: nat, fee2: nat)
    requires i < |w.state.ledger.stakes| && j < |w.state.ledger.validators|
    requires account in w.chain.accounts && w.chain.accounts[account].delegation.Some?
    requires w.state.cfg.rewardFee <= MAX_BASIS_POINTS && w.chain.accounts[account].lamports <= U64_MAX
    requires w.chain.accounts[account].delegation.value.stake <= U64_MAX
    requires SettleActive(w, i, account, j, last, treasury) == Some(w')
    ensures var source := w.chain.accounts[account]; var stake, extra := source.delegation.value.stake, Extra(source);
            var value := SaturatingSub(Control(w.state) + extra, w.state.ticketBalance);
            && extra <= source.lamports
            && FeePart(w.state.cfg.rewardFee, extra, treasury, part1) && BuysAt(value, w.state.msolSupply, part1, fee1)
            && FeePart(w.state.cfg.rewardFee, SaturatingSub(stake, last), treasury, part2)
            && BuysAt(value, w.state.msolSupply + fee1, part2, fee2)
            && w'.state.reserve == w.state.reserve + extra
            && w'.chain.reserveLamports == w.chain.reserveLamports + extra
            && w'.chain.accounts == w.chain.accounts[account := source.(lamports := source.lamports - extra)]
            && w'.state.ticketBalance == w.state.ticketBalance
            && w'.state.msolSupply == w'.chain.msolMinted == w.state.msolSupply + fee1 + fee2
  {
    var source := w.chain.accounts[account];
    var stake, extra := source.delegation.value.stake, Extra(source);
    var s1 := CreditExtra(w.state, extra, treasury).value;
    part1, fee1 := CreditExtraBuys(w.state, extra, treasury, s1);
    var s2 := FeeOnGrowth(s1, last, stake, treasury).value;
    part2, fee2 := FeeOnGrowthBuys(s1, last, stake, treasury, s2);
  }

  /** update_active brings the lamports above rent and delegation into the reserve and follows the
      delegation, up or down. A fee on the former is minted once they count, a fee on rewards before they
      do; without a treasury, and on a slash, there is none. */
  lemma UpdateActiveEarns(w: World, i: nat, account: Key, j: nat, treasury: bool, w': World)
    returns (part1: nat, fee1: nat, part2: nat, fee2: nat)
    requires UpdateActive(w, i, account, j, treasury) == Some(w') && w.state.cfg.rewardFee <= MAX_BASIS_POINTS
    requires account in w.chain.accounts && w.chain.accounts[account].lamports <= U64_MAX
    requires w.chain.accounts[account].delegation.Some? && w.chain.accounts[account].delegation.value.stake <= U64_MAX
    ensures i < |w.state.ledger.stakes|
    ensures var source, last := w.chain.accounts[account], w.state.ledger.stakes[i].lamports;
            var stake, extra := source.delegation.value.stake, Extra(source);
            var value := Backing(w, ControlNow(w) + extra);
            && FeePart(w.state.cfg.rewardFee, extra, treasury, part1) && BuysAt(value, w.chain.msolMinted, part1, fee1)
            && FeePart(w.state.cfg.rewardFee, SaturatingSub(stake, last), treasury, part2)
            && BuysAt(value, w.chain.msolMinted + fee1, part2, fee2)
            && Control(w'.state) == ControlNow(w) + extra + stake - last
            && extra <= source.lamports
            && w'.chain.reserveLamports == w.chain.reserveLamports + extra
            && w'.chain.accounts == w.chain.accounts[account := source.(lamports := source.lamports - extra)]
            && w'.state.msolSupply == w'.chain.msolMinted == w.chain.msolMinted + fee1 + fee2
  {
    var w1 := UpdateActiveCore(w, i, account, j, treasury).value;
    var s1, l1 := UpdateActiveSettles(w, i, account, j, treasury, w1);
    var last, stake := w.state.ledger.stakes[i].lamports, w.chain.accounts[account].delegation.value.stake;
    var l2 := w1.state.ledger;
    SettleActiveObserves(World(s1.(ledger := l1), w.chain), i, account, j, last, treasury, w1);
    VisitTotals(w.state.ledger, l1, l2, i, j, stake, w.chain.clock.epoch);
    part1, fee1, part2, fee2 := SettleActiveEarns(World(s1.(ledger := l1), w.chain), i, account, j, last, treasury, w1);
    ProgressKeepsTotals(l2, w'.state.ledger);
  }

  lemma SettleActiveObserves(w: World, i: nat, account: Key, j: nat, last: nat, treasury: bool, w': World)
    requires i < |w.state.ledger.stakes| && j < |w.state.ledger.validators|
    requires account in w.chain.accounts && w.chain.accounts[account].delegation.Some?
    requires SettleActive(w, i, account, j, last, treasury) == Some(w')
    ensures L.Observe(w.state.ledger, i, j, w.chain.accounts[account].delegation.value.stake, w.chain.clock.epoch)
            == Some(w'.state.ledger)
  {
    var s2, s3, extra := SettleActiveStages(w, i, account, j, last, treasury, w');
  }

  // ---------- update_deactivated ----------

  /** update_deactivated closes the account, brings all of it but the rent into the reserve, and mints the
      fee on what that exceeds the last recorded delegation by, priced before it counts. */
  lemma UpdateDeactivatedEarns(w: World, i: nat, account: Key, j: nat, treasury: bool, w': World)
    returns (part: nat, fee: nat)
    requires UpdateDeactivated(w, i, account, j, treasury) == Some(w') && w.state.cfg.rewardFee <= MAX_BASIS_POINTS
    requires account in w.chain.accounts && w.chain.accounts[account].lamports <= U64_MAX
    ensures i < |w.state.ledger.stakes|
    ensures var source, last := w.chain.accounts[account], w.state.ledger.stakes[i].lamports;
            && source.rent <= source.lamports
            && var balance := source.lamports - source.rent;
            && FeePart(w.state.cfg.rewardFee, SaturatingSub(balance, last), treasury, part)
            && BuysAt(Backing(w, ControlNow(w)), w.chain.msolMinted, part, fee)
            && Control(w'.state) == ControlNow(w) + balance - last
            && w'.chain.reserveLamports == w.chain.reserveLamports + balance
            && w'.chain.accounts == w.chain.accounts - {account}
            && w'.state.msolSupply == w'.chain.msolMinted == w.chain.msolMinted + fee
  {
    var w1 := UpdateDeactivatedCore(w, i, account, j, treasury).value;
    var source := w.chain.accounts[account];
    UpdateDeactivatedControl(w, i, account, j, treasury, w');
    UpdateDeactivatedCollects(w, i, account, j, treasury, w1);
    var s1, s2, s3 := UpdateDeactivatedStages(w, i, account, j, treasury, w1);
    part, fee := FeeOnGrowthBuys(s2, w.state.ledger.stakes[i].lamports, source.lamports - source.rent, treasury, s3);
    PaysOut(w, i, account, j, treasury, w1);
  }

  lemma PaysOut(w: World, i: nat, account: Key, j: nat, treasury: bool, w': World)
    requires UpdateDeactivatedCore(w, i, account, j, treasury) == Some(w')
    ensures account in w.chain.accounts && w.chain.accounts[account].rent <= w.chain.accounts[account].lamports
    ensures w'.chain.reserveLamports
            == w.chain.reserveLamports + (w.chain.accounts[account].lamports - w.chain.accounts[account].rent)
  {
  }
}
