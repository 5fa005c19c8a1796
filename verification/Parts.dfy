/** What the larger instructions come down to: their guards, and the one transition they end in. */
module Parts {
  import opened Base
  import opened Calc
  import opened Model
  import opened Instructions
  import L = LedgerOps

  // ---------- stake_reserve ----------

  /** Nothing but perhaps an extra run used up, or a stake account of `amount` as well. */
  lemma StakeReserveDelegates(w: World, j: nat, vote: Key, account: Key, w': World) returns (w1: World, amount: nat)
    requires StakeReserve(w, j, vote, account) == Some(w')
    ensures w1.chain == w.chain && w1.state == w.state.(extraRuns := w1.state.extraRuns)
    ensures w' == w1
            || (&& j < |w.state.ledger.validators| && w.state.ledger.validators[j].vote == vote
                && w.state.ledger.upgrader.Done? && account !in w.chain.accounts
                && amount >= w.state.cfg.minStake
                && DelegateReserve(w1, j, vote, account, amount) == Some(w'))
  {
    w1, amount := w', 0;
    if |w'.state.ledger.stakes| != |w.state.ledger.stakes| {
      w1 := w.(state := w.state.(extraRuns := w'.state.extraRuns));
      amount := w'.state.ledger.totalActive - w.state.ledger.totalActive;
    }
  }

  // ---------- the unstaking instructions ----------

  /** Record `i` is Active, up to date and delegated to validator `j`, outside of any migration. */
  predicate Unstakable(w: World, i: nat, account: Key, j: nat) {
    && w.state.ledger.upgrader.Done? && i < |w.state.ledger.stakes| && j < |w.state.ledger.validators|
    && w.state.ledger.stakes[i].account == account
    && w.state.ledger.stakes[i].status.Active? && !w.state.ledger.stakes[i].emergency
    && UpToDate(w.chain.accounts, account, w.state.ledger.stakes[i].lamports, w.state.ledger.validators[j].vote)
  }

  /** A stake-delta action marks its epoch. */
  function Marked(w: World): World {
    w.(state := w.state.(lastStakeDeltaEpoch := w.chain.clock.epoch))
  }

  lemma DeactivateStakeExcess(w: World, i: nat, account: Key, j: nat, splitAccount: Key, w': World)
    returns (rest: nat, delta: nat)
    requires DeactivateStake(w, i, account, j, splitAccount) == Some(w')
    ensures w' == w
            || (&& Unstakable(w, i, account, j) && splitAccount !in w.chain.accounts
                && UnstakeExcess(w, i, account, j, splitAccount, rest, delta) == Some(w'))
  {
    rest, delta := 0, 0;
    if w' != w {
      delta := -StakeDelta(w.state, w.chain.reserveLamports);
      var v := w.state.ledger.validators[j];
      var target := StakeTarget(w.state.ledger, v, SaturatingSub(w.state.ledger.totalActive, delta)).value;
      rest := AccountTarget(w.state.ledger.stakes[i].lamports, v.balance - target, delta);
    }
  }

  lemma UnstakeExcessCools(w: World, i: nat, account: Key, j: nat, splitAccount: Key, rest: nat, delta: nat, w': World)
    returns (amount: nat)
    requires i < |w.state.ledger.stakes| && j < |w.state.ledger.validators|
    requires UnstakeExcess(w, i, account, j, splitAccount, rest, delta) == Some(w')
    ensures w' == w || CoolWhole(Marked(w), i, account, j, false) == Some(w')
            || (&& amount <= w.state.ledger.stakes[i].lamports
                && w.state.ledger.stakes[i].lamports - amount >= 2 * w.state.cfg.minStake
                && w.state.ledger.validators[j].lastDeltaEpoch != w.chain.clock.epoch
                && CoolPart(Marked(w), i, account, j, amount, splitAccount, false, w.chain.clock.epoch) == Some(w'))
  {
    amount := SaturatingSub(w.state.ledger.stakes[i].lamports, rest);
  }

  /** deactivate_stake: nothing, the whole record, or a part that leaves two minimum stakes. */
  lemma DeactivateStakeCools(w: World, i: nat, account: Key, j: nat, splitAccount: Key, w': World) returns (amount: nat)
    requires DeactivateStake(w, i, account, j, splitAccount) == Some(w')
    ensures w' != w ==> Unstakable(w, i, account, j) && splitAccount !in w.chain.accounts
    ensures w' == w || CoolWhole(Marked(w), i, account, j, false) == Some(w')
            || (&& amount <= w.state.ledger.stakes[i].lamports
                && w.state.ledger.stakes[i].lamports - amount >= 2 * w.state.cfg.minStake
                && w.state.ledger.validators[j].lastDeltaEpoch != w.chain.clock.epoch
                && CoolPart(Marked(w), i, account, j, amount, splitAccount, false, w.chain.clock.epoch) == Some(w'))
  {
    var rest, delta := DeactivateStakeExcess(w, i, account, j, splitAccount, w');
    amount := 0;
    if w' != w {
      amount := UnstakeExcessCools(w, i, account, j, splitAccount, rest, delta, w');
    }
  }

  lemma PartialUnstakeMovesOut(w: World, i: nat, account: Key, j: nat, desired: nat, splitAccount: Key, w': World)
    returns (amount: nat)
    requires PartialUnstake(w, i, account, j, desired, splitAccount) == Some(w')
    ensures w' == w
            || (&& Unstakable(w, i, account, j) && splitAccount !in w.chain.accounts
                && MoveOut(w, i, account, j, amount, splitAccount) == Some(w'))
  {
    amount := 0;
    if w' != w {
      var v := w.state.ledger.validators[j];
      var totalTarget := w.state.ledger.totalActive + StakeDelta(w.state, w.chain.reserveLamports);
      amount := Min(desired, v.balance - StakeTarget(w.state.ledger, v, totalTarget).value);
    }
  }

  lemma MoveOutCools(w: World, i: nat, account: Key, j: nat, amount: nat, splitAccount: Key, w': World)
    returns (w1: World, moved: nat)
    requires i < |w.state.ledger.stakes| && j < |w.state.ledger.validators|
    requires MoveOut(w, i, account, j, amount, splitAccount) == Some(w')
    ensures w1.chain == w.chain && StakeMoved(w.state, moved, w.chain.clock.epoch) == Some(w1.state)
    ensures w1.state == w.state.(lastMoveEpoch := w1.state.lastMoveEpoch, stakeMoved := w1.state.stakeMoved)
    ensures (moved == w.state.ledger.stakes[i].lamports && CoolWhole(w1, i, account, j, true) == Some(w'))
            || (&& moved <= w.state.ledger.stakes[i].lamports
                && w.state.ledger.stakes[i].lamports - moved >= w.state.cfg.minStake
                && CoolPart(w1, i, account, j, moved, splitAccount, true, w.state.ledger.validators[j].lastDeltaEpoch)
                   == Some(w'))
  {
    var lamports := w.state.ledger.stakes[i].lamports;
    moved := if SaturatingSub(lamports, amount) < w.state.cfg.minStake then lamports else amount;
    w1 := w.(state := StakeMoved(w.state, moved, w.chain.clock.epoch).value);
    if moved == lamports && CoolWhole(w1, i, account, j, true) != Some(w') {
      assert w.state.cfg.minStake == 0;
    }
  }

  /** partial_unstake: nothing, the whole record, or a part that leaves a minimum stake. */
  lemma PartialUnstakeCools(w: World, i: nat, account: Key, j: nat, desired: nat, splitAccount: Key, w': World)
    returns (w1: World, moved: nat)
    requires PartialUnstake(w, i, account, j, desired, splitAccount) == Some(w') && w' != w
    ensures Unstakable(w, i, account, j) && splitAccount !in w.chain.accounts
    ensures w1.chain == w.chain && StakeMoved(w.state, moved, w.chain.clock.epoch) == Some(w1.state)
    ensures w1.state == w.state.(lastMoveEpoch := w1.state.lastMoveEpoch, stakeMoved := w1.state.stakeMoved)
    ensures (moved == w.state.ledger.stakes[i].lamports && CoolWhole(w1, i, account, j, true) == Some(w'))
            || (&& moved <= w.state.ledger.stakes[i].lamports
                && w.state.ledger.stakes[i].lamports - moved >= w.state.cfg.minStake
                && CoolPart(w1, i, account, j, moved, splitAccount, true, w.state.ledger.validators[j].lastDeltaEpoch)
                   == Some(w'))
  {
    var amount := PartialUnstakeMovesOut(w, i, account, j, desired, splitAccount, w');
    w1, moved := MoveOutCools(w, i, account, j, amount, splitAccount, w');
  }

  // ---------- withdraw_stake_account ----------

  /** The split given to the user and the mSOL burnt for it. */
  lemma WithdrawSplits(w: World, i: nat, account: Key, j: nat, msol: nat, treasury: bool, splitAccount: Key, w': World)
    returns (split: nat, burned: nat)
    requires WithdrawStakeAccount(w, i, account, j, msol, treasury, splitAccount) == Some(w')
    ensures Unstakable(w, i, account, j) && !w.chain.accounts[account].delegation.value.deactivating
    ensures burned <= msol && w.chain.msolLeg + msol <= w.chain.msolMinted
    ensures w.state.cfg.minStake <= split <= w.state.ledger.stakes[i].lamports
    ensures w.state.ledger.stakes[i].lamports - split >= w.state.cfg.minStake
    ensures SplitForUser(w, i, account, j, split, burned, splitAccount) == Some(w')
  {
    var value := MsolToSol(w.state, msol).value;
    split := value - ApplyFeeCents(w.state.cfg.withdrawStakeFee, value);
    burned := if treasury then Min(MsolFromLamports(w.state, split).value, msol) else msol;
  }

  // ---------- update_active ----------

  /** update_active resyncs, recognizes the record and settles it. */
  lemma UpdateActiveSettles(w: World, i: nat, account: Key, j: nat, treasury: bool, w': World)
    returns (s1: State, l1: Ledger)
    requires UpdateActiveBody(w, i, account, j, treasury) == Some(w')
    ensures i < |w.state.ledger.stakes| && j < |w.state.ledger.validators|
    ensures account in w.chain.accounts && w.chain.accounts[account].delegation.Some?
    ensures Resync(w.state, w.chain) == Some(s1) && L.Recognize(w.state.ledger, i, j) == Some(l1)
    ensures |l1.stakes| == |w.state.ledger.stakes| && |l1.validators| == |w.state.ledger.validators|
    ensures SettleActive(World(s1.(ledger := l1), w.chain), i, account, j, w.state.ledger.stakes[i].lamports, treasury)
            == Some(w')
  {
    s1 := Resync(w.state, w.chain).value;
    l1 := L.Recognize(w.state.ledger, i, j).value;
  }

  /** Settling credits the extra lamports, then follows the delegation. */
  lemma SettleActiveStages(w: World, i: nat, account: Key, j: nat, last: nat, treasury: bool, w': World)
    returns (s2: State, s3: State, extra: nat)
    requires i < |w.state.ledger.stakes| && j < |w.state.ledger.validators|
    requires account in w.chain.accounts && w.chain.accounts[account].delegation.Some?
    requires SettleActive(w, i, account, j, last, treasury) == Some(w')
    ensures CreditExtra(w.state, extra, treasury) == Some(s2)
    ensures var stake := w.chain.accounts[account].delegation.value.stake;
            && FeeOnGrowth(s2, last, stake, treasury) == Some(s3)
            && L.Observe(w.state.ledger, i, j, stake, w.chain.clock.epoch) == Some(w'.state.ledger)
    ensures w'.state == s3.(ledger := w'.state.ledger, msolPrice := w'.state.msolPrice)
  {
    var source := w.chain.accounts[account];
    extra := SaturatingSub(source.lamports - source.rent, source.delegation.value.stake);
    s2 := CreditExtra(w.state, extra, treasury).value;
    s3 := FeeOnGrowth(s2, last, source.delegation.value.stake, treasury).value;
  }

  lemma SettleActiveFrame(w: World, i: nat, account: Key, j: nat, last: nat, treasury: bool, w': World)
    requires i < |w.state.ledger.stakes| && j < |w.state.ledger.validators|
    requires account in w.chain.accounts && w.chain.accounts[account].delegation.Some?
    requires SettleActive(w, i, account, j, last, treasury) == Some(w')
    ensures w'.state == w.state.(reserve := w'.state.reserve, msolSupply := w'.state.msolSupply,
    msolPrice := w'.state.msolPrice, ledger := w'.state.ledger)
    ensures w'.chain == w.chain.(reserveLamports := w'.chain.reserveLamports, msolMinted := w'.state.msolSupply,
    accounts := w'.chain.accounts)
  {
  }

  /** update_active touches the reserve, the supply, the price, the staking cap and the ledger, and on
      the chain the reserve, the mint and the stake account. */
  lemma UpdateActiveFrame(w: World, i: nat, account: Key, j: nat, treasury: bool, w': World)
    requires UpdateActive(w, i, account, j, treasury) == Some(w')
    ensures w'.state == w.state.(reserve := w'.state.reserve, msolSupply := w'.state.msolSupply,
    msolPrice := w'.state.msolPrice, stakingCap := w'.state.stakingCap, ledger := w'.state.ledger)
    ensures w'.chain == w.chain.(reserveLamports := w'.chain.reserveLamports, msolMinted := w'.state.msolSupply,
    accounts := w'.chain.accounts)
    ensures w'.state.stakingCap == if w.chain.msolMinted > w.state.msolSupply then 0 else w.state.stakingCap
  {
    var w1 := UpdateActiveCore(w, i, account, j, treasury).value;
    var s1 := Resync(w.state, w.chain).value;
    var l1 := L.Recognize(w.state.ledger, i, j).value;
    SettleActiveFrame(World(s1.(ledger := l1), w.chain), i, account, j, w.state.ledger.stakes[i].lamports, treasury, w1);
  }

  // ---------- update_deactivated ----------

  /** Settling pays the account out, draws the record from the cooling totals, and drops it. */
  lemma SettleDeactivatedFrame(w: World, i: nat, account: Key, treasury: bool, w': World) returns (l1: Ledger)
    requires i < |w.state.ledger.stakes| && account in w.chain.accounts
    requires SettleDeactivated(w, i, account, treasury) == Some(w')
    ensures L.Draw(w.state.ledger, w.state.ledger.stakes[i].lamports, w.state.ledger.stakes[i].emergency) == Some(l1)
    ensures l1.stakes == w.state.ledger.stakes
    ensures w'.state.ledger == l1.(stakes := SwapRemove(l1.stakes, i))
    ensures w'.state == w.state.(reserve := w'.state.reserve, msolSupply := w'.state.msolSupply,
    msolPrice := w'.state.msolPrice, ledger := w'.state.ledger)
    ensures w'.chain == w.chain.(reserveLamports := w'.chain.reserveLamports, msolMinted := w'.state.msolSupply,
    accounts := w.chain.accounts - {account})
  {
    l1 := L.Draw(w.state.ledger, w.state.ledger.stakes[i].lamports, w.state.ledger.stakes[i].emergency).value;
  }

  /** update_deactivated collects a record whose account is deactivated, and closes the account. */
  lemma UpdateDeactivatedCollects(w: World, i: nat, account: Key, j: nat, treasury: bool, w': World)
    requires UpdateDeactivatedCore(w, i, account, j, treasury) == Some(w')
    ensures i < |w.state.ledger.stakes| && j < |w.state.ledger.validators| && w.state.ledger.stakes[i].account == account
    ensures account in w.chain.accounts && w.chain.accounts[account].delegation.Some?
    ensures var d := w.chain.accounts[account].delegation.value;
            d.voter == w.state.ledger.validators[j].vote && d.deactivating
    ensures L.Collect(w.state.ledger, i, j) == Some(w'.state.ledger)
    ensures w'.chain == w.chain.(reserveLamports := w'.chain.reserveLamports, msolMinted := w'.state.msolSupply,
    accounts := w.chain.accounts - {account})
    ensures w'.state == w.state.(reserve := w'.state.reserve, msolSupply := w'.state.msolSupply,
    msolPrice := w'.state.msolPrice, stakingCap := w'.state.stakingCap, ledger := w'.state.ledger)
  {
    var s1 := Resync(w.state, w.chain).value;
    var l1 := L.Reclassify(w.state.ledger, i, j).value;
    assert |l1.stakes| == |w.state.ledger.stakes|;
    var l2 := SettleDeactivatedFrame(World(s1.(ledger := l1), w.chain), i, account, treasury, w');
  }
}
