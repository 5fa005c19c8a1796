/** What stake_reserve stakes, when it does, and the stake delta behind it. */
module Staking {
  import opened Base
  import opened Model
  import opened Instructions
  import opened LedgerSafety
  import opened Runs
  import opened Frames
  import opened Scheduler

  // ---------- the stake delta ----------

  /** What is at hand for the tickets: the real reserve above its rent, and what cools down for them. */
  function AtHand(w: World): nat {
    SaturatingSub(w.chain.reserveLamports, w.state.cfg.rent) + w.state.ledger.delayedCooling
  }

  /** There is something to stake exactly when more is at hand than owed, and it is the difference;
      something must be unstaked exactly when emergency cooling does not make up for what is missing
      either. Emergency cooling is never staked. */
  lemma DeltaSettlesTickets(w: World)
    ensures var delta, owed := StakeDelta(w.state, w.chain.reserveLamports), w.state.ticketBalance;
            var cooling := w.state.ledger.emergencyCooling;
            && (delta > 0 <==> AtHand(w) > owed)
            && (delta > 0 ==> delta == AtHand(w) - owed)
            && (delta < 0 <==> AtHand(w) + cooling < owed)
            && (delta < 0 ==> -delta == owed - AtHand(w) - cooling)
  {
  }

  // ---------- stake_reserve ----------

  /** The target of validator `j` once the delta is staked. */
  function TargetAfter(w: World, j: nat): Option<nat>
    requires j < |w.state.ledger.validators| && StakeDelta(w.state, w.chain.reserveLamports) >= 0
  {
    StakeTarget(w.state.ledger, w.state.ledger.validators[j],
                SaturatingAdd64(w.state.ledger.totalActive, StakeDelta(w.state, w.chain.reserveLamports)))
  }

  /** Validator `j` is below its target. */
  predicate Lacks(w: World, j: nat) {
    && j < |w.state.ledger.validators| && StakeDelta(w.state, w.chain.reserveLamports) > 0
    && TargetAfter(w, j).Some? && w.state.ledger.validators[j].balance < TargetAfter(w, j).value
  }

  /** What a validator that lacks `lacking` is given: all of it, or the whole delta when that leaves
      less than a minimum stake, or is not enough. */
  function Given(lacking: nat, delta: nat, minStake: nat): nat {
    if delta < lacking + minStake then delta else lacking
  }

  lemma StakeAmountIsGiven(balance: nat, target: nat, delta: nat, minStake: nat)
    requires balance < target
    ensures StakeAmount(balance, target, delta, minStake) == Given(target - balance, delta, minStake)
  {
  }

  /** A call that stakes fills the validator: it ends exactly at its target, or nothing is left to stake
      and it is less than a minimum stake above. */
  lemma StakeReserveFills(w: World, j: nat, vote: Key, account: Key, w': World)
    requires StakeReserve(w, j, vote, account) == Some(w') && w'.state.ledger != w.state.ledger
    requires w.chain.reserveLamports >= w.state.reserve + w.state.cfg.rent
    ensures Lacks(w, j) && |w'.state.ledger.validators| == |w.state.ledger.validators|
    ensures var target, balance := TargetAfter(w, j).value, w'.state.ledger.validators[j].balance;
            var delta, left := StakeDelta(w.state, w.chain.reserveLamports),
                               StakeDelta(w'.state, w'.chain.reserveLamports);
            && (left == 0 || balance == target)
            && (balance > target ==> balance < target + w.state.cfg.minStake)
            && balance - w.state.ledger.validators[j].balance
               == Given(target - w.state.ledger.validators[j].balance, delta, w.state.cfg.minStake)
               == delta - left
  {
    var target, amount := StakeReserveParts(w, j, vote, account, w');
    StakeAmountIsGiven(w.state.ledger.validators[j].balance, target, StakeDelta(w.state, w.chain.reserveLamports),
                       w.state.cfg.minStake);
  }

  /** What such a call leaves: an Active record and a live account of this epoch at the end of the list, both
      reserves lower by the amount, the validator served in this epoch, and an extra run gone when it had
      been served already. */
  lemma StakeReserveOpens(w: World, j: nat, vote: Key, account: Key, w': World) returns (amount: nat)
    requires StakeReserve(w, j, vote, account) == Some(w') && w'.state.ledger != w.state.ledger
    ensures j < |w.state.ledger.validators| && w.state.ledger.validators[j].vote == vote
    ensures account !in w.chain.accounts && amount <= w.state.reserve && amount <= w.chain.reserveLamports
    ensures var l, v, epoch := w.state.ledger, w.state.ledger.validators[j], w.chain.clock.epoch;
            && (v.lastDeltaEpoch == epoch ==> w.state.extraRuns > 0)
            && w'.state == w.state.(reserve := w.state.reserve - amount, lastStakeDeltaEpoch := epoch,
                                    extraRuns := if v.lastDeltaEpoch == epoch then w.state.extraRuns - 1
                                                 else w.state.extraRuns,
                                    ledger := l.(stakes := l.stakes + [StakeRecord(account, amount, epoch, false, Active)],
                                                 validators := l.validators[j := v.(balance := v.balance + amount,
                                                                                    lastDeltaEpoch := epoch)],
                                                 totalActive := l.totalActive + amount))
            && w'.chain == w.chain.(reserveLamports := w.chain.reserveLamports - amount,
                                    accounts := w.chain.accounts[account :=
                                      StakeAccount(w.chain.stakeRent + amount, w.chain.stakeRent,
                                                   Some(Delegation(vote, amount, epoch, false)), true, false)])
  {
    amount := w'.state.ledger.totalActive - w.state.ledger.totalActive;
  }

  /** Reserve, list and widths have room for a stake of `amount` with validator `j`. */
  predicate RoomFor(w: World, j: nat, amount: nat)
    requires j < |w.state.ledger.validators|
  {
    && amount <= w.chain.reserveLamports && amount <= w.state.reserve
    && |w.state.ledger.stakes| < w.chain.stakeCapacity
    && w.state.ledger.validators[j].balance + amount <= U64_MAX && w.state.ledger.totalActive + amount <= U64_MAX
  }

  /** A call stakes something exactly when: there is something to stake, the last slots of the epoch are
      reached, the validator was not served in this epoch or an extra run is left, it is below its target,
      what it would be given is no less than a minimum stake, and there is room for it. */
  lemma StakeReserveStakesIff(w: World, j: nat, vote: Key, account: Key)
    ensures (StakeReserve(w, j, vote, account).Some?
             && StakeReserve(w, j, vote, account).value.state.ledger != w.state.ledger)
            <==> && !w.state.cfg.paused && w.state.ledger.upgrader.Done? && account !in w.chain.accounts
                 && 0 < StakeDelta(w.state, w.chain.reserveLamports) <= U64_MAX
                 && w.chain.clock.slot + w.state.cfg.slotsForStakeDelta >= w.chain.clock.lastSlot
                 && Lacks(w, j) && w.state.ledger.validators[j].vote == vote
                 && (w.state.ledger.validators[j].lastDeltaEpoch != w.chain.clock.epoch || w.state.extraRuns > 0)
                 && var amount := Given(TargetAfter(w, j).value - w.state.ledger.validators[j].balance,
                                        StakeDelta(w.state, w.chain.reserveLamports), w.state.cfg.minStake);
                 && amount >= w.state.cfg.minStake && RoomFor(w, j, amount)
  {
    if Lacks(w, j) {
      StakeAmountIsGiven(w.state.ledger.validators[j].balance, TargetAfter(w, j).value,
                         StakeDelta(w.state, w.chain.reserveLamports), w.state.cfg.minStake);
    }
    if StakeReserve(w, j, vote, account).Some? {
      StakingGrows(w, j, vote, account, StakeReserve(w, j, vote, account).value);
    }
  }

  /** The call gets past its checks and its first early returns. */
  predicate MayRunPast(w: World, j: nat, vote: Key, account: Key) {
    && !w.state.cfg.paused && w.state.ledger.upgrader.Done? && account !in w.chain.accounts
    && 0 < StakeDelta(w.state, w.chain.reserveLamports) <= U64_MAX
    && j < |w.state.ledger.validators| && w.state.ledger.validators[j].vote == vote
    && (w.state.ledger.validators[j].lastDeltaEpoch != w.chain.clock.epoch || w.state.extraRuns > 0)
    && w.chain.clock.slot + w.state.cfg.slotsForStakeDelta >= w.chain.clock.lastSlot
    && TargetAfter(w, j).Some?
  }

  lemma PastEarlyReturn(w: World, j: nat, vote: Key, account: Key)
    requires MayRunPast(w, j, vote, account)
    ensures StakeReserve(w, j, vote, account).Some?
            <==> (Lacks(w, j) ==>
                    var amount := StakeAmount(w.state.ledger.validators[j].balance, TargetAfter(w, j).value,
                                              StakeDelta(w.state, w.chain.reserveLamports), w.state.cfg.minStake);
                    amount < w.state.cfg.minStake || RoomFor(w, j, amount))
  {
  }

  /** It fails exactly when it may not run at all, or when, past the early returns for a validator that was
      served, is at its target or is due too little, there is no room. */
  lemma StakeReserveSucceedsIff(w: World, j: nat, vote: Key, account: Key)
    requires WorldOk(w) && w.state.ledger.totalActive <= U64_MAX
    ensures var delta := StakeDelta(w.state, w.chain.reserveLamports);
            StakeReserve(w, j, vote, account).Some?
            <==> && !w.state.cfg.paused && w.state.ledger.upgrader.Done? && account !in w.chain.accounts
                 && (delta > 0 ==>
                       && delta <= U64_MAX && j < |w.state.ledger.validators| && w.state.ledger.validators[j].vote == vote
                       && var v := w.state.ledger.validators[j];
                       (v.lastDeltaEpoch == w.chain.clock.epoch && w.state.extraRuns == 0)
                       || (&& w.chain.clock.slot + w.state.cfg.slotsForStakeDelta >= w.chain.clock.lastSlot
                           && (Lacks(w, j) ==>
                                 var amount := Given(TargetAfter(w, j).value - v.balance, delta, w.state.cfg.minStake);
                                 amount < w.state.cfg.minStake || RoomFor(w, j, amount))))
  {
    var delta := StakeDelta(w.state, w.chain.reserveLamports);
    if 0 < delta && j < |w.state.ledger.validators| {
      TargetIsTotal(w.state.ledger, j, SaturatingAdd64(w.state.ledger.totalActive, delta));
      if Lacks(w, j) {
        StakeAmountIsGiven(w.state.ledger.validators[j].balance, TargetAfter(w, j).value, delta, w.state.cfg.minStake);
      }
      if MayRunPast(w, j, vote, account) {
        PastEarlyReturn(w, j, vote, account);
      }
    }
  }

  lemma StakingGrows(w: World, j: nat, vote: Key, account: Key, w': World)
    requires StakeReserve(w, j, vote, account) == Some(w')
    ensures w'.state.ledger == w.state.ledger || |w'.state.ledger.stakes| == |w.state.ledger.stakes| + 1
  {
  }

  // ---------- the window ----------

  /** Before the last slots of the epoch no stake-delta action changes anything. */
  lemma NothingBeforeWindow(w: World, step: Step)
    requires ActsOnStakeDelta(step)
    requires w.chain.clock.slot + w.state.cfg.slotsForStakeDelta < w.chain.clock.lastSlot
    ensures Next(w, step) == w
  {
  }
}
