/** Under the ledger invariant no subtraction from a total, a validator balance or a cooling bucket
    underflows: instructions fail for the reasons they check, and for no other. */
module Totality {
  import opened Base
  import opened Calc
  import opened Model
  import opened Instructions
  import opened Totals
  import opened Soundness
  import opened Migration
  import opened LedgerSafety
  import opened Scheduler
  import L = LedgerOps

  /** Part of an Active record can be deducted from its validator and from the total. */
  lemma DeductTotal(l: Ledger, a: Accounts, i: nat, j: nat, amount: nat)
    requires Sound(l, a) && l.upgrader.Done?
    requires i < |l.stakes| && j < |l.validators|
    requires l.stakes[i].status.Active? && amount <= l.stakes[i].lamports
    requires Voter(a, l.stakes[i].account) == Some(l.validators[j].vote)
    ensures L.Deduct(l, j, amount).Some?
  {
    WeightInTotal(ActiveStake, a, l.stakes, i);
    WeightInTotal(ActiveFor(l.validators[j].vote), a, l.stakes, i);
  }

  lemma RetireTotal(l: Ledger, a: Accounts, i: nat, j: nat, emergency: bool)
    requires Sound(l, a) && l.upgrader.Done?
    requires l.totalActive + l.delayedCooling + l.emergencyCooling <= U64_MAX
    requires i < |l.stakes| && j < |l.validators| && l.stakes[i].status.Active?
    requires Voter(a, l.stakes[i].account) == Some(l.validators[j].vote)
    ensures L.Retire(l, i, j, emergency).Some?
  {
    DeductTotal(l, a, i, j, l.stakes[i].lamports);
  }

  lemma SplitOffTotal(l: Ledger, a: Accounts, i: nat, j: nat, amount: nat, account: Key, epoch: nat,
                      emergency: bool, deltaEpoch: nat)
    requires Sound(l, a) && l.upgrader.Done?
    requires l.totalActive + l.delayedCooling + l.emergencyCooling <= U64_MAX
    requires i < |l.stakes| && j < |l.validators|
    requires l.stakes[i].status.Active? && amount <= l.stakes[i].lamports
    requires Voter(a, l.stakes[i].account) == Some(l.validators[j].vote)
    ensures L.SplitOff(l, i, j, amount, account, epoch, emergency, deltaEpoch).Some?
  {
    DeductTotal(l, a, i, j, amount);
  }

  /** The stake account of record `i` is not deactivated and holds what it delegates. */
  predicate Healthy(w: World, i: nat) {
    i < |w.state.ledger.stakes| &&
    var a, account := w.chain.accounts, w.state.ledger.stakes[i].account;
    account in a && a[account].delegation.Some? && !a[account].delegation.value.deactivating
    && a[account].lamports >= a[account].delegation.value.stake
  }

  lemma UpToDateVoter(w: World, i: nat, j: nat)
    requires i < |w.state.ledger.stakes| && j < |w.state.ledger.validators|
    requires UpToDate(w.chain.accounts, w.state.ledger.stakes[i].account, w.state.ledger.stakes[i].lamports,
                      w.state.ledger.validators[j].vote)
    ensures Voter(w.chain.accounts, w.state.ledger.stakes[i].account) == Some(w.state.ledger.validators[j].vote)
  {
  }

  /** deactivate_stake succeeds exactly when its `require!`s hold: its inline assertion never fires
      and none of its arithmetic can fail. */
  lemma DeactivateStakeTotal(w: World, i: nat, j: nat, splitAccount: Key)
    requires WorldOk(w) && ControlFits(w.state) && w.state.ticketBalance <= U64_MAX
    requires 0 < w.state.cfg.minStake && 2 * w.state.cfg.minStake <= U64_MAX
    requires Healthy(w, i) && j < |w.state.ledger.validators|
    requires splitAccount !in w.chain.accounts && |w.state.ledger.stakes| < w.chain.stakeCapacity
    ensures var s, c := w.state, w.chain; var r := s.ledger.stakes[i];
            DeactivateStake(w, i, r.account, j, splitAccount).Some?
            <==> && !s.cfg.paused && s.ledger.upgrader.Done? && r.status.Active? && InDeltaWindow(s, c.clock)
                 && StakeDelta(s, c.reserveLamports) < 0
                 && UpToDate(c.accounts, r.account, r.lamports, s.ledger.validators[j].vote)
  {
    var s, c := w.state, w.chain;
    var l, r := s.ledger, s.ledger.stakes[i];
    assert RecordOk(c.accounts, r);
    var delta := StakeDelta(s, c.reserveLamports);
    if l.upgrader.Done? && r.status.Active? && delta < 0
       && UpToDate(c.accounts, r.account, r.lamports, l.validators[j].vote) {
      var totalTarget := SaturatingSub(l.totalActive, -delta);
      TargetIsTotal(l, j, totalTarget);
      UpToDateVoter(w, i, j);
      RetireTotal(l, c.accounts, i, j, false);
      var target := StakeTarget(l, l.validators[j], totalTarget).value;
      if l.validators[j].balance > target {
        var amount := r.lamports - AccountTarget(r.lamports, l.validators[j].balance - target, -delta);
        SplitOffTotal(l, c.accounts, i, j, amount, splitAccount, c.clock.epoch, false, c.clock.epoch);
      }
    }
  }

  /** emergency_unstake succeeds exactly when its checks hold, the movement cap among them. */
  lemma EmergencyUnstakeTotal(w: World, i: nat, j: nat)
    requires WorldOk(w) && ControlFits(w.state)
    requires Healthy(w, i) && j < |w.state.ledger.validators|
    ensures var s, c := w.state, w.chain; var r := s.ledger.stakes[i];
            EmergencyUnstake(w, i, r.account, j).Some?
            <==> && !s.cfg.paused && s.ledger.upgrader.Done? && r.status.Active? && s.ledger.validators[j].score == 0
                 && UpToDate(c.accounts, r.account, r.lamports, s.ledger.validators[j].vote)
                 && StakeMoved(s, r.lamports, c.clock.epoch).Some?
  {
    var s, c := w.state, w.chain;
    var l, r := s.ledger, s.ledger.stakes[i];
    assert RecordOk(c.accounts, r);
    if l.upgrader.Done? && r.status.Active? && UpToDate(c.accounts, r.account, r.lamports, l.validators[j].vote) {
      UpToDateVoter(w, i, j);
      RetireTotal(l, c.accounts, i, j, true);
    }
  }

  /** What partial_unstake moves of a record that should lose `amount`. */
  function Moved(lamports: nat, amount: nat, minStake: nat): nat {
    if SaturatingSub(lamports, amount) < minStake then lamports else amount
  }

  /** The checks of partial_unstake that come before any arithmetic. */
  predicate PartialUnstakeGuards(w: World, i: nat, j: nat, desired: nat)
    requires i < |w.state.ledger.stakes| && j < |w.state.ledger.validators|
  {
    var s, c := w.state, w.chain;
    var r := s.ledger.stakes[i];
    && !s.cfg.paused && s.ledger.upgrader.Done? && r.status.Active? && desired >= s.cfg.minStake
    && UpToDate(c.accounts, r.account, r.lamports, s.ledger.validators[j].vote)
  }

  /** partial_unstake past those checks, once the target of the validator is known. */
  lemma PartialUnstakeWithTarget(w: World, i: nat, j: nat, desired: nat, splitAccount: Key, target: nat)
    requires i < |w.state.ledger.stakes| && j < |w.state.ledger.validators|
    requires PartialUnstakeGuards(w, i, j, desired) && !w.state.ledger.stakes[i].emergency
    requires splitAccount !in w.chain.accounts
    requires 0 <= w.state.ledger.totalActive + StakeDelta(w.state, w.chain.reserveLamports) <= U64_MAX
    requires StakeTarget(w.state.ledger, w.state.ledger.validators[j],
                         w.state.ledger.totalActive + StakeDelta(w.state, w.chain.reserveLamports)) == Some(target)
    requires target + w.state.cfg.minStake <= U64_MAX
    ensures PartialUnstake(w, i, w.state.ledger.stakes[i].account, j, desired, splitAccount)
            == var balance := w.state.ledger.validators[j].balance;
               if balance <= target + w.state.cfg.minStake then Some(w)
               else MoveOut(w, i, w.state.ledger.stakes[i].account, j, Min(desired, balance - target), splitAccount)
  {
  }

  lemma PartialUnstakeNeedsGuards(w: World, i: nat, j: nat, desired: nat, splitAccount: Key)
    requires i < |w.state.ledger.stakes| && j < |w.state.ledger.validators|
    requires PartialUnstake(w, i, w.state.ledger.stakes[i].account, j, desired, splitAccount).Some?
    ensures PartialUnstakeGuards(w, i, j, desired)
    ensures w.state.ledger.totalActive + StakeDelta(w.state, w.chain.reserveLamports) >= 0
  {
  }

  /** The validator is on target, or what would be moved is within the cap. */
  predicate WithinMovementCap(w: World, i: nat, j: nat, desired: nat, target: nat)
    requires i < |w.state.ledger.stakes| && j < |w.state.ledger.validators|
  {
    var s, balance := w.state, w.state.ledger.validators[j].balance;
    balance <= target + s.cfg.minStake
    || StakeMoved(s, Moved(s.ledger.stakes[i].lamports, Min(desired, balance - target), s.cfg.minStake),
                  w.chain.clock.epoch).Some?
  }

  /** partial_unstake has one check that is not among its `require!`s: the unstake delta must not
      exceed the active stake, or the conversion of the total target panics. */
  lemma PartialUnstakeTotal(w: World, i: nat, j: nat, desired: nat, splitAccount: Key)
    requires WorldOk(w) && ControlFits(w.state)
    requires 0 < w.state.cfg.minStake
    requires w.state.ledger.totalActive + StakeDelta(w.state, w.chain.reserveLamports) + w.state.cfg.minStake <= U64_MAX
    requires Healthy(w, i) && j < |w.state.ledger.validators|
    requires splitAccount !in w.chain.accounts && |w.state.ledger.stakes| < w.chain.stakeCapacity
    ensures var l := w.state.ledger;
            var totalTarget := l.totalActive + StakeDelta(w.state, w.chain.reserveLamports);
            PartialUnstake(w, i, l.stakes[i].account, j, desired, splitAccount).Some?
            <==> && PartialUnstakeGuards(w, i, j, desired)
                 && totalTarget >= 0
                 && var target := StakeTarget(l, l.validators[j], totalTarget);
                 target.Some? && WithinMovementCap(w, i, j, desired, target.value)
  {
    var l, r := w.state.ledger, w.state.ledger.stakes[i];
    assert RecordOk(w.chain.accounts, r);
    var totalTarget := l.totalActive + StakeDelta(w.state, w.chain.reserveLamports);
    if PartialUnstakeGuards(w, i, j, desired) && totalTarget >= 0 {
      TargetIsTotal(l, j, totalTarget);
      var target := StakeTarget(l, l.validators[j], totalTarget).value;
      PartialUnstakeWithTarget(w, i, j, desired, splitAccount, target);
      if l.validators[j].balance > target + w.state.cfg.minStake {
        MoveOutTotal(w, i, j, Min(desired, l.validators[j].balance - target), splitAccount);
      }
    } else if PartialUnstake(w, i, r.account, j, desired, splitAccount).Some? {
      PartialUnstakeNeedsGuards(w, i, j, desired, splitAccount);
    }
  }

  /** Past the checks only the movement cap is left. */
  lemma MoveOutTotal(w: World, i: nat, j: nat, amount: nat, splitAccount: Key)
    requires WorldOk(w) && ControlFits(w.state) && w.state.ledger.upgrader.Done? && 0 < w.state.cfg.minStake
    requires Healthy(w, i) && j < |w.state.ledger.validators| && w.state.ledger.stakes[i].status.Active?
    requires UpToDate(w.chain.accounts, w.state.ledger.stakes[i].account, w.state.ledger.stakes[i].lamports,
                      w.state.ledger.validators[j].vote)
    requires splitAccount !in w.chain.accounts && |w.state.ledger.stakes| < w.chain.stakeCapacity
    ensures MoveOut(w, i, w.state.ledger.stakes[i].account, j, amount, splitAccount).Some?
            <==> StakeMoved(w.state, Moved(w.state.ledger.stakes[i].lamports, amount, w.state.cfg.minStake),
                            w.chain.clock.epoch).Some?
  {
    var l, a, r := w.state.ledger, w.chain.accounts, w.state.ledger.stakes[i];
    UpToDateVoter(w, i, j);
    RetireTotal(l, a, i, j, true);
    if amount <= r.lamports {
      SplitOffTotal(l, a, i, j, amount, splitAccount, w.chain.clock.epoch, true, l.validators[j].lastDeltaEpoch);
    }
  }

  /** The ledger part of withdraw_stake_account never fails once its checks have passed. */
  lemma WithdrawReleaseTotal(w: World, i: nat, j: nat, split: nat)
    requires WorldOk(w) && w.state.ledger.upgrader.Done?
    requires i < |w.state.ledger.stakes| && j < |w.state.ledger.validators|
    requires w.state.ledger.stakes[i].status.Active? && split <= w.state.ledger.stakes[i].lamports
    requires UpToDate(w.chain.accounts, w.state.ledger.stakes[i].account, w.state.ledger.stakes[i].lamports,
                      w.state.ledger.validators[j].vote)
    ensures L.Release(w.state.ledger, i, j, split).Some?
  {
    DeductTotal(w.state.ledger, w.chain.accounts, i, j, split);
  }

  /** The checks of withdraw_stake_account. */
  predicate WithdrawGuards(w: World, i: nat, j: nat, msol: nat)
    requires i < |w.state.ledger.stakes| && j < |w.state.ledger.validators|
  {
    var s, c := w.state, w.chain;
    var r, value := s.ledger.stakes[i], MsolToSol(s, msol);
    && !s.cfg.paused && s.cfg.withdrawStakeEnabled && s.ledger.upgrader.Done? && r.status.Active?
    && c.msolLeg + msol <= c.msolMinted
    && UpToDate(c.accounts, r.account, r.lamports, s.ledger.validators[j].vote)
    && value.Some? && value.value >= s.cfg.minWithdraw
    && var split := value.value - ApplyFeeCents(s.cfg.withdrawStakeFee, value.value);
    s.cfg.minStake <= split <= r.lamports - s.cfg.minStake
  }

  /** What the split costs always fits: it is at most the mSOL handed in. */
  lemma SplitHasCost(s: State, msol: nat, split: nat)
    requires MsolToSol(s, msol).Some? && split <= MsolToSol(s, msol).value && msol <= U64_MAX
    ensures MsolFromLamports(s, split).Some?
  {
    var v, supply := Virtual(s), s.msolSupply;
    if supply > 0 && v > 0 {
      var value := MsolToSol(s, msol).value;
      ValueIsCovered(msol, v, supply);
      MulMono(split, value, supply);
      Floor(split * supply, v);
      CancelMul(split * supply / v, msol, v);
    }
  }

  lemma SplitForUserTotal(w: World, i: nat, j: nat, split: nat, burned: nat, splitAccount: Key)
    requires WorldOk(w) && w.state.ledger.upgrader.Done? && Healthy(w, i) && j < |w.state.ledger.validators|
    requires w.state.ledger.stakes[i].status.Active? && split <= w.state.ledger.stakes[i].lamports
    requires UpToDate(w.chain.accounts, w.state.ledger.stakes[i].account, w.state.ledger.stakes[i].lamports,
                      w.state.ledger.validators[j].vote)
    requires splitAccount !in w.chain.accounts && burned <= w.chain.msolMinted <= w.state.msolSupply
    ensures SplitForUser(w, i, w.state.ledger.stakes[i].account, j, split, burned, splitAccount).Some?
  {
    WithdrawReleaseTotal(w, i, j, split);
  }

  /** withdraw_stake_account succeeds exactly when its checks hold, with a treasury or without. */
  lemma WithdrawStakeAccountTotal(w: World, i: nat, j: nat, msol: nat, treasury: bool, splitAccount: Key)
    requires WorldOk(w) && w.chain.msolMinted <= w.state.msolSupply && w.chain.msolMinted <= U64_MAX
    requires Healthy(w, i) && j < |w.state.ledger.validators| && splitAccount !in w.chain.accounts
    ensures WithdrawStakeAccount(w, i, w.state.ledger.stakes[i].account, j, msol, treasury, splitAccount).Some?
            <==> WithdrawGuards(w, i, j, msol)
  {
    var s, r := w.state, w.state.ledger.stakes[i];
    if WithdrawGuards(w, i, j, msol) {
      assert RecordOk(w.chain.accounts, r);
      var value := MsolToSol(s, msol).value;
      var split := value - ApplyFeeCents(s.cfg.withdrawStakeFee, value);
      SplitHasCost(s, msol, split);
      var atCost := if treasury then MsolFromLamports(s, split).value else msol;
      SplitForUserTotal(w, i, j, split, if atCost <= msol then atCost else msol, splitAccount);
    } else if WithdrawStakeAccount(w, i, r.account, j, msol, treasury, splitAccount).Some? {
      WithdrawNeedsGuards(w, i, j, msol, treasury, splitAccount);
    }
  }

  lemma WithdrawNeedsGuards(w: World, i: nat, j: nat, msol: nat, treasury: bool, splitAccount: Key)
    requires i < |w.state.ledger.stakes| && j < |w.state.ledger.validators|
    requires WithdrawStakeAccount(w, i, w.state.ledger.stakes[i].account, j, msol, treasury, splitAccount).Some?
    ensures WithdrawGuards(w, i, j, msol)
  {
  }
}
