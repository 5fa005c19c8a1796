/** The ledger invariant over whole runs, and what it says about the migration. */
module LedgerRuns {
  import opened Base
  import opened Model
  import opened Instructions
  import opened Parts
  import opened Totals
  import opened Soundness
  import opened Migration
  import opened LedgerSafety
  import opened Runs
  import L = LedgerOps

  /** update_deactivated is not called where it would break an unfinished migration. */
  predicate Allowed(w: World, step: Step) {
    step.DoUpdateDeactivated? ==> MayCollect(w, step.i, step.j)
  }

  ghost predicate AllowedRun(w: World, steps: seq<Step>)
    decreases |steps|
  {
    steps == [] || (Allowed(w, steps[0]) && AllowedRun(Next(w, steps[0]), steps[1..]))
  }

  lemma ElsewhereOk(w: World, after: Chain)
    requires WorldOk(w) && Permitted(w.chain, after)
    ensures WorldOk(World(w.state, after))
  {
    var l, a := w.state.ledger, w.chain.accounts;
    forall m | 0 <= m < |l.stakes| ensures Evolves(a, after.accounts, l.stakes[m].account) {
      assert RecordOk(a, l.stakes[m]);
      assert StillOurs(a, after.accounts, l.stakes[m].account);
    }
    EvolveSound(l, a, after.accounts);
  }

  /** Instructions that leave the ledger, the stake accounts and the flags alone. */
  predicate LeavesLedger(step: Step) {
    step.DoDeposit? || step.DoOrderUnstake? || step.DoClaim? || step.DoLiquidUnstake?
    || step.DoAddLiquidity? || step.DoRemoveLiquidity? || step.Configure?
  }

  lemma LedgerUntouched(w: World, step: Step, w': World)
    requires Instruction(w, step) == Some(w') && LeavesLedger(step)
    ensures w'.state.ledger == w.state.ledger && w'.chain.accounts == w.chain.accounts && w'.chain.flags == w.chain.flags
  {
  }

  lemma InstructionOk(w: World, step: Step, w': World)
    requires WorldOk(w) && Allowed(w, step) && Instruction(w, step) == Some(w')
    ensures WorldOk(w')
  {
    match step {
      case DoDepositStakeAccount(account, j) => DepositStakeAccountOk(w, account, j, w');
      case DoWithdrawStakeAccount(i, account, j, msol, treasury, split) =>
        WithdrawStakeAccountOk(w, i, account, j, msol, treasury, split, w');
      case DoStakeReserve(j, vote, account) => StakeReserveOk(w, j, vote, account, w');
      case DoDeactivateStake(i, account, j, split) => DeactivateStakeOk(w, i, account, j, split, w');
      case DoEmergencyUnstake(i, account, j) => EmergencyUnstakeOk(w, i, account, j, w');
      case DoPartialUnstake(i, account, j, desired, split) => PartialUnstakeOk(w, i, account, j, desired, split, w');
      case DoMergeStakes(dst, dstAccount, src, srcAccount, j, merged) =>
        MergeStakesOk(w, dst, dstAccount, src, srcAccount, j, merged, w');
      case DoCreateCanonicalStake(i, account, j) => CreateCanonicalStakeOk(w, i, account, j, w');
      case DoUpdateActive(i, account, j, treasury) => UpdateActiveOk(w, i, account, j, treasury);
      case DoUpdateDeactivated(i, account, j, treasury) => UpdateDeactivatedOk(w, i, account, j, treasury);
      case DoFinalizeUpgrade(max) => FinalizeUpgradeOk(w, max, w');
      case DoAddValidator(vote, score) => AddValidatorOk(w, vote, score, w');
      case DoRemoveValidator(j, vote) => RemoveValidatorOk(w, j, vote, w');
      case DoSetValidatorScore(j, vote, score) => SetValidatorScoreOk(w, j, vote, score, w');
      case _ => LedgerUntouched(w, step, w');
    }
  }

  lemma NextOk(w: World, step: Step)
    requires WorldOk(w) && Allowed(w, step)
    ensures WorldOk(Next(w, step))
  {
    if step.Elsewhere? {
      if Permitted(w.chain, step.after) {
        ElsewhereOk(w, step.after);
      }
    } else if Instruction(w, step).Some? {
      InstructionOk(w, step, Instruction(w, step).value);
    }
  }

  /** Every run that is allowed keeps the ledger invariant, through both phases of the migration. */
  lemma {:induction false} RunOk(w: World, steps: seq<Step>)
    requires WorldOk(w) && AllowedRun(w, steps)
    ensures WorldOk(Run(w, steps))
    decreases |steps|
  {
    if steps != [] {
      NextOk(w, steps[0]);
      RunOk(Next(w, steps[0]), steps[1..]);
    }
  }

  /** Instructions that refuse to run before the migration is done. */
  predicate NeedsDone(step: Step) {
    step.DoWithdrawStakeAccount? || step.DoStakeReserve? || step.DoDeactivateStake? || step.DoEmergencyUnstake?
    || step.DoPartialUnstake? || step.DoMergeStakes? || step.DoCreateCanonicalStake? || step.DoAddValidator?
    || step.DoRemoveValidator?
  }

  lemma StakeReserveStaysDone(w: World, j: nat, vote: Key, account: Key, w': World)
    requires StakeReserve(w, j, vote, account) == Some(w')
    ensures w.state.ledger.upgrader.Done? && w'.state.ledger.upgrader.Done?
  {
    var w1, amount := StakeReserveDelegates(w, j, vote, account, w');
  }

  lemma DeactivateStakeStaysDone(w: World, i: nat, account: Key, j: nat, splitAccount: Key, w': World)
    requires DeactivateStake(w, i, account, j, splitAccount) == Some(w')
    ensures w.state.ledger.upgrader.Done? && w'.state.ledger.upgrader.Done?
  {
    var amount := DeactivateStakeCools(w, i, account, j, splitAccount, w');
  }

  lemma PartialUnstakeStaysDone(w: World, i: nat, account: Key, j: nat, desired: nat, splitAccount: Key, w': World)
    requires PartialUnstake(w, i, account, j, desired, splitAccount) == Some(w')
    ensures w.state.ledger.upgrader.Done? && w'.state.ledger.upgrader.Done?
  {
    if w' != w {
      var w1, moved := PartialUnstakeCools(w, i, account, j, desired, splitAccount, w');
    }
  }

  lemma NeedsDoneStays(w: World, step: Step, w': World)
    requires NeedsDone(step) && Instruction(w, step) == Some(w')
    ensures w.state.ledger.upgrader.Done? && w'.state.ledger.upgrader.Done?
  {
    match step {
      case DoStakeReserve(j, vote, account) => StakeReserveStaysDone(w, j, vote, account, w');
      case DoDeactivateStake(i, account, j, split) => DeactivateStakeStaysDone(w, i, account, j, split, w');
      case DoPartialUnstake(i, account, j, desired, split) =>
        PartialUnstakeStaysDone(w, i, account, j, desired, split, w');
      case _ =>
    }
  }

  lemma VisitStaysDone(l: Ledger, l1: Ledger, l2: Ledger, i: nat, j: nat, stake: nat, epoch: nat)
    requires l.upgrader.Done? && i < |l.stakes| && j < |l.validators|
    requires L.Recognize(l, i, j) == Some(l1) && L.Observe(l1, i, j, stake, epoch) == Some(l2)
    ensures l2.upgrader.Done?
  {
  }

  lemma UpdateActiveStaysDone(w: World, i: nat, account: Key, j: nat, treasury: bool, w': World)
    requires w.state.ledger.upgrader.Done? && UpdateActive(w, i, account, j, treasury) == Some(w')
    ensures w'.state.ledger.upgrader.Done?
  {
    var w1 := UpdateActiveCore(w, i, account, j, treasury).value;
    var l1 := UpdateActiveCoreLedger(w, i, account, j, treasury, w1);
    VisitStaysDone(w.state.ledger, l1, w1.state.ledger, i, j, w.chain.accounts[account].delegation.value.stake,
                   w.chain.clock.epoch);
  }

  lemma UpdateDeactivatedStaysDone(w: World, i: nat, account: Key, j: nat, treasury: bool, w': World)
    requires w.state.ledger.upgrader.Done? && UpdateDeactivated(w, i, account, j, treasury) == Some(w')
    ensures w'.state.ledger.upgrader.Done?
  {
  }

  lemma UpdatesStayDone(w: World, step: Step, w': World)
    requires w.state.ledger.upgrader.Done? && !NeedsDone(step) && !LeavesLedger(step)
    requires Instruction(w, step) == Some(w')
    ensures w'.state.ledger.upgrader.Done?
  {
    if step.DoUpdateActive? {
      UpdateActiveStaysDone(w, step.i, step.account, step.j, step.treasury, w');
    } else if step.DoUpdateDeactivated? {
      UpdateDeactivatedStaysDone(w, step.i, step.account, step.j, step.treasury, w');
    }
  }

  /** Once done, the migration stays done. */
  lemma DoneStays(w: World, step: Step)
    requires w.state.ledger.upgrader.Done?
    ensures Next(w, step).state.ledger.upgrader.Done?
  {
    if !step.Elsewhere? && Instruction(w, step).Some? {
      var w' := Instruction(w, step).value;
      if NeedsDone(step) {
        NeedsDoneStays(w, step, w');
      } else if LeavesLedger(step) {
        LedgerUntouched(w, step, w');
      } else {
        UpdatesStayDone(w, step, w');
      }
    }
  }

  lemma {:induction false} DoneRunIsAllowed(w: World, steps: seq<Step>)
    requires w.state.ledger.upgrader.Done?
    ensures AllowedRun(w, steps) && Run(w, steps).state.ledger.upgrader.Done?
    decreases |steps|
  {
    if steps != [] {
      DoneStays(w, steps[0]);
      DoneRunIsAllowed(Next(w, steps[0]), steps[1..]);
    }
  }

  /** From initialize on, on every run whatsoever, all totals are the sums they stand for. */
  lemma LedgerAlwaysHolds(w: World, steps: seq<Step>)
    requires Initialized(w)
    ensures WorldOk(Run(w, steps)) && Settled(Run(w, steps).state.ledger, Run(w, steps).chain.accounts)
  {
    assert WorldOk(w);
    DoneRunIsAllowed(w, steps);
    RunOk(w, steps);
  }
}
