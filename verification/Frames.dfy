/** What each group of instructions leaves alone. */
module Frames {
  import opened Base
  import opened Model
  import opened Instructions
  import opened Parts
  import opened Runs

  /** Settings and clock. */
  predicate SettingsStay(w: World, w': World) {
    && w'.state.cfg == w.state.cfg && w'.chain.clock == w.chain.clock
    && w'.state.pool == w.state.pool.(lpSupply := w'.state.pool.lpSupply)
  }

  predicate DeltaMarkStays(w: World, w': World) {
    w'.state.lastStakeDeltaEpoch == w.state.lastStakeDeltaEpoch
  }

  predicate MoveMarkStays(w: World, w': World) {
    w'.state.lastMoveEpoch == w.state.lastMoveEpoch && w'.state.stakeMoved == w.state.stakeMoved
  }

  predicate LegsStay(w: World, w': World) {
    w'.chain.solLeg == w.chain.solLeg && w'.chain.msolLeg == w.chain.msolLeg
  }

  predicate Tickets(step: Step) {
    step.DoOrderUnstake? || step.DoClaim?
  }

  predicate Trades(step: Step) {
    step.DoDeposit? || step.DoLiquidUnstake? || step.DoAddLiquidity? || step.DoRemoveLiquidity?
  }

  predicate ActsOnStakeDelta(step: Step) {
    step.DoStakeReserve? || step.DoDeactivateStake?
  }

  predicate MovesByManager(step: Step) {
    step.DoEmergencyUnstake? || step.DoPartialUnstake?
  }

  predicate Reshapes(step: Step) {
    step.DoDepositStakeAccount? || step.DoWithdrawStakeAccount? || step.DoMergeStakes? || step.DoCreateCanonicalStake?
  }

  predicate Lists(step: Step) {
    step.DoAddValidator? || step.DoRemoveValidator? || step.DoSetValidatorScore? || step.DoFinalizeUpgrade?
  }

  lemma TradesLeave(w: World, step: Step, w': World)
    requires Trades(step) && Instruction(w, step) == Some(w')
    ensures SettingsStay(w, w') && DeltaMarkStays(w, w') && MoveMarkStays(w, w') && w'.chain.tickets == w.chain.tickets
  {
  }

  lemma TicketsLeave(w: World, step: Step, w': World)
    requires Tickets(step) && Instruction(w, step) == Some(w')
    ensures SettingsStay(w, w') && DeltaMarkStays(w, w') && MoveMarkStays(w, w') && LegsStay(w, w')
  {
  }

  lemma ListsLeave(w: World, step: Step, w': World)
    requires Lists(step) && Instruction(w, step) == Some(w')
    ensures SettingsStay(w, w') && DeltaMarkStays(w, w') && MoveMarkStays(w, w') && LegsStay(w, w')
    ensures w'.chain.tickets == w.chain.tickets
  {
  }

  lemma ReshapingLeaves(w: World, step: Step, w': World)
    requires Reshapes(step) && Instruction(w, step) == Some(w')
    ensures SettingsStay(w, w') && DeltaMarkStays(w, w') && MoveMarkStays(w, w') && LegsStay(w, w')
    ensures w'.chain.tickets == w.chain.tickets
  {
  }

  lemma UpdateActiveLeaves(w: World, step: Step, w': World)
    requires step.DoUpdateActive? && Instruction(w, step) == Some(w')
    ensures SettingsStay(w, w') && DeltaMarkStays(w, w') && MoveMarkStays(w, w') && LegsStay(w, w')
    ensures w'.chain.tickets == w.chain.tickets
  {
    UpdateActiveFrame(w, step.i, step.account, step.j, step.treasury, w');
  }

  lemma UpdateDeactivatedLeaves(w: World, step: Step, w': World)
    requires step.DoUpdateDeactivated? && Instruction(w, step) == Some(w')
    ensures SettingsStay(w, w') && DeltaMarkStays(w, w') && MoveMarkStays(w, w') && LegsStay(w, w')
    ensures w'.chain.tickets == w.chain.tickets
  {
    var w1 := UpdateDeactivatedCore(w, step.i, step.account, step.j, step.treasury).value;
    UpdateDeactivatedCollects(w, step.i, step.account, step.j, step.treasury, w1);
  }

  lemma ManagerLeaves(w: World, step: Step, w': World)
    requires MovesByManager(step) && Instruction(w, step) == Some(w')
    ensures SettingsStay(w, w') && DeltaMarkStays(w, w') && LegsStay(w, w')
    ensures w'.chain.tickets == w.chain.tickets
  {
    if step.DoPartialUnstake? && w' != w {
      var w1, moved := PartialUnstakeCools(w, step.i, step.account, step.j, step.desired, step.splitAccount, w');
    }
  }

  lemma StakeReserveLeaves(w: World, step: Step, w': World)
    requires step.DoStakeReserve? && Instruction(w, step) == Some(w')
    ensures SettingsStay(w, w') && MoveMarkStays(w, w') && LegsStay(w, w')
    ensures w'.chain.tickets == w.chain.tickets
  {
    var w1, amount := StakeReserveDelegates(w, step.j, step.vote, step.account, w');
  }

  lemma DeactivateStakeLeaves(w: World, step: Step, w': World)
    requires step.DoDeactivateStake? && Instruction(w, step) == Some(w')
    ensures SettingsStay(w, w') && MoveMarkStays(w, w') && LegsStay(w, w')
    ensures w'.chain.tickets == w.chain.tickets
  {
    var amount := DeactivateStakeCools(w, step.i, step.account, step.j, step.splitAccount, w');
  }

  /** Only the administrators change settings; only the two stake-delta instructions mark the delta
      epoch; only the manager's unstakes count as moved; only two instructions touch
      tickets, and only trades touch the pool. */
  lemma InstructionLeaves(w: World, step: Step, w': World)
    requires Instruction(w, step) == Some(w')
    ensures w'.chain.clock == w.chain.clock
    ensures !step.Configure? ==> SettingsStay(w, w')
    ensures !ActsOnStakeDelta(step) ==> DeltaMarkStays(w, w')
    ensures !MovesByManager(step) ==> MoveMarkStays(w, w')
    ensures !Tickets(step) ==> w'.chain.tickets == w.chain.tickets
    ensures !Trades(step) ==> LegsStay(w, w')
  {
    if Trades(step) {
      TradesLeave(w, step, w');
    } else if Tickets(step) {
      TicketsLeave(w, step, w');
    } else if Lists(step) {
      ListsLeave(w, step, w');
    } else if Reshapes(step) {
      ReshapingLeaves(w, step, w');
    } else if step.DoUpdateActive? {
      UpdateActiveLeaves(w, step, w');
    } else if step.DoUpdateDeactivated? {
      UpdateDeactivatedLeaves(w, step, w');
    } else if MovesByManager(step) {
      ManagerLeaves(w, step, w');
    } else if step.DoStakeReserve? {
      StakeReserveLeaves(w, step, w');
    } else if step.DoDeactivateStake? {
      DeactivateStakeLeaves(w, step, w');
    }
  }
}
