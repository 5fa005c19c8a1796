/** What stops instructions: the pause switch, the staking cap and the thresholds for users. */
module Gates {
  import opened Base
  import opened Model
  import opened Instructions
  import opened Parts
  import opened Runs
  import opened Price

  /** While the program is paused only the administrators' settings go through. */
  lemma PauseStopsAll(w: World, step: Step)
    requires w.state.cfg.paused && !step.Configure?
    ensures Instruction(w, step) == None
  {
  }

  /** So on a paused run nothing of the state changes. */
  lemma {:induction false} PausedRunKeepsState(w: World, steps: seq<Step>)
    requires w.state.cfg.paused && forall k :: 0 <= k < |steps| ==> !steps[k].Configure?
    ensures Run(w, steps).state == w.state
    decreases |steps|
  {
    if steps != [] {
      if !steps[0].Elsewhere? {
        PauseStopsAll(w, steps[0]);
      }
      PausedRunKeepsState(Next(w, steps[0]), steps[1..]);
    }
  }

  /** A deposit that raises the lamports under control leaves no more of them than the cap. */
  lemma DepositWithinCap(w: World, lamports: nat, userFunds: nat, w': World)
    requires Deposit(w, lamports, userFunds) == Some(w')
    ensures Control(w'.state) > Control(w.state) ==> Control(w'.state) <= Min(w.state.stakingCap, U64_MAX)
  {
    var order, swapped, sold := DepositParts(w, lamports, userFunds, w');
  }

  lemma DepositStakeWithinCap(w: World, account: Key, j: nat, w': World)
    requires DepositStakeAccount(w, account, j) == Some(w')
    ensures Control(w'.state) <= Min(w.state.stakingCap, U64_MAX)
  {
  }

  /** An update that finds mSOL it does not know of closes staking, and no other changes the cap. */
  lemma UnknownMintClosesStaking(w: World, step: Step, w': World)
    requires step.DoUpdateActive? || step.DoUpdateDeactivated?
    requires Instruction(w, step) == Some(w')
    ensures w'.state.stakingCap == if w.chain.msolMinted > w.state.msolSupply then 0 else w.state.stakingCap
  {
    if step.DoUpdateActive? {
      UpdateActiveFrame(w, step.i, step.account, step.j, step.treasury, w');
    } else {
      DeactivatedCap(w, step.i, step.account, step.j, step.treasury, w');
    }
  }

  lemma DeactivatedCap(w: World, i: nat, account: Key, j: nat, treasury: bool, w': World)
    requires UpdateDeactivated(w, i, account, j, treasury) == Some(w')
    ensures w'.state.stakingCap == if w.chain.msolMinted > w.state.msolSupply then 0 else w.state.stakingCap
  {
  }
}
