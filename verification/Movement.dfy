/** The cap on stake moved by the validator manager, over whole runs. */
module Movement {
  import opened Base
  import opened Calc
  import opened Model
  import opened Instructions
  import opened Parts
  import opened LedgerSafety
  import opened Runs
  import opened Frames
  import opened LedgerRuns
  import opened Books
  import opened TicketRuns
  import L = LedgerOps

  /** Lamports a step moves into emergency cooling on the manager's order. */
  ghost function MovedBy(w: World, step: Step): nat {
    if (step.DoEmergencyUnstake? || step.DoPartialUnstake?) && Instruction(w, step).Some?
    then SaturatingSub(Instruction(w, step).value.state.ledger.emergencyCooling, w.state.ledger.emergencyCooling)
    else 0
  }

  /** Lamports moved by the steps of epoch `epoch`. */
  ghost function MovedIn(w: World, steps: seq<Step>, epoch: nat): nat
    decreases |steps|
  {
    if steps == [] then 0
    else
      (if w.chain.clock.epoch == epoch then MovedBy(w, steps[0]) else 0)
      + MovedIn(Next(w, steps[0]), steps[1..], epoch)
  }

  /** What the program has on record for `epoch`. */
  function Recorded(s: State, epoch: nat): nat {
    if s.lastMoveEpoch == epoch then s.stakeMoved else 0
  }

  lemma EmergencyUnstakeRecorded(w: World, i: nat, account: Key, j: nat, w': World)
    requires EmergencyUnstake(w, i, account, j) == Some(w')
    ensures w'.state.lastMoveEpoch == w.chain.clock.epoch
    ensures w'.state.stakeMoved == Recorded(w.state, w.chain.clock.epoch) + MovedBy(w, DoEmergencyUnstake(i, account, j))
    ensures w'.state.stakeMoved <= ApplyFee(w.state.cfg.maxStakeMoved, Control(w.state))
    ensures Control(w'.state) == Control(w.state) <= U64_MAX
  {
  }

  lemma PartialUnstakeMoves(w: World, i: nat, account: Key, j: nat, desired: nat, splitAccount: Key, w': World)
    returns (w1: World, moved: nat)
    requires PartialUnstake(w, i, account, j, desired, splitAccount) == Some(w') && w' != w
    ensures StakeMoved(w.state, moved, w.chain.clock.epoch) == Some(w1.state)
    ensures w'.state == w1.state.(ledger := w'.state.ledger)
    ensures w'.state.ledger.emergencyCooling == w.state.ledger.emergencyCooling + moved
  {
    w1, moved := PartialUnstakeCools(w, i, account, j, desired, splitAccount, w');
  }

  lemma PartialUnstakeRecorded(w: World, i: nat, account: Key, j: nat, desired: nat, splitAccount: Key, w': World)
    requires PartialUnstake(w, i, account, j, desired, splitAccount) == Some(w')
    ensures var amount := MovedBy(w, DoPartialUnstake(i, account, j, desired, splitAccount));
            if w' == w then amount == 0
            else && w'.state.lastMoveEpoch == w.chain.clock.epoch
                 && w'.state.stakeMoved == Recorded(w.state, w.chain.clock.epoch) + amount
                 && w'.state.stakeMoved <= ApplyFee(w.state.cfg.maxStakeMoved, Control(w.state))
                 && Control(w'.state) == Control(w.state) <= U64_MAX
  {
    if w' != w {
      var w1, moved := PartialUnstakeMoves(w, i, account, j, desired, splitAccount, w');
    }
    PartialUnstakeQuiet(w, i, account, j, desired, splitAccount, w');
  }

  lemma NextRecorded(w: World, step: Step, epoch: nat)
    requires w.state.lastMoveEpoch <= w.chain.clock.epoch <= epoch
    ensures Recorded(Next(w, step).state, epoch)
            == Recorded(w.state, epoch) + (if w.chain.clock.epoch == epoch then MovedBy(w, step) else 0)
    ensures Next(w, step).state.lastMoveEpoch <= Next(w, step).chain.clock.epoch
  {
    EpochsGoForward(w, step);
    if !step.Elsewhere? && Instruction(w, step).Some? {
      var w' := Instruction(w, step).value;
      match step {
        case DoEmergencyUnstake(i, account, j) => EmergencyUnstakeRecorded(w, i, account, j, w');
        case DoPartialUnstake(i, account, j, desired, split) =>
          PartialUnstakeRecorded(w, i, account, j, desired, split, w');
        case _ => InstructionLeaves(w, step, w');
      }
    }
  }

  /** On every run what the program has on record for the current epoch is the sum of all emergency
      and partial unstakes of that epoch. */
  lemma {:induction false} MovedIsRecorded(w: World, steps: seq<Step>, epoch: nat)
    requires w.state.lastMoveEpoch <= w.chain.clock.epoch
    requires Run(w, steps).chain.clock.epoch <= epoch
    ensures Recorded(Run(w, steps).state, epoch) == Recorded(w.state, epoch) + MovedIn(w, steps, epoch)
    ensures Run(w, steps).state.lastMoveEpoch <= Run(w, steps).chain.clock.epoch
    decreases |steps|
  {
    RunsGoForward(w, steps);
    if steps != [] {
      EpochsGoForward(w, steps[0]);
      NextRecorded(w, steps[0], epoch);
      MovedIsRecorded(Next(w, steps[0]), steps[1..], epoch);
    }
  }

  lemma {:induction false} RunAppend(w: World, steps: seq<Step>, step: Step, epoch: nat)
    ensures Run(w, steps + [step]) == Next(Run(w, steps), step)
    ensures MovedIn(w, steps + [step], epoch)
            == MovedIn(w, steps, epoch)
               + (if Run(w, steps).chain.clock.epoch == epoch then MovedBy(Run(w, steps), step) else 0)
    decreases |steps|
  {
    if steps == [] {
      assert steps + [step] == [step] && [step][1..] == [];
    } else {
      assert (steps + [step])[1..] == steps[1..] + [step];
      RunAppend(Next(w, steps[0]), steps[1..], step, epoch);
    }
  }

  /** An unstake of the manager that succeeds; partial_unstake may also find nothing to do. */
  ghost predicate Unstakes(w: World, step: Step) {
    Instruction(w, step).Some?
    && (step.DoEmergencyUnstake? || (step.DoPartialUnstake? && Instruction(w, step) != Some(w)))
  }

  /** From initialize on, whenever an unstake of the manager succeeds, everything moved in that epoch,
      this unstake included, is within the cap on the lamports then under control; up to 100% the cap
      is the exact floored fraction. */
  lemma MovementIsCapped(w: World, steps: seq<Step>, step: Step)
    requires Initialized(w)
    requires Unstakes(Run(w, steps), step)
    ensures var before := Run(w, steps); var after := Run(w, steps + [step]);
            var moved := MovedIn(w, steps + [step], before.chain.clock.epoch);
            && Control(after.state) == Control(before.state)
            && moved <= ApplyFee(before.state.cfg.maxStakeMoved, Control(after.state))
            && (before.state.cfg.maxStakeMoved <= MAX_BASIS_POINTS ==>
                  moved <= Control(after.state) * before.state.cfg.maxStakeMoved / MAX_BASIS_POINTS)
  {
    var before := Run(w, steps);
    var epoch := before.chain.clock.epoch;
    var after := Instruction(before, step).value;
    MovedIsRecorded(w, steps, epoch);
    RunAppend(w, steps, step, epoch);
    match step {
      case DoEmergencyUnstake(i, account, j) => EmergencyUnstakeRecorded(before, i, account, j, after);
      case DoPartialUnstake(i, account, j, desired, split) =>
        PartialUnstakeRecorded(before, i, account, j, desired, split, after);
    }
    if before.state.cfg.maxStakeMoved <= MAX_BASIS_POINTS {
      FeeIsExact(before.state.cfg.maxStakeMoved, Control(after.state));
    }
  }
}
