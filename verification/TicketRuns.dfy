/** When a ticket can be claimed, over whole runs. */
module TicketRuns {
  import opened Base
  import opened Model
  import opened Instructions
  import opened Runs
  import opened Frames
  import opened LedgerRuns
  import opened Books

  lemma EpochsGoForward(w: World, step: Step)
    ensures Next(w, step).chain.clock.epoch >= w.chain.clock.epoch
  {
    if !step.Elsewhere? && Instruction(w, step).Some? {
      InstructionLeaves(w, step, Instruction(w, step).value);
    }
  }

  lemma {:induction false} RunsGoForward(w: World, steps: seq<Step>)
    ensures Run(w, steps).chain.clock.epoch >= w.chain.clock.epoch
    decreases |steps|
  {
    if steps != [] {
      EpochsGoForward(w, steps[0]);
      RunsGoForward(Next(w, steps[0]), steps[1..]);
    }
  }

  /** No step of the run claims `ticket`. */
  ghost predicate Outstanding(w: World, steps: seq<Step>, ticket: Key)
    decreases |steps|
  {
    steps == [] ||
    ((steps[0] == DoClaim(ticket) ==> Claim(w, ticket) == None) && Outstanding(Next(w, steps[0]), steps[1..], ticket))
  }

  lemma TicketStays(w: World, step: Step, ticket: Key)
    requires ticket in w.chain.tickets
    requires step == DoClaim(ticket) ==> Claim(w, ticket) == None
    ensures ticket in Next(w, step).chain.tickets
    ensures Next(w, step).chain.tickets[ticket] == w.chain.tickets[ticket]
  {
    if !step.Elsewhere? && Instruction(w, step).Some? {
      InstructionLeaves(w, step, Instruction(w, step).value);
    }
  }

  /** A ticket is not touched until it is claimed. */
  lemma {:induction false} TicketLasts(w: World, steps: seq<Step>, ticket: Key)
    requires ticket in w.chain.tickets && Outstanding(w, steps, ticket)
    ensures ticket in Run(w, steps).chain.tickets
    ensures Run(w, steps).chain.tickets[ticket] == w.chain.tickets[ticket]
    decreases |steps|
  {
    if steps != [] {
      TicketStays(w, steps[0], ticket);
      TicketLasts(Next(w, steps[0]), steps[1..], ticket);
    }
  }

  // ---------- the stake-delta epoch ----------

  /** An effective stake-delta action marks its epoch. */
  predicate ActsOnDelta(w: World, step: Step) {
    (step.DoStakeReserve? || step.DoDeactivateStake?) && Instruction(w, step).Some?
    && Instruction(w, step).value.state.ledger != w.state.ledger
  }

  lemma StakeReserveMarks(w: World, j: nat, vote: Key, account: Key, w': World)
    requires StakeReserve(w, j, vote, account) == Some(w')
    ensures (w'.state.lastStakeDeltaEpoch == w.state.lastStakeDeltaEpoch && w'.state.ledger == w.state.ledger)
            || w'.state.lastStakeDeltaEpoch == w.chain.clock.epoch
  {
  }

  lemma DeactivateStakeMarks(w: World, i: nat, account: Key, j: nat, splitAccount: Key, w': World)
    requires DeactivateStake(w, i, account, j, splitAccount) == Some(w')
    ensures w' == w || w'.state.lastStakeDeltaEpoch == w.chain.clock.epoch
  {
  }

  /** A marked epoch stays marked while it lasts. */
  lemma MarkStays(w: World, step: Step)
    requires w.state.lastStakeDeltaEpoch == w.chain.clock.epoch
    ensures Next(w, step).chain.clock.epoch == w.chain.clock.epoch ==>
              Next(w, step).state.lastStakeDeltaEpoch == w.chain.clock.epoch
  {
    if !step.Elsewhere? && Instruction(w, step).Some? {
      var w' := Instruction(w, step).value;
      match step {
        case DoStakeReserve(j, vote, account) => StakeReserveMarks(w, j, vote, account, w');
        case DoDeactivateStake(i, account, j, split) => DeactivateStakeMarks(w, i, account, j, split, w');
        case _ => InstructionLeaves(w, step, w');
      }
    }
  }

  lemma {:induction false} MarkLasts(w: World, steps: seq<Step>)
    requires w.state.lastStakeDeltaEpoch == w.chain.clock.epoch
    requires Run(w, steps).chain.clock.epoch == w.chain.clock.epoch
    ensures Run(w, steps).state.lastStakeDeltaEpoch == w.chain.clock.epoch
    decreases |steps|
  {
    if steps != [] {
      EpochsGoForward(w, steps[0]);
      RunsGoForward(Next(w, steps[0]), steps[1..]);
      MarkStays(w, steps[0]);
      MarkLasts(Next(w, steps[0]), steps[1..]);
    }
  }

  lemma ActionMarks(w: World, step: Step)
    requires ActsOnDelta(w, step)
    ensures Next(w, step).state.lastStakeDeltaEpoch == Next(w, step).chain.clock.epoch == w.chain.clock.epoch
  {
    var w' := Instruction(w, step).value;
    InstructionLeaves(w, step, w');
    match step {
      case DoStakeReserve(j, vote, account) => StakeReserveMarks(w, j, vote, account, w');
      case DoDeactivateStake(i, account, j, split) => DeactivateStakeMarks(w, i, account, j, split, w');
    }
  }

  /** A ticket ordered in an epoch after a stake-delta action of that epoch cannot be claimed before
      two epochs later, whatever happens in between. */
  lemma TicketWaitsTwoEpochs(w: World, action: Step, before: seq<Step>, msol: nat, ticket: Key, w1: World,
                             after: seq<Step>, w2: World)
    requires ActsOnDelta(w, action)
    requires Run(Next(w, action), before).chain.clock.epoch == w.chain.clock.epoch
    requires OrderUnstake(Run(Next(w, action), before), msol, ticket) == Some(w1)
    requires Outstanding(w1, after, ticket) && Claim(Run(w1, after), ticket) == Some(w2)
    ensures Run(w1, after).chain.clock.epoch >= w.chain.clock.epoch + 2
  {
    ActionMarks(w, action);
    MarkLasts(Next(w, action), before);
    TicketLasts(w1, after, ticket);
  }

  /** Any other ticket waits at least one epoch. */
  lemma TicketWaitsOneEpoch(w: World, msol: nat, ticket: Key, w1: World, after: seq<Step>, w2: World)
    requires OrderUnstake(w, msol, ticket) == Some(w1)
    requires Outstanding(w1, after, ticket) && Claim(Run(w1, after), ticket) == Some(w2)
    ensures Run(w1, after).chain.clock.epoch >= w.chain.clock.epoch + 1
    ensures Run(w1, after).chain.clock.epoch == w1.chain.tickets[ticket].createdEpoch + 1 ==>
              Run(w1, after).chain.clock.epochSeconds >= EXTRA_WAIT_SECONDS
  {
    TicketLasts(w1, after, ticket);
  }
}
