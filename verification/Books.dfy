/** What the program believes about its reserve, its supplies and its tickets agrees with the chain,
    on every run; without slashing its tickets are always covered. */
module Books {
  import opened Base
  import opened Calc
  import opened Model
  import opened Instructions
  import opened Parts
  import opened Totals
  import opened Soundness
  import opened LedgerSafety
  import opened Price
  import opened Runs
  import opened LedgerRuns
  import L = LedgerOps

  // ---------- tickets ----------

  ghost function TicketSum(tickets: map<Key, Ticket>): nat {
    if tickets == map[] then 0
    else
      var k :| k in tickets;
      tickets[k].lamports + TicketSum(tickets - {k})
  }

  /** The sum does not depend on the order of summation. */
  lemma {:induction false} TicketOut(tickets: map<Key, Ticket>, x: Key)
    requires x in tickets
    ensures TicketSum(tickets) == tickets[x].lamports + TicketSum(tickets - {x})
    decreases |tickets|
  {
    var k :| k in tickets && TicketSum(tickets) == tickets[k].lamports + TicketSum(tickets - {k});
    if k != x {
      TicketOut(tickets - {k}, x);
      TicketOut(tickets - {x}, k);
      assert tickets - {k} - {x} == tickets - {x} - {k};
    }
  }

  lemma TicketIn(tickets: map<Key, Ticket>, x: Key, t: Ticket)
    requires x !in tickets
    ensures TicketSum(tickets[x := t]) == TicketSum(tickets) + t.lamports
    ensures |tickets[x := t]| == |tickets| + 1
  {
    TicketOut(tickets[x := t], x);
    assert tickets[x := t] - {x} == tickets;
  }

  /** circulating_ticket_balance and circulating_ticket_count. */
  ghost predicate TicketsOk(w: World) {
    w.state.ticketBalance == TicketSum(w.chain.tickets) && w.state.ticketCount == |w.chain.tickets|
  }

  lemma OrderUnstakeTickets(w: World, msol: nat, ticket: Key, w': World)
    requires TicketsOk(w) && OrderUnstake(w, msol, ticket) == Some(w')
    ensures TicketsOk(w')
  {
    TicketIn(w.chain.tickets, ticket, w'.chain.tickets[ticket]);
  }

  lemma ClaimTickets(w: World, ticket: Key, w': World)
    requires TicketsOk(w) && Claim(w, ticket) == Some(w')
    ensures TicketsOk(w')
  {
    TicketOut(w.chain.tickets, ticket);
    assert w'.chain.tickets == w.chain.tickets - {ticket};
    assert w.chain.tickets == w'.chain.tickets[ticket := w.chain.tickets[ticket]];
    TicketIn(w'.chain.tickets, ticket, w.chain.tickets[ticket]);
  }

  // ---------- virtual against real ----------

  /** Steps that only move stake: tickets, supplies and settings stay, and the reserve the program
      believes in falls by what the real one falls. */
  predicate MovesStake(step: Step) {
    step.DoStakeReserve? || step.DoDeactivateStake? || step.DoEmergencyUnstake? || step.DoPartialUnstake?
    || step.DoMergeStakes? || step.DoCreateCanonicalStake? || step.DoAddValidator? || step.DoRemoveValidator?
    || step.DoSetValidatorScore? || step.DoFinalizeUpgrade?
  }

  /** Nothing outside the ledger and the stake accounts changes but the two reserves, together. */
  predicate Quiet(w: World, w': World) {
    && w'.state.msolSupply == w.state.msolSupply && w'.state.cfg == w.state.cfg
    && w'.state.stakingCap == w.state.stakingCap && w'.state.pool == w.state.pool
    && w'.state.ticketBalance == w.state.ticketBalance && w'.state.ticketCount == w.state.ticketCount
    && w'.chain.tickets == w.chain.tickets && w'.chain.clock == w.chain.clock
    && w'.chain.msolMinted == w.chain.msolMinted && w'.chain.msolLeg == w.chain.msolLeg
    && w'.chain.solLeg == w.chain.solLeg && w'.chain.lpMinted == w.chain.lpMinted
    && w.chain.reserveLamports - w'.chain.reserveLamports == w.state.reserve - w'.state.reserve >= 0
    && Control(w'.state) >= Control(w.state)
  }

  lemma StakeReserveQuiet(w: World, j: nat, vote: Key, account: Key, w': World)
    requires StakeReserve(w, j, vote, account) == Some(w')
    ensures Quiet(w, w') && Control(w'.state) == Control(w.state)
  {
    var w1, amount := StakeReserveDelegates(w, j, vote, account, w');
  }

  lemma CoolWholeQuiet(w: World, i: nat, account: Key, j: nat, emergency: bool, w': World)
    requires i < |w.state.ledger.stakes| && j < |w.state.ledger.validators|
    requires CoolWhole(w, i, account, j, emergency) == Some(w')
    ensures Quiet(w, w') && Control(w'.state) == Control(w.state)
  {
  }

  lemma CoolPartQuiet(w: World, i: nat, account: Key, j: nat, amount: nat, splitAccount: Key, emergency: bool,
                      deltaEpoch: nat, w': World)
    requires i < |w.state.ledger.stakes| && j < |w.state.ledger.validators|
    requires CoolPart(w, i, account, j, amount, splitAccount, emergency, deltaEpoch) == Some(w')
    ensures Quiet(w, w') && Control(w'.state) == Control(w.state)
  {
  }

  lemma DeactivateStakeQuiet(w: World, i: nat, account: Key, j: nat, splitAccount: Key, w': World)
    requires DeactivateStake(w, i, account, j, splitAccount) == Some(w')
    ensures Quiet(w, w') && Control(w'.state) == Control(w.state)
  {
    var amount := DeactivateStakeCools(w, i, account, j, splitAccount, w');
    if CoolWhole(Marked(w), i, account, j, false) == Some(w') {
      CoolWholeQuiet(Marked(w), i, account, j, false, w');
    } else if w' != w {
      CoolPartQuiet(Marked(w), i, account, j, amount, splitAccount, false, w.chain.clock.epoch, w');
    }
  }

  lemma PartialUnstakeQuiet(w: World, i: nat, account: Key, j: nat, desired: nat, splitAccount: Key, w': World)
    requires PartialUnstake(w, i, account, j, desired, splitAccount) == Some(w')
    ensures Quiet(w, w') && Control(w'.state) == Control(w.state)
  {
    if w' != w {
      var w1, moved := PartialUnstakeCools(w, i, account, j, desired, splitAccount, w');
      if CoolWhole(w1, i, account, j, true) == Some(w') {
        CoolWholeQuiet(w1, i, account, j, true, w');
      } else {
        CoolPartQuiet(w1, i, account, j, moved, splitAccount, true, w.state.ledger.validators[j].lastDeltaEpoch, w');
      }
    }
  }

  lemma ReshapingIsQuiet(w: World, step: Step, w': World)
    requires step.DoMergeStakes? || step.DoCreateCanonicalStake? || step.DoFinalizeUpgrade?
    requires Instruction(w, step) == Some(w')
    ensures Quiet(w, w')
  {
  }

  /** Staking the reserve, unstaking, moving, merging and finalizing never lose lamports. */
  lemma MovingIsQuiet(w: World, step: Step, w': World)
    requires MovesStake(step) && Instruction(w, step) == Some(w')
    ensures Quiet(w, w')
  {
    match step {
      case DoStakeReserve(j, vote, account) => StakeReserveQuiet(w, j, vote, account, w');
      case DoDeactivateStake(i, account, j, split) => DeactivateStakeQuiet(w, i, account, j, split, w');
      case DoPartialUnstake(i, account, j, desired, split) => PartialUnstakeQuiet(w, i, account, j, desired, split, w');
      case _ =>
        if step.DoMergeStakes? || step.DoCreateCanonicalStake? || step.DoFinalizeUpgrade? {
          ReshapingIsQuiet(w, step, w');
        }
    }
  }

  lemma UpdateActiveBooks(w: World, i: nat, account: Key, j: nat, treasury: bool, w': World)
    requires UpdateActive(w, i, account, j, treasury) == Some(w')
    ensures w'.state.reserve + w'.state.cfg.rent == w'.chain.reserveLamports
    ensures w'.chain.msolMinted == w'.state.msolSupply >= w.chain.msolMinted
    ensures w'.state.cfg == w.state.cfg && w'.state.ticketBalance == w.state.ticketBalance
    ensures w'.state.ticketCount == w.state.ticketCount && w'.chain.tickets == w.chain.tickets
    ensures w'.chain.msolLeg == w.chain.msolLeg
    ensures w.chain.msolMinted <= w.state.msolSupply ==> w'.state.stakingCap == w.state.stakingCap
  {
    UpdateActiveFrame(w, i, account, j, treasury, w');
    var w1 := UpdateActiveCore(w, i, account, j, treasury).value;
    var s1, s2, s3, extra := UpdateActiveStages(w, i, account, j, treasury, w1);
    CreditExtraGrows(s1.(ledger := L.Recognize(w.state.ledger, i, j).value), extra, treasury, s2);
  }

  lemma CreditExtraGrows(s: State, extra: nat, treasury: bool, s': State)
    requires CreditExtra(s, extra, treasury) == Some(s')
    ensures s' == s.(reserve := s.reserve + extra, msolSupply := s'.msolSupply) && s'.msolSupply >= s.msolSupply
  {
  }

  lemma UpdateDeactivatedBooks(w: World, i: nat, account: Key, j: nat, treasury: bool, w': World)
    requires w.chain.reserveLamports >= w.state.cfg.rent
    requires UpdateDeactivated(w, i, account, j, treasury) == Some(w')
    ensures w'.state.reserve + w'.state.cfg.rent == w'.chain.reserveLamports
    ensures w'.chain.msolMinted == w'.state.msolSupply >= w.chain.msolMinted
    ensures w'.state.cfg == w.state.cfg && w'.state.ticketBalance == w.state.ticketBalance
    ensures w'.state.ticketCount == w.state.ticketCount && w'.chain.tickets == w.chain.tickets
    ensures w'.chain.msolLeg == w.chain.msolLeg
    ensures w.chain.msolMinted <= w.state.msolSupply ==> w'.state.stakingCap == w.state.stakingCap
  {
  }

  lemma WithdrawBooks(w: World, i: nat, account: Key, j: nat, msol: nat, treasury: bool, splitAccount: Key, w': World)
    requires Price.Covered(w) && TicketsOk(w)
    requires WithdrawStakeAccount(w, i, account, j, msol, treasury, splitAccount) == Some(w')
    ensures Price.Covered(w') && TicketsOk(w')
  {
    var split, burned := WithdrawSplits(w, i, account, j, msol, treasury, splitAccount, w');
  }

  lemma PoolBooks(w: World, step: Step, w': World)
    requires Price.Covered(w) && TicketsOk(w) && Instruction(w, step) == Some(w')
    requires step.DoLiquidUnstake? || step.DoAddLiquidity? || step.DoRemoveLiquidity? || step.Configure?
    ensures Price.Covered(w') && TicketsOk(w')
  {
  }

  lemma DepositBooks(w: World, step: Step, w': World)
    requires Price.Covered(w) && TicketsOk(w) && Instruction(w, step) == Some(w')
    requires step.DoDeposit? || step.DoDepositStakeAccount?
    ensures Price.Covered(w') && TicketsOk(w')
  {
  }

  /** Real reserve and virtual reserve, real supply and virtual supply, tickets and their totals. */
  lemma InstructionBooks(w: World, step: Step, w': World)
    requires Price.Covered(w) && TicketsOk(w) && Instruction(w, step) == Some(w')
    ensures Price.Covered(w') && TicketsOk(w')
  {
    if MovesStake(step) {
      MovingIsQuiet(w, step, w');
    } else {
      match step {
        case DoOrderUnstake(msol, ticket) => OrderUnstakeTickets(w, msol, ticket, w');
        case DoClaim(ticket) => ClaimTickets(w, ticket, w');
        case DoUpdateActive(i, account, j, treasury) => UpdateActiveBooks(w, i, account, j, treasury, w');
        case DoUpdateDeactivated(i, account, j, treasury) => UpdateDeactivatedBooks(w, i, account, j, treasury, w');
        case DoWithdrawStakeAccount(i, account, j, msol, treasury, split) =>
          WithdrawBooks(w, i, account, j, msol, treasury, split, w');
        case _ =>
          if step.DoDeposit? || step.DoDepositStakeAccount? {
            DepositBooks(w, step, w');
          } else {
            PoolBooks(w, step, w');
          }
      }
    }
  }

  lemma NextBooks(w: World, step: Step)
    requires Price.Covered(w) && TicketsOk(w)
    ensures Price.Covered(Next(w, step)) && TicketsOk(Next(w, step))
  {
    if !step.Elsewhere? && Instruction(w, step).Some? {
      InstructionBooks(w, step, Instruction(w, step).value);
    }
  }

  lemma {:induction false} RunBooks(w: World, steps: seq<Step>)
    requires Price.Covered(w) && TicketsOk(w)
    ensures Price.Covered(Run(w, steps)) && TicketsOk(Run(w, steps))
    decreases |steps|
  {
    if steps != [] {
      NextBooks(w, steps[0]);
      RunBooks(Next(w, steps[0]), steps[1..]);
    }
  }

  /** From initialize on: the real reserve covers the virtual one, no mSOL exists that the program
      does not know of, and the ticket totals are the sum and the number of the live tickets. */
  lemma BooksAlwaysHold(w: World, steps: seq<Step>)
    requires Initialized(w)
    ensures Price.Covered(Run(w, steps)) && TicketsOk(Run(w, steps))
  {
    RunBooks(w, steps);
  }

  // ---------- LP tokens ----------

  /** No LP token exists that the program does not know of. */
  predicate LpOk(w: World) {
    w.chain.lpMinted <= w.state.pool.lpSupply
  }

  lemma LiquidityLp(w: World, step: Step, w': World)
    requires LpOk(w) && Instruction(w, step) == Some(w')
    requires step.DoLiquidUnstake? || step.DoAddLiquidity? || step.DoRemoveLiquidity? || step.Configure?
    ensures LpOk(w')
  {
  }

  lemma UsersLp(w: World, step: Step, w': World)
    requires LpOk(w) && Instruction(w, step) == Some(w')
    requires step.DoDeposit? || step.DoDepositStakeAccount? || step.DoOrderUnstake? || step.DoClaim?
    ensures LpOk(w')
  {
  }

  lemma InstructionLp(w: World, step: Step, w': World)
    requires LpOk(w) && Instruction(w, step) == Some(w')
    ensures LpOk(w')
  {
    if MovesStake(step) {
      MovingIsQuiet(w, step, w');
    } else {
      match step {
        case DoUpdateActive(i, account, j, treasury) => UpdateActiveFrame(w, i, account, j, treasury, w');
        case DoUpdateDeactivated(i, account, j, treasury) =>
          UpdateDeactivatedCollects(w, i, account, j, treasury, UpdateDeactivatedCore(w, i, account, j, treasury).value);
        case DoWithdrawStakeAccount(i, account, j, msol, treasury, split) =>
          var amount, burned := WithdrawSplits(w, i, account, j, msol, treasury, split, w');
        case _ =>
          if step.DoLiquidUnstake? || step.DoAddLiquidity? || step.DoRemoveLiquidity? || step.Configure? {
            LiquidityLp(w, step, w');
          } else {
            UsersLp(w, step, w');
          }
      }
    }
  }

  lemma NextLp(w: World, step: Step)
    requires LpOk(w)
    ensures LpOk(Next(w, step))
  {
    if !step.Elsewhere? && Instruction(w, step).Some? {
      InstructionLp(w, step, Instruction(w, step).value);
    }
  }

  lemma {:induction false} RunLp(w: World, steps: seq<Step>)
    requires LpOk(w)
    ensures LpOk(Run(w, steps))
    decreases |steps|
  {
    if steps != [] {
      NextLp(w, steps[0]);
      RunLp(Next(w, steps[0]), steps[1..]);
    }
  }
}
