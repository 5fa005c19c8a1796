/** What users are paid: tickets ordered and claimed, stake accounts withdrawn, and what the real reserve
    holds above the virtual one. */
module Payouts {
  import opened Base
  import opened Calc
  import opened Model
  import opened Instructions
  import opened Parts
  import opened Runs
  import opened Frames
  import opened Books
  import opened Price
  import opened Minting
  import opened Totality

  // ---------- tickets ----------

  /** A ticket is worth the mSOL handed in at the price before, less the delayed unstake fee; all the mSOL
      is burned, on the books and on the chain, and the ticket belongs to the next epoch exactly when this
      epoch had a stake-delta action. */
  lemma OrderUnstakePromises(w: World, msol: nat, ticket: Key, w': World) returns (value: nat, net: nat)
    requires OrderUnstake(w, msol, ticket) == Some(w') && w.state.cfg.delayedUnstakeFee <= MAX_BP_CENTS
    requires w.state.msolSupply == 0 ==> msol <= U64_MAX
    ensures Worth(w.state, msol, value) && Net(w.state.cfg.delayedUnstakeFee, value, net)
    ensures net >= w.state.cfg.minWithdraw && ticket !in w.chain.tickets
    ensures var epoch := if w.state.lastStakeDeltaEpoch == w.chain.clock.epoch then w.chain.clock.epoch + 1
                         else w.chain.clock.epoch;
            w'.chain.tickets == w.chain.tickets[ticket := Ticket(net, epoch)]
    ensures w'.state.ticketBalance == w.state.ticketBalance + net && w'.state.ticketCount == w.state.ticketCount + 1
    ensures w'.state.msolSupply == w.state.msolSupply - msol && w'.chain.msolMinted == w.chain.msolMinted - msol
    ensures w'.state.reserve == w.state.reserve && w'.chain.reserveLamports == w.chain.reserveLamports
  {
    var s := w.state;
    value := MsolToSol(s, msol).value;
    MsolToSolIsWorth(s, msol);
    NetOfFee(s.cfg.delayedUnstakeFee, value);
    net := value - ApplyFeeCents(s.cfg.delayedUnstakeFee, value);
  }

  /** A claim pays exactly the ticket: the real reserve, the virtual reserve and what is owed fall by its
      lamports, and nothing else changes. */
  lemma ClaimPays(w: World, ticket: Key, w': World)
    requires Claim(w, ticket) == Some(w')
    ensures ticket in w.chain.tickets
    ensures var paid := w.chain.tickets[ticket].lamports;
            && 0 < paid <= w.chain.reserveLamports - w.state.cfg.rent
            && w.chain.reserveLamports - w'.chain.reserveLamports == paid
            && w.state.reserve - w'.state.reserve == paid
            && w.state.ticketBalance - w'.state.ticketBalance == paid
    ensures w'.state.ticketCount == w.state.ticketCount - 1 && w'.chain.tickets == w.chain.tickets - {ticket}
    ensures w'.state == w.state.(reserve := w'.state.reserve, ticketBalance := w'.state.ticketBalance,
    ticketCount := w'.state.ticketCount)
    ensures w'.chain == w.chain.(reserveLamports := w'.chain.reserveLamports, tickets := w'.chain.tickets)
  {
  }

  /** The ticket is due: an epoch after its own, and half an hour into the first one. */
  predicate Due(t: Ticket, clock: Clock) {
    clock.epoch > t.createdEpoch + 1 || (clock.epoch == t.createdEpoch + 1 && clock.epochSeconds >= 1800)
  }

  lemma TicketWithin(w: World, ticket: Key)
    requires TicketsOk(w) && ticket in w.chain.tickets
    ensures w.chain.tickets[ticket].lamports <= w.state.ticketBalance && w.state.ticketCount > 0
  {
    TicketOut(w.chain.tickets, ticket);
  }

  /** While the books hold a claim succeeds exactly when the ticket is due, not empty, and within the
      virtual reserve: the real one then has it as well, and no ticket total underflows. */
  lemma ClaimIff(w: World, ticket: Key)
    requires Covered(w) && TicketsOk(w) && w.chain.clock.epoch <= U64_MAX
    ensures Claim(w, ticket).Some?
            <==> && !w.state.cfg.paused && ticket in w.chain.tickets && Due(w.chain.tickets[ticket], w.chain.clock)
                 && 0 < w.chain.tickets[ticket].lamports <= w.state.reserve
  {
    if ticket in w.chain.tickets {
      TicketWithin(w, ticket);
    }
  }

  // ---------- the reserve ----------

  /** What the real reserve holds above the virtual one and the rent. */
  function Unbooked(w: World): int {
    w.chain.reserveLamports - w.state.reserve - w.state.cfg.rent
  }

  predicate Resyncs(w: World, step: Step) {
    (step.DoUpdateActive? || step.DoUpdateDeactivated?) && Instruction(w, step).Some?
  }

  lemma TradesKeepUnbooked(w: World, step: Step, w': World)
    requires Trades(step) || Tickets(step) || step.Configure? || step.DoDepositStakeAccount?
    requires Instruction(w, step) == Some(w')
    ensures Unbooked(w') == Unbooked(w)
  {
  }

  lemma UpdateBooksAll(w: World, step: Step)
    requires Resyncs(w, step) && w.chain.reserveLamports >= w.state.cfg.rent
    ensures Unbooked(Next(w, step)) == 0
  {
    match step {
      case DoUpdateActive(i, account, j, treasury) =>
        UpdateActiveBooks(w, i, account, j, treasury, Next(w, step));
      case DoUpdateDeactivated(i, account, j, treasury) =>
        UpdateDeactivatedBooks(w, i, account, j, treasury, Next(w, step));
    }
  }

  lemma OthersKeepUnbooked(w: World, step: Step, w': World)
    requires Instruction(w, step) == Some(w') && !step.DoUpdateActive? && !step.DoUpdateDeactivated?
    ensures Unbooked(w') == Unbooked(w)
  {
    if MovesStake(step) {
      MovingIsQuiet(w, step, w');
    } else if step.DoWithdrawStakeAccount? {
      var split, burned := WithdrawSplits(w, step.i, step.account, step.j, step.msol, step.treasury,
                                          step.splitAccount, w');
    } else {
      TradesKeepUnbooked(w, step, w');
    }
  }

  /** Every deposit, ticket, claim, stake and unstake moves the two reserves together: only the rest of the
      chain sends lamports past the books, and only an update books them, all at once. */
  lemma NextUnbooked(w: World, step: Step)
    requires w.chain.reserveLamports >= w.state.cfg.rent
    ensures Unbooked(Next(w, step))
            == if Resyncs(w, step) then 0
               else if step.Elsewhere? then Unbooked(w) + Next(w, step).chain.reserveLamports - w.chain.reserveLamports
               else Unbooked(w)
  {
    if Resyncs(w, step) {
      UpdateBooksAll(w, step);
    } else if !step.Elsewhere? && Instruction(w, step).Some? {
      OthersKeepUnbooked(w, step, Next(w, step));
    }
  }

  /** What the rest of the chain has sent to the reserve since the last update. */
  ghost function SentSince(w: World, steps: seq<Step>, before: int): int
    decreases |steps|
  {
    if steps == [] then before
    else
      var w1 := Next(w, steps[0]);
      var sent := if Resyncs(w, steps[0]) then 0
                  else if steps[0].Elsewhere? then before + (w1.chain.reserveLamports - w.chain.reserveLamports)
                  else before;
      SentSince(w1, steps[1..], sent)
  }

  lemma {:induction false} RunUnbooked(w: World, steps: seq<Step>)
    requires Covered(w) && TicketsOk(w)
    ensures Unbooked(Run(w, steps)) == SentSince(w, steps, Unbooked(w))
    decreases |steps|
  {
    if steps != [] {
      NextUnbooked(w, steps[0]);
      NextBooks(w, steps[0]);
      RunUnbooked(Next(w, steps[0]), steps[1..]);
    }
  }

  /** From initialize on, the real reserve is the virtual reserve, the rent, and what the rest of the chain
      has sent to it since the last update; so without such gifts the books are exact. */
  lemma ReserveIsAccountedFor(w: World, steps: seq<Step>)
    requires Initialized(w)
    ensures var now := Run(w, steps);
            now.chain.reserveLamports == now.state.reserve + now.state.cfg.rent + SentSince(w, steps, 0)
  {
    RunUnbooked(w, steps);
  }

  // ---------- withdraw_stake_account ----------

  /** A withdrawal: the mSOL's worth at the price before, less the fee, becomes a stake account of the user,
      delegated as before, which the program has no claim on any more; it leaves record and account alike.
      Without a treasury all the mSOL is burned, with one what the split costs. */
  lemma WithdrawDelivers(w: World, i: nat, account: Key, j: nat, msol: nat, treasury: bool, splitAccount: Key, w': World)
    returns (value: nat, split: nat, burned: nat)
    requires WithdrawStakeAccount(w, i, account, j, msol, treasury, splitAccount) == Some(w')
    requires w.state.cfg.withdrawStakeFee <= MAX_BP_CENTS && (w.state.msolSupply == 0 ==> msol <= U64_MAX)
    ensures Worth(w.state, msol, value) && Net(w.state.cfg.withdrawStakeFee, value, split)
    ensures value >= w.state.cfg.minWithdraw && split >= w.state.cfg.minStake
    ensures if treasury then Buys(w.state, split, burned) else burned == msol
    ensures w'.state.msolSupply == w.state.msolSupply - burned && w'.chain.msolMinted == w.chain.msolMinted - burned
    ensures account in w.chain.accounts && w.chain.accounts[account].delegation.Some? && splitAccount !in w.chain.accounts
    ensures var source := w.chain.accounts[account]; var d := source.delegation.value;
            && split <= d.stake && split <= source.lamports
            && w'.chain.accounts
               == w.chain.accounts[account := source.(lamports := source.lamports - split,
                                                      delegation := Some(d.(stake := d.stake - split)))]
                                  [splitAccount := StakeAccount(w.chain.stakeRent + split, w.chain.stakeRent,
                                                                Some(d.(stake := split)), false, false)]
    ensures i < |w.state.ledger.stakes|
    ensures var r := w.state.ledger.stakes[i];
            && split + w.state.cfg.minStake <= r.lamports
            && w'.state.ledger.stakes == w.state.ledger.stakes[i := r.(lamports := r.lamports - split)]
    ensures w'.state.ledger.totalActive == w.state.ledger.totalActive - split
  {
    var s := w.state;
    split, burned := WithdrawSplitsAt(w, i, account, j, msol, treasury, splitAccount, w');
    SplitDelivers(w, i, account, j, split, burned, splitAccount, w');
    OwnAccount(w, i, account, j, msol, treasury, splitAccount, w');
    WithdrawNeedsGuards(w, i, j, msol, treasury, splitAccount);
    value := MsolToSol(s, msol).value;
    MsolToSolIsWorth(s, msol);
    NetOfFee(s.cfg.withdrawStakeFee, value);
    if treasury {
      NeverSaturates(s, msol, split);
      MsolFromLamportsBuys(s, split);
    }
  }

  lemma OwnAccount(w: World, i: nat, account: Key, j: nat, msol: nat, treasury: bool, splitAccount: Key, w': World)
    requires WithdrawStakeAccount(w, i, account, j, msol, treasury, splitAccount) == Some(w')
    ensures i < |w.state.ledger.stakes| && w.state.ledger.stakes[i].account == account
  {
  }

  lemma SplitDelivers(w: World, i: nat, account: Key, j: nat, split: nat, burned: nat, splitAccount: Key, w': World)
    requires i < |w.state.ledger.stakes| && j < |w.state.ledger.validators|
    requires SplitForUser(w, i, account, j, split, burned, splitAccount) == Some(w')
    ensures w'.state.msolSupply == w.state.msolSupply - burned && w'.chain.msolMinted == w.chain.msolMinted - burned
    ensures w'.chain == w.chain.(accounts := w'.chain.accounts, msolMinted := w'.chain.msolMinted)
    ensures account in w.chain.accounts && w.chain.accounts[account].delegation.Some? && splitAccount !in w.chain.accounts
    ensures var source := w.chain.accounts[account]; var d := source.delegation.value;
            && split <= d.stake && split <= source.lamports
            && w'.chain.accounts
               == w.chain.accounts[account := source.(lamports := source.lamports - split,
                                                      delegation := Some(d.(stake := d.stake - split)))]
                                  [splitAccount := StakeAccount(w.chain.stakeRent + split, w.chain.stakeRent,
                                                                Some(d.(stake := split)), false, false)]
    ensures var r := w.state.ledger.stakes[i];
            && split <= r.lamports
            && w'.state.ledger.stakes == w.state.ledger.stakes[i := r.(lamports := r.lamports - split)]
    ensures w'.state.ledger.totalActive == w.state.ledger.totalActive - split
  {
  }
}
