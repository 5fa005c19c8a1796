/** The first deposit after the mSOL supply was zero: who gets what was left. */
module FirstDeposits {
  import opened Base
  import opened Calc
  import opened Model
  import opened Instructions
  import opened Soundness
  import opened LedgerSafety
  import opened Books
  import opened Runs
  import opened Solvency
  import opened RoundTrips
  import opened Examples

  /** A program without stakes: its reserve, its supply, its tickets, and the fee of a ticket order. */
  function Unstaked(fee: nat, reserve: nat, msol: nat, tickets: map<Key, Ticket>, ticketBalance: nat): World {
    var w := Example(Ledger([], [], 0, 0, 0, 0, Done), {}, map[], reserve);
    World(w.state.(cfg := w.state.cfg.(delayedUnstakeFee := fee), msolSupply := msol, ticketCount := |tickets|,
                   ticketBalance := ticketBalance),
          w.chain.(msolMinted := msol, tickets := tickets))
  }

  lemma NoFee(lamports: nat)
    ensures ApplyFeeCents(0, lamports) == 0
  {
  }

  lemma UnstakedDeposit(fee: nat, reserve: nat, lamports: nat, tickets: map<Key, Ticket>, ticketBalance: nat)
    requires 0 < lamports && reserve + lamports <= U64_MAX
    ensures Deposit(Unstaked(fee, reserve, 0, tickets, ticketBalance), lamports, lamports)
            == Some(Unstaked(fee, reserve + lamports, lamports, tickets, ticketBalance))
  {
    NoFee(lamports);
  }

  lemma UnstakedOrder(fee: nat, reserve: nat, msol: nat, tickets: map<Key, Ticket>, ticketBalance: nat, ticket: Key)
    requires 0 < msol && ticketBalance < reserve <= U64_MAX && ticket !in tickets && |tickets| < U64_MAX
    requires ApplyFeeCents(fee, reserve - ticketBalance) < reserve - ticketBalance
    ensures var paid := reserve - ticketBalance - ApplyFeeCents(fee, reserve - ticketBalance);
            OrderUnstake(Unstaked(fee, reserve, msol, tickets, ticketBalance), msol, ticket)
            == Some(Unstaked(fee, reserve, 0, tickets[ticket := Ticket(paid, 0)], ticketBalance + paid))
  {
    WholeSupply(Unstaked(fee, reserve, msol, tickets, ticketBalance).state);
  }

  // ---------- from initialize on ----------

  const FIRST: Key := Address(1)
  const SECOND: Key := Address(2)

  /** A user deposits and orders everything back. */
  function InAndOut(lamports: nat, ticket: Key): seq<Step> {
    [DoDeposit(lamports, lamports), DoOrderUnstake(lamports, ticket)]
  }

  function SetFee(fee: nat): Step {
    var s := Unstaked(fee, 0, 0, map[], 0).state;
    Configure(s.cfg, s.stakingCap, s.extraRuns, s.pool)
  }

  /** The administrators set the fee; the first user leaves it behind; the second comes and goes. */
  function TwoUsers(fee: nat, first: nat, second: nat): seq<Step> {
    [SetFee(fee)] + (InAndOut(first, FIRST) + InAndOut(second, SECOND))
  }

  /** What a user who orders everything back is paid: all that is not owed yet, without the fee. */
  predicate PaidOut(fee: nat, worth: int, paid: nat) {
    && worth > 0
    && ApplyFeeCents(fee, worth) < worth && paid == worth - ApplyFeeCents(fee, worth)
  }

  lemma InAndOutRun(w: World, lamports: nat, ticket: Key, w1: World, w2: World, rest: seq<Step>)
    requires Deposit(w, lamports, lamports) == Some(w1) && OrderUnstake(w1, lamports, ticket) == Some(w2)
    ensures Run(w, InAndOut(lamports, ticket) + rest) == Run(w2, rest)
  {
    var steps := InAndOut(lamports, ticket) + rest;
    RunStep(w, steps, w1);
    RunStep(w1, steps[1..], w2);
    assert steps[1..][1..] == rest;
  }

  /** After which only the fee and earlier tickets are left in the reserve. */
  lemma UserRun(fee: nat, reserve: nat, lamports: nat, tickets: map<Key, Ticket>, owed: nat, ticket: Key, paid: nat,
                rest: seq<Step>)
    requires 0 < lamports && owed <= reserve && reserve + lamports <= U64_MAX
    requires ticket !in tickets && |tickets| < U64_MAX && PaidOut(fee, reserve + lamports - owed, paid)
    ensures Run(Unstaked(fee, reserve, 0, tickets, owed), InAndOut(lamports, ticket) + rest)
            == Run(Unstaked(fee, reserve + lamports, 0, tickets[ticket := Ticket(paid, 0)], owed + paid), rest)
  {
    UnstakedDeposit(fee, reserve, lamports, tickets, owed);
    UnstakedOrder(fee, reserve + lamports, lamports, tickets, owed, ticket);
    InAndOutRun(Unstaked(fee, reserve, 0, tickets, owed), lamports, ticket,
                Unstaked(fee, reserve + lamports, lamports, tickets, owed),
                Unstaked(fee, reserve + lamports, 0, tickets[ticket := Ticket(paid, 0)], owed + paid), rest);
  }

  lemma LastUserRun(fee: nat, reserve: nat, lamports: nat, tickets: map<Key, Ticket>, owed: nat, ticket: Key, paid: nat)
    requires 0 < lamports && owed <= reserve && reserve + lamports <= U64_MAX
    requires ticket !in tickets && |tickets| < U64_MAX && PaidOut(fee, reserve + lamports - owed, paid)
    ensures Run(Unstaked(fee, reserve, 0, tickets, owed), InAndOut(lamports, ticket))
            == Unstaked(fee, reserve + lamports, 0, tickets[ticket := Ticket(paid, 0)], owed + paid)
  {
    UserRun(fee, reserve, lamports, tickets, owed, ticket, paid, []);
    assert InAndOut(lamports, ticket) + [] == InAndOut(lamports, ticket);
  }

  lemma UnstakedIsSolvent(residue: nat)
    ensures Solvent(Unstaked(0, residue, 0, map[], 0), 10_000_000)
  {
  }

  /** Without a fee any residue goes to the first depositor: from a solvent program without mSOL, a
      deposit of any `lamports` comes back as a ticket of `lamports` and the residue. */
  lemma FirstDepositorTakesResidue(residue: nat, lamports: nat, ticket: Key)
    requires 0 < residue && 0 < lamports && residue + lamports <= U64_MAX
    ensures var w := Unstaked(0, residue, 0, map[], 0);
            var after := Run(w, InAndOut(lamports, ticket));
            && Solvent(w, 10_000_000) && w.state.msolSupply == 0 && Virtual(w.state) == residue
            && ticket in after.chain.tickets && after.chain.tickets[ticket].lamports == lamports + residue
  {
    UnstakedIsSolvent(residue);
    NoFee(residue + lamports);
    LastUserRun(0, residue, lamports, map[], 0, ticket, residue + lamports);
  }

  /** One step, then a run whose end is known. */
  lemma StepThen(w: World, step: Step, w1: World, rest: seq<Step>, last: World)
    requires Next(w, step) == w1 && Run(w1, rest) == last
    ensures Run(w, [step] + rest) == last
  {
    RunStep(w, [step] + rest, w1);
    assert ([step] + rest)[1..] == rest;
  }

  lemma FeeThen(fee: nat, rest: seq<Step>, last: World)
    requires fee <= 2000 && Run(Unstaked(fee, 0, 0, map[], 0), rest) == last
    ensures Run(Unstaked(0, 0, 0, map[], 0), [SetFee(fee)] + rest) == last
  {
    StepThen(Unstaked(0, 0, 0, map[], 0), SetFee(fee), Unstaked(fee, 0, 0, map[], 0), rest, last);
  }

  lemma UserThen(fee: nat, reserve: nat, lamports: nat, tickets: map<Key, Ticket>, owed: nat, ticket: Key, paid: nat,
                 rest: seq<Step>, last: World)
    requires 0 < lamports && owed <= reserve && reserve + lamports <= U64_MAX
    requires ticket !in tickets && |tickets| < U64_MAX && PaidOut(fee, reserve + lamports - owed, paid)
    requires Run(Unstaked(fee, reserve + lamports, 0, tickets[ticket := Ticket(paid, 0)], owed + paid), rest) == last
    ensures Run(Unstaked(fee, reserve, 0, tickets, owed), InAndOut(lamports, ticket) + rest) == last
  {
    UserRun(fee, reserve, lamports, tickets, owed, ticket, paid, rest);
  }

  lemma BothUsersRun(fee: nat, reserve: nat, first: nat, tickets: map<Key, Ticket>, owed: nat, paid1: nat, second: nat,
                     paid2: nat, end: seq<Step>)
    requires 0 < first && 0 < second && owed <= reserve && reserve + first + second <= U64_MAX
    requires FIRST !in tickets && SECOND !in tickets && |tickets| + 1 < U64_MAX
    requires PaidOut(fee, reserve + first - owed, paid1)
    requires PaidOut(fee, reserve + first + second - owed - paid1, paid2)
    requires end == InAndOut(second, SECOND)
    ensures Run(Unstaked(fee, reserve, 0, tickets, owed), InAndOut(first, FIRST) + end)
            == Unstaked(fee, reserve + first + second, 0,
                        tickets[FIRST := Ticket(paid1, 0)][SECOND := Ticket(paid2, 0)], owed + paid1 + paid2)
  {
    var t := tickets[FIRST := Ticket(paid1, 0)];
    LastUserRun(fee, reserve + first, second, t, owed + paid1, SECOND, paid2);
    UserThen(fee, reserve, first, tickets, owed, FIRST, paid1, end,
             Unstaked(fee, reserve + first + second, 0, t[SECOND := Ticket(paid2, 0)], owed + paid1 + paid2));
  }

  lemma TwoUsersRun(fee: nat, first: nat, second: nat, residue: nat, paid: nat)
    requires 0 < fee <= 2000 && 0 < first && 0 < second && first + second <= U64_MAX
    requires 0 < residue < first && PaidOut(fee, first, first - residue) && PaidOut(fee, residue + second, paid)
    ensures var after := Run(Unstaked(0, 0, 0, map[], 0), TwoUsers(fee, first, second));
            SECOND in after.chain.tickets && after.chain.tickets[SECOND].lamports == paid
  {
    var end := InAndOut(second, SECOND);
    BothUsersRun(fee, 0, first, map[], 0, first - residue, second, paid, end);
    FeeThen(fee, InAndOut(first, FIRST) + end,
            Unstaked(fee, first + second, 0, map[][FIRST := Ticket(first - residue, 0)][SECOND := Ticket(paid, 0)],
                     first - residue + paid));
  }

  /** From initialize on the next depositor can get more than the deposit: with a ticket fee, what a
      first user who deposits and leaves has paid for it is worth more than the fee of the second. */
  lemma NextDepositorTakesFee(fee: nat, first: nat, second: nat)
    requires 0 < fee <= 2000 && 0 < second && first + second <= U64_MAX
    requires var residue := ApplyFeeCents(fee, first);
             residue < first && residue > ApplyFeeCents(fee, residue + second)
    ensures Initialized(Unstaked(0, 0, 0, map[], 0))
    ensures var after := Run(Unstaked(0, 0, 0, map[], 0), TwoUsers(fee, first, second));
            SECOND in after.chain.tickets && after.chain.tickets[SECOND].lamports > second
  {
    var residue := ApplyFeeCents(fee, first);
    TwoUsersRun(fee, first, second, residue, residue + second - ApplyFeeCents(fee, residue + second));
  }

  /** For example, at 0.2%, with 1 SOL and then 1_000_000 lamports. */
  lemma NextDepositorExample()
    ensures var after := Run(Unstaked(0, 0, 0, map[], 0), TwoUsers(2000, 1_000_000_000, 1_000_000));
            SECOND in after.chain.tickets && after.chain.tickets[SECOND].lamports == 2_994_000
  {
    TwoUsersRun(2000, 1_000_000_000, 1_000_000, 2_000_000, 2_994_000);
  }
}
