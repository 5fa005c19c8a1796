/** partial_unstake and slashing: the conversion of the total target panics after a deep enough
    slash, and never without one. */
module Slashing {
  import opened Base
  import opened Calc
  import opened Model
  import opened Instructions
  import opened Totals
  import opened Soundness
  import opened LedgerSafety
  import opened Runs
  import opened Books
  import opened Solvency
  import opened Totality
  import opened Examples
  import opened RoundTrips
  import P = Price
  import L = LedgerOps

  /** What partial_unstake converts to u64: the active stake after the whole delta. */
  function TotalTarget(w: World): int {
    w.state.ledger.totalActive + StakeDelta(w.state, w.chain.reserveLamports)
  }

  /** Tickets within the lamports under control keep the target from going negative. */
  lemma CoveredTicketsKeepTarget(w: World)
    requires P.Covered(w) && w.state.ticketBalance <= Control(w.state)
    ensures TotalTarget(w) >= 0
  {
  }

  /** From initialize on, without slashing, the panic of partial_unstake is out of reach. */
  lemma NoPanicWithoutSlash(w: World, steps: seq<Step>, floor: nat)
    requires Initialized(w) && floor <= w.state.cfg.minStake && GentleRun(w, steps, floor)
    ensures TotalTarget(Run(w, steps)) >= 0
  {
    InitializedIsSolvent(w, floor);
    RunSolvent(w, steps, floor);
    CoveredTicketsKeepTarget(Run(w, steps));
  }

  // ---------- a slashed world ----------

  const TICKET: Key := Address(7)

  /** One stake recorded as `recorded`, worth `stake` on chain, and one ticket of `ticket`. */
  function Staked(recorded: nat, stake: nat, ticket: nat): World {
    var w := Example(Ledger([Record(recorded, 1, Active)], [ValidatorRecord(VOTE, recorded, 1, 0, 0)], recorded, 0, 0, 1,
                            Done),
                     {VOTE}, map[Address(1) := StakeOf(stake, false)], 0);
    World(w.state.(ticketCount := 1, ticketBalance := ticket),
          w.chain.(tickets := map[TICKET := Ticket(ticket, 0)]))
  }

  lemma OneRecord(k: Kind, a: Accounts, r: StakeRecord)
    ensures Total(k, a, [r]) == Weight(k, a, r)
  {
    assert [r][..0] == [];
  }

  lemma OneValidator(m: Measure, v: ValidatorRecord)
    ensures Sum(m, [v]) == Gauge(m, v)
  {
    assert [v][..0] == [];
  }

  lemma StakedIsOk(recorded: nat, stake: nat, ticket: nat)
    ensures WorldOk(Staked(recorded, stake, ticket))
  {
    var w := Staked(recorded, stake, ticket);
    var l, a := w.state.ledger, w.chain.accounts;
    forall k: Kind ensures Total(k, a, l.stakes) == Weight(k, a, l.stakes[0]) {
      assert l.stakes == [l.stakes[0]];
      OneRecord(k, a, l.stakes[0]);
    }
    assert l.validators == [l.validators[0]];
    OneValidator(Balance, l.validators[0]);
    OneValidator(Score, l.validators[0]);
    assert Sum(Balance, l.validators) == recorded && Sum(Score, l.validators) == 1;
    assert l.validators[0].vote == VOTE;
    forall vote ensures vote in w.chain.flags <==> Listed(l.validators, vote) {
      if vote == VOTE {
        assert Listed(l.validators, vote);
      }
    }
    assert Total(ActiveFor(VOTE), a, l.stakes) == recorded;
    assert forall vote :: vote != VOTE ==> Total(ActiveFor(vote), a, l.stakes) == 0;
    assert Total(DelayedStake, a, l.stakes) == 0 && Total(EmergencyStake, a, l.stakes) == 0;
  }

  lemma StakedIsSolvent(recorded: nat, ticket: nat)
    requires ticket <= recorded
    ensures Solvent(Staked(recorded, recorded, ticket), 0)
  {
    StakedIsOk(recorded, recorded, ticket);
    TicketIn(map[], TICKET, Ticket(ticket, 0));
    assert map[][TICKET := Ticket(ticket, 0)] == Staked(recorded, recorded, ticket).chain.tickets;
  }

  lemma SlashIsPermitted(recorded: nat, stake: nat, ticket: nat)
    ensures Permitted(Staked(recorded, recorded, ticket).chain, Staked(recorded, stake, ticket).chain)
  {
  }

  /** The slash is seen. */
  lemma SlashIsRecorded(recorded: nat, stake: nat, ticket: nat)
    requires stake < recorded <= U64_MAX
    ensures UpdateActive(Staked(recorded, stake, ticket), 0, Address(1), 0, false) == Some(Staked(stake, stake, ticket))
  {
    var w, w' := Staked(recorded, stake, ticket), Staked(stake, stake, ticket);
    var l, l' := w.state.ledger, w'.state.ledger;
    assert l'.stakes == l.stakes[0 := l'.stakes[0]] && l'.validators == l.validators[0 := l'.validators[0]];
    assert L.Recognize(l, 0, 0) == Some(l);
    assert L.Observe(l, 0, 0, stake, 0) == Some(l');
    assert w.chain.accounts[Address(1) := StakeOf(stake, false)] == w.chain.accounts;
    assert SettleActive(w, 0, Address(1), 0, recorded, false) == Some(w');
    assert UpdateActiveCore(w, 0, Address(1), 0, false) == Some(w');
  }

  /** Once the only stake is worth less than the tickets, every partial_unstake whose checks hold
      panics: the unstake delta exceeds the active stake. */
  lemma SlashedPartialUnstakePanics(recorded: nat, stake: nat, ticket: nat, desired: nat, splitAccount: Key)
    requires stake < ticket <= recorded <= U64_MAX && desired >= 10_000_000
    ensures var w := Staked(recorded, recorded, ticket);
            var steps := [Elsewhere(Staked(recorded, stake, ticket).chain), DoUpdateActive(0, Address(1), 0, false)];
            var after := Run(w, steps);
            && Solvent(w, 0) && Permitted(w.chain, Staked(recorded, stake, ticket).chain)
            && after == Staked(stake, stake, ticket) && WorldOk(after)
            && TotalTarget(after) == stake - ticket
            && PartialUnstakeGuards(after, 0, 0, desired)
            && PartialUnstake(after, 0, Address(1), 0, desired, splitAccount) == None
  {
    var w, slashed := Staked(recorded, recorded, ticket), Staked(recorded, stake, ticket);
    var after := Staked(stake, stake, ticket);
    StakedIsSolvent(recorded, ticket);
    StakedIsOk(stake, stake, ticket);
    SlashIsPermitted(recorded, stake, ticket);
    SlashIsRecorded(recorded, stake, ticket);
    RunSlash(w, slashed, after);
  }

  // ---------- the pool ----------

  /** One stake recorded as `recorded`, worth `stake` on chain, and `msol` mSOL, `leg` of it in the pool. */
  function Pooled(recorded: nat, stake: nat, msol: nat, leg: nat, price: nat): World {
    var w := Staked(recorded, stake, 0);
    World(w.state.(ticketCount := 0, msolSupply := msol, msolPrice := price),
          w.chain.(tickets := map[], msolMinted := msol, msolLeg := leg))
  }

  lemma PooledIsSolvent(recorded: nat, msol: nat, leg: nat, price: nat, floor: nat)
    requires leg <= msol && floor <= 10_000_000 && floor <= recorded
    ensures Solvent(Pooled(recorded, recorded, msol, leg, price), floor)
  {
    StakedIsOk(recorded, recorded, 0);
    var w := Pooled(recorded, recorded, msol, leg, price);
    assert w.state.ledger == Staked(recorded, recorded, 0).state.ledger;
    assert WorldOk(w);
  }

  lemma PooledSlash(recorded: nat, stake: nat, msol: nat) returns (price: nat)
    requires stake < recorded <= U64_MAX
    requires 0 < msol && ValueFromShares(PRICE_DENOMINATOR, stake, msol).Some?
    ensures UpdateActive(Pooled(recorded, stake, msol, msol, PRICE_DENOMINATOR), 0, Address(1), 0, false)
            == Some(Pooled(stake, stake, msol, msol, price))
  {
    price := ValueFromShares(PRICE_DENOMINATOR, stake, msol).value;
    var w, w' := Pooled(recorded, stake, msol, msol, PRICE_DENOMINATOR), Pooled(stake, stake, msol, msol, price);
    var l, l' := w.state.ledger, w'.state.ledger;
    assert l'.stakes == l.stakes[0 := l'.stakes[0]] && l'.validators == l.validators[0 := l'.validators[0]];
    assert L.Recognize(l, 0, 0) == Some(l);
    assert L.Observe(l, 0, 0, stake, 0) == Some(l');
    assert w.chain.accounts[Address(1) := StakeOf(stake, false)] == w.chain.accounts;
    assert SettleActive(w, 0, Address(1), 0, recorded, false) == Some(w');
    assert UpdateActiveCore(w, 0, Address(1), 0, false) == Some(w');
  }

  lemma PooledValue(stake: nat, msol: nat, price: nat)
    requires msol > 0
    ensures PoolValue(Pooled(stake, stake, msol, msol, price)) == stake
  {
    DivExact(msol, stake);
  }

  /** The documented promise of the pool does not survive a slash: from a solvent world whose mSOL is
      all in the pool, a slash takes the pool's value down with it as soon as it is recorded. */
  lemma SlashShrinksPool(recorded: nat, stake: nat, msol: nat)
    requires stake < recorded <= U64_MAX && 0 < msol && ValueFromShares(PRICE_DENOMINATOR, stake, msol).Some?
    ensures var w := Pooled(recorded, recorded, msol, msol, PRICE_DENOMINATOR);
            var slash := Pooled(recorded, stake, msol, msol, PRICE_DENOMINATOR).chain;
            var after := Run(w, [Elsewhere(slash), DoUpdateActive(0, Address(1), 0, false)]);
            && Solvent(w, 0) && Permitted(w.chain, slash)
            && PoolValue(w) == recorded && PoolValue(after) == stake
  {
    var w := Pooled(recorded, recorded, msol, msol, PRICE_DENOMINATOR);
    var slashed := Pooled(recorded, stake, msol, msol, PRICE_DENOMINATOR);
    PooledIsSolvent(recorded, msol, msol, PRICE_DENOMINATOR, 0);
    PooledSlashIsPermitted(recorded, stake, msol);
    var price := PooledSlash(recorded, stake, msol);
    var after := Pooled(stake, stake, msol, msol, price);
    RunSlash(w, slashed, after);
    PooledValue(recorded, msol, PRICE_DENOMINATOR);
    PooledValue(stake, msol, price);
  }

  lemma PooledSlashIsPermitted(recorded: nat, stake: nat, msol: nat)
    ensures Permitted(Pooled(recorded, recorded, msol, msol, PRICE_DENOMINATOR).chain,
                      Pooled(recorded, stake, msol, msol, PRICE_DENOMINATOR).chain)
  {
  }

  lemma RunSlash(w: World, slashed: World, after: World)
    requires Permitted(w.chain, slashed.chain) && slashed.state == w.state
    requires UpdateActive(slashed, 0, Address(1), 0, false) == Some(after)
    ensures Run(w, [Elsewhere(slashed.chain), DoUpdateActive(0, Address(1), 0, false)]) == after
  {
    var steps := [Elsewhere(slashed.chain), DoUpdateActive(0, Address(1), 0, false)];
    RunStep(w, steps, slashed);
    RunStep(slashed, steps[1..], after);
    assert steps[1..][1..] == [];
  }
}
