/** update_active against the chain: its closing assertion, and what doing it twice changes. */
module Reconcile {
  import opened Base
  import opened Calc
  import opened Model
  import opened Instructions
  import opened Totals
  import opened LedgerSafety
  import opened Runs
  import opened LedgerRuns
  import opened Books
  import opened Price
  import opened Parts
  import L = LedgerOps

  /** While the real reserve covers the virtual one, the closing assertion never fires. */
  lemma ClosingAssertionHolds(w: World, i: nat, account: Key, j: nat, treasury: bool)
    requires Covered(w)
    ensures UpdateActiveCore(w, i, account, j, treasury) == UpdateActiveBody(w, i, account, j, treasury)
  {
    if UpdateActiveBody(w, i, account, j, treasury).Some? {
      var w1 := UpdateActiveBody(w, i, account, j, treasury).value;
      BodyReserve(w, i, account, j, treasury, w1);
    }
  }

  lemma BodyReserve(w: World, i: nat, account: Key, j: nat, treasury: bool, w1: World)
    requires UpdateActiveBody(w, i, account, j, treasury) == Some(w1)
    ensures w1.state.cfg == w.state.cfg && w1.chain.reserveLamports >= w.chain.reserveLamports
    ensures w1.state.reserve == SaturatingSub(w.chain.reserveLamports, w.state.cfg.rent)
                                + (w1.chain.reserveLamports - w.chain.reserveLamports)
  {
  }

  /** On every run from initialize neither impossible branch of begin is taken, and update_active
      fails neither its closing assertion nor its progression check. */
  lemma ImpossibleBranches(w: World, steps: seq<Step>, i: nat, account: Key, j: nat, treasury: bool)
    requires Initialized(w)
    ensures var now := Run(w, steps);
            && now.chain.reserveLamports >= now.state.reserve + now.state.cfg.rent
            && now.chain.msolMinted <= now.state.msolSupply
            && (UpdateActive(now, i, account, j, treasury).Some?
                <==> UpdateActiveBody(now, i, account, j, treasury).Some?)
  {
    var now := Run(w, steps);
    BooksAlwaysHold(w, steps);
    LedgerAlwaysHolds(w, steps);
    ClosingAssertionHolds(now, i, account, j, treasury);
    UpdateActiveOk(now, i, account, j, treasury);
  }

  // ---------- doing it twice ----------

  /** The u64 fields an update adds to are within their width. */
  predicate InWidth(w: World, j: nat) {
    && w.chain.reserveLamports <= U64_MAX && w.chain.msolMinted <= U64_MAX
    && j < |w.state.ledger.validators|
    && w.state.ledger.validators[j].balance <= U64_MAX
    && w.state.ledger.validators[j].upgraderBalance <= U64_MAX
    && (w.state.ledger.upgrader.IteratingStakes? ==> w.state.ledger.upgrader.active <= U64_MAX)
  }

  /** What an update leaves when it leaves the migration where an update may run again. */
  predicate Updated(w: World, i: nat, account: Key, j: nat) {
    var l := w.state.ledger;
    && !w.state.cfg.paused && !l.upgrader.IteratingValidators?
    && i < |l.stakes| && j < |l.validators| && l.stakes[i].account == account && l.stakes[i].status.Active?
    && l.stakes[i].updatedEpoch == w.chain.clock.epoch
    && account in w.chain.accounts && w.chain.accounts[account].delegation.Some?
    && w.chain.accounts[account].delegation.value.voter == l.validators[j].vote
    && !w.chain.accounts[account].delegation.value.deactivating
    && w.chain.accounts[account].delegation.value.stake == l.stakes[i].lamports
    && w.chain.accounts[account].rent <= w.chain.accounts[account].lamports
    && w.chain.accounts[account].lamports - w.chain.accounts[account].rent <= l.stakes[i].lamports
    && ReserveAgrees(w) && w.chain.msolMinted == w.state.msolSupply && ControlFits(w.state)
    && MsolToSol(w.state, PRICE_DENOMINATOR) == Some(w.state.msolPrice)
    && L.Progress(l) == Some(l)
  }

  lemma CoreUpdates(w: World, i: nat, account: Key, j: nat, treasury: bool, w1: World)
    requires UpdateActiveCore(w, i, account, j, treasury) == Some(w1)
    requires !w1.state.ledger.upgrader.IteratingValidators? && L.Progress(w1.state.ledger) == Some(w1.state.ledger)
    ensures Updated(w1, i, account, j)
  {
    var s1, s2, s3, extra := UpdateActiveStages(w, i, account, j, treasury, w1);
    var l1 := UpdateActiveCoreLedger(w, i, account, j, treasury, w1);
    RecognizeShape(w.state.ledger, l1, i, j);
    ObserveShape(l1, w1.state.ledger, i, j, w.chain.accounts[account].delegation.value.stake, w.chain.clock.epoch);
  }

  lemma UpdatedIsFixed(w: World, i: nat, account: Key, j: nat, treasury: bool)
    requires Updated(w, i, account, j) && InWidth(w, j)
    ensures UpdateActiveCore(w, i, account, j, treasury) == Some(w)
  {
    var l := w.state.ledger;
    NothingToCharge(w.state, treasury);
    assert l.stakes[i := l.stakes[i]] == l.stakes;
    assert l.validators[j := l.validators[j]] == l.validators;
    assert L.Observe(l, i, j, l.stakes[i].lamports, w.chain.clock.epoch) == Some(l);
    assert w.chain.accounts[account := w.chain.accounts[account]] == w.chain.accounts;
    assert Resync(w.state, w.chain) == Some(w.state);
    assert UpdatePrice(w.state) == Some(w.state);
  }

  /** No rewards, no fee. */
  lemma NothingToCharge(s: State, treasury: bool)
    requires ControlFits(s) && s.msolSupply <= U64_MAX
    ensures MintFee(s, 0, treasury) == Some(s)
  {
    assert ApplyFee(s.cfg.rewardFee, 0) == 0;
  }

  /** With an unchanged chain a second update_active changes nothing at all, whether or not fees can
      be paid this time. */
  lemma UpdateActiveRepeats(w: World, i: nat, account: Key, j: nat, treasury: bool, w1: World, again: bool)
    requires UpdateActive(w, i, account, j, treasury) == Some(w1)
    requires !w1.state.ledger.upgrader.IteratingValidators? && InWidth(w1, j)
    ensures UpdateActive(w1, i, account, j, again) == Some(w1)
  {
    var core := UpdateActiveCore(w, i, account, j, treasury).value;
    assert core == w1;
    CoreUpdates(w, i, account, j, treasury, w1);
    UpdatedIsFixed(w1, i, account, j, again);
  }
}
