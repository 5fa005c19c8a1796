/** The mSOL price the program stores: who sets it, to what, and that it never promises too much. */
module StoredPrice {
  import opened Base
  import opened Calc
  import opened Model
  import opened Instructions
  import opened Parts
  import opened Runs
  import opened Frames
  import opened Books
  import opened Solvency
  import opened Price
  import opened PriceRuns
  import opened RoundTrips
  import L = LedgerOps

  /** The stored price is what one mSOL is worth now, rounded down to a multiple of 2^-32 lamports;
      without any mSOL it is one. */
  predicate PriceIsCurrent(s: State) {
    if s.msolSupply > 0 then IsFloor(s.msolPrice, PRICE_DENOMINATOR * Virtual(s), s.msolSupply)
    else s.msolPrice == PRICE_DENOMINATOR
  }

  lemma UpdatePriceIsCurrent(s: State, s': State)
    requires UpdatePrice(s) == Some(s')
    ensures PriceIsCurrent(s')
  {
    if s.msolSupply > 0 {
      ValueIsFloor(PRICE_DENOMINATOR, Virtual(s), s.msolSupply);
    }
  }

  lemma SettleActivePrices(w: World, i: nat, account: Key, j: nat, last: nat, treasury: bool, w': World)
    requires i < |w.state.ledger.stakes| && j < |w.state.ledger.validators|
    requires account in w.chain.accounts && w.chain.accounts[account].delegation.Some?
    requires SettleActive(w, i, account, j, last, treasury) == Some(w')
    ensures PriceIsCurrent(w'.state)
  {
    var source := w.chain.accounts[account];
    var extra := SaturatingSub(source.lamports - source.rent, source.delegation.value.stake);
    var s1 := CreditExtra(w.state, extra, treasury).value;
    var s2 := FollowDelegation(s1, i, j, source.delegation.value.stake, last, w.chain.clock.epoch, treasury).value;
    UpdatePriceIsCurrent(s2, w'.state);
  }

  lemma ProgressKeepsCurrent(s: State, l: Ledger)
    requires PriceIsCurrent(s) && L.Progress(s.ledger) == Some(l)
    ensures PriceIsCurrent(s.(ledger := l))
  {
    ProgressKeepsTotals(s.ledger, l);
  }

  /** update_active stores the price of the world it leaves, with all it credited and minted. */
  lemma UpdateActiveStoresPrice(w: World, i: nat, account: Key, j: nat, treasury: bool, w': World)
    requires UpdateActive(w, i, account, j, treasury) == Some(w')
    ensures PriceIsCurrent(w'.state)
  {
    var w1 := UpdateActiveCore(w, i, account, j, treasury).value;
    var s1, l1 := Parts.UpdateActiveSettles(w, i, account, j, treasury, w1);
    SettleActivePrices(World(s1.(ledger := l1), w.chain), i, account, j, w.state.ledger.stakes[i].lamports, treasury, w1);
    ProgressKeepsCurrent(w1.state, w'.state.ledger);
  }

  lemma SettleDeactivatedPrices(w: World, i: nat, account: Key, treasury: bool, w': World)
    requires i < |w.state.ledger.stakes| && account in w.chain.accounts
    requires SettleDeactivated(w, i, account, treasury) == Some(w')
    ensures PriceIsCurrent(w'.state)
  {
    var r, source := w.state.ledger.stakes[i], w.chain.accounts[account];
    var s1 := FeeOnGrowth(w.state, r.lamports, source.lamports - source.rent, treasury).value;
    DropRecordPrices(s1.(reserve := s1.reserve + (source.lamports - source.rent)), i, w'.state);
  }

  lemma DropRecordPrices(s: State, i: nat, s': State)
    requires i < |s.ledger.stakes| && DropRecord(s, i) == Some(s')
    ensures PriceIsCurrent(s')
  {
    var l := L.Draw(s.ledger, s.ledger.stakes[i].lamports, s.ledger.stakes[i].emergency).value;
    UpdatePriceIsCurrent(s.(ledger := l.(stakes := SwapRemove(l.stakes, i))), s');
  }

  /** So does update_deactivated, with the record gone. */
  lemma UpdateDeactivatedStoresPrice(w: World, i: nat, account: Key, j: nat, treasury: bool, w': World)
    requires UpdateDeactivated(w, i, account, j, treasury) == Some(w')
    ensures PriceIsCurrent(w'.state)
  {
    var w1 := UpdateDeactivatedCore(w, i, account, j, treasury).value;
    UpdateDeactivatedCollects(w, i, account, j, treasury, w1);
    var s1, l1 := Resync(w.state, w.chain).value, L.Reclassify(w.state.ledger, i, j).value;
    ReclassifyKeeps(w.state.ledger, i, j, l1);
    SettleDeactivatedPrices(World(s1.(ledger := l1), w.chain), i, account, treasury, w1);
    ProgressKeepsCurrent(w1.state, w'.state.ledger);
  }

  // ---------- over runs ----------

  predicate Updates(step: Step) {
    step.DoUpdateActive? || step.DoUpdateDeactivated?
  }

  lemma MovingLeavesPrice(w: World, step: Step, w': World)
    requires MovesStake(step) && Instruction(w, step) == Some(w')
    ensures w'.state.msolPrice == w.state.msolPrice
  {
    match step {
      case DoStakeReserve(j, vote, account) =>
        var w1, amount := StakeReserveDelegates(w, j, vote, account, w');
      case DoDeactivateStake(i, account, j, split) =>
        var amount := DeactivateStakeCools(w, i, account, j, split, w');
      case DoPartialUnstake(i, account, j, desired, split) =>
        if w' != w {
          var w1, moved := PartialUnstakeCools(w, i, account, j, desired, split, w');
        }
      case _ =>
    }
  }

  lemma TradesLeavePrice(w: World, step: Step, w': World)
    requires Trades(step) || Tickets(step) || step.Configure?
    requires Instruction(w, step) == Some(w')
    ensures w'.state.msolPrice == w.state.msolPrice
  {
  }

  /** Nothing but the two updates touches the stored price. */
  lemma OthersLeavePrice(w: World, step: Step)
    requires !Updates(step)
    ensures Next(w, step).state.msolPrice == w.state.msolPrice
  {
    if !step.Elsewhere? && Instruction(w, step).Some? {
      var w' := Instruction(w, step).value;
      if MovesStake(step) {
        MovingLeavesPrice(w, step, w');
      } else if step.DoWithdrawStakeAccount? {
        var split, burned := WithdrawSplits(w, step.i, step.account, step.j, step.msol, step.treasury,
                                            step.splitAccount, w');
      } else if !step.DoDepositStakeAccount? {
        TradesLeavePrice(w, step, w');
      }
    }
  }

  /** The stored price is not above what one mSOL is worth. */
  predicate PriceIsHonest(s: State) {
    s.msolPrice * s.msolSupply <= PRICE_DENOMINATOR * Virtual(s)
  }

  lemma HonestScaled(p: nat, s: nat, d: nat, v: nat, s': nat, v': nat)
    requires s > 0 && p * s <= d * v && v' * s >= v * s'
    ensures p * s' <= d * v'
  {
    MulMono(p * s, d * v, s');
    MulMono(v * s', v' * s, d);
    Associate(p, s, s');
    Associate(p, s', s);
    Associate(d, v, s');
    Associate(d, v', s);
    CancelMul(p * s', d * v', s);
  }

  lemma CurrentIsHonest(s: State)
    requires PriceIsCurrent(s)
    ensures PriceIsHonest(s)
  {
  }

  lemma NextStaysHonest(w: World, step: Step, floor: nat)
    requires Solvent(w, floor) && w.chain.msolMinted > 0 && !BurnsRounded(w, step) && PriceIsHonest(w.state)
    ensures PriceIsHonest(Next(w, step).state)
  {
    var w' := Next(w, step);
    if Updates(step) && Instruction(w, step).Some? {
      match step {
        case DoUpdateActive(i, account, j, treasury) => UpdateActiveStoresPrice(w, i, account, j, treasury, w');
        case DoUpdateDeactivated(i, account, j, treasury) =>
          UpdateDeactivatedStoresPrice(w, i, account, j, treasury, w');
      }
      CurrentIsHonest(w'.state);
    } else if !Updates(step) {
      OthersLeavePrice(w, step);
      NextKeepsPriceIff(w, step, floor);
      HonestScaled(w.state.msolPrice, w.state.msolSupply, PRICE_DENOMINATOR, Virtual(w.state), w'.state.msolSupply,
                   Virtual(w'.state));
    }
  }

  /** Between updates the stored price grows stale, but without slashing never too high: once an update
      has set it, it is at most what one mSOL is worth, on every run with a positive supply. */
  lemma {:induction false} StoredPriceIsHonest(w: World, steps: seq<Step>, floor: nat)
    requires Solvent(w, floor) && GentleRun(w, steps, floor) && Funded(w, steps)
    requires PriceIsHonest(w.state)
    ensures PriceIsHonest(Run(w, steps).state)
    decreases |steps|
  {
    if steps != [] {
      NextSolvent(w, steps[0], floor);
      NextStaysHonest(w, steps[0], floor);
      StoredPriceIsHonest(Next(w, steps[0]), steps[1..], floor);
    }
  }
}
