/** When the two updates succeed: exactly when their checks hold and their results fit. */
module UpdateTotality {
  import opened Base
  import opened Calc
  import opened Model
  import opened Instructions
  import opened Parts
  import opened Totals
  import opened Soundness
  import opened Migration
  import opened LedgerSafety
  import opened Price
  import opened Totality
  import opened Reconcile
  import L = LedgerOps

  // ---------- fees ----------

  /** The supply once the fee on `incoming` is minted, with `control` lamports under control. */
  function SupplyWithFee(s: State, control: int, supply: nat, incoming: nat, treasury: bool): Option<nat> {
    if !treasury then Some(supply)
    else if control < 0 || control > U64_MAX then None
    else
      var fee :- SharesFromValue(ApplyFee(s.cfg.rewardFee, incoming), SaturatingSub(control, s.ticketBalance), supply);
      AddIfAny(supply, fee)
  }

  lemma MintFeeSupply(s: State, incoming: nat, treasury: bool)
    ensures MintFee(s, incoming, treasury)
            == var supply := SupplyWithFee(s, Control(s), s.msolSupply, incoming, treasury);
               if supply.Some? then Some(s.(msolSupply := supply.value)) else None
  {
  }

  /** Rewards have a fee, a slash has none. */
  function SupplyOnGrowth(s: State, control: int, supply: nat, last: nat, now: nat, treasury: bool): Option<nat> {
    if now >= last then SupplyWithFee(s, control, supply, now - last, treasury) else Some(supply)
  }

  lemma FeeOnGrowthSupply(s: State, last: nat, now: nat, treasury: bool)
    ensures FeeOnGrowth(s, last, now, treasury)
            == var supply := SupplyOnGrowth(s, Control(s), s.msolSupply, last, now, treasury);
               if supply.Some? then Some(s.(msolSupply := supply.value)) else None
  {
    if now >= last {
      MintFeeSupply(s, now - last, treasury);
    }
  }

  /** Extra lamports count before their fee. */
  function SupplyOnExtra(s: State, control: int, supply: nat, extra: nat, treasury: bool): Option<nat> {
    if extra == 0 then Some(supply) else SupplyWithFee(s, control + extra, supply, extra, treasury)
  }

  lemma CreditExtraSupply(s: State, extra: nat, treasury: bool)
    ensures CreditExtra(s, extra, treasury)
            == var supply := SupplyOnExtra(s, Control(s), s.msolSupply, extra, treasury);
               if supply.Some? && (extra == 0 || s.reserve + extra <= U64_MAX)
               then Some(s.(reserve := s.reserve + extra, msolSupply := supply.value)) else None
  {
    if extra > 0 && s.reserve + extra <= U64_MAX {
      MintFeeSupply(s.(reserve := s.reserve + extra), extra, treasury);
    }
  }

  /** The price of `control` lamports over `supply` mSOL fits. */
  predicate PriceFits(s: State, control: int, supply: nat) {
    && 0 <= control <= U64_MAX
    && ValueFromShares(PRICE_DENOMINATOR, SaturatingSub(control, s.ticketBalance), supply).Some?
  }

  /** Lamports under control once the virtual reserve is set to the real one. */
  function ControlNow(w: World): nat {
    w.state.ledger.totalActive + w.state.ledger.delayedCooling + w.state.ledger.emergencyCooling
    + SaturatingSub(w.chain.reserveLamports, w.state.cfg.rent)
  }

  // ---------- update_active ----------

  /** The checks of update_active that come before any arithmetic. */
  predicate UpdateActiveGuards(w: World, i: nat, j: nat)
    requires Healthy(w, i) && j < |w.state.ledger.validators|
  {
    var s, a := w.state, w.chain.accounts;
    var r := s.ledger.stakes[i];
    && !s.cfg.paused && !s.ledger.upgrader.IteratingValidators? && !r.status.Deactivating?
    && ControlFits(s) && s.reserve + s.cfg.rent <= U64_MAX
    && a[r.account].delegation.value.voter == s.ledger.validators[j].vote
    && a[r.account].rent <= a[r.account].lamports
  }

  /** Lamports above rent and delegation. */
  function Extra(a: StakeAccount): nat
    requires a.delegation.Some?
  {
    SaturatingSub(a.lamports, a.rent + a.delegation.value.stake)
  }

  /** Lamports under control once the extra lamports and the new delegation count as well. */
  function ControlAfter(w: World, i: nat): int
    requires Healthy(w, i)
  {
    var account := w.chain.accounts[w.state.ledger.stakes[i].account];
    ControlNow(w) + Extra(account) + account.delegation.value.stake - w.state.ledger.stakes[i].lamports
  }

  /** The mSOL supply once both fees are minted. */
  function SupplyAfter(w: World, i: nat, treasury: bool): Option<nat>
    requires Healthy(w, i)
  {
    var s, account := w.state, w.chain.accounts[w.state.ledger.stakes[i].account];
    var supply :- SupplyOnExtra(s, ControlNow(w), w.chain.msolMinted, Extra(account), treasury);
    SupplyOnGrowth(s, ControlNow(w) + Extra(account), supply, s.ledger.stakes[i].lamports,
                   account.delegation.value.stake, treasury)
  }

  /** The results fit their u64 fields: the fees, the totals, the validator's balance, and the price. */
  predicate UpdateFits(w: World, i: nat, j: nat, treasury: bool)
    requires Healthy(w, i) && j < |w.state.ledger.validators|
  {
    var s, supply := w.state, SupplyAfter(w, i, treasury);
    var stake := w.chain.accounts[s.ledger.stakes[i].account].delegation.value.stake;
    && supply.Some? && PriceFits(s, ControlAfter(w, i), supply.value)
    && s.ledger.validators[j].balance + stake - s.ledger.stakes[i].lamports <= U64_MAX
  }

  lemma RecognizeAlways(l: Ledger, a: Accounts, i: nat, j: nat) returns (l1: Ledger)
    requires Sound(l, a) && FitsFields(l) && !l.upgrader.IteratingValidators?
    requires i < |l.stakes| && j < |l.validators| && !l.stakes[i].status.Deactivating?
    requires !IsDeactivating(a, l.stakes[i].account) && Voter(a, l.stakes[i].account) == Some(l.validators[j].vote)
    ensures L.Recognize(l, i, j) == Some(l1) && Sound(l1, a) && !l1.upgrader.IteratingValidators?
    ensures i < |l1.stakes| && j < |l1.validators| && l1.stakes[i].status.Active?
    ensures l1.stakes[i].lamports == l.stakes[i].lamports && l1.stakes[i].account == l.stakes[i].account
    ensures l1.validators[j].balance == l.validators[j].balance && l1.validators[j].vote == l.validators[j].vote
    ensures l1.totalActive == l.totalActive && l1.delayedCooling == l.delayedCooling
    ensures l1.emergencyCooling == l.emergencyCooling
  {
    if l.upgrader.IteratingStakes? {
      RecognizeTotal(l, a, i, j);
    }
    l1 := L.Recognize(l, i, j).value;
    RecognizeSound(l, a, l1, i, j);
  }

  /** Growth fits exactly when the balance and the total do: the counters of the migration are below. */
  lemma ObserveFits(l: Ledger, a: Accounts, i: nat, j: nat, stake: nat, epoch: nat)
    requires Sound(l, a) && !l.upgrader.IteratingValidators?
    requires i < |l.stakes| && j < |l.validators| && l.stakes[i].status.Active?
    requires Voter(a, l.stakes[i].account) == Some(l.validators[j].vote)
    requires l.totalActive + stake - l.stakes[i].lamports <= U64_MAX
    requires l.upgrader.IteratingStakes? ==> l.upgrader.active <= l.totalActive
    ensures l.stakes[i].lamports <= l.totalActive
    ensures L.Observe(l, i, j, stake, epoch).Some?
            <==> stake < l.stakes[i].lamports || l.validators[j].balance + stake - l.stakes[i].lamports <= U64_MAX
  {
    WeightInTotal(ActiveStake, a, l.stakes, i);
    if l.upgrader.IteratingStakes? {
      assert BalanceCovers(l.validators[j], a, l.stakes);
    }
    if stake < l.stakes[i].lamports {
      SlashTotal(l, a, i, j, stake, epoch);
    }
  }

  lemma ObserveTotals(l: Ledger, l': Ledger, i: nat, j: nat, stake: nat, epoch: nat)
    requires i < |l.stakes| && j < |l.validators| && L.Observe(l, i, j, stake, epoch) == Some(l')
    ensures l'.totalActive + l.stakes[i].lamports == l.totalActive + stake
    ensures l'.delayedCooling == l.delayedCooling && l'.emergencyCooling == l.emergencyCooling
  {
  }

  lemma SettleActiveTotal(w: World, i: nat, account: Key, j: nat, treasury: bool)
    requires i < |w.state.ledger.stakes| && j < |w.state.ledger.validators|
    requires account in w.chain.accounts && w.chain.accounts[account].delegation.Some?
    requires w.chain.accounts[account].rent <= w.chain.accounts[account].lamports
    ensures var s, source := w.state, w.chain.accounts[account];
            var last, stake, extra := s.ledger.stakes[i].lamports, source.delegation.value.stake, Extra(source);
            var first := SupplyOnExtra(s, Control(s), s.msolSupply, extra, treasury);
            SettleActive(w, i, account, j, last, treasury).Some?
            <==> && (s.reserve + extra <= U64_MAX || extra == 0)
                 && L.Observe(s.ledger, i, j, stake, w.chain.clock.epoch).Some?
                 && first.Some?
                 && var second := SupplyOnGrowth(s, Control(s) + extra, first.value, last, stake, treasury);
                 second.Some? && PriceFits(s, Control(s) + extra + stake - last, second.value)
  {
    var s, source := w.state, w.chain.accounts[account];
    var last, stake, extra := s.ledger.stakes[i].lamports, source.delegation.value.stake, Extra(source);
    CreditExtraSupply(s, extra, treasury);
    var first := SupplyOnExtra(s, Control(s), s.msolSupply, extra, treasury);
    if first.Some? && L.Observe(s.ledger, i, j, stake, w.chain.clock.epoch).Some? {
      var s1 := s.(reserve := s.reserve + extra, msolSupply := first.value);
      FeeOnGrowthSupply(s1, last, stake, treasury);
      ObserveTotals(s.ledger, L.Observe(s.ledger, i, j, stake, w.chain.clock.epoch).value, i, j, stake,
                    w.chain.clock.epoch);
    }
  }

  lemma BodySettles(w: World, i: nat, j: nat, treasury: bool, l1: Ledger)
    requires Healthy(w, i) && j < |w.state.ledger.validators| && UpdateActiveGuards(w, i, j)
    requires L.Recognize(w.state.ledger, i, j) == Some(l1)
    ensures var account := w.state.ledger.stakes[i].account;
            && Resync(w.state, w.chain).Some?
            && i < |l1.stakes| && j < |l1.validators|
            && UpdateActiveBody(w, i, account, j, treasury)
               == SettleActive(World(Resync(w.state, w.chain).value.(ledger := l1), w.chain), i, account, j,
                               w.state.ledger.stakes[i].lamports, treasury)
  {
  }

  /** Fees and price depend on the state through its settings and its tickets. */
  lemma SameFees(s: State, s1: State, control: int, supply: nat, a: nat, b: nat, treasury: bool)
    requires s1.cfg == s.cfg && s1.ticketBalance == s.ticketBalance
    ensures SupplyOnExtra(s1, control, supply, a, treasury) == SupplyOnExtra(s, control, supply, a, treasury)
    ensures SupplyOnGrowth(s1, control, supply, a, b, treasury) == SupplyOnGrowth(s, control, supply, a, b, treasury)
    ensures PriceFits(s1, control, supply) == PriceFits(s, control, supply)
  {
  }

  lemma ResyncedSettles(w: World, i: nat, j: nat, treasury: bool, w1: World)
    requires Healthy(w, i) && j < |w.state.ledger.validators| && UpdateActiveGuards(w, i, j)
    requires w1.chain == w.chain && w1.state.cfg == w.state.cfg && w1.state.ticketBalance == w.state.ticketBalance
    requires Control(w1.state) == ControlNow(w) && w1.state.msolSupply == w.chain.msolMinted
    requires i < |w1.state.ledger.stakes| && j < |w1.state.ledger.validators|
    requires w1.state.ledger.stakes[i].lamports == w.state.ledger.stakes[i].lamports
    ensures var account := w.state.ledger.stakes[i].account; var source := w.chain.accounts[account];
            var supply := SupplyAfter(w, i, treasury);
            SettleActive(w1, i, account, j, w.state.ledger.stakes[i].lamports, treasury).Some?
            <==> && (w1.state.reserve + Extra(source) <= U64_MAX || Extra(source) == 0)
                 && L.Observe(w1.state.ledger, i, j, source.delegation.value.stake, w.chain.clock.epoch).Some?
                 && supply.Some? && PriceFits(w.state, ControlAfter(w, i), supply.value)
  {
    var account := w.state.ledger.stakes[i].account;
    var source, last := w.chain.accounts[account], w.state.ledger.stakes[i].lamports;
    var stake, extra := source.delegation.value.stake, Extra(source);
    SettleActiveTotal(w1, i, account, j, treasury);
    SameFees(w.state, w1.state, ControlNow(w), w.chain.msolMinted, extra, 0, treasury);
    var first := SupplyOnExtra(w.state, ControlNow(w), w.chain.msolMinted, extra, treasury);
    if first.Some? {
      SameFees(w.state, w1.state, ControlNow(w) + extra, first.value, last, stake, treasury);
      var second := SupplyAfter(w, i, treasury);
      if second.Some? {
        SameFees(w.state, w1.state, ControlAfter(w, i), second.value, 0, 0, treasury);
      }
    }
  }

  lemma GuardedUpdateActive(w: World, i: nat, j: nat, treasury: bool)
    requires WorldOk(w) && FitsFields(w.state.ledger) && Healthy(w, i) && j < |w.state.ledger.validators|
    requires UpdateActiveGuards(w, i, j)
    ensures UpdateActiveBody(w, i, w.state.ledger.stakes[i].account, j, treasury).Some? <==> UpdateFits(w, i, j, treasury)
  {
    var s, a, account := w.state, w.chain.accounts, w.state.ledger.stakes[i].account;
    var stake := a[account].delegation.value.stake;
    var l1 := RecognizeAlways(s.ledger, a, i, j);
    var w1 := World(Resync(s, w.chain).value.(ledger := l1), w.chain);
    BodySettles(w, i, j, treasury, l1);
    ResyncedSettles(w, i, j, treasury, w1);
    if ControlAfter(w, i) <= U64_MAX {
      ObserveFits(l1, a, i, j, stake, w.chain.clock.epoch);
    }
  }

  /** update_active succeeds exactly when its checks hold and its results fit. */
  lemma UpdateActiveTotal(w: World, i: nat, j: nat, treasury: bool)
    requires WorldOk(w) && Price.Covered(w) && FitsFields(w.state.ledger)
    requires Healthy(w, i) && j < |w.state.ledger.validators|
    ensures UpdateActive(w, i, w.state.ledger.stakes[i].account, j, treasury).Some?
            <==> UpdateActiveGuards(w, i, j) && UpdateFits(w, i, j, treasury)
  {
    var account := w.state.ledger.stakes[i].account;
    UpdateActiveOk(w, i, account, j, treasury);
    ClosingAssertionHolds(w, i, account, j, treasury);
    if UpdateActiveGuards(w, i, j) {
      GuardedUpdateActive(w, i, j, treasury);
    } else if UpdateActiveBody(w, i, account, j, treasury).Some? {
      var s1, l1 := UpdateActiveSettles(w, i, account, j, treasury, UpdateActiveBody(w, i, account, j, treasury).value);
    }
  }

  // ---------- update_deactivated ----------

  /** The checks of update_deactivated that come before any arithmetic. */
  predicate UpdateDeactivatedGuards(w: World, i: nat, j: nat)
    requires i < |w.state.ledger.stakes| && j < |w.state.ledger.validators|
    requires RecordOk(w.chain.accounts, w.state.ledger.stakes[i])
  {
    var s, source := w.state, w.chain.accounts[w.state.ledger.stakes[i].account];
    && !s.cfg.paused && ControlFits(s) && s.reserve + s.cfg.rent <= U64_MAX
    && source.delegation.value.deactivating
    && source.delegation.value.voter == s.ledger.validators[j].vote
    && source.rent <= source.lamports
  }

  /** Its results fit: the fee, the reserve while it still holds the rent, and the price. */
  predicate CollectFits(w: World, i: nat, treasury: bool)
    requires i < |w.state.ledger.stakes| && RecordOk(w.chain.accounts, w.state.ledger.stakes[i])
    requires w.chain.accounts[w.state.ledger.stakes[i].account].rent
             <= w.chain.accounts[w.state.ledger.stakes[i].account].lamports
  {
    var s, source := w.state, w.chain.accounts[w.state.ledger.stakes[i].account];
    var last, balance := s.ledger.stakes[i].lamports, source.lamports - source.rent;
    var supply := SupplyOnGrowth(s, ControlNow(w), w.chain.msolMinted, last, balance, treasury);
    && supply.Some? && PriceFits(s, ControlNow(w) + balance - last, supply.value)
    && (SaturatingSub(w.chain.reserveLamports, s.cfg.rent) + source.lamports <= U64_MAX || source.lamports == 0)
  }

  lemma CollectAlways(l: Ledger, a: Accounts, i: nat, j: nat)
    requires Sound(l, a) && FitsFields(l) && l.totalActive + l.emergencyCooling <= U64_MAX
    requires i < |l.stakes| && j < |l.validators| && Collectable(l, i, j)
    requires IsDeactivating(a, l.stakes[i].account) && Voter(a, l.stakes[i].account) == Some(l.validators[j].vote)
    ensures L.Collect(l, i, j).Some?
  {
    match l.upgrader {
      case IteratingStakes(_, _, _) => CollectMigratingTotal(l, a, i, j);
      case IteratingValidators(_, _) => CollectFinalizingTotal(l, a, i, j);
      case Done => CollectSettledTotal(l, a, i, j);
    }
  }

  lemma DrawTotals(l: Ledger, l': Ledger, amount: nat, emergency: bool)
    requires L.Draw(l, amount, emergency) == Some(l')
    ensures l'.totalActive + l'.delayedCooling + l'.emergencyCooling + amount
            == l.totalActive + l.delayedCooling + l.emergencyCooling
  {
  }

  lemma SettleDeactivatedTotal(w: World, i: nat, account: Key, treasury: bool)
    requires i < |w.state.ledger.stakes| && account in w.chain.accounts
    requires w.chain.accounts[account].rent <= w.chain.accounts[account].lamports
    requires L.Draw(w.state.ledger, w.state.ledger.stakes[i].lamports, w.state.ledger.stakes[i].emergency).Some?
    ensures var s, source := w.state, w.chain.accounts[account];
            var last, balance := s.ledger.stakes[i].lamports, source.lamports - source.rent;
            var supply := SupplyOnGrowth(s, Control(s), s.msolSupply, last, balance, treasury);
            SettleDeactivated(w, i, account, treasury).Some?
            <==> && supply.Some? && PriceFits(s, Control(s) + balance - last, supply.value)
                 && (s.reserve + source.lamports <= U64_MAX || source.lamports == 0)
  {
    var s, source := w.state, w.chain.accounts[account];
    var r := s.ledger.stakes[i];
    FeeOnGrowthSupply(s, r.lamports, source.lamports - source.rent, treasury);
    DrawTotals(s.ledger, L.Draw(s.ledger, r.lamports, r.emergency).value, r.lamports, r.emergency);
  }

  lemma ResyncedCollects(w: World, i: nat, treasury: bool, w1: World)
    requires i < |w.state.ledger.stakes| && RecordOk(w.chain.accounts, w.state.ledger.stakes[i])
    requires w.chain.accounts[w.state.ledger.stakes[i].account].rent
             <= w.chain.accounts[w.state.ledger.stakes[i].account].lamports
    requires w1.chain == w.chain && w1.state.cfg == w.state.cfg && w1.state.ticketBalance == w.state.ticketBalance
    requires Control(w1.state) == ControlNow(w) && w1.state.msolSupply == w.chain.msolMinted
    requires w1.state.reserve == SaturatingSub(w.chain.reserveLamports, w.state.cfg.rent)
    requires i < |w1.state.ledger.stakes| && w1.state.ledger.stakes[i].lamports == w.state.ledger.stakes[i].lamports
    requires L.Draw(w1.state.ledger, w1.state.ledger.stakes[i].lamports, w1.state.ledger.stakes[i].emergency).Some?
    ensures SettleDeactivated(w1, i, w.state.ledger.stakes[i].account, treasury).Some? <==> CollectFits(w, i, treasury)
  {
    var account := w.state.ledger.stakes[i].account;
    var source, last := w.chain.accounts[account], w.state.ledger.stakes[i].lamports;
    var balance := source.lamports - source.rent;
    SettleDeactivatedTotal(w1, i, account, treasury);
    SameFees(w.state, w1.state, ControlNow(w), w.chain.msolMinted, last, balance, treasury);
    var supply := SupplyOnGrowth(w.state, ControlNow(w), w.chain.msolMinted, last, balance, treasury);
    if supply.Some? {
      SameFees(w.state, w1.state, ControlNow(w) + balance - last, supply.value, 0, 0, treasury);
    }
  }

  lemma CoreSettles(w: World, i: nat, j: nat, treasury: bool, l1: Ledger)
    requires i < |w.state.ledger.stakes| && j < |w.state.ledger.validators|
    requires RecordOk(w.chain.accounts, w.state.ledger.stakes[i]) && UpdateDeactivatedGuards(w, i, j)
    requires L.Reclassify(w.state.ledger, i, j) == Some(l1)
    ensures Resync(w.state, w.chain).Some? && i < |l1.stakes|
    ensures var account := w.state.ledger.stakes[i].account;
            UpdateDeactivatedCore(w, i, account, j, treasury)
            == SettleDeactivated(World(Resync(w.state, w.chain).value.(ledger := l1), w.chain), i, account, treasury)
  {
    ReclassifyKeeps(w.state.ledger, i, j, l1);
  }

  lemma GuardedUpdateDeactivated(w: World, i: nat, j: nat, treasury: bool)
    requires WorldOk(w) && FitsFields(w.state.ledger) && i < |w.state.ledger.stakes| && j < |w.state.ledger.validators|
    requires MayCollect(w, i, j)
    requires RecordOk(w.chain.accounts, w.state.ledger.stakes[i]) && UpdateDeactivatedGuards(w, i, j)
    ensures UpdateDeactivatedCore(w, i, w.state.ledger.stakes[i].account, j, treasury).Some? <==> CollectFits(w, i, treasury)
  {
    var l := w.state.ledger;
    CollectAlways(l, w.chain.accounts, i, j);
    var l1 := L.Reclassify(l, i, j).value;
    ReclassifyKeeps(l, i, j, l1);
    CoreSettles(w, i, j, treasury, l1);
    ResyncedCollects(w, i, treasury, World(Resync(w.state, w.chain).value.(ledger := l1), w.chain));
  }

  /** update_deactivated succeeds exactly when its checks hold and its results fit, in every phase
      that can bear the removal. */
  lemma UpdateDeactivatedTotal(w: World, i: nat, j: nat, treasury: bool)
    requires WorldOk(w) && FitsFields(w.state.ledger) && i < |w.state.ledger.stakes| && j < |w.state.ledger.validators|
    requires MayCollect(w, i, j)
    ensures RecordOk(w.chain.accounts, w.state.ledger.stakes[i])
    ensures UpdateDeactivated(w, i, w.state.ledger.stakes[i].account, j, treasury).Some?
            <==> UpdateDeactivatedGuards(w, i, j) && CollectFits(w, i, treasury)
  {
    var account := w.state.ledger.stakes[i].account;
    UpdateDeactivatedOk(w, i, account, j, treasury);
    if UpdateDeactivatedGuards(w, i, j) {
      GuardedUpdateDeactivated(w, i, j, treasury);
    } else if UpdateDeactivatedCore(w, i, account, j, treasury).Some? {
      UpdateDeactivatedCollects(w, i, account, j, treasury, UpdateDeactivatedCore(w, i, account, j, treasury).value);
    }
  }
}
