/** The other half: while every unvisited record's validator is listed, phase 1 can always be taken
    further, and the migration can be brought to its end. */
module MigrationCompletes {
  import opened Base
  import opened Calc
  import opened Model
  import opened Instructions
  import opened Parts
  import opened Totals
  import opened Soundness
  import opened Migration
  import opened LedgerSafety
  import opened Runs
  import opened LedgerRuns
  import opened Books
  import opened Upgrade
  import opened MigrationRuns
  import opened MigrationEnd
  import opened MigrationBlocked
  import opened Totality
  import opened UpdateTotality
  import P = Price
  import B = MigrationBreaks
  import opened Examples
  import L = LedgerOps

  // ---------- room for the results ----------

  /** What the stake account of a record not visited yet may still bring in. */
  function PendingOf(a: Accounts, r: StakeRecord): nat {
    if r.status.Unknown? && r.account in a then a[r.account].lamports else 0
  }

  function Pending(a: Accounts, s: seq<StakeRecord>): nat {
    if s == [] then 0 else Pending(a, s[..|s| - 1]) + PendingOf(a, s[|s| - 1])
  }

  lemma {:induction false} PendingFrame(a: Accounts, a': Accounts, s: seq<StakeRecord>)
    requires forall m :: 0 <= m < |s| ==> PendingOf(a', s[m]) == PendingOf(a, s[m])
    ensures Pending(a', s) == Pending(a, s)
  {
    if s != [] {
      PendingFrame(a, a', s[..|s| - 1]);
    }
  }

  lemma {:induction false} PendingSet(a: Accounts, s: seq<StakeRecord>, i: nat, r: StakeRecord)
    requires i < |s|
    ensures Pending(a, s[i := r]) == Pending(a, s) - PendingOf(a, s[i]) + PendingOf(a, r)
  {
    var n := |s| - 1;
    if i == n {
      assert s[i := r][..n] == s[..n];
    } else {
      assert s[i := r][..n] == s[..n][i := r];
      PendingSet(a, s[..n], i, r);
    }
  }

  lemma PendingSwapRemove(a: Accounts, s: seq<StakeRecord>, i: nat)
    requires i < |s|
    ensures Pending(a, SwapRemove(s, i)) == Pending(a, s) - PendingOf(a, s[i])
  {
    var n := |s| - 1;
    PendingSet(a, s, i, s[n]);
    assert s[i := s[n]][n] == s[n];
  }

  /** An upper bound of the lamports that can ever be under control while phase 1 visits what it has:
      the totals, the delinquent balance, the real reserve, and the accounts still to be visited. */
  function Potential(w: World): nat {
    var l := w.state.ledger;
    l.totalActive + l.delayedCooling + l.emergencyCooling + Delinquent(l.upgrader) + w.chain.reserveLamports
    + Pending(w.chain.accounts, l.stakes)
  }

  /** All of that fits, and so does its price. */
  predicate Roomy(w: World) {
    && |w.state.ledger.stakes| <= U32_MAX
    && Potential(w) <= U64_MAX
    && ValueFromShares(PRICE_DENOMINATOR, Potential(w), w.chain.msolMinted).Some?
  }

  /** Stake accounts hold their rent and their delegation. */
  predicate Funded(a: Accounts, r: StakeRecord) {
    r.account in a && a[r.account].delegation.Some? ==>
      a[r.account].lamports >= a[r.account].rent + a[r.account].delegation.value.stake
  }

  /** The program runs, its books agree with the chain, and nothing overflows. */
  ghost predicate Ready(w: World) {
    && !w.state.cfg.paused && P.Covered(w) && Roomy(w)
    && forall m :: 0 <= m < |w.state.ledger.stakes| ==> Funded(w.chain.accounts, w.state.ledger.stakes[m])
  }

  lemma PendingCovers(a: Accounts, s: seq<StakeRecord>, i: nat)
    requires i < |s|
    ensures PendingOf(a, s[i]) <= Pending(a, s)
  {
    PendingSwapRemove(a, s, i);
  }

  lemma PriceOfLess(s: State, control: int, most: nat, supply: nat)
    requires 0 <= control <= most <= U64_MAX && ValueFromShares(PRICE_DENOMINATOR, most, supply).Some?
    ensures PriceFits(s, control, supply)
  {
    if supply > 0 {
      var less := SaturatingSub(control, s.ticketBalance);
      MulMono(less, most, PRICE_DENOMINATOR);
      DivMono(PRICE_DENOMINATOR * less, PRICE_DENOMINATOR * most, supply);
    }
  }

  /** Room means that every field is within its width, and covers what the legacy records are worth. */
  lemma RoomInFields(w: World)
    requires WorldOk(w) && w.state.ledger.upgrader.IteratingStakes? && Ready(w)
    ensures FitsFields(w.state.ledger) && ControlFits(w.state) && w.state.reserve + w.state.cfg.rent <= U64_MAX
    ensures forall j :: 0 <= j < |w.state.ledger.validators| ==>
              w.state.ledger.validators[j].balance <= w.state.ledger.totalActive + w.state.ledger.upgrader.delinquent
  {
    var l := w.state.ledger;
    forall j | 0 <= j < |l.validators|
      ensures l.validators[j].balance <= l.totalActive + l.upgrader.delinquent
    {
      GaugeInSum(Balance, l.validators, j);
    }
  }

  /** The recorded stake of an unvisited record is within the totals. */
  lemma RecordedWithinTotals(l: Ledger, a: Accounts, i: nat)
    requires Sound(l, a) && l.upgrader.IteratingStakes? && i < |l.stakes| && l.stakes[i].status.Unknown?
    ensures l.stakes[i].lamports <= l.totalActive + l.delayedCooling + l.emergencyCooling
  {
    WeightInTotal(LegacyLive, a, l.stakes, i);
    WeightInTotal(LegacyDelayed, a, l.stakes, i);
    WeightInTotal(LegacyEmergency, a, l.stakes, i);
  }

  lemma VisitFits(w: World, i: nat, j: nat)
    requires WorldOk(w) && w.state.ledger.upgrader.IteratingStakes? && Ready(w)
    requires i < |w.state.ledger.stakes| && j < |w.state.ledger.validators| && w.state.ledger.stakes[i].status.Unknown?
    requires !IsDeactivating(w.chain.accounts, w.state.ledger.stakes[i].account)
    requires Voter(w.chain.accounts, w.state.ledger.stakes[i].account) == Some(w.state.ledger.validators[j].vote)
    ensures Healthy(w, i) && UpdateActiveGuards(w, i, j) && UpdateFits(w, i, j, false)
  {
    var l, a := w.state.ledger, w.chain.accounts;
    assert RecordOk(a, l.stakes[i]) && Funded(a, l.stakes[i]);
    RoomInFields(w);
    RecordedWithinTotals(l, a, i);
    PendingCovers(a, l.stakes, i);
    assert SupplyAfter(w, i, false) == Some(w.chain.msolMinted);
    PriceOfLess(w.state, ControlAfter(w, i), Potential(w), w.chain.msolMinted);
  }

  lemma RemovalFits(w: World, i: nat, j: nat)
    requires WorldOk(w) && w.state.ledger.upgrader.IteratingStakes? && Ready(w)
    requires i < |w.state.ledger.stakes| && j < |w.state.ledger.validators| && w.state.ledger.stakes[i].status.Unknown?
    requires IsDeactivating(w.chain.accounts, w.state.ledger.stakes[i].account)
    requires Voter(w.chain.accounts, w.state.ledger.stakes[i].account) == Some(w.state.ledger.validators[j].vote)
    ensures RecordOk(w.chain.accounts, w.state.ledger.stakes[i]) && UpdateDeactivatedGuards(w, i, j)
    ensures CollectFits(w, i, false)
  {
    var l, a := w.state.ledger, w.chain.accounts;
    assert RecordOk(a, l.stakes[i]) && Funded(a, l.stakes[i]);
    RoomInFields(w);
    RecordedWithinTotals(l, a, i);
    PendingCovers(a, l.stakes, i);
    var source := a[l.stakes[i].account];
    PriceOfLess(w.state, ControlNow(w) + (source.lamports - source.rent) - l.stakes[i].lamports, Potential(w),
                w.chain.msolMinted);
  }

  /** The update that visits record `i`: of a live account, or of a deactivated one. */
  function VisitStep(w: World, i: nat, j: nat): Step
    requires i < |w.state.ledger.stakes|
  {
    var account := w.state.ledger.stakes[i].account;
    if IsDeactivating(w.chain.accounts, account) then DoUpdateDeactivated(i, account, j, false)
    else DoUpdateActive(i, account, j, false)
  }

  lemma VisitSucceeds(w: World, i: nat, j: nat)
    requires WorldOk(w) && w.state.ledger.upgrader.IteratingStakes? && Ready(w)
    requires i < |w.state.ledger.stakes| && j < |w.state.ledger.validators| && w.state.ledger.stakes[i].status.Unknown?
    requires Voter(w.chain.accounts, w.state.ledger.stakes[i].account) == Some(w.state.ledger.validators[j].vote)
    ensures var account := w.state.ledger.stakes[i].account;
            if IsDeactivating(w.chain.accounts, account) then UpdateDeactivated(w, i, account, j, false).Some?
            else UpdateActive(w, i, account, j, false).Some?
  {
    RoomInFields(w);
    if IsDeactivating(w.chain.accounts, w.state.ledger.stakes[i].account) {
      RemovalFits(w, i, j);
      UpdateDeactivatedTotal(w, i, j, false);
    } else {
      VisitFits(w, i, j);
      UpdateActiveTotal(w, i, j, false);
    }
  }

  lemma LiveVisitAdvances(w: World, i: nat, j: nat)
    requires WorldOk(w) && w.state.ledger.upgrader.IteratingStakes? && Ready(w)
    requires i < |w.state.ledger.stakes| && j < |w.state.ledger.validators| && w.state.ledger.stakes[i].status.Unknown?
    requires Voter(w.chain.accounts, w.state.ledger.stakes[i].account) == Some(w.state.ledger.validators[j].vote)
    requires !IsDeactivating(w.chain.accounts, w.state.ledger.stakes[i].account)
    ensures Allowed(w, VisitStep(w, i, j)) && Advances(w, VisitStep(w, i, j))
  {
    VisitSucceeds(w, i, j);
  }

  lemma RemovalAdvances(w: World, i: nat, j: nat)
    requires WorldOk(w) && w.state.ledger.upgrader.IteratingStakes? && Ready(w)
    requires i < |w.state.ledger.stakes| && j < |w.state.ledger.validators| && w.state.ledger.stakes[i].status.Unknown?
    requires Voter(w.chain.accounts, w.state.ledger.stakes[i].account) == Some(w.state.ledger.validators[j].vote)
    requires IsDeactivating(w.chain.accounts, w.state.ledger.stakes[i].account)
    ensures Allowed(w, VisitStep(w, i, j)) && Advances(w, VisitStep(w, i, j))
  {
    VisitSucceeds(w, i, j);
  }

  /** Phase 1 never waits for anybody but the bots: while the program is ready, visiting any unvisited
      record whose validator is listed succeeds and takes the migration further. */
  lemma PhaseOneAdvances(w: World, i: nat, j: nat)
    requires WorldOk(w) && w.state.ledger.upgrader.IteratingStakes? && Ready(w)
    requires i < |w.state.ledger.stakes| && j < |w.state.ledger.validators| && w.state.ledger.stakes[i].status.Unknown?
    requires Voter(w.chain.accounts, w.state.ledger.stakes[i].account) == Some(w.state.ledger.validators[j].vote)
    ensures Allowed(w, VisitStep(w, i, j)) && Advances(w, VisitStep(w, i, j))
  {
    if IsDeactivating(w.chain.accounts, w.state.ledger.stakes[i].account) {
      RemovalAdvances(w, i, j);
    } else {
      LiveVisitAdvances(w, i, j);
    }
  }

  // ---------- a visit leaves the program ready for the next ----------

  /** Pending lamports become reserve and stake, all but the rents, and nothing is minted. */
  ghost predicate StaysReady(w: World, w': World) {
    && w'.state.cfg == w.state.cfg && P.Covered(w')
    && w'.chain.msolMinted == w.chain.msolMinted
    && |w'.state.ledger.stakes| <= |w.state.ledger.stakes|
    && Potential(w') <= Potential(w)
    && forall m :: 0 <= m < |w'.state.ledger.stakes| ==> Funded(w'.chain.accounts, w'.state.ledger.stakes[m])
  }

  lemma LessHasPrice(most: nat, less: nat, supply: nat)
    requires less <= most && ValueFromShares(PRICE_DENOMINATOR, most, supply).Some?
    ensures ValueFromShares(PRICE_DENOMINATOR, less, supply).Some?
  {
    if supply > 0 {
      MulMono(less, most, PRICE_DENOMINATOR);
      DivMono(PRICE_DENOMINATOR * less, PRICE_DENOMINATOR * most, supply);
    }
  }

  lemma ReadyAgain(w: World, w': World)
    requires Ready(w) && StaysReady(w, w')
    ensures Ready(w')
  {
    LessHasPrice(Potential(w), Potential(w'), w.chain.msolMinted);
  }

  lemma SettleActivePays(w: World, i: nat, account: Key, j: nat, last: nat, w': World)
    requires i < |w.state.ledger.stakes| && j < |w.state.ledger.validators|
    requires account in w.chain.accounts && w.chain.accounts[account].delegation.Some?
    requires SettleActive(w, i, account, j, last, false) == Some(w')
    ensures var source := w.chain.accounts[account];
            && w'.chain.reserveLamports == w.chain.reserveLamports + Extra(source)
            && Extra(source) <= source.lamports
            && w'.chain.accounts == w.chain.accounts[account := source.(lamports := source.lamports - Extra(source))]
            && w'.state.msolSupply == w.state.msolSupply
  {
    var source := w.chain.accounts[account];
    var stake, extra := source.delegation.value.stake, Extra(source);
    CreditExtraSupply(w.state, extra, false);
    FeeOnGrowthSupply(w.state.(reserve := w.state.reserve + extra), last, stake, false);
  }

  lemma UpdateActivePays(w: World, i: nat, account: Key, j: nat, w': World)
    requires UpdateActive(w, i, account, j, false) == Some(w')
    ensures account in w.chain.accounts && w.chain.accounts[account].delegation.Some?
    ensures var source := w.chain.accounts[account];
            && w'.chain.reserveLamports == w.chain.reserveLamports + Extra(source)
            && Extra(source) <= source.lamports
            && w'.chain.accounts == w.chain.accounts[account := source.(lamports := source.lamports - Extra(source))]
            && w'.chain.msolMinted == w.chain.msolMinted && w'.chain.msolLeg == w.chain.msolLeg
            && w'.state.cfg == w.state.cfg && w'.state.msolSupply == w.chain.msolMinted
    ensures ReserveAgrees(w')
  {
    var w1 := UpdateActiveCore(w, i, account, j, false).value;
    var s1, l1 := UpdateActiveSettles(w, i, account, j, false, w1);
    SettleActivePays(World(s1.(ledger := l1), w.chain), i, account, j, w.state.ledger.stakes[i].lamports, w1);
    UpdateActiveFrame(w, i, account, j, false, w');
  }

  lemma UpdateActiveLedger(w: World, i: nat, account: Key, j: nat, w': World)
    requires w.state.ledger.upgrader.IteratingStakes? && UpdateActive(w, i, account, j, false) == Some(w')
    ensures i < |w.state.ledger.stakes| && account in w.chain.accounts && w.chain.accounts[account].delegation.Some?
    ensures var l, l' := w.state.ledger, w'.state.ledger;
            && |l'.stakes| == |l.stakes| && l'.stakes == l.stakes[i := l'.stakes[i]]
            && l.stakes[i].account == l'.stakes[i].account == account && !l'.stakes[i].status.Unknown?
            && l'.totalActive + l.stakes[i].lamports == l.totalActive + w.chain.accounts[account].delegation.value.stake
            && l'.delayedCooling == l.delayedCooling && l'.emergencyCooling == l.emergencyCooling
            && Delinquent(l'.upgrader) == Delinquent(l.upgrader)
  {
    var w1 := UpdateActiveCore(w, i, account, j, false).value;
    var l1 := UpdateActiveCoreLedger(w, i, account, j, false, w1);
    var l, stake := w.state.ledger, w.chain.accounts[account].delegation.value.stake;
    RecognizeShape(l, l1, i, j);
    ObserveShape(l1, w1.state.ledger, i, j, stake, w.chain.clock.epoch);
    P.VisitTotals(l, l1, w1.state.ledger, i, j, stake, w.chain.clock.epoch);
    P.ProgressKeepsTotals(w1.state.ledger, w'.state.ledger);
    UpdateActiveDraws(w, i, account, j, false, w');
  }

  /** Once visited, a record's account has nothing pending. */
  lemma PendingVisited(a: Accounts, a': Accounts, s: seq<StakeRecord>, s': seq<StakeRecord>, i: nat)
    requires i < |s| == |s'| && s' == s[i := s'[i]] && s[i].status.Unknown? && !s'[i].status.Unknown?
    requires s[i].account in a
    requires forall m :: 0 <= m < |s| && m != i ==> PendingOf(a', s[m]) == PendingOf(a, s[m])
    ensures Pending(a', s') == Pending(a, s) - a[s[i].account].lamports
  {
    PendingSet(a, s, i, s'[i]);
    forall m | 0 <= m < |s'| ensures PendingOf(a', s'[m]) == PendingOf(a, s'[m]) {
    }
    PendingFrame(a, a', s');
  }

  lemma LiveVisitStaysReady(w: World, i: nat, j: nat, w': World)
    requires WorldOk(w) && w.state.ledger.upgrader.IteratingStakes? && Ready(w)
    requires i < |w.state.ledger.stakes| && w.state.ledger.stakes[i].status.Unknown?
    requires UpdateActive(w, i, w.state.ledger.stakes[i].account, j, false) == Some(w')
    ensures StaysReady(w, w')
  {
    var a, s, s' := w.chain.accounts, w.state.ledger.stakes, w'.state.ledger.stakes;
    var account := s[i].account;
    UpdateActivePays(w, i, account, j, w');
    UpdateActiveLedger(w, i, account, j, w');
    assert Funded(a, s[i]);
    assert forall m :: 0 <= m < |s| && m != i ==> s[m].account != account;
    PendingVisited(a, w'.chain.accounts, s, s', i);
    forall m | 0 <= m < |s'| ensures Funded(w'.chain.accounts, s'[m]) {
      assert Funded(a, s[m]);
    }
  }

  lemma SettleDeactivatedPays(w: World, i: nat, account: Key, w': World)
    requires i < |w.state.ledger.stakes| && account in w.chain.accounts
    requires SettleDeactivated(w, i, account, false) == Some(w')
    ensures var source := w.chain.accounts[account];
            && source.rent <= source.lamports
            && w'.chain.reserveLamports == w.chain.reserveLamports + (source.lamports - source.rent)
            && w'.state.reserve == w.state.reserve + (source.lamports - source.rent)
            && w'.state.msolSupply == w.state.msolSupply
  {
    FeeOnGrowthSupply(w.state, w.state.ledger.stakes[i].lamports,
                      w.chain.accounts[account].lamports - w.chain.accounts[account].rent, false);
  }

  lemma UpdateDeactivatedPays(w: World, i: nat, account: Key, j: nat, w': World)
    requires P.Covered(w) && UpdateDeactivated(w, i, account, j, false) == Some(w')
    ensures account in w.chain.accounts
    ensures var source := w.chain.accounts[account];
            && source.rent <= source.lamports
            && w'.chain.reserveLamports == w.chain.reserveLamports + (source.lamports - source.rent)
            && w'.chain.accounts == w.chain.accounts - {account}
            && w'.chain.msolMinted == w.chain.msolMinted
            && w'.state.cfg == w.state.cfg
    ensures P.Covered(w')
  {
    var w1 := UpdateDeactivatedCore(w, i, account, j, false).value;
    UpdateDeactivatedCollects(w, i, account, j, false, w1);
    var s1 := Resync(w.state, w.chain).value;
    var l1 := L.Reclassify(w.state.ledger, i, j).value;
    P.ReclassifyKeeps(w.state.ledger, i, j, l1);
    SettleDeactivatedPays(World(s1.(ledger := l1), w.chain), i, account, w1);
  }

  lemma UpdateDeactivatedLedger(w: World, i: nat, account: Key, j: nat, w': World)
    requires w.state.ledger.upgrader.IteratingStakes? && UpdateDeactivated(w, i, account, j, false) == Some(w')
    requires i < |w.state.ledger.stakes| && w.state.ledger.stakes[i].status.Unknown?
    ensures var l, l' := w.state.ledger, w'.state.ledger;
            && l'.stakes == SwapRemove(l.stakes, i)
            && l'.totalActive + l'.delayedCooling + l'.emergencyCooling + Delinquent(l'.upgrader)
               <= l.totalActive + l.delayedCooling + l.emergencyCooling + Delinquent(l.upgrader)
  {
    var w1 := UpdateDeactivatedCore(w, i, account, j, false).value;
    UpdateDeactivatedCollects(w, i, account, j, false, w1);
    var l := w.state.ledger;
    CollectShape(l, w1.state.ledger, i, j);
    P.CollectTakesRecorded(l, i, j, w1.state.ledger);
    P.ProgressKeepsTotals(w1.state.ledger, w'.state.ledger);
    UpdateDeactivatedDraws(w, i, account, j, false, w');
    DrawnOfOne(l.stakes[i]);
  }

  lemma RemovalStaysReady(w: World, i: nat, j: nat, w': World)
    requires WorldOk(w) && w.state.ledger.upgrader.IteratingStakes? && Ready(w)
    requires i < |w.state.ledger.stakes| && w.state.ledger.stakes[i].status.Unknown?
    requires UpdateDeactivated(w, i, w.state.ledger.stakes[i].account, j, false) == Some(w')
    ensures StaysReady(w, w')
  {
    var a, s, s' := w.chain.accounts, w.state.ledger.stakes, w'.state.ledger.stakes;
    var account := s[i].account;
    UpdateDeactivatedPays(w, i, account, j, w');
    UpdateDeactivatedLedger(w, i, account, j, w');
    PendingSwapRemove(a, s, i);
    forall m | 0 <= m < |s'|
      ensures Funded(w'.chain.accounts, s'[m]) && PendingOf(w'.chain.accounts, s'[m]) == PendingOf(a, s'[m])
    {
      assert s'[m] == s[Origin(|s|, i, m)];
      assert Funded(a, s[Origin(|s|, i, m)]);
    }
    PendingFrame(a, w'.chain.accounts, s');
  }

  lemma VisitStaysReady(w: World, i: nat, j: nat)
    requires WorldOk(w) && w.state.ledger.upgrader.IteratingStakes? && Ready(w)
    requires i < |w.state.ledger.stakes| && j < |w.state.ledger.validators| && w.state.ledger.stakes[i].status.Unknown?
    requires Instruction(w, VisitStep(w, i, j)).Some?
    ensures Ready(Next(w, VisitStep(w, i, j)))
  {
    var w' := Next(w, VisitStep(w, i, j));
    if IsDeactivating(w.chain.accounts, w.state.ledger.stakes[i].account) {
      RemovalStaysReady(w, i, j, w');
    } else {
      LiveVisitStaysReady(w, i, j, w');
    }
    ReadyAgain(w, w');
  }

  // ---------- to the end ----------

  lemma {:induction false} SomeUnknown(a: Accounts, s: seq<StakeRecord>) returns (i: nat)
    requires Total(CountUnknown, a, s) > 0
    ensures i < |s| && s[i].status.Unknown?
  {
    if s[|s| - 1].status.Unknown? {
      i := |s| - 1;
    } else {
      i := SomeUnknown(a, s[..|s| - 1]);
    }
  }

  /** A record to visit and the index of its validator. */
  lemma NextVisit(w: World) returns (i: nat, j: nat)
    requires Unvisited(w) > 0 && AllListed(w)
    ensures i < |w.state.ledger.stakes| && w.state.ledger.stakes[i].status.Unknown?
    ensures j < |w.state.ledger.validators|
    ensures Voter(w.chain.accounts, w.state.ledger.stakes[i].account) == Some(w.state.ledger.validators[j].vote)
  {
    i := SomeUnknown(w.chain.accounts, w.state.ledger.stakes);
    assert Waiting(w, w.state.ledger.stakes[i].account);
    var vote := Voter(w.chain.accounts, w.state.ledger.stakes[i].account).value;
    j :| 0 <= j < |w.state.ledger.validators| && w.state.ledger.validators[j].vote == vote;
  }

  /** Where phase 1 is after a visit: there is still something to visit, or it is over. */
  lemma VisitLeaves(w: World, i: nat, j: nat)
    requires WorldOk(w) && w.state.ledger.upgrader.IteratingStakes?
    requires i < |w.state.ledger.stakes| && w.state.ledger.stakes[i].status.Unknown?
    requires Allowed(w, VisitStep(w, i, j)) && Instruction(w, VisitStep(w, i, j)).Some?
    ensures var w' := Next(w, VisitStep(w, i, j));
            if w'.state.ledger.upgrader.IteratingStakes? then Unvisited(w') > 0
            else w'.state.ledger.upgrader.IteratingValidators?
  {
    var account, w' := w.state.ledger.stakes[i].account, Next(w, VisitStep(w, i, j));
    if IsDeactivating(w.chain.accounts, account) {
      CollectAdvances(w, i, account, j, false, w');
    } else {
      VisitAdvances(w, i, account, j, false, w');
    }
  }

  /** Some allowed run ends the migration. */
  ghost predicate CanEnd(w: World) {
    exists steps: seq<Step> :: AllowedRun(w, steps) && Run(w, steps).state.ledger.upgrader.Done?
  }

  lemma CanEndAfter(w: World, step: Step)
    requires Allowed(w, step) && CanEnd(Next(w, step))
    ensures CanEnd(w)
  {
    var w' := Next(w, step);
    var steps :| AllowedRun(w', steps) && Run(w', steps).state.ledger.upgrader.Done?;
    var all := [step] + steps;
    assert all[0] == step && all[1..] == steps;
    assert AllowedRun(w, all) && Run(w, all) == Run(w', steps);
  }

  lemma FinalizeEnds(w: World)
    requires WorldOk(w) && w.state.ledger.upgrader.IteratingValidators? && !w.state.cfg.paused
    ensures CanEnd(w)
  {
    var step := DoFinalizeUpgrade(|w.state.ledger.validators|);
    FinalizeAdvances(w, |w.state.ledger.validators|);
    assert AllowedRun(Next(w, step), []) && Run(Next(w, step), []) == Next(w, step);
    CanEndAfter(w, step);
  }

  lemma {:induction false} ListedCanEnd(w: World)
    requires WorldOk(w) && w.state.ledger.upgrader.IteratingStakes? && Ready(w) && Unvisited(w) > 0 && AllListed(w)
    ensures CanEnd(w)
    decreases Remaining(w)
  {
    var i, j := NextVisit(w);
    var step := VisitStep(w, i, j);
    PhaseOneAdvances(w, i, j);
    var w' := Next(w, step);
    StepRemaining(w, step);
    NextOk(w, step);
    VisitStaysReady(w, i, j);
    VisitLeaves(w, i, j);
    ListedStays(w, step);
    if w'.state.ledger.upgrader.IteratingStakes? {
      ListedCanEnd(w');
    } else {
      FinalizeEnds(w');
    }
    CanEndAfter(w, step);
  }

  /** The migration can be brought to its end exactly when every record it has not visited yet was
      delegated to a validator that is still listed. */
  lemma MigrationCanEndIff(w: World)
    requires WorldOk(w) && w.state.ledger.upgrader.IteratingStakes? && Ready(w) && Unvisited(w) > 0
    ensures CanEnd(w) <==> AllListed(w)
  {
    if AllListed(w) {
      ListedCanEnd(w);
    } else if CanEnd(w) {
      var account :| Waiting(w, account) && !VoterListed(w, account);
      var steps :| AllowedRun(w, steps) && Run(w, steps).state.ledger.upgrader.Done?;
      UnlistedBlocksMigration(w, steps, account);
    }
  }

  /** So from a legacy state with records. */
  lemma LegacyCanEndIff(w: World)
    requires Legacy(w) && Ready(w) && w.state.ledger.stakes != []
    ensures CanEnd(w) <==> forall m :: 0 <= m < |w.state.ledger.stakes| ==> VoterListed(w, w.state.ledger.stakes[m].account)
  {
    LegacyIsOk(w);
    AllUnvisited(w.chain.accounts, w.state.ledger.stakes);
    MigrationCanEndIff(w);
    forall m | 0 <= m < |w.state.ledger.stakes| ensures Waiting(w, w.state.ledger.stakes[m].account) {
    }
  }

  lemma OneIsReady(x: nat)
    requires 0 < x && 2 * x <= U64_MAX
    ensures Ready(B.LegacyOne(x)) && VoterListed(B.LegacyOne(x), Address(1))
  {
    var w := B.LegacyOne(x);
    PendingSwapRemove(w.chain.accounts, w.state.ledger.stakes, 0);
    assert SwapRemove(w.state.ledger.stakes, 0) == [];
    assert w.state.ledger.validators[0].vote == VOTE;
  }

  /** For example, with one live stake of any size whose validator is listed. */
  lemma LegacyOneCanEnd(x: nat)
    requires 0 < x && 2 * x <= U64_MAX
    ensures Legacy(B.LegacyOne(x)) && CanEnd(B.LegacyOne(x))
  {
    B.OneIsLegacy(x);
    OneIsReady(x);
    assert B.LegacyOne(x).state.ledger.stakes == [Record(x, 1, Unknown)];
    LegacyCanEndIff(B.LegacyOne(x));
  }
}
