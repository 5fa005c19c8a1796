/** The removals an unfinished migration does not survive: the exact condition, and what happens. */
module MigrationBreaks {
  import opened Base
  import opened Model
  import opened Instructions
  import opened Parts
  import opened Totals
  import opened Soundness
  import opened Migration
  import opened LedgerSafety
  import opened Runs
  import opened LedgerRuns
  import opened Upgrade
  import opened MigrationRuns
  import opened Examples
  import L = LedgerOps

  /** In every phase update_deactivated keeps the invariant exactly when the record may be collected:
      in phase 1 when it was not visited yet, in phase 2 when its validator was or it is empty, and
      always once the migration is done. */
  lemma CollectKeepsInvariantIff(l: Ledger, a: Accounts, l': Ledger, i: nat, j: nat)
    requires Sound(l, a) && i < |l.stakes| && j < |l.validators|
    requires IsDeactivating(a, l.stakes[i].account) && Voter(a, l.stakes[i].account) == Some(l.validators[j].vote)
    requires L.Collect(l, i, j) == Some(l')
    ensures Sound(l', a - {l.stakes[i].account}) <==> Collectable(l, i, j)
  {
    var a' := a - {l.stakes[i].account};
    OthersKept(l, a, a', i);
    if Collectable(l, i, j) {
      CollectOk(l, l', a, a', i, j);
    } else if l.upgrader.IteratingStakes? {
      CollectShape(l, l', i, j);
      RemovedCount(a, a', l.stakes, i);
      CollectKeepsVisited(l, l', i, j);
    } else {
      CollectFinalizingIff(l, a, l', a', i, j);
    }
  }

  lemma RemovedCount(a: Accounts, a': Accounts, s: seq<StakeRecord>, i: nat)
    requires i < |s| && s[i].status.Active? && KeepsOthers(a, a', s, i)
    ensures Total(CountActive, a', SwapRemove(s, i)) == Total(CountActive, a, s) - 1
  {
    TotalSwapRemove(CountActive, a, s, i);
    var u := SwapRemove(s, i);
    forall m | 0 <= m < |u| ensures SameDelegation(a, a', u[m].account) {
      var o := Origin(|s|, i, m);
      assert u[m].account == s[o].account && Keeps(a, a', s[o].account);
    }
    TotalFrame(CountActive, a, a', u);
  }

  // ---------- an excluded removal of phase 2 ----------

  /** The unvisited gaps are short of the delinquent balance: the final check can never pass. */
  predicate Short(l: Ledger) {
    && l.upgrader.IteratingValidators? && l.upgrader.next <= |l.validators|
    && L.Gaps(l.validators[l.upgrader.next..]) < l.upgrader.left
  }

  lemma ExcludedRemovalIsShort(l: Ledger, a: Accounts, l': Ledger, i: nat, j: nat)
    requires Sound(l, a) && l.upgrader.IteratingValidators?
    requires i < |l.stakes| && j < |l.validators| && !Collectable(l, i, j) && L.Collect(l, i, j) == Some(l')
    ensures Short(l')
  {
    CollectFollowsFinalizing(l, l', i, j);
    GapsSet(l.validators, l.upgrader.next, j, l'.validators[j]);
  }

  /** Finalize calls work off gaps and balance alike, and refuse to end with a rest. */
  lemma FinalizeStaysShort(l: Ledger, l': Ledger, max: nat)
    requires Short(l) && L.Finalize(l, max) == Some(l')
    ensures Short(l')
  {
    var lo := l.upgrader.next;
    var hi := Min(|l.validators|, lo + max);
    GapsSplit(l.validators, lo, hi);
    if hi < |l.validators| {
      assert l'.validators[hi..] == l.validators[hi..];
    }
  }

  lemma DepositStaysShort(l: Ledger, l': Ledger, account: Key, amount: nat, epoch: nat, j: nat, deltaEpoch: nat)
    requires Short(l) && j < |l.validators| && L.AddActive(l, account, amount, epoch, j, deltaEpoch) == Some(l')
    ensures Short(l')
  {
    AddActiveFollowsFinalizing(l, l', account, amount, epoch, j, deltaEpoch);
    GapsOnDeposit(l.validators, l.upgrader.next, j, l'.validators[j]);
  }

  /** Removals only make it worse. */
  lemma CollectStaysShort(l: Ledger, l': Ledger, i: nat, j: nat)
    requires Short(l) && i < |l.stakes| && j < |l.validators| && L.Collect(l, i, j) == Some(l')
    ensures Short(l')
  {
    CollectShape(l, l', i, j);
    var next := l.upgrader.next;
    if j < next {
      assert l'.validators[next..] == l.validators[next..];
    } else {
      GapsSet(l.validators, next, j, l'.validators[j]);
    }
  }

  lemma ScoreStaysShort(l: Ledger, l': Ledger, j: nat, score: nat)
    requires Short(l) && j < |l.validators| && L.SetScore(l, j, score) == Some(l')
    ensures Short(l')
  {
    GapsOnDeposit(l.validators, l.upgrader.next, j, l'.validators[j]);
  }

  lemma StepStaysShort(w: World, step: Step)
    requires Short(w.state.ledger)
    ensures Short(Next(w, step).state.ledger)
  {
    if !step.Elsewhere? && Instruction(w, step).Some? {
      var l, w' := w.state.ledger, Instruction(w, step).value;
      if NeedsDone(step) {
        NeedsDoneStays(w, step, w');
      } else if LeavesLedger(step) {
        LedgerUntouched(w, step, w');
      } else {
        match step {
          case DoDepositStakeAccount(account, j) =>
            DepositLedger(w, account, j, w');
            DepositStaysShort(l, w'.state.ledger, account, w.chain.accounts[account].delegation.value.stake,
                              w.chain.clock.epoch, j, l.validators[j].lastDeltaEpoch);
          case DoUpdateActive(i, account, j, treasury) =>
            UpdateActiveWaits(w, i, account, j, treasury);
          case DoUpdateDeactivated(i, account, j, treasury) => UpdateDeactivatedStaysShort(w, i, account, j, treasury, w');
          case DoFinalizeUpgrade(max) => FinalizeStaysShort(l, w'.state.ledger, max);
          case DoSetValidatorScore(j, vote, score) => ScoreStaysShort(l, w'.state.ledger, j, score);
        }
      }
    }
  }

  lemma UpdateActiveWaits(w: World, i: nat, account: Key, j: nat, treasury: bool)
    requires w.state.ledger.upgrader.IteratingValidators?
    ensures UpdateActive(w, i, account, j, treasury) == None
  {
  }

  lemma UpdateDeactivatedStaysShort(w: World, i: nat, account: Key, j: nat, treasury: bool, w': World)
    requires Short(w.state.ledger) && UpdateDeactivated(w, i, account, j, treasury) == Some(w')
    ensures Short(w'.state.ledger)
  {
    var w1 := UpdateDeactivatedCore(w, i, account, j, treasury).value;
    UpdateDeactivatedCollects(w, i, account, j, treasury, w1);
    CollectStaysShort(w.state.ledger, w1.state.ledger, i, j);
  }

  lemma {:induction false} RunStaysShort(w: World, steps: seq<Step>)
    requires Short(w.state.ledger)
    ensures Short(Run(w, steps).state.ledger)
    decreases |steps|
  {
    if steps != [] {
      StepStaysShort(w, steps[0]);
      RunStaysShort(Next(w, steps[0]), steps[1..]);
    }
  }

  lemma ExcludedStepIsShort(w: World, i: nat, account: Key, j: nat, treasury: bool, w': World)
    requires WorldOk(w) && w.state.ledger.upgrader.IteratingValidators? && !MayCollect(w, i, j)
    requires UpdateDeactivated(w, i, account, j, treasury) == Some(w')
    ensures Short(w'.state.ledger)
  {
    var w1 := UpdateDeactivatedCore(w, i, account, j, treasury).value;
    UpdateDeactivatedCollects(w, i, account, j, treasury, w1);
    ExcludedRemovalIsShort(w.state.ledger, w.chain.accounts, w1.state.ledger, i, j);
  }

  /** After an excluded removal in phase 2 the migration never ends, on any run of any steps, allowed or
      not. */
  lemma ExcludedRemovalBlocksMigration(w: World, i: nat, account: Key, j: nat, treasury: bool, w': World, steps: seq<Step>)
    requires WorldOk(w) && w.state.ledger.upgrader.IteratingValidators? && !MayCollect(w, i, j)
    requires UpdateDeactivated(w, i, account, j, treasury) == Some(w')
    ensures Run(w', steps).state.ledger.upgrader.IteratingValidators?
  {
    ExcludedStepIsShort(w, i, account, j, treasury, w');
    RunStaysShort(w', steps);
  }

  // ---------- runs from legacy states ----------

  /** An update, somebody else's deactivation, and the removal. */
  function ForcedDeactivation(after: Chain): seq<Step> {
    [DoUpdateActive(0, Address(1), 0, false), Elsewhere(after), DoUpdateDeactivated(0, Address(1), 0, false)]
  }

  lemma ForcedRun(w0: World, w1: World, w2: World, w3: World, last: seq<Step>)
    requires UpdateActive(w0, 0, Address(1), 0, false) == Some(w1)
    requires Permitted(w1.chain, w2.chain) && w2.state == w1.state
    requires UpdateDeactivated(w2, 0, Address(1), 0, false) == Some(w3)
    ensures Run(w0, ForcedDeactivation(w2.chain)[..1]) == w1
    ensures Run(w0, ForcedDeactivation(w2.chain) + last) == Run(w3, last)
  {
    var steps := ForcedDeactivation(w2.chain) + last;
    RunStep(w0, steps, w1);
    RunStep(w1, steps[1..], w2);
    RunStep(w2, steps[1..][1..], w3);
    assert steps[1..][1..][1..] == last;
    var first := ForcedDeactivation(w2.chain)[..1];
    RunStep(w0, first, w1);
    assert first[1..] == [];
  }

  lemma UpdateActiveEnds(w: World, i: nat, account: Key, j: nat, treasury: bool, w1: World, l: Ledger)
    requires UpdateActiveCore(w, i, account, j, treasury) == Some(w1) && L.Progress(w1.state.ledger) == Some(l)
    ensures UpdateActive(w, i, account, j, treasury) == Some(w1.(state := w1.state.(ledger := l)))
  {
  }

  lemma FinalizeRun(w: World, w1: World)
    requires FinalizeUpgrade(w, 1) == Some(w1)
    ensures Run(w, [DoFinalizeUpgrade(1)]) == w1
  {
    RunStep(w, [DoFinalizeUpgrade(1)], w1);
  }

  // ---------- phase 1: two stakes of one validator ----------

  function TwoAccounts(x: nat, firstDeactivating: bool): Accounts {
    map[Address(1) := StakeOf(x, firstDeactivating), Address(2) := StakeOf(x, false)]
  }

  function LegacyPair(x: nat): World {
    Example(Ledger([Record(x, 1, Unknown), Record(x, 2, Unknown)], [ValidatorRecord(VOTE, 2 * x, 1, 0, 0)], 2 * x, 0, 0, 1,
                   IteratingStakes(0, 0, 0)), {VOTE},
            TwoAccounts(x, false), 0)
  }

  /** The first is visited. */
  function VisitedPair(x: nat, firstDeactivating: bool): World {
    Example(Ledger([Record(x, 1, Active), Record(x, 2, Unknown)], [ValidatorRecord(VOTE, 2 * x, 1, 0, x)], 2 * x, 0, 0,
                   1, IteratingStakes(1, x, 0)), {VOTE},
            TwoAccounts(x, firstDeactivating), 0)
  }

  /** The first is removed, and counted as if it were still there. */
  function RemovedPair(x: nat, upgrader: Upgrader, upgraderBalance: nat): World {
    Example(Ledger([Record(x, 2, Unknown)], [ValidatorRecord(VOTE, x, 1, 0, upgraderBalance)], x, 0, 0, 1, upgrader), {VOTE},
            map[Address(2) := StakeOf(x, false)], x)
  }

  lemma PairIsLegacy(x: nat)
    requires 0 < x && 2 * x <= U64_MAX
    ensures Legacy(LegacyPair(x))
  {
    var l, a := LegacyPair(x).state.ledger, LegacyPair(x).chain.accounts;
    var s, vs := l.stakes, l.validators;
    assert s[..1] == [Record(x, 1, Unknown)] && s[..1][..0] == [];
    assert vs[..0] == [];
    forall k: Kind ensures Total(k, a, s) == Weight(k, a, s[0]) + Weight(k, a, s[1]) {
      assert Total(k, a, s) == Total(k, a, s[..1]) + Weight(k, a, s[1]);
      assert Total(k, a, s[..1]) == Total(k, a, s[..1][..0]) + Weight(k, a, s[0]);
    }
    assert WellFormed(l, a);
    assert Sum(Balance, vs) == 2 * x;
    assert Total(LegacyLive, a, s) == 2 * x;
    assert Total(LegacyDelayed, a, s) == 0 && Total(LegacyEmergency, a, s) == 0;
    assert Total(LegacyLiveFor(VOTE), a, s) == 2 * x;
    assert forall vote :: vote != VOTE ==> Total(LegacyLiveFor(vote), a, s) == 0;
    assert forall vote :: vote in LegacyPair(x).chain.flags <==> Listed(l.validators, vote) by {
      assert vs[0].vote == VOTE;
    }
  }

  lemma PairVisited(x: nat)
    requires 0 < x && 2 * x <= U64_MAX
    ensures UpdateActive(LegacyPair(x), 0, Address(1), 0, false) == Some(VisitedPair(x, false))
  {
    var w, w' := LegacyPair(x), VisitedPair(x, false);
    var l, l' := w.state.ledger, w'.state.ledger;
    assert l'.stakes == l.stakes[0 := Record(x, 1, Active)];
    assert l'.validators == l.validators[0 := l'.validators[0]];
    assert L.Recognize(l, 0, 0) == Some(l');
    assert l'.stakes[0 := l'.stakes[0]] == l'.stakes && l'.validators[0 := l'.validators[0]] == l'.validators;
    assert L.Observe(l', 0, 0, x, 0) == Some(l');
    assert w.chain.accounts[Address(1) := StakeOf(x, false)] == w.chain.accounts;
    assert SettleActive(w', 0, Address(1), 0, x, false) == Some(w');
    assert UpdateActiveCore(w, 0, Address(1), 0, false) == Some(w');
    assert |l'.stakes| == 2 && L.Progress(l') == Some(l');
    UpdateActiveEnds(w, 0, Address(1), 0, false, w', l');
  }

  lemma PairDeactivated(x: nat)
    requires 0 < x && 2 * x <= U64_MAX
    ensures Permitted(VisitedPair(x, false).chain, VisitedPair(x, true).chain)
  {
  }

  lemma PairCollected(x: nat)
    requires 0 < x && 2 * x <= U64_MAX
    ensures UpdateDeactivated(VisitedPair(x, true), 0, Address(1), 0, false)
            == Some(RemovedPair(x, IteratingValidators(0, 0), x))
  {
    var w := VisitedPair(x, true);
    var l := w.state.ledger;
    var l1 := l.(stakes := [Record(x, 1, Active).(emergency := true), Record(x, 2, Unknown)], totalActive := x,
                 emergencyCooling := x, validators := [ValidatorRecord(VOTE, x, 1, 0, x)]);
    assert l1.stakes == l.stakes[0 := l1.stakes[0]] && l1.validators == l.validators[0 := l1.validators[0]];
    assert L.Reclassify(l, 0, 0) == Some(l1);
    var w2 := RemovedPair(x, IteratingStakes(1, x, 0), x);
    assert SwapRemove(l1.stakes, 0) == w2.state.ledger.stakes;
    assert w.chain.accounts - {Address(1)} == w2.chain.accounts;
    assert L.Draw(l1, x, true) == Some(l1.(emergencyCooling := 0));
    assert SettleDeactivated(w.(state := w.state.(ledger := l1)), 0, Address(1), false) == Some(w2);
    assert UpdateDeactivatedCore(w, 0, Address(1), 0, false) == Some(w2);
  }

  lemma PairFinalized(x: nat)
    requires 0 < x && 2 * x <= U64_MAX
    ensures FinalizeUpgrade(RemovedPair(x, IteratingValidators(0, 0), x), 1) == Some(RemovedPair(x, Done, 0))
  {
    var l := RemovedPair(x, IteratingValidators(0, 0), x).state.ledger;
    assert l.validators[0..1] == l.validators && l.validators[..0] == [];
    assert L.Gaps(l.validators) == 0;
    assert L.SettleRange(l.validators, 0, 1) == RemovedPair(x, Done, 0).state.ledger.validators;
  }

  lemma PairRun(x: nat)
    requires 0 < x && 2 * x <= U64_MAX
    ensures Permitted(VisitedPair(x, false).chain, VisitedPair(x, true).chain)
    ensures Run(LegacyPair(x), ForcedDeactivation(VisitedPair(x, true).chain)[..1]) == VisitedPair(x, false)
    ensures Run(LegacyPair(x), ForcedDeactivation(VisitedPair(x, true).chain) + [DoFinalizeUpgrade(1)])
            == RemovedPair(x, Done, 0)
  {
    PairVisited(x);
    PairDeactivated(x);
    PairCollected(x);
    PairFinalized(x);
    var w3 := RemovedPair(x, IteratingValidators(0, 0), x);
    ForcedRun(LegacyPair(x), VisitedPair(x, false), VisitedPair(x, true), w3, [DoFinalizeUpgrade(1)]);
    FinalizeRun(w3, RemovedPair(x, Done, 0));
  }

  /** No update can ever visit the record that was left out. */
  lemma PairIsStuck(x: nat, i: nat, account: Key, j: nat, treasury: bool)
    ensures UpdateActive(RemovedPair(x, Done, 0), i, account, j, treasury) == None
  {
    if i == 0 && j == 0 {
      assert L.Recognize(RemovedPair(x, Done, 0).state.ledger, 0, 0) == None;
    }
  }

  /** Phase 1: the first of two equal stakes of a legacy state is visited, deactivated by somebody
      else, and removed. The migration then ends although the second record was never visited, and
      the active total is not the sum of the Active records. */
  lemma ForcedDeactivationBreaksMigration(x: nat)
    requires 0 < x && 2 * x <= U64_MAX
    ensures Legacy(LegacyPair(x)) && Permitted(VisitedPair(x, false).chain, VisitedPair(x, true).chain)
    ensures Run(LegacyPair(x), ForcedDeactivation(VisitedPair(x, true).chain)[..1]) == VisitedPair(x, false)
    ensures var w := Run(LegacyPair(x), ForcedDeactivation(VisitedPair(x, true).chain) + [DoFinalizeUpgrade(1)]);
            && w.state.ledger.upgrader.Done?
            && w.state.ledger.stakes == [Record(x, 2, Unknown)]
            && w.state.ledger.totalActive == x && Total(ActiveStake, w.chain.accounts, w.state.ledger.stakes) == 0
            && (forall i: nat, account, j: nat, treasury :: UpdateActive(w, i, account, j, treasury) == None)
  {
    PairIsLegacy(x);
    PairRun(x);
    assert RemovedPair(x, Done, 0).state.ledger.stakes[..0] == [];
    forall i: nat, account, j: nat, treasury ensures UpdateActive(RemovedPair(x, Done, 0), i, account, j, treasury) == None {
      PairIsStuck(x, i, account, j, treasury);
    }
  }

  // ---------- phase 2: one stake ----------

  function OneAccount(x: nat, deactivating: bool): Accounts {
    map[Address(1) := StakeOf(x, deactivating)]
  }

  function LegacyOne(x: nat): World {
    Example(Ledger([Record(x, 1, Unknown)], [ValidatorRecord(VOTE, x, 1, 0, 0)], x, 0, 0, 1,
                   IteratingStakes(0, 0, 0)), {VOTE},
            OneAccount(x, false), 0)
  }

  /** Visited, which ends phase 1. */
  function VisitedOne(x: nat, deactivating: bool): World {
    Example(Ledger([Record(x, 1, Active)], [ValidatorRecord(VOTE, x, 1, 0, x)], x, 0, 0, 1,
                   IteratingValidators(0, 0)), {VOTE},
            OneAccount(x, deactivating), 0)
  }

  /** The balance is gone, the confirmed balance is not. */
  function RemovedOne(x: nat): World {
    Example(Ledger([], [ValidatorRecord(VOTE, 0, 1, 0, x)], 0, 0, 0, 1, IteratingValidators(0, 0)), {VOTE}, map[], x)
  }

  lemma OneIsLegacy(x: nat)
    requires 0 < x && 2 * x <= U64_MAX
    ensures Legacy(LegacyOne(x))
  {
    var l, a := LegacyOne(x).state.ledger, LegacyOne(x).chain.accounts;
    var s, vs := l.stakes, l.validators;
    assert s[..0] == [] && vs[..0] == [];
    forall k: Kind ensures Total(k, a, s) == Weight(k, a, s[0]) {
      assert Total(k, a, s) == Total(k, a, s[..0]) + Weight(k, a, s[0]);
    }
    assert WellFormed(l, a);
    assert Sum(Balance, vs) == x;
    assert Total(LegacyLive, a, s) == x;
    assert Total(LegacyDelayed, a, s) == 0 && Total(LegacyEmergency, a, s) == 0;
    assert Total(LegacyLiveFor(VOTE), a, s) == x;
    assert forall vote :: vote != VOTE ==> Total(LegacyLiveFor(vote), a, s) == 0;
    assert forall vote :: vote in LegacyOne(x).chain.flags <==> Listed(l.validators, vote) by {
      assert vs[0].vote == VOTE;
    }
  }

  lemma OneVisited(x: nat)
    requires 0 < x && 2 * x <= U64_MAX
    ensures UpdateActive(LegacyOne(x), 0, Address(1), 0, false) == Some(VisitedOne(x, false))
  {
    var w := LegacyOne(x);
    var l, l' := w.state.ledger, VisitedOne(x, false).state.ledger.(upgrader := IteratingStakes(1, x, 0));
    var w' := w.(state := w.state.(ledger := l'));
    assert l'.stakes == l.stakes[0 := Record(x, 1, Active)];
    assert l'.validators == l.validators[0 := l'.validators[0]];
    assert L.Recognize(l, 0, 0) == Some(l');
    assert l'.stakes[0 := l'.stakes[0]] == l'.stakes && l'.validators[0 := l'.validators[0]] == l'.validators;
    assert L.Observe(l', 0, 0, x, 0) == Some(l');
    assert w.chain.accounts[Address(1) := StakeOf(x, false)] == w.chain.accounts;
    assert SettleActive(w', 0, Address(1), 0, x, false) == Some(w');
    assert UpdateActiveCore(w, 0, Address(1), 0, false) == Some(w');
    assert |l'.stakes| == 1 && L.Progress(l') == Some(VisitedOne(x, false).state.ledger);
    UpdateActiveEnds(w, 0, Address(1), 0, false, w', VisitedOne(x, false).state.ledger);
  }

  lemma OneDeactivated(x: nat)
    requires 0 < x && 2 * x <= U64_MAX
    ensures Permitted(VisitedOne(x, false).chain, VisitedOne(x, true).chain)
  {
  }

  lemma OneCollected(x: nat)
    requires 0 < x && 2 * x <= U64_MAX
    ensures UpdateDeactivated(VisitedOne(x, true), 0, Address(1), 0, false) == Some(RemovedOne(x))
  {
    var w, w2 := VisitedOne(x, true), RemovedOne(x);
    var l := w.state.ledger;
    var l1 := l.(stakes := [Record(x, 1, Active).(emergency := true)], totalActive := 0, emergencyCooling := x,
                 validators := w2.state.ledger.validators);
    assert l1.stakes == l.stakes[0 := l1.stakes[0]] && l1.validators == l.validators[0 := l1.validators[0]];
    assert L.Reclassify(l, 0, 0) == Some(l1);
    assert SwapRemove(l1.stakes, 0) == [];
    assert w.chain.accounts - {Address(1)} == map[];
    assert L.Draw(l1, x, true) == Some(l1.(emergencyCooling := 0));
    assert SettleDeactivated(w.(state := w.state.(ledger := l1)), 0, Address(1), false) == Some(w2);
    assert UpdateDeactivatedCore(w, 0, Address(1), 0, false) == Some(w2);
  }

  lemma OneIsShort(x: nat)
    requires 0 < x
    ensures Short(RemovedOne(x).state.ledger)
  {
    var vs := RemovedOne(x).state.ledger.validators;
    assert vs[0..] == vs && vs[..0] == [];
    assert L.Gaps(vs) + x == 0;
  }

  /** Phase 2: the only stake of a legacy state is visited, deactivated by somebody else, and removed
      before its validator is finalized. No finalize call can then pass the validator, and on no run
      does the migration end, nor any instruction succeed that waits for its end. */
  lemma ForcedDeactivationBlocksMigration(x: nat)
    requires 0 < x && 2 * x <= U64_MAX
    ensures Legacy(LegacyOne(x)) && Permitted(VisitedOne(x, false).chain, VisitedOne(x, true).chain)
    ensures var w := Run(LegacyOne(x), ForcedDeactivation(VisitedOne(x, true).chain));
            && w.state.ledger.upgrader == IteratingValidators(0, 0) && !w.state.cfg.paused
            && (forall max: nat :: max > 0 ==> FinalizeUpgrade(w, max) == None)
            && (forall steps: seq<Step> :: Run(w, steps).state.ledger.upgrader.IteratingValidators?)
  {
    OneIsLegacy(x);
    OneVisited(x);
    OneDeactivated(x);
    OneCollected(x);
    ForcedRun(LegacyOne(x), VisitedOne(x, false), VisitedOne(x, true), RemovedOne(x), []);
    assert ForcedDeactivation(VisitedOne(x, true).chain) + [] == ForcedDeactivation(VisitedOne(x, true).chain);
    forall max: nat | max > 0 ensures FinalizeUpgrade(RemovedOne(x), max) == None {
      assert RemovedOne(x).state.ledger.validators[0].upgraderBalance > RemovedOne(x).state.ledger.validators[0].balance;
    }
    OneIsShort(x);
    forall steps: seq<Step> ensures Run(RemovedOne(x), steps).state.ledger.upgrader.IteratingValidators? {
      RunStaysShort(RemovedOne(x), steps);
    }
  }
}
