/** Every instruction keeps the ledger invariant, in every phase of the migration it may run in. */
module LedgerSafety {
  import opened Base
  import opened Model
  import opened Instructions
  import opened Parts
  import opened Totals
  import opened Soundness
  import opened Migration
  import L = LedgerOps

  /** The ledger is sound and the duplication flags are those of the listed validators. */
  ghost predicate WorldOk(w: World) {
    && Sound(w.state.ledger, w.chain.accounts)
    && (forall vote :: vote in w.chain.flags <==> Listed(w.state.ledger.validators, vote))
  }

  lemma UnlistedAccount(l: Ledger, a: Accounts, account: Key)
    requires WellFormed(l, a)
    requires account !in a || !a[account].ours
    ensures NewTo(l.stakes, account)
  {
    forall m | 0 <= m < |l.stakes| ensures l.stakes[m].account != account {
      assert RecordOk(a, l.stakes[m]);
    }
  }

  /** Changing the account of record `i` alone keeps the delegations of all other records. */
  lemma OthersKept(l: Ledger, a: Accounts, a': Accounts, i: nat)
    requires WellFormed(l, a) && i < |l.stakes|
    requires forall x :: x in a && x != l.stakes[i].account ==> x in a' && a'[x] == a[x]
    ensures KeepsOthers(a, a', l.stakes, i)
  {
    forall m | 0 <= m < |l.stakes| && m != i ensures Keeps(a, a', l.stakes[m].account) {
      assert RecordOk(a, l.stakes[m]);
    }
  }

  lemma AllKept(l: Ledger, a: Accounts, a': Accounts, i: nat)
    requires WellFormed(l, a) && i < |l.stakes|
    requires forall x :: x in a && x != l.stakes[i].account ==> x in a' && a'[x] == a[x]
    requires Keeps(a, a', l.stakes[i].account)
    ensures KeepsAll(a, a', l.stakes)
  {
    OthersKept(l, a, a', i);
  }

  lemma DepositStakeAccountOk(w: World, account: Key, j: nat, w': World)
    requires WorldOk(w) && DepositStakeAccount(w, account, j) == Some(w')
    ensures WorldOk(w')
  {
    var l, a, a' := w.state.ledger, w.chain.accounts, w'.chain.accounts;
    var d := a[account].delegation.value;
    UnlistedAccount(l, a, account);
    forall m | 0 <= m < |l.stakes| ensures Keeps(a, a', l.stakes[m].account) {
      assert RecordOk(a, l.stakes[m]);
    }
    AddActiveSound(l, a, w'.state.ledger, a', account, d.stake, w.chain.clock.epoch, j, l.validators[j].lastDeltaEpoch);
    ListedSet(l.validators, j, w'.state.ledger.validators[j]);
  }

  lemma DelegateReserveOk(w: World, j: nat, vote: Key, account: Key, amount: nat, w': World)
    requires WorldOk(w) && w.state.ledger.upgrader.Done? && account !in w.chain.accounts
    requires j < |w.state.ledger.validators| && w.state.ledger.validators[j].vote == vote
    requires DelegateReserve(w, j, vote, account, amount) == Some(w')
    ensures WorldOk(w')
  {
    var l, a, a' := w.state.ledger, w.chain.accounts, w'.chain.accounts;
    UnlistedAccount(l, a, account);
    forall m | 0 <= m < |l.stakes| ensures Keeps(a, a', l.stakes[m].account) {
      assert RecordOk(a, l.stakes[m]);
    }
    AddActiveSound(l, a, w'.state.ledger, a', account, amount, w.chain.clock.epoch, j, w.chain.clock.epoch);
    ListedSet(l.validators, j, w'.state.ledger.validators[j]);
  }

  lemma StakeReserveOk(w: World, j: nat, vote: Key, account: Key, w': World)
    requires WorldOk(w) && StakeReserve(w, j, vote, account) == Some(w')
    ensures WorldOk(w')
  {
    var w1, amount := StakeReserveDelegates(w, j, vote, account, w');
    if w' != w1 {
      DelegateReserveOk(w1, j, vote, account, amount, w');
    }
  }

  /** Deactivating the account of record `i` and retiring the record. */
  lemma RetireOk(l: Ledger, l': Ledger, c: Chain, c': Chain, i: nat, j: nat, emergency: bool)
    requires Sound(l, c.accounts) && l.upgrader.Done?
    requires i < |l.stakes| && j < |l.validators| && l.stakes[i].status.Active?
    requires Voter(c.accounts, l.stakes[i].account) == Some(l.validators[j].vote)
    requires CpiDeactivate(c, l.stakes[i].account) == Some(c')
    requires L.Retire(l, i, j, emergency) == Some(l')
    ensures Sound(l', c'.accounts) && c'.flags == c.flags
    ensures forall vote :: Listed(l'.validators, vote) <==> Listed(l.validators, vote)
  {
    assert RecordOk(c.accounts, l.stakes[i]);
    OthersKept(l, c.accounts, c'.accounts, i);
    RetireSound(l, c.accounts, l', c'.accounts, i, j, emergency);
    RetireFollows(l, l', i, j, emergency);
    ListedSet(l.validators, j, l'.validators[j]);
  }

  /** Splitting the account of record `i`, deactivating the new part and recording it. */
  lemma SplitOffOk(l: Ledger, l': Ledger, c: Chain, c1: Chain, c': Chain, i: nat, j: nat, amount: nat,
                   account: Key, epoch: nat, emergency: bool, deltaEpoch: nat)
    requires Sound(l, c.accounts) && l.upgrader.Done?
    requires i < |l.stakes| && j < |l.validators| && l.stakes[i].status.Active?
    requires Voter(c.accounts, l.stakes[i].account) == Some(l.validators[j].vote)
    requires CpiSplit(c, l.stakes[i].account, amount, account, true) == Some(c1)
    requires CpiDeactivate(c1, account) == Some(c')
    requires L.SplitOff(l, i, j, amount, account, epoch, emergency, deltaEpoch) == Some(l')
    ensures Sound(l', c'.accounts) && c'.flags == c.flags
    ensures forall vote :: Listed(l'.validators, vote) <==> Listed(l.validators, vote)
  {
    assert RecordOk(c.accounts, l.stakes[i]);
    UnlistedAccount(l, c.accounts, account);
    AllKept(l, c.accounts, c'.accounts, i);
    SplitOffSound(l, c.accounts, l', c'.accounts, i, j, amount, account, epoch, emergency, deltaEpoch);
    SplitOffFollows(l, l', i, j, amount, account, epoch, emergency, deltaEpoch);
    ListedSet(l.validators, j, l'.validators[j]);
  }

  lemma CoolWholeOk(w: World, i: nat, account: Key, j: nat, emergency: bool, w': World)
    requires WorldOk(w) && Unstakable(w, i, account, j) && CoolWhole(w, i, account, j, emergency) == Some(w')
    ensures WorldOk(w')
  {
    RetireOk(w.state.ledger, w'.state.ledger, w.chain, w'.chain, i, j, emergency);
  }

  lemma CoolPartOk(w: World, i: nat, account: Key, j: nat, amount: nat, splitAccount: Key, emergency: bool,
                   deltaEpoch: nat, w': World)
    requires WorldOk(w) && Unstakable(w, i, account, j) && splitAccount !in w.chain.accounts
    requires CoolPart(w, i, account, j, amount, splitAccount, emergency, deltaEpoch) == Some(w')
    ensures WorldOk(w')
  {
    var c1 := CpiSplit(w.chain, account, amount, splitAccount, true).value;
    SplitOffOk(w.state.ledger, w'.state.ledger, w.chain, c1, w'.chain, i, j, amount, splitAccount,
               w.chain.clock.epoch, emergency, deltaEpoch);
  }

  lemma DeactivateStakeOk(w: World, i: nat, account: Key, j: nat, splitAccount: Key, w': World)
    requires WorldOk(w) && DeactivateStake(w, i, account, j, splitAccount) == Some(w')
    ensures WorldOk(w')
  {
    var amount := DeactivateStakeCools(w, i, account, j, splitAccount, w');
    if CoolWhole(Marked(w), i, account, j, false) == Some(w') {
      CoolWholeOk(Marked(w), i, account, j, false, w');
    } else if w' != w {
      CoolPartOk(Marked(w), i, account, j, amount, splitAccount, false, w.chain.clock.epoch, w');
    }
  }

  lemma EmergencyUnstakeOk(w: World, i: nat, account: Key, j: nat, w': World)
    requires WorldOk(w) && EmergencyUnstake(w, i, account, j) == Some(w')
    ensures WorldOk(w')
  {
    RetireOk(w.state.ledger, w'.state.ledger, w.chain, w'.chain, i, j, true);
  }

  lemma PartialUnstakeOk(w: World, i: nat, account: Key, j: nat, desired: nat, splitAccount: Key, w': World)
    requires WorldOk(w) && PartialUnstake(w, i, account, j, desired, splitAccount) == Some(w')
    ensures WorldOk(w')
  {
    if w' != w {
      var w1, moved := PartialUnstakeCools(w, i, account, j, desired, splitAccount, w');
      if CoolWhole(w1, i, account, j, true) == Some(w') {
        CoolWholeOk(w1, i, account, j, true, w');
      } else {
        CoolPartOk(w1, i, account, j, moved, splitAccount, true, w.state.ledger.validators[j].lastDeltaEpoch, w');
      }
    }
  }

  lemma WithdrawStakeAccountOk(w: World, i: nat, account: Key, j: nat, msol: nat, treasury: bool,
                               splitAccount: Key, w': World)
    requires WorldOk(w) && WithdrawStakeAccount(w, i, account, j, msol, treasury, splitAccount) == Some(w')
    ensures WorldOk(w')
  {
    var split, burned := WithdrawSplits(w, i, account, j, msol, treasury, splitAccount, w');
    var l, a, l', a' := w.state.ledger, w.chain.accounts, w'.state.ledger, w'.chain.accounts;
    assert RecordOk(a, l.stakes[i]);
    AllKept(l, a, a', i);
    ReleaseSound(l, a, l', a', i, j, split);
    ListedSet(l.validators, j, l'.validators[j]);
  }

  lemma MergeStakesOk(w: World, dst: nat, dstAccount: Key, src: nat, srcAccount: Key, j: nat, merged: nat, w': World)
    requires WorldOk(w) && MergeStakes(w, dst, dstAccount, src, srcAccount, j, merged) == Some(w')
    ensures WorldOk(w')
  {
    var l, a, l', a' := w.state.ledger, w.chain.accounts, w'.state.ledger, w'.chain.accounts;
    forall m | 0 <= m < |l.stakes| && m != src ensures Keeps(a, a', l.stakes[m].account) {
      assert RecordOk(a, l.stakes[m]);
    }
    MergeSound(l, a, l', a', dst, src, j, merged);
    ListedSet(l.validators, j, l'.validators[j]);
  }

  lemma CreateCanonicalStakeOk(w: World, i: nat, account: Key, j: nat, w': World)
    requires WorldOk(w) && CreateCanonicalStake(w, i, account, j) == Some(w')
    ensures WorldOk(w')
  {
    var l, a, a' := w.state.ledger, w.chain.accounts, w'.chain.accounts;
    var canonical := CanonicalStake(l.validators[j].vote);
    UnlistedAccount(l, a, canonical);
    OthersKept(l, a, a', i);
    RehomeSound(l, a, a', i, j, canonical, w.chain.clock.epoch);
  }

  lemma AddValidatorOk(w: World, vote: Key, score: nat, w': World)
    requires WorldOk(w) && AddValidator(w, vote, score) == Some(w')
    ensures WorldOk(w')
  {
    AddValidatorSettled(w.state.ledger, w.chain.accounts, w'.state.ledger, vote, score);
  }

  lemma RemoveValidatorOk(w: World, j: nat, vote: Key, w': World)
    requires WorldOk(w) && RemoveValidator(w, j, vote) == Some(w')
    ensures WorldOk(w')
  {
    RemoveValidatorSettled(w.state.ledger, w.chain.accounts, w'.state.ledger, j);
  }

  lemma SetValidatorScoreOk(w: World, j: nat, vote: Key, score: nat, w': World)
    requires WorldOk(w) && SetValidatorScore(w, j, vote, score) == Some(w')
    ensures WorldOk(w')
  {
    SetScoreSound(w.state.ledger, w.chain.accounts, w'.state.ledger, j, score);
  }

  /** The ledger part of update_active before the progression check. */
  lemma UpdateActiveCoreLedger(w: World, i: nat, account: Key, j: nat, treasury: bool, w': World) returns (l1: Ledger)
    requires UpdateActiveCore(w, i, account, j, treasury) == Some(w')
    ensures i < |w.state.ledger.stakes| && j < |w.state.ledger.validators|
    ensures w.state.ledger.stakes[i].account == account && !w.state.ledger.stakes[i].status.Deactivating?
    ensures account in w.chain.accounts && w.chain.accounts[account].delegation.Some?
    ensures Voter(w.chain.accounts, account) == Some(w.state.ledger.validators[j].vote)
    ensures !IsDeactivating(w.chain.accounts, account) && !w.state.ledger.upgrader.IteratingValidators?
    ensures L.Recognize(w.state.ledger, i, j) == Some(l1)
    ensures var d := w.chain.accounts[account].delegation.value;
            L.Observe(l1, i, j, d.stake, w.chain.clock.epoch) == Some(w'.state.ledger)
    ensures exists lamports :: w'.chain.accounts ==
                               w.chain.accounts[account := w.chain.accounts[account].(lamports := lamports)]
    ensures w'.chain.flags == w.chain.flags
  {
    l1 := L.Recognize(w.state.ledger, i, j).value;
    assert w'.chain.accounts == w.chain.accounts[account := w.chain.accounts[account].(
      lamports := w'.chain.accounts[account].lamports)];
  }

  lemma ObserveShape(l: Ledger, l': Ledger, i: nat, j: nat, stake: nat, epoch: nat)
    requires i < |l.stakes| && j < |l.validators|
    requires L.Observe(l, i, j, stake, epoch) == Some(l')
    ensures l'.stakes == l.stakes[i := l.stakes[i].(lamports := stake, updatedEpoch := epoch)]
    ensures |l'.validators| == |l.validators| && l'.validators == l.validators[j := l'.validators[j]]
    ensures l'.validators[j].vote == l.validators[j].vote
    ensures l'.upgrader.IteratingStakes? <==> l.upgrader.IteratingStakes?
  {
  }

  lemma RecognizeShape(l: Ledger, l': Ledger, i: nat, j: nat)
    requires i < |l.stakes| && j < |l.validators|
    requires L.Recognize(l, i, j) == Some(l')
    ensures l'.stakes == l.stakes[i := l'.stakes[i]]
    ensures l'.stakes[i] == l.stakes[i].(status := if l.stakes[i].status.Unknown? then Active else l.stakes[i].status)
    ensures |l'.validators| == |l.validators| && l'.validators == l.validators[j := l'.validators[j]]
    ensures l'.validators[j].vote == l.validators[j].vote
    ensures l'.upgrader.IteratingStakes? <==> l.upgrader.IteratingStakes?
    ensures l'.upgrader.IteratingValidators? <==> l.upgrader.IteratingValidators?
  {
  }

  lemma VisitCounts(a: Accounts, a': Accounts, s: seq<StakeRecord>, i: nat, r: StakeRecord)
    requires i < |s| && !s[i].status.Deactivating? && r.status.Active?
    requires KeepsOthers(a, a', s, i)
    ensures var unknown := Total(CountUnknown, a, s);
            Total(CountUnknown, a', s[i := r]) == if s[i].status.Unknown? then unknown - 1 else unknown
  {
    TotalSet(CountUnknown, a, a', s, i, r);
  }

  /** A visited record with its delegation brought up to date. */
  lemma VisitOk(l: Ledger, l1: Ledger, l': Ledger, a: Accounts, a': Accounts, i: nat, j: nat, stake: nat, epoch: nat)
    requires Sound(l, a) && !l.upgrader.IteratingValidators?
    requires i < |l.stakes| && j < |l.validators| && !l.stakes[i].status.Deactivating?
    requires l.stakes[i].account in a && !IsDeactivating(a, l.stakes[i].account)
    requires Voter(a, l.stakes[i].account) == Some(l.validators[j].vote)
    requires L.Recognize(l, i, j) == Some(l1) && L.Observe(l1, i, j, stake, epoch) == Some(l')
    requires KeepsAll(a, a', l.stakes)
    ensures Sound(l', a')
    ensures |l'.stakes| == |l.stakes| && l'.stakes[i].status.Active?
    ensures var unknown := Total(CountUnknown, a, l.stakes);
            Total(CountUnknown, a', l'.stakes) == if l.stakes[i].status.Unknown? then unknown - 1 else unknown
    ensures forall vote :: Listed(l'.validators, vote) <==> Listed(l.validators, vote)
  {
    RecognizeShape(l, l1, i, j);
    ObserveShape(l1, l', i, j, stake, epoch);
    VisitCounts(a, a', l.stakes, i, l'.stakes[i]);
    RecognizeSound(l, a, l1, i, j);
    ObserveSound(l1, a, l', a', i, j, stake, epoch);
    ListedSet(l.validators, j, l'.validators[j]);
    assert l'.validators == l.validators[j := l'.validators[j]];
    assert l'.stakes == l.stakes[i := l'.stakes[i]];
  }

  lemma UpdateActiveCoreOk(w: World, i: nat, account: Key, j: nat, treasury: bool, w': World)
    requires WorldOk(w) && UpdateActiveCore(w, i, account, j, treasury) == Some(w')
    ensures WorldOk(w')
    ensures i < |w.state.ledger.stakes| == |w'.state.ledger.stakes| && w'.state.ledger.stakes[i].status.Active?
    ensures var unknown := Total(CountUnknown, w.chain.accounts, w.state.ledger.stakes);
            Total(CountUnknown, w'.chain.accounts, w'.state.ledger.stakes)
            == if w.state.ledger.stakes[i].status.Unknown? then unknown - 1 else unknown
  {
    var l, a := w.state.ledger, w.chain.accounts;
    var l1 := UpdateActiveCoreLedger(w, i, account, j, treasury, w');
    assert RecordOk(a, l.stakes[i]);
    AllKept(l, a, w'.chain.accounts, i);
    VisitOk(l, l1, w'.state.ledger, a, w'.chain.accounts, i, j, a[account].delegation.value.stake, w.chain.clock.epoch);
  }

  /** The progression check never turns a successful update into an error. */
  lemma UpdateActiveOk(w: World, i: nat, account: Key, j: nat, treasury: bool)
    requires WorldOk(w)
    ensures UpdateActive(w, i, account, j, treasury).Some? <==> UpdateActiveCore(w, i, account, j, treasury).Some?
    ensures UpdateActive(w, i, account, j, treasury).Some? ==> WorldOk(UpdateActive(w, i, account, j, treasury).value)
  {
    if UpdateActiveCore(w, i, account, j, treasury).Some? {
      var w1 := UpdateActiveCore(w, i, account, j, treasury).value;
      UpdateActiveCoreOk(w, i, account, j, treasury, w1);
      ProgressSound(w1.state.ledger, w1.chain.accounts);
    }
  }

  /** What a run must respect while the migration lasts: in phase 1 a visited record is not removed,
      in phase 2 no stake is removed from a validator that was not visited yet. */
  predicate Collectable(l: Ledger, i: nat, j: nat)
    requires i < |l.stakes|
  {
    match l.upgrader
    case IteratingStakes(_, _, _) => !l.stakes[i].status.Active?
    case IteratingValidators(next, _) => j < next || l.stakes[i].lamports == 0
    case Done => true
  }

  predicate MayCollect(w: World, i: nat, j: nat) {
    i < |w.state.ledger.stakes| ==> Collectable(w.state.ledger, i, j)
  }

  lemma CollectShape(l: Ledger, l': Ledger, i: nat, j: nat)
    requires i < |l.stakes| && j < |l.validators|
    requires L.Collect(l, i, j) == Some(l')
    ensures l'.stakes == SwapRemove(l.stakes, i)
    ensures |l'.validators| == |l.validators| && l'.validators == l.validators[j := l'.validators[j]]
    ensures l'.validators[j].vote == l.validators[j].vote
  {
  }

  /** A deactivated record leaves the list and its account is closed. */
  lemma CollectOk(l: Ledger, l': Ledger, a: Accounts, a': Accounts, i: nat, j: nat)
    requires Sound(l, a) && i < |l.stakes| && j < |l.validators|
    requires Collectable(l, i, j)
    requires IsDeactivating(a, l.stakes[i].account)
    requires Voter(a, l.stakes[i].account) == Some(l.validators[j].vote)
    requires L.Collect(l, i, j) == Some(l') && a' == a - {l.stakes[i].account}
    ensures Sound(l', a')
    ensures forall vote :: Listed(l'.validators, vote) <==> Listed(l.validators, vote)
    ensures l.upgrader.IteratingStakes? ==>
              Total(CountUnknown, a', l'.stakes) == Total(CountUnknown, a, l.stakes) - 1
  {
    OthersKept(l, a, a', i);
    CollectShape(l, l', i, j);
    assert RecordOk(a, l.stakes[i]);
    match l.upgrader {
      case IteratingStakes(_, _, _) => CollectMigrating(l, a, l', a', i, j);
      case IteratingValidators(_, _) => CollectFinalizing(l, a, l', a', i, j);
      case Done => CollectSettled(l, a, l', a', i, j);
    }
    ListedSet(l.validators, j, l'.validators[j]);
  }

  lemma UpdateDeactivatedCoreOk(w: World, i: nat, account: Key, j: nat, treasury: bool, w': World)
    requires WorldOk(w) && MayCollect(w, i, j) && UpdateDeactivatedCore(w, i, account, j, treasury) == Some(w')
    ensures WorldOk(w')
    ensures w.state.ledger.upgrader.IteratingStakes? ==>
              Total(CountUnknown, w'.chain.accounts, w'.state.ledger.stakes)
              == Total(CountUnknown, w.chain.accounts, w.state.ledger.stakes) - 1
  {
    UpdateDeactivatedCollects(w, i, account, j, treasury, w');
    CollectOk(w.state.ledger, w'.state.ledger, w.chain.accounts, w'.chain.accounts, i, j);
  }

  lemma UpdateDeactivatedOk(w: World, i: nat, account: Key, j: nat, treasury: bool)
    requires WorldOk(w) && MayCollect(w, i, j)
    ensures UpdateDeactivated(w, i, account, j, treasury).Some?
            <==> UpdateDeactivatedCore(w, i, account, j, treasury).Some?
    ensures UpdateDeactivated(w, i, account, j, treasury).Some? ==>
              WorldOk(UpdateDeactivated(w, i, account, j, treasury).value)
  {
    if UpdateDeactivatedCore(w, i, account, j, treasury).Some? {
      var w1 := UpdateDeactivatedCore(w, i, account, j, treasury).value;
      UpdateDeactivatedCoreOk(w, i, account, j, treasury, w1);
      ProgressSound(w1.state.ledger, w1.chain.accounts);
    }
  }

  lemma FinalizeUpgradeOk(w: World, maxValidators: nat, w': World)
    requires WorldOk(w) && FinalizeUpgrade(w, maxValidators) == Some(w')
    ensures WorldOk(w')
  {
    var l := w.state.ledger;
    FinalizeSound(l, w.chain.accounts, maxValidators);
    GapsInRange(l, w.chain.accounts);
    FinalizeFollows(l, maxValidators);
    SettledListing(l.validators, l.upgrader.next, Min(|l.validators|, l.upgrader.next + maxValidators));
  }
}
