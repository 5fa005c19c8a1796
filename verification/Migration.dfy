/** The delinquent-upgrade migration: both phases keep the invariant, none of their checks can
    fail, and the invariant they hand over is the settled one. */
module Migration {
  import opened Base
  import opened Model
  import opened LedgerOps
  import opened Totals
  import opened Soundness

  // ---------- one step of phase 1 ----------

  /** How the sums phase 1 depends on change from `s` to `s'`; only `vote` is concerned. */
  ghost predicate LegacyShifted(a: Accounts, s: seq<StakeRecord>, a': Accounts, s': seq<StakeRecord>, vote: Key,
                                active: int, live: int, delayed: int, emergency: int, count: int)
  {
    && Total(ActiveStake, a', s') == Total(ActiveStake, a, s) + active
    && Total(LegacyLive, a', s') == Total(LegacyLive, a, s) + live
    && Total(LegacyDelayed, a', s') == Total(LegacyDelayed, a, s) + delayed
    && Total(LegacyEmergency, a', s') == Total(LegacyEmergency, a, s) + emergency
    && Total(CountActive, a', s') == Total(CountActive, a, s) + count
    && (forall x :: Total(ActiveFor(x), a', s') == Total(ActiveFor(x), a, s) + (if x == vote then active else 0))
    && (forall x :: Total(LegacyLiveFor(x), a', s') == Total(LegacyLiveFor(x), a, s) + (if x == vote then live else 0))
  }

  ghost predicate NoneDeactivating(s: seq<StakeRecord>) {
    forall m :: 0 <= m < |s| ==> !s[m].status.Deactivating?
  }

  /** What the ledger fields do in a phase 1 step: validator `j` grows by `growth`. */
  ghost predicate LegacyFollows(l: Ledger, l': Ledger, j: nat, active: int, covered: int, count: int, growth: int) {
    && l.upgrader.IteratingStakes? && l'.upgrader.IteratingStakes?
    && l'.upgrader.visited == l.upgrader.visited + count
    && l'.upgrader.active == l.upgrader.active + active
    && l'.totalActive + l'.delayedCooling + l'.emergencyCooling
       == l.totalActive + l.delayedCooling + l.emergencyCooling + covered
    && l'.totalActive + l'.upgrader.delinquent == l.totalActive + l.upgrader.delinquent + growth
    && j < |l.validators| == |l'.validators|
    && l'.validators == l.validators[j := l'.validators[j]]
    && l'.validators[j].vote == l.validators[j].vote
    && l'.validators[j].score == l.validators[j].score
    && l'.validators[j].balance == l.validators[j].balance + growth
    && l'.validators[j].upgraderBalance == l.validators[j].upgraderBalance + active
    && l'.totalScore == l.totalScore
  }

  lemma CoveredStep(l: Ledger, a: Accounts, l': Ledger, a': Accounts, j: nat, active: int, live: int,
                    delayed: int, emergency: int, count: int, growth: int)
    requires l.upgrader.IteratingStakes? && Migrating(l, a)
    requires LegacyFollows(l, l', j, active, active + live + delayed + emergency, count, growth)
    requires LegacyShifted(a, l.stakes, a', l'.stakes, l.validators[j].vote, active, live, delayed, emergency, count)
    requires growth >= active + live
    requires forall m, n :: 0 <= m < n < |l.validators| ==> l.validators[m].vote != l.validators[n].vote
    ensures forall m :: 0 <= m < |l'.validators| ==> BalanceCovers(l'.validators[m], a', l'.stakes)
  {
    forall m | 0 <= m < |l'.validators| ensures BalanceCovers(l'.validators[m], a', l'.stakes) {
      assert BalanceCovers(l.validators[m], a, l.stakes);
    }
  }

  lemma UnlistedStep(l: Ledger, a: Accounts, l': Ledger, a': Accounts, j: nat, active: int, live: int,
                     delayed: int, emergency: int, count: int)
    requires l.upgrader.IteratingStakes? && Migrating(l, a)
    requires j < |l.validators| == |l'.validators| && l'.validators == l.validators[j := l'.validators[j]]
    requires l'.validators[j].vote == l.validators[j].vote
    requires LegacyShifted(a, l.stakes, a', l'.stakes, l.validators[j].vote, active, live, delayed, emergency, count)
    ensures forall vote :: !Listed(l'.validators, vote) ==>
              Total(ActiveFor(vote), a', l'.stakes) == 0 == Total(LegacyLiveFor(vote), a', l'.stakes)
  {
    ListedSet(l.validators, j, l'.validators[j]);
  }

  lemma MigratingStep(l: Ledger, a: Accounts, l': Ledger, a': Accounts, j: nat, active: int, live: int,
                      delayed: int, emergency: int, count: int, growth: int)
    requires l.upgrader.IteratingStakes? && Migrating(l, a)
    requires LegacyFollows(l, l', j, active, active + live + delayed + emergency, count, growth)
    requires LegacyShifted(a, l.stakes, a', l'.stakes, l.validators[j].vote, active, live, delayed, emergency, count)
    requires growth >= active + live
    requires l'.delayedCooling <= Total(LegacyDelayed, a', l'.stakes)
    requires l'.emergencyCooling <= Total(LegacyEmergency, a', l'.stakes)
    requires NoneDeactivating(l'.stakes)
    requires forall m, n :: 0 <= m < n < |l.validators| ==> l.validators[m].vote != l.validators[n].vote
    ensures Migrating(l', a')
  {
    SumSet(Balance, l.validators, j, l'.validators[j]);
    SumSet(Upgraded, l.validators, j, l'.validators[j]);
    CoveredStep(l, a, l', a', j, active, live, delayed, emergency, count, growth);
    UnlistedStep(l, a, l', a', j, active, live, delayed, emergency, count);
  }

  lemma LegacySetStep(l: Ledger, a: Accounts, l': Ledger, a': Accounts, i: nat, j: nat, active: int, live: int,
                      count: int, growth: int)
    requires Sound(l, a) && l.upgrader.IteratingStakes?
    requires i < |l.stakes| == |l'.stakes|
    requires l'.stakes == l.stakes[i := l'.stakes[i]]
    requires l'.stakes[i].account == l.stakes[i].account && !l'.stakes[i].status.Deactivating?
    requires RecordOk(a', l'.stakes[i]) && KeepsAll(a, a', l.stakes)
    requires LegacyFollows(l, l', j, active, active + live, count, growth) && growth >= active + live
    requires l'.delayedCooling == l.delayedCooling && l'.emergencyCooling == l.emergencyCooling
    requires LegacyShifted(a, l.stakes, a', l'.stakes, l.validators[j].vote, active, live, 0, 0, count)
    ensures Sound(l', a')
  {
    WellFormedSet(l, a, l', a', i, j);
    MigratingStep(l, a, l', a', j, active, live, 0, 0, count, growth);
  }

  // ---------- recognizing an Unknown record ----------

  lemma RecognizeFollows(l: Ledger, l': Ledger, i: nat, j: nat)
    requires i < |l.stakes| && j < |l.validators| && l.stakes[i].status.Unknown?
    requires Recognize(l, i, j) == Some(l')
    ensures l'.stakes == l.stakes[i := l.stakes[i].(status := Active)]
    ensures LegacyFollows(l, l', j, l.stakes[i].lamports, 0, 1, 0)
    ensures l'.delayedCooling == l.delayedCooling && l'.emergencyCooling == l.emergencyCooling
  {
  }

  lemma RecognizeShifts(a: Accounts, s: seq<StakeRecord>, i: nat, vote: Key)
    requires i < |s| && s[i].status.Unknown? && !IsDeactivating(a, s[i].account)
    requires Voter(a, s[i].account) == Some(vote)
    ensures var x: int := s[i].lamports;
            LegacyShifted(a, s, a, s[i := s[i].(status := Active)], vote, x, -x, 0, 0, 1)
  {
    TotalsSet(a, a, s, i, s[i].(status := Active));
  }

  lemma RecognizeUnknown(l: Ledger, a: Accounts, l': Ledger, i: nat, j: nat)
    requires Sound(l, a)
    requires i < |l.stakes| && j < |l.validators| && l.stakes[i].status.Unknown?
    requires !IsDeactivating(a, l.stakes[i].account) && Voter(a, l.stakes[i].account) == Some(l.validators[j].vote)
    requires Recognize(l, i, j) == Some(l')
    ensures Sound(l', a)
  {
    var x: int := l.stakes[i].lamports;
    RecognizeFollows(l, l', i, j);
    RecognizeShifts(a, l.stakes, i, l.validators[j].vote);
    assert RecordOk(a, l.stakes[i]);
    LegacySetStep(l, a, l', a, i, j, x, -x, 1, 0);
  }

  lemma RecognizeSound(l: Ledger, a: Accounts, l': Ledger, i: nat, j: nat)
    requires Sound(l, a)
    requires i < |l.stakes| && j < |l.validators|
    requires !IsDeactivating(a, l.stakes[i].account) && Voter(a, l.stakes[i].account) == Some(l.validators[j].vote)
    requires Recognize(l, i, j) == Some(l')
    ensures Sound(l', a) && !l'.stakes[i].status.Unknown?
    ensures l.stakes[i].status.Unknown? ==>
              Total(CountUnknown, a, l'.stakes) == Total(CountUnknown, a, l.stakes) - 1
  {
    if l.stakes[i].status.Unknown? {
      RecognizeUnknown(l, a, l', i, j);
      RecognizeFollows(l, l', i, j);
      TotalSet(CountUnknown, a, a, l.stakes, i, l.stakes[i].(status := Active));
    }
  }

  /** Without Deactivating records, every record is counted once as Active or as Unknown. */
  lemma {:induction false} CountsAddUp(a: Accounts, s: seq<StakeRecord>)
    requires NoneDeactivating(s)
    ensures Total(CountActive, a, s) + Total(CountUnknown, a, s) == |s|
  {
    if s != [] {
      CountsAddUp(a, s[..|s| - 1]);
    }
  }

  /** The stored numbers fit the fields of the Rust structs. */
  predicate FitsFields(l: Ledger) {
    && |l.stakes| <= U32_MAX
    && l.totalActive <= U64_MAX
    && (forall j :: 0 <= j < |l.validators| ==> l.validators[j].balance <= U64_MAX)
    && (l.upgrader.IteratingStakes? ==> l.totalActive + l.upgrader.delinquent <= U64_MAX)
  }

  /** The two upper-bound checks of the migration always pass. */
  lemma RecognizeTotal(l: Ledger, a: Accounts, i: nat, j: nat)
    requires Sound(l, a) && FitsFields(l) && l.upgrader.IteratingStakes?
    requires i < |l.stakes| && j < |l.validators|
    requires !IsDeactivating(a, l.stakes[i].account) && Voter(a, l.stakes[i].account) == Some(l.validators[j].vote)
    ensures Recognize(l, i, j).Some?
  {
    if l.stakes[i].status.Unknown? {
      CountsAddUp(a, l.stakes);
      WeightInTotal(CountUnknown, a, l.stakes, i);
      WeightInTotal(LegacyLive, a, l.stakes, i);
      WeightInTotal(LegacyLiveFor(l.validators[j].vote), a, l.stakes, i);
    }
  }

  // ---------- observing a reward or a slash ----------

  lemma ObserveFollows(l: Ledger, l': Ledger, i: nat, j: nat, stake: nat, epoch: nat)
    requires i < |l.stakes| && j < |l.validators| && l.upgrader.IteratingStakes?
    requires Observe(l, i, j, stake, epoch) == Some(l')
    ensures l'.stakes == l.stakes[i := l.stakes[i].(lamports := stake, updatedEpoch := epoch)]
    ensures var x: int := stake - l.stakes[i].lamports; LegacyFollows(l, l', j, x, x, 0, x)
    ensures l'.delayedCooling == l.delayedCooling && l'.emergencyCooling == l.emergencyCooling
  {
  }

  lemma ObserveShifts(a: Accounts, a': Accounts, s: seq<StakeRecord>, i: nat, r: StakeRecord, vote: Key)
    requires i < |s| && s[i].status.Active? && r.status.Active?
    requires Voter(a, s[i].account) == Some(vote) == Voter(a', r.account)
    requires KeepsOthers(a, a', s, i)
    ensures LegacyShifted(a, s, a', s[i := r], vote, r.lamports - s[i].lamports, 0, 0, 0, 0)
  {
    TotalsSet(a, a', s, i, r);
  }

  lemma ObserveSound(l: Ledger, a: Accounts, l': Ledger, a': Accounts, i: nat, j: nat, stake: nat, epoch: nat)
    requires Sound(l, a) && !l.upgrader.IteratingValidators?
    requires i < |l.stakes| && j < |l.validators|
    requires l.stakes[i].status.Active?
    requires Voter(a, l.stakes[i].account) == Some(l.validators[j].vote)
    requires KeepsAll(a, a', l.stakes)
    requires Observe(l, i, j, stake, epoch) == Some(l')
    ensures Sound(l', a')
  {
    if l.upgrader.Done? {
      ObserveSettled(l, a, l', a', i, j, stake, epoch);
    } else {
      var x: int := stake - l.stakes[i].lamports;
      assert Keeps(a, a', l.stakes[i].account);
      ObserveFollows(l, l', i, j, stake, epoch);
      ObserveShifts(a, a', l.stakes, i, l'.stakes[i], l.validators[j].vote);
      assert RecordOk(a, l.stakes[i]);
      LegacySetStep(l, a, l', a', i, j, x, 0, 0, x);
    }
  }

  /** A slash can always be deducted from every total it touches. */
  lemma SlashTotal(l: Ledger, a: Accounts, i: nat, j: nat, stake: nat, epoch: nat)
    requires Sound(l, a) && !l.upgrader.IteratingValidators?
    requires i < |l.stakes| && j < |l.validators|
    requires l.stakes[i].status.Active? && stake < l.stakes[i].lamports
    requires Voter(a, l.stakes[i].account) == Some(l.validators[j].vote)
    ensures Observe(l, i, j, stake, epoch).Some?
  {
    WeightInTotal(ActiveStake, a, l.stakes, i);
    WeightInTotal(ActiveFor(l.validators[j].vote), a, l.stakes, i);
  }

  // ---------- collecting a deactivated record ----------

  lemma CollectFollowsLegacy(l: Ledger, l': Ledger, i: nat, j: nat)
    requires i < |l.stakes| && j < |l.validators| && l.upgrader.IteratingStakes?
    requires l.stakes[i].status.Unknown?
    requires Collect(l, i, j) == Some(l')
    ensures l'.stakes == SwapRemove(l.stakes, i)
    ensures var x: int := l.stakes[i].lamports; LegacyFollows(l, l', j, 0, -x, 0, 0)
    ensures var x: int := l.stakes[i].lamports; var e := l.stakes[i].emergency;
            && l'.delayedCooling == (if e then l.delayedCooling else SaturatingSub(l.delayedCooling, x))
            && l'.emergencyCooling == (if !e then l.emergencyCooling else SaturatingSub(l.emergencyCooling, x))
  {
  }

  lemma CollectShifts(a: Accounts, a': Accounts, s: seq<StakeRecord>, i: nat, vote: Key)
    requires i < |s| && s[i].status.Unknown? && IsDeactivating(a, s[i].account)
    requires KeepsOthers(a, a', s, i)
    ensures var x: int := s[i].lamports; var e := s[i].emergency;
            LegacyShifted(a, s, a', SwapRemove(s, i), vote, 0, 0, if e then 0 else -x, if e then -x else 0, 0)
    ensures Total(CountUnknown, a', SwapRemove(s, i)) == Total(CountUnknown, a, s) - 1
  {
    TotalsSwapRemove(a, s, i);
    var u := SwapRemove(s, i);
    forall m | 0 <= m < |u| ensures SameDelegation(a, a', u[m].account) {
      var o := Origin(|s|, i, m);
      assert u[m].account == s[o].account && Keeps(a, a', s[o].account);
    }
    TotalsFrame(a, a', u);
  }

  lemma LegacySwapStep(l: Ledger, a: Accounts, l': Ledger, a': Accounts, i: nat, j: nat,
                       delayed: int, emergency: int)
    requires Sound(l, a) && l.upgrader.IteratingStakes?
    requires i < |l.stakes| && l'.stakes == SwapRemove(l.stakes, i)
    requires KeepsOthers(a, a', l.stakes, i)
    requires LegacyFollows(l, l', j, 0, delayed + emergency, 0, 0)
    requires LegacyShifted(a, l.stakes, a', l'.stakes, l.validators[j].vote, 0, 0, delayed, emergency, 0)
    requires l'.delayedCooling <= Total(LegacyDelayed, a', l'.stakes)
    requires l'.emergencyCooling <= Total(LegacyEmergency, a', l'.stakes)
    ensures Sound(l', a')
  {
    WellFormedSwapRemove(l, a, l', a', i, j);
    forall m | 0 <= m < |l'.stakes| ensures !l'.stakes[m].status.Deactivating? {
      assert l'.stakes[m] == l.stakes[Origin(|l.stakes|, i, m)];
    }
    MigratingStep(l, a, l', a', j, 0, 0, delayed, emergency, 0, 0);
  }

  lemma CollectMigrating(l: Ledger, a: Accounts, l': Ledger, a': Accounts, i: nat, j: nat)
    requires Sound(l, a) && l.upgrader.IteratingStakes?
    requires i < |l.stakes| && j < |l.validators|
    requires l.stakes[i].status.Unknown? && IsDeactivating(a, l.stakes[i].account)
    requires KeepsOthers(a, a', l.stakes, i)
    requires Collect(l, i, j) == Some(l')
    ensures Sound(l', a')
    ensures Total(CountUnknown, a', l'.stakes) == Total(CountUnknown, a, l.stakes) - 1
  {
    var x: int := l.stakes[i].lamports;
    var e := l.stakes[i].emergency;
    CollectFollowsLegacy(l, l', i, j);
    CollectShifts(a, a', l.stakes, i, l.validators[j].vote);
    LegacySwapStep(l, a, l', a', i, j, if e then 0 else -x, if e then -x else 0);
  }

  lemma CollectSettledTotal(l: Ledger, a: Accounts, i: nat, j: nat)
    requires Sound(l, a) && l.upgrader.Done?
    requires i < |l.stakes| && j < |l.validators|
    requires l.emergencyCooling + l.totalActive <= U64_MAX
    requires Voter(a, l.stakes[i].account) == Some(l.validators[j].vote)
    ensures Collect(l, i, j).Some?
  {
    assert RecordOk(a, l.stakes[i]);
    WeightInTotal(ActiveStake, a, l.stakes, i);
    WeightInTotal(ActiveFor(l.validators[j].vote), a, l.stakes, i);
    WeightInTotal(DelayedStake, a, l.stakes, i);
    WeightInTotal(EmergencyStake, a, l.stakes, i);
  }

  lemma CollectMigratingTotal(l: Ledger, a: Accounts, i: nat, j: nat)
    requires Sound(l, a) && FitsFields(l) && l.upgrader.IteratingStakes?
    requires i < |l.stakes| && j < |l.validators|
    requires IsDeactivating(a, l.stakes[i].account) && l.stakes[i].status.Unknown?
    ensures Collect(l, i, j).Some?
  {
    WeightInTotal(LegacyDelayed, a, l.stakes, i);
    WeightInTotal(LegacyEmergency, a, l.stakes, i);
  }

  /** In phase 2 every record is Active, and its validator's balance still covers it. */
  lemma CollectFinalizingTotal(l: Ledger, a: Accounts, i: nat, j: nat)
    requires Sound(l, a) && l.upgrader.IteratingValidators? && l.totalActive <= U64_MAX
    requires i < |l.stakes| && j < |l.validators|
    requires Voter(a, l.stakes[i].account) == Some(l.validators[j].vote)
    ensures Collect(l, i, j).Some?
  {
    assert RecordOk(a, l.stakes[i]) && Halfway(l.validators[j], j < l.upgrader.next, a, l.stakes);
    WeightInTotal(ActiveStake, a, l.stakes, i);
    WeightInTotal(ActiveFor(l.validators[j].vote), a, l.stakes, i);
  }

  // ---------- deposits during the migration ----------

  lemma AddActiveFollowsLegacy(l: Ledger, l': Ledger, account: Key, amount: nat, epoch: nat, j: nat, deltaEpoch: nat)
    requires j < |l.validators| && l.upgrader.IteratingStakes?
    requires AddActive(l, account, amount, epoch, j, deltaEpoch) == Some(l')
    ensures l'.stakes == l.stakes + [StakeRecord(account, amount, epoch, false, Active)]
    ensures LegacyFollows(l, l', j, amount, amount, 1, amount)
    ensures l'.delayedCooling == l.delayedCooling && l'.emergencyCooling == l.emergencyCooling
  {
  }

  lemma PushShiftsLegacy(a: Accounts, a': Accounts, s: seq<StakeRecord>, r: StakeRecord, vote: Key)
    requires r.status.Active? && Voter(a', r.account) == Some(vote)
    requires KeepsAll(a, a', s)
    ensures LegacyShifted(a, s, a', s + [r], vote, r.lamports, 0, 0, 0, 1)
    ensures Total(CountUnknown, a', s + [r]) == Total(CountUnknown, a, s)
  {
    TotalsFrame(a, a', s);
    TotalsPush(a', s, r);
  }

  lemma AddActiveMigrating(l: Ledger, a: Accounts, l': Ledger, a': Accounts, account: Key, amount: nat,
                           epoch: nat, j: nat, deltaEpoch: nat)
    requires Sound(l, a) && l.upgrader.IteratingStakes?
    requires j < |l.validators|
    requires KeepsAll(a, a', l.stakes) && NewTo(l.stakes, account)
    requires Voter(a', account) == Some(l.validators[j].vote)
    requires AddActive(l, account, amount, epoch, j, deltaEpoch) == Some(l')
    requires RecordOk(a', StakeRecord(account, amount, epoch, false, Active))
    ensures Sound(l', a')
  {
    AddActiveFollowsLegacy(l, l', account, amount, epoch, j, deltaEpoch);
    PushShiftsLegacy(a, a', l.stakes, l'.stakes[|l.stakes|], l.validators[j].vote);
    WellFormedPush(l, a, l', a', j);
    MigratingStep(l, a, l', a', j, amount, 0, 0, 0, 1, amount);
  }

  // ---------- the hand-over to phase 2 ----------

  lemma {:induction false} GapsAreDifference(vs: seq<ValidatorRecord>)
    ensures Gaps(vs) == Sum(Balance, vs) - Sum(Upgraded, vs)
  {
    if vs != [] {
      GapsAreDifference(vs[..|vs| - 1]);
    }
  }

  /** With no Unknown record left nothing of the legacy totals remains. */
  lemma {:induction false} NoLegacyLeft(a: Accounts, s: seq<StakeRecord>)
    requires NoneDeactivating(s) && Total(CountUnknown, a, s) == 0
    ensures forall m :: 0 <= m < |s| ==> s[m].status.Active?
    ensures Total(LegacyLive, a, s) == Total(LegacyDelayed, a, s) == Total(LegacyEmergency, a, s) == 0
  {
    if s != [] {
      NoLegacyLeft(a, s[..|s| - 1]);
      assert forall m :: 0 <= m < |s| - 1 ==> s[m] == s[..|s| - 1][m];
    }
  }

  /** The progression check never fails, and phase 2 starts exactly when no Unknown record is left. */
  lemma ProgressSound(l: Ledger, a: Accounts)
    requires Sound(l, a)
    ensures Progress(l).Some? && Sound(Progress(l).value, a)
    ensures l.upgrader.IteratingStakes? ==>
              (Progress(l).value.upgrader.IteratingValidators? <==> Total(CountUnknown, a, l.stakes) == 0)
    ensures Progress(l).value.stakes == l.stakes
  {
    if l.upgrader.IteratingStakes? {
      CountsAddUp(a, l.stakes);
      if l.upgrader.visited == |l.stakes| {
        NoLegacyLeft(a, l.stakes);
        GapsAreDifference(l.validators);
        assert l.validators[0..] == l.validators;
        assert Finalizing(Progress(l).value, a);
      }
    }
  }

  // ---------- phase 2 ----------

  lemma {:induction false} GapsAppend(us: seq<ValidatorRecord>, vs: seq<ValidatorRecord>)
    ensures Gaps(us + vs) == Gaps(us) + Gaps(vs)
  {
    if vs == [] {
      assert us + vs == us;
    } else {
      var n := |vs| - 1;
      assert (us + vs)[..|us + vs| - 1] == us + vs[..n];
      GapsAppend(us, vs[..n]);
    }
  }

  lemma {:induction false} GapsSplit(vs: seq<ValidatorRecord>, lo: nat, hi: nat)
    requires lo <= hi <= |vs|
    ensures Gaps(vs[lo..]) == Gaps(vs[lo..hi]) + Gaps(vs[hi..])
  {
    assert vs[lo..] == vs[lo..hi] + vs[hi..];
    GapsAppend(vs[lo..hi], vs[hi..]);
  }

  /** Settling a range removes its gaps from the balances. */
  lemma {:induction false} SettledSum(vs: seq<ValidatorRecord>, lo: nat, hi: nat)
    requires lo <= hi <= |vs|
    ensures Sum(Balance, SettleRange(vs, lo, hi)) == Sum(Balance, vs) - Gaps(vs[lo..hi])
  {
    if lo == hi {
      assert SettleRange(vs, lo, hi) == vs;
    } else {
      SettledSum(vs, lo, hi - 1);
      var us := SettleRange(vs, lo, hi - 1);
      assert SettleRange(vs, lo, hi) == us[hi - 1 := Settle(us[hi - 1])];
      SumSet(Balance, us, hi - 1, Settle(us[hi - 1]));
      assert vs[lo..hi][..hi - lo - 1] == vs[lo..hi - 1];
    }
  }

  lemma SettledListing(vs: seq<ValidatorRecord>, lo: nat, hi: nat)
    requires lo <= hi <= |vs|
    ensures forall vote :: Listed(SettleRange(vs, lo, hi), vote) <==> Listed(vs, vote)
    ensures Sum(Score, SettleRange(vs, lo, hi)) == Sum(Score, vs)
    decreases hi
  {
    var us := SettleRange(vs, lo, hi);
    forall vote ensures Listed(us, vote) <==> Listed(vs, vote) {
      if Listed(vs, vote) {
        var m :| 0 <= m < |vs| && vs[m].vote == vote;
        assert us[m].vote == vote;
      }
      if Listed(us, vote) {
        var m :| 0 <= m < |us| && us[m].vote == vote;
        assert vs[m].vote == vote;
      }
    }
    if lo == hi {
      assert us == vs;
    } else {
      SettledListing(vs, lo, hi - 1);
      var ts := SettleRange(vs, lo, hi - 1);
      assert us == ts[hi - 1 := Settle(ts[hi - 1])];
      SumSet(Score, ts, hi - 1, Settle(ts[hi - 1]));
    }
  }

  lemma {:induction false} GapsNonNegative(vs: seq<ValidatorRecord>)
    requires forall m :: 0 <= m < |vs| ==> vs[m].upgraderBalance <= vs[m].balance
    ensures Gaps(vs) >= 0
  {
    if vs != [] {
      GapsNonNegative(vs[..|vs| - 1]);
    }
  }

  lemma SettleWellFormed(l: Ledger, a: Accounts, l': Ledger, lo: nat, hi: nat)
    requires WellFormed(l, a) && lo <= hi <= |l.validators|
    requires l'.stakes == l.stakes && l'.totalScore == l.totalScore
    requires l'.validators == SettleRange(l.validators, lo, hi)
    ensures WellFormed(l', a)
  {
    SettledListing(l.validators, lo, hi);
  }

  lemma GapsInRange(l: Ledger, a: Accounts)
    requires l.upgrader.IteratingValidators? && Finalizing(l, a)
    ensures forall k :: l.upgrader.next <= k < |l.validators| ==>
              l.validators[k].upgraderBalance <= l.validators[k].balance
  {
    forall k | l.upgrader.next <= k < |l.validators|
      ensures l.validators[k].upgraderBalance <= l.validators[k].balance
    {
      assert Halfway(l.validators[k], k < l.upgrader.next, a, l.stakes);
    }
  }

  /** What a finalize call does in phase 2, where none of its checks can fail. */
  ghost predicate FinalizedTo(l: Ledger, l': Ledger, hi: nat) {
    && l.upgrader.IteratingValidators?
    && l.upgrader.next <= hi <= |l.validators|
    && l' == l.(validators := SettleRange(l.validators, l.upgrader.next, hi), upgrader := l'.upgrader)
    && (if hi == |l.validators| then l'.upgrader.Done?
        else l'.upgrader.IteratingValidators? && l'.upgrader.next == hi && l'.upgrader.left == Gaps(l.validators[hi..]))
  }

  lemma FinalizeFollows(l: Ledger, max: nat)
    requires l.upgrader.IteratingValidators? && l.upgrader.next <= |l.validators|
    requires l.upgrader.left == Gaps(l.validators[l.upgrader.next..])
    requires forall k :: l.upgrader.next <= k < |l.validators| ==>
               l.validators[k].upgraderBalance <= l.validators[k].balance
    ensures Finalize(l, max).Some?
    ensures FinalizedTo(l, Finalize(l, max).value, Min(|l.validators|, l.upgrader.next + max))
  {
    var lo := l.upgrader.next;
    var hi := Min(|l.validators|, lo + max);
    GapsSplit(l.validators, lo, hi);
    GapsNonNegative(l.validators[hi..]);
  }

  lemma SettleSums(l: Ledger, l': Ledger, hi: nat)
    requires FinalizedTo(l, l', hi)
    requires l.upgrader.left == Gaps(l.validators[l.upgrader.next..])
    requires Sum(Balance, l.validators) == l.totalActive + l.upgrader.left
    ensures hi < |l.validators| ==> l'.upgrader.left == Gaps(l'.validators[hi..])
    ensures Sum(Balance, l'.validators) == l'.totalActive + (if hi < |l.validators| then l'.upgrader.left else 0)
  {
    var vs := l.validators;
    GapsSplit(vs, l.upgrader.next, hi);
    SettledSum(vs, l.upgrader.next, hi);
    assert l'.validators[hi..] == vs[hi..];
    assert hi == |vs| ==> vs[hi..] == [];
  }

  /** Validator `k` after a finalize call that stopped at `hi`. */
  lemma SettleRecord(l: Ledger, a: Accounts, l': Ledger, hi: nat, k: nat)
    requires FinalizedTo(l, l', hi) && Finalizing(l, a) && k < |l.validators|
    ensures Halfway(l'.validators[k], k < hi, a, l'.stakes)
  {
    assert Halfway(l.validators[k], k < l.upgrader.next, a, l.stakes);
  }

  lemma FinalizedToDone(l: Ledger, a: Accounts, l': Ledger)
    requires FinalizedTo(l, l', |l.validators|) && Finalizing(l, a)
    requires Sum(Balance, l'.validators) == l'.totalActive
    requires forall vote :: Listed(l'.validators, vote) <==> Listed(l.validators, vote)
    ensures Settled(l', a)
  {
    forall k | 0 <= k < |l'.validators|
      ensures l'.validators[k].balance == Total(ActiveFor(l'.validators[k].vote), a, l'.stakes)
      ensures l'.validators[k].upgraderBalance == 0
    {
      SettleRecord(l, a, l', |l.validators|, k);
    }
    NoCooling(a, l'.stakes);
  }

  lemma {:induction false} NoCooling(a: Accounts, s: seq<StakeRecord>)
    requires forall m :: 0 <= m < |s| ==> s[m].status.Active?
    ensures Total(DelayedStake, a, s) == Total(EmergencyStake, a, s) == 0
  {
    if s != [] {
      NoCooling(a, s[..|s| - 1]);
    }
  }

  lemma FinalizedToRest(l: Ledger, a: Accounts, l': Ledger, hi: nat)
    requires FinalizedTo(l, l', hi) && Finalizing(l, a) && hi < |l.validators|
    requires l'.upgrader.left == Gaps(l'.validators[hi..])
    requires Sum(Balance, l'.validators) == l'.totalActive + l'.upgrader.left
    requires forall vote :: Listed(l'.validators, vote) <==> Listed(l.validators, vote)
    ensures Finalizing(l', a)
  {
    forall k | 0 <= k < |l'.validators|
      ensures Halfway(l'.validators[k], k < hi, a, l'.stakes)
    {
      SettleRecord(l, a, l', hi, k);
    }
  }

  lemma FinalizedToSound(l: Ledger, a: Accounts, l': Ledger, hi: nat)
    requires Sound(l, a) && FinalizedTo(l, l', hi)
    ensures Sound(l', a)
  {
    SettleSums(l, l', hi);
    SettledListing(l.validators, l.upgrader.next, hi);
    SettleWellFormed(l, a, l', l.upgrader.next, hi);
    if hi == |l.validators| {
      FinalizedToDone(l, a, l');
    } else {
      FinalizedToRest(l, a, l', hi);
    }
  }

  /** A finalize call of any size succeeds in phase 2, keeps the invariant, and ends with the
      settled ledger exactly when it has reached the last validator. */
  lemma FinalizeSound(l: Ledger, a: Accounts, max: nat)
    requires Sound(l, a) && l.upgrader.IteratingValidators?
    ensures Finalize(l, max).Some? && Sound(Finalize(l, max).value, a)
    ensures Finalize(l, max).value.upgrader.Done? <==> l.upgrader.next + max >= |l.validators|
  {
    GapsInRange(l, a);
    FinalizeFollows(l, max);
    FinalizedToSound(l, a, Finalize(l, max).value, Min(|l.validators|, l.upgrader.next + max));
  }

  // ---------- deposits in phase 2 ----------

  /** Replacing one of the unvisited validators changes their gaps by the change of its own. */
  lemma GapsSet(vs: seq<ValidatorRecord>, next: nat, j: nat, v: ValidatorRecord)
    requires next <= j < |vs|
    ensures Gaps(vs[j := v][next..])
            == Gaps(vs[next..]) - (vs[j].balance - vs[j].upgraderBalance) + (v.balance - v.upgraderBalance)
  {
    var us := vs[j := v];
    assert us[next..] == vs[next..j] + [v] + vs[j + 1..];
    assert vs[next..] == vs[next..j] + [vs[j]] + vs[j + 1..];
    GapsAppend(vs[next..j] + [v], vs[j + 1..]);
    GapsAppend(vs[next..j] + [vs[j]], vs[j + 1..]);
    GapsAppend(vs[next..j], [v]);
    GapsAppend(vs[next..j], [vs[j]]);
    assert [v][..0] == [] && [vs[j]][..0] == [];
  }

  /** A deposit leaves the gaps of the unvisited validators as they were. */
  lemma GapsOnDeposit(vs: seq<ValidatorRecord>, next: nat, j: nat, v: ValidatorRecord)
    requires next <= |vs| && j < |vs|
    requires j >= next ==> v.balance - v.upgraderBalance == vs[j].balance - vs[j].upgraderBalance
    ensures Gaps(vs[j := v][next..]) == Gaps(vs[next..])
  {
    if j < next {
      assert vs[j := v][next..] == vs[next..];
    } else {
      GapsSet(vs, next, j, v);
    }
  }

  lemma AddActiveFollowsFinalizing(l: Ledger, l': Ledger, account: Key, amount: nat, epoch: nat, j: nat, deltaEpoch: nat)
    requires j < |l.validators| && l.upgrader.IteratingValidators?
    requires AddActive(l, account, amount, epoch, j, deltaEpoch) == Some(l')
    ensures var v := l.validators[j];
            l' == l.(stakes := l.stakes + [StakeRecord(account, amount, epoch, false, Active)],
                     totalActive := l.totalActive + amount,
                     validators := l.validators[j := v.(
                       balance := v.balance + amount,
                       upgraderBalance := v.upgraderBalance + (if j >= l.upgrader.next then amount else 0),
                       lastDeltaEpoch := deltaEpoch)])
  {
  }

  /** A phase 2 step in which the stake voting for validator `j` grows by `active`. */
  ghost predicate FinalizingFollows(l: Ledger, a: Accounts, l': Ledger, a': Accounts, j: nat, active: int) {
    && l.upgrader.IteratingValidators?
    && j < |l.validators| == |l'.validators| && l'.validators == l.validators[j := l'.validators[j]]
    && l'.upgrader == l.upgrader && l'.totalActive == l.totalActive + active
    && l'.delayedCooling == l.delayedCooling && l'.emergencyCooling == l.emergencyCooling
    && l'.validators[j].vote == l.validators[j].vote
    && l'.validators[j].balance == l.validators[j].balance + active
    && l'.validators[j].upgraderBalance
       == l.validators[j].upgraderBalance + (if j >= l.upgrader.next then active else 0)
    && Total(ActiveStake, a', l'.stakes) == Total(ActiveStake, a, l.stakes) + active
    && (forall x :: Total(ActiveFor(x), a', l'.stakes)
                    == Total(ActiveFor(x), a, l.stakes) + (if x == l.validators[j].vote then active else 0))
  }

  lemma HalfwayStep(l: Ledger, a: Accounts, l': Ledger, a': Accounts, j: nat, active: int)
    requires FinalizingFollows(l, a, l', a', j, active) && Finalizing(l, a)
    requires forall m, n :: 0 <= m < n < |l.validators| ==> l.validators[m].vote != l.validators[n].vote
    ensures forall k :: 0 <= k < |l'.validators| ==>
              Halfway(l'.validators[k], k < l'.upgrader.next, a', l'.stakes)
  {
    forall k | 0 <= k < |l'.validators| ensures Halfway(l'.validators[k], k < l'.upgrader.next, a', l'.stakes) {
      assert Halfway(l.validators[k], k < l.upgrader.next, a, l.stakes);
    }
  }

  lemma FinalizingSums(l: Ledger, a: Accounts, l': Ledger, a': Accounts, j: nat, active: int)
    requires FinalizingFollows(l, a, l', a', j, active) && Finalizing(l, a)
    ensures Sum(Balance, l'.validators) == l'.totalActive + l'.upgrader.left
    ensures l'.upgrader.left == Gaps(l'.validators[l'.upgrader.next..])
  {
    GapsOnDeposit(l.validators, l.upgrader.next, j, l'.validators[j]);
    SumSet(Balance, l.validators, j, l'.validators[j]);
  }

  lemma FinalizingUnlisted(l: Ledger, a: Accounts, l': Ledger, a': Accounts, j: nat, active: int)
    requires FinalizingFollows(l, a, l', a', j, active) && Finalizing(l, a)
    ensures forall vote :: !Listed(l'.validators, vote) ==> Total(ActiveFor(vote), a', l'.stakes) == 0
  {
    ListedSet(l.validators, j, l'.validators[j]);
    forall vote | !Listed(l'.validators, vote) ensures Total(ActiveFor(vote), a', l'.stakes) == 0 {
      assert !Listed(l.validators, vote);
      assert vote != l.validators[j].vote;
    }
  }

  lemma FinalizingStep(l: Ledger, a: Accounts, l': Ledger, a': Accounts, j: nat, active: int)
    requires FinalizingFollows(l, a, l', a', j, active) && Finalizing(l, a)
    requires forall m :: 0 <= m < |l'.stakes| ==> l'.stakes[m].status.Active?
    requires forall m, n :: 0 <= m < n < |l.validators| ==> l.validators[m].vote != l.validators[n].vote
    ensures Finalizing(l', a')
  {
    HalfwayStep(l, a, l', a', j, active);
    FinalizingSums(l, a, l', a', j, active);
    FinalizingUnlisted(l, a, l', a', j, active);
  }

  /** The removal of a record in phase 2: out of the emergency bucket as fast as it went in. */
  lemma CollectFollowsFinalizing(l: Ledger, l': Ledger, i: nat, j: nat)
    requires i < |l.stakes| && j < |l.validators| && l.upgrader.IteratingValidators?
    requires l.stakes[i].status.Active? && Collect(l, i, j) == Some(l')
    ensures var v, x := l.validators[j], l.stakes[i].lamports;
            && x <= v.balance && x <= l.totalActive
            && l' == l.(stakes := SwapRemove(l.stakes, i), totalActive := l.totalActive - x,
                        validators := l.validators[j := v.(balance := v.balance - x)])
  {
  }

  /** Only the balance of a validator visited already may lose stake without its upgrader balance. */
  lemma CollectFinalizing(l: Ledger, a: Accounts, l': Ledger, a': Accounts, i: nat, j: nat)
    requires Sound(l, a) && l.upgrader.IteratingValidators?
    requires i < |l.stakes| && j < |l.validators|
    requires j < l.upgrader.next || l.stakes[i].lamports == 0
    requires Voter(a, l.stakes[i].account) == Some(l.validators[j].vote)
    requires KeepsOthers(a, a', l.stakes, i)
    requires Collect(l, i, j) == Some(l')
    ensures Sound(l', a')
  {
    var x: int := l.stakes[i].lamports;
    CollectFollowsFinalizing(l, l', i, j);
    WellFormedSwapRemove(l, a, l', a', i, j);
    RemoveShifts(a, a', l.stakes, i, l.validators[j].vote);
    forall m | 0 <= m < |l'.stakes| ensures l'.stakes[m].status.Active? {
      assert l'.stakes[m] == l.stakes[Origin(|l.stakes|, i, m)];
    }
    FinalizingStep(l, a, l', a', j, -x);
  }

  /** And only that: an unvisited validator would be finalized to stake it no longer has. */
  lemma CollectFinalizingIff(l: Ledger, a: Accounts, l': Ledger, a': Accounts, i: nat, j: nat)
    requires Sound(l, a) && l.upgrader.IteratingValidators?
    requires i < |l.stakes| && j < |l.validators|
    requires Voter(a, l.stakes[i].account) == Some(l.validators[j].vote)
    requires KeepsOthers(a, a', l.stakes, i)
    requires Collect(l, i, j) == Some(l')
    ensures Sound(l', a') <==> j < l.upgrader.next || l.stakes[i].lamports == 0
  {
    if j < l.upgrader.next || l.stakes[i].lamports == 0 {
      CollectFinalizing(l, a, l', a', i, j);
    } else {
      CollectFollowsFinalizing(l, l', i, j);
      RemoveShifts(a, a', l.stakes, i, l.validators[j].vote);
      assert Halfway(l.validators[j], false, a, l.stakes);
      assert !Halfway(l'.validators[j], j < l'.upgrader.next, a', l'.stakes);
    }
  }

  /** After such a removal no finalize call can reach the last validator: the gaps are short of the
      delinquent balance by the stake removed. */
  lemma BrokenFinalizeFails(l: Ledger, a: Accounts, l': Ledger, i: nat, j: nat, max: nat)
    requires Sound(l, a) && l.upgrader.IteratingValidators?
    requires i < |l.stakes| && l.upgrader.next <= j < |l.validators| && l.stakes[i].lamports > 0
    requires Collect(l, i, j) == Some(l') && l.upgrader.next + max >= |l.validators|
    ensures Finalize(l', max) == None
  {
    CollectFollowsFinalizing(l, l', i, j);
    var next := l.upgrader.next;
    GapsSet(l.validators, next, j, l'.validators[j]);
    assert l'.validators[next..|l'.validators|] == l'.validators[next..];
  }

  lemma AddActiveFinalizing(l: Ledger, a: Accounts, l': Ledger, a': Accounts, account: Key, amount: nat,
                            epoch: nat, j: nat, deltaEpoch: nat)
    requires Sound(l, a) && l.upgrader.IteratingValidators?
    requires j < |l.validators|
    requires KeepsAll(a, a', l.stakes) && NewTo(l.stakes, account)
    requires Voter(a', account) == Some(l.validators[j].vote)
    requires AddActive(l, account, amount, epoch, j, deltaEpoch) == Some(l')
    requires RecordOk(a', StakeRecord(account, amount, epoch, false, Active))
    ensures Sound(l', a')
  {
    AddActiveFollowsFinalizing(l, l', account, amount, epoch, j, deltaEpoch);
    WellFormedPush(l, a, l', a', j);
    PushShiftsLegacy(a, a', l.stakes, l'.stakes[|l.stakes|], l.validators[j].vote);
    FinalizingStep(l, a, l', a', j, amount);
  }

  /** A stake deposit keeps the invariant in every phase. */
  lemma AddActiveSound(l: Ledger, a: Accounts, l': Ledger, a': Accounts, account: Key, amount: nat,
                       epoch: nat, j: nat, deltaEpoch: nat)
    requires Sound(l, a)
    requires j < |l.validators|
    requires KeepsAll(a, a', l.stakes) && NewTo(l.stakes, account)
    requires Voter(a', account) == Some(l.validators[j].vote)
    requires AddActive(l, account, amount, epoch, j, deltaEpoch) == Some(l')
    requires RecordOk(a', StakeRecord(account, amount, epoch, false, Active))
    ensures Sound(l', a')
  {
    match l.upgrader {
      case IteratingStakes(_, _, _) => AddActiveMigrating(l, a, l', a', account, amount, epoch, j, deltaEpoch);
      case IteratingValidators(_, _) => AddActiveFinalizing(l, a, l', a', account, amount, epoch, j, deltaEpoch);
      case Done => AddActiveSettled(l, a, l', a', account, amount, epoch, j, deltaEpoch);
    }
  }

  // ---------- scores ----------

  lemma SetScoreMigrating(l: Ledger, a: Accounts, l': Ledger, j: nat)
    requires l.upgrader.IteratingStakes? && Migrating(l, a) && j < |l.validators| == |l'.validators|
    requires l' == l.(validators := l.validators[j := l.validators[j].(score := l'.validators[j].score)],
                      totalScore := l'.totalScore)
    ensures Migrating(l', a)
  {
    SumSet(Balance, l.validators, j, l'.validators[j]);
    SumSet(Upgraded, l.validators, j, l'.validators[j]);
    ListedSet(l.validators, j, l'.validators[j]);
    forall m | 0 <= m < |l'.validators| ensures BalanceCovers(l'.validators[m], a, l'.stakes) {
      assert BalanceCovers(l.validators[m], a, l.stakes);
    }
  }

  lemma SetScoreFinalizing(l: Ledger, a: Accounts, l': Ledger, j: nat)
    requires Sound(l, a) && l.upgrader.IteratingValidators? && j < |l.validators| == |l'.validators|
    requires l' == l.(validators := l.validators[j := l.validators[j].(score := l'.validators[j].score)],
                      totalScore := l'.totalScore)
    ensures Finalizing(l', a)
  {
    FinalizingStep(l, a, l', a, j, 0);
  }

  lemma SetScoreSettled(l: Ledger, a: Accounts, l': Ledger, j: nat)
    requires Sound(l, a) && l.upgrader.Done? && j < |l.validators| == |l'.validators|
    requires l' == l.(validators := l.validators[j := l.validators[j].(score := l'.validators[j].score)],
                      totalScore := l'.totalScore)
    ensures Settled(l', a)
  {
    SumSet(Balance, l.validators, j, l'.validators[j]);
    ListedSet(l.validators, j, l'.validators[j]);
  }

  lemma SetScoreWellFormed(l: Ledger, a: Accounts, l': Ledger, j: nat, score: nat)
    requires WellFormed(l, a) && j < |l.validators|
    requires SetScore(l, j, score) == Some(l')
    ensures WellFormed(l', a)
    ensures forall vote :: Listed(l'.validators, vote) <==> Listed(l.validators, vote)
  {
    SumSet(Score, l.validators, j, l'.validators[j]);
    ListedSet(l.validators, j, l'.validators[j]);
  }

  /** A new score keeps the invariant in every phase. */
  lemma SetScoreSound(l: Ledger, a: Accounts, l': Ledger, j: nat, score: nat)
    requires Sound(l, a) && j < |l.validators|
    requires SetScore(l, j, score) == Some(l')
    ensures Sound(l', a)
    ensures forall vote :: Listed(l'.validators, vote) <==> Listed(l.validators, vote)
  {
    SetScoreWellFormed(l, a, l', j, score);
    match l.upgrader {
      case IteratingStakes(_, _, _) => SetScoreMigrating(l, a, l', j);
      case IteratingValidators(_, _) => SetScoreFinalizing(l, a, l', j);
      case Done => SetScoreSettled(l, a, l', j);
    }
  }

  // ---------- the chain moves ----------

  /** What anybody else may do to a program stake account: it keeps its owner and voter, and once
      deactivated it stays so. */
  predicate Evolves(a: Accounts, a': Accounts, account: Key) {
    && account in a' && a'[account].ours && a'[account].delegation.Some?
    && Voter(a, account) == Voter(a', account)
    && (IsDeactivating(a, account) ==> IsDeactivating(a', account))
  }

  ghost predicate EvolvesAll(a: Accounts, a': Accounts, s: seq<StakeRecord>) {
    forall m :: 0 <= m < |s| ==> Evolves(a, a', s[m].account)
  }

  predicate IsLegacy(k: Kind) {
    k.LegacyLive? || k.LegacyLiveFor? || k.LegacyDelayed? || k.LegacyEmergency?
  }

  /** Recorded stakes are not affected. */
  lemma {:induction false} TotalEvolves(k: Kind, a: Accounts, a': Accounts, s: seq<StakeRecord>)
    requires EvolvesAll(a, a', s) && !IsLegacy(k)
    ensures Total(k, a', s) == Total(k, a, s)
  {
    if s != [] {
      TotalEvolves(k, a, a', s[..|s| - 1]);
      assert Evolves(a, a', s[|s| - 1].account);
    }
  }

  lemma {:induction false} LegacyLiveShrinks(a: Accounts, a': Accounts, s: seq<StakeRecord>, vote: Key)
    requires EvolvesAll(a, a', s)
    ensures Total(LegacyLiveFor(vote), a', s) <= Total(LegacyLiveFor(vote), a, s)
  {
    if s != [] {
      LegacyLiveShrinks(a, a', s[..|s| - 1], vote);
      assert Evolves(a, a', s[|s| - 1].account);
    }
  }

  /** Legacy stake only moves from live to deactivated. */
  lemma {:induction false} LegacyMoves(a: Accounts, a': Accounts, s: seq<StakeRecord>)
    requires EvolvesAll(a, a', s)
    ensures Total(LegacyDelayed, a', s) >= Total(LegacyDelayed, a, s)
    ensures Total(LegacyEmergency, a', s) >= Total(LegacyEmergency, a, s)
    ensures Total(LegacyLive, a', s) + Total(LegacyDelayed, a', s) + Total(LegacyEmergency, a', s)
            == Total(LegacyLive, a, s) + Total(LegacyDelayed, a, s) + Total(LegacyEmergency, a, s)
  {
    if s != [] {
      LegacyMoves(a, a', s[..|s| - 1]);
      assert Evolves(a, a', s[|s| - 1].account);
    }
  }

  lemma EvolveWellFormed(l: Ledger, a: Accounts, a': Accounts)
    requires WellFormed(l, a) && EvolvesAll(a, a', l.stakes)
    ensures WellFormed(l, a')
  {
    forall m | 0 <= m < |l.stakes| ensures RecordOk(a', l.stakes[m]) {
      assert Evolves(a, a', l.stakes[m].account) && RecordOk(a, l.stakes[m]);
    }
  }

  lemma TotalsEvolve(a: Accounts, a': Accounts, s: seq<StakeRecord>)
    requires EvolvesAll(a, a', s)
    ensures forall k :: !IsLegacy(k) ==> Total(k, a', s) == Total(k, a, s)
    ensures forall vote :: Total(LegacyLiveFor(vote), a', s) <= Total(LegacyLiveFor(vote), a, s)
  {
    forall k | !IsLegacy(k) ensures Total(k, a', s) == Total(k, a, s) {
      TotalEvolves(k, a, a', s);
    }
    forall vote ensures Total(LegacyLiveFor(vote), a', s) <= Total(LegacyLiveFor(vote), a, s) {
      LegacyLiveShrinks(a, a', s, vote);
    }
  }

  lemma EvolveMigrating(l: Ledger, a: Accounts, a': Accounts)
    requires l.upgrader.IteratingStakes? && Migrating(l, a) && EvolvesAll(a, a', l.stakes)
    ensures Migrating(l, a')
  {
    TotalsEvolve(a, a', l.stakes);
    LegacyMoves(a, a', l.stakes);
    forall m | 0 <= m < |l.validators| ensures BalanceCovers(l.validators[m], a', l.stakes) {
      assert BalanceCovers(l.validators[m], a, l.stakes);
    }
  }

  lemma EvolveFinalizing(l: Ledger, a: Accounts, a': Accounts)
    requires l.upgrader.IteratingValidators? && Finalizing(l, a) && EvolvesAll(a, a', l.stakes)
    ensures Finalizing(l, a')
  {
    TotalsEvolve(a, a', l.stakes);
    forall k | 0 <= k < |l.validators| ensures Halfway(l.validators[k], k < l.upgrader.next, a', l.stakes) {
      assert Halfway(l.validators[k], k < l.upgrader.next, a, l.stakes);
    }
  }

  lemma EvolveSettled(l: Ledger, a: Accounts, a': Accounts)
    requires Settled(l, a) && EvolvesAll(a, a', l.stakes)
    ensures Settled(l, a')
  {
    TotalsEvolve(a, a', l.stakes);
  }

  /** Rewards, slashes, donations and forced deactivations keep the invariant in every phase. */
  lemma EvolveSound(l: Ledger, a: Accounts, a': Accounts)
    requires Sound(l, a) && EvolvesAll(a, a', l.stakes)
    ensures Sound(l, a')
  {
    EvolveWellFormed(l, a, a');
    match l.upgrader {
      case IteratingStakes(_, _, _) => EvolveMigrating(l, a, a');
      case IteratingValidators(_, _) => EvolveFinalizing(l, a, a');
      case Done => EvolveSettled(l, a, a');
    }
  }
}
