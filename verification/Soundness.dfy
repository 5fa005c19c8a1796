/** The ledger invariant, one form per phase of the delinquent upgrade, and its preservation by
    every ledger operation. `Sound` is what no function of the program states and every checked
    subtraction relies on. */
module Soundness {
  import opened Base
  import opened Model
  import opened LedgerOps
  import opened Totals

  ghost predicate Listed(vs: seq<ValidatorRecord>, vote: Key) {
    exists j :: 0 <= j < |vs| && vs[j].vote == vote
  }

  /** A record's account is a delegated stake account of the program, and is deactivating
      whenever the record says that the stake is cooling down. */
  predicate RecordOk(a: Accounts, r: StakeRecord) {
    && r.account in a
    && a[r.account].ours
    && a[r.account].delegation.Some?
    && (r.status.Active? ==> !r.emergency)
    && (r.status.Deactivating? ==> IsDeactivating(a, r.account))
    && (r.status.Unknown? && r.emergency ==> IsDeactivating(a, r.account))
  }

  ghost predicate WellFormed(l: Ledger, a: Accounts) {
    && (forall m, n :: 0 <= m < n < |l.stakes| ==> l.stakes[m].account != l.stakes[n].account)
    && (forall m :: 0 <= m < |l.stakes| ==> RecordOk(a, l.stakes[m]))
    && (forall m, n :: 0 <= m < n < |l.validators| ==> l.validators[m].vote != l.validators[n].vote)
    && l.totalScore == Sum(Score, l.validators)
  }

  /** No migration: every total is the sum it stands for. */
  ghost predicate Settled(l: Ledger, a: Accounts) {
    && (forall m :: 0 <= m < |l.stakes| ==> !l.stakes[m].status.Unknown?)
    && l.totalActive == Total(ActiveStake, a, l.stakes) == Sum(Balance, l.validators)
    && l.delayedCooling == Total(DelayedStake, a, l.stakes)
    && l.emergencyCooling == Total(EmergencyStake, a, l.stakes)
    && (forall j :: 0 <= j < |l.validators| ==>
          && l.validators[j].balance == Total(ActiveFor(l.validators[j].vote), a, l.stakes)
          && l.validators[j].upgraderBalance == 0)
    && (forall vote :: !Listed(l.validators, vote) ==> Total(ActiveFor(vote), a, l.stakes) == 0)
  }

  /** In phase 1 a validator's upgrader balance is its visited stake, and its balance also covers
      the live stake not visited yet. */
  ghost predicate BalanceCovers(v: ValidatorRecord, a: Accounts, s: seq<StakeRecord>) {
    && v.upgraderBalance == Total(ActiveFor(v.vote), a, s)
    && v.balance >= v.upgraderBalance + Total(LegacyLiveFor(v.vote), a, s)
  }

  /** Phase 1: the Active records are the visited ones; the legacy totals cover what is left. */
  ghost predicate Migrating(l: Ledger, a: Accounts)
    requires l.upgrader.IteratingStakes?
  {
    && (forall m :: 0 <= m < |l.stakes| ==> !l.stakes[m].status.Deactivating?)
    && l.upgrader.visited == Total(CountActive, a, l.stakes)
    && l.upgrader.active == Total(ActiveStake, a, l.stakes) == Sum(Upgraded, l.validators)
    && l.totalActive + l.delayedCooling + l.emergencyCooling
       == Total(ActiveStake, a, l.stakes) + Total(LegacyLive, a, l.stakes)
          + Total(LegacyDelayed, a, l.stakes) + Total(LegacyEmergency, a, l.stakes)
    && l.delayedCooling <= Total(LegacyDelayed, a, l.stakes)
    && l.emergencyCooling <= Total(LegacyEmergency, a, l.stakes)
    && Sum(Balance, l.validators) == l.totalActive + l.upgrader.delinquent
    && (forall j :: 0 <= j < |l.validators| ==> BalanceCovers(l.validators[j], a, l.stakes))
    && (forall vote :: !Listed(l.validators, vote) ==>
          Total(ActiveFor(vote), a, l.stakes) == 0 == Total(LegacyLiveFor(vote), a, l.stakes))
  }

  /** In phase 2 a visited validator has its final balance; the others carry it aside. */
  ghost predicate Halfway(v: ValidatorRecord, visited: bool, a: Accounts, s: seq<StakeRecord>) {
    if visited then v.balance == Total(ActiveFor(v.vote), a, s) && v.upgraderBalance == 0
    else v.upgraderBalance == Total(ActiveFor(v.vote), a, s) && v.upgraderBalance <= v.balance
  }

  /** Phase 2: validators before `next` are settled, the others carry their confirmed balance,
      and what is left to remove is the sum of their differences. */
  ghost predicate Finalizing(l: Ledger, a: Accounts)
    requires l.upgrader.IteratingValidators?
  {
    var next := l.upgrader.next;
    && next <= |l.validators|
    && (forall m :: 0 <= m < |l.stakes| ==> l.stakes[m].status.Active?)
    && l.delayedCooling == 0 == l.emergencyCooling
    && l.totalActive == Total(ActiveStake, a, l.stakes)
    && Sum(Balance, l.validators) == l.totalActive + l.upgrader.left
    && l.upgrader.left == Gaps(l.validators[next..])
    && (forall j :: 0 <= j < |l.validators| ==> Halfway(l.validators[j], j < next, a, l.stakes))
    && (forall vote :: !Listed(l.validators, vote) ==> Total(ActiveFor(vote), a, l.stakes) == 0)
  }

  ghost predicate Sound(l: Ledger, a: Accounts) {
    && WellFormed(l, a)
    && match l.upgrader
       case IteratingStakes(_, _, _) => Migrating(l, a)
       case IteratingValidators(_, _) => Finalizing(l, a)
       case Done => Settled(l, a)
  }

  // ---------- accounts ----------

  /** `account` is still a program stake account with the same voter and the same activity. */
  predicate Keeps(a: Accounts, a': Accounts, account: Key) {
    && account in a' && a'[account].ours && a'[account].delegation.Some?
    && SameDelegation(a, a', account)
  }

  ghost predicate KeepsAll(a: Accounts, a': Accounts, s: seq<StakeRecord>) {
    forall m :: 0 <= m < |s| ==> Keeps(a, a', s[m].account)
  }

  ghost predicate KeepsOthers(a: Accounts, a': Accounts, s: seq<StakeRecord>, i: nat) {
    forall m :: 0 <= m < |s| && m != i ==> Keeps(a, a', s[m].account)
  }

  /** No record but `i` is about `account`. */
  ghost predicate NewToOthers(s: seq<StakeRecord>, i: nat, account: Key) {
    forall m :: 0 <= m < |s| && m != i ==> s[m].account != account
  }

  ghost predicate NewTo(s: seq<StakeRecord>, account: Key) {
    forall m :: 0 <= m < |s| ==> s[m].account != account
  }

  lemma ListedSet(vs: seq<ValidatorRecord>, j: nat, v: ValidatorRecord)
    requires j < |vs| && v.vote == vs[j].vote
    ensures forall vote :: Listed(vs[j := v], vote) <==> Listed(vs, vote)
  {
    forall vote ensures Listed(vs[j := v], vote) <==> Listed(vs, vote) {
      if Listed(vs, vote) {
        var m :| 0 <= m < |vs| && vs[m].vote == vote;
        assert vs[j := v][m].vote == vote;
      }
    }
  }

  // ---------- one step of a settled ledger ----------

  /** From `s` to `s'` the active stake voting for `vote` changes by `active`, that of nobody else,
      and the cooling stakes change by `delayed` and `emergency`. */
  ghost predicate Shifted(a: Accounts, s: seq<StakeRecord>, a': Accounts, s': seq<StakeRecord>,
                          vote: Key, active: int, delayed: int, emergency: int)
  {
    && Total(ActiveStake, a', s') == Total(ActiveStake, a, s) + active
    && Total(DelayedStake, a', s') == Total(DelayedStake, a, s) + delayed
    && Total(EmergencyStake, a', s') == Total(EmergencyStake, a, s) + emergency
    && (forall x :: Total(ActiveFor(x), a', s') == Total(ActiveFor(x), a, s) + (if x == vote then active else 0))
  }

  ghost predicate NoneUnknown(s: seq<StakeRecord>) {
    forall m :: 0 <= m < |s| ==> !s[m].status.Unknown?
  }

  /** Validator `j` and the totals change by the same amounts as the records. */
  ghost predicate Follows(l: Ledger, l': Ledger, j: nat, active: int, delayed: int, emergency: int) {
    && j < |l.validators| == |l'.validators|
    && l'.validators == l.validators[j := l'.validators[j]]
    && l'.validators[j].vote == l.validators[j].vote
    && l'.validators[j].score == l.validators[j].score
    && l'.validators[j].balance == l.validators[j].balance + active
    && l'.validators[j].upgraderBalance == l.validators[j].upgraderBalance
    && l'.totalActive == l.totalActive + active
    && l'.delayedCooling == l.delayedCooling + delayed
    && l'.emergencyCooling == l.emergencyCooling + emergency
    && l'.totalScore == l.totalScore
    && l'.upgrader == l.upgrader
  }

  lemma SettledStep(l: Ledger, a: Accounts, l': Ledger, a': Accounts, j: nat,
                    active: int, delayed: int, emergency: int)
    requires Settled(l, a)
    requires Follows(l, l', j, active, delayed, emergency)
    requires Shifted(a, l.stakes, a', l'.stakes, l.validators[j].vote, active, delayed, emergency)
    requires NoneUnknown(l'.stakes)
    requires forall m, n :: 0 <= m < n < |l.validators| ==> l.validators[m].vote != l.validators[n].vote
    ensures Settled(l', a')
  {
    SumSet(Balance, l.validators, j, l'.validators[j]);
    ListedSet(l.validators, j, l'.validators[j]);
  }

  // ---------- unstaking, with the migration done ----------

  lemma RetireShifts(a: Accounts, a': Accounts, s: seq<StakeRecord>, i: nat, emergency: bool, vote: Key)
    requires i < |s| && s[i].status.Active?
    requires Voter(a, s[i].account) == Some(vote)
    requires KeepsOthers(a, a', s, i)
    ensures var x: int := s[i].lamports;
            Shifted(a, s, a', s[i := s[i].(emergency := emergency, status := Deactivating)], vote,
                    -x, if emergency then 0 else x, if emergency then x else 0)
  {
    TotalsSet(a, a', s, i, s[i].(emergency := emergency, status := Deactivating));
  }

  lemma WellFormedSet(l: Ledger, a: Accounts, l': Ledger, a': Accounts, i: nat, j: nat)
    requires WellFormed(l, a)
    requires i < |l.stakes| == |l'.stakes| && j < |l.validators| == |l'.validators|
    requires l'.stakes == l.stakes[i := l'.stakes[i]]
    requires NewToOthers(l.stakes, i, l'.stakes[i].account)
    requires RecordOk(a', l'.stakes[i])
    requires KeepsOthers(a, a', l.stakes, i)
    requires l'.validators == l.validators[j := l'.validators[j]]
    requires l'.validators[j].vote == l.validators[j].vote && l'.validators[j].score == l.validators[j].score
    requires l'.totalScore == l.totalScore
    ensures WellFormed(l', a')
  {
    SumSet(Score, l.validators, j, l'.validators[j]);
    forall m | 0 <= m < |l'.stakes| ensures RecordOk(a', l'.stakes[m]) {
      assert m != i ==> Keeps(a, a', l.stakes[m].account) && RecordOk(a, l.stakes[m]);
    }
  }

  lemma SetStep(l: Ledger, a: Accounts, l': Ledger, a': Accounts, i: nat, j: nat,
                active: int, delayed: int, emergency: int)
    requires Sound(l, a) && l.upgrader.Done?
    requires i < |l.stakes| == |l'.stakes|
    requires l'.stakes == l.stakes[i := l'.stakes[i]]
    requires NewToOthers(l.stakes, i, l'.stakes[i].account)
    requires RecordOk(a', l'.stakes[i]) && !l'.stakes[i].status.Unknown?
    requires KeepsOthers(a, a', l.stakes, i)
    requires Follows(l, l', j, active, delayed, emergency)
    requires Shifted(a, l.stakes, a', l'.stakes, l.validators[j].vote, active, delayed, emergency)
    ensures Sound(l', a')
  {
    WellFormedSet(l, a, l', a', i, j);
    SettledStep(l, a, l', a', j, active, delayed, emergency);
  }

  lemma RetireFollows(l: Ledger, l': Ledger, i: nat, j: nat, emergency: bool)
    requires i < |l.stakes| && j < |l.validators|
    requires Retire(l, i, j, emergency) == Some(l')
    ensures l'.stakes == l.stakes[i := l.stakes[i].(emergency := emergency, status := Deactivating)]
    ensures var x: int := l.stakes[i].lamports;
            Follows(l, l', j, -x, if emergency then 0 else x, if emergency then x else 0)
  {
  }

  lemma RetireSound(l: Ledger, a: Accounts, l': Ledger, a': Accounts, i: nat, j: nat, emergency: bool)
    requires Sound(l, a) && l.upgrader.Done?
    requires i < |l.stakes| && j < |l.validators|
    requires l.stakes[i].status.Active?
    requires Voter(a, l.stakes[i].account) == Some(l.validators[j].vote)
    requires KeepsOthers(a, a', l.stakes, i)
    requires RecordOk(a', l.stakes[i].(emergency := emergency, status := Deactivating))
    requires Retire(l, i, j, emergency) == Some(l')
    ensures Sound(l', a')
  {
    var x: int := l.stakes[i].lamports;
    RetireFollows(l, l', i, j, emergency);
    RetireShifts(a, a', l.stakes, i, emergency, l.validators[j].vote);
    SetStep(l, a, l', a', i, j, -x, if emergency then 0 else x, if emergency then x else 0);
  }

  lemma SplitOffFollows(l: Ledger, l': Ledger, i: nat, j: nat, amount: nat, account: Key, epoch: nat,
                        emergency: bool, deltaEpoch: nat)
    requires i < |l.stakes| && j < |l.validators|
    requires SplitOff(l, i, j, amount, account, epoch, emergency, deltaEpoch) == Some(l')
    ensures amount <= l.stakes[i].lamports
    ensures l'.stakes == l.stakes[i := l.stakes[i].(lamports := l.stakes[i].lamports - amount)]
                         + [StakeRecord(account, amount, epoch, emergency, Deactivating)]
    ensures var x: int := amount;
            Follows(l, l', j, -x, if emergency then 0 else x, if emergency then x else 0)
  {
  }

  lemma SplitOffShifts(a: Accounts, a': Accounts, s: seq<StakeRecord>, i: nat, amount: nat, new': StakeRecord, vote: Key)
    requires i < |s| && s[i].status.Active? && amount <= s[i].lamports
    requires Voter(a, s[i].account) == Some(vote)
    requires KeepsAll(a, a', s)
    requires new'.status.Deactivating? && new'.lamports == amount
    ensures var x: int := amount;
            Shifted(a, s, a', s[i := s[i].(lamports := s[i].lamports - amount)] + [new'], vote,
                    -x, if new'.emergency then 0 else x, if new'.emergency then x else 0)
  {
    var r := s[i].(lamports := s[i].lamports - amount);
    TotalsSet(a, a', s, i, r);
    TotalsPush(a', s[i := r], new');
    assert Keeps(a, a', s[i].account);
  }

  lemma WellFormedSetPush(l: Ledger, a: Accounts, l': Ledger, a': Accounts, i: nat, j: nat)
    requires WellFormed(l, a)
    requires i < |l.stakes| && |l'.stakes| == |l.stakes| + 1 && j < |l.validators| == |l'.validators|
    requires l'.stakes == l.stakes[i := l'.stakes[i]] + [l'.stakes[|l.stakes|]]
    requires l'.stakes[i].account == l.stakes[i].account
    requires NewTo(l.stakes, l'.stakes[|l.stakes|].account)
    requires RecordOk(a', l'.stakes[i]) && RecordOk(a', l'.stakes[|l.stakes|])
    requires KeepsAll(a, a', l.stakes)
    requires l'.validators == l.validators[j := l'.validators[j]]
    requires l'.validators[j].vote == l.validators[j].vote && l'.validators[j].score == l.validators[j].score
    requires l'.totalScore == l.totalScore
    ensures WellFormed(l', a')
  {
    SumSet(Score, l.validators, j, l'.validators[j]);
    forall m | 0 <= m < |l'.stakes| ensures RecordOk(a', l'.stakes[m]) {
      assert m < |l.stakes| && m != i ==> Keeps(a, a', l.stakes[m].account) && RecordOk(a, l.stakes[m]);
    }
  }

  lemma SetPushStep(l: Ledger, a: Accounts, l': Ledger, a': Accounts, i: nat, j: nat,
                    active: int, delayed: int, emergency: int)
    requires Sound(l, a) && l.upgrader.Done?
    requires i < |l.stakes| && |l'.stakes| == |l.stakes| + 1
    requires l'.stakes == l.stakes[i := l'.stakes[i]] + [l'.stakes[|l.stakes|]]
    requires l'.stakes[i].account == l.stakes[i].account && !l'.stakes[i].status.Unknown?
    requires NewTo(l.stakes, l'.stakes[|l.stakes|].account) && !l'.stakes[|l.stakes|].status.Unknown?
    requires RecordOk(a', l'.stakes[i]) && RecordOk(a', l'.stakes[|l.stakes|])
    requires KeepsAll(a, a', l.stakes)
    requires Follows(l, l', j, active, delayed, emergency)
    requires Shifted(a, l.stakes, a', l'.stakes, l.validators[j].vote, active, delayed, emergency)
    ensures Sound(l', a')
  {
    WellFormedSetPush(l, a, l', a', i, j);
    SettledStep(l, a, l', a', j, active, delayed, emergency);
  }

  lemma SplitOffSound(l: Ledger, a: Accounts, l': Ledger, a': Accounts, i: nat, j: nat, amount: nat,
                      account: Key, epoch: nat, emergency: bool, deltaEpoch: nat)
    requires Sound(l, a) && l.upgrader.Done?
    requires i < |l.stakes| && j < |l.validators|
    requires l.stakes[i].status.Active?
    requires Voter(a, l.stakes[i].account) == Some(l.validators[j].vote)
    requires KeepsAll(a, a', l.stakes) && NewTo(l.stakes, account)
    requires RecordOk(a', StakeRecord(account, amount, epoch, emergency, Deactivating))
    requires SplitOff(l, i, j, amount, account, epoch, emergency, deltaEpoch) == Some(l')
    ensures Sound(l', a')
  {
    var x: int := amount;
    SplitOffFollows(l, l', i, j, amount, account, epoch, emergency, deltaEpoch);
    SplitOffShifts(a, a', l.stakes, i, amount, l'.stakes[|l.stakes|], l.validators[j].vote);
    assert Keeps(a, a', l.stakes[i].account);
    SetPushStep(l, a, l', a', i, j, -x, if emergency then 0 else x, if emergency then x else 0);
  }

  /** The recorded delegation of Active record `i` becomes `lamports`: a release, a reward or a slash. */
  lemma ResizeShifts(a: Accounts, a': Accounts, s: seq<StakeRecord>, i: nat, r: StakeRecord, vote: Key)
    requires i < |s| && s[i].status.Active? && r.status.Active?
    requires Voter(a, s[i].account) == Some(vote) == Voter(a', r.account)
    requires KeepsOthers(a, a', s, i)
    ensures Shifted(a, s, a', s[i := r], vote, r.lamports - s[i].lamports, 0, 0)
  {
    TotalsSet(a, a', s, i, r);
  }

  lemma ReleaseSound(l: Ledger, a: Accounts, l': Ledger, a': Accounts, i: nat, j: nat, amount: nat)
    requires Sound(l, a) && l.upgrader.Done?
    requires i < |l.stakes| && j < |l.validators|
    requires l.stakes[i].status.Active?
    requires Voter(a, l.stakes[i].account) == Some(l.validators[j].vote)
    requires KeepsAll(a, a', l.stakes)
    requires Release(l, i, j, amount) == Some(l')
    ensures Sound(l', a')
  {
    var x: int := amount;
    assert Keeps(a, a', l.stakes[i].account);
    assert Follows(l, l', j, -x, 0, 0);
    ResizeShifts(a, a', l.stakes, i, l'.stakes[i], l.validators[j].vote);
    SetStep(l, a, l', a', i, j, -x, 0, 0);
  }

  // ---------- growing and reshaping, with the migration done ----------

  lemma WellFormedPush(l: Ledger, a: Accounts, l': Ledger, a': Accounts, j: nat)
    requires WellFormed(l, a)
    requires |l'.stakes| == |l.stakes| + 1 && j < |l.validators| == |l'.validators|
    requires l'.stakes == l.stakes + [l'.stakes[|l.stakes|]]
    requires NewTo(l.stakes, l'.stakes[|l.stakes|].account)
    requires RecordOk(a', l'.stakes[|l.stakes|])
    requires KeepsAll(a, a', l.stakes)
    requires l'.validators == l.validators[j := l'.validators[j]]
    requires l'.validators[j].vote == l.validators[j].vote && l'.validators[j].score == l.validators[j].score
    requires l'.totalScore == l.totalScore
    ensures WellFormed(l', a')
  {
    SumSet(Score, l.validators, j, l'.validators[j]);
    forall m | 0 <= m < |l'.stakes| ensures RecordOk(a', l'.stakes[m]) {
      assert m < |l.stakes| ==> Keeps(a, a', l.stakes[m].account) && RecordOk(a, l.stakes[m]);
    }
  }

  lemma PushShifts(a: Accounts, a': Accounts, s: seq<StakeRecord>, r: StakeRecord, vote: Key)
    requires r.status.Active? && Voter(a', r.account) == Some(vote)
    requires KeepsAll(a, a', s)
    ensures Shifted(a, s, a', s + [r], vote, r.lamports, 0, 0)
  {
    TotalsFrame(a, a', s);
    TotalsPush(a', s, r);
  }

  lemma PushStep(l: Ledger, a: Accounts, l': Ledger, a': Accounts, j: nat,
                 active: int, delayed: int, emergency: int)
    requires Sound(l, a) && l.upgrader.Done?
    requires |l'.stakes| == |l.stakes| + 1
    requires l'.stakes == l.stakes + [l'.stakes[|l.stakes|]]
    requires NewTo(l.stakes, l'.stakes[|l.stakes|].account)
    requires RecordOk(a', l'.stakes[|l.stakes|]) && !l'.stakes[|l.stakes|].status.Unknown?
    requires KeepsAll(a, a', l.stakes)
    requires Follows(l, l', j, active, delayed, emergency)
    requires Shifted(a, l.stakes, a', l'.stakes, l.validators[j].vote, active, delayed, emergency)
    ensures Sound(l', a')
  {
    WellFormedPush(l, a, l', a', j);
    SettledStep(l, a, l', a', j, active, delayed, emergency);
  }

  lemma AddActiveFollows(l: Ledger, l': Ledger, account: Key, amount: nat, epoch: nat, j: nat, deltaEpoch: nat)
    requires j < |l.validators| && l.upgrader.Done?
    requires AddActive(l, account, amount, epoch, j, deltaEpoch) == Some(l')
    ensures l'.stakes == l.stakes + [StakeRecord(account, amount, epoch, false, Active)]
    ensures Follows(l, l', j, amount, 0, 0)
  {
  }

  lemma AddActiveSettled(l: Ledger, a: Accounts, l': Ledger, a': Accounts, account: Key, amount: nat,
                         epoch: nat, j: nat, deltaEpoch: nat)
    requires Sound(l, a) && l.upgrader.Done?
    requires j < |l.validators|
    requires KeepsAll(a, a', l.stakes) && NewTo(l.stakes, account)
    requires Voter(a', account) == Some(l.validators[j].vote)
    requires AddActive(l, account, amount, epoch, j, deltaEpoch) == Some(l')
    requires RecordOk(a', StakeRecord(account, amount, epoch, false, Active))
    ensures Sound(l', a')
  {
    AddActiveFollows(l, l', account, amount, epoch, j, deltaEpoch);
    PushShifts(a, a', l.stakes, l'.stakes[|l.stakes|], l.validators[j].vote);
    PushStep(l, a, l', a', j, amount, 0, 0);
  }

  /** create_canonical_stake's push and swap-remove is a replacement in place. */
  lemma PushSwapRemove<T>(s: seq<T>, x: T, i: nat)
    requires i < |s|
    ensures SwapRemove(s + [x], i) == s[i := x]
  {
  }

  lemma RehomeSound(l: Ledger, a: Accounts, a': Accounts, i: nat, j: nat, account: Key, epoch: nat)
    requires Sound(l, a) && l.upgrader.Done?
    requires i < |l.stakes| && j < |l.validators|
    requires !IsDeactivating(a, l.stakes[i].account)
    requires Voter(a, l.stakes[i].account) == Some(l.validators[j].vote) == Voter(a', account)
    requires KeepsOthers(a, a', l.stakes, i) && NewToOthers(l.stakes, i, account)
    requires RecordOk(a', StakeRecord(account, l.stakes[i].lamports, epoch, false, Active))
    ensures Sound(Rehome(l, i, account, epoch), a')
  {
    var l' := Rehome(l, i, account, epoch);
    var r := StakeRecord(account, l.stakes[i].lamports, epoch, false, Active);
    PushSwapRemove(l.stakes, r, i);
    assert RecordOk(a, l.stakes[i]);
    ResizeShifts(a, a', l.stakes, i, r, l.validators[j].vote);
    SetStep(l, a, l', a', i, j, 0, 0, 0);
  }

  /** After a swap-remove every slot holds an element of another slot, each at most once. */
  ghost function Origin(n: nat, i: nat, m: nat): nat
    requires i < n
  {
    if m == i then n - 1 else m
  }

  lemma WellFormedSwapRemove(l: Ledger, a: Accounts, l': Ledger, a': Accounts, i: nat, j: nat)
    requires WellFormed(l, a)
    requires i < |l.stakes| && j < |l.validators| == |l'.validators|
    requires l'.stakes == SwapRemove(l.stakes, i)
    requires KeepsOthers(a, a', l.stakes, i)
    requires l'.validators == l.validators[j := l'.validators[j]]
    requires l'.validators[j].vote == l.validators[j].vote && l'.validators[j].score == l.validators[j].score
    requires l'.totalScore == l.totalScore
    ensures WellFormed(l', a')
  {
    var n := |l.stakes|;
    SumSet(Score, l.validators, j, l'.validators[j]);
    forall m | 0 <= m < n - 1 ensures l'.stakes[m] == l.stakes[Origin(n, i, m)] && RecordOk(a', l'.stakes[m]) {
      var o := Origin(n, i, m);
      assert o != i && Keeps(a, a', l.stakes[o].account) && RecordOk(a, l.stakes[o]);
    }
  }

  lemma MergeShifts(a: Accounts, a': Accounts, s: seq<StakeRecord>, dst: nat, src: nat, merged: nat, vote: Key)
    requires dst < |s| && src < |s| && dst != src
    requires s[dst].status.Active? && s[src].status.Active?
    requires Voter(a, s[dst].account) == Some(vote) == Voter(a, s[src].account)
    requires KeepsOthers(a, a', s, src)
    ensures Shifted(a, s, a', SwapRemove(s[dst := s[dst].(lamports := merged)], src), vote,
                    merged - s[dst].lamports - s[src].lamports, 0, 0)
  {
    var t := s[dst := s[dst].(lamports := merged)];
    TotalsSet(a, a, s, dst, s[dst].(lamports := merged));
    TotalsSwapRemove(a, t, src);
    var u := SwapRemove(t, src);
    forall m | 0 <= m < |u| ensures SameDelegation(a, a', u[m].account) {
      var o := Origin(|s|, src, m);
      assert u[m].account == s[o].account && Keeps(a, a', s[o].account);
    }
    TotalsFrame(a, a', u);
  }

  lemma MergeFollows(l: Ledger, l': Ledger, dst: nat, src: nat, j: nat, merged: nat)
    requires dst < |l.stakes| && src < |l.stakes| && j < |l.validators|
    requires Merge(l, dst, src, j, merged) == Some(l')
    ensures l'.stakes == SwapRemove(l.stakes[dst := l.stakes[dst].(lamports := merged)], src)
    ensures Follows(l, l', j, merged - l.stakes[dst].lamports - l.stakes[src].lamports, 0, 0)
  {
  }

  lemma MergeWellFormed(l: Ledger, a: Accounts, l': Ledger, a': Accounts, dst: nat, src: nat, j: nat, merged: nat)
    requires WellFormed(l, a) && NoneUnknown(l.stakes)
    requires dst < |l.stakes| && src < |l.stakes|
    requires KeepsOthers(a, a', l.stakes, src)
    requires l'.stakes == SwapRemove(l.stakes[dst := l.stakes[dst].(lamports := merged)], src)
    requires exists active: int :: Follows(l, l', j, active, 0, 0)
    ensures WellFormed(l', a') && NoneUnknown(l'.stakes)
  {
    var t := l.stakes[dst := l.stakes[dst].(lamports := merged)];
    assert RecordOk(a, l.stakes[dst]);
    WellFormedSet(l, a, l.(stakes := t), a, dst, j);
    WellFormedSwapRemove(l.(stakes := t), a, l', a', src, j);
    forall m | 0 <= m < |l'.stakes| ensures !l'.stakes[m].status.Unknown? {
      assert l'.stakes[m] == t[Origin(|t|, src, m)];
    }
  }

  lemma MergeSound(l: Ledger, a: Accounts, l': Ledger, a': Accounts, dst: nat, src: nat, j: nat, merged: nat)
    requires Sound(l, a) && l.upgrader.Done?
    requires dst < |l.stakes| && src < |l.stakes| && dst != src && j < |l.validators|
    requires l.stakes[dst].status.Active? && l.stakes[src].status.Active?
    requires Voter(a, l.stakes[dst].account) == Some(l.validators[j].vote) == Voter(a, l.stakes[src].account)
    requires KeepsOthers(a, a', l.stakes, src)
    requires Merge(l, dst, src, j, merged) == Some(l')
    ensures Sound(l', a')
  {
    var extra := merged - l.stakes[dst].lamports - l.stakes[src].lamports;
    MergeFollows(l, l', dst, src, j, merged);
    MergeWellFormed(l, a, l', a', dst, src, j, merged);
    MergeShifts(a, a', l.stakes, dst, src, merged, l.validators[j].vote);
    SettledStep(l, a, l', a', j, extra, 0, 0);
  }

  lemma RemoveShifts(a: Accounts, a': Accounts, s: seq<StakeRecord>, i: nat, vote: Key)
    requires i < |s| && !s[i].status.Unknown?
    requires Voter(a, s[i].account) == Some(vote)
    requires KeepsOthers(a, a', s, i)
    ensures var x: int := s[i].lamports; var r := s[i];
            Shifted(a, s, a', SwapRemove(s, i), vote,
                    if r.status.Active? then -x else 0,
                    if r.status.Deactivating? && !r.emergency then -x else 0,
                    if r.status.Deactivating? && r.emergency then -x else 0)
  {
    TotalsSwapRemove(a, s, i);
    var u := SwapRemove(s, i);
    forall m | 0 <= m < |u| ensures SameDelegation(a, a', u[m].account) {
      var o := Origin(|s|, i, m);
      assert u[m].account == s[o].account && Keeps(a, a', s[o].account);
    }
    TotalsFrame(a, a', u);
  }

  lemma SwapStep(l: Ledger, a: Accounts, l': Ledger, a': Accounts, i: nat, j: nat,
                 active: int, delayed: int, emergency: int)
    requires Sound(l, a) && l.upgrader.Done?
    requires i < |l.stakes| && l'.stakes == SwapRemove(l.stakes, i)
    requires KeepsOthers(a, a', l.stakes, i)
    requires Follows(l, l', j, active, delayed, emergency)
    requires Shifted(a, l.stakes, a', l'.stakes, l.validators[j].vote, active, delayed, emergency)
    ensures Sound(l', a')
  {
    WellFormedSwapRemove(l, a, l', a', i, j);
    forall m | 0 <= m < |l'.stakes| ensures !l'.stakes[m].status.Unknown? {
      assert l'.stakes[m] == l.stakes[Origin(|l.stakes|, i, m)];
    }
    SettledStep(l, a, l', a', j, active, delayed, emergency);
  }

  lemma CollectFollows(l: Ledger, l': Ledger, i: nat, j: nat)
    requires i < |l.stakes| && j < |l.validators| && l.upgrader.Done?
    requires !l.stakes[i].status.Unknown?
    requires Collect(l, i, j) == Some(l')
    ensures l'.stakes == SwapRemove(l.stakes, i)
    ensures var x: int := l.stakes[i].lamports; var r := l.stakes[i];
            Follows(l, l', j, if r.status.Active? then -x else 0,
                    if r.status.Deactivating? && !r.emergency then -x else 0,
                    if r.status.Deactivating? && r.emergency then -x else 0)
  {
  }

  lemma CollectSettled(l: Ledger, a: Accounts, l': Ledger, a': Accounts, i: nat, j: nat)
    requires Sound(l, a) && l.upgrader.Done?
    requires i < |l.stakes| && j < |l.validators|
    requires Voter(a, l.stakes[i].account) == Some(l.validators[j].vote)
    requires KeepsOthers(a, a', l.stakes, i)
    requires Collect(l, i, j) == Some(l')
    ensures Sound(l', a')
  {
    var x: int := l.stakes[i].lamports;
    var r := l.stakes[i];
    CollectFollows(l, l', i, j);
    RemoveShifts(a, a', l.stakes, i, l.validators[j].vote);
    SwapStep(l, a, l', a', i, j, if r.status.Active? then -x else 0,
             if r.status.Deactivating? && !r.emergency then -x else 0,
             if r.status.Deactivating? && r.emergency then -x else 0);
  }

  lemma ObserveSettled(l: Ledger, a: Accounts, l': Ledger, a': Accounts, i: nat, j: nat, stake: nat, epoch: nat)
    requires Sound(l, a) && l.upgrader.Done?
    requires i < |l.stakes| && j < |l.validators|
    requires l.stakes[i].status.Active?
    requires Voter(a, l.stakes[i].account) == Some(l.validators[j].vote)
    requires KeepsAll(a, a', l.stakes)
    requires Observe(l, i, j, stake, epoch) == Some(l')
    ensures Sound(l', a')
  {
    var x: int := stake - l.stakes[i].lamports;
    assert Keeps(a, a', l.stakes[i].account);
    assert Follows(l, l', j, x, 0, 0);
    ResizeShifts(a, a', l.stakes, i, l'.stakes[i], l.validators[j].vote);
    SetStep(l, a, l', a', i, j, x, 0, 0);
  }

  // ---------- the validator list ----------

  lemma AddValidatorSettled(l: Ledger, a: Accounts, l': Ledger, vote: Key, score: nat)
    requires Sound(l, a) && l.upgrader.Done?
    requires !Listed(l.validators, vote)
    requires AddValidator(l, vote, score) == Some(l')
    ensures Sound(l', a)
    ensures forall x :: Listed(l'.validators, x) <==> Listed(l.validators, x) || x == vote
  {
    var n := |l.validators|;
    SumsPush(l.validators, l'.validators[n]);
    forall x ensures Listed(l'.validators, x) <==> Listed(l.validators, x) || x == vote {
      if Listed(l.validators, x) {
        var m :| 0 <= m < n && l.validators[m].vote == x;
        assert l'.validators[m].vote == x;
      }
      assert l'.validators[n].vote == vote;
    }
  }

  lemma ListedSwapRemove(vs: seq<ValidatorRecord>, j: nat)
    requires j < |vs|
    requires forall m, n :: 0 <= m < n < |vs| ==> vs[m].vote != vs[n].vote
    ensures forall x :: Listed(SwapRemove(vs, j), x) <==> Listed(vs, x) && x != vs[j].vote
  {
    var us := SwapRemove(vs, j);
    var n := |vs| - 1;
    forall x ensures Listed(us, x) <==> Listed(vs, x) && x != vs[j].vote {
      if Listed(us, x) {
        var m :| 0 <= m < n && us[m].vote == x;
        assert us[m] == vs[Origin(|vs|, j, m)];
      }
      if Listed(vs, x) && x != vs[j].vote {
        var m :| 0 <= m <= n && vs[m].vote == x;
        assert us[if m == n then j else m].vote == x;
      }
    }
  }

  lemma RemoveValidatorSettled(l: Ledger, a: Accounts, l': Ledger, j: nat)
    requires Sound(l, a) && l.upgrader.Done?
    requires j < |l.validators|
    requires RemoveValidator(l, j) == Some(l')
    ensures Sound(l', a)
    ensures forall x :: Listed(l'.validators, x) <==> Listed(l.validators, x) && x != l.validators[j].vote
  {
    SumsSwapRemove(l.validators, j);
    ListedSwapRemove(l.validators, j);
    forall m | 0 <= m < |l'.validators| ensures l'.validators[m] == l.validators[Origin(|l.validators|, j, m)] {
    }
  }
}
