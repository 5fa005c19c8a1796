/** Weighted sums over the two record lists, and how the list operations change them. */
module Totals {
  import opened Base
  import opened Model

  // ---------- stake records ----------

  /** What is summed over the stake list. The three `Legacy` kinds split the Unknown records
      by what their accounts are doing on chain. */
  datatype Kind =
    | ActiveStake
    | ActiveFor(vote: Key)
    | DelayedStake
    | EmergencyStake
    | LegacyLive
    | LegacyLiveFor(vote: Key)
    | LegacyDelayed
    | LegacyEmergency
    | CountActive
    | CountUnknown

  function Voter(a: Accounts, account: Key): Option<Key> {
    if account in a && a[account].delegation.Some? then Some(a[account].delegation.value.voter) else None
  }

  predicate IsDeactivating(a: Accounts, account: Key) {
    account in a && a[account].delegation.Some? && a[account].delegation.value.deactivating
  }

  function Weight(k: Kind, a: Accounts, r: StakeRecord): nat {
    var counts :=
      match k
      case ActiveStake => r.status.Active?
      case ActiveFor(vote) => r.status.Active? && Voter(a, r.account) == Some(vote)
      case DelayedStake => r.status.Deactivating? && !r.emergency
      case EmergencyStake => r.status.Deactivating? && r.emergency
      case LegacyLive => r.status.Unknown? && !IsDeactivating(a, r.account)
      case LegacyLiveFor(vote) =>
        r.status.Unknown? && !IsDeactivating(a, r.account) && Voter(a, r.account) == Some(vote)
      case LegacyDelayed => r.status.Unknown? && IsDeactivating(a, r.account) && !r.emergency
      case LegacyEmergency => r.status.Unknown? && IsDeactivating(a, r.account) && r.emergency
      case CountActive => r.status.Active?
      case CountUnknown => r.status.Unknown?;
    if !counts then 0
    else if k.CountActive? || k.CountUnknown? then 1
    else r.lamports
  }

  function Total(k: Kind, a: Accounts, s: seq<StakeRecord>): nat {
    if s == [] then 0 else Total(k, a, s[..|s| - 1]) + Weight(k, a, s[|s| - 1])
  }

  /** The two worlds agree on what `account` votes for and whether it is deactivating. */
  predicate SameDelegation(a: Accounts, a': Accounts, account: Key) {
    Voter(a, account) == Voter(a', account) && IsDeactivating(a, account) == IsDeactivating(a', account)
  }

  lemma {:induction false} TotalFrame(k: Kind, a: Accounts, a': Accounts, s: seq<StakeRecord>)
    requires forall m :: 0 <= m < |s| ==> SameDelegation(a, a', s[m].account)
    ensures Total(k, a, s) == Total(k, a', s)
  {
    if s != [] {
      TotalFrame(k, a, a', s[..|s| - 1]);
      assert SameDelegation(a, a', s[|s| - 1].account);
    }
  }

  lemma {:induction false} TotalSet(k: Kind, a: Accounts, a': Accounts, s: seq<StakeRecord>, i: nat, r: StakeRecord)
    requires i < |s|
    requires forall m :: 0 <= m < |s| && m != i ==> SameDelegation(a, a', s[m].account)
    ensures Total(k, a', s[i := r]) == Total(k, a, s) - Weight(k, a, s[i]) + Weight(k, a', r)
  {
    var n := |s| - 1;
    if i == n {
      assert s[i := r][..n] == s[..n];
      TotalFrame(k, a, a', s[..n]);
    } else {
      assert s[i := r][..n] == s[..n][i := r];
      TotalSet(k, a, a', s[..n], i, r);
      assert SameDelegation(a, a', s[n].account);
    }
  }

  lemma TotalPush(k: Kind, a: Accounts, s: seq<StakeRecord>, r: StakeRecord)
    ensures Total(k, a, s + [r]) == Total(k, a, s) + Weight(k, a, r)
  {
    assert (s + [r])[..|s|] == s;
  }

  lemma TotalSwapRemove(k: Kind, a: Accounts, s: seq<StakeRecord>, i: nat)
    requires i < |s|
    ensures Total(k, a, SwapRemove(s, i)) == Total(k, a, s) - Weight(k, a, s[i])
  {
    var n := |s| - 1;
    TotalSet(k, a, a, s, i, s[n]);
    assert s[i := s[n]][n] == s[n];
  }

  // The same for every kind at once.

  lemma TotalsFrame(a: Accounts, a': Accounts, s: seq<StakeRecord>)
    requires forall m :: 0 <= m < |s| ==> SameDelegation(a, a', s[m].account)
    ensures forall k :: Total(k, a, s) == Total(k, a', s)
  {
    forall k ensures Total(k, a, s) == Total(k, a', s) {
      TotalFrame(k, a, a', s);
    }
  }

  lemma TotalsSet(a: Accounts, a': Accounts, s: seq<StakeRecord>, i: nat, r: StakeRecord)
    requires i < |s|
    requires forall m :: 0 <= m < |s| && m != i ==> SameDelegation(a, a', s[m].account)
    ensures forall k :: Total(k, a', s[i := r]) == Total(k, a, s) - Weight(k, a, s[i]) + Weight(k, a', r)
  {
    forall k
      ensures Total(k, a', s[i := r]) == Total(k, a, s) - Weight(k, a, s[i]) + Weight(k, a', r)
    {
      TotalSet(k, a, a', s, i, r);
    }
  }

  lemma TotalsPush(a: Accounts, s: seq<StakeRecord>, r: StakeRecord)
    ensures forall k :: Total(k, a, s + [r]) == Total(k, a, s) + Weight(k, a, r)
  {
    forall k ensures Total(k, a, s + [r]) == Total(k, a, s) + Weight(k, a, r) {
      TotalPush(k, a, s, r);
    }
  }

  lemma TotalsSwapRemove(a: Accounts, s: seq<StakeRecord>, i: nat)
    requires i < |s|
    ensures forall k :: Total(k, a, SwapRemove(s, i)) == Total(k, a, s) - Weight(k, a, s[i])
  {
    forall k ensures Total(k, a, SwapRemove(s, i)) == Total(k, a, s) - Weight(k, a, s[i]) {
      TotalSwapRemove(k, a, s, i);
    }
  }

  /** One record never weighs more than the list. */
  lemma WeightInTotal(k: Kind, a: Accounts, s: seq<StakeRecord>, i: nat)
    requires i < |s|
    ensures Weight(k, a, s[i]) <= Total(k, a, s)
  {
    TotalSwapRemove(k, a, s, i);
  }

  /** A positive total has a record that counts. */
  lemma {:induction false} PositiveTotal(k: Kind, a: Accounts, s: seq<StakeRecord>) returns (i: nat)
    requires Total(k, a, s) > 0
    ensures i < |s| && Weight(k, a, s[i]) > 0
  {
    i := |s| - 1;
    if Weight(k, a, s[i]) == 0 {
      i := PositiveTotal(k, a, s[..|s| - 1]);
    }
  }

  // ---------- validator records ----------

  datatype Measure =
    | Balance
    | Upgraded
    | Score
    | One
    | Scored
    | TargetOf(totalTarget: nat, totalScore: nat)
    | NotSplitIn(epoch: nat)

  function Gauge(m: Measure, v: ValidatorRecord): nat {
    match m
    case Balance => v.balance
    case Upgraded => v.upgraderBalance
    case Score => v.score
    case One => 1
    case Scored => if v.score > 0 then 1 else 0
    case TargetOf(totalTarget, totalScore) =>
      if totalScore == 0 then 0 else totalTarget * v.score / totalScore
    case NotSplitIn(epoch) => if v.lastDeltaEpoch == epoch then 0 else 1
  }

  function Sum(m: Measure, vs: seq<ValidatorRecord>): nat {
    if vs == [] then 0 else Sum(m, vs[..|vs| - 1]) + Gauge(m, vs[|vs| - 1])
  }

  lemma {:induction false} SumSet(m: Measure, vs: seq<ValidatorRecord>, j: nat, v: ValidatorRecord)
    requires j < |vs|
    ensures Sum(m, vs[j := v]) == Sum(m, vs) - Gauge(m, vs[j]) + Gauge(m, v)
  {
    var n := |vs| - 1;
    if j == n {
      assert vs[j := v][..n] == vs[..n];
    } else {
      assert vs[j := v][..n] == vs[..n][j := v];
      SumSet(m, vs[..n], j, v);
    }
  }

  lemma SumPush(m: Measure, vs: seq<ValidatorRecord>, v: ValidatorRecord)
    ensures Sum(m, vs + [v]) == Sum(m, vs) + Gauge(m, v)
  {
    assert (vs + [v])[..|vs|] == vs;
  }

  lemma SumSwapRemove(m: Measure, vs: seq<ValidatorRecord>, j: nat)
    requires j < |vs|
    ensures Sum(m, SwapRemove(vs, j)) == Sum(m, vs) - Gauge(m, vs[j])
  {
    var n := |vs| - 1;
    SumSet(m, vs, j, vs[n]);
    assert vs[j := vs[n]][n] == vs[n];
  }

  lemma SumsPush(vs: seq<ValidatorRecord>, v: ValidatorRecord)
    ensures forall m :: Sum(m, vs + [v]) == Sum(m, vs) + Gauge(m, v)
  {
    forall m ensures Sum(m, vs + [v]) == Sum(m, vs) + Gauge(m, v) {
      SumPush(m, vs, v);
    }
  }

  lemma SumsSwapRemove(vs: seq<ValidatorRecord>, j: nat)
    requires j < |vs|
    ensures forall m :: Sum(m, SwapRemove(vs, j)) == Sum(m, vs) - Gauge(m, vs[j])
  {
    forall m ensures Sum(m, SwapRemove(vs, j)) == Sum(m, vs) - Gauge(m, vs[j]) {
      SumSwapRemove(m, vs, j);
    }
  }

  lemma GaugeInSum(m: Measure, vs: seq<ValidatorRecord>, j: nat)
    requires j < |vs|
    ensures Gauge(m, vs[j]) <= Sum(m, vs)
  {
    SumSwapRemove(m, vs, j);
  }
}
