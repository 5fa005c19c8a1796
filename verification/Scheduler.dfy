/** The stake-delta scheduler: its targets, its bounds, its progress and its termination. */
module Scheduler {
  import opened Base
  import opened Calc
  import opened Model
  import opened Instructions
  import opened Parts
  import opened Totals
  import opened Soundness
  import opened LedgerSafety
  import L = LedgerOps

  // ---------- targets ----------

  /** The targets of a prefix of the validators, with their rounding: with all floors of
      totalTarget * score / totalScore, the sum misses totalTarget * scores by less than one
      totalScore for every validator with a score. */
  lemma {:induction false} TargetsAlmostAddUp(vs: seq<ValidatorRecord>, totalTarget: nat, totalScore: nat)
    requires totalScore > 0
    ensures var targets := Sum(TargetOf(totalTarget, totalScore), vs);
            && targets * totalScore <= totalTarget * Sum(Score, vs)
            && totalTarget * Sum(Score, vs) <= targets * totalScore + Sum(Scored, vs) * (totalScore - 1)
  {
    if vs != [] {
      var us, v := vs[..|vs| - 1], vs[|vs| - 1];
      TargetsAlmostAddUp(us, totalTarget, totalScore);
      OneMoreTarget(totalTarget, totalScore, v.score, Sum(TargetOf(totalTarget, totalScore), us),
                    Sum(Score, us), Sum(Scored, us));
    } else {
      assert Sum(Score, vs) == 0;
    }
  }

  lemma OneMoreTarget(totalTarget: nat, totalScore: nat, score: nat, targets: nat, scores: nat, scored: nat)
    requires totalScore > 0
    requires targets * totalScore <= totalTarget * scores <= targets * totalScore + scored * (totalScore - 1)
    ensures var t := totalTarget * score / totalScore;
            (targets + t) * totalScore <= totalTarget * (scores + score)
            <= (targets + t) * totalScore + (scored + (if score > 0 then 1 else 0)) * (totalScore - 1)
  {
    var t := totalTarget * score / totalScore;
    Floor(totalTarget * score, totalScore);
    Distribute(targets, t, totalScore);
    Distribute(scores, score, totalTarget);
    Distribute(scored, 1, totalScore - 1);
  }

  /** Validator targets sum to at most the total target and, with a positive total score, miss it
      by fewer lamports than there are validators with a positive score. */
  lemma TargetsSum(l: Ledger, totalTarget: nat)
    requires l.totalScore == Sum(Score, l.validators)
    ensures var targets := Sum(TargetOf(totalTarget, l.totalScore), l.validators);
            && targets <= totalTarget
            && (l.totalScore > 0 ==> totalTarget < targets + Sum(Scored, l.validators))
  {
    if l.totalScore > 0 {
      TargetsAlmostAddUp(l.validators, totalTarget, l.totalScore);
      var targets, n := Sum(TargetOf(totalTarget, l.totalScore), l.validators), Sum(Scored, l.validators);
      CancelMul(targets, totalTarget, l.totalScore);
      SomeScore(l.validators);
      MissedByLess(totalTarget, targets, n, l.totalScore);
    } else {
      NoTargets(l.validators, totalTarget);
    }
  }

  lemma MissedByLess(totalTarget: nat, targets: nat, n: nat, totalScore: nat)
    requires n > 0 && totalScore > 0
    requires totalTarget * totalScore <= targets * totalScore + n * (totalScore - 1)
    ensures totalTarget < targets + n
  {
    Distribute(targets, n, totalScore);
    Distribute(totalScore, 1, n);
    CancelStrict(totalTarget, targets + n, totalScore);
  }

  lemma {:induction false} SomeScore(vs: seq<ValidatorRecord>)
    ensures Sum(Score, vs) > 0 ==> Sum(Scored, vs) > 0
  {
    if vs != [] {
      SomeScore(vs[..|vs| - 1]);
    }
  }

  lemma {:induction false} NoTargets(vs: seq<ValidatorRecord>, totalTarget: nat)
    ensures Sum(TargetOf(totalTarget, 0), vs) == 0
  {
    if vs != [] {
      NoTargets(vs[..|vs| - 1], totalTarget);
    }
  }

  /** validator_stake_target never fails on a listed validator and computes its TargetOf. */
  lemma TargetIsTotal(l: Ledger, j: nat, totalTarget: nat)
    requires l.totalScore == Sum(Score, l.validators) && j < |l.validators| && totalTarget <= U64_MAX
    ensures StakeTarget(l, l.validators[j], totalTarget)
            == Some(Gauge(TargetOf(totalTarget, l.totalScore), l.validators[j]))
    ensures StakeTarget(l, l.validators[j], totalTarget).value <= totalTarget
  {
    GaugeInSum(Score, l.validators, j);
    if l.totalScore > 0 {
      MulMono(l.validators[j].score, l.totalScore, totalTarget);
      Floor(totalTarget * l.validators[j].score, l.totalScore);
      CancelMul(totalTarget * l.validators[j].score / l.totalScore, totalTarget, l.totalScore);
    }
  }

  // ---------- pigeonholes ----------

  lemma {:induction false} SomeBelow(m1: Measure, m2: Measure, vs: seq<ValidatorRecord>) returns (j: nat)
    requires Sum(m1, vs) < Sum(m2, vs)
    ensures j < |vs| && Gauge(m1, vs[j]) < Gauge(m2, vs[j])
  {
    j := |vs| - 1;
    if Gauge(m1, vs[j]) >= Gauge(m2, vs[j]) {
      j := SomeBelow(m1, m2, vs[..|vs| - 1]);
    }
  }

  /** While something must be unstaked and anything is staked, some validator is above its target
      and has an Active record with a positive delegation: deactivate_stake always has a victim. */
  lemma UnstakeHasVictim(w: World) returns (i: nat, j: nat)
    requires WorldOk(w) && w.state.ledger.upgrader.Done?
    requires StakeDelta(w.state, w.chain.reserveLamports) < 0 < w.state.ledger.totalActive
    requires w.state.ledger.totalActive <= U64_MAX
    ensures var l := w.state.ledger;
            && i < |l.stakes| && j < |l.validators|
            && l.stakes[i].status.Active? && l.stakes[i].lamports > 0
            && Voter(w.chain.accounts, l.stakes[i].account) == Some(l.validators[j].vote)
            && var target := StakeTarget(l, l.validators[j],
                                         SaturatingSub(l.totalActive, -StakeDelta(w.state, w.chain.reserveLamports)));
            target.Some? && l.validators[j].balance > target.value
  {
    var l := w.state.ledger;
    var totalTarget := SaturatingSub(l.totalActive, -StakeDelta(w.state, w.chain.reserveLamports));
    TargetsSum(l, totalTarget);
    j := SomeBelow(TargetOf(totalTarget, l.totalScore), Balance, l.validators);
    TargetIsTotal(l, j, totalTarget);
    i := PositiveTotal(ActiveFor(l.validators[j].vote), w.chain.accounts, l.stakes);
  }

  /** While at least one lamport per scored validator can be staked, some validator is below its
      target: stake_reserve always has a destination. */
  lemma StakeHasDestination(w: World) returns (j: nat)
    requires WorldOk(w) && w.state.ledger.upgrader.Done? && w.state.ledger.totalScore > 0
    requires StakeDelta(w.state, w.chain.reserveLamports) > 0
    requires var totalTarget := SaturatingAdd64(w.state.ledger.totalActive, StakeDelta(w.state, w.chain.reserveLamports));
             totalTarget >= w.state.ledger.totalActive + Sum(Scored, w.state.ledger.validators)
    ensures var l := w.state.ledger;
            && j < |l.validators|
            && var target := StakeTarget(l, l.validators[j],
                                         SaturatingAdd64(l.totalActive, StakeDelta(w.state, w.chain.reserveLamports)));
            target.Some? && l.validators[j].balance < target.value
  {
    var l := w.state.ledger;
    var totalTarget := SaturatingAdd64(l.totalActive, StakeDelta(w.state, w.chain.reserveLamports));
    TargetsSum(l, totalTarget);
    j := SomeBelow(Balance, TargetOf(totalTarget, l.totalScore), l.validators);
    TargetIsTotal(l, j, totalTarget);
  }

  // ---------- bounds of one action ----------

  /** The amount stake_reserve delegates: at most the delta, leaving nothing, or at least the minimum and
      the validator exactly at its target, and never a whole minimum above the target. */
  lemma StakeAmountBounds(balance: nat, target: nat, delta: nat, minStake: nat)
    requires balance < target && minStake > 0
    ensures var amount := StakeAmount(balance, target, delta, minStake);
            && amount <= delta
            && (delta - amount == 0 || (delta - amount >= minStake && balance + amount == target))
            && balance + amount < target + minStake
  {
  }

  /** What an effective stake_reserve has computed. */
  lemma StakeReserveParts(w: World, j: nat, vote: Key, account: Key, w': World) returns (target: nat, amount: nat)
    requires StakeReserve(w, j, vote, account) == Some(w') && |w'.state.ledger.stakes| != |w.state.ledger.stakes|
    ensures j < |w.state.ledger.validators| == |w'.state.ledger.validators|
    ensures StakeDelta(w.state, w.chain.reserveLamports) > 0
    ensures StakeTarget(w.state.ledger, w.state.ledger.validators[j],
                        SaturatingAdd64(w.state.ledger.totalActive, StakeDelta(w.state, w.chain.reserveLamports)))
            == Some(target)
    ensures w.state.ledger.validators[j].balance < target
    ensures amount == StakeAmount(w.state.ledger.validators[j].balance, target,
                                  StakeDelta(w.state, w.chain.reserveLamports), w.state.cfg.minStake)
    ensures amount >= w.state.cfg.minStake && amount <= w.state.reserve
    ensures w'.chain.reserveLamports == w.chain.reserveLamports - amount && w'.state.reserve == w.state.reserve - amount
    ensures w'.state.ledger.totalActive == w.state.ledger.totalActive + amount
    ensures w'.state.ledger.validators[j].balance == w.state.ledger.validators[j].balance + amount
    ensures w'.state.cfg == w.state.cfg && w'.state.ticketBalance == w.state.ticketBalance
    ensures w'.state.ledger.delayedCooling == w.state.ledger.delayedCooling
  {
    target := StakeTarget(w.state.ledger, w.state.ledger.validators[j],
                          SaturatingAdd64(w.state.ledger.totalActive, StakeDelta(w.state, w.chain.reserveLamports))).value;
    amount := w'.state.ledger.totalActive - w.state.ledger.totalActive;
  }

  /** A stake_reserve call that stakes: the amount, the delta it leaves, and the validator's excess; the
      validator ends at its target unless the delta is used up. */
  lemma StakeReserveBounds(w: World, j: nat, vote: Key, account: Key, w': World)
    requires StakeReserve(w, j, vote, account) == Some(w') && |w'.state.ledger.stakes| != |w.state.ledger.stakes|
    requires w.chain.reserveLamports >= w.state.reserve + w.state.cfg.rent && w.state.cfg.minStake > 0
    ensures j < |w.state.ledger.validators| == |w'.state.ledger.validators|
    ensures var amount: int := w'.state.ledger.totalActive - w.state.ledger.totalActive;
            var delta := StakeDelta(w.state, w.chain.reserveLamports);
            var left := StakeDelta(w'.state, w'.chain.reserveLamports);
            && w.state.cfg.minStake <= amount <= delta
            && left == delta - amount
            && (left == 0 || left >= w.state.cfg.minStake)
            && var target := StakeTarget(w.state.ledger, w.state.ledger.validators[j],
                                         SaturatingAdd64(w.state.ledger.totalActive, delta));
            && target.Some?
            && w'.state.ledger.validators[j].balance < target.value + w.state.cfg.minStake
            && (left == 0 || w'.state.ledger.validators[j].balance == target.value)
  {
    var target, amount := StakeReserveParts(w, j, vote, account, w');
    StakeAmountBounds(w.state.ledger.validators[j].balance, target,
                      StakeDelta(w.state, w.chain.reserveLamports), w.state.cfg.minStake);
  }

  /** What an effective deactivate_stake has computed. */
  lemma DeactivateStakeParts(w: World, i: nat, account: Key, j: nat, splitAccount: Key, w': World)
    returns (delta: nat, target: nat, amount: nat)
    requires DeactivateStake(w, i, account, j, splitAccount) == Some(w') && w' != w
    ensures i < |w.state.ledger.stakes| && j < |w.state.ledger.validators|
    ensures delta == -StakeDelta(w.state, w.chain.reserveLamports) > 0
    ensures StakeTarget(w.state.ledger, w.state.ledger.validators[j],
                        SaturatingSub(w.state.ledger.totalActive, delta)) == Some(target)
    ensures w.state.ledger.validators[j].balance > target
    ensures var l := w.state.ledger; var r := l.stakes[i];
            var rest := AccountTarget(r.lamports, l.validators[j].balance - target, delta);
            var epoch := w.chain.clock.epoch;
            if rest < 2 * w.state.cfg.minStake
            then amount == r.lamports && L.Retire(l, i, j, false) == Some(w'.state.ledger)
            else amount == r.lamports - rest && 0 < amount <= delta
                 && L.SplitOff(l, i, j, amount, splitAccount, epoch, false, epoch) == Some(w'.state.ledger)
  {
    var l := w.state.ledger;
    delta := -StakeDelta(w.state, w.chain.reserveLamports);
    target := StakeTarget(l, l.validators[j], SaturatingSub(l.totalActive, delta)).value;
    var rest := AccountTarget(l.stakes[i].lamports, l.validators[j].balance - target, delta);
    amount := if rest < 2 * w.state.cfg.minStake then l.stakes[i].lamports else l.stakes[i].lamports - rest;
  }

  /** A deactivate_stake call that unstakes: how much leaves, and what a split keeps. */
  lemma DeactivateStakeBounds(w: World, i: nat, account: Key, j: nat, splitAccount: Key, w': World)
    requires DeactivateStake(w, i, account, j, splitAccount) == Some(w') && w' != w && w.state.cfg.minStake > 0
    ensures i < |w.state.ledger.stakes| && j < |w.state.ledger.validators|
    ensures var l, l' := w.state.ledger, w'.state.ledger;
            var amount: int := l'.delayedCooling - l.delayedCooling;
            var delta: int := -StakeDelta(w.state, w.chain.reserveLamports);
            && delta > 0
            && l'.totalActive == l.totalActive - amount
            && var target := StakeTarget(l, l.validators[j], SaturatingSub(l.totalActive, delta));
            && target.Some? && l.validators[j].balance > target.value
            && var excess := l.validators[j].balance - target.value;
            && amount < Min(delta, excess) + 2 * w.state.cfg.minStake
            && ((|l'.stakes| == |l.stakes| && amount == l.stakes[i].lamports)
                || (|l'.stakes| == |l.stakes| + 1 && amount == Min(delta, excess)
                    && l'.stakes[i].lamports == l.stakes[i].lamports - amount >= 2 * w.state.cfg.minStake))
  {
    var delta, target, amount := DeactivateStakeParts(w, i, account, j, splitAccount, w');
    var l, l', epoch := w.state.ledger, w'.state.ledger, w.chain.clock.epoch;
    if L.Retire(l, i, j, false) == Some(l') {
      RetireFollows(l, l', i, j, false);
    } else {
      SplitOffFollows(l, l', i, j, amount, splitAccount, epoch, false, epoch);
    }
  }

  // ---------- termination ----------

  /** Active records, and validators not split yet in this epoch. */
  function UnstakeMeasure(l: Ledger, a: Accounts, epoch: nat): nat {
    Total(CountActive, a, l.stakes) + Sum(NotSplitIn(epoch), l.validators)
  }

  lemma RetireCounts(a: Accounts, a': Accounts, s: seq<StakeRecord>, i: nat)
    requires i < |s| && s[i].status.Active? && KeepsOthers(a, a', s, i)
    ensures Total(CountActive, a', s[i := s[i].(emergency := false, status := Deactivating)])
            == Total(CountActive, a, s) - 1
  {
    TotalSet(CountActive, a, a', s, i, s[i].(emergency := false, status := Deactivating));
  }

  lemma SplitCounts(a: Accounts, a': Accounts, s: seq<StakeRecord>, i: nat, r: StakeRecord, new': StakeRecord)
    requires i < |s| && s[i].status.Active? && r.status.Active? && new'.status.Deactivating?
    requires KeepsOthers(a, a', s, i)
    ensures Total(CountActive, a', s[i := r] + [new']) == Total(CountActive, a, s)
  {
    TotalSet(CountActive, a, a', s, i, r);
    TotalPush(CountActive, a', s[i := r], new');
  }

  lemma RetireDecreases(l: Ledger, l': Ledger, a: Accounts, a': Accounts, i: nat, j: nat, epoch: nat)
    requires i < |l.stakes| && j < |l.validators| && l.stakes[i].status.Active?
    requires KeepsOthers(a, a', l.stakes, i)
    requires L.Retire(l, i, j, false) == Some(l')
    ensures UnstakeMeasure(l', a', epoch) == UnstakeMeasure(l, a, epoch) - 1
  {
    RetireFollows(l, l', i, j, false);
    RetireCounts(a, a', l.stakes, i);
    assert l'.validators == l.validators[j := l.validators[j].(balance := l'.validators[j].balance)];
    SumSet(NotSplitIn(epoch), l.validators, j, l.validators[j].(balance := l'.validators[j].balance));
  }

  lemma SplitDecreases(l: Ledger, l': Ledger, a: Accounts, a': Accounts, i: nat, j: nat, amount: nat,
                       account: Key, epoch: nat)
    requires i < |l.stakes| && j < |l.validators| && l.stakes[i].status.Active?
    requires l.validators[j].lastDeltaEpoch != epoch
    requires KeepsOthers(a, a', l.stakes, i)
    requires L.SplitOff(l, i, j, amount, account, epoch, false, epoch) == Some(l')
    ensures UnstakeMeasure(l', a', epoch) == UnstakeMeasure(l, a, epoch) - 1
  {
    SplitOffFollows(l, l', i, j, amount, account, epoch, false, epoch);
    SplitCounts(a, a', l.stakes, i, l'.stakes[i], l'.stakes[|l.stakes|]);
    assert l'.validators[j].lastDeltaEpoch == epoch;
    SumSet(NotSplitIn(epoch), l.validators, j, l'.validators[j]);
  }

  /** Every effective deactivate_stake of an epoch lowers the measure by one. */
  lemma DeactivateStakeDecreases(w: World, i: nat, account: Key, j: nat, splitAccount: Key, w': World)
    requires WorldOk(w) && DeactivateStake(w, i, account, j, splitAccount) == Some(w') && w' != w
    ensures w'.chain.clock == w.chain.clock
    ensures UnstakeMeasure(w'.state.ledger, w'.chain.accounts, w.chain.clock.epoch)
            == UnstakeMeasure(w.state.ledger, w.chain.accounts, w.chain.clock.epoch) - 1
  {
    var amount := DeactivateStakeCools(w, i, account, j, splitAccount, w');
    var l, l', a, a' := w.state.ledger, w'.state.ledger, w.chain.accounts, w'.chain.accounts;
    OthersKept(l, a, a', i);
    if CoolWhole(Marked(w), i, account, j, false) == Some(w') {
      RetireDecreases(l, l', a, a', i, j, w.chain.clock.epoch);
    } else {
      SplitDecreases(l, l', a, a', i, j, amount, splitAccount, w.chain.clock.epoch);
    }
  }

  datatype Unstake = Unstake(i: nat, account: Key, j: nat, splitAccount: Key)

  /** A run of deactivate_stake calls in which every call unstakes something. */
  ghost predicate EffectiveRun(w: World, calls: seq<Unstake>)
    decreases |calls|
  {
    calls == [] ||
    var u := calls[0];
    var next := DeactivateStake(w, u.i, u.account, u.j, u.splitAccount);
    next.Some? && next.value != w && EffectiveRun(next.value, calls[1..])
  }

  /** Within one epoch only so many deactivate_stake calls can unstake anything. */
  lemma {:induction false} UnstakeTerminates(w: World, calls: seq<Unstake>)
    requires WorldOk(w) && EffectiveRun(w, calls)
    ensures |calls| <= UnstakeMeasure(w.state.ledger, w.chain.accounts, w.chain.clock.epoch)
    decreases |calls|
  {
    if calls != [] {
      var u := calls[0];
      var w' := DeactivateStake(w, u.i, u.account, u.j, u.splitAccount).value;
      DeactivateStakeOk(w, u.i, u.account, u.j, u.splitAccount, w');
      DeactivateStakeDecreases(w, u.i, u.account, u.j, u.splitAccount, w');
      UnstakeTerminates(w', calls[1..]);
    }
  }
}
