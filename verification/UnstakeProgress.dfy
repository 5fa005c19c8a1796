/** When deactivate_stake runs out of effective calls: the scheduler's victim and its totality together. */
module UnstakeProgress {
  import opened Base
  import opened Model
  import opened Instructions
  import opened Totals
  import opened Soundness
  import opened LedgerSafety
  import opened Scheduler
  import opened Totality

  /** What validator `j` should hold once the delta is unstaked. */
  function TargetNow(w: World, j: nat): Option<nat>
    requires j < |w.state.ledger.validators| && StakeDelta(w.state, w.chain.reserveLamports) < 0
  {
    StakeTarget(w.state.ledger, w.state.ledger.validators[j],
                SaturatingSub(w.state.ledger.totalActive, -StakeDelta(w.state, w.chain.reserveLamports)))
  }

  /** Active record `i` is delegated to validator `j`, which is above its target. */
  predicate Over(w: World, i: nat, j: nat) {
    && StakeDelta(w.state, w.chain.reserveLamports) < 0
    && i < |w.state.ledger.stakes| && w.state.ledger.stakes[i].status.Active?
    && j < |w.state.ledger.validators|
    && Voter(w.chain.accounts, w.state.ledger.stakes[i].account) == Some(w.state.ledger.validators[j].vote)
    && TargetNow(w, j).Some? && w.state.ledger.validators[j].balance > TargetNow(w, j).value
  }

  /** The validator was split already in this epoch, and the record is too big to go as a whole. */
  predicate Served(w: World, i: nat, j: nat)
    requires Over(w, i, j)
  {
    var v := w.state.ledger.validators[j];
    && v.lastDeltaEpoch == w.chain.clock.epoch
    && AccountTarget(w.state.ledger.stakes[i].lamports, v.balance - TargetNow(w, j).value,
                     -StakeDelta(w.state, w.chain.reserveLamports)) >= 2 * w.state.cfg.minStake
  }

  /** A deactivate_stake call on record `i` and validator `j` that unstakes something. */
  predicate Effective(w: World, i: nat, j: nat, splitAccount: Key) {
    && i < |w.state.ledger.stakes|
    && DeactivateStake(w, i, w.state.ledger.stakes[i].account, j, splitAccount).Some?
    && DeactivateStake(w, i, w.state.ledger.stakes[i].account, j, splitAccount) != Some(w)
  }

  /** Something must be unstaked, now is the time, and every Active record is up to date. */
  ghost predicate MustUnstake(w: World, splitAccount: Key) {
    && WorldOk(w) && ControlFits(w.state) && w.state.ticketBalance <= U64_MAX
    && 0 < w.state.cfg.minStake && 2 * w.state.cfg.minStake <= U64_MAX
    && !w.state.cfg.paused && w.state.ledger.upgrader.Done? && InDeltaWindow(w.state, w.chain.clock)
    && StakeDelta(w.state, w.chain.reserveLamports) < 0 < w.state.ledger.totalActive
    && splitAccount !in w.chain.accounts && |w.state.ledger.stakes| < w.chain.stakeCapacity
    && forall m :: 0 <= m < |w.state.ledger.stakes| && w.state.ledger.stakes[m].status.Active? ==>
         && Healthy(w, m)
         && w.chain.accounts[w.state.ledger.stakes[m].account].delegation.value.stake == w.state.ledger.stakes[m].lamports
  }

  lemma UnstakeExcessEffective(w: World, i: nat, account: Key, j: nat, splitAccount: Key, rest: nat, delta: nat)
    requires i < |w.state.ledger.stakes| && j < |w.state.ledger.validators| && w.state.ledger.stakes[i].status.Active?
    requires UnstakeExcess(w, i, account, j, splitAccount, rest, delta).Some?
    ensures UnstakeExcess(w, i, account, j, splitAccount, rest, delta) != Some(w)
            <==> rest < 2 * w.state.cfg.minStake || w.state.ledger.validators[j].lastDeltaEpoch != w.chain.clock.epoch
  {
  }

  lemma OverIsEffectiveIff(w: World, i: nat, j: nat, splitAccount: Key)
    requires MustUnstake(w, splitAccount) && Over(w, i, j)
    ensures Effective(w, i, j, splitAccount) <==> !Served(w, i, j)
  {
    DeactivateStakeTotal(w, i, j, splitAccount);
    var r, v := w.state.ledger.stakes[i], w.state.ledger.validators[j];
    var delta := -StakeDelta(w.state, w.chain.reserveLamports);
    var rest := AccountTarget(r.lamports, v.balance - TargetNow(w, j).value, delta);
    assert DeactivateStake(w, i, r.account, j, splitAccount)
           == UnstakeExcess(w, i, r.account, j, splitAccount, rest, delta);
    UnstakeExcessEffective(w, i, r.account, j, splitAccount, rest, delta);
  }

  lemma EffectiveIsOver(w: World, i: nat, j: nat, splitAccount: Key)
    requires Effective(w, i, j, splitAccount)
    ensures Over(w, i, j)
  {
  }

  /** While something must be unstaked, there is a record to unstake from, and no call unstakes
      anything exactly when every such record was served: its validator was split in this epoch. */
  lemma NothingLeftIff(w: World, splitAccount: Key) returns (i: nat, j: nat)
    requires MustUnstake(w, splitAccount)
    ensures Over(w, i, j)
    ensures (forall m, n :: !Effective(w, m, n, splitAccount)) <==> (forall m, n :: Over(w, m, n) ==> Served(w, m, n))
  {
    i, j := UnstakeHasVictim(w);
    forall m, n ensures Effective(w, m, n, splitAccount) <==> Over(w, m, n) && !Served(w, m, n) {
      if Over(w, m, n) {
        OverIsEffectiveIff(w, m, n, splitAccount);
      } else if Effective(w, m, n, splitAccount) {
        EffectiveIsOver(w, m, n, splitAccount);
      }
    }
  }
}
