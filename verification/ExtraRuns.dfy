/** stake_reserve counts an extra run before it knows whether it will stake. */
module ExtraRuns {
  import opened Base
  import opened Calc
  import opened Model
  import opened Instructions
  import opened Totals
  import opened Soundness
  import opened LedgerSafety
  import opened Books
  import opened Solvency
  import opened Staking
  import opened Examples

  /** The guards of stake_reserve up to the validator. */
  predicate MayStake(w: World, j: nat, vote: Key, account: Key) {
    var s := w.state;
    && !s.cfg.paused && s.ledger.upgrader.Done? && account !in w.chain.accounts
    && 0 < StakeDelta(s, w.chain.reserveLamports) <= U64_MAX
    && j < |s.ledger.validators| && s.ledger.validators[j].vote == vote
    && InDeltaWindow(s, w.chain.clock)
  }

  /** The validator was served in this epoch already, and an extra run is left. */
  predicate TakesExtraRun(w: World, j: nat)
    requires j < |w.state.ledger.validators|
  {
    w.state.ledger.validators[j].lastDeltaEpoch == w.chain.clock.epoch && w.state.extraRuns > 0
  }

  /** The validator needs no stake, or less than the minimum. */
  predicate NothingToStake(w: World, j: nat)
    requires j < |w.state.ledger.validators| && StakeDelta(w.state, w.chain.reserveLamports) >= 0
  {
    var s, delta: nat := w.state, StakeDelta(w.state, w.chain.reserveLamports);
    var v := s.ledger.validators[j];
    var target := StakeTarget(s.ledger, v, SaturatingAdd64(s.ledger.totalActive, delta));
    && target.Some?
    && (v.balance >= target.value || Given(target.value - v.balance, delta, s.cfg.minStake) < s.cfg.minStake)
  }

  /** An extra run is used up without staking anything exactly in this case. */
  lemma ExtraRunUsedInVainIff(w: World, j: nat, vote: Key, account: Key, w': World)
    requires StakeReserve(w, j, vote, account) == Some(w')
    ensures w'.state.extraRuns < w.state.extraRuns && w'.state.ledger == w.state.ledger
            <==> MayStake(w, j, vote, account) && TakesExtraRun(w, j) && NothingToStake(w, j)
    ensures MayStake(w, j, vote, account) && TakesExtraRun(w, j) && NothingToStake(w, j) ==>
              w' == w.(state := w.state.(extraRuns := w.state.extraRuns - 1))
  {
    if |w'.state.ledger.stakes| != |w.state.ledger.stakes| {
      assert w'.state.ledger != w.state.ledger;
    }
  }

  /** One validator without a score, served in this epoch, and `reserve` lamports to stake. */
  function Served(reserve: nat, extraRuns: nat): World {
    var w := Example(Ledger([], [ValidatorRecord(VOTE, 0, 0, 0, 0)], 0, 0, 0, 0, Done), {VOTE}, map[], reserve);
    w.(state := w.state.(extraRuns := extraRuns))
  }

  lemma ServedIsSolvent(reserve: nat, extraRuns: nat)
    ensures Solvent(Served(reserve, extraRuns), 10_000_000)
  {
    var l := Served(reserve, extraRuns).state.ledger;
    assert l.validators[..0] == [];
    forall m: Measure ensures Sum(m, l.validators) == Gauge(m, l.validators[0]) {
      assert Sum(m, l.validators) == Sum(m, l.validators[..0]) + Gauge(m, l.validators[0]);
    }
    assert l.validators[0].vote == VOTE;
    forall vote ensures vote in Served(reserve, extraRuns).chain.flags <==> Listed(l.validators, vote) {
      if vote == VOTE {
        assert Listed(l.validators, vote);
      }
    }
  }

  /** For example: a solvent program with something to stake loses its last extra run to a validator
      without a score. */
  lemma ExtraRunLost(reserve: nat, account: Key)
    requires 0 < reserve <= U64_MAX
    ensures Solvent(Served(reserve, 1), 10_000_000)
    ensures StakeReserve(Served(reserve, 1), 0, VOTE, account) == Some(Served(reserve, 0))
  {
    ServedIsSolvent(reserve, 1);
  }
}
