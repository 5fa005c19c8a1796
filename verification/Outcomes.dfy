/** What the manager's instructions and the reshaping of stakes leave on the records and on the chain. */
module Outcomes {
  import opened Base
  import opened Model
  import opened Instructions
  import opened Parts
  import opened Reshaping
  import opened Totality

  // ---------- validators ----------

  /** A new validator ends the list with the vote and the score asked for, nothing staked, and no stake
      delta served yet; the flag is there, and the total grows by the score. */
  lemma AddValidatorLists(w: World, vote: Key, score: nat, w': World)
    requires AddValidator(w, vote, score) == Some(w')
    ensures var l, l' := w.state.ledger, w'.state.ledger;
            && vote !in w.chain.flags && |l.validators| < w.chain.validatorCapacity && l.upgrader.Done?
            && l' == l.(validators := l.validators + [ValidatorRecord(vote, 0, score, U64_MAX, 0)],
                        totalScore := l.totalScore + score)
    ensures w' == World(w.state.(ledger := w'.state.ledger), w.chain.(flags := w.chain.flags + {vote}))
  {
  }

  /** The removed record is the one asked for, with nothing staked; the others stay, in whatever order. */
  lemma RemoveValidatorUnlists(w: World, j: nat, vote: Key, w': World)
    requires RemoveValidator(w, j, vote) == Some(w')
    ensures j < |w.state.ledger.validators|
    ensures var l, l' := w.state.ledger, w'.state.ledger;
            && l.validators[j].vote == vote && l.validators[j].balance == 0 && l.upgrader.Done?
            && multiset(l'.validators) == multiset(l.validators) - multiset{l.validators[j]}
            && l' == l.(validators := l'.validators, totalScore := l.totalScore - l.validators[j].score)
    ensures w' == World(w.state.(ledger := w'.state.ledger), w.chain.(flags := w.chain.flags - {vote}))
  {
    SwapRemoveMultiset(w.state.ledger.validators, j);
  }

  /** The validator has the score asked for, the total follows, and nothing else changes. */
  lemma SetValidatorScoreSets(w: World, j: nat, vote: Key, score: nat, w': World)
    requires SetValidatorScore(w, j, vote, score) == Some(w')
    ensures j < |w.state.ledger.validators| && w.state.ledger.validators[j].vote == vote
    ensures var l := w.state.ledger;
            w'.state.ledger == l.(validators := l.validators[j := l.validators[j].(score := score)],
                                  totalScore := l.totalScore - l.validators[j].score + score)
    ensures w' == w.(state := w.state.(ledger := w'.state.ledger))
  {
  }

  // ---------- partial_unstake ----------

  /** What is taken of a record that should lose `wanted`: all of it when less than a minimum stake
      would be left. */
  function Taken(lamports: nat, wanted: nat, minStake: nat): nat {
    if lamports < wanted + minStake then lamports else wanted
  }

  lemma PartialUnstakeHasTarget(w: World, i: nat, account: Key, j: nat, desired: nat, splitAccount: Key)
    returns (target: nat)
    requires PartialUnstake(w, i, account, j, desired, splitAccount).Some?
    ensures i < |w.state.ledger.stakes| && j < |w.state.ledger.validators| && w.state.ledger.stakes[i].account == account
    ensures !w.state.ledger.stakes[i].emergency && splitAccount !in w.chain.accounts
    ensures var totalTarget := w.state.ledger.totalActive + StakeDelta(w.state, w.chain.reserveLamports);
            && 0 <= totalTarget <= U64_MAX && target + w.state.cfg.minStake <= U64_MAX
            && StakeTarget(w.state.ledger, w.state.ledger.validators[j], totalTarget) == Some(target)
  {
    target := StakeTarget(w.state.ledger, w.state.ledger.validators[j],
                          w.state.ledger.totalActive + StakeDelta(w.state, w.chain.reserveLamports)).value;
  }

  lemma MoveOutTakes(w: World, i: nat, account: Key, j: nat, amount: nat, splitAccount: Key, w': World)
    requires i < |w.state.ledger.stakes| && j < |w.state.ledger.validators|
    requires MoveOut(w, i, account, j, amount, splitAccount) == Some(w')
    ensures w'.state.ledger.emergencyCooling - w.state.ledger.emergencyCooling
            == Taken(w.state.ledger.stakes[i].lamports, amount, w.state.cfg.minStake)
  {
  }

  /** partial_unstake moves what the manager wants, but no more than the validator's excess, unless that
      leaves too little of the record; nothing when the excess is no more than a minimum stake. */
  lemma PartialUnstakeTakes(w: World, i: nat, account: Key, j: nat, desired: nat, splitAccount: Key, w': World)
    requires PartialUnstake(w, i, account, j, desired, splitAccount) == Some(w')
    ensures i < |w.state.ledger.stakes| && j < |w.state.ledger.validators| && desired >= w.state.cfg.minStake
    ensures var l, l' := w.state.ledger, w'.state.ledger;
            var totalTarget := l.totalActive + StakeDelta(w.state, w.chain.reserveLamports);
            && totalTarget >= 0
            && var target := StakeTarget(l, l.validators[j], totalTarget);
            && target.Some?
            && var excess := l.validators[j].balance - target.value;
            if excess <= w.state.cfg.minStake then w' == w
            else
              l'.emergencyCooling - l.emergencyCooling
              == Taken(l.stakes[i].lamports, if desired < excess then desired else excess, w.state.cfg.minStake)
  {
    var target := PartialUnstakeHasTarget(w, i, account, j, desired, splitAccount);
    PartialUnstakeNeedsGuards(w, i, j, desired, splitAccount);
    PartialUnstakeWithTarget(w, i, j, desired, splitAccount, target);
    var balance := w.state.ledger.validators[j].balance;
    if balance > target + w.state.cfg.minStake {
      MoveOutTakes(w, i, account, j, Min(desired, balance - target), splitAccount, w');
    }
  }

  // ---------- what an unstake leaves ----------

  function CoolingBy(l: Ledger, amount: nat, emergency: bool): Ledger {
    if emergency then l.(emergencyCooling := l.emergencyCooling + amount)
    else l.(delayedCooling := l.delayedCooling + amount)
  }

  /** All of record `i` cools down: the record keeps its lamports, the validator and the active total lose
      them, the bucket gains them, and the stake account is deactivated with everything it holds. */
  predicate CooledWhole(w: World, w': World, i: nat, account: Key, j: nat, emergency: bool) {
    && i < |w.state.ledger.stakes| && j < |w.state.ledger.validators| && account in w.chain.accounts
    && w.chain.accounts[account].delegation.Some?
    && var l, r, v := w.state.ledger, w.state.ledger.stakes[i], w.state.ledger.validators[j];
    && r.lamports <= v.balance && r.lamports <= l.totalActive
    && w'.state.ledger
       == CoolingBy(l, r.lamports, emergency).(
            stakes := l.stakes[i := r.(emergency := emergency, status := Deactivating)],
            validators := l.validators[j := v.(balance := v.balance - r.lamports)],
            totalActive := l.totalActive - r.lamports)
    && var source := w.chain.accounts[account];
    !source.delegation.value.deactivating
    && w'.chain == w.chain.(accounts := w.chain.accounts[account :=
                            source.(delegation := Some(source.delegation.value.(deactivating := true)))])
  }

  /** `amount` of record `i` cools down in a stake account and a record of its own, both of this epoch; the
      rest of the record and of its account stays as it is. */
  predicate CooledPart(w: World, w': World, i: nat, account: Key, j: nat, amount: nat, splitAccount: Key,
                       emergency: bool, deltaEpoch: nat)
  {
    && i < |w.state.ledger.stakes| && j < |w.state.ledger.validators| && account in w.chain.accounts
    && w.chain.accounts[account].delegation.Some? && splitAccount !in w.chain.accounts
    && var l, r, v := w.state.ledger, w.state.ledger.stakes[i], w.state.ledger.validators[j];
    && amount <= r.lamports && amount <= v.balance && amount <= l.totalActive
    && w'.state.ledger
       == CoolingBy(l, amount, emergency).(
            stakes := l.stakes[i := r.(lamports := r.lamports - amount)]
                      + [StakeRecord(splitAccount, amount, w.chain.clock.epoch, emergency, Deactivating)],
            validators := l.validators[j := v.(balance := v.balance - amount, lastDeltaEpoch := deltaEpoch)],
            totalActive := l.totalActive - amount)
    && var source, d := w.chain.accounts[account], w.chain.accounts[account].delegation.value;
    && amount <= source.lamports && amount <= d.stake && !d.deactivating
    && w'.chain
       == w.chain.(accounts :=
            w.chain.accounts[account := source.(lamports := source.lamports - amount,
                                                delegation := Some(d.(stake := d.stake - amount)))]
                            [splitAccount := StakeAccount(w.chain.stakeRent + amount, w.chain.stakeRent,
                                                          Some(d.(stake := amount, deactivating := true)), true, false)])
  }

  lemma CoolWholeCools(w: World, i: nat, account: Key, j: nat, emergency: bool, w': World)
    requires i < |w.state.ledger.stakes| && j < |w.state.ledger.validators|
    requires CoolWhole(w, i, account, j, emergency) == Some(w')
    ensures CooledWhole(w, w', i, account, j, emergency)
    ensures w'.state == w.state.(ledger := w'.state.ledger)
  {
  }

  lemma CoolPartCools(w: World, i: nat, account: Key, j: nat, amount: nat, splitAccount: Key, emergency: bool,
                      deltaEpoch: nat, w': World)
    requires i < |w.state.ledger.stakes| && j < |w.state.ledger.validators|
    requires CoolPart(w, i, account, j, amount, splitAccount, emergency, deltaEpoch) == Some(w')
    ensures CooledPart(w, w', i, account, j, amount, splitAccount, emergency, deltaEpoch)
    ensures w'.state == w.state.(ledger := w'.state.ledger)
  {
    var source := w.chain.accounts[account];
    var d := source.delegation.value;
    var c1 := CpiSplit(w.chain, account, amount, splitAccount, true).value;
    assert c1.accounts[splitAccount].delegation == Some(d.(stake := amount));
  }

  lemma MarkedWholeCools(w: World, i: nat, account: Key, j: nat, w': World)
    requires i < |w.state.ledger.stakes| && j < |w.state.ledger.validators|
    requires CoolWhole(Marked(w), i, account, j, false) == Some(w')
    ensures CooledWhole(w, w', i, account, j, false)
    ensures w'.state == w.state.(ledger := w'.state.ledger, lastStakeDeltaEpoch := w.chain.clock.epoch)
  {
    CoolWholeCools(Marked(w), i, account, j, false, w');
  }

  lemma MarkedPartCools(w: World, i: nat, account: Key, j: nat, amount: nat, splitAccount: Key, w': World)
    requires i < |w.state.ledger.stakes| && j < |w.state.ledger.validators|
    requires CoolPart(Marked(w), i, account, j, amount, splitAccount, false, w.chain.clock.epoch) == Some(w')
    ensures CooledPart(w, w', i, account, j, amount, splitAccount, false, w.chain.clock.epoch)
    ensures w'.state == w.state.(ledger := w'.state.ledger, lastStakeDeltaEpoch := w.chain.clock.epoch)
  {
    CoolPartCools(Marked(w), i, account, j, amount, splitAccount, false, w.chain.clock.epoch, w');
  }

  /** deactivate_stake leaves one of three worlds: the same one, the record cooling down whole with the
      validator still to be served, or a part of it cooling down and the validator served in this epoch. */
  lemma DeactivateStakeLeaves(w: World, i: nat, account: Key, j: nat, splitAccount: Key, w': World) returns (amount: nat)
    requires DeactivateStake(w, i, account, j, splitAccount) == Some(w') && w' != w
    ensures CooledWhole(w, w', i, account, j, false)
            || CooledPart(w, w', i, account, j, amount, splitAccount, false, w.chain.clock.epoch)
    ensures w'.state == w.state.(ledger := w'.state.ledger, lastStakeDeltaEpoch := w.chain.clock.epoch)
  {
    amount := DeactivateStakeCools(w, i, account, j, splitAccount, w');
    if CoolWhole(Marked(w), i, account, j, false) == Some(w') {
      MarkedWholeCools(w, i, account, j, w');
    } else {
      MarkedPartCools(w, i, account, j, amount, splitAccount, w');
    }
  }

  /** partial_unstake never marks the validator as served. */
  lemma PartialUnstakeLeaves(w: World, i: nat, account: Key, j: nat, desired: nat, splitAccount: Key, w': World)
    returns (amount: nat)
    requires PartialUnstake(w, i, account, j, desired, splitAccount) == Some(w') && w' != w
    ensures j < |w.state.ledger.validators|
    ensures CooledWhole(w, w', i, account, j, true)
            || CooledPart(w, w', i, account, j, amount, splitAccount, true, w.state.ledger.validators[j].lastDeltaEpoch)
    ensures w'.state == w.state.(ledger := w'.state.ledger, lastMoveEpoch := w'.state.lastMoveEpoch,
    stakeMoved := w'.state.stakeMoved)
  {
    var w1;
    w1, amount := PartialUnstakeCools(w, i, account, j, desired, splitAccount, w');
    if CoolWhole(w1, i, account, j, true) == Some(w') {
      CoolWholeCools(w1, i, account, j, true, w');
    } else {
      CoolPartCools(w1, i, account, j, amount, splitAccount, true, w.state.ledger.validators[j].lastDeltaEpoch, w');
    }
  }

  /** emergency_unstake cools the whole record down, of a validator without a score. */
  lemma EmergencyUnstakeLeaves(w: World, i: nat, account: Key, j: nat, w': World)
    requires EmergencyUnstake(w, i, account, j) == Some(w')
    ensures CooledWhole(w, w', i, account, j, true) && w.state.ledger.validators[j].score == 0
    ensures w'.state == w.state.(ledger := w'.state.ledger, lastMoveEpoch := w'.state.lastMoveEpoch,
    stakeMoved := w'.state.stakeMoved)
  {
    var w1 := World(StakeMoved(w.state, w.state.ledger.stakes[i].lamports, w.chain.clock.epoch).value, w.chain);
    CoolWholeCools(w1, i, account, j, true, w');
  }

  // ---------- reshaping ----------

  /** merge_stakes: one account holds the delegation of both and what was above it; the rest of the
      source's rent is paid out. */
  lemma MergeStakesJoins(w: World, dst: nat, dstAccount: Key, src: nat, srcAccount: Key, j: nat, merged: nat, w': World)
    requires MergeStakes(w, dst, dstAccount, src, srcAccount, j, merged) == Some(w')
    ensures j < |w.state.ledger.validators| && dstAccount == CanonicalStake(w.state.ledger.validators[j].vote)
    ensures dst < |w.state.ledger.stakes| && src < |w.state.ledger.stakes| && dstAccount != srcAccount
    ensures w.state.ledger.stakes[dst].account == dstAccount && w.state.ledger.stakes[dst].status.Active?
    ensures w.state.ledger.stakes[src].account == srcAccount && w.state.ledger.stakes[src].status.Active?
    ensures dstAccount in w.chain.accounts && srcAccount in w.chain.accounts
    ensures w.chain.accounts[dstAccount].delegation.Some?
    ensures var to, from := w.chain.accounts[dstAccount], w.chain.accounts[srcAccount];
            var extra := merged - w.state.ledger.stakes[dst].lamports - w.state.ledger.stakes[src].lamports;
            && 0 <= extra <= from.rent
            && w'.chain.accounts.Keys == w.chain.accounts.Keys - {srcAccount}
            && (forall x :: x in w'.chain.accounts && x != dstAccount ==> w'.chain.accounts[x] == w.chain.accounts[x])
            && w'.chain.accounts[dstAccount].lamports == to.lamports + (from.lamports - from.rent) + extra
            && w'.chain.accounts[dstAccount].delegation == Some(to.delegation.value.(stake := merged))
  {
  }

  /** create_canonical_stake moves the account as it is. */
  lemma CanonicalMovesAccount(w: World, i: nat, account: Key, j: nat, w': World)
    requires CreateCanonicalStake(w, i, account, j) == Some(w')
    ensures j < |w.state.ledger.validators| && account in w.chain.accounts
    ensures var canonical := CanonicalStake(w.state.ledger.validators[j].vote);
            && canonical !in w.chain.accounts
            && w'.chain == w.chain.(accounts := (w.chain.accounts - {account})[canonical :=
                             w.chain.accounts[account].(ours := true, locked := false)])
    ensures w'.state == w.state.(ledger := w'.state.ledger)
  {
  }
}
