/** The changes instructions make to the ledger, with their checked arithmetic. Each is one
    transition of the record lists together with the totals kept beside them. */
module LedgerOps {
  import opened Base
  import opened Model

  // ---------- growing ----------

  /** What a stake deposit does to the upgrader and to the upgrader balance of validator `j`. */
  function UpgraderOnDeposit(u: Upgrader, j: nat, upgraderBalance: nat, amount: nat): Option<(Upgrader, nat)> {
    match u
    case IteratingStakes(visited, active, delinquent) =>
      :- Need(visited + 1 <= U32_MAX);
      var active' :- Add64(active, amount);
      var balance' :- Add64(upgraderBalance, amount);
      Some((IteratingStakes(visited + 1, active', delinquent), balance'))
    case IteratingValidators(next, _) =>
      if j >= next then
        var balance' :- Add64(upgraderBalance, amount);
        Some((u, balance'))
      else Some((u, upgraderBalance))
    case Done => Some((u, upgraderBalance))
  }

  /** A new Active record of validator `j`, whose delta epoch becomes `deltaEpoch`. */
  function AddActive(l: Ledger, account: Key, amount: nat, epoch: nat, j: nat, deltaEpoch: nat): Option<Ledger>
    requires j < |l.validators|
  {
    var v := l.validators[j];
    var balance :- Add64(v.balance, amount);
    var (upgrader, upgraderBalance) :- UpgraderOnDeposit(l.upgrader, j, v.upgraderBalance, amount);
    var total :- Add64(l.totalActive, amount);
    Some(l.(stakes := l.stakes + [StakeRecord(account, amount, epoch, false, Active)],
    validators := l.validators[j := v.(balance := balance, upgraderBalance := upgraderBalance,
      lastDeltaEpoch := deltaEpoch)],
    totalActive := total,
    upgrader := upgrader))
  }

  // ---------- unstaking ----------

  function Cool(l: Ledger, amount: nat, emergency: bool): Option<Ledger> {
    if emergency then
      var cooling :- Add64(l.emergencyCooling, amount);
      Some(l.(emergencyCooling := cooling))
    else
      var cooling :- Add64(l.delayedCooling, amount);
      Some(l.(delayedCooling := cooling))
  }

  /** `amount` leaves validator `j` and the active total. */
  function Deduct(l: Ledger, j: nat, amount: nat): Option<Ledger>
    requires j < |l.validators|
  {
    var v := l.validators[j];
    var balance :- Sub(v.balance, amount);
    var total :- Sub(l.totalActive, amount);
    Some(l.(validators := l.validators[j := v.(balance := balance)], totalActive := total))
  }

  /** The whole of Active record `i` starts cooling down. */
  function Retire(l: Ledger, i: nat, j: nat, emergency: bool): Option<Ledger>
    requires i < |l.stakes| && j < |l.validators|
  {
    var r := l.stakes[i];
    var l1 :- Deduct(l, j, r.lamports);
    var l2 :- Cool(l1, r.lamports, emergency);
    Some(l2.(stakes := l2.stakes[i := r.(emergency := emergency, status := Deactivating)]))
  }

  /** Part of Active record `i` moves to a new cooling record. */
  function SplitOff(l: Ledger, i: nat, j: nat, amount: nat, account: Key, epoch: nat,
                    emergency: bool, deltaEpoch: nat): Option<Ledger>
    requires i < |l.stakes| && j < |l.validators|
  {
    var r := l.stakes[i];
    var rest :- Sub(r.lamports, amount);
    var l1 :- Deduct(l, j, amount);
    var l2 :- Cool(l1, amount, emergency);
    Some(l2.(stakes := l2.stakes[i := r.(lamports := rest)]
                       + [StakeRecord(account, amount, epoch, emergency, Deactivating)],
    validators := l2.validators[j := l2.validators[j].(lastDeltaEpoch := deltaEpoch)]))
  }

  /** Part of Active record `i` leaves the program. */
  function Release(l: Ledger, i: nat, j: nat, amount: nat): Option<Ledger>
    requires i < |l.stakes| && j < |l.validators|
  {
    var r := l.stakes[i];
    var rest :- Sub(r.lamports, amount);
    var l1 :- Deduct(l, j, amount);
    Some(l1.(stakes := l1.stakes[i := r.(lamports := rest)]))
  }

  // ---------- reshaping ----------

  /** Record `src` is merged into record `dst`, whose account now delegates `merged`. */
  function Merge(l: Ledger, dst: nat, src: nat, j: nat, merged: nat): Option<Ledger>
    requires dst < |l.stakes| && src < |l.stakes| && j < |l.validators|
  {
    var extra :- Sub(merged, l.stakes[dst].lamports + l.stakes[src].lamports);
    var v := l.validators[j];
    var balance :- Add64(v.balance, extra);
    var total :- Add64(l.totalActive, extra);
    Some(l.(stakes := SwapRemove(l.stakes[dst := l.stakes[dst].(lamports := merged)], src),
    validators := l.validators[j := v.(balance := balance)],
    totalActive := total))
  }

  /** The stake of record `i` moves to a new account: pushed, then swap-removed. */
  function Rehome(l: Ledger, i: nat, account: Key, epoch: nat): Ledger
    requires i < |l.stakes|
  {
    var moved := StakeRecord(account, l.stakes[i].lamports, epoch, false, Active);
    l.(stakes := SwapRemove(l.stakes + [moved], i))
  }

  // ---------- updates ----------

  /** An Unknown record becomes Active: it counts as visited by the migration. */
  function Recognize(l: Ledger, i: nat, j: nat): Option<Ledger>
    requires i < |l.stakes| && j < |l.validators|
  {
    var r := l.stakes[i];
    var v := l.validators[j];
    if !r.status.Unknown? then Some(l)
    else
      :- Need(l.upgrader.IteratingStakes?);
      :- Need(l.upgrader.visited + 1 <= U32_MAX);
      var active :- Add64(l.upgrader.active, r.lamports);
      :- Need(active <= l.totalActive);
      var balance :- Add64(v.upgraderBalance, r.lamports);
      :- Need(balance <= v.balance);
      Some(l.(stakes := l.stakes[i := r.(status := Active)],
      validators := l.validators[j := v.(upgraderBalance := balance)],
      upgrader := IteratingStakes(l.upgrader.visited + 1, active, l.upgrader.delinquent)))
  }

  /** The delegation of Active record `i` is seen to have grown or to have been slashed. */
  function Observe(l: Ledger, i: nat, j: nat, stake: nat, epoch: nat): Option<Ledger>
    requires i < |l.stakes| && j < |l.validators|
  {
    var r := l.stakes[i];
    var v := l.validators[j];
    var stakes := l.stakes[i := r.(lamports := stake, updatedEpoch := epoch)];
    if stake >= r.lamports then
      var rewards := stake - r.lamports;
      var balance :- Add64(v.balance, rewards);
      var total :- Add64(l.totalActive, rewards);
      if l.upgrader.IteratingStakes? then
        var upgraderBalance :- Add64(v.upgraderBalance, rewards);
        var active :- Add64(l.upgrader.active, rewards);
        Some(l.(stakes := stakes, totalActive := total,
        validators := l.validators[j := v.(balance := balance, upgraderBalance := upgraderBalance)],
        upgrader := l.upgrader.(active := active)))
      else
        Some(l.(stakes := stakes, totalActive := total, validators := l.validators[j := v.(balance := balance)]))
    else
      var slashed := r.lamports - stake;
      var balance :- Sub(v.balance, slashed);
      var total :- Sub(l.totalActive, slashed);
      if l.upgrader.IteratingStakes? then
        var upgraderBalance :- Sub(v.upgraderBalance, slashed);
        var active :- Sub(l.upgrader.active, slashed);
        Some(l.(stakes := stakes, totalActive := total,
        validators := l.validators[j := v.(balance := balance, upgraderBalance := upgraderBalance)],
        upgrader := l.upgrader.(active := active)))
      else
        Some(l.(stakes := stakes, totalActive := total, validators := l.validators[j := v.(balance := balance)]))
  }

  /** A record found Active on a deactivated account was deactivated by somebody else:
      it is first moved to emergency cooling. Its status is left, for it is about to be removed. */
  function Reclassify(l: Ledger, i: nat, j: nat): Option<Ledger>
    requires i < |l.stakes| && j < |l.validators|
  {
    var r := l.stakes[i];
    if !r.status.Active? then Some(l)
    else
      :- Need(!r.emergency);
      var l1 :- Cool(l, r.lamports, true);
      var l2 :- Deduct(l1, j, r.lamports);
      Some(l2.(stakes := l2.stakes[i := r.(emergency := true)]))
  }

  /** The last recorded delegation leaves the cooling bucket; while stakes are being iterated a
      shortfall of the bucket is delinquent stake, still counted as active. */
  function Draw(l: Ledger, amount: nat, emergency: bool): Option<Ledger> {
    if l.upgrader.IteratingStakes? then
      var available := Min(if emergency then l.emergencyCooling else l.delayedCooling, amount);
      var delinquent := amount - available;
      var total' :- AddIfAny(l.upgrader.delinquent, delinquent);
      var total :- Sub(l.totalActive, delinquent);
      Some(l.(totalActive := total,
      emergencyCooling := if emergency then l.emergencyCooling - available else l.emergencyCooling,
      delayedCooling := if emergency then l.delayedCooling else l.delayedCooling - available,
      upgrader := l.upgrader.(delinquent := total')))
    else if emergency then
      var cooling :- Sub(l.emergencyCooling, amount);
      Some(l.(emergencyCooling := cooling))
    else
      var cooling :- Sub(l.delayedCooling, amount);
      Some(l.(delayedCooling := cooling))
  }

  /** Record `i` has been withdrawn to the reserve and leaves the list. */
  function Collect(l: Ledger, i: nat, j: nat): Option<Ledger>
    requires i < |l.stakes| && j < |l.validators|
  {
    var l1 :- Reclassify(l, i, j);
    var l2 :- Draw(l1, l1.stakes[i].lamports, l1.stakes[i].emergency);
    Some(l2.(stakes := SwapRemove(l2.stakes, i)))
  }

  // ---------- migration ----------

  /** check_delinquent_upgrade_state_progression. */
  function Progress(l: Ledger): Option<Ledger> {
    if l.upgrader.IteratingStakes? && l.upgrader.visited == |l.stakes| then
      :- Need(l.upgrader.active == l.totalActive);
      Some(l.(upgrader := IteratingValidators(0, l.upgrader.delinquent)))
    else Some(l)
  }

  /** Balances not confirmed by the migration in `vs`. */
  function Gaps(vs: seq<ValidatorRecord>): int {
    if vs == [] then 0
    else Gaps(vs[..|vs| - 1]) + vs[|vs| - 1].balance - vs[|vs| - 1].upgraderBalance
  }

  function Settle(v: ValidatorRecord): ValidatorRecord {
    v.(balance := v.upgraderBalance, upgraderBalance := 0)
  }

  function SettleRange(vs: seq<ValidatorRecord>, lo: nat, hi: nat): (r: seq<ValidatorRecord>)
    requires lo <= hi <= |vs|
    ensures |r| == |vs|
  {
    seq(|vs|, k requires 0 <= k < |vs| => if lo <= k < hi then Settle(vs[k]) else vs[k])
  }

  /** One finalize call over at most `max` validators. */
  function Finalize(l: Ledger, max: nat): Option<Ledger> {
    if !l.upgrader.IteratingValidators? then None
    else if l.upgrader.next > |l.validators| then Some(l)
    else
      var lo := l.upgrader.next;
      var hi := Min(|l.validators|, lo + max);
      :- Need(forall k :: lo <= k < hi ==> l.validators[k].upgraderBalance <= l.validators[k].balance);
      var gaps := Gaps(l.validators[lo..hi]);
      :- Need(gaps <= l.upgrader.left);
      var left := l.upgrader.left - gaps;
      :- Need(hi == |l.validators| ==> left == 0);
      Some(l.(validators := SettleRange(l.validators, lo, hi),
      upgrader := if hi == |l.validators| then Done else IteratingValidators(hi, left)))
  }

  // ---------- validators ----------

  function AddValidator(l: Ledger, vote: Key, score: nat): Option<Ledger> {
    var total := l.totalScore + score;
    :- Need(total <= U32_MAX);
    Some(l.(validators := l.validators + [ValidatorRecord(vote, 0, score, U64_MAX, 0)], totalScore := total))
  }

  function RemoveValidator(l: Ledger, j: nat): Option<Ledger>
    requires j < |l.validators|
  {
    var v := l.validators[j];
    :- Need(v.balance == 0);
    var score :- Sub(l.totalScore, v.score);
    Some(l.(validators := SwapRemove(l.validators, j), totalScore := score))
  }

  function SetScore(l: Ledger, j: nat, score: nat): Option<Ledger>
    requires j < |l.validators|
  {
    var rest :- Sub(l.totalScore, l.validators[j].score);
    :- Need(rest + score <= U32_MAX);
    Some(l.(validators := l.validators[j := l.validators[j].(score := score)], totalScore := rest + score))
  }
}
