/** What each instruction does to the world, in one piece: `None` when it errors or panics (the
    runtime then reverts it), `Some` with the resulting world otherwise. Instructions that give
    up without an error return the world they leave. Inputs an instruction takes from accounts
    it does not change (who signs, how many tokens the signer may move, whether the treasury can
    receive tokens, what a CPI to the stake program produced) are parameters. */
module Instructions {
  import opened Base
  import opened Calc
  import opened Model
  import L = LedgerOps

  // ---------- effects of the stake program ----------

  /** split: `amount` of the stake and lamports of `from` move to the fresh account `to`. */
  function CpiSplit(c: Chain, from: Key, amount: nat, to: Key, ours: bool): Option<Chain> {
    if from !in c.accounts || c.accounts[from].delegation.None? || to in c.accounts then None
    else
      var source := c.accounts[from];
      var stake :- Sub(source.delegation.value.stake, amount);
      var lamports :- Sub(source.lamports, amount);
      var target := StakeAccount(c.stakeRent + amount, c.stakeRent,
                                 Some(source.delegation.value.(stake := amount)), ours, false);
      Some(c.(accounts := c.accounts[from := source.(lamports := lamports,
      delegation := Some(source.delegation.value.(stake := stake)))][to := target]))
  }

  /** deactivate: an error on an account that is deactivating already. */
  function CpiDeactivate(c: Chain, account: Key): Option<Chain> {
    if account !in c.accounts || c.accounts[account].delegation.None? then None
    else
      var source := c.accounts[account];
      :- Need(!source.delegation.value.deactivating);
      Some(c.(accounts := c.accounts[account := source.(
        delegation := Some(source.delegation.value.(deactivating := true)))]))
  }

  // ---------- users ----------

  /** deposit.rs: sell the pool's mSOL first, mint the rest. */
  function Deposit(w: World, lamports: nat, userFunds: nat): Option<World> {
    var s, c := w.state, w.chain;
    :- Need(!s.cfg.paused && lamports >= s.cfg.minDeposit && lamports <= userFunds);
    :- Need(c.msolMinted <= s.msolSupply);
    var order :- MsolFromLamports(s, SaturatingSub(lamports, ApplyFeeCents(s.cfg.depositSolFee, lamports)));
    var swapped := if order <= c.msolLeg then order else c.msolLeg;
    var solSwapped :-
      if swapped == 0 then Some(0) else if swapped == order then Some(lamports) else MsolToSol(s, swapped);
    var deposited :- Sub(lamports, solSwapped);
    :- Need(deposited > 0 ==> WithinStakingCap(s, deposited));
    var reserve :- Add64(s.reserve, deposited);
    var supply :- AddIfAny(s.msolSupply, order - swapped);
    Some(World(s.(reserve := reserve, msolSupply := supply),
               c.(solLeg := c.solLeg + solSwapped,
               msolLeg := c.msolLeg - swapped,
               reserveLamports := c.reserveLamports + deposited,
               msolMinted := c.msolMinted + (order - swapped))))
  }

  /** deposit_stake_account.rs */
  function DepositStakeAccount(w: World, account: Key, j: nat): Option<World> {
    var s, c := w.state, w.chain;
    :- Need(!s.cfg.paused && c.msolMinted <= s.msolSupply && ControlFits(s));
    :- Need(account in c.accounts && c.accounts[account].delegation.Some?);
    var source := c.accounts[account];
    var d := source.delegation.value;
    :- Need(!d.deactivating && c.clock.epoch >= d.activationEpoch && d.stake >= s.cfg.minStake);
    :- Need(source.lamports == d.stake + source.rent && WithinStakingCap(s, d.stake) && !source.locked);
    var v :- GetValidator(s.ledger, j, d.voter);
    :- Need(!source.ours && |s.ledger.stakes| < c.stakeCapacity);
    var ledger :- L.AddActive(s.ledger, account, d.stake, c.clock.epoch, j, v.lastDeltaEpoch);
    var minted :- MsolFromLamports(s, SaturatingSub(d.stake, ApplyFeeCents(s.cfg.depositStakeFee, d.stake)));
    var supply :- Add64(s.msolSupply, minted);
    Some(World(s.(ledger := ledger, msolSupply := supply),
               c.(accounts := c.accounts[account := source.(ours := true)],
               msolMinted := c.msolMinted + minted)))
  }

  /** `split` lamports of record `i` become the user's stake account, `burned` mSOL are gone. */
  function SplitForUser(w: World, i: nat, account: Key, j: nat, split: nat, burned: nat, splitAccount: Key): Option<World>
    requires i < |w.state.ledger.stakes| && j < |w.state.ledger.validators|
  {
    var s, c := w.state, w.chain;
    var supply :- Sub(s.msolSupply, burned);
    var minted :- Sub(c.msolMinted, burned);
    var c1 :- CpiSplit(c, account, split, splitAccount, false);
    var ledger :- L.Release(s.ledger, i, j, split);
    Some(World(s.(ledger := ledger, msolSupply := supply), c1.(msolMinted := minted)))
  }

  /** withdraw_stake_account.rs; `treasury` says whether the treasury can receive mSOL. */
  function WithdrawStakeAccount(w: World, i: nat, account: Key, j: nat, msol: nat, treasury: bool,
                                splitAccount: Key): Option<World>
  {
    var s, c := w.state, w.chain;
    :- Need(!s.cfg.paused && s.cfg.withdrawStakeEnabled && s.ledger.upgrader.Done?);
    :- Need(c.msolLeg + msol <= c.msolMinted);
    var r :- GetStake(s.ledger, i, account);
    :- Need(r.status.Active? && !r.emergency && j < |s.ledger.validators|);
    :- Need(UpToDate(c.accounts, account, r.lamports, s.ledger.validators[j].vote));
    :- Need(!c.accounts[account].delegation.value.deactivating);
    var value :- MsolToSol(s, msol);
    :- Need(value >= s.cfg.minWithdraw);
    var split :- Sub(value, ApplyFeeCents(s.cfg.withdrawStakeFee, value));
    :- Need(s.cfg.minStake <= split <= r.lamports && r.lamports - split >= s.cfg.minStake);
    var atCost :- if treasury then MsolFromLamports(s, split) else Some(msol);
    SplitForUser(w, i, account, j, split, if atCost <= msol then atCost else msol, splitAccount)
  }

  // ---------- delayed unstake ----------

  /** order_unstake.rs: after a stake-delta action of this epoch the ticket belongs to the next one. */
  function OrderUnstake(w: World, msol: nat, ticket: Key): Option<World> {
    var s, c := w.state, w.chain;
    :- Need(!s.cfg.paused && c.msolLeg + msol <= c.msolMinted && ticket !in c.tickets);
    var value :- MsolToSol(s, msol);
    var lamports :- Sub(value, ApplyFeeCents(s.cfg.delayedUnstakeFee, value));
    :- Need(lamports >= s.cfg.minWithdraw);
    var balance :- Add64(s.ticketBalance, lamports);
    var count :- Add64(s.ticketCount, 1);
    var supply :- Sub(s.msolSupply, msol);
    var epoch :- Add64(c.clock.epoch, if c.clock.epoch == s.lastStakeDeltaEpoch then 1 else 0);
    Some(World(s.(ticketBalance := balance, ticketCount := count, msolSupply := supply),
               c.(msolMinted := c.msolMinted - msol, tickets := c.tickets[ticket := Ticket(lamports, epoch)])))
  }

  const EXTRA_WAIT_SECONDS: int := 1800

  /** claim.rs: in the first epoch a ticket is due it must also wait half an hour. */
  function Claim(w: World, ticket: Key): Option<World> {
    var s, c := w.state, w.chain;
    :- Need(!s.cfg.paused && ticket in c.tickets);
    var t := c.tickets[ticket];
    var due :- Add64(t.createdEpoch, 1);
    :- Need(t.lamports != 0 && c.clock.epoch >= due);
    :- Need(c.clock.epoch == due ==> c.clock.epochSeconds >= EXTRA_WAIT_SECONDS);
    var available :- Sub(c.reserveLamports, s.cfg.rent);
    :- Need(t.lamports <= available);
    var balance :- Sub(s.ticketBalance, t.lamports);
    var count :- Sub(s.ticketCount, 1);
    var reserve :- Sub(s.reserve, t.lamports);
    Some(World(s.(ticketBalance := balance, ticketCount := count, reserve := reserve),
               c.(reserveLamports := c.reserveLamports - t.lamports, tickets := c.tickets - {ticket})))
  }

  // ---------- stake delta ----------

  /** How much stake_reserve would delegate to a validator below its target: what the validator
      lacks, or the whole delta when less than a minimum stake would be left of it. */
  function StakeAmount(balance: nat, target: nat, delta: nat, minStake: nat): nat {
    var lacking := Min(SaturatingSub(target, balance), delta);
    if delta - lacking < minStake then delta else lacking
  }

  /** A stake account of `amount` out of the reserve, delegated to validator `j`. */
  function DelegateReserve(w: World, j: nat, vote: Key, account: Key, amount: nat): Option<World>
    requires j < |w.state.ledger.validators|
  {
    var s, c := w.state, w.chain;
    var lamports :- Sub(c.reserveLamports, amount);
    var reserve :- Sub(s.reserve, amount);
    :- Need(|s.ledger.stakes| < c.stakeCapacity);
    var ledger :- L.AddActive(s.ledger, account, amount, c.clock.epoch, j, c.clock.epoch);
    var delegated := StakeAccount(c.stakeRent + amount, c.stakeRent,
                                  Some(Delegation(vote, amount, c.clock.epoch, false)), true, false);
    Some(World(s.(reserve := reserve, lastStakeDeltaEpoch := c.clock.epoch, ledger := ledger),
               c.(reserveLamports := lamports, accounts := c.accounts[account := delegated])))
  }

  /** stake_reserve.rs */
  function StakeReserve(w: World, j: nat, vote: Key, account: Key): Option<World> {
    var s, c := w.state, w.chain;
    :- Need(!s.cfg.paused && s.ledger.upgrader.Done? && account !in c.accounts);
    var delta := StakeDelta(s, c.reserveLamports);
    if delta <= 0 then Some(w)
    else
      :- Need(delta <= U64_MAX);
      var totalTarget := SaturatingAdd64(s.ledger.totalActive, delta);
      var v :- GetValidator(s.ledger, j, vote);
      var again := v.lastDeltaEpoch == c.clock.epoch;
      if again && s.extraRuns == 0 then Some(w)
      else
        var s1 := if again then s.(extraRuns := s.extraRuns - 1) else s;
        :- Need(InDeltaWindow(s, c.clock));
        var target :- StakeTarget(s.ledger, v, totalTarget);
        if v.balance >= target then Some(World(s1, c))
        else
          var amount := StakeAmount(v.balance, target, delta, s.cfg.minStake);
          if amount < s.cfg.minStake then Some(World(s1, c))
          else
            DelegateReserve(World(s1, c), j, vote, account, amount)
  }

  /** The whole account of record `i` is deactivated and starts cooling down. */
  function CoolWhole(w: World, i: nat, account: Key, j: nat, emergency: bool): Option<World>
    requires i < |w.state.ledger.stakes| && j < |w.state.ledger.validators|
  {
    var c :- CpiDeactivate(w.chain, account);
    var ledger :- L.Retire(w.state.ledger, i, j, emergency);
    Some(World(w.state.(ledger := ledger), c))
  }

  /** `amount` of record `i` is split into a new account, which is deactivated and starts cooling down. */
  function CoolPart(w: World, i: nat, account: Key, j: nat, amount: nat, splitAccount: Key, emergency: bool,
                    deltaEpoch: nat): Option<World>
    requires i < |w.state.ledger.stakes| && j < |w.state.ledger.validators|
  {
    var s, c := w.state, w.chain;
    :- Need(|s.ledger.stakes| < c.stakeCapacity);
    var c1 :- CpiSplit(c, account, amount, splitAccount, true);
    var c2 :- CpiDeactivate(c1, splitAccount);
    var ledger :- L.SplitOff(s.ledger, i, j, amount, splitAccount, c.clock.epoch, emergency, deltaEpoch);
    Some(World(s.(ledger := ledger), c2))
  }

  /** What deactivate_stake leaves of a record: never unstaking more than the delta or the excess. */
  function AccountTarget(lamports: nat, excess: nat, delta: nat): nat {
    SaturatingSub(lamports, Min(excess, delta))
  }

  /** The whole account when less than two minimum stakes would be left of it, `rest` is kept otherwise. */
  function UnstakeExcess(w: World, i: nat, account: Key, j: nat, splitAccount: Key, rest: nat, delta: nat): Option<World>
    requires i < |w.state.ledger.stakes| && j < |w.state.ledger.validators|
  {
    var s, c := w.state, w.chain;
    var small :- Add64(s.cfg.minStake, s.cfg.minStake);
    var marked := World(s.(lastStakeDeltaEpoch := c.clock.epoch), c);
    if rest < small then CoolWhole(marked, i, account, j, false)
    else if s.ledger.validators[j].lastDeltaEpoch == c.clock.epoch then Some(w)
    else
      var lamports := s.ledger.stakes[i].lamports;
      :- Need(rest < lamports && lamports - rest <= delta); // the inline assertion
      CoolPart(marked, i, account, j, lamports - rest, splitAccount, false, c.clock.epoch)
  }

  /** deactivate_stake.rs */
  function DeactivateStake(w: World, i: nat, account: Key, j: nat, splitAccount: Key): Option<World> {
    var s, c := w.state, w.chain;
    :- Need(!s.cfg.paused && splitAccount !in c.accounts);
    var r :- GetStake(s.ledger, i, account);
    :- Need(s.ledger.upgrader.Done? && r.status.Active? && !r.emergency && j < |s.ledger.validators|);
    :- Need(InDeltaWindow(s, c.clock));
    var delta := StakeDelta(s, c.reserveLamports);
    :- Need(delta < 0 && -delta <= U64_MAX);
    var v := s.ledger.validators[j];
    :- Need(UpToDate(c.accounts, account, r.lamports, v.vote));
    var target :- StakeTarget(s.ledger, v, SaturatingSub(s.ledger.totalActive, -delta));
    if v.balance <= target then Some(w)
    else UnstakeExcess(w, i, account, j, splitAccount, AccountTarget(r.lamports, v.balance - target, -delta), -delta)
  }

  // ---------- validator manager ----------

  /** emergency_unstake.rs */
  function EmergencyUnstake(w: World, i: nat, account: Key, j: nat): Option<World> {
    var s, c := w.state, w.chain;
    :- Need(!s.cfg.paused && s.ledger.upgrader.Done?);
    var r :- GetStake(s.ledger, i, account);
    :- Need(r.status.Active? && !r.emergency && j < |s.ledger.validators| && s.ledger.validators[j].score == 0);
    :- Need(UpToDate(c.accounts, account, r.lamports, s.ledger.validators[j].vote));
    var s1 :- StakeMoved(s, r.lamports, c.clock.epoch);
    CoolWhole(World(s1, c), i, account, j, true)
  }

  /** The whole account when less than a minimum stake would be left of it, `amount` otherwise. */
  function MoveOut(w: World, i: nat, account: Key, j: nat, amount: nat, splitAccount: Key): Option<World>
    requires i < |w.state.ledger.stakes| && j < |w.state.ledger.validators|
  {
    var s, c := w.state, w.chain;
    var lamports := s.ledger.stakes[i].lamports;
    if SaturatingSub(lamports, amount) < s.cfg.minStake then
      var s1 :- StakeMoved(s, lamports, c.clock.epoch);
      CoolWhole(World(s1, c), i, account, j, true)
    else
      var s1 :- StakeMoved(s, amount, c.clock.epoch);
      CoolPart(World(s1, c), i, account, j, amount, splitAccount, true, s.ledger.validators[j].lastDeltaEpoch)
  }

  /** partial_unstake.rs */
  function PartialUnstake(w: World, i: nat, account: Key, j: nat, desired: nat, splitAccount: Key): Option<World> {
    var s, c := w.state, w.chain;
    :- Need(!s.cfg.paused && s.ledger.upgrader.Done? && splitAccount !in c.accounts);
    :- Need(desired >= s.cfg.minStake && j < |s.ledger.validators|);
    var v := s.ledger.validators[j];
    var r :- GetStake(s.ledger, i, account);
    :- Need(r.status.Active? && !r.emergency);
    :- Need(UpToDate(c.accounts, account, r.lamports, v.vote));
    var totalTarget := s.ledger.totalActive + StakeDelta(s, c.reserveLamports);
    :- Need(0 <= totalTarget <= U64_MAX);
    var target :- StakeTarget(s.ledger, v, totalTarget);
    var floor :- Add64(target, s.cfg.minStake);
    if v.balance <= floor then Some(w)
    else MoveOut(w, i, account, j, Min(desired, v.balance - target), splitAccount)
  }

  /** add_validator.rs: the duplication flag account must not exist yet. */
  function AddValidator(w: World, vote: Key, score: nat): Option<World> {
    var s, c := w.state, w.chain;
    :- Need(!s.cfg.paused && s.ledger.upgrader.Done? && vote !in c.flags);
    :- Need(|s.ledger.validators| < c.validatorCapacity);
    var ledger :- L.AddValidator(s.ledger, vote, score);
    Some(World(s.(ledger := ledger), c.(flags := c.flags + {vote})))
  }

  /** remove_validator.rs */
  function RemoveValidator(w: World, j: nat, vote: Key): Option<World> {
    var s, c := w.state, w.chain;
    :- Need(!s.cfg.paused && s.ledger.upgrader.Done? && vote in c.flags);
    var v :- GetValidator(s.ledger, j, vote);
    var ledger :- L.RemoveValidator(s.ledger, j);
    Some(World(s.(ledger := ledger), c.(flags := c.flags - {vote})))
  }

  /** set_validator_score.rs */
  function SetValidatorScore(w: World, j: nat, vote: Key, score: nat): Option<World> {
    var s, c := w.state, w.chain;
    :- Need(!s.cfg.paused);
    var v :- GetValidator(s.ledger, j, vote);
    var ledger :- L.SetScore(s.ledger, j, score);
    Some(World(s.(ledger := ledger), c))
  }

  // ---------- reshaping ----------

  /** The two records and the two accounts become one; what is left of the source's rent is paid out. */
  function Joined(w: World, dst: nat, dstAccount: Key, src: nat, srcAccount: Key, j: nat, merged: nat): Option<World>
    requires dst < |w.state.ledger.stakes| && src < |w.state.ledger.stakes| && j < |w.state.ledger.validators|
    requires srcAccount in w.chain.accounts && dstAccount in w.chain.accounts
    requires w.chain.accounts[dstAccount].delegation.Some?
    requires w.chain.accounts[srcAccount].rent <= w.chain.accounts[srcAccount].lamports
  {
    var s, c := w.state, w.chain;
    var target, source := c.accounts[dstAccount], c.accounts[srcAccount];
    var ledger :- L.Merge(s.ledger, dst, src, j, merged);
    var returned :- Sub(source.rent, merged - s.ledger.stakes[dst].lamports - s.ledger.stakes[src].lamports);
    var joined := target.(lamports := target.lamports + source.lamports - returned,
                          delegation := Some(target.delegation.value.(stake := merged)));
    Some(World(s.(ledger := ledger),
               c.(accounts := (c.accounts - {srcAccount})[dstAccount := joined])))
  }

  /** merge_stakes.rs: `merged` is the delegation of the destination after the stake program's
      merge; more than the two recorded stakes when the source's rent was activated as well. */
  function MergeStakes(w: World, dst: nat, dstAccount: Key, src: nat, srcAccount: Key, j: nat,
                       merged: nat): Option<World>
  {
    var s, c := w.state, w.chain;
    var l := s.ledger;
    :- Need(!s.cfg.paused && l.upgrader.Done? && j < |l.validators|);
    var v := l.validators[j];
    :- Need(dstAccount == CanonicalStake(v.vote) && srcAccount != dstAccount);
    var to :- GetStake(l, dst, dstAccount);
    :- Need(to.status.Active? && UpToDate(c.accounts, dstAccount, to.lamports, v.vote));
    :- Need(!c.accounts[dstAccount].delegation.value.deactivating);
    var from :- GetStake(l, src, srcAccount);
    :- Need(from.status.Active? && UpToDate(c.accounts, srcAccount, from.lamports, v.vote));
    :- Need(!c.accounts[srcAccount].delegation.value.deactivating);
    :- Need(c.accounts[srcAccount].lamports == from.lamports + c.accounts[srcAccount].rent);
    Joined(w, dst, dstAccount, src, srcAccount, j, merged)
  }

  /** create_canonical_stake.rs: the status of the source record is not checked. */
  function CreateCanonicalStake(w: World, i: nat, account: Key, j: nat): Option<World> {
    var s, c := w.state, w.chain;
    :- Need(!s.cfg.paused && s.ledger.upgrader.Done? && j < |s.ledger.validators|);
    var vote := s.ledger.validators[j].vote;
    var canonical := CanonicalStake(vote);
    :- Need(canonical !in c.accounts);
    var r :- GetStake(s.ledger, i, account);
    :- Need(UpToDate(c.accounts, account, r.lamports, vote));
    var source := c.accounts[account];
    :- Need(!source.delegation.value.deactivating && source.lamports == r.lamports + source.rent);
    :- Need(|s.ledger.stakes| < c.stakeCapacity);
    Some(World(s.(ledger := L.Rehome(s.ledger, i, canonical, c.clock.epoch)),
               c.(accounts := (c.accounts - {account})[canonical := source.(ours := true, locked := false)])))
  }

  // ---------- updates ----------

  /** begin: the virtual reserve and mSOL supply are set to the real ones; an unregistered mint
      closes staking. */
  function Resync(s: State, c: Chain): Option<State> {
    var virtualReserve :- Add64(s.reserve, s.cfg.rent);
    Some(s.(reserve := SaturatingSub(c.reserveLamports, s.cfg.rent),
    stakingCap := if c.msolMinted > s.msolSupply then 0 else s.stakingCap,
    msolSupply := c.msolMinted))
  }

  /** mint_protocol_fees: mSOL worth the reward fee on `incoming`, at the current price. */
  function ProtocolFee(s: State, incoming: nat, treasury: bool): Option<nat> {
    if treasury then MsolFromLamports(s, ApplyFee(s.cfg.rewardFee, incoming)) else Some(0)
  }

  function MintFee(s: State, incoming: nat, treasury: bool): Option<State> {
    var fee :- ProtocolFee(s, incoming, treasury);
    var supply :- AddIfAny(s.msolSupply, fee);
    Some(s.(msolSupply := supply))
  }

  /** The fee on rewards; a slash has none. */
  function FeeOnGrowth(s: State, last: nat, now: nat, treasury: bool): Option<State> {
    if now >= last then MintFee(s, now - last, treasury) else Some(s)
  }

  /** Lamports above the delegation go to the reserve first, then their fee is minted. */
  function CreditExtra(s: State, extra: nat, treasury: bool): Option<State> {
    if extra == 0 then Some(s)
    else
      var reserve :- Add64(s.reserve, extra);
      MintFee(s.(reserve := reserve), extra, treasury)
  }

  function UpdatePrice(s: State): Option<State> {
    var price :- MsolToSol(s, PRICE_DENOMINATOR);
    Some(s.(msolPrice := price))
  }

  /** The fee on what record `i` earned since `last`, then its new delegation. */
  function FollowDelegation(s: State, i: nat, j: nat, stake: nat, last: nat, epoch: nat, treasury: bool): Option<State>
    requires i < |s.ledger.stakes| && j < |s.ledger.validators|
  {
    var s1 :- FeeOnGrowth(s, last, stake, treasury);
    var ledger :- L.Observe(s.ledger, i, j, stake, epoch);
    Some(s1.(ledger := ledger))
  }

  /** The extra lamports and the growth or loss since the `last` recorded delegation of record `i`. */
  function SettleActive(w: World, i: nat, account: Key, j: nat, last: nat, treasury: bool): Option<World>
    requires i < |w.state.ledger.stakes| && j < |w.state.ledger.validators|
    requires account in w.chain.accounts && w.chain.accounts[account].delegation.Some?
  {
    var s, c := w.state, w.chain;
    var source := c.accounts[account];
    var stake := source.delegation.value.stake;
    var unrented :- Sub(source.lamports, source.rent);
    var extra := SaturatingSub(unrented, stake);
    var s1 :- CreditExtra(s, extra, treasury);
    var s2 :- FollowDelegation(s1, i, j, stake, last, c.clock.epoch, treasury);
    var s3 :- UpdatePrice(s2);
    var c' := c.(reserveLamports := c.reserveLamports + extra,
                 msolMinted := s3.msolSupply, // the resynced supply and the fees
                 accounts := c.accounts[account := source.(lamports := source.lamports - extra)]);
    Some(World(s3, c'))
  }

  /** update_active.process up to its closing assertion. */
  function UpdateActiveBody(w: World, i: nat, account: Key, j: nat, treasury: bool): Option<World> {
    var s, c := w.state, w.chain;
    :- Need(!s.cfg.paused && !s.ledger.upgrader.IteratingValidators? && ControlFits(s));
    var s1 :- Resync(s, c);
    var r :- GetStake(s.ledger, i, account);
    :- Need(account in c.accounts && c.accounts[account].delegation.Some?);
    var source := c.accounts[account];
    var d := source.delegation.value;
    var v :- GetValidator(s.ledger, j, d.voter);
    :- Need(!d.deactivating && !r.status.Deactivating?);
    var ledger1 :- L.Recognize(s.ledger, i, j);
    SettleActive(World(s1.(ledger := ledger1), c), i, account, j, r.lamports, treasury)
  }

  /** The closing assertion: virtual and real reserve agree. */
  predicate ReserveAgrees(w: World) {
    w.state.reserve + w.state.cfg.rent == w.chain.reserveLamports
  }

  /** update_active.process up to the progression check of the migration. */
  function UpdateActiveCore(w: World, i: nat, account: Key, j: nat, treasury: bool): Option<World> {
    var w1 :- UpdateActiveBody(w, i, account, j, treasury);
    :- Need(ReserveAgrees(w1));
    Some(w1)
  }

  /** update_active */
  function UpdateActive(w: World, i: nat, account: Key, j: nat, treasury: bool): Option<World> {
    var w1 :- UpdateActiveCore(w, i, account, j, treasury);
    var ledger :- L.Progress(w1.state.ledger);
    Some(w1.(state := w1.state.(ledger := ledger)))
  }

  /** Record `i` stops cooling down and leaves the list; the price is set in between. */
  function DropRecord(s: State, i: nat): Option<State>
    requires i < |s.ledger.stakes|
  {
    var ledger :- L.Draw(s.ledger, s.ledger.stakes[i].lamports, s.ledger.stakes[i].emergency);
    UpdatePrice(s.(ledger := ledger.(stakes := SwapRemove(ledger.stakes, i))))
  }

  /** Record `i` is paid out to the reserve, all but the rent, and leaves the ledger. */
  function SettleDeactivated(w: World, i: nat, account: Key, treasury: bool): Option<World>
    requires i < |w.state.ledger.stakes| && account in w.chain.accounts
  {
    var s, c := w.state, w.chain;
    var r, source := s.ledger.stakes[i], c.accounts[account];
    var unrented :- Sub(source.lamports, source.rent);
    var s1 :- FeeOnGrowth(s, r.lamports, unrented, treasury);
    var filled :- AddIfAny(s1.reserve, source.lamports);
    var s2 :- DropRecord(s1.(reserve := filled - source.rent), i);
    Some(World(s2, c.(reserveLamports := c.reserveLamports + unrented,
                      msolMinted := s2.msolSupply,
                      accounts := c.accounts - {account})))
  }

  /** update_deactivated.process up to the progression check of the migration. */
  function UpdateDeactivatedCore(w: World, i: nat, account: Key, j: nat, treasury: bool): Option<World> {
    var s, c := w.state, w.chain;
    :- Need(!s.cfg.paused && ControlFits(s));
    var s1 :- Resync(s, c);
    var r :- GetStake(s.ledger, i, account);
    :- Need(account in c.accounts && c.accounts[account].delegation.Some?);
    var source := c.accounts[account];
    var v :- GetValidator(s.ledger, j, source.delegation.value.voter);
    :- Need(source.delegation.value.deactivating);
    var ledger :- L.Reclassify(s.ledger, i, j);
    SettleDeactivated(World(s1.(ledger := ledger), c), i, account, treasury)
  }

  /** update_deactivated */
  function UpdateDeactivated(w: World, i: nat, account: Key, j: nat, treasury: bool): Option<World> {
    var w1 :- UpdateDeactivatedCore(w, i, account, j, treasury);
    var ledger :- L.Progress(w1.state.ledger);
    Some(w1.(state := w1.state.(ledger := ledger)))
  }

  /** finalize_delinquent_upgrade */
  function FinalizeUpgrade(w: World, maxValidators: nat): Option<World> {
    var s := w.state;
    :- Need(!s.cfg.paused);
    var ledger :- L.Finalize(s.ledger, maxValidators);
    Some(w.(state := s.(ledger := ledger)))
  }

  // ---------- liquidity pool ----------

  /** The pool pays for `msol` without the fee and keeps all of it but the treasury's cut. */
  function Sell(w: World, msol: nat, fee: nat, treasury: bool): Option<World> {
    var s, c := w.state, w.chain;
    var sold :- Sub(msol, fee);
    var paid :- MsolToSol(s, sold);
    :- Need(paid + s.cfg.rent <= U64_MAX && paid + s.cfg.rent <= c.solLeg);
    :- Need(paid >= s.cfg.minWithdraw);
    var cut := if treasury then ApplyFee(s.pool.treasuryCut, fee) else 0;
    var kept :- Sub(msol, cut);
    Some(World(s, c.(solLeg := c.solLeg - paid, msolLeg := c.msolLeg + kept)))
  }

  /** liquid_unstake.rs: the fee depends on the liquidity left afterwards. */
  function LiquidUnstake(w: World, msol: nat, treasury: bool): Option<World> {
    var s, c := w.state, w.chain;
    :- Need(!s.cfg.paused && c.msolLeg + msol <= c.msolMinted);
    var wanted :- MsolToSol(s, msol);
    var available := SaturatingSub(c.solLeg, s.cfg.rent);
    var feeRate :- if wanted >= available then Some(s.pool.maxFee) else LinearFee(s.pool, available - wanted);
    Sell(w, msol, ApplyFee(feeRate, msol), treasury)
  }

  /** add_liquidity.rs: LP shares at the floored value of the pool. */
  function AddLiquidity(w: World, lamports: nat, userFunds: nat): Option<World> {
    var s, c := w.state, w.chain;
    :- Need(!s.cfg.paused && lamports >= s.cfg.minDeposit && lamports <= userFunds);
    :- Need(c.solLeg + lamports <= U64_MAX && c.solLeg + lamports <= s.pool.liquidityCap);
    :- Need(c.lpMinted <= s.pool.lpSupply);
    var available :- Sub(c.solLeg, s.cfg.rent);
    var legValue :- MsolToSol(s, c.msolLeg);
    var total :- Add64(available, legValue);
    var shares :- SharesFromValue(lamports, total, c.lpMinted);
    var supply :- Add64(c.lpMinted, shares);
    Some(World(s.(pool := s.pool.(lpSupply := supply)),
               c.(solLeg := c.solLeg + lamports, lpMinted := c.lpMinted + shares)))
  }

  /** remove_liquidity.rs: the same part of both legs. */
  function RemoveLiquidity(w: World, tokens: nat): Option<World> {
    var s, c := w.state, w.chain;
    :- Need(!s.cfg.paused && tokens <= c.lpMinted);
    var supply := if c.lpMinted > s.pool.lpSupply then s.pool.lpSupply else c.lpMinted;
    var available :- Sub(c.solLeg, s.cfg.rent);
    var solOut :- Proportional(tokens, available, supply);
    var msolOut :- Proportional(tokens, c.msolLeg, supply);
    var msolValue :- MsolToSol(s, msolOut);
    :- Need(solOut + msolValue <= U64_MAX && solOut + msolValue >= s.cfg.minWithdraw);
    var solLeg :- Sub(c.solLeg, solOut);
    var msolLeg :- Sub(c.msolLeg, msolOut);
    var left :- Sub(supply, tokens);
    Some(World(s.(pool := s.pool.(lpSupply := left)),
               c.(solLeg := solLeg, msolLeg := msolLeg, lpMinted := c.lpMinted - tokens)))
  }
}
