/** The program state and the part of the chain the instructions read or change. */
module Model {
  import opened Base
  import opened Calc

  // ---------- the staking ledger ----------

  datatype StakeStatus = Unknown | Active | Deactivating

  datatype StakeRecord = StakeRecord(
    account: Key,
    lamports: nat,        // last_update_delegated_lamports
    updatedEpoch: nat,
    emergency: bool,      // is_emergency_unstaking
    status: StakeStatus   // last_update_status
  )

  datatype ValidatorRecord = ValidatorRecord(
    vote: Key,
    balance: nat,         // active_balance
    score: nat,
    lastDeltaEpoch: nat,  // last_stake_delta_epoch
    upgraderBalance: nat  // delinquent_upgrader_active_balance
  )

  datatype Upgrader =
    | IteratingStakes(visited: nat, active: nat, delinquent: nat)
    | IteratingValidators(next: nat, left: nat)
    | Done

  /** The two record lists and the running totals kept beside them. */
  datatype Ledger = Ledger(
    stakes: seq<StakeRecord>,
    validators: seq<ValidatorRecord>,
    totalActive: nat,
    delayedCooling: nat,
    emergencyCooling: nat,
    totalScore: nat,
    upgrader: Upgrader
  )

  // ---------- the rest of the program state ----------

  datatype Config = Config(
    paused: bool,
    rent: nat,            // rent_exempt_for_token_acc
    rewardFee: nat,
    minDeposit: nat,
    minWithdraw: nat,
    delayedUnstakeFee: nat,
    withdrawStakeFee: nat,
    withdrawStakeEnabled: bool,
    depositSolFee: nat,
    depositStakeFee: nat,
    maxStakeMoved: nat,   // max_stake_moved_per_epoch, basis points
    minStake: nat,
    slotsForStakeDelta: nat
  )

  datatype LiqPool = LiqPool(
    liquidityTarget: nat,
    maxFee: nat,
    minFee: nat,
    treasuryCut: nat,
    lpSupply: nat,
    liquidityCap: nat
  )

  datatype State = State(
    cfg: Config,
    ledger: Ledger,
    reserve: nat,         // available_reserve_balance, virtual
    msolSupply: nat,      // virtual
    msolPrice: nat,
    ticketCount: nat,
    ticketBalance: nat,
    stakingCap: nat,
    lastStakeDeltaEpoch: nat,
    extraRuns: nat,
    lastMoveEpoch: nat,
    stakeMoved: nat,
    pool: LiqPool
  )

  const PRICE_DENOMINATOR: nat := 0x1_0000_0000

  // ---------- the chain ----------

  datatype Delegation = Delegation(voter: Key, stake: nat, activationEpoch: nat, deactivating: bool)

  /** A stake account; `ours` says that its authorities are the program's. */
  datatype StakeAccount = StakeAccount(
    lamports: nat,
    rent: nat,
    delegation: Option<Delegation>,
    ours: bool,
    locked: bool
  )

  type Accounts = map<Key, StakeAccount>

  datatype Ticket = Ticket(lamports: nat, createdEpoch: nat)

  datatype Clock = Clock(epoch: nat, slot: nat, lastSlot: nat, epochSeconds: int)

  datatype Chain = Chain(
    accounts: Accounts,
    stakeRent: nat,       // rent reserve of a fresh stake account
    reserveLamports: nat, // real balance of the reserve account
    msolMinted: nat,      // real mSOL supply
    solLeg: nat,
    msolLeg: nat,
    lpMinted: nat,        // real LP token supply
    tickets: map<Key, Ticket>,
    flags: set<Key>,      // validators whose duplication flag account exists
    stakeCapacity: nat,
    validatorCapacity: nat,
    clock: Clock
  )

  datatype World = World(state: State, chain: Chain)

  // ---------- State's read-only functions ----------

  function Control(s: State): nat {
    s.ledger.totalActive + (s.ledger.delayedCooling + s.ledger.emergencyCooling) + s.reserve
  }

  /** The unsigned sum of `total_lamports_under_control` does not overflow. */
  predicate ControlFits(s: State) {
    Control(s) <= U64_MAX
  }

  /** total_virtual_staked_lamports, the lamports backing the mSOL supply. */
  function Virtual(s: State): nat {
    SaturatingSub(Control(s), s.ticketBalance)
  }

  function MsolFromLamports(s: State, lamports: nat): Option<nat> {
    if ControlFits(s) then SharesFromValue(lamports, Virtual(s), s.msolSupply) else None
  }

  function MsolToSol(s: State, msol: nat): Option<nat> {
    if ControlFits(s) then ValueFromShares(msol, Virtual(s), s.msolSupply) else None
  }

  predicate WithinStakingCap(s: State, lamports: nat) {
    Control(s) + lamports <= U64_MAX && Control(s) + lamports <= s.stakingCap
  }

  /** stake_delta: positive means stake, negative means unstake. Emergency cooling only
      reduces an unstake, it never turns it into a stake. */
  function StakeDelta(s: State, reserveLamports: nat): int {
    var raw := SaturatingSub(reserveLamports, s.cfg.rent) + s.ledger.delayedCooling - s.ticketBalance;
    if raw >= 0 then raw else Min(raw + s.ledger.emergencyCooling, 0)
  }

  function StakeTarget(l: Ledger, v: ValidatorRecord, totalTarget: nat): Option<nat> {
    if l.totalScore == 0 then Some(0) else Proportional(totalTarget, v.score, l.totalScore)
  }

  /** The last slots of an epoch, where stake-delta instructions may run. */
  predicate InDeltaWindow(s: State, clock: Clock) {
    clock.slot >= SaturatingSub(clock.lastSlot, s.cfg.slotsForStakeDelta)
  }

  /** on_stake_moved: the epoch's running sum, checked against the cap. */
  function StakeMoved(s: State, amount: nat, epoch: nat): Option<State> {
    var before := if epoch != s.lastMoveEpoch then 0 else s.stakeMoved;
    var moved :- Add64(before, amount);
    :- Need(ControlFits(s));
    :- Need(moved <= ApplyFee(s.cfg.maxStakeMoved, Control(s)));
    Some(s.(lastMoveEpoch := epoch, stakeMoved := moved))
  }

  // ---------- list access ----------

  function GetStake(l: Ledger, i: nat, account: Key): Option<StakeRecord> {
    if i < |l.stakes| && l.stakes[i].account == account then Some(l.stakes[i]) else None
  }

  function GetValidator(l: Ledger, j: nat, vote: Key): Option<ValidatorRecord> {
    if j < |l.validators| && l.validators[j].vote == vote then Some(l.validators[j]) else None
  }

  /** List::remove: the last element takes the removed one's place. */
  function SwapRemove<T>(s: seq<T>, i: nat): (r: seq<T>)
    requires i < |s|
    ensures |r| == |s| - 1
  {
    s[i := s[|s| - 1]][..|s| - 1]
  }

  /** check_stake_amount_and_validator: delegated, to this validator, and up to date. */
  predicate UpToDate(a: Accounts, account: Key, lamports: nat, vote: Key) {
    && account in a
    && a[account].delegation.Some?
    && a[account].delegation.value.voter == vote
    && a[account].delegation.value.stake == lamports
  }

  // ---------- liquidity pool ----------

  /** LiqPool::validate, together with the bounds of its setters. */
  predicate ValidPool(p: LiqPool) {
    && p.minFee <= p.maxFee <= 1000
    && p.liquidityTarget >= 50_000_000_000
    && p.treasuryCut <= 7500
  }

  predicate ValidConfig(cfg: Config) {
    && cfg.rewardFee <= 1000
    && cfg.minStake >= 10_000_000
    && cfg.minWithdraw <= 100_000_000
    && cfg.slotsForStakeDelta >= 3000
    && cfg.delayedUnstakeFee <= 2000
    && cfg.withdrawStakeFee <= 2000
    && cfg.depositSolFee <= 2000
    && cfg.depositStakeFee <= 2000
  }

  /** linear_fee: from maxFee at no liquidity down to minFee at the target. */
  function LinearFee(p: LiqPool, lamports: nat): Option<nat> {
    if lamports >= p.liquidityTarget then Some(p.minFee)
    else
      var discount :- Proportional(SaturatingSub(p.maxFee, p.minFee), lamports, p.liquidityTarget);
      Sub(p.maxFee, discount % (U32_MAX + 1))
  }
}
