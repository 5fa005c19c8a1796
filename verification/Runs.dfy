/** Runs: every instruction with any arguments, the administrators' settings, and whatever the rest
    of the chain does in between. */
module Runs {
  import opened Base
  import opened Model
  import opened Instructions
  import opened Totals

  datatype Step =
    | DoDeposit(lamports: nat, userFunds: nat)
    | DoDepositStakeAccount(account: Key, j: nat)
    | DoWithdrawStakeAccount(i: nat, account: Key, j: nat, msol: nat, treasury: bool, splitAccount: Key)
    | DoOrderUnstake(msol: nat, ticket: Key)
    | DoClaim(ticket: Key)
    | DoStakeReserve(j: nat, vote: Key, account: Key)
    | DoDeactivateStake(i: nat, account: Key, j: nat, splitAccount: Key)
    | DoEmergencyUnstake(i: nat, account: Key, j: nat)
    | DoPartialUnstake(i: nat, account: Key, j: nat, desired: nat, splitAccount: Key)
    | DoMergeStakes(dst: nat, dstAccount: Key, src: nat, srcAccount: Key, j: nat, merged: nat)
    | DoCreateCanonicalStake(i: nat, account: Key, j: nat)
    | DoUpdateActive(i: nat, account: Key, j: nat, treasury: bool)
    | DoUpdateDeactivated(i: nat, account: Key, j: nat, treasury: bool)
    | DoFinalizeUpgrade(maxValidators: nat)
    | DoAddValidator(vote: Key, score: nat)
    | DoRemoveValidator(j: nat, vote: Key)
    | DoSetValidatorScore(j: nat, vote: Key, score: nat)
    | DoLiquidUnstake(msol: nat, treasury: bool)
    | DoAddLiquidity(lamports: nat, userFunds: nat)
    | DoRemoveLiquidity(tokens: nat)
    | Configure(cfg: Config, stakingCap: nat, extraRuns: nat, pool: LiqPool)
    | Elsewhere(after: Chain)

  function Instruction(w: World, step: Step): Option<World> {
    match step
    case DoDeposit(lamports, funds) => Deposit(w, lamports, funds)
    case DoDepositStakeAccount(account, j) => DepositStakeAccount(w, account, j)
    case DoWithdrawStakeAccount(i, account, j, msol, treasury, split) =>
      WithdrawStakeAccount(w, i, account, j, msol, treasury, split)
    case DoOrderUnstake(msol, ticket) => OrderUnstake(w, msol, ticket)
    case DoClaim(ticket) => Claim(w, ticket)
    case DoStakeReserve(j, vote, account) => StakeReserve(w, j, vote, account)
    case DoDeactivateStake(i, account, j, split) => DeactivateStake(w, i, account, j, split)
    case DoEmergencyUnstake(i, account, j) => EmergencyUnstake(w, i, account, j)
    case DoPartialUnstake(i, account, j, desired, split) => PartialUnstake(w, i, account, j, desired, split)
    case DoMergeStakes(dst, dstAccount, src, srcAccount, j, merged) =>
      MergeStakes(w, dst, dstAccount, src, srcAccount, j, merged)
    case DoCreateCanonicalStake(i, account, j) => CreateCanonicalStake(w, i, account, j)
    case DoUpdateActive(i, account, j, treasury) => UpdateActive(w, i, account, j, treasury)
    case DoUpdateDeactivated(i, account, j, treasury) => UpdateDeactivated(w, i, account, j, treasury)
    case DoFinalizeUpgrade(max) => FinalizeUpgrade(w, max)
    case DoAddValidator(vote, score) => AddValidator(w, vote, score)
    case DoRemoveValidator(j, vote) => RemoveValidator(w, j, vote)
    case DoSetValidatorScore(j, vote, score) => SetValidatorScore(w, j, vote, score)
    case DoLiquidUnstake(msol, treasury) => LiquidUnstake(w, msol, treasury)
    case DoAddLiquidity(lamports, funds) => AddLiquidity(w, lamports, funds)
    case DoRemoveLiquidity(tokens) => RemoveLiquidity(w, tokens)
    case Configure(cfg, cap, runs, pool) =>
      if ValidConfig(cfg) && cfg.rent == w.state.cfg.rent && ValidPool(pool) && pool.lpSupply == w.state.pool.lpSupply
      then Some(w.(state := w.state.(cfg := cfg, stakingCap := cap, extraRuns := runs, pool := pool)))
      else None
    case Elsewhere(after) => None
  }

  /** What the rest of the chain may do: accounts of the program keep their owner and voter and stay
      deactivated once they are; nobody else can take lamports or tokens out of the program's
      accounts, mint its tokens, or touch its tickets and flags; epochs do not go back. Rewards,
      slashes, donations, burns, forced deactivations, and stake accounts anybody opens in the
      program's name are all among it. */
  ghost predicate Permitted(c: Chain, c': Chain) {
    && (forall x :: x in c.accounts && c.accounts[x].ours ==> StillOurs(c.accounts, c'.accounts, x))
    && c'.reserveLamports >= c.reserveLamports
    && c'.solLeg >= c.solLeg
    && c.msolLeg <= c'.msolLeg <= c'.msolMinted <= c.msolMinted
    && c'.lpMinted <= c.lpMinted
    && c'.tickets == c.tickets && c'.flags == c.flags && c'.stakeRent == c.stakeRent
    && c'.clock.epoch >= c.clock.epoch
  }

  predicate StillOurs(a: Accounts, a': Accounts, x: Key) {
    && x in a' && a'[x].ours
    && (x in a && a[x].delegation.Some? ==> a'[x].delegation.Some? && a'[x].rent == a[x].rent)
    && Voter(a, x) == Voter(a', x)
    && (IsDeactivating(a, x) ==> IsDeactivating(a', x))
  }

  /** One step: an instruction that fails changes nothing. */
  ghost function Next(w: World, step: Step): World {
    if step.Elsewhere? then
      if Permitted(w.chain, step.after) then World(w.state, step.after) else w
    else
      var r := Instruction(w, step);
      if r.Some? then r.value else w
  }

  ghost function Run(w: World, steps: seq<Step>): World
    decreases |steps|
  {
    if steps == [] then w else Run(Next(w, steps[0]), steps[1..])
  }

  /** The program as `initialize` leaves it: nothing staked, nothing minted, no migration. */
  predicate Initialized(w: World) {
    var s, c := w.state, w.chain;
    && ValidConfig(s.cfg) && ValidPool(s.pool) && s.pool.lpSupply == 0
    && s.ledger == Ledger([], [], 0, 0, 0, 0, Done)
    && s.reserve == 0 && s.msolSupply == 0 && s.ticketCount == 0 && s.ticketBalance == 0
    && s.lastMoveEpoch == 0 && s.stakeMoved == 0
    && c.reserveLamports == s.cfg.rent && c.msolMinted == 0 && c.msolLeg == 0 && c.lpMinted == 0
    && c.solLeg == s.cfg.rent
    && c.tickets == map[] && c.flags == {}
  }
}
