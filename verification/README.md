# Marinade staking ledger

A model of the on-chain program of Marinade liquid staking, and proofs about it.

Users deposit SOL or stake accounts for mSOL. The program keeps a reserve, a list of stake records, a list of
validators, and running totals beside them: active stake in total and per validator, stake cooling down for
delayed unstakes and for emergencies, mSOL supply, tickets. Bots move stake towards score-proportional targets,
report rewards and slashes, merge accounts, and once ran a two-phase migration of the records while everything
else went on. A SOL/mSOL pool sits beside it. Nowhere in the program is it written down what the totals are
totals of; every checked subtraction relies on it. Here it is written down, with what follows from it.

## How the model is laid out

- `Base`, `Calc`, `Model`: widths, floor arithmetic, state, chain, and the read-only functions of the state.
  `None` stands for every error and every panic (the program is built with overflow checks): both are reverted.
- `LedgerOps`: the transitions of the record lists and their totals, with their checked arithmetic.
- `Instructions`: each instruction as a function from a world (state and chain) to the world it leaves.
- `Program` (module `Onchain`): the same instructions as methods that update the state step by step, in the order of
  the source, each proved to leave exactly the specified world or to fail exactly when the specification does. Its
  `Valid` is the ledger invariant with the books, which `Execute` keeps.
- `RecordList`, `Codecs`: the byte list and the serialized records.
- `Totals`, `Soundness`, `Migration`, `LedgerSafety`: sums over lists, and the invariant of the three phases.
- `Runs`: runs of any instructions with any arguments, settings changes, and chain events: rewards, slashes,
  donations, external burns, forced deactivations, the clock. `LedgerRuns`, `MigrationRuns`, `MigrationEnd`,
  `MigrationBlocked`, `MigrationCompletes`, `MigrationBreaks`, `Upgrade`, `Books`, `Solvency`, `PriceRuns`,
  `TicketRuns`, `Movement`, `Reconcile`: what holds over them.
- `Minting`, `Rewards`, `Payouts`, `Swaps`, `StoredPrice`, `Staking`, `Outcomes`: what each instruction mints, pays,
  stakes and leaves, as bounds on the results rather than as the code computes them. `Conservation`: no lamports are
  made or lost. `Gates`, `Successes`, `Totality`, `UpdateTotality`: when instructions succeed.
- `Price`, `Rounding`, `RoundTrips`, `FirstDeposits`, `FeeCurve`, `Scheduler`, `UnstakeProgress`, `ExtraRuns`,
  `Slashing`, `Reshaping`, `Frames`, `Parts`: properties of one or a few instructions. `Examples`: small worlds for
  counterexamples.

## What the proofs found

- The migration can be brought to its end exactly when every record it has not visited yet was delegated to a
  validator that is still listed (`MigrationCompletes.MigrationCanEndIff`). Both updates look the voter up in the
  list, no validator can be added before the migration is done, and remove_validator asks for no active balance only,
  not for an end of the cooling. So one cooling record whose validator was removed before the upgrade keeps phase 1
  from ending on every run that keeps the invariant (`MigrationBlocked.UnlistedBlocksMigration`);
  `MigrationBlocked.LegacyUnlistedNeverEnds` is an input. Otherwise (`MigrationCompletes.LegacyOneCanEnd`, for
  instance) visits succeed one after the other (`MigrationCompletes.PhaseOneAdvances`), phase 2 never
  waits (`MigrationEnd.PhaseTwoAdvances`), and `MigrationEnd.MigrationEnds` bounds the number of calls.
- Removing a deactivated record during the migration can break it. In phase 1 a record that was already visited is
  not taken out of the migration's own counters, and the migration ends one visit early
  (`MigrationBreaks.ForcedDeactivationBreaksMigration`). In phase 2 the balance of a validator not finalized yet
  is short of the stake removed, so the gaps never again add up to the delinquent balance, and whatever runs
  afterwards, phase 2 never ends (`MigrationBreaks.ExcludedRemovalBlocksMigration`;
  `MigrationBreaks.ForcedDeactivationBlocksMigration` is an input, from a legacy state).
  `MigrationBreaks.CollectKeepsInvariantIff` gives the exact condition for every phase.
- partial_unstake panics when the unstake delta exceeds the active stake, a condition none of its checks names.
  Without slashing that is out of reach; after a slash below the live tickets it is not
  (`Totality.PartialUnstakeTotal`, `Slashing.NoPanicWithoutSlash`, `Slashing.SlashedPartialUnstakePanics`).
- The round trip bound of deposits needs mSOL in existence. Without any, the ticket exceeds the deposit exactly when
  what is left under control exceeds the fee of the order (`RoundTrips.FirstDepositRoundTrip`). Inputs:
  `FirstDeposits.FirstDepositorTakesResidue` from a solvent world, and from initialize
  `FirstDeposits.NextDepositorTakesFee`, where the fee of a user who left is what the next depositor gains.
- With a live treasury withdraw_stake_account rounds the burn down. The price falls exactly when that loses something,
  when the split times the supply is no multiple of the backing lamports (`Price.TreasuryWithdrawalKeepsPriceIff`),
  and by less than one mSOL atom's worth (`Price.WithdrawStakeAccountTolerance`); over a run the losses multiply up
  to a bound (`PriceRuns.PriceLossIsBounded`). No other step lowers the price without a slash
  (`PriceRuns.NextKeepsPriceIff`). `Rounding.RoundedBurnLowersPrice` is an input.
- stake_reserve counts an extra run before it knows whether it will stake. One is used up in vain exactly when the
  validator was served in this epoch and needs no stake or less than the minimum (`ExtraRuns.ExtraRunUsedInVainIff`);
  `ExtraRuns.ExtraRunLost` is an input.
- Docs/Backend-Design.md:147 says tickets are due two epochs later plus four hours. The code asks for one epoch
  (`WAIT_EPOCHS`), two after a stake-delta action of the same epoch, and half an hour; the model follows the code.
- Docs/Backend-Design.md:99 says the pool value cannot decrease. That holds of the floored value, without slash,
  liquidity removal or treasury withdrawals whose burn is rounded down (`PriceRuns.PoolNeverShrinks`), and neither
  through a slash (`Slashing.SlashShrinksPool`) nor through such a withdrawal (`Rounding.RoundedBurnLowersPrice`).

## Model

| member | source | states |
|---|---|---|
| `LedgerRuns.LedgerAlwaysHolds` | programs/marinade-finance/src/instructions/admin/initialize.rs:112-194 | From initialize on, on every run of any instructions and any permitted chain events: active total = sum of Active records = sum of validator balances, each validator's balance = the Active stake voting for it, the two cooling totals = the Deactivating records without and with the emergency flag, score total = sum of scores, Deactivating implies a deactivating account, Active implies not emergency, all record accounts and votes distinct |
| `LedgerRuns.InstructionOk` | programs/marinade-finance/src/state/validator_system.rs:115-122 | Each of the twenty instructions and the administrators' settings keeps the ledger invariant of whatever migration phase the program is in |
| `LedgerRuns.RunOk` | programs/marinade-finance/src/instructions/crank/update.rs:307-727 | The ledger invariant of all three migration phases is kept over every run in which update_deactivated, before the migration is done, is only called where it keeps the invariant: in phase 1 on an unvisited record, in phase 2 on one of a visited validator or an empty one |
| `LedgerSafety.DepositStakeAccountOk` | programs/marinade-finance/src/instructions/user/deposit_stake_account.rs:75-324 | Keeps the ledger invariant in phase 1, in phase 2 for visited and unvisited validators, and afterwards |
| `LedgerSafety.DeactivateStakeOk` | programs/marinade-finance/src/instructions/crank/deactivate_stake.rs:86-347 | Keeps the ledger invariant, whole, split or early return: what leaves the Active records leaves the validator and the active total and joins the delayed cooling total, and a new cooling record sits on a deactivating account |
| `LedgerSafety.PartialUnstakeOk` | programs/marinade-finance/src/instructions/management/partial_unstake.rs:83-287 | Keeps the ledger invariant: the same for the manager's partial unstake and the emergency bucket |
| `LedgerSafety.EmergencyUnstakeOk` | programs/marinade-finance/src/instructions/management/emergency_unstake.rs:51-140 | Keeps the ledger invariant when a whole record moves to emergency cooling |
| `LedgerSafety.WithdrawStakeAccountOk` | programs/marinade-finance/src/instructions/user/withdraw_stake_account.rs:324-346 | Keeps the ledger invariant: a split given to a user leaves record, validator and total alike |
| `LedgerSafety.StakeReserveOk` | programs/marinade-finance/src/instructions/crank/stake_reserve.rs:96-322 | Keeps the ledger invariant when a stake account is funded from the reserve, and in its early returns |
| `LedgerSafety.MergeStakesOk` | programs/marinade-finance/src/instructions/crank/merge_stakes.rs:64-270 | Keeps the ledger invariant, with or without extra activated rent, although the last record moves into the freed slot |
| `LedgerSafety.CreateCanonicalStakeOk` | programs/marinade-finance/src/instructions/crank/create_canonical_stake.rs:66-224 | Keeps the ledger invariant although no status is checked: under it a record on a live account cannot be Deactivating |
| `LedgerSafety.UpdateActiveOk` | programs/marinade-finance/src/instructions/crank/update.rs:307-466 | Keeps the ledger invariant, and the progression check of the migration never turns a successful update into an error |
| `LedgerSafety.UpdateDeactivatedOk` | programs/marinade-finance/src/instructions/crank/update.rs:548-727 | Keeps the ledger invariant in every phase under exactly that condition, which is no condition once the migration is done, forced deactivations included; the progression check then never fails |
| `LedgerSafety.AddValidatorOk` | programs/marinade-finance/src/instructions/management/add_validator.rs:50-76 | Keeps the ledger invariant: votes stay unique and the duplication flags are the listed votes |
| `LedgerSafety.RemoveValidatorOk` | programs/marinade-finance/src/instructions/management/remove_validator.rs:47-93 | Keeps the ledger invariant: no Active stake votes for a validator with zero balance, so it can be swap-removed |
| `LedgerSafety.SetValidatorScoreOk` | programs/marinade-finance/src/instructions/management/set_validator_score.rs:27-57 | Keeps the ledger invariant, the score total included, in every phase of the migration |
| `Totality.DeactivateStakeTotal` | programs/marinade-finance/src/instructions/crank/deactivate_stake.rs:89-302 | Under the invariant, on a healthy account, the call succeeds if and only if its guards hold: the inline assertion never fires and no subtraction underflows |
| `Totality.EmergencyUnstakeTotal` | programs/marinade-finance/src/instructions/management/emergency_unstake.rs:51-121 | Success if and only if the guards and the movement cap hold |
| `Totality.PartialUnstakeTotal` | programs/marinade-finance/src/instructions/management/partial_unstake.rs:89-266 | Success if and only if the guards hold, the unstake delta does not exceed the active stake (the conversion of the total target panics otherwise), and the moved amount is within the cap |
| `Slashing.NoPanicWithoutSlash` | programs/marinade-finance/src/instructions/management/partial_unstake.rs:130-137 | From initialize on, without slashing, the total target is never negative, so the conversion never panics |
| `Slashing.SlashedPartialUnstakePanics` | programs/marinade-finance/src/instructions/management/partial_unstake.rs:130-137 | From a solvent world a slash of the only stake below the live tickets, once recorded, makes every partial unstake whose checks hold panic |
| `Totality.WithdrawStakeAccountTotal` | programs/marinade-finance/src/instructions/user/withdraw_stake_account.rs:104-346 | Success if and only if the checks hold, with a treasury or without |
| `UpdateTotality.UpdateActiveTotal` | programs/marinade-finance/src/instructions/crank/update.rs:307-446 | Success if and only if the checks hold and the fees, totals, validator balance and price that result fit u64, with a treasury or without |
| `UpdateTotality.UpdateDeactivatedTotal` | programs/marinade-finance/src/instructions/crank/update.rs:548-706 | In every phase that can bear the removal, success if and only if the checks hold and fee, reserve and price fit u64 |
| `Totality.WithdrawReleaseTotal` | programs/marinade-finance/src/instructions/user/withdraw_stake_account.rs:324-329 | Past its checks a withdrawal cannot underflow record, validator or total |
| `Migration.SlashTotal` | programs/marinade-finance/src/instructions/crank/update.rs:409-423 | A slash never underflows balance, total or upgrader counters |
| `Migration.CollectSettledTotal` | programs/marinade-finance/src/instructions/crank/update.rs:571-697 | After the migration, removing a record never underflows a cooling bucket or a total, forced deactivation included |
| `Migration.CollectMigratingTotal` | programs/marinade-finance/src/instructions/crank/update.rs:652-686 | In phase 1 neither the delinquent draw nor the total underflows |
| `Migration.CollectFinalizingTotal` | programs/marinade-finance/src/instructions/crank/update.rs:571-697 | In phase 2 a permitted removal, forced deactivation included, underflows neither balance nor total nor cooling bucket |
| `Migration.RecognizeTotal` | programs/marinade-finance/src/instructions/crank/update.rs:470-503 | In phase 1 a first visit never violates either of its two upgrading checks |
| `MigrationRuns.LegacyIsOk` | programs/marinade-finance/src/state/delinquent_upgrader.rs:17-25 | A legacy state (all statuses unknown, records adding up to active plus cooling, cooling covered by deactivated accounts) satisfies the phase 1 invariant |
| `MigrationRuns.MigrationStaysSound` | programs/marinade-finance/src/instructions/crank/finalize_delinquent_upgrade.rs:21-72 | From a legacy state every interleaving of updates, deposits, finalize calls and everything else keeps the invariant of the phase it is in |
| `MigrationEnd.StepRemaining` | programs/marinade-finance/src/instructions/crank/update.rs:274-298 | Unvisited records plus validators not finalized: no permitted step before the end raises the number, and every update of an unvisited record and every finalize call lowers it |
| `MigrationEnd.MigrationEnds` | programs/marinade-finance/src/instructions/crank/finalize_delinquent_upgrade.rs:21-72 | From a legacy state no run, whatever it interleaves, has more such advances than records and validators (at least one each), and a run with that many is done with every total equal to its sum |
| `MigrationCompletes.PhaseOneAdvances` | programs/marinade-finance/src/instructions/crank/update.rs:183-196 | In phase 1, while the program is not paused, its books hold, stake accounts hold rent and delegation, and the results fit their widths, visiting any unvisited record whose validator is listed (update_active, or update_deactivated when the account is deactivated) succeeds and advances |
| `MigrationCompletes.MigrationCanEndIff` | programs/marinade-finance/src/instructions/crank/update.rs:180-198 | From such a state with unvisited records some permitted run ends the migration if and only if every unvisited record's voter is a listed validator |
| `MigrationCompletes.LegacyCanEndIff` | programs/marinade-finance/src/state/delinquent_upgrader.rs:17-25 | From a legacy state with records: if and only if every record's voter is listed |
| `MigrationBlocked.UnlistedBlocksMigration` | programs/marinade-finance/src/instructions/crank/update.rs:183-196 | An unvisited record whose voter is not listed keeps every permitted run in phase 1 |
| `MigrationBlocked.ListedStays` | programs/marinade-finance/src/instructions/management/remove_validator.rs:47-93 | The condition lasts: no step of phase 1 takes an unvisited record's validator off the list |
| `MigrationBlocked.LegacyUnlistedNeverEnds` | programs/marinade-finance/src/instructions/management/remove_validator.rs:47-93 | A legacy state, for every stake size, from which no permitted run leaves phase 1: a cooling record whose validator was removed |
| `MigrationEnd.PhaseTwoAdvances` | programs/marinade-finance/src/instructions/crank/finalize_delinquent_upgrade.rs:24-71 | In phase 2, while the program is not paused, a finalize call always advances |
| `MigrationRuns.VisitAdvances` | programs/marinade-finance/src/instructions/crank/update.rs:274-298 | Phase 1: an update_active of an unvisited record lowers the number of unvisited ones by one, and phase 2 starts exactly when none is left |
| `MigrationRuns.CollectAdvances` | programs/marinade-finance/src/instructions/crank/update.rs:652-706 | Phase 1: so does an update_deactivated of an unvisited record |
| `MigrationRuns.FinalizeAdvances` | programs/marinade-finance/src/instructions/crank/finalize_delinquent_upgrade.rs:24-71 | Phase 2: a finalize call never fails, moves on by the given number of validators, and ends with the settled ledger when it reaches the last |
| `MigrationBreaks.CollectKeepsInvariantIff` | programs/marinade-finance/src/instructions/crank/update.rs:571-593 | Removing a deactivated record keeps the invariant if and only if: in phase 1 the record was not visited, in phase 2 its validator was already finalized or the record is empty; always once the migration is done |
| `MigrationBreaks.ForcedDeactivationBreaksMigration` | programs/marinade-finance/src/instructions/crank/update.rs:571-593 | Phase 1, for every stake size: a run from a legacy state (update, deactivation by somebody else, removal, finalize) that ends the migration with a record no update can ever visit and a wrong active total |
| `MigrationBreaks.ForcedDeactivationBlocksMigration` | programs/marinade-finance/src/instructions/crank/finalize_delinquent_upgrade.rs:33-65 | Phase 2, for every stake size: a run from a legacy state (update, deactivation by somebody else, removal) after which no run of any steps ends the migration |
| `MigrationBreaks.ExcludedRemovalBlocksMigration` | programs/marinade-finance/src/instructions/crank/finalize_delinquent_upgrade.rs:41-65 | After any excluded phase 2 removal no run of any steps, permitted or not, leaves phase 2 |
| `Migration.BrokenFinalizeFails` | programs/marinade-finance/src/instructions/crank/finalize_delinquent_upgrade.rs:41-65 | The next finalize call after an excluded phase 2 removal fails when it reaches the last validator |
| `MigrationRuns.RunDraws` | programs/marinade-finance/src/instructions/crank/update.rs:652-680 | Over any permitted run of phase 1, the step that hands over to phase 2 included, the delinquent balance ends as it was plus max(0, removed non-emergency stake - delayed cooling) plus max(0, removed emergency stake - emergency cooling) |
| `MigrationRuns.HandOver` | programs/marinade-finance/src/instructions/crank/update.rs:274-294 | When phase 1 ends, delinquent_balance_left is exactly that amount and no validator is visited |
| `MigrationRuns.RemovalOrderDoesNotMatter` | programs/marinade-finance/src/instructions/crank/update.rs:652-680 | Two runs of phase 1 that remove the same records in any order, hand-over included, end with the same cooling totals and the same delinquent balance |
| `Upgrade.ChunksCompose` | programs/marinade-finance/src/instructions/crank/finalize_delinquent_upgrade.rs:33-53 | Two finalize calls equal one over the sum of their sizes |
| `Upgrade.FullPass` | programs/marinade-finance/src/instructions/crank/finalize_delinquent_upgrade.rs:59-71 | Any size that reaches the last validator gives the same state |
| `Upgrade.DepositCommutes` | programs/marinade-finance/src/instructions/user/deposit_stake_account.rs:144-166 | A stake deposit before or after a finalize call leaves the same world, whether its validator was visited or not |
| `Upgrade.DepositsDoNotMatter` | programs/marinade-finance/src/instructions/user/deposit_stake_account.rs:144-166 | Any interleaving of finalize calls and stake deposits equals one finalize call over the sum of the sizes followed by the deposits |
| `Upgrade.ChunksDoNotMatter` | programs/marinade-finance/src/instructions/crank/finalize_delinquent_upgrade.rs:21-72 | Any sequence of finalize calls equals one over the sum of the sizes |
| `Price.UpdateDeactivatedControl` | programs/marinade-finance/src/instructions/crank/update.rs:595-697 | In all three phases lamports under control change, relative to the resynced state, by exactly the balance without rent minus the last recorded delegation |
| `PriceRuns.PriceNeverFalls` | programs/marinade-finance/src/state/mod.rs:213-251 | On a run with positive supply, no slash and no withdrawal whose burn is rounded down, the mSOL price (lamports backing the supply per mSOL) never falls |
| `PriceRuns.NextKeepsPriceIff` | programs/marinade-finance/src/instructions/user/withdraw_stake_account.rs:243-257 | From a solvent world with mSOL every step of any kind keeps the price if and only if it is not a withdrawal with a live treasury whose burn is rounded down |
| `Price.TreasuryWithdrawalKeepsPriceIff` | programs/marinade-finance/src/instructions/user/withdraw_stake_account.rs:243-257 | With positive backing V and supply S: if and only if split * S is a multiple of V, the split being a function of the state before the call and the mSOL handed in |
| `Rounding.RoundedBurnLowersPrice` | programs/marinade-finance/src/instructions/user/withdraw_stake_account.rs:243-257 | An input from a solvent world where the burn is rounded down, the price falls, and the pool is worth a lamport less |
| `PriceRuns.PriceNeverFallsFromInitialize` | programs/marinade-finance/src/state/mod.rs:213-251 | The same from any moment of any such run from initialize on |
| `PriceRuns.PriceLossIsBounded` | programs/marinade-finance/src/instructions/user/withdraw_stake_account.rs:243-285 | With withdrawals of every kind: over any run with positive supply and no slash the price keeps at least the product of (S' - 1) / S' over the withdrawals with a live treasury, S' the supply each leaves |
| `PriceRuns.PriceLossIsBoundedFromInitialize` | programs/marinade-finance/src/state/mod.rs:213-251 | The same from any moment of any such run from initialize on |
| `Price.WithdrawStakeAccountTolerance` | programs/marinade-finance/src/instructions/user/withdraw_stake_account.rs:243-257 | With a live treasury the price loses less than one mSOL atom's worth: V*S' - V'*S < V |
| `Price.NeverSaturates` | programs/marinade-finance/src/instructions/user/withdraw_stake_account.rs:247-250 | The mSOL worth of the split is at most the mSOL handed in: the saturating subtraction is exact |
| `Price.WithdrawStakeAccountKeepsPrice` | programs/marinade-finance/src/instructions/user/withdraw_stake_account.rs:251-285 | Without a treasury everything is burned and the price does not fall |
| `Price.DepositKeepsPrice` | programs/marinade-finance/src/instructions/user/deposit.rs:120-223 | Pool-filled, minted or mixed, a deposit does not lower the price |
| `Price.DepositStakeAccountKeepsPrice` | programs/marinade-finance/src/instructions/user/deposit_stake_account.rs:275-303 | Nor does a stake deposit (`Minting.DepositStakeAccountBuys` says how much is minted) |
| `Price.OrderUnstakeKeepsPrice` | programs/marinade-finance/src/instructions/delayed_unstake/order_unstake.rs:57-92 | Burning mSOL for a ticket does not lower the price, and keeps tickets covered |
| `Price.CreditExtraKeepsPrice` | programs/marinade-finance/src/instructions/crank/update.rs:362-376 | Fees minted after extra lamports are credited do not lower the price |
| `Price.FeeBeforeCredit` | programs/marinade-finance/src/instructions/crank/update.rs:386-407 | Fees minted at the old price before rewards are credited do not lower it |
| `Price.UpdateActiveKeepsPrice` | programs/marinade-finance/src/instructions/crank/update.rs:141-198 | An update that is not a slash, resync with donations and burnt tokens included, does not lower the price |
| `Price.UpdateDeactivatedKeepsPrice` | programs/marinade-finance/src/instructions/crank/update.rs:595-703 | Neither does the removal of a record whose account holds at least the recorded stake |
| `StoredPrice.UpdateActiveStoresPrice` | programs/marinade-finance/src/instructions/crank/update.rs:251-262 | On the world update_active leaves, with supply S > 0 and lamports V backing it: msolPrice * S <= 2^32 * V < (msolPrice + 1) * S; the denominator itself without supply |
| `StoredPrice.UpdateDeactivatedStoresPrice` | programs/marinade-finance/src/instructions/crank/update.rs:695-703 | The same on the world update_deactivated leaves, with the record gone |
| `StoredPrice.OthersLeavePrice` | programs/marinade-finance/src/state/mod.rs:62-66 | No other instruction or chain event touches the stored price |
| `StoredPrice.StoredPriceIsHonest` | programs/marinade-finance/src/state/mod.rs:62-66 | Once it is at most what one mSOL is worth, as any update leaves it, it stays so on every run with positive supply, without slash or withdrawal whose burn is rounded down, however stale it grows |
| `Rewards.UpdateActiveEarns` | programs/marinade-finance/src/instructions/crank/update.rs:343-425 | What is above rent and delegation moves to the reserve, control follows the delegation, and exactly the two fees are minted: the floored fee part of the extra lamports at the price with them counted, that of the rewards at the price before they count; none on a slash or without a treasury |
| `Rewards.UpdateDeactivatedEarns` | programs/marinade-finance/src/instructions/crank/update.rs:595-697 | The account is closed, all but the rent moves to the reserve, and exactly the fee on what exceeds the recorded delegation is minted, at the price before |
| `Minting.DepositBuys` | programs/marinade-finance/src/instructions/user/deposit.rs:102-223 | The user's mSOL is the floored worth of the deposit less its fee at the price before; the pool sells min(order, leg) of it, for the whole deposit or for the floored worth of its leg; the other lamports reach both reserves and the other mSOL both supplies |
| `Minting.DepositStakeAccountBuys` | programs/marinade-finance/src/instructions/user/deposit_stake_account.rs:275-305 | With net the stake less its fee, V and S of the world before: minted * V <= net * S < (minted + 1) * V, minted == net without supply or backing; an activated, unlocked account with nothing above rent and delegation becomes the program's |
| `Payouts.OrderUnstakePromises` | programs/marinade-finance/src/instructions/delayed_unstake/order_unstake.rs:57-107 | The ticket is the floored worth of the mSOL less the floored delayed unstake fee on it, at least the minimum withdrawal; all the mSOL is burned; the ticket's epoch is the next one exactly after a stake-delta action of this one |
| `Payouts.ClaimPays` | programs/marinade-finance/src/instructions/delayed_unstake/claim.rs:99-137 | What leaves the real reserve, the virtual reserve and the ticket total is exactly the ticket's lamports; the ticket is gone and nothing else changes |
| `Payouts.ClaimIff` | programs/marinade-finance/src/instructions/delayed_unstake/claim.rs:66-117 | While the books hold a claim succeeds if and only if the program is not paused and the ticket is due, not empty, and within the virtual reserve |
| `Payouts.NextUnbooked` | programs/marinade-finance/src/state/mod.rs:280-286 | Real reserve minus virtual reserve minus rent changes in chain events, by what they send, and in the two updates, to zero, and in no other step |
| `Payouts.ReserveIsAccountedFor` | programs/marinade-finance/src/instructions/crank/update.rs:148-171 | From initialize on, on every run: the real reserve is the virtual one, the rent, and what the rest of the chain has sent since the last update |
| `Payouts.WithdrawDelivers` | programs/marinade-finance/src/instructions/user/withdraw_stake_account.rs:195-346 | The split is the floored worth of the mSOL less the floored fee, and becomes a stake account with the same delegation that the program has no authority over; record, account and total lose it; burned is all the mSOL, or with a treasury the floored cost of the split |
| `Swaps.LiquidUnstakeCharges` | programs/marinade-finance/src/instructions/liq_pool/liquid_unstake.rs:76-148 | With left = SOL above rent minus the worth of the mSOL: the rate is max - (max - min) * left / target with the discount floored, min from the target on, max when nothing is left; the user is paid the worth of the mSOL less the floored fee at that rate; the pool keeps the mSOL less the treasury's floored part of the fee |
| `Swaps.AddLiquidityBuys` | programs/marinade-finance/src/instructions/liq_pool/add_liquidity.rs:93-151 | The shares are the floored part of the LP supply the deposit is of the floored pool value, the lamports themselves for the first; both LP supplies agree and the cap holds afterwards |
| `Swaps.RemoveLiquidityPays` | programs/marinade-finance/src/instructions/liq_pool/remove_liquidity.rs:80-165 | Both legs pay the floored part the tokens are of the known LP supply; the tokens leave both supplies |
| `Conservation.InstructionConserves` | programs/marinade-finance/src/lib.rs:48-280 | Stake accounts, reserve and SOL leg together change by exactly what comes in (deposits, rent of opened stake accounts) and what is paid out (tickets, swaps, liquidity, rent of closed accounts that was not activated), in every instruction |
| `Conservation.RunConserves` | programs/marinade-finance/src/lib.rs:48-280 | So on every run, with what the rest of the chain sends and takes |
| `Gates.PauseStopsAll` | programs/marinade-finance/src/instructions/admin/emergency_pause.rs:20-28 | While paused no instruction but the administrators' settings succeeds, whatever its arguments |
| `Gates.PausedRunKeepsState` | programs/marinade-finance/src/instructions/admin/emergency_pause.rs:20-28 | So a run without settings leaves the state of a paused program as it is |
| `Gates.DepositWithinCap` | programs/marinade-finance/src/state/mod.rs:219-227 | A deposit that raises the lamports under control leaves at most the staking cap of them |
| `Gates.DepositStakeWithinCap` | programs/marinade-finance/src/state/mod.rs:219-227 | So does a stake deposit |
| `Gates.UnknownMintClosesStaking` | programs/marinade-finance/src/instructions/crank/update.rs:160-171 | An update that finds more mSOL minted than recorded sets the cap to zero; any other update leaves it |
| `Successes.DepositIff` | programs/marinade-finance/src/instructions/user/deposit.rs:89-223 | While the books hold and fields fit, a deposit succeeds if and only if it is within means, minimum and pause, its mSOL fits, and what reaches the reserve is within the cap: the pool's part never costs more than the deposit |
| `Successes.OrderUnstakeIff` | programs/marinade-finance/src/instructions/delayed_unstake/order_unstake.rs:42-124 | With covered tickets, success if and only if not paused, the mSOL exists, and the ticket is fresh and not too small: no total overflows |
| `Successes.LiquidUnstakeIff` | programs/marinade-finance/src/instructions/liq_pool/liquid_unstake.rs:60-148 | For a valid pool, success if and only if not paused, the mSOL exists, and its worth less the fee is in the pool and not too small: neither fee nor cut ever exceeds the mSOL |
| `Successes.DepositStakeAccountIff` | programs/marinade-finance/src/instructions/user/deposit_stake_account.rs:76-282 | In every migration phase, success if and only if not paused, the account can be handed over, its validator is at the index, list and fields have room, and the stake is within the cap: the migration counters never overflow first |
| `Successes.AddLiquidityIff` | programs/marinade-finance/src/instructions/liq_pool/add_liquidity.rs:65-151 | Success if and only if not paused, within means, minimum and cap, no unknown LP tokens, and value and shares fit |
| `Successes.RemoveLiquidityIff` | programs/marinade-finance/src/instructions/liq_pool/remove_liquidity.rs:68-165 | For existing tokens, success if and only if not paused and the payout is not too small: neither leg ever runs short |
| `Successes.MergeStakesIff` | programs/marinade-finance/src/instructions/crank/merge_stakes.rs:70-228 | Success if and only if not paused nor migrating, both stakes are live and up to date with the validator, the destination is canonical, the source holds nothing extra, and at most its rent was activated: no total overflows |
| `Successes.SetValidatorScoreIff` | programs/marinade-finance/src/instructions/management/set_validator_score.rs:27-57 | Success if and only if not paused, the record is at the index, and the new total fits: the old score can always be taken off |
| `Successes.RemoveValidatorIff` | programs/marinade-finance/src/instructions/management/remove_validator.rs:47-93 | Success if and only if not paused nor migrating, the record is at the index and has no balance: its flag and its score are always there |
| `Successes.AddValidatorIff` | programs/marinade-finance/src/instructions/management/add_validator.rs:50-76 | Success if and only if not paused nor migrating, the list has room, the total fits, and no listed validator has the vote |
| `RoundTrips.DepositRoundTrip` | programs/marinade-finance/src/instructions/user/deposit.rs:120-223 | With mSOL in existence, depositing L lamports and ordering the unstake of all mSOL received gives a ticket of at most L, despite the price shift the deposit causes |
| `RoundTrips.FirstDepositTakesAll` | programs/marinade-finance/src/calc.rs:24-30 | Without supply the first depositor's mSOL is the whole supply and worth everything under control that is not owed |
| `RoundTrips.FirstDepositRoundTrip` | programs/marinade-finance/src/calc.rs:24-30 | Without supply and with an empty leg the ticket exceeds the deposit if and only if mSOL is minted at all and the virtual lamports before exceed the fee of the ticket order |
| `FirstDeposits.FirstDepositorTakesResidue` | programs/marinade-finance/src/calc.rs:24-30 | Without fees any residue r and any deposit L give a ticket of L + r: a run from a solvent world |
| `FirstDeposits.NextDepositorTakesFee` | programs/marinade-finance/src/calc.rs:24-30 | A run from initialize that leaves the residue: the first user unstakes all with a fee, and the fee comes back to the next depositor |
| `FirstDeposits.NextDepositorExample` | programs/marinade-finance/src/calc.rs:24-30 | For instance a deposit of 1_000_000_000 whose ticket exceeds it |
| `RoundTrips.LiquidityRoundTrip` | programs/marinade-finance/src/instructions/liq_pool/add_liquidity.rs:102-114 | Adding L lamports and removing exactly the shares received returns SOL plus floored mSOL value of at most L, although shares are priced by a floored pool value |
| `RoundTrips.LiquidUnstakeKeepsPool` | programs/marinade-finance/src/instructions/liq_pool/liquid_unstake.rs:80-148 | The floored pool value never falls in a liquid unstake |
| `RoundTrips.DepositKeepsPool` | programs/marinade-finance/src/instructions/user/deposit.rs:126-175 | Nor when a deposit buys mSOL out of the pool |
| `RoundTrips.AddLiquidityKeepsShares` | programs/marinade-finance/src/instructions/liq_pool/add_liquidity.rs:93-151 | Adding liquidity never lowers the pool value per LP token |
| `RoundTrips.RemoveLiquidityKeepsLegs` | programs/marinade-finance/src/instructions/liq_pool/remove_liquidity.rs:92-165 | Removing liquidity never lowers what is left of either leg per LP token |
| `PriceRuns.RemovalAlwaysKeepsLegs` | programs/marinade-finance/src/instructions/liq_pool/remove_liquidity.rs:80-165 | From initialize on the program knows of every LP token, so the same holds on every run |
| `PriceRuns.PoolNeverShrinks` | Docs/Backend-Design.md:99-103 | As long as nobody removes liquidity the pool value cannot decrease on any run without slash or a treasury withdrawal whose burn is rounded down |
| `Slashing.SlashShrinksPool` | Docs/Backend-Design.md:99-103 | The documented promise fails on a slash: from a solvent world a permitted slash and the update that records it take the pool value down with it |
| `FeeCurve.FeeWithinBounds` | programs/marinade-finance/src/state/liq_pool.rs:66-77 | For validated parameters the fee never panics, lies between minimum and maximum, and takes its ends at the target and at zero |
| `FeeCurve.FeeFallsWithLiquidity` | programs/marinade-finance/src/state/liq_pool.rs:66-77 | More liquidity never costs a higher fee |
| `Scheduler.TargetsSum` | programs/marinade-finance/src/state/validator_system.rs:264-277 | Validator targets add up to at most the total target and miss it by fewer than the number of positively scored validators |
| `Scheduler.UnstakeHasVictim` | programs/marinade-finance/src/instructions/crank/deactivate_stake.rs:125-166 | With active stake and a negative delta some validator is over target and holds a positive Active record |
| `Scheduler.StakeHasDestination` | programs/marinade-finance/src/instructions/crank/stake_reserve.rs:142-184 | With a positive delta of at least the number of scored validators some validator is under target |
| `Scheduler.StakeReserveBounds` | programs/marinade-finance/src/instructions/crank/stake_reserve.rs:126-218 | A staking call moves between a minimum stake and the delta; it leaves a delta of zero, or at least a minimum stake and the validator exactly at its target, which it never exceeds by a minimum stake |
| `Staking.DeltaSettlesTickets` | programs/marinade-finance/src/state/mod.rs:254-278 | There is something to stake if and only if reserve above rent and delayed cooling exceed the tickets, and then exactly the difference; something to unstake if and only if emergency cooling does not close the gap either, and then exactly what is missing; emergency cooling is never staked |
| `Staking.StakeReserveFills` | programs/marinade-finance/src/instructions/crank/stake_reserve.rs:184-206 | A call that stakes gives the validator exactly what it lacks, or the whole delta when that is less or leaves less than a minimum stake: it ends at its target or the delta is zero |
| `Staking.StakeReserveStakesIff` | programs/marinade-finance/src/instructions/crank/stake_reserve.rs:96-218 | A call stakes if and only if: not paused, no migration, fresh account, a positive delta, in the window, the validator listed and below its target, not served in this epoch or an extra run left, no less than a minimum stake to give, and room in reserve, list and widths |
| `Staking.StakeReserveSucceedsIff` | programs/marinade-finance/src/instructions/crank/stake_reserve.rs:96-218 | A call fails if and only if it may not run, the validator is not at the index, it is past the early return but not in the window, or there is no room: none of the other early returns is an error |
| `Staking.StakeReserveOpens` | programs/marinade-finance/src/instructions/crank/stake_reserve.rs:221-322 | The whole world such a call leaves: record, live account, both reserves, the validator marked as served, the extra run used exactly when it had been served |
| `Staking.NothingBeforeWindow` | programs/marinade-finance/src/instructions/crank/stake_reserve.rs:172-178 | Before the last slots of an epoch no stake-delta instruction changes anything |
| `Scheduler.DeactivateStakeBounds` | programs/marinade-finance/src/instructions/crank/deactivate_stake.rs:148-293 | An unstaking call takes less than min(delta, excess) plus two minimum stakes; a split takes exactly min(delta, excess) and leaves at least two minimum stakes |
| `Scheduler.DeactivateStakeDecreases` | programs/marinade-finance/src/instructions/crank/deactivate_stake.rs:181-291 | Every effective call lowers Active records plus validators not split this epoch by one |
| `Scheduler.UnstakeTerminates` | programs/marinade-finance/src/instructions/crank/deactivate_stake.rs:181-291 | So a run of effective calls within an epoch is no longer than that number |
| `UnstakeProgress.NothingLeftIff` | programs/marinade-finance/src/instructions/crank/deactivate_stake.rs:119-293 | With a negative delta in the window and every Active record up to date, some record is over target, and no call unstakes anything if and only if every such record is too big to go whole and its validator was split this epoch |
| `Outcomes.DeactivateStakeLeaves` | programs/marinade-finance/src/instructions/crank/deactivate_stake.rs:181-347 | The whole world an effective call leaves: the record and its account cooling whole with the validator's delta epoch unchanged, or a part in a record and an account of its own and the validator marked |
| `Outcomes.PartialUnstakeLeaves` | programs/marinade-finance/src/instructions/management/partial_unstake.rs:137-287 | The same for the manager's unstake and the emergency bucket, which never marks the validator |
| `Outcomes.EmergencyUnstakeLeaves` | programs/marinade-finance/src/instructions/management/emergency_unstake.rs:51-140 | The whole record and its account cool in the emergency bucket, of a validator without score |
| `Outcomes.PartialUnstakeTakes` | programs/marinade-finance/src/instructions/management/partial_unstake.rs:129-158 | Exactly min(desired, excess) is moved, the whole record when less than a minimum stake would be left, nothing when the excess is within a minimum stake |
| `ExtraRuns.ExtraRunUsedInVainIff` | programs/marinade-finance/src/instructions/crank/stake_reserve.rs:155-218 | A successful call uses up an extra run without staking if and only if its guards hold, the validator was served this epoch, an extra run is left, and the target is reached or the amount is below the minimum |
| `ExtraRuns.ExtraRunLost` | programs/marinade-finance/src/instructions/crank/stake_reserve.rs:155-218 | An input from a solvent world that loses the last extra run that way |
| `Books.BooksAlwaysHold` | programs/marinade-finance/src/instructions/crank/update.rs:148-176 | From initialize on, on every run: real reserve covers virtual reserve plus rent, no mSOL exists beyond the recorded supply, and ticket balance and count are the sum and number of live tickets |
| `Solvency.TicketsAreAlwaysCovered` | programs/marinade-finance/src/state/mod.rs:229-233 | From initialize on, without slashing, live tickets never exceed lamports under control, so the saturating subtraction is exact, and no stake that is not cooling is below the smallest minimum stake in force |
| `Solvency.RunSolvent` | programs/marinade-finance/src/instructions/delayed_unstake/claim.rs:89-139 | The same as an invariant of any run that starts solvent, with every record backed by its account |
| `Reconcile.ClosingAssertionHolds` | programs/marinade-finance/src/instructions/crank/update.rs:443-446 | While the books hold, the closing assertion of update_active never fires |
| `Reconcile.ImpossibleBranches` | programs/marinade-finance/src/instructions/crank/update.rs:151-176 | On every run from initialize neither impossible branch of begin is taken, and update_active fails neither its closing assertion nor the progression check |
| `Reconcile.UpdateActiveRepeats` | programs/marinade-finance/src/instructions/crank/update.rs:307-466 | Repeating update_active on an unchanged chain changes nothing at all |
| `TicketRuns.TicketWaitsTwoEpochs` | programs/marinade-finance/src/instructions/delayed_unstake/order_unstake.rs:94-107 | A ticket ordered after a stake-delta action of epoch e cannot be claimed before e+2, whatever runs in between |
| `TicketRuns.TicketWaitsOneEpoch` | programs/marinade-finance/src/instructions/delayed_unstake/claim.rs:52-86 | Any other ticket waits an epoch, and half an hour into the first one it is due |
| `Movement.MovedIsRecorded` | programs/marinade-finance/src/state/mod.rs:292-305 | On every run the recorded stake_moved of an epoch is the sum of its emergency and partial unstakes |
| `Movement.MovementIsCapped` | programs/marinade-finance/src/state/mod.rs:292-305 | At each success everything moved in the epoch is within the cap on lamports under control, up to 100% the exact floored fraction |
| `Frames.InstructionLeaves` | programs/marinade-finance/src/state/mod.rs:62-111 | Clock, settings, delta mark, movement counter, tickets and pool legs change only in the instructions meant to change them |
| `Reshaping.MergeReplacesPair` | programs/marinade-finance/src/instructions/crank/merge_stakes.rs:174-228 | The records afterwards are those before with the pair replaced by the merged record, as multisets, and the total grows by the extra delegation |
| `Reshaping.CanonicalReplacesInPlace` | programs/marinade-finance/src/instructions/crank/create_canonical_stake.rs:189-204 | Push and swap-remove equal a replacement in place at the source index; nothing else of the ledger changes |
| `Outcomes.MergeStakesJoins` | programs/marinade-finance/src/instructions/crank/merge_stakes.rs:112-228 | On the chain the source is gone and the canonical destination holds both delegations; of the source's rent what was not activated is paid out; no other account changes |
| `Outcomes.CanonicalMovesAccount` | programs/marinade-finance/src/instructions/crank/create_canonical_stake.rs:110-204 | The stake account moves to the canonical address with everything it holds, and nothing else of the chain changes |
| `Outcomes.AddValidatorLists` | programs/marinade-finance/src/state/validator_system.rs:172-188 | The record at the end of the list has the vote and score asked for, no balance, and was never served; total and flag follow |
| `Outcomes.RemoveValidatorUnlists` | programs/marinade-finance/src/state/validator_system.rs:209-228 | Exactly the record asked for leaves the list, as multisets, and it had no balance; total and flag follow |
| `Outcomes.SetValidatorScoreSets` | programs/marinade-finance/src/instructions/management/set_validator_score.rs:27-57 | The record ends with the score asked for, the total follows, and nothing else changes |
| `RecordList.List.Push` | programs/marinade-finance/src/state/list.rs:103-114 | Appends to the sequence the bytes stand for, exactly when the account has room; no byte outside the new slot is written |
| `RecordList.List.Get` | programs/marinade-finance/src/state/list.rs:84-91 | Reads the record of the sequence, an error exactly past the count: stale tail bytes are never observed |
| `RecordList.List.Set` | programs/marinade-finance/src/state/list.rs:93-101 | Replaces one record; other slots and all bytes outside the slot stay |
| `RecordList.List.Remove` | programs/marinade-finance/src/state/list.rs:116-132 | Swap-remove of the sequence; only the bytes of the removed slot change |
| `RecordList.List.Capacity` | programs/marinade-finance/src/state/list.rs:73-82 | The largest number of records that fit, errors on short and oversized accounts, records of no bytes included |
| `RecordList.List.Realloc` | programs/marinade-finance/src/instructions/admin/realloc_stake_list.rs:37-49 | The sequence survives reallocation, refused below the count |
| `Codecs.StakeRoundTrip` | programs/marinade-finance/src/state/stake_system.rs:33-45 | A serialized stake record followed by anything reads back as itself |
| `Codecs.ValidatorRoundTrip` | programs/marinade-finance/src/state/validator_system.rs:8-20 | A serialized validator record followed by anything reads back as itself |
| `Codecs.CodecsAreLawful` | programs/marinade-finance/src/state/list.rs:84-101 | Both record types meet what the list asks of its codec |
| `Onchain.Program.constructor` | programs/marinade-finance/src/instructions/admin/initialize.rs:112-194 | The fields initialize sets, from the accounts it demands, and that the program starts valid |
| `Onchain.Program.Execute` | programs/marinade-finance/src/lib.rs:48-280 | One transaction: the new state is the step of the runs all properties are about, a failed instruction leaves nothing behind, and the ledger invariant and the books stay valid: always once the migration is done, before that under the exact condition on removals |
| `Onchain.Program.OnStakeMoved` | programs/marinade-finance/src/state/mod.rs:292-305 | Updates the epoch counter and fails exactly above the cap |
| `Onchain.Program.Deposit` | programs/marinade-finance/src/instructions/user/deposit.rs:89-243 | Pool mSOL is sold first at the deposit's own price, the remaining lamports go to the reserve and only the unfilled part of the order is minted; fails exactly on pause, too little, missing funds, unregistered mint, cap or overflow |
| `Onchain.Program.DepositStakeAccount` | programs/marinade-finance/src/instructions/user/deposit_stake_account.rs:75-324 | The stake is recorded Active with its validator, the migration counters follow, mSOL is minted at the price before the total grows; fails exactly when the specification does |
| `Onchain.Program.MaintainUpgrade` | programs/marinade-finance/src/instructions/user/deposit_stake_account.rs:143-167 | The three-way upkeep of the migration's counters |
| `Onchain.Program.WithdrawStakeAccount` | programs/marinade-finance/src/instructions/user/withdraw_stake_account.rs:104-375 | The split and the burn are computed at the price before, the record, validator and total lose the split; fails exactly when the specification does |
| `Onchain.Program.OrderUnstake` | programs/marinade-finance/src/instructions/delayed_unstake/order_unstake.rs:42-124 | Ticket totals, supply and ticket epoch after the call, the epoch one later after a stake-delta action; fails exactly when the specification does |
| `Onchain.Program.CheckTicket` | programs/marinade-finance/src/instructions/delayed_unstake/claim.rs:52-86 | Success if and only if the ticket is unused, due, and past its half hour in the first epoch |
| `Onchain.Program.Claim` | programs/marinade-finance/src/instructions/delayed_unstake/claim.rs:89-152 | A due ticket is paid from the real reserve and retired from both totals; fails exactly when it is not due, unfunded or unknown |
| `Onchain.Program.StakeReserve` | programs/marinade-finance/src/instructions/crank/stake_reserve.rs:96-322 | Which of the four early returns is taken, what each leaves (an extra run may be used up), and the record, balances and account of a stake; fails exactly when the specification does |
| `Onchain.Program.DeactivateStake` | programs/marinade-finance/src/instructions/crank/deactivate_stake.rs:86-347 | Whole, split or nothing by the source's arithmetic, and every total afterwards; fails exactly when the specification does |
| `Onchain.Program.EmergencyUnstake` | programs/marinade-finance/src/instructions/management/emergency_unstake.rs:51-140 | The whole record cools down in the emergency bucket and counts as moved; fails exactly when a guard or the cap does |
| `Onchain.Program.PartialUnstake` | programs/marinade-finance/src/instructions/management/partial_unstake.rs:83-287 | Whole, split or nothing by the source's arithmetic, counted as moved; fails exactly when the specification does |
| `Onchain.Program.MergeStakes` | programs/marinade-finance/src/instructions/crank/merge_stakes.rs:64-270 | One record and one account instead of two, the extra delegation counted, the rest of the rent paid out; fails exactly when the specification does |
| `Onchain.Program.CreateCanonicalStake` | programs/marinade-finance/src/instructions/crank/create_canonical_stake.rs:66-224 | The stake moves to the canonical account and its record is pushed and swap-removed; fails exactly when the specification does |
| `Onchain.Program.Begin` | programs/marinade-finance/src/instructions/crank/update.rs:141-198 | Resyncs reserve and supply, closes staking on an unregistered mint, looks both records up |
| `Onchain.Program.UpdateActive` | programs/marinade-finance/src/instructions/crank/update.rs:307-466 | Resync, first visit, extra lamports, fees, rewards or slash, price, closing assertion and progression in the source's order give the specified world; fails exactly when the specification does |
| `Onchain.Program.UpdateDeactivated` | programs/marinade-finance/src/instructions/crank/update.rs:548-727 | Resync, emergency procedure, fee, payout, draw, price, removal and progression in the source's order give the specified world; fails exactly when the specification does |
| `Onchain.Program.VisitValidators` | programs/marinade-finance/src/instructions/crank/finalize_delinquent_upgrade.rs:24-57 | The loop settles exactly the range from the first unvisited validator, at most the given number, and fails exactly when a confirmed balance exceeds the balance or the gaps exceed what is left |
| `Onchain.Program.FinalizeUpgrade` | programs/marinade-finance/src/instructions/crank/finalize_delinquent_upgrade.rs:21-72 | After the loop the migration is done exactly at the last validator and then only with nothing left; otherwise it stands at the next validator |
| `Onchain.Program.AddValidator` | programs/marinade-finance/src/state/validator_system.rs:172-188 | A zero-balance record that never saw a stake delta is pushed, the score total and the flag follow; fails exactly on pause, migration, flag, capacity or score overflow |
| `Onchain.Program.RemoveValidator` | programs/marinade-finance/src/state/validator_system.rs:209-228 | The record is swap-removed, the score total and the flag follow; fails exactly on pause, migration, wrong record or remaining balance |
| `Onchain.Program.SetValidatorScore` | programs/marinade-finance/src/instructions/management/set_validator_score.rs:27-57 | The score and the total change together; fails exactly on pause, wrong record or overflow |
| `Onchain.Program.LiquidUnstake` | programs/marinade-finance/src/instructions/liq_pool/liquid_unstake.rs:60-185 | The fee by the liquidity left afterwards, the SOL paid, the mSOL kept by the pool; fails exactly when the specification does |
| `Onchain.Program.AddLiquidity` | programs/marinade-finance/src/instructions/liq_pool/add_liquidity.rs:65-166 | LP supply resynced, SOL added, shares minted at the value before; fails exactly when the specification does |
| `Onchain.Program.RemoveLiquidity` | programs/marinade-finance/src/instructions/liq_pool/remove_liquidity.rs:68-180 | LP supply resynced unless unregistered tokens exist, both legs paid out in proportion, tokens burned; fails exactly when the specification does |
| `Calc.FeeIsExact` | programs/marinade-finance/src/state/fee.rs:43-46 | Up to 100% the fee is the exact floored fraction and the cast to u64 loses nothing |

## Left out

- Accounts, signers and addresses: who signs, seeds and bumps, rent payers, token accounts of users and treasury.
  Addresses are abstract keys; a canonical stake address is an injective function of the vote. Whether the
  treasury can receive mSOL and how much SOL a depositor owns are parameters.
- The stake, token and system programs: their calls are effects on the modelled chain (split, deactivate, merge,
  close, mint, burn, transfer); how much stake a merge activates is a parameter. Limits of chain balances to u64
  are not modelled, those of the program's own fields are.
- Balances of users, of the treasury and of rent payers: what leaves the program's accounts and supplies is stated,
  not whom it reaches.
- Lockups and authorities of a deposited stake account are two booleans.
- change_authority, config_lp, config_marinade, config_validator_system, pause and resume are one settings step
  with the bounds their code checks.
- Events, log messages, error codes, the warnings of begin, fee parsing and formatting.
- The ledger's lists are sequences. That the byte list behaves as such a sequence is proved separately
  (`RecordList`), with the same swap-remove; the program methods do not read and write bytes.
- A claimed ticket disappears from the map of tickets; the account with a zero amount is not kept.
- Onchain.Program.UpdateActive: a record is written back when it changes, not once at the end; nothing in between
  reads it.
- Onchain.Program.Configure: one step for all settings; not the individual setters.
- Price.UpdateActiveKeepsPrice: has no statement for a slash, which lowers the price by design.
- LedgerRuns.RunOk: assumes that before the migration is done update_deactivated is not called where it would break
  it; for each call the condition is exact in every phase (`MigrationBreaks.CollectKeepsInvariantIff`).
- MigrationEnd.MigrationEnds: counts the calls that advance the migration; that somebody makes them is up to the bots.
  When they can be made is the subject of `MigrationCompletes.PhaseOneAdvances` and `MigrationEnd.PhaseTwoAdvances`.
- MigrationCompletes.MigrationCanEndIff: assumes that the program is not paused and that nothing overflows u64, with
  the accounts still to be visited counted in; the run it finds mints no fees. A phase 1 with no record at all needs
  a stake deposit first and is left out.
- Totality.DeactivateStakeTotal: success is stated for a stake account that is not deactivated and holds its
  delegation, with room in the stake list and an unused split account, which the calls into the stake program need.
- PriceRuns.PriceNeverFalls: withdrawals with a live treasury whose burn is rounded down are excluded, for each of
  them lowers the price (`PriceRuns.NextKeepsPriceIff`); runs with them are the subject of
  `PriceRuns.PriceLossIsBounded`.
- PriceRuns.PriceNeverFallsFromInitialize: the same exclusion; see `PriceRuns.PriceLossIsBoundedFromInitialize`.
- PriceRuns.PoolNeverShrinks: promises nothing after a slash, which lowers the value of the pool's mSOL
  (`Slashing.SlashShrinksPool`), or a withdrawal with a live treasury whose burn is rounded down, which can as well
  (`Rounding.RoundedBurnLowersPrice`); the documented promise does not mention them.
- realloc of the account itself is a new byte array; growth limits of the runtime are not modelled.
