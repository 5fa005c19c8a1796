/** The program as it runs: each instruction updates the state and the accounts passed along, one
    step after the other. Every method is proved to leave exactly what its specification says and to
    fail exactly when the specification does; `Execute` rolls a failed instruction back, as the
    runtime does. */
module Onchain {
  import opened Base
  import opened Calc
  import opened Model
  import opened Runs
  import I = Instructions
  import L = LedgerOps
  import Migration
  import LedgerSafety
  import LedgerRuns
  import Price
  import Books

  class Program {
    var state: State
    var chain: Chain

    function Snapshot(): World
      reads this
    {
      World(state, chain)
    }

    /** What an instruction that ended with `r` comes to. */
    function Outcome(r: Option<()>): Option<World>
      reads this
    {
      if r.Some? then Some(Snapshot()) else None
    }

    /** What holds between transactions: every total is the sum it stands for, as far as the migration
        has come, and the program's own books agree with the chain. */
    ghost predicate Valid()
      reads this
    {
      && LedgerSafety.WorldOk(Snapshot())
      && Price.Covered(Snapshot()) && Books.TicketsOk(Snapshot()) && Books.LpOk(Snapshot())
    }

    // ---------- initialize ----------

    constructor (rent: nat, rewardFee: nat, minStake: nat, slotsForStakeDelta: nat, pool: LiqPool, chain: Chain)
      requires rewardFee <= 1000 && minStake >= 10_000_000 && slotsForStakeDelta >= 3000
      requires ValidPool(pool) && pool.lpSupply == 0 && pool.liquidityCap == U64_MAX
      requires chain.reserveLamports == rent && chain.solLeg == rent
      requires chain.msolMinted == 0 && chain.msolLeg == 0 && chain.lpMinted == 0
      requires chain.tickets == map[] && chain.flags == {}
      ensures Initialized(Snapshot()) && Valid()
      ensures state.cfg.rent == rent && state.cfg.rewardFee == rewardFee && state.cfg.minStake == minStake
      ensures state.msolPrice == PRICE_DENOMINATOR && state.stakingCap == U64_MAX && !state.cfg.paused
      ensures state.pool == pool && this.chain == chain
    {
      var cfg := Config(false, rent, rewardFee, 1, 1, 0, 0, false, 0, 0, MAX_BASIS_POINTS, minStake, slotsForStakeDelta);
      var ledger := Ledger([], [], 0, 0, 0, 0, Done);
      state := State(cfg, ledger, 0, 0, PRICE_DENOMINATOR, 0, 0, U64_MAX, U64_MAX, 0, 0, 0, pool);
      this.chain := chain;
      new;
      LedgerRuns.LedgerAlwaysHolds(Snapshot(), []);
      Books.BooksAlwaysHold(Snapshot(), []);
    }

    // ---------- State's mutators ----------

    method OnTransferToReserve(amount: nat) returns (r: Option<()>)
      modifies this`state
      ensures r.Some? <==> old(state).reserve + amount <= U64_MAX
      ensures r.Some? ==> state == old(state).(reserve := old(state).reserve + amount)
    {
      var reserve :- Add64(state.reserve, amount);
      state := state.(reserve := reserve);
      return Some(());
    }

    method OnTransferFromReserve(amount: nat) returns (r: Option<()>)
      modifies this`state
      ensures r.Some? <==> amount <= old(state).reserve
      ensures r.Some? ==> state == old(state).(reserve := old(state).reserve - amount)
    {
      var reserve :- Sub(state.reserve, amount);
      state := state.(reserve := reserve);
      return Some(());
    }

    method OnMsolMint(amount: nat) returns (r: Option<()>)
      modifies this`state
      ensures r.Some? <==> old(state).msolSupply + amount <= U64_MAX
      ensures r.Some? ==> state == old(state).(msolSupply := old(state).msolSupply + amount)
    {
      var supply :- Add64(state.msolSupply, amount);
      state := state.(msolSupply := supply);
      return Some(());
    }

    method OnMsolBurn(amount: nat) returns (r: Option<()>)
      modifies this`state
      ensures r.Some? <==> amount <= old(state).msolSupply
      ensures r.Some? ==> state == old(state).(msolSupply := old(state).msolSupply - amount)
    {
      var supply :- Sub(state.msolSupply, amount);
      state := state.(msolSupply := supply);
      return Some(());
    }

    /** The epoch's counter of moved stake, against its cap. */
    method OnStakeMoved(amount: nat) returns (r: Option<()>)
      modifies this`state
      ensures (if r.Some? then Some(state) else None) == StakeMoved(old(state), amount, chain.clock.epoch)
    {
      if chain.clock.epoch != state.lastMoveEpoch {
        state := state.(lastMoveEpoch := chain.clock.epoch, stakeMoved := 0);
      }
      var moved :- Add64(state.stakeMoved, amount);
      state := state.(stakeMoved := moved);
      :- Need(ControlFits(state));
      :- Need(state.stakeMoved <= ApplyFee(state.cfg.maxStakeMoved, Control(state)));
      return Some(());
    }

    // ---------- stake_system and validator_system ----------

    method AddStake(account: Key, lamports: nat, emergency: bool, active: bool) returns (r: Option<()>)
      modifies this`state
      ensures r.Some? <==> |old(state).ledger.stakes| < chain.stakeCapacity
      ensures r.Some? ==>
                state == old(state).(ledger := old(state).ledger.(stakes := old(state).ledger.stakes
                  + [StakeRecord(account, lamports, chain.clock.epoch, emergency, if active then Active else Deactivating)]))
    {
      var record := StakeRecord(account, lamports, chain.clock.epoch, emergency, if active then Active else Deactivating);
      :- Need(|state.ledger.stakes| < chain.stakeCapacity);
      state := state.(ledger := state.ledger.(stakes := state.ledger.stakes + [record]));
      return Some(());
    }

    method SetStake(i: nat, record: StakeRecord)
      requires i < |state.ledger.stakes|
      modifies this`state
      ensures state == old(state).(ledger := old(state).ledger.(stakes := old(state).ledger.stakes[i := record]))
    {
      state := state.(ledger := state.ledger.(stakes := state.ledger.stakes[i := record]));
    }

    method RemoveStake(i: nat)
      requires i < |state.ledger.stakes|
      modifies this`state
      ensures state == old(state).(ledger := old(state).ledger.(stakes := SwapRemove(old(state).ledger.stakes, i)))
    {
      state := state.(ledger := state.ledger.(stakes := SwapRemove(state.ledger.stakes, i)));
    }

    method SetValidator(j: nat, record: ValidatorRecord)
      requires j < |state.ledger.validators|
      modifies this`state
      ensures state == old(state).(ledger := old(state).ledger.(validators := old(state).ledger.validators[j := record]))
    {
      state := state.(ledger := state.ledger.(validators := state.ledger.validators[j := record]));
    }

    method IncreaseTotalActive(amount: nat) returns (r: Option<()>)
      modifies this`state
      ensures r.Some? <==> old(state).ledger.totalActive + amount <= U64_MAX
      ensures r.Some? ==>
                var l := old(state).ledger; state == old(state).(ledger := l.(totalActive := l.totalActive + amount))
    {
      var total :- Add64(state.ledger.totalActive, amount);
      state := state.(ledger := state.ledger.(totalActive := total));
      return Some(());
    }

    method DecreaseTotalActive(amount: nat) returns (r: Option<()>)
      modifies this`state
      ensures r.Some? <==> amount <= old(state).ledger.totalActive
      ensures r.Some? ==>
                var l := old(state).ledger; state == old(state).(ledger := l.(totalActive := l.totalActive - amount))
    {
      var total :- Sub(state.ledger.totalActive, amount);
      state := state.(ledger := state.ledger.(totalActive := total));
      return Some(());
    }

    /** `amount` moves from the active totals to a cooling bucket; both records are written back. */
    method StartCooling(i: nat, stake: StakeRecord, j: nat, validator: ValidatorRecord, amount: nat, emergency: bool)
      returns (r: Option<()>)
      requires i < |state.ledger.stakes| && j < |state.ledger.validators|
      modifies this`state
      ensures r.Some? <==>
              && amount <= validator.balance && amount <= old(state).ledger.totalActive
              && L.Cool(old(state).ledger, amount, emergency).Some?
      ensures r.Some? ==>
                var l := L.Cool(old(state).ledger, amount, emergency).value;
                state == old(state).(ledger := l.(
                  stakes := l.stakes[i := stake],
                  validators := l.validators[j := validator.(balance := validator.balance - amount)],
                  totalActive := l.totalActive - amount))
    {
      var balance :- Sub(validator.balance, amount);
      var l := state.ledger;
      var total :- Sub(l.totalActive, amount);
      l := l.(totalActive := total);
      if emergency {
        var cooling :- Add64(l.emergencyCooling, amount);
        l := l.(emergencyCooling := cooling);
      } else {
        var cooling :- Add64(l.delayedCooling, amount);
        l := l.(delayedCooling := cooling);
      }
      state := state.(ledger := l);
      SetStake(i, stake);
      SetValidator(j, validator.(balance := balance));
      return Some(());
    }

    // ---------- users ----------

    method Deposit(lamports: nat, userFunds: nat) returns (r: Option<()>)
      modifies this
      ensures Outcome(r) == I.Deposit(old(Snapshot()), lamports, userFunds)
    {
      var cfg := state.cfg;
      :- Need(!cfg.paused && lamports >= cfg.minDeposit && userFunds >= lamports);
      :- Need(chain.msolMinted <= state.msolSupply);
      var fees := ApplyFeeCents(state.cfg.depositSolFee, lamports);
      var order :- MsolFromLamports(state, SaturatingSub(lamports, fees));
      var swapped := if order <= chain.msolLeg then order else chain.msolLeg;
      var solSwapped := 0;
      if swapped > 0 {
        if order == swapped {
          solSwapped := lamports;
        } else {
          solSwapped :- MsolToSol(state, swapped);
        }
        chain := chain.(msolLeg := chain.msolLeg - swapped, solLeg := chain.solLeg + solSwapped);
      }
      var deposited :- Sub(lamports, solSwapped);
      if deposited > 0 {
        :- Need(WithinStakingCap(state, deposited));
        chain := chain.(reserveLamports := chain.reserveLamports + deposited);
        var added := OnTransferToReserve(deposited);
        assert added.Some?;
      }
      var minted := order - swapped;
      if minted > 0 {
        chain := chain.(msolMinted := chain.msolMinted + minted);
        var _ :- OnMsolMint(minted);
      }
      return Some(());
    }

    /** Maintains the invariants of the migration when validator `j` gains a stake account. */
    method MaintainUpgrade(j: nat, validator: ValidatorRecord, amount: nat) returns (r: Option<ValidatorRecord>)
      modifies this`state
      ensures var after := L.UpgraderOnDeposit(old(state).ledger.upgrader, j, validator.upgraderBalance, amount);
              && (r.Some? <==> after.Some?)
              && (r.Some? ==> r.value == validator.(upgraderBalance := after.value.1)
                              && state == old(state).(ledger := old(state).ledger.(upgrader := after.value.0)))
    {
      match state.ledger.upgrader {
        case IteratingStakes(visited, active, delinquent) =>
          :- Need(visited + 1 <= U32_MAX);
          var active' :- Add64(active, amount);
          state := state.(ledger := state.ledger.(upgrader := IteratingStakes(visited + 1, active', delinquent)));
          var confirmed :- Add64(validator.upgraderBalance, amount);
          return Some(validator.(upgraderBalance := confirmed));
        case IteratingValidators(next, _) =>
          if j >= next {
            var confirmed :- Add64(validator.upgraderBalance, amount);
            return Some(validator.(upgraderBalance := confirmed));
          }
          return Some(validator);
        case Done =>
          return Some(validator);
      }
    }

    method DepositStakeAccount(account: Key, j: nat) returns (r: Option<()>)
      modifies this
      ensures Outcome(r) == I.DepositStakeAccount(old(Snapshot()), account, j)
    {
      var cfg := state.cfg;
      :- Need(!cfg.paused && chain.msolMinted <= state.msolSupply && ControlFits(state));
      :- Need(account in chain.accounts && chain.accounts[account].delegation.Some?);
      var source := chain.accounts[account];
      var delegation := source.delegation.value;
      :- Need(!delegation.deactivating && chain.clock.epoch >= delegation.activationEpoch
              && delegation.stake >= state.cfg.minStake && source.lamports == delegation.stake + source.rent
              && WithinStakingCap(state, delegation.stake) && !source.locked);
      var validator :- GetValidator(state.ledger, j, delegation.voter);
      var balance :- Add64(validator.balance, delegation.stake);
      validator := validator.(balance := balance);
      validator :- MaintainUpgrade(j, validator, delegation.stake);
      SetValidator(j, validator);
      :- Need(!source.ours);
      chain := chain.(accounts := chain.accounts[account := source.(ours := true)]);
      var _ :- AddStake(account, delegation.stake, false, true);
      var fees := ApplyFeeCents(state.cfg.depositStakeFee, delegation.stake);
      var minted :- MsolFromLamports(state, SaturatingSub(delegation.stake, fees));
      chain := chain.(msolMinted := chain.msolMinted + minted);
      var _ :- OnMsolMint(minted);
      var total := IncreaseTotalActive(delegation.stake);
      assert total.Some?;
      return Some(());
    }

    method WithdrawStakeAccount(i: nat, account: Key, j: nat, msol: nat, treasury: bool, splitAccount: Key)
      returns (r: Option<()>)
      modifies this
      ensures Outcome(r) == I.WithdrawStakeAccount(old(Snapshot()), i, account, j, msol, treasury, splitAccount)
    {
      var cfg := state.cfg;
      :- Need(!cfg.paused && cfg.withdrawStakeEnabled && state.ledger.upgrader.Done?);
      :- Need(chain.msolLeg + msol <= chain.msolMinted);
      var stake :- GetStake(state.ledger, i, account);
      :- Need(stake.status.Active? && !stake.emergency && j < |state.ledger.validators|);
      var validator := state.ledger.validators[j];
      :- Need(UpToDate(chain.accounts, account, stake.lamports, validator.vote)
              && !chain.accounts[account].delegation.value.deactivating);
      var value :- MsolToSol(state, msol);
      :- Need(value >= state.cfg.minWithdraw);
      var split :- Sub(value, ApplyFeeCents(state.cfg.withdrawStakeFee, value));
      :- Need(split >= state.cfg.minStake && stake.lamports >= split
              && stake.lamports - split >= state.cfg.minStake);
      var fees := 0;
      if treasury {
        var cost :- MsolFromLamports(state, split);
        fees := SaturatingSub(msol, cost);
      }
      r := SplitForUser(i, account, j, split, msol - fees, splitAccount);
    }

    /** The second half of a withdrawal: burn, split, and take the split out of the ledger. */
    method SplitForUser(i: nat, account: Key, j: nat, split: nat, burned: nat, splitAccount: Key)
      returns (r: Option<()>)
      requires i < |state.ledger.stakes| && j < |state.ledger.validators|
      modifies this
      ensures Outcome(r) == I.SplitForUser(old(Snapshot()), i, account, j, split, burned, splitAccount)
    {
      if burned > 0 {
        var minted :- Sub(chain.msolMinted, burned);
        chain := chain.(msolMinted := minted);
        var _ :- OnMsolBurn(burned);
      }
      chain :- I.CpiSplit(chain, account, split, splitAccount, false);
      var stake, validator := state.ledger.stakes[i], state.ledger.validators[j];
      var rest :- Sub(stake.lamports, split);
      stake := stake.(lamports := rest);
      var balance :- Sub(validator.balance, split);
      validator := validator.(balance := balance);
      var _ :- DecreaseTotalActive(split);
      SetStake(i, stake);
      SetValidator(j, validator);
      return Some(());
    }

    // ---------- delayed unstake ----------

    method OrderUnstake(msol: nat, ticket: Key) returns (r: Option<()>)
      modifies this
      ensures Outcome(r) == I.OrderUnstake(old(Snapshot()), msol, ticket)
    {
      var cfg := state.cfg;
      :- Need(!cfg.paused && chain.msolLeg + msol <= chain.msolMinted && ticket !in chain.tickets);
      var value :- MsolToSol(state, msol);
      var lamports :- Sub(value, ApplyFeeCents(state.cfg.delayedUnstakeFee, value));
      :- Need(lamports >= state.cfg.minWithdraw);
      var balance :- Add64(state.ticketBalance, lamports);
      state := state.(ticketBalance := balance);
      var count :- Add64(state.ticketCount, 1);
      state := state.(ticketCount := count);
      chain := chain.(msolMinted := chain.msolMinted - msol);
      var _ :- OnMsolBurn(msol);
      var epoch :- Add64(chain.clock.epoch, if chain.clock.epoch == state.lastStakeDeltaEpoch then 1 else 0);
      chain := chain.(tickets := chain.tickets[ticket := Ticket(lamports, epoch)]);
      return Some(());
    }

    /** check_ticket_account. */
    method CheckTicket(ticket: Ticket) returns (r: Option<()>)
      ensures r.Some? <==>
              && ticket.lamports != 0
              && ticket.createdEpoch + 1 <= U64_MAX && chain.clock.epoch >= ticket.createdEpoch + 1
              && (chain.clock.epoch == ticket.createdEpoch + 1 ==> chain.clock.epochSeconds >= I.EXTRA_WAIT_SECONDS)
    {
      var due :- Add64(ticket.createdEpoch, 1);
      :- Need(ticket.lamports != 0);
      :- Need(chain.clock.epoch >= due);
      if due == chain.clock.epoch {
        :- Need(chain.clock.epochSeconds >= I.EXTRA_WAIT_SECONDS);
      }
      return Some(());
    }

    method Claim(ticket: Key) returns (r: Option<()>)
      modifies this
      ensures Outcome(r) == I.Claim(old(Snapshot()), ticket)
    {
      var cfg := state.cfg;
      :- Need(!cfg.paused && ticket in chain.tickets);
      var _ :- CheckTicket(chain.tickets[ticket]);
      var lamports := chain.tickets[ticket].lamports;
      var available :- Sub(chain.reserveLamports, state.cfg.rent);
      :- Need(lamports <= available);
      var balance :- Sub(state.ticketBalance, lamports);
      state := state.(ticketBalance := balance);
      var count :- Sub(state.ticketCount, 1);
      state := state.(ticketCount := count);
      chain := chain.(tickets := chain.tickets - {ticket}, reserveLamports := chain.reserveLamports - lamports);
      var _ :- OnTransferFromReserve(lamports);
      return Some(());
    }

    // ---------- stake delta ----------

    method StakeReserve(j: nat, vote: Key, account: Key) returns (r: Option<()>)
      modifies this
      ensures Outcome(r) == I.StakeReserve(old(Snapshot()), j, vote, account)
    {
      var cfg := state.cfg;
      :- Need(!cfg.paused && state.ledger.upgrader.Done? && account !in chain.accounts);
      var delta := StakeDelta(state, chain.reserveLamports);
      if delta <= 0 {
        return Some(());
      }
      :- Need(delta <= U64_MAX);
      var totalTarget := SaturatingAdd64(state.ledger.totalActive, delta);
      var validator :- GetValidator(state.ledger, j, vote);
      if validator.lastDeltaEpoch == chain.clock.epoch {
        if state.extraRuns == 0 {
          return Some(());
        }
        state := state.(extraRuns := state.extraRuns - 1);
      }
      :- Need(InDeltaWindow(state, chain.clock));
      var target :- StakeTarget(state.ledger, validator, totalTarget);
      if validator.balance >= target {
        return Some(());
      }
      var amount: nat := Min(SaturatingSub(target, validator.balance), delta);
      if delta - amount < state.cfg.minStake {
        amount := delta;
      }
      if amount < state.cfg.minStake {
        return Some(());
      }
      r := DelegateReserve(j, vote, account, amount);
    }

    /** The second half of stake_reserve: a stake account is funded, delegated and recorded. */
    method DelegateReserve(j: nat, vote: Key, account: Key, amount: nat) returns (r: Option<()>)
      requires j < |state.ledger.validators| && state.ledger.upgrader.Done?
      modifies this
      ensures Outcome(r) == I.DelegateReserve(old(Snapshot()), j, vote, account, amount)
    {
      var lamports :- Sub(chain.reserveLamports, amount);
      chain := chain.(reserveLamports := lamports);
      var _ :- OnTransferFromReserve(amount);
      var delegated := StakeAccount(chain.stakeRent + amount, chain.stakeRent,
                                    Some(Delegation(vote, amount, chain.clock.epoch, false)), true, false);
      chain := chain.(accounts := chain.accounts[account := delegated]);
      var _ :- AddStake(account, amount, false, true);
      var validator := state.ledger.validators[j];
      var balance :- Add64(validator.balance, amount);
      validator := validator.(balance := balance, lastDeltaEpoch := chain.clock.epoch);
      state := state.(lastStakeDeltaEpoch := chain.clock.epoch);
      SetValidator(j, validator);
      var _ :- IncreaseTotalActive(amount);
      return Some(());
    }

    method DeactivateStake(i: nat, account: Key, j: nat, splitAccount: Key) returns (r: Option<()>)
      modifies this
      ensures Outcome(r) == I.DeactivateStake(old(Snapshot()), i, account, j, splitAccount)
    {
      var cfg := state.cfg;
      :- Need(!cfg.paused && splitAccount !in chain.accounts);
      var stake :- GetStake(state.ledger, i, account);
      :- Need(state.ledger.upgrader.Done? && stake.status.Active? && !stake.emergency
              && j < |state.ledger.validators| && InDeltaWindow(state, chain.clock));
      var validator := state.ledger.validators[j];
      var delta := StakeDelta(state, chain.reserveLamports);
      :- Need(delta < 0 && -delta <= U64_MAX && UpToDate(chain.accounts, account, stake.lamports, validator.vote));
      var unstake: nat := -delta;
      var target :- StakeTarget(state.ledger, validator, SaturatingSub(state.ledger.totalActive, unstake));
      if validator.balance <= target {
        return Some(());
      }
      var excess := validator.balance - target;
      var rest := SaturatingSub(stake.lamports, if excess > unstake then unstake else excess);
      r := UnstakeExcess(i, account, j, splitAccount, rest, unstake);
    }

    /** The second half of deactivate_stake: the whole account or a part of it. */
    method UnstakeExcess(i: nat, account: Key, j: nat, splitAccount: Key, rest: nat, delta: nat) returns (r: Option<()>)
      requires i < |state.ledger.stakes| && j < |state.ledger.validators|
      modifies this
      ensures Outcome(r) == I.UnstakeExcess(old(Snapshot()), i, account, j, splitAccount, rest, delta)
    {
      var small :- Add64(state.cfg.minStake, state.cfg.minStake);
      if rest < small {
        state := state.(lastStakeDeltaEpoch := chain.clock.epoch);
        r := CoolWhole(i, account, j, false);
      } else if state.ledger.validators[j].lastDeltaEpoch == chain.clock.epoch {
        return Some(());
      } else {
        var lamports := state.ledger.stakes[i].lamports;
        :- Need(rest < lamports && lamports - rest <= delta);
        state := state.(lastStakeDeltaEpoch := chain.clock.epoch);
        r := CoolPart(i, account, j, lamports - rest, splitAccount, false, chain.clock.epoch);
      }
    }

    /** The whole account of record `i` is deactivated, and the record marked and counted as cooling. */
    method CoolWhole(i: nat, account: Key, j: nat, emergency: bool) returns (r: Option<()>)
      requires i < |state.ledger.stakes| && j < |state.ledger.validators|
      modifies this
      ensures Outcome(r) == I.CoolWhole(old(Snapshot()), i, account, j, emergency)
    {
      chain :- I.CpiDeactivate(chain, account);
      var stake := state.ledger.stakes[i].(emergency := emergency, status := Deactivating);
      r := StartCooling(i, stake, j, state.ledger.validators[j], stake.lamports, emergency);
    }

    /** `amount` of record `i` is split off, deactivated, recorded, and counted as cooling. */
    method CoolPart(i: nat, account: Key, j: nat, amount: nat, splitAccount: Key, emergency: bool, deltaEpoch: nat)
      returns (r: Option<()>)
      requires i < |state.ledger.stakes| && j < |state.ledger.validators|
      modifies this
      ensures Outcome(r) == I.CoolPart(old(Snapshot()), i, account, j, amount, splitAccount, emergency, deltaEpoch)
    {
      var stake := state.ledger.stakes[i];
      var validator := state.ledger.validators[j].(lastDeltaEpoch := deltaEpoch);
      var _ :- AddStake(splitAccount, amount, emergency, false);
      chain :- I.CpiSplit(chain, account, amount, splitAccount, true);
      chain :- I.CpiDeactivate(chain, splitAccount);
      var rest :- Sub(stake.lamports, amount);
      stake := stake.(lamports := rest);
      ghost var l := old(state).ledger;
      assert state.ledger.stakes[i := stake] == l.stakes[i := stake] + [state.ledger.stakes[|l.stakes|]];
      r := StartCooling(i, stake, j, validator, amount, emergency);
      if r.Some? {
        ghost var moved := l.validators[j].(balance := state.ledger.validators[j].balance);
        assert state.ledger.validators == l.validators[j := moved][j := state.ledger.validators[j]];
      }
    }

    // ---------- validator manager ----------

    method EmergencyUnstake(i: nat, account: Key, j: nat) returns (r: Option<()>)
      modifies this
      ensures Outcome(r) == I.EmergencyUnstake(old(Snapshot()), i, account, j)
    {
      var cfg := state.cfg;
      :- Need(!cfg.paused && state.ledger.upgrader.Done?);
      var stake :- GetStake(state.ledger, i, account);
      :- Need(stake.status.Active? && !stake.emergency && j < |state.ledger.validators|);
      var validator := state.ledger.validators[j];
      :- Need(validator.score == 0 && UpToDate(chain.accounts, account, stake.lamports, validator.vote));
      var _ :- OnStakeMoved(stake.lamports);
      r := CoolWhole(i, account, j, true);
    }

    method PartialUnstake(i: nat, account: Key, j: nat, desired: nat, splitAccount: Key) returns (r: Option<()>)
      modifies this
      ensures Outcome(r) == I.PartialUnstake(old(Snapshot()), i, account, j, desired, splitAccount)
    {
      var cfg := state.cfg;
      :- Need(!cfg.paused && state.ledger.upgrader.Done? && splitAccount !in chain.accounts);
      :- Need(desired >= state.cfg.minStake && j < |state.ledger.validators|);
      var validator := state.ledger.validators[j];
      var stake :- GetStake(state.ledger, i, account);
      :- Need(stake.status.Active? && !stake.emergency
              && UpToDate(chain.accounts, account, stake.lamports, validator.vote));
      var totalTarget := state.ledger.totalActive + StakeDelta(state, chain.reserveLamports);
      :- Need(0 <= totalTarget <= U64_MAX);
      var target :- StakeTarget(state.ledger, validator, totalTarget);
      var floor :- Add64(target, state.cfg.minStake);
      if validator.balance <= floor {
        return Some(());
      }
      var most := validator.balance - target;
      var amount := if desired > most then most else desired;
      r := MoveOut(i, account, j, amount, splitAccount);
    }

    /** The second half of partial_unstake: the whole account or a part of it, within the cap. */
    method MoveOut(i: nat, account: Key, j: nat, amount: nat, splitAccount: Key) returns (r: Option<()>)
      requires i < |state.ledger.stakes| && j < |state.ledger.validators|
      modifies this
      ensures Outcome(r) == I.MoveOut(old(Snapshot()), i, account, j, amount, splitAccount)
    {
      var lamports := state.ledger.stakes[i].lamports;
      if SaturatingSub(lamports, amount) < state.cfg.minStake {
        var _ :- OnStakeMoved(lamports);
        r := CoolWhole(i, account, j, true);
      } else {
        var _ :- OnStakeMoved(amount);
        r := CoolPart(i, account, j, amount, splitAccount, true, state.ledger.validators[j].lastDeltaEpoch);
      }
    }

    method AddValidator(vote: Key, score: nat) returns (r: Option<()>)
      modifies this
      ensures Outcome(r) == I.AddValidator(old(Snapshot()), vote, score)
    {
      var cfg := state.cfg;
      :- Need(!cfg.paused && state.ledger.upgrader.Done? && vote !in chain.flags);
      chain := chain.(flags := chain.flags + {vote});
      :- Need(|state.ledger.validators| < chain.validatorCapacity);
      var l := state.ledger;
      l := l.(validators := l.validators + [ValidatorRecord(vote, 0, score, U64_MAX, 0)]);
      :- Need(l.totalScore + score <= U32_MAX);
      l := l.(totalScore := l.totalScore + score);
      state := state.(ledger := l);
      return Some(());
    }

    method RemoveValidator(j: nat, vote: Key) returns (r: Option<()>)
      modifies this
      ensures Outcome(r) == I.RemoveValidator(old(Snapshot()), j, vote)
    {
      var cfg := state.cfg;
      :- Need(!cfg.paused && state.ledger.upgrader.Done? && vote in chain.flags);
      var validator :- GetValidator(state.ledger, j, vote);
      :- Need(validator.balance == 0);
      var l := state.ledger;
      var total :- Sub(l.totalScore, validator.score);
      l := l.(totalScore := total);
      l := l.(validators := SwapRemove(l.validators, j));
      state := state.(ledger := l);
      chain := chain.(flags := chain.flags - {vote});
      return Some(());
    }

    method SetValidatorScore(j: nat, vote: Key, score: nat) returns (r: Option<()>)
      modifies this
      ensures Outcome(r) == I.SetValidatorScore(old(Snapshot()), j, vote, score)
    {
      var cfg := state.cfg;
      :- Need(!cfg.paused);
      var validator :- GetValidator(state.ledger, j, vote);
      var rest :- Sub(state.ledger.totalScore, validator.score);
      state := state.(ledger := state.ledger.(totalScore := rest));
      validator := validator.(score := score);
      :- Need(rest + score <= U32_MAX);
      state := state.(ledger := state.ledger.(totalScore := rest + score));
      SetValidator(j, validator);
      return Some(());
    }

    // ---------- reshaping ----------

    method MergeStakes(dst: nat, dstAccount: Key, src: nat, srcAccount: Key, j: nat, merged: nat) returns (r: Option<()>)
      modifies this
      ensures Outcome(r) == I.MergeStakes(old(Snapshot()), dst, dstAccount, src, srcAccount, j, merged)
    {
      var cfg := state.cfg;
      :- Need(!cfg.paused && state.ledger.upgrader.Done? && j < |state.ledger.validators|);
      var validator := state.ledger.validators[j];
      :- Need(dstAccount == CanonicalStake(validator.vote) && srcAccount != dstAccount);
      var stake :- GetStake(state.ledger, dst, dstAccount);
      :- Need(stake.status.Active? && UpToDate(chain.accounts, dstAccount, stake.lamports, validator.vote)
              && !chain.accounts[dstAccount].delegation.value.deactivating);
      var source :- GetStake(state.ledger, src, srcAccount);
      :- Need(source.status.Active? && UpToDate(chain.accounts, srcAccount, source.lamports, validator.vote)
              && !chain.accounts[srcAccount].delegation.value.deactivating);
      :- Need(chain.accounts[srcAccount].lamports == source.lamports + chain.accounts[srcAccount].rent);
      r := Merge(dst, dstAccount, src, srcAccount, j, merged);
    }

    /** The second half of merge_stakes: the extra delegation, if any, becomes active stake. */
    method Merge(dst: nat, dstAccount: Key, src: nat, srcAccount: Key, j: nat, merged: nat) returns (r: Option<()>)
      requires dst < |state.ledger.stakes| && src < |state.ledger.stakes| && j < |state.ledger.validators|
      requires srcAccount in chain.accounts && dstAccount in chain.accounts
      requires chain.accounts[dstAccount].delegation.Some?
      requires chain.accounts[srcAccount].rent <= chain.accounts[srcAccount].lamports
      modifies this
      ensures Outcome(r) == I.Joined(old(Snapshot()), dst, dstAccount, src, srcAccount, j, merged)
    {
      var target, closed := chain.accounts[dstAccount], chain.accounts[srcAccount];
      var stake := state.ledger.stakes[dst];
      var extra :- Sub(merged, stake.lamports + state.ledger.stakes[src].lamports);
      var returned :- Sub(closed.rent, extra);
      var validator := state.ledger.validators[j];
      var balance :- Add64(validator.balance, extra);
      validator := validator.(balance := balance);
      SetValidator(j, validator);
      var _ :- IncreaseTotalActive(extra);
      stake := stake.(lamports := merged);
      SetStake(dst, stake);
      RemoveStake(src);
      var joined := target.(lamports := target.lamports + closed.lamports - returned,
                            delegation := Some(target.delegation.value.(stake := merged)));
      chain := chain.(accounts := (chain.accounts - {srcAccount})[dstAccount := joined]);
      return Some(());
    }

    method CreateCanonicalStake(i: nat, account: Key, j: nat) returns (r: Option<()>)
      modifies this
      ensures Outcome(r) == I.CreateCanonicalStake(old(Snapshot()), i, account, j)
    {
      var cfg := state.cfg;
      :- Need(!cfg.paused && state.ledger.upgrader.Done? && j < |state.ledger.validators|);
      var vote := state.ledger.validators[j].vote;
      var canonical := CanonicalStake(vote);
      :- Need(canonical !in chain.accounts);
      var stake :- GetStake(state.ledger, i, account);
      :- Need(UpToDate(chain.accounts, account, stake.lamports, vote)
              && !chain.accounts[account].delegation.value.deactivating
              && chain.accounts[account].lamports == stake.lamports + chain.accounts[account].rent);
      var source := chain.accounts[account];
      chain := chain.(accounts := (chain.accounts - {account})[canonical := source.(ours := true, locked := false)]);
      var _ :- AddStake(canonical, stake.lamports, false, true);
      RemoveStake(i);
      return Some(());
    }

    // ---------- updates ----------

    /** begin: the virtual reserve and supply follow the real ones, then both records are looked up. */
    method Begin(i: nat, account: Key, j: nat) returns (r: Option<(StakeRecord, ValidatorRecord)>)
      modifies this`state
      ensures r.Some? <==>
              && I.Resync(old(state), chain).Some? && GetStake(old(state).ledger, i, account).Some?
              && account in chain.accounts && chain.accounts[account].delegation.Some?
              && GetValidator(old(state).ledger, j, chain.accounts[account].delegation.value.voter).Some?
      ensures r.Some? ==> I.Resync(old(state), chain) == Some(state)
                          && r.value == (state.ledger.stakes[i], state.ledger.validators[j])
    {
      var virtualReserve :- Add64(state.reserve, state.cfg.rent);
      state := state.(reserve := SaturatingSub(chain.reserveLamports, state.cfg.rent));
      if chain.msolMinted > state.msolSupply {
        state := state.(stakingCap := 0);
      }
      state := state.(msolSupply := chain.msolMinted);
      var stake :- GetStake(state.ledger, i, account);
      :- Need(account in chain.accounts && chain.accounts[account].delegation.Some?);
      var validator :- GetValidator(state.ledger, j, chain.accounts[account].delegation.value.voter);
      return Some((stake, validator));
    }

    method WithdrawToReserve(account: Key, amount: nat) returns (r: Option<()>)
      requires account in chain.accounts && amount <= chain.accounts[account].lamports
      modifies this
      ensures r.Some? <==> amount == 0 || old(state).reserve + amount <= U64_MAX
      ensures chain.clock == old(chain).clock
      ensures r.Some? ==> state == old(state).(reserve := old(state).reserve + amount)
      ensures r.Some? ==>
                var source := old(chain).accounts[account];
                chain == old(chain).(reserveLamports := old(chain).reserveLamports + amount,
                accounts := old(chain).accounts[account := source.(lamports := source.lamports - amount)])
    {
      var source := chain.accounts[account];
      if amount > 0 {
        chain := chain.(reserveLamports := chain.reserveLamports + amount,
                        accounts := chain.accounts[account := source.(lamports := source.lamports - amount)]);
        var _ :- OnTransferToReserve(amount);
      } else {
        assert chain.accounts[account := source] == chain.accounts;
      }
      return Some(());
    }

    /** mint_protocol_fees, when the treasury can receive mSOL. */
    method MintProtocolFees(incoming: nat, treasury: bool) returns (r: Option<()>)
      modifies this
      ensures (if r.Some? then Some(state) else None) == I.MintFee(old(state), incoming, treasury)
      ensures chain.clock == old(chain).clock
      ensures r.Some? ==>
                && state.msolSupply >= old(state).msolSupply
                && chain == old(chain).(
                  msolMinted := old(chain).msolMinted + (state.msolSupply - old(state).msolSupply))
    {
      if treasury {
        var fee :- MsolFromLamports(state, ApplyFee(state.cfg.rewardFee, incoming));
        if fee > 0 {
          chain := chain.(msolMinted := chain.msolMinted + fee);
          var _ :- OnMsolMint(fee);
        }
      }
      return Some(());
    }

    method MintFeeOnGrowth(last: nat, now: nat, treasury: bool) returns (r: Option<()>)
      modifies this
      ensures (if r.Some? then Some(state) else None) == I.FeeOnGrowth(old(state), last, now, treasury)
      ensures chain.clock == old(chain).clock
      ensures r.Some? ==>
                && state.msolSupply >= old(state).msolSupply
                && chain == old(chain).(
                  msolMinted := old(chain).msolMinted + (state.msolSupply - old(state).msolSupply))
    {
      if now >= last {
        r := MintProtocolFees(now - last, treasury);
      } else {
        return Some(());
      }
    }

    method UpdateMsolPrice() returns (r: Option<()>)
      modifies this`state
      ensures (if r.Some? then Some(state) else None) == I.UpdatePrice(old(state))
    {
      var price :- MsolToSol(state, PRICE_DENOMINATOR);
      state := state.(msolPrice := price);
      return Some(());
    }

    /** A stake seen for the first time since the migration began. */
    method DelinquentUpgrade(i: nat, j: nat) returns (r: Option<()>)
      requires i < |state.ledger.stakes| && j < |state.ledger.validators|
      modifies this`state
      ensures (if r.Some? then Some(state.ledger) else None) == L.Recognize(old(state).ledger, i, j)
      ensures state == old(state).(ledger := state.ledger)
    {
      var stake, validator := state.ledger.stakes[i], state.ledger.validators[j];
      if stake.status.Unknown? {
        SetStake(i, stake.(status := Active));
        match state.ledger.upgrader {
          case IteratingStakes(visited, active, delinquent) =>
            :- Need(visited + 1 <= U32_MAX);
            var active' :- Add64(active, stake.lamports);
            state := state.(ledger := state.ledger.(upgrader := IteratingStakes(visited + 1, active', delinquent)));
            :- Need(active' <= state.ledger.totalActive);
            var confirmed :- Add64(validator.upgraderBalance, stake.lamports);
            :- Need(confirmed <= validator.balance);
            SetValidator(j, validator.(upgraderBalance := confirmed));
          case _ =>
            return None;
        }
      }
      return Some(());
    }

    /** The delegation grew to `delegated`. */
    method OnRewards(i: nat, j: nat, delegated: nat) returns (r: Option<()>)
      requires i < |state.ledger.stakes| && j < |state.ledger.validators|
      requires delegated >= state.ledger.stakes[i].lamports
      modifies this`state
      ensures (if r.Some? then Some(state.ledger) else None)
              == L.Observe(old(state).ledger, i, j, delegated, chain.clock.epoch)
      ensures r.Some? ==> state == old(state).(ledger := state.ledger)
    {
      var stake, validator := state.ledger.stakes[i], state.ledger.validators[j];
      var rewards := delegated - stake.lamports;
      var balance :- Add64(validator.balance, rewards);
      validator := validator.(balance := balance);
      var _ :- IncreaseTotalActive(rewards);
      if state.ledger.upgrader.IteratingStakes? {
        var confirmed :- Add64(validator.upgraderBalance, rewards);
        validator := validator.(upgraderBalance := confirmed);
        var active :- Add64(state.ledger.upgrader.active, rewards);
        state := state.(ledger := state.ledger.(upgrader := state.ledger.upgrader.(active := active)));
      }
      SetStake(i, stake.(lamports := delegated, updatedEpoch := chain.clock.epoch));
      SetValidator(j, validator);
      return Some(());
    }

    /** The delegation was slashed to `delegated`. */
    method OnSlash(i: nat, j: nat, delegated: nat) returns (r: Option<()>)
      requires i < |state.ledger.stakes| && j < |state.ledger.validators|
      requires delegated < state.ledger.stakes[i].lamports
      modifies this`state
      ensures (if r.Some? then Some(state.ledger) else None)
              == L.Observe(old(state).ledger, i, j, delegated, chain.clock.epoch)
      ensures r.Some? ==> state == old(state).(ledger := state.ledger)
    {
      var stake, validator := state.ledger.stakes[i], state.ledger.validators[j];
      var slashed := stake.lamports - delegated;
      var balance :- Sub(validator.balance, slashed);
      validator := validator.(balance := balance);
      var _ :- DecreaseTotalActive(slashed);
      if state.ledger.upgrader.IteratingStakes? {
        var confirmed :- Sub(validator.upgraderBalance, slashed);
        validator := validator.(upgraderBalance := confirmed);
        var active :- Sub(state.ledger.upgrader.active, slashed);
        state := state.(ledger := state.ledger.(upgrader := state.ledger.upgrader.(active := active)));
      }
      SetStake(i, stake.(lamports := delegated, updatedEpoch := chain.clock.epoch));
      SetValidator(j, validator);
      return Some(());
    }

    /** check_delinquent_upgrade_state_progression. */
    method CheckProgression() returns (r: Option<()>)
      modifies this`state
      ensures (if r.Some? then Some(state.ledger) else None) == L.Progress(old(state).ledger)
      ensures state == old(state).(ledger := state.ledger)
    {
      var l := state.ledger;
      if l.upgrader.IteratingStakes? && l.upgrader.visited == |l.stakes| {
        :- Need(l.upgrader.active == l.totalActive);
        state := state.(ledger := l.(upgrader := IteratingValidators(0, l.upgrader.delinquent)));
      }
      return Some(());
    }

    method UpdateActive(i: nat, account: Key, j: nat, treasury: bool) returns (r: Option<()>)
      modifies this
      ensures Outcome(r) == I.UpdateActive(old(Snapshot()), i, account, j, treasury)
    {
      var cfg := state.cfg;
      :- Need(!cfg.paused && !state.ledger.upgrader.IteratingValidators? && ControlFits(state));
      var records :- Begin(i, account, j);
      var stake, validator := records.0, records.1;
      var source := chain.accounts[account];
      var delegation := source.delegation.value;
      :- Need(!delegation.deactivating && !stake.status.Deactivating?);
      var _ :- DelinquentUpgrade(i, j);
      var _ :- SettleActive(i, account, j, stake.lamports, treasury);
      :- Need(state.reserve + state.cfg.rent == chain.reserveLamports);
      r := CheckProgression();
    }

    /** The second half of update_active: extra lamports, rewards or slash, and the new price. */
    method SettleActive(i: nat, account: Key, j: nat, last: nat, treasury: bool) returns (r: Option<()>)
      requires i < |state.ledger.stakes| && j < |state.ledger.validators| && state.ledger.stakes[i].lamports == last
      requires account in chain.accounts && chain.accounts[account].delegation.Some?
      requires chain.msolMinted == state.msolSupply
      modifies this
      ensures Outcome(r) == I.SettleActive(old(Snapshot()), i, account, j, last, treasury)
    {
      var source := chain.accounts[account];
      var stake := source.delegation.value.stake;
      var unrented :- Sub(source.lamports, source.rent);
      var extra := SaturatingSub(unrented, stake);
      var _ :- CreditExtra(account, extra, treasury);
      var _ :- FollowDelegation(i, j, stake, last, treasury);
      var _ :- UpdateMsolPrice();
      return Some(());
    }

    /** Lamports above the delegation go to the reserve before their fee is minted. */
    method CreditExtra(account: Key, extra: nat, treasury: bool) returns (r: Option<()>)
      requires account in chain.accounts && extra <= chain.accounts[account].lamports
      modifies this
      ensures (if r.Some? then Some(state) else None) == I.CreditExtra(old(state), extra, treasury)
      ensures r.Some? ==>
                var source := old(chain).accounts[account];
                && state.msolSupply >= old(state).msolSupply
                && chain == old(chain).(reserveLamports := old(chain).reserveLamports + extra,
                msolMinted := old(chain).msolMinted + (state.msolSupply - old(state).msolSupply),
                accounts := old(chain).accounts[account := source.(lamports := source.lamports - extra)])
      ensures chain.clock == old(chain).clock
    {
      var _ :- WithdrawToReserve(account, extra);
      if extra > 0 {
        var _ :- MintProtocolFees(extra, treasury);
      }
      return Some(());
    }

    /** Rewards pay their fee at the old price and then count; a slash is only counted. */
    method FollowDelegation(i: nat, j: nat, stake: nat, last: nat, treasury: bool) returns (r: Option<()>)
      requires i < |state.ledger.stakes| && j < |state.ledger.validators| && state.ledger.stakes[i].lamports == last
      modifies this
      ensures (if r.Some? then Some(state) else None)
              == I.FollowDelegation(old(state), i, j, stake, last, chain.clock.epoch, treasury)
      ensures r.Some? ==>
                && state.msolSupply >= old(state).msolSupply
                && chain == old(chain).(
                  msolMinted := old(chain).msolMinted + (state.msolSupply - old(state).msolSupply))
      ensures chain.clock == old(chain).clock
    {
      var _ :- MintFeeOnGrowth(last, stake, treasury);
      if stake >= last {
        var _ :- OnRewards(i, j, stake);
      } else {
        var _ :- OnSlash(i, j, stake);
      }
      return Some(());
    }

    /** The emergency unstake procedure for a stake somebody else has deactivated. */
    method ApplyEmergency(i: nat, j: nat) returns (r: Option<()>)
      requires i < |state.ledger.stakes| && j < |state.ledger.validators|
      modifies this`state
      ensures (if r.Some? then Some(state.ledger) else None) == L.Reclassify(old(state).ledger, i, j)
      ensures r.Some? ==> state == old(state).(ledger := state.ledger)
    {
      var stake := state.ledger.stakes[i];
      if stake.status.Active? {
        :- Need(!stake.emergency);
        stake := stake.(emergency := true);
        r := StartCooling(i, stake, j, state.ledger.validators[j], stake.lamports, true);
      } else {
        return Some(());
      }
    }

    /** What leaves the cooling buckets; during phase 1 of the migration a shortfall is delinquent. */
    method StopCooling(amount: nat, emergency: bool) returns (r: Option<()>)
      modifies this`state
      ensures (if r.Some? then Some(state.ledger) else None) == L.Draw(old(state).ledger, amount, emergency)
      ensures r.Some? ==> state == old(state).(ledger := state.ledger)
    {
      var l := state.ledger;
      if amount != 0 {
        if l.upgrader.IteratingStakes? {
          var delinquent := 0;
          if !emergency {
            var available := Min(l.delayedCooling, amount);
            l := l.(delayedCooling := l.delayedCooling - available);
            delinquent := amount - available;
          } else {
            var available := Min(l.emergencyCooling, amount);
            l := l.(emergencyCooling := l.emergencyCooling - available);
            delinquent := amount - available;
          }
          var total' :- AddIfAny(l.upgrader.delinquent, delinquent);
          l := l.(upgrader := l.upgrader.(delinquent := total'));
          var total :- Sub(l.totalActive, delinquent);
          l := l.(totalActive := total);
        } else if !emergency {
          var cooling :- Sub(l.delayedCooling, amount);
          l := l.(delayedCooling := cooling);
        } else {
          var cooling :- Sub(l.emergencyCooling, amount);
          l := l.(emergencyCooling := cooling);
        }
      }
      state := state.(ledger := l);
      return Some(());
    }

    method UpdateDeactivated(i: nat, account: Key, j: nat, treasury: bool) returns (r: Option<()>)
      modifies this
      ensures Outcome(r) == I.UpdateDeactivated(old(Snapshot()), i, account, j, treasury)
    {
      var cfg := state.cfg;
      :- Need(!cfg.paused && ControlFits(state));
      var _ :- Begin(i, account, j);
      :- Need(chain.accounts[account].delegation.value.deactivating);
      var _ :- ApplyEmergency(i, j);
      var _ :- SettleDeactivated(i, account, treasury);
      r := CheckProgression();
    }

    /** The second half of update_deactivated: fees, the payout to the reserve, and the end of the record. */
    method SettleDeactivated(i: nat, account: Key, treasury: bool) returns (r: Option<()>)
      requires i < |state.ledger.stakes| && account in chain.accounts && chain.msolMinted == state.msolSupply
      modifies this
      ensures Outcome(r) == I.SettleDeactivated(old(Snapshot()), i, account, treasury)
    {
      var stake, source := state.ledger.stakes[i], chain.accounts[account];
      var unrented :- Sub(source.lamports, source.rent);
      var _ :- MintFeeOnGrowth(stake.lamports, unrented, treasury);
      var _ :- PayOut(account);
      var _ :- DropRecord(i);
      return Some(());
    }

    method DropRecord(i: nat) returns (r: Option<()>)
      requires i < |state.ledger.stakes|
      modifies this`state
      ensures (if r.Some? then Some(state) else None) == I.DropRecord(old(state), i)
    {
      var stake := state.ledger.stakes[i];
      var _ :- StopCooling(stake.lamports, stake.emergency);
      var _ :- UpdateMsolPrice();
      RemoveStake(i);
      return Some(());
    }

    /** Everything goes to the reserve, and the rent on to the operational account. */
    method PayOut(account: Key) returns (r: Option<()>)
      requires account in chain.accounts && chain.accounts[account].rent <= chain.accounts[account].lamports
      modifies this
      ensures r.Some? <==> AddIfAny(old(state).reserve, old(chain).accounts[account].lamports).Some?
      ensures r.Some? ==>
                var source := old(chain).accounts[account];
                && state == old(state).(reserve := old(state).reserve + source.lamports - source.rent)
                && chain == old(chain).(reserveLamports := old(chain).reserveLamports + source.lamports - source.rent,
                accounts := old(chain).accounts - {account})
    {
      var source := chain.accounts[account];
      var _ :- WithdrawToReserve(account, source.lamports);
      assert chain.accounts - {account} == old(chain).accounts - {account};
      chain := chain.(reserveLamports := chain.reserveLamports - source.rent, accounts := chain.accounts - {account});
      var rentPaid := OnTransferFromReserve(source.rent);
      assert rentPaid.Some?;
      return Some(());
    }

    /** Phase 2 of the migration, at most `maxValidators` validators at a time. */
    method FinalizeUpgrade(maxValidators: nat) returns (r: Option<()>)
      modifies this
      ensures Outcome(r) == I.FinalizeUpgrade(old(Snapshot()), maxValidators)
    {
      var cfg := state.cfg;
      :- Need(!cfg.paused);
      :- Need(state.ledger.upgrader.IteratingValidators?);
      var progress :- VisitValidators(maxValidators);
      var visited, left := progress.0, progress.1;
      if visited == |state.ledger.validators| {
        :- Need(left == 0);
        state := state.(ledger := state.ledger.(upgrader := Done));
      } else {
        state := state.(ledger := state.ledger.(upgrader := IteratingValidators(visited, left)));
      }
      return Some(());
    }

    /** No validator of the range has confirmed more than its balance. */
    static predicate Confirmed(vs: seq<ValidatorRecord>, lo: nat, hi: nat)
      requires hi <= |vs|
    {
      forall k :: lo <= k < hi ==> vs[k].upgraderBalance <= vs[k].balance
    }

    /** The validators from `lo` on have been settled up to `visited`, and `left` is what their gaps leave. */
    static ghost predicate Visited(vs: seq<ValidatorRecord>, now: seq<ValidatorRecord>, lo: nat, visited: nat,
                                   all: nat, left: nat)
    {
      && |now| == |vs| && lo <= visited
      && if lo > |vs| then visited == lo && now == vs && left == all
         else visited <= |vs| && now == L.SettleRange(vs, lo, visited) && Confirmed(vs, lo, visited)
              && left == all - L.Gaps(vs[lo..visited])
    }

    static lemma VisitNext(vs: seq<ValidatorRecord>, now: seq<ValidatorRecord>, lo: nat, k: nat, all: nat, left: nat)
      requires Visited(vs, now, lo, k, all, left) && k < |vs|
      ensures now[k] == vs[k]
      ensures 0 <= vs[k].balance - vs[k].upgraderBalance <= left ==>
                Visited(vs, now[k := L.Settle(vs[k])], lo, k + 1, all, left - (vs[k].balance - vs[k].upgraderBalance))
    {
      SettleNext(vs, lo, k);
      GapsNext(vs, lo, k, k + 1);
    }

    /** A gap that is negative or more than what is left rules out the whole range. */
    static lemma VisitStops(vs: seq<ValidatorRecord>, now: seq<ValidatorRecord>, lo: nat, k: nat, hi: nat, all: nat,
                            left: nat)
      requires Visited(vs, now, lo, k, all, left) && k < hi <= |vs|
      requires !(0 <= vs[k].balance - vs[k].upgraderBalance <= left)
      ensures !(Confirmed(vs, lo, hi) && L.Gaps(vs[lo..hi]) <= all)
    {
      if Confirmed(vs, lo, hi) {
        GapsNext(vs, lo, k, hi);
      }
    }

    /** The loop of finalize_delinquent_upgrade: how far it gets and what is left of the delinquent balance. */
    method VisitValidators(maxValidators: nat) returns (r: Option<(nat, nat)>)
      requires state.ledger.upgrader.IteratingValidators?
      modifies this`state
      ensures var l := old(state).ledger; var lo := l.upgrader.next;
              if lo > |l.validators| then state == old(state) && r == Some((lo, l.upgrader.left))
              else
                var hi := Min(|l.validators|, lo + maxValidators);
                var gaps := L.Gaps(l.validators[lo..hi]);
                && (r.Some? <==> Confirmed(l.validators, lo, hi) && gaps <= l.upgrader.left)
                && (r.Some? ==> r.value == (hi, l.upgrader.left - gaps)
                                && state == old(state).(ledger := l.(validators := L.SettleRange(l.validators, lo, hi))))
    {
      var visited, left, budget := state.ledger.upgrader.next, state.ledger.upgrader.left, maxValidators;
      ghost var vs, lo, all := state.ledger.validators, visited, left;
      ghost var hi := if lo <= |vs| then Min(|vs|, lo + maxValidators) else lo;
      assert lo <= |vs| ==> L.SettleRange(vs, lo, lo) == vs;
      while visited < |state.ledger.validators| && budget > 0
        invariant visited <= hi && budget == maxValidators - (visited - lo)
        invariant state == old(state).(ledger := old(state).ledger.(validators := state.ledger.validators))
        invariant Visited(vs, state.ledger.validators, lo, visited, all, left)
        decreases budget
      {
        var validator := state.ledger.validators[visited];
        VisitNext(vs, state.ledger.validators, lo, visited, all, left);
        if !(0 <= validator.balance - validator.upgraderBalance <= left) {
          VisitStops(vs, state.ledger.validators, lo, visited, hi, all, left);
        }
        var gap :- Sub(validator.balance, validator.upgraderBalance);
        left :- Sub(left, gap);
        validator := validator.(balance := validator.upgraderBalance);
        validator := validator.(upgraderBalance := 0);
        SetValidator(visited, validator);
        visited, budget := visited + 1, budget - 1;
      }
      return Some((visited, left));
    }

    static lemma SettleNext(vs: seq<ValidatorRecord>, lo: nat, k: nat)
      requires lo <= k < |vs|
      ensures L.SettleRange(vs, lo, k)[k := L.Settle(vs[k])] == L.SettleRange(vs, lo, k + 1)
      ensures L.SettleRange(vs, lo, k)[k] == vs[k]
    {
    }

    /** One more gap, and what it says about the whole range: gaps only add up. */
    static lemma GapsNext(vs: seq<ValidatorRecord>, lo: nat, k: nat, hi: nat)
      requires lo <= k < hi <= |vs|
      ensures L.Gaps(vs[lo..k + 1]) == L.Gaps(vs[lo..k]) + vs[k].balance - vs[k].upgraderBalance
      ensures Confirmed(vs, lo, hi) ==> L.Gaps(vs[lo..hi]) >= L.Gaps(vs[lo..k + 1])
    {
      var part := vs[lo..k + 1];
      assert part[..|part| - 1] == vs[lo..k];
      if Confirmed(vs, lo, hi) {
        assert vs[lo..hi] == part + vs[k + 1..hi];
        Migration.GapsAppend(part, vs[k + 1..hi]);
        Migration.GapsNonNegative(vs[k + 1..hi]);
      }
    }

    // ---------- liquidity pool ----------

    method LiquidUnstake(msol: nat, treasury: bool) returns (r: Option<()>)
      modifies this
      ensures Outcome(r) == I.LiquidUnstake(old(Snapshot()), msol, treasury)
    {
      var cfg := state.cfg;
      :- Need(!cfg.paused && chain.msolLeg + msol <= chain.msolMinted);
      var available := SaturatingSub(chain.solLeg, state.cfg.rent);
      var wanted :- MsolToSol(state, msol);
      var rate := state.pool.maxFee;
      if wanted < available {
        rate :- LinearFee(state.pool, available - wanted);
      }
      r := Sell(msol, ApplyFee(rate, msol), treasury);
    }

    /** The second half of liquid_unstake: the pool pays for all but the fee. */
    method Sell(msol: nat, fee: nat, treasury: bool) returns (r: Option<()>)
      modifies this
      ensures Outcome(r) == I.Sell(old(Snapshot()), msol, fee, treasury)
    {
      var sold :- Sub(msol, fee);
      var paid :- MsolToSol(state, sold);
      var needed :- Add64(paid, state.cfg.rent);
      :- Need(needed <= chain.solLeg && paid >= state.cfg.minWithdraw);
      chain := chain.(solLeg := chain.solLeg - paid);
      var cut := if treasury then ApplyFee(state.pool.treasuryCut, fee) else 0;
      var kept :- Sub(msol, cut);
      chain := chain.(msolLeg := chain.msolLeg + kept);
      return Some(());
    }

    method AddLiquidity(lamports: nat, userFunds: nat) returns (r: Option<()>)
      modifies this
      ensures Outcome(r) == I.AddLiquidity(old(Snapshot()), lamports, userFunds)
    {
      var cfg := state.cfg;
      :- Need(!cfg.paused && lamports >= cfg.minDeposit && lamports <= userFunds);
      var leg :- Add64(chain.solLeg, lamports);
      :- Need(leg <= state.pool.liquidityCap && chain.lpMinted <= state.pool.lpSupply);
      state := state.(pool := state.pool.(lpSupply := chain.lpMinted));
      var available :- Sub(chain.solLeg, state.cfg.rent);
      var legValue :- MsolToSol(state, chain.msolLeg);
      var total :- Add64(available, legValue);
      var shares :- SharesFromValue(lamports, total, state.pool.lpSupply);
      chain := chain.(solLeg := leg);
      chain := chain.(lpMinted := chain.lpMinted + shares);
      var supply :- Add64(state.pool.lpSupply, shares);
      state := state.(pool := state.pool.(lpSupply := supply));
      return Some(());
    }

    method RemoveLiquidity(tokens: nat) returns (r: Option<()>)
      modifies this
      ensures Outcome(r) == I.RemoveLiquidity(old(Snapshot()), tokens)
    {
      var cfg := state.cfg;
      :- Need(!cfg.paused && tokens <= chain.lpMinted);
      if chain.lpMinted <= state.pool.lpSupply {
        state := state.(pool := state.pool.(lpSupply := chain.lpMinted));
      }
      var available :- Sub(chain.solLeg, state.cfg.rent);
      var solOut :- Proportional(tokens, available, state.pool.lpSupply);
      var msolOut :- Proportional(tokens, chain.msolLeg, state.pool.lpSupply);
      var msolValue :- MsolToSol(state, msolOut);
      var value :- Add64(solOut, msolValue);
      :- Need(value >= state.cfg.minWithdraw);
      if solOut > 0 {
        var leg :- Sub(chain.solLeg, solOut);
        chain := chain.(solLeg := leg);
      }
      if msolOut > 0 {
        var leg :- Sub(chain.msolLeg, msolOut);
        chain := chain.(msolLeg := leg);
      }
      chain := chain.(lpMinted := chain.lpMinted - tokens);
      var supply :- Sub(state.pool.lpSupply, tokens);
      state := state.(pool := state.pool.(lpSupply := supply));
      return Some(());
    }

    // ---------- administrators and the runtime ----------

    method Configure(cfg: Config, stakingCap: nat, extraRuns: nat, pool: LiqPool) returns (r: Option<()>)
      modifies this
      ensures Outcome(r) == Instruction(old(Snapshot()), Runs.Step.Configure(cfg, stakingCap, extraRuns, pool))
    {
      var rent, lpSupply := state.cfg.rent, state.pool.lpSupply;
      :- Need(ValidConfig(cfg) && cfg.rent == rent && ValidPool(pool) && pool.lpSupply == lpSupply);
      state := state.(cfg := cfg, stakingCap := stakingCap, extraRuns := extraRuns, pool := pool);
      return Some(());
    }

    /** What users call; the rest is for the bots and the administrators. */
    static predicate ByUser(step: Step) {
      step.DoDeposit? || step.DoDepositStakeAccount? || step.DoWithdrawStakeAccount? || step.DoOrderUnstake?
      || step.DoClaim? || step.DoLiquidUnstake? || step.DoAddLiquidity? || step.DoRemoveLiquidity?
    }

    method DispatchUser(step: Step) returns (r: Option<()>)
      requires ByUser(step)
      modifies this
      ensures Outcome(r) == Instruction(old(Snapshot()), step)
    {
      match step
      case DoDeposit(lamports, funds) => r := Deposit(lamports, funds);
      case DoDepositStakeAccount(account, j) => r := DepositStakeAccount(account, j);
      case DoWithdrawStakeAccount(i, account, j, msol, treasury, split) =>
        r := WithdrawStakeAccount(i, account, j, msol, treasury, split);
      case DoOrderUnstake(msol, ticket) => r := OrderUnstake(msol, ticket);
      case DoClaim(ticket) => r := Claim(ticket);
      case DoLiquidUnstake(msol, treasury) => r := LiquidUnstake(msol, treasury);
      case DoAddLiquidity(lamports, funds) => r := AddLiquidity(lamports, funds);
      case DoRemoveLiquidity(tokens) => r := RemoveLiquidity(tokens);
    }

    method DispatchCrank(step: Step) returns (r: Option<()>)
      requires !ByUser(step) && !step.Elsewhere?
      modifies this
      ensures Outcome(r) == Instruction(old(Snapshot()), step)
    {
      match step
      case DoStakeReserve(j, vote, account) => r := StakeReserve(j, vote, account);
      case DoDeactivateStake(i, account, j, split) => r := DeactivateStake(i, account, j, split);
      case DoEmergencyUnstake(i, account, j) => r := EmergencyUnstake(i, account, j);
      case DoPartialUnstake(i, account, j, desired, split) => r := PartialUnstake(i, account, j, desired, split);
      case DoMergeStakes(dst, dstAccount, src, srcAccount, j, merged) =>
        r := MergeStakes(dst, dstAccount, src, srcAccount, j, merged);
      case DoCreateCanonicalStake(i, account, j) => r := CreateCanonicalStake(i, account, j);
      case DoUpdateActive(i, account, j, treasury) => r := UpdateActive(i, account, j, treasury);
      case DoUpdateDeactivated(i, account, j, treasury) => r := UpdateDeactivated(i, account, j, treasury);
      case DoFinalizeUpgrade(max) => r := FinalizeUpgrade(max);
      case DoAddValidator(vote, score) => r := AddValidator(vote, score);
      case DoRemoveValidator(j, vote) => r := RemoveValidator(j, vote);
      case DoSetValidatorScore(j, vote, score) => r := SetValidatorScore(j, vote, score);
      case Configure(cfg, cap, runs, pool) => r := Configure(cfg, cap, runs, pool);
    }

    method Dispatch(step: Step) returns (r: Option<()>)
      requires !step.Elsewhere?
      modifies this
      ensures Outcome(r) == Instruction(old(Snapshot()), step)
    {
      if ByUser(step) {
        r := DispatchUser(step);
      } else {
        r := DispatchCrank(step);
      }
    }

    /** A transaction of one instruction: the runtime takes a failed one back as a whole, so every
        step of the real program is a step of the runs the properties are about. Once the migration is
        done every instruction whatsoever keeps the program valid, and before that every one the
        migration can bear. */
    method Execute(step: Step) returns (r: Option<()>)
      requires !step.Elsewhere?
      modifies this
      ensures Snapshot() == Next(old(Snapshot()), step)
      ensures r.Some? <==> Instruction(old(Snapshot()), step).Some?
      ensures old(Valid()) && LedgerRuns.Allowed(old(Snapshot()), step) ==> Valid()
      ensures old(Valid()) && old(state).ledger.upgrader.Done? ==> Valid() && state.ledger.upgrader.Done?
    {
      var stateBefore, chainBefore := state, chain;
      r := Dispatch(step);
      if r.None? {
        state, chain := stateBefore, chainBefore;
      }
      StepKeepsValid(World(stateBefore, chainBefore), step);
    }

    /** Between transactions the rest of the chain moves on. */
    method Observe(after: Chain)
      requires Permitted(chain, after)
      modifies this`chain
      ensures Snapshot() == Next(old(Snapshot()), Elsewhere(after))
      ensures old(Valid()) ==> Valid()
    {
      chain := after;
      StepKeepsValid(old(Snapshot()), Elsewhere(after));
    }

    static lemma StepKeepsValid(w: World, step: Step)
      ensures var w' := Next(w, step);
              && (LedgerSafety.WorldOk(w) && LedgerRuns.Allowed(w, step) ==> LedgerSafety.WorldOk(w'))
              && (w.state.ledger.upgrader.Done? ==> LedgerRuns.Allowed(w, step) && w'.state.ledger.upgrader.Done?)
              && (Price.Covered(w) && Books.TicketsOk(w) ==> Price.Covered(w') && Books.TicketsOk(w'))
              && (Books.LpOk(w) ==> Books.LpOk(w'))
    {
      if LedgerSafety.WorldOk(w) && LedgerRuns.Allowed(w, step) {
        LedgerRuns.NextOk(w, step);
      }
      if w.state.ledger.upgrader.Done? {
        LedgerRuns.DoneStays(w, step);
      }
      if Price.Covered(w) && Books.TicketsOk(w) {
        Books.NextBooks(w, step);
      }
      if Books.LpOk(w) {
        Books.NextLp(w, step);
      }
    }
  }
}
