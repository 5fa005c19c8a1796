/** No instruction makes or loses lamports: what the stake accounts, the reserve and the SOL leg hold
    changes by what users and rent payers bring and take. */
module Conservation {
  import opened Base
  import opened Model
  import opened Instructions
  import opened Parts
  import opened Runs
  import opened Frames
  import opened Payouts
  import opened Rewards

  // ---------- sums over accounts ----------

  ghost function AccountSum(a: Accounts): nat {
    if a == map[] then 0
    else
      var k :| k in a;
      a[k].lamports + AccountSum(a - {k})
  }

  lemma {:induction false} AccountOut(a: Accounts, x: Key)
    requires x in a
    ensures AccountSum(a) == a[x].lamports + AccountSum(a - {x})
    decreases |a|
  {
    var k :| k in a && AccountSum(a) == a[k].lamports + AccountSum(a - {k});
    if k != x {
      AccountOut(a - {k}, x);
      AccountOut(a - {x}, k);
      assert a - {k} - {x} == a - {x} - {k};
    }
  }

  lemma AccountIn(a: Accounts, x: Key, account: StakeAccount)
    requires x !in a
    ensures AccountSum(a[x := account]) == AccountSum(a) + account.lamports
  {
    AccountOut(a[x := account], x);
    assert a[x := account] - {x} == a;
  }

  lemma AccountSet(a: Accounts, x: Key, account: StakeAccount)
    requires x in a
    ensures AccountSum(a[x := account]) == AccountSum(a) - a[x].lamports + account.lamports
  {
    AccountOut(a, x);
    AccountOut(a[x := account], x);
    assert a[x := account] - {x} == a - {x};
  }

  /** All the lamports the program is in charge of. */
  ghost function Lamports(c: Chain): nat {
    AccountSum(c.accounts) + c.reserveLamports + c.solLeg
  }

  /** What a step brings in from outside: deposits and the rent of new stake accounts; what it pays out is
      negative: tickets, swaps, liquidity, and the rent of closed accounts that was not activated. */
  function Inflow(w: World, step: Step, w': World): int {
    match step
    case DoDeposit(lamports, _) => lamports
    case DoAddLiquidity(lamports, _) => lamports
    case DoLiquidUnstake(_, _) => Change(w.chain.solLeg, w'.chain.solLeg)
    case DoRemoveLiquidity(_) => Change(w.chain.solLeg, w'.chain.solLeg)
    case DoClaim(ticket) => if ticket in w.chain.tickets then Change(w.chain.tickets[ticket].lamports, 0) else 0
    case DoUpdateDeactivated(_, account, _, _) =>
      if account in w.chain.accounts then Change(w.chain.accounts[account].rent, 0) else 0
    case DoMergeStakes(dst, _, src, account, _, merged) =>
      if account in w.chain.accounts && dst < |w.state.ledger.stakes| && src < |w.state.ledger.stakes|
      then merged - w.state.ledger.stakes[dst].lamports - w.state.ledger.stakes[src].lamports
           - w.chain.accounts[account].rent
      else 0
    case DoStakeReserve(_, _, account) => RentOf(account, w')
    case DoDeactivateStake(_, _, _, account) => RentOf(account, w')
    case DoPartialUnstake(_, _, _, _, account) => RentOf(account, w')
    case DoWithdrawStakeAccount(_, _, _, _, _, account) => RentOf(account, w')
    case _ => 0
  }

  function Change(before: nat, after: nat): int {
    after - before
  }

  /** The rent of a stake account that was opened. */
  function RentOf(account: Key, w': World): nat {
    if account in w'.chain.accounts then w'.chain.stakeRent else 0
  }

  // ---------- unstaking ----------

  lemma AccountSplit(a: Accounts, from: Key, rest: StakeAccount, to: Key, new': StakeAccount)
    requires from in a && to !in a
    ensures AccountSum(a[from := rest][to := new']) == AccountSum(a) - a[from].lamports + rest.lamports + new'.lamports
  {
    AccountSet(a, from, rest);
    AccountIn(a[from := rest], to, new');
  }

  lemma SplitConserves(c: Chain, from: Key, amount: nat, to: Key, ours: bool, c': Chain)
    requires CpiSplit(c, from, amount, to, ours) == Some(c')
    ensures Lamports(c') == Lamports(c) + c.stakeRent && c'.stakeRent == c.stakeRent && to in c'.accounts
  {
    var source := c.accounts[from];
    var stake := source.delegation.value.stake;
    var rest := source.(lamports := source.lamports - amount,
                        delegation := Some(source.delegation.value.(stake := stake - amount)));
    AccountSplit(c.accounts, from, rest, to, c'.accounts[to]);
    assert c'.accounts == c.accounts[from := rest][to := c'.accounts[to]];
  }

  lemma DeactivationConserves(c: Chain, account: Key, c': Chain)
    requires CpiDeactivate(c, account) == Some(c')
    ensures Lamports(c') == Lamports(c) && c'.stakeRent == c.stakeRent && c'.accounts.Keys == c.accounts.Keys
  {
    AccountSet(c.accounts, account, c'.accounts[account]);
  }

  lemma CoolWholeConserves(w: World, i: nat, account: Key, j: nat, emergency: bool, w': World)
    requires i < |w.state.ledger.stakes| && j < |w.state.ledger.validators|
    requires CoolWhole(w, i, account, j, emergency) == Some(w')
    ensures Lamports(w'.chain) == Lamports(w.chain) && w'.chain.accounts.Keys == w.chain.accounts.Keys
  {
    DeactivationConserves(w.chain, account, w'.chain);
  }

  lemma CoolPartConserves(w: World, i: nat, account: Key, j: nat, amount: nat, splitAccount: Key, emergency: bool,
                          deltaEpoch: nat, w': World)
    requires i < |w.state.ledger.stakes| && j < |w.state.ledger.validators|
    requires CoolPart(w, i, account, j, amount, splitAccount, emergency, deltaEpoch) == Some(w')
    ensures Lamports(w'.chain) == Lamports(w.chain) + w.chain.stakeRent
    ensures splitAccount in w'.chain.accounts && w'.chain.stakeRent == w.chain.stakeRent
  {
    var c1 := CpiSplit(w.chain, account, amount, splitAccount, true).value;
    SplitConserves(w.chain, account, amount, splitAccount, true, c1);
    DeactivationConserves(c1, splitAccount, w'.chain);
  }

  /** The lamports are what they were, and what came in. */
  ghost predicate Conserves(w: World, step: Step, w': World) {
    Lamports(w'.chain) == Lamports(w.chain) + Inflow(w, step, w')
  }

  lemma DeactivateStakeConserves(w: World, step: Step, w': World)
    requires step.DoDeactivateStake? && Instruction(w, step) == Some(w') && step.splitAccount !in w.chain.accounts
    ensures Conserves(w, step, w')
  {
    var amount := DeactivateStakeCools(w, step.i, step.account, step.j, step.splitAccount, w');
    if CoolWhole(Marked(w), step.i, step.account, step.j, false) == Some(w') {
      CoolWholeConserves(Marked(w), step.i, step.account, step.j, false, w');
    } else if w' != w {
      CoolPartConserves(Marked(w), step.i, step.account, step.j, amount, step.splitAccount, false, w.chain.clock.epoch, w');
    }
  }

  lemma PartialUnstakeConserves(w: World, step: Step, w': World)
    requires step.DoPartialUnstake? && Instruction(w, step) == Some(w') && step.splitAccount !in w.chain.accounts
    ensures Conserves(w, step, w')
  {
    if w' != w {
      var w1, moved := PartialUnstakeCools(w, step.i, step.account, step.j, step.desired, step.splitAccount, w');
      if CoolWhole(w1, step.i, step.account, step.j, true) == Some(w') {
        CoolWholeConserves(w1, step.i, step.account, step.j, true, w');
      } else {
        CoolPartConserves(w1, step.i, step.account, step.j, moved, step.splitAccount, true,
                          w.state.ledger.validators[step.j].lastDeltaEpoch, w');
      }
    }
  }

  lemma EmergencyUnstakeConserves(w: World, step: Step, w': World)
    requires step.DoEmergencyUnstake? && Instruction(w, step) == Some(w')
    ensures Conserves(w, step, w')
  {
    var w1 := World(StakeMoved(w.state, w.state.ledger.stakes[step.i].lamports, w.chain.clock.epoch).value, w.chain);
    CoolWholeConserves(w1, step.i, step.account, step.j, true, w');
  }

  lemma FreshSplit(w: World, step: Step, w': World)
    requires step.DoDeactivateStake? || step.DoPartialUnstake?
    requires Instruction(w, step) == Some(w')
    ensures step.splitAccount !in w.chain.accounts
  {
  }

  // ---------- staking and reshaping ----------

  lemma DelegationConserves(w: World, j: nat, vote: Key, account: Key, amount: nat, w': World)
    requires j < |w.state.ledger.validators| && account !in w.chain.accounts
    requires DelegateReserve(w, j, vote, account, amount) == Some(w')
    ensures Lamports(w'.chain) == Lamports(w.chain) + w.chain.stakeRent
    ensures account in w'.chain.accounts && w'.chain.stakeRent == w.chain.stakeRent
  {
    AccountIn(w.chain.accounts, account, w'.chain.accounts[account]);
    assert w'.chain.accounts == w.chain.accounts[account := w'.chain.accounts[account]];
  }

  lemma StakeReserveConserves(w: World, step: Step, w': World)
    requires step.DoStakeReserve? && Instruction(w, step) == Some(w') && step.account !in w.chain.accounts
    ensures Conserves(w, step, w')
  {
    var w1, amount := StakeReserveDelegates(w, step.j, step.vote, step.account, w');
    if w' != w1 {
      DelegationConserves(w1, step.j, step.vote, step.account, amount, w');
    }
  }

  lemma FreshStake(w: World, step: Step, w': World)
    requires step.DoStakeReserve? && Instruction(w, step) == Some(w')
    ensures step.account !in w.chain.accounts
  {
  }

  lemma WithdrawConserves(w: World, step: Step, w': World)
    requires step.DoWithdrawStakeAccount? && Instruction(w, step) == Some(w')
    ensures Conserves(w, step, w')
  {
    var split, burned := WithdrawSplits(w, step.i, step.account, step.j, step.msol, step.treasury, step.splitAccount, w');
    SplitDelivers(w, step.i, step.account, step.j, split, burned, step.splitAccount, w');
    SplitAccountConserves(w, step.account, split, step.splitAccount, w');
  }

  lemma SplitAccountConserves(w: World, account: Key, split: nat, splitAccount: Key, w': World)
    requires account in w.chain.accounts && w.chain.accounts[account].delegation.Some? && splitAccount !in w.chain.accounts
    requires var source := w.chain.accounts[account]; var d := source.delegation.value;
             && split <= d.stake && split <= source.lamports
             && w'.chain.accounts
                == w.chain.accounts[account := source.(lamports := source.lamports - split,
                                                       delegation := Some(d.(stake := d.stake - split)))]
                                   [splitAccount := StakeAccount(w.chain.stakeRent + split, w.chain.stakeRent,
                                                                 Some(d.(stake := split)), false, false)]
    requires w'.chain == w.chain.(accounts := w'.chain.accounts, msolMinted := w'.chain.msolMinted)
    ensures Lamports(w'.chain) == Lamports(w.chain) + RentOf(splitAccount, w')
  {
    var source := w.chain.accounts[account];
    var d := source.delegation.value;
    AccountSplit(w.chain.accounts, account,
                 source.(lamports := source.lamports - split, delegation := Some(d.(stake := d.stake - split))),
                 splitAccount, w'.chain.accounts[splitAccount]);
  }

  lemma MergeConserves(w: World, step: Step, w': World)
    requires step.DoMergeStakes? && Instruction(w, step) == Some(w')
    ensures Conserves(w, step, w')
  {
    var a, src, dst := w.chain.accounts, step.srcAccount, step.dstAccount;
    assert src in a && dst in a && src != dst;
    AccountOut(a, src);
    AccountSet(a - {src}, dst, w'.chain.accounts[dst]);
    assert w'.chain.accounts == (a - {src})[dst := w'.chain.accounts[dst]];
  }

  lemma CanonicalConserves(w: World, step: Step, w': World)
    requires step.DoCreateCanonicalStake? && Instruction(w, step) == Some(w')
    ensures Conserves(w, step, w')
  {
    var a, canonical := w.chain.accounts, CanonicalStake(w.state.ledger.validators[step.j].vote);
    AccountOut(a, step.account);
    AccountIn(a - {step.account}, canonical, w'.chain.accounts[canonical]);
    assert w'.chain.accounts == (a - {step.account})[canonical := w'.chain.accounts[canonical]];
  }

  // ---------- updates ----------

  lemma SettleActiveConserves(w: World, i: nat, account: Key, j: nat, last: nat, treasury: bool, w': World)
    requires i < |w.state.ledger.stakes| && j < |w.state.ledger.validators|
    requires account in w.chain.accounts && w.chain.accounts[account].delegation.Some?
    requires SettleActive(w, i, account, j, last, treasury) == Some(w')
    ensures Lamports(w'.chain) == Lamports(w.chain)
  {
    AccountSet(w.chain.accounts, account, w'.chain.accounts[account]);
  }

  lemma UpdateActiveConserves(w: World, step: Step, w': World)
    requires step.DoUpdateActive? && Instruction(w, step) == Some(w')
    ensures Conserves(w, step, w')
  {
    var w1 := UpdateActiveCore(w, step.i, step.account, step.j, step.treasury).value;
    var s1, l1 := UpdateActiveSettles(w, step.i, step.account, step.j, step.treasury, w1);
    SettleActiveConserves(World(s1.(ledger := l1), w.chain), step.i, step.account, step.j,
                          w.state.ledger.stakes[step.i].lamports, step.treasury, w1);
  }

  lemma UpdateDeactivatedConserves(w: World, step: Step, w': World)
    requires step.DoUpdateDeactivated? && Instruction(w, step) == Some(w')
    ensures Conserves(w, step, w')
  {
    var w1 := UpdateDeactivatedCore(w, step.i, step.account, step.j, step.treasury).value;
    UpdateDeactivatedCollects(w, step.i, step.account, step.j, step.treasury, w1);
    PaysOut(w, step.i, step.account, step.j, step.treasury, w1);
    AccountOut(w.chain.accounts, step.account);
  }

  // ---------- the rest ----------

  lemma DepositStakeConserves(w: World, step: Step, w': World)
    requires step.DoDepositStakeAccount? && Instruction(w, step) == Some(w')
    ensures Conserves(w, step, w')
  {
    AccountSet(w.chain.accounts, step.account, w'.chain.accounts[step.account]);
  }

  lemma TradesConserve(w: World, step: Step, w': World)
    requires Trades(step)
    requires Instruction(w, step) == Some(w')
    ensures Conserves(w, step, w')
  {
    assert w'.chain.accounts == w.chain.accounts;
  }

  lemma TicketsConserve(w: World, step: Step, w': World)
    requires Tickets(step)
    requires Instruction(w, step) == Some(w')
    ensures Conserves(w, step, w')
  {
    assert w'.chain.accounts == w.chain.accounts;
  }

  lemma ListsConserve(w: World, step: Step, w': World)
    requires Lists(step) || step.Configure?
    requires Instruction(w, step) == Some(w')
    ensures Conserves(w, step, w')
  {
    assert w'.chain.accounts == w.chain.accounts;
  }

  /** Every instruction conserves lamports. */
  lemma InstructionConserves(w: World, step: Step, w': World)
    requires Instruction(w, step) == Some(w')
    ensures Conserves(w, step, w')
  {
    match step {
      case DoDepositStakeAccount(_, _) => DepositStakeConserves(w, step, w');
      case DoWithdrawStakeAccount(_, _, _, _, _, _) => WithdrawConserves(w, step, w');
      case DoStakeReserve(_, _, _) =>
        FreshStake(w, step, w');
        StakeReserveConserves(w, step, w');
      case DoDeactivateStake(_, _, _, _) =>
        FreshSplit(w, step, w');
        DeactivateStakeConserves(w, step, w');
      case DoPartialUnstake(_, _, _, _, _) =>
        FreshSplit(w, step, w');
        PartialUnstakeConserves(w, step, w');
      case DoEmergencyUnstake(_, _, _) => EmergencyUnstakeConserves(w, step, w');
      case DoMergeStakes(_, _, _, _, _, _) => MergeConserves(w, step, w');
      case DoCreateCanonicalStake(_, _, _) => CanonicalConserves(w, step, w');
      case DoUpdateActive(_, _, _, _) => UpdateActiveConserves(w, step, w');
      case DoUpdateDeactivated(_, _, _, _) => UpdateDeactivatedConserves(w, step, w');
      case _ =>
        if Trades(step) {
          TradesConserve(w, step, w');
        } else if Tickets(step) {
          TicketsConserve(w, step, w');
        } else {
          ListsConserve(w, step, w');
        }
    }
  }

  // ---------- over runs ----------

  /** What a run brings in, gifts and rewards of the rest of the chain included. */
  ghost function InflowOf(w: World, steps: seq<Step>): int
    decreases |steps|
  {
    if steps == [] then 0
    else
      var w1 := Next(w, steps[0]);
      (if steps[0].Elsewhere? then Lamports(w1.chain) - Lamports(w.chain)
       else if Instruction(w, steps[0]).Some? then Inflow(w, steps[0], w1)
       else 0)
      + InflowOf(w1, steps[1..])
  }

  /** So does every run. */
  lemma {:induction false} RunConserves(w: World, steps: seq<Step>)
    ensures Lamports(Run(w, steps).chain) == Lamports(w.chain) + InflowOf(w, steps)
    decreases |steps|
  {
    if steps != [] {
      if !steps[0].Elsewhere? && Instruction(w, steps[0]).Some? {
        InstructionConserves(w, steps[0], Next(w, steps[0]));
      }
      RunConserves(Next(w, steps[0]), steps[1..]);
    }
  }
}
