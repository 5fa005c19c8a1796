/** Runs without slashing: every record is backed by its account, records do not fall below the
    minimum stake, tickets never exceed the lamports under control, and the mSOL price never falls. */
module Solvency {
  import opened Base
  import opened Calc
  import opened Model
  import opened Instructions
  import opened Parts
  import opened Totals
  import opened Soundness
  import opened LedgerSafety
  import opened Runs
  import opened Frames
  import opened LedgerRuns
  import opened Books
  import P = Price
  import L = LedgerOps

  /** The account holds its rent and its delegation, at least the recorded one, which is at least
      `floor` while the stake is not cooling down. */
  predicate Sturdy(a: Accounts, r: StakeRecord, floor: nat) {
    && r.account in a && a[r.account].delegation.Some?
    && a[r.account].lamports >= a[r.account].rent + a[r.account].delegation.value.stake
    && a[r.account].delegation.value.stake >= r.lamports
    && (!r.status.Deactivating? ==> r.lamports >= floor)
  }

  ghost predicate AllSturdy(l: Ledger, a: Accounts, floor: nat) {
    forall m :: 0 <= m < |l.stakes| ==> Sturdy(a, l.stakes[m], floor)
  }

  /** Accounts but that of record `i` are what they were. */
  ghost predicate OthersSame(l: Ledger, a: Accounts, a': Accounts, i: nat)
    requires i < |l.stakes|
  {
    forall x :: x in a && x != l.stakes[i].account ==> x in a' && a'[x] == a[x]
  }

  lemma SturdySet(l: Ledger, l': Ledger, a: Accounts, a': Accounts, i: nat, floor: nat)
    requires WellFormed(l, a) && AllSturdy(l, a, floor)
    requires i < |l.stakes| == |l'.stakes| && l'.stakes == l.stakes[i := l'.stakes[i]]
    requires OthersSame(l, a, a', i) && Sturdy(a', l'.stakes[i], floor)
    ensures AllSturdy(l', a', floor)
  {
    forall m | 0 <= m < |l'.stakes| ensures Sturdy(a', l'.stakes[m], floor) {
      assert Sturdy(a, l.stakes[m], floor);
    }
  }

  lemma SturdySetPush(l: Ledger, l': Ledger, a: Accounts, a': Accounts, i: nat, floor: nat)
    requires WellFormed(l, a) && AllSturdy(l, a, floor)
    requires i < |l.stakes| && |l'.stakes| == |l.stakes| + 1
    requires l'.stakes == l.stakes[i := l'.stakes[i]] + [l'.stakes[|l.stakes|]]
    requires OthersSame(l, a, a', i) && Sturdy(a', l'.stakes[i], floor) && Sturdy(a', l'.stakes[|l.stakes|], floor)
    ensures AllSturdy(l', a', floor)
  {
    forall m | 0 <= m < |l'.stakes| ensures Sturdy(a', l'.stakes[m], floor) {
      if m < |l.stakes| {
        assert Sturdy(a, l.stakes[m], floor);
      }
    }
  }

  lemma SturdyPush(l: Ledger, l': Ledger, a: Accounts, a': Accounts, floor: nat)
    requires AllSturdy(l, a, floor)
    requires |l'.stakes| == |l.stakes| + 1 && l'.stakes == l.stakes + [l'.stakes[|l.stakes|]]
    requires forall x :: x in a && x != l'.stakes[|l.stakes|].account ==> x in a' && a'[x] == a[x]
    requires NewTo(l.stakes, l'.stakes[|l.stakes|].account)
    requires Sturdy(a', l'.stakes[|l.stakes|], floor)
    ensures AllSturdy(l', a', floor)
  {
    forall m | 0 <= m < |l'.stakes| ensures Sturdy(a', l'.stakes[m], floor) {
      if m < |l.stakes| {
        assert Sturdy(a, l.stakes[m], floor);
      }
    }
  }

  lemma SturdyRemove(l: Ledger, l': Ledger, a: Accounts, a': Accounts, i: nat, floor: nat)
    requires WellFormed(l, a) && AllSturdy(l, a, floor)
    requires i < |l.stakes| && l'.stakes == SwapRemove(l.stakes, i)
    requires OthersSame(l, a, a', i)
    ensures AllSturdy(l', a', floor)
  {
    forall m | 0 <= m < |l'.stakes| ensures Sturdy(a', l'.stakes[m], floor) {
      var o := Origin(|l.stakes|, i, m);
      assert l'.stakes[m] == l.stakes[o] && Sturdy(a, l.stakes[o], floor);
      assert l.stakes[o].account != l.stakes[i].account;
    }
  }

  // ---------- instructions ----------

  lemma DepositStakeAccountSturdy(w: World, account: Key, j: nat, w': World, floor: nat)
    requires WorldOk(w) && AllSturdy(w.state.ledger, w.chain.accounts, floor) && floor <= w.state.cfg.minStake
    requires DepositStakeAccount(w, account, j) == Some(w')
    ensures AllSturdy(w'.state.ledger, w'.chain.accounts, floor)
  {
    UnlistedAccount(w.state.ledger, w.chain.accounts, account);
    SturdyPush(w.state.ledger, w'.state.ledger, w.chain.accounts, w'.chain.accounts, floor);
  }

  lemma StakeReserveSturdy(w: World, j: nat, vote: Key, account: Key, w': World, floor: nat)
    requires WorldOk(w) && AllSturdy(w.state.ledger, w.chain.accounts, floor) && floor <= w.state.cfg.minStake
    requires StakeReserve(w, j, vote, account) == Some(w')
    ensures AllSturdy(w'.state.ledger, w'.chain.accounts, floor)
  {
    var w1, amount := StakeReserveDelegates(w, j, vote, account, w');
    if w' != w1 {
      UnlistedAccount(w.state.ledger, w.chain.accounts, account);
      SturdyPush(w.state.ledger, w'.state.ledger, w.chain.accounts, w'.chain.accounts, floor);
    }
  }

  lemma RetireSturdy(l: Ledger, l': Ledger, c: Chain, c': Chain, i: nat, j: nat, emergency: bool, floor: nat)
    requires WellFormed(l, c.accounts) && AllSturdy(l, c.accounts, floor)
    requires i < |l.stakes| && j < |l.validators| && L.Retire(l, i, j, emergency) == Some(l')
    requires CpiDeactivate(c, l.stakes[i].account) == Some(c')
    ensures AllSturdy(l', c'.accounts, floor)
  {
    RetireFollows(l, l', i, j, emergency);
    assert Sturdy(c.accounts, l.stakes[i], floor);
    SturdySet(l, l', c.accounts, c'.accounts, i, floor);
  }

  lemma SplitOffSturdy(l: Ledger, l': Ledger, c: Chain, c1: Chain, c': Chain, i: nat, j: nat, amount: nat,
                       account: Key, epoch: nat, emergency: bool, deltaEpoch: nat, floor: nat)
    requires WellFormed(l, c.accounts) && AllSturdy(l, c.accounts, floor)
    requires i < |l.stakes| && j < |l.validators|
    requires L.SplitOff(l, i, j, amount, account, epoch, emergency, deltaEpoch) == Some(l')
    requires amount <= l.stakes[i].lamports && l.stakes[i].lamports - amount >= floor
    requires CpiSplit(c, l.stakes[i].account, amount, account, true) == Some(c1) && CpiDeactivate(c1, account) == Some(c')
    ensures AllSturdy(l', c'.accounts, floor)
  {
    SplitOffFollows(l, l', i, j, amount, account, epoch, emergency, deltaEpoch);
    assert Sturdy(c.accounts, l.stakes[i], floor);
    SturdySetPush(l, l', c.accounts, c'.accounts, i, floor);
  }

  lemma CoolWholeSturdy(w: World, i: nat, account: Key, j: nat, emergency: bool, w': World, floor: nat)
    requires WorldOk(w) && AllSturdy(w.state.ledger, w.chain.accounts, floor)
    requires Unstakable(w, i, account, j) && CoolWhole(w, i, account, j, emergency) == Some(w')
    ensures AllSturdy(w'.state.ledger, w'.chain.accounts, floor)
  {
    RetireSturdy(w.state.ledger, w'.state.ledger, w.chain, w'.chain, i, j, emergency, floor);
  }

  lemma CoolPartSturdy(w: World, i: nat, account: Key, j: nat, amount: nat, splitAccount: Key, emergency: bool,
                       deltaEpoch: nat, w': World, floor: nat)
    requires WorldOk(w) && AllSturdy(w.state.ledger, w.chain.accounts, floor)
    requires Unstakable(w, i, account, j) && splitAccount !in w.chain.accounts
    requires amount <= w.state.ledger.stakes[i].lamports && w.state.ledger.stakes[i].lamports - amount >= floor
    requires CoolPart(w, i, account, j, amount, splitAccount, emergency, deltaEpoch) == Some(w')
    ensures AllSturdy(w'.state.ledger, w'.chain.accounts, floor)
  {
    var c1 := CpiSplit(w.chain, account, amount, splitAccount, true).value;
    SplitOffSturdy(w.state.ledger, w'.state.ledger, w.chain, c1, w'.chain, i, j, amount, splitAccount,
                   w.chain.clock.epoch, emergency, deltaEpoch, floor);
  }

  lemma DeactivateStakeSturdy(w: World, i: nat, account: Key, j: nat, splitAccount: Key, w': World, floor: nat)
    requires WorldOk(w) && AllSturdy(w.state.ledger, w.chain.accounts, floor) && floor <= w.state.cfg.minStake
    requires DeactivateStake(w, i, account, j, splitAccount) == Some(w')
    ensures AllSturdy(w'.state.ledger, w'.chain.accounts, floor)
  {
    var amount := DeactivateStakeCools(w, i, account, j, splitAccount, w');
    if CoolWhole(Marked(w), i, account, j, false) == Some(w') {
      CoolWholeSturdy(Marked(w), i, account, j, false, w', floor);
    } else if w' != w {
      CoolPartSturdy(Marked(w), i, account, j, amount, splitAccount, false, w.chain.clock.epoch, w', floor);
    }
  }

  lemma EmergencyUnstakeSturdy(w: World, i: nat, account: Key, j: nat, w': World, floor: nat)
    requires WorldOk(w) && AllSturdy(w.state.ledger, w.chain.accounts, floor)
    requires EmergencyUnstake(w, i, account, j) == Some(w')
    ensures AllSturdy(w'.state.ledger, w'.chain.accounts, floor)
  {
    RetireSturdy(w.state.ledger, w'.state.ledger, w.chain, w'.chain, i, j, true, floor);
  }

  lemma PartialUnstakeSturdy(w: World, i: nat, account: Key, j: nat, desired: nat, splitAccount: Key, w': World, floor: nat)
    requires WorldOk(w) && AllSturdy(w.state.ledger, w.chain.accounts, floor) && floor <= w.state.cfg.minStake
    requires PartialUnstake(w, i, account, j, desired, splitAccount) == Some(w')
    ensures AllSturdy(w'.state.ledger, w'.chain.accounts, floor)
  {
    if w' != w {
      var w1, moved := PartialUnstakeCools(w, i, account, j, desired, splitAccount, w');
      if CoolWhole(w1, i, account, j, true) == Some(w') {
        CoolWholeSturdy(w1, i, account, j, true, w', floor);
      } else {
        CoolPartSturdy(w1, i, account, j, moved, splitAccount, true, w.state.ledger.validators[j].lastDeltaEpoch, w', floor);
      }
    }
  }

  lemma WithdrawStakeAccountSturdy(w: World, i: nat, account: Key, j: nat, msol: nat, treasury: bool,
                                   splitAccount: Key, w': World, floor: nat)
    requires WorldOk(w) && AllSturdy(w.state.ledger, w.chain.accounts, floor) && floor <= w.state.cfg.minStake
    requires WithdrawStakeAccount(w, i, account, j, msol, treasury, splitAccount) == Some(w')
    ensures AllSturdy(w'.state.ledger, w'.chain.accounts, floor)
  {
    var split, burned := WithdrawSplits(w, i, account, j, msol, treasury, splitAccount, w');
    assert Sturdy(w.chain.accounts, w.state.ledger.stakes[i], floor);
    SturdySet(w.state.ledger, w'.state.ledger, w.chain.accounts, w'.chain.accounts, i, floor);
  }

  lemma MergeStakesSturdy(w: World, dst: nat, dstAccount: Key, src: nat, srcAccount: Key, j: nat, merged: nat,
                          w': World, floor: nat)
    requires WorldOk(w) && AllSturdy(w.state.ledger, w.chain.accounts, floor)
    requires MergeStakes(w, dst, dstAccount, src, srcAccount, j, merged) == Some(w')
    ensures AllSturdy(w'.state.ledger, w'.chain.accounts, floor)
  {
    var l, a, a' := w.state.ledger, w.chain.accounts, w'.chain.accounts;
    var t := l.stakes[dst := l.stakes[dst].(lamports := merged)];
    assert Sturdy(a, l.stakes[dst], floor) && Sturdy(a, l.stakes[src], floor);
    forall m | 0 <= m < |w'.state.ledger.stakes| ensures Sturdy(a', w'.state.ledger.stakes[m], floor) {
      var o := Origin(|t|, src, m);
      assert w'.state.ledger.stakes[m] == t[o] && Sturdy(a, l.stakes[o], floor);
      assert l.stakes[o].account != srcAccount;
    }
  }

  lemma CreateCanonicalStakeSturdy(w: World, i: nat, account: Key, j: nat, w': World, floor: nat)
    requires WorldOk(w) && AllSturdy(w.state.ledger, w.chain.accounts, floor)
    requires CreateCanonicalStake(w, i, account, j) == Some(w')
    ensures AllSturdy(w'.state.ledger, w'.chain.accounts, floor)
  {
    var l, l' := w.state.ledger, w'.state.ledger;
    assert RecordOk(w.chain.accounts, l.stakes[i]) && Sturdy(w.chain.accounts, l.stakes[i], floor);
    PushSwapRemove(l.stakes, StakeRecord(CanonicalStake(l.validators[j].vote), l.stakes[i].lamports,
                                         w.chain.clock.epoch, false, Active), i);
    SturdySet(l, l', w.chain.accounts, w'.chain.accounts, i, floor);
  }

  lemma UpdateActiveSturdy(w: World, i: nat, account: Key, j: nat, treasury: bool, w': World, floor: nat)
    requires WorldOk(w) && AllSturdy(w.state.ledger, w.chain.accounts, floor)
    requires UpdateActiveCore(w, i, account, j, treasury) == Some(w')
    ensures AllSturdy(w'.state.ledger, w'.chain.accounts, floor)
  {
    var l, a := w.state.ledger, w.chain.accounts;
    var l1 := UpdateActiveCoreLedger(w, i, account, j, treasury, w');
    var stake := a[account].delegation.value.stake;
    RecognizeShape(l, l1, i, j);
    ObserveShape(l1, w'.state.ledger, i, j, stake, w.chain.clock.epoch);
    assert Sturdy(a, l.stakes[i], floor);
    assert w'.chain.accounts[account].lamports == a[account].rent + stake;
    SturdySet(l, w'.state.ledger, a, w'.chain.accounts, i, floor);
  }

  lemma UpdateDeactivatedSturdy(w: World, i: nat, account: Key, j: nat, treasury: bool, w': World, floor: nat)
    requires WorldOk(w) && AllSturdy(w.state.ledger, w.chain.accounts, floor)
    requires UpdateDeactivatedCore(w, i, account, j, treasury) == Some(w')
    ensures AllSturdy(w'.state.ledger, w'.chain.accounts, floor)
  {
    UpdateDeactivatedCollects(w, i, account, j, treasury, w');
    CollectShape(w.state.ledger, w'.state.ledger, i, j);
    SturdyRemove(w.state.ledger, w'.state.ledger, w.chain.accounts, w'.chain.accounts, i, floor);
  }

  // ---------- runs ----------

  /** Elsewhere no stake of the program is slashed, and its accounts keep their rent. */
  ghost predicate NoSlash(a: Accounts, a': Accounts) {
    forall x :: x in a && a[x].ours && a[x].delegation.Some? && x in a' && a'[x].delegation.Some? ==>
      && a'[x].delegation.value.stake >= a[x].delegation.value.stake
      && a'[x].lamports >= a'[x].rent + a'[x].delegation.value.stake
  }

  /** No slashing, and no setting of the minimum stake below `floor`. */
  ghost predicate Gentle(w: World, step: Step, floor: nat) {
    && (step.Elsewhere? ==> NoSlash(w.chain.accounts, step.after.accounts))
    && (step.Configure? ==> step.cfg.minStake >= floor)
    && Allowed(w, step)
  }

  ghost predicate GentleRun(w: World, steps: seq<Step>, floor: nat)
    decreases |steps|
  {
    steps == [] || (Gentle(w, steps[0], floor) && GentleRun(Next(w, steps[0]), steps[1..], floor))
  }

  /** Sound ledger, honest books, backed records, covered tickets. */
  ghost predicate Solvent(w: World, floor: nat) {
    && WorldOk(w) && P.Covered(w) && TicketsOk(w)
    && AllSturdy(w.state.ledger, w.chain.accounts, floor)
    && floor <= w.state.cfg.minStake && ValidConfig(w.state.cfg)
    && w.state.ticketBalance <= Control(w.state)
  }

  lemma ElsewhereSturdy(w: World, after: Chain, floor: nat)
    requires WorldOk(w) && Permitted(w.chain, after) && NoSlash(w.chain.accounts, after.accounts)
    requires AllSturdy(w.state.ledger, w.chain.accounts, floor)
    ensures AllSturdy(w.state.ledger, after.accounts, floor)
  {
    var l, a := w.state.ledger, w.chain.accounts;
    forall m | 0 <= m < |l.stakes| ensures Sturdy(after.accounts, l.stakes[m], floor) {
      assert Sturdy(a, l.stakes[m], floor) && RecordOk(a, l.stakes[m]);
      assert StillOurs(a, after.accounts, l.stakes[m].account);
    }
  }

  lemma InstructionSturdy(w: World, step: Step, w': World, floor: nat)
    requires WorldOk(w) && AllSturdy(w.state.ledger, w.chain.accounts, floor) && floor <= w.state.cfg.minStake
    requires Instruction(w, step) == Some(w')
    ensures AllSturdy(w'.state.ledger, w'.chain.accounts, floor)
  {
    match step {
      case DoDepositStakeAccount(account, j) => DepositStakeAccountSturdy(w, account, j, w', floor);
      case DoWithdrawStakeAccount(i, account, j, msol, treasury, split) =>
        WithdrawStakeAccountSturdy(w, i, account, j, msol, treasury, split, w', floor);
      case DoStakeReserve(j, vote, account) => StakeReserveSturdy(w, j, vote, account, w', floor);
      case DoDeactivateStake(i, account, j, split) => DeactivateStakeSturdy(w, i, account, j, split, w', floor);
      case DoEmergencyUnstake(i, account, j) => EmergencyUnstakeSturdy(w, i, account, j, w', floor);
      case DoPartialUnstake(i, account, j, desired, split) =>
        PartialUnstakeSturdy(w, i, account, j, desired, split, w', floor);
      case DoMergeStakes(dst, dstAccount, src, srcAccount, j, merged) =>
        MergeStakesSturdy(w, dst, dstAccount, src, srcAccount, j, merged, w', floor);
      case DoCreateCanonicalStake(i, account, j) => CreateCanonicalStakeSturdy(w, i, account, j, w', floor);
      case DoUpdateActive(i, account, j, treasury) => UpdateActiveSettles(w, i, account, j, treasury, w', floor);
      case DoUpdateDeactivated(i, account, j, treasury) => UpdateDeactivatedSettles(w, i, account, j, treasury, w', floor);
      case _ => StakesUntouched(w, step, w');
    }
  }

  lemma UpdateActiveSettles(w: World, i: nat, account: Key, j: nat, treasury: bool, w': World, floor: nat)
    requires WorldOk(w) && AllSturdy(w.state.ledger, w.chain.accounts, floor)
    requires UpdateActive(w, i, account, j, treasury) == Some(w')
    ensures AllSturdy(w'.state.ledger, w'.chain.accounts, floor)
  {
    UpdateActiveSturdy(w, i, account, j, treasury, UpdateActiveCore(w, i, account, j, treasury).value, floor);
  }

  lemma UpdateDeactivatedSettles(w: World, i: nat, account: Key, j: nat, treasury: bool, w': World, floor: nat)
    requires WorldOk(w) && AllSturdy(w.state.ledger, w.chain.accounts, floor)
    requires UpdateDeactivated(w, i, account, j, treasury) == Some(w')
    ensures AllSturdy(w'.state.ledger, w'.chain.accounts, floor)
  {
    UpdateDeactivatedSturdy(w, i, account, j, treasury, UpdateDeactivatedCore(w, i, account, j, treasury).value, floor);
  }

  /** The other instructions touch neither the stake records nor the stake accounts. */
  lemma StakesUntouched(w: World, step: Step, w': World)
    requires Instruction(w, step) == Some(w')
    requires LeavesLedger(step) || step.DoFinalizeUpgrade? || step.DoAddValidator? || step.DoRemoveValidator?
             || step.DoSetValidatorScore?
    ensures w'.state.ledger.stakes == w.state.ledger.stakes && w'.chain.accounts == w.chain.accounts
  {
    if LeavesLedger(step) {
      LedgerUntouched(w, step, w');
    }
  }

  // ---------- solvency ----------

  lemma OrderUnstakeSolvent(w: World, msol: nat, ticket: Key, w': World)
    requires P.Covered(w) && w.state.ticketBalance <= Control(w.state)
    requires OrderUnstake(w, msol, ticket) == Some(w')
    ensures w'.state.ticketBalance <= Control(w'.state)
  {
    if w.state.msolSupply > 0 {
      P.OrderUnstakeKeepsPrice(w, msol, ticket, w');
    }
  }

  lemma WithdrawSolvent(w: World, i: nat, account: Key, j: nat, msol: nat, treasury: bool, splitAccount: Key, w': World)
    requires P.Covered(w) && w.state.ticketBalance <= Control(w.state)
    requires WithdrawStakeAccount(w, i, account, j, msol, treasury, splitAccount) == Some(w')
    ensures w'.state.ticketBalance <= Control(w'.state)
  {
    var split, burned := P.WithdrawParts(w, i, account, j, msol, treasury, splitAccount, w');
    if w.state.msolSupply > 0 {
      P.SplitIsCovered(w.state, msol, split);
    }
  }

  lemma UpdateActiveSolvent(w: World, i: nat, account: Key, j: nat, treasury: bool, w': World)
    requires P.Covered(w) && w.state.ticketBalance <= Control(w.state)
    requires AllSturdy(w.state.ledger, w.chain.accounts, 0)
    requires UpdateActiveCore(w, i, account, j, treasury) == Some(w')
    ensures w'.state.ticketBalance <= Control(w'.state)
  {
    var s1, s2, s3, extra := P.UpdateActiveStages(w, i, account, j, treasury, w');
    var l1 := L.Recognize(w.state.ledger, i, j).value;
    var stake := w.chain.accounts[account].delegation.value.stake;
    assert Sturdy(w.chain.accounts, w.state.ledger.stakes[i], 0);
    P.VisitTotals(w.state.ledger, l1, w'.state.ledger, i, j, stake, w.chain.clock.epoch);
    CreditExtraGrows(s1.(ledger := l1), extra, treasury, s2);
  }

  lemma UpdateDeactivatedSolvent(w: World, i: nat, account: Key, j: nat, treasury: bool, w': World)
    requires P.Covered(w) && w.state.ticketBalance <= Control(w.state)
    requires AllSturdy(w.state.ledger, w.chain.accounts, 0)
    requires UpdateDeactivatedCore(w, i, account, j, treasury) == Some(w')
    ensures w'.state.ticketBalance <= Control(w'.state)
  {
    P.UpdateDeactivatedCoreControl(w, i, account, j, treasury, w');
    var s1, s2, s3 := P.UpdateDeactivatedStages(w, i, account, j, treasury, w');
    assert Sturdy(w.chain.accounts, w.state.ledger.stakes[i], 0);
  }

  lemma SturdyAtZero(l: Ledger, a: Accounts, floor: nat)
    requires AllSturdy(l, a, floor)
    ensures AllSturdy(l, a, 0)
  {
    forall m | 0 <= m < |l.stakes| ensures Sturdy(a, l.stakes[m], 0) {
      assert Sturdy(a, l.stakes[m], floor);
    }
  }

  lemma InstructionSolvent(w: World, step: Step, w': World, floor: nat)
    requires Solvent(w, floor) && Instruction(w, step) == Some(w')
    ensures w'.state.ticketBalance <= Control(w'.state)
  {
    SturdyAtZero(w.state.ledger, w.chain.accounts, floor);
    if MovesStake(step) {
      MovingIsQuiet(w, step, w');
    } else {
      match step {
        case DoOrderUnstake(msol, ticket) => OrderUnstakeSolvent(w, msol, ticket, w');
        case DoWithdrawStakeAccount(i, account, j, msol, treasury, split) =>
          WithdrawSolvent(w, i, account, j, msol, treasury, split, w');
        case DoUpdateActive(i, account, j, treasury) =>
          UpdateActiveSolvent(w, i, account, j, treasury, UpdateActiveCore(w, i, account, j, treasury).value);
        case DoUpdateDeactivated(i, account, j, treasury) =>
          UpdateDeactivatedSolvent(w, i, account, j, treasury, UpdateDeactivatedCore(w, i, account, j, treasury).value);
        case _ => DepositsAreSolvent(w, step, w');
      }
    }
  }

  lemma DepositsAreSolvent(w: World, step: Step, w': World)
    requires w.state.ticketBalance <= Control(w.state) && Instruction(w, step) == Some(w')
    requires step.DoDeposit? || step.DoDepositStakeAccount? || step.DoClaim? || step.DoLiquidUnstake?
             || step.DoAddLiquidity? || step.DoRemoveLiquidity? || step.Configure?
    ensures w'.state.ticketBalance <= Control(w'.state)
  {
  }

  lemma NextSolvent(w: World, step: Step, floor: nat)
    requires Solvent(w, floor) && Gentle(w, step, floor)
    ensures Solvent(Next(w, step), floor)
  {
    NextOk(w, step);
    NextBooks(w, step);
    if step.Elsewhere? {
      if Permitted(w.chain, step.after) {
        ElsewhereSturdy(w, step.after, floor);
      }
    } else if Instruction(w, step).Some? {
      var w' := Instruction(w, step).value;
      InstructionSturdy(w, step, w', floor);
      InstructionSolvent(w, step, w', floor);
      InstructionLeaves(w, step, w');
    }
  }

  /** Without slashing, on every run: tickets never exceed the lamports under control, so the
      saturating subtraction of the virtual stake is exact; every record is backed by its account;
      and no live record is below the smallest minimum stake of the run. */
  lemma {:induction false} RunSolvent(w: World, steps: seq<Step>, floor: nat)
    requires Solvent(w, floor) && GentleRun(w, steps, floor)
    ensures Solvent(Run(w, steps), floor)
    ensures Virtual(Run(w, steps).state) == Control(Run(w, steps).state) - Run(w, steps).state.ticketBalance
    decreases |steps|
  {
    if steps != [] {
      NextSolvent(w, steps[0], floor);
      RunSolvent(Next(w, steps[0]), steps[1..], floor);
    }
  }

  lemma InitializedIsSolvent(w: World, floor: nat)
    requires Initialized(w) && floor <= w.state.cfg.minStake
    ensures Solvent(w, floor)
  {
  }

  /** From initialize on, without slashing: the live tickets are covered by the lamports under
      control, and no stake that is not cooling down is below the smallest minimum stake in force. */
  lemma TicketsAreAlwaysCovered(w: World, steps: seq<Step>, floor: nat)
    requires Initialized(w) && floor <= w.state.cfg.minStake && GentleRun(w, steps, floor)
    ensures var now := Run(w, steps);
            && TicketSum(now.chain.tickets) <= Control(now.state)
            && Virtual(now.state) + TicketSum(now.chain.tickets) == Control(now.state)
            && forall m :: 0 <= m < |now.state.ledger.stakes| && !now.state.ledger.stakes[m].status.Deactivating? ==>
                             now.state.ledger.stakes[m].lamports >= floor
  {
    InitializedIsSolvent(w, floor);
    RunSolvent(w, steps, floor);
    var now := Run(w, steps);
    forall m | 0 <= m < |now.state.ledger.stakes| && !now.state.ledger.stakes[m].status.Deactivating?
      ensures now.state.ledger.stakes[m].lamports >= floor
    {
      assert Sturdy(now.chain.accounts, now.state.ledger.stakes[m], floor);
    }
  }
}
