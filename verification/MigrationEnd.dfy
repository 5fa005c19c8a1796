/** How far the migration is from its end: a measure no step raises and every visit, removal and
    finalize call lowers. */
module MigrationEnd {
  import opened Base
  import opened Model
  import opened Instructions
  import opened Parts
  import opened Totals
  import opened Soundness
  import opened Migration
  import opened LedgerSafety
  import opened Runs
  import opened LedgerRuns
  import opened Upgrade
  import opened MigrationRuns
  import L = LedgerOps

  function AtLeastOne(n: int): nat {
    if n > 0 then n else 1
  }

  /** Records not visited and validators not finalized; a phase with nothing left to visit still
      takes one call to end. */
  function Remaining(w: World): nat {
    match w.state.ledger.upgrader
    case IteratingStakes(_, _, _) => AtLeastOne(Unvisited(w)) + AtLeastOne(|w.state.ledger.validators|)
    case IteratingValidators(next, _) => AtLeastOne(|w.state.ledger.validators| - next)
    case Done => 0
  }

  /** A call that takes the migration further: in phase 1 an update of an unvisited record, or of any
      when none is left, in phase 2 a finalize call. */
  predicate Advances(w: World, step: Step) {
    !step.Elsewhere? && Instruction(w, step).Some? &&
    match w.state.ledger.upgrader
    case IteratingStakes(_, _, _) =>
      step.DoUpdateDeactivated?
      || (step.DoUpdateActive? && step.i < |w.state.ledger.stakes|
          && (w.state.ledger.stakes[step.i].status.Unknown? || Unvisited(w) == 0))
    case IteratingValidators(next, _) =>
      step.DoFinalizeUpgrade? && (step.maxValidators > 0 || next == |w.state.ledger.validators|)
    case Done => false
  }

  lemma {:induction false} CountIgnoresAccounts(a: Accounts, a': Accounts, s: seq<StakeRecord>)
    ensures Total(CountUnknown, a, s) == Total(CountUnknown, a', s)
  {
    if s != [] {
      CountIgnoresAccounts(a, a', s[..|s| - 1]);
    }
  }

  lemma {:induction false} AllUnvisited(a: Accounts, s: seq<StakeRecord>)
    requires forall m :: 0 <= m < |s| ==> s[m].status.Unknown?
    ensures Total(CountUnknown, a, s) == |s|
  {
    if s != [] {
      AllUnvisited(a, s[..|s| - 1]);
    }
  }

  lemma UpdateActiveRemaining(w: World, step: Step, w': World)
    requires WorldOk(w) && !w.state.ledger.upgrader.Done?
    requires step.DoUpdateActive? && Instruction(w, step) == Some(w')
    ensures Remaining(w') <= Remaining(w)
    ensures Advances(w, step) ==> Remaining(w') < Remaining(w)
  {
    assert w.state.ledger.upgrader.IteratingStakes? by {
      var w1 := UpdateActiveCore(w, step.i, step.account, step.j, step.treasury).value;
      var l1 := UpdateActiveCoreLedger(w, step.i, step.account, step.j, step.treasury, w1);
    }
    VisitAdvances(w, step.i, step.account, step.j, step.treasury, w');
  }

  lemma UpdateDeactivatedRemaining(w: World, step: Step, w': World)
    requires WorldOk(w) && !w.state.ledger.upgrader.Done? && Allowed(w, step)
    requires step.DoUpdateDeactivated? && Instruction(w, step) == Some(w')
    ensures Remaining(w') <= Remaining(w)
    ensures Advances(w, step) ==> Remaining(w') < Remaining(w)
  {
    if w.state.ledger.upgrader.IteratingStakes? {
      CollectAdvances(w, step.i, step.account, step.j, step.treasury, w');
    } else {
      var w1 := UpdateDeactivatedCore(w, step.i, step.account, step.j, step.treasury).value;
      UpdateDeactivatedCollects(w, step.i, step.account, step.j, step.treasury, w1);
      CollectFollowsFinalizing(w.state.ledger, w1.state.ledger, step.i, step.j);
    }
  }

  lemma FinalizeRemaining(w: World, maxValidators: nat, w': World)
    requires WorldOk(w) && FinalizeUpgrade(w, maxValidators) == Some(w')
    ensures Remaining(w') <= Remaining(w)
    ensures Advances(w, DoFinalizeUpgrade(maxValidators)) ==> Remaining(w') < Remaining(w)
  {
    FinalizeAdvances(w, maxValidators);
    var hi := FinalizedLedger(w.state.ledger, w.chain.accounts, maxValidators);
  }

  lemma AddActiveKeepsPhase(l: Ledger, l': Ledger, account: Key, amount: nat, epoch: nat, j: nat, deltaEpoch: nat)
    requires j < |l.validators| && L.AddActive(l, account, amount, epoch, j, deltaEpoch) == Some(l')
    ensures l'.stakes == l.stakes + [StakeRecord(account, amount, epoch, false, Active)]
    ensures |l'.validators| == |l.validators|
    ensures if l.upgrader.IteratingStakes? then l'.upgrader.IteratingStakes? else l'.upgrader == l.upgrader
  {
  }

  lemma PushCountsNoUnknown(a: Accounts, a': Accounts, s: seq<StakeRecord>, r: StakeRecord)
    requires !r.status.Unknown?
    ensures Total(CountUnknown, a', s + [r]) == Total(CountUnknown, a, s)
  {
    CountIgnoresAccounts(a, a', s);
    TotalPush(CountUnknown, a', s, r);
  }

  lemma DepositRemaining(w: World, account: Key, j: nat, w': World)
    requires DepositStakeAccount(w, account, j) == Some(w')
    ensures Remaining(w') == Remaining(w)
  {
    DepositLedger(w, account, j, w');
    var amount, epoch := w.chain.accounts[account].delegation.value.stake, w.chain.clock.epoch;
    AddActiveKeepsPhase(w.state.ledger, w'.state.ledger, account, amount, epoch, j,
                        w.state.ledger.validators[j].lastDeltaEpoch);
    PushCountsNoUnknown(w.chain.accounts, w'.chain.accounts, w.state.ledger.stakes,
                        StakeRecord(account, amount, epoch, false, Active));
  }

  lemma ScoreRemaining(w: World, j: nat, vote: Key, score: nat, w': World)
    requires SetValidatorScore(w, j, vote, score) == Some(w')
    ensures Remaining(w') == Remaining(w)
  {
  }

  /** No allowed step makes the migration longer, and every advance makes it shorter. */
  lemma StepRemaining(w: World, step: Step)
    requires WorldOk(w) && Allowed(w, step)
    ensures Remaining(Next(w, step)) <= Remaining(w)
    ensures Advances(w, step) ==> Remaining(Next(w, step)) < Remaining(w)
  {
    if w.state.ledger.upgrader.Done? {
      DoneStays(w, step);
    } else if step.Elsewhere? {
      CountIgnoresAccounts(w.chain.accounts, Next(w, step).chain.accounts, w.state.ledger.stakes);
    } else if Instruction(w, step).Some? {
      var w' := Instruction(w, step).value;
      if NeedsDone(step) {
        NeedsDoneStays(w, step, w');
      } else if LeavesLedger(step) {
        LedgerUntouched(w, step, w');
      } else {
        match step {
          case DoDepositStakeAccount(account, j) => DepositRemaining(w, account, j, w');
          case DoUpdateActive(_, _, _, _) => UpdateActiveRemaining(w, step, w');
          case DoUpdateDeactivated(_, _, _, _) => UpdateDeactivatedRemaining(w, step, w');
          case DoFinalizeUpgrade(max) => FinalizeRemaining(w, max, w');
          case DoSetValidatorScore(j, vote, score) => ScoreRemaining(w, j, vote, score, w');
        }
      }
    }
  }

  /** How many steps of a run advance the migration. */
  ghost function AdvancesIn(w: World, steps: seq<Step>): nat
    decreases |steps|
  {
    if steps == [] then 0
    else (if Advances(w, steps[0]) then 1 else 0) + AdvancesIn(Next(w, steps[0]), steps[1..])
  }

  lemma {:induction false} RunRemaining(w: World, steps: seq<Step>)
    requires WorldOk(w) && AllowedRun(w, steps)
    ensures WorldOk(Run(w, steps)) && Remaining(Run(w, steps)) + AdvancesIn(w, steps) <= Remaining(w)
    decreases |steps|
  {
    if steps != [] {
      StepRemaining(w, steps[0]);
      NextOk(w, steps[0]);
      RunRemaining(Next(w, steps[0]), steps[1..]);
    }
  }

  /** How many advances the migration of a legacy state takes: whatever happens in between, no run
      advances it more often than it has records and validators, and one that advances it that often
      is done, with every total equal to the sum it stands for. Phase 2 can always be advanced;
      phase 1 exactly while every unvisited record's validator is listed. */
  lemma MigrationEnds(w: World, steps: seq<Step>)
    requires Legacy(w) && AllowedRun(w, steps)
    ensures var calls := AtLeastOne(|w.state.ledger.stakes|) + AtLeastOne(|w.state.ledger.validators|);
            var after := Run(w, steps);
            && AdvancesIn(w, steps) <= calls
            && (AdvancesIn(w, steps) == calls ==>
                  after.state.ledger.upgrader.Done? && WorldOk(after)
                  && Settled(after.state.ledger, after.chain.accounts))
  {
    LegacyIsOk(w);
    AllUnvisited(w.chain.accounts, w.state.ledger.stakes);
    RunRemaining(w, steps);
  }

  /** Phase 2 never waits for anybody: while the program is not paused a finalize call advances it. */
  lemma PhaseTwoAdvances(w: World, maxValidators: nat)
    requires WorldOk(w) && w.state.ledger.upgrader.IteratingValidators? && !w.state.cfg.paused && maxValidators > 0
    ensures Advances(w, DoFinalizeUpgrade(maxValidators))
  {
    FinalizeAdvances(w, maxValidators);
  }
}
