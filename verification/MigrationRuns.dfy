/** The migration over runs: it starts soundly from a legacy state, every visit advances it, none of
    its checks stops it, and what it calls delinquent does not depend on the order of visits. */
module MigrationRuns {
  import opened Base
  import opened Model
  import opened Instructions
  import opened Parts
  import opened Totals
  import opened Soundness
  import opened Migration
  import opened LedgerSafety
  import opened Runs
  import opened LedgerRuns
  import opened Upgrade
  import L = LedgerOps

  // ---------- the start ----------

  /** A state from before the upgrade: no record has a status, the recorded stakes add up to the
      active and the cooling totals, what is cooling is covered by deactivated accounts, and each
      validator's balance covers the live stake voting for it. */
  ghost predicate Legacy(w: World) {
    var l, a := w.state.ledger, w.chain.accounts;
    && WellFormed(l, a)
    && (forall vote :: vote in w.chain.flags <==> Listed(l.validators, vote))
    && l.upgrader == IteratingStakes(0, 0, 0)
    && (forall m :: 0 <= m < |l.stakes| ==> l.stakes[m].status.Unknown?)
    && Total(LegacyLive, a, l.stakes) + Total(LegacyDelayed, a, l.stakes) + Total(LegacyEmergency, a, l.stakes)
       == l.totalActive + l.delayedCooling + l.emergencyCooling
    && l.delayedCooling <= Total(LegacyDelayed, a, l.stakes)
    && l.emergencyCooling <= Total(LegacyEmergency, a, l.stakes)
    && Sum(Balance, l.validators) == l.totalActive
    && (forall j :: 0 <= j < |l.validators| ==>
          && l.validators[j].upgraderBalance == 0
          && l.validators[j].balance >= Total(LegacyLiveFor(l.validators[j].vote), a, l.stakes))
    && (forall vote :: !Listed(l.validators, vote) ==> Total(LegacyLiveFor(vote), a, l.stakes) == 0)
  }

  lemma {:induction false} NoneActive(a: Accounts, s: seq<StakeRecord>, vote: Key)
    requires forall m :: 0 <= m < |s| ==> s[m].status.Unknown?
    ensures Total(CountActive, a, s) == Total(ActiveStake, a, s) == Total(ActiveFor(vote), a, s) == 0
  {
    if s != [] {
      NoneActive(a, s[..|s| - 1], vote);
    }
  }

  lemma {:induction false} NoneUpgraded(vs: seq<ValidatorRecord>)
    requires forall j :: 0 <= j < |vs| ==> vs[j].upgraderBalance == 0
    ensures Sum(Upgraded, vs) == 0
  {
    if vs != [] {
      NoneUpgraded(vs[..|vs| - 1]);
    }
  }

  lemma LegacyIsOk(w: World)
    requires Legacy(w)
    ensures WorldOk(w)
  {
    var l, a := w.state.ledger, w.chain.accounts;
    forall vote ensures Total(ActiveFor(vote), a, l.stakes) == 0 {
      NoneActive(a, l.stakes, vote);
    }
    NoneActive(a, l.stakes, Address(0));
    NoneUpgraded(l.validators);
    assert Migrating(l, a);
  }

  /** From a legacy state any interleaving of updates, deposits, finalize calls and everything else
      keeps the invariant of the phase, as long as update_deactivated is only called where the
      migration can bear it; a migration that has ended leaves every total the sum it stands for. */
  lemma MigrationStaysSound(w: World, steps: seq<Step>)
    requires Legacy(w) && AllowedRun(w, steps)
    ensures WorldOk(Run(w, steps))
    ensures Run(w, steps).state.ledger.upgrader.Done? ==>
              Settled(Run(w, steps).state.ledger, Run(w, steps).chain.accounts)
  {
    LegacyIsOk(w);
    RunOk(w, steps);
  }

  // ---------- progress ----------

  function Unvisited(w: World): nat {
    Total(CountUnknown, w.chain.accounts, w.state.ledger.stakes)
  }

  /** A successful update_active of phase 1 lowers the number of unvisited records when the record
      was one of them, and phase 2 starts exactly when none is left. */
  lemma VisitAdvances(w: World, i: nat, account: Key, j: nat, treasury: bool, w': World)
    requires WorldOk(w) && w.state.ledger.upgrader.IteratingStakes?
    requires UpdateActive(w, i, account, j, treasury) == Some(w')
    ensures WorldOk(w') && i < |w.state.ledger.stakes|
    ensures Unvisited(w') == if w.state.ledger.stakes[i].status.Unknown? then Unvisited(w) - 1 else Unvisited(w)
    ensures if Unvisited(w') == 0 then w'.state.ledger.upgrader.IteratingValidators?
            else w'.state.ledger.upgrader.IteratingStakes?
    ensures |w'.state.ledger.validators| == |w.state.ledger.validators| && Drawing(w'.state.ledger.upgrader)
  {
    UpdateActiveOk(w, i, account, j, treasury);
    var w1 := UpdateActiveCore(w, i, account, j, treasury).value;
    UpdateActiveCoreOk(w, i, account, j, treasury, w1);
    var l1 := UpdateActiveCoreLedger(w, i, account, j, treasury, w1);
    RecognizeShape(w.state.ledger, l1, i, j);
    ObserveShape(l1, w1.state.ledger, i, j, w.chain.accounts[account].delegation.value.stake, w.chain.clock.epoch);
    ProgressSound(w1.state.ledger, w1.chain.accounts);
  }

  /** The same for update_deactivated, which removes an unvisited record. */
  lemma CollectAdvances(w: World, i: nat, account: Key, j: nat, treasury: bool, w': World)
    requires WorldOk(w) && w.state.ledger.upgrader.IteratingStakes? && MayCollect(w, i, j)
    requires UpdateDeactivated(w, i, account, j, treasury) == Some(w')
    ensures WorldOk(w') && Unvisited(w') == Unvisited(w) - 1
    ensures if Unvisited(w') == 0 then w'.state.ledger.upgrader.IteratingValidators?
            else w'.state.ledger.upgrader.IteratingStakes?
    ensures |w'.state.ledger.validators| == |w.state.ledger.validators| && Drawing(w'.state.ledger.upgrader)
  {
    UpdateDeactivatedOk(w, i, account, j, treasury);
    var w1 := UpdateDeactivatedCore(w, i, account, j, treasury).value;
    UpdateDeactivatedCoreOk(w, i, account, j, treasury, w1);
    UpdateDeactivatedCollects(w, i, account, j, treasury, w1);
    CollectShape(w.state.ledger, w1.state.ledger, i, j);
    CollectKeepsVisited(w.state.ledger, w1.state.ledger, i, j);
    ProgressSound(w1.state.ledger, w1.chain.accounts);
  }

  lemma CollectKeepsVisited(l: Ledger, l': Ledger, i: nat, j: nat)
    requires l.upgrader.IteratingStakes? && i < |l.stakes| && j < |l.validators|
    requires L.Collect(l, i, j) == Some(l')
    ensures l'.upgrader.IteratingStakes? && l'.upgrader.visited == l.upgrader.visited
  {
  }

  /** A finalize call of phase 2 never fails, and one that reaches the last validator ends the
      migration with the settled ledger. */
  lemma FinalizeAdvances(w: World, maxValidators: nat)
    requires WorldOk(w) && w.state.ledger.upgrader.IteratingValidators? && !w.state.cfg.paused
    ensures FinalizeUpgrade(w, maxValidators).Some?
    ensures var w' := FinalizeUpgrade(w, maxValidators).value;
            if w.state.ledger.upgrader.next + maxValidators >= |w.state.ledger.validators|
            then w'.state.ledger.upgrader.Done? && Settled(w'.state.ledger, w'.chain.accounts)
            else w'.state.ledger.upgrader.IteratingValidators?
                 && w'.state.ledger.upgrader.next == w.state.ledger.upgrader.next + maxValidators
  {
    FinalizeSound(w.state.ledger, w.chain.accounts, maxValidators);
    var hi := FinalizedLedger(w.state.ledger, w.chain.accounts, maxValidators);
  }

  // ---------- the delinquent balance of a run ----------

  /** The record a step removes, if it removes one. */
  ghost function RemovedBy(w: World, step: Step): seq<StakeRecord> {
    if step.DoUpdateDeactivated? && Instruction(w, step).Some? && step.i < |w.state.ledger.stakes|
    then [w.state.ledger.stakes[step.i]] else []
  }

  ghost function RemovedIn(w: World, steps: seq<Step>): seq<StakeRecord>
    decreases |steps|
  {
    if steps == [] then [] else RemovedBy(w, steps[0]) + RemovedIn(Next(w, steps[0]), steps[1..])
  }

  /** What the migration holds to be delinquent: phase 1 adds it up, phase 2 works it off. */
  function Delinquent(u: Upgrader): nat {
    match u
    case IteratingStakes(_, _, delinquent) => delinquent
    case IteratingValidators(_, left) => left
    case Done => 0
  }

  /** Phase 1, or the moment it hands over to phase 2. */
  predicate Drawing(u: Upgrader) {
    u.IteratingStakes? || (u.IteratingValidators? && u.next == 0)
  }

  /** The cooling buckets and the delinquent balance after drawing `delayed` and `emergency`. */
  predicate Drawn(l: Ledger, l': Ledger, delayed: nat, emergency: nat) {
    && l.upgrader.IteratingStakes? && Drawing(l'.upgrader)
    && l'.delayedCooling == SaturatingSub(l.delayedCooling, delayed)
    && l'.emergencyCooling == SaturatingSub(l.emergencyCooling, emergency)
    && Delinquent(l'.upgrader) == l.upgrader.delinquent + SaturatingSub(delayed, l.delayedCooling)
                                  + SaturatingSub(emergency, l.emergencyCooling)
  }

  lemma DepositDraws(w: World, account: Key, j: nat, w': World)
    requires w.state.ledger.upgrader.IteratingStakes? && DepositStakeAccount(w, account, j) == Some(w')
    ensures Drawn(w.state.ledger, w'.state.ledger, 0, 0)
  {
    DepositLedger(w, account, j, w');
  }

  lemma VisitDraws(l: Ledger, l1: Ledger, l2: Ledger, i: nat, j: nat, stake: nat, epoch: nat)
    requires l.upgrader.IteratingStakes? && i < |l.stakes| && j < |l.validators|
    requires L.Recognize(l, i, j) == Some(l1) && L.Observe(l1, i, j, stake, epoch) == Some(l2)
    ensures Drawn(l, l2, 0, 0) && l2.upgrader.IteratingStakes?
  {
  }

  /** The progression check only hands the delinquent balance over. */
  lemma ProgressDraws(l: Ledger, l1: Ledger, l2: Ledger, delayed: nat, emergency: nat)
    requires Drawn(l, l1, delayed, emergency) && l1.upgrader.IteratingStakes? && L.Progress(l1) == Some(l2)
    ensures Drawn(l, l2, delayed, emergency)
  {
  }

  lemma UpdateActiveDraws(w: World, i: nat, account: Key, j: nat, treasury: bool, w': World)
    requires w.state.ledger.upgrader.IteratingStakes?
    requires UpdateActive(w, i, account, j, treasury) == Some(w')
    ensures Drawn(w.state.ledger, w'.state.ledger, 0, 0)
  {
    var w1 := UpdateActiveCore(w, i, account, j, treasury).value;
    var l1 := UpdateActiveCoreLedger(w, i, account, j, treasury, w1);
    VisitDraws(w.state.ledger, l1, w1.state.ledger, i, j, w.chain.accounts[account].delegation.value.stake,
               w.chain.clock.epoch);
    ProgressDraws(w.state.ledger, w1.state.ledger, w'.state.ledger, 0, 0);
  }

  lemma CollectDraws(l: Ledger, l': Ledger, i: nat, j: nat)
    requires l.upgrader.IteratingStakes? && i < |l.stakes| && j < |l.validators|
    requires !l.stakes[i].status.Active? && L.Collect(l, i, j) == Some(l')
    ensures Drawn(l, l', DrawnDelayed([l.stakes[i]]), DrawnEmergency([l.stakes[i]])) && l'.upgrader.IteratingStakes?
  {
    DrawnOfOne(l.stakes[i]);
  }

  lemma UpdateDeactivatedDraws(w: World, i: nat, account: Key, j: nat, treasury: bool, w': World)
    requires w.state.ledger.upgrader.IteratingStakes?
    requires MayCollect(w, i, j) && UpdateDeactivated(w, i, account, j, treasury) == Some(w')
    ensures i < |w.state.ledger.stakes|
    ensures Drawn(w.state.ledger, w'.state.ledger, DrawnDelayed([w.state.ledger.stakes[i]]),
                  DrawnEmergency([w.state.ledger.stakes[i]]))
  {
    var w1 := UpdateDeactivatedCore(w, i, account, j, treasury).value;
    UpdateDeactivatedCollects(w, i, account, j, treasury, w1);
    var r := w.state.ledger.stakes[i];
    CollectDraws(w.state.ledger, w1.state.ledger, i, j);
    ProgressDraws(w.state.ledger, w1.state.ledger, w'.state.ledger, DrawnDelayed([r]), DrawnEmergency([r]));
  }

  lemma StepDraws(w: World, step: Step)
    requires w.state.ledger.upgrader.IteratingStakes? && Allowed(w, step)
    ensures Drawn(w.state.ledger, Next(w, step).state.ledger, DrawnDelayed(RemovedBy(w, step)),
                  DrawnEmergency(RemovedBy(w, step)))
  {
    if !step.Elsewhere? && Instruction(w, step).Some? {
      var w' := Instruction(w, step).value;
      if NeedsDone(step) {
        NeedsDoneStays(w, step, w');
      } else if LeavesLedger(step) {
        LedgerUntouched(w, step, w');
      } else if step.DoDepositStakeAccount? {
        DepositDraws(w, step.account, step.j, w');
      } else if step.DoUpdateActive? {
        UpdateActiveDraws(w, step.i, step.account, step.j, step.treasury, w');
      } else if step.DoUpdateDeactivated? {
        UpdateDeactivatedDraws(w, step.i, step.account, step.j, step.treasury, w');
      }
    }
  }

  lemma PhasesDoNotGoBack(w: World, step: Step)
    requires !w.state.ledger.upgrader.IteratingStakes?
    ensures !Next(w, step).state.ledger.upgrader.IteratingStakes?
  {
    if !step.Elsewhere? && Instruction(w, step).Some? {
      var w' := Instruction(w, step).value;
      if NeedsDone(step) {
        NeedsDoneStays(w, step, w');
      } else if LeavesLedger(step) {
        LedgerUntouched(w, step, w');
      } else if step.DoUpdateActive? {
        if w.state.ledger.upgrader.Done? {
          DoneStays(w, step);
        }
      }
    }
  }

  lemma {:induction false} RunsDoNotGoBack(w: World, steps: seq<Step>)
    requires !w.state.ledger.upgrader.IteratingStakes?
    ensures !Run(w, steps).state.ledger.upgrader.IteratingStakes?
    decreases |steps|
  {
    if steps != [] {
      PhasesDoNotGoBack(w, steps[0]);
      RunsDoNotGoBack(Next(w, steps[0]), steps[1..]);
    }
  }

  lemma DrawnCompose(l: Ledger, l1: Ledger, l2: Ledger, d1: nat, e1: nat, d2: nat, e2: nat)
    requires Drawn(l, l1, d1, e1) && Drawn(l1, l2, d2, e2)
    ensures Drawn(l, l2, d1 + d2, e1 + e2)
  {
  }

  /** Only the last step, if any, ends phase 1. */
  ghost predicate WithinPhaseOne(w: World, steps: seq<Step>) {
    w.state.ledger.upgrader.IteratingStakes?
    && (steps != [] ==> Run(w, steps[..|steps| - 1]).state.ledger.upgrader.IteratingStakes?)
  }

  lemma WithinPhaseOneTail(w: World, steps: seq<Step>)
    requires WithinPhaseOne(w, steps) && |steps| > 1
    ensures WithinPhaseOne(Next(w, steps[0]), steps[1..])
  {
    var w1 := Next(w, steps[0]);
    var before := steps[..|steps| - 1];
    assert before[0] == steps[0] && before[1..] == steps[1..][..|steps[1..]| - 1];
    assert Run(w, before) == Run(w1, before[1..]);
    if !w1.state.ledger.upgrader.IteratingStakes? {
      RunsDoNotGoBack(w1, before[1..]);
      assert false;
    }
  }

  /** On every allowed run of phase 1, the step that hands over to phase 2 included, the delinquent
      balance ends as what it was, plus what the removed non-emergency records exceed the delayed
      cooling by, plus what the removed emergency records exceed the emergency cooling by. */
  lemma {:induction false} RunDraws(w: World, steps: seq<Step>)
    requires AllowedRun(w, steps) && WithinPhaseOne(w, steps)
    ensures Drawn(w.state.ledger, Run(w, steps).state.ledger, DrawnDelayed(RemovedIn(w, steps)),
                  DrawnEmergency(RemovedIn(w, steps)))
    decreases |steps|
  {
    if steps != [] {
      var w1 := Next(w, steps[0]);
      StepDraws(w, steps[0]);
      var rs, ts := RemovedBy(w, steps[0]), RemovedIn(w1, steps[1..]);
      DrawnAppend(rs, ts);
      if |steps| == 1 {
        assert steps[1..] == [];
      } else {
        WithinPhaseOneTail(w, steps);
        RunDraws(w1, steps[1..]);
        DrawnCompose(w.state.ledger, w1.state.ledger, Run(w, steps).state.ledger, DrawnDelayed(rs), DrawnEmergency(rs),
                     DrawnDelayed(ts), DrawnEmergency(ts));
      }
    }
  }

  /** When phase 1 hands over, the balance phase 2 has to work off is exactly that. */
  lemma HandOver(w: World, before: seq<Step>, last: Step)
    requires AllowedRun(w, before + [last])
    requires w.state.ledger.upgrader.IteratingStakes? && Run(w, before).state.ledger.upgrader.IteratingStakes?
    requires !Run(w, before + [last]).state.ledger.upgrader.IteratingStakes?
    ensures var l, u := w.state.ledger, Run(w, before + [last]).state.ledger.upgrader;
            var removed := RemovedIn(w, before + [last]);
            && u.IteratingValidators? && u.next == 0
            && u.left == l.upgrader.delinquent + SaturatingSub(DrawnDelayed(removed), l.delayedCooling)
                         + SaturatingSub(DrawnEmergency(removed), l.emergencyCooling)
  {
    assert (before + [last])[..|before + [last]| - 1] == before;
    RunDraws(w, before + [last]);
  }

  /** Two runs that remove the same records, in any order and with anything in between, end with the
      same cooling buckets and the same delinquent balance, handed over or not. */
  lemma RemovalOrderDoesNotMatter(w: World, steps: seq<Step>, others: seq<Step>)
    requires AllowedRun(w, steps) && AllowedRun(w, others)
    requires WithinPhaseOne(w, steps) && WithinPhaseOne(w, others)
    requires multiset(RemovedIn(w, steps)) == multiset(RemovedIn(w, others))
    ensures var l, l' := Run(w, steps).state.ledger, Run(w, others).state.ledger;
            && l.delayedCooling == l'.delayedCooling && l.emergencyCooling == l'.emergencyCooling
            && Delinquent(l.upgrader) == Delinquent(l'.upgrader)
  {
    RunDraws(w, steps);
    RunDraws(w, others);
    DrawnOfPermutation(RemovedIn(w, steps), RemovedIn(w, others));
  }
}
