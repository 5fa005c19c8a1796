/** Records whose validator is not in the list: phase 1 cannot pass them. */
module MigrationBlocked {
  import opened Base
  import opened Model
  import opened Instructions
  import opened Parts
  import opened Totals
  import opened Soundness
  import opened Migration
  import opened LedgerSafety
  import opened Runs
  import opened LedgerRuns
  import opened Upgrade
  import opened MigrationRuns
  import opened MigrationEnd
  import opened Examples
  import L = LedgerOps

  /** The record of `account` was not visited yet. */
  ghost predicate Waiting(w: World, account: Key) {
    exists m :: 0 <= m < |w.state.ledger.stakes| && w.state.ledger.stakes[m].account == account
                && w.state.ledger.stakes[m].status.Unknown?
  }

  ghost predicate VoterListed(w: World, account: Key) {
    Voter(w.chain.accounts, account).Some?
    && Listed(w.state.ledger.validators, Voter(w.chain.accounts, account).value)
  }

  /** The condition for phase 1 to end: every unvisited record's validator is listed. */
  ghost predicate AllListed(w: World) {
    forall x :: Waiting(w, x) ==> VoterListed(w, x)
  }

  /** Same list of votes, same voters of the program's accounts that both worlds have. */
  ghost predicate SameVotes(w: World, w': World) {
    && (forall vote :: Listed(w'.state.ledger.validators, vote) <==> Listed(w.state.ledger.validators, vote))
    && (forall x :: Waiting(w, x) && Waiting(w', x) ==> Voter(w'.chain.accounts, x) == Voter(w.chain.accounts, x))
  }

  /** No record starts waiting, and only one whose voter is listed stops. */
  ghost predicate WaitsOn(w: World, w': World) {
    && SameVotes(w, w')
    && (forall x :: Waiting(w', x) ==> Waiting(w, x))
    && (forall x :: Waiting(w, x) && !VoterListed(w, x) ==> Waiting(w', x))
  }

  lemma SameRecordsWait(w: World, w': World)
    requires w'.state.ledger.stakes == w.state.ledger.stakes
    requires forall m :: 0 <= m < |w.state.ledger.stakes| ==>
               Voter(w'.chain.accounts, w.state.ledger.stakes[m].account)
               == Voter(w.chain.accounts, w.state.ledger.stakes[m].account)
    requires forall vote :: Listed(w'.state.ledger.validators, vote) <==> Listed(w.state.ledger.validators, vote)
    ensures WaitsOn(w, w')
  {
  }

  lemma ElsewhereWaits(w: World, after: Chain)
    requires WorldOk(w) && Permitted(w.chain, after)
    ensures WaitsOn(w, World(w.state, after))
  {
    var s := w.state.ledger.stakes;
    forall m | 0 <= m < |s| ensures Voter(after.accounts, s[m].account) == Voter(w.chain.accounts, s[m].account) {
      assert RecordOk(w.chain.accounts, s[m]);
      assert StillOurs(w.chain.accounts, after.accounts, s[m].account);
    }
    SameRecordsWait(w, World(w.state, after));
  }

  lemma DepositWaits(w: World, account: Key, j: nat, w': World)
    requires DepositStakeAccount(w, account, j) == Some(w')
    ensures WaitsOn(w, w')
  {
    DepositLedger(w, account, j, w');
    var l, l' := w.state.ledger, w'.state.ledger;
    AddActiveKeepsPhase(l, l', account, w.chain.accounts[account].delegation.value.stake, w.chain.clock.epoch, j,
                        l.validators[j].lastDeltaEpoch);
    ListedSet(l.validators, j, l'.validators[j]);
    forall x | Waiting(w, x) ensures Waiting(w', x) {
      var m :| 0 <= m < |l.stakes| && l.stakes[m].account == x && l.stakes[m].status.Unknown?;
      assert l'.stakes[m] == l.stakes[m];
    }
    forall x | Waiting(w', x) ensures Waiting(w, x) {
      var m :| 0 <= m < |l'.stakes| && l'.stakes[m].account == x && l'.stakes[m].status.Unknown?;
      assert l'.stakes[m] == l.stakes[m];
    }
  }

  lemma ListedAt(vs: seq<ValidatorRecord>, j: nat)
    requires j < |vs|
    ensures Listed(vs, vs[j].vote)
  {
  }

  /** Visiting or removing record `i`, whose voter is listed, leaves the other records waiting. */
  ghost predicate OnlyStops(w: World, w': World, i: nat) {
    && i < |w.state.ledger.stakes| && SameVotes(w, w') && VoterListed(w, w.state.ledger.stakes[i].account)
    && (forall m :: 0 <= m < |w.state.ledger.stakes| && m != i && w.state.ledger.stakes[m].status.Unknown? ==>
          Waiting(w', w.state.ledger.stakes[m].account))
    && (forall m :: 0 <= m < |w'.state.ledger.stakes| && w'.state.ledger.stakes[m].status.Unknown? ==>
          Waiting(w, w'.state.ledger.stakes[m].account))
  }

  lemma StopsListed(w: World, w': World, i: nat)
    requires OnlyStops(w, w', i)
    ensures WaitsOn(w, w')
  {
  }

  lemma VisitLeavesWaiting(w: World, w': World, i: nat)
    requires i < |w.state.ledger.stakes| == |w'.state.ledger.stakes|
    requires w'.state.ledger.stakes == w.state.ledger.stakes[i := w'.state.ledger.stakes[i]]
    requires !w'.state.ledger.stakes[i].status.Unknown?
    ensures forall m :: 0 <= m < |w.state.ledger.stakes| && m != i && w.state.ledger.stakes[m].status.Unknown? ==>
              Waiting(w', w.state.ledger.stakes[m].account)
    ensures forall m :: 0 <= m < |w'.state.ledger.stakes| && w'.state.ledger.stakes[m].status.Unknown? ==>
              Waiting(w, w'.state.ledger.stakes[m].account)
  {
    var s, s' := w.state.ledger.stakes, w'.state.ledger.stakes;
    assert forall m :: 0 <= m < |s| && m != i ==> s'[m] == s[m];
  }

  lemma UpdateActiveWaits(w: World, i: nat, account: Key, j: nat, treasury: bool, w': World)
    requires WorldOk(w) && UpdateActive(w, i, account, j, treasury) == Some(w')
    ensures WaitsOn(w, w')
  {
    var w1 := UpdateActiveCore(w, i, account, j, treasury).value;
    var l1 := UpdateActiveCoreLedger(w, i, account, j, treasury, w1);
    var l, l', stake := w.state.ledger, w'.state.ledger, w.chain.accounts[account].delegation.value.stake;
    RecognizeShape(l, l1, i, j);
    ObserveShape(l1, w1.state.ledger, i, j, stake, w.chain.clock.epoch);
    ListedSet(l.validators, j, l'.validators[j]);
    ListedAt(l.validators, j);
    assert l'.validators == l.validators[j := l'.validators[j]];
    assert l'.stakes == l.stakes[i := l'.stakes[i]] && !l'.stakes[i].status.Unknown?;
    VisitLeavesWaiting(w, w', i);
    StopsListed(w, w', i);
  }

  lemma RemovalLeavesWaiting(w: World, w': World, i: nat)
    requires i < |w.state.ledger.stakes| && w'.state.ledger.stakes == SwapRemove(w.state.ledger.stakes, i)
    ensures forall m :: 0 <= m < |w.state.ledger.stakes| && m != i && w.state.ledger.stakes[m].status.Unknown? ==>
              Waiting(w', w.state.ledger.stakes[m].account)
    ensures forall m :: 0 <= m < |w'.state.ledger.stakes| && w'.state.ledger.stakes[m].status.Unknown? ==>
              Waiting(w, w'.state.ledger.stakes[m].account)
  {
    var s, s' := w.state.ledger.stakes, w'.state.ledger.stakes;
    forall m | 0 <= m < |s| && m != i && s[m].status.Unknown? ensures Waiting(w', s[m].account) {
      assert s'[if m == |s| - 1 then i else m] == s[m];
    }
    forall m | 0 <= m < |s'| && s'[m].status.Unknown? ensures Waiting(w, s'[m].account) {
      assert s'[m] == s[Origin(|s|, i, m)];
    }
  }

  /** The voters of the accounts left are the same. */
  lemma RemovalKeepsVoters(w: World, w': World, i: nat)
    requires WorldOk(w) && i < |w.state.ledger.stakes| && w'.state.ledger.stakes == SwapRemove(w.state.ledger.stakes, i)
    requires w'.chain.accounts == w.chain.accounts - {w.state.ledger.stakes[i].account}
    ensures forall x :: Waiting(w', x) ==> Voter(w'.chain.accounts, x) == Voter(w.chain.accounts, x)
  {
    var s, s' := w.state.ledger.stakes, w'.state.ledger.stakes;
    forall x | Waiting(w', x) ensures x != s[i].account {
      var m :| 0 <= m < |s'| && s'[m].account == x && s'[m].status.Unknown?;
      assert s'[m] == s[Origin(|s|, i, m)];
    }
  }

  lemma UpdateDeactivatedWaits(w: World, i: nat, account: Key, j: nat, treasury: bool, w': World)
    requires WorldOk(w) && UpdateDeactivated(w, i, account, j, treasury) == Some(w')
    ensures WaitsOn(w, w')
  {
    var w1 := UpdateDeactivatedCore(w, i, account, j, treasury).value;
    UpdateDeactivatedCollects(w, i, account, j, treasury, w1);
    var l, l' := w.state.ledger, w'.state.ledger;
    CollectShape(l, w1.state.ledger, i, j);
    ListedSet(l.validators, j, l'.validators[j]);
    ListedAt(l.validators, j);
    assert l'.validators == l.validators[j := l'.validators[j]];
    RemovalLeavesWaiting(w, w', i);
    RemovalKeepsVoters(w, w', i);
    StopsListed(w, w', i);
  }

  lemma ScoreWaits(w: World, j: nat, vote: Key, score: nat, w': World)
    requires SetValidatorScore(w, j, vote, score) == Some(w')
    ensures WaitsOn(w, w')
  {
    ListedSet(w.state.ledger.validators, j, w'.state.ledger.validators[j]);
    SameRecordsWait(w, w');
  }

  lemma StepWaits(w: World, step: Step)
    requires WorldOk(w) && w.state.ledger.upgrader.IteratingStakes?
    ensures WaitsOn(w, Next(w, step))
  {
    if step.Elsewhere? {
      if Permitted(w.chain, step.after) {
        ElsewhereWaits(w, step.after);
      }
    } else if Instruction(w, step).Some? {
      var w' := Instruction(w, step).value;
      if NeedsDone(step) {
        NeedsDoneStays(w, step, w');
      } else if LeavesLedger(step) {
        LedgerUntouched(w, step, w');
        SameRecordsWait(w, w');
      } else {
        match step {
          case DoDepositStakeAccount(account, j) => DepositWaits(w, account, j, w');
          case DoUpdateActive(i, account, j, treasury) => UpdateActiveWaits(w, i, account, j, treasury, w');
          case DoUpdateDeactivated(i, account, j, treasury) => UpdateDeactivatedWaits(w, i, account, j, treasury, w');
          case DoFinalizeUpgrade(max) => FinalizeWaits(w, max);
          case DoSetValidatorScore(j, vote, score) => ScoreWaits(w, j, vote, score, w');
        }
      }
    }
  }

  lemma FinalizeWaits(w: World, max: nat)
    requires w.state.ledger.upgrader.IteratingStakes?
    ensures FinalizeUpgrade(w, max) == None
  {
  }

  // ---------- what follows for phase 1 ----------

  lemma {:induction false} WaitingIsCounted(a: Accounts, s: seq<StakeRecord>, m: nat)
    requires m < |s| && s[m].status.Unknown?
    ensures Total(CountUnknown, a, s) > 0
  {
    WeightInTotal(CountUnknown, a, s, m);
  }

  /** While a record waits phase 1 goes on. */
  lemma WaitingKeepsPhase(w: World, step: Step)
    requires WorldOk(w) && Allowed(w, step) && w.state.ledger.upgrader.IteratingStakes?
    requires exists x :: Waiting(Next(w, step), x)
    ensures Next(w, step).state.ledger.upgrader.IteratingStakes?
  {
    var w' := Next(w, step);
    var x :| Waiting(w', x);
    var m :| 0 <= m < |w'.state.ledger.stakes| && w'.state.ledger.stakes[m].account == x
             && w'.state.ledger.stakes[m].status.Unknown?;
    WaitingIsCounted(w'.chain.accounts, w'.state.ledger.stakes, m);
    if !step.Elsewhere? && Instruction(w, step).Some? {
      PhaseOneGoesOn(w, step, w');
    }
  }

  lemma PhaseOneGoesOn(w: World, step: Step, w': World)
    requires WorldOk(w) && Allowed(w, step) && w.state.ledger.upgrader.IteratingStakes?
    requires Instruction(w, step) == Some(w') && Unvisited(w') > 0
    ensures w'.state.ledger.upgrader.IteratingStakes?
  {
    if NeedsDone(step) {
      NeedsDoneStays(w, step, w');
    } else if LeavesLedger(step) {
      LedgerUntouched(w, step, w');
    } else {
      match step {
        case DoDepositStakeAccount(account, j) =>
          DepositLedger(w, account, j, w');
          AddActiveKeepsPhase(w.state.ledger, w'.state.ledger, account, w.chain.accounts[account].delegation.value.stake,
                              w.chain.clock.epoch, j, w.state.ledger.validators[j].lastDeltaEpoch);
        case DoUpdateActive(i, account, j, treasury) => VisitAdvances(w, i, account, j, treasury, w');
        case DoUpdateDeactivated(i, account, j, treasury) => CollectAdvances(w, i, account, j, treasury, w');
        case DoFinalizeUpgrade(max) => FinalizeWaits(w, max);
        case DoSetValidatorScore(_, _, _) =>
      }
    }
  }

  /** An unvisited record whose validator is not listed keeps phase 1 from ending, on every allowed run. */
  lemma {:induction false} UnlistedBlocksMigration(w: World, steps: seq<Step>, account: Key)
    requires WorldOk(w) && AllowedRun(w, steps) && w.state.ledger.upgrader.IteratingStakes?
    requires Waiting(w, account) && !VoterListed(w, account)
    ensures Run(w, steps).state.ledger.upgrader.IteratingStakes?
    decreases |steps|
  {
    if steps != [] {
      var w1 := Next(w, steps[0]);
      StepWaits(w, steps[0]);
      WaitingKeepsPhase(w, steps[0]);
      NextOk(w, steps[0]);
      assert !VoterListed(w1, account);
      UnlistedBlocksMigration(w1, steps[1..], account);
    }
  }

  /** The condition lasts: in phase 1 no step takes an unvisited record's validator off the list. */
  lemma ListedStays(w: World, step: Step)
    requires WorldOk(w) && w.state.ledger.upgrader.IteratingStakes? && AllListed(w)
    ensures AllListed(Next(w, step))
  {
    StepWaits(w, step);
  }

  // ---------- an input ----------

  /** One stake of `x` lamports, cooling down, whose validator was removed while it did. */
  function LegacyUnlisted(x: nat): World {
    Example(Ledger([Record(x, 1, Unknown)], [], 0, x, 0, 0, IteratingStakes(0, 0, 0)), {},
            map[Address(1) := StakeOf(x, true)], 0)
  }

  lemma UnlistedIsLegacy(x: nat)
    ensures Legacy(LegacyUnlisted(x))
  {
    var w := LegacyUnlisted(x);
    var s := w.state.ledger.stakes;
    assert s[..0] == [];
    forall k: Kind ensures Total(k, w.chain.accounts, s) == Weight(k, w.chain.accounts, s[0]) {
      assert Total(k, w.chain.accounts, s) == Total(k, w.chain.accounts, s[..0]) + Weight(k, w.chain.accounts, s[0]);
    }
    assert WellFormed(w.state.ledger, w.chain.accounts);
    assert Total(LegacyLive, w.chain.accounts, s) == 0 && Total(LegacyEmergency, w.chain.accounts, s) == 0;
    assert Total(LegacyDelayed, w.chain.accounts, s) == x;
    assert forall vote :: Total(LegacyLiveFor(vote), w.chain.accounts, s) == 0;
  }

  /** From this legacy state, for every stake size, no allowed run leaves phase 1. */
  lemma LegacyUnlistedNeverEnds(x: nat, steps: seq<Step>)
    requires AllowedRun(LegacyUnlisted(x), steps)
    ensures Legacy(LegacyUnlisted(x))
    ensures Run(LegacyUnlisted(x), steps).state.ledger.upgrader.IteratingStakes?
  {
    UnlistedIsLegacy(x);
    LegacyIsOk(LegacyUnlisted(x));
    assert LegacyUnlisted(x).state.ledger.stakes[0].account == Address(1);
    UnlistedBlocksMigration(LegacyUnlisted(x), steps, Address(1));
  }
}
