/** The migration does not depend on how it is cut into calls: chunks of phase 2, deposits in
    between, and the order in which phase 1 meets deactivated records. */
module Upgrade {
  import opened Base
  import opened Model
  import opened Instructions
  import opened Totals
  import opened Soundness
  import opened Migration
  import opened LedgerSafety
  import L = LedgerOps

  // ---------- chunks ----------

  /** A finalize call as a transaction: an error changes nothing. */
  function Finalized(w: World, n: nat): World {
    var r := FinalizeUpgrade(w, n);
    if r.Some? then r.value else w
  }

  lemma SettleRangeCompose(vs: seq<ValidatorRecord>, lo: nat, mid: nat, hi: nat)
    requires lo <= mid <= hi <= |vs|
    ensures L.SettleRange(L.SettleRange(vs, lo, mid), mid, hi) == L.SettleRange(vs, lo, hi)
  {
  }

  /** The ledger after a finalize call in phase 2. */
  lemma FinalizedLedger(l: Ledger, a: Accounts, n: nat) returns (hi: nat)
    requires Sound(l, a) && l.upgrader.IteratingValidators?
    ensures hi == Min(|l.validators|, l.upgrader.next + n) && l.upgrader.next <= hi
    ensures L.Finalize(l, n).Some? && FinalizedTo(l, L.Finalize(l, n).value, hi)
    ensures Sound(L.Finalize(l, n).value, a)
  {
    hi := Min(|l.validators|, l.upgrader.next + n);
    GapsInRange(l, a);
    FinalizeFollows(l, n);
    FinalizedToSound(l, a, L.Finalize(l, n).value, hi);
  }

  /** Two ledgers that finalized `l` up to the same validator are the same. */
  lemma FinalizedToUnique(l: Ledger, l1: Ledger, l2: Ledger, hi: nat)
    requires FinalizedTo(l, l1, hi) && FinalizedTo(l, l2, hi)
    ensures l1 == l2
  {
  }

  lemma FinalizedToCompose(l: Ledger, l1: Ledger, l2: Ledger, mid: nat, hi: nat)
    requires FinalizedTo(l, l1, mid) && mid < |l.validators| && FinalizedTo(l1, l2, hi)
    ensures FinalizedTo(l, l2, hi)
  {
    SettleRangeCompose(l.validators, l.upgrader.next, mid, hi);
    assert l1.validators[hi..] == l.validators[hi..];
  }

  /** Two finalize calls are one. */
  lemma ChunksCompose(w: World, m: nat, n: nat)
    requires WorldOk(w)
    ensures WorldOk(Finalized(w, m)) && Finalized(Finalized(w, m), n) == Finalized(w, m + n)
  {
    var l, a := w.state.ledger, w.chain.accounts;
    if !w.state.cfg.paused && l.upgrader.IteratingValidators? {
      var mid := FinalizedLedger(l, a, m);
      var hi := FinalizedLedger(l, a, m + n);
      FinalizeUpgradeOk(w, m, FinalizeUpgrade(w, m).value);
      var l1 := L.Finalize(l, m).value;
      if mid < |l.validators| {
        var hi' := FinalizedLedger(l1, a, n);
        FinalizedToCompose(l, l1, L.Finalize(l1, n).value, mid, hi);
        FinalizedToUnique(l, L.Finalize(l1, n).value, L.Finalize(l, m + n).value, hi);
      } else {
        FinalizedToUnique(l, l1, L.Finalize(l, m + n).value, hi);
      }
    }
  }

  /** A call that reaches the last validator is one full pass. */
  lemma FullPass(w: World, n: nat)
    requires WorldOk(w) && w.state.ledger.upgrader.IteratingValidators? && n >= |w.state.ledger.validators|
    ensures Finalized(w, n) == Finalized(w, |w.state.ledger.validators|)
  {
    var l, a := w.state.ledger, w.chain.accounts;
    var hi := FinalizedLedger(l, a, n);
    var hi' := FinalizedLedger(l, a, |l.validators|);
    FinalizedToUnique(l, L.Finalize(l, n).value, L.Finalize(l, |l.validators|).value, hi);
  }

  // ---------- deposits in between ----------

  /** The validator of a deposit, settled before or after it. */
  lemma SettleDeposit(vs: seq<ValidatorRecord>, lo: nat, hi: nat, j: nat, amount: nat)
    requires lo <= hi <= |vs| && j < |vs|
    ensures var v := vs[j];
            var deposited := v.(balance := v.balance + amount,
                                upgraderBalance := v.upgraderBalance + (if j >= lo then amount else 0));
            var us := L.SettleRange(vs, lo, hi);
            L.SettleRange(vs[j := deposited], lo, hi)
            == us[j := us[j].(balance := us[j].balance + amount,
                              upgraderBalance := us[j].upgraderBalance + (if j >= hi then amount else 0))]
  {
  }

  lemma DepositAfterFinalize(l: Ledger, l1: Ledger, l2: Ledger, a: Accounts, account: Key, amount: nat, epoch: nat,
                             j: nat, hi: nat)
    requires l.upgrader.IteratingValidators? && Finalizing(l, a) && j < |l.validators|
    requires L.AddActive(l, account, amount, epoch, j, l.validators[j].lastDeltaEpoch) == Some(l1)
    requires FinalizedTo(l, l2, hi)
    ensures var l3 := L.AddActive(l2, account, amount, epoch, j, l2.validators[j].lastDeltaEpoch);
            l3.Some? && FinalizedTo(l1, l3.value, hi)
  {
    var v := l.validators[j];
    assert Halfway(v, j < l.upgrader.next, a, l.stakes);
    AddActiveFollowsFinalizing(l, l1, account, amount, epoch, j, v.lastDeltaEpoch);
    SettleDeposit(l.validators, l.upgrader.next, hi, j, amount);
    var l3 := L.AddActive(l2, account, amount, epoch, j, l2.validators[j].lastDeltaEpoch);
    assert l3.Some?;
    GapsOnDeposit(l.validators, hi, j, l1.validators[j]);
  }

  lemma DepositCommutesLedger(l: Ledger, l1: Ledger, a: Accounts, a': Accounts, account: Key, amount: nat,
                              epoch: nat, j: nat, n: nat)
    returns (l2: Ledger, l3: Ledger)
    requires Sound(l, a) && l.upgrader.IteratingValidators? && j < |l.validators|
    requires L.AddActive(l, account, amount, epoch, j, l.validators[j].lastDeltaEpoch) == Some(l1) && Sound(l1, a')
    ensures L.Finalize(l, n) == Some(l2) && L.Finalize(l1, n) == Some(l3)
    ensures l2.stakes == l.stakes && |l2.validators| == |l.validators| && l2.totalActive == l.totalActive
    ensures l2.delayedCooling == l.delayedCooling && l2.emergencyCooling == l.emergencyCooling
    ensures l2.validators[j].vote == l.validators[j].vote
    ensures L.AddActive(l2, account, amount, epoch, j, l2.validators[j].lastDeltaEpoch) == Some(l3)
  {
    AddActiveFollowsFinalizing(l, l1, account, amount, epoch, j, l.validators[j].lastDeltaEpoch);
    var hi := FinalizedLedger(l, a, n);
    var hi' := FinalizedLedger(l1, a', n);
    l2, l3 := L.Finalize(l, n).value, L.Finalize(l1, n).value;
    DepositAfterFinalize(l, l1, l2, a, account, amount, epoch, j, hi);
    FinalizedToUnique(l1, L.AddActive(l2, account, amount, epoch, j, l2.validators[j].lastDeltaEpoch).value, l3, hi);
  }

  /** What a deposit reads from the world besides the ledger, and does to its ledger. */
  lemma DepositLedger(w: World, account: Key, j: nat, w1: World)
    requires DepositStakeAccount(w, account, j) == Some(w1)
    ensures account in w.chain.accounts && w.chain.accounts[account].delegation.Some?
    ensures j < |w.state.ledger.validators| && w1.state.cfg == w.state.cfg
    ensures L.AddActive(w.state.ledger, account, w.chain.accounts[account].delegation.value.stake,
                        w.chain.clock.epoch, j, w.state.ledger.validators[j].lastDeltaEpoch) == Some(w1.state.ledger)
  {
  }

  /** A stake deposit and a finalize call commute, wherever the deposit's validator stands. */
  lemma DepositCommutes(w: World, account: Key, j: nat, n: nat, w1: World)
    requires WorldOk(w) && DepositStakeAccount(w, account, j) == Some(w1)
    requires w.state.ledger.upgrader.IteratingValidators? || w.state.ledger.upgrader.Done?
    ensures DepositStakeAccount(Finalized(w, n), account, j) == Some(Finalized(w1, n))
  {
    DepositStakeAccountOk(w, account, j, w1);
    DepositLedger(w, account, j, w1);
    var l, l1 := w.state.ledger, w1.state.ledger;
    if !w.state.cfg.paused && l.upgrader.IteratingValidators? {
      var l2, l3 := DepositCommutesLedger(l, l1, w.chain.accounts, w1.chain.accounts, account,
                                          w.chain.accounts[account].delegation.value.stake, w.chain.clock.epoch, j, n);
      DepositOn(w, l2, account, j, w1, l3);
    }
  }

  /** A deposit depends on the ledger only through its totals and its AddActive. */
  lemma DepositOn(w: World, l2: Ledger, account: Key, j: nat, w1: World, l3: Ledger)
    requires DepositStakeAccount(w, account, j) == Some(w1)
    requires l2.stakes == w.state.ledger.stakes && |l2.validators| == |w.state.ledger.validators|
    requires l2.totalActive == w.state.ledger.totalActive
    requires l2.delayedCooling == w.state.ledger.delayedCooling && l2.emergencyCooling == w.state.ledger.emergencyCooling
    requires l2.validators[j].vote == w.state.ledger.validators[j].vote
    requires var d := w.chain.accounts[account].delegation.value;
             L.AddActive(l2, account, d.stake, w.chain.clock.epoch, j, l2.validators[j].lastDeltaEpoch) == Some(l3)
    ensures DepositStakeAccount(World(w.state.(ledger := l2), w.chain), account, j)
            == Some(World(w1.state.(ledger := l3), w1.chain))
  {
  }

  datatype Event = Chunk(n: nat) | Stake(account: Key, j: nat)

  type Finalizer = (World, nat) -> World
  type Depositor = (World, Key, nat) -> Option<World>

  /** Events one after the other, closed by a finalize call; every deposit must succeed. */
  function Events(fin: Finalizer, dep: Depositor, w: World, events: seq<Event>, last: nat): Option<World>
    decreases |events|
  {
    if events == [] then Some(fin(w, last))
    else
      match events[0]
      case Chunk(n) => Events(fin, dep, fin(w, n), events[1..], last)
      case Stake(account, j) =>
        var w' :- dep(w, account, j);
        Events(fin, dep, w', events[1..], last)
  }

  /** The deposits of `events` alone. */
  function DepositsOf(dep: Depositor, w: World, events: seq<Event>): Option<World>
    decreases |events|
  {
    if events == [] then Some(w)
    else
      match events[0]
      case Chunk(_) => DepositsOf(dep, w, events[1..])
      case Stake(account, j) =>
        var w' :- dep(w, account, j);
        DepositsOf(dep, w', events[1..])
  }

  function ChunkTotal(events: seq<Event>): nat {
    if events == [] then 0 else (if events[0].Chunk? then events[0].n else 0) + ChunkTotal(events[1..])
  }

  lemma FinalizedStays(w: World, n: nat)
    requires w.state.ledger.upgrader.IteratingValidators? || w.state.ledger.upgrader.Done?
    ensures Finalized(w, n).state.ledger.upgrader.IteratingValidators? || Finalized(w, n).state.ledger.upgrader.Done?
  {
  }

  /** Two instructions that compose and commute like finalize calls and deposits do. */
  ghost predicate Commuting(fin: Finalizer, dep: Depositor, ok: World -> bool) {
    && (forall w, m: nat :: ok(w) ==> ok(fin(w, m)))
    && (forall w, m: nat, n: nat :: ok(w) ==> fin(fin(w, m), n) == fin(w, m + n))
    && (forall w, account, j: nat :: ok(w) && dep(w, account, j).Some? ==> ok(dep(w, account, j).value))
    && (forall w, account, j: nat, n: nat :: ok(w) && dep(w, account, j).Some? ==>
          dep(fin(w, n), account, j) == Some(fin(dep(w, account, j).value, n)))
  }

  lemma {:induction false} CommutingEvents(fin: Finalizer, dep: Depositor, ok: World -> bool, w: World,
                                           events: seq<Event>, last: nat)
    requires Commuting(fin, dep, ok) && ok(w)
    requires Events(fin, dep, w, events, last).Some?
    ensures Events(fin, dep, w, events, last) == DepositsOf(dep, fin(w, ChunkTotal(events) + last), events)
    decreases |events|
  {
    if events != [] {
      var size := ChunkTotal(events[1..]) + last;
      match events[0] {
        case Chunk(n) =>
          CommutingEvents(fin, dep, ok, fin(w, n), events[1..], last);
          assert fin(fin(w, n), size) == fin(w, n + size);
        case Stake(account, j) =>
          CommutingEvents(fin, dep, ok, dep(w, account, j).value, events[1..], last);
          assert dep(fin(w, size), account, j) == Some(fin(dep(w, account, j).value, size));
      }
    }
  }

  /** The ledger is sound and phase 1 is over. */
  ghost predicate PastStakes(w: World) {
    WorldOk(w) && (w.state.ledger.upgrader.IteratingValidators? || w.state.ledger.upgrader.Done?)
  }

  lemma ChunksCommute()
    ensures forall w, m: nat :: PastStakes(w) ==> PastStakes(Finalized(w, m))
    ensures forall w, m: nat, n: nat :: PastStakes(w) ==> Finalized(Finalized(w, m), n) == Finalized(w, m + n)
  {
    forall w, m: nat | PastStakes(w) ensures PastStakes(Finalized(w, m)) {
      ChunkFirst(w, m, 0);
    }
    forall w, m: nat, n: nat | PastStakes(w) ensures Finalized(Finalized(w, m), n) == Finalized(w, m + n) {
      ChunkFirst(w, m, n);
    }
  }

  lemma StakesCommute()
    ensures forall w, account, j: nat :: PastStakes(w) && DepositStakeAccount(w, account, j).Some? ==>
              PastStakes(DepositStakeAccount(w, account, j).value)
    ensures forall w, account, j: nat, n: nat :: PastStakes(w) && DepositStakeAccount(w, account, j).Some? ==>
              DepositStakeAccount(Finalized(w, n), account, j)
              == Some(Finalized(DepositStakeAccount(w, account, j).value, n))
  {
    forall w, account, j: nat | PastStakes(w) && DepositStakeAccount(w, account, j).Some?
      ensures PastStakes(DepositStakeAccount(w, account, j).value)
    {
      StakeFirst(w, account, j, 0, DepositStakeAccount(w, account, j).value);
    }
    forall w, account, j: nat, n: nat | PastStakes(w) && DepositStakeAccount(w, account, j).Some?
      ensures DepositStakeAccount(Finalized(w, n), account, j)
              == Some(Finalized(DepositStakeAccount(w, account, j).value, n))
    {
      StakeFirst(w, account, j, n, DepositStakeAccount(w, account, j).value);
    }
  }

  /** Finalize calls of any sizes with stake deposits in between give the world of one finalize call
      followed by the deposits. */
  lemma DepositsDoNotMatter(w: World, events: seq<Event>, last: nat)
    requires PastStakes(w)
    requires Events(Finalized, DepositStakeAccount, w, events, last).Some?
    ensures Events(Finalized, DepositStakeAccount, w, events, last)
            == DepositsOf(DepositStakeAccount, Finalized(w, ChunkTotal(events) + last), events)
  {
    ChunksCommute();
    StakesCommute();
    CommutingEvents(Finalized, DepositStakeAccount, PastStakes, w, events, last);
  }

  lemma {:induction false} NoDeposits(dep: Depositor, w: World, events: seq<Event>)
    requires forall k :: 0 <= k < |events| ==> events[k].Chunk?
    ensures DepositsOf(dep, w, events) == Some(w)
    decreases |events|
  {
    if events != [] {
      NoDeposits(dep, w, events[1..]);
    }
  }

  lemma {:induction false} ChunksAlwaysRun(fin: Finalizer, dep: Depositor, w: World, chunks: seq<Event>, last: nat)
    requires forall k :: 0 <= k < |chunks| ==> chunks[k].Chunk?
    ensures Events(fin, dep, w, chunks, last).Some?
    decreases |chunks|
  {
    if chunks != [] {
      ChunksAlwaysRun(fin, dep, fin(w, chunks[0].n), chunks[1..], last);
    }
  }

  lemma ChunksAlone(fin: Finalizer, dep: Depositor, ok: World -> bool, w: World, chunks: seq<Event>, last: nat)
    requires Commuting(fin, dep, ok) && ok(w) && forall k :: 0 <= k < |chunks| ==> chunks[k].Chunk?
    ensures Events(fin, dep, w, chunks, last) == Some(fin(w, ChunkTotal(chunks) + last))
  {
    ChunksAlwaysRun(fin, dep, w, chunks, last);
    CommutingEvents(fin, dep, ok, w, chunks, last);
    NoDeposits(dep, fin(w, ChunkTotal(chunks) + last), chunks);
  }

  /** Finalize calls alone, of any sizes, give the world of one call of the same total size. */
  lemma ChunksDoNotMatter(w: World, chunks: seq<Event>, last: nat)
    requires PastStakes(w) && forall k :: 0 <= k < |chunks| ==> chunks[k].Chunk?
    ensures Events(Finalized, DepositStakeAccount, w, chunks, last) == Some(Finalized(w, ChunkTotal(chunks) + last))
  {
    ChunksCommute();
    StakesCommute();
    ChunksAlone(Finalized, DepositStakeAccount, PastStakes, w, chunks, last);
  }

  lemma ChunkFirst(w: World, n: nat, size: nat)
    requires WorldOk(w)
    requires w.state.ledger.upgrader.IteratingValidators? || w.state.ledger.upgrader.Done?
    ensures WorldOk(Finalized(w, n)) && Finalized(Finalized(w, n), size) == Finalized(w, n + size)
    ensures Finalized(w, n).state.ledger.upgrader.IteratingValidators? || Finalized(w, n).state.ledger.upgrader.Done?
  {
    ChunksCompose(w, n, size);
    FinalizedStays(w, n);
  }

  lemma StakeFirst(w: World, account: Key, j: nat, size: nat, w': World)
    requires WorldOk(w) && DepositStakeAccount(w, account, j) == Some(w')
    requires w.state.ledger.upgrader.IteratingValidators? || w.state.ledger.upgrader.Done?
    ensures WorldOk(w') && (w'.state.ledger.upgrader.IteratingValidators? || w'.state.ledger.upgrader.Done?)
    ensures DepositStakeAccount(Finalized(w, size), account, j) == Some(Finalized(w', size))
  {
    DepositStakeAccountOk(w, account, j, w');
    DepositLedger(w, account, j, w');
    DepositCommutes(w, account, j, size, w');
  }

  // ---------- the order of phase 1 ----------

  /** Lamports of the non-emergency and of the emergency records in `rs`. */
  function DrawnDelayed(rs: seq<StakeRecord>): nat {
    if rs == [] then 0 else DrawnDelayed(rs[..|rs| - 1]) + (if rs[|rs| - 1].emergency then 0 else rs[|rs| - 1].lamports)
  }

  function DrawnEmergency(rs: seq<StakeRecord>): nat {
    if rs == [] then 0 else DrawnEmergency(rs[..|rs| - 1]) + (if rs[|rs| - 1].emergency then rs[|rs| - 1].lamports else 0)
  }

  lemma {:induction false} DrawnOfPermutation(rs: seq<StakeRecord>, ts: seq<StakeRecord>)
    requires multiset(rs) == multiset(ts)
    ensures DrawnDelayed(rs) == DrawnDelayed(ts) && DrawnEmergency(rs) == DrawnEmergency(ts)
    decreases |rs|
  {
    assert |rs| == |multiset(rs)| == |multiset(ts)| == |ts|;
    if rs != [] {
      var n := |rs| - 1;
      var r := rs[n];
      assert rs == rs[..n] + [r];
      assert r in multiset(ts);
      var i :| 0 <= i < |ts| && ts[i] == r;
      var us := ts[..i] + ts[i + 1..];
      assert ts == ts[..i] + [r] + ts[i + 1..];
      assert multiset(ts) == multiset(ts[..i]) + multiset([r]) + multiset(ts[i + 1..]);
      assert multiset(us) == multiset(ts) - multiset{r};
      assert multiset(rs) == multiset(rs[..n]) + multiset([r]);
      assert multiset(rs[..n]) == multiset(rs) - multiset{r};
      DrawnOfPermutation(rs[..n], us);
      DrawnInsert(ts[..i], r, ts[i + 1..]);
    }
  }

  lemma DrawnInsert(us: seq<StakeRecord>, r: StakeRecord, vs: seq<StakeRecord>)
    ensures DrawnDelayed(us + [r] + vs) == DrawnDelayed(us + vs) + (if r.emergency then 0 else r.lamports)
    ensures DrawnEmergency(us + [r] + vs) == DrawnEmergency(us + vs) + (if r.emergency then r.lamports else 0)
  {
    DrawnAppend(us + [r], vs);
    DrawnAppend(us, [r]);
    DrawnAppend(us, vs);
    DrawnOfOne(r);
  }

  lemma {:induction false} DrawnAppend(rs: seq<StakeRecord>, ts: seq<StakeRecord>)
    ensures DrawnDelayed(rs + ts) == DrawnDelayed(rs) + DrawnDelayed(ts)
    ensures DrawnEmergency(rs + ts) == DrawnEmergency(rs) + DrawnEmergency(ts)
  {
    if ts == [] {
      assert rs + ts == rs;
    } else {
      DrawnAppend(rs, ts[..|ts| - 1]);
      assert (rs + ts)[..|rs + ts| - 1] == rs + ts[..|ts| - 1];
    }
  }

  lemma DrawnOfOne(r: StakeRecord)
    ensures DrawnDelayed([r]) == if r.emergency then 0 else r.lamports
    ensures DrawnEmergency([r]) == if r.emergency then r.lamports else 0
  {
    assert [r][..0] == [];
  }
}
