/** A withdrawal with a live treasury that lowers the price, and with it the value of the pool. */
module Rounding {
  import opened Base
  import opened Calc
  import opened Model
  import opened Instructions
  import opened Parts
  import opened LedgerSafety
  import opened Price
  import opened Solvency
  import opened RoundTrips
  import opened Totality
  import opened Slashing
  import opened Examples

  /** One stake of `stake` lamports, `msol` mSOL, `leg` of it in the pool, and open withdrawals. */
  function Withdrawable(stake: nat, msol: nat, leg: nat): World {
    var w := Pooled(stake, stake, msol, leg, PRICE_DENOMINATOR);
    w.(state := w.state.(cfg := w.state.cfg.(withdrawStakeEnabled := true)))
  }

  lemma WithdrawableIsSolvent(stake: nat, msol: nat, leg: nat)
    requires leg <= msol && stake >= 10_000_000
    ensures Solvent(Withdrawable(stake, msol, leg), 10_000_000)
  {
    PooledIsSolvent(stake, msol, leg, PRICE_DENOMINATOR, 10_000_000);
  }

  lemma NoFees(lamports: nat)
    ensures ApplyFeeCents(0, lamports) == 0
  {
  }

  lemma WithdrawalSucceeds(stake: nat, msol: nat, leg: nat, amount: nat, split: nat, splitAccount: Key)
    requires stake <= U64_MAX && msol <= U64_MAX && splitAccount != Address(1)
    requires leg + amount <= msol && 0 < msol && split == amount * stake / msol
    requires 10_000_000 <= split && split + 10_000_000 <= stake
    ensures WithdrawStakeAccount(Withdrawable(stake, msol, leg), 0, Address(1), 0, amount, true, splitAccount).Some?
    ensures SplitOf(Withdrawable(stake, msol, leg).state, amount) == Some(split)
  {
    var w := Withdrawable(stake, msol, leg);
    WithdrawableIsSolvent(stake, msol, leg);
    NoFees(split);
    assert MsolToSol(w.state, amount) == Some(split);
    assert WithdrawGuards(w, 0, 0, amount);
    WithdrawStakeAccountTotal(w, 0, 0, amount, true, splitAccount);
  }

  /** Such a withdrawal lowers the price when its burn is not exact, and the pool's value when the
      floored value of its leg falls. */
  lemma WithdrawalLowers(stake: nat, msol: nat, leg: nat, amount: nat, split: nat, burned: nat, splitAccount: Key)
    returns (w': World)
    requires stake <= U64_MAX && msol <= U64_MAX && splitAccount != Address(1)
    requires leg + amount <= msol && 0 < leg && split == amount * stake / msol
    requires 10_000_000 <= split && split + 10_000_000 <= stake
    requires split * msol % stake != 0 && burned == split * msol / stake
    ensures WithdrawStakeAccount(Withdrawable(stake, msol, leg), 0, Address(1), 0, amount, true, splitAccount) == Some(w')
    ensures !KeepsPrice(Withdrawable(stake, msol, leg).state, w'.state)
    ensures burned < msol && PoolValue(w') == leg * (stake - split) / (msol - burned)
    ensures PoolValue(Withdrawable(stake, msol, leg)) == leg * stake / msol
  {
    var w := Withdrawable(stake, msol, leg);
    WithdrawableIsSolvent(stake, msol, leg);
    WithdrawalSucceeds(stake, msol, leg, amount, split, splitAccount);
    w' := WithdrawStakeAccount(w, 0, Address(1), 0, amount, true, splitAccount).value;
    TreasuryWithdrawalKeepsPriceIff(w, 0, Address(1), 0, amount, splitAccount, w');
    var delivered, cost := WithdrawParts(w, 0, Address(1), 0, amount, true, splitAccount, w');
    assert delivered == split && cost == burned;
    var s, c := WithdrawSplits(w, 0, Address(1), 0, amount, true, splitAccount, w');
  }

  /** 20_000_000 lamports back 10_000_001 mSOL atoms, 5_000_000 of them in the pool. Withdrawing with
      5_000_001 atoms delivers 10_000_000 lamports and burns 5_000_000: half an atom is rounded off, the
      price falls, and the pool is worth a lamport less. */
  lemma RoundedBurnLowersPrice(splitAccount: Key) returns (w: World, w': World)
    requires splitAccount != Address(1)
    ensures w == Withdrawable(20_000_000, 10_000_001, 5_000_000) && Solvent(w, 10_000_000)
    ensures WithdrawStakeAccount(w, 0, Address(1), 0, 5_000_001, true, splitAccount) == Some(w')
    ensures !KeepsPrice(w.state, w'.state)
    ensures PoolValue(w) == 9_999_999 && PoolValue(w') == 9_999_998
  {
    w := Withdrawable(20_000_000, 10_000_001, 5_000_000);
    WithdrawableIsSolvent(20_000_000, 10_000_001, 5_000_000);
    w' := WithdrawalLowers(20_000_000, 10_000_001, 5_000_000, 5_000_001, 10_000_000, 5_000_000, splitAccount);
  }
}
