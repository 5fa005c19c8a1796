/** The mSOL price, Virtual / msolSupply, under every instruction, compared by
    cross-multiplication so that no rounding of the comparison itself is involved. */
module Price {
  import opened Base
  import opened Calc
  import opened Model
  import opened Instructions
  import opened Parts
  import L = LedgerOps

  /** The price after is at least the price before. */
  predicate KeepsPrice(s: State, s': State) {
    Virtual(s') * s.msolSupply >= Virtual(s) * s'.msolSupply
  }

  /** What the program believes about its reserve and its supply is covered by the chain. */
  predicate Covered(w: World) {
    && w.chain.reserveLamports >= w.state.reserve + w.state.cfg.rent
    && w.chain.msolMinted <= w.state.msolSupply
    && w.chain.msolLeg <= w.chain.msolMinted
  }

  // ---------- arithmetic ----------

  lemma Transitive(v0: nat, s0: nat, v1: nat, s1: nat, v2: nat, s2: nat)
    requires s1 > 0 && v1 * s0 >= v0 * s1 && v2 * s1 >= v1 * s2
    ensures v2 * s0 >= v0 * s2
  {
    MulMono(v0 * s1, v1 * s0, s2);
    MulMono(v1 * s2, v2 * s1, s0);
    assert v0 * s1 * s2 == v0 * s2 * s1;
    assert v1 * s0 * s2 == v1 * s2 * s0;
    assert v2 * s1 * s0 == v2 * s0 * s1;
    CancelMul(v0 * s2, v2 * s0, s1);
  }

  /** New shares that cost no less than their part. */
  lemma MintKeeps(v: nat, s: nat, dv: nat, ds: nat)
    requires ds * v <= dv * s
    ensures (v + dv) * s >= v * (s + ds)
  {
    Distribute(v, dv, s);
    Distribute(s, ds, v);
  }

  /** Shares removed for no more than their part. */
  lemma BurnKeeps(v: nat, s: nat, dv: nat, ds: nat)
    requires dv <= v && ds <= s && dv * s <= ds * v
    ensures (v - dv) * s >= v * (s - ds)
  {
    Distribute(v, dv, s);
    Distribute(s, ds, v);
  }

  lemma PriceTransitive(s0: State, s1: State, s2: State)
    requires s1.msolSupply > 0 && KeepsPrice(s0, s1) && KeepsPrice(s1, s2)
    ensures KeepsPrice(s0, s2)
  {
    Transitive(Virtual(s0), s0.msolSupply, Virtual(s1), s1.msolSupply, Virtual(s2), s2.msolSupply);
  }

  /** More lamports under control, no more shares. */
  lemma GrowthKeeps(s: State, s': State)
    requires Virtual(s') >= Virtual(s) && s'.msolSupply <= s.msolSupply
    ensures KeepsPrice(s, s')
  {
    MulMono(Virtual(s), Virtual(s'), s.msolSupply);
    MulMono(s'.msolSupply, s.msolSupply, Virtual(s));
  }

  /** `dv` more lamports under control for `ds` more shares that cost no less than their part. */
  lemma MintKeepsPrice(s: State, s': State, dv: nat, ds: nat)
    requires Control(s') == Control(s) + dv && s'.ticketBalance == s.ticketBalance
    requires s'.msolSupply == s.msolSupply + ds
    requires Covers(dv, ds, Virtual(s), s.msolSupply)
    ensures KeepsPrice(s, s')
  {
    if Virtual(s) > 0 {
      MintKeeps(Virtual(s), s.msolSupply, dv, ds);
    }
  }

  /** `ds` of `s` shares are worth at most `dv` at the total value `v`. */
  predicate Covers(dv: nat, ds: nat, v: nat, s: nat) {
    ds * v <= dv * s
  }

  lemma CoversLess(dv: nat, ds: nat, v: nat, more: nat, s: nat)
    requires v <= more && Covers(dv, ds, more, s)
    ensures Covers(dv, ds, v, s)
  {
    MulMono(v, more, ds);
  }

  lemma CoversDifference(dv: nat, ds: nat, less: nat, fewer: nat, v: nat, s: nat)
    requires Covers(dv, ds, v, s) && less <= dv && fewer <= ds
    requires less * s <= fewer * v
    ensures Covers(dv - less, ds - fewer, v, s)
  {
    Distribute(ds, fewer, v);
    Distribute(dv, less, s);
  }

  // ---------- users ----------

  /** The order a deposit is converted to, and how it is split. */
  lemma DepositParts(w: World, lamports: nat, userFunds: nat, w': World) returns (order: nat, swapped: nat, sold: nat)
    requires Deposit(w, lamports, userFunds) == Some(w')
    ensures var s := w.state;
            && MsolFromLamports(s, SaturatingSub(lamports, ApplyFeeCents(s.cfg.depositSolFee, lamports))) == Some(order)
            && swapped == (if order <= w.chain.msolLeg then order else w.chain.msolLeg)
            && sold <= lamports
            && (swapped == 0 ==> sold == 0)
            && (0 < swapped == order ==> sold == lamports)
            && (0 < swapped < order ==> MsolToSol(s, swapped) == Some(sold))
            && w'.state == s.(reserve := s.reserve + (lamports - sold), msolSupply := s.msolSupply + (order - swapped))
            && w'.chain == w.chain.(solLeg := w.chain.solLeg + sold, msolLeg := w.chain.msolLeg - swapped,
                                    reserveLamports := w.chain.reserveLamports + (lamports - sold),
                                    msolMinted := w.chain.msolMinted + (order - swapped))
  {
    var s := w.state;
    order := MsolFromLamports(s, SaturatingSub(lamports, ApplyFeeCents(s.cfg.depositSolFee, lamports))).value;
    swapped := if order <= w.chain.msolLeg then order else w.chain.msolLeg;
    sold := if swapped == 0 then 0 else if swapped == order then lamports else MsolToSol(s, swapped).value;
  }

  /** Shares for a net amount are worth at most the gross amount, at the price before. */
  lemma NetIsCovered(s: State, net: nat, gross: nat, shares: nat)
    requires s.msolSupply > 0 && net <= gross && MsolFromLamports(s, net) == Some(shares)
    ensures Covers(gross, shares, Virtual(s), s.msolSupply)
  {
    SharesAreCovered(net, Virtual(s), s.msolSupply);
    MulMono(net, gross, s.msolSupply);
  }

  /** What the reserve and the supply gain from a deposit. */
  lemma DepositGains(w: World, lamports: nat, userFunds: nat, w': World) returns (dv: nat, ds: nat)
    requires w.state.msolSupply > 0 && Deposit(w, lamports, userFunds) == Some(w')
    ensures Control(w'.state) == Control(w.state) + dv && w'.state.ticketBalance == w.state.ticketBalance
    ensures w'.state.msolSupply == w.state.msolSupply + ds
    ensures Covers(dv, ds, Virtual(w.state), w.state.msolSupply)
  {
    var s := w.state;
    var order, swapped, sold := DepositParts(w, lamports, userFunds, w');
    dv, ds := lamports - sold, order - swapped;
    NetIsCovered(s, SaturatingSub(lamports, ApplyFeeCents(s.cfg.depositSolFee, lamports)), lamports, order);
    if swapped == 0 {
      assert Covers(lamports, order, Virtual(s), s.msolSupply);
    } else if swapped < order {
      ValueIsCovered(swapped, Virtual(s), s.msolSupply);
      CoversDifference(lamports, order, sold, swapped, Virtual(s), s.msolSupply);
    }
  }

  lemma DepositKeepsPrice(w: World, lamports: nat, userFunds: nat, w': World)
    requires w.state.msolSupply > 0 && Deposit(w, lamports, userFunds) == Some(w')
    ensures KeepsPrice(w.state, w'.state)
  {
    var dv, ds := DepositGains(w, lamports, userFunds, w');
    MintKeepsPrice(w.state, w'.state, dv, ds);
  }

  lemma DepositStakeAccountKeepsPrice(w: World, account: Key, j: nat, w': World)
    requires w.state.msolSupply > 0 && DepositStakeAccount(w, account, j) == Some(w')
    ensures KeepsPrice(w.state, w'.state)
  {
    var stake, minted := DepositStakeAccountGains(w, account, j, w');
    MintKeepsPrice(w.state, w'.state, stake, minted);
  }

  lemma DepositStakeAccountGains(w: World, account: Key, j: nat, w': World) returns (stake: nat, minted: nat)
    requires w.state.msolSupply > 0 && DepositStakeAccount(w, account, j) == Some(w')
    ensures Control(w'.state) == Control(w.state) + stake && w'.state.ticketBalance == w.state.ticketBalance
    ensures w'.state.msolSupply == w.state.msolSupply + minted
    ensures Covers(stake, minted, Virtual(w.state), w.state.msolSupply)
  {
    var s := w.state;
    stake := w.chain.accounts[account].delegation.value.stake;
    minted := w'.state.msolSupply - s.msolSupply;
    NetIsCovered(s, SaturatingSub(stake, ApplyFeeCents(s.cfg.depositStakeFee, stake)), stake, minted);
  }

  lemma OrderUnstakeKeepsPrice(w: World, msol: nat, ticket: Key, w': World)
    requires w.state.msolSupply > 0 && OrderUnstake(w, msol, ticket) == Some(w')
    ensures KeepsPrice(w.state, w'.state)
    ensures Control(w.state) >= w.state.ticketBalance ==> Control(w'.state) >= w'.state.ticketBalance
  {
    var s := w.state;
    var v, lamports := Virtual(s), w'.state.ticketBalance - s.ticketBalance;
    var value := MsolToSol(s, msol).value;
    ValueIsCovered(msol, v, s.msolSupply);
    MulMono(lamports, value, s.msolSupply);
    MulMono(msol, s.msolSupply, v);
    CancelMul(value, v, s.msolSupply);
    if v > 0 {
      BurnKeeps(v, s.msolSupply, lamports, msol);
    }
  }

  // ---------- withdrawing a stake account ----------

  /** What a withdrawal of `msol` delivers. */
  function SplitOf(s: State, msol: nat): Option<nat> {
    var value :- MsolToSol(s, msol);
    Sub(value, ApplyFeeCents(s.cfg.withdrawStakeFee, value))
  }

  /** The delivered lamports are worth a whole number of mSOL atoms: nothing is rounded off the burn. */
  predicate BurnIsExact(s: State, msol: nat) {
    SplitOf(s, msol).Some? && Virtual(s) > 0 ==> SplitOf(s, msol).value * s.msolSupply % Virtual(s) == 0
  }

  lemma SplitTakes(w: World, i: nat, account: Key, j: nat, split: nat, burned: nat, splitAccount: Key, w': World)
    requires i < |w.state.ledger.stakes| && j < |w.state.ledger.validators|
    requires SplitForUser(w, i, account, j, split, burned, splitAccount) == Some(w')
    ensures burned <= w.state.msolSupply && w'.state.msolSupply == w.state.msolSupply - burned
    ensures Control(w'.state) == Control(w.state) - split && w'.state.ticketBalance == w.state.ticketBalance
  {
  }

  lemma WithdrawSplitsAt(w: World, i: nat, account: Key, j: nat, msol: nat, treasury: bool, splitAccount: Key, w': World)
    returns (split: nat, burned: nat)
    requires WithdrawStakeAccount(w, i, account, j, msol, treasury, splitAccount) == Some(w')
    ensures i < |w.state.ledger.stakes| && j < |w.state.ledger.validators|
    ensures SplitForUser(w, i, account, j, split, burned, splitAccount) == Some(w')
    ensures SplitOf(w.state, msol) == Some(split)
    ensures if treasury then MsolFromLamports(w.state, split).Some?
                             && burned == Min(MsolFromLamports(w.state, split).value, msol)
            else burned == msol
  {
    split := SplitOf(w.state, msol).value;
    burned := if treasury then Min(MsolFromLamports(w.state, split).value, msol) else msol;
  }

  lemma WithdrawParts(w: World, i: nat, account: Key, j: nat, msol: nat, treasury: bool, splitAccount: Key, w': World)
    returns (split: nat, burned: nat)
    requires WithdrawStakeAccount(w, i, account, j, msol, treasury, splitAccount) == Some(w')
    ensures burned <= msol && burned <= w.state.msolSupply
    ensures w'.state.msolSupply == w.state.msolSupply - burned
    ensures Control(w'.state) == Control(w.state) - split && w'.state.ticketBalance == w.state.ticketBalance
    ensures MsolToSol(w.state, msol).Some? && split <= MsolToSol(w.state, msol).value
    ensures !treasury ==> burned == msol
    ensures treasury ==> MsolFromLamports(w.state, split) == Some(burned)
    ensures SplitOf(w.state, msol) == Some(split)
  {
    split, burned := WithdrawSplitsAt(w, i, account, j, msol, treasury, splitAccount, w');
    SplitTakes(w, i, account, j, split, burned, splitAccount, w');
    if treasury {
      NeverSaturates(w.state, msol, split);
    }
  }

  /** The mSOL cost of what is delivered never exceeds the mSOL handed in. */
  lemma NeverSaturates(s: State, msol: nat, split: nat)
    requires MsolToSol(s, msol).Some? && split <= MsolToSol(s, msol).value
    requires MsolFromLamports(s, split).Some?
    ensures MsolFromLamports(s, split).value <= msol
  {
    var v, supply := Virtual(s), s.msolSupply;
    if supply > 0 {
      ValueIsCovered(msol, v, supply);
      MulMono(split, MsolToSol(s, msol).value, supply);
      if v > 0 {
        var cost := MsolFromLamports(s, split).value;
        SharesAreCovered(split, v, supply);
        CancelMul(cost, msol, v);
      } else {
        MulMono(1, supply, split);
      }
    }
  }

  /** A floored burn of shares: the price falls by less than one share's worth. */
  lemma FlooredBurn(v: nat, s: nat, dv: nat, ds: nat)
    requires v > 0 && ds <= s && ds * v <= dv * s < ds * v + v
    ensures v * (s - ds) - SaturatingSub(v, dv) * s < v
  {
    Distribute(s, ds, v);
    if dv <= v {
      Distribute(v, dv, s);
    } else {
      MulMono(v, dv, s);
      Distribute(ds, -1, v);
      if ds + 1 <= s {
        MulMono(ds + 1, s, v);
        assert false;
      }
    }
  }

  lemma SplitIsCovered(s: State, msol: nat, split: nat)
    requires s.msolSupply > 0
    requires MsolToSol(s, msol).Some? && split <= MsolToSol(s, msol).value
    ensures split * s.msolSupply <= msol * Virtual(s)
    ensures msol <= s.msolSupply ==> split <= Virtual(s)
  {
    var value := MsolToSol(s, msol).value;
    ValueIsCovered(msol, Virtual(s), s.msolSupply);
    MulMono(split, value, s.msolSupply);
    if msol <= s.msolSupply {
      MulMono(msol, s.msolSupply, Virtual(s));
      CancelMul(split, Virtual(s), s.msolSupply);
    }
  }

  /** With a treasury the burn is rounded down: less than one mSOL atom's worth is lost. */
  lemma WithdrawStakeAccountTolerance(w: World, i: nat, account: Key, j: nat, msol: nat, splitAccount: Key, w': World)
    requires w.state.msolSupply > 0 && Virtual(w.state) > 0
    requires WithdrawStakeAccount(w, i, account, j, msol, true, splitAccount) == Some(w')
    ensures var s, s' := w.state, w'.state; var v := Virtual(s);
            v * s'.msolSupply - Virtual(s') * s.msolSupply < v
  {
    var s := w.state;
    var split, burned := WithdrawParts(w, i, account, j, msol, true, splitAccount, w');
    Floor(split * s.msolSupply, Virtual(s));
    FlooredBurn(Virtual(s), s.msolSupply, split, burned);
  }

  /** Burning the floored cost of `dv` keeps the price exactly when nothing was floored. */
  lemma FlooredBurnIff(v: nat, s: nat, dv: nat)
    requires v > 0 && dv <= v && dv * s / v <= s
    ensures (v - dv) * s >= v * (s - dv * s / v) <==> dv * s % v == 0
  {
    var ds := dv * s / v;
    assert dv * s == v * ds + dv * s % v;
    Distribute(v, dv, s);
    Distribute(s, ds, v);
  }

  /** With a live treasury a withdrawal keeps the price if and only if its burn is exact. */
  lemma TreasuryWithdrawalKeepsPriceIff(w: World, i: nat, account: Key, j: nat, msol: nat, splitAccount: Key, w': World)
    requires Covered(w) && w.state.msolSupply > 0
    requires WithdrawStakeAccount(w, i, account, j, msol, true, splitAccount) == Some(w')
    ensures KeepsPrice(w.state, w'.state) <==> BurnIsExact(w.state, msol)
  {
    var s := w.state;
    var split, burned := WithdrawParts(w, i, account, j, msol, true, splitAccount, w');
    if Virtual(s) > 0 {
      SplitIsCovered(s, msol, split);
      FlooredBurnIff(Virtual(s), s.msolSupply, split);
    }
  }

  /** Without a treasury all the mSOL is burned and the price does not fall. */
  lemma WithdrawStakeAccountKeepsPrice(w: World, i: nat, account: Key, j: nat, msol: nat, splitAccount: Key, w': World)
    requires w.state.msolSupply > 0
    requires WithdrawStakeAccount(w, i, account, j, msol, false, splitAccount) == Some(w')
    ensures KeepsPrice(w.state, w'.state)
  {
    var s := w.state;
    var split, burned := WithdrawParts(w, i, account, j, msol, false, splitAccount, w');
    SplitIsCovered(s, msol, split);
    if Virtual(s) > 0 {
      BurnKeeps(Virtual(s), s.msolSupply, split, burned);
    }
  }

  // ---------- updates ----------

  /** A reward fee is never worth more than the lamports that came in. */
  lemma FeeIsCovered(s: State, incoming: nat, treasury: bool)
    requires s.cfg.rewardFee <= MAX_BASIS_POINTS && s.msolSupply > 0
    requires ProtocolFee(s, incoming, treasury).Some?
    ensures Covers(incoming, ProtocolFee(s, incoming, treasury).value, Virtual(s), s.msolSupply)
  {
    if treasury {
      var fee := ApplyFee(s.cfg.rewardFee, incoming);
      FeeIsPart(s.cfg.rewardFee, incoming);
      SharesAreCovered(fee, Virtual(s), s.msolSupply);
      MulMono(fee, incoming, s.msolSupply);
    }
  }

  /** Fees minted for lamports that are credited afterwards. */
  lemma FeeBeforeCredit(s: State, minted: State, s': State, incoming: nat, treasury: bool)
    requires s.cfg.rewardFee <= MAX_BASIS_POINTS && s.msolSupply > 0
    requires MintFee(s, incoming, treasury) == Some(minted)
    requires Control(s') == Control(s) + incoming && s'.ticketBalance == s.ticketBalance
    requires s'.msolSupply == minted.msolSupply
    ensures KeepsPrice(s, s')
  {
    FeeIsCovered(s, incoming, treasury);
    MintKeepsPrice(s, s', incoming, ProtocolFee(s, incoming, treasury).value);
  }

  /** Extra lamports are credited before their fee is priced. */
  lemma CreditExtraKeepsPrice(s: State, extra: nat, treasury: bool, s': State)
    requires s.cfg.rewardFee <= MAX_BASIS_POINTS && s.msolSupply > 0
    requires CreditExtra(s, extra, treasury) == Some(s')
    ensures KeepsPrice(s, s') && Control(s') == Control(s) + extra
    ensures s' == s.(reserve := s'.reserve, msolSupply := s'.msolSupply) && s'.msolSupply >= s.msolSupply
  {
    if extra > 0 {
      var credited := s.(reserve := s.reserve + extra);
      var fee := ProtocolFee(credited, extra, treasury).value;
      FeeIsCovered(credited, extra, treasury);
      CoversLess(extra, fee, Virtual(s), Virtual(credited), s.msolSupply);
      MintKeepsPrice(s, s', extra, fee);
    }
  }

  // ---------- update_active ----------

  lemma VisitTotals(l: Ledger, l1: Ledger, l2: Ledger, i: nat, j: nat, stake: nat, epoch: nat)
    requires i < |l.stakes| && j < |l.validators|
    requires L.Recognize(l, i, j) == Some(l1) && L.Observe(l1, i, j, stake, epoch) == Some(l2)
    ensures l1.totalActive == l.totalActive && l2.totalActive + l.stakes[i].lamports == l.totalActive + stake
    ensures l2.delayedCooling == l1.delayedCooling == l.delayedCooling
    ensures l2.emergencyCooling == l1.emergencyCooling == l.emergencyCooling
  {
  }

  /** The stages of update_active: resynced, extra lamports credited, reward fee minted. */
  lemma UpdateActiveStages(w: World, i: nat, account: Key, j: nat, treasury: bool, w': World)
    returns (s1: State, s2: State, s3: State, extra: nat)
    requires UpdateActiveCore(w, i, account, j, treasury) == Some(w')
    ensures i < |w.state.ledger.stakes| && j < |w.state.ledger.validators|
    ensures account in w.chain.accounts && w.chain.accounts[account].delegation.Some?
    ensures Resync(w.state, w.chain) == Some(s1)
    ensures L.Recognize(w.state.ledger, i, j).Some?
    ensures CreditExtra(s1.(ledger := L.Recognize(w.state.ledger, i, j).value), extra, treasury) == Some(s2)
    ensures var r := w.state.ledger.stakes[i]; var stake := w.chain.accounts[account].delegation.value.stake;
            && FeeOnGrowth(s2, r.lamports, stake, treasury) == Some(s3)
            && L.Observe(L.Recognize(w.state.ledger, i, j).value, i, j, stake, w.chain.clock.epoch)
               == Some(w'.state.ledger)
    ensures w'.state == s3.(ledger := w'.state.ledger, msolPrice := w'.state.msolPrice)
  {
    var l1;
    s1, l1 := UpdateActiveSettles(w, i, account, j, treasury, w');
    s2, s3, extra := SettleActiveStages(World(s1.(ledger := l1), w.chain), i, account, j,
                                        w.state.ledger.stakes[i].lamports, treasury, w');
  }

  lemma ResyncKeepsPrice(w: World, s1: State)
    requires Covered(w) && Resync(w.state, w.chain) == Some(s1)
    ensures KeepsPrice(w.state, s1)
  {
    GrowthKeeps(w.state, s1);
  }

  lemma UpdateActiveCoreKeepsPrice(w: World, i: nat, account: Key, j: nat, treasury: bool, w': World)
    requires Covered(w) && w.chain.msolMinted > 0 && w.state.cfg.rewardFee <= MAX_BASIS_POINTS
    requires UpdateActiveCore(w, i, account, j, treasury) == Some(w')
    requires i < |w.state.ledger.stakes| && account in w.chain.accounts && w.chain.accounts[account].delegation.Some?
    requires w.chain.accounts[account].delegation.value.stake >= w.state.ledger.stakes[i].lamports
    ensures KeepsPrice(w.state, w'.state)
  {
    var s1, s2, s3, extra := UpdateActiveStages(w, i, account, j, treasury, w');
    var l1 := L.Recognize(w.state.ledger, i, j).value;
    var stake := w.chain.accounts[account].delegation.value.stake;
    VisitTotals(w.state.ledger, l1, w'.state.ledger, i, j, stake, w.chain.clock.epoch);
    ResyncKeepsPrice(w, s1);
    CreditExtraKeepsPrice(s1.(ledger := l1), extra, treasury, s2);
    FeeBeforeCredit(s2, s3, w'.state, stake - w.state.ledger.stakes[i].lamports, treasury);
    PriceTransitive(w.state, s1, s2);
    PriceTransitive(w.state, s2, w'.state);
  }

  /** Collecting a record takes its last recorded delegation out of the ledger totals, whether the
      record was Active, cooling or legacy, and in every phase of the migration. */
  lemma CollectTakesRecorded(l: Ledger, i: nat, j: nat, l': Ledger)
    requires i < |l.stakes| && j < |l.validators| && L.Collect(l, i, j) == Some(l')
    ensures l'.totalActive + l'.delayedCooling + l'.emergencyCooling
            == l.totalActive + l.delayedCooling + l.emergencyCooling - l.stakes[i].lamports
  {
  }

  lemma SettleDeactivatedStages(w: World, i: nat, account: Key, treasury: bool, w': World) returns (s1: State)
    requires i < |w.state.ledger.stakes| && account in w.chain.accounts
    requires SettleDeactivated(w, i, account, treasury) == Some(w')
    ensures w.chain.accounts[account].lamports >= w.chain.accounts[account].rent
    ensures var r := w.state.ledger.stakes[i]; var source := w.chain.accounts[account];
            && FeeOnGrowth(w.state, r.lamports, source.lamports - source.rent, treasury) == Some(s1)
            && L.Draw(w.state.ledger, r.lamports, r.emergency) == Some(w'.state.ledger.(stakes := w.state.ledger.stakes))
            && w'.state.ledger.stakes == SwapRemove(w.state.ledger.stakes, i)
            && w'.state == w.state.(reserve := w.state.reserve + (source.lamports - source.rent),
                                    msolSupply := s1.msolSupply, msolPrice := w'.state.msolPrice, ledger := w'.state.ledger)
  {
    var r, source := w.state.ledger.stakes[i], w.chain.accounts[account];
    s1 := FeeOnGrowth(w.state, r.lamports, source.lamports - source.rent, treasury).value;
  }

  lemma UpdateDeactivatedStages(w: World, i: nat, account: Key, j: nat, treasury: bool, w': World)
    returns (s1: State, s2: State, s3: State)
    requires UpdateDeactivatedCore(w, i, account, j, treasury) == Some(w')
    ensures i < |w.state.ledger.stakes| && j < |w.state.ledger.validators|
    ensures account in w.chain.accounts && w.chain.accounts[account].lamports >= w.chain.accounts[account].rent
    ensures Resync(w.state, w.chain) == Some(s1)
    ensures Control(s2) == Control(s1) && s2.ticketBalance == s1.ticketBalance && s2.cfg == s1.cfg
    ensures s2.msolSupply == s1.msolSupply
    ensures L.Collect(w.state.ledger, i, j) == Some(w'.state.ledger) && w'.state.ticketBalance == s1.ticketBalance
    ensures var r, source := w.state.ledger.stakes[i], w.chain.accounts[account];
            var balance := source.lamports - source.rent;
            && w'.state.reserve == s1.reserve + balance
            && FeeOnGrowth(s2, r.lamports, balance, treasury) == Some(s3)
            && w'.state.msolSupply == s3.msolSupply
  {
    s1 := Resync(w.state, w.chain).value;
    s2 := s1.(ledger := L.Reclassify(w.state.ledger, i, j).value);
    ReclassifyKeeps(w.state.ledger, i, j, s2.ledger);
    s3 := SettleDeactivatedStages(World(s2, w.chain), i, account, treasury, w');
  }

  lemma ReclassifyKeeps(l: Ledger, i: nat, j: nat, l': Ledger)
    requires i < |l.stakes| && j < |l.validators| && L.Reclassify(l, i, j) == Some(l')
    ensures |l'.stakes| == |l.stakes| && l'.stakes[i].lamports == l.stakes[i].lamports
    ensures l'.totalActive + l'.delayedCooling + l'.emergencyCooling
            == l.totalActive + l.delayedCooling + l.emergencyCooling
  {
  }

  lemma UpdateDeactivatedCoreControl(w: World, i: nat, account: Key, j: nat, treasury: bool, w': World)
    requires UpdateDeactivatedCore(w, i, account, j, treasury) == Some(w')
    ensures i < |w.state.ledger.stakes| && account in w.chain.accounts
    ensures var source := w.chain.accounts[account];
            Resync(w.state, w.chain).Some? &&
            Control(w'.state) == Control(Resync(w.state, w.chain).value)
                                 + (source.lamports - source.rent) - w.state.ledger.stakes[i].lamports
  {
    var s1, s2, s3 := UpdateDeactivatedStages(w, i, account, j, treasury, w');
    CollectTakesRecorded(w.state.ledger, i, j, w'.state.ledger);
  }

  lemma UpdateDeactivatedCoreKeepsPrice(w: World, i: nat, account: Key, j: nat, treasury: bool, w': World)
    requires Covered(w) && w.chain.msolMinted > 0 && w.state.cfg.rewardFee <= MAX_BASIS_POINTS
    requires UpdateDeactivatedCore(w, i, account, j, treasury) == Some(w')
    requires i < |w.state.ledger.stakes| && account in w.chain.accounts
    requires w.chain.accounts[account].lamports - w.chain.accounts[account].rent >= w.state.ledger.stakes[i].lamports
    ensures KeepsPrice(w.state, w'.state)
  {
    var s1, s2, s3 := UpdateDeactivatedStages(w, i, account, j, treasury, w');
    UpdateDeactivatedCoreControl(w, i, account, j, treasury, w');
    ResyncKeepsPrice(w, s1);
    var source := w.chain.accounts[account];
    var rewards := source.lamports - source.rent - w.state.ledger.stakes[i].lamports;
    FeeBeforeCredit(s2, s3, w'.state, rewards, treasury);
    GrowthKeeps(s1, s2);
    PriceTransitive(w.state, s1, s2);
    PriceTransitive(w.state, s2, w'.state);
  }

  // ---------- with the progression check of the migration ----------

  lemma ProgressKeepsTotals(l: Ledger, l': Ledger)
    requires L.Progress(l) == Some(l')
    ensures l'.totalActive == l.totalActive && l'.delayedCooling == l.delayedCooling
    ensures l'.emergencyCooling == l.emergencyCooling
  {
  }

  /** The progression of the migration does not touch the price. */
  lemma ProgressKeepsPrice(s: State, l: Ledger, s1: State)
    requires KeepsPrice(s, s1) && L.Progress(s1.ledger) == Some(l)
    ensures KeepsPrice(s, s1.(ledger := l))
  {
    ProgressKeepsTotals(s1.ledger, l);
  }

  /** Rewards, extra lamports, donations to the reserve and burnt tokens only raise the price,
      fees included, unless the stake was slashed. */
  lemma UpdateActiveKeepsPrice(w: World, i: nat, account: Key, j: nat, treasury: bool, w': World)
    requires Covered(w) && w.chain.msolMinted > 0 && w.state.cfg.rewardFee <= MAX_BASIS_POINTS
    requires UpdateActive(w, i, account, j, treasury) == Some(w')
    requires i < |w.state.ledger.stakes| && account in w.chain.accounts && w.chain.accounts[account].delegation.Some?
    requires w.chain.accounts[account].delegation.value.stake >= w.state.ledger.stakes[i].lamports
    ensures KeepsPrice(w.state, w'.state)
  {
    var w1 := UpdateActiveCore(w, i, account, j, treasury).value;
    UpdateActiveCoreKeepsPrice(w, i, account, j, treasury, w1);
    ProgressKeepsPrice(w.state, w'.state.ledger, w1.state);
  }

  /** update_deactivated changes the lamports under control, relative to the resynced state, by the
      account's balance without rent minus the last recorded delegation, in every phase. */
  lemma UpdateDeactivatedControl(w: World, i: nat, account: Key, j: nat, treasury: bool, w': World)
    requires UpdateDeactivated(w, i, account, j, treasury) == Some(w')
    ensures i < |w.state.ledger.stakes| && account in w.chain.accounts
    ensures var source := w.chain.accounts[account];
            Resync(w.state, w.chain).Some? &&
            Control(w'.state) == Control(Resync(w.state, w.chain).value)
                                 + (source.lamports - source.rent) - w.state.ledger.stakes[i].lamports
  {
    var w1 := UpdateDeactivatedCore(w, i, account, j, treasury).value;
    UpdateDeactivatedCoreControl(w, i, account, j, treasury, w1);
    ProgressKeepsTotals(w1.state.ledger, w'.state.ledger);
  }

  lemma UpdateDeactivatedKeepsPrice(w: World, i: nat, account: Key, j: nat, treasury: bool, w': World)
    requires Covered(w) && w.chain.msolMinted > 0 && w.state.cfg.rewardFee <= MAX_BASIS_POINTS
    requires UpdateDeactivated(w, i, account, j, treasury) == Some(w')
    requires i < |w.state.ledger.stakes| && account in w.chain.accounts
    requires w.chain.accounts[account].lamports - w.chain.accounts[account].rent >= w.state.ledger.stakes[i].lamports
    ensures KeepsPrice(w.state, w'.state)
  {
    var w1 := UpdateDeactivatedCore(w, i, account, j, treasury).value;
    UpdateDeactivatedCoreKeepsPrice(w, i, account, j, treasury, w1);
    ProgressKeepsPrice(w.state, w'.state.ledger, w1.state);
  }
}
