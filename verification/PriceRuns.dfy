/** The mSOL price and the value of the liquidity pool over whole runs. */
module PriceRuns {
  import opened Base
  import opened Calc
  import opened Model
  import opened Instructions
  import opened Runs
  import opened Frames
  import opened LedgerRuns
  import opened Books
  import opened Solvency
  import opened Price
  import opened RoundTrips

  /** The one step that lowers the price without a slash, by less than one mSOL atom's worth: a
      withdrawal with a live treasury whose burn is not exact. */
  predicate RoundsBurnDown(w: World, step: Step) {
    step.DoWithdrawStakeAccount? && step.treasury && !BurnIsExact(w.state, step.msol)
  }

  predicate BurnsRounded(w: World, step: Step) {
    RoundsBurnDown(w, step) && Instruction(w, step).Some?
  }

  lemma UserKeepsPrice(w: World, step: Step, w': World)
    requires Covered(w) && w.state.msolSupply > 0 && Instruction(w, step) == Some(w') && !RoundsBurnDown(w, step)
    requires step.DoDeposit? || step.DoDepositStakeAccount? || step.DoWithdrawStakeAccount? || step.DoOrderUnstake?
    ensures KeepsPrice(w.state, w'.state)
  {
    match step {
      case DoDeposit(lamports, funds) => DepositKeepsPrice(w, lamports, funds, w');
      case DoDepositStakeAccount(account, j) => DepositStakeAccountKeepsPrice(w, account, j, w');
      case DoWithdrawStakeAccount(i, account, j, msol, treasury, split) =>
        if treasury {
          TreasuryWithdrawalKeepsPriceIff(w, i, account, j, msol, split, w');
        } else {
          WithdrawStakeAccountKeepsPrice(w, i, account, j, msol, split, w');
        }
      case DoOrderUnstake(msol, ticket) => OrderUnstakeKeepsPrice(w, msol, ticket, w');
    }
  }

  lemma UpdateKeepsPrice(w: World, step: Step, w': World)
    requires Covered(w) && w.chain.msolMinted > 0 && w.state.cfg.rewardFee <= MAX_BASIS_POINTS
    requires AllSturdy(w.state.ledger, w.chain.accounts, 0)
    requires step.DoUpdateActive? || step.DoUpdateDeactivated?
    requires Instruction(w, step) == Some(w')
    ensures KeepsPrice(w.state, w'.state)
  {
    match step {
      case DoUpdateActive(i, account, j, treasury) =>
        assert Sturdy(w.chain.accounts, w.state.ledger.stakes[i], 0);
        UpdateActiveKeepsPrice(w, i, account, j, treasury, w');
      case DoUpdateDeactivated(i, account, j, treasury) =>
        assert Sturdy(w.chain.accounts, w.state.ledger.stakes[i], 0);
        UpdateDeactivatedKeepsPrice(w, i, account, j, treasury, w');
    }
  }

  lemma QuietKeepsPrice(w: World, w': World)
    requires Quiet(w, w')
    ensures KeepsPrice(w.state, w'.state)
  {
    GrowthKeeps(w.state, w'.state);
  }

  /** Claims, swaps, liquidity and settings leave the price as it is. */
  lemma PriceUntouched(w: World, step: Step, w': World)
    requires step.DoClaim? || step.DoLiquidUnstake? || step.DoAddLiquidity? || step.DoRemoveLiquidity? || step.Configure?
    requires Instruction(w, step) == Some(w')
    ensures Virtual(w'.state) == Virtual(w.state) && w'.state.msolSupply == w.state.msolSupply
  {
  }

  /** One step of a run. */
  lemma NextKeepsPrice(w: World, step: Step, floor: nat)
    requires Solvent(w, floor) && w.chain.msolMinted > 0 && !RoundsBurnDown(w, step)
    ensures KeepsPrice(w.state, Next(w, step).state)
  {
    if !step.Elsewhere? && Instruction(w, step).Some? {
      var w' := Instruction(w, step).value;
      SturdyAtZero(w.state.ledger, w.chain.accounts, floor);
      if MovesStake(step) {
        MovingIsQuiet(w, step, w');
        QuietKeepsPrice(w, w');
      } else if step.DoUpdateActive? || step.DoUpdateDeactivated? {
        UpdateKeepsPrice(w, step, w');
      } else if step.DoDeposit? || step.DoDepositStakeAccount? || step.DoWithdrawStakeAccount? || step.DoOrderUnstake? {
        UserKeepsPrice(w, step, w');
      } else {
        PriceUntouched(w, step, w');
      }
    }
  }

  /** Without slashing a step keeps the price if and only if it is not such a withdrawal. */
  lemma NextKeepsPriceIff(w: World, step: Step, floor: nat)
    requires Solvent(w, floor) && w.chain.msolMinted > 0
    ensures KeepsPrice(w.state, Next(w, step).state) <==> !BurnsRounded(w, step)
  {
    if BurnsRounded(w, step) {
      TreasuryWithdrawalKeepsPriceIff(w, step.i, step.account, step.j, step.msol, step.splitAccount, Next(w, step));
    } else if RoundsBurnDown(w, step) {
      assert Next(w, step) == w;
    } else {
      NextKeepsPrice(w, step, floor);
    }
  }

  /** mSOL exists all along, and no burn of a stake withdrawal is rounded down. */
  ghost predicate Funded(w: World, steps: seq<Step>)
    decreases |steps|
  {
    w.chain.msolMinted > 0 &&
    (steps == [] || (!BurnsRounded(w, steps[0]) && Funded(Next(w, steps[0]), steps[1..])))
  }

  /** Without slashing the mSOL price never falls, on any run with a positive supply. */
  lemma {:induction false} PriceNeverFalls(w: World, steps: seq<Step>, floor: nat)
    requires Solvent(w, floor) && GentleRun(w, steps, floor) && Funded(w, steps)
    ensures KeepsPrice(w.state, Run(w, steps).state)
    decreases |steps|
  {
    if steps != [] {
      var w1 := Next(w, steps[0]);
      NextSolvent(w, steps[0], floor);
      NextKeepsPriceIff(w, steps[0], floor);
      PriceNeverFalls(w1, steps[1..], floor);
      FundedNow(w1, steps[1..]);
      PriceTransitive(w.state, w1.state, Run(w, steps).state);
    }
  }

  lemma FundedNow(w: World, steps: seq<Step>)
    requires Funded(w, steps) && Covered(w)
    ensures w.state.msolSupply > 0
  {
  }

  /** From initialize on: whatever happened before, from any moment on the price does not fall while
      mSOL exists and nobody is slashed. */
  lemma PriceNeverFallsFromInitialize(w: World, before: seq<Step>, after: seq<Step>, floor: nat)
    requires Initialized(w) && floor <= w.state.cfg.minStake && GentleRun(w, before, floor)
    requires GentleRun(Run(w, before), after, floor) && Funded(Run(w, before), after)
    ensures KeepsPrice(Run(w, before).state, Run(Run(w, before), after).state)
  {
    InitializedIsSolvent(w, floor);
    RunSolvent(w, before, floor);
    PriceNeverFalls(Run(w, before), after, floor);
  }

  // ---------- rounded burns ----------

  /** mSOL exists all along. */
  ghost predicate Supplied(w: World, steps: seq<Step>)
    decreases |steps|
  {
    w.chain.msolMinted > 0 && (steps == [] || Supplied(Next(w, steps[0]), steps[1..]))
  }

  /** A rounded burn keeps at least (S' - 1) / S' of the price, S' the supply it leaves. */
  ghost function KeptAtoms(w: World, step: Step): nat {
    if BurnsRounded(w, step) then SaturatingSub(Next(w, step).state.msolSupply, 1) else 1
  }

  ghost function AllAtoms(w: World, step: Step): nat {
    if BurnsRounded(w, step) then Next(w, step).state.msolSupply else 1
  }

  function Product(a: nat, b: nat): nat {
    a * b
  }

  /** Numerator and denominator of what a run keeps. */
  ghost function KeptIn(w: World, steps: seq<Step>): nat
    decreases |steps|
  {
    if steps == [] then 1 else Product(KeptAtoms(w, steps[0]), KeptIn(Next(w, steps[0]), steps[1..]))
  }

  ghost function AllIn(w: World, steps: seq<Step>): nat
    decreases |steps|
  {
    if steps == [] then 1 else Product(AllAtoms(w, steps[0]), AllIn(Next(w, steps[0]), steps[1..]))
  }

  /** The price after is at least `num / den` of the price before. */
  predicate KeepsPart(s: State, s': State, num: nat, den: nat) {
    Virtual(s') * s.msolSupply * den >= Virtual(s) * s'.msolSupply * num
  }

  lemma PartTransitive(v0: nat, s0: nat, v1: nat, s1: nat, v2: nat, s2: nat, n: nat, d: nat, num: nat, den: nat)
    requires s1 > 0 && v1 * s0 * d >= v0 * s1 * n && v2 * s1 * den >= v1 * s2 * num
    ensures v2 * s0 * (d * den) >= v0 * s2 * (n * num)
  {
    var p, q := v1 * s0 * d, v0 * s1 * n;
    var x, y := v2 * s1 * den, v1 * s2 * num;
    MulMono(q, p, s2 * num);
    MulMono(y, x, s0 * d);
    assert p * (s2 * num) == y * (s0 * d) by {
      Regroup(v1, s0, d, s2, num);
    }
    assert x * (s0 * d) == v2 * s0 * (d * den) * s1 by {
      Reorder(v2, s1, den, s0, d);
    }
    assert q * (s2 * num) == v0 * s2 * (n * num) * s1 by {
      Reorder(v0, s1, n, s2, num);
    }
    CancelMul(v0 * s2 * (n * num), v2 * s0 * (d * den), s1);
  }

  lemma PartsCompose(s0: State, s1: State, s2: State, n: nat, d: nat, num: nat, den: nat)
    requires s1.msolSupply > 0 && KeepsPart(s0, s1, n, d) && KeepsPart(s1, s2, num, den)
    ensures KeepsPart(s0, s2, Product(n, num), Product(d, den))
  {
    PartTransitive(Virtual(s0), s0.msolSupply, Virtual(s1), s1.msolSupply, Virtual(s2), s2.msolSupply, n, d, num, den);
  }

  lemma Regroup(a: nat, b: nat, c: nat, x: nat, y: nat)
    ensures a * b * c * (x * y) == a * x * y * (b * c)
  {
  }

  lemma Reorder(a: nat, b: nat, c: nat, x: nat, y: nat)
    ensures a * b * c * (x * y) == a * x * (c * y) * b
    ensures a * b * c * (x * y) == a * x * (y * c) * b
  {
  }

  lemma PriceKeepsWhole(s: State, s': State)
    requires KeepsPrice(s, s')
    ensures KeepsPart(s, s', 1, 1)
  {
  }

  /** One rounded burn costs at most one atom of the supply it leaves. */
  lemma RoundedBurnKeepsPart(v: nat, s: nat, v': nat, s': nat)
    requires s' > 0 && v * s' - v' * s <= v
    ensures v' * s * s' >= v * s' * (s' - 1)
  {
    Distribute(s', 1, v);
    assert v' * s >= v * (s' - 1);
    MulMono(v * (s' - 1), v' * s, s');
    assert v * (s' - 1) * s' == v * s' * (s' - 1) by {
      Associate(v, s' - 1, s');
      Associate(v, s', s' - 1);
    }
  }

  lemma WithdrawKeepsPart(w: World, step: Step, w': World)
    requires w.state.msolSupply > 0 && w'.state.msolSupply > 0
    requires RoundsBurnDown(w, step) && Instruction(w, step) == Some(w')
    ensures KeepsPart(w.state, w'.state, w'.state.msolSupply - 1, w'.state.msolSupply)
  {
    var s, s' := w.state, w'.state;
    if Virtual(s) > 0 {
      WithdrawStakeAccountTolerance(w, step.i, step.account, step.j, step.msol, step.splitAccount, w');
    }
    RoundedBurnKeepsPart(Virtual(s), s.msolSupply, Virtual(s'), s'.msolSupply);
  }

  lemma NextKeepsPart(w: World, step: Step, floor: nat)
    requires Solvent(w, floor) && w.chain.msolMinted > 0 && Next(w, step).state.msolSupply > 0
    ensures KeepsPart(w.state, Next(w, step).state, KeptAtoms(w, step), AllAtoms(w, step))
  {
    if BurnsRounded(w, step) {
      WithdrawKeepsPart(w, step, Next(w, step));
    } else {
      if !RoundsBurnDown(w, step) {
        NextKeepsPrice(w, step, floor);
      }
      PriceKeepsWhole(w.state, Next(w, step).state);
    }
  }

  /** With withdrawals of every kind: without slashing the price loses at most one atom of the supply
      left for each stake withdrawal with a live treasury, the factors (S' - 1) / S' multiplied up. */
  lemma {:induction false} PriceLossIsBounded(w: World, steps: seq<Step>, floor: nat)
    requires Solvent(w, floor) && GentleRun(w, steps, floor) && Supplied(w, steps)
    ensures KeepsPart(w.state, Run(w, steps).state, KeptIn(w, steps), AllIn(w, steps))
    decreases |steps|
  {
    if steps == [] {
      PriceKeepsWhole(w.state, w.state);
    } else {
      var w1 := Next(w, steps[0]);
      NextSolvent(w, steps[0], floor);
      NextKeepsPart(w, steps[0], floor);
      PriceLossIsBounded(w1, steps[1..], floor);
      PartsCompose(w.state, w1.state, Run(w, steps).state, KeptAtoms(w, steps[0]), AllAtoms(w, steps[0]),
                   KeptIn(w1, steps[1..]), AllIn(w1, steps[1..]));
    }
  }

  /** From initialize on. */
  lemma PriceLossIsBoundedFromInitialize(w: World, before: seq<Step>, after: seq<Step>, floor: nat)
    requires Initialized(w) && floor <= w.state.cfg.minStake && GentleRun(w, before, floor)
    requires GentleRun(Run(w, before), after, floor) && Supplied(Run(w, before), after)
    ensures var from := Run(w, before);
            KeepsPart(from.state, Run(from, after).state, KeptIn(from, after), AllIn(from, after))
  {
    InitializedIsSolvent(w, floor);
    RunSolvent(w, before, floor);
    PriceLossIsBounded(Run(w, before), after, floor);
  }

  // ---------- the pool ----------

  /** At a price that did not fall, as many tokens are worth at least as many lamports. */
  lemma LegKeepsValue(leg: nat, leg': nat, v: nat, s: nat, v': nat, s': nat)
    requires s > 0 && s' > 0 && leg <= leg' && v' * s >= v * s'
    ensures leg * v / s <= leg' * v' / s'
  {
    var q := leg * v / s;
    Floor(leg * v, s);
    assert q * s' * s <= leg * v * s' by {
      MulMono(q * s, leg * v, s');
      Associate(q, s, s');
      Associate(q, s', s);
    }
    assert leg * v * s' <= leg * v' * s by {
      Associate(leg, v, s');
      Associate(leg, v', s);
      MulMono(v * s', v' * s, leg);
    }
    CancelMul(q * s', leg * v', s);
    MulMono(leg, leg', v');
    FloorIsGreatest(leg' * v', s', q);
  }

  /** Same legs or larger ones, and a price that did not fall. */
  lemma PoolFollowsPrice(w: World, w': World)
    requires w.state.msolSupply > 0 && w'.state.msolSupply > 0 && w.state.cfg.rent == w'.state.cfg.rent
    requires KeepsPrice(w.state, w'.state)
    requires w'.chain.solLeg >= w.chain.solLeg && w'.chain.msolLeg >= w.chain.msolLeg
    ensures PoolValue(w') >= PoolValue(w)
  {
    LegKeepsValue(w.chain.msolLeg, w'.chain.msolLeg, Virtual(w.state), w.state.msolSupply,
                  Virtual(w'.state), w'.state.msolSupply);
  }

  lemma TradesKeepPool(w: World, step: Step, w': World)
    requires Covered(w) && w.state.msolSupply > 0 && ValidPool(w.state.pool) && Instruction(w, step) == Some(w')
    requires step.DoDeposit? || step.DoLiquidUnstake? || step.DoAddLiquidity?
    ensures PoolValue(w') >= PoolValue(w)
  {
    match step {
      case DoDeposit(lamports, funds) => DepositKeepsPool(w, lamports, funds, w');
      case DoLiquidUnstake(msol, treasury) => LiquidUnstakeKeepsPool(w, msol, treasury, w');
      case DoAddLiquidity(lamports, funds) =>
    }
  }

  /** The pool's fee parameters stay valid. */
  lemma PoolStaysValid(w: World, step: Step)
    requires ValidPool(w.state.pool)
    ensures ValidPool(Next(w, step).state.pool)
  {
    if !step.Elsewhere? && Instruction(w, step).Some? {
      InstructionLeaves(w, step, Instruction(w, step).value);
    }
  }

  lemma NextKeepsPool(w: World, step: Step, floor: nat)
    requires Solvent(w, floor) && ValidPool(w.state.pool) && Gentle(w, step, floor)
    requires w.chain.msolMinted > 0 && Next(w, step).chain.msolMinted > 0
    requires !BurnsRounded(w, step) && !step.DoRemoveLiquidity?
    ensures PoolValue(Next(w, step)) >= PoolValue(w)
  {
    NextSolvent(w, step, floor);
    NextKeepsPriceIff(w, step, floor);
    if step.Elsewhere? {
      if Permitted(w.chain, step.after) {
        PoolFollowsPrice(w, Next(w, step));
      }
    } else if Instruction(w, step).Some? {
      var w' := Instruction(w, step).value;
      if step.DoDeposit? || step.DoLiquidUnstake? || step.DoAddLiquidity? {
        TradesKeepPool(w, step, w');
      } else {
        InstructionLeaves(w, step, w');
        PoolFollowsPrice(w, w');
      }
    }
  }

  ghost predicate NoRemoval(steps: seq<Step>) {
    forall k :: 0 <= k < |steps| ==> !steps[k].DoRemoveLiquidity?
  }

  /** The documented promise of the pool: as long as nobody removes liquidity its value cannot
      decrease, whatever swaps, deposits, rewards and unstakes happen. */
  lemma {:induction false} PoolNeverShrinks(w: World, steps: seq<Step>, floor: nat)
    requires Solvent(w, floor) && ValidPool(w.state.pool) && GentleRun(w, steps, floor)
    requires Funded(w, steps) && NoRemoval(steps)
    ensures PoolValue(Run(w, steps)) >= PoolValue(w)
    decreases |steps|
  {
    if steps != [] {
      var w1 := Next(w, steps[0]);
      NextSolvent(w, steps[0], floor);
      NextKeepsPool(w, steps[0], floor);
      PoolStaysValid(w, steps[0]);
      assert NoRemoval(steps[1..]);
      PoolNeverShrinks(w1, steps[1..], floor);
    }
  }

  /** From initialize on the program knows of every LP token, so on every run with LP tokens removing
      liquidity leaves at least as much of either leg per token. */
  lemma RemovalAlwaysKeepsLegs(w: World, steps: seq<Step>, tokens: nat, w': World)
    requires Initialized(w) && Run(w, steps).chain.lpMinted > 0
    requires RemoveLiquidity(Run(w, steps), tokens) == Some(w')
    ensures var now := Run(w, steps);
            && now.chain.lpMinted <= now.state.pool.lpSupply
            && (w'.chain.solLeg - now.state.cfg.rent) * now.chain.lpMinted
               >= (now.chain.solLeg - now.state.cfg.rent) * w'.chain.lpMinted
            && w'.chain.msolLeg * now.chain.lpMinted >= now.chain.msolLeg * w'.chain.lpMinted
  {
    RunLp(w, steps);
    RemoveLiquidityKeepsLegs(Run(w, steps), tokens, w');
  }
}
