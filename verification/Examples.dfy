/** Small worlds for the inputs that show where a promise ends. */
module Examples {
  import opened Base
  import opened Calc
  import opened Model
  import opened Runs

  const VOTE: Key := Address(0)

  /** A stake account of the program that delegates `x` lamports to `VOTE`. */
  function StakeOf(x: nat, deactivating: bool): StakeAccount {
    StakeAccount(x, 0, Some(Delegation(VOTE, x, 0, deactivating)), true, false)
  }

  /** A program with nothing but this ledger, these flagged validators, and these stake accounts. */
  function Example(ledger: Ledger, flags: set<Key>, accounts: Accounts, reserve: nat): World {
    var cfg := Config(false, 0, 0, 1, 1, 0, 0, false, 0, 0, MAX_BASIS_POINTS, 10_000_000, 3000);
    var pool := LiqPool(50_000_000_000, 300, 30, 2500, 0, U64_MAX);
    World(State(cfg, ledger, reserve, 0, PRICE_DENOMINATOR, 0, 0, U64_MAX, U64_MAX, 0, 0, 0, pool),
          Chain(accounts, 0, reserve, 0, 0, 0, 0, map[], flags, 10, 10, Clock(0, 0, 0, 0)))
  }

  function Record(x: nat, n: nat, status: StakeStatus): StakeRecord {
    StakeRecord(Address(n), x, 0, false, status)
  }

  lemma RunStep(w: World, steps: seq<Step>, w1: World)
    requires steps != [] && Next(w, steps[0]) == w1
    ensures Run(w, steps) == Run(w1, steps[1..])
  {
  }
}
