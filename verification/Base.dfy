/** Widths, keys and the failure-compatible types every instruction uses.

    An instruction that returns an error or panics (the program is built with overflow checks)
    is reverted as a whole by the runtime, so the model keeps one failure value, `None`. */
module Base {

  const U32_MAX: nat := 0xFFFF_FFFF
  const U64_MAX: nat := 0xFFFF_FFFF_FFFF_FFFF

  /** An account address. A canonical stake address is derived from a vote account,
      so it is injective and never an ordinary address. */
  datatype Key = Address(n: nat) | CanonicalStake(vote: Key)

  datatype Option<+T> = None | Some(value: T) {
    predicate IsFailure() {
      None?
    }

    function PropagateFailure<U>(): Option<U>
      requires None?
    {
      None
    }

    function Extract(): T
      requires Some?
    {
      value
    }
  }

  /** The outcome of a `require!`: it carries no value. */
  datatype Check = Pass | Fail {
    predicate IsFailure() {
      Fail?
    }

    function PropagateFailure<U>(): Option<U>
      requires Fail?
    {
      None
    }
  }

  function Need(condition: bool): Check {
    if condition then Pass else Fail
  }

  /** `a + b` on u64 with overflow checks. */
  function Add64(a: nat, b: nat): Option<nat> {
    if a + b <= U64_MAX then Some(a + b) else None
  }

  /** An addition the program skips when there is nothing to add. */
  function AddIfAny(a: nat, b: nat): Option<nat> {
    if b == 0 then Some(a) else Add64(a, b)
  }

  /** `a - b` on an unsigned width with overflow checks. */
  function Sub(a: nat, b: nat): Option<nat> {
    if b <= a then Some(a - b) else None
  }

  function SaturatingSub(a: nat, b: nat): nat {
    if b <= a then a - b else 0
  }

  function SaturatingAdd64(a: nat, b: nat): nat {
    if a + b <= U64_MAX then a + b else U64_MAX
  }

  function Min(a: int, b: int): int {
    if a <= b then a else b
  }
}
