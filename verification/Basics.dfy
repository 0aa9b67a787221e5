/** Types, error codes and 32-bit arithmetic shared by the other modules. */
module Basics {

  datatype Option<+T> = None | Some(value: T)

  type Byte = b: int | 0 <= b < 0x100

  /** A 32-bit word or address. */
  type Addr = a: int | 0 <= a < 0x1_0000_0000

  // include/kernel/error.h
  const E_DONE := 1
  const E_OK := 0
  const E_FAIL := -1
  const E_INVALID_ARG := -2
  const E_NOT_MAPPED := -3
  const E_BLOCK := -7
  const E_UNREACH := -8
  const E_INTERRUPT := -9
  const E_PREEMPT := -10

  /** Unsigned 32-bit arithmetic. */
  function Wrap(x: nat): nat {
    x % 0x1_0000_0000
  }

  lemma WrapShift(x: nat, q: nat)
    ensures Wrap(x + q * 0x1_0000_0000) == Wrap(x)
  {
  }

  lemma WrapAdd(x: nat, y: nat)
    ensures Wrap(Wrap(x) + y) == Wrap(x + y)
  {
    var q := x / 0x1_0000_0000;
    assert x + y == Wrap(x) + y + q * 0x1_0000_0000;
    WrapShift(Wrap(x) + y, q);
  }
}
