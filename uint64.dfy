/** Go's uint64: values in [0, 2^64), with wrap-around addition and subtraction. */
module UInt64 {

  const Modulus: int := 0x1_0000_0000_0000_0000

  type uint64 = x: int | 0 <= x < Modulus

  /** 2^63: the bound of Go's int64 range, whose values lie in [-2^63, 2^63). */
  const Int64Bound: int := 0x8000_0000_0000_0000

  /**
   * Whether `database/sql`'s default argument converter accepts `v` as a
   * statement argument: a uint64 with its high bit set has no int64 value
   * and is refused before the statement reaches the driver.
   */
  predicate Storable(v: uint64) {
    v < Int64Bound
  }

  /** `a + b` on uint64: exact when it fits, otherwise reduced by 2^64. */
  function Add(a: uint64, b: uint64): (r: uint64)
    ensures a + b < Modulus ==> r == a + b
    ensures a + b >= Modulus ==> r == a + b - Modulus && r < a
  {
    (a + b) % Modulus
  }

  /** `a - b` on uint64: exact when b <= a, otherwise it wraps to a large value. */
  function Sub(a: uint64, b: uint64): (r: uint64)
    ensures b <= a ==> r == a - b
    ensures a < b ==> r == a - b + Modulus && r > a
    ensures Add(r, b) == a
  {
    (a - b) % Modulus
  }

  /** Subtracting what was added gives back the original value, with or without wrap-around. */
  lemma SubUndoesAdd(a: uint64, b: uint64)
    ensures Sub(Add(a, b), b) == a
  {
  }
}
