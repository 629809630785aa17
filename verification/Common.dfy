/** Small shared vocabulary: optional values, machine-integer limits and the
    saturating arithmetic the broker uses for its counters. */
module Common {

  datatype Option<+T> = None | Some(value: T)

  type byte = n: int | 0 <= n < 256

  const U32_MAX: nat := 0xFFFF_FFFF
  const U64_MAX: nat := 0xFFFF_FFFF_FFFF_FFFF
  const USIZE_MAX: nat := U64_MAX

  /** Where a 64-bit counter that stops at its maximum stands after `n` events. */
  function Capped(n: nat): nat {
    if n <= U64_MAX then n else U64_MAX
  }

  function SaturatingAdd(a: nat, b: nat, max: nat): nat {
    if a + b > max then max else a + b
  }

  function SaturatingSub(a: nat, b: nat): nat {
    if a < b then 0 else a - b
  }

  lemma {:induction false} SubsetSize<T>(a: set<T>, b: set<T>)
    requires a <= b
    ensures |a| <= |b|
  {
    if a != {} {
      var x :| x in a;
      SubsetSize(a - {x}, b - {x});
    }
  }

  /** Rust's `checked_add`: no value when the sum does not fit. */
  function CheckedAdd(a: nat, b: nat, max: nat): Option<nat> {
    if a + b > max then None else Some(a + b)
  }
}
