/**
 Vocabulary shared by both pallets: the width of the runtime's integers and the
 three ways in which a dispatchable can finish.
 */
module Prelude {

  const U32_LIMIT: int := 0x1_0000_0000
  const U64_LIMIT: int := 0x1_0000_0000_0000_0000
  const U128_LIMIT: int := 0x1_0000_0000_0000_0000_0000_0000_0000_0000

  type u8 = x: int | 0 <= x < 0x100
  type u32 = x: int | 0 <= x < 0x1_0000_0000
  type u128 = x: int | 0 <= x < 0x1_0000_0000_0000_0000_0000_0000_0000_0000

  /** Accounts are opaque names; 0 is the value of `AccountId::default()`. */
  type AccountId = nat
  const DEFAULT_ACCOUNT: AccountId := 0

  /** `Accept` is `Ok(())`, `Reject` an error returned by an `ensure!`, and `Trap` a panic
      (an `unwrap` of a failed checked operation, a plain operation that leaves the integer
      range, or a division by zero). */
  datatype Verdict<+E> = Accept | Reject(error: E) | Trap

  predicate Fits(x: int) {
    0 <= x < U128_LIMIT
  }

  /** A map read with a default, as a storage map with a value query is read. */
  function GetOr<K, V>(m: map<K, V>, k: K, default: V): V {
    if k in m then m[k] else default
  }

  lemma {:induction false} TimesMonotone(x: nat, y: nat, d: nat)
    requires x <= y
    ensures x * d <= y * d
  {
    if d > 0 {
      TimesMonotone(x, y, d - 1);
      assert x * d == x * (d - 1) + x && y * d == y * (d - 1) + y;
    }
  }

  lemma QuotientBounds(a: nat, d: nat)
    requires d > 0
    ensures 0 <= a / d && a / d * d <= a < a / d * d + d
  {
    var q, r := a / d, a % d;
    assert a == q * d + r;
  }

  lemma QuotientUnique(a: nat, d: nat, q: nat)
    requires d > 0
    ensures a / d == q <==> q * d <= a < q * d + d
  {
    QuotientBounds(a, d);
    if q * d <= a < q * d + d {
      if q < a / d {
        TimesMonotone(q + 1, a / d, d);
      } else if a / d < q {
        TimesMonotone(a / d + 1, q, d);
      }
    }
  }
}
