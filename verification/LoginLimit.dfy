/** The constants of the login limiter, its clock arithmetic, and the exponential lock of an account. */
module LoginLimit {
  import opened Powers

  const ACCOUNT_FAIL_LIMIT := 5
  const ACCOUNT_WINDOW := 3_600_000_000_000   // one hour in nanoseconds
  const ACCOUNT_LOCK_BASE := 900_000_000_000  // 15 minutes
  const IP_FAIL_LIMIT := 50
  const IP_WINDOW := 3_600_000_000_000
  const IP_LOCK := 900_000_000_000
  const MAX_LOCK := 86_400_000_000_000        // 24 hours
  const RECORD_TTL := 86_400_000_000_000
  const MAX_RECORDS := 100_000

  const TWO_63 := 0x8000_0000_0000_0000
  const TWO_64 := 0x1_0000_0000_0000_0000

  /** Nanoseconds since the zero time. */
  type Time = nat
  type Key = string

  // ---------------------------------------------------------------- durations are 64-bit

  /** Time.Sub saturates at the limits of a 64-bit duration. */
  function Sub(a: Time, b: Time): int {
    if a - b >= TWO_63 then TWO_63 - 1 else if a - b < -TWO_63 then -TWO_63 else a - b
  }

  /** The value of a 64-bit two's complement register that received `v`. */
  function Wrap64(v: int): int {
    var m := v % TWO_64;
    if m >= TWO_63 then m - TWO_64 else m
  }

  /** The lock of the n-th consecutive failure, shift and guards as in the code. */
  function LockDuration(failures: nat): int
    requires failures >= ACCOUNT_FAIL_LIMIT
  {
    var lock := Wrap64(ACCOUNT_LOCK_BASE * Pow2(failures - ACCOUNT_FAIL_LIMIT));
    if lock <= 0 || lock > MAX_LOCK then MAX_LOCK else lock
  }

  function Min(a: int, b: int): int {
    if a < b then a else b
  }

  /** From the 36th doubling on the product is a multiple of 2^47, which is more than 24 hours. */
  lemma LargeShift(k: nat)
    requires k >= 36
    ensures var lock := Wrap64(ACCOUNT_LOCK_BASE * Pow2(k)); lock <= 0 || lock > MAX_LOCK
    ensures ACCOUNT_LOCK_BASE * Pow2(k) > MAX_LOCK
  {
    Pow2Splits(36, k - 36);
    Pow2Grows(0, k - 36);
    Pow2Values();
    MulAssociates(ACCOUNT_LOCK_BASE, Pow2(36), Pow2(k - 36), 0x8000_0000_0000, 439453125);
    MultipleStaysMultiple(439453125 * Pow2(k - 36));
  }

  lemma MulAssociates(a: nat, b: nat, c: nat, d: nat, e: nat)
    requires a * b == d * e
    ensures a * (b * c) == d * (e * c)
  {
    assert a * (b * c) == (a * b) * c;
    assert d * (e * c) == (d * e) * c;
  }

  lemma MultipleStaysMultiple(q: nat)
    ensures var lock := Wrap64(0x8000_0000_0000 * q); lock <= 0 || lock >= 0x8000_0000_0000
  {
    var j, r := q / 0x2_0000, q % 0x2_0000;
    assert 0x8000_0000_0000 * q == TWO_64 * j + 0x8000_0000_0000 * r;
    assert (0x8000_0000_0000 * q) % TWO_64 == 0x8000_0000_0000 * r by {
      ModOfSum(j, 0x8000_0000_0000 * r);
    }
  }

  lemma ModOfSum(j: nat, r: nat)
    requires r < TWO_64
    ensures (TWO_64 * j + r) % TWO_64 == r
  {
  }

  /** Up to the 23rd doubling nothing overflows. */
  lemma SmallShift(k: nat)
    requires k <= 23
    ensures Wrap64(ACCOUNT_LOCK_BASE * Pow2(k)) == ACCOUNT_LOCK_BASE * Pow2(k)
  {
    Pow2Grows(k, 23);
    Pow2Values();
    FitsRegister(ACCOUNT_LOCK_BASE * Pow2(k));
  }

  lemma FitsRegister(v: int)
    requires 0 <= v < TWO_63
    ensures Wrap64(v) == v
  {
  }

  /** ACCOUNT_LOCK_BASE doubled 24 to 35 times. */
  const MIDDLE_PRODUCTS: seq<nat> := [
    15099494400000000000, 30198988800000000000, 60397977600000000000, 120795955200000000000,
    241591910400000000000, 483183820800000000000, 966367641600000000000, 1932735283200000000000,
    3865470566400000000000, 7730941132800000000000, 15461882265600000000000, 30923764531200000000000]

  lemma {:induction false} MiddleProduct(k: nat)
    requires 24 <= k <= 35
    ensures ACCOUNT_LOCK_BASE * Pow2(k) == MIDDLE_PRODUCTS[k - 24]
  {
    if k == 24 {
      Pow2Values();
    } else {
      MiddleProduct(k - 1);
    }
  }

  predicate Unusable(product: int) {
    product > MAX_LOCK && (Wrap64(product) <= 0 || Wrap64(product) > MAX_LOCK)
  }

  lemma MiddleProductsAreUnusable()
    ensures forall p | p in MIDDLE_PRODUCTS :: Unusable(p)
  {
    assert Unusable(15099494400000000000) && Unusable(30198988800000000000) && Unusable(60397977600000000000);
    assert Unusable(120795955200000000000) && Unusable(241591910400000000000) && Unusable(483183820800000000000);
    assert Unusable(966367641600000000000) && Unusable(1932735283200000000000) && Unusable(3865470566400000000000);
    assert Unusable(7730941132800000000000) && Unusable(15461882265600000000000) && Unusable(30923764531200000000000);
  }

  /** In between the register wraps: each value is out of range, because it is negative or far too large. */
  lemma MiddleShift(k: nat)
    requires 24 <= k <= 35
    ensures var lock := Wrap64(ACCOUNT_LOCK_BASE * Pow2(k)); lock <= 0 || lock > MAX_LOCK
    ensures ACCOUNT_LOCK_BASE * Pow2(k) > MAX_LOCK
  {
    MiddleProduct(k);
    MiddleProductsAreUnusable();
    assert MIDDLE_PRODUCTS[k - 24] in MIDDLE_PRODUCTS;
  }

  /**
   The guarded shift is the capped doubling: for every count of failures from the limit on, the lock
   is 15 minutes times 2^(n-5), and never more than 24 hours. No wrapped value passes the guards.
   */
  lemma LockIsCappedDoubling(n: nat)
    requires n >= ACCOUNT_FAIL_LIMIT
    ensures LockDuration(n) == Min(ACCOUNT_LOCK_BASE * Pow2(n - ACCOUNT_FAIL_LIMIT), MAX_LOCK)
    ensures 0 < LockDuration(n) <= MAX_LOCK
  {
    var k := n - ACCOUNT_FAIL_LIMIT;
    Pow2Grows(0, k);
    if k <= 23 {
      SmallShift(k);
    } else if k <= 35 {
      MiddleShift(k);
    } else {
      LargeShift(k);
    }
  }
}
