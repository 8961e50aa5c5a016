/*
 * Facts about the Euclidean remainder that the ring buffer of the echo
 * and the phase accumulator of the ring modulator rely on. Both index
 * with `x & (len - 1)` for a power-of-two `len`, which for two's-complement
 * integers is the Euclidean `x % len`.
 */
module Modular {

  /** The Euclidean remainder is the only r in [0, len) with x == q * len + r. */
  lemma RemainderUnique(x: int, len: int, q: int, r: int)
    requires len > 0 && 0 <= r < len && x == q * len + r
    ensures x % len == r
  {
    var q', r' := x / len, x % len;
    assert (q - q') * len == r' - r;
    if q - q' >= 1 {
      MulMonotone(q - q', len);
    } else if q' - q >= 1 {
      MulMonotone(q' - q, len);
    }
  }

  lemma MulMonotone(k: int, len: int)
    requires k >= 1 && len > 0
    ensures k * len >= len
  {
    var i := 1;
    while i < k
      invariant 1 <= i <= k && i * len >= len
    {
      i := i + 1;
    }
  }

  /** Adding the modulus leaves the Euclidean remainder unchanged. */
  lemma ModShift(x: int, len: int)
    requires len > 0
    ensures (x + len) % len == x % len
  {
    var q, r := x / len, x % len;
    assert x + len == (q + 1) * len + r;
    RemainderUnique(x + len, len, q + 1, r);
  }

  /** Reducing before an addition does not change the reduced sum. */
  lemma ModAddMod(y: int, s: int, len: int)
    requires len > 0
    ensures (y % len + s) % len == (y + s) % len
  {
    var q, r := y / len, y % len;
    var q2, r2 := (r + s) / len, (r + s) % len;
    assert y + s == (q + q2) * len + r2;
    RemainderUnique(y + s, len, q + q2, r2);
  }

  /** Adding a multiple of the modulus leaves the remainder unchanged. */
  lemma ModAddMultiple(x: int, k: int, len: int)
    requires len > 0
    ensures (x + k * len) % len == x % len
  {
    var q, r := x / len, x % len;
    assert x + k * len == (q + k) * len + r;
    RemainderUnique(x + k * len, len, q + k, r);
  }

  /** A value already in [0, len) is its own remainder. */
  lemma ModInRange(x: int, len: int)
    requires 0 <= x < len
    ensures x % len == x
  {
    RemainderUnique(x, len, 0, x);
  }
}
