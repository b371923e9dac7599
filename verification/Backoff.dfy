/** The exponential backoff and the Retry-After header, in 64-bit arithmetic as the program computes. */
module Backoff {
  import opened Base

  const TWO62 := 0x4000_0000_0000_0000
  const TWO63 := 0x8000_0000_0000_0000
  const TWO64 := 0x1_0000_0000_0000_0000

  predicate Int64(x: int) {
    -TWO63 <= x < TWO63
  }

  /** The signed 64-bit number that `x` becomes when it wraps around. */
  function Wrap(x: int): (r: int)
    ensures Int64(r) && (Int64(x) ==> r == x)
  {
    (x + TWO63) % TWO64 - TWO63
  }

  function Pow2(k: nat): (r: nat)
    ensures r >= 1
  {
    if k == 0 then 1 else 2 * Pow2(k - 1)
  }

  function Min(a: int, b: int): int {
    if a < b then a else b
  }

  /** The delay after the doublings for attempt `n`: it doubles, with wrap-around, while below `max`. */
  function Doubled(base: int, max: int, n: nat): int {
    if n <= 1 then base
    else
      var d := Doubled(base, max, n - 1);
      if d < max then Wrap(2 * d) else d
  }

  function Capped(base: int, max: int, n: nat): int {
    Min(max, Doubled(base, max, n))
  }

  /** What the backoff is meant to be. */
  function Ideal(base: int, max: int, n: nat): int
    requires n >= 1
  {
    Min(max, base * Pow2(n - 1))
  }

  /** No value that is still doubled can overflow: whatever doubling reaches 2^62 has reached `max`. */
  ghost predicate Safe(base: int, max: int) {
    forall k: nat :: TWO62 <= base * Pow2(k) ==> max <= base * Pow2(k)
  }

  lemma PowGrows(base: int, k: nat)
    requires 0 <= base
    ensures base * Pow2(k + 1) == 2 * (base * Pow2(k)) && 0 <= base * Pow2(k) <= base * Pow2(k + 1)
  {
  }

  /** While doubling is safe the loop's value is the power, or has passed the maximum for good. */
  lemma {:induction false} DoublingIsExact(base: int, max: int, n: nat)
    requires 0 <= base < TWO63 && 0 <= max < TWO63 && Safe(base, max) && n >= 1
    ensures Doubled(base, max, n) == base * Pow2(n - 1) || max <= Doubled(base, max, n) <= base * Pow2(n - 1)
  {
    if n > 1 {
      DoublingIsExact(base, max, n - 1);
      PowGrows(base, n - 2);
      var d := Doubled(base, max, n - 1);
      if d < max {
        assert d == base * Pow2(n - 2) < TWO62;
      }
    }
  }

  lemma {:induction false} PowerIsMonotone(base: int, j: nat, k: nat)
    requires 0 <= base && j <= k
    ensures base * Pow2(j) <= base * Pow2(k)
    decreases k
  {
    if j < k {
      PowerIsMonotone(base, j, k - 1);
      PowGrows(base, k - 1);
    }
  }

  /** Up to the first unsafe power nothing has overflowed yet. */
  lemma {:induction false} DoublingUpTo(base: int, max: int, k: nat, j: nat)
    requires 0 <= base && max < TWO63 && TWO62 <= base * Pow2(k) < max && j <= k
    ensures Doubled(base, max, j + 1) == base * Pow2(j)
    ensures base * Pow2(j) <= base * Pow2(k)
    decreases j
  {
    PowerIsMonotone(base, j, k);
    if j > 0 {
      DoublingUpTo(base, max, k, j - 1);
      PowGrows(base, j - 1);
      assert 2 * (base * Pow2(j - 1)) == base * Pow2(j);
    }
  }

  /** While doubling is safe the delay is the ideal one, and not negative. */
  lemma SafeDelayIsIdeal(base: int, max: int, n: nat)
    requires 0 <= base < TWO63 && 0 <= max < TWO63 && Safe(base, max) && n >= 1
    ensures 0 <= Capped(base, max, n) == Ideal(base, max, n)
  {
    DoublingIsExact(base, max, n);
    PowerIsMonotone(base, 0, n - 1);
  }

  /** Doubling a value that is at least 2^62 makes it negative. */
  lemma DoublingOverflows(d: int)
    requires TWO62 <= d < TWO63
    ensures Wrap(2 * d) < 0
  {
  }

  /** An unsafe power makes the attempt after the next one wait for less than nothing. */
  lemma UnsafeDelayIsNegative(base: int, max: int, k: nat)
    requires 0 <= base && max < TWO63 && TWO62 <= base * Pow2(k) < max
    ensures Capped(base, max, k + 2) < 0 <= Ideal(base, max, k + 2)
  {
    DoublingUpTo(base, max, k, k);
    DoublingOverflows(base * Pow2(k));
    PowGrows(base, k);
  }

  /** MAIN RESULT. The delay is min(max, base * 2^(n-1)) for every attempt exactly when doubling is safe. */
  lemma BackoffIsExactIffSafe(base: int, max: int)
    requires 0 <= base < TWO63 && 0 <= max < TWO63
    ensures (forall n: nat :: n >= 1 ==> Capped(base, max, n) == Ideal(base, max, n)) <==> Safe(base, max)
  {
    if Safe(base, max) {
      forall n: nat | n >= 1
        ensures Capped(base, max, n) == Ideal(base, max, n)
      {
        SafeDelayIsIdeal(base, max, n);
      }
    } else {
      var k: nat :| TWO62 <= base * Pow2(k) < max;
      UnsafeDelayIsNegative(base, max, k);
    }
  }

  /** A maximum of up to 2^62 nanoseconds (146 years) is always safe. */
  lemma ModerateMaximumIsSafe(base: int, max: int)
    requires max <= TWO62
    ensures Safe(base, max)
  {
  }

  lemma {:induction false} PowerSum(j: nat, k: nat)
    ensures Pow2(j + k) == Pow2(j) * Pow2(k)
  {
    if k > 0 {
      PowerSum(j, k - 1);
    }
  }

  lemma PowerOf62()
    ensures Pow2(62) == TWO62
  {
    assert Pow2(10) == 1024;
    PowerSum(10, 10);
    PowerSum(20, 20);
    PowerSum(40, 20);
    PowerSum(60, 2);
  }

  /** A base of one and the largest maximum are not: the delay of attempt 64 comes out negative. */
  lemma LargestMaximumIsNot()
    ensures !Safe(1, TWO63 - 1)
  {
    PowerOf62();
    assert TWO62 <= 1 * Pow2(62) < TWO63 - 1;
  }

  /** Division by two that truncates toward zero. */
  function Half(d: int): int {
    if d >= 0 then d / 2 else -((-d) / 2)
  }

  /** Once the maximum is reached, further attempts do not change the delay. */
  lemma {:induction false} Stops(base: int, max: int, i: nat, n: nat)
    requires 1 <= i <= n && (i == n || Doubled(base, max, i) >= max)
    ensures Doubled(base, max, n) == Doubled(base, max, i)
    decreases n
  {
    if i < n {
      Stops(base, max, i, n - 1);
    }
  }

  /** The backoff with equal jitter: half fixed, half random. The random source panics (no result) when
      asked for a number below a bound that is not positive. */
  method ExponentialJitter(base: int, max: int, n: nat) returns (delay: Option<int>)
    requires Int64(base) && Int64(max) && n >= 1
    ensures delay.None? <==> Capped(base, max, n) < -1
    ensures Capped(base, max, n) >= 0 ==>
      delay.Some? && Capped(base, max, n) / 2 <= delay.value <= Capped(base, max, n)
    ensures Capped(base, max, n) == -1 ==> delay == Some(0)
    ensures 0 <= base && 0 <= max && Safe(base, max) ==>
      delay.Some? && Ideal(base, max, n) / 2 <= delay.value <= Ideal(base, max, n) <= max
  {
    var d := base;
    var i := 1;
    while i < n && d < max
      invariant 1 <= i <= n && Int64(d) && d == Doubled(base, max, i)
    {
      d := Wrap(d * 2);
      i := i + 1;
    }
    Stops(base, max, i, n);
    if d > max {
      d := max;
    }
    if 0 <= base && 0 <= max && Safe(base, max) {
      SafeDelayIsIdeal(base, max, n);
    }
    var half := Half(d);
    if half + 1 <= 0 {
      return None;
    }
    var r :| 0 <= r <= half;
    return Some(half + r);
  }

  /** The Retry-After header (section 10.2.3 of RFC 9110) as read: missing, a 64-bit number of seconds, a
      date that many nanoseconds away, or something else. */
  datatype Header = Missing | Seconds(secs: int) | Date(until: int) | Garbage

  function RetryAfter(h: Header): Option<int> {
    match h
    case Seconds(secs) => if secs >= 0 then Some(Wrap(secs * SECOND)) else None
    case Date(until) => Some(if until < 0 then 0 else until)
    case _ => None
  }

  /** The decision to give up because the server asks for too long a wait. */
  predicate TooLong(h: Header, max: int) {
    RetryAfter(h).Some? && RetryAfter(h).value > max
  }

  /** A date in the past asks for no wait, one to come for the time until then, and this is compared rightly
      with every maximum; a header that is missing, negative or neither a number nor a date asks for nothing. */
  lemma OtherHeadersAreReadRightly(until: int, secs: int, max: int)
    requires 0 <= max
    ensures RetryAfter(Date(until)).Some? && RetryAfter(Date(until)).value >= 0
    ensures RetryAfter(Date(until)).value == until || (until < 0 && RetryAfter(Date(until)).value == 0)
    ensures TooLong(Date(until), max) <==> until > max
    ensures secs < 0 ==> RetryAfter(Seconds(secs)) == None
    ensures RetryAfter(Missing) == None && RetryAfter(Garbage) == None
    ensures 0 <= secs <= 9_223_372_036 ==> RetryAfter(Seconds(secs)) == Some(secs * SECOND)
  {
  }

  /** MAIN RESULT. The decision on a number of seconds is right for every maximum exactly when the number
      is at most 9223372036, as many seconds as fit 64 bits of nanoseconds. */
  lemma RetryAfterIsRightIffItFits(secs: int)
    requires 0 <= secs < TWO63
    ensures (forall max :: 0 <= max < TWO63 ==> (TooLong(Seconds(secs), max) <==> secs * SECOND > max))
            <==> secs <= 9_223_372_036
  {
    if secs > 9_223_372_036 {
      assert !TooLong(Seconds(secs), TWO63 - 1) && secs * SECOND > TWO63 - 1;
    }
  }

  /** 18446744074 seconds, more than 584 years, are taken for less than a third of a second. */
  lemma HugeRetryAfterIsShort()
    ensures RetryAfter(Seconds(18_446_744_074)) == Some(290_448_384)
  {
  }
}
