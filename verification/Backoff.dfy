/** The retry delay (`retryBackoff` in internal/schedule/scheduler.go), with Go's int64 arithmetic spelled out. */
module Backoff {

  const SECOND := 1_000_000_000
  const TWO_TO_63 := 0x8000_0000_0000_0000
  const TWO_TO_64 := 0x1_0000_0000_0000_0000

  /** The int64 that holds the low 64 bits of x. */
  function Wrap(x: int): (r: int)
    ensures -TWO_TO_63 <= r < TWO_TO_63
    ensures (x - r) % TWO_TO_64 == 0
    ensures -TWO_TO_63 <= x < TWO_TO_63 ==> r == x
  {
    var low := x % TWO_TO_64;
    if low >= TWO_TO_63 then low - TWO_TO_64 else low
  }

  function Pow2(k: nat): (p: nat)
    ensures p >= 1
  {
    if k == 0 then 1 else 2 * Pow2(k - 1)
  }

  /** `1 << k` evaluated as an int64. */
  function ShiftedOne(k: nat): int {
    if k >= 64 then 0 else Wrap(Pow2(k))
  }

  function RetryBackoff(attempts: int): (delay: int)
    ensures delay <= 30 * SECOND
  {
    var a := if attempts <= 0 then 1 else attempts;
    var delay := Wrap(ShiftedOne(a - 1) * SECOND);
    if delay > 30 * SECOND then 30 * SECOND else delay
  }

  /** The documented schedule: 1s, 2s, 4s, 8s, 16s, capped at 30s. */
  function Documented(attempts: nat): int
    requires attempts >= 1
  {
    if attempts <= 5 then Pow2(attempts - 1) * SECOND else 30 * SECOND
  }

  lemma {:induction false} Pow2Mono(j: nat, k: nat)
    requires j <= k
    ensures Pow2(j) <= Pow2(k)
    decreases k
  {
    if j < k { Pow2Mono(j, k - 1); }
  }

  /** `Documented` is the capped power of two for every attempt count. */
  lemma DocumentedIsCappedPower(a: nat)
    requires a >= 1
    ensures Documented(a) == if Pow2(a - 1) <= 30 then Pow2(a - 1) * SECOND else 30 * SECOND
  {
    if a <= 5 {
      Pow2Mono(a - 1, 4);
      assert Pow2(4) == 16;
    } else {
      Pow2Mono(5, a - 1);
      assert Pow2(5) == 32;
    }
  }

  /** The product before the cap is applied, for a shift by k. */
  function RawDelay(k: nat): int {
    Wrap(ShiftedOne(k) * SECOND)
  }

  lemma WrapIgnoresMultiples(x: int, q: int)
    ensures Wrap(x + q * TWO_TO_64) == Wrap(x)
  {
  }

  /** Up to a shift of 63 the wrapped product doubles from one attempt to the next. */
  lemma RawDelayDoubles(k: nat)
    requires k < 63
    ensures RawDelay(k + 1) == Wrap(2 * RawDelay(k))
  {
    var p := Wrap(Pow2(k));
    var q := (Pow2(k) - p) / TWO_TO_64;
    assert Pow2(k) == p + q * TWO_TO_64;
    WrapIgnoresMultiples(2 * p, 2 * q);
    var p' := Wrap(2 * p);
    var q' := (2 * p - p') / TWO_TO_64;
    WrapIgnoresMultiples(2 * p * SECOND, -q' * SECOND);
    var d := Wrap(p * SECOND);
    var e := (p * SECOND - d) / TWO_TO_64;
    WrapIgnoresMultiples(2 * d, 2 * e);
  }

  lemma {:induction false} Pow2Sum(j: nat, k: nat)
    ensures Pow2(j + k) == Pow2(j) * Pow2(k)
  {
    if j > 0 {
      Pow2Sum(j - 1, k);
      assert Pow2(j + k) == 2 * Pow2(j - 1 + k);
      assert Pow2(j) * Pow2(k) == 2 * (Pow2(j - 1) * Pow2(k));
    }
  }

  lemma Pow2Of34()
    ensures Pow2(33) == 0x2_0000_0000 && Pow2(34) == 0x4_0000_0000
  {
    assert Pow2(4) == 16;
    Pow2Sum(4, 4);
    Pow2Sum(8, 8);
    Pow2Sum(16, 16);
    assert Pow2(33) == 2 * Pow2(32) && Pow2(34) == 2 * Pow2(33);
  }

  lemma EarlyBackoff(a: nat)
    requires 1 <= a <= 34
    ensures RetryBackoff(a) == Documented(a)
  {
    Pow2Mono(a - 1, 33);
    Pow2Of34();
    DocumentedIsCappedPower(a);
  }

  lemma FirstWrap()
    ensures RawDelay(34) == -1266874889709551616
  {
    Pow2Of34();
  }

  /** The wrapped products from the 35th attempt on; after 21 more doublings all bits are shifted out. */
  const LATE: seq<int> := [
    -1266874889709551616,
    -2533749779419103232,
    -5067499558838206464,
    8311744956033138688,
    -1823254161643274240,
    -3646508323286548480,
    -7293016646573096960,
    3860710780563357696,
    7721421561126715392,
    -3003900951456120832,
    -6007801902912241664,
    6431140267885068288,
    -5584463537939415040,
    7277816997830721536,
    -3891110078048108544,
    -7782220156096217088,
    2882303761517117440,
    5764607523034234880,
    -6917529027641081856,
    4611686018427387904,
    -9223372036854775808,
    0]

  /** The attempt counts whose product is below 2^63 or happens to wrap to more than 30s. */
  predicate Survives(a: nat) {
    a <= 34 || a in {38, 42, 43, 46, 48, 51, 52, 54}
  }

  lemma LateVerdict(a: nat)
    requires 35 <= a <= 56
    ensures LATE[a - 35] > 30 * SECOND <==> Survives(a)
    ensures !Survives(a) ==> LATE[a - 35] <= 0
  {
  }

  lemma LateStep(j: nat)
    requires j < 21
    ensures Wrap(2 * LATE[j]) == LATE[j + 1]
  {
  }

  lemma {:induction false} LateDelay(j: nat)
    requires j <= 21
    ensures RawDelay(34 + j) == LATE[j]
  {
    if j == 0 {
      FirstWrap();
    } else {
      LateDelay(j - 1);
      LateStep(j - 1);
      RawDelayDoubles(33 + j);
    }
  }

  lemma {:induction false} ShiftedOut(k: nat)
    requires k >= 55
    ensures RawDelay(k) == 0
  {
    if k == 55 {
      LateDelay(21);
    } else if k < 64 {
      ShiftedOut(k - 1);
      RawDelayDoubles(k - 1);
    }
  }

  /** The code follows its documentation exactly for these attempt counts; elsewhere the delay is zero or negative. */
  lemma BackoffAsDocumented(a: nat)
    requires a >= 1
    ensures RetryBackoff(a) == Documented(a) <==> Survives(a)
    ensures !Survives(a) ==> RetryBackoff(a) <= 0
  {
    if a <= 34 {
      EarlyBackoff(a);
    } else {
      CappedDelay(a);
      if a <= 55 {
        LateDelay(a - 35);
        LateVerdict(a);
      } else {
        ShiftedOut(a - 1);
      }
    }
  }

  lemma CappedDelay(a: nat)
    requires a >= 1
    ensures RetryBackoff(a) == if RawDelay(a - 1) > 30 * SECOND then 30 * SECOND else RawDelay(a - 1)
  {
  }
}
