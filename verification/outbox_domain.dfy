/**
 The outbox vocabulary: messages, their statuses and the retry policy
 (internal/core/outbox/domain/message.go). Instants and durations are counted in
 nanoseconds; a duration product wraps around at 64 bits as time.Duration does.
 */
module OutboxDomain {
  import opened Decimal

  type MessageId = string

  datatype Status = Pending | Done | Failed

  datatype NewMessage = NewMessage(
    kind: string, aggregateId: string, payload: string, traceParent: string, headers: map<string, string>)

  datatype Message = Message(
    id: MessageId, content: NewMessage, status: Status, attempts: nat, createdAt: int, availableAt: int)
  {
    predicate IsDue(now: int) {
      status == Pending && availableAt <= now
    }
  }

  datatype FailedAttempt = FailedAttempt(
    id: MessageId, attempts: nat, status: Status, availableAt: int, reason: string)

  datatype RetryPolicy = RetryPolicy(maxAttempts: int, baseBackoff: int)

  const MAX_SHIFT: nat := 10

  function Min(a: nat, b: nat): nat {
    if a <= b then a else b
  }

  function Pow2(n: nat): (p: nat)
    ensures p > 0
  {
    if n == 0 then 1 else 2 * Pow2(n - 1)
  }

  /** The pause computed after failure number `attempts`, as the 64-bit product the code evaluates. */
  function Backoff(base: int, attempts: nat): (pause: int) {
    Wrap64(base * Pow2(Min(attempts, MAX_SHIFT)))
  }

  function NextAttempt(msg: Message, policy: RetryPolicy, now: int, reason: string): (a: FailedAttempt) {
    var attempts := msg.attempts + 1;
    FailedAttempt(
      msg.id,
      attempts,
      if attempts >= policy.maxAttempts then Failed else Pending,
      now + Backoff(policy.baseBackoff, attempts),
      reason)
  }

  // ---- The backoff, over all attempt counts ----

  /** Whether the product the code evaluates is the exponential backoff the design describes. */
  ghost predicate BackoffIsExact(base: int) {
    forall k: nat :: Backoff(base, k) == base * Pow2(Min(k, MAX_SHIFT))
  }

  lemma Pow2Values()
    ensures Pow2(10) == 1024
  {
    assert Pow2(5) == 32;
    assert Pow2(7) == 128;
  }

  lemma {:induction false} Pow2Monotonic(a: nat, b: nat)
    requires a <= b
    ensures Pow2(a) <= Pow2(b)
  {
    if a < b {
      Pow2Monotonic(a, b - 1);
    }
  }

  /**
   For a positive base, the 64-bit product never wraps, whatever the attempt
   count, exactly when the base is at most 2^53 - 1 nanoseconds.
   */
  lemma BackoffNeverWraps(base: int)
    requires 0 < base <= MAX_INT64
    ensures BackoffIsExact(base) <==> base <= 0x1F_FFFF_FFFF_FFFF
  {
    Pow2Values();
    if base <= 0x1F_FFFF_FFFF_FFFF {
      forall k: nat ensures Backoff(base, k) == base * Pow2(Min(k, MAX_SHIFT)) {
        var p := Pow2(Min(k, MAX_SHIFT));
        Pow2Monotonic(Min(k, MAX_SHIFT), MAX_SHIFT);
        ProductBound(base, p);
      }
    } else {
      assert Pow2(Min(10, MAX_SHIFT)) == 1024;
      assert Backoff(base, 10) == Wrap64(base * 1024);
      assert !IsInt64(base * 1024);
      assert Backoff(base, 10) != base * Pow2(Min(10, MAX_SHIFT));
    }
  }

  lemma ProductBound(base: int, p: nat)
    requires 0 < base <= 0x1F_FFFF_FFFF_FFFF && 0 < p <= 1024
    ensures 0 < base * p <= MAX_INT64
  {
    assert base * 1024 - base * p == base * (1024 - p);
    ProductNonNegative(base, 1024 - p);
    ProductNonNegative(base - 1, p - 1);
    assert (base - 1) * (p - 1) == base * p - base - p + 1;
  }

  lemma ProductNonNegative(a: nat, b: nat)
    ensures a * b >= 0
  {
  }

  /** The failure the bound rules out: a base of 2^53 ns sends the tenth retry into the past. */
  lemma WrappedBackoffGoesBackInTime()
    ensures Backoff(0x20_0000_0000_0000, 10) == MIN_INT64
  {
    Pow2Values();
  }

  /** The waits after failures 1..k, added up. */
  function TotalBackoff(base: int, k: nat): int {
    if k == 0 then 0 else TotalBackoff(base, k - 1) + Backoff(base, k)
  }

  lemma {:induction false} TotalBackoffClosedForm(base: int, k: nat)
    requires 0 < base <= 0x1F_FFFF_FFFF_FFFF
    ensures k <= 10 ==> TotalBackoff(base, k) == base * (Pow2(k + 1) - 2)
    ensures k >= 10 ==> TotalBackoff(base, k) == base * (2046 + 1024 * (k - 10))
  {
    hide Wrap64;
    hide Backoff;
    hide BackoffIsExact;
    if k == 0 {
      assert Pow2(1) == 2;
    } else {
      TotalBackoffClosedForm(base, k - 1);
      ExactBackoff(base, k);
      if k <= 10 {
        assert Pow2(k + 1) == 2 * Pow2(k);
        Distribute(base, Pow2(k) - 2, Pow2(k));
      } else {
        Distribute(base, 2046 + 1024 * (k - 1 - 10), 1024);
      }
      if k == 10 {
        Pow2Values();
      }
    }
  }

  lemma ExactBackoff(base: int, k: nat)
    requires 0 < base <= 0x1F_FFFF_FFFF_FFFF
    ensures Backoff(base, k) == base * Pow2(Min(k, MAX_SHIFT))
    ensures k >= 10 ==> Backoff(base, k) == base * 1024
  {
    BackoffNeverWraps(base);
    Pow2Values();
  }

  lemma Distribute(a: int, b: int, c: int)
    ensures a * b + a * c == a * (b + c)
  {
  }
}
