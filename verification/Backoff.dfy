/** Closed forms for the queue's retry delay, C arithmetic included. */
module Backoff {
  import opened Queue
  import opened Words

  function Shift(attempts: nat): nat {
    if attempts == 0 then 0 else Min(attempts - 1, 30) as nat
  }

  /** The delay as documented: the base doubled once per attempt so far. */
  function Ideal(q: QRec, attempts: nat): nat {
    q.backoffMs * Pow2(Shift(attempts))
  }

  lemma {:induction false} Pow2Mono(a: nat, b: nat)
    requires a <= b
    ensures Pow2(a) <= Pow2(b)
    decreases b - a
  {
    if a < b { Pow2Mono(a, b - 1); }
  }

  lemma MulMono(x: nat, a: nat, b: nat)
    requires a <= b
    ensures x * a <= x * b
  {
    assert x * b == x * a + x * (b - a);
  }

  lemma Pow2Of30()
    ensures Pow2(30) == 0x4000_0000
  {
    assert Pow2(10) == 1024;
    assert Pow2(20) == 1024 * 1024 by {
      assert Pow2(15) == 32 * 1024;
    }
    assert Pow2(25) == 32 * 1024 * 1024;
  }

  /** The ceiling is never exceeded, even when the 64-bit shift wraps. */
  lemma BackoffCeiling(q: QRec, attempts: nat)
    requires q.maxBackoffMs != 0
    ensures BackoffFor(q, attempts) <= q.maxBackoffMs
  {
  }

  /**
   Exactly when the computed delay is the documented one: the shift does not
   wrap, or the wrap is caught by landing below the base, or what it wrapped to
   is over the ceiling anyway.
   */
  lemma BackoffExact(q: QRec, attempts: nat)
    requires 0 < q.maxBackoffMs < U64 && 0 < q.backoffMs && attempts <= U32
    ensures
      BackoffFor(q, attempts) == Min(Ideal(q, attempts), q.maxBackoffMs) <==>
        || Ideal(q, attempts) < U64
        || Ideal(q, attempts) % U64 < q.backoffMs
        || Ideal(q, attempts) % U64 >= q.maxBackoffMs
  {
    var p := Ideal(q, attempts);
    MulMono(q.backoffMs, 1, Pow2(Shift(attempts)));
    ShiftsAgree(attempts);
    ModSmall(p);
  }

  /** The narrowing to 32 bits is invisible up to 2^32 attempts. */
  lemma ShiftsAgree(attempts: nat)
    requires attempts <= U32
    ensures ShiftFor(attempts) == Shift(attempts)
  {
    if attempts > 0 { assert (attempts - 1) % U32 == attempts - 1; }
  }

  lemma ModSmall(p: nat)
    ensures p < U64 ==> p % U64 == p
  {
  }

  /** Below 2^34 the shift cannot wrap, and the delay is the documented one. */
  lemma BackoffClosedForm(q: QRec, attempts: nat)
    requires 0 < q.maxBackoffMs < U64 && q.backoffMs < 0x4_0000_0000 && attempts <= U32
    ensures BackoffFor(q, attempts) == Min(Ideal(q, attempts), q.maxBackoffMs)
  {
    if q.backoffMs > 0 {
      Pow2Mono(Shift(attempts), 30);
      Pow2Of30();
      MulMono(q.backoffMs, Pow2(Shift(attempts)), Pow2(30));
      BackoffExact(q, attempts);
    }
  }

  lemma BackoffMonotone(q: QRec, a: nat, b: nat)
    requires 0 < q.maxBackoffMs < U64 && q.backoffMs < 0x4_0000_0000 && a <= b <= U32
    ensures BackoffFor(q, a) <= BackoffFor(q, b)
  {
    BackoffClosedForm(q, a);
    BackoffClosedForm(q, b);
    Pow2Mono(Shift(a), Shift(b));
    MulMono(q.backoffMs, Pow2(Shift(a)), Pow2(Shift(b)));
  }

  /** Just past 2^34 a wrap can go unnoticed: the delay falls far below the ceiling. */
  lemma BackoffUndetectedWrap(q: QRec)
    requires q.backoffMs == 0x4_0000_0011 && q.maxBackoffMs == 0x8000_0000_0000_0000
    ensures BackoffFor(q, 31) == 0x4_4000_0000
    ensures BackoffFor(q, 31) < Min(Ideal(q, 31), q.maxBackoffMs)
  {
    Pow2Of30();
    assert (31 - 1) % U32 == 30;
    assert Ideal(q, 31) == 0x4_0000_0011 * 0x4000_0000;
  }
}
