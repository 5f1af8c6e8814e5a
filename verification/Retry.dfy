/** retry.Exponential: how often the function is called, and how long it all takes. */
module Retry {
  import opened Int64

  /** One call of the retried function, and the wait after it if it is not the last. */
  datatype Attempt = Attempt(ok: bool, cost: nat, cancelled: bool, waitedBeforeCancel: nat)

  function Limit(attempts: int): (n: nat)
    ensures n >= 1 && n == Max(1, attempts)
  {
    if attempts < 1 then 1 else attempts
  }

  /** The delay after call `i`: time.After returns at once when it is not positive. */
  function Delay(base: int, i: nat): nat
    requires i >= 1
  {
    Max(0, Wrap(Shl(base, i - 1)))
  }

  /** The number of the last call, call `i` being made. */
  function LastCall(limit: nat, fn: nat -> Attempt, i: nat): (last: nat)
    requires 1 <= i <= limit
    ensures i <= last <= limit
    ensures forall k | i <= k < last :: !fn(k).ok && !fn(k).cancelled
    ensures fn(last).ok || fn(last).cancelled || last == limit
    decreases limit - i
  {
    if fn(i).ok || fn(i).cancelled || i == limit then i else LastCall(limit, fn, i + 1)
  }

  /** The first call that succeeds or is followed by a cancellation, or the limit, is the last. */
  lemma {:induction false} LastCallIs(limit: nat, fn: nat -> Attempt, i: nat, k: nat)
    requires 1 <= i <= k <= limit && (fn(k).ok || fn(k).cancelled || k == limit)
    requires forall n | i <= n < k :: !fn(n).ok && !fn(n).cancelled
    ensures LastCall(limit, fn, i) == k
    decreases k - i
  {
    if i < k { LastCallIs(limit, fn, i + 1, k); }
  }

  /** The time from call `i` to the end. */
  function TimeFrom(limit: nat, base: int, fn: nat -> Attempt, i: nat): nat
    requires 1 <= i <= limit
    decreases limit - i
  {
    fn(i).cost + if fn(i).ok || i == limit then 0
                 else if fn(i).cancelled then Min(fn(i).waitedBeforeCancel, Delay(base, i))
                 else Delay(base, i) + TimeFrom(limit, base, fn, i + 1)
  }

  function RetryCalls(attempts: int, fn: nat -> Attempt): nat { LastCall(Limit(attempts), fn, 1) }
  function RetryTime(attempts: int, base: int, fn: nat -> Attempt): nat { TimeFrom(Limit(attempts), base, fn, 1) }

  /** Whether the retried function succeeds in the end. */
  predicate Succeeds(attempts: int, fn: nat -> Attempt) { fn(RetryCalls(attempts, fn)).ok }

  /** The loop: calls until success, cancellation or the limit, with doubling delays between. */
  method Exponential(attempts: int, base: int, fn: nat -> Attempt)
    returns (ok: bool, cancelled: bool, calls: nat, elapsed: nat)
    ensures calls == RetryCalls(attempts, fn) && elapsed == RetryTime(attempts, base, fn)
    ensures ok == Succeeds(attempts, fn)
    ensures cancelled <==> !ok && calls < Limit(attempts)
  {
    var limit := Limit(attempts);
    elapsed := 0;
    calls := 1;
    while true
      invariant 1 <= calls <= limit
      invariant LastCall(limit, fn, calls) == RetryCalls(attempts, fn)
      invariant elapsed + TimeFrom(limit, base, fn, calls) == RetryTime(attempts, base, fn)
      decreases limit - calls
    {
      var a := fn(calls);
      elapsed := elapsed + a.cost;
      if a.ok {
        return true, false, calls, elapsed;
      }
      if calls == limit {
        return false, false, calls, elapsed;
      }
      var d := Delay(base, calls);
      if a.cancelled {
        return false, true, calls, elapsed + Min(a.waitedBeforeCancel, d);
      }
      elapsed := elapsed + d;
      calls := calls + 1;
    }
  }

  lemma DelayAtMost(base: nat, i: nat)
    requires i >= 1
    ensures Delay(base, i) + Shl(base, i - 1) <= Shl(base, i)
  {
    ShlNonNegative(base, i - 1);
  }

  /** All the delays from call `i` to the limit. */
  function DelaysFrom(limit: nat, base: int, i: nat): nat
    requires 1 <= i <= limit
    decreases limit - i
  {
    if i == limit then 0 else Delay(base, i) + DelaysFrom(limit, base, i + 1)
  }

  lemma {:induction false} DelaysAtMost(limit: nat, base: nat, i: nat)
    requires 1 <= i <= limit
    ensures DelaysFrom(limit, base, i) + Shl(base, i - 1) <= Shl(base, limit - 1)
    decreases limit - i
  {
    if i < limit {
      DelayAtMost(base, i);
      DelaysAtMost(limit, base, i + 1);
    }
  }

  /** All the calls from call `i` to the last one. */
  function CostsFrom(limit: nat, fn: nat -> Attempt, i: nat): nat
    requires 1 <= i <= limit
    decreases limit - i
  {
    fn(i).cost + if fn(i).ok || fn(i).cancelled || i == limit then 0 else CostsFrom(limit, fn, i + 1)
  }

  lemma {:induction false} TimeLeft(limit: nat, base: int, fn: nat -> Attempt, i: nat)
    requires 1 <= i <= limit
    ensures TimeFrom(limit, base, fn, i) <= CostsFrom(limit, fn, i) + DelaysFrom(limit, base, i)
    decreases limit - i
  {
    if i < limit && !fn(i).ok && !fn(i).cancelled {
      TimeLeft(limit, base, fn, i + 1);
    }
  }

  lemma {:induction false} CostsAtMost(limit: nat, fn: nat -> Attempt, i: nat, worst: nat)
    requires 1 <= i <= limit && forall k :: fn(k).cost <= worst
    ensures CostsFrom(limit, fn, i) <= (LastCall(limit, fn, i) - i + 1) * worst
    decreases limit - i
  {
    var n := LastCall(limit, fn, i) - i;
    OneMore(n, worst);
    if fn(i).ok || fn(i).cancelled || i == limit {
      assert n * worst == 0;
    } else {
      CostsAtMost(limit, fn, i + 1, worst);
    }
  }

  /** A geometric sum, written with a product. */
  lemma GeometricSum(base: int, n: nat)
    ensures Shl(base, n) - Shl(base, 0) == base * (Pow2(n) - 1)
  {
    ShlIs(base, n);
    assert base * (Pow2(n) - 1) == base * Pow2(n) - base;
  }

  /** The whole takes at most its calls plus base * (2^(limit-1) - 1). */
  lemma RetryTimeBounded(attempts: int, base: nat, fn: nat -> Attempt, worst: nat)
    requires forall k :: fn(k).cost <= worst
    ensures RetryTime(attempts, base, fn)
            <= RetryCalls(attempts, fn) * worst + base * (Pow2(Limit(attempts) - 1) - 1)
  {
    TimeLeft(Limit(attempts), base, fn, 1);
    CostsAtMost(Limit(attempts), fn, 1, worst);
    DelaysAtMost(Limit(attempts), base, 1);
    GeometricSum(base, Limit(attempts) - 1);
    assert RetryCalls(attempts, fn) - 1 + 1 == RetryCalls(attempts, fn);
  }

  // ---------- The exact time ----------

  /** The first delay is the base, and each is twice the one before, while that fits 64 bits. */
  lemma DelayDoubles(base: nat, i: nat)
    requires i >= 1 && base * Pow2(i) < TWO63
    ensures Delay(base, 1) == base && Delay(base, i) == base * Pow2(i - 1)
    ensures Delay(base, i + 1) == 2 * Delay(base, i)
  {
    ShlIs(base, i);
    ShlIs(base, i - 1);
    ShlNonNegative(base, i - 1);
    ShlGrows(base, 0, i);
  }

  /** A base that is not positive waits for nothing. */
  lemma NoDelay(base: int, i: nat)
    requires i >= 1 && base <= 0 && -TWO63 <= base * Pow2(i - 1)
    ensures Delay(base, i) == 0
  {
    ShlIs(base, i - 1);
    MulGrows(base, 0, Pow2(i - 1));
  }

  /** The time is that of the calls, the delays between them, and the part of a delay that a cancellation cuts short. */
  lemma {:induction false} TimeSplits(limit: nat, base: int, fn: nat -> Attempt, i: nat)
    requires 1 <= i <= limit
    ensures var last := LastCall(limit, fn, i);
            TimeFrom(limit, base, fn, i)
            == CostsFrom(limit, fn, i) + DelaysFrom(last, base, i)
               + if fn(last).ok || last == limit then 0 else Min(fn(last).waitedBeforeCancel, Delay(base, last))
    decreases limit - i
  {
    if i < limit && !fn(i).ok && !fn(i).cancelled {
      TimeSplits(limit, base, fn, i + 1);
    }
  }

  /** Delays that fit 64 bits add up to the geometric sum. */
  lemma {:induction false} DelaysAddUp(last: nat, base: nat, i: nat)
    requires 1 <= i <= last && Shl(base, last - 1) < TWO63
    ensures DelaysFrom(last, base, i) + Shl(base, i - 1) == Shl(base, last - 1)
    decreases last - i
  {
    if i < last {
      ShlGrows(base, i - 1, last - 1);
      DelaysAddUp(last, base, i + 1);
    }
  }

  lemma {:induction false} EqualCostsAddUp(limit: nat, fn: nat -> Attempt, i: nat, cost: nat)
    requires 1 <= i <= limit && forall k :: fn(k).cost == cost
    ensures CostsFrom(limit, fn, i) == (LastCall(limit, fn, i) - i + 1) * cost
    decreases limit - i
  {
    var n := LastCall(limit, fn, i) - i;
    OneMore(n, cost);
    if fn(i).ok || fn(i).cancelled || i == limit {
      assert n * cost == 0;
    } else {
      EqualCostsAddUp(limit, fn, i + 1, cost);
    }
  }

  /**
   A call that gets through, or the last one, after `last - 1` failures: the costs and base * (2^(last-1) - 1),
   exactly, when nothing overflows.
   */
  lemma UncancelledTime(attempts: int, base: nat, fn: nat -> Attempt)
    requires var last := RetryCalls(attempts, fn);
             (fn(last).ok || last == Limit(attempts)) && base * Pow2(last - 1) < TWO63
    ensures RetryTime(attempts, base, fn)
            == CostsFrom(Limit(attempts), fn, 1) + base * (Pow2(RetryCalls(attempts, fn) - 1) - 1)
  {
    var last := RetryCalls(attempts, fn);
    TimeSplits(Limit(attempts), base, fn, 1);
    ShlIs(base, last - 1);
    DelaysAddUp(last, base, 1);
    GeometricSum(base, last - 1);
  }

  /** Attempts of equal cost, all in vain: the bound of `RetryTimeBounded` is reached. */
  lemma InVain(attempts: int, base: nat, fn: nat -> Attempt, cost: nat)
    requires forall i :: fn(i).cost == cost && !fn(i).ok && !fn(i).cancelled
    requires base * Pow2(Limit(attempts) - 1) < TWO63
    ensures RetryTime(attempts, base, fn) == Limit(attempts) * cost + base * (Pow2(Limit(attempts) - 1) - 1)
  {
    LastCallIs(Limit(attempts), fn, 1, Limit(attempts));
    UncancelledTime(attempts, base, fn);
    EqualCostsAddUp(Limit(attempts), fn, 1, cost);
  }
}
