/** The retry loop, against the trace of what it does, and the delays its generators produce. */
module RetryPolicy {

  datatype Outcome<V, E> = Returns(value: V) | Throws(ex: E)

  datatype Action<E> =
    | BeforeTry(attempt: nat)
    | Executes(attempt: nat)
    | AfterTry(ex: E, delay: int, attempt: nat)
    | Waits(delay: int)

  /** The attempt ends the loop: it returns, or throws something the policy does not handle. */
  predicate Decisive<V, E>(o: Outcome<V, E>, handle: E -> bool) {
    o.Returns? || !handle(o.ex)
  }

  /** How many handled failures precede the first decisive outcome, among the first `n`. */
  function Handled<V, E>(n: nat, outcomes: nat -> Outcome<V, E>, handle: E -> bool, from: nat): nat
    requires from <= n
    decreases n - from
  {
    if from == n || Decisive(outcomes(from), handle) then 0 else 1 + Handled(n, outcomes, handle, from + 1)
  }

  lemma {:induction false} HandledMeaning<V, E>(n: nat, outcomes: nat -> Outcome<V, E>, handle: E -> bool, from: nat)
    requires from <= n
    ensures var h := Handled(n, outcomes, handle, from);
            && from + h <= n
            && (forall j :: from <= j < from + h ==> !Decisive(outcomes(j), handle))
            && (from + h < n ==> Decisive(outcomes(from + h), handle))
    decreases n - from
  {
    if from < n && !Decisive(outcomes(from), handle) {
      HandledMeaning(n, outcomes, handle, from + 1);
    }
  }

  /** The trace of `h` handled failures. */
  function FailureTrace<V, E>(retries: seq<int>, outcomes: nat -> Outcome<V, E>, h: nat): seq<Action<E>>
    requires h <= |retries| && forall j :: 0 <= j < h ==> outcomes(j).Throws?
  {
    if h == 0 then [] else
    FailureTrace(retries, outcomes, h - 1)
    + [BeforeTry(h), Executes(h), AfterTry(outcomes(h - 1).ex, retries[h - 1], h), Waits(retries[h - 1])]
  }

  /** The j-th handled failure is tried, reported with its delay, and waited for, in this order. */
  lemma {:induction false} FailureTraceAt<V, E>(retries: seq<int>, outcomes: nat -> Outcome<V, E>, h: nat, j: nat)
    requires j < h <= |retries| && forall i :: 0 <= i < h ==> outcomes(i).Throws?
    ensures var trace := FailureTrace(retries, outcomes, h);
            && |trace| == 4 * h
            && trace[4 * j..4 * j + 4] == [BeforeTry(j + 1), Executes(j + 1),
                                           AfterTry(outcomes(j).ex, retries[j], j + 1), Waits(retries[j])]
  {
    if j < h - 1 {
      FailureTraceAt(retries, outcomes, h - 1, j);
    } else if h > 1 {
      FailureTraceAt(retries, outcomes, h - 1, 0);
    }
  }

  /** `outcomes(k)` is what the executable does at its (k+1)-th run. It is run up to and including
      the first success, the first unhandled failure, or the end of the retries; the result is that
      outcome, the last handled failure, or the limit error when there were no retries at all. */
  method Retry<V, E>(retries: seq<int>, outcomes: nat -> Outcome<V, E>, handle: E -> bool, limitExceeded: E)
    returns (r: Outcome<V, E>, trace: seq<Action<E>>)
    ensures var h, n := Handled(|retries|, outcomes, handle, 0), |retries|;
            && h <= n && (forall j :: 0 <= j < h ==> outcomes(j).Throws?)
            && r == (if h < n then outcomes(h) else if n == 0 then Throws(limitExceeded) else outcomes(n - 1))
            && trace == FailureTrace(retries, outcomes, h)
                        + (if h < n then [BeforeTry(h + 1), Executes(h + 1)] else [])
  {
    HandledMeaning(|retries|, outcomes, handle, 0);
    var attempt := 1;
    var lastEx := limitExceeded;
    trace := [];
    for i := 0 to |retries|
      invariant attempt == i + 1
      invariant forall j :: 0 <= j < i ==> !Decisive(outcomes(j), handle)
      invariant lastEx == if i == 0 then limitExceeded else outcomes(i - 1).ex
      invariant trace == FailureTrace(retries, outcomes, i)
      invariant Handled(|retries|, outcomes, handle, 0) == i + Handled(|retries|, outcomes, handle, i)
    {
      trace := trace + [BeforeTry(attempt), Executes(attempt)];
      var outcome := outcomes(i);
      if outcome.Returns? { return outcome, trace; }
      if !handle(outcome.ex) { return outcome, trace; }
      lastEx := outcome.ex;
      trace := trace + [AfterTry(outcome.ex, retries[i], attempt), Waits(retries[i])];
      attempt := attempt + 1;
    }
    r := Throws(lastEx);
  }

  // ---- generated delays ----

  /** The `k`-th value the generator yields; its zeroth is the initial value. */
  function Generated(init: int, next: (int, int, nat) -> int, k: nat): int {
    if k == 0 then init else next(init, Generated(init, next, k - 1), k)
  }

  /** `retryGenerator`, run to its end. */
  method GenerateRetries(count: int, init: int, next: (int, int, nat) -> int) returns (vals: seq<int>)
    ensures |vals| == if count < 0 then 0 else count
    ensures forall k :: 1 <= k <= |vals| ==> vals[k - 1] == Generated(init, next, k)
  {
    vals := [];
    var attempt: nat := 1;
    var val := init;
    while attempt <= count
      invariant |vals| == attempt - 1 && (attempt == 1 || attempt <= count + 1)
      invariant val == Generated(init, next, attempt - 1)
      invariant forall k :: 1 <= k < attempt ==> vals[k - 1] == Generated(init, next, k)
    {
      val := next(init, val, attempt);
      vals := vals + [val];
      attempt := attempt + 1;
    }
  }

  function Linear(init: int, val: int, attempt: nat): int {
    init * attempt
  }

  function Quadratic(init: int, val: int, attempt: nat): int {
    init * val
  }

  function Power(b: int, n: nat): int {
    if n == 0 then 1 else b * Power(b, n - 1)
  }

  /** The k-th delay is `init * k`, respectively `init` to the power `k + 1`. */
  lemma {:induction false} GeneratedDelays(init: int, k: nat)
    ensures k > 0 ==> Generated(init, Linear, k) == init * k
    ensures Generated(init, Quadratic, k) == Power(init, k + 1)
  {
    if k > 0 {
      GeneratedDelays(init, k - 1);
    }
  }

  /** The time a trace waits. */
  function TotalWait<E>(trace: seq<Action<E>>): int
    decreases |trace|
  {
    if trace == [] then 0 else
    TotalWait(trace[..|trace| - 1]) + (var last := trace[|trace| - 1]; if last.Waits? then last.delay else 0)
  }

  lemma WaitOfFailure<E>(t: seq<Action<E>>, a: Action<E>, b: Action<E>, c: Action<E>, delay: int)
    requires !a.Waits? && !b.Waits? && !c.Waits?
    ensures TotalWait(t + [a, b, c, Waits(delay)]) == TotalWait(t) + delay
    ensures TotalWait(t + [a, b]) == TotalWait(t)
  {
    var t1, t2, t3 := t + [a], t + [a, b], t + [a, b, c];
    var t4 := t + [a, b, c, Waits(delay)];
    assert t1[..|t1| - 1] == t && t2[..|t2| - 1] == t1 && t3[..|t3| - 1] == t2 && t4[..|t4| - 1] == t3;
    assert TotalWait(t1) == TotalWait(t) && TotalWait(t2) == TotalWait(t1) && TotalWait(t3) == TotalWait(t2);
  }

  lemma {:induction false} LinearFailureWait<V, E>(init: int, retries: seq<int>, outcomes: nat -> Outcome<V, E>, h: nat)
    requires h <= |retries| && forall j :: 0 <= j < h ==> outcomes(j).Throws?
    requires forall k :: 1 <= k <= |retries| ==> retries[k - 1] == Generated(init, Linear, k)
    ensures 2 * TotalWait(FailureTrace(retries, outcomes, h)) == init * (h * (h + 1))
  {
    if h > 0 {
      LinearFailureWait(init, retries, outcomes, h - 1);
      GeneratedDelays(init, h);
      WaitOfFailure(FailureTrace(retries, outcomes, h - 1),
                    BeforeTry(h), Executes(h), AfterTry(outcomes(h - 1).ex, retries[h - 1], h), retries[h - 1]);
      assert init * ((h - 1) * h) + 2 * (init * h) == init * (h * (h + 1)) by {
        assert h * (h + 1) == (h - 1) * h + 2 * h;
      }
    }
  }

  /** With linear retries, `f` handled failures wait `init * f * (f + 1) / 2` in all, whether the
      policy then succeeds, gives up, or meets a failure it does not handle. */
  method RetryLinearly<V, E>(count: nat, init: int, outcomes: nat -> Outcome<V, E>, handle: E -> bool, limitExceeded: E)
    returns (r: Outcome<V, E>, trace: seq<Action<E>>)
    ensures var f := Handled(count, outcomes, handle, 0);
            2 * TotalWait(trace) == init * (f * (f + 1))
  {
    var retries := GenerateRetries(count, init, Linear);
    r, trace := Retry(retries, outcomes, handle, limitExceeded);
    ghost var f := Handled(count, outcomes, handle, 0);
    LinearFailureWait(init, retries, outcomes, f);
    if f < count {
      WaitOfFailure(FailureTrace(retries, outcomes, f), BeforeTry(f + 1), Executes(f + 1), BeforeTry(0), 0);
    } else {
      assert trace == FailureTrace(retries, outcomes, f);
    }
  }
}
