/**
 * The bounded-retry poller of pkg/drivers/helpers.go (`waitForSpecificOrError`
 * and `waitForSpecific`). The legacy package drivers/helpers.go carries a
 * character-for-character copy of both functions; this one module models both.
 *
 * The probe is an oracle: `probe(i)` is what its `i`-th call (counting from 0)
 * returns. `time.Sleep(waitInterval)` is a counted event; its duration is not
 * modelled.
 */
module Poller {
  import opened Errors

  /** One call of the probe: `stop, err := f()`. */
  datatype ProbeResult = ProbeResult(stop: bool, err: Option<Error>)

  /** `(false, nil)`: the condition does not hold yet, try again. */
  predicate Pending(p: ProbeResult)
  {
    !p.stop && p.err.None?
  }

  /** `fmt.Errorf("Maximum number of retries (%d) exceeded", maxAttempts)` */
  function ExhaustedError(maxAttempts: int): Error
  {
    Formatted("Maximum number of retries (" + Decimal(maxAttempts) + ") exceeded")
  }

  /** How many times `for i := 0; i < maxAttempts; i++` can run. */
  function Budget(maxAttempts: int): nat
  {
    if maxAttempts < 0 then 0 else maxAttempts
  }

  /**
   * The exhaustion error names the attempt budget it ran out of: two
   * different budgets give two different errors.
   */
  lemma ExhaustedErrorNamesBudget(m: int, n: int)
    requires ExhaustedError(m) == ExhaustedError(n)
    ensures m == n
  {
    var p := "Maximum number of retries (";
    var q := ") exceeded";
    var a := p + Decimal(m) + q;
    var b := p + Decimal(n) + q;
    assert |a| == |b|;
    assert a[|p|..|a| - |q|] == Decimal(m);
    assert b[|p|..|b| - |q|] == Decimal(n);
    DecimalInjective(m, n);
  }

  /**
   * What the poller promises, as a relation between the probe, the budget
   * and `(err, calls, sleeps)`: every call before the last sleep returned
   * `(false, nil)`; then either the budget ran out (one sleep per call, the
   * exhaustion error) or the last call was decisive and its own `err` is
   * returned as is (nil when it answered `true`, the probe's error otherwise,
   * even when it answered `true` as well).
   */
  ghost predicate Polled(probe: nat -> ProbeResult, maxAttempts: int, err: Option<Error>, calls: nat, sleeps: nat)
  {
    && calls <= Budget(maxAttempts)
    && (forall i :: 0 <= i < sleeps ==> Pending(probe(i)))
    && (sleeps == calls || sleeps + 1 == calls)
    && (sleeps == calls ==> calls == Budget(maxAttempts) && err == Some(ExhaustedError(maxAttempts)))
    && (sleeps + 1 == calls ==> !Pending(probe(sleeps)) && err == probe(sleeps).err)
  }

  /** `waitForSpecificOrError(f, maxAttempts, waitInterval)` */
  method WaitForSpecificOrError(probe: nat -> ProbeResult, maxAttempts: int)
    returns (err: Option<Error>, calls: nat, sleeps: nat)
    ensures Polled(probe, maxAttempts, err, calls, sleeps)
  {
    calls, sleeps := 0, 0;
    var i := 0;
    while i < maxAttempts
      invariant 0 <= i <= Budget(maxAttempts)
      invariant calls == i && sleeps == i
      invariant forall j :: 0 <= j < i ==> Pending(probe(j))
    {
      var r := probe(i);
      calls := calls + 1;
      if r.err.Some? {
        return r.err, calls, sleeps;
      }
      if r.stop {
        return None, calls, sleeps;
      }
      sleeps := sleeps + 1;
      i := i + 1;
    }
    err := Some(ExhaustedError(maxAttempts));
  }

  /**
   * A probe that answers `true` at its `k`-th call, after `k - 1` pending
   * answers, within the budget: success after exactly `k` calls and `k - 1`
   * sleeps.
   */
  lemma SucceedsAtKthCall(probe: nat -> ProbeResult, maxAttempts: int, k: nat, err: Option<Error>, calls: nat, sleeps: nat)
    requires Polled(probe, maxAttempts, err, calls, sleeps)
    requires 1 <= k <= maxAttempts
    requires forall i :: 0 <= i < k - 1 ==> Pending(probe(i))
    requires probe(k - 1) == ProbeResult(true, None)
    ensures err == None && calls == k && sleeps == k - 1
  {
  }

  /**
   * A probe error at the `j`-th call, after `j - 1` pending answers, is
   * returned unchanged after exactly `j` calls and `j - 1` sleeps, whatever
   * `stop` said in the same call.
   */
  lemma FailsAtJthCall(probe: nat -> ProbeResult, maxAttempts: int, j: nat, err: Option<Error>, calls: nat, sleeps: nat)
    requires Polled(probe, maxAttempts, err, calls, sleeps)
    requires 1 <= j <= maxAttempts
    requires forall i :: 0 <= i < j - 1 ==> Pending(probe(i))
    requires probe(j - 1).err.Some?
    ensures err == probe(j - 1).err && calls == j && sleeps == j - 1
  {
  }

  /**
   * A probe that never decides within the budget: the exhaustion error after
   * exactly `maxAttempts` calls and as many sleeps; with a budget of zero or
   * less the probe is never called.
   */
  lemma ExhaustsBudget(probe: nat -> ProbeResult, maxAttempts: int, err: Option<Error>, calls: nat, sleeps: nat)
    requires Polled(probe, maxAttempts, err, calls, sleeps)
    requires forall i :: 0 <= i < maxAttempts ==> Pending(probe(i))
    ensures err == Some(ExhaustedError(maxAttempts))
    ensures calls == sleeps == Budget(maxAttempts)
    ensures maxAttempts <= 0 ==> calls == 0
  {
  }

  /**
   * `waitForSpecific(f, maxAttempts, waitInterval)`: a `bool` probe wrapped
   * with a nil error, so the only failure left is exhaustion, and success
   * means some call within the budget answered `true`.
   */
  method WaitForSpecific(f: nat -> bool, maxAttempts: int)
    returns (err: Option<Error>, calls: nat, sleeps: nat)
    ensures err == None || err == Some(ExhaustedError(maxAttempts))
    ensures err == None <==> exists k :: 0 <= k < maxAttempts && f(k)
    ensures calls <= Budget(maxAttempts)
    ensures forall i :: 0 <= i < sleeps ==> !f(i)
    ensures err == None ==> calls >= 1 && f(calls - 1) && sleeps == calls - 1
    ensures err != None ==> calls == sleeps == Budget(maxAttempts)
  {
    var probe := (i: nat) => ProbeResult(f(i), None);
    err, calls, sleeps := WaitForSpecificOrError(probe, maxAttempts);
    forall i | 0 <= i < sleeps
      ensures !f(i)
    {
      assert Pending(probe(i));
    }
    if sleeps == calls {
      forall k | 0 <= k < maxAttempts
        ensures !f(k)
      {
        assert Pending(probe(k));
      }
    } else {
      assert f(calls - 1);
    }
  }
}
