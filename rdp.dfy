/**
 * pkg/drivers/vcd/windows.go: waiting until the guest's remote-desktop port
 * has answered often enough to be trusted (guest tools reboot the machine
 * several times after customisation).
 *
 * `dial(i)` is whether the `i`-th TCP dial (counting from 0) connected.
 * Sleeps are counted, not timed.
 */
module Rdp {
  import opened Errors

  const RdpStableMaxAttempts := 200
  const RdpStableSuccessfulAttemptsRequired := 40

  const ErrRdpFailed: Error := Formatted("failed to connect via RDP")

  /** The address every dial goes to: `fmt.Sprintf("%s:3389", ip)`. */
  function RdpAddress(ip: string): string
  {
    ip + ":3389"
  }

  /** How many of the first `n` dials connected. */
  function Successes(dial: nat -> bool, n: nat): (c: nat)
    ensures c <= n
  {
    if n == 0 then 0 else Successes(dial, n - 1) + (if dial(n - 1) then 1 else 0)
  }

  /** A failed dial takes nothing away: the count only grows. */
  lemma {:induction false} SuccessesMonotone(dial: nat -> bool, m: nat, n: nat)
    requires m <= n
    ensures Successes(dial, m) <= Successes(dial, n)
    decreases n - m
  {
    if m < n {
      SuccessesMonotone(dial, m, n - 1);
    }
  }

  /**
   * `(*VcdDriver).waitForRDPStable(ip)`. The attempt cap is checked before
   * dialing, so at most 199 dials are made. Successes are cumulative: the
   * reset on a failed dial is commented out in the source. The call succeeds
   * exactly when 40 of those 199 dials connect, and then stops at the dial
   * that completes the quota, without sleeping after it; every other dial is
   * followed by one sleep.
   */
  method WaitForRDPStable(ip: string, dial: nat -> bool) returns (err: Option<Error>, dialed: seq<string>, sleeps: nat)
    ensures |dialed| < RdpStableMaxAttempts
    ensures forall k :: 0 <= k < |dialed| ==> dialed[k] == RdpAddress(ip)
    ensures err == None <==> Successes(dial, RdpStableMaxAttempts - 1) >= RdpStableSuccessfulAttemptsRequired
    ensures forall n :: 0 <= n < |dialed| ==> Successes(dial, n) < RdpStableSuccessfulAttemptsRequired
    ensures err == None ==>
      && Successes(dial, |dialed|) == RdpStableSuccessfulAttemptsRequired
      && |dialed| >= RdpStableSuccessfulAttemptsRequired
      && dial(|dialed| - 1)
      && sleeps == |dialed| - 1
    ensures err != None ==>
      && err == Some(ErrRdpFailed)
      && |dialed| == RdpStableMaxAttempts - 1
      && sleeps == |dialed|
  {
    var attempts := 0;
    var successfulAttempts := 0;
    dialed, sleeps := [], 0;
    while true
      invariant 0 <= attempts < RdpStableMaxAttempts
      invariant |dialed| == attempts && sleeps == attempts
      invariant forall k :: 0 <= k < |dialed| ==> dialed[k] == RdpAddress(ip)
      invariant successfulAttempts == Successes(dial, attempts) < RdpStableSuccessfulAttemptsRequired
      invariant forall n :: 0 <= n <= attempts ==> Successes(dial, n) < RdpStableSuccessfulAttemptsRequired
      decreases RdpStableMaxAttempts - attempts
    {
      attempts := attempts + 1;
      if attempts >= RdpStableMaxAttempts {
        return Some(ErrRdpFailed), dialed, sleeps;
      }
      var connected := dial(attempts - 1);
      dialed := dialed + [RdpAddress(ip)];
      if !connected {
        sleeps := sleeps + 1;
        continue;
      }
      successfulAttempts := successfulAttempts + 1;
      if successfulAttempts >= RdpStableSuccessfulAttemptsRequired {
        SuccessesMonotone(dial, attempts, RdpStableMaxAttempts - 1);
        return None, dialed, sleeps;
      }
      sleeps := sleeps + 1;
    }
  }

  /** A listener that answers every other dial, never twice in a row. */
  function Flapping(i: nat): bool
  {
    i % 2 == 0
  }

  lemma {:induction false} FlappingSuccesses(m: nat)
    ensures Successes(Flapping, 2 * m) == m
  {
    if m > 0 {
      FlappingSuccesses(m - 1);
      assert Successes(Flapping, 2 * m) == Successes(Flapping, 2 * m - 1);
    }
  }

  /**
   * Stability is not consecutive reachability: a port that is down on every
   * second dial still passes, after 79 dials.
   */
  lemma FlappingListenerPasses()
    ensures Successes(Flapping, RdpStableMaxAttempts - 1) >= RdpStableSuccessfulAttemptsRequired
    ensures Successes(Flapping, 79) == RdpStableSuccessfulAttemptsRequired
    ensures forall n :: 0 <= n < 79 ==> Successes(Flapping, n) < RdpStableSuccessfulAttemptsRequired
  {
    FlappingSuccesses(40);
    FlappingSuccesses(39);
    assert Successes(Flapping, 79) == Successes(Flapping, 78) + 1;
    SuccessesMonotone(Flapping, 80, RdpStableMaxAttempts - 1);
    forall n | 0 <= n < 79
      ensures Successes(Flapping, n) < RdpStableSuccessfulAttemptsRequired
    {
      SuccessesMonotone(Flapping, n, 78);
    }
  }
}
