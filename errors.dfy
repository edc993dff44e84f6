/**
 * Go's `error` values as the drivers produce and pass them on, together with
 * the two bits of text handling the drivers rely on: `%d` formatting of an
 * integer and `strings.Contains`.
 *
 * A Go result `(T, error)` is a `Result<T>`; a bare `error` is an
 * `Option<Error>`, with `None` standing for `nil`.
 */
module Errors {

  datatype Option<+T> = None | Some(value: T)

  datatype Result<+T> = Ok(value: T) | Err(error: Error) {
    predicate IsFailure() { Err? }
    function PropagateFailure<U>(): Result<U> requires Err? { Err(error) }
    function Extract(): T requires Ok? { value }
  }

  /**
   * Where an error comes from decides how callers may tell it apart:
   * sentinels are package-level constants compared by identity, formatted
   * errors only carry their text, foreign errors are whatever the cloud SDK,
   * the network or the SSH library returned. `Panic` marks a nil pointer
   * dereference in the driver: Go aborts the process there instead of
   * returning, and the model records it as a terminal outcome.
   */
  datatype Error =
    | Foreign(text: string)
    | Sentinel(text: string)
    | Formatted(text: string)
    | Panic(text: string)

  /** `err.Error()` */
  function Message(e: Error): string { e.text }

  // ---------------------------------------------------------------------
  // `%d`

  function DigitChar(d: nat): (c: char)
    requires d < 10
    ensures '0' <= c <= '9' && (c as int) - ('0' as int) == d
  {
    ['0', '1', '2', '3', '4', '5', '6', '7', '8', '9'][d]
  }

  /** The decimal digits of `n`, most significant first, without leading zeros. */
  function Digits(n: nat): (s: string)
    ensures |s| >= 1
    ensures forall i :: 0 <= i < |s| ==> '0' <= s[i] <= '9'
    ensures n >= 10 ==> s[0] != '0'
    decreases n
  {
    if n < 10 then [DigitChar(n)] else Digits(n / 10) + [DigitChar(n % 10)]
  }

  /** `fmt.Sprintf("%d", n)` */
  function Decimal(n: int): (s: string)
    ensures |s| >= 1
    ensures n < 0 <==> s[0] == '-'
  {
    if n < 0 then "-" + Digits(-n) else Digits(n)
  }

  /** The number a string of decimal digits denotes. */
  function ValueOf(s: string): int
    decreases |s|
  {
    if s == [] then 0 else 10 * ValueOf(s[..|s| - 1]) + ((s[|s| - 1] as int) - ('0' as int))
  }

  /** Formatting loses nothing: the digits read back as the number they were made from. */
  lemma {:induction false} DigitsRoundTrip(n: nat)
    ensures ValueOf(Digits(n)) == n
    decreases n
  {
    if n >= 10 {
      var s := Digits(n);
      assert s[..|s| - 1] == Digits(n / 10);
      DigitsRoundTrip(n / 10);
    }
  }

  /** Two different counts never print the same. */
  lemma {:induction false} DecimalInjective(m: int, n: int)
    requires Decimal(m) == Decimal(n)
    ensures m == n
  {
    if m < 0 {
      assert n < 0;
      assert Digits(-m) == Decimal(m)[1..] && Digits(-n) == Decimal(n)[1..];
      DigitsInjective(-m, -n);
    } else {
      assert n >= 0;
      DigitsInjective(m, n);
    }
  }

  lemma {:induction false} DigitsInjective(m: nat, n: nat)
    requires Digits(m) == Digits(n)
    ensures m == n
  {
    DigitsRoundTrip(m);
    DigitsRoundTrip(n);
  }

  // ---------------------------------------------------------------------
  // `strings.Contains`

  predicate OccursAt(s: string, sub: string, k: int)
  {
    0 <= k && k + |sub| <= |s| && s[k..k + |sub|] == sub
  }

  /** `strings.Contains(s, sub)`: case-sensitive, and true for an empty `sub`. */
  function Contains(s: string, sub: string): (b: bool)
    ensures b <==> exists k :: OccursAt(s, sub, k)
    decreases |s|
  {
    if |sub| > |s| then
      assert forall k :: !OccursAt(s, sub, k);
      false
    else if s[..|sub|] == sub then
      assert OccursAt(s, sub, 0);
      true
    else
      var rest := Contains(s[1..], sub);
      assert !OccursAt(s, sub, 0);
      assert forall k :: OccursAt(s[1..], sub, k) ==> OccursAt(s, sub, k + 1) by {
        forall k | OccursAt(s[1..], sub, k) ensures OccursAt(s, sub, k + 1) { OccursShifted(s, sub, k + 1); }
      }
      assert forall k :: OccursAt(s, sub, k) ==> OccursAt(s[1..], sub, k - 1) by {
        forall k | OccursAt(s, sub, k) ensures OccursAt(s[1..], sub, k - 1) { OccursShifted(s, sub, k); }
      }
      rest
  }

  lemma OccursShifted(s: string, sub: string, k: int)
    requires 1 <= k && |s| >= 1
    ensures OccursAt(s, sub, k) <==> OccursAt(s[1..], sub, k - 1)
  {
    if k + |sub| <= |s| {
      assert s[1..][k - 1..k - 1 + |sub|] == s[k..k + |sub|];
    }
  }

  /** A piece spliced into a message can be found in it again. */
  lemma ContainsSpliced(prefix: string, piece: string, suffix: string)
    ensures Contains(prefix + piece + suffix, piece)
  {
    var s := prefix + piece + suffix;
    assert s[|prefix|..|prefix| + |piece|] == piece;
    assert OccursAt(s, piece, |prefix|);
  }
}
