/** One-time codes and the clock comparisons the auth controllers make on them
    (controllers/auth.customerController.js, controllers/auth.employeeController.js). */
module Otp {
  import opened Wrappers

  /** Milliseconds since the epoch, as `Date.now()` returns them and as a `Date` compares. */
  type Millis = nat

  /** Bounds of `crypto.randomInt(100000, 1000000)`: the upper bound is exclusive. */
  const CodeMin: nat := 100000
  const CodeMax: nat := 999999

  /** A code stays valid for 15 * 60 * 1000 milliseconds after it is issued. */
  const ValidityMillis: nat := 15 * 60 * 1000

  predicate IsDigit(ch: char) {
    '0' <= ch <= '9'
  }

  predicate AllDigits(s: string) {
    forall i :: 0 <= i < |s| ==> IsDigit(s[i])
  }

  function DigitValue(ch: char): nat
    requires IsDigit(ch)
  {
    ch as int - '0' as int
  }

  function DigitChar(d: nat): (ch: char)
    requires d < 10
    ensures IsDigit(ch) && DigitValue(ch) == d
  {
    ('0' as int + d) as char
  }

  function Pow10(k: nat): (p: nat)
    ensures p >= 1
  {
    if k == 0 then 1 else 10 * Pow10(k - 1)
  }

  /** The number a string of decimal digits denotes, as JavaScript's `Number(s)` reads it. */
  function DecimalValue(s: string): nat
    requires AllDigits(s)
  {
    if s == [] then 0 else DecimalValue(s[..|s| - 1]) * 10 + DigitValue(s[|s| - 1])
  }

  /** `n.toString()` for a non-negative integer: its decimal digits without leading zeros.
      Reading the digits back gives `n`. */
  function DecimalString(n: nat): (s: string)
    ensures |s| >= 1 && AllDigits(s)
    ensures DecimalValue(s) == n
    ensures |s| > 1 ==> s[0] != '0'
    ensures n < Pow10(|s|) && (|s| > 1 ==> Pow10(|s| - 1) <= n)
  {
    if n < 10 then [DigitChar(n)]
    else
      var prefix := DecimalString(n / 10);
      var s := prefix + [DigitChar(n % 10)];
      assert s[..|s| - 1] == prefix;
      s
  }

  /** A stored code as `generateOtp` produces it: six decimal digits, the first not zero. */
  predicate IsSixDigitCode(s: string) {
    |s| == 6 && AllDigits(s) && s[0] != '0'
  }

  /** A string of digits whose first digit is not zero denotes a number with exactly that
      many digits. */
  lemma {:induction false} DecimalValueBounds(s: string)
    requires AllDigits(s) && |s| >= 1 && s[0] != '0'
    ensures Pow10(|s| - 1) <= DecimalValue(s) < Pow10(|s|)
  {
    var t := s[..|s| - 1];
    if |t| == 0 {
      assert s == [s[0]];
    } else {
      assert t[0] == s[0];
      DecimalValueBounds(t);
    }
  }

  /** Every six-digit code reads as a number in [100000, 999999]. */
  lemma SixDigitCodeRange(s: string)
    requires IsSixDigitCode(s)
    ensures CodeMin <= DecimalValue(s) <= CodeMax
  {
    DecimalValueBounds(s);
  }

  lemma {:induction false} Pow10Monotone(i: nat, j: nat)
    requires i <= j
    ensures Pow10(i) <= Pow10(j)
  {
    if i < j {
      Pow10Monotone(i, j - 1);
    }
  }

  /** Every number in [100000, 999999] is written with exactly six digits. */
  lemma SixDigitDraw(n: nat)
    requires CodeMin <= n <= CodeMax
    ensures |DecimalString(n)| == 6
  {
    var k := |DecimalString(n)|;
    assert Pow10(5) == CodeMin && Pow10(6) == CodeMax + 1;
    if k < 6 {
      Pow10Monotone(k, 5);
    } else if k > 6 {
      Pow10Monotone(6, k - 1);
    }
  }

  /** `generateOtp()`: the decimal string of a draw of `crypto.randomInt(100000, 1000000)`.
      The random draw is a parameter. Distinct draws give distinct codes. */
  function GenerateOtp(draw: nat): (code: string)
    requires CodeMin <= draw <= CodeMax
    ensures IsSixDigitCode(code)
    ensures DecimalValue(code) == draw
  {
    SixDigitDraw(draw);
    DecimalString(draw)
  }

  /** Every draw the generator can make gives a different code. */
  lemma GenerateOtpInjective(a: nat, b: nat)
    requires CodeMin <= a <= CodeMax && CodeMin <= b <= CodeMax
    ensures GenerateOtp(a) == GenerateOtp(b) <==> a == b
  {
  }

  /** `otpExpiry` for a code issued at `now`: fifteen minutes later. */
  function ExpiryFrom(now: Millis): Millis {
    now + ValidityMillis
  }

  /** A nullable `Date` in a relational comparison with a number: `null` reads as 0. */
  function AsNumber(t: Option<Millis>): nat {
    if t.Some? then t.value else 0
  }

  /** `otpExpiry > Date.now()`: the cooldown test of the issuing handlers. */
  predicate IsLive(expiry: Option<Millis>, now: Millis) {
    AsNumber(expiry) > now
  }

  /** `otpExpiry < Date.now()`: the expiry test of the consuming handlers. */
  predicate HasExpired(expiry: Option<Millis>, now: Millis) {
    AsNumber(expiry) < now
  }

  /** Negation of `stored !== submitted`: strict equality, and a cleared (null) slot equals
      no submitted string. */
  predicate CodeMatches(stored: Option<string>, submitted: string) {
    stored == Some(submitted)
  }

  /** `Math.ceil((otpExpiry - Date.now()) / 1000)`: the seconds a refusal reports. */
  function RemainingSeconds(expiry: Millis, now: Millis): (secs: nat)
    requires expiry > now
    ensures secs >= 1
    ensures (secs - 1) * 1000 < expiry - now <= secs * 1000
  {
    (expiry - now + 999) / 1000
  }

  /** A code issued at `issuedAt` is live exactly during the fifteen minutes that follow,
      and while it is live a refusal reports between 1 and 900 seconds. */
  lemma IssuedCodeLiveWindow(issuedAt: Millis, now: Millis)
    ensures IsLive(Some(ExpiryFrom(issuedAt)), now) <==> now < issuedAt + ValidityMillis
    ensures issuedAt <= now < issuedAt + ValidityMillis ==>
              1 <= RemainingSeconds(ExpiryFrom(issuedAt), now) <= 900
  {
    if issuedAt <= now < issuedAt + ValidityMillis {
      var secs := RemainingSeconds(ExpiryFrom(issuedAt), now);
      assert (secs - 1) * 1000 < ValidityMillis;
    }
  }

  /** The two tests overlap at the instant of expiry: at `now == otpExpiry` the code is no
      longer live (a new one may be issued) and not yet expired (it is still accepted). */
  lemma ExpiryInstant(expiry: Millis)
    ensures !IsLive(Some(expiry), expiry) && !HasExpired(Some(expiry), expiry)
    ensures HasExpired(Some(expiry), expiry + 1)
    ensures expiry >= 1 ==> IsLive(Some(expiry), expiry - 1)
  {
  }

  /** `existingEmployee.otp > Date.now()`, the employee signup guard: the stored code string is
      read as a number (a non-numeric string reads as NaN, which compares false; null reads
      as 0). */
  predicate CodeExceedsClock(otp: Option<string>, now: Millis) {
    match otp
    case None => 0 > now
    case Some(s) => AllDigits(s) && DecimalValue(s) > now
  }

  /** With any clock later than 999999 ms after the epoch, the employee signup guard never
      holds for a stored six-digit code. */
  lemma CodeNeverExceedsClock(otp: Option<string>, now: Millis)
    requires otp.Some? ==> IsSixDigitCode(otp.value)
    requires now > CodeMax
    ensures !CodeExceedsClock(otp, now)
  {
    if otp.Some? {
      SixDigitCodeRange(otp.value);
    }
  }
}
