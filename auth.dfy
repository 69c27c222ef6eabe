/** What the customer and employee auth controllers share: their refusals, the two tests a
    submitted code must pass and the cooldown that refuses a reissue
    (controllers/auth.customerController.js, controllers/auth.employeeController.js). */
module Auth {
  import opened Wrappers
  import opened Otp

  /** Why an auth handler refuses. An unknown account is answered 404 by some handlers and
      400 by others, so it carries its status. */
  datatype AuthError =
    | PasswordsDiffer
    | AccountExists
    | ContactsTaken
    | CodeStillLive(seconds: nat)
    | UnknownAccount(status: nat)
    | AlreadyVerified
    | NotVerified
    | InvalidOtp
    | OtpExpired
    | MissingFields
    | ServerError
  {
    function Status(): nat {
      match this
      case UnknownAccount(s) => s
      case ServerError => 500
      case _ => 400
    }
  }

  /** The tests of every handler that consumes a code, in order: the stored code is the
      submitted one (`otp !== submitted` refuses), then it has not expired
      (`otpExpiry < Date.now()` refuses). */
  function CheckCode(otp: Option<string>, otpExpiry: Option<Millis>, submitted: string, now: Millis)
    : (e: Option<AuthError>)
    ensures e.None? <==> CodeMatches(otp, submitted) && !HasExpired(otpExpiry, now)
    ensures !CodeMatches(otp, submitted) ==> e == Some(InvalidOtp)
    ensures CodeMatches(otp, submitted) && HasExpired(otpExpiry, now) ==> e == Some(OtpExpired)
  {
    if !CodeMatches(otp, submitted) then Some(InvalidOtp)
    else if HasExpired(otpExpiry, now) then Some(OtpExpired)
    else None
  }

  /** The cooldown of the issuing handlers: while the stored expiry is later than `now`, refuse
      and report the seconds left, rounded up. */
  function Cooldown(otpExpiry: Option<Millis>, now: Millis): (e: Option<AuthError>)
    ensures e.Some? <==> IsLive(otpExpiry, now)
    ensures e.Some? ==>
              && otpExpiry.Some? && e.value.CodeStillLive?
              && (e.value.seconds - 1) * 1000 < otpExpiry.value - now <= e.value.seconds * 1000
  {
    if IsLive(otpExpiry, now) then Some(CodeStillLive(RemainingSeconds(otpExpiry.value, now)))
    else None
  }

  /** JavaScript truthiness of a stored code: present and not empty. */
  predicate Truthy(otp: Option<string>) {
    otp.Some? && otp.value != []
  }

  /** The password-reset request's cooldown, `otp && otpExpiry > Date.now()`: it holds only
      while a code is stored. */
  function ResetCooldown(otp: Option<string>, otpExpiry: Option<Millis>, now: Millis): (e: Option<AuthError>)
    ensures e.Some? <==> Truthy(otp) && IsLive(otpExpiry, now)
    ensures e.Some? ==> e == Cooldown(otpExpiry, now)
  {
    if Truthy(otp) then Cooldown(otpExpiry, now) else None
  }

  /** A code issued at `issuedAt` blocks a reissue until its expiry instant and is accepted up
      to and including that instant: at `issuedAt + 900000` both a reissue and a use of the
      code succeed. Any other code is refused at any time. */
  lemma {:induction false} IssuedCodeWindow(draw: nat, issuedAt: Millis, now: Millis, submitted: string)
    requires CodeMin <= draw <= CodeMax
    ensures var otp, otpExpiry := Some(GenerateOtp(draw)), Some(ExpiryFrom(issuedAt));
            && (Cooldown(otpExpiry, now).Some? <==> now < issuedAt + ValidityMillis)
            && (CheckCode(otp, otpExpiry, submitted, now).None? <==>
                  submitted == GenerateOtp(draw) && now <= issuedAt + ValidityMillis)
            && (now == issuedAt + ValidityMillis ==>
                  Cooldown(otpExpiry, now).None? && CheckCode(otp, otpExpiry, GenerateOtp(draw), now).None?)
  {
    IssuedCodeLiveWindow(issuedAt, now);
    ExpiryInstant(ExpiryFrom(issuedAt));
  }

  /** A cleared slot refuses every submitted code as invalid, whatever the clock. */
  lemma ClearedSlotRefuses(submitted: string, now: Millis)
    ensures CheckCode(None, None, submitted, now) == Some(InvalidOtp)
  {
  }

  /** With a coherent slot the reset cooldown is the plain cooldown: a stored expiry always
      comes with a stored six-digit code. */
  lemma ResetCooldownOnCoherentSlot(otp: Option<string>, otpExpiry: Option<Millis>, now: Millis)
    requires otp.Some? == otpExpiry.Some? && (otp.Some? ==> IsSixDigitCode(otp.value))
    ensures ResetCooldown(otp, otpExpiry, now) == Cooldown(otpExpiry, now)
  {
  }
}
