/** controllers/auth.customerController.js: the one-time-code lifecycle of a customer account,
    from signup through verification to password reset. Each account has one code slot
    (`otp`, `otpExpiry`) that signup verification and password reset share. */
module CustomerAuthController {
  import opened Wrappers
  import opened Otp
  import opened Records
  import opened Database
  import opened Auth

  /** A successful signup: a fresh code for the unverified account that was there (200), or a
      new account, shown as `toJSON` shows it (201). */
  datatype SignupOutcome = Reissued | Created(id: Id, customer: PublicCustomer)

  /** The customer with a freshly issued code: the draw's six digits, valid for fifteen
      minutes from `now`; nothing else changes. */
  function WithCode(c: Customer, draw: nat, now: Millis): (d: Customer)
    requires CodeMin <= draw <= CodeMax
    ensures d.otp.Some? && IsSixDigitCode(d.otp.value) && d.otpExpiry == Some(now + ValidityMillis)
    ensures SlotCoherent(d.otp, d.otpExpiry)
    ensures d.(otp := c.otp, otpExpiry := c.otpExpiry) == c
  {
    c.(otp := Some(GenerateOtp(draw)), otpExpiry := Some(ExpiryFrom(now)))
  }

  /** The customer after a successful verification: verified, slot cleared. */
  function Verified(c: Customer): (d: Customer)
    ensures d.isVerified && d.otp.None? && d.otpExpiry.None?
    ensures d.(isVerified := c.isVerified, otp := c.otp, otpExpiry := c.otpExpiry) == c
  {
    c.(isVerified := true, otp := None, otpExpiry := None)
  }

  /** The customer after a successful password reset: the new hash, slot cleared; the
      verification flag is kept as it was. */
  function WithPassword(c: Customer, hashedPassword: string): (d: Customer)
    ensures d.password == hashedPassword && d.otp.None? && d.otpExpiry.None?
    ensures d.(password := c.password, otp := c.otp, otpExpiry := c.otpExpiry) == c
  {
    c.(password := hashedPassword, otp := None, otpExpiry := None)
  }

  /** `signupCustomer`. `hashedPassword` is bcrypt's hash of `password`, `draw` the random
      draw of the code, `newId` the ObjectId a new document receives. The lookup returns some
      customer with the email or the phone number (`matched`). Refusals, in order: the two
      passwords differ; the match is verified; the match is unverified but differs in email
      or phone number; the match's code is still live (with the seconds left); the record to
      be saved fails the schema's validation (an empty required path, such as the phone number
      the route only checks to be a string), which the catch answers with 500. Otherwise the
      match gets the new name, password and code (200), or, without a match, a new
      unverified customer is stored with the new code (201). */
  method SignupCustomer(db: Store, name: string, email: string, password: string,
                        confirmPassword: string, phoneNumber: string, hashedPassword: string,
                        draw: nat, now: Millis, newId: Id)
    returns (r: Result<SignupOutcome, AuthError>, ghost matched: Option<Id>)
    requires db.Valid()
    requires CodeMin <= draw <= CodeMax && newId !in db.customers
    modifies db
    ensures db.Valid()
    ensures db.employees == old(db.employees) && db.pumps == old(db.pumps)
    ensures db.transactions == old(db.transactions) && db.fundsTransfers == old(db.fundsTransfers)
    ensures db.topUps == old(db.topUps)
    ensures r.Failure? ==> db.customers == old(db.customers)
    ensures password != confirmPassword ==> r == Failure(PasswordsDiffer)
    ensures password == confirmPassword ==>
              && (matched.Some? ==>
                    matched.value in old(db.customers)
                    && (old(db.customers)[matched.value].email == email
                        || old(db.customers)[matched.value].phoneNumber == phoneNumber))
              && (matched.None? ==> CustomerContactsFree(old(db.customers), email, phoneNumber))
    ensures password == confirmPassword && matched.Some? ==>
              var c := old(db.customers)[matched.value];
              if c.isVerified then r == Failure(AccountExists)
              else if c.email != email || c.phoneNumber != phoneNumber then r == Failure(ContactsTaken)
              else if Cooldown(c.otpExpiry, now).Some? then r == Failure(Cooldown(c.otpExpiry, now).value)
              else
                var c' := WithCode(c.(name := name, password := hashedPassword), draw, now);
                if !CustomerPassesSchema(c') then r == Failure(ServerError)
                else r == Success(Reissued) && db.customers == old(db.customers)[matched.value := c']
    ensures password == confirmPassword && matched.None? ==>
              var c := NewCustomer(name, email, hashedPassword, phoneNumber, GenerateOtp(draw),
                                   ExpiryFrom(now));
              if !CustomerPassesSchema(c) then r == Failure(ServerError)
              else r == Success(Created(newId, CustomerToJson(c))) && db.customers == old(db.customers)[newId := c]
  {
    matched := None;
    if password != confirmPassword {
      return Failure(PasswordsDiffer), matched;
    }
    var found := db.FindCustomerByEmailOrPhone(email, phoneNumber);
    matched := found;
    if found.Some? && db.customers[found.value].isVerified {
      return Failure(AccountExists), matched;
    }
    if found.Some? {
      r := Resubmit(db, found.value, name, email, hashedPassword, phoneNumber, draw, now);
      return r, matched;
    }
    var created := NewCustomer(name, email, hashedPassword, phoneNumber, GenerateOtp(draw),
                               now + 15 * 60 * 1000);
    if !CustomerPassesSchema(created) {
      return Failure(ServerError), matched;
    }
    InsertCustomerKeepsValid(db.customers, newId, created);
    db.customers := db.customers[newId := created];
    r := Success(Created(newId, CustomerToJson(created)));
  }

  /** The branch of `signupCustomer` for an unverified match `id`: refused when the match
      holds only one of the submitted email and phone number, or while its code is live, or
      (500) when the overwritten record fails the schema's validation; otherwise the name, the
      password and a fresh code overwrite it. */
  method Resubmit(db: Store, id: Id, name: string, email: string, hashedPassword: string,
                  phoneNumber: string, draw: nat, now: Millis)
    returns (r: Result<SignupOutcome, AuthError>)
    requires db.Valid() && id in db.customers && !db.customers[id].isVerified
    requires CodeMin <= draw <= CodeMax
    modifies db
    ensures db.Valid()
    ensures db.employees == old(db.employees) && db.pumps == old(db.pumps)
    ensures db.transactions == old(db.transactions) && db.fundsTransfers == old(db.fundsTransfers)
    ensures db.topUps == old(db.topUps)
    ensures r.Failure? ==> db.customers == old(db.customers)
    ensures var c := old(db.customers)[id];
            if c.email != email || c.phoneNumber != phoneNumber then r == Failure(ContactsTaken)
            else if Cooldown(c.otpExpiry, now).Some? then r == Failure(Cooldown(c.otpExpiry, now).value)
            else
              var c' := WithCode(c.(name := name, password := hashedPassword), draw, now);
              if !CustomerPassesSchema(c') then r == Failure(ServerError)
              else r == Success(Reissued) && db.customers == old(db.customers)[id := c']
  {
    var existing := db.customers[id];
    if existing.email != email || existing.phoneNumber != phoneNumber {
      return Failure(ContactsTaken);
    }
    if AsNumber(existing.otpExpiry) > now {
      return Failure(CodeStillLive(RemainingSeconds(existing.otpExpiry.value, now)));
    }
    existing := existing.(name := name, password := hashedPassword, otp := Some(GenerateOtp(draw)),
                          otpExpiry := Some(now + 15 * 60 * 1000));
    if !CustomerPassesSchema(existing) {
      return Failure(ServerError);
    }
    SaveCustomerKeepsValid(db.customers, id, existing);
    db.customers := db.customers[id := existing];
    r := Success(Reissued);
  }

  /** `verifyOtpCustomer`, for the customer named by the request's token. Refusals, in order:
      no such customer (404); already verified; the code does not match; it has expired.
      Otherwise the customer is verified and its slot cleared; the answer shows it. */
  method VerifyOtpCustomer(db: Store, customerId: Id, otp: string, now: Millis)
    returns (r: Result<PublicCustomer, AuthError>)
    requires db.Valid()
    modifies db
    ensures db.Valid()
    ensures db.employees == old(db.employees) && db.pumps == old(db.pumps)
    ensures db.transactions == old(db.transactions) && db.fundsTransfers == old(db.fundsTransfers)
    ensures db.topUps == old(db.topUps)
    ensures r.Failure? ==> db.customers == old(db.customers)
    ensures customerId !in old(db.customers) ==> r == Failure(UnknownAccount(404))
    ensures customerId in old(db.customers) ==>
              var c := old(db.customers)[customerId];
              if c.isVerified then r == Failure(AlreadyVerified)
              else if CheckCode(c.otp, c.otpExpiry, otp, now).Some? then
                r == Failure(CheckCode(c.otp, c.otpExpiry, otp, now).value)
              else
                && r == Success(CustomerToJson(Verified(c)))
                && db.customers == old(db.customers)[customerId := Verified(c)]
  {
    if customerId !in db.customers {
      return Failure(UnknownAccount(404));
    }
    var customer := db.customers[customerId];
    if customer.isVerified {
      return Failure(AlreadyVerified);
    }
    if customer.otp != Some(otp) {
      return Failure(InvalidOtp);
    }
    if AsNumber(customer.otpExpiry) < now {
      return Failure(OtpExpired);
    }
    customer := customer.(isVerified := true, otp := None, otpExpiry := None);
    SaveCustomerKeepsValid(db.customers, customerId, customer);
    db.customers := db.customers[customerId := customer];
    r := Success(CustomerToJson(customer));
  }

  /** `requetsNewOtp`, for the customer named by the request's token. Refusals, in order: no
      such customer (400); already verified; the stored code is still live (with the seconds
      left). Otherwise a fresh code replaces the slot. */
  method RequestNewOtp(db: Store, customerId: Id, draw: nat, now: Millis)
    returns (r: Result<(), AuthError>)
    requires db.Valid() && CodeMin <= draw <= CodeMax
    modifies db
    ensures db.Valid()
    ensures db.employees == old(db.employees) && db.pumps == old(db.pumps)
    ensures db.transactions == old(db.transactions) && db.fundsTransfers == old(db.fundsTransfers)
    ensures db.topUps == old(db.topUps)
    ensures r.Failure? ==> db.customers == old(db.customers)
    ensures customerId !in old(db.customers) ==> r == Failure(UnknownAccount(400))
    ensures customerId in old(db.customers) ==>
              var c := old(db.customers)[customerId];
              if c.isVerified then r == Failure(AlreadyVerified)
              else if Cooldown(c.otpExpiry, now).Some? then r == Failure(Cooldown(c.otpExpiry, now).value)
              else r == Success(()) && db.customers == old(db.customers)[customerId := WithCode(c, draw, now)]
  {
    if customerId !in db.customers {
      return Failure(UnknownAccount(400));
    }
    var customer := db.customers[customerId];
    if customer.isVerified {
      return Failure(AlreadyVerified);
    }
    if AsNumber(customer.otpExpiry) > now {
      return Failure(CodeStillLive(RemainingSeconds(customer.otpExpiry.value, now)));
    }
    customer := customer.(otp := Some(GenerateOtp(draw)), otpExpiry := Some(now + 15 * 60 * 1000));
    SaveCustomerKeepsValid(db.customers, customerId, customer);
    db.customers := db.customers[customerId := customer];
    r := Success(());
  }

  /** `requestPasswordReset`. Refusals, in order: no customer with `email` (400); not
      verified; a code is stored and still live (with the seconds left). Otherwise a fresh
      code replaces the slot. */
  method RequestPasswordReset(db: Store, email: string, draw: nat, now: Millis)
    returns (r: Result<(), AuthError>)
    requires db.Valid() && CodeMin <= draw <= CodeMax
    modifies db
    ensures db.Valid()
    ensures db.employees == old(db.employees) && db.pumps == old(db.pumps)
    ensures db.transactions == old(db.transactions) && db.fundsTransfers == old(db.fundsTransfers)
    ensures db.topUps == old(db.topUps)
    ensures r.Failure? ==> db.customers == old(db.customers)
    ensures match CustomerByEmail(old(db.customers), email)
            case None => r == Failure(UnknownAccount(400))
            case Some(id) =>
              var c := old(db.customers)[id];
              if !c.isVerified then r == Failure(NotVerified)
              else if ResetCooldown(c.otp, c.otpExpiry, now).Some? then
                r == Failure(ResetCooldown(c.otp, c.otpExpiry, now).value)
              else r == Success(()) && db.customers == old(db.customers)[id := WithCode(c, draw, now)]
  {
    var found := db.FindCustomerByEmail(email);
    if found.None? {
      return Failure(UnknownAccount(400));
    }
    var id := found.value;
    var customer := db.customers[id];
    if !customer.isVerified {
      return Failure(NotVerified);
    }
    if Truthy(customer.otp) && AsNumber(customer.otpExpiry) > now {
      return Failure(CodeStillLive(RemainingSeconds(customer.otpExpiry.value, now)));
    }
    customer := customer.(otp := Some(GenerateOtp(draw)), otpExpiry := Some(now + 15 * 60 * 1000));
    SaveCustomerKeepsValid(db.customers, id, customer);
    db.customers := db.customers[id := customer];
    r := Success(());
  }

  /** `resetPassword`. `hashedPassword` is bcrypt's hash of the new password. Refusals, in
      order: no customer with `email` (400); the code does not match; it has expired.
      Otherwise the password hash is replaced and the slot cleared, verified or not. */
  method ResetPassword(db: Store, email: string, hashedPassword: string, otp: string, now: Millis)
    returns (r: Result<(), AuthError>)
    requires db.Valid()
    modifies db
    ensures db.Valid()
    ensures db.employees == old(db.employees) && db.pumps == old(db.pumps)
    ensures db.transactions == old(db.transactions) && db.fundsTransfers == old(db.fundsTransfers)
    ensures db.topUps == old(db.topUps)
    ensures r.Failure? ==> db.customers == old(db.customers)
    ensures match CustomerByEmail(old(db.customers), email)
            case None => r == Failure(UnknownAccount(400))
            case Some(id) =>
              var c := old(db.customers)[id];
              if CheckCode(c.otp, c.otpExpiry, otp, now).Some? then
                r == Failure(CheckCode(c.otp, c.otpExpiry, otp, now).value)
              else
                r == Success(()) && db.customers == old(db.customers)[id := WithPassword(c, hashedPassword)]
  {
    var found := db.FindCustomerByEmail(email);
    if found.None? {
      return Failure(UnknownAccount(400));
    }
    var id := found.value;
    var customer := db.customers[id];
    if customer.otp != Some(otp) {
      return Failure(InvalidOtp);
    }
    if AsNumber(customer.otpExpiry) < now {
      return Failure(OtpExpired);
    }
    customer := customer.(password := hashedPassword, otp := None, otpExpiry := None);
    SaveCustomerKeepsValid(db.customers, id, customer);
    db.customers := db.customers[id := customer];
    r := Success(());
  }

  /** `verifyOtpForgetPassword`: checks a reset code without consuming it. Refusals, in order:
      both fields empty; no customer with `email` (404); the code does not match; it has
      expired. The store is never changed. */
  method VerifyOtpForgetPassword(db: Store, email: string, otp: string, now: Millis)
    returns (r: Result<(), AuthError>)
    requires db.Valid()
    ensures otp == [] && email == [] ==> r == Failure(MissingFields)
    ensures !(otp == [] && email == []) ==>
              match CustomerByEmail(db.customers, email)
              case None => r == Failure(UnknownAccount(404))
              case Some(id) =>
                var c := db.customers[id];
                if CheckCode(c.otp, c.otpExpiry, otp, now).Some? then
                  r == Failure(CheckCode(c.otp, c.otpExpiry, otp, now).value)
                else r == Success(())
  {
    if otp == [] && email == [] {
      return Failure(MissingFields);
    }
    var found := db.FindCustomerByEmail(email);
    if found.None? {
      return Failure(UnknownAccount(404));
    }
    var customer := db.customers[found.value];
    if customer.otp != Some(otp) {
      return Failure(InvalidOtp);
    }
    if AsNumber(customer.otpExpiry) < now {
      return Failure(OtpExpired);
    }
    r := Success(());
  }

  /** Verification is one-shot: once a verification succeeds, a second one with any code at
      any later time is refused as already verified and changes nothing. */
  method VerifyTwice(db: Store, customerId: Id, first: string, second: string, now: Millis, later: Millis)
    returns (r1: Result<PublicCustomer, AuthError>, r2: Result<PublicCustomer, AuthError>)
    requires db.Valid()
    modifies db
    ensures db.Valid()
    ensures r1.Success? ==> r2 == Failure(AlreadyVerified)
    ensures r1.Success? ==> customerId in db.customers && db.customers[customerId].isVerified
    ensures r1.Success? ==>
              && customerId in old(db.customers)
              && db.customers == old(db.customers)[customerId := Verified(old(db.customers)[customerId])]
  {
    r1 := VerifyOtpCustomer(db, customerId, first, now);
    r2 := VerifyOtpCustomer(db, customerId, second, later);
  }
}
