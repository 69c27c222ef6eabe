/** controllers/auth.employeeController.js: the one-time-code lifecycle of an employee account.
    It follows the customer controller with three differences: re-signup of an unverified
    account has no contact check and its cooldown guard compares the code itself with the
    clock; verification has no already-verified check; and an unknown account is answered
    400 by verification. */
module EmployeeAuthController {
  import opened Wrappers
  import opened Otp
  import opened Records
  import opened Database
  import opened Auth

  /** A successful signup: a fresh code for the unverified account that was there (200), or a
      new account (201; the answer carries only a token). */
  datatype SignupOutcome = Reissued | Created(id: Id)

  /** The employee with a freshly issued code; nothing else changes. */
  function WithCode(e: Employee, draw: nat, now: Millis): (d: Employee)
    requires CodeMin <= draw <= CodeMax
    ensures d.otp.Some? && IsSixDigitCode(d.otp.value) && d.otpExpiry == Some(now + ValidityMillis)
    ensures SlotCoherent(d.otp, d.otpExpiry)
    ensures d.(otp := e.otp, otpExpiry := e.otpExpiry) == e
  {
    e.(otp := Some(GenerateOtp(draw)), otpExpiry := Some(ExpiryFrom(now)))
  }

  /** The employee after a successful verification: verified, slot cleared. */
  function Verified(e: Employee): (d: Employee)
    ensures d.isVerified && d.otp.None? && d.otpExpiry.None?
    ensures d.(isVerified := e.isVerified, otp := e.otp, otpExpiry := e.otpExpiry) == e
  {
    e.(isVerified := true, otp := None, otpExpiry := None)
  }

  /** The employee after a successful password reset: the new hash, slot cleared. */
  function WithPassword(e: Employee, hashedPassword: string): (d: Employee)
    ensures d.password == hashedPassword && d.otp.None? && d.otpExpiry.None?
    ensures d.(password := e.password, otp := e.otp, otpExpiry := e.otpExpiry) == e
  {
    e.(password := hashedPassword, otp := None, otpExpiry := None)
  }

  /** The unverified employee overwritten by a re-signup: every submitted detail, including
      the email, the phone number and the type, and a fresh code. */
  function Resubmitted(e: Employee, name: string, email: string, hashedPassword: string,
                       phoneNumber: string, role: EmployeeType, draw: nat, now: Millis): (d: Employee)
    requires CodeMin <= draw <= CodeMax
    ensures d.name == name && d.email == email && d.password == hashedPassword
    ensures d.phoneNumber == phoneNumber && d.role == role
    ensures d.otp == Some(GenerateOtp(draw)) && d.otpExpiry == Some(ExpiryFrom(now))
    ensures d.isVerified == e.isVerified && d.isEmployed == e.isEmployed && d.pumpId == e.pumpId
    ensures d.imageUrl == e.imageUrl && d.pushToken == e.pushToken
  {
    WithCode(e.(name := name, email := email, password := hashedPassword,
                phoneNumber := phoneNumber, role := role), draw, now)
  }

  /** `signupEmployee`. `hashedPassword` is bcrypt's hash of `password`, `draw` the random
      draw of the code, `newId` the ObjectId a new document receives. The lookup returns some
      employee with the email or the phone number (`matched`). Refusals, in order: the two
      passwords differ; the match is verified; the guard `otp > Date.now()` holds, whose
      branch reads an undeclared variable and throws (500); the record to be saved fails the
      schema's validation, as an empty phone number does (500); the overwritten email or phone
      number belongs to another employee, so the unique index refuses the save (500).
      Otherwise the match is overwritten with every submitted detail and a fresh code (200),
      or, without a match, a new unverified employee is stored (201). */
  method SignupEmployee(db: Store, name: string, email: string, password: string,
                        confirmPassword: string, phoneNumber: string, role: EmployeeType,
                        hashedPassword: string, draw: nat, now: Millis, newId: Id)
    returns (r: Result<SignupOutcome, AuthError>, ghost matched: Option<Id>)
    requires db.Valid()
    requires CodeMin <= draw <= CodeMax && FreshEmployeeId(db.employees, db.pumps, newId)
    modifies db
    ensures db.Valid()
    ensures db.customers == old(db.customers) && db.pumps == old(db.pumps)
    ensures db.transactions == old(db.transactions) && db.fundsTransfers == old(db.fundsTransfers)
    ensures db.topUps == old(db.topUps)
    ensures r.Failure? ==> db.employees == old(db.employees)
    ensures password != confirmPassword ==> r == Failure(PasswordsDiffer)
    ensures password == confirmPassword ==>
              && (matched.Some? ==>
                    matched.value in old(db.employees)
                    && (old(db.employees)[matched.value].email == email
                        || old(db.employees)[matched.value].phoneNumber == phoneNumber))
              && (matched.None? ==> EmployeeContactsFree(old(db.employees), None, email, phoneNumber))
    ensures password == confirmPassword && matched.Some? ==>
              var e := old(db.employees)[matched.value];
              if e.isVerified then r == Failure(AccountExists)
              else if CodeExceedsClock(e.otp, now) then r == Failure(ServerError)
              else if !EmployeePassesSchema(Resubmitted(e, name, email, hashedPassword, phoneNumber, role, draw, now)) then
                r == Failure(ServerError)
              else if !EmployeeContactsFree(old(db.employees), matched, email, phoneNumber) then
                r == Failure(ServerError)
              else
                && r == Success(Reissued)
                && db.employees == old(db.employees)[matched.value :=
                     Resubmitted(e, name, email, hashedPassword, phoneNumber, role, draw, now)]
    ensures password == confirmPassword && matched.None? ==>
              var e := NewEmployee(name, email, hashedPassword, phoneNumber, role, GenerateOtp(draw), ExpiryFrom(now));
              if !EmployeePassesSchema(e) then r == Failure(ServerError)
              else r == Success(Created(newId)) && db.employees == old(db.employees)[newId := e]
  {
    matched := None;
    if password != confirmPassword {
      return Failure(PasswordsDiffer), matched;
    }
    var found := db.FindEmployeeByEmailOrPhone(email, phoneNumber);
    matched := found;
    if found.Some? && db.employees[found.value].isVerified {
      return Failure(AccountExists), matched;
    }
    if found.Some? {
      r := Resubmit(db, found.value, name, email, hashedPassword, phoneNumber, role, draw, now);
      return r, matched;
    }
    var created := NewEmployee(name, email, hashedPassword, phoneNumber, role, GenerateOtp(draw),
                               now + 15 * 60 * 1000);
    if !EmployeePassesSchema(created) {
      return Failure(ServerError), matched;
    }
    PutUnverifiedEmployeeKeepsValid(db.employees, db.pumps, newId, created);
    db.employees := db.employees[newId := created];
    r := Success(Created(newId));
  }

  /** The branch of `signupEmployee` for an unverified match `id`: the guard
      `otp > Date.now()` throws (500); otherwise every submitted detail and a fresh code
      overwrite the employee, and the save fails (500) when the result fails the schema's
      validation or another employee holds the new email or phone number. */
  method Resubmit(db: Store, id: Id, name: string, email: string, hashedPassword: string,
                  phoneNumber: string, role: EmployeeType, draw: nat, now: Millis)
    returns (r: Result<SignupOutcome, AuthError>)
    requires db.Valid() && id in db.employees && !db.employees[id].isVerified
    requires CodeMin <= draw <= CodeMax
    modifies db
    ensures db.Valid()
    ensures db.customers == old(db.customers) && db.pumps == old(db.pumps)
    ensures db.transactions == old(db.transactions) && db.fundsTransfers == old(db.fundsTransfers)
    ensures db.topUps == old(db.topUps)
    ensures r.Failure? ==> db.employees == old(db.employees)
    ensures var e := old(db.employees)[id];
            if CodeExceedsClock(e.otp, now) then r == Failure(ServerError)
            else if !EmployeePassesSchema(Resubmitted(e, name, email, hashedPassword, phoneNumber, role, draw, now)) then
              r == Failure(ServerError)
            else if !EmployeeContactsFree(old(db.employees), Some(id), email, phoneNumber) then
              r == Failure(ServerError)
            else
              && r == Success(Reissued)
              && db.employees == old(db.employees)[id :=
                   Resubmitted(e, name, email, hashedPassword, phoneNumber, role, draw, now)]
  {
    var existing := db.employees[id];
    if CodeExceedsClock(existing.otp, now) {
      return Failure(ServerError);
    }
    existing := existing.(name := name, email := email, password := hashedPassword,
                          phoneNumber := phoneNumber, role := role, otp := Some(GenerateOtp(draw)),
                          otpExpiry := Some(now + 15 * 60 * 1000));
    if !EmployeePassesSchema(existing) {
      return Failure(ServerError);
    }
    if exists j :: j in db.employees && j != id
                   && (db.employees[j].email == email || db.employees[j].phoneNumber == phoneNumber) {
      return Failure(ServerError);
    }
    PutUnverifiedEmployeeKeepsValid(db.employees, db.pumps, id, existing);
    db.employees := db.employees[id := existing];
    r := Success(Reissued);
  }

  /** In a valid store, once the clock is past 999999 ms after the epoch, the signup guard
      `otp > Date.now()` holds for no stored employee: a re-signup is never refused for a
      live code. */
  lemma SignupGuardNeverFires(employees: map<Id, Employee>, now: Millis)
    requires EmployeesValid(employees) && now > CodeMax
    ensures forall id :: id in employees ==> !CodeExceedsClock(employees[id].otp, now)
  {
    forall id | id in employees
      ensures !CodeExceedsClock(employees[id].otp, now)
    {
      CodeNeverExceedsClock(employees[id].otp, now);
    }
  }

  /** `verifyOtpEmployee`, for the employee named by the request's token. Refusals, in order:
      no such employee (400); the code does not match; it has expired. There is no
      already-verified check. Otherwise the employee is verified and its slot cleared; the
      answer shows it. */
  method VerifyOtpEmployee(db: Store, employeeId: Id, otp: string, now: Millis)
    returns (r: Result<PublicEmployee, AuthError>)
    requires db.Valid()
    modifies db
    ensures db.Valid()
    ensures db.customers == old(db.customers) && db.pumps == old(db.pumps)
    ensures db.transactions == old(db.transactions) && db.fundsTransfers == old(db.fundsTransfers)
    ensures db.topUps == old(db.topUps)
    ensures r.Failure? ==> db.employees == old(db.employees)
    ensures employeeId !in old(db.employees) ==> r == Failure(UnknownAccount(400))
    ensures employeeId in old(db.employees) ==>
              var e := old(db.employees)[employeeId];
              if CheckCode(e.otp, e.otpExpiry, otp, now).Some? then
                r == Failure(CheckCode(e.otp, e.otpExpiry, otp, now).value)
              else
                && r == Success(EmployeeToJson(Verified(e)))
                && db.employees == old(db.employees)[employeeId := Verified(e)]
  {
    if employeeId !in db.employees {
      return Failure(UnknownAccount(400));
    }
    var employee := db.employees[employeeId];
    if employee.otp != Some(otp) {
      return Failure(InvalidOtp);
    }
    if AsNumber(employee.otpExpiry) < now {
      return Failure(OtpExpired);
    }
    employee := employee.(isVerified := true, otp := None, otpExpiry := None);
    SaveEmployeeKeepsValid(db.employees, db.pumps, employeeId, employee);
    db.employees := db.employees[employeeId := employee];
    r := Success(EmployeeToJson(employee));
  }

  /** `requetsNewOtp`, for the employee named by the request's token. Refusals, in order: no
      such employee (400); already verified; the stored code is still live. Otherwise a
      fresh code replaces the slot. */
  method RequestNewOtp(db: Store, employeeId: Id, draw: nat, now: Millis)
    returns (r: Result<(), AuthError>)
    requires db.Valid() && CodeMin <= draw <= CodeMax
    modifies db
    ensures db.Valid()
    ensures db.customers == old(db.customers) && db.pumps == old(db.pumps)
    ensures db.transactions == old(db.transactions) && db.fundsTransfers == old(db.fundsTransfers)
    ensures db.topUps == old(db.topUps)
    ensures r.Failure? ==> db.employees == old(db.employees)
    ensures employeeId !in old(db.employees) ==> r == Failure(UnknownAccount(400))
    ensures employeeId in old(db.employees) ==>
              var e := old(db.employees)[employeeId];
              if e.isVerified then r == Failure(AlreadyVerified)
              else if Cooldown(e.otpExpiry, now).Some? then r == Failure(Cooldown(e.otpExpiry, now).value)
              else r == Success(()) && db.employees == old(db.employees)[employeeId := WithCode(e, draw, now)]
  {
    if employeeId !in db.employees {
      return Failure(UnknownAccount(400));
    }
    var employee := db.employees[employeeId];
    if employee.isVerified {
      return Failure(AlreadyVerified);
    }
    if AsNumber(employee.otpExpiry) > now {
      return Failure(CodeStillLive(RemainingSeconds(employee.otpExpiry.value, now)));
    }
    employee := employee.(otp := Some(GenerateOtp(draw)), otpExpiry := Some(now + 15 * 60 * 1000));
    SaveEmployeeKeepsValid(db.employees, db.pumps, employeeId, employee);
    db.employees := db.employees[employeeId := employee];
    r := Success(());
  }

  /** `requestPasswordReset`. Refusals, in order: no employee with `email` (400); not
      verified; a code is stored and still live. Otherwise a fresh code replaces the slot. */
  method RequestPasswordReset(db: Store, email: string, draw: nat, now: Millis)
    returns (r: Result<(), AuthError>)
    requires db.Valid() && CodeMin <= draw <= CodeMax
    modifies db
    ensures db.Valid()
    ensures db.customers == old(db.customers) && db.pumps == old(db.pumps)
    ensures db.transactions == old(db.transactions) && db.fundsTransfers == old(db.fundsTransfers)
    ensures db.topUps == old(db.topUps)
    ensures r.Failure? ==> db.employees == old(db.employees)
    ensures match EmployeeByEmail(old(db.employees), email)
            case None => r == Failure(UnknownAccount(400))
            case Some(id) =>
              var e := old(db.employees)[id];
              if !e.isVerified then r == Failure(NotVerified)
              else if ResetCooldown(e.otp, e.otpExpiry, now).Some? then
                r == Failure(ResetCooldown(e.otp, e.otpExpiry, now).value)
              else r == Success(()) && db.employees == old(db.employees)[id := WithCode(e, draw, now)]
  {
    var found := db.FindEmployeeByEmail(email);
    if found.None? {
      return Failure(UnknownAccount(400));
    }
    var id := found.value;
    var employee := db.employees[id];
    if !employee.isVerified {
      return Failure(NotVerified);
    }
    if Truthy(employee.otp) && AsNumber(employee.otpExpiry) > now {
      return Failure(CodeStillLive(RemainingSeconds(employee.otpExpiry.value, now)));
    }
    employee := employee.(otp := Some(GenerateOtp(draw)), otpExpiry := Some(now + 15 * 60 * 1000));
    SaveEmployeeKeepsValid(db.employees, db.pumps, id, employee);
    db.employees := db.employees[id := employee];
    r := Success(());
  }

  /** `resetPassword`. Refusals, in order: no employee with `email` (400); the code does not
      match; it has expired. Otherwise the password hash is replaced and the slot cleared,
      verified or not. */
  method ResetPassword(db: Store, email: string, hashedPassword: string, otp: string, now: Millis)
    returns (r: Result<(), AuthError>)
    requires db.Valid()
    modifies db
    ensures db.Valid()
    ensures db.customers == old(db.customers) && db.pumps == old(db.pumps)
    ensures db.transactions == old(db.transactions) && db.fundsTransfers == old(db.fundsTransfers)
    ensures db.topUps == old(db.topUps)
    ensures r.Failure? ==> db.employees == old(db.employees)
    ensures match EmployeeByEmail(old(db.employees), email)
            case None => r == Failure(UnknownAccount(400))
            case Some(id) =>
              var e := old(db.employees)[id];
              if CheckCode(e.otp, e.otpExpiry, otp, now).Some? then
                r == Failure(CheckCode(e.otp, e.otpExpiry, otp, now).value)
              else
                r == Success(()) && db.employees == old(db.employees)[id := WithPassword(e, hashedPassword)]
  {
    var found := db.FindEmployeeByEmail(email);
    if found.None? {
      return Failure(UnknownAccount(400));
    }
    var id := found.value;
    var employee := db.employees[id];
    if employee.otp != Some(otp) {
      return Failure(InvalidOtp);
    }
    if AsNumber(employee.otpExpiry) < now {
      return Failure(OtpExpired);
    }
    employee := employee.(password := hashedPassword, otp := None, otpExpiry := None);
    SaveEmployeeKeepsValid(db.employees, db.pumps, id, employee);
    db.employees := db.employees[id := employee];
    r := Success(());
  }

  /** `verifyOtpForgetPassword`: checks a reset code without consuming it. Refusals, in order:
      both fields empty; no employee with `email` (404); the code does not match; it has
      expired. The store is never changed. */
  method VerifyOtpForgetPassword(db: Store, email: string, otp: string, now: Millis)
    returns (r: Result<(), AuthError>)
    requires db.Valid()
    ensures otp == [] && email == [] ==> r == Failure(MissingFields)
    ensures !(otp == [] && email == []) ==>
              match EmployeeByEmail(db.employees, email)
              case None => r == Failure(UnknownAccount(404))
              case Some(id) =>
                var e := db.employees[id];
                if CheckCode(e.otp, e.otpExpiry, otp, now).Some? then
                  r == Failure(CheckCode(e.otp, e.otpExpiry, otp, now).value)
                else r == Success(())
  {
    if otp == [] && email == [] {
      return Failure(MissingFields);
    }
    var found := db.FindEmployeeByEmail(email);
    if found.None? {
      return Failure(UnknownAccount(404));
    }
    var employee := db.employees[found.value];
    if employee.otp != Some(otp) {
      return Failure(InvalidOtp);
    }
    if AsNumber(employee.otpExpiry) < now {
      return Failure(OtpExpired);
    }
    r := Success(());
  }

  /** Verification accepts a password-reset code: a verified employee holding a live reset
      code who submits it to `verifyOtpEmployee` succeeds, which clears the slot, and the
      password reset with that same code is then refused as invalid, the password unchanged. */
  method VerifyConsumesResetCode(db: Store, email: string, hashedPassword: string, now: Millis)
    returns (r1: Result<PublicEmployee, AuthError>, r2: Result<(), AuthError>)
    requires db.Valid()
    requires EmployeeByEmail(db.employees, email).Some?
    requires var e := db.employees[EmployeeByEmail(db.employees, email).value];
             e.isVerified && e.otp.Some? && !HasExpired(e.otpExpiry, now)
    modifies db
    ensures db.Valid()
    ensures r1.Success? && r2 == Failure(InvalidOtp)
    ensures var id := EmployeeByEmail(old(db.employees), email).value;
            id in db.employees && db.employees[id].isVerified
            && db.employees[id].password == old(db.employees)[id].password
  {
    var found := db.FindEmployeeByEmail(email);
    var id := found.value;
    var code := db.employees[id].otp.value;
    r1 := VerifyOtpEmployee(db, id, code, now);
    assert db.employees[id].email == email;
    EmployeeContactIdentifies(db.employees, id, EmployeeByEmail(db.employees, email).value);
    r2 := ResetPassword(db, email, hashedPassword, code, now);
  }
}
