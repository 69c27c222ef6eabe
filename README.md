# pakfuel-backend: a Dafny model of the ledger, the one-time codes and pump staffing

pakfuel-backend is an Express/Mongoose server for a fuel-station chain. Customers hold an app
balance and reward points, top the balance up and transfer either one to each other. A refueler
records each sale at the pump; a sale paid through the app moves money from the customer's
balance to the pump's balance. Admins appoint a manager to each pump. A manager, or an admin,
adds refuelers. Customer and employee accounts are verified with six-digit one-time codes
that expire after fifteen minutes. The same codes authorise a password reset.

The model keeps the MongoDB collections in one `Store` object (module `Database`). It holds
maps from ids to customer, employee and pump records and append-only logs of transactions,
funds transfers and top-ups. A handler loads records, changes its local copies and saves
them. Here each save reassigns one map entry, in the order the handler issues the saves.
`Store.Valid()` is the invariant every handler keeps:

- the unique indexes on email and phone number;
- a coherent code slot: code and expiry are set and cleared together;
- the staffing relation between `pump.employees`, `pump.manager`, `employee.isEmployed` and
  `employee.pumpId`.

Each controller is a module of methods on the `Store`. Each method's `ensures` gives every
refusal in the order the handler checks it, with its HTTP status, and the new state on success.
Pure decisions are functions with lemmas about them:

- the code generator, the expiry and cooldown tests, and the seconds a refusal reports;
- the debit and credit of a transfer;
- `indexOf`/`splice`;
- the `toJSON` projections.

Modules:

- `Wrappers`: `Option` and `Result`.
- `Otp`: the code generator, the expiry and cooldown tests, the seconds a refusal reports, and
  the employee signup guard.
- `Records`: the schemas and the `toJSON` views.
- `Database`: the store and its invariant, the `findOne` lookups, and what the route guards
  admit.
- `Ledger`: sums of balances and points.
- `History`: newest-first filtering of a log.
- `FundsTransferController`, `TransactionController`, `TopUpController`,
  `LoyaltyController` and `PumpController`: one per controller.
- `Auth`: what the two auth controllers share.
- `CustomerAuthController` and `EmployeeAuthController`: the code lifecycle of each kind of
  account.

Inputs the server draws from its environment are parameters of the handlers:

- the clock (`now`, milliseconds since the epoch);
- the random draw behind `crypto.randomInt`;
- the bcrypt hash of a submitted password;
- the ObjectId a new document receives.

Where a handler dereferences the token's user without checking it, the method requires what
the route guard establishes: the user exists and is verified.

Where the handlers and their documented intent differ, the model follows the code:

- `setLoyaltyThreshold` assigns `pump.loyaltyThreshold`, but the pump schema has no such
  path. Mongoose's strict mode drops the assignment and the save stores nothing new, so the
  model's `SetLoyaltyThreshold` changes no state; its guards are modelled as written. Neither
  loyalty handler is reachable over HTTP, because server.js does not mount their routes.
- `transferFunds` saves the sender and then the receiver from two separately loaded copies.
  When the saves land in the order issued, a transfer to oneself ends with the receiver's
  copy and creates `amount` (`SelfTransferMints`). The saves are not awaited, so if the
  sender's copy landed last, `amount` would be destroyed instead.
- A save runs the schema's validation first. Mongoose's `required` refuses an empty string,
  and the signup routes check the phone number only to be a string. An empty phone number
  therefore makes the signup save fail, and the catch answers 500 with nothing stored. The
  same holds for a top-up with an empty `topUpThrough`: no record is stored, while the
  customer's balance is still raised and the answer is 200.
- The employee signup guard compares the stored code string, not its expiry, with the
  clock. For any clock past 999999 ms it never fires. Its branch would read an undeclared
  variable and answer 500.
- An employee re-signup overwrites email and phone number without checking them against
  other employees. A clash violates the unique index, so the save throws and the answer is 500.

## Model

| member | source | states |
|---|---|---|
| Records.CustomerToJson | models/customer.model.js:61-68 | the public view drops exactly password, otp and otpExpiry: with those three paths it gives back the whole record |
| Records.EmployeeToJson | models/employee.model.js:56-63 | the same for employees: the view plus the three deleted paths gives back the record |
| Records.CustomerToJsonExact | models/customer.model.js:62-67 | two customers have the same view if and only if they differ at most in password, otp and otpExpiry |
| Records.EmployeeToJsonExact | models/employee.model.js:57-62 | two employees have the same view if and only if they differ at most in password, otp and otpExpiry |
| Otp.GenerateOtp | controllers/auth.customerController.js:9-12 | a code is six decimal digits with no leading zero, and reads back as the draw from [100000, 999999] |
| Otp.GenerateOtpInjective | controllers/auth.employeeController.js:9-12 | two draws give the same code if and only if they are equal |
| Otp.SixDigitCodeRange | controllers/auth.customerController.js:9-12 | every six-digit code reads as a number in [100000, 999999] |
| Otp.RemainingSeconds | controllers/auth.customerController.js:67-73 | the reported seconds are the remaining milliseconds divided by 1000 and rounded up, at least 1 |
| Otp.IssuedCodeLiveWindow | controllers/auth.customerController.js:257-268 | a code issued at t is live exactly while now < t + 900000, and during that time a refusal reports 1 to 900 seconds |
| Otp.ExpiryInstant | controllers/auth.customerController.js:204-212 | at the expiry instant the code is neither live nor expired; one millisecond later it has expired |
| Otp.CodeNeverExceedsClock | controllers/auth.employeeController.js:56-59 | for a stored six-digit code or an empty slot, the guard `otp > Date.now()` is false once the clock is past 999999 ms |
| Auth.CheckCode | controllers/auth.customerController.js:204-212 | a submitted code is accepted if and only if it equals the stored code and the expiry is not before now; a mismatch is reported before expiry |
| Auth.Cooldown | controllers/auth.customerController.js:257-264 | a reissue is refused if and only if the stored expiry is later than now; the refusal reports the remaining seconds rounded up |
| Auth.ResetCooldown | controllers/auth.customerController.js:326-333 | a reset request is refused if and only if a non-empty code is stored and its expiry is later than now; it then reports what the cooldown reports |
| Auth.IssuedCodeWindow | controllers/auth.customerController.js:257-271 | for a freshly issued code: a reissue is refused if and only if now < issue + 900000; the code is accepted if and only if it is the one issued and now <= issue + 900000; at the expiry instant both a reissue and the code succeed |
| Auth.ClearedSlotRefuses | controllers/auth.customerController.js:214-217 | once a code has been cleared, every submitted code is refused as invalid |
| Auth.ResetCooldownOnCoherentSlot | controllers/auth.customerController.js:326 | when code and expiry are stored together, the reset cooldown equals the plain cooldown |
| CustomerAuthController.SignupCustomer | controllers/auth.customerController.js:31-104 | refusals in order: different passwords; the match is verified; the unverified match differs in email or phone; its code is live; the record to be saved fails the schema's validation, for example an empty phone number (500). Otherwise the match gets the new name, password hash and a fresh code, or with no match a new unverified customer is stored under free contacts. The invariant is kept |
| CustomerAuthController.Resubmit | controllers/auth.customerController.js:55-92 | for an unverified match: refused when it holds only one of the submitted email and phone number, then while its code is live (seconds left rounded up), then 500 when the overwritten record fails the schema's validation; otherwise it keeps its contacts and gets the new name, password hash and a fresh 15-minute code; the invariant is kept |
| CustomerAuthController.VerifyOtpCustomer | controllers/auth.customerController.js:196-217 | 404 for no customer, then already verified, then invalid and expired code; on success the customer is verified, the slot is cleared and the answer is its public view |
| CustomerAuthController.RequestNewOtp | controllers/auth.customerController.js:248-271 | 400 for no customer, then already verified, then the cooldown; on success only the code slot changes, to a fresh code expiring at now + 900000 |
| CustomerAuthController.RequestPasswordReset | controllers/auth.customerController.js:310-340 | 400 for no customer with the email, then not verified, then the reset cooldown; on success only the code slot changes |
| CustomerAuthController.ResetPassword | controllers/auth.customerController.js:377-400 | 400 for no customer with the email, then invalid and expired code; on success the password hash is replaced and the slot cleared, nothing else changes |
| CustomerAuthController.VerifyOtpForgetPassword | controllers/auth.customerController.js:421-439 | both fields empty is refused, then 404 for no customer, then invalid and expired code; the store is never changed |
| CustomerAuthController.VerifyTwice | controllers/auth.customerController.js:200-202 | after a successful verification, a second one with any code is refused as already verified, and the stored customers then differ from those before the first call only in that customer being verified with a cleared code |
| EmployeeAuthController.Resubmitted | controllers/auth.employeeController.js:66-73 | a re-signup overwrites name, email, password hash, phone number and type and issues a fresh code; verification and employment are kept |
| EmployeeAuthController.SignupEmployee | controllers/auth.employeeController.js:32-97 | refusals in order: different passwords; the match is verified; the guard `otp > Date.now()` holds (500); the record to be saved fails the schema's validation, for example an empty phone number (500); the new contacts belong to another employee (500). Otherwise the match is overwritten, or with no match a new unverified employee is stored; the invariant is kept |
| EmployeeAuthController.Resubmit | controllers/auth.employeeController.js:56-84 | for an unverified match: 500 when the guard `otp > Date.now()` holds, 500 when the overwritten record fails the schema's validation, 500 when another employee holds the new email or phone number; otherwise every submitted detail and a fresh code overwrite it; the invariant is kept |
| EmployeeAuthController.SignupGuardNeverFires | controllers/auth.employeeController.js:56-59 | in a valid store, with the clock past 999999 ms, the signup guard holds for no stored employee |
| EmployeeAuthController.VerifyOtpEmployee | controllers/auth.employeeController.js:184-211 | 400 for no employee, then invalid and expired code, with no already-verified check; on success verified, slot cleared, the answer is its public view |
| EmployeeAuthController.RequestNewOtp | controllers/auth.employeeController.js:233-257 | 400 for no employee, then already verified, then the cooldown; on success only the code slot changes |
| EmployeeAuthController.RequestPasswordReset | controllers/auth.employeeController.js:284-315 | 400 for no employee with the email, then not verified, then the reset cooldown; on success only the code slot changes |
| EmployeeAuthController.ResetPassword | controllers/auth.employeeController.js:344-366 | 400 for no employee with the email, then invalid and expired code; on success password replaced and slot cleared |
| EmployeeAuthController.VerifyOtpForgetPassword | controllers/auth.employeeController.js:387-405 | both fields empty is refused, then 404 for no employee, then invalid and expired code; the store is never changed |
| EmployeeAuthController.VerifyConsumesResetCode | controllers/auth.employeeController.js:190-201 | a verified employee who submits a live reset code to account verification succeeds, and the password reset with that same code is then refused as invalid, the password unchanged |
| FundsTransferController.Debit | controllers/fundsTransfer.controller.js:76-86 | the sender's copy loses `amount` of the transferred entity; the other entity and every other field are unchanged |
| FundsTransferController.Credit | controllers/fundsTransfer.controller.js:76-86 | the receiver's copy gains `amount` of the transferred entity; everything else is unchanged |
| FundsTransferController.TransferFunds | controllers/fundsTransfer.controller.js:54-97 | 404 for no receiver, then 400 when the sender holds less than `amount` of the entity, with no change; otherwise the transfer always succeeds: the sender is debited, then the receiver credited, and one transfer record is appended |
| FundsTransferController.TransferConservesTotals | controllers/fundsTransfer.controller.js:76-86 | between two different customers a transfer keeps the customers' total of the transferred entity and of the other entity |
| FundsTransferController.TransferMovesAmount | controllers/fundsTransfer.controller.js:76-86 | between two different customers the sender holds `amount` less and the receiver `amount` more, every other customer unchanged |
| FundsTransferController.SelfTransferMints | controllers/fundsTransfer.controller.js:54-97 | a transfer to oneself leaves the customer holding `amount` more, and the total grows by `amount` |
| FundsTransferController.TransferKeepsHoldingsNonNegative | controllers/fundsTransfer.controller.js:66-86 | a transfer the sufficiency checks let through, of a non-negative amount, keeps both holdings non-negative |
| FundsTransferController.NegativeAmountDebitsReceiver | controllers/fundsTransfer.controller.js:66-86 | a negative amount passes the sufficiency check and takes from the receiver |
| FundsTransferController.FindReceiver | controllers/fundsTransfer.controller.js:205-223 | 404 for no customer with the phone number, 401 if unverified, 400 if it is the caller; success if and only if a verified customer other than the caller has that number, answered with its public view |
| History.NewestFirst | controllers/topUp.controller.js:59-61 | the result holds only entries of the log that satisfy the filter, and every such entry |
| History.NewestFirstAppend | controllers/topUp.controller.js:59-61 | a newly appended entry that satisfies the filter comes first, ahead of the earlier result |
| History.NewestFirstCounts | controllers/topUp.controller.js:59-61 | every entry that satisfies the filter appears in the result as many times as in the log, and no other entry appears: identical records are neither merged nor dropped |
| History.NewestFirstEmpty | controllers/topUp.controller.js:63-68 | the result is empty if and only if no entry of the log satisfies the filter |
| TransactionController.CreateTransaction | controllers/transaction.controller.js:53-123 | 404 for no customer, 403 for an app payment above the balance, 404 for no employee, 404 for no pump at the employee's pumpId; otherwise the sale is appended with that pump, and an app payment charges the customer and credits the pump |
| TransactionController.AppPaymentConserves | controllers/transaction.controller.js:77-82 | an app payment keeps customers' balances plus pumps' balances constant and customers' points unchanged |
| TransactionController.AppPaymentKeepsBalanceNonNegative | controllers/transaction.controller.js:59-63 | a payment the balance check lets through leaves a non-negative balance non-negative, zero when paying it all |
| TransactionController.SalesBy | controllers/transaction.controller.js:184-189 | exactly the logged sales of the employee |
| TransactionController.GetEmployeeTransactionHistory | controllers/transaction.controller.js:167-200 | 403 for a caller who is not a manager, 404 for no employee, 404 if and only if that employee has no sale; otherwise all the employee's sales, newest first |
| TopUpController.TopUpAccount | controllers/topUp.controller.js:21-38 | 404 if and only if no such customer, with no change; otherwise only the customer's balance changes, by `amount`, and one top-up record is appended exactly when it passes the schema's validation (a non-empty `topUpThrough`) |
| TopUpController.TopUpRaisesTotal | controllers/topUp.controller.js:35 | a top-up raises the customers' balance total by exactly `amount`, keeps the points total and keeps a non-negative balance non-negative |
| TopUpController.TopUpsOf | controllers/topUp.controller.js:59-61 | exactly the logged top-ups of the customer |
| TopUpController.GetTopUpHistory | controllers/topUp.controller.js:59-75 | 404 if and only if the customer has no top-up; otherwise all its top-ups, newest first, with no customer lookup |
| LoyaltyController.SetLoyaltyThreshold | controllers/loyalty.controller.js:15-29 | 404 for no pump, 500 for a pump without a manager, 403 for a caller who is not its manager; success if and only if the caller is the pump's manager, answered with the stored pump |
| LoyaltyController.GetCustomerLoyaltyPoints | controllers/loyalty.controller.js:41-48 | 404 if and only if no such customer; otherwise its loyalty entries unchanged |
| PumpController.IndexOf | controllers/pump.controller.js:239-240 | -1 if and only if the id is not listed; otherwise the first position holding it |
| PumpController.Splice | controllers/pump.controller.js:246 | the list one shorter, without the element at the index, the rest in order |
| PumpController.RemoveFirstOccurrence | controllers/pump.controller.js:239-246 | removing at the found index takes out exactly one occurrence; in a list without duplicates none is left |
| PumpController.PushOnce | controllers/pump.controller.js:156 | pushing an id not yet listed adds it exactly once and keeps the list without duplicates |
| PumpController.ReleaseKeepsValid | controllers/pump.controller.js:64-69 | letting the previous manager go keeps the invariant, and no employed manager is then at that pump |
| PumpController.AppointKeepsValid | controllers/pump.controller.js:93-98 | appointing a verified, unemployed manager to a pump with no employed manager keeps the invariant |
| PumpController.AddRefuelerKeepsValid | controllers/pump.controller.js:156-160 | taking on a verified, unemployed refueler keeps the invariant |
| PumpController.RemoveRefuelerKeepsValid | controllers/pump.controller.js:239-250 | taking a listed refueler off its pump and letting it go keeps the invariant |
| PumpController.AddManagerToPump | controllers/pump.controller.js:59-102 | 404 for no pump; the previous manager is let go before any further check; then 404, 401, 403, 403 for no, unverified, employed or refueler candidate, keeping the release; otherwise the candidate is the pump's employed manager |
| PumpController.AddEmployeeToPump | controllers/pump.controller.js:127-162 | 404 for no pump or no employee, 401 unverified, 403 employed, 403 manager; otherwise the refueler is listed once more and employed at the pump |
| PumpController.RemoveEmployeeFromPump | controllers/pump.controller.js:226-252 | 404 for no pump, no employee, or an employee the pump does not list; otherwise its first occurrence is removed and it is let go |
| PumpController.AddEmployeeToPumpByManager | controllers/pump.controller.js:278-344 | refusals in the handler's order (caller not employed, a refueler, own email, no employee, unverified, a manager, employed, no pump); otherwise the refueler joins the caller's pump |
| Database.Store.FindCustomerByEmailOrPhone | controllers/auth.customerController.js:35-38 | some customer with the email or the phone number, or none when no customer has either |
| Database.Store.FindEmployeeByEmailOrPhone | controllers/auth.employeeController.js:36-38 | some employee with the email or the phone number, or none when no employee has either |
| Database.CustomerContactIdentifies | models/customer.model.js:9-23 | with the unique indexes on email and phone number, two stored customers sharing either are the same customer |
| Database.EmployeeContactIdentifies | models/employee.model.js:9-22 | two stored employees sharing an email or a phone number are the same employee |

## Left out

- HTTP, JWT issue and verification, express-validator rules and cookies are left out. Requests arrive as typed parameters. On routes that declare express-validator rules, these parameters stand for requests that passed them; the routes without rules are named in the lines below. A route guard's effect is a precondition where the handler relies on it.
- Sending email and Expo push notifications is left out, as is `console` logging. They change no stored state.
- FundsTransferController.TransferFunds: its `Success` stands for the ledger effect only. The handler uses `Expo` without importing it, so every transfer that passes both checks throws in the notification step and is answered 500 by the catch. By then the unawaited `Promise.all` has already issued the two customer saves and the transfer record. The model does not capture that HTTP answer.
- bcrypt, `crypto.randomInt`, `Date.now()` and ObjectId creation are not modelled: their results are parameters.
- JavaScript numbers are unbounded integers here. Floating point, and coercion of a string `amount`, are not modelled (`Number(amount)` against `+=` on points).
- Saves run one after another. Unawaited `Promise.all` saves, concurrent requests and a failing save after an earlier one succeeded are not modelled.
- Login, logout, the profile handlers, `getFundsTransferHistory`, the customer and refueler transaction histories, `addPump`, `getPumpList`, `getEmployeeListByPump` and `getPumpLocations` are outside the modelled core.
- Records: `_id`, `createdAt` and `__v` are not stored in the records and do not appear in the public views. Ids are the keys of the store's maps, and the order of creation is the order of the logs.
- Loyalty points are never accrued by the modelled handlers; only their read-back is modelled.
- LoyaltyController: server.js never mounts routes/loyalty.routes.js, so no HTTP request reaches `setLoyaltyThreshold` or `getCustomerLoyaltyPoints`. The two handlers are modelled as written, as functions of the store.
- LoyaltyController.SetLoyaltyThreshold: returns the pump as stored and changes nothing, because the pump schema has no `loyaltyThreshold` path and the save drops the assignment.
- CustomerAuthController.VerifyOtpForgetPassword: models the submitted email and code as strings, so a field absent from the body (undefined) is not modelled; an empty string stands for a missing one.
- EmployeeAuthController.VerifyOtpForgetPassword: the same restriction to string fields.
- CustomerAuthController.ResetPassword: models the submitted code as a string. The route does not validate `otp`, so a JSON `null` against a cleared slot passes the `!==` test and is refused as expired, because `null < Date.now()` holds. The model refuses every string against a cleared slot as invalid.
- EmployeeAuthController.ResetPassword: the same restriction to a string code, with the same unmodelled `null` case. The route also declares no validation. When `email` is missing from the body, `findOne({ email: undefined })` matches an arbitrary employee and the code is checked against that employee's slot. This is not modelled: the model takes `email` as a string. A missing `newPassword` is not modelled either. With a matching live code, `bcrypt.hash(undefined, salt)` throws after the code checks, and the catch answers 500 with the password and the code slot unchanged. The model takes the hash as a parameter and succeeds.
- EmployeeAuthController.RequestPasswordReset: the route declares no validation. When `email` is missing from the body, `findOne({ email: undefined })` matches an arbitrary employee, who is then sent a reset code. This is not modelled: the model takes `email` as a string.
- PumpController.RemoveEmployeeFromPump: the route declares no validation. When `employeeEmail` is missing from the body, `findOne` matches an arbitrary employee, who is taken off the pump if the pump lists it. This is not modelled: the model takes `employeeEmail` as a string.
- TopUpController.TopUpAccount: the route declares no validation. An empty `topUpThrough` is modelled. A missing `amount` is not: `Number(undefined)` is NaN, both saves then fail their cast or `required` check, nothing changes, and the answer is still 200. The model takes `amount` as an integer.
- FundsTransferController.TransferFunds: the route declares no validation. A missing `receiverId` finds no receiver (404), as modelled. A missing `amount` passes both `<` tests, because a comparison with `undefined` is false. The holdings then become NaN and every save fails, and the answer is 500 (the `Expo` line above). A missing or unknown `entityTransfered` changes no holding, and the record fails its enum. The model takes `amount` as an integer and the entity as one of the two enum values.
- TransactionController.GetEmployeeTransactionHistory: the route declares no validation. A missing `employeeId` makes `findById(undefined)` find nothing, so the answer is 404. The model gives the same 404 for an id that names no employee.
- Entity and payment-method values outside the schema enums are not modelled: `Entity` and `PaymentMethod` admit only the enum values.
- History order: the model lists newest first by insertion order. Ties in `createdAt` are not modelled.
- TransactionController.GetEmployeeTransactionHistory: any manager may read any employee's sales, as the handler allows.
- Database: the invariant assumes that `addPump` (not modelled) named either no manager or a verified employee of type Manager. `addPump` stores `req.body.manager` unchecked, and its route validates only name, location and coordinates. Every pump handler requires the invariant, so stores where a pump names a refueler or an unverified employee as its manager are outside the model. On such a store `addManagerToPump` releases that refueler while its own pump still lists it.
- Database: a stored pump's `manager` that names no stored employee makes `addManagerToPump` answer 500 (the release dereferences null); the model states this refusal but does not model other dangling references.
