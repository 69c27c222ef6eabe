/** The stored records (the schemas under models/) and the public projection that `toJSON` gives of
    customers and employees. Creation timestamps, `_id` and `__v` are not modelled; ids are the
    keys of the store's collections. */
module Records {
  import opened Wrappers
  import opened Otp

  /** A MongoDB ObjectId. */
  type Id = nat

  /** The employee schema's `type` path: enum ["manager", "refueler"], required. */
  datatype EmployeeType = Manager | Refueler

  /** `entityTransfered` of a funds transfer: enum ["points", "balance"]. */
  datatype Entity = Points | Balance

  /** `paymentMethod` of a transaction: enum ["cash", "app"]. */
  datatype PaymentMethod = Cash | App

  /** `fuelType` of a transaction: enum ["petrol", "diesel", "cng"]. */
  datatype FuelType = Petrol | Diesel | Cng

  /** One element of a customer's `loyaltyPoints` list; the schema's default for `points` is 0. */
  datatype LoyaltyEntry = LoyaltyEntry(pumpId: Option<Id>, points: int)

  /** models/customer.model.js. `password` holds the bcrypt hash. */
  datatype Customer = Customer(
    name: string,
    email: string,
    password: string,
    phoneNumber: string,
    imageUrl: Option<string>,
    loyaltyPoints: seq<LoyaltyEntry>,
    balance: int,
    points: int,
    isVerified: bool,
    otp: Option<string>,
    otpExpiry: Option<Millis>)

  /** models/employee.model.js. `role` is the schema's `type` path. */
  datatype Employee = Employee(
    name: string,
    email: string,
    password: string,
    phoneNumber: string,
    imageUrl: Option<string>,
    role: EmployeeType,
    isEmployed: bool,
    pumpId: Option<Id>,
    isVerified: bool,
    otp: Option<string>,
    otpExpiry: Option<Millis>,
    pushToken: Option<string>)

  /** models/pump.model.js, without the coordinates. The schema has no `loyaltyThreshold`
      path, so a stored pump has none. */
  datatype Pump = Pump(
    name: string,
    location: string,
    balance: int,
    addedBy: Id,
    manager: Option<Id>,
    employees: seq<Id>)

  /** models/transaction.model.js: one fuel sale. */
  datatype Transaction = Transaction(
    amount: int,
    paymentMethod: PaymentMethod,
    fuelType: FuelType,
    fuelAmount: int,
    customerId: Id,
    pumpId: Id,
    employeeId: Id)

  /** models/fundsTransfer.model.js. */
  datatype FundsTransfer = FundsTransfer(
    amount: int,
    entityTransfered: Entity,
    senderId: Id,
    receiverId: Id)

  /** models/topUp.model.js. */
  datatype TopUp = TopUp(amount: int, topUpThrough: string, customerId: Id)

  /** A customer as the signup handler creates it: the schema defaults (no image, no loyalty
      entries, balance 0, points 0, not verified) and a freshly issued code. */
  function NewCustomer(name: string, email: string, password: string, phoneNumber: string,
                       otp: string, otpExpiry: Millis): Customer
  {
    Customer(name, email, password, phoneNumber, None, [], 0, 0, false, Some(otp), Some(otpExpiry))
  }

  /** An employee as the signup handler creates it: not employed, no pump, not verified, and a
      freshly issued code. */
  function NewEmployee(name: string, email: string, password: string, phoneNumber: string,
                       role: EmployeeType, otp: string, otpExpiry: Millis): Employee
  {
    Employee(name, email, password, phoneNumber, None, role, false, None, false,
             Some(otp), Some(otpExpiry), None)
  }

  // ---------------------------------------------------------------------------------------
  // What save() validates

  /** The validation `save()` runs on a customer: the `required` String paths name, email,
      password and phoneNumber are not empty (Mongoose's `required` refuses ""), and the
      password has at least the schema's `minlength` of 6 characters. */
  predicate CustomerPassesSchema(c: Customer) {
    c.name != [] && c.email != [] && |c.password| >= 6 && c.phoneNumber != []
  }

  /** The validation `save()` runs on an employee: name, email, password and phoneNumber are
      `required` and not empty; `type` is an enum the datatype already enforces. */
  predicate EmployeePassesSchema(e: Employee) {
    e.name != [] && e.email != [] && e.password != [] && e.phoneNumber != []
  }

  /** The validation `save()` runs on a top-up record: `topUpThrough` is `required`. */
  predicate TopUpPassesSchema(t: TopUp) {
    t.topUpThrough != []
  }

  // ---------------------------------------------------------------------------------------
  // toJSON: the public view

  /** The three paths `toJSON` deletes, common to customers and employees. */
  datatype Secrets = Secrets(password: string, otp: Option<string>, otpExpiry: Option<Millis>)

  /** What `toJSON` sends for a customer. */
  datatype PublicCustomer = PublicCustomer(
    name: string,
    email: string,
    phoneNumber: string,
    imageUrl: Option<string>,
    loyaltyPoints: seq<LoyaltyEntry>,
    balance: int,
    points: int,
    isVerified: bool)

  /** What `toJSON` sends for an employee. */
  datatype PublicEmployee = PublicEmployee(
    name: string,
    email: string,
    phoneNumber: string,
    imageUrl: Option<string>,
    role: EmployeeType,
    isEmployed: bool,
    pumpId: Option<Id>,
    isVerified: bool,
    pushToken: Option<string>)

  function CustomerSecrets(c: Customer): Secrets {
    Secrets(c.password, c.otp, c.otpExpiry)
  }

  function EmployeeSecrets(e: Employee): Secrets {
    Secrets(e.password, e.otp, e.otpExpiry)
  }

  /** The record whose public part is `v` and whose deleted paths are `s`. */
  function CustomerWith(v: PublicCustomer, s: Secrets): Customer {
    Customer(v.name, v.email, s.password, v.phoneNumber, v.imageUrl, v.loyaltyPoints,
             v.balance, v.points, v.isVerified, s.otp, s.otpExpiry)
  }

  function EmployeeWith(v: PublicEmployee, s: Secrets): Employee {
    Employee(v.name, v.email, s.password, v.phoneNumber, v.imageUrl, v.role, v.isEmployed,
             v.pumpId, v.isVerified, s.otp, s.otpExpiry, v.pushToken)
  }

  /** customerSchema.methods.toJSON: a copy of the record without password, otp and otpExpiry.
      Nothing else is lost: the view and those three paths give back the record. */
  function CustomerToJson(c: Customer): (v: PublicCustomer)
    ensures CustomerWith(v, CustomerSecrets(c)) == c
  {
    PublicCustomer(c.name, c.email, c.phoneNumber, c.imageUrl, c.loyaltyPoints, c.balance,
                   c.points, c.isVerified)
  }

  /** employeeSchema.methods.toJSON: the same projection for employees. */
  function EmployeeToJson(e: Employee): (v: PublicEmployee)
    ensures EmployeeWith(v, EmployeeSecrets(e)) == e
  {
    PublicEmployee(e.name, e.email, e.phoneNumber, e.imageUrl, e.role, e.isEmployed, e.pumpId,
                   e.isVerified, e.pushToken)
  }

  /** Two customers have the same public view exactly when they differ at most in password,
      otp and otpExpiry. */
  lemma CustomerToJsonExact(a: Customer, b: Customer)
    ensures CustomerToJson(a) == CustomerToJson(b) <==> a == CustomerWith(CustomerToJson(b), CustomerSecrets(a))
  {
  }

  /** Two employees have the same public view exactly when they differ at most in password,
      otp and otpExpiry. */
  lemma EmployeeToJsonExact(a: Employee, b: Employee)
    ensures EmployeeToJson(a) == EmployeeToJson(b) <==> a == EmployeeWith(EmployeeToJson(b), EmployeeSecrets(a))
  {
  }
}
