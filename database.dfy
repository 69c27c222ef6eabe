/** The MongoDB collections the controllers read and write, as one in-memory store.
    A handler loads a document (a copy), assigns its fields and saves it back; here a save is
    the reassignment of one map entry, applied in the order the handler issues it. */
module Database {
  import opened Wrappers
  import opened Otp
  import opened Records

  /** A code slot as the auth handlers keep it: code and expiry are set and cleared together,
      and a stored code is one that `generateOtp` produced. */
  predicate SlotCoherent(otp: Option<string>, otpExpiry: Option<Millis>) {
    otp.Some? == otpExpiry.Some? && (otp.Some? ==> IsSixDigitCode(otp.value))
  }

  /** Two customers share neither email nor phone number. */
  predicate CustomerContactsDiffer(a: Customer, b: Customer) {
    a.email != b.email && a.phoneNumber != b.phoneNumber
  }

  /** Two employees share neither email nor phone number. */
  predicate EmployeeContactsDiffer(a: Employee, b: Employee) {
    a.email != b.email && a.phoneNumber != b.phoneNumber
  }

  /** The unique indexes on `email` and `phoneNumber` of the customer collection, and a
      coherent code slot in every customer. */
  ghost predicate CustomersValid(m: map<Id, Customer>) {
    && (forall i, j {:trigger CustomerContactsDiffer(m[i], m[j])} :: i in m && j in m && i != j ==>
          CustomerContactsDiffer(m[i], m[j]))
    && (forall i :: i in m ==> SlotCoherent(m[i].otp, m[i].otpExpiry))
  }

  /** The same for the employee collection. */
  ghost predicate EmployeesValid(m: map<Id, Employee>) {
    && (forall i, j {:trigger EmployeeContactsDiffer(m[i], m[j])} :: i in m && j in m && i != j ==>
          EmployeeContactsDiffer(m[i], m[j]))
    && (forall i :: i in m ==> SlotCoherent(m[i].otp, m[i].otpExpiry))
  }

  predicate NoDuplicates(s: seq<Id>) {
    forall i, j :: 0 <= i < j < |s| ==> s[i] != s[j]
  }

  /** Staffing: what a pump lists and what its employees record agree.
      - every id in `pump.employees` is a verified refueler employed at that pump, listed once;
      - an employee is employed exactly when it has a `pumpId`, and only if verified;
      - an employed refueler is listed by its pump, an employed manager is its pump's manager;
      - a pump's `manager`, when it names a stored employee, names a verified manager.
      A manager who is no longer employed may still be named by a pump (see addManagerToPump). */
  ghost predicate StaffingValid(employees: map<Id, Employee>, pumps: map<Id, Pump>) {
    && ListedAreRefuelers(employees, pumps)
    && (forall p :: p in pumps ==> NoDuplicates(pumps[p].employees))
    && (forall id :: id in employees ==> (employees[id].isEmployed <==> employees[id].pumpId.Some?))
    && (forall id :: id in employees && employees[id].isEmployed ==> employees[id].isVerified)
    && EmployedAreStaffed(employees, pumps)
    && (forall p {:trigger employees[pumps[p].manager.value]} ::
          p in pumps && pumps[p].manager.Some? && pumps[p].manager.value in employees ==>
          employees[pumps[p].manager.value].role == Manager
          && employees[pumps[p].manager.value].isVerified)
  }

  /** Every id a pump lists is a verified refueler employed at that pump. */
  ghost predicate ListedAreRefuelers(employees: map<Id, Employee>, pumps: map<Id, Pump>) {
    forall p, k :: p in pumps && 0 <= k < |pumps[p].employees| ==>
      var id := pumps[p].employees[k];
      id in employees && employees[id].isEmployed && employees[id].pumpId == Some(p)
      && employees[id].role == Refueler && employees[id].isVerified
  }

  /** An employed refueler is listed by its pump; an employed manager is its pump's manager. */
  ghost predicate EmployedAreStaffed(employees: map<Id, Employee>, pumps: map<Id, Pump>) {
    forall id {:trigger pumps[employees[id].pumpId.value]} ::
      id in employees && employees[id].isEmployed && employees[id].pumpId.Some?
      && employees[id].pumpId.value in pumps ==>
      var pump := pumps[employees[id].pumpId.value];
      if employees[id].role == Refueler then id in pump.employees else pump.manager == Some(id)
  }

  /** The unique indexes at work: two stored customers that share an email or a phone number
      are the same customer. */
  lemma CustomerContactIdentifies(m: map<Id, Customer>, i: Id, j: Id)
    requires CustomersValid(m) && i in m && j in m
    requires m[i].email == m[j].email || m[i].phoneNumber == m[j].phoneNumber
    ensures i == j
  {
    assert !CustomerContactsDiffer(m[i], m[j]);
  }

  /** Two stored employees that share an email or a phone number are the same employee. */
  lemma EmployeeContactIdentifies(m: map<Id, Employee>, i: Id, j: Id)
    requires EmployeesValid(m) && i in m && j in m
    requires m[i].email == m[j].email || m[i].phoneNumber == m[j].phoneNumber
    ensures i == j
  {
    assert !EmployeeContactsDiffer(m[i], m[j]);
  }

  /** Saving a customer whose email, phone number and code slot keep the collection's
      constraints keeps the collection valid. */
  lemma SaveCustomerKeepsValid(m: map<Id, Customer>, id: Id, c: Customer)
    requires CustomersValid(m) && id in m
    requires c.email == m[id].email && c.phoneNumber == m[id].phoneNumber
    requires SlotCoherent(c.otp, c.otpExpiry)
    ensures CustomersValid(m[id := c])
  {
    var m' := m[id := c];
    forall i, j | i in m' && j in m' && i != j
      ensures CustomerContactsDiffer(m'[i], m'[j])
    {
      assert CustomerContactsDiffer(m[i], m[j]);
    }
  }

  /** Saving an employee under its own contacts with a coherent slot keeps the employee
      collection valid. */
  lemma SaveEmployeeKeepsContactsValid(m: map<Id, Employee>, id: Id, e: Employee)
    requires EmployeesValid(m) && id in m
    requires e.email == m[id].email && e.phoneNumber == m[id].phoneNumber
    requires SlotCoherent(e.otp, e.otpExpiry)
    ensures EmployeesValid(m[id := e])
  {
    var m' := m[id := e];
    forall i, j | i in m' && j in m' && i != j
      ensures EmployeeContactsDiffer(m'[i], m'[j])
    {
      assert EmployeeContactsDiffer(m[i], m[j]);
    }
  }

  /** Saving an employee whose contacts, slot and staffing fields are unchanged (it may become
      verified) keeps the collection and the staffing relation valid. */
  lemma SaveEmployeeKeepsValid(employees: map<Id, Employee>, pumps: map<Id, Pump>, id: Id, e: Employee)
    requires EmployeesValid(employees) && StaffingValid(employees, pumps) && id in employees
    requires e.email == employees[id].email && e.phoneNumber == employees[id].phoneNumber
    requires SlotCoherent(e.otp, e.otpExpiry)
    requires e.role == employees[id].role && e.isEmployed == employees[id].isEmployed
    requires e.pumpId == employees[id].pumpId
    requires employees[id].isVerified ==> e.isVerified
    ensures EmployeesValid(employees[id := e]) && StaffingValid(employees[id := e], pumps)
  {
    SaveEmployeeKeepsContactsValid(employees, id, e);
  }

  /** No customer has this email or this phone number. */
  ghost predicate CustomerContactsFree(m: map<Id, Customer>, email: string, phoneNumber: string) {
    forall id :: id in m ==> m[id].email != email && m[id].phoneNumber != phoneNumber
  }

  /** No employee other than `except` has this email or this phone number. */
  ghost predicate EmployeeContactsFree(m: map<Id, Employee>, except: Option<Id>, email: string,
                                       phoneNumber: string) {
    forall id :: id in m && Some(id) != except ==> m[id].email != email && m[id].phoneNumber != phoneNumber
  }

  /** Inserting a customer with a fresh id, free contacts and a coherent slot keeps the
      collection valid. */
  lemma InsertCustomerKeepsValid(m: map<Id, Customer>, id: Id, c: Customer)
    requires CustomersValid(m) && id !in m
    requires CustomerContactsFree(m, c.email, c.phoneNumber)
    requires SlotCoherent(c.otp, c.otpExpiry)
    ensures CustomersValid(m[id := c])
  {
  }

  /** An ObjectId the database has never handed out: no employee has it and no pump names
      it as its manager. */
  ghost predicate FreshEmployeeId(employees: map<Id, Employee>, pumps: map<Id, Pump>, id: Id) {
    id !in employees && forall p :: p in pumps ==> pumps[p].manager != Some(id)
  }

  /** Storing an unverified, unemployed employee, either under a fresh id or over an unverified
      one, with contacts no other employee has and a coherent slot, keeps the employees and
      the staffing relation valid. */
  lemma PutUnverifiedEmployeeKeepsValid(employees: map<Id, Employee>, pumps: map<Id, Pump>, id: Id,
                                        e: Employee)
    requires EmployeesValid(employees) && StaffingValid(employees, pumps)
    requires id in employees ==> !employees[id].isVerified
    requires id !in employees ==> FreshEmployeeId(employees, pumps, id)
    requires !e.isVerified && !e.isEmployed && e.pumpId.None?
    requires EmployeeContactsFree(employees, Some(id), e.email, e.phoneNumber)
    requires SlotCoherent(e.otp, e.otpExpiry)
    ensures EmployeesValid(employees[id := e]) && StaffingValid(employees[id := e], pumps)
  {
  }

  /** Saving a pump whose staff fields are unchanged keeps the staffing relation valid. */
  lemma SavePumpKeepsValid(employees: map<Id, Employee>, pumps: map<Id, Pump>, id: Id, p: Pump)
    requires StaffingValid(employees, pumps) && id in pumps
    requires p.manager == pumps[id].manager && p.employees == pumps[id].employees
    ensures StaffingValid(employees, pumps[id := p])
  {
  }

  /** The customer with this email; the unique index makes it the only one. */
  ghost function CustomerByEmail(m: map<Id, Customer>, email: string): (found: Option<Id>)
    ensures found.Some? ==> found.value in m && m[found.value].email == email
    ensures found.None? ==> forall id :: id in m ==> m[id].email != email
  {
    if exists id :: id in m && m[id].email == email then
      Some(var id :| id in m && m[id].email == email; id)
    else None
  }

  /** The customer with this phone number. */
  ghost function CustomerByPhone(m: map<Id, Customer>, phoneNumber: string): (found: Option<Id>)
    ensures found.Some? ==> found.value in m && m[found.value].phoneNumber == phoneNumber
    ensures found.None? ==> forall id :: id in m ==> m[id].phoneNumber != phoneNumber
  {
    if exists id :: id in m && m[id].phoneNumber == phoneNumber then
      Some(var id :| id in m && m[id].phoneNumber == phoneNumber; id)
    else None
  }

  /** The employee with this email. */
  ghost function EmployeeByEmail(m: map<Id, Employee>, email: string): (found: Option<Id>)
    ensures found.Some? ==> found.value in m && m[found.value].email == email
    ensures found.None? ==> forall id :: id in m ==> m[id].email != email
  {
    if exists id :: id in m && m[id].email == email then
      Some(var id :| id in m && m[id].email == email; id)
    else None
  }

  class Store {
    var customers: map<Id, Customer>
    var employees: map<Id, Employee>
    var pumps: map<Id, Pump>
    /** The append-only logs of the Transaction, FundsTransfer and TopUp collections, oldest
        first. */
    var transactions: seq<Transaction>
    var fundsTransfers: seq<FundsTransfer>
    var topUps: seq<TopUp>

    ghost predicate Valid()
      reads this
    {
      CustomersValid(customers) && EmployeesValid(employees) && StaffingValid(employees, pumps)
    }

    constructor ()
      ensures Valid()
      ensures customers == map[] && employees == map[] && pumps == map[]
      ensures transactions == [] && fundsTransfers == [] && topUps == []
    {
      customers, employees, pumps := map[], map[], map[];
      transactions, fundsTransfers, topUps := [], [], [];
    }

    /** `Customer.findOne({ email })`. */
    method FindCustomerByEmail(email: string) returns (found: Option<Id>)
      requires Valid()
      ensures found == CustomerByEmail(customers, email)
    {
      if exists id :: id in customers && customers[id].email == email {
        var id :| id in customers && customers[id].email == email;
        CustomerContactIdentifies(customers, id, CustomerByEmail(customers, email).value);
        found := Some(id);
      } else {
        found := None;
      }
    }

    /** `Customer.findOne({ phoneNumber })`. */
    method FindCustomerByPhone(phoneNumber: string) returns (found: Option<Id>)
      requires Valid()
      ensures found == CustomerByPhone(customers, phoneNumber)
    {
      if exists id :: id in customers && customers[id].phoneNumber == phoneNumber {
        var id :| id in customers && customers[id].phoneNumber == phoneNumber;
        CustomerContactIdentifies(customers, id, CustomerByPhone(customers, phoneNumber).value);
        found := Some(id);
      } else {
        found := None;
      }
    }

    /** `Employee.findOne({ email })`. */
    method FindEmployeeByEmail(email: string) returns (found: Option<Id>)
      requires Valid()
      ensures found == EmployeeByEmail(employees, email)
    {
      if exists id :: id in employees && employees[id].email == email {
        var id :| id in employees && employees[id].email == email;
        EmployeeContactIdentifies(employees, id, EmployeeByEmail(employees, email).value);
        found := Some(id);
      } else {
        found := None;
      }
    }

    /** `Customer.findOne({ $or: [{ email }, { phoneNumber }] })`: some customer matching
        either field, or none when no customer does. Which of two matching customers the
        database returns is not specified. */
    method FindCustomerByEmailOrPhone(email: string, phoneNumber: string) returns (found: Option<Id>)
      ensures found.Some? ==>
                found.value in customers
                && (customers[found.value].email == email || customers[found.value].phoneNumber == phoneNumber)
      ensures found.None? ==> forall id :: id in customers ==>
                customers[id].email != email && customers[id].phoneNumber != phoneNumber
    {
      if exists id :: id in customers && (customers[id].email == email || customers[id].phoneNumber == phoneNumber) {
        var id :| id in customers && (customers[id].email == email || customers[id].phoneNumber == phoneNumber);
        found := Some(id);
      } else {
        found := None;
      }
    }

    /** `Employee.findOne({ $or: [{ email }, { phoneNumber }] })`. */
    method FindEmployeeByEmailOrPhone(email: string, phoneNumber: string) returns (found: Option<Id>)
      ensures found.Some? ==>
                found.value in employees
                && (employees[found.value].email == email || employees[found.value].phoneNumber == phoneNumber)
      ensures found.None? ==> forall id :: id in employees ==>
                employees[id].email != email && employees[id].phoneNumber != phoneNumber
    {
      if exists id :: id in employees && (employees[id].email == email || employees[id].phoneNumber == phoneNumber) {
        var id :| id in employees && (employees[id].email == email || employees[id].phoneNumber == phoneNumber);
        found := Some(id);
      } else {
        found := None;
      }
    }
  }

  /** What the customer route guard (middleware/protectCustomerRoute.js) lets through: the
      token's customer exists and is verified. */
  ghost predicate CustomerRouteAdmits(db: Store, id: Id)
    reads db
  {
    id in db.customers && db.customers[id].isVerified
  }

  /** What the employee route guard (middleware/protectEmployeeRoute.js) lets through. */
  ghost predicate EmployeeRouteAdmits(db: Store, id: Id)
    reads db
  {
    id in db.employees && db.employees[id].isVerified
  }
}
