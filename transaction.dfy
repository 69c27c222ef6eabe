/** controllers/transaction.controller.js: a refueler records a fuel sale, paid in cash or from
    the customer's app balance, and a manager reads an employee's sales. */
module TransactionController {
  import opened Wrappers
  import opened Records
  import opened Database
  import opened Ledger
  import opened History

  /** Why `createTransaction` refuses. */
  datatype SaleError = CustomerNotFound | InsufficientFunds | EmployeeNotFound | PumpNotFound
  {
    function Status(): nat {
      if this == InsufficientFunds then 403 else 404
    }
  }

  /** The customer's copy after an app payment: only the balance changes, by `-amount`. */
  function Charge(c: Customer, amount: int): (d: Customer)
    ensures d.balance == c.balance - amount
    ensures d.(balance := c.balance) == c
  {
    c.(balance := c.balance - amount)
  }

  /** The pump's copy after an app payment: only the balance changes, by `+amount`. */
  function Collect(p: Pump, amount: int): (q: Pump)
    ensures q.balance == p.balance + amount
    ensures q.(balance := p.balance) == p
  {
    p.(balance := p.balance + amount)
  }

  /** The app payment check: `amount > customer.balance` refuses, so paying exactly the
      balance is allowed. */
  predicate CanPayByApp(c: Customer, amount: int) {
    amount <= c.balance
  }

  /** `createTransaction`. Refusals, in order: no such customer (404); an app payment larger
      than the customer's balance (403); no such employee (404); no pump at the employee's
      `pumpId`, which includes having none (404). A refusal changes nothing. Otherwise one
      sale is appended, naming the caller and the caller's pump; an app payment also moves
      `amount` from the customer's balance to the pump's, a cash payment moves nothing. */
  method CreateTransaction(db: Store, employeeId: Id, customerId: Id, amount: int,
                           paymentMethod: PaymentMethod, fuelType: FuelType, fuelAmount: int)
    returns (r: Result<Transaction, SaleError>)
    requires db.Valid()
    modifies db
    ensures db.Valid()
    ensures db.employees == old(db.employees)
    ensures db.fundsTransfers == old(db.fundsTransfers) && db.topUps == old(db.topUps)
    ensures customerId !in old(db.customers) ==> r == Failure(CustomerNotFound)
    ensures customerId in old(db.customers) && paymentMethod == App
            && !CanPayByApp(old(db.customers)[customerId], amount) ==>
              r == Failure(InsufficientFunds)
    ensures customerId in old(db.customers)
            && (paymentMethod == App ==> CanPayByApp(old(db.customers)[customerId], amount)) ==>
              if employeeId !in old(db.employees) then r == Failure(EmployeeNotFound)
              else if old(db.employees)[employeeId].pumpId.None?
                      || old(db.employees)[employeeId].pumpId.value !in old(db.pumps)
              then r == Failure(PumpNotFound)
              else r.Success?
    ensures r.Failure? ==>
              db.customers == old(db.customers) && db.pumps == old(db.pumps)
              && db.transactions == old(db.transactions)
    ensures r.Success? ==>
              && customerId in old(db.customers) && employeeId in old(db.employees)
              && old(db.employees)[employeeId].pumpId.Some?
              && var pumpId := old(db.employees)[employeeId].pumpId.value;
              && pumpId in old(db.pumps)
              && r.value == Transaction(amount, paymentMethod, fuelType, fuelAmount, customerId,
                                        pumpId, employeeId)
              && db.transactions == old(db.transactions) + [r.value]
              && (paymentMethod == Cash ==>
                    db.customers == old(db.customers) && db.pumps == old(db.pumps))
              && (paymentMethod == App ==>
                    && CanPayByApp(old(db.customers)[customerId], amount)
                    && db.customers == old(db.customers)[customerId := Charge(old(db.customers)[customerId], amount)]
                    && db.pumps == old(db.pumps)[pumpId := Collect(old(db.pumps)[pumpId], amount)])
  {
    if customerId !in db.customers {
      return Failure(CustomerNotFound);
    }
    var customer := db.customers[customerId];
    if paymentMethod == App && amount > customer.balance {
      return Failure(InsufficientFunds);
    }
    if employeeId !in db.employees {
      return Failure(EmployeeNotFound);
    }
    var employee := db.employees[employeeId];
    if employee.pumpId.None? || employee.pumpId.value !in db.pumps {
      return Failure(PumpNotFound);
    }
    var pumpId := employee.pumpId.value;
    var pump := db.pumps[pumpId];
    var sale := Transaction(amount, paymentMethod, fuelType, fuelAmount, customerId, pumpId,
                            employeeId);
    if paymentMethod == App {
      customer := customer.(balance := customer.balance - amount);
      pump := pump.(balance := pump.balance + amount);
      SaveCustomerKeepsValid(db.customers, customerId, customer);
      SavePumpKeepsValid(db.employees, db.pumps, pumpId, pump);
      db.transactions := db.transactions + [sale];
      db.customers := db.customers[customerId := customer];
      db.pumps := db.pumps[pumpId := pump];
    } else {
      db.transactions := db.transactions + [sale];
    }
    r := Success(sale);
  }

  /** An app payment conserves the balance held by customers and pumps together, and
      leaves the customers' points as they were. */
  lemma AppPaymentConserves(customers: map<Id, Customer>, pumps: map<Id, Pump>,
                            customerId: Id, pumpId: Id, amount: int)
    requires customerId in customers && pumpId in pumps
    ensures var customers' := customers[customerId := Charge(customers[customerId], amount)];
            var pumps' := pumps[pumpId := Collect(pumps[pumpId], amount)];
            && CustomerTotal(customers', Balance) + PumpTotal(pumps')
               == CustomerTotal(customers, Balance) + PumpTotal(pumps)
            && CustomerTotal(customers', Points) == CustomerTotal(customers, Points)
  {
    var c := Charge(customers[customerId], amount);
    CustomerTotalUpdate(customers, customerId, c, Balance);
    CustomerTotalUpdate(customers, customerId, c, Points);
    PumpTotalUpdate(pumps, pumpId, Collect(pumps[pumpId], amount));
  }

  /** An app payment the check lets through leaves a non-negative balance non-negative;
      paying exactly the balance leaves zero. */
  lemma AppPaymentKeepsBalanceNonNegative(c: Customer, amount: int)
    requires c.balance >= 0 && CanPayByApp(c, amount)
    ensures Charge(c, amount).balance >= 0
    ensures amount == c.balance ==> Charge(c, amount).balance == 0
  {
  }

  /** Why `getEmployeeTransactionHistory` refuses. */
  datatype HistoryError = NotAManager | EmployeeNotFoundForHistory | NoTransactions
  {
    function Status(): nat {
      if this == NotAManager then 403 else 404
    }
  }

  /** The sales recorded by `employeeId`, newest first. */
  function SalesBy(log: seq<Transaction>, employeeId: Id): (sales: seq<Transaction>)
    ensures forall k :: 0 <= k < |sales| ==> sales[k] in log && sales[k].employeeId == employeeId
    ensures forall k :: 0 <= k < |log| && log[k].employeeId == employeeId ==> log[k] in sales
  {
    NewestFirst(log, (t: Transaction) => t.employeeId == employeeId)
  }

  /** `getEmployeeTransactionHistory`: the caller is an employee the route guard admitted.
      Refusals, in order: the caller is not a manager (403); no employee `employeeId` (404);
      no sale by that employee (404). Any manager may read any employee's sales. */
  method GetEmployeeTransactionHistory(db: Store, managerId: Id, employeeId: Id)
    returns (r: Result<seq<Transaction>, HistoryError>)
    requires EmployeeRouteAdmits(db, managerId)
    ensures db.employees[managerId].role != Manager ==> r == Failure(NotAManager)
    ensures db.employees[managerId].role == Manager && employeeId !in db.employees ==>
              r == Failure(EmployeeNotFoundForHistory)
    ensures r == Failure(NoTransactions) <==>
              && db.employees[managerId].role == Manager && employeeId in db.employees
              && forall k :: 0 <= k < |db.transactions| ==> db.transactions[k].employeeId != employeeId
    ensures (db.employees[managerId].role == Manager && employeeId in db.employees
             && r != Failure(NoTransactions)) ==> r.Success?
    ensures r.Success? ==> r.value == SalesBy(db.transactions, employeeId) && r.value != []
  {
    if db.employees[managerId].role != Manager {
      return Failure(NotAManager);
    }
    if employeeId !in db.employees {
      return Failure(EmployeeNotFoundForHistory);
    }
    var sales := SalesBy(db.transactions, employeeId);
    NewestFirstEmpty(db.transactions, (t: Transaction) => t.employeeId == employeeId);
    if |sales| == 0 {
      return Failure(NoTransactions);
    }
    r := Success(sales);
  }
}
