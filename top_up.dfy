/** controllers/topUp.controller.js: crediting a customer's app balance, and the customer's
    top-up history. */
module TopUpController {
  import opened Wrappers
  import opened Records
  import opened Database
  import opened Ledger
  import opened History

  datatype TopUpError = CustomerNotFound | NoTopUps
  {
    function Status(): nat {
      404
    }
  }

  /** The customer's copy after a top-up: only the balance changes, by `+amount`. */
  function Credited(c: Customer, amount: int): (d: Customer)
    ensures d.balance == c.balance + amount
    ensures d.points == c.points && d.loyaltyPoints == c.loyaltyPoints
    ensures d.otp == c.otp && d.otpExpiry == c.otpExpiry
    ensures d.(balance := c.balance) == c
  {
    c.(balance := c.balance + amount)
  }

  /** `topUpAccount`. No customer `customerId` gives 404 and changes nothing; otherwise the
      customer's balance rises by `amount` and the answer is 200. The two saves are issued
      together and not awaited: the top-up record is appended only when it passes the
      schema's validation (the route does not check `topUpThrough`, and an empty one fails
      `required`), while the customer's save goes through either way. */
  method TopUpAccount(db: Store, customerId: Id, amount: int, topUpThrough: string)
    returns (r: Result<TopUp, TopUpError>)
    requires db.Valid()
    modifies db
    ensures db.Valid()
    ensures db.employees == old(db.employees) && db.pumps == old(db.pumps)
    ensures db.transactions == old(db.transactions) && db.fundsTransfers == old(db.fundsTransfers)
    ensures customerId !in old(db.customers) <==> r == Failure(CustomerNotFound)
    ensures r.Failure? ==> db.customers == old(db.customers) && db.topUps == old(db.topUps)
    ensures r.Success? ==>
              && customerId in old(db.customers)
              && r.value == TopUp(amount, topUpThrough, customerId)
              && db.topUps == old(db.topUps) + (if TopUpPassesSchema(r.value) then [r.value] else [])
              && db.customers == old(db.customers)[customerId := Credited(old(db.customers)[customerId], amount)]
  {
    if customerId !in db.customers {
      return Failure(CustomerNotFound);
    }
    var customer := db.customers[customerId];
    var topUp := TopUp(amount, topUpThrough, customerId);
    customer := customer.(balance := customer.balance + amount);
    SaveCustomerKeepsValid(db.customers, customerId, customer);
    if TopUpPassesSchema(topUp) {
      db.topUps := db.topUps + [topUp];
    }
    db.customers := db.customers[customerId := customer];
    r := Success(topUp);
  }

  /** A top-up raises the balance held by customers by exactly `amount` and keeps a
      non-negative balance non-negative when `amount` is not negative. */
  lemma TopUpRaisesTotal(m: map<Id, Customer>, customerId: Id, amount: int)
    requires customerId in m
    ensures CustomerTotal(m[customerId := Credited(m[customerId], amount)], Balance)
            == CustomerTotal(m, Balance) + amount
    ensures CustomerTotal(m[customerId := Credited(m[customerId], amount)], Points)
            == CustomerTotal(m, Points)
    ensures m[customerId].balance >= 0 && amount >= 0 ==> Credited(m[customerId], amount).balance >= 0
  {
    CustomerTotalUpdate(m, customerId, Credited(m[customerId], amount), Balance);
    CustomerTotalUpdate(m, customerId, Credited(m[customerId], amount), Points);
  }

  /** The top-ups of `customerId`, newest first. */
  function TopUpsOf(log: seq<TopUp>, customerId: Id): (topUps: seq<TopUp>)
    ensures forall k :: 0 <= k < |topUps| ==> topUps[k] in log && topUps[k].customerId == customerId
    ensures forall k :: 0 <= k < |log| && log[k].customerId == customerId ==> log[k] in topUps
  {
    NewestFirst(log, (t: TopUp) => t.customerId == customerId)
  }

  /** `getTopUpHistory`: the caller's top-ups, newest first, or 404 when there are none. The
      handler does not look the customer up. */
  method GetTopUpHistory(db: Store, customerId: Id) returns (r: Result<seq<TopUp>, TopUpError>)
    ensures r == Failure(NoTopUps) <==>
              forall k :: 0 <= k < |db.topUps| ==> db.topUps[k].customerId != customerId
    ensures r.Failure? ==> r == Failure(NoTopUps)
    ensures r.Success? ==> r.value == TopUpsOf(db.topUps, customerId) && r.value != []
  {
    var topUps := TopUpsOf(db.topUps, customerId);
    NewestFirstEmpty(db.topUps, (t: TopUp) => t.customerId == customerId);
    if |topUps| == 0 {
      return Failure(NoTopUps);
    }
    r := Success(topUps);
  }
}
