/** controllers/fundsTransfer.controller.js: moving balance or points from one customer to
    another, and the receiver lookup the app performs before it. */
module FundsTransferController {
  import opened Wrappers
  import opened Records
  import opened Database
  import opened Ledger

  /** Why `transferFunds` refuses. */
  datatype TransferError = ReceiverNotFound | InsufficientPoints | InsufficientBalance
  {
    function Status(): nat {
      if this == ReceiverNotFound then 404 else 400
    }
  }

  /** The refusal for a sender who holds too little of `entity`. */
  function Insufficient(entity: Entity): TransferError {
    match entity
    case Points => InsufficientPoints
    case Balance => InsufficientBalance
  }

  /** The entity a transfer leaves alone. */
  function Other(entity: Entity): (o: Entity)
    ensures o != entity
  {
    match entity
    case Points => Balance
    case Balance => Points
  }

  /** The sender's copy after the debit: only the transferred field changes, by `-amount`. */
  function Debit(c: Customer, entity: Entity, amount: int): (d: Customer)
    ensures Held(d, entity) == Held(c, entity) - amount
    ensures Held(d, Other(entity)) == Held(c, Other(entity))
    ensures d.(balance := c.balance, points := c.points) == c
  {
    match entity
    case Balance => c.(balance := c.balance - amount)
    case Points => c.(points := c.points - amount)
  }

  /** The receiver's copy after the credit: only the transferred field changes, by `+amount`. */
  function Credit(c: Customer, entity: Entity, amount: int): (d: Customer)
    ensures Held(d, entity) == Held(c, entity) + amount
    ensures Held(d, Other(entity)) == Held(c, Other(entity))
    ensures d.(balance := c.balance, points := c.points) == c
  {
    match entity
    case Balance => c.(balance := c.balance + amount)
    case Points => c.(points := c.points + amount)
  }

  /** The customers after the two saves, in the order they are issued: the sender's copy,
      then the receiver's copy (both loaded before either was changed). */
  function AfterTransfer(m: map<Id, Customer>, senderId: Id, receiverId: Id, entity: Entity,
                         amount: int): (m': map<Id, Customer>)
    requires senderId in m && receiverId in m
    ensures m'.Keys == m.Keys
    ensures forall id :: id in m && id != senderId && id != receiverId ==> m'[id] == m[id]
  {
    m[senderId := Debit(m[senderId], entity, amount)][receiverId := Credit(m[receiverId], entity, amount)]
  }

  /** `transferFunds`, ledger part. The caller is the token's customer, which the route guard
      has found verified; the handler dereferences it without a check.
      Refusals, in order: no customer `receiverId` (404); the sender holds less of `entity`
      than `amount` (400). A refusal changes nothing. Otherwise the sender is debited, the
      receiver credited, and one transfer record appended. */
  method TransferFunds(db: Store, customerId: Id, receiverId: Id, amount: int, entity: Entity)
    returns (r: Result<FundsTransfer, TransferError>)
    requires db.Valid() && CustomerRouteAdmits(db, customerId)
    modifies db
    ensures db.Valid()
    ensures db.employees == old(db.employees) && db.pumps == old(db.pumps)
    ensures db.transactions == old(db.transactions) && db.topUps == old(db.topUps)
    ensures receiverId !in old(db.customers) ==> r == Failure(ReceiverNotFound)
    ensures receiverId in old(db.customers) && Held(old(db.customers)[customerId], entity) < amount ==>
              r == Failure(Insufficient(entity))
    ensures receiverId in old(db.customers) && Held(old(db.customers)[customerId], entity) >= amount ==>
              r.Success?
    ensures r.Failure? ==>
              db.customers == old(db.customers) && db.fundsTransfers == old(db.fundsTransfers)
    ensures r.Success? ==>
              && receiverId in old(db.customers)
              && Held(old(db.customers)[customerId], entity) >= amount
              && r.value == FundsTransfer(amount, entity, customerId, receiverId)
              && db.customers == AfterTransfer(old(db.customers), customerId, receiverId, entity, amount)
              && db.fundsTransfers == old(db.fundsTransfers) + [r.value]
  {
    var sender := db.customers[customerId];
    if receiverId !in db.customers {
      return Failure(ReceiverNotFound);
    }
    var receiver := db.customers[receiverId];
    if entity == Points && sender.points < amount {
      return Failure(InsufficientPoints);
    }
    if entity == Balance && sender.balance < amount {
      return Failure(InsufficientBalance);
    }
    if entity == Balance {
      sender := sender.(balance := sender.balance - amount);
      receiver := receiver.(balance := receiver.balance + amount);
    }
    if entity == Points {
      sender := sender.(points := sender.points - amount);
      receiver := receiver.(points := receiver.points + amount);
    }
    var record := FundsTransfer(amount, entity, customerId, receiverId);
    assert sender == Debit(db.customers[customerId], entity, amount);
    assert receiver == Credit(db.customers[receiverId], entity, amount);
    var saved := db.customers[customerId := sender];
    SaveCustomerKeepsValid(db.customers, customerId, sender);
    SaveCustomerKeepsValid(saved, receiverId, receiver);
    db.customers := saved[receiverId := receiver];
    db.fundsTransfers := db.fundsTransfers + [record];
    r := Success(record);
  }

  /** Between two different customers a transfer conserves what customers hold of `entity`
      in total, and leaves the other entity's total as it was. */
  lemma TransferConservesTotals(m: map<Id, Customer>, senderId: Id, receiverId: Id,
                                entity: Entity, amount: int)
    requires senderId in m && receiverId in m && senderId != receiverId
    ensures CustomerTotal(AfterTransfer(m, senderId, receiverId, entity, amount), entity)
            == CustomerTotal(m, entity)
    ensures CustomerTotal(AfterTransfer(m, senderId, receiverId, entity, amount), Other(entity))
            == CustomerTotal(m, Other(entity))
  {
    var m1 := m[senderId := Debit(m[senderId], entity, amount)];
    var e := entity;
    var o := Other(entity);
    CustomerTotalUpdate(m, senderId, Debit(m[senderId], e, amount), e);
    CustomerTotalUpdate(m, senderId, Debit(m[senderId], e, amount), o);
    CustomerTotalUpdate(m1, receiverId, Credit(m[receiverId], e, amount), e);
    CustomerTotalUpdate(m1, receiverId, Credit(m[receiverId], e, amount), o);
  }

  /** Between two different customers the sender loses exactly `amount` of `entity`, the
      receiver gains exactly `amount`, and neither's other entity moves. */
  lemma TransferMovesAmount(m: map<Id, Customer>, senderId: Id, receiverId: Id,
                            entity: Entity, amount: int)
    requires senderId in m && receiverId in m && senderId != receiverId
    ensures var m' := AfterTransfer(m, senderId, receiverId, entity, amount);
            && Held(m'[senderId], entity) == Held(m[senderId], entity) - amount
            && Held(m'[receiverId], entity) == Held(m[receiverId], entity) + amount
            && Held(m'[senderId], Other(entity)) == Held(m[senderId], Other(entity))
            && Held(m'[receiverId], Other(entity)) == Held(m[receiverId], Other(entity))
  {
  }

  /** The handler does not refuse a transfer to oneself. The receiver's save comes last and
      was loaded before the debit, so the customer ends up holding `amount` more and the
      customers' total of `entity` grows by `amount`. */
  lemma SelfTransferMints(m: map<Id, Customer>, id: Id, entity: Entity, amount: int)
    requires id in m
    ensures Held(AfterTransfer(m, id, id, entity, amount)[id], entity) == Held(m[id], entity) + amount
    ensures CustomerTotal(AfterTransfer(m, id, id, entity, amount), entity)
            == CustomerTotal(m, entity) + amount
  {
    assert AfterTransfer(m, id, id, entity, amount) == m[id := Credit(m[id], entity, amount)];
    CustomerTotalUpdate(m, id, Credit(m[id], entity, amount), entity);
  }

  /** With a non-negative amount that passed the sufficiency check, neither party ends up
      holding a negative amount of `entity` if neither did before. */
  lemma TransferKeepsHoldingsNonNegative(m: map<Id, Customer>, senderId: Id, receiverId: Id,
                                         entity: Entity, amount: int)
    requires senderId in m && receiverId in m
    requires 0 <= amount <= Held(m[senderId], entity) && Held(m[receiverId], entity) >= 0
    ensures var m' := AfterTransfer(m, senderId, receiverId, entity, amount);
            Held(m'[senderId], entity) >= 0 && Held(m'[receiverId], entity) >= 0
  {
  }

  /** The amount is not checked for sign: a negative amount passes the sufficiency check of
      any sender with a non-negative holding and takes from the receiver instead, which can
      leave the receiver holding a negative amount. */
  lemma NegativeAmountDebitsReceiver(m: map<Id, Customer>, senderId: Id, receiverId: Id,
                                     entity: Entity, amount: int)
    requires senderId in m && receiverId in m && senderId != receiverId
    requires amount < 0 && Held(m[senderId], entity) >= 0
    ensures Held(m[senderId], entity) >= amount
    ensures var m' := AfterTransfer(m, senderId, receiverId, entity, amount);
            && Held(m'[senderId], entity) > Held(m[senderId], entity)
            && Held(m'[receiverId], entity) < Held(m[receiverId], entity)
            && (amount < -Held(m[receiverId], entity) ==> Held(m'[receiverId], entity) < 0)
  {
  }

  /** Why `findReceiver` refuses. */
  datatype ReceiverError = NoSuchReceiver | ReceiverNotVerified | ReceiverIsSender
  {
    function Status(): nat {
      match this
      case NoSuchReceiver => 404
      case ReceiverNotVerified => 401
      case ReceiverIsSender => 400
    }
  }

  /** `findReceiver`: the customer with this phone number, as `toJSON` shows it. Refusals, in
      order: no such customer (404), not verified (401), the sender itself (400). The answer
      is a verified customer other than the sender with that phone number, and there is one
      exactly when the answer is not a refusal. */
  method FindReceiver(db: Store, senderId: Id, phoneNumber: string)
    returns (r: Result<PublicCustomer, ReceiverError>)
    requires db.Valid()
    ensures CustomerByPhone(db.customers, phoneNumber).None? ==> r == Failure(NoSuchReceiver)
    ensures CustomerByPhone(db.customers, phoneNumber).Some? ==>
              var id := CustomerByPhone(db.customers, phoneNumber).value;
              if !db.customers[id].isVerified then r == Failure(ReceiverNotVerified)
              else if id == senderId then r == Failure(ReceiverIsSender)
              else r == Success(CustomerToJson(db.customers[id]))
    ensures r.Success? <==>
              exists id :: id in db.customers && db.customers[id].phoneNumber == phoneNumber
                           && db.customers[id].isVerified && id != senderId
    ensures r.Success? ==> r.value.phoneNumber == phoneNumber && r.value.isVerified
  {
    var found := db.FindCustomerByPhone(phoneNumber);
    if found.None? {
      return Failure(NoSuchReceiver);
    }
    forall id | id in db.customers && db.customers[id].phoneNumber == phoneNumber
      ensures id == found.value
    {
      CustomerContactIdentifies(db.customers, id, found.value);
    }
    var receiver := db.customers[found.value];
    if !receiver.isVerified {
      return Failure(ReceiverNotVerified);
    }
    if found.value == senderId {
      return Failure(ReceiverIsSender);
    }
    r := Success(CustomerToJson(receiver));
  }
}
