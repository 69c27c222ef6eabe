/** controllers/loyalty.controller.js: who may set a pump's loyalty threshold, and a customer's
    loyalty entries. */
module LoyaltyController {
  import opened Wrappers
  import opened Records
  import opened Database

  datatype ThresholdError = PumpNotFound | Unauthorized | ServerError
  {
    function Status(): nat {
      match this
      case PumpNotFound => 404
      case Unauthorized => 403
      case ServerError => 500
    }
  }

  /** `setLoyaltyThreshold`. Refusals, in order: no such pump (404); a pump without a manager,
      whose `manager.toString()` throws (500); a caller other than the pump's manager (403).
      Otherwise the handler assigns `threshold` to the loaded pump and saves it; the pump
      schema has no `loyaltyThreshold` path, so the save stores nothing new and the answer is
      the pump as stored. No call changes the store. */
  method SetLoyaltyThreshold(db: Store, managerId: Id, pumpId: Id, threshold: int)
    returns (r: Result<Pump, ThresholdError>)
    ensures pumpId !in db.pumps ==> r == Failure(PumpNotFound)
    ensures pumpId in db.pumps && db.pumps[pumpId].manager.None? ==> r == Failure(ServerError)
    ensures (pumpId in db.pumps && db.pumps[pumpId].manager.Some?
             && db.pumps[pumpId].manager.value != managerId) ==> r == Failure(Unauthorized)
    ensures r.Success? <==> pumpId in db.pumps && db.pumps[pumpId].manager == Some(managerId)
    ensures r.Success? ==> r.value == db.pumps[pumpId]
  {
    if pumpId !in db.pumps {
      return Failure(PumpNotFound);
    }
    var pump := db.pumps[pumpId];
    if pump.manager.None? {
      return Failure(ServerError);
    }
    if pump.manager.value != managerId {
      return Failure(Unauthorized);
    }
    r := Success(pump);
  }

  /** `getCustomerLoyaltyPoints`: the stored entries unchanged, or 404 for no such customer. */
  method GetCustomerLoyaltyPoints(db: Store, customerId: Id)
    returns (r: Option<seq<LoyaltyEntry>>)
    ensures r.None? <==> customerId !in db.customers
    ensures r.Some? ==> r.value == db.customers[customerId].loyaltyPoints
  {
    if customerId !in db.customers {
      return None;
    }
    r := Some(db.customers[customerId].loyaltyPoints);
  }
}
