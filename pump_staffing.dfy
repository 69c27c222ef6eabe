/** controllers/pump.controller.js: appointing a pump's manager and adding or removing its
    refuelers. Each handler keeps `pump.employees`, `pump.manager` and the employees'
    `isEmployed` / `pumpId` in step (Database.StaffingValid). */
module PumpController {
  import opened Wrappers
  import opened Records
  import opened Database

  /** Why a staffing handler refuses. */
  datatype StaffError =
    | PumpNotFound
    | ServerError
    | ManagerNotFound
    | ManagerNotVerified
    | RefuelerAsManager
    | EmployeeNotFound
    | EmployeeNotVerified
    | ManagerAsRefueler
    | AlreadyEmployed
    | NotInPump
    | CallerNotEmployed
    | CallerIsRefueler
    | SelfAssignment
  {
    function Status(): nat {
      match this
      case PumpNotFound => 404
      case ManagerNotFound => 404
      case EmployeeNotFound => 404
      case NotInPump => 404
      case ServerError => 500
      case ManagerNotVerified => 401
      case EmployeeNotVerified => 401
      case _ => 403
    }
  }

  /** An employee let go: not employed and no `pumpId` (`pumpId = undefined` unsets the path);
      nothing else changes. */
  function Released(e: Employee): (d: Employee)
    ensures !d.isEmployed && d.pumpId.None?
    ensures d.(isEmployed := e.isEmployed, pumpId := e.pumpId) == e
  {
    e.(isEmployed := false, pumpId := None)
  }

  /** An employee taken on at `pumpId`; nothing else changes. */
  function Hired(e: Employee, pumpId: Id): (d: Employee)
    ensures d.isEmployed && d.pumpId == Some(pumpId)
    ensures d.(isEmployed := e.isEmployed, pumpId := e.pumpId) == e
  {
    e.(isEmployed := true, pumpId := Some(pumpId))
  }

  /** The employees after `addManagerToPump` has let the pump's previous manager go (when it
      names a stored employee). */
  function AfterRelease(employees: map<Id, Employee>, manager: Option<Id>): (m: map<Id, Employee>)
    ensures m.Keys == employees.Keys
    ensures forall id :: id in employees && manager != Some(id) ==> m[id] == employees[id]
    ensures manager.Some? && manager.value in employees ==>
              m[manager.value] == Released(employees[manager.value])
  {
    if manager.Some? && manager.value in employees then
      employees[manager.value := Released(employees[manager.value])]
    else employees
  }

  /** `Array.prototype.indexOf`: the first position of `x` in `s`, or -1. */
  function IndexOf(s: seq<Id>, x: Id): (i: int)
    ensures -1 <= i < |s|
    ensures i == -1 <==> x !in s
    ensures i >= 0 ==> s[i] == x && forall k :: 0 <= k < i ==> s[k] != x
  {
    if s == [] then -1
    else if s[0] == x then 0
    else
      var j := IndexOf(s[1..], x);
      if j == -1 then -1 else j + 1
  }

  /** `s.splice(i, 1)`: the sequence without its element at `i`, the rest in order. */
  function Splice(s: seq<Id>, i: nat): (t: seq<Id>)
    requires i < |s|
    ensures |t| == |s| - 1
    ensures forall k :: 0 <= k < i ==> t[k] == s[k]
    ensures forall k :: i <= k < |t| ==> t[k] == s[k + 1]
  {
    s[..i] + s[i + 1..]
  }

  /** Removing at the first index of `x` takes out exactly one occurrence of `x`; in a list
      without duplicates no `x` is left and the list stays without duplicates. */
  lemma RemoveFirstOccurrence(s: seq<Id>, x: Id)
    requires x in s
    ensures var t := Splice(s, IndexOf(s, x));
            && multiset(t) == multiset(s) - multiset{x}
            && (NoDuplicates(s) ==> x !in t && NoDuplicates(t))
  {
    var i := IndexOf(s, x);
    SpliceMultiset(s, i);
    if NoDuplicates(s) {
      SpliceDropsOnlyCopy(s, i);
    }
  }

  /** Splicing out position `i` removes exactly one copy of `s[i]`. */
  lemma SpliceMultiset(s: seq<Id>, i: nat)
    requires i < |s|
    ensures multiset(Splice(s, i)) == multiset(s) - multiset{s[i]}
  {
    assert s == s[..i] + [s[i]] + s[i + 1..];
    calc {
      multiset(s);
      multiset(s[..i]) + multiset{s[i]} + multiset(s[i + 1..]);
      multiset(Splice(s, i)) + multiset{s[i]};
    }
  }

  /** In a list without duplicates, splicing out position `i` leaves no copy of `s[i]`. */
  lemma SpliceDropsOnlyCopy(s: seq<Id>, i: nat)
    requires i < |s| && NoDuplicates(s)
    ensures s[i] !in Splice(s, i) && NoDuplicates(Splice(s, i))
  {
    var t := Splice(s, i);
    forall k | 0 <= k < |t| ensures t[k] != s[i] {
      if k < i {
        assert t[k] == s[k];
      } else {
        assert t[k] == s[k + 1];
      }
    }
  }

  /** `push` of an id not yet listed adds it exactly once and keeps the list without
      duplicates. */
  lemma PushOnce(s: seq<Id>, x: Id)
    requires NoDuplicates(s) && x !in s
    ensures NoDuplicates(s + [x])
    ensures multiset(s + [x])[x] == 1
    ensures multiset(s + [x]) == multiset(s) + multiset{x}
  {
    assert multiset(s)[x] == 0;
  }

  // ---------------------------------------------------------------------------------------
  // The staffing relation under each change

  /** Letting a pump's manager go keeps the store valid, and afterwards no employed manager
      is at that pump. */
  lemma ReleaseKeepsValid(employees: map<Id, Employee>, pumps: map<Id, Pump>, pumpId: Id)
    requires EmployeesValid(employees) && StaffingValid(employees, pumps) && pumpId in pumps
    requires pumps[pumpId].manager.Some? ==> pumps[pumpId].manager.value in employees
    ensures var m := AfterRelease(employees, pumps[pumpId].manager);
            && EmployeesValid(m) && StaffingValid(m, pumps)
            && forall id :: id in m && m[id].isEmployed && m[id].role == Manager ==>
                 m[id].pumpId != Some(pumpId)
  {
    var m := AfterRelease(employees, pumps[pumpId].manager);
    var manager := pumps[pumpId].manager;
    if manager.Some? {
      SaveEmployeeKeepsContactsValid(employees, manager.value, Released(employees[manager.value]));
    }
    forall id | id in m && m[id].isEmployed && m[id].role == Manager
      ensures m[id].pumpId != Some(pumpId)
    {
      assert employees[id] == m[id];
    }
  }

  /** Appointing a verified, unemployed manager to a pump with no employed manager keeps the
      store valid. */
  lemma AppointKeepsValid(employees: map<Id, Employee>, pumps: map<Id, Pump>, pumpId: Id, id: Id)
    requires EmployeesValid(employees) && StaffingValid(employees, pumps)
    requires pumpId in pumps && id in employees
    requires employees[id].isVerified && !employees[id].isEmployed && employees[id].role == Manager
    requires forall j :: j in employees && employees[j].isEmployed && employees[j].role == Manager ==>
               employees[j].pumpId != Some(pumpId)
    ensures var employees' := employees[id := Hired(employees[id], pumpId)];
            var pumps' := pumps[pumpId := pumps[pumpId].(manager := Some(id))];
            EmployeesValid(employees') && StaffingValid(employees', pumps')
  {
    SaveEmployeeKeepsContactsValid(employees, id, Hired(employees[id], pumpId));
  }

  /** Taking on a verified, unemployed refueler at a pump keeps the store valid. */
  lemma AddRefuelerKeepsValid(employees: map<Id, Employee>, pumps: map<Id, Pump>, pumpId: Id, id: Id)
    requires EmployeesValid(employees) && StaffingValid(employees, pumps)
    requires pumpId in pumps && id in employees
    requires employees[id].isVerified && !employees[id].isEmployed && employees[id].role == Refueler
    ensures var employees' := employees[id := Hired(employees[id], pumpId)];
            var pumps' := pumps[pumpId := pumps[pumpId].(employees := pumps[pumpId].employees + [id])];
            EmployeesValid(employees') && StaffingValid(employees', pumps')
  {
    SaveEmployeeKeepsContactsValid(employees, id, Hired(employees[id], pumpId));
    var list := pumps[pumpId].employees;
    assert forall k :: 0 <= k < |list| ==> list[k] != id;
    PushOnce(list, id);
  }

  /** Once a listed refueler is taken off its pump's list, no pump lists it: its pump listed
      it once, and no other pump lists an employee employed elsewhere. */
  lemma RemovedRefuelerUnlisted(employees: map<Id, Employee>, pumps: map<Id, Pump>, pumpId: Id, id: Id)
    requires StaffingValid(employees, pumps)
    requires pumpId in pumps && id in pumps[pumpId].employees
    ensures var list := pumps[pumpId].employees;
            var pumps' := pumps[pumpId := pumps[pumpId].(employees := Splice(list, IndexOf(list, id)))];
            forall p, k :: p in pumps' && 0 <= k < |pumps'[p].employees| ==> pumps'[p].employees[k] != id
  {
    var list := pumps[pumpId].employees;
    var i := IndexOf(list, id);
    RemoveFirstOccurrence(list, id);
    var pumps' := pumps[pumpId := pumps[pumpId].(employees := Splice(list, i))];
    forall p, k | p in pumps' && 0 <= k < |pumps'[p].employees|
      ensures pumps'[p].employees[k] != id
    {
      if p != pumpId {
        assert pumps'[p] == pumps[p];
        assert employees[pumps[p].employees[k]].pumpId == Some(p);
      } else {
        assert pumps'[p].employees[k] in Splice(list, i);
      }
    }
  }

  /** Letting go a refueler listed by a pump, and taking it off that pump's list, keeps the
      store valid. */
  lemma RemoveRefuelerKeepsValid(employees: map<Id, Employee>, pumps: map<Id, Pump>, pumpId: Id, id: Id)
    requires EmployeesValid(employees) && StaffingValid(employees, pumps)
    requires pumpId in pumps && id in pumps[pumpId].employees
    ensures id in employees
    ensures var list := pumps[pumpId].employees;
            var employees' := employees[id := Released(employees[id])];
            var pumps' := pumps[pumpId := pumps[pumpId].(employees := Splice(list, IndexOf(list, id)))];
            EmployeesValid(employees') && StaffingValid(employees', pumps')
  {
    var list := pumps[pumpId].employees;
    var t := Splice(list, IndexOf(list, id));
    var employees' := employees[id := Released(employees[id])];
    var pumps' := pumps[pumpId := pumps[pumpId].(employees := t)];
    assert list[IndexOf(list, id)] == id;
    SaveEmployeeKeepsContactsValid(employees, id, Released(employees[id]));
    RemoveFirstOccurrence(list, id);
    RemovedRefuelerUnlisted(employees, pumps, pumpId, id);
    SplicedListedAreRefuelers(employees, pumps, pumpId, id);
    SplicedEmployedAreStaffed(employees, pumps, pumpId, id);
  }

  /** After the removal, every id a pump lists is still a verified refueler employed there. */
  lemma SplicedListedAreRefuelers(employees: map<Id, Employee>, pumps: map<Id, Pump>, pumpId: Id, id: Id)
    requires StaffingValid(employees, pumps)
    requires pumpId in pumps && id in pumps[pumpId].employees
    ensures var list := pumps[pumpId].employees;
            var employees' := employees[id := Released(employees[id])];
            var pumps' := pumps[pumpId := pumps[pumpId].(employees := Splice(list, IndexOf(list, id)))];
            ListedAreRefuelers(employees', pumps')
  {
    var list := pumps[pumpId].employees;
    var t := Splice(list, IndexOf(list, id));
    var employees' := employees[id := Released(employees[id])];
    var pumps' := pumps[pumpId := pumps[pumpId].(employees := t)];
    RemoveFirstOccurrence(list, id);
    forall p, k | p in pumps' && 0 <= k < |pumps'[p].employees|
      ensures var x := pumps'[p].employees[k];
              x in employees' && employees'[x].isEmployed && employees'[x].pumpId == Some(p)
              && employees'[x].role == Refueler && employees'[x].isVerified
    {
      var x := pumps'[p].employees[k];
      if p == pumpId {
        assert x in multiset(t);
        assert x in list && x != id;
      } else {
        assert pumps'[p] == pumps[p];
        assert x != id;
      }
    }
  }

  /** After the removal, every employee still employed is still listed by, or managing, its
      pump. */
  lemma SplicedEmployedAreStaffed(employees: map<Id, Employee>, pumps: map<Id, Pump>, pumpId: Id, id: Id)
    requires StaffingValid(employees, pumps)
    requires pumpId in pumps && id in pumps[pumpId].employees
    ensures var list := pumps[pumpId].employees;
            var employees' := employees[id := Released(employees[id])];
            var pumps' := pumps[pumpId := pumps[pumpId].(employees := Splice(list, IndexOf(list, id)))];
            EmployedAreStaffed(employees', pumps')
  {
    var list := pumps[pumpId].employees;
    var t := Splice(list, IndexOf(list, id));
    var employees' := employees[id := Released(employees[id])];
    var pumps' := pumps[pumpId := pumps[pumpId].(employees := t)];
    RemoveFirstOccurrence(list, id);
    forall x {:trigger pumps'[employees'[x].pumpId.value]}
      | x in employees' && employees'[x].isEmployed && employees'[x].pumpId.Some?
        && employees'[x].pumpId.value in pumps'
      ensures var pump := pumps'[employees'[x].pumpId.value];
              if employees'[x].role == Refueler then x in pump.employees else pump.manager == Some(x)
    {
      assert x != id && employees'[x] == employees[x];
      var p := employees[x].pumpId.value;
      assert pumps[p] == pumps[employees[x].pumpId.value];
      if p == pumpId && employees[x].role == Refueler {
        assert multiset(list)[x] > 0;
        assert multiset(t)[x] == multiset(list)[x];
      }
    }
  }

  // ---------------------------------------------------------------------------------------
  // Handlers

  /** `addManagerToPump` (admin). Refusals, in order: no such pump (404); the pump names a
      manager that is not stored, whose release throws (500); then, with the previous manager
      already let go and saved: no employee with `managerEmail` (404), not verified (401),
      already employed (403), a refueler (403). Otherwise the employee becomes the pump's
      manager, employed at it. A refusal after the release keeps the release: the pump still
      names its previous manager, who is no longer employed. */
  method AddManagerToPump(db: Store, pumpId: Id, managerEmail: string)
    returns (r: Result<string, StaffError>)
    requires db.Valid()
    modifies db
    ensures db.Valid()
    ensures db.customers == old(db.customers) && db.transactions == old(db.transactions)
    ensures db.fundsTransfers == old(db.fundsTransfers) && db.topUps == old(db.topUps)
    ensures pumpId !in old(db.pumps) ==>
              r == Failure(PumpNotFound) && db.employees == old(db.employees) && db.pumps == old(db.pumps)
    ensures (pumpId in old(db.pumps) && old(db.pumps)[pumpId].manager.Some?
             && old(db.pumps)[pumpId].manager.value !in old(db.employees)) ==>
              r == Failure(ServerError) && db.employees == old(db.employees) && db.pumps == old(db.pumps)
    ensures (pumpId in old(db.pumps)
             && (old(db.pumps)[pumpId].manager.Some? ==> old(db.pumps)[pumpId].manager.value in old(db.employees))) ==>
              var released := AfterRelease(old(db.employees), old(db.pumps)[pumpId].manager);
              match EmployeeByEmail(released, managerEmail)
              case None =>
                r == Failure(ManagerNotFound) && db.employees == released && db.pumps == old(db.pumps)
              case Some(id) =>
                if !released[id].isVerified then
                  r == Failure(ManagerNotVerified) && db.employees == released && db.pumps == old(db.pumps)
                else if released[id].isEmployed then
                  r == Failure(AlreadyEmployed) && db.employees == released && db.pumps == old(db.pumps)
                else if released[id].role == Refueler then
                  r == Failure(RefuelerAsManager) && db.employees == released && db.pumps == old(db.pumps)
                else
                  && r == Success(released[id].name)
                  && db.employees == released[id := Hired(released[id], pumpId)]
                  && db.pumps == old(db.pumps)[pumpId := old(db.pumps)[pumpId].(manager := Some(id))]
    ensures (r.Failure? && pumpId in old(db.pumps) && old(db.pumps)[pumpId].manager.Some?
             && old(db.pumps)[pumpId].manager.value in old(db.employees)) ==>
              var previous := old(db.pumps)[pumpId].manager.value;
              db.pumps[pumpId].manager == Some(previous) && !db.employees[previous].isEmployed
  {
    if pumpId !in db.pumps {
      return Failure(PumpNotFound);
    }
    var pump := db.pumps[pumpId];
    if pump.manager.Some? {
      if pump.manager.value !in db.employees {
        return Failure(ServerError);
      }
      var oldManager := db.employees[pump.manager.value];
      oldManager := oldManager.(isEmployed := false, pumpId := None);
      ReleaseKeepsValid(db.employees, db.pumps, pumpId);
      db.employees := db.employees[pump.manager.value := oldManager];
    } else {
      ReleaseKeepsValid(db.employees, db.pumps, pumpId);
    }
    assert db.employees == AfterRelease(old(db.employees), pump.manager);
    var found := db.FindEmployeeByEmail(managerEmail);
    if found.None? {
      return Failure(ManagerNotFound);
    }
    var id := found.value;
    var manager := db.employees[id];
    if !manager.isVerified {
      return Failure(ManagerNotVerified);
    }
    if manager.isEmployed {
      return Failure(AlreadyEmployed);
    }
    if manager.role == Refueler {
      return Failure(RefuelerAsManager);
    }
    pump := pump.(manager := Some(id));
    manager := manager.(isEmployed := true, pumpId := Some(pumpId));
    AppointKeepsValid(db.employees, db.pumps, pumpId, id);
    db.employees := db.employees[id := manager];
    db.pumps := db.pumps[pumpId := pump];
    r := Success(manager.name);
  }

  /** `addEmployeeToPump` (admin). Refusals, in order: no such pump (404); no employee with
      `employeeEmail` (404); not verified (401); already employed (403); a manager (403).
      Otherwise the employee's id is appended to the pump's list, once, and the employee is
      employed at the pump; the answer is the saved pump. */
  method AddEmployeeToPump(db: Store, pumpId: Id, employeeEmail: string)
    returns (r: Result<Pump, StaffError>)
    requires db.Valid()
    modifies db
    ensures db.Valid()
    ensures db.customers == old(db.customers) && db.transactions == old(db.transactions)
    ensures db.fundsTransfers == old(db.fundsTransfers) && db.topUps == old(db.topUps)
    ensures r.Failure? ==> db.employees == old(db.employees) && db.pumps == old(db.pumps)
    ensures pumpId !in old(db.pumps) ==> r == Failure(PumpNotFound)
    ensures pumpId in old(db.pumps) ==>
              match EmployeeByEmail(old(db.employees), employeeEmail)
              case None => r == Failure(EmployeeNotFound)
              case Some(id) =>
                var e := old(db.employees)[id];
                if !e.isVerified then r == Failure(EmployeeNotVerified)
                else if e.isEmployed then r == Failure(AlreadyEmployed)
                else if e.role == Manager then r == Failure(ManagerAsRefueler)
                else
                  var pump := old(db.pumps)[pumpId].(employees := old(db.pumps)[pumpId].employees + [id]);
                  && r == Success(pump)
                  && id !in old(db.pumps)[pumpId].employees
                  && db.pumps == old(db.pumps)[pumpId := pump]
                  && db.employees == old(db.employees)[id := Hired(e, pumpId)]
  {
    if pumpId !in db.pumps {
      return Failure(PumpNotFound);
    }
    var pump := db.pumps[pumpId];
    var found := db.FindEmployeeByEmail(employeeEmail);
    if found.None? {
      return Failure(EmployeeNotFound);
    }
    var id := found.value;
    var employee := db.employees[id];
    if !employee.isVerified {
      return Failure(EmployeeNotVerified);
    }
    if employee.isEmployed {
      return Failure(AlreadyEmployed);
    }
    if employee.role == Manager {
      return Failure(ManagerAsRefueler);
    }
    AddRefuelerKeepsValid(db.employees, db.pumps, pumpId, id);
    pump := pump.(employees := pump.employees + [id]);
    employee := employee.(isEmployed := true, pumpId := Some(pumpId));
    db.pumps := db.pumps[pumpId := pump];
    db.employees := db.employees[id := employee];
    r := Success(pump);
  }

  /** `removeEmployeeFromPump` (admin). Refusals, in order: no such pump (404); no employee
      with `employeeEmail` (404); the employee is not in the pump's list (404). Otherwise its
      first occurrence is spliced out of the list and the employee is let go; the answer is
      the saved pump. */
  method RemoveEmployeeFromPump(db: Store, pumpId: Id, employeeEmail: string)
    returns (r: Result<Pump, StaffError>)
    requires db.Valid()
    modifies db
    ensures db.Valid()
    ensures db.customers == old(db.customers) && db.transactions == old(db.transactions)
    ensures db.fundsTransfers == old(db.fundsTransfers) && db.topUps == old(db.topUps)
    ensures r.Failure? ==> db.employees == old(db.employees) && db.pumps == old(db.pumps)
    ensures pumpId !in old(db.pumps) ==> r == Failure(PumpNotFound)
    ensures pumpId in old(db.pumps) ==>
              match EmployeeByEmail(old(db.employees), employeeEmail)
              case None => r == Failure(EmployeeNotFound)
              case Some(id) =>
                var list := old(db.pumps)[pumpId].employees;
                if IndexOf(list, id) == -1 then r == Failure(NotInPump)
                else
                  var pump := old(db.pumps)[pumpId].(employees := Splice(list, IndexOf(list, id)));
                  && r == Success(pump)
                  && db.pumps == old(db.pumps)[pumpId := pump]
                  && db.employees == old(db.employees)[id := Released(old(db.employees)[id])]
  {
    if pumpId !in db.pumps {
      return Failure(PumpNotFound);
    }
    var pump := db.pumps[pumpId];
    var found := db.FindEmployeeByEmail(employeeEmail);
    if found.None? {
      return Failure(EmployeeNotFound);
    }
    var id := found.value;
    var employee := db.employees[id];
    var index := IndexOf(pump.employees, id);
    if index == -1 {
      return Failure(NotInPump);
    }
    RemoveRefuelerKeepsValid(db.employees, db.pumps, pumpId, id);
    pump := pump.(employees := Splice(pump.employees, index));
    employee := employee.(isEmployed := false, pumpId := None);
    db.pumps := db.pumps[pumpId := pump];
    db.employees := db.employees[id := employee];
    r := Success(pump);
  }

  /** `addEmployeeToPumpByManager`: the caller is an employee the route guard admitted.
      Refusals, in order: the caller is not employed (403); the caller is a refueler (403);
      `employeeEmail` is the caller's own (403), checked before the lookup's result; no such
      employee (404); not verified (401); a manager (403); already employed (403), the last
      two in the reverse order of `addEmployeeToPump`; no pump at the caller's `pumpId` (404).
      Otherwise the employee is added to the caller's pump as `addEmployeeToPump` does. */
  method AddEmployeeToPumpByManager(db: Store, managerId: Id, employeeEmail: string)
    returns (r: Result<(), StaffError>)
    requires db.Valid() && EmployeeRouteAdmits(db, managerId)
    modifies db
    ensures db.Valid()
    ensures db.customers == old(db.customers) && db.transactions == old(db.transactions)
    ensures db.fundsTransfers == old(db.fundsTransfers) && db.topUps == old(db.topUps)
    ensures r.Failure? ==> db.employees == old(db.employees) && db.pumps == old(db.pumps)
    ensures var caller := old(db.employees)[managerId];
            if !caller.isEmployed then r == Failure(CallerNotEmployed)
            else if caller.role == Refueler then r == Failure(CallerIsRefueler)
            else if caller.email == employeeEmail then r == Failure(SelfAssignment)
            else match EmployeeByEmail(old(db.employees), employeeEmail)
              case None => r == Failure(EmployeeNotFound)
              case Some(id) =>
                var e := old(db.employees)[id];
                if !e.isVerified then r == Failure(EmployeeNotVerified)
                else if e.role == Manager then r == Failure(ManagerAsRefueler)
                else if e.isEmployed then r == Failure(AlreadyEmployed)
                else if caller.pumpId.None? || caller.pumpId.value !in old(db.pumps) then
                  r == Failure(PumpNotFound)
                else
                  var pumpId := caller.pumpId.value;
                  && r == Success(())
                  && db.pumps == old(db.pumps)[pumpId := old(db.pumps)[pumpId].(employees := old(db.pumps)[pumpId].employees + [id])]
                  && db.employees == old(db.employees)[id := Hired(e, pumpId)]
  {
    var manager := db.employees[managerId];
    if !manager.isEmployed {
      return Failure(CallerNotEmployed);
    }
    if manager.role == Refueler {
      return Failure(CallerIsRefueler);
    }
    var found := db.FindEmployeeByEmail(employeeEmail);
    if manager.email == employeeEmail {
      return Failure(SelfAssignment);
    }
    if found.None? {
      return Failure(EmployeeNotFound);
    }
    var id := found.value;
    var employee := db.employees[id];
    if !employee.isVerified {
      return Failure(EmployeeNotVerified);
    }
    if employee.role == Manager {
      return Failure(ManagerAsRefueler);
    }
    if employee.isEmployed {
      return Failure(AlreadyEmployed);
    }
    if manager.pumpId.None? || manager.pumpId.value !in db.pumps {
      return Failure(PumpNotFound);
    }
    var pumpId := manager.pumpId.value;
    var pump := db.pumps[pumpId];
    AddRefuelerKeepsValid(db.employees, db.pumps, pumpId, id);
    pump := pump.(employees := pump.employees + [id]);
    employee := employee.(isEmployed := true, pumpId := Some(pumpId));
    db.pumps := db.pumps[pumpId := pump];
    db.employees := db.employees[id := employee];
    r := Success(());
  }
}
