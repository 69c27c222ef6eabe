/** Sums of value held across a collection, used to state conservation of balance and points
    by the value-moving handlers. */
module Ledger {
  import opened Records

  /** The sum of the values of a finite map. */
  ghost function Total(m: map<Id, int>): int
    decreases |m|
  {
    if m == map[] then 0
    else
      var k :| k in m;
      m[k] + Total(m - {k})
  }

  /** The sum does not depend on which key is taken out first. */
  lemma {:induction false} TotalRemove(m: map<Id, int>, k: Id)
    requires k in m
    ensures Total(m) == m[k] + Total(m - {k})
    decreases |m|
  {
    var j :| j in m && Total(m) == m[j] + Total(m - {j});
    if j != k {
      var mj, mk := m - {j}, m - {k};
      assert |mj| < |m| && |mk| < |m| by {
        assert mj.Keys < m.Keys && mk.Keys < m.Keys;
      }
      TotalRemove(mj, k);
      TotalRemove(mk, j);
      assert mj - {k} == mk - {j};
    }
  }

  /** Replacing one value changes the sum by the difference. */
  lemma TotalUpdate(m: map<Id, int>, k: Id, v: int)
    requires k in m
    ensures Total(m[k := v]) == Total(m) - m[k] + v
  {
    var m' := m[k := v];
    TotalRemove(m, k);
    TotalRemove(m', k);
    assert m' - {k} == m - {k};
  }

  /** How much of `entity` a customer holds: its `balance` or its `points`. */
  function Held(c: Customer, entity: Entity): int {
    match entity
    case Balance => c.balance
    case Points => c.points
  }

  /** What every customer holds of `entity`. */
  function Holdings(m: map<Id, Customer>, entity: Entity): (h: map<Id, int>)
    ensures h.Keys == m.Keys
    ensures forall id :: id in m ==> h[id] == Held(m[id], entity)
  {
    map id | id in m :: Held(m[id], entity)
  }

  /** The balance of every pump. */
  function PumpBalances(m: map<Id, Pump>): (h: map<Id, int>)
    ensures h.Keys == m.Keys
    ensures forall id :: id in m ==> h[id] == m[id].balance
  {
    map id | id in m :: m[id].balance
  }

  /** All of `entity` held by customers. */
  ghost function CustomerTotal(m: map<Id, Customer>, entity: Entity): int {
    Total(Holdings(m, entity))
  }

  /** All balance held by pumps. */
  ghost function PumpTotal(m: map<Id, Pump>): int {
    Total(PumpBalances(m))
  }

  /** Saving one customer record changes the customers' total of `entity` by the change in
      what that customer holds. */
  lemma CustomerTotalUpdate(m: map<Id, Customer>, id: Id, c: Customer, entity: Entity)
    requires id in m
    ensures CustomerTotal(m[id := c], entity)
            == CustomerTotal(m, entity) - Held(m[id], entity) + Held(c, entity)
  {
    assert Holdings(m[id := c], entity) == Holdings(m, entity)[id := Held(c, entity)];
    TotalUpdate(Holdings(m, entity), id, Held(c, entity));
  }

  /** Saving one pump record changes the pumps' total by the change in its balance. */
  lemma PumpTotalUpdate(m: map<Id, Pump>, id: Id, p: Pump)
    requires id in m
    ensures PumpTotal(m[id := p]) == PumpTotal(m) - m[id].balance + p.balance
  {
    assert PumpBalances(m[id := p]) == PumpBalances(m)[id := p.balance];
    TotalUpdate(PumpBalances(m), id, p.balance);
  }
}
