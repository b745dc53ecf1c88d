/** What the inventory does in plain words: when a settlement or a delivery is accepted and what
    it changes, and which lines of a request are at fault. */
module InventoryOutcomes {
  import opened Common
  import opened Statuses
  import Text
  import opened InventoryDb
  import Service = InventoryService

  function QuantityOf(items: map<string, int>, sku: string): int {
    if sku in items then items[sku] else 0
  }

  /** The reservation in row i is settled: its goods are no longer reserved, and sold goods have
      left the shelf. */
  predicate SettledInFull(db: Db, db': Db, i: nat, status: ReservationStatus)
    requires i < |db.rows|
  {
    var r := db.rows[i];
    && |db'.rows| == |db.rows| && db'.stock.Keys == db.stock.Keys
    && (forall k :: 0 <= k < |db.rows| ==> db'.rows[k] == if k == i then r.(status := status) else db.rows[k])
    && (forall s :: s in db.stock ==>
          && db'.stock[s].reserved == db.stock[s].reserved - QuantityOf(r.items, s)
          && db'.stock[s].onHand == db.stock[s].onHand - if status.Committed? then QuantityOf(r.items, s) else 0)
  }

  lemma FindsRow(rows: seq<Reservation>, i: nat)
    requires Unique(rows) && i < |rows|
    ensures Find(rows, rows[i].id) == i && FindOrder(rows, rows[i].order) == i
  {
    var (k, l) := (Find(rows, rows[i].id), FindOrder(rows, rows[i].order));
    assert 0 <= k && rows[k].id == rows[i].id;
    assert 0 <= l && rows[l].order == rows[i].order;
    hide Find, FindOrder;
  }

  /** Committing or releasing a reservation, asked for by its id or by its order: a held one is
      settled in full, always; one settled the same way is left as it is, with success; one
      settled the other way is left as it is, and the reply says which. */
  lemma {:induction false} SettlingIsExact(db: Db, added: map<string, int>, op: Op, i: nat, status: ReservationStatus)
    requires Conserved(db, added) && i < |db.rows| && !status.Held?
    requires op in {Settle(db.rows[i].id, status), SettleByOrder(db.rows[i].order, status)}
    ensures var (db', outcome) := Exec(db, op);
            if db.rows[i].status.Held? then outcome == Ok && SettledInFull(db, db', i, status)
            else db' == db && outcome == if db.rows[i].status == status then Ok
                                         else AlreadySettled(db.rows[i].status)
  {
    FindsRow(db.rows, i);
    HeldIsSettled(db, added, i, status);
    hide Find, FindOrder, Conserved, AllFit, SettledInFull;
  }

  lemma HeldIsSettled(db: Db, added: map<string, int>, i: nat, status: ReservationStatus)
    requires Conserved(db, added) && i < |db.rows| && !status.Held?
    ensures var (db', outcome) := ExecSettle(db, i, status);
            db.rows[i].status.Held? ==> outcome == Ok && SettledInFull(db, db', i, status)
  {
    SettleKeepsConserved(db, added, i, status);
    hide Conserved, AllFit;
  }

  /** Nothing is found where there is no such reservation, and nothing happens. */
  lemma {:induction false} SettlingUnknown(db: Db, op: Op)
    requires match op
             case Settle(id, _) => forall k :: 0 <= k < |db.rows| ==> db.rows[k].id != id
             case SettleByOrder(order, _) => forall k :: 0 <= k < |db.rows| ==> db.rows[k].order != order
             case _ => false
    ensures Exec(db, op) == (db, NotFound)
  {
    match op
    case Settle(id, _) => assert Find(db.rows, id) < 0;
    case SettleByOrder(order, _) => assert FindOrder(db.rows, order) < 0;
  }

  /** A delivery of new goods is accepted exactly when the stock still fits its column, also for a
      SKU that is there already, and adds to what is on the shelf and to nothing else. */
  lemma {:induction false} DeliveryIsExact(db: Db, added: map<string, int>, sku: string, quantity: int)
    requires Conserved(db, added) && quantity > 0
    ensures var (db', outcome) := Exec(db, Replenish(sku, quantity));
            var (had, reserved) := if sku in db.stock then (db.stock[sku].onHand, db.stock[sku].reserved) else (0, 0);
            if had + quantity <= MAX_INT32 then
              && outcome == Ok && db'.rows == db.rows && db'.stock.Keys == db.stock.Keys + {sku}
              && db'.stock[sku].onHand == had + quantity && db'.stock[sku].reserved == reserved
              && forall s :: s in db.stock && s != sku ==> db'.stock[s] == db.stock[s]
            else db' == db && outcome == ConstraintViolated
  {
    hide Total, Unique;
  }

  // ---- the lines of a request ------------------------------------------------------------

  predicate AllSpace(s: string) {
    forall k :: 0 <= k < |s| ==> Text.IsSpace(s[k])
  }

  /** The service has nothing against a line that names something and asks for some of it; white
      space around the name does no harm. */
  predicate Sound(line: Service.Line) {
    !AllSpace(line.sku) && line.quantity > 0
  }

  /** The line at k is the first one at fault. */
  predicate FirstAtFault(items: seq<Service.Line>, k: nat) {
    k < |items| && !Sound(items[k]) && forall j :: 0 <= j < k ==> Sound(items[j])
  }

  /** The first line at fault decides the reply, and a blank name comes before a bad quantity;
      there is no fault exactly if every line is sound. */
  lemma {:induction false} FaultIsExact(items: seq<Service.Line>)
    ensures Service.Fault(items).None? <==> forall k :: 0 <= k < |items| ==> Sound(items[k])
    ensures forall k: nat :: FirstAtFault(items, k) ==>
              Service.Fault(items) == Some(if AllSpace(items[k].sku) then Service.EmptySku else Service.InvalidQuantity)
  {
    hide Text.IsSpace, Text.TrimSpace;
    if items != [] {
      var front := items[..|items| - 1];
      FaultIsExact(front);
      forall k: nat | FirstAtFault(items, k)
        ensures Service.Fault(items)
             == Some(if AllSpace(items[k].sku) then Service.EmptySku else Service.InvalidQuantity)
      {
        if k < |front| { assert FirstAtFault(front, k); }
      }
      assert forall k :: 0 <= k < |front| ==> items[k] == front[k];
    }
  }
}
