/** The inventory tables, and what each inventory transaction does to them when it runs on
    its own: the statements of internal/domain/inventory/repository.go with the CHECK and
    UNIQUE constraints of the schema. */
module InventoryDb {
  import opened Common
  import opened Statuses

  datatype Item = Item(onHand: int, reserved: int)

  /** A reservation row with its item rows. */
  datatype Reservation = Reservation(id: Id, order: Id, status: ReservationStatus, items: map<string, int>)

  datatype Db = Db(stock: map<string, Item>, rows: seq<Reservation>)

  datatype Outcome =
    | Ok
    | InsufficientStock(short: set<string>)
    | Duplicate
    | NotFound
    | AlreadySettled(status: ReservationStatus)
    | ConstraintViolated

  datatype Op =
    | Reserve(id: Id, order: Id, demand: map<string, int>)
    | Settle(id: Id, status: ReservationStatus)
    | SettleByOrder(order: Id, status: ReservationStatus)
    | Replenish(sku: string, quantity: int)

  /** The CHECK constraints and the INT columns of the inventory table. */
  predicate Fits(item: Item) {
    0 <= item.reserved <= item.onHand <= MAX_INT32
  }

  /** What a quantity does to a stock row: taken into a reservation, sold, or given back. */
  datatype Movement = Take | Sell | GiveBack

  function Moved(item: Item, how: Movement, quantity: int): Item {
    match how
    case Take => Item(item.onHand, item.reserved + quantity)
    case Sell => Item(item.onHand - quantity, item.reserved - quantity)
    case GiveBack => Item(item.onHand, item.reserved - quantity)
  }

  function MoveAll(stock: map<string, Item>, how: Movement, items: map<string, int>): map<string, Item> {
    map s | s in stock :: if s in items then Moved(stock[s], how, items[s]) else stock[s]
  }

  predicate AllFit(stock: map<string, Item>, how: Movement, items: map<string, int>) {
    forall s :: s in items ==> s in stock && Fits(Moved(stock[s], how, items[s]))
  }

  function Shortage(stock: map<string, Item>, demand: map<string, int>): set<string> {
    set s | s in demand && (s !in stock || stock[s].onHand - stock[s].reserved < demand[s])
  }

  /** The position of the row with this id, or -1. */
  function Find(rows: seq<Reservation>, id: Id): (i: int)
    ensures -1 <= i < |rows|
    ensures i >= 0 ==> rows[i].id == id
    ensures i < 0 ==> forall k :: 0 <= k < |rows| ==> rows[k].id != id
  {
    if rows == [] then -1
    else if rows[|rows| - 1].id == id then |rows| - 1
    else Find(rows[..|rows| - 1], id)
  }

  function FindOrder(rows: seq<Reservation>, order: Id): (i: int)
    ensures -1 <= i < |rows|
    ensures i >= 0 ==> rows[i].order == order
    ensures i < 0 ==> forall k :: 0 <= k < |rows| ==> rows[k].order != order
  {
    if rows == [] then -1
    else if rows[|rows| - 1].order == order then |rows| - 1
    else FindOrder(rows[..|rows| - 1], order)
  }

  // ---- whole transactions --------------------------------------------------------------

  predicate ItemRowsFit(items: map<string, int>) {
    forall s :: s in items ==> 0 < items[s] <= MAX_INT32
  }

  function ExecReserve(db: Db, id: Id, order: Id, demand: map<string, int>): (Db, Outcome) {
    if Shortage(db.stock, demand) != {} then (db, InsufficientStock(Shortage(db.stock, demand)))
    else if !AllFit(db.stock, Take, demand) then (db, ConstraintViolated)
    else if Find(db.rows, id) >= 0 || FindOrder(db.rows, order) >= 0 then (db, Duplicate)
    else if !ItemRowsFit(demand) then (db, ConstraintViolated)
    else (Db(MoveAll(db.stock, Take, demand), db.rows + [Reservation(id, order, Held, demand)]), Ok)
  }

  function HowTo(status: ReservationStatus): Movement {
    if status.Committed? then Sell else GiveBack
  }

  function ExecSettle(db: Db, i: int, status: ReservationStatus): (Db, Outcome)
    requires -1 <= i < |db.rows|
  {
    if i < 0 then (db, NotFound)
    else if db.rows[i].status == status then (db, Ok)
    else if !db.rows[i].status.Held? then (db, AlreadySettled(db.rows[i].status))
    else if !AllFit(db.stock, HowTo(status), db.rows[i].items) then (db, ConstraintViolated)
    else (Db(MoveAll(db.stock, HowTo(status), db.rows[i].items),
             db.rows[i := db.rows[i].(status := status)]), Ok)
  }

  function ExecReplenish(db: Db, sku: string, quantity: int): (Db, Outcome) {
    var item := if sku in db.stock then Item(db.stock[sku].onHand + quantity, db.stock[sku].reserved)
                else Item(quantity, 0);
    if Fits(item) then (db.(stock := db.stock[sku := item]), Ok) else (db, ConstraintViolated)
  }

  function Exec(db: Db, op: Op): (Db, Outcome) {
    match op
    case Reserve(id, order, demand) => ExecReserve(db, id, order, demand)
    case Settle(id, status) => ExecSettle(db, Find(db.rows, id), status)
    case SettleByOrder(order, status) => ExecSettle(db, FindOrder(db.rows, order), status)
    case Replenish(sku, quantity) => ExecReplenish(db, sku, quantity)
  }

  /** A request the service lets through to the database. */
  predicate Sensible(op: Op) {
    match op
    case Settle(_, status) => !status.Held?
    case SettleByOrder(_, status) => !status.Held?
    case Replenish(_, quantity) => quantity > 0
    case Reserve(_, _, _) => true
  }

  // ---- conservation --------------------------------------------------------------------

  function Quantity(r: Reservation, status: ReservationStatus, sku: string): int {
    if r.status == status && sku in r.items then r.items[sku] else 0
  }

  /** How much of `sku` the reservations in `status` account for. */
  function Total(rows: seq<Reservation>, status: ReservationStatus, sku: string): int {
    if rows == [] then 0
    else Total(rows[..|rows| - 1], status, sku) + Quantity(rows[|rows| - 1], status, sku)
  }

  ghost predicate Unique(rows: seq<Reservation>) {
    forall i, j :: 0 <= i < j < |rows| ==> rows[i].id != rows[j].id && rows[i].order != rows[j].order
  }

  /** Nothing is lost and nothing is sold twice. `added` is what was ever replenished. */
  ghost predicate Conserved(db: Db, added: map<string, int>) {
    && Unique(db.rows)
    && added.Keys == db.stock.Keys
    && (forall i :: 0 <= i < |db.rows| ==> ItemRowsFit(db.rows[i].items) && db.rows[i].items.Keys <= db.stock.Keys)
    && (forall s :: s in db.stock ==>
          && Fits(db.stock[s])
          && db.stock[s].reserved == Total(db.rows, Held, s)
          && added[s] == db.stock[s].onHand + Total(db.rows, Committed, s))
  }

  function Added(db: Db, added: map<string, int>, op: Op): map<string, int> {
    if op.Replenish? && Exec(db, op).1.Ok?
    then added[op.sku := (if op.sku in added then added[op.sku] else 0) + op.quantity] else added
  }

  lemma {:induction false} TotalOfUpdate(
      rows: seq<Reservation>, i: nat, r: Reservation, status: ReservationStatus, sku: string)
    requires i < |rows|
    ensures Total(rows[i := r], status, sku)
            == Total(rows, status, sku) - Quantity(rows[i], status, sku) + Quantity(r, status, sku)
  {
    if i == |rows| - 1 {
      assert rows[i := r][..i] == rows[..i];
    } else {
      assert rows[i := r][..|rows| - 1] == rows[..|rows| - 1][i := r];
      TotalOfUpdate(rows[..|rows| - 1], i, r, status, sku);
    }
  }

  lemma {:induction false} TotalOfUnknown(rows: seq<Reservation>, status: ReservationStatus, sku: string)
    requires forall i :: 0 <= i < |rows| ==> sku !in rows[i].items
    ensures Total(rows, status, sku) == 0
  {
    if rows != [] { TotalOfUnknown(rows[..|rows| - 1], status, sku); }
  }

  lemma {:induction false} TotalIsAtLeast(rows: seq<Reservation>, i: nat, status: ReservationStatus, sku: string)
    requires i < |rows| && forall k :: 0 <= k < |rows| ==> ItemRowsFit(rows[k].items)
    ensures Total(rows, status, sku) >= Quantity(rows[i], status, sku) >= 0
  {
    var front := rows[..|rows| - 1];
    if i == |rows| - 1 {
      if front != [] { TotalIsAtLeast(front, 0, status, sku); }
    } else {
      TotalIsAtLeast(front, i, status, sku);
    }
  }

  lemma ReserveKeepsConserved(db: Db, added: map<string, int>, id: Id, order: Id, demand: map<string, int>)
    requires Conserved(db, added)
    ensures Conserved(ExecReserve(db, id, order, demand).0, added)
  {
    if ExecReserve(db, id, order, demand).1.Ok? {
      var r := Reservation(id, order, Held, demand);
      forall s ensures Total(db.rows + [r], Held, s) == Total(db.rows, Held, s) + if s in demand then demand[s] else 0
               ensures Total(db.rows + [r], Committed, s) == Total(db.rows, Committed, s) {
        TotalOfOneMore(db.rows, r, Held, s);
        TotalOfOneMore(db.rows, r, Committed, s);
      }
      hide Total, Find, FindOrder;
    }
  }

  lemma TotalOfOneMore(rows: seq<Reservation>, r: Reservation, status: ReservationStatus, sku: string)
    ensures Total(rows + [r], status, sku) == Total(rows, status, sku) + Quantity(r, status, sku)
  {
    assert (rows + [r])[..|rows|] == rows;
  }

  lemma SettleKeepsConserved(db: Db, added: map<string, int>, i: int, status: ReservationStatus)
    requires Conserved(db, added) && -1 <= i < |db.rows| && !status.Held?
    ensures Conserved(ExecSettle(db, i, status).0, added)
    ensures !ExecSettle(db, i, status).1.ConstraintViolated?
  {
    if i >= 0 && db.rows[i].status.Held? {
      var r := db.rows[i];
      forall s | s in db.stock
        ensures Total(db.rows[i := r.(status := status)], Held, s) == Total(db.rows, Held, s) - Quantity(r, Held, s)
        ensures Total(db.rows[i := r.(status := status)], Committed, s)
                == Total(db.rows, Committed, s) + if status.Committed? then Quantity(r, Held, s) else 0
        ensures Total(db.rows, Held, s) >= Quantity(r, Held, s) >= 0
      {
        TotalOfUpdate(db.rows, i, r.(status := status), Held, s);
        TotalOfUpdate(db.rows, i, r.(status := status), Committed, s);
        TotalIsAtLeast(db.rows, i, Held, s);
      }
    }
  }

  lemma ReplenishKeepsConserved(db: Db, added: map<string, int>, sku: string, quantity: int)
    requires Conserved(db, added) && quantity > 0
    ensures Conserved(ExecReplenish(db, sku, quantity).0, Added(db, added, Replenish(sku, quantity)))
  {
    if sku !in db.stock {
      TotalOfUnknown(db.rows, Held, sku);
      TotalOfUnknown(db.rows, Committed, sku);
    }
  }

  /** Every transaction conserves stock. */
  lemma ExecKeepsConserved(db: Db, added: map<string, int>, op: Op)
    requires Conserved(db, added) && Sensible(op)
    ensures Conserved(Exec(db, op).0, Added(db, added, op))
  {
    match op
    case Reserve(id, order, demand) => ReserveKeepsConserved(db, added, id, order, demand);
    case Settle(id, status) => SettleKeepsConserved(db, added, Find(db.rows, id), status);
    case SettleByOrder(order, status) => SettleKeepsConserved(db, added, FindOrder(db.rows, order), status);
    case Replenish(sku, quantity) => ReplenishKeepsConserved(db, added, sku, quantity);
  }

  /** The operations one after the other. */
  function ExecAll(db: Db, ops: seq<Op>): Db {
    if ops == [] then db else Exec(ExecAll(db, ops[..|ops| - 1]), ops[|ops| - 1]).0
  }

  /** The row that `id` finds is settled. */
  predicate SettledAs(db: Db, id: Id, status: ReservationStatus) {
    var i := Find(db.rows, id);
    i >= 0 && db.rows[i].status == status && !status.Held?
  }

  lemma SettledStays(db: Db, id: Id, status: ReservationStatus, op: Op)
    requires SettledAs(db, id, status)
    ensures SettledAs(Exec(db, op).0, id, status)
  {
    var rows := Exec(db, op).0.rows;
    if |rows| > |db.rows| {
      assert rows[..|db.rows|] == db.rows;
    } else {
      SameFind(db.rows, rows, id);
    }
  }

  /** A commit or a release that is asked for again succeeds and changes nothing; the opposite
      one is refused; for ever, whatever happens in between. */
  lemma {:induction false} SettlingIsFinal(
      db: Db, id: Id, status: ReservationStatus, other: ReservationStatus, ops: seq<Op>)
    requires !status.Held? && !other.Held? && other != status
    requires Exec(db, Settle(id, status)).1.Ok?
    ensures var later := ExecAll(Exec(db, Settle(id, status)).0, ops);
            && Exec(later, Settle(id, status)) == (later, Ok)
            && Exec(later, Settle(id, other)) == (later, AlreadySettled(status))
            && SettledAs(later, id, status)
  {
    if ops == [] {
      SameFind(db.rows, Exec(db, Settle(id, status)).0.rows, id);
    } else {
      SettlingIsFinal(db, id, status, other, ops[..|ops| - 1]);
      SettledStays(ExecAll(Exec(db, Settle(id, status)).0, ops[..|ops| - 1]), id, status, ops[|ops| - 1]);
    }
  }

  lemma {:induction false} SameFind(rows: seq<Reservation>, rows': seq<Reservation>, id: Id)
    requires |rows| == |rows'| && forall i :: 0 <= i < |rows| ==> rows[i].id == rows'[i].id
    ensures Find(rows, id) == Find(rows', id)
  {
    if rows != [] { SameFind(rows[..|rows| - 1], rows'[..|rows'| - 1], id); }
  }
}
