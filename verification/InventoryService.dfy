/** The inventory service: its loops over request lines and rows, its transactions that
    roll back, and what they amount to. */
module InventoryService {
  import opened Common
  import opened Statuses
  import opened Text
  import opened InventoryDb

  datatype Line = Line(sku: string, quantity: int)

  datatype Error =
    | InvalidOrderId | EmptyItems | EmptySku | InvalidQuantity
    | Refused(outcome: Outcome, failedSkus: seq<string>)

  datatype Result = Reserved(id: Id, items: seq<Line>) | Failed(error: Error)

  function Get(m: map<string, int>, sku: string): int {
    if sku in m then m[sku] else 0
  }

  /** The first thing wrong with the lines, in the order the service looks at them. */
  function Fault(items: seq<Line>): Option<Error> {
    if items == [] then None
    else if Fault(items[..|items| - 1]).Some? then Fault(items[..|items| - 1])
    else
      var last := items[|items| - 1];
      if TrimSpace(last.sku) == "" then Some(EmptySku)
      else if last.quantity <= 0 then Some(InvalidQuantity)
      else None
  }

  /** The quantities summed per trimmed SKU, as the machine adds them. */
  function Consolidated(items: seq<Line>): map<string, int> {
    if items == [] then map[]
    else
      var m := Consolidated(items[..|items| - 1]);
      var sku := TrimSpace(items[|items| - 1].sku);
      m[sku := Wrap64(Get(m, sku) + items[|items| - 1].quantity)]
  }

  /** The quantity that the lines really ask for. */
  function Asked(items: seq<Line>, sku: string): int {
    if items == [] then 0
    else Asked(items[..|items| - 1], sku)
         + if TrimSpace(items[|items| - 1].sku) == sku then items[|items| - 1].quantity else 0
  }

  function LinesOf(skus: seq<string>, demand: map<string, int>): (lines: seq<Line>)
    requires forall s :: s in skus ==> s in demand
    ensures |lines| == |skus|
    ensures forall k :: 0 <= k < |skus| ==> lines[k] == Line(skus[k], demand[skus[k]])
  {
    seq(|skus|, i requires 0 <= i < |skus| => Line(skus[i], demand[skus[i]]))
  }

  /** What ReserveStock replies, in terms of the request and of the tables it found. */
  function ReserveReply(db: Db, order: Id, items: seq<Line>, id: Id): Result {
    if order == NIL_ID then Failed(InvalidOrderId)
    else if items == [] then Failed(EmptyItems)
    else if Fault(items).Some? then Failed(Fault(items).value)
    else
      var demand := Consolidated(items);
      var outcome := Exec(db, Reserve(id, order, demand)).1;
      if outcome.Ok? then Reserved(id, LinesOf(Sorted(demand.Keys), demand))
      else Failed(Refused(outcome, if outcome.InsufficientStock? then Sorted(outcome.short) else []))
  }

  class Service {
    var stock: map<string, Item>
    var rows: seq<Reservation>

    function Tables(): Db
      reads this
    {
      Db(stock, rows)
    }

    constructor ()
      ensures Tables() == Db(map[], [])
    {
      stock, rows := map[], [];
    }

    method ReplenishStock(sku: string, quantity: int) returns (error: Option<Error>)
      modifies this
      ensures quantity <= 0 ==> error == Some(InvalidQuantity) && Tables() == old(Tables())
      ensures quantity > 0 && TrimSpace(sku) == "" ==> error == Some(EmptySku) && Tables() == old(Tables())
      ensures quantity > 0 && TrimSpace(sku) != "" ==>
                var (db, outcome) := Exec(old(Tables()), Replenish(TrimSpace(sku), quantity));
                Tables() == db && error == if outcome.Ok? then None else Some(Refused(outcome, []))
    {
      if quantity <= 0 { return Some(InvalidQuantity); }
      var trimmed := TrimSpace(sku);
      if trimmed == "" { return Some(EmptySku); }
      var item := Item(quantity, 0);
      if trimmed in stock {
        item := Item(stock[trimmed].onHand + quantity, stock[trimmed].reserved);
      }
      if !Fits(item) { return Some(Refused(ConstraintViolated, [])); }
      stock := stock[trimmed := item];
      error := None;
    }

    method ReserveStock(order: Id, items: seq<Line>, id: Id) returns (result: Result)
      modifies this
      ensures result == ReserveReply(old(Tables()), order, items, id)
      ensures Tables() == if result.Reserved? then Exec(old(Tables()), Reserve(id, order, Consolidated(items))).0
                          else old(Tables())
    {
      if order == NIL_ID { return Failed(InvalidOrderId); }
      if |items| == 0 { return Failed(EmptyItems); }

      var fault, consolidated := Consolidate(items);
      if fault.Some? { return Failed(fault.value); }
      var sortedSkus := Sorted(consolidated.Keys);

      var error := None;
      var before := Tables();          // the transaction begins
      error := TakeStock(order, id, consolidated, sortedSkus);
      if error.Some? {
        stock, rows := before.stock, before.rows;   // and is rolled back
        return Failed(error.value);
      }
      result := Reserved(id, LinesOf(sortedSkus, consolidated));
    }

    static method Consolidate(items: seq<Line>) returns (fault: Option<Error>, consolidated: map<string, int>)
      ensures fault == Fault(items)
      ensures fault.None? ==> consolidated == Consolidated(items)
    {
      fault, consolidated := None, map[];
      for i := 0 to |items|
        invariant Fault(items[..i]).None? && consolidated == Consolidated(items[..i])
      {
        assert items[..i + 1][..i] == items[..i];
        var sku := TrimSpace(items[i].sku);
        if sku == "" {
          FaultIsFirst(items, i + 1);
          return Some(EmptySku), map[];
        }
        if items[i].quantity <= 0 {
          FaultIsFirst(items, i + 1);
          return Some(InvalidQuantity), map[];
        }
        consolidated := consolidated[sku := Wrap64(Get(consolidated, sku) + items[i].quantity)];
      }
      assert items[..|items|] == items;
    }

    /** The body of the transaction in ReserveStock. */
    method TakeStock(order: Id, id: Id, demand: map<string, int>, sortedSkus: seq<string>)
      returns (error: Option<Error>)
      requires sortedSkus == Sorted(demand.Keys)
      modifies this
      ensures var (db, outcome) := Exec(old(Tables()), Reserve(id, order, demand));
              && error == (if outcome.Ok? then None
                           else Some(Refused(outcome, if outcome.InsufficientStock? then Sorted(outcome.short)
                                                      else [])))
              && (error.None? ==> Tables() == db)
    {
      var failed := FindShortages(demand, sortedSkus);
      if |failed| > 0 {
        return Some(Refused(InsufficientStock(Shortage(stock, demand)), failed));
      }
      var ok := MoveStock(Take, demand, sortedSkus);
      if !ok { return Some(Refused(ConstraintViolated, [])); }
      if Find(rows, id) >= 0 || FindOrder(rows, order) >= 0 { return Some(Refused(Duplicate, [])); }
      if !ItemRowsFit(demand) { return Some(Refused(ConstraintViolated, [])); }
      rows := rows + [Reservation(id, order, Held, demand)];
      error := None;
    }

    method FindShortages(demand: map<string, int>, sortedSkus: seq<string>) returns (failed: seq<string>)
      requires sortedSkus == Sorted(demand.Keys)
      ensures failed == Sorted(Shortage(stock, demand))
      ensures failed == [] <==> Shortage(stock, demand) == {}
    {
      failed := [];
      hide Sorted, Less, Shortage;
      for i := 0 to |sortedSkus|
        invariant Ascending(failed)
        invariant forall k, j :: 0 <= k < |failed| && i <= j < |sortedSkus| ==> Less(failed[k], sortedSkus[j])
        invariant forall s :: s in failed <==> s in sortedSkus[..i] && s in Shortage(stock, demand)
      {
        var sku := sortedSkus[i];
        ShortageOf(stock, demand, sku);
        assert forall s :: s in sortedSkus[..i + 1] <==> s in sortedSkus[..i] || s == sku;
        if sku !in stock || stock[sku].onHand - stock[sku].reserved < demand[sku] {
          failed := failed + [sku];
        }
      }
      assert sortedSkus[..|sortedSkus|] == sortedSkus;
      forall s | s in Shortage(stock, demand) ensures s in failed { ShortageOf(stock, demand, s); }
      assert failed != [] ==> failed[0] in Shortage(stock, demand);
      AscendingIsUnique(failed, Sorted(Shortage(stock, demand)));
    }

    /** The loops of IncrementReserved, CommitStockOnHand and DecrementReserved statements. */
    method MoveStock(how: Movement, items: map<string, int>, skus: seq<string>) returns (ok: bool)
      requires Ascending(skus) && forall s :: s in skus <==> s in items
      modifies this`stock
      ensures ok == AllFit(old(stock), how, items)
      ensures ok ==> stock == MoveAll(old(stock), how, items)
    {
      for i := 0 to |skus|
        invariant forall s :: s in skus[..i] ==> s in old(stock) && Fits(Moved(old(stock)[s], how, items[s]))
        invariant stock.Keys == old(stock).Keys
        invariant forall s :: s in stock ==>
                    stock[s] == if s in skus[..i] then Moved(old(stock)[s], how, items[s]) else old(stock)[s]
      {
        var sku := skus[i];
        assert sku !in skus[..i] by { NotAmong(skus, i); }
        if sku !in stock || !Fits(Moved(stock[sku], how, items[sku])) { return false; }
        stock := stock[sku := Moved(stock[sku], how, items[sku])];
      }
      assert skus[..|skus|] == skus;
      ok := true;
    }

    /** CommitStock and ReleaseStock on the row at position `i`; a rolled back change leaves
        everything as it was. */
    method SettleRow(i: int, status: ReservationStatus) returns (outcome: Outcome)
      requires -1 <= i < |rows| && !status.Held?
      modifies this
      ensures (Tables(), outcome) == ExecSettle(old(Tables()), i, status)
    {
      if i < 0 { return NotFound; }
      if rows[i].status == status { return Ok; }      // idempotent
      if !rows[i].status.Held? { return AlreadySettled(rows[i].status); }
      var before := stock;
      var ok := MoveStock(HowTo(status), rows[i].items, Sorted(rows[i].items.Keys));
      if !ok {
        stock := before;
        return ConstraintViolated;
      }
      rows := rows[i := rows[i].(status := status)];
      outcome := Ok;
    }

    method CommitStock(id: Id) returns (outcome: Outcome)
      modifies this
      ensures (Tables(), outcome) == Exec(old(Tables()), Settle(id, Committed))
    {
      outcome := SettleRow(Find(rows, id), Committed);
    }

    method CommitStockByOrderId(order: Id) returns (outcome: Outcome)
      modifies this
      ensures (Tables(), outcome) == Exec(old(Tables()), SettleByOrder(order, Committed))
    {
      outcome := SettleRow(FindOrder(rows, order), Committed);
    }

    method ReleaseStock(id: Id) returns (outcome: Outcome)
      modifies this
      ensures (Tables(), outcome) == Exec(old(Tables()), Settle(id, Released))
    {
      outcome := SettleRow(Find(rows, id), Released);
    }

    method ReleaseStockByOrderId(order: Id) returns (outcome: Outcome)
      modifies this
      ensures (Tables(), outcome) == Exec(old(Tables()), SettleByOrder(order, Released))
    {
      outcome := SettleRow(FindOrder(rows, order), Released);
    }
  }

  // ---- what the request and the reply have to do with each other -----------------------

  lemma {:induction false} FaultIsFirst(items: seq<Line>, n: nat)
    requires n <= |items| && Fault(items[..n]).Some?
    ensures Fault(items) == Fault(items[..n])
  {
    if n == |items| {
      assert items[..n] == items;
    } else {
      assert items[..|items| - 1][..n] == items[..n];
      FaultIsFirst(items[..|items| - 1], n);
    }
  }

  lemma ShortageOf(stock: map<string, Item>, demand: map<string, int>, sku: string)
    ensures sku in Shortage(stock, demand)
       <==> sku in demand && (sku !in stock || stock[sku].onHand - stock[sku].reserved < demand[sku])
  {
  }

  lemma NotAmong(skus: seq<string>, i: nat)
    requires Ascending(skus) && i < |skus|
    ensures skus[i] !in skus[..i]
  {
    forall k | 0 <= k < i ensures skus[k] != skus[i] {
      LessTotal(skus[k], skus[i]);
    }
  }

  /** Two ascending lists of the same strings are the same list. */
  lemma {:induction false} AscendingIsUnique(a: seq<string>, b: seq<string>)
    requires Ascending(a) && Ascending(b) && forall s :: s in a <==> s in b
    ensures a == b
  {
    assert b != [] ==> b[0] in b;
    if a != [] {
      assert a[0] in a;
      assert b[0] in a;
      LessTotal(a[0], b[0]);
      assert a[0] == b[0];
      forall s ensures s in a[1..] <==> s in b[1..] {
        LessTotal(s, a[0]);
        if s in a[1..] { assert s in b; }
        if s in b[1..] { assert s in a; }
      }
      AscendingIsUnique(a[1..], b[1..]);
      assert a == [a[0]] + a[1..] && b == [b[0]] + b[1..];
    }
  }

  /** The machine's sums are the real ones exactly when the real ones fit in 64 bits. */
  lemma {:induction false} SumsAreExactIffTheyFit(items: seq<Line>, sku: string)
    requires Fault(items).None? && forall i :: 0 <= i < |items| ==> items[i].quantity <= MAX_INT64
    ensures Asked(items, sku) >= 0
    ensures sku in Consolidated(items) <==> Asked(items, sku) > 0
    ensures Get(Consolidated(items), sku) == Asked(items, sku) <==> Asked(items, sku) <= MAX_INT64
  {
    if items != [] {
      SumsAreExactIffTheyFit(items[..|items| - 1], sku);
    }
  }

  /** There is not as much of `sku` as the lines ask for. */
  predicate Lacking(db: Db, items: seq<Line>, sku: string) {
    Asked(items, sku) > 0 && (sku !in db.stock || db.stock[sku].onHand - db.stock[sku].reserved < Asked(items, sku))
  }

  /** With sums that fit, a reservation is all or nothing and its report is exact. It fails
      for stock exactly when some SKU is short, and names exactly the short SKUs, ascending.
      Otherwise it fails only when the id or the order has a reservation already: no CHECK
      constraint ever fires. A reservation holds exactly what was asked. */
  lemma ReserveIsExact(db: Db, added: map<string, int>, order: Id, items: seq<Line>, id: Id)
    requires Conserved(db, added) && order != NIL_ID && items != [] && Fault(items).None?
    requires forall i :: 0 <= i < |items| ==> items[i].quantity <= MAX_INT64
    requires forall s :: Asked(items, s) <= MAX_INT64
    ensures var r := ReserveReply(db, order, items, id);
            var taken := exists k :: 0 <= k < |db.rows| && (db.rows[k].id == id || db.rows[k].order == order);
            if exists s :: Lacking(db, items, s) then
              && r.Failed? && r.error.Refused? && r.error.outcome.InsufficientStock?
              && Ascending(r.error.failedSkus)
              && forall s :: s in r.error.failedSkus <==> Lacking(db, items, s)
            else if taken then r == Failed(Refused(Duplicate, []))
            else
              && r.Reserved? && r.id == id
              && (forall s :: Asked(items, s) > 0 <==> Line(s, Asked(items, s)) in r.items)
              && (forall k, j :: 0 <= k < j < |r.items| ==> Less(r.items[k].sku, r.items[j].sku))
              && (forall s :: s in db.stock ==>
                    Exec(db, Reserve(id, order, Consolidated(items))).0.stock[s]
                      == Item(db.stock[s].onHand, db.stock[s].reserved + Asked(items, s)))
  {
    var demand := Consolidated(items);
    DemandIsExact(items);
    forall s ensures s in Shortage(db.stock, demand) <==> Lacking(db, items, s) {
      ShortageOf(db.stock, demand, s);
    }
    hide *;
    var short := Shortage(db.stock, demand);
    if short == {} {
      GrantIsExact(db, added, items);
      FoundIff(db.rows, id, order);
      CoveredReply(db, order, items, id);
    } else {
      ShortReply(db, order, items, id);
      var s :| s in short;
      assert Lacking(db, items, s);
    }
  }

  lemma FoundIff(rows: seq<Reservation>, id: Id, order: Id)
    ensures Find(rows, id) >= 0 || FindOrder(rows, order) >= 0
       <==> exists k :: 0 <= k < |rows| && (rows[k].id == id || rows[k].order == order)
  {
    hide *;
  }

  lemma ShortReply(db: Db, order: Id, items: seq<Line>, id: Id)
    requires order != NIL_ID && items != [] && Fault(items).None?
    requires Shortage(db.stock, Consolidated(items)) != {}
    ensures var short := Shortage(db.stock, Consolidated(items));
            ReserveReply(db, order, items, id) == Failed(Refused(InsufficientStock(short), Sorted(short)))
  {
    hide Shortage, Sorted, Consolidated, Fault;
  }

  lemma CoveredReply(db: Db, order: Id, items: seq<Line>, id: Id)
    requires order != NIL_ID && items != [] && Fault(items).None?
    requires var demand := Consolidated(items);
             Shortage(db.stock, demand) == {} && AllFit(db.stock, Take, demand) && ItemRowsFit(demand)
    ensures var (demand, r) := (Consolidated(items), ReserveReply(db, order, items, id));
            if Find(db.rows, id) >= 0 || FindOrder(db.rows, order) >= 0 then r == Failed(Refused(Duplicate, []))
            else
              && r == Reserved(id, LinesOf(Sorted(demand.Keys), demand))
              && Exec(db, Reserve(id, order, demand)).0.stock == MoveAll(db.stock, Take, demand)
  {
    hide Shortage, Sorted, Consolidated, Fault, AllFit, MoveAll, ItemRowsFit, Find, FindOrder;
  }

  lemma DemandIsExact(items: seq<Line>)
    requires Fault(items).None? && forall i :: 0 <= i < |items| ==> items[i].quantity <= MAX_INT64
    requires forall s :: Asked(items, s) <= MAX_INT64
    ensures forall s :: Asked(items, s) >= 0
    ensures forall s :: s in Consolidated(items) <==> Asked(items, s) > 0
    ensures forall s :: s in Consolidated(items) ==> Consolidated(items)[s] == Asked(items, s)
  {
    forall s ensures Asked(items, s) >= 0 && (s in Consolidated(items) <==> Asked(items, s) > 0)
                     && (s in Consolidated(items) ==> Consolidated(items)[s] == Asked(items, s))
    {
      SumsAreExactIffTheyFit(items, s);
    }
  }

  lemma GrantIsExact(db: Db, added: map<string, int>, items: seq<Line>)
    requires Conserved(db, added)
    requires forall s :: Asked(items, s) >= 0
    requires forall s :: s in Consolidated(items) <==> Asked(items, s) > 0
    requires forall s :: s in Consolidated(items) ==> Consolidated(items)[s] == Asked(items, s)
    requires Shortage(db.stock, Consolidated(items)) == {}
    ensures var demand := Consolidated(items);
            && AllFit(db.stock, Take, demand) && ItemRowsFit(demand)
            && (forall s :: s in db.stock ==>
                  MoveAll(db.stock, Take, demand)[s]
                  == Item(db.stock[s].onHand, db.stock[s].reserved + Asked(items, s)))
            && var lines := LinesOf(Sorted(demand.Keys), demand);
               && (forall s :: Asked(items, s) > 0 <==> Line(s, Asked(items, s)) in lines)
               && (forall k, j :: 0 <= k < j < |lines| ==> Less(lines[k].sku, lines[j].sku))
  {
    hide *;
    GrantedRows(db, added, items);
    GrantedLines(items);
  }

  lemma GrantedRows(db: Db, added: map<string, int>, items: seq<Line>)
    requires Conserved(db, added) && forall s :: Asked(items, s) >= 0
    requires forall s :: s in Consolidated(items) <==> Asked(items, s) > 0
    requires forall s :: s in Consolidated(items) ==> Consolidated(items)[s] == Asked(items, s)
    requires Shortage(db.stock, Consolidated(items)) == {}
    ensures var demand := Consolidated(items);
            && AllFit(db.stock, Take, demand) && ItemRowsFit(demand)
            && forall s :: s in db.stock ==>
                 MoveAll(db.stock, Take, demand)[s]
                   == Item(db.stock[s].onHand, db.stock[s].reserved + Asked(items, s))
  {
    hide *;
    var demand := Consolidated(items);
    ConservedFits(db, added);
    GrantedStock(db.stock, demand);
    assert forall s :: s !in demand ==> Asked(items, s) == 0;
  }

  lemma ConservedFits(db: Db, added: map<string, int>)
    requires Conserved(db, added)
    ensures forall s :: s in db.stock ==> Fits(db.stock[s])
  {
  }

  lemma GrantedStock(stock: map<string, Item>, demand: map<string, int>)
    requires forall s :: s in stock ==> Fits(stock[s])
    requires Shortage(stock, demand) == {} && forall s :: s in demand ==> demand[s] > 0
    ensures AllFit(stock, Take, demand) && ItemRowsFit(demand)
    ensures forall s :: s in stock ==>
              MoveAll(stock, Take, demand)[s]
                == Item(stock[s].onHand, stock[s].reserved + if s in demand then demand[s] else 0)
  {
    forall s | s in demand
      ensures s in stock && Fits(Moved(stock[s], Take, demand[s])) && demand[s] <= MAX_INT32
    {
      ShortageOf(stock, demand, s);
    }
  }

  lemma GrantedLines(items: seq<Line>)
    requires forall s :: s in Consolidated(items) <==> Asked(items, s) > 0
    requires forall s :: s in Consolidated(items) ==> Consolidated(items)[s] == Asked(items, s)
    ensures var lines := LinesOf(Sorted(Consolidated(items).Keys), Consolidated(items));
            && (forall s :: Asked(items, s) > 0 <==> Line(s, Asked(items, s)) in lines)
            && (forall k, j :: 0 <= k < j < |lines| ==> Less(lines[k].sku, lines[j].sku))
  {
    hide Sorted, Less, Asked, Consolidated, LinesOf;
    var demand := Consolidated(items);
    var skus := Sorted(demand.Keys);
    var lines := LinesOf(skus, demand);
    forall s | Asked(items, s) > 0 ensures Line(s, Asked(items, s)) in lines {
      var k :| 0 <= k < |skus| && skus[k] == s;
      assert lines[k] == Line(s, demand[s]);
    }
  }

  lemma ThreeLines()
    ensures var items := [Line("A", MAX_INT64), Line("A", MAX_INT64), Line("A", 3)];
            Fault(items).None? && Asked(items, "A") == 2 * (MAX_INT64 + 1) + 1 && Consolidated(items) == map["A" := 1]
  {
    var a, b := [Line("A", MAX_INT64)], [Line("A", MAX_INT64), Line("A", MAX_INT64)];
    assert TrimSpace("A") == "A";
    OneMoreLine([], Line("A", MAX_INT64), a);
    OneMoreLine(a, Line("A", MAX_INT64), b);
    OneMoreLine(b, Line("A", 3), b + [Line("A", 3)]);
    assert b + [Line("A", 3)] == [Line("A", MAX_INT64), Line("A", MAX_INT64), Line("A", 3)];
  }

  /** Without that, a request for more than 2^64 pieces can be granted one. */
  lemma OverflowUnderReserves()
    ensures var items := [Line("A", MAX_INT64), Line("A", MAX_INT64), Line("A", 3)];
            var db := Db(map["A" := Item(1, 0)], []);
            && Asked(items, "A") == 2 * (MAX_INT64 + 1) + 1
            && ReserveReply(db, 1, items, 2) == Reserved(2, [Line("A", 1)])
  {
    ThreeLines();
    hide Asked, Consolidated, Fault;
    OnePiece();
    hide Sorted, Shortage, AllFit, MoveAll, LinesOf;
    CoveredReply(Db(map["A" := Item(1, 0)], []), 1, [Line("A", MAX_INT64), Line("A", MAX_INT64), Line("A", 3)], 2);
  }

  lemma OnePiece()
    ensures var (stock, demand) := (map["A" := Item(1, 0)], map["A" := 1]);
            && Shortage(stock, demand) == {} && AllFit(stock, Take, demand) && ItemRowsFit(demand)
            && LinesOf(Sorted(demand.Keys), demand) == [Line("A", 1)]
  {
    var demand := map["A" := 1];
    assert Sorted(demand.Keys) == ["A"] by { AscendingIsUnique(Sorted(demand.Keys), ["A"]); }
    hide Sorted;
    assert LinesOf(["A"], demand) == [Line("A", 1)];
    assert Shortage(map["A" := Item(1, 0)], demand) == {};
  }

  lemma OneMoreLine(items: seq<Line>, line: Line, more: seq<Line>)
    requires TrimSpace(line.sku) == line.sku != "" && line.quantity > 0 && more == items + [line]
    requires Fault(items).None?
    ensures Fault(more).None?
    ensures Consolidated(more)
            == Consolidated(items)[line.sku := Wrap64(Get(Consolidated(items), line.sku) + line.quantity)]
    ensures Asked(more, line.sku) == Asked(items, line.sku) + line.quantity
  {
    assert more[..|more| - 1] == items;
  }
}
