/** What CreateOrder charges: lines put together per SKU, prices looked up in the catalog,
    totals computed on the server. */
module OrderPricing {
  import opened Common
  import opened Text
  import Inv = InventoryService
  import T = Totals

  type Line = Inv.Line

  datatype Product = Product(active: bool, currency: string, priceMinor: int, priceAmount: int)

  datatype Error =
    | EmptyOrderItems | MaxItemsExceeded | EmptySku | InvalidQuantity | ProductNotFound | ProductUnavailable
    | CurrencyMismatch | InvalidPrice | Totals(error: T.Error)

  function UnitPrice(p: Product): int {
    if p.priceMinor <= 0 && p.priceAmount > 0 then p.priceAmount else p.priceMinor
  }

  function PriceOf(catalog: map<string, Product>, sku: string): int {
    if sku in catalog then UnitPrice(catalog[sku]) else 0
  }

  function Currency(asked: string): string {
    if TrimSpace(asked) == "" then "USD" else TrimSpace(asked)
  }

  /** What is wrong with a product, if anything. */
  function Objection(catalog: map<string, Product>, sku: string, currency: string): Option<Error> {
    if sku !in catalog then Some(ProductNotFound)
    else if !catalog[sku].active then Some(ProductUnavailable)
    else if catalog[sku].currency != "" && catalog[sku].currency != currency then Some(CurrencyMismatch)
    else if UnitPrice(catalog[sku]) <= 0 then Some(InvalidPrice)
    else None
  }

  // ---- the sum over the lines and the sum over the SKUs --------------------------------

  /** What the lines cost as they were sent, in unbounded integers. */
  function Charge(items: seq<Line>, catalog: map<string, Product>): int {
    if items == [] then 0
    else
      var last := items[|items| - 1];
      Charge(items[..|items| - 1], catalog) + PriceOf(catalog, TrimSpace(last.sku)) * last.quantity
  }

  function SumAsked(skus: seq<string>, items: seq<Line>, catalog: map<string, Product>): int {
    if skus == [] then 0
    else
      var last := skus[|skus| - 1];
      SumAsked(skus[..|skus| - 1], items, catalog) + PriceOf(catalog, last) * Inv.Asked(items, last)
  }

  lemma {:induction false} OneLineMore(skus: seq<string>, items: seq<Line>, catalog: map<string, Product>)
    requires Ascending(skus) && items != []
    ensures var (before, last) := (items[..|items| - 1], items[|items| - 1]);
            SumAsked(skus, items, catalog)
            == SumAsked(skus, before, catalog)
               + if TrimSpace(last.sku) in skus then PriceOf(catalog, TrimSpace(last.sku)) * last.quantity else 0
  {
    if skus != [] {
      var (n, line) := (|skus| - 1, items[|items| - 1]);
      var before := items[..|items| - 1];
      OneLineMore(skus[..n], items, catalog);
      Inv.NotAmong(skus, n);
      assert skus == skus[..n] + [skus[n]];
      assert Inv.Asked(items, skus[n])
          == Inv.Asked(before, skus[n]) + if TrimSpace(line.sku) == skus[n] then line.quantity else 0;
      hide Inv.Asked, PriceOf, TrimSpace, Less, Ascending;
      if TrimSpace(line.sku) == skus[n] {
        Distribute(PriceOf(catalog, skus[n]), Inv.Asked(before, skus[n]), line.quantity);
      }
    }
  }

  lemma Distribute(p: int, a: int, b: int)
    ensures p * (a + b) == p * a + p * b
  {
  }

  lemma {:induction false} NothingAsked(skus: seq<string>, catalog: map<string, Product>)
    ensures SumAsked(skus, [], catalog) == 0
  {
    if skus != [] { NothingAsked(skus[..|skus| - 1], catalog); }
  }

  /** Putting lines together per SKU does not change what they cost. */
  lemma {:induction false} ConsolidationKeepsTheCharge(
      skus: seq<string>, items: seq<Line>, catalog: map<string, Product>)
    requires Ascending(skus) && forall i :: 0 <= i < |items| ==> TrimSpace(items[i].sku) in skus
    ensures SumAsked(skus, items, catalog) == Charge(items, catalog)
  {
    if items == [] {
      NothingAsked(skus, catalog);
    } else {
      OneLineMore(skus, items, catalog);
      ConsolidationKeepsTheCharge(skus, items[..|items| - 1], catalog);
    }
  }

  function LineItems(skus: seq<string>, demand: map<string, int>, catalog: map<string, Product>):
    (items: seq<T.OrderItem>)
    requires forall s :: s in skus ==> s in demand
    ensures |items| == |skus|
    ensures forall i :: 0 <= i < |skus| ==>
              items[i] == T.OrderItem(skus[i], PriceOf(catalog, skus[i]), demand[skus[i]], 0)
  {
    seq(|skus|, i requires 0 <= i < |skus| => T.OrderItem(skus[i], PriceOf(catalog, skus[i]), demand[skus[i]], 0))
  }

  /** The items together cost no more than what is asked for, and as much only if every quantity
      is what is asked for. */
  lemma {:induction false} SumOfLineItems(
      skus: seq<string>, items: seq<Line>, demand: map<string, int>, catalog: map<string, Product>)
    requires forall s :: s in skus ==> s in demand && demand[s] <= Inv.Asked(items, s) && PriceOf(catalog, s) > 0
    ensures var sum := T.Sum(T.OrderLines(LineItems(skus, demand, catalog)));
            && sum <= SumAsked(skus, items, catalog)
            && (sum == SumAsked(skus, items, catalog) <==> forall s :: s in skus ==> demand[s] == Inv.Asked(items, s))
  {
    if skus != [] {
      var n := |skus| - 1;
      var last := skus[n];
      SumOfLineItems(skus[..n], items, demand, catalog);
      LastLineItem(skus, demand, catalog);
      Dearer(PriceOf(catalog, last), demand[last], Inv.Asked(items, last));
      assert skus == skus[..n] + [last];
      hide Inv.Asked, T.Sum, T.OrderLines, LineItems, PriceOf;
    }
  }

  lemma LastLineItem(skus: seq<string>, demand: map<string, int>, catalog: map<string, Product>)
    requires skus != [] && forall s :: s in skus ==> s in demand
    ensures var (n, last) := (|skus| - 1, skus[|skus| - 1]);
            T.Sum(T.OrderLines(LineItems(skus, demand, catalog)))
            == T.Sum(T.OrderLines(LineItems(skus[..n], demand, catalog))) + PriceOf(catalog, last) * demand[last]
  {
    var n := |skus| - 1;
    var lines := T.OrderLines(LineItems(skus, demand, catalog));
    assert lines[..n] == T.OrderLines(LineItems(skus[..n], demand, catalog));
    hide PriceOf;
  }

  lemma Dearer(price: int, a: int, b: int)
    requires price > 0 && a <= b
    ensures price * a <= price * b
    ensures price * a == price * b <==> a == b
  {
    if a < b { Positive(price, b - a); }
    assert price * b == price * a + price * (b - a);
  }

  lemma Positive(a: int, b: int)
    requires a > 0 && b > 0
    ensures a * b > 0
  {
  }

  lemma {:induction false} EveryLineHasItsSku(items: seq<Line>, i: nat)
    requires i < |items|
    ensures TrimSpace(items[i].sku) in Inv.Consolidated(items)
  {
    if i < |items| - 1 { EveryLineHasItsSku(items[..|items| - 1], i); }
  }

  /** The quantities of the lines are ints. */
  predicate IntQuantities(items: seq<Line>) {
    forall i :: 0 <= i < |items| ==> items[i].quantity <= MAX_INT64
  }

  /** Every SKU's quantities can be added up in an int. */
  ghost predicate DemandFits(items: seq<Line>) {
    forall s :: Inv.Asked(items, s) <= MAX_INT64
  }

  lemma DemandIsAtMost(items: seq<Line>, sku: string)
    requires Inv.Fault(items).None? && IntQuantities(items) && sku in Inv.Consolidated(items)
    ensures Inv.Consolidated(items)[sku] <= Inv.Asked(items, sku)
    ensures Inv.Consolidated(items)[sku] == Inv.Asked(items, sku) <==> Inv.Asked(items, sku) <= MAX_INT64
  {
    Inv.SumsAreExactIffTheyFit(items, sku);
    SumsAreInts(items, sku);
  }

  lemma {:induction false} SumsAreInts(items: seq<Line>, sku: string)
    ensures Inv.Get(Inv.Consolidated(items), sku) <= MAX_INT64
  {
    if items != [] { SumsAreInts(items[..|items| - 1], sku); }
  }

  /** What is charged for a request that gets as far as its totals: never more than what its
      lines cost as they were sent, and exactly that if and only if each SKU's quantities can be
      added up. */
  lemma OrderCharge(items: seq<Line>, catalog: map<string, Product>)
    requires Inv.Fault(items).None? && IntQuantities(items)
    requires forall s :: s in Inv.Consolidated(items) ==> PriceOf(catalog, s) > 0
    ensures var demand := Inv.Consolidated(items);
            var sum := T.Sum(T.OrderLines(LineItems(Sorted(demand.Keys), demand, catalog)));
            && sum <= Charge(items, catalog)
            && (sum == Charge(items, catalog) <==> DemandFits(items))
  {
    var demand := Inv.Consolidated(items);
    var skus := Sorted(demand.Keys);
    forall s | s in skus ensures demand[s] <= Inv.Asked(items, s)
    {
      DemandIsAtMost(items, s);
    }
    SumOfLineItems(skus, items, demand, catalog);
    forall i | 0 <= i < |items| ensures TrimSpace(items[i].sku) in skus { EveryLineHasItsSku(items, i); }
    ConsolidationKeepsTheCharge(skus, items, catalog);
    hide T.Sum, Charge, LineItems, Sorted, Inv.Consolidated;
    forall s ensures Inv.Asked(items, s) <= MAX_INT64 <==> (s in skus ==> demand[s] == Inv.Asked(items, s)) {
      if s in skus { DemandIsAtMost(items, s); } else { Inv.SumsAreExactIffTheyFit(items, s); }
    }
  }

  /** If they cannot, a customer may pay for one piece out of 2^64 + 1. */
  lemma OverflowUndercharges()
    ensures var items := [Inv.Line("A", MAX_INT64), Inv.Line("A", MAX_INT64), Inv.Line("A", 3)];
            var catalog := map["A" := Product(true, "USD", 5, 5)];
            && Charge(items, catalog) == 5 * (2 * (MAX_INT64 + 1) + 1)
            && Inv.Consolidated(items) == map["A" := 1]
            && T.Sum(T.OrderLines(LineItems(["A"], map["A" := 1], catalog))) == 5
  {
    Inv.ThreeLines();
    var items := [Inv.Line("A", MAX_INT64), Inv.Line("A", MAX_INT64), Inv.Line("A", 3)];
    var catalog := map["A" := Product(true, "USD", 5, 5)];
    assert TrimSpace("A") == "A";
    forall i | 0 <= i < 3 ensures TrimSpace(items[i].sku) in ["A"] {}
    ConsolidationKeepsTheCharge(["A"], items, catalog);
    assert SumAsked(["A"], items, catalog) == SumAsked([], items, catalog) + 5 * Inv.Asked(items, "A") by {
      assert ["A"][..0] == [];
    }
    var lines := T.OrderLines(LineItems(["A"], map["A" := 1], catalog));
    assert lines[..0] == [] && T.LineTotal(lines[0]) == 5;
  }

  /** The first objection, in the order of the SKUs. */
  function FirstObjection(skus: seq<string>, catalog: map<string, Product>, currency: string): Option<Error> {
    if skus == [] then None
    else
      var before := FirstObjection(skus[..|skus| - 1], catalog, currency);
      if before.Some? then before else Objection(catalog, skus[|skus| - 1], currency)
  }

  lemma {:induction false} FirstStaysFirst(skus: seq<string>, n: nat, catalog: map<string, Product>, currency: string)
    requires n <= |skus| && FirstObjection(skus[..n], catalog, currency).Some?
    ensures FirstObjection(skus, catalog, currency) == FirstObjection(skus[..n], catalog, currency)
  {
    if n < |skus| {
      assert skus[..|skus| - 1][..n] == skus[..n];
      FirstStaysFirst(skus[..|skus| - 1], n, catalog, currency);
    } else {
      assert skus[..n] == skus;
    }
  }

  /** What is said against a request before anything is added up. */
  function Refusal(items: seq<Line>, catalog: map<string, Product>, currency: string): Option<Error> {
    if items == [] then Some(EmptyOrderItems)
    else if |items| > 100 then Some(MaxItemsExceeded)
    else if Inv.Fault(items).Some? then
      Some(if Inv.Fault(items).value == Inv.EmptySku then EmptySku else InvalidQuantity)
    else FirstObjection(Sorted(Inv.Consolidated(items).Keys), catalog, currency)
  }

  /** CreateOrder up to its transaction: the first fault of a line, the first objection in the
      order of the SKUs, or the order, which is charged what its lines cost exactly if their
      quantities can be added up. */
  method PriceOrder(items: seq<Line>, asked: string, catalog: map<string, Product>)
    returns (error: Option<Error>, order: Option<T.Order>)
    requires IntQuantities(items)
    ensures Refusal(items, catalog, Currency(asked)).Some? ==> error == Refusal(items, catalog, Currency(asked))
    ensures Refusal(items, catalog, Currency(asked)).None? && error.Some? ==> error.value.Totals?
    ensures error.None? ==>
              && order.Some? && order.value.currency == Currency(asked)
              && order.value.total <= Charge(items, catalog)
              && (order.value.total == Charge(items, catalog) <==> DemandFits(items))
    ensures Refusal(items, catalog, Currency(asked)).None? && DemandFits(items) ==>
              (error == Some(Totals(T.ArithmeticOverflow)) <==> Charge(items, catalog) > MAX_INT64)
  {
    var lineItems, currency;
    error, lineItems, currency := CheckLines(items, asked, catalog);
    order := None;
    if error.Some? { return; }
    Settled(items, catalog, lineItems);
    hide *;
    var e, draft := TotalUp(lineItems, currency);
    if e.Some? { return Some(Totals(e.value)), None; }
    order := Some(draft);
  }

  /** The checks, the consolidation and the look-up of the products. */
  method CheckLines(items: seq<Line>, asked: string, catalog: map<string, Product>)
    returns (error: Option<Error>, lineItems: seq<T.OrderItem>, currency: string)
    ensures currency == Currency(asked) && error == Refusal(items, catalog, currency)
    ensures error.Some? ==> !error.value.Totals?
    ensures error.None? ==>
              && items != [] && Inv.Fault(items).None?
              && lineItems == LineItems(Sorted(Inv.Consolidated(items).Keys), Inv.Consolidated(items), catalog)
              && (forall s :: s in Inv.Consolidated(items) ==> PriceOf(catalog, s) > 0)
  {
    lineItems := [];
    currency := TrimSpace(asked);
    if currency == "" { currency := "USD"; }
    if |items| == 0 { return Some(EmptyOrderItems), [], currency; }
    if |items| > 100 { return Some(MaxItemsExceeded), [], currency; }
    var fault, skuMap := Inv.Service.Consolidate(items);
    if fault.Some? {
      return Some(if fault.value == Inv.EmptySku then EmptySku else InvalidQuantity), [], currency;
    }
    var skus := Sorted(skuMap.Keys);
    error, lineItems := CollectItems(skus, skuMap, catalog, currency);
  }

  method TotalUp(lineItems: seq<T.OrderItem>, currency: string) returns (error: Option<T.Error>, order: T.Order)
    ensures fresh(order) && order.currency == currency && error == T.OrderVerdict(lineItems)
    ensures error.None? ==> order.total == T.Sum(T.OrderLines(lineItems))
  {
    var rows := new T.OrderItem[|lineItems|](i requires 0 <= i < |lineItems| => lineItems[i]);
    assert rows[..] == lineItems;
    order := new T.Order(rows, currency);
    error := order.CalculateTotals();
  }

  /** What the totals' verdict means for the request. */
  lemma Settled(items: seq<Line>, catalog: map<string, Product>, lineItems: seq<T.OrderItem>)
    requires Inv.Fault(items).None? && items != [] && IntQuantities(items)
    requires lineItems == LineItems(Sorted(Inv.Consolidated(items).Keys), Inv.Consolidated(items), catalog)
    requires forall s :: s in Inv.Consolidated(items) ==> PriceOf(catalog, s) > 0
    ensures var (sum, charge) := (T.Sum(T.OrderLines(lineItems)), Charge(items, catalog));
            && sum <= charge && (sum == charge <==> DemandFits(items))
            && (DemandFits(items) && |lineItems| <= 100 ==>
                  (T.OrderVerdict(lineItems) == Some(T.ArithmeticOverflow) <==> charge > MAX_INT64))
    ensures |lineItems| <= |items|
  {
    OrderCharge(items, catalog);
    FewSkus(items);
    if DemandFits(items) {
      Inv.DemandIsExact(items);
      forall i | 0 <= i < |lineItems| ensures lineItems[i].quantity > 0 && lineItems[i].unitPrice > 0 {
        assert lineItems[i].sku in Sorted(Inv.Consolidated(items).Keys);
      }
      hide *;
      if |lineItems| <= 100 { OverflowIff(lineItems); }
    }
  }

  lemma OverflowIff(lineItems: seq<T.OrderItem>)
    requires 1 <= |lineItems| <= 100
    requires forall i :: 0 <= i < |lineItems| ==> lineItems[i].quantity > 0 && lineItems[i].unitPrice > 0
    ensures T.OrderVerdict(lineItems) == Some(T.ArithmeticOverflow) <==> T.Sum(T.OrderLines(lineItems)) > MAX_INT64
  {
    var (faults, lines) := (T.OrderFaults(lineItems), T.OrderLines(lineItems));
    T.ScanIsExact(faults, lines);
    hide T.Sum, T.Scan;
  }

  /** There are no more SKUs than lines. */
  lemma FewSkus(items: seq<Line>)
    ensures 0 < |items| ==> 0 < |Sorted(Inv.Consolidated(items).Keys)|
    ensures |Sorted(Inv.Consolidated(items).Keys)| <= |items|
  {
    KeyCount(items);
    SortedLength(Inv.Consolidated(items).Keys);
  }

  lemma {:induction false} KeyCount(items: seq<Line>)
    ensures |Inv.Consolidated(items).Keys| <= |items|
    ensures 0 < |items| ==> 0 < |Inv.Consolidated(items).Keys|
  {
    if items != [] {
      var n := |items| - 1;
      KeyCount(items[..n]);
      var sku := TrimSpace(items[n].sku);
      assert Inv.Consolidated(items).Keys == Inv.Consolidated(items[..n]).Keys + {sku};
    }
  }

  lemma {:induction false} SortedLength(keys: set<string>)
    ensures |Sorted(keys)| == |keys|
  {
    if keys != {} {
      var m := Sorted(keys)[0];
      assert Sorted(keys) == [m] + Sorted(keys - {m});
      SortedLength(keys - {m});
    }
  }

  /** One more SKU: its objection, if there is one, is the first; or its line comes last. */
  lemma Collected(skus: seq<string>, i: nat, skuMap: map<string, int>, catalog: map<string, Product>, currency: string)
    requires i < |skus| && FirstObjection(skus[..i], catalog, currency).None? && forall s :: s in skus ==> s in skuMap
    ensures var objection := Objection(catalog, skus[i], currency);
            && FirstObjection(skus[..i + 1], catalog, currency) == objection
            && (objection.Some? ==> FirstObjection(skus, catalog, currency) == objection)
    ensures LineItems(skus[..i + 1], skuMap, catalog)
         == LineItems(skus[..i], skuMap, catalog)
            + [T.OrderItem(skus[i], PriceOf(catalog, skus[i]), skuMap[skus[i]], 0)]
  {
    assert skus[..i + 1][..i] == skus[..i];
    hide Objection, PriceOf;
    if Objection(catalog, skus[i], currency).Some? { FirstStaysFirst(skus, i + 1, catalog, currency); }
  }

  method CollectItems(skus: seq<string>, skuMap: map<string, int>, catalog: map<string, Product>, currency: string)
    returns (error: Option<Error>, lineItems: seq<T.OrderItem>)
    requires forall s :: s in skus ==> s in skuMap
    ensures error == FirstObjection(skus, catalog, currency)
    ensures error.Some? ==> !error.value.Totals?
    ensures error.None? ==>
              lineItems == LineItems(skus, skuMap, catalog) && forall s :: s in skus ==> PriceOf(catalog, s) > 0
  {
    error, lineItems := None, [];
    for i := 0 to |skus|
      invariant lineItems == LineItems(skus[..i], skuMap, catalog) && FirstObjection(skus[..i], catalog, currency).None?
      invariant forall k :: 0 <= k < i ==> PriceOf(catalog, skus[k]) > 0
    {
      var sku := skus[i];
      Collected(skus, i, skuMap, catalog, currency);
      hide LineItems, FirstObjection, TrimSpace;
      if sku !in catalog { return Some(ProductNotFound), []; }
      var prod := catalog[sku];
      if !prod.active { return Some(ProductUnavailable), []; }
      if prod.currency != "" && prod.currency != currency { return Some(CurrencyMismatch), []; }
      var unitPrice := prod.priceMinor;
      if unitPrice <= 0 && prod.priceAmount > 0 { unitPrice := prod.priceAmount; }
      if unitPrice <= 0 { return Some(InvalidPrice), []; }
      lineItems := lineItems + [T.OrderItem(sku, unitPrice, skuMap[sku], 0)];
    }
    assert skus[..|skus|] == skus;
  }
}
