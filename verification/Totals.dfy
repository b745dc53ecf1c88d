/** The totals of an order and of a cart: loops over the items that multiply and add with
    overflow checks and write the line totals as they go. */
module Totals {
  import opened Common
  import M = Money

  datatype Error =
    | EmptyOrderItems | MaxItemsExceeded | InvalidQuantity | InvalidPrice | CurrencyMismatch | ArithmeticOverflow

  /** What an item costs and how many of it there are. */
  datatype Priced = Priced(price: int, quantity: int)

  function LineTotal(line: Priced): int {
    line.price * line.quantity
  }

  /** The sum, in unbounded integers. */
  function Sum(lines: seq<Priced>): int {
    if lines == [] then 0 else Sum(lines[..|lines| - 1]) + LineTotal(lines[|lines| - 1])
  }

  /** A line that no check objects to. */
  predicate Proper(line: Priced) {
    line.price >= 0 && line.quantity >= 1
  }

  /** How a loop over the lines ends: at the first line that has a fault of its own or makes
      the sum too large. */
  datatype Verdict = Fine | Stopped(at: nat, error: Error)

  function Scan(faults: seq<Option<Error>>, lines: seq<Priced>): Verdict
    requires |faults| == |lines|
  {
    if lines == [] then Fine
    else
      var n := |lines| - 1;
      var before := Scan(faults[..n], lines[..n]);
      if before.Stopped? then before
      else if faults[n].Some? then Stopped(n, faults[n].value)
      else if Sum(lines) > MAX_INT64 then Stopped(n, ArithmeticOverflow)
      else Fine
  }

  lemma {:induction false} SumGrows(lines: seq<Priced>, n: nat)
    requires n <= |lines| && forall i :: 0 <= i < |lines| ==> Proper(lines[i])
    ensures 0 <= Sum(lines[..n]) <= Sum(lines)
  {
    if n == |lines| {
      assert lines[..n] == lines;
      if n > 0 { SumGrows(lines[..n - 1], n - 1); Product(lines[n - 1]); }
    } else {
      var rest := lines[..|lines| - 1];
      assert rest[..n] == lines[..n];
      SumGrows(rest, n);
      Product(lines[|lines| - 1]);
    }
  }

  lemma Product(line: Priced)
    requires Proper(line)
    ensures LineTotal(line) >= 0
  {
  }

  /** The lines before it are in order and sum up, and this one has fault `e` of its own or is too
      much. */
  predicate StopsAt(faults: seq<Option<Error>>, lines: seq<Priced>, at: nat, e: Error)
    requires |faults| == |lines|
  {
    && at < |lines| && (forall i :: 0 <= i < at ==> faults[i].None?) && Sum(lines[..at]) <= MAX_INT64
    && (faults[at] == Some(e)
        || (faults[at].None? && e.ArithmeticOverflow? && Sum(lines[..at + 1]) > MAX_INT64))
  }

  predicate Passes(faults: seq<Option<Error>>, lines: seq<Priced>) {
    (forall i :: 0 <= i < |faults| ==> faults[i].None?) && Sum(lines) <= MAX_INT64
  }

  lemma StopsLater(faults: seq<Option<Error>>, lines: seq<Priced>, n: nat, at: nat, e: Error)
    requires |faults| == |lines| && n <= |lines| && StopsAt(faults[..n], lines[..n], at, e)
    ensures StopsAt(faults, lines, at, e)
  {
    assert lines[..n][..at] == lines[..at] && lines[..n][..at + 1] == lines[..at + 1];
    hide Sum;
  }

  lemma StoppedDoesNotPass(faults: seq<Option<Error>>, lines: seq<Priced>, at: nat, e: Error)
    requires |faults| == |lines| && forall i :: 0 <= i < |lines| && faults[i].None? ==> Proper(lines[i])
    requires StopsAt(faults, lines, at, e)
    ensures !Passes(faults, lines)
  {
    if forall i :: 0 <= i < |lines| ==> faults[i].None? { SumGrows(lines, at + 1); }
    hide Sum;
  }

  lemma LastLine(faults: seq<Option<Error>>, lines: seq<Priced>)
    requires |faults| == |lines| > 0 && forall i :: 0 <= i < |lines| && faults[i].None? ==> Proper(lines[i])
    requires var n := |lines| - 1; Passes(faults[..n], lines[..n]) && Scan(faults[..n], lines[..n]).Fine?
    ensures Scan(faults, lines).Fine? <==> Passes(faults, lines)
    ensures Scan(faults, lines).Stopped? ==> StopsAt(faults, lines, Scan(faults, lines).at, Scan(faults, lines).error)
  {
    var n := |lines| - 1;
    assert lines[..n + 1] == lines;
    hide Sum;
    assert forall i :: 0 <= i < n ==> faults[i] == faults[..n][i];
    if faults[n].None? && Sum(lines) <= MAX_INT64 { assert Passes(faults, lines); }
  }

  /** The loop gets to the end if and only if no line is at fault and the whole sum fits in 64
      bits; and where it stops, that line, and none before it, is the reason. */
  lemma {:induction false} ScanIsExact(faults: seq<Option<Error>>, lines: seq<Priced>)
    requires |faults| == |lines| && forall i :: 0 <= i < |lines| && faults[i].None? ==> Proper(lines[i])
    ensures Scan(faults, lines).Fine? <==> Passes(faults, lines)
    ensures Scan(faults, lines).Stopped? ==> StopsAt(faults, lines, Scan(faults, lines).at, Scan(faults, lines).error)
  {
    if lines != [] {
      var n := |lines| - 1;
      ScanIsExact(faults[..n], lines[..n]);
      var before := Scan(faults[..n], lines[..n]);
      hide StopsAt, Passes;
      if before.Stopped? {
        StopsLater(faults, lines, n, before.at, before.error);
        StoppedDoesNotPass(faults, lines, before.at, before.error);
      } else {
        LastLine(faults, lines);
      }
    }
  }

  lemma {:induction false} ScanStopsEarly(faults: seq<Option<Error>>, lines: seq<Priced>, n: nat)
    requires |faults| == |lines| && n <= |lines| && Scan(faults[..n], lines[..n]).Stopped?
    ensures Scan(faults, lines) == Scan(faults[..n], lines[..n])
  {
    if n < |lines| {
      var m := |lines| - 1;
      assert faults[..m][..n] == faults[..n] && lines[..m][..n] == lines[..n];
      ScanStopsEarly(faults[..m], lines[..m], n);
    } else {
      assert faults[..n] == faults && lines[..n] == lines;
    }
  }

  /** One turn of such a loop: the two guards fail if and only if the sum comes out too large. */
  lemma GuardsAreExact(lines: seq<Priced>, n: nat)
    requires n < |lines| && Proper(lines[n]) && 0 <= Sum(lines[..n]) <= MAX_INT64
    ensures var (price, quantity, sum) := (lines[n].price, lines[n].quantity, Sum(lines[..n + 1]));
            && price * quantity == LineTotal(lines[n]) >= 0 && sum == Sum(lines[..n]) + LineTotal(lines[n])
            && (price > MAX_INT64 / quantity || (price * quantity > 0 && Sum(lines[..n]) > MAX_INT64 - price * quantity)
                <==> sum > MAX_INT64)
  {
    assert lines[..n + 1][..n] == lines[..n];
    Product(lines[n]);
    M.ProductFits(lines[n].price, lines[n].quantity);
  }

  lemma SumOfOneMore(lines: seq<Priced>, n: nat)
    requires n < |lines|
    ensures Sum(lines[..n + 1]) == Sum(lines[..n]) + LineTotal(lines[n])
  {
    assert lines[..n + 1][..n] == lines[..n];
    hide LineTotal;
  }

  /** The two guards around the total of one line. */
  method CheckedTotal(line: Priced, grandTotal: int) returns (over: bool, lineTotal: int)
    requires Proper(line) && 0 <= grandTotal <= MAX_INT64
    ensures over <==> grandTotal + LineTotal(line) > MAX_INT64
    ensures !over ==> lineTotal == LineTotal(line) >= 0
  {
    over, lineTotal := true, 0;
    Product(line);
    M.ProductFits(line.price, line.quantity);
    if line.price > MAX_INT64 / line.quantity { return; }
    lineTotal := line.price * line.quantity;
    over := lineTotal > 0 && grandTotal > MAX_INT64 - lineTotal;
  }

  /** One turn of the loop, and what it says about the whole. */
  lemma Turn(faults: seq<Option<Error>>, lines: seq<Priced>, i: nat)
    requires |faults| == |lines| && i < |lines| && Scan(faults[..i], lines[..i]).Fine?
    ensures faults[i].Some? ==> Scan(faults, lines) == Stopped(i, faults[i].value)
    ensures faults[i].None? && Sum(lines[..i + 1]) > MAX_INT64 ==> Scan(faults, lines) == Stopped(i, ArithmeticOverflow)
    ensures faults[i].None? && Sum(lines[..i + 1]) <= MAX_INT64 ==> Scan(faults[..i + 1], lines[..i + 1]).Fine?
  {
    assert faults[..i + 1][..i] == faults[..i] && lines[..i + 1][..i] == lines[..i];
    if Scan(faults[..i + 1], lines[..i + 1]).Stopped? { ScanStopsEarly(faults, lines, i + 1); }
  }

  // ---- the same by Money's own arithmetic ----------------------------------------------

  /** The lines multiplied and added up as amounts of money. */
  function Folded(lines: seq<Priced>, currency: string): M.Result {
    if lines == [] then M.Ok(M.Money(0, currency))
    else
      var before := Folded(lines[..|lines| - 1], currency);
      var last := lines[|lines| - 1];
      var product := M.Multiply(M.Money(last.price, currency), last.quantity);
      if before.Err? then before
      else if product.Err? then product
      else M.Add(before.money, product.money)
  }

  /** The loops agree with Money: the fold succeeds if and only if the sum fits, and is the sum. */
  lemma {:induction false} FoldedIsTheSum(lines: seq<Priced>, currency: string)
    requires forall i :: 0 <= i < |lines| ==>
               && Proper(lines[i])
               && lines[i].price <= MAX_INT64 && lines[i].quantity <= MAX_INT64
    ensures Folded(lines, currency)
            == if Sum(lines) <= MAX_INT64 then M.Ok(M.Money(Sum(lines), currency)) else M.Err(M.ArithmeticOverflow)
  {
    if lines != [] {
      var (n, last) := (|lines| - 1, lines[|lines| - 1]);
      FoldedIsTheSum(lines[..n], currency);
      SumGrows(lines, n);
      SumGrows(lines[..n], n);
      assert lines[..n][..n] == lines[..n];
      Product(last);
      M.MultiplyIsExact(M.Money(last.price, currency), last.quantity);
      if Sum(lines[..n]) <= MAX_INT64 && last.price * last.quantity <= MAX_INT64 {
        M.AddIsExact(M.Money(Sum(lines[..n]), currency), M.Money(last.price * last.quantity, currency));
      }
    }
  }

  // ---- orders --------------------------------------------------------------------------

  datatype OrderItem = OrderItem(sku: string, unitPrice: int, quantity: int, subtotal: int)

  function OrderLines(items: seq<OrderItem>): (lines: seq<Priced>)
    ensures |lines| == |items|
    ensures forall i :: 0 <= i < |items| ==> lines[i] == Priced(items[i].unitPrice, items[i].quantity)
  {
    seq(|items|, i requires 0 <= i < |items| => Priced(items[i].unitPrice, items[i].quantity))
  }

  function OrderFault(item: OrderItem): Option<Error> {
    if item.quantity <= 0 then Some(InvalidQuantity)
    else if item.unitPrice <= 0 then Some(InvalidPrice)
    else None
  }

  function OrderFaults(items: seq<OrderItem>): (faults: seq<Option<Error>>)
    ensures |faults| == |items|
    ensures forall i :: 0 <= i < |items| ==> faults[i] == OrderFault(items[i])
  {
    seq(|items|, i requires 0 <= i < |items| => OrderFault(items[i]))
  }

  function OrderVerdict(items: seq<OrderItem>): Option<Error> {
    if items == [] then Some(EmptyOrderItems)
    else if |items| > 100 then Some(MaxItemsExceeded)
    else match Scan(OrderFaults(items), OrderLines(items))
      case Fine => None
      case Stopped(_, e) => Some(e)
  }

  /** An order has a total if and only if it has 1 to 100 lines, all of them with a positive
      quantity and price, and the sum fits; and then it is what Money's arithmetic makes of it. */
  lemma {:induction false} OrderTotalIsExact(items: seq<OrderItem>, currency: string)
    requires forall i :: 0 <= i < |items| ==> FitsInt64(items[i].unitPrice) && FitsInt64(items[i].quantity)
    ensures OrderVerdict(items).None? <==>
              && 1 <= |items| <= 100
              && (forall i :: 0 <= i < |items| ==> items[i].quantity > 0 && items[i].unitPrice > 0)
              && Sum(OrderLines(items)) <= MAX_INT64
    ensures OrderVerdict(items).None? ==>
              Folded(OrderLines(items), currency) == M.Ok(M.Money(Sum(OrderLines(items)), currency))
    ensures OrderVerdict(items) == Some(ArithmeticOverflow) ==>
              exists n :: 0 < n <= |items| && Sum(OrderLines(items)[..n]) > MAX_INT64
                          && forall i :: 0 <= i < n ==> items[i].quantity > 0 && items[i].unitPrice > 0
  {
    var (faults, lines) := (OrderFaults(items), OrderLines(items));
    ScanIsExact(faults, lines);
    if OrderVerdict(items).None? {
      forall i | 0 <= i < |items| ensures Proper(lines[i]) { assert faults[i].None?; }
      FoldedIsTheSum(lines, currency);
    }
    if OrderVerdict(items) == Some(ArithmeticOverflow) {
      var at := Scan(faults, lines).at;
      assert forall i :: 0 <= i <= at ==> faults[i].None?;
      assert 0 < at + 1 <= |items| && Sum(lines[..at + 1]) > MAX_INT64;
    }
  }

  function Subtotalled(item: OrderItem): OrderItem {
    item.(subtotal := LineTotal(Priced(item.unitPrice, item.quantity)))
  }

  /** The items when the loop has stopped at one of them. */
  predicate StoppedAt(before: seq<OrderItem>, after: seq<OrderItem>, at: nat) {
    && |after| == |before|
    && forall i :: 0 <= i < |before| ==>
         || (i <= at && after[i] == Subtotalled(before[i]))
         || (i >= at && after[i] == before[i])
  }

  class Order {
    var items: array<OrderItem>
    var total: int
    var currency: string

    constructor (items: array<OrderItem>, currency: string)
      ensures this.items == items && total == 0 && this.currency == currency
    {
      this.items, this.total, this.currency := items, 0, currency;
    }

    /** Every item before the one where it stops has got its subtotal; that one may have; the
        order gets its total only at the end. */
    method CalculateTotals() returns (error: Option<Error>)
      modifies this`total, items
      ensures error == OrderVerdict(old(items[..]))
      ensures error.None? ==>
                && total == Sum(OrderLines(old(items[..])))
                && forall i :: 0 <= i < items.Length ==> items[i] == Subtotalled(old(items[i]))
      ensures error.Some? ==> total == old(total)
      ensures var v := Scan(OrderFaults(old(items[..])), OrderLines(old(items[..])));
              1 <= items.Length <= 100 && v.Stopped? ==> StoppedAt(old(items[..]), items[..], v.at)
    {
      if items.Length == 0 { return Some(EmptyOrderItems); }
      if items.Length > 100 { return Some(MaxItemsExceeded); }
      var grandTotal;
      error, grandTotal := FillSubtotals();
      if error.None? { total := grandTotal; }
    }

    method FillSubtotals() returns (error: Option<Error>, grandTotal: int)
      modifies items
      ensures var (v, lines) := (Scan(OrderFaults(old(items[..])), OrderLines(old(items[..]))),
                                    OrderLines(old(items[..])));
              && error == (if v.Fine? then None else Some(v.error))
              && (v.Fine? ==> grandTotal == Sum(lines)
                              && forall i :: 0 <= i < items.Length ==> items[i] == Subtotalled(old(items[i])))
              && (v.Stopped? ==> StoppedAt(old(items[..]), items[..], v.at))
    {
      ghost var (before, lines, faults) := (items[..], OrderLines(items[..]), OrderFaults(items[..]));
      grandTotal := 0;
      for i := 0 to items.Length
        invariant forall k :: 0 <= k < i ==> items[k] == Subtotalled(before[k])
        invariant forall k :: i <= k < items.Length ==> items[k] == before[k]
        invariant Scan(faults[..i], lines[..i]).Fine? && grandTotal == Sum(lines[..i]) && 0 <= grandTotal <= MAX_INT64
      {
        hide Scan, Sum, LineTotal;
        Turn(faults, lines, i);
        if items[i].quantity <= 0 { return Some(InvalidQuantity), 0; }
        if items[i].unitPrice <= 0 { return Some(InvalidPrice), 0; }
        GuardsAreExact(lines, i);
        var qty64 := items[i].quantity;
        if items[i].unitPrice > MAX_INT64 / qty64 { return Some(ArithmeticOverflow), 0; }
        var subtotal := items[i].unitPrice * qty64;
        items[i] := items[i].(subtotal := subtotal);
        if subtotal > 0 && grandTotal > MAX_INT64 - subtotal { return Some(ArithmeticOverflow), 0; }
        grandTotal := grandTotal + subtotal;
      }
      assert faults[..|faults|] == faults && lines[..|lines|] == lines;
      error := None;
    }
  }

  // ---- carts ---------------------------------------------------------------------------

  datatype CartItem = CartItem(sku: string, unitPriceMinor: int, quantity: int, unitPrice: M.Money, lineTotal: M.Money)

  function CartLines(items: seq<CartItem>): (lines: seq<Priced>)
    ensures |lines| == |items|
    ensures forall i :: 0 <= i < |items| ==> lines[i] == Priced(items[i].unitPriceMinor, items[i].quantity)
  {
    seq(|items|, i requires 0 <= i < |items| => Priced(items[i].unitPriceMinor, items[i].quantity))
  }

  function CartFault(item: CartItem, currency: string): Option<Error> {
    if item.quantity <= 0 then Some(InvalidQuantity)
    else if item.unitPriceMinor < 0 then Some(InvalidPrice)
    else if item.unitPrice.currency != "" && item.unitPrice.currency != currency then Some(CurrencyMismatch)
    else if item.lineTotal.currency != "" && item.lineTotal.currency != currency then Some(CurrencyMismatch)
    else None
  }

  function CartFaults(items: seq<CartItem>, currency: string): (faults: seq<Option<Error>>)
    ensures |faults| == |items|
    ensures forall i :: 0 <= i < |items| ==> faults[i] == CartFault(items[i], currency)
  {
    seq(|items|, i requires 0 <= i < |items| => CartFault(items[i], currency))
  }

  /** An item as the loop leaves it. */
  function Totalled(item: CartItem, currency: string): CartItem {
    item.(unitPrice := M.Money(item.unitPriceMinor, currency),
          lineTotal := M.Money(LineTotal(Priced(item.unitPriceMinor, item.quantity)), currency))
  }

  function CartCurrency(asked: string, own: string): string {
    if asked != "" then asked else if own != "" then own else "USD"
  }

  /** A cart's totals exist if and only if every line is valid and in the cart's currency and
      the sum fits; they are what Money's arithmetic makes of it. */
  lemma {:induction false} CartTotalIsExact(items: seq<CartItem>, currency: string)
    requires forall i :: 0 <= i < |items| ==> FitsInt64(items[i].unitPriceMinor) && FitsInt64(items[i].quantity)
    ensures var v := Scan(CartFaults(items, currency), CartLines(items));
            && (v.Fine? <==> (forall i :: 0 <= i < |items| ==> CartFault(items[i], currency).None?)
                             && Sum(CartLines(items)) <= MAX_INT64)
            && (v.Fine? ==> Folded(CartLines(items), currency) == M.Ok(M.Money(Sum(CartLines(items)), currency)))
  {
    var (faults, lines) := (CartFaults(items, currency), CartLines(items));
    ScanIsExact(faults, lines);
    assert (forall i :: 0 <= i < |items| ==> faults[i].None?)
       <==> forall i :: 0 <= i < |items| ==> CartFault(items[i], currency).None?;
    if Scan(faults, lines).Fine? {
      forall i | 0 <= i < |items| ensures Proper(lines[i]) { assert faults[i].None?; }
      FoldedIsTheSum(lines, currency);
    }
  }

  class Cart {
    var items: array<CartItem>
    var currency: string
    var total: M.Money

    constructor (items: array<CartItem>)
      ensures this.items == items && currency == "" && total == M.Money(0, "")
    {
      this.items, currency, total := items, "", M.Money(0, "");
    }

    /** The currency is set in any case; the items up to the one where the loop stops have got
        their prices and totals; the cart's total comes last. */
    method CalculateTotals(asked: string) returns (error: Option<Error>)
      modifies this`currency, this`total, items
      ensures currency == CartCurrency(asked, old(currency))
      ensures var v := Scan(CartFaults(old(items[..]), currency), CartLines(old(items[..])));
              && error == (if v.Fine? then None else Some(v.error))
              && (forall i :: 0 <= i < items.Length ==>
                    items[i] == if v.Fine? || i < v.at then Totalled(old(items[i]), currency) else old(items[i]))
      ensures total == if error.None? then M.Money(Sum(CartLines(old(items[..]))), currency) else old(total)
    {
      currency := if asked != "" then asked else if currency != "" then currency else "USD";
      var grandTotal;
      error, grandTotal := FillLines();
      if error.None? { total := M.Money(grandTotal, currency); }
    }

    method CheckItem(item: CartItem) returns (fault: Option<Error>)
      ensures fault == CartFault(item, currency)
      ensures fault.None? ==> item.quantity > 0 && item.unitPriceMinor >= 0
    {
      if item.quantity <= 0 { return Some(InvalidQuantity); }
      if item.unitPriceMinor < 0 { return Some(InvalidPrice); }
      if item.unitPrice.currency != "" && item.unitPrice.currency != currency { return Some(CurrencyMismatch); }
      if item.lineTotal.currency != "" && item.lineTotal.currency != currency { return Some(CurrencyMismatch); }
      fault := None;
    }

    /** What is wrong with a line after a total of `grandTotal`, if anything. */
    function LineFault(item: CartItem, grandTotal: int): Option<Error>
      reads this`currency
    {
      if CartFault(item, currency).Some? then CartFault(item, currency)
      else
        var total := grandTotal + LineTotal(Priced(item.unitPriceMinor, item.quantity));
        if total > MAX_INT64 then Some(ArithmeticOverflow) else None
    }

    /** One turn of the loop. */
    method FillLine(i: nat, grandTotal: int) returns (error: Option<Error>, total: int)
      requires i < items.Length && 0 <= grandTotal <= MAX_INT64
      modifies items
      ensures error == LineFault(old(items[i]), grandTotal)
      ensures error.None? ==>
                && total == grandTotal + LineTotal(Priced(old(items[i]).unitPriceMinor, old(items[i]).quantity))
                && grandTotal <= total <= MAX_INT64
      ensures items[i] == if error.None? then Totalled(old(items[i]), currency) else old(items[i])
      ensures forall k :: 0 <= k < items.Length && k != i ==> items[k] == old(items[k])
    {
      var item := items[i];
      total := grandTotal;
      error := CheckItem(item);
      if error.Some? { return; }
      var over, lineTotalMinor := CheckedTotal(Priced(item.unitPriceMinor, item.quantity), grandTotal);
      if over { return Some(ArithmeticOverflow), grandTotal; }
      total := grandTotal + lineTotalMinor;
      items[i] := item.(unitPrice := M.Money(item.unitPriceMinor, currency),
                        lineTotal := M.Money(lineTotalMinor, currency));
    }

    method FillLines() returns (error: Option<Error>, grandTotal: int)
      modifies items
      ensures var (v, lines) := (Scan(CartFaults(old(items[..]), currency), CartLines(old(items[..]))),
                                    CartLines(old(items[..])));
              && error == (if v.Fine? then None else Some(v.error)) && (v.Fine? ==> grandTotal == Sum(lines))
              && (forall i :: 0 <= i < items.Length ==>
                    items[i] == if v.Fine? || i < v.at then Totalled(old(items[i]), currency) else old(items[i]))
    {
      ghost var (before, lines, faults) := (items[..], CartLines(items[..]), CartFaults(items[..], currency));
      grandTotal := 0;
      for i := 0 to items.Length
        invariant forall k :: 0 <= k < i ==> items[k] == Totalled(before[k], currency)
        invariant forall k :: i <= k < items.Length ==> items[k] == before[k]
        invariant Scan(faults[..i], lines[..i]).Fine? && grandTotal == Sum(lines[..i]) && 0 <= grandTotal <= MAX_INT64
      {
        hide *;
        Turn(faults, lines, i);
        SumOfOneMore(lines, i);
        error, grandTotal := FillLine(i, grandTotal);
        if error.Some? { return; }
      }
      assert faults[..|faults|] == faults && lines[..|lines|] == lines;
      error := None;
    }
  }
}
