/** What is in a cart, and why: what the committed changes add up to, which request each of them
    came from, and what a request does when nobody else acts. */
module CartStory {
  import opened Common
  import opened Text
  import opened CartRuns

  // ---- what the changes add up to ------------------------------------------------------

  /** The change sets what it finds of the SKU aside. */
  predicate Resets(op: Op, sku: string) {
    op.Clear? || op == Remove(sku) || (op.Set? && op.sku == sku)
  }

  /** Every one of these changes leaves the quantity of the SKU alone or adds to it. */
  predicate NoReset(done: seq<Commit>, from: nat, sku: string) {
    forall i :: from <= i < |done| ==> !Resets(done[i].op, sku)
  }

  /** What the additions among the changes from `from` on add up to. */
  function SumAdded(done: seq<Commit>, from: nat, sku: string): int
    requires from <= |done|
  {
    if from == |done| then 0
    else
      var (n, op) := (|done| - 1, done[|done| - 1].op);
      SumAdded(done[..n], from, sku) + if op.Add? && op.sku == sku then op.quantity else 0
  }

  /** The last change of the SKU's price. */
  predicate LastPriced(done: seq<Commit>, i: nat, sku: string) {
    && i < |done| && done[i].op.Add? && done[i].op.sku == sku
    && forall j :: i < j < |done| && done[j].op.Add? ==> done[j].op.sku != sku
  }

  /** `from` comes right behind the last change that sets the SKU aside, if there is one. */
  predicate LastReset(done: seq<Commit>, from: nat, sku: string) {
    from <= |done| && (from > 0 ==> Resets(done[from - 1].op, sku)) && NoReset(done, from, sku)
  }

  function SetTo(done: seq<Commit>, from: nat): int
    requires from <= |done|
  {
    if from > 0 && done[from - 1].op.Set? then done[from - 1].op.quantity else 0
  }

  /** The SKU is in the cart if anything is left of it, in that quantity. */
  ghost predicate Adds(done: seq<Commit>, items: Items, from: nat, sku: string)
    requires from <= |done|
  {
    var quantity := SetTo(done, from) + SumAdded(done, from, sku);
    && quantity >= 0
    && (sku in items <==> quantity > 0)
    && (sku in items ==> items[sku].quantity == quantity)
  }

  predicate AllOpsOk(done: seq<Commit>) {
    forall i :: 0 <= i < |done| ==> OpOk(done[i].op)
  }

  lemma OneChange(items: Items, op: Op, sku: string)
    requires Apply(items, op).Some?
    ensures var items' := Apply(items, op).value;
            && (!Resets(op, sku) && !(op.Add? && op.sku == sku) ==>
                  (sku in items' <==> sku in items) && (sku in items ==> items'[sku] == items[sku]))
            && (op.Add? && op.sku == sku ==>
                  sku in items' && items'[sku].price == op.price
                  && items'[sku].quantity == op.quantity + if sku in items then items[sku].quantity else 0)
            && (Resets(op, sku) && !op.Set? ==> sku !in items')
            && (op.Set? && op.sku == sku ==>
                  sku in items && sku in items' && items'[sku] == Entry(op.quantity, items[sku].price))
  {
  }

  lemma {:induction false} FoldAdds(done: seq<Commit>, from: nat, sku: string)
    requires AllOpsOk(done) && Fold(done).Some? && LastReset(done, from, sku)
    ensures Adds(done, Fold(done).value, from, sku)
  {
    if done != [] {
      hide Apply, TrimSpace;
      var (n, op) := (|done| - 1, done[|done| - 1].op);
      OneChange(Fold(done[..n]).value, op, sku);
      if from <= n {
        assert !Resets(op, sku) && LastReset(done[..n], from, sku);
        FoldAdds(done[..n], from, sku);
      }
    }
  }

  lemma {:induction false} FoldPrices(done: seq<Commit>, i: nat, sku: string)
    requires Fold(done).Some? && LastPriced(done, i, sku) && sku in Fold(done).value
    ensures Fold(done).value[sku].price == done[i].op.price
  {
    var (n, op) := (|done| - 1, done[|done| - 1].op);
    OneChange(Fold(done[..n]).value, op, sku);
    hide Apply;
    if i < n {
      assert LastPriced(done[..n], i, sku);
      FoldPrices(done[..n], i, sku);
    }
  }

  /** A SKU is in the cart in the quantity that it was last set to, or none if it was removed or
      the cart was cleared after that, and what was added since; and at the price of the last
      addition. */
  lemma {:induction false} CartAddsUp(owner: Id, acts: seq<Action>, sku: string, from: nat, last: nat)
    requires LastReset(Run(owner, acts).w.done, from, sku)
    ensures var (done, items) := (Run(owner, acts).w.done, Run(owner, acts).w.items);
            var quantity := SetTo(done, from) + SumAdded(done, from, sku);
            && (sku in items <==> quantity > 0)
            && (sku in items ==> items[sku].quantity == quantity)
            && (sku in items && LastPriced(done, last, sku) ==> items[sku].price == done[last].op.price)
  {
    assert from <= |Run(owner, acts).w.done|;
    hide *;
    var w := Run(owner, acts).w;
    CartIsItsHistory(owner, acts, []);
    AllAreOk(owner, acts);
    FoldAdds(w.done, from, sku);
    ReadsAdds(w.done, w.items, from, sku);
    if sku in w.items && LastPriced(w.done, last, sku) { FoldPrices(w.done, last, sku); }
  }

  lemma ReadsAdds(done: seq<Commit>, items: Items, from: nat, sku: string)
    requires from <= |done| && Adds(done, items, from, sku)
    ensures var quantity := SetTo(done, from) + SumAdded(done, from, sku);
            (sku in items <==> quantity > 0) && (sku in items ==> items[sku].quantity == quantity)
  {
  }

  lemma AllAreOk(owner: Id, acts: seq<Action>)
    ensures AllOpsOk(Run(owner, acts).w.done)
  {
    EachWasAsked(owner, acts);
    hide Run, OpOk, WasAsked;
  }

  // ---- where the changes come from -----------------------------------------------------

  /** This call asks for this change. */
  predicate AsksFor(a: Action, pid: nat, owner: Id, op: Op, expected: int) {
    && a.Call? && a.pid == pid && a.user == owner != NIL_ID && a.expected == expected > 0
    && match a.request
       case AddItem(sku, quantity) =>
         quantity > 0 && op.Add? && op.sku == TrimSpace(sku) != "" && op.quantity == quantity
       case UpdateQuantity(sku, quantity) => op == if quantity <= 0 then Remove(sku) else Set(sku, quantity)
       case RemoveItem(sku) => op == Remove(sku)
       case ClearCart => op == Clear
  }

  /** The catalog offered something at this price. */
  predicate OffersAt(a: Action, pid: nat, price: int) {
    && a.Go? && a.pid == pid && a.product.Some?
    && var p := a.product.value;
       p.active && p.currency in {"", "USD"} && price > 0 && price == if p.amount > 0 then p.amount else p.priceMinor
  }

  ghost predicate WasAsked(acts: seq<Action>, pid: nat, owner: Id, op: Op, expected: int) {
    && (exists i :: 0 <= i < |acts| && AsksFor(acts[i], pid, owner, op, expected))
    && (op.Add? ==> exists i :: 0 <= i < |acts| && OffersAt(acts[i], pid, op.price))
  }

  /** The call that this request comes from, trimmed or turned into a removal. */
  predicate CallsFor(a: Action, pid: nat, user: Id, request: Request, expected: int) {
    a.Call? && a.pid == pid && a.user == user != NIL_ID && a.expected == expected > 0
    && match a.request
       case AddItem(sku, quantity) =>
         quantity > 0 && TrimSpace(sku) != "" && request == AddItem(TrimSpace(sku), quantity)
       case UpdateQuantity(sku, quantity) =>
         request == if quantity <= 0 then RemoveItem(sku) else UpdateQuantity(sku, quantity)
       case _ => request == a.request
  }

  ghost predicate Called(acts: seq<Action>, pid: nat, user: Id, request: Request, expected: int) {
    exists i :: 0 <= i < |acts| && CallsFor(acts[i], pid, user, request, expected)
  }

  ghost predicate PcStems(acts: seq<Action>, owner: Id, pid: nat, pc: Pc) {
    match pc
    case Reading(request, user, expected) =>
      Called(acts, pid, user, request, expected)
      && (request.UpdateQuantity? ==> request.quantity > 0)
    case Offering(sku, quantity, expected) => Called(acts, pid, owner, AddItem(sku, quantity), expected)
    case Writing(op, expected) => WasAsked(acts, pid, owner, op, expected)
    case _ => true
  }

  ghost predicate CommitStems(acts: seq<Action>, owner: Id, c: Commit) {
    WasAsked(acts, c.pid, owner, c.op, c.expected) && OpOk(c.op)
  }

  ghost predicate Stems(acts: seq<Action>, owner: Id, s: Sys) {
    && (forall pid :: pid in s.procs ==> PcStems(acts, owner, pid, s.procs[pid]))
    && (forall i :: 0 <= i < |s.w.done| ==> CommitStems(acts, owner, s.w.done[i]))
  }

  lemma StillAsked(acts: seq<Action>, a: Action, pid: nat, owner: Id, op: Op, expected: int)
    requires WasAsked(acts, pid, owner, op, expected)
    ensures WasAsked(acts + [a], pid, owner, op, expected)
  {
    hide AsksFor, OffersAt;
    assert forall i :: 0 <= i < |acts| ==> (acts + [a])[i] == acts[i];
  }

  lemma StillCalled(acts: seq<Action>, a: Action, pid: nat, user: Id, request: Request, expected: int)
    requires Called(acts, pid, user, request, expected)
    ensures Called(acts + [a], pid, user, request, expected)
  {
    hide CallsFor;
    assert forall i :: 0 <= i < |acts| ==> (acts + [a])[i] == acts[i];
  }

  lemma StillStems(acts: seq<Action>, a: Action, owner: Id, pid: nat, pc: Pc)
    requires PcStems(acts, owner, pid, pc)
    ensures PcStems(acts + [a], owner, pid, pc)
  {
    hide Called, WasAsked;
    match pc
    case Reading(request, user, expected) => StillCalled(acts, a, pid, user, request, expected);
    case Offering(sku, quantity, expected) => StillCalled(acts, a, pid, owner, AddItem(sku, quantity), expected);
    case Writing(op, expected) => StillAsked(acts, a, pid, owner, op, expected);
    case _ =>
  }

  lemma CallStems(acts: seq<Action>, a: Action, owner: Id)
    requires a.Call?
    ensures PcStems(acts + [a], owner, a.pid, Begin(a.request, a.user, a.expected))
  {
    hide TrimSpace;
    assert (acts + [a])[|acts|] == a;
    var pc := Begin(a.request, a.user, a.expected);
    if pc.Reading? {
      assert CallsFor(a, a.pid, pc.user, pc.request, pc.expected);
    }
  }

  lemma ReadStems(acts: seq<Action>, owner: Id, pid: nat, request: Request, expected: int)
    requires Called(acts, pid, owner, request, expected) && (request.UpdateQuantity? ==> request.quantity > 0)
    ensures PcStems(acts, owner, pid, AfterReading(request, expected))
  {
    hide TrimSpace;
    var i :| 0 <= i < |acts| && CallsFor(acts[i], pid, owner, request, expected);
    var pc := AfterReading(request, expected);
    if pc.Writing? { assert AsksFor(acts[i], pid, owner, pc.op, expected); }
  }

  lemma OfferStems(acts: seq<Action>, a: Action, owner: Id, pc: Pc)
    requires a.Go? && pc.Offering? && PcStems(acts, owner, a.pid, pc)
    ensures PcStems(acts + [a], owner, a.pid, Offer(pc.sku, pc.quantity, pc.expected, a.product))
  {
    hide TrimSpace;
    StillStems(acts, a, owner, a.pid, pc);
    var i :| 0 <= i < |acts + [a]|
             && CallsFor((acts + [a])[i], a.pid, owner, AddItem(pc.sku, pc.quantity), pc.expected);
    var pc' := Offer(pc.sku, pc.quantity, pc.expected, a.product);
    if pc'.Writing? {
      assert AsksFor((acts + [a])[i], a.pid, owner, pc'.op, pc.expected);
      assert (acts + [a])[|acts|] == a && OffersAt(a, a.pid, pc'.op.price);
    }
  }

  /** The process that acts, and what it commits. */
  lemma ActStems(acts: seq<Action>, a: Action, w: World, pc: Pc)
    requires a.Go? && PcStems(acts, w.owner, a.pid, pc) && PcOk(w, a.pid, pc)
    ensures var (w', pc') := Act(w, a.pid, pc, a.d, a.product);
            && PcStems(acts + [a], w.owner, a.pid, pc')
            && (w'.done == w.done
                || exists c :: w'.done == w.done + [c] && CommitStems(acts + [a], w.owner, c))
  {
    StillStems(acts, a, w.owner, a.pid, pc);
    hide WasAsked, Called, Apply, TotalsFit, Begin;
    match pc
    case Reading(request, user, expected) =>
      if user == w.owner { ReadStems(acts + [a], w.owner, a.pid, request, expected); }
      hide AfterReading;
    case Offering(sku, quantity, expected) =>
      OfferStems(acts, a, w.owner, pc);
      hide Offer;
    case Writing(op, expected) =>
      assert CommitStems(acts + [a], w.owner, Commit(a.pid, op, expected));
    case _ =>
  }

  lemma StepStems(acts: seq<Action>, a: Action, owner: Id, s: Sys)
    requires Stems(acts, owner, s) && Inv(s) && s.w.owner == owner
    ensures Stems(acts + [a], owner, Step(s, a))
  {
    hide Act, PcStems, WasAsked, PcOk, OpOk, Core, OnceEach, Begin;
    var s' := Step(s, a);
    if a.Go? && a.pid in s.procs { ActStems(acts, a, s.w, s.procs[a.pid]); }
    if a.Call? { CallStems(acts, a, owner); }
    forall pid | pid in s'.procs ensures PcStems(acts + [a], owner, pid, s'.procs[pid]) {
      if pid in s.procs { StillStems(acts, a, owner, pid, s.procs[pid]); }
    }
    forall i | 0 <= i < |s.w.done| ensures CommitStems(acts + [a], owner, s.w.done[i]) {
      assert CommitStems(acts, owner, s.w.done[i]);
      StillAsked(acts, a, s.w.done[i].pid, owner, s.w.done[i].op, s.w.done[i].expected);
    }
  }

  /** Every committed change is one that the owner asked for, with the version that it was then
      applied to; what was added was offered by the catalog at that price. */
  lemma {:induction false} EachWasAsked(owner: Id, acts: seq<Action>)
    ensures var done := Run(owner, acts).w.done;
            forall i :: 0 <= i < |done| ==>
              OpOk(done[i].op) && WasAsked(acts, done[i].pid, owner, done[i].op, i + 1)
  {
    hide Run, WasAsked, OpOk, PcStems, Fold;
    AllStem(owner, acts);
    CartIsItsHistory(owner, acts, []);
    var w := Run(owner, acts).w;
    forall i | 0 <= i < |w.done|
      ensures WasAsked(acts, w.done[i].pid, owner, w.done[i].op, i + 1) && OpOk(w.done[i].op)
    {
      assert CommitStems(acts, owner, w.done[i]);
    }
  }

  lemma {:induction false} AllStem(owner: Id, acts: seq<Action>)
    ensures Stems(acts, owner, Run(owner, acts))
  {
    if acts != [] {
      var (before, a) := (acts[..|acts| - 1], acts[|acts| - 1]);
      AllStem(owner, before);
      Reachable(owner, before);
      hide Step, Inv, Stems;
      StepStems(before, a, owner, Run(owner, before));
      assert before + [a] == acts;
    }
  }

  // ---- one request, alone ----------------------------------------------------------------

  /** The request can be granted as the cart and the catalog are now. */
  predicate Grantable(w: World, request: Request, user: Id, expected: int, product: Option<Product>) {
    && user == w.owner != NIL_ID && expected == w.version > 0 && w.active
    && match request
       case AddItem(sku, quantity) =>
         && quantity > 0 && 0 < |TrimSpace(sku)| <= 64 && Had(w.items, TrimSpace(sku)) + quantity <= MAX_INT32
         && quantity <= MAX_INT32
         && product.Some? && product.value.active && product.value.currency in {"", "USD"}
         && (product.value.amount > 0 || product.value.priceMinor > 0)
       case UpdateQuantity(sku, quantity) => sku in w.items && quantity <= MAX_INT32
       case RemoveItem(sku) => sku in w.items
       case ClearCart => true
  }

  function Had(items: Items, sku: string): int {
    if sku in items then items[sku].quantity else 0
  }

  /** The cart is what the request asks for, and the rest of it as it was. */
  predicate Granted(items: Items, items': Items, request: Request, product: Option<Product>) {
    match request
    case AddItem(sku, quantity) =>
      && product.Some? && var (name, p) := (TrimSpace(sku), product.value);
      && items'.Keys == items.Keys + {name}
      && items'[name] == Entry(Had(items, name) + quantity, if p.amount > 0 then p.amount else p.priceMinor)
      && forall other :: other in items && other != name ==> items'[other] == items[other]
    case UpdateQuantity(sku, quantity) =>
      if quantity <= 0 then items' == items - {sku}
      else
        && items'.Keys == items.Keys && sku in items
        && items'[sku].quantity == quantity && items'[sku].price == items[sku].price
        && forall other :: other in items && other != sku ==> items'[other] == items[other]
    case RemoveItem(sku) => items' == items - {sku}
    case ClearCart => items' == map[]
  }

  /** Why a request that cannot be granted is refused: the first of these that is so. */
  function WhyNot(w: World, request: Request, user: Id, expected: int, product: Option<Product>): Error {
    if user == NIL_ID then Unauthorized
    else if expected <= 0 then InvalidVersion
    else if request.AddItem? && request.quantity <= 0 then InvalidQuantity
    else if request.AddItem? && TrimSpace(request.sku) == "" then EmptySku
    else if user != w.owner then Forbidden
    else if !w.active then CartNotActive
    else if expected != w.version then OptimisticLockConflict
    else if !request.AddItem? then
      if request.UpdateQuantity? && request.quantity > MAX_INT32 then Storage else ItemNotFound
    else if product.None? || !product.value.active then ProductUnavailable
    else if product.value.currency !in {"", "USD"} then CurrencyMismatch
    else if product.value.amount <= 0 && product.value.priceMinor <= 0 then InvalidPrice
    else Storage
  }

  /** It is granted, and the reply says so, unless the totals do not fit; or nothing changes. */
  predicate Ends(w: World, w': World, pc: Pc, request: Request, user: Id, expected: int, product: Option<Product>) {
    && pc.Done?
    && if Grantable(w, request, user, expected, product) then
         && Granted(w.items, w'.items, request, product) && w'.version == w.version + 1
         && pc.reply == if request.ClearCart? || TotalsFit(w'.items) then Changed(w'.version, w'.items)
                        else Failed(ArithmeticOverflow)
       else w' == w && pc.reply == Failed(WhyNot(w, request, user, expected, product))
  }

  /** A request when nobody else acts and everything is delivered: it is granted exactly if it can
      be, and then the cart is what it asks for in the next version; otherwise it fails for the
      first reason there is, and nothing changes. */
  lemma {:induction false} CallAlone(
      s: Sys, pid: nat, request: Request, user: Id, expected: int, product: Option<Product>)
    requires pid !in s.procs
    ensures var go := Go(pid, Delivered, product);
            var s' := Step(Step(Step(Step(Step(s, Call(pid, request, user, expected)), go), go), go), go);
            pid in s'.procs && Ends(s.w, s'.w, s'.procs[pid], request, user, expected, product)
  {
    hide *;
    CallBegins(s, pid, request, user, expected);
    FourGos(Step(s, Call(pid, request, user, expected)), pid, product);
    match request
    case AddItem(sku, quantity) => AddEnds(s.w, pid, sku, quantity, user, expected, product);
    case _ => ChangeEnds(s.w, pid, request, user, expected, product);
  }

  lemma CallBegins(s: Sys, pid: nat, request: Request, user: Id, expected: int)
    requires pid !in s.procs
    ensures var s' := Step(s, Call(pid, request, user, expected));
            s'.w == s.w && pid in s'.procs && s'.procs[pid] == Begin(request, user, expected)
  {
  }

  lemma OneGo(s: Sys, pid: nat, product: Option<Product>)
    requires pid in s.procs
    ensures var s' := Step(s, Go(pid, Delivered, product));
            pid in s'.procs && (s'.w, s'.procs[pid]) == Next(s.w, pid, s.procs[pid], product)
  {
    hide Act;
  }

  function Next(w: World, pid: nat, pc: Pc, product: Option<Product>): (World, Pc) {
    Act(w, pid, pc, Delivered, product)
  }

  function Four(w: World, pid: nat, pc: Pc, product: Option<Product>): (World, Pc) {
    var (w1, pc1) := Next(w, pid, pc, product);
    var (w2, pc2) := Next(w1, pid, pc1, product);
    var (w3, pc3) := Next(w2, pid, pc2, product);
    Next(w3, pid, pc3, product)
  }

  lemma FourGos(s: Sys, pid: nat, product: Option<Product>)
    requires pid in s.procs
    ensures var go := Go(pid, Delivered, product);
            var s' := Step(Step(Step(Step(s, go), go), go), go);
            pid in s'.procs && (s'.w, s'.procs[pid]) == Four(s.w, pid, s.procs[pid], product)
  {
    hide Step, Next;
    var go := Go(pid, Delivered, product);
    OneGo(s, pid, product);
    OneGo(Step(s, go), pid, product);
    OneGo(Step(Step(s, go), go), pid, product);
    OneGo(Step(Step(Step(s, go), go), go), pid, product);
  }

  lemma AddEnds(
      w: World, pid: nat, sku: string, quantity: int, user: Id, expected: int, product: Option<Product>)
    ensures var (w', pc') := Four(w, pid, Begin(AddItem(sku, quantity), user, expected), product);
            Ends(w, w', pc', AddItem(sku, quantity), user, expected, product)
  {
    hide TotalsFit, TrimSpace;
  }

  lemma ChangeEnds(w: World, pid: nat, request: Request, user: Id, expected: int, product: Option<Product>)
    requires !request.AddItem?
    ensures var (w', pc') := Four(w, pid, Begin(request, user, expected), product);
            Ends(w, w', pc', request, user, expected, product)
  {
    hide TotalsFit, TrimSpace;
  }
}
