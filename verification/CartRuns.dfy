/** One cart and any number of requests that change it at once, cut at every read and at the
    transaction that acts on what was read. */
module CartRuns {
  import opened Common
  import opened Text
  import T = Totals

  datatype Entry = Entry(quantity: int, price: int)

  type Items = map<string, Entry>

  datatype Op = Add(sku: string, quantity: int, price: int)
    | Set(sku: string, quantity: int) | Remove(sku: string) | Clear

  datatype Request = AddItem(sku: string, quantity: int)
    | UpdateQuantity(sku: string, quantity: int) | RemoveItem(sku: string) | ClearCart

  datatype Product = Product(active: bool, currency: string, amount: int, priceMinor: int)

  datatype Error =
    | Unauthorized | InvalidVersion | InvalidQuantity | EmptySku | Forbidden | CartNotActive | OptimisticLockConflict
    | ProductUnavailable | CurrencyMismatch | InvalidPrice | ItemNotFound | ArithmeticOverflow | Storage

  datatype Reply = Changed(version: nat, items: Items) | Failed(error: Error)

  /** A committed change: whose, what, and for which version it was meant. */
  datatype Commit = Commit(pid: nat, op: Op, expected: int)

  datatype World = World(owner: Id, active: bool, version: nat, items: Items, done: seq<Commit>)

  datatype Pc =
    | Reading(request: Request, user: Id, expected: int)
    | Offering(sku: string, quantity: int, expected: int)
    | Writing(op: Op, expected: int)
    | Reloading(version: nat)
    | Done(reply: Reply)

  datatype Sys = Sys(w: World, procs: map<nat, Pc>)

  datatype Action =
    | Call(pid: nat, request: Request, user: Id, expected: int)
    | Go(pid: nat, d: Delivery, product: Option<Product>)
    | Deactivate

  /** One item statement; None when it raises an error or finds no row. The columns are INT. */
  function Apply(items: Items, op: Op): Option<Items> {
    match op
    case Add(sku, quantity, price) =>
      var sum := if sku in items then items[sku].quantity + quantity else quantity;
      if |sku| > 64 || quantity > MAX_INT32 || sum > MAX_INT32 then None else Some(items[sku := Entry(sum, price)])
    case Set(sku, quantity) =>
      if sku !in items || quantity > MAX_INT32 then None else Some(items[sku := items[sku].(quantity := quantity)])
    case Remove(sku) => if sku !in items then None else Some(items - {sku})
    case Clear => Some(map[])
  }

  /** What an item statement that does not go through returns. */
  function Refusal(op: Op): Error {
    if op.Add? || (op.Set? && op.quantity > MAX_INT32) then Storage else ItemNotFound
  }

  /** The rows as GetCartItems lists them. */
  function Listing(items: Items): (l: seq<T.CartItem>)
    ensures |l| == |Sorted(items.Keys)|
    ensures forall i :: 0 <= i < |l| ==>
              var sku := Sorted(items.Keys)[i];
              l[i] == T.CartItem(sku, items[sku].price, items[sku].quantity, T.M.Money(0, ""), T.M.Money(0, ""))
  {
    var skus := Sorted(items.Keys);
    seq(|skus|, i requires 0 <= i < |skus| =>
      T.CartItem(skus[i], items[skus[i]].price, items[skus[i]].quantity, T.M.Money(0, ""), T.M.Money(0, "")))
  }

  /** Whether CalculateTotals gets through them. */
  predicate TotalsFit(items: Items) {
    T.Scan(T.CartFaults(Listing(items), "USD"), T.CartLines(Listing(items))).Fine?
  }

  /** A call up to its first access. */
  function Begin(request: Request, user: Id, expected: int): Pc {
    if user == NIL_ID then Done(Failed(Unauthorized))
    else if expected <= 0 then Done(Failed(InvalidVersion))
    else match request
      case AddItem(sku, quantity) =>
        if quantity <= 0 then Done(Failed(InvalidQuantity))
        else if TrimSpace(sku) == "" then Done(Failed(EmptySku))
        else Reading(AddItem(TrimSpace(sku), quantity), user, expected)
      case UpdateQuantity(sku, quantity) =>
        Reading(if quantity <= 0 then RemoveItem(sku) else request, user, expected)
      case _ => Reading(request, user, expected)
  }

  /** What a request writes, once its cart has been read. */
  function AfterReading(request: Request, expected: int): Pc {
    match request
    case AddItem(sku, quantity) => Offering(sku, quantity, expected)
    case UpdateQuantity(sku, quantity) => Writing(Set(sku, quantity), expected)
    case RemoveItem(sku) => Writing(Remove(sku), expected)
    case ClearCart => Writing(Clear, expected)
  }

  function Offer(sku: string, quantity: int, expected: int, product: Option<Product>): Pc {
    if product.None? || !product.value.active then Done(Failed(ProductUnavailable))
    else
      var p := product.value;
      var price := if p.amount <= 0 && p.priceMinor > 0 then p.priceMinor else p.amount;
      if p.currency != "" && p.currency != "USD" then Done(Failed(CurrencyMismatch))
      else if price <= 0 then Done(Failed(InvalidPrice))
      else Writing(Add(sku, quantity, price), expected)
  }

  /** The next version of the cart. */
  function CommittedWorld(w: World, pid: nat, op: Op, expected: int): World
    requires Apply(w.items, op).Some?
  {
    w.(version := w.version + 1, items := Apply(w.items, op).value, done := w.done + [Commit(pid, op, expected)])
  }

  function Act(w: World, pid: nat, pc: Pc, d: Delivery, product: Option<Product>): (World, Pc) {
    match pc
    case Reading(request, user, expected) =>
      (w, if !d.Delivered? then Done(Failed(Storage))
          else if w.owner != user then Done(Failed(Forbidden))
          else if !w.active then Done(Failed(CartNotActive))
          else if w.version != expected then Done(Failed(OptimisticLockConflict))
          else AfterReading(request, expected))
    case Offering(sku, quantity, expected) => (w, Offer(sku, quantity, expected, product))
    case Writing(op, expected) =>
      if d.NotSent? then (w, Done(Failed(Storage)))
      else if !w.active then (w, Done(Failed(CartNotActive)))
      else if w.version != expected then (w, Done(Failed(OptimisticLockConflict)))
      else if Apply(w.items, op).None? then (w, Done(Failed(Refusal(op))))
      else
        (CommittedWorld(w, pid, op, expected),
         if !d.Delivered? then Done(Failed(Storage))
         else if op.Clear? then Done(Changed(w.version + 1, map[]))
         else Reloading(w.version + 1))
    case Reloading(version) =>
      (w, Done(if !d.Delivered? then Failed(Storage)
               else if !TotalsFit(w.items) then Failed(ArithmeticOverflow)
               else Changed(version, w.items)))
    case Done(_) => (w, pc)
  }

  function Step(s: Sys, a: Action): Sys {
    match a
    case Call(pid, request, user, expected) =>
      if pid in s.procs then s else s.(procs := s.procs[pid := Begin(request, user, expected)])
    case Go(pid, d, product) =>
      if pid !in s.procs then s else
        var (w', pc') := Act(s.w, pid, s.procs[pid], d, product);
        Sys(w', s.procs[pid := pc'])
    case Deactivate => s.(w := s.w.(active := false))
  }

  /** A cart as CreateCart makes it. */
  function Run(owner: Id, acts: seq<Action>): Sys {
    if acts == [] then Sys(World(owner, true, 1, map[], []), map[])
    else Step(Run(owner, acts[..|acts| - 1]), acts[|acts| - 1])
  }

  // ---- the invariant -------------------------------------------------------------------

  /** The committed changes, one after the other, on an empty cart. */
  function Fold(done: seq<Commit>): Option<Items> {
    if done == [] then Some(map[])
    else
      var before := Fold(done[..|done| - 1]);
      if before.None? then None else Apply(before.value, done[|done| - 1].op)
  }

  predicate EntriesOk(items: Items) {
    forall sku :: sku in items ==> 0 < items[sku].quantity <= MAX_INT32 && items[sku].price > 0
  }

  predicate OpOk(op: Op) {
    (op.Add? ==> op.quantity > 0 && op.price > 0) && (op.Set? ==> op.quantity > 0)
  }

  predicate Core(w: World) {
    && w.version == 1 + |w.done| && Fold(w.done) == Some(w.items) && EntriesOk(w.items)
    && forall i :: 0 <= i < |w.done| ==> w.done[i].expected == i + 1
  }

  /** The process has committed its change as the one for this version. */
  predicate Committed(w: World, pid: nat, version: nat) {
    2 <= version <= w.version && version - 2 < |w.done| && w.done[version - 2].pid == pid
  }

  /** The items are those of a version no older than the one reported. */
  ghost predicate ItemsOf(w: World, version: nat, items: Items) {
    exists k :: 0 <= k <= |w.done| && version - 1 <= k && Fold(w.done[..k]) == Some(items)
  }

  ghost predicate PcOk(w: World, pid: nat, pc: Pc) {
    match pc
    case Reading(request, _, expected) =>
      expected > 0 && (request.AddItem? || request.UpdateQuantity? ==> request.quantity > 0)
    case Offering(_, quantity, expected) => quantity > 0 && expected > 0
    case Writing(op, expected) => OpOk(op) && expected > 0
    case Reloading(version) => Committed(w, pid, version)
    case Done(Changed(version, items)) => Committed(w, pid, version) && ItemsOf(w, version, items)
    case _ => true
  }

  predicate HasCommitted(w: World, pid: nat) {
    exists i :: 0 <= i < |w.done| && w.done[i].pid == pid
  }

  /** Whether a request with this answer has taken effect; the answer may leave it open. */
  predicate AnswerFits(w: World, pid: nat, reply: Reply) {
    reply.Failed? ==>
      && (reply.error.ArithmeticOverflow? ==> HasCommitted(w, pid))
      && (!reply.error.ArithmeticOverflow? && !reply.error.Storage? ==> !HasCommitted(w, pid))
  }

  /** Who has not written yet has no change among the committed ones, and nobody has two. */
  ghost predicate OnceEach(s: Sys) {
    && (forall pid :: pid in s.procs && s.procs[pid].Done? ==> AnswerFits(s.w, pid, s.procs[pid].reply))
    && (forall i :: 0 <= i < |s.w.done| ==>
          && s.w.done[i].pid in s.procs
          && (s.procs[s.w.done[i].pid].Done? || s.procs[s.w.done[i].pid].Reloading?))
    && (forall i, j :: 0 <= i < j < |s.w.done| ==> s.w.done[i].pid != s.w.done[j].pid)
  }

  ghost predicate Inv(s: Sys) {
    && Core(s.w) && OnceEach(s)
    && forall pid :: pid in s.procs ==> PcOk(s.w, pid, s.procs[pid])
  }

  predicate Follows(w: World, w': World) {
    w.done <= w'.done && w.version <= w'.version && w'.owner == w.owner
  }

  lemma OthersKeep(w: World, w': World, pid: nat, pc: Pc)
    requires PcOk(w, pid, pc) && Follows(w, w')
    ensures PcOk(w', pid, pc)
  {
    if pc.Done? && pc.reply.Changed? {
      var k :| 0 <= k <= |w.done| && pc.reply.version - 1 <= k && Fold(w.done[..k]) == Some(pc.reply.items);
      assert w'.done[..k] == w.done[..k];
    }
  }

  lemma ApplyKeepsEntries(items: Items, op: Op)
    requires EntriesOk(items) && OpOk(op)
    ensures Apply(items, op).Some? ==> EntriesOk(Apply(items, op).value)
  {
  }

  lemma CommitOk(w: World, pid: nat, op: Op, expected: int)
    requires Core(w) && OpOk(op) && w.version == expected && Apply(w.items, op).Some?
    ensures var w' := CommittedWorld(w, pid, op, expected);
            && Core(w') && Follows(w, w') && Committed(w', pid, w'.version) && ItemsOf(w', w'.version, w'.items)
  {
    var w' := CommittedWorld(w, pid, op, expected);
    ApplyKeepsEntries(w.items, op);
    hide Apply, EntriesOk;
    assert w'.done[..|w.done|] == w.done;
    assert w'.done[..|w'.done|] == w'.done;
  }

  lemma WriteOk(w: World, pid: nat, pc: Pc, d: Delivery)
    requires Core(w) && PcOk(w, pid, pc) && pc.Writing?
    ensures var (w', pc') := Act(w, pid, pc, d, None); Core(w') && PcOk(w', pid, pc') && Follows(w, w')
  {
    var (w', pc') := Act(w, pid, pc, d, None);
    if w' == w {
      assert pc'.Done? && pc'.reply.Failed?;
    } else {
      CommitOk(w, pid, pc.op, pc.expected);
      ClearIsEmpty(w.items);
      hide Apply, Core, ItemsOf, Committed;
    }
  }

  lemma ClearIsEmpty(items: Items)
    ensures Apply(items, Clear) == Some(map[])
  {
  }

  lemma ActOk(w: World, pid: nat, pc: Pc, d: Delivery, product: Option<Product>)
    requires Core(w) && PcOk(w, pid, pc)
    ensures var (w', pc') := Act(w, pid, pc, d, product); Core(w') && PcOk(w', pid, pc') && Follows(w, w')
  {
    if pc.Writing? {
      WriteOk(w, pid, pc, d);
      assert Act(w, pid, pc, d, None) == Act(w, pid, pc, d, product);
    } else {
      hide Fold, TotalsFit, EntriesOk;
      if pc.Reloading? {
        assert w.done[..|w.done|] == w.done;
        assert ItemsOf(w, pc.version, w.items);
      }
    }
  }

  /** One step adds at most a change of its own. */
  lemma OnlyItsCommit(w: World, pid: nat, pc: Pc, d: Delivery, product: Option<Product>, other: nat)
    ensures var (w', pc') := Act(w, pid, pc, d, product);
            && (HasCommitted(w', other) <==>
                  HasCommitted(w, other) || (other == pid && pc.Writing? && w' != w))
            && (w'.done == w.done || (pc.Writing? && w' != w && |w'.done| == |w.done| + 1 && w.done <= w'.done
                                      && w'.done[|w.done|].pid == pid))
  {
    hide Apply, TotalsFit, Offer, AfterReading;
    var w' := Act(w, pid, pc, d, product).0;
    if w'.done != w.done {
      assert w'.done[|w.done|].pid == pid;
      forall i | 0 <= i < |w.done| ensures w'.done[i] == w.done[i] {}
    }
  }

  lemma AnswerComes(w: World, pid: nat, pc: Pc, d: Delivery, product: Option<Product>)
    requires PcOk(w, pid, pc) && (HasCommitted(w, pid) ==> pc.Done? || pc.Reloading?)
    requires pc.Done? ==> AnswerFits(w, pid, pc.reply)
    ensures var (w', pc') := Act(w, pid, pc, d, product);
            && (pc'.Done? ==> AnswerFits(w', pid, pc'.reply))
            && (HasCommitted(w', pid) ==> pc'.Done? || pc'.Reloading?)
  {
    OnlyItsCommit(w, pid, pc, d, product, pid);
    if pc.Reloading? { assert w.done[pc.version - 2].pid == pid; }
    hide Apply, TotalsFit, HasCommitted;
  }

  lemma GoKeepsOnce(s: Sys, a: Action)
    requires Inv(s) && a.Go? && a.pid in s.procs
    ensures OnceEach(Step(s, a))
  {
    var s' := Step(s, a);
    var pc := s.procs[a.pid];
    assert HasCommitted(s.w, a.pid) ==> pc.Done? || pc.Reloading?;
    AnswerComes(s.w, a.pid, pc, a.d, a.product);
    forall pid | pid in s.procs && pid != a.pid && s.procs[pid].Done?
      ensures AnswerFits(s'.w, pid, s.procs[pid].reply)
    {
      OnlyItsCommit(s.w, a.pid, pc, a.d, a.product, pid);
    }
    OnlyItsCommit(s.w, a.pid, pc, a.d, a.product, a.pid);
    hide Act, AnswerFits, PcOk, Core;
    forall i | 0 <= i < |s'.w.done|
      ensures s'.w.done[i].pid in s'.procs
      ensures s'.procs[s'.w.done[i].pid].Done? || s'.procs[s'.w.done[i].pid].Reloading?
    {
      assert HasCommitted(s'.w, s'.w.done[i].pid);
    }
    if s'.w.done != s.w.done {
      assert !HasCommitted(s.w, a.pid);
    }
  }

  lemma StepKeepsInv(s: Sys, a: Action)
    requires Inv(s)
    ensures Inv(Step(s, a)) && Follows(s.w, Step(s, a).w)
  {
    var s' := Step(s, a);
    if a.Go? && a.pid in s.procs {
      GoKeepsOnce(s, a);
      ActOk(s.w, a.pid, s.procs[a.pid], a.d, a.product);
    }
    hide Core, Act, OnceEach;
    if a.Go? || a.Deactivate? {
      forall pid | pid in s.procs && !(a.Go? && pid == a.pid) ensures PcOk(s'.w, pid, s.procs[pid]) {
        if a.Go? && a.pid !in s.procs {} else { OthersKeep(s.w, s'.w, pid, s.procs[pid]); }
      }
    }
  }

  lemma {:induction false} Reachable(owner: Id, acts: seq<Action>)
    ensures Inv(Run(owner, acts)) && Run(owner, acts).w.owner == owner
  {
    if acts != [] {
      Reachable(owner, acts[..|acts| - 1]);
      StepKeepsInv(Run(owner, acts[..|acts| - 1]), acts[|acts| - 1]);
    }
  }

  lemma {:induction false} LaterFollows(owner: Id, acts: seq<Action>, more: seq<Action>)
    ensures Follows(Run(owner, acts).w, Run(owner, acts + more).w)
  {
    if more == [] {
      assert acts + more == acts;
    } else {
      assert (acts + more)[..|acts + more| - 1] == acts + more[..|more| - 1];
      LaterFollows(owner, acts, more[..|more| - 1]);
      Reachable(owner, acts + more[..|more| - 1]);
      StepKeepsInv(Run(owner, acts + more[..|more| - 1]), more[|more| - 1]);
    }
  }

  lemma OneFollows(owner: Id, acts: seq<Action>, a: Action)
    ensures Run(owner, acts + [a]) == Step(Run(owner, acts), a)
    ensures Follows(Run(owner, acts).w, Run(owner, acts + [a]).w)
  {
    assert (acts + [a])[..|acts|] == acts;
    Reachable(owner, acts);
    StepKeepsInv(Run(owner, acts), a);
    hide Inv, Step;
  }

  // ---- the guarantees ------------------------------------------------------------------

  /** The cart is the result of its committed changes, one after the other: the version counts
      them, the items are what they make of an empty cart, each was meant for the version it
      was applied to, and no request has committed two. Nothing committed is ever undone. */
  lemma {:induction false} CartIsItsHistory(owner: Id, acts: seq<Action>, more: seq<Action>)
    ensures var (w, w') := (Run(owner, acts).w, Run(owner, acts + more).w);
            && w.version == 1 + |w.done| && Fold(w.done) == Some(w.items)
            && (forall i, j :: 0 <= i < j < |w.done| ==>
                  w.done[i].expected != w.done[j].expected && w.done[i].pid != w.done[j].pid)
            && (forall i :: 0 <= i < |w.done| ==> w.done[i].expected == i + 1)
            && w.done <= w'.done
  {
    Reachable(owner, acts);
    LaterFollows(owner, acts, more);
  }

  /** A request that reports success has committed its change as the one that made the version
      it reports, for good; the items it reports are those of that version or a later one. */
  lemma {:induction false} SuccessIsTrue(owner: Id, acts: seq<Action>, more: seq<Action>, pid: nat)
    requires var s := Run(owner, acts); pid in s.procs && s.procs[pid].Done? && s.procs[pid].reply.Changed?
    ensures var (r, w) := (Run(owner, acts).procs[pid].reply, Run(owner, acts + more).w);
            && 2 <= r.version <= w.version == |w.done| + 1 && w.done[r.version - 2].pid == pid
            && ItemsOf(Run(owner, acts).w, r.version, r.items)
  {
    hide *;
    var s := Run(owner, acts);
    OkAfter(owner, acts, pid);
    Counted(owner, acts + more);
    LaterFollows(owner, acts, more);
    ReplyIsTrue(s.w, Run(owner, acts + more).w, pid, s.procs[pid].reply);
  }

  lemma OkAfter(owner: Id, acts: seq<Action>, pid: nat)
    requires pid in Run(owner, acts).procs
    ensures PcOk(Run(owner, acts).w, pid, Run(owner, acts).procs[pid])
  {
    Reachable(owner, acts);
    hide Run, PcOk;
  }

  lemma Counted(owner: Id, acts: seq<Action>)
    ensures Run(owner, acts).w.version == 1 + |Run(owner, acts).w.done|
  {
    Reachable(owner, acts);
    hide Run, PcOk;
  }

  lemma ReplyIsTrue(w: World, w': World, pid: nat, r: Reply)
    requires r.Changed? && PcOk(w, pid, Done(r)) && Follows(w, w') && w'.version == 1 + |w'.done|
    ensures 2 <= r.version <= w'.version && w'.done[r.version - 2].pid == pid && ItemsOf(w, r.version, r.items)
  {
    hide ItemsOf;
  }

  /** They may be those of a later one: the items are read after the commit. Here the second
      request takes out what the first one put in before the first one reads it back. */
  function Crossing(): seq<Action> {
    [Call(1, AddItem("A", 1), 7, 1), Go(1, Delivered, None), Go(1, Delivered, Some(Product(true, "USD", 5, 5))),
     Go(1, Delivered, None), Call(2, RemoveItem("A"), 7, 2), Go(2, Delivered, None), Go(2, Delivered, None),
     Go(1, Delivered, None)]
  }

  lemma OneMore(i: nat)
    requires i < 8
    ensures Run(7, Crossing()[..i + 1]) == Step(Run(7, Crossing()[..i]), Crossing()[i])
  {
    assert Crossing()[..i + 1][..i] == Crossing()[..i];
  }

  lemma FirstAdds()
    ensures Run(7, Crossing()[..4])
         == Sys(World(7, true, 2, map["A" := Entry(1, 5)], [Commit(1, Add("A", 1, 5), 1)]), map[1 := Reloading(2)])
  {
    OneMore(0);
    OneMore(1);
    OneMore(2);
    OneMore(3);
    hide TotalsFit, Fold;
    assert TrimSpace("A") == "A";
    assert Run(7, Crossing()[..0]) == Sys(World(7, true, 1, map[], []), map[]);
    assert Run(7, Crossing()[..3]) == Sys(World(7, true, 1, map[], []), map[1 := Writing(Add("A", 1, 5), 1)]);
    assert [] + [Commit(1, Add("A", 1, 5), 1)] == [Commit(1, Add("A", 1, 5), 1)];
  }

  lemma SecondReads()
    ensures Run(7, Crossing()[..6])
         == Sys(World(7, true, 2, map["A" := Entry(1, 5)], [Commit(1, Add("A", 1, 5), 1)]),
                map[1 := Reloading(2), 2 := Writing(Remove("A"), 2)])
  {
    FirstAdds();
    hide TotalsFit, Fold, Run;
    OneMore(4);
    var w := World(7, true, 2, map["A" := Entry(1, 5)], [Commit(1, Add("A", 1, 5), 1)]);
    assert TrimSpace("A") == "A";
    assert Run(7, Crossing()[..5]) == Sys(w, map[1 := Reloading(2), 2 := Reading(RemoveItem("A"), 7, 2)]);
    OneMore(5);
  }

  lemma SecondRemoves()
    ensures var s := Run(7, Crossing()[..7]);
            s.w.items == map[] && s.w.version == 3 && 1 in s.procs && s.procs[1] == Reloading(2)
            && |s.w.done| == 2 && s.w.done[0] == Commit(1, Add("A", 1, 5), 1)
  {
    SecondReads();
    hide TotalsFit, Fold, Run;
    OneMore(6);
  }

  lemma SuccessMayShowALaterCart()
    ensures var s := Run(7, Crossing());
            && 1 in s.procs && s.procs[1] == Done(Changed(2, map[]))
            && |s.w.done| == 2 && Fold(s.w.done[..1]) == Some(map["A" := Entry(1, 5)])
  {
    SecondRemoves();
    OneMore(7);
    assert Crossing()[..8] == Crossing();
    var s := Run(7, Crossing());
    assert s.w.done[..1] == [Commit(1, Add("A", 1, 5), 1)];
    assert Fold(s.w.done[..1][..0]) == Some(map[]);
    TotalsFitExactly(map[]);
    assert Listing(map[]) == [];
  }

  /** A request that is refused has changed nothing, at no step of its own; one that fails over
      its totals has taken effect, once. Only a storage error leaves it open. */
  lemma {:induction false} FailureChangesNothing(owner: Id, acts: seq<Action>, pid: nat)
    requires var s := Run(owner, acts); pid in s.procs && s.procs[pid].Done? && s.procs[pid].reply.Failed?
    ensures var (done, e) := (Run(owner, acts).w.done, Run(owner, acts).procs[pid].reply.error);
            && (!e.Storage? && !e.ArithmeticOverflow? ==> forall i :: 0 <= i < |done| ==> done[i].pid != pid)
            && (e.ArithmeticOverflow? ==>
                  exists i :: 0 <= i < |done| && done[i].pid == pid
                              && forall j :: 0 <= j < |done| && done[j].pid == pid ==> j == i)
  {
    Reachable(owner, acts);
    var w := Run(owner, acts).w;
    assert AnswerFits(w, pid, Run(owner, acts).procs[pid].reply);
  }

  /** The items that a reply shows are those of the cart's version at the reload. They are those
      of the version it reports exactly if nothing has been committed since, or only changes
      that cancel out. */
  lemma {:induction false} ReplyShowsTheCartAtReload(owner: Id, acts: seq<Action>, pid: nat, version: nat, d: Delivery)
    requires pid in Run(owner, acts).procs && Run(owner, acts).procs[pid] == Reloading(version)
    ensures var (w, s') := (Run(owner, acts).w, Step(Run(owner, acts), Go(pid, d, None)));
            var reply := s'.procs[pid].reply;
            && 2 <= version <= w.version == |w.done| + 1
            && (reply.Changed? ==>
                  && reply.version == version && Fold(w.done[..w.version - 1]) == Some(reply.items)
                  && (Fold(w.done[..version - 1]) == Some(reply.items)
                      <==> w.version == version || Fold(w.done[..version - 1]) == Fold(w.done[..w.version - 1])))
  {
    Reachable(owner, acts);
    var w := Run(owner, acts).w;
    assert PcOk(w, pid, Reloading(version));
    assert w.done[..|w.done|] == w.done;
    hide Fold, TotalsFit, Run;
  }

  /** The totals of a cart come out if and only if their sum fits. The check comes after the
      commit: once it fails, every request that adds or changes an item reports failure and
      takes effect. */
  lemma {:induction false} TotalsFitExactly(items: Items)
    requires EntriesOk(items) && forall sku :: sku in items ==> items[sku].price <= MAX_INT64
    ensures TotalsFit(items) <==> T.Sum(T.CartLines(Listing(items))) <= MAX_INT64
  {
    var l := Listing(items);
    forall i | 0 <= i < |l|
      ensures T.CartFault(l[i], "USD").None? && FitsInt64(l[i].unitPriceMinor) && FitsInt64(l[i].quantity) {
      assert Sorted(items.Keys)[i] in items;
    }
    T.CartTotalIsExact(l, "USD");
  }

  // ---- the service ---------------------------------------------------------------------

  class CartStore {
    const owner: Id
    var active: bool
    var version: nat
    var items: Items
    var done: seq<Commit>
    var procs: map<nat, Pc>
    ghost var acts: seq<Action>

    function Now(): World
      reads this
    {
      World(owner, active, version, items, done)
    }

    ghost predicate Valid()
      reads this
    {
      Run(owner, acts) == Sys(Now(), procs)
    }

    constructor (owner: Id)
      ensures Valid() && procs == map[] && this.owner == owner
    {
      this.owner := owner;
      active, version, items, done, procs, acts := true, 1, map[], [], map[], [];
    }

    /** The change that made this version, which came right after the expected one, is `op`. */
    predicate CommittedAs(me: nat, op: Op, expected: int, newVersion: nat)
      reads this
    {
      newVersion == expected + 1 && 2 <= newVersion <= |done| + 1 && done[newVersion - 2] == Commit(me, op, expected)
    }

    method Happen(a: Action)
      requires Valid()
      modifies this
      ensures Valid() && acts == old(acts) + [a] && Sys(Now(), procs) == Step(old(Sys(Now(), procs)), a)
      ensures old(done) <= done
    {
      OneFollows(owner, acts, a);
      hide Inv, Step, Run;
      var s := Step(Sys(Now(), procs), a);
      active, version, items, done, procs := s.w.active, s.w.version, s.w.items, s.w.done, s.procs;
      acts := acts + [a];
    }

    method Others(me: nat)
      requires Valid() && me in procs
      modifies this
      ensures Valid() && old(acts) <= acts && old(done) <= done && me in procs && procs[me] == old(procs[me])
    {
      var n: nat := *;
      while n > 0
        invariant Valid() && old(acts) <= acts && old(done) <= done && me in procs && procs[me] == old(procs[me])
      {
        var a: Action := *;
        if !((a.Call? || a.Go?) && a.pid == me) { Happen(a); }
        n := n - 1;
      }
    }

    /** `me` has made the access it was about to make: the fields are what that leaves. */
    method Took(me: nat, pc: Pc, ghost d: Delivery, ghost product: Option<Product>, ghost before: World)
      requires me in procs && Run(owner, acts) == Sys(before, procs)
      requires (Now(), pc) == Act(before, me, procs[me], d, product)
      modifies this`procs, this`acts
      ensures Valid() && acts == old(acts) + [Go(me, d, product)] && procs == old(procs)[me := pc]
    {
      assert (acts + [Go(me, d, product)])[..|acts|] == acts;
      procs := procs[me := pc];
      acts := acts + [Go(me, d, product)];
    }

    /** GetCartByID, and the checks on what it returns. */
    method CheckCart(me: nat, request: Request, user: Id, expected: int) returns (error: Option<Error>)
      requires Valid() && me in procs && procs[me] == Reading(request, user, expected)
      modifies this
      ensures Valid() && old(acts) <= acts && me in procs
      ensures procs[me] == if error.Some? then Done(Failed(error.value)) else AfterReading(request, expected)
      ensures error.None? ==> user == owner
    {
      Others(me);
      var d: Delivery := *;
      if !d.Delivered? { error := Some(Storage); }
      else if owner != user { error := Some(Forbidden); }
      else if !active { error := Some(CartNotActive); }
      else if version != expected { error := Some(OptimisticLockConflict); }
      else { error := None; }
      Took(me, if error.Some? then Done(Failed(error.value)) else AfterReading(request, expected), d, None, Now());
    }

    /** The catalog's answer, outside of any transaction. */
    method FindOffer(me: nat, sku: string, quantity: int, expected: int) returns (error: Option<Error>, price: int)
      requires Valid() && me in procs && procs[me] == Offering(sku, quantity, expected)
      modifies this
      ensures Valid() && old(acts) <= acts && me in procs
      ensures procs[me] == if error.Some? then Done(Failed(error.value))
                      else Writing(Add(sku, quantity, price), expected)
    {
      Others(me);
      var found: bool, p: Product := *, *;
      var product := if found then Some(p) else None;
      error, price := None, 0;
      if found && p.active {
        var currency := if p.currency == "" then "USD" else p.currency;
        price := p.amount;
        if price <= 0 && p.priceMinor > 0 { price := p.priceMinor; }
        if currency != "USD" { error := Some(CurrencyMismatch); }
        else if price <= 0 { error := Some(InvalidPrice); }
      } else {
        error := Some(ProductUnavailable);
      }
      Took(me, if error.Some? then Done(Failed(error.value)) else Writing(Add(sku, quantity, price), expected),
           Delivered, product, Now());
    }

    /** ExecuteTx around the version's compare-and-set and the item statement. */
    method WriteItem(me: nat, op: Op, expected: int) returns (error: Option<Error>, newVersion: nat)
      requires Valid() && me in procs && procs[me] == Writing(op, expected)
      modifies this
      ensures Valid() && old(acts) <= acts && me in procs
      ensures error.Some? ==> procs[me] == Done(Failed(error.value))
      ensures error.None? ==>
                && CommittedAs(me, op, expected, newVersion)
                && procs[me] == if op.Clear? then Done(Changed(newVersion, map[])) else Reloading(newVersion)
    {
      Others(me);
      OkAfter(owner, acts, me);
      Counted(owner, acts);
      hide Run, Fold;
      var d: Delivery := *;
      ghost var snapshot := Now();
      var before := items;
      newVersion := 0;
      if d.NotSent? { error := Some(Storage); }
      else if !active { error := Some(CartNotActive); }
      else if version != expected { error := Some(OptimisticLockConflict); }
      else {
        version := version + 1;
        var ok := ExecItem(op);
        if !ok {
          version, items := version - 1, before;      // rolled back
          error := Some(Refusal(op));
        } else {
          done := done + [Commit(me, op, expected)];
          newVersion := version;
          error := if d.Delivered? then None else Some(Storage);
        }
      }
      Took(me, if error.Some? then Done(Failed(error.value))
               else if op.Clear? then Done(Changed(newVersion, map[])) else Reloading(newVersion), d, None, snapshot);
    }

    /** The statements of the repository on cart_items. A failing one may leave anything behind:
        the transaction is rolled back. */
    method ExecItem(op: Op) returns (ok: bool)
      modifies this`items
      ensures ok <==> Apply(old(items), op).Some?
      ensures ok ==> items == Apply(old(items), op).value
    {
      ok := true;
      match op {
        case Add(sku, quantity, price) =>
          if |sku| > 64 || quantity > MAX_INT32 { return false; }
          var sum := quantity;
          if sku in items { sum := items[sku].quantity + quantity; }
          if sum > MAX_INT32 { return false; }
          items := items[sku := Entry(sum, price)];
        case Set(sku, quantity) =>
          if quantity > MAX_INT32 || sku !in items { return false; }
          items := items[sku := items[sku].(quantity := quantity)];
        case Remove(sku) =>
          if sku !in items { return false; }
          items := items - {sku};
        case Clear => items := map[];
      }
    }

    /** GetCartItems after the commit, and the totals of what it finds. */
    method Reload(me: nat, newVersion: nat) returns (reply: Reply)
      requires Valid() && me in procs && procs[me] == Reloading(newVersion)
      modifies this
      ensures Valid() && old(acts) <= acts && old(done) <= done && me in procs && procs[me] == Done(reply)
      ensures reply.Changed? ==> reply.version == newVersion
    {
      Others(me);
      var d: Delivery := *;
      if !d.Delivered? { reply := Failed(Storage); }
      else if !TotalsFit(items) { reply := Failed(ArithmeticOverflow); }
      else { reply := Changed(newVersion, items); }
      Took(me, Done(reply), d, None, Now());
    }

    /** Write, then read back what the cart holds. */
    method WriteAndReload(me: nat, op: Op, expected: int) returns (reply: Reply)
      requires Valid() && me in procs && procs[me] == Writing(op, expected)
      modifies this
      ensures Valid() && old(acts) <= acts && me in procs && procs[me] == Done(reply)
      ensures reply.Changed? ==> CommittedAs(me, op, expected, reply.version)
    {
      hide Valid;
      var error, newVersion := WriteItem(me, op, expected);
      if error.Some? { return Failed(error.value); }
      if op.Clear? { return Changed(newVersion, map[]); }
      reply := Reload(me, newVersion);
    }

    /** Success means that this very change was committed for the version the caller expected. */
    method AddItem(me: nat, user: Id, sku: string, quantity: int, expected: int) returns (reply: Reply)
      requires Valid() && me !in procs
      modifies this
      ensures Valid() && old(acts) <= acts && me in procs && procs[me] == Done(reply)
      ensures reply.Changed? ==>
                && user == owner && user != NIL_ID && quantity > 0
                && exists price :: CommittedAs(me, Add(TrimSpace(sku), quantity, price), expected, reply.version)
    {
      Happen(Call(me, Request.AddItem(sku, quantity), user, expected));
      hide Valid, CommittedAs;
      if user == NIL_ID { return Failed(Unauthorized); }
      if expected <= 0 { return Failed(InvalidVersion); }
      if quantity <= 0 { return Failed(InvalidQuantity); }
      var trimmed := TrimSpace(sku);
      if trimmed == "" { return Failed(EmptySku); }
      var error := CheckCart(me, Request.AddItem(trimmed, quantity), user, expected);
      if error.Some? { return Failed(error.value); }
      var price;
      error, price := FindOffer(me, trimmed, quantity, expected);
      if error.Some? { return Failed(error.value); }
      reply := WriteAndReload(me, Add(trimmed, quantity, price), expected);
    }

    method UpdateQuantity(me: nat, user: Id, sku: string, quantity: int, expected: int) returns (reply: Reply)
      requires Valid() && me !in procs
      modifies this
      ensures Valid() && old(acts) <= acts && me in procs && procs[me] == Done(reply)
      ensures reply.Changed? ==>
                user == owner && user != NIL_ID
                && CommittedAs(me, if quantity <= 0 then Remove(sku) else Set(sku, quantity), expected, reply.version)
    {
      Happen(Call(me, Request.UpdateQuantity(sku, quantity), user, expected));
      hide Valid, CommittedAs;
      if user == NIL_ID { return Failed(Unauthorized); }
      if expected <= 0 { return Failed(InvalidVersion); }
      if quantity <= 0 {
        reply := Change(me, Request.RemoveItem(sku), Remove(sku), user, expected);
        return;
      }
      reply := Change(me, Request.UpdateQuantity(sku, quantity), Set(sku, quantity), user, expected);
    }

    method RemoveItem(me: nat, user: Id, sku: string, expected: int) returns (reply: Reply)
      requires Valid() && me !in procs
      modifies this
      ensures Valid() && old(acts) <= acts && me in procs && procs[me] == Done(reply)
      ensures reply.Changed? ==>
                && user == owner && user != NIL_ID
                && CommittedAs(me, Remove(sku), expected, reply.version)
    {
      Happen(Call(me, Request.RemoveItem(sku), user, expected));
      hide Valid, CommittedAs;
      if user == NIL_ID { return Failed(Unauthorized); }
      if expected <= 0 { return Failed(InvalidVersion); }
      reply := Change(me, Request.RemoveItem(sku), Remove(sku), user, expected);
    }

    method ClearCart(me: nat, user: Id, expected: int) returns (reply: Reply)
      requires Valid() && me !in procs
      modifies this
      ensures Valid() && old(acts) <= acts && me in procs && procs[me] == Done(reply)
      ensures reply.Changed? ==> user == owner && user != NIL_ID && CommittedAs(me, Clear, expected, reply.version)
    {
      Happen(Call(me, Request.ClearCart, user, expected));
      hide Valid, CommittedAs;
      if user == NIL_ID { return Failed(Unauthorized); }
      if expected <= 0 { return Failed(InvalidVersion); }
      reply := Change(me, Request.ClearCart, Clear, user, expected);
    }

    /** What UpdateQuantity, RemoveItem and ClearCart do alike. */
    method Change(me: nat, request: Request, op: Op, user: Id, expected: int) returns (reply: Reply)
      requires Valid() && me in procs && procs[me] == Reading(request, user, expected)
      requires AfterReading(request, expected) == Writing(op, expected)
      modifies this
      ensures Valid() && old(acts) <= acts && me in procs && procs[me] == Done(reply)
      ensures reply.Changed? ==> user == owner && CommittedAs(me, op, expected, reply.version)
    {
      hide Valid, CommittedAs, AfterReading;
      var error := CheckCart(me, request, user, expected);
      if error.Some? { return Failed(error.value); }
      reply := WriteAndReload(me, op, expected);
    }
  }
}
