/** The coordinator and the watchdog as the imperative code they are.

    `SagaRuntime` holds the rows of one order saga. Its first methods are the single
    accesses (a read, a transaction, a command); the rest are the coordinator's workflows,
    written as the source writes them. `Others` stands between any two accesses: it lets
    every other process and every outside party act, any number of times. A workflow is
    proved to be a complete walk of its process through the transition system, so that all
    theorems about runs are theorems about these methods. */
module SagaCoordinator {
  import opened Common
  import opened Statuses
  import opened SagaFsm
  import opened SagaSystem
  import opened SagaSafety
  import opened SagaTheorems
  import A = SagaAlone
  import O = OrderFsm

  class SagaRuntime {
    const cfg: Config
    ghost const start: State
    ghost const startOrder: O.OrderStatus

    var state: State
    var payload: Payload
    var log: seq<Entry>
    var reservation: Option<Reservation>
    var payment: Option<Payment>
    var order: O.OrderStatus

    // Bookkeeping for the proof: what has been asked of the participants, where every process
    // is, and everything that has happened.
    var reserveCalls: nat
    var captureCalls: nat
    var refunds: nat
    var returned: int
    var outsideRefunds: nat
    var procs: map<nat, Pc>
    ghost var seen: World
    ghost var acts: seq<Action>

    function Now(): World
      reads this
    {
      World(state, payload, log, reservation, payment, order, reserveCalls, captureCalls, refunds, returned,
            outsideRefunds)
    }

    /** What is stored is what the recorded history produces. */
    ghost predicate Valid()
      reads this
    {
      && Fresh(start)
      && Now() == seen
      && After(cfg, start, startOrder, acts) == Sys(seen, procs)
    }

    constructor (cfg: Config, order: O.OrderStatus)
      ensures Valid() && state == Started && procs == map[]
    {
      this.cfg := cfg;
      this.start, this.startOrder := Started, order;
      this.state, this.payload := Started, Payload(None, None);
      this.log := [Entry(None, Started, SagaInitialized)];
      this.reservation, this.payment, this.order := None, None, order;
      this.reserveCalls, this.captureCalls, this.refunds, this.returned, this.outsideRefunds := 0, 0, 0, 0, 0;
      this.seen := Initial(Started, order).w;
      this.procs := map[];
      this.acts := [];
    }

    // ---- history ---------------------------------------------------------------------

    method Join(me: nat, a: Action)
      requires Valid() && me !in procs && (a == Call(me) || a == Scan(me))
      modifies this`procs, this`acts
      ensures Valid() && acts == old(acts) + [a]
      ensures procs == old(procs)[me := if a == Call(me) then ExecRead else Dispatch(state)]
    {
      RunAppend(cfg, Initial(start, startOrder), acts, a);
      procs := procs[me := if a == Call(me) then ExecRead else Dispatch(state)];
      acts := acts + [a];
    }

    /** Process `me` has just made the access it was about to make, and got this reply. */
    method Took(me: nat, reply: Reply, ghost d: Delivery, ghost c: Choice)
      requires Fresh(start) && After(cfg, start, startOrder, acts) == Sys(seen, procs)
      requires me in procs && (Now(), reply) == Perform(cfg, seen, RequestOf(cfg, procs[me]), d, c)
      modifies this`seen, this`procs, this`acts
      ensures Valid() && acts == old(acts) + [Advance(me, d, c)]
      ensures procs == old(procs)[me := Next(old(procs[me]), reply)]
    {
      RunAppend(cfg, Initial(start, startOrder), acts, Advance(me, d, c));
      procs := procs[me := Next(procs[me], reply)];
      seen := Now();
      acts := acts + [Advance(me, d, c)];
    }

    lemma SuccessIsTerminal(me: nat)
      requires Valid() && me in procs && procs[me] == Done(true)
      ensures IsTerminal(state)
    {
      SuccessMeansTerminal(cfg, start, startOrder, acts, me, []);
    }

    /** Anything the rest of the world may do before this process makes its next access. */
    method Others(me: nat)
      requires Valid() && me in procs
      modifies this
      ensures Valid() && old(acts) <= acts
      ensures me in procs && procs[me] == old(procs[me])
    {
      var n: nat := *;
      while n > 0
        invariant Valid() && old(acts) <= acts && me in procs && procs[me] == old(procs[me])
      {
        var a: Action := *;
        SomeoneActs(me, a);
        n := n - 1;
      }
    }

    method SomeoneActs(me: nat, a: Action)
      requires Valid() && me in procs
      modifies this
      ensures Valid() && old(acts) <= acts
      ensures me in procs && procs[me] == old(procs[me])
    {
      if a.Advance? && a.pid == me { return; }
      hide Step, Run;
      var s := Step(cfg, Sys(Now(), procs), a);
      OnlyAdvanceMoves(cfg, Sys(Now(), procs), a, me);
      RunAppend(cfg, Initial(start, startOrder), acts, a);
      Become(s.w);
      acts, procs, seen := acts + [a], s.procs, s.w;
    }

    method Become(w: World)
      modifies this`state, this`payload, this`log, this`reservation, this`payment, this`order,
               this`reserveCalls, this`captureCalls, this`refunds, this`returned, this`outsideRefunds
      ensures Now() == w
    {
      state, payload, log := w.state, w.payload, w.log;
      reservation, payment, order := w.reservation, w.payment, w.order;
      reserveCalls, captureCalls := w.reserveCalls, w.captureCalls;
      refunds, returned, outsideRefunds := w.refunds, w.returned, w.outsideRefunds;
    }

    // ---- single accesses -------------------------------------------------------------

    /** `me` made one access and is where the reply takes it. */
    twostate predicate Stepped(me: nat, reply: Reply)
      reads this
    {
      && Valid() && old(acts) <= acts
      && old(me in procs) && me in procs && procs[me] == Next(old(procs[me]), reply)
    }

    method GetSaga(me: nat) returns (found: bool, current: State, stored: Payload)
      requires Valid() && me in procs && RequestOf(cfg, procs[me]) == ReadRow
      modifies this
      ensures Stepped(me, if found then Row(current, stored) else Failure)
    {
      Others(me);
      var delivery: Delivery := *;
      found, current, stored := delivery.Delivered?, state, payload;
      Took(me, if found then Row(current, stored) else Failure, delivery, Choice(NIL_ID, false));
    }

    method TransitionAndLog(me: nat, from: State, to: State, event: Event, updated: Option<Payload>)
      returns (ok: bool)
      requires Valid() && me in procs && RequestOf(cfg, procs[me]) == SetState(from, to, event, updated)
      modifies this
      ensures Stepped(me, if ok then Fine else Failure)
    {
      Others(me);
      var delivery: Delivery := *;
      ok := false;
      if !delivery.NotSent? && CanTransition(from, to) && state == from {
        if updated.Some? { payload := updated.value; }
        state := to;
        log := log + [Entry(Some(from), to, event)];
        ok := delivery.Delivered?;
      }
      Took(me, if ok then Fine else Failure, delivery, Choice(NIL_ID, false));
    }

    method ReserveStock(me: nat) returns (id: Option<Id>)
      requires Valid() && me in procs && RequestOf(cfg, procs[me]) == ReserveGoods
      modifies this
      ensures Stepped(me, if id.Some? then Created(id.value) else Failure)
    {
      Others(me);
      var delivery: Delivery, choice: Choice := *, *;
      id := None;
      reserveCalls := reserveCalls + 1;
      if !delivery.NotSent? {
        // refused when the order has a reservation already or the stock is short
        if reservation.None? && !choice.refuses {
          reservation := Some(Reservation(choice.newId, Held));
          id := if delivery.Delivered? then Some(choice.newId) else None;
        }
      }
      Took(me, if id.Some? then Created(id.value) else Failure, delivery, choice);
    }

    /** CommitStock and ReleaseStock: settling twice the same way succeeds, the other way fails. */
    method SettleStock(me: nat, id: Id, to: ReservationStatus) returns (ok: bool)
      requires Valid() && me in procs && RequestOf(cfg, procs[me]) == SettleGoods(id, to)
      modifies this
      ensures Stepped(me, if ok then Fine else Failure)
    {
      Others(me);
      var delivery: Delivery := *;
      ok := false;
      if !delivery.NotSent? && reservation.Some? && reservation.value.id == id {
        if reservation.value.status == to {
          ok := delivery.Delivered?;
        } else if reservation.value.status.Held? {
          reservation := Some(Reservation(id, to));
          ok := delivery.Delivered?;
        }
      }
      Took(me, if ok then Fine else Failure, delivery, Choice(NIL_ID, false));
    }

    method AuthorizeAndCapture(me: nat) returns (id: Option<Id>)
      requires Valid() && me in procs && RequestOf(cfg, procs[me]) == TakePayment
      modifies this
      ensures Stepped(me, if id.Some? then Created(id.value) else Failure)
    {
      Others(me);
      var delivery: Delivery, choice: Choice := *, *;
      id := None;
      captureCalls := captureCalls + 1;
      if !delivery.NotSent? && cfg.total > 0 {
        if payment.None? && choice.newId != NIL_ID {
          payment := Some(Payment(choice.newId, cfg.order, cfg.total, if choice.refuses then Declined else Success));
        }
        if payment.Some? && payment.value.order == cfg.order && payment.value.amount == cfg.total
           && !payment.value.status.Declined? && delivery.Delivered?
        {
          id := Some(payment.value.id);
        }
      }
      Took(me, if id.Some? then Created(id.value) else Failure, delivery, choice);
    }

    method RefundPayment(me: nat, id: Id) returns (ok: bool)
      requires Valid() && me in procs && RequestOf(cfg, procs[me]) == ReturnPayment(id)
      modifies this
      ensures Stepped(me, if ok then Fine else Failure)
    {
      Others(me);
      var delivery: Delivery := *;
      ok := id == NIL_ID;
      if !ok && !delivery.NotSent? && cfg.total > 0 && payment.Some? && payment.value.id == id {
        if payment.value.status.Success? && cfg.total <= payment.value.amount {
          payment, refunds := Some(payment.value.(status := Refunded)), refunds + 1;
          returned := returned + cfg.total;
          ok := delivery.Delivered?;
        }
      }
      Took(me, if ok then Fine else Failure, delivery, Choice(NIL_ID, false));
    }

    /** ConfirmOrder and CancelOrder, as the adapters of the coordinator call them. */
    method MoveOrderTo(me: nat, to: O.OrderStatus) returns (ok: bool)
      requires Valid() && me in procs && RequestOf(cfg, procs[me]) == SetOrder(to)
      modifies this
      ensures Stepped(me, if ok then Fine else Failure)
    {
      Others(me);
      var delivery: Delivery := *;
      ok := false;
      if !delivery.NotSent? && (order == to || O.CanTransitionTo(order, to)) {
        order := to;
        ok := delivery.Delivered?;
      }
      Took(me, if ok then Fine else Failure, delivery, Choice(NIL_ID, false));
    }

    // ---- the workflows ---------------------------------------------------------------

    method ExecuteSaga(me: nat) returns (ok: bool)
      requires Valid() && me !in procs
      modifies this
      ensures Valid() && old(acts) <= acts && me in procs && procs[me] == Done(ok)
      ensures ok ==> IsTerminal(state)
    {
      hide Valid;
      Join(me, Call(me));
      var found, current, stored := GetSaga(me);
      if !found { return false; }
      if current != Started && current != Pending { return false; }

      ok := TransitionAndLog(me, current, ReservingStock, StockReservationStarted, None);
      if !ok { return; }

      ok := ReserveAndPay(me);
    }

    /** Step 1 of ExecuteSaga, once the saga is in RESERVING_STOCK, and what follows it. */
    method ReserveAndPay(me: nat) returns (ok: bool)
      requires Valid() && me in procs && procs[me] == ExecRefresh
      modifies this
      ensures Valid() && old(acts) <= acts && me in procs && procs[me] == Done(ok)
      ensures ok ==> IsTerminal(state)
    {
      hide Valid;
      var found, current, stored := GetSaga(me);
      if !found { return false; }

      var id := ReserveStock(me);
      if id.None? {
        ok := HandleStockReservationFailure(me);
        return;
      }
      stored := stored.(reservation := id);

      ok := TransitionAndLog(me, ReservingStock, StockReserved, StockReservationRecorded, Some(stored));
      if !ok {
        var _ := SettleStock(me, id.value, Released);
        return;
      }

      ok := PayAndConfirm(me, stored);
    }

    /** Steps 2 and 3 of ExecuteSaga: take the payment, then hand the goods over. */
    method PayAndConfirm(me: nat, reserved: Payload) returns (ok: bool)
      requires Valid() && me in procs && procs[me] == ExecToPaying(reserved) && reserved.reservation.Some?
      modifies this
      ensures Valid() && old(acts) <= acts && me in procs && procs[me] == Done(ok)
      ensures ok ==> IsTerminal(state)
    {
      hide Valid;
      ok := TransitionAndLog(me, StockReserved, Paying, PaymentInitiated, None);
      if !ok { return; }

      var id := AuthorizeAndCapture(me);
      if id.None? {
        ok := Compensate(me);
        return;
      }
      var stored := reserved.(payment := id);

      ok := TransitionAndLog(me, Paying, Paid, PaymentCaptured, Some(stored));
      if !ok { return; }
      ok := CommitAndConfirm(me, stored);
    }

    method CommitAndConfirm(me: nat, stored: Payload) returns (ok: bool)
      requires Valid() && me in procs && procs[me] == ExecCommit(stored, 0) && stored.reservation.Some?
      modifies this
      ensures Valid() && old(acts) <= acts && me in procs && procs[me] == Done(ok)
      ensures ok ==> IsTerminal(state)
    {
      hide Valid;
      var attempt, committed := 0, false;
      while attempt < 3 && !committed
        invariant Valid() && old(acts) <= acts && me in procs && attempt <= 3
        invariant procs[me] == if committed then ExecConfirm(stored)
                               else if attempt < 3 then ExecCommit(stored, attempt) else Done(false)
      {
        committed := SettleStock(me, stored.reservation.value, Committed);
        attempt := attempt + 1;
      }
      if !committed { return false; }

      ok := MoveOrderTo(me, O.Confirmed);
      if !ok { return; }

      ok := TransitionAndLog(me, Paid, Confirmed, OrderConfirmed, None);
      if ok { SuccessIsTerminal(me); }
    }

    method Compensate(me: nat) returns (ok: bool)
      requires Valid() && me in procs && procs[me] == CompRead
      modifies this
      ensures Valid() && old(acts) <= acts && me in procs && procs[me] == Done(ok)
      ensures ok ==> IsTerminal(state)
    {
      hide Valid;
      var found, current, stored := GetSaga(me);
      if !found { return false; }
      if IsTerminal(current) {
        SuccessIsTerminal(me);
        return true;
      }

      if current != Compensating {
        ok := TransitionAndLog(me, current, Compensating, CompensationStarted, Some(stored));
        if !ok { return; }
      }
      ok := UndoEverything(me, stored);
    }

    /** Compensate, once the saga is in COMPENSATING. */
    method UndoEverything(me: nat, stored: Payload) returns (ok: bool)
      requires Valid() && me in procs && procs[me] == AfterEntering(stored)
      modifies this
      ensures Valid() && old(acts) <= acts && me in procs && procs[me] == Done(ok)
      ensures ok ==> IsTerminal(state)
    {
      hide Valid;
      ok := ReleaseAndRefund(me, stored);
      if !ok { return; }
      ok := MoveOrderTo(me, O.Cancelled);
      if !ok { return; }

      ok := TransitionAndLog(me, Compensating, cfg.compensated, CompensationCompleted, None);
      if ok { SuccessIsTerminal(me); }
    }

    method ReleaseAndRefund(me: nat, stored: Payload) returns (ok: bool)
      requires Valid() && me in procs && procs[me] == AfterEntering(stored)
      modifies this
      ensures Valid() && old(acts) <= acts && me in procs
      ensures procs[me] == if ok then CompCancel(stored) else Done(false)
    {
      hide Valid;
      if stored.reservation.Some? {
        ok := SettleStock(me, stored.reservation.value, Released);
        if !ok { return; }
      }
      ok := true;
      if stored.payment.Some? {
        ok := RefundPayment(me, stored.payment.value);
      }
    }

    method HandleStockReservationFailure(me: nat) returns (ok: bool)
      requires Valid() && me in procs && procs[me] == FailRead
      modifies this
      ensures Valid() && old(acts) <= acts && me in procs && procs[me] == Done(ok)
      ensures ok ==> IsTerminal(state)
    {
      hide Valid;
      var found, current, stored := GetSaga(me);
      if !found { return false; }
      if IsTerminal(current) {
        SuccessIsTerminal(me);
        return true;
      }
      ok := MoveOrderTo(me, O.Cancelled);     // a failure is only logged
      ok := TransitionAndLog(me, current, Failed, StockReservationFailed, Some(stored));
      ok := false;
    }
  }

  predicate Handled(saga: SagaRuntime, me: nat)
    reads saga
  {
    me in saga.procs && saga.procs[me].Done? && (saga.procs[me].ok ==> IsTerminal(saga.state))
  }

  /** FindTimedOutSagas: the states of the sagas in the batch, none of them terminal. */
  method FindTimedOutSagas(batch: seq<SagaRuntime>, me: nat) returns (snapshot: seq<State>)
    requires forall i, j :: 0 <= i < j < |batch| ==> batch[i] != batch[j]
    requires forall saga :: saga in batch ==> saga.Valid() && me !in saga.procs && !IsTerminal(saga.state)
    modifies batch
    ensures |snapshot| == |batch|
    ensures forall i :: 0 <= i < |batch| ==>
              && snapshot[i] == old(batch[i].state) == batch[i].state && !IsTerminal(snapshot[i])
              && batch[i].Valid() && batch[i].acts == old(batch[i].acts) + [Scan(me)]
              && me in batch[i].procs && batch[i].procs[me] == Dispatch(snapshot[i])
  {
    hide SagaRuntime.Valid;
    snapshot := [];
    for i := 0 to |batch|
      invariant |snapshot| == i
      invariant forall k :: 0 <= k < i ==>
                  && snapshot[k] == old(batch[k].state) == batch[k].state && !IsTerminal(snapshot[k])
                  && batch[k].Valid() && batch[k].acts == old(batch[k].acts) + [Scan(me)]
                  && me in batch[k].procs && batch[k].procs[me] == Dispatch(snapshot[k])
      invariant forall k :: i <= k < |batch| ==> unchanged(batch[k])
    {
      snapshot := snapshot + [batch[i].state];
      batch[i].Join(me, Scan(me));
    }
  }

  method DispatchOn(s: State, saga: SagaRuntime, me: nat)
    requires saga.Valid() && me in saga.procs && saga.procs[me] == Dispatch(s) && !IsTerminal(s)
    modifies saga
    ensures saga.Valid() && old(saga.acts) <= saga.acts && Handled(saga, me)
  {
    if s == Started || s == Pending || s == ReservingStock {
      var _ := saga.HandleStockReservationFailure(me);
    } else {
      var _ := saga.Compensate(me);
    }
  }

  /** What the pass itself has logged is a failure of the reservation if it found the saga before
      its stock was recorded, and steps of a compensation if it found it later. */
  ghost predicate LogsOnly(saga: SagaRuntime, me: nat, found: State)
    reads saga
  {
    forall e :: e in A.EventsOf(saga.cfg, Initial(saga.start, saga.startOrder), saga.acts, me) ==>
      if found.Started? || found.Pending? || found.ReservingStock? then e.StockReservationFailed?
      else e.CompensationStarted? || e.CompensationCompleted?
  }

  /** The saga's history before the pass. */
  ghost predicate Unscanned(saga: SagaRuntime, before: seq<Action>, me: nat, found: State) {
    var s := Run(saga.cfg, Initial(saga.start, saga.startOrder), before);
    me !in s.procs && s.w.state == found && !IsTerminal(found)
  }

  lemma PassLogs(saga: SagaRuntime, before: seq<Action>, me: nat, found: State)
    requires Unscanned(saga, before, me, found)
    requires saga.acts == before || before + [Scan(me)] <= saga.acts
    ensures LogsOnly(saga, me, found)
  {
    var s0 := Initial(saga.start, saga.startOrder);
    if saga.acts == before {
      A.NothingYet(saga.cfg, s0, before, me);
    } else {
      var more := saga.acts[|before| + 1..];
      assert saga.acts == before + [Scan(me)] + more;
      A.PassLogsOnly(saga.cfg, s0, before, me, more);
    }
  }

  /** The sagas of the snapshot, in order, until the context is found cancelled. */
  method HandleAll(batch: seq<SagaRuntime>, snapshot: seq<State>, me: nat) returns (handled: nat)
    requires |snapshot| == |batch| && forall i, j :: 0 <= i < j < |batch| ==> batch[i] != batch[j]
    requires forall i :: 0 <= i < |batch| ==>
               && batch[i].Valid() && batch[i].state == snapshot[i] && !IsTerminal(snapshot[i])
               && me in batch[i].procs && batch[i].procs[me] == Dispatch(snapshot[i])
    modifies batch
    ensures handled <= |batch|
    ensures forall i :: 0 <= i < |batch| ==> batch[i].Valid() && old(batch[i].acts) <= batch[i].acts
    ensures forall i :: 0 <= i < handled ==> Handled(batch[i], me)
    ensures forall i :: handled <= i < |batch| ==> unchanged(batch[i])
  {
    hide *;
    handled := 0;
    while handled < |batch|
      invariant handled <= |batch|
      invariant forall k :: 0 <= k < |batch| ==> batch[k].Valid() && old(batch[k].acts) <= batch[k].acts
      invariant forall k :: 0 <= k < handled ==> Handled(batch[k], me)
      invariant forall k :: handled <= k < |batch| ==> unchanged(batch[k])
    {
      var cancelled: bool := *;
      if cancelled { return; }
      DispatchOn(snapshot[handled], batch[handled], me);
      handled := handled + 1;
    }
  }

  /** One pass of the watchdog: unless the query fails, every saga that it returned is dispatched
      on the state the query saw, however stale that is by then, up to the one before which the
      context is found cancelled. */
  method ProcessExpiredSagas(batch: seq<SagaRuntime>, me: nat) returns (failed: bool, handled: nat)
    requires forall i, j :: 0 <= i < j < |batch| ==> batch[i] != batch[j]
    requires forall saga :: saga in batch ==> saga.Valid() && me !in saga.procs && !IsTerminal(saga.state)
    modifies batch
    ensures handled <= |batch|
    ensures failed ==> handled == 0 && forall saga :: saga in batch ==> unchanged(saga)
    ensures forall i :: 0 <= i < |batch| ==> batch[i].Valid() && old(batch[i].acts) <= batch[i].acts
    ensures forall i :: 0 <= i < handled ==> Handled(batch[i], me)
    ensures forall i :: 0 <= i < |batch| ==> LogsOnly(batch[i], me, old(batch[i].state))
    ensures !failed ==> forall i :: handled <= i < |batch| ==>
              && batch[i].state == old(batch[i].state)
              && me in batch[i].procs && batch[i].procs[me] == Dispatch(old(batch[i].state))
  {
    ghost var found := seq(|batch|, i requires 0 <= i < |batch| reads batch => batch[i].acts);
    forall i | 0 <= i < |batch| ensures Unscanned(batch[i], found[i], me, old(batch[i].state)) {}
    hide *;
    failed, handled := *, 0;
    if !failed {
      var snapshot := FindTimedOutSagas(batch, me);
      handled := HandleAll(batch, snapshot, me);
    }
    forall i | 0 <= i < |batch| ensures LogsOnly(batch[i], me, old(batch[i].state)) {
      PassLogs(batch[i], found[i], me, old(batch[i].state));
    }
  }
}
