/** When a compensation can still complete, and what a failure by the watchdog leaves behind. */
module SagaCompensation {
  import opened Common
  import opened Statuses
  import opened SagaFsm
  import opened SagaSystem
  import opened SagaSafety
  import opened SagaTheorems
  import O = OrderFsm

  // ---- the order -----------------------------------------------------------------------

  predicate Cancellable(w: World) {
    O.CanTransitionTo(w.order, O.Cancelled)
  }

  /** An order that cannot be cancelled never can be again: it is paid, or beyond. */
  lemma OrderStep(cfg: Config, s: Sys, a: Action)
    requires !Cancellable(s.w)
    ensures !Cancellable(Step(cfg, s, a).w)
  {
    hide Capture, Refund, Reserve, Settle, Transition, Next;
    if a.Advance? && a.pid in s.procs {
      OrderOnly(cfg, s.w, RequestOf(cfg, s.procs[a.pid]), a.d, a.c);
      hide Perform, RequestOf;
    } else {
      OutsideOrder(cfg, s.w, a);
      hide Outside;
    }
  }

  lemma OrderOnly(cfg: Config, w: World, request: Request, d: Delivery, c: Choice)
    requires !Cancellable(w)
    ensures !Cancellable(Perform(cfg, w, request, d, c).0)
  {
  }

  lemma OutsideOrder(cfg: Config, w: World, a: Action)
    requires !Cancellable(w)
    ensures !Cancellable(Outside(cfg, w, a))
  {
  }

  lemma {:induction false} NeverCancellable(
      cfg: Config, start: State, order: O.OrderStatus, acts: seq<Action>, more: seq<Action>)
    requires !Cancellable(After(cfg, start, order, acts).w)
    ensures !Cancellable(After(cfg, start, order, acts + more).w)
  {
    hide Step, Cancellable;
    if more == [] {
      assert acts + more == acts;
    } else {
      var before := acts + more[..|more| - 1];
      NeverCancellable(cfg, start, order, acts, more[..|more| - 1]);
      assert acts + more == before + [more[|more| - 1]];
      RunAppend(cfg, Initial(start, order), before, more[|more| - 1]);
      OrderStep(cfg, After(cfg, start, order, before), more[|more| - 1]);
    }
  }

  /** Once the order is paid, confirmed or refunded, no compensation ever completes. */
  lemma ClosedOrderBlocksCompensation(
      cfg: Config, start: State, order: O.OrderStatus, acts: seq<Action>, more: seq<Action>)
    requires Fresh(start) && !Cancellable(After(cfg, start, order, acts).w)
    ensures !Completed(After(cfg, start, order, acts + more).w.log)
  {
    NeverCancellable(cfg, start, order, acts, more);
    Reachable(cfg, start, order, acts + more);
  }

  // ---- the configured end --------------------------------------------------------------

  lemma NoEndStep(cfg: Config, s: Sys, a: Action)
    requires !CanTransition(Compensating, cfg.compensated) && !Completed(s.w.log)
    ensures !Completed(Step(cfg, s, a).w.log)
  {
    if a.Advance? && a.pid in s.procs {
      NoEndAct(cfg, s.w, s.procs[a.pid], a.d, a.c);
    }
    hide Act, Completed;
  }

  lemma NoEndAct(cfg: Config, w: World, pc: Pc, d: Delivery, c: Choice)
    requires !CanTransition(Compensating, cfg.compensated) && !Completed(w.log)
    ensures !Completed(Act(cfg, w, pc, d, c).0.log)
  {
    var request := RequestOf(cfg, pc);
    assert request.SetState? && request.event == CompensationCompleted ==> pc.CompExit?;
    hide RequestOf, Next, CanTransition, Capture, Refund, Reserve, Settle, MoveOrder;
    var log := Act(cfg, w, pc, d, c).0.log;
    assert log == w.log || (request.SetState? && log == w.log + [Entry(Some(request.from), request.to, request.event)]);
  }

  lemma {:induction false} NoEndNoCompletion(
      cfg: Config, start: State, order: O.OrderStatus, acts: seq<Action>, more: seq<Action>)
    requires !CanTransition(Compensating, cfg.compensated) && !Completed(After(cfg, start, order, acts).w.log)
    ensures !Completed(After(cfg, start, order, acts + more).w.log)
  {
    hide Step, Completed, CanTransition;
    if more == [] {
      assert acts + more == acts;
    } else {
      var before := acts + more[..|more| - 1];
      NoEndNoCompletion(cfg, start, order, acts, more[..|more| - 1]);
      assert acts + more == before + [more[|more| - 1]];
      RunAppend(cfg, Initial(start, order), before, more[|more| - 1]);
      NoEndStep(cfg, After(cfg, start, order, before), more[|more| - 1]);
    }
  }

  // ---- completing ----------------------------------------------------------------------

  lemma CancelThenExit(cfg: Config, s0: Sys, acts: seq<Action>, pid: nat) returns (longer: seq<Action>)
    requires var s := Run(cfg, s0, acts);
             && pid in s.procs && (s.procs[pid].CompCancel? || s.procs[pid].CompExit?)
             && s.w.state.Compensating? && Cancellable(s.w)
    requires CanTransition(Compensating, cfg.compensated)
    ensures acts <= longer && Completed(Run(cfg, s0, longer).w.log)
  {
    longer := acts;
    var s := Run(cfg, s0, acts);
    if s.procs[pid].CompCancel? {
      longer := RunOne(cfg, s0, longer, Go(pid));
      CancelSteps(cfg, s.w, s.procs[pid]);
    }
    hide Run, Act;
    var s1 := Run(cfg, s0, longer);
    longer := RunOne(cfg, s0, longer, Go(pid));
    ExitCompletes(cfg, s1.w, s1.procs[pid]);
  }

  lemma CancelSteps(cfg: Config, w: World, pc: Pc)
    requires pc.CompCancel? && Cancellable(w)
    ensures Act(cfg, w, pc, Delivered, Choice(7, false)) == (w.(order := O.Cancelled), CompExit(pc.payload))
  {
  }

  lemma ExitCompletes(cfg: Config, w: World, pc: Pc)
    requires pc.CompExit? && w.state.Compensating? && CanTransition(Compensating, cfg.compensated)
    ensures Completed(Act(cfg, w, pc, Delivered, Choice(7, false)).0.log)
  {
    var log := Act(cfg, w, pc, Delivered, Choice(7, false)).0.log;
    assert log[|w.log|].event == CompensationCompleted;
  }

  /** Nothing of what the saga recorded stands in the way. */
  predicate Returnable(w: World) {
    && (w.payload.reservation.Some? ==> w.reservation.Some? && !w.reservation.value.status.Committed?)
    && (w.payload.payment.Some? ==> w.payment.Some? && w.payment.value.status.Success?)
  }

  lemma ReleaseSteps(cfg: Config, w: World)
    requires Core(cfg, w) && Returnable(w) && w.payload.reservation.Some?
    ensures Act(cfg, w, CompRelease(w.payload), Delivered, Choice(7, false))
         == (w.(reservation := Some(Reservation(w.payload.reservation.value, Released))), AfterReleasing(w.payload))
  {
    CoreFacts(cfg, w);
  }

  lemma RefundSteps(cfg: Config, w: World)
    requires Core(cfg, w) && Returnable(w) && w.payload.payment.Some?
    ensures Act(cfg, w, CompRefund(w.payload), Delivered, Choice(7, false))
         == (w.(payment := Some(w.payment.value.(status := Refunded)), refunds := w.refunds + 1,
                returned := w.returned + cfg.total), CompCancel(w.payload))
  {
    CoreFacts(cfg, w);
  }

  /** A fresh watchdog pass reads COMPENSATING and starts undoing. */
  lemma ScanStarts(cfg: Config, s0: Sys, acts: seq<Action>, pid: nat) returns (longer: seq<Action>)
    requires Run(cfg, s0, acts).w.state.Compensating? && pid !in Run(cfg, s0, acts).procs
    ensures acts <= longer
    ensures var s := Run(cfg, s0, acts);
            Run(cfg, s0, longer) == s.(procs := s.procs[pid := AfterEntering(s.w.payload)])
  {
    var s := Run(cfg, s0, acts);
    hide Run, AfterEntering;
    longer := RunOne(cfg, s0, acts, Scan(pid));
    assert Run(cfg, s0, longer) == s.(procs := s.procs[pid := CompRead]);
    longer := RunOne(cfg, s0, longer, Go(pid));
    assert s.procs[pid := CompRead][pid := AfterEntering(s.w.payload)] == s.procs[pid := AfterEntering(s.w.payload)];
  }

  /** And releases and refunds. */
  lemma ReturnAll(cfg: Config, start: State, order: O.OrderStatus, acts: seq<Action>, pid: nat)
    returns (longer: seq<Action>)
    requires Fresh(start)
    requires var s := After(cfg, start, order, acts);
             && pid in s.procs && s.procs[pid] == AfterEntering(s.w.payload)
             && s.w.state.Compensating? && Returnable(s.w) && Cancellable(s.w)
    ensures acts <= longer
    ensures var s' := After(cfg, start, order, longer);
            pid in s'.procs && s'.procs[pid].CompCancel? && s'.w.state.Compensating? && Cancellable(s'.w)
  {
    var s0 := Initial(start, order);
    longer := acts;
    var w := Run(cfg, s0, acts).w;
    Reachable(cfg, start, order, acts);
    if w.payload.reservation.Some? {
      ReleaseSteps(cfg, w);
      longer := RunOne(cfg, s0, acts, Go(pid));
    }
    var w1 := Run(cfg, s0, longer).w;
    Reachable(cfg, start, order, longer);
    hide Run, Act, Core;
    if w.payload.payment.Some? {
      RefundSteps(cfg, w1);
      longer := RunOne(cfg, s0, longer, Go(pid));
    }
  }

  /** What the completion of a compensation takes: an order that can be cancelled and an end that
      the table allows; and either a process that has everything else behind it, or a recorded
      reservation that is not committed and a recorded payment that is not refunded. */
  predicate CanComplete(cfg: Config, s: Sys) {
    && Cancellable(s.w) && CanTransition(Compensating, cfg.compensated)
    && (Returnable(s.w) || exists p :: p in s.procs && (s.procs[p].CompCancel? || s.procs[p].CompExit?))
  }

  /** The recorded payment is not there to be refunded again. */
  lemma NotReturnable(cfg: Config, w: World)
    requires Core(cfg, w) && w.state.Compensating? && !Returnable(w)
    ensures ReservationIs(w, w.payload.reservation, Committed) || PaymentIs(w, w.payload.payment, Refunded)
    ensures w.payload.reservation.Some?
    ensures !ReservationIs(w, w.payload.reservation, Committed) ==> w.payload.payment.Some?
  {
    CoreFacts(cfg, w);
  }

  /** A compensation that has begun completes in some continuation exactly if it can. */
  lemma {:induction false} CompensationCompletesIff(cfg: Config, start: State, order: O.OrderStatus, acts: seq<Action>)
    requires Fresh(start) && After(cfg, start, order, acts).w.state.Compensating?
    ensures (exists more :: Completed(After(cfg, start, order, acts + more).w.log))
       <==> CanComplete(cfg, After(cfg, start, order, acts))
  {
    Reachable(cfg, start, order, acts);
    if CanComplete(cfg, After(cfg, start, order, acts)) {
      var longer := Complete(cfg, start, order, acts);
      assert longer == acts + longer[|acts|..];
      assert Completed(After(cfg, start, order, acts + longer[|acts|..]).w.log);
    } else {
      forall more ensures !Completed(After(cfg, start, order, acts + more).w.log) {
        Blocked(cfg, start, order, acts, more);
      }
    }
  }

  lemma Complete(cfg: Config, start: State, order: O.OrderStatus, acts: seq<Action>) returns (longer: seq<Action>)
    requires Fresh(start) && After(cfg, start, order, acts).w.state.Compensating?
    requires CanComplete(cfg, After(cfg, start, order, acts))
    ensures acts <= longer && Completed(After(cfg, start, order, longer).w.log)
  {
    var s0 := Initial(start, order);
    var s := Run(cfg, s0, acts);
    hide Run, Cancellable, Returnable, CanTransition, AfterEntering;
    var pid;
    if p :| p in s.procs && (s.procs[p].CompCancel? || s.procs[p].CompExit?) {
      longer, pid := acts, p;
    } else {
      pid := FreshPid(s.procs.Keys);
      longer := ScanStarts(cfg, s0, acts, pid);
      longer := ReturnAll(cfg, start, order, longer, pid);
    }
    longer := CancelThenExit(cfg, s0, longer, pid);
  }

  lemma Blocked(cfg: Config, start: State, order: O.OrderStatus, acts: seq<Action>, more: seq<Action>)
    requires Fresh(start) && After(cfg, start, order, acts).w.state.Compensating?
    requires !CanComplete(cfg, After(cfg, start, order, acts))
    ensures !Completed(After(cfg, start, order, acts + more).w.log)
  {
    var s := After(cfg, start, order, acts);
    Reachable(cfg, start, order, acts);
    assert !Completed(s.w.log);
    hide Run, Completed, Cancellable, Returnable, CanTransition;
    if !Cancellable(s.w) {
      ClosedOrderBlocksCompensation(cfg, start, order, acts, more);
    } else if !CanTransition(Compensating, cfg.compensated) {
      NoEndNoCompletion(cfg, start, order, acts, more);
    } else {
      NotReturnable(cfg, s.w);
      if ReservationIs(s.w, s.w.payload.reservation, Committed) {
        CommittedStockBlocksCompensation(cfg, start, order, acts, more);
      } else {
        CrashAfterRefundBlocksCompensation(cfg, start, order, acts, more);
      }
    }
  }

  // ---- failures by the watchdog --------------------------------------------------------

  /** `pid` takes the saga to FAILED, from what it read some time ago. */
  predicate Fails(cfg: Config, s: Sys, pid: nat, d: Delivery, c: Choice) {
    && pid in s.procs && s.procs[pid].FailEnter?
    && Step(cfg, s, Advance(pid, d, c)).w.state != s.w.state
  }

  /** Nothing of what the saga recorded is left standing. */
  predicate RecordedIsUndone(w: World) {
    ReservationIs(w, w.payload.reservation, Released) && PaymentIs(w, w.payload.payment, Refunded)
  }

  /** In every run: handleStockReservationFailure fails the saga from the very state that it
      re-read, it undoes nothing, and the saga has recorded nothing exactly if that state is
      STARTED, PENDING or RESERVING_STOCK. */
  lemma FailureRecordsNothingIff(
      cfg: Config, start: State, order: O.OrderStatus, acts: seq<Action>, pid: nat, d: Delivery, c: Choice)
    requires Fresh(start) && Fails(cfg, After(cfg, start, order, acts), pid, d, c)
    ensures var s := After(cfg, start, order, acts);
            var w' := Step(cfg, s, Advance(pid, d, c)).w;
            var from := s.procs[pid].from;
            && from == s.w.state && !IsTerminal(from)
            && w' == s.w.(state := Failed, log := s.w.log + [Entry(Some(from), Failed, StockReservationFailed)])
            && (w'.payload == Payload(None, None) <==> from.Started? || from.Pending? || from.ReservingStock?)
  {
    var s := After(cfg, start, order, acts);
    Reachable(cfg, start, order, acts);
    hide Core, PcOk, Run, Act;
    FailsFrom(cfg, s.w, s.procs[pid], d, c);
  }

  lemma FailsFrom(cfg: Config, w: World, pc: Pc, d: Delivery, c: Choice)
    requires Core(cfg, w) && PcOk(cfg, w, pc) && pc.FailEnter? && Act(cfg, w, pc, d, c).0.state != w.state
    ensures var w' := Act(cfg, w, pc, d, c).0;
            && pc.from == w.state && !IsTerminal(pc.from)
            && w' == w.(state := Failed, log := w.log + [Entry(Some(pc.from), Failed, StockReservationFailed)])
            && (w'.payload == Payload(None, None) <==> Rank(pc.from) <= 1)
  {
    CoreFacts(cfg, w);
    hide Core;
  }

  /** In every run that fails a saga from `from`, nothing recorded is left standing. */
  ghost predicate FailingFromIsClean(from: State) {
    forall cfg, start, order, acts, pid, d, c |
      && Fresh(start) && Fails(cfg, After(cfg, start, order, acts), pid, d, c)
      && After(cfg, start, order, acts).procs[pid].from == from ::
      RecordedIsUndone(Step(cfg, After(cfg, start, order, acts), Advance(pid, d, c)).w)
  }

  /** A run in which the saga is in state `from`, holds the stock, and a watchdog pass that saw
      it in STARTED has not acted yet. */
  lemma HoldsTheStock(cfg: Config, from: State) returns (acts: seq<Action>)
    requires 2 <= Rank(from) <= 5 && cfg.total > 0
    ensures var s := After(cfg, Started, O.Paid, acts);
            && 1 in s.procs && s.procs[1] == FailRead && s.w.state == from && s.w.order.Paid?
            && s.w.payload.reservation == Some(7) && s.w.reservation == Some(Reservation(7, Held))
  {
    hide Run;
    match from
    case StockReserved => acts := DriverRecords(cfg, O.Paid, true);
    case Paying => acts := DriverReachesCapture(cfg, O.Paid, true);
    case Paid => acts := DriverPays(cfg);
    case Compensating => acts := DriverCompensates(cfg);
  }

  lemma LeavesTheStock(cfg: Config, from: State) returns (acts: seq<Action>)
    requires 2 <= Rank(from) <= 5 && cfg.total > 0
    ensures var s := After(cfg, Started, O.Paid, acts);
            && 1 in s.procs && s.procs[1] == FailEnter(from, s.w.payload) && s.w.state == from
            && s.w.payload.reservation == Some(7) && s.w.reservation == Some(Reservation(7, Held))
  {
    acts := HoldsTheStock(cfg, from);
    hide Run;
    acts := ScanReaches(cfg, Initial(Started, O.Paid), acts);
  }

  /** Failing a saga that it has re-read in one of the states before the reservation is recorded
      leaves nothing recorded behind in any run; from any other state it does. */
  lemma FailingIsCleanIff(from: State)
    requires !IsTerminal(from)
    ensures FailingFromIsClean(from) <==> from.Started? || from.Pending? || from.ReservingStock?
  {
    if Rank(from) <= 1 {
      forall cfg, start, order, acts, pid, d, c |
        && Fresh(start) && Fails(cfg, After(cfg, start, order, acts), pid, d, c)
        && After(cfg, start, order, acts).procs[pid].from == from
        ensures RecordedIsUndone(Step(cfg, After(cfg, start, order, acts), Advance(pid, d, c)).w)
      {
        FailureRecordsNothingIff(cfg, start, order, acts, pid, d, c);
      }
    } else {
      var cfg := Config(1, 100, Failed);
      var acts := LeavesTheStock(cfg, from);
      var s := After(cfg, Started, O.Paid, acts);
      hide Run;
      StillThere(cfg, s, from);
      assert Fresh(Started) && Fails(cfg, After(cfg, Started, O.Paid, acts), 1, Delivered, Choice(7, false));
      assert !FailingFromIsClean(from);
    }
  }

  lemma StillThere(cfg: Config, s: Sys, from: State)
    requires 1 in s.procs && s.procs[1] == FailEnter(from, s.w.payload) && s.w.state == from && !IsTerminal(from)
    requires s.w.payload.reservation == Some(7) && s.w.reservation == Some(Reservation(7, Held))
    ensures Fails(cfg, s, 1, Delivered, Choice(7, false))
    ensures !RecordedIsUndone(Step(cfg, s, Advance(1, Delivered, Choice(7, false))).w)
  {
    assert CanTransition(from, Failed);
  }

  /** On the way there the order is cancelled for good exactly if it is, or can be and the command
      arrives; and if it cannot be, it never is. The saga is failed all the same. */
  lemma FailureCancelsIff(
      cfg: Config, start: State, order: O.OrderStatus, acts: seq<Action>, pid: nat, d: Delivery, c: Choice)
    requires Fresh(start)
    requires pid in After(cfg, start, order, acts).procs && After(cfg, start, order, acts).procs[pid].FailCancel?
    ensures var s := After(cfg, start, order, acts);
            var cancelled := acts + [Advance(pid, d, c)];
            && (After(cfg, start, order, cancelled).procs[pid]
                == FailEnter(s.procs[pid].from, s.procs[pid].payload))
            && ((forall more :: After(cfg, start, order, cancelled + more).w.order.Cancelled?)
                <==> s.w.order.Cancelled? || (!d.NotSent? && Cancellable(s.w)))
            && ((exists more :: After(cfg, start, order, cancelled + more).w.order.Cancelled?) <==> Cancellable(s.w))
  {
    var (s0, s) := (Initial(start, order), After(cfg, start, order, acts));
    var cancelled := acts + [Advance(pid, d, c)];
    RunAppend(cfg, s0, acts, Advance(pid, d, c));
    FailCancelActs(cfg, s.w, s.procs[pid], d, c);
    var w := After(cfg, start, order, cancelled).w;
    hide Run, Act, Cancellable;
    assert cancelled + [] == cancelled;
    if w.order.Cancelled? {
      forall more ensures After(cfg, start, order, cancelled + more).w.order.Cancelled? {
        LaterGrows(cfg, start, order, cancelled, more);
      }
      assert After(cfg, start, order, cancelled + []).w.order.Cancelled?;
    } else {
      assert !After(cfg, start, order, cancelled + []).w.order.Cancelled?;
      if Cancellable(w) {
        RunAppend(cfg, s0, cancelled, OrderMoves(O.Cancelled));
        MovesToCancelled(cfg, After(cfg, start, order, cancelled));
        assert After(cfg, start, order, cancelled + [OrderMoves(O.Cancelled)]).w.order.Cancelled?;
      } else {
        forall more ensures !After(cfg, start, order, cancelled + more).w.order.Cancelled? {
          NeverCancellable(cfg, start, order, cancelled, more);
          CancelledIsCancellable(After(cfg, start, order, cancelled + more).w);
        }
      }
    }
  }

  lemma FailCancelActs(cfg: Config, w: World, pc: Pc, d: Delivery, c: Choice)
    requires pc.FailCancel?
    ensures var (w', pc') := Act(cfg, w, pc, d, c);
            && pc' == FailEnter(pc.from, pc.payload)
            && (w'.order.Cancelled? <==> w.order.Cancelled? || (!d.NotSent? && Cancellable(w)))
            && (Cancellable(w') <==> Cancellable(w))
            && (w.order.Cancelled? ==> Cancellable(w))
  {
  }

  lemma MovesToCancelled(cfg: Config, s: Sys)
    requires Cancellable(s.w)
    ensures Step(cfg, s, OrderMoves(O.Cancelled)).w.order.Cancelled?
  {
  }

  lemma CancelledIsCancellable(w: World)
    ensures w.order.Cancelled? ==> Cancellable(w)
  {
  }
}
