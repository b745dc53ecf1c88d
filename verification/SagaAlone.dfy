/** What one call does when nobody else acts and every command and answer arrives: a watchdog pass
    and a driver, from any state that a saga can reach. */
module SagaAlone {
  import opened Common
  import opened Statuses
  import opened SagaFsm
  import opened SagaSystem
  import opened SagaSafety
  import opened SagaTheorems
  import opened SagaCompensation
  import O = OrderFsm

  /** A process that makes its next n accesses, one after the other. */
  function Alone(cfg: Config, w: World, pc: Pc, c: Choice, n: nat): (World, Pc)
    decreases n
  {
    if n == 0 then (w, pc)
    else
      var (w', pc') := Act(cfg, w, pc, Delivered, c);
      Alone(cfg, w', pc', c, n - 1)
  }

  function Goes(pid: nat, c: Choice, n: nat): seq<Action> {
    if n == 0 then [] else [Advance(pid, Delivered, c)] + Goes(pid, c, n - 1)
  }

  lemma {:induction false} AloneIsARun(cfg: Config, s0: Sys, acts: seq<Action>, pid: nat, c: Choice, n: nat)
    requires pid in Run(cfg, s0, acts).procs
    ensures var (s, s') := (Run(cfg, s0, acts), Run(cfg, s0, acts + Goes(pid, c, n)));
            var (w', pc') := Alone(cfg, s.w, s.procs[pid], c, n);
            s' == Sys(w', s.procs[pid := pc'])
    decreases n
  {
    hide Run, Act;
    var s := Run(cfg, s0, acts);
    if n == 0 {
      assert acts + Goes(pid, c, 0) == acts;
      assert s.procs[pid := s.procs[pid]] == s.procs;
    } else {
      var a := Advance(pid, Delivered, c);
      RunAppend(cfg, s0, acts, a);
      AloneIsARun(cfg, s0, acts + [a], pid, c, n - 1);
      assert acts + [a] + Goes(pid, c, n - 1) == acts + Goes(pid, c, n);
      var pc1 := Run(cfg, s0, acts + [a]).procs[pid];
      var pc2 := Alone(cfg, s.w, s.procs[pid], c, n).1;
      assert s.procs[pid := pc1][pid := pc2] == s.procs[pid := pc2];
    }
  }

  lemma {:induction false} DoneStays(cfg: Config, w: World, ok: bool, c: Choice, n: nat)
    ensures Alone(cfg, w, Done(ok), c, n) == (w, Done(ok))
  {
    if n > 0 { DoneStays(cfg, w, ok, c, n - 1); }
  }

  lemma {:induction false} AloneOn(cfg: Config, w: World, pc: Pc, c: Choice, n: nat, m: nat)
    ensures var (w', pc') := Alone(cfg, w, pc, c, n);
            Alone(cfg, w, pc, c, n + m) == Alone(cfg, w', pc', c, m)
    decreases n
  {
    hide Act;
    if n > 0 {
      var (w', pc') := Act(cfg, w, pc, Delivered, c);
      AloneOn(cfg, w', pc', c, n - 1, m);
    }
  }

  // ---- handleStockReservationFailure ---------------------------------------------------

  function FailedWorld(w: World): World {
    w.(state := Failed, log := w.log + [Entry(Some(w.state), Failed, StockReservationFailed)],
       order := if Cancellable(w) then O.Cancelled else w.order)
  }

  lemma FailsAlone(cfg: Config, w: World, c: Choice)
    requires !IsTerminal(w.state)
    ensures Alone(cfg, w, FailRead, c, 3) == (FailedWorld(w), Done(false))
  {
    var w1 := FailedWorld(w).(state := w.state, log := w.log);
    assert CanTransition(w.state, Failed);
    assert Act(cfg, w, FailRead, Delivered, c) == (w, FailCancel(w.state, w.payload));
    assert Act(cfg, w, FailCancel(w.state, w.payload), Delivered, c) == (w1, FailEnter(w.state, w.payload));
    assert Act(cfg, w1, FailEnter(w.state, w.payload), Delivered, c) == (FailedWorld(w), Done(false));
    hide Act;
    assert Alone(cfg, w1, FailEnter(w.state, w.payload), c, 1) == (FailedWorld(w), Done(false));
    assert Alone(cfg, w, FailCancel(w.state, w.payload), c, 2) == (FailedWorld(w), Done(false));
  }

  // ---- Compensate ----------------------------------------------------------------------

  lemma ReleaseAct(cfg: Config, w: World, c: Choice)
    requires Core(cfg, w) && w.payload.reservation.Some?
    ensures Act(cfg, w, CompRelease(w.payload), Delivered, c)
         == if ReservationIs(w, w.payload.reservation, Committed) then (w, Done(false))
            else (w.(reservation := Some(Reservation(w.payload.reservation.value, Released))),
                  AfterReleasing(w.payload))
  {
    CoreFacts(cfg, w);
  }

  lemma RefundAct(cfg: Config, w: World, c: Choice)
    requires Core(cfg, w) && w.payload.payment.Some?
    ensures Act(cfg, w, CompRefund(w.payload), Delivered, c)
         == if PaymentIs(w, w.payload.payment, Refunded) then (w, Done(false))
            else (w.(payment := Some(w.payment.value.(status := Refunded)), refunds := w.refunds + 1,
                     returned := w.returned + cfg.total), CompCancel(w.payload))
  {
    CoreFacts(cfg, w);
  }

  /** The state with the stock released. */
  function ReleasedWorld(w: World): World {
    var id := w.payload.reservation;
    if id.Some? then w.(reservation := Some(Reservation(id.value, Released))) else w
  }

  function RefundedWorld(cfg: Config, w: World): World {
    if w.payload.payment.Some? && w.payment.Some?
    then w.(payment := Some(w.payment.value.(status := Refunded)), refunds := w.refunds + 1,
            returned := w.returned + cfg.total)
    else w
  }

  /** From the end of a compensation back to its beginning. */
  lemma ExitsAlone(cfg: Config, w: World, c: Choice)
    requires w.state.Compensating?
    ensures var (w', pc') := Alone(cfg, w, CompCancel(w.payload), c, 2);
            && pc'.Done?
            && if Cancellable(w) && CanTransition(Compensating, cfg.compensated) then
                 && pc'.ok
                 && w' == w.(order := O.Cancelled, state := cfg.compensated,
                             log := w.log + [Entry(Some(Compensating), cfg.compensated, CompensationCompleted)])
               else !pc'.ok && w' == (if Cancellable(w) then w.(order := O.Cancelled) else w)
  {
    var w1 := w.(order := O.Cancelled);
    if Cancellable(w) {
      assert Act(cfg, w, CompCancel(w.payload), Delivered, c) == (w1, CompExit(w.payload));
      var (w2, pc2) := Act(cfg, w1, CompExit(w.payload), Delivered, c);
      assert Alone(cfg, w1, CompExit(w.payload), c, 1) == (w2, pc2);
    } else {
      assert Act(cfg, w, CompCancel(w.payload), Delivered, c) == (w, Done(false));
      DoneStays(cfg, w, false, c, 1);
    }
  }

  /** How Compensate ends: complete exactly if nothing stands in the way. */
  ghost predicate ExitedOr(cfg: Config, w: World, may: bool, w': World, pc': Pc) {
    && pc'.Done? && (pc'.ok <==> Completed(w'.log))
    && (pc'.ok <==> Cancellable(w) && CanTransition(Compensating, cfg.compensated) && may)
    && (pc'.ok ==> w'.state == cfg.compensated)
    && w'.payload == w.payload && Abandoned(w'.state)
    && NoFailure(w.log, w'.log)
  }

  lemma ExitsOr(cfg: Config, w: World, c: Choice)
    requires w.state.Compensating? && !Completed(w.log)
    ensures ExitedOr(cfg, w, true, Alone(cfg, w, CompCancel(w.payload), c, 2).0,
                     Alone(cfg, w, CompCancel(w.payload), c, 2).1)
  {
    ExitsAlone(cfg, w, c);
    EndOfLog(w.log, Alone(cfg, w, CompCancel(w.payload), c, 2).0.log, cfg.compensated);
    hide Alone, Completed, Cancellable, CanTransition, NoFailure;
  }

  lemma RefundsAlone(cfg: Config, w: World, c: Choice)
    requires Core(cfg, w) && w.state.Compensating?
    ensures ExitedOr(cfg, w, !(w.payload.payment.Some? && PaymentIs(w, w.payload.payment, Refunded)),
                     Alone(cfg, w, AfterReleasing(w.payload), c, 3).0, Alone(cfg, w, AfterReleasing(w.payload), c, 3).1)
  {
    NotCompleted(cfg, w);
    if w.payload.payment.Some? {
      RefundAct(cfg, w, c);
      hide Act, Core, Completed, Cancellable, Alone, NoFailure;
      if PaymentIs(w, w.payload.payment, Refunded) {
        RefusedAlone(cfg, w, c);
      } else {
        RefundedAlone(cfg, w, c);
      }
    } else {
      hide Act, Core, Completed, Cancellable, Alone, NoFailure;
      ExitsOr(cfg, w, c);
      AloneOn(cfg, w, CompCancel(w.payload), c, 2, 1);
      var (w2, pc2) := Alone(cfg, w, CompCancel(w.payload), c, 2);
      DoneStays(cfg, w2, pc2.ok, c, 1);
    }
  }

  lemma RefusedAlone(cfg: Config, w: World, c: Choice)
    requires Act(cfg, w, CompRefund(w.payload), Delivered, c) == (w, Done(false))
    requires w.state.Compensating? && !Completed(w.log)
    ensures ExitedOr(cfg, w, false, Alone(cfg, w, CompRefund(w.payload), c, 3).0,
                     Alone(cfg, w, CompRefund(w.payload), c, 3).1)
  {
    hide Act, Completed, Cancellable;
    DoneStays(cfg, w, false, c, 2);
  }

  lemma RefundedAlone(cfg: Config, w: World, c: Choice)
    requires Act(cfg, w, CompRefund(w.payload), Delivered, c) == (RefundedWorld(cfg, w), CompCancel(w.payload))
    requires w.state.Compensating? && !Completed(w.log)
    ensures ExitedOr(cfg, w, true, Alone(cfg, w, CompRefund(w.payload), c, 3).0,
                     Alone(cfg, w, CompRefund(w.payload), c, 3).1)
  {
    hide Act, Completed, NoFailure;
    ExitsOr(cfg, RefundedWorld(cfg, w), c);
  }

  /** Nothing that was logged in between is a stock-reservation failure. */
  predicate NoFailure(log: seq<Entry>, log': seq<Entry>) {
    log <= log' && forall i :: |log| <= i < |log'| ==> !log'[i].event.StockReservationFailed?
  }

  lemma NotCompleted(cfg: Config, w: World)
    requires Core(cfg, w) && !IsTerminal(w.state)
    ensures !Completed(w.log)
  {
  }

  lemma EndOfLog(log: seq<Entry>, log': seq<Entry>, to: State)
    requires !Completed(log)
    requires log' == log || log' == log + [Entry(Some(Compensating), to, CompensationCompleted)]
    ensures Completed(log') <==> log' != log
    ensures NoFailure(log, log')
  {
    if log' != log { assert log'[|log|].event.CompensationCompleted?; }
  }

  lemma UndoesAlone(cfg: Config, w: World, c: Choice)
    requires Core(cfg, w) && w.state.Compensating?
    ensures var (w', pc') := Alone(cfg, w, AfterEntering(w.payload), c, 4);
            ExitedOr(cfg, w, Returnable(w), w', pc')
  {
    var p := w.payload;
    var w1 := ReleasedWorld(w);
    ReturnableIff(cfg, w);
    NotCompleted(cfg, w);
    if p.reservation.Some? {
      ReleaseAct(cfg, w, c);
      if ReservationIs(w, p.reservation, Committed) {
        hide Act, Core, Completed;
        DoneStays(cfg, w, false, c, 3);
      } else {
        SettleStep(cfg, w, p.reservation.value, Released);
        ReleasedIsSettled(cfg, w);
        hide Act, Core, Completed;
        assert Alone(cfg, w, CompRelease(p), c, 4) == Alone(cfg, w1, AfterReleasing(p), c, 3);
        RefundsAlone(cfg, w1, c);
      }
    } else {
      hide Act, Core, Completed;
      RefundsAlone(cfg, w, c);
      var (w2, pc2) := Alone(cfg, w, AfterReleasing(p), c, 3);
      AloneOn(cfg, w, AfterReleasing(p), c, 3, 1);
      DoneStays(cfg, w2, pc2.ok, c, 1);
    }
  }

  lemma ReleasedIsSettled(cfg: Config, w: World)
    requires Core(cfg, w) && w.payload.reservation.Some? && !ReservationIs(w, w.payload.reservation, Committed)
    ensures Settle(w, w.payload.reservation.value, Released).0 == ReleasedWorld(w)
  {
    CoreFacts(cfg, w);
  }

  lemma ReturnableIff(cfg: Config, w: World)
    requires Core(cfg, w)
    ensures Returnable(w) <==>
            && !(w.payload.reservation.Some? && ReservationIs(w, w.payload.reservation, Committed))
            && !(w.payload.payment.Some? && PaymentIs(w, w.payload.payment, Refunded))
  {
    CoreFacts(cfg, w);
  }

  lemma RetriesAlone(cfg: Config, w: World, c: Choice)
    requires Core(cfg, w) && w.state.Compensating?
    ensures ExitedOr(cfg, w, Returnable(w), Alone(cfg, w, CompRead, c, 6).0, Alone(cfg, w, CompRead, c, 6).1)
  {
    var p := w.payload;
    assert Act(cfg, w, CompRead, Delivered, c) == (w, AfterEntering(p));
    hide Act, Core, Completed, AfterEntering, Cancellable, Returnable, NoFailure;
    UndoesAlone(cfg, w, c);
    var (w2, pc2) := Alone(cfg, w, AfterEntering(p), c, 4);
    AloneOn(cfg, w, AfterEntering(p), c, 4, 1);
    DoneStays(cfg, w2, pc2.ok, c, 1);
    assert Alone(cfg, w, CompRead, c, 6) == Alone(cfg, w, AfterEntering(p), c, 5);
  }

  lemma CompensatesAlone(cfg: Config, w: World, c: Choice)
    requires Core(cfg, w) && 2 <= Rank(w.state) <= 4
    ensures ExitedOr(cfg, w, Returnable(w), Alone(cfg, w, CompRead, c, 6).0, Alone(cfg, w, CompRead, c, 6).1)
  {
    var (p, w1) := (w.payload, EnteredWorld(w));
    EntersAlone(cfg, w, c);
    EnteringIsNoFailure(w, Alone(cfg, w1, AfterEntering(p), c, 4).0.log);
    hide Act, Core, Completed, AfterEntering, NoFailure;
    assert Alone(cfg, w, CompEnter(w.state, p), c, 5) == Alone(cfg, w1, AfterEntering(p), c, 4);
    assert Alone(cfg, w, CompRead, c, 6) == Alone(cfg, w, CompEnter(w.state, p), c, 5);
    UndoesAlone(cfg, w1, c);
  }

  lemma EnteringIsNoFailure(w: World, log: seq<Entry>)
    ensures NoFailure(EnteredWorld(w).log, log) ==> NoFailure(w.log, log)
  {
    if NoFailure(EnteredWorld(w).log, log) {
      assert EnteredWorld(w).log[|w.log|].event.CompensationStarted?;
    }
  }

  function EnteredWorld(w: World): World {
    w.(state := Compensating, log := w.log + [Entry(Some(w.state), Compensating, CompensationStarted)])
  }

  lemma EntersAlone(cfg: Config, w: World, c: Choice)
    requires Core(cfg, w) && 2 <= Rank(w.state) <= 4
    ensures var w1 := EnteredWorld(w);
            && Act(cfg, w, CompRead, Delivered, c) == (w, CompEnter(w.state, w.payload))
            && Act(cfg, w, CompEnter(w.state, w.payload), Delivered, c) == (w1, AfterEntering(w.payload))
            && Core(cfg, w1)
  {
    CoreFacts(cfg, w);
    assert CanTransition(w.state, Compensating);
    assert Act(cfg, w, CompEnter(w.state, w.payload), Delivered, c) == (EnteredWorld(w), AfterEntering(w.payload));
    hide Core, Act;
    TransitionStep(cfg, w, w.state, Compensating, CompensationStarted, Some(w.payload));
  }

  // ---- a pass of the watchdog ----------------------------------------------------------

  /** A watchdog pass that goes through without a hitch. A saga that it finds before the stock is
      recorded is failed, and its order cancelled if that is possible; what was recorded is not
      touched. One that it finds later is compensated to the end exactly if its order can be
      cancelled, the configured end is legal, and nothing recorded is committed or refunded; no
      failure of the reservation is ever logged then. */
  lemma {:induction false} WatchdogPass(
      cfg: Config, start: State, order: O.OrderStatus, acts: seq<Action>, pid: nat, c: Choice)
    requires Fresh(start)
    requires pid !in After(cfg, start, order, acts).procs && !IsTerminal(After(cfg, start, order, acts).w.state)
    ensures var s := After(cfg, start, order, acts);
            var s' := After(cfg, start, order, acts + [Scan(pid)] + Goes(pid, c, 6));
            && pid in s'.procs && s'.procs[pid].Done?
            && if s.w.state.Started? || s.w.state.Pending? || s.w.state.ReservingStock? then
                 s'.w == s.w.(
                   state := Failed,
                   log := s.w.log + [Entry(Some(s.w.state), Failed, StockReservationFailed)],
                   order := if O.CanTransitionTo(s.w.order, O.Cancelled) then O.Cancelled else s.w.order)
               else
                 && (Completed(s'.w.log) <==>
                       && O.CanTransitionTo(s.w.order, O.Cancelled) && CanTransition(Compensating, cfg.compensated)
                       && Returnable(s.w))
                 && (s'.procs[pid].ok <==> Completed(s'.w.log))
                 && (Completed(s'.w.log) ==> s'.w.state == cfg.compensated && Undone(s'.w))
                 && NoFailure(s.w.log, s'.w.log)
  {
    hide *;
    if Rank(After(cfg, start, order, acts).w.state) <= 1 {
      EarlyPass(cfg, start, order, acts, pid, c);
    } else {
      LatePass(cfg, start, order, acts, pid, c);
    }
    Ranks(After(cfg, start, order, acts).w.state);
  }

  lemma Ranks(s: State)
    ensures Rank(s) <= 1 <==> s.Started? || s.Pending? || s.ReservingStock?
  {
  }

  lemma EarlyPass(cfg: Config, start: State, order: O.OrderStatus, acts: seq<Action>, pid: nat, c: Choice)
    requires pid !in After(cfg, start, order, acts).procs && Rank(After(cfg, start, order, acts).w.state) <= 1
    ensures var s := After(cfg, start, order, acts);
            var s' := After(cfg, start, order, acts + [Scan(pid)] + Goes(pid, c, 6));
            && pid in s'.procs && s'.procs[pid].Done?
            && s'.w == s.w.(
                 state := Failed,
                 log := s.w.log + [Entry(Some(s.w.state), Failed, StockReservationFailed)],
                 order := if O.CanTransitionTo(s.w.order, O.Cancelled) then O.Cancelled else s.w.order)
  {
    hide Run, Alone;
    PassRuns(cfg, start, order, acts, pid, c);
    PassFails(cfg, After(cfg, start, order, acts).w, c);
  }

  lemma LatePass(cfg: Config, start: State, order: O.OrderStatus, acts: seq<Action>, pid: nat, c: Choice)
    requires Fresh(start) && pid !in After(cfg, start, order, acts).procs
    requires 2 <= Rank(After(cfg, start, order, acts).w.state) <= 5
    ensures var s := After(cfg, start, order, acts);
            var s' := After(cfg, start, order, acts + [Scan(pid)] + Goes(pid, c, 6));
            && pid in s'.procs && s'.procs[pid].Done?
            && (Completed(s'.w.log) <==>
                  && O.CanTransitionTo(s.w.order, O.Cancelled) && CanTransition(Compensating, cfg.compensated)
                  && Returnable(s.w))
            && (s'.procs[pid].ok <==> Completed(s'.w.log))
            && (Completed(s'.w.log) ==> s'.w.state == cfg.compensated && Undone(s'.w))
            && NoFailure(s.w.log, s'.w.log)
  {
    hide Run, Alone, Undone, Core, Returnable, Completed, NoFailure, CanTransition;
    var (s, longer) := (After(cfg, start, order, acts), acts + [Scan(pid)] + Goes(pid, c, 6));
    ReachableCore(cfg, start, order, acts);
    PassRuns(cfg, start, order, acts, pid, c);
    ReachableCore(cfg, start, order, longer);
    CompletedIsUndone(cfg, After(cfg, start, order, longer).w);
    if s.w.state.Compensating? { RetriesAlone(cfg, s.w, c); } else { CompensatesAlone(cfg, s.w, c); }
  }

  lemma ReachableCore(cfg: Config, start: State, order: O.OrderStatus, acts: seq<Action>)
    requires Fresh(start)
    ensures Core(cfg, After(cfg, start, order, acts).w)
  {
    Reachable(cfg, start, order, acts);
    hide Core, Run, PcOk;
  }

  lemma PassRuns(cfg: Config, start: State, order: O.OrderStatus, acts: seq<Action>, pid: nat, c: Choice)
    requires pid !in After(cfg, start, order, acts).procs
    ensures var s := After(cfg, start, order, acts);
            var s' := After(cfg, start, order, acts + [Scan(pid)] + Goes(pid, c, 6));
            pid in s'.procs && (s'.w, s'.procs[pid]) == Alone(cfg, s.w, Dispatch(s.w.state), c, 6)
  {
    var s0 := Initial(start, order);
    RunAppend(cfg, s0, acts, Scan(pid));
    AloneIsARun(cfg, s0, acts + [Scan(pid)], pid, c, 6);
    hide Run, Alone, Dispatch;
  }

  lemma PassFails(cfg: Config, w: World, c: Choice)
    requires !IsTerminal(w.state)
    ensures Alone(cfg, w, FailRead, c, 6) == (FailedWorld(w), Done(false))
  {
    FailsAlone(cfg, w, c);
    AloneOn(cfg, w, FailRead, c, 3, 3);
    DoneStays(cfg, FailedWorld(w), false, c, 3);
    hide *;
  }

  lemma CompletedIsUndone(cfg: Config, w: World)
    requires Core(cfg, w)
    ensures Completed(w.log) ==> Undone(w)
  {
    hide Undone, Completed;
  }

  // ---- a pass among others -------------------------------------------------------------

  /** What process `pid` logs in a step. */
  function LoggedBy(pid: nat, a: Action, log: seq<Entry>, log': seq<Entry>): seq<Event> {
    if a.Advance? && a.pid == pid && |log'| > |log| then [log'[|log'| - 1].event] else []
  }

  /** What it has logged, in order. */
  function EventsOf(cfg: Config, s0: Sys, acts: seq<Action>, pid: nat): seq<Event> {
    if acts == [] then []
    else
      var (before, a) := (acts[..|acts| - 1], acts[|acts| - 1]);
      EventsOf(cfg, s0, before, pid) + LoggedBy(pid, a, Run(cfg, s0, before).w.log, Run(cfg, s0, acts).w.log)
  }

  lemma EventsOfOneMore(cfg: Config, s0: Sys, before: seq<Action>, a: Action, pid: nat)
    ensures var s := Run(cfg, s0, before);
            EventsOf(cfg, s0, before + [a], pid)
            == EventsOf(cfg, s0, before, pid) + LoggedBy(pid, a, s.w.log, Step(cfg, s, a).w.log)
  {
    hide Step, LoggedBy;
    RunAppend(cfg, s0, before, a);
    hide Run;
    assert (before + [a])[..|before|] == before && (before + [a])[|before|] == a;
  }

  /** Who has not begun has logged nothing. */
  lemma {:induction false} NothingYet(cfg: Config, s0: Sys, acts: seq<Action>, pid: nat)
    requires pid !in Run(cfg, s0, acts).procs
    ensures EventsOf(cfg, s0, acts, pid) == []
  {
    if acts != [] {
      var before := acts[..|acts| - 1];
      assert pid !in Run(cfg, s0, before).procs;
      NothingYet(cfg, s0, before, pid);
    }
  }

  /** What a pass may log that found the saga in state `s`. */
  predicate FitsThePass(s: State, e: Event) {
    if s.Started? || s.Pending? || s.ReservingStock? then e.StockReservationFailed?
    else e.CompensationStarted? || e.CompensationCompleted?
  }

  /** A process of the kind that a pass becomes that found the saga in state `s`. */
  predicate IsThePass(s: State, pc: Pc) {
    pc.Done? || (if Rank(s) <= 1 then pc.FailRead? || pc.FailCancel? || pc.FailEnter?
                 else pc.CompRead? || pc.CompEnter? || pc.CompRelease? || pc.CompRefund? || pc.CompCancel?
                      || pc.CompExit?)
  }

  lemma PassAct(cfg: Config, w: World, pc: Pc, d: Delivery, c: Choice, s: State)
    requires IsThePass(s, pc)
    ensures var (w', pc') := Act(cfg, w, pc, d, c);
            && IsThePass(s, pc')
            && (w'.log != w.log ==> w'.log != [] && FitsThePass(s, w'.log[|w'.log| - 1].event))
  {
    hide CanTransition, Capture, Refund, Reserve, Settle, MoveOrder;
    assert Act(cfg, w, pc, d, c).0.log != w.log ==> RequestOf(cfg, pc).SetState? by {
      LogsBySetState(cfg, w, pc, d, c);
    }
  }

  lemma LogsBySetState(cfg: Config, w: World, pc: Pc, d: Delivery, c: Choice)
    ensures var w' := Act(cfg, w, pc, d, c).0;
            w'.log != w.log ==>
              && RequestOf(cfg, pc).SetState? && w'.log != []
              && w'.log[|w'.log| - 1].event == RequestOf(cfg, pc).event
  {
    hide CanTransition, RequestOf, Next;
  }

  /** Whatever else happens, and whatever gets lost: a pass logs only what fits the state in which
      it found the saga. A saga found late is compensated and never failed by it. */
  lemma {:induction false} PassLogsOnly(
      cfg: Config, s0: Sys, acts: seq<Action>, pid: nat, more: seq<Action>)
    requires pid !in Run(cfg, s0, acts).procs && !IsTerminal(Run(cfg, s0, acts).w.state)
    ensures var (s, longer) := (Run(cfg, s0, acts).w.state, acts + [Scan(pid)] + more);
            && pid in Run(cfg, s0, longer).procs && IsThePass(s, Run(cfg, s0, longer).procs[pid])
            && forall e :: e in EventsOf(cfg, s0, longer, pid) ==> FitsThePass(s, e)
  {
    hide *;
    var s := Run(cfg, s0, acts).w.state;
    if more == [] {
      assert acts + [Scan(pid)] + more == acts + [Scan(pid)];
      PassBegins(cfg, s0, acts, pid);
    } else {
      var (before, a) := (acts + [Scan(pid)] + more[..|more| - 1], more[|more| - 1]);
      assert acts + [Scan(pid)] + more == before + [a];
      PassLogsOnly(cfg, s0, acts, pid, more[..|more| - 1]);
      PassGoesOn(cfg, s0, before, a, pid, s);
    }
  }

  lemma PassBegins(cfg: Config, s0: Sys, acts: seq<Action>, pid: nat)
    requires pid !in Run(cfg, s0, acts).procs && !IsTerminal(Run(cfg, s0, acts).w.state)
    ensures var (s, longer) := (Run(cfg, s0, acts).w.state, acts + [Scan(pid)]);
            && pid in Run(cfg, s0, longer).procs && IsThePass(s, Run(cfg, s0, longer).procs[pid])
            && EventsOf(cfg, s0, longer, pid) == []
  {
    NothingYet(cfg, s0, acts, pid);
    hide Run, EventsOf;
    RunAppend(cfg, s0, acts, Scan(pid));
    EventsOfOneMore(cfg, s0, acts, Scan(pid), pid);
  }

  lemma PassGoesOn(cfg: Config, s0: Sys, before: seq<Action>, a: Action, pid: nat, s: State)
    requires pid in Run(cfg, s0, before).procs && IsThePass(s, Run(cfg, s0, before).procs[pid])
    requires forall e :: e in EventsOf(cfg, s0, before, pid) ==> FitsThePass(s, e)
    ensures pid in Run(cfg, s0, before + [a]).procs && IsThePass(s, Run(cfg, s0, before + [a]).procs[pid])
    ensures forall e :: e in EventsOf(cfg, s0, before + [a], pid) ==> FitsThePass(s, e)
  {
    hide Run, Act, FitsThePass, IsThePass, EventsOf;
    var sys := Run(cfg, s0, before);
    RunAppend(cfg, s0, before, a);
    EventsOfOneMore(cfg, s0, before, a, pid);
    if a.Advance? && a.pid == pid { PassAct(cfg, sys.w, sys.procs[pid], a.d, a.c, s); }
  }
}
