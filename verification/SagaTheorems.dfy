/** The guarantees of the order saga, for every run: any number of ExecuteSaga calls and
    watchdog passes, interleaved at every database access, crashing anywhere, with commands
    and replies lost, and with users and other services acting on the same rows. */
module SagaTheorems {
  import opened Common
  import opened Statuses
  import opened SagaFsm
  import opened SagaSystem
  import opened SagaSafety
  import O = OrderFsm

  /** The saga after `acts`, when it was created in state `start` for an order in `order`. */
  function After(cfg: Config, start: State, order: O.OrderStatus, acts: seq<Action>): Sys {
    Run(cfg, Initial(start, order), acts)
  }

  predicate Fresh(start: State) {
    start.Started? || start.Pending?
  }

  lemma {:induction false} Reachable(cfg: Config, start: State, order: O.OrderStatus, acts: seq<Action>)
    requires Fresh(start)
    ensures Inv(cfg, After(cfg, start, order, acts))
  {
    if acts != [] {
      Reachable(cfg, start, order, acts[..|acts| - 1]);
      StepKeepsInv(cfg, After(cfg, start, order, acts[..|acts| - 1]), acts[|acts| - 1]);
    }
  }

  lemma GrowsReflexive(cfg: Config, s: Sys)
    requires Inv(cfg, s)
    ensures Grows(s.w, s.w)
  {
  }

  lemma GrowsTransitive(a: World, b: World, c: World)
    requires Grows(a, b) && Grows(b, c)
    ensures Grows(a, c)
  {
  }

  lemma {:induction false} LaterGrows(
      cfg: Config, start: State, order: O.OrderStatus, acts: seq<Action>, more: seq<Action>)
    requires Fresh(start)
    ensures Grows(After(cfg, start, order, acts).w, After(cfg, start, order, acts + more).w)
  {
    hide Inv, Grows;
    if more == [] {
      Reachable(cfg, start, order, acts);
      assert acts + more == acts;
      GrowsReflexive(cfg, After(cfg, start, order, acts));
    } else {
      var before := acts + more[..|more| - 1];
      assert acts + more == before + [more[|more| - 1]];
      LaterGrows(cfg, start, order, acts, more[..|more| - 1]);
      Reachable(cfg, start, order, before);
      RunAppend(cfg, Initial(start, order), before, more[|more| - 1]);
      StepKeepsInv(cfg, After(cfg, start, order, before), more[|more| - 1]);
      GrowsTransitive(After(cfg, start, order, acts).w, After(cfg, start, order, before).w,
                      After(cfg, start, order, acts + more).w);
    }
  }

  /** A CONFIRMED saga sold the goods: the reservation it recorded is committed, its order is
      confirmed, exactly the order's total was captured, and the saga gave nothing back. */
  lemma ConfirmedIsWhole(cfg: Config, start: State, order: O.OrderStatus, acts: seq<Action>)
    requires Fresh(start)
    requires After(cfg, start, order, acts).w.state.Confirmed?
    ensures var w := After(cfg, start, order, acts).w;
            && w.payload.reservation.Some? && w.reservation == Some(Reservation(w.payload.reservation.value, Committed))
            && w.order.Confirmed?
            && w.payment.Some? && w.payload.payment == Some(w.payment.value.id)
            && w.payment.value.order == cfg.order && w.payment.value.amount == cfg.total > 0
            && w.refunds == 0
            && (w.outsideRefunds == 0 ==> w.payment.value.status.Success?)
  {
    Reachable(cfg, start, order, acts);
  }

  /** The saga has given back nothing, or all that was captured, once. */
  predicate InFull(w: World) {
    if w.refunds == 0 then w.returned == 0
    else w.refunds == 1 && w.payment.Some? && w.payment.value.status.Refunded? && w.returned == w.payment.value.amount
  }

  lemma StepInFull(cfg: Config, s: Sys, a: Action)
    requires Inv(cfg, s) && InFull(s.w)
    ensures InFull(Step(cfg, s, a).w)
  {
    if a.Advance? && a.pid in s.procs {
      CoreFacts(cfg, s.w);
      assert PcOk(cfg, s.w, s.procs[a.pid]);
      hide Inv, Core, Outside;
      PerformInFull(cfg, s.w, s.procs[a.pid], a.d, a.c);
      hide InFull;
    }
    hide Inv, Core, Act;
  }

  lemma PerformInFull(cfg: Config, w: World, pc: Pc, d: Delivery, c: Choice)
    requires InFull(w) && Backed(cfg, w, w.payload) && PcOk(cfg, w, pc)
    ensures InFull(Perform(cfg, w, RequestOf(cfg, pc), d, c).0)
  {
    if pc.CompRefund? {
      hide Transition, Reserve, Settle, Capture, MoveOrder;
    } else {
      hide PcOk, Backed;
    }
  }

  /** Money comes back at most once, and then all that was captured does. */
  lemma {:induction false} RefundIsInFull(cfg: Config, start: State, order: O.OrderStatus, acts: seq<Action>)
    requires Fresh(start)
    ensures var w := After(cfg, start, order, acts).w;
            if w.refunds == 0 then w.returned == 0
            else w.refunds == 1 && w.payment.Some? && w.payment.value.status.Refunded?
                 && w.returned == w.payment.value.amount
  {
    if acts != [] {
      var before := acts[..|acts| - 1];
      RefundIsInFull(cfg, start, order, before);
      Reachable(cfg, start, order, before);
      hide Inv, Step;
      StepInFull(cfg, After(cfg, start, order, before), acts[|acts| - 1]);
    }
  }

  /** Goods are never both handed over and refunded by the saga: from the first refund on,
      the reservation stays released and the saga never confirms. */
  lemma RefundMeansReleasedForGood(
      cfg: Config, start: State, order: O.OrderStatus, acts: seq<Action>, more: seq<Action>)
    requires Fresh(start)
    requires After(cfg, start, order, acts).w.refunds > 0
    ensures var w := After(cfg, start, order, acts + more).w;
            && w.reservation.Some? && w.reservation.value.status.Released?
            && w.payload.reservation == Some(w.reservation.value.id)
            && !w.state.Confirmed?
  {
    LaterGrows(cfg, start, order, acts, more);
    Reachable(cfg, start, order, acts + more);
  }

  /** Once a compensation is logged as complete, everything the saga recorded is undone and
      the order is cancelled, and it stays so. */
  lemma CompletedMeansUndone(cfg: Config, start: State, order: O.OrderStatus, acts: seq<Action>, more: seq<Action>)
    requires Fresh(start)
    requires Completed(After(cfg, start, order, acts).w.log)
    ensures Undone(After(cfg, start, order, acts + more).w)
  {
    var w, w' := After(cfg, start, order, acts).w, After(cfg, start, order, acts + more).w;
    LaterGrows(cfg, start, order, acts, more);
    Reachable(cfg, start, order, acts + more);
    var i :| 0 <= i < |w.log| && w.log[i].event == CompensationCompleted;
    assert w'.log[i] == w.log[i];
  }

  lemma {:induction false} ChainClimbs(log: seq<Entry>, state: State, i: nat)
    requires Chain(log, state) && i < |log|
    ensures Rank(log[i].to) >= i
  {
    if i > 0 {
      ChainClimbs(log, state, i - 1);
      TableClimbs(log[i - 1].to, log[i].to);
    }
  }

  /** The log is one chain of legal transitions that ends in the current state. It has at
      most seven entries, and nothing follows a terminal one. */
  lemma LogIsAChain(cfg: Config, start: State, order: O.OrderStatus, acts: seq<Action>)
    requires Fresh(start)
    ensures var w := After(cfg, start, order, acts).w;
            && Chain(w.log, w.state) && |w.log| <= 7
            && forall i :: 0 <= i < |w.log| - 1 ==> !IsTerminal(w.log[i].to)
  {
    var w := After(cfg, start, order, acts).w;
    Reachable(cfg, start, order, acts);
    ChainClimbs(w.log, w.state, |w.log| - 1);
    forall i | 0 <= i < |w.log| - 1 ensures !IsTerminal(w.log[i].to) {
      TableClimbs(w.log[i].to, w.log[i + 1].to);
      assert CanTransition(w.log[i + 1 - 1].to, w.log[i + 1].to);
    }
  }

  /** However many drivers race, the saga sends at most one ReserveStock and at most one
      AuthorizeAndCapture. */
  lemma OneReserveOneCapture(cfg: Config, start: State, order: O.OrderStatus, acts: seq<Action>)
    requires Fresh(start)
    ensures After(cfg, start, order, acts).w.reserveCalls <= 1
    ensures After(cfg, start, order, acts).w.captureCalls <= 1
  {
    Reachable(cfg, start, order, acts);
  }

  /** What a transition writes into the payload, given what is stored when it succeeds. */
  predicate WritesOnto(pc: Pc, stored: Payload) {
    match pc
    case ExecRecord(p) => stored == Payload(None, None) && p == stored.(reservation := p.reservation)
      && p.reservation.Some?
    case ExecToPaid(p) => stored.payment.None? && p == stored.(payment := p.payment) && p.payment.Some?
    case CompEnter(_, p) => p == stored
    case FailEnter(_, p) => p == stored
    case _ => false
  }

  /** Comparing the state alone is enough. If the transition of a process that read the row some
      time ago takes effect, whether or not its answer arrives, then what it writes is what is
      stored now, with no more than the id that it has just obtained added. */
  lemma CompareAndSetIsSafe(
      cfg: Config, start: State, order: O.OrderStatus, acts: seq<Action>, pid: nat, d: Delivery, c: Choice)
    requires Fresh(start)
    requires var s := After(cfg, start, order, acts);
             && pid in s.procs && RequestOf(cfg, s.procs[pid]).SetState? && RequestOf(cfg, s.procs[pid]).updated.Some?
    ensures var s := After(cfg, start, order, acts);
            var s' := Step(cfg, s, Advance(pid, d, c));
            s'.w.state != s.w.state ==>
              && RequestOf(cfg, s.procs[pid]).from == s.w.state
              && s'.w.payload == s.procs[pid].payload && WritesOnto(s.procs[pid], s.w.payload)
  {
    Reachable(cfg, start, order, acts);
    var s := After(cfg, start, order, acts);
    hide Core, PcOk, Run, Act, WritesOnto;
    WritesOntoStored(cfg, s.w, s.procs[pid], d, c);
  }

  lemma WritesOntoStored(cfg: Config, w: World, pc: Pc, d: Delivery, c: Choice)
    requires Core(cfg, w) && PcOk(cfg, w, pc) && RequestOf(cfg, pc).SetState? && RequestOf(cfg, pc).updated.Some?
    ensures var w' := Act(cfg, w, pc, d, c).0;
            w'.state != w.state ==>
              RequestOf(cfg, pc).from == w.state && w'.payload == pc.payload && WritesOnto(pc, w.payload)
  {
    CoreFacts(cfg, w);
    hide Core;
  }

  /** ExecuteSaga, Compensate and handleStockReservationFailure report success only for a
      saga that has reached a terminal state, where it then remains. */
  lemma SuccessMeansTerminal(
      cfg: Config, start: State, order: O.OrderStatus, acts: seq<Action>, pid: nat, more: seq<Action>)
    requires Fresh(start)
    requires var s := After(cfg, start, order, acts); pid in s.procs && s.procs[pid] == Done(true)
    ensures IsTerminal(After(cfg, start, order, acts).w.state)
    ensures After(cfg, start, order, acts + more).w.state == After(cfg, start, order, acts).w.state
  {
    Reachable(cfg, start, order, acts);
    LaterGrows(cfg, start, order, acts, more);
  }

  // ---- compensations that cannot complete ----------------------------------------------

  /** A compensation that meets committed stock can be retried for ever: it never completes. */
  lemma CommittedStockBlocksCompensation(
      cfg: Config, start: State, order: O.OrderStatus, acts: seq<Action>, more: seq<Action>)
    requires Fresh(start)
    requires var w := After(cfg, start, order, acts).w;
             && Rank(w.state) >= 4 && w.payload.reservation.Some?
             && ReservationIs(w, w.payload.reservation, Committed)
    ensures !Completed(After(cfg, start, order, acts + more).w.log)
  {
    LaterGrows(cfg, start, order, acts, more);
    Reachable(cfg, start, order, acts + more);
  }

  /** The recorded payment is already refunded, the compensation is not complete, and no
      process is left that has the refund behind it. */
  ghost predicate RefundedAndAlone(s: Sys) {
    && Rank(s.w.state) >= 5 && !Completed(s.w.log)
    && s.w.payload.payment.Some? && PaymentIs(s.w, s.w.payload.payment, Refunded)
    && forall pid :: pid in s.procs ==> !s.procs[pid].CompCancel? && !s.procs[pid].CompExit?
  }

  lemma NoSecondRefund(cfg: Config, w: World, pc: Pc, d: Delivery, c: Choice)
    requires Core(cfg, w) && PcOk(cfg, w, pc) && Rank(w.state) >= 5 && !pc.CompCancel? && !pc.CompExit?
    requires w.payload.payment.Some? && PaymentIs(w, w.payload.payment, Refunded)
    ensures var (w', pc') := Act(cfg, w, pc, d, c);
            && !pc'.CompCancel? && !pc'.CompExit?
            && (w'.log == w.log
                || (w.state.Compensating?
                    && w'.log == w.log + [Entry(Some(Compensating), Failed, StockReservationFailed)]))
  {
    NoSecondRefundGoesOn(cfg, w, pc, d, c);
    hide Core, Next;
    CoreFacts(cfg, w);
    TableClimbs(w.state, ReservingStock);
    if pc.FailEnter? { TableClimbs(pc.from, Failed); }
  }

  lemma NoSecondRefundGoesOn(cfg: Config, w: World, pc: Pc, d: Delivery, c: Choice)
    requires Core(cfg, w) && PcOk(cfg, w, pc) && Rank(w.state) >= 5 && !pc.CompCancel? && !pc.CompExit?
    requires w.payload.payment.Some? && PaymentIs(w, w.payload.payment, Refunded)
    ensures !Act(cfg, w, pc, d, c).1.CompCancel? && !Act(cfg, w, pc, d, c).1.CompExit?
  {
    hide Core, Capture, Reserve, Settle, MoveOrder;
    CoreFacts(cfg, w);
  }

  lemma RefundedAndAloneStays(cfg: Config, s: Sys, a: Action)
    requires Inv(cfg, s) && RefundedAndAlone(s)
    ensures RefundedAndAlone(Step(cfg, s, a))
  {
    hide Core, PcOk, Act;
    var s' := Step(cfg, s, a);
    CoreFacts(cfg, s.w);
    StepKeepsInv(cfg, s, a);
    if a.Advance? && a.pid in s.procs {
      NoSecondRefund(cfg, s.w, s.procs[a.pid], a.d, a.c);
    }
  }

  /** A second refund of the same payment is an error. So if the process that made the refund
      crashes before the saga is closed, no later attempt completes the compensation. */
  lemma {:induction false} CrashAfterRefundBlocksCompensation(
      cfg: Config, start: State, order: O.OrderStatus, acts: seq<Action>, more: seq<Action>)
    requires Fresh(start)
    requires RefundedAndAlone(After(cfg, start, order, acts))
    ensures !Completed(After(cfg, start, order, acts + more).w.log)
    ensures RefundedAndAlone(After(cfg, start, order, acts + more))
  {
    if more == [] {
      assert acts + more == acts;
    } else {
      var before := acts + more[..|more| - 1];
      CrashAfterRefundBlocksCompensation(cfg, start, order, acts, more[..|more| - 1]);
      assert acts + more == before + [more[|more| - 1]];
      RunAppend(cfg, Initial(start, order), before, more[|more| - 1]);
      Reachable(cfg, start, order, before);
      RefundedAndAloneStays(cfg, After(cfg, start, order, before), more[|more| - 1]);
    }
  }

  // ---- what FAILED does not mean -------------------------------------------------------

  /** The saga was just failed out of COMPENSATING by `e`. */
  predicate FailedBy(w: World, e: Event) {
    && |w.log| > 0 && w.log[|w.log| - 1].event == e && w.log[|w.log| - 1].from == Some(Compensating)
    && (w.state.Failed? || w.state.FailedCompensated?)
  }

  /** In every run that `e` ended by failing the saga out of COMPENSATING, all is undone. */
  ghost predicate FailingWithIsClean(e: Event) {
    forall cfg, start, order, acts | Fresh(start) && FailedBy(After(cfg, start, order, acts).w, e) ::
      Undone(After(cfg, start, order, acts).w)
  }

  function Go(pid: nat): Action {
    Advance(pid, Delivered, Choice(7, false))
  }

  lemma {:induction false} RunOne(cfg: Config, s: Sys, acts: seq<Action>, a: Action) returns (longer: seq<Action>)
    ensures longer == acts + [a]
    ensures Run(cfg, s, longer) == Step(cfg, Run(cfg, s, acts), a)
  {
    RunAppend(cfg, s, acts, a);
    longer := acts + [a];
  }

  /** Around the driver: nobody, or a watchdog pass that saw the saga in STARTED and has not acted
      yet. */
  function Watchdog(scanned: bool): map<nat, Pc> {
    if scanned then map[1 := FailRead] else map[]
  }

  /** The log of the driver up to the payment. */
  function DriverLog(): seq<Entry> {
    [Entry(None, Started, SagaInitialized), Entry(Some(Started), ReservingStock, StockReservationStarted),
     Entry(Some(ReservingStock), StockReserved, StockReservationRecorded),
     Entry(Some(StockReserved), Paying, PaymentInitiated)]
  }

  /** The stations of the driver: before the refresh, the reservation, the recording, the next
      transition and the payment. */
  function AtRefresh(order: O.OrderStatus, scanned: bool): Sys {
    Sys(World(ReservingStock, Payload(None, None), DriverLog()[..2], None, None, order, 0, 0, 0, 0, 0),
        Watchdog(scanned)[0 := ExecRefresh])
  }

  function AtReserve(order: O.OrderStatus, scanned: bool): Sys {
    Sys(AtRefresh(order, scanned).w, Watchdog(scanned)[0 := ExecReserve(Payload(None, None))])
  }

  function AtRecord(order: O.OrderStatus, scanned: bool): Sys {
    Sys(AtRefresh(order, scanned).w.(reservation := Some(Reservation(7, Held)), reserveCalls := 1),
        Watchdog(scanned)[0 := ExecRecord(Payload(Some(7), None))])
  }

  function AtToPaying(order: O.OrderStatus, scanned: bool): Sys {
    Sys(AtRecord(order, scanned).w.(state := StockReserved, payload := Payload(Some(7), None), log := DriverLog()[..3]),
        Watchdog(scanned)[0 := ExecToPaying(Payload(Some(7), None))])
  }

  function AtCapture(order: O.OrderStatus, scanned: bool): Sys {
    Sys(AtToPaying(order, scanned).w.(state := Paying, log := DriverLog()),
        Watchdog(scanned)[0 := ExecCapture(Payload(Some(7), None))])
  }

  lemma DriverCalls(cfg: Config, order: O.OrderStatus, scanned: bool) returns (acts: seq<Action>)
    ensures After(cfg, Started, order, acts)
         == Sys(Initial(Started, order).w, Watchdog(scanned)[0 := ExecRead])
  {
    var s := Initial(Started, order);
    acts := [];
    if scanned { acts := RunOne(cfg, s, acts, Scan(1)); }
    hide Act;
    assert Run(cfg, s, acts) == Sys(s.w, Watchdog(scanned));
    acts := RunOne(cfg, s, acts, Call(0));
  }

  lemma DriverReservesNext(cfg: Config, order: O.OrderStatus, scanned: bool) returns (acts: seq<Action>)
    ensures After(cfg, Started, order, acts) == AtRefresh(order, scanned)
  {
    acts := DriverCalls(cfg, order, scanned);
    hide Run, Watchdog;
    var w := Initial(Started, order).w;
    acts := RunOne(cfg, Initial(Started, order), acts, Go(0));   // reads STARTED
    assert After(cfg, Started, order, acts) == Sys(w, Watchdog(scanned)[0 := ExecBegin(Started)]);
    acts := RunOne(cfg, Initial(Started, order), acts, Go(0));   // RESERVING_STOCK
    assert w.log + [Entry(Some(Started), ReservingStock, StockReservationStarted)] == DriverLog()[..2];
  }

  lemma DriverReachesReserve(cfg: Config, order: O.OrderStatus, scanned: bool) returns (acts: seq<Action>)
    ensures After(cfg, Started, order, acts) == AtReserve(order, scanned)
  {
    acts := DriverReservesNext(cfg, order, scanned);
    hide Run, Watchdog;
    acts := RunOne(cfg, Initial(Started, order), acts, Go(0));   // refreshes
  }

  lemma DriverReserves(cfg: Config, order: O.OrderStatus, scanned: bool) returns (acts: seq<Action>)
    ensures After(cfg, Started, order, acts) == AtRecord(order, scanned)
  {
    acts := DriverReachesReserve(cfg, order, scanned);
    hide Run, Watchdog;
    acts := RunOne(cfg, Initial(Started, order), acts, Go(0));   // reserves
  }

  lemma DriverRecords(cfg: Config, order: O.OrderStatus, scanned: bool) returns (acts: seq<Action>)
    ensures After(cfg, Started, order, acts) == AtToPaying(order, scanned)
  {
    acts := DriverReserves(cfg, order, scanned);
    hide Run, Watchdog;
    acts := RunOne(cfg, Initial(Started, order), acts, Go(0));   // STOCK_RESERVED
    assert AtRecord(order, scanned).w.log + [Entry(Some(ReservingStock), StockReserved, StockReservationRecorded)]
        == DriverLog()[..3];
  }

  lemma DriverReachesCapture(cfg: Config, order: O.OrderStatus, scanned: bool) returns (acts: seq<Action>)
    ensures After(cfg, Started, order, acts) == AtCapture(order, scanned)
  {
    acts := DriverRecords(cfg, order, scanned);
    hide Run, Watchdog;
    acts := RunOne(cfg, Initial(Started, order), acts, Go(0));   // PAYING
    assert AtToPaying(order, scanned).w.log + [Entry(Some(StockReserved), Paying, PaymentInitiated)] == DriverLog();
  }

  /** The rest of that watchdog pass: the order cannot be cancelled any more, and the saga is
      failed from whatever state it is in by now. */
  lemma ScanFails(cfg: Config, s0: Sys, acts: seq<Action>) returns (longer: seq<Action>)
    requires var s := Run(cfg, s0, acts);
             && 1 in s.procs && s.procs[1] == FailRead && !IsTerminal(s.w.state)
             && !O.CanTransitionTo(s.w.order, O.Cancelled)
    ensures var w := Run(cfg, s0, acts).w;
            Run(cfg, s0, longer).w
              == w.(state := Failed, log := w.log + [Entry(Some(w.state), Failed, StockReservationFailed)])
  {
    longer := ScanReaches(cfg, s0, acts);
    hide Run;
    assert CanTransition(Run(cfg, s0, acts).w.state, Failed);
    longer := RunOne(cfg, s0, longer, Go(1));   // FAILED
  }

  lemma ScanReaches(cfg: Config, s0: Sys, acts: seq<Action>) returns (longer: seq<Action>)
    requires var s := Run(cfg, s0, acts);
             && 1 in s.procs && s.procs[1] == FailRead && !IsTerminal(s.w.state)
             && !O.CanTransitionTo(s.w.order, O.Cancelled)
    ensures var (s, s') := (Run(cfg, s0, acts), Run(cfg, s0, longer));
            s'.w == s.w && 1 in s'.procs && s'.procs[1] == FailEnter(s.w.state, s.w.payload)
  {
    hide Run;
    longer := RunOne(cfg, s0, acts, Go(1));     // reads the row
    longer := RunOne(cfg, s0, longer, Go(1));   // fails to cancel the order
  }

  lemma DriverCompensates(cfg: Config) returns (acts: seq<Action>)
    ensures var s := After(cfg, Started, O.Paid, acts);
            && s.w == AtCapture(O.Paid, true).w.(captureCalls := 1, state := Compensating,
                         log := DriverLog() + [Entry(Some(Paying), Compensating, CompensationStarted)])
            && 1 in s.procs && s.procs[1] == FailRead
  {
    var s := Initial(Started, O.Paid);
    acts := DriverReachesCapture(cfg, O.Paid, true);
    hide Run;
    var w := AtCapture(O.Paid, true).w.(captureCalls := 1);
    acts := RunOne(cfg, s, acts, Advance(0, NotSent, Choice(7, false)));   // the payment call fails
    assert Run(cfg, s, acts) == Sys(w, map[0 := CompRead, 1 := FailRead]);
    acts := RunOne(cfg, s, acts, Go(0));   // Compensate reads PAYING
    assert Run(cfg, s, acts) == Sys(w, map[0 := CompEnter(Paying, w.payload), 1 := FailRead]);
    acts := RunOne(cfg, s, acts, Go(0));   // COMPENSATING
  }

  /** The payment is captured and recorded, the stock still held. */
  function PaidWorld(cfg: Config): World {
    AtCapture(O.Paid, true).w.(captureCalls := 1, state := Paid, payload := Payload(Some(7), Some(7)),
                   payment := Some(Payment(7, cfg.order, cfg.total, Success)),
                   log := DriverLog() + [Entry(Some(Paying), Paid, PaymentCaptured)])
  }

  lemma DriverPays(cfg: Config) returns (acts: seq<Action>)
    requires cfg.total > 0
    ensures After(cfg, Started, O.Paid, acts)
         == Sys(PaidWorld(cfg), map[0 := ExecCommit(PaidWorld(cfg).payload, 0), 1 := FailRead])
  {
    var s := Initial(Started, O.Paid);
    acts := DriverReachesCapture(cfg, O.Paid, true);
    hide Run;
    var w := AtCapture(O.Paid, true).w.(captureCalls := 1, payment := Some(Payment(7, cfg.order, cfg.total, Success)));
    acts := RunOne(cfg, s, acts, Go(0));   // captures
    assert Run(cfg, s, acts) == Sys(w, map[0 := ExecToPaid(Payload(Some(7), Some(7))), 1 := FailRead]);
    acts := RunOne(cfg, s, acts, Go(0));   // PAID
  }

  lemma DriverCommits(cfg: Config) returns (acts: seq<Action>)
    requires cfg.total > 0
    ensures After(cfg, Started, O.Paid, acts)
         == Sys(PaidWorld(cfg).(reservation := Some(Reservation(7, Committed))),
                map[0 := ExecConfirm(PaidWorld(cfg).payload), 1 := FailRead])
  {
    acts := DriverPays(cfg);
    hide Run;
    acts := RunOne(cfg, Initial(Started, O.Paid), acts, Go(0));
  }

  lemma DriverConfirmsTheOrder(cfg: Config) returns (acts: seq<Action>)
    requires cfg.total > 0
    ensures var s := After(cfg, Started, O.Paid, acts);
            && s.w == PaidWorld(cfg).(reservation := Some(Reservation(7, Committed)), order := O.Confirmed)
            && 1 in s.procs && s.procs[1] == FailRead
  {
    var s := Initial(Started, O.Paid);
    acts := DriverCommits(cfg);
    hide Run;
    acts := RunOne(cfg, s, acts, Go(0));
  }

  /** A stale watchdog pass takes a saga from COMPENSATING to FAILED while the stock is still
      held: nothing was released, and nothing ever will be by this route. */
  lemma StaleScanFailsACompensatingSaga(cfg: Config) returns (acts: seq<Action>)
    ensures var w := After(cfg, Started, O.Paid, acts).w;
            && FailedBy(w, StockReservationFailed)
            && w.payload.reservation == Some(7) && w.reservation == Some(Reservation(7, Held))
            && !Undone(w)
  {
    acts := DriverCompensates(cfg);
    acts := ScanFails(cfg, Initial(Started, O.Paid), acts);
  }

  /** Exactly which failures out of COMPENSATING undo all that was recorded: all but those that
      handleStockReservationFailure logged. */
  lemma FailureIsCleanExactly(e: Event)
    ensures FailingWithIsClean(e) <==> e != StockReservationFailed
  {
    if e == StockReservationFailed {
      var cfg := Config(1, 100, Failed);
      var acts := StaleScanFailsACompensatingSaga(cfg);
      assert Fresh(Started) && FailedBy(After(cfg, Started, O.Paid, acts).w, e);
    } else {
      forall cfg, start, order, acts | Fresh(start) && FailedBy(After(cfg, start, order, acts).w, e)
        ensures Undone(After(cfg, start, order, acts).w)
      {
        Reachable(cfg, start, order, acts);
        var w := After(cfg, start, order, acts).w;
        assert Labelled(w.log[|w.log| - 1]);
      }
    }
  }

  /** FAILED alone proves nothing about the goods: a stale watchdog pass can also fail a saga
      whose order is confirmed, whose stock is gone and whose payment is kept. */
  lemma FailedSagaMayHaveSoldTheGoods(cfg: Config) returns (acts: seq<Action>)
    requires cfg.total > 0
    ensures var w := After(cfg, Started, O.Paid, acts).w;
            && w.state.Failed? && w.order.Confirmed?
            && w.reservation == Some(Reservation(7, Committed))
            && w.payment == Some(Payment(7, cfg.order, cfg.total, Success)) && w.refunds == 0
  {
    acts := DriverConfirmsTheOrder(cfg);
    acts := ScanFails(cfg, Initial(Started, O.Paid), acts);
  }
}
