/** What holds in every run of the saga system, whatever the interleaving, the crashes and
    the lost messages. */
module SagaSafety {
  import opened Common
  import opened Statuses
  import opened SagaFsm
  import opened SagaSystem
  import O = OrderFsm

  // ---- the invariant -------------------------------------------------------------------

  ghost predicate Chain(log: seq<Entry>, state: State) {
    && |log| > 0
    && log[0].from.None? && Rank(log[0].to) == 0
    && log[|log| - 1].to == state
    && forall i :: 0 < i < |log| ==>
         log[i].from == Some(log[i - 1].to) && CanTransition(log[i - 1].to, log[i].to) && Labelled(log[i])
  }

  /** A saga is logged as failed by the end of a compensation or by handleStockReservationFailure. */
  predicate Labelled(e: Entry) {
    e.to.Failed? || e.to.FailedCompensated? ==> e.event in {CompensationCompleted, StockReservationFailed}
  }

  predicate Abandoned(s: State) {
    s.Compensating? || s.Failed? || s.FailedCompensated?
  }

  predicate ReservationIs(w: World, id: Option<Id>, status: ReservationStatus) {
    id.Some? ==> w.reservation == Some(Reservation(id.value, status))
  }

  predicate PaymentIs(w: World, id: Option<Id>, status: PaymentStatus) {
    id.Some? ==> w.payment.Some? && w.payment.value.id == id.value && w.payment.value.status == status
  }

  /** Everything the saga recorded is undone and the order is cancelled. */
  predicate Undone(w: World) {
    && ReservationIs(w, w.payload.reservation, Released)
    && PaymentIs(w, w.payload.payment, Refunded)
    && w.order.Cancelled?
  }

  predicate Completed(log: seq<Entry>) {
    exists i :: 0 <= i < |log| && log[i].event == CompensationCompleted
  }

  /** The ids in `p` are those of the rows this order really has, and money was taken for
      this order and for the full amount. */
  predicate Backed(cfg: Config, w: World, p: Payload) {
    && (p.payment.Some? ==> p.reservation.Some?)
    && (p.reservation.Some? ==>
          w.reservation.Some? && w.reservation.value.id == p.reservation.value && w.reserveCalls == 1)
    && (p.payment.Some? ==>
          && w.captureCalls == 1
          && w.payment.Some? && w.payment.value.id == p.payment.value && w.payment.value.id != NIL_ID
          && w.payment.value.order == cfg.order && w.payment.value.amount == cfg.total > 0
          && (w.payment.value.status.Success? || w.payment.value.status.Refunded?))
  }

  predicate PayloadFits(state: State, p: Payload) {
    && (Rank(state) <= 1 ==> p.reservation.None?)
    && (Rank(state) <= 3 ==> p.payment.None?)
    && (2 <= Rank(state) <= 5 || state.Confirmed? ==> p.reservation.Some?)
    && ((state.Paid? || state.Confirmed?) ==> p.payment.Some?)
  }

  ghost predicate Core(cfg: Config, w: World) {
    && Chain(w.log, w.state)
    && PayloadFits(w.state, w.payload)
    && Backed(cfg, w, w.payload)
    && w.reserveCalls <= 1 && w.captureCalls <= 1
    && (Rank(w.state) == 0 ==> w.reserveCalls == w.captureCalls == 0)
    && (w.payment.Some? ==> w.payment.value.status in {Success, Declined, Refunded} && w.payment.value.id != NIL_ID)
    && (w.payment.Some? && w.payment.value.status.Refunded? ==> w.refunds + w.outsideRefunds > 0)
    && (w.refunds > 0 ==>
          Abandoned(w.state) && w.payload.reservation.Some? && ReservationIs(w, w.payload.reservation, Released))
    && (w.state.Confirmed? ==> ReservationIs(w, w.payload.reservation, Committed) && w.order.Confirmed?)
    && (Completed(w.log) ==> (w.state.Failed? || w.state.FailedCompensated?) && Undone(w))
  }

  /** A row read earlier: either the saga moved on since, or nothing about it changed. */
  predicate Snapshot(w: World, from: State, p: Payload) {
    && Rank(from) <= Rank(w.state)
    && (w.state == from ==> w.payload == p)
  }

  /** The one process that won the transition to RESERVING_STOCK. */
  predicate Driver(pc: Pc) {
    pc.ExecRefresh? || pc.ExecReserve? || pc.ExecRecord? || pc.ExecToPaying? || pc.ExecCapture?
    || pc.ExecToPaid? || pc.ExecCommit? || pc.ExecConfirm? || pc.ExecFinish?
  }

  predicate DriverOk(cfg: Config, w: World, pc: Pc)
    requires Driver(pc)
  {
    && Rank(w.state) >= 1
    && match pc
       case ExecRefresh => w.reserveCalls == w.captureCalls == 0
       case ExecReserve(p) => w.reserveCalls == w.captureCalls == 0 && p == Payload(None, None)
       case ExecRecord(p) => w.captureCalls == 0 && Backed(cfg, w, p) && p.reservation.Some? && p.payment.None?
       case ExecToPaying(p) => w.captureCalls == 0 && Backed(cfg, w, p) && p.reservation.Some? && p.payment.None?
       case ExecCapture(p) => w.captureCalls == 0 && Backed(cfg, w, p) && p.reservation.Some? && p.payment.None?
                              && Rank(w.state) >= 3
       case ExecToPaid(p) => Backed(cfg, w, p) && p.payment.Some?
       case ExecCommit(p, n) => Backed(cfg, w, p) && p.payment.Some? && Snapshot(w, Paid, p) && n <= 2
       case ExecConfirm(p) => Backed(cfg, w, p) && p.payment.Some? && Snapshot(w, Paid, p)
                              && ReservationIs(w, p.reservation, Committed)
       case ExecFinish(p) => Backed(cfg, w, p) && p.payment.Some? && Snapshot(w, Paid, p)
                             && ReservationIs(w, p.reservation, Committed) && w.order.Confirmed?
       case _ => false
  }

  predicate OtherOk(w: World, pc: Pc)
    requires !Driver(pc)
  {
    match pc
    case ExecRead => true
    case ExecBegin(from) => Rank(from) == 0
    case ExecUndo(_) => true
    case CompRead => Rank(w.state) >= 2
    case CompEnter(from, p) => 2 <= Rank(from) <= 4 && Snapshot(w, from, p)
    case CompRelease(p) => Abandoned(w.state) && w.payload == p && p.reservation.Some?
    case CompRefund(p) => Abandoned(w.state) && w.payload == p && p.payment.Some?
                          && ReservationIs(w, p.reservation, Released)
    case CompCancel(p) => Abandoned(w.state) && w.payload == p
                          && ReservationIs(w, p.reservation, Released) && PaymentIs(w, p.payment, Refunded)
    case CompExit(p) => Abandoned(w.state) && w.payload == p && Undone(w)
    case FailRead => true
    case FailCancel(from, p) => !IsTerminal(from) && Snapshot(w, from, p)
    case FailEnter(from, p) => !IsTerminal(from) && Snapshot(w, from, p)
    case Done(ok) => ok ==> IsTerminal(w.state)
    case _ => false
  }

  predicate PcOk(cfg: Config, w: World, pc: Pc) {
    if Driver(pc) then DriverOk(cfg, w, pc) else OtherOk(w, pc)
  }

  ghost predicate Inv(cfg: Config, s: Sys) {
    && Core(cfg, s.w)
    && (forall pid :: pid in s.procs ==> PcOk(cfg, s.w, s.procs[pid]))
    && (forall p, q :: p in s.procs && q in s.procs && Driver(s.procs[p]) && Driver(s.procs[q]) ==> p == q)
  }

  // ---- what one step may do to everybody else ------------------------------------------

  predicate Grows(w: World, w': World) {
    && (w.reservation.Some? ==>
          && w'.reservation.Some? && w'.reservation.value.id == w.reservation.value.id
          && (w.reservation.value.status.Held? || w'.reservation == w.reservation))
    && (w.payment.Some? ==>
          && w'.payment.Some?
          && w'.payment.value == w.payment.value.(status := w'.payment.value.status)
          && (w'.payment == w.payment || (w.payment.value.status.Success? && w'.payment.value.status.Refunded?)))
    && (O.IsTerminal(w.order) ==> w'.order == w.order)
    && Rank(w.state) <= Rank(w'.state)
    && (Rank(w.state) == 0 && Rank(w'.state) == 0 ==> w.state == w'.state)
    && (w.state == w'.state ==> w.payload == w'.payload)
    && (Rank(w.state) >= 4 ==> w.payload == w'.payload)
    && (Abandoned(w.state) ==> Abandoned(w'.state))
    && (IsTerminal(w.state) ==> w.state == w'.state)
    && w.log <= w'.log
    && w.refunds <= w'.refunds
  }

  /** A step of any process but the driver. */
  predicate Bystander(w: World, w': World) {
    && Grows(w, w')
    && w.reserveCalls == w'.reserveCalls && w.captureCalls == w'.captureCalls
    && (Rank(w.state) >= 1 ==> w.payload == w'.payload && (w.state == w'.state || Abandoned(w'.state)))
  }

  lemma OthersKeep(cfg: Config, w: World, w': World, pc: Pc)
    requires PcOk(cfg, w, pc) && Grows(w, w') && Core(cfg, w')
    requires Driver(pc) ==> Bystander(w, w')
    ensures PcOk(cfg, w', pc)
  {
    hide Chain, Completed;
  }

  lemma AppendKeepsChain(w: World, from: State, to: State, event: Event)
    requires Chain(w.log, w.state) && w.state == from && CanTransition(from, to)
    requires Labelled(Entry(Some(from), to, event))
    ensures Chain(w.log + [Entry(Some(from), to, event)], to)
    ensures Completed(w.log + [Entry(Some(from), to, event)]) <==> Completed(w.log) || event == CompensationCompleted
  {
    var log := w.log + [Entry(Some(from), to, event)];
    assert log[|w.log|].event == event;
    if Completed(w.log) {
      var i :| 0 <= i < |w.log| && w.log[i].event == CompensationCompleted;
      assert log[i].event == CompensationCompleted;
    }
  }

  /** When the compare-and-set of the saga row may be attempted. */
  predicate MayEnter(cfg: Config, w: World, from: State, to: State, event: Event, payload: Option<Payload>) {
    w.state == from && CanTransition(from, to) ==>
      var p := if payload.Some? then payload.value else w.payload;
      && Labelled(Entry(Some(from), to, event))
      && PayloadFits(to, p) && Backed(cfg, w, p)
      && (p == w.payload || Rank(to) == Rank(from) + 1)
      && (Rank(from) >= 4 ==> p == w.payload)
      && (to.Confirmed? ==> ReservationIs(w, p.reservation, Committed) && w.order.Confirmed?)
      && (event == CompensationCompleted ==> (to.Failed? || to.FailedCompensated?) && Undone(w) && p == w.payload)
      && (Rank(to) >= 1 && !Abandoned(to) ==> w.refunds == 0)
  }

  lemma TransitionStep(cfg: Config, w: World, from: State, to: State, event: Event, payload: Option<Payload>)
    requires Core(cfg, w) && MayEnter(cfg, w, from, to, event, payload)
    ensures var (w', ok) := Transition(w, from, to, event, payload);
            && Core(cfg, w') && Grows(w, w')
            && (!ok ==> w' == w)
            && (ok ==> w.state == from && w'.state == to && Rank(from) < Rank(to))
            && ((Rank(from) == 0 || Abandoned(to)) &&
                (payload.Some? && w.state == from ==> payload.value == w.payload) ==>
                  Bystander(w, w'))
  {
    hide Chain, Completed;
    TableClimbs(from, to);
    if w.state == from && CanTransition(from, to) {
      AppendKeepsChain(w, from, to, event);
    }
  }

  lemma SettleStep(cfg: Config, w: World, id: Id, to: ReservationStatus)
    requires Core(cfg, w) && !to.Held?
    ensures var (w', ok) := Settle(w, id, to);
            && Core(cfg, w') && Grows(w, w') && Bystander(w, w') && w' == w.(reservation := w'.reservation)
            && (ok ==> w'.reservation == Some(Reservation(id, to)))
  {
    hide Chain, Completed;
  }

  lemma CaptureStep(cfg: Config, w: World, order: Id, amount: int, c: Choice)
    requires Core(cfg, w)
    ensures var (w', id) := Capture(cfg, w, order, amount, c);
            && Core(cfg, w') && Grows(w, w') && Bystander(w, w') && w' == w.(payment := w'.payment)
            && (id.Some? ==>
                  && w'.payment.Some? && w'.payment.value.id == id.value != NIL_ID
                  && w'.payment.value.order == order && w'.payment.value.amount == amount > 0
                  && w'.payment.value.status in {Success, Refunded})
  {
    hide Chain, Completed;
  }

  lemma MoveOrderStep(cfg: Config, w: World, to: O.OrderStatus)
    requires Core(cfg, w)
    ensures var (w', ok) := MoveOrder(w, to);
            && Core(cfg, w') && Grows(w, w') && Bystander(w, w') && w' == w.(order := w'.order)
            && (ok ==> w'.order == to)
  {
    hide Chain, Completed;
  }

  lemma RefundStep(cfg: Config, w: World, id: Id, amount: int, bySaga: bool)
    requires Core(cfg, w)
    requires bySaga ==> Abandoned(w.state) && w.payload.reservation.Some?
                        && ReservationIs(w, w.payload.reservation, Released)
    ensures var (paid, moved) := Refund(w, id, amount);
            var w' := if !moved then paid
                      else if bySaga then paid.(refunds := paid.refunds + 1, returned := paid.returned + amount)
                      else paid.(outsideRefunds := paid.outsideRefunds + 1);
            && Core(cfg, w') && Grows(w, w') && Bystander(w, w')
            && (moved ==> PaymentIs(w', Some(id), Refunded))
  {
    hide Chain, Completed;
  }

  lemma ReserveStep(cfg: Config, w: World, c: Choice)
    requires Core(cfg, w)
    ensures var (w', ok) := Reserve(w, c);
            && Core(cfg, w') && Grows(w, w') && Bystander(w, w') && w' == w.(reservation := w'.reservation)
            && (ok ==> w'.reservation == Some(Reservation(c.newId, Held)))
  {
    hide Chain, Completed;
  }

  lemma CallStep(cfg: Config, w: World, called: World)
    requires Core(cfg, w) && Rank(w.state) >= 1
    requires (called == w.(reserveCalls := 1) && w.reserveCalls == 0)
             || (called == w.(captureCalls := 1) && w.captureCalls == 0)
    ensures Core(cfg, called) && Grows(called, called) && Bystander(called, called)
  {
    hide Chain, Completed;
  }

  lemma GrowsFrom(w: World, called: World, w': World)
    requires called == w.(reserveCalls := called.reserveCalls, captureCalls := called.captureCalls)
    requires Grows(called, w')
    ensures Grows(w, w')
  {
  }

  /** The part of the invariant that a process's next step depends on. */
  lemma CoreFacts(cfg: Config, w: World)
    requires Core(cfg, w)
    ensures PayloadFits(w.state, w.payload) && Backed(cfg, w, w.payload)
    ensures w.reserveCalls <= 1 && w.captureCalls <= 1
    ensures Rank(w.state) == 0 ==> w.reserveCalls == w.captureCalls == 0
    ensures w.refunds > 0 ==> Abandoned(w.state)
    ensures Grows(w, w) && Bystander(w, w)
  {
  }

  /** One step of one process: the invariant of the world, the process's own assertion, and
      what the step does to everyone else. */
  ghost predicate StepOk(cfg: Config, w: World, pc: Pc, d: Delivery, c: Choice) {
    var (w', pc') := Act(cfg, w, pc, d, c);
    && Core(cfg, w') && PcOk(cfg, w', pc') && Grows(w, w')
    && (Driver(pc') && !Driver(pc) ==> Rank(w.state) == 0)
    && (!Driver(pc) ==> Bystander(w, w'))
  }

  lemma ReadStep(cfg: Config, w: World, pc: Pc, d: Delivery, c: Choice)
    requires Core(cfg, w) && PcOk(cfg, w, pc) && (pc.ExecRead? || pc.ExecRefresh? || pc.Done?)
    ensures StepOk(cfg, w, pc, d, c)
  {
    hide Core, Grows, Bystander;
    CoreFacts(cfg, w);
  }

  lemma BeginStep(cfg: Config, w: World, pc: Pc, d: Delivery, c: Choice)
    requires Core(cfg, w) && PcOk(cfg, w, pc) && pc.ExecBegin?
    ensures StepOk(cfg, w, pc, d, c)
  {
    hide Core, Grows, Bystander;
    CoreFacts(cfg, w);
    TransitionStep(cfg, w, pc.from, ReservingStock, StockReservationStarted, None);
  }

  lemma UndoStep(cfg: Config, w: World, pc: Pc, d: Delivery, c: Choice)
    requires Core(cfg, w) && PcOk(cfg, w, pc) && pc.ExecUndo?
    ensures StepOk(cfg, w, pc, d, c)
  {
    hide Core, Grows, Bystander;
    CoreFacts(cfg, w);
    SettleStep(cfg, w, pc.id, Released);
  }

  lemma ReserveCallStep(cfg: Config, w: World, pc: Pc, d: Delivery, c: Choice)
    requires Core(cfg, w) && PcOk(cfg, w, pc) && pc.ExecReserve?
    ensures StepOk(cfg, w, pc, d, c)
  {
    hide Core, Grows, Bystander;
    CoreFacts(cfg, w);
    var called := w.(reserveCalls := w.reserveCalls + 1);
    CallStep(cfg, w, called);
    ReserveStep(cfg, called, c);
    GrowsFrom(w, called, Act(cfg, w, pc, d, c).0);
  }

  lemma RecordStep(cfg: Config, w: World, pc: Pc, d: Delivery, c: Choice)
    requires Core(cfg, w) && PcOk(cfg, w, pc) && pc.ExecRecord?
    ensures StepOk(cfg, w, pc, d, c)
  {
    hide Core, Grows, Bystander;
    CoreFacts(cfg, w);
    TransitionStep(cfg, w, ReservingStock, StockReserved, StockReservationRecorded, Some(pc.payload));
  }

  lemma ToPayingStep(cfg: Config, w: World, pc: Pc, d: Delivery, c: Choice)
    requires Core(cfg, w) && PcOk(cfg, w, pc) && pc.ExecToPaying?
    ensures StepOk(cfg, w, pc, d, c)
  {
    hide Core, Grows, Bystander;
    CoreFacts(cfg, w);
    TransitionStep(cfg, w, StockReserved, Paying, PaymentInitiated, None);
  }

  lemma CaptureCallStep(cfg: Config, w: World, pc: Pc, d: Delivery, c: Choice)
    requires Core(cfg, w) && PcOk(cfg, w, pc) && pc.ExecCapture?
    ensures StepOk(cfg, w, pc, d, c)
  {
    hide Core, Grows, Bystander;
    CoreFacts(cfg, w);
    var called := w.(captureCalls := w.captureCalls + 1);
    CallStep(cfg, w, called);
    CaptureStep(cfg, called, cfg.order, cfg.total, c);
    GrowsFrom(w, called, Act(cfg, w, pc, d, c).0);
  }

  lemma ToPaidStep(cfg: Config, w: World, pc: Pc, d: Delivery, c: Choice)
    requires Core(cfg, w) && PcOk(cfg, w, pc) && pc.ExecToPaid?
    ensures StepOk(cfg, w, pc, d, c)
  {
    hide Core, Grows, Bystander;
    CoreFacts(cfg, w);
    TransitionStep(cfg, w, Paying, Paid, PaymentCaptured, Some(pc.payload));
  }

  lemma CommitCallStep(cfg: Config, w: World, pc: Pc, d: Delivery, c: Choice)
    requires Core(cfg, w) && PcOk(cfg, w, pc) && pc.ExecCommit?
    ensures StepOk(cfg, w, pc, d, c)
  {
    hide Core, Grows, Bystander;
    CoreFacts(cfg, w);
    SettleStep(cfg, w, IdOf(pc.payload.reservation), Committed);
  }

  lemma ConfirmCallStep(cfg: Config, w: World, pc: Pc, d: Delivery, c: Choice)
    requires Core(cfg, w) && PcOk(cfg, w, pc) && pc.ExecConfirm?
    ensures StepOk(cfg, w, pc, d, c)
  {
    hide Core, Grows, Bystander;
    CoreFacts(cfg, w);
    MoveOrderStep(cfg, w, O.Confirmed);
  }

  lemma FinishStep(cfg: Config, w: World, pc: Pc, d: Delivery, c: Choice)
    requires Core(cfg, w) && PcOk(cfg, w, pc) && pc.ExecFinish?
    ensures StepOk(cfg, w, pc, d, c)
  {
    hide Core, Grows, Bystander;
    CoreFacts(cfg, w);
    TransitionStep(cfg, w, Paid, Confirmed, OrderConfirmed, None);
  }

  lemma CompReadStep(cfg: Config, w: World, pc: Pc, d: Delivery, c: Choice)
    requires Core(cfg, w) && PcOk(cfg, w, pc) && pc.CompRead?
    ensures StepOk(cfg, w, pc, d, c)
  {
    hide Core, Grows, Bystander;
    CoreFacts(cfg, w);
  }

  lemma CompEnterStep(cfg: Config, w: World, pc: Pc, d: Delivery, c: Choice)
    requires Core(cfg, w) && PcOk(cfg, w, pc) && pc.CompEnter?
    ensures StepOk(cfg, w, pc, d, c)
  {
    hide Core, Grows, Bystander;
    CoreFacts(cfg, w);
    TransitionStep(cfg, w, pc.from, Compensating, CompensationStarted, Some(pc.payload));
  }

  lemma ReleaseCallStep(cfg: Config, w: World, pc: Pc, d: Delivery, c: Choice)
    requires Core(cfg, w) && PcOk(cfg, w, pc) && pc.CompRelease?
    ensures StepOk(cfg, w, pc, d, c)
  {
    hide Core, Grows, Bystander;
    CoreFacts(cfg, w);
    SettleStep(cfg, w, IdOf(pc.payload.reservation), Released);
  }

  lemma RefundCallStep(cfg: Config, w: World, pc: Pc, d: Delivery, c: Choice)
    requires Core(cfg, w) && PcOk(cfg, w, pc) && pc.CompRefund?
    ensures StepOk(cfg, w, pc, d, c)
  {
    hide Core, Grows, Bystander;
    CoreFacts(cfg, w);
    RefundStep(cfg, w, IdOf(pc.payload.payment), cfg.total, true);
  }

  lemma CancelCallStep(cfg: Config, w: World, pc: Pc, d: Delivery, c: Choice)
    requires Core(cfg, w) && PcOk(cfg, w, pc) && pc.CompCancel?
    ensures StepOk(cfg, w, pc, d, c)
  {
    hide Core, Grows, Bystander;
    CoreFacts(cfg, w);
    MoveOrderStep(cfg, w, O.Cancelled);
  }

  lemma CompExitStep(cfg: Config, w: World, pc: Pc, d: Delivery, c: Choice)
    requires Core(cfg, w) && PcOk(cfg, w, pc) && pc.CompExit?
    ensures StepOk(cfg, w, pc, d, c)
  {
    hide Core, Grows, Bystander;
    CoreFacts(cfg, w);
    TransitionStep(cfg, w, Compensating, cfg.compensated, CompensationCompleted, None);
  }

  lemma FailReadStep(cfg: Config, w: World, pc: Pc, d: Delivery, c: Choice)
    requires Core(cfg, w) && PcOk(cfg, w, pc) && (pc.FailRead? || pc.FailCancel?)
    ensures StepOk(cfg, w, pc, d, c)
  {
    hide Core, Grows, Bystander;
    CoreFacts(cfg, w);
    MoveOrderStep(cfg, w, O.Cancelled);
  }

  lemma FailEnterStep(cfg: Config, w: World, pc: Pc, d: Delivery, c: Choice)
    requires Core(cfg, w) && PcOk(cfg, w, pc) && pc.FailEnter?
    ensures StepOk(cfg, w, pc, d, c)
  {
    hide Core, Grows, Bystander;
    CoreFacts(cfg, w);
    TransitionStep(cfg, w, pc.from, Failed, StockReservationFailed, Some(pc.payload));
  }

  lemma ProcessStep(cfg: Config, w: World, pc: Pc, d: Delivery, c: Choice)
    requires Core(cfg, w) && PcOk(cfg, w, pc)
    ensures StepOk(cfg, w, pc, d, c)
  {
    hide Core, PcOk, StepOk;
    match pc
    case ExecBegin(_) => BeginStep(cfg, w, pc, d, c);
    case ExecUndo(_) => UndoStep(cfg, w, pc, d, c);
    case ExecReserve(_) => ReserveCallStep(cfg, w, pc, d, c);
    case ExecRecord(_) => RecordStep(cfg, w, pc, d, c);
    case ExecToPaying(_) => ToPayingStep(cfg, w, pc, d, c);
    case ExecCapture(_) => CaptureCallStep(cfg, w, pc, d, c);
    case ExecToPaid(_) => ToPaidStep(cfg, w, pc, d, c);
    case ExecCommit(_, _) => CommitCallStep(cfg, w, pc, d, c);
    case ExecConfirm(_) => ConfirmCallStep(cfg, w, pc, d, c);
    case ExecFinish(_) => FinishStep(cfg, w, pc, d, c);
    case CompRead => CompReadStep(cfg, w, pc, d, c);
    case CompEnter(_, _) => CompEnterStep(cfg, w, pc, d, c);
    case CompRelease(_) => ReleaseCallStep(cfg, w, pc, d, c);
    case CompRefund(_) => RefundCallStep(cfg, w, pc, d, c);
    case CompCancel(_) => CancelCallStep(cfg, w, pc, d, c);
    case CompExit(_) => CompExitStep(cfg, w, pc, d, c);
    case FailRead => FailReadStep(cfg, w, pc, d, c);
    case FailCancel(_, _) => FailReadStep(cfg, w, pc, d, c);
    case FailEnter(_, _) => FailEnterStep(cfg, w, pc, d, c);
    case _ => ReadStep(cfg, w, pc, d, c);
  }

  lemma OutsideStep(cfg: Config, w: World, a: Action)
    requires Core(cfg, w)
    ensures var w' := Outside(cfg, w, a); Core(cfg, w') && Grows(w, w') && Bystander(w, w')
  {
    hide Core, Grows, Bystander, Capture, Reserve, Settle, MoveOrder;
    CoreFacts(cfg, w);
    match a
    case OutsideRefund(id, amount) => RefundStep(cfg, w, id, amount, false);
    case OutsideCapture(order, amount, c) => CaptureStep(cfg, w, order, amount, c);
    case OutsideReserve(c) => ReserveStep(cfg, w, c);
    case OutsideSettle(id, status) => if !status.Held? { SettleStep(cfg, w, id, status); }
    case OrderMoves(to) => MoveOrderStep(cfg, w, to);
    case _ =>
  }

  lemma OthersKeepAll(cfg: Config, s: Sys, w': World, but: set<nat>)
    requires Inv(cfg, s) && Core(cfg, w') && Grows(s.w, w')
    requires forall q :: q in s.procs && q !in but && Driver(s.procs[q]) ==> Bystander(s.w, w')
    ensures forall q :: q in s.procs && q !in but ==> PcOk(cfg, w', s.procs[q])
  {
    forall q | q in s.procs && q !in but ensures PcOk(cfg, w', s.procs[q]) {
      OthersKeep(cfg, s.w, w', s.procs[q]);
    }
  }

  lemma NewProcess(cfg: Config, s: Sys, pid: nat, pc: Pc)
    requires Inv(cfg, s) && pid !in s.procs && (pc == ExecRead || pc == Dispatch(s.w.state))
    ensures Inv(cfg, s.(procs := s.procs[pid := pc])) && Grows(s.w, s.w)
  {
    hide Core;
  }

  lemma {:induction false} StepKeepsInv(cfg: Config, s: Sys, a: Action)
    requires Inv(cfg, s)
    ensures Inv(cfg, Step(cfg, s, a))
    ensures Grows(s.w, Step(cfg, s, a).w)
  {
    hide Core, Bystander, PcOk, Grows;
    if a.Call? || a.Scan? {
      if a.pid !in s.procs { NewProcess(cfg, s, a.pid, if a.Call? then ExecRead else Dispatch(s.w.state)); }
      else { CoreFacts(cfg, s.w); }
    } else if a.Advance? {
      if a.pid in s.procs {
        ProcessStep(cfg, s.w, s.procs[a.pid], a.d, a.c);
        assert forall q :: q in s.procs && Driver(s.procs[q]) && q != a.pid ==> PcOk(cfg, s.w, s.procs[q]);
        DriverIsUnique(cfg, s, a.pid, a.d, a.c);
        OthersKeepAll(cfg, s, Step(cfg, s, a).w, {a.pid});
      } else { CoreFacts(cfg, s.w); }
    } else {
      OutsideStep(cfg, s.w, a);
      OthersKeepAll(cfg, s, Step(cfg, s, a).w, {});
    }
  }

  /** If anyone else is the driver, this process is not and does not become it. */
  lemma DriverIsUnique(cfg: Config, s: Sys, pid: nat, d: Delivery, c: Choice)
    requires Inv(cfg, s) && pid in s.procs && StepOk(cfg, s.w, s.procs[pid], d, c)
    ensures forall q :: q in s.procs && q != pid && Driver(s.procs[q]) ==>
              !Driver(Act(cfg, s.w, s.procs[pid], d, c).1) && Bystander(s.w, Act(cfg, s.w, s.procs[pid], d, c).0)
  {
    hide Core, Bystander, Grows;
  }
}
