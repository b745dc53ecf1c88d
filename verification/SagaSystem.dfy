/** One order saga and everything that acts on it, as a transition system.

    The world is the saga row, its log and the three participants as this order sees them.
    A process is one call of ExecuteSaga, Compensate or handleStockReservationFailure, cut
    at every database transaction and every command it sends: `Act` runs it from one such
    point to the next. Any number of processes may exist; a process that is never
    scheduled again has crashed. */
module SagaSystem {
  import opened Common
  import opened Statuses
  import opened SagaFsm
  import O = OrderFsm

  datatype Reservation = Reservation(id: Id, status: ReservationStatus)

  datatype Payment = Payment(id: Id, order: Id, amount: int, status: PaymentStatus)

  /** The part of the saga payload that changes during a saga. */
  datatype Payload = Payload(reservation: Option<Id>, payment: Option<Id>)

  datatype Event =
    | SagaInitialized | StockReservationStarted | StockReservationRecorded | PaymentInitiated
    | PaymentCaptured | OrderConfirmed | CompensationStarted | CompensationCompleted
    | StockReservationFailed

  datatype Entry = Entry(from: Option<State>, to: State, event: Event)

  /** What stays fixed: the order, the amount to capture, and the state that the
      coordinator is configured to enter when a compensation is complete. */
  datatype Config = Config(order: Id, total: int, compensated: State)

  datatype World = World(
    state: State,
    payload: Payload,
    log: seq<Entry>,
    reservation: Option<Reservation>,   // the reservation row of this order
    payment: Option<Payment>,           // the payment under this saga's idempotency key
    order: O.OrderStatus,
    reserveCalls: nat,                  // ReserveStock commands sent by this saga
    captureCalls: nat,                  // AuthorizeAndCapture commands sent by this saga
    refunds: nat,                       // refunds made by this saga
    returned: int,                      // how much money it gave back in them
    outsideRefunds: nat)                // refunds made by anyone else

  datatype Pc =
    | ExecRead
    | ExecBegin(from: State)
    | ExecRefresh
    | ExecReserve(payload: Payload)
    | ExecRecord(payload: Payload)
    | ExecUndo(id: Id)
    | ExecToPaying(payload: Payload)
    | ExecCapture(payload: Payload)
    | ExecToPaid(payload: Payload)
    | ExecCommit(payload: Payload, attempt: nat)
    | ExecConfirm(payload: Payload)
    | ExecFinish(payload: Payload)
    | CompRead
    | CompEnter(from: State, payload: Payload)
    | CompRelease(payload: Payload)
    | CompRefund(payload: Payload)
    | CompCancel(payload: Payload)
    | CompExit(payload: Payload)
    | FailRead
    | FailCancel(from: State, payload: Payload)
    | FailEnter(from: State, payload: Payload)
    | Done(ok: bool)

  /** What the participants decide when a command reaches them: the id a new row gets, and
      whether the stock is short or the card is declined. */
  datatype Choice = Choice(newId: Id, refuses: bool)

  // ---- the participants ----------------------------------------------------------------

  function Reserve(w: World, c: Choice): (World, bool) {
    if w.reservation.Some? || c.refuses then (w, false)
    else (w.(reservation := Some(Reservation(c.newId, Held))), true)
  }

  function Settle(w: World, id: Id, to: ReservationStatus): (World, bool) {
    if w.reservation.None? || w.reservation.value.id != id then (w, false)
    else if w.reservation.value.status == to then (w, true)
    else if w.reservation.value.status != Held then (w, false)
    else (w.(reservation := Some(Reservation(id, to))), true)
  }

  function Capture(cfg: Config, w: World, order: Id, amount: int, c: Choice): (World, Option<Id>) {
    if amount <= 0 then (w, None)
    else match w.payment
      case Some(p) =>
        if p.order != order || p.amount != amount || p.status.Declined? then (w, None)
        else (w, Some(p.id))
      case None =>
        if c.newId == NIL_ID then (w, None)
        else if c.refuses then (w.(payment := Some(Payment(c.newId, order, amount, Declined))), None)
        else (w.(payment := Some(Payment(c.newId, order, amount, Success))), Some(c.newId))
  }

  /** Returns the new world and whether money moved; refunding no payment at all succeeds. */
  function Refund(w: World, id: Id, amount: int): (World, bool) {
    if amount <= 0 || w.payment.None? || w.payment.value.id != id then (w, false)
    else if !w.payment.value.status.Success? || amount > w.payment.value.amount then (w, false)
    else (w.(payment := Some(w.payment.value.(status := Refunded))), true)
  }

  function MoveOrder(w: World, to: O.OrderStatus): (World, bool) {
    if w.order == to then (w, true)
    else if O.CanTransitionTo(w.order, to) then (w.(order := to), true)
    else (w, false)
  }

  // ---- the saga row --------------------------------------------------------------------

  /** TransitionState and AppendLog in one transaction: a compare-and-set on the state. */
  function Transition(w: World, from: State, to: State, event: Event, payload: Option<Payload>): (World, bool) {
    if !CanTransition(from, to) || w.state != from then (w, false)
    else (w.(state := to,
             payload := if payload.Some? then payload.value else w.payload,
             log := w.log + [Entry(Some(from), to, event)]), true)
  }

  // ---- accesses ------------------------------------------------------------------------

  /** The one access that a process makes in one step. */
  datatype Request =
    | ReadRow
    | SetState(from: State, to: State, event: Event, updated: Option<Payload>)
    | ReserveGoods
    | SettleGoods(id: Id, status: ReservationStatus)
    | TakePayment
    | ReturnPayment(id: Id)
    | SetOrder(order: O.OrderStatus)
    | Nothing

  datatype Reply = Failure | Fine | Row(state: State, payload: Payload) | Created(id: Id)

  function Sent(d: Delivery, w: World, result: (World, bool)): (World, Reply) {
    if d.NotSent? then (w, Failure)
    else (result.0, if result.1 && d.Delivered? then Fine else Failure)
  }

  function Perform(cfg: Config, w: World, request: Request, d: Delivery, c: Choice): (World, Reply) {
    match request
    case ReadRow => (w, if d.Delivered? then Row(w.state, w.payload) else Failure)
    case SetState(from, to, event, updated) => Sent(d, w, Transition(w, from, to, event, updated))
    case ReserveGoods =>
      var called := w.(reserveCalls := w.reserveCalls + 1);
      var (w', reply) := Sent(d, called, Reserve(called, c));
      (w', if reply.Fine? then Created(c.newId) else Failure)
    case SettleGoods(id, status) => Sent(d, w, Settle(w, id, status))
    case TakePayment =>
      var called := w.(captureCalls := w.captureCalls + 1);
      var (paid, id) := Capture(cfg, called, cfg.order, cfg.total, c);
      var (w', reply) := Sent(d, called, (paid, id.Some?));
      (w', if reply.Fine? then Created(id.value) else Failure)
    case ReturnPayment(id) =>
      if id == NIL_ID then (w, Fine)
      else
        var (paid, moved) := Refund(w, id, cfg.total);
        Sent(d, w, (if moved then paid.(refunds := paid.refunds + 1, returned := paid.returned + cfg.total) else paid,
                    moved))
    case SetOrder(to) => Sent(d, w, MoveOrder(w, to))
    case Nothing => (w, Fine)
  }

  // ---- the processes -------------------------------------------------------------------

  function IdOf(id: Option<Id>): Id {
    if id.Some? then id.value else NIL_ID
  }

  function RequestOf(cfg: Config, pc: Pc): Request {
    match pc
    case ExecRead => ReadRow
    case ExecBegin(from) => SetState(from, ReservingStock, StockReservationStarted, None)
    case ExecRefresh => ReadRow
    case ExecReserve(_) => ReserveGoods
    case ExecRecord(p) => SetState(ReservingStock, StockReserved, StockReservationRecorded, Some(p))
    case ExecUndo(id) => SettleGoods(id, Released)
    case ExecToPaying(_) => SetState(StockReserved, Paying, PaymentInitiated, None)
    case ExecCapture(_) => TakePayment
    case ExecToPaid(p) => SetState(Paying, Paid, PaymentCaptured, Some(p))
    case ExecCommit(p, _) => SettleGoods(IdOf(p.reservation), Committed)
    case ExecConfirm(_) => SetOrder(O.Confirmed)
    case ExecFinish(_) => SetState(Paid, Confirmed, OrderConfirmed, None)
    case CompRead => ReadRow
    case CompEnter(from, p) => SetState(from, Compensating, CompensationStarted, Some(p))
    case CompRelease(p) => SettleGoods(IdOf(p.reservation), Released)
    case CompRefund(p) => ReturnPayment(IdOf(p.payment))
    case CompCancel(_) => SetOrder(O.Cancelled)
    case CompExit(_) => SetState(Compensating, cfg.compensated, CompensationCompleted, None)
    case FailRead => ReadRow
    case FailCancel(_, _) => SetOrder(O.Cancelled)
    case FailEnter(from, p) => SetState(from, Failed, StockReservationFailed, Some(p))
    case Done(_) => Nothing
  }

  function AfterEntering(p: Payload): Pc {
    if p.reservation.Some? then CompRelease(p) else AfterReleasing(p)
  }

  function AfterReleasing(p: Payload): Pc {
    if p.payment.Some? then CompRefund(p) else CompCancel(p)
  }

  function Next(pc: Pc, r: Reply): Pc {
    match pc
    case ExecRead => if r.Row? && (r.state.Started? || r.state.Pending?) then ExecBegin(r.state) else Done(false)
    case ExecBegin(_) => if r.Fine? then ExecRefresh else Done(false)
    case ExecRefresh => if r.Row? then ExecReserve(r.payload) else Done(false)
    case ExecReserve(p) => if r.Created? then ExecRecord(p.(reservation := Some(r.id))) else FailRead
    case ExecRecord(p) => if r.Fine? then ExecToPaying(p) else ExecUndo(IdOf(p.reservation))
    case ExecUndo(_) => Done(false)
    case ExecToPaying(p) => if r.Fine? then ExecCapture(p) else Done(false)
    case ExecCapture(p) => if r.Created? then ExecToPaid(p.(payment := Some(r.id))) else CompRead
    case ExecToPaid(p) => if r.Fine? then ExecCommit(p, 0) else Done(false)
    case ExecCommit(p, attempt) =>
      if r.Fine? then ExecConfirm(p) else if attempt < 2 then ExecCommit(p, attempt + 1) else Done(false)
    case ExecConfirm(p) => if r.Fine? then ExecFinish(p) else Done(false)
    case ExecFinish(_) => Done(r.Fine?)
    case CompRead =>
      if !r.Row? then Done(false)
      else if IsTerminal(r.state) then Done(true)
      else if r.state.Compensating? then AfterEntering(r.payload)
      else CompEnter(r.state, r.payload)
    case CompEnter(_, p) => if r.Fine? then AfterEntering(p) else Done(false)
    case CompRelease(p) => if r.Fine? then AfterReleasing(p) else Done(false)
    case CompRefund(p) => if r.Fine? then CompCancel(p) else Done(false)
    case CompCancel(p) => if r.Fine? then CompExit(p) else Done(false)
    case CompExit(_) => Done(r.Fine?)
    case FailRead =>
      if !r.Row? then Done(false)
      else if IsTerminal(r.state) then Done(true)
      else FailCancel(r.state, r.payload)
    case FailCancel(from, p) => FailEnter(from, p)     // an error is only logged
    case FailEnter(_, _) => Done(false)
    case Done(_) => pc
  }

  function Act(cfg: Config, w: World, pc: Pc, d: Delivery, c: Choice): (World, Pc) {
    var (w', reply) := Perform(cfg, w, RequestOf(cfg, pc), d, c);
    (w', Next(pc, reply))
  }

  /** Where the watchdog sends a saga that its query returned in state `s`. */
  function Dispatch(s: State): Pc {
    match s
    case Started => FailRead
    case Pending => FailRead
    case ReservingStock => FailRead
    case StockReserved => CompRead
    case Paying => CompRead
    case Paid => CompRead
    case Compensating => CompRead
    case _ => Done(true)
  }

  // ---- the system ----------------------------------------------------------------------

  datatype Sys = Sys(w: World, procs: map<nat, Pc>)

  /** Everything that can happen. The last five are the doing of users and of other
      services: nothing stops them from touching the same order, reservation or payment. */
  datatype Action =
    | Call(pid: nat)                              // somebody calls ExecuteSaga
    | Scan(pid: nat)                              // a watchdog query returns this saga
    | Advance(pid: nat, d: Delivery, c: Choice)   // a process makes its next access
    | OrderMoves(to: O.OrderStatus)
    | OutsideReserve(c: Choice)
    | OutsideSettle(id: Id, status: ReservationStatus)
    | OutsideCapture(order: Id, amount: int, c: Choice)
    | OutsideRefund(id: Id, amount: int)

  function Outside(cfg: Config, w: World, a: Action): World {
    match a
    case OrderMoves(to) => MoveOrder(w, to).0
    case OutsideReserve(c) => Reserve(w, c).0
    case OutsideSettle(id, status) => if status.Held? then w else Settle(w, id, status).0
    case OutsideCapture(order, amount, c) => Capture(cfg, w, order, amount, c).0
    case OutsideRefund(id, amount) =>
      var (w', moved) := Refund(w, id, amount);
      if moved then w'.(outsideRefunds := w'.outsideRefunds + 1) else w'
    case _ => w
  }

  function Step(cfg: Config, s: Sys, a: Action): Sys {
    match a
    case Call(pid) => if pid in s.procs then s else s.(procs := s.procs[pid := ExecRead])
    case Scan(pid) => if pid in s.procs then s else s.(procs := s.procs[pid := Dispatch(s.w.state)])
    case Advance(pid, d, c) =>
      if pid !in s.procs then s else
        var (w', pc') := Act(cfg, s.w, s.procs[pid], d, c);
        Sys(w', s.procs[pid := pc'])
    case _ => s.(w := Outside(cfg, s.w, a))
  }

  lemma OnlyAdvanceMoves(cfg: Config, s: Sys, a: Action, pid: nat)
    requires pid in s.procs && !(a.Advance? && a.pid == pid)
    ensures pid in Step(cfg, s, a).procs && Step(cfg, s, a).procs[pid] == s.procs[pid]
  {
    hide Act, Outside;
  }

  function Initial(start: State, order: O.OrderStatus): Sys {
    Sys(World(start, Payload(None, None), [Entry(None, start, SagaInitialized)],
              None, None, order, 0, 0, 0, 0, 0), map[])
  }

  function Run(cfg: Config, s: Sys, acts: seq<Action>): Sys {
    if acts == [] then s else Step(cfg, Run(cfg, s, acts[..|acts| - 1]), acts[|acts| - 1])
  }

  lemma RunAppend(cfg: Config, s: Sys, acts: seq<Action>, a: Action)
    ensures Run(cfg, s, acts + [a]) == Step(cfg, Run(cfg, s, acts), a)
  {
    assert (acts + [a])[..|acts|] == acts;
  }
}
