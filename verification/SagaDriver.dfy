/** What ExecuteSaga does when nobody else acts and every command and answer arrives: the order of
    its commands, and how it ends. */
module SagaDriver {
  import opened Common
  import opened Statuses
  import opened SagaFsm
  import opened SagaSystem
  import opened SagaSafety
  import opened SagaTheorems
  import opened SagaCompensation
  import opened SagaAlone
  import O = OrderFsm

  /** ReserveStock succeeds. */
  predicate Reserves(w: World, c: Choice) {
    w.reservation.None? && !c.refuses
  }

  /** AuthorizeAndCapture succeeds: with a new payment, or with the order's own from before. */
  predicate Captures(cfg: Config, w: World, c: Choice) {
    && cfg.total > 0
    && match w.payment
       case None => !c.refuses && c.newId != NIL_ID
       case Some(p) => p.order == cfg.order && p.amount == cfg.total && !p.status.Declined?
  }

  function Paid1(cfg: Config, w: World, c: Choice): Payment {
    if w.payment.Some? then w.payment.value else Payment(c.newId, cfg.order, cfg.total, Success)
  }

  // ---- the stations --------------------------------------------------------------------

  function Begun(w: World): World {
    w.(state := ReservingStock, log := w.log + [Entry(Some(w.state), ReservingStock, StockReservationStarted)])
  }

  function Asked(w: World, c: Choice): World {
    Begun(w).(reserveCalls := w.reserveCalls + 1, reservation := Some(Reservation(c.newId, Held)))
  }

  function Recorded(w: World, c: Choice): World {
    Asked(w, c).(state := StockReserved, payload := Payload(Some(c.newId), None),
                 log := Begun(w).log + [Entry(Some(ReservingStock), StockReserved, StockReservationRecorded)])
  }

  function Initiated(w: World, c: Choice): World {
    Recorded(w, c).(state := Paying, log := Recorded(w, c).log + [Entry(Some(StockReserved), Paying, PaymentInitiated)])
  }

  function Captured(cfg: Config, w: World, c: Choice): World {
    Initiated(w, c).(captureCalls := w.captureCalls + 1, payment := Some(Paid1(cfg, w, c)))
  }

  function Sold(cfg: Config, w: World, c: Choice): World {
    Captured(cfg, w, c).(state := Paid, payload := Payload(Some(c.newId), Some(Paid1(cfg, w, c).id)),
                         log := Initiated(w, c).log + [Entry(Some(Paying), Paid, PaymentCaptured)],
                         reservation := Some(Reservation(c.newId, Committed)))
  }

  function Finished(cfg: Config, w: World, c: Choice): World {
    Sold(cfg, w, c).(order := O.Confirmed, state := Confirmed,
                     log := Sold(cfg, w, c).log + [Entry(Some(Paid), Confirmed, OrderConfirmed)])
  }

  // ---- from one to the next ------------------------------------------------------------

  ghost predicate Leads(cfg: Config, c: Choice, w: World, pc: Pc, n: nat, w': World, pc': Pc) {
    Alone(cfg, w, pc, c, n) == (w', pc')
  }

  lemma One(cfg: Config, c: Choice, w: World, pc: Pc, w': World, pc': Pc)
    requires Act(cfg, w, pc, Delivered, c) == (w', pc')
    ensures Leads(cfg, c, w, pc, 1, w', pc')
  {
    hide Act;
    assert Alone(cfg, w', pc', c, 0) == (w', pc');
  }

  lemma Then(cfg: Config, c: Choice, w: World, pc: Pc, n: nat, w1: World, pc1: Pc, m: nat, w2: World, pc2: Pc)
    requires Leads(cfg, c, w, pc, n, w1, pc1) && Leads(cfg, c, w1, pc1, m, w2, pc2)
    ensures Leads(cfg, c, w, pc, n + m, w2, pc2)
  {
    AloneOn(cfg, w, pc, c, n, m);
    hide Alone;
  }

  lemma Begins(cfg: Config, w: World, c: Choice)
    requires Rank(w.state) == 0 && w.payload == Payload(None, None)
    ensures Leads(cfg, c, w, ExecRead, 3, Begun(w), ExecReserve(Payload(None, None)))
  {
    var w1 := Begun(w);
    assert CanTransition(w.state, ReservingStock);
    One(cfg, c, w, ExecRead, w, ExecBegin(w.state));
    One(cfg, c, w, ExecBegin(w.state), w1, ExecRefresh);
    One(cfg, c, w1, ExecRefresh, w1, ExecReserve(Payload(None, None)));
    hide Leads, Act;
    Then(cfg, c, w, ExecRead, 1, w, ExecBegin(w.state), 1, w1, ExecRefresh);
    Then(cfg, c, w, ExecRead, 2, w1, ExecRefresh, 1, w1, ExecReserve(Payload(None, None)));
  }

  lemma ReservesNot(cfg: Config, w: World, c: Choice)
    requires Rank(w.state) == 0 && !Reserves(w, c)
    ensures Leads(cfg, c, Begun(w), ExecReserve(Payload(None, None)), 4,
                  FailedWorld(Begun(w).(reserveCalls := w.reserveCalls + 1)), Done(false))
  {
    var (w1, p) := (Begun(w).(reserveCalls := w.reserveCalls + 1), Payload(None, None));
    One(cfg, c, Begun(w), ExecReserve(p), w1, FailRead);
    hide Act;
    FailsAlone(cfg, w1, c);
    Then(cfg, c, Begun(w), ExecReserve(p), 1, w1, FailRead, 3, FailedWorld(w1), Done(false));
  }

  lemma Reaches(cfg: Config, w: World, c: Choice)
    requires Rank(w.state) == 0 && Reserves(w, c)
    ensures Leads(cfg, c, Begun(w), ExecReserve(Payload(None, None)), 3,
                  Initiated(w, c), ExecCapture(Payload(Some(c.newId), None)))
  {
    var (p0, p) := (Payload(None, None), Payload(Some(c.newId), None));
    One(cfg, c, Begun(w), ExecReserve(p0), Asked(w, c), ExecRecord(p));
    One(cfg, c, Asked(w, c), ExecRecord(p), Recorded(w, c), ExecToPaying(p));
    One(cfg, c, Recorded(w, c), ExecToPaying(p), Initiated(w, c), ExecCapture(p));
    hide Leads, Act;
    Then(cfg, c, Begun(w), ExecReserve(p0), 1, Asked(w, c), ExecRecord(p), 1, Recorded(w, c), ExecToPaying(p));
    Then(cfg, c, Begun(w), ExecReserve(p0), 2, Recorded(w, c), ExecToPaying(p), 1, Initiated(w, c), ExecCapture(p));
  }

  lemma Sells(cfg: Config, w: World, c: Choice)
    requires Reserves(w, c) && Captures(cfg, w, c)
    ensures var p := Payload(Some(c.newId), Some(Paid1(cfg, w, c).id));
            Leads(cfg, c, Initiated(w, c), ExecCapture(Payload(Some(c.newId), None)), 3, Sold(cfg, w, c),
                  ExecConfirm(p))
  {
    var (w5, p1, p) := (Captured(cfg, w, c), Payload(Some(c.newId), None),
                        Payload(Some(c.newId), Some(Paid1(cfg, w, c).id)));
    var w6 := Sold(cfg, w, c).(reservation := w5.reservation);
    One(cfg, c, Initiated(w, c), ExecCapture(p1), w5, ExecToPaid(p));
    One(cfg, c, w5, ExecToPaid(p), w6, ExecCommit(p, 0));
    One(cfg, c, w6, ExecCommit(p, 0), Sold(cfg, w, c), ExecConfirm(p));
    hide Leads, Act;
    Then(cfg, c, Initiated(w, c), ExecCapture(p1), 1, w5, ExecToPaid(p), 1, w6, ExecCommit(p, 0));
    Then(cfg, c, Initiated(w, c), ExecCapture(p1), 2, w6, ExecCommit(p, 0), 1, Sold(cfg, w, c), ExecConfirm(p));
  }

  lemma Confirms(cfg: Config, w: World, p: Payload, c: Choice)
    requires w.state.Paid?
    ensures if O.CanTransitionTo(w.order, O.Confirmed) then
              Leads(cfg, c, w, ExecConfirm(p), 2,
                    w.(order := O.Confirmed, state := Confirmed,
                       log := w.log + [Entry(Some(Paid), Confirmed, OrderConfirmed)]), Done(true))
            else Leads(cfg, c, w, ExecConfirm(p), 2, w, Done(false))
  {
    if O.CanTransitionTo(w.order, O.Confirmed) {
      var w1 := w.(order := O.Confirmed);
      var w2 := w1.(state := Confirmed, log := w.log + [Entry(Some(Paid), Confirmed, OrderConfirmed)]);
      One(cfg, c, w, ExecConfirm(p), w1, ExecFinish(p));
      One(cfg, c, w1, ExecFinish(p), w2, Done(true));
      hide Leads, Act;
      Then(cfg, c, w, ExecConfirm(p), 1, w1, ExecFinish(p), 1, w2, Done(true));
    } else {
      One(cfg, c, w, ExecConfirm(p), w, Done(false));
      One(cfg, c, w, Done(false), w, Done(false));
      hide Leads, Act;
      Then(cfg, c, w, ExecConfirm(p), 1, w, Done(false), 1, w, Done(false));
    }
  }

  // ---- the whole call ------------------------------------------------------------------

  lemma CallRuns(cfg: Config, start: State, order: O.OrderStatus, acts: seq<Action>, pid: nat, c: Choice, n: nat)
    requires pid !in After(cfg, start, order, acts).procs
    ensures var s := After(cfg, start, order, acts);
            var s' := After(cfg, start, order, acts + [Call(pid)] + Goes(pid, c, n));
            pid in s'.procs && (s'.w, s'.procs[pid]) == Alone(cfg, s.w, ExecRead, c, n)
  {
    var s0 := Initial(start, order);
    RunAppend(cfg, s0, acts, Call(pid));
    AloneIsARun(cfg, s0, acts + [Call(pid)], pid, c, n);
    hide Run, Alone;
  }

  lemma Stays(cfg: Config, c: Choice, w: World, pc: Pc, n: nat, w': World, ok: bool, m: nat)
    requires Leads(cfg, c, w, pc, n, w', Done(ok)) && n <= m
    ensures Leads(cfg, c, w, pc, m, w', Done(ok))
  {
    DoneStays(cfg, w', ok, c, m - n);
    AloneOn(cfg, w, pc, c, n, m - n);
    hide Alone;
  }

  lemma SellsAll(cfg: Config, w: World, c: Choice)
    requires Rank(w.state) == 0 && w.payload == Payload(None, None) && Reserves(w, c) && Captures(cfg, w, c)
    ensures if O.CanTransitionTo(w.order, O.Confirmed) then
              Leads(cfg, c, w, ExecRead, 13, Finished(cfg, w, c), Done(true))
            else Leads(cfg, c, w, ExecRead, 13, Sold(cfg, w, c), Done(false))
  {
    var (p0, p1, p) := (Payload(None, None), Payload(Some(c.newId), None),
                        Payload(Some(c.newId), Some(Paid1(cfg, w, c).id)));
    Begins(cfg, w, c);
    Reaches(cfg, w, c);
    Sells(cfg, w, c);
    Confirms(cfg, Sold(cfg, w, c), p, c);
    hide Leads, Reserves, Captures;
    Then(cfg, c, w, ExecRead, 3, Begun(w), ExecReserve(p0), 3, Initiated(w, c), ExecCapture(p1));
    Then(cfg, c, w, ExecRead, 6, Initiated(w, c), ExecCapture(p1), 3, Sold(cfg, w, c), ExecConfirm(p));
    if O.CanTransitionTo(w.order, O.Confirmed) {
      Then(cfg, c, w, ExecRead, 9, Sold(cfg, w, c), ExecConfirm(p), 2, Finished(cfg, w, c), Done(true));
      Stays(cfg, c, w, ExecRead, 11, Finished(cfg, w, c), true, 13);
    } else {
      Then(cfg, c, w, ExecRead, 9, Sold(cfg, w, c), ExecConfirm(p), 2, Sold(cfg, w, c), Done(false));
      Stays(cfg, c, w, ExecRead, 11, Sold(cfg, w, c), false, 13);
    }
  }

  lemma FailsToReserve(cfg: Config, w: World, c: Choice)
    requires Rank(w.state) == 0 && w.payload == Payload(None, None) && !Reserves(w, c)
    ensures Leads(cfg, c, w, ExecRead, 13, FailedWorld(Begun(w).(reserveCalls := w.reserveCalls + 1)), Done(false))
  {
    var w1 := FailedWorld(Begun(w).(reserveCalls := w.reserveCalls + 1));
    Begins(cfg, w, c);
    ReservesNot(cfg, w, c);
    hide Leads, Reserves;
    Then(cfg, c, w, ExecRead, 3, Begun(w), ExecReserve(Payload(None, None)), 4, w1, Done(false));
    Stays(cfg, c, w, ExecRead, 7, w1, false, 13);
  }

  /** The payment is declined or refused: a declined one leaves a row. */
  function Unpaid(cfg: Config, w: World, c: Choice): World {
    Initiated(w, c).(captureCalls := w.captureCalls + 1,
                     payment := if cfg.total > 0 && w.payment.None? && c.newId != NIL_ID
                                then Some(Payment(c.newId, cfg.order, cfg.total, Declined)) else w.payment)
  }

  lemma Declines(cfg: Config, w: World, c: Choice)
    requires Rank(w.state) == 0 && w.payload == Payload(None, None) && Reserves(w, c) && !Captures(cfg, w, c)
    ensures Leads(cfg, c, w, ExecRead, 7, Unpaid(cfg, w, c), CompRead)
  {
    var (p0, p1, w5) := (Payload(None, None), Payload(Some(c.newId), None), Unpaid(cfg, w, c));
    Begins(cfg, w, c);
    Reaches(cfg, w, c);
    One(cfg, c, Initiated(w, c), ExecCapture(p1), w5, CompRead);
    hide *;
    Then(cfg, c, w, ExecRead, 3, Begun(w), ExecReserve(p0), 3, Initiated(w, c), ExecCapture(p1));
    Then(cfg, c, w, ExecRead, 6, Initiated(w, c), ExecCapture(p1), 1, w5, CompRead);
  }

  lemma UnpaidIs(cfg: Config, w: World, c: Choice)
    ensures Returnable(Unpaid(cfg, w, c)) && 2 <= Rank(Unpaid(cfg, w, c).state) <= 4
  {
  }

  lemma DeclineEnds(cfg: Config, w: World, c: Choice)
    requires Leads(cfg, c, w, ExecRead, 7, Unpaid(cfg, w, c), CompRead) && Core(cfg, Unpaid(cfg, w, c))
    ensures var (w', pc') := Alone(cfg, w, ExecRead, c, 13); ExitedOr(cfg, Unpaid(cfg, w, c), true, w', pc')
  {
    UnpaidIs(cfg, w, c);
    CompensatesAlone(cfg, Unpaid(cfg, w, c), c);
    AloneOn(cfg, w, ExecRead, c, 7, 6);
    hide Alone, Unpaid, Core, ExitedOr;
  }

  lemma CaptureFails(cfg: Config, start: State, order: O.OrderStatus, acts: seq<Action>, pid: nat, c: Choice)
    requires Fresh(start) && pid !in After(cfg, start, order, acts).procs
    requires var w := After(cfg, start, order, acts).w;
             Rank(w.state) == 0 && w.payload == Payload(None, None) && Reserves(w, c) && !Captures(cfg, w, c)
    ensures var w := After(cfg, start, order, acts).w;
            var s' := After(cfg, start, order, acts + [Call(pid)] + Goes(pid, c, 13));
            pid in s'.procs && ExitedOr(cfg, Unpaid(cfg, w, c), true, s'.w, s'.procs[pid])
  {
    var w := After(cfg, start, order, acts).w;
    Declines(cfg, w, c);
    assert Alone(cfg, w, ExecRead, c, 7) == (Unpaid(cfg, w, c), CompRead);
    hide *;
    CallRuns(cfg, start, order, acts, pid, c, 7);
    ReachableCore(cfg, start, order, acts + [Call(pid)] + Goes(pid, c, 7));
    DeclineEnds(cfg, w, c);
    CallRuns(cfg, start, order, acts, pid, c, 13);
  }

  /** How the call ends, told from the rows that it found. */
  ghost predicate Outcome(cfg: Config, w: World, c: Choice, w': World, pc': Pc) {
    && pc'.Done?
    && (w'.state.Confirmed? <==> Reserves(w, c) && Captures(cfg, w, c) && (w.order.Paid? || w.order.Confirmed?))
    && (w'.state.Confirmed? ==>
          && pc'.ok && w'.order.Confirmed? && w'.reservation == Some(Reservation(c.newId, Committed))
          && w'.payload == Payload(Some(c.newId), Some(Paid1(cfg, w, c).id)) && w'.payment == Some(Paid1(cfg, w, c)))
    && (!Reserves(w, c) ==>
          && w'.state.Failed? && w'.captureCalls == w.captureCalls && w'.reservation == w.reservation
          && w'.order == (if O.CanTransitionTo(w.order, O.Cancelled) then O.Cancelled else w.order))
    && (Reserves(w, c) && Captures(cfg, w, c) && !w.order.Paid? && !w.order.Confirmed? ==>
          !pc'.ok && w'.state.Paid? && w'.reservation == Some(Reservation(c.newId, Committed)))
    && (Reserves(w, c) && !Captures(cfg, w, c) ==>
          && w'.payload == Payload(Some(c.newId), None)
          && (Completed(w'.log) <==>
                O.CanTransitionTo(w.order, O.Cancelled) && CanTransition(Compensating, cfg.compensated)))
  }

  lemma OutcomeOfFailure(cfg: Config, w: World, c: Choice)
    requires !Reserves(w, c)
    ensures Outcome(cfg, w, c, FailedWorld(Begun(w).(reserveCalls := w.reserveCalls + 1)), Done(false))
  {
    hide Captures, Completed;
  }

  lemma OutcomeOfSale(cfg: Config, w: World, c: Choice)
    requires Reserves(w, c) && Captures(cfg, w, c)
    ensures if O.CanTransitionTo(w.order, O.Confirmed) then Outcome(cfg, w, c, Finished(cfg, w, c), Done(true))
            else Outcome(cfg, w, c, Sold(cfg, w, c), Done(false))
  {
    hide Captures, Reserves, Completed;
  }

  lemma OutcomeOfDecline(cfg: Config, w: World, c: Choice, w': World, pc': Pc)
    requires Reserves(w, c) && !Captures(cfg, w, c) && ExitedOr(cfg, Unpaid(cfg, w, c), true, w', pc')
    ensures Outcome(cfg, w, c, w', pc')
  {
    hide Captures, Reserves, Completed, NoFailure;
  }

  /** A call of ExecuteSaga on a new saga that goes through without a hitch. It fails the saga if
      the stock is not reserved, and compensates if the payment is not captured. Otherwise it sells
      the goods, and confirms the saga exactly if the order can be confirmed. */
  lemma {:induction false} DriverAlone(
      cfg: Config, start: State, order: O.OrderStatus, acts: seq<Action>, pid: nat, c: Choice)
    requires Fresh(start) && pid !in After(cfg, start, order, acts).procs
    requires After(cfg, start, order, acts).w.state.Started? || After(cfg, start, order, acts).w.state.Pending?
    ensures var s' := After(cfg, start, order, acts + [Call(pid)] + Goes(pid, c, 13));
            && pid in s'.procs
            && Outcome(cfg, After(cfg, start, order, acts).w, c, s'.w, s'.procs[pid])
            && (Completed(s'.w.log) ==> Undone(s'.w))
  {
    var (w, longer) := (After(cfg, start, order, acts).w, acts + [Call(pid)] + Goes(pid, c, 13));
    ReachableCore(cfg, start, order, acts);
    ReachableCore(cfg, start, order, longer);
    CompletedIsUndone(cfg, After(cfg, start, order, longer).w);
    NewSaga(cfg, w);
    CallRuns(cfg, start, order, acts, pid, c, 13);
    hide Run, Alone, Core, Outcome, Completed, Undone, Reserves, Captures;
    if !Reserves(w, c) {
      FailsToReserve(cfg, w, c);
      OutcomeOfFailure(cfg, w, c);
    } else if Captures(cfg, w, c) {
      SellsAll(cfg, w, c);
      OutcomeOfSale(cfg, w, c);
    } else {
      CaptureFails(cfg, start, order, acts, pid, c);
      OutcomeOfDecline(cfg, w, c, After(cfg, start, order, longer).w, After(cfg, start, order, longer).procs[pid]);
    }
  }

  lemma NewSaga(cfg: Config, w: World)
    requires Core(cfg, w)
    ensures (w.state.Started? || w.state.Pending?) <==> Rank(w.state) == 0
    ensures Rank(w.state) == 0 ==> w.payload == Payload(None, None)
  {
    CoreFacts(cfg, w);
    hide Core;
  }

  // ---- the three attempts to commit ----------------------------------------------------

  /** The driver with its payment recorded and its stock held or committed already. */
  predicate AtCommit(w: World, p: Payload) {
    && w.state.Paid? && p == w.payload && p.reservation.Some?
    && (w.reservation == Some(Reservation(p.reservation.value, Held))
        || w.reservation == Some(Reservation(p.reservation.value, Committed)))
  }

  /** Commands of the driver with these fates. */
  function Tries(cfg: Config, w: World, pc: Pc, c: Choice, ds: seq<Delivery>): (World, Pc)
    decreases ds
  {
    if ds == [] then (w, pc)
    else
      var (w', pc') := Act(cfg, w, pc, ds[0], c);
      Tries(cfg, w', pc', c, ds[1..])
  }

  /** A commit that fails is tried twice more, whatever became of it; the driver goes on exactly if
      one answer arrives, and then the stock is committed. */
  lemma CommitIsTriedThrice(cfg: Config, w: World, p: Payload, c: Choice, d0: Delivery, d1: Delivery, d2: Delivery)
    requires AtCommit(w, p)
    ensures var (w', pc') := Tries(cfg, w, ExecCommit(p, 0), c, [d0, d1, d2]);
            !d0.Delivered? && !d1.Delivered? ==>
              && (if d2.Delivered? then
                    pc' == ExecConfirm(p) && w'.reservation == Some(Reservation(p.reservation.value, Committed))
                  else pc' == Done(false))
              && w' == w.(reservation := w'.reservation)
    ensures var (w', pc') := Tries(cfg, w, ExecCommit(p, 0), c, [d0, d1]);
            !d0.Delivered? && d1.Delivered? ==>
              pc' == ExecConfirm(p) && w' == w.(reservation := Some(Reservation(p.reservation.value, Committed)))
  {
    CommitOnce(cfg, w, p, 0, c, d0);
    var w1 := Act(cfg, w, ExecCommit(p, 0), d0, c).0;
    CommitOnce(cfg, w1, p, 1, c, d1);
    var w2 := Act(cfg, w1, ExecCommit(p, 1), d1, c).0;
    CommitOnce(cfg, w2, p, 2, c, d2);
    hide Act;
    TriesUnfold(cfg, w, ExecCommit(p, 0), c, d0, [d1, d2]);
    TriesUnfold(cfg, w, ExecCommit(p, 0), c, d0, [d1]);
    TriesUnfold(cfg, w1, ExecCommit(p, 1), c, d1, [d2]);
    TriesUnfold(cfg, w1, ExecCommit(p, 1), c, d1, []);
    TriesUnfold(cfg, w2, ExecCommit(p, 2), c, d2, []);
    assert [d0] + [d1, d2] == [d0, d1, d2] && [d0] + [d1] == [d0, d1];
    assert [d1] + [d2] == [d1, d2] && [d1] + [] == [d1] && [d2] + [] == [d2];
  }

  lemma TriesUnfold(cfg: Config, w: World, pc: Pc, c: Choice, d: Delivery, ds: seq<Delivery>)
    ensures var (w', pc') := Act(cfg, w, pc, d, c);
            Tries(cfg, w, pc, c, [d] + ds) == Tries(cfg, w', pc', c, ds)
  {
    hide Act;
    assert ([d] + ds)[1..] == ds;
  }

  lemma CommitOnce(cfg: Config, w: World, p: Payload, attempt: nat, c: Choice, d: Delivery)
    requires AtCommit(w, p) && attempt <= 2
    ensures var (w', pc') := Act(cfg, w, ExecCommit(p, attempt), d, c);
            && AtCommit(w', p) && w' == w.(reservation := w'.reservation)
            && pc' == (if d.Delivered? then ExecConfirm(p)
                       else if attempt < 2 then ExecCommit(p, attempt + 1) else Done(false))
            && (d.Delivered? ==> w'.reservation == Some(Reservation(p.reservation.value, Committed)))
  {
  }
}
