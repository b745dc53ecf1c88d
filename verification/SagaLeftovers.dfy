/** Stock and money that a saga has asked for and not recorded: its answer was lost, or its driver
    stopped before the row was written. Everything that undoes a saga goes by the recorded ids. */
module SagaLeftovers {
  import opened Common
  import opened Statuses
  import opened SagaFsm
  import opened SagaSystem
  import opened SagaSafety
  import opened SagaTheorems
  import opened SagaCompensation
  import O = OrderFsm

  // ---- the payment ---------------------------------------------------------------------

  /** The saga has asked for its payment and recorded none. */
  predicate Unrecorded(w: World) {
    w.captureCalls == 1 && w.payload.payment.None?
  }

  /** Its driver is about to record it, and still may. */
  predicate CanRecord(s: Sys) {
    s.w.state.Paying? && exists p :: p in s.procs && s.procs[p].ExecToPaid?
  }

  lemma LostAct(cfg: Config, w: World, pc: Pc, d: Delivery, c: Choice)
    requires Core(cfg, w) && PcOk(cfg, w, pc) && Unrecorded(w) && !(w.state.Paying? && pc.ExecToPaid?)
    ensures var (w', pc') := Act(cfg, w, pc, d, c);
            && Unrecorded(w') && w'.refunds == w.refunds
            && !pc'.ExecToPaid? && (w'.state.Paying? ==> w.state.Paying?)
  {
    LostGoesOn(cfg, w, pc, d, c);
    CoreFacts(cfg, w);
    hide Core, Next;
    if RequestOf(cfg, pc).SetState? {
      LostTransition(cfg, w, pc, d, c);
    } else {
      SparesTheRow(cfg, w, RequestOf(cfg, pc), d, c);
      hide Perform;
    }
  }

  lemma LostTransition(cfg: Config, w: World, pc: Pc, d: Delivery, c: Choice)
    requires PayloadFits(w.state, w.payload) && PcOk(cfg, w, pc) && RequestOf(cfg, pc).SetState?
    requires Unrecorded(w) && !(w.state.Paying? && pc.ExecToPaid?)
    ensures var w' := Act(cfg, w, pc, d, c).0;
            Unrecorded(w') && w'.refunds == w.refunds && (w'.state.Paying? ==> w.state.Paying?)
  {
    hide Next;
  }

  lemma SparesTheRow(cfg: Config, w: World, request: Request, d: Delivery, c: Choice)
    requires !request.SetState?
    ensures var w' := Perform(cfg, w, request, d, c).0;
            && w'.state == w.state && w'.payload == w.payload
            && (!request.TakePayment? ==> w'.captureCalls == w.captureCalls)
            && (!request.ReturnPayment? ==> w'.refunds == w.refunds)
  {
  }

  lemma LostGoesOn(cfg: Config, w: World, pc: Pc, d: Delivery, c: Choice)
    requires PcOk(cfg, w, pc) && Unrecorded(w)
    ensures !Act(cfg, w, pc, d, c).1.ExecToPaid?
  {
    hide Perform;
  }

  lemma OutsideSpares(cfg: Config, w: World, a: Action)
    ensures var w' := Outside(cfg, w, a);
            && w'.state == w.state && w'.payload == w.payload && w'.log == w.log && w'.refunds == w.refunds
            && w'.reserveCalls == w.reserveCalls && w'.captureCalls == w.captureCalls
  {
  }

  lemma LostStep(cfg: Config, s: Sys, a: Action)
    requires Inv(cfg, s) && Unrecorded(s.w) && !CanRecord(s)
    ensures var s' := Step(cfg, s, a); Unrecorded(s'.w) && !CanRecord(s') && s'.w.refunds == s.w.refunds
  {
    hide Core, PcOk, Act, Outside, Unrecorded;
    OutsideSpares(cfg, s.w, a);
    if a.Advance? && a.pid in s.procs {
      LostAct(cfg, s.w, s.procs[a.pid], a.d, a.c);
    } else {
      assert Unrecorded(Step(cfg, s, a).w) by { OnlyPayload(s.w, Step(cfg, s, a).w); }
    }
  }

  lemma OnlyPayload(w: World, w': World)
    requires Unrecorded(w) && w'.payload == w.payload && w'.captureCalls == w.captureCalls
    ensures Unrecorded(w')
  {
  }

  /** Otherwise it never is recorded, and the saga never gives it back. */
  lemma {:induction false} LostForGood(
      cfg: Config, start: State, order: O.OrderStatus, acts: seq<Action>, more: seq<Action>)
    requires Fresh(start)
    requires Unrecorded(After(cfg, start, order, acts).w) && !CanRecord(After(cfg, start, order, acts))
    ensures var (s, s') := (After(cfg, start, order, acts), After(cfg, start, order, acts + more));
            Unrecorded(s'.w) && !CanRecord(s') && s'.w.refunds == s.w.refunds
  {
    hide Step, Unrecorded, CanRecord, Inv;
    if more == [] {
      assert acts + more == acts;
    } else {
      var before := acts + more[..|more| - 1];
      LostForGood(cfg, start, order, acts, more[..|more| - 1]);
      assert acts + more == before + [more[|more| - 1]];
      RunAppend(cfg, Initial(start, order), before, more[|more| - 1]);
      Reachable(cfg, start, order, before);
      LostStep(cfg, After(cfg, start, order, before), more[|more| - 1]);
    }
  }

  lemma Records(cfg: Config, w: World, pc: Pc)
    requires Core(cfg, w) && PcOk(cfg, w, pc) && pc.ExecToPaid? && w.state.Paying?
    ensures var w' := Act(cfg, w, pc, Delivered, Choice(7, false)).0;
            && w' == w.(state := Paid, payload := pc.payload, log := w'.log)
            && w'.payload.payment.Some? && w'.payload.reservation.Some?
  {
    hide Core;
  }

  /** A payment that the saga has asked for and not recorded is recorded in some continuation
      exactly if the saga is still PAYING and its driver is about to record it. */
  lemma {:induction false} PaymentRecordedIff(cfg: Config, start: State, order: O.OrderStatus, acts: seq<Action>)
    requires Fresh(start) && Unrecorded(After(cfg, start, order, acts).w)
    ensures (exists more :: After(cfg, start, order, acts + more).w.payload.payment.Some?)
       <==> CanRecord(After(cfg, start, order, acts))
  {
    var s := After(cfg, start, order, acts);
    if CanRecord(s) {
      var p :| p in s.procs && s.procs[p].ExecToPaid?;
      Reachable(cfg, start, order, acts);
      Records(cfg, s.w, s.procs[p]);
      RunAppend(cfg, Initial(start, order), acts, Go(p));
      assert After(cfg, start, order, acts + [Go(p)]).w.payload.payment.Some?;
    } else {
      forall more ensures After(cfg, start, order, acts + more).w.payload.payment.None? {
        LostForGood(cfg, start, order, acts, more);
      }
    }
  }

  // ---- and the way back ----------------------------------------------------------------

  lemma SpentAct(cfg: Config, w: World, pc: Pc, d: Delivery, c: Choice)
    requires w.payment.Some? && !w.payment.value.status.Success?
    ensures var w' := Act(cfg, w, pc, d, c).0;
            && w'.refunds == w.refunds && w'.payment.Some? && !w'.payment.value.status.Success?
  {
    hide Next, CanTransition;
  }

  lemma SpentOutside(cfg: Config, w: World, a: Action)
    requires w.payment.Some? && !w.payment.value.status.Success?
    ensures var w' := Outside(cfg, w, a); w'.payment.Some? && !w'.payment.value.status.Success?
  {
  }

  /** A payment that is not captured is not given back. */
  lemma {:induction false} SpentForGood(
      cfg: Config, start: State, order: O.OrderStatus, acts: seq<Action>, more: seq<Action>)
    requires var w := After(cfg, start, order, acts).w; w.payment.Some? && !w.payment.value.status.Success?
    ensures var (w, w') := (After(cfg, start, order, acts).w, After(cfg, start, order, acts + more).w);
            w'.payment.Some? && !w'.payment.value.status.Success? && w'.refunds == w.refunds
  {
    hide Act, Outside;
    if more == [] {
      assert acts + more == acts;
    } else {
      var (before, a) := (acts + more[..|more| - 1], more[|more| - 1]);
      SpentForGood(cfg, start, order, acts, more[..|more| - 1]);
      assert acts + more == before + [a];
      RunAppend(cfg, Initial(start, order), before, a);
      var s := After(cfg, start, order, before);
      SpentOutside(cfg, s.w, a);
      OutsideSpares(cfg, s.w, a);
      if a.Advance? && a.pid in s.procs { SpentAct(cfg, s.w, s.procs[a.pid], a.d, a.c); }
    }
  }

  /** What giving back an unrecorded payment takes. */
  predicate CanGiveBack(s: Sys) {
    && CanRecord(s)
    && s.w.payment.Some? && s.w.payment.value.status.Success?
    && s.w.reservation.Some? && !s.w.reservation.value.status.Committed?
  }

  /** A watchdog pass takes a PAID saga to COMPENSATING. */
  lemma ScanCompensates(cfg: Config, s0: Sys, acts: seq<Action>, pid: nat) returns (longer: seq<Action>)
    requires Run(cfg, s0, acts).w.state.Paid? && pid !in Run(cfg, s0, acts).procs
    ensures acts <= longer
    ensures var (s, s') := (Run(cfg, s0, acts), Run(cfg, s0, longer));
            && s'.w == s.w.(state := Compensating, log := s'.w.log)
            && pid in s'.procs && s'.procs[pid] == AfterEntering(s.w.payload)
  {
    var s := Run(cfg, s0, acts);
    hide Run, AfterEntering;
    longer := RunOne(cfg, s0, acts, Scan(pid));
    longer := RunOne(cfg, s0, longer, Go(pid));
    assert Run(cfg, s0, longer).procs[pid] == CompEnter(Paid, s.w.payload);
    longer := RunOne(cfg, s0, longer, Go(pid));
  }

  lemma GiveBack(cfg: Config, start: State, order: O.OrderStatus, acts: seq<Action>, pid: nat)
    returns (longer: seq<Action>)
    requires Fresh(start)
    requires var s := After(cfg, start, order, acts);
             && pid in s.procs && s.procs[pid] == AfterEntering(s.w.payload) && Returnable(s.w)
             && s.w.payload.reservation.Some? && s.w.payload.payment.Some?
    ensures acts <= longer
    ensures After(cfg, start, order, longer).w.refunds == After(cfg, start, order, acts).w.refunds + 1
  {
    var (s0, w) := (Initial(start, order), After(cfg, start, order, acts).w);
    Reachable(cfg, start, order, acts);
    ReleaseSteps(cfg, w);
    longer := RunOne(cfg, s0, acts, Go(pid));
    Reachable(cfg, start, order, longer);
    var w1 := After(cfg, start, order, longer).w;
    hide Run, Act, Core;
    RefundSteps(cfg, w1);
    longer := RunOne(cfg, s0, longer, Go(pid));
  }

  lemma RecordIt(cfg: Config, start: State, order: O.OrderStatus, acts: seq<Action>) returns (longer: seq<Action>)
    requires Fresh(start) && CanGiveBack(After(cfg, start, order, acts))
    ensures acts <= longer
    ensures var (w, w') := (After(cfg, start, order, acts).w, After(cfg, start, order, longer).w);
            && w'.state.Paid? && Returnable(w') && w'.refunds == w.refunds
            && w'.payload.payment.Some? && w'.payload.reservation.Some?
  {
    var s := After(cfg, start, order, acts);
    Reachable(cfg, start, order, acts);
    var p :| p in s.procs && s.procs[p].ExecToPaid?;
    assert PcOk(cfg, s.w, s.procs[p]);
    hide Core, PcOk, Returnable;
    Records(cfg, s.w, s.procs[p]);
    longer := RunOne(cfg, Initial(start, order), acts, Go(p));
    Reachable(cfg, start, order, longer);
    BackedIsReturnable(cfg, After(cfg, start, order, longer).w);
  }

  lemma RecordThenGiveBack(cfg: Config, start: State, order: O.OrderStatus, acts: seq<Action>)
    returns (longer: seq<Action>)
    requires Fresh(start) && CanGiveBack(After(cfg, start, order, acts))
    ensures acts <= longer
    ensures After(cfg, start, order, longer).w.refunds > After(cfg, start, order, acts).w.refunds
  {
    var s0 := Initial(start, order);
    longer := RecordIt(cfg, start, order, acts);
    hide Run, Act, Core, AfterEntering;
    var q := FreshPid(Run(cfg, s0, longer).procs.Keys);
    longer := ScanCompensates(cfg, s0, longer, q);
    longer := GiveBack(cfg, start, order, longer, q);
  }

  lemma BackedIsReturnable(cfg: Config, w: World)
    requires Core(cfg, w)
    requires w.reservation.Some? && !w.reservation.value.status.Committed?
    requires w.payment.Some? && w.payment.value.status.Success?
    ensures Returnable(w)
  {
  }

  /** The saga gives such a payment back in some continuation exactly if it can still be recorded,
      is captured and not refunded, and the stock is not committed. */
  lemma {:induction false} PaymentGivenBackIff(cfg: Config, start: State, order: O.OrderStatus, acts: seq<Action>)
    requires Fresh(start) && Unrecorded(After(cfg, start, order, acts).w)
    ensures (exists more :: After(cfg, start, order, acts + more).w.refunds > After(cfg, start, order, acts).w.refunds)
       <==> CanGiveBack(After(cfg, start, order, acts))
  {
    var s := After(cfg, start, order, acts);
    if CanGiveBack(s) {
      var longer := RecordThenGiveBack(cfg, start, order, acts);
      assert longer == acts + longer[|acts|..];
      assert After(cfg, start, order, acts + longer[|acts|..]).w.refunds > s.w.refunds;
    } else {
      forall more ensures After(cfg, start, order, acts + more).w.refunds <= s.w.refunds {
        NotGivenBack(cfg, start, order, acts, more);
      }
    }
  }

  lemma NotGivenBack(cfg: Config, start: State, order: O.OrderStatus, acts: seq<Action>, more: seq<Action>)
    requires Fresh(start)
    requires Unrecorded(After(cfg, start, order, acts).w) && !CanGiveBack(After(cfg, start, order, acts))
    ensures After(cfg, start, order, acts + more).w.refunds <= After(cfg, start, order, acts).w.refunds
  {
    var (s, s') := (After(cfg, start, order, acts), After(cfg, start, order, acts + more));
    if !CanRecord(s) {
      LostForGood(cfg, start, order, acts, more);
    } else {
      Reachable(cfg, start, order, acts);
      DriverHasBoth(cfg, s);
      if !s.w.payment.value.status.Success? {
        SpentForGood(cfg, start, order, acts, more);
      } else {
        Reachable(cfg, start, order, acts + more);
        LaterGrows(cfg, start, order, acts, more);
        hide Run, Chain, Completed;
        assert s'.w.reservation == s.w.reservation;
      }
    }
  }

  lemma DriverHasBoth(cfg: Config, s: Sys)
    requires Inv(cfg, s) && CanRecord(s)
    ensures s.w.payment.Some? && s.w.reservation.Some?
  {
    var p :| p in s.procs && s.procs[p].ExecToPaid?;
    assert PcOk(cfg, s.w, s.procs[p]);
    hide Core;
  }

  // ---- a payment for good --------------------------------------------------------------

  lemma CaptureIsLost(cfg: Config) returns (acts: seq<Action>)
    requires cfg.total > 0
    ensures var s := After(cfg, Started, O.Pending, acts);
            && s.w == AtCapture(O.Pending, false).w.(captureCalls := 1,
                        payment := Some(Payment(7, cfg.order, cfg.total, Success)))
            && s.procs == map[0 := CompRead]
  {
    acts := DriverReachesCapture(cfg, O.Pending, false);
    hide Run;
    acts := RunOne(cfg, Initial(Started, O.Pending), acts, Advance(0, ReplyLost, Choice(7, false)));
  }

  lemma ThenCompensates(cfg: Config) returns (acts: seq<Action>)
    requires cfg.total > 0
    ensures var s := After(cfg, Started, O.Pending, acts);
            && s.w == AtCapture(O.Pending, false).w.(captureCalls := 1, state := Compensating, log := s.w.log,
                        payment := Some(Payment(7, cfg.order, cfg.total, Success)))
            && s.procs == map[0 := CompRelease(Payload(Some(7), None))]
  {
    var s := Initial(Started, O.Pending);
    acts := CaptureIsLost(cfg);
    hide Run;
    var w := Run(cfg, s, acts).w;
    acts := RunOne(cfg, s, acts, Go(0));   // Compensate reads PAYING
    assert Run(cfg, s, acts) == Sys(w, map[0 := CompEnter(Paying, w.payload)]);
    acts := RunOne(cfg, s, acts, Go(0));   // COMPENSATING
  }

  /** Stock and order are undone, and the compensation is about to be closed. */
  lemma ThenUndoes(cfg: Config) returns (acts: seq<Action>)
    requires cfg.total > 0
    ensures var s := After(cfg, Started, O.Pending, acts);
            && s.w == AtCapture(O.Pending, false).w.(captureCalls := 1, state := Compensating, log := s.w.log,
                        reservation := Some(Reservation(7, Released)), order := O.Cancelled,
                        payment := Some(Payment(7, cfg.order, cfg.total, Success)))
            && s.procs == map[0 := CompExit(Payload(Some(7), None))]
  {
    var s := Initial(Started, O.Pending);
    acts := ThenCompensates(cfg);
    hide Run;
    var w := Run(cfg, s, acts).w.(reservation := Some(Reservation(7, Released)));
    acts := RunOne(cfg, s, acts, Go(0));   // releases
    assert Run(cfg, s, acts) == Sys(w, map[0 := CompCancel(w.payload)]);
    acts := RunOne(cfg, s, acts, Go(0));   // cancels
  }

  /** Without any stale scan: the payment is captured, the answer is lost, and Compensate runs to
      its end. Stock and order are undone, the compensation is logged as complete and reported as
      a success, and the money is kept: no continuation gives it back. */
  lemma CompletedMayKeepThePayment(cfg: Config) returns (acts: seq<Action>)
    requires cfg.total > 0 && CanTransition(Compensating, cfg.compensated)
    ensures var s := After(cfg, Started, O.Pending, acts);
            && Completed(s.w.log) && s.w.order.Cancelled? && s.procs == map[0 := Done(true)]
            && s.w.payment == Some(Payment(7, cfg.order, cfg.total, Success))
            && s.w.payload.payment.None? && s.w.refunds == 0
    ensures forall more :: After(cfg, Started, O.Pending, acts + more).w.refunds == 0
  {
    acts := ThenUndoes(cfg);
    hide Run, Completed;
    ExitCompletes(cfg, After(cfg, Started, O.Pending, acts).w, CompExit(Payload(Some(7), None)));
    acts := RunOne(cfg, Initial(Started, O.Pending), acts, Go(0));
    forall more ensures After(cfg, Started, O.Pending, acts + more).w.refunds == 0 {
      LostForGood(cfg, Started, O.Pending, acts, more);
    }
  }

  // ---- the reservation -----------------------------------------------------------------

  /** The saga has asked for its stock and recorded none; this is the order's reservation. */
  predicate Unclaimed(w: World, id: Id) {
    && w.reserveCalls == 1 && w.payload.reservation.None?
    && w.reservation.Some? && w.reservation.value.id == id && !w.reservation.value.status.Released?
  }

  /** Its driver is about to record it and still may, or is about to release it, as it also does
      when it finds that it may not, and it is still held. */
  predicate CanSettle(s: Sys, id: Id)
    requires s.w.reservation.Some?
  {
    exists p :: p in s.procs && Settles(s.w, s.procs[p], id)
  }

  predicate Settles(w: World, pc: Pc, id: Id)
    requires w.reservation.Some?
  {
    || (pc.ExecRecord? && w.state.ReservingStock?)
    || (w.reservation.value.status.Held? && (pc.ExecRecord? || (pc.ExecUndo? && pc.id == id)))
  }

  /** Recorded or released: the saga has taken care of it. */
  predicate Settled(w: World, id: Id) {
    w.payload.reservation.Some? || w.reservation == Some(Reservation(id, Released))
  }

  /** Nobody but the saga settles a reservation. */
  predicate OnlyTheSaga(acts: seq<Action>) {
    forall a :: a in acts ==> !a.OutsideSettle?
  }

  lemma UnclaimedAct(cfg: Config, w: World, pc: Pc, d: Delivery, c: Choice, id: Id)
    requires Core(cfg, w) && PcOk(cfg, w, pc) && Unclaimed(w, id) && !Settles(w, pc, id)
    ensures var (w', pc') := Act(cfg, w, pc, d, c);
            && Unclaimed(w', id) && !Settles(w', pc', id)
            && (w'.state.ReservingStock? ==> w.state.ReservingStock?)
            && (w'.reservation.value.status.Held? ==> w.reservation.value.status.Held?)
  {
    CoreFacts(cfg, w);
    UnclaimedGoesOn(cfg, w, pc, d, c, id);
    hide Core, Next;
    if RequestOf(cfg, pc).SetState? {
      UnclaimedTransition(cfg, w, pc, d, c, id);
    } else {
      SparesTheRow(cfg, w, RequestOf(cfg, pc), d, c);
      UnclaimedCommand(cfg, w, pc, d, c, id);
      hide Perform;
    }
  }

  lemma UnclaimedGoesOn(cfg: Config, w: World, pc: Pc, d: Delivery, c: Choice, id: Id)
    requires PcOk(cfg, w, pc) && Unclaimed(w, id)
    ensures var pc' := Act(cfg, w, pc, d, c).1; !pc'.ExecRecord? && (pc'.ExecUndo? ==> pc.ExecRecord?)
  {
    hide Perform;
  }

  lemma UnclaimedTransition(cfg: Config, w: World, pc: Pc, d: Delivery, c: Choice, id: Id)
    requires PayloadFits(w.state, w.payload) && (Rank(w.state) == 0 ==> w.reserveCalls == 0)
    requires PcOk(cfg, w, pc) && RequestOf(cfg, pc).SetState? && Unclaimed(w, id) && !Settles(w, pc, id)
    ensures var w' := Act(cfg, w, pc, d, c).0;
            && Unclaimed(w', id) && w'.reservation == w.reservation
            && (w'.state.ReservingStock? ==> w.state.ReservingStock?)
  {
    hide Next;
  }

  lemma UnclaimedCommand(cfg: Config, w: World, pc: Pc, d: Delivery, c: Choice, id: Id)
    requires PcOk(cfg, w, pc) && !RequestOf(cfg, pc).SetState? && Unclaimed(w, id) && !Settles(w, pc, id)
    ensures var w' := Act(cfg, w, pc, d, c).0;
            && w'.reserveCalls == w.reserveCalls && w'.reservation.Some? && w'.reservation.value.id == id
            && !w'.reservation.value.status.Released?
            && (w'.reservation.value.status.Held? ==> w.reservation.value.status.Held?)
  {
    hide Next, CanTransition;
  }

  lemma UnclaimedOutside(cfg: Config, w: World, a: Action, id: Id)
    requires Unclaimed(w, id) && !a.OutsideSettle?
    ensures Unclaimed(Outside(cfg, w, a), id) && Outside(cfg, w, a).reservation == w.reservation
  {
    OutsideSpares(cfg, w, a);
  }

  lemma UnclaimedStep(cfg: Config, s: Sys, a: Action, id: Id)
    requires Inv(cfg, s) && Unclaimed(s.w, id) && !CanSettle(s, id) && !a.OutsideSettle?
    ensures Unclaimed(Step(cfg, s, a).w, id) && !CanSettle(Step(cfg, s, a), id)
  {
    hide Core, PcOk, Act, Outside;
    if a.Advance? && a.pid in s.procs {
      UnclaimedAct(cfg, s.w, s.procs[a.pid], a.d, a.c, id);
    } else {
      UnclaimedOutside(cfg, s.w, a, id);
      OutsideSpares(cfg, s.w, a);
    }
  }

  /** Otherwise the saga never records it and never releases it. */
  lemma {:induction false} UnclaimedForGood(
      cfg: Config, start: State, order: O.OrderStatus, acts: seq<Action>, more: seq<Action>, id: Id)
    requires Fresh(start) && OnlyTheSaga(more)
    requires var s := After(cfg, start, order, acts); Unclaimed(s.w, id) && !CanSettle(s, id)
    ensures var s' := After(cfg, start, order, acts + more); Unclaimed(s'.w, id) && !CanSettle(s', id)
  {
    hide Step, Inv, Settles;
    if more == [] {
      assert acts + more == acts;
    } else {
      var before := acts + more[..|more| - 1];
      UnclaimedForGood(cfg, start, order, acts, more[..|more| - 1], id);
      assert acts + more == before + [more[|more| - 1]];
      RunAppend(cfg, Initial(start, order), before, more[|more| - 1]);
      Reachable(cfg, start, order, before);
      UnclaimedStep(cfg, After(cfg, start, order, before), more[|more| - 1], id);
    }
  }

  lemma SettleActs(cfg: Config, w: World, pc: Pc, id: Id)
    requires Core(cfg, w) && PcOk(cfg, w, pc) && Unclaimed(w, id) && Settles(w, pc, id)
    ensures var (w', pc') := Act(cfg, w, pc, Delivered, Choice(7, false));
            || Settled(w', id)
            || (w' == w && w.reservation.value.status.Held? && pc' == ExecUndo(id))
  {
    hide Core;
  }

  lemma SettleOnce(cfg: Config, s: Sys, p: nat, id: Id)
    requires Inv(cfg, s) && Unclaimed(s.w, id) && p in s.procs && Settles(s.w, s.procs[p], id)
    ensures var s' := Step(cfg, s, Go(p));
            || Settled(s'.w, id)
            || (s'.w.reservation == Some(Reservation(id, Held)) && p in s'.procs && s'.procs[p] == ExecUndo(id))
  {
    SettleActs(cfg, s.w, s.procs[p], id);
    hide Act, Settles;
  }

  lemma UndoOnce(cfg: Config, s: Sys, p: nat, id: Id)
    requires s.w.reservation == Some(Reservation(id, Held)) && p in s.procs && s.procs[p] == ExecUndo(id)
    ensures Settled(Step(cfg, s, Go(p)).w, id)
  {
  }

  lemma SettleIt(cfg: Config, start: State, order: O.OrderStatus, acts: seq<Action>, id: Id)
    returns (more: seq<Action>)
    requires Fresh(start)
    requires var s := After(cfg, start, order, acts); Unclaimed(s.w, id) && CanSettle(s, id)
    ensures OnlyTheSaga(more) && Settled(After(cfg, start, order, acts + more).w, id)
  {
    var (s0, s) := (Initial(start, order), After(cfg, start, order, acts));
    var p :| p in s.procs && Settles(s.w, s.procs[p], id);
    hide Run, Step, Inv, Settles, Unclaimed, Settled, Initial;
    Reachable(cfg, start, order, acts);
    SettleOnce(cfg, s, p, id);
    RunAppend(cfg, s0, acts, Go(p));
    more := [Go(p)];
    if !Settled(After(cfg, start, order, acts + more).w, id) {
      UndoOnce(cfg, After(cfg, start, order, acts + more), p, id);
      RunAppend(cfg, s0, acts + more, Go(p));
      assert acts + more + [Go(p)] == acts + [Go(p), Go(p)];
      more := [Go(p), Go(p)];
    }
  }

  /** A reservation that the saga has asked for and not recorded is, as long as nobody else settles
      it, recorded or released in some continuation exactly if its driver is about to do so. */
  lemma {:induction false} ReservationSettledIff(
      cfg: Config, start: State, order: O.OrderStatus, acts: seq<Action>, id: Id)
    requires Fresh(start) && Unclaimed(After(cfg, start, order, acts).w, id)
    ensures (exists more :: OnlyTheSaga(more) && Settled(After(cfg, start, order, acts + more).w, id))
       <==> CanSettle(After(cfg, start, order, acts), id)
  {
    if CanSettle(After(cfg, start, order, acts), id) {
      var more := SettleIt(cfg, start, order, acts, id);
      assert OnlyTheSaga(more) && Settled(After(cfg, start, order, acts + more).w, id);
    } else {
      forall more | OnlyTheSaga(more) ensures !Settled(After(cfg, start, order, acts + more).w, id) {
        UnclaimedForGood(cfg, start, order, acts, more, id);
      }
    }
  }

  // ---- stock for good ------------------------------------------------------------------

  /** The stock is held, the answer was lost, and the driver is about to fail the saga. */
  lemma ReserveIsLost(cfg: Config) returns (acts: seq<Action>)
    ensures After(cfg, Started, O.Pending, acts)
         == Sys(AtRecord(O.Pending, false).w.(order := O.Cancelled),
                map[0 := FailEnter(ReservingStock, Payload(None, None))])
  {
    var s := Initial(Started, O.Pending);
    acts := DriverReachesReserve(cfg, O.Pending, false);
    hide Run;
    var w := AtRecord(O.Pending, false).w;
    acts := RunOne(cfg, s, acts, Advance(0, ReplyLost, Choice(7, false)));
    assert Run(cfg, s, acts) == Sys(w, map[0 := FailRead]);
    acts := RunOne(cfg, s, acts, Go(0));   // reads RESERVING_STOCK
    assert Run(cfg, s, acts) == Sys(w, map[0 := FailCancel(ReservingStock, Payload(None, None))]);
    acts := RunOne(cfg, s, acts, Go(0));   // cancels the order
  }

  /** Without any stale scan: the stock is reserved, the answer is lost, and the driver fails the
      saga and cancels the order. Nothing is recorded, the stock is held, and the saga never lets
      go of it. */
  lemma FailedMayHoldTheStock(cfg: Config) returns (acts: seq<Action>)
    ensures var s := After(cfg, Started, O.Pending, acts);
            && s.w.state.Failed? && s.w.order.Cancelled? && s.procs == map[0 := Done(false)]
            && |s.w.log| > 0 && s.w.log[|s.w.log| - 1] == Entry(Some(ReservingStock), Failed, StockReservationFailed)
            && s.w.payload == Payload(None, None) && s.w.reservation == Some(Reservation(7, Held))
    ensures forall more | OnlyTheSaga(more) :: !Settled(After(cfg, Started, O.Pending, acts + more).w, 7)
  {
    acts := ReserveIsLost(cfg);
    hide Run;
    assert CanTransition(ReservingStock, Failed);
    acts := RunOne(cfg, Initial(Started, O.Pending), acts, Go(0));
    forall more | OnlyTheSaga(more) ensures !Settled(After(cfg, Started, O.Pending, acts + more).w, 7) {
      UnclaimedForGood(cfg, Started, O.Pending, acts, more, 7);
    }
  }

  // ---- what a failure really leaves ----------------------------------------------------

  /** Nothing that the saga asked for is left, recorded or not. */
  predicate NothingHeld(w: World) {
    && (w.reserveCalls > 0 && w.reservation.Some? ==> w.reservation.value.status.Released?)
    && (w.captureCalls > 0 && w.payment.Some? ==> !w.payment.value.status.Success?)
  }

  ghost predicate FailingFromHoldsNothing(from: State) {
    forall cfg, start, order, acts, pid, d, c |
      && Fresh(start) && Fails(cfg, After(cfg, start, order, acts), pid, d, c)
      && After(cfg, start, order, acts).procs[pid].from == from ::
      NothingHeld(Step(cfg, After(cfg, start, order, acts), Advance(pid, d, c)).w)
  }

  /** From every other state there is a run in which the stock is held. */
  lemma HeldWhenFailing(cfg: Config, from: State) returns (order: O.OrderStatus, pid: nat, acts: seq<Action>)
    requires 1 <= Rank(from) <= 5 && cfg.total > 0
    ensures var s := After(cfg, Started, order, acts);
            && pid in s.procs && s.procs[pid] == FailEnter(from, s.w.payload) && s.w.state == from
            && s.w.reserveCalls > 0 && s.w.reservation == Some(Reservation(7, Held))
  {
    if from.ReservingStock? {
      order, pid := O.Pending, 0;
      acts := ReserveIsLost(cfg);
    } else {
      order, pid := O.Paid, 1;
      acts := LeavesTheStock(cfg, from);
      Reachable(cfg, Started, order, acts);
      hide Run;
    }
  }

  lemma StockStaysHeld(cfg: Config, s: Sys, pid: nat, from: State)
    requires pid in s.procs && s.procs[pid] == FailEnter(from, s.w.payload) && s.w.state == from && !IsTerminal(from)
    requires s.w.reserveCalls > 0 && s.w.reservation == Some(Reservation(7, Held))
    ensures Fails(cfg, s, pid, Delivered, Choice(7, false))
    ensures !NothingHeld(Step(cfg, s, Advance(pid, Delivered, Choice(7, false))).w)
  {
    assert CanTransition(from, Failed);
  }

  /** Counting what was never recorded, failing a saga leaves nothing behind in every run only
      from STARTED and PENDING. */
  lemma FailingHoldsNothingIff(from: State)
    requires !IsTerminal(from)
    ensures FailingFromHoldsNothing(from) <==> from.Started? || from.Pending?
  {
    if Rank(from) == 0 {
      forall cfg, start, order, acts, pid, d, c |
        && Fresh(start) && Fails(cfg, After(cfg, start, order, acts), pid, d, c)
        && After(cfg, start, order, acts).procs[pid].from == from
        ensures NothingHeld(Step(cfg, After(cfg, start, order, acts), Advance(pid, d, c)).w)
      {
        Reachable(cfg, start, order, acts);
        FailureRecordsNothingIff(cfg, start, order, acts, pid, d, c);
      }
    } else {
      var cfg := Config(1, 100, Failed);
      var order, pid, acts := HeldWhenFailing(cfg, from);
      var s := After(cfg, Started, order, acts);
      hide Run;
      StockStaysHeld(cfg, s, pid, from);
      assert Fresh(Started) && Fails(cfg, After(cfg, Started, order, acts), pid, Delivered, Choice(7, false));
      assert !FailingFromHoldsNothing(from);
    }
  }
}
