/** What the outbox tells about an order: reading its rows from the start gives the status and the
    version; and what a confirmation or a cancellation does when nobody else acts. */
module OrderStory {
  import opened Common
  import opened OrderFsm
  import opened OrderRuns

  /** The status after these rows, if they make sense: every row is a legal change from where the
      one before it ended, or tells once more what has come about already; and a confirmation is
      announced right behind its change. */
  function Told(start: OrderStatus, events: seq<Event>): Option<OrderStatus> {
    if events == [] then Some(start)
    else
      var n := |events| - 1;
      match Told(start, events[..n])
      case None => None
      case Some(was) =>
        match events[n]
        case StatusChanged(from, to) =>
          if CanTransitionTo(from, to) && (from == was || to == was) then Some(to) else None
        case OrderCancelled => if CanTransitionTo(was, Cancelled) then Some(Cancelled) else None
        case OrderConfirmed =>
          if n > 0 && events[n - 1].StatusChanged? && events[n - 1].to.Confirmed? then Some(was) else None
  }

  /** How many of the rows tell of a change. */
  function Changes(events: seq<Event>): nat {
    if events == [] then 0
    else Changes(events[..|events| - 1]) + if events[|events| - 1].OrderConfirmed? then 0 else 1
  }

  /** This write finds the order in its target already, with another version or from another
      status than it was to start from: it reports success and files its rows, and changes nothing. */
  predicate Echoes(w: World, pc: Pc, d: Delivery) {
    && !d.NotSent?
    && match pc
       case CancelWrite(from, expected) => w.status == Cancelled && (from, expected) != (w.status, w.version)
       case ConfirmWrite(from, expected) => w.status == Confirmed && (from, expected) != (w.status, w.version)
       case MoveWrite(from, to, expected) => w.status == to && (from, expected) != (w.status, w.version)
       case _ => false
  }

  lemma OneMore(events: seq<Event>, e: Event)
    ensures (events + [e])[..|events|] == events && (events + [e])[|events|] == e
  {
  }

  lemma RowsTell(start: OrderStatus, before: seq<Event>, was: OrderStatus,
                 from: OrderStatus, to: OrderStatus, events: seq<Event>)
    requires Told(start, before) == Some(was) && CanTransitionTo(from, to) && (from == was || to == was)
    requires events == [StatusChanged(from, to)] || (events == [OrderCancelled] && to.Cancelled?)
             || (events == ConfirmEvents(from) && to.Confirmed?)
    ensures Told(start, before + events) == Some(to) && Changes(before + events) == Changes(before) + 1
  {
    OneMore(before, events[0]);
    assert events[..1] + events[1..] == events;
    if |events| == 1 {
      assert before + events == before + [events[0]];
    } else {
      OneMore(before + [events[0]], events[1]);
      assert before + events == before + [events[0]] + [events[1]];
    }
  }

  /** The rows end in the order's status, and there is at least one for every version. */
  ghost predicate Tells(start: OrderStatus, w: World) {
    Told(start, w.outbox) == Some(w.status) && w.version <= 1 + Changes(w.outbox)
  }

  lemma WriteTells(start: OrderStatus, w: World, from: OrderStatus, to: OrderStatus, expected: nat,
                   events: seq<Event>, d: Delivery)
    requires Tells(start, w) && CanTransitionTo(from, to)
    requires events == [StatusChanged(from, to)] || (events == [OrderCancelled] && to.Cancelled?)
             || (events == ConfirmEvents(from) && to.Confirmed?)
    ensures var w' := Write(w, from, to, expected, events, d).0;
            && Tells(start, w')
            && Changes(w'.outbox) - w'.version == Changes(w.outbox) - w.version
               + if !d.NotSent? && w.status == to && (from, expected) != (w.status, w.version) then 1 else 0
  {
    hide *;
    WriteIs(w, from, to, expected, events, d);
    ReadsTells(start, w);
    if w.status == from || w.status == to { RowsTell(start, w.outbox, w.status, from, to, events); }
    var w' := Write(w, from, to, expected, events, d).0;
    if w' != w { MakesTells(start, w'); }
  }

  /** What a write leaves. */
  lemma WriteIs(w: World, from: OrderStatus, to: OrderStatus, expected: nat, events: seq<Event>, d: Delivery)
    ensures var w' := Write(w, from, to, expected, events, d).0;
            if d.NotSent? || (w.status != to && (w.status, w.version) != (from, expected)) then w' == w
            else
              && w'.status == to && w'.outbox == w.outbox + events
              && w'.version == w.version + if (w.status, w.version) == (from, expected) then 1 else 0
  {
  }

  lemma ReadsTells(start: OrderStatus, w: World)
    requires Tells(start, w)
    ensures Told(start, w.outbox) == Some(w.status) && w.version <= 1 + Changes(w.outbox)
  {
  }

  lemma MakesTells(start: OrderStatus, w: World)
    requires Told(start, w.outbox) == Some(w.status) && w.version <= 1 + Changes(w.outbox)
    ensures Tells(start, w)
  {
  }

  lemma ActTells(start: OrderStatus, w: World, pc: Pc, d: Delivery)
    requires Tells(start, w) && PcOk(w, pc)
    ensures var w' := Act(w, pc, d).0;
            && Tells(start, w')
            && Changes(w'.outbox) - w'.version == Changes(w.outbox) - w.version + if Echoes(w, pc, d) then 1 else 0
  {
    hide Told, Changes, Write, Tells, CanTransitionTo;
    match pc
    case CancelWrite(status, version) => WriteTells(start, w, status, Cancelled, version, [OrderCancelled], d);
    case ConfirmWrite(status, version) => WriteTells(start, w, status, Confirmed, version, ConfirmEvents(status), d);
    case MoveWrite(from, to, version) => WriteTells(start, w, from, to, version, [StatusChanged(from, to)], d);
    case _ =>
  }

  /** One of the steps so far was a write that only echoed. */
  ghost predicate Echoed(start: OrderStatus, acts: seq<Action>) {
    exists i :: 0 <= i < |acts| && EchoStep(Run(Initial(start), acts[..i]), acts[i])
  }

  predicate EchoStep(s: Sys, a: Action) {
    a.Advance? && a.pid in s.procs && Echoes(s.w, s.procs[a.pid], a.d)
  }

  lemma EchoedOneMore(start: OrderStatus, acts: seq<Action>)
    requires acts != []
    ensures var n := |acts| - 1;
            Echoed(start, acts) <==> Echoed(start, acts[..n]) || EchoStep(Run(Initial(start), acts[..n]), acts[n])
  {
    hide Run, EchoStep;
    var n := |acts| - 1;
    assert forall i :: 0 <= i < n ==> acts[..n][..i] == acts[..i] && acts[..n][i] == acts[i];
  }

  /** In every run the outbox tells the story of the order: its rows are a chain of legal changes
      that ends in the order's status. And there is one for every version, but for the echoes:
      there are exactly as many if and only if no write echoed. */
  lemma {:induction false} TheOutboxTellsAll(start: OrderStatus, acts: seq<Action>)
    ensures var w := Run(Initial(start), acts).w;
            && Told(start, w.outbox) == Some(w.status)
            && w.version <= 1 + Changes(w.outbox)
            && (w.version == 1 + Changes(w.outbox) <==> !Echoed(start, acts))
  {
    if acts != [] {
      var (before, a) := (acts[..|acts| - 1], acts[|acts| - 1]);
      TheOutboxTellsAll(start, before);
      Reachable(start, before);
      EchoedOneMore(start, acts);
      var s := Run(Initial(start), before);
      hide Act, PcOk, Told, Changes, Echoes, Echoed;
      if a.Advance? && a.pid in s.procs { ActTells(start, s.w, s.procs[a.pid], a.d); }
    }
  }

  /** Two confirmations that cross: both have read the order in PAID; both succeed, and the outbox
      announces the confirmation twice. */
  lemma {:induction false} ConfirmedTwiceOver()
    ensures var s := Run(Initial(Paid), Crossing());
            && s.w == World(Confirmed, 2, ConfirmEvents(Paid) + ConfirmEvents(Paid))
            && s.procs == map[1 := Done(ToConfirm, true), 2 := Done(ToConfirm, true)]
            && Echoed(Paid, Crossing())
  {
    CrossingEnds();
    TheOutboxTellsAll(Paid, Crossing());
    TwiceTold();
    hide Run, Crossing, Told, Changes, Echoed;
  }

  function Crossing(): seq<Action> {
    [Call(1, ConfirmRead(1)), Call(2, ConfirmRead(1)), Advance(1, Delivered)]
    + [Advance(2, Delivered), Advance(1, Delivered), Advance(2, Delivered)]
  }

  lemma TwiceTold()
    ensures Changes(ConfirmEvents(Paid) + ConfirmEvents(Paid)) == 2
  {
    RowsTell(Paid, [], Paid, Paid, Confirmed, ConfirmEvents(Paid));
    assert [] + ConfirmEvents(Paid) == ConfirmEvents(Paid);
    RowsTell(Paid, ConfirmEvents(Paid), Confirmed, Paid, Confirmed, ConfirmEvents(Paid));
    hide ConfirmEvents, Told;
  }

  lemma CrossingEnds()
    ensures Run(Initial(Paid), Crossing())
         == Sys(World(Confirmed, 2, ConfirmEvents(Paid) + ConfirmEvents(Paid)),
                map[1 := Done(ToConfirm, true), 2 := Done(ToConfirm, true)])
  {
    var (a, b) := (Advance(1, Delivered), Advance(2, Delivered));
    var (c, d) := (Call(1, ConfirmRead(1)), Call(2, ConfirmRead(1)));
    assert [] + [c, d, a] == [c, d, a];
    RunThree(Initial(Paid), [], c, d, a);
    RunThree(Initial(Paid), [c, d, a], b, a, b);
    BothRead();
    BothWrite();
    hide Run, Step, ConfirmEvents;
    assert Run(Initial(Paid), []) == Initial(Paid) by { RunNothing(Initial(Paid)); }
  }

  lemma RunNothing(s: Sys)
    ensures Run(s, []) == s
  {
  }

  lemma BothRead()
    ensures Step(Step(Step(Initial(Paid), Call(1, ConfirmRead(1))), Call(2, ConfirmRead(1))), Advance(1, Delivered))
         == Sys(World(Paid, 1, []), map[1 := ConfirmWrite(Paid, 1), 2 := ConfirmRead(1)])
  {
  }

  lemma BothWrite()
    ensures var s := Sys(World(Paid, 1, []), map[1 := ConfirmWrite(Paid, 1), 2 := ConfirmRead(1)]);
            Step(Step(Step(s, Advance(2, Delivered)), Advance(1, Delivered)), Advance(2, Delivered))
              == Sys(World(Confirmed, 2, ConfirmEvents(Paid) + ConfirmEvents(Paid)),
                     map[1 := Done(ToConfirm, true), 2 := Done(ToConfirm, true)])
  {
    assert [] + ConfirmEvents(Paid) == ConfirmEvents(Paid);
    hide ConfirmEvents;
  }

  // ---- announcements -------------------------------------------------------------------

  /** Nobody asks for a mere change of status to this one. */
  predicate NotMovedTo(acts: seq<Action>, to: OrderStatus) {
    forall i :: 0 <= i < |acts| && acts[i].Call? && (acts[i].pc.MovePeek? || acts[i].pc.MoveWrite?) ==>
      acts[i].pc.to != to
  }

  ghost predicate Announced(start: OrderStatus, s: Sys, to: OrderStatus, e: Event) {
    && (s.w.status == to != start ==> e in s.w.outbox)
    && (forall p :: p in s.procs && (s.procs[p].MovePeek? || s.procs[p].MoveWrite?) ==> s.procs[p].to != to)
  }

  lemma StepAnnounced(start: OrderStatus, s: Sys, a: Action, to: OrderStatus, e: Event)
    requires Announced(start, s, to, e) && NotMovedTo([a], to)
    requires (to, e) in {(Confirmed, OrderConfirmed), (Cancelled, OrderCancelled)}
    ensures Announced(start, Step(s, a), to, e)
  {
    assert [a][0] == a;
    if a.Advance? && a.pid in s.procs {
      ActAnnounced(start, s.w, s.procs[a.pid], a.d, to, e);
      hide Act;
    }
  }

  lemma ActAnnounced(start: OrderStatus, w: World, pc: Pc, d: Delivery, to: OrderStatus, e: Event)
    requires w.status == to != start ==> e in w.outbox
    requires pc.MovePeek? || pc.MoveWrite? ==> pc.to != to
    requires (to, e) in {(Confirmed, OrderConfirmed), (Cancelled, OrderCancelled)}
    ensures var (w', pc') := Act(w, pc, d);
            && (w'.status == to != start ==> e in w'.outbox)
            && (pc'.MovePeek? || pc'.MoveWrite? ==> pc'.to != to)
  {
    hide CanTransitionTo;
    assert OrderConfirmed == [StatusChanged(Paid, Confirmed), OrderConfirmed][1];
  }

  /** Unless somebody moves an order that way by a mere change of status, it is announced as
      confirmed exactly if it has become so, and as cancelled exactly if it has become so. */
  lemma {:induction false} AnnouncedIff(start: OrderStatus, acts: seq<Action>)
    ensures var w := Run(Initial(start), acts).w;
            && (NotMovedTo(acts, Confirmed) && !start.Confirmed? ==>
                  (OrderConfirmed in w.outbox <==> w.status.Confirmed?))
            && (NotMovedTo(acts, Cancelled) && !start.Cancelled? ==>
                  (OrderCancelled in w.outbox <==> w.status.Cancelled?))
  {
    NeverConfirmedAndCancelled(start, acts);
    hide Run;
    if NotMovedTo(acts, Confirmed) { RunAnnounced(start, acts, Confirmed, OrderConfirmed); }
    if NotMovedTo(acts, Cancelled) { RunAnnounced(start, acts, Cancelled, OrderCancelled); }
  }

  lemma {:induction false} RunAnnounced(start: OrderStatus, acts: seq<Action>, to: OrderStatus, e: Event)
    requires NotMovedTo(acts, to) && (to, e) in {(Confirmed, OrderConfirmed), (Cancelled, OrderCancelled)}
    ensures Announced(start, Run(Initial(start), acts), to, e)
  {
    if acts != [] {
      RunAnnounced(start, acts[..|acts| - 1], to, e);
      hide Step;
      StepAnnounced(start, Run(Initial(start), acts[..|acts| - 1]), acts[|acts| - 1], to, e);
    }
  }

  // ---- one call, alone -----------------------------------------------------------------

  /** What a call of the saga's adapter should make of the order. */
  predicate Brings(w: World, w': World, ok: bool, to: OrderStatus, events: seq<Event>) {
    if w.status == to then w' == w && ok
    else if CanTransitionTo(w.status, to) then w' == World(to, w.version + 1, w.outbox + events) && ok
    else w' == w && !ok
  }

  /** The saga's cancellation when nobody else acts and all is delivered: an order that is
      cancelled stays as it is, one that can be is cancelled and announced, any other refuses. */
  lemma {:induction false} CancelAlone(s: Sys, pid: nat)
    requires pid !in s.procs
    ensures var go := Advance(pid, Delivered);
            var s' := Step(Step(Step(Step(s, Call(pid, CancelPeek)), go), go), go);
            && pid in s'.procs && s'.procs[pid].Done? && s'.procs[pid].goal.ToCancel?
            && Brings(s.w, s'.w, s'.procs[pid].ok, Cancelled, [OrderCancelled])
  {
    hide CanTransitionTo;
  }

  /** The saga's confirmation, likewise. */
  lemma {:induction false} ConfirmAlone(s: Sys, pid: nat)
    requires pid !in s.procs
    ensures var go := Advance(pid, Delivered);
            var s' := Step(Step(Step(Step(s, Call(pid, ConfirmPeek)), go), go), go);
            && pid in s'.procs && s'.procs[pid].Done? && s'.procs[pid].goal.ToConfirm?
            && Brings(s.w, s'.w, s'.procs[pid].ok, Confirmed, [StatusChanged(s.w.status, Confirmed), OrderConfirmed])
  {
    hide CanTransitionTo;
  }
}
