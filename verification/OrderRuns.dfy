/** One order and everybody who changes its status: customers, the saga's adapters and other
    services, cut between every read and the transaction that acts on it. */
module OrderRuns {
  import opened Common
  import opened OrderFsm

  datatype Event = OrderCancelled | OrderConfirmed | StatusChanged(from: OrderStatus, to: OrderStatus)

  /** The order row and its rows in the outbox. */
  datatype World = World(status: OrderStatus, version: nat, outbox: seq<Event>)

  datatype Goal = ToCancel | ToConfirm | ToMove

  datatype Pc =
    | CancelPeek                                               // the saga's adapter
    | CancelRead                                               // Service.CancelOrder
    | CancelWrite(status: OrderStatus, version: nat)
    | ConfirmPeek                                              // the saga's adapter
    | ConfirmRead(version: nat)                                // Service.ConfirmOrder
    | ConfirmWrite(status: OrderStatus, version: nat)
    | MovePeek(to: OrderStatus)                                // the saga's adapter
    | MoveWrite(from: OrderStatus, to: OrderStatus, version: nat)   // Service.TransitionStatus
    | Done(goal: Goal, ok: bool)

  /** UPDATE orders ... WHERE status = from AND version = expected; when that finds no row, an
      order already in the target status counts as success. */
  function UpdateOrderStatus(w: World, from: OrderStatus, to: OrderStatus, expected: nat): (World, bool) {
    if w.status == from && w.version == expected then (w.(status := to, version := w.version + 1), true)
    else (w, w.status == to)
  }

  /** The update and its outbox rows, in one transaction. */
  function Write(w: World, from: OrderStatus, to: OrderStatus, expected: nat, events: seq<Event>, d: Delivery):
    (World, bool)
  {
    var (w', ok) := UpdateOrderStatus(w, from, to, expected);
    if !ok || d.NotSent? then (w, false) else (w'.(outbox := w'.outbox + events), d.Delivered?)
  }

  function ConfirmEvents(from: OrderStatus): seq<Event> {
    [StatusChanged(from, Confirmed), OrderConfirmed]
  }

  function Act(w: World, pc: Pc, d: Delivery): (World, Pc) {
    match pc
    case CancelPeek =>
      (w, if !d.Delivered? then Done(ToCancel, false)
          else if w.status.Cancelled? then Done(ToCancel, true) else CancelRead)
    case CancelRead =>
      (w, if d.Delivered? && CanTransitionTo(w.status, Cancelled) then CancelWrite(w.status, w.version)
          else Done(ToCancel, false))
    case CancelWrite(status, version) =>
      var (w', ok) := Write(w, status, Cancelled, version, [OrderCancelled], d);
      (w', Done(ToCancel, ok))
    case ConfirmPeek =>
      (w, if !d.Delivered? then Done(ToConfirm, false)
          else if w.status.Confirmed? then Done(ToConfirm, true) else ConfirmRead(w.version))
    case ConfirmRead(version) =>
      (w, if !d.Delivered? then Done(ToConfirm, false)
          else if w.status.Confirmed? then Done(ToConfirm, true)
          else if CanTransitionTo(w.status, Confirmed) then ConfirmWrite(w.status, version)
          else Done(ToConfirm, false))
    case ConfirmWrite(status, version) =>
      var (w', ok) := Write(w, status, Confirmed, version, ConfirmEvents(status), d);
      (w', Done(ToConfirm, ok))
    case MovePeek(to) =>
      (w, if d.Delivered? && CanTransitionTo(w.status, to) then MoveWrite(w.status, to, w.version)
          else Done(ToMove, false))
    case MoveWrite(from, to, version) =>
      var (w', ok) := Write(w, from, to, version, [StatusChanged(from, to)], d);
      (w', Done(ToMove, ok))
    case Done(_, _) => (w, pc)
  }

  /** A call may begin anywhere a caller can enter. */
  predicate Entry(pc: Pc) {
    pc.CancelPeek? || pc.CancelRead? || pc.ConfirmPeek? || pc.ConfirmRead? || pc.MovePeek?
    || (pc.MoveWrite? && CanTransitionTo(pc.from, pc.to))
  }

  datatype Sys = Sys(w: World, procs: map<nat, Pc>)
  datatype Action = Call(pid: nat, pc: Pc) | Advance(pid: nat, d: Delivery)

  function Step(s: Sys, a: Action): Sys {
    match a
    case Call(pid, pc) => if pid in s.procs || !Entry(pc) then s else s.(procs := s.procs[pid := pc])
    case Advance(pid, d) =>
      if pid !in s.procs then s else
        var (w', pc') := Act(s.w, s.procs[pid], d);
        Sys(w', s.procs[pid := pc'])
  }

  function Run(s: Sys, acts: seq<Action>): Sys {
    if acts == [] then s else Step(Run(s, acts[..|acts| - 1]), acts[|acts| - 1])
  }

  function Initial(status: OrderStatus): Sys {
    Sys(World(status, 1, []), map[])
  }

  predicate Core(w: World) {
    && (OrderCancelled in w.outbox ==> w.status.Cancelled?)
    && (OrderConfirmed in w.outbox ==> w.status.Confirmed?)
  }

  predicate PcOk(w: World, pc: Pc) {
    match pc
    case CancelWrite(status, _) => CanTransitionTo(status, Cancelled)
    case ConfirmWrite(status, _) => CanTransitionTo(status, Confirmed)
    case MoveWrite(from, to, _) => CanTransitionTo(from, to)
    case Done(goal, ok) => ok ==> (goal.ToCancel? ==> w.status.Cancelled?) && (goal.ToConfirm? ==> w.status.Confirmed?)
    case _ => true
  }

  ghost predicate Inv(s: Sys) {
    Core(s.w) && forall pid :: pid in s.procs ==> PcOk(s.w, s.procs[pid])
  }

  predicate Follows(w: World, w': World) {
    && (IsTerminal(w.status) ==> w'.status == w.status)
    && w.version <= w'.version && w.outbox <= w'.outbox
  }

  lemma ActOk(w: World, pc: Pc, d: Delivery)
    requires Core(w) && PcOk(w, pc)
    ensures var (w', pc') := Act(w, pc, d); Core(w') && PcOk(w', pc') && Follows(w, w')
  {
  }

  lemma OthersKeep(w: World, w': World, pc: Pc)
    requires PcOk(w, pc) && Follows(w, w')
    ensures PcOk(w', pc)
  {
  }

  lemma StepKeepsInv(s: Sys, a: Action)
    requires Inv(s)
    ensures Inv(Step(s, a)) && Follows(s.w, Step(s, a).w)
  {
    if a.Advance? && a.pid in s.procs {
      hide Act, Core;
      var s' := Step(s, a);
      ActOk(s.w, s.procs[a.pid], a.d);
      forall pid | pid in s.procs && pid != a.pid ensures PcOk(s'.w, s.procs[pid]) {
        OthersKeep(s.w, s'.w, s.procs[pid]);
      }
    }
  }

  lemma {:induction false} Reachable(status: OrderStatus, acts: seq<Action>)
    ensures Inv(Run(Initial(status), acts))
  {
    if acts != [] {
      Reachable(status, acts[..|acts| - 1]);
      StepKeepsInv(Run(Initial(status), acts[..|acts| - 1]), acts[|acts| - 1]);
    }
  }

  lemma {:induction false} RunOn(s: Sys, acts: seq<Action>, more: seq<Action>)
    requires Inv(Run(s, acts))
    ensures Inv(Run(s, acts + more)) && Follows(Run(s, acts).w, Run(s, acts + more).w)
  {
    if more == [] {
      assert acts + more == acts;
    } else {
      assert (acts + more)[..|acts + more| - 1] == acts + more[..|more| - 1];
      RunOn(s, acts, more[..|more| - 1]);
      StepKeepsInv(Run(s, acts + more[..|more| - 1]), more[|more| - 1]);
    }
  }

  /** A terminal status is never left, whoever acts afterwards. */
  lemma TerminalIsForGood(status: OrderStatus, acts: seq<Action>, more: seq<Action>)
    requires IsTerminal(Run(Initial(status), acts).w.status)
    ensures Run(Initial(status), acts + more).w.status == Run(Initial(status), acts).w.status
  {
    Reachable(status, acts);
    RunOn(Initial(status), acts, more);
  }

  /** The outbox never announces both a confirmation and a cancellation of one order, and
      what it announces is what the order is. */
  lemma NeverConfirmedAndCancelled(status: OrderStatus, acts: seq<Action>)
    ensures var w := Run(Initial(status), acts).w;
            && !(OrderConfirmed in w.outbox && OrderCancelled in w.outbox)
            && (OrderConfirmed in w.outbox ==> w.status.Confirmed?)
            && (OrderCancelled in w.outbox ==> w.status.Cancelled?)
  {
    Reachable(status, acts);
  }

  /** A cancellation or confirmation that reports success has happened, and nothing undoes it. */
  lemma SuccessIsLasting(status: OrderStatus, acts: seq<Action>, pid: nat, more: seq<Action>)
    requires var s := Run(Initial(status), acts); pid in s.procs && s.procs[pid].Done? && s.procs[pid].ok
    ensures var goal := Run(Initial(status), acts).procs[pid].goal;
            && (goal.ToCancel? ==> Run(Initial(status), acts + more).w.status.Cancelled?)
            && (goal.ToConfirm? ==> Run(Initial(status), acts + more).w.status.Confirmed?)
  {
    Reachable(status, acts);
    RunOn(Initial(status), acts, more);
  }

  /** n further calls of Service.CancelOrder, one after the other. */
  function Cancellations(first: nat, n: nat): seq<Action> {
    if n == 0 then []
    else Cancellations(first, n - 1)
         + [Call(first + n - 1, CancelRead), Advance(first + n - 1, Delivered), Advance(first + n - 1, Delivered)]
  }

  lemma RunAppend(s: Sys, acts: seq<Action>, a: Action)
    ensures Run(s, acts + [a]) == Step(Run(s, acts), a)
  {
    assert (acts + [a])[..|acts|] == acts;
  }

  lemma RunThree(s: Sys, acts: seq<Action>, a: Action, b: Action, c: Action)
    ensures Run(s, acts + [a, b, c]) == Step(Step(Step(Run(s, acts), a), b), c)
  {
    hide Step, Run;
    RunAppend(s, acts, a);
    RunAppend(s, acts + [a], b);
    RunAppend(s, acts + [a] + [b], c);
    assert acts + [a] + [b] + [c] == acts + [a, b, c];
  }

  lemma CancelOnceMore(s: Sys, pid: nat)
    requires s.w.status.Cancelled? && pid !in s.procs
    ensures Step(Step(Step(s, Call(pid, CancelRead)), Advance(pid, Delivered)), Advance(pid, Delivered))
         == Sys(World(Cancelled, s.w.version + 1, s.w.outbox + [OrderCancelled]), s.procs[pid := Done(ToCancel, true)])
  {
    var called := s.procs[pid := CancelRead];
    assert Step(s, Call(pid, CancelRead)) == Sys(s.w, called);
    var read := called[pid := CancelWrite(Cancelled, s.w.version)];
    assert Step(Sys(s.w, called), Advance(pid, Delivered)) == Sys(s.w, read);
    assert read[pid := Done(ToCancel, true)] == s.procs[pid := Done(ToCancel, true)];
  }

  function Announcements(n: nat): (events: seq<Event>)
    ensures |events| == n && forall i :: 0 <= i < n ==> events[i] == OrderCancelled
  {
    seq(n, i => OrderCancelled)
  }

  /** n more cancellations were accepted, each with a version of its own and an announcement. */
  predicate Repeated(s: Sys, s': Sys, first: nat, n: nat) {
    && s'.w == World(Cancelled, s.w.version + n, s.w.outbox + Announcements(n))
    && (forall pid :: pid in s'.procs ==> pid < first + n)
    && (forall pid :: first <= pid < first + n ==> pid in s'.procs && s'.procs[pid] == Done(ToCancel, true))
  }

  lemma RepeatedOnceMore(s: Sys, s1: Sys, s2: Sys, first: nat, n: nat)
    requires Repeated(s, s1, first, n)
    requires s2 == Sys(World(Cancelled, s1.w.version + 1, s1.w.outbox + [OrderCancelled]),
                       s1.procs[first + n := Done(ToCancel, true)])
    ensures Repeated(s, s2, first, n + 1)
  {
    assert Announcements(n) + [OrderCancelled] == Announcements(n + 1);
  }

  /** Service.CancelOrder is not idempotent: of n further cancellations of a cancelled order all
      succeed, each with a version of its own and one more announcement. */
  lemma {:induction false} CancellingAgainAnnouncesAgain(status: OrderStatus, acts: seq<Action>, first: nat, n: nat)
    requires Run(Initial(status), acts).w.status.Cancelled?
    requires forall pid :: pid in Run(Initial(status), acts).procs ==> pid < first
    ensures Repeated(Run(Initial(status), acts), Run(Initial(status), acts + Cancellations(first, n)), first, n)
  {
    hide Run, Step, Act, Repeated;
    var s := Run(Initial(status), acts);
    if n == 0 {
      assert acts + Cancellations(first, 0) == acts;
      RepeatedFirst(s, first);
    } else {
      var (pid, before) := (first + n - 1, acts + Cancellations(first, n - 1));
      CancellingAgainAnnouncesAgain(status, acts, first, n - 1);
      RepeatedFacts(s, Run(Initial(status), before), first, n - 1);
      RunThree(Initial(status), before, Call(pid, CancelRead), Advance(pid, Delivered), Advance(pid, Delivered));
      assert acts + Cancellations(first, n)
          == before + [Call(pid, CancelRead), Advance(pid, Delivered), Advance(pid, Delivered)];
      CancelOnceMore(Run(Initial(status), before), pid);
      var after := Run(Initial(status), acts + Cancellations(first, n));
      RepeatedOnceMore(s, Run(Initial(status), before), after, first, n - 1);
    }
  }

  lemma RepeatedFirst(s: Sys, first: nat)
    requires s.w.status.Cancelled? && forall pid :: pid in s.procs ==> pid < first
    ensures Repeated(s, s, first, 0)
  {
    assert s.w.outbox + Announcements(0) == s.w.outbox;
  }

  lemma RepeatedFacts(s: Sys, s': Sys, first: nat, n: nat)
    requires Repeated(s, s', first, n)
    ensures s'.w.status.Cancelled? && first + n !in s'.procs
  {
  }

  // ---- the service ---------------------------------------------------------------------

  lemma WriteIsAct(w: World, pc: Pc, from: OrderStatus, to: OrderStatus, expected: nat, events: seq<Event>, d: Delivery)
    requires || (pc == CancelWrite(from, expected) && to == Cancelled && events == [OrderCancelled])
             || (pc == ConfirmWrite(from, expected) && to == Confirmed && events == ConfirmEvents(from))
             || (pc == MoveWrite(from, to, expected) && events == [StatusChanged(from, to)])
    ensures var (w', ok) := Write(w, from, to, expected, events, d);
            Act(w, pc, d) == (w', Done(if pc.CancelWrite? then ToCancel
                else if pc.ConfirmWrite? then ToConfirm else ToMove, ok))
  {
  }

  lemma Suffix(before: seq<Event>, events: seq<Event>)
    ensures (before + events)[|before + events| - |events|..] == events
  {
  }

  class OrderRuntime {
    const owner: Id
    ghost const start: OrderStatus
    var status: OrderStatus
    var version: nat
    var outbox: seq<Event>
    var procs: map<nat, Pc>
    ghost var acts: seq<Action>

    function Now(): World
      reads this
    {
      World(status, version, outbox)
    }

    ghost predicate Valid()
      reads this
    {
      Run(Initial(start), acts) == Sys(Now(), procs)
    }

    constructor (owner: Id)
      ensures Valid() && status == Pending && procs == map[] && this.owner == owner
    {
      this.owner, start, status, version, outbox, procs, acts := owner, Pending, Pending, 1, [], map[], [];
    }

    method Join(me: nat, pc: Pc)
      requires Valid() && me !in procs && Entry(pc)
      modifies this`procs, this`acts
      ensures Valid() && old(acts) <= acts && procs == old(procs)[me := pc]
    {
      assert (acts + [Call(me, pc)])[..|acts|] == acts;
      procs, acts := procs[me := pc], acts + [Call(me, pc)];
    }

    /** Any number of steps of any others. */
    method Others(me: nat)
      requires Valid() && me in procs
      modifies this
      ensures Valid() && old(acts) <= acts && me in procs && procs[me] == old(procs[me])
    {
      var n: nat := *;
      while n > 0
        invariant Valid() && old(acts) <= acts && me in procs && procs[me] == old(procs[me])
      {
        var a: Action := *;
        if a.pid != me {
          var s := Step(Sys(Now(), procs), a);
          assert (acts + [a])[..|acts|] == acts;
          status, version, outbox, procs := s.w.status, s.w.version, s.w.outbox, s.procs;
          acts := acts + [a];
        }
        n := n - 1;
      }
    }

    /** `me` made one access, with this outcome. */
    twostate predicate Stepped(me: nat, d: Delivery, before: World)
      reads this
    {
      && Valid() && old(acts) <= acts
      && old(me in procs) && me in procs
      && (Now(), procs[me]) == Act(before, old(procs[me]), d)
    }

    method Get(me: nat) returns (current: OrderStatus, v: nat, ghost d: Delivery)
      requires Valid() && me in procs
      requires var pc := procs[me];
               pc.CancelPeek? || pc.CancelRead? || pc.ConfirmPeek? || pc.ConfirmRead? || pc.MovePeek?
      modifies this
      ensures Stepped(me, d, World(current, v, outbox))
    {
      Others(me);
      var delivery: Delivery := *;
      d, current, v := delivery, status, version;
      assert (acts + [Advance(me, delivery)])[..|acts|] == acts;
      procs, acts := procs[me := Act(Now(), procs[me], delivery).1], acts + [Advance(me, delivery)];
    }

    method UpdateRow(from: OrderStatus, to: OrderStatus, expected: nat) returns (ok: bool)
      modifies this`status, this`version
      ensures (Now(), ok) == UpdateOrderStatus(old(Now()), from, to, expected)
      ensures ok ==> status == to
    {
      ok := status == to;
      if status == from && version == expected {
        status, version, ok := to, version + 1, true;
      }
    }

    /** UpdateOrderStatus and InsertOutboxMessage in one transaction. */
    method WriteRows(from: OrderStatus, to: OrderStatus, expected: nat, events: seq<Event>)
      returns (ok: bool, ghost d: Delivery)
      modifies this`status, this`version, this`outbox
      ensures (Now(), ok) == Write(old(Now()), from, to, expected, events, d)
      ensures ok ==> status == to && outbox == old(outbox) + events
    {
      hide UpdateOrderStatus;
      var delivery: Delivery := *;
      ok, d := false, delivery;
      if delivery.NotSent? { return; }
      var before := Now();
      ok := UpdateRow(from, to, expected);
      if ok {
        outbox, ok := outbox + events, delivery.Delivered?;
      } else {
        status, version := before.status, before.version;   // rolled back
      }
    }

    /** That transaction as the last access of `me`. */
    method Update(me: nat, from: OrderStatus, to: OrderStatus, expected: nat, events: seq<Event>) returns (ok: bool)
      requires Valid() && me in procs
      requires var pc := procs[me];
               || (pc == CancelWrite(from, expected) && to == Cancelled && events == [OrderCancelled])
               || (pc == ConfirmWrite(from, expected) && to == Confirmed && events == ConfirmEvents(from))
               || (pc == MoveWrite(from, to, expected) && events == [StatusChanged(from, to)])
      modifies this
      ensures Valid() && old(acts) <= acts && me in procs && procs[me].Done? && procs[me].ok == ok
      ensures procs[me].goal == match old(procs[me])
                                case CancelWrite(_, _) => ToCancel
                                case ConfirmWrite(_, _) => ToConfirm
                                case _ => ToMove
      ensures ok ==> status == to && |events| <= |outbox| && outbox[|outbox| - |events|..] == events
    {
      Others(me);
      ghost var before, pc := Now(), procs[me];
      ghost var d;
      ok, d := WriteRows(from, to, expected, events);
      WriteIsAct(before, pc, from, to, expected, events, d);
      Suffix(before.outbox, events);
      hide Act, Write;
      assert (acts + [Advance(me, d)])[..|acts|] == acts;
      procs := procs[me := Done(if procs[me].CancelWrite? then ToCancel
                                else if procs[me].ConfirmWrite? then ToConfirm else ToMove, ok)];
      acts := acts + [Advance(me, d)];
    }

    method CancelOrder(me: nat, user: Id, reasonGiven: bool) returns (ok: bool)
      requires Valid() && me !in procs
      modifies this
      ensures Valid() && old(acts) <= acts
      ensures user == NIL_ID || !reasonGiven || user != owner ==> !ok && unchanged(this)
      ensures user == owner != NIL_ID && reasonGiven ==> me in procs && procs[me] == Done(ToCancel, ok)
      ensures ok ==> status.Cancelled?
    {
      if user == NIL_ID || !reasonGiven { return false; }
      if user != owner { return false; }
      Join(me, CancelRead);
      ok := CancelOwn(me);
    }

    method CancelOwn(me: nat) returns (ok: bool)
      requires Valid() && me in procs && procs[me] == CancelRead
      modifies this
      ensures Valid() && old(acts) <= acts && me in procs && procs[me] == Done(ToCancel, ok)
      ensures ok ==> status.Cancelled?
    {
      var current, v, d := Get(me);
      if procs[me].Done? || !CanTransitionTo(current, Cancelled) { return false; }
      ok := Update(me, current, Cancelled, v, [OrderCancelled]);
    }

    /** The adapter that the saga cancels through. */
    method CancelForSaga(me: nat) returns (ok: bool)
      requires Valid() && me !in procs
      modifies this
      ensures Valid() && old(acts) <= acts && me in procs && procs[me] == Done(ToCancel, ok)
      ensures ok ==> status.Cancelled?
    {
      Join(me, CancelPeek);
      var current, _, d := Get(me);
      if procs[me].Done? { return current == Cancelled && procs[me].ok; }
      ok := CancelOwn(me);
    }

    method ConfirmOrder(me: nat, expected: nat) returns (ok: bool)
      requires Valid() && me in procs && procs[me] == ConfirmRead(expected)
      modifies this
      ensures Valid() && old(acts) <= acts && me in procs && procs[me] == Done(ToConfirm, ok)
      ensures ok ==> status.Confirmed?
    {
      var current, _, d := Get(me);
      if procs[me].Done? { return current == Confirmed && procs[me].ok; }
      ok := Update(me, current, Confirmed, expected, ConfirmEvents(current));
    }

    /** The adapter that the saga confirms through: the version is the one it read first. */
    method ConfirmForSaga(me: nat) returns (ok: bool)
      requires Valid() && me !in procs
      modifies this
      ensures Valid() && old(acts) <= acts && me in procs && procs[me] == Done(ToConfirm, ok)
      ensures ok ==> status.Confirmed?
    {
      Join(me, ConfirmPeek);
      var current, v, d := Get(me);
      if procs[me].Done? { return current == Confirmed && procs[me].ok; }
      ok := ConfirmOrder(me, v);
    }

    method TransitionStatus(me: nat, from: OrderStatus, to: OrderStatus, expected: nat) returns (ok: bool)
      requires Valid() && me !in procs
      modifies this
      ensures Valid() && old(acts) <= acts
      ensures !CanTransitionTo(from, to) ==> !ok && unchanged(this)
      ensures CanTransitionTo(from, to) ==> me in procs && procs[me] == Done(ToMove, ok) && (ok ==> status == to)
    {
      if !CanTransitionTo(from, to) { return false; }
      Join(me, MoveWrite(from, to, expected));
      ok := Update(me, from, to, expected, [StatusChanged(from, to)]);
    }
  }
}
