/** The payment service: any number of AuthorizeAndCapture and Refund calls at once, each cut
    at every repository access. */
module PaymentRuns {
  import opened Common
  import opened Statuses
  import Text

  datatype Payment = Payment(user: Id, key: string, order: Id, amount: int, status: PaymentStatus)

  /** The payments table with its UNIQUE (user_id, idempotency_key) index, and the amounts of
      the refund records of each payment. */
  datatype World = World(payments: map<Id, Payment>, index: map<(Id, string), Id>, refunds: map<Id, seq<int>>)

  datatype Error =
    | InvalidAmount | PaymentDeclined | Timeout | IdempotencyConflict | NotFound
    | AlreadyRefunded | CannotBeRefunded | Storage

  /** What the simulated gateway does with a token. */
  datatype Verdict = Approve | Refuse(error: Error)

  datatype Call = Call(user: Id, key: string, order: Id, amount: int, verdict: Verdict)

  datatype Reply = Paid(id: Id, payment: Payment) | RefundMade(amount: int) | Failed(error: Error)

  datatype Pc =
    | AuthCheck(call: Call)
    | AuthCreate(call: Call, newId: Id)
    | AuthRefetch(call: Call)
    | RefundRead(id: Id, amount: int)
    | RefundMark(id: Id, amount: int)
    | RefundRecord(id: Id, amount: int)
    | Done(reply: Reply)

  /** strings.ToLower, as far as a comparison with an ASCII word can tell: besides A to Z, the
      Kelvin sign and the dotted capital I become ASCII letters, and nothing else does. */
  function Lower(s: string): (t: string)
    ensures |t| == |s|
  {
    seq(|s|, i requires 0 <= i < |s| =>
      if 'A' <= s[i] <= 'Z' then s[i] + 32 as char
      else if s[i] == '\U{212A}' then 'k'
      else if s[i] == '\U{130}' then 'i'
      else s[i])
  }

  function VerdictOf(token: string): Verdict {
    var t := Lower(Text.TrimSpace(token));
    if t in {"fail", "decline", "force_failure", "sim_tok_decline", "decline_insufficient_funds",
             "decline_fraud", "insufficient_funds", "fraud"} then Refuse(PaymentDeclined)
    else if t in {"timeout", "timeout_latency"} then Refuse(Timeout)
    else if t == "network_error" then Refuse(PaymentDeclined)
    else Approve
  }

  /** What a call answers when a payment with its key exists. */
  function Replay(call: Call, id: Id, p: Payment): Reply {
    if p.order != call.order || p.amount != call.amount then Failed(IdempotencyConflict)
    else if p.status.Declined? then Failed(PaymentDeclined)
    else Paid(id, p)
  }

  function Existing(w: World, call: Call): Option<Id> {
    if (call.user, call.key) in w.index && w.index[(call.user, call.key)] in w.payments
    then Some(w.index[(call.user, call.key)]) else None
  }

  function Act(w: World, pc: Pc, d: Delivery): (World, Pc) {
    match pc
    case AuthCheck(call) =>
      // a failed lookup counts as nothing found
      if d.Delivered? && Existing(w, call).Some?
      then (w, Done(Replay(call, Existing(w, call).value, w.payments[Existing(w, call).value])))
      else (w, AuthCreate(call, NIL_ID))
    case AuthCreate(call, id) =>
      var p := Payment(call.user, call.key, call.order, call.amount,
                       if call.verdict.Approve? then Success else Declined);
      if d.NotSent? || id == NIL_ID || call.order == NIL_ID || call.user == NIL_ID || call.amount <= 0
      then (w, Done(Failed(Storage)))
      else if (call.user, call.key) in w.index || id in w.payments then
        (w, if d.Delivered? then AuthRefetch(call) else Done(Failed(Storage)))
      else
        (World(w.payments[id := p], w.index[(call.user, call.key) := id], w.refunds),
         Done(if !d.Delivered? then Failed(Storage)
              else if call.verdict.Approve? then Paid(id, p) else Failed(call.verdict.error)))
    case AuthRefetch(call) =>
      if d.Delivered? && Existing(w, call).Some?
      then (w, Done(Replay(call, Existing(w, call).value, w.payments[Existing(w, call).value])))
      else (w, Done(Failed(IdempotencyConflict)))
    case RefundRead(id, amount) =>
      if !d.Delivered? || id !in w.payments then (w, Done(Failed(NotFound)))
      else if w.payments[id].status.Refunded? then (w, Done(Failed(AlreadyRefunded)))
      else if !w.payments[id].status.Success? then (w, Done(Failed(CannotBeRefunded)))
      else if amount > w.payments[id].amount then (w, Done(Failed(InvalidAmount)))
      else (w, RefundMark(id, amount))
    case RefundMark(id, amount) =>
      if d.NotSent? || id !in w.payments then (w, Done(Failed(Storage)))
      else if w.payments[id].status.Refunded? then (w, Done(Failed(AlreadyRefunded)))
      else if !w.payments[id].status.Success? then (w, Done(Failed(CannotBeRefunded)))
      else (w.(payments := w.payments[id := w.payments[id].(status := Refunded)]),
            if d.Delivered? then RefundRecord(id, amount) else Done(Failed(Storage)))
    case RefundRecord(id, amount) =>
      if d.NotSent? then (w, Done(Failed(Storage)))
      else (w.(refunds := w.refunds[id := (if id in w.refunds then w.refunds[id] else []) + [amount]]),
            Done(if d.Delivered? then RefundMade(amount) else Failed(Storage)))
    case Done(_) => (w, pc)
  }

  datatype Sys = Sys(w: World, procs: map<nat, Pc>)

  /** A call without a key gets one of its own. */
  function Keyed(call: Call, freshKey: string): Call {
    if call.key == "" then call.(key := freshKey) else call
  }

  datatype Action =
    | Authorize(pid: nat, call: Call, freshKey: string)
    | Refund(pid: nat, id: Id, amount: int)
    | Draw(pid: nat, newId: Id)              // uuid.New in a call that found no payment
    | Advance(pid: nat, d: Delivery)

  function Step(s: Sys, a: Action): Sys {
    match a
    case Authorize(pid, call, freshKey) =>
      if pid in s.procs then s
      else s.(procs := s.procs[pid := if call.amount <= 0 then Done(Failed(InvalidAmount))
          else AuthCheck(Keyed(call, freshKey))])
    case Refund(pid, id, amount) =>
      if pid in s.procs then s
      else s.(procs := s.procs[pid := if amount <= 0 then Done(Failed(InvalidAmount)) else RefundRead(id, amount)])
    case Draw(pid, newId) =>
      if pid !in s.procs || !s.procs[pid].AuthCreate? then s
      else s.(procs := s.procs[pid := s.procs[pid].(newId := newId)])
    case Advance(pid, d) =>
      if pid !in s.procs then s else
        var (w', pc') := Act(s.w, s.procs[pid], d);
        Sys(w', s.procs[pid := pc'])
  }

  function Run(acts: seq<Action>): Sys {
    if acts == [] then Sys(World(map[], map[], map[]), map[])
    else Step(Run(acts[..|acts| - 1]), acts[|acts| - 1])
  }

  // ---- the invariant -------------------------------------------------------------------

  predicate Recorded(w: World, id: Id) {
    id in w.refunds && w.refunds[id] != []
  }

  /** The index and the table say the same thing. */
  predicate Indexed(w: World) {
    && (forall k :: k in w.index ==> w.index[k] in w.payments
                                     && (w.payments[w.index[k]].user, w.payments[w.index[k]].key) == k)
    && (forall id :: id in w.payments ==>
          && (w.payments[id].user, w.payments[id].key) in w.index
          && w.index[(w.payments[id].user, w.payments[id].key)] == id)
  }

  predicate Sound(w: World) {
    forall id :: id in w.payments ==>
      w.payments[id].amount > 0 && w.payments[id].status in {Success, Declined, Refunded}
  }

  ghost predicate Accounted(w: World) {
    forall id :: Recorded(w, id) ==>
      && |w.refunds[id]| == 1
      && id in w.payments && w.payments[id].status.Refunded?
      && 0 < w.refunds[id][0] <= w.payments[id].amount
  }

  ghost predicate Core(w: World) {
    Indexed(w) && Sound(w) && Accounted(w)
  }

  predicate PcOk(w: World, pc: Pc) {
    match pc
    case AuthCheck(call) => call.amount > 0
    case AuthCreate(call, _) => call.amount > 0
    case RefundRead(_, amount) => amount > 0
    case RefundMark(id, amount) => id in w.payments && 0 < amount <= w.payments[id].amount
    case RefundRecord(id, amount) =>
      id in w.payments && 0 < amount <= w.payments[id].amount && w.payments[id].status.Refunded? && !Recorded(w, id)
    case Done(Paid(id, p)) =>
      && id in w.payments && !p.status.Declined? && w.payments[id] == p.(status := w.payments[id].status)
      && (w.payments[id].status == p.status || (p.status.Success? && w.payments[id].status.Refunded?))
    case _ => true
  }

  ghost predicate Inv(s: Sys) {
    && Core(s.w)
    && (forall p :: p in s.procs ==> PcOk(s.w, s.procs[p]))
    && (forall p, q :: p in s.procs && q in s.procs && p != q && s.procs[p].RefundRecord? && s.procs[q].RefundRecord?
          ==> s.procs[p].id != s.procs[q].id)
  }

  /** Payments are never forgotten, and all that ever changes is that one is refunded. */
  predicate Follows(w: World, w': World) {
    && (forall k :: k in w.index ==> k in w'.index && w'.index[k] == w.index[k])
    && (forall id :: id in w.payments ==>
          && id in w'.payments && w'.payments[id] == w.payments[id].(status := w'.payments[id].status)
          && (w'.payments[id].status == w.payments[id].status
              || (w.payments[id].status.Success? && w'.payments[id].status.Refunded?)))
  }

  lemma OthersKeep(w: World, w': World, pc: Pc)
    requires PcOk(w, pc) && Follows(w, w')
    requires pc.RefundRecord? ==> !Recorded(w', pc.id)
    ensures PcOk(w', pc)
  {
  }

  ghost predicate StepOk(w: World, pc: Pc, d: Delivery) {
    var (w', pc') := Act(w, pc, d);
    && Core(w') && PcOk(w', pc') && Follows(w, w')
    && (pc'.RefundRecord? ==> pc.RefundMark? && pc'.id == pc.id && w.payments[pc.id].status.Success?)
    && (forall id :: Recorded(w', id) ==> Recorded(w, id) || (pc.RefundRecord? && id == pc.id))
  }

  lemma InsertOk(w: World, id: Id, p: Payment)
    requires Core(w) && id !in w.payments && (p.user, p.key) !in w.index
             && p.amount > 0 && p.status in {Success, Declined}
    ensures var w' := World(w.payments[id := p], w.index[(p.user, p.key) := id], w.refunds);
            Core(w') && Follows(w, w')
  {
    var w' := World(w.payments[id := p], w.index[(p.user, p.key) := id], w.refunds);
    assert Indexed(w');
    assert Accounted(w') by { assert forall k :: Recorded(w', k) ==> Recorded(w, k); }
  }

  lemma CreateOk(w: World, pc: Pc, d: Delivery)
    requires Core(w) && PcOk(w, pc) && pc.AuthCreate?
    ensures StepOk(w, pc, d)
  {
    var call := pc.call;
    if !d.NotSent? && pc.newId !in w.payments && (call.user, call.key) !in w.index {
      InsertOk(w, pc.newId, Payment(call.user, call.key, call.order, call.amount,
                                    if call.verdict.Approve? then Success else Declined));
    }
    hide Core;
  }

  lemma MarkOk(w: World, pc: Pc, d: Delivery)
    requires Core(w) && PcOk(w, pc) && pc.RefundMark?
    ensures StepOk(w, pc, d)
  {
    var (w', _) := Act(w, pc, d);
    assert Indexed(w');
    assert Accounted(w') by { assert forall k :: Recorded(w', k) ==> Recorded(w, k); }
    hide Indexed, Accounted;
  }

  lemma RecordOk(w: World, pc: Pc, d: Delivery)
    requires Core(w) && PcOk(w, pc) && pc.RefundRecord?
    ensures StepOk(w, pc, d)
  {
  }

  lemma ActOk(w: World, pc: Pc, d: Delivery)
    requires Core(w) && PcOk(w, pc)
    ensures StepOk(w, pc, d)
  {
    match pc
    case AuthCreate(_, _) => CreateOk(w, pc, d);
    case RefundMark(_, _) => MarkOk(w, pc, d);
    case RefundRecord(_, _) => RecordOk(w, pc, d);
    case _ =>
  }

  lemma {:induction false} StepKeepsInv(s: Sys, a: Action)
    requires Inv(s)
    ensures Inv(Step(s, a)) && Follows(s.w, Step(s, a).w)
  {
    hide Core;
    if a.Advance? && a.pid in s.procs {
      ActOk(s.w, s.procs[a.pid], a.d);
      var s' := Step(s, a);
      forall p | p in s.procs && p != a.pid ensures PcOk(s'.w, s.procs[p]) {
        OthersKeep(s.w, s'.w, s.procs[p]);
      }
    }
  }

  lemma {:induction false} Reachable(acts: seq<Action>)
    ensures Inv(Run(acts))
  {
    if acts != [] {
      Reachable(acts[..|acts| - 1]);
      StepKeepsInv(Run(acts[..|acts| - 1]), acts[|acts| - 1]);
    }
  }

  lemma {:induction false} LaterFollows(acts: seq<Action>, more: seq<Action>)
    ensures Follows(Run(acts).w, Run(acts + more).w)
  {
    if more == [] {
      assert acts + more == acts;
    } else {
      hide Step, Inv;
      assert (acts + more)[..|acts + more| - 1] == acts + more[..|more| - 1];
      LaterFollows(acts, more[..|more| - 1]);
      Reachable(acts + more[..|more| - 1]);
      StepKeepsInv(Run(acts + more[..|more| - 1]), more[|more| - 1]);
    }
  }

  // ---- the guarantees ------------------------------------------------------------------

  /** However many calls race, a user's idempotency key has at most one payment. */
  lemma {:induction false} OnePaymentPerKey(acts: seq<Action>, a: Id, b: Id)
    requires var w := Run(acts).w;
             && a in w.payments && b in w.payments
             && w.payments[a].user == w.payments[b].user && w.payments[a].key == w.payments[b].key
    ensures a == b
  {
    Reachable(acts);
  }

  /** Two calls with one user and key that both report a payment report the same one. And a
      reported payment stays: it was not declined, and nothing about it changes later except
      that it may be refunded. */
  lemma RepliesAgree(acts: seq<Action>, more: seq<Action>, p: nat, q: nat)
    requires var s := Run(acts);
             && p in s.procs && s.procs[p].Done? && s.procs[p].reply.Paid?
    requires var s' := Run(acts + more);
             && q in s'.procs && s'.procs[q].Done? && s'.procs[q].reply.Paid?
    ensures var (r, r') := (Run(acts).procs[p].reply, Run(acts + more).procs[q].reply);
            && r.id in Run(acts + more).w.payments
            && var now := Run(acts + more).w.payments[r.id];
               && now == r.payment.(status := now.status) && now.status in {Success, Refunded}
               && (r.payment.user == r'.payment.user && r.payment.key == r'.payment.key ==>
                     r.id == r'.id && r.payment.order == r'.payment.order && r.payment.amount == r'.payment.amount)
  {
    Reachable(acts);
    Reachable(acts + more);
    LaterFollows(acts, more);
  }

  /** A call that reports a payment reports one for the order, the amount, the user and the
      key that it asked for. */
  lemma ReplyFitsTheCall(acts: seq<Action>, pid: nat, d: Delivery)
    requires var s := Run(acts);
             pid in s.procs
             && (s.procs[pid].AuthCheck? || s.procs[pid].AuthCreate? || s.procs[pid].AuthRefetch?)
    ensures var s := Run(acts);
            var pc := Step(s, Advance(pid, d)).procs[pid];
            if pc.Done? then
              pc.reply.Paid? ==>
                var p := pc.reply.payment;
                (p.user, p.key, p.order, p.amount)
                  == (s.procs[pid].call.user, s.procs[pid].call.key, s.procs[pid].call.order, s.procs[pid].call.amount)
            else (pc.AuthCreate? || pc.AuthRefetch?) && pc.call == s.procs[pid].call
  {
    Reachable(acts);
  }

  /** A payment is refunded at most once: it has at most one refund record, for no more than
      was captured, and only if it is REFUNDED. Nothing can record a second one. */
  lemma RefundedAtMostOnce(acts: seq<Action>, id: Id)
    ensures var w := Run(acts).w;
            id in w.refunds ==>
              && |w.refunds[id]| <= 1
              && (|w.refunds[id]| == 1 ==>
                    id in w.payments && w.payments[id].status.Refunded?
                        && 0 < w.refunds[id][0] <= w.payments[id].amount)
  {
    Reachable(acts);
  }

  /** The converse fails: a crash between the status change and the record leaves a REFUNDED
      payment without a record, and then no refund of it can ever be recorded. */
  lemma RefundMayGoUnrecorded(acts: seq<Action>, pid: nat, more: seq<Action>)
    requires var s := Run(acts);
             && pid in s.procs && s.procs[pid].RefundMark?
             && s.procs[pid].id in s.w.payments && s.w.payments[s.procs[pid].id].status.Success?
    ensures var id := Run(acts).procs[pid].id;
            var s' := Run(acts + [Advance(pid, ReplyLost)] + more);
            id in s'.w.payments && s'.w.payments[id].status.Refunded? && !Recorded(s'.w, id)
  {
    var id := Run(acts).procs[pid].id;
    var lost := acts + [Advance(pid, ReplyLost)];
    assert lost[..|lost| - 1] == acts;
    Reachable(acts);
    Reachable(lost);
    assert Unrecordable(Run(lost), id);
    StaysUnrecordable(lost, more, id);
  }

  ghost predicate Unrecordable(s: Sys, id: Id) {
    && id in s.w.payments && s.w.payments[id].status.Refunded? && !Recorded(s.w, id)
    && forall p :: p in s.procs && s.procs[p].RefundRecord? ==> s.procs[p].id != id
  }

  lemma {:induction false} StaysUnrecordable(acts: seq<Action>, more: seq<Action>, id: Id)
    requires Unrecordable(Run(acts), id)
    ensures Unrecordable(Run(acts + more), id)
  {
    if more == [] {
      assert acts + more == acts;
    } else {
      var before := acts + more[..|more| - 1];
      assert (acts + more)[..|acts + more| - 1] == before;
      StaysUnrecordable(acts, more[..|more| - 1], id);
      Reachable(before);
      var a := more[|more| - 1];
      StepKeepsInv(Run(before), a);
      if a.Advance? && a.pid in Run(before).procs { ActOk(Run(before).w, Run(before).procs[a.pid], a.d); }
    }
  }

  /** Exactly when the record can still be made: while the process that made the refund is
      about to write it. */
  lemma RecordedLaterIff(acts: seq<Action>, id: Id)
    requires var w := Run(acts).w; id in w.payments && w.payments[id].status.Refunded? && !Recorded(w, id)
    ensures (exists more :: Recorded(Run(acts + more).w, id))
       <==> exists p :: p in Run(acts).procs && Run(acts).procs[p].RefundRecord? && Run(acts).procs[p].id == id
  {
    var s := Run(acts);
    if p :| p in s.procs && s.procs[p].RefundRecord? && s.procs[p].id == id {
      var more := [Advance(p, Delivered)];
      assert (acts + more)[..|acts|] == acts;
      assert Recorded(Run(acts + more).w, id);
    } else {
      forall more ensures !Recorded(Run(acts + more).w, id) {
        StaysUnrecordable(acts, more, id);
      }
    }
  }

  // ---- the service ---------------------------------------------------------------------

  class PaymentRuntime {
    var payments: map<Id, Payment>
    var index: map<(Id, string), Id>
    var refunds: map<Id, seq<int>>
    var procs: map<nat, Pc>
    ghost var acts: seq<Action>

    function Now(): World
      reads this
    {
      World(payments, index, refunds)
    }

    ghost predicate Valid()
      reads this
    {
      Run(acts) == Sys(Now(), procs)
    }

    constructor ()
      ensures Valid() && procs == map[]
    {
      payments, index, refunds, procs, acts := map[], map[], map[], map[], [];
    }

    /** This process and the others: `a` happens. */
    method Happen(a: Action)
      requires Valid()
      modifies this
      ensures Valid() && acts == old(acts) + [a]
      ensures Sys(Now(), procs) == Step(old(Sys(Now(), procs)), a)
    {
      assert (acts + [a])[..|acts|] == acts;
      var s := Step(Sys(Now(), procs), a);
      payments, index, refunds, procs := s.w.payments, s.w.index, s.w.refunds, s.procs;
      acts := acts + [a];
    }

    method Others(me: nat)
      requires Valid() && me in procs
      modifies this
      ensures Valid() && old(acts) <= acts && me in procs && procs[me] == old(procs[me])
    {
      var n: nat := *;
      while n > 0
        invariant Valid() && old(acts) <= acts && me in procs && procs[me] == old(procs[me])
      {
        var a: Action := *;
        if a.pid != me { Happen(a); }
        n := n - 1;
      }
    }

    /** `me` has made the access it was about to make: the tables are what that leaves. */
    method Took(me: nat, pc: Pc, ghost d: Delivery, ghost before: World)
      requires me in procs && Run(acts) == Sys(before, procs) && (Now(), pc) == Act(before, procs[me], d)
      modifies this`procs, this`acts
      ensures Valid() && acts == old(acts) + [Advance(me, d)] && procs == old(procs)[me := pc]
    {
      assert (acts + [Advance(me, d)])[..|acts|] == acts;
      procs := procs[me := pc];
      acts := acts + [Advance(me, d)];
    }

    /** A payment that is reported is one for what was asked for. */
    static predicate Answers(reply: Reply, call: Call) {
      reply.Paid? ==> reply.payment.order == call.order && reply.payment.amount == call.amount
    }

    /** The row holds what the call is for. */
    predicate Stored(id: Id, call: Call, status: PaymentStatus)
      reads this
    {
      id in payments && payments[id] == Payment(call.user, call.key, call.order, call.amount, status)
    }

    /** GetPaymentByIdempotency, and what the caller makes of the answer. */
    method LookUp(me: nat, call: Call) returns (replay: Option<Reply>)
      requires Valid() && me in procs && (procs[me] == AuthCheck(call) || procs[me] == AuthRefetch(call))
      modifies this
      ensures Valid() && old(acts) <= acts && me in procs
      ensures procs[me] == if replay.Some? then Done(replay.value)
                           else if old(procs[me]).AuthCheck? then AuthCreate(call, NIL_ID)
                           else Done(Failed(IdempotencyConflict))
      ensures replay.Some? ==> Answers(replay.value, call) && replay.value != Failed(Timeout)
    {
      Others(me);
      var d: Delivery := *;
      replay := None;
      if d.Delivered? && (call.user, call.key) in index && index[(call.user, call.key)] in payments {
        var id := index[(call.user, call.key)];
        replay := Some(Replay(call, id, payments[id]));
      }
      Took(me, if replay.Some? then Done(replay.value)
               else if procs[me].AuthCheck? then AuthCreate(call, NIL_ID)
               else Done(Failed(IdempotencyConflict)), d, Now());
    }

    /** CreatePayment: validation, then an insert under the unique index: of a captured payment if
        the gateway approved, which is reported, and of a declined one if it refused, which is
        reported as its error. */
    method CreatePayment(me: nat, call: Call, id: Id) returns (conflict: bool)
      requires Valid() && me in procs && procs[me] == AuthCreate(call, id)
      modifies this
      ensures Valid() && old(acts) <= acts && me in procs
      ensures if conflict then procs[me] == AuthRefetch(call) else procs[me].Done?
      ensures procs[me].Done? && procs[me].reply != Failed(Storage) ==>
                if procs[me].reply.Paid? then
                  call.verdict.Approve? && Stored(id, call, Success) && procs[me].reply == Paid(id, payments[id])
                else
                  call.verdict.Refuse? && Stored(id, call, Declined) && procs[me].reply == Failed(call.verdict.error)
    {
      Others(me);
      var d: Delivery := *;
      ghost var before := Now();
      if d.NotSent? || id == NIL_ID || call.order == NIL_ID || call.user == NIL_ID || call.amount <= 0 {
        Took(me, Done(Failed(Storage)), d, before);
        return false;
      }
      if (call.user, call.key) in index || id in payments {
        conflict := d.Delivered?;
        Took(me, if conflict then AuthRefetch(call) else Done(Failed(Storage)), d, before);
        return;
      }
      var p := Payment(call.user, call.key, call.order, call.amount,
                       if call.verdict.Approve? then Success else Declined);
      payments := payments[id := p];
      index := index[(call.user, call.key) := id];
      Took(me, Done(if !d.Delivered? then Failed(Storage)
                    else if call.verdict.Approve? then Paid(id, p) else Failed(call.verdict.error)), d, before);
      conflict := false;
    }

    method AuthorizeAndCapture(me: nat, order: Id, user: Id, amount: int, token: string, key: string)
      returns (reply: Reply)
      requires Valid() && me !in procs
      modifies this
      ensures Valid() && old(acts) <= acts && me in procs && procs[me] == Done(reply)
      ensures reply.Paid? ==>
                && reply.id in payments && !payments[reply.id].status.Declined?
                && payments[reply.id].order == order && payments[reply.id].amount == amount
      ensures reply == Failed(Timeout) ==> VerdictOf(token) == Refuse(Timeout)
    {
      var call := Call(user, key, order, amount, VerdictOf(token));
      var freshKey: string := *;
      Happen(Authorize(me, call, freshKey));
      if amount <= 0 { return Failed(InvalidAmount); }
      if key == "" { call := call.(key := freshKey); }
      reply := CheckThenCreate(me, call);
      Reachable(acts);
      assert PcOk(Now(), procs[me]);
    }

    method CheckThenCreate(me: nat, call: Call) returns (reply: Reply)
      requires Valid() && me in procs && procs[me] == AuthCheck(call)
      modifies this
      ensures Valid() && old(acts) <= acts && me in procs && procs[me] == Done(reply)
      ensures Answers(reply, call) && (reply == Failed(Timeout) ==> call.verdict == Refuse(Timeout))
    {
      hide Valid, Act;
      var replay := LookUp(me, call);
      if replay.Some? { return replay.value; }
      var newId: Id := *;
      Happen(Draw(me, newId));
      var conflict := CreatePayment(me, call, newId);
      if conflict {
        replay := LookUp(me, call);
      }
      reply := procs[me].reply;
    }

    method Refund(me: nat, id: Id, amount: int) returns (reply: Reply)
      requires Valid() && me !in procs
      modifies this
      ensures Valid() && old(acts) <= acts && me in procs && procs[me] == Done(reply)
      ensures reply.RefundMade? ==> Recorded(Now(), id) && id in payments && payments[id].status.Refunded?
    {
      Happen(Action.Refund(me, id, amount));
      if amount <= 0 { return Failed(InvalidAmount); }
      reply := CheckRefundable(me, id, amount);
      if procs[me].Done? { return; }
      reply := TransitionPaymentStatus(me, id, amount);
      if procs[me].Done? { return; }
      reply := CreateRefund(me, id, amount);
      Reachable(acts);
    }

    method CheckRefundable(me: nat, id: Id, amount: int) returns (reply: Reply)
      requires Valid() && me in procs && procs[me] == RefundRead(id, amount)
      modifies this
      ensures Valid() && old(acts) <= acts && me in procs && reply.Failed?
      ensures procs[me] == Done(reply) || procs[me] == RefundMark(id, amount)
    {
      Others(me);
      var d: Delivery := *;
      reply := Failed(NotFound);
      if d.Delivered? && id in payments {
        var p := payments[id];
        if p.status.Refunded? { reply := Failed(AlreadyRefunded); }
        else if !p.status.Success? { reply := Failed(CannotBeRefunded); }
        else if amount > p.amount { reply := Failed(InvalidAmount); }
        else {
          Took(me, RefundMark(id, amount), d, Now());
          return;
        }
      }
      Took(me, Done(reply), d, Now());
    }

    /** UPDATE payments SET status = REFUNDED WHERE id = $1 AND status = SUCCESS. */
    method TransitionPaymentStatus(me: nat, id: Id, amount: int) returns (reply: Reply)
      requires Valid() && me in procs && procs[me] == RefundMark(id, amount)
      modifies this
      ensures Valid() && old(acts) <= acts && me in procs && reply.Failed?
      ensures procs[me] == Done(reply)
              || (procs[me] == RefundRecord(id, amount) && id in payments && payments[id].status.Refunded?)
    {
      Others(me);
      var d: Delivery := *;
      ghost var before := Now();
      reply := Failed(Storage);
      if !d.NotSent? && id in payments {
        if payments[id].status.Refunded? { reply := Failed(AlreadyRefunded); }
        else if !payments[id].status.Success? { reply := Failed(CannotBeRefunded); }
        else {
          payments := payments[id := payments[id].(status := Refunded)];
          if d.Delivered? {
            Took(me, RefundRecord(id, amount), d, before);
            return;
          }
        }
      }
      Took(me, Done(reply), d, before);
    }

    method CreateRefund(me: nat, id: Id, amount: int) returns (reply: Reply)
      requires Valid() && me in procs && procs[me] == RefundRecord(id, amount)
      modifies this
      ensures Valid() && old(acts) <= acts && me in procs && procs[me] == Done(reply)
      ensures reply.RefundMade? ==> Recorded(Now(), id)
    {
      Others(me);
      var d: Delivery := *;
      ghost var before := Now();
      reply := Failed(Storage);
      if !d.NotSent? {
        refunds := refunds[id := (if id in refunds then refunds[id] else []) + [amount]];
        if d.Delivered? { reply := RefundMade(amount); }
      }
      Took(me, Done(reply), d, before);
    }
  }
}
