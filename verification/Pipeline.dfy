/** The outbox, the broker and the inbox as one system: what the pollers publish, any consumer
    may receive at any later time, any number of times. */
module Pipeline {
  import opened Common
  import Out = OutboxRuns
  import OutS = OutboxSafety
  import In = InboxRuns

  /** `foreign` holds the identities of messages that came from elsewhere. */
  datatype Sys = Sys(outbox: Out.Sys, inbox: In.Sys, foreign: set<string>)

  datatype Action = OfOutbox(o: Out.Action) | OfInbox(i: In.Action)

  /** A consumer receives what has been published. A message from elsewhere does not carry the
      identity of an outbox row, nor does a new row take the identity of such a message. */
  predicate Can(s: Sys, a: Action) {
    match a
    case OfOutbox(o) => o.Insert? ==> o.id !in s.foreign
    case OfInbox(i) => i.Receive? ==> i.e in s.outbox.w.log || In.MessageId(i.e) !in s.outbox.w.rows
  }

  function Step(cfg: Out.Config, atomic: bool, s: Sys, a: Action): Sys {
    if !Can(s, a) then s else
      match a
      case OfOutbox(o) => s.(outbox := Out.Step(cfg, s.outbox, o))
      case OfInbox(i) =>
        Sys(s.outbox, In.Step(atomic, s.inbox, i),
            if i.Receive? && i.e !in s.outbox.w.log then s.foreign + {In.MessageId(i.e)} else s.foreign)
  }

  function Run(cfg: Out.Config, atomic: bool, acts: seq<Action>): Sys {
    if acts == [] then Sys(Out.Run(cfg, []), In.Run(atomic, []), {})
    else Step(cfg, atomic, Run(cfg, atomic, acts[..|acts| - 1]), acts[|acts| - 1])
  }

  /** The outbox's and the inbox's own parts of a run. */
  function OutboxPart(cfg: Out.Config, atomic: bool, acts: seq<Action>): seq<Out.Action> {
    if acts == [] then [] else
      var (before, a) := (acts[..|acts| - 1], acts[|acts| - 1]);
      OutboxPart(cfg, atomic, before) + if a.OfOutbox? && Can(Run(cfg, atomic, before), a) then [a.o] else []
  }

  function InboxPart(cfg: Out.Config, atomic: bool, acts: seq<Action>): seq<In.Action> {
    if acts == [] then [] else
      var (before, a) := (acts[..|acts| - 1], acts[|acts| - 1]);
      InboxPart(cfg, atomic, before) + if a.OfInbox? && Can(Run(cfg, atomic, before), a) then [a.i] else []
  }

  /** The composition adds nothing: each half is in a state that it reaches on its own. */
  lemma {:induction false} EachHalfRuns(cfg: Out.Config, atomic: bool, acts: seq<Action>)
    ensures Run(cfg, atomic, acts).outbox == Out.Run(cfg, OutboxPart(cfg, atomic, acts))
    ensures Run(cfg, atomic, acts).inbox == In.Run(atomic, InboxPart(cfg, atomic, acts))
  {
    hide Out.Step, In.Step;
    if acts != [] {
      var (before, a) := (acts[..|acts| - 1], acts[|acts| - 1]);
      EachHalfRuns(cfg, atomic, before);
      var (o, i) := (OutboxPart(cfg, atomic, before), InboxPart(cfg, atomic, before));
      if Can(Run(cfg, atomic, before), a) {
        match a
        case OfOutbox(x) =>
          assert (o + [x])[..|o|] == o;
          assert i + [] == i;
        case OfInbox(x) =>
          assert (i + [x])[..|i|] == i;
          assert o + [] == o;
      } else {
        assert o + [] == o && i + [] == i;
      }
    }
  }

  predicate Known(s: Sys, id: string) {
    OutS.InLog(s.outbox.w.log, id) || id in s.foreign
  }

  predicate KeyOf(pc: In.Pc, key: In.Key) {
    (pc.Starting? || pc.Restarting? || pc.Handling? || pc.Poisoned? || pc.Completing? || pc.Failing?) && pc.key == key
  }

  /** Consumers only deal with messages that came out of the broker. */
  ghost predicate Sourced(s: Sys) {
    && (forall id :: id in s.foreign ==> id !in s.outbox.w.rows)
    && (forall p, key :: p in s.inbox.procs && KeyOf(s.inbox.procs[p], key) ==> Known(s, key.0))
    && (forall key :: key in s.inbox.w.runs ==> Known(s, key.0))
  }

  lemma LogGrows(s: Sys, s': Sys, id: string)
    requires Known(s, id) && s.outbox.w.log <= s'.outbox.w.log && s.foreign <= s'.foreign
    ensures Known(s', id)
  {
    if OutS.InLog(s.outbox.w.log, id) {
      var i :| 0 <= i < |s.outbox.w.log| && s.outbox.w.log[i].header == id;
      assert s'.outbox.w.log[i].header == id;
    }
  }

  lemma OutboxStepIsSourced(cfg: Out.Config, atomic: bool, s: Sys, a: Action)
    requires OutS.Inv(cfg, s.outbox) && Sourced(s) && a.OfOutbox? && Can(s, a)
    ensures Sourced(Step(cfg, atomic, s, a))
  {
    var s' := Step(cfg, atomic, s, a);
    OutS.StepKeepsInv(cfg, s.outbox, a.o);
    OutboxKeys(cfg, s.outbox, a.o);
    hide OutS.Inv, Out.Step;
    forall id | Known(s, id) ensures Known(s', id) { LogGrows(s, s', id); }
  }

  lemma OutboxKeys(cfg: Out.Config, s: Out.Sys, a: Out.Action)
    ensures Out.Step(cfg, s, a).w.rows.Keys <= s.w.rows.Keys + if a.Insert? then {a.id} else {}
  {
    if a.Go? && a.pid in s.procs { OutS.SameRows(cfg, s.w, s.procs[a.pid], a); }
  }

  lemma InboxKeys(atomic: bool, s: In.Sys, a: In.Action, key: In.Key)
    ensures var s' := In.Step(atomic, s, a);
            && (key in s'.w.runs && key !in s.w.runs ==> exists p :: p in s.procs && KeyOf(s.procs[p], key))
            && (forall p :: p in s'.procs && KeyOf(s'.procs[p], key) ==>
                  (p in s.procs && KeyOf(s.procs[p], key))
                  || (a.Receive? && In.MessageId(a.e) == key.0 && a.e.valid && key.0 != ""))
  {
    if a.Go? && a.pid in s.procs && KeyOf(s.procs[a.pid], key) {
    }
  }

  lemma InboxStepIsSourced(cfg: Out.Config, atomic: bool, s: Sys, a: Action)
    requires OutS.Inv(cfg, s.outbox) && Sourced(s) && a.OfInbox? && Can(s, a)
    ensures Sourced(Step(cfg, atomic, s, a))
  {
    var s' := Step(cfg, atomic, s, a);
    if a.i.Receive? && a.i.e in s.outbox.w.log {
      assert OutS.SentOk(s.outbox.w, a.i.e) && OutS.RowOk(cfg, s.outbox.w, a.i.e.header);
      assert OutS.InLog(s.outbox.w.log, In.MessageId(a.i.e));
    }
    hide OutS.Inv, In.Step, OutS.InLog;
    forall key ensures key in s'.inbox.w.runs ==> Known(s', key.0) {
      InboxKeys(atomic, s.inbox, a.i, key);
    }
    forall p, key | p in s'.inbox.procs && KeyOf(s'.inbox.procs[p], key) ensures Known(s', key.0) {
      InboxKeys(atomic, s.inbox, a.i, key);
    }
  }

  lemma NothingIsSourced(cfg: Out.Config, atomic: bool)
    ensures Sourced(Run(cfg, atomic, []))
  {
  }

  lemma {:induction false} Reachable(cfg: Out.Config, atomic: bool, acts: seq<Action>)
    ensures Sourced(Run(cfg, atomic, acts)) && OutS.Inv(cfg, Run(cfg, atomic, acts).outbox)
  {
    hide OutS.Inv, Sourced, Out.Step, In.Step;
    EachHalfRuns(cfg, atomic, acts);
    OutS.Reachable(cfg, OutboxPart(cfg, atomic, acts));
    if acts == [] {
      NothingIsSourced(cfg, atomic);
    } else {
      var (before, a) := (acts[..|acts| - 1], acts[|acts| - 1]);
      Reachable(cfg, atomic, before);
      if Can(Run(cfg, atomic, before), a) {
        match a
        case OfOutbox(_) => OutboxStepIsSourced(cfg, atomic, Run(cfg, atomic, before), a);
        case OfInbox(_) => InboxStepIsSourced(cfg, atomic, Run(cfg, atomic, before), a);
      }
    }
  }

  // ---- the guarantee -------------------------------------------------------------------

  /** From the row of the outbox to the handler. However many pollers lease and publish a
      message, however many copies of it the broker delivers and how often: in every group its
      handler runs alone, and at most one of its runs is final. It runs only for a message that
      has been published, and what the table calls PUBLISHED can be received. */
  lemma ExactlyOnceEffect(cfg: Out.Config, atomic: bool, acts: seq<Action>, id: string, group: string)
    requires var s := Run(cfg, atomic, acts);
             id in s.outbox.w.rows && In.Guarded(atomic, s.inbox.w, (id, group))
    ensures var s := Run(cfg, atomic, acts);
            var copy := Envelope(id, s.outbox.w.rows[id].aggregate, true);
            && (In.AllTransient(In.Runs(s.inbox.w, (id, group))) || In.Concluded(In.Runs(s.inbox.w, (id, group))))
            && (forall p, q ::
                  p in s.inbox.procs && q in s.inbox.procs && s.inbox.procs[p] == s.inbox.procs[q]
                    == In.Handling((id, group))
                  ==> p == q)
            && (In.Runs(s.inbox.w, (id, group)) != [] ==> copy in s.outbox.w.log)
            && (forall p :: p in s.inbox.procs && s.inbox.procs[p] == In.Handling((id, group)) ==>
                  copy in s.outbox.w.log)
            && (s.outbox.w.rows[id].status.Published? ==> copy in s.outbox.w.log)
  {
    var s := Run(cfg, atomic, acts);
    var key := (id, group);
    EachHalfRuns(cfg, atomic, acts);
    In.OneFinalRun(atomic, InboxPart(cfg, atomic, acts), key);
    Reachable(cfg, atomic, acts);
    assert OutS.RowOk(cfg, s.outbox.w, id);
    if Known(s, id) { CopyOf(cfg, s, id); }
    forall p | p in s.inbox.procs && s.inbox.procs[p] == In.Handling(key) ensures Known(s, id) {
      assert KeyOf(s.inbox.procs[p], key);
    }
  }

  lemma CopyOf(cfg: Out.Config, s: Sys, id: string)
    requires OutS.Inv(cfg, s.outbox) && Sourced(s) && id in s.outbox.w.rows && Known(s, id)
    ensures Envelope(id, s.outbox.w.rows[id].aggregate, true) in s.outbox.w.log
  {
    var i :| 0 <= i < |s.outbox.w.log| && s.outbox.w.log[i].header == id;
    assert OutS.SentOk(s.outbox.w, s.outbox.w.log[i]);
  }
}
