/** The inbox processor, with the inbox tables as fields that every consumer changes. Each
    method lets the others run before it touches them, and records what it did as a step of
    `InboxRuns`. */
module InboxProcessor {
  import opened Common
  import opened InboxRuns
  import P = InboxPoison

  datatype Started = Yes | Skip(failed: bool)

  class ProcessorRuntime {
    const atomic: bool
    var rows: map<Key, Status>
    var deadLetters: seq<string>
    var runs: map<Key, seq<Outcome>>
    var procs: map<nat, Pc>
    ghost var acts: seq<Action>

    function Now(): World
      reads this
    {
      World(rows, deadLetters, runs)
    }

    ghost predicate Valid()
      reads this
    {
      Run(atomic, acts) == Sys(Now(), procs)
    }

    /** The dead letters that `me` has filed itself. */
    ghost function Filed(me: nat): nat
      reads this
    {
      P.FiledBy(atomic, acts, me)
    }

    constructor (atomic: bool)
      ensures Valid() && procs == map[] && this.atomic == atomic
    {
      this.atomic := atomic;
      rows, deadLetters, runs, procs, acts := map[], [], map[], map[], [];
    }

    method Happen(a: Action)
      requires Valid()
      modifies this
      ensures Valid() && acts == old(acts) + [a]
      ensures Sys(Now(), procs) == Step(atomic, old(Sys(Now(), procs)), a)
      ensures old(deadLetters) <= deadLetters && forall p :: p != a.pid ==> Filed(p) == old(Filed(p))
      ensures !a.Go? ==> Filed(a.pid) == old(Filed(a.pid))
    {
      forall p: nat ensures p != a.pid || !a.Go? ==> P.FiledBy(atomic, acts + [a], p) == P.FiledBy(atomic, acts, p) {
        P.FiledByOneMore(atomic, acts, a, p);
      }
      P.FiledByOneMore(atomic, acts, a, 0);
      var s := Step(atomic, Sys(Now(), procs), a);
      rows, deadLetters, runs, procs := s.w.rows, s.w.dead, s.w.runs, s.procs;
      acts := acts + [a];
    }

    method Others(me: nat)
      requires Valid() && me in procs
      modifies this
      ensures Valid() && old(acts) <= acts && me in procs && procs[me] == old(procs[me])
      ensures old(deadLetters) <= deadLetters && Filed(me) == old(Filed(me))
    {
      var n: nat := *;
      while n > 0
        invariant Valid() && old(acts) <= acts && me in procs && procs[me] == old(procs[me])
        invariant old(deadLetters) <= deadLetters && Filed(me) == old(Filed(me))
      {
        var a: Action := *;
        if a.pid != me { Happen(a); }
        n := n - 1;
      }
    }

    /** `me` has made the access it was about to make: the fields are what that leaves. */
    method Took(me: nat, pc: Pc, ghost a: Action, ghost before: World)
      requires a.Go? && a.pid == me && me in procs
      requires Run(atomic, acts) == Sys(before, procs) && (Now(), pc) == Act(atomic, before, procs[me], a)
      modifies this`procs, this`acts
      ensures Valid() && acts == old(acts) + [a] && procs == old(procs)[me := pc]
      ensures Filed(me) == old(Filed(me)) + if |deadLetters| > |before.dead| then 1 else 0
    {
      P.FiledByOneMore(atomic, acts, a, me);
      procs := procs[me := pc];
      acts := acts + [a];
    }

    /** Insert or inspect. The Postgres repository has only looked when it meets FAILED. */
    method TryStartProcessing(me: nat, key: Key) returns (started: Started)
      requires Valid() && me in procs && procs[me] == Starting(key)
      modifies this
      ensures Valid() && old(acts) <= acts && me in procs
      ensures procs[me] == if started.Yes? then Handling(key) else Done(started.failed)
      ensures old(deadLetters) <= deadLetters && Filed(me) == old(Filed(me))
    {
      Others(me);
      var d: Delivery := *;
      ghost var before := Now();
      ghost var a := Go(me, d, Handled, "");
      started := Skip(!d.Delivered?);
      if d.NotSent? {
        Took(me, Done(true), a, before);
        return;
      }
      if key !in rows || (rows[key].Failed? && atomic) {
        rows := rows[key := Processing];
        if d.Delivered? { started := Yes; }
        Took(me, if d.Delivered? then Handling(key) else Done(true), a, before);
      } else if rows[key].Failed? {
        Took(me, if d.Delivered? then Restarting(key) else Done(true), a, before);
        if d.Delivered? { started := ResetFailed(me, key); }
      } else {
        Took(me, Done(!d.Delivered?), a, before);
      }
    }

    /** The Postgres repository's unconditional UPDATE after it has read FAILED. */
    method ResetFailed(me: nat, key: Key) returns (started: Started)
      requires Valid() && me in procs && procs[me] == Restarting(key)
      modifies this
      ensures Valid() && old(acts) <= acts && me in procs
      ensures procs[me] == if started.Yes? then Handling(key) else Done(started.failed)
      ensures old(deadLetters) <= deadLetters && Filed(me) == old(Filed(me))
    {
      Others(me);
      var d: Delivery := *;
      ghost var before := Now();
      if !d.NotSent? { rows := rows[key := Processing]; }
      started := if d.Delivered? then Yes else Skip(true);
      Took(me, if d.Delivered? then Handling(key) else Done(true), Go(me, d, Handled, ""), before);
    }

    /** The domain handler runs, takes its time, and returns. */
    method Handle(me: nat, key: Key) returns (outcome: Outcome)
      requires Valid() && me in procs && procs[me] == Handling(key)
      modifies this
      ensures Valid() && old(acts) <= acts && me in procs && procs[me] == After(key, outcome)
      ensures old(deadLetters) <= deadLetters && Filed(me) == old(Filed(me))
    {
      Others(me);
      outcome := *;
      ghost var before := Now();
      runs := runs[key := (if key in runs then runs[key] else []) + [outcome]];
      Took(me, After(key, outcome), Go(me, Delivered, outcome, ""), before);
    }

    /** SaveDeadLetter for a message that has not got as far as the inbox table. */
    method RouteToDLQ(me: nat, source: string, silent: bool) returns (failed: bool, ghost write: Delivery)
      requires Valid() && me in procs && procs[me] == Rejecting(source, silent)
      modifies this
      ensures Valid() && old(acts) <= acts && me in procs && procs[me] == Done(failed)
      ensures silent ==> !failed
      ensures !failed && !silent ==>
                deadLetters != [] && (source != "" ==> deadLetters[|deadLetters| - 1] == source)
      ensures Filed(me) == old(Filed(me)) + if write.NotSent? then 0 else 1
      ensures !write.NotSent? && source != "" ==> source in deadLetters
    {
      Others(me);
      var d: Delivery, unknown: string := *, *;
      write := d;
      ghost var before := Now();
      if !d.NotSent? {
        deadLetters := deadLetters + [if source == "" then "unknown-" + unknown else source];
      }
      failed := !silent && !d.Delivered?;
      Took(me, Done(failed), Go(me, d, Handled, unknown), before);
    }

    method RoutePoison(me: nat, key: Key) returns (ghost write: Delivery)
      requires Valid() && me in procs && procs[me] == Poisoned(key)
      modifies this
      ensures Valid() && old(acts) <= acts && me in procs && procs[me] == Completing(key, Poison)
      ensures Filed(me) == old(Filed(me)) + if write.NotSent? then 0 else 1
      ensures !write.NotSent? ==> key.0 in deadLetters
    {
      Others(me);
      var d: Delivery := *;
      write := d;
      ghost var before := Now();
      if !d.NotSent? { deadLetters := deadLetters + [key.0]; }
      Took(me, Completing(key, Poison), Go(me, d, Handled, ""), before);
    }

    method MarkCompleted(me: nat, key: Key, outcome: Outcome) returns (failed: bool)
      requires Valid() && me in procs && procs[me] == Completing(key, outcome)
      modifies this
      ensures Valid() && old(acts) <= acts && me in procs && procs[me] == Done(failed)
      ensures outcome.Handled? && !failed && key in rows ==> rows[key].Completed?
      ensures old(deadLetters) <= deadLetters && Filed(me) == old(Filed(me))
    {
      Others(me);
      var d: Delivery := *;
      ghost var before := Now();
      if !d.NotSent? && key in rows { rows := rows[key := Completed]; }
      failed := outcome.Handled? && !d.Delivered?;
      Took(me, Done(failed), Go(me, d, Handled, ""), before);
    }

    method MarkFailed(me: nat, key: Key) returns (failed: bool)
      requires Valid() && me in procs && procs[me] == Failing(key)
      modifies this
      ensures Valid() && old(acts) <= acts && me in procs && procs[me] == Done(failed) && failed
      ensures old(deadLetters) <= deadLetters && Filed(me) == old(Filed(me))
    {
      Others(me);
      var d: Delivery := *;
      ghost var before := Now();
      if !d.NotSent? && key in rows { rows := rows[key := Failed]; }
      failed := true;
      Took(me, Done(true), Go(me, d, Handled, ""), before);
    }

    /** What the outcome of the handler leads to; `write` is what became of the dead letter, if
        one was due. */
    method Conclude(me: nat, key: Key, outcome: Outcome) returns (failed: bool, ghost write: Option<Delivery>)
      requires Valid() && me in procs && procs[me] == After(key, outcome)
      modifies this
      ensures Valid() && old(acts) <= acts && me in procs && procs[me] == Done(failed)
      ensures outcome.Transient? ==> failed
      ensures outcome.Handled? && !failed && key in rows ==> rows[key].Completed?
      ensures write.Some? <==> outcome.Poison?
      ensures Filed(me) == old(Filed(me)) + if write.Some? && !write.value.NotSent? then 1 else 0
      ensures write.Some? && !write.value.NotSent? ==> key.0 in deadLetters
    {
      hide Valid, Filed;
      write := None;
      match outcome {
        case Poison =>
          ghost var d := RoutePoison(me, key);
          write := Some(d);
          failed := MarkCompleted(me, key, outcome);
        case Transient => failed := MarkFailed(me, key);
        case _ => failed := MarkCompleted(me, key, outcome);
      }
    }

    /** Returns whether the broker gets an error for the message, and what the handler made of
        it if it ran: never for a message without an identity or with a malformed payload. Those,
        and a message that the handler rejects, are filed as dead letters, unless that write is
        not made, and no other message is. */
    method ProcessMessage(me: nat, e: Envelope, group: string)
      returns (failed: bool, ran: Option<Outcome>, ghost write: Option<Delivery>)
      requires Valid() && me !in procs
      modifies this
      ensures Valid() && old(acts) <= acts && me in procs && procs[me] == Done(failed)
      ensures MessageId(e) == "" || !e.valid ==> ran.None?
      ensures MessageId(e) != "" && !e.valid ==> !failed
      ensures ran == Some(Transient) ==> failed
      ensures ran == Some(Handled) && !failed && (MessageId(e), group) in rows
          ==> rows[(MessageId(e), group)].Completed?
      ensures write.Some? <==> MessageId(e) == "" || !e.valid || ran == Some(Poison)
      ensures Filed(me) == old(Filed(me)) + if write.Some? && !write.value.NotSent? then 1 else 0
      ensures write.Some? && !write.value.NotSent? && MessageId(e) != "" ==> MessageId(e) in deadLetters
    {
      Happen(Receive(me, e, group));
      hide Valid, Filed;
      ran, write := None, None;
      var messageId := MessageId(e);
      ghost var d;
      if messageId == "" {
        failed, d := RouteToDLQ(me, "", false);
        write := Some(d);
        return;
      }
      if !e.valid {
        failed, d := RouteToDLQ(me, messageId, true);
        write := Some(d);
        return;
      }
      var key := (messageId, group);
      var started := TryStartProcessing(me, key);
      if started.Skip? { failed := started.failed; return; }
      var outcome := Handle(me, key);
      failed, write := Conclude(me, key, outcome);
      ran := Some(outcome);
    }
  }
}
