/** What becomes of a message: of one that its handler rejects in every interleaving, and of any
    when nothing goes wrong on the way. */
module InboxPoison {
  import opened Common
  import opened InboxRuns

  // ---- rejected messages ---------------------------------------------------------------

  function Poisons(runs: seq<Outcome>): nat {
    if runs == [] then 0 else Poisons(runs[..|runs| - 1]) + if runs[|runs| - 1].Poison? then 1 else 0
  }

  /** The processes that still have to file a dead letter for the message. */
  function Owing(s: Sys, key: Key): set<nat> {
    set p | p in s.procs && s.procs[p] == Poisoned(key)
  }

  /** The step files a dead letter for the message: its identity is now the last one on file. */
  predicate Files(s: Sys, s': Sys, a: Action, key: Key) {
    && a.Go? && a.pid in s.procs && s.procs[a.pid] == Poisoned(key)
    && s'.w.dead == s.w.dead + [key.0]
  }

  /** The step gives up on it: the write is not made, or the process crashes before. */
  predicate Drops(s: Sys, a: Action, key: Key) {
    && (a.Go? || a.Crash?) && a.pid in s.procs && s.procs[a.pid] == Poisoned(key)
    && (a.Go? ==> a.d.NotSent?)
  }

  function Filed(atomic: bool, acts: seq<Action>, key: Key): nat {
    if acts == [] then 0
    else
      var (before, a) := (acts[..|acts| - 1], acts[|acts| - 1]);
      Filed(atomic, before, key) + if Files(Run(atomic, before), Run(atomic, acts), a, key) then 1 else 0
  }

  function Dropped(atomic: bool, acts: seq<Action>, key: Key): nat {
    if acts == [] then 0
    else
      var (before, a) := (acts[..|acts| - 1], acts[|acts| - 1]);
      Dropped(atomic, before, key) + if Drops(Run(atomic, before), a, key) then 1 else 0
  }

  lemma OneRunMore(runs: seq<Outcome>, outcome: Outcome)
    ensures Poisons(runs + [outcome]) == Poisons(runs) + if outcome.Poison? then 1 else 0
  {
    assert (runs + [outcome])[..|runs|] == runs;
  }

  lemma OwingMoves(s: Sys, s': Sys, pid: nat, key: Key)
    requires forall p :: p != pid ==> (p in s.procs <==> p in s'.procs) && (p in s.procs ==> s'.procs[p] == s.procs[p])
    ensures |Owing(s', key)| + (if pid in s.procs && s.procs[pid] == Poisoned(key) then 1 else 0)
         == |Owing(s, key)| + (if pid in s'.procs && s'.procs[pid] == Poisoned(key) then 1 else 0)
  {
    var (before, after) := (Owing(s, key), Owing(s', key));
    assert pid in before <==> pid in s.procs && s.procs[pid] == Poisoned(key);
    assert pid in after <==> pid in s'.procs && s'.procs[pid] == Poisoned(key);
    assert before - {pid} == after - {pid};
    hide Owing;
    OneMember(before, after, pid);
  }

  /** What one step does to the books of a message. */
  lemma StepBooks(atomic: bool, s: Sys, a: Action, key: Key)
    ensures var s' := Step(atomic, s, a);
            Poisons(Runs(s'.w, key)) + |Owing(s, key)|
            == Poisons(Runs(s.w, key)) + |Owing(s', key)|
               + (if Files(s, s', a, key) then 1 else 0) + (if Drops(s, a, key) then 1 else 0)
  {
    var s' := Step(atomic, s, a);
    OwingMoves(s, s', a.pid, key);
    if a.Go? && a.pid in s.procs && s.procs[a.pid] == Handling(key) {
      OneRunMore(Runs(s.w, key), a.outcome);
    }
    hide Owing, Poisons;
    if a.Go? && a.pid in s.procs && s.procs[a.pid] == Poisoned(key) {
      assert |s'.w.dead| == |s.w.dead| + if a.d.NotSent? then 0 else 1;
    }
  }

  /** Every handler run that ended in the rejection of the message has had a dead letter filed for
      it, or its process is still about to file one, or it was lost on the way: the write was not
      made, or the process crashed before it. */
  lemma {:induction false} PoisonIsFiled(atomic: bool, acts: seq<Action>, key: Key)
    ensures var s := Run(atomic, acts);
            Poisons(Runs(s.w, key)) == Filed(atomic, acts, key) + |Owing(s, key)| + Dropped(atomic, acts, key)
  {
    if acts != [] {
      var (before, a) := (acts[..|acts| - 1], acts[|acts| - 1]);
      PoisonIsFiled(atomic, before, key);
      StepBooks(atomic, Run(atomic, before), a, key);
      hide Step, Poisons, Owing, Files, Drops;
    }
  }

  /** Who writes a dead letter: a process whose handler rejected the message, or one that met a
      message without identity or with a malformed payload. */
  predicate Writes(s: Sys, a: Action) {
    && a.Go? && a.pid in s.procs && !a.d.NotSent?
    && (s.procs[a.pid].Poisoned? || s.procs[a.pid].Rejecting?)
  }

  function Written(atomic: bool, acts: seq<Action>): nat {
    if acts == [] then 0
    else
      var (before, a) := (acts[..|acts| - 1], acts[|acts| - 1]);
      Written(atomic, before) + if Writes(Run(atomic, before), a) then 1 else 0
  }

  /** And nothing else is filed. */
  lemma {:induction false} NothingElseIsFiled(atomic: bool, acts: seq<Action>)
    ensures |Run(atomic, acts).w.dead| == Written(atomic, acts)
  {
    if acts != [] {
      var (before, a) := (acts[..|acts| - 1], acts[|acts| - 1]);
      NothingElseIsFiled(atomic, before);
      OneLetter(atomic, Run(atomic, before), a);
      hide Step, Writes;
    }
  }

  lemma OneLetter(atomic: bool, s: Sys, a: Action)
    ensures |Step(atomic, s, a).w.dead| == |s.w.dead| + if Writes(s, a) then 1 else 0
  {
  }

  /** How many dead letters the process itself has filed. */
  function FiledBy(atomic: bool, acts: seq<Action>, pid: nat): nat {
    if acts == [] then 0
    else
      var (before, a) := (acts[..|acts| - 1], acts[|acts| - 1]);
      FiledBy(atomic, before, pid)
      + if a.Go? && a.pid == pid && |Run(atomic, acts).w.dead| > |Run(atomic, before).w.dead| then 1 else 0
  }

  lemma FiledByOneMore(atomic: bool, before: seq<Action>, a: Action, pid: nat)
    ensures var (s, s') := (Run(atomic, before), Step(atomic, Run(atomic, before), a));
            && Run(atomic, before + [a]) == s' && s.w.dead <= s'.w.dead
            && FiledBy(atomic, before + [a], pid)
               == FiledBy(atomic, before, pid) + if a.Go? && a.pid == pid && |s'.w.dead| > |s.w.dead| then 1 else 0
  {
    RunOne(atomic, before, a);
    assert (before + [a])[..|before|] == before;
    DeadGrows(atomic, Run(atomic, before), a);
    hide Step, Run;
  }

  lemma DeadGrows(atomic: bool, s: Sys, a: Action)
    ensures s.w.dead <= Step(atomic, s, a).w.dead
  {
  }

  // ---- without a hitch -----------------------------------------------------------------

  /** The next n accesses of a process, all delivered. */
  function Goes(pid: nat, outcome: Outcome, unknown: string, n: nat): seq<Action> {
    if n == 0 then [] else [Go(pid, Delivered, outcome, unknown)] + Goes(pid, outcome, unknown, n - 1)
  }

  function Alone(atomic: bool, w: World, pc: Pc, outcome: Outcome, unknown: string, n: nat): (World, Pc)
    decreases n
  {
    if n == 0 then (w, pc)
    else
      var (w', pc') := Act(atomic, w, pc, Go(0, Delivered, outcome, unknown));
      Alone(atomic, w', pc', outcome, unknown, n - 1)
  }

  lemma {:induction false} AloneIsARun(
      atomic: bool, acts: seq<Action>, pid: nat, outcome: Outcome, unknown: string, n: nat)
    requires pid in Run(atomic, acts).procs
    ensures var (s, s') := (Run(atomic, acts), Run(atomic, acts + Goes(pid, outcome, unknown, n)));
            pid in s'.procs && (s'.w, s'.procs[pid]) == Alone(atomic, s.w, s.procs[pid], outcome, unknown, n)
    decreases n
  {
    hide Run, Act;
    if n == 0 {
      assert acts + Goes(pid, outcome, unknown, 0) == acts;
    } else {
      var (a, s) := (Go(pid, Delivered, outcome, unknown), Run(atomic, acts));
      RunOne(atomic, acts, a);
      AnyPid(atomic, s.w, s.procs[pid], pid, outcome, unknown);
      AloneIsARun(atomic, acts + [a], pid, outcome, unknown, n - 1);
      assert acts + [a] + Goes(pid, outcome, unknown, n - 1) == acts + Goes(pid, outcome, unknown, n);
    }
  }

  lemma AnyPid(atomic: bool, w: World, pc: Pc, pid: nat, outcome: Outcome, unknown: string)
    ensures Act(atomic, w, pc, Go(pid, Delivered, outcome, unknown))
         == Act(atomic, w, pc, Go(0, Delivered, outcome, unknown))
  {
  }

  lemma {:induction false} DoneStays(atomic: bool, w: World, failed: bool, outcome: Outcome, unknown: string, n: nat)
    ensures Alone(atomic, w, Done(failed), outcome, unknown, n) == (w, Done(failed))
  {
    if n > 0 { DoneStays(atomic, w, failed, outcome, unknown, n - 1); }
  }

  lemma OnceMore(atomic: bool, w: World, pc: Pc, outcome: Outcome, unknown: string, n: nat)
    requires n > 0
    ensures var (w', pc') := Act(atomic, w, pc, Go(0, Delivered, outcome, unknown));
            Alone(atomic, w, pc, outcome, unknown, n) == Alone(atomic, w', pc', outcome, unknown, n - 1)
  {
    hide Act;
  }

  /** What a message that is taken up leaves: its row, its dead letter, its run. */
  function Processed(w: World, key: Key, outcome: Outcome): World {
    World(w.rows[key := if outcome.Transient? then Failed else Completed],
          if outcome.Poison? then w.dead + [key.0] else w.dead,
          w.runs[key := Runs(w, key) + [outcome]])
  }

  lemma HandledAlone(atomic: bool, w: World, key: Key, outcome: Outcome, unknown: string)
    requires key in w.rows
    ensures Alone(atomic, w, Handling(key), outcome, unknown, 3)
         == (Processed(w, key, outcome), Done(outcome.Transient?))
  {
    var w1 := w.(runs := w.runs[key := Runs(w, key) + [outcome]]);
    var end := (Processed(w, key, outcome), Done(outcome.Transient?));
    OnceMore(atomic, w, Handling(key), outcome, unknown, 3);
    if outcome.Poison? {
      OnceMore(atomic, w1, Poisoned(key), outcome, unknown, 2);
      OnceMore(atomic, w1.(dead := w1.dead + [key.0]), Completing(key, Poison), outcome, unknown, 1);
    } else if outcome.Transient? {
      OnceMore(atomic, w1, Failing(key), outcome, unknown, 2);
      DoneStays(atomic, end.0, true, outcome, unknown, 1);
    } else {
      OnceMore(atomic, w1, Completing(key, outcome), outcome, unknown, 2);
      DoneStays(atomic, end.0, false, outcome, unknown, 1);
    }
  }

  lemma StartedAlone(atomic: bool, w: World, key: Key, outcome: Outcome, unknown: string)
    ensures Alone(atomic, w, Starting(key), outcome, unknown, 5)
         == if key in w.rows && !w.rows[key].Failed? then (w, Done(false))
            else (Processed(w, key, outcome), Done(outcome.Transient?))
  {
    var w1 := w.(rows := w.rows[key := Processing]);
    OnceMore(atomic, w, Starting(key), outcome, unknown, 5);
    if key in w.rows && !w.rows[key].Failed? {
      DoneStays(atomic, w, false, outcome, unknown, 4);
    } else {
      HandledAlone(atomic, w1, key, outcome, unknown);
      assert w1.rows[key := Completed] == w.rows[key := Completed];
      assert w1.rows[key := Failed] == w.rows[key := Failed];
      if !atomic && key in w.rows {
        OnceMore(atomic, w, Restarting(key), outcome, unknown, 4);
      } else {
        HandledThenNothing(atomic, w1, key, outcome, unknown);
      }
    }
  }

  lemma HandledThenNothing(atomic: bool, w: World, key: Key, outcome: Outcome, unknown: string)
    requires key in w.rows
    ensures Alone(atomic, w, Handling(key), outcome, unknown, 4)
         == (Processed(w, key, outcome), Done(outcome.Transient?))
  {
    HandledAlone(atomic, w, key, outcome, unknown);
    AloneOn(atomic, w, Handling(key), outcome, unknown, 3);
    hide Processed, Alone;
    OnceMore(atomic, Processed(w, key, outcome), Done(outcome.Transient?), outcome, unknown, 1);
    DoneStays(atomic, Processed(w, key, outcome), outcome.Transient?, outcome, unknown, 1);
  }

  lemma {:induction false} AloneOn(atomic: bool, w: World, pc: Pc, outcome: Outcome, unknown: string, n: nat)
    ensures var (w', pc') := Alone(atomic, w, pc, outcome, unknown, n);
            Alone(atomic, w, pc, outcome, unknown, n + 1) == Alone(atomic, w', pc', outcome, unknown, 1)
    decreases n
  {
    hide Act;
    if n > 0 {
      var (w', pc') := Act(atomic, w, pc, Go(0, Delivered, outcome, unknown));
      AloneOn(atomic, w', pc', outcome, unknown, n - 1);
    }
  }

  lemma ReceivedAlone(
      atomic: bool, acts: seq<Action>, pid: nat, e: Envelope, group: string, outcome: Outcome, unknown: string)
    requires pid !in Run(atomic, acts).procs
    ensures var s' := Run(atomic, acts + [Receive(pid, e, group)] + Goes(pid, outcome, unknown, 5));
            && pid in s'.procs
            && (s'.w, s'.procs[pid]) == Alone(atomic, Run(atomic, acts).w, Begin(e, group), outcome, unknown, 5)
  {
    RunOne(atomic, acts, Receive(pid, e, group));
    AloneIsARun(atomic, acts + [Receive(pid, e, group)], pid, outcome, unknown, 5);
    hide Run, Alone;
  }

  /** A message that comes in when nothing goes wrong, whatever was before. Without an identity or
      with a malformed payload it goes to the dead letters, and the broker is told that it is done
      with; if it is in flight or done with already, nothing happens. Otherwise its handler runs
      once: the message is COMPLETED, or FAILED and reported after a failure to be retried, and
      after a rejection its identity is in the dead letters. */
  lemma {:induction false} ProcessedAlone(
      atomic: bool, acts: seq<Action>, pid: nat, e: Envelope, group: string, outcome: Outcome, unknown: string)
    requires pid !in Run(atomic, acts).procs
    ensures var (w, s') := (Run(atomic, acts).w,
                            Run(atomic, acts + [Receive(pid, e, group)] + Goes(pid, outcome, unknown, 5)));
            var id := if e.header != "" then e.header else e.key;
            var key := (id, group);
            && pid in s'.procs
            && if id == "" then s'.w == w.(dead := w.dead + ["unknown-" + unknown]) && s'.procs[pid] == Done(false)
               else if !e.valid then s'.w == w.(dead := w.dead + [id]) && s'.procs[pid] == Done(false)
               else if key in w.rows && !w.rows[key].Failed? then s'.w == w && s'.procs[pid] == Done(false)
               else
                 && s'.w.rows == w.rows[key := if outcome.Transient? then Failed else Completed]
                 && s'.w.dead == (if outcome.Poison? then w.dead + [id] else w.dead)
                 && s'.w.runs == w.runs[key := Runs(w, key) + [outcome]]
                 && s'.procs[pid] == Done(outcome.Transient?)
  {
    var w := Run(atomic, acts).w;
    ReceivedAlone(atomic, acts, pid, e, group, outcome, unknown);
    hide Run;
    if MessageId(e) == "" || !e.valid {
      OnceMore(atomic, w, Begin(e, group), outcome, unknown, 5);
      var w1 := Act(atomic, w, Begin(e, group), Go(0, Delivered, outcome, unknown)).0;
      DoneStays(atomic, w1, false, outcome, unknown, 4);
      hide Alone;
    } else {
      StartedAlone(atomic, w, (MessageId(e), group), outcome, unknown);
      hide Alone, Act;
    }
  }
}
