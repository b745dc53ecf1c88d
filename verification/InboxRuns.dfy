/** The idempotent inbox: any number of consumers of any number of groups process broker
    messages, cut at every database access and at the handler, with any redelivery, lost
    answers and crashes.

    `atomic` says which repository is at work: the in-memory one takes a FAILED row back to
    PROCESSING in one step, the Postgres one reads its status first and writes it later. */
module InboxRuns {
  import opened Common

  datatype Status = Processing | Completed | Failed

  /** What a domain handler returns: no error, one of the two marker errors, or any other. */
  datatype Outcome = Handled | TerminalIgnored | Poison | Transient

  /** The primary key (message_id, consumer_group). */
  type Key = (string, string)

  /** `runs` lists, per key, how the handler runs that came to an end have ended. */
  datatype World = World(rows: map<Key, Status>, dead: seq<string>, runs: map<Key, seq<Outcome>>)

  datatype Pc =
    | Rejecting(source: string, silent: bool)
    | Starting(key: Key)
    | Restarting(key: Key)
    | Handling(key: Key)
    | Poisoned(key: Key)
    | Completing(key: Key, outcome: Outcome)
    | Failing(key: Key)
    | Done(failed: bool)

  datatype Sys = Sys(w: World, procs: map<nat, Pc>)

  datatype Action =
    | Receive(pid: nat, e: Envelope, group: string)
    | Go(pid: nat, d: Delivery, outcome: Outcome, unknown: string)
    | Crash(pid: nat)

  function MessageId(e: Envelope): string {
    if e.header != "" then e.header else e.key
  }

  /** ProcessMessage up to its first access. */
  function Begin(e: Envelope, group: string): Pc {
    if MessageId(e) == "" then Rejecting("", false)
    else if !e.valid then Rejecting(MessageId(e), true)
    else Starting((MessageId(e), group))
  }

  function Runs(w: World, key: Key): seq<Outcome> {
    if key in w.runs then w.runs[key] else []
  }

  /** Where a process goes when its handler has returned. */
  function After(key: Key, outcome: Outcome): Pc {
    match outcome
    case Handled => Completing(key, outcome)
    case TerminalIgnored => Completing(key, outcome)
    case Poison => Poisoned(key)
    case Transient => Failing(key)
  }

  function Act(atomic: bool, w: World, pc: Pc, a: Action): (World, Pc)
    requires a.Go?
  {
    match pc
    case Rejecting(source, silent) =>
      (if a.d.NotSent? then w else w.(dead := w.dead + [if source == "" then "unknown-" + a.unknown else source]),
       Done(!silent && !a.d.Delivered?))
    case Starting(key) =>
      if a.d.NotSent? then (w, Done(true))
      else if key in w.rows && w.rows[key].Failed? && !atomic then
        (w, if a.d.Delivered? then Restarting(key) else Done(true))
      else if key !in w.rows || w.rows[key].Failed? then
        (w.(rows := w.rows[key := Processing]), if a.d.Delivered? then Handling(key) else Done(true))
      else (w, Done(!a.d.Delivered?))
    case Restarting(key) =>
      if a.d.NotSent? then (w, Done(true))
      else (w.(rows := w.rows[key := Processing]), if a.d.Delivered? then Handling(key) else Done(true))
    case Handling(key) => (w.(runs := w.runs[key := Runs(w, key) + [a.outcome]]), After(key, a.outcome))
    case Poisoned(key) => (if a.d.NotSent? then w else w.(dead := w.dead + [key.0]), Completing(key, Poison))
    case Completing(key, outcome) =>
      (if a.d.NotSent? || key !in w.rows then w else w.(rows := w.rows[key := Completed]),
       Done(outcome.Handled? && !a.d.Delivered?))
    case Failing(key) =>
      (if a.d.NotSent? || key !in w.rows then w else w.(rows := w.rows[key := Failed]), Done(true))
    case Done(_) => (w, pc)
  }

  function Step(atomic: bool, s: Sys, a: Action): Sys {
    match a
    case Receive(pid, e, group) => if pid in s.procs then s else s.(procs := s.procs[pid := Begin(e, group)])
    case Go(pid, _, _, _) =>
      if pid !in s.procs then s else
        var (w', pc') := Act(atomic, s.w, s.procs[pid], a);
        Sys(w', s.procs[pid := pc'])
    case Crash(pid) => s.(procs := s.procs - {pid})
  }

  function Run(atomic: bool, acts: seq<Action>): Sys {
    if acts == [] then Sys(World(map[], [], map[]), map[])
    else Step(atomic, Run(atomic, acts[..|acts| - 1]), acts[|acts| - 1])
  }

  // ---- the invariant -------------------------------------------------------------------

  predicate Owns(pc: Pc, key: Key) {
    (pc.Handling? || pc.Poisoned? || pc.Completing? || pc.Failing?) && pc.key == key
  }

  predicate AllTransient(runs: seq<Outcome>) {
    forall i :: 0 <= i < |runs| ==> runs[i].Transient?
  }

  /** Failures to be retried, and then a run that was final. */
  predicate Concluded(runs: seq<Outcome>) {
    runs != [] && !runs[|runs| - 1].Transient? && AllTransient(runs[..|runs| - 1])
  }

  /** The restart is a single step, or has never been needed. */
  predicate Guarded(atomic: bool, w: World, key: Key) {
    atomic || Transient !in Runs(w, key)
  }

  predicate KeyOk(atomic: bool, w: World, key: Key) {
    Guarded(atomic, w, key) ==>
      && (AllTransient(Runs(w, key)) || Concluded(Runs(w, key)))
      && (Runs(w, key) != [] ==> key in w.rows)
      && (key in w.rows && w.rows[key].Failed? ==> AllTransient(Runs(w, key)) && Runs(w, key) != [])
      && (key in w.rows && w.rows[key].Completed? ==> Concluded(Runs(w, key)))
  }

  predicate PcOk(atomic: bool, w: World, pc: Pc) {
    match pc
    case Handling(key) =>
      Guarded(atomic, w, key) ==> key in w.rows && w.rows[key].Processing? && AllTransient(Runs(w, key))
    case Poisoned(key) =>
      Guarded(atomic, w, key) ==>
        && key in w.rows && w.rows[key].Processing? && Concluded(Runs(w, key))
        && Runs(w, key)[|Runs(w, key)| - 1].Poison?
    case Completing(key, outcome) =>
      Guarded(atomic, w, key) ==>
        && key in w.rows && w.rows[key].Processing? && Concluded(Runs(w, key))
        && Runs(w, key)[|Runs(w, key)| - 1] == outcome
    case Failing(key) =>
      Guarded(atomic, w, key) ==>
        key in w.rows && w.rows[key].Processing? && AllTransient(Runs(w, key)) && Runs(w, key) != []
    case Restarting(key) => !Guarded(atomic, w, key)
    case _ => true
  }

  ghost predicate Inv(atomic: bool, s: Sys) {
    && (forall key :: KeyOk(atomic, s.w, key))
    && (forall p :: p in s.procs ==> PcOk(atomic, s.w, s.procs[p]))
    && (forall p, q, key ::
          p in s.procs && q in s.procs && Guarded(atomic, s.w, key) && Owns(s.procs[p], key) && Owns(s.procs[q], key)
          ==> p == q)
  }

  /** A step of `pc` leaves every key alone that it neither owns nor starts. */
  ghost predicate OnlyItsKey(w: World, w': World, pc: Pc) {
    forall key :: !Owns(pc, key) && pc != Starting(key) && pc != Restarting(key) ==>
      && Runs(w', key) == Runs(w, key)
      && (key in w'.rows <==> key in w.rows) && (key in w.rows ==> w'.rows[key] == w.rows[key])
  }

  /** Nobody can start a key that somebody owns, and nobody restarts one that is guarded. */
  ghost predicate StepOk(atomic: bool, w: World, w': World, pc: Pc, pc': Pc) {
    && (forall key :: KeyOk(atomic, w', key)) && PcOk(atomic, w', pc') && OnlyItsKey(w, w', pc)
    && (forall key :: Guarded(atomic, w', key) ==> Guarded(atomic, w, key))
    && (forall key :: Guarded(atomic, w, key) && Owns(pc', key) ==>
          Owns(pc, key) || (pc == Starting(key) && (key !in w.rows || !w.rows[key].Processing?)))
    && (forall key :: pc == Starting(key) && key in w.rows && w.rows[key].Processing? ==> w' == w)
  }

  /** Only a message that had to be retried is FAILED. */
  lemma FailedIsUnguarded(w: World, key: Key)
    requires KeyOk(false, w, key) && key in w.rows && w.rows[key].Failed?
    ensures !Guarded(false, w, key)
  {
    var runs := Runs(w, key);
    assert runs != [] ==> runs[0] in runs;
  }

  lemma StartOk(atomic: bool, w: World, pc: Pc, a: Action)
    requires (forall key :: KeyOk(atomic, w, key)) && pc.Starting? && PcOk(atomic, w, pc) && a.Go?
    ensures var (w', pc') := Act(atomic, w, pc, a); StepOk(atomic, w, w', pc, pc')
  {
    var (w', _) := Act(atomic, w, pc, a);
    assert KeyOk(atomic, w, pc.key);
    if !atomic && pc.key in w.rows && w.rows[pc.key].Failed? { FailedIsUnguarded(w, pc.key); }
    forall key ensures KeyOk(atomic, w', key) {
      assert KeyOk(atomic, w, key);
    }
  }

  lemma RestartOk(atomic: bool, w: World, pc: Pc, a: Action)
    requires (forall key :: KeyOk(atomic, w, key)) && pc.Restarting? && PcOk(atomic, w, pc) && a.Go?
    ensures var (w', pc') := Act(atomic, w, pc, a); StepOk(atomic, w, w', pc, pc')
  {
    var (w', _) := Act(atomic, w, pc, a);
    assert !Guarded(atomic, w', pc.key);
    forall key ensures KeyOk(atomic, w', key) {
      assert KeyOk(atomic, w, key);
    }
  }

  /** A run more. */
  lemma RunEnds(before: seq<Outcome>, outcome: Outcome)
    ensures var after := before + [outcome];
            && (outcome.Transient? || Transient in before <==> Transient in after)
            && (AllTransient(before) ==> if outcome.Transient? then AllTransient(after) else Concluded(after))
  {
    var after := before + [outcome];
    assert after[|before|] == outcome && after[..|after| - 1] == before;
    assert forall i :: 0 <= i < |before| ==> after[i] == before[i];
  }

  lemma HandleKeyOk(atomic: bool, w: World, pc: Pc, a: Action)
    requires pc.Handling? && KeyOk(atomic, w, pc.key) && PcOk(atomic, w, pc) && a.Go?
    ensures var (w', pc') := Act(atomic, w, pc, a);
            && KeyOk(atomic, w', pc.key) && PcOk(atomic, w', pc')
            && (Guarded(atomic, w', pc.key) ==> Guarded(atomic, w, pc.key))
  {
    var (w', pc') := Act(atomic, w, pc, a);
    RunEnds(Runs(w, pc.key), a.outcome);
    assert Runs(w', pc.key) == Runs(w, pc.key) + [a.outcome];
    hide AllTransient, Concluded;
    assert Runs(w', pc.key)[|Runs(w, pc.key)|] == a.outcome;
  }

  lemma HandleOk(atomic: bool, w: World, pc: Pc, a: Action)
    requires (forall key :: KeyOk(atomic, w, key)) && pc.Handling? && PcOk(atomic, w, pc) && a.Go?
    ensures var (w', pc') := Act(atomic, w, pc, a); StepOk(atomic, w, w', pc, pc')
  {
    var (w', _) := Act(atomic, w, pc, a);
    HandleKeyOk(atomic, w, pc, a);
    forall key | key != pc.key ensures Runs(w', key) == Runs(w, key) && KeyOk(atomic, w', key) {
      assert KeyOk(atomic, w, key);
    }
    hide PcOk, KeyOk, Runs;
  }

  lemma MarkOk(atomic: bool, w: World, pc: Pc, a: Action)
    requires (forall key :: KeyOk(atomic, w, key)) && (pc.Completing? || pc.Failing?) && PcOk(atomic, w, pc) && a.Go?
    ensures var (w', pc') := Act(atomic, w, pc, a); StepOk(atomic, w, w', pc, pc')
  {
    var (w', _) := Act(atomic, w, pc, a);
    forall key ensures KeyOk(atomic, w', key) {
      assert KeyOk(atomic, w, key);
    }
  }

  lemma BuryOk(atomic: bool, w: World, pc: Pc, a: Action)
    requires (forall key :: KeyOk(atomic, w, key)) && (pc.Rejecting? || pc.Poisoned?) && PcOk(atomic, w, pc) && a.Go?
    ensures var (w', pc') := Act(atomic, w, pc, a); StepOk(atomic, w, w', pc, pc')
  {
    var (w', _) := Act(atomic, w, pc, a);
    forall key ensures KeyOk(atomic, w', key) {
      assert KeyOk(atomic, w, key);
    }
  }

  lemma ActOk(atomic: bool, w: World, pc: Pc, a: Action)
    requires (forall key :: KeyOk(atomic, w, key)) && PcOk(atomic, w, pc) && a.Go?
    ensures var (w', pc') := Act(atomic, w, pc, a); StepOk(atomic, w, w', pc, pc')
  {
    hide KeyOk;
    if pc.Starting? { StartOk(atomic, w, pc, a); }
    else if pc.Restarting? { RestartOk(atomic, w, pc, a); }
    else if pc.Handling? { HandleOk(atomic, w, pc, a); }
    else if pc.Completing? || pc.Failing? { MarkOk(atomic, w, pc, a); }
    else if pc.Rejecting? || pc.Poisoned? { BuryOk(atomic, w, pc, a); }
  }

  lemma OthersKeep(atomic: bool, w: World, w': World, pc: Pc, other: Pc)
    requires PcOk(atomic, w, pc) && PcOk(atomic, w, other) && OnlyItsKey(w, w', pc)
    requires forall key :: Guarded(atomic, w', key) ==> Guarded(atomic, w, key)
    requires forall key :: Guarded(atomic, w, key) ==> !(Owns(pc, key) && Owns(other, key))
    requires forall key :: pc == Starting(key) && key in w.rows && w.rows[key].Processing? ==> w' == w
    ensures PcOk(atomic, w', other)
  {
  }

  lemma GoKeepsInv(atomic: bool, s: Sys, a: Action)
    requires Inv(atomic, s) && a.Go? && a.pid in s.procs
    ensures Inv(atomic, Step(atomic, s, a))
  {
    hide KeyOk, Act;
    var pc := s.procs[a.pid];
    ActOk(atomic, s.w, pc, a);
    var s' := Step(atomic, s, a);
    forall p | p in s.procs && p != a.pid ensures PcOk(atomic, s'.w, s.procs[p]) {
      OthersKeep(atomic, s.w, s'.w, pc, s.procs[p]);
    }
    forall p, key | p in s.procs && p != a.pid && Owns(s.procs[p], key) && Guarded(atomic, s'.w, key)
      ensures !Owns(s'.procs[a.pid], key)
    {
      assert Guarded(atomic, s.w, key) && PcOk(atomic, s.w, s.procs[p]);
      assert !Owns(pc, key);
    }
  }

  lemma StepKeepsInv(atomic: bool, s: Sys, a: Action)
    requires Inv(atomic, s)
    ensures Inv(atomic, Step(atomic, s, a))
  {
    if a.Go? && a.pid in s.procs {
      GoKeepsInv(atomic, s, a);
    }
  }

  lemma {:induction false} Reachable(atomic: bool, acts: seq<Action>)
    ensures Inv(atomic, Run(atomic, acts))
  {
    if acts != [] {
      Reachable(atomic, acts[..|acts| - 1]);
      StepKeepsInv(atomic, Run(atomic, acts[..|acts| - 1]), acts[|acts| - 1]);
    }
  }

  lemma RunMore(atomic: bool, acts: seq<Action>, more: seq<Action>)
    requires more != []
    ensures Run(atomic, acts + more) == Step(atomic, Run(atomic, acts + more[..|more| - 1]), more[|more| - 1])
  {
    assert (acts + more)[..|acts + more| - 1] == acts + more[..|more| - 1];
  }

  // ---- the guarantees ------------------------------------------------------------------

  /** However often a message is delivered, its handler runs in one group at one time at most
      once, and after a run that was not a failure to be retried it never ends again. With the
      Postgres repository this holds as long as no run had to be retried. */
  lemma OneFinalRun(atomic: bool, acts: seq<Action>, key: Key)
    requires Guarded(atomic, Run(atomic, acts).w, key)
    ensures var s := Run(atomic, acts);
            && (AllTransient(Runs(s.w, key)) || Concluded(Runs(s.w, key)))
            && (forall p, q :: p in s.procs && q in s.procs && s.procs[p] == s.procs[q] == Handling(key) ==> p == q)
  {
    Reachable(atomic, acts);
    var s := Run(atomic, acts);
    assert KeyOk(atomic, s.w, key);
    forall p, q | p in s.procs && q in s.procs && s.procs[p] == s.procs[q] == Handling(key) ensures p == q {
      assert Owns(s.procs[p], key) && Owns(s.procs[q], key);
    }
  }

  /** Nobody can run the handler of the message any more, or have it run again. */
  ghost predicate Closed(s: Sys, key: Key) {
    && key in s.w.rows && !s.w.rows[key].Failed?
    && forall p :: p in s.procs ==>
         s.procs[p] != Handling(key) && s.procs[p] != Failing(key) && s.procs[p] != Restarting(key)
  }

  /** And nobody has it in hand at all. */
  ghost predicate Deserted(s: Sys, key: Key) {
    Closed(s, key) && (s.w.rows[key].Completed? || forall p :: p in s.procs ==> !Owns(s.procs[p], key))
  }

  lemma ClosedStays(atomic: bool, s: Sys, a: Action, key: Key)
    requires Closed(s, key)
    ensures Closed(Step(atomic, s, a), key) && Runs(Step(atomic, s, a).w, key) == Runs(s.w, key)
    ensures s.w.rows[key].Completed? ==> Step(atomic, s, a).w.rows[key].Completed?
  {
  }

  lemma DesertedStays(atomic: bool, s: Sys, a: Action, key: Key)
    requires Deserted(s, key)
    ensures Deserted(Step(atomic, s, a), key) && Step(atomic, s, a).w.rows[key] == s.w.rows[key]
  {
    ClosedStays(atomic, s, a, key);
    hide Closed;
  }

  /** What is closed stays closed: the handler never runs again. That is so for a COMPLETED
      message; and for one whose consumer crashed between TryStartProcessing and its mark, or lost
      that mark, even if the handler had failed or not run at all: every redelivery takes it for
      one in flight and skips it, and the row never changes again. */
  lemma {:induction false} ClosedIsForGood(atomic: bool, acts: seq<Action>, more: seq<Action>, key: Key)
    requires Closed(Run(atomic, acts), key)
    ensures var (s, s') := (Run(atomic, acts), Run(atomic, acts + more));
            && Closed(s', key) && Runs(s'.w, key) == Runs(s.w, key)
            && (s.w.rows[key].Completed? ==> s'.w.rows[key].Completed?)
            && (Deserted(s, key) ==> Deserted(s', key) && s'.w.rows[key] == s.w.rows[key])
            && (forall p :: p in s'.procs ==> s'.procs[p] != Handling(key))
  {
    if more == [] {
      assert acts + more == acts;
    } else {
      RunMore(atomic, acts, more);
      ClosedIsForGood(atomic, acts, more[..|more| - 1], key);
      var s := Run(atomic, acts + more[..|more| - 1]);
      ClosedStays(atomic, s, more[|more| - 1], key);
      if Deserted(s, key) { DesertedStays(atomic, s, more[|more| - 1], key); }
      hide Step;
    }
  }

  /** Such a loss is one step away from every handler run. */
  lemma CrashLosesTheMessage(atomic: bool, acts: seq<Action>, pid: nat, key: Key)
    requires pid in Run(atomic, acts).procs && Owns(Run(atomic, acts).procs[pid], key)
    requires Guarded(atomic, Run(atomic, acts).w, key)
    ensures Deserted(Run(atomic, acts + [Crash(pid)]), key)
    ensures Run(atomic, acts + [Crash(pid)]).w.rows[key].Processing?
  {
    Reachable(atomic, acts);
    RunMore(atomic, acts, [Crash(pid)]);
    assert acts + [] == acts && [Crash(pid)][..0] == [];
    var s := Run(atomic, acts);
    assert PcOk(atomic, s.w, s.procs[pid]);
    assert forall p :: p in s.procs ==> PcOk(atomic, s.w, s.procs[p]);
  }

  // ---- what can still happen -----------------------------------------------------------

  function Deliver(pid: nat, key: Key): Action {
    Receive(pid, Envelope(key.0, "", true), key.1)
  }

  function Do(pid: nat, outcome: Outcome): Action {
    Go(pid, Delivered, outcome, "")
  }

  lemma RunOne(atomic: bool, acts: seq<Action>, a: Action)
    ensures Run(atomic, acts + [a]) == Step(atomic, Run(atomic, acts), a)
  {
    assert (acts + [a])[..|acts|] == acts;
  }

  /** A redelivery of a message that is new gets to its handler; so does one of a FAILED message
      when the restart is atomic, and otherwise to the restart. */
  lemma Redeliver(atomic: bool, acts: seq<Action>, key: Key, pid: nat) returns (longer: seq<Action>)
    requires key.0 != "" && pid !in Run(atomic, acts).procs
    requires key !in Run(atomic, acts).w.rows || Run(atomic, acts).w.rows[key].Failed?
    ensures acts <= longer
    ensures var (s, s') := (Run(atomic, acts), Run(atomic, longer));
            if !atomic && key in s.w.rows then s' == s.(procs := s.procs[pid := Restarting(key)])
            else s' == Sys(s.w.(rows := s.w.rows[key := Processing]), s.procs[pid := Handling(key)])
  {
    var s := Run(atomic, acts);
    RunOne(atomic, acts, Deliver(pid, key));
    RunOne(atomic, acts + [Deliver(pid, key)], Do(pid, Handled));
    longer := acts + [Deliver(pid, key)] + [Do(pid, Handled)];
    hide Run;
    assert Begin(Envelope(key.0, "", true), key.1) == Starting(key);
    assert Step(atomic, s, Deliver(pid, key)) == s.(procs := s.procs[pid := Starting(key)]);
    assert s.procs[pid := Starting(key)][pid := Handling(key)] == s.procs[pid := Handling(key)];
    assert s.procs[pid := Starting(key)][pid := Restarting(key)] == s.procs[pid := Restarting(key)];
  }

  /** From a process that restarts the message to one that handles it. */
  lemma Restart(atomic: bool, acts: seq<Action>, key: Key, pid: nat) returns (longer: seq<Action>)
    requires pid in Run(atomic, acts).procs && Run(atomic, acts).procs[pid] == Restarting(key)
    ensures acts <= longer
    ensures var s := Run(atomic, acts);
            Run(atomic, longer) == Sys(s.w.(rows := s.w.rows[key := Processing]), s.procs[pid := Handling(key)])
  {
    RunOne(atomic, acts, Do(pid, Handled));
    longer := acts + [Do(pid, Handled)];
  }

  /** From a FAILED or a new message to its handler. */
  lemma ToHandler(atomic: bool, acts: seq<Action>, key: Key) returns (longer: seq<Action>, pid: nat)
    requires key.0 != ""
    requires key !in Run(atomic, acts).w.rows || Run(atomic, acts).w.rows[key].Failed?
    ensures acts <= longer
    ensures var s' := Run(atomic, longer); pid in s'.procs && s'.procs[pid] == Handling(key) && key in s'.w.rows
  {
    pid := FreshPid(Run(atomic, acts).procs.Keys);
    longer := Redeliver(atomic, acts, key, pid);
    hide Run;
    if Run(atomic, longer).procs[pid] == Restarting(key) {
      longer := Restart(atomic, longer, key, pid);
    }
  }

  /** The mark of a failed run opens the message again. */
  lemma MarkFailed(atomic: bool, acts: seq<Action>, key: Key, pid: nat) returns (longer: seq<Action>)
    requires pid in Run(atomic, acts).procs && Run(atomic, acts).procs[pid] == Failing(key)
    ensures acts <= longer
    ensures var s' := Run(atomic, longer);
            && (key in s'.w.rows <==> key in Run(atomic, acts).w.rows)
            && (key in s'.w.rows ==> s'.w.rows[key].Failed?)
  {
    RunOne(atomic, acts, Do(pid, Handled));
    longer := acts + [Do(pid, Handled)];
  }

  /** A run of the handler that fails. */
  lemma FailOnce(atomic: bool, acts: seq<Action>, key: Key, pid: nat) returns (longer: seq<Action>)
    requires pid in Run(atomic, acts).procs && Run(atomic, acts).procs[pid] == Handling(key)
    ensures acts <= longer
    ensures var s' := Run(atomic, longer);
            && (key in s'.w.rows <==> key in Run(atomic, acts).w.rows)
            && (key in s'.w.rows ==> s'.w.rows[key].Failed?)
  {
    RunOne(atomic, acts, Do(pid, Transient));
    longer := MarkFailed(atomic, acts + [Do(pid, Transient)], key, pid);
  }

  /** Whoever is to have the handler run again can bring the message back to where it is new or
      FAILED. */
  lemma Reopen(atomic: bool, acts: seq<Action>, key: Key) returns (longer: seq<Action>)
    requires !Closed(Run(atomic, acts), key)
    ensures acts <= longer
    ensures var s' := Run(atomic, longer); key !in s'.w.rows || s'.w.rows[key].Failed?
  {
    longer := acts;
    var s := Run(atomic, acts);
    if key in s.w.rows && !s.w.rows[key].Failed? {
      var p :| p in s.procs
               && (s.procs[p] == Handling(key) || s.procs[p] == Failing(key) || s.procs[p] == Restarting(key));
      hide Run, Closed;
      if s.procs[p] == Restarting(key) { longer := Restart(atomic, acts, key, p); }
      if s.procs[p] == Failing(key) { longer := MarkFailed(atomic, longer, key, p); }
      else { longer := FailOnce(atomic, longer, key, p); }
    }
  }

  ghost predicate BeingHandled(s: Sys, key: Key) {
    exists p :: p in s.procs && s.procs[p] == Handling(key)
  }

  /** With either repository: a message can still be handled in some continuation exactly if it
      is not closed. */
  lemma {:induction false} CanBeHandledIff(atomic: bool, acts: seq<Action>, key: Key)
    requires key.0 != ""
    ensures (exists more :: BeingHandled(Run(atomic, acts + more), key)) <==> !Closed(Run(atomic, acts), key)
  {
    if Closed(Run(atomic, acts), key) {
      forall more ensures !BeingHandled(Run(atomic, acts + more), key) {
        ClosedIsForGood(atomic, acts, more, key);
      }
    } else {
      var open := Reopen(atomic, acts, key);
      var longer, pid := ToHandler(atomic, open, key);
      assert longer == acts + longer[|acts|..];
      assert BeingHandled(Run(atomic, acts + longer[|acts|..]), key);
    }
  }

  // ---- without the atomic restart ------------------------------------------------------

  ghost predicate HandledAtOnce(s: Sys, key: Key) {
    exists p, q :: p in s.procs && q in s.procs && p != q && s.procs[p] == Handling(key) && s.procs[q] == Handling(key)
  }

  /** From every FAILED message two redeliveries that both read FAILED before either writes
      PROCESSING lead to two handlers at once. */
  lemma TwoAtOnce(acts: seq<Action>, key: Key) returns (longer: seq<Action>, p: nat, q: nat)
    requires key.0 != "" && key in Run(false, acts).w.rows && Run(false, acts).w.rows[key].Failed?
    ensures acts <= longer && p != q
    ensures var s' := Run(false, longer);
            && p in s'.procs && q in s'.procs && s'.procs[p] == s'.procs[q] == Handling(key)
            && key in s'.w.rows && Runs(s'.w, key) == Runs(Run(false, acts).w, key)
  {
    p := FreshPid(Run(false, acts).procs.Keys);
    longer := Redeliver(false, acts, key, p);
    q := FreshPid(Run(false, longer).procs.Keys);
    hide Run;
    longer := Redeliver(false, longer, key, q);
    longer := Restart(false, longer, key, p);
    longer := Restart(false, longer, key, q);
  }

  /** And both may succeed. */
  lemma HandledTwice(acts: seq<Action>, key: Key) returns (longer: seq<Action>)
    requires key.0 != "" && key in Run(false, acts).w.rows && Run(false, acts).w.rows[key].Failed?
    ensures acts <= longer
    ensures Runs(Run(false, longer).w, key) == Runs(Run(false, acts).w, key) + [Handled, Handled]
  {
    var p, q;
    longer, p, q := TwoAtOnce(acts, key);
    RunOne(false, longer, Do(p, Handled));
    RunOne(false, longer + [Do(p, Handled)], Do(q, Handled));
    hide Run;
    longer := longer + [Do(p, Handled)] + [Do(q, Handled)];
  }

  /** With the Postgres repository, two handlers of a message can come to run at once exactly if
      the message is not closed; with the in-memory one, never. */
  lemma {:induction false} OverlapIff(atomic: bool, acts: seq<Action>, key: Key)
    requires key.0 != ""
    ensures (exists more :: HandledAtOnce(Run(atomic, acts + more), key))
       <==> !atomic && !Closed(Run(atomic, acts), key)
  {
    if atomic {
      forall more ensures !HandledAtOnce(Run(true, acts + more), key) {
        OneFinalRun(true, acts + more, key);
      }
    } else if Closed(Run(false, acts), key) {
      forall more ensures !HandledAtOnce(Run(false, acts + more), key) {
        ClosedIsForGood(false, acts, more, key);
      }
    } else {
      var longer := Reopen(false, acts, key);
      if key !in Run(false, longer).w.rows {
        var pid;
        longer, pid := ToHandler(false, longer, key);
        longer := FailOnce(false, longer, key, pid);
      }
      var p, q;
      longer, p, q := TwoAtOnce(longer, key);
      assert longer == acts + longer[|acts|..];
      assert HandledAtOnce(Run(false, acts + longer[|acts|..]), key);
    }
  }
}
