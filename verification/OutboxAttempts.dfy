/** How often the outbox publishes at all, when every poller works within its leases and no
    mark is lost. */
module OutboxAttempts {
  import opened Common
  import opened OutboxRuns
  import opened OutboxSafety
  import opened OutboxTimely

  // ---- counting ------------------------------------------------------------------------

  /** The step is a publish, and of which message. */
  function Publishes(s: Sys, a: Action): Option<string> {
    if a.Go? && a.pid in s.procs && s.procs[a.pid].Publishing? && s.procs[a.pid].batch != []
    then Some(s.procs[a.pid].batch[0].id) else None
  }

  /** How often a run has published one of the messages. */
  function AttemptsIn(cfg: Config, acts: seq<Action>, ids: set<string>): nat {
    if acts == [] then 0
    else
      var (before, a) := (acts[..|acts| - 1], acts[|acts| - 1]);
      var id := Publishes(Run(cfg, before), a);
      AttemptsIn(cfg, before, ids) + if id.Some? && id.value in ids then 1 else 0
  }

  /** How often a run has published at all. */
  function AllAttempts(cfg: Config, acts: seq<Action>): nat {
    if acts == [] then 0
    else
      var (before, a) := (acts[..|acts| - 1], acts[|acts| - 1]);
      AllAttempts(cfg, before) + if Publishes(Run(cfg, before), a).Some? then 1 else 0
  }

  /** How often a run has published the message without an error. */
  function Clean(cfg: Config, acts: seq<Action>, id: string): nat {
    if acts == [] then 0
    else
      var (before, a) := (acts[..|acts| - 1], acts[|acts| - 1]);
      Clean(cfg, before, id) + if Publishes(Run(cfg, before), a) == Some(id) && a.d.Delivered? then 1 else 0
  }

  /** A publish without an error that this process has yet to mark. */
  predicate OwesAck(pc: Pc, id: string) {
    pc.Acking? && pc.batch != [] && pc.batch[0].id == id
  }

  function Unacked(procs: map<nat, Pc>, id: string): set<nat> {
    set p | p in procs && OwesAck(procs[p], id)
  }

  lemma UnackedMoves(procs: map<nat, Pc>, p: nat, pc: Pc, id: string)
    ensures |Unacked(procs[p := pc], id)| + (if p in procs && OwesAck(procs[p], id) then 1 else 0)
            == |Unacked(procs, id)| + (if OwesAck(pc, id) then 1 else 0)
  {
    var (before, after) := (Unacked(procs, id), Unacked(procs[p := pc], id));
    assert p in before <==> p in procs && OwesAck(procs[p], id);
    assert p in after <==> OwesAck(pc, id);
    assert before - {p} == after - {p};
    OneMember(before, after, p);
  }

  lemma UnackedFalls(procs: map<nat, Pc>, p: nat, id: string)
    requires !(p in procs && OwesAck(procs[p], id))
    ensures Unacked(procs - {p}, id) == Unacked(procs, id)
  {
  }

  /** No process loses the mark of a publish. */
  predicate MarksAll(s: Sys, a: Action) {
    && Marks(s, a)
    && (a.Go? && a.pid in s.procs && s.procs[a.pid].Acking? ==> !a.d.NotSent?)
    && (a.Crash? && a.pid in s.procs ==> !s.procs[a.pid].Acking?)
  }

  predicate Faithful(cfg: Config, acts: seq<Action>) {
    acts == [] || (Faithful(cfg, acts[..|acts| - 1]) && MarksAll(Run(cfg, acts[..|acts| - 1]), acts[|acts| - 1]))
  }

  lemma {:induction false} FaithfulIsLossless(cfg: Config, acts: seq<Action>)
    requires Faithful(cfg, acts)
    ensures Lossless(cfg, acts)
  {
    if acts != [] { FaithfulIsLossless(cfg, acts[..|acts| - 1]); }
  }

  // ---- every attempt is accounted for --------------------------------------------------

  function Published1(w: World, id: string): nat {
    if id in w.rows && w.rows[id].status.Published? then 1 else 0
  }

  /** What a step of one process does to the books of a message. */
  lemma GoBooks(cfg: Config, s: Sys, a: Action, id: string)
    requires Inv(cfg, s) && TInv(cfg, s) && OnTime(s, a) && MarksAll(s, a) && a.Go? && a.pid in s.procs
    ensures var s' := Step(cfg, s, a);
            Published1(s'.w, id) + |Unacked(s'.procs, id)|
            == Published1(s.w, id) + |Unacked(s.procs, id)|
               + if Publishes(s, a) == Some(id) && a.d.Delivered? then 1 else 0
  {
    hide Core, Accounts, Apart, Levels;
    var pc := s.procs[a.pid];
    var (w', pc') := Act(cfg, s.w, pc, a);
    UnackedMoves(s.procs, a.pid, pc', id);
    if pc.Leasing? {
      LeaseCopies(cfg, s.w, pc.worker, a.d, a.locked);
      hide LeaseStep;
    } else if Working(pc) && !pc.Burying? {
      assert PcOk(cfg, s.w, pc) && Leases(s.w, pc);
      assert pc.batch[0] in Pendings(pc) && AsLeased(s.w, pc.batch[0]);
    }
    hide PcOk, Leases;
  }

  lemma QuietBooks(cfg: Config, s: Sys, a: Action, id: string)
    requires MarksAll(s, a) && !a.Go?
    ensures var s' := Step(cfg, s, a);
            Published1(s'.w, id) == Published1(s.w, id) && |Unacked(s'.procs, id)| == |Unacked(s.procs, id)|
  {
    match a
    case Poll(pid, worker) => if pid !in s.procs { UnackedMoves(s.procs, pid, Leasing(worker), id); }
    case Cancel(pid) =>
      if pid in s.procs && s.procs[pid].Publishing? {
        UnackedMoves(s.procs, pid, Finished(s.procs[pid].published, true), id);
      }
    case Crash(pid) => UnackedFalls(s.procs, pid, id);
    case _ =>
  }

  /** Publishes without an error: the one that made the row PUBLISHED, and those whose process has
      yet to mark them. */
  lemma {:induction false} CleanIsMarked(cfg: Config, acts: seq<Action>, id: string)
    requires Timely(cfg, acts) && Faithful(cfg, acts)
    ensures var s := Run(cfg, acts); Clean(cfg, acts, id) == Published1(s.w, id) + |Unacked(s.procs, id)|
  {
    if acts != [] {
      var (before, a) := (acts[..|acts| - 1], acts[|acts| - 1]);
      var s := Run(cfg, before);
      CleanIsMarked(cfg, before, id);
      Reachable(cfg, before);
      TimelyReachable(cfg, before);
      hide Inv, TInv, Step;
      if a.Go? && a.pid in s.procs { GoBooks(cfg, s, a, id); }
      else if a.Go? { NoStep(cfg, s, a); }
      else { QuietBooks(cfg, s, a, id); }
    }
  }

  lemma NoStep(cfg: Config, s: Sys, a: Action)
    requires a.Go? && a.pid !in s.procs
    ensures Step(cfg, s, a) == s
  {
  }

  /** Every attempt either came back without an error or is a failure on record. */
  lemma {:induction false} AttemptsAreCleanOrFailed(cfg: Config, acts: seq<Action>, id: string)
    ensures AttemptsIn(cfg, acts, {id}) == Clean(cfg, acts, id) + Failures(Run(cfg, acts).w, id)
  {
    if acts != [] {
      var (before, a) := (acts[..|acts| - 1], acts[|acts| - 1]);
      AttemptsAreCleanOrFailed(cfg, before, id);
      FailureCounts(cfg, Run(cfg, before), a, id);
      hide Step;
    }
  }

  lemma FailureCounts(cfg: Config, s: Sys, a: Action, id: string)
    ensures Failures(Step(cfg, s, a).w, id)
         == Failures(s.w, id) + if Publishes(s, a) == Some(id) && !a.d.Delivered? then 1 else 0
  {
    hide FirstOf, Candidates;
  }

  // ---- the bound -----------------------------------------------------------------------

  /** The processes that published one of the messages and then let their lease run out before
      they marked it. */
  function OverdueIn(s: Sys, ids: set<string>): set<nat> {
    set p | p in s.procs && (s.procs[p].Acking? || s.procs[p].Nacking?) && s.procs[p].batch != []
            && s.procs[p].batch[0].id in ids && !Live(s.w, s.procs[p].batch[0])
  }

  /** The processes that have published the message and not marked it. */
  function Owing(s: Sys, id: string): set<nat> {
    Waiting(s.procs, id) + Unacked(s.procs, id)
  }

  lemma OwingCounts(s: Sys, id: string)
    ensures |Owing(s, id)| == |Waiting(s.procs, id)| + |Unacked(s.procs, id)|
    ensures OverdueIn(s, {id}) <= Owing(s, id)
  {
    assert Waiting(s.procs, id) !! Unacked(s.procs, id);
    Disjoint(Waiting(s.procs, id), Unacked(s.procs, id));
  }

  lemma Disjoint(a: set<nat>, b: set<nat>)
    requires a !! b
    ensures |a + b| == |a| + |b|
  {
  }

  /** Of those, at most one is within its lease, and then the row is open. */
  lemma OneOwesInTime(cfg: Config, acts: seq<Action>, id: string)
    requires Timely(cfg, acts)
    ensures var s := Run(cfg, acts);
            |Owing(s, id) - OverdueIn(s, {id})| <= if id in s.w.rows && Open(s.w.rows[id]) then 1 else 0
  {
    var s := Run(cfg, acts);
    var live := Owing(s, id) - OverdueIn(s, {id});
    if p :| p in live {
      AreLive(s, id, p, p);
      LeasesAreExclusive(cfg, acts, p, p, s.procs[p].batch[0], s.procs[p].batch[0]);
      forall q | q in live ensures q == p {
        AreLive(s, id, p, q);
        LeasesAreExclusive(cfg, acts, p, q, s.procs[p].batch[0], s.procs[q].batch[0]);
      }
      assert live == {p};
    }
  }

  lemma AreLive(s: Sys, id: string, p: nat, q: nat)
    requires p in Owing(s, id) - OverdueIn(s, {id}) && q in Owing(s, id) - OverdueIn(s, {id})
    ensures forall r :: r in {p, q} ==>
              && r in s.procs && (s.procs[r].Acking? || s.procs[r].Nacking?) && s.procs[r].batch != []
              && s.procs[r].batch[0].id == id && Live(s.w, s.procs[r].batch[0])
  {
  }

  lemma FewOweInTime(cfg: Config, acts: seq<Action>, id: string)
    requires Timely(cfg, acts)
    ensures var s := Run(cfg, acts);
            |Owing(s, id)| <= |OverdueIn(s, {id})| + if id in s.w.rows && Open(s.w.rows[id]) then 1 else 0
  {
    var s := Run(cfg, acts);
    OwingCounts(s, id);
    OneOwesInTime(cfg, acts, id);
    hide Owing, OverdueIn, Timely, Run;
    var live := Owing(s, id) - OverdueIn(s, {id});
    assert Owing(s, id) == live + OverdueIn(s, {id});
    Disjoint(live, OverdueIn(s, {id}));
  }

  /** A message is published without an error at most once, and at most MaxRetries times in all
      (once, if that is less than one), except once for every process that let its lease run out
      between a publish and its mark. */
  lemma {:induction false} AttemptsRunOut(cfg: Config, acts: seq<Action>, id: string)
    requires Timely(cfg, acts) && Faithful(cfg, acts) && id in Run(cfg, acts).w.rows
    ensures var overdue := |OverdueIn(Run(cfg, acts), {id})|;
            && Clean(cfg, acts, id) <= 1 + overdue
            && AttemptsIn(cfg, acts, {id}) <= Top(cfg) + overdue
  {
    var s := Run(cfg, acts);
    FaithfulIsLossless(cfg, acts);
    CleanIsMarked(cfg, acts, id);
    AttemptsAreCleanOrFailed(cfg, acts, id);
    EveryFailureCounts(cfg, acts, id);
    TimelyReachable(cfg, acts);
    assert Level(cfg, s.w.rows[id]);
    OwingCounts(s, id);
    FewOweInTime(cfg, acts, id);
  }

  lemma {:induction false} OneMoreId(cfg: Config, acts: seq<Action>, ids: set<string>, id: string)
    requires id !in ids
    ensures AttemptsIn(cfg, acts, ids + {id}) == AttemptsIn(cfg, acts, ids) + AttemptsIn(cfg, acts, {id})
  {
    if acts != [] { OneMoreId(cfg, acts[..|acts| - 1], ids, id); }
  }

  lemma OneMoreOverdue(s: Sys, ids: set<string>, id: string)
    requires id !in ids
    ensures |OverdueIn(s, ids + {id})| == |OverdueIn(s, ids)| + |OverdueIn(s, {id})|
  {
    assert OverdueIn(s, ids + {id}) == OverdueIn(s, ids) + OverdueIn(s, {id});
    Disjoint(OverdueIn(s, ids), OverdueIn(s, {id}));
  }

  /** Top times the number of messages. */
  function Budget(cfg: Config, n: nat): nat {
    if n == 0 then 0 else Budget(cfg, n - 1) + Top(cfg)
  }

  lemma {:induction false} AttemptsInRunOut(cfg: Config, acts: seq<Action>, ids: set<string>)
    requires Timely(cfg, acts) && Faithful(cfg, acts) && ids <= Run(cfg, acts).w.rows.Keys
    ensures AttemptsIn(cfg, acts, ids) <= Budget(cfg, |ids|) + |OverdueIn(Run(cfg, acts), ids)|
    decreases |ids|
  {
    hide Timely, Faithful, OverdueIn, Run;
    if ids == {} {
      NoIds(cfg, acts);
    } else {
      var id :| id in ids;
      var rest := ids - {id};
      AttemptsInRunOut(cfg, acts, rest);
      AttemptsRunOut(cfg, acts, id);
      OneMoreId(cfg, acts, rest, id);
      OneMoreOverdue(Run(cfg, acts), rest, id);
      assert rest + {id} == ids;
    }
  }

  lemma {:induction false} NoIds(cfg: Config, acts: seq<Action>)
    ensures AttemptsIn(cfg, acts, {}) == 0
  {
    if acts != [] { NoIds(cfg, acts[..|acts| - 1]); }
  }

  lemma {:induction false} AllAreKnown(cfg: Config, acts: seq<Action>, ids: set<string>)
    requires Run(cfg, acts).w.rows.Keys <= ids
    ensures AllAttempts(cfg, acts) == AttemptsIn(cfg, acts, ids)
  {
    if acts != [] {
      var (before, a) := (acts[..|acts| - 1], acts[|acts| - 1]);
      Reachable(cfg, before);
      StepKeepsInv(cfg, Run(cfg, before), a);
      AllAreKnown(cfg, before, ids);
      if Publishes(Run(cfg, before), a).Some? {
        var pc := Run(cfg, before).procs[a.pid];
        assert PcOk(cfg, Run(cfg, before).w, pc);
        assert SnapOk(Run(cfg, before).w, pc.batch[0]);
      }
      hide Step, Inv;
    }
  }

  /** Polling comes to an end: whatever the pollers do, there are no more publishes than
      MaxRetries for every message of the table, and one for every process that let its lease run
      out in between. */
  lemma PollingRunsOut(cfg: Config, acts: seq<Action>)
    requires Timely(cfg, acts) && Faithful(cfg, acts)
    ensures var s := Run(cfg, acts);
            AllAttempts(cfg, acts) <= Budget(cfg, |s.w.rows.Keys|) + |OverdueIn(s, s.w.rows.Keys)|
  {
    AllAreKnown(cfg, acts, Run(cfg, acts).w.rows.Keys);
    AttemptsInRunOut(cfg, acts, Run(cfg, acts).w.rows.Keys);
  }
}
