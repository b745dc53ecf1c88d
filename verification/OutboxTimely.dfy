/** What the outbox guarantees besides when every poller publishes and marks a message before
    its lease on it ends, and how little of it is left when one does not. */
module OutboxTimely {
  import opened Common
  import opened Text
  import opened Backoff
  import opened OutboxRuns
  import opened OutboxSafety

  /** A process that is about to publish or to mark a message still holds its lease. */
  predicate OnTime(s: Sys, a: Action) {
    a.Go? && a.pid in s.procs && Working(s.procs[a.pid]) && !s.procs[a.pid].Burying?
    ==> s.w.now <= s.procs[a.pid].batch[0].until
  }

  predicate Timely(cfg: Config, acts: seq<Action>) {
    acts == [] || (Timely(cfg, acts[..|acts| - 1]) && OnTime(Run(cfg, acts[..|acts| - 1]), acts[|acts| - 1]))
  }

  /** No process loses the mark of a failed publish. */
  predicate Marks(s: Sys, a: Action) {
    && (a.Go? && a.pid in s.procs && s.procs[a.pid].Nacking? ==> !a.d.NotSent?)
    && (a.Crash? && a.pid in s.procs ==> !s.procs[a.pid].Nacking?)
  }

  predicate Lossless(cfg: Config, acts: seq<Action>) {
    acts == [] || (Lossless(cfg, acts[..|acts| - 1]) && Marks(Run(cfg, acts[..|acts| - 1]), acts[|acts| - 1]))
  }

  /** The messages that a process has leased and not marked yet. */
  function Pendings(pc: Pc): seq<Snap> {
    if !Working(pc) then [] else if pc.Burying? then pc.batch[1..] else pc.batch
  }

  predicate Live(w: World, m: Snap) {
    w.now <= m.until
  }

  /** While a lease lasts, its row is as it was leased. */
  predicate AsLeased(w: World, m: Snap) {
    && m.id in w.rows && Open(w.rows[m.id])
    && w.rows[m.id].until == Some(m.until) && w.rows[m.id].retries == m.retries
  }

  predicate Leases(w: World, pc: Pc) {
    && (forall m :: m in Pendings(pc) && Live(w, m) ==> AsLeased(w, m))
    && (forall i, j :: 0 <= i < j < |Pendings(pc)| ==> Pendings(pc)[i].id != Pendings(pc)[j].id)
  }

  predicate Apart(w: World, a: Pc, b: Pc) {
    forall m, n :: m in Pendings(a) && n in Pendings(b) && m.id == n.id ==> !Live(w, m) || !Live(w, n)
  }

  /** The number of failed attempts that a message gets. */
  function Top(cfg: Config): int {
    if cfg.policy.maxRetries <= 1 then 1 else cfg.policy.maxRetries
  }

  predicate Level(cfg: Config, row: Row) {
    match row.status
    case Pending => row.retries == 0
    case Failed => 1 <= row.retries < Top(cfg)
    case Published => 0 <= row.retries < Top(cfg)
    case DeadLetter => row.retries == Top(cfg)
  }

  predicate Levels(cfg: Config, w: World) {
    forall id :: id in w.rows ==> Level(cfg, w.rows[id])
  }

  predicate TInv(cfg: Config, s: Sys) {
    && Levels(cfg, s.w)
    && (forall p :: p in s.procs ==> Leases(s.w, s.procs[p]))
    && (forall p, q :: p in s.procs && q in s.procs && p != q ==> Apart(s.w, s.procs[p], s.procs[q]))
  }

  /** A step that touches only rows on which `pc` has no live lease. */
  lemma Undisturbed(w: World, w': World, pc: Pc)
    requires Leases(w, pc) && w.now <= w'.now
    requires forall m :: m in Pendings(pc) && Live(w, m) && m.id in w.rows
              ==> m.id in w'.rows && w'.rows[m.id] == w.rows[m.id]
    ensures Leases(w', pc)
  {
    forall m | m in Pendings(pc) && Live(w', m) ensures AsLeased(w', m) {
      assert Live(w, m) && AsLeased(w, m);
    }
  }

  lemma StayApart(w: World, w': World, a: Pc, b: Pc, a': Pc)
    requires Apart(w, a, b) && w.now <= w'.now && forall m :: m in Pendings(a') ==> m in Pendings(a)
    ensures Apart(w', a', b) && Apart(w', b, a')
  {
    forall m, n | m in Pendings(a') && n in Pendings(b) && m.id == n.id ensures !Live(w', m) || !Live(w', n) {
      assert !Live(w, m) || !Live(w, n);
    }
  }

  /** What a step of one process does to the rows and to its own leases. */
  ghost predicate MarkOrNothing(w: World, w': World, pc: Pc, pc': Pc) {
    && w'.now == w.now
    && (forall m :: m in Pendings(pc') ==> m in Pendings(pc))
    && (w'.rows == w.rows
        || (Pendings(pc) != [] && AsLeased(w, Pendings(pc)[0]) && Pendings(pc') == Pendings(pc)[1..]
            && Pendings(pc)[0].id in w'.rows && w'.rows == w.rows[Pendings(pc)[0].id := w'.rows[Pendings(pc)[0].id]]))
    && (Pendings(pc') == Pendings(pc) || (Pendings(pc) != [] && Pendings(pc') == Pendings(pc)[1..]))
  }

  lemma WorkIsAMark(cfg: Config, s: Sys, a: Action)
    requires Inv(cfg, s) && TInv(cfg, s) && OnTime(s, a) && a.Go? && a.pid in s.procs && !s.procs[a.pid].Leasing?
    ensures var (w', pc') := Act(cfg, s.w, s.procs[a.pid], a);
            && MarkOrNothing(s.w, w', s.procs[a.pid], pc') && Levels(cfg, w')
            && (Pendings(s.procs[a.pid]) != [] && w'.rows != s.w.rows ==> Live(s.w, Pendings(s.procs[a.pid])[0]))
  {
    hide Core, Accounts, Apart, LeaseStep, Calculate;
    var pc := s.procs[a.pid];
    assert PcOk(cfg, s.w, pc) && Leases(s.w, pc);
    if Working(pc) && !pc.Burying? {
      assert pc.batch[0] in Pendings(pc) && AsLeased(s.w, pc.batch[0]);
    }
  }

  lemma MarkKeepsLeases(w: World, w': World, pc: Pc, pc': Pc)
    requires Leases(w, pc) && MarkOrNothing(w, w', pc, pc')
    ensures Leases(w', pc')
  {
    forall m | m in Pendings(pc') && Live(w', m) ensures AsLeased(w', m) {
      assert Live(w, m) && AsLeased(w, m);
    }
  }

  lemma MarkSparesOthers(w: World, w': World, pc: Pc, pc': Pc, other: Pc)
    requires Leases(w, pc) && Leases(w, other) && Apart(w, pc, other) && MarkOrNothing(w, w', pc, pc')
    requires Pendings(pc) != [] && w'.rows != w.rows ==> Live(w, Pendings(pc)[0])
    ensures Leases(w', other) && Apart(w', pc', other) && Apart(w', other, pc')
  {
    if Pendings(pc) != [] { assert Pendings(pc)[0] in Pendings(pc); }
    Undisturbed(w, w', other);
    StayApart(w, w', pc, other, pc');
  }

  lemma MarkKeepsTInv(cfg: Config, s: Sys, p: nat, w': World, pc': Pc)
    requires TInv(cfg, s) && p in s.procs && Levels(cfg, w')
    requires MarkOrNothing(s.w, w', s.procs[p], pc')
    requires Pendings(s.procs[p]) != [] && w'.rows != s.w.rows ==> Live(s.w, Pendings(s.procs[p])[0])
    ensures TInv(cfg, Sys(w', s.procs[p := pc']))
  {
    assert w'.now == s.w.now;
    hide Levels, Leases, Apart, MarkOrNothing;
    MarkKeepsLeases(s.w, w', s.procs[p], pc');
    forall q | q in s.procs && q != p
      ensures Leases(w', s.procs[q]) && Apart(w', pc', s.procs[q]) && Apart(w', s.procs[q], pc')
    {
      MarkSparesOthers(s.w, w', s.procs[p], pc', s.procs[q]);
    }
    OthersStayApart(s, w');
  }

  lemma OthersStayApart(s: Sys, w': World)
    requires forall q, r :: q in s.procs && r in s.procs && q != r ==> Apart(s.w, s.procs[q], s.procs[r])
    requires s.w.now <= w'.now
    ensures forall q, r :: q in s.procs && r in s.procs && q != r ==> Apart(w', s.procs[q], s.procs[r])
  {
    forall q, r | q in s.procs && r in s.procs && q != r ensures Apart(w', s.procs[q], s.procs[r]) {
      StayApart(s.w, w', s.procs[q], s.procs[r], s.procs[q]);
    }
  }

  lemma SnapsAreDistinct(rows: map<string, Row>, ids: set<string>, n: nat, until: int)
    requires ids <= rows.Keys
    requires forall id :: id in FirstOf(rows, ids, n) ==> id in rows
    ensures var b := Snaps(rows, FirstOf(rows, ids, n), until);
            forall i, j :: 0 <= i < j < |b| ==> b[i].id != b[j].id
  {
    LeaseTakesTheOldest(rows, ids, n);
  }

  /** What a lease does: the rows it takes were due, and now carry its term. */
  ghost predicate Took(w: World, w': World, pc': Pc) {
    && w'.now == w.now && w'.rows.Keys == w.rows.Keys
    && (forall id :: id in w.rows ==>
          w'.rows[id] == w.rows[id].(until := w'.rows[id].until, holder := w'.rows[id].holder))
    && (forall id :: id in w.rows && !Due(w.rows[id], w.now) ==> w'.rows[id] == w.rows[id])
    && (forall m :: m in Pendings(pc') ==> AsLeased(w', m) && Due(w.rows[m.id], w.now))
    && (forall i, j :: 0 <= i < j < |Pendings(pc')| ==> Pendings(pc')[i].id != Pendings(pc')[j].id)
  }

  lemma LeaseTook(cfg: Config, w: World, worker: string, d: Delivery, locked: set<string>)
    ensures var (w', pc') := LeaseStep(cfg, w, worker, d, locked); Took(w, w', pc')
  {
    hide FirstOf;
    LeaseTakesTheOldest(w.rows, Candidates(w.rows, w.now, locked), BatchSize(cfg));
    SnapsAreDistinct(w.rows, Candidates(w.rows, w.now, locked), BatchSize(cfg), w.now + LeaseDuration(cfg));
  }

  lemma LeaseKeepsTInv(cfg: Config, s: Sys, p: nat, w': World, pc': Pc)
    requires TInv(cfg, s) && p in s.procs && s.procs[p].Leasing? && Took(s.w, w', pc')
    ensures TInv(cfg, Sys(w', s.procs[p := pc']))
  {
    assert Levels(cfg, w');
    hide Level;
    forall q | q in s.procs && q != p
      ensures Leases(w', s.procs[q]) && Apart(w', pc', s.procs[q]) && Apart(w', s.procs[q], pc')
    {
      assert Leases(s.w, s.procs[q]);
      forall m | m in Pendings(s.procs[q]) && Live(s.w, m)
        ensures w'.rows[m.id] == s.w.rows[m.id] && !Due(s.w.rows[m.id], s.w.now)
      {
        assert AsLeased(s.w, m);
      }
      Undisturbed(s.w, w', s.procs[q]);
    }
    OthersStayApart(s, w');
  }

  lemma WorldKeepsTInv(cfg: Config, s: Sys, w': World)
    requires TInv(cfg, s) && s.w.now <= w'.now && Levels(cfg, w')
    requires forall id :: id in s.w.rows ==> id in w'.rows && w'.rows[id] == s.w.rows[id]
    ensures TInv(cfg, Sys(w', s.procs))
  {
    hide Levels;
    forall p | p in s.procs ensures Leases(w', s.procs[p]) {
      assert Leases(s.w, s.procs[p]);
      Undisturbed(s.w, w', s.procs[p]);
    }
    hide Leases, Apart;
    OthersStayApart(s, w');
  }

  lemma IdleKeepsTInv(cfg: Config, s: Sys, p: nat, pc: Pc)
    requires TInv(cfg, s) && Pendings(pc) == []
    ensures TInv(cfg, Sys(s.w, s.procs[p := pc]))
  {
    hide Levels;
    assert Leases(s.w, pc);
    assert forall other :: Apart(s.w, pc, other) && Apart(s.w, other, pc);
  }

  lemma QuietKeepsTInv(cfg: Config, s: Sys, a: Action)
    requires Inv(cfg, s) && TInv(cfg, s) && !a.Go?
    ensures TInv(cfg, Step(cfg, s, a))
  {
    var s' := Step(cfg, s, a);
    match a
    case Insert(_, _) => if s' != s { WorldKeepsTInv(cfg, s, s'.w); }
    case Tick(_) => WorldKeepsTInv(cfg, s, s'.w);
    case Poll(pid, worker) => if s' != s { IdleKeepsTInv(cfg, s, pid, Leasing(worker)); }
    case Cancel(pid) => if s' != s { IdleKeepsTInv(cfg, s, pid, s'.procs[pid]); }
    case Crash(_) => hide Levels, Leases, Apart;
  }

  lemma StepKeepsTInv(cfg: Config, s: Sys, a: Action)
    requires Inv(cfg, s) && TInv(cfg, s) && OnTime(s, a)
    ensures TInv(cfg, Step(cfg, s, a))
  {
    hide Inv, TInv, LeaseStep;
    if !a.Go? {
      QuietKeepsTInv(cfg, s, a);
    } else if a.pid in s.procs {
      var (w', pc') := Act(cfg, s.w, s.procs[a.pid], a);
      if s.procs[a.pid].Leasing? {
        LeaseTook(cfg, s.w, s.procs[a.pid].worker, a.d, a.locked);
        LeaseKeepsTInv(cfg, s, a.pid, w', pc');
      } else {
        WorkIsAMark(cfg, s, a);
        MarkKeepsTInv(cfg, s, a.pid, w', pc');
      }
    }
  }

  lemma {:induction false} TimelyReachable(cfg: Config, acts: seq<Action>)
    requires Timely(cfg, acts)
    ensures TInv(cfg, Run(cfg, acts))
  {
    if acts != [] {
      TimelyReachable(cfg, acts[..|acts| - 1]);
      Reachable(cfg, acts[..|acts| - 1]);
      StepKeepsTInv(cfg, Run(cfg, acts[..|acts| - 1]), acts[|acts| - 1]);
    }
  }

  // ---- the guarantees ------------------------------------------------------------------

  /** Leases are exclusive: of two processes that have both leased a message and not marked it,
      one has let its lease run out; and a process that still holds one sees the row as it
      leased it. */
  lemma {:induction false} LeasesAreExclusive(cfg: Config, acts: seq<Action>, p: nat, q: nat, m: Snap, n: Snap)
    requires Timely(cfg, acts)
    requires var s := Run(cfg, acts);
             && p in s.procs && m in Pendings(s.procs[p]) && Live(s.w, m)
             && q in s.procs && n in Pendings(s.procs[q]) && Live(s.w, n) && m.id == n.id
    ensures p == q && m == n && AsLeased(Run(cfg, acts).w, m)
  {
    TimelyReachable(cfg, acts);
    var s := Run(cfg, acts);
    assert Leases(s.w, s.procs[p]);
    assert p == q || Apart(s.w, s.procs[p], s.procs[q]);
  }

  predicate Terminal(w: World, id: string) {
    id in w.rows && !Open(w.rows[id])
  }

  /** Nothing has happened to the message `id` from `w` to `w'`: same row, no new copy. */
  ghost predicate LeftAlone(w: World, w': World, id: string) {
    && id in w.rows && id in w'.rows && w'.rows[id] == w.rows[id]
    && w.log <= w'.log && (forall i :: |w.log| <= i < |w'.log| ==> w'.log[i].header != id)
  }

  lemma TerminalStays(cfg: Config, s: Sys, a: Action, id: string)
    requires Inv(cfg, s) && TInv(cfg, s) && OnTime(s, a) && Terminal(s.w, id)
    ensures LeftAlone(s.w, Step(cfg, s, a).w, id)
  {
    hide Core, Accounts, PcOk, Apart, Levels;
    if a.Go? && a.pid in s.procs {
      var pc := s.procs[a.pid];
      if pc.Leasing? {
        LeaseTook(cfg, s.w, pc.worker, a.d, a.locked);
      } else if Working(pc) && !pc.Burying? {
        assert Leases(s.w, pc);
        assert pc.batch[0] in Pendings(pc) && AsLeased(s.w, pc.batch[0]);
      }
    }
  }

  lemma TimelyPrefix(cfg: Config, acts: seq<Action>, more: seq<Action>)
    requires Timely(cfg, acts + more) && more != []
    ensures Timely(cfg, acts + more[..|more| - 1])
    ensures OnTime(Run(cfg, acts + more[..|more| - 1]), more[|more| - 1])
  {
    hide Run, OnTime, Timely;
    assert acts + more == (acts + more[..|more| - 1]) + [more[|more| - 1]];
    TimelyOne(cfg, acts + more[..|more| - 1], more[|more| - 1]);
  }

  lemma TimelyOne(cfg: Config, before: seq<Action>, a: Action)
    requires Timely(cfg, before + [a])
    ensures Timely(cfg, before) && OnTime(Run(cfg, before), a)
  {
    hide Run, OnTime;
    assert (before + [a])[..|before|] == before;
  }

  /** PUBLISHED and DEAD_LETTER are for good: the row never changes again and the message is
      never published again. */
  lemma {:induction false} TerminalIsFinal(cfg: Config, acts: seq<Action>, more: seq<Action>, id: string)
    requires Timely(cfg, acts + more) && Terminal(Run(cfg, acts).w, id)
    ensures LeftAlone(Run(cfg, acts).w, Run(cfg, acts + more).w, id)
  {
    if more == [] {
      assert acts + more == acts;
    } else {
      var before := acts + more[..|more| - 1];
      TimelyPrefix(cfg, acts, more);
      RunMore(cfg, acts, more);
      TerminalIsFinal(cfg, acts, more[..|more| - 1], id);
      Reachable(cfg, before);
      TimelyReachable(cfg, before);
      TerminalStays(cfg, Run(cfg, before), more[|more| - 1], id);
    }
  }

  /** The processes that failed to publish `id` and then let their lease run out unmarked. */
  function Stalled(s: Sys, id: string): set<nat> {
    set p | p in Waiting(s.procs, id) && !Live(s.w, s.procs[p].batch[0])
  }

  lemma {:induction false} EveryFailureCounts(cfg: Config, acts: seq<Action>, id: string)
    requires Lossless(cfg, acts)
    ensures var s := Run(cfg, acts);
            id in s.w.rows ==> Failures(s.w, id) == s.w.rows[id].retries + |Waiting(s.procs, id)|
    ensures var s := Run(cfg, acts); id !in s.w.rows ==> Failures(s.w, id) == 0 && Waiting(s.procs, id) == {}
  {
    if acts != [] {
      var (before, a) := (acts[..|acts| - 1], acts[|acts| - 1]);
      EveryFailureCounts(cfg, before, id);
      Reachable(cfg, before);
      StepCounts(cfg, Run(cfg, before), a, id);
    }
  }

  lemma StepCounts(cfg: Config, s: Sys, a: Action, id: string)
    requires Inv(cfg, s) && Marks(s, a)
    requires if id in s.w.rows then Failures(s.w, id) == s.w.rows[id].retries + |Waiting(s.procs, id)|
             else Failures(s.w, id) == 0 && Waiting(s.procs, id) == {}
    ensures var s' := Step(cfg, s, a);
            if id in s'.w.rows then Failures(s'.w, id) == s'.w.rows[id].retries + |Waiting(s'.procs, id)|
            else Failures(s'.w, id) == 0 && Waiting(s'.procs, id) == {}
  {
    hide Core, LeaseStep;
    var s' := Step(cfg, s, a);
    if id !in s.w.rows { UnknownStaysUnknown(cfg, s, a, id); }
    else {
      match a
      case Go(pid, _, _, _) => if pid in s.procs { ActCounts(cfg, s, a, id); }
      case Poll(pid, worker) => if s' != s { WaitingMoves(s.procs, pid, Leasing(worker), id); }
      case Cancel(pid) => if s' != s { WaitingMoves(s.procs, pid, s'.procs[pid], id); }
      case Crash(pid) => WaitingFalls(s.procs, pid, id);
      case _ =>
    }
  }

  lemma UnknownStaysUnknown(cfg: Config, s: Sys, a: Action, id: string)
    requires Inv(cfg, s) && id !in s.w.rows && Failures(s.w, id) == 0
    ensures var s' := Step(cfg, s, a);
            Failures(s'.w, id) == 0 && Waiting(s'.procs, id) == {}
            && (id in s'.w.rows ==> s'.w.rows[id].retries == 0)
  {
    var s' := Step(cfg, s, a);
    StepKeepsInv(cfg, s, a);
    if a.Go? && a.pid in s.procs {
      assert PcOk(cfg, s.w, s.procs[a.pid]);
      UnknownAct(cfg, s.w, s.procs[a.pid], a, id);
    }
    NobodyOwes(cfg, s, id);
    hide Inv, Act, PcOk;
    if id !in s'.w.rows { NobodyOwes(cfg, s', id); }
  }

  lemma UnknownAct(cfg: Config, w: World, pc: Pc, a: Action, id: string)
    requires PcOk(cfg, w, pc) && a.Go? && id !in w.rows && Failures(w, id) == 0
    ensures var w' := Act(cfg, w, pc, a).0; id !in w'.rows && Failures(w', id) == 0
  {
    SameRows(cfg, w, pc, a);
    if pc.Publishing? { assert SnapOk(w, pc.batch[0]); }
  }

  /** A message that is not lost track of fails MaxRetries times (once, if that is less than
      one) and no more, except once for every process that let its lease run out between the
      failure and its mark. DEAD_LETTER comes with the last of them, and not before. */
  lemma {:induction false} RetriesRunOut(cfg: Config, acts: seq<Action>, id: string)
    requires Timely(cfg, acts) && Lossless(cfg, acts) && id in Run(cfg, acts).w.rows
    ensures var s := Run(cfg, acts);
            && Failures(s.w, id) <= Top(cfg) + |Stalled(s, id)|
            && (s.w.rows[id].status.DeadLetter? ==> Failures(s.w, id) == Top(cfg) + |Stalled(s, id)|)
  {
    TimelyReachable(cfg, acts);
    EveryFailureCounts(cfg, acts, id);
    var s := Run(cfg, acts);
    assert Level(cfg, s.w.rows[id]);
    FewWaitInTime(cfg, acts, id);
  }

  lemma FewWaitInTime(cfg: Config, acts: seq<Action>, id: string)
    requires Timely(cfg, acts) && id in Run(cfg, acts).w.rows
    ensures var s := Run(cfg, acts);
            |Waiting(s.procs, id)| <= |Stalled(s, id)| + if Open(s.w.rows[id]) then 1 else 0
    ensures var s := Run(cfg, acts); |Stalled(s, id)| <= |Waiting(s.procs, id)|
  {
    hide Timely, Run;
    var s := Run(cfg, acts);
    var live := Waiting(s.procs, id) - Stalled(s, id);
    assert Waiting(s.procs, id) == live + Stalled(s, id);
    if p :| p in live {
      OneWaitsInTime(cfg, acts, id, p);
      assert live == {p};
    }
  }

  lemma OneWaitsInTime(cfg: Config, acts: seq<Action>, id: string, p: nat)
    requires Timely(cfg, acts)
    requires var s := Run(cfg, acts); p in Waiting(s.procs, id) - Stalled(s, id)
    ensures var s := Run(cfg, acts);
            && id in s.w.rows && Open(s.w.rows[id])
            && forall q :: q in Waiting(s.procs, id) - Stalled(s, id) ==> q == p
  {
    var s := Run(cfg, acts);
    LeasesAreExclusive(cfg, acts, p, p, s.procs[p].batch[0], s.procs[p].batch[0]);
    forall q | q in Waiting(s.procs, id) - Stalled(s, id) ensures q == p {
      LeasesAreExclusive(cfg, acts, p, q, s.procs[p].batch[0], s.procs[q].batch[0]);
    }
  }

  // ---- without that --------------------------------------------------------------------

  /** A poller that outstays its lease can undo PUBLISHED: neither mark asks who holds the row
      or what its status is. Here the first poller publishes and marks, the second, whose lease
      came after the first one's had run out, fails to publish and marks. */
  function Overtaken(cfg: Config): seq<Action> {
    [Insert("m", "o"), Poll(1, "a"), Poll(2, "b"), Go(1, Delivered, {}, None), Tick(LeaseDuration(cfg) + 1),
     Go(2, Delivered, {}, None), Go(1, Delivered, {}, None), Go(1, Delivered, {}, None),
     Go(2, NotSent, {}, None), Go(2, Delivered, {}, None)]
  }

  lemma OneRowLease(cfg: Config, w: World, worker: string)
    requires w.rows.Keys == {"m"} && Due(w.rows["m"], w.now)
    ensures LeaseStep(cfg, w, worker, Delivered, {})
            == (w.(rows := map["m" := w.rows["m"].(until := Some(w.now + LeaseDuration(cfg)), holder := Some(worker))]),
                Publishing([Snap("m", w.rows["m"].retries, w.now + LeaseDuration(cfg))], 0))
  {
    var c := Candidates(w.rows, w.now, {});
    assert c == {"m"};
    LeaseTakesTheOldest(w.rows, c, BatchSize(cfg));
    var batch := FirstOf(w.rows, c, BatchSize(cfg));
    assert batch == ["m"];
    var until := w.now + LeaseDuration(cfg);
    assert Leased(w.rows, batch, until, worker)
        == map["m" := w.rows["m"].(until := Some(until), holder := Some(worker))];
    assert Snaps(w.rows, batch, until) == [Snap("m", w.rows["m"].retries, until)];
  }

  /** Both pollers have leased the message. */
  function BothLeased(cfg: Config): Sys {
    var t := LeaseDuration(cfg);
    Sys(World(t + 1, map["m" := Row("o", 0, Pending, 0, Some(t + 1 + t), Some("b"))], [], [], map[]),
        map[1 := Publishing([Snap("m", 0, t)], 0), 2 := Publishing([Snap("m", 0, t + 1 + t)], 0)])
  }

  /** The first poller has leased the message and outstayed its lease. */
  function FirstLeased(cfg: Config): Sys {
    var t := LeaseDuration(cfg);
    Sys(World(t + 1, map["m" := Row("o", 0, Pending, 0, Some(t), Some("a"))], [], [], map[]),
        map[1 := Publishing([Snap("m", 0, t)], 0), 2 := Leasing("b")])
  }

  /** Both are about to lease it. */
  function BothPoll(): Sys {
    Sys(World(0, map["m" := Row("o", 0, Pending, 0, None, None)], [], [], map[]),
        map[1 := Leasing("a"), 2 := Leasing("b")])
  }

  lemma BothStart(cfg: Config)
    ensures Run(cfg, Overtaken(cfg)[..3]) == BothPoll()
  {
    hide LeaseStep, Act;
    TwoMore(cfg, Overtaken(cfg), 0);
    OneMore(cfg, Overtaken(cfg), 2);
  }

  lemma FirstLeases(cfg: Config)
    ensures Run(cfg, Overtaken(cfg)[..5]) == FirstLeased(cfg)
  {
    BothStart(cfg);
    hide LeaseStep, Run;
    OneRowLease(cfg, BothPoll().w, "a");
    TwoMore(cfg, Overtaken(cfg), 3);
  }

  lemma BothLease(cfg: Config)
    ensures Run(cfg, Overtaken(cfg)[..6]) == BothLeased(cfg)
  {
    FirstLeases(cfg);
    hide LeaseStep;
    OneRowLease(cfg, FirstLeased(cfg).w, "b");
    OneMore(cfg, Overtaken(cfg), 5);
  }

  /** The first poller has published and marked. */
  function FirstMarked(cfg: Config): Sys {
    var t := LeaseDuration(cfg);
    Sys(World(t + 1, map["m" := Row("o", 0, Published, 0, None, None)], [], [Envelope("m", "o", true)], map[]),
        map[1 := Finished(1, false), 2 := Publishing([Snap("m", 0, t + 1 + t)], 0)])
  }

  lemma FirstMarks(cfg: Config)
    ensures Run(cfg, Overtaken(cfg)[..8]) == FirstMarked(cfg)
  {
    BothLease(cfg);
    hide FirstOf, LeaseStep, Run, NackStep, BuryStep;
    TwoMore(cfg, Overtaken(cfg), 6);
  }

  lemma {:induction false} PublishedMayBeUndone(cfg: Config)
    ensures var (b, a) := (Run(cfg, Overtaken(cfg)[..8]).w.rows, Run(cfg, Overtaken(cfg)).w.rows);
            "m" in b && b["m"].status.Published? && "m" in a && (a["m"].status.Failed? || a["m"].status.DeadLetter?)
  {
    FirstMarks(cfg);
    hide FirstOf, LeaseStep, Run, AckStep;
    TwoMore(cfg, Overtaken(cfg), 8);
    assert Overtaken(cfg)[..10] == Overtaken(cfg);
  }

  lemma OneMore(cfg: Config, acts: seq<Action>, i: nat)
    requires i < |acts|
    ensures Run(cfg, acts[..i + 1]) == Step(cfg, Run(cfg, acts[..i]), acts[i])
  {
    assert acts[..i + 1][..i] == acts[..i];
  }

  lemma TwoMore(cfg: Config, acts: seq<Action>, i: nat)
    requires i + 1 < |acts|
    ensures Run(cfg, acts[..i + 2]) == Step(cfg, Step(cfg, Run(cfg, acts[..i]), acts[i]), acts[i + 1])
  {
    OneMore(cfg, acts, i);
    OneMore(cfg, acts, i + 1);
  }
}
