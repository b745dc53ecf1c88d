/** What the outbox guarantees in every interleaving, whatever the leases do. */
module OutboxSafety {
  import opened Common
  import opened Text
  import opened Backoff
  import opened OutboxRuns

  predicate InLog(log: seq<Envelope>, id: string) {
    exists i :: 0 <= i < |log| && log[i].header == id
  }

  predicate RowOk(cfg: Config, w: World, id: string)
    requires id in w.rows
  {
    var row := w.rows[id];
    && id != "" && 0 <= row.retries <= Failures(w, id)
    && (row.status.Pending? ==> row.retries == 0)
    && (row.status.Published? ==> InLog(w.log, id))
    && (!Open(row) ==> row.until.None? && row.holder.None?)
    && (row.status.DeadLetter? ==> IsMaxRetriesExceeded(cfg.policy, row.retries) && row.retries >= 1)
  }

  /** A message in the log is a message of the table, addressed as the table says. */
  predicate SentOk(w: World, e: Envelope) {
    e.header in w.rows && e == Envelope(e.header, w.rows[e.header].aggregate, true)
  }

  predicate BuriedOk(cfg: Config, w: World, b: Buried) {
    b.source in w.rows && IsMaxRetriesExceeded(cfg.policy, b.retries) && 1 <= b.retries <= Failures(w, b.source)
  }

  predicate Core(cfg: Config, w: World) {
    && (forall id :: id in w.rows ==> RowOk(cfg, w, id))
    && (forall e :: e in w.log ==> SentOk(w, e))
    && (forall b :: b in w.dead ==> BuriedOk(cfg, w, b))
  }

  predicate SnapOk(w: World, m: Snap) {
    m.id in w.rows && 0 <= m.retries <= w.rows[m.id].retries
  }

  predicate HeadOk(cfg: Config, w: World, pc: Pc)
    requires Working(pc)
  {
    var m := pc.batch[0];
    match pc
    case Acking(_, _) => InLog(w.log, m.id)
    case Nacking(_, _, dead, _) =>
      m.retries + 1 <= Failures(w, m.id) && dead == IsMaxRetriesExceeded(cfg.policy, m.retries + 1)
    case Burying(_, _) => m.retries + 1 <= Failures(w, m.id) && IsMaxRetriesExceeded(cfg.policy, m.retries + 1)
    case _ => true
  }

  predicate PcOk(cfg: Config, w: World, pc: Pc) {
    pc.Leasing? || pc.Finished?
    || (Working(pc) && (forall m :: m in pc.batch ==> SnapOk(w, m)) && HeadOk(cfg, w, pc))
  }

  /** A failed publish of `id` that this process has yet to mark. */
  predicate Owes(pc: Pc, id: string) {
    pc.Nacking? && pc.batch != [] && pc.batch[0].id == id
  }

  function Waiting(procs: map<nat, Pc>, id: string): set<nat> {
    set p | p in procs && Owes(procs[p], id)
  }

  /** Every retry that a row counts, and every one still to be counted, was a failed publish. */
  predicate Accounts(s: Sys) {
    forall id :: id in s.w.rows ==> s.w.rows[id].retries + |Waiting(s.procs, id)| <= Failures(s.w, id)
  }

  predicate Inv(cfg: Config, s: Sys) {
    && Core(cfg, s.w)
    && (forall p :: p in s.procs ==> PcOk(cfg, s.w, s.procs[p]))
    && Accounts(s)
  }

  ghost predicate Follows(w: World, w': World) {
    && w.now <= w'.now && w.log <= w'.log
    && (forall id :: id in w.rows ==>
          && id in w'.rows && w'.rows[id].retries >= w.rows[id].retries
          && w'.rows[id].aggregate == w.rows[id].aggregate)
    && (forall id :: Failures(w, id) <= Failures(w', id))
  }

  lemma OthersKeep(cfg: Config, w: World, w': World, pc: Pc)
    requires PcOk(cfg, w, pc) && Follows(w, w')
    ensures PcOk(cfg, w', pc)
  {
    if Working(pc) {
      var id := pc.batch[0].id;
      if InLog(w.log, id) {
        var i :| 0 <= i < |w.log| && w.log[i].header == id;
        assert w'.log[i].header == id;
      }
    }
  }

  ghost predicate StepOk(cfg: Config, w: World, w': World, pc': Pc) {
    Core(cfg, w') && PcOk(cfg, w', pc') && Follows(w, w')
  }

  /** A lease changes nothing but the leases, and copies the rows it has taken. */
  lemma LeaseCopies(cfg: Config, w: World, worker: string, d: Delivery, locked: set<string>)
    ensures var (w', pc') := LeaseStep(cfg, w, worker, d, locked);
            && w' == w.(rows := w'.rows) && w'.rows.Keys == w.rows.Keys
            && (forall id :: id in w.rows ==>
                  w'.rows[id] == w.rows[id].(until := w'.rows[id].until, holder := w'.rows[id].holder))
            && (forall id :: id in w.rows && !Open(w.rows[id]) ==> w'.rows[id] == w.rows[id])
            && (pc'.Finished? || (pc'.Publishing? && pc'.batch != []
                                  && forall m :: m in pc'.batch ==>
                                       m.id in w.rows && m.retries == w.rows[m.id].retries))
  {
    hide FirstOf;
    LeaseTakesTheOldest(w.rows, Candidates(w.rows, w.now, locked), BatchSize(cfg));
  }

  lemma LeaseOk(cfg: Config, w: World, worker: string, d: Delivery, locked: set<string>)
    requires Core(cfg, w)
    ensures var (w', pc') := LeaseStep(cfg, w, worker, d, locked); StepOk(cfg, w, w', pc')
  {
    var (w', pc') := LeaseStep(cfg, w, worker, d, locked);
    LeaseCopies(cfg, w, worker, d, locked);
    hide LeaseStep;
    forall id | id in w'.rows ensures RowOk(cfg, w', id) { assert RowOk(cfg, w, id); }
    forall e | e in w'.log ensures SentOk(w', e) { assert SentOk(w, e); }
    forall b | b in w'.dead ensures BuriedOk(cfg, w', b) { assert BuriedOk(cfg, w, b); }
    if pc'.Publishing? {
      forall m | m in pc'.batch ensures SnapOk(w', m) {
        assert RowOk(cfg, w, m.id);
      }
    }
  }

  lemma PublishOk(cfg: Config, w: World, pc: Pc, d: Delivery, draw: Option<nat>)
    requires Core(cfg, w) && PcOk(cfg, w, pc) && pc.Publishing?
    ensures var (w', pc') := PublishStep(cfg, w, pc, d, draw); StepOk(cfg, w, w', pc')
  {
    var (w', pc') := PublishStep(cfg, w, pc, d, draw);
    var m := pc.batch[0];
    assert SnapOk(w, m) && RowOk(cfg, w, m.id);
    if !d.NotSent? { assert w'.log[|w.log|].header == m.id; }
    assert Follows(w, w');
    forall id | id in w'.rows ensures RowOk(cfg, w', id) {
      assert RowOk(cfg, w, id);
      if InLog(w.log, id) {
        var i :| 0 <= i < |w.log| && w.log[i].header == id;
        assert w'.log[i].header == id;
      }
    }
    forall m | m in pc'.batch ensures SnapOk(w', m) { assert SnapOk(w, m); }
  }

  /** One row has got another status. */
  lemma MarkOk(cfg: Config, w: World, id: string, row: Row)
    requires Core(cfg, w) && id in w.rows && row.aggregate == w.rows[id].aggregate && row.retries >= w.rows[id].retries
    requires RowOk(cfg, w.(rows := w.rows[id := row]), id)
    ensures var w' := w.(rows := w.rows[id := row]); Core(cfg, w') && Follows(w, w')
  {
    var w' := w.(rows := w.rows[id := row]);
    forall k | k in w'.rows ensures RowOk(cfg, w', k) { if k != id { assert RowOk(cfg, w, k); } }
  }

  lemma NextOk(cfg: Config, w: World, batch: seq<Snap>, published: nat)
    requires batch != [] && forall m :: m in batch ==> SnapOk(w, m)
    ensures PcOk(cfg, w, NextUp(batch, published))
  {
  }

  lemma AckOk(cfg: Config, w: World, pc: Pc, d: Delivery)
    requires Core(cfg, w) && PcOk(cfg, w, pc) && pc.Acking?
    ensures var (w', pc') := AckStep(w, pc, d); StepOk(cfg, w, w', pc')
  {
    var (w', pc') := AckStep(w, pc, d);
    var id := pc.batch[0].id;
    assert SnapOk(w, pc.batch[0]) && RowOk(cfg, w, id);
    MarkOk(cfg, w, id, w.rows[id].(status := Published, until := None, holder := None));
    assert Follows(w, w');
    forall m | m in pc.batch ensures SnapOk(w', m) { assert SnapOk(w, m); }
    NextOk(cfg, w', pc.batch, if d.Delivered? then pc.published + 1 else pc.published);
    NextOk(cfg, w', pc.batch, pc.published);
  }

  lemma NackOk(cfg: Config, w: World, pc: Pc, d: Delivery)
    requires Core(cfg, w) && PcOk(cfg, w, pc) && pc.Nacking?
    requires SnapOk(w, pc.batch[0]) && w.rows[pc.batch[0].id].retries + 1 <= Failures(w, pc.batch[0].id)
    ensures var (w', pc') := NackStep(w, pc, d); StepOk(cfg, w, w', pc')
  {
    var (w', pc') := NackStep(w, pc, d);
    var id := pc.batch[0].id;
    assert SnapOk(w, pc.batch[0]) && RowOk(cfg, w, id);
    MarkOk(cfg, w, id, Marked(w.rows[id], pc.dead, pc.retryAt));
    assert Follows(w, w');
    forall m | m in pc.batch ensures SnapOk(w', m) { assert SnapOk(w, m); }
    NextOk(cfg, w', pc.batch, pc.published);
  }

  lemma BuryOk(cfg: Config, w: World, pc: Pc, d: Delivery)
    requires Core(cfg, w) && PcOk(cfg, w, pc) && pc.Burying?
    ensures var (w', pc') := BuryStep(w, pc, d); StepOk(cfg, w, w', pc')
  {
    var (w', pc') := BuryStep(w, pc, d);
    assert SnapOk(w, pc.batch[0]);
    forall id | id in w'.rows ensures RowOk(cfg, w', id) { assert RowOk(cfg, w, id); }
    forall b | b in w'.dead ensures BuriedOk(cfg, w', b) {
      if b in w.dead { assert BuriedOk(cfg, w, b); }
    }
    NextOk(cfg, w', pc.batch, pc.published);
  }

  lemma ActOk(cfg: Config, w: World, pc: Pc, a: Action)
    requires Core(cfg, w) && PcOk(cfg, w, pc) && a.Go?
    requires pc.Nacking? ==> SnapOk(w, pc.batch[0]) && w.rows[pc.batch[0].id].retries + 1 <= Failures(w, pc.batch[0].id)
    ensures var (w', pc') := Act(cfg, w, pc, a); StepOk(cfg, w, w', pc')
  {
    match pc
    case Leasing(worker) => LeaseOk(cfg, w, worker, a.d, a.locked);
    case Publishing(_, _) => PublishOk(cfg, w, pc, a.d, a.draw);
    case Acking(_, _) => AckOk(cfg, w, pc, a.d);
    case Nacking(_, _, _, _) => NackOk(cfg, w, pc, a.d);
    case Burying(_, _) => BuryOk(cfg, w, pc, a.d);
    case Finished(_, _) =>
  }

  // ---- counting what is still owed -----------------------------------------------------

  lemma WaitingMoves(procs: map<nat, Pc>, p: nat, pc: Pc, id: string)
    ensures |Waiting(procs[p := pc], id)| + (if p in procs && Owes(procs[p], id) then 1 else 0)
            == |Waiting(procs, id)| + (if Owes(pc, id) then 1 else 0)
  {
    var (before, after) := (Waiting(procs, id), Waiting(procs[p := pc], id));
    assert p in before <==> p in procs && Owes(procs[p], id);
    assert p in after <==> Owes(pc, id);
    assert before - {p} == after - {p};
    OneMember(before, after, p);
  }

  lemma WaitingFalls(procs: map<nat, Pc>, p: nat, id: string)
    ensures |Waiting(procs - {p}, id)| <= |Waiting(procs, id)|
    ensures !(p in procs && Owes(procs[p], id)) ==> |Waiting(procs - {p}, id)| == |Waiting(procs, id)|
  {
    var before, after := Waiting(procs, id), Waiting(procs - {p}, id);
    assert after == before - {p};
  }

  /** A step moves a message's retry count, its failures and its debts together: what a
      process fails to publish it owes, and what it stops owing it has counted or lost. */
  lemma ActCounts(cfg: Config, s: Sys, a: Action, id: string)
    requires Inv(cfg, s) && a.Go? && a.pid in s.procs && id in s.w.rows
    ensures var s' := Step(cfg, s, a);
            && id in s'.w.rows
            && var (r, f, o) := (s.w.rows[id].retries, Failures(s.w, id), |Waiting(s.procs, id)|);
               var (r', f', o') := (s'.w.rows[id].retries, Failures(s'.w, id), |Waiting(s'.procs, id)|);
               f' - r' - o' == if Owes(s.procs[a.pid], id) && a.d.NotSent? then f - r - o + 1 else f - r - o
  {
    hide RowOk, SentOk, BuriedOk;
    var (w', pc') := Act(cfg, s.w, s.procs[a.pid], a);
    assert PcOk(cfg, s.w, s.procs[a.pid]);
    WaitingMoves(s.procs, a.pid, pc', id);
  }

  lemma GoKeepsInv(cfg: Config, s: Sys, a: Action)
    requires Inv(cfg, s) && a.Go? && a.pid in s.procs
    ensures Inv(cfg, Step(cfg, s, a)) && Follows(s.w, Step(cfg, s, a).w)
  {
    hide Core, RowOk, HeadOk, Act;
    var s' := Step(cfg, s, a);
    var pc := s.procs[a.pid];
    assert PcOk(cfg, s.w, pc);
    if pc.Nacking? {
      var id := pc.batch[0].id;
      assert SnapOk(s.w, pc.batch[0]);
      assert a.pid in Waiting(s.procs, id);
    }
    ActOk(cfg, s.w, pc, a);
    forall p | p in s'.procs ensures PcOk(cfg, s'.w, s'.procs[p]) {
      if p != a.pid { OthersKeep(cfg, s.w, s'.w, s.procs[p]); }
    }
    forall id | id in s'.w.rows
      ensures s'.w.rows[id].retries + |Waiting(s'.procs, id)| <= Failures(s'.w, id)
    {
      SameRows(cfg, s.w, pc, a);
      ActCounts(cfg, s, a, id);
    }
  }

  lemma SameRows(cfg: Config, w: World, pc: Pc, a: Action)
    requires a.Go?
    ensures Act(cfg, w, pc, a).0.rows.Keys == w.rows.Keys
  {
  }

  lemma NobodyOwes(cfg: Config, s: Sys, id: string)
    requires Inv(cfg, s) && id !in s.w.rows
    ensures Waiting(s.procs, id) == {}
  {
    forall p | p in s.procs ensures !Owes(s.procs[p], id) {
      assert PcOk(cfg, s.w, s.procs[p]);
      if s.procs[p].Nacking? { assert SnapOk(s.w, s.procs[p].batch[0]); }
    }
  }

  lemma InsertKeepsCore(cfg: Config, w: World, id: string, row: Row)
    requires Core(cfg, w) && id != "" && id !in w.rows && row.status.Pending? && row.retries == 0
    ensures var w' := w.(rows := w.rows[id := row]); Core(cfg, w') && Follows(w, w')
  {
    var w' := w.(rows := w.rows[id := row]);
    forall k | k in w'.rows ensures RowOk(cfg, w', k) { if k != id { assert RowOk(cfg, w, k); } }
    forall b | b in w'.dead ensures BuriedOk(cfg, w', b) { assert BuriedOk(cfg, w, b); }
  }

  lemma InsertKeepsInv(cfg: Config, s: Sys, id: string, aggregate: string)
    requires Inv(cfg, s)
    ensures Inv(cfg, Step(cfg, s, Insert(id, aggregate))) && Follows(s.w, Step(cfg, s, Insert(id, aggregate)).w)
  {
    var s' := Step(cfg, s, Insert(id, aggregate));
    if s' != s {
      InsertKeepsCore(cfg, s.w, id, s'.w.rows[id]);
      hide Core, RowOk, HeadOk;
      forall p | p in s'.procs ensures PcOk(cfg, s'.w, s'.procs[p]) {
        OthersKeep(cfg, s.w, s'.w, s.procs[p]);
      }
      NobodyOwes(cfg, s, id);
    }
  }

  lemma TickKeepsInv(cfg: Config, s: Sys, a: Action)
    requires Inv(cfg, s) && a.Tick?
    ensures Inv(cfg, Step(cfg, s, a)) && Follows(s.w, Step(cfg, s, a).w)
  {
    var s' := Step(cfg, s, a);
    forall id | id in s'.w.rows ensures RowOk(cfg, s'.w, id) { assert RowOk(cfg, s.w, id); }
    forall b | b in s'.w.dead ensures BuriedOk(cfg, s'.w, b) { assert BuriedOk(cfg, s.w, b); }
    hide RowOk, HeadOk, BuriedOk;
    forall p | p in s'.procs ensures PcOk(cfg, s'.w, s'.procs[p]) {
      OthersKeep(cfg, s.w, s'.w, s.procs[p]);
    }
  }

  lemma StepKeepsInv(cfg: Config, s: Sys, a: Action)
    requires Inv(cfg, s)
    ensures Inv(cfg, Step(cfg, s, a)) && Follows(s.w, Step(cfg, s, a).w)
  {
    var s' := Step(cfg, s, a);
    hide RowOk, BuriedOk, Act;
    match a
    case Insert(id, aggregate) => InsertKeepsInv(cfg, s, id, aggregate);
    case Go(pid, _, _, _) => if pid in s.procs { GoKeepsInv(cfg, s, a); }
    case Tick(_) => TickKeepsInv(cfg, s, a);
    case Crash(pid) =>
      hide Core, HeadOk;
      forall id | id in s.w.rows ensures |Waiting(s'.procs, id)| <= |Waiting(s.procs, id)| {
        WaitingFalls(s.procs, pid, id);
      }
    case Poll(pid, worker) =>
      hide Core, HeadOk;
      forall id | id in s.w.rows && s' != s ensures |Waiting(s'.procs, id)| == |Waiting(s.procs, id)| {
        WaitingMoves(s.procs, pid, Leasing(worker), id);
      }
    case Cancel(pid) =>
      hide Core, HeadOk;
      forall id | id in s.w.rows && s' != s ensures |Waiting(s'.procs, id)| == |Waiting(s.procs, id)| {
        WaitingMoves(s.procs, pid, s'.procs[pid], id);
      }
  }

  lemma {:induction false} Reachable(cfg: Config, acts: seq<Action>)
    ensures Inv(cfg, Run(cfg, acts))
  {
    if acts != [] {
      Reachable(cfg, acts[..|acts| - 1]);
      StepKeepsInv(cfg, Run(cfg, acts[..|acts| - 1]), acts[|acts| - 1]);
    }
  }

  lemma RunMore(cfg: Config, acts: seq<Action>, more: seq<Action>)
    requires more != []
    ensures Run(cfg, acts + more) == Step(cfg, Run(cfg, acts + more[..|more| - 1]), more[|more| - 1])
  {
    hide Step;
    assert (acts + more)[..|acts + more| - 1] == acts + more[..|more| - 1];
  }

  lemma {:induction false} LaterFollows(cfg: Config, acts: seq<Action>, more: seq<Action>)
    ensures Follows(Run(cfg, acts).w, Run(cfg, acts + more).w)
  {
    if more == [] {
      assert acts + more == acts;
    } else {
      RunMore(cfg, acts, more);
      LaterFollows(cfg, acts, more[..|more| - 1]);
      Reachable(cfg, acts + more[..|more| - 1]);
      StepKeepsInv(cfg, Run(cfg, acts + more[..|more| - 1]), more[|more| - 1]);
    }
  }

  // ---- the guarantees ------------------------------------------------------------------

  /** Once a row has been PUBLISHED, a copy of the message, with its own key, is in the log
      for good, whatever becomes of the row. */
  lemma PublishedIsInTheLog(cfg: Config, acts: seq<Action>, more: seq<Action>, id: string)
    requires var w := Run(cfg, acts).w; id in w.rows && w.rows[id].status.Published?
    ensures var w := Run(cfg, acts).w;
            Envelope(id, w.rows[id].aggregate, true) in Run(cfg, acts + more).w.log
  {
    Reachable(cfg, acts);
    var w := Run(cfg, acts).w;
    assert RowOk(cfg, w, id);
    var i :| 0 <= i < |w.log| && w.log[i].header == id;
    assert SentOk(w, w.log[i]);
    LaterFollows(cfg, acts, more);
    assert Run(cfg, acts + more).w.log[i] == w.log[i];
  }

  /** A row that is DEAD_LETTER, and any dead letter on file, has had as many failed publishes
      as it counts retries, and at least MaxRetries of them. */
  lemma DeadLetterWasTried(cfg: Config, acts: seq<Action>, id: string)
    ensures var w := Run(cfg, acts).w;
            && (id in w.rows && w.rows[id].status.DeadLetter? ==>
                  cfg.policy.maxRetries <= w.rows[id].retries <= Failures(w, id) && w.rows[id].retries >= 1)
            && (forall b :: b in w.dead && b.source == id ==>
                  cfg.policy.maxRetries <= b.retries <= Failures(w, id) && b.retries >= 1)
  {
    Reachable(cfg, acts);
    var w := Run(cfg, acts).w;
    if id in w.rows { assert RowOk(cfg, w, id); }
    forall b | b in w.dead && b.source == id
      ensures cfg.policy.maxRetries <= b.retries <= Failures(w, id) && b.retries >= 1
    {
      assert BuriedOk(cfg, w, b);
    }
  }
}
