/** The transactional outbox: any number of pollers lease rows, publish them and mark them,
    cut at every database access and every publish, with leases that run out, answers that
    get lost and crashes. */
module OutboxRuns {
  import opened Common
  import opened Text
  import opened Backoff

  datatype Status = Pending | Published | Failed | DeadLetter

  datatype Row = Row(aggregate: string, created: int, status: Status, retries: int,
    until: Option<int>, holder: Option<string>)

  datatype Buried = Buried(source: string, retries: int)

  /** `log` is what has been published, in order; `failures` counts, per message, the
      publishes that returned an error. */
  datatype World = World(now: int, rows: map<string, Row>, dead: seq<Buried>,
    log: seq<Envelope>, failures: map<string, nat>)

  datatype Config = Config(batch: int, lease: int, policy: Policy)

  /** The copy of a row that LeaseMessages returned. */
  datatype Snap = Snap(id: string, retries: int, until: int)

  datatype Pc =
    | Leasing(worker: string)
    | Publishing(batch: seq<Snap>, published: nat)
    | Acking(batch: seq<Snap>, published: nat)
    | Nacking(batch: seq<Snap>, published: nat, dead: bool, retryAt: int)
    | Burying(batch: seq<Snap>, published: nat)
    | Finished(published: nat, failed: bool)

  datatype Sys = Sys(w: World, procs: map<nat, Pc>)

  datatype Action =
    | Insert(id: string, aggregate: string)
    | Tick(nanos: nat)
    | Poll(pid: nat, worker: string)
    | Go(pid: nat, d: Delivery, locked: set<string>, draw: Option<nat>)
    | Cancel(pid: nat)                      // the context ends between two messages
    | Crash(pid: nat)

  /** NewPoller's defaults. */
  function BatchSize(cfg: Config): (n: nat)
    ensures n > 0
  {
    if cfg.batch <= 0 then 50 else cfg.batch
  }

  function LeaseDuration(cfg: Config): (d: int)
    ensures d > 0
  {
    if cfg.lease <= 0 then 30_000_000_000 else cfg.lease
  }

  // ---- which rows a lease takes --------------------------------------------------------

  predicate Open(row: Row) {
    row.status.Pending? || row.status.Failed?
  }

  predicate Due(row: Row, now: int) {
    Open(row) && (row.until.None? || row.until.value < now)
  }

  /** The rows that SKIP LOCKED leaves over. */
  function Candidates(rows: map<string, Row>, now: int, locked: set<string>): set<string> {
    set id | id in rows && Due(rows[id], now) && id !in locked
  }

  predicate Older(rows: map<string, Row>, a: string, b: string)
    requires a in rows && b in rows
  {
    rows[a].created < rows[b].created || (rows[a].created == rows[b].created && Less(a, b))
  }

  predicate IsOldest(rows: map<string, Row>, m: string, ids: set<string>)
    requires ids <= rows.Keys
  {
    m in ids && forall k :: k in ids && k != m ==> Older(rows, m, k)
  }

  lemma OldestExists(rows: map<string, Row>, ids: set<string>)
    requires ids <= rows.Keys && ids != {}
    ensures exists m :: IsOldest(rows, m, ids)
    ensures forall m, n :: IsOldest(rows, m, ids) && IsOldest(rows, n, ids) ==> m == n
  {
    forall m, n | IsOldest(rows, m, ids) && IsOldest(rows, n, ids) ensures m == n {
      LessTotal(m, n);
    }
    var x :| x in ids;
    var rest := ids - {x};
    assert forall k :: k in ids ==> k == x || k in rest;
    if rest == {} {
      assert IsOldest(rows, x, ids);
    } else {
      OldestExists(rows, rest);
      var m :| IsOldest(rows, m, rest);
      LessTotal(m, x);
      if Older(rows, x, m) {
        forall k | k in ids && k != x ensures Older(rows, x, k) {
          if k != m && Less(x, m) && Less(m, k) { LessTransitive(x, m, k); }
        }
        assert IsOldest(rows, x, ids);
      } else {
        assert IsOldest(rows, m, ids);
      }
    }
  }

  function Oldest(rows: map<string, Row>, ids: set<string>): (m: string)
    requires ids <= rows.Keys && ids != {}
    ensures IsOldest(rows, m, ids)
  {
    OldestExists(rows, ids);
    var m :| IsOldest(rows, m, ids);
    m
  }

  /** ORDER BY created_at, id LIMIT n. */
  function FirstOf(rows: map<string, Row>, ids: set<string>, n: nat): seq<string>
    requires ids <= rows.Keys
    decreases n
  {
    if n == 0 || ids == {} then []
    else
      var m := Oldest(rows, ids);
      [m] + FirstOf(rows, ids - {m}, n - 1)
  }

  /** A lease takes as many due rows as it can, each once, in order, and nothing it leaves is
      older than anything it takes. */
  lemma {:induction false} LeaseTakesTheOldest(rows: map<string, Row>, ids: set<string>, n: nat)
    requires ids <= rows.Keys
    ensures var b := FirstOf(rows, ids, n);
            && |b| == (if n < |ids| then n else |ids|)
            && (forall i :: 0 <= i < |b| ==> b[i] in ids)
            && (forall i, j :: 0 <= i < j < |b| ==> b[i] != b[j] && Older(rows, b[i], b[j]))
            && (forall i, k :: 0 <= i < |b| && k in ids && k !in b ==> Older(rows, b[i], k))
    decreases n
  {
    if n > 0 && ids != {} {
      var m := Oldest(rows, ids);
      LeaseTakesTheOldest(rows, ids - {m}, n - 1);
    }
  }

  function Leased(rows: map<string, Row>, batch: seq<string>, until: int, worker: string): map<string, Row> {
    map id | id in rows :: if id in batch then rows[id].(until := Some(until), holder := Some(worker)) else rows[id]
  }

  function Snaps(rows: map<string, Row>, batch: seq<string>, until: int): (b: seq<Snap>)
    requires forall id :: id in batch ==> id in rows
    ensures forall m :: m in b ==> m.id in batch && m.retries == rows[m.id].retries && m.until == until
  {
    seq(|batch|, i requires 0 <= i < |batch| => Snap(batch[i], rows[batch[i]].retries, until))
  }

  // ---- one step ------------------------------------------------------------------------

  function Failures(w: World, id: string): nat {
    if id in w.failures then w.failures[id] else 0
  }

  /** On to the next message, or home. */
  function NextUp(batch: seq<Snap>, published: nat): Pc
    requires batch != []
  {
    if |batch| == 1 then Finished(published, false) else Publishing(batch[1..], published)
  }

  function LeaseStep(cfg: Config, w: World, worker: string, d: Delivery, locked: set<string>): (World, Pc) {
    if d.NotSent? then (w, Finished(0, true)) else
      LeaseTakesTheOldest(w.rows, Candidates(w.rows, w.now, locked), BatchSize(cfg));
      var batch := FirstOf(w.rows, Candidates(w.rows, w.now, locked), BatchSize(cfg));
      var until := w.now + LeaseDuration(cfg);
      (w.(rows := Leased(w.rows, batch, until, worker)),
       if d.ReplyLost? then Finished(0, true)
       else if batch == [] then Finished(0, false)
       else Publishing(Snaps(w.rows, batch, until), 0))
  }

  function PublishStep(cfg: Config, w: World, pc: Pc, d: Delivery, draw: Option<nat>): (World, Pc)
    requires pc.Publishing? && pc.batch != []
  {
    var m := pc.batch[0];
    var w := if d.NotSent? then w
             else w.(log := w.log + [Envelope(m.id, if m.id in w.rows then w.rows[m.id].aggregate else "", true)]);
    if d.Delivered? then (w, Acking(pc.batch, pc.published))
    else (w.(failures := w.failures[m.id := Failures(w, m.id) + 1]),
          Nacking(pc.batch, pc.published, IsMaxRetriesExceeded(cfg.policy, m.retries + 1),
                  w.now + Calculate(cfg.policy, m.retries + 1, draw)))
  }

  function AckStep(w: World, pc: Pc, d: Delivery): (World, Pc)
    requires pc.Acking? && pc.batch != []
  {
    var id := pc.batch[0].id;
    if d.NotSent? || id !in w.rows then (w, NextUp(pc.batch, pc.published))
    else (w.(rows := w.rows[id := w.rows[id].(status := Published, until := None, holder := None)]),
          NextUp(pc.batch, if d.Delivered? then pc.published + 1 else pc.published))
  }

  function Marked(row: Row, dead: bool, retryAt: int): Row {
    if dead then row.(status := DeadLetter, until := None, holder := None, retries := row.retries + 1)
    else row.(status := Failed, until := Some(retryAt), holder := None, retries := row.retries + 1)
  }

  function NackStep(w: World, pc: Pc, d: Delivery): (World, Pc)
    requires pc.Nacking? && pc.batch != []
  {
    var id := pc.batch[0].id;
    (if d.NotSent? || id !in w.rows then w
     else w.(rows := w.rows[id := Marked(w.rows[id], pc.dead, pc.retryAt)]),
     if pc.dead then Burying(pc.batch, pc.published) else NextUp(pc.batch, pc.published))
  }

  function BuryStep(w: World, pc: Pc, d: Delivery): (World, Pc)
    requires pc.Burying? && pc.batch != []
  {
    (if d.NotSent? then w else w.(dead := w.dead + [Buried(pc.batch[0].id, pc.batch[0].retries + 1)]),
     NextUp(pc.batch, pc.published))
  }

  predicate Working(pc: Pc) {
    (pc.Publishing? || pc.Acking? || pc.Nacking? || pc.Burying?) && pc.batch != []
  }

  function Act(cfg: Config, w: World, pc: Pc, a: Action): (World, Pc)
    requires a.Go?
  {
    if pc.Leasing? then LeaseStep(cfg, w, pc.worker, a.d, a.locked)
    else if !Working(pc) then (w, pc)
    else if pc.Publishing? then PublishStep(cfg, w, pc, a.d, a.draw)
    else if pc.Acking? then AckStep(w, pc, a.d)
    else if pc.Nacking? then NackStep(w, pc, a.d)
    else BuryStep(w, pc, a.d)
  }

  function Step(cfg: Config, s: Sys, a: Action): Sys {
    match a
    case Insert(id, aggregate) =>
      if id == "" || id in s.w.rows then s
      else s.(w := s.w.(rows := s.w.rows[id := Row(aggregate, s.w.now, Pending, 0, None, None)]))
    case Tick(nanos) => s.(w := s.w.(now := s.w.now + nanos))
    case Poll(pid, worker) => if pid in s.procs then s else s.(procs := s.procs[pid := Leasing(worker)])
    case Go(pid, _, _, _) =>
      if pid !in s.procs then s else
        var (w', pc') := Act(cfg, s.w, s.procs[pid], a);
        Sys(w', s.procs[pid := pc'])
    case Cancel(pid) =>
      if pid !in s.procs || !s.procs[pid].Publishing? then s
      else s.(procs := s.procs[pid := Finished(s.procs[pid].published, true)])
    case Crash(pid) => s.(procs := s.procs - {pid})
  }

  function Run(cfg: Config, acts: seq<Action>): Sys {
    if acts == [] then Sys(World(0, map[], [], [], map[]), map[])
    else Step(cfg, Run(cfg, acts[..|acts| - 1]), acts[|acts| - 1])
  }
}
