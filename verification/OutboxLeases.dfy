/** Which rows a lease takes, told from their columns, what a failed publish leaves in a row, and
    that a poller that is left alone publishes everything there is. */
module OutboxLeases {
  import opened Common
  import opened Text
  import opened Backoff
  import opened OutboxRuns
  import opened OutboxSafety

  // ---- which rows ----------------------------------------------------------------------

  /** PENDING or FAILED, and not under a lease or waiting for its next attempt. */
  predicate MayBeLeased(row: Row, now: int) {
    && (row.status.Pending? || row.status.Failed?)
    && (row.until.Some? ==> row.until.value < now)
  }

  /** The rows that come before this one in the order of their creation. */
  function Ahead(rows: map<string, Row>, now: int, locked: set<string>, id: string): set<string>
    requires id in rows
  {
    set k | k in rows && MayBeLeased(rows[k], now) && k !in locked
            && (rows[k].created < rows[id].created || (rows[k].created == rows[id].created && Less(k, id)))
  }

  function Elements(s: seq<string>): set<string> {
    set x | x in s
  }

  lemma {:induction false} Distinct(s: seq<string>)
    requires forall i, j :: 0 <= i < j < |s| ==> s[i] != s[j]
    ensures |Elements(s)| == |s|
  {
    if s != [] {
      var n := |s| - 1;
      Distinct(s[..n]);
      assert Elements(s) == Elements(s[..n]) + {s[n]};
    }
  }

  lemma {:induction false} NoMore(a: set<string>, b: set<string>)
    requires a <= b
    ensures |a| <= |b| && (|a| == |b| ==> a == b)
  {
    if a != {} {
      var x :| x in a;
      NoMore(a - {x}, b - {x});
      assert a == a - {x} + {x} && b == b - {x} + {x};
    }
  }

  /** Among the candidates the first n are taken, and no others. */
  lemma TakenIff(rows: map<string, Row>, now: int, locked: set<string>, n: nat, id: string)
    requires n > 0 && id in rows
    ensures id in FirstOf(rows, Candidates(rows, now, locked), n)
       <==> MayBeLeased(rows[id], now) && id !in locked && |Ahead(rows, now, locked, id)| < n
  {
    var (c, ahead) := (Candidates(rows, now, locked), Ahead(rows, now, locked, id));
    var b := FirstOf(rows, c, n);
    LeaseTakesTheOldest(rows, c, n);
    Distinct(b);
    assert Elements(b) <= c;
    if id in b {
      var i :| 0 <= i < |b| && b[i] == id;
      AheadIsTaken(rows, now, locked, b, i);
      Distinct(b[..i]);
      NoMore(ahead, Elements(b[..i]));
    } else if id in c {
      NoMore(Elements(b), c);
      assert Elements(b) != c;
      assert Elements(b) <= ahead;
      NoMore(Elements(b), ahead);
    }
  }

  lemma AheadIsTaken(rows: map<string, Row>, now: int, locked: set<string>, b: seq<string>, i: nat)
    requires i < |b|
    requires forall j :: 0 <= j < |b| ==> b[j] in rows && b[j] in Candidates(rows, now, locked)
    requires forall j, k :: 0 <= j < k < |b| ==> Older(rows, b[j], b[k])
    requires forall j, k :: 0 <= j < |b| && k in Candidates(rows, now, locked) && k !in b ==> Older(rows, b[j], k)
    ensures Ahead(rows, now, locked, b[i]) <= Elements(b[..i])
  {
    forall k | k in Ahead(rows, now, locked, b[i]) ensures k in b[..i] {
      LessTotal(k, b[i]);
      assert k in Candidates(rows, now, locked) && !Older(rows, b[i], k) && k != b[i];
      var j :| 0 <= j < |b| && b[j] == k;
    }
  }

  lemma OldestFirst(rows: map<string, Row>, ids: set<string>, n: nat)
    requires ids <= rows.Keys
    ensures var b := FirstOf(rows, ids, n);
            && (forall i :: 0 <= i < |b| ==> b[i] in rows)
            && forall i, j :: 0 <= i < j < |b| ==> Older(rows, b[i], b[j])
  {
    LeaseTakesTheOldest(rows, ids, n);
    hide FirstOf, Older;
  }

  lemma LeaseUnfolds(cfg: Config, w: World, worker: string, d: Delivery, locked: set<string>, b: seq<string>)
    requires !d.NotSent? && b == FirstOf(w.rows, Candidates(w.rows, w.now, locked), BatchSize(cfg))
    ensures forall id :: id in b ==> id in w.rows
    ensures var until := w.now + LeaseDuration(cfg);
            LeaseStep(cfg, w, worker, d, locked)
              == (w.(rows := Leased(w.rows, b, until, worker)),
                  if d.ReplyLost? then Finished(0, true)
                  else if b == [] then Finished(0, false)
                  else Publishing(Snaps(w.rows, b, until), 0))
  {
    LeaseTakesTheOldest(w.rows, Candidates(w.rows, w.now, locked), BatchSize(cfg));
    hide FirstOf, Older, Leased, Snaps, BatchSize, LeaseDuration;
  }

  lemma LeasedRow(rows: map<string, Row>, b: seq<string>, until: int, worker: string, id: string)
    requires id in rows
    ensures var rows' := Leased(rows, b, until, worker);
            && rows'.Keys == rows.Keys
            && rows'[id] == if id in b then rows[id].(until := Some(until), holder := Some(worker)) else rows[id]
  {
  }

  lemma SnapsAre(rows: map<string, Row>, b: seq<string>, until: int)
    requires forall id :: id in b ==> id in rows
    ensures var snaps := Snaps(rows, b, until);
            && |snaps| == |b|
            && forall i :: 0 <= i < |b| ==> snaps[i] == Snap(b[i], rows[b[i]].retries, until)
  {
  }

  lemma Sizes(cfg: Config)
    ensures BatchSize(cfg) == if cfg.batch <= 0 then 50 else cfg.batch
    ensures LeaseDuration(cfg) == if cfg.lease <= 0 then 30_000_000_000 else cfg.lease
  {
  }

  /** A lease that reaches the database takes a row exactly if it is PENDING or FAILED, nobody
      holds it, and fewer such rows than fit into a batch are older; it gives it its term and its
      holder, and leaves every other row alone. What comes back lists them, oldest first. */
  lemma LeaseIsExact(cfg: Config, w: World, worker: string, d: Delivery, locked: set<string>, id: string)
    requires !d.NotSent? && id in w.rows
    ensures var (w', pc') := LeaseStep(cfg, w, worker, d, locked);
            var size: int := if cfg.batch <= 0 then 50 else cfg.batch;
            var until := w.now + if cfg.lease <= 0 then 30_000_000_000 else cfg.lease;
            var taken := MayBeLeased(w.rows[id], w.now) && id !in locked && |Ahead(w.rows, w.now, locked, id)| < size;
            && w'.rows.Keys == w.rows.Keys
            && w'.rows[id] == (if taken then w.rows[id].(until := Some(until), holder := Some(worker)) else w.rows[id])
            && (d.Delivered? ==>
                  (taken <==> pc'.Publishing? && Snap(id, w.rows[id].retries, until) in pc'.batch))
            && (d.Delivered? && pc'.Publishing? ==>
                  forall m :: m in pc'.batch ==> m.id in w.rows)
            && (d.Delivered? && pc'.Publishing? ==>
                  forall i, j :: 0 <= i < j < |pc'.batch| ==> Older(w.rows, pc'.batch[i].id, pc'.batch[j].id))
  {
    assert Candidates(w.rows, w.now, locked) <= w.rows.Keys;
    hide *;
    var b := FirstOf(w.rows, Candidates(w.rows, w.now, locked), BatchSize(cfg));
    var until := w.now + LeaseDuration(cfg);
    Sizes(cfg);
    OldestFirst(w.rows, Candidates(w.rows, w.now, locked), BatchSize(cfg));
    LeaseUnfolds(cfg, w, worker, d, locked, b);
    LeasedRow(w.rows, b, until, worker, id);
    SnapsAre(w.rows, b, until);
    TakenIff(w.rows, w.now, locked, BatchSize(cfg), id);
    if id in b {
      var i :| 0 <= i < |b| && b[i] == id;
      assert Snaps(w.rows, b, until)[i] == Snap(id, w.rows[id].retries, until);
    }
  }

  // ---- a failed publish ----------------------------------------------------------------

  lemma RunOn(cfg: Config, acts: seq<Action>, a: Action)
    ensures Run(cfg, acts + [a]) == Step(cfg, Run(cfg, acts), a)
  {
    assert (acts + [a])[..|acts|] == acts;
  }

  /** A publish that fails, and a mark that arrives: the row counts one attempt more, nobody holds
      it, and it is a dead letter exactly if that was its last attempt; otherwise it is FAILED and
      out of reach until the backoff is over. A dead letter is filed with that count. */
  lemma FailureIsMarked(
      cfg: Config, acts: seq<Action>, p: nat, d: Delivery, draw: Option<nat>, batch: seq<Snap>, published: nat)
    requires !d.Delivered? && batch != []
    requires var s := Run(cfg, acts); p in s.procs && s.procs[p] == Publishing(batch, published)
    ensures var s := Run(cfg, acts);
            var s' := Run(cfg, acts + [Go(p, d, {}, draw)] + [Go(p, Delivered, {}, None)]);
            var s'' := Run(cfg, acts + [Go(p, d, {}, draw)] + [Go(p, Delivered, {}, None)]
                                + [Go(p, Delivered, {}, None)]);
            var (id, attempt) := (batch[0].id, batch[0].retries + 1);
            id in s.w.rows ==>
              && id in s'.w.rows
              && var (row, row') := (s.w.rows[id], s'.w.rows[id]);
                 && row'.retries == row.retries + 1 && row'.holder.None?
                 && (if attempt >= cfg.policy.maxRetries then
                       && row'.status.DeadLetter? && row'.until.None?
                       && s''.w.dead == s.w.dead + [Buried(id, attempt)]
                     else
                       && row'.status.Failed? && s'.w.dead == s.w.dead
                       && row'.until == Some(s.w.now + Calculate(cfg.policy, attempt, draw)))
  {
    RunOn(cfg, acts, Go(p, d, {}, draw));
    RunOn(cfg, acts + [Go(p, d, {}, draw)], Go(p, Delivered, {}, None));
    RunOn(cfg, acts + [Go(p, d, {}, draw)] + [Go(p, Delivered, {}, None)], Go(p, Delivered, {}, None));
    hide Run, LeaseStep, AckStep, Calculate, NextUp;
  }

  // ---- what a cycle reports ------------------------------------------------------------

  /** The process marks the row of its message PUBLISHED, and is told so. */
  predicate Marks(s: Sys, a: Action, p: nat) {
    && a.Go? && a.pid == p && a.d.Delivered? && p in s.procs && s.procs[p].Acking? && s.procs[p].batch != []
    && s.procs[p].batch[0].id in s.w.rows
  }

  /** How often it has done so in this cycle. */
  function MarksOf(cfg: Config, acts: seq<Action>, p: nat): nat {
    if acts == [] then 0
    else
      var (before, a) := (acts[..|acts| - 1], acts[|acts| - 1]);
      var s := Run(cfg, before);
      if a.Poll? && a.pid == p && p !in s.procs then 0
      else MarksOf(cfg, before, p) + if Marks(s, a, p) then 1 else 0
  }

  function Counted(pc: Pc): nat {
    if pc.Leasing? then 0 else pc.published
  }

  lemma StepCounts(cfg: Config, s: Sys, a: Action, p: nat)
    requires p in Step(cfg, s, a).procs
    ensures p !in s.procs ==> a.Poll? && a.pid == p && Counted(Step(cfg, s, a).procs[p]) == 0
    ensures p in s.procs ==>
              Counted(Step(cfg, s, a).procs[p]) == Counted(s.procs[p]) + if Marks(s, a, p) then 1 else 0
    ensures Marks(s, a, p) ==> Step(cfg, s, a).w.rows[s.procs[p].batch[0].id].status.Published?
  {
    hide FirstOf, Candidates, Snaps, Leased, Calculate;
  }

  /** A cycle reports as published as many messages as it has marked PUBLISHED. */
  lemma {:induction false} ReportsItsMarks(cfg: Config, acts: seq<Action>, p: nat)
    requires p in Run(cfg, acts).procs && !Run(cfg, acts).procs[p].Leasing?
    ensures Run(cfg, acts).procs[p].published == MarksOf(cfg, acts, p)
  {
    CountsItsMarks(cfg, acts, p);
    hide Run;
  }

  lemma {:induction false} CountsItsMarks(cfg: Config, acts: seq<Action>, p: nat)
    requires p in Run(cfg, acts).procs
    ensures Counted(Run(cfg, acts).procs[p]) == MarksOf(cfg, acts, p)
  {
    if acts != [] {
      var (before, a) := (acts[..|acts| - 1], acts[|acts| - 1]);
      StepCounts(cfg, Run(cfg, before), a, p);
      hide Step, Marks, Counted;
      if p in Run(cfg, before).procs { CountsItsMarks(cfg, before, p); }
    }
  }

  // ---- a poller that is left alone -----------------------------------------------------

  function Do(p: nat): Action {
    Go(p, Delivered, {}, None)
  }

  /** The actions are those of new processes, with every answer delivered and no row locked. */
  predicate Gentle(acts: seq<Action>, procs: set<nat>) {
    forall a :: a in acts ==>
      && (a.Tick? || a.Poll? || a.Go?)
      && (a.Poll? || a.Go? ==> a.pid !in procs)
      && (a.Go? ==> a.d.Delivered? && a.locked == {})
  }

  lemma BothGentle(a: seq<Action>, b: seq<Action>, procs: set<nat>)
    requires Gentle(a, procs) && Gentle(b, procs)
    ensures Gentle(a + b, procs)
  {
  }

  /** These rows have become PUBLISHED, and the others are as they were. */
  predicate Finishes(rows: map<string, Row>, rows': map<string, Row>, ids: set<string>) {
    && rows'.Keys == rows.Keys
    && forall id :: id in rows ==> if id in ids then rows'[id].status.Published? else rows'[id] == rows[id]
  }

  lemma FinishesBoth(r0: map<string, Row>, r1: map<string, Row>, r2: map<string, Row>, a: set<string>, b: set<string>)
    requires Finishes(r0, r1, a) && Finishes(r1, r2, b)
    ensures Finishes(r0, r2, a + b)
  {
  }

  /** The ids of a batch: each of them once. */
  predicate Ids(batch: seq<Snap>, ids: set<string>) {
    && (forall i :: 0 <= i < |batch| ==> batch[i].id in ids)
    && (forall i, j :: 0 <= i < j < |batch| ==> batch[i].id != batch[j].id)
  }

  function IdsOf(batch: seq<Snap>): set<string> {
    if batch == [] then {} else {batch[0].id} + IdsOf(batch[1..])
  }

  lemma {:induction false} IdsAre(batch: seq<Snap>, id: string)
    ensures id in IdsOf(batch) <==> exists i :: 0 <= i < |batch| && batch[i].id == id
  {
    if batch != [] {
      IdsAre(batch[1..], id);
      if i :| 0 <= i < |batch| && batch[i].id == id {
        if i > 0 { assert batch[1..][i - 1].id == id; }
      }
    }
  }

  /** One message is published and marked. */
  lemma OneMessage(cfg: Config, acts: seq<Action>, p: nat, batch: seq<Snap>, published: nat)
    requires var s := Run(cfg, acts);
             && p in s.procs && s.procs[p] == Publishing(batch, published)
             && batch != [] && batch[0].id in s.w.rows
    ensures var (s, s') := (Run(cfg, acts), Run(cfg, acts + [Do(p), Do(p)]));
            && s'.w.now == s.w.now
            && Finishes(s.w.rows, s'.w.rows, {batch[0].id})
            && s'.procs.Keys == s.procs.Keys
            && s'.procs[p] == NextUp(batch, published + 1)
            && (|batch| > 1 ==> s'.procs[p] == Publishing(batch[1..], published + 1))
  {
    RunOn(cfg, acts, Do(p));
    RunOn(cfg, acts + [Do(p)], Do(p));
    assert acts + [Do(p)] + [Do(p)] == acts + [Do(p), Do(p)];
    hide Run, LeaseStep, NackStep, Calculate;
    assert Run(cfg, acts + [Do(p)]).procs[p] == Acking(batch, published);
  }

  lemma {:induction false} WholeBatch(
      cfg: Config, acts: seq<Action>, p: nat, batch: seq<Snap>, published: nat, procs: set<nat>)
    returns (more: seq<Action>)
    requires var s := Run(cfg, acts);
             && p in s.procs && s.procs[p] == Publishing(batch, published)
             && batch != [] && Ids(batch, s.w.rows.Keys)
    requires p !in procs
    ensures Gentle(more, procs)
    ensures var (s, s') := (Run(cfg, acts), Run(cfg, acts + more));
            && s'.w.now == s.w.now && s'.procs.Keys == s.procs.Keys
            && Finishes(s.w.rows, s'.w.rows, IdsOf(batch))
    decreases |batch|
  {
    hide *;
    RestOfIds(batch, Run(cfg, acts).w.rows.Keys);
    OneMessage(cfg, acts, p, batch, published);
    more := [Do(p), Do(p)];
    DoIsGentle(p, procs);
    var (rows, rows1) := (Run(cfg, acts).w.rows, Run(cfg, acts + more).w.rows);
    SameKeys(rows, rows1, {batch[0].id});
    if |batch| > 1 {
      var rest := WholeBatch(cfg, acts + more, p, batch[1..], published + 1, procs);
      assert acts + (more + rest) == acts + more + rest;
      FinishesBoth(rows, rows1, Run(cfg, acts + more + rest).w.rows, {batch[0].id}, IdsOf(batch[1..]));
      BothGentle(more, rest, procs);
      more := more + rest;
    }
  }

  lemma DoIsGentle(p: nat, procs: set<nat>)
    requires p !in procs
    ensures Gentle([Do(p), Do(p)], procs)
  {
  }

  lemma SameKeys(rows: map<string, Row>, rows': map<string, Row>, ids: set<string>)
    requires Finishes(rows, rows', ids)
    ensures rows'.Keys == rows.Keys
  {
  }

  lemma RestOfIds(batch: seq<Snap>, ids: set<string>)
    requires batch != [] && Ids(batch, ids)
    ensures batch[0].id in ids && Ids(batch[1..], ids)
    ensures IdsOf(batch) == {batch[0].id} + IdsOf(batch[1..])
    ensures |batch| == 1 ==> IdsOf(batch) == {batch[0].id}
  {
  }

  /** The rows that still have to be published. */
  function Unpublished(rows: map<string, Row>): set<string> {
    set id | id in rows && (rows[id].status.Pending? || rows[id].status.Failed?)
  }

  /** Nothing keeps them from being leased. */
  predicate AllFree(w: World) {
    forall id :: id in Unpublished(w.rows) ==> MayBeLeased(w.rows[id], w.now)
  }

  /** What a lease of free rows leaves: some of them taken, and nothing else changed. */
  predicate LeasedSome(w: World, w': World, batch: seq<Snap>) {
    && w'.now == w.now && w'.rows.Keys == w.rows.Keys
    && batch != [] && Ids(batch, Unpublished(w.rows))
    && forall id :: id in w.rows && id !in IdsOf(batch) ==> w'.rows[id] == w.rows[id]
  }

  lemma AllAreCandidates(w: World)
    requires AllFree(w)
    ensures Candidates(w.rows, w.now, {}) == Unpublished(w.rows)
  {
  }

  lemma LeaseOfFree(cfg: Config, w: World)
    requires AllFree(w) && Unpublished(w.rows) != {}
    ensures var (w', pc') := LeaseStep(cfg, w, "", Delivered, {});
            pc'.Publishing? && pc'.published == 0 && LeasedSome(w, w', pc'.batch)
  {
    FirstOfFree(w, BatchSize(cfg));
    hide *;
    var b := FirstOf(w.rows, Candidates(w.rows, w.now, {}), BatchSize(cfg));
    var until := w.now + LeaseDuration(cfg);
    LeaseUnfolds(cfg, w, "", Delivered, {}, b);
    BatchIsLeased(w, b, until, "");
  }

  predicate OnceEach(b: seq<string>, ids: set<string>) {
    && (forall i :: 0 <= i < |b| ==> b[i] in ids)
    && (forall i, j :: 0 <= i < j < |b| ==> b[i] != b[j])
  }

  lemma FirstOfFree(w: World, n: nat)
    requires AllFree(w) && Unpublished(w.rows) != {} && n > 0
    ensures Candidates(w.rows, w.now, {}) <= w.rows.Keys
    ensures var b := FirstOf(w.rows, Candidates(w.rows, w.now, {}), n);
            b != [] && OnceEach(b, Unpublished(w.rows))
  {
    AllAreCandidates(w);
    NotEmpty(Unpublished(w.rows));
    LeaseTakesTheOldest(w.rows, Candidates(w.rows, w.now, {}), n);
    hide FirstOf, Older, AllFree;
  }

  lemma BatchIsLeased(w: World, b: seq<string>, until: int, worker: string)
    requires b != [] && OnceEach(b, Unpublished(w.rows)) && forall id :: id in b ==> id in w.rows
    ensures LeasedSome(w, w.(rows := Leased(w.rows, b, until, worker)), Snaps(w.rows, b, until))
  {
    SnapsAre(w.rows, b, until);
    SnapIds(Snaps(w.rows, b, until), b);
    hide Unpublished, IdsOf, Snaps;
  }

  lemma SnapIds(snaps: seq<Snap>, b: seq<string>)
    requires |snaps| == |b| && forall i :: 0 <= i < |b| ==> snaps[i].id == b[i]
    ensures forall id :: id in b <==> id in IdsOf(snaps)
  {
    forall id ensures id in b <==> id in IdsOf(snaps) {
      IdsAre(snaps, id);
      if id in b { var i :| 0 <= i < |b| && b[i] == id; assert snaps[i].id == id; }
    }
  }

  lemma NotEmpty(s: set<string>)
    requires s != {}
    ensures |s| > 0
  {
  }

  lemma LeaseNow(cfg: Config, acts: seq<Action>, p: nat)
    requires var s := Run(cfg, acts); p !in s.procs && AllFree(s.w) && Unpublished(s.w.rows) != {}
    ensures var (s, s') := (Run(cfg, acts), Run(cfg, acts + [Poll(p, ""), Do(p)]));
            && s'.procs.Keys == s.procs.Keys + {p}
            && s'.procs[p].Publishing? && s'.procs[p].published == 0
            && LeasedSome(s.w, s'.w, s'.procs[p].batch)
  {
    hide Run, PublishStep, AckStep, NackStep, BuryStep, LeaseStep, LeasedSome, AllFree, Unpublished;
    RunOn(cfg, acts, Poll(p, ""));
    RunOn(cfg, acts + [Poll(p, "")], Do(p));
    assert acts + [Poll(p, "")] + [Do(p)] == acts + [Poll(p, ""), Do(p)];
    LeaseOfFree(cfg, Run(cfg, acts).w);
  }

  lemma CycleDone(w: World, w1: World, w2: World, batch: seq<Snap>)
    requires AllFree(w) && LeasedSome(w, w1, batch) && w2.now == w1.now && Finishes(w1.rows, w2.rows, IdsOf(batch))
    ensures AllFree(w2) && Finishes(w.rows, w2.rows, IdsOf(batch))
    ensures Unpublished(w2.rows) == Unpublished(w.rows) - IdsOf(batch)
    ensures IdsOf(batch) <= Unpublished(w.rows) && IdsOf(batch) != {}
  {
    forall id | id in IdsOf(batch) ensures id in Unpublished(w.rows) { IdsAre(batch, id); }
  }

  /** A new poller leases and publishes the oldest of them. */
  lemma OneCycle(cfg: Config, acts: seq<Action>, procs: set<nat>) returns (more: seq<Action>, ids: set<string>)
    requires var s := Run(cfg, acts); AllFree(s.w) && Unpublished(s.w.rows) != {} && procs <= s.procs.Keys
    ensures Gentle(more, procs)
    ensures var (s, s') := (Run(cfg, acts), Run(cfg, acts + more));
            && AllFree(s'.w) && procs <= s'.procs.Keys && Finishes(s.w.rows, s'.w.rows, ids)
            && {} != ids <= Unpublished(s.w.rows) && Unpublished(s'.w.rows) == Unpublished(s.w.rows) - ids
  {
    var s := Run(cfg, acts);
    var p := FreshPid(s.procs.Keys);
    hide Run, AllFree, Unpublished, Finishes, LeasedSome;
    LeaseNow(cfg, acts, p);
    var leased := acts + [Poll(p, ""), Do(p)];
    var s1 := Run(cfg, leased);
    BatchIsThere(s.w, s1.w, s1.procs[p].batch);
    var rest := WholeBatch(cfg, leased, p, s1.procs[p].batch, 0, procs);
    ids := IdsOf(s1.procs[p].batch);
    more := [Poll(p, ""), Do(p)] + rest;
    assert acts + more == leased + rest;
    CycleDone(s.w, s1.w, Run(cfg, acts + more).w, s1.procs[p].batch);
    assert Gentle([Poll(p, ""), Do(p)], procs);
    hide Gentle;
    BothGentle([Poll(p, ""), Do(p)], rest, procs);
  }

  lemma BatchIsThere(w: World, w1: World, batch: seq<Snap>)
    requires LeasedSome(w, w1, batch)
    ensures batch != [] && Ids(batch, w1.rows.Keys)
  {
  }

  lemma {:induction false} AllCycles(cfg: Config, acts: seq<Action>, procs: set<nat>) returns (more: seq<Action>)
    requires var s := Run(cfg, acts); AllFree(s.w) && procs <= s.procs.Keys
    ensures Gentle(more, procs)
    ensures var (s, s') := (Run(cfg, acts), Run(cfg, acts + more));
            Finishes(s.w.rows, s'.w.rows, Unpublished(s.w.rows))
    decreases Unpublished(Run(cfg, acts).w.rows)
  {
    more := [];
    assert acts + [] == acts;
    var rows := Run(cfg, acts).w.rows;
    if Unpublished(rows) != {} {
      hide Run, AllFree, Finishes, Gentle, Unpublished;
      var first, ids := OneCycle(cfg, acts, procs);
      var rest := AllCycles(cfg, acts + first, procs);
      more := first + rest;
      assert acts + more == acts + first + rest;
      BothGentle(first, rest, procs);
      var rows1 := Run(cfg, acts + first).w.rows;
      FinishesBoth(rows, rows1, Run(cfg, acts + more).w.rows, ids, Unpublished(rows1));
      assert ids + Unpublished(rows1) == Unpublished(rows);
    }
  }

  /** A time after all leases and all backoffs. */
  lemma {:induction false} AfterAll(rows: map<string, Row>) returns (t: nat)
    ensures forall id :: id in rows && rows[id].until.Some? ==> rows[id].until.value < t
    decreases |rows|
  {
    if rows == map[] {
      t := 0;
    } else {
      var x :| x in rows;
      var rest := rows - {x};
      assert rest.Keys == rows.Keys - {x};
      t := AfterAll(rest);
      if rows[x].until.Some? && rows[x].until.value >= t { t := rows[x].until.value + 1; }
      forall id | id in rows && rows[id].until.Some? ensures rows[id].until.value < t {
        if id != x { assert id in rest; }
      }
    }
  }

  lemma Waits(cfg: Config, acts: seq<Action>) returns (nanos: nat)
    ensures var (s, s') := (Run(cfg, acts), Run(cfg, acts + [Tick(nanos)]));
            AllFree(s'.w) && s'.w.rows == s.w.rows && s'.procs == s.procs
  {
    var w := Run(cfg, acts).w;
    var t := AfterAll(w.rows);
    nanos := if t >= w.now then t - w.now else 0;
    RunOn(cfg, acts, Tick(nanos));
    hide Run, Act;
  }

  /** No message is ever given up on: from every state, whatever has failed, been lost or crashed
      before, new pollers that are left alone publish every row that is PENDING or FAILED, and
      touch no other. */
  lemma {:induction false} EveryOpenRowIsPublished(cfg: Config, acts: seq<Action>) returns (more: seq<Action>)
    ensures Gentle(more, Run(cfg, acts).procs.Keys)
    ensures var (rows, rows') := (Run(cfg, acts).w.rows, Run(cfg, acts + more).w.rows);
            && rows'.Keys == rows.Keys
            && forall id :: id in rows ==>
                 if rows[id].status.Pending? || rows[id].status.Failed? then
                   rows'[id].status.Published? && InLog(Run(cfg, acts + more).w.log, id)
                 else rows'[id] == rows[id]
  {
    hide *;
    var nanos := Waits(cfg, acts);
    var (before, tick) := (Run(cfg, acts), [Tick(nanos)]);
    var rest := AllCycles(cfg, acts + tick, before.procs.Keys);
    more := tick + rest;
    assert acts + more == acts + tick + rest;
    OneTick(nanos, before.procs.Keys);
    BothGentle(tick, rest, before.procs.Keys);
    AllFinished(before.w.rows, Run(cfg, acts + more).w.rows);
    forall id | id in before.w.rows && Run(cfg, acts + more).w.rows[id].status.Published?
      ensures InLog(Run(cfg, acts + more).w.log, id)
    {
      IsInTheLog(cfg, acts + more, id);
    }
  }

  lemma OneTick(nanos: nat, procs: set<nat>)
    ensures Gentle([Tick(nanos)], procs)
  {
  }

  lemma AllFinished(rows: map<string, Row>, rows': map<string, Row>)
    requires Finishes(rows, rows', Unpublished(rows))
    ensures rows'.Keys == rows.Keys
    ensures forall id :: id in rows ==>
              if rows[id].status.Pending? || rows[id].status.Failed? then rows'[id].status.Published?
              else rows'[id] == rows[id]
  {
  }

  lemma IsInTheLog(cfg: Config, acts: seq<Action>, id: string)
    requires var w := Run(cfg, acts).w; id in w.rows && w.rows[id].status.Published?
    ensures InLog(Run(cfg, acts).w.log, id)
  {
    Reachable(cfg, acts);
    assert RowOk(cfg, Run(cfg, acts).w, id);
    hide Run, Inv;
  }
}
