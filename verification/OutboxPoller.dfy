/** The poller, with the tables and the broker log as fields that every process changes. Each
    method lets the others run before it touches them, and records what it did as a step of
    `OutboxRuns`. */
module OutboxPoller {
  import opened Common
  import opened Backoff
  import opened OutboxRuns
  import opened OutboxSafety

  predicate DoneBy(a: Action, me: nat) {
    (a.Poll? || a.Go? || a.Cancel? || a.Crash?) && a.pid == me
  }

  /** Leasing one more row of the batch. */
  lemma LeaseOneMore(rows: map<string, Row>, batch: seq<string>, id: string, until: int, worker: string)
    requires id in rows && id !in batch
    ensures Leased(rows, batch + [id], until, worker)
            == Leased(rows, batch, until, worker)[id := rows[id].(until := Some(until), holder := Some(worker))]
  {
  }

  lemma LeasedNone(rows: map<string, Row>, until: int, worker: string)
    ensures Leased(rows, [], until, worker) == rows
  {
  }

  lemma OldestIsOne(rows: map<string, Row>, ids: set<string>)
    requires ids <= rows.Keys && ids != {}
    ensures Oldest(rows, ids) in ids
  {
  }

  lemma Associate(batch: seq<string>, target: string, rest: seq<string>)
    ensures batch + ([target] + rest) == batch + [target] + rest
  {
  }

  lemma FirstOfSteps(rows: map<string, Row>, ids: set<string>, n: nat)
    requires ids <= rows.Keys
    ensures FirstOf(rows, ids, n) == if n == 0 || ids == {} then []
                                     else [Oldest(rows, ids)] + FirstOf(rows, ids - {Oldest(rows, ids)}, n - 1)
  {
  }

  /** The oldest candidate moves from the front of what is still to be taken to the batch. */
  lemma OneMoreTaken(rows: map<string, Row>, ids: set<string>, batch: seq<string>, n: nat)
    requires ids <= rows.Keys && ids != {} && n > 0
    ensures var target := Oldest(rows, ids);
            && target in ids
            && batch + FirstOf(rows, ids, n) == (batch + [target]) + FirstOf(rows, ids - {target}, n - 1)
  {
    hide *;
    OldestIsOne(rows, ids);
    FirstOfSteps(rows, ids, n);
    Associate(batch, Oldest(rows, ids), FirstOf(rows, ids - {Oldest(rows, ids)}, n - 1));
  }

  lemma LeaseIsAct(cfg: Config, w: World, pc: Pc, a: Action)
    requires a.Go? && pc.Leasing?
    ensures a.d.NotSent? ==> Act(cfg, w, pc, a) == (w, Finished(0, true))
    ensures !a.d.NotSent? ==>
              var candidates := Candidates(w.rows, w.now, a.locked);
              && candidates <= w.rows.Keys
              && var (batch, until) := (FirstOf(w.rows, candidates, BatchSize(cfg)), w.now + LeaseDuration(cfg));
                 && (forall id :: id in batch ==> id in w.rows)
                 && Act(cfg, w, pc, a) == (w.(rows := Leased(w.rows, batch, until, pc.worker)),
                                           if a.d.ReplyLost? || batch == [] then Finished(0, a.d.ReplyLost?)
                                           else Publishing(Snaps(w.rows, batch, until), 0))
  {
    LeaseTakesTheOldest(w.rows, Candidates(w.rows, w.now, a.locked), BatchSize(cfg));
    hide FirstOf, Leased, Snaps, PublishStep, AckStep, NackStep, BuryStep;
  }

  lemma PublishIsAct(cfg: Config, w: World, pc: Pc, a: Action)
    requires a.Go? && pc.Publishing? && pc.batch != []
    ensures Act(cfg, w, pc, a) == PublishStep(cfg, w, pc, a.d, a.draw)
  {
    hide PublishStep;
  }

  class PollerRuntime {
    const cfg: Config
    var now: int
    var messages: map<string, Row>
    var deadLetters: seq<Buried>
    var log: seq<Envelope>
    var failures: map<string, nat>
    var procs: map<nat, Pc>
    ghost var acts: seq<Action>

    function Now(): World
      reads this
    {
      World(now, messages, deadLetters, log, failures)
    }

    ghost predicate Valid()
      reads this
    {
      Run(cfg, acts) == Sys(Now(), procs)
    }

    constructor (cfg: Config)
      ensures Valid() && procs == map[] && this.cfg == cfg
    {
      this.cfg := cfg;
      now, messages, deadLetters, log, failures, procs, acts := 0, map[], [], [], map[], map[], [];
    }

    method Happen(a: Action)
      requires Valid()
      modifies this
      ensures Valid() && acts == old(acts) + [a]
      ensures Sys(Now(), procs) == Step(cfg, old(Sys(Now(), procs)), a)
      ensures log <= old(log) || old(log) <= log
    {
      assert (acts + [a])[..|acts|] == acts;
      var s := Step(cfg, Sys(Now(), procs), a);
      Reachable(cfg, acts);
      StepKeepsInv(cfg, Sys(Now(), procs), a);
      now, messages, deadLetters, log, failures := s.w.now, s.w.rows, s.w.dead, s.w.log, s.w.failures;
      procs := s.procs;
      acts := acts + [a];
    }

    /** Whatever the other processes and the clock do in the meantime. */
    method Others(me: nat)
      requires Valid() && me in procs
      modifies this
      ensures Valid() && old(acts) <= acts && me in procs && procs[me] == old(procs[me]) && |old(log)| <= |log|
    {
      var n: nat := *;
      while n > 0
        invariant Valid() && old(acts) <= acts && me in procs && procs[me] == old(procs[me]) && |old(log)| <= |log|
      {
        var a: Action := *;
        if !DoneBy(a, me) {
          Happen(a);
          assert me in procs && procs[me] == old(procs[me]);
        }
        n := n - 1;
      }
    }

    /** `me` has made the access it was about to make: the fields are what that leaves. */
    method Took(me: nat, pc: Pc, ghost a: Action, ghost before: World)
      requires a.Go? && a.pid == me && me in procs
      requires Run(cfg, acts) == Sys(before, procs) && (Now(), pc) == Act(cfg, before, procs[me], a)
      modifies this`procs, this`acts
      ensures Valid() && acts == old(acts) + [a] && procs == old(procs)[me := pc]
    {
      assert (acts + [a])[..|acts|] == acts;
      procs := procs[me := pc];
      acts := acts + [a];
    }

    /** The query of LeaseMessages, and its update of the rows found, one by one in order. */
    method TakeBatch(locked: set<string>, until: int, worker: string) returns (batch: seq<string>)
      modifies this`messages
      ensures batch == FirstOf(old(messages), Candidates(old(messages), now, locked), BatchSize(cfg))
      ensures messages == Leased(old(messages), batch, until, worker)
    {
      var rows := messages;
      var candidates := set id | id in messages && Due(messages[id], now) && id !in locked;
      assert candidates == Candidates(rows, now, locked);
      ghost var all := candidates;
      batch := [];
      LeasedNone(rows, until, worker);
      hide *;
      while |batch| < BatchSize(cfg) && candidates != {}
        invariant |batch| <= BatchSize(cfg) && candidates <= all <= rows.Keys
        invariant batch + FirstOf(rows, candidates, BatchSize(cfg) - |batch|) == FirstOf(rows, all, BatchSize(cfg))
        invariant forall id :: id in batch ==> id !in candidates
        invariant messages == Leased(rows, batch, until, worker)
        decreases |candidates|
      {
        var target := Oldest(rows, candidates);
        OneMoreTaken(rows, candidates, batch, BatchSize(cfg) - |batch|);
        LeaseOneMore(rows, batch, target, until, worker);
        messages := messages[target := rows[target].(until := Some(until), holder := Some(worker))];
        candidates := candidates - {target};
        batch := batch + [target];
      }
      FirstOfSteps(rows, candidates, BatchSize(cfg) - |batch|);
    }

    method LeaseMessages(me: nat, worker: string) returns (leased: seq<Snap>, failed: bool)
      requires Valid() && me in procs && procs[me] == Leasing(worker)
      modifies this
      ensures Valid() && old(acts) <= acts && me in procs && |old(log)| <= |log|
      ensures procs[me] == if failed || leased == [] then Finished(0, failed) else Publishing(leased, 0)
    {
      Others(me);
      hide Act, Run, Candidates, FirstOf, Leased;
      var d: Delivery, locked: set<string> := *, *;
      ghost var before := Now();
      ghost var a := Go(me, d, locked, None);
      LeaseIsAct(cfg, before, procs[me], a);
      if d.NotSent? {
        Took(me, Finished(0, true), a, before);
        return [], true;
      }
      LeaseTakesTheOldest(messages, Candidates(messages, now, locked), BatchSize(cfg));
      var rows, until := messages, now + LeaseDuration(cfg);
      var batch := TakeBatch(locked, until, worker);
      leased := Snaps(rows, batch, until);
      failed := d.ReplyLost?;
      Took(me, if failed || leased == [] then Finished(0, failed) else Publishing(leased, 0), a, before);
    }

    /** Publish: the message reaches the log, or an error comes back, or both. */
    method Publish(me: nat, batch: seq<Snap>, published: nat) returns (ok: bool, dead: bool, retryAt: int)
      requires Valid() && me in procs && batch != [] && procs[me] == Publishing(batch, published)
      modifies this
      ensures Valid() && old(acts) <= acts && me in procs
      ensures |old(log)| <= |log| && (ok ==> |old(log)| + 1 <= |log|)
      ensures procs[me] == if ok then Acking(batch, published) else Nacking(batch, published, dead, retryAt)
    {
      Others(me);
      hide Act, Calculate, Run;
      var d: Delivery, draw: Option<nat> := *, *;
      ghost var before := Now();
      PublishIsAct(cfg, before, procs[me], Go(me, d, {}, draw));
      var msg := batch[0];
      if !d.NotSent? {
        log := log + [Envelope(msg.id, if msg.id in messages then messages[msg.id].aggregate else "", true)];
      }
      ok, dead, retryAt := d.Delivered?, false, 0;
      if !ok {
        failures := failures[msg.id := (if msg.id in failures then failures[msg.id] else 0) + 1];
        var nextRetryCount := msg.retries + 1;
        dead := IsMaxRetriesExceeded(cfg.policy, nextRetryCount);
        retryAt := now + Calculate(cfg.policy, nextRetryCount, draw);
      }
      Took(me, if ok then Acking(batch, published) else Nacking(batch, published, dead, retryAt),
           Go(me, d, {}, draw), before);
    }

    method MarkPublished(me: nat, batch: seq<Snap>, published: nat) returns (ok: bool)
      requires Valid() && me in procs && batch != [] && procs[me] == Acking(batch, published)
      modifies this
      ensures Valid() && old(acts) <= acts && me in procs && |old(log)| <= |log|
      ensures procs[me] == NextUp(batch, if ok then published + 1 else published)
    {
      Others(me);
      var d: Delivery := *;
      ghost var before := Now();
      var id := batch[0].id;
      if !d.NotSent? && id in messages {
        messages := messages[id := messages[id].(status := Published, until := None, holder := None)];
        ok := d.Delivered?;
      } else {
        ok := false;
      }
      Took(me, NextUp(batch, if ok then published + 1 else published), Go(me, d, {}, None), before);
    }

    method MarkFailed(me: nat, batch: seq<Snap>, published: nat, dead: bool, retryAt: int)
      requires Valid() && me in procs && batch != [] && procs[me] == Nacking(batch, published, dead, retryAt)
      modifies this
      ensures Valid() && old(acts) <= acts && me in procs && |old(log)| <= |log|
      ensures procs[me] == if dead then Burying(batch, published) else NextUp(batch, published)
    {
      Others(me);
      var d: Delivery := *;
      ghost var before := Now();
      var id := batch[0].id;
      if !d.NotSent? && id in messages {
        var row := messages[id];
        if dead {
          row := row.(retries := row.retries + 1, status := DeadLetter, until := None, holder := None);
        } else {
          row := row.(retries := row.retries + 1, status := Failed, until := Some(retryAt), holder := None);
        }
        messages := messages[id := row];
      }
      Took(me, if dead then Burying(batch, published) else NextUp(batch, published), Go(me, d, {}, None), before);
    }

    method SaveDeadLetter(me: nat, batch: seq<Snap>, published: nat)
      requires Valid() && me in procs && batch != [] && procs[me] == Burying(batch, published)
      modifies this
      ensures Valid() && old(acts) <= acts && me in procs && |old(log)| <= |log|
      ensures procs[me] == NextUp(batch, published)
    {
      Others(me);
      var d: Delivery := *;
      ghost var before := Now();
      if !d.NotSent? {
        deadLetters := deadLetters + [Buried(batch[0].id, batch[0].retries + 1)];
      }
      Took(me, NextUp(batch, published), Go(me, d, {}, None), before);
    }

    method HandlePublishFailure(me: nat, batch: seq<Snap>, published: nat, dead: bool, retryAt: int)
      requires Valid() && me in procs && batch != [] && procs[me] == Nacking(batch, published, dead, retryAt)
      modifies this
      ensures Valid() && old(acts) <= acts && me in procs && |old(log)| <= |log|
      ensures procs[me] == NextUp(batch, published)
    {
      hide Valid, NextUp;
      MarkFailed(me, batch, published, dead, retryAt);
      if dead { SaveDeadLetter(me, batch, published); }
    }

    /** One cycle: lease, then publish and mark message by message, until the batch is through
        or the context ends. What it reports as published is in the log. */
    method PollAndPublish(me: nat, worker: string) returns (published: nat, failed: bool)
      requires Valid() && me !in procs
      modifies this
      ensures Valid() && old(acts) <= acts && me in procs && procs[me] == Finished(published, failed)
      ensures |old(log)| + published <= |log|
    {
      Happen(Poll(me, worker));
      var leased;
      leased, failed := LeaseMessages(me, worker);
      published := 0;
      if failed || leased == [] { return; }
      hide Valid;
      ghost var from := |old(log)|;
      while procs[me].Publishing?
        invariant Valid() && old(acts) <= acts && me in procs
        invariant if leased == [] then procs[me] == Finished(published, failed)
                  else procs[me] == Publishing(leased, published) && !failed
        invariant from + published <= |log|
        decreases |leased|
      {
        var cancelled: bool := *;
        if cancelled {
          failed := Stop(me);
          leased := [];
        } else {
          published := OneMessage(me, leased, published);
          leased := leased[1..];
        }
      }
    }

    method Stop(me: nat) returns (failed: bool)
      requires Valid() && me in procs && procs[me].Publishing?
      modifies this
      ensures Valid() && old(acts) <= acts && me in procs && procs[me] == Finished(old(procs[me].published), failed)
      ensures failed && log == old(log)
    {
      Happen(Cancel(me));
      failed := true;
    }

    method OneMessage(me: nat, batch: seq<Snap>, sofar: nat) returns (published: nat)
      requires Valid() && me in procs && batch != [] && procs[me] == Publishing(batch, sofar)
      modifies this
      ensures Valid() && old(acts) <= acts && me in procs && procs[me] == NextUp(batch, published)
      ensures |old(log)| + published - sofar <= |log| && sofar <= published
    {
      hide Valid, NextUp;
      var ok, dead, retryAt := Publish(me, batch, sofar);
      published := sofar;
      if ok {
        var marked := MarkPublished(me, batch, sofar);
        if marked { published := published + 1; }
      } else {
        HandlePublishFailure(me, batch, sofar, dead, retryAt);
      }
    }
  }
}
