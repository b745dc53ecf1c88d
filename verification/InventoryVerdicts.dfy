/** What the interleaved transactions answer, committed or not, measured against the operations
    run as single steps. */
module InventoryVerdicts {
  import opened Common
  import opened Statuses
  import opened Text
  import opened InventoryDb
  import opened InventoryLocks
  import IS = InventoryService

  /** The rows that a transaction has locked so far are all those that its snapshot shows. */
  predicate Covers(db: Db, tx: Tx) {
    && tx.visible <= db.stock.Keys && tx.seen.Keys <= tx.visible
    && (!tx.op.Reserve? && !tx.phase.Opening? ==> tx.items.Keys <= tx.visible)
    && (tx.phase.Locking? && tx.phase.i <= |Sorted(tx.items.Keys)| ==>
          forall s :: s in Sorted(tx.items.Keys)[..tx.phase.i] && s in tx.visible ==> s in tx.seen)
  }

  ghost predicate Covering(s: Sys) {
    forall t :: t in s.txs && !s.txs[t].phase.Over? ==> Covers(s.db, s.txs[t])
  }

  lemma LockCovers(db: Db, tx: Tx)
    requires WellFormed(tx) && Current(db, tx) && Covers(db, tx) && tx.phase.Locking?
    ensures LockNext(db, tx).phase.Over? || Covers(db, LockNext(db, tx))
  {
    hide Sorted, Less;
    var (skus, i) := (Sorted(tx.items.Keys), tx.phase.i);
    if i < |skus| {
      assert skus[..i + 1] == skus[..i] + [skus[i]];
    }
  }

  lemma AdvanceCovers(db: Db, added: map<string, int>, tx: Tx)
    requires Conserved(db, added) && WellFormed(tx) && Current(db, tx) && Covers(db, tx) && !tx.phase.Over?
    ensures Advance(db, tx).phase.Over? || Covers(db, Advance(db, tx))
  {
    hide Sorted, Less;
    if tx.phase.Locking? { LockCovers(db, tx); }
  }

  lemma StockIsKept(db0: Db, added: map<string, int>, s: Sys, a: Action)
    requires Inv(db0, added, s)
    ensures s.db.stock.Keys <= Step(s, a).db.stock.Keys
  {
    hide Conserved, AllOk, ExecAll, AddedByAll, Exclusive;
  }

  lemma StepCovers(db0: Db, added: map<string, int>, s: Sys, a: Action)
    requires Inv(db0, added, s) && Covering(s)
    ensures Covering(Step(s, a))
  {
    var s' := Step(s, a);
    StockIsKept(db0, added, s, a);
    if a.Go? && CanGo(s, a.tid) {
      var tx := s.txs[a.tid];
      if !tx.phase.Ready? {
        AdvanceCovers(s.db, AddedByAll(db0, added, s.done), tx);
        AdvanceIsAStep(s, a.tid);
      }
    }
    hide Conserved, AllOk, ExecAll, AddedByAll, Exclusive, Advance, Current, WellFormed;
    forall t | t in s'.txs && !s'.txs[t].phase.Over? ensures Covers(s'.db, s'.txs[t]) {
      if t in s.txs && s'.txs[t] == s.txs[t] { assert Covers(s.db, s.txs[t]); }
    }
  }

  lemma {:induction false} ReachableCovers(db0: Db, added: map<string, int>, acts: seq<Action>)
    requires Conserved(db0, added)
    ensures Covering(Run(Sys(db0, map[], []), acts))
  {
    if acts != [] {
      var before := acts[..|acts| - 1];
      ReachableCovers(db0, added, before);
      Reachable(db0, added, before);
      StepCovers(db0, added, Run(Sys(db0, map[], []), before), acts[|acts| - 1]);
    }
  }

  // ---- one verdict ---------------------------------------------------------------------

  /** A SKU that came into stock after the snapshot, with as much as is asked for. */
  predicate Overlooked(db: Db, tx: Tx, sku: string) {
    && sku in tx.items && sku in db.stock && sku !in tx.visible
    && db.stock[sku].onHand - db.stock[sku].reserved >= tx.items[sku]
  }

  lemma OpenVerdict(db: Db, tx: Tx)
    requires WellFormed(tx) && tx.phase.Opening? && Open(db, tx).phase.Over?
    ensures Exec(db, tx.op) == (db, Open(db, tx).phase.outcome)
  {
  }

  /** All rows of the snapshot are locked: they are what the tables hold. */
  lemma AllSeen(db: Db, tx: Tx)
    requires WellFormed(tx) && Current(db, tx) && Covers(db, tx)
    requires tx.phase.Locking? && tx.phase.i == |Sorted(tx.items.Keys)|
    ensures forall s :: s in tx.items ==> (s in tx.seen <==> s in tx.visible)
    ensures forall s :: s in tx.seen ==> s in db.stock && db.stock[s] == tx.seen[s]
  {
    hide Less;
    var skus := Sorted(tx.items.Keys);
    assert skus[..|skus|] == skus;
  }

  lemma ShortageVerdict(db: Db, tx: Tx)
    requires WellFormed(tx) && tx.op.Reserve? && tx.visible <= db.stock.Keys
    requires forall s :: s in tx.items ==> (s in tx.seen <==> s in tx.visible)
    requires forall s :: s in tx.seen ==> s in db.stock && db.stock[s] == tx.seen[s]
    ensures Shortage(db.stock, tx.items) == Shortage(tx.seen, tx.items) <==> !exists s :: Overlooked(db, tx, s)
    ensures Shortage(tx.seen, tx.items) == {} ==> Shortage(db.stock, tx.items) == {}
  {
    forall s | s in tx.items
      ensures Overlooked(db, tx, s) <==> s in Shortage(tx.seen, tx.items) && s !in Shortage(db.stock, tx.items)
      ensures s in Shortage(db.stock, tx.items) ==> s in Shortage(tx.seen, tx.items)
    {
    }
    assert Shortage(db.stock, tx.items) <= Shortage(tx.seen, tx.items);
    assert forall s :: Overlooked(db, tx, s) ==> s in Shortage(tx.seen, tx.items) - Shortage(db.stock, tx.items);
    assert forall s :: s in Shortage(tx.seen, tx.items) - Shortage(db.stock, tx.items) ==> Overlooked(db, tx, s);
  }

  lemma LockVerdict(db: Db, tx: Tx)
    requires Unique(db.rows) && WellFormed(tx) && Current(db, tx) && Covers(db, tx)
    requires tx.phase.Locking? && LockNext(db, tx).phase.Over?
    ensures var outcome := LockNext(db, tx).phase.outcome;
            Exec(db, tx.op) == (db, outcome) <==> !(outcome.InsufficientStock? && exists s :: Overlooked(db, tx, s))
  {
    hide Sorted, Less;
    AllSeen(db, tx);
    if tx.op.Reserve? {
      ShortageVerdict(db, tx);
      hide Overlooked;
      if Shortage(tx.seen, tx.items) == {} {
        forall s | s in tx.items ensures s in tx.seen { assert s !in Shortage(tx.seen, tx.items); }
      }
    } else {
      FindInUnique(db.rows, Target(db, tx.op));
    }
  }

  lemma InsertVerdict(db: Db, tx: Tx)
    requires WellFormed(tx) && Current(db, tx) && (tx.phase.KeyingId? || tx.phase.KeyingOrder?)
    requires tx.op.Reserve? && Insert(db, tx).Over?
    ensures Exec(db, tx.op) == (db, Insert(db, tx).outcome)
  {
    forall s | s in tx.items ensures s in tx.seen && s !in Shortage(db.stock, tx.items) {
      assert s !in Shortage(tx.seen, tx.items);
    }
    assert Shortage(db.stock, tx.items) == {};
    assert AllFit(db.stock, Take, tx.items);
  }

  /** Whatever the interleaving: the step that ends a transaction, in a commit or in a refusal,
      gives the answer and the tables that the whole operation gives when it runs as a single
      step at that moment. The one exception is a shortage report that counts a SKU as missing
      which came into stock after the transaction's snapshot, with enough of it. */
  lemma VerdictIsSerialIff(db0: Db, added: map<string, int>, acts: seq<Action>, tid: nat)
    requires Conserved(db0, added)
    requires var s := Run(Sys(db0, map[], []), acts); CanGo(s, tid) && Step(s, Go(tid)).txs[tid].phase.Over?
    ensures var s := Run(Sys(db0, map[], []), acts);
            var s' := Step(s, Go(tid));
            var (tx, outcome) := (s.txs[tid], s'.txs[tid].phase.outcome);
            Exec(s.db, tx.op) == (s'.db, outcome)
            <==> !(outcome.InsufficientStock? && exists sku :: Overlooked(s.db, tx, sku))
  {
    var s := Run(Sys(db0, map[], []), acts);
    Reachable(db0, added, acts);
    ReachableCovers(db0, added, acts);
    var tx := s.txs[tid];
    assert WellFormed(tx) && Current(s.db, tx) && Covers(s.db, tx) && Unique(s.db.rows);
    hide Inv, Run, Covering, Overlooked;
    if tx.phase.Ready? {
      CommitIsAtomic(s.db, tx);
      CommitIsAStep(s, tid);
    } else {
      AdvanceIsAStep(s, tid);
      if tx.phase.Opening? { OpenVerdict(s.db, tx); }
      else if tx.phase.Locking? { LockVerdict(s.db, tx); }
      else { InsertVerdict(s.db, tx); }
    }
  }

  function Missed(): seq<Action> {
    [Begin(1, Reserve(1, 9, map["A" := 1])), Supply("A", 5), Go(1)]
  }

  function Nothing(): Sys {
    Sys(Db(map[], []), map[], [])
  }

  lemma OneMore(i: nat)
    requires i < 3
    ensures Run(Nothing(), Missed()[..i + 1]) == Step(Run(Nothing(), Missed()[..i]), Missed()[i])
  {
    hide Step;
    assert Missed()[..i + 1][..i] == Missed()[..i];
  }

  function Blind(i: nat): Tx {
    Tx(Reserve(1, 9, map["A" := 1]), Locking(i), None, map["A" := 1], {}, map[])
  }

  lemma DeliveredTooLate()
    ensures Run(Nothing(), Missed()[..2])
         == Sys(Db(map["A" := Item(5, 0)], []), map[1 := Blind(0)], [Replenish("A", 5)])
  {
    OneMore(0);
    assert Run(Nothing(), Missed()[..0]) == Nothing();
    var empty: map<string, Item> := map[];
    assert empty.Keys == {};
    assert Started(Nothing().db, Reserve(1, 9, map["A" := 1])) == Blind(0);
    assert Run(Nothing(), Missed()[..1]) == Sys(Db(map[], []), map[1 := Blind(0)], []);
    hide Run;
    OneMore(1);
    assert [] + [Replenish("A", 5)] == [Replenish("A", 5)];
    assert InventoryLocks.Held(Blind(0)) == {};
  }

  lemma SortedOne(demand: map<string, int>)
    requires demand.Keys == {"A"}
    ensures Sorted(demand.Keys) == ["A"]
  {
    IS.AscendingIsUnique(Sorted(demand.Keys), ["A"]);
  }

  /** Such a report: one piece is asked for, five are delivered, and it is refused. */
  lemma ReportMayBeStale()
    ensures var s := Run(Nothing(), Missed());
            && CanGo(s, 1) && Step(s, Go(1)).txs[1].phase == Over(InsufficientStock({"A"}))
            && Exec(s.db, s.txs[1].op).1.Ok?
  {
    BlindAtTheEnd();
    hide Run, Sorted;
    var demand := map["A" := 1];
    SortedOne(demand);
    var db := Db(map["A" := Item(5, 0)], []);
    assert Shortage(map[], demand) == {"A"};
    assert Shortage(db.stock, demand) == {};
  }

  lemma BlindAtTheEnd()
    ensures Run(Nothing(), Missed())
         == Sys(Db(map["A" := Item(5, 0)], []), map[1 := Blind(1)], [Replenish("A", 5)])
  {
    DeliveredTooLate();
    OneMore(2);
    assert Missed()[..3] == Missed();
    hide Run, Sorted;
    SortedOne(map["A" := 1]);
  }
}
