/** Many inventory transactions at once, cut at every row lock they wait for.

    A transaction sees only committed rows, takes its locks one by one, keeps its writes to
    itself, and either commits them all at once or goes away without a trace. */
module InventoryLocks {
  import opened Common
  import opened Statuses
  import opened Text
  import opened InventoryDb

  /** What a transaction can wait for: a reservation row or a stock row locked FOR UPDATE,
      or the key of a reservation that somebody else is inserting. */
  datatype Lock = RowLock(id: Id) | SkuLock(sku: string) | IdKey(id: Id) | OrderKey(order: Id)

  datatype Phase = Opening | Locking(i: nat) | KeyingId | KeyingOrder | Ready | Over(outcome: Outcome)

  /** `visible` is what the locking statement's snapshot shows; `seen` holds the locked stock
      rows as they were read. */
  datatype Tx = Tx(op: Op, phase: Phase, row: Option<Reservation>, items: map<string, int>,
                   visible: set<string>, seen: map<string, Item>)

  /** `done` lists the operations that have committed, in the order of their commits. */
  datatype Sys = Sys(db: Db, txs: map<nat, Tx>, done: seq<Op>)

  datatype Action =
    | Begin(tid: nat, op: Op)
    | Go(tid: nat)
    | Abort(tid: nat)                          // any error, or a crash
    | Supply(sku: string, quantity: int)       // UpsertStock: one statement of its own

  function How(op: Op): Movement {
    match op
    case Settle(_, status) => HowTo(status)
    case SettleByOrder(_, status) => HowTo(status)
    case _ => Take
  }

  function Held(tx: Tx): set<Lock> {
    if tx.phase.Over? then {} else
      (set s | s in tx.seen :: SkuLock(s))
      + (if tx.row.Some? then {RowLock(tx.row.value.id)} else {})
      + (if tx.op.Reserve? && (tx.phase.KeyingOrder? || tx.phase.Ready?) then {IdKey(tx.op.id)} else {})
      + (if tx.op.Reserve? && tx.phase.Ready? then {OrderKey(tx.op.order)} else {})
  }

  /** The reservation row that a commit or a release is about. */
  function Target(db: Db, op: Op): int {
    match op
    case Settle(id, _) => Find(db.rows, id)
    case SettleByOrder(order, _) => FindOrder(db.rows, order)
    case _ => -1
  }

  function Wanted(db: Db, tx: Tx): Option<Lock> {
    match tx.phase
    case Opening => if 0 <= Target(db, tx.op) < |db.rows| then Some(RowLock(db.rows[Target(db, tx.op)].id)) else None
    case Locking(i) =>
      if i < |Sorted(tx.items.Keys)| && Sorted(tx.items.Keys)[i] in tx.visible
      then Some(SkuLock(Sorted(tx.items.Keys)[i])) else None
    case KeyingId => if tx.op.Reserve? then Some(IdKey(tx.op.id)) else None
    case KeyingOrder => if tx.op.Reserve? then Some(OrderKey(tx.op.order)) else None
    case _ => None
  }

  predicate Free(s: Sys, l: Lock) {
    forall t :: t in s.txs ==> l !in Held(s.txs[t])
  }

  predicate CanGo(s: Sys, tid: nat) {
    && tid in s.txs && !s.txs[tid].phase.Over?
    && (Wanted(s.db, s.txs[tid]).Some? ==> Free(s, Wanted(s.db, s.txs[tid]).value))
  }

  // ---- one transaction, one lock further -----------------------------------------------

  function Started(db: Db, op: Op): Tx {
    if op.Reserve? then Tx(op, Locking(0), None, op.demand, db.stock.Keys, map[])
    else Tx(op, Opening, None, map[], {}, map[])
  }

  function Status(op: Op): ReservationStatus {
    match op
    case Settle(_, status) => status
    case SettleByOrder(_, status) => status
    case _ => ReservationStatus.Held
  }

  function Open(db: Db, tx: Tx): Tx {
    var i := Target(db, tx.op);
    if !(0 <= i < |db.rows|) then tx.(phase := Over(NotFound))
    else if db.rows[i].status == Status(tx.op) then tx.(phase := Over(Ok))
    else if !db.rows[i].status.Held? then tx.(phase := Over(AlreadySettled(db.rows[i].status)))
    else tx.(phase := Locking(0), row := Some(db.rows[i]), items := db.rows[i].items, visible := db.stock.Keys)
  }

  /** All locks of the SELECT ... FOR UPDATE are there; now the rows are checked and updated. */
  function Update(tx: Tx): Phase {
    if tx.op.Reserve? && Shortage(tx.seen, tx.items) != {} then Over(InsufficientStock(Shortage(tx.seen, tx.items)))
    else if !AllFit(tx.seen, How(tx.op), tx.items) then Over(ConstraintViolated)
    else if tx.op.Reserve? then KeyingId else Ready
  }

  function LockNext(db: Db, tx: Tx): Tx
    requires tx.phase.Locking?
  {
    var skus, i := Sorted(tx.items.Keys), tx.phase.i;
    if i >= |skus| then tx.(phase := Update(tx))
    else if skus[i] in tx.visible && skus[i] in db.stock
    then tx.(phase := Locking(i + 1), seen := tx.seen[skus[i] := db.stock[skus[i]]])
    else tx.(phase := Locking(i + 1))
  }

  function Insert(db: Db, tx: Tx): Phase
    requires tx.op.Reserve?
  {
    if tx.phase.KeyingId? then (if Find(db.rows, tx.op.id) >= 0 then Over(Duplicate) else KeyingOrder)
    else if FindOrder(db.rows, tx.op.order) >= 0 then Over(Duplicate)
    else if !ItemRowsFit(tx.op.demand) then Over(ConstraintViolated)
    else Ready
  }

  function Commit(db: Db, tx: Tx): Db {
    var stock := db.stock + MoveAll(tx.seen, How(tx.op), tx.items);
    if tx.op.Reserve? then
      Db(stock, db.rows + [Reservation(tx.op.id, tx.op.order, ReservationStatus.Held, tx.op.demand)])
    else
      var i := if tx.row.Some? then Find(db.rows, tx.row.value.id) else -1;
      Db(stock, if i < 0 then db.rows else db.rows[i := db.rows[i].(status := Status(tx.op))])
  }

  function Step(s: Sys, a: Action): Sys {
    match a
    case Begin(tid, op) =>
      if tid in s.txs || op.Replenish? || !Sensible(op) then s else s.(txs := s.txs[tid := Started(s.db, op)])
    case Abort(tid) =>
      if tid !in s.txs || s.txs[tid].phase.Over? then s
      else s.(txs := s.txs[tid := s.txs[tid].(phase := Over(ConstraintViolated))])
    case Supply(sku, quantity) =>
      if quantity <= 0 || !Free(s, SkuLock(sku)) || !Exec(s.db, Replenish(sku, quantity)).1.Ok? then s
      else s.(db := Exec(s.db, Replenish(sku, quantity)).0, done := s.done + [Replenish(sku, quantity)])
    case Go(tid) =>
      if !CanGo(s, tid) then s else
        var tx := s.txs[tid];
        match tx.phase
        case Opening => s.(txs := s.txs[tid := Open(s.db, tx)])
        case Locking(_) => s.(txs := s.txs[tid := LockNext(s.db, tx)])
        case Ready => Sys(Commit(s.db, tx), s.txs[tid := tx.(phase := Over(Ok))], s.done + [tx.op])
        case _ => if tx.op.Reserve? then s.(txs := s.txs[tid := tx.(phase := Insert(s.db, tx))]) else s
  }

  function Run(s: Sys, acts: seq<Action>): Sys {
    if acts == [] then s else Step(Run(s, acts[..|acts| - 1]), acts[|acts| - 1])
  }

  // ---- the invariant -------------------------------------------------------------------

  /** What a transaction has read is still what is stored. */
  predicate Current(db: Db, tx: Tx) {
    && (forall s :: s in tx.seen ==> s in db.stock && tx.seen[s] == db.stock[s])
    && (tx.row.Some? ==>
          && 0 <= Target(db, tx.op) < |db.rows| && db.rows[Target(db, tx.op)] == tx.row.value
          && tx.row.value.status.Held? && tx.items == tx.row.value.items)
    && (tx.op.Reserve? && (tx.phase.KeyingOrder? || tx.phase.Ready?) ==> Find(db.rows, tx.op.id) < 0)
    && (tx.op.Reserve? && tx.phase.Ready? ==> FindOrder(db.rows, tx.op.order) < 0)
  }

  predicate WellFormed(tx: Tx) {
    && !tx.op.Replenish? && Sensible(tx.op)
    && (tx.op.Reserve? ==> tx.row.None? && tx.items == tx.op.demand && !tx.phase.Opening?)
    && (!tx.op.Reserve? ==> (tx.phase.Opening? <==> tx.row.None?) && !tx.phase.KeyingId? && !tx.phase.KeyingOrder?)
    && (tx.phase.Opening? ==> tx.seen == map[])
    && (tx.phase.Locking? ==>
          tx.phase.i <= |Sorted(tx.items.Keys)|
          && forall s :: s in tx.seen ==> s in Sorted(tx.items.Keys)[..tx.phase.i])
    && (tx.phase.KeyingId? || tx.phase.KeyingOrder? || tx.phase.Ready? ==>
          && AllFit(tx.seen, How(tx.op), tx.items) && tx.seen.Keys <= tx.items.Keys
          && (tx.op.Reserve? ==> Shortage(tx.seen, tx.items) == {}))
    && (tx.op.Reserve? && tx.phase.Ready? ==> ItemRowsFit(tx.op.demand))
  }

  ghost predicate Exclusive(s: Sys) {
    forall t, u :: t in s.txs && u in s.txs && t != u ==> Held(s.txs[t]) !! Held(s.txs[u])
  }

  function AddedByAll(db: Db, added: map<string, int>, ops: seq<Op>): map<string, int> {
    if ops == [] then added
    else Added(ExecAll(db, ops[..|ops| - 1]), AddedByAll(db, added, ops[..|ops| - 1]), ops[|ops| - 1])
  }

  ghost predicate AllOk(db: Db, ops: seq<Op>) {
    forall n :: 0 <= n < |ops| ==> Exec(ExecAll(db, ops[..n]), ops[n]).1.Ok? && Sensible(ops[n])
  }

  ghost predicate Inv(db0: Db, added: map<string, int>, s: Sys) {
    && (forall t :: t in s.txs && !s.txs[t].phase.Over? ==> WellFormed(s.txs[t]) && Current(s.db, s.txs[t]))
    && Exclusive(s)
    && s.db == ExecAll(db0, s.done) && AllOk(db0, s.done)
    && Conserved(s.db, AddedByAll(db0, added, s.done))
  }

  lemma OneMoreDone(db0: Db, added: map<string, int>, ops: seq<Op>, op: Op)
    requires AllOk(db0, ops) && Conserved(ExecAll(db0, ops), AddedByAll(db0, added, ops))
    requires Exec(ExecAll(db0, ops), op).1.Ok? && Sensible(op)
    ensures ExecAll(db0, ops + [op]) == Exec(ExecAll(db0, ops), op).0
    ensures AllOk(db0, ops + [op])
    ensures Conserved(ExecAll(db0, ops + [op]), AddedByAll(db0, added, ops + [op]))
  {
    assert (ops + [op])[..|ops|] == ops;
    forall n | 0 <= n < |ops| ensures (ops + [op])[..n] == ops[..n] {}
    ExecKeepsConserved(ExecAll(db0, ops), AddedByAll(db0, added, ops), op);
  }

  lemma FindInUnique(rows: seq<Reservation>, i: nat)
    requires Unique(rows) && i < |rows|
    ensures Find(rows, rows[i].id) == i && FindOrder(rows, rows[i].order) == i
  {
  }

  /** Committing what the transaction kept to itself is the same as running the whole
      operation, at this moment, on the tables as they are now. */
  lemma CommitIsAtomic(db: Db, tx: Tx)
    requires Unique(db.rows) && WellFormed(tx) && Current(db, tx) && tx.phase.Ready?
    ensures Exec(db, tx.op) == (Commit(db, tx), Ok)
  {
    assert tx.items.Keys == tx.seen.Keys;
    assert MoveAll(db.stock, How(tx.op), tx.items) == db.stock + MoveAll(tx.seen, How(tx.op), tx.items);
    if tx.op.Reserve? {
      assert Shortage(db.stock, tx.items) == {} by {
        forall s | s in tx.items ensures s !in Shortage(db.stock, tx.items)
        { assert s !in Shortage(tx.seen, tx.items); }
      }
    } else {
      FindInUnique(db.rows, Target(db, tx.op));
    }
  }

  // ---- every step keeps the invariant --------------------------------------------------

  function Advance(db: Db, tx: Tx): Tx {
    match tx.phase
    case Opening => Open(db, tx)
    case Locking(_) => LockNext(db, tx)
    case _ => if tx.op.Reserve? && !tx.phase.Ready? && !tx.phase.Over? then tx.(phase := Insert(db, tx)) else tx
  }

  predicate Kept(db: Db, tx: Tx) {
    tx.phase.Over? || (WellFormed(tx) && Current(db, tx))
  }

  /** What a transaction holds next is what it held and the lock it was waiting for. */
  predicate TakesOnly(db: Db, tx: Tx, tx': Tx) {
    forall l :: l in Held(tx') ==> l in Held(tx) || Some(l) == Wanted(db, tx)
  }

  lemma OpenStep(db: Db, tx: Tx)
    requires Kept(db, tx) && tx.phase.Opening?
    ensures Kept(db, Open(db, tx)) && TakesOnly(db, tx, Open(db, tx))
  {
  }

  lemma LockStep(db: Db, tx: Tx)
    requires Kept(db, tx) && tx.phase.Locking?
    ensures Kept(db, LockNext(db, tx)) && TakesOnly(db, tx, LockNext(db, tx))
  {
    hide Sorted, Less;
    var skus, i := Sorted(tx.items.Keys), tx.phase.i;
    if i >= |skus| {
      assert skus[..i] == skus;
    } else {
      assert skus[..i + 1] == skus[..i] + [skus[i]];
    }
  }

  lemma InsertStep(db: Db, tx: Tx)
    requires Kept(db, tx) && (tx.phase.KeyingId? || tx.phase.KeyingOrder?)
    ensures tx.op.Reserve? && Kept(db, tx.(phase := Insert(db, tx))) && TakesOnly(db, tx, tx.(phase := Insert(db, tx)))
  {
  }

  lemma ExclusiveStep(s: Sys, tid: nat, tx': Tx)
    requires Exclusive(s) && CanGo(s, tid) && TakesOnly(s.db, s.txs[tid], tx')
    ensures Exclusive(s.(txs := s.txs[tid := tx']))
  {
    forall u | u in s.txs && u != tid ensures Held(tx') !! Held(s.txs[u]) {
      assert Held(s.txs[tid]) !! Held(s.txs[u]);
      forall l | l in Held(tx') ensures l !in Held(s.txs[u]) {}
    }
  }

  lemma LocksOf(tx: Tx)
    requires !tx.phase.Over?
    ensures forall s :: s in tx.seen <==> SkuLock(s) in Held(tx)
    ensures tx.row.Some? ==> RowLock(tx.row.value.id) in Held(tx)
  {
  }

  lemma CommitSparesStock(db: Db, tx: Tx, other: Tx)
    requires tx.phase.Ready? && !other.phase.Over? && Held(tx) !! Held(other)
    requires forall s :: s in other.seen ==> s in db.stock && other.seen[s] == db.stock[s]
    ensures forall s :: s in other.seen ==> s in Commit(db, tx).stock && other.seen[s] == Commit(db, tx).stock[s]
  {
    LocksOf(tx);
    LocksOf(other);
    forall s | s in other.seen ensures s !in tx.seen { assert SkuLock(s) in Held(other); }
  }

  lemma InsertSparesOthers(db: Db, tx: Tx, other: Tx)
    requires Unique(db.rows) && tx.op.Reserve? && Current(db, tx) && Current(db, other)
    requires tx.phase.Ready? && !other.phase.Over? && WellFormed(other) && Held(tx) !! Held(other)
    ensures Current(Commit(db, tx), other)
  {
    var db' := Commit(db, tx);
    CommitSparesStock(db, tx, other);
    assert db'.rows[..|db.rows|] == db.rows;
    assert IdKey(tx.op.id) in Held(tx) && OrderKey(tx.op.order) in Held(tx);
    assert other.op.Reserve? && (other.phase.KeyingOrder? || other.phase.Ready?) ==> IdKey(other.op.id) in Held(other);
    assert other.op.Reserve? && other.phase.Ready? ==> OrderKey(other.op.order) in Held(other);
  }

  lemma SameTarget(db: Db, db': Db, op: Op)
    requires |db.rows| == |db'.rows|
    requires forall i :: 0 <= i < |db.rows| ==> db.rows[i].id == db'.rows[i].id && db.rows[i].order == db'.rows[i].order
    ensures Target(db, op) == Target(db', op)
    ensures op.Reserve? ==> Find(db.rows, op.id) == Find(db'.rows, op.id)
                            && FindOrder(db.rows, op.order) == FindOrder(db'.rows, op.order)
  {
    match op
    case Settle(id, _) => SameFind(db.rows, db'.rows, id);
    case SettleByOrder(order, _) => SameFindOrder(db.rows, db'.rows, order);
    case Reserve(id, order, _) =>
      SameFind(db.rows, db'.rows, id);
      SameFindOrder(db.rows, db'.rows, order);
    case _ =>
  }

  lemma SettlingSparesOthers(db: Db, tx: Tx, other: Tx)
    requires Unique(db.rows) && !tx.op.Reserve? && WellFormed(tx) && Current(db, tx) && Current(db, other)
    requires tx.phase.Ready? && !other.phase.Over? && WellFormed(other) && Held(tx) !! Held(other)
    ensures Current(Commit(db, tx), other)
  {
    var db' := Commit(db, tx);
    CommitSparesStock(db, tx, other);
    LocksOf(tx);
    LocksOf(other);
    hide Held, Target, AllFit, Shortage, MoveAll;
    var i := Target(db, tx.op);
    FindInUnique(db.rows, i);
    assert db'.rows == db.rows[i := db.rows[i].(status := Status(tx.op))];
    SameTarget(db, db', other.op);
    if other.row.Some? {
      assert db.rows[i].id != other.row.value.id;
    }
  }

  lemma CommitSparesOthers(db: Db, tx: Tx, other: Tx)
    requires Unique(db.rows)
    requires tx.phase.Ready? && WellFormed(tx) && Current(db, tx)
    requires !other.phase.Over? && WellFormed(other) && Current(db, other) && Held(tx) !! Held(other)
    ensures Current(Commit(db, tx), other)
  {
    hide Current, Commit, Unique, WellFormed;
    if tx.op.Reserve? { InsertSparesOthers(db, tx, other); } else { SettlingSparesOthers(db, tx, other); }
  }

  lemma {:induction false} SameFindOrder(rows: seq<Reservation>, rows': seq<Reservation>, order: Id)
    requires |rows| == |rows'| && forall i :: 0 <= i < |rows| ==> rows[i].order == rows'[i].order
    ensures FindOrder(rows, order) == FindOrder(rows', order)
  {
    if rows != [] { SameFindOrder(rows[..|rows| - 1], rows'[..|rows'| - 1], order); }
  }

  lemma CommitStep(db0: Db, added: map<string, int>, s: Sys, tid: nat)
    requires Inv(db0, added, s) && CanGo(s, tid) && s.txs[tid].phase.Ready?
    ensures Inv(db0, added, Step(s, Go(tid)))
  {
    var tx := s.txs[tid];
    assert s.db == ExecAll(db0, s.done) && AllOk(db0, s.done) && Conserved(s.db, AddedByAll(db0, added, s.done));
    assert tid in s.txs && Kept(s.db, tx) && Unique(s.db.rows);
    CommitKeepsOthers(s, tid);
    hide AllOk, Conserved, CanGo, Exclusive, Held, ExecAll, AddedByAll, Current, Commit, Unique, Exec;
    CommitIsAtomic(s.db, tx);
    OneMoreDone(db0, added, s.done, tx.op);
  }

  /** The other transactions still read what is stored, and share no lock. */
  lemma CommitKeepsOthers(s: Sys, tid: nat)
    requires tid in s.txs && s.txs[tid].phase.Ready? && Unique(s.db.rows) && Exclusive(s)
    requires forall t :: t in s.txs && !s.txs[t].phase.Over? ==> WellFormed(s.txs[t]) && Current(s.db, s.txs[t])
    ensures var (db', txs') := (Commit(s.db, s.txs[tid]), s.txs[tid := s.txs[tid].(phase := Over(Ok))]);
            && (forall u :: u in txs' && !txs'[u].phase.Over? ==> WellFormed(txs'[u]) && Current(db', txs'[u]))
            && Exclusive(Sys(db', txs', s.done + [s.txs[tid].op]))
  {
    var tx := s.txs[tid];
    assert Held(tx.(phase := Over(Ok))) == {};
    hide Held, WellFormed, Current, Commit, Unique;
    forall u | u in s.txs && u != tid && !s.txs[u].phase.Over? ensures Current(Commit(s.db, tx), s.txs[u]) {
      CommitSparesOthers(s.db, tx, s.txs[u]);
    }
  }

  lemma SupplySparesOthers(db: Db, sku: string, quantity: int, other: Tx)
    requires !other.phase.Over? && Current(db, other) && SkuLock(sku) !in Held(other)
    ensures Current(Exec(db, Replenish(sku, quantity)).0, other)
  {
    LocksOf(other);
    hide Held;
    SameTarget(db, Exec(db, Replenish(sku, quantity)).0, other.op);
  }

  lemma SupplyStep(db0: Db, added: map<string, int>, s: Sys, sku: string, quantity: int)
    requires Inv(db0, added, s)
    ensures Inv(db0, added, Step(s, Supply(sku, quantity)))
  {
    hide Current, Conserved, AllOk, ExecAll, AddedByAll, Exec;
    var s' := Step(s, Supply(sku, quantity));
    if s' != s {
      OneMoreDone(db0, added, s.done, Replenish(sku, quantity));
      forall u | u in s'.txs && !s'.txs[u].phase.Over? ensures Current(s'.db, s'.txs[u]) {
        SupplySparesOthers(s.db, sku, quantity, s.txs[u]);
      }
    }
  }

  lemma GoStep(db0: Db, added: map<string, int>, s: Sys, tid: nat)
    requires Inv(db0, added, s) && CanGo(s, tid) && !s.txs[tid].phase.Ready?
    ensures Inv(db0, added, Step(s, Go(tid)))
  {
    var tx := s.txs[tid];
    var tx' := Advance(s.db, tx);
    match tx.phase {
      case Opening => OpenStep(s.db, tx);
      case Locking(_) => LockStep(s.db, tx);
      case _ => InsertStep(s.db, tx);
    }
    hide Conserved, AllOk, ExecAll, AddedByAll;
    assert Step(s, Go(tid)) == s.(txs := s.txs[tid := tx']);
    ExclusiveStep(s, tid, tx');
  }

  lemma BeginStep(db0: Db, added: map<string, int>, s: Sys, a: Action)
    requires Inv(db0, added, s) && a.Begin?
    ensures Inv(db0, added, Step(s, a))
  {
    hide Conserved, AllOk, ExecAll, AddedByAll;
    assert Held(Started(s.db, a.op)) == {};
  }

  lemma AbortStep(db0: Db, added: map<string, int>, s: Sys, a: Action)
    requires Inv(db0, added, s) && a.Abort?
    ensures Inv(db0, added, Step(s, a))
  {
    hide Conserved, AllOk, ExecAll, AddedByAll;
    if a.tid in s.txs {
      assert Held(s.txs[a.tid].(phase := Over(ConstraintViolated))) == {};
    }
  }

  lemma {:induction false} StepKeepsInv(db0: Db, added: map<string, int>, s: Sys, a: Action)
    requires Inv(db0, added, s)
    ensures Inv(db0, added, Step(s, a))
  {
    match a
    case Begin(_, _) => BeginStep(db0, added, s, a);
    case Abort(_) => AbortStep(db0, added, s, a);
    case Supply(sku, quantity) => SupplyStep(db0, added, s, sku, quantity);
    case Go(tid) =>
      if CanGo(s, tid) {
        if s.txs[tid].phase.Ready? { CommitStep(db0, added, s, tid); } else { GoStep(db0, added, s, tid); }
      }
  }

  lemma {:induction false} Reachable(db0: Db, added: map<string, int>, acts: seq<Action>)
    requires Conserved(db0, added)
    ensures Inv(db0, added, Run(Sys(db0, map[], []), acts))
  {
    if acts != [] {
      Reachable(db0, added, acts[..|acts| - 1]);
      StepKeepsInv(db0, added, Run(Sys(db0, map[], []), acts[..|acts| - 1]), acts[|acts| - 1]);
    }
  }

  // ---- the guarantees ------------------------------------------------------------------

  /** However the transactions interleave, the tables are what the committed operations give
      when they run one after the other, each as a single step, in commit order; and each of
      them succeeds there. Nothing that was aborted leaves a trace. */
  lemma {:induction false} Serializable(db0: Db, added: map<string, int>, acts: seq<Action>)
    requires Conserved(db0, added)
    ensures var s := Run(Sys(db0, map[], []), acts);
            && s.db == ExecAll(db0, s.done)
            && forall n :: 0 <= n < |s.done| ==> Exec(ExecAll(db0, s.done[..n]), s.done[n]).1.Ok?
  {
    Reachable(db0, added, acts);
  }

  /** In every reachable state, for every SKU: what is reserved is what the pending
      reservations hold, never more than what is there, and everything ever delivered is
      either there or was sold through a committed reservation. */
  lemma {:induction false} StockIsConserved(db0: Db, added: map<string, int>, acts: seq<Action>, sku: string)
    requires Conserved(db0, added)
    ensures var s := Run(Sys(db0, map[], []), acts);
            sku in s.db.stock ==>
              && s.db.stock[sku].reserved == Total(s.db.rows, ReservationStatus.Held, sku)
              && 0 <= s.db.stock[sku].reserved <= s.db.stock[sku].onHand
              && sku in AddedByAll(db0, added, s.done)
              && AddedByAll(db0, added, s.done)[sku] == s.db.stock[sku].onHand + Total(s.db.rows, Committed, sku)
  {
    Reachable(db0, added, acts);
  }

  /** The order in which locks are taken. */
  predicate Before(a: Lock, b: Lock) {
    match a
    case RowLock(_) => !b.RowLock?
    case SkuLock(s) => b.IdKey? || b.OrderKey? || (b.SkuLock? && Less(s, b.sku))
    case IdKey(_) => b.OrderKey?
    case OrderKey(_) => false
  }

  lemma BeforeIsAnOrder(a: Lock, b: Lock, c: Lock)
    ensures !Before(a, a)
    ensures Before(a, b) && Before(b, c) ==> Before(a, c)
  {
    if a.SkuLock? { LessTotal(a.sku, a.sku); }
    if a.SkuLock? && b.SkuLock? && c.SkuLock? && Less(a.sku, b.sku) && Less(b.sku, c.sku) {
      LessTransitive(a.sku, b.sku, c.sku);
    }
  }

  /** Everything a transaction holds comes before what it waits for. */
  lemma TakesInOrder(db: Db, tx: Tx, l: Lock)
    requires WellFormed(tx) && !tx.phase.Over? && l in Held(tx) && Wanted(db, tx).Some?
    ensures Before(l, Wanted(db, tx).value)
  {
    if tx.phase.Locking? && l.SkuLock? {
      var skus, i := Sorted(tx.items.Keys), tx.phase.i;
      var k :| 0 <= k < i && skus[k] == l.sku;
      assert Less(skus[k], skus[i]);
    }
  }

  ghost function WaitingBeyond(s: Sys, l: Lock): set<nat> {
    set t | t in s.txs && !s.txs[t].phase.Over? && Wanted(s.db, s.txs[t]).Some?
            && Before(l, Wanted(s.db, s.txs[t]).value)
  }

  lemma {:induction false} FollowTheHolders(db0: Db, added: map<string, int>, s: Sys, t: nat)
    requires Inv(db0, added, s) && t in s.txs && !s.txs[t].phase.Over?
    ensures exists u :: CanGo(s, u)
    decreases if Wanted(s.db, s.txs[t]).Some? then |WaitingBeyond(s, Wanted(s.db, s.txs[t]).value)| + 1 else 0
  {
    if !CanGo(s, t) {
      var l := Wanted(s.db, s.txs[t]).value;
      var u :| u in s.txs && l in Held(s.txs[u]);
      if Wanted(s.db, s.txs[u]).None? {
        assert CanGo(s, u);
      } else {
        var m := Wanted(s.db, s.txs[u]).value;
        TakesInOrder(s.db, s.txs[u], l);
        forall x | x in WaitingBeyond(s, m) ensures x in WaitingBeyond(s, l) {
          BeforeIsAnOrder(l, m, Wanted(s.db, s.txs[x]).value);
        }
        BeforeIsAnOrder(m, m, m);
        assert u in WaitingBeyond(s, l) && u !in WaitingBeyond(s, m);
        assert WaitingBeyond(s, m) < WaitingBeyond(s, l);
        StrictlyFewer(WaitingBeyond(s, m), WaitingBeyond(s, l));
        FollowTheHolders(db0, added, s, u);
      }
    }
  }

  lemma StrictlyFewer(a: set<nat>, b: set<nat>)
    requires a < b
    ensures |a| < |b|
  {
    var x :| x in b && x !in a;
    assert |b - a| + |a| == |b| by { assert a + (b - a) == b; }
    assert x in b - a;
  }

  /** No deadlock, for any number of transactions: while one is unfinished, one can go on. */
  lemma NeverStuck(db0: Db, added: map<string, int>, acts: seq<Action>)
    requires Conserved(db0, added)
    requires var s := Run(Sys(db0, map[], []), acts); exists t :: t in s.txs && !s.txs[t].phase.Over?
    ensures var s := Run(Sys(db0, map[], []), acts); exists u :: CanGo(s, u)
  {
    Reachable(db0, added, acts);
    var s := Run(Sys(db0, map[], []), acts);
    var t :| t in s.txs && !s.txs[t].phase.Over?;
    FollowTheHolders(db0, added, s, t);
  }

  /** How far a transaction is from its end. */
  function Remaining(tx: Tx): (nat, nat) {
    match tx.phase
    case Opening => (5, 0)
    case Locking(i) => (4, if i <= |Sorted(tx.items.Keys)| then |Sorted(tx.items.Keys)| - i else 0)
    case KeyingId => (3, 0)
    case KeyingOrder => (2, 0)
    case Ready => (1, 0)
    case Over(_) => (0, 0)
  }

  predicate Nearer(after: (nat, nat), before: (nat, nat)) {
    after.0 < before.0 || (after.0 == before.0 && after.1 < before.1)
  }

  lemma AdvanceIsNearer(db: Db, tx: Tx)
    requires WellFormed(tx) && !tx.phase.Over? && !tx.phase.Ready?
    ensures Nearer(Remaining(Advance(db, tx)), Remaining(tx))
  {
    hide AllFit, Shortage;
  }

  /** And going on is real progress: every step that a transaction is free to take brings it
      nearer to its end and leaves all other transactions where they are. */
  lemma {:induction false} GoingOnEnds(db0: Db, added: map<string, int>, acts: seq<Action>, tid: nat)
    requires Conserved(db0, added) && CanGo(Run(Sys(db0, map[], []), acts), tid)
    ensures var s := Run(Sys(db0, map[], []), acts);
            var s' := Step(s, Go(tid));
            && s'.txs.Keys == s.txs.Keys
            && (forall u :: u in s.txs && u != tid ==> s'.txs[u] == s.txs[u])
            && Nearer(Remaining(s'.txs[tid]), Remaining(s.txs[tid]))
  {
    var s := Run(Sys(db0, map[], []), acts);
    Reachable(db0, added, acts);
    assert WellFormed(s.txs[tid]) by { hide Conserved, AllOk, ExecAll, AddedByAll, Current, Commit, Exclusive, Run; }
    hide Inv, Run, WellFormed, Wanted, Free;
    if s.txs[tid].phase.Ready? {
      CommitIsAStep(s, tid);
    } else {
      AdvanceIsNearer(s.db, s.txs[tid]);
      AdvanceIsAStep(s, tid);
      hide Advance, Step;
    }
  }

  lemma CommitIsAStep(s: Sys, tid: nat)
    requires CanGo(s, tid) && s.txs[tid].phase.Ready?
    ensures Step(s, Go(tid)).txs == s.txs[tid := s.txs[tid].(phase := Over(Ok))]
  {
    hide Commit;
  }

  lemma AdvanceIsAStep(s: Sys, tid: nat)
    requires CanGo(s, tid) && WellFormed(s.txs[tid]) && !s.txs[tid].phase.Ready?
    ensures Step(s, Go(tid)) == s.(txs := s.txs[tid := Advance(s.db, s.txs[tid])])
  {
    hide AllFit, Shortage, Open, LockNext, Insert;
  }
}
