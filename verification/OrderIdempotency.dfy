/** Placing an order under an idempotency key. The rows of one (user, key) pair are enough:
    the primary key serialises the transactions that use it. */
module OrderIdempotency {
  import opened Common

  datatype Order = Order(id: Id, total: int)

  datatype KeyStatus = Processing | Completed | Failed
  datatype KeyRow = KeyRow(hash: string, status: KeyStatus, response: Option<Order>, order: Option<Id>, expiresAt: int)

  /** The key row, the orders under the key, and the OrderCreated rows of the outbox. */
  datatype Tables = Tables(key: Option<KeyRow>, orders: seq<Order>, created: seq<Id>)

  datatype Reply = Created(order: Order) | Cached(order: Order) | Conflict | Concurrent | Broken

  /** What LockIdempotencyKey finds: the row is ours to process, it holds an answer, or no. */
  datatype Locked = New | Answered(response: Option<Order>) | Refused(reply: Reply)

  function Ttl(ttl: int): int {
    if ttl <= 0 then 86400 else ttl
  }

  function Lock(t: Tables, now: int, ttl: int, hash: string): (Tables, Locked) {
    var claimed := t.(key := Some(KeyRow(hash, Processing, None, None, now + Ttl(ttl))));
    if t.key.None? || t.key.value.expiresAt < now then (claimed, New)
    else if t.key.value.hash != hash then (t, Refused(Conflict))
    else match t.key.value.status
      case Processing => (t, Refused(Concurrent))
      case Failed => (t.(key := Some(t.key.value.(status := Processing, expiresAt := now + Ttl(ttl)))), New)
      case Completed => (t, Answered(t.key.value.response))
  }

  predicate Success(reply: Reply) {
    reply.Created? || reply.Cached?
  }

  /** The body of the transaction in CreateOrder. */
  function Place(t: Tables, now: int, ttl: int, hash: string, order: Order): (Tables, Reply) {
    match Lock(t, now, ttl, hash)
    case (_, Refused(reply)) => (t, reply)
    case (_, Answered(response)) => (t, if response.Some? then Cached(response.value) else Concurrent)
    case (locked, New) =>
      if locked.key.None? || t.orders != [] then (t, Broken)        // UNIQUE (user_id, idempotency_key)
      else
        (Tables(Some(locked.key.value.(status := Completed, response := Some(order), order := Some(order.id))),
                [order], t.created + [order.id]), Created(order))
  }

  /** One whole transaction; `d` is what becomes of its commit. */
  function Create(t: Tables, now: int, ttl: int, hash: string, order: Order, d: Delivery): (Tables, Reply) {
    var (t', reply) := Place(t, now, ttl, hash, order);
    if !Success(reply) then (t, reply)
    else if d.NotSent? then (t, Broken)
    else (t', if d.Delivered? then reply else Broken)
  }

  datatype Request = Request(now: int, ttl: int, hash: string, order: Order, d: Delivery)

  /** The tables after the requests, and the replies they got. */
  function Run(t: Tables, requests: seq<Request>): (Tables, seq<Reply>) {
    if requests == [] then (t, [])
    else
      var (before, replies) := Run(t, requests[..|requests| - 1]);
      var r := requests[|requests| - 1];
      var (after, reply) := Create(before, r.now, r.ttl, r.hash, r.order, r.d);
      (after, replies + [reply])
  }

  /** Nobody has placed an order under the key yet. */
  predicate Untouched(t: Tables) {
    t.orders == [] && t.created == [] && (t.key.Some? ==> t.key.value.status.Failed?)
  }

  predicate Consistent(t: Tables) {
    && (t.key.Some? ==> !t.key.value.status.Processing?)
    && (t.orders == [] ==> t.created == [] && (t.key.Some? ==> t.key.value.status.Failed?))
    && (t.orders != [] ==>
          && |t.orders| == 1 && t.created == [t.orders[0].id]
          && t.key.Some? && t.key.value.status.Completed?
          && t.key.value.response == Some(t.orders[0]) && t.key.value.order == Some(t.orders[0].id))
  }

  lemma CreateKeepsConsistent(t: Tables, r: Request)
    requires Consistent(t)
    ensures var (t', reply) := Create(t, r.now, r.ttl, r.hash, r.order, r.d);
            && Consistent(t')
            && (t.orders != [] ==> t' == t)
            && (Success(reply) ==> t'.orders == [reply.order])
  {
  }

  lemma {:induction false} Reachable(t: Tables, requests: seq<Request>)
    requires Untouched(t)
    ensures Consistent(Run(t, requests).0)
    ensures |Run(t, requests).1| == |requests|
    ensures forall i :: 0 <= i < |requests| && Success(Run(t, requests).1[i]) ==>
              Run(t, requests).0.orders == [Run(t, requests).1[i].order]
  {
    if requests != [] {
      Reachable(t, requests[..|requests| - 1]);
      CreateKeepsConsistent(Run(t, requests[..|requests| - 1]).0, requests[|requests| - 1]);
    }
  }

  /** Whatever the hashes, the times and the lost commits: at most one order is ever placed
      under the key, with one OrderCreated row for it; every successful reply is about that
      order; and no committed key row is left PROCESSING. */
  lemma {:induction false} OneOrderPerKey(t: Tables, requests: seq<Request>)
    requires Untouched(t)
    ensures var (t', replies) := Run(t, requests);
            && |t'.orders| <= 1 && |t'.created| == |t'.orders|
            && (t'.orders != [] ==> t'.created == [t'.orders[0].id])
            && (t'.key.Some? ==> !t'.key.value.status.Processing?)
            && (forall i :: 0 <= i < |replies| && Success(replies[i]) ==> t'.orders == [replies[i].order])
  {
    Reachable(t, requests);
  }

  /** Once the order exists, every further request is answered by the key row alone and
      changes nothing: the same request gets the order back, another request conflicts, and
      after the key has expired every request fails, because the order is still there. */
  lemma {:induction false} RepliesAreSettled(t: Tables, requests: seq<Request>, r: Request)
    requires Untouched(t) && Run(t, requests).0.orders != []
    ensures var t' := Run(t, requests).0;
            && t'.key.Some?
            && Create(t', r.now, r.ttl, r.hash, r.order, r.d) ==
               (t', if t'.key.value.expiresAt < r.now then Broken
                    else if t'.key.value.hash != r.hash then Conflict
                    else if r.d.Delivered? then Cached(t'.orders[0])
                    else Broken)
  {
    Reachable(t, requests);
  }

  /** And a request that finds no order places one, unless it conflicts with the hash of a
      failed attempt that has not expired or its commit does not go through. */
  lemma {:induction false} FirstRequestWins(t: Tables, requests: seq<Request>, r: Request)
    requires Untouched(t) && Run(t, requests).0.orders == []
    ensures var t' := Run(t, requests).0;
            var conflict := t'.key.Some? && t'.key.value.expiresAt >= r.now && t'.key.value.hash != r.hash;
            var (after, reply) := Create(t', r.now, r.ttl, r.hash, r.order, r.d);
            && (conflict <==> reply.Conflict?)
            && (after.orders == [r.order] <==> !conflict && !r.d.NotSent?)
            && (reply == Created(r.order) <==> !conflict && r.d.Delivered?)
  {
    Reachable(t, requests);
  }

  // ---- the answers, told from the requests alone ---------------------------------------

  lemma RunUpTo(t: Tables, requests: seq<Request>, n: nat)
    requires n < |requests|
    ensures |Run(t, requests[..n + 1]).1| == n + 1
    ensures var r := requests[n];
            Create(Run(t, requests[..n]).0, r.now, r.ttl, r.hash, r.order, r.d)
            == (Run(t, requests[..n + 1]).0, Run(t, requests[..n + 1]).1[n])
  {
    assert requests[..n + 1][..n] == requests[..n];
    OneReplyEach(t, requests[..n]);
    hide Create;
  }

  lemma {:induction false} OneReplyEach(t: Tables, requests: seq<Request>)
    ensures |Run(t, requests).1| == |requests|
  {
    if requests != [] { OneReplyEach(t, requests[..|requests| - 1]); }
  }

  /** What came before stays as it was answered. */
  lemma {:induction false} RepliesStay(t: Tables, requests: seq<Request>, n: nat, i: nat)
    requires i < n <= |requests|
    ensures |Run(t, requests).1| == |requests| && |Run(t, requests[..n]).1| == n
    ensures Run(t, requests[..n]).1[i] == Run(t, requests).1[i]
  {
    OneReplyEach(t, requests);
    OneReplyEach(t, requests[..n]);
    if n == |requests| {
      assert requests[..n] == requests;
    } else {
      assert requests[..|requests| - 1][..n] == requests[..n];
      RepliesStay(t, requests[..|requests| - 1], n, i);
      hide Create;
    }
  }

  /** Once there is an order, nothing changes any more. */
  lemma {:induction false} TablesStay(t: Tables, requests: seq<Request>, n: nat)
    requires Untouched(t) && n <= |requests| && Run(t, requests[..n]).0.orders != []
    ensures Run(t, requests).0 == Run(t, requests[..n]).0
  {
    if n == |requests| {
      assert requests[..n] == requests;
    } else {
      var before := requests[..|requests| - 1];
      assert before[..n] == requests[..n];
      TablesStay(t, before, n);
      Reachable(t, before);
      CreateKeepsConsistent(Run(t, before).0, requests[|requests| - 1]);
      hide Create;
    }
  }

  /** The request placed the order of the key, whatever became of its answer. */
  predicate Places(t: Tables, requests: seq<Request>, i: nat)
    requires i < |requests|
  {
    Run(t, requests[..i]).0.orders == [] && Run(t, requests[..i + 1]).0.orders != []
  }

  lemma PlacedRow(t: Tables, requests: seq<Request>, i: nat)
    requires Untouched(t) && i < |requests| && Places(t, requests, i)
    ensures var (t', r) := (Run(t, requests[..i + 1]).0, requests[i]);
            && t'.orders == [r.order] && t'.key.Some?
            && t'.key.value.hash == r.hash && t'.key.value.expiresAt == r.now + Ttl(r.ttl)
  {
    RunUpTo(t, requests, i);
    Reachable(t, requests[..i]);
    hide Run;
  }

  /** The first request that is answered Created has placed the order. */
  lemma CreatedPlaces(t: Tables, requests: seq<Request>, i: nat)
    requires Untouched(t) && i < |requests|
    ensures |Run(t, requests).1| == |requests|
    ensures Run(t, requests).1[i].Created? ==>
              Places(t, requests, i) && Run(t, requests).1[i].order == requests[i].order
  {
    RunUpTo(t, requests, i);
    RepliesStay(t, requests, i + 1, i);
    Reachable(t, requests[..i]);
    hide Run;
  }

  /** After the request that placed the order, the same request gets it back as long as the key
      lives, whoever asks, whenever, and whatever order it brings along; with another hash it
      conflicts; and when the key has expired it fails. */
  lemma {:induction false} ReplayIff(t: Tables, requests: seq<Request>, i: nat, j: nat)
    requires Untouched(t) && i < j < |requests| && Places(t, requests, i) && requests[j].d.Delivered?
    ensures |Run(t, requests).1| == |requests|
    ensures var (first, again, reply) := (requests[i], requests[j], Run(t, requests).1[j]);
            var alive := again.now <= first.now + if first.ttl <= 0 then 86400 else first.ttl;
            && (reply == Cached(first.order) <==> alive && again.hash == first.hash)
            && (reply == Conflict <==> alive && again.hash != first.hash)
            && (reply == Broken <==> !alive)
  {
    PlacedRow(t, requests, i);
    assert requests[..j][..i + 1] == requests[..i + 1];
    TablesStay(t, requests[..j], i + 1);
    RunUpTo(t, requests, j);
    RepliesStay(t, requests, j + 1, j);
    RepliesAreSettled(t, requests[..j], requests[j]);
    hide Run, Create;
  }

  class OrderStore {
    var key: Option<KeyRow>
    var orders: seq<Order>
    var created: seq<Id>

    function Rows(): Tables
      reads this
    {
      Tables(key, orders, created)
    }

    constructor ()
      ensures Untouched(Rows())
    {
      key, orders, created := None, [], [];
    }

    method LockIdempotencyKey(now: int, ttl: int, hash: string) returns (found: Locked)
      modifies this`key
      ensures (Rows(), found) == Lock(old(Rows()), now, ttl, hash)
    {
      // INSERT ... ON CONFLICT DO UPDATE ... WHERE expires_at < NOW()
      if key.None? || key.value.expiresAt < now {
        key := Some(KeyRow(hash, Processing, None, None, now + Ttl(ttl)));
        return New;
      }
      if key.value.hash != hash { return Refused(Conflict); }
      if key.value.status == Processing { return Refused(Concurrent); }
      if key.value.status == Failed {
        key := Some(key.value.(status := Processing, expiresAt := now + Ttl(ttl)));
        return New;
      }
      found := Answered(key.value.response);
    }

    method CompleteIdempotencyKey(order: Order)
      requires key.Some?
      modifies this`key
      ensures key == Some(old(key).value.(status := Completed, response := Some(order), order := Some(order.id)))
    {
      key := Some(key.value.(status := Completed, response := Some(order), order := Some(order.id)));
    }

    method CreateOrderWithItemsAndOutbox(order: Order) returns (ok: bool)
      modifies this`orders, this`created
      ensures ok <==> old(orders) == []
      ensures ok ==> orders == [order] && created == old(created) + [order.id]
    {
      if |orders| > 0 { return false; }
      orders := orders + [order];
      created := created + [order.id];
      ok := true;
    }

    method CreateOrder(now: int, ttl: int, hash: string, order: Order) returns (reply: Reply, ghost d: Delivery)
      modifies this
      ensures (Rows(), reply) == Create(old(Rows()), now, ttl, hash, order, d)
    {
      var delivery: Delivery := *;
      d := delivery;
      var before := Rows();
      reply := PlaceOrder(now, ttl, hash, order);
      if !Success(reply) || delivery.NotSent? {          // the transaction is rolled back
        key, orders, created := before.key, before.orders, before.created;
        return if Success(reply) then Broken else reply, d;
      }
      if !delivery.Delivered? { reply := Broken; }
    }

    /** The body of the transaction. */
    method PlaceOrder(now: int, ttl: int, hash: string, order: Order) returns (reply: Reply)
      modifies this
      ensures var (t, r) := Place(old(Rows()), now, ttl, hash, order);
              reply == r && (Success(reply) ==> Rows() == t)
    {
      var found := LockIdempotencyKey(now, ttl, hash);
      match found {
        case Refused(r) => return r;
        case Answered(response) =>
          if response.Some? { return Cached(response.value); }
          return Concurrent;
        case New =>
      }
      var ok := CreateOrderWithItemsAndOutbox(order);
      if !ok { return Broken; }
      CompleteIdempotencyKey(order);
      reply := Created(order);
    }
  }
}
