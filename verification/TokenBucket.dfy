/** The rate limiter's script, run atomically by Redis for one key. */
module TokenBucket {
  import opened Common

  /** The two fields of the hash. */
  datatype Bucket = Bucket(tokens: int, last: int)

  datatype Reply = Reply(allowed: bool, remaining: int, reset: int)

  /** A route's limit: `capacity` requests in `window` seconds. */
  datatype Limit = Limit(capacity: int, window: int)

  predicate Positive(l: Limit) {
    l.capacity >= 1 && l.window >= 1
  }

  function Max(a: int, b: int): int {
    if a > b then a else b
  }

  function Min(a: int, b: int): int {
    if a < b then a else b
  }

  function Elapsed(key: Option<Bucket>, now: int): int {
    if key.None? then 0 else Max(0, now - key.value.last)
  }

  function Refill(l: Limit, elapsed: int): int
    requires Positive(l)
  {
    elapsed * l.capacity / l.window
  }

  /** The tokens that a request finds. */
  function Available(l: Limit, key: Option<Bucket>, now: int): int
    requires Positive(l)
  {
    if key.None? then l.capacity else Min(l.capacity, key.value.tokens + Refill(l, Elapsed(key, now)))
  }

  function Script(l: Limit, key: Option<Bucket>, now: int): (Bucket, Reply)
    requires Positive(l)
  {
    var tokens := Available(l, key, now);
    if tokens > 0 then (Bucket(tokens - 1, now), Reply(true, tokens - 1, 0))
    else (Bucket(tokens, now), Reply(false, 0, l.window - Elapsed(key, now)))
  }

  class RedisKey {
    var hash: Option<Bucket>

    constructor ()
      ensures hash == None
    {
      hash := None;
    }

    method RunScript(l: Limit, now: int) returns (reply: Reply)
      requires Positive(l)
      modifies this
      ensures (hash, reply) == var (b, r) := Script(l, old(hash), now); (Some(b), r)
    {
      var tokens, last := l.capacity, now;
      if hash.Some? { tokens, last := hash.value.tokens, hash.value.last; }
      var elapsed := if now - last > 0 then now - last else 0;
      var refill := elapsed * l.capacity / l.window;
      if tokens + refill < l.capacity {
        tokens := tokens + refill;
      } else {
        tokens := l.capacity;
      }
      last := now;
      FullStaysFull(l);
      if tokens > 0 {
        tokens := tokens - 1;
        hash := Some(Bucket(tokens, last));
        reply := Reply(true, tokens, 0);
      } else {
        hash := Some(Bucket(tokens, last));
        reply := Reply(false, 0, l.window - elapsed);
      }
    }

    lemma FullStaysFull(l: Limit)
      requires Positive(l)
      ensures 0 * l.capacity / l.window == 0
    {
    }
  }

  // ---- a sequence of requests ----------------------------------------------------------

  predicate InOrder(times: seq<int>) {
    forall i, j :: 0 <= i <= j < |times| ==> times[i] <= times[j]
  }

  /** The key after the requests. */
  function After(l: Limit, times: seq<int>): Option<Bucket>
    requires Positive(l)
  {
    if times == [] then None
    else Some(Script(l, After(l, times[..|times| - 1]), times[|times| - 1]).0)
  }

  /** The answer to the k-th request. */
  function Answer(l: Limit, times: seq<int>, k: nat): Reply
    requires Positive(l) && k < |times|
  {
    Script(l, After(l, times[..k]), times[k]).1
  }

  /** How many of the requests i .. j - 1 are allowed. */
  function Allowed(l: Limit, times: seq<int>, i: nat, j: nat): nat
    requires Positive(l) && i <= j <= |times|
  {
    if i == j then 0 else Allowed(l, times, i, j - 1) + if Answer(l, times, j - 1).allowed then 1 else 0
  }

  lemma FloorsAdd(a: int, b: int, w: int)
    requires w > 0
    ensures a / w + b / w <= (a + b) / w
  {
    var (p, q) := (a / w, b / w);
    assert a == p * w + a % w && b == q * w + b % w;
    assert a + b == (p + q) * w + (a % w + b % w);
    AtLeast(a + b, p + q, w);
  }

  lemma AtLeast(x: int, q: int, w: int)
    requires w > 0 && x >= q * w
    ensures x / w >= q
  {
    var p := x / w;
    assert x == p * w + x % w;
    OneLess(p, q, w);
  }

  lemma {:induction false} OneLess(p: int, q: int, w: int)
    requires w > 0
    ensures p < q ==> p * w + w <= q * w
    decreases q - p
  {
    if p < q {
      OneLess(p, q - 1, w);
      assert q * w == (q - 1) * w + w;
    }
  }

  lemma NotNegative(x: int, w: int)
    requires w > 0 && x >= 0
    ensures x / w >= 0
  {
  }

  lemma AfterOne(l: Limit, times: seq<int>, k: nat)
    requires Positive(l) && k < |times|
    ensures After(l, times[..k + 1]) == Some(Script(l, After(l, times[..k]), times[k]).0)
  {
    assert times[..k + 1][..k] == times[..k];
  }

  /** The tokens never leave 0 .. capacity, and the key was last written by the last request. */
  lemma {:induction false} TokensInRange(l: Limit, times: seq<int>, k: nat)
    requires Positive(l) && k <= |times|
    ensures var key := After(l, times[..k]);
            && (key.None? <==> k == 0)
            && (k > 0 ==> 0 <= key.value.tokens < l.capacity && key.value.last == times[k - 1])
  {
    if k > 0 {
      TokensInRange(l, times, k - 1);
      AfterOne(l, times, k - 1);
      var key := After(l, times[..k - 1]);
      var elapsed := Elapsed(key, times[k - 1]);
      assert elapsed * l.capacity >= 0;
      NotNegative(elapsed * l.capacity, l.window);
    }
  }

  lemma RefillsAdd(l: Limit, a: int, b: int)
    requires Positive(l)
    ensures Refill(l, 0) == 0
    ensures Refill(l, a) + Refill(l, b) <= Refill(l, a + b)
  {
    assert (a + b) * l.capacity == a * l.capacity + b * l.capacity;
    FloorsAdd(a * l.capacity, b * l.capacity, l.window);
  }

  /** In any stretch of requests with a clock that does not go back, at most the capacity is
      allowed, and what the time between the first and the last of them refills. */
  lemma {:induction false} AllowedAtMost(l: Limit, times: seq<int>, i: nat, j: nat)
    requires Positive(l) && InOrder(times) && i < j <= |times|
    ensures Allowed(l, times, i, j) <= l.capacity + (times[j - 1] - times[i]) * l.capacity / l.window
  {
    AllowedAndLeft(l, times, i, j);
    TokensInRange(l, times, j);
  }

  lemma {:induction false} AllowedAndLeft(l: Limit, times: seq<int>, i: nat, j: nat)
    requires Positive(l) && InOrder(times) && i < j <= |times|
    ensures After(l, times[..j]).Some?
    ensures Allowed(l, times, i, j) + After(l, times[..j]).value.tokens
        <= l.capacity + Refill(l, times[j - 1] - times[i])
  {
    hide Refill, Script;
    AfterOne(l, times, j - 1);
    TokensInRange(l, times, j - 1);
    OneRequest(l, After(l, times[..j - 1]), times[j - 1]);
    if j == i + 1 {
      assert Allowed(l, times, i, i) == 0;
      RefillsAdd(l, 0, 0);
    } else {
      AllowedAndLeft(l, times, i, j - 1);
      RefillsAdd(l, times[j - 2] - times[i], times[j - 1] - times[j - 2]);
    }
  }

  /** A request is allowed at the price of a token. */
  lemma OneRequest(l: Limit, key: Option<Bucket>, now: int)
    requires Positive(l)
    ensures var (b, r) := Script(l, key, now);
            && (if r.allowed then 1 else 0) + b.tokens == Available(l, key, now) <= l.capacity
            && (key.Some? && key.value.last <= now ==>
                  Available(l, key, now) <= key.value.tokens + Refill(l, now - key.value.last))
  {
  }

  /** What the pauses between the requests i .. j give back, each rounded down. */
  function GivenBack(l: Limit, times: seq<int>, i: nat, j: nat): int
    requires Positive(l) && i <= j < |times|
  {
    if i == j then 0 else GivenBack(l, times, i, j - 1) + (times[j] - times[j - 1]) * l.capacity / l.window
  }

  /** What a full bucket at request i would have left for request j. */
  function Room(l: Limit, times: seq<int>, i: nat, j: nat): int
    requires Positive(l) && i <= j < |times|
  {
    l.capacity + GivenBack(l, times, i, j) - Allowed(l, times, i, j)
  }

  ghost predicate IsLeastRoom(l: Limit, times: seq<int>, j: nat, room: int)
    requires Positive(l) && j < |times|
  {
    && (exists i: nat :: i <= j && room == Room(l, times, i, j))
    && (forall i: nat :: i <= j ==> room <= Room(l, times, i, j))
  }

  /** The answers in terms of the answers before them: a request is allowed exactly if every
      stretch of requests up to it has room for one more, and is told how many more there is room
      for, or what is left of the window since the request before it. */
  lemma {:induction false} AllowedIff(l: Limit, times: seq<int>, j: nat)
    requires Positive(l) && InOrder(times) && j < |times|
    ensures Answer(l, times, j).allowed <==> forall i: nat :: i <= j ==> Room(l, times, i, j) > 0
    ensures Answer(l, times, j).allowed ==> IsLeastRoom(l, times, j, Answer(l, times, j).remaining + 1)
    ensures !Answer(l, times, j).allowed ==>
              && Answer(l, times, j).remaining == 0
              && j > 0 && Answer(l, times, j).reset == l.window - (times[j] - times[j - 1])
  {
    FindsTheLeastRoom(l, times, j);
    TokensInRange(l, times, j);
    if j == 0 { FirstFinds(l, times[0]); }
    hide Available, Room;
  }

  lemma {:induction false} FindsTheLeastRoom(l: Limit, times: seq<int>, j: nat)
    requires Positive(l) && InOrder(times) && j < |times|
    ensures IsLeastRoom(l, times, j, Available(l, After(l, times[..j]), times[j]))
  {
    hide Available, Room, Script;
    if j == 0 {
      FullRoom(l, times, 0);
      FirstFinds(l, times[0]);
      assert After(l, times[..0]) == None;
    } else {
      FindsTheLeastRoom(l, times, j - 1);
      NextFinds(l, times, j);
      hide IsLeastRoom;
      LeastRoomNext(l, times, j, Available(l, After(l, times[..j - 1]), times[j - 1]));
    }
  }

  lemma LeastRoomNext(l: Limit, times: seq<int>, j: nat, before: int)
    requires Positive(l) && 0 < j < |times| && IsLeastRoom(l, times, j - 1, before)
    ensures IsLeastRoom(l, times, j, Min(l.capacity, before + NextRoom(l, times, j)))
  {
    hide Room, NextRoom;
    FullRoom(l, times, j);
    forall i: nat | i < j ensures Room(l, times, i, j) == Room(l, times, i, j - 1) + NextRoom(l, times, j) {
      RoomGrows(l, times, i, j);
    }
    var i: nat :| i <= j - 1 && before == Room(l, times, i, j - 1);
    var room := if before + NextRoom(l, times, j) < l.capacity then Room(l, times, i, j) else Room(l, times, j, j);
    assert room == Min(l.capacity, before + NextRoom(l, times, j));
  }

  function NextRoom(l: Limit, times: seq<int>, j: nat): int
    requires Positive(l) && 0 < j < |times|
  {
    (times[j] - times[j - 1]) * l.capacity / l.window - if Answer(l, times, j - 1).allowed then 1 else 0
  }

  lemma FullRoom(l: Limit, times: seq<int>, j: nat)
    requires Positive(l) && j < |times|
    ensures Room(l, times, j, j) == l.capacity
  {
  }

  lemma RoomGrows(l: Limit, times: seq<int>, i: nat, j: nat)
    requires Positive(l) && i < j < |times|
    ensures Room(l, times, i, j) - Room(l, times, i, j - 1) == NextRoom(l, times, j)
  {
  }

  lemma FirstFinds(l: Limit, now: int)
    requires Positive(l)
    ensures Available(l, None, now) == l.capacity
  {
  }

  lemma NextFinds(l: Limit, times: seq<int>, j: nat)
    requires Positive(l) && InOrder(times) && 0 < j < |times|
    ensures Available(l, After(l, times[..j]), times[j])
         == Min(l.capacity, Available(l, After(l, times[..j - 1]), times[j - 1]) + NextRoom(l, times, j))
  {
    AfterOne(l, times, j - 1);
    OneRequest(l, After(l, times[..j - 1]), times[j - 1]);
    hide Refill;
    assert Refill(l, times[j] - times[j - 1]) == (times[j] - times[j - 1]) * l.capacity / l.window by {
      RefillIs(l, times[j] - times[j - 1]);
    }
  }

  lemma RefillIs(l: Limit, seconds: int)
    requires Positive(l)
    ensures Refill(l, seconds) == seconds * l.capacity / l.window
  {
  }

  // ---- expiry --------------------------------------------------------------------------

  /** Nobody can tell whether a key has expired: the next request finds a full bucket with and
      without it. */
  lemma {:induction false} ExpiryIsInvisible(l: Limit, key: Bucket, now: int)
    requires Positive(l) && 0 <= key.tokens && now - key.last >= 2 * l.window
    ensures Script(l, None, now) == Script(l, Some(key), now)
  {
    var elapsed := now - key.last;
    assert elapsed * l.capacity >= l.window * l.capacity;
    assert l.window * l.capacity == l.capacity * l.window;
    AtLeast(elapsed * l.capacity, l.capacity, l.window);
  }

  /** A history in which the key is gone when a marked request comes. That takes two windows
      since the request before it, which wrote the key. */
  predicate Expiries(l: Limit, times: seq<int>, gone: seq<bool>) {
    && |gone| == |times|
    && forall i :: 0 <= i < |times| && gone[i] ==> i > 0 && times[i] - times[i - 1] >= 2 * l.window
  }

  /** The key that the last of the requests finds. */
  function Found(l: Limit, times: seq<int>, gone: seq<bool>): Option<Bucket>
    requires Positive(l) && |gone| == |times| > 0
    decreases |times|, 0
  {
    var n := |times| - 1;
    if gone[n] then None else AfterWith(l, times[..n], gone[..n])
  }

  function AfterWith(l: Limit, times: seq<int>, gone: seq<bool>): Option<Bucket>
    requires Positive(l) && |gone| == |times|
    decreases |times|, 1
  {
    if times == [] then None else Some(Script(l, Found(l, times, gone), times[|times| - 1]).0)
  }

  function AnswerWith(l: Limit, times: seq<int>, gone: seq<bool>, k: nat): Reply
    requires Positive(l) && |gone| == |times| && k < |times|
  {
    Script(l, Found(l, times[..k + 1], gone[..k + 1]), times[k]).1
  }

  lemma {:induction false} ExpiriesLeaveTheKey(l: Limit, times: seq<int>, gone: seq<bool>)
    requires Positive(l) && Expiries(l, times, gone)
    ensures AfterWith(l, times, gone) == After(l, times)
    ensures times != [] ==> Script(l, Found(l, times, gone), times[|times| - 1])
                            == Script(l, After(l, times[..|times| - 1]), times[|times| - 1])
  {
    if times != [] {
      var n := |times| - 1;
      ExpiriesLeaveTheKey(l, times[..n], gone[..n]);
      TokensInRange(l, times, n);
      if gone[n] { ExpiryIsInvisible(l, After(l, times[..n]).value, times[n]); }
      hide Script;
    }
  }

  /** Whatever the expiries, every request of a history gets the answer that it gets when the
      key never expires. */
  lemma ExpiryNeverShows(l: Limit, times: seq<int>, gone: seq<bool>, k: nat)
    requires Positive(l) && Expiries(l, times, gone) && k < |times|
    ensures AnswerWith(l, times, gone, k) == Answer(l, times, k)
  {
    ExpiriesLeaveTheKey(l, times[..k + 1], gone[..k + 1]);
    assert times[..k + 1][..k] == times[..k];
  }

  // ---- Retry-After ---------------------------------------------------------------------

  /** A client that was denied and then keeps quiet for as long as it was told is let in, if
      and only if the limit is two requests or more, or none of the window had passed when it
      was denied. */
  lemma {:induction false} RetryAfterIsEnough(l: Limit, key: Bucket, now: int)
    requires Positive(l) && key.last <= now && !Script(l, Some(key), now).1.allowed && key.tokens >= 0
    ensures var (after, reply) := Script(l, Some(key), now);
            && reply.reset > 0
            && (Script(l, Some(after), now + reply.reset).1.allowed <==> l.capacity >= 2 || now == key.last)
  {
    var e := now - key.last;
    var reset := l.window - e;
    assert e * l.capacity >= 0;
    NotNegative(e * l.capacity, l.window);
    if e * l.capacity >= l.window { AtLeast(e * l.capacity, 1, l.window); }
    assert e <= e * l.capacity;
    assert reset * l.capacity == l.window * l.capacity - e * l.capacity;
    if l.capacity >= 2 {
      assert l.window * l.capacity >= l.window * 2;
      AtLeast(reset * l.capacity, 1, l.window);
    } else {
      if e == 0 { AtLeast(reset * l.capacity, 1, l.window); }
      else { Small(reset, l.window); }
    }
  }

  lemma Small(x: int, w: int)
    requires 0 <= x < w
    ensures x / w == 0
  {
  }

  /** With no tokens left, a request is denied exactly when less than window / capacity has
      passed. */
  lemma DeniedIff(l: Limit, last: int, now: int)
    requires Positive(l) && last <= now
    ensures !Script(l, Some(Bucket(0, last)), now).1.allowed <==> (now - last) * l.capacity < l.window
  {
    var e := now - last;
    assert e * l.capacity >= 0 by { NotNegativeProduct(e, l.capacity); }
    if e * l.capacity < l.window { NoRefill(l, e); } else { AtLeast(e * l.capacity, 1, l.window); }
  }

  lemma NotNegativeProduct(a: int, b: int)
    requires a >= 0 && b >= 0
    ensures a * b >= 0
  {
  }

  /** After a denial the bucket is empty. */
  lemma EmptyAfterDenial(l: Limit, times: seq<int>, k: nat)
    requires Positive(l) && k < |times| && !Answer(l, times, k).allowed
    ensures After(l, times[..k + 1]) == Some(Bucket(0, times[k]))
  {
    AfterOne(l, times, k);
    TokensInRange(l, times, k + 1);
    hide Available;
  }

  predicate AllDenied(l: Limit, times: seq<int>, k: nat, j: nat)
    requires Positive(l) && j < |times|
  {
    forall i :: k <= i <= j ==> !Answer(l, times, i).allowed
  }

  /** Less than window / capacity between any two requests from k to j. */
  predicate Eager(l: Limit, times: seq<int>, k: nat, j: nat)
    requires j < |times|
  {
    forall i :: k < i <= j ==> (times[i] - times[i - 1]) * l.capacity < l.window
  }

  /** A client that has been denied goes on being denied, for however many requests, exactly as
      long as it is eager. */
  lemma {:induction false} EagerClientStarves(l: Limit, times: seq<int>, k: nat, j: nat)
    requires Positive(l) && InOrder(times) && k <= j < |times| && !Answer(l, times, k).allowed
    ensures AllDenied(l, times, k, j) <==> Eager(l, times, k, j)
  {
    hide Script, Answer;
    if j > k {
      EagerClientStarves(l, times, k, j - 1);
      assert AllDenied(l, times, k, j) <==> AllDenied(l, times, k, j - 1) && !Answer(l, times, j).allowed;
      var short := (times[j] - times[j - 1]) * l.capacity < l.window;
      assert Eager(l, times, k, j) <==> Eager(l, times, k, j - 1) && short;
      if !Answer(l, times, j - 1).allowed {
        DeniedNext(l, times, j);
      } else {
        assert !AllDenied(l, times, k, j - 1);
      }
    }
  }

  lemma DeniedNext(l: Limit, times: seq<int>, j: nat)
    requires Positive(l) && InOrder(times) && 0 < j < |times| && !Answer(l, times, j - 1).allowed
    ensures !Answer(l, times, j).allowed <==> (times[j] - times[j - 1]) * l.capacity < l.window
  {
    EmptyAfterDenial(l, times, j - 1);
    DeniedIff(l, times[j - 1], times[j]);
    hide Script;
  }

  lemma NoRefill(l: Limit, seconds: int)
    requires Positive(l) && 0 <= seconds && seconds * l.capacity < l.window
    ensures Refill(l, seconds) == 0
  {
    assert seconds * l.capacity >= 0;
    Small(seconds * l.capacity, l.window);
  }
}
