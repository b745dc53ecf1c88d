/** Paging through the products table from the newest to the oldest, and re-indexing all of it. */
module Catalog {
  import opened Common
  import opened Text
  import opened Cursor

  /** A product as paging sees it. The other columns ride along. */
  datatype Product = Product(created: Stamp, id: string)

  // ---- the order of the rows -----------------------------------------------------------

  function Fields(t: Stamp): seq<int> {
    [t.year, t.month, t.day, t.hour, t.minute, t.second, t.nanos]
  }

  predicate Smaller(a: seq<int>, b: seq<int>)
    requires |a| == |b|
  {
    a != [] && (a[0] < b[0] || (a[0] == b[0] && Smaller(a[1..], b[1..])))
  }

  predicate Earlier(a: Stamp, b: Stamp) {
    Smaller(Fields(a), Fields(b))
  }

  lemma {:induction false} SmallerIsTotal(a: seq<int>, b: seq<int>)
    requires |a| == |b|
    ensures a == b || Smaller(a, b) || Smaller(b, a)
    ensures !(Smaller(a, b) && Smaller(b, a))
    ensures a == b ==> !Smaller(a, b)
  {
    if a != [] && a[0] == b[0] {
      SmallerIsTotal(a[1..], b[1..]);
      assert a == [a[0]] + a[1..] && b == [b[0]] + b[1..];
    }
  }

  lemma {:induction false} SmallerIsTransitive(a: seq<int>, b: seq<int>, c: seq<int>)
    requires |a| == |b| == |c| && Smaller(a, b) && Smaller(b, c)
    ensures Smaller(a, c)
  {
    if a[0] == b[0] == c[0] { SmallerIsTransitive(a[1..], b[1..], c[1..]); }
  }

  /** created_at < $3 OR (created_at = $3 AND id < $4) */
  predicate Before(p: Product, q: Product) {
    Earlier(p.created, q.created) || (p.created == q.created && Less(p.id, q.id))
  }

  lemma BeforeIsTotal(p: Product, q: Product)
    ensures p == q || Before(p, q) || Before(q, p)
    ensures !(Before(p, q) && Before(q, p))
    ensures p == q ==> !Before(p, q)
  {
    SmallerIsTotal(Fields(p.created), Fields(q.created));
    LessTotal(p.id, q.id);
    assert Fields(p.created) == Fields(q.created) ==> p.created == q.created by {
      var (a, b) := (Fields(p.created), Fields(q.created));
      assert a == b ==>
               && a[0] == b[0] && a[1] == b[1] && a[2] == b[2] && a[3] == b[3]
               && a[4] == b[4] && a[5] == b[5] && a[6] == b[6];
    }
  }

  lemma BeforeIsTransitive(p: Product, q: Product, r: Product)
    requires Before(p, q) && Before(q, r)
    ensures Before(p, r)
  {
    if Earlier(p.created, q.created) && Earlier(q.created, r.created) {
      SmallerIsTransitive(Fields(p.created), Fields(q.created), Fields(r.created));
    } else if p.created == q.created == r.created {
      LessTransitive(p.id, q.id, r.id);
    }
  }

  // ---- the table -----------------------------------------------------------------------

  /** The table, as ORDER BY created_at DESC, id DESC lists it. */
  predicate Descending(s: seq<Product>) {
    forall i, j :: 0 <= i < j < |s| ==> Before(s[j], s[i])
  }

  predicate IsTable(s: seq<Product>) {
    Descending(s) && forall p :: p in s ==> IsTime(p.created) && IsUuid(p.id)
  }

  /** A row whose cursor can be read back. */
  predicate Readable(p: Product) {
    0 <= p.created.year <= 9999
  }

  /** The rows of the WHERE clause, in order. */
  function Below(s: seq<Product>, from: Option<Product>): (r: seq<Product>)
    ensures from.None? ==> r == s
  {
    if from.None? || s == [] then s
    else (if Before(s[0], from.value) then [s[0]] else []) + Below(s[1..], from)
  }

  lemma {:induction false} BelowSplits(s: seq<Product>, k: nat, c: Product)
    requires k <= |s| && forall i :: 0 <= i < |s| ==> (Before(s[i], c) <==> i >= k)
    ensures Below(s, Some(c)) == s[k..]
  {
    hide Before;
    if s != [] {
      forall i | 0 <= i < |s| - 1 ensures Before(s[1..][i], c) <==> i + 1 >= k { assert s[1..][i] == s[i + 1]; }
      BelowSplits(s[1..], if k == 0 then 0 else k - 1, c);
      assert k == 0 ==> [s[0]] + s[1..] == s;
      assert k > 0 ==> s[1..][k - 1..] == s[k..];
    }
  }

  /** Below a row of the table itself are the rows after it. */
  lemma BelowARow(s: seq<Product>, k: nat)
    requires Descending(s) && k < |s|
    ensures Below(s, Some(s[k])) == s[k + 1..]
  {
    forall i | 0 <= i < |s| ensures Before(s[i], s[k]) <==> i >= k + 1 {
      BeforeIsTotal(s[i], s[k]);
    }
    BelowSplits(s, k + 1, s[k]);
  }

  /** Below any point are the rows before it in time, in their order. */
  lemma {:induction false} BelowIsExact(s: seq<Product>, c: Product)
    requires Descending(s)
    ensures var r := Below(s, Some(c));
            Descending(r) && forall p :: p in r <==> p in s && Before(p, c)
  {
    hide Before;
    if s != [] {
      BelowIsExact(s[1..], c);
      var r := Below(s[1..], Some(c));
      forall p | p in r ensures Before(p, s[0]) {
        var i :| 0 <= i < |s| - 1 && s[1..][i] == p;
        assert p == s[i + 1];
      }
      assert s == [s[0]] + s[1..];
    }
  }

  // ---- one page ------------------------------------------------------------------------

  datatype Page = Page(items: seq<Product>, next: string, hasMore: bool)

  function Clamp(limit: int): (n: nat)
    ensures 1 <= n <= 100
  {
    if limit <= 0 then 20 else if limit > 100 then 100 else limit
  }

  function From(cursor: string): Option<Product> {
    var d := Decode(cursor);
    if d.None? then None else Some(Product(d.value.0, d.value.1))
  }

  function PageOf(table: seq<Product>, limit: int, cursor: string): Page
    requires IsTable(table)
  {
    var n := Clamp(limit);
    var rows := Below(table, From(cursor));
    if |rows| > n then
      assert rows[n - 1] in table by { BelowIsIn(table, From(cursor)); }
      Page(rows[..n], Encode(rows[n - 1].created, rows[n - 1].id), true)
    else Page(rows, "", false)
  }

  lemma {:induction false} BelowIsIn(s: seq<Product>, from: Option<Product>)
    ensures forall p :: p in Below(s, from) ==> p in s
  {
    if s != [] && from.Some? { BelowIsIn(s[1..], from); }
  }

  lemma FromEncode(p: Product)
    requires IsTime(p.created) && IsUuid(p.id)
    ensures From(Encode(p.created, p.id)) == if Readable(p) then Some(p) else None
  {
    CursorRoundTrip(p.created, p.id);
  }

  // ---- page after page of a table that does not change ---------------------------------

  function CursorAfter(table: seq<Product>, limit: int, n: nat): string
    requires IsTable(table)
  {
    if n == 0 then "" else PageOf(table, limit, CursorAfter(table, limit, n - 1)).next
  }

  /** The page that the n-th call gets, counting from 0, whose cursor the calls before it gave. */
  function NthPage(table: seq<Product>, limit: int, n: nat): Page
    requires IsTable(table)
  {
    PageOf(table, limit, CursorAfter(table, limit, n))
  }

  /** What the first n pages hold together. */
  function Concat(table: seq<Product>, limit: int, n: nat): seq<Product>
    requires IsTable(table)
  {
    if n == 0 then [] else Concat(table, limit, n - 1) + NthPage(table, limit, n - 1).items
  }

  /** The rows of n full pages, n times the page size. */
  function Offset(size: nat, n: nat): nat {
    if n == 0 then 0 else Offset(size, n - 1) + size
  }

  lemma {:induction false} OffsetGrows(size: nat, a: nat, b: nat)
    requires a <= b
    ensures Offset(size, a) <= Offset(size, b)
    ensures a < b ==> Offset(size, a) + size <= Offset(size, b)
  {
    if a < b { OffsetGrows(size, a, b - 1); }
  }

  /** The k-th page boundary lies in the table, and the row before it can be read back. */
  predicate Readback(table: seq<Product>, size: nat, k: nat) {
    0 < Offset(size, k) <= |table| && Readable(table[Offset(size, k) - 1])
  }

  /** The first n pages are full, more rows follow them, and they end in readable rows. */
  predicate Good(table: seq<Product>, size: nat, n: nat) {
    Offset(size, n) < |table| && forall k :: 1 <= k <= n ==> Readback(table, size, k)
  }

  lemma {:induction false} PageSteps(table: seq<Product>, limit: int, cursor: string)
    requires IsTable(table)
    ensures var (n, page, rows) := (Clamp(limit), PageOf(table, limit, cursor), Below(table, From(cursor)));
            && page.hasMore == (|rows| > n) && page.items == (if page.hasMore then rows[..n] else rows)
            && (page.hasMore ==> From(page.next) == if Readable(rows[n - 1]) then Some(rows[n - 1]) else None)
            && (!page.hasMore ==> page.next == "")
  {
    var (n, rows) := (Clamp(limit), Below(table, From(cursor)));
    BelowIsIn(table, From(cursor));
    if |rows| > n {
      assert rows[n - 1] in table;
      FromEncode(rows[n - 1]);
    }
    hide Below, From, Encode, Descending;
  }

  /** A page that starts at row m. */
  lemma OnePage(table: seq<Product>, limit: int, cursor: string, m: nat)
    requires IsTable(table) && m <= |table| && Below(table, From(cursor)) == table[m..]
    ensures var (n, page) := (Clamp(limit), PageOf(table, limit, cursor));
            && page.hasMore == (|table| > m + n)
            && page.items == (if page.hasMore then table[m..m + n] else table[m..])
  {
    hide *;
    PageSteps(table, limit, cursor);
    if |table| > m + Clamp(limit) { Slices(table, m, Clamp(limit)); }
  }

  lemma BelowNext(table: seq<Product>, k: nat, next: string)
    requires Descending(table) && k < |table| && From(next) == if Readable(table[k]) then Some(table[k]) else None
    ensures Below(table, From(next)) == if Readable(table[k]) then table[k + 1..] else table
  {
    BelowARow(table, k);
    BelowNothing(table);
    hide *;
  }

  /** And the rows that its cursor leads to. */
  lemma PageAfter(table: seq<Product>, limit: int, cursor: string, m: nat)
    requires IsTable(table) && m + Clamp(limit) < |table| && Below(table, From(cursor)) == table[m..]
    ensures var n := Clamp(limit);
            Below(table, From(PageOf(table, limit, cursor).next))
            == if Readable(table[m + n - 1]) then table[m + n..] else table
  {
    hide *;
    TableDescends(table);
    NextIsLast(table, limit, cursor, m);
    BelowNext(table, m + Clamp(limit) - 1, PageOf(table, limit, cursor).next);
  }

  lemma NextIsLast(table: seq<Product>, limit: int, cursor: string, m: nat)
    requires IsTable(table) && m + Clamp(limit) < |table| && Below(table, From(cursor)) == table[m..]
    ensures var last := table[m + Clamp(limit) - 1];
            From(PageOf(table, limit, cursor).next) == if Readable(last) then Some(last) else None
  {
    hide *;
    PageSteps(table, limit, cursor);
    LastOfPage(table, m, Clamp(limit));
  }

  lemma TableDescends(table: seq<Product>)
    requires IsTable(table)
    ensures Descending(table)
  {
  }

  lemma LastOfPage(s: seq<Product>, m: nat, n: nat)
    requires 0 < n && m + n < |s|
    ensures |s[m..]| > n && s[m..][n - 1] == s[m + n - 1]
  {
  }

  lemma Slices(s: seq<Product>, m: nat, n: nat)
    requires 0 < n && m + n < |s|
    ensures s[m..][..n] == s[m..m + n] && s[m..][n - 1] == s[m + n - 1]
  {
  }

  lemma BelowNothing(table: seq<Product>)
    ensures Below(table, None) == table
  {
  }

  lemma GoodBefore(table: seq<Product>, size: nat, n: nat)
    requires n > 0 && Good(table, size, n)
    ensures Offset(size, n - 1) + size == Offset(size, n) < |table|
    ensures Good(table, size, n - 1) && Readback(table, size, n) && Readable(table[Offset(size, n) - 1])
  {
  }

  lemma {:induction false} GoodPages(table: seq<Product>, limit: int, n: nat)
    requires IsTable(table) && (n == 0 || Good(table, Clamp(limit), n))
    ensures var (size, m) := (Clamp(limit), Offset(Clamp(limit), n));
            && m <= |table| && Below(table, From(CursorAfter(table, limit, n))) == table[m..]
            && NthPage(table, limit, n).hasMore == (|table| > m + size)
            && NthPage(table, limit, n).items == if |table| > m + size then table[m..m + size] else table[m..]
  {
    hide *;
    var (size, m) := (Clamp(limit), Offset(Clamp(limit), n));
    if n == 0 {
      FirstPage(table, limit);
    } else {
      GoodBefore(table, size, n);
      GoodPages(table, limit, n - 1);
      CursorSteps(table, limit, n);
      PageAfter(table, limit, CursorAfter(table, limit, n - 1), Offset(size, n - 1));
    }
    CursorSteps(table, limit, n);
    OnePage(table, limit, CursorAfter(table, limit, n), m);
  }

  lemma FirstPage(table: seq<Product>, limit: int)
    requires IsTable(table)
    ensures Offset(Clamp(limit), 0) == 0 && Below(table, From(CursorAfter(table, limit, 0))) == table[0..]
    ensures Concat(table, limit, 0) == table[..0]
  {
    assert table[0..] == table;
  }

  lemma CursorSteps(table: seq<Product>, limit: int, n: nat)
    requires IsTable(table)
    ensures NthPage(table, limit, n) == PageOf(table, limit, CursorAfter(table, limit, n))
    ensures n > 0 ==> CursorAfter(table, limit, n) == PageOf(table, limit, CursorAfter(table, limit, n - 1)).next
    ensures n > 0 ==> Concat(table, limit, n) == Concat(table, limit, n - 1) + NthPage(table, limit, n - 1).items
  {
  }

  lemma {:induction false} FullPages(table: seq<Product>, limit: int, n: nat)
    requires IsTable(table) && (n == 0 || Good(table, Clamp(limit), n))
    ensures Offset(Clamp(limit), n) <= |table| && Concat(table, limit, n) == table[..Offset(Clamp(limit), n)]
  {
    hide *;
    FirstPage(table, limit);
    if n > 0 {
      var size := Clamp(limit);
      GoodBefore(table, size, n);
      FullPages(table, limit, n - 1);
      GoodPages(table, limit, n - 1);
      CursorSteps(table, limit, n);
      Joined(table, Offset(size, n - 1), Offset(size, n));
    }
  }

  lemma Joined(s: seq<Product>, a: nat, b: nat)
    requires a <= b <= |s|
    ensures s[..a] + s[a..b] == s[..b] && s[..a] + s[a..] == s
  {
  }

  /** Every row that a page ends with, and that is not the last row, can be read back. */
  ghost predicate Navigable(table: seq<Product>, size: nat) {
    forall k: nat :: k > 0 && Offset(size, k) < |table| ==> Readback(table, size, k)
  }

  lemma LastPage(rows: nat, size: nat) returns (n: nat)
    requires size > 0
    ensures Offset(size, n) + size >= rows && (n == 0 || Offset(size, n) < rows)
  {
    n := 0;
    while Offset(size, n) + size < rows
      invariant n == 0 || Offset(size, n) < rows
      decreases rows - Offset(size, n)
    {
      n := n + 1;
    }
  }

  lemma NavigableIsGood(table: seq<Product>, size: nat, n: nat)
    requires Navigable(table, size) && Offset(size, n) < |table|
    ensures Good(table, size, n)
  {
    forall k | 1 <= k <= n ensures Readback(table, size, k) {
      OffsetGrows(size, k, n);
    }
  }

  /** Following the cursors through a navigable table gives every row once, newest first, and
      comes to an end. */
  lemma {:induction false} PagesConcatenate(table: seq<Product>, limit: int) returns (n: nat)
    requires IsTable(table) && Navigable(table, Clamp(limit))
    ensures Concat(table, limit, n + 1) == table && !NthPage(table, limit, n).hasMore
  {
    n := LastPage(|table|, Clamp(limit));
    if n > 0 { NavigableIsGood(table, Clamp(limit), n); }
    assert Concat(table, limit, n + 1) == Concat(table, limit, n) + NthPage(table, limit, n).items;
    hide *;
    FullPages(table, limit, n);
    GoodPages(table, limit, n);
    Joined(table, Offset(Clamp(limit), n), |table|);
  }

  // ---- when a cursor cannot be read back -----------------------------------------------

  /** The k-th page ends in a row that cannot be read back, none before it does. */
  predicate TrappedAt(table: seq<Product>, size: nat, k: nat) {
    && k > 0 && 0 < Offset(size, k) < |table| && !Readable(table[Offset(size, k) - 1])
    && forall j :: 0 < j < k ==> Readback(table, size, j)
  }

  lemma {:induction false} GoesRound(table: seq<Product>, limit: int, k: nat, n: nat) returns (r: nat)
    requires IsTable(table) && k > 0 && TrappedAt(table, Clamp(limit), k)
    ensures r < k && Offset(Clamp(limit), r) + Clamp(limit) < |table|
    ensures Below(table, From(CursorAfter(table, limit, n))) == table[Offset(Clamp(limit), r)..]
  {
    hide *;
    var size := Clamp(limit);
    FirstPage(table, limit);
    if n == 0 {
      r := 0;
    } else {
      var q := GoesRound(table, limit, k, n - 1);
      r := if q + 1 == k then 0 else q + 1;
      TrapIsInside(table, size, k, q);
      CursorSteps(table, limit, n);
      PageAfter(table, limit, CursorAfter(table, limit, n - 1), Offset(size, q));
    }
    TrapIsInside(table, size, k, r);
  }

  lemma TrapIsInside(table: seq<Product>, size: nat, k: nat, r: nat)
    requires TrappedAt(table, size, k) && r < k
    ensures k > 0 && Offset(size, r) + size < |table| && Offset(size, r + 1) == Offset(size, r) + size > 0
    ensures Readable(table[Offset(size, r + 1) - 1]) <==> r + 1 < k
    ensures r == 0 ==> table[Offset(size, r)..] == table
  {
    OffsetGrows(size, r, k);
    if r + 1 < k { assert Readback(table, size, r + 1); }
  }

  lemma FindTrap(table: seq<Product>, size: nat, k: nat) returns (t: nat)
    requires 0 < k && 0 < size && Offset(size, k) < |table| && !Readback(table, size, k)
    ensures t > 0 && TrappedAt(table, size, t)
  {
    t := 1;
    OffsetGrows(size, 0, 1);
    OffsetGrows(size, 1, k);
    while Readback(table, size, t)
      invariant 0 < t <= k && 0 < Offset(size, t) < |table|
      invariant forall j :: 0 < j < t ==> Readback(table, size, j)
      decreases k - t
    {
      t := t + 1;
      OffsetGrows(size, t, k);
    }
  }

  /** Following the cursors comes to an end if and only if the table is navigable. Otherwise
      it goes round and round through the first pages. */
  lemma {:induction false} EndsIffNavigable(table: seq<Product>, limit: int)
    requires IsTable(table)
    ensures (exists n :: !NthPage(table, limit, n).hasMore) <==> Navigable(table, Clamp(limit))
  {
    var size := Clamp(limit);
    if Navigable(table, size) {
      var n := PagesConcatenate(table, limit);
    } else {
      var k: nat :| k > 0 && Offset(size, k) < |table| && !Readback(table, size, k);
      var t := FindTrap(table, size, k);
      hide *;
      forall n: nat ensures NthPage(table, limit, n).hasMore {
        var r := GoesRound(table, limit, t, n);
        CursorSteps(table, limit, n);
        OnePage(table, limit, CursorAfter(table, limit, n), Offset(size, r));
      }
    }
  }
}
