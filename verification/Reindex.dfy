/** Re-indexing the catalog while products are being added. */
module Reindex {
  import opened Common
  import opened Cursor
  import opened Catalog

  predicate UniqueIds(s: seq<Product>) {
    forall i, j :: 0 <= i < j < |s| ==> s[i].id != s[j].id
  }

  predicate AllReadable(s: seq<Product>) {
    forall p :: p in s ==> Readable(p)
  }

  predicate Sound(s: seq<Product>) {
    IsTable(s) && UniqueIds(s) && AllReadable(s)
  }

  predicate Under(p: Product, from: Option<Product>) {
    from.None? || Before(p, from.value)
  }

  /** What is still to be listed. */
  function Rest(s: seq<Product>, from: Option<Product>): set<Product> {
    set p | p in s && Under(p, from)
  }

  /** What is sent, so far down to `from`: newest first, nothing twice, nothing left out. */
  ghost predicate SentDownTo(sent: seq<Product>, table: seq<Product>, original: seq<Product>, from: Option<Product>) {
    && Descending(sent) && (forall p :: p in sent ==> p in table && !Under(p, from))
    && (forall p :: p in original ==> p in sent || Under(p, from))
  }

  lemma BelowIsRest(table: seq<Product>, from: Option<Product>)
    requires Descending(table)
    ensures var r := Below(table, from); Descending(r) && forall p :: p in r <==> p in table && Under(p, from)
  {
    if from.Some? { BelowIsExact(table, from.value); }
  }

  /** A page goes on where what has been sent stops. */
  lemma Appended(sent: seq<Product>, items: seq<Product>, from: Option<Product>)
    requires Descending(sent) && Descending(items)
    requires (forall p :: p in sent ==> !Under(p, from)) && (forall p :: p in items ==> Under(p, from))
    ensures Descending(sent + items)
  {
    hide Before;
    var s := sent + items;
    forall i, j | 0 <= i < j < |s| ensures Before(s[j], s[i]) {
      if i < |sent| <= j {
        assert s[i] in sent && s[j] in items;
        BeforeIsTotal(s[i], from.value);
        if s[i] != from.value { BeforeIsTransitive(s[j], from.value, s[i]); }
      }
    }
  }

  /** The rows of a page and those behind it. */
  lemma PageSplits(rows: seq<Product>, n: nat)
    requires Descending(rows) && 0 < n <= |rows|
    ensures Descending(rows[..n]) && rows[n - 1] in rows
    ensures forall p :: p in rows[..n] ==> p in rows && !Before(p, rows[n - 1])
    ensures forall p :: p in rows ==> p in rows[..n] || Before(p, rows[n - 1])
  {
    hide Before;
    var c := rows[n - 1];
    forall p | p in rows[..n] ensures p in rows && !Before(p, c) {
      var i :| 0 <= i < n && rows[i] == p;
      BeforeIsTotal(p, c);
    }
    forall p | p in rows ensures p in rows[..n] || Before(p, c) {
      var i :| 0 <= i < |rows| && rows[i] == p;
      if i < n { assert rows[..n][i] == p; }
    }
  }

  lemma FullPageSent(sent: seq<Product>, table: seq<Product>, original: seq<Product>, from: Option<Product>, n: nat)
    requires Sound(table) && SentDownTo(sent, table, original, from) && (forall p :: p in original ==> p in table)
    requires 0 < n <= |Below(table, from)|
    ensures var rows := Below(table, from);
            && SentDownTo(sent + rows[..n], table, original, Some(rows[n - 1]))
            && Rest(table, Some(rows[n - 1])) < Rest(table, from)
  {
    var rows := Below(table, from);
    BelowIsRest(table, from);
    hide Before, Below, UniqueIds, AllReadable;
    PageSplits(rows, n);
    Appended(sent, rows[..n], from);
    var c := rows[n - 1];
    assert Under(c, from);
    forall p | Before(p, c) ensures Under(p, from) {
      if from.Some? { BeforeIsTransitive(p, c, from.value); }
    }
    assert forall p :: p in sent ==> !Under(p, from);
    BeforeIsTotal(c, c);
    assert c in Rest(table, from) && c !in Rest(table, Some(c));
  }

  lemma LastPageSent(sent: seq<Product>, table: seq<Product>, original: seq<Product>, from: Option<Product>)
    requires Sound(table) && SentDownTo(sent, table, original, from) && (forall p :: p in original ==> p in table)
    ensures var s := sent + Below(table, from);
            Descending(s) && (forall p :: p in s ==> p in table) && (forall p :: p in original ==> p in s)
  {
    BelowIsRest(table, from);
    Appended(sent, Below(table, from), from);
  }

  /** Two lists of the same products in the order of the listing are the same list. */
  lemma {:induction false} OneListing(s: seq<Product>, t: seq<Product>)
    requires Descending(s) && Descending(t) && forall p :: p in s <==> p in t
    ensures s == t
  {
    hide Before;
    assert (s != [] ==> s[0] in t) && (t != [] ==> t[0] in s);
    if s != [] && t != [] {
      var i :| 0 <= i < |t| && t[i] == s[0];
      var j :| 0 <= j < |s| && s[j] == t[0];
      BeforeIsTotal(s[0], t[0]);
      assert s[0] == t[0];
      forall p ensures p in s[1..] <==> p in t[1..] {
        BeforeIsTotal(s[0], s[0]);
        RestOf(s, p);
        RestOf(t, p);
      }
      OneListing(s[1..], t[1..]);
      assert s == [s[0]] + s[1..] && t == [t[0]] + t[1..];
    }
  }

  lemma RestOf(s: seq<Product>, p: Product)
    requires Descending(s) && s != []
    ensures p in s[1..] <==> p in s && p != s[0]
  {
    hide Before;
    BeforeIsTotal(s[0], s[0]);
    if p in s && p != s[0] {
      var i :| 0 <= i < |s| && s[i] == p;
      assert s[1..][i - 1] == p;
    }
    if p in s[1..] {
      var i :| 0 <= i < |s| - 1 && s[1..][i] == p;
      assert s[i + 1] == p && Before(s[i + 1], s[0]);
    }
  }

  lemma DistinctIds(s: seq<Product>, table: seq<Product>)
    requires Descending(s) && UniqueIds(table) && forall p :: p in s ==> p in table
    ensures UniqueIds(s)
  {
    hide Before;
    forall i, j | 0 <= i < j < |s| ensures s[i].id != s[j].id {
      assert s[i] in table && s[j] in table;
      var k :| 0 <= k < |table| && table[k] == s[i];
      var l :| 0 <= l < |table| && table[l] == s[j];
      BeforeIsTotal(s[i], s[i]);
      assert Before(s[j], s[i]);
    }
  }

  /** The first n of the rows, and the cursor to the rest if there is any. */
  function CutAt(rows: seq<Product>, n: nat): Page
    requires n > 0 && (|rows| > n ==> IsTime(rows[n - 1].created))
  {
    if |rows| > n then Page(rows[..n], Encode(rows[n - 1].created, rows[n - 1].id), true) else Page(rows, "", false)
  }

  function Limited(rows: seq<Product>, limit: nat): seq<Product> {
    if |rows| > limit then rows[..limit] else rows
  }

  /** One row more than the page holds is all that is needed. */
  lemma OneRowMore(rows: seq<Product>, n: nat)
    requires n > 0 && (|rows| > n ==> IsTime(rows[n - 1].created))
    ensures var fetched := Limited(rows, n + 1);
            (|fetched| > n ==> IsTime(fetched[n - 1].created)) && CutAt(fetched, n) == CutAt(rows, n)
  {
    hide Encode;
    if |rows| > n + 1 { assert rows[..n + 1][..n] == rows[..n]; }
  }

  lemma PageIs(table: seq<Product>, limit: int, cursor: string)
    requires IsTable(table)
    ensures var (rows, n) := (Below(table, From(cursor)),
            if limit <= 0 then 20 else if limit > 100 then 100 else limit);
            && (|rows| > n ==> IsTime(rows[n - 1].created))
            && PageOf(table, limit, cursor) == CutAt(rows, n)
  {
    var rows := Below(table, From(cursor));
    BelowIsIn(table, From(cursor));
    if |rows| > Clamp(limit) { assert rows[Clamp(limit) - 1] in table; }
    hide Below, From, Encode, Descending;
  }

  /** What has been sent when the loop is left, one way or another. */
  ghost predicate Sent(sent: seq<Product>, table: seq<Product>) {
    Descending(sent) && UniqueIds(sent) && forall p :: p in sent ==> p in table
  }

  lemma DownToIsSent(sent: seq<Product>, table: seq<Product>, original: seq<Product>, from: Option<Product>)
    requires Sound(table) && SentDownTo(sent, table, original, from)
    ensures Sent(sent, table)
  {
    DistinctIds(sent, table);
  }

  lemma StillSent(
      sent: seq<Product>, was: seq<Product>, table: seq<Product>, original: seq<Product>, from: Option<Product>)
    requires SentDownTo(sent, was, original, from) && Sound(table) && forall p :: p in was ==> p in table
    ensures SentDownTo(sent, table, original, from) && Sent(sent, table)
  {
    DownToIsSent(sent, table, original, from);
  }

  /** What a page sends, and where its cursor goes on. */
  lemma PageSent(sent: seq<Product>, table: seq<Product>, original: seq<Product>, cursor: string)
    requires Sound(table) && SentDownTo(sent, table, original, From(cursor))
             && (forall p :: p in original ==> p in table)
    ensures var page := PageOf(table, 100, cursor);
            && Sent(sent + page.items, table)
            && (page.hasMore ==>
                  && page.next != "" && SentDownTo(sent + page.items, table, original, From(page.next))
                  && Rest(table, From(page.next)) < Rest(table, From(cursor)))
            && (!page.hasMore ==> forall p :: p in original ==> p in sent + page.items)
  {
    hide *;
    SoundIsTable(table);
    var (from, page) := (From(cursor), PageOf(table, 100, cursor));
    HundredRows(table, cursor);
    if page.hasMore {
      FullPageSent(sent, table, original, from, 100);
      DownToIsSent(sent + page.items, table, original, Some(Below(table, from)[99]));
    } else {
      LastPageIsSent(sent, table, original, from);
    }
  }

  /** A page of a table whose rows can all be read back. */
  lemma HundredRows(table: seq<Product>, cursor: string)
    requires Sound(table)
    ensures var (rows, page) := (Below(table, From(cursor)), PageOf(table, 100, cursor));
            && page.hasMore == (|rows| > 100) && page.items == (if page.hasMore then rows[..100] else rows)
            && (page.hasMore ==> page.next != "" && From(page.next) == Some(rows[99]))
  {
    PageSteps(table, 100, cursor);
    PageIs(table, 100, cursor);
    BelowIsIn(table, From(cursor));
    var rows := Below(table, From(cursor));
    if |rows| > 100 { assert rows[99] in table && Readable(rows[99]); }
    hide IsTable, Below, Descending, UniqueIds;
  }

  lemma LastPageIsSent(sent: seq<Product>, table: seq<Product>, original: seq<Product>, from: Option<Product>)
    requires Sound(table) && SentDownTo(sent, table, original, from) && (forall p :: p in original ==> p in table)
    ensures Sent(sent + Below(table, from), table) && forall p :: p in original ==> p in sent + Below(table, from)
  {
    LastPageSent(sent, table, original, from);
    hide IsTable, Before, SentDownTo, Below;
    DistinctIds(sent + Below(table, from), table);
  }

  lemma SoundIsTable(s: seq<Product>)
    requires Sound(s)
    ensures IsTable(s)
  {
  }

  class CatalogService {
    const searchConfigured: bool
    var products: seq<Product>
    /** The documents given to the search engine, in order. */
    var indexed: seq<Product>
    /** How often products will yet be added while a re-indexing runs. */
    var additions: nat

    constructor (searchConfigured: bool)
      ensures Sound(products) && products == [] && indexed == []
      ensures this.searchConfigured == searchConfigured
    {
      this.searchConfigured := searchConfigured;
      products, indexed, additions := [], [], *;
    }

    /** Products are only ever added; what is there keeps its place in the order. */
    method Others()
      requires Sound(products)
      modifies this`products, this`additions
      ensures Sound(products) && (forall p :: p in old(products) ==> p in products)
      ensures additions < old(additions) || (additions == old(additions) && products == old(products))
    {
      var table: seq<Product>, added: bool := *, *;
      if added && additions > 0 && Sound(table) && forall p :: p in products ==> p in table {
        products, additions := table, additions - 1;
      }
    }

    /** The rows of a query, one after the other, up to its LIMIT. */
    static method Fetch(rows: seq<Product>, limit: nat) returns (items: seq<Product>)
      ensures items == Limited(rows, limit)
    {
      items := [];
      while |items| < |rows| && |items| < limit
        invariant |items| <= |rows| && |items| <= limit && items == rows[..|items|]
      {
        items := items + [rows[|items|]];
      }
    }

    /** One query: a row more than the page holds tells whether there are more pages. */
    method ListProducts(limit: int, cursor: string) returns (failed: bool, page: Page)
      requires Sound(products)
      modifies this`products, this`additions
      ensures Sound(products) && (forall p :: p in old(products) ==> p in products)
      ensures additions < old(additions) || (additions == old(additions) && products == old(products))
      ensures !failed ==> page == PageOf(products, limit, cursor)
    {
      Others();
      failed, page := *, Page([], "", false);
      if failed { return; }
      var n := if limit <= 0 then 20 else if limit > 100 then 100 else limit;
      hide *;
      SoundIsTable(products);
      PageIs(products, limit, cursor);
      OneRowMore(Below(products, From(cursor)), n);
      var items := Fetch(Below(products, From(cursor)), n + 1);
      page := Cut(items, n);
    }

    /** The page without the extra row, and the cursor to what follows it. */
    static method Cut(rows: seq<Product>, n: nat) returns (page: Page)
      requires n > 0 && (|rows| > n ==> IsTime(rows[n - 1].created))
      ensures page == CutAt(rows, n)
    {
      var items := rows;
      if |items| > n {
        items := items[..n];
        var last := items[n - 1];
        page := Page(items, Encode(last.created, last.id), true);
      } else {
        page := Page(items, "", false);
      }
    }

    /** Everything that was in the table when it began, and everything it gives to the search
        engine at all, is given once, newest first. A table that stays as it is is given whole
        and in order. It ends for every finite number of additions. */
    method ReindexAll() returns (total: nat, failed: bool)
      requires Sound(products)
      modifies this
      ensures Sound(products) && old(indexed) <= indexed
      ensures var sent := indexed[|old(indexed)|..];
              && Sent(sent, products) && total <= |sent|
              && (!failed ==> total == |sent| && forall p :: p in old(products) ==> p in sent)
              && (!failed && additions == old(additions) ==> sent == old(products))
    {
      total, failed := 0, true;
      ghost var (base, original, budget) := (|indexed|, products, additions);
      Nothing(products);
      if !searchConfigured { return; }
      var cursor := "";
      var more := true;
      while more
        invariant base <= |indexed| && old(indexed) == indexed[..base]
        invariant Sound(products) && (forall p :: p in original ==> p in products)
        invariant additions <= budget && (additions == budget ==> products == original)
        invariant Sent(indexed[base..], products) && total <= |indexed| - base
        invariant more ==> SentDownTo(indexed[base..], products, original, From(cursor))
        invariant failed == more && (!failed ==> forall p :: p in original ==> p in indexed[base..])
        invariant more || !failed ==> total == |indexed| - base
        decreases more, additions, Rest(products, From(cursor))
      {
        hide *;
        var cancelled: bool := *;
        if cancelled { return; }
        var lost, count;
        lost, count, more, cursor := IndexPage(cursor, base, original);
        if lost { return; }
        total := total + count;
        failed := more;
      }
      if additions == budget { OneListing(indexed[base..], products); }
    }

    lemma Nothing(table: seq<Product>)
      requires Sound(table)
      ensures Sent([], table) && SentDownTo([], table, table, From(""))
    {
    }

    /** The documents of a page reach the search engine, or an error comes back, or both; an empty
        page is not sent at all. */
    method SendBatch(items: seq<Product>) returns (ok: bool)
      modifies this`indexed
      ensures indexed == old(indexed) || indexed == old(indexed) + items
      ensures ok ==> indexed == old(indexed) + items
    {
      var d: Delivery := *;
      if items == [] { return true; }
      if !d.NotSent? { indexed := indexed + items; }
      ok := d.Delivered?;
    }

    /** List a page and index it. */
    method IndexPage(cursor: string, ghost base: nat, ghost original: seq<Product>)
      returns (lost: bool, count: nat, more: bool, next: string)
      requires Sound(products) && (forall p :: p in original ==> p in products) && base <= |indexed|
      requires SentDownTo(indexed[base..], products, original, From(cursor))
      modifies this
      ensures Sound(products) && (forall p :: p in old(products) ==> p in products)
      ensures additions < old(additions) || (additions == old(additions) && products == old(products))
      ensures old(indexed) <= indexed && Sent(indexed[base..], products)
      ensures !lost ==> |indexed| == |old(indexed)| + count
      ensures !lost && more ==>
                && SentDownTo(indexed[base..], products, original, From(next))
                && (additions == old(additions) ==> Rest(products, From(next)) < Rest(products, From(cursor)))
      ensures !lost && !more ==> forall p :: p in original ==> p in indexed[base..]
    {
      hide *;
      lost, count, more, next := true, 0, false, "";
      ghost var sent := indexed[base..];
      var unlisted, page := ListProducts(100, cursor);
      StillSent(sent, old(products), products, original, From(cursor));
      if unlisted { return; }
      PageSent(sent, products, original, cursor);
      assert (indexed + page.items)[base..] == sent + page.items;
      var sentAll := SendBatch(page.items);
      if !sentAll { return; }
      lost, count, more, next := false, |page.items|, page.hasMore && page.next != "", page.next;
    }
  }
}
