// Keyset pagination as used by apps/cloudflare-worker/src/d1-operation-history.ts and
// d1-communication-delivery-history.ts: each page is one ordered, limited query past the cursor,
// run on whatever the append-only table holds by then.
module KeysetPaging {
  import opened Sets
  import opened Wrappers

  datatype Stamp = Stamp(at: int, id: string)
  datatype Row<+C> = Row(stamp: Stamp, columns: C)

  type Precedes = (Stamp, Stamp) -> bool

  ghost predicate StrictTotal(before: Precedes) {
    && (forall a :: !before(a, a))
    && (forall a, b, c :: before(a, b) && before(b, c) ==> before(a, c))
    && (forall a, b :: a == b || before(a, b) || before(b, a))
  }

  lemma Later(before: Precedes, a: Stamp, b: Stamp, c: Stamp)
    requires StrictTotal(before) && before(a, b) && before(b, c)
    ensures before(a, c)
  {
  }

  lemma NotBoth(before: Precedes, a: Stamp, b: Stamp)
    requires StrictTotal(before) && before(a, b)
    ensures a != b && !before(b, a)
  {
    if before(b, a) { Later(before, a, b, a); }
  }

  // A primary key: no two rows share their stamp.
  predicate Keyed<C(==)>(table: set<Row<C>>) {
    forall r, s :: r in table && s in table && r.stamp == s.stamp ==> r == s
  }

  predicate Ordered<C>(before: Precedes, rows: seq<Row<C>>) {
    forall i, j :: 0 <= i < j < |rows| ==> before(rows[i].stamp, rows[j].stamp)
  }

  // ---- ORDER BY ... LIMIT ------------------------------------------------------------------

  predicate Leads<C(==)>(before: Precedes, r: Row<C>, table: set<Row<C>>) {
    r in table && forall s :: s in table && s != r ==> before(r.stamp, s.stamp)
  }

  lemma {:induction false} SomeRowLeads<C>(before: Precedes, table: set<Row<C>>)
    requires StrictTotal(before) && Keyed(table) && table != {}
    ensures exists r :: r in table && Leads(before, r, table)
    decreases |table|
  {
    var x :| x in table;
    if table == {x} {
      assert Leads(before, x, table);
    } else {
      SomeRowLeads(before, table - {x});
      var y :| y in table - {x} && Leads(before, y, table - {x});
      assert Leads(before, if before(x.stamp, y.stamp) then x else y, table);
    }
  }

  function Leader<C(==)>(before: Precedes, table: set<Row<C>>): (r: Row<C>)
    requires StrictTotal(before) && Keyed(table) && table != {}
    ensures Leads(before, r, table)
  {
    SomeRowLeads(before, table);
    var r :| r in table && Leads(before, r, table);
    r
  }

  // The first `n` rows of the table in its order.
  function Select<C(==)>(before: Precedes, table: set<Row<C>>, n: nat): (rows: seq<Row<C>>)
    requires StrictTotal(before) && Keyed(table)
    decreases n
  {
    if n == 0 || table == {} then []
    else
      var r := Leader(before, table);
      [r] + Select(before, table - {r}, n - 1)
  }

  // What the database promises for ORDER BY ... LIMIT n.
  predicate Heads<C(==)>(before: Precedes, table: set<Row<C>>, n: nat, rows: seq<Row<C>>) {
    && Ordered(before, rows)
    && |rows| == (if n < |table| then n else |table|)
    && (forall r :: r in rows ==> r in table)
    && (forall r, s :: r in rows && s in table && s !in rows ==> before(r.stamp, s.stamp))
  }

  lemma LeaderHeads<C>(before: Precedes, table: set<Row<C>>, n: nat, r: Row<C>, rest: seq<Row<C>>)
    requires n > 0 && r in table && Leads(before, r, table) && Heads(before, table - {r}, n - 1, rest)
    ensures Heads(before, table, n, [r] + rest)
  {
    var rows := [r] + rest;
    assert |table - {r}| == |table| - 1;
    forall i, j | 0 <= i < j < |rows| ensures before(rows[i].stamp, rows[j].stamp) {
      assert rows[j] == rest[j - 1] && rest[j - 1] in rest;
      if i > 0 { assert rows[i] == rest[i - 1]; }
    }
    forall q, s | q in rows && s in table && s !in rows ensures before(q.stamp, s.stamp) {
      assert s !in rest && s != r && s in table - {r};
    }
  }

  lemma {:induction false} SelectHeadsTheTable<C>(before: Precedes, table: set<Row<C>>, n: nat)
    requires StrictTotal(before) && Keyed(table)
    ensures Heads(before, table, n, Select(before, table, n))
    decreases n
  {
    hide StrictTotal;
    if n > 0 && table != {} {
      var r := Leader(before, table);
      SelectHeadsTheTable(before, table - {r}, n - 1);
      hide Heads, Leads;
      LeaderHeads(before, table, n, r, Select(before, table - {r}, n - 1));
    }
  }

  function Elements<C(==)>(rows: seq<Row<C>>): set<Row<C>> {
    set r | r in rows
  }

  lemma {:induction false} OrderedRowsAreDistinct<C>(before: Precedes, rows: seq<Row<C>>)
    requires StrictTotal(before) && Ordered(before, rows)
    ensures |Elements(rows)| == |rows|
    ensures forall i, j :: 0 <= i < j < |rows| ==> rows[i] != rows[j]
  {
    if rows != [] {
      var init, last := rows[..|rows| - 1], rows[|rows| - 1];
      OrderedRowsAreDistinct(before, init);
      assert Elements(rows) == Elements(init) + {last};
      assert last !in Elements(init) by {
        assert forall i :: 0 <= i < |init| ==> before(init[i].stamp, last.stamp);
      }
    }
  }

  // ---- One page ----------------------------------------------------------------------------

  datatype Page<+C> = Page(rows: seq<Row<C>>, next: Option<Stamp>)

  function Beyond<C(==)>(before: Precedes, table: set<Row<C>>, cursor: Option<Stamp>): set<Row<C>> {
    set r | r in table && (cursor.None? || before(cursor.value, r.stamp))
  }

  // limit + 1 rows are fetched; the extra one only says that there is a next page.
  function PageAt<C(==)>(before: Precedes, table: set<Row<C>>, cursor: Option<Stamp>, limit: nat): Page<C>
    requires StrictTotal(before) && Keyed(table) && limit >= 1
  {
    var results := Select(before, Beyond(before, table, cursor), limit + 1);
    if |results| > limit then Page(results[..limit], Some(results[limit - 1].stamp)) else Page(results, None)
  }

  // A page cuts its pending rows in two: those up to the next cursor are on it, the others follow.
  predicate Cuts<C(==)>(before: Precedes, pending: set<Row<C>>, limit: nat, page: Page<C>) {
    && Ordered(before, page.rows)
    && Elements(page.rows) <= pending
    && (page.next.None? ==> Elements(page.rows) == pending && |pending| <= limit)
    && (page.next.Some? ==>
          && 1 <= limit == |page.rows| < |pending|
          && page.next.value == page.rows[limit - 1].stamp
          && forall r :: r in pending ==> (r in page.rows <==> !before(page.next.value, r.stamp)))
  }

  lemma PageCutsItsRows<C>(before: Precedes, table: set<Row<C>>, cursor: Option<Stamp>, limit: nat)
    requires StrictTotal(before) && Keyed(table) && limit >= 1
    ensures Cuts(before, Beyond(before, table, cursor), limit, PageAt(before, table, cursor, limit))
  {
    var page, pending := PageAt(before, table, cursor, limit), Beyond(before, table, cursor);
    var results := Select(before, pending, limit + 1);
    SelectHeadsTheTable(before, pending, limit + 1);
    if |results| > limit {
      LimitCuts(before, pending, results, limit);
    } else {
      OrderedRowsAreDistinct(before, results);
      assert Elements(results) <= pending;
      SubsetOfEqualSize(Elements(results), pending);
    }
  }

  lemma LimitCuts<C>(before: Precedes, pending: set<Row<C>>, results: seq<Row<C>>, limit: nat)
    requires StrictTotal(before) && Heads(before, pending, limit + 1, results) && 1 <= limit < |results|
    ensures Cuts(before, pending, limit, Page(results[..limit], Some(results[limit - 1].stamp)))
  {
    hide StrictTotal;
    var last, rows := results[limit - 1].stamp, results[..limit];
    forall r | r in pending
      ensures r in rows <==> !before(last, r.stamp)
    {
      if i :| 0 <= i < |results| && results[i] == r {
        if i < limit - 1 {
          NotBoth(before, r.stamp, last);
          assert rows[i] == r;
        } else if i == limit - 1 {
          Irreflexive(before, last);
          assert rows[i] == r;
        } else {
          assert before(last, r.stamp);
          NotAmongEarlier(before, results, limit, i);
        }
      }
    }
  }

  lemma Irreflexive(before: Precedes, a: Stamp)
    requires StrictTotal(before)
    ensures !before(a, a)
  {
  }

  lemma NotAmongEarlier<C>(before: Precedes, rows: seq<Row<C>>, limit: nat, i: nat)
    requires StrictTotal(before) && Ordered(before, rows) && limit <= i < |rows|
    ensures rows[i] !in rows[..limit]
  {
    forall j | 0 <= j < limit
      ensures rows[j] != rows[i]
    {
      NotBoth(before, rows[j].stamp, rows[i].stamp);
    }
  }

  // The rows the next cursor leaves are the pending ones the page did not list.
  lemma NextCursorLeavesTheRest<C>(
    before: Precedes, table: set<Row<C>>, cursor: Option<Stamp>, limit: nat, page: Page<C>)
    requires StrictTotal(before) && page.next.Some? && Cuts(before, Beyond(before, table, cursor), limit, page)
    ensures cursor.Some? ==> before(cursor.value, page.next.value)
    ensures Beyond(before, table, page.next) == Beyond(before, table, cursor) - Elements(page.rows)
  {
    hide StrictTotal;
    var pending := Beyond(before, table, cursor);
    assert page.rows[limit - 1] in Elements(page.rows);
    forall r | r in table && before(page.next.value, r.stamp)
      ensures r in pending
    {
      if cursor.Some? { Later(before, cursor.value, page.next.value, r.stamp); }
    }
  }

  // ---- Following the cursors ---------------------------------------------------------------

  // `tables[k]` is what the k-th request finds.
  function Walk<C(==)>(before: Precedes, tables: seq<set<Row<C>>>, cursor: Option<Stamp>, limit: nat)
    : (pages: seq<Page<C>>)
    requires StrictTotal(before) && limit >= 1 && forall k :: 0 <= k < |tables| ==> Keyed(tables[k])
    ensures |pages| <= |tables|
    decreases |tables|
  {
    if tables == [] then []
    else
      var page := PageAt(before, tables[0], cursor, limit);
      [page] + (if page.next.None? then [] else Walk(before, tables[1..], page.next, limit))
  }

  lemma WalkUnfolds<C(!new)>(before: Precedes, tables: seq<set<Row<C>>>, cursor: Option<Stamp>, limit: nat)
    requires StrictTotal(before) && limit >= 1 && tables != [] && forall k :: 0 <= k < |tables| ==> Keyed(tables[k])
    ensures var page, pages := PageAt(before, tables[0], cursor, limit), Walk(before, tables, cursor, limit);
            var rest := if page.next.None? then [] else Walk(before, tables[1..], page.next, limit);
            && pages == [page] + rest
            && Flat(pages) == page.rows + Flat(rest)
            && (page.next.None? || |tables| == 1 ==> rest == [] && Flat(pages) == page.rows)
            && (Finished(pages) <==> if page.next.None? then true else Finished(rest))
            && (Finished(pages) && page.next.Some? ==> |tables| >= 2)
  {
    hide StrictTotal, Keyed, PageAt;
    var page, pages := PageAt(before, tables[0], cursor, limit), Walk(before, tables, cursor, limit);
    var rest := if page.next.None? then [] else Walk(before, tables[1..], page.next, limit);
    assert pages == [page] + rest;
    hide Walk;
    OnePageMore(page, rest);
  }

  lemma OnePageMore<C>(page: Page<C>, rest: seq<Page<C>>)
    ensures Flat([page] + rest) == page.rows + Flat(rest) && Flat([page]) == page.rows
    ensures Finished([page] + rest) <==> if rest == [] then page.next.None? else Finished(rest)
  {
    assert ([page] + rest)[1..] == rest && [page][1..] == [];
    assert page.rows + [] == page.rows;
  }

  predicate Finished<C>(pages: seq<Page<C>>) {
    pages != [] && pages[|pages| - 1].next.None?
  }

  function Flat<C>(pages: seq<Page<C>>): seq<Row<C>> {
    if pages == [] then [] else pages[0].rows + Flat(pages[1..])
  }

  predicate AppendOnly<C(==)>(tables: seq<set<Row<C>>>) {
    && (forall k :: 0 <= k < |tables| ==> Keyed(tables[k]))
    && (forall j, k :: 0 <= j <= k < |tables| ==> tables[j] <= tables[k])
  }

  ghost predicate AllPrecede<C(!new)>(before: Precedes, first: seq<Row<C>>, second: seq<Row<C>>) {
    forall i, j :: 0 <= i < |first| && 0 <= j < |second| ==> before(first[i].stamp, second[j].stamp)
  }

  lemma JoinOrdered<C(!new)>(before: Precedes, first: seq<Row<C>>, second: seq<Row<C>>)
    requires Ordered(before, first) && Ordered(before, second) && AllPrecede(before, first, second)
    ensures Ordered(before, first + second)
  {
  }

  ghost predicate Within<C(!new)>(before: Precedes, rows: seq<Row<C>>, table: set<Row<C>>, cursor: Option<Stamp>) {
    forall i :: 0 <= i < |rows| ==> rows[i] in Beyond(before, table, cursor)
  }

  lemma {:induction false} WalkStaysInOrder<C(!new)>(
    before: Precedes, tables: seq<set<Row<C>>>, cursor: Option<Stamp>, limit: nat)
    requires StrictTotal(before) && limit >= 1 && AppendOnly(tables) && tables != []
    ensures Ordered(before, Flat(Walk(before, tables, cursor, limit)))
    ensures Within(before, Flat(Walk(before, tables, cursor, limit)), tables[|tables| - 1], cursor)
    decreases |tables|
  {
    hide StrictTotal, Ordered, PageAt, Walk, Flat, Beyond;
    WalkUnfolds(before, tables, cursor, limit);
    PageCutsItsRows(before, tables[0], cursor, limit);
    var page, last := PageAt(before, tables[0], cursor, limit), tables[|tables| - 1];
    assert Ordered(before, page.rows);
    PageIsWithin(before, tables[0], last, cursor, limit, page);
    if page.next.Some? && |tables| > 1 {
      NextCursorLeavesTheRest(before, tables[0], cursor, limit, page);
      WalkStaysInOrder(before, tables[1..], page.next, limit);
      var rest := Flat(Walk(before, tables[1..], page.next, limit));
      PagePrecedesTheRest(before, tables[0], last, cursor, limit, page, rest);
      JoinOrdered(before, page.rows, rest);
    }
  }

  lemma PageIsWithin<C(!new)>(before: Precedes, table: set<Row<C>>, grown: set<Row<C>>, cursor: Option<Stamp>,
                              limit: nat, page: Page<C>)
    requires table <= grown && Cuts(before, Beyond(before, table, cursor), limit, page)
    ensures Within(before, page.rows, grown, cursor)
  {
    forall i | 0 <= i < |page.rows|
      ensures page.rows[i] in Beyond(before, grown, cursor)
    {
      assert page.rows[i] in Elements(page.rows);
    }
  }

  lemma PagePrecedesTheRest<C(!new)>(before: Precedes, table: set<Row<C>>, grown: set<Row<C>>, cursor: Option<Stamp>,
                                     limit: nat, page: Page<C>, rest: seq<Row<C>>)
    requires StrictTotal(before) && page.next.Some? && Cuts(before, Beyond(before, table, cursor), limit, page)
    requires cursor.Some? ==> before(cursor.value, page.next.value)
    requires Within(before, rest, grown, page.next)
    ensures AllPrecede(before, page.rows, rest)
    ensures Within(before, rest, grown, cursor)
  {
    hide StrictTotal;
    forall j | 0 <= j < |rest|
      ensures rest[j] in Beyond(before, grown, cursor)
      ensures forall i :: 0 <= i < |page.rows| ==> before(page.rows[i].stamp, rest[j].stamp)
    {
      assert rest[j] in Beyond(before, grown, page.next);
      if cursor.Some? { Later(before, cursor.value, page.next.value, rest[j].stamp); }
      forall i | 0 <= i < |page.rows|
        ensures before(page.rows[i].stamp, rest[j].stamp)
      {
        if i < limit - 1 { Later(before, page.rows[i].stamp, page.next.value, rest[j].stamp); }
      }
    }
  }

  lemma {:induction false} WalkMissesNothing<C(!new)>(
    before: Precedes, tables: seq<set<Row<C>>>, cursor: Option<Stamp>, limit: nat, r: Row<C>)
    requires StrictTotal(before) && limit >= 1 && AppendOnly(tables) && tables != []
    requires Finished(Walk(before, tables, cursor, limit)) && r in Beyond(before, tables[0], cursor)
    ensures r in Flat(Walk(before, tables, cursor, limit))
    decreases |tables|
  {
    hide StrictTotal, Ordered, PageAt, Walk, Flat, Finished;
    WalkUnfolds(before, tables, cursor, limit);
    PageCutsItsRows(before, tables[0], cursor, limit);
    var page := PageAt(before, tables[0], cursor, limit);
    if r !in page.rows {
      assert r !in Elements(page.rows);
      NextCursorLeavesTheRest(before, tables[0], cursor, limit, page);
      assert r in Beyond(before, tables[1], page.next);
      WalkMissesNothing(before, tables[1..], page.next, limit, r);
    }
  }

  ghost predicate ExactlyOnce<T(!new)>(rows: seq<T>, r: T) {
    exists i :: 0 <= i < |rows| && rows[i] == r && forall j :: 0 <= j < |rows| && rows[j] == r ==> j == i
  }

  // Complete and free of repeats while rows are appended between pages: every row present when the
  // walk starts is listed exactly once, and nothing at all is listed twice.
  lemma EveryInitialRowIsListedOnce<C(!new)>(before: Precedes, tables: seq<set<Row<C>>>, limit: nat)
    requires StrictTotal(before) && limit >= 1 && AppendOnly(tables)
    requires Finished(Walk(before, tables, None, limit))
    ensures var rows := Flat(Walk(before, tables, None, limit));
            && (forall r :: r in tables[0] ==> ExactlyOnce(rows, r))
            && (forall i, j :: 0 <= i < j < |rows| ==> rows[i] != rows[j])
            && Ordered(before, rows)
  {
    var rows := Flat(Walk(before, tables, None, limit));
    WalkStaysInOrder(before, tables, None, limit);
    OrderedRowsAreDistinct(before, rows);
    forall r | r in tables[0]
      ensures ExactlyOnce(rows, r)
    {
      assert r in Beyond(before, tables[0], None);
      WalkMissesNothing(before, tables, None, limit, r);
      var i :| 0 <= i < |rows| && rows[i] == r;
    }
  }

  function Standing<C(==)>(table: set<Row<C>>, requests: nat): (tables: seq<set<Row<C>>>)
    ensures |tables| == requests && forall k :: 0 <= k < requests ==> tables[k] == table
    ensures requests > 0 ==> tables[1..] == Standing(table, requests - 1)
  {
    if requests == 0 then [] else [table] + Standing(table, requests - 1)
  }

  lemma PageSizes<C(!new)>(before: Precedes, table: set<Row<C>>, cursor: Option<Stamp>, limit: nat)
    requires StrictTotal(before) && Keyed(table) && limit >= 1
    ensures var page, pending := PageAt(before, table, cursor, limit), Beyond(before, table, cursor);
            && (page.next.None? ==> Elements(page.rows) == pending && |pending| <= limit)
            && (page.next.Some? ==>
                  && |Beyond(before, table, page.next)| == |pending| - limit && |pending| > limit
                  && Beyond(before, table, page.next) + Elements(page.rows) == pending)
  {
    hide StrictTotal, PageAt, Beyond;
    PageCutsItsRows(before, table, cursor, limit);
    var page := PageAt(before, table, cursor, limit);
    if page.next.Some? {
      OrderedRowsAreDistinct(before, page.rows);
      NextCursorLeavesTheRest(before, table, cursor, limit, page);
    }
  }

  // On a table that stands still the walk ends, after as many pages as the limit requires.
  lemma {:induction false} WalkEndsOnAFixedTable<C(!new)>(
    before: Precedes, table: set<Row<C>>, cursor: Option<Stamp>, limit: nat, requests: nat)
    requires StrictTotal(before) && limit >= 1 && Keyed(table)
    requires requests >= 1 && requests * limit >= |Beyond(before, table, cursor)|
    ensures var pages, pending := Walk(before, Standing(table, requests), cursor, limit), Beyond(before, table, cursor);
            && Finished(pages)
            && Elements(Flat(pages)) == pending
            && |pages| == PageCount(|pending|, limit)
    decreases requests
  {
    var tables := Standing(table, requests);
    hide StrictTotal, Ordered, Keyed, PageAt, Walk, Flat, Finished, Beyond, Standing;
    WalkUnfolds(before, tables, cursor, limit);
    PageSizes(before, table, cursor, limit);
    var page, pending := PageAt(before, table, cursor, limit), Beyond(before, table, cursor);
    if page.next.Some? {
      OneRequestLess(requests, limit, |pending|);
      WalkEndsOnAFixedTable(before, table, page.next, limit, requests - 1);
      var rest := Flat(Walk(before, tables[1..], page.next, limit));
      assert Elements(page.rows + rest) == Elements(page.rows) + Elements(rest);
    }
  }

  // Full pages and one that holds what remains; an empty table still takes one request.
  function PageCount(rows: nat, limit: nat): (pages: nat)
    requires limit >= 1
    ensures pages >= 1 && (pages - 1) * limit <= rows <= pages * limit
    ensures rows > 0 ==> (pages - 1) * limit < rows
    decreases rows
  {
    if rows <= limit then 1 else 1 + PageCount(rows - limit, limit)
  }

  lemma OneRequestLess(requests: nat, limit: nat, rows: nat)
    requires requests >= 1 && limit >= 1 && requests * limit >= rows > limit
    ensures requests >= 2 && (requests - 1) * limit >= rows - limit
  {
    assert requests == 1 ==> requests * limit == limit;
    assert (requests - 1) * limit == requests * limit - limit;
  }

  // ---- Filtering after the limit ------------------------------------------------------------

  function Filter<C>(keep: Row<C> -> bool, rows: seq<Row<C>>): (kept: seq<Row<C>>)
    ensures forall r :: r in kept ==> r in rows && keep(r)
    ensures forall r :: r in rows && keep(r) ==> r in kept
    ensures |kept| <= |rows|
  {
    if rows == [] then []
    else Filter(keep, rows[..|rows| - 1]) + (if keep(rows[|rows| - 1]) then [rows[|rows| - 1]] else [])
  }

  lemma {:induction false} FilterKeepsOrder<C>(before: Precedes, keep: Row<C> -> bool, rows: seq<Row<C>>)
    requires Ordered(before, rows)
    ensures Ordered(before, Filter(keep, rows))
  {
    if rows != [] {
      var init, last := rows[..|rows| - 1], rows[|rows| - 1];
      FilterKeepsOrder(before, keep, init);
      forall r | r in Filter(keep, init)
        ensures before(r.stamp, last.stamp)
      {
        assert r in init;
      }
    }
  }

  // `keep[k]` is the filter as evaluated for page k: a row's derived state may change meanwhile.
  function Shown<C>(pages: seq<Page<C>>, keep: seq<Row<C> -> bool>): seq<Row<C>>
    requires |keep| >= |pages|
  {
    if pages == [] then [] else Filter(keep[0], pages[0].rows) + Shown(pages[1..], keep[1..])
  }

  lemma {:induction false} ShownStaysInOrder<C(!new)>(
    before: Precedes, pages: seq<Page<C>>, keep: seq<Row<C> -> bool>)
    requires |keep| >= |pages| && Ordered(before, Flat(pages))
    ensures Ordered(before, Shown(pages, keep))
    ensures forall r :: r in Shown(pages, keep) ==> r in Flat(pages)
  {
    if pages != [] {
      var rows, rest := pages[0].rows, Flat(pages[1..]);
      SplitOrdered(before, rows, rest);
      ShownStaysInOrder(before, pages[1..], keep[1..]);
      FilterKeepsOrder(before, keep[0], rows);
      var kept, later := Filter(keep[0], rows), Shown(pages[1..], keep[1..]);
      forall i, j | 0 <= i < |kept| && 0 <= j < |later|
        ensures before(kept[i].stamp, later[j].stamp)
      {
        assert kept[i] in rows && later[j] in rest;
      }
      JoinOrdered(before, kept, later);
    }
  }

  lemma SplitOrdered<C(!new)>(before: Precedes, first: seq<Row<C>>, second: seq<Row<C>>)
    requires Ordered(before, first + second)
    ensures Ordered(before, first) && Ordered(before, second) && AllPrecede(before, first, second)
  {
    var both := first + second;
    forall i, j | 0 <= i < j < |second|
      ensures before(second[i].stamp, second[j].stamp)
    {
      assert before(both[|first| + i].stamp, both[|first| + j].stamp);
    }
    forall i, j | 0 <= i < |first| && 0 <= j < |second|
      ensures before(first[i].stamp, second[j].stamp)
    {
      assert before(both[i].stamp, both[|first| + j].stamp);
    }
    forall i, j | 0 <= i < j < |first|
      ensures before(first[i].stamp, first[j].stamp)
    {
      assert before(both[i].stamp, both[j].stamp);
    }
  }

  lemma {:induction false} ListedOnSomePage<C(!new)>(pages: seq<Page<C>>, r: Row<C>) returns (k: nat)
    requires r in Flat(pages)
    ensures k < |pages| && r in pages[k].rows
  {
    if r in pages[0].rows {
      k := 0;
    } else {
      k := ListedOnSomePage(pages[1..], r);
      k := k + 1;
    }
  }

  // On the one page that lists it, the filter of that page decides.
  lemma {:induction false} ShownExactlyWhenKept<C(!new)>(
    before: Precedes, pages: seq<Page<C>>, keep: seq<Row<C> -> bool>, k: nat, r: Row<C>)
    requires StrictTotal(before) && |keep| >= |pages| && Ordered(before, Flat(pages))
    requires k < |pages| && r in pages[k].rows
    ensures r in Shown(pages, keep) <==> keep[k](r)
  {
    hide StrictTotal;
    var rows, rest := pages[0].rows, Flat(pages[1..]);
    SplitOrdered(before, rows, rest);
    if k == 0 {
      if r in Shown(pages[1..], keep[1..]) {
        ShownStaysInOrder(before, pages[1..], keep[1..]);
        NotOnBothSides(before, rows, rest, r);
      }
    } else {
      ShownExactlyWhenKept(before, pages[1..], keep[1..], k - 1, r);
      InFlat(pages[1..], k - 1, r);
      if r in rows {
        NotOnBothSides(before, rows, rest, r);
      }
    }
  }

  lemma NotOnBothSides<C(!new)>(before: Precedes, first: seq<Row<C>>, second: seq<Row<C>>, r: Row<C>)
    requires StrictTotal(before) && AllPrecede(before, first, second)
    ensures !(r in first && r in second)
  {
    hide StrictTotal;
    forall i, j | 0 <= i < |first| && 0 <= j < |second|
      ensures first[i] != second[j]
    {
      NotBoth(before, first[i].stamp, second[j].stamp);
    }
  }

  // The filter runs after the limit and the cursor ignores it, so no matching row is lost: a row
  // present from the start is shown, once, exactly if it matches when its page is read.
  lemma FilteringLosesNoMatch<C(!new)>(
    before: Precedes, tables: seq<set<Row<C>>>, limit: nat, keep: seq<Row<C> -> bool>, r: Row<C>)
    returns (k: nat)
    requires StrictTotal(before) && limit >= 1 && AppendOnly(tables) && |keep| >= |tables|
    requires Finished(Walk(before, tables, None, limit)) && r in tables[0]
    ensures k < |Walk(before, tables, None, limit)| && r in Walk(before, tables, None, limit)[k].rows
    ensures var shown := Shown(Walk(before, tables, None, limit), keep);
            if keep[k](r) then ExactlyOnce(shown, r) else r !in shown
  {
    hide StrictTotal;
    var pages := Walk(before, tables, None, limit);
    EveryInitialRowIsListedOnce(before, tables, limit);
    assert ExactlyOnce(Flat(pages), r);
    k := ListedOnSomePage(pages, r);
    ShownExactlyWhenKept(before, pages, keep, k, r);
    ShownStaysInOrder(before, pages, keep);
    OrderedRowsAreDistinct(before, Shown(pages, keep));
    if keep[k](r) {
      var i :| 0 <= i < |Shown(pages, keep)| && Shown(pages, keep)[i] == r;
    }
  }

  lemma {:induction false} InFlat<C>(pages: seq<Page<C>>, k: nat, r: Row<C>)
    requires k < |pages| && r in pages[k].rows
    ensures r in Flat(pages)
  {
    if k > 0 {
      InFlat(pages[1..], k - 1, r);
    }
  }
}
