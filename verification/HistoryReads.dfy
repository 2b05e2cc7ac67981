// The two history reads that page by key: d1-operation-history.ts and
// d1-communication-delivery-history.ts. They share KeysetPaging and differ in order, in scope
// and in the filter the second applies after the limit.
module HistoryOrder {
  import opened Sets
  import opened Wrappers
  import opened KeysetPaging
  import opened StringOrder

  // ORDER BY occurred_at_ms DESC, id DESC
  predicate NewestThenLargestId(a: Stamp, b: Stamp) {
    a.at > b.at || (a.at == b.at && Less(b.id, a.id))
  }

  // ORDER BY occurred_at_ms DESC, commit_id ASC
  predicate NewestThenSmallestId(a: Stamp, b: Stamp) {
    a.at > b.at || (a.at == b.at && Less(a.id, b.id))
  }

  // Newest first in both; ids fall in one and rise in the other.
  lemma BothOrdersAreStrictAndTotal()
    ensures StrictTotal(NewestThenLargestId) && StrictTotal(NewestThenSmallestId)
    ensures forall a: Stamp, b: Stamp :: a.at > b.at ==> NewestThenLargestId(a, b) && NewestThenSmallestId(a, b)
    ensures forall a: Stamp, b: Stamp :: a.at == b.at ==>
              (NewestThenLargestId(a, b) <==> Less(b.id, a.id)) && (NewestThenSmallestId(a, b) <==> Less(a.id, b.id))
  {
    forall a: Stamp
      ensures !NewestThenLargestId(a, a) && !NewestThenSmallestId(a, a)
    {
      LessIsIrreflexive(a.id);
    }
    forall a: Stamp, b: Stamp
      ensures a == b || NewestThenLargestId(a, b) || NewestThenLargestId(b, a)
      ensures a == b || NewestThenSmallestId(a, b) || NewestThenSmallestId(b, a)
    {
      LessIsTotal(a.id, b.id);
    }
    forall a: Stamp, b: Stamp, c: Stamp
      ensures NewestThenLargestId(a, b) && NewestThenLargestId(b, c) ==> NewestThenLargestId(a, c)
      ensures NewestThenSmallestId(a, b) && NewestThenSmallestId(b, c) ==> NewestThenSmallestId(a, c)
    {
      if Less(c.id, b.id) && Less(b.id, a.id) { LessIsTransitive(c.id, b.id, a.id); }
      if Less(a.id, b.id) && Less(b.id, c.id) { LessIsTransitive(a.id, b.id, c.id); }
    }
  }

  // What a page shows of the rows asked for, in a given order: they come in that order, what is not
  // on the page comes after all of it, and the cursor is the last row's if anything does.
  lemma PageInOrder<C>(before: Precedes, table: set<Row<C>>, cursor: Option<Stamp>, limit: nat, page: Page<C>)
    requires StrictTotal(before) && Keyed(table) && limit >= 1 && page == PageAt(before, table, cursor, limit)
    ensures forall i, j :: 0 <= i < j < |page.rows| ==> before(page.rows[i].stamp, page.rows[j].stamp)
    ensures forall r :: r in page.rows ==> r in table && (cursor.Some? ==> before(cursor.value, r.stamp))
    ensures forall r, q :: r in table && (cursor.Some? ==> before(cursor.value, r.stamp)) && r !in page.rows && q in page.rows ==>
              before(q.stamp, r.stamp)
    ensures |page.rows| <= limit
    ensures page.next.Some? <==> exists r :: r in table && (cursor.Some? ==> before(cursor.value, r.stamp)) && r !in page.rows
    ensures page.next.Some? ==> |page.rows| == limit && page.next.value == page.rows[limit - 1].stamp
  {
    var pending := Beyond(before, table, cursor);
    PageCutsItsRows(before, table, cursor, limit);
    hide PageAt;
    forall r | r in page.rows ensures r in pending { assert r in Elements(page.rows); }
    forall r | r in pending && r !in page.rows ensures page.next.Some? {
      assert r !in Elements(page.rows);
    }
    OrderedRowsAreDistinct(before, page.rows);
    if page.next.Some? {
      assert |pending - Elements(page.rows)| > 0 by { assert |pending - Elements(page.rows)| == |pending| - |Elements(page.rows)|; }
      var r :| r in pending - Elements(page.rows);
      assert r in table && r !in page.rows;
      forall q, r | q in page.rows && r in pending && r !in page.rows ensures before(q.stamp, r.stamp) {
        var i :| 0 <= i < limit && page.rows[i] == q;
        if i < limit - 1 { Later(before, q.stamp, page.next.value, r.stamp); }
      }
    } else {
      SubsetIsSmaller(Elements(page.rows), pending);
    }
  }

  // An append-only table whose ids are its primary key.
  predicate Appended<C(==)>(tables: seq<set<Row<C>>>) {
    && (forall k, r, s :: 0 <= k < |tables| && r in tables[k] && s in tables[k] && r.stamp.id == s.stamp.id ==> r == s)
    && (forall j, k :: 0 <= j <= k < |tables| ==> tables[j] <= tables[k])
  }
}

module OperationHistory {
  import opened Wrappers
  import opened KeysetPaging
  import opened StringOrder
  import opened HistoryOrder

  // `createdEvent` is the event id inside an event.create result.
  datatype LogColumns = LogColumns(workspace: string, event: Option<string>, operation: string, createdEvent: Option<string>)
  type LogRow = Row<LogColumns>

  datatype Clause = InWorkspace(workspace: string) | OfEvent(event: string) | Past(at: int, id: string) {
    predicate Passes(r: LogRow) {
      match this
      case InWorkspace(w) => r.columns.workspace == w
      case OfEvent(e) =>
        r.columns.event == Some(e) || (r.columns.operation == "event.create" && r.columns.createdEvent == Some(e))
      case Past(at, id) => r.stamp.at < at || (r.stamp.at == at && Less(r.stamp.id, id))
    }
  }

  datatype Listing = InvalidScope | Listed(page: Page<LogColumns>)

  predicate Belongs(r: LogRow, workspace: string, event: Option<string>) {
    && r.columns.workspace == workspace
    && (event.Some? ==>
          r.columns.event == event || (r.columns.operation == "event.create" && r.columns.createdEvent == event))
  }

  function InView(log: set<LogRow>, workspace: string, event: Option<string>): set<LogRow> {
    set r | r in log && Belongs(r, workspace, event)
  }

  // An operation of the workspace and, in an event's view, of that event -- the one that created the
  // event among them -- that is older than the cursor: earlier, or as early and smaller in id.
  predicate Asked(r: LogRow, log: set<LogRow>, workspace: string, event: Option<string>, cursor: Option<Stamp>) {
    && r in log && r.columns.workspace == workspace
    && (event.Some? ==>
          || r.columns.event == event
          || (r.columns.operation == "event.create" && r.columns.createdEvent == event))
    && (cursor.Some? ==>
          r.stamp.at < cursor.value.at || (r.stamp.at == cursor.value.at && Less(r.stamp.id, cursor.value.id)))
  }

  // The newest operations asked for, newest first and larger ids first within one time; the cursor is
  // the last one's if there are more.
  ghost predicate IsNewestPage(
    page: Page<LogColumns>, log: set<LogRow>, workspace: string, event: Option<string>, cursor: Option<Stamp>, limit: nat)
  {
    && |page.rows| <= limit && (forall r :: r in page.rows ==> Asked(r, log, workspace, event, cursor))
    && (forall i, j :: 0 <= i < j < |page.rows| ==>
          var p, q := page.rows[i].stamp, page.rows[j].stamp; p.at > q.at || (p.at == q.at && Less(q.id, p.id)))
    && (forall r, q :: Asked(r, log, workspace, event, cursor) && r !in page.rows && q in page.rows ==>
          r.stamp.at < q.stamp.at || (r.stamp.at == q.stamp.at && Less(r.stamp.id, q.stamp.id)))
    && (page.next.Some? <==> exists r :: Asked(r, log, workspace, event, cursor) && r !in page.rows)
    && (page.next.Some? ==> |page.rows| == limit > 0 && page.next.value == page.rows[limit - 1].stamp)
  }

  lemma PageIsNewest(
    page: Page<LogColumns>, log: set<LogRow>, workspace: string, event: Option<string>, cursor: Option<Stamp>, limit: nat)
    requires Keyed(log) && limit >= 1 && StrictTotal(NewestThenLargestId)
    requires page == PageAt(NewestThenLargestId, InView(log, workspace, event), cursor, limit)
    ensures IsNewestPage(page, log, workspace, event, cursor, limit)
  {
    var view := InView(log, workspace, event);
    hide PageAt;
    PageInOrder(NewestThenLargestId, view, cursor, limit, page);
    forall r: LogRow
      ensures Asked(r, log, workspace, event, cursor) <==>
                r in view && (cursor.Some? ==> NewestThenLargestId(cursor.value, r.stamp))
    {
    }
    hide Asked, InView;
    if page.next.Some? {
      var r :| r in view && (cursor.Some? ==> NewestThenLargestId(cursor.value, r.stamp)) && r !in page.rows;
      assert Asked(r, log, workspace, event, cursor);
    }
  }

  // The clauses and their parameters are pushed one by one, then one query runs.
  method List(
    log: set<LogRow>, workspaceId: string, scopeWorkspace: string, scopeEvent: Option<string>,
    eventView: bool, limit: nat, before: Option<Stamp>)
    returns (listing: Listing)
    requires Keyed(log) && 1 <= limit <= 100
    ensures listing.InvalidScope? <==> scopeWorkspace != workspaceId || eventView != scopeEvent.Some?
    ensures StrictTotal(NewestThenLargestId)
    ensures listing.Listed? ==>
              && listing.page == PageAt(NewestThenLargestId, InView(log, workspaceId, scopeEvent), before, limit)
              && IsNewestPage(listing.page, log, workspaceId, scopeEvent, before, limit)
  {
    BothOrdersAreStrictAndTotal();
    if scopeWorkspace != workspaceId || eventView != scopeEvent.Some? {
      return InvalidScope;
    }
    var clauses := [InWorkspace(workspaceId)];
    if scopeEvent.Some? {
      clauses := clauses + [OfEvent(scopeEvent.value)];
    }
    if before.Some? {
      clauses := clauses + [Past(before.value.at, before.value.id)];
    }
    var selected := set r | r in log && forall i :: 0 <= i < |clauses| ==> clauses[i].Passes(r);
    SelectionIsTheViewPastTheCursor(log, workspaceId, scopeEvent, before, clauses);
    var results := Select(NewestThenLargestId, selected, limit + 1);
    var visible := results[..if |results| < limit then |results| else limit];
    var next := None;
    if |results| > limit && |visible| > 0 {
      next := Some(visible[|visible| - 1].stamp);
    }
    listing := Listed(Page(visible, next));
    assert |results| <= limit ==> visible == results;
    PageIsNewest(listing.page, log, workspaceId, scopeEvent, before, limit);
  }

  lemma SelectionIsTheViewPastTheCursor(
    log: set<LogRow>, workspace: string, event: Option<string>, before: Option<Stamp>, clauses: seq<Clause>)
    requires clauses == [InWorkspace(workspace)] + (if event.Some? then [OfEvent(event.value)] else [])
                        + (if before.Some? then [Past(before.value.at, before.value.id)] else [])
    ensures (set r | r in log && forall i :: 0 <= i < |clauses| ==> clauses[i].Passes(r)) ==
            Beyond(NewestThenLargestId, InView(log, workspace, event), before)
  {
    forall r: LogRow
      ensures (forall i :: 0 <= i < |clauses| ==> clauses[i].Passes(r)) <==>
                Belongs(r, workspace, event) && (before.None? || NewestThenLargestId(before.value, r.stamp))
    {
      assert clauses[0].Passes(r) <==> r.columns.workspace == workspace;
      if event.Some? {
        assert clauses[1] == OfEvent(event.value);
      }
      if before.Some? {
        assert clauses[|clauses| - 1] == Past(before.value.at, before.value.id);
      }
    }
  }

  // Following `next` through one view lists every operation that was there at the start once, and
  // none twice, while operations go on being logged.
  lemma EveryOperationIsListedOnce(
    logs: seq<set<LogRow>>, workspace: string, event: Option<string>, limit: nat, views: seq<set<LogRow>>)
    requires Appended(logs) && 1 <= limit <= 100 && |views| == |logs|
    requires forall k :: 0 <= k < |logs| ==> views[k] == InView(logs[k], workspace, event)
    ensures StrictTotal(NewestThenLargestId) && AppendOnly(views)
    ensures Finished(Walk(NewestThenLargestId, views, None, limit)) ==>
              && (forall r :: r in logs[0] && Belongs(r, workspace, event) ==>
                    ExactlyOnce(Flat(Walk(NewestThenLargestId, views, None, limit)), r))
              && (forall i, j :: 0 <= i < j < |Flat(Walk(NewestThenLargestId, views, None, limit))| ==>
                    Flat(Walk(NewestThenLargestId, views, None, limit))[i] != Flat(Walk(NewestThenLargestId, views, None, limit))[j])
  {
    BothOrdersAreStrictAndTotal();
    assert AppendOnly(views) by {
      forall k | 0 <= k < |views|
        ensures Keyed(views[k])
      {
        assert forall r :: r in views[k] ==> r in logs[k];
      }
      forall j, k | 0 <= j <= k < |views|
        ensures views[j] <= views[k]
      {
        assert logs[j] <= logs[k];
      }
    }
    if Finished(Walk(NewestThenLargestId, views, None, limit)) {
      EveryInitialRowIsListedOnce(NewestThenLargestId, views, limit);
    }
  }
}

module DeliveryHistory {
  import opened Wrappers
  import opened KeysetPaging
  import opened StringOrder
  import opened HistoryOrder

  const PAGE_LIMIT := 200

  datatype LinkColumns = LinkColumns(workspace: string, event: string, batch: string)
  type LinkRow = Row<LinkColumns>

  datatype Release = Release(workspace: string, event: string, batch: string, person: string)

  datatype State = Attempting | Materialized | AcceptanceUnknown | Accepted | KnownFailed

  // The encoded cursor after decoding.
  datatype Cursor = NoCursor | Undecodable | After(stamp: Stamp) {
    function Position(): Option<Stamp> {
      if this.After? then Some(stamp) else None
    }
  }

  datatype Filters = Filters(state: Option<State>, message: Option<string>, person: Option<string>, limit: Option<nat>, cursor: Cursor)

  datatype Clause =
    | InWorkspace(workspace: string) | InEvent(event: string) | OfBatch(batch: string) | ForPerson(person: string)
    | Past(at: int, id: string)
  {
    predicate Passes(r: LinkRow, releases: set<Release>) {
      match this
      case InWorkspace(w) => r.columns.workspace == w
      case InEvent(e) => r.columns.event == e
      case OfBatch(b) => r.columns.batch == b
      case ForPerson(p) => Release(r.columns.workspace, r.columns.event, r.columns.batch, p) in releases
      case Past(at, id) => r.stamp.at < at || (r.stamp.at == at && Less(id, r.stamp.id))
    }
  }

  datatype Listing = ScopeMismatch | InvalidCursor | Listed(rows: seq<LinkRow>, next: Option<Stamp>)

  predicate Belongs(r: LinkRow, releases: set<Release>, workspace: string, event: string, filters: Filters) {
    && r.columns.workspace == workspace && r.columns.event == event
    && (filters.message.Some? ==> r.columns.batch == filters.message.value)
    && (filters.person.Some? ==> Release(workspace, event, r.columns.batch, filters.person.value) in releases)
  }

  function InView(links: set<LinkRow>, releases: set<Release>, workspace: string, event: string, filters: Filters)
    : set<LinkRow>
  {
    set r | r in links && Belongs(r, releases, workspace, event, filters)
  }

  function Limit(filters: Filters): (limit: nat)
    ensures limit <= PAGE_LIMIT
    ensures filters.limit.None? ==> limit == 200
    ensures filters.limit.Some? && filters.limit.value <= 200 ==> limit == filters.limit.value
  {
    var limit := if filters.limit.Some? then filters.limit.value else PAGE_LIMIT;
    if limit < PAGE_LIMIT then limit else PAGE_LIMIT
  }

  function Keeps(filters: Filters, stateOf: LinkRow -> State): LinkRow -> bool {
    (r: LinkRow) => filters.state.None? || stateOf(r) == filters.state.value
  }

  // A send of the workspace's event, of the asked-for message and person if any, that is older than
  // the cursor: earlier, or as early and larger in id.
  predicate Asked(r: LinkRow, links: set<LinkRow>, releases: set<Release>, workspace: string, event: string, filters: Filters) {
    && r in links && r.columns.workspace == workspace && r.columns.event == event
    && (filters.message.Some? ==> r.columns.batch == filters.message.value)
    && (filters.person.Some? ==> Release(workspace, event, r.columns.batch, filters.person.value) in releases)
    && (filters.cursor.After? ==>
          var c := filters.cursor.stamp;
          r.stamp.at < c.at || (r.stamp.at == c.at && Less(c.id, r.stamp.id)))
  }

  // The newest sends asked for, newest first and smaller ids first within one time.
  ghost predicate AreNewest(
    rows: seq<LinkRow>, next: Option<Stamp>, links: set<LinkRow>, releases: set<Release>, workspace: string, event: string,
    filters: Filters, limit: nat)
  {
    && |rows| <= limit && (forall r :: r in rows ==> Asked(r, links, releases, workspace, event, filters))
    && (forall i, j :: 0 <= i < j < |rows| ==>
          var p, q := rows[i].stamp, rows[j].stamp; p.at > q.at || (p.at == q.at && Less(p.id, q.id)))
    && (forall r, q :: Asked(r, links, releases, workspace, event, filters) && r !in rows && q in rows ==>
          r.stamp.at < q.stamp.at || (r.stamp.at == q.stamp.at && Less(q.stamp.id, r.stamp.id)))
    && (next.Some? <==> exists r :: Asked(r, links, releases, workspace, event, filters) && r !in rows)
    && (next.Some? ==> |rows| == limit > 0 && next.value == rows[limit - 1].stamp)
  }

  lemma PageIsNewest(
    page: Page<LinkColumns>, links: set<LinkRow>, releases: set<Release>, workspace: string, event: string, filters: Filters)
    requires Keyed(links) && Limit(filters) >= 1 && StrictTotal(NewestThenSmallestId)
    requires page == PageAt(NewestThenSmallestId, InView(links, releases, workspace, event, filters),
                            filters.cursor.Position(), Limit(filters))
    ensures AreNewest(page.rows, page.next, links, releases, workspace, event, filters, Limit(filters))
  {
    var view, cursor := InView(links, releases, workspace, event, filters), filters.cursor.Position();
    hide PageAt;
    PageInOrder(NewestThenSmallestId, view, cursor, Limit(filters), page);
    forall r: LinkRow
      ensures Asked(r, links, releases, workspace, event, filters) <==>
                r in view && (cursor.Some? ==> NewestThenSmallestId(cursor.value, r.stamp))
    {
    }
    hide Asked, InView;
    if page.next.Some? {
      var r :| r in view && (cursor.Some? ==> NewestThenSmallestId(cursor.value, r.stamp)) && r !in page.rows;
      assert Asked(r, links, releases, workspace, event, filters);
    }
  }

  // The items of one page that are in the asked-for state, in page order.
  method MatchingItems(visible: seq<LinkRow>, filters: Filters, stateOf: LinkRow -> State) returns (rows: seq<LinkRow>)
    ensures rows == Filter(Keeps(filters, stateOf), visible)
  {
    rows := [];
    var i := 0;
    while i < |visible|
      invariant 0 <= i <= |visible|
      invariant rows == Filter(Keeps(filters, stateOf), visible[..i])
    {
      assert visible[..i + 1][..i] == visible[..i];
      if filters.state.None? || stateOf(visible[i]) == filters.state.value {
        rows := rows + [visible[i]];
      }
      i := i + 1;
    }
    assert visible[..i] == visible;
  }

  // `stateOf` is the state derived from the delivery heads while this page is read.
  method ListDeliveryHistory(
    links: set<LinkRow>, releases: set<Release>, stateOf: LinkRow -> State,
    workspaceId: string, scopeWorkspace: string, event: string, filters: Filters)
    returns (listing: Listing, ghost visible: seq<LinkRow>)
    requires Keyed(links) && (filters.limit.Some? ==> filters.limit.value >= 1)
    ensures listing.ScopeMismatch? <==> scopeWorkspace != workspaceId
    ensures listing.InvalidCursor? <==> scopeWorkspace == workspaceId && filters.cursor.Undecodable?
    ensures StrictTotal(NewestThenSmallestId)
    ensures listing.Listed? ==>
              var page := PageAt(NewestThenSmallestId, InView(links, releases, workspaceId, event, filters),
                                 filters.cursor.Position(), Limit(filters));
              && visible == page.rows && listing.rows == Filter(Keeps(filters, stateOf), page.rows) && listing.next == page.next
              && AreNewest(visible, listing.next, links, releases, workspaceId, event, filters, Limit(filters))
  {
    hide StrictTotal, AreNewest, InView, NewestThenSmallestId, Filter, Keeps;
    BothOrdersAreStrictAndTotal();
    visible := [];
    if scopeWorkspace != workspaceId {
      return ScopeMismatch, visible;
    }
    if filters.cursor.Undecodable? {
      return InvalidCursor, visible;
    }
    var limit := Limit(filters);
    var clauses := [InWorkspace(workspaceId), InEvent(event)];
    if filters.message.Some? {
      clauses := clauses + [OfBatch(filters.message.value)];
    }
    if filters.person.Some? {
      clauses := clauses + [ForPerson(filters.person.value)];
    }
    if filters.cursor.After? {
      clauses := clauses + [Past(filters.cursor.stamp.at, filters.cursor.stamp.id)];
    }
    var selected := set r | r in links && forall i :: 0 <= i < |clauses| ==> clauses[i].Passes(r, releases);
    SelectionIsTheViewPastTheCursor(links, releases, workspaceId, event, filters, clauses);
    var found := Select(NewestThenSmallestId, selected, limit + 1);
    var shown := found[..if |found| < limit then |found| else limit];
    var rows := MatchingItems(shown, filters, stateOf);
    var hasMore := |found| > limit;
    listing := Listed(rows, if hasMore then Some(found[limit - 1].stamp) else None);
    assert !hasMore ==> shown == found;
    visible := shown;
    PageIsNewest(Page(visible, listing.next), links, releases, workspaceId, event, filters);
  }

  lemma SelectionIsTheViewPastTheCursor(
    links: set<LinkRow>, releases: set<Release>, workspace: string, event: string, filters: Filters, clauses: seq<Clause>)
    requires clauses ==
             [InWorkspace(workspace), InEvent(event)]
             + (if filters.message.Some? then [OfBatch(filters.message.value)] else [])
             + (if filters.person.Some? then [ForPerson(filters.person.value)] else [])
             + (if filters.cursor.After? then [Past(filters.cursor.stamp.at, filters.cursor.stamp.id)] else [])
    ensures (set r | r in links && forall i :: 0 <= i < |clauses| ==> clauses[i].Passes(r, releases)) ==
            Beyond(NewestThenSmallestId, InView(links, releases, workspace, event, filters), filters.cursor.Position())
  {
    forall r: LinkRow
      ensures (forall i :: 0 <= i < |clauses| ==> clauses[i].Passes(r, releases)) <==>
                && Belongs(r, releases, workspace, event, filters)
                && (filters.cursor.After? ==> NewestThenSmallestId(filters.cursor.stamp, r.stamp))
    {
      assert clauses[0] == InWorkspace(workspace) && clauses[1] == InEvent(event);
      if filters.message.Some? {
        assert clauses[2] == OfBatch(filters.message.value);
      }
      if filters.person.Some? {
        assert clauses[if filters.message.Some? then 3 else 2] == ForPerson(filters.person.value);
      }
      if filters.cursor.After? {
        assert clauses[|clauses| - 1] == Past(filters.cursor.stamp.at, filters.cursor.stamp.id);
      }
    }
  }

  // A send that was in the history when the walk began is shown once if it is in the asked-for
  // state when its page is read and not at all otherwise; the state filter never moves the cursor.
  lemma EverySendIsShownExactlyWhenItMatches(
    tables: seq<set<LinkRow>>, releases: seq<set<Release>>, stateOf: seq<LinkRow -> State>,
    workspace: string, event: string, filters: Filters, views: seq<set<LinkRow>>, r: LinkRow)
    returns (k: nat)
    requires Appended(tables) && |releases| == |tables| == |views| == |stateOf|
    requires forall j, k :: 0 <= j <= k < |releases| ==> releases[j] <= releases[k]
    requires filters.limit.Some? ==> filters.limit.value >= 1
    requires forall k :: 0 <= k < |tables| ==> views[k] == InView(tables[k], releases[k], workspace, event, filters)
    requires |tables| > 0 && r in views[0]
    ensures StrictTotal(NewestThenSmallestId) && AppendOnly(views)
    ensures Finished(Walk(NewestThenSmallestId, views, None, Limit(filters))) ==>
              var pages := Walk(NewestThenSmallestId, views, None, Limit(filters));
              var keep := seq(|stateOf|, i requires 0 <= i < |stateOf| => Keeps(filters, stateOf[i]));
              && k < |pages| && r in pages[k].rows
              && (if filters.state.None? || stateOf[k](r) == filters.state.value
                  then ExactlyOnce(Shown(pages, keep), r) else r !in Shown(pages, keep))
  {
    BothOrdersAreStrictAndTotal();
    assert AppendOnly(views) by {
      forall k | 0 <= k < |views|
        ensures Keyed(views[k])
      {
        assert forall r :: r in views[k] ==> r in tables[k];
      }
      forall j, k | 0 <= j <= k < |views|
        ensures views[j] <= views[k]
      {
        assert tables[j] <= tables[k] && releases[j] <= releases[k];
      }
    }
    k := 0;
    if Finished(Walk(NewestThenSmallestId, views, None, Limit(filters))) {
      var keep := seq(|stateOf|, i requires 0 <= i < |stateOf| => Keeps(filters, stateOf[i]));
      k := FilteringLosesNoMatch(NewestThenSmallestId, views, Limit(filters), keep, r);
    }
  }
}
