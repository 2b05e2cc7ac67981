// What a program request checks and what it stores, row by row: the checks in their order with their
// codes, and the rows a committed request leaves, both told from the stored rows alone.
module ProgramRecords {
  import opened Wrappers
  import opened AtomicBatch
  import opened Serializability
  import opened ProgramTables
  import opened ProgramSafety
  import opened ProgramEffects

  // ---- The checks ----------------------------------------------------------------------------

  // One check of a chain: the code if it fails, otherwise what the checks after it say.
  function Unless(holds: bool, code: string, rest: Option<string>): Option<string> {
    if holds then rest else Some(code)
  }

  predicate Stands<R>(a: Aggregate<R>, version: nat) {
    (version == 1 && a.stored.None?) || (version >= 2 && a.stored == Some(version))
  }

  predicate Usable(s: Db, kind: Kind, id: Id) {
    id in s.vocabulary.rows && s.vocabulary.rows[id].kind == kind && s.vocabulary.rows[id].active
  }

  function UsableTracks(s: Db): set<Id> {
    set t | t in s.vocabulary.rows && s.vocabulary.rows[t].kind == Track && s.vocabulary.rows[t].active
  }

  predicate HasRow<R>(rows: map<Id, R>, id: Id, holds: R -> bool) {
    id in rows && holds(rows[id])
  }

  predicate NothingOverlaps(s: Db, room: Id, except: Id, start: int, end: int) {
    forall o | o in s.schedule.rows && o != except && s.schedule.rows[o].room == room ::
      s.schedule.rows[o].end <= start || end <= s.schedule.rows[o].start
  }

  function PlaceRefusal(s: Db, id: Id, session: Id, room: Id, start: int, end: int): Option<string> {
    Unless(HasRow(s.sessions.rows, session, (e: Session) => e.lifecycle != Drafted), "session_missing",
    Unless(UsableTracks(s) == {} || HasRow(s.sessions.rows, session, (e: Session) => e.track.Some?), "session_track_required",
    Unless(HasRow(s.vocabulary.rows, room, (i: Item) => i.kind == Room), "room_missing",
    Unless(Usable(s, Room, room), "room_retired",
    Unless(NothingOverlaps(s, room, id, start, end), "room_overlap", None)))))
  }

  // A session past drafting that names no track takes the only usable one.
  function TargetRefusal(s: Db, format: Id, track: Option<Id>, lifecycle: Lifecycle): Option<string> {
    Unless(track.Some? || lifecycle == Drafted || |UsableTracks(s)| <= 1, "track_required",
    Unless(Usable(s, Format, format), "format_missing",
    Unless(track.None? || Usable(s, Track, track.value), "track_missing", None)))
  }

  function ItemRefusal(s: Db, id: Id, kind: Kind, expected: nat, expectedRow: nat, rest: Option<string>): Option<string> {
    Unless(Stands(s.vocabulary, expected), "stale_set",
    Unless(HasRow(s.vocabulary.rows, id, (i: Item) => i.kind == kind), "item_missing",
    Unless(HasRow(s.vocabulary.rows, id, (i: Item) => i.version == expectedRow), "stale_item", rest)))
  }

  // Form slots and pins name an item whatever its kind; occurrences name rooms, sessions the others.
  predicate Named(s: Db, id: Id, kind: Kind) {
    || (exists k | k in s.intake.rows :: s.intake.rows[k].item == id && s.intake.rows[k].kind == kind)
    || (exists p | p in s.pins :: s.pins[p] == id)
    || (kind == Room && exists o | o in s.schedule.rows :: s.schedule.rows[o].room == id)
    || (kind == Track && exists e | e in s.sessions.rows :: s.sessions.rows[e].track == Some(id))
    || (kind == Format && exists e | e in s.sessions.rows :: s.sessions.rows[e].format == id)
  }

  predicate Shown(s: Db, session: Id) {
    exists o | o in s.schedule.rows :: s.schedule.rows[o].session == session
  }

  // Every session that would move keeps another part that is still usable.
  predicate OtherPartsUsable(s: Db, kind: Kind, source: Id) {
    forall e | e in s.sessions.rows ::
      var row := s.sessions.rows[e];
      && (kind == Format && row.format == source && row.track.Some? ==> Usable(s, Track, row.track.value))
      && (kind == Track && row.track == Some(source) ==> Usable(s, Format, row.format))
  }

  // The code of the first check a request fails, or none.
  function RefusalOf(r: Request, s: Db): Option<string> {
    match r
    case PlaceOccurrence(id, session, room, start, end, expected) =>
      Unless(Stands(s.schedule, expected), "stale_schedule",
      Unless(id !in s.schedule.rows, "occurrence_exists", PlaceRefusal(s, id, session, room, start, end)))
    case MoveOccurrence(id, room, start, end, expected, expectedRow) =>
      Unless(Stands(s.schedule, expected), "stale_schedule",
      Unless(id in s.schedule.rows, "occurrence_missing",
      Unless(HasRow(s.schedule.rows, id, (o: Occurrence) => o.version == expectedRow), "stale_occurrence",
             PlaceRefusal(s, id, if id in s.schedule.rows then s.schedule.rows[id].session else "", room, start, end))))
    case UnplaceOccurrence(id, expected, expectedRow) =>
      Unless(Stands(s.schedule, expected), "stale_schedule",
      Unless(id in s.schedule.rows, "occurrence_missing",
      Unless(HasRow(s.schedule.rows, id, (o: Occurrence) => o.version == expectedRow), "stale_occurrence", None)))
    case CreateItem(id, kind, name, capacity, expected) =>
      Unless(Stands(s.vocabulary, expected), "stale_set", Unless(id !in s.vocabulary.rows, "item_exists", None))
    case EditItem(id, kind, name, capacity, expected, expectedRow) => ItemRefusal(s, id, kind, expected, expectedRow, None)
    case SwitchItem(id, kind, retire, expected, expectedRow) =>
      ItemRefusal(s, id, kind, expected, expectedRow,
                  Unless(HasRow(s.vocabulary.rows, id, (i: Item) => i.active == retire), "invalid_transition", None))
    case RemoveItem(id, kind, expected, expectedRow) =>
      ItemRefusal(s, id, kind, expected, expectedRow, Unless(!Named(s, id, kind), "delete_referenced", None))
    case CreateSession(id, format, track, lifecycle, expected) =>
      Unless(Stands(s.sessions, expected), "stale_catalog",
      Unless(id !in s.sessions.rows, "session_exists", TargetRefusal(s, format, track, lifecycle)))
    case TargetSession(id, format, track, lifecycle, expected, expectedRow) =>
      Unless(Stands(s.sessions, expected), "stale_catalog",
      Unless(id in s.sessions.rows, "session_missing",
      Unless(HasRow(s.sessions.rows, id, (e: Session) => e.version == expectedRow), "stale_session",
             TargetRefusal(s, format, track, lifecycle))))
    case RosterSession(id, roster, expected, expectedRow) =>
      Unless(Stands(s.sessions, expected), "stale_catalog",
      Unless(id in s.sessions.rows, "session_missing",
      Unless(HasRow(s.sessions.rows, id, (e: Session) => e.version == expectedRow), "stale_session", None)))
    case RemoveNewSession(id, expected, expectedRow) =>
      Unless(Stands(s.sessions, expected), "stale_catalog",
      Unless(expectedRow == 1 && HasRow(s.sessions.rows, id, (e: Session) => e.version == 1 && e.roster == []) && !Shown(s, id),
             "stale_session", None))
    case CreateDeadline(id, body, expected) =>
      Unless(Stands(s.deadlines, expected), "stale_catalog", Unless(id !in s.deadlines.rows, "deadline_exists", None))
    case ChangeDeadline(id, body, expected, expectedRow) =>
      Unless(Stands(s.deadlines, expected), "stale_catalog",
      Unless(id in s.deadlines.rows, "deadline_missing",
      Unless(HasRow(s.deadlines.rows, id, (d: Deadline) => d.version == expectedRow), "stale_deadline", None)))
    case MergeItems(kind, source, target, expected, expectedSource, expectedTarget) =>
      Unless(Stands(s.vocabulary, expected), "stale_set",
      Unless(source != target, "invalid_merge",
      Unless(HasRow(s.vocabulary.rows, source, (i: Item) => i.kind == kind)
             && HasRow(s.vocabulary.rows, target, (i: Item) => i.kind == kind), "item_missing",
      Unless(HasRow(s.vocabulary.rows, source, (i: Item) => i.version == expectedSource)
             && HasRow(s.vocabulary.rows, target, (i: Item) => i.version == expectedTarget), "stale_item",
      Unless(Usable(s, kind, target), "invalid_merge",
      Unless(OtherPartsUsable(s, kind, source), "stale_reference", None))))))
  }

  // ---- The rows --------------------------------------------------------------------------------

  // The track a session gets: the named one, none in a draft, otherwise the only usable one if any.
  predicate Takes(s: Db, track: Option<Id>, lifecycle: Lifecycle, taken: Option<Id>) {
    if track.Some? || lifecycle == Drafted then taken == track
    else match taken case None => UsableTracks(s) == {} case Some(t) => UsableTracks(s) == {t}
  }

  predicate Turned<R(==)>(before: Aggregate<R>, rows: map<Id, R>, expected: nat, after: Aggregate<R>) {
    Stands(before, expected) && after == Aggregate(Some(expected + 1), rows)
  }

  predicate MovedRows<R(==)>(before: Aggregate<R>, after: Aggregate<R>, moves: R -> bool, moved: R -> R) {
    if exists k | k in before.rows :: moves(before.rows[k]) then
      && after.rows.Keys == before.rows.Keys && after.stored == Some(before.Version() + 1)
      && forall k | k in before.rows :: after.rows[k] == if moves(before.rows[k]) then moved(before.rows[k]) else before.rows[k]
    else after == before
  }

  ghost predicate Merges(s: Db, kind: Kind, source: Id, target: Id, expected: nat, t: Db) {
    && source in s.vocabulary.rows
    && var i := s.vocabulary.rows[source];
       && Turned(s.vocabulary, s.vocabulary.rows[source := Item(i.kind, i.name, i.capacity, false, i.version + 1)], expected, t.vocabulary)
       && MovedRows(s.intake, t.intake, (x: Slot) => x.kind == kind && x.item == source,
                    (x: Slot) => Slot(x.kind, target, x.version + 1))
       && MovedRows(s.schedule, t.schedule, (o: Occurrence) => kind == Room && o.room == source,
                    (o: Occurrence) => Occurrence(o.session, target, o.start, o.end, o.version + 1))
       && MovedRows(s.sessions, t.sessions,
                    (e: Session) => (kind == Format && e.format == source) || (kind == Track && e.track == Some(source)),
                    (e: Session) => Session(if kind == Format then target else e.format,
                                            if kind == Track then Some(target) else e.track,
                                            e.lifecycle, e.roster, e.version + 1))
       && t.deadlines == s.deadlines && t.pins == s.pins
  }

  // What an accepted request makes of the tables: its own row, the version of its aggregate, and
  // nothing else.
  ghost predicate Stores(r: Request, s: Db, t: Db) {
    match r
    case PlaceOccurrence(id, session, room, start, end, expected) =>
      && Turned(s.schedule, s.schedule.rows[id := Occurrence(session, room, start, end, 1)], expected, t.schedule)
      && t == s.(schedule := t.schedule)
    case MoveOccurrence(id, room, start, end, expected, expectedRow) =>
      && id in s.schedule.rows
      && Turned(s.schedule, s.schedule.rows[id := Occurrence(s.schedule.rows[id].session, room, start, end, expectedRow + 1)],
                expected, t.schedule)
      && t == s.(schedule := t.schedule)
    case UnplaceOccurrence(id, expected, _) =>
      Turned(s.schedule, s.schedule.rows - {id}, expected, t.schedule) && t == s.(schedule := t.schedule)
    case CreateItem(id, kind, name, capacity, expected) =>
      && Turned(s.vocabulary, s.vocabulary.rows[id := Item(kind, name, capacity, true, 1)], expected, t.vocabulary)
      && t == s.(vocabulary := t.vocabulary)
    case EditItem(id, kind, name, capacity, expected, expectedRow) =>
      && id in s.vocabulary.rows
      && Turned(s.vocabulary, s.vocabulary.rows[id := Item(kind, name, capacity, s.vocabulary.rows[id].active, expectedRow + 1)],
                expected, t.vocabulary)
      && t == s.(vocabulary := t.vocabulary)
    case SwitchItem(id, kind, retire, expected, expectedRow) =>
      && id in s.vocabulary.rows
      && var i := s.vocabulary.rows[id];
         && Turned(s.vocabulary, s.vocabulary.rows[id := Item(kind, i.name, i.capacity, !retire, expectedRow + 1)],
                   expected, t.vocabulary)
         && t == s.(vocabulary := t.vocabulary)
    case RemoveItem(id, _, expected, _) =>
      Turned(s.vocabulary, s.vocabulary.rows - {id}, expected, t.vocabulary) && t == s.(vocabulary := t.vocabulary)
    case CreateSession(id, format, track, lifecycle, expected) =>
      && t == s.(sessions := t.sessions) && id in t.sessions.rows
      && var e := t.sessions.rows[id];
         && e == Session(format, e.track, lifecycle, [], 1) && Takes(s, track, lifecycle, e.track)
         && Turned(s.sessions, s.sessions.rows[id := e], expected, t.sessions)
    case TargetSession(id, format, track, lifecycle, expected, expectedRow) =>
      && t == s.(sessions := t.sessions) && id in s.sessions.rows && id in t.sessions.rows
      && var e := t.sessions.rows[id];
         && e == Session(format, e.track, lifecycle, s.sessions.rows[id].roster, expectedRow + 1)
         && Takes(s, track, lifecycle, e.track)
         && Turned(s.sessions, s.sessions.rows[id := e], expected, t.sessions)
    case RosterSession(id, roster, expected, expectedRow) =>
      && id in s.sessions.rows
      && var e := s.sessions.rows[id];
         && Turned(s.sessions, s.sessions.rows[id := Session(e.format, e.track, e.lifecycle, roster, expectedRow + 1)],
                   expected, t.sessions)
         && t == s.(sessions := t.sessions)
    case RemoveNewSession(id, expected, _) =>
      Turned(s.sessions, s.sessions.rows - {id}, expected, t.sessions) && t == s.(sessions := t.sessions)
    case CreateDeadline(id, body, expected) =>
      && Turned(s.deadlines, s.deadlines.rows[id := Deadline(body, 1)], expected, t.deadlines)
      && t == s.(deadlines := t.deadlines)
    case ChangeDeadline(id, body, expected, expectedRow) =>
      && Turned(s.deadlines, s.deadlines.rows[id := Deadline(body, expectedRow + 1)], expected, t.deadlines)
      && t == s.(deadlines := t.deadlines)
    case MergeItems(kind, source, target, expected, _, _) => Merges(s, kind, source, target, expected, t)
  }

  // ---- Resolving a target ----------------------------------------------------------------------

  // A draft and a named track are taken as they come; otherwise the usable tracks decide.
  lemma OpenTrackIsResolved(s: Db, format: Id)
    returns (only: Option<Id>)
    ensures HasActiveTrack(s) <==> UsableTracks(s) != {}
    ensures only.Some? <==> |UsableTracks(s)| == 1
    ensures only.Some? ==> UsableTracks(s) == {only.value} && only.value in s.vocabulary.rows
    ensures forall t :: t in s.vocabulary.rows && OnlyActiveTrack(s, t) <==> only == Some(t)
  {
    var tracks := UsableTracks(s);
    forall t | t in s.vocabulary.rows && OnlyActiveTrack(s, t) ensures tracks == {t} {
      assert t in tracks;
      assert forall u :: u in tracks ==> ActiveItem(s, Track, u);
    }
    if |tracks| == 1 {
      var t :| t in tracks;
      assert |tracks - {t}| == 0;
      assert tracks == {t};
      only := Some(t);
      forall u | u in s.vocabulary.rows && ActiveItem(s, Track, u) ensures u == t { assert u in tracks; }
    } else {
      only := None;
    }
    if HasActiveTrack(s) {
      var t :| t in s.vocabulary.rows && s.vocabulary.rows[t].kind == Track && s.vocabulary.rows[t].active;
      assert t in tracks;
    }
  }

  lemma TargetIsResolved(s: Db, format: Id, track: Option<Id>, lifecycle: Lifecycle)
    ensures var target := ResolveTarget(s, format, track, lifecycle);
            match TargetRefusal(s, format, track, lifecycle)
            case Some(code) => target == NoTarget(code)
            case None => target.Target? && target.format == format && Takes(s, track, lifecycle, target.track)
  {
    var only := OpenTrackIsResolved(s, format);
    hide UsableTracks, HasActiveTrack, OnlyActiveTrack;
    assert |UsableTracks(s)| == 0 <==> UsableTracks(s) == {};
  }

  // ---- The checks decide -------------------------------------------------------------------------

  // Accepted with the next version exactly when no check fails, otherwise refused with the code of
  // the first one that does, and nothing is written.
  ghost predicate Decided(refusal: Option<string>, action: ProgramAction, expected: nat) {
    match refusal
    case Some(code) => action == Finish(Refused(code), [], [])
    case None => Writes(action) && action.value == Changed(expected + 1)
  }

  ghost predicate AllSound(s: Db) {
    s.vocabulary.Sound() && s.schedule.Sound() && s.sessions.Sound() && s.intake.Sound() && s.deadlines.Sound()
  }

  lemma ScheduleChecksDecide(r: Request, s: Db)
    requires (r.PlaceOccurrence? || r.MoveOccurrence? || r.UnplaceOccurrence?) && AllSound(s)
    ensures Decided(RefusalOf(r, s), Plan(r, s), r.expected)
  {
    assert HasActiveTrack(s) <==> UsableTracks(s) != {} by { var only := OpenTrackIsResolved(s, ""); }
    forall room, except, start, end
      ensures RoomIsFree(s, room, except, start, end) <==> NothingOverlaps(s, room, except, start, end)
    {
    }
    hide HasActiveTrack, UsableTracks, RoomIsFree, NothingOverlaps;
  }

  lemma SessionChecksDecide(r: Request, s: Db)
    requires (r.CreateSession? || r.TargetSession? || r.RosterSession? || r.RemoveNewSession?) && AllSound(s)
    ensures Decided(RefusalOf(r, s), Plan(r, s), r.expected)
  {
    if r.CreateSession? || r.TargetSession? { TargetIsResolved(s, r.format, r.track, r.lifecycle); }
    if r.RemoveNewSession? { assert Placed(s, r.id) <==> Shown(s, r.id); }
    hide ResolveTarget, TargetRefusal, Placed, Shown;
  }

  lemma ItemChecksDecide(r: Request, s: Db)
    requires r.CreateItem? || r.EditItem? || r.SwitchItem? || r.RemoveItem? || r.CreateDeadline? || r.ChangeDeadline?
    requires AllSound(s)
    ensures Decided(RefusalOf(r, s), Plan(r, s), r.expected)
  {
    if r.RemoveItem? { assert Referenced(s, r.id, r.kind) <==> Named(s, r.id, r.kind); }
    hide Referenced, Named;
  }

  lemma MergeChecksDecide(r: Request, s: Db)
    requires r.MergeItems? && AllSound(s)
    ensures Decided(RefusalOf(r, s), Plan(r, s), r.expected)
  {
    assert SessionsResolve(s, r.kind, r.source) <==> OtherPartsUsable(s, r.kind, r.source);
    hide SessionsResolve, OtherPartsUsable, SlotsOf, OccurrencesIn, SessionsOf;
  }

  lemma ChecksDecide(r: Request, s: Db)
    requires Consistent(s)
    ensures Decided(RefusalOf(r, s), Plan(r, s), r.expected)
  {
    hide Plan, RefusalOf, Decided, References;
    match r
    case PlaceOccurrence(_, _, _, _, _, _) => ScheduleChecksDecide(r, s);
    case MoveOccurrence(_, _, _, _, _, _) => ScheduleChecksDecide(r, s);
    case UnplaceOccurrence(_, _, _) => ScheduleChecksDecide(r, s);
    case CreateSession(_, _, _, _, _) => SessionChecksDecide(r, s);
    case TargetSession(_, _, _, _, _, _) => SessionChecksDecide(r, s);
    case RosterSession(_, _, _, _) => SessionChecksDecide(r, s);
    case RemoveNewSession(_, _, _) => SessionChecksDecide(r, s);
    case MergeItems(_, _, _, _, _, _) => MergeChecksDecide(r, s);
    case _ => ItemChecksDecide(r, s);
  }

  // ---- The rows are stored -----------------------------------------------------------------------

  lemma ScheduleRowsAreStored(r: Request, s: Db)
    requires (r.PlaceOccurrence? || r.MoveOccurrence? || r.UnplaceOccurrence?) && AllSound(s) && Writes(Plan(r, s))
    ensures Stores(r, s, After(r, s))
  {
    hide HasActiveTrack, RoomIsFree;
  }

  lemma SessionRowsAreStored(r: Request, s: Db)
    requires r.CreateSession? || r.TargetSession? || r.RosterSession? || r.RemoveNewSession?
    requires AllSound(s) && Writes(Plan(r, s))
    ensures Stores(r, s, After(r, s))
  {
    if r.CreateSession? || r.TargetSession? { TargetIsResolved(s, r.format, r.track, r.lifecycle); }
    hide ResolveTarget, TargetRefusal, Takes, Placed;
  }

  lemma ItemRowsAreStored(r: Request, s: Db)
    requires r.CreateItem? || r.EditItem? || r.SwitchItem? || r.RemoveItem? || r.CreateDeadline? || r.ChangeDeadline?
    requires AllSound(s) && Writes(Plan(r, s))
    ensures Stores(r, s, After(r, s))
  {
    hide Referenced;
  }

  lemma MovedSlots(s: Db, kind: Kind, source: Id, target: Id)
    requires source in s.vocabulary.rows
    ensures MovedRows(s.intake, MergedState(s, kind, source, target).intake, (x: Slot) => x.kind == kind && x.item == source,
                      (x: Slot) => Slot(x.kind, target, x.version + 1))
  {
    var slots := SlotsOf(s, kind, source);
    assert forall k | k in s.intake.rows :: s.intake.rows[k].kind == kind && s.intake.rows[k].item == source <==> k in slots;
    if slots != map[] {
      var k :| k in slots;
    }
  }

  lemma MovedOccurrences(s: Db, kind: Kind, source: Id, target: Id)
    requires source in s.vocabulary.rows
    ensures MovedRows(s.schedule, MergedState(s, kind, source, target).schedule,
                      (o: Occurrence) => kind == Room && o.room == source,
                      (o: Occurrence) => Occurrence(o.session, target, o.start, o.end, o.version + 1))
  {
    var occurrences := OccurrencesIn(s, kind, source);
    assert forall o | o in s.schedule.rows :: kind == Room && s.schedule.rows[o].room == source <==> o in occurrences;
    if occurrences != map[] {
      var o :| o in occurrences;
    }
  }

  lemma MovedSessions(s: Db, kind: Kind, source: Id, target: Id)
    requires source in s.vocabulary.rows
    ensures MovedRows(s.sessions, MergedState(s, kind, source, target).sessions,
                      (e: Session) => (kind == Format && e.format == source) || (kind == Track && e.track == Some(source)),
                      (e: Session) => Session(if kind == Format then target else e.format,
                                              if kind == Track then Some(target) else e.track,
                                              e.lifecycle, e.roster, e.version + 1))
  {
    var sessions := SessionsOf(s, kind, source);
    assert forall e | e in s.sessions.rows :: Targets(s.sessions.rows[e], kind, source) <==> e in sessions;
    if sessions != map[] {
      var e :| e in sessions;
    }
  }

  lemma MergedRows(s: Db, kind: Kind, source: Id, target: Id, expected: nat)
    requires AllSound(s) && source in s.vocabulary.rows && Stands(s.vocabulary, expected)
    ensures Merges(s, kind, source, target, expected, MergedState(s, kind, source, target))
  {
    MovedSlots(s, kind, source, target);
    MovedOccurrences(s, kind, source, target);
    MovedSessions(s, kind, source, target);
    hide MovedRows, SlotsOf, OccurrencesIn, SessionsOf;
  }

  lemma MergeIsStored(r: Request, s: Db)
    requires r.MergeItems? && AllSound(s) && Writes(Plan(r, s))
    ensures Stores(r, s, After(r, s))
  {
    hide MergePlan, Merges, MergedState;
    MergedRows(s, r.kind, r.source, r.target, r.expected);
  }

  lemma AcceptedRowsAreStored(r: Request, s: Db)
    requires Consistent(s) && Writes(Plan(r, s))
    ensures Stores(r, s, After(r, s))
  {
    hide Plan, Stores, After, References;
    match r
    case PlaceOccurrence(_, _, _, _, _, _) => ScheduleRowsAreStored(r, s);
    case MoveOccurrence(_, _, _, _, _, _) => ScheduleRowsAreStored(r, s);
    case UnplaceOccurrence(_, _, _) => ScheduleRowsAreStored(r, s);
    case CreateSession(_, _, _, _, _) => SessionRowsAreStored(r, s);
    case TargetSession(_, _, _, _, _, _) => SessionRowsAreStored(r, s);
    case RosterSession(_, _, _, _) => SessionRowsAreStored(r, s);
    case RemoveNewSession(_, _, _) => SessionRowsAreStored(r, s);
    case MergeItems(_, _, _, _, _, _) => MergeIsStored(r, s);
    case _ => ItemRowsAreStored(r, s);
  }

  // From any scattered reads: a request that commits fails no check at the state it commits at, stores
  // exactly its rows there, and answers the next version.
  lemma CommittedRequestStores(r: Request, seen: seq<Db>, s: Db, s': Db)
    requires Consistent(s) && (forall i :: 0 <= i < |seen| ==> Later(seen[i], s))
    requires CommitsTo(PROGRAM, WorkOf(r), seen, s, s')
    ensures RefusalOf(r, s) == None && Stores(r, s, s') && WorkOf(r).decide(seen).value == Changed(r.expected + 1)
  {
    hide Consistent, Later, Stores, RefusalOf, After, Hits;
    UnitCommits(r, seen, s, s');
    AcceptedRowsAreStored(r, s);
    ChecksDecide(r, s);
    hide Plan;
  }
}
