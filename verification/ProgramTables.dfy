// Model of the versioned aggregates of one event -- vocabulary, schedule, sessions, form references
// and deadlines -- and of the units that change them: d1-program-vocabulary-mutation.ts,
// d1-schedule-placement-mutation.ts, d1-session-mutation.ts, d1-deadline.ts and the publish step of
// d1-program-vocabulary-merge.ts, with the planners they call.
module ProgramTables {
  import opened Wrappers
  import opened AtomicBatch

  type Id = string

  // An absent version row means version 1; a stored one is at least 2.
  datatype Aggregate<+R> = Aggregate(stored: Option<nat>, rows: map<Id, R>) {
    function Version(): nat {
      if stored.Some? then stored.value else 1
    }

    predicate Sound() {
      match stored case None => rows == map[] case Some(v) => v >= 2
    }
  }

  datatype Kind = Room | Track | Format
  datatype Item = Item(kind: Kind, name: string, capacity: Option<nat>, active: bool, version: nat)
  datatype Occurrence = Occurrence(session: Id, room: Id, start: int, end: int, version: nat)
  datatype Lifecycle = Drafted | Collecting | Programmed
  datatype Session = Session(format: Id, track: Option<Id>, lifecycle: Lifecycle, roster: seq<Id>, version: nat)
  datatype Slot = Slot(kind: Kind, item: Id, version: nat)
  datatype Deadline = Deadline(body: string, version: nat)

  // `pins` are the historical references of published forms and submissions; nothing here writes them.
  datatype Db = Db(vocabulary: Aggregate<Item>, schedule: Aggregate<Occurrence>, sessions: Aggregate<Session>,
                   intake: Aggregate<Slot>, deadlines: Aggregate<Deadline>, pins: map<Id, Id>)

  datatype Name = Vocabulary | Schedule | Sessions | Intake | Deadlines

  function VersionOf(s: Db, a: Name): nat {
    match a
    case Vocabulary => s.vocabulary.Version()
    case Schedule => s.schedule.Version()
    case Sessions => s.sessions.Version()
    case Intake => s.intake.Version()
    case Deadlines => s.deadlines.Version()
  }

  function StoredOf(s: Db, a: Name): Option<nat> {
    match a
    case Vocabulary => s.vocabulary.stored
    case Schedule => s.schedule.stored
    case Sessions => s.sessions.stored
    case Intake => s.intake.stored
    case Deadlines => s.deadlines.stored
  }

  function WithStored(s: Db, a: Name, v: nat): Db {
    match a
    case Vocabulary => s.(vocabulary := s.vocabulary.(stored := Some(v)))
    case Schedule => s.(schedule := s.schedule.(stored := Some(v)))
    case Sessions => s.(sessions := s.sessions.(stored := Some(v)))
    case Intake => s.(intake := s.intake.(stored := Some(v)))
    case Deadlines => s.(deadlines := s.deadlines.(stored := Some(v)))
  }

  // ---- Guards ------------------------------------------------------------------------------

  datatype Guard =
    | VersionIs(a: Name, version: nat)
    | ItemAbsent(id: Id)
    | ItemIs(id: Id, item: Item)
    | Unreferenced(id: Id, kind: Kind)
    | OccurrenceAbsent(id: Id)
    | OccurrenceIs(id: Id, occurrence: Occurrence)
    | RoomFree(room: Id, except: Id, start: int, end: int)
    | SessionAbsent(id: Id)
    | SessionIs(id: Id, session: Session)
    | SessionUnplaced(id: Id)

  // Half-open intervals.
  predicate Overlap(a: Occurrence, start: int, end: int) {
    a.start < end && start < a.end
  }

  predicate RoomIsFree(s: Db, room: Id, except: Id, start: int, end: int) {
    forall o :: o in s.schedule.rows && s.schedule.rows[o].room == room && o != except ==>
      !Overlap(s.schedule.rows[o], start, end)
  }

  predicate Placed(s: Db, session: Id) {
    exists o :: o in s.schedule.rows && s.schedule.rows[o].session == session
  }

  // assertUnreferenced: form slots and historical pins always, occurrences for a room, sessions for a
  // track or a format.
  predicate Referenced(s: Db, id: Id, kind: Kind) {
    || (exists k :: k in s.intake.rows && s.intake.rows[k].item == id && s.intake.rows[k].kind == kind)
    || (exists p :: p in s.pins && s.pins[p] == id)
    || (kind == Room && exists o :: o in s.schedule.rows && s.schedule.rows[o].room == id)
    || (kind == Track && exists e :: e in s.sessions.rows && s.sessions.rows[e].track == Some(id))
    || (kind == Format && exists e :: e in s.sessions.rows && s.sessions.rows[e].format == id)
  }

  predicate Holds(g: Guard, s: Db) {
    match g
    case VersionIs(a, v) => StoredOf(s, a) == if v == 1 then None else Some(v)
    case ItemAbsent(id) => id !in s.vocabulary.rows
    case ItemIs(id, item) => id in s.vocabulary.rows && s.vocabulary.rows[id] == item
    case Unreferenced(id, kind) => !Referenced(s, id, kind)
    case OccurrenceAbsent(id) => id !in s.schedule.rows
    case OccurrenceIs(id, o) => id in s.schedule.rows && s.schedule.rows[id] == o
    case RoomFree(room, except, start, end) => RoomIsFree(s, room, except, start, end)
    case SessionAbsent(id) => id !in s.sessions.rows
    case SessionIs(id, e) => id in s.sessions.rows && s.sessions.rows[id] == e
    case SessionUnplaced(id) => !Placed(s, id)
  }

  // ---- Writes ------------------------------------------------------------------------------

  // A repointing loop updates each listed row under its own WHERE clause; rows have distinct ids, so
  // one statement stands for the loop.
  datatype Write =
    | InsertSet(a: Name)
    | UpdateSet(a: Name, from: nat)
    | InsertItem(id: Id, item: Item)
    | UpdateItem(id: Id, version: nat, item: Item)
    | DeleteItem(id: Id, version: nat)
    | InsertOccurrence(id: Id, occurrence: Occurrence)
    | UpdateOccurrence(id: Id, before: Occurrence, occurrence: Occurrence)
    | DeleteOccurrence(id: Id, before: Occurrence)
    | InsertSession(id: Id, session: Session)
    | UpdateSession(id: Id, version: nat, session: Session)
    | DeleteSession(id: Id, version: nat)
    | InsertDeadline(id: Id, deadline: Deadline)
    | UpdateDeadline(id: Id, version: nat, deadline: Deadline)
    | RepointSlots(slots: map<Id, Slot>, to: Id)
    | RepointOccurrences(occurrences: map<Id, Occurrence>, to: Id)
    | RepointSessions(sessions: map<Id, Session>, kind: Kind, to: Id)

  function Retargeted(e: Session, kind: Kind, to: Id): Session {
    if kind == Format then e.(format := to, version := e.version + 1)
    else e.(track := Some(to), version := e.version + 1)
  }

  // INSERT aborts on an existing key; UPDATE and DELETE with a WHERE clause that matches nothing do
  // nothing and succeed.
  function Apply(w: Write, s: Db): Option<Db> {
    match w
    case InsertSet(a) => if StoredOf(s, a).Some? then None else Some(WithStored(s, a, 2))
    case UpdateSet(a, from) => Some(if StoredOf(s, a) == Some(from) then WithStored(s, a, from + 1) else s)
    case InsertItem(id, item) =>
      if id in s.vocabulary.rows then None
      else Some(s.(vocabulary := s.vocabulary.(rows := s.vocabulary.rows[id := item])))
    case UpdateItem(id, version, item) =>
      Some(if id in s.vocabulary.rows && s.vocabulary.rows[id].version == version
           then s.(vocabulary := s.vocabulary.(rows := s.vocabulary.rows[id := item])) else s)
    case DeleteItem(id, version) =>
      Some(if id in s.vocabulary.rows && s.vocabulary.rows[id].version == version
           then s.(vocabulary := s.vocabulary.(rows := s.vocabulary.rows - {id})) else s)
    case InsertOccurrence(id, o) =>
      if id in s.schedule.rows then None
      else Some(s.(schedule := s.schedule.(rows := s.schedule.rows[id := o])))
    case UpdateOccurrence(id, before, o) =>
      Some(if id in s.schedule.rows && SamePlace(s.schedule.rows[id], before)
           then s.(schedule := s.schedule.(rows := s.schedule.rows[id := o])) else s)
    case DeleteOccurrence(id, before) =>
      Some(if id in s.schedule.rows && SamePlace(s.schedule.rows[id], before)
           then s.(schedule := s.schedule.(rows := s.schedule.rows - {id})) else s)
    case InsertSession(id, e) =>
      if id in s.sessions.rows then None
      else Some(s.(sessions := s.sessions.(rows := s.sessions.rows[id := e])))
    case UpdateSession(id, version, e) =>
      Some(if id in s.sessions.rows && s.sessions.rows[id].version == version
           then s.(sessions := s.sessions.(rows := s.sessions.rows[id := e])) else s)
    case DeleteSession(id, version) =>
      Some(if id in s.sessions.rows && s.sessions.rows[id].version == version
           then s.(sessions := s.sessions.(rows := s.sessions.rows - {id})) else s)
    case InsertDeadline(id, d) =>
      if id in s.deadlines.rows then None
      else Some(s.(deadlines := s.deadlines.(rows := s.deadlines.rows[id := d])))
    case UpdateDeadline(id, version, d) =>
      Some(if id in s.deadlines.rows && s.deadlines.rows[id].version == version
           then s.(deadlines := s.deadlines.(rows := s.deadlines.rows[id := d])) else s)
    case RepointSlots(slots, to) =>
      Some(s.(intake := s.intake.(rows := map k | k in s.intake.rows ::
             if k in slots && s.intake.rows[k] == slots[k]
             then s.intake.rows[k].(item := to, version := slots[k].version + 1) else s.intake.rows[k])))
    case RepointOccurrences(occurrences, to) =>
      Some(s.(schedule := s.schedule.(rows := map o | o in s.schedule.rows ::
             if o in occurrences && s.schedule.rows[o].room == occurrences[o].room
                && s.schedule.rows[o].version == occurrences[o].version
             then s.schedule.rows[o].(room := to, version := occurrences[o].version + 1) else s.schedule.rows[o])))
    case RepointSessions(sessions, kind, to) =>
      Some(s.(sessions := s.sessions.(rows := map e | e in s.sessions.rows ::
             if e in sessions && s.sessions.rows[e].version == sessions[e].version
             then Retargeted(sessions[e], kind, to) else s.sessions.rows[e])))
  }

  predicate SamePlace(a: Occurrence, b: Occurrence) {
    a.room == b.room && a.start == b.start && a.end == b.end && a.version == b.version
  }

  const PROGRAM := Engine<Db, Guard, Write>.Engine(Holds, Apply)

  // ---- Requests and their plans ------------------------------------------------------------

  datatype Request =
    | PlaceOccurrence(id: Id, session: Id, room: Id, start: int, end: int, expected: nat)
    | MoveOccurrence(id: Id, room: Id, start: int, end: int, expected: nat, expectedRow: nat)
    | UnplaceOccurrence(id: Id, expected: nat, expectedRow: nat)
    | CreateItem(id: Id, kind: Kind, name: string, capacity: Option<nat>, expected: nat)
    | EditItem(id: Id, kind: Kind, name: string, capacity: Option<nat>, expected: nat, expectedRow: nat)
    | SwitchItem(id: Id, kind: Kind, retire: bool, expected: nat, expectedRow: nat)
    | RemoveItem(id: Id, kind: Kind, expected: nat, expectedRow: nat)
    | CreateSession(id: Id, format: Id, track: Option<Id>, lifecycle: Lifecycle, expected: nat)
    | TargetSession(id: Id, format: Id, track: Option<Id>, lifecycle: Lifecycle, expected: nat, expectedRow: nat)
    | RosterSession(id: Id, roster: seq<Id>, expected: nat, expectedRow: nat)
    | RemoveNewSession(id: Id, expected: nat, expectedRow: nat)
    | CreateDeadline(id: Id, body: string, expected: nat)
    | ChangeDeadline(id: Id, body: string, expected: nat, expectedRow: nat)
    | MergeItems(kind: Kind, source: Id, target: Id, expected: nat, expectedSource: nat, expectedTarget: nat)

  datatype Result = Changed(version: nat) | Refused(code: string)

  type ProgramAction = Action<Guard, Write, Result>
  type ProgramWork = Work<Db, Guard, Write, Result>

  function Refuse(code: string): ProgramAction {
    Finish(Refused(code), [], [])
  }

  // Version 1 inserts the set row before the change; later versions raise it after the change.
  function Versioned(a: Name, v: nat, writes: seq<Write>): seq<Write> {
    if v == 1 then [InsertSet(a)] + writes else writes + [UpdateSet(a, v)]
  }

  predicate ActiveItem(s: Db, kind: Kind, id: Id) {
    id in s.vocabulary.rows && s.vocabulary.rows[id].kind == kind && s.vocabulary.rows[id].active
  }

  predicate HasActiveTrack(s: Db) {
    exists t :: t in s.vocabulary.rows && s.vocabulary.rows[t].kind == Track && s.vocabulary.rows[t].active
  }

  // The three aggregate guards of a schedule change, and those of a session change.
  function ScheduleGuards(m: Db): seq<Guard> {
    [VersionIs(Schedule, VersionOf(m, Schedule)), VersionIs(Sessions, VersionOf(m, Sessions)),
     VersionIs(Vocabulary, VersionOf(m, Vocabulary))]
  }

  function SessionGuards(m: Db): seq<Guard> {
    [VersionIs(Sessions, VersionOf(m, Sessions)), VersionIs(Vocabulary, VersionOf(m, Vocabulary))]
  }

  function SchedulePlan(m: Db, before: Option<Occurrence>, id: Id, session: Id, room: Id, start: int, end: int): ProgramAction {
    var v := VersionOf(m, Schedule);
    if session !in m.sessions.rows || m.sessions.rows[session].lifecycle == Drafted then Refuse("session_missing")
    else if HasActiveTrack(m) && m.sessions.rows[session].track.None? then Refuse("session_track_required")
    else if room !in m.vocabulary.rows || m.vocabulary.rows[room].kind != Room then Refuse("room_missing")
    else if !m.vocabulary.rows[room].active then Refuse("room_retired")
    else if !RoomIsFree(m, room, id, start, end) then Refuse("room_overlap")
    else
      var after := Occurrence(session, room, start, end, if before.Some? then before.value.version + 1 else 1);
      Finish(Changed(v + 1),
             ScheduleGuards(m) + [if before.Some? then OccurrenceIs(id, before.value) else OccurrenceAbsent(id),
                                  RoomFree(room, id, start, end)],
             Versioned(Schedule, v, [if before.Some? then UpdateOccurrence(id, before.value, after)
                                     else InsertOccurrence(id, after)]))
  }

  function ItemPlan(m: Db, id: Id, before: Item, after: Item): ProgramAction {
    var v := VersionOf(m, Vocabulary);
    Finish(Changed(v + 1), [VersionIs(Vocabulary, v), ItemIs(id, before)],
           Versioned(Vocabulary, v, [UpdateItem(id, before.version, after)]))
  }

  // currentTargetEvidence with resolvedTrackId: format and track must exist and be active, and a
  // session past drafting takes the only active track when it names none.
  datatype Target = Target(format: Id, track: Option<Id>) | NoTarget(code: string)

  predicate OnlyActiveTrack(s: Db, t: Id) {
    ActiveItem(s, Track, t) && forall u :: u in s.vocabulary.rows && ActiveItem(s, Track, u) ==> u == t
  }

  function ResolveTarget(s: Db, format: Id, track: Option<Id>, lifecycle: Lifecycle): Target {
    if track.None? && lifecycle != Drafted && HasActiveTrack(s) then
      if exists t :: t in s.vocabulary.rows && OnlyActiveTrack(s, t) then
        var t :| t in s.vocabulary.rows && OnlyActiveTrack(s, t);
        if !ActiveItem(s, Format, format) then NoTarget("format_missing") else Target(format, Some(t))
      else NoTarget("track_required")
    else if !ActiveItem(s, Format, format) then NoTarget("format_missing")
    else if track.Some? && !ActiveItem(s, Track, track.value) then NoTarget("track_missing")
    else Target(format, track)
  }

  function SessionPlan(m: Db, id: Id, before: Option<Session>, after: Session): ProgramAction {
    var v := VersionOf(m, Sessions);
    Finish(Changed(v + 1),
           SessionGuards(m) + [if before.Some? then SessionIs(id, before.value) else SessionAbsent(id)],
           Versioned(Sessions, v, [if before.Some? then UpdateSession(id, before.value.version, after)
                                   else InsertSession(id, after)]))
  }

  // contributorPlan: the live repoints are exactly the current references to the source.
  function SlotsOf(s: Db, kind: Kind, item: Id): map<Id, Slot> {
    map k | k in s.intake.rows && s.intake.rows[k].kind == kind && s.intake.rows[k].item == item :: s.intake.rows[k]
  }

  function OccurrencesIn(s: Db, kind: Kind, item: Id): map<Id, Occurrence> {
    map o | o in s.schedule.rows && kind == Room && s.schedule.rows[o].room == item :: s.schedule.rows[o]
  }

  predicate Targets(e: Session, kind: Kind, item: Id) {
    (kind == Format && e.format == item) || (kind == Track && e.track == Some(item))
  }

  function SessionsOf(s: Db, kind: Kind, item: Id): map<Id, Session> {
    map e | e in s.sessions.rows && Targets(s.sessions.rows[e], kind, item) :: s.sessions.rows[e]
  }

  // resolveSessionTarget refuses the whole merge when the other part of a repointed session is not
  // active any more.
  predicate OtherPartActive(s: Db, e: Session, kind: Kind) {
    if kind == Format then e.track.Some? ==> ActiveItem(s, Track, e.track.value) else ActiveItem(s, Format, e.format)
  }

  predicate SessionsResolve(s: Db, kind: Kind, source: Id) {
    forall e :: e in SessionsOf(s, kind, source) ==> OtherPartActive(s, s.sessions.rows[e], kind)
  }

  function MergePlan(m: Db, kind: Kind, source: Id, target: Id): ProgramAction
    requires source in m.vocabulary.rows && target in m.vocabulary.rows
  {
    var before, v := m.vocabulary.rows[source], VersionOf(m, Vocabulary);
    var slots, occurrences, sessions := SlotsOf(m, kind, source), OccurrencesIn(m, kind, source), SessionsOf(m, kind, source);
    if !SessionsResolve(m, kind, source) then Refuse("stale_reference")
    else
      Finish(Changed(v + 1),
             [VersionIs(Vocabulary, v), VersionIs(Schedule, VersionOf(m, Schedule)),
              VersionIs(Sessions, VersionOf(m, Sessions)), VersionIs(Intake, VersionOf(m, Intake)),
              ItemIs(source, before), ItemIs(target, m.vocabulary.rows[target])],
             [UpdateItem(source, before.version, before.(active := false, version := before.version + 1)),
              UpdateSet(Vocabulary, v)]
             + (if slots == map[] then [] else [RepointSlots(slots, target), UpdateSet(Intake, VersionOf(m, Intake))])
             + (if occurrences == map[] then []
                else [RepointOccurrences(occurrences, target), UpdateSet(Schedule, VersionOf(m, Schedule))])
             + (if sessions == map[] then []
                else [RepointSessions(sessions, kind, target), UpdateSet(Sessions, VersionOf(m, Sessions))]))
  }

  // What a request decides when it has read the tables `m`.
  function Plan(r: Request, m: Db): ProgramAction {
    match r
    case PlaceOccurrence(id, session, room, start, end, expected) =>
      if VersionOf(m, Schedule) != expected then Refuse("stale_schedule")
      else if id in m.schedule.rows then Refuse("occurrence_exists")
      else SchedulePlan(m, None, id, session, room, start, end)
    case MoveOccurrence(id, room, start, end, expected, expectedRow) =>
      if VersionOf(m, Schedule) != expected then Refuse("stale_schedule")
      else if id !in m.schedule.rows then Refuse("occurrence_missing")
      else if m.schedule.rows[id].version != expectedRow then Refuse("stale_occurrence")
      else SchedulePlan(m, Some(m.schedule.rows[id]), id, m.schedule.rows[id].session, room, start, end)
    case UnplaceOccurrence(id, expected, expectedRow) =>
      if VersionOf(m, Schedule) != expected then Refuse("stale_schedule")
      else if id !in m.schedule.rows then Refuse("occurrence_missing")
      else if m.schedule.rows[id].version != expectedRow then Refuse("stale_occurrence")
      else
        Finish(Changed(expected + 1), ScheduleGuards(m) + [OccurrenceIs(id, m.schedule.rows[id])],
               Versioned(Schedule, expected, [DeleteOccurrence(id, m.schedule.rows[id])]))
    case CreateItem(id, kind, name, capacity, expected) =>
      if VersionOf(m, Vocabulary) != expected then Refuse("stale_set")
      else if id in m.vocabulary.rows then Refuse("item_exists")
      else
        Finish(Changed(expected + 1), [VersionIs(Vocabulary, expected), ItemAbsent(id)],
               Versioned(Vocabulary, expected, [InsertItem(id, Item(kind, name, capacity, true, 1))]))
    case EditItem(id, kind, name, capacity, expected, expectedRow) =>
      if VersionOf(m, Vocabulary) != expected then Refuse("stale_set")
      else if id !in m.vocabulary.rows || m.vocabulary.rows[id].kind != kind then Refuse("item_missing")
      else if m.vocabulary.rows[id].version != expectedRow then Refuse("stale_item")
      else ItemPlan(m, id, m.vocabulary.rows[id],
                    m.vocabulary.rows[id].(name := name, capacity := capacity, version := expectedRow + 1))
    case SwitchItem(id, kind, retire, expected, expectedRow) =>
      if VersionOf(m, Vocabulary) != expected then Refuse("stale_set")
      else if id !in m.vocabulary.rows || m.vocabulary.rows[id].kind != kind then Refuse("item_missing")
      else if m.vocabulary.rows[id].version != expectedRow then Refuse("stale_item")
      else if m.vocabulary.rows[id].active != retire then Refuse("invalid_transition")
      else ItemPlan(m, id, m.vocabulary.rows[id], m.vocabulary.rows[id].(active := !retire, version := expectedRow + 1))
    case RemoveItem(id, kind, expected, expectedRow) =>
      if VersionOf(m, Vocabulary) != expected then Refuse("stale_set")
      else if id !in m.vocabulary.rows || m.vocabulary.rows[id].kind != kind then Refuse("item_missing")
      else if m.vocabulary.rows[id].version != expectedRow then Refuse("stale_item")
      else if Referenced(m, id, kind) then Refuse("delete_referenced")
      else
        Finish(Changed(expected + 1),
               [VersionIs(Vocabulary, expected), ItemIs(id, m.vocabulary.rows[id]), Unreferenced(id, kind)],
               Versioned(Vocabulary, expected, [DeleteItem(id, expectedRow)]))
    case CreateSession(id, format, track, lifecycle, expected) =>
      if VersionOf(m, Sessions) != expected then Refuse("stale_catalog")
      else if id in m.sessions.rows then Refuse("session_exists")
      else
        (match ResolveTarget(m, format, track, lifecycle)
         case NoTarget(code) => Refuse(code)
         case Target(f, t) => SessionPlan(m, id, None, Session(f, t, lifecycle, [], 1)))
    case TargetSession(id, format, track, lifecycle, expected, expectedRow) =>
      if VersionOf(m, Sessions) != expected then Refuse("stale_catalog")
      else if id !in m.sessions.rows then Refuse("session_missing")
      else if m.sessions.rows[id].version != expectedRow then Refuse("stale_session")
      else
        (match ResolveTarget(m, format, track, lifecycle)
         case NoTarget(code) => Refuse(code)
         case Target(f, t) =>
           SessionPlan(m, id, Some(m.sessions.rows[id]),
                       Session(f, t, lifecycle, m.sessions.rows[id].roster, expectedRow + 1)))
    case RosterSession(id, roster, expected, expectedRow) =>
      if VersionOf(m, Sessions) != expected then Refuse("stale_catalog")
      else if id !in m.sessions.rows then Refuse("session_missing")
      else if m.sessions.rows[id].version != expectedRow then Refuse("stale_session")
      else SessionPlan(m, id, Some(m.sessions.rows[id]),
                       m.sessions.rows[id].(roster := roster, version := expectedRow + 1))
    case RemoveNewSession(id, expected, expectedRow) =>
      if VersionOf(m, Sessions) != expected then Refuse("stale_catalog")
      else if id !in m.sessions.rows || expectedRow != 1 || m.sessions.rows[id].version != 1
              || m.sessions.rows[id].roster != [] || Placed(m, id) then Refuse("stale_session")
      else
        Finish(Changed(expected + 1),
               SessionGuards(m) + [SessionIs(id, m.sessions.rows[id]), SessionUnplaced(id)],
               Versioned(Sessions, expected, [DeleteSession(id, 1)]))
    case CreateDeadline(id, body, expected) =>
      if VersionOf(m, Deadlines) != expected then Refuse("stale_catalog")
      else if id in m.deadlines.rows then Refuse("deadline_exists")
      else Finish(Changed(expected + 1), [VersionIs(Deadlines, expected)],
                  Versioned(Deadlines, expected, [InsertDeadline(id, Deadline(body, 1))]))
    case ChangeDeadline(id, body, expected, expectedRow) =>
      if VersionOf(m, Deadlines) != expected then Refuse("stale_catalog")
      else if id !in m.deadlines.rows then Refuse("deadline_missing")
      else if m.deadlines.rows[id].version != expectedRow then Refuse("stale_deadline")
      else Finish(Changed(expected + 1), [VersionIs(Deadlines, expected)],
                  Versioned(Deadlines, expected, [UpdateDeadline(id, expectedRow, Deadline(body, expectedRow + 1))]))
    case MergeItems(kind, source, target, expected, expectedSource, expectedTarget) =>
      if VersionOf(m, Vocabulary) != expected then Refuse("stale_set")
      else if source == target then Refuse("invalid_merge")
      else if source !in m.vocabulary.rows || m.vocabulary.rows[source].kind != kind
              || target !in m.vocabulary.rows || m.vocabulary.rows[target].kind != kind then Refuse("item_missing")
      else if m.vocabulary.rows[source].version != expectedSource
              || m.vocabulary.rows[target].version != expectedTarget then Refuse("stale_item")
      else if !m.vocabulary.rows[target].active then Refuse("invalid_merge")
      else MergePlan(m, kind, source, target)
  }

  // Each table is read on its own, so what a unit plans on may never have existed as one state.
  function Seen(seen: seq<Db>): Db
    requires |seen| >= 5
  {
    Db(seen[0].vocabulary, seen[1].schedule, seen[2].sessions, seen[3].intake, seen[4].deadlines, seen[3].pins)
  }

  function WorkOf(r: Request): ProgramWork {
    Work(5, (seen: seq<Db>) => if |seen| < 5 then ReadMore else Plan(r, Seen(seen)))
  }
}
