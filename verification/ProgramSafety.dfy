// What the units of ProgramTables keep under every interleaving: an aggregate's version pins all of
// its rows, every buffered statement hits its row, references never dangle and rooms never overlap.
module ProgramSafety {
  import opened Wrappers
  import opened AtomicBatch
  import opened Serializability
  import opened ProgramTables

  // ---- Versions pin aggregates -------------------------------------------------------------

  ghost predicate AggregateLater<R>(r: Aggregate<R>, s: Aggregate<R>) {
    r.Version() <= s.Version() && (r.Version() == s.Version() ==> r == s)
  }

  // Equal version, equal aggregate: the whole row set, not just the version row.
  ghost predicate Later(r: Db, s: Db) {
    && AggregateLater(r.vocabulary, s.vocabulary) && AggregateLater(r.schedule, s.schedule)
    && AggregateLater(r.sessions, s.sessions) && AggregateLater(r.intake, s.intake)
    && AggregateLater(r.deadlines, s.deadlines) && r.pins == s.pins
  }

  lemma LaterIsAnOrder()
    ensures Order(Later)
  {
  }

  // Every occurrence stands in an existing room and shows an existing session; every session names
  // an existing format and track.
  ghost predicate References(s: Db) {
    && (forall o :: o in s.schedule.rows ==>
          && s.schedule.rows[o].room in s.vocabulary.rows && s.vocabulary.rows[s.schedule.rows[o].room].kind == Room
          && s.schedule.rows[o].session in s.sessions.rows)
    && (forall e :: e in s.sessions.rows ==> SessionTargetsExist(s, s.sessions.rows[e]))
  }

  predicate SessionTargetsExist(s: Db, e: Session) {
    && e.format in s.vocabulary.rows && s.vocabulary.rows[e.format].kind == Format
    && (e.track.Some? ==> e.track.value in s.vocabulary.rows && s.vocabulary.rows[e.track.value].kind == Track)
  }

  ghost predicate Consistent(s: Db) {
    && s.vocabulary.Sound() && s.schedule.Sound() && s.sessions.Sound() && s.intake.Sound() && s.deadlines.Sound()
    && References(s)
  }

  // ---- The planned after-state -------------------------------------------------------------

  function Raised<R>(a: Aggregate<R>, rows: map<Id, R>): Aggregate<R> {
    Aggregate(Some(a.Version() + 1), rows)
  }

  function MergedSlots(s: Db, kind: Kind, source: Id, target: Id): map<Id, Slot> {
    map k | k in s.intake.rows ::
      if k in SlotsOf(s, kind, source) then s.intake.rows[k].(item := target, version := s.intake.rows[k].version + 1)
      else s.intake.rows[k]
  }

  function MergedOccurrences(s: Db, kind: Kind, source: Id, target: Id): map<Id, Occurrence> {
    map o | o in s.schedule.rows ::
      if o in OccurrencesIn(s, kind, source)
      then s.schedule.rows[o].(room := target, version := s.schedule.rows[o].version + 1) else s.schedule.rows[o]
  }

  function MergedSessions(s: Db, kind: Kind, source: Id, target: Id): map<Id, Session> {
    map e | e in s.sessions.rows ::
      if e in SessionsOf(s, kind, source) then Retargeted(s.sessions.rows[e], kind, target) else s.sessions.rows[e]
  }

  function MergedState(s: Db, kind: Kind, source: Id, target: Id): Db
    requires source in s.vocabulary.rows
  {
    var before := s.vocabulary.rows[source];
    s.(vocabulary := Raised(s.vocabulary, s.vocabulary.rows[source := before.(active := false, version := before.version + 1)]),
       intake := if SlotsOf(s, kind, source) == map[] then s.intake
                 else Raised(s.intake, MergedSlots(s, kind, source, target)),
       schedule := if OccurrencesIn(s, kind, source) == map[] then s.schedule
                   else Raised(s.schedule, MergedOccurrences(s, kind, source, target)),
       sessions := if SessionsOf(s, kind, source) == map[] then s.sessions
                   else Raised(s.sessions, MergedSessions(s, kind, source, target)))
  }

  function WithOccurrence(s: Db, id: Id, o: Occurrence): Db {
    s.(schedule := Raised(s.schedule, s.schedule.rows[id := o]))
  }

  function WithItem(s: Db, id: Id, item: Item): Db {
    s.(vocabulary := Raised(s.vocabulary, s.vocabulary.rows[id := item]))
  }

  function WithSession(s: Db, id: Id, e: Session): Db {
    s.(sessions := Raised(s.sessions, s.sessions.rows[id := e]))
  }

  function WithDeadline(s: Db, id: Id, d: Deadline): Db {
    s.(deadlines := Raised(s.deadlines, s.deadlines.rows[id := d]))
  }

  // What an accepted request makes of the tables it was planned on.
  function After(r: Request, s: Db): Db {
    match r
    case PlaceOccurrence(id, session, room, start, end, _) => WithOccurrence(s, id, Occurrence(session, room, start, end, 1))
    case MoveOccurrence(id, room, start, end, _, row) =>
      if id in s.schedule.rows then
        WithOccurrence(s, id, Occurrence(s.schedule.rows[id].session, room, start, end, row + 1)) else s
    case UnplaceOccurrence(id, _, _) => s.(schedule := Raised(s.schedule, s.schedule.rows - {id}))
    case CreateItem(id, kind, name, capacity, _) => WithItem(s, id, Item(kind, name, capacity, true, 1))
    case EditItem(id, _, name, capacity, _, row) =>
      if id in s.vocabulary.rows then
        WithItem(s, id, s.vocabulary.rows[id].(name := name, capacity := capacity, version := row + 1)) else s
    case SwitchItem(id, _, retire, _, row) =>
      if id in s.vocabulary.rows then WithItem(s, id, s.vocabulary.rows[id].(active := !retire, version := row + 1)) else s
    case RemoveItem(id, _, _, _) => s.(vocabulary := Raised(s.vocabulary, s.vocabulary.rows - {id}))
    case CreateSession(id, format, track, lifecycle, _) =>
      (match ResolveTarget(s, format, track, lifecycle)
       case Target(f, t) => WithSession(s, id, Session(f, t, lifecycle, [], 1))
       case NoTarget(_) => s)
    case TargetSession(id, format, track, lifecycle, _, row) =>
      (match ResolveTarget(s, format, track, lifecycle)
       case Target(f, t) =>
         if id in s.sessions.rows then WithSession(s, id, Session(f, t, lifecycle, s.sessions.rows[id].roster, row + 1)) else s
       case NoTarget(_) => s)
    case RosterSession(id, roster, _, row) =>
      if id in s.sessions.rows then WithSession(s, id, s.sessions.rows[id].(roster := roster, version := row + 1)) else s
    case RemoveNewSession(id, _, _) => s.(sessions := Raised(s.sessions, s.sessions.rows - {id}))
    case CreateDeadline(id, body, _) => WithDeadline(s, id, Deadline(body, 1))
    case ChangeDeadline(id, body, _, row) => WithDeadline(s, id, Deadline(body, row + 1))
    case MergeItems(kind, source, target, _, _, _) =>
      if source in s.vocabulary.rows then MergedState(s, kind, source, target) else s
  }

  // ---- The plan holds where the guards hold ------------------------------------------------

  predicate Writes(action: ProgramAction) {
    action.Finish? && action.writes != []
  }

  predicate Same(m: Db, s: Db, a: Name) {
    match a
    case Vocabulary => m.vocabulary == s.vocabulary
    case Schedule => m.schedule == s.schedule
    case Sessions => m.sessions == s.sessions
    case Intake => m.intake == s.intake
    case Deadlines => m.deadlines == s.deadlines
  }

  // The aggregates whose version a request's guards pin.
  function PinsOf(r: Request): set<Name> {
    match r
    case PlaceOccurrence(_, _, _, _, _, _) => {Schedule, Sessions, Vocabulary}
    case MoveOccurrence(_, _, _, _, _, _) => {Schedule, Sessions, Vocabulary}
    case UnplaceOccurrence(_, _, _) => {Schedule, Sessions, Vocabulary}
    case CreateSession(_, _, _, _, _) => {Sessions, Vocabulary}
    case TargetSession(_, _, _, _, _, _) => {Sessions, Vocabulary}
    case RosterSession(_, _, _, _) => {Sessions, Vocabulary}
    case RemoveNewSession(_, _, _) => {Sessions, Vocabulary}
    case CreateDeadline(_, _, _) => {Deadlines}
    case ChangeDeadline(_, _, _, _) => {Deadlines}
    case MergeItems(_, _, _, _, _, _) => {Vocabulary, Schedule, Sessions, Intake}
    case _ => {Vocabulary}
  }

  lemma VersionPins(m: Db, s: Db, a: Name)
    requires Later(m, s) && Holds(VersionIs(a, VersionOf(m, a)), s)
    ensures Same(m, s, a)
  {
  }

  lemma GuardHolds(guards: seq<Guard>, g: Guard, s: Db)
    requires PROGRAM.AllHold(guards, s) && g in guards
    ensures Holds(g, s)
  {
    var i :| 0 <= i < |guards| && guards[i] == g;
    assert PROGRAM.holds(guards[i], s);
  }

  lemma ScheduleIsPinned(r: Request, m: Db, a: Name)
    requires r.PlaceOccurrence? || r.MoveOccurrence? || r.UnplaceOccurrence?
    requires Writes(Plan(r, m)) && a in PinsOf(r)
    ensures VersionIs(a, VersionOf(m, a)) in Plan(r, m).guards
  {
    hide HasActiveTrack, RoomIsFree;
    var g := Plan(r, m).guards;
    assert g[..3] == ScheduleGuards(m);
    assert g[0] in g && g[1] in g && g[2] in g;
  }

  lemma SessionsArePinned(r: Request, m: Db, a: Name)
    requires r.CreateSession? || r.TargetSession? || r.RosterSession? || r.RemoveNewSession?
    requires Writes(Plan(r, m)) && a in PinsOf(r)
    ensures VersionIs(a, VersionOf(m, a)) in Plan(r, m).guards
    ensures r.RemoveNewSession? ==> SessionUnplaced(r.id) in Plan(r, m).guards
  {
    hide ResolveTarget, Placed;
    var g := Plan(r, m).guards;
    assert g[..2] == SessionGuards(m);
    assert g[0] in g && g[1] in g && (r.RemoveNewSession? ==> g[3] in g);
  }

  lemma OthersArePinned(r: Request, m: Db, a: Name)
    requires r.CreateItem? || r.EditItem? || r.SwitchItem? || r.RemoveItem? || r.CreateDeadline? || r.ChangeDeadline? || r.MergeItems?
    requires Writes(Plan(r, m)) && a in PinsOf(r)
    ensures VersionIs(a, VersionOf(m, a)) in Plan(r, m).guards
    ensures r.RemoveItem? ==> Unreferenced(r.id, r.kind) in Plan(r, m).guards
  {
    hide Referenced, SessionsResolve, SlotsOf, OccurrencesIn, SessionsOf;
  }

  lemma Pinned(r: Request, m: Db, s: Db)
    requires Later(m, s) && Writes(Plan(r, m)) && PROGRAM.AllHold(Plan(r, m).guards, s)
    ensures forall a :: a in PinsOf(r) ==> Same(m, s, a)
    ensures r.RemoveItem? ==> !Referenced(s, r.id, r.kind)
    ensures r.RemoveNewSession? ==> !Placed(s, r.id)
  {
    forall a | a in PinsOf(r) ensures VersionIs(a, VersionOf(m, a)) in Plan(r, m).guards { IsPinned(r, m, a); }
    hide Plan, Later, PinsOf;
    forall a | a in PinsOf(r) ensures Same(m, s, a) {
      GuardHolds(Plan(r, m).guards, VersionIs(a, VersionOf(m, a)), s);
      VersionPins(m, s, a);
    }
    if r.RemoveItem? {
      IsPinned(r, m, Vocabulary);
      GuardHolds(Plan(r, m).guards, Unreferenced(r.id, r.kind), s);
    }
    if r.RemoveNewSession? {
      IsPinned(r, m, Sessions);
      GuardHolds(Plan(r, m).guards, SessionUnplaced(r.id), s);
    }
  }

  lemma IsPinned(r: Request, m: Db, a: Name)
    requires Writes(Plan(r, m))
    ensures a in PinsOf(r) ==> VersionIs(a, VersionOf(m, a)) in Plan(r, m).guards
    ensures r.RemoveItem? ==> Unreferenced(r.id, r.kind) in Plan(r, m).guards
    ensures r.RemoveNewSession? ==> SessionUnplaced(r.id) in Plan(r, m).guards
  {
    hide Plan;
    if r.PlaceOccurrence? || r.MoveOccurrence? || r.UnplaceOccurrence? {
      if a in PinsOf(r) { ScheduleIsPinned(r, m, a); }
    } else if r.CreateSession? || r.TargetSession? || r.RosterSession? || r.RemoveNewSession? {
      SessionsArePinned(r, m, if a in PinsOf(r) then a else Sessions);
    } else if a in PinsOf(r) {
      OthersArePinned(r, m, a);
    } else if r.RemoveItem? {
      OthersArePinned(r, m, Vocabulary);
    }
  }

  // A plan depends only on the aggregates it pins and on the absence it guards.
  lemma PlanDependsOnPins(r: Request, m: Db, s: Db)
    requires Writes(Plan(r, m)) && m.pins == s.pins && forall a :: a in PinsOf(r) ==> Same(m, s, a)
    requires r.RemoveItem? ==> !Referenced(s, r.id, r.kind)
    requires r.RemoveNewSession? ==> !Placed(s, r.id)
    ensures Plan(r, s) == Plan(r, m)
  {
    if Schedule in PinsOf(r) {
      assert Same(m, s, Schedule) && Same(m, s, Sessions) && Same(m, s, Vocabulary);
      if r.MergeItems? {
        assert Same(m, s, Intake);
        SameMerge(m, s, r.kind, r.source);
        MergeDepends(r, m, s);
      } else {
        SameTables(m, s);
        ScheduleDepends(r, m, s);
      }
    } else if Sessions in PinsOf(r) {
      assert Same(m, s, Sessions) && Same(m, s, Vocabulary);
      SessionsDepend(r, m, s);
    } else if Deadlines in PinsOf(r) {
      assert Same(m, s, Deadlines);
      DeadlinesDepend(r, m, s);
    } else {
      assert Same(m, s, Vocabulary);
      ItemsDepend(r, m, s);
    }
  }

  lemma ScheduleDepends(r: Request, m: Db, s: Db)
    requires r.PlaceOccurrence? || r.MoveOccurrence? || r.UnplaceOccurrence?
    requires m.schedule == s.schedule && m.sessions == s.sessions && m.vocabulary == s.vocabulary
    requires HasActiveTrack(m) <==> HasActiveTrack(s)
    requires forall room, except, start, end :: RoomIsFree(m, room, except, start, end) <==> RoomIsFree(s, room, except, start, end)
    ensures Plan(r, s) == Plan(r, m)
  {
    hide HasActiveTrack, RoomIsFree;
  }

  lemma SessionsDepend(r: Request, m: Db, s: Db)
    requires r.CreateSession? || r.TargetSession? || r.RosterSession? || r.RemoveNewSession?
    requires Writes(Plan(r, m)) && m.sessions == s.sessions && m.vocabulary == s.vocabulary
    requires r.RemoveNewSession? ==> !Placed(s, r.id)
    ensures Plan(r, s) == Plan(r, m)
  {
    if r.CreateSession? || r.TargetSession? { SameTargets(m, s, r.format, r.track, r.lifecycle); }
    hide ResolveTarget, Placed;
  }

  lemma ItemsDepend(r: Request, m: Db, s: Db)
    requires r.CreateItem? || r.EditItem? || r.SwitchItem? || r.RemoveItem?
    requires Writes(Plan(r, m)) && m.vocabulary == s.vocabulary
    requires r.RemoveItem? ==> !Referenced(s, r.id, r.kind)
    ensures Plan(r, s) == Plan(r, m)
  {
    hide Referenced;
  }

  lemma DeadlinesDepend(r: Request, m: Db, s: Db)
    requires (r.CreateDeadline? || r.ChangeDeadline?) && m.deadlines == s.deadlines
    ensures Plan(r, s) == Plan(r, m)
  {
  }

  lemma MergeDepends(r: Request, m: Db, s: Db)
    requires r.MergeItems? && m.vocabulary == s.vocabulary && m.schedule == s.schedule && m.sessions == s.sessions && m.intake == s.intake
    requires SlotsOf(m, r.kind, r.source) == SlotsOf(s, r.kind, r.source)
    requires OccurrencesIn(m, r.kind, r.source) == OccurrencesIn(s, r.kind, r.source)
    requires SessionsOf(m, r.kind, r.source) == SessionsOf(s, r.kind, r.source)
    requires SessionsResolve(m, r.kind, r.source) <==> SessionsResolve(s, r.kind, r.source)
    ensures Plan(r, s) == Plan(r, m)
  {
    hide SlotsOf, OccurrencesIn, SessionsOf, SessionsResolve;
  }

  lemma SameTables(m: Db, s: Db)
    requires m.schedule == s.schedule && m.sessions == s.sessions && m.vocabulary == s.vocabulary
    ensures HasActiveTrack(m) <==> HasActiveTrack(s)
    ensures forall room, except, start, end :: RoomIsFree(m, room, except, start, end) <==> RoomIsFree(s, room, except, start, end)
  {
  }

  lemma SameTargets(m: Db, s: Db, format: Id, track: Option<Id>, lifecycle: Lifecycle)
    requires m.vocabulary == s.vocabulary
    ensures ResolveTarget(m, format, track, lifecycle) == ResolveTarget(s, format, track, lifecycle)
  {
    assert HasActiveTrack(m) <==> HasActiveTrack(s);
    assert forall t :: OnlyActiveTrack(m, t) <==> OnlyActiveTrack(s, t);
  }

  lemma SameMerge(m: Db, s: Db, kind: Kind, source: Id)
    requires m.vocabulary == s.vocabulary && m.schedule == s.schedule && m.sessions == s.sessions && m.intake == s.intake
    ensures SlotsOf(m, kind, source) == SlotsOf(s, kind, source)
    ensures OccurrencesIn(m, kind, source) == OccurrencesIn(s, kind, source)
    ensures SessionsOf(m, kind, source) == SessionsOf(s, kind, source)
    ensures SessionsResolve(m, kind, source) <==> SessionsResolve(s, kind, source)
  {
  }

  // Guards true at `s` make the plan made on older, scattered reads the plan `s` itself would give.
  lemma PlanHolds(r: Request, m: Db, s: Db)
    requires Later(m, s) && Writes(Plan(r, m)) && PROGRAM.AllHold(Plan(r, m).guards, s)
    ensures Plan(r, s) == Plan(r, m)
  {
    Pinned(r, m, s);
    hide Plan, Same, PinsOf, Referenced, Placed;
    PlanDependsOnPins(r, m, s);
  }
}
