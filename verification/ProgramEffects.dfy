// What a committed program unit did: every statement hit its row and the tables are the planned
// after-state.
module ProgramEffects {
  import opened Wrappers
  import opened AtomicBatch
  import opened Serializability
  import opened ProgramTables
  import opened ProgramSafety

  // ---- One row change and one version change -----------------------------------------------

  predicate RowWrite(w: Write) {
    !w.InsertSet? && !w.UpdateSet?
  }

  // The statement finds exactly the row it means: an insert finds its key free, an update or delete
  // finds the row its WHERE clause names, a repoint finds every row it lists.
  ghost predicate Hits(w: Write, s: Db) {
    match w
    case InsertSet(a) => StoredOf(s, a).None?
    case UpdateSet(a, from) => StoredOf(s, a) == Some(from)
    case InsertItem(id, _) => id !in s.vocabulary.rows
    case UpdateItem(id, v, _) => id in s.vocabulary.rows && s.vocabulary.rows[id].version == v
    case DeleteItem(id, v) => id in s.vocabulary.rows && s.vocabulary.rows[id].version == v
    case InsertOccurrence(id, _) => id !in s.schedule.rows
    case UpdateOccurrence(id, before, _) => id in s.schedule.rows && s.schedule.rows[id] == before
    case DeleteOccurrence(id, before) => id in s.schedule.rows && s.schedule.rows[id] == before
    case InsertSession(id, _) => id !in s.sessions.rows
    case UpdateSession(id, v, _) => id in s.sessions.rows && s.sessions.rows[id].version == v
    case DeleteSession(id, v) => id in s.sessions.rows && s.sessions.rows[id].version == v
    case InsertDeadline(id, _) => id !in s.deadlines.rows
    case UpdateDeadline(id, v, _) => id in s.deadlines.rows && s.deadlines.rows[id].version == v
    case RepointSlots(slots, _) => forall k :: k in slots ==> k in s.intake.rows && s.intake.rows[k] == slots[k]
    case RepointOccurrences(os, _) => forall o :: o in os ==> o in s.schedule.rows && s.schedule.rows[o] == os[o]
    case RepointSessions(es, _, _) => forall e :: e in es ==> e in s.sessions.rows && s.sessions.rows[e] == es[e]
  }

  lemma RowWriteKeepsVersions(w: Write, s: Db, a: Name, v: nat)
    requires RowWrite(w)
    ensures Apply(w, WithStored(s, a, v)) == match Apply(w, s) case None => None case Some(t) => Some(WithStored(t, a, v))
    ensures Apply(w, s).Some? ==> StoredOf(Apply(w, s).value, a) == StoredOf(s, a)
  {
  }

  // Inserting the set first or raising it last comes to the same.
  lemma VersionedApplies(a: Name, v: nat, w: Write, s: Db)
    requires RowWrite(w) && Holds(VersionIs(a, v), s)
    ensures PROGRAM.ApplyAll(Versioned(a, v, [w]), s) ==
            match Apply(w, s) case None => None case Some(t) => Some(WithStored(t, a, v + 1))
    ensures Hits(if v == 1 then InsertSet(a) else UpdateSet(a, v), s)
  {
    if v == 1 {
      ApplyAllAppend(PROGRAM, [InsertSet(a)], [w], s);
      ApplyOne(PROGRAM, InsertSet(a), s);
      RowWriteKeepsVersions(w, s, a, 2);
      ApplyOne(PROGRAM, w, WithStored(s, a, 2));
    } else {
      ApplyAllAppend(PROGRAM, [w], [UpdateSet(a, v)], s);
      ApplyOne(PROGRAM, w, s);
      if Apply(w, s).Some? {
        RowWriteKeepsVersions(w, s, a, v);
        ApplyOne(PROGRAM, UpdateSet(a, v), Apply(w, s).value);
      }
    }
  }

  // The single row write of every request but a merge.
  function RowWriteOf(r: Request, s: Db): Write
    requires !r.MergeItems? && Writes(Plan(r, s))
  {
    var writes := Plan(r, s).writes;
    if writes[0].InsertSet? then writes[|writes| - 1] else writes[0]
  }

  function AggregateOf(r: Request): Name {
    match r
    case PlaceOccurrence(_, _, _, _, _, _) => Schedule
    case MoveOccurrence(_, _, _, _, _, _) => Schedule
    case UnplaceOccurrence(_, _, _) => Schedule
    case CreateSession(_, _, _, _, _) => Sessions
    case TargetSession(_, _, _, _, _, _) => Sessions
    case RosterSession(_, _, _, _) => Sessions
    case RemoveNewSession(_, _, _) => Sessions
    case CreateDeadline(_, _, _) => Deadlines
    case ChangeDeadline(_, _, _, _) => Deadlines
    case _ => Vocabulary
  }

  ghost predicate SingleShape(r: Request, s: Db)
    requires !r.MergeItems? && Writes(Plan(r, s))
  {
    var a, v, w := AggregateOf(r), VersionOf(s, AggregateOf(r)), RowWriteOf(r, s);
    RowWrite(w) && Plan(r, s).writes == Versioned(a, v, [w]) && a in PinsOf(r) && Plan(r, s).value == Changed(v + 1)
  }

  lemma SinglePlanShape(r: Request, s: Db)
    requires !r.MergeItems? && Writes(Plan(r, s))
    ensures SingleShape(r, s)
  {
    if AggregateOf(r) == Schedule { SchedulePlanShape(r, s); }
    else if AggregateOf(r) == Sessions { SessionPlanShape(r, s); }
    else { ItemPlanShape(r, s); }
    hide Plan;
  }

  lemma SchedulePlanShape(r: Request, s: Db)
    requires (r.PlaceOccurrence? || r.MoveOccurrence? || r.UnplaceOccurrence?) && Writes(Plan(r, s))
    ensures SingleShape(r, s)
  {
    hide HasActiveTrack, RoomIsFree;
  }

  lemma SessionPlanShape(r: Request, s: Db)
    requires (r.CreateSession? || r.TargetSession? || r.RosterSession? || r.RemoveNewSession?) && Writes(Plan(r, s))
    ensures SingleShape(r, s)
  {
    hide ResolveTarget, Placed;
  }

  lemma ItemPlanShape(r: Request, s: Db)
    requires r.CreateItem? || r.EditItem? || r.SwitchItem? || r.RemoveItem? || r.CreateDeadline? || r.ChangeDeadline?
    requires Writes(Plan(r, s))
    ensures SingleShape(r, s)
  {
    hide Referenced;
  }

  lemma SinglePlanEffect(r: Request, s: Db)
    requires !r.MergeItems? && Writes(Plan(r, s))
    ensures var w := RowWriteOf(r, s);
            && Hits(w, s) && Apply(w, s).Some?
            && WithStored(Apply(w, s).value, AggregateOf(r), VersionOf(s, AggregateOf(r)) + 1) == After(r, s)
  {
    hide HasActiveTrack, RoomIsFree, ResolveTarget, Placed, Referenced;
    if AggregateOf(r) == Schedule { ScheduleEffect(r, s); }
    else if AggregateOf(r) == Sessions { SessionEffect(r, s); }
    else { ItemEffect(r, s); }
  }

  lemma ScheduleEffect(r: Request, s: Db)
    requires (r.PlaceOccurrence? || r.MoveOccurrence? || r.UnplaceOccurrence?) && Writes(Plan(r, s))
    ensures var w := RowWriteOf(r, s);
            && Hits(w, s) && Apply(w, s).Some? && WithStored(Apply(w, s).value, Schedule, VersionOf(s, Schedule) + 1) == After(r, s)
  {
    hide HasActiveTrack, RoomIsFree;
  }

  lemma SessionEffect(r: Request, s: Db)
    requires (r.CreateSession? || r.TargetSession? || r.RosterSession? || r.RemoveNewSession?) && Writes(Plan(r, s))
    ensures var w := RowWriteOf(r, s);
            && Hits(w, s) && Apply(w, s).Some? && WithStored(Apply(w, s).value, Sessions, VersionOf(s, Sessions) + 1) == After(r, s)
  {
    hide ResolveTarget, Placed;
  }

  lemma ItemEffect(r: Request, s: Db)
    requires r.CreateItem? || r.EditItem? || r.SwitchItem? || r.RemoveItem? || r.CreateDeadline? || r.ChangeDeadline?
    requires Writes(Plan(r, s))
    ensures var w, a := RowWriteOf(r, s), AggregateOf(r);
            && Hits(w, s) && Apply(w, s).Some? && WithStored(Apply(w, s).value, a, VersionOf(s, a) + 1) == After(r, s)
  {
    hide Referenced;
  }

  lemma SingleCommits(r: Request, s: Db, s': Db)
    requires !r.MergeItems? && Writes(Plan(r, s)) && PROGRAM.AllHold(Plan(r, s).guards, s)
    requires PROGRAM.ApplyAll(Plan(r, s).writes, s) == Some(s')
    ensures s' == After(r, s) && forall w :: w in Plan(r, s).writes ==> Hits(w, s)
  {
    var a, v, w := AggregateOf(r), VersionOf(s, AggregateOf(r)), RowWriteOf(r, s);
    SinglePlanShape(r, s);
    SinglePlanEffect(r, s);
    IsPinned(r, s, a);
    hide Plan, Hits, RowWriteOf, After;
    GuardHolds(Plan(r, s).guards, VersionIs(a, v), s);
    VersionedApplies(a, v, w, s);
  }

  // ---- The merge ---------------------------------------------------------------------------

  // The statements of a merge: the two items, then the repoints of each kind that has any.
  lemma MergePlanParts(s: Db, kind: Kind, source: Id, target: Id)
    returns (w0: seq<Write>, w1: seq<Write>, w2: seq<Write>, w3: seq<Write>)
    requires source in s.vocabulary.rows && target in s.vocabulary.rows && Writes(MergePlan(s, kind, source, target))
    ensures MergePlan(s, kind, source, target).writes == w0 + w1 + w2 + w3
    ensures var before := s.vocabulary.rows[source];
            w0 == [UpdateItem(source, before.version, before.(active := false, version := before.version + 1)),
                   UpdateSet(Vocabulary, VersionOf(s, Vocabulary))]
    ensures w1 == if SlotsOf(s, kind, source) == map[] then []
                  else [RepointSlots(SlotsOf(s, kind, source), target), UpdateSet(Intake, VersionOf(s, Intake))]
    ensures w2 == if OccurrencesIn(s, kind, source) == map[] then []
                  else [RepointOccurrences(OccurrencesIn(s, kind, source), target), UpdateSet(Schedule, VersionOf(s, Schedule))]
    ensures w3 == if SessionsOf(s, kind, source) == map[] then []
                  else [RepointSessions(SessionsOf(s, kind, source), kind, target), UpdateSet(Sessions, VersionOf(s, Sessions))]
  {
    hide SlotsOf, OccurrencesIn, SessionsOf, SessionsResolve, VersionOf;
    var before := s.vocabulary.rows[source];
    w0 := [UpdateItem(source, before.version, before.(active := false, version := before.version + 1)),
           UpdateSet(Vocabulary, VersionOf(s, Vocabulary))];
    w1 := if SlotsOf(s, kind, source) == map[] then []
          else [RepointSlots(SlotsOf(s, kind, source), target), UpdateSet(Intake, VersionOf(s, Intake))];
    w2 := if OccurrencesIn(s, kind, source) == map[] then []
          else [RepointOccurrences(OccurrencesIn(s, kind, source), target), UpdateSet(Schedule, VersionOf(s, Schedule))];
    w3 := if SessionsOf(s, kind, source) == map[] then []
          else [RepointSessions(SessionsOf(s, kind, source), kind, target), UpdateSet(Sessions, VersionOf(s, Sessions))];
  }

  lemma MergedTables(s: Db, kind: Kind, source: Id, target: Id)
    requires source in s.vocabulary.rows
    ensures var t := MergedState(s, kind, source, target);
            t == s.(vocabulary := t.vocabulary, intake := t.intake, schedule := t.schedule, sessions := t.sessions)
  {
    hide SlotsOf, OccurrencesIn, SessionsOf, Raised;
  }

  lemma MergeWrites(s: Db, kind: Kind, source: Id, target: Id)
    requires source in s.vocabulary.rows && target in s.vocabulary.rows && Writes(MergePlan(s, kind, source, target))
    requires s.vocabulary.stored.Some? && (s.intake.rows != map[] ==> s.intake.stored.Some?)
    requires (s.schedule.rows != map[] ==> s.schedule.stored.Some?) && (s.sessions.rows != map[] ==> s.sessions.stored.Some?)
    ensures PROGRAM.ApplyAll(MergePlan(s, kind, source, target).writes, s) == Some(MergedState(s, kind, source, target))
    ensures forall w :: w in MergePlan(s, kind, source, target).writes ==> Hits(w, s)
  {
    hide MergePlan, MergedState, SlotsOf, OccurrencesIn, SessionsOf, Hits, Apply, VersionOf;
    var w0, w1, w2, w3 := MergePlanParts(s, kind, source, target);
    var t := MergedState(s, kind, source, target);
    var s0 := s.(vocabulary := t.vocabulary);
    var s1 := s0.(intake := t.intake);
    var s2 := s1.(schedule := t.schedule);
    MergedTables(s, kind, source, target);
    VocabularyMerges(s, kind, source, target, w0, s0);
    SlotsMerge(s, s0, kind, source, target, w1, s1);
    OccurrencesMerge(s, s1, kind, source, target, w2, s2);
    SessionsMerge(s, s2, kind, source, target, w3);
    FourApply(w0, w1, w2, w3, s, s0, s1, s2);
  }

  lemma FourApply(w0: seq<Write>, w1: seq<Write>, w2: seq<Write>, w3: seq<Write>, s: Db, s0: Db, s1: Db, s2: Db)
    requires PROGRAM.ApplyAll(w0, s) == Some(s0) && PROGRAM.ApplyAll(w1, s0) == Some(s1) && PROGRAM.ApplyAll(w2, s1) == Some(s2)
    ensures PROGRAM.ApplyAll(w0 + w1 + w2 + w3, s) == PROGRAM.ApplyAll(w3, s2)
  {
    hide Apply;
    ApplyAllAppend(PROGRAM, w0 + w1 + w2, w3, s);
    ApplyAllAppend(PROGRAM, w0 + w1, w2, s);
    ApplyAllAppend(PROGRAM, w0, w1, s);
  }

  lemma TwoWrites(w: Write, u: Write, s: Db)
    ensures PROGRAM.ApplyAll([w, u], s) == match Apply(w, s) case None => None case Some(t) => Apply(u, t)
  {
    assert [w, u] == [w] + [u];
    ApplyAllAppend(PROGRAM, [w], [u], s);
    ApplyOne(PROGRAM, w, s);
    if Apply(w, s).Some? { ApplyOne(PROGRAM, u, Apply(w, s).value); }
  }

  lemma VocabularyMerges(s: Db, kind: Kind, source: Id, target: Id, writes: seq<Write>, s0: Db)
    requires source in s.vocabulary.rows && s.vocabulary.stored.Some?
    requires s0 == s.(vocabulary := MergedState(s, kind, source, target).vocabulary)
    requires var before := s.vocabulary.rows[source];
             writes == [UpdateItem(source, before.version, before.(active := false, version := before.version + 1)),
                        UpdateSet(Vocabulary, VersionOf(s, Vocabulary))]
    ensures PROGRAM.ApplyAll(writes, s) == Some(s0) && forall w :: w in writes ==> Hits(w, s)
  {
    TwoWrites(writes[0], writes[1], s);
  }

  lemma SlotsMerge(s: Db, s0: Db, kind: Kind, source: Id, target: Id, writes: seq<Write>, s1: Db)
    requires source in s.vocabulary.rows && s0.intake == s.intake && (s.intake.rows != map[] ==> s.intake.stored.Some?)
    requires s1 == s0.(intake := MergedState(s, kind, source, target).intake)
    requires writes == if SlotsOf(s, kind, source) == map[] then []
                       else [RepointSlots(SlotsOf(s, kind, source), target), UpdateSet(Intake, VersionOf(s, Intake))]
    ensures PROGRAM.ApplyAll(writes, s0) == Some(s1) && forall w :: w in writes ==> Hits(w, s)
  {
    if writes != [] {
      TwoWrites(writes[0], writes[1], s0);
      var k :| k in SlotsOf(s, kind, source);
      assert k in s.intake.rows && s.intake.rows != map[];
      assert Apply(writes[0], s0).value.intake.rows == MergedSlots(s, kind, source, target);
    }
  }

  lemma OccurrencesMerge(s: Db, s1: Db, kind: Kind, source: Id, target: Id, writes: seq<Write>, s2: Db)
    requires source in s.vocabulary.rows && s1.schedule == s.schedule && (s.schedule.rows != map[] ==> s.schedule.stored.Some?)
    requires s2 == s1.(schedule := MergedState(s, kind, source, target).schedule)
    requires writes == if OccurrencesIn(s, kind, source) == map[] then []
                       else [RepointOccurrences(OccurrencesIn(s, kind, source), target), UpdateSet(Schedule, VersionOf(s, Schedule))]
    ensures PROGRAM.ApplyAll(writes, s1) == Some(s2) && forall w :: w in writes ==> Hits(w, s)
  {
    if writes != [] {
      TwoWrites(writes[0], writes[1], s1);
      var o :| o in OccurrencesIn(s, kind, source);
      assert o in s.schedule.rows && s.schedule.rows != map[];
      assert Apply(writes[0], s1).value.schedule.rows == MergedOccurrences(s, kind, source, target);
    }
  }

  lemma SessionsMerge(s: Db, s2: Db, kind: Kind, source: Id, target: Id, writes: seq<Write>)
    requires source in s.vocabulary.rows && s2.sessions == s.sessions && (s.sessions.rows != map[] ==> s.sessions.stored.Some?)
    requires s2 == MergedState(s, kind, source, target).(sessions := s.sessions)
    requires writes == if SessionsOf(s, kind, source) == map[] then []
                       else [RepointSessions(SessionsOf(s, kind, source), kind, target), UpdateSet(Sessions, VersionOf(s, Sessions))]
    ensures PROGRAM.ApplyAll(writes, s2) == Some(MergedState(s, kind, source, target)) && forall w :: w in writes ==> Hits(w, s)
  {
    if writes != [] {
      TwoWrites(writes[0], writes[1], s2);
      var e :| e in SessionsOf(s, kind, source);
      assert e in s.sessions.rows && s.sessions.rows != map[];
      assert Apply(writes[0], s2).value.sessions.rows == MergedSessions(s, kind, source, target);
    }
  }

  // ---- Every unit --------------------------------------------------------------------------

  lemma SeenIsLater(seen: seq<Db>, s: Db)
    requires |seen| >= 5 && forall i :: 0 <= i < |seen| ==> Later(seen[i], s)
    ensures Later(Seen(seen), s)
  {
  }

  // From any scattered reads: the batch is the one `s` itself plans, every statement hits its row, and
  // the tables after it are the plan's after-state.
  lemma UnitCommits(r: Request, seen: seq<Db>, s: Db, s': Db)
    requires Consistent(s) && (forall i :: 0 <= i < |seen| ==> Later(seen[i], s))
    requires CommitsTo(PROGRAM, WorkOf(r), seen, s, s')
    ensures Writes(Plan(r, s)) && WorkOf(r).decide(seen) == Plan(r, s)
    ensures s' == After(r, s) && forall w :: w in Plan(r, s).writes ==> Hits(w, s)
  {
    assert |seen| >= 5 && WorkOf(r).decide(seen) == Plan(r, Seen(seen));
    SeenIsLater(seen, s);
    hide Plan, Later, Hits, Holds, Apply, After;
    PlanHolds(r, Seen(seen), s);
    if r.MergeItems? { MergeCommits(r, s, s'); } else { SingleCommits(r, s, s'); }
  }

  lemma MergeCommits(r: Request, s: Db, s': Db)
    requires r.MergeItems? && Consistent(s) && Writes(Plan(r, s))
    requires PROGRAM.ApplyAll(Plan(r, s).writes, s) == Some(s')
    ensures s' == After(r, s) && forall w :: w in Plan(r, s).writes ==> Hits(w, s)
  {
    hide References, Hits;
    assert r.source in s.vocabulary.rows && r.target in s.vocabulary.rows && Plan(r, s) == MergePlan(s, r.kind, r.source, r.target);
    assert s.vocabulary.rows != map[];
    hide Plan, MergePlan, MergedState;
    MergeWrites(s, r.kind, r.source, r.target);
  }
}
