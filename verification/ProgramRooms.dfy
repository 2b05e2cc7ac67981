// Rooms never overlap, except by a merge: the exact condition over whole runs, and a run in which it
// fails.
module ProgramRooms {
  import opened Wrappers
  import opened AtomicBatch
  import opened Serializability
  import opened ProgramTables
  import opened ProgramSafety
  import opened ProgramEffects
  import opened ProgramTheorems

  predicate Disjoint(a: Occurrence, b: Occurrence) {
    !(a.start < b.end && b.start < a.end)
  }

  ghost predicate RoomsFree(s: Db) {
    forall o, p | o in s.schedule.rows && p in s.schedule.rows && o != p ::
      s.schedule.rows[o].room == s.schedule.rows[p].room ==> Disjoint(s.schedule.rows[o], s.schedule.rows[p])
  }

  // Nothing in one room overlaps anything in the other.
  ghost predicate Apart(s: Db, source: Id, target: Id) {
    forall o, p | o in s.schedule.rows && p in s.schedule.rows ::
      s.schedule.rows[o].room == source && s.schedule.rows[p].room == target ==>
        Disjoint(s.schedule.rows[o], s.schedule.rows[p])
  }

  // ---- One request ---------------------------------------------------------------------------

  lemma ScheduleKeepsRoomsFree(r: Request, s: Db)
    requires !r.MergeItems? && RoomsFree(s) && Writes(Plan(r, s))
    ensures RoomsFree(After(r, s))
  {
    hide HasActiveTrack, ResolveTarget, Referenced, Placed;
    if r.PlaceOccurrence? || r.MoveOccurrence? { assert RoomIsFree(s, r.room, r.id, r.start, r.end); }
  }

  lemma RoomMergeRows(s: Db, source: Id, target: Id, o: Id)
    requires source in s.vocabulary.rows && o in s.schedule.rows
    ensures var t := MergedState(s, Room, source, target);
            && o in t.schedule.rows
            && t.schedule.rows[o].start == s.schedule.rows[o].start && t.schedule.rows[o].end == s.schedule.rows[o].end
            && t.schedule.rows[o].room == (if s.schedule.rows[o].room == source then target else s.schedule.rows[o].room)
  {
    if s.schedule.rows[o].room == source { assert o in OccurrencesIn(s, Room, source); }
  }

  // The publish step of a room merge checks no overlap. It keeps rooms free exactly when nothing in
  // the source room overlaps anything in the target room beforehand.
  lemma RoomMergeKeepsRoomsFreeExactlyWhen(s: Db, source: Id, target: Id)
    requires RoomsFree(s) && source in s.vocabulary.rows && source != target
    ensures RoomsFree(MergedState(s, Room, source, target)) <==> Apart(s, source, target)
  {
    var t := MergedState(s, Room, source, target);
    assert t.schedule.rows.Keys == s.schedule.rows.Keys;
    forall o | o in s.schedule.rows
      ensures t.schedule.rows[o].start == s.schedule.rows[o].start && t.schedule.rows[o].end == s.schedule.rows[o].end
      ensures t.schedule.rows[o].room == (if s.schedule.rows[o].room == source then target else s.schedule.rows[o].room)
    {
      RoomMergeRows(s, source, target, o);
    }
    hide MergedState;
    if RoomsFree(t) {
      forall o, p | o in s.schedule.rows && p in s.schedule.rows && s.schedule.rows[o].room == source && s.schedule.rows[p].room == target
        ensures Disjoint(s.schedule.rows[o], s.schedule.rows[p])
      {
        assert Disjoint(t.schedule.rows[o], t.schedule.rows[p]);
      }
    }
  }

  predicate MergesRooms(r: Request) {
    r.MergeItems? && r.kind == Room
  }

  lemma OtherMergesKeepTheSchedule(s: Db, kind: Kind, source: Id, target: Id)
    requires source in s.vocabulary.rows && kind != Room
    ensures MergedState(s, kind, source, target).schedule == s.schedule
  {
    assert OccurrencesIn(s, kind, source) == map[];
  }

  lemma AfterKeepsRoomsFreeExactlyWhen(r: Request, s: Db)
    requires RoomsFree(s) && Writes(Plan(r, s))
    ensures RoomsFree(After(r, s)) <==> (MergesRooms(r) ==> Apart(s, r.source, r.target))
  {
    hide HasActiveTrack, ResolveTarget, Referenced, Placed, MergePlan, MergedState, RoomsFree, Apart;
    if MergesRooms(r) {
      RoomMergeKeepsRoomsFreeExactlyWhen(s, r.source, r.target);
    } else if r.MergeItems? {
      OtherMergesKeepTheSchedule(s, r.kind, r.source, r.target);
      SameSchedule(s, After(r, s));
    } else {
      ScheduleKeepsRoomsFree(r, s);
    }
  }

  lemma SameSchedule(s: Db, t: Db)
    requires s.schedule == t.schedule
    ensures RoomsFree(s) <==> RoomsFree(t)
  {
  }

  // ---- Every run -----------------------------------------------------------------------------

  type ProgramSystem = System<Db, Guard, Write, Result>

  // This move commits a room merge although the two rooms hold overlapping occurrences.
  ghost predicate Collides(requests: seq<Request>, y: ProgramSystem, k: nat) {
    && k < |requests| && k < |y.clients| && MergesRooms(requests[k])
    && StepClient(PROGRAM, y.db, y.clients[k]).committed && !Apart(y.db, requests[k].source, requests[k].target)
  }

  lemma StepKeepsRoomsFreeExactlyWhen(requests: seq<Request>, db: Db, y: ProgramSystem, k: nat)
    requires Sound(Consistent, Later, WorksOf(requests), db, y) && RoomsFree(y.db)
    ensures RoomsFree(Step(PROGRAM, y, k).db) <==> !Collides(requests, y, k)
  {
    hide Consistent, Later, RoomsFree, Apart;
    if k < |y.clients| {
      var c, m := y.clients[k], StepClient(PROGRAM, y.db, y.clients[k]);
      assert c.work == WorkOf(requests[k]) && Admissible(Consistent, Later, c.seen, y.db);
      if m.committed {
        assert CommitsTo(PROGRAM, WorkOf(requests[k]), c.seen, y.db, m.db);
        AdmissibleReads(c.seen, y.db);
        UnitCommits(requests[k], c.seen, y.db, m.db);
        AfterKeepsRoomsFreeExactlyWhen(requests[k], y.db);
      } else {
        assert m.db == y.db;
      }
    }
  }

  lemma RunIsSound(requests: seq<Request>, db: Db, maximumAttempts: nat, schedule: seq<nat>)
    requires Consistent(db)
    ensures Sound(Consistent, Later, WorksOf(requests), db,
                  Run(PROGRAM, Begin(db, WorksOf(requests), maximumAttempts), schedule))
  {
    LaterIsAnOrder();
    forall k | 0 <= k < |requests| ensures Preserves(PROGRAM, Consistent, Later, WorksOf(requests)[k]) {
      RequestKeepsConsistency(requests[k]);
    }
    hide Later, Consistent, Preserves;
    RunSound(PROGRAM, Consistent, Later, WorksOf(requests), db, maximumAttempts, schedule);
  }

  ghost predicate AlwaysFree(begin: ProgramSystem, schedule: seq<nat>) {
    forall n | 0 <= n <= |schedule| :: RoomsFree(Run(PROGRAM, begin, schedule[..n]).db)
  }

  ghost predicate NeverCollides(requests: seq<Request>, begin: ProgramSystem, schedule: seq<nat>) {
    forall n | 0 <= n < |schedule| :: !Collides(requests, Run(PROGRAM, begin, schedule[..n]), schedule[n])
  }

  lemma AlwaysFreeByStep(begin: ProgramSystem, schedule: seq<nat>)
    requires schedule != []
    ensures AlwaysFree(begin, schedule) <==>
            AlwaysFree(begin, schedule[..|schedule| - 1]) && RoomsFree(Run(PROGRAM, begin, schedule).db)
  {
    hide RoomsFree, Run;
    var m := |schedule| - 1;
    assert schedule[..m + 1] == schedule;
    assert forall n | 0 <= n <= m :: schedule[..m][..n] == schedule[..n];
  }

  lemma NeverCollidesByStep(requests: seq<Request>, begin: ProgramSystem, schedule: seq<nat>)
    requires schedule != []
    ensures var m := |schedule| - 1;
            NeverCollides(requests, begin, schedule) <==>
            NeverCollides(requests, begin, schedule[..m]) && !Collides(requests, Run(PROGRAM, begin, schedule[..m]), schedule[m])
  {
    hide Collides, Run;
    var m := |schedule| - 1;
    assert forall n | 0 <= n < m :: schedule[..m][..n] == schedule[..n] && schedule[..m][n] == schedule[n];
  }

  lemma NowFree(begin: ProgramSystem, schedule: seq<nat>)
    requires AlwaysFree(begin, schedule)
    ensures RoomsFree(Run(PROGRAM, begin, schedule).db)
  {
    hide RoomsFree, Run;
    assert schedule[..|schedule|] == schedule;
  }

  // Over every interleaving of any requests: rooms stay free in all states exactly when every room
  // merge that commits finds its two rooms apart.
  lemma {:induction false} RoomsNeverOverlapExactlyWhen(
    requests: seq<Request>, db: Db, maximumAttempts: nat, schedule: seq<nat>)
    requires Consistent(db) && RoomsFree(db)
    ensures var begin := Begin(db, WorksOf(requests), maximumAttempts);
            AlwaysFree(begin, schedule) <==> NeverCollides(requests, begin, schedule)
    decreases |schedule|
  {
    var begin := Begin(db, WorksOf(requests), maximumAttempts);
    if schedule == [] {
      hide Consistent, RoomsFree, Collides;
      assert schedule[..0] == schedule;
    } else {
      hide *;
      var before := schedule[..|schedule| - 1];
      RoomsNeverOverlapExactlyWhen(requests, db, maximumAttempts, before);
      RunIsSound(requests, db, maximumAttempts, before);
      AlwaysFreeByStep(begin, schedule);
      NeverCollidesByStep(requests, begin, schedule);
      if AlwaysFree(begin, before) {
        NowFree(begin, before);
        StepKeepsRoomsFreeExactlyWhen(requests, db, Run(PROGRAM, begin, before), schedule[|before|]);
        RunByStep(begin, schedule);
      }
    }
  }

  lemma RunByStep(begin: ProgramSystem, schedule: seq<nat>)
    requires schedule != []
    ensures var m := |schedule| - 1; Run(PROGRAM, begin, schedule) == Step(PROGRAM, Run(PROGRAM, begin, schedule[..m]), schedule[m])
  {
    hide Step;
  }
}
