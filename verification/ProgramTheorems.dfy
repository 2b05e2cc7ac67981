// The main results about the event program: serial runs, no dangling reference, and what a merge
// moves.
module ProgramTheorems {
  import opened Wrappers
  import opened AtomicBatch
  import opened Serializability
  import opened ProgramTables
  import opened ProgramSafety
  import opened ProgramEffects

  // ---- References never dangle -------------------------------------------------------------

  lemma RemovalKeepsReferences(s: Db, id: Id, kind: Kind)
    requires References(s) && id in s.vocabulary.rows && s.vocabulary.rows[id].kind == kind && !Referenced(s, id, kind)
    ensures References(s.(vocabulary := Raised(s.vocabulary, s.vocabulary.rows - {id})))
  {
    forall o | o in s.schedule.rows ensures s.schedule.rows[o].room != id {
      assert s.vocabulary.rows[s.schedule.rows[o].room].kind == Room;
    }
    forall e | e in s.sessions.rows ensures s.sessions.rows[e].format != id && s.sessions.rows[e].track != Some(id) {
      assert SessionTargetsExist(s, s.sessions.rows[e]);
    }
  }

  lemma MergeKeepsRooms(s: Db, kind: Kind, source: Id, target: Id, o: Id)
    requires References(s) && source in s.vocabulary.rows && s.vocabulary.rows[source].kind == kind
    requires target in s.vocabulary.rows && s.vocabulary.rows[target].kind == kind
    requires o in MergedState(s, kind, source, target).schedule.rows
    ensures var t := MergedState(s, kind, source, target);
            && t.schedule.rows[o].room in t.vocabulary.rows && t.vocabulary.rows[t.schedule.rows[o].room].kind == Room
            && t.schedule.rows[o].session in t.sessions.rows
  {
    assert o in s.schedule.rows;
  }

  lemma MergeKeepsTargets(s: Db, kind: Kind, source: Id, target: Id, e: Id)
    requires References(s) && source in s.vocabulary.rows && s.vocabulary.rows[source].kind == kind
    requires target in s.vocabulary.rows && s.vocabulary.rows[target].kind == kind
    requires e in MergedState(s, kind, source, target).sessions.rows
    ensures var t := MergedState(s, kind, source, target); SessionTargetsExist(t, t.sessions.rows[e])
  {
    assert e in s.sessions.rows && SessionTargetsExist(s, s.sessions.rows[e]);
  }

  lemma MergeKeepsReferences(s: Db, kind: Kind, source: Id, target: Id)
    requires References(s) && source in s.vocabulary.rows && s.vocabulary.rows[source].kind == kind
    requires target in s.vocabulary.rows && s.vocabulary.rows[target].kind == kind
    ensures References(MergedState(s, kind, source, target))
  {
    hide MergedState, SessionTargetsExist;
    var t := MergedState(s, kind, source, target);
    forall o | o in t.schedule.rows
      ensures t.schedule.rows[o].room in t.vocabulary.rows && t.vocabulary.rows[t.schedule.rows[o].room].kind == Room
              && t.schedule.rows[o].session in t.sessions.rows
    {
      MergeKeepsRooms(s, kind, source, target, o);
    }
    forall e | e in t.sessions.rows ensures SessionTargetsExist(t, t.sessions.rows[e]) {
      MergeKeepsTargets(s, kind, source, target, e);
    }
  }

  lemma ResolvedTargetsExist(s: Db, format: Id, track: Option<Id>, lifecycle: Lifecycle, e: Session)
    requires ResolveTarget(s, format, track, lifecycle).Target?
    requires e.format == ResolveTarget(s, format, track, lifecycle).format
    requires e.track == ResolveTarget(s, format, track, lifecycle).track
    ensures SessionTargetsExist(s, e)
  {
  }

  lemma WithSessionKeepsReferences(s: Db, id: Id, e: Session)
    requires References(s) && SessionTargetsExist(s, e)
    ensures References(WithSession(s, id, e))
  {
    forall x | x in s.sessions.rows ensures SessionTargetsExist(s, s.sessions.rows[x]) {}
  }

  lemma AfterKeepsReferences(r: Request, s: Db)
    requires References(s) && Writes(Plan(r, s))
    ensures References(After(r, s))
  {
    match r
    case RemoveItem(id, kind, _, _) =>
      hide Referenced;
      RemovalKeepsReferences(s, id, kind);
    case CreateSession(id, format, track, lifecycle, _) => SessionKeepsReferences(r, s);
    case TargetSession(id, format, track, lifecycle, _, _) => SessionKeepsReferences(r, s);
    case RosterSession(id, roster, _, _) => SessionKeepsReferences(r, s);
    case RemoveNewSession(id, _, _) =>
      assert forall o :: o in s.schedule.rows ==> s.schedule.rows[o].session != id;
    case MergeItems(kind, source, target, _, _, _) =>
      hide References;
      MergeKeepsReferences(s, kind, source, target);
    case PlaceOccurrence(_, _, _, _, _, _) => ScheduleKeepsReferences(r, s);
    case MoveOccurrence(_, _, _, _, _, _) => ScheduleKeepsReferences(r, s);
    case _ => ItemKeepsReferences(r, s);
  }

  lemma SessionKeepsReferences(r: Request, s: Db)
    requires (r.CreateSession? || r.TargetSession? || r.RosterSession?) && References(s) && Writes(Plan(r, s))
    ensures References(After(r, s))
  {
    if r.RosterSession? {
      assert SessionTargetsExist(s, s.sessions.rows[r.id]);
    } else {
      var target := ResolveTarget(s, r.format, r.track, r.lifecycle);
      ResolvedTargetsExist(s, r.format, r.track, r.lifecycle, After(r, s).sessions.rows[r.id]);
    }
    var e := After(r, s).sessions.rows[r.id];
    hide References, ResolveTarget;
    WithSessionKeepsReferences(s, r.id, e);
  }

  lemma ScheduleKeepsReferences(r: Request, s: Db)
    requires (r.PlaceOccurrence? || r.MoveOccurrence?) && References(s) && Writes(Plan(r, s))
    ensures References(After(r, s))
  {
    hide HasActiveTrack, RoomIsFree, SessionTargetsExist;
    var t := After(r, s);
    assert t.vocabulary == s.vocabulary && t.sessions == s.sessions;
    TargetsUnchanged(s, t);
  }

  lemma TargetsUnchanged(s: Db, t: Db)
    requires t.vocabulary.rows.Keys >= s.vocabulary.rows.Keys
    requires forall i :: i in s.vocabulary.rows ==> t.vocabulary.rows[i].kind == s.vocabulary.rows[i].kind
    ensures forall e :: SessionTargetsExist(s, e) ==> SessionTargetsExist(t, e)
  {
  }

  lemma ItemKeepsReferences(r: Request, s: Db)
    requires r.UnplaceOccurrence? || r.CreateItem? || r.EditItem? || r.SwitchItem? || r.CreateDeadline? || r.ChangeDeadline?
    requires References(s) && Writes(Plan(r, s))
    ensures References(After(r, s))
  {
    TargetsUnchanged(s, After(r, s));
    hide SessionTargetsExist;
  }

  lemma AfterIsLater(r: Request, s: Db)
    ensures Later(s, After(r, s))
  {
    hide ResolveTarget, SlotsOf, OccurrencesIn, SessionsOf, MergedSlots, MergedOccurrences, MergedSessions, Retargeted;
  }

  lemma AfterIsVersioned(r: Request, s: Db)
    requires Writes(Plan(r, s))
    requires s.vocabulary.Sound() && s.schedule.Sound() && s.sessions.Sound() && s.intake.Sound() && s.deadlines.Sound()
    ensures var t := After(r, s);
            t.vocabulary.Sound() && t.schedule.Sound() && t.sessions.Sound() && t.intake.Sound() && t.deadlines.Sound()
  {
    hide Plan, SlotsOf, OccurrencesIn, SessionsOf;
  }

  lemma AfterIsConsistent(r: Request, s: Db)
    requires Consistent(s) && Writes(Plan(r, s))
    ensures Consistent(After(r, s)) && Later(s, After(r, s))
  {
    hide References, Plan, After, Later;
    AfterKeepsReferences(r, s);
    AfterIsVersioned(r, s);
    AfterIsLater(r, s);
  }

  lemma RequestKeepsConsistency(r: Request)
    ensures Preserves(PROGRAM, Consistent, Later, WorkOf(r))
  {
    hide *;
    forall seen: seq<Db>, s: Db, s': Db | Admissible(Consistent, Later, seen, s) && CommitsTo(PROGRAM, WorkOf(r), seen, s, s')
      ensures Consistent(s') && Later(s, s')
    {
      AdmissibleReads(seen, s);
      UnitCommits(r, seen, s, s');
      AfterIsConsistent(r, s);
    }
    PreservesByCases(r);
  }

  lemma AdmissibleReads(seen: seq<Db>, s: Db)
    requires Admissible(Consistent, Later, seen, s)
    ensures Consistent(s) && forall i :: 0 <= i < |seen| ==> Later(seen[i], s)
  {
    hide Consistent, Later;
  }

  lemma PreservesByCases(r: Request)
    requires forall seen: seq<Db>, s: Db, s': Db :: Admissible(Consistent, Later, seen, s) && CommitsTo(PROGRAM, WorkOf(r), seen, s, s') ==>
               Consistent(s') && Later(s, s')
    ensures Preserves(PROGRAM, Consistent, Later, WorkOf(r))
  {
    hide Consistent, Later, Admissible, CommitsTo;
  }

  lemma AloneIsThePlan(r: Request, s: Db)
    ensures Serial(WorkOf(r), s) == Plan(r, s)
  {
    hide Plan;
    var five := Repeat(s, 5);
    assert Seen(five) == Db(s.vocabulary, s.schedule, s.sessions, s.intake, s.deadlines, s.pins) == s;
    ReadsOfOneStateAreSerial(WorkOf(r), s, 0, 5);
  }

  lemma RequestIsDetermined(r: Request)
    ensures Determined(PROGRAM, Consistent, Later, WorkOf(r), true)
  {
    forall seen: seq<Db>, s: Db, s': Db | Admissible(Consistent, Later, seen, s) && CommitsTo(PROGRAM, WorkOf(r), seen, s, s')
      ensures var alone := Serial(WorkOf(r), s);
              && alone.Finish? && PROGRAM.Commit(alone.guards, alone.writes, s) == Committed(s')
              && alone.value == WorkOf(r).decide(seen).value
    {
      DecidesAsAlone(r, seen, s, s');
    }
  }

  lemma DecidesAsAlone(r: Request, seen: seq<Db>, s: Db, s': Db)
    requires Admissible(Consistent, Later, seen, s) && CommitsTo(PROGRAM, WorkOf(r), seen, s, s')
    ensures Serial(WorkOf(r), s) == WorkOf(r).decide(seen)
  {
    AdmissibleReads(seen, s);
    hide Consistent, Later, Plan, After, Hits, Admissible;
    UnitCommits(r, seen, s, s');
    AloneIsThePlan(r, s);
  }

  function WorksOf(requests: seq<Request>): seq<ProgramWork> {
    seq(|requests|, k requires 0 <= k < |requests| => WorkOf(requests[k]))
  }

  // Write skew is excluded: deleting an item races placing and targeting it, and in every reachable
  // state of every interleaving all rooms, formats, tracks and sessions that are named still exist.
  lemma ReferencesNeverDangle(requests: seq<Request>, db: Db, maximumAttempts: nat, schedule: seq<nat>)
    requires Consistent(db)
    ensures References(Run(PROGRAM, Begin(db, WorksOf(requests), maximumAttempts), schedule).db)
  {
    LaterIsAnOrder();
    forall k | 0 <= k < |requests| ensures Preserves(PROGRAM, Consistent, Later, WorksOf(requests)[k]) {
      RequestKeepsConsistency(requests[k]);
    }
    hide Later, References, Preserves;
    RunSound(PROGRAM, Consistent, Later, WorksOf(requests), db, maximumAttempts, schedule);
  }

  // Tables and answers of every interleaving are those of the committed requests one at a time.
  lemma RunsAreSerial(requests: seq<Request>, db: Db, maximumAttempts: nat, schedule: seq<nat>)
    requires Consistent(db)
    ensures SerialSoFar(PROGRAM, Consistent, Later, WorksOf(requests), db,
                        Run(PROGRAM, Begin(db, WorksOf(requests), maximumAttempts), schedule))
  {
    LaterIsAnOrder();
    forall k | 0 <= k < |requests|
      ensures Preserves(PROGRAM, Consistent, Later, WorksOf(requests)[k])
      ensures Determined(PROGRAM, Consistent, Later, WorksOf(requests)[k], false)
    {
      RequestKeepsConsistency(requests[k]);
      RequestIsDetermined(requests[k]);
    }
    hide Later, Consistent, Preserves;
    Serializable(PROGRAM, Consistent, Later, WorksOf(requests), db, maximumAttempts, schedule);
  }

  // Equal version, equal aggregate, over whole runs: whatever commits in between, a version that is
  // unchanged means the rows are.
  lemma VersionsPinAggregates(requests: seq<Request>, db: Db, maximumAttempts: nat, schedule: seq<nat>, more: seq<nat>, a: Name)
    requires Consistent(db)
    ensures var begin := Begin(db, WorksOf(requests), maximumAttempts);
            var now, later_ := Run(PROGRAM, begin, schedule).db, Run(PROGRAM, begin, schedule + more).db;
            VersionOf(now, a) <= VersionOf(later_, a) && (VersionOf(now, a) == VersionOf(later_, a) ==> Same(now, later_, a))
  {
    LaterIsAnOrder();
    forall k | 0 <= k < |requests| ensures Preserves(PROGRAM, Consistent, Later, WorksOf(requests)[k]) {
      RequestKeepsConsistency(requests[k]);
    }
    RunMonotone(PROGRAM, Consistent, Later, WorksOf(requests), db, maximumAttempts, schedule, more);
    var begin := Begin(db, WorksOf(requests), maximumAttempts);
    LaterPins(Run(PROGRAM, begin, schedule).db, Run(PROGRAM, begin, schedule + more).db, a);
  }

  lemma LaterPins(r: Db, s: Db, a: Name)
    requires Later(r, s)
    ensures VersionOf(r, a) <= VersionOf(s, a) && (VersionOf(r, a) == VersionOf(s, a) ==> Same(r, s, a))
  {
  }

  // ---- A merge moves every current reference and nothing else ------------------------------

  // Usage as the snapshot reader counts it: one per form slot, occurrence, and session part.
  function SlotUse(s: Db, item: Id): set<Id> {
    set k | k in s.intake.rows && s.intake.rows[k].item == item
  }

  function RoomUse(s: Db, item: Id): set<Id> {
    set o | o in s.schedule.rows && s.schedule.rows[o].room == item
  }

  function FormatUse(s: Db, item: Id): set<Id> {
    set e | e in s.sessions.rows && s.sessions.rows[e].format == item
  }

  function TrackUse(s: Db, item: Id): set<Id> {
    set e | e in s.sessions.rows && s.sessions.rows[e].track == Some(item)
  }

  function Usage(s: Db, item: Id): nat {
    |SlotUse(s, item)| + |RoomUse(s, item)| + |FormatUse(s, item)| + |TrackUse(s, item)|
  }

  // Item ids are unique across rooms, tracks and formats, and every reference has its item's kind.
  ghost predicate KindsMatch(s: Db) {
    && (forall k :: k in s.intake.rows ==>
          s.intake.rows[k].item in s.vocabulary.rows && s.vocabulary.rows[s.intake.rows[k].item].kind == s.intake.rows[k].kind)
    && References(s)
  }

  ghost predicate Moves(before: set<Id>, beforeTarget: set<Id>, after: set<Id>, afterTarget: set<Id>) {
    after == {} && afterTarget == before + beforeTarget && before !! beforeTarget
  }

  lemma SlotsMove(s: Db, kind: Kind, source: Id, target: Id, item: Id)
    requires KindsMatch(s) && source in s.vocabulary.rows && s.vocabulary.rows[source].kind == kind && source != target
    ensures var t := MergedState(s, kind, source, target);
            && Moves(SlotUse(s, source), SlotUse(s, target), SlotUse(t, source), SlotUse(t, target))
            && (item != source && item != target ==> SlotUse(t, item) == SlotUse(s, item))
  {
    var t := MergedState(s, kind, source, target);
    assert t.intake.rows.Keys == s.intake.rows.Keys;
    forall k | k in s.intake.rows
      ensures t.intake.rows[k].item == (if s.intake.rows[k].item == source then target else s.intake.rows[k].item)
    {
      if s.intake.rows[k].item == source { assert k in SlotsOf(s, kind, source); }
    }
    hide MergedState;
  }

  lemma RoomsMove(s: Db, kind: Kind, source: Id, target: Id, item: Id)
    requires References(s) && source in s.vocabulary.rows && s.vocabulary.rows[source].kind == kind && source != target
    ensures var t := MergedState(s, kind, source, target);
            && Moves(RoomUse(s, source), RoomUse(s, target), RoomUse(t, source), RoomUse(t, target))
            && (item != source && item != target ==> RoomUse(t, item) == RoomUse(s, item))
  {
    var t := MergedState(s, kind, source, target);
    assert t.schedule.rows.Keys == s.schedule.rows.Keys;
    forall o | o in s.schedule.rows
      ensures t.schedule.rows[o].room == (if s.schedule.rows[o].room == source then target else s.schedule.rows[o].room)
    {
      if s.schedule.rows[o].room == source { assert o in OccurrencesIn(s, kind, source); }
    }
    hide MergedState, References;
  }

  lemma FormatsMove(s: Db, kind: Kind, source: Id, target: Id, item: Id)
    requires References(s) && source in s.vocabulary.rows && s.vocabulary.rows[source].kind == kind && source != target
    ensures var t := MergedState(s, kind, source, target);
            && Moves(FormatUse(s, source), FormatUse(s, target), FormatUse(t, source), FormatUse(t, target))
            && (item != source && item != target ==> FormatUse(t, item) == FormatUse(s, item))
  {
    var t := MergedState(s, kind, source, target);
    assert t.sessions.rows.Keys == s.sessions.rows.Keys;
    forall e | e in s.sessions.rows
      ensures t.sessions.rows[e].format == (if s.sessions.rows[e].format == source then target else s.sessions.rows[e].format)
    {
      SessionMoves(s, kind, source, target, e);
    }
    hide MergedState, References;
  }

  lemma TracksMove(s: Db, kind: Kind, source: Id, target: Id, item: Id)
    requires References(s) && source in s.vocabulary.rows && s.vocabulary.rows[source].kind == kind && source != target
    ensures var t := MergedState(s, kind, source, target);
            && Moves(TrackUse(s, source), TrackUse(s, target), TrackUse(t, source), TrackUse(t, target))
            && (item != source && item != target ==> TrackUse(t, item) == TrackUse(s, item))
  {
    var t := MergedState(s, kind, source, target);
    assert t.sessions.rows.Keys == s.sessions.rows.Keys;
    forall e | e in s.sessions.rows
      ensures t.sessions.rows[e].track == (if s.sessions.rows[e].track == Some(source) then Some(target) else s.sessions.rows[e].track)
    {
      SessionMoves(s, kind, source, target, e);
    }
    hide MergedState, References;
  }

  lemma SessionMoves(s: Db, kind: Kind, source: Id, target: Id, e: Id)
    requires References(s) && source in s.vocabulary.rows && s.vocabulary.rows[source].kind == kind && e in s.sessions.rows
    ensures var t := MergedState(s, kind, source, target);
            && e in t.sessions.rows
            && t.sessions.rows[e].format == (if s.sessions.rows[e].format == source then target else s.sessions.rows[e].format)
            && t.sessions.rows[e].track == (if s.sessions.rows[e].track == Some(source) then Some(target) else s.sessions.rows[e].track)
  {
    assert SessionTargetsExist(s, s.sessions.rows[e]);
    if Targets(s.sessions.rows[e], kind, source) { assert e in SessionsOf(s, kind, source); }
  }

  lemma MovedSizes(before: set<Id>, beforeTarget: set<Id>, after: set<Id>, afterTarget: set<Id>)
    requires Moves(before, beforeTarget, after, afterTarget)
    ensures |after| == 0 && |afterTarget| == |before| + |beforeTarget|
  {
  }

  // Conservation: after a merge the source is used nowhere, the target carries the uses of both,
  // every other item keeps its own, and no historical pin moved.
  lemma MergeConservesUsage(s: Db, kind: Kind, source: Id, target: Id, item: Id)
    requires KindsMatch(s) && source != target && source in s.vocabulary.rows && target in s.vocabulary.rows
    requires s.vocabulary.rows[source].kind == s.vocabulary.rows[target].kind == kind
    ensures var t := MergedState(s, kind, source, target);
            && Usage(t, source) == 0 && Usage(t, target) == Usage(s, source) + Usage(s, target)
            && (item != source && item != target ==> Usage(t, item) == Usage(s, item))
            && t.pins == s.pins
  {
    var t := MergedState(s, kind, source, target);
    assert t.pins == s.pins;
    SlotsMove(s, kind, source, target, item);
    RoomsMove(s, kind, source, target, item);
    FormatsMove(s, kind, source, target, item);
    TracksMove(s, kind, source, target, item);
    hide MergedState, KindsMatch, SlotUse, RoomUse, FormatUse, TrackUse;
    MovedSizes(SlotUse(s, source), SlotUse(s, target), SlotUse(t, source), SlotUse(t, target));
    MovedSizes(RoomUse(s, source), RoomUse(s, target), RoomUse(t, source), RoomUse(t, target));
    MovedSizes(FormatUse(s, source), FormatUse(s, target), FormatUse(t, source), FormatUse(t, target));
    MovedSizes(TrackUse(s, source), TrackUse(s, target), TrackUse(t, source), TrackUse(t, target));
  }

  // A merge is refused although the plan is current exactly when some session that would move has
  // another part that is not active any more.
  lemma MergeGoesThroughExactlyWhenSessionsResolve(s: Db, r: Request)
    requires Consistent(s) && r.MergeItems? && r.source != r.target && VersionOf(s, Vocabulary) == r.expected
    requires r.source in s.vocabulary.rows && s.vocabulary.rows[r.source].kind == r.kind
    requires s.vocabulary.rows[r.source].version == r.expectedSource
    requires ActiveItem(s, r.kind, r.target) && s.vocabulary.rows[r.target].version == r.expectedTarget
    ensures (Writes(Plan(r, s)) && PROGRAM.Commit(Plan(r, s).guards, Plan(r, s).writes, s) == Committed(After(r, s))) <==>
            SessionsResolve(s, r.kind, r.source)
  {
    assert Plan(r, s) == MergePlan(s, r.kind, r.source, r.target);
    if SessionsResolve(s, r.kind, r.source) {
      assert s.vocabulary.rows != map[];
      MergeWrites(s, r.kind, r.source, r.target);
      MergeGuardsHold(s, r.kind, r.source, r.target);
    }
  }

  lemma MergeGuardsHold(s: Db, kind: Kind, source: Id, target: Id)
    requires Consistent(s) && source in s.vocabulary.rows && target in s.vocabulary.rows
    requires Writes(MergePlan(s, kind, source, target))
    ensures PROGRAM.AllHold(MergePlan(s, kind, source, target).guards, s)
  {
    hide SlotsOf, OccurrencesIn, SessionsOf, SessionsResolve, References;
  }
}
