// Program requests that take their turns: an accepted request goes through, and eight of them, a room
// merge last, put two sessions into one room at one time.
module ProgramTurns {
  import opened Wrappers
  import opened AtomicBatch
  import opened Serializability
  import opened ProgramTables
  import opened ProgramSafety
  import opened ProgramEffects
  import opened ProgramTheorems
  import opened ProgramRooms

  // ---- An accepted request goes through -------------------------------------------------------

  lemma OwnVersionsHold(s: Db)
    requires Consistent(s)
    ensures forall a: Name :: Holds(VersionIs(a, VersionOf(s, a)), s)
  {
    hide References;
  }

  lemma OwnRemovalGuardsHold(r: Request, s: Db)
    requires r.UnplaceOccurrence? && Consistent(s) && Writes(Plan(r, s))
    ensures PROGRAM.AllHold(Plan(r, s).guards, s)
  {
    OwnVersionsHold(s);
    hide Consistent, StoredOf, VersionOf;
  }

  lemma OwnScheduleGuardsHold(r: Request, s: Db)
    requires (r.PlaceOccurrence? || r.MoveOccurrence?) && Consistent(s) && Writes(Plan(r, s))
    ensures PROGRAM.AllHold(Plan(r, s).guards, s)
  {
    OwnVersionsHold(s);
    hide Consistent, HasActiveTrack, RoomIsFree, StoredOf, VersionOf;
  }

  lemma OwnSessionGuardsHold(r: Request, s: Db)
    requires r.CreateSession? || r.TargetSession? || r.RosterSession? || r.RemoveNewSession?
    requires Consistent(s) && Writes(Plan(r, s))
    ensures PROGRAM.AllHold(Plan(r, s).guards, s)
  {
    OwnVersionsHold(s);
    hide Consistent, ResolveTarget, Placed;
  }

  lemma OwnOtherGuardsHold(r: Request, s: Db)
    requires r.CreateItem? || r.EditItem? || r.SwitchItem? || r.RemoveItem? || r.CreateDeadline? || r.ChangeDeadline? || r.MergeItems?
    requires Consistent(s) && Writes(Plan(r, s))
    ensures PROGRAM.AllHold(Plan(r, s).guards, s)
  {
    OwnVersionsHold(s);
    hide Consistent, Referenced, SlotsOf, OccurrencesIn, SessionsOf, SessionsResolve;
  }

  lemma OwnGuardsHold(r: Request, s: Db)
    requires Consistent(s) && Writes(Plan(r, s))
    ensures PROGRAM.AllHold(Plan(r, s).guards, s)
  {
    hide Consistent, Plan;
    match r
    case PlaceOccurrence(_, _, _, _, _, _) => OwnScheduleGuardsHold(r, s);
    case MoveOccurrence(_, _, _, _, _, _) => OwnScheduleGuardsHold(r, s);
    case UnplaceOccurrence(_, _, _) => OwnRemovalGuardsHold(r, s);
    case CreateSession(_, _, _, _, _) => OwnSessionGuardsHold(r, s);
    case TargetSession(_, _, _, _, _, _) => OwnSessionGuardsHold(r, s);
    case RosterSession(_, _, _, _) => OwnSessionGuardsHold(r, s);
    case RemoveNewSession(_, _, _) => OwnSessionGuardsHold(r, s);
    case _ => OwnOtherGuardsHold(r, s);
  }

  lemma OwnSingleWriteApplies(r: Request, s: Db)
    requires !r.MergeItems? && Consistent(s) && Writes(Plan(r, s))
    ensures PROGRAM.ApplyAll(Plan(r, s).writes, s) == Some(After(r, s))
  {
    SinglePlanShape(r, s);
    SinglePlanEffect(r, s);
    OwnVersionsHold(s);
    hide Consistent, Hits, Plan, After, RowWriteOf;
    VersionedApplies(AggregateOf(r), VersionOf(s, AggregateOf(r)), RowWriteOf(r, s), s);
  }

  lemma OwnMergeApplies(r: Request, s: Db)
    requires r.MergeItems? && Consistent(s) && Writes(Plan(r, s))
    ensures PROGRAM.ApplyAll(Plan(r, s).writes, s) == Some(After(r, s))
  {
    hide References, Hits, MergePlan, MergedState;
    assert s.vocabulary.rows != map[] && Plan(r, s) == MergePlan(s, r.kind, r.source, r.target);
    hide Plan;
    MergeWrites(s, r.kind, r.source, r.target);
  }

  lemma WritesAreGuarded(r: Request, s: Db)
    requires Writes(Plan(r, s))
    ensures Plan(r, s).guards != []
  {
    hide HasActiveTrack, RoomIsFree, ResolveTarget, Placed, Referenced, SessionsResolve, SlotsOf, OccurrencesIn, SessionsOf;
  }

  // A request that is accepted and undisturbed goes through: its own guards never refuse it.
  lemma AcceptedRequestCommits(r: Request, s: Db)
    requires Consistent(s) && Writes(Plan(r, s))
    ensures PROGRAM.Commit(Plan(r, s).guards, Plan(r, s).writes, s) == Committed(After(r, s))
    ensures Plan(r, s).guards != []
  {
    hide Consistent, Plan, After, Holds, Apply;
    WritesAreGuarded(r, s);
    OwnGuardsHold(r, s);
    if r.MergeItems? { OwnMergeApplies(r, s); } else { OwnSingleWriteApplies(r, s); }
  }

  // ---- Requests one after the other -----------------------------------------------------------

  // Five reads and a batch.
  function Turn(k: nat): seq<nat> {
    Repeat(k, 5) + [k]
  }

  function Turns(n: nat): seq<nat> {
    if n == 0 then [] else Turns(n - 1) + Turn(n - 1)
  }

  function InTurn(requests: seq<Request>, db: Db, n: nat): Db
    requires n <= |requests|
  {
    if n == 0 then db else After(requests[n - 1], InTurn(requests, db, n - 1))
  }

  ghost predicate AcceptedInTurn(requests: seq<Request>, db: Db, n: nat)
    requires n <= |requests|
  {
    forall k | 0 <= k < n :: Writes(Plan(requests[k], InTurn(requests, db, k)))
  }

  ghost predicate Fresh(y: ProgramSystem, requests: seq<Request>, maximumAttempts: nat, k: nat) {
    k < |y.clients| && k < |requests| && y.clients[k] == Client(WorkOf(requests[k]), maximumAttempts, 1, [], Pending)
  }

  lemma TurnCommits(requests: seq<Request>, maximumAttempts: nat, y: ProgramSystem, k: nat)
    requires Fresh(y, requests, maximumAttempts, k) && Consistent(y.db) && Writes(Plan(requests[k], y.db))
    ensures var y' := Run(PROGRAM, y, Turn(k));
            && y'.db == After(requests[k], y.db) && |y'.clients| == |y.clients|
            && forall j | 0 <= j < |y.clients| && j != k :: y'.clients[j] == y.clients[j]
  {
    hide Consistent, Plan, After, Holds, Apply;
    var r, c := requests[k], y.clients[k];
    ReadsInARun(PROGRAM, y, k, 5);
    var read := Run(PROGRAM, y, Repeat(k, 5));
    RunAppends(PROGRAM, y, Repeat(k, 5), [k]);
    assert [k][..0] == [];
    assert Run(PROGRAM, read, [k]) == Step(PROGRAM, read, k);
    assert Seen(read.clients[k].seen) == y.db;
    AcceptedRequestCommits(r, y.db);
  }

  // The first `n` requests have taken their turns and the others have not moved.
  ghost predicate Taken(requests: seq<Request>, db: Db, maximumAttempts: nat, y: ProgramSystem, n: nat)
    requires n <= |requests|
  {
    && y.db == InTurn(requests, db, n) && Consistent(y.db) && |y.clients| == |requests|
    && forall j | n <= j < |requests| :: Fresh(y, requests, maximumAttempts, j)
  }

  lemma NoneTaken(requests: seq<Request>, db: Db, maximumAttempts: nat)
    requires Consistent(db)
    ensures Taken(requests, db, maximumAttempts, Begin(db, WorksOf(requests), maximumAttempts), 0)
  {
    hide Consistent, Plan;
  }

  lemma OneMoreTaken(requests: seq<Request>, db: Db, maximumAttempts: nat, y: ProgramSystem, n: nat)
    requires n < |requests| && Taken(requests, db, maximumAttempts, y, n)
    requires Writes(Plan(requests[n], InTurn(requests, db, n)))
    ensures Taken(requests, db, maximumAttempts, Run(PROGRAM, y, Turn(n)), n + 1)
  {
    hide Consistent, Plan, After, Run;
    TurnCommits(requests, maximumAttempts, y, n);
    AfterIsConsistent(requests[n], y.db);
    var y' := Run(PROGRAM, y, Turn(n));
    assert y'.db == InTurn(requests, db, n + 1);
    forall j | n + 1 <= j < |requests| ensures Fresh(y', requests, maximumAttempts, j) {
      assert Fresh(y, requests, maximumAttempts, j);
    }
  }

  // Any number of requests that take their turns, each accepted where the one before it left the
  // tables, all commit.
  lemma {:induction false} TurnsCommit(requests: seq<Request>, db: Db, maximumAttempts: nat, n: nat)
    requires n <= |requests| && Consistent(db) && AcceptedInTurn(requests, db, n)
    ensures Run(PROGRAM, Begin(db, WorksOf(requests), maximumAttempts), Turns(n)).db == InTurn(requests, db, n)
    ensures Taken(requests, db, maximumAttempts, Run(PROGRAM, Begin(db, WorksOf(requests), maximumAttempts), Turns(n)), n)
  {
    var begin := Begin(db, WorksOf(requests), maximumAttempts);
    if n == 0 {
      NoneTaken(requests, db, maximumAttempts);
    } else {
      hide *;
      AcceptedBefore(requests, db, n);
      TurnsCommit(requests, db, maximumAttempts, n - 1);
      OneMoreTaken(requests, db, maximumAttempts, Run(PROGRAM, begin, Turns(n - 1)), n - 1);
      OneTurnLater(begin, n);
      TakenNow(requests, db, maximumAttempts, Run(PROGRAM, begin, Turns(n)), n);
    }
  }

  lemma AcceptedBefore(requests: seq<Request>, db: Db, n: nat)
    requires 0 < n <= |requests| && AcceptedInTurn(requests, db, n)
    ensures AcceptedInTurn(requests, db, n - 1) && Writes(Plan(requests[n - 1], InTurn(requests, db, n - 1)))
  {
    hide Plan, InTurn, Writes;
  }

  lemma OneTurnLater(begin: ProgramSystem, n: nat)
    requires n > 0
    ensures Run(PROGRAM, begin, Turns(n)) == Run(PROGRAM, Run(PROGRAM, begin, Turns(n - 1)), Turn(n - 1))
  {
    hide Run, Turn;
    RunAppends(PROGRAM, begin, Turns(n - 1), Turn(n - 1));
  }

  lemma TakenNow(requests: seq<Request>, db: Db, maximumAttempts: nat, y: ProgramSystem, n: nat)
    requires n <= |requests| && Taken(requests, db, maximumAttempts, y, n)
    ensures y.db == InTurn(requests, db, n)
  {
    hide InTurn, Consistent;
  }

  // ---- Two sessions in one room at one time ---------------------------------------------------

  const NO_PROGRAM := Db(Aggregate(None, map[]), Aggregate(None, map[]), Aggregate(None, map[]), Aggregate(None, map[]),
                         Aggregate(None, map[]), map[])

  const HALL := Item(Room, "Hall", None, true, 1)
  const ANNEX := Item(Room, "Annex", None, true, 1)
  const TALK := Item(Format, "Talk", None, true, 1)

  const VOCABULARY := Aggregate(Some(4), map["hall" := HALL, "annex" := ANNEX, "talk" := TALK])
  const SESSION := Session("talk", None, Collecting, [], 1)
  const SESSIONS := Aggregate(Some(3), map["first" := SESSION, "second" := SESSION])

  // Two rooms, a format, two sessions, each placed in a room of its own, and the merge of the rooms.
  function Overbooking(start: int, end: int, start': int, end': int): seq<Request> {
    [CreateItem("hall", Room, "Hall", None, 1), CreateItem("annex", Room, "Annex", None, 2),
     CreateItem("talk", Format, "Talk", None, 3),
     CreateSession("first", "talk", None, Collecting, 1), CreateSession("second", "talk", None, Collecting, 2),
     PlaceOccurrence("o", "first", "annex", start, end, 1), PlaceOccurrence("p", "second", "hall", start', end', 2),
     MergeItems(Room, "annex", "hall", 4, 1, 1)]
  }

  function Placements(start: int, end: int, start': int, end': int): Aggregate<Occurrence> {
    Aggregate(Some(3), map["o" := Occurrence("first", "annex", start, end, 1), "p" := Occurrence("second", "hall", start', end', 1)])
  }

  lemma OneMoreAccepted(requests: seq<Request>, db: Db, n: nat, s: Db)
    requires n < |requests| && AcceptedInTurn(requests, db, n) && InTurn(requests, db, n) == s
    requires Writes(Plan(requests[n], s))
    ensures AcceptedInTurn(requests, db, n + 1) && InTurn(requests, db, n + 1) == After(requests[n], s)
  {
    hide Plan, After;
  }

  lemma SessionIsAccepted(s: Db, id: Id)
    requires ActiveItem(s, Format, "talk") && id !in s.sessions.rows && !HasActiveTrack(s)
    ensures var r := CreateSession(id, "talk", None, Collecting, VersionOf(s, Sessions));
            Writes(Plan(r, s)) && After(r, s) == WithSession(s, id, SESSION)
  {
  }

  lemma PlacementIsAccepted(s: Db, id: Id, session: Id, room: Id, start: int, end: int)
    requires ActiveItem(s, Room, room) && id !in s.schedule.rows && RoomIsFree(s, room, id, start, end)
    requires session in s.sessions.rows && s.sessions.rows[session] == SESSION && !HasActiveTrack(s)
    ensures var r := PlaceOccurrence(id, session, room, start, end, VersionOf(s, Schedule));
            Writes(Plan(r, s)) && After(r, s) == WithOccurrence(s, id, Occurrence(session, room, start, end, 1))
  {
    hide HasActiveTrack, RoomIsFree;
  }

  lemma RoomMergeIsAccepted(s: Db, source: Id, target: Id)
    requires source != target && ActiveItem(s, Room, source) && ActiveItem(s, Room, target)
    ensures var r := MergeItems(Room, source, target, VersionOf(s, Vocabulary),
                                s.vocabulary.rows[source].version, s.vocabulary.rows[target].version);
            Writes(Plan(r, s)) && After(r, s) == MergedState(s, Room, source, target)
  {
    assert SessionsOf(s, Room, source) == map[];
    assert SessionsResolve(s, Room, source);
    hide SessionsResolve, SessionsOf, SlotsOf, OccurrencesIn, MergedState;
  }

  lemma VocabularyIsAccepted(requests: seq<Request>, start: int, end: int, start': int, end': int)
    requires requests == Overbooking(start, end, start', end')
    ensures AcceptedInTurn(requests, NO_PROGRAM, 3) && InTurn(requests, NO_PROGRAM, 3) == NO_PROGRAM.(vocabulary := VOCABULARY)
  {
    var v1 := Aggregate(Some(2), map["hall" := HALL]);
    var v2 := Aggregate(Some(3), map["hall" := HALL, "annex" := ANNEX]);
    assert InTurn(requests, NO_PROGRAM, 1) == NO_PROGRAM.(vocabulary := v1);
    assert InTurn(requests, NO_PROGRAM, 2) == NO_PROGRAM.(vocabulary := v2);
  }

  function Prepared(start: int, end: int, start': int, end': int): Db {
    NO_PROGRAM.(vocabulary := VOCABULARY, sessions := SESSIONS, schedule := Placements(start, end, start', end'))
  }

  lemma SessionsAreAccepted(requests: seq<Request>, start: int, end: int, start': int, end': int)
    requires requests == Overbooking(start, end, start', end')
    ensures AcceptedInTurn(requests, NO_PROGRAM, 5)
    ensures InTurn(requests, NO_PROGRAM, 5) == NO_PROGRAM.(vocabulary := VOCABULARY, sessions := SESSIONS)
  {
    VocabularyIsAccepted(requests, start, end, start', end');
    hide AcceptedInTurn, InTurn, Plan, After;
    var s := NO_PROGRAM.(vocabulary := VOCABULARY);
    SessionIsAccepted(s, "first");
    OneMoreAccepted(requests, NO_PROGRAM, 3, s);
    var t := WithSession(s, "first", SESSION);
    SessionIsAccepted(t, "second");
    OneMoreAccepted(requests, NO_PROGRAM, 4, t);
  }

  lemma PlacementsAreAccepted(requests: seq<Request>, start: int, end: int, start': int, end': int)
    requires requests == Overbooking(start, end, start', end')
    ensures AcceptedInTurn(requests, NO_PROGRAM, 7)
    ensures InTurn(requests, NO_PROGRAM, 7) == Prepared(start, end, start', end')
  {
    SessionsAreAccepted(requests, start, end, start', end');
    hide AcceptedInTurn, InTurn, Plan, After;
    var s := NO_PROGRAM.(vocabulary := VOCABULARY, sessions := SESSIONS);
    PlacementIsAccepted(s, "o", "first", "annex", start, end);
    OneMoreAccepted(requests, NO_PROGRAM, 5, s);
    var t := WithOccurrence(s, "o", Occurrence("first", "annex", start, end, 1));
    PlacementIsAccepted(t, "p", "second", "hall", start', end');
    OneMoreAccepted(requests, NO_PROGRAM, 6, t);
  }

  lemma MergeIsAccepted(requests: seq<Request>, start: int, end: int, start': int, end': int)
    requires requests == Overbooking(start, end, start', end')
    ensures AcceptedInTurn(requests, NO_PROGRAM, 8)
    ensures InTurn(requests, NO_PROGRAM, 8) == MergedState(Prepared(start, end, start', end'), Room, "annex", "hall")
  {
    PlacementsAreAccepted(requests, start, end, start', end');
    hide AcceptedInTurn, InTurn, Plan, After, MergedState;
    var s := Prepared(start, end, start', end');
    RoomMergeIsAccepted(s, "annex", "hall");
    OneMoreAccepted(requests, NO_PROGRAM, 7, s);
  }

  // From an empty event eight accepted requests -- the room merge is the last -- bring any two
  // overlapping times into one room. The requests before it keep rooms free.
  lemma AMergeOverbooksARoom(start: int, end: int, start': int, end': int, maximumAttempts: nat)
    requires start < end' && start' < end
    ensures var requests := Overbooking(start, end, start', end');
            var begin := Begin(NO_PROGRAM, WorksOf(requests), maximumAttempts);
            && Consistent(NO_PROGRAM) && RoomsFree(NO_PROGRAM)
            && MergesRooms(requests[7]) && (forall k | 0 <= k < 7 :: !requests[k].MergeItems?)
            && RoomsFree(Run(PROGRAM, begin, Turns(7)).db) && !RoomsFree(Run(PROGRAM, begin, Turns(8)).db)
  {
    var requests := Overbooking(start, end, start', end');
    hide InTurn, AcceptedInTurn, Plan, After, Run, MergedState, Taken;
    PlacementsAreAccepted(requests, start, end, start', end');
    MergeIsAccepted(requests, start, end, start', end');
    TurnsCommit(requests, NO_PROGRAM, maximumAttempts, 7);
    TurnsCommit(requests, NO_PROGRAM, maximumAttempts, 8);
    var s := Prepared(start, end, start', end');
    RoomMergeKeepsRoomsFreeExactlyWhen(s, "annex", "hall");
    assert !Disjoint(s.schedule.rows["o"], s.schedule.rows["p"]);
  }
}
