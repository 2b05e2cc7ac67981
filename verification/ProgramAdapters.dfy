// The domain adapters that put a program change into a unit of work: they guard what they read when
// the handler opens its snapshot, remember the plan they prepared, and buffer it once.
module ProgramAdapters {
  import opened Wrappers
  import opened AtomicBatch
  import opened ProgramTables
  import opened ProgramSafety
  import opened ProgramEffects

  type ProgramUnit = BufferedUnitOfWork<Db, Guard, Write>

  datatype Phase = NothingPrepared | Prepared(request: Request, tables: Db) | Applied(request: Request, tables: Db)

  // The row guards a plan adds when it is applied, after the version guards of the open snapshot.
  function RowGuards(r: Request, m: Db): seq<Guard>
    requires !r.MergeItems? && Writes(Plan(r, m)) && |VersionGuards(r, m)| <= |Plan(r, m).guards|
  {
    Plan(r, m).guards[|VersionGuards(r, m)|..]
  }

  function VersionGuards(r: Request, m: Db): seq<Guard> {
    match AggregateOf(r)
    case Schedule => ScheduleGuards(m)
    case Sessions => SessionGuards(m)
    case a => [VersionIs(a, VersionOf(m, a))]
  }

  lemma VersionGuardsComeFirst(r: Request, m: Db)
    requires !r.MergeItems? && Writes(Plan(r, m))
    ensures VersionGuards(r, m) <= Plan(r, m).guards
  {
    hide HasActiveTrack, RoomIsFree, ResolveTarget, Placed, Referenced;
  }

  class ProgramAdapter {
    const unitOfWork: ProgramUnit
    var phase: Phase

    constructor (unitOfWork: ProgramUnit)
      ensures this.unitOfWork == unitOfWork && phase == NothingPrepared
    {
      this.unitOfWork, phase := unitOfWork, NothingPrepared;
    }

    // openHandlerSnapshot: one guard per aggregate the request depends on.
    method OpenHandlerSnapshot(request: Request, tables: Db)
      requires !request.MergeItems?
      modifies this, unitOfWork
      ensures phase == NothingPrepared && unitOfWork.writes == old(unitOfWork.writes)
      ensures unitOfWork.guards == old(unitOfWork.guards) + VersionGuards(request, tables)
    {
      phase := NothingPrepared;
      var aggregate := AggregateOf(request);
      unitOfWork.AssertCurrent(VersionIs(aggregate, VersionOf(tables, aggregate)));
      if aggregate == Schedule { unitOfWork.AssertCurrent(VersionIs(Sessions, VersionOf(tables, Sessions))); }
      if aggregate == Schedule || aggregate == Sessions {
        unitOfWork.AssertCurrent(VersionIs(Vocabulary, VersionOf(tables, Vocabulary)));
      }
    }

    // prepare: plan on the snapshot and remember the plan when there is something to write.
    method Prepare(request: Request, tables: Db) returns (result: Result)
      requires Plan(request, tables).Finish?
      modifies this
      ensures result == Plan(request, tables).value
      ensures phase == if Writes(Plan(request, tables)) then Prepared(request, tables) else old(phase)
    {
      var action := Plan(request, tables);
      if |action.writes| != 0 { phase := Prepared(request, tables); }
      return action.value;
    }

    // applyDomainContribution: refuses anything but the prepared plan, and refuses it twice.
    method ApplyDomainContribution(request: Request, tables: Db) returns (applied: bool)
      requires !request.MergeItems?
      requires phase.Prepared? ==> Writes(Plan(phase.request, phase.tables))
      modifies this, unitOfWork
      ensures applied <==> old(phase) == Prepared(request, tables)
      ensures applied ==>
                && phase == Applied(request, tables) && VersionGuards(request, tables) <= Plan(request, tables).guards
                && unitOfWork.guards == old(unitOfWork.guards) + RowGuards(request, tables)
                && unitOfWork.writes == old(unitOfWork.writes) + Plan(request, tables).writes
      ensures !applied ==>
                phase == old(phase) && unitOfWork.guards == old(unitOfWork.guards) && unitOfWork.writes == old(unitOfWork.writes)
    {
      if phase != Prepared(request, tables) { return false; }
      VersionGuardsComeFirst(request, tables);
      BufferRowGuards(request, tables);
      BufferWrites(request, tables);
      phase := Applied(request, tables);
      return true;
    }

    method BufferRowGuards(request: Request, tables: Db)
      requires !request.MergeItems?
      requires Writes(Plan(request, tables)) && VersionGuards(request, tables) <= Plan(request, tables).guards
      modifies unitOfWork
      ensures unitOfWork.guards == old(unitOfWork.guards) + RowGuards(request, tables)
      ensures unitOfWork.writes == old(unitOfWork.writes)
    {
      hide Plan;
      var aggregate := AggregateOf(request);
      if aggregate == Schedule { BufferScheduleGuards(request, tables); }
      else if aggregate == Sessions { BufferSessionGuards(request, tables); }
      else { BufferItemGuards(request, tables); }
    }

    method BufferScheduleGuards(request: Request, tables: Db)
      requires AggregateOf(request) == Schedule
      requires Writes(Plan(request, tables)) && VersionGuards(request, tables) <= Plan(request, tables).guards
      modifies unitOfWork
      ensures unitOfWork.guards == old(unitOfWork.guards) + RowGuards(request, tables)
      ensures unitOfWork.writes == old(unitOfWork.writes)
    {
      hide HasActiveTrack, RoomIsFree;
      match request {
        case PlaceOccurrence(id, _, room, start, end, _) =>
          unitOfWork.AssertCurrent(OccurrenceAbsent(id));
          unitOfWork.AssertCurrent(RoomFree(room, id, start, end));
        case MoveOccurrence(id, room, start, end, _, _) =>
          unitOfWork.AssertCurrent(OccurrenceIs(id, tables.schedule.rows[id]));
          unitOfWork.AssertCurrent(RoomFree(room, id, start, end));
        case UnplaceOccurrence(id, _, _) =>
          unitOfWork.AssertCurrent(OccurrenceIs(id, tables.schedule.rows[id]));
      }
    }

    method BufferSessionGuards(request: Request, tables: Db)
      requires AggregateOf(request) == Sessions
      requires Writes(Plan(request, tables)) && VersionGuards(request, tables) <= Plan(request, tables).guards
      modifies unitOfWork
      ensures unitOfWork.guards == old(unitOfWork.guards) + RowGuards(request, tables)
      ensures unitOfWork.writes == old(unitOfWork.writes)
    {
      hide ResolveTarget, Placed;
      match request {
        case CreateSession(id, _, _, _, _) =>
          unitOfWork.AssertCurrent(SessionAbsent(id));
        case TargetSession(id, _, _, _, _, _) =>
          unitOfWork.AssertCurrent(SessionIs(id, tables.sessions.rows[id]));
        case RosterSession(id, _, _, _) =>
          unitOfWork.AssertCurrent(SessionIs(id, tables.sessions.rows[id]));
        case RemoveNewSession(id, _, _) =>
          unitOfWork.AssertCurrent(SessionIs(id, tables.sessions.rows[id]));
          unitOfWork.AssertCurrent(SessionUnplaced(id));
      }
    }

    method BufferItemGuards(request: Request, tables: Db)
      requires !request.MergeItems? && AggregateOf(request) != Schedule && AggregateOf(request) != Sessions
      requires Writes(Plan(request, tables)) && VersionGuards(request, tables) <= Plan(request, tables).guards
      modifies unitOfWork
      ensures unitOfWork.guards == old(unitOfWork.guards) + RowGuards(request, tables)
      ensures unitOfWork.writes == old(unitOfWork.writes)
    {
      hide Referenced;
      match request {
        case CreateItem(id, _, _, _, _) =>
          unitOfWork.AssertCurrent(ItemAbsent(id));
        case EditItem(id, _, _, _, _, _) =>
          unitOfWork.AssertCurrent(ItemIs(id, tables.vocabulary.rows[id]));
        case SwitchItem(id, _, _, _, _) =>
          unitOfWork.AssertCurrent(ItemIs(id, tables.vocabulary.rows[id]));
        case RemoveItem(id, kind, _, _) =>
          unitOfWork.AssertCurrent(ItemIs(id, tables.vocabulary.rows[id]));
          unitOfWork.AssertCurrent(Unreferenced(id, kind));
        case CreateDeadline(_, _, _) =>
        case ChangeDeadline(_, _, _, _) =>
      }
    }

    method BufferWrites(request: Request, tables: Db)
      requires !request.MergeItems? && Writes(Plan(request, tables))
      modifies unitOfWork
      ensures unitOfWork.writes == old(unitOfWork.writes) + Plan(request, tables).writes
      ensures unitOfWork.guards == old(unitOfWork.guards)
    {
      SinglePlanShape(request, tables);
      hide Plan;
      var aggregate := AggregateOf(request);
      var version := VersionOf(tables, aggregate);
      if version == 1 { unitOfWork.Write(InsertSet(aggregate)); }
      unitOfWork.Write(RowWriteOf(request, tables));
      if version != 1 { unitOfWork.Write(UpdateSet(aggregate, version)); }
    }
  }

  // One whole operation puts exactly the request's plan into a fresh unit, or nothing at all.
  method BufferOperation(unitOfWork: ProgramUnit, request: Request, tables: Db) returns (result: Result)
    requires !request.MergeItems? && Plan(request, tables).Finish?
    requires unitOfWork.guards == [] && unitOfWork.writes == []
    modifies unitOfWork
    ensures result == Plan(request, tables).value && unitOfWork.writes == Plan(request, tables).writes
    ensures Writes(Plan(request, tables)) ==> unitOfWork.guards == Plan(request, tables).guards
  {
    hide Plan;
    var adapter := new ProgramAdapter(unitOfWork);
    adapter.OpenHandlerSnapshot(request, tables);
    result := adapter.Prepare(request, tables);
    if adapter.phase.Prepared? {
      var applied := adapter.ApplyDomainContribution(request, tables);
    }
  }
}
