// The attempt of a request is nobody else's to resolve.
module FileAttempts {
  import opened Wrappers
  import opened AtomicBatch
  import opened FileListing
  import opened FileTransfers
  import opened FileWorld
  import opened FileSafety

  lemma UnitsAreTables(w: World, u: Unit)
    ensures AfterUnit(w, u) == w.(db := AfterUnit(w, u).db)
  {
    hide Submit;
  }

  // A wake leaves the requests alone and puts nothing into the store.
  lemma WakesOnlyRemove(w: World, e: Event)
    ensures StepWake(w, e).uploads == w.uploads && StepWake(w, e).objects.Keys <= w.objects.Keys
  {
    hide StepWake;
    match e
    case Expire(id, intent, answered) => ExpiryLeavesTheStore(w, id, intent, answered);
    case Drop(id, asset, answered) => DropLeavesTheStore(w, id, asset, answered);
    case CheckNext(id, answered) => CheckLeavesTheStore(w, id, answered);
    case DeleteObject(_) => DeletionsOnlyRemove(w, e);
    case LateDelete(_) => DeletionsOnlyRemove(w, e);
    case _ => OthersLeaveTheStore(w, e);
  }

  lemma ExpiryLeavesTheStore(w: World, id: Id, intent: Intent, answered: bool)
    ensures var t := StepWake(w, Expire(id, intent, answered)); t.uploads == w.uploads && t.objects == w.objects
  {
    UnitsAreTables(w, ExpireIntent(intent));
    hide AfterUnit, Commits, Sweeps;
  }

  lemma DropLeavesTheStore(w: World, id: Id, asset: Asset, answered: bool)
    ensures var t := StepWake(w, Drop(id, asset, answered)); t.uploads == w.uploads && t.objects == w.objects
  {
    UnitsAreTables(w, DropOrphan(asset));
    hide AfterUnit, Commits, Sweeps;
  }

  lemma CheckLeavesTheStore(w: World, id: Id, answered: bool)
    ensures var t := StepWake(w, CheckNext(id, answered)); t.uploads == w.uploads && t.objects == w.objects
  {
    hide Referenced;
  }

  lemma OthersLeaveTheStore(w: World, e: Event)
    requires !e.Expire? && !e.Drop? && !e.CheckNext? && !e.DeleteObject? && !e.LateDelete?
    ensures StepWake(w, e).uploads == w.uploads && StepWake(w, e).objects == w.objects
  {
    hide Lists, Sweeps, Deletes;
  }

  lemma DeletionsOnlyRemove(w: World, e: Event)
    requires e.DeleteObject? || e.LateDelete?
    ensures StepWake(w, e).uploads == w.uploads && StepWake(w, e).objects.Keys <= w.objects.Keys
  {
  }

  // The request an event belongs to.
  function Actor(e: Event): Option<Id> {
    match e
    case OpenUpload(p, _, _, _) => Some(p)
    case ClaimAttempt(p, _) => Some(p)
    case DiscardLateUpload(p) => Some(p)
    case WriteObject(p, _) => Some(p)
    case WriteFails(p, _) => Some(p)
    case RefuseStream(p, _) => Some(p)
    case PersistUpload(p, _, _, _, _) => Some(p)
    case FinishRefusal(p, _, _) => Some(p)
    case FinishAmbiguous(p, _, _) => Some(p)
    case _ => None
  }

  ghost predicate At(w: World, upload: Id, u: Upload) {
    upload in w.uploads && w.uploads[upload] == u
  }

  lemma OthersLeaveMeAlone(w: World, e: Event, p: Id, u: Upload)
    requires Actor(e) != Some(p) && At(w, p, u)
    ensures At(Step(w, e), p, u)
  {
    hide Submit;
  }

  lemma OthersLeaveMyAttempt(w: World, e: Event, p: Id, u: Upload)
    requires WorldSound(w) && At(w, p, u) && u.Tracks() && Actor(e) != Some(p)
    ensures u.attemptId in w.db.attempts && u.attemptId in Step(w, e).db.attempts
    ensures Step(w, e).db.attempts[u.attemptId] == w.db.attempts[u.attemptId]
  {
    hide WorldSound, Step, At, Actor;
    MyAttemptIsMine(w, p, u);
    if Actor(e).Some? && Actor(e).value in w.uploads {
      var q := Actor(e).value;
      assert w.uploads[q].Tracks() ==> w.uploads[q].attemptId != u.attemptId;
      RequestsLeaveOtherAttempts(w, e, q, u.attemptId);
    } else if Actor(e).Some? {
      StrangersDoNothing(w, e);
    } else {
      NobodysEvent(e);
      TablesButAttempts(w, e);
    }
  }

  lemma NobodysEvent(e: Event)
    requires Actor(e).None?
    ensures !e.ClaimAttempt? && !e.PersistUpload? && !e.FinishRefusal? && !e.FinishAmbiguous?
  {
  }

  lemma StrangersDoNothing(w: World, e: Event)
    requires Actor(e).Some? && Actor(e).value !in w.uploads
    ensures Step(w, e).db == w.db
  {
    hide StepWake;
  }

  lemma RequestsLeaveOtherAttempts(w: World, e: Event, q: Id, a: Id)
    requires Actor(e) == Some(q) && q in w.uploads && a in w.db.attempts
    requires w.uploads[q].Tracks() ==> w.uploads[q].attemptId != a
    ensures a in Step(w, e).db.attempts && Step(w, e).db.attempts[a] == w.db.attempts[a]
  {
    hide Step;
    if e.ClaimAttempt? {
      OthersClaim(w, q, e.answered, a);
    } else if e.PersistUpload? {
      OthersPersist(w, q, e.contentType, e.at, e.answered, e.again, a);
    } else if e.FinishRefusal? {
      OthersFinishRefusal(w, q, e.at, e.answered, a);
    } else if e.FinishAmbiguous? {
      OthersFinishAmbiguous(w, q, e.code, e.at, a);
    } else {
      TablesButAttempts(w, e);
    }
  }

  lemma MyAttemptIsMine(w: World, p: Id, u: Upload)
    requires WorldSound(w) && At(w, p, u) && u.Tracks()
    ensures u.attemptId in w.db.attempts
    ensures forall q :: q in w.uploads && q != p && w.uploads[q].Tracks() ==> w.uploads[q].attemptId != u.attemptId
  {
    assert UploadSound(u, w.db);
    hide UploadSound, TablesSound, BytesSound;
  }

  lemma OthersClaim(w: World, q: Id, answered: bool, a: Id)
    requires a in w.db.attempts
    ensures var s := Step(w, ClaimAttempt(q, answered)).db; a in s.attempts && s.attempts[a] == w.db.attempts[a]
  {
    if q in w.uploads && w.uploads[q].phase.Ready? {
      var u := w.uploads[q];
      if Commits(w, Claim(u.snapshot, u.attemptId, u.phase.now)) {
        ClaimCommits(u.snapshot, u.attemptId, u.phase.now, w.db, Submit(Claim(u.snapshot, u.attemptId, u.phase.now), w.db).after);
      }
    }
  }

  lemma OthersPersist(w: World, q: Id, contentType: string, at: Ms, answered: bool, again: bool, a: Id)
    requires a in w.db.attempts && (q in w.uploads && w.uploads[q].Tracks() ==> w.uploads[q].attemptId != a)
    ensures var s := Step(w, PersistUpload(q, contentType, at, answered, again)).db;
            a in s.attempts && s.attempts[a] == w.db.attempts[a]
  {
    if q in w.uploads && w.uploads[q].phase.Wrote? {
      var u := w.uploads[q];
      var unit := PersistStored(u.snapshot, contentType, u.phase.content, u.attemptId, at);
      if Commits(w, unit) {
        PersistCommits(u.snapshot, contentType, u.phase.content, u.attemptId, at, w.db, Submit(unit, w.db).after);
      }
    }
  }

  lemma OthersFinishRefusal(w: World, q: Id, at: Ms, answered: bool, a: Id)
    requires a in w.db.attempts && (q in w.uploads && w.uploads[q].Tracks() ==> w.uploads[q].attemptId != a)
    ensures var s := Step(w, FinishRefusal(q, at, answered)).db; a in s.attempts && s.attempts[a] == w.db.attempts[a]
  {
    if q in w.uploads && w.uploads[q].phase.Refusing? {
      OthersFinish(w, w.uploads[q].attemptId, SafeRefusal, w.uploads[q].phase.code, at, a);
    }
  }

  lemma OthersFinishAmbiguous(w: World, q: Id, code: string, at: Ms, a: Id)
    requires a in w.db.attempts && (q in w.uploads && w.uploads[q].Tracks() ==> w.uploads[q].attemptId != a)
    ensures var s := Step(w, FinishAmbiguous(q, code, at)).db; a in s.attempts && s.attempts[a] == w.db.attempts[a]
  {
    if q in w.uploads && w.uploads[q].phase.Failing? {
      OthersFinish(w, w.uploads[q].attemptId, AmbiguousFailure, code, at, a);
    }
  }

  lemma OthersFinish(w: World, b: Id, state: AttemptState, code: string, at: Ms, a: Id)
    requires (state == SafeRefusal || state == AmbiguousFailure) && a in w.db.attempts && a != b
    ensures var s := AfterUnit(w, FinishAttempt(b, state, code, at)).db; a in s.attempts && s.attempts[a] == w.db.attempts[a]
  {
    if Commits(w, FinishAttempt(b, state, code, at)) {
      FinishCommits(b, state, code, at, w.db, Submit(FinishAttempt(b, state, code, at), w.db).after);
    }
  }

  // The units of every other event leave the attempts alone.
  lemma UnitKeepsAttempts(w: World, e: Event, u: Unit)
    requires match e
             case RegisterIntent(intent) => u == Registration(intent)
             case DiscardLateUpload(p) => p in w.uploads && u == DiscardExpired(w.uploads[p].snapshot)
             case ConfirmUpload(intent, asset) => u == Confirm(intent, asset)
             case AttachAsset(attachment, asset) => u == Attach(attachment, asset)
             case Expire(_, intent, _) => u == ExpireIntent(intent)
             case Drop(_, asset, _) => u == DropOrphan(asset)
             case _ => false
    ensures AfterUnit(w, u).db.attempts == w.db.attempts
  {
    if Commits(w, u) {
      var s' := Submit(u, w.db).after;
      match e
      case RegisterIntent(intent) => RegistrationCommits(intent, w.db, s');
      case DiscardLateUpload(p) => DiscardCommits(u, w.uploads[p].snapshot, w.db, s');
      case ConfirmUpload(intent, asset) => ConfirmCommits(intent, asset, w.db, s');
      case AttachAsset(attachment, asset) => AttachCommits(attachment, asset, w.db, s');
      case Expire(_, intent, _) => DiscardCommits(u, intent, w.db, s');
      case Drop(_, asset, _) => DropCommits(asset, w.db, s');
    }
  }

  lemma TablesButAttempts(w: World, e: Event)
    requires !e.ClaimAttempt? && !e.PersistUpload? && !e.FinishRefusal? && !e.FinishAmbiguous?
    ensures Step(w, e).db.attempts == w.db.attempts
  {
    hide AfterUnit, StepWake, Uncertain, Mints;
    match e
    case RegisterIntent(intent) => UnitKeepsAttempts(w, e, Registration(intent));
    case DiscardLateUpload(p) => if p in w.uploads { UnitKeepsAttempts(w, e, DiscardExpired(w.uploads[p].snapshot)); }
    case ConfirmUpload(intent, asset) => UnitKeepsAttempts(w, e, Confirm(intent, asset));
    case AttachAsset(attachment, asset) => UnitKeepsAttempts(w, e, Attach(attachment, asset));
    case _ => WakesKeepAttempts(w, e);
  }

  lemma WakesKeepAttempts(w: World, e: Event)
    ensures StepWake(w, e).db.attempts == w.db.attempts
  {
    hide StepWake;
    if e.Expire? { ExpiryKeepsAttempts(w, e); } else if e.Drop? { DropKeepsAttempts(w, e); } else { OthersKeepTables(w, e); }
  }

  lemma ExpiryKeepsAttempts(w: World, e: Event)
    requires e.Expire?
    ensures StepWake(w, e).db.attempts == w.db.attempts
  {
    UnitKeepsAttempts(w, e, ExpireIntent(e.intent));
    hide AfterUnit, Commits, Sweeps;
  }

  lemma DropKeepsAttempts(w: World, e: Event)
    requires e.Drop?
    ensures StepWake(w, e).db.attempts == w.db.attempts
  {
    UnitKeepsAttempts(w, e, DropOrphan(e.asset));
    hide AfterUnit, Commits, Sweeps;
  }

  lemma OthersKeepTables(w: World, e: Event)
    requires !e.Expire? && !e.Drop?
    ensures StepWake(w, e).db == w.db
  {
    hide Referenced, Lists, Sweeps, Checks;
  }
}
