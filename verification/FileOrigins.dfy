// Where the objects in the store come from: in every reachable world each of them has an attempt of
// its intent that may have written it.
module FileOrigins {
  import opened Wrappers
  import opened AtomicBatch
  import opened FileListing
  import opened FileTransfers
  import opened FileWorld
  import opened FileSafety
  import opened FileAttempts
  import opened FileRuns
  import opened FileTheorems

  ghost predicate Writes(w: World, p: Id, a: Id) {
    p in w.uploads && w.uploads[p].attemptId == a && w.uploads[p].phase.Wrote?
  }

  // An attempt that may have put an object there: its bytes are on record, it is uncertain, or its
  // request has written and not yet said so.
  ghost predicate Origin(w: World, a: Id, ref: Ref) {
    && a in w.db.attempts && w.db.attempts[a].ref == ref
    && (w.db.attempts[a].state == StoredBytes || Uncertain(w, a) || exists p :: Writes(w, p, a))
  }

  ghost predicate Traced(w: World) {
    && (forall k :: k in w.objects ==> exists a :: Origin(w, a, k.ref))
    && (forall p :: p in w.uploads && w.uploads[p].phase.Wrote? ==> w.uploads[p].phase.content.byteSize > 0)
  }

  // Who owns an attempt after a step owned it before, or has just claimed a fresh one.
  lemma OwnersComeFromClaims(w: World, e: Event, q: Id)
    requires q in Step(w, e).uploads && Step(w, e).uploads[q].Owns()
    ensures q in w.uploads && w.uploads[q].attemptId == Step(w, e).uploads[q].attemptId
    ensures w.uploads[q].Owns() || w.uploads[q].attemptId !in w.db.attempts
  {
    hide Submit, StepWake, StepClaim, StepPersist;
    WakesOnlyRemove(w, e);
    if e.ClaimAttempt? {
      ClaimOwners(w, e.upload, e.answered, q);
    } else if e.PersistUpload? && e.upload in w.uploads && w.uploads[e.upload].phase.Wrote? {
      PersistOwners(w, e.upload, e.contentType, e.at, e.answered, e.again, q);
    }
  }

  lemma PersistOwners(w: World, p: Id, contentType: string, at: Ms, answered: bool, again: bool, q: Id)
    requires p in w.uploads && w.uploads[p].phase.Wrote?
    requires q in StepPersist(w, p, contentType, at, answered, again).uploads
    requires StepPersist(w, p, contentType, at, answered, again).uploads[q].Owns()
    ensures q in w.uploads && w.uploads[q].Owns()
    ensures w.uploads[q].attemptId == StepPersist(w, p, contentType, at, answered, again).uploads[q].attemptId
  {
    hide Submit;
  }

  lemma ClaimOwners(w: World, p: Id, answered: bool, q: Id)
    requires q in StepClaim(w, p, answered).uploads && StepClaim(w, p, answered).uploads[q].Owns()
    ensures q in w.uploads && w.uploads[q].attemptId == StepClaim(w, p, answered).uploads[q].attemptId
    ensures w.uploads[q].Owns() || w.uploads[q].attemptId !in w.db.attempts
  {
    hide Submit;
    if p == q && q in w.uploads && w.uploads[q].phase.Ready? { ClaimIsFresh(w, w.uploads[q]); }
  }

  lemma ClaimIsFresh(w: World, u: Upload)
    requires u.phase.Ready?
    ensures Commits(w, Claim(u.snapshot, u.attemptId, u.phase.now)) ==> u.attemptId !in w.db.attempts
  {
    if Commits(w, Claim(u.snapshot, u.attemptId, u.phase.now)) {
      ClaimCommits(u.snapshot, u.attemptId, u.phase.now, w.db,
                   Submit(Claim(u.snapshot, u.attemptId, u.phase.now), w.db).after);
    }
  }

  // An attempt nobody owns is left alone or given up as ambiguous.
  lemma UnownedAttempt(w: World, e: Event, a: Id)
    requires a in w.db.attempts && w.db.attempts[a].state == Claimed && Unowned(w.uploads, a)
    ensures a in Step(w, e).db.attempts
    ensures Step(w, e).db.attempts[a] == w.db.attempts[a] || Step(w, e).db.attempts[a].state == AmbiguousFailure
  {
    hide Submit, StepWake, StepClaim, StepPersist;
    if e.ClaimAttempt? {
      OthersClaim(w, e.upload, e.answered, a);
    } else if e.PersistUpload? {
      if e.upload in w.uploads && w.uploads[e.upload].phase.Wrote? {
        OthersPersist(w, e.upload, e.contentType, e.at, e.answered, e.again, a);
      }
    } else if e.FinishRefusal? {
      if e.upload in w.uploads && w.uploads[e.upload].phase.Refusing? {
        OthersFinishRefusal(w, e.upload, e.at, e.answered, a);
      }
    } else if e.FinishAmbiguous? {
      GivenUpOrLeft(w, e.upload, e.code, e.at, a);
    } else {
      TablesButAttempts(w, e);
    }
  }

  lemma GivenUpOrLeft(w: World, q: Id, code: string, at: Ms, a: Id)
    requires a in w.db.attempts
    ensures var s := Step(w, FinishAmbiguous(q, code, at)).db;
            a in s.attempts && (s.attempts[a] == w.db.attempts[a] || s.attempts[a].state == AmbiguousFailure)
  {
    if q in w.uploads && w.uploads[q].phase.Failing? {
      var b := w.uploads[q].attemptId;
      if b != a {
        OthersFinish(w, b, AmbiguousFailure, code, at, a);
      } else if Commits(w, FinishAttempt(b, AmbiguousFailure, code, at)) {
        FinishCommits(b, AmbiguousFailure, code, at, w.db,
                      Submit(FinishAttempt(b, AmbiguousFailure, code, at), w.db).after);
      }
    }
  }

  lemma UncertainStays(w: World, e: Event, a: Id)
    requires WorldSound(w) && Uncertain(w, a)
    ensures Uncertain(Step(w, e), a)
  {
    var w' := Step(w, e);
    StepKeeps(w, e);
    assert AttemptLater(w.db.attempts[a], w'.db.attempts[a]);
    hide Step, WorldSound, TablesLater;
    if w.db.attempts[a].state == Claimed {
      UnownedAttempt(w, e, a);
      forall q | q in w'.uploads && w'.uploads[q].attemptId == a ensures !w'.uploads[q].Owns() {
        if w'.uploads[q].Owns() { OwnersComeFromClaims(w, e, q); }
      }
    }
  }

  // The writer's own event records the bytes, is tried again, or leaves the attempt uncertain.
  lemma WriterMoves(w: World, p: Id, a: Id, contentType: string, at: Ms, answered: bool, again: bool)
    requires WorldSound(w) && Writes(w, p, a)
    ensures var w' := Step(w, PersistUpload(p, contentType, at, answered, again));
            a in w'.db.attempts && (w'.db.attempts[a].state == StoredBytes || Uncertain(w', a) || Writes(w', p, a))
  {
    hide TablesSound, BytesSound, AttemptAllowed;
    var u, w' := w.uploads[p], Step(w, PersistUpload(p, contentType, at, answered, again));
    var unit := PersistStored(u.snapshot, contentType, u.phase.content, a, at);
    assert UploadSound(u, w.db);
    if Commits(w, unit) {
      PersistCommits(u.snapshot, contentType, u.phase.content, a, at, w.db, Submit(unit, w.db).after);
    } else if !again {
      forall q | q in w'.uploads && w'.uploads[q].attemptId == a ensures !w'.uploads[q].Owns() {}
    }
  }

  lemma IdleActor(w: World, e: Event, p: Id)
    requires p in w.uploads && w.uploads[p].phase.Wrote? && Actor(e) == Some(p) && !e.PersistUpload?
    ensures Step(w, e) == w
  {
    hide Submit;
  }

  lemma WriterStays(w: World, e: Event, p: Id, a: Id)
    requires WorldSound(w) && Writes(w, p, a)
    ensures var w' := Step(w, e);
            a in w'.db.attempts && (w'.db.attempts[a].state == StoredBytes || Uncertain(w', a) || Writes(w', p, a))
  {
    StepKeeps(w, e);
    assert UploadSound(w.uploads[p], w.db);
    hide Step, WorldSound, Uncertain, UploadSound;
    if Actor(e) == Some(p) {
      if e.PersistUpload? {
        WriterMoves(w, p, a, e.contentType, e.at, e.answered, e.again);
      } else {
        IdleActor(w, e, p);
      }
    } else {
      WriterWaits(w, e, p, a);
    }
  }

  lemma OriginStays(w: World, e: Event, a: Id, ref: Ref)
    requires WorldSound(w) && Origin(w, a, ref)
    ensures Origin(Step(w, e), a, ref)
  {
    var w' := Step(w, e);
    StepKeeps(w, e);
    assert AttemptLater(w.db.attempts[a], w'.db.attempts[a]);
    assert w.db.attempts[a].state == StoredBytes ==> w'.db.attempts[a] == w.db.attempts[a];
    hide Step, WorldSound, TablesLater, Uncertain, Writes, AttemptLater;
    if w.db.attempts[a].state == StoredBytes {
    } else if Uncertain(w, a) {
      UncertainStays(w, e, a);
    } else {
      var p :| Writes(w, p, a);
      WriterStays(w, e, p, a);
    }
  }

  lemma WriterWaits(w: World, e: Event, p: Id, a: Id)
    requires Writes(w, p, a) && Actor(e) != Some(p)
    ensures Writes(Step(w, e), p, a)
  {
    OthersLeaveMeAlone(w, e, p, w.uploads[p]);
  }

  // A key that appears was written by an attempt of its intent.
  lemma NewObjectHasOrigin(w: World, e: Event, k: Key) returns (a: Id)
    requires WorldSound(w) && k in Step(w, e).objects && k !in w.objects
    ensures Origin(Step(w, e), a, k.ref)
  {
    hide WorldSound, StepWake, Submit;
    if e.WriteObject? || e.WriteFails? {
      a := w.uploads[e.upload].attemptId;
      UploadHasOrigin(w, e, k);
    } else if e.LateWrite? {
      a := e.attemptId;
      AttemptNamesItsKey(w, a);
      StepKeeps(w, e);
      UncertainStays(w, e, a);
    } else {
      OnlyWritersAddObjects(w, e);
    }
  }

  lemma UploadHasOrigin(w: World, e: Event, k: Key)
    requires WorldSound(w) && k in Step(w, e).objects && k !in w.objects && (e.WriteObject? || e.WriteFails?)
    ensures Origin(Step(w, e), w.uploads[e.upload].attemptId, k.ref)
  {
    hide TablesSound, BytesSound, Uncertain;
    var w', a := Step(w, e), w.uploads[e.upload].attemptId;
    assert UploadSound(w.uploads[e.upload], w.db);
    if e.WriteObject? { assert Writes(w', e.upload, a); } else { FailedWriteIsUncertain(w, e.upload, e.residue); }
  }

  lemma OnlyWritersAddObjects(w: World, e: Event)
    requires !e.WriteObject? && !e.WriteFails? && !e.LateWrite?
    ensures Step(w, e).objects.Keys <= w.objects.Keys
  {
    hide Submit, StepWake;
    WakesOnlyRemove(w, e);
  }

  lemma AttemptNamesItsKey(w: World, a: Id)
    requires WorldSound(w) && Uncertain(w, a)
    ensures w.db.attempts[a].key == Key(w.db.attempts[a].ref)
  {
    assert AttemptSound(a, w.db.attempts, w.db.intents);
  }

  lemma FailedWriteIsUncertain(w: World, p: Id, residue: Residue)
    requires WorldSound(w) && p in w.uploads && w.uploads[p].phase.Holding?
    ensures Uncertain(Step(w, WriteFails(p, residue)), w.uploads[p].attemptId)
  {
    hide TablesSound, BytesSound;
    var w', a := Step(w, WriteFails(p, residue)), w.uploads[p].attemptId;
    assert UploadSound(w.uploads[p], w.db);
    forall q | q in w'.uploads && w'.uploads[q].attemptId == a ensures !w'.uploads[q].Owns() {}
  }

  lemma WritersHaveBytes(w: World, e: Event, p: Id)
    requires Traced(w) && p in Step(w, e).uploads && Step(w, e).uploads[p].phase.Wrote?
    ensures Step(w, e).uploads[p].phase.content.byteSize > 0
  {
    hide Submit, StepWake, Origin;
    WakesOnlyRemove(w, e);
  }

  lemma StepTraced(w: World, e: Event)
    requires WorldSound(w) && Traced(w)
    ensures Traced(Step(w, e))
  {
    hide Step, WorldSound, Origin;
    var w' := Step(w, e);
    forall k | k in w'.objects ensures exists a :: Origin(w', a, k.ref) {
      if k in w.objects {
        var a :| Origin(w, a, k.ref);
        OriginStays(w, e, a, k.ref);
      } else {
        var a := NewObjectHasOrigin(w, e, k);
      }
    }
    forall p | p in w'.uploads && w'.uploads[p].phase.Wrote? ensures w'.uploads[p].phase.content.byteSize > 0 {
      WritersHaveBytes(w, e, p);
    }
  }

  lemma {:induction false} RunIsTraced(events: seq<Event>)
    ensures WorldSound(Run(EMPTY, events)) && Traced(Run(EMPTY, events))
    decreases |events|
  {
    hide WorldSound;
    EveryRunIsSound(events);
    if events != [] {
      var n := |events| - 1;
      RunIsTraced(events[..n]);
      StepTraced(Run(EMPTY, events[..n]), events[n]);
    }
  }
}
