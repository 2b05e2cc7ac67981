// Every event keeps the Files invariant, so every run does.
module FileRuns {
  import opened Wrappers
  import opened AtomicBatch
  import opened FileListing
  import opened FileTransfers
  import opened FileWorld
  import opened FileSafety

  ghost predicate Kept(w: World, w': World) {
    WorldSound(w') && TablesLater(w.db, w'.db)
  }

  lemma LaterReflexive(s: Db)
    ensures TablesLater(s, s)
  {
  }

  // Deletions decided earlier stay safe, and known objects stay known, whatever the tables do.
  lemma Assemble(w: World, w': World)
    requires WorldSound(w) && TablesSound(w'.db) && TablesLater(w.db, w'.db)
    requires UploadsSound(w'.uploads, w'.db) && BytesSound(w'.db, w'.objects, w'.uploads)
    requires forall k :: Condemned(w'.wakes, w'.late, k) ==> Condemned(w.wakes, w.late, k) || Dead(w'.db, k)
    requires forall k :: k in w'.objects && k !in w.objects ==> k.ref in w.db.intents
    requires forall k :: Awaited(w'.wakes, k) ==> Awaited(w.wakes, k) || k in w.objects
    ensures Kept(w, w')
  {
    forall k | Condemned(w'.wakes, w'.late, k) ensures Dead(w'.db, k) {
      if Condemned(w.wakes, w.late, k) { DeadStays(w.db, w'.db, k); }
    }
  }

  // The tables moved, the store did not.
  lemma BytesStay(r: Db, s: Db, objects: map<Key, Content>, before: map<Id, Upload>, after: map<Id, Upload>)
    requires BytesSound(r, objects, before) && TablesLater(r, s) && UploadsSound(before, r)
    requires forall p :: p in after && after[p].phase.Wrote? ==> p in before && before[p] == after[p]
    requires forall x :: x in s.intents && s.intents[x].state == Stored && s.intents[x].stored.Some? ==>
               (x in r.intents && r.intents[x].state == Stored)
               || Backed(objects, NewStorageKey(x), s.intents[x].stored.value)
    requires forall x :: x in s.assets ==>
               (x in r.assets && r.assets[x] == s.assets[x]) || Backed(objects, s.assets[x].key, s.assets[x].content)
    ensures BytesSound(s, objects, after)
  {
    forall p | p in after && after[p].phase.Wrote? && after[p].snapshot.ref in s.intents
               && s.intents[after[p].snapshot.ref].state.Pending?
      ensures Backed(objects, after[p].snapshot.key, after[p].phase.content)
    {
      assert UploadSound(before[p], r);
      assert IntentLater(r.intents[after[p].snapshot.ref], s.intents[after[p].snapshot.ref]);
    }
  }

  // ---- What each unit of work does to the tables -----------------------------------------

  ghost predicate TablesMove(r: Db, s: Db, resolved: Option<Id>) {
    TablesSound(s) && TablesLater(r, s) && LeavesClaims(r, s, resolved)
  }

  lemma RegistrationMoves(intent: Intent, s: Db, s': Db)
    requires TablesSound(s) && Submit(Registration(intent), s) == Committed(s')
    requires intent.state.Pending? && intent.key == NewStorageKey(intent.ref)
    ensures TablesMove(s, s', None) && s'.assets == s.assets
    ensures s'.intents == s.intents[intent.ref := intent]
  {
    RegistrationCommits(intent, s, s');
    RegistrationIsSound(s, intent);
    RegistrationIsLater(s, intent);
  }

  lemma ClaimMoves(intent: Intent, a: Id, at: Ms, s: Db, s': Db)
    requires TablesSound(s) && Submit(Claim(intent, a, at), s) == Committed(s')
    ensures TablesMove(s, s', None) && s'.assets == s.assets && s'.intents == s.intents
    ensures a !in s.attempts && a in s'.attempts && s'.attempts[a].state == Claimed && s'.attempts[a].ref == intent.ref
    ensures intent.state.Pending?
  {
    hide IntentsSound, AttemptsSound, AssetsSound, Submit, TablesLater;
    ClaimCommits(intent, a, at, s, s');
    ClaimIsSound(intent, a, at, s);
    AttemptWriteIsLater(s, a, s'.attempts[a]);
  }

  lemma DiscardMoves(u: Unit, intent: Intent, s: Db, s': Db)
    requires u == DiscardExpired(intent) || u == ExpireIntent(intent)
    requires TablesSound(s) && Submit(u, s) == Committed(s') && (intent.state.Pending? || intent.state == Stored)
    ensures TablesMove(s, s', None) && s'.assets == s.assets && StoresIntent(s, intent)
    ensures s'.intents == s.intents[intent.ref := intent.(state := Discarded)] && intent.key == NewStorageKey(intent.ref)
  {
    hide AttemptsSound, AssetsSound, Submit, TablesLater;
    DiscardCommits(u, intent, s, s');
    assert IntentSound(intent.ref, intent, s.attempts);
    TransitionIsSound(s, intent, intent.(state := Discarded));
    IntentWriteIsLater(s, intent, intent.(state := Discarded));
  }

  lemma FinishMoves(a: Id, state: AttemptState, code: string, at: Ms, s: Db, s': Db)
    requires state == SafeRefusal || state == AmbiguousFailure
    requires TablesSound(s) && Submit(FinishAttempt(a, state, code, at), s) == Committed(s')
    ensures TablesMove(s, s', Some(a)) && s'.assets == s.assets && s'.intents == s.intents
  {
    hide Submit, OneEffective, TablesLater, AssetsSound;
    FinishCommits(a, state, code, at, s, s');
    assert AttemptSound(a, s.attempts, s.intents);
    RefusalIsSound(s, a, s'.attempts[a]);
    AttemptWriteIsLater(s, a, s'.attempts[a]);
  }

  lemma PersistMoves(intent: Intent, contentType: string, content: Content, a: Id, at: Ms, s: Db, s': Db)
    requires TablesSound(s) && Submit(PersistStored(intent, contentType, content, a, at), s) == Committed(s')
    requires intent.state.Pending?
    ensures TablesMove(s, s', Some(a)) && s'.assets == s.assets && StoresIntent(s, intent)
    ensures s'.intents == s.intents[intent.ref := intent.(state := Stored, stored := Some(content))]
  {
    hide Submit, OneEffective, TablesLater, AssetsSound;
    PersistCommits(intent, contentType, content, a, at, s, s');
    assert AttemptSound(a, s.attempts, s.intents);
    var next := intent.(state := Stored, stored := Some(content));
    StoredIsSound(s, a, s'.attempts[a], intent, next);
    StoredIsLater(s, a, s'.attempts[a], intent, next);
  }

  lemma ConfirmMoves(intent: Intent, asset: Asset, s: Db, s': Db)
    requires TablesSound(s) && Submit(Confirm(intent, asset), s) == Committed(s') && Mints(intent, asset)
    ensures TablesMove(s, s', None) && StoresIntent(s, intent)
    ensures s'.assets == s.assets[asset.ref := asset]
    ensures s'.intents == s.intents[intent.ref := intent.(state := Confirmed)]
  {
    hide Submit, OneEffective;
    ConfirmCommits(intent, asset, s, s');
    ConfirmIsSound(s, intent, asset);
    forall r | r in s.intents ensures s.intents[r].key == NewStorageKey(r) {
      assert IntentSound(r, s.intents[r], s.attempts);
    }
    ConfirmIsLater(s, intent, asset);
  }

  lemma AttachMoves(ref: Ref, asset: Asset, s: Db, s': Db)
    requires TablesSound(s) && Submit(Attach(ref, asset), s) == Committed(s')
    ensures TablesMove(s, s', None) && s'.assets == s.assets && s'.intents == s.intents
  {
    AttachCommits(ref, asset, s, s');
  }

  lemma DropMoves(asset: Asset, s: Db, s': Db)
    requires TablesSound(s) && Submit(DropOrphan(asset), s) == Committed(s')
    ensures TablesMove(s, s', None) && s'.intents == s.intents && s'.assets == s.assets - {asset.ref}
    ensures Dead(s', asset.key)
  {
    DropCommits(asset, s, s');
    assert AssetSound(asset.ref, s.assets, s.intents);
    assert IntentSound(asset.key.ref, s.intents[asset.key.ref], s.attempts);
    DropIsSound(s, asset);
    DropIsLater(s, asset);
  }

  // ---- What each event does to the world -------------------------------------------------

  // Events that only run a batch: the store stays, no upload moves.
  lemma BatchKeeps(w: World, w': World)
    requires WorldSound(w) && TablesMove(w.db, w'.db, None) && w'.objects == w.objects && w'.uploads == w.uploads
    requires forall x :: x in w'.db.intents && w'.db.intents[x].state == Stored && w'.db.intents[x].stored.Some? ==>
               x in w.db.intents && w.db.intents[x].state == Stored
    requires forall x :: x in w'.db.assets ==>
               (x in w.db.assets && w.db.assets[x] == w'.db.assets[x])
               || Backed(w.objects, w'.db.assets[x].key, w'.db.assets[x].content)
    requires forall k :: Condemned(w'.wakes, w'.late, k) ==> Condemned(w.wakes, w.late, k) || Dead(w'.db, k)
    requires forall k :: Awaited(w'.wakes, k) ==> Awaited(w.wakes, k)
    ensures Kept(w, w')
  {
    UploadsStay(w.uploads, w.db, w'.db);
    BytesStay(w.db, w'.db, w.objects, w.uploads, w.uploads);
    Assemble(w, w');
  }

  lemma RegisterKeeps(w: World, intent: Intent)
    requires WorldSound(w)
    ensures Kept(w, Step(w, RegisterIntent(intent)))
  {
    hide TablesSound, TablesLater, UploadsSound, BytesSound, Submit;
    LaterReflexive(w.db);
    if intent.state.Pending? && intent.key == NewStorageKey(intent.ref) && Commits(w, Registration(intent)) {
      var w' := Step(w, RegisterIntent(intent));
      RegistrationMoves(intent, w.db, w'.db);
      BatchKeeps(w, w');
    }
  }

  lemma AttachKeeps(w: World, attachment: Ref, asset: Asset)
    requires WorldSound(w)
    ensures Kept(w, Step(w, AttachAsset(attachment, asset)))
  {
    hide TablesSound, TablesLater, UploadsSound, BytesSound, Submit;
    LaterReflexive(w.db);
    if Commits(w, Attach(attachment, asset)) {
      AttachMoves(attachment, asset, w.db, Step(w, AttachAsset(attachment, asset)).db);
      BatchKeeps(w, Step(w, AttachAsset(attachment, asset)));
    }
  }

  lemma StoredIsBacked(w: World, intent: Intent)
    requires TablesSound(w.db) && BytesSound(w.db, w.objects, w.uploads)
    requires StoresIntent(w.db, intent) && intent.state == Stored && intent.stored.Some?
    ensures Backed(w.objects, intent.key, intent.stored.value)
  {
    assert IntentSound(intent.ref, intent, w.db.attempts);
  }

  lemma ConfirmKeeps(w: World, intent: Intent, asset: Asset)
    requires WorldSound(w)
    ensures Kept(w, Step(w, ConfirmUpload(intent, asset)))
  {
    hide TablesSound, TablesLater, UploadsSound, BytesSound, Submit;
    LaterReflexive(w.db);
    if Mints(intent, asset) && Commits(w, Confirm(intent, asset)) {
      var w' := Step(w, ConfirmUpload(intent, asset));
      ConfirmMoves(intent, asset, w.db, w'.db);
      StoredIsBacked(w, intent);
      BatchKeeps(w, w');
    }
  }

  lemma ExpireKeeps(w: World, id: Id, intent: Intent, answered: bool)
    requires WorldSound(w)
    ensures Kept(w, Step(w, Expire(id, intent, answered)))
  {
    hide TablesSound, TablesLater, UploadsSound, BytesSound, Submit;
    LaterReflexive(w.db);
    if Sweeps(w, id) && Commits(w, ExpireIntent(intent)) {
      var w' := Step(w, Expire(id, intent, answered));
      DiscardCommits(ExpireIntent(intent), intent, w.db, w'.db);
      DiscardMoves(ExpireIntent(intent), intent, w.db, w'.db);
      BatchKeeps(w, w');
    }
  }

  lemma DropKeeps(w: World, id: Id, asset: Asset, answered: bool)
    requires WorldSound(w)
    ensures Kept(w, Step(w, Drop(id, asset, answered)))
  {
    hide TablesSound, TablesLater, UploadsSound, BytesSound, Submit;
    LaterReflexive(w.db);
    if Sweeps(w, id) && Commits(w, DropOrphan(asset)) {
      var w' := Step(w, Drop(id, asset, answered));
      DropMoves(asset, w.db, w'.db);
      BatchKeeps(w, w');
    }
  }

  // An unreferenced object belongs to a discarded intent: every listed key names an intent, and the
  // three other states count as references.
  lemma UnreferencedIsDead(w: World, key: Key)
    requires WorldSound(w) && key.ref in w.db.intents && !Referenced(w.db, key)
    ensures Dead(w.db, key) && w.db.intents[key.ref].state == Discarded
  {
    assert IntentSound(key.ref, w.db.intents[key.ref], w.db.attempts);
  }

  lemma CheckKeeps(w: World, id: Id, answered: bool)
    requires WorldSound(w)
    ensures Kept(w, Step(w, CheckNext(id, answered)))
  {
    hide TablesSound, TablesLater, UploadsSound, BytesSound, Submit, Referenced;
    LaterReflexive(w.db);
    if Checks(w, id) {
      var key := w.wakes[id].stage.rest[0];
      assert Awaited(w.wakes, key);
      if answered && !Referenced(w.db, key) { UnreferencedIsDead(w, key); }
      Assemble(w, Step(w, CheckNext(id, answered)));
    }
  }

  lemma StartKeeps(w: World, id: Id)
    requires WorldSound(w)
    ensures Kept(w, Step(w, StartWake(id)))
  {
    hide TablesSound, TablesLater, UploadsSound, BytesSound, Submit, Referenced;
    LaterReflexive(w.db);
    Assemble(w, Step(w, StartWake(id)));
  }

  lemma ListKeeps(w: World, id: Id, keys: seq<Key>)
    requires WorldSound(w)
    ensures Kept(w, Step(w, ListObjects(id, keys)))
  {
    hide TablesSound, TablesLater, UploadsSound, BytesSound, Submit, Referenced, Lists;
    LaterReflexive(w.db);
    if Sweeps(w, id) && Lists(keys, w.objects.Keys) {
      forall k | k in keys ensures k in w.objects { ListedIsPresent(keys, w.objects.Keys, k); }
      Assemble(w, Step(w, ListObjects(id, keys)));
    }
  }

  // A deletion is given up, with or without its wake.
  lemma GiveUpKeeps(w: World, w': World, id: Id, late: bool)
    requires WorldSound(w) && id in w.wakes
    requires w' == GiveUp(w, id, late).(wakes := w'.wakes)
    requires w'.wakes == w.wakes[id := w.wakes[id].(deleting := None)] || w'.wakes == w.wakes - {id}
    ensures Kept(w, w')
  {
    hide TablesSound, TablesLater, UploadsSound, BytesSound, Submit, Referenced;
    LaterReflexive(w.db);
    forall k | Condemned(w'.wakes, w'.late, k) ensures Condemned(w.wakes, w.late, k) {
      if k !in w.late && k in w'.late { assert w.wakes[id].deleting == Some(k); }
    }
    Assemble(w, w');
  }

  // ---- Uploads ---------------------------------------------------------------------------

  // Events that run a batch and then let upload `p` end or fail.
  ghost predicate Ends(w: World, w': World, p: Id, phase: Phase, resolved: Option<Id>) {
    && p in w.uploads && (phase.Ended? || (phase.Failing? && w.uploads[p].Tracks()))
    && w'.objects == w.objects && w'.wakes == w.wakes && w'.late == w.late
    && w'.uploads == w.uploads[p := w.uploads[p].(phase := phase)] && w'.db.assets == w.db.assets
    && (resolved.Some? ==> w.uploads[p].attemptId == resolved.value && w.uploads[p].Tracks())
    && (forall x :: x in w'.db.intents && w'.db.intents[x].state == Stored && w'.db.intents[x].stored.Some? ==>
          (x in w.db.intents && w.db.intents[x].state == Stored)
          || Backed(w.objects, NewStorageKey(x), w'.db.intents[x].stored.value))
  }

  lemma EndParts(w: World, w': World, p: Id, phase: Phase, resolved: Option<Id>)
    requires UploadsSound(w.uploads, w.db) && BytesSound(w.db, w.objects, w.uploads)
    requires TablesLater(w.db, w'.db) && LeavesClaims(w.db, w'.db, resolved) && Ends(w, w', p, phase, resolved)
    ensures UploadsSound(w'.uploads, w'.db) && BytesSound(w'.db, w'.objects, w'.uploads)
  {
    hide BytesSound, UploadsSound, TablesLater, LeavesClaims;
    UploadEnds(w.uploads, w.db, w'.db, p, phase, resolved);
    BytesStay(w.db, w'.db, w.objects, w.uploads, w'.uploads);
  }

  lemma EndKeeps(w: World, w': World, p: Id, phase: Phase, resolved: Option<Id>)
    requires WorldSound(w) && TablesMove(w.db, w'.db, resolved) && Ends(w, w', p, phase, resolved)
    ensures Kept(w, w')
  {
    hide TablesSound, TablesLater, UploadsSound, BytesSound, Submit;
    EndParts(w, w', p, phase, resolved);
    Assemble(w, w');
  }

  lemma OpenKeeps(w: World, p: Id, ref: Ref, a: Id, now: Ms)
    requires WorldSound(w)
    ensures Kept(w, Step(w, OpenUpload(p, ref, a, now)))
  {
    hide TablesLater, BytesSound, UploadsSound, AttemptsSound, AssetsSound;
    LaterReflexive(w.db);
    if p !in w.uploads && ref in w.db.intents {
      var w' := Step(w, OpenUpload(p, ref, a, now));
      assert IntentSound(ref, w.db.intents[ref], w.db.attempts);
      OpenUploads(w.uploads, w.db, p, w'.uploads[p]);
      BytesStay(w.db, w.db, w.objects, w.uploads, w'.uploads);
      Assemble(w, w');
    }
  }

  lemma OpenUploads(uploads: map<Id, Upload>, s: Db, p: Id, u: Upload)
    requires UploadsSound(uploads, s) && p !in uploads && u.phase.Ready? && u.snapshot.ref in s.intents
    requires u.snapshot == s.intents[u.snapshot.ref] && u.snapshot.key == NewStorageKey(u.snapshot.ref)
    ensures UploadsSound(uploads[p := u], s)
  {
  }

  lemma ClaimUploads(uploads: map<Id, Upload>, r: Db, s: Db, p: Id)
    requires UploadsSound(uploads, r) && TablesLater(r, s) && LeavesClaims(r, s, None)
    requires p in uploads && uploads[p].phase.Ready? && uploads[p].snapshot.state.Pending?
    requires uploads[p].attemptId !in r.attempts && uploads[p].attemptId in s.attempts
    requires s.attempts[uploads[p].attemptId].state == Claimed
    requires s.attempts[uploads[p].attemptId].ref == uploads[p].snapshot.ref
    ensures UploadsSound(uploads[p := uploads[p].(phase := Holding)], s)
  {
    forall q | q in uploads ensures UploadSound(uploads[q], s) {
      UploadStays(uploads[q], r, s);
    }
    assert forall q :: q in uploads && uploads[q].Tracks() ==> uploads[q].attemptId in r.attempts;
  }

  lemma ClaimHolds(w: World, w': World, p: Id)
    requires WorldSound(w) && TablesMove(w.db, w'.db, None) && p in w.uploads && w.uploads[p].phase.Ready?
    requires w'.objects == w.objects && w'.wakes == w.wakes && w'.late == w.late && w'.db.assets == w.db.assets && w'.db.intents == w.db.intents
    requires w'.uploads == w.uploads[p := w.uploads[p].(phase := Holding)] && w.uploads[p].snapshot.state.Pending?
    requires w.uploads[p].attemptId !in w.db.attempts && w.uploads[p].attemptId in w'.db.attempts
    requires w'.db.attempts[w.uploads[p].attemptId].state == Claimed
    requires w'.db.attempts[w.uploads[p].attemptId].ref == w.uploads[p].snapshot.ref
    ensures Kept(w, w')
  {
    hide TablesSound, TablesLater, UploadsSound, BytesSound, Submit;
    ClaimUploads(w.uploads, w.db, w'.db, p);
    BytesStay(w.db, w'.db, w.objects, w.uploads, w'.uploads);
    Assemble(w, w');
  }

  lemma ClaimKeeps(w: World, p: Id, answered: bool)
    requires WorldSound(w)
    requires p in w.uploads && w.uploads[p].phase.Ready? && w.uploads[p].snapshot.state.Pending?
    requires w.uploads[p].phase.now < w.uploads[p].snapshot.expiresAt
    ensures Kept(w, StepClaim(w, p, answered))
  {
    hide TablesSound, TablesLater, UploadsSound, BytesSound, Submit;
    var w', u := StepClaim(w, p, answered), w.uploads[p];
    LaterReflexive(w.db);
    if Commits(w, Claim(u.snapshot, u.attemptId, u.phase.now)) {
      ClaimMoves(u.snapshot, u.attemptId, u.phase.now, w.db, w'.db);
      if answered { ClaimHolds(w, w', p); } else { EndKeeps(w, w', p, Ended, None); }
    } else {
      EndKeeps(w, w', p, Ended, None);
    }
  }

  lemma DiscardKeeps(w: World, p: Id)
    requires WorldSound(w)
    ensures Kept(w, Step(w, DiscardLateUpload(p)))
  {
    hide TablesSound, TablesLater, UploadsSound, BytesSound, Submit;
    LaterReflexive(w.db);
    if p in w.uploads && w.uploads[p].phase.Ready? && w.uploads[p].snapshot.state.Pending?
       && w.uploads[p].phase.now >= w.uploads[p].snapshot.expiresAt
    {
      var w', intent := Step(w, DiscardLateUpload(p)), w.uploads[p].snapshot;
      if Commits(w, DiscardExpired(intent)) { DiscardMoves(DiscardExpired(intent), intent, w.db, w'.db); }
      EndKeeps(w, w', p, Ended, None);
    }
  }

  lemma FinishKeeps(w: World, p: Id, state: AttemptState, code: string, at: Ms, phase: Phase)
    requires WorldSound(w) && p in w.uploads && (phase.Failing? || phase.Ended?) && w.uploads[p].Tracks()
    requires state == SafeRefusal || state == AmbiguousFailure
    ensures Kept(w, Moved(AfterUnit(w, FinishAttempt(w.uploads[p].attemptId, state, code, at)), p, phase))
  {
    hide TablesSound, TablesLater, UploadsSound, BytesSound, Submit;
    var a := w.uploads[p].attemptId;
    var w' := Moved(AfterUnit(w, FinishAttempt(a, state, code, at)), p, phase);
    if Commits(w, FinishAttempt(a, state, code, at)) {
      FinishMoves(a, state, code, at, w.db, w'.db);
      EndKeeps(w, w', p, phase, Some(a));
    } else {
      LaterReflexive(w.db);
      EndKeeps(w, w', p, phase, None);
    }
  }

  lemma PersistKeeps(w: World, p: Id, contentType: string, at: Ms, answered: bool, again: bool)
    requires WorldSound(w) && p in w.uploads && w.uploads[p].phase.Wrote?
    ensures Kept(w, StepPersist(w, p, contentType, at, answered, again))
  {
    hide TablesSound, TablesLater, BytesSound, Submit;
    var w', u := StepPersist(w, p, contentType, at, answered, again), w.uploads[p];
    var unit := PersistStored(u.snapshot, contentType, u.phase.content, u.attemptId, at);
    LaterReflexive(w.db);
    assert UploadSound(u, w.db);
    if Commits(w, unit) {
      PersistMoves(u.snapshot, contentType, u.phase.content, u.attemptId, at, w.db, w'.db);
      WrittenIsBacked(w, p);
      EndKeeps(w, w', p, if answered then Ended else Failing, Some(u.attemptId));
    } else if again {
      assert w'.uploads == w.uploads;
    } else {
      EndKeeps(w, w', p, Failing, None);
    }
  }

  lemma WrittenIsBacked(w: World, p: Id)
    requires BytesSound(w.db, w.objects, w.uploads) && p in w.uploads && w.uploads[p].phase.Wrote?
    requires StoresIntent(w.db, w.uploads[p].snapshot) && w.uploads[p].snapshot.state.Pending?
    ensures Backed(w.objects, w.uploads[p].snapshot.key, w.uploads[p].phase.content)
  {
  }

  lemma RefuseKeeps(w: World, p: Id, code: string)
    requires WorldSound(w) && p in w.uploads && w.uploads[p].phase.Holding?
    ensures Kept(w, Moved(w, p, Refusing(code)))
  {
    hide TablesSound, TablesLater, BytesSound;
    var w' := Moved(w, p, Refusing(code));
    LaterReflexive(w.db);
    OwnerMoves(w.uploads, w.db, p, Refusing(code));
    BytesStay(w.db, w.db, w.objects, w.uploads, w'.uploads);
    Assemble(w, w');
  }

  // The owner of an attempt goes on to another phase without touching the tables.
  lemma OwnerMoves(uploads: map<Id, Upload>, s: Db, p: Id, phase: Phase)
    requires UploadsSound(uploads, s) && p in uploads && uploads[p].Owns() && !phase.Ready?
    ensures UploadsSound(uploads[p := uploads[p].(phase := phase)], s)
  {
    var after := uploads[p := uploads[p].(phase := phase)];
    forall q | q in after ensures UploadSound(after[q], s) {
      assert UploadSound(uploads[q], s);
    }
  }

  // ---- The store changes -----------------------------------------------------------------

  ghost predicate OnlyKey(before: map<Key, Content>, after: map<Key, Content>, key: Key) {
    forall k :: k != key ==> (k in after <==> k in before) && (k in before ==> after[k] == before[k])
  }

  // Nothing that must be backed uses this key, except perhaps upload `p`'s own bytes.
  ghost predicate KeyFree(s: Db, uploads: map<Id, Upload>, key: Key, p: Option<Id>) {
    && (forall r :: r in s.intents && s.intents[r].state == Stored ==> NewStorageKey(r) != key)
    && (forall r :: r in s.assets ==> s.assets[r].key != key)
    && (forall q | q in uploads && p != Some(q) && uploads[q].phase.Wrote? && uploads[q].snapshot.ref in s.intents ::
          s.intents[uploads[q].snapshot.ref].state.Pending? ==> uploads[q].snapshot.key != key)
  }

  lemma WriteKeepsBacking(s: Db, before: map<Key, Content>, after: map<Key, Content>, uploads: map<Id, Upload>, key: Key,
                          p: Option<Id>, moved: map<Id, Upload>)
    requires BytesSound(s, before, uploads) && OnlyKey(before, after, key) && KeyFree(s, uploads, key, p)
    requires forall q :: q in moved && moved[q].phase.Wrote? && p != Some(q) ==> q in uploads && uploads[q] == moved[q]
    requires p.Some? && p.value in moved && moved[p.value].phase.Wrote? ==>
               Backed(after, moved[p.value].snapshot.key, moved[p.value].phase.content)
    ensures BytesSound(s, after, moved)
  {
  }

  lemma OwnerKeyIsFree(w: World, p: Id)
    requires WorldSound(w) && p in w.uploads && w.uploads[p].Owns()
    ensures KeyFree(w.db, w.uploads, w.uploads[p].snapshot.key, Some(p))
    ensures w.uploads[p].snapshot.key.ref in w.db.intents
  {
    hide BytesSound;
    var a := w.uploads[p].attemptId;
    assert UploadSound(w.uploads[p], w.db) && AttemptSound(a, w.db.attempts, w.db.intents);
    WriterExcludesStored(w.db, a);
    WriterExcludesUploads(w.db, w.uploads, a, Some(p));
  }

  lemma UncertainKeyIsFree(w: World, a: Id)
    requires WorldSound(w) && Uncertain(w, a)
    ensures KeyFree(w.db, w.uploads, w.db.attempts[a].key, None) && w.db.attempts[a].key.ref in w.db.intents
  {
    hide BytesSound;
    assert AttemptSound(a, w.db.attempts, w.db.intents);
    WriterExcludesStored(w.db, a);
    WriterExcludesUploads(w.db, w.uploads, a, None);
  }

  lemma WriterKeeps(w: World, p: Id, after: map<Key, Content>, phase: Phase)
    requires WorldSound(w) && p in w.uploads && w.uploads[p].phase.Holding?
    requires OnlyKey(w.objects, after, w.uploads[p].snapshot.key)
    requires phase.Failing? || (phase.Wrote? && Backed(after, w.uploads[p].snapshot.key, phase.content))
    ensures Kept(w, Moved(w.(objects := after), p, phase))
  {
    hide TablesSound, TablesLater, BytesSound, UploadsSound, KeyFree;
    var w' := Moved(w.(objects := after), p, phase);
    LaterReflexive(w.db);
    OwnerKeyIsFree(w, p);
    OwnerMoves(w.uploads, w.db, p, phase);
    WriteKeepsBacking(w.db, w.objects, after, w.uploads, w.uploads[p].snapshot.key, Some(p), w'.uploads);
    Assemble(w, w');
  }

  lemma LateWriteKeeps(w: World, a: Id, residue: Residue)
    requires WorldSound(w)
    ensures Kept(w, Step(w, LateWrite(a, residue)))
  {
    hide TablesSound, TablesLater, BytesSound, UploadsSound, KeyFree;
    LaterReflexive(w.db);
    if Uncertain(w, a) {
      var after := Store(w.objects, w.db.attempts[a].key, residue);
      UncertainKeyIsFree(w, a);
      WriteKeepsBacking(w.db, w.objects, after, w.uploads, w.db.attempts[a].key, None, w.uploads);
      Assemble(w, w.(objects := after));
    }
  }

  // A condemned key carries nothing that must be kept.
  lemma DeadKeyIsFree(s: Db, uploads: map<Id, Upload>, key: Key)
    requires TablesSound(s) && UploadsSound(uploads, s) && Dead(s, key)
    ensures KeyFree(s, uploads, key, None)
  {
    assert IntentSound(key.ref, s.intents[key.ref], s.attempts);
    forall r | r in s.assets ensures s.assets[r].key != key { assert AssetSound(r, s.assets, s.intents); }
    forall q | q in uploads && uploads[q].snapshot.key == key ensures uploads[q].snapshot.ref == key.ref {
      assert UploadSound(uploads[q], s);
    }
  }

  lemma RemovalKeeps(w: World, w': World, key: Key)
    requires WorldSound(w) && Condemned(w.wakes, w.late, key)
    requires w'.db == w.db && w'.uploads == w.uploads && w'.objects == w.objects - {key}
    requires forall k :: Condemned(w'.wakes, w'.late, k) ==> Condemned(w.wakes, w.late, k)
    requires forall k :: Awaited(w'.wakes, k) ==> Awaited(w.wakes, k)
    ensures Kept(w, w')
  {
    hide TablesSound, TablesLater, BytesSound, UploadsSound, KeyFree, Dead, Condemned, Awaited;
    LaterReflexive(w.db);
    DeadKeyIsFree(w.db, w.uploads, key);
    WriteKeepsBacking(w.db, w.objects, w'.objects, w.uploads, key, None, w.uploads);
    Assemble(w, w');
  }

  lemma DeleteKeeps(w: World, id: Id)
    requires WorldSound(w) && Deletes(w, id)
    ensures Kept(w, Step(w, DeleteObject(id)))
  {
    hide WorldSound;
    assert Condemned(w.wakes, w.late, w.wakes[id].deleting.value);
    RemovalKeeps(w, Step(w, DeleteObject(id)), w.wakes[id].deleting.value);
  }

  lemma LateDeleteKeeps(w: World, key: Key)
    requires WorldSound(w) && key in w.late
    ensures Kept(w, Step(w, LateDelete(key)))
  {
    hide WorldSound;
    var w' := Step(w, LateDelete(key));
    assert forall k :: k in w'.late ==> k in w.late;
    RemovalKeeps(w, w', key);
  }

  // ---- Every run -------------------------------------------------------------------------

  lemma DeletionKeeps(w: World, e: Event)
    requires WorldSound(w) && (e.DeleteObject? || e.RejectDelete? || e.LateDelete? || e.EndWake?)
    ensures Kept(w, StepWake(w, e))
  {
    hide WorldSound, TablesLater;
    LaterReflexive(w.db);
    match e
    case DeleteObject(id) => if Deletes(w, id) { DeleteKeeps(w, id); }
    case RejectDelete(id, late) => if Deletes(w, id) { GiveUpKeeps(w, Step(w, e), id, late); }
    case LateDelete(key) => if key in w.late { LateDeleteKeeps(w, key); }
    case EndWake(id, late) => if id in w.wakes { GiveUpKeeps(w, Step(w, e), id, late); }
  }

  lemma WakeKeeps(w: World, e: Event)
    requires WorldSound(w)
    ensures Kept(w, StepWake(w, e))
  {
    hide WorldSound, TablesLater;
    match e
    case StartWake(id) => StartKeeps(w, id);
    case Expire(id, intent, answered) => ExpireKeeps(w, id, intent, answered);
    case Drop(id, asset, answered) => DropKeeps(w, id, asset, answered);
    case ListObjects(id, keys) => ListKeeps(w, id, keys);
    case CheckNext(id, answered) => CheckKeeps(w, id, answered);
    case DeleteObject(_) => DeletionKeeps(w, e);
    case RejectDelete(_, _) => DeletionKeeps(w, e);
    case LateDelete(_) => DeletionKeeps(w, e);
    case EndWake(_, _) => DeletionKeeps(w, e);
    case _ => LaterReflexive(w.db);
  }

  lemma OpenRequestKeeps(w: World, e: Event)
    requires WorldSound(w) && (e.OpenUpload? || e.ClaimAttempt? || e.DiscardLateUpload?)
    ensures Kept(w, Step(w, e))
  {
    hide WorldSound, TablesLater, StepWake;
    LaterReflexive(w.db);
    match e
    case OpenUpload(p, ref, a, now) => OpenKeeps(w, p, ref, a, now);
    case ClaimAttempt(p, answered) =>
      if p in w.uploads && w.uploads[p].phase.Ready? && w.uploads[p].snapshot.state.Pending?
         && w.uploads[p].phase.now < w.uploads[p].snapshot.expiresAt { ClaimKeeps(w, p, answered); }
    case DiscardLateUpload(p) => DiscardKeeps(w, p);
  }

  lemma WritingRequestKeeps(w: World, e: Event)
    requires WorldSound(w) && (e.WriteObject? || e.WriteFails? || e.RefuseStream? || e.PersistUpload?)
    ensures Kept(w, Step(w, e))
  {
    hide WorldSound, TablesLater, StepWake;
    LaterReflexive(w.db);
    match e
    case WriteObject(p, content) =>
      if p in w.uploads && w.uploads[p].phase.Holding? && content.byteSize > 0 {
        WriterKeeps(w, p, w.objects[w.uploads[p].snapshot.key := content], Wrote(content));
      }
    case WriteFails(p, residue) =>
      if p in w.uploads && w.uploads[p].phase.Holding? {
        WriterKeeps(w, p, Store(w.objects, w.uploads[p].snapshot.key, residue), Failing);
      }
    case RefuseStream(p, code) => if p in w.uploads && w.uploads[p].phase.Holding? { RefuseKeeps(w, p, code); }
    case PersistUpload(p, contentType, at, answered, again) =>
      if p in w.uploads && w.uploads[p].phase.Wrote? { PersistKeeps(w, p, contentType, at, answered, again); }
  }

  lemma FinishingRequestKeeps(w: World, e: Event)
    requires WorldSound(w) && (e.FinishRefusal? || e.FinishAmbiguous?)
    ensures Kept(w, Step(w, e))
  {
    hide WorldSound, TablesLater, StepWake;
    LaterReflexive(w.db);
    match e
    case FinishRefusal(p, at, answered) =>
      if p in w.uploads && w.uploads[p].phase.Refusing? {
        var u := FinishAttempt(w.uploads[p].attemptId, SafeRefusal, w.uploads[p].phase.code, at);
        FinishKeeps(w, p, SafeRefusal, w.uploads[p].phase.code, at, if Commits(w, u) && answered then Ended else Failing);
      }
    case FinishAmbiguous(p, code, at) =>
      if p in w.uploads && w.uploads[p].phase.Failing? { FinishKeeps(w, p, AmbiguousFailure, code, at, Ended); }
  }

  lemma StepKeeps(w: World, e: Event)
    requires WorldSound(w)
    ensures Kept(w, Step(w, e))
  {
    hide WorldSound, TablesLater, StepWake, Kept;
    match e
    case RegisterIntent(intent) => RegisterKeeps(w, intent);
    case OpenUpload(_, _, _, _) => OpenRequestKeeps(w, e);
    case ClaimAttempt(_, _) => OpenRequestKeeps(w, e);
    case DiscardLateUpload(_) => OpenRequestKeeps(w, e);
    case WriteObject(_, _) => WritingRequestKeeps(w, e);
    case WriteFails(_, _) => WritingRequestKeeps(w, e);
    case RefuseStream(_, _) => WritingRequestKeeps(w, e);
    case PersistUpload(_, _, _, _, _) => WritingRequestKeeps(w, e);
    case FinishRefusal(_, _, _) => FinishingRequestKeeps(w, e);
    case FinishAmbiguous(_, _, _) => FinishingRequestKeeps(w, e);
    case LateWrite(a, residue) => LateWriteKeeps(w, a, residue);
    case ConfirmUpload(intent, asset) => ConfirmKeeps(w, intent, asset);
    case AttachAsset(attachment, asset) => AttachKeeps(w, attachment, asset);
    case _ => WakeKeeps(w, e);
  }

  lemma {:induction false} RunKeeps(w: World, events: seq<Event>)
    requires WorldSound(w)
    ensures WorldSound(Run(w, events))
    decreases |events|
  {
    hide WorldSound;
    if events != [] {
      RunKeeps(w, events[..|events| - 1]);
      StepKeeps(Run(w, events[..|events| - 1]), events[|events| - 1]);
    }
  }
}
