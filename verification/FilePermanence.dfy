// Objects no cleanup wake will ever delete, and objects that none will ever look at because a page
// of such objects comes before them.
module FilePermanence {
  import opened Sets
  import opened Wrappers
  import opened AtomicBatch
  import opened FileListing
  import opened FileTransfers
  import opened FileWorld
  import opened FileSafety
  import opened FileRuns
  import opened FileTheorems
  import opened FileOrigins

  // ---- Objects that stay -----------------------------------------------------------------

  // Blocked and attached assets are never orphans; nothing unblocks or detaches one.
  predicate Pinned(s: Db, r: Ref)
    requires r in s.assets
  {
    s.assets[r].blocked || Attached(s.attachments, r)
  }

  // Confirmed, and every asset that has the key is pinned -- or there is none, and the object is
  // stranded.
  ghost predicate Permanent(w: World, k: Key) {
    && k in w.objects && !Condemned(w.wakes, w.late, k)
    && k.ref in w.db.intents && w.db.intents[k.ref].state == Confirmed
    && forall r :: r in w.db.assets && w.db.assets[r].key == k ==> Pinned(w.db, r)
  }

  ghost function PermanentBefore(w: World, key: Key): set<Key> {
    set k | k in w.objects && Before(k, key) && Permanent(w, k)
  }

  // No attempt can write under a confirmed intent's key any more.
  lemma ConfirmedIsNotWritten(s: Db, a: Id)
    requires TablesSound(s) && a in s.attempts && s.attempts[a].Effective() && s.attempts[a].state != StoredBytes
    ensures s.attempts[a].ref in s.intents && s.intents[s.attempts[a].ref].state != Confirmed
    ensures s.attempts[a].key == Key(s.attempts[a].ref)
  {
    assert AttemptSound(a, s.attempts, s.intents);
    WriterExcludesStored(s, a);
    assert IntentSound(s.attempts[a].ref, s.intents[s.attempts[a].ref], s.attempts);
  }

  // Only a failing writer and a deletion remove an object.
  lemma WakesRemoveTheCondemned(w: World, e: Event, k: Key)
    requires k in w.objects && !Condemned(w.wakes, w.late, k)
    ensures k in StepWake(w, e).objects
  {
    hide Submit, Referenced, Lists;
    if e.DeleteObject? && Deletes(w, e.wake) { assert w.wakes[e.wake].deleting != Some(k); }
  }

  lemma OthersRemoveNothing(w: World, e: Event, k: Key)
    requires !e.WriteFails? && !e.LateWrite? && k in w.objects && !Condemned(w.wakes, w.late, k)
    ensures k in Step(w, e).objects
  {
    hide Submit, StepWake, Condemned;
    WakesRemoveTheCondemned(w, e, k);
  }

  lemma ConfirmedObjectStays(w: World, e: Event, k: Key)
    requires WorldSound(w) && k in w.objects && !Condemned(w.wakes, w.late, k) && k.ref in w.db.intents
    requires w.db.intents[k.ref].state == Confirmed
    ensures k in Step(w, e).objects
  {
    hide TablesSound, BytesSound, AfterUnit, StepWake, Condemned;
    if e.WriteFails? {
      if e.upload in w.uploads && w.uploads[e.upload].phase.Holding? {
        assert UploadSound(w.uploads[e.upload], w.db);
        ConfirmedIsNotWritten(w.db, w.uploads[e.upload].attemptId);
      }
    } else if e.LateWrite? {
      if Uncertain(w, e.attemptId) { ConfirmedIsNotWritten(w.db, e.attemptId); }
    } else {
      OthersRemoveNothing(w, e, k);
    }
  }

  // Only confirmation, attachment and the orphan sweep touch assets and attachments.
  lemma {:induction false} WritesKeepAssets(writes: seq<Write>, s: Db)
    requires forall w :: w in writes ==> !w.InsertAsset? && !w.DeleteAsset? && !w.InsertAttachment?
    ensures var after := FILES.ApplyAll(writes, s);
            after.Some? ==> after.value.assets == s.assets && after.value.attachments == s.attachments
  {
    if writes != [] && Apply(writes[0], s).Some? { WritesKeepAssets(writes[1..], Apply(writes[0], s).value); }
  }

  lemma UnitKeepsAssets(w: World, u: Unit)
    requires forall x :: x in u.writes ==> !x.InsertAsset? && !x.DeleteAsset? && !x.InsertAttachment?
    ensures AfterUnit(w, u).db.assets == w.db.assets && AfterUnit(w, u).db.attachments == w.db.attachments
  {
    WritesKeepAssets(u.writes, w.db);
  }

  lemma UploadsKeepAssets(w: World, e: Event)
    requires e.ClaimAttempt? || e.PersistUpload? || e.FinishRefusal? || e.FinishAmbiguous? || e.DiscardLateUpload?
    ensures Step(w, e).db.assets == w.db.assets && Step(w, e).db.attachments == w.db.attachments
  {
    hide AfterUnit, Submit;
    if e.upload in w.uploads {
      var u := w.uploads[e.upload];
      match e
      case ClaimAttempt(_, _) =>
        if u.phase.Ready? { UnitKeepsAssets(w, Claim(u.snapshot, u.attemptId, u.phase.now)); }
      case DiscardLateUpload(_) => UnitKeepsAssets(w, DiscardExpired(u.snapshot));
      case PersistUpload(_, contentType, at, _, _) =>
        if u.phase.Wrote? {
          UnitKeepsAssets(w, PersistStored(u.snapshot, contentType, u.phase.content, u.attemptId, at));
        }
      case FinishRefusal(_, at, _) =>
        if u.phase.Refusing? { UnitKeepsAssets(w, FinishAttempt(u.attemptId, SafeRefusal, u.phase.code, at)); }
      case FinishAmbiguous(_, code, at) => UnitKeepsAssets(w, FinishAttempt(u.attemptId, AmbiguousFailure, code, at));
    }
  }

  lemma WakesKeepTheTables(w: World, e: Event)
    requires !e.Expire? && !e.Drop?
    ensures StepWake(w, e).db == w.db
  {
    hide Referenced, Lists, Sweeps, Checks;
  }

  lemma ExpiryKeepsAssets(w: World, id: Id, intent: Intent, answered: bool)
    ensures var s := StepWake(w, Expire(id, intent, answered)).db;
            s.assets == w.db.assets && s.attachments == w.db.attachments
  {
    hide AfterUnit, Commits;
    UnitKeepsAssets(w, ExpireIntent(intent));
  }

  lemma WakesKeepAssets(w: World, e: Event)
    requires !e.Drop?
    ensures StepWake(w, e).db.assets == w.db.assets && StepWake(w, e).db.attachments == w.db.attachments
  {
    hide StepWake;
    if e.Expire? { ExpiryKeepsAssets(w, e.wake, e.intent, e.answered); } else { WakesKeepTheTables(w, e); }
  }

  lemma OtherAssetsStay(w: World, e: Event)
    requires !e.ConfirmUpload? && !e.AttachAsset? && !e.Drop?
    ensures Step(w, e).db.assets == w.db.assets && Step(w, e).db.attachments == w.db.attachments
  {
    hide AfterUnit, Submit, StepWake;
    if e.ClaimAttempt? || e.PersistUpload? || e.FinishRefusal? || e.FinishAmbiguous? || e.DiscardLateUpload? {
      UploadsKeepAssets(w, e);
    } else if e.RegisterIntent? {
      UnitKeepsAssets(w, Registration(e.intent));
    } else {
      WakesKeepAssets(w, e);
    }
  }

  lemma IntentNamesItsKey(s: Db, r: Ref)
    requires TablesSound(s) && r in s.intents
    ensures s.intents[r].ref == r && s.intents[r].key == Key(r) && IntentAllowed(s.intents[r])
    ensures s.intents[r].state == Confirmed ==> s.intents[r].stored.Some?
  {
    assert IntentSound(r, s.intents[r], s.attempts);
  }

  // A new asset belongs to an intent that was stored; a pinned one stays pinned.
  lemma AssetsMove(w: World, e: Event, r: Ref)
    requires WorldSound(w)
    ensures var s, s' := w.db, Step(w, e).db;
            && (r in s'.assets ==>
                  (r in s.assets && s'.assets[r] == s.assets[r])
                  || (s'.assets[r].key.ref in s.intents && s.intents[s'.assets[r].key.ref].state == Stored))
            && (Attached(s.attachments, r) ==> Attached(s'.attachments, r))
  {
    hide Submit, TablesSound, UploadsSound, BytesSound, Referenced, Lists;
    var s, s' := w.db, Step(w, e).db;
    match e
    case ConfirmUpload(intent, asset) =>
      if Mints(intent, asset) && Commits(w, Confirm(intent, asset)) {
        ConfirmCommits(intent, asset, s, s');
        IntentNamesItsKey(s, intent.ref);
      }
    case AttachAsset(attachment, asset) =>
      if Commits(w, Attach(attachment, asset)) { AttachedStays(w, attachment, asset, r); }
    case Drop(_, asset, answered) =>
      if Sweeps(w, e.wake) && Commits(w, DropOrphan(asset)) { DropCommits(asset, s, s'); }
    case _ => OtherAssetsStay(w, e);
  }

  lemma AttachedStays(w: World, attachment: Ref, asset: Asset, r: Ref)
    requires Commits(w, Attach(attachment, asset))
    ensures var s' := Step(w, AttachAsset(attachment, asset)).db;
            s'.assets == w.db.assets && (Attached(w.db.attachments, r) ==> Attached(s'.attachments, r))
  {
    var s, s' := w.db, Step(w, AttachAsset(attachment, asset)).db;
    ApplyOne(FILES, InsertAttachment(attachment, asset.ref), s);
    if Attached(s.attachments, r) {
      var t :| t in s.attachments && s.attachments[t] == r;
      assert s'.attachments[t] == r;
    }
  }

  lemma PermanentIsSpared(w: World, e: Event, k: Key)
    requires WorldSound(w) && Permanent(w, k)
    ensures !Condemned(Step(w, e).wakes, Step(w, e).late, k)
  {
    hide TablesSound, UploadsSound, BytesSound, Submit, Lists;
    IntentNamesItsKey(w.db, k.ref);
    if e.Expire? {
      if Commits(w, ExpireIntent(e.intent)) { ExpiredKey(w, e.intent); }
    } else if e.Drop? {
      if Commits(w, DropOrphan(e.asset)) { DropCommits(e.asset, w.db, Submit(DropOrphan(e.asset), w.db).after); }
    } else if e.CheckNext? {
      assert w.db.intents[k.ref].key == k;
      assert Referenced(w.db, k);
    } else {
      OnlyCleanupCondemns(w, e, k);
    }
  }

  lemma PermanentStays(w: World, e: Event, k: Key)
    requires WorldSound(w) && Permanent(w, k)
    ensures Permanent(Step(w, e), k)
  {
    var w' := Step(w, e);
    StepKeeps(w, e);
    assert IntentLater(w.db.intents[k.ref], w'.db.intents[k.ref]);
    hide Step, WorldSound, TablesLater;
    ConfirmedObjectStays(w, e, k);
    PermanentIsSpared(w, e, k);
    forall r | r in w'.db.assets && w'.db.assets[r].key == k ensures Pinned(w'.db, r) {
      AssetsMove(w, e, r);
    }
  }

  // ---- Objects no wake will reach --------------------------------------------------------

  // Its intent is open and the object has an attempt that nobody can turn into stored bytes.
  ghost predicate Unfinished(w: World, ref: Ref) {
    exists a :: a in w.db.attempts && w.db.attempts[a].ref == ref && Uncertain(w, a)
  }

  ghost predicate OutOfReach(w: World, key: Key) {
    && !Condemned(w.wakes, w.late, key) && key.ref in w.db.intents && !AssetHasKey(w.db.assets, key)
    && var state := w.db.intents[key.ref].state;
       || state == Confirmed
       || (&& !Awaited(w.wakes, key) && |PermanentBefore(w, key)| >= MAXIMUM_R2_KEYS_PER_WAKE
           && (state == Discarded || (state.Pending? && Unfinished(w, key.ref))))
  }

  lemma PermanentBeforeGrows(w: World, e: Event, key: Key)
    requires WorldSound(w)
    ensures |PermanentBefore(w, key)| <= |PermanentBefore(Step(w, e), key)|
  {
    hide Step, WorldSound, Permanent;
    forall k | k in PermanentBefore(w, key) ensures k in PermanentBefore(Step(w, e), key) {
      PermanentStays(w, e, k);
      PermanentIsStored(Step(w, e), k);
    }
    SubsetIsSmaller(PermanentBefore(w, key), PermanentBefore(Step(w, e), key));
  }

  lemma PermanentIsStored(w: World, k: Key)
    requires Permanent(w, k)
    ensures k in w.objects
  {
  }

  lemma OnlyListingLists(w: World, e: Event, key: Key)
    requires !e.ListObjects? && !Awaited(w.wakes, key)
    ensures !Awaited(Step(w, e).wakes, key)
  {
    hide Submit, Referenced;
    if e.CheckNext? && Checks(w, e.wake) {
      var rest := w.wakes[e.wake].stage.rest;
      assert forall k :: k in rest[1..] ==> k in rest;
    }
  }

  // A page does not come so far.
  lemma NotListed(w: World, e: Event, key: Key)
    requires !Awaited(w.wakes, key) && |PermanentBefore(w, key)| >= MAXIMUM_R2_KEYS_PER_WAKE
    ensures !Awaited(Step(w, e).wakes, key)
  {
    hide AfterUnit, Referenced, Permanent, Lists;
    if e.ListObjects? {
      SubsetIsSmaller(PermanentBefore(w, key), Preceding(w.objects.Keys, key));
      if Lists(e.keys, w.objects.Keys) { ListedExactlyWhenEarly(e.keys, w.objects.Keys, key); }
    } else {
      OnlyListingLists(w, e, key);
    }
  }

  lemma UnlistedIsSpared(w: World, e: Event, key: Key)
    requires WorldSound(w) && !Condemned(w.wakes, w.late, key) && !Awaited(w.wakes, key) && key.ref in w.db.intents
    requires !AssetHasKey(w.db.assets, key) && w.db.intents[key.ref].state != Stored
    ensures !Condemned(Step(w, e).wakes, Step(w, e).late, key)
  {
    hide TablesSound, UploadsSound, BytesSound, Submit, Lists, Referenced;
    if e.Expire? {
      if Commits(w, ExpireIntent(e.intent)) { ExpiredKey(w, e.intent); }
    } else if e.Drop? {
      if Commits(w, DropOrphan(e.asset)) { DropCommits(e.asset, w.db, Submit(DropOrphan(e.asset), w.db).after); }
    } else if e.CheckNext? {
      if Checks(w, e.wake) { assert w.wakes[e.wake].stage.rest[0] != key; }
    } else {
      OnlyCleanupCondemns(w, e, key);
    }
  }

  lemma NoAssetAppears(w: World, e: Event, key: Key)
    requires WorldSound(w) && !AssetHasKey(w.db.assets, key) && key.ref in w.db.intents
    requires w.db.intents[key.ref].state != Stored
    ensures !AssetHasKey(Step(w, e).db.assets, key)
  {
    hide Step, WorldSound;
    var s' := Step(w, e).db;
    forall r | r in s'.assets ensures s'.assets[r].key != key { AssetsMove(w, e, r); }
  }

  // An unfinished intent is not stored: a stored attempt would be a second effective one.
  lemma UnfinishedIsNotStored(w: World, a: Id)
    requires WorldSound(w) && Uncertain(w, a)
    ensures var ref := w.db.attempts[a].ref;
            && ref in w.db.intents && w.db.intents[ref].state != Stored && w.db.intents[ref].state != Confirmed
  {
    hide UploadsSound, BytesSound;
    WriterExcludesStored(w.db, a);
    ConfirmedIsNotWritten(w.db, a);
  }

  lemma UnfinishedStaysOpen(w: World, e: Event, ref: Ref)
    requires WorldSound(w) && Unfinished(w, ref)
    ensures var s' := Step(w, e).db;
            && ref in s'.intents && Unfinished(Step(w, e), ref)
            && (s'.intents[ref].state.Pending? || s'.intents[ref].state == Discarded)
  {
    var w' := Step(w, e);
    StepKeeps(w, e);
    var a :| a in w.db.attempts && w.db.attempts[a].ref == ref && Uncertain(w, a);
    assert AttemptLater(w.db.attempts[a], w'.db.attempts[a]);
    hide Step, TablesLater, WorldSound, Uncertain;
    UncertainStays(w, e, a);
    UncertainIsKnown(w', a);
    UnfinishedIsNotStored(w', a);
  }

  lemma UncertainIsKnown(w: World, a: Id)
    requires Uncertain(w, a)
    ensures a in w.db.attempts
  {
  }

  lemma OutOfReachStays(w: World, e: Event, key: Key)
    requires WorldSound(w) && OutOfReach(w, key)
    ensures OutOfReach(Step(w, e), key)
  {
    var w' := Step(w, e);
    StepKeeps(w, e);
    assert IntentLater(w.db.intents[key.ref], w'.db.intents[key.ref]);
    IntentNamesItsKey(w.db, key.ref);
    hide Step, TablesLater, WorldSound, Unfinished, Permanent;
    NoAssetAppears(w, e, key);
    if w.db.intents[key.ref].state == Confirmed {
      StrandedStep(w, key, e);
    } else {
      UnlistedIsSpared(w, e, key);
      NotListed(w, e, key);
      PermanentBeforeGrows(w, e, key);
      if w.db.intents[key.ref].state.Pending? { UnfinishedStaysOpen(w, e, key.ref); }
    }
  }

  lemma {:induction false} OutOfReachForever(w: World, key: Key, more: seq<Event>)
    requires WorldSound(w) && OutOfReach(w, key)
    ensures OutOfReach(Run(w, more), key)
    decreases |more|
  {
    hide Step, WorldSound, OutOfReach;
    if more != [] {
      var n := |more| - 1;
      OutOfReachForever(w, key, more[..n]);
      RunKeeps(w, more[..n]);
      OutOfReachStays(Run(w, more[..n]), more[n], key);
    }
  }
}
