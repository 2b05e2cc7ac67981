// With nothing going on around them and every answer heard, an upload is stored and a cleanup wake
// finishes all of its work.
module FileUndisturbed {
  import opened Sets
  import opened Wrappers
  import opened AtomicBatch
  import opened FileListing
  import opened FileTransfers
  import opened FileWorld
  import opened FileSafety
  import opened FileAttempts
  import opened FileRuns
  import opened FileTheorems
  import opened FileTurns
  import opened FileRuntime

  predicate Undisturbed(m: Moment) {
    m.arrivals == [] && m.answers == []
  }

  lemma OneMoreEvent(trace: seq<Event>, e: Event)
    ensures Run(EMPTY, trace + [e]) == Step(Run(EMPTY, trace), e)
  {
    assert (trace + [e])[..|trace|] == trace;
  }

  // Its next event happens in the state it is in.
  lemma NextEvent(m: Moment, e: Event, n: nat)
    requires Undisturbed(m)
    ensures m.Met() == m.Now() && (forall k: nat :: m.Hears(k)) && m.Waited() == m
    ensures Undisturbed(m.Then(e, n)) && m.Then(e, n).Now() == Step(m.Now(), e)
    ensures Undisturbed(m.AtOnce(e)) && m.AtOnce(e).Now() == Step(m.Now(), e)
  {
    hide Run, Step;
    assert m.trace + [] == m.trace;
    OneMoreEvent(m.trace, e);
  }

  // ---- An upload -----------------------------------------------------------------------------

  lemma PersistGoesThrough(s: Db, intent: Intent, a: Id, now: Ms, at: Ms, content: Content)
    requires StoresIntent(s, intent) && IntentAllowed(intent) && intent.state.Pending? && content.byteSize > 0 && 0 <= now <= at
    requires a in s.attempts && s.attempts[a] == Attempt(intent.ref, intent.key, Claimed, None, None, now, None)
    ensures Submit(PersistStored(intent, intent.contentType, content, a, at), s).Committed?
  {
    var u := PersistStored(intent, intent.contentType, content, a, at);
    assert u.writes == [u.writes[0]] + [u.writes[1]];
    ApplyAllAppend(FILES, [u.writes[0]], [u.writes[1]], s);
    ApplyOne(FILES, u.writes[0], s);
    ApplyOne(FILES, u.writes[1], Apply(u.writes[0], s).value);
  }

  // A pending intent that has not run out, with fewer than five attempts and none of them effective, an
  // unused attempt id and the promised content type: the answer is 200, with these bytes.
  lemma UploadIsStored(
    m: Moment, upload: Id, ref: Ref, attemptId: Id, now: Ms, at: Ms, contentType: string, content: Content)
    requires Undisturbed(m) && upload !in m.Now().uploads && attemptId !in m.Now().db.attempts && 0 <= now <= at
    requires ref in m.Now().db.intents && m.Now().db.intents[ref].state.Pending? && now < m.Now().db.intents[ref].expiresAt
    requires |AttemptsOf(m.Now().db.attempts, ref)| < 5 && !HasEffective(m.Now().db.attempts, ref)
    requires content.byteSize > 0 && contentType == m.Now().db.intents[ref].contentType
    ensures UploadTurn(m, upload, ref, attemptId, now, at, Streamed(contentType, content)).response == StoredResponse(content)
  {
    var w, snapshot := m.Now(), m.Now().db.intents[ref];
    HeadsNameThemselves(m.trace, ref);
    ClaimAndWriteHappen(m.trace, w, upload, ref, attemptId, now, content);
    var start, claim, write := OpenUpload(upload, ref, attemptId, now), ClaimAttempt(upload, true), WriteObject(upload, content);
    var s := Step(Step(Step(w, start), claim), write).db;
    IntentsAreAllowed(m.trace, ref);
    PersistGoesThrough(s, snapshot, attemptId, now, at, content);
    hide Step, Run, Submit, AttemptsOf, HasEffective, IntentAllowed;
    NextEvent(m, start, 0);
    var n := m.AtOnce(start);
    NextEvent(n, claim, 1);
    NextEvent(n.Then(claim, 1), write, 0);
    NextEvent(n.Then(claim, 1).AtOnce(write), PersistUpload(upload, contentType, at, true, true), 1);
  }

  lemma IntentsAreAllowed(trace: seq<Event>, ref: Ref)
    requires ref in Run(EMPTY, trace).db.intents
    ensures IntentAllowed(Run(EMPTY, trace).db.intents[ref])
  {
    EveryRunIsSound(trace);
    assert IntentSound(ref, Run(EMPTY, trace).db.intents[ref], Run(EMPTY, trace).db.attempts);
  }

  lemma ClaimAndWriteHappen(
    trace: seq<Event>, w: World, upload: Id, ref: Ref, attemptId: Id, now: Ms, content: Content)
    requires w == Run(EMPTY, trace) && upload !in w.uploads && attemptId !in w.db.attempts && 0 <= now
    requires ref in w.db.intents && w.db.intents[ref].state.Pending? && now < w.db.intents[ref].expiresAt
    requires |AttemptsOf(w.db.attempts, ref)| < 5 && !HasEffective(w.db.attempts, ref) && content.byteSize > 0
    ensures var start, claim := Step(w, OpenUpload(upload, ref, attemptId, now)), ClaimAttempt(upload, true);
            && Commits(start, Claim(w.db.intents[ref], attemptId, now))
            && Step(Step(start, claim), WriteObject(upload, content)).db ==
               w.db.(attempts := w.db.attempts[
                 attemptId := Attempt(ref, w.db.intents[ref].key, Claimed, None, None, now, None)])
  {
    var snapshot := w.db.intents[ref];
    HeadsNameThemselves(trace, ref);
    ClaimSucceedsExactlyWhen(w.db, snapshot, attemptId, now);
    ClaimCommits(snapshot, attemptId, now, w.db, Submit(Claim(snapshot, attemptId, now), w.db).after);
    OpenedUpload(w, upload, ref, attemptId, now);
    hide Submit, Run, AttemptsOf, HasEffective;
  }

  // ---- A wake --------------------------------------------------------------------------------

  lemma DiscardGoesThrough(s: Db, intent: Intent)
    requires StoresIntent(s, intent) && (intent.state.Pending? || intent.state == Stored) && IntentAllowed(intent)
    ensures Submit(ExpireIntent(intent), s) ==
            Committed(s.(intents := s.intents[intent.ref := intent.(state := Discarded)]))
  {
    ApplyOne(FILES, ExpireIntent(intent).writes[0], s);
  }

  lemma DropGoesThrough(s: Db, asset: Asset)
    requires StoresAsset(s, asset) && !asset.blocked && !Attached(s.attachments, asset.ref)
    ensures Submit(DropOrphan(asset), s) == Committed(s.(assets := s.assets - {asset.ref}))
  {
    ApplyOne(FILES, DropOrphan(asset).writes[0], s);
  }

  lemma DropHappens(w: World, wake: Id, asset: Asset)
    requires WakeAt(w, wake, Wake(Sweeping, None)) && StoresAsset(w.db, asset) && !asset.blocked
    requires !Attached(w.db.attachments, asset.ref)
    ensures Commits(w, DropOrphan(asset)) && Step(w, Drop(wake, asset, true)).db == w.db.(assets := w.db.assets - {asset.ref})
  {
    DropGoesThrough(w.db, asset);
    hide Submit;
  }

  // The deletion it has called lands.
  lemma DeletionIsDone(m: Moment, wake: Id, stage: Stage, key: Key)
    requires Undisturbed(m) && WakeAt(m.Now(), wake, Wake(stage, Some(key)))
    ensures var n := AfterDeletion(m, wake);
            Undisturbed(n) && WakeAt(n.Now(), wake, Wake(stage, None)) && n.Now().db == m.Now().db
  {
    NextEvent(m, DeleteObject(wake), 1);
    DeleteLands(m.Now(), wake, stage, key);
    hide Run, Step, WakeAt;
  }

  lemma ExpiryIsDone(m: Moment, wake: Id, intent: Intent)
    requires Undisturbed(m) && WakeAt(m.Now(), wake, Wake(Sweeping, None)) && StoresIntent(m.Now().db, intent)
    requires (intent.state.Pending? || intent.state == Stored) && IntentAllowed(intent)
    ensures ResultOf(m, Expiry(intent)) == Some(true)
    ensures var n := AfterTask(m, wake, Expiry(intent));
            && Undisturbed(n) && WakeAt(n.Now(), wake, Wake(Sweeping, None))
            && n.Now().db == m.Now().db.(intents := m.Now().db.intents[intent.ref := intent.(state := Discarded)])
  {
    var w, e := m.Now(), Expire(wake, intent, true);
    DiscardGoesThrough(w.db, intent);
    ExpireLands(w, wake, intent, true);
    assert Step(w, e).db == w.db.(intents := w.db.intents[intent.ref := intent.(state := Discarded)]) by {
      hide Submit;
    }
    hide Step, Run, Submit, WakeAt;
    NextEvent(m, e, 1);
    if intent.state == Stored { DeletionIsDone(m.Then(e, 1), wake, Sweeping, intent.key); }
  }

  lemma RemovalIsDone(m: Moment, wake: Id, asset: Asset)
    requires Undisturbed(m) && WakeAt(m.Now(), wake, Wake(Sweeping, None))
    requires StoresAsset(m.Now().db, asset) && !asset.blocked && !Attached(m.Now().db.attachments, asset.ref)
    ensures ResultOf(m, Removal(asset)) == Some(true)
    ensures var n := AfterTask(m, wake, Removal(asset));
            && Undisturbed(n) && WakeAt(n.Now(), wake, Wake(Sweeping, None))
            && n.Now().db == m.Now().db.(assets := m.Now().db.assets - {asset.ref})
  {
    var w, e := m.Now(), Drop(wake, asset, true);
    hide Step, Run, WakeAt, WorldSound, Submit;
    DropHappens(w, wake, asset);
    EveryRunIsSound(m.trace);
    DropLands(w, wake, asset, true);
    NextEvent(m, e, 1);
    DeletionIsDone(m.Then(e, 1), wake, Sweeping, asset.key);
  }

  lemma CheckIsDone(m: Moment, wake: Id, keys: seq<Key>)
    requires Undisturbed(m) && keys != [] && WakeAt(m.Now(), wake, Wake(Reconciling(keys), None))
    ensures ResultOf(m, Check(keys[0])) == Some(!Referenced(m.Now().db, keys[0]))
    ensures var n := AfterTask(m, wake, Check(keys[0]));
            Undisturbed(n) && WakeAt(n.Now(), wake, Wake(Reconciling(keys[1..]), None)) && n.Now().db == m.Now().db
  {
    var e := CheckNext(wake, true);
    CheckLands(m.Now(), wake, keys, true);
    hide Step, Run, Referenced, WakeAt;
    NextEvent(m, e, 1);
    if !Referenced(m.Now().db, keys[0]) { DeletionIsDone(m.Then(e, 1), wake, Reconciling(keys[1..]), keys[0]); }
  }

  // Done without a fault, every one counted.
  predicate AllDone(m: Moment, wake: Id, tasks: seq<Task>) {
    Counted(m, wake, tasks) == |tasks| && FaultsOf(m, wake, tasks) == []
  }

  lemma {:induction false} ExpiriesAreDone(m: Moment, wake: Id, intents: seq<Intent>, i: nat)
    requires Undisturbed(m) && WakeAt(m.Now(), wake, Wake(Sweeping, None)) && i <= |intents|
    requires forall j :: 0 <= j < |intents| ==>
               && StoresIntent(m.Now().db, intents[j]) && (intents[j].state.Pending? || intents[j].state == Stored)
               && IntentAllowed(intents[j])
    requires forall j, k :: 0 <= j < k < |intents| ==> intents[j].ref != intents[k].ref
    ensures AllDone(m, wake, Expiries(intents)[..i])
    ensures var n := AfterTasks(m, wake, Expiries(intents)[..i]);
            && Undisturbed(n) && WakeAt(n.Now(), wake, Wake(Sweeping, None))
            && n.Now().db.assets == m.Now().db.assets && n.Now().db.attachments == m.Now().db.attachments
            && forall j :: i <= j < |intents| ==> StoresIntent(n.Now().db, intents[j])
  {
    hide Run, WakeAt, AfterTask, ResultOf, IntentAllowed;
    if i > 0 {
      ExpiriesAreDone(m, wake, intents, i - 1);
      NextTask(m, wake, Expiries(intents), i - 1);
      ExpiryIsDone(AfterTasks(m, wake, Expiries(intents)[..i - 1]), wake, intents[i - 1]);
    }
  }

  lemma {:induction false} RemovalsAreDone(m: Moment, wake: Id, assets: seq<Asset>, i: nat)
    requires Undisturbed(m) && WakeAt(m.Now(), wake, Wake(Sweeping, None)) && i <= |assets|
    requires forall j :: 0 <= j < |assets| ==>
               StoresAsset(m.Now().db, assets[j]) && !assets[j].blocked && !Attached(m.Now().db.attachments, assets[j].ref)
    requires forall j, k :: 0 <= j < k < |assets| ==> assets[j].ref != assets[k].ref
    ensures AllDone(m, wake, Removals(assets)[..i])
    ensures var n := AfterTasks(m, wake, Removals(assets)[..i]);
            && Undisturbed(n) && WakeAt(n.Now(), wake, Wake(Sweeping, None))
            && n.Now().db.attachments == m.Now().db.attachments
            && forall j :: i <= j < |assets| ==> StoresAsset(n.Now().db, assets[j])
  {
    hide Run, WakeAt, AfterTask, ResultOf, Attached;
    if i > 0 {
      RemovalsAreDone(m, wake, assets, i - 1);
      NextTask(m, wake, Removals(assets), i - 1);
      RemovalIsDone(AfterTasks(m, wake, Removals(assets)[..i - 1]), wake, assets[i - 1]);
    }
  }

  // Each listed key is deleted or left alone as it is unreferenced or referenced.
  lemma {:induction false} ChecksAreDone(m: Moment, wake: Id, keys: seq<Key>, i: nat)
    requires Undisturbed(m) && WakeAt(m.Now(), wake, Wake(Reconciling(keys), None)) && i <= |keys|
    ensures FaultsOf(m, wake, KeyChecks(keys)[..i]) == []
    ensures forall j :: 0 <= j < i ==> ResultAt(m, wake, KeyChecks(keys), j) == Some(!Referenced(m.Now().db, keys[j]))
    ensures var n := AfterTasks(m, wake, KeyChecks(keys)[..i]);
            Undisturbed(n) && WakeAt(n.Now(), wake, Wake(Reconciling(keys[i..]), None)) && n.Now().db == m.Now().db
  {
    hide Run, WakeAt, AfterTask, ResultOf, Referenced;
    assert keys[0..] == keys;
    if i > 0 {
      ChecksAreDone(m, wake, keys, i - 1);
      NextTask(m, wake, KeyChecks(keys), i - 1);
      assert keys[i - 1..][1..] == keys[i..];
      CheckIsDone(AfterTasks(m, wake, KeyChecks(keys)[..i - 1]), wake, keys[i - 1..]);
    }
  }

  lemma SelectedRowsAreStored(w: World, intents: seq<Intent>, assets: seq<Asset>, now: Ms)
    requires WorldSound(w) && Selects(intents, assets, w.db, now)
    ensures forall j :: 0 <= j < |intents| ==>
              && StoresIntent(w.db, intents[j]) && (intents[j].state.Pending? || intents[j].state == Stored)
              && IntentAllowed(intents[j])
    ensures forall j, k :: 0 <= j < k < |intents| ==> intents[j].ref != intents[k].ref
    ensures forall j :: 0 <= j < |assets| ==>
              StoresAsset(w.db, assets[j]) && !assets[j].blocked && !Attached(w.db.attachments, assets[j].ref)
    ensures forall j, k :: 0 <= j < k < |assets| ==> assets[j].ref != assets[k].ref
  {
    hide UploadsSound, BytesSound, AttemptsSound;
    forall j | 0 <= j < |intents|
      ensures StoresIntent(w.db, intents[j]) && (intents[j].state.Pending? || intents[j].state == Stored)
              && IntentAllowed(intents[j])
    {
      assert intents[j] in Expired(w.db, now);
      var r :| r in w.db.intents && w.db.intents[r] == intents[j];
      assert IntentSound(r, intents[j], w.db.attempts);
    }
    forall j | 0 <= j < |assets|
      ensures StoresAsset(w.db, assets[j]) && !assets[j].blocked && !Attached(w.db.attachments, assets[j].ref)
    {
      assert assets[j] in Orphans(w.db, now);
      var r :| r in w.db.assets && w.db.assets[r] == assets[j] && !Attached(w.db.attachments, r);
      assert AssetSound(r, w.db.assets, w.db.intents);
    }
  }

  // Every selected row is counted, nothing is a fault, and the listed keys that are removed are exactly
  // the unreferenced ones.
  lemma WakeFinishesItsWork(m: Moment, wake: Id, intents: seq<Intent>, assets: seq<Asset>, keys: seq<Key>, now: Ms)
    requires Undisturbed(m) && WakeAt(m.Now(), wake, Wake(Sweeping, None)) && Selects(intents, assets, m.Now().db, now)
    requires var swept := AfterTasks(AfterTasks(m, wake, Expiries(intents)), wake, Removals(assets));
             Lists(keys, swept.Now().objects.Keys)
    ensures var expired := AfterTasks(m, wake, Expiries(intents));
            var swept := AfterTasks(expired, wake, Removals(assets));
            var listed := swept.AtOnce(ListObjects(wake, keys));
            && AllDone(m, wake, Expiries(intents)) && AllDone(expired, wake, Removals(assets))
            && FaultsOf(listed, wake, KeyChecks(keys)) == []
            && forall i :: 0 <= i < |keys| ==>
                 ResultAt(listed, wake, KeyChecks(keys), i) == Some(!Referenced(listed.Now().db, keys[i]))
  {
    hide Run, WakeAt, AfterTasks, ResultAt, Lists, Selects, Referenced, StoresIntent, StoresAsset, Counted, FaultsOf;
    EveryRunIsSound(m.trace);
    SelectedRowsAreStored(m.Now(), intents, assets, now);
    var e, r := Expiries(intents), Removals(assets);
    assert e[..|intents|] == e && r[..|assets|] == r && KeyChecks(keys)[..|keys|] == KeyChecks(keys);
    ExpiriesAreDone(m, wake, intents, |intents|);
    var expired := AfterTasks(m, wake, e);
    assert forall j :: 0 <= j < |assets| ==> StoresAsset(expired.Now().db, assets[j]) by {
      assert forall j :: 0 <= j < |assets| ==> StoresAsset(m.Now().db, assets[j]);
      SameAssets(m.Now().db, expired.Now().db, assets);
    }
    RemovalsAreDone(expired, wake, assets, |assets|);
    var swept := AfterTasks(expired, wake, r);
    ListLands(swept.Now(), wake, keys);
    NextEvent(swept, ListObjects(wake, keys), 0);
    ChecksAreDone(swept.AtOnce(ListObjects(wake, keys)), wake, keys, |keys|);
  }

  lemma SameAssets(s: Db, t: Db, assets: seq<Asset>)
    requires t.assets == s.assets && forall j :: 0 <= j < |assets| ==> StoresAsset(s, assets[j])
    ensures forall j :: 0 <= j < |assets| ==> StoresAsset(t, assets[j])
  {
  }
}
