// Which objects the maintenance lane can ever delete. The reconciliation pass lists one page of a
// thousand keys and no more, so an object that nothing else condemns has to come onto that page,
// past the objects before it that no wake will ever remove.
module FileReclamation {
  import opened Sets
  import opened Wrappers
  import opened AtomicBatch
  import opened FileListing
  import opened FileTransfers
  import opened FileWorld
  import opened FileSafety
  import opened FileRuns
  import opened FileTheorems
  import opened FileOrigins
  import opened FilePermanence

  lemma RunOfOne(w: World, e: Event)
    ensures Run(w, [e]) == Step(w, e)
  {
    hide Step;
    assert [e][..0] == [];
    assert Run(w, []) == w;
  }

  lemma {:induction false} RunAppends(w: World, first: seq<Event>, second: seq<Event>)
    ensures Run(w, first + second) == Run(Run(w, first), second)
    decreases |second|
  {
    hide Step;
    if second == [] {
      assert first + second == first;
    } else {
      var n := |second| - 1;
      var all := first + second;
      assert all[..|all| - 1] == first + second[..n] && all[|all| - 1] == second[n];
      RunAppends(w, first, second[..n]);
    }
  }

  lemma RunOfTwo(w: World, first: Event, second: Event)
    ensures Run(w, [first, second]) == Step(Step(w, first), second)
  {
    hide Step;
    assert [first, second] == [first] + [second];
    RunAppends(w, [first], [second]);
    RunOfOne(w, first);
    RunOfOne(Step(w, first), second);
  }

  // ---- One step of a wake ----------------------------------------------------------------

  // The tables with this intent discarded.
  function Abandoned(s: Db, ref: Ref): Db
    requires ref in s.intents
  {
    s.(intents := s.intents[ref := s.intents[ref].(state := Discarded)])
  }

  lemma OpenExpires(s: Db, intent: Intent)
    requires StoresIntent(s, intent) && IntentAllowed(intent) && (intent.state.Pending? || intent.state == Stored)
    ensures Submit(ExpireIntent(intent), s) == Committed(Abandoned(s, intent.ref))
  {
    ApplyOne(FILES, ExpireIntent(intent).writes[0], s);
  }

  lemma StartSteps(w: World, id: Id)
    requires id !in w.wakes
    ensures Step(w, StartWake(id)) == w.(wakes := w.wakes[id := Wake(Sweeping, None)])
  {
  }

  lemma ExpireSteps(w: World, id: Id, intent: Intent)
    requires Sweeps(w, id)
    requires StoresIntent(w.db, intent) && IntentAllowed(intent) && (intent.state.Pending? || intent.state == Stored)
    ensures Step(w, Expire(id, intent, true)) ==
            w.(db := Abandoned(w.db, intent.ref),
               wakes := if intent.state == Stored then w.wakes[id := Wake(Sweeping, Some(intent.key))] else w.wakes)
  {
    OpenExpires(w.db, intent);
    hide Submit, Abandoned;
  }

  lemma ListSteps(w: World, id: Id, keys: seq<Key>)
    requires Sweeps(w, id) && Lists(keys, w.objects.Keys)
    ensures Step(w, ListObjects(id, keys)) == w.(wakes := w.wakes[id := Wake(Reconciling(keys), None)])
  {
    hide Lists;
  }

  lemma CheckSteps(w: World, id: Id, keys: seq<Key>)
    requires id in w.wakes && w.wakes[id] == Wake(Reconciling(keys), None) && keys != []
    ensures Step(w, CheckNext(id, true)) ==
            w.(wakes := w.wakes[id := Wake(Reconciling(keys[1..]),
                                           if Referenced(w.db, keys[0]) then None else Some(keys[0]))])
  {
    hide Referenced;
  }

  lemma DeleteSteps(w: World, id: Id, k: Key)
    requires id in w.wakes && w.wakes[id].deleting == Some(k)
    ensures Step(w, DeleteObject(id)) ==
            w.(objects := w.objects - {k}, wakes := w.wakes[id := w.wakes[id].(deleting := None)])
  {
  }

  lemma DropSteps(w: World, id: Id, asset: Asset)
    requires Sweeps(w, id)
    requires StoresAsset(w.db, asset) && !asset.blocked && !Attached(w.db.attachments, asset.ref)
    ensures Step(w, Drop(id, asset, true)) ==
            w.(db := w.db.(assets := w.db.assets - {asset.ref}),
               wakes := w.wakes[id := Wake(Sweeping, Some(asset.key))])
  {
    ApplyOne(FILES, DropOrphan(asset).writes[0], w.db);
  }

  // ---- Condemning one object -------------------------------------------------------------

  lemma AbandonedIsUnreferenced(s: Db, key: Key)
    requires TablesSound(s) && key.ref in s.intents && s.intents[key.ref].state != Confirmed
    ensures !AssetHasKey(s.assets, key) && !Referenced(Abandoned(s, key.ref), key)
  {
    forall r | r in s.intents ensures s.intents[r].key == Key(r) { IntentNamesItsKey(s, r); }
    forall a | a in s.assets ensures s.assets[a].key != key { assert AssetSound(a, s.assets, s.intents); }
  }

  // A new wake discards the intent if it is open; the object of a stored one is condemned at once.
  lemma NewWakeAbandons(w: World, k: Key) returns (more: seq<Event>, id: Id)
    requires WorldSound(w) && k.ref in w.db.intents && w.db.intents[k.ref].state != Confirmed
    ensures id !in w.wakes
    ensures var stored := w.db.intents[k.ref].state == Stored;
            Run(w, more) == w.(db := Abandoned(w.db, k.ref),
                               wakes := w.wakes[id := Wake(Sweeping, if stored then Some(k) else None)])
  {
    hide TablesSound, UploadsSound, BytesSound, Step, Run;
    var intent := w.db.intents[k.ref];
    IntentNamesItsKey(w.db, k.ref);
    id := LongerThanAll(w.wakes.Keys);
    StartSteps(w, id);
    var w1 := w.(wakes := w.wakes[id := Wake(Sweeping, None)]);
    if intent.state == Discarded {
      assert w.db.intents[k.ref := intent] == w.db.intents;
      more := [StartWake(id)];
      RunOfOne(w, StartWake(id));
    } else {
      more := [StartWake(id), Expire(id, intent, true)];
      ExpireSteps(w1, id, intent);
      RunOfTwo(w, StartWake(id), Expire(id, intent, true));
      assert w1.wakes[id := Wake(Sweeping, Some(k))] == w.wakes[id := Wake(Sweeping, Some(k))];
    }
  }

  // A wake goes through referenced keys without touching anything.
  lemma {:induction false} ReferencedArePassed(w: World, id: Id, keys: seq<Key>, i: nat) returns (more: seq<Event>)
    requires id in w.wakes && w.wakes[id] == Wake(Reconciling(keys), None) && i <= |keys|
    requires forall j :: 0 <= j < i ==> Referenced(w.db, keys[j])
    ensures Run(w, more) == w.(wakes := w.wakes[id := Wake(Reconciling(keys[i..]), None)])
    decreases i
  {
    hide Step, Run, Referenced;
    if i == 0 {
      more := [];
      assert keys[0..] == keys;
      assert w.wakes[id := Wake(Reconciling(keys), None)] == w.wakes;
      NoStep(w);
    } else {
      CheckSteps(w, id, keys);
      var w1 := w.(wakes := w.wakes[id := Wake(Reconciling(keys[1..]), None)]);
      RunOfOne(w, CheckNext(id, true));
      forall j | 0 <= j < i - 1 ensures Referenced(w1.db, keys[1..][j]) { assert keys[1..][j] == keys[j + 1]; }
      var rest := ReferencedArePassed(w1, id, keys[1..], i - 1);
      more := [CheckNext(id, true)] + rest;
      RunAppends(w, [CheckNext(id, true)], rest);
      assert keys[1..][i - 1..] == keys[i..];
    }
  }

  lemma NoStep(w: World)
    ensures Run(w, []) == w
  {
  }

  lemma PermanentIsReferenced(w: World, k: Key)
    requires TablesSound(w.db) && Permanent(w, k)
    ensures Referenced(w.db, k)
  {
    IntentNamesItsKey(w.db, k.ref);
  }

  // A wake that has just swept lists a page, goes past the permanent objects and condemns the key.
  lemma PageIsWorkedOff(w: World, id: Id, k: Key) returns (more: seq<Event>, rest: seq<Key>)
    requires WorldSound(w) && Sweeps(w, id) && k in w.objects && !Referenced(w.db, k)
    requires |Preceding(w.objects.Keys, k)| < MAXIMUM_R2_KEYS_PER_WAKE
    requires forall j :: j in Preceding(w.objects.Keys, k) ==> Permanent(w, j)
    ensures Run(w, more) == w.(wakes := w.wakes[id := Wake(Reconciling(rest), Some(k))])
  {
    hide Step, Run, Referenced, Lists, Permanent, TablesSound, UploadsSound, BytesSound, Before;
    var keys := SomeListing(w.objects.Keys);
    ListedExactlyWhenEarly(keys, w.objects.Keys, k);
    var i :| 0 <= i < |keys| && keys[i] == k;
    forall j | 0 <= j < i ensures Referenced(w.db, keys[j]) {
      EarlierIsBefore(keys, w.objects.Keys, j, i);
      PermanentIsReferenced(w, keys[j]);
    }
    ListSteps(w, id, keys);
    var w1 := w.(wakes := w.wakes[id := Wake(Reconciling(keys), None)]);
    var passed := ReferencedArePassed(w1, id, keys, i);
    var w2 := w1.(wakes := w1.wakes[id := Wake(Reconciling(keys[i..]), None)]);
    CheckSteps(w2, id, keys[i..]);
    rest := keys[i..][1..];
    RunOfOne(w, ListObjects(id, keys));
    RunOfOne(w2, CheckNext(id, true));
    RunAppends(w1, passed, [CheckNext(id, true)]);
    RunAppends(w, [ListObjects(id, keys)], passed + [CheckNext(id, true)]);
    more := [ListObjects(id, keys)] + (passed + [CheckNext(id, true)]);
    assert w2.wakes[id := Wake(Reconciling(rest), Some(k))] == w.wakes[id := Wake(Reconciling(rest), Some(k))];
  }

  lemma EarlierIsBefore(keys: seq<Key>, objects: set<Key>, j: nat, i: nat)
    requires Lists(keys, objects) && j < i < |keys|
    ensures keys[j] in Preceding(objects, keys[i])
  {
    hide Before;
    BeforeIsStrictAndTotal(keys[j], keys[i], keys[j]);
  }

  // Behind permanent objects only, on the page, and of an unconfirmed intent: a new wake condemns it.
  lemma PagedIsCondemned(w: World, k: Key) returns (more: seq<Event>, id: Id, stage: Stage)
    requires WorldSound(w) && k in w.objects && |Preceding(w.objects.Keys, k)| < MAXIMUM_R2_KEYS_PER_WAKE
    requires forall j :: j in Preceding(w.objects.Keys, k) ==> Permanent(w, j)
    requires k.ref in w.db.intents && w.db.intents[k.ref].state != Confirmed
    ensures id !in w.wakes
    ensures Run(w, more) == w.(db := Abandoned(w.db, k.ref), wakes := w.wakes[id := Wake(stage, Some(k))])
  {
    hide Step, Run, Referenced, TablesSound, UploadsSound, BytesSound, Before;
    AbandonedIsUnreferenced(w.db, k);
    more, id := NewWakeAbandons(w, k);
    stage := Sweeping;
    if w.db.intents[k.ref].state != Stored {
      var w1 := Run(w, more);
      RunKeeps(w, more);
      forall j | j in Preceding(w.objects.Keys, k) ensures Permanent(w1, j) { PermanentSurvivesWake(w, w1, k, id, j); }
      var worked, rest := PageIsWorkedOff(w1, id, k);
      stage := Reconciling(rest);
      RunAppends(w, more, worked);
      more := more + worked;
      assert w1.wakes[id := Wake(stage, Some(k))] == w.wakes[id := Wake(stage, Some(k))];
    }
  }

  lemma PermanentSurvivesWake(w: World, w1: World, k: Key, id: Id, j: Key)
    requires k.ref in w.db.intents && w.db.intents[k.ref].state != Confirmed && id !in w.wakes && Permanent(w, j)
    requires w1 == w.(db := Abandoned(w.db, k.ref), wakes := w.wakes[id := Wake(Sweeping, None)])
    ensures Permanent(w1, j)
  {
    hide Attached;
    assert j.ref != k.ref;
  }

  // A running wake that has the key before it goes on until it gets there; what it deletes on its
  // way makes no difference.
  lemma {:induction false} AwaitedIsCondemned(w: World, id: Id, keys: seq<Key>, key: Key) returns (more: seq<Event>)
    requires WorldSound(w) && key in w.objects && !Referenced(w.db, key)
    requires id in w.wakes && w.wakes[id].stage == Reconciling(keys) && key in keys
    ensures var w' := Run(w, more); key in w'.objects && Condemned(w'.wakes, w'.late, key)
    decreases |keys|, if w.wakes[id].deleting.Some? then 1 else 0
  {
    hide Step, Run, Referenced, WorldSound;
    if w.wakes[id].deleting == Some(key) {
      more := [];
      NoStep(w);
    } else if w.wakes[id].deleting.Some? {
      var k := w.wakes[id].deleting.value;
      DeleteSteps(w, id, k);
      StepKeeps(w, DeleteObject(id));
      RunOfOne(w, DeleteObject(id));
      var rest := AwaitedIsCondemned(Step(w, DeleteObject(id)), id, keys, key);
      RunAppends(w, [DeleteObject(id)], rest);
      more := [DeleteObject(id)] + rest;
    } else {
      CheckSteps(w, id, keys);
      StepKeeps(w, CheckNext(id, true));
      RunOfOne(w, CheckNext(id, true));
      var w1 := Step(w, CheckNext(id, true));
      if keys[0] == key {
        more := [CheckNext(id, true)];
        assert w1.wakes[id].deleting == Some(key);
      } else {
        var rest := AwaitedIsCondemned(w1, id, keys[1..], key);
        RunAppends(w, [CheckNext(id, true)], rest);
        more := [CheckNext(id, true)] + rest;
      }
    }
  }

  lemma UploadNamesItsHead(w: World, p: Id)
    requires WorldSound(w) && p in w.uploads && w.uploads[p].Owns() && w.uploads[p].snapshot.ref in w.db.intents
    requires w.db.intents[w.uploads[p].snapshot.ref].state.Pending?
    ensures var u, s := w.uploads[p], w.db;
            && StoresIntent(s, u.snapshot) && u.snapshot.state.Pending? && u.attemptId in s.attempts
            && var row := s.attempts[u.attemptId];
               row.state == Claimed && AttemptAllowed(row) && row.ref == u.snapshot.ref && row.key == u.snapshot.key
  {
    var u := w.uploads[p];
    hide BytesSound;
    assert UploadSound(u, w.db) && IntentLater(u.snapshot, w.db.intents[u.snapshot.ref]);
    assert AttemptSound(u.attemptId, w.db.attempts, w.db.intents);
    IntentNamesItsKey(w.db, u.snapshot.ref);
  }

  // Bytes that have been written for a pending intent can still be put on record.
  lemma WrittenIsStored(w: World, p: Id, ref: Ref) returns (e: Event)
    requires WorldSound(w) && Traced(w) && p in w.uploads && w.uploads[p].phase.Wrote?
    requires w.uploads[p].snapshot.ref == ref && ref in w.db.intents && w.db.intents[ref].state.Pending?
    ensures ref in Step(w, e).db.intents && Step(w, e).db.intents[ref].state == Stored
    ensures Step(w, e).objects == w.objects
  {
    hide WorldSound, StoresIntent, AttemptAllowed, Origin, Submit;
    var u := w.uploads[p];
    UploadNamesItsHead(w, p);
    var at := w.db.attempts[u.attemptId].startedAt;
    e := PersistUpload(p, u.snapshot.contentType, at, true, true);
    PersistGoesThrough(w.db, u.snapshot, u.phase.content, u.attemptId, at);
  }

  lemma PersistGoesThrough(s: Db, intent: Intent, content: Content, a: Id, at: Ms)
    requires StoresIntent(s, intent) && intent.state.Pending? && content.byteSize > 0
    requires a in s.attempts && s.attempts[a].state == Claimed && AttemptAllowed(s.attempts[a])
    requires s.attempts[a].ref == intent.ref && s.attempts[a].key == intent.key && s.attempts[a].startedAt == at
    ensures var result := Submit(PersistStored(intent, intent.contentType, content, a, at), s);
            result.Committed? && intent.ref in result.after.intents && result.after.intents[intent.ref].state == Stored
  {
    var u := PersistStored(intent, intent.contentType, content, a, at);
    assert u.writes == [u.writes[0]] + [u.writes[1]];
    ApplyAllAppend(FILES, [u.writes[0]], [u.writes[1]], s);
    ApplyOne(FILES, u.writes[0], s);
    ApplyOne(FILES, u.writes[1], Apply(u.writes[0], s).value);
  }

  // ---- Clearing the way ------------------------------------------------------------------

  // The object is gone; nothing else has changed but what made it go.
  ghost predicate Cleared(w: World, w': World, k: Key) {
    && WorldSound(w') && w'.objects == w.objects - {k} && w'.db.attachments == w.db.attachments
    && (forall j :: j != k ==> (Condemned(w'.wakes, w'.late, j) <==> Condemned(w.wakes, w.late, j)))
    && w'.db.intents.Keys == w.db.intents.Keys
    && (forall r :: r in w.db.intents && r != k.ref ==> w'.db.intents[r] == w.db.intents[r])
    && (forall r :: r in w'.db.assets ==> r in w.db.assets && w'.db.assets[r] == w.db.assets[r])
    && (forall r :: r in w.db.assets && w.db.assets[r].key != k ==> r in w'.db.assets)
  }

  ghost predicate SameButFor(wakes: map<Id, Wake>, late: multiset<Key>, wakes': map<Id, Wake>, late': multiset<Key>, k: Key) {
    forall j :: j != k ==> (Condemned(wakes', late', j) <==> Condemned(wakes, late, j))
  }

  // A wake that was not there, or that was deleting only this key, deletes nothing now.
  lemma QuietWake(wakes: map<Id, Wake>, late: multiset<Key>, id: Id, wake: Wake, k: Key)
    requires wake.deleting.None?
    requires id in wakes ==> wakes[id].deleting.None? || wakes[id].deleting == Some(k)
    ensures SameButFor(wakes, late, wakes[id := wake], late, k)
  {
    forall j | j != k && Condemned(wakes, late, j) ensures Condemned(wakes[id := wake], late, j) {
      if j !in late {
        var i :| i in wakes && wakes[i].deleting == Some(j);
        assert wakes[id := wake][i].deleting == Some(j);
      }
    }
    forall j | j != k && Condemned(wakes[id := wake], late, j) ensures Condemned(wakes, late, j) {
      if j !in late {
        var i :| i in wakes[id := wake] && wakes[id := wake][i].deleting == Some(j);
        assert wakes[i].deleting == Some(j);
      }
    }
  }

  lemma CondemnedIsCleared(w: World, k: Key) returns (more: seq<Event>)
    requires WorldSound(w) && Condemned(w.wakes, w.late, k)
    ensures Cleared(w, Run(w, more), k)
  {
    hide Step, Run, WorldSound;
    if k in w.late {
      more := [LateDelete(k)];
      LateSteps(w, k);
      RunOfOne(w, LateDelete(k));
    } else {
      var id :| id in w.wakes && w.wakes[id].deleting == Some(k);
      more := [DeleteObject(id)];
      DeleteSteps(w, id, k);
      RunOfOne(w, DeleteObject(id));
      QuietWake(w.wakes, w.late, id, w.wakes[id].(deleting := None), k);
    }
    RunKeeps(w, more);
  }

  lemma LateSteps(w: World, k: Key)
    requires k in w.late
    ensures var w' := Step(w, LateDelete(k));
            && w' == w.(objects := w.objects - {k}, late := w.late - multiset{k})
            && SameButFor(w.wakes, w.late, w'.wakes, w'.late, k)
  {
  }

  lemma AssetNamesItself(s: Db, r: Ref)
    requires TablesSound(s) && r in s.assets
    ensures s.assets[r].ref == r
  {
    assert AssetSound(r, s.assets, s.intents);
  }

  lemma OrphanIsCleared(w: World, k: Key, r: Ref) returns (more: seq<Event>)
    requires WorldSound(w) && r in w.db.assets && w.db.assets[r].key == k && !Pinned(w.db, r)
    ensures Cleared(w, Run(w, more), k)
  {
    hide Step, Run, TablesSound, UploadsSound, BytesSound, Attached, Dead, Condemned, Awaited;
    AssetNamesItself(w.db, r);
    var asset := w.db.assets[r];
    var id := LongerThanAll(w.wakes.Keys);
    StartSteps(w, id);
    var w1 := w.(wakes := w.wakes[id := Wake(Sweeping, None)]);
    DropSteps(w1, id, asset);
    var w2 := w1.(db := w.db.(assets := w.db.assets - {r}), wakes := w1.wakes[id := Wake(Sweeping, Some(k))]);
    DeleteSteps(w2, id, k);
    var w3 := w2.(objects := w.objects - {k}, wakes := w2.wakes[id := Wake(Sweeping, None)]);
    more := [StartWake(id)] + [Drop(id, asset, true), DeleteObject(id)];
    RunOfOne(w, StartWake(id));
    RunOfTwo(w1, Drop(id, asset, true), DeleteObject(id));
    RunAppends(w, [StartWake(id)], [Drop(id, asset, true), DeleteObject(id)]);
    assert w3.wakes == w.wakes[id := Wake(Sweeping, None)];
    QuietWake(w.wakes, w.late, id, Wake(Sweeping, None), k);
    RunKeeps(w, more);
  }

  lemma PagedIsCleared(w: World, k: Key) returns (more: seq<Event>)
    requires WorldSound(w) && k in w.objects && |Preceding(w.objects.Keys, k)| < MAXIMUM_R2_KEYS_PER_WAKE
    requires forall j :: j in Preceding(w.objects.Keys, k) ==> Permanent(w, j)
    requires k.ref in w.db.intents && w.db.intents[k.ref].state != Confirmed
    ensures Cleared(w, Run(w, more), k)
  {
    hide Step, Run, WorldSound, Permanent, Condemned, Awaited;
    var first, id, stage := PagedIsCondemned(w, k);
    var w1 := Run(w, first);
    DeleteSteps(w1, id, k);
    RunOfOne(w1, DeleteObject(id));
    RunAppends(w, first, [DeleteObject(id)]);
    more := first + [DeleteObject(id)];
    assert w1.wakes[id := Wake(stage, None)] == w.wakes[id := Wake(stage, None)];
    QuietWake(w.wakes, w.late, id, Wake(stage, None), k);
    RunKeeps(w, more);
  }

  // The first object that is not permanent can be removed if it is on the page.
  lemma ClearOne(w: World, k: Key) returns (more: seq<Event>)
    requires WorldSound(w) && k in w.objects && !Permanent(w, k)
    requires |Preceding(w.objects.Keys, k)| < MAXIMUM_R2_KEYS_PER_WAKE
    requires forall j :: j in Preceding(w.objects.Keys, k) ==> Permanent(w, j)
    ensures Cleared(w, Run(w, more), k)
  {
    hide TablesSound, UploadsSound, BytesSound, Run, Cleared, Pinned, Preceding, Condemned;
    if Condemned(w.wakes, w.late, k) {
      more := CondemnedIsCleared(w, k);
    } else if w.db.intents[k.ref].state == Confirmed {
      var r :| r in w.db.assets && w.db.assets[r].key == k && !Pinned(w.db, r);
      more := OrphanIsCleared(w, k, r);
    } else {
      more := PagedIsCleared(w, k);
    }
  }

  lemma ClearedKeepsPermanence(w: World, w': World, k: Key, j: Key)
    requires Cleared(w, w', k) && j != k
    ensures Permanent(w', j) <==> Permanent(w, j)
  {
    hide WorldSound, Attached, Condemned;
    assert j.ref != k.ref;
    if Permanent(w', j) {
      forall r | r in w.db.assets && w.db.assets[r].key == j ensures Pinned(w.db, r) {
        assert Pinned(w'.db, r);
      }
    }
  }

  // A removed object was not permanent, so as many permanent ones as before precede the key.
  lemma ClearedKeepsTheWay(w: World, w': World, k: Key, key: Key)
    requires Cleared(w, w', k) && k in w.objects && !Permanent(w, k) && Before(k, key)
    ensures PermanentBefore(w', key) == PermanentBefore(w, key)
    ensures |Preceding(w'.objects.Keys, key)| < |Preceding(w.objects.Keys, key)|
  {
    hide Permanent, WorldSound, Before;
    forall j | j != k ensures Permanent(w', j) <==> Permanent(w, j) { ClearedKeepsPermanence(w, w', k, j); }
    assert Preceding(w'.objects.Keys, key) == Preceding(w.objects.Keys, key) - {k};
  }

  lemma ClearedKeepsTheRest(w: World, w': World, k: Key, key: Key)
    requires Cleared(w, w', k) && Before(k, key) && key in w.objects && key.ref in w.db.intents
    ensures WorldSound(w') && key in w'.objects && key.ref in w'.db.intents
    ensures w'.db.intents[key.ref] == w.db.intents[key.ref]
  {
    hide Before;
    BeforeIsStrictAndTotal(key, key, key);
    assert k.ref != key.ref;
  }

  // With less than a page of permanent objects before it the key comes to be condemned: the others
  // before it are removed one by one, the first of them being on the page each time.
  lemma {:induction false} Advance(w: World, key: Key) returns (more: seq<Event>)
    requires WorldSound(w) && key in w.objects && key.ref in w.db.intents && w.db.intents[key.ref].state != Confirmed
    requires |PermanentBefore(w, key)| < MAXIMUM_R2_KEYS_PER_WAKE
    ensures var w' := Run(w, more); key in w'.objects && Condemned(w'.wakes, w'.late, key)
    decreases |Preceding(w.objects.Keys, key)|
  {
    hide WorldSound, Run, Permanent, Cleared, Before;
    if forall j :: j in Preceding(w.objects.Keys, key) ==> Permanent(w, j) {
      assert Preceding(w.objects.Keys, key) == PermanentBefore(w, key);
      var id, stage;
      more, id, stage := PagedIsCondemned(w, key);
      assert Run(w, more).wakes[id].deleting == Some(key);
    } else {
      var k := FirstObstacle(w, key);
      var first := ClearOne(w, k);
      var w' := Run(w, first);
      ClearedKeepsTheWay(w, w', k, key);
      ClearedKeepsTheRest(w, w', k, key);
      var rest := Advance(w', key);
      RunAppends(w, first, rest);
      more := first + rest;
    }
  }

  lemma FirstObstacle(w: World, key: Key) returns (k: Key)
    requires |PermanentBefore(w, key)| < MAXIMUM_R2_KEYS_PER_WAKE
    requires !forall j :: j in Preceding(w.objects.Keys, key) ==> Permanent(w, j)
    ensures k in w.objects && Before(k, key) && !Permanent(w, k)
    ensures |Preceding(w.objects.Keys, k)| < MAXIMUM_R2_KEYS_PER_WAKE
    ensures forall j :: j in Preceding(w.objects.Keys, k) ==> Permanent(w, j)
  {
    hide Permanent, Before;
    var obstacles := Preceding(w.objects.Keys, key) - PermanentBefore(w, key);
    var x :| x in Preceding(w.objects.Keys, key) && !Permanent(w, x);
    assert x in obstacles;
    k := FirstOne(obstacles);
    forall j | j in Preceding(w.objects.Keys, k) ensures j in PermanentBefore(w, key) {
      BeforeIsStrictAndTotal(j, k, key);
      assert j !in obstacles;
    }
    SubsetIsSmaller(Preceding(w.objects.Keys, k), PermanentBefore(w, key));
  }

  // ---- Exactly which unowned objects come back ---------------------------------------------

  // The store carries out a deletion that a wake has called.
  predicate CarriesOut(e: Event) {
    e.DeleteObject? || e.LateDelete?
  }

  ghost predicate Removes(w: World, more: seq<Event>, e: Event, key: Key) {
    CarriesOut(e) && key in Run(w, more).objects && key !in Step(Run(w, more), e).objects
  }

  // Something can still happen after which a wake's deletion removes the object.
  ghost predicate Reclaimable(w: World, key: Key) {
    exists more, e :: Removes(w, more, e, key)
  }

  lemma RemovedWasCondemned(w: World, e: Event, key: Key)
    requires CarriesOut(e) && key in w.objects && key !in Step(w, e).objects
    ensures Condemned(w.wakes, w.late, key)
  {
  }

  lemma CondemnedIsRemoved(w: World, more: seq<Event>, key: Key)
    requires key in Run(w, more).objects && Condemned(Run(w, more).wakes, Run(w, more).late, key)
    ensures Reclaimable(w, key)
  {
    hide Run, Step;
    var v := Run(w, more);
    if key in v.late {
      LateSteps(v, key);
      assert Removes(w, more, LateDelete(key), key);
    } else {
      var id :| id in v.wakes && v.wakes[id].deleting == Some(key);
      DeleteSteps(v, id, key);
      assert Removes(w, more, DeleteObject(id), key);
    }
  }

  ghost predicate Written(w: World, ref: Ref) {
    exists p :: p in w.uploads && w.uploads[p].phase.Wrote? && w.uploads[p].snapshot.ref == ref
  }

  // What can be read off a world: a deletion of the key is under way, or its intent is not confirmed
  // and either a running wake still has it before it, or its bytes are or may still be put on record,
  // so that the expiry of the intent condemns it, or fewer than a thousand permanent objects come
  // before it.
  ghost predicate WithinReach(w: World, key: Key)
    requires key.ref in w.db.intents
  {
    || Condemned(w.wakes, w.late, key)
    || (&& w.db.intents[key.ref].state != Confirmed
        && (|| Awaited(w.wakes, key)
            || w.db.intents[key.ref].state == Stored
            || (w.db.intents[key.ref].state.Pending? && Written(w, key.ref))
            || |PermanentBefore(w, key)| < MAXIMUM_R2_KEYS_PER_WAKE))
  }

  // A stored intent's object is condemned when its expiry is answered.
  lemma StoredIsReclaimable(w: World, first: seq<Event>, key: Key)
    requires WorldSound(Run(w, first)) && key in Run(w, first).objects
    requires var s := Run(w, first).db; key.ref in s.intents && s.intents[key.ref].state == Stored
    ensures Reclaimable(w, key)
  {
    hide WorldSound, Run, Reclaimable, Abandoned;
    var v := Run(w, first);
    var rest, id := NewWakeAbandons(v, key);
    RunAppends(w, first, rest);
    assert Run(w, first + rest).wakes[id].deleting == Some(key);
    CondemnedIsRemoved(w, first + rest, key);
  }

  // A running wake has the key before it; another wake discards the intent in time.
  lemma AwaitedIsReclaimable(w: World, key: Key)
    requires WorldSound(w) && key in w.objects && Awaited(w.wakes, key) && key.ref in w.db.intents
    requires w.db.intents[key.ref].state != Confirmed && w.db.intents[key.ref].state != Stored
    ensures Reclaimable(w, key)
  {
    hide TablesSound, UploadsSound, BytesSound, Run, Reclaimable, Referenced, Abandoned;
    var id :| id in w.wakes && w.wakes[id].stage.Reconciling? && key in w.wakes[id].stage.rest;
    AbandonedIsUnreferenced(w.db, key);
    var first, other := NewWakeAbandons(w, key);
    RunKeeps(w, first);
    var rest := AwaitedIsCondemned(Run(w, first), id, w.wakes[id].stage.rest, key);
    RunAppends(w, first, rest);
    CondemnedIsRemoved(w, first + rest, key);
  }

  lemma WithinReachIsReclaimable(w: World, key: Key)
    requires WorldSound(w) && Traced(w) && key in w.objects && key.ref in w.db.intents && WithinReach(w, key)
    ensures Reclaimable(w, key)
  {
    hide WorldSound, Traced, Run, Step, PermanentBefore, Reclaimable, Awaited, Condemned;
    NoStep(w);
    if Condemned(w.wakes, w.late, key) {
      CondemnedIsRemoved(w, [], key);
    } else if w.db.intents[key.ref].state == Stored {
      StoredIsReclaimable(w, [], key);
    } else if Awaited(w.wakes, key) {
      AwaitedIsReclaimable(w, key);
    } else if |PermanentBefore(w, key)| < MAXIMUM_R2_KEYS_PER_WAKE {
      var more := Advance(w, key);
      CondemnedIsRemoved(w, more, key);
    } else {
      var p :| p in w.uploads && w.uploads[p].phase.Wrote? && w.uploads[p].snapshot.ref == key.ref;
      var e := WrittenIsStored(w, p, key.ref);
      StepKeeps(w, e);
      RunOfOne(w, e);
      StoredIsReclaimable(w, [e], key);
    }
  }

  // A pending intent's object was written by an upload that may still say so, or by an attempt that
  // is and stays uncertain.
  lemma PendingIsWrittenOrUnfinished(w: World, key: Key)
    requires WorldSound(w) && Traced(w) && key in w.objects && key.ref in w.db.intents
    requires w.db.intents[key.ref].state.Pending?
    ensures Written(w, key.ref) || Unfinished(w, key.ref)
  {
    hide BytesSound, Uncertain;
    var a :| Origin(w, a, key.ref);
    assert AttemptSound(a, w.db.attempts, w.db.intents) && IntentSound(key.ref, w.db.intents[key.ref], w.db.attempts);
    if w.db.attempts[a].state != StoredBytes && !Uncertain(w, a) {
      var p :| Writes(w, p, a);
      assert UploadSound(w.uploads[p], w.db);
    }
  }

  lemma BeyondReachIsOut(w: World, key: Key)
    requires WorldSound(w) && Traced(w) && key in w.objects && key.ref in w.db.intents
    requires !AssetHasKey(w.db.assets, key) && !WithinReach(w, key)
    ensures OutOfReach(w, key)
  {
    hide WorldSound, Traced, PermanentBefore, Written, Unfinished, Awaited, Condemned;
    if w.db.intents[key.ref].state.Pending? { PendingIsWrittenOrUnfinished(w, key); }
  }

  // In every reachable world. A deletion that the store refuses after an orphan asset's row is gone
  // strands the object for good, and so does a full page of permanent objects before it.
  lemma ReclaimableExactlyWhenWithinReach(events: seq<Event>, key: Key)
    requires key in Run(EMPTY, events).objects && !AssetHasKey(Run(EMPTY, events).db.assets, key)
    ensures var w := Run(EMPTY, events);
            key.ref in w.db.intents && (Reclaimable(w, key) <==> WithinReach(w, key))
  {
    var w := Run(EMPTY, events);
    hide Step, Run, WithinReach, OutOfReach, Traced, TablesSound, UploadsSound, BytesSound;
    RunIsTraced(events);
    if WithinReach(w, key) {
      WithinReachIsReclaimable(w, key);
    } else {
      BeyondReachIsOut(w, key);
      forall more: seq<Event>, e: Event ensures !Removes(w, more, e, key) {
        OutOfReachForever(w, key, more);
        OutIsNotCondemned(Run(w, more), key);
        if Removes(w, more, e, key) { RemovedWasCondemned(Run(w, more), e, key); }
      }
    }
  }

  lemma OutIsNotCondemned(w: World, key: Key)
    requires OutOfReach(w, key)
    ensures !Condemned(w.wakes, w.late, key)
  {
  }
}
