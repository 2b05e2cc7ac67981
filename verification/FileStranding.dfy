// Runs, from an empty workspace, that leave objects behind which no wake will ever delete.
module FileStranding {
  import opened Sets
  import opened Wrappers
  import opened AtomicBatch
  import opened FileListing
  import opened FileTransfers
  import opened FileWorld
  import opened FileSafety
  import opened FileRuns
  import opened FileTheorems
  import opened FileOrigins
  import opened FilePermanence
  import opened FileReclamation

  // ---- An upload from its registration on ------------------------------------------------

  const BYTES := Content(1, "digest")

  function NewIntent(ref: Ref): Intent {
    Intent(ref, NewStorageKey(ref), "type", "uploader", 1, IntentState.Pending, None)
  }

  function NewAttempt(ref: Ref): Attempt {
    Attempt(ref, NewStorageKey(ref), Claimed, None, None, 0, None)
  }

  lemma RegisterSteps(w: World, ref: Ref)
    requires TablesSound(w.db) && ref !in w.db.intents
    ensures Step(w, RegisterIntent(NewIntent(ref))) ==
            w.(db := w.db.(intents := w.db.intents[ref := NewIntent(ref)]))
  {
    forall r | r in w.db.intents ensures w.db.intents[r].key == Key(r) { IntentNamesItsKey(w.db, r); }
    ApplyOne(FILES, InsertIntent(NewIntent(ref)), w.db);
  }

  lemma OpenSteps(w: World, p: Id, ref: Ref, a: Id)
    requires p !in w.uploads && ref in w.db.intents
    ensures Step(w, OpenUpload(p, ref, a, 0)) ==
            w.(uploads := w.uploads[p := Upload(w.db.intents[ref], a, Ready(0))])
  {
  }

  lemma ClaimSteps(w: World, p: Id, ref: Ref, a: Id)
    requires ref in w.db.intents && w.db.intents[ref] == NewIntent(ref) && a !in w.db.attempts
    requires forall b :: b in w.db.attempts ==> w.db.attempts[b].ref != ref
    requires p in w.uploads && w.uploads[p] == Upload(NewIntent(ref), a, Ready(0))
    ensures Step(w, ClaimAttempt(p, true)) ==
            w.(db := w.db.(attempts := w.db.attempts[a := NewAttempt(ref)]),
               uploads := w.uploads[p := Upload(NewIntent(ref), a, Holding)])
  {
    assert AttemptsOf(w.db.attempts, ref) == {};
    ClaimSucceedsExactlyWhen(w.db, NewIntent(ref), a, 0);
    ClaimCommits(NewIntent(ref), a, 0, w.db, Submit(Claim(NewIntent(ref), a, 0), w.db).after);
  }

  lemma AttemptsAreKnown(s: Db, ref: Ref)
    requires TablesSound(s) && ref !in s.intents
    ensures forall b :: b in s.attempts ==> s.attempts[b].ref != ref
  {
    forall b | b in s.attempts ensures s.attempts[b].ref != ref { assert AttemptSound(b, s.attempts, s.intents); }
  }

  // A registered, opened and claimed upload of a new intent.
  lemma NewUpload(w: World, ref: Ref) returns (more: seq<Event>, p: Id, a: Id)
    requires WorldSound(w) && ref !in w.db.intents
    ensures p !in w.uploads && a !in w.db.attempts
    ensures Run(w, more) ==
            w.(db := w.db.(intents := w.db.intents[ref := NewIntent(ref)], attempts := w.db.attempts[a := NewAttempt(ref)]),
               uploads := w.uploads[p := Upload(NewIntent(ref), a, Holding)])
  {
    hide TablesSound, UploadsSound, BytesSound, Step, Run;
    p := LongerThanAll(w.uploads.Keys);
    a := LongerThanAll(w.db.attempts.Keys);
    AttemptsAreKnown(w.db, ref);
    RegisterSteps(w, ref);
    var w1 := w.(db := w.db.(intents := w.db.intents[ref := NewIntent(ref)]));
    OpenSteps(w1, p, ref, a);
    var w2 := w1.(uploads := w1.uploads[p := Upload(NewIntent(ref), a, Ready(0))]);
    ClaimSteps(w2, p, ref, a);
    more := [RegisterIntent(NewIntent(ref))] + [OpenUpload(p, ref, a, 0), ClaimAttempt(p, true)];
    RunOfOne(w, RegisterIntent(NewIntent(ref)));
    RunOfTwo(w1, OpenUpload(p, ref, a, 0), ClaimAttempt(p, true));
    RunAppends(w, [RegisterIntent(NewIntent(ref))], [OpenUpload(p, ref, a, 0), ClaimAttempt(p, true)]);
    assert w2.uploads[p := Upload(NewIntent(ref), a, Holding)] == w.uploads[p := Upload(NewIntent(ref), a, Holding)];
  }

  // ---- An object with its asset ----------------------------------------------------------

  // What an upload that was carried through has left: the object, its confirmed intent, one asset.
  ghost predicate Carried(w: World, ref: Ref, asset: Asset) {
    && Key(ref) in w.objects && ref in w.db.intents && w.db.intents[ref].state == Confirmed
    && StoresAsset(w.db, asset) && asset.key == Key(ref) && !asset.blocked
  }

  lemma WriteSteps(w: World, p: Id, snapshot: Intent, a: Id)
    requires p in w.uploads && w.uploads[p] == Upload(snapshot, a, Holding)
    ensures Step(w, WriteObject(p, BYTES)) ==
            w.(objects := w.objects[snapshot.key := BYTES], uploads := w.uploads[p := Upload(snapshot, a, Wrote(BYTES))])
  {
  }

  lemma PersistSteps(w: World, p: Id, ref: Ref, a: Id)
    requires p in w.uploads && w.uploads[p] == Upload(NewIntent(ref), a, Wrote(BYTES))
    requires ref in w.db.intents && w.db.intents[ref] == NewIntent(ref)
    requires a in w.db.attempts && w.db.attempts[a] == NewAttempt(ref)
    ensures var w' := Step(w, PersistUpload(p, "type", 0, true, true));
            && w'.db.intents == w.db.intents[ref := NewIntent(ref).(state := Stored, stored := Some(BYTES))]
            && w'.db.assets == w.db.assets && w'.db.attachments == w.db.attachments
            && w'.objects == w.objects && w'.wakes == w.wakes && w'.late == w.late
  {
    PersistGoesThrough(w.db, NewIntent(ref), BYTES, a, 0);
    PersistCommits(NewIntent(ref), "type", BYTES, a, 0, w.db,
                   Submit(PersistStored(NewIntent(ref), "type", BYTES, a, 0), w.db).after);
  }

  lemma ConfirmSteps(w: World, ref: Ref, asset: Asset)
    requires ref in w.db.intents && w.db.intents[ref] == NewIntent(ref).(state := Stored, stored := Some(BYTES))
    requires asset == Asset(asset.ref, Key(ref), BYTES, false, 0) && asset.ref.eventId == ref.eventId
    requires asset.ref !in w.db.assets && !AssetHasKey(w.db.assets, Key(ref))
    ensures Step(w, ConfirmUpload(w.db.intents[ref], asset)) ==
            w.(db := w.db.(assets := w.db.assets[asset.ref := asset],
                           intents := w.db.intents[ref := w.db.intents[ref].(state := Confirmed)]))
  {
    var u := Confirm(w.db.intents[ref], asset);
    assert u.writes == [u.writes[0]] + [u.writes[1]];
    ApplyAllAppend(FILES, [u.writes[0]], [u.writes[1]], w.db);
    ApplyOne(FILES, u.writes[0], w.db);
    ApplyOne(FILES, u.writes[1], Apply(u.writes[0], w.db).value);
  }

  lemma NoAssetYet(s: Db, ref: Ref)
    requires TablesSound(s) && ref !in s.intents
    ensures !AssetHasKey(s.assets, Key(ref))
  {
    forall r | r in s.assets ensures s.assets[r].key != Key(ref) { assert AssetSound(r, s.assets, s.intents); }
  }

  // The bytes of a new intent are written and put on record.
  lemma NewBytes(w: World, ref: Ref) returns (more: seq<Event>)
    requires WorldSound(w) && ref !in w.db.intents
    ensures var w' := Run(w, more);
            && w'.db.intents == w.db.intents[ref := NewIntent(ref).(state := Stored, stored := Some(BYTES))]
            && w'.db.assets == w.db.assets && w'.db.attachments == w.db.attachments
            && w'.objects == w.objects[Key(ref) := BYTES] && w'.wakes == w.wakes && w'.late == w.late
  {
    hide WorldSound, Step, Run;
    var first, p, a := NewUpload(w, ref);
    var w1 := Run(w, first);
    WriteSteps(w1, p, NewIntent(ref), a);
    var w2 := Step(w1, WriteObject(p, BYTES));
    PersistSteps(w2, p, ref, a);
    var rest := [WriteObject(p, BYTES), PersistUpload(p, "type", 0, true, true)];
    RunOfTwo(w1, rest[0], rest[1]);
    RunAppends(w, first, rest);
    more := first + rest;
    assert w1.db.intents[ref := NewIntent(ref).(state := Stored, stored := Some(BYTES))] ==
           w.db.intents[ref := NewIntent(ref).(state := Stored, stored := Some(BYTES))];
  }

  lemma NewAsset(w: World, ref: Ref) returns (more: seq<Event>, asset: Asset)
    requires WorldSound(w) && ref !in w.db.intents
    ensures Carried(Run(w, more), ref, asset) && asset.ref !in w.db.assets && !AssetHasKey(w.db.assets, Key(ref))
    ensures var w' := Run(w, more);
            && w'.wakes == w.wakes && w'.late == w.late && w'.db.intents.Keys == w.db.intents.Keys + {ref}
            && w'.db.attachments == w.db.attachments && w'.db.assets == w.db.assets[asset.ref := asset]
  {
    hide TablesSound, UploadsSound, BytesSound, Step, Run, AssetHasKey;
    NoAssetYet(w.db, ref);
    var first := NewBytes(w, ref);
    var w1 := Run(w, first);
    var name := LongerThanAll(set r | r in w.db.assets :: r.id);
    asset := Asset(Ref(ref.eventId, name), Key(ref), BYTES, false, 0);
    assert asset.ref !in w.db.assets;
    ConfirmSteps(w1, ref, asset);
    var confirm := ConfirmUpload(w1.db.intents[ref], asset);
    RunOfOne(w1, confirm);
    RunAppends(w, first, [confirm]);
    more := first + [confirm];
  }

  // ---- The orphan whose deletion the store refuses ---------------------------------------

  lemma DropIsRefused(w: World, id: Id, asset: Asset)
    requires Sweeps(w, id) && StoresAsset(w.db, asset) && !asset.blocked && !Attached(w.db.attachments, asset.ref)
    ensures var w' := Step(Step(w, Drop(id, asset, true)), RejectDelete(id, false));
            && w'.db == w.db.(assets := w.db.assets - {asset.ref}) && w'.objects == w.objects
            && w'.wakes == w.wakes[id := Wake(Sweeping, None)] && w'.late == w.late
  {
    DropSteps(w, id, asset);
    hide Submit;
  }

  // From an empty workspace: an upload is carried through, its unattached asset is swept, and the
  // store refuses to delete the object. It is there, nobody owns it, and no wake will ever delete it.
  lemma RefusedDeletionStrands(ref: Ref) returns (events: seq<Event>)
    ensures var w := Run(EMPTY, events);
            Key(ref) in w.objects && !AssetHasKey(w.db.assets, Key(ref)) && !Reclaimable(w, Key(ref))
  {
    hide Run, Step, Reclaimable, WorldSound;
    EveryRunIsSound([]);
    NoStep(EMPTY);
    var first, asset := NewAsset(EMPTY, ref);
    var w1 := Run(EMPTY, first);
    StartSteps(w1, "wake");
    var w2 := Step(w1, StartWake("wake"));
    DropIsRefused(w2, "wake", asset);
    var swept := [Drop("wake", asset, true), RejectDelete("wake", false)];
    RunOfOne(w1, StartWake("wake"));
    RunOfTwo(w2, swept[0], swept[1]);
    RunAppends(w1, [StartWake("wake")], swept);
    RunAppends(EMPTY, first, [StartWake("wake")] + swept);
    events := first + ([StartWake("wake")] + swept);
    var w := Run(EMPTY, events);
    assert w.db.assets == map[];
    ReclaimableExactlyWhenWithinReach(events, Key(ref));
  }

  // ---- The page that never comes so far --------------------------------------------------

  lemma AttachSteps(w: World, target: Ref, asset: Asset)
    requires StoresAsset(w.db, asset) && target !in w.db.attachments
    ensures Step(w, AttachAsset(target, asset)) ==
            w.(db := w.db.(attachments := w.db.attachments[target := asset.ref]))
  {
    ApplyOne(FILES, InsertAttachment(target, asset.ref), w.db);
  }

  lemma {:induction false} RunKeepsPermanent(w: World, more: seq<Event>, k: Key)
    requires WorldSound(w) && Permanent(w, k)
    ensures Permanent(Run(w, more), k)
    decreases |more|
  {
    hide WorldSound, Permanent, Step;
    if more != [] {
      var n := |more| - 1;
      RunKeepsPermanent(w, more[..n], k);
      RunKeeps(w, more[..n]);
      PermanentStays(Run(w, more[..n]), more[n], k);
    }
  }

  lemma UnknownIsNotCondemned(w: World, key: Key)
    requires WorldSound(w) && key.ref !in w.db.intents
    ensures !Condemned(w.wakes, w.late, key) && !Awaited(w.wakes, key) && key !in w.objects
  {
    hide TablesSound, UploadsSound, BytesSound;
    assert Condemned(w.wakes, w.late, key) ==> Dead(w.db, key);
  }

  // An upload that is carried through and attached.
  lemma NewAttached(w: World, ref: Ref) returns (more: seq<Event>)
    requires WorldSound(w) && ref !in w.db.intents
    ensures var w' := Run(w, more);
            && WorldSound(w') && Permanent(w', Key(ref))
            && w'.wakes == w.wakes && w'.late == w.late && w'.db.intents.Keys == w.db.intents.Keys + {ref}
  {
    hide TablesSound, UploadsSound, BytesSound, Step, Run, Condemned;
    UnknownIsNotCondemned(w, Key(ref));
    var first, asset := NewAsset(w, ref);
    var w1 := Run(w, first);
    var name := LongerThanAll(set r | r in w1.db.attachments :: r.id);
    var target := Ref(ref.eventId, name);
    assert target !in w1.db.attachments;
    AttachSteps(w1, target, asset);
    RunOfOne(w1, AttachAsset(target, asset));
    RunAppends(w, first, [AttachAsset(target, asset)]);
    more := first + [AttachAsset(target, asset)];
    RunKeeps(w, more);
    assert Run(w, more).db.attachments[target] == asset.ref;
    forall r | r in Run(w, more).db.assets && Run(w, more).db.assets[r].key == Key(ref) ensures r == asset.ref {}
  }

  lemma {:induction false} ManyAttached(w: World, refs: set<Ref>) returns (more: seq<Event>)
    requires WorldSound(w) && refs !! w.db.intents.Keys
    ensures var w' := Run(w, more);
            && WorldSound(w') && (forall r :: r in refs ==> Permanent(w', Key(r)))
            && w'.wakes == w.wakes && w'.late == w.late && w'.db.intents.Keys == w.db.intents.Keys + refs
    decreases |refs|
  {
    hide WorldSound, Permanent, Step, Run;
    if refs == {} {
      more := [];
      NoStep(w);
    } else {
      var x :| x in refs;
      var first := NewAttached(w, x);
      var w1 := Run(w, first);
      var rest := ManyAttached(w1, refs - {x});
      RunAppends(w, first, rest);
      more := first + rest;
      RunKeepsPermanent(w1, rest, Key(x));
      OneByOne(w.db.intents.Keys, refs, x);
    }
  }

  lemma OneByOne(known: set<Ref>, refs: set<Ref>, x: Ref)
    requires x in refs
    ensures (known + {x}) + (refs - {x}) == known + refs
  {
  }

  // An upload whose stream breaks after the object has landed.
  lemma NewBroken(w: World, ref: Ref) returns (more: seq<Event>)
    requires WorldSound(w) && ref !in w.db.intents
    ensures var w' := Run(w, more);
            && w'.objects == w.objects[Key(ref) := BYTES] && w'.wakes == w.wakes && w'.late == w.late
            && w'.db.assets == w.db.assets && w'.db.intents == w.db.intents[ref := NewIntent(ref)]
            && !Written(w', ref)
  {
    hide TablesSound, BytesSound, Step, Run;
    var first, p, a := NewUpload(w, ref);
    var w1 := Run(w, first);
    FailSteps(w1, p, NewIntent(ref), a);
    RunOfOne(w1, WriteFails(p, Landed(BYTES)));
    RunAppends(w, first, [WriteFails(p, Landed(BYTES))]);
    more := first + [WriteFails(p, Landed(BYTES))];
    forall q | q in w.uploads ensures w.uploads[q].snapshot.ref != ref { assert UploadSound(w.uploads[q], w.db); }
  }

  lemma FailSteps(w: World, p: Id, snapshot: Intent, a: Id)
    requires p in w.uploads && w.uploads[p] == Upload(snapshot, a, Holding)
    ensures Step(w, WriteFails(p, Landed(BYTES))) ==
            w.(objects := w.objects[snapshot.key := BYTES], uploads := w.uploads[p := Upload(snapshot, a, Failing)])
  {
  }

  // From an empty workspace: a thousand uploads are attached, and the stream of one whose key comes
  // after theirs breaks when its object has landed. The object is there, and no wake will ever
  // delete it, although its intent may expire as soon as it likes.
  lemma FullPageHides(refs: set<Ref>, ref: Ref) returns (events: seq<Event>)
    requires |refs| == MAXIMUM_R2_KEYS_PER_WAKE && forall r :: r in refs ==> Before(Key(r), Key(ref))
    ensures var w := Run(EMPTY, events);
            && Key(ref) in w.objects && !AssetHasKey(w.db.assets, Key(ref)) && !Reclaimable(w, Key(ref))
            && ref in w.db.intents && w.db.intents[ref].state.Pending?
  {
    hide Run, Step, Reclaimable, Permanent, TablesSound, UploadsSound, BytesSound, Before;
    EveryRunIsSound([]);
    NoStep(EMPTY);
    BeforeIsStrictAndTotal(Key(ref), Key(ref), Key(ref));
    var first := ManyAttached(EMPTY, refs);
    var w1 := Run(EMPTY, first);
    var last := NewBroken(w1, ref);
    RunAppends(EMPTY, first, last);
    events := first + last;
    var w := Run(EMPTY, events);
    NoAssetYet(w1.db, ref);
    UnknownIsNotCondemned(w1, Key(ref));
    forall r | r in refs ensures Key(r) in PermanentBefore(w, Key(ref)) {
      RunKeepsPermanent(w1, last, Key(r));
      PermanentIsStored(w, Key(r));
    }
    AsManyKeys(refs, PermanentBefore(w, Key(ref)));
    ReclaimableExactlyWhenWithinReach(events, Key(ref));
  }

  lemma {:induction false} AsManyKeys(refs: set<Ref>, keys: set<Key>)
    requires forall r :: r in refs ==> Key(r) in keys
    ensures |keys| >= |refs|
    decreases |refs|
  {
    if refs != {} {
      var x :| x in refs;
      AsManyKeys(refs - {x}, keys - {Key(x)});
    }
  }

  function Numbered(n: nat): Ref
    requires n <= MAXIMUM_R2_KEYS_PER_WAKE
  {
    Ref(seq(36, _ => 'e'), [n as char] + seq(35, _ => '0'))
  }

  lemma {:induction false} NumberedAscend(n: nat) returns (refs: set<Ref>)
    requires n <= MAXIMUM_R2_KEYS_PER_WAKE
    ensures |refs| == n && forall r :: r in refs <==> exists k :: 0 <= k < n && r == Numbered(k)
    ensures forall r :: r in refs ==> Before(Key(r), Key(Numbered(n)))
  {
    refs := {};
    if n > 0 {
      var rest := NumberedAscend(n - 1);
      refs := rest + {Numbered(n - 1)};
      forall k | 0 <= k < n ensures Before(Key(Numbered(k)), Key(Numbered(n))) && Numbered(k) != Numbered(n) {
        assert Numbered(k).id[0] < Numbered(n).id[0];
      }
      assert forall k | 0 <= k < n - 1 :: Numbered(k).id[0] < Numbered(n - 1).id[0];
      assert Numbered(n - 1) !in rest;
    }
  }

  // So there is a run that hides an object behind a full page for good.
  lemma SomePageHides() returns (ref: Ref, events: seq<Event>)
    ensures var w := Run(EMPTY, events);
            Key(ref) in w.objects && !AssetHasKey(w.db.assets, Key(ref)) && !Reclaimable(w, Key(ref))
  {
    hide Run, Reclaimable, Before;
    var refs := NumberedAscend(MAXIMUM_R2_KEYS_PER_WAKE);
    ref := Numbered(MAXIMUM_R2_KEYS_PER_WAKE);
    events := FullPageHides(refs, ref);
  }
}
