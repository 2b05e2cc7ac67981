// Files safety over every run: the attempt protocol, the bytes behind every stored intent and
// retained asset, and which deletions the object store may see.
module FileSafety {
  import opened Wrappers
  import opened AtomicBatch
  import opened FileTransfers
  import opened FileWorld

  // ---- Batches on the tables -------------------------------------------------------------

  // What a committed unit of work did, one lemma per kind of unit.
  lemma ClaimCommits(intent: Intent, a: Id, at: Ms, s: Db, s': Db)
    requires Submit(Claim(intent, a, at), s) == Committed(s')
    ensures StoresIntent(s, intent) && intent.state.Pending? && a !in s.attempts
    ensures |AttemptsOf(s.attempts, intent.ref)| < MAXIMUM_UPLOAD_ATTEMPTS_PER_INTENT
    ensures !HasEffective(s.attempts, intent.ref) && at >= 0
    ensures s' == s.(attempts := s.attempts[a := Attempt(intent.ref, intent.key, Claimed, None, None, at, None)])
  {
    var u := Claim(intent, a, at);
    ApplyOne(FILES, u.writes[0], s);
    assert Holds(u.guards[0], s) && Holds(u.guards[1], s);
  }

  lemma PersistCommits(intent: Intent, contentType: string, content: Content, a: Id, at: Ms, s: Db, s': Db)
    requires Submit(PersistStored(intent, contentType, content, a, at), s) == Committed(s')
    ensures StoresIntent(s, intent) && contentType == intent.contentType && content.byteSize > 0
    ensures a in s.attempts && s.attempts[a].state == Claimed
    ensures s.attempts[a].ref == intent.ref && s.attempts[a].key == intent.key && s.attempts[a].startedAt <= at
    ensures s' == s.(intents := s.intents[intent.ref := intent.(state := Stored, stored := Some(content))],
                     attempts := s.attempts[a := s.attempts[a].(state := StoredBytes, outcome := None,
                                                                stored := Some(content), finishedAt := Some(at))])
  {
    var u := PersistStored(intent, contentType, content, a, at);
    assert u.writes == [u.writes[0]] + [u.writes[1]];
    ApplyAllAppend(FILES, [u.writes[0]], [u.writes[1]], s);
    ApplyOne(FILES, u.writes[0], s);
    assert Holds(u.guards[0], s) && Holds(u.guards[1], s);
    ApplyOne(FILES, u.writes[1], Apply(u.writes[0], s).value);
  }

  lemma DiscardCommits(u: Unit, intent: Intent, s: Db, s': Db)
    requires u == DiscardExpired(intent) || u == ExpireIntent(intent)
    requires Submit(u, s) == Committed(s')
    ensures StoresIntent(s, intent) && s' == s.(intents := s.intents[intent.ref := intent.(state := Discarded)])
    ensures u == ExpireIntent(intent) ==> intent.state.Pending? || intent.state == Stored
  {
    ApplyOne(FILES, u.writes[0], s);
    assert Holds(u.guards[0], s);
  }

  lemma FinishCommits(a: Id, state: AttemptState, code: string, at: Ms, s: Db, s': Db)
    requires state == SafeRefusal || state == AmbiguousFailure
    requires Submit(FinishAttempt(a, state, code, at), s) == Committed(s')
    ensures a in s.attempts && s.attempts[a].state == Claimed && s.attempts[a].startedAt <= at
    ensures s' == s.(attempts := s.attempts[a := s.attempts[a].(state := state, outcome := Some(code),
                                                                stored := None, finishedAt := Some(at))])
  {
    var u := FinishAttempt(a, state, code, at);
    ApplyOne(FILES, u.writes[0], s);
    assert Holds(u.guards[0], s);
  }

  lemma ConfirmCommits(intent: Intent, asset: Asset, s: Db, s': Db)
    requires Submit(Confirm(intent, asset), s) == Committed(s')
    ensures StoresIntent(s, intent) && asset.ref !in s.assets && !AssetKeyTaken(s.assets, asset)
    ensures s' == s.(assets := s.assets[asset.ref := asset],
                     intents := s.intents[intent.ref := intent.(state := Confirmed)])
  {
    var u := Confirm(intent, asset);
    assert u.writes == [u.writes[0]] + [u.writes[1]];
    ApplyAllAppend(FILES, [u.writes[0]], [u.writes[1]], s);
    ApplyOne(FILES, u.writes[0], s);
    assert Holds(u.guards[0], s) && Holds(u.guards[1], s);
    ApplyOne(FILES, u.writes[1], Apply(u.writes[0], s).value);
  }

  lemma RegistrationCommits(intent: Intent, s: Db, s': Db)
    requires Submit(Registration(intent), s) == Committed(s')
    ensures intent.ref !in s.intents && IntentAllowed(intent) && s' == s.(intents := s.intents[intent.ref := intent])
  {
    ApplyOne(FILES, InsertIntent(intent), s);
    assert Holds(Registration(intent).guards[0], s);
  }

  lemma AttachCommits(ref: Ref, asset: Asset, s: Db, s': Db)
    requires Submit(Attach(ref, asset), s) == Committed(s')
    ensures s' == s.(attachments := s.attachments[ref := asset.ref])
  {
    ApplyOne(FILES, Attach(ref, asset).writes[0], s);
  }

  lemma DropCommits(asset: Asset, s: Db, s': Db)
    requires Submit(DropOrphan(asset), s) == Committed(s')
    ensures StoresAsset(s, asset) && !asset.blocked && !Attached(s.attachments, asset.ref)
    ensures s' == s.(assets := s.assets - {asset.ref})
  {
    ApplyOne(FILES, DropOrphan(asset).writes[0], s);
    assert Holds(DropOrphan(asset).guards[0], s);
  }

  // ---- The tables stay sound and only move forward ---------------------------------------

  lemma AttemptsAfterWrite(attempts: map<Id, Attempt>, a: Id, row: Attempt, r: Ref)
    requires a in attempts ==> attempts[a].ref == row.ref && attempts[a].state == Claimed
    ensures AttemptsOf(attempts[a := row], r) == AttemptsOf(attempts, r) + (if row.ref == r then {a} else {})
    ensures HasStored(attempts, r) ==> HasStored(attempts[a := row], r)
    ensures row.ref == r && row.state == StoredBytes ==> HasStored(attempts[a := row], r)
  {
    var after := attempts[a := row];
    if HasStored(attempts, r) {
      var b :| b in attempts && attempts[b].ref == r && attempts[b].state == StoredBytes;
      assert after[b] == attempts[b];
    }
    assert after[a] == row;
  }

  lemma ClaimKeepsIntents(intents: map<Ref, Intent>, attempts: map<Id, Attempt>, a: Id, row: Attempt)
    requires IntentsSound(intents, attempts) && a !in attempts
    requires |AttemptsOf(attempts, row.ref)| < MAXIMUM_UPLOAD_ATTEMPTS_PER_INTENT
    ensures IntentsSound(intents, attempts[a := row])
  {
    forall r | r in intents ensures IntentSound(r, intents[r], attempts[a := row]) {
      assert IntentSound(r, intents[r], attempts);
      AttemptsAfterWrite(attempts, a, row, r);
    }
  }

  lemma ClaimKeepsAttempts(intents: map<Ref, Intent>, attempts: map<Id, Attempt>, a: Id, row: Attempt)
    requires AttemptsSound(attempts, intents) && a !in attempts && !HasEffective(attempts, row.ref)
    requires row.ref in intents && row.key == NewStorageKey(row.ref) && AttemptAllowed(row) && row.state == Claimed
    ensures AttemptsSound(attempts[a := row], intents)
  {
    var after := attempts[a := row];
    forall b | b in after ensures AttemptSound(b, after, intents) {
      if b != a { assert AttemptSound(b, attempts, intents); }
    }
  }

  lemma ClaimIsSound(intent: Intent, a: Id, at: Ms, s: Db)
    requires TablesSound(s) && StoresIntent(s, intent) && a !in s.attempts && at >= 0
    requires |AttemptsOf(s.attempts, intent.ref)| < MAXIMUM_UPLOAD_ATTEMPTS_PER_INTENT
    requires !HasEffective(s.attempts, intent.ref)
    ensures TablesSound(s.(attempts := s.attempts[a := Attempt(intent.ref, intent.key, Claimed, None, None, at, None)]))
  {
    var row := Attempt(intent.ref, intent.key, Claimed, None, None, at, None);
    assert IntentSound(intent.ref, intent, s.attempts);
    ClaimKeepsIntents(s.intents, s.attempts, a, row);
    ClaimKeepsAttempts(s.intents, s.attempts, a, row);
  }

  // An attempt leaves `claimed`; if it stored bytes, its intent changes along with it.
  lemma ResolutionKeepsAttempts(intents: map<Ref, Intent>, attempts: map<Id, Attempt>, a: Id, row: Attempt,
                                after: map<Ref, Intent>)
    requires AttemptsSound(attempts, intents) && a in attempts && attempts[a].state == Claimed
    requires row.ref == attempts[a].ref && row.key == attempts[a].key && AttemptAllowed(row)
    requires after.Keys == intents.Keys && (forall r :: r in intents && r != row.ref ==> after[r] == intents[r])
    requires if row.state == StoredBytes then row.ref in after && after[row.ref].stored == row.stored else after == intents
    ensures AttemptsSound(attempts[a := row], after)
  {
    forall b | b in attempts ensures AttemptSound(b, attempts[a := row], after) {
      assert AttemptSound(b, attempts, intents) && AttemptSound(a, attempts, intents);
    }
  }

  lemma RefusalIsSound(s: Db, a: Id, row: Attempt)
    requires TablesSound(s) && a in s.attempts && s.attempts[a].state == Claimed && AttemptAllowed(row)
    requires row.state == SafeRefusal || row.state == AmbiguousFailure
    requires row.ref == s.attempts[a].ref && row.key == s.attempts[a].key
    ensures TablesSound(s.(attempts := s.attempts[a := row]))
  {
    ResolutionKeepsAttempts(s.intents, s.attempts, a, row, s.intents);
    forall r | r in s.intents ensures IntentSound(r, s.intents[r], s.attempts[a := row]) {
      assert IntentSound(r, s.intents[r], s.attempts);
      AttemptsAfterWrite(s.attempts, a, row, r);
      assert AttemptsOf(s.attempts[a := row], r) == AttemptsOf(s.attempts, r);
    }
  }

  lemma AssetsKept(assets: map<Ref, Asset>, intents: map<Ref, Intent>, after: map<Ref, Intent>)
    requires AssetsSound(assets, intents)
    requires forall r :: r in intents && intents[r].state == Confirmed ==> r in after && after[r] == intents[r]
    ensures AssetsSound(assets, after)
  {
    forall r | r in assets ensures AssetSound(r, assets, after) {
      assert AssetSound(r, assets, intents);
    }
  }

  lemma StoredIsSound(s: Db, a: Id, row: Attempt, before: Intent, next: Intent)
    requires TablesSound(s) && a in s.attempts && s.attempts[a].state == Claimed && AttemptAllowed(row)
    requires row.state == StoredBytes && row.ref == s.attempts[a].ref && row.key == s.attempts[a].key
    requires StoresIntent(s, before) && before.state.Pending? && row.ref == before.ref
    requires next == before.(state := Stored, stored := row.stored) && IntentAllowed(next)
    ensures TablesSound(s.(attempts := s.attempts[a := row], intents := s.intents[before.ref := next]))
  {
    var after := s.intents[before.ref := next];
    ResolutionKeepsAttempts(s.intents, s.attempts, a, row, after);
    AssetsKept(s.assets, s.intents, after);
    forall r | r in after ensures IntentSound(r, after[r], s.attempts[a := row]) {
      assert IntentSound(r, s.intents[r], s.attempts);
      AttemptsAfterWrite(s.attempts, a, row, r);
      assert AttemptsOf(s.attempts[a := row], r) == AttemptsOf(s.attempts, r);
    }
  }

  // An intent that is not confirmed moves on without losing its stored bytes.
  lemma TransitionIsSound(s: Db, before: Intent, next: Intent)
    requires TablesSound(s) && StoresIntent(s, before) && before.state != Confirmed
    requires next.ref == before.ref && next.key == before.key && next.stored == before.stored && IntentAllowed(next)
    ensures TablesSound(s.(intents := s.intents[before.ref := next]))
  {
    var after := s.intents[before.ref := next];
    AssetsKept(s.assets, s.intents, after);
    assert IntentsSound(after, s.attempts) by {
      forall r | r in after ensures IntentSound(r, after[r], s.attempts) {
        assert IntentSound(r, s.intents[r], s.attempts);
      }
    }
    forall a | a in s.attempts ensures AttemptSound(a, s.attempts, after) {
      assert AttemptSound(a, s.attempts, s.intents);
    }
  }

  lemma RegistrationIsSound(s: Db, intent: Intent)
    requires TablesSound(s) && intent.ref !in s.intents && IntentAllowed(intent) && intent.state.Pending?
    requires intent.key == NewStorageKey(intent.ref)
    ensures TablesSound(s.(intents := s.intents[intent.ref := intent]))
  {
    hide AssetsSound, OneEffective, AttemptAllowed;
    var after := s.intents[intent.ref := intent];
    AssetsKept(s.assets, s.intents, after);
    forall a | a in s.attempts ensures AttemptSound(a, s.attempts, after) && s.attempts[a].ref != intent.ref {
      assert AttemptSound(a, s.attempts, s.intents);
    }
    assert AttemptsOf(s.attempts, intent.ref) == {};
    forall r | r in after ensures IntentSound(r, after[r], s.attempts) {
      if r != intent.ref { assert IntentSound(r, s.intents[r], s.attempts); }
    }
  }

  lemma ConfirmKeepsAssets(s: Db, intent: Intent, asset: Asset)
    requires AssetsSound(s.assets, s.intents) && StoresIntent(s, intent) && Mints(intent, asset)
    requires intent.key == NewStorageKey(intent.ref)
    requires asset.ref !in s.assets && !AssetKeyTaken(s.assets, asset)
    ensures AssetsSound(s.assets[asset.ref := asset], s.intents[intent.ref := intent.(state := Confirmed)])
  {
    var after, assets := s.intents[intent.ref := intent.(state := Confirmed)], s.assets[asset.ref := asset];
    forall r | r in s.assets ensures s.assets[r].key != asset.key && AssetSound(r, s.assets, after) {
      assert AssetSound(r, s.assets, s.intents);
    }
    forall r | r in assets ensures AssetSound(r, assets, after) {
      if r != asset.ref { assert AssetSound(r, s.assets, after); }
    }
  }

  lemma ConfirmIsSound(s: Db, intent: Intent, asset: Asset)
    requires TablesSound(s) && StoresIntent(s, intent) && Mints(intent, asset)
    requires asset.ref !in s.assets && !AssetKeyTaken(s.assets, asset)
    ensures TablesSound(s.(assets := s.assets[asset.ref := asset],
                           intents := s.intents[intent.ref := intent.(state := Confirmed)]))
  {
    assert IntentSound(intent.ref, intent, s.attempts);
    TransitionIsSound(s, intent, intent.(state := Confirmed));
    ConfirmKeepsAssets(s, intent, asset);
  }

  lemma DropIsSound(s: Db, asset: Asset)
    requires TablesSound(s)
    ensures TablesSound(s.(assets := s.assets - {asset.ref}))
  {
    var assets := s.assets - {asset.ref};
    forall r | r in assets ensures AssetSound(r, assets, s.intents) {
      assert AssetSound(r, s.assets, s.intents);
    }
  }

  // ---- The invariant of the whole world --------------------------------------------------

  ghost predicate UploadSound(u: Upload, s: Db) {
    && u.snapshot.ref in s.intents && IntentLater(u.snapshot, s.intents[u.snapshot.ref])
    && u.snapshot.key == NewStorageKey(u.snapshot.ref)
    && (u.Owns() ==>
          && u.snapshot.state.Pending? && u.attemptId in s.attempts && s.attempts[u.attemptId].state == Claimed
          && s.attempts[u.attemptId].ref == u.snapshot.ref)
    && (u.Tracks() ==> u.attemptId in s.attempts)
  }

  ghost predicate OwnersDistinct(uploads: map<Id, Upload>) {
    forall p, q | p in uploads && q in uploads && uploads[p].attemptId == uploads[q].attemptId ::
      uploads[p].Tracks() && uploads[q].Tracks() ==> p == q
  }

  ghost predicate UploadsSound(uploads: map<Id, Upload>, s: Db) {
    OwnersDistinct(uploads) && forall p :: p in uploads ==> UploadSound(uploads[p], s)
  }

  // The store holds exactly these bytes under the key.
  predicate Backed(objects: map<Key, Content>, key: Key, content: Content) {
    key in objects && objects[key] == content
  }

  // Every stored intent and every retained asset is backed, and so is every upload about to say so.
  ghost predicate BytesSound(s: Db, objects: map<Key, Content>, uploads: map<Id, Upload>) {
    && (forall r :: r in s.intents && s.intents[r].state == Stored && s.intents[r].stored.Some? ==>
          Backed(objects, NewStorageKey(r), s.intents[r].stored.value))
    && (forall r :: r in s.assets ==> Backed(objects, s.assets[r].key, s.assets[r].content))
    && (forall p :: p in uploads && uploads[p].phase.Wrote? && uploads[p].snapshot.ref in s.intents
                    && s.intents[uploads[p].snapshot.ref].state.Pending? ==>
          Backed(objects, uploads[p].snapshot.key, uploads[p].phase.content))
  }

  // Nothing refers to the key and nothing ever will.
  ghost predicate Dead(s: Db, key: Key) {
    && key.ref in s.intents
    && (|| s.intents[key.ref].state == Discarded
        || (s.intents[key.ref].state == Confirmed && !AssetHasKey(s.assets, key)))
  }

  ghost predicate WorldSound(w: World) {
    && TablesSound(w.db) && UploadsSound(w.uploads, w.db) && BytesSound(w.db, w.objects, w.uploads)
    && (forall k :: Condemned(w.wakes, w.late, k) ==> Dead(w.db, k))
    && (forall k :: k in w.objects || Awaited(w.wakes, k) ==> k.ref in w.db.intents)
  }

  // ---- Each commit moves the tables forward ----------------------------------------------

  lemma IntentWriteIsLater(s: Db, before: Intent, next: Intent)
    requires StoresIntent(s, before) && IntentLater(before, next)
    ensures TablesLater(s, s.(intents := s.intents[before.ref := next]))
  {
  }

  lemma RegistrationIsLater(s: Db, intent: Intent)
    requires intent.ref !in s.intents
    ensures TablesLater(s, s.(intents := s.intents[intent.ref := intent]))
  {
  }

  lemma AttemptWriteIsLater(s: Db, a: Id, row: Attempt)
    requires a in s.attempts ==> AttemptLater(s.attempts[a], row)
    ensures TablesLater(s, s.(attempts := s.attempts[a := row]))
  {
  }

  lemma StoredIsLater(s: Db, a: Id, row: Attempt, before: Intent, next: Intent)
    requires StoresIntent(s, before) && IntentLater(before, next) && a in s.attempts && AttemptLater(s.attempts[a], row)
    ensures TablesLater(s, s.(intents := s.intents[before.ref := next], attempts := s.attempts[a := row]))
  {
  }

  lemma ConfirmIsLater(s: Db, intent: Intent, asset: Asset)
    requires StoresIntent(s, intent) && intent.state == Stored && asset.key == intent.key
    requires forall r :: r in s.intents ==> s.intents[r].key == NewStorageKey(r)
    ensures TablesLater(s, s.(assets := s.assets[asset.ref := asset],
                              intents := s.intents[intent.ref := intent.(state := Confirmed)]))
  {
    forall k: Key | !AssetHasKey(s.assets, k) && k != asset.key ensures !AssetHasKey(s.assets[asset.ref := asset], k) {}
  }

  lemma DropIsLater(s: Db, asset: Asset)
    ensures TablesLater(s, s.(assets := s.assets - {asset.ref}))
  {
    forall k: Key | !AssetHasKey(s.assets, k) ensures !AssetHasKey(s.assets - {asset.ref}, k) {}
  }

  lemma DeadStays(r: Db, s: Db, key: Key)
    requires IntentsSound(r.intents, r.attempts) && TablesLater(r, s) && Dead(r, key)
    ensures Dead(s, key)
  {
    assert IntentSound(key.ref, r.intents[key.ref], r.attempts);
    assert IntentLater(r.intents[key.ref], s.intents[key.ref]);
  }

  lemma UploadStays(u: Upload, r: Db, s: Db)
    requires UploadSound(u, r) && TablesLater(r, s)
    requires u.Owns() ==> u.attemptId in s.attempts && s.attempts[u.attemptId].state == Claimed
    ensures UploadSound(u, s)
  {
    assert IntentLater(r.intents[u.snapshot.ref], s.intents[u.snapshot.ref]);
  }

  // The tables moved without touching a claimed attempt that somebody owns, except `resolved`.
  ghost predicate LeavesClaims(r: Db, s: Db, resolved: Option<Id>) {
    forall a :: a in r.attempts && resolved != Some(a) ==> a in s.attempts && s.attempts[a] == r.attempts[a]
  }

  lemma UploadsStay(uploads: map<Id, Upload>, r: Db, s: Db)
    requires UploadsSound(uploads, r) && TablesLater(r, s) && LeavesClaims(r, s, None)
    ensures UploadsSound(uploads, s)
  {
    forall p | p in uploads ensures UploadSound(uploads[p], s) { UploadStays(uploads[p], r, s); }
  }

  // Upload `p` gives up its attempt, which the commit resolved.
  lemma UploadEnds(uploads: map<Id, Upload>, r: Db, s: Db, p: Id, phase: Phase, resolved: Option<Id>)
    requires UploadsSound(uploads, r) && TablesLater(r, s) && LeavesClaims(r, s, resolved) && p in uploads
    requires resolved.Some? ==> uploads[p].attemptId == resolved.value && uploads[p].Tracks()
    requires phase.Ended? || (phase.Failing? && uploads[p].Tracks())
    ensures UploadsSound(uploads[p := uploads[p].(phase := phase)], s)
  {
    var after := uploads[p := uploads[p].(phase := phase)];
    forall q | q in after ensures UploadSound(after[q], s) {
      assert UploadSound(uploads[q], r);
      UploadStays(if q == p then after[p] else uploads[q], r, s);
    }
  }

  ghost predicate Unowned(uploads: map<Id, Upload>, a: Id) {
    forall p :: p in uploads && uploads[p].attemptId == a ==> !uploads[p].Owns()
  }

  // ---- Who may write an object -----------------------------------------------------------

  // While an attempt is in flight or ambiguous its intent has no stored bytes and no asset.
  lemma WriterExcludesStored(s: Db, a: Id)
    requires TablesSound(s) && a in s.attempts && s.attempts[a].Effective() && s.attempts[a].state != StoredBytes
    ensures s.attempts[a].ref in s.intents && s.intents[s.attempts[a].ref].stored.None?
    ensures s.intents[s.attempts[a].ref].state != Stored && !AssetHasKey(s.assets, s.attempts[a].key)
  {
    var r := s.attempts[a].ref;
    assert AttemptSound(a, s.attempts, s.intents) && IntentSound(r, s.intents[r], s.attempts);
    forall b | b in s.attempts && s.attempts[b].ref == r ensures s.attempts[b].state != StoredBytes {
      assert s.attempts[b].Effective() ==> a == b;
    }
    forall q | q in s.assets ensures s.assets[q].key != s.attempts[a].key {
      assert AssetSound(q, s.assets, s.intents);
    }
  }

  // Only the upload that owns such an attempt can be about to store bytes for its intent.
  lemma WriterExcludesUploads(s: Db, uploads: map<Id, Upload>, a: Id, p: Option<Id>)
    requires TablesSound(s) && UploadsSound(uploads, s) && a in s.attempts && s.attempts[a].Effective()
    requires if p.Some? then p.value in uploads && uploads[p.value].Owns() && uploads[p.value].attemptId == a
             else s.attempts[a].state == AmbiguousFailure || Unowned(uploads, a)
    ensures forall q :: q in uploads && p != Some(q) && uploads[q].phase.Wrote? ==> uploads[q].snapshot.key != s.attempts[a].key
  {
    assert AttemptSound(a, s.attempts, s.intents);
    forall q | q in uploads && p != Some(q) && uploads[q].phase.Wrote? ensures uploads[q].snapshot.key != s.attempts[a].key {
      assert UploadSound(uploads[q], s);
    }
  }
}
