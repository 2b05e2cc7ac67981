// Uploads, confirmations and cleanup wakes running at once over the Files tables and the object
// store. The store is outside every transaction; each step is one statement batch or one object
// operation, and every interleaving is some list of events.
module FileWorld {
  import opened Wrappers
  import opened AtomicBatch
  import opened FileListing
  import opened FileTransfers

  // One PUT request: the intent it read, the attempt id it drew, and how far it has come.
  datatype Phase =
    | Ready(now: Ms)
    | Holding
    | Wrote(content: Content)
    | Refusing(code: string)
    | Failing
    | Ended
  datatype Upload = Upload(snapshot: Intent, attemptId: Id, phase: Phase) {
    // The request owns its attempt row: nobody else resolves it.
    predicate Owns() {
      phase.Holding? || phase.Wrote? || phase.Refusing?
    }

    // It claimed that row and has not let go of it.
    predicate Tracks() {
      Owns() || phase.Failing?
    }
  }

  // One cleanup wake: it sweeps rows, then lists one page and looks at its keys one by one. While a
  // deletion of its own is under way it waits for that.
  datatype Stage = Sweeping | Reconciling(rest: seq<Key>)
  datatype Wake = Wake(stage: Stage, deleting: Option<Key>)

  // `late` holds the deletions that nobody waits for any more but that may still land.
  datatype World = World(db: Db, objects: map<Key, Content>, wakes: map<Id, Wake>, late: multiset<Key>,
                         uploads: map<Id, Upload>)

  // A deletion of the key is under way.
  predicate Condemned(wakes: map<Id, Wake>, late: multiset<Key>, key: Key) {
    key in late || exists id :: id in wakes && wakes[id].deleting == Some(key)
  }

  // A running wake has the key before it.
  predicate Awaited(wakes: map<Id, Wake>, key: Key) {
    exists id :: id in wakes && wakes[id].stage.Reconciling? && key in wakes[id].stage.rest
  }

  // What a failed stream leaves behind: nothing, an object, or a hole where the writer removed an
  // object of the wrong size.
  datatype Residue = Untouched | Landed(content: Content) | Removed

  // `answered` is false when a batch committed but its answer was lost; the caller sees an error.
  datatype Event =
    | RegisterIntent(intent: Intent)
    | OpenUpload(upload: Id, ref: Ref, attemptId: Id, now: Ms)
    | ClaimAttempt(upload: Id, answered: bool)
    | DiscardLateUpload(upload: Id)
    | WriteObject(upload: Id, content: Content)
    | WriteFails(upload: Id, residue: Residue)
    | RefuseStream(upload: Id, code: string)
    | PersistUpload(upload: Id, contentType: string, at: Ms, answered: bool, again: bool)
    | FinishRefusal(upload: Id, at: Ms, answered: bool)
    | FinishAmbiguous(upload: Id, code: string, at: Ms)
    | LateWrite(attemptId: Id, residue: Residue)
    | ConfirmUpload(intent: Intent, asset: Asset)
    | AttachAsset(attachment: Ref, asset: Asset)
    | StartWake(wake: Id)
    | Expire(wake: Id, intent: Intent, answered: bool)
    | Drop(wake: Id, asset: Asset, answered: bool)
    | ListObjects(wake: Id, keys: seq<Key>)
    | CheckNext(wake: Id, answered: bool)
    | DeleteObject(wake: Id)
    | RejectDelete(wake: Id, late: bool)
    | LateDelete(key: Key)
    | EndWake(wake: Id, late: bool)

  function Store(objects: map<Key, Content>, key: Key, residue: Residue): map<Key, Content> {
    match residue
    case Untouched => objects
    case Landed(content) => objects[key := content]
    case Removed => objects - {key}
  }

  function Moved(w: World, id: Id, phase: Phase): World
    requires id in w.uploads
  {
    w.(uploads := w.uploads[id := w.uploads[id].(phase := phase)])
  }

  function AfterUnit(w: World, u: Unit): World {
    match Submit(u, w.db) case Committed(db) => w.(db := db) case _ => w
  }

  predicate Commits(w: World, u: Unit) {
    Submit(u, w.db).Committed?
  }

  // An object operation of this attempt may still be under way although no request is tracking it.
  predicate Uncertain(w: World, a: Id) {
    && a in w.db.attempts
    && (|| w.db.attempts[a].state == AmbiguousFailure
        || (w.db.attempts[a].state == Claimed
            && forall p :: p in w.uploads && w.uploads[p].attemptId == a ==> !w.uploads[p].Owns()))
  }

  // Confirmation copies the stored bytes' identity into the asset.
  predicate Mints(intent: Intent, asset: Asset) {
    && intent.state == Stored && intent.stored.Some? && asset.content == intent.stored.value
    && asset.key == intent.key && asset.ref.eventId == intent.ref.eventId
  }

  // What each event does where it can happen; elsewhere it does nothing.
  function Step(w: World, e: Event): World {
    match e
    case RegisterIntent(intent) =>
      if intent.state.Pending? && intent.key == NewStorageKey(intent.ref)
      then AfterUnit(w, Registration(intent)) else w
    case OpenUpload(p, ref, a, now) =>
      if p !in w.uploads && ref in w.db.intents
      then w.(uploads := w.uploads[p := Upload(w.db.intents[ref], a, Ready(now))]) else w
    case ClaimAttempt(p, answered) => StepClaim(w, p, answered)
    case DiscardLateUpload(p) =>
      if p in w.uploads && w.uploads[p].phase.Ready? && w.uploads[p].snapshot.state.Pending?
         && w.uploads[p].phase.now >= w.uploads[p].snapshot.expiresAt
      then Moved(AfterUnit(w, DiscardExpired(w.uploads[p].snapshot)), p, Ended) else w
    case WriteObject(p, content) =>
      if p in w.uploads && w.uploads[p].phase.Holding? && content.byteSize > 0
      then Moved(w.(objects := w.objects[w.uploads[p].snapshot.key := content]), p, Wrote(content)) else w
    case WriteFails(p, residue) =>
      if p in w.uploads && w.uploads[p].phase.Holding?
      then Moved(w.(objects := Store(w.objects, w.uploads[p].snapshot.key, residue)), p, Failing) else w
    case RefuseStream(p, code) =>
      if p in w.uploads && w.uploads[p].phase.Holding? then Moved(w, p, Refusing(code)) else w
    case PersistUpload(p, contentType, at, answered, again) =>
      if p in w.uploads && w.uploads[p].phase.Wrote? then StepPersist(w, p, contentType, at, answered, again) else w
    case FinishRefusal(p, at, answered) =>
      if p in w.uploads && w.uploads[p].phase.Refusing? then
        var u := FinishAttempt(w.uploads[p].attemptId, SafeRefusal, w.uploads[p].phase.code, at);
        Moved(AfterUnit(w, u), p, if Commits(w, u) && answered then Ended else Failing)
      else w
    case FinishAmbiguous(p, code, at) =>
      if p in w.uploads && w.uploads[p].phase.Failing?
      then Moved(AfterUnit(w, FinishAttempt(w.uploads[p].attemptId, AmbiguousFailure, code, at)), p, Ended) else w
    case LateWrite(a, residue) =>
      if Uncertain(w, a) then w.(objects := Store(w.objects, w.db.attempts[a].key, residue)) else w
    case ConfirmUpload(intent, asset) =>
      if Mints(intent, asset) then AfterUnit(w, Confirm(intent, asset)) else w
    case AttachAsset(attachment, asset) => AfterUnit(w, Attach(attachment, asset))
    case _ => StepWake(w, e)
  }

  // The same for the events of cleanup wakes.
  function StepWake(w: World, e: Event): World {
    match e
    case StartWake(id) => if id in w.wakes then w else w.(wakes := w.wakes[id := Wake(Sweeping, None)])
    case Expire(id, intent, answered) =>
      if Sweeps(w, id) then
        var u := ExpireIntent(intent);
        var w' := AfterUnit(w, u);
        if Commits(w, u) && answered && intent.state == Stored then Deleting(w', id, Sweeping, intent.key) else w'
      else w
    case Drop(id, asset, answered) =>
      if Sweeps(w, id) then
        var u := DropOrphan(asset);
        var w' := AfterUnit(w, u);
        if Commits(w, u) && answered then Deleting(w', id, Sweeping, asset.key) else w'
      else w
    case ListObjects(id, keys) =>
      if Sweeps(w, id) && Lists(keys, w.objects.Keys)
      then w.(wakes := w.wakes[id := Wake(Reconciling(keys), None)]) else w
    case CheckNext(id, answered) =>
      if Checks(w, id) then
        var key, rest := w.wakes[id].stage.rest[0], w.wakes[id].stage.rest[1..];
        if answered && !Referenced(w.db, key) then Deleting(w, id, Reconciling(rest), key)
        else w.(wakes := w.wakes[id := Wake(Reconciling(rest), None)])
      else w
    case DeleteObject(id) =>
      if Deletes(w, id)
      then w.(objects := w.objects - {w.wakes[id].deleting.value}, wakes := w.wakes[id := w.wakes[id].(deleting := None)])
      else w
    case RejectDelete(id, late) =>
      if Deletes(w, id) then GiveUp(w, id, late).(wakes := w.wakes[id := w.wakes[id].(deleting := None)]) else w
    case LateDelete(key) =>
      if key in w.late then w.(objects := w.objects - {key}, late := w.late - multiset{key}) else w
    case EndWake(id, late) =>
      if id in w.wakes then GiveUp(w, id, late).(wakes := w.wakes - {id}) else w
    case _ => w
  }

  predicate Sweeps(w: World, id: Id) {
    id in w.wakes && w.wakes[id] == Wake(Sweeping, None)
  }

  predicate Checks(w: World, id: Id) {
    id in w.wakes && w.wakes[id].deleting.None? && w.wakes[id].stage.Reconciling? && w.wakes[id].stage.rest != []
  }

  predicate Deletes(w: World, id: Id) {
    id in w.wakes && w.wakes[id].deleting.Some?
  }

  // The deletion the wake waits for has been called, and only then is it waited for.
  function Deleting(w: World, id: Id, stage: Stage, key: Key): World {
    w.(wakes := w.wakes[id := Wake(stage, Some(key))])
  }

  // A deletion that is not waited for any more has been refused for good or may still land.
  function GiveUp(w: World, id: Id, late: bool): World
    requires id in w.wakes
  {
    if late && w.wakes[id].deleting.Some? then w.(late := w.late + multiset{w.wakes[id].deleting.value}) else w
  }

  // Only a pending, unexpired snapshot claims; a lost answer reads back as an active upload.
  function StepClaim(w: World, p: Id, answered: bool): World {
    if p in w.uploads && w.uploads[p].phase.Ready? then
      var upload := w.uploads[p];
      if upload.snapshot.state.Pending? && upload.phase.now < upload.snapshot.expiresAt then
        var u := Claim(upload.snapshot, upload.attemptId, upload.phase.now);
        Moved(AfterUnit(w, u), p, if Commits(w, u) && answered then Holding else Ended)
      else w
    else w
  }

  function StepPersist(w: World, p: Id, contentType: string, at: Ms, answered: bool, again: bool): World
    requires p in w.uploads && w.uploads[p].phase.Wrote?
  {
    var upload := w.uploads[p];
    var u := PersistStored(upload.snapshot, contentType, upload.phase.content, upload.attemptId, at);
    Moved(AfterUnit(w, u), p,
          if Commits(w, u) then (if answered then Ended else Failing)
          else if again then upload.phase else Failing)
  }

  function Run(w: World, events: seq<Event>): World
    decreases |events|
  {
    if events == [] then w else Step(Run(w, events[..|events| - 1]), events[|events| - 1])
  }

  const EMPTY := World(Db(map[], map[], map[], map[]), map[], map[], multiset{}, map[])

  // ---- The invariant of the tables -------------------------------------------------------

  ghost predicate HasStored(attempts: map<Id, Attempt>, r: Ref) {
    exists a :: a in attempts && attempts[a].ref == r && attempts[a].state == StoredBytes
  }

  ghost predicate IntentSound(r: Ref, i: Intent, attempts: map<Id, Attempt>) {
    && i.ref == r && i.key == NewStorageKey(r) && IntentAllowed(i)
    && |AttemptsOf(attempts, r)| <= MAXIMUM_UPLOAD_ATTEMPTS_PER_INTENT
    && (i.stored.Some? ==> HasStored(attempts, r))
  }

  // A stored attempt carries what its intent says.
  ghost predicate AttemptSound(a: Id, attempts: map<Id, Attempt>, intents: map<Ref, Intent>)
    requires a in attempts
  {
    var row := attempts[a];
    && row.ref in intents && row.key == NewStorageKey(row.ref) && AttemptAllowed(row)
    && (row.state == StoredBytes ==> row.stored == intents[row.ref].stored)
  }

  // At most one attempt per intent is in flight, stored or ambiguous.
  ghost predicate OneEffective(attempts: map<Id, Attempt>) {
    forall a, b | a in attempts && b in attempts && attempts[a].ref == attempts[b].ref ::
      attempts[a].Effective() && attempts[b].Effective() ==> a == b
  }

  ghost predicate AssetSound(r: Ref, assets: map<Ref, Asset>, intents: map<Ref, Intent>)
    requires r in assets
  {
    var asset := assets[r];
    && asset.ref == r && asset.key.ref in intents && asset.ref.eventId == asset.key.ref.eventId
    && intents[asset.key.ref].state == Confirmed && intents[asset.key.ref].stored == Some(asset.content)
    && (forall q :: q in assets && assets[q].key == asset.key ==> q == r)
  }

  ghost predicate IntentsSound(intents: map<Ref, Intent>, attempts: map<Id, Attempt>) {
    forall r :: r in intents ==> IntentSound(r, intents[r], attempts)
  }

  ghost predicate AttemptsSound(attempts: map<Id, Attempt>, intents: map<Ref, Intent>) {
    OneEffective(attempts) && forall a :: a in attempts ==> AttemptSound(a, attempts, intents)
  }

  ghost predicate AssetsSound(assets: map<Ref, Asset>, intents: map<Ref, Intent>) {
    forall r :: r in assets ==> AssetSound(r, assets, intents)
  }

  ghost predicate TablesSound(s: Db) {
    IntentsSound(s.intents, s.attempts) && AttemptsSound(s.attempts, s.intents) && AssetsSound(s.assets, s.intents)
  }

  // ---- What never goes back --------------------------------------------------------------

  ghost predicate IntentLater(r: Intent, s: Intent) {
    && r.ref == s.ref && r.key == s.key && r.contentType == s.contentType && r.uploader == s.uploader
    && r.expiresAt == s.expiresAt
    && (r.state == s.state ==> r == s)
    && (s.state.Pending? ==> r.state.Pending?) && (s.state == Stored ==> r.state.Pending? || r.state == Stored)
    && (r.state == Confirmed ==> r == s) && (r.state == Discarded ==> r == s)
    && (r.stored.Some? ==> s.stored == r.stored)
  }

  ghost predicate AttemptLater(r: Attempt, s: Attempt) {
    r.ref == s.ref && r.key == s.key && r.startedAt == s.startedAt && (r.state != Claimed ==> r == s)
  }

  ghost predicate TablesLater(r: Db, s: Db) {
    && (forall i :: i in r.intents ==> i in s.intents && IntentLater(r.intents[i], s.intents[i]))
    && (forall a :: a in r.attempts ==> a in s.attempts && AttemptLater(r.attempts[a], s.attempts[a]))
    && (forall i :: i in r.intents && r.intents[i].state == Confirmed && !AssetHasKey(r.assets, r.intents[i].key) ==>
          !AssetHasKey(s.assets, r.intents[i].key))
  }
}
