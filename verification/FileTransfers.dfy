// Model of the Files tables and statements: apps/cloudflare-worker/src/d1-files-http.ts,
// d1-files-mutation.ts, d1-files-cleanup.ts and the transfer-attempt table that
// scripts/prepare-cloudflare-application.ts creates. One workspace.
module FileTransfers {
  import opened StringOrder
  import opened Wrappers
  import opened AtomicBatch

  type Id = string
  type Ms = int

  const MAXIMUM_UPLOAD_ATTEMPTS_PER_INTENT := 5

  datatype Ref = Ref(eventId: Id, id: Id)

  // The canonical key layout names the event and the intent and nothing else.
  datatype Key = Key(ref: Ref)

  function NewStorageKey(ref: Ref): Key {
    Key(ref)
  }

  // newFileStorageKey renders it as files/<workspace>/<event>/<intent>, with 36-character ids.
  function Render(workspaceId: Id, key: Key): string {
    "files/" + workspaceId + "/" + key.ref.eventId + "/" + key.ref.id
  }

  lemma RenderedKeysAreDistinct(workspaceId: Id, a: Key, b: Key)
    requires |a.ref.eventId| == |a.ref.id| == |b.ref.eventId| == |b.ref.id| == 36
    requires Render(workspaceId, a) == Render(workspaceId, b)
    ensures a == b
  {
    var n := |"files/" + workspaceId + "/"|;
    var ra, rb := Render(workspaceId, a), Render(workspaceId, b);
    assert ra[n..n + 36] == a.ref.eventId && rb[n..n + 36] == b.ref.eventId;
    assert ra[n + 37..] == a.ref.id && rb[n + 37..] == b.ref.id;
  }

  // The order of the keys in the store's listings.
  predicate Before(a: Key, b: Key) {
    Less(a.ref.eventId, b.ref.eventId) || (a.ref.eventId == b.ref.eventId && Less(a.ref.id, b.ref.id))
  }

  lemma BeforeIsTheRenderedOrder(workspaceId: Id, a: Key, b: Key)
    requires |a.ref.eventId| == |a.ref.id| == |b.ref.eventId| == |b.ref.id| == 36
    ensures Less(Render(workspaceId, a), Render(workspaceId, b)) <==> Before(a, b)
  {
    var prefix := "files/" + workspaceId + "/";
    var x, y := a.ref.eventId + ("/" + a.ref.id), b.ref.eventId + ("/" + b.ref.id);
    assert Render(workspaceId, a) == prefix + x && Render(workspaceId, b) == prefix + y;
    LessAfterAPrefix(prefix, x, y);
    LessByParts(a.ref.eventId, b.ref.eventId, "/" + a.ref.id, "/" + b.ref.id);
    LessAfterAPrefix("/", a.ref.id, b.ref.id);
  }

  lemma BeforeIsStrictAndTotal(a: Key, b: Key, c: Key)
    ensures !Before(a, a)
    ensures Before(a, b) && Before(b, c) ==> Before(a, c)
    ensures a == b || Before(a, b) || Before(b, a)
  {
    LessIsIrreflexive(a.ref.eventId);
    LessIsIrreflexive(a.ref.id);
    LessIsTotal(a.ref.eventId, b.ref.eventId);
    LessIsTotal(a.ref.id, b.ref.id);
    if Less(a.ref.eventId, b.ref.eventId) && Less(b.ref.eventId, c.ref.eventId) {
      LessIsTransitive(a.ref.eventId, b.ref.eventId, c.ref.eventId);
    }
    if Less(a.ref.id, b.ref.id) && Less(b.ref.id, c.ref.id) { LessIsTransitive(a.ref.id, b.ref.id, c.ref.id); }
  }

  // Byte size and digest are null together or set together.
  datatype Content = Content(byteSize: nat, sha256: string)

  datatype IntentState = Pending | Stored | Confirmed | Discarded
  datatype Intent = Intent(ref: Ref, key: Key, contentType: string, uploader: Id, expiresAt: Ms,
                           state: IntentState, stored: Option<Content>)

  datatype AttemptState = Claimed | StoredBytes | SafeRefusal | AmbiguousFailure
  datatype Attempt = Attempt(ref: Ref, key: Key, state: AttemptState, outcome: Option<string>,
                             stored: Option<Content>, startedAt: Ms, finishedAt: Option<Ms>)
  {
    predicate Effective() {
      state != SafeRefusal
    }
  }

  datatype Asset = Asset(ref: Ref, key: Key, content: Content, blocked: bool, createdAt: Ms)

  datatype Db = Db(intents: map<Ref, Intent>, attempts: map<Id, Attempt>, assets: map<Ref, Asset>,
                   attachments: map<Ref, Ref>)

  function AttemptsOf(attempts: map<Id, Attempt>, ref: Ref): set<Id> {
    set a | a in attempts && attempts[a].ref == ref
  }

  predicate Attached(attachments: map<Ref, Ref>, asset: Ref) {
    exists t :: t in attachments && attachments[t] == asset
  }

  predicate AssetHasKey(assets: map<Ref, Asset>, key: Key) {
    exists a :: a in assets && assets[a].key == key
  }

  // objectIsReferenced: any asset with the key, or an intent that is not discarded.
  predicate Referenced(s: Db, key: Key) {
    || AssetHasKey(s.assets, key)
    || exists r :: r in s.intents && s.intents[r].key == key && s.intents[r].state != Discarded
  }

  // ---- Statements ------------------------------------------------------------------------

  datatype Guard =
    | IntentAbsent(ref: Ref)
    | HeadIs(intent: Intent)
    | HeadIsPending(intent: Intent)
    | HeadIsOpen(intent: Intent)
    | AttemptsBelow(ref: Ref, limit: nat)
    | AttemptClaimed(attemptId: Id)
    | AttemptClaimedFor(attemptId: Id, ref: Ref, key: Key)
    | AssetAbsent(ref: Ref)
    | AssetIs(asset: Asset)
    | AssetIsOrphan(asset: Asset)

  // A head guard compares head_json, which is the whole entity.
  predicate StoresIntent(s: Db, intent: Intent) {
    intent.ref in s.intents && s.intents[intent.ref] == intent
  }

  predicate StoresAsset(s: Db, asset: Asset) {
    asset.ref in s.assets && s.assets[asset.ref] == asset
  }

  predicate Holds(g: Guard, s: Db) {
    match g
    case IntentAbsent(ref) => ref !in s.intents
    case HeadIs(intent) => StoresIntent(s, intent)
    case HeadIsPending(intent) => StoresIntent(s, intent) && intent.state.Pending?
    case HeadIsOpen(intent) => StoresIntent(s, intent) && (intent.state.Pending? || intent.state == Stored)
    case AttemptsBelow(ref, limit) => |AttemptsOf(s.attempts, ref)| < limit
    case AttemptClaimed(a) => a in s.attempts && s.attempts[a].state == Claimed
    case AttemptClaimedFor(a, ref, key) =>
      a in s.attempts && s.attempts[a].state == Claimed && s.attempts[a].ref == ref && s.attempts[a].key == key
    case AssetAbsent(ref) => ref !in s.assets
    case AssetIs(asset) => StoresAsset(s, asset)
    case AssetIsOrphan(asset) => StoresAsset(s, asset) && !asset.blocked && !Attached(s.attachments, asset.ref)
  }

  datatype Write =
    | InsertIntent(intent: Intent)
    | SetIntent(expected: Intent, next: Intent)
    | InsertAttempt(attemptId: Id, attempt: Attempt)
    | ResolveAttempt(attemptId: Id, state: AttemptState, outcome: Option<string>, stored: Option<Content>,
                     finishedAt: Ms)
    | InsertAsset(asset: Asset)
    | DeleteAsset(asset: Asset)
    | InsertAttachment(attachment: Ref, target: Ref)

  predicate IntentAllowed(i: Intent) {
    && (i.state == Stored || i.state == Confirmed ==> i.stored.Some?) && (i.state.Pending? ==> i.stored.None?)
    && (i.stored.Some? ==> i.stored.value.byteSize > 0)
  }

  predicate AttemptAllowed(a: Attempt) {
    && (a.state == Claimed ==> a.outcome.None? && a.stored.None? && a.finishedAt.None?)
    && (a.state == StoredBytes ==> a.outcome.None? && a.stored.Some? && a.finishedAt.Some?)
    && (a.state == SafeRefusal || a.state == AmbiguousFailure ==>
          a.outcome.Some? && a.stored.None? && a.finishedAt.Some?)
    && (a.stored.Some? ==> a.stored.value.byteSize > 0)
    && a.startedAt >= 0 && (a.finishedAt.Some? ==> a.startedAt <= a.finishedAt.value)
  }

  // The unique partial index d1_file_upload_one_effective_transfer.
  predicate HasEffective(attempts: map<Id, Attempt>, ref: Ref) {
    exists a :: a in attempts && attempts[a].ref == ref && attempts[a].Effective()
  }

  predicate IntentKeyTaken(intents: map<Ref, Intent>, intent: Intent) {
    exists r :: r in intents && intents[r].ref.eventId == intent.ref.eventId && intents[r].key == intent.key
  }

  predicate AssetKeyTaken(assets: map<Ref, Asset>, asset: Asset) {
    exists r :: r in assets && assets[r].ref.eventId == asset.ref.eventId && assets[r].key == asset.key
  }

  // Identity columns have immutability triggers; content_type is not in the UPDATE, but a CHECK ties
  // it to the head, so a head with another content type aborts.
  function Apply(w: Write, s: Db): Option<Db> {
    match w
    case InsertIntent(i) =>
      if i.ref in s.intents || IntentKeyTaken(s.intents, i) || !IntentAllowed(i) then None
      else Some(s.(intents := s.intents[i.ref := i]))
    case SetIntent(expected, next) =>
      if !StoresIntent(s, expected) then Some(s)
      else if next.ref != expected.ref || next.key != expected.key || next.contentType != expected.contentType
              || !IntentAllowed(next) then None
      else Some(s.(intents := s.intents[expected.ref := next]))
    case InsertAttempt(a, row) =>
      if a in s.attempts || row.ref !in s.intents || HasEffective(s.attempts, row.ref) || !AttemptAllowed(row) then None
      else Some(s.(attempts := s.attempts[a := row]))
    case ResolveAttempt(a, state, outcome, stored, at) =>
      if a !in s.attempts || s.attempts[a].state != Claimed then Some(s)
      else
        var row := s.attempts[a].(state := state, outcome := outcome, stored := stored, finishedAt := Some(at));
        if state == Claimed || !AttemptAllowed(row) then None
        else Some(s.(attempts := s.attempts[a := row]))
    case InsertAsset(asset) =>
      if asset.ref in s.assets || AssetKeyTaken(s.assets, asset) || asset.content.byteSize == 0 then None
      else Some(s.(assets := s.assets[asset.ref := asset]))
    case DeleteAsset(asset) =>
      if !StoresAsset(s, asset) || Attached(s.attachments, asset.ref) then Some(s)
      else Some(s.(assets := s.assets - {asset.ref}))
    case InsertAttachment(t, asset) =>
      if t in s.attachments || asset !in s.assets then None else Some(s.(attachments := s.attachments[t := asset]))
  }

  const FILES := Engine<Db, Guard, Write>.Engine(Holds, Apply)

  // ---- The buffers of each unit of work --------------------------------------------------

  datatype Unit = Unit(guards: seq<Guard>, writes: seq<Write>)

  function Submit(u: Unit, s: Db): Verdict<Db> {
    FILES.Commit(u.guards, u.writes, s)
  }

  function Registration(intent: Intent): Unit {
    Unit([IntentAbsent(intent.ref)], [InsertIntent(intent)])
  }

  function Claim(intent: Intent, attemptId: Id, startedAt: Ms): Unit {
    Unit([HeadIsPending(intent), AttemptsBelow(intent.ref, MAXIMUM_UPLOAD_ATTEMPTS_PER_INTENT)],
         [InsertAttempt(attemptId, Attempt(intent.ref, intent.key, Claimed, None, None, startedAt, None))])
  }

  // persistIntentTransition under a claimed attempt: the bytes are in the store.
  function PersistStored(intent: Intent, contentType: string, content: Content, attemptId: Id, at: Ms): Unit {
    Unit([HeadIs(intent), AttemptClaimedFor(attemptId, intent.ref, intent.key)],
         [SetIntent(intent, intent.(contentType := contentType, state := Stored, stored := Some(content))),
          ResolveAttempt(attemptId, StoredBytes, None, Some(content), at)])
  }

  // persistIntentTransition without a claim: the upload arrived after the intent expired.
  function DiscardExpired(intent: Intent): Unit {
    Unit([HeadIs(intent)], [SetIntent(intent, intent.(state := Discarded))])
  }

  function FinishAttempt(attemptId: Id, state: AttemptState, code: string, at: Ms): Unit {
    Unit([AttemptClaimed(attemptId)], [ResolveAttempt(attemptId, state, Some(code), None, at)])
  }

  // Confirmation mints the asset and closes the intent in one batch.
  function Confirm(intent: Intent, asset: Asset): Unit {
    Unit([HeadIs(intent), AssetAbsent(asset.ref)],
         [InsertAsset(asset), SetIntent(intent, intent.(state := Confirmed))])
  }

  function Attach(ref: Ref, asset: Asset): Unit {
    Unit([AssetIs(asset)], [InsertAttachment(ref, asset.ref)])
  }

  function ExpireIntent(intent: Intent): Unit {
    Unit([HeadIsOpen(intent)], [SetIntent(intent, intent.(state := Discarded))])
  }

  function DropOrphan(asset: Asset): Unit {
    Unit([AssetIsOrphan(asset)], [DeleteAsset(asset)])
  }
}
