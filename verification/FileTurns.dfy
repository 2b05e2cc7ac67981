// What one upload request or one cleanup wake comes to: a function of where it starts, of the events
// that come in each time it waits, and of which of its answers it hears.
module FileTurns {
  import opened Sets
  import opened StringOrder
  import opened Wrappers
  import opened FileListing
  import opened FileTransfers
  import opened FileWorld
  import opened FileTheorems

  function Left<T>(s: seq<T>, n: nat): seq<T> {
    if n <= |s| then s[n..] else []
  }

  // What has happened, what comes in at each wait, and the answers still to be heard or lost.
  datatype Moment = Moment(trace: seq<Event>, arrivals: seq<seq<Event>>, answers: seq<bool>)
  {
    function Now(): World {
      Run(EMPTY, trace)
    }

    function Incoming(): seq<Event> {
      if arrivals == [] then [] else arrivals[0]
    }

    // While it waits, other requests and wakes go on.
    function Waited(): Moment {
      Moment(trace + Incoming(), Left(arrivals, 1), answers)
    }

    // What its next batch or object operation meets.
    function Met(): World {
      Waited().Now()
    }

    predicate Hears(k: nat) {
      k < |answers| ==> answers[k]
    }

    function AtOnce(e: Event): Moment {
      this.(trace := trace + [e])
    }

    // One wait, one batch or operation, and n answers used up.
    function Then(e: Event, n: nat): Moment {
      Waited().AtOnce(e).(answers := Left(answers, n))
    }
  }

  // ---- PUT .../bytes -----------------------------------------------------------------------

  // What the stream gave: stored bytes, a typed refusal, or an error that may have left something.
  datatype Stream =
    | Streamed(contentType: string, content: Content)
    | RefusedStream(code: string)
    | BrokenStream(residue: Residue)

  datatype Response = StoredResponse(content: Content) | Refused(code: string) | NotFound | InternalError

  datatype Turn = Turn(end: Moment, response: Response)

  // finishUploadAttempt with a safe refusal.
  function RefusalTurn(m: Moment, upload: Id, attemptId: Id, at: Ms, code: string): Turn {
    var n := m.AtOnce(RefuseStream(upload, code));
    Turn(n.Then(FinishRefusal(upload, at, n.Hears(0)), 1),
         if Commits(n.Met(), FinishAttempt(attemptId, SafeRefusal, code, at)) && n.Hears(0) then Refused(code)
         else InternalError)
  }

  // persistIntentTransition: tried again after a refused batch, and only then, and only so often.
  function PersistTurn(m: Moment, upload: Id, snapshot: Intent, attemptId: Id, contentType: string, content: Content, at: Ms,
                       tries: nat): Turn
    requires tries >= 1
    decreases tries
  {
    var n := m.Then(PersistUpload(upload, contentType, at, m.Hears(0), tries > 1), 1);
    if Commits(m.Met(), PersistStored(snapshot, contentType, content, attemptId, at)) then
      Turn(n, if m.Hears(0) then StoredResponse(content) else InternalError)
    else if tries == 1 then Turn(n, InternalError)
    else PersistTurn(n, upload, snapshot, attemptId, contentType, content, at, tries - 1)
  }

  function StreamTurn(m: Moment, upload: Id, snapshot: Intent, attemptId: Id, at: Ms, stream: Stream): Turn {
    match stream
    case RefusedStream(code) => RefusalTurn(m, upload, attemptId, at, code)
    case BrokenStream(residue) => Turn(m.AtOnce(WriteFails(upload, residue)), InternalError)
    case Streamed(contentType, content) =>
      PersistTurn(m.AtOnce(WriteObject(upload, content)), upload, snapshot, attemptId, contentType, content, at, 3)
  }

  // Whatever fails after the claim is recorded as ambiguous.
  function MoveTurn(m: Moment, upload: Id, snapshot: Intent, attemptId: Id, at: Ms, stream: Stream): Turn {
    var t := StreamTurn(m, upload, snapshot, attemptId, at, stream);
    if t.response.InternalError? then Turn(t.end.Then(FinishAmbiguous(upload, "upload_failed", at), 0), InternalError) else t
  }

  // The request comes to hold the attempt it drew.
  predicate Claims(m: Moment, upload: Id, ref: Ref, attemptId: Id, now: Ms) {
    && ref in m.Now().db.intents
    && var snapshot := m.Now().db.intents[ref];
    && snapshot.state.Pending? && now < snapshot.expiresAt && m.Hears(0)
    && Commits(m.AtOnce(OpenUpload(upload, ref, attemptId, now)).Met(), Claim(snapshot, attemptId, now))
  }

  function UploadTurn(m: Moment, upload: Id, ref: Ref, attemptId: Id, now: Ms, at: Ms, stream: Stream): Turn {
    if ref !in m.Now().db.intents then Turn(m, NotFound)
    else
      var snapshot := m.Now().db.intents[ref];
      var n := m.AtOnce(OpenUpload(upload, ref, attemptId, now));
      if !snapshot.state.Pending? then Turn(n.Waited(), Refused("intent_not_pending"))
      else if now >= snapshot.expiresAt then
        Turn(n.Then(DiscardLateUpload(upload), 1),
             if Commits(n.Met(), DiscardExpired(snapshot)) && n.Hears(0) then Refused("intent_expired") else InternalError)
      else
        var claimed := n.Then(ClaimAttempt(upload, n.Hears(0)), 1).Waited();
        if Commits(n.Met(), Claim(snapshot, attemptId, now)) && n.Hears(0)
        then MoveTurn(claimed, upload, snapshot, attemptId, at, stream)
        else
          Turn(claimed, match Classify(claimed.Now().db, snapshot)
                        case Active => Refused("upload_in_progress")
                        case Exhausted => Refused("upload_attempts_exhausted")
                        case Stale => Refused("intent_not_pending")
                        case Rethrow => InternalError)
  }

  // ---- The cleanup wake --------------------------------------------------------------------

  datatype Fault = IntentFault(id: Id) | AssetFault(id: Id) | ObjectFault(key: Key)
  datatype WakeResult = WakeResult(expiredIntents: nat, orphanAssets: nat, reconciledObjects: nat, faults: seq<Fault>)

  // One row that a wake has selected or one key that it was listed.
  datatype Task = Expiry(intent: Intent) | Removal(asset: Asset) | Check(key: Key)

  function FaultOf(t: Task): Fault {
    match t
    case Expiry(intent) => IntentFault(intent.ref.id)
    case Removal(asset) => AssetFault(asset.ref.id)
    case Check(key) => ObjectFault(key)
  }

  // The task goes on to delete an object.
  predicate CallsDeletion(m: Moment, t: Task) {
    && m.Hears(0)
    && match t
       case Expiry(intent) => Commits(m.Met(), ExpireIntent(intent)) && intent.state == Stored
       case Removal(asset) => Commits(m.Met(), DropOrphan(asset))
       case Check(key) => !Referenced(m.Met().db, key)
  }

  // None is a fault, Some(false) a referenced object that was left alone.
  function ResultOf(m: Moment, t: Task): Option<bool> {
    if CallsDeletion(m, t) then if m.Hears(1) then Some(true) else None
    else
      match t
      case Expiry(intent) => if m.Hears(0) && Commits(m.Met(), ExpireIntent(intent)) then Some(true) else None
      case Removal(_) => None
      case Check(_) => if m.Hears(0) then Some(false) else None
  }

  function AfterDeletion(m: Moment, wake: Id): Moment {
    if m.Hears(0) then m.Then(DeleteObject(wake), 1) else m.Then(RejectDelete(wake, m.Hears(1)), 2)
  }

  function FirstStep(m: Moment, wake: Id, t: Task): Event {
    match t
    case Expiry(intent) => Expire(wake, intent, m.Hears(0))
    case Removal(asset) => Drop(wake, asset, m.Hears(0))
    case Check(_) => CheckNext(wake, m.Hears(0))
  }

  function AfterTask(m: Moment, wake: Id, t: Task): Moment {
    var n := m.Then(FirstStep(m, wake, t), 1);
    if CallsDeletion(m, t) then AfterDeletion(n, wake) else n
  }

  function AfterTasks(m: Moment, wake: Id, tasks: seq<Task>): Moment {
    if tasks == [] then m
    else AfterTask(AfterTasks(m, wake, tasks[..|tasks| - 1]), wake, tasks[|tasks| - 1])
  }

  // The outcome of the i-th task.
  function ResultAt(m: Moment, wake: Id, tasks: seq<Task>, i: nat): Option<bool>
    requires i < |tasks|
  {
    ResultOf(AfterTasks(m, wake, tasks[..i]), tasks[i])
  }

  function FaultsOf(m: Moment, wake: Id, tasks: seq<Task>): seq<Fault> {
    if tasks == [] then []
    else
      var n := |tasks| - 1;
      FaultsOf(m, wake, tasks[..n]) + (if ResultAt(m, wake, tasks, n).None? then [FaultOf(tasks[n])] else [])
  }

  function Counted(m: Moment, wake: Id, tasks: seq<Task>): nat {
    if tasks == [] then 0
    else
      var n := |tasks| - 1;
      Counted(m, wake, tasks[..n]) + (if ResultAt(m, wake, tasks, n) == Some(true) then 1 else 0)
  }

  lemma NextTask(m: Moment, wake: Id, tasks: seq<Task>, i: nat)
    requires i < |tasks|
    ensures AfterTasks(m, wake, tasks[..i + 1]) == AfterTask(AfterTasks(m, wake, tasks[..i]), wake, tasks[i])
    ensures FaultsOf(m, wake, tasks[..i + 1]) ==
            FaultsOf(m, wake, tasks[..i]) + (if ResultAt(m, wake, tasks, i).None? then [FaultOf(tasks[i])] else [])
    ensures Counted(m, wake, tasks[..i + 1]) ==
            Counted(m, wake, tasks[..i]) + (if ResultAt(m, wake, tasks, i) == Some(true) then 1 else 0)
  {
    hide AfterTask, ResultOf, FaultOf;
    assert tasks[..i + 1][..i] == tasks[..i] && tasks[..i + 1][i] == tasks[i];
  }

  function Expiries(intents: seq<Intent>): seq<Task> {
    seq(|intents|, i requires 0 <= i < |intents| => Expiry(intents[i]))
  }

  function Removals(assets: seq<Asset>): seq<Task> {
    seq(|assets|, i requires 0 <= i < |assets| => Removal(assets[i]))
  }

  function KeyChecks(keys: seq<Key>): seq<Task> {
    seq(|keys|, i requires 0 <= i < |keys| => Check(keys[i]))
  }

  // Every selected row is counted or named among the faults.
  lemma {:induction false} CountedOrFaulty(m: Moment, wake: Id, tasks: seq<Task>)
    ensures Counted(m, wake, tasks) + |FaultsOf(m, wake, tasks)| <= |tasks|
    ensures (forall t :: t in tasks ==> !t.Check?) ==> Counted(m, wake, tasks) + |FaultsOf(m, wake, tasks)| == |tasks|
  {
    if tasks != [] {
      var n := |tasks| - 1;
      CountedOrFaulty(m, wake, tasks[..n]);
      NextTask(m, wake, tasks, n);
      assert tasks[..n + 1] == tasks;
      assert !tasks[n].Check? ==> ResultAt(m, wake, tasks, n) != Some(false);
      hide *;
    }
  }

  // ---- The rows a wake selects ---------------------------------------------------------------

  const ORPHAN_GRACE_MS := 7 * 24 * 60 * 60 * 1_000
  const MAXIMUM_ROWS_PER_WAKE := 100

  // The three reads of a wake, as the queries answer them.
  datatype Queries = Queries(expired: (Db, Ms) -> seq<Intent>, orphans: (Db, Ms) -> seq<Asset>,
                             list: map<Key, Content> -> seq<Key>)

  function Expired(s: Db, now: Ms): set<Intent> {
    set r | r in s.intents && (s.intents[r].state.Pending? || s.intents[r].state == Stored) && s.intents[r].expiresAt <= now
          :: s.intents[r]
  }

  predicate ExpiresBefore(a: Intent, b: Intent) {
    a.expiresAt < b.expiresAt || (a.expiresAt == b.expiresAt && Less(a.ref.id, b.ref.id))
  }

  function Orphans(s: Db, now: Ms): set<Asset> {
    set r | r in s.assets && !s.assets[r].blocked && !Attached(s.attachments, r)
            && s.assets[r].createdAt <= now - ORPHAN_GRACE_MS
          :: s.assets[r]
  }

  predicate CreatedBefore(a: Asset, b: Asset) {
    a.createdAt < b.createdAt || (a.createdAt == b.createdAt && Less(a.ref.id, b.ref.id))
  }

  ghost predicate Selects(intents: seq<Intent>, assets: seq<Asset>, s: Db, now: Ms) {
    && FirstOf(intents, Expired(s, now), ExpiresBefore, MAXIMUM_ROWS_PER_WAKE)
    && FirstOf(assets, Orphans(s, now), CreatedBefore, MAXIMUM_ROWS_PER_WAKE)
  }

  ghost predicate Answers(q: Queries) {
    && (forall s, now :: Selects(q.expired(s, now), q.orphans(s, now), s, now))
    && (forall objects :: Lists(q.list(objects), objects.Keys))
  }

  // An intent that is still open and has run out by `now`.
  predicate IsDue(intent: Intent, now: Ms) {
    (intent.state == Pending || intent.state == Stored) && intent.expiresAt <= now
  }

  // Seven days unattached and not blocked.
  predicate IsStale(asset: Asset, s: Db, now: Ms) {
    && !asset.blocked && asset.createdAt + 604_800_000 <= now
    && forall t :: t in s.attachments ==> s.attachments[t] != asset.ref
  }

  // Due intents of the table, the earliest first; those left for the next wake run out no earlier.
  ghost predicate AreTheDue(intents: seq<Intent>, s: Db, now: Ms) {
    && |intents| <= 100 && NoRepeats(intents)
    && (forall i :: i in intents ==> IsDue(i, now) && exists r :: r in s.intents && s.intents[r] == i)
    && (forall j, k :: 0 <= j < k < |intents| ==>
          || intents[j].expiresAt < intents[k].expiresAt
          || (intents[j].expiresAt == intents[k].expiresAt && !Less(intents[k].ref.id, intents[j].ref.id)))
    && (forall r :: r in s.intents && IsDue(s.intents[r], now) && s.intents[r] !in intents ==>
          |intents| == 100 && forall i :: i in intents ==> i.expiresAt <= s.intents[r].expiresAt)
  }

  ghost predicate AreTheStale(assets: seq<Asset>, s: Db, now: Ms) {
    && |assets| <= 100 && NoRepeats(assets)
    && (forall a :: a in assets ==> exists r :: r in s.assets && s.assets[r] == a && IsStale(a.(ref := r), s, now))
    && (forall j, k :: 0 <= j < k < |assets| ==>
          || assets[j].createdAt < assets[k].createdAt
          || (assets[j].createdAt == assets[k].createdAt && !Less(assets[k].ref.id, assets[j].ref.id)))
    && (forall r :: r in s.assets && IsStale(s.assets[r].(ref := r), s, now) && s.assets[r] !in assets ==>
          |assets| == 100 && forall a :: a in assets ==> a.createdAt <= s.assets[r].createdAt)
  }

  lemma FirstOfIsShort<T>(rows: seq<T>, table: set<T>, before: (T, T) -> bool, n: nat)
    requires FirstOf(rows, table, before, n)
    ensures |rows| <= n && (forall t :: t in table && t !in rows ==> |rows| == n)
  {
    if t :| t in table && t !in rows {
      NoRepeatsCounts(rows);
      SubsetIsSmaller(Members(rows) + {t}, table);
    }
  }

  lemma SelectsTheDue(intents: seq<Intent>, assets: seq<Asset>, s: Db, now: Ms)
    requires Selects(intents, assets, s, now)
    ensures AreTheDue(intents, s, now)
  {
    FirstOfIsShort(intents, Expired(s, now), ExpiresBefore, MAXIMUM_ROWS_PER_WAKE);
    forall r | r in s.intents && IsDue(s.intents[r], now) && s.intents[r] !in intents
      ensures |intents| == 100 && forall i :: i in intents ==> i.expiresAt <= s.intents[r].expiresAt
    {
      assert s.intents[r] in Expired(s, now);
    }
    forall j, k | 0 <= j < k < |intents|
      ensures || intents[j].expiresAt < intents[k].expiresAt
              || (intents[j].expiresAt == intents[k].expiresAt && !Less(intents[k].ref.id, intents[j].ref.id))
    {
      assert !ExpiresBefore(intents[k], intents[j]);
    }
  }

  lemma SelectsTheStale(intents: seq<Intent>, assets: seq<Asset>, s: Db, now: Ms)
    requires Selects(intents, assets, s, now)
    ensures AreTheStale(assets, s, now)
  {
    FirstOfIsShort(assets, Orphans(s, now), CreatedBefore, MAXIMUM_ROWS_PER_WAKE);
    forall r | r in s.assets && IsStale(s.assets[r].(ref := r), s, now) && s.assets[r] !in assets
      ensures |assets| == 100 && forall a :: a in assets ==> a.createdAt <= s.assets[r].createdAt
    {
      assert s.assets[r] in Orphans(s, now);
    }
    forall a | a in assets
      ensures exists r :: r in s.assets && s.assets[r] == a && IsStale(a.(ref := r), s, now)
    {
      var r :| r in s.assets && s.assets[r] == a && !a.blocked && !Attached(s.attachments, r)
               && a.createdAt <= now - ORPHAN_GRACE_MS;
      assert IsStale(a.(ref := r), s, now);
    }
    forall j, k | 0 <= j < k < |assets|
      ensures || assets[j].createdAt < assets[k].createdAt
              || (assets[j].createdAt == assets[k].createdAt && !Less(assets[k].ref.id, assets[j].ref.id))
    {
      assert !CreatedBefore(assets[k], assets[j]);
    }
  }
}
