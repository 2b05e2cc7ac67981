// The imperative side of Files: the upload branch of apps/cloudflare-worker/src/d1-files-http.ts and
// dispatchD1FilesCleanupWake of d1-files-cleanup.ts, running among other requests and wakes. Each
// method only performs events of FileWorld, so every theorem about runs holds of what it does.
module FileRuntime {
  import opened Sets
  import opened StringOrder
  import opened Wrappers
  import opened AtomicBatch
  import opened FileListing
  import opened FileTransfers
  import opened FileWorld
  import opened FileSafety
  import opened FileAttempts
  import opened FileRuns
  import opened FileTheorems
  import opened FilePermanence
  import opened FileTurns

  // ---- What the others cannot undo -------------------------------------------------------

  ghost predicate Onward(w: World, w': World) {
    TablesLater(w.db, w'.db)
  }

  lemma {:induction false} TraceGoesOnward(before: seq<Event>, after: seq<Event>)
    requires before <= after
    ensures Onward(Run(EMPTY, before), Run(EMPTY, after))
    decreases |after|
  {
    hide Step, TablesLater, WorldSound;
    if |before| == |after| {
      assert before == after;
      LaterReflexive(Run(EMPTY, before).db);
    } else {
      var n := |after| - 1;
      TraceGoesOnward(before, after[..n]);
      EveryRunIsSound(after[..n]);
      StepKeeps(Run(EMPTY, after[..n]), after[n]);
      LaterTransitive(Run(EMPTY, before).db, Run(EMPTY, after[..n]).db, Run(EMPTY, after).db);
    }
  }

  predicate IsDiscarded(s: Db, ref: Ref) {
    ref in s.intents && s.intents[ref].state == Discarded
  }

  lemma DiscardedStays(w: World, w': World, ref: Ref)
    requires Onward(w, w') && IsDiscarded(w.db, ref)
    ensures IsDiscarded(w'.db, ref)
  {
    assert IntentLater(w.db.intents[ref], w'.db.intents[ref]);
  }

  // The asset row and the object are gone, and neither ever comes back.
  predicate Gone(w: World, key: Key) {
    && key !in w.objects && key.ref in w.db.intents && w.db.intents[key.ref].state == Confirmed
    && !AssetHasKey(w.db.assets, key)
  }

  lemma NothingIsWrittenBack(w: World, e: Event, key: Key)
    requires WorldSound(w) && key !in w.objects && key.ref in w.db.intents && w.db.intents[key.ref].state == Confirmed
    ensures key !in Step(w, e).objects
  {
    hide TablesSound, BytesSound, AfterUnit, StepWake;
    if e.WriteObject? || e.WriteFails? {
      if e.upload in w.uploads && w.uploads[e.upload].phase.Holding? {
        assert UploadSound(w.uploads[e.upload], w.db);
        ConfirmedIsNotWritten(w.db, w.uploads[e.upload].attemptId);
      }
    } else if e.LateWrite? {
      if Uncertain(w, e.attemptId) { ConfirmedIsNotWritten(w.db, e.attemptId); }
    } else {
      OthersAddNothing(w, e);
    }
  }

  lemma OthersAddNothing(w: World, e: Event)
    requires !e.WriteObject? && !e.WriteFails? && !e.LateWrite?
    ensures Step(w, e).objects.Keys <= w.objects.Keys
  {
    hide Submit, StepWake;
    WakesOnlyRemove(w, e);
  }

  lemma GoneStays(w: World, e: Event, key: Key)
    requires WorldSound(w) && Gone(w, key)
    ensures Gone(Step(w, e), key)
  {
    StepKeeps(w, e);
    assert IntentLater(w.db.intents[key.ref], Step(w, e).db.intents[key.ref]);
    hide WorldSound, TablesLater, Step;
    NothingIsWrittenBack(w, e, key);
    NoAssetAppears(w, e, key);
  }

  lemma {:induction false} GoneForever(before: seq<Event>, after: seq<Event>, key: Key)
    requires before <= after && Gone(Run(EMPTY, before), key)
    ensures Gone(Run(EMPTY, after), key)
    decreases |after|
  {
    hide Step, WorldSound, Gone;
    if |before| == |after| {
      assert before == after;
    } else {
      var n := |after| - 1;
      GoneForever(before, after[..n], key);
      EveryRunIsSound(after[..n]);
      GoneStays(Run(EMPTY, after[..n]), after[n], key);
    }
  }

  // ---- A refused batch stays refused, so that trying it again changes nothing ---------------

  lemma RefusedHeadStays(read: seq<Event>, refused: seq<Event>, later: seq<Event>, intent: Intent)
    requires read <= refused <= later && StoresIntent(Run(EMPTY, read).db, intent)
    requires !StoresIntent(Run(EMPTY, refused).db, intent)
    ensures !StoresIntent(Run(EMPTY, later).db, intent)
  {
    hide Run;
    TraceGoesOnward(read, refused);
    TraceGoesOnward(refused, later);
    var r, s, t := Run(EMPTY, read).db, Run(EMPTY, refused).db, Run(EMPTY, later).db;
    assert IntentLater(r.intents[intent.ref], s.intents[intent.ref]);
    assert IntentLater(s.intents[intent.ref], t.intents[intent.ref]);
  }

  lemma RefusedExpiryStays(read: seq<Event>, refused: seq<Event>, later: seq<Event>, intent: Intent)
    requires read <= refused <= later && StoresIntent(Run(EMPTY, read).db, intent)
    requires !Holds(HeadIsOpen(intent), Run(EMPTY, refused).db)
    ensures !Holds(HeadIsOpen(intent), Run(EMPTY, later).db)
  {
    hide Run;
    if !StoresIntent(Run(EMPTY, refused).db, intent) { RefusedHeadStays(read, refused, later, intent); }
  }

  // Of a confirmed intent's key no asset appears that was not there, and an attachment is kept.
  ghost predicate OnlyLeaves(s: Db, t: Db, key: Key, q: Ref) {
    && IsConfirmed(t, key)
    && (q in t.assets && t.assets[q].key == key ==> q in s.assets && s.assets[q] == t.assets[q])
    && (Attached(s.attachments, q) ==> Attached(t.attachments, q))
  }

  lemma AssetsOnlyLeaveNow(w: World, e: Event, key: Key, q: Ref)
    requires WorldSound(w) && IsConfirmed(w.db, key)
    ensures OnlyLeaves(w.db, Step(w, e).db, key, q)
  {
    StepKeeps(w, e);
    assert IntentLater(w.db.intents[key.ref], Step(w, e).db.intents[key.ref]);
    hide Step, WorldSound, TablesLater, Attached;
    AssetsMove(w, e, q);
  }

  lemma {:induction false} AssetsOnlyLeave(before: seq<Event>, after: seq<Event>, key: Key, q: Ref)
    requires before <= after && IsConfirmed(Run(EMPTY, before).db, key)
    ensures OnlyLeaves(Run(EMPTY, before).db, Run(EMPTY, after).db, key, q)
    decreases |after|
  {
    hide Step, Attached, WorldSound;
    if |before| == |after| {
      assert before == after;
    } else {
      var n := |after| - 1;
      AssetsOnlyLeave(before, after[..n], key, q);
      EveryRunIsSound(after[..n]);
      AssetsOnlyLeaveNow(Run(EMPTY, after[..n]), after[n], key, q);
    }
  }

  predicate IsConfirmed(s: Db, key: Key) {
    key.ref in s.intents && s.intents[key.ref].state == Confirmed
  }

  lemma RefusedRemovalStays(read: seq<Event>, refused: seq<Event>, later: seq<Event>, asset: Asset)
    requires read <= refused <= later && StoresAsset(Run(EMPTY, read).db, asset)
    requires !Holds(AssetIsOrphan(asset), Run(EMPTY, refused).db)
    ensures !Holds(AssetIsOrphan(asset), Run(EMPTY, later).db)
  {
    hide Run;
    StoredAssetIsConfirmed(read, asset);
    AssetsOnlyLeave(read, refused, asset.key, asset.ref);
    AssetsOnlyLeave(refused, later, asset.key, asset.ref);
  }

  lemma StoredAssetIsConfirmed(trace: seq<Event>, asset: Asset)
    requires StoresAsset(Run(EMPTY, trace).db, asset)
    ensures IsConfirmed(Run(EMPTY, trace).db, asset.key)
  {
    EveryRunIsSound(trace);
    assert AssetSound(asset.ref, Run(EMPTY, trace).db.assets, Run(EMPTY, trace).db.intents);
  }

  // ---- One wake among others -------------------------------------------------------------

  // What a counted task has achieved, for good.
  predicate Achieved(w: World, t: Task) {
    match t
    case Expiry(intent) => IsDiscarded(w.db, intent.ref)
    case Removal(asset) => Gone(w, asset.key)
    case Check(_) => true
  }

  lemma AchievedStays(before: seq<Event>, after: seq<Event>, t: Task)
    requires before <= after && Achieved(Run(EMPTY, before), t)
    ensures Achieved(Run(EMPTY, after), t)
  {
    hide Run, IsDiscarded, Gone;
    match t
    case Expiry(intent) =>
      TraceGoesOnward(before, after);
      DiscardedStays(Run(EMPTY, before), Run(EMPTY, after), intent.ref);
    case Removal(asset) => GoneForever(before, after, asset.key);
    case Check(_) =>
  }

  ghost predicate AchievedAt(w: World, m: Moment, wake: Id, tasks: seq<Task>, i: nat)
    requires i < |tasks|
  {
    ResultAt(m, wake, tasks, i) == Some(true) ==> Achieved(w, tasks[i])
  }

  ghost predicate AllAchieved(w: World, m: Moment, wake: Id, tasks: seq<Task>) {
    forall i :: 0 <= i < |tasks| ==> AchievedAt(w, m, wake, tasks, i)
  }

  lemma AllAchievedStay(before: seq<Event>, after: seq<Event>, m: Moment, wake: Id, tasks: seq<Task>)
    requires before <= after && AllAchieved(Run(EMPTY, before), m, wake, tasks)
    ensures AllAchieved(Run(EMPTY, after), m, wake, tasks)
  {
    hide Run, Achieved, ResultAt;
    forall i | 0 <= i < |tasks| ensures AchievedAt(Run(EMPTY, after), m, wake, tasks, i) {
      assert AchievedAt(Run(EMPTY, before), m, wake, tasks, i);
      if ResultAt(m, wake, tasks, i) == Some(true) { AchievedStays(before, after, tasks[i]); }
    }
  }

  lemma OneMoreAchieved(before: seq<Event>, after: seq<Event>, m: Moment, wake: Id, tasks: seq<Task>, i: nat)
    requires before <= after && i < |tasks| && AllAchieved(Run(EMPTY, before), m, wake, tasks[..i])
    requires AchievedAt(Run(EMPTY, after), m, wake, tasks, i)
    ensures AllAchieved(Run(EMPTY, after), m, wake, tasks[..i + 1])
  {
    hide Run, AchievedAt;
    AllAchievedStay(before, after, m, wake, tasks[..i]);
    var more := tasks[..i + 1];
    forall j | 0 <= j < |more| ensures AchievedAt(Run(EMPTY, after), m, wake, more, j) {
      AchievedAlike(Run(EMPTY, after), m, wake, tasks, i + 1, j);
      if j < i { AchievedAlike(Run(EMPTY, after), m, wake, tasks, i, j); }
    }
  }

  lemma AchievedAlike(w: World, m: Moment, wake: Id, tasks: seq<Task>, n: nat, j: nat)
    requires j < n <= |tasks|
    ensures AchievedAt(w, m, wake, tasks[..n], j) <==> AchievedAt(w, m, wake, tasks, j)
  {
    hide ResultAt, Achieved;
    SameResult(m, wake, tasks, n, j);
  }

  // What becomes of a task depends on the tasks before it only.
  lemma SameResult(m: Moment, wake: Id, tasks: seq<Task>, n: nat, j: nat)
    requires j < n <= |tasks|
    ensures ResultAt(m, wake, tasks[..n], j) == ResultAt(m, wake, tasks, j) && tasks[..n][j] == tasks[j]
  {
    hide AfterTasks, ResultOf;
    assert tasks[..n][..j] == tasks[..j];
  }

  // The wake an event belongs to.
  function WakeOf(e: Event): Option<Id> {
    match e
    case StartWake(id) => Some(id)
    case Expire(id, _, _) => Some(id)
    case Drop(id, _, _) => Some(id)
    case ListObjects(id, _) => Some(id)
    case CheckNext(id, _) => Some(id)
    case DeleteObject(id) => Some(id)
    case RejectDelete(id, _) => Some(id)
    case EndWake(id, _) => Some(id)
    case _ => None
  }

  ghost predicate NotMyWake(arrivals: seq<seq<Event>>, wake: Id) {
    forall i, j :: 0 <= i < |arrivals| && 0 <= j < |arrivals[i]| ==> WakeOf(arrivals[i][j]) != Some(wake)
  }

  ghost predicate WakeAt(w: World, id: Id, wake: Wake) {
    id in w.wakes && w.wakes[id] == wake
  }

  lemma OthersLeaveMyWake(w: World, e: Event, id: Id, wake: Wake)
    requires WakeOf(e) != Some(id) && WakeAt(w, id, wake)
    ensures WakeAt(Step(w, e), id, wake)
  {
    hide Submit, Referenced, Lists;
  }

  lemma ExpireLands(w: World, id: Id, intent: Intent, answered: bool)
    requires WakeAt(w, id, Wake(Sweeping, None))
    ensures var w' := Step(w, Expire(id, intent, answered));
            if Commits(w, ExpireIntent(intent)) then
              && IsDiscarded(w'.db, intent.ref)
              && WakeAt(w', id, Wake(Sweeping, if answered && intent.state == Stored then Some(intent.key) else None))
            else WakeAt(w', id, Wake(Sweeping, None))
  {
    if Commits(w, ExpireIntent(intent)) {
      DiscardCommits(ExpireIntent(intent), intent, w.db, Submit(ExpireIntent(intent), w.db).after);
    }
  }

  lemma LateUploadDiscards(w: World, p: Id, snapshot: Intent, a: Id, now: Ms)
    requires At(w, p, Upload(snapshot, a, Ready(now))) && snapshot.state.Pending? && now >= snapshot.expiresAt
    requires Commits(w, DiscardExpired(snapshot))
    ensures IsDiscarded(Step(w, DiscardLateUpload(p)).db, snapshot.ref)
  {
    DiscardCommits(DiscardExpired(snapshot), snapshot, w.db, Submit(DiscardExpired(snapshot), w.db).after);
  }

  // The row of a dropped asset does not come back, nor does another asset for its key.
  predicate Unowned(s: Db, key: Key) {
    key.ref in s.intents && s.intents[key.ref].state == Confirmed && !AssetHasKey(s.assets, key)
  }

  lemma DropLands(w: World, id: Id, asset: Asset, answered: bool)
    requires WorldSound(w) && WakeAt(w, id, Wake(Sweeping, None))
    ensures var w', committed := Step(w, Drop(id, asset, answered)), Commits(w, DropOrphan(asset));
            && WakeAt(w', id, Wake(Sweeping, if committed && answered then Some(asset.key) else None))
            && (committed ==> Unowned(w'.db, asset.key))
  {
    hide IntentsSound, AttemptsSound, UploadsSound, BytesSound;
    if Commits(w, DropOrphan(asset)) {
      DropCommits(asset, w.db, Submit(DropOrphan(asset), w.db).after);
      assert AssetSound(asset.ref, w.db.assets, w.db.intents);
    }
  }

  lemma UnownedStays(before: seq<Event>, after: seq<Event>, key: Key)
    requires before <= after && Unowned(Run(EMPTY, before).db, key)
    ensures Unowned(Run(EMPTY, after).db, key)
  {
    hide Run, WorldSound;
    EveryRunIsSound(before);
    EveryRunIsSound(after);
    TraceGoesOnward(before, after);
    StrandedNow(Run(EMPTY, before), Run(EMPTY, after), key);
  }

  lemma ListLands(w: World, id: Id, keys: seq<Key>)
    requires WakeAt(w, id, Wake(Sweeping, None)) && Lists(keys, w.objects.Keys)
    ensures WakeAt(Step(w, ListObjects(id, keys)), id, Wake(Reconciling(keys), None))
  {
    hide Lists;
  }

  lemma CheckLands(w: World, id: Id, keys: seq<Key>, answered: bool)
    requires keys != [] && WakeAt(w, id, Wake(Reconciling(keys), None))
    ensures WakeAt(Step(w, CheckNext(id, answered)), id,
                   Wake(Reconciling(keys[1..]), if answered && !Referenced(w.db, keys[0]) then Some(keys[0]) else None))
    ensures Step(w, CheckNext(id, answered)).db == w.db
  {
    hide Referenced;
  }

  lemma DeleteLands(w: World, id: Id, stage: Stage, key: Key)
    requires WakeAt(w, id, Wake(stage, Some(key)))
    ensures key !in Step(w, DeleteObject(id)).objects && WakeAt(Step(w, DeleteObject(id)), id, Wake(stage, None))
    ensures Step(w, DeleteObject(id)).db == w.db
  {
  }

  lemma RejectLands(w: World, id: Id, stage: Stage, key: Key, late: bool)
    requires WakeAt(w, id, Wake(stage, Some(key)))
    ensures WakeAt(Step(w, RejectDelete(id, late)), id, Wake(stage, None))
    ensures key in w.objects ==> key in Step(w, RejectDelete(id, late)).objects
  {
  }

  ghost predicate NotMine(arrivals: seq<seq<Event>>, upload: Id) {
    forall i, j :: 0 <= i < |arrivals| && 0 <= j < |arrivals[i]| ==> Actor(arrivals[i][j]) != Some(upload)
  }

  lemma HeadsNameThemselves(events: seq<Event>, ref: Ref)
    requires ref in Run(EMPTY, events).db.intents
    ensures Run(EMPTY, events).db.intents[ref].ref == ref
  {
    EveryRunIsSound(events);
    var s := Run(EMPTY, events).db;
    assert IntentSound(ref, s.intents[ref], s.attempts);
  }

  lemma OpenedUpload(w: World, p: Id, ref: Ref, a: Id, now: Ms)
    requires p !in w.uploads && ref in w.db.intents
    ensures At(Step(w, OpenUpload(p, ref, a, now)), p, Upload(w.db.intents[ref], a, Ready(now)))
  {
  }

  lemma ClaimedUpload(w: World, p: Id, snapshot: Intent, a: Id, now: Ms)
    requires At(w, p, Upload(snapshot, a, Ready(now))) && snapshot.state.Pending? && now < snapshot.expiresAt
    requires Commits(w, Claim(snapshot, a, now))
    ensures At(Step(w, ClaimAttempt(p, true)), p, Upload(snapshot, a, Holding))
  {
    hide Submit;
  }

  lemma WrittenUpload(w: World, p: Id, snapshot: Intent, a: Id, content: Content)
    requires At(w, p, Upload(snapshot, a, Holding)) && content.byteSize > 0
    ensures At(Step(w, WriteObject(p, content)), p, Upload(snapshot, a, Wrote(content)))
  {
  }

  lemma RefusingUpload(w: World, p: Id, snapshot: Intent, a: Id, code: string)
    requires At(w, p, Upload(snapshot, a, Holding))
    ensures At(Step(w, RefuseStream(p, code)), p, Upload(snapshot, a, Refusing(code)))
  {
  }

  lemma UnpersistedUpload(w: World, p: Id, snapshot: Intent, a: Id, contentType: string, content: Content, at: Ms,
                          answered: bool)
    requires At(w, p, Upload(snapshot, a, Wrote(content)))
    requires !Commits(w, PersistStored(snapshot, contentType, content, a, at))
    ensures At(Step(w, PersistUpload(p, contentType, at, answered, true)), p, Upload(snapshot, a, Wrote(content)))
  {
    hide Submit;
  }

  lemma RefusalLands(w: World, p: Id, snapshot: Intent, a: Id, code: string, at: Ms)
    requires At(w, p, Upload(snapshot, a, Refusing(code))) && Commits(w, FinishAttempt(a, SafeRefusal, code, at))
    ensures var s := Step(w, FinishRefusal(p, at, true)).db; a in s.attempts && s.attempts[a].state == SafeRefusal
  {
    FinishCommits(a, SafeRefusal, code, at, w.db, Submit(FinishAttempt(a, SafeRefusal, code, at), w.db).after);
  }

  // ---- Where a request's attempt ends up ---------------------------------------------------

  // Neither refused nor given up: in flight, or its bytes are on record.
  predicate Unresolved(s: Db, a: Id) {
    a in s.attempts && (s.attempts[a].state == Claimed || s.attempts[a].state == StoredBytes)
  }

  lemma OwnedIsClaimed(w: World, p: Id, u: Upload)
    requires WorldSound(w) && At(w, p, u) && u.Owns()
    ensures u.attemptId in w.db.attempts && w.db.attempts[u.attemptId].state == Claimed
  {
    assert UploadSound(u, w.db);
  }

  lemma BrokenUpload(w: World, p: Id, snapshot: Intent, a: Id, residue: Residue)
    requires At(w, p, Upload(snapshot, a, Holding))
    ensures At(Step(w, WriteFails(p, residue)), p, Upload(snapshot, a, Failing)) && Step(w, WriteFails(p, residue)).db == w.db
  {
  }

  lemma RefusalFails(w: World, p: Id, snapshot: Intent, a: Id, code: string, at: Ms, answered: bool)
    requires At(w, p, Upload(snapshot, a, Refusing(code))) && a in w.db.attempts && w.db.attempts[a].state == Claimed
    requires !(Commits(w, FinishAttempt(a, SafeRefusal, code, at)) && answered)
    ensures var w' := Step(w, FinishRefusal(p, at, answered));
            && At(w', p, Upload(snapshot, a, Failing)) && a in w'.db.attempts
            && (w'.db.attempts[a].state == Claimed || w'.db.attempts[a].state == SafeRefusal)
  {
    if Commits(w, FinishAttempt(a, SafeRefusal, code, at)) {
      FinishCommits(a, SafeRefusal, code, at, w.db, Submit(FinishAttempt(a, SafeRefusal, code, at), w.db).after);
    }
  }

  lemma PersistFails(w: World, p: Id, snapshot: Intent, a: Id, contentType: string, content: Content, at: Ms, answered: bool,
                     again: bool)
    requires At(w, p, Upload(snapshot, a, Wrote(content))) && a in w.db.attempts && w.db.attempts[a].state == Claimed
    requires if Commits(w, PersistStored(snapshot, contentType, content, a, at)) then !answered else !again
    ensures var w' := Step(w, PersistUpload(p, contentType, at, answered, again));
            At(w', p, Upload(snapshot, a, Failing)) && Unresolved(w'.db, a)
  {
    var unit := PersistStored(snapshot, contentType, content, a, at);
    if Commits(w, unit) {
      PersistCommits(snapshot, contentType, content, a, at, w.db, Submit(unit, w.db).after);
    }
  }

  lemma AmbiguityLands(w: World, p: Id, snapshot: Intent, a: Id, code: string, at: Ms)
    requires At(w, p, Upload(snapshot, a, Failing)) && a in w.db.attempts
    ensures var s := Step(w, FinishAmbiguous(p, code, at)).db;
            a in s.attempts && (s.attempts[a] == w.db.attempts[a] || s.attempts[a].state == AmbiguousFailure)
  {
    if Commits(w, FinishAttempt(a, AmbiguousFailure, code, at)) {
      FinishCommits(a, AmbiguousFailure, code, at, w.db, Submit(FinishAttempt(a, AmbiguousFailure, code, at), w.db).after);
    }
  }

  class FilesRuntime {
    var world: World
    var arrivals: seq<seq<Event>>
    var answers: seq<bool>
    const queries: Queries
    ghost var trace: seq<Event>

    constructor (queries: Queries, arrivals: seq<seq<Event>>, answers: seq<bool>)
      ensures Explained() && world == EMPTY && this.queries == queries
    {
      this.queries, this.arrivals, this.answers := queries, arrivals, answers;
      world, trace := EMPTY, [];
    }

    // The world is what the trace of events leads to.
    ghost predicate Explained()
      reads this
    {
      world == Run(EMPTY, trace)
    }

    method Perform(e: Event)
      requires Explained()
      modifies this`world, this`trace
      ensures Explained() && trace == old(trace) + [e] && world == Step(old(world), e)
    {
      hide Step;
      world := Step(world, e);
      trace := trace + [e];
      assert trace[..|trace| - 1] == old(trace);
    }

    // Where it stands, what is still to come in, and the answers still to be heard or lost.
    ghost function Here(): Moment
      reads this
    {
      Moment(trace, arrivals, answers)
    }

    // Other requests and wakes go on while this one awaits.
    method Await()
      requires Explained()
      modifies this`world, this`trace, this`arrivals
      ensures Explained() && Here() == old(Here()).Waited()
    {
      hide Step, Run;
      assert trace + [] == trace;
      if arrivals == [] { return; }
      var events := arrivals[0];
      arrivals := arrivals[1..];
      for i := 0 to |events|
        invariant Explained() && trace == old(trace) + events[..i] && arrivals == Left(old(arrivals), 1)
      {
        Perform(events[i]);
        assert old(trace) + events[..i] + [events[i]] == old(trace) + events[..i + 1];
      }
      assert events[..|events|] == events;
    }

    // Whether the caller sees the answer of its next batch or object operation.
    method NextAnswer() returns (answered: bool)
      modifies this`answers
      ensures answered == old(Here()).Hears(0) && answers == Left(old(answers), 1)
    {
      if answers == [] { return true; }
      answered := answers[0];
      answers := answers[1..];
    }

    // The same for a request that is done with its attempt.
    method AwaitOther(ghost upload: Id)
      requires Explained() && NotMine(arrivals, upload)
      modifies this`world, this`trace, this`arrivals
      ensures Explained() && Here() == old(Here()).Waited() && NotMine(arrivals, upload)
    {
      ghost var coming := arrivals;
      Await();
      assert forall i :: 0 <= i < |arrivals| ==> arrivals[i] == coming[i + 1];
    }

    // The same, seen from one request: nobody else moves it.
    method AwaitAs(ghost upload: Id, ghost u: Upload)
      requires Explained() && NotMine(arrivals, upload) && At(world, upload, u)
      modifies this`world, this`trace, this`arrivals
      ensures Explained() && Here() == old(Here()).Waited() && NotMine(arrivals, upload) && At(world, upload, u)
      ensures u.Tracks() ==>
                && u.attemptId in old(world).db.attempts && u.attemptId in world.db.attempts
                && world.db.attempts[u.attemptId] == old(world).db.attempts[u.attemptId]
    {
      hide Step, Run, At, WorldSound;
      EveryRunIsSound(trace);
      if u.Tracks() { MyAttemptIsMine(world, upload, u); }
      assert trace + [] == trace;
      if arrivals == [] { return; }
      var events := arrivals[0];
      assert forall j :: 0 <= j < |events| ==> Actor(events[j]) != Some(upload);
      arrivals := arrivals[1..];
      assert forall i :: 0 <= i < |arrivals| ==> arrivals[i] == old(arrivals)[i + 1];
      assert NotMine(arrivals, upload);
      for i := 0 to |events|
        invariant Explained() && trace == old(trace) + events[..i] && arrivals == Left(old(arrivals), 1)
        invariant At(world, upload, u)
        invariant u.Tracks() ==>
                    && u.attemptId in world.db.attempts
                    && world.db.attempts[u.attemptId] == old(world).db.attempts[u.attemptId]
      {
        OthersLeaveMeAlone(world, events[i], upload, u);
        if u.Tracks() {
          EveryRunIsSound(trace);
          OthersLeaveMyAttempt(world, events[i], upload, u);
        }
        Perform(events[i]);
        assert old(trace) + events[..i] + [events[i]] == old(trace) + events[..i + 1];
      }
      assert events[..|events|] == events;
    }

    // The same, seen from one wake.
    method AwaitWake(ghost id: Id, ghost wake: Wake)
      requires Explained() && NotMyWake(arrivals, id) && WakeAt(world, id, wake)
      modifies this`world, this`trace, this`arrivals
      ensures Explained() && Here() == old(Here()).Waited() && NotMyWake(arrivals, id) && WakeAt(world, id, wake)
    {
      hide Step, Run, WakeAt;
      assert trace + [] == trace;
      if arrivals == [] { return; }
      var events := arrivals[0];
      assert forall j :: 0 <= j < |events| ==> WakeOf(events[j]) != Some(id);
      arrivals := arrivals[1..];
      assert forall i :: 0 <= i < |arrivals| ==> arrivals[i] == old(arrivals)[i + 1];
      for i := 0 to |events|
        invariant Explained() && trace == old(trace) + events[..i] && arrivals == Left(old(arrivals), 1)
        invariant WakeAt(world, id, wake)
      {
        OthersLeaveMyWake(world, events[i], id, wake);
        Perform(events[i]);
        assert old(trace) + events[..i] + [events[i]] == old(trace) + events[..i + 1];
      }
      assert events[..|events|] == events;
    }

    // ---- PUT .../bytes ------------------------------------------------------------------

    // 200 means the bytes are on record; a typed refusal after a claim means the attempt was put
    // back as a safe refusal.
    ghost predicate Truthful(response: Response, ref: Ref, attemptId: Id)
      reads this
    {
      match response
      case StoredResponse(content) =>
        && ref in world.db.intents && world.db.intents[ref].stored == Some(content)
        && attemptId in world.db.attempts && world.db.attempts[attemptId].state == StoredBytes
        && world.db.attempts[attemptId].stored == Some(content)
      case Refused(_) =>
        attemptId in world.db.attempts && world.db.attempts[attemptId].state == SafeRefusal
      case NotFound => false
      case InternalError => true
    }

    // Everything uncertain is a 500 that leaves the attempt effective, so that no other claim can write
    // the same key; only a refusal whose answer was lost may have been put back.
    ghost predicate FailsClosed(attemptId: Id, refused: bool)
      reads this
    {
      && attemptId in world.db.attempts
      && (world.db.attempts[attemptId].Effective() || (refused && world.db.attempts[attemptId].state == SafeRefusal))
    }

    // The request makes exactly its own batches and object operations, in order, and answers what came
    // of them.
    method UploadBytes(upload: Id, ref: Ref, attemptId: Id, now: Ms, finishedAt: Ms, stream: Stream)
      returns (response: Response, ghost claimed: bool)
      requires Explained() && upload !in world.uploads && NotMine(arrivals, upload)
      requires stream.Streamed? ==> stream.content.byteSize > 0
      modifies this
      ensures Explained() && old(trace) <= trace
      ensures Turn(Here(), response) == UploadTurn(old(Here()), upload, ref, attemptId, now, finishedAt, stream)
      ensures claimed <==> Claims(old(Here()), upload, ref, attemptId, now)
      ensures claimed ==> Truthful(response, ref, attemptId)
      ensures claimed && response.InternalError? ==> FailsClosed(attemptId, stream.RefusedStream?)
      ensures response.NotFound? <==> ref !in old(world).db.intents
      ensures !claimed ==> !response.StoredResponse?
      ensures !claimed && response == Refused("upload_in_progress") ==> HasEffective(world.db.attempts, ref)
      ensures !claimed && response == Refused("upload_attempts_exhausted") ==> |AttemptsOf(world.db.attempts, ref)| >= 5
      ensures !claimed && response == Refused("intent_expired") ==> IsDiscarded(world.db, ref)
    {
      hide Step, Run, At, Submit, WorldSound, AttemptsOf, HasEffective, MoveTurn, NotMine, Classify, IsDiscarded;
      claimed := false;
      if ref !in world.db.intents { return NotFound, claimed; }
      var snapshot := world.db.intents[ref];
      HeadsNameThemselves(trace, ref);
      OpenedUpload(world, upload, ref, attemptId, now);
      Perform(OpenUpload(upload, ref, attemptId, now));
      AwaitAs(upload, Upload(snapshot, attemptId, Ready(now)));
      if !snapshot.state.Pending? { return Refused("intent_not_pending"), claimed; }
      if now >= snapshot.expiresAt {
        response := DiscardLate(upload, snapshot, attemptId, now);
        return;
      }
      var refusal := ClaimUploadAttempt(upload, snapshot, attemptId, now);
      match refusal {
        case Some(code) =>
          response := match code
            case Active => Refused("upload_in_progress")
            case Exhausted => Refused("upload_attempts_exhausted")
            case Stale => Refused("intent_not_pending")
            case Rethrow => InternalError;
        case None =>
          claimed := true;
          response := MoveBytes(upload, snapshot, attemptId, finishedAt, stream);
      }
    }

    // The bytes come after the intent has run out: persistIntentTransition without a claim. A refused
    // batch stays refused, so that its further tries change nothing.
    method DiscardLate(upload: Id, snapshot: Intent, attemptId: Id, now: Ms) returns (response: Response)
      requires Explained() && At(world, upload, Upload(snapshot, attemptId, Ready(now)))
      requires snapshot.state.Pending? && now >= snapshot.expiresAt
      modifies this
      ensures Explained()
      ensures Here() == old(Here()).AtOnce(DiscardLateUpload(upload)).(answers := Left(old(answers), 1))
      ensures response == if Commits(old(world), DiscardExpired(snapshot)) && old(Here()).Hears(0)
                          then Refused("intent_expired") else InternalError
      ensures response.Refused? ==> IsDiscarded(world.db, snapshot.ref)
    {
      hide Step, Run, At, Submit;
      var answered := NextAnswer();
      var discarded := Commits(world, DiscardExpired(snapshot));
      if discarded { LateUploadDiscards(world, upload, snapshot, attemptId, now); }
      Perform(DiscardLateUpload(upload));
      return if discarded && answered then Refused("intent_expired") else InternalError;
    }

    // None means claimed: the batch went through and its answer was heard. A claim that failed reads
    // the tables again to say why.
    method ClaimUploadAttempt(upload: Id, snapshot: Intent, attemptId: Id, now: Ms) returns (refusal: Option<ClaimRefusal>)
      requires Explained() && NotMine(arrivals, upload) && At(world, upload, Upload(snapshot, attemptId, Ready(now)))
      requires snapshot.state.Pending? && now < snapshot.expiresAt
      modifies this
      ensures Explained() && old(trace) <= trace && NotMine(arrivals, upload)
      ensures refusal.None? <==> Commits(old(world), Claim(snapshot, attemptId, now)) && old(Here()).Hears(0)
      ensures refusal.None? ==> At(world, upload, Upload(snapshot, attemptId, Holding))
      ensures refusal.Some? ==> refusal.value == Classify(world.db, snapshot)
      ensures refusal == Some(Active) ==> HasEffective(world.db.attempts, snapshot.ref)
      ensures refusal == Some(Exhausted) ==> |AttemptsOf(world.db.attempts, snapshot.ref)| >= 5
      ensures Here() ==
              old(Here()).AtOnce(ClaimAttempt(upload, old(Here()).Hears(0))).(answers := Left(old(answers), 1)).Waited()
    {
      hide Step, Run, At, Submit, AttemptsOf, HasEffective, NotMine;
      var answered := NextAnswer();
      var committed := Commits(world, Claim(snapshot, attemptId, now));
      if committed { ClaimedUpload(world, upload, snapshot, attemptId, now); }
      Perform(ClaimAttempt(upload, answered));
      if !(committed && answered) {
        AwaitOther(upload);
        return Some(Classify(world.db, snapshot));
      }
      AwaitAs(upload, Upload(snapshot, attemptId, Holding));
      return None;
    }

    // Everything after a successful claim.
    method MoveBytes(upload: Id, snapshot: Intent, attemptId: Id, finishedAt: Ms, stream: Stream)
      returns (response: Response)
      requires Explained() && NotMine(arrivals, upload) && At(world, upload, Upload(snapshot, attemptId, Holding))
      requires stream.Streamed? ==> stream.content.byteSize > 0
      modifies this
      ensures Explained() && old(trace) <= trace && Truthful(response, snapshot.ref, attemptId)
      ensures Turn(Here(), response) == MoveTurn(old(Here()), upload, snapshot, attemptId, finishedAt, stream)
      ensures response.InternalError? ==> FailsClosed(attemptId, stream.RefusedStream?)
      ensures !response.NotFound?
    {
      hide Step, Run, At, WorldSound, RefusalTurn, PersistTurn;
      EveryRunIsSound(trace);
      OwnedIsClaimed(world, upload, Upload(snapshot, attemptId, Holding));
      match stream {
        case RefusedStream(code) =>
          response := RefuseBytes(upload, snapshot, attemptId, finishedAt, code);
          if response.Refused? { return; }
        case BrokenStream(residue) =>
          BrokenUpload(world, upload, snapshot, attemptId, residue);
          Perform(WriteFails(upload, residue));
        case Streamed(contentType, content) =>
          WrittenUpload(world, upload, snapshot, attemptId, content);
          Perform(WriteObject(upload, content));
          response := Persist(upload, snapshot, attemptId, contentType, content, finishedAt);
          if response.StoredResponse? { return; }
      }
      AwaitAs(upload, Upload(snapshot, attemptId, Failing));
      AmbiguityLands(world, upload, snapshot, attemptId, "upload_failed", finishedAt);
      Perform(FinishAmbiguous(upload, "upload_failed", finishedAt));
      return InternalError;
    }

    // The bytes were refused before anything was kept: finishUploadAttempt with a safe refusal.
    method RefuseBytes(upload: Id, snapshot: Intent, attemptId: Id, finishedAt: Ms, code: string)
      returns (response: Response)
      requires Explained() && NotMine(arrivals, upload) && At(world, upload, Upload(snapshot, attemptId, Holding))
      modifies this
      ensures Explained() && old(trace) <= trace
      ensures Turn(Here(), response) == RefusalTurn(old(Here()), upload, attemptId, finishedAt, code)
      ensures response == Refused(code) || response.InternalError?
      ensures response.Refused? ==> Truthful(response, snapshot.ref, attemptId)
      ensures response.InternalError? ==>
                && At(world, upload, Upload(snapshot, attemptId, Failing)) && NotMine(arrivals, upload)
                && attemptId in world.db.attempts
                && (world.db.attempts[attemptId].state == Claimed || world.db.attempts[attemptId].state == SafeRefusal)
    {
      hide Step, Run, At, WorldSound, Submit;
      RefusingUpload(world, upload, snapshot, attemptId, code);
      Perform(RefuseStream(upload, code));
      AwaitAs(upload, Upload(snapshot, attemptId, Refusing(code)));
      var answered := NextAnswer();
      var finished := Commits(world, FinishAttempt(attemptId, SafeRefusal, code, finishedAt));
      if finished { RefusalLands(world, upload, snapshot, attemptId, code, finishedAt); }
      EveryRunIsSound(trace);
      OwnedIsClaimed(world, upload, Upload(snapshot, attemptId, Refusing(code)));
      if !(finished && answered) { RefusalFails(world, upload, snapshot, attemptId, code, finishedAt, answered); }
      Perform(FinishRefusal(upload, finishedAt, answered));
      return if finished && answered then Refused(code) else InternalError;
    }

    // persistIntentTransition: up to three tries at the same batch; only an answered commit is success.
    method Persist(upload: Id, snapshot: Intent, attemptId: Id, contentType: string, content: Content, at: Ms)
      returns (response: Response)
      requires Explained() && NotMine(arrivals, upload)
      requires At(world, upload, Upload(snapshot, attemptId, Wrote(content)))
      modifies this
      ensures Explained() && old(trace) <= trace && (response.StoredResponse? || response.InternalError?)
      ensures Turn(Here(), response) == PersistTurn(old(Here()), upload, snapshot, attemptId, contentType, content, at, 3)
      ensures response.StoredResponse? ==> response.content == content && Truthful(response, snapshot.ref, attemptId)
      ensures response.InternalError? ==>
                && At(world, upload, Upload(snapshot, attemptId, Failing)) && NotMine(arrivals, upload)
                && Unresolved(world.db, attemptId)
    {
      hide Step, Run, Submit, At, WorldSound, NotMine, Unresolved;
      ghost var turn := PersistTurn(Here(), upload, snapshot, attemptId, contentType, content, at, 3);
      var attempt := 1;
      while attempt <= 3
        invariant 1 <= attempt <= 4 && Explained() && old(trace) <= trace && NotMine(arrivals, upload)
        invariant attempt <= 3 ==>
                    && At(world, upload, Upload(snapshot, attemptId, Wrote(content)))
                    && turn == PersistTurn(Here(), upload, snapshot, attemptId, contentType, content, at, 4 - attempt)
        invariant attempt == 4 ==>
                    && At(world, upload, Upload(snapshot, attemptId, Failing)) && Unresolved(world.db, attemptId)
                    && turn == Turn(Here(), InternalError)
      {
        AwaitAs(upload, Upload(snapshot, attemptId, Wrote(content)));
        var answered := NextAnswer();
        var committed := Commits(world, PersistStored(snapshot, contentType, content, attemptId, at));
        if committed { PersistLands(world, upload, snapshot, attemptId, contentType, content, at); }
        else { UnpersistedUpload(world, upload, snapshot, attemptId, contentType, content, at, answered); }
        EveryRunIsSound(trace);
        OwnedIsClaimed(world, upload, Upload(snapshot, attemptId, Wrote(content)));
        if (if committed then !answered else attempt == 3) {
          PersistFails(world, upload, snapshot, attemptId, contentType, content, at, answered, attempt < 3);
        }
        Perform(PersistUpload(upload, contentType, at, answered, attempt < 3));
        if committed { return if answered then StoredResponse(content) else InternalError; }
        attempt := attempt + 1;
      }
      return InternalError;
    }

    // ---- The cleanup wake ---------------------------------------------------------------

    // The states in which a wake reads its rows and its listing, and where its three passes start.
    ghost predicate Sweeps(start: Moment, wake: Id, nowMs: Ms, intents: seq<Intent>, assets: seq<Asset>, keys: seq<Key>,
                           passes: seq<Moment>)
    {
      && |passes| == 3
      && passes[0] == start.AtOnce(StartWake(wake)).Waited()
      && intents == queries.expired(passes[0].Now().db, nowMs) && assets == queries.orphans(passes[0].Now().db, nowMs)
      && passes[1] == AfterTasks(passes[0], wake, Expiries(intents))
      && var swept := AfterTasks(passes[1], wake, Removals(assets));
      && keys == queries.list(swept.Now().objects) && passes[2] == swept.AtOnce(ListObjects(wake, keys))
    }

    // A wake reads its rows at one moment and its listing at a later one: the first hundred expired
    // intents and stale orphans in time order, and the first thousand keys. It attempts every one of
    // them; a row is counted or named as a fault exactly as its batch, its answer and its deletion turn
    // out, and a listed key may also be left alone. What is counted is done with for good: the intent
    // is discarded, the asset's row and object are gone.
    method DispatchCleanupWake(wake: Id, nowMs: Ms)
      returns (result: Option<WakeResult>, ghost intents: seq<Intent>, ghost assets: seq<Asset>, ghost keys: seq<Key>,
               ghost passes: seq<Moment>)
      requires Explained() && Answers(queries) && wake !in world.wakes && NotMyWake(arrivals, wake)
      modifies this
      ensures Explained() && wake !in world.wakes && (result.None? <==> nowMs < 0)
      ensures result.None? ==> Here() == old(Here())
      ensures result.Some? ==>
                && Sweeps(old(Here()), wake, nowMs, intents, assets, keys, passes)
                && Here() == AfterTasks(passes[2], wake, KeyChecks(keys)).AtOnce(EndWake(wake, false))
      ensures result.Some? ==>
                && AreTheDue(intents, passes[0].Now().db, nowMs) && AreTheStale(assets, passes[0].Now().db, nowMs)
                && Lists(keys, passes[2].Now().objects.Keys)
      ensures result.Some? ==>
                && result.value.expiredIntents == Counted(passes[0], wake, Expiries(intents))
                && result.value.orphanAssets == Counted(passes[1], wake, Removals(assets))
                && result.value.reconciledObjects == Counted(passes[2], wake, KeyChecks(keys))
                && result.value.faults ==
                   FaultsOf(passes[0], wake, Expiries(intents)) + FaultsOf(passes[1], wake, Removals(assets))
                   + FaultsOf(passes[2], wake, KeyChecks(keys))
      ensures result.Some? ==>
                AllAchieved(world, passes[0], wake, Expiries(intents)) && AllAchieved(world, passes[1], wake, Removals(assets))
    {
      hide Run, Step, AllAchieved, Selects, AreTheDue, AreTheStale, Lists, WakeAt, NotMyWake, AfterTasks, Counted, FaultsOf;
      intents, assets, keys, passes := [], [], [], [];
      if nowMs < 0 { return None, intents, assets, keys, passes; }
      StartLands(world, wake);
      Perform(StartWake(wake));
      AwaitWake(wake, Wake(Sweeping, None));
      passes := [Here()];
      var intentRows, assetRows := queries.expired(world.db, nowMs), queries.orphans(world.db, nowMs);
      intents, assets := intentRows, assetRows;
      SelectsTheDue(intents, assets, world.db, nowMs);
      SelectsTheStale(intents, assets, world.db, nowMs);
      var expired, intentFaults := ExpireAll(wake, intentRows);
      passes := passes + [Here()];
      var orphans, assetFaults := DropAll(wake, assetRows);
      ghost var dropped := trace;
      var listed := queries.list(world.objects);
      keys := listed;
      ListLands(world, wake, listed);
      Perform(ListObjects(wake, listed));
      ListingKeepsTheStore(Run(EMPTY, dropped), wake, listed);
      passes := passes + [Here()];
      var reconciled, objectFaults := ReconcileAll(wake, listed);
      EndLands(world, wake);
      Perform(EndWake(wake, false));
      AllAchievedStay(passes[1].trace, trace, passes[0], wake, Expiries(intents));
      AllAchievedStay(dropped, trace, passes[1], wake, Removals(assets));
      return Some(WakeResult(expired, orphans, reconciled, intentFaults + assetFaults + objectFaults)),
             intents, assets, keys, passes;
    }

    method ExpireAll(wake: Id, intents: seq<Intent>) returns (expired: nat, faults: seq<Fault>)
      requires Explained() && NotMyWake(arrivals, wake) && WakeAt(world, wake, Wake(Sweeping, None))
      modifies this
      ensures Explained() && old(trace) <= trace && NotMyWake(arrivals, wake) && WakeAt(world, wake, Wake(Sweeping, None))
      ensures Here() == AfterTasks(old(Here()), wake, Expiries(intents))
      ensures expired == Counted(old(Here()), wake, Expiries(intents))
      ensures faults == FaultsOf(old(Here()), wake, Expiries(intents))
      ensures AllAchieved(world, old(Here()), wake, Expiries(intents))
    {
      hide Run, WakeAt, AfterTask, ResultOf, IsDiscarded, Gone;
      ghost var start, tasks := Here(), Expiries(intents);
      expired, faults := 0, [];
      for i := 0 to |intents|
        invariant Explained() && old(trace) <= trace && NotMyWake(arrivals, wake)
        invariant WakeAt(world, wake, Wake(Sweeping, None)) && Here() == AfterTasks(start, wake, tasks[..i])
        invariant expired == Counted(start, wake, tasks[..i]) && faults == FaultsOf(start, wake, tasks[..i])
        invariant AllAchieved(world, start, wake, tasks[..i])
      {
        ghost var before := trace;
        var done := ExpireOne(wake, intents[i]);
        NextTask(start, wake, tasks, i);
        OneMoreAchieved(before, trace, start, wake, tasks, i);
        if done { expired := expired + 1; } else { faults := faults + [IntentFault(intents[i].ref.id)]; }
      }
      assert tasks[..|intents|] == tasks;
    }

    method DropAll(wake: Id, assets: seq<Asset>) returns (orphans: nat, faults: seq<Fault>)
      requires Explained() && NotMyWake(arrivals, wake) && WakeAt(world, wake, Wake(Sweeping, None))
      modifies this
      ensures Explained() && old(trace) <= trace && NotMyWake(arrivals, wake) && WakeAt(world, wake, Wake(Sweeping, None))
      ensures Here() == AfterTasks(old(Here()), wake, Removals(assets))
      ensures orphans == Counted(old(Here()), wake, Removals(assets))
      ensures faults == FaultsOf(old(Here()), wake, Removals(assets))
      ensures AllAchieved(world, old(Here()), wake, Removals(assets))
    {
      hide Run, WakeAt, AfterTask, ResultOf, IsDiscarded, Gone;
      ghost var start, tasks := Here(), Removals(assets);
      orphans, faults := 0, [];
      for i := 0 to |assets|
        invariant Explained() && old(trace) <= trace && NotMyWake(arrivals, wake)
        invariant WakeAt(world, wake, Wake(Sweeping, None)) && Here() == AfterTasks(start, wake, tasks[..i])
        invariant orphans == Counted(start, wake, tasks[..i]) && faults == FaultsOf(start, wake, tasks[..i])
        invariant AllAchieved(world, start, wake, tasks[..i])
      {
        ghost var before := trace;
        var done := DropOne(wake, assets[i]);
        NextTask(start, wake, tasks, i);
        OneMoreAchieved(before, trace, start, wake, tasks, i);
        if done { orphans := orphans + 1; } else { faults := faults + [AssetFault(assets[i].ref.id)]; }
      }
      assert tasks[..|assets|] == tasks;
    }

    method ReconcileAll(wake: Id, keys: seq<Key>) returns (reconciled: nat, faults: seq<Fault>)
      requires Explained() && NotMyWake(arrivals, wake) && WakeAt(world, wake, Wake(Reconciling(keys), None))
      modifies this
      ensures Explained() && old(trace) <= trace && WakeAt(world, wake, Wake(Reconciling([]), None))
      ensures Here() == AfterTasks(old(Here()), wake, KeyChecks(keys))
      ensures reconciled == Counted(old(Here()), wake, KeyChecks(keys))
      ensures faults == FaultsOf(old(Here()), wake, KeyChecks(keys))
    {
      hide Run, WakeAt, AfterTask, ResultOf;
      ghost var start, tasks := Here(), KeyChecks(keys);
      reconciled, faults := 0, [];
      assert keys[0..] == keys;
      for i := 0 to |keys|
        invariant Explained() && old(trace) <= trace && NotMyWake(arrivals, wake)
        invariant WakeAt(world, wake, Wake(Reconciling(keys[i..]), None)) && Here() == AfterTasks(start, wake, tasks[..i])
        invariant reconciled == Counted(start, wake, tasks[..i]) && faults == FaultsOf(start, wake, tasks[..i])
      {
        assert keys[i..][1..] == keys[i + 1..];
        var outcome := ReconcileOne(wake, keys[i..]);
        NextTask(start, wake, tasks, i);
        match outcome {
          case None => faults := faults + [ObjectFault(keys[i])];
          case Some(deleted) => if deleted { reconciled := reconciled + 1; }
        }
      }
      assert tasks[..|keys|] == tasks;
    }

    // Terminalize in SQL first; only a stored intent has an object to delete. Done means the intent is
    // discarded and its object, if it had one, is gone; not done, that the batch was refused, an answer
    // was lost or the deletion refused.
    method ExpireOne(wake: Id, intent: Intent) returns (done: bool)
      requires Explained() && NotMyWake(arrivals, wake) && WakeAt(world, wake, Wake(Sweeping, None))
      modifies this
      ensures Explained() && old(trace) <= trace && NotMyWake(arrivals, wake) && WakeAt(world, wake, Wake(Sweeping, None))
      ensures Here() == AfterTask(old(Here()), wake, Expiry(intent))
      ensures ResultOf(old(Here()), Expiry(intent)) == if done then Some(true) else None
      ensures done ==> IsDiscarded(world.db, intent.ref)
      ensures done && intent.state == Stored ==> intent.key !in world.objects
    {
      hide Step, Run, Submit, WakeAt;
      AwaitWake(wake, Wake(Sweeping, None));
      var answered := NextAnswer();
      var committed := Commits(world, ExpireIntent(intent));
      ExpireLands(world, wake, intent, answered);
      Perform(Expire(wake, intent, answered));
      if !(committed && answered) { return false; }
      if intent.state != Stored { return true; }
      ghost var before := trace;
      done := DeleteOne(wake, Sweeping, intent.key);
      TraceGoesOnward(before, trace);
      DiscardedStays(Run(EMPTY, before), world, intent.ref);
    }

    method DropOne(wake: Id, asset: Asset) returns (done: bool)
      requires Explained() && NotMyWake(arrivals, wake) && WakeAt(world, wake, Wake(Sweeping, None))
      modifies this
      ensures Explained() && old(trace) <= trace && NotMyWake(arrivals, wake) && WakeAt(world, wake, Wake(Sweeping, None))
      ensures Here() == AfterTask(old(Here()), wake, Removal(asset))
      ensures ResultOf(old(Here()), Removal(asset)) == if done then Some(true) else None
      ensures done ==> Gone(world, asset.key)
    {
      hide Step, Run, Submit, WakeAt, WorldSound, AssetHasKey;
      AwaitWake(wake, Wake(Sweeping, None));
      EveryRunIsSound(trace);
      var answered := NextAnswer();
      var committed := Commits(world, DropOrphan(asset));
      DropLands(world, wake, asset, answered);
      Perform(Drop(wake, asset, answered));
      if !(committed && answered) { return false; }
      ghost var before := trace;
      done := DeleteOne(wake, Sweeping, asset.key);
      UnownedStays(before, trace, asset.key);
    }

    // The wake waits for its deletion; one that is refused is a fault, and may still land.
    method DeleteOne(wake: Id, ghost stage: Stage, ghost key: Key) returns (done: bool)
      requires Explained() && NotMyWake(arrivals, wake) && WakeAt(world, wake, Wake(stage, Some(key)))
      modifies this
      ensures Explained() && old(trace) <= trace && NotMyWake(arrivals, wake) && WakeAt(world, wake, Wake(stage, None))
      ensures Here() == AfterDeletion(old(Here()), wake) && done == old(Here()).Hears(0)
      ensures done ==> key !in world.objects
    {
      hide Step, Run, WakeAt;
      AwaitWake(wake, Wake(stage, Some(key)));
      done := NextAnswer();
      if done {
        DeleteLands(world, wake, stage, key);
        Perform(DeleteObject(wake));
      } else {
        var late := NextAnswer();
        RejectLands(world, wake, stage, key, late);
        Perform(RejectDelete(wake, late));
      }
    }

    // None is a fault; Some(false) is a referenced object, left alone.
    method ReconcileOne(wake: Id, keys: seq<Key>) returns (outcome: Option<bool>)
      requires Explained() && NotMyWake(arrivals, wake) && keys != [] && WakeAt(world, wake, Wake(Reconciling(keys), None))
      modifies this
      ensures Explained() && old(trace) <= trace && NotMyWake(arrivals, wake)
      ensures WakeAt(world, wake, Wake(Reconciling(keys[1..]), None))
      ensures Here() == AfterTask(old(Here()), wake, Check(keys[0])) && outcome == ResultOf(old(Here()), Check(keys[0]))
      ensures outcome == Some(false) ==> Referenced(world.db, keys[0])
      ensures outcome == Some(true) ==> keys[0] !in world.objects
    {
      hide Step, Run, Referenced, WakeAt;
      AwaitWake(wake, Wake(Reconciling(keys), None));
      var answered := NextAnswer();
      CheckLands(world, wake, keys, answered);
      var referenced := Referenced(world.db, keys[0]);
      Perform(CheckNext(wake, answered));
      if !answered { return None; }
      if referenced { return Some(false); }
      var done := DeleteOne(wake, Reconciling(keys[1..]), keys[0]);
      return if done then Some(true) else None;
    }
  }

  lemma ListingKeepsTheStore(w: World, id: Id, keys: seq<Key>)
    ensures Step(w, ListObjects(id, keys)).objects == w.objects
  {
    hide Lists;
  }

  lemma StartLands(w: World, id: Id)
    requires id !in w.wakes
    ensures WakeAt(Step(w, StartWake(id)), id, Wake(Sweeping, None))
  {
  }

  lemma EndLands(w: World, id: Id)
    requires WakeAt(w, id, Wake(Reconciling([]), None))
    ensures id !in Step(w, EndWake(id, false)).wakes
  {
  }

  lemma PersistLands(w: World, p: Id, snapshot: Intent, a: Id, contentType: string, content: Content, at: Ms)
    requires At(w, p, Upload(snapshot, a, Wrote(content)))
    requires Commits(w, PersistStored(snapshot, contentType, content, a, at))
    ensures forall again :: var s := Step(w, PersistUpload(p, contentType, at, true, again)).db;
              && snapshot.ref in s.intents && s.intents[snapshot.ref].stored == Some(content)
              && a in s.attempts && s.attempts[a].state == StoredBytes && s.attempts[a].stored == Some(content)
  {
    PersistCommits(snapshot, contentType, content, a, at, w.db,
                   Submit(PersistStored(snapshot, contentType, content, a, at), w.db).after);
  }
}
