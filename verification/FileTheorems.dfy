// The main results about Files, over every list of events from an empty workspace.
module FileTheorems {
  import opened Wrappers
  import opened AtomicBatch
  import opened FileListing
  import opened FileTransfers
  import opened FileWorld
  import opened FileSafety
  import opened FileRuns

  lemma EveryRunIsSound(events: seq<Event>)
    ensures WorldSound(Run(EMPTY, events))
  {
    assert WorldSound(EMPTY);
    RunKeeps(EMPTY, events);
  }

  lemma {:induction false} RunsMoveForward(w: World, events: seq<Event>)
    requires WorldSound(w)
    ensures TablesLater(w.db, Run(w, events).db)
    decreases |events|
  {
    hide WorldSound;
    if events == [] {
      LaterReflexive(w.db);
    } else {
      var n := |events| - 1;
      RunsMoveForward(w, events[..n]);
      RunKeeps(w, events[..n]);
      StepKeeps(Run(w, events[..n]), events[n]);
      LaterTransitive(w.db, Run(w, events[..n]).db, Run(w, events).db);
    }
  }

  lemma LaterTransitive(r: Db, s: Db, t: Db)
    requires TablesLater(r, s) && TablesLater(s, t)
    ensures TablesLater(r, t)
  {
    forall i | i in r.intents ensures i in t.intents && IntentLater(r.intents[i], t.intents[i]) {
      assert IntentLater(r.intents[i], s.intents[i]) && IntentLater(s.intents[i], t.intents[i]);
    }
    forall a | a in r.attempts ensures a in t.attempts && AttemptLater(r.attempts[a], t.attempts[a]) {
      assert AttemptLater(r.attempts[a], s.attempts[a]) && AttemptLater(s.attempts[a], t.attempts[a]);
    }
    forall i | i in r.intents && r.intents[i].state == Confirmed && !AssetHasKey(r.assets, r.intents[i].key)
      ensures !AssetHasKey(t.assets, r.intents[i].key)
    {
      assert IntentLater(r.intents[i], s.intents[i]);
    }
  }

  // ---- Object deletion is safe without a shared transaction ------------------------------

  // A key that any wake may still delete belongs to no pending or stored intent and to no asset,
  // now and in every continuation of the run.
  lemma DoomedKeysAreNeverWanted(events: seq<Event>, more: seq<Event>, key: Key)
    requires Condemned(Run(EMPTY, events).wakes, Run(EMPTY, events).late, key)
    ensures var s := Run(Run(EMPTY, events), more).db;
            && !AssetHasKey(s.assets, key)
            && forall r :: r in s.intents && s.intents[r].key == key ==>
                 s.intents[r].state == Discarded || s.intents[r].state == Confirmed
  {
    var w := Run(EMPTY, events);
    EveryRunIsSound(events);
    RunsMoveForward(w, more);
    RunKeeps(w, more);
    DeadStays(w.db, Run(w, more).db, key);
    DeadIsUnwanted(Run(w, more).db, key);
  }

  lemma DeadIsUnwanted(s: Db, key: Key)
    requires TablesSound(s) && Dead(s, key)
    ensures !AssetHasKey(s.assets, key)
    ensures forall r :: r in s.intents && s.intents[r].key == key ==>
              s.intents[r].state == Discarded || s.intents[r].state == Confirmed
  {
    forall r | r in s.intents && s.intents[r].key == key ensures r == key.ref {
      assert IntentSound(r, s.intents[r], s.attempts);
    }
    forall a | a in s.assets ensures s.assets[a].key != key {
      assert AssetSound(a, s.assets, s.intents);
    }
  }

  // The bytes survive: in every reachable state a stored intent and a retained asset find exactly
  // the object they describe, whatever uploads, late writes and wakes are running.
  lemma StoredBytesSurvive(events: seq<Event>, r: Ref)
    ensures var w := Run(EMPTY, events);
            && (r in w.db.intents && w.db.intents[r].state == Stored ==>
                  w.db.intents[r].stored.Some? && Backed(w.objects, w.db.intents[r].key, w.db.intents[r].stored.value))
            && (r in w.db.assets ==> Backed(w.objects, w.db.assets[r].key, w.db.assets[r].content))
  {
    var w := Run(EMPTY, events);
    EveryRunIsSound(events);
    if r in w.db.intents { assert IntentSound(r, w.db.intents[r], w.db.attempts); }
  }

  // ---- The attempt protocol --------------------------------------------------------------

  // Five attempts ever, one of them effective, and stored bytes are the stored attempt's bytes.
  lemma AttemptsAreBounded(events: seq<Event>, r: Ref, a: Id, b: Id)
    requires var s := Run(EMPTY, events).db; r in s.intents && a in s.attempts && b in s.attempts
    requires var s := Run(EMPTY, events).db; s.attempts[a].ref == s.attempts[b].ref == r
    ensures var s := Run(EMPTY, events).db;
            && |AttemptsOf(s.attempts, r)| <= 5
            && (s.attempts[a].Effective() && s.attempts[b].Effective() ==> a == b)
            && (s.attempts[a].state == StoredBytes ==>
                  s.intents[r].stored.Some? && s.attempts[a].stored == s.intents[r].stored)
            && (s.intents[r].stored.Some? ==> HasStored(s.attempts, r))
  {
    var s := Run(EMPTY, events).db;
    EveryRunIsSound(events);
    assert IntentSound(r, s.intents[r], s.attempts) && AttemptSound(a, s.attempts, s.intents);
  }

  // An attempt resolves at most once and is never lost.
  lemma AttemptsResolveOnce(events: seq<Event>, more: seq<Event>, a: Id)
    requires a in Run(EMPTY, events).db.attempts
    ensures var s, t := Run(EMPTY, events).db, Run(Run(EMPTY, events), more).db;
            && a in t.attempts && t.attempts[a].ref == s.attempts[a].ref && t.attempts[a].key == s.attempts[a].key
            && (s.attempts[a].state != Claimed ==> t.attempts[a] == s.attempts[a])
  {
    var w := Run(EMPTY, events);
    EveryRunIsSound(events);
    RunsMoveForward(w, more);
    assert AttemptLater(w.db.attempts[a], Run(w, more).db.attempts[a]);
  }

  // A claim goes through exactly when the snapshot is still the pending head, fewer than five
  // attempts were made, none of them is in flight, stored or ambiguous, and the id is fresh.
  lemma ClaimSucceedsExactlyWhen(s: Db, intent: Intent, a: Id, at: Ms)
    ensures Submit(Claim(intent, a, at), s).Committed? <==>
            && StoresIntent(s, intent) && intent.state.Pending? && at >= 0
            && |AttemptsOf(s.attempts, intent.ref)| < 5 && !HasEffective(s.attempts, intent.ref) && a !in s.attempts
  {
    var u := Claim(intent, a, at);
    ApplyOne(FILES, u.writes[0], s);
    if FILES.AllHold(u.guards, s) { assert Holds(u.guards[0], s) && Holds(u.guards[1], s); }
  }

  // What claimUploadAttempt reads back after a failed claim tells the three refusals apart.
  datatype ClaimRefusal = Active | Exhausted | Stale | Rethrow

  function Classify(s: Db, intent: Intent): ClaimRefusal {
    if HasEffective(s.attempts, intent.ref) then Active
    else if |AttemptsOf(s.attempts, intent.ref)| >= MAXIMUM_UPLOAD_ATTEMPTS_PER_INTENT then Exhausted
    else if !(StoresIntent(s, intent) && intent.state.Pending?) then Stale
    else Rethrow
  }

  // If nothing happened in between, an error is rethrown only for a used attempt id or a clock
  // before the epoch.
  lemma FailedClaimIsExplained(s: Db, intent: Intent, a: Id, at: Ms)
    requires !Submit(Claim(intent, a, at), s).Committed?
    ensures Classify(s, intent) == Rethrow <==>
            StoresIntent(s, intent) && intent.state.Pending? && |AttemptsOf(s.attempts, intent.ref)| < 5
            && !HasEffective(s.attempts, intent.ref) && (a in s.attempts || at < 0)
    ensures Classify(s, intent) == Active <==>
            exists b :: b in s.attempts && s.attempts[b].ref == intent.ref && s.attempts[b].state != SafeRefusal
    ensures Classify(s, intent) == Exhausted <==>
            |AttemptsOf(s.attempts, intent.ref)| >= 5
            && forall b :: b in s.attempts && s.attempts[b].ref == intent.ref ==> s.attempts[b].state == SafeRefusal
    ensures Classify(s, intent) == Stale ==> !(StoresIntent(s, intent) && intent.state.Pending?)
  {
    ClaimSucceedsExactlyWhen(s, intent, a, at);
  }

  // ---- Objects that never come back ------------------------------------------------------

  // An object nobody is deleting, whose asset row is gone but whose intent was confirmed: the
  // reconciliation pass counts the confirmed intent as a reference, in every continuation.
  lemma {:induction false} ConfirmedStrandedForever(w: World, key: Key, more: seq<Event>)
    requires WorldSound(w) && !Condemned(w.wakes, w.late, key)
    requires key.ref in w.db.intents && w.db.intents[key.ref].state == Confirmed && !AssetHasKey(w.db.assets, key)
    ensures !Condemned(Run(w, more).wakes, Run(w, more).late, key)
    decreases |more|
  {
    if more != [] {
      var n := |more| - 1;
      var v := Run(w, more[..n]);
      ConfirmedStrandedForever(w, key, more[..n]);
      RunKeeps(w, more[..n]);
      RunsMoveForward(w, more[..n]);
      StrandedNow(w, v, key);
      StrandedStep(v, key, more[n]);
    }
  }

  lemma StrandedNow(w: World, v: World, key: Key)
    requires WorldSound(w) && WorldSound(v) && TablesLater(w.db, v.db)
    requires key.ref in w.db.intents && w.db.intents[key.ref].state == Confirmed && !AssetHasKey(w.db.assets, key)
    ensures key.ref in v.db.intents && v.db.intents[key.ref].state == Confirmed && !AssetHasKey(v.db.assets, key)
    ensures v.db.intents[key.ref].key == key
  {
    assert IntentSound(key.ref, w.db.intents[key.ref], w.db.attempts);
    assert IntentLater(w.db.intents[key.ref], v.db.intents[key.ref]);
  }

  // A key comes to be condemned by an answered expiry, sweep or check.
  lemma OnlyCleanupCondemns(v: World, e: Event, key: Key)
    requires !e.Expire? && !e.Drop? && !e.CheckNext? && !Condemned(v.wakes, v.late, key)
    ensures !Condemned(Step(v, e).wakes, Step(v, e).late, key)
  {
    hide Lists, StepWake, AfterUnit, Uncertain, Mints, Condemned;
    if e.RejectDelete? || e.EndWake? || e.DeleteObject? || e.LateDelete? || e.StartWake? || e.ListObjects? {
      OtherWakeStepsCondemnNothing(v, e, key);
    } else {
      RequestsCondemnNothing(v, e);
    }
  }

  lemma OtherWakeStepsCondemnNothing(v: World, e: Event, key: Key)
    requires e.RejectDelete? || e.EndWake? || e.DeleteObject? || e.LateDelete? || e.StartWake? || e.ListObjects?
    requires !Condemned(v.wakes, v.late, key)
    ensures !Condemned(Step(v, e).wakes, Step(v, e).late, key)
  {
    hide Lists;
  }

  lemma RequestsCondemnNothing(v: World, e: Event)
    requires !e.RejectDelete? && !e.EndWake? && !e.DeleteObject? && !e.LateDelete? && !e.StartWake? && !e.ListObjects?
    requires !e.Expire? && !e.Drop? && !e.CheckNext?
    ensures Step(v, e).wakes == v.wakes && Step(v, e).late == v.late
  {
    hide Submit, Uncertain, Mints;
  }

  lemma StrandedStep(v: World, key: Key, e: Event)
    requires WorldSound(v) && !Condemned(v.wakes, v.late, key)
    requires key.ref in v.db.intents && v.db.intents[key.ref].key == key
    requires v.db.intents[key.ref].state == Confirmed && !AssetHasKey(v.db.assets, key)
    ensures !Condemned(Step(v, e).wakes, Step(v, e).late, key)
  {
    hide WorldSound, Submit;
    match e
    case Expire(_, intent, answered) =>
      if Commits(v, ExpireIntent(intent)) { ExpiredKey(v, intent); }
    case Drop(_, asset, answered) =>
      if Commits(v, DropOrphan(asset)) { DropCommits(asset, v.db, Submit(DropOrphan(asset), v.db).after); }
    case CheckNext(id, _) => assert Referenced(v.db, key);
    case _ => OnlyCleanupCondemns(v, e, key);
  }

  lemma ExpiredKey(v: World, intent: Intent)
    requires WorldSound(v) && Commits(v, ExpireIntent(intent))
    ensures StoresIntent(v.db, intent) && intent.key == NewStorageKey(intent.ref) && intent.state != Confirmed
  {
    DiscardCommits(ExpireIntent(intent), intent, v.db, Submit(ExpireIntent(intent), v.db).after);
    assert IntentSound(intent.ref, intent, v.db.attempts);
  }
}
