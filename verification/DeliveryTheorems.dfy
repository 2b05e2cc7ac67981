// The main results about the outbound delivery ledger, over every interleaving of workers,
// recovery sweeps and late results.
module DeliveryTheorems {
  import opened Wrappers
  import opened AtomicBatch
  import opened Serializability
  import opened DeliveryLedger
  import opened DeliverySafety

  lemma RequestsKeepTheLedger(r: Request)
    ensures Preserves(LEDGER, LedgerSound, Later, WorkOf(r))
  {
    forall seen, s, s' | Admissible(LedgerSound, Later, seen, s) && CommitsTo(LEDGER, WorkOf(r), seen, s, s')
      ensures LedgerSound(s') && Later(s, s')
    {
      RequestCommits(r, seen, s, s');
    }
  }

  lemma RequestCommits(r: Request, seen: seq<Db>, s: Db, s': Db)
    requires Admissible(LedgerSound, Later, seen, s) && CommitsTo(LEDGER, WorkOf(r), seen, s, s')
    ensures LedgerSound(s') && Later(s, s')
  {
    match r
    case Claim(d, claim, now, leaseMs) => ClaimCommits(d, claim, now, leaseMs, seen, s, s');
    case Release(d, claim, now) => ReleaseCommits(d, claim, now, seen, s, s');
    case Start(i) => StartCommits(i, seen, s, s');
    case Complete(i) =>
      forall q | q in seen ensures Mirrored(q) { SoundIsMirrored(q); }
      CompleteCommits(i, seen, s, s');
  }

  // ---- Guards pin the decision -----------------------------------------------------------

  lemma SingleReadAlone(work: LedgerWork, s: Db)
    requires work.readLimit == 1 && work.decide([]).ReadMore?
    ensures Serial(work, s) == work.decide([s])
  {
    assert Repeat(s, 0) == [] && Repeat(s, 1) == [s];
    assert Alone(work, s, 0) == Alone(work, s, 1);
  }

  lemma ThreeReadsAlone(i: CompleteInput, s: Db)
    requires CompleteInputValid(i)
    ensures Serial(CompleteWork(i), s) == DecideComplete(s, s, s, i)
  {
    ReadsOfOneStateAreSerial(CompleteWork(i), s, 0, 3);
  }

  // Run alone at the commit state, every request decides the very same guards and writes; all but
  // a fenced completion also answer the same.
  lemma RequestDecidesAlike(r: Request, seen: seq<Db>, s: Db, s': Db)
    requires Admissible(LedgerSound, Later, seen, s) && CommitsTo(LEDGER, WorkOf(r), seen, s, s')
    ensures var there, here := WorkOf(r).decide(seen), Serial(WorkOf(r), s);
            && here.Finish? && here.guards == there.guards && here.writes == there.writes
            && (!r.Complete? || (r.completion.deliveryId in s.heads
                                 && s.heads[r.completion.deliveryId].HeldBy(r.completion.claimId)) ==>
                  here.value == there.value)
  {
    match r
    case Claim(d, claim, now, leaseMs) =>
      SingleReadAlone(WorkOf(r), s);
      ClaimEffect(d, claim, now, leaseMs, seen, s, s');
    case Release(d, claim, now) =>
      SingleReadAlone(WorkOf(r), s);
      ReleaseEffect(d, claim, now, seen, s, s');
    case Start(i) =>
      SingleReadAlone(WorkOf(r), s);
      StartEffect(i, seen, s, s');
    case Complete(i) =>
      SoundIsMirrored(s);
      forall q | q in seen ensures Mirrored(q) { SoundIsMirrored(q); }
      CompleteEffect(i, seen, s, s');
      ThreeReadsAlone(i, s);
  }

  lemma RequestsAreDetermined(r: Request)
    ensures Determined(LEDGER, LedgerSound, Later, WorkOf(r), !r.Complete?)
  {
    forall seen, s, s' | Admissible(LedgerSound, Later, seen, s) && CommitsTo(LEDGER, WorkOf(r), seen, s, s')
      ensures var alone := Serial(WorkOf(r), s);
              && alone.Finish? && LEDGER.Commit(alone.guards, alone.writes, s) == Committed(s')
              && (!r.Complete? ==> alone.value == WorkOf(r).decide(seen).value)
    {
      RequestDecidesAlike(r, seen, s, s');
    }
  }

  function WorksOf(requests: seq<Request>): seq<LedgerWork> {
    seq(|requests|, k requires 0 <= k < |requests| => WorkOf(requests[k]))
  }

  // ---- Every run -------------------------------------------------------------------------

  lemma EveryRunKeepsTheLedger(requests: seq<Request>, db: Db, maximumAttempts: nat, schedule: seq<nat>)
    requires LedgerSound(db)
    ensures var y := Run(LEDGER, Begin(db, WorksOf(requests), maximumAttempts), schedule);
            LedgerSound(y.db) && Later(db, y.db)
  {
    LaterIsAnOrder();
    forall k | 0 <= k < |requests| ensures Preserves(LEDGER, LedgerSound, Later, WorksOf(requests)[k]) {
      RequestsKeepTheLedger(requests[k]);
    }
    RunSound(LEDGER, LedgerSound, Later, WorksOf(requests), db, maximumAttempts, schedule);
  }

  lemma EveryRunIsSerial(requests: seq<Request>, db: Db, maximumAttempts: nat, schedule: seq<nat>)
    requires LedgerSound(db)
    ensures SerialSoFar(LEDGER, LedgerSound, Later, WorksOf(requests), db,
                        Run(LEDGER, Begin(db, WorksOf(requests), maximumAttempts), schedule))
  {
    LaterIsAnOrder();
    forall k | 0 <= k < |requests|
      ensures Preserves(LEDGER, LedgerSound, Later, WorksOf(requests)[k])
      ensures Determined(LEDGER, LedgerSound, Later, WorksOf(requests)[k], false)
    {
      RequestsKeepTheLedger(requests[k]);
      RequestsAreDetermined(requests[k]);
    }
    Serializable(LEDGER, LedgerSound, Later, WorksOf(requests), db, maximumAttempts, schedule);
  }

  // ---- Terminal outcomes absorb ----------------------------------------------------------

  // Once a delivery is accepted, terminally rejected or has used up its marked resend, the row
  // never changes again, whoever runs whatever.
  lemma SettledForever(requests: seq<Request>, db: Db, maximumAttempts: nat, schedule: seq<nat>, more: seq<nat>, d: Id)
    requires LedgerSound(db) && d in db.heads
    ensures var begin := Begin(db, WorksOf(requests), maximumAttempts);
            var now, then_ := Run(LEDGER, begin, schedule).db, Run(LEDGER, begin, schedule + more).db;
            && d in now.heads && d in then_.heads
            && (now.heads[d].Settled() ==> then_.heads[d] == now.heads[d] && now.heads[d].lease.None?)
  {
    EveryRunKeepsTheLedger(requests, db, maximumAttempts, schedule);
    LaterIsAnOrder();
    forall k | 0 <= k < |requests| ensures Preserves(LEDGER, LedgerSound, Later, WorksOf(requests)[k]) {
      RequestsKeepTheLedger(requests[k]);
    }
    RunMonotone(LEDGER, LedgerSound, Later, WorksOf(requests), db, maximumAttempts, schedule, more);
    var now := Run(LEDGER, Begin(db, WorksOf(requests), maximumAttempts), schedule).db;
    assert HeadSound(now.heads[d], now.attempts, d);
  }

  lemma SettledRefusesClaimsAndStarts(r: Request, d: Id, seen: seq<Db>, s: Db, s': Db)
    requires Readable(seen, s) && d in s.heads && s.heads[d].Settled()
    requires (r.Claim? && r.deliveryId == d) || (r.Start? && r.start.deliveryId == d)
    ensures !CommitsTo(LEDGER, WorkOf(r), seen, s, s')
  {
    if CommitsTo(LEDGER, WorkOf(r), seen, s, s') {
      match r
      case Claim(_, claim, now, leaseMs) => ClaimEffect(d, claim, now, leaseMs, seen, s, s');
      case Start(i) => StartEffect(i, seen, s, s');
    }
  }

  // At most one attempt of a delivery is ever accepted, and at most one is in flight.
  lemma AtMostOneAcceptedAttempt(s: Db, a: Id, b: Id)
    requires LedgerSound(s) && a in s.attempts && b in s.attempts
    requires s.attempts[a].deliveryId == s.attempts[b].deliveryId
    requires Blocks(s.attempts[a]) && Blocks(s.attempts[b])
    ensures a == b
  {
    assert AttemptSound(a, s.heads, s.attempts) && AttemptSound(b, s.heads, s.attempts);
  }

  // ---- Fencing ---------------------------------------------------------------------------

  // One more fact, pointer and history row, which name each other; nothing else moved in these.
  ghost predicate GrowsByOneTriple(s: Db, s': Db) {
    && |s'.facts| == |s.facts| + 1 && |s'.outbox| == |s.outbox| + 1 && |s'.history| == |s.history| + 1
    && s.facts <= s'.facts && s.outbox <= s'.outbox && s.history <= s'.history
    && Triple(s'.facts[|s.facts|], s'.outbox[|s.outbox|], s'.history[|s.history|])
    && s'.history[|s.history|].sequence == NextSequence(s.history, s'.history[|s.history|].threadId)
  }

  // The snapshots a session may hold in a sound ledger.
  ghost predicate Readable(seen: seq<Db>, s: Db) {
    Mirrored(s) && forall r :: r in seen ==> Mirrored(r) && Later(r, s)
  }

  lemma AdmissibleIsReadable(seen: seq<Db>, s: Db)
    requires Admissible(LedgerSound, Later, seen, s)
    ensures Readable(seen, s)
  {
    SoundIsMirrored(s);
    forall r | r in seen ensures Mirrored(r) && Later(r, s) { SoundIsMirrored(r); }
  }

  // A completion that commits while its claim does not hold the lease changes no head and no
  // attempt: it only records what the late worker observed.
  lemma LateCompletionOnlyAddsEvidence(i: CompleteInput, seen: seq<Db>, s: Db, s': Db)
    requires Readable(seen, s) && CommitsTo(LEDGER, CompleteWork(i), seen, s, s')
    requires i.deliveryId in s.heads && !s.heads[i.deliveryId].HeldBy(i.claimId)
    ensures s'.heads == s.heads && s'.attempts == s.attempts && GrowsByOneTriple(s, s')
    ensures var payload := s'.facts[|s.facts|].payload;
            payload.FencedObservation? && payload.observed == i.state && payload.answer == i.answer
    ensures s'.history[|s.history|].summary == AcceptanceUnknown
    ensures i.deliveryId in seen[0].heads
    ensures CompleteWork(i).decide(seen).value == Completed(true, seen[0].heads[i.deliveryId].View())
  {
    CompleteEffect(i, seen, s, s');
  }

  ghost predicate OnlyThisChanged<T>(before: map<Id, T>, after: map<Id, T>, id: Id) {
    before.Keys == after.Keys && forall x :: x in before && x != id ==> after[x] == before[x]
  }

  // A completion whose claim holds the lease resolves exactly its attempt, tells the truth about
  // it, and returns exactly the head it committed, although its batch does not check a version.
  lemma UnfencedCompletionReturnsTheCommittedHead(i: CompleteInput, seen: seq<Db>, s: Db, s': Db)
    requires Readable(seen, s) && CommitsTo(LEDGER, CompleteWork(i), seen, s, s')
    requires i.deliveryId in s.heads && s.heads[i.deliveryId].HeldBy(i.claimId)
    ensures OnlyThisChanged(s.heads, s'.heads, i.deliveryId) && OnlyThisChanged(s.attempts, s'.attempts, i.attemptId)
    ensures i.attemptId in s.attempts && s.attempts[i.attemptId].state == RequestStarted
    ensures s'.attempts[i.attemptId].state == s'.heads[i.deliveryId].state == i.state
    ensures s'.heads[i.deliveryId].lease.None? && GrowsByOneTriple(s, s')
    ensures RecordsTruthfully(s'.facts[|s.facts|], s'.attempts[i.attemptId])
    ensures CompleteWork(i).decide(seen).value == Completed(false, s'.heads[i.deliveryId].View())
  {
    CompleteEffect(i, seen, s, s');
    ResolutionIsRecorded(i, s);
  }

  // ---- Numbers without gaps --------------------------------------------------------------

  lemma AttemptNumbersAreExact(s: Db, d: Id, n: nat)
    requires LedgerSound(s) && d in s.heads
    ensures NumberTaken(s.attempts, d, n) <==> 1 <= n <= s.heads[d].attemptCount
    ensures forall a, b | a in s.attempts && b in s.attempts ::
              (s.attempts[a].deliveryId == s.attempts[b].deliveryId == d
               && s.attempts[a].number == s.attempts[b].number == n) ==> a == b
  {
    assert HeadSound(s.heads[d], s.attempts, d);
    assert forall a :: a in s.attempts ==> AttemptSound(a, s.heads, s.attempts);
  }

  ghost predicate HasSequence(rows: seq<HistoryRow>, thread: Id, n: nat) {
    exists i :: 0 <= i < |rows| && rows[i].threadId == thread && rows[i].sequence == n
  }

  lemma OneMoreSequence(rows: seq<HistoryRow>, row: HistoryRow, thread: Id, n: nat)
    ensures HasSequence(rows + [row], thread, n) <==>
            HasSequence(rows, thread, n) || (row.threadId == thread && row.sequence == n)
  {
    var all := rows + [row];
    if HasSequence(rows, thread, n) {
      var i :| 0 <= i < |rows| && rows[i].threadId == thread && rows[i].sequence == n;
      assert all[i] == rows[i];
    }
    assert all[|rows|] == row;
  }

  // A thread's sequence numbers are exactly 0, 1, 2, ...
  lemma {:induction false} ThreadHasNoGap(rows: seq<HistoryRow>, thread: Id, n: nat)
    requires HistoryContiguous(rows)
    ensures HasSequence(rows, thread, n) <==> n < NextSequence(rows, thread)
  {
    if rows != [] {
      var k := |rows| - 1;
      PrefixContiguous(rows, k);
      ThreadHasNoGap(rows[..k], thread, n);
      assert rows == rows[..k] + [rows[k]] && rows[k].sequence == NextSequence(rows[..k], rows[k].threadId);
      OneMoreSequence(rows[..k], rows[k], thread, n);
    }
  }

  lemma PrefixContiguous(rows: seq<HistoryRow>, k: nat)
    requires HistoryContiguous(rows) && k <= |rows|
    ensures HistoryContiguous(rows[..k])
  {
    assert forall i :: 0 <= i < k ==> rows[..k][i] == rows[i] && rows[..k][..i] == rows[..i];
  }

  // ... in the order the rows were inserted, so no number occurs twice.
  lemma ThreadIsInOrder(rows: seq<HistoryRow>, i: nat, j: nat)
    requires HistoryContiguous(rows) && i < j < |rows| && rows[i].threadId == rows[j].threadId
    ensures rows[i].sequence < rows[j].sequence
  {
    PrefixContiguous(rows, j);
    assert rows[..j][i] == rows[i] && HasSequence(rows[..j], rows[j].threadId, rows[i].sequence);
    ThreadHasNoGap(rows[..j], rows[j].threadId, rows[i].sequence);
  }

  // ---- A request that runs alone ----------------------------------------------------------

  lemma SelfAdmissible(seen: seq<Db>, s: Db)
    requires LedgerSound(s) && forall i :: 0 <= i < |seen| ==> seen[i] == s
    ensures Admissible(LedgerSound, Later, seen, s)
  {
    hide LedgerSound;
    assert Later(s, s);
  }

  lemma AdmissibleCommitIsSound(r: Request, seen: seq<Db>, s: Db, s': Db)
    requires Admissible(LedgerSound, Later, seen, s) && CommitsTo(LEDGER, WorkOf(r), seen, s, s')
    ensures LedgerSound(s')
  {
    hide LedgerSound, Later, Admissible;
    RequestCommits(r, seen, s, s');
  }

  // A request that runs alone keeps the ledger sound.
  lemma AloneIsSound(r: Request, s: Db, s': Db)
    requires LedgerSound(s) && s' == SerialState(LEDGER, WorkOf(r), s)
    ensures LedgerSound(s')
  {
    hide LedgerSound, Later, Admissible;
    if s' != s {
      var seen := AloneReads(r, s);
      SelfAdmissible(seen, s);
      AdmissibleCommitIsSound(r, seen, s, s');
    }
  }

  lemma AloneReads(r: Request, s: Db) returns (seen: seq<Db>)
    requires SerialState(LEDGER, WorkOf(r), s) != s
    ensures CommitsTo(LEDGER, WorkOf(r), seen, s, SerialState(LEDGER, WorkOf(r), s))
    ensures seen == if r.Complete? then [s, s, s] else [s]
  {
    if r.Complete? {
      if CompleteInputValid(r.completion) { ThreeReadsAlone(r.completion, s); }
      seen := [s, s, s];
    } else {
      if WorkOf(r).decide([]).ReadMore? { SingleReadAlone(WorkOf(r), s); }
      seen := [s];
    }
  }

  // ---- When a request goes through alone -------------------------------------------------

  lemma ClaimRuns(s: Db, d: Id, claimId: Id, now: Ms, leaseMs: int)
    requires d in s.heads && HeadAllowed(s.heads[d], s.heads[d]) && s.heads[d].Claimable() && s.heads[d].lease.None?
    requires leaseMs > 0 && now >= 0
    ensures SerialState(LEDGER, ClaimWork(d, claimId, now, leaseMs), s) ==
            LeaseSet(s, d, Some(Lease(claimId, now, now + leaseMs)), now)
  {
    SingleReadAlone(ClaimWork(d, claimId, now, leaseMs), s);
    ApplyOne(LEDGER, TakeLease(d, Lease(claimId, now, now + leaseMs)), s);
  }

  lemma FreeNumber(s: Db, d: Id)
    requires LedgerSound(s) && d in s.heads
    ensures !NumberTaken(s.attempts, d, s.heads[d].attemptCount + 1)
  {
    AttemptNumbersAreExact(s, d, s.heads[d].attemptCount + 1);
  }

  predicate StartAcceptable(s: Db, i: StartInput) {
    && i.leaseMs > 0 && (i.kind == MarkedResend <==> i.resendDigest.Some?)
    && i.deliveryId in s.heads && i.attemptId !in s.attempts
    && var h := s.heads[i.deliveryId];
    && h.refs.receiptId.Some? && h.version == i.expectedVersion && h.lease.Some? && h.lease.value.claimId == i.claimId
    && (h.state == Idle || h.state == SafeRetryable || (h.state == AcceptanceUnknown && !h.exhausted))
    && (i.kind == MarkedResend <==> h.unknownCount > 0 && i.capability != NativeKey)
    && i.resendDigest != Some(h.refs.envelopeDigest)
    && i.startedAt >= 0 && i.startedAt >= h.refs.createdAt
  }

  lemma StartBatch(s: Db, i: StartInput)
    requires DecideStart(s, i).Finish? && i.attemptId !in s.attempts && i.leaseMs > 0
    requires !NumberTaken(s.attempts, i.deliveryId, s.heads[i.deliveryId].attemptCount + 1)
    requires HeadAllowed(s.heads[i.deliveryId], s.heads[i.deliveryId])
    ensures LEDGER.ApplyAll(DecideStart(s, i).writes, s) ==
            if i.startedAt >= 0 && i.startedAt >= s.heads[i.deliveryId].refs.createdAt
            then Some(AttemptStarted(s, i)) else None
  {
    var first, second := DecideStart(s, i).writes[0], DecideStart(s, i).writes[1];
    assert DecideStart(s, i).writes == [first, second];
    TwoApply(first, second, s);
  }

  lemma TwoApply(first: Write, second: Write, s: Db)
    ensures LEDGER.ApplyAll([first, second], s) ==
            match Apply(first, s) case None => None case Some(t) => Apply(second, t)
  {
    hide Apply;
    assert [first, second] == [first] + [second];
    ApplyAllAppend(LEDGER, [first], [second], s);
    ApplyOne(LEDGER, first, s);
    if Apply(first, s).Some? { ApplyOne(LEDGER, second, Apply(first, s).value); }
  }

  lemma StartRunsExactlyWhenAcceptable(s: Db, i: StartInput)
    requires i.deliveryId in s.heads ==>
               && HeadAllowed(s.heads[i.deliveryId], s.heads[i.deliveryId])
               && !NumberTaken(s.attempts, i.deliveryId, s.heads[i.deliveryId].attemptCount + 1)
    ensures var alone := Serial(StartWork(i), s);
            (alone.Finish? && LEDGER.Commit(alone.guards, alone.writes, s).Committed?) <==> StartAcceptable(s, i)
    ensures StartAcceptable(s, i) ==> SerialState(LEDGER, StartWork(i), s) == AttemptStarted(s, i)
  {
    if StartInputValid(i) {
      SingleReadAlone(StartWork(i), s);
      if DecideStart(s, i).Finish? && i.attemptId !in s.attempts { StartBatch(s, i); }
    } else {
      assert Alone(StartWork(i), s, 0).Fail?;
    }
  }

  // In a sound ledger no constraint stands between a start whose preconditions hold and its
  // commit: the attempt number is always free, and only a clock before the delivery aborts it.
  lemma StartCommitsExactlyWhenAcceptable(s: Db, i: StartInput)
    requires LedgerSound(s) && (i.deliveryId in s.heads ==> HeadAllowed(s.heads[i.deliveryId], s.heads[i.deliveryId]))
    ensures var alone := Serial(StartWork(i), s);
            (alone.Finish? && LEDGER.Commit(alone.guards, alone.writes, s).Committed?) <==> StartAcceptable(s, i)
  {
    if i.deliveryId in s.heads { FreeNumber(s, i.deliveryId); }
    StartRunsExactlyWhenAcceptable(s, i);
  }
}
