// The ledger class of apps/cloudflare-worker/src/d1-outbound-email-delivery.ts: each call runs one
// unit of work on a database other workers are using. What a call promises is stated on the last
// entry of the journal -- its own batch -- relying only on the others keeping the ledger sound.
module OutboundDelivery {
  import opened Wrappers
  import opened AtomicBatch
  import opened Serializability
  import opened DeliveryLedger
  import opened DeliverySafety
  import opened DeliveryTheorems

  const MAXIMUM_ATTEMPTS := 3

  type LedgerDatabase = Database<Db, Guard, Write>
  type Journal = seq<Entry<Db>>

  ghost predicate OthersAreLawful(journal: Journal, from: nat, start: Db) {
    Rely(LedgerSound, Later, journal, from, start)
  }

  // The session's own batch is the journal's last entry, the tables are what it left, and they are
  // sound.
  ghost predicate OwnBatch(journal: Journal, from: nat, tables: Db) {
    && |journal| > from && OthersOnly(journal[..|journal| - 1], from)
    && journal[|journal| - 1].own && journal[|journal| - 1].after == tables && LedgerSound(tables)
  }

  // What a caller is shown of a head, column by column.
  predicate Shows(view: HeadView, h: Head) {
    && view.refs == h.refs && view.state == h.state && view.version == h.version && view.attemptCount == h.attemptCount
    && view.unknownCount == h.unknownCount && view.exhausted == h.exhausted && view.currentAttempt == h.currentAttempt
    && match h.lease
       case None => view.leaseClaimId.None? && view.leaseExpiresAt.None?
       case Some(l) => view.leaseClaimId == Some(l.claimId) && view.leaseExpiresAt == Some(l.expiresAt)
  }

  // A claim leases a head that is neither leased nor settled, and writes the lease and the time.
  ghost predicate Claims(before: Db, after: Db, d: Id, claimId: Id, now: Ms, leaseMs: int, head: HeadView) {
    && d in before.heads
    && var h := before.heads[d];
       && h.state != Accepted && h.state != RejectedTerminal && !(h.state == AcceptanceUnknown && h.exhausted)
       && (h.lease.Some? ==> h.lease.value.expiresAt <= now)
       && var leased := Head(h.refs, h.state, h.version, h.attemptCount, h.unknownCount, h.exhausted, h.currentAttempt,
                             Some(Lease(claimId, now, now + leaseMs)), if h.updatedAt < now then now else h.updatedAt);
          after == before.(heads := before.heads[d := leased]) && Shows(head, leased)
  }

  // A release drops the lease the claim holds, unless an attempt is open.
  ghost predicate Releases(before: Db, after: Db, d: Id, claimId: Id, now: Ms) {
    && d in before.heads
    && var h := before.heads[d];
       && h.lease.Some? && h.lease.value.claimId == claimId && h.state != RequestStarted
       && after == before.(heads := before.heads[d :=
            Head(h.refs, h.state, h.version, h.attemptCount, h.unknownCount, h.exhausted, h.currentAttempt, None,
                 if h.updatedAt < now then now else h.updatedAt)])
  }

  // A start opens the next attempt of a head it holds: a marked resend, with an envelope of its own,
  // after an unknown unless the provider deduplicates; otherwise the reviewed envelope.
  ghost predicate Starts(before: Db, after: Db, i: StartInput, attempt: Attempt) {
    && i.deliveryId in before.heads && i.attemptId !in before.attempts
    && var h := before.heads[i.deliveryId];
       && h.lease.Some? && h.lease.value.claimId == i.claimId && h.version == i.expectedVersion
       && (h.state == Idle || h.state == SafeRetryable || (h.state == AcceptanceUnknown && !h.exhausted))
       && (i.kind == MarkedResend <==> h.unknownCount > 0 && i.capability != NativeKey)
       && (i.kind == MarkedResend ==> i.resendDigest.Some? && i.resendDigest.value != h.refs.envelopeDigest)
       && attempt == Attempt(i.deliveryId, h.attemptCount + 1, i.kind, RequestStarted,
                             if i.kind == MarkedResend then i.resendDigest.value else h.refs.envelopeDigest,
                             Answer(None, None, None, None), i.startedAt, None)
       && after == before.(
            attempts := before.attempts[i.attemptId := attempt],
            heads := before.heads[i.deliveryId :=
              Head(h.refs, RequestStarted, h.version + 1, h.attemptCount + 1, h.unknownCount, h.exhausted,
                   Some(i.attemptId), Some(Lease(i.claimId, i.startedAt, i.startedAt + i.leaseMs)), i.startedAt)])
  }

  // The resolution tells what was observed of the attempt, and the head that it did.
  ghost predicate Lands(before: Db, after: Db, i: CompleteInput, head: HeadView)
    requires i.deliveryId in before.heads && i.attemptId in before.attempts
  {
    var h, row := before.heads[i.deliveryId], before.attempts[i.attemptId];
    var unknown := i.state == AcceptanceUnknown;
    var resolved := Head(h.refs, i.state, h.version + 1, h.attemptCount, h.unknownCount + (if unknown then 1 else 0),
                         h.exhausted || (unknown && row.kind == MarkedResend), Some(i.attemptId), None, i.completedAt);
    && h.state == RequestStarted && h.currentAttempt == Some(i.attemptId) && row.state == RequestStarted
    && after.heads == before.heads[i.deliveryId := resolved] && Shows(head, resolved)
    && after.attempts == before.attempts[i.attemptId :=
         Attempt(row.deliveryId, row.number, row.kind, i.state, row.envelopeDigest, i.answer, row.startedAt,
                 Some(i.completedAt))]
  }

  // What the appended rows say: a late observation stays unknown, a lost answer is an ambiguity at
  // the boundary, and anything else is the provider's resolution.
  ghost predicate Tells(h: Head, row: Attempt, i: CompleteInput, fenced: bool, fact: Fact, pointer: Pointer, line: HistoryRow) {
    var unknown, marked := i.state == AcceptanceUnknown, row.kind == MarkedResend;
    && h.refs.receiptId.Some?
    && fact.id == i.factId && fact.deliveryId == i.deliveryId && fact.attemptId == Some(i.attemptId)
    && fact.receiptId == h.refs.receiptId.value && fact.causation == Some(h.refs.rootFactId) && fact.occurredAt == i.completedAt
    && (fact.kind == AttemptUnknown <==> fenced || unknown) && (fact.kind == AttemptResolved <==> !fenced && !unknown)
    && (fenced ==> fact.payload == FencedObservation(row.kind, i.state, i.answer))
    && (!fenced && i.answer.evidence.None? ==> fact.payload == BoundaryUnknown(row.kind, i.answer.recovery, unknown && marked))
    && (!fenced && i.answer.evidence.Some? ==>
          fact.payload == ProviderResolution(row.kind, i.state, i.answer, if unknown then Some(marked) else None))
    && pointer == Pointer(i.pointerId, h.refs.receiptId.value, i.factId, i.deliveryId, i.completedAt)
    && line.id == i.historyId && line.threadId == h.refs.threadId && line.receiptId == h.refs.receiptId.value
    && line.factId == i.factId && line.deliveryId == i.deliveryId && line.attemptId == Some(i.attemptId)
    && line.parentId == Some(h.refs.rootHistoryId) && line.occurredAt == i.completedAt
    && line.summary == if fenced then AcceptanceUnknown else i.state
  }

  ghost predicate Completes(before: Db, after: Db, i: CompleteInput, fenced: bool, head: HeadView) {
    && i.deliveryId in before.heads && i.attemptId in before.attempts
    && before.attempts[i.attemptId].deliveryId == i.deliveryId
    && var h := before.heads[i.deliveryId];
       && (fenced <==> !(h.lease.Some? && h.lease.value.claimId == i.claimId))
       && |after.facts| == |before.facts| + 1 && |after.outbox| == |before.outbox| + 1 && |after.history| == |before.history| + 1
       && before.facts <= after.facts && before.outbox <= after.outbox && before.history <= after.history
       && Tells(h, before.attempts[i.attemptId], i, fenced, after.facts[|before.facts|], after.outbox[|before.outbox|],
                after.history[|before.history|])
       && if fenced then after.heads == before.heads && after.attempts == before.attempts
          else Lands(before, after, i, head)
  }

  // What the batch of a request did between two states, and what the caller was told about it.
  ghost predicate Promise(r: Request, before: Db, after: Db, value: Result) {
    match r
    case Claim(d, claim, now, leaseMs) =>
      value.Claimed? && value.claimId == claim && Claims(before, after, d, claim, now, leaseMs, value.head)
    case Release(d, claim, now) => Releases(before, after, d, claim, now)
    case Start(i) => value.Started? && value.attemptId == i.attemptId && Starts(before, after, i, value.attempt)
    case Complete(i) => value.Completed? && Completes(before, after, i, value.fenced, value.head)
  }

  // ---- What each unit's batch promises, beside lawful sessions ---------------------------

  lemma ClaimIsAsPromised(d: Id, claimId: Id, now: Ms, leaseMs: int, seen: seq<Db>, s: Db, s': Db)
    requires forall r :: r in seen ==> Later(r, s)
    requires CommitsTo(LEDGER, ClaimWork(d, claimId, now, leaseMs), seen, s, s')
    ensures Promise(Request.Claim(d, claimId, now, leaseMs), s, s',
                    ClaimWork(d, claimId, now, leaseMs).decide(seen).value)
  {
    ClaimEffect(d, claimId, now, leaseMs, seen, s, s');
  }

  lemma StartIsAsPromised(i: StartInput, seen: seq<Db>, s: Db, s': Db)
    requires forall r :: r in seen ==> Later(r, s)
    requires CommitsTo(LEDGER, StartWork(i), seen, s, s')
    ensures Promise(Request.Start(i), s, s', StartWork(i).decide(seen).value)
  {
    StartEffect(i, seen, s, s');
  }

  lemma EvidenceTells(s: Db, i: CompleteInput, fenced: bool, sequence: nat)
    requires i.deliveryId in s.heads && i.attemptId in s.attempts && s.heads[i.deliveryId].refs.receiptId.Some?
    ensures var h, row := s.heads[i.deliveryId], s.attempts[i.attemptId];
            Tells(h, row, i, fenced, FactFor(h, row, i, fenced),
                  Pointer(i.pointerId, h.refs.receiptId.value, i.factId, i.deliveryId, i.completedAt),
                  HistoryFor(h, i, fenced, sequence))
  {
  }

  lemma ResolutionLands(s: Db, i: CompleteInput)
    requires Holds(InFlight(i.deliveryId, i.attemptId, i.claimId), s) && s.heads[i.deliveryId].refs.receiptId.Some?
    ensures DecideComplete(s, s, s, i).Finish? && DecideComplete(s, s, s, i).value.Completed?
    ensures Lands(s, HeadAndAttemptResolved(s, i), i, DecideComplete(s, s, s, i).value.head)
  {
    hide FactFor, HistoryFor, NextSequence;
  }

  lemma LandedWithEvidence(s: Db, t: Db, s': Db, i: CompleteInput, head: HeadView)
    requires i.deliveryId in s.heads && i.attemptId in s.attempts && Lands(s, t, i, head)
    requires s'.heads == t.heads && s'.attempts == t.attempts
    ensures Lands(s, s', i, head)
  {
  }

  lemma CompletionIsAsPromised(i: CompleteInput, seen: seq<Db>, s: Db, s': Db)
    requires Readable(seen, s) && CommitsTo(LEDGER, CompleteWork(i), seen, s, s')
    ensures Promise(Request.Complete(i), s, s', CompleteWork(i).decide(seen).value)
  {
    hide NextSequence, FactFor, HistoryFor, Tells, Lands, LedgerSound;
    CompleteEffect(i, seen, s, s');
    var value, h, held := CompleteWork(i).decide(seen).value, s.heads[i.deliveryId], s.heads[i.deliveryId].HeldBy(i.claimId);
    EvidenceTells(s, i, !held, NextSequence(s.history, h.refs.threadId));
    if held {
      ResolutionLands(s, i);
      LandedWithEvidence(s, HeadAndAttemptResolved(s, i), s', i, value.head);
    }
    hide CompleteWork, DecideComplete, HeadAndAttemptResolved;
    assert Completes(s, s', i, value.fenced, value.head);
  }

  lemma PromiseKept(r: Request, seen: seq<Db>, s: Db, s': Db)
    requires Readable(seen, s) && CommitsTo(LEDGER, WorkOf(r), seen, s, s')
    ensures Promise(r, s, s', WorkOf(r).decide(seen).value)
  {
    match r
    case Claim(d, claim, now, leaseMs) => ClaimIsAsPromised(d, claim, now, leaseMs, seen, s, s');
    case Release(d, claim, now) => ReleaseEffect(d, claim, now, seen, s, s');
    case Start(i) => StartIsAsPromised(i, seen, s, s');
    case Complete(i) => CompletionIsAsPromised(i, seen, s, s');
  }

  // The same, on the journal of the session that ran it.
  lemma SessionKeepsItsPromise(r: Request, journal: Journal, from: nat, start: Db, seen: seq<Db>)
    requires OthersAreLawful(journal, from, start) && CommittedLast(LEDGER, WorkOf(r), journal, from, start, seen)
    ensures var last, value := journal[|journal| - 1], WorkOf(r).decide(seen).value;
            LedgerSound(last.after) && Promise(r, last.before, last.after, value)
  {
    var last := journal[|journal| - 1];
    LaterIsAnOrder();
    SessionCommitsFromAdmissibleReads(LEDGER, LedgerSound, Later, WorkOf(r), journal, from, start, seen);
    RequestCommits(r, seen, last.before, last.after);
    AdmissibleIsReadable(seen, last.before);
    PromiseKept(r, seen, last.before, last.after);
  }

  // A unit answers with one of these exactly when its batch has something to write; a release
  // answers the same either way.
  predicate Wrote(r: Request, value: Result) {
    (r.Claim? && value.Claimed?) || (r.Start? && value.Started?) || (r.Complete? && value.Completed?)
  }

  lemma WritesShowInTheAnswer(r: Request, seen: seq<Db>)
    requires WorkOf(r).decide(seen).Finish? && !r.Release?
    ensures WorkOf(r).decide(seen).writes != [] <==> Wrote(r, WorkOf(r).decide(seen).value)
  {
  }

  // ---- What a request is answered where it runs alone --------------------------------------

  predicate Leased(h: Head, now: Ms) {
    h.lease.Some? && h.lease.value.expiresAt > now
  }

  predicate Over(h: Head) {
    h.state == Accepted || h.state == RejectedTerminal || (h.state == AcceptanceUnknown && h.exhausted)
  }

  lemma ClaimAnswersExactly(s: Db, d: Id, claimId: Id, now: Ms, leaseMs: int)
    requires leaseMs > 0
    ensures var alone := Serial(ClaimWork(d, claimId, now, leaseMs), s);
            && alone.Finish? && (alone.writes != [] <==> alone.value.Claimed?)
            && (alone.value.NotFound? <==> d !in s.heads)
            && (alone.value.LeaseHeld? <==> d in s.heads && Leased(s.heads[d], now))
            && (alone.value.NotClaimable? <==> d in s.heads && !Leased(s.heads[d], now) && Over(s.heads[d]))
            && (alone.value.Claimed? <==> d in s.heads && !Leased(s.heads[d], now) && !Over(s.heads[d]))
            && (alone.value.LeaseHeld? || alone.value.NotClaimable? ==> Shows(alone.value.head, s.heads[d]))
  {
    SingleReadAlone(ClaimWork(d, claimId, now, leaseMs), s);
  }

  lemma ReleaseWritesExactlyWhenHeld(s: Db, d: Id, claimId: Id, now: Ms)
    ensures var alone := Serial(ReleaseWork(d, claimId, now), s);
            && alone.Finish? && alone.value.Released?
            && (alone.writes != [] <==>
                  d in s.heads && s.heads[d].lease.Some? && s.heads[d].lease.value.claimId == claimId
                  && s.heads[d].state != RequestStarted)
  {
    SingleReadAlone(ReleaseWork(d, claimId, now), s);
  }

  // A completion needs its attempt and, while its claim holds the lease, that attempt open.
  lemma CompletionAnswersExactly(s: Db, i: CompleteInput)
    requires CompleteInputValid(i)
    ensures var alone := Serial(CompleteWork(i), s);
            && (alone.Finish? <==>
                  && i.deliveryId in s.heads && s.heads[i.deliveryId].refs.receiptId.Some?
                  && i.attemptId in s.attempts && s.attempts[i.attemptId].deliveryId == i.deliveryId
                  && var h := s.heads[i.deliveryId];
                     h.lease.Some? && h.lease.value.claimId == i.claimId ==>
                       h.state == RequestStarted && h.currentAttempt == Some(i.attemptId)
                       && s.attempts[i.attemptId].state == RequestStarted)
            && (alone.Finish? ==> alone.value.Completed? && alone.writes != [])
  {
    ThreeReadsAlone(i, s);
    hide FactFor, HistoryFor, NextSequence;
  }

  // What a call leaves behind: nothing of its own, or one batch, last, that kept its promise.
  ghost predicate Kept(r: Request, journal: Journal, from: nat, tables: Db, outcome: Outcome<Result>) {
    || OthersOnly(journal, from)
    || (&& outcome.Returned? && OwnBatch(journal, from, tables)
        && Promise(r, journal[|journal| - 1].before, tables, outcome.value))
  }

  lemma SessionKeeps(r: Request, journal: Journal, from: nat, start: Db, seen: seq<Db>, tables: Db,
                     outcome: Outcome<Result>)
    requires OthersAreLawful(journal, from, start) && Extends(journal[..from], journal, start, tables)
    requires outcome.Returned? ==>
               && WorkOf(r).decide(seen).Finish? && WorkOf(r).decide(seen).value == outcome.value
               && if WorkOf(r).decide(seen).writes == [] then OthersOnly(journal, from)
                  else CommittedLast(LEDGER, WorkOf(r), journal, from, start, seen)
    requires !outcome.Returned? ==> OthersOnly(journal, from)
    ensures Kept(r, journal, from, tables, outcome)
  {
    if outcome.Returned? && WorkOf(r).decide(seen).writes != [] {
      SessionKeepsItsPromise(r, journal, from, start, seen);
    }
  }

  // The outcome is that of the request's tries on the tables it met: tried again after a refused batch,
  // and only then, three times at the most.
  ghost predicate Tried(r: Request, tables: Db, arrivals: seq<seq<Db>>, tries: seq<Try<Db>>, outcome: Outcome<Result>) {
    Settles(LEDGER, WorkOf(r), tries, 3, outcome) && AllAsScripted(WorkOf(r), tables, arrivals, tries)
  }

  class OutboundEmailDeliveryLedger {
    const database: LedgerDatabase
    const newBatchId: nat -> BatchId

    constructor (database: LedgerDatabase, newBatchId: nat -> BatchId)
      ensures this.database == database
    {
      this.database, this.newBatchId := database, newBatchId;
    }

    method Read(deliveryId: Id) returns (head: Option<HeadView>)
      requires database.Idle()
      modifies database
      ensures database.Idle() && OthersOnly(database.journal, |old(database.journal)|)
      ensures head == (if deliveryId in database.tables.heads then Some(database.tables.heads[deliveryId].View())
                       else None)
    {
      database.Await();
      if deliveryId in database.tables.heads { return Some(database.tables.heads[deliveryId].View()); }
      return None;
    }

    // One unit of work for one request.
    method Perform(request: Request) returns (outcome: Outcome<Result>, ghost tries: seq<Try<Db>>)
      requires database.Idle() && database.engine == LEDGER
      modifies database
      ensures database.Idle() && Tried(request, old(database.tables), old(database.arrivals), tries, outcome)
      ensures OthersAreLawful(database.journal, |old(database.journal)|, old(database.tables)) ==>
                Kept(request, database.journal, |old(database.journal)|, database.tables, outcome)
      ensures outcome.Returned? && !request.Release? ==>
                (OthersOnly(database.journal, |old(database.journal)|) <==> !Wrote(request, outcome.value))
    {
      ghost var from, start := |database.journal|, database.tables;
      hide Settles, AllAsScripted;
      outcome, tries := RunD1BufferedUnitOfWork(database, WorkOf(request), MAXIMUM_ATTEMPTS, newBatchId);
      ghost var seen := if tries == [] then [] else tries[|tries| - 1].seen;
      if OthersAreLawful(database.journal, from, start) {
        SessionKeeps(request, database.journal, from, start, seen, database.tables, outcome);
      }
      if outcome.Returned? && !request.Release? { WritesShowInTheAnswer(request, seen); }
    }

    method Claim(deliveryId: Id, claimId: Id, now: Ms, leaseMs: int) returns (outcome: Outcome<Result>, ghost tries: seq<Try<Db>>)
      requires database.Idle() && database.engine == LEDGER
      modifies database
      ensures database.Idle()
      ensures Tried(Request.Claim(deliveryId, claimId, now, leaseMs), old(database.tables), old(database.arrivals), tries,
                    outcome)
      ensures OthersAreLawful(database.journal, |old(database.journal)|, old(database.tables)) ==>
                Kept(Request.Claim(deliveryId, claimId, now, leaseMs), database.journal, |old(database.journal)|,
                     database.tables, outcome)
      ensures outcome.Returned? ==>
                (OthersOnly(database.journal, |old(database.journal)|) <==> !outcome.value.Claimed?)
    {
      outcome, tries := Perform(Request.Claim(deliveryId, claimId, now, leaseMs));
    }

    method ReleaseClaim(deliveryId: Id, claimId: Id, now: Ms) returns (outcome: Outcome<Result>, ghost tries: seq<Try<Db>>)
      requires database.Idle() && database.engine == LEDGER
      modifies database
      ensures database.Idle()
      ensures Tried(Request.Release(deliveryId, claimId, now), old(database.tables), old(database.arrivals), tries, outcome)
      ensures OthersAreLawful(database.journal, |old(database.journal)|, old(database.tables)) ==>
                Kept(Request.Release(deliveryId, claimId, now), database.journal, |old(database.journal)|,
                     database.tables, outcome)
    {
      outcome, tries := Perform(Request.Release(deliveryId, claimId, now));
    }

    method RecordAttemptStarted(input: StartInput) returns (outcome: Outcome<Result>, ghost tries: seq<Try<Db>>)
      requires database.Idle() && database.engine == LEDGER
      modifies database
      ensures database.Idle()
      ensures Tried(Request.Start(input), old(database.tables), old(database.arrivals), tries, outcome)
      ensures OthersAreLawful(database.journal, |old(database.journal)|, old(database.tables)) ==>
                Kept(Request.Start(input), database.journal, |old(database.journal)|, database.tables, outcome)
    {
      outcome, tries := Perform(Request.Start(input));
    }

    method RecordProviderResolution(input: CompleteInput) returns (outcome: Outcome<Result>, ghost tries: seq<Try<Db>>)
      requires database.Idle() && database.engine == LEDGER
      requires input.answer.evidence.Some? && input.answer.recovery.None?
      modifies database
      ensures database.Idle()
      ensures Tried(Request.Complete(input), old(database.tables), old(database.arrivals), tries, outcome)
      ensures OthersAreLawful(database.journal, |old(database.journal)|, old(database.tables)) ==>
                Kept(Request.Complete(input), database.journal, |old(database.journal)|, database.tables, outcome)
    {
      outcome, tries := Perform(Request.Complete(input));
    }

    method RecordBoundaryAmbiguity(input: CompleteInput, code: string) returns (outcome: Outcome<Result>, ghost tries: seq<Try<Db>>)
      requires database.Idle() && database.engine == LEDGER
      modifies database
      ensures database.Idle()
      ensures Tried(Request.Complete(input.(state := AcceptanceUnknown, answer := Answer(None, None, None, Some(code)))),
                    old(database.tables), old(database.arrivals), tries, outcome)
      ensures OthersAreLawful(database.journal, |old(database.journal)|, old(database.tables)) ==>
                Kept(Request.Complete(input.(state := AcceptanceUnknown, answer := Answer(None, None, None, Some(code)))),
                     database.journal, |old(database.journal)|, database.tables, outcome)
    {
      outcome, tries := Perform(Request.Complete(
        input.(state := AcceptanceUnknown, answer := Answer(None, None, None, Some(code)))));
    }
  }
}
