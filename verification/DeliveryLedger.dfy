// Model of apps/cloudflare-worker/src/d1-outbound-email-delivery.ts: the tables, the statements and
// the four units of work of the outbound delivery ledger.
module DeliveryLedger {
  import opened Wrappers
  import opened AtomicBatch

  type Id = string
  type Ms = int

  datatype HeadState = Idle | RequestStarted | Accepted | SafeRetryable | RejectedTerminal | AcceptanceUnknown
  datatype Kind = Original | MarkedResend
  datatype Idempotency = NativeKey | ProviderLookup | NoIdempotency

  // A retry after an unknown must be a marked resend unless the provider deduplicates natively.
  function RequiredKind(unknownCount: nat, capability: Idempotency): Kind {
    if unknownCount > 0 && capability != NativeKey then MarkedResend else Original
  }

  datatype Lease = Lease(claimId: Id, acquiredAt: Ms, expiresAt: Ms)

  // The columns no statement of the ledger writes.
  datatype Refs = Refs(receiptId: Option<Id>, rootFactId: Id, threadId: Id, rootHistoryId: Id,
                       messageDigest: string, envelopeDigest: string, createdAt: Ms)

  datatype Head = Head(refs: Refs, state: HeadState, version: int, attemptCount: nat, unknownCount: nat,
                       exhausted: bool, currentAttempt: Option<Id>, lease: Option<Lease>, updatedAt: Ms)
  {
    predicate HeldBy(claimId: Id) {
      lease.Some? && lease.value.claimId == claimId
    }

    predicate Dispatchable() {
      state == Idle || state == SafeRetryable || (state == AcceptanceUnknown && !exhausted)
    }

    predicate Claimable() {
      Dispatchable() || state == RequestStarted
    }

    // No lease could make it dispatchable again.
    predicate Settled() {
      state == Accepted || state == RejectedTerminal || (state == AcceptanceUnknown && exhausted)
    }

    // What callers are shown.
    function View(): HeadView {
      HeadView(refs, state, version, attemptCount, unknownCount, exhausted, currentAttempt,
               if lease.Some? then Some(lease.value.claimId) else None,
               if lease.Some? then Some(lease.value.expiresAt) else None)
    }
  }

  datatype HeadView = HeadView(refs: Refs, state: HeadState, version: int, attemptCount: nat, unknownCount: nat,
                               exhausted: bool, currentAttempt: Option<Id>, leaseClaimId: Option<Id>,
                               leaseExpiresAt: Option<Ms>)

  datatype Answer = Answer(messageId: Option<string>, reason: Option<string>, evidence: Option<string>,
                           recovery: Option<string>)

  const NO_ANSWER := Answer(None, None, None, None)

  datatype Attempt = Attempt(deliveryId: Id, number: nat, kind: Kind, state: HeadState, envelopeDigest: string,
                             answer: Answer, startedAt: Ms, completedAt: Option<Ms>)

  datatype FactKind = DeliveryRequested | AttemptResolved | AttemptUnknown
  datatype Payload =
    | Root
    | FencedObservation(attemptKind: Kind, observed: HeadState, answer: Answer)
    | BoundaryUnknown(attemptKind: Kind, recovery: Option<string>, exhausted: bool)
    | ProviderResolution(attemptKind: Kind, state: HeadState, answer: Answer, landedExhausted: Option<bool>)

  datatype Fact = Fact(id: Id, receiptId: Id, deliveryId: Id, attemptId: Option<Id>, kind: FactKind,
                       causation: Option<Id>, payload: Payload, occurredAt: Ms)
  datatype Pointer = Pointer(id: Id, receiptId: Id, factId: Id, deliveryId: Id, createdAt: Ms)
  datatype HistoryRow = HistoryRow(id: Id, threadId: Id, sequence: nat, receiptId: Id, factId: Id, deliveryId: Id,
                                   attemptId: Option<Id>, parentId: Option<Id>, summary: HeadState, occurredAt: Ms)

  // The append-only tables are kept in insertion order.
  datatype Db = Db(heads: map<Id, Head>, attempts: map<Id, Attempt>,
                   facts: seq<Fact>, outbox: seq<Pointer>, history: seq<HistoryRow>)

  // coalesce(max(sequence), -1) + 1 over one thread.
  function NextSequence(rows: seq<HistoryRow>, thread: Id): nat {
    if rows == [] then 0
    else
      var last := rows[|rows| - 1];
      var before := NextSequence(rows[..|rows| - 1], thread);
      if last.threadId == thread && last.sequence >= before then last.sequence + 1 else before
  }

  // ---- Statements ------------------------------------------------------------------------

  datatype Guard =
    | ClaimableAt(deliveryId: Id, version: int, now: Ms)
    | HeldAndNotStarted(deliveryId: Id, claimId: Id)
    | Startable(deliveryId: Id, version: int, claimId: Id, attemptId: Id)
    | Fenced(deliveryId: Id, claimId: Id)
    | InFlight(deliveryId: Id, attemptId: Id, claimId: Id)
    | NextSequenceIs(threadId: Id, sequence: nat)

  predicate Holds(g: Guard, s: Db) {
    match g
    case ClaimableAt(d, version, now) =>
      d in s.heads && var h := s.heads[d];
      h.version == version && (h.lease.Some? ==> h.lease.value.expiresAt <= now) && h.Claimable()
    case HeldAndNotStarted(d, claim) =>
      d in s.heads && s.heads[d].HeldBy(claim) && s.heads[d].state != RequestStarted
    case Startable(d, version, claim, a) =>
      && d in s.heads && s.heads[d].version == version && s.heads[d].HeldBy(claim)
      && s.heads[d].Dispatchable() && a !in s.attempts
    case Fenced(d, claim) => d in s.heads && s.heads[d].refs.receiptId.Some? && !s.heads[d].HeldBy(claim)
    case InFlight(d, a, claim) =>
      && d in s.heads && s.heads[d].state == RequestStarted && s.heads[d].currentAttempt == Some(a)
      && s.heads[d].HeldBy(claim)
      && a in s.attempts && s.attempts[a].deliveryId == d && s.attempts[a].state == RequestStarted
    case NextSequenceIs(thread, n) => NextSequence(s.history, thread) == n
  }

  datatype Write =
    | TakeLease(deliveryId: Id, lease: Lease)
    | DropLease(deliveryId: Id, claimId: Id, now: Ms)
    | InsertAttempt(attemptId: Id, attempt: Attempt)
    | HeadStarted(deliveryId: Id, version: int, attemptId: Id, number: nat, lease: Lease)
    | ResolveAttempt(attemptId: Id, state: HeadState, answer: Answer, completedAt: Ms)
    | HeadResolved(deliveryId: Id, attemptId: Id, claimId: Id, state: HeadState, exhausts: bool, completedAt: Ms)
    | InsertFact(fact: Fact)
    | InsertPointer(pointer: Pointer)
    | InsertHistory(row: HistoryRow)

  function Max(a: int, b: int): int {
    if a < b then b else a
  }

  // The table's CHECK constraints and its monotonic-ambiguity trigger.
  predicate HeadAllowed(h: Head, before: Head) {
    && h.unknownCount <= h.attemptCount
    && (h.state == Idle <==> h.attemptCount == 0) && (h.state == Idle <==> h.currentAttempt.None?)
    && (h.exhausted ==> h.unknownCount >= 2)
    && h.version > 0
    && (h.lease.Some? ==> 0 <= h.lease.value.acquiredAt < h.lease.value.expiresAt)
    && (h.state == RequestStarted ==> h.lease.Some?)
    && h.refs.createdAt <= h.updatedAt
    && before.unknownCount <= h.unknownCount && (before.exhausted ==> h.exhausted)
  }

  function StoreHead(s: Db, d: Id, h: Head): Option<Db>
    requires d in s.heads
  {
    if HeadAllowed(h, s.heads[d]) then Some(s.(heads := s.heads[d := h])) else None
  }

  predicate AttemptAllowed(a: Attempt) {
    && a.number > 0 && a.startedAt >= 0
    && (a.state == RequestStarted ==> a.completedAt.None? && a.answer == NO_ANSWER)
    && (a.state != RequestStarted ==> a.completedAt.Some? && a.startedAt <= a.completedAt.value)
    && !(a.answer.evidence.Some? && a.answer.recovery.Some?)
    && (a.state == Accepted || a.answer.messageId.None?)
  }

  // An UPDATE whose WHERE clause matches nothing succeeds and changes nothing.
  function Apply(w: Write, s: Db): Option<Db> {
    match w
    case TakeLease(d, lease) =>
      if d !in s.heads then Some(s)
      else var h := s.heads[d];
        StoreHead(s, d, h.(lease := Some(lease), updatedAt := Max(h.updatedAt, lease.acquiredAt)))
    case DropLease(d, claim, now) =>
      if d !in s.heads || !s.heads[d].HeldBy(claim) || s.heads[d].state == RequestStarted then Some(s)
      else var h := s.heads[d];
        StoreHead(s, d, h.(lease := None, updatedAt := Max(h.updatedAt, now)))
    case InsertAttempt(a, row) =>
      if a in s.attempts || row.deliveryId !in s.heads || NumberTaken(s.attempts, row.deliveryId, row.number)
         || !AttemptAllowed(row) then None
      else Some(s.(attempts := s.attempts[a := row]))
    case HeadStarted(d, version, a, number, lease) =>
      if d !in s.heads || s.heads[d].version != version || !s.heads[d].HeldBy(lease.claimId) then Some(s)
      else var h := s.heads[d];
        StoreHead(s, d, h.(state := RequestStarted, currentAttempt := Some(a), attemptCount := number,
                           version := h.version + 1, updatedAt := lease.acquiredAt, lease := Some(lease)))
    case ResolveAttempt(a, state, answer, at) =>
      if a !in s.attempts || s.attempts[a].state != RequestStarted then Some(s)
      else var row := s.attempts[a].(state := state, answer := answer, completedAt := Some(at));
        if AttemptAllowed(row) then Some(s.(attempts := s.attempts[a := row])) else None
    case HeadResolved(d, a, claim, state, exhausts, at) =>
      if d !in s.heads || s.heads[d].state != RequestStarted || s.heads[d].currentAttempt != Some(a)
         || !s.heads[d].HeldBy(claim) then Some(s)
      else var h := s.heads[d];
        StoreHead(s, d, h.(state := state, version := h.version + 1, updatedAt := at,
                           unknownCount := h.unknownCount + (if state == AcceptanceUnknown then 1 else 0),
                           exhausted := h.exhausted || exhausts, lease := None))
    case InsertFact(fact) =>
      if HasFact(s, fact.id) || fact.deliveryId !in s.heads || fact.occurredAt < 0 then None
      else Some(s.(facts := s.facts + [fact]))
    case InsertPointer(p) =>
      if (exists i :: 0 <= i < |s.outbox| && s.outbox[i].id == p.id) || !HasFact(s, p.factId)
         || p.deliveryId !in s.heads || p.createdAt < 0 then None
      else Some(s.(outbox := s.outbox + [p]))
    case InsertHistory(row) =>
      if (exists i :: 0 <= i < |s.history| && Collides(s.history[i], row)) || !HasFact(s, row.factId)
         || row.deliveryId !in s.heads || row.occurredAt < 0 then None
      else Some(s.(history := s.history + [row]))
  }

  predicate HasFact(s: Db, id: Id) {
    exists i :: 0 <= i < |s.facts| && s.facts[i].id == id
  }

  // The history's primary key and its UNIQUE(thread_id, sequence).
  predicate Collides(a: HistoryRow, b: HistoryRow) {
    a.id == b.id || (a.threadId == b.threadId && a.sequence == b.sequence)
  }

  predicate NumberTaken(attempts: map<Id, Attempt>, d: Id, number: nat) {
    exists a :: a in attempts && attempts[a].deliveryId == d && attempts[a].number == number
  }

  const LEDGER := Engine<Db, Guard, Write>.Engine(Holds, Apply)

  // ---- Units of work ---------------------------------------------------------------------

  datatype Result =
    | NotFound
    | LeaseHeld(head: HeadView)
    | NotClaimable(head: HeadView)
    | Claimed(claimId: Id, head: HeadView)
    | Released
    | Started(attemptId: Id, attempt: Attempt)
    | Completed(fenced: bool, head: HeadView)

  type LedgerAction = Action<Guard, Write, Result>
  type LedgerWork = Work<Db, Guard, Write, Result>

  function DecideClaim(s: Db, d: Id, claimId: Id, now: Ms, leaseMs: int): LedgerAction {
    if d !in s.heads then Finish(NotFound, [], [])
    else
      var h := s.heads[d];
      if h.lease.Some? && h.lease.value.expiresAt > now then Finish(LeaseHeld(h.View()), [], [])
      else if !h.Claimable() then Finish(NotClaimable(h.View()), [], [])
      else
        Finish(Claimed(claimId, h.View().(leaseClaimId := Some(claimId), leaseExpiresAt := Some(now + leaseMs))),
               [ClaimableAt(d, h.version, now)],
               [TakeLease(d, Lease(claimId, now, now + leaseMs))])
  }

  function ClaimWork(d: Id, claimId: Id, now: Ms, leaseMs: int): LedgerWork {
    Work(1, (seen: seq<Db>) =>
      if leaseMs <= 0 then Fail
      else if seen == [] then ReadMore
      else DecideClaim(seen[0], d, claimId, now, leaseMs))
  }

  function DecideRelease(s: Db, d: Id, claimId: Id, now: Ms): LedgerAction {
    if d !in s.heads || !s.heads[d].HeldBy(claimId) || s.heads[d].state == RequestStarted then Finish(Released, [], [])
    else Finish(Released, [HeldAndNotStarted(d, claimId)], [DropLease(d, claimId, now)])
  }

  function ReleaseWork(d: Id, claimId: Id, now: Ms): LedgerWork {
    Work(1, (seen: seq<Db>) => if seen == [] then ReadMore else DecideRelease(seen[0], d, claimId, now))
  }

  datatype StartInput = StartInput(deliveryId: Id, expectedVersion: int, claimId: Id, leaseMs: int, attemptId: Id,
                                   kind: Kind, resendDigest: Option<string>, capability: Idempotency, startedAt: Ms)

  // A resend digest comes with a marked resend and with nothing else.
  predicate StartInputValid(i: StartInput) {
    i.leaseMs > 0 && (i.kind == MarkedResend <==> i.resendDigest.Some?)
  }

  function StartedAttempt(h: Head, i: StartInput): Attempt {
    Attempt(i.deliveryId, h.attemptCount + 1, i.kind, RequestStarted,
            if i.resendDigest.Some? then i.resendDigest.value else h.refs.envelopeDigest,
            NO_ANSWER, i.startedAt, None)
  }

  function DecideStart(s: Db, i: StartInput): LedgerAction {
    if i.deliveryId !in s.heads || s.heads[i.deliveryId].refs.receiptId.None? then Fail
    else
      var h := s.heads[i.deliveryId];
      if !h.HeldBy(i.claimId) || h.version != i.expectedVersion then Fail
      else if !h.Dispatchable() then Fail
      else if i.kind != RequiredKind(h.unknownCount, i.capability) then Fail
      else if i.resendDigest == Some(h.refs.envelopeDigest) then Fail
      else
        var row := StartedAttempt(h, i);
        Finish(Started(i.attemptId, row),
               [Startable(i.deliveryId, i.expectedVersion, i.claimId, i.attemptId)],
               [InsertAttempt(i.attemptId, row),
                HeadStarted(i.deliveryId, i.expectedVersion, i.attemptId, row.number,
                            Lease(i.claimId, i.startedAt, i.startedAt + i.leaseMs))])
  }

  function StartWork(i: StartInput): LedgerWork {
    Work(1, (seen: seq<Db>) =>
      if !StartInputValid(i) then Fail else if seen == [] then ReadMore else DecideStart(seen[0], i))
  }

  datatype CompleteInput = CompleteInput(deliveryId: Id, attemptId: Id, claimId: Id, state: HeadState, answer: Answer,
                                         completedAt: Ms, factId: Id, pointerId: Id, historyId: Id)

  function FactFor(h: Head, attempt: Attempt, i: CompleteInput, fenced: bool): Fact
    requires h.refs.receiptId.Some?
  {
    var unknown := i.state == AcceptanceUnknown;
    var exhausts := unknown && attempt.kind == MarkedResend;
    Fact(i.factId, h.refs.receiptId.value, i.deliveryId, Some(i.attemptId),
         if fenced || unknown then AttemptUnknown else AttemptResolved, Some(h.refs.rootFactId),
         if fenced then FencedObservation(attempt.kind, i.state, i.answer)
         else if i.answer.evidence.None? then BoundaryUnknown(attempt.kind, i.answer.recovery, exhausts)
         else ProviderResolution(attempt.kind, i.state, i.answer, if unknown then Some(exhausts) else None),
         i.completedAt)
  }

  function HistoryFor(h: Head, i: CompleteInput, fenced: bool, sequence: nat): HistoryRow
    requires h.refs.receiptId.Some?
  {
    HistoryRow(i.historyId, h.refs.threadId, sequence, h.refs.receiptId.value, i.factId, i.deliveryId,
               Some(i.attemptId), Some(h.refs.rootHistoryId), if fenced then AcceptanceUnknown else i.state,
               i.completedAt)
  }

  function EvidenceWrites(h: Head, attempt: Attempt, i: CompleteInput, fenced: bool, sequence: nat): seq<Write>
    requires h.refs.receiptId.Some?
  {
    [InsertFact(FactFor(h, attempt, i, fenced)),
     InsertPointer(Pointer(i.pointerId, h.refs.receiptId.value, i.factId, i.deliveryId, i.completedAt)),
     InsertHistory(HistoryFor(h, i, fenced, sequence))]
  }

  // The anchor, the attempt and the history are three separate reads.
  function DecideComplete(s0: Db, s1: Db, s2: Db, i: CompleteInput): LedgerAction {
    if i.deliveryId !in s0.heads || s0.heads[i.deliveryId].refs.receiptId.None?
       || i.attemptId !in s1.attempts || s1.attempts[i.attemptId].deliveryId != i.deliveryId then Fail
    else
      var h, attempt := s0.heads[i.deliveryId], s1.attempts[i.attemptId];
      var sequence := NextSequence(s2.history, h.refs.threadId);
      var fenced := !h.HeldBy(i.claimId);
      if !fenced && (h.state != RequestStarted || h.currentAttempt != Some(i.attemptId)
                     || attempt.state != RequestStarted) then Fail
      else
        var unknown := i.state == AcceptanceUnknown;
        var exhausts := unknown && attempt.kind == MarkedResend;
        var evidence := EvidenceWrites(h, attempt, i, fenced, sequence);
        if fenced then
          Finish(Completed(true, h.View()),
                 [Fenced(i.deliveryId, i.claimId), NextSequenceIs(h.refs.threadId, sequence)], evidence)
        else
          Finish(Completed(false, h.View().(state := i.state, version := h.version + 1,
                                            unknownCount := h.unknownCount + (if unknown then 1 else 0),
                                            exhausted := h.exhausted || exhausts,
                                            leaseClaimId := None, leaseExpiresAt := None)),
                 [InFlight(i.deliveryId, i.attemptId, i.claimId), NextSequenceIs(h.refs.threadId, sequence)],
                 [ResolveAttempt(i.attemptId, i.state, i.answer, i.completedAt),
                  HeadResolved(i.deliveryId, i.attemptId, i.claimId, i.state, exhausts, i.completedAt)] + evidence)
  }

  // `complete` has two callers: recordProviderResolution always brings parsed evidence and no
  // recovery code; recordBoundaryAmbiguity brings a recovery code and always lands unknown.
  predicate CompleteInputValid(i: CompleteInput) {
    && i.state != Idle && i.state != RequestStarted
    && (|| (i.answer.evidence.Some? && i.answer.recovery.None?)
        || (i.state == AcceptanceUnknown && i.answer == Answer(None, None, None, i.answer.recovery)
            && i.answer.recovery.Some?))
  }

  function CompleteWork(i: CompleteInput): LedgerWork {
    Work(3, (seen: seq<Db>) =>
      if !CompleteInputValid(i) then Fail
      else if |seen| < 3 then ReadMore
      else DecideComplete(seen[0], seen[1], seen[2], i))
  }

  // Everything a worker or a recovery sweep may ask of the ledger.
  datatype Request =
    | Claim(deliveryId: Id, claimId: Id, now: Ms, leaseMs: int)
    | Release(deliveryId: Id, claimId: Id, now: Ms)
    | Start(start: StartInput)
    | Complete(completion: CompleteInput)

  function WorkOf(r: Request): LedgerWork {
    match r
    case Claim(d, claim, now, leaseMs) => ClaimWork(d, claim, now, leaseMs)
    case Release(d, claim, now) => ReleaseWork(d, claim, now)
    case Start(i) => StartWork(i)
    case Complete(i) => CompleteWork(i)
  }
}
