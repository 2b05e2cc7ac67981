// What every run of the outbound delivery ledger keeps: one attempt at a time, numbered without
// gaps, versions that count attempts, evidence rows that refer to each other, and fencing.
module DeliverySafety {
  import opened Wrappers
  import opened AtomicBatch
  import opened Serializability
  import opened DeliveryLedger

  // ---- The invariant ---------------------------------------------------------------------

  function AttemptsIn(attempts: map<Id, Attempt>, d: Id, state: HeadState): set<Id> {
    set a | a in attempts && attempts[a].deliveryId == d && attempts[a].state == state
  }

  function ExhaustingAttempts(attempts: map<Id, Attempt>, d: Id): set<Id> {
    set a | a in AttemptsIn(attempts, d, AcceptanceUnknown) && attempts[a].kind == MarkedResend
  }

  ghost predicate AllNumbersTaken(attempts: map<Id, Attempt>, d: Id, count: nat) {
    forall n :: 1 <= n <= count ==> NumberTaken(attempts, d, n)
  }

  ghost predicate CountsUnknowns(h: Head, attempts: map<Id, Attempt>, d: Id) {
    && h.unknownCount == |AttemptsIn(attempts, d, AcceptanceUnknown)|
    && (h.exhausted <==> ExhaustingAttempts(attempts, d) != {})
  }

  // The head mirrors its newest attempt, and its version counts starts and resolutions.
  ghost predicate MirrorsCurrent(h: Head, attempts: map<Id, Attempt>, d: Id) {
    && h.version == 1 + 2 * h.attemptCount - (if h.state == RequestStarted then 1 else 0)
    && (h.state == Idle <==> h.attemptCount == 0) && (h.currentAttempt.None? <==> h.attemptCount == 0)
    && (h.currentAttempt.Some? ==>
          && h.currentAttempt.value in attempts
          && var current := attempts[h.currentAttempt.value];
          current.deliveryId == d && current.number == h.attemptCount && current.state == h.state)
    && (h.state == RequestStarted ==> h.lease.Some?)
    && (h.Settled() ==> h.lease.None?)
  }

  ghost predicate HeadSound(h: Head, attempts: map<Id, Attempt>, d: Id) {
    MirrorsCurrent(h, attempts, d) && CountsUnknowns(h, attempts, d) && AllNumbersTaken(attempts, d, h.attemptCount)
  }

  // No attempt can follow one of these.
  predicate Blocks(row: Attempt) {
    || row.state == RequestStarted || row.state == Accepted || row.state == RejectedTerminal
    || (row.state == AcceptanceUnknown && row.kind == MarkedResend)
  }

  ghost predicate AttemptSound(a: Id, heads: map<Id, Head>, attempts: map<Id, Attempt>)
    requires a in attempts
  {
    var row := attempts[a];
    && row.deliveryId in heads && row.state != Idle
    && 1 <= row.number <= heads[row.deliveryId].attemptCount
    && (Blocks(row) ==> heads[row.deliveryId].currentAttempt == Some(a))
    && (forall b :: b in attempts ==>
          attempts[b].deliveryId == row.deliveryId && attempts[b].number == row.number ==> a == b)
  }

  predicate Resolves(fact: Fact) {
    fact.payload.BoundaryUnknown? || fact.payload.ProviderResolution?
  }

  ghost predicate RecordsTruthfully(fact: Fact, row: Attempt) {
    && Resolves(fact) && fact.deliveryId == row.deliveryId && row.completedAt == Some(fact.occurredAt)
    && fact.payload.attemptKind == row.kind
    && var landed := row.state == AcceptanceUnknown && row.kind == MarkedResend;
    match fact.payload
    case BoundaryUnknown(_, recovery, exhausted) =>
      row.state == AcceptanceUnknown && row.answer.recovery == recovery && exhausted == landed
    case ProviderResolution(_, state, answer, exhausted) =>
      && row.state == state && row.answer == answer
      && exhausted == (if row.state == AcceptanceUnknown then Some(landed) else None)
    case _ => false
  }

  ghost predicate Recorded(facts: seq<Fact>, a: Id) {
    exists i :: 0 <= i < |facts| && Resolves(facts[i]) && facts[i].attemptId == Some(a)
  }

  // Facts, outbox pointers and history rows come in matching triples; every resolution of an
  // attempt is told by exactly one fact, and that fact tells the truth.
  ghost predicate EvidenceSound(
    attempts: map<Id, Attempt>, facts: seq<Fact>, outbox: seq<Pointer>, history: seq<HistoryRow>)
  {
    && |facts| == |outbox| == |history|
    && (forall i :: 0 <= i < |facts| ==>
          && outbox[i].factId == facts[i].id && history[i].factId == facts[i].id
          && outbox[i].deliveryId == facts[i].deliveryId && history[i].deliveryId == facts[i].deliveryId
          && outbox[i].receiptId == facts[i].receiptId && history[i].receiptId == facts[i].receiptId
          && history[i].attemptId == facts[i].attemptId)
    && (forall i, j :: 0 <= i < j < |facts| ==>
          && facts[i].id != facts[j].id
          && (Resolves(facts[i]) && Resolves(facts[j]) ==> facts[i].attemptId != facts[j].attemptId))
    && (forall i :: 0 <= i < |facts| && Resolves(facts[i]) ==>
          && facts[i].attemptId.Some? && facts[i].attemptId.value in attempts
          && attempts[facts[i].attemptId.value].state != RequestStarted
          && RecordsTruthfully(facts[i], attempts[facts[i].attemptId.value]))
    && (forall a :: a in attempts && attempts[a].state != RequestStarted ==> Recorded(facts, a))
  }

  // Each row's sequence number is the one that was next in its thread.
  ghost predicate HistoryContiguous(rows: seq<HistoryRow>) {
    forall i :: 0 <= i < |rows| ==> rows[i].sequence == NextSequence(rows[..i], rows[i].threadId)
  }

  ghost predicate TablesSound(s: Db) {
    && (forall d :: d in s.heads ==> HeadSound(s.heads[d], s.attempts, d))
    && (forall a :: a in s.attempts ==> AttemptSound(a, s.heads, s.attempts))
  }

  ghost predicate LedgerSound(s: Db) {
    TablesSound(s) && EvidenceSound(s.attempts, s.facts, s.outbox, s.history) && HistoryContiguous(s.history)
  }

  predicate JustRegistered(h: Head) {
    && h.state == Idle && h.version == 1 && h.attemptCount == 0 && h.unknownCount == 0
    && !h.exhausted && h.currentAttempt.None? && h.lease.None?
  }

  // What registration leaves behind: version one, no attempt, one root row per table and delivery.
  ghost predicate Registered(s: Db) {
    && (forall d :: d in s.heads ==> JustRegistered(s.heads[d]))
    && s.attempts == map[]
    && |s.facts| == |s.outbox| == |s.history|
    && (forall i :: 0 <= i < |s.facts| ==>
          var f, p, r := s.facts[i], s.outbox[i], s.history[i];
          && f.payload.Root? && f.attemptId.None? && r.attemptId.None? && r.sequence == 0
          && p.factId == f.id && r.factId == f.id && p.deliveryId == f.deliveryId && r.deliveryId == f.deliveryId
          && p.receiptId == f.receiptId && r.receiptId == f.receiptId)
    && (forall i, j :: 0 <= i < j < |s.facts| ==>
          s.facts[i].id != s.facts[j].id && s.history[i].threadId != s.history[j].threadId)
  }

  lemma {:induction false} UnusedThreadStartsAtZero(rows: seq<HistoryRow>, thread: Id)
    requires forall i :: 0 <= i < |rows| ==> rows[i].threadId != thread
    ensures NextSequence(rows, thread) == 0
  {
    if rows != [] { UnusedThreadStartsAtZero(rows[..|rows| - 1], thread); }
  }

  lemma RegisteredIsSound(s: Db)
    requires Registered(s)
    ensures LedgerSound(s)
  {
    forall i | 0 <= i < |s.history| ensures s.history[i].sequence == NextSequence(s.history[..i], s.history[i].threadId) {
      UnusedThreadStartsAtZero(s.history[..i], s.history[i].threadId);
    }
    forall d | d in s.heads ensures HeadSound(s.heads[d], s.attempts, d) {
      assert AttemptsIn(s.attempts, d, AcceptanceUnknown) == {};
    }
  }

  predicate RootRows(d: Id, f: Fact, p: Pointer, r: HistoryRow) {
    && f.payload.Root? && f.attemptId.None? && f.deliveryId == d && r.attemptId.None? && r.sequence == 0
    && p.factId == f.id && r.factId == f.id && p.deliveryId == d && r.deliveryId == d
    && p.receiptId == f.receiptId && r.receiptId == f.receiptId
  }

  // A delivery can be registered in a ledger at work: a fresh head, a fresh fact and a thread of its
  // own keep the invariant.
  lemma OneMoreRegistered(s: Db, d: Id, h: Head, f: Fact, p: Pointer, r: HistoryRow)
    requires LedgerSound(s) && d !in s.heads && JustRegistered(h) && RootRows(d, f, p, r)
    requires forall i :: 0 <= i < |s.facts| ==> s.facts[i].id != f.id
    requires forall i :: 0 <= i < |s.history| ==> s.history[i].threadId != r.threadId
    ensures LedgerSound(Db(s.heads[d := h], s.attempts, s.facts + [f], s.outbox + [p], s.history + [r]))
  {
    hide TablesSound, EvidenceSound, HistoryContiguous;
    FreshHeadIsSound(s, d, h, Db(s.heads[d := h], s.attempts, s.facts + [f], s.outbox + [p], s.history + [r]));
    RootEvidence(s, f, p, r);
    RootOfAThread(s.history, r);
  }

  lemma FreshHeadIsSound(s: Db, d: Id, h: Head, t: Db)
    requires TablesSound(s) && d !in s.heads && JustRegistered(h)
    requires t.heads == s.heads[d := h] && t.attempts == s.attempts
    ensures TablesSound(t)
  {
    var heads := s.heads[d := h];
    forall a | a in s.attempts ensures AttemptSound(a, heads, s.attempts) && s.attempts[a].deliveryId != d {
      assert AttemptSound(a, s.heads, s.attempts);
    }
    assert AttemptsIn(s.attempts, d, AcceptanceUnknown) == {};
    forall e | e in heads ensures HeadSound(heads[e], s.attempts, e) {
      if e != d { assert HeadSound(s.heads[e], s.attempts, e); }
    }
  }

  lemma RootOfAThread(rows: seq<HistoryRow>, r: HistoryRow)
    requires HistoryContiguous(rows) && r.sequence == 0
    requires forall i :: 0 <= i < |rows| ==> rows[i].threadId != r.threadId
    ensures HistoryContiguous(rows + [r])
  {
    UnusedThreadStartsAtZero(rows, r.threadId);
    hide NextSequence;
    var more := rows + [r];
    forall i | 0 <= i < |more| ensures more[i].sequence == NextSequence(more[..i], more[i].threadId) {
      assert more[..i] == rows[..i];
      if i == |rows| { assert rows[..i] == rows; }
    }
  }

  lemma RootEvidence(s: Db, f: Fact, p: Pointer, r: HistoryRow)
    requires EvidenceSound(s.attempts, s.facts, s.outbox, s.history) && RootRows(f.deliveryId, f, p, r)
    requires forall i :: 0 <= i < |s.facts| ==> s.facts[i].id != f.id
    ensures EvidenceSound(s.attempts, s.facts + [f], s.outbox + [p], s.history + [r])
  {
    hide RecordsTruthfully;
    var facts := s.facts + [f];
    forall a | a in s.attempts && s.attempts[a].state != RequestStarted ensures Recorded(facts, a) {
      var i :| 0 <= i < |s.facts| && Resolves(s.facts[i]) && s.facts[i].attemptId == Some(a);
      assert facts[i] == s.facts[i];
    }
  }

  // ---- What never goes back --------------------------------------------------------------

  ghost predicate HeadLater(r: Head, s: Head) {
    && r.refs == s.refs && r.version <= s.version && r.attemptCount <= s.attemptCount
    && r.unknownCount <= s.unknownCount && (r.exhausted ==> s.exhausted)
    && (r.version == s.version ==>
          && r.state == s.state && r.attemptCount == s.attemptCount && r.unknownCount == s.unknownCount
          && r.exhausted == s.exhausted && r.currentAttempt == s.currentAttempt)
    && (r.Settled() ==> r == s)
  }

  ghost predicate AttemptLater(r: Attempt, s: Attempt) {
    && r.deliveryId == s.deliveryId && r.number == s.number && r.kind == s.kind
    && r.envelopeDigest == s.envelopeDigest && r.startedAt == s.startedAt
    && (r.state != RequestStarted ==> r == s)
  }

  ghost predicate Later(r: Db, s: Db) {
    && r.heads.Keys == s.heads.Keys
    && (forall d :: d in r.heads ==> HeadLater(r.heads[d], s.heads[d]))
    && (forall a :: a in r.attempts ==> a in s.attempts && AttemptLater(r.attempts[a], s.attempts[a]))
    && r.facts <= s.facts && r.outbox <= s.outbox && r.history <= s.history
  }

  lemma HeadsLaterOrder(a: Head, b: Head, c: Head)
    requires HeadLater(a, b) && HeadLater(b, c)
    ensures HeadLater(a, c)
  {
  }

  lemma AttemptsLaterOrder(a: Attempt, b: Attempt, c: Attempt)
    requires AttemptLater(a, b) && AttemptLater(b, c)
    ensures AttemptLater(a, c)
  {
  }

  lemma LaterIsTransitive(r: Db, s: Db, t: Db)
    requires Later(r, s) && Later(s, t)
    ensures Later(r, t)
  {
    hide HeadLater, AttemptLater;
    forall d | d in r.heads ensures HeadLater(r.heads[d], t.heads[d]) {
      HeadsLaterOrder(r.heads[d], s.heads[d], t.heads[d]);
    }
    forall a | a in r.attempts ensures a in t.attempts && AttemptLater(r.attempts[a], t.attempts[a]) {
      AttemptsLaterOrder(r.attempts[a], s.attempts[a], t.attempts[a]);
    }
  }

  lemma LaterIsAnOrder()
    ensures Order(Later)
  {
    forall s ensures Later(s, s) {}
    hide Later;
    forall r, s, t | Later(r, s) && Later(s, t) ensures Later(r, t) { LaterIsTransitive(r, s, t); }
  }

  // ---- The transitions a batch can make --------------------------------------------------

  function LeaseSet(s: Db, d: Id, lease: Option<Lease>, at: Ms): Db
    requires d in s.heads
  {
    var h := s.heads[d];
    s.(heads := s.heads[d := h.(lease := lease, updatedAt := Max(h.updatedAt, at))])
  }

  lemma LeaseSetIsSound(s: Db, d: Id, lease: Option<Lease>, at: Ms)
    requires LedgerSound(s) && d in s.heads && !s.heads[d].Settled()
    requires s.heads[d].state == RequestStarted ==> lease.Some?
    ensures LedgerSound(LeaseSet(s, d, lease, at))
  {
    hide EvidenceSound, HistoryContiguous, AllNumbersTaken, AttemptsIn, ExhaustingAttempts;
    var s' := LeaseSet(s, d, lease, at);
    assert HeadSound(s.heads[d], s.attempts, d) && HeadSound(s'.heads[d], s.attempts, d);
    forall a | a in s'.attempts ensures AttemptSound(a, s'.heads, s'.attempts) {
      assert AttemptSound(a, s.heads, s.attempts);
    }
  }

  // One attempt of delivery `d` is inserted or changed without losing its number.
  ghost predicate AttemptWritten(attempts: map<Id, Attempt>, a: Id, row: Attempt) {
    a in attempts ==> attempts[a].deliveryId == row.deliveryId && attempts[a].number == row.number
  }

  lemma NumbersStayTaken(attempts: map<Id, Attempt>, a: Id, row: Attempt, e: Id, count: nat)
    requires AllNumbersTaken(attempts, e, count) && AttemptWritten(attempts, a, row)
    ensures AllNumbersTaken(attempts[a := row], e, count)
  {
    var after := attempts[a := row];
    forall n | 1 <= n <= count ensures NumberTaken(after, e, n) {
      assert NumberTaken(attempts, e, n);
      var b :| b in attempts && attempts[b].deliveryId == e && attempts[b].number == n;
      assert b in after && after[b].deliveryId == e && after[b].number == n;
    }
  }

  // What writing an attempt does to the tallies of a delivery.
  lemma TalliesAfterWrite(attempts: map<Id, Attempt>, a: Id, row: Attempt, e: Id)
    requires AttemptWritten(attempts, a, row) && (a in attempts ==> attempts[a].state == RequestStarted)
    ensures var landed := if row.state == AcceptanceUnknown && row.deliveryId == e then {a} else {};
            && AttemptsIn(attempts[a := row], e, AcceptanceUnknown) ==
               AttemptsIn(attempts, e, AcceptanceUnknown) + landed
            && a !in AttemptsIn(attempts, e, AcceptanceUnknown)
            && ExhaustingAttempts(attempts[a := row], e) ==
               ExhaustingAttempts(attempts, e) + (if row.kind == MarkedResend then landed else {})
  {
  }

  // Heads do not see the attempts of other deliveries.
  lemma OtherHeadKept(h: Head, attempts: map<Id, Attempt>, a: Id, row: Attempt, e: Id)
    requires HeadSound(h, attempts, e) && row.deliveryId != e
    requires AttemptWritten(attempts, a, row) && (a in attempts ==> attempts[a].state == RequestStarted)
    ensures HeadSound(h, attempts[a := row], e)
  {
    TalliesAfterWrite(attempts, a, row, e);
    NumbersStayTaken(attempts, a, row, e, h.attemptCount);
  }

  function AttemptStarted(s: Db, i: StartInput): Db
    requires i.deliveryId in s.heads
  {
    var h := s.heads[i.deliveryId];
    s.(attempts := s.attempts[i.attemptId := StartedAttempt(h, i)],
       heads := s.heads[i.deliveryId := h.(state := RequestStarted, currentAttempt := Some(i.attemptId),
                                           attemptCount := h.attemptCount + 1, version := h.version + 1,
                                           updatedAt := i.startedAt,
                                           lease := Some(Lease(i.claimId, i.startedAt, i.startedAt + i.leaseMs)))])
  }

  lemma StartedHeadIsSound(h: Head, attempts: map<Id, Attempt>, d: Id, h': Head, a: Id, row: Attempt)
    requires HeadSound(h, attempts, d) && h.Dispatchable() && a !in attempts
    requires row.deliveryId == d && row.number == h.attemptCount + 1 && row.state == RequestStarted
    requires h'.version == h.version + 1 && h'.attemptCount == h.attemptCount + 1 && h'.state == RequestStarted
    requires h'.currentAttempt == Some(a) && h'.lease.Some?
    requires h'.unknownCount == h.unknownCount && h'.exhausted == h.exhausted
    ensures HeadSound(h', attempts[a := row], d)
  {
    TalliesAfterWrite(attempts, a, row, d);
    NumbersStayTaken(attempts, a, row, d, h.attemptCount);
    var after := attempts[a := row];
    assert after[a].deliveryId == d && after[a].number == h'.attemptCount;
    assert NumberTaken(after, d, h'.attemptCount);
  }

  lemma NothingBlocksDispatch(s: Db, d: Id, a: Id)
    requires TablesSound(s) && d in s.heads && s.heads[d].Dispatchable()
    requires a in s.attempts && s.attempts[a].deliveryId == d
    ensures !Blocks(s.attempts[a])
  {
    assert HeadSound(s.heads[d], s.attempts, d) && AttemptSound(a, s.heads, s.attempts);
    assert s.attempts[a].state == AcceptanceUnknown && s.attempts[a].kind == MarkedResend ==>
        a in ExhaustingAttempts(s.attempts, d);
  }

  lemma StartKeepsAttempt(s: Db, i: StartInput, b: Id)
    requires TablesSound(s) && i.deliveryId in s.heads && s.heads[i.deliveryId].Dispatchable()
    requires i.attemptId !in s.attempts && b in AttemptStarted(s, i).attempts
    ensures var s' := AttemptStarted(s, i); AttemptSound(b, s'.heads, s'.attempts)
  {
    hide HeadSound;
    assert forall a :: a in s.attempts ==> AttemptSound(a, s.heads, s.attempts);
    if b in s.attempts && s.attempts[b].deliveryId == i.deliveryId {
      NothingBlocksDispatch(s, i.deliveryId, b);
    }
  }

  lemma StartKeepsEvidence(s: Db, a: Id, row: Attempt)
    requires EvidenceSound(s.attempts, s.facts, s.outbox, s.history)
    requires a !in s.attempts && row.state == RequestStarted
    ensures EvidenceSound(s.attempts[a := row], s.facts, s.outbox, s.history)
  {
  }

  lemma AttemptStartedIsSound(s: Db, i: StartInput)
    requires LedgerSound(s) && i.deliveryId in s.heads && s.heads[i.deliveryId].Dispatchable()
    requires i.attemptId !in s.attempts
    ensures LedgerSound(AttemptStarted(s, i))
  {
    hide MirrorsCurrent, CountsUnknowns, AllNumbersTaken, AttemptSound, EvidenceSound, HistoryContiguous;
    var s', a, d := AttemptStarted(s, i), i.attemptId, i.deliveryId;
    assert TablesSound(s') by {
      forall e | e in s'.heads ensures HeadSound(s'.heads[e], s'.attempts, e) {
        assert HeadSound(s.heads[e], s.attempts, e);
        if e == d { StartedHeadIsSound(s.heads[d], s.attempts, d, s'.heads[d], a, s'.attempts[a]); }
        else { OtherHeadKept(s.heads[e], s.attempts, a, s'.attempts[a], e); }
      }
      forall b | b in s'.attempts ensures AttemptSound(b, s'.heads, s'.attempts) { StartKeepsAttempt(s, i, b); }
    }
    StartKeepsEvidence(s, a, s'.attempts[a]);
  }

  function HeadAndAttemptResolved(s: Db, i: CompleteInput): Db
    requires i.deliveryId in s.heads && i.attemptId in s.attempts
  {
    var h, row := s.heads[i.deliveryId], s.attempts[i.attemptId];
    var unknown := i.state == AcceptanceUnknown;
    s.(attempts := s.attempts[i.attemptId := row.(state := i.state, answer := i.answer,
                                                  completedAt := Some(i.completedAt))],
       heads := s.heads[i.deliveryId := h.(state := i.state, version := h.version + 1, updatedAt := i.completedAt,
                                           unknownCount := h.unknownCount + (if unknown then 1 else 0),
                                           exhausted := h.exhausted || (unknown && row.kind == MarkedResend),
                                           lease := None)])
  }

  lemma ResolvedHeadIsSound(h: Head, attempts: map<Id, Attempt>, d: Id, h': Head, a: Id, row: Attempt)
    requires HeadSound(h, attempts, d) && h.state == RequestStarted && h.currentAttempt == Some(a)
    requires AttemptWritten(attempts, a, row) && row.kind == attempts[a].kind
    requires row.state == h'.state && row.state != RequestStarted && row.state != Idle
    requires h'.version == h.version + 1 && h'.attemptCount == h.attemptCount
    requires h'.currentAttempt == Some(a) && h'.lease.None?
    requires h'.unknownCount == h.unknownCount + (if row.state == AcceptanceUnknown then 1 else 0)
    requires h'.exhausted == (h.exhausted || (row.state == AcceptanceUnknown && row.kind == MarkedResend))
    ensures HeadSound(h', attempts[a := row], d)
  {
    TalliesAfterWrite(attempts, a, row, d);
    NumbersStayTaken(attempts, a, row, d, h.attemptCount);
  }

  lemma ResolutionKeepsAttempt(s: Db, i: CompleteInput, b: Id)
    requires TablesSound(s) && Holds(InFlight(i.deliveryId, i.attemptId, i.claimId), s) && i.state != Idle
    requires b in s.attempts
    ensures var s' := HeadAndAttemptResolved(s, i); AttemptSound(b, s'.heads, s'.attempts)
  {
    hide HeadSound;
    assert AttemptSound(b, s.heads, s.attempts);
  }

  lemma ResolutionKeepsTables(s: Db, i: CompleteInput)
    requires TablesSound(s) && CompleteInputValid(i) && Holds(InFlight(i.deliveryId, i.attemptId, i.claimId), s)
    ensures TablesSound(HeadAndAttemptResolved(s, i))
  {
    var s', a, d := HeadAndAttemptResolved(s, i), i.attemptId, i.deliveryId;
    hide MirrorsCurrent, CountsUnknowns, AllNumbersTaken, AttemptSound;
    forall e | e in s'.heads ensures HeadSound(s'.heads[e], s'.attempts, e) {
      assert HeadSound(s.heads[e], s.attempts, e);
      if e == d { ResolvedHeadIsSound(s.heads[d], s.attempts, d, s'.heads[d], a, s'.attempts[a]); }
      else { OtherHeadKept(s.heads[e], s.attempts, a, s'.attempts[a], e); }
    }
    forall b | b in s'.attempts ensures AttemptSound(b, s'.heads, s'.attempts) {
      ResolutionKeepsAttempt(s, i, b);
    }
  }

  function EvidenceAdded(s: Db, fact: Fact, pointer: Pointer, row: HistoryRow): Db {
    s.(facts := s.facts + [fact], outbox := s.outbox + [pointer], history := s.history + [row])
  }

  ghost predicate Triple(f: Fact, p: Pointer, r: HistoryRow) {
    && p.factId == f.id && r.factId == f.id && p.deliveryId == f.deliveryId && r.deliveryId == f.deliveryId
    && p.receiptId == f.receiptId && r.receiptId == f.receiptId && r.attemptId == f.attemptId
  }

  // The attempts differ at most in the one the new fact resolves.
  lemma EvidenceAddedIsSound(before: Db, after: Db, f: Fact, p: Pointer, r: HistoryRow)
    requires EvidenceSound(before.attempts, before.facts, before.outbox, before.history)
    requires after.facts == before.facts && after.outbox == before.outbox && after.history == before.history
    requires !HasFact(before, f.id) && Triple(f, p, r)
    requires if Resolves(f) then
               && f.attemptId.Some? && f.attemptId.value in before.attempts && f.attemptId.value in after.attempts
               && before.attempts[f.attemptId.value].state == RequestStarted
               && after.attempts == before.attempts[f.attemptId.value := after.attempts[f.attemptId.value]]
               && after.attempts[f.attemptId.value].state != RequestStarted
               && RecordsTruthfully(f, after.attempts[f.attemptId.value])
             else after.attempts == before.attempts
    ensures var s' := EvidenceAdded(after, f, p, r); EvidenceSound(s'.attempts, s'.facts, s'.outbox, s'.history)
  {
    hide RecordsTruthfully;
    var s', n := EvidenceAdded(after, f, p, r), |before.facts|;
    forall a | a in s'.attempts && s'.attempts[a].state != RequestStarted ensures Recorded(s'.facts, a) {
      if Resolves(f) && f.attemptId == Some(a) {
        assert s'.facts[n] == f;
      } else {
        assert a in before.attempts && Recorded(before.facts, a);
        var i :| 0 <= i < n && Resolves(before.facts[i]) && before.facts[i].attemptId == Some(a);
        assert s'.facts[i] == before.facts[i];
      }
    }
  }

  lemma HistoryStaysContiguous(rows: seq<HistoryRow>, r: HistoryRow)
    requires HistoryContiguous(rows) && r.sequence == NextSequence(rows, r.threadId)
    ensures HistoryContiguous(rows + [r])
  {
    var rows' := rows + [r];
    forall i | 0 <= i < |rows'| ensures rows'[i].sequence == NextSequence(rows'[..i], rows'[i].threadId) {
      assert rows'[..i] == rows[..i];
      if i == |rows| { assert rows[..i] == rows; }
    }
  }

  // ---- Each unit decides at the commit state what it decided from its snapshots ----------

  lemma HeadWriteIsLater(s: Db, s': Db, d: Id)
    requires d in s.heads && d in s'.heads && s' == s.(heads := s.heads[d := s'.heads[d]])
    requires HeadLater(s.heads[d], s'.heads[d])
    ensures Later(s, s')
  {
  }

  lemma ClaimDecides(d: Id, claimId: Id, now: Ms, leaseMs: int, r: Db, s: Db)
    requires d in s.heads && d in r.heads && HeadLater(r.heads[d], s.heads[d])
    requires var action := DecideClaim(r, d, claimId, now, leaseMs); action.writes != [] && Holds(action.guards[0], s)
    ensures DecideClaim(r, d, claimId, now, leaseMs) == DecideClaim(s, d, claimId, now, leaseMs)
    ensures s.heads[d].Claimable() && (s.heads[d].lease.Some? ==> s.heads[d].lease.value.expiresAt <= now)
  {
  }

  lemma ClaimApplies(d: Id, lease: Lease, s: Db, s': Db)
    requires d in s.heads && LEDGER.ApplyAll([TakeLease(d, lease)], s) == Some(s')
    ensures s' == LeaseSet(s, d, Some(lease), lease.acquiredAt)
  {
    ApplyOne(LEDGER, TakeLease(d, lease), s);
  }

  lemma ReleaseApplies(d: Id, claimId: Id, now: Ms, s: Db, s': Db)
    requires Holds(HeldAndNotStarted(d, claimId), s)
    requires LEDGER.ApplyAll([DropLease(d, claimId, now)], s) == Some(s')
    ensures s' == LeaseSet(s, d, None, now)
  {
    ApplyOne(LEDGER, DropLease(d, claimId, now), s);
  }

  lemma StartDecides(i: StartInput, r: Db, s: Db)
    requires i.deliveryId in r.heads && i.deliveryId in s.heads
    requires HeadLater(r.heads[i.deliveryId], s.heads[i.deliveryId])
    requires DecideStart(r, i).Finish? && Holds(DecideStart(r, i).guards[0], s)
    ensures DecideStart(r, i) == DecideStart(s, i)
  {
  }

  lemma StartApplies(i: StartInput, s: Db, s': Db)
    requires DecideStart(s, i).Finish? && LEDGER.ApplyAll(DecideStart(s, i).writes, s) == Some(s')
    ensures i.attemptId !in s.attempts && s' == AttemptStarted(s, i)
  {
    var first, second := DecideStart(s, i).writes[0], DecideStart(s, i).writes[1];
    assert DecideStart(s, i).writes == [first] + [second];
    ApplyAllAppend(LEDGER, [first], [second], s);
    ApplyOne(LEDGER, first, s);
    ApplyOne(LEDGER, second, Apply(first, s).value);
  }

  lemma StartIsLater(s: Db, i: StartInput)
    requires i.deliveryId in s.heads && s.heads[i.deliveryId].Dispatchable() && i.attemptId !in s.attempts
    ensures Later(s, AttemptStarted(s, i))
  {
  }

  // The batch of a completion, fenced or not, at state `s`.
  function Completed_(s: Db, i: CompleteInput, fenced: bool): Db
    requires i.deliveryId in s.heads && i.attemptId in s.attempts && s.heads[i.deliveryId].refs.receiptId.Some?
  {
    var h, row := s.heads[i.deliveryId], s.attempts[i.attemptId];
    EvidenceAdded(if fenced then s else HeadAndAttemptResolved(s, i),
                  FactFor(h, row, i, fenced),
                  Pointer(i.pointerId, h.refs.receiptId.value, i.factId, i.deliveryId, i.completedAt),
                  HistoryFor(h, i, fenced, NextSequence(s.history, h.refs.threadId)))
  }

  lemma EvidenceApplies(s: Db, s': Db, f: Fact, p: Pointer, r: HistoryRow)
    requires LEDGER.ApplyAll([InsertFact(f), InsertPointer(p), InsertHistory(r)], s) == Some(s')
    ensures s' == EvidenceAdded(s, f, p, r) && !HasFact(s, f.id)
  {
    var w0, w1, w2 := InsertFact(f), InsertPointer(p), InsertHistory(r);
    assert [w0, w1, w2] == [w0] + ([w1] + [w2]);
    ApplyAllAppend(LEDGER, [w0], [w1] + [w2], s);
    ApplyOne(LEDGER, w0, s);
    var s1 := Apply(w0, s).value;
    ApplyAllAppend(LEDGER, [w1], [w2], s1);
    ApplyOne(LEDGER, w1, s1);
    ApplyOne(LEDGER, w2, Apply(w1, s1).value);
  }

  lemma ResolutionApplies(s: Db, i: CompleteInput, exhausts: bool)
    requires Holds(InFlight(i.deliveryId, i.attemptId, i.claimId), s)
    requires exhausts == (i.state == AcceptanceUnknown && s.attempts[i.attemptId].kind == MarkedResend)
    ensures var after := LEDGER.ApplyAll([ResolveAttempt(i.attemptId, i.state, i.answer, i.completedAt),
                                          HeadResolved(i.deliveryId, i.attemptId, i.claimId, i.state, exhausts,
                                                       i.completedAt)], s);
            after.Some? ==> after.value == HeadAndAttemptResolved(s, i)
  {
    var w0 := ResolveAttempt(i.attemptId, i.state, i.answer, i.completedAt);
    var w1 := HeadResolved(i.deliveryId, i.attemptId, i.claimId, i.state, exhausts, i.completedAt);
    assert [w0, w1] == [w0] + [w1];
    ApplyAllAppend(LEDGER, [w0], [w1], s);
    ApplyOne(LEDGER, w0, s);
    if Apply(w0, s).Some? { ApplyOne(LEDGER, w1, Apply(w0, s).value); }
  }

  ghost predicate Mirrored(s: Db) {
    forall d :: d in s.heads ==> MirrorsCurrent(s.heads[d], s.attempts, d)
  }

  lemma SoundIsMirrored(s: Db)
    requires LedgerSound(s)
    ensures Mirrored(s)
  {
    forall d | d in s.heads ensures MirrorsCurrent(s.heads[d], s.attempts, d) {
      assert HeadSound(s.heads[d], s.attempts, d);
    }
  }

  // While a claim has an attempt in flight the version cannot move, although no guard names it.
  lemma InFlightPinsVersion(r: Db, s: Db, d: Id, a: Id, claimId: Id)
    requires Mirrored(r) && Mirrored(s) && Later(r, s)
    requires d in r.heads && r.heads[d].state == RequestStarted && r.heads[d].currentAttempt == Some(a)
    requires Holds(InFlight(d, a, claimId), s)
    ensures r.heads[d].version == s.heads[d].version
  {
    assert AttemptLater(r.attempts[a], s.attempts[a]);
  }

  lemma CompleteDecides(i: CompleteInput, r0: Db, r1: Db, r2: Db, s: Db)
    requires DecideComplete(r0, r1, r2, i).Finish? && LEDGER.AllHold(DecideComplete(r0, r1, r2, i).guards, s)
    requires i.deliveryId in s.heads && HeadLater(r0.heads[i.deliveryId], s.heads[i.deliveryId])
    requires i.attemptId in s.attempts && AttemptLater(r1.attempts[i.attemptId], s.attempts[i.attemptId])
    requires r0.heads[i.deliveryId].HeldBy(i.claimId) ==>
               r0.heads[i.deliveryId].version == s.heads[i.deliveryId].version
    ensures s.heads[i.deliveryId].refs.receiptId.Some? && s.attempts[i.attemptId].deliveryId == i.deliveryId
    ensures var held := s.heads[i.deliveryId].HeldBy(i.claimId);
            var there, here := DecideComplete(r0, r1, r2, i), DecideComplete(s, s, s, i);
            && here.Finish? && here.guards == there.guards && here.writes == there.writes
            && (held ==> here.value == there.value && Holds(InFlight(i.deliveryId, i.attemptId, i.claimId), s))
            && (!held ==> there.value == Completed(true, r0.heads[i.deliveryId].View()))
  {
    var action := DecideComplete(r0, r1, r2, i);
    assert Holds(action.guards[0], s) && Holds(action.guards[1], s);
  }

  lemma CompleteApplies(i: CompleteInput, s: Db, s': Db)
    requires DecideComplete(s, s, s, i).Finish?
    requires LEDGER.ApplyAll(DecideComplete(s, s, s, i).writes, s) == Some(s')
    ensures var fenced := !s.heads[i.deliveryId].HeldBy(i.claimId);
            s' == Completed_(s, i, fenced) && !HasFact(s, i.factId)
  {
    var h, row := s.heads[i.deliveryId], s.attempts[i.attemptId];
    var fenced := !h.HeldBy(i.claimId);
    var f := FactFor(h, row, i, fenced);
    var p := Pointer(i.pointerId, h.refs.receiptId.value, i.factId, i.deliveryId, i.completedAt);
    var r := HistoryFor(h, i, fenced, NextSequence(s.history, h.refs.threadId));
    if fenced {
      EvidenceApplies(s, s', f, p, r);
    } else {
      var exhausts := i.state == AcceptanceUnknown && row.kind == MarkedResend;
      var first := [ResolveAttempt(i.attemptId, i.state, i.answer, i.completedAt),
                    HeadResolved(i.deliveryId, i.attemptId, i.claimId, i.state, exhausts, i.completedAt)];
      ApplyAllAppend(LEDGER, first, [InsertFact(f), InsertPointer(p), InsertHistory(r)], s);
      ResolutionApplies(s, i, exhausts);
      EvidenceApplies(HeadAndAttemptResolved(s, i), s', f, p, r);
    }
  }

  lemma ResolutionIsLater(s: Db, i: CompleteInput)
    requires Holds(InFlight(i.deliveryId, i.attemptId, i.claimId), s)
    ensures Later(s, HeadAndAttemptResolved(s, i))
  {
  }

  lemma FencedCompletionIsSound(i: CompleteInput, s: Db)
    requires LedgerSound(s) && !HasFact(s, i.factId)
    requires i.deliveryId in s.heads && i.attemptId in s.attempts && s.heads[i.deliveryId].refs.receiptId.Some?
    ensures LedgerSound(Completed_(s, i, true))
  {
    hide RecordsTruthfully;
    hide HeadSound, AttemptSound, EvidenceSound, HistoryContiguous;
    var h, row := s.heads[i.deliveryId], s.attempts[i.attemptId];
    var p := Pointer(i.pointerId, h.refs.receiptId.value, i.factId, i.deliveryId, i.completedAt);
    var r := HistoryFor(h, i, true, NextSequence(s.history, h.refs.threadId));
    EvidenceAddedIsSound(s, s, FactFor(h, row, i, true), p, r);
    HistoryStaysContiguous(s.history, r);
  }

  lemma ResolutionIsRecorded(i: CompleteInput, s: Db)
    requires CompleteInputValid(i) && Holds(InFlight(i.deliveryId, i.attemptId, i.claimId), s)
    requires s.heads[i.deliveryId].refs.receiptId.Some?
    ensures RecordsTruthfully(FactFor(s.heads[i.deliveryId], s.attempts[i.attemptId], i, false),
                              HeadAndAttemptResolved(s, i).attempts[i.attemptId])
  {
  }

  lemma OpenCompletionEvidence(i: CompleteInput, s: Db)
    requires EvidenceSound(s.attempts, s.facts, s.outbox, s.history) && HistoryContiguous(s.history)
    requires CompleteInputValid(i) && !HasFact(s, i.factId)
    requires Holds(InFlight(i.deliveryId, i.attemptId, i.claimId), s) && s.heads[i.deliveryId].refs.receiptId.Some?
    ensures var s' := Completed_(s, i, false);
            EvidenceSound(s'.attempts, s'.facts, s'.outbox, s'.history) && HistoryContiguous(s'.history)
  {
    hide RecordsTruthfully;
    var h, row := s.heads[i.deliveryId], s.attempts[i.attemptId];
    var p := Pointer(i.pointerId, h.refs.receiptId.value, i.factId, i.deliveryId, i.completedAt);
    var r := HistoryFor(h, i, false, NextSequence(s.history, h.refs.threadId));
    ResolutionIsRecorded(i, s);
    EvidenceAddedIsSound(s, HeadAndAttemptResolved(s, i), FactFor(h, row, i, false), p, r);
    HistoryStaysContiguous(s.history, r);
  }

  lemma OpenCompletionIsSound(i: CompleteInput, s: Db)
    requires LedgerSound(s) && CompleteInputValid(i) && !HasFact(s, i.factId)
    requires Holds(InFlight(i.deliveryId, i.attemptId, i.claimId), s) && s.heads[i.deliveryId].refs.receiptId.Some?
    ensures LedgerSound(Completed_(s, i, false))
  {
    hide HeadSound, AttemptSound, EvidenceSound, HistoryContiguous;
    ResolutionKeepsTables(s, i);
    OpenCompletionEvidence(i, s);
    var s1, s' := HeadAndAttemptResolved(s, i), Completed_(s, i, false);
    assert s'.heads == s1.heads && s'.attempts == s1.attempts;
    assert TablesSound(s');
  }

  lemma CompletionIsLater(i: CompleteInput, s: Db)
    requires i.deliveryId in s.heads && i.attemptId in s.attempts && s.heads[i.deliveryId].refs.receiptId.Some?
    requires s.heads[i.deliveryId].HeldBy(i.claimId) ==> Holds(InFlight(i.deliveryId, i.attemptId, i.claimId), s)
    ensures Later(s, Completed_(s, i, !s.heads[i.deliveryId].HeldBy(i.claimId)))
  {
    if s.heads[i.deliveryId].HeldBy(i.claimId) { ResolutionIsLater(s, i); }
  }

  // ---- One request, any snapshots: what its batch leads to -------------------------------

  lemma ClaimEffect(d: Id, claimId: Id, now: Ms, leaseMs: int, seen: seq<Db>, s: Db, s': Db)
    requires CommitsTo(LEDGER, ClaimWork(d, claimId, now, leaseMs), seen, s, s')
    requires forall r :: r in seen ==> Later(r, s)
    ensures d in s.heads && s.heads[d].Claimable()
    ensures s.heads[d].lease.Some? ==> s.heads[d].lease.value.expiresAt <= now
    ensures s' == LeaseSet(s, d, Some(Lease(claimId, now, now + leaseMs)), now)
    ensures ClaimWork(d, claimId, now, leaseMs).decide(seen) == DecideClaim(s, d, claimId, now, leaseMs)
  {
    assert Later(seen[0], s);
    ClaimDecides(d, claimId, now, leaseMs, seen[0], s);
    ClaimApplies(d, Lease(claimId, now, now + leaseMs), s, s');
  }

  lemma ClaimCommits(d: Id, claimId: Id, now: Ms, leaseMs: int, seen: seq<Db>, s: Db, s': Db)
    requires CommitsTo(LEDGER, ClaimWork(d, claimId, now, leaseMs), seen, s, s')
    requires LedgerSound(s) && forall r :: r in seen ==> Later(r, s)
    ensures LedgerSound(s') && Later(s, s')
  {
    hide LedgerSound, Later, CommitsTo;
    ClaimEffect(d, claimId, now, leaseMs, seen, s, s');
    LeaseSetIsSound(s, d, Some(Lease(claimId, now, now + leaseMs)), now);
    HeadWriteIsLater(s, s', d);
  }

  lemma ReleaseEffect(d: Id, claimId: Id, now: Ms, seen: seq<Db>, s: Db, s': Db)
    requires CommitsTo(LEDGER, ReleaseWork(d, claimId, now), seen, s, s')
    ensures d in s.heads && s.heads[d].HeldBy(claimId) && s.heads[d].state != RequestStarted
    ensures s' == LeaseSet(s, d, None, now)
    ensures ReleaseWork(d, claimId, now).decide(seen) == DecideRelease(s, d, claimId, now)
  {
    assert Holds(HeldAndNotStarted(d, claimId), s);
    ReleaseApplies(d, claimId, now, s, s');
  }

  lemma ReleaseCommits(d: Id, claimId: Id, now: Ms, seen: seq<Db>, s: Db, s': Db)
    requires CommitsTo(LEDGER, ReleaseWork(d, claimId, now), seen, s, s')
    requires LedgerSound(s)
    ensures LedgerSound(s') && Later(s, s')
  {
    ReleaseEffect(d, claimId, now, seen, s, s');
    assert HeadSound(s.heads[d], s.attempts, d);
    LeaseSetIsSound(s, d, None, now);
    HeadWriteIsLater(s, s', d);
  }

  lemma StartEffect(i: StartInput, seen: seq<Db>, s: Db, s': Db)
    requires CommitsTo(LEDGER, StartWork(i), seen, s, s') && forall r :: r in seen ==> Later(r, s)
    ensures i.deliveryId in s.heads && i.attemptId !in s.attempts && s' == AttemptStarted(s, i)
    ensures StartWork(i).decide(seen) == DecideStart(s, i) && DecideStart(s, i).Finish?
  {
    assert Later(seen[0], s) && Holds(StartWork(i).decide(seen).guards[0], s);
    StartDecides(i, seen[0], s);
    StartApplies(i, s, s');
  }

  lemma StartCommits(i: StartInput, seen: seq<Db>, s: Db, s': Db)
    requires CommitsTo(LEDGER, StartWork(i), seen, s, s')
    requires LedgerSound(s) && forall r :: r in seen ==> Later(r, s)
    ensures LedgerSound(s') && Later(s, s')
  {
    hide LedgerSound, Later, CommitsTo;
    StartEffect(i, seen, s, s');
    AttemptStartedIsSound(s, i);
    StartIsLater(s, i);
  }

  lemma CompleteReads(i: CompleteInput, r0: Db, r1: Db, r2: Db, s: Db)
    requires DecideComplete(r0, r1, r2, i).Finish? && LEDGER.AllHold(DecideComplete(r0, r1, r2, i).guards, s)
    requires Later(r0, s) && Later(r1, s) && Mirrored(r0) && Mirrored(s)
    ensures i.deliveryId in s.heads && HeadLater(r0.heads[i.deliveryId], s.heads[i.deliveryId])
    ensures i.attemptId in s.attempts && AttemptLater(r1.attempts[i.attemptId], s.attempts[i.attemptId])
    ensures r0.heads[i.deliveryId].HeldBy(i.claimId) ==>
              r0.heads[i.deliveryId].version == s.heads[i.deliveryId].version
  {
    if r0.heads[i.deliveryId].HeldBy(i.claimId) {
      assert Holds(DecideComplete(r0, r1, r2, i).guards[0], s);
      InFlightPinsVersion(r0, s, i.deliveryId, i.attemptId, i.claimId);
    }
  }

  lemma CompleteEffect(i: CompleteInput, seen: seq<Db>, s: Db, s': Db)
    requires CommitsTo(LEDGER, CompleteWork(i), seen, s, s') && forall r :: r in seen ==> Later(r, s)
    requires Mirrored(s) && forall r :: r in seen ==> Mirrored(r)
    ensures i.deliveryId in s.heads && i.attemptId in s.attempts && s.heads[i.deliveryId].refs.receiptId.Some?
    ensures s.attempts[i.attemptId].deliveryId == i.deliveryId && CompleteInputValid(i) && !HasFact(s, i.factId)
    ensures s' == Completed_(s, i, !s.heads[i.deliveryId].HeldBy(i.claimId))
    ensures |seen| >= 3 && i.deliveryId in seen[0].heads
    ensures var held := s.heads[i.deliveryId].HeldBy(i.claimId);
            var there, here := CompleteWork(i).decide(seen), DecideComplete(s, s, s, i);
            && here.Finish? && here.guards == there.guards && here.writes == there.writes
            && (held ==> here.value == there.value && Holds(InFlight(i.deliveryId, i.attemptId, i.claimId), s))
            && (!held ==> there.value == Completed(true, seen[0].heads[i.deliveryId].View()))
  {
    assert CompleteWork(i).decide(seen) == DecideComplete(seen[0], seen[1], seen[2], i);
    CompleteReads(i, seen[0], seen[1], seen[2], s);
    CompleteDecides(i, seen[0], seen[1], seen[2], s);
    CompleteApplies(i, s, s');
  }

  lemma CompleteCommits(i: CompleteInput, seen: seq<Db>, s: Db, s': Db)
    requires CommitsTo(LEDGER, CompleteWork(i), seen, s, s') && forall r :: r in seen ==> Later(r, s)
    requires LedgerSound(s) && forall r :: r in seen ==> Mirrored(r)
    ensures LedgerSound(s') && Later(s, s')
  {
    hide LedgerSound, Later, CommitsTo;
    SoundIsMirrored(s);
    CompleteEffect(i, seen, s, s');
    if s.heads[i.deliveryId].HeldBy(i.claimId) { OpenCompletionIsSound(i, s); } else { FencedCompletionIsSound(i, s); }
    CompletionIsLater(i, s);
  }
}
