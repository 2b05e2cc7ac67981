// What one more retry of an ambiguous delivery leads to, and which starts lose the bound of two unknowns.
module DeliveryRounds {
  import opened Sets
  import opened Wrappers
  import opened AtomicBatch
  import opened Serializability
  import opened DeliveryLedger
  import opened DeliverySafety
  import opened DeliveryTheorems
  import opened DeliveryBounds

  // ---- One more round: claim, start, lose the answer --------------------------------------

  // An unknown outcome with nobody at work on the delivery.
  predicate Ambiguous(h: Head) {
    && h.state == AcceptanceUnknown && !h.exhausted && h.unknownCount > 0 && h.lease.None?
    && h.refs.receiptId.Some? && HeadAllowed(h, h)
  }

  predicate IdsFree(s: Db, i: CompleteInput) {
    && i.attemptId !in s.attempts && !HasFact(s, i.factId)
    && (forall k :: 0 <= k < |s.outbox| ==> s.outbox[k].id != i.pointerId)
    && (forall k :: 0 <= k < |s.history| ==> s.history[k].id != i.historyId)
  }

  lemma CollisionFree(s: Db, row: HistoryRow)
    requires HistoryContiguous(s.history) && row.sequence == NextSequence(s.history, row.threadId)
    requires forall k :: 0 <= k < |s.history| ==> s.history[k].id != row.id
    ensures forall k :: 0 <= k < |s.history| ==> !Collides(s.history[k], row)
  {
    forall k | 0 <= k < |s.history| ensures !Collides(s.history[k], row) {
      ThreadHasNoGap(s.history, row.threadId, s.history[k].sequence);
      assert s.history[k].threadId == row.threadId ==> HasSequence(s.history, row.threadId, s.history[k].sequence);
    }
  }

  lemma EvidenceRuns(s: Db, f: Fact, p: Pointer, r: HistoryRow)
    requires Triple(f, p, r) && !HasFact(s, f.id) && f.deliveryId in s.heads
    requires f.occurredAt >= 0 && p.createdAt >= 0 && r.occurredAt >= 0
    requires forall k :: 0 <= k < |s.outbox| ==> s.outbox[k].id != p.id
    requires forall k :: 0 <= k < |s.history| ==> !Collides(s.history[k], r)
    ensures LEDGER.ApplyAll([InsertFact(f), InsertPointer(p), InsertHistory(r)], s) == Some(EvidenceAdded(s, f, p, r))
  {
    var s1 := s.(facts := s.facts + [f]);
    var s2 := s1.(outbox := s1.outbox + [p]);
    assert Apply(InsertFact(f), s) == Some(s1);
    assert s1.facts[|s.facts|].id == f.id;
    assert Apply(InsertPointer(p), s1) == Some(s2);
    assert Apply(InsertHistory(r), s2) == Some(EvidenceAdded(s, f, p, r));
    ThreeApply(InsertFact(f), InsertPointer(p), InsertHistory(r), s, s1, s2);
  }

  lemma ThreeApply(w0: Write, w1: Write, w2: Write, s: Db, s1: Db, s2: Db)
    requires Apply(w0, s) == Some(s1) && Apply(w1, s1) == Some(s2)
    ensures LEDGER.ApplyAll([w0, w1, w2], s) == Apply(w2, s2)
  {
    hide Apply;
    assert [w0, w1, w2] == [w0] + ([w1] + [w2]);
    ApplyAllAppend(LEDGER, [w0], [w1] + [w2], s);
    ApplyOne(LEDGER, w0, s);
    ApplyAllAppend(LEDGER, [w1], [w2], s1);
    ApplyOne(LEDGER, w1, s1);
    ApplyOne(LEDGER, w2, s2);
  }

  lemma UnknownResolutionRuns(s: Db, i: CompleteInput)
    requires Holds(InFlight(i.deliveryId, i.attemptId, i.claimId), s) && i.state == AcceptanceUnknown
    requires i.answer.messageId.None? && i.answer.evidence.None?
    requires HeadAllowed(s.heads[i.deliveryId], s.heads[i.deliveryId])
    requires s.heads[i.deliveryId].unknownCount < s.heads[i.deliveryId].attemptCount
    requires i.completedAt >= s.heads[i.deliveryId].refs.createdAt
    requires var a := s.attempts[i.attemptId]; AttemptAllowed(a) && a.startedAt <= i.completedAt
    requires s.attempts[i.attemptId].kind == MarkedResend ==> s.heads[i.deliveryId].unknownCount >= 1
    ensures LEDGER.ApplyAll([ResolveAttempt(i.attemptId, i.state, i.answer, i.completedAt),
                             HeadResolved(i.deliveryId, i.attemptId, i.claimId, i.state,
                                          s.attempts[i.attemptId].kind == MarkedResend, i.completedAt)], s) ==
            Some(HeadAndAttemptResolved(s, i))
  {
    var w0 := ResolveAttempt(i.attemptId, i.state, i.answer, i.completedAt);
    var exhausts := s.attempts[i.attemptId].kind == MarkedResend;
    var w1 := HeadResolved(i.deliveryId, i.attemptId, i.claimId, i.state, exhausts, i.completedAt);
    assert [w0, w1] == [w0] + [w1];
    ApplyAllAppend(LEDGER, [w0], [w1], s);
    ApplyOne(LEDGER, w0, s);
    ApplyOne(LEDGER, w1, Apply(w0, s).value);
  }

  // An attempt is in flight and the worker's lost answer can be recorded.
  predicate AmbiguityReady(s: Db, i: CompleteInput) {
    && CompleteInputValid(i) && Holds(InFlight(i.deliveryId, i.attemptId, i.claimId), s)
    && i.state == AcceptanceUnknown && i.answer.messageId.None? && i.answer.evidence.None?
    && var h, a := s.heads[i.deliveryId], s.attempts[i.attemptId];
    && h.refs.receiptId.Some? && HeadAllowed(h, h) && h.unknownCount < h.attemptCount
    && i.completedAt >= h.refs.createdAt && i.completedAt >= 0
    && AttemptAllowed(a) && a.startedAt <= i.completedAt && (a.kind == MarkedResend ==> h.unknownCount >= 1)
    && !HasFact(s, i.factId)
    && (forall k :: 0 <= k < |s.outbox| ==> s.outbox[k].id != i.pointerId)
    && (forall k :: 0 <= k < |s.history| ==> s.history[k].id != i.historyId)
  }

  lemma AmbiguityBatch(s: Db, i: CompleteInput)
    requires HistoryContiguous(s.history) && AmbiguityReady(s, i)
    ensures DecideComplete(s, s, s, i).Finish?
    ensures LEDGER.ApplyAll(DecideComplete(s, s, s, i).writes, s) == Some(Completed_(s, i, false))
  {
    var h, row := s.heads[i.deliveryId], s.attempts[i.attemptId];
    var f, r := FactFor(h, row, i, false), HistoryFor(h, i, false, NextSequence(s.history, h.refs.threadId));
    var p := Pointer(i.pointerId, h.refs.receiptId.value, i.factId, i.deliveryId, i.completedAt);
    var first := [ResolveAttempt(i.attemptId, i.state, i.answer, i.completedAt),
                  HeadResolved(i.deliveryId, i.attemptId, i.claimId, i.state, row.kind == MarkedResend, i.completedAt)];
    assert DecideComplete(s, s, s, i).writes == first + [InsertFact(f), InsertPointer(p), InsertHistory(r)];
    ApplyAllAppend(LEDGER, first, [InsertFact(f), InsertPointer(p), InsertHistory(r)], s);
    UnknownResolutionRuns(s, i);
    CollisionFree(s, r);
    EvidenceRuns(HeadAndAttemptResolved(s, i), f, p, r);
  }

  // The retry after an unknown: marked, or through a natively idempotent provider.
  function RetryStart(h: Head, i: CompleteInput, marked: bool): StartInput {
    StartInput(i.deliveryId, h.version, i.claimId, 1, i.attemptId, if marked then MarkedResend else Original,
               if marked then Some(h.refs.envelopeDigest + "x") else None,
               if marked then NoIdempotency else NativeKey, i.completedAt)
  }

  predicate RoundReady(s: Db, i: CompleteInput) {
    && i.deliveryId in s.heads && Ambiguous(s.heads[i.deliveryId]) && IdsFree(s, i)
    && i.completedAt >= 0 && i.completedAt >= s.heads[i.deliveryId].refs.createdAt
    && i.state == AcceptanceUnknown && CompleteInputValid(i) && i.answer.evidence.None? && i.answer.messageId.None?
  }

  function Leased(s: Db, i: CompleteInput): Db
    requires i.deliveryId in s.heads
  {
    LeaseSet(s, i.deliveryId, Some(Lease(i.claimId, i.completedAt, i.completedAt + 1)), i.completedAt)
  }

  function Retried(s: Db, i: CompleteInput, marked: bool): Db
    requires i.deliveryId in s.heads
  {
    AttemptStarted(Leased(s, i), RetryStart(s.heads[i.deliveryId], i, marked))
  }

  lemma RetryIsAcceptable(s: Db, i: CompleteInput, marked: bool)
    requires RoundReady(s, i)
    ensures var h := Leased(s, i).heads[i.deliveryId];
            StartAcceptable(Leased(s, i), RetryStart(s.heads[i.deliveryId], i, marked)) && HeadAllowed(h, h)
  {
  }

  lemma RetryIsInFlight(s: Db, i: CompleteInput, marked: bool)
    requires RoundReady(s, i)
    ensures Holds(InFlight(i.deliveryId, i.attemptId, i.claimId), Retried(s, i, marked))
    ensures var h := Completed_(Retried(s, i, marked), i, false).heads[i.deliveryId];
            (!marked ==> Ambiguous(h)) && h.unknownCount == s.heads[i.deliveryId].unknownCount + 1
  {
  }

  lemma RetryStarts(s: Db, i: CompleteInput, marked: bool)
    requires RoundReady(s, i)
    requires !NumberTaken(s.attempts, i.deliveryId, s.heads[i.deliveryId].attemptCount + 1)
    ensures SerialState(LEDGER, ClaimWork(i.deliveryId, i.claimId, i.completedAt, 1), s) == Leased(s, i)
    ensures SerialState(LEDGER, StartWork(RetryStart(s.heads[i.deliveryId], i, marked)), Leased(s, i)) == Retried(s, i, marked)
  {
    ClaimRuns(s, i.deliveryId, i.claimId, i.completedAt, 1);
    RetryIsAcceptable(s, i, marked);
    StartRunsExactlyWhenAcceptable(Leased(s, i), RetryStart(s.heads[i.deliveryId], i, marked));
  }

  lemma CompletionRunsAlone(s: Db, s': Db, i: CompleteInput)
    requires CompleteInputValid(i) && Holds(InFlight(i.deliveryId, i.attemptId, i.claimId), s)
    requires DecideComplete(s, s, s, i).Finish?
    requires LEDGER.ApplyAll(DecideComplete(s, s, s, i).writes, s) == Some(s')
    ensures SerialState(LEDGER, CompleteWork(i), s) == s'
  {
    ThreeReadsAlone(i, s);
  }

  lemma RetryIsReady(s: Db, i: CompleteInput, marked: bool)
    requires RoundReady(s, i)
    ensures AmbiguityReady(Retried(s, i, marked), i)
  {
  }

  lemma RetryEnds(s: Db, i: CompleteInput, marked: bool)
    requires RoundReady(s, i) && HistoryContiguous(s.history)
    ensures SerialState(LEDGER, CompleteWork(i), Retried(s, i, marked)) == Completed_(Retried(s, i, marked), i, false)
  {
    RetryIsReady(s, i, marked);
    AmbiguityBatch(Retried(s, i, marked), i);
    CompletionRunsAlone(Retried(s, i, marked), Completed_(Retried(s, i, marked), i, false), i);
  }

  // The three requests of one more round, and what the tables hold after each.
  ghost predicate Round(s: Db, s1: Db, s2: Db, s3: Db, i: CompleteInput, marked: bool)
    requires i.deliveryId in s.heads
  {
    && s1 == SerialState(LEDGER, ClaimWork(i.deliveryId, i.claimId, i.completedAt, 1), s)
    && s2 == SerialState(LEDGER, StartWork(RetryStart(s.heads[i.deliveryId], i, marked)), s1)
    && s3 == SerialState(LEDGER, CompleteWork(i), s2)
  }

  lemma RoundRuns(s: Db, i: CompleteInput, marked: bool) returns (s1: Db, s2: Db, s3: Db)
    requires RoundReady(s, i) && HistoryContiguous(s.history)
    requires !NumberTaken(s.attempts, i.deliveryId, s.heads[i.deliveryId].attemptCount + 1)
    ensures Round(s, s1, s2, s3, i, marked) && i.deliveryId in s3.heads
    ensures !marked ==> Ambiguous(s3.heads[i.deliveryId])
    ensures s3.heads[i.deliveryId].unknownCount == s.heads[i.deliveryId].unknownCount + 1
  {
    RetryStarts(s, i, marked);
    RetryEnds(s, i, marked);
    RetryIsInFlight(s, i, marked);
    s1, s2, s3 := Leased(s, i), Retried(s, i, marked), Completed_(Retried(s, i, marked), i, false);
  }

  lemma RoundStartsSound(s: Db, s1: Db, s2: Db, i: CompleteInput, marked: bool)
    requires LedgerSound(s) && i.deliveryId in s.heads
    requires s1 == SerialState(LEDGER, ClaimWork(i.deliveryId, i.claimId, i.completedAt, 1), s)
    requires s2 == SerialState(LEDGER, StartWork(RetryStart(s.heads[i.deliveryId], i, marked)), s1)
    ensures LedgerSound(s2)
  {
    var claim := Request.Claim(i.deliveryId, i.claimId, i.completedAt, 1);
    var start := Request.Start(RetryStart(s.heads[i.deliveryId], i, marked));
    assert WorkOf(claim) == ClaimWork(i.deliveryId, i.claimId, i.completedAt, 1);
    AloneIsSound(claim, s, s1);
    assert WorkOf(start) == StartWork(start.start);
    AloneIsSound(start, s1, s2);
  }

  lemma RoundIsSound(s: Db, s1: Db, s2: Db, s3: Db, i: CompleteInput, marked: bool)
    requires LedgerSound(s) && i.deliveryId in s.heads && Round(s, s1, s2, s3, i, marked)
    ensures LedgerSound(s3)
  {
    RoundStartsSound(s, s1, s2, i, marked);
    assert WorkOf(Request.Complete(i)) == CompleteWork(i);
    AloneIsSound(Request.Complete(i), s2, s3);
  }

  // A natively idempotent provider is never asked for a marked resend, so its unknowns have no
  // bound: one more round -- claim, start, lose the answer -- always goes through, adds one to the
  // count, and ends where the next round can begin.
  lemma NativeKeyRetriesAreUnbounded(s: Db, i: CompleteInput) returns (s1: Db, s2: Db, s3: Db)
    requires LedgerSound(s) && RoundReady(s, i)
    ensures Round(s, s1, s2, s3, i, false) && LedgerSound(s3)
    ensures i.deliveryId in s3.heads && Ambiguous(s3.heads[i.deliveryId])
    ensures s3.heads[i.deliveryId].unknownCount == s.heads[i.deliveryId].unknownCount + 1
  {
    FreeNumber(s, i.deliveryId);
    s1, s2, s3 := RoundRuns(s, i, false);
    RoundIsSound(s, s1, s2, s3, i, false);
  }

  // ---- Which starts lose the bound of two -----------------------------------------------------

  // Some run from here takes the delivery past two unknowns although it lets no start escape.
  ghost predicate CanExceedTwo(s: Db, d: Id) {
    exists requests: seq<Request>, maximumAttempts: nat, schedule: seq<nat> ::
      var y := Run(LEDGER, Begin(s, WorksOf(requests), maximumAttempts), schedule);
      && EscapesIn(requests, Begin(s, WorksOf(requests), maximumAttempts), schedule, d) == 0
      && |AttemptsIn(y.db.attempts, d, AcceptanceUnknown)| > 2
  }

  lemma WithinTheBoundStaysThere(s: Db, d: Id)
    requires LedgerSound(s) && d in s.heads && UnknownsWithin(s.heads[d], s.attempts, 0)
    ensures !CanExceedTwo(s, d)
  {
    hide UnknownsWithin, LedgerSound, Later, AttemptsIn, EscapesIn, WorksOf, Sound, Run;
    forall requests: seq<Request>, maximumAttempts: nat, schedule: seq<nat>
      | EscapesIn(requests, Begin(s, WorksOf(requests), maximumAttempts), schedule, d) == 0
      ensures |AttemptsIn(Run(LEDGER, Begin(s, WorksOf(requests), maximumAttempts), schedule).db.attempts, d, AcceptanceUnknown)| <= 2
    {
      RunKeepsTheAllowance(requests, s, maximumAttempts, schedule, d, 0);
      RunIsSound(requests, s, maximumAttempts, schedule);
      var y := Run(LEDGER, Begin(s, WorksOf(requests), maximumAttempts), schedule);
      SoundNow(requests, s, y);
      AllowanceCountsUnknowns(y.db, d, 0);
    }
  }

  lemma {:induction false} NoNativeStartNoEscape(requests: seq<Request>, y: LedgerSystem, schedule: seq<nat>, d: Id)
    requires forall k :: 0 <= k < |requests| && requests[k].Start? ==> requests[k].start.capability != NativeKey
    ensures EscapesIn(requests, y, schedule, d) == 0
    decreases |schedule|
  {
    hide Run, StepClient;
    if schedule != [] { NoNativeStartNoEscape(requests, y, schedule[..|schedule| - 1], d); }
  }

  ghost predicate Waiting(y: LedgerSystem, k: nat, r: Request) {
    k < |y.clients| && y.clients[k].work == WorkOf(r) && y.clients[k].seen == [] && y.clients[k].outcome.Pending?
  }

  // A client that moves alone does what its request does alone, and leaves the others where they were.
  lemma ClientRunsAlone(y: LedgerSystem, k: nat, r: Request, t: Db) returns (schedule: seq<nat>)
    requires Waiting(y, k, r) && t == SerialState(LEDGER, WorkOf(r), y.db) && t != y.db
    ensures var z := Run(LEDGER, y, schedule);
            && z.db == t && |z.clients| == |y.clients|
            && forall j :: 0 <= j < |y.clients| && j != k ==> z.clients[j] == y.clients[j]
  {
    var seen := AloneReads(r, y.db);
    var n := |seen|;
    var c := y.clients[k];
    assert seen == Repeat(y.db, n);
    RequestReads(r, y.db, n);
    hide WorkOf, SerialState, Apply, Holds;
    ReadsInARun(LEDGER, y, k, n);
    var read := Run(LEDGER, y, Repeat(k, n));
    assert read == y.(clients := y.clients[k := c.(seen := seen)]);
    schedule := Repeat(k, n) + [k];
    assert schedule[..|schedule| - 1] == Repeat(k, n);
    assert Run(LEDGER, y, schedule) == Step(LEDGER, read, k);
    assert read.clients[k] == c.(seen := seen) && read.db == y.db;
    CommittingStep(read, k, t);
  }

  lemma RequestReads(r: Request, s: Db, n: nat)
    requires CommitsTo(LEDGER, WorkOf(r), Repeat(s, n), s, SerialState(LEDGER, WorkOf(r), s))
    requires n == (if r.Complete? then 3 else 1)
    ensures forall j :: 0 <= j < n ==> WorkOf(r).WantsRead(Repeat(s, j))
    ensures !WorkOf(r).WantsRead(Repeat(s, n))
  {
    hide SerialState, Apply, Holds;
    match r
    case Claim(d, claim, now, leaseMs) => assert WorkOf(r).decide([]).ReadMore? && Repeat(s, 0) == [];
    case Release(d, claim, now) => assert WorkOf(r).decide([]).ReadMore? && Repeat(s, 0) == [];
    case Start(i) => assert WorkOf(r).decide([]).ReadMore? && Repeat(s, 0) == [];
    case Complete(i) =>
  }

  lemma CommittingStep(y: LedgerSystem, k: nat, t: Db)
    requires k < |y.clients| && y.clients[k].outcome.Pending? && !y.clients[k].work.WantsRead(y.clients[k].seen)
    requires CommitsTo(LEDGER, y.clients[k].work, y.clients[k].seen, y.db, t)
    ensures var z := Step(LEDGER, y, k);
            && z.db == t && |z.clients| == |y.clients|
            && forall j :: 0 <= j < |y.clients| && j != k ==> z.clients[j] == y.clients[j]
  {
    hide Apply, Holds;
  }

  // The four requests that take an escaped start past the bound: its answer is lost, then the delivery
  // is claimed, resent with the mark, and that answer is lost too.
  function PastTheBound(h: Head, lost: CompleteInput, again: CompleteInput): seq<Request> {
    [Complete(lost), Claim(again.deliveryId, again.claimId, again.completedAt, 1),
     Start(RetryStart(h, again, true)), Complete(again)]
  }

  lemma FourRequestsRun(s: Db, requests: seq<Request>, s1: Db, s2: Db, s3: Db, s4: Db) returns (schedule: seq<nat>)
    requires |requests| == 4
    requires s1 == SerialState(LEDGER, WorkOf(requests[0]), s) && s1 != s
    requires s2 == SerialState(LEDGER, WorkOf(requests[1]), s1) && s2 != s1
    requires s3 == SerialState(LEDGER, WorkOf(requests[2]), s2) && s3 != s2
    requires s4 == SerialState(LEDGER, WorkOf(requests[3]), s3) && s4 != s3
    ensures Run(LEDGER, Begin(s, WorksOf(requests), 1), schedule).db == s4
  {
    hide SerialState, WorkOf, Run, Step;
    var y0 := Begin(s, WorksOf(requests), 1);
    var a := ClientRunsAlone(y0, 0, requests[0], s1);
    var y1 := Run(LEDGER, y0, a);
    var b := ClientRunsAlone(y1, 1, requests[1], s2);
    var y2 := Run(LEDGER, y1, b);
    var c := ClientRunsAlone(y2, 2, requests[2], s3);
    var y3 := Run(LEDGER, y2, c);
    var e := ClientRunsAlone(y3, 3, requests[3], s4);
    RunAppends(LEDGER, y0, a, b);
    RunAppends(LEDGER, y0, a + b, c);
    RunAppends(LEDGER, y0, a + b + c, e);
    schedule := a + b + c + e;
  }

  // ---- Fresh ids ------------------------------------------------------------------------------

  // A lost answer with ids nobody has used.
  lemma SomeLostAnswer(s: Db, d: Id, claimId: Id, at: Ms) returns (i: CompleteInput)
    requires at >= 0
    ensures i.deliveryId == d && i.claimId == claimId && i.completedAt == at && i.state == AcceptanceUnknown
    ensures CompleteInputValid(i) && i.answer.evidence.None? && i.answer.messageId.None? && IdsFree(s, i)
  {
    var attempt := LongerThanAll(s.attempts.Keys);
    var fact := LongerThanAll(set k | 0 <= k < |s.facts| :: s.facts[k].id);
    var pointer := LongerThanAll(set k | 0 <= k < |s.outbox| :: s.outbox[k].id);
    var row := LongerThanAll(set k | 0 <= k < |s.history| :: s.history[k].id);
    i := CompleteInput(d, attempt, claimId, AcceptanceUnknown, Answer(None, None, None, Some("lost")), at, fact, pointer, row);
  }

  // ---- The exact condition --------------------------------------------------------------------

  // An unmarked attempt in flight although an outcome is unknown, as the schema lets it be stored.
  predicate EscapeInFlight(s: Db, d: Id) {
    && d in s.heads && s.heads[d].state == RequestStarted && s.heads[d].unknownCount > 0 && !s.heads[d].exhausted
    && s.heads[d].lease.Some? && s.heads[d].currentAttempt.Some? && s.heads[d].refs.receiptId.Some?
    && HeadAllowed(s.heads[d], s.heads[d]) && s.heads[d].unknownCount < s.heads[d].attemptCount
    && var a := s.heads[d].currentAttempt.value;
    && a in s.attempts && s.attempts[a].deliveryId == d && s.attempts[a].state == RequestStarted
    && s.attempts[a].kind == Original && AttemptAllowed(s.attempts[a])
  }

  lemma LostAnswerIsReady(s: Db, d: Id) returns (lost: CompleteInput)
    requires EscapeInFlight(s, d)
    ensures lost.deliveryId == d && AmbiguityReady(s, lost)
    ensures s.attempts[lost.attemptId].kind == Original && !s.heads[d].exhausted
  {
    var h := s.heads[d];
    var a := h.currentAttempt.value;
    var at := Max(Max(s.attempts[a].startedAt, h.refs.createdAt), 0);
    lost := SomeLostAnswer(s, d, h.lease.value.claimId, at);
    lost := lost.(attemptId := a);
  }

  lemma LostAnswerEffect(s: Db, i: CompleteInput)
    requires AmbiguityReady(s, i) && s.attempts[i.attemptId].kind == Original && !s.heads[i.deliveryId].exhausted
    ensures var s1 := Completed_(s, i, false);
            && |s1.facts| == |s.facts| + 1 && i.deliveryId in s1.heads && Ambiguous(s1.heads[i.deliveryId])
            && s1.heads[i.deliveryId].unknownCount == s.heads[i.deliveryId].unknownCount + 1
  {
  }

  lemma LostAnswerLands(s: Db, d: Id) returns (lost: CompleteInput, s1: Db)
    requires LedgerSound(s) && EscapeInFlight(s, d)
    ensures lost.deliveryId == d && CompleteInputValid(lost)
    ensures s1 == SerialState(LEDGER, CompleteWork(lost), s) && s1 != s && LedgerSound(s1)
    ensures d in s1.heads && Ambiguous(s1.heads[d]) && s1.heads[d].unknownCount == s.heads[d].unknownCount + 1
  {
    hide *;
    lost := LostAnswerIsReady(s, d);
    LostAnswerEffect(s, lost);
    ReadyMeansInFlight(s, lost);
    AmbiguityBatch(s, lost);
    s1 := Completed_(s, lost, false);
    CompletionRunsAlone(s, s1, lost);
    AloneIsSound(Complete(lost), s, s1);
  }

  lemma ReadyMeansInFlight(s: Db, i: CompleteInput)
    requires LedgerSound(s) && AmbiguityReady(s, i)
    ensures CompleteInputValid(i) && Holds(InFlight(i.deliveryId, i.attemptId, i.claimId), s)
    ensures HistoryContiguous(s.history) && WorkOf(Complete(i)) == CompleteWork(i)
    ensures i.deliveryId in s.heads && i.attemptId in s.attempts && s.heads[i.deliveryId].refs.receiptId.Some?
  {
    hide *;
    ReadyNamesItsRows(s, i);
    SoundHistoryIsContiguous(s);
    CompletionsWork(i);
  }

  lemma ReadyNamesItsRows(s: Db, i: CompleteInput)
    requires AmbiguityReady(s, i)
    ensures CompleteInputValid(i) && Holds(InFlight(i.deliveryId, i.attemptId, i.claimId), s)
    ensures i.deliveryId in s.heads && i.attemptId in s.attempts && s.heads[i.deliveryId].refs.receiptId.Some?
  {
    hide HeadAllowed, AttemptAllowed, CompleteInputValid;
  }

  lemma SoundHistoryIsContiguous(s: Db)
    requires LedgerSound(s)
    ensures HistoryContiguous(s.history)
  {
    hide TablesSound, EvidenceSound, HistoryContiguous;
  }

  lemma CompletionsWork(i: CompleteInput)
    ensures WorkOf(Complete(i)) == CompleteWork(i)
  {
    hide CompleteWork;
  }

  lemma MarkedRoundLands(s: Db, d: Id) returns (again: CompleteInput, s2: Db, s3: Db, s4: Db)
    requires LedgerSound(s) && d in s.heads && Ambiguous(s.heads[d])
    ensures again.deliveryId == d && Round(s, s2, s3, s4, again, true) && LedgerSound(s4)
    ensures s2 != s && s3 != s2 && s4 != s3
    ensures d in s4.heads && s4.heads[d].unknownCount == s.heads[d].unknownCount + 1
  {
    again := SomeLostAnswer(s, d, "x", Max(s.heads[d].refs.createdAt, 0));
    assert RoundReady(s, again);
    FreeNumber(s, d);
    s2, s3, s4 := RoundRuns(s, again, true);
    RoundIsSound(s, s2, s3, s4, again, true);
    RoundMoves(s, s2, s3, s4, again);
  }

  lemma RoundMoves(s: Db, s2: Db, s3: Db, s4: Db, i: CompleteInput)
    requires LedgerSound(s) && RoundReady(s, i) && Round(s, s2, s3, s4, i, true)
    ensures s2 != s && s3 != s2 && s4 != s3
  {
    FreeNumber(s, i.deliveryId);
    RetryStarts(s, i, true);
    RetryEnds(s, i, true);
    assert s2.heads[i.deliveryId].lease.Some? && s3.heads[i.deliveryId].version == s2.heads[i.deliveryId].version + 1;
    assert |s4.facts| == |s3.facts| + 1;
  }

  lemma EscapeCanExceedTwo(s: Db, d: Id)
    requires LedgerSound(s) && EscapeInFlight(s, d)
    ensures CanExceedTwo(s, d)
  {
    hide *;
    CountIsPositive(s, d);
    var lost, s1 := LostAnswerLands(s, d);
    var again, s2, s3, s4 := MarkedRoundLands(s1, d);
    CountedUnknowns(s4, d);
    RoundAsRequests(s1, s2, s3, s4, again);
    var requests := PastTheBound(s1.heads[d], lost, again);
    FourWorks(s1.heads[d], lost, again);
    var schedule := FourRequestsRun(s, requests, s1, s2, s3, s4);
    NoNativeStartNoEscape(requests, Begin(s, WorksOf(requests), 1), schedule, d);
    ExceedsByThisRun(s, requests, schedule, d);
  }

  lemma ExceedsByThisRun(s: Db, requests: seq<Request>, schedule: seq<nat>, d: Id)
    requires EscapesIn(requests, Begin(s, WorksOf(requests), 1), schedule, d) == 0
    requires |AttemptsIn(Run(LEDGER, Begin(s, WorksOf(requests), 1), schedule).db.attempts, d, AcceptanceUnknown)| > 2
    ensures CanExceedTwo(s, d)
  {
    hide EscapesIn, Run, WorksOf, AttemptsIn;
  }

  lemma RoundAsRequests(s: Db, s1: Db, s2: Db, s3: Db, i: CompleteInput)
    requires i.deliveryId in s.heads && Round(s, s1, s2, s3, i, true)
    ensures s1 == SerialState(LEDGER, ClaimWork(i.deliveryId, i.claimId, i.completedAt, 1), s)
    ensures s2 == SerialState(LEDGER, StartWork(RetryStart(s.heads[i.deliveryId], i, true)), s1)
    ensures s3 == SerialState(LEDGER, CompleteWork(i), s2)
  {
  }

  lemma FourWorks(h: Head, lost: CompleteInput, again: CompleteInput)
    ensures var r := PastTheBound(h, lost, again);
            && |r| == 4 && WorkOf(r[0]) == CompleteWork(lost)
            && WorkOf(r[1]) == ClaimWork(again.deliveryId, again.claimId, again.completedAt, 1)
            && WorkOf(r[2]) == StartWork(RetryStart(h, again, true)) && WorkOf(r[3]) == CompleteWork(again)
            && forall k :: 0 <= k < |r| && r[k].Start? ==> r[k].start.capability != NativeKey
  {
  }

  lemma CountIsPositive(s: Db, d: Id)
    requires EscapeInFlight(s, d)
    ensures s.heads[d].unknownCount >= 1
  {
  }

  lemma CountedUnknowns(s: Db, d: Id)
    requires LedgerSound(s) && d in s.heads
    ensures |AttemptsIn(s.attempts, d, AcceptanceUnknown)| == s.heads[d].unknownCount
  {
    assert HeadSound(s.heads[d], s.attempts, d);
  }

  // A start that commits while the delivery is within its allowance loses the bound of two -- some run
  // without further escapes then exceeds it -- exactly when an outcome is unknown and the provider is
  // natively idempotent.
  lemma StartLosesTheBoundExactlyWhen(i: StartInput, seen: seq<Db>, s: Db, s': Db)
    requires Admissible(LedgerSound, Later, seen, s) && CommitsTo(LEDGER, StartWork(i), seen, s, s')
    requires i.deliveryId in s.heads && UnknownsWithin(s.heads[i.deliveryId], s.attempts, 0)
    requires HeadAllowed(s.heads[i.deliveryId], s.heads[i.deliveryId])
    ensures CanExceedTwo(s', i.deliveryId) <==> EscapingStart(s, i)
  {
    AdmissibleIsReadable(seen, s);
    StartCommits(i, seen, s, s');
    StartEffect(i, seen, s, s');
    StartKeepsTheAllowance(s, i, i.deliveryId, 0);
    if EscapingStart(s, i) {
      EscapeIsInFlight(i, seen, s, s');
      EscapeCanExceedTwo(s', i.deliveryId);
    } else {
      WithinTheBoundStaysThere(s', i.deliveryId);
    }
  }

  lemma EscapeIsInFlight(i: StartInput, seen: seq<Db>, s: Db, s': Db)
    requires CommitsTo(LEDGER, StartWork(i), seen, s, s') && s' == AttemptStarted(s, i) && DecideStart(s, i).Finish?
    requires StartWork(i).decide(seen) == DecideStart(s, i)
    requires i.deliveryId in s.heads && i.attemptId !in s.attempts && EscapingStart(s, i)
    requires HeadAllowed(s.heads[i.deliveryId], s.heads[i.deliveryId]) && !s.heads[i.deliveryId].exhausted
    ensures EscapeInFlight(s', i.deliveryId)
  {
    var first, second := DecideStart(s, i).writes[0], DecideStart(s, i).writes[1];
    assert DecideStart(s, i).writes == [first] + [second];
    ApplyAllAppend(LEDGER, [first], [second], s);
    ApplyOne(LEDGER, first, s);
    ApplyOne(LEDGER, second, Apply(first, s).value);
  }
}
