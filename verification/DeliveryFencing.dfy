// What a late completion is told. It is shown the head it read, and that head is current at its commit
// in every run exactly when the delivery was already settled.
module DeliveryFencing {
  import opened Wrappers
  import opened AtomicBatch
  import opened Serializability
  import opened DeliveryLedger
  import opened DeliverySafety
  import opened DeliveryTheorems

  // ---- Runs from any sound ledger ----------------------------------------------------------

  ghost predicate Reaches(s: Db, t: Db) {
    exists requests: seq<Request>, maximumAttempts: nat, schedule: seq<nat> ::
      Run(LEDGER, Begin(s, WorksOf(requests), maximumAttempts), schedule).db == t
  }

  lemma ReachedIsLater(s: Db, t: Db)
    requires LedgerSound(s) && Reaches(s, t)
    ensures LedgerSound(t) && Later(s, t)
  {
    hide LedgerSound, Later;
    var requests: seq<Request>, maximumAttempts: nat, schedule: seq<nat> :|
      Run(LEDGER, Begin(s, WorksOf(requests), maximumAttempts), schedule).db == t;
    LaterIsAnOrder();
    forall k | 0 <= k < |requests| ensures Preserves(LEDGER, LedgerSound, Later, WorksOf(requests)[k]) {
      RequestsKeepTheLedger(requests[k]);
    }
    RunSound(LEDGER, LedgerSound, Later, WorksOf(requests), s, maximumAttempts, schedule);
  }

  lemma NobodyMoves(s: Db)
    ensures Reaches(s, s)
  {
    var requests: seq<Request> := [];
    assert Run(LEDGER, Begin(s, WorksOf(requests), 0), []).db == s;
  }

  // A request that reads and commits before anybody else moves.
  lemma OneRequestRuns(r: Request, s: Db, t: Db)
    requires WorkOf(r).readLimit == 1 && WorkOf(r).decide([]).ReadMore? && CommitsTo(LEDGER, WorkOf(r), [s], s, t)
    ensures Reaches(s, t)
  {
    hide LEDGER, WorkOf;
    var begin := Begin(s, WorksOf([r]), 0);
    assert begin.clients[0] == Client(WorkOf(r), 0, 1, [], Pending);
    assert [0, 0][..1] == [0] && [0][..0] == [];
    var read := Step(LEDGER, Run(LEDGER, begin, []), 0);
    assert Run(LEDGER, begin, [0]) == read;
    assert read.clients[0] == Client(WorkOf(r), 0, 1, [s], Pending) && read.db == s;
    assert Run(LEDGER, begin, [0, 0]) == Step(LEDGER, read, 0);
  }

  // ---- A claim between the read and the batch -------------------------------------------------

  function ClaimAfterExpiry(h: Head, d: Id, claimId: Id): Request {
    Claim(d, claimId, if h.lease.Some? && h.lease.value.expiresAt > 0 then h.lease.value.expiresAt else 0, 1)
  }

  // Any delivery that is not settled can still be claimed once its lease has run out.
  lemma UnsettledCanBeClaimed(s: Db, d: Id, claimId: Id) returns (t: Db)
    requires d in s.heads && !s.heads[d].Settled() && HeadAllowed(s.heads[d], s.heads[d])
    ensures CommitsTo(LEDGER, WorkOf(ClaimAfterExpiry(s.heads[d], d, claimId)), [s], s, t)
    ensures t.heads.Keys == s.heads.Keys && t == s.(heads := t.heads)
    ensures t.heads[d].lease.Some? && t.heads[d].lease.value.claimId == claimId
    ensures t.heads[d].refs == s.heads[d].refs
  {
    var r := ClaimAfterExpiry(s.heads[d], d, claimId);
    t := LeaseSet(s, d, Some(Lease(claimId, r.now, r.now + 1)), r.now);
    var action := WorkOf(r).decide([s]);
    assert action == DecideClaim(s, d, claimId, r.now, 1);
    ApplyOne(LEDGER, action.writes[0], s);
    assert Holds(action.guards[0], s);
  }

  lemma EvidenceIgnoresTheHeads(s: Db, t: Db, f: Fact, p: Pointer, h: HistoryRow)
    requires t.heads.Keys == s.heads.Keys && t == s.(heads := t.heads)
    requires LEDGER.ApplyAll([InsertFact(f), InsertPointer(p), InsertHistory(h)], s).Some?
    ensures LEDGER.ApplyAll([InsertFact(f), InsertPointer(p), InsertHistory(h)], t) == Some(EvidenceAdded(t, f, p, h))
  {
    var w0, w1, w2 := InsertFact(f), InsertPointer(p), InsertHistory(h);
    assert [w0, w1, w2] == [w0] + ([w1] + [w2]);
    ApplyAllAppend(LEDGER, [w0], [w1] + [w2], s);
    ApplyAllAppend(LEDGER, [w0], [w1] + [w2], t);
    ApplyOne(LEDGER, w0, s);
    ApplyOne(LEDGER, w0, t);
    var s1, t1 := Apply(w0, s).value, Apply(w0, t).value;
    ApplyAllAppend(LEDGER, [w1], [w2], s1);
    ApplyAllAppend(LEDGER, [w1], [w2], t1);
    ApplyOne(LEDGER, w1, s1);
    ApplyOne(LEDGER, w1, t1);
    ApplyOne(LEDGER, w2, Apply(w1, s1).value);
    ApplyOne(LEDGER, w2, Apply(w1, t1).value);
  }

  ghost predicate FencedAt(i: CompleteInput, seen: seq<Db>, s: Db, s': Db) {
    && Admissible(LedgerSound, Later, seen, s) && CommitsTo(LEDGER, CompleteWork(i), seen, s, s')
    && i.deliveryId in s.heads && !s.heads[i.deliveryId].HeldBy(i.claimId)
  }

  function LateEvidence(i: CompleteInput, s: Db): (Fact, Pointer, HistoryRow)
    requires i.deliveryId in s.heads && i.attemptId in s.attempts && s.heads[i.deliveryId].refs.receiptId.Some?
  {
    var h := s.heads[i.deliveryId];
    (FactFor(h, s.attempts[i.attemptId], i, true),
     Pointer(i.pointerId, h.refs.receiptId.value, i.factId, i.deliveryId, i.completedAt),
     HistoryFor(h, i, true, NextSequence(s.history, h.refs.threadId)))
  }

  lemma LateBatchShape(i: CompleteInput, seen: seq<Db>, s: Db, s': Db)
    requires FencedAt(i, seen, s, s')
    ensures i.attemptId in s.attempts && s.heads[i.deliveryId].refs.receiptId.Some?
    ensures var h, e := s.heads[i.deliveryId], LateEvidence(i, s);
            var action := CompleteWork(i).decide(seen);
            && action.Finish?
            && action.guards == [Fenced(i.deliveryId, i.claimId),
                                 NextSequenceIs(h.refs.threadId, NextSequence(s.history, h.refs.threadId))]
            && action.writes == [InsertFact(e.0), InsertPointer(e.1), InsertHistory(e.2)]
            && LEDGER.ApplyAll(action.writes, s).Some?
  {
    hide LedgerSound, Later, Completed_;
    AdmissibleIsReadable(seen, s);
    CompleteEffect(i, seen, s, s');
    hide Mirrored, NextSequence;
  }

  // The late worker's batch goes through after another worker's claim as it would have before.
  lemma LateBatchSurvivesAClaim(i: CompleteInput, seen: seq<Db>, s: Db, s': Db, t: Db) returns (t': Db)
    requires FencedAt(i, seen, s, s') && t.heads.Keys == s.heads.Keys && t == s.(heads := t.heads)
    requires t.heads[i.deliveryId].refs == s.heads[i.deliveryId].refs && !t.heads[i.deliveryId].HeldBy(i.claimId)
    ensures CommitsTo(LEDGER, CompleteWork(i), seen, t, t')
  {
    LateBatchShape(i, seen, s, s');
    hide FencedAt, CompleteWork, LateEvidence, NextSequence, Apply, EvidenceAdded;
    var action, e := CompleteWork(i).decide(seen), LateEvidence(i, s);
    EvidenceIgnoresTheHeads(s, t, e.0, e.1, e.2);
    t' := EvidenceAdded(t, e.0, e.1, e.2);
    TwoGuardsCommit(action.guards[0], action.guards[1], action.writes, t, t');
    assert action.guards == [action.guards[0], action.guards[1]];
  }

  lemma TwoGuardsCommit(g: Guard, h: Guard, writes: seq<Write>, t: Db, t': Db)
    requires Holds(g, t) && Holds(h, t) && LEDGER.ApplyAll(writes, t) == Some(t')
    ensures LEDGER.Commit([g, h], writes, t) == Committed(t')
  {
  }

  // An id that is neither of two others.
  function Unlike(a: Id, b: Id): (id: Id)
    ensures id != a && id != b
  {
    var id := a + b + "x";
    assert |id| > |a| && |id| > |b|;
    id
  }

  // While the delivery is not settled a claim can commit between the read and the batch, the batch
  // still goes through, and the late worker is shown a lease that is not the stored one.
  lemma FencedHeadMayBeStale(i: CompleteInput, seen: seq<Db>, s: Db, s': Db) returns (claim: Request, t: Db, t': Db)
    requires FencedAt(i, seen, s, s') && !s.heads[i.deliveryId].Settled()
    requires HeadAllowed(s.heads[i.deliveryId], s.heads[i.deliveryId])
    ensures claim.Claim? && CommitsTo(LEDGER, WorkOf(claim), [s], s, t) && Reaches(s, t)
    ensures CommitsTo(LEDGER, CompleteWork(i), seen, t, t')
    ensures i.deliveryId in t.heads && CompleteWork(i).decide(seen).value.Completed?
    ensures CompleteWork(i).decide(seen).value.head != t.heads[i.deliveryId].View()
  {
    hide LedgerSound;
    AdmissibleIsReadable(seen, s);
    CompleteEffect(i, seen, s, s');
    var d := i.deliveryId;
    var read := seen[0].heads[d];
    var other := Unlike(i.claimId, if read.lease.Some? then read.lease.value.claimId else i.claimId);
    claim := ClaimAfterExpiry(s.heads[d], d, other);
    t := UnsettledCanBeClaimed(s, d, other);
    OneRequestRuns(claim, s, t);
    t' := LateBatchSurvivesAClaim(i, seen, s, s', t);
    assert t.heads[d].View().leaseClaimId == Some(other);
  }

  ghost predicate AlwaysCurrent(i: CompleteInput, seen: seq<Db>, s: Db) {
    forall t, t' :: Reaches(s, t) && CommitsTo(LEDGER, CompleteWork(i), seen, t, t') ==>
      && i.deliveryId in t.heads && CompleteWork(i).decide(seen).value.Completed?
      && CompleteWork(i).decide(seen).value.head == t.heads[i.deliveryId].View()
  }

  lemma LateRead(i: CompleteInput, seen: seq<Db>, s: Db, s': Db)
    requires FencedAt(i, seen, s, s')
    ensures |seen| >= 3 && i.deliveryId in seen[0].heads
    ensures HeadLater(seen[0].heads[i.deliveryId], s.heads[i.deliveryId])
    ensures CompleteWork(i).decide(seen).Finish?
    ensures CompleteWork(i).decide(seen).value == Completed(true, seen[0].heads[i.deliveryId].View())
  {
    hide LedgerSound, Completed_;
    AdmissibleIsReadable(seen, s);
    CompleteEffect(i, seen, s, s');
    assert Later(seen[0], s);
  }

  lemma SettledHeadStays(s: Db, t: Db, d: Id)
    requires LedgerSound(s) && Reaches(s, t) && d in s.heads && s.heads[d].Settled()
    ensures d in t.heads && t.heads[d] == s.heads[d]
  {
    hide LedgerSound;
    ReachedIsLater(s, t);
    assert HeadLater(s.heads[d], t.heads[d]);
  }

  lemma SettledHeadIsCurrent(i: CompleteInput, seen: seq<Db>, s: Db)
    requires LedgerSound(s) && i.deliveryId in s.heads && s.heads[i.deliveryId].Settled()
    requires CompleteWork(i).decide(seen).Finish? && CompleteWork(i).decide(seen).value == Completed(true, s.heads[i.deliveryId].View())
    ensures AlwaysCurrent(i, seen, s)
  {
    hide LedgerSound, CompleteWork, Reaches, CommitsTo, Apply, Holds;
    forall t, t' | Reaches(s, t) && CommitsTo(LEDGER, CompleteWork(i), seen, t, t')
      ensures i.deliveryId in t.heads && t.heads[i.deliveryId] == s.heads[i.deliveryId]
    {
      SettledHeadStays(s, t, i.deliveryId);
    }
  }

  lemma NotCurrentAt(i: CompleteInput, seen: seq<Db>, s: Db, t: Db, t': Db)
    requires Reaches(s, t) && CommitsTo(LEDGER, CompleteWork(i), seen, t, t')
    requires i.deliveryId in t.heads && CompleteWork(i).decide(seen).value.Completed?
    requires CompleteWork(i).decide(seen).value.head != t.heads[i.deliveryId].View()
    ensures !AlwaysCurrent(i, seen, s)
  {
    hide Reaches, CommitsTo, CompleteWork;
  }

  // Exactly when the returned head is the stored one wherever the batch may commit from now on.
  lemma FencedHeadIsCurrentExactlyWhenSettled(i: CompleteInput, seen: seq<Db>, s: Db, s': Db)
    requires FencedAt(i, seen, s, s') && HeadAllowed(s.heads[i.deliveryId], s.heads[i.deliveryId])
    ensures |seen| >= 3 && i.deliveryId in seen[0].heads
    ensures AlwaysCurrent(i, seen, s) <==> seen[0].heads[i.deliveryId].Settled()
  {
    LateRead(i, seen, s, s');
    assert CommitsTo(LEDGER, CompleteWork(i), seen, s, s');
    if seen[0].heads[i.deliveryId].Settled() {
      hide LedgerSound, CompleteWork, Reaches, CommitsTo, AlwaysCurrent;
      SettledHeadIsCurrent(i, seen, s);
    } else if s.heads[i.deliveryId].Settled() {
      hide LedgerSound, CompleteWork, Reaches, CommitsTo, AlwaysCurrent;
      NobodyMoves(s);
      NotCurrentAt(i, seen, s, s, s');
    } else {
      hide LedgerSound, CompleteWork, Reaches, CommitsTo, AlwaysCurrent;
      var claim, t, t' := FencedHeadMayBeStale(i, seen, s, s');
      NotCurrentAt(i, seen, s, t, t');
    }
  }
}
