// Which envelope an attempt carries: over every run a marked resend never goes out under the envelope
// that was reviewed, and an original always does.
module DeliveryEnvelopes {
  import opened Wrappers
  import opened AtomicBatch
  import opened Serializability
  import opened DeliveryLedger
  import opened DeliverySafety
  import opened DeliveryTheorems
  import opened OutboundDelivery

  ghost predicate EnvelopesFit(s: Db) {
    forall a :: a in s.attempts ==>
      && s.attempts[a].deliveryId in s.heads
      && (s.attempts[a].kind == MarkedResend <==>
            s.attempts[a].envelopeDigest != s.heads[s.attempts[a].deliveryId].refs.envelopeDigest)
  }

  ghost predicate Fit(s: Db) {
    LedgerSound(s) && EnvelopesFit(s)
  }

  lemma PromiseKeepsEnvelopes(r: Request, s: Db, s': Db, value: Result)
    requires EnvelopesFit(s) && Promise(r, s, s', value)
    ensures EnvelopesFit(s')
  {
    hide Tells, Shows;
  }

  lemma RequestsKeepEnvelopes(r: Request)
    ensures Preserves(LEDGER, Fit, Later, WorkOf(r))
  {
    forall seen: seq<Db>, s: Db, s': Db | Admissible(Fit, Later, seen, s) && CommitsTo(LEDGER, WorkOf(r), seen, s, s')
      ensures Fit(s') && Later(s, s')
    {
      RequestKeepsEnvelopes(r, seen, s, s');
    }
  }

  lemma RequestKeepsEnvelopes(r: Request, seen: seq<Db>, s: Db, s': Db)
    requires Admissible(Fit, Later, seen, s) && CommitsTo(LEDGER, WorkOf(r), seen, s, s')
    ensures Fit(s') && Later(s, s')
  {
    hide LedgerSound, EnvelopesFit, Later;
    assert Admissible(LedgerSound, Later, seen, s);
    RequestCommits(r, seen, s, s');
    AdmissibleIsReadable(seen, s);
    PromiseKept(r, seen, s, s');
    PromiseKeepsEnvelopes(r, s, s', WorkOf(r).decide(seen).value);
  }

  lemma EveryRunFitsEnvelopes(requests: seq<Request>, db: Db, maximumAttempts: nat, schedule: seq<nat>)
    requires LedgerSound(db) && EnvelopesFit(db)
    ensures EnvelopesFit(Run(LEDGER, Begin(db, WorksOf(requests), maximumAttempts), schedule).db)
  {
    LaterIsAnOrder();
    forall k | 0 <= k < |requests| ensures Preserves(LEDGER, Fit, Later, WorksOf(requests)[k]) {
      RequestsKeepEnvelopes(requests[k]);
    }
    hide LedgerSound, EnvelopesFit, Later, Preserves;
    RunSound(LEDGER, Fit, Later, WorksOf(requests), db, maximumAttempts, schedule);
  }
}
