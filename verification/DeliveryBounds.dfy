// How often the acceptance of one delivery can stay unknown: at most twice, and once more for every
// start that went through a natively idempotent provider after an unknown.
module DeliveryBounds {
  import opened Wrappers
  import opened AtomicBatch
  import opened Serializability
  import opened DeliveryLedger
  import opened DeliverySafety
  import opened DeliveryTheorems

  type LedgerSystem = System<Db, Guard, Write, Result>

  // ---- Starts that escape the bound -----------------------------------------------------------

  // This move commits an unmarked start of `d` although an outcome of `d` is unknown.
  ghost predicate Escapes(requests: seq<Request>, y: LedgerSystem, k: nat, d: Id) {
    && k < |requests| && k < |y.clients| && requests[k].Start? && requests[k].start.deliveryId == d
    && d in y.db.heads && y.db.heads[d].unknownCount > 0 && requests[k].start.capability == NativeKey
    && StepClient(LEDGER, y.db, y.clients[k]).committed
  }

  ghost function EscapesIn(requests: seq<Request>, y: LedgerSystem, schedule: seq<nat>, d: Id): nat
    decreases |schedule|
  {
    if schedule == [] then 0
    else
      var n := |schedule| - 1;
      EscapesIn(requests, y, schedule[..n], d)
      + (if Escapes(requests, Run(LEDGER, y, schedule[..n]), schedule[n], d) then 1 else 0)
  }

  // ---- The allowance --------------------------------------------------------------------------

  // One unknown, one more from the marked resend, and `n` that escaped.
  ghost predicate UnknownsWithin(h: Head, attempts: map<Id, Attempt>, n: nat) {
    && h.unknownCount <= n + (if h.exhausted then 2 else 1)
    && (h.exhausted ==> h.state == AcceptanceUnknown)
    && (h.state == RequestStarted ==>
          && h.currentAttempt.Some? && h.currentAttempt.value in attempts
          && (attempts[h.currentAttempt.value].kind == Original ==> h.unknownCount <= n))
  }

  predicate EscapingStart(s: Db, i: StartInput) {
    i.deliveryId in s.heads && s.heads[i.deliveryId].unknownCount > 0 && i.capability == NativeKey
  }

  lemma FreshHeadsAllowNone(s: Db, d: Id)
    requires d in s.heads && JustRegistered(s.heads[d])
    ensures UnknownsWithin(s.heads[d], s.attempts, 0)
  {
  }

  lemma StartKeepsTheAllowance(s: Db, i: StartInput, d: Id, n: nat)
    requires DecideStart(s, i).Finish? && i.attemptId !in s.attempts && d in s.heads
    requires UnknownsWithin(s.heads[d], s.attempts, n)
    ensures var s', m := AttemptStarted(s, i), if i.deliveryId == d && EscapingStart(s, i) then n + 1 else n;
            UnknownsWithin(s'.heads[d], s'.attempts, m)
  {
  }

  lemma ResolutionKeepsTheAllowance(s: Db, i: CompleteInput, d: Id, n: nat)
    requires Holds(InFlight(i.deliveryId, i.attemptId, i.claimId), s) && CompleteInputValid(i) && d in s.heads
    requires UnknownsWithin(s.heads[d], s.attempts, n)
    ensures var s' := HeadAndAttemptResolved(s, i); UnknownsWithin(s'.heads[d], s'.attempts, n)
  {
  }

  lemma RequestKeepsTheAllowance(r: Request, seen: seq<Db>, s: Db, s': Db, d: Id, n: nat)
    requires Readable(seen, s) && CommitsTo(LEDGER, WorkOf(r), seen, s, s')
    requires d in s.heads && UnknownsWithin(s.heads[d], s.attempts, n)
    ensures d in s'.heads
    ensures UnknownsWithin(s'.heads[d], s'.attempts,
                           if r.Start? && r.start.deliveryId == d && EscapingStart(s, r.start) then n + 1 else n)
  {
    match r
    case Claim(e, claim, now, leaseMs) => ClaimEffect(e, claim, now, leaseMs, seen, s, s');
    case Release(e, claim, now) => ReleaseEffect(e, claim, now, seen, s, s');
    case Start(i) =>
      StartEffect(i, seen, s, s');
      StartKeepsTheAllowance(s, i, d, n);
    case Complete(i) =>
      CompleteEffect(i, seen, s, s');
      if s.heads[i.deliveryId].HeldBy(i.claimId) { ResolutionKeepsTheAllowance(s, i, d, n); }
  }

  // ---- Every run, whatever it does --------------------------------------------------------------

  lemma RunIsSound(requests: seq<Request>, db: Db, maximumAttempts: nat, schedule: seq<nat>)
    requires LedgerSound(db)
    ensures Sound(LedgerSound, Later, WorksOf(requests), db,
                  Run(LEDGER, Begin(db, WorksOf(requests), maximumAttempts), schedule))
  {
    LaterIsAnOrder();
    forall k | 0 <= k < |requests| ensures Preserves(LEDGER, LedgerSound, Later, WorksOf(requests)[k]) {
      RequestsKeepTheLedger(requests[k]);
    }
    RunSound(LEDGER, LedgerSound, Later, WorksOf(requests), db, maximumAttempts, schedule);
  }

  lemma StepKeepsTheAllowance(requests: seq<Request>, db: Db, y: LedgerSystem, k: nat, d: Id, n: nat)
    requires Sound(LedgerSound, Later, WorksOf(requests), db, y)
    requires d in y.db.heads && UnknownsWithin(y.db.heads[d], y.db.attempts, n)
    ensures var y' := Step(LEDGER, y, k);
            && d in y'.db.heads
            && UnknownsWithin(y'.db.heads[d], y'.db.attempts, if Escapes(requests, y, k, d) then n + 1 else n)
  {
    hide LedgerSound, Later, UnknownsWithin;
    if k < |y.clients| {
      var c, m := y.clients[k], StepClient(LEDGER, y.db, y.clients[k]);
      assert c.work == WorkOf(requests[k]) && Admissible(LedgerSound, Later, c.seen, y.db);
      if m.committed {
        assert CommitsTo(LEDGER, WorkOf(requests[k]), c.seen, y.db, m.db);
        AdmissibleIsReadable(c.seen, y.db);
        RequestKeepsTheAllowance(requests[k], c.seen, y.db, m.db, d, n);
      } else {
        assert m.db == y.db;
      }
    }
  }

  lemma {:induction false} RunKeepsTheAllowance(
    requests: seq<Request>, db: Db, maximumAttempts: nat, schedule: seq<nat>, d: Id, n: nat)
    requires LedgerSound(db) && d in db.heads && UnknownsWithin(db.heads[d], db.attempts, n)
    ensures var begin := Begin(db, WorksOf(requests), maximumAttempts);
            var s := Run(LEDGER, begin, schedule).db;
            && d in s.heads && UnknownsWithin(s.heads[d], s.attempts, n + EscapesIn(requests, begin, schedule, d))
    decreases |schedule|
  {
    hide LedgerSound, UnknownsWithin, Escapes, Sound, Later, WorksOf, Step, Apply, Holds;
    assert Run(LEDGER, Begin(db, WorksOf(requests), maximumAttempts), []).db == db;
    if schedule != [] {
      var m := |schedule| - 1;
      RunKeepsTheAllowance(requests, db, maximumAttempts, schedule[..m], d, n);
      RunIsSound(requests, db, maximumAttempts, schedule[..m]);
      var begin := Begin(db, WorksOf(requests), maximumAttempts);
      StepKeepsTheAllowance(requests, db, Run(LEDGER, begin, schedule[..m]), schedule[m], d,
                            n + EscapesIn(requests, begin, schedule[..m], d));
    }
  }

  lemma SoundNow(requests: seq<Request>, db: Db, y: LedgerSystem)
    requires Sound(LedgerSound, Later, WorksOf(requests), db, y)
    ensures LedgerSound(y.db)
  {
  }

  lemma AllowanceCountsUnknowns(s: Db, d: Id, n: nat)
    requires LedgerSound(s) && d in s.heads && UnknownsWithin(s.heads[d], s.attempts, n)
    ensures |AttemptsIn(s.attempts, d, AcceptanceUnknown)| == s.heads[d].unknownCount <= n + 2
    ensures n == 0 && s.heads[d].unknownCount == 2 ==> s.heads[d].Settled()
  {
    assert HeadSound(s.heads[d], s.attempts, d);
  }

  // From its registration on, in a ledger at work and whatever the run does: at most two unknowns and
  // one more per escaping start of this delivery.
  lemma UnknownsAreAtMostTwoAndTheEscapes(
    requests: seq<Request>, db: Db, maximumAttempts: nat, schedule: seq<nat>, d: Id)
    requires LedgerSound(db) && d in db.heads && JustRegistered(db.heads[d])
    ensures var begin := Begin(db, WorksOf(requests), maximumAttempts);
            var s := Run(LEDGER, begin, schedule).db;
            |AttemptsIn(s.attempts, d, AcceptanceUnknown)| <= 2 + EscapesIn(requests, begin, schedule, d)
  {
    hide UnknownsWithin, JustRegistered, LedgerSound, Later, AttemptsIn, EscapesIn, WorksOf, Sound, Run;
    FreshHeadsAllowNone(db, d);
    var begin := Begin(db, WorksOf(requests), maximumAttempts);
    RunKeepsTheAllowance(requests, db, maximumAttempts, schedule, d, 0);
    RunIsSound(requests, db, maximumAttempts, schedule);
    SoundNow(requests, db, Run(LEDGER, begin, schedule));
    AllowanceCountsUnknowns(Run(LEDGER, begin, schedule).db, d, EscapesIn(requests, begin, schedule, d));
  }

  // Over every run in which each start of the delivery that follows an unknown is marked, whatever
  // happens to other deliveries and before: at most two unknowns, and after the second nothing more
  // is sent.
  lemma AtMostTwoUnknowns(requests: seq<Request>, db: Db, maximumAttempts: nat, schedule: seq<nat>, d: Id)
    requires LedgerSound(db) && d in db.heads && JustRegistered(db.heads[d])
    requires EscapesIn(requests, Begin(db, WorksOf(requests), maximumAttempts), schedule, d) == 0
    ensures var s := Run(LEDGER, Begin(db, WorksOf(requests), maximumAttempts), schedule).db;
            && d in s.heads && |AttemptsIn(s.attempts, d, AcceptanceUnknown)| <= 2
            && (|AttemptsIn(s.attempts, d, AcceptanceUnknown)| == 2 ==> s.heads[d].Settled())
  {
    hide UnknownsWithin, JustRegistered, LedgerSound, Later, AttemptsIn, EscapesIn, WorksOf, Sound, Run;
    FreshHeadsAllowNone(db, d);
    var begin := Begin(db, WorksOf(requests), maximumAttempts);
    RunKeepsTheAllowance(requests, db, maximumAttempts, schedule, d, 0);
    RunIsSound(requests, db, maximumAttempts, schedule);
    SoundNow(requests, db, Run(LEDGER, begin, schedule));
    AllowanceCountsUnknowns(Run(LEDGER, begin, schedule).db, d, 0);
  }
}
