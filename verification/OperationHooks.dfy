// The retry loop of D1EffectUnitOfWorkPort with its domain adapters: which adapter hears
// afterOperationLogInserted, afterUnitOfWorkCommitted and afterUnitOfWorkFinished, and what it may
// conclude from hearing it.
module OperationHooks {
  import opened Wrappers
  import opened AtomicBatch
  import opened OperationBoundary

  class DomainAdapter {
    var logInserted: nat
    var committedCalls: nat
    var finishedCalls: seq<bool>

    constructor ()
      ensures logInserted == 0 && committedCalls == 0 && finishedCalls == []
    {
      logInserted, committedCalls, finishedCalls := 0, 0, [];
    }
  }

  // ---- What one attempt comes to ---------------------------------------------------------

  // An attempt is what it read and the tables its buffer met. Everything else about it follows
  // from the operation's own decisions.
  datatype Attempt<!S> = Attempt(seen: seq<Db<S>>, at: Db<S>)

  // The first read settles the attempt: no authority, a receipt to replay, or a preflight that does
  // not let the invocation pass.
  predicate Settled<S>(op: Operation<S>, s: Db<S>) {
    !Opens(op, s)
  }

  // The reads an attempt makes; the second is the snapshot of the domain adapter it selects.
  predicate Complete<S>(op: Operation<S>, a: Attempt<S>) {
    a.seen != [] && |a.seen| == if Settled(op, a.seen[0]) then 1 else 2
  }

  predicate Selects<S>(a: Attempt<S>) {
    |a.seen| == 2
  }

  predicate Writes<S>(op: Operation<S>, a: Attempt<S>) {
    Decide(op, a.seen).Finish? && Decide(op, a.seen).writes != []
  }

  function Submitted<S>(op: Operation<S>, a: Attempt<S>): Verdict<Db<S>>
    requires Writes(op, a)
  {
    Boundary().Commit(Decide(op, a.seen).guards, Decide(op, a.seen).writes, a.at)
  }

  predicate Commits<S>(op: Operation<S>, a: Attempt<S>) {
    Writes(op, a) && Submitted(op, a).Committed?
  }

  predicate Conflicts<S>(op: Operation<S>, a: Attempt<S>) {
    Writes(op, a) && Submitted(op, a).Conflicted?
  }

  predicate Answers<S>(op: Operation<S>, a: Attempt<S>) {
    Decide(op, a.seen).Finish? && (Writes(op, a) ==> Commits(op, a))
  }

  // ---- A whole run -----------------------------------------------------------------------

  // The attempt made from tables `s` when the other sessions commit as `arrivals` says.
  function AttemptAt<S>(op: Operation<S>, s: Db<S>, arrivals: seq<seq<Db<S>>>): Attempt<S> {
    var first := Arrived(s, arrivals);
    if Settled(op, first) then Attempt([first], first)
    else
      var second := Arrived(first, Upcoming(arrivals));
      if op.plan(second.domain).Invalid? then Attempt([first, second], second)
      else Attempt([first, second], Arrived(second, Upcoming(Upcoming(arrivals))))
  }

  // Only a conflict leads to another attempt.
  function TraceOf<S>(op: Operation<S>, s: Db<S>, arrivals: seq<seq<Db<S>>>, attempts: nat): seq<Attempt<S>>
    decreases attempts
  {
    if attempts == 0 then []
    else
      var a := AttemptAt(op, s, arrivals);
      [a] + if Conflicts(op, a) then TraceOf(op, a.at, Upcoming(Upcoming(Upcoming(arrivals))), attempts - 1) else []
  }

  ghost predicate Lawful<S>(op: Operation<S>, trace: seq<Attempt<S>>) {
    && (forall k :: 0 <= k < |trace| ==> Complete(op, trace[k]))
    && (forall k :: 0 <= k < |trace| - 1 ==> Conflicts(op, trace[k]))
  }

  predicate Answered<S>(op: Operation<S>, trace: seq<Attempt<S>>) {
    trace != [] && Answers(op, trace[|trace| - 1])
  }

  function OutcomeOf<S>(op: Operation<S>, trace: seq<Attempt<S>>, maximumAttempts: nat): AtomicBatch.Outcome<Answer> {
    if trace == [] then Threw
    else
      var last := trace[|trace| - 1];
      if Answers(op, last) then Returned(Decide(op, last.seen).value)
      else if Conflicts(op, last) then Contended(maximumAttempts) else Threw
  }

  // completed.selectedDomain: the adapter of the attempt that answered.
  predicate HearsCommitted<S>(op: Operation<S>, trace: seq<Attempt<S>>, k: nat)
    requires k < |trace|
  {
    k == |trace| - 1 && Answers(op, trace[k]) && Selects(trace[k])
  }

  // latestDomain: the adapter of the last attempt that selected one.
  predicate HearsFinished<S>(trace: seq<Attempt<S>>, k: nat)
    requires k < |trace|
  {
    Selects(trace[k]) && forall j :: k < j < |trace| ==> !Selects(trace[j])
  }

  lemma AttemptsAreComplete<S>(op: Operation<S>, s: Db<S>, arrivals: seq<seq<Db<S>>>)
    ensures Complete(op, AttemptAt(op, s, arrivals))
  {
    hide Arrived, Logged;
  }

  lemma {:induction false} TracesAreLawful<S>(op: Operation<S>, s: Db<S>, arrivals: seq<seq<Db<S>>>, attempts: nat)
    ensures var trace := TraceOf(op, s, arrivals, attempts);
            Lawful(op, trace) && |trace| <= attempts && (attempts > 0 ==> trace != [])
    decreases attempts
  {
    hide AttemptAt, Complete, Conflicts, Upcoming;
    if attempts > 0 {
      var a := AttemptAt(op, s, arrivals);
      AttemptsAreComplete(op, s, arrivals);
      if Conflicts(op, a) { TracesAreLawful(op, a.at, Upcoming(Upcoming(Upcoming(arrivals))), attempts - 1); }
    }
  }

  // One distinct adapter per attempt that selected one; it saw its log row buffered.
  ghost predicate Recorded<S>(op: Operation<S>, trace: seq<Attempt<S>>, adapters: seq<DomainAdapter?>)
    reads set k | 0 <= k < |adapters| :: adapters[k]
  {
    && |adapters| == |trace|
    && (forall j, k :: 0 <= j < k < |adapters| && adapters[j] != null ==> adapters[j] != adapters[k])
    && (forall k :: 0 <= k < |adapters| ==>
          && (adapters[k] != null <==> Selects(trace[k]))
          && (adapters[k] != null ==> adapters[k].logInserted == (if Writes(op, trace[k]) then 1 else 0)))
  }

  ghost predicate Quiet(adapters: seq<DomainAdapter?>)
    reads set k | 0 <= k < |adapters| :: adapters[k]
  {
    forall k :: 0 <= k < |adapters| && adapters[k] != null ==>
      adapters[k].committedCalls == 0 && adapters[k].finishedCalls == []
  }

  // Every adapter heard exactly what the run says it should.
  ghost predicate Notified<S>(op: Operation<S>, trace: seq<Attempt<S>>, adapters: seq<DomainAdapter?>)
    requires |adapters| == |trace|
    reads set k | 0 <= k < |adapters| :: adapters[k]
  {
    forall k :: 0 <= k < |adapters| && adapters[k] != null ==>
      && adapters[k].committedCalls == (if HearsCommitted(op, trace, k) then 1 else 0)
      && adapters[k].finishedCalls == (if HearsFinished(trace, k) then [Answered(op, trace)] else [])
  }

  // ---- The port --------------------------------------------------------------------------

  // What the first read settles: no authority, a receipt to replay, or a preflight that does not let
  // the invocation pass.
  method AnswerFromTheFirstRead<S>(op: Operation<S>, s: Db<S>)
    returns (settled: bool, result: CommitResult, answer: Option<Answer>)
    ensures settled <==> Settled(op, s)
    ensures settled ==>
              var a := Attempt([s], s);
              && !Writes(op, a) && result != ConflictMarker && (result == Done <==> Answers(op, a))
              && (result == Done ==> answer == Some(Decide(op, [s]).value))
  {
    if op.denied(s.domain) { return true, Done, Some(Denied); }
    var found := Find(s.log, op.identity);
    if found.Some? { return true, Done, Some(Replay(op, found.value)); }
    match op.preflight(s.domain)
    case Unfit => return true, OtherError, None;
    case Held(outcome) => return true, Done, Some(Outcome(outcome));
    case Clear => return false, Done, None;
  }

  method OneAttempt<S>(database: Database<Db<S>, Guard<S>, Write<S>>, op: Operation<S>, batchId: BatchId)
    returns (result: CommitResult, answer: Option<Answer>, adapter: DomainAdapter?, ghost attempt: Attempt<S>)
    requires database.Idle() && database.engine == Boundary()
    modifies database
    ensures database.Idle()
    ensures old(database.journal) <= database.journal
    ensures attempt == AttemptAt(op, old(database.tables), old(database.arrivals))
    ensures Conflicts(op, attempt) ==>
              database.tables == attempt.at && database.arrivals == Upcoming(Upcoming(Upcoming(old(database.arrivals))))
    ensures adapter != null ==> fresh(adapter) && adapter.committedCalls == 0 && adapter.finishedCalls == []
    ensures adapter != null ==> adapter.logInserted == (if Writes(op, attempt) then 1 else 0)
    ensures adapter != null <==> Selects(attempt)
    ensures result == Done <==> Answers(op, attempt)
    ensures result == ConflictMarker <==> Conflicts(op, attempt)
    ensures result == Done ==> answer == Some(Decide(op, attempt.seen).value)
    ensures Commits(op, attempt) <==> !OthersOnly(database.journal, |old(database.journal)|)
  {
    hide Arrived, Upcoming, Logged, OneRowPerIdentity;
    adapter := null;
    database.Await();
    var s0 := database.tables;
    attempt := Attempt([s0], s0);
    var settled;
    settled, result, answer := AnswerFromTheFirstRead(op, s0);
    if settled { return; }
    adapter := new DomainAdapter();
    database.Await();
    var action := DecideFresh(op, database.tables.domain);
    attempt := Attempt([s0, database.tables], database.tables);
    if !action.Finish? { return OtherError, None, adapter, attempt; }
    var wrote := |action.writes| != 0;
    if wrote { adapter.logInserted := 1; }
    attempt := attempt.(at := Arrived(database.tables, database.arrivals));
    result := SubmitDecision(database, batchId, action.guards, action.writes);
    answer := Some(action.value);
  }

  lemma OthersOnlyContinues<DB>(journal: seq<Entry<DB>>, more: seq<Entry<DB>>, from: nat)
    requires journal <= more && from <= |journal| && OthersOnly(journal, from)
    ensures OthersOnly(more, from) <==> OthersOnly(more, |journal|)
  {
    assert forall k :: from <= k < |journal| ==> more[k] == journal[k];
  }

  ghost predicate AllConflicted<S>(op: Operation<S>, trace: seq<Attempt<S>>) {
    forall k :: 0 <= k < |trace| ==>
      Selects(trace[k]) && Conflicts(op, trace[k]) && !Answers(op, trace[k]) && !Commits(op, trace[k])
  }

  // After the attempts of `trace` this is where the run is.
  ghost predicate IsAt<S>(
    op: Operation<S>, whole: seq<Attempt<S>>, trace: seq<Attempt<S>>, s: Db<S>, arrivals: seq<seq<Db<S>>>, attempts: nat)
  {
    whole == trace + TraceOf(op, s, arrivals, attempts) && AllConflicted(op, trace)
  }

  lemma TraceGoesOn<S>(
    op: Operation<S>, whole: seq<Attempt<S>>, trace: seq<Attempt<S>>, s: Db<S>, arrivals: seq<seq<Db<S>>>,
    attempts: nat, maximumAttempts: nat)
    requires IsAt(op, whole, trace, s, arrivals, attempts)
    ensures attempts == 0 && trace != [] ==>
              whole == trace && OutcomeOf(op, trace, maximumAttempts) == Contended(maximumAttempts)
              && !Commits(op, trace[|trace| - 1])
    ensures forall k :: 0 <= k < |trace| ==> Selects(trace[k])
    ensures attempts > 0 ==>
              var a, rest := AttemptAt(op, s, arrivals), Upcoming(Upcoming(Upcoming(arrivals)));
              && (Commits(op, a) ==> Answers(op, a))
              && if Conflicts(op, a) then IsAt(op, whole, trace + [a], a.at, rest, attempts - 1)
                 else whole == trace + [a] && OutcomeOf(op, whole, maximumAttempts) ==
                        if Answers(op, a) then Returned(Decide(op, a.seen).value) else Threw
  {
    if attempts > 0 { ConflictsSelect(op, s, arrivals); }
    hide AttemptAt, Submitted, Upcoming, Decide;
  }

  lemma ConflictsSelect<S>(op: Operation<S>, s: Db<S>, arrivals: seq<seq<Db<S>>>)
    ensures var a := AttemptAt(op, s, arrivals);
            && (Conflicts(op, a) ==> Selects(a) && !Answers(op, a) && !Commits(op, a))
            && (Commits(op, a) ==> Answers(op, a))
  {
    hide Submitted;
  }

  lemma NoAttempts<S>(op: Operation<S>, s: Db<S>, arrivals: seq<seq<Db<S>>>, journal: seq<Entry<Db<S>>>)
    ensures OthersOnly(journal, |journal|)
    ensures TraceOf(op, s, arrivals, 0) == []
    ensures forall n :: n >= 0 ==> IsAt(op, TraceOf(op, s, arrivals, n), [], s, arrivals, n)
    ensures Recorded(op, [], []) && Quiet([]) && IsLatest([], null, 0)
  {
  }

  // The adapter selected last is that of attempt `index`, or there is none.
  ghost predicate IsLatest(adapters: seq<DomainAdapter?>, latest: DomainAdapter?, index: nat) {
    && index <= |adapters|
    && (if index == |adapters| then latest == null else latest != null && adapters[index] == latest)
    && (forall k :: 0 <= k < |adapters| && (index == |adapters| || index < k) ==> adapters[k] == null)
  }

  lemma AttemptAdded<S>(
    op: Operation<S>, trace: seq<Attempt<S>>, adapters: seq<DomainAdapter?>, latestDomain: DomainAdapter?, latest: nat,
    last: Attempt<S>, adapter: DomainAdapter?)
    returns (index: nat)
    requires Recorded(op, trace, adapters) && Quiet(adapters) && IsLatest(adapters, latestDomain, latest)
    requires forall k :: 0 <= k < |trace| ==> Selects(trace[k])
    requires adapter != null <==> Selects(last)
    requires adapter != null ==> adapter !in adapters && adapter.committedCalls == 0 && adapter.finishedCalls == []
    requires adapter != null ==> adapter.logInserted == (if Writes(op, last) then 1 else 0)
    ensures Recorded(op, trace + [last], adapters + [adapter]) && Quiet(adapters + [adapter])
    ensures IsLatest(adapters + [adapter], if adapter == null then latestDomain else adapter, index)
  {
    index := if adapter != null then |adapters| else if latest == |adapters| then latest + 1 else latest;
    if adapter == null { assert forall k :: 0 <= k < |adapters| ==> adapters[k] != null; }
  }

  // runD1BufferedUnitOfWork around the attempts, before any notification.
  method Attempts<S>(
    database: Database<Db<S>, Guard<S>, Write<S>>, op: Operation<S>, maximumAttempts: int, newBatchId: nat -> BatchId)
    returns (outcome: AtomicBatch.Outcome<Answer>, adapters: seq<DomainAdapter?>, latestDomain: DomainAdapter?,
             ghost trace: seq<Attempt<S>>, ghost latest: nat)
    requires database.Idle() && database.engine == Boundary()
    modifies database
    ensures database.Idle() && Recorded(op, trace, adapters) && Quiet(adapters)
    ensures trace == TraceOf(op, old(database.tables), old(database.arrivals),
                             if 1 <= maximumAttempts <= 5 then maximumAttempts else 0)
    ensures outcome == OutcomeOf(op, trace, if maximumAttempts < 0 then 0 else maximumAttempts)
    ensures IsLatest(adapters, latestDomain, latest)
    ensures forall k :: 0 <= k < |adapters| && adapters[k] != null ==> fresh(adapters[k])
    ensures trace != [] && Commits(op, trace[|trace| - 1]) <==> !OthersOnly(database.journal, |old(database.journal)|)
  {
    hide TraceOf, AttemptAt, Submitted, Decide, Writes, Commits, Conflicts, Answers;
    hide Recorded, Quiet, IsLatest, IsAt, OthersOnly;
    adapters, latestDomain, trace, latest := [], null, [], 0;
    NoAttempts(op, database.tables, database.arrivals, database.journal);
    if !(1 <= maximumAttempts <= 5) { return Threw, adapters, latestDomain, trace, latest; }
    ghost var whole := TraceOf(op, database.tables, database.arrivals, maximumAttempts);
    var attempt := 1;
    while attempt <= maximumAttempts
      invariant 1 <= attempt <= maximumAttempts + 1 && database.Idle()
      invariant old(database.journal) <= database.journal
      invariant OthersOnly(database.journal, |old(database.journal)|)
      invariant IsAt(op, whole, trace, database.tables, database.arrivals, maximumAttempts + 1 - attempt)
      invariant Recorded(op, trace, adapters) && Quiet(adapters) && |trace| == attempt - 1
      invariant IsLatest(adapters, latestDomain, latest)
      invariant forall k :: 0 <= k < |adapters| && adapters[k] != null ==> fresh(adapters[k])
    {
      var result, answer, adapter;
      ghost var last;
      ghost var before := database.journal;
      TraceGoesOn(op, whole, trace, database.tables, database.arrivals, maximumAttempts + 1 - attempt, maximumAttempts);
      result, answer, adapter, last := OneAttempt(database, op, newBatchId(attempt));
      OthersOnlyContinues(before, database.journal, |old(database.journal)|);
      latest := AttemptAdded(op, trace, adapters, latestDomain, latest, last, adapter);
      adapters, trace := adapters + [adapter], trace + [last];
      if adapter != null { latestDomain := adapter; }
      if result != ConflictMarker {
        outcome := if result == Done then Returned(answer.value) else Threw;
        return outcome, adapters, latestDomain, trace, latest;
      }
      attempt := attempt + 1;
    }
    TraceGoesOn(op, whole, trace, database.tables, database.arrivals, 0, maximumAttempts);
    return Contended(maximumAttempts), adapters, latestDomain, trace, latest;
  }

  // The two notifications, once the attempts are over.
  method Notify<S>(
    committed: bool, adapters: seq<DomainAdapter?>, latestDomain: DomainAdapter?,
    ghost op: Operation<S>, ghost trace: seq<Attempt<S>>, ghost latest: nat)
    requires Recorded(op, trace, adapters) && Quiet(adapters) && IsLatest(adapters, latestDomain, latest)
    requires committed <==> Answered(op, trace)
    modifies adapters
    ensures Recorded(op, trace, adapters) && Notified(op, trace, adapters)
  {
    hide Decide, Writes, Answers;
    if committed && adapters[|adapters| - 1] != null {
      var selectedDomain := adapters[|adapters| - 1];
      selectedDomain.committedCalls := selectedDomain.committedCalls + 1;
    }
    if latestDomain != null {
      latestDomain.finishedCalls := latestDomain.finishedCalls + [committed];
    }
  }

  // The whole port.
  method RunInUnitOfWork<S>(
    database: Database<Db<S>, Guard<S>, Write<S>>, op: Operation<S>, maximumAttempts: int, newBatchId: nat -> BatchId)
    returns (outcome: AtomicBatch.Outcome<Answer>, adapters: seq<DomainAdapter?>, ghost trace: seq<Attempt<S>>)
    requires database.Idle() && database.engine == Boundary()
    modifies database
    ensures trace == TraceOf(op, old(database.tables), old(database.arrivals),
                             if 1 <= maximumAttempts <= 5 then maximumAttempts else 0)
    ensures outcome == OutcomeOf(op, trace, if maximumAttempts < 0 then 0 else maximumAttempts)
    ensures database.Idle() && Recorded(op, trace, adapters) && Notified(op, trace, adapters)
    ensures trace != [] && Commits(op, trace[|trace| - 1]) <==> !OthersOnly(database.journal, |old(database.journal)|)
  {
    hide TraceOf, Decide, Writes, Commits, Conflicts, Answers, OthersOnly, Recorded, Quiet, IsLatest, Notified;
    var latestDomain;
    ghost var latest;
    outcome, adapters, latestDomain, trace, latest := Attempts(database, op, maximumAttempts, newBatchId);
    Notify(outcome.Returned?, adapters, latestDomain, op, trace, latest);
  }

  // ---- What the notifications are worth --------------------------------------------------

  predicate ToldNonterminal(outcome: AtomicBatch.Outcome<Answer>) {
    outcome.Returned? && outcome.value.Outcome?
  }

  // afterUnitOfWorkCommitted reaches at most the answering attempt's adapter, and no batch has
  // committed exactly when the invocation is told a nonterminal outcome.
  lemma CommittedIsFalseExactlyWhenNonterminal<S>(
    op: Operation<S>, s: Db<S>, arrivals: seq<seq<Db<S>>>, attempts: nat, k: nat)
    requires var trace := TraceOf(op, s, arrivals, attempts); k < |trace| && HearsCommitted(op, trace, k)
    ensures var trace := TraceOf(op, s, arrivals, attempts);
            && (!Commits(op, trace[k]) <==> ToldNonterminal(OutcomeOf(op, trace, attempts)))
            && (!Commits(op, trace[k]) <==> op.plan(trace[k].seen[1].domain).Nonterminal?)
            && forall j :: 0 <= j < |trace| && j != k ==> !Commits(op, trace[j]) && !HearsCommitted(op, trace, j)
  {
    TracesAreLawful(op, s, arrivals, attempts);
  }

  // Conversely no committed batch goes unannounced, by either notification.
  lemma EveryCommitIsAnnounced<S>(op: Operation<S>, s: Db<S>, arrivals: seq<seq<Db<S>>>, attempts: nat, k: nat)
    requires var trace := TraceOf(op, s, arrivals, attempts); k < |trace| && Commits(op, trace[k])
    ensures var trace := TraceOf(op, s, arrivals, attempts);
            HearsCommitted(op, trace, k) && HearsFinished(trace, k) && Answered(op, trace)
  {
    TracesAreLawful(op, s, arrivals, attempts);
  }

  // afterUnitOfWorkFinished({committed: true}) reaches the adapter selected last. Its batch has not
  // committed exactly when the invocation is told a nonterminal outcome, or when the last attempt
  // is answered by its first read -- a denial, a receipt or a held preflight -- after the attempt
  // before it, the one notified, conflicted.
  lemma FinishedIsFalseExactlyWhen<S>(op: Operation<S>, s: Db<S>, arrivals: seq<seq<Db<S>>>, attempts: nat, k: nat)
    requires var trace := TraceOf(op, s, arrivals, attempts);
             k < |trace| && HearsFinished(trace, k) && Answered(op, trace)
    ensures var trace := TraceOf(op, s, arrivals, attempts);
            var last := trace[|trace| - 1];
            && (!Commits(op, trace[k]) <==> ToldNonterminal(OutcomeOf(op, trace, attempts)) || !Selects(last))
            && (if Selects(last) then k == |trace| - 1 else k == |trace| - 2 && Conflicts(op, trace[k]))
            && (!Selects(last) ==> last.seen != [] && Settled(op, last.seen[0]))
  {
    hide TraceOf, AttemptAt, Submitted;
    TracesAreLawful(op, s, arrivals, attempts);
    var trace := TraceOf(op, s, arrivals, attempts);
    assert |trace| >= 2 ==> Selects(trace[|trace| - 2]);
  }

  // Both failures happen. With nobody else about, a handler that answers nonterminally is told of a
  // commit that wrote nothing.
  lemma NonterminalIsAnnouncedAsCommitted<S>(op: Operation<S>, s: Db<S>, attempts: nat)
    requires !Settled(op, s) && op.plan(s.domain).Nonterminal? && attempts > 0
    ensures var trace := TraceOf(op, s, [], attempts);
            && trace == [Attempt([s, s], s)]
            && OutcomeOf(op, trace, attempts) == Returned(Outcome(op.plan(s.domain).outcome))
            && HearsCommitted(op, trace, 0) && HearsFinished(trace, 0) && !Commits(op, trace[0])
  {
  }

  // And when another invocation of the identity commits just before this one's batch, the batch
  // conflicts, the retry replays the other's receipt -- or is denied -- without selecting an
  // adapter, and the finish notification tells the conflicted adapter that the unit committed.
  lemma ReplayAfterConflictMisleadsTheFirstAdapter<S>(
    op: Operation<S>, s: Db<S>, after: Db<S>, winner: Receipt, attempts: nat)
    requires !Settled(op, s) && op.plan(s.domain).Proceed? && attempts > 1
    requires after.log == s.log + [winner] && winner.identity == op.identity
    ensures var trace := TraceOf(op, s, [[], [], [after]], attempts);
            && trace == [Attempt([s, s], after), Attempt([after], after)] && Conflicts(op, trace[0])
            && OutcomeOf(op, trace, attempts) == Returned(if op.denied(after.domain) then Denied else Replay(op, winner))
            && HearsFinished(trace, 0) && Answered(op, trace) && !Commits(op, trace[0])
  {
    var a := AttemptAt(op, s, [[], [], [after]]);
    assert a == Attempt([s, s], after);
    assert after.log[|s.log|].identity == op.identity && Logged(after.log, op.identity);
    var absent := Decide(op, a.seen).guards[0];
    assert absent == ReceiptAbsent(op.identity) && !Boundary<S>().holds(absent, after);
    assert Upcoming(Upcoming(Upcoming([[], [], [after]]))) == [];
    assert AttemptAt(op, after, []) == Attempt([after], after);
    FirstAndOnly(s.log, winner);
  }

  lemma {:induction false} FirstAndOnly(log: seq<Receipt>, receipt: Receipt)
    requires !Logged(log, receipt.identity)
    ensures Find(log + [receipt], receipt.identity) == Some(receipt)
  {
    if log == [] {
      assert log + [receipt] == [receipt];
    } else {
      assert log[0].identity != receipt.identity;
      assert (log + [receipt])[1..] == log[1..] + [receipt];
      forall i | 0 <= i < |log[1..]| ensures log[1..][i].identity != receipt.identity {
        assert log[1..][i] == log[i + 1];
      }
      FirstAndOnly(log[1..], receipt);
    }
  }
}
