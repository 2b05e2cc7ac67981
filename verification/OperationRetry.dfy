// Answers that get lost: a batch commits, its caller hears an error and invokes the operation again.
module OperationRetry {
  import opened Wrappers
  import opened AtomicBatch
  import opened Serializability
  import opened OperationBoundary

  // ---- Runs in which answers get lost --------------------------------------------------------

  // The answer of a client whose batch has committed can be lost on its way.
  datatype Event = Move(client: nat) | Lose(client: nat)

  function Forget<DB, G, W, V>(y: System<DB, G, W, V>, i: nat): System<DB, G, W, V> {
    if i < |y.clients| && i in y.log then y.(clients := y.clients[i := y.clients[i].(outcome := Threw)]) else y
  }

  function After<DB, G, W, V>(e: Engine<DB, G, W>, y: System<DB, G, W, V>, event: Event): System<DB, G, W, V> {
    match event case Move(i) => Step(e, y, i) case Lose(i) => Forget(y, i)
  }

  function RunLossy<DB, G, W, V>(e: Engine<DB, G, W>, y: System<DB, G, W, V>, events: seq<Event>): System<DB, G, W, V>
    decreases |events|
  {
    if events == [] then y
    else After(e, RunLossy(e, y, events[..|events| - 1]), events[|events| - 1])
  }

  function MovesOf(events: seq<Event>): seq<nat> {
    if events == [] then []
    else
      var last := events[|events| - 1];
      MovesOf(events[..|events| - 1]) + (if last.Move? then [last.client] else [])
  }

  // The same tables and log, and the same clients up to answers that were lost.
  ghost predicate SameButAnswers<DB(!new), G(!new), W(!new), V(!new)>(y: System<DB, G, W, V>, w: System<DB, G, W, V>) {
    && w.db == y.db && w.log == y.log && |w.clients| == |y.clients|
    && (forall k :: 0 <= k < |y.log| ==> y.log[k] < |y.clients| && y.clients[y.log[k]].outcome.Returned?)
    && (forall k :: 0 <= k < |y.clients| ==>
          w.clients[k] == y.clients[k] || (k in y.log && w.clients[k] == y.clients[k].(outcome := Threw)))
  }

  lemma StepStaysTheSame<DB(!new), G(!new), W(!new), V(!new)>(
    e: Engine<DB, G, W>, y: System<DB, G, W, V>, w: System<DB, G, W, V>, i: nat)
    requires SameButAnswers(y, w)
    ensures SameButAnswers(Step(e, y, i), Step(e, w, i))
  {
    if i < |y.clients| {
      var m := StepClient(e, y.db, y.clients[i]);
      if w.clients[i] != y.clients[i] {
        assert !y.clients[i].outcome.Pending?;
        assert y.clients[i := y.clients[i]] == y.clients && w.clients[i := w.clients[i]] == w.clients;
      } else {
        assert StepClient(e, w.db, w.clients[i]) == m;
        assert m.committed ==> m.client.outcome.Returned? && y.clients[i].outcome.Pending?;
        assert forall k :: k in y.log ==> k in Step(e, y, i).log;
      }
    }
  }

  // A lost answer changes nothing but what its caller heard: tables, log and every other client are
  // those of the run without the losses.
  lemma {:induction false} LossesChangeOnlyAnswers<DB(!new), G(!new), W(!new), V(!new)>(
    e: Engine<DB, G, W>, works: seq<Work<DB, G, W, V>>, db: DB, maximumAttempts: nat, events: seq<Event>)
    ensures var begin := Begin(db, works, maximumAttempts);
            SameButAnswers(Run(e, begin, MovesOf(events)), RunLossy(e, begin, events))
    decreases |events|
  {
    if events != [] {
      var n, begin := |events| - 1, Begin(db, works, maximumAttempts);
      LossesChangeOnlyAnswers(e, works, db, maximumAttempts, events[..n]);
      var y, w := Run(e, begin, MovesOf(events[..n])), RunLossy(e, begin, events[..n]);
      match events[n]
      case Move(i) =>
        var moves := MovesOf(events);
        assert moves == MovesOf(events[..n]) + [i] && moves[..|moves| - 1] == MovesOf(events[..n]);
        StepStaysTheSame(e, y, w, i);
      case Lose(i) =>
        assert MovesOf(events) == MovesOf(events[..n]);
    }
  }

  lemma {:induction false} MovesAppend(events: seq<Event>, more: seq<Event>)
    ensures MovesOf(events + more) == MovesOf(events) + MovesOf(more)
    decreases |more|
  {
    if more == [] {
      assert events + more == events;
    } else {
      var n, all := |more| - 1, events + more;
      assert all[..|all| - 1] == events + more[..n] && all[|all| - 1] == more[n];
      MovesAppend(events, more[..n]);
    }
  }

  // ---- The retry ------------------------------------------------------------------------------

  type Caller<!S> = Client<Db<S>, Guard<S>, Write<S>, Answer>

  // A retry that started after its identity got the row: whatever it has read, it found the row.
  ghost predicate Retrying<S>(op: Operation<S>, row: Receipt, c: Caller<S>) {
    && c.work == WorkOf(op)
    && (if c.outcome.Pending? then c.seen == [] || (|c.seen| == 1 && Find(c.seen[0].log, op.identity) == Some(row))
        else c.outcome == Returned(Denied) || c.outcome == Returned(OperationBoundary.Replay(op, row)))
  }

  lemma RetryMoves<S(!new)>(op: Operation<S>, row: Receipt, s: Db<S>, c: Caller<S>)
    requires Retrying(op, row, c) && Find(s.log, op.identity) == Some(row)
    ensures var m := StepClient(Boundary(), s, c);
            && !m.committed && m.db == s && Retrying(op, row, m.client)
            && (c.outcome.Pending? && c.seen != [] ==>
                  m.client.outcome == Returned(if op.denied(c.seen[0].domain) then Denied else OperationBoundary.Replay(op, row)))
            && (c.outcome.Pending? && c.seen == [] ==> m.client.outcome.Pending? && m.client.seen == [s])
  {
    assert [] + [s] == [s];
  }

  // The row of the identity is found wherever it is in the log.
  lemma RowIsFound<S>(s: Db<S>, n: nat)
    requires OneRowPerIdentity(s) && n < |s.log|
    ensures Find(s.log, s.log[n].identity) == Some(s.log[n])
  {
    var found := Find(s.log, s.log[n].identity);
    assert Logged(s.log, s.log[n].identity);
    var k :| 0 <= k < |s.log| && s.log[k] == found.value;
  }

  ghost predicate RetryStands<S>(
    op: Operation<S>, y: System<Db<S>, Guard<S>, Write<S>, Answer>, j: nat, n: nat, row: Receipt)
  {
    && n < |y.db.log| && y.db.log[n] == row && row.identity == op.identity
    && j < |y.clients| && j !in y.log && Retrying(op, row, y.clients[j])
  }

  lemma RetryStep<S(!new)>(
    op: Operation<S>, y: System<Db<S>, Guard<S>, Write<S>, Answer>, i: nat, j: nat, n: nat, row: Receipt)
    requires OneRowPerIdentity(y.db) && RetryStands(op, y, j, n, row)
    requires y.db.log <= Step(Boundary(), y, i).db.log
    ensures RetryStands(op, Step(Boundary(), y, i), j, n, row)
  {
    RowIsFound(y.db, n);
    hide OneRowPerIdentity, Retrying, StepClient;
    RetryMoves(op, row, y.db, y.clients[j]);
  }

  lemma {:induction false} RetryStays<S(!new)>(
    ops: seq<Operation<S>>, db: Db<S>, maximumAttempts: nat, schedule: seq<nat>, more: seq<nat>, j: nat, n: nat, row: Receipt)
    requires OneRowPerIdentity(db) && j < |ops|
    requires RetryStands(ops[j], Run(Boundary(), Begin(db, WorksOf(ops), maximumAttempts), schedule), j, n, row)
    ensures RetryStands(ops[j], Run(Boundary(), Begin(db, WorksOf(ops), maximumAttempts), schedule + more), j, n, row)
    decreases |more|
  {
    var begin := Begin(db, WorksOf(ops), maximumAttempts);
    if more == [] {
      assert schedule + more == schedule;
    } else {
      hide *;
      var last := |more| - 1;
      RetryStays(ops, db, maximumAttempts, schedule, more[..last], j, n, row);
      OneMoreStep(ops, db, maximumAttempts, schedule + more[..last], more[last]);
      RetryStep(ops[j], Run(Boundary(), begin, schedule + more[..last]), more[last], j, n, row);
      assert schedule + more == schedule + more[..last] + [more[last]];
    }
  }

  lemma OneMoreStep<S(!new)>(ops: seq<Operation<S>>, db: Db<S>, maximumAttempts: nat, schedule: seq<nat>, i: nat)
    requires OneRowPerIdentity(db)
    ensures var begin := Begin(db, WorksOf(ops), maximumAttempts);
            var y := Run(Boundary(), begin, schedule);
            && Run(Boundary(), begin, schedule + [i]) == Step(Boundary(), y, i)
            && OneRowPerIdentity(y.db) && y.db.log <= Step(Boundary(), y, i).db.log
  {
    hide OneRowPerIdentity, WorksOf, Step, ExactlyOnce;
    assert (schedule + [i])[..|schedule|] == schedule;
    EveryRunIsExactlyOnce(ops, db, maximumAttempts, schedule);
    DomainMovesOnlyWithTheLog(ops, db, maximumAttempts, schedule, [i]);
  }

  // An invocation commits and its answer may be lost. From then on, over every continuation with any
  // further losses, an invocation of the same identity that starts afresh commits nothing and is
  // denied or answered from the row the first one wrote; there is no second row.
  lemma RetryIsAnsweredByTheFirstRow<S(!new)>(
    ops: seq<Operation<S>>, db: Db<S>, maximumAttempts: nat, events: seq<Event>, more: seq<Event>, i: nat, j: nat)
    returns (n: nat)
    requires OneRowPerIdentity(db) && i < |ops| && j < |ops| && ops[i].identity == ops[j].identity
    requires var w := RunLossy(Boundary(), Begin(db, WorksOf(ops), maximumAttempts), events);
             i in w.log && j < |w.clients| && w.clients[j].outcome.Pending? && w.clients[j].seen == []
    ensures var begin := Begin(db, WorksOf(ops), maximumAttempts);
            var w, w' := RunLossy(Boundary(), begin, events), RunLossy(Boundary(), begin, events + more);
            && |db.log| <= n < |w.db.log| && w.db.log <= w'.db.log && OneRowPerIdentity(w'.db)
            && var row := w.db.log[n];
               && row == ReceiptOf(ops[i], row.result) && j !in w'.log && j < |w'.clients|
               && (w'.clients[j].outcome.Pending? || w'.clients[j].outcome == Returned(Denied)
                   || w'.clients[j].outcome == Returned(OperationBoundary.Replay(ops[j], row)))
  {
    hide *;
    var begin := Begin(db, WorksOf(ops), maximumAttempts);
    var schedule, moves := MovesOf(events), MovesOf(more);
    var y, y' := Run(Boundary(), begin, schedule), Run(Boundary(), begin, schedule + moves);
    LossesChangeOnlyAnswers(Boundary(), WorksOf(ops), db, maximumAttempts, events);
    LossesChangeOnlyAnswers(Boundary(), WorksOf(ops), db, maximumAttempts, events + more);
    MovesAppend(events, more);
    OnlyLoggedAnswersDiffer(y, RunLossy(Boundary(), begin, events), j);
    n := RowOfACommit(ops, db, maximumAttempts, schedule, i);
    var row := y.db.log[n];
    FreshRetryStands(ops, db, maximumAttempts, schedule, j, n);
    RetryStays(ops, db, maximumAttempts, schedule, moves, j, n, row);
    DomainMovesOnlyWithTheLog(ops, db, maximumAttempts, schedule, moves);
    EveryRunIsExactlyOnce(ops, db, maximumAttempts, schedule + moves);
    StandingAnswers(ops[j], y', j, n, row);
    OnlyLoggedAnswersDiffer(y', RunLossy(Boundary(), begin, events + more), j);
  }

  lemma OnlyLoggedAnswersDiffer<DB(!new), G(!new), W(!new), V(!new)>(y: System<DB, G, W, V>, w: System<DB, G, W, V>, j: nat)
    requires SameButAnswers(y, w) && j < |w.clients|
    ensures w.db == y.db && w.log == y.log && |w.clients| == |y.clients|
    ensures w.clients[j] == y.clients[j] || (j in y.log && w.clients[j].outcome.Threw?)
  {
  }

  // The row a committed invocation wrote.
  lemma RowOfACommit<S(!new)>(ops: seq<Operation<S>>, db: Db<S>, maximumAttempts: nat, schedule: seq<nat>, i: nat)
    returns (n: nat)
    requires OneRowPerIdentity(db) && i < |ops|
    requires i in Run(Boundary(), Begin(db, WorksOf(ops), maximumAttempts), schedule).log
    ensures var y := Run(Boundary(), Begin(db, WorksOf(ops), maximumAttempts), schedule);
            && |db.log| <= n < |y.db.log| && y.db.log[n] == ReceiptOf(ops[i], y.db.log[n].result)
            && y.db.log[n].identity == ops[i].identity
  {
    hide OneRowPerIdentity, AnsweredByRow;
    EveryRunIsExactlyOnce(ops, db, maximumAttempts, schedule);
    var y := Run(Boundary(), Begin(db, WorksOf(ops), maximumAttempts), schedule);
    var k :| 0 <= k < |y.log| && y.log[k] == i;
    n := |db.log| + k;
  }

  lemma FreshRetryStands<S(!new)>(
    ops: seq<Operation<S>>, db: Db<S>, maximumAttempts: nat, schedule: seq<nat>, j: nat, n: nat)
    requires OneRowPerIdentity(db) && j < |ops|
    requires var y := Run(Boundary(), Begin(db, WorksOf(ops), maximumAttempts), schedule);
             && n < |y.db.log| && y.db.log[n].identity == ops[j].identity
             && j < |y.clients| && y.clients[j].outcome.Pending? && y.clients[j].seen == []
    ensures var y := Run(Boundary(), Begin(db, WorksOf(ops), maximumAttempts), schedule);
            RetryStands(ops[j], y, j, n, y.db.log[n])
  {
    hide OneRowPerIdentity, AnsweredByRow;
    EveryRunIsExactlyOnce(ops, db, maximumAttempts, schedule);
    SoundRun(ops, db, maximumAttempts, schedule);
    assert WorksOf(ops)[j] == WorkOf(ops[j]);
  }

  lemma StandingAnswers<S>(
    op: Operation<S>, y: System<Db<S>, Guard<S>, Write<S>, Answer>, j: nat, n: nat, row: Receipt)
    requires RetryStands(op, y, j, n, row)
    ensures j !in y.log && j < |y.clients| && n < |y.db.log| && y.db.log[n] == row
    ensures y.clients[j].outcome.Pending? || y.clients[j].outcome == Returned(Denied)
            || y.clients[j].outcome == Returned(OperationBoundary.Replay(op, row))
  {
  }

  // And two moves of its own answer it: with the first one's receipt and result if it asks for the
  // same and still may.
  lemma RetryIsAnswered<S(!new)>(
    ops: seq<Operation<S>>, db: Db<S>, maximumAttempts: nat, events: seq<Event>, i: nat, j: nat)
    returns (n: nat)
    requires OneRowPerIdentity(db) && i < |ops| && j < |ops| && ops[i].identity == ops[j].identity
    requires var w := RunLossy(Boundary(), Begin(db, WorksOf(ops), maximumAttempts), events);
             i in w.log && j < |w.clients| && w.clients[j].outcome.Pending? && w.clients[j].seen == []
    ensures var begin := Begin(db, WorksOf(ops), maximumAttempts);
            var w := RunLossy(Boundary(), begin, events);
            var w' := RunLossy(Boundary(), begin, events + [Move(j), Move(j)]);
            && w'.db == w.db && |db.log| <= n < |w.db.log| && w.db.log[n] == ReceiptOf(ops[i], w.db.log[n].result)
            && j < |w'.clients| && w'.clients[j].outcome == Returned(
                 if ops[j].denied(w.db.domain) then Denied
                 else if ops[j].requestHash != ops[i].requestHash then RequestChanged
                 else Success(ops[i].receiptId, w.db.log[n].result))
  {
    var begin := Begin(db, WorksOf(ops), maximumAttempts);
    var w := RunLossy(Boundary(), begin, events);
    n := RetryIsAnsweredByTheFirstRow(ops, db, maximumAttempts, events, [], i, j);
    assert events + [] == events;
    LossesChangeOnlyAnswers(Boundary(), WorksOf(ops), db, maximumAttempts, events);
    SoundRun(ops, db, maximumAttempts, MovesOf(events));
    RowIsFound(w.db, n);
    var row := w.db.log[n];
    assert WorksOf(ops)[j] == WorkOf(ops[j]);
    RetryMoves(ops[j], row, w.db, w.clients[j]);
    var once := RunLossy(Boundary(), begin, events + [Move(j)]);
    assert (events + [Move(j)])[..|events|] == events;
    RetryMoves(ops[j], row, once.db, once.clients[j]);
    assert (events + [Move(j), Move(j)])[..|events| + 1] == events + [Move(j)];
  }
}
