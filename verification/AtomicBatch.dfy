// Model of apps/cloudflare-worker/src/d1-atomic-batch.ts: a unit of work buffers the predicates
// that justified its decision and the writes it wants, and one D1 batch runs both.
module AtomicBatch {
  import opened Wrappers

  // How a database reads its statements. `holds` is a SELECT predicate; `apply` is one mutation,
  // which answers None when a constraint or a trigger aborts it.
  datatype Engine<!DB, !G, !W> = Engine(holds: (G, DB) -> bool, apply: (W, DB) -> Option<DB>) {
    predicate AllHold(guards: seq<G>, s: DB) {
      forall i :: 0 <= i < |guards| ==> holds(guards[i], s)
    }

    function ApplyAll(writes: seq<W>, s: DB): Option<DB> {
      if writes == [] then Some(s)
      else
        match apply(writes[0], s)
        case None => None
        case Some(s') => ApplyAll(writes[1..], s')
    }

    // What a guarded unit means: check everything at one state, then change it, or change nothing.
    function Commit(guards: seq<G>, writes: seq<W>, s: DB): Verdict<DB> {
      if !AllHold(guards, s) then Conflicted
      else
        match ApplyAll(writes, s)
        case None => Aborted
        case Some(s') => Committed(s')
    }
  }

  datatype Verdict<+DB> = Committed(after: DB) | Conflicted | Aborted

  // What application work does next, given the snapshots its session has read so far.
  datatype Action<+G, +W, +V> = ReadMore | Fail | Finish(value: V, guards: seq<G>, writes: seq<W>)

  // A unit of work: at most `readLimit` reads, each of which may see a different state.
  datatype Work<!DB, +G, +W, +V> = Work(readLimit: nat, decide: seq<DB> -> Action<G, W, V>) {
    predicate WantsRead(seen: seq<DB>) {
      |seen| < readLimit && decide(seen).ReadMore?
    }
  }

  datatype Outcome<+V> = Pending | Returned(value: V) | Threw | Contended(attempts: nat)

  // ---- One batch, statement by statement -------------------------------------------------

  type BatchId = string
  type GuardRows = set<(BatchId, nat)>

  datatype Statement<+G, +W> =
    | InsertGuard(batchId: BatchId, sequence: nat, guard: G)
    | Change(write: W)
    | DeleteGuards(batchId: BatchId)

  datatype Execution<+DB> = Ran(tables: DB, guardRows: GuardRows) | GuardConflict | ConstraintError

  // The guard table's insert trigger aborts with the conflict marker; its primary key and every
  // other constraint abort without it.
  function Execute<DB, G, W>(e: Engine<DB, G, W>, statement: Statement<G, W>, tables: DB, rows: GuardRows)
    : Execution<DB>
  {
    match statement
    case InsertGuard(id, n, g) =>
      if !e.holds(g, tables) then GuardConflict
      else if (id, n) in rows then ConstraintError
      else Ran(tables, rows + {(id, n)})
    case Change(w) =>
      (match e.apply(w, tables) case None => ConstraintError case Some(t) => Ran(t, rows))
    case DeleteGuards(id) => Ran(tables, set r | r in rows && r.0 != id)
  }

  function ExecuteAll<DB, G, W>(e: Engine<DB, G, W>, statements: seq<Statement<G, W>>, tables: DB, rows: GuardRows)
    : Execution<DB>
  {
    if statements == [] then Ran(tables, rows)
    else
      match Execute(e, statements[0], tables, rows)
      case Ran(t, r) => ExecuteAll(e, statements[1..], t, r)
      case stop => stop
  }

  function GuardStatements<G, W>(id: BatchId, guards: seq<G>): seq<Statement<G, W>> {
    seq(|guards|, i requires 0 <= i < |guards| => InsertGuard(id, i + 1, guards[i]))
  }

  function ChangeStatements<G, W>(writes: seq<W>): seq<Statement<G, W>> {
    seq(|writes|, i requires 0 <= i < |writes| => Change(writes[i]))
  }

  function Statements<G, W>(id: BatchId, guards: seq<G>, writes: seq<W>): seq<Statement<G, W>> {
    GuardStatements(id, guards) + ChangeStatements(writes) + [DeleteGuards(id)]
  }

  lemma {:induction false} ExecuteAllAppend<DB, G, W>(
    e: Engine<DB, G, W>, first: seq<Statement<G, W>>, second: seq<Statement<G, W>>, tables: DB, rows: GuardRows)
    ensures ExecuteAll(e, first + second, tables, rows) ==
            match ExecuteAll(e, first, tables, rows)
            case Ran(t, r) => ExecuteAll(e, second, t, r)
            case stop => stop
  {
    if first == [] {
      assert first + second == second;
    } else {
      assert (first + second)[1..] == first[1..] + second;
      match Execute(e, first[0], tables, rows)
      case Ran(t, r) => ExecuteAllAppend(e, first[1..], second, t, r);
      case stop =>
    }
  }

  lemma {:induction false} ApplyAllAppend<DB, G, W>(e: Engine<DB, G, W>, first: seq<W>, second: seq<W>, s: DB)
    ensures e.ApplyAll(first + second, s) ==
            match e.ApplyAll(first, s) case None => None case Some(t) => e.ApplyAll(second, t)
  {
    if first == [] {
      assert first + second == second;
    } else {
      assert (first + second)[1..] == first[1..] + second;
      match e.apply(first[0], s)
      case None =>
      case Some(t) => ApplyAllAppend(e, first[1..], second, t);
    }
  }

  lemma ApplyOne<DB, G, W>(e: Engine<DB, G, W>, w: W, s: DB)
    ensures e.ApplyAll([w], s) == e.apply(w, s)
  {
    assert [w][1..] == [];
  }

  // The guards inserted so far, numbered from `from + 1`.
  function Inserted(id: BatchId, from: nat, count: nat): GuardRows {
    set n | from < n <= from + count :: (id, n)
  }

  lemma {:induction false} GuardsRunAtOneState<DB, G, W>(
    e: Engine<DB, G, W>, id: BatchId, guards: seq<G>, k: nat, tables: DB, rows: GuardRows)
    requires k <= |guards| && forall r :: r in rows && r.0 == id ==> r.1 <= k
    ensures ExecuteAll(e, GuardStatements<G, W>(id, guards)[k..], tables, rows) ==
            if forall i :: k <= i < |guards| ==> e.holds(guards[i], tables)
            then Ran(tables, rows + Inserted(id, k, |guards| - k))
            else GuardConflict
    decreases |guards| - k
  {
    var statements := GuardStatements<G, W>(id, guards);
    if k == |guards| {
      assert statements[k..] == [];
      assert rows + Inserted(id, k, 0) == rows;
    } else {
      assert statements[k..][0] == InsertGuard(id, k + 1, guards[k]);
      assert statements[k..][1..] == statements[k + 1..];
      if e.holds(guards[k], tables) {
        var rows' := rows + {(id, k + 1)};
        GuardsRunAtOneState<DB, G, W>(e, id, guards, k + 1, tables, rows');
        assert rows' + Inserted(id, k + 1, |guards| - k - 1) == rows + Inserted(id, k, |guards| - k);
      }
    }
  }

  lemma {:induction false} ChangesRunInOrder<DB, G, W>(
    e: Engine<DB, G, W>, writes: seq<W>, tables: DB, rows: GuardRows)
    ensures ExecuteAll(e, ChangeStatements<G, W>(writes), tables, rows) ==
            match e.ApplyAll(writes, tables)
            case None => ConstraintError
            case Some(t) => Ran(t, rows)
  {
    if writes != [] {
      assert ChangeStatements<G, W>(writes)[1..] == ChangeStatements<G, W>(writes[1..]);
      match e.apply(writes[0], tables)
      case None =>
      case Some(t) => ChangesRunInOrder<DB, G, W>(e, writes[1..], t, rows);
    }
  }

  // The statement list the source builds IS a guarded commit: every guard is evaluated at the
  // state before the first write although guard rows are being inserted, the conflict marker is
  // raised exactly when a guard fails, and no guard row survives.
  lemma StatementsAreGuardedCommit<DB, G, W>(
    e: Engine<DB, G, W>, id: BatchId, guards: seq<G>, writes: seq<W>, tables: DB, rows: GuardRows)
    requires forall r :: r in rows ==> r.0 != id
    ensures ExecuteAll(e, Statements(id, guards, writes), tables, rows) ==
            match e.Commit(guards, writes, tables)
            case Committed(t) => Ran(t, rows)
            case Conflicted => GuardConflict
            case Aborted => ConstraintError
  {
    var gs, cs := GuardStatements<G, W>(id, guards), ChangeStatements<G, W>(writes);
    ExecuteAllAppend(e, gs + cs, [DeleteGuards(id)], tables, rows);
    ExecuteAllAppend(e, gs, cs, tables, rows);
    assert gs[0..] == gs;
    GuardsRunAtOneState<DB, G, W>(e, id, guards, 0, tables, rows);
    if e.AllHold(guards, tables) {
      var rows' := rows + Inserted(id, 0, |guards|);
      ChangesRunInOrder<DB, G, W>(e, writes, tables, rows');
      match e.ApplyAll(writes, tables)
      case None =>
      case Some(t) =>
        assert (set r | r in rows' && r.0 != id) == rows;
        assert ExecuteAll(e, [Statement<G, W>.DeleteGuards(id)], t, rows') == Ran(t, rows);
    }
  }

  // ---- The database, the buffer and the retry loop ---------------------------------------

  // One committed batch, ours or another session's.
  datatype Entry<+DB> = Entry(own: bool, before: DB, after: DB)

  // The tables this session finds at its next await, and the interference left after that.
  function Arrived<DB>(tables: DB, arrivals: seq<seq<DB>>): DB {
    if arrivals == [] || arrivals[0] == [] then tables else arrivals[0][|arrivals[0]| - 1]
  }

  function Upcoming<DB>(arrivals: seq<seq<DB>>): seq<seq<DB>> {
    if arrivals == [] then [] else arrivals[1..]
  }

  // A D1 database shared with other sessions. `arrivals` scripts their interference: each time
  // this session awaits, the next list of table states has been committed by somebody else.
  class Database<DB, G, W> {
    const engine: Engine<DB, G, W>
    var tables: DB
    var guardRows: GuardRows
    var arrivals: seq<seq<DB>>
    ghost var journal: seq<Entry<DB>>

    constructor (engine: Engine<DB, G, W>, tables: DB, arrivals: seq<seq<DB>>)
      ensures Idle() && this.engine == engine && this.tables == tables && this.arrivals == arrivals && journal == []
    {
      this.engine := engine;
      this.tables := tables;
      this.arrivals := arrivals;
      guardRows, journal := {}, [];
    }

    // Between batches the guard table is empty and the journal explains the tables.
    ghost predicate Idle()
      reads this
    {
      guardRows == {} && Linked(journal) && (journal != [] ==> journal[|journal| - 1].after == tables)
    }

    method Await()
      requires Idle()
      modifies this
      ensures Idle() && Extends(old(journal), journal, old(tables), tables)
      ensures OthersOnly(journal, |old(journal)|)
      ensures tables == Arrived(old(tables), old(arrivals)) && arrivals == Upcoming(old(arrivals))
    {
      if arrivals == [] { return; }
      var states := arrivals[0];
      arrivals := arrivals[1..];
      var i := 0;
      while i < |states|
        invariant 0 <= i <= |states| && Idle() && arrivals == Upcoming(old(arrivals))
        invariant tables == if i == 0 then old(tables) else states[i - 1]
        invariant Extends(old(journal), journal, old(tables), tables)
        invariant OthersOnly(journal, |old(journal)|)
      {
        journal := journal + [Entry(false, tables, states[i])];
        tables := states[i];
        i := i + 1;
      }
    }

    // D1's batch: one transaction, so a statement that aborts undoes the ones before it.
    method Batch(statements: seq<Statement<G, W>>) returns (result: Execution<DB>)
      modifies this
      ensures result == ExecuteAll(engine, statements, old(tables), old(guardRows))
      ensures journal == old(journal) && arrivals == old(arrivals)
      ensures match result
              case Ran(t, rows) => tables == t && guardRows == rows
              case _ => tables == old(tables) && guardRows == old(guardRows)
    {
      var savedTables, savedRows := tables, guardRows;
      var i := 0;
      while i < |statements|
        invariant 0 <= i <= |statements|
        invariant ExecuteAll(engine, statements, old(tables), old(guardRows)) ==
                  ExecuteAll(engine, statements[i..], tables, guardRows)
        invariant journal == old(journal) && arrivals == old(arrivals)
      {
        var step := Execute(engine, statements[i], tables, guardRows);
        assert statements[i..][0] == statements[i] && statements[i..][1..] == statements[i + 1..];
        match step {
          case Ran(t, rows) =>
            tables, guardRows := t, rows;
          case stop =>
            tables, guardRows := savedTables, savedRows;
            return step;
        }
        i := i + 1;
      }
      return Ran(tables, guardRows);
    }
  }

  ghost predicate Linked<DB>(journal: seq<Entry<DB>>) {
    forall i :: 0 < i < |journal| ==> journal[i].before == journal[i - 1].after
  }

  ghost predicate Extends<DB>(old_: seq<Entry<DB>>, new_: seq<Entry<DB>>, before: DB, after: DB) {
    && old_ <= new_
    && (|new_| > |old_| ==> new_[|old_|].before == before)
    && (if |new_| > |old_| then new_[|new_| - 1].after == after else before == after)
  }

  ghost predicate OthersOnly<DB>(journal: seq<Entry<DB>>, from: nat) {
    forall k :: from <= k < |journal| ==> !journal[k].own
  }

  // A state the tables went through since the journal had `from` entries.
  ghost predicate Visited<DB>(journal: seq<Entry<DB>>, from: nat, start: DB, s: DB) {
    s == start || exists k :: from <= k < |journal| && journal[k].after == s
  }

  ghost predicate AllVisited<DB>(journal: seq<Entry<DB>>, from: nat, start: DB, seen: seq<DB>) {
    forall i :: 0 <= i < |seen| ==> Visited(journal, from, start, seen[i])
  }

  // The journal ends with this session's only batch: guarded, applied at one state, and decided
  // from snapshots of states that came before it.
  ghost predicate CommittedLast<DB, G, W, V>(
    e: Engine<DB, G, W>, work: Work<DB, G, W, V>, journal: seq<Entry<DB>>, from: nat, start: DB, seen: seq<DB>)
  {
    && |journal| > from && work.decide(seen).Finish?
    && var action, n := work.decide(seen), |journal| - 1;
    && journal[n].own && OthersOnly(journal[..n], from) && AllVisited(journal[..n], from, start, seen)
    && action.guards != [] && action.writes != []
    && e.Commit(action.guards, action.writes, journal[n].before) == Committed(journal[n].after)
  }

  datatype CommitResult = Done | GuardRequired | ConflictMarker | OtherError

  class BufferedUnitOfWork<DB, G, W> {
    const readSession: Database<DB, G, W>
    const batchId: BatchId
    var guards: seq<G>
    var writes: seq<W>

    constructor (readSession: Database<DB, G, W>, batchId: BatchId)
      ensures this.readSession == readSession && guards == [] && writes == []
    {
      this.readSession, this.batchId := readSession, batchId;
      guards, writes := [], [];
    }

    method AssertCurrent(guard: G)
      modifies this
      ensures guards == old(guards) + [guard] && writes == old(writes)
    {
      guards := guards + [guard];
    }

    method Write(write: W)
      modifies this
      ensures writes == old(writes) + [write] && guards == old(guards)
    {
      writes := writes + [write];
    }

    // The batch is the guards, then the writes, then the removal of the guard rows; what comes out
    // is the guarded commit of the buffer, or nothing at all.
    method Commit() returns (result: CommitResult)
      requires readSession.Idle()
      modifies readSession
      ensures readSession.Idle() && readSession.arrivals == old(readSession.arrivals)
      ensures writes == [] ==> result == Done
      ensures writes != [] && guards == [] ==> result == GuardRequired
      ensures writes != [] && guards != [] ==>
                match readSession.engine.Commit(guards, writes, old(readSession.tables))
                case Committed(after) =>
                  && result == Done
                  && readSession.journal ==
                     old(readSession.journal) + [Entry(true, old(readSession.tables), after)]
                case Conflicted => result == ConflictMarker
                case Aborted => result == OtherError
      ensures writes == [] || result != Done ==>
                readSession.tables == old(readSession.tables) && readSession.journal == old(readSession.journal)
    {
      if |writes| == 0 { return Done; }
      if |guards| == 0 { return GuardRequired; }
      var statements: seq<Statement<G, W>> := [];
      var i := 0;
      while i < |guards|
        invariant 0 <= i <= |guards| && statements == GuardStatements<G, W>(batchId, guards)[..i]
      {
        statements := statements + [InsertGuard(batchId, i + 1, guards[i])];
        i := i + 1;
      }
      i := 0;
      while i < |writes|
        invariant 0 <= i <= |writes|
        invariant statements == GuardStatements(batchId, guards) + ChangeStatements(writes)[..i]
      {
        statements := statements + [Change(writes[i])];
        i := i + 1;
      }
      statements := statements + [DeleteGuards(batchId)];
      assert statements == Statements(batchId, guards, writes);
      StatementsAreGuardedCommit(readSession.engine, batchId, guards, writes, readSession.tables, {});
      ghost var before := readSession.tables;
      var execution := readSession.Batch(statements);
      match execution {
        case Ran(after, _) =>
          readSession.journal := readSession.journal + [Entry(true, before, after)];
          return Done;
        case GuardConflict =>
          return ConflictMarker;
        case ConstraintError =>
          return OtherError;
      }
    }
  }

  // The work's calls on its unit: one assertCurrent per guard, one write per statement.
  method BufferDecision<DB, G, W>(unitOfWork: BufferedUnitOfWork<DB, G, W>, guards: seq<G>, writes: seq<W>)
    requires unitOfWork.guards == [] && unitOfWork.writes == []
    modifies unitOfWork
    ensures unitOfWork.guards == guards && unitOfWork.writes == writes
  {
    for i := 0 to |guards|
      invariant unitOfWork.guards == guards[..i] && unitOfWork.writes == []
    {
      unitOfWork.AssertCurrent(guards[i]);
    }
    for i := 0 to |writes|
      invariant unitOfWork.guards == guards && unitOfWork.writes == writes[..i]
    {
      unitOfWork.Write(writes[i]);
    }
  }

  // ---- What a run of the loop comes to ---------------------------------------------------

  // One try: the snapshots its work read, and the tables its batch met.
  datatype Try<+DB> = Try(seen: seq<DB>, at: DB)

  // The work read as long as it wanted to, and no longer.
  ghost predicate ReadsItsFill<DB, G, W, V>(work: Work<DB, G, W, V>, seen: seq<DB>) {
    (forall j :: 0 <= j < |seen| ==> work.WantsRead(seen[..j])) && !work.WantsRead(seen)
  }

  // The try had something to write and one of its guards failed.
  predicate Refused<DB, G, W, V>(e: Engine<DB, G, W>, work: Work<DB, G, W, V>, t: Try<DB>) {
    var action := work.decide(t.seen);
    action.Finish? && action.writes != [] && exists i :: 0 <= i < |action.guards| && !e.holds(action.guards[i], t.at)
  }

  // The try had nothing to write, or was guarded, its guards held and its writes applied.
  predicate GoesThrough<DB, G, W, V>(e: Engine<DB, G, W>, work: Work<DB, G, W, V>, t: Try<DB>) {
    var action := work.decide(t.seen);
    && action.Finish?
    && (action.writes != [] ==>
          && action.guards != [] && (forall i :: 0 <= i < |action.guards| ==> e.holds(action.guards[i], t.at))
          && e.ApplyAll(action.writes, t.at).Some?)
  }

  // Every try but the last was refused. The last decides the outcome: its value if it answers,
  // contention if it was refused and was the last allowed, an error if neither.
  ghost predicate Settles<DB, G, W, V>(
    e: Engine<DB, G, W>, work: Work<DB, G, W, V>, tries: seq<Try<DB>>, maximumAttempts: int, outcome: Outcome<V>)
  {
    && 1 <= |tries| <= maximumAttempts && (forall k :: 0 <= k < |tries| - 1 ==> Refused(e, work, tries[k]))
    && var last := tries[|tries| - 1];
       match outcome
       case Pending => false
       case Returned(value) => GoesThrough(e, work, last) && work.decide(last.seen).value == value
       case Contended(n) => Refused(e, work, last) && |tries| == maximumAttempts == n
       case Threw => !GoesThrough(e, work, last) && !Refused(e, work, last)
  }

  // The tables this session finds at its n-th await, as long as it changes nothing itself.
  function AtAwait<DB>(tables: DB, arrivals: seq<seq<DB>>, n: nat): DB {
    if n == 0 then tables
    else if n <= |arrivals| && arrivals[n - 1] != [] then arrivals[n - 1][|arrivals[n - 1]| - 1]
    else AtAwait(tables, arrivals, n - 1)
  }

  // A try awaits once per read and once for its batch.
  function Awaits<DB>(tries: seq<Try<DB>>): nat {
    if tries == [] then 0 else Awaits(tries[..|tries| - 1]) + |tries[|tries| - 1].seen| + 1
  }

  // The reads and the batch of a try that starts after `n` awaits met what the others left there.
  ghost predicate AsScripted<DB>(tables: DB, arrivals: seq<seq<DB>>, n: nat, t: Try<DB>) {
    && (forall i :: 0 <= i < |t.seen| ==> t.seen[i] == AtAwait(tables, arrivals, n + i + 1))
    && t.at == AtAwait(tables, arrivals, n + |t.seen| + 1)
  }

  ghost predicate AllAsScripted<DB, G, W, V>(
    work: Work<DB, G, W, V>, tables: DB, arrivals: seq<seq<DB>>, tries: seq<Try<DB>>)
  {
    forall k :: 0 <= k < |tries| ==>
      ReadsItsFill(work, tries[k].seen) && AsScripted(tables, arrivals, Awaits(tries[..k]), tries[k])
  }

  // This session has awaited `n` times and changed nothing.
  ghost predicate HasAwaited<DB, G, W>(database: Database<DB, G, W>, tables: DB, arrivals: seq<seq<DB>>, n: nat)
    reads database
  {
    && database.tables == AtAwait(tables, arrivals, n)
    && database.arrivals == if n <= |arrivals| then arrivals[n..] else []
  }

  lemma OneMoreTry<DB, G, W, V>(
    work: Work<DB, G, W, V>, tables: DB, arrivals: seq<seq<DB>>, tries: seq<Try<DB>>, t: Try<DB>)
    requires AllAsScripted(work, tables, arrivals, tries)
    requires ReadsItsFill(work, t.seen) && AsScripted(tables, arrivals, Awaits(tries), t)
    ensures AllAsScripted(work, tables, arrivals, tries + [t]) && Awaits(tries + [t]) == Awaits(tries) + |t.seen| + 1
  {
    hide ReadsItsFill, AsScripted;
    var more := tries + [t];
    assert more[..|tries|] == tries;
    assert forall k :: 0 <= k <= |tries| ==> more[..k] == tries[..k];
  }

  // The work's reads in one session; other sessions may commit before each of them.
  method ReadSnapshots<DB, G, W, V>(
    database: Database<DB, G, W>, work: Work<DB, G, W, V>, ghost before: seq<Entry<DB>>, ghost start: DB,
    ghost script: seq<seq<DB>>, ghost n: nat)
    returns (snapshots: seq<DB>)
    requires database.Idle() && Extends(before, database.journal, start, database.tables)
    requires OthersOnly(database.journal, |before|) && HasAwaited(database, start, script, n)
    modifies database
    ensures database.Idle() && Extends(before, database.journal, start, database.tables)
    ensures OthersOnly(database.journal, |before|) && HasAwaited(database, start, script, n + |snapshots|)
    ensures AllVisited(database.journal, |before|, start, snapshots) && ReadsItsFill(work, snapshots)
    ensures forall i :: 0 <= i < |snapshots| ==> snapshots[i] == AtAwait(start, script, n + i + 1)
  {
    snapshots := [];
    NothingRead(database, work, before, start, script, n);
    while work.WantsRead(snapshots)
      invariant |snapshots| <= work.readLimit && Reading(database, work, before, start, script, n, snapshots)
      decreases work.readLimit - |snapshots|
    {
      hide Reading;
      snapshots := ReadNext(database, work, before, start, script, n, snapshots);
    }
  }

  // What the reads so far have seen, and nothing of its own has happened since.
  ghost predicate Reading<DB, G, W, V>(
    database: Database<DB, G, W>, work: Work<DB, G, W, V>, before: seq<Entry<DB>>, start: DB, script: seq<seq<DB>>, n: nat,
    snapshots: seq<DB>)
    reads database
  {
    && database.Idle() && Extends(before, database.journal, start, database.tables)
    && OthersOnly(database.journal, |before|) && HasAwaited(database, start, script, n + |snapshots|)
    && AllVisited(database.journal, |before|, start, snapshots)
    && (forall j :: 0 <= j < |snapshots| ==> work.WantsRead(snapshots[..j]))
    && (forall i :: 0 <= i < |snapshots| ==> snapshots[i] == AtAwait(start, script, n + i + 1))
  }

  lemma NothingRead<DB, G, W, V>(
    database: Database<DB, G, W>, work: Work<DB, G, W, V>, before: seq<Entry<DB>>, start: DB, script: seq<seq<DB>>, n: nat)
    requires database.Idle() && Extends(before, database.journal, start, database.tables)
    requires OthersOnly(database.journal, |before|) && HasAwaited(database, start, script, n)
    ensures Reading(database, work, before, start, script, n, [])
  {
  }

  // One more read sees the tables as the other sessions have left them by now.
  method ReadNext<DB, G, W, V>(
    database: Database<DB, G, W>, work: Work<DB, G, W, V>, ghost before: seq<Entry<DB>>, ghost start: DB,
    ghost script: seq<seq<DB>>, ghost n: nat, snapshots: seq<DB>)
    returns (more: seq<DB>)
    requires Reading(database, work, before, start, script, n, snapshots) && work.WantsRead(snapshots)
    modifies database
    ensures Reading(database, work, before, start, script, n, more) && |more| == |snapshots| + 1
  {
    hide AtAwait, Extends, OthersOnly, Visited;
    ghost var journal, tables := database.journal, database.tables;
    NextAwait(database, start, script, n + |snapshots|);
    database.Await();
    more := snapshots + [database.tables];
    VisitedOneMore(before, journal, database.journal, start, tables, database.tables, snapshots);
    assert more[..|snapshots|] == snapshots;
    assert forall j :: 0 <= j < |snapshots| ==> more[..j] == snapshots[..j];
  }

  lemma VisitedOneMore<DB>(
    before: seq<Entry<DB>>, journal: seq<Entry<DB>>, journal': seq<Entry<DB>>, start: DB, tables: DB, tables': DB,
    seen: seq<DB>)
    requires Extends(before, journal, start, tables) && Extends(journal, journal', tables, tables')
    requires OthersOnly(journal, |before|) && OthersOnly(journal', |journal|)
    requires AllVisited(journal, |before|, start, seen)
    ensures Extends(before, journal', start, tables') && OthersOnly(journal', |before|)
    ensures AllVisited(journal', |before|, start, seen + [tables'])
  {
    forall i | 0 <= i < |seen| ensures Visited(journal', |before|, start, seen[i]) {
      assert Visited(journal, |before|, start, seen[i]);
    }
  }

  // What one attempt that reports success has done to the journal since it had `from` entries.
  ghost predicate Succeeded<DB, G, W, V>(
    e: Engine<DB, G, W>, work: Work<DB, G, W, V>, journal: seq<Entry<DB>>, from: nat, start: DB, seen: seq<DB>)
  {
    && work.decide(seen).Finish?
    && if work.decide(seen).writes == [] then OthersOnly(journal, from) && AllVisited(journal, from, start, seen)
       else CommittedLast(e, work, journal, from, start, seen)
  }

  // The journal ends with an own batch that was applied at `at`.
  ghost predicate OwnLast<DB, G, W>(e: Engine<DB, G, W>, journal: seq<Entry<DB>>, guards: seq<G>, writes: seq<W>, at: DB) {
    && journal != []
    && journal[|journal| - 1].own && journal[|journal| - 1].before == at
    && e.Commit(guards, writes, at) == Committed(journal[|journal| - 1].after)
  }

  // The decision goes to the database as one batch.
  method SubmitDecision<DB, G, W>(database: Database<DB, G, W>, batchId: BatchId, guards: seq<G>, writes: seq<W>)
    returns (result: CommitResult)
    requires database.Idle()
    modifies database
    ensures database.Idle() && database.arrivals == Upcoming(old(database.arrivals))
    ensures Extends(old(database.journal), database.journal, old(database.tables), database.tables)
    ensures var at := Arrived(old(database.tables), old(database.arrivals));
            && (result != Done || writes == [] ==>
                  database.tables == at && OthersOnly(database.journal, |old(database.journal)|))
            && result == (if writes == [] then Done
                          else if guards == [] then GuardRequired
                          else match database.engine.Commit(guards, writes, at)
                               case Committed(_) => Done
                               case Conflicted => ConflictMarker
                               case Aborted => OtherError)
            && (result == Done && writes != [] ==>
                  && OwnLast(database.engine, database.journal, guards, writes, at)
                  && old(database.journal) <= database.journal[..|database.journal| - 1]
                  && OthersOnly(database.journal[..|database.journal| - 1], |old(database.journal)|))
  {
    var unitOfWork := new BufferedUnitOfWork(database, batchId);
    BufferDecision(unitOfWork, guards, writes);
    database.Await();
    ghost var others := database.journal;
    result := unitOfWork.Commit();
    assert result == Done && writes != [] ==> database.journal[..|database.journal| - 1] == others;
  }

  // One round of the retry loop: read, decide, buffer, commit.
  method Attempt<DB, G, W, V>(
    database: Database<DB, G, W>, work: Work<DB, G, W, V>, batchId: BatchId, ghost before: seq<Entry<DB>>,
    ghost start: DB, ghost script: seq<seq<DB>>, ghost n: nat)
    returns (result: CommitResult, snapshots: seq<DB>, ghost made: Try<DB>)
    requires database.Idle() && Extends(before, database.journal, start, database.tables)
    requires OthersOnly(database.journal, |before|) && HasAwaited(database, start, script, n)
    modifies database
    ensures database.Idle() && Extends(before, database.journal, start, database.tables)
    ensures result != Done ==> OthersOnly(database.journal, |before|)
    ensures result == Done ==> Succeeded(database.engine, work, database.journal, |before|, start, snapshots)
    ensures made.seen == snapshots && ReadsItsFill(work, snapshots) && AsScripted(start, script, n, made)
    ensures result == Done <==> GoesThrough(database.engine, work, made)
    ensures result == ConflictMarker <==> Refused(database.engine, work, made)
    ensures result == ConflictMarker ==> HasAwaited(database, start, script, n + |snapshots| + 1)
  {
    hide ReadsItsFill;
    snapshots := ReadSnapshots(database, work, before, start, script, n);
    made := Try(snapshots, AtAwait(start, script, n + |snapshots| + 1));
    var action := work.decide(snapshots);
    if !action.Finish? { return OtherError, snapshots, made; }
    ghost var others := database.journal;
    NextAwait(database, start, script, n + |snapshots|);
    result := SubmitDecision(database, batchId, action.guards, action.writes);
    TryVerdict(database.engine, work, made);
    hide AtAwait;
    if result == Done { SucceededFrom(database.engine, work, others, database.journal, |before|, start, snapshots); }
  }

  lemma NextAwait<DB, G, W>(database: Database<DB, G, W>, start: DB, script: seq<seq<DB>>, n: nat)
    requires HasAwaited(database, start, script, n)
    ensures Arrived(database.tables, database.arrivals) == AtAwait(start, script, n + 1)
    ensures Upcoming(database.arrivals) == if n + 1 <= |script| then script[n + 1..] else []
  {
  }

  lemma TryVerdict<DB, G, W, V>(e: Engine<DB, G, W>, work: Work<DB, G, W, V>, t: Try<DB>)
    requires work.decide(t.seen).Finish?
    ensures var action := work.decide(t.seen);
            && (Refused(e, work, t) <==> action.writes != [] && action.guards != [] && e.Commit(action.guards, action.writes, t.at).Conflicted?)
            && (GoesThrough(e, work, t) <==>
                  action.writes == [] || (action.guards != [] && e.Commit(action.guards, action.writes, t.at).Committed?))
  {
  }

  lemma SucceededFrom<DB, G, W, V>(
    e: Engine<DB, G, W>, work: Work<DB, G, W, V>, others: seq<Entry<DB>>, journal: seq<Entry<DB>>, from: nat, start: DB,
    seen: seq<DB>)
    requires work.decide(seen).Finish? && from <= |others| && OthersOnly(others, from) && AllVisited(others, from, start, seen)
    requires var action := work.decide(seen);
             if action.writes == [] then others <= journal && OthersOnly(journal, |others|)
             else
               && journal != [] && action.guards != []
               && OwnLast(e, journal, action.guards, action.writes, journal[|journal| - 1].before)
               && others <= journal[..|journal| - 1] && OthersOnly(journal[..|journal| - 1], |others|)
    ensures Succeeded(e, work, journal, from, start, seen)
  {
    var last := if work.decide(seen).writes == [] then journal else journal[..|journal| - 1];
    assert forall k :: 0 <= k < |others| ==> last[k] == others[k];
    forall i | 0 <= i < |seen| ensures Visited(last, from, start, seen[i]) {
      if seen[i] != start {
        var k :| from <= k < |others| && others[k].after == seen[i];
        assert last[k].after == seen[i];
      }
    }
  }

  ghost predicate AllRefused<DB, G, W, V>(e: Engine<DB, G, W>, work: Work<DB, G, W, V>, tries: seq<Try<DB>>) {
    forall k :: 0 <= k < |tries| ==> Refused(e, work, tries[k])
  }

  // What one more try comes to.
  lemma TryDecides<DB, G, W, V>(
    e: Engine<DB, G, W>, work: Work<DB, G, W, V>, tries: seq<Try<DB>>, t: Try<DB>, maximumAttempts: int)
    requires AllRefused(e, work, tries) && |tries| < maximumAttempts
    ensures GoesThrough(e, work, t) ==>
              Settles(e, work, tries + [t], maximumAttempts, Returned(work.decide(t.seen).value))
    ensures Refused(e, work, t) ==> AllRefused(e, work, tries + [t])
    ensures !GoesThrough(e, work, t) && !Refused(e, work, t) ==> Settles(e, work, tries + [t], maximumAttempts, Threw)
    ensures Refused(e, work, t) && |tries| + 1 == maximumAttempts ==>
              Settles(e, work, tries + [t], maximumAttempts, Contended(maximumAttempts))
  {
    TryIsOneOrOther(e, work, t);
    hide Refused, GoesThrough;
    assert (tries + [t])[|tries|] == t;
  }

  lemma TryIsOneOrOther<DB, G, W, V>(e: Engine<DB, G, W>, work: Work<DB, G, W, V>, t: Try<DB>)
    ensures !(Refused(e, work, t) && GoesThrough(e, work, t))
    ensures GoesThrough(e, work, t) ==> work.decide(t.seen).Finish?
  {
  }

  // Where the loop stands after tries that were all refused.
  ghost predicate Trying<DB, G, W, V>(
    database: Database<DB, G, W>, work: Work<DB, G, W, V>, journal: seq<Entry<DB>>, start: DB, script: seq<seq<DB>>,
    tries: seq<Try<DB>>)
    reads database
  {
    && database.Idle() && Extends(journal, database.journal, start, database.tables)
    && OthersOnly(database.journal, |journal|) && HasAwaited(database, start, script, Awaits(tries))
    && AllAsScripted(work, start, script, tries) && AllRefused(database.engine, work, tries)
  }

  method TryOnce<DB, G, W, V>(
    database: Database<DB, G, W>, work: Work<DB, G, W, V>, batchId: BatchId, ghost journal: seq<Entry<DB>>,
    ghost start: DB, ghost script: seq<seq<DB>>, ghost tries: seq<Try<DB>>, ghost maximumAttempts: int)
    returns (result: CommitResult, snapshots: seq<DB>, ghost made: Try<DB>)
    requires Trying(database, work, journal, start, script, tries) && |tries| < maximumAttempts
    modifies database
    ensures database.Idle() && Extends(journal, database.journal, start, database.tables)
    ensures made.seen == snapshots && AllAsScripted(work, start, script, tries + [made])
    ensures result == Done ==>
              && work.decide(snapshots).Finish?
              && Settles(database.engine, work, tries + [made], maximumAttempts, Returned(work.decide(snapshots).value))
              && Succeeded(database.engine, work, database.journal, |journal|, start, snapshots)
    ensures result == ConflictMarker ==>
              && Trying(database, work, journal, start, script, tries + [made])
              && (|tries| + 1 == maximumAttempts ==>
                    Settles(database.engine, work, tries + [made], maximumAttempts, Contended(maximumAttempts)))
    ensures result != Done ==> OthersOnly(database.journal, |journal|)
    ensures result != Done && result != ConflictMarker ==>
              Settles(database.engine, work, tries + [made], maximumAttempts, Threw)
  {
    hide Extends, OthersOnly, HasAwaited, Awaits, AllAsScripted, AsScripted, ReadsItsFill, AllRefused, Refused, GoesThrough;
    hide Settles, AtAwait;
    result, snapshots, made := Attempt(database, work, batchId, journal, start, script, Awaits(tries));
    OneMoreTry(work, start, script, tries, made);
    TryDecides(database.engine, work, tries, made, maximumAttempts);
  }

  // runD1BufferedUnitOfWork. Whatever other sessions do, a unit that returns a value with writes
  // committed exactly one batch, guarded and applied at one state, built from snapshots of states
  // the tables really went through; a unit that throws or runs out of attempts changed nothing. It
  // tries again after a refusal, and only then, as often as it may.
  method RunD1BufferedUnitOfWork<DB, G, W, V>(
    database: Database<DB, G, W>, work: Work<DB, G, W, V>, maximumAttempts: int, newBatchId: nat -> BatchId)
    returns (outcome: Outcome<V>, ghost tries: seq<Try<DB>>)
    requires database.Idle()
    modifies database
    ensures database.Idle()
    ensures Extends(old(database.journal), database.journal, old(database.tables), database.tables)
    ensures !(1 <= maximumAttempts <= 5) ==> outcome == Threw && tries == [] && database.journal == old(database.journal)
    ensures 1 <= maximumAttempts <= 5 ==> Settles(database.engine, work, tries, maximumAttempts, outcome)
    ensures AllAsScripted(work, old(database.tables), old(database.arrivals), tries)
    ensures !outcome.Returned? ==> OthersOnly(database.journal, |old(database.journal)|)
    ensures outcome.Returned? ==>
              tries != [] && Succeeded(database.engine, work, database.journal, |old(database.journal)|,
                                       old(database.tables), tries[|tries| - 1].seen)
  {
    hide *;
    tries := [];
    NothingTried(database, work);
    if !(1 <= maximumAttempts <= 5) { return Threw, tries; }
    ghost var journal, start, script := database.journal, database.tables, database.arrivals;
    var attempt := 1;
    while attempt <= maximumAttempts
      invariant 1 <= attempt <= maximumAttempts + 1 && |tries| == attempt - 1
      invariant Trying(database, work, journal, start, script, tries)
      invariant attempt > maximumAttempts ==>
                  Settles(database.engine, work, tries, maximumAttempts, Contended(maximumAttempts))
    {
      ghost var made;
      var result, snapshots;
      result, snapshots, made := TryOnce(database, work, newBatchId(attempt), journal, start, script, tries, maximumAttempts);
      tries := tries + [made];
      match result {
        case Done => return Returned(work.decide(snapshots).value), tries;
        case ConflictMarker => attempt := attempt + 1;
        case _ => return Threw, tries;
      }
    }
    StillTrying(database, work, journal, start, script, tries);
    return Contended(maximumAttempts), tries;
  }

  lemma StillTrying<DB, G, W, V>(
    database: Database<DB, G, W>, work: Work<DB, G, W, V>, journal: seq<Entry<DB>>, start: DB, script: seq<seq<DB>>,
    tries: seq<Try<DB>>)
    requires Trying(database, work, journal, start, script, tries)
    ensures database.Idle() && Extends(journal, database.journal, start, database.tables)
    ensures OthersOnly(database.journal, |journal|) && AllAsScripted(work, start, script, tries)
  {
  }

  lemma NothingTried<DB, G, W, V>(database: Database<DB, G, W>, work: Work<DB, G, W, V>)
    requires database.Idle()
    ensures Extends(database.journal, database.journal, database.tables, database.tables)
    ensures AllAsScripted(work, database.tables, database.arrivals, [])
    ensures OthersOnly(database.journal, |database.journal|)
    ensures Trying(database, work, database.journal, database.tables, database.arrivals, [])
  {
  }
}
