// All interleavings of buffered units of work: any number of sessions read, retry and commit in
// any order, each step of one session being a single read or a single batch.
module Serializability {
  import opened Wrappers
  import opened AtomicBatch

  // One caller of runD1BufferedUnitOfWork: the attempt it is on and what that attempt has read.
  datatype Client<!DB, +G, +W, +V> =
    Client(work: Work<DB, G, W, V>, maximumAttempts: nat, attempt: nat, seen: seq<DB>, outcome: Outcome<V>)

  // `log` lists the clients whose batch committed, in commit order.
  datatype System<!DB, +G, +W, +V> = System(db: DB, clients: seq<Client<DB, G, W, V>>, log: seq<nat>)

  datatype Moved<!DB, +G, +W, +V> = Moved(db: DB, client: Client<DB, G, W, V>, committed: bool)

  function StepClient<DB, G, W, V>(e: Engine<DB, G, W>, s: DB, c: Client<DB, G, W, V>): Moved<DB, G, W, V> {
    if !c.outcome.Pending? then Moved(s, c, false)
    else if c.work.WantsRead(c.seen) then Moved(s, c.(seen := c.seen + [s]), false)
    else
      match c.work.decide(c.seen)
      case ReadMore => Moved(s, c.(outcome := Threw), false)
      case Fail => Moved(s, c.(outcome := Threw), false)
      case Finish(v, guards, writes) =>
        if writes == [] then Moved(s, c.(outcome := Returned(v)), false)
        else if guards == [] then Moved(s, c.(outcome := Threw), false)
        else
          match e.Commit(guards, writes, s)
          case Committed(s') => Moved(s', c.(outcome := Returned(v)), true)
          case Aborted => Moved(s, c.(outcome := Threw), false)
          case Conflicted =>
            if c.attempt < c.maximumAttempts then Moved(s, c.(attempt := c.attempt + 1, seen := []), false)
            else Moved(s, c.(outcome := Contended(c.maximumAttempts)), false)
  }

  function Step<DB, G, W, V>(e: Engine<DB, G, W>, y: System<DB, G, W, V>, i: nat): System<DB, G, W, V> {
    if i >= |y.clients| then y
    else
      var m := StepClient(e, y.db, y.clients[i]);
      System(m.db, y.clients[i := m.client], if m.committed then y.log + [i] else y.log)
  }

  // The schedule names who moves; every interleaving is some schedule.
  function Run<DB, G, W, V>(e: Engine<DB, G, W>, y: System<DB, G, W, V>, schedule: seq<nat>): System<DB, G, W, V>
    decreases |schedule|
  {
    if schedule == [] then y
    else Step(e, Run(e, y, schedule[..|schedule| - 1]), schedule[|schedule| - 1])
  }

  lemma {:induction false} RunAppends<DB, G, W, V>(e: Engine<DB, G, W>, y: System<DB, G, W, V>, first: seq<nat>, second: seq<nat>)
    ensures Run(e, y, first + second) == Run(e, Run(e, y, first), second)
    decreases |second|
  {
    var n := |second| - 1;
    if second == [] {
      assert first + second == first;
    } else {
      var all := first + second;
      assert all[..|all| - 1] == first + second[..n] && all[|all| - 1] == second[n];
      RunAppends(e, y, first, second[..n]);
    }
  }

  // A client that reads while nobody else moves sees one state.
  lemma {:induction false} ReadsInARun<DB, G, W, V>(e: Engine<DB, G, W>, y: System<DB, G, W, V>, k: nat, n: nat)
    requires k < |y.clients| && y.clients[k].outcome.Pending? && y.clients[k].seen == []
    requires forall j :: 0 <= j < n ==> y.clients[k].work.WantsRead(Repeat(y.db, j))
    ensures Run(e, y, Repeat(k, n)) == y.(clients := y.clients[k := y.clients[k].(seen := Repeat(y.db, n))])
    decreases n
  {
    var c := y.clients[k];
    if n == 0 {
      assert Repeat(k, 0) == [] && Repeat(y.db, 0) == [];
      assert y.clients[k := c] == y.clients;
    } else {
      ReadsInARun(e, y, k, n - 1);
      var schedule := Repeat(k, n);
      assert schedule[..n - 1] == Repeat(k, n - 1) && schedule[n - 1] == k;
      assert Repeat(y.db, n) == Repeat(y.db, n - 1) + [y.db];
      var before := y.clients[k := c.(seen := Repeat(y.db, n - 1))];
      assert before[k := c.(seen := Repeat(y.db, n))] == y.clients[k := c.(seen := Repeat(y.db, n))];
    }
  }

  function Begin<DB, G, W, V>(db: DB, works: seq<Work<DB, G, W, V>>, maximumAttempts: nat): System<DB, G, W, V> {
    System(db, seq(|works|, i requires 0 <= i < |works| => Client(works[i], maximumAttempts, 1, [], Pending)), [])
  }

  // ---- The serial meaning of a unit ------------------------------------------------------

  function Repeat<T>(s: T, k: nat): seq<T> {
    seq(k, _ => s)
  }

  // Every read of a unit that runs alone sees the same state.
  function Alone<DB, G, W, V>(work: Work<DB, G, W, V>, s: DB, k: nat): Action<G, W, V>
    decreases work.readLimit - k
  {
    var seen := Repeat(s, k);
    if k < work.readLimit && work.decide(seen).ReadMore? then Alone(work, s, k + 1) else work.decide(seen)
  }

  function Serial<DB, G, W, V>(work: Work<DB, G, W, V>, s: DB): Action<G, W, V> {
    Alone(work, s, 0)
  }

  function SerialState<DB, G, W, V>(e: Engine<DB, G, W>, work: Work<DB, G, W, V>, s: DB): DB {
    match Serial(work, s)
    case Finish(_, guards, writes) =>
      (match e.Commit(guards, writes, s) case Committed(s') => s' case _ => s)
    case _ => s
  }

  // Running the logged units one at a time, in log order, starting from `db`.
  function Replay<DB, G, W, V>(e: Engine<DB, G, W>, works: seq<Work<DB, G, W, V>>, log: seq<nat>, db: DB): DB
    requires forall k :: 0 <= k < |log| ==> log[k] < |works|
  {
    if log == [] then db
    else SerialState(e, works[log[|log| - 1]], Replay(e, works, log[..|log| - 1], db))
  }

  // ---- What the guards must be strong enough for -----------------------------------------

  ghost predicate Order<DB(!new)>(later: (DB, DB) -> bool) {
    && (forall s :: later(s, s))
    && (forall r, s, t :: later(r, s) && later(s, t) ==> later(r, t))
  }

  // The snapshots a unit may hold when it commits at `s`.
  ghost predicate Admissible<DB>(inv: DB -> bool, later: (DB, DB) -> bool, seen: seq<DB>, s: DB) {
    inv(s) && forall i :: 0 <= i < |seen| ==> inv(seen[i]) && later(seen[i], s)
  }

  // The buffer built from `seen` goes through at `s` and leads to `s'`.
  ghost predicate CommitsTo<DB, G, W, V>(
    e: Engine<DB, G, W>, work: Work<DB, G, W, V>, seen: seq<DB>, s: DB, s': DB)
  {
    var action := work.decide(seen);
    && action.Finish? && action.guards != [] && action.writes != []
    && e.Commit(action.guards, action.writes, s) == Committed(s')
  }

  // Every batch this unit can commit keeps the invariant and moves forward.
  ghost predicate Preserves<DB(!new), G, W, V>(
    e: Engine<DB, G, W>, inv: DB -> bool, later: (DB, DB) -> bool, work: Work<DB, G, W, V>)
  {
    forall seen, s, s' :: Admissible(inv, later, seen, s) && CommitsTo(e, work, seen, s, s') ==>
      inv(s') && later(s, s')
  }

  // Guard-determined: guards true at the commit state mean that running the unit there, alone,
  // would commit the same change (and, for `values`, return the same value).
  ghost predicate Determined<DB(!new), G, W, V>(
    e: Engine<DB, G, W>, inv: DB -> bool, later: (DB, DB) -> bool, work: Work<DB, G, W, V>, values: bool)
  {
    forall seen, s, s' :: Admissible(inv, later, seen, s) && CommitsTo(e, work, seen, s, s') ==>
      var alone := Serial(work, s);
      && alone.Finish? && e.Commit(alone.guards, alone.writes, s) == Committed(s')
      && (values ==> alone.value == work.decide(seen).value)
  }

  // ---- Every reachable state -------------------------------------------------------------

  ghost predicate Sound<DB(!new), G, W, V>(
    inv: DB -> bool, later: (DB, DB) -> bool, works: seq<Work<DB, G, W, V>>, db: DB, y: System<DB, G, W, V>)
  {
    && inv(y.db) && later(db, y.db) && |y.clients| == |works|
    && (forall i :: 0 <= i < |works| ==>
          && y.clients[i].work == works[i]
          && Admissible(inv, later, y.clients[i].seen, y.db))
  }

  lemma StepSound<DB(!new), G, W, V>(
    e: Engine<DB, G, W>, inv: DB -> bool, later: (DB, DB) -> bool, works: seq<Work<DB, G, W, V>>, db: DB,
    y: System<DB, G, W, V>, i: nat)
    requires Order(later) && Sound(inv, later, works, db, y)
    requires forall k :: 0 <= k < |works| ==> Preserves(e, inv, later, works[k])
    ensures Sound(inv, later, works, db, Step(e, y, i)) && later(y.db, Step(e, y, i).db)
  {
    if i < |y.clients| {
      var c, m := y.clients[i], StepClient(e, y.db, y.clients[i]);
      if m.committed {
        assert CommitsTo(e, works[i], c.seen, y.db, m.db);
      }
      assert inv(m.db) && later(y.db, m.db);
      assert Admissible(inv, later, m.client.seen, m.db);
    }
  }

  // Safety over whole runs: an invariant that every unit's batch keeps holds in every state that
  // any interleaving reaches, and every state is `later` than the ones before it.
  lemma {:induction false} RunSound<DB(!new), G, W, V>(
    e: Engine<DB, G, W>, inv: DB -> bool, later: (DB, DB) -> bool, works: seq<Work<DB, G, W, V>>, db: DB,
    maximumAttempts: nat, schedule: seq<nat>)
    requires Order(later) && inv(db)
    requires forall k :: 0 <= k < |works| ==> Preserves(e, inv, later, works[k])
    ensures Sound(inv, later, works, db, Run(e, Begin(db, works, maximumAttempts), schedule))
    decreases |schedule|
  {
    if schedule != [] {
      var n := |schedule| - 1;
      RunSound(e, inv, later, works, db, maximumAttempts, schedule[..n]);
      StepSound(e, inv, later, works, db, Run(e, Begin(db, works, maximumAttempts), schedule[..n]), schedule[n]);
    }
  }

  // Time only moves forward: continuing a run reaches `later` states.
  lemma {:induction false} RunMonotone<DB(!new), G, W, V>(
    e: Engine<DB, G, W>, inv: DB -> bool, later: (DB, DB) -> bool, works: seq<Work<DB, G, W, V>>, db: DB,
    maximumAttempts: nat, schedule: seq<nat>, more: seq<nat>)
    requires Order(later) && inv(db)
    requires forall k :: 0 <= k < |works| ==> Preserves(e, inv, later, works[k])
    ensures var y := Begin(db, works, maximumAttempts);
            later(Run(e, y, schedule).db, Run(e, y, schedule + more).db)
    decreases |more|
  {
    var y := Begin(db, works, maximumAttempts);
    if more == [] {
      assert schedule + more == schedule;
    } else {
      var n := |more| - 1;
      var last := schedule + more;
      assert last[..|last| - 1] == schedule + more[..n] && last[|last| - 1] == more[n];
      RunMonotone(e, inv, later, works, db, maximumAttempts, schedule, more[..n]);
      RunSound(e, inv, later, works, db, maximumAttempts, schedule + more[..n]);
      StepSound(e, inv, later, works, db, Run(e, y, schedule + more[..n]), more[n]);
    }
  }

  // ---- One session among others: the imperative loop meets the interleavings -------------

  // What a session relies on: the others start from a sound state and keep the invariant.
  ghost predicate Rely<DB(!new)>(
    inv: DB -> bool, later: (DB, DB) -> bool, journal: seq<Entry<DB>>, from: nat, start: DB)
  {
    && inv(start) && Linked(journal) && from <= |journal|
    && (|journal| > from ==> journal[from].before == start)
    && (forall k :: from <= k < |journal| && !journal[k].own ==>
          inv(journal[k].after) && later(journal[k].before, journal[k].after))
  }

  function StateAfter<DB>(journal: seq<Entry<DB>>, from: nat, start: DB, n: nat): DB
    requires from <= n <= |journal|
  {
    if n == from then start else journal[n - 1].after
  }

  lemma {:induction false} VisitedIsEarlier<DB(!new)>(
    inv: DB -> bool, later: (DB, DB) -> bool, journal: seq<Entry<DB>>, from: nat, start: DB, n: nat, r: DB)
    requires Order(later) && Rely(inv, later, journal, from, start) && from <= n <= |journal|
    requires OthersOnly(journal[..n], from) && Visited(journal[..n], from, start, r)
    ensures inv(StateAfter(journal, from, start, n)) && inv(r) && later(r, StateAfter(journal, from, start, n))
  {
    if n > from {
      assert !journal[..n][n - 1].own;
      assert forall k :: from <= k < n - 1 ==> !journal[..n][k].own;
      assert journal[n - 1].before == StateAfter(journal, from, start, n - 1);
      if r == journal[n - 1].after {
        VisitedIsEarlier(inv, later, journal, from, start, n - 1, start);
      } else {
        if r != start {
          var k :| from <= k < n && journal[..n][k].after == r;
          assert journal[..n - 1][k].after == r;
        }
        VisitedIsEarlier(inv, later, journal, from, start, n - 1, r);
      }
    }
  }

  // A session that runs beside lawful ones commits from admissible snapshots, so everything proved
  // about `CommitsTo` -- and about interleavings -- holds of runD1BufferedUnitOfWork.
  lemma SessionCommitsFromAdmissibleReads<DB(!new), G, W, V>(
    e: Engine<DB, G, W>, inv: DB -> bool, later: (DB, DB) -> bool, work: Work<DB, G, W, V>,
    journal: seq<Entry<DB>>, from: nat, start: DB, seen: seq<DB>)
    requires Order(later) && Rely(inv, later, journal, from, start) && CommittedLast(e, work, journal, from, start, seen)
    ensures var last := journal[|journal| - 1];
            Admissible(inv, later, seen, last.before) && CommitsTo(e, work, seen, last.before, last.after)
  {
    var n := |journal| - 1;
    assert journal[n].before == StateAfter(journal, from, start, n);
    VisitedIsEarlier(inv, later, journal, from, start, n, start);
    forall i | 0 <= i < |seen| ensures inv(seen[i]) && later(seen[i], journal[n].before) {
      VisitedIsEarlier(inv, later, journal, from, start, n, seen[i]);
    }
  }

  // ---- One client's tries ------------------------------------------------------------------

  // What a client has come to: refused tries and the reads of the next one, or an outcome that its
  // tries settle as they settle that of a session.
  ghost predicate Accounts<DB, G, W, V>(
    e: Engine<DB, G, W>, work: Work<DB, G, W, V>, maximumAttempts: nat, tries: seq<Try<DB>>, c: Client<DB, G, W, V>)
  {
    && c.work == work && c.maximumAttempts == maximumAttempts
    && (forall k :: 0 <= k < |tries| ==> ReadsItsFill(work, tries[k].seen))
    && if c.outcome.Pending? then
         && |tries| == c.attempt - 1 < maximumAttempts && AllRefused(e, work, tries)
         && forall j :: 0 <= j < |c.seen| ==> work.WantsRead(c.seen[..j])
       else Settles(e, work, tries, maximumAttempts, c.outcome)
  }

  lemma MoveAccounts<DB, G, W, V>(
    e: Engine<DB, G, W>, work: Work<DB, G, W, V>, maximumAttempts: nat, tries: seq<Try<DB>>, s: DB, c: Client<DB, G, W, V>)
    requires maximumAttempts >= 1 && Accounts(e, work, maximumAttempts, tries, c)
    ensures var t, c' := Try(c.seen, s), StepClient(e, s, c).client;
            Accounts(e, work, maximumAttempts,
                     if c.outcome.Pending? && !work.WantsRead(c.seen) then tries + [t] else tries, c')
  {
    var t, c' := Try(c.seen, s), StepClient(e, s, c).client;
    if c.outcome.Pending? {
      if work.WantsRead(c.seen) {
        assert c'.seen[..|c.seen|] == c.seen;
        assert forall j :: 0 <= j < |c.seen| ==> c'.seen[..j] == c.seen[..j];
      } else {
        TryDecides(e, work, tries, t, maximumAttempts);
        TryIsOneOrOther(e, work, t);
        if work.decide(c.seen).Finish? { TryVerdict(e, work, t); }
        var more := tries + [t];
        assert forall k :: 0 <= k < |tries| ==> more[k] == tries[k];
        assert ReadsItsFill(work, c.seen) && more[|tries|].seen == c.seen;
        hide Settles, ReadsItsFill, Refused, GoesThrough;
      }
    }
  }

  // The steps of a run that made a client's try: its looks at the tables, in order, and the one that submitted it.
  datatype Steps = Steps(looks: seq<nat>, at: nat)

  // The snapshots are what the client's own steps `looks` saw, one after the other from `from` on.
  ghost predicate SeenAt<DB, G, W, V>(
    e: Engine<DB, G, W>, begin: System<DB, G, W, V>, schedule: seq<nat>, i: nat, seen: seq<DB>, looks: seq<nat>, from: nat,
    until: nat)
  {
    && |looks| == |seen| && until <= |schedule|
    && (forall j :: 0 <= j < |looks| ==>
          from <= looks[j] < until && schedule[looks[j]] == i && Run(e, begin, schedule[..looks[j]]).db == seen[j])
    && (forall j, k :: 0 <= j < k < |looks| ==> looks[j] < looks[k])
  }

  function Since(steps: seq<Steps>, k: nat): nat
    requires k <= |steps|
  {
    if k == 0 then 0 else steps[k - 1].at + 1
  }

  // Each try was read after the one before it was refused, and submitted on the tables of its moment.
  ghost predicate SubmittedAt<DB, G, W, V>(
    e: Engine<DB, G, W>, begin: System<DB, G, W, V>, schedule: seq<nat>, i: nat, tries: seq<Try<DB>>, steps: seq<Steps>)
  {
    |steps| == |tries|
    && forall k :: 0 <= k < |steps| ==> TryMadeAt(e, begin, schedule, i, tries[k], steps[k], Since(steps, k))
  }

  ghost predicate TryMadeAt<DB, G, W, V>(
    e: Engine<DB, G, W>, begin: System<DB, G, W, V>, schedule: seq<nat>, i: nat, t: Try<DB>, step: Steps, from: nat)
  {
    && from <= step.at < |schedule| && schedule[step.at] == i && Run(e, begin, schedule[..step.at]).db == t.at
    && SeenAt(e, begin, schedule, i, t.seen, step.looks, from, step.at)
  }

  lemma LooksStand<DB, G, W, V>(
    e: Engine<DB, G, W>, begin: System<DB, G, W, V>, schedule: seq<nat>, i: nat, seen: seq<DB>, looks: seq<nat>, from: nat,
    until: nat, until': nat)
    requires schedule != [] && SeenAt(e, begin, schedule[..|schedule| - 1], i, seen, looks, from, until)
    requires until <= until' <= |schedule|
    ensures SeenAt(e, begin, schedule, i, seen, looks, from, until')
  {
    hide Run;
    forall j | 0 <= j < |looks| ensures schedule[..|schedule| - 1][..looks[j]] == schedule[..looks[j]] {}
  }

  lemma OneMoreRead<DB, G, W, V>(
    e: Engine<DB, G, W>, begin: System<DB, G, W, V>, schedule: seq<nat>, i: nat, seen: seq<DB>, looks: seq<nat>, from: nat)
    requires schedule != [] && schedule[|schedule| - 1] == i && from <= |schedule| - 1
    requires SeenAt(e, begin, schedule[..|schedule| - 1], i, seen, looks, from, |schedule| - 1)
    ensures SeenAt(e, begin, schedule, i, seen + [Run(e, begin, schedule[..|schedule| - 1]).db], looks + [|schedule| - 1],
                   from, |schedule|)
  {
    LooksStand(e, begin, schedule, i, seen, looks, from, |schedule| - 1, |schedule| - 1);
    hide Run;
  }

  lemma TriesStand<DB, G, W, V>(
    e: Engine<DB, G, W>, begin: System<DB, G, W, V>, schedule: seq<nat>, i: nat, tries: seq<Try<DB>>, steps: seq<Steps>)
    requires schedule != [] && SubmittedAt(e, begin, schedule[..|schedule| - 1], i, tries, steps)
    ensures SubmittedAt(e, begin, schedule, i, tries, steps) && Since(steps, |steps|) < |schedule|
  {
    hide Run, SeenAt;
    var n := |schedule| - 1;
    forall k | 0 <= k < |steps|
      ensures TryMadeAt(e, begin, schedule, i, tries[k], steps[k], Since(steps, k)) && steps[k].at < n
    {
      assert TryMadeAt(e, begin, schedule[..n], i, tries[k], steps[k], Since(steps, k));
      assert schedule[..n][..steps[k].at] == schedule[..steps[k].at];
      LooksStand(e, begin, schedule, i, tries[k].seen, steps[k].looks, Since(steps, k), steps[k].at, steps[k].at);
    }
  }

  lemma OneMoreTry<DB, G, W, V>(
    e: Engine<DB, G, W>, begin: System<DB, G, W, V>, schedule: seq<nat>, i: nat, tries: seq<Try<DB>>, steps: seq<Steps>,
    t: Try<DB>, looks: seq<nat>)
    requires schedule != [] && schedule[|schedule| - 1] == i && t.at == Run(e, begin, schedule[..|schedule| - 1]).db
    requires SubmittedAt(e, begin, schedule, i, tries, steps) && Since(steps, |steps|) < |schedule|
    requires SeenAt(e, begin, schedule[..|schedule| - 1], i, t.seen, looks, Since(steps, |steps|), |schedule| - 1)
    ensures SubmittedAt(e, begin, schedule, i, tries + [t], steps + [Steps(looks, |schedule| - 1)])
  {
    hide Run, SeenAt, TryMadeAt, Since;
    var n, step, from := |schedule| - 1, Steps(looks, |schedule| - 1), Since(steps, |steps|);
    NewestTry(e, begin, schedule, i, t, looks, from);
    var more, all := steps + [step], tries + [t];
    forall k | 0 <= k < |more| ensures TryMadeAt(e, begin, schedule, i, all[k], more[k], Since(more, k)) {
      SinceThen(steps, step, k);
      if k < |steps| { assert more[k] == steps[k] && all[k] == tries[k]; }
    }
  }

  lemma SinceThen(steps: seq<Steps>, step: Steps, k: nat)
    requires k <= |steps|
    ensures Since(steps + [step], k) == Since(steps, k)
  {
  }

  lemma NewestTry<DB, G, W, V>(
    e: Engine<DB, G, W>, begin: System<DB, G, W, V>, schedule: seq<nat>, i: nat, t: Try<DB>, looks: seq<nat>, from: nat)
    requires schedule != [] && schedule[|schedule| - 1] == i && t.at == Run(e, begin, schedule[..|schedule| - 1]).db
    requires from < |schedule| && SeenAt(e, begin, schedule[..|schedule| - 1], i, t.seen, looks, from, |schedule| - 1)
    ensures TryMadeAt(e, begin, schedule, i, t, Steps(looks, |schedule| - 1), from)
  {
    hide Run, SeenAt;
    LooksStand(e, begin, schedule, i, t.seen, looks, from, |schedule| - 1, |schedule| - 1);
  }

  // In every run each client tries again after a refusal, and only then, as often as it may; every try
  // reads anew, after the refusal of the one before it.
  lemma {:induction false} ClientsTryAgain<DB, G, W, V>(
    e: Engine<DB, G, W>, works: seq<Work<DB, G, W, V>>, db: DB, maximumAttempts: nat, schedule: seq<nat>, i: nat)
    returns (tries: seq<Try<DB>>, steps: seq<Steps>, looks: seq<nat>)
    requires i < |works| && maximumAttempts >= 1
    ensures var begin := Begin(db, works, maximumAttempts);
            var y := Run(e, begin, schedule);
            && |y.clients| == |works| && Accounts(e, works[i], maximumAttempts, tries, y.clients[i])
            && SubmittedAt(e, begin, schedule, i, tries, steps)
            && (y.clients[i].outcome.Pending? ==>
                  SeenAt(e, begin, schedule, i, y.clients[i].seen, looks, Since(steps, |steps|), |schedule|))
    decreases |schedule|
  {
    tries, steps, looks := [], [], [];
    if schedule != [] {
      var n, begin := |schedule| - 1, Begin(db, works, maximumAttempts);
      tries, steps, looks := ClientsTryAgain(e, works, db, maximumAttempts, schedule[..n], i);
      hide Accounts, SubmittedAt, SeenAt, StepClient, Since;
      var y := Run(e, begin, schedule[..n]);
      var c := y.clients[i];
      TriesStand(e, begin, schedule, i, tries, steps);
      if schedule[n] == i {
        MoveAccounts(e, works[i], maximumAttempts, tries, y.db, c);
        if c.outcome.Pending? { assert Accounts(e, works[i], maximumAttempts, tries, c); }
        NextMove(e, y.db, c, works[i]);
        if c.outcome.Pending? && works[i].WantsRead(c.seen) {
          OneMoreRead(e, begin, schedule, i, c.seen, looks, Since(steps, |steps|));
          looks := looks + [n];
        } else if c.outcome.Pending? {
          OneMoreTry(e, begin, schedule, i, tries, steps, Try(c.seen, y.db), looks);
          tries, steps, looks := tries + [Try(c.seen, y.db)], steps + [Steps(looks, n)], [];
          NothingRead(e, begin, schedule, i, steps);
        }
      } else if c.outcome.Pending? {
        LooksStand(e, begin, schedule, i, c.seen, looks, Since(steps, |steps|), n, |schedule|);
      }
    }
  }

  lemma NothingRead<DB, G, W, V>(e: Engine<DB, G, W>, begin: System<DB, G, W, V>, schedule: seq<nat>, i: nat, steps: seq<Steps>)
    ensures SeenAt(e, begin, schedule, i, [], [], Since(steps, |steps|), |schedule|)
  {
  }

  // What a client holds after one move of its own.
  lemma NextMove<DB, G, W, V>(e: Engine<DB, G, W>, s: DB, c: Client<DB, G, W, V>, work: Work<DB, G, W, V>)
    requires c.outcome.Pending? ==> c.work == work
    ensures c.outcome.Pending? && work.WantsRead(c.seen) ==> StepClient(e, s, c).client.seen == c.seen + [s]
    ensures c.outcome.Pending? && !work.WantsRead(c.seen) && StepClient(e, s, c).client.outcome.Pending? ==>
              StepClient(e, s, c).client.seen == []
    ensures !c.outcome.Pending? ==> !StepClient(e, s, c).client.outcome.Pending?
  {
  }

  // ---- Serializability -------------------------------------------------------------------

  // The value client `log[k]` would return if it ran alone after the k commits before it.
  function SerialOutcome<DB, G, W, V>(
    e: Engine<DB, G, W>, works: seq<Work<DB, G, W, V>>, log: seq<nat>, db: DB, k: nat): Outcome<V>
    requires k < |log| && forall j :: 0 <= j < |log| ==> log[j] < |works|
  {
    match Serial(works[log[k]], Replay(e, works, log[..k], db))
    case Finish(v, _, _) => Returned(v)
    case _ => Threw
  }

  ghost predicate SerialSoFar<DB(!new), G, W, V>(
    e: Engine<DB, G, W>, inv: DB -> bool, later: (DB, DB) -> bool, works: seq<Work<DB, G, W, V>>, db: DB,
    y: System<DB, G, W, V>)
  {
    && |y.clients| == |works|
    && (forall k :: 0 <= k < |y.log| ==> y.log[k] < |works| && y.clients[y.log[k]].outcome.Returned?)
    && (forall j, k :: 0 <= j < k < |y.log| ==> y.log[j] != y.log[k])
    && y.db == Replay(e, works, y.log, db)
    && (forall k :: 0 <= k < |y.log| ==> ValueIsSerial(e, inv, later, works, db, y, k))
  }

  ghost predicate ValueIsSerial<DB(!new), G, W, V>(
    e: Engine<DB, G, W>, inv: DB -> bool, later: (DB, DB) -> bool, works: seq<Work<DB, G, W, V>>, db: DB,
    y: System<DB, G, W, V>, k: nat)
    requires k < |y.log| && |y.clients| == |works| && forall j :: 0 <= j < |y.log| ==> y.log[j] < |works|
  {
    Determined(e, inv, later, works[y.log[k]], true) ==>
      y.clients[y.log[k]].outcome == SerialOutcome(e, works, y.log, db, k)
  }

  lemma CommitIsSerial<DB(!new), G, W, V>(
    e: Engine<DB, G, W>, inv: DB -> bool, later: (DB, DB) -> bool, work: Work<DB, G, W, V>,
    seen: seq<DB>, s: DB, s': DB)
    requires Admissible(inv, later, seen, s) && CommitsTo(e, work, seen, s, s')
    requires Determined(e, inv, later, work, false)
    ensures SerialState(e, work, s) == s'
    ensures Determined(e, inv, later, work, true) ==>
              Serial(work, s).Finish? && Serial(work, s).value == work.decide(seen).value
  {
  }

  lemma StepSerial<DB(!new), G, W, V>(
    e: Engine<DB, G, W>, inv: DB -> bool, later: (DB, DB) -> bool, works: seq<Work<DB, G, W, V>>, db: DB,
    y: System<DB, G, W, V>, i: nat)
    requires Sound(inv, later, works, db, y) && SerialSoFar(e, inv, later, works, db, y)
    requires forall k :: 0 <= k < |works| ==> Determined(e, inv, later, works[k], false)
    ensures SerialSoFar(e, inv, later, works, db, Step(e, y, i))
  {
    var y' := Step(e, y, i);
    if i < |y.clients| {
      var m := StepClient(e, y.db, y.clients[i]);
      if m.committed {
        StepCommits(e, inv, later, works, db, y, i);
      } else {
        assert m.db == y.db && y'.log == y.log;
        assert forall k :: 0 <= k < |y.log| ==> y'.clients[y.log[k]] == y.clients[y.log[k]];
        forall k | 0 <= k < |y.log| ensures ValueIsSerial(e, inv, later, works, db, y', k) {
          assert ValueIsSerial(e, inv, later, works, db, y, k);
        }
      }
    }
  }

  lemma StepCommits<DB(!new), G, W, V>(
    e: Engine<DB, G, W>, inv: DB -> bool, later: (DB, DB) -> bool, works: seq<Work<DB, G, W, V>>, db: DB,
    y: System<DB, G, W, V>, i: nat)
    requires Sound(inv, later, works, db, y) && SerialSoFar(e, inv, later, works, db, y)
    requires i < |y.clients| && StepClient(e, y.db, y.clients[i]).committed
    requires Determined(e, inv, later, works[i], false)
    ensures SerialSoFar(e, inv, later, works, db, Step(e, y, i))
  {
    var y', c, m, n := Step(e, y, i), y.clients[i], StepClient(e, y.db, y.clients[i]), |y.log|;
    assert CommitsTo(e, works[i], c.seen, y.db, m.db);
    CommitIsSerial(e, inv, later, works[i], c.seen, y.db, m.db);
    assert y'.log[..n] == y.log && y'.log[n] == i && i !in y.log;
    forall k | 0 <= k <= n ensures ValueIsSerial(e, inv, later, works, db, y', k) {
      assert y'.log[..k] == y.log[..k];
      if k < n {
        assert y.log[k] in y.log;
        assert ValueIsSerial(e, inv, later, works, db, y, k);
      } else {
        assert y.log[..n] == y.log;
      }
    }
  }

  // The main theorem. In every interleaving of guard-determined units the tables equal the serial
  // run of the committed units in commit order, each unit commits at most once, and each
  // value-determined unit returned its serial value. A unit that is not in the log -- because it
  // threw, ran out of attempts or is still running -- contributed nothing.
  lemma {:induction false} Serializable<DB(!new), G, W, V>(
    e: Engine<DB, G, W>, inv: DB -> bool, later: (DB, DB) -> bool, works: seq<Work<DB, G, W, V>>, db: DB,
    maximumAttempts: nat, schedule: seq<nat>)
    requires Order(later) && inv(db)
    requires forall k :: 0 <= k < |works| ==> Preserves(e, inv, later, works[k])
    requires forall k :: 0 <= k < |works| ==> Determined(e, inv, later, works[k], false)
    ensures SerialSoFar(e, inv, later, works, db, Run(e, Begin(db, works, maximumAttempts), schedule))
    decreases |schedule|
  {
    if schedule != [] {
      var n := |schedule| - 1;
      Serializable(e, inv, later, works, db, maximumAttempts, schedule[..n]);
      RunSound(e, inv, later, works, db, maximumAttempts, schedule[..n]);
      StepSerial(e, inv, later, works, db, Run(e, Begin(db, works, maximumAttempts), schedule[..n]), schedule[n]);
    }
  }

  // ---- Units without writes --------------------------------------------------------------

  // A unit whose reads all saw one state decides as it would alone.
  lemma {:induction false} ReadsOfOneStateAreSerial<DB, G, W, V>(work: Work<DB, G, W, V>, s: DB, k: nat, n: nat)
    requires k <= n <= work.readLimit
    requires forall j :: k <= j < n ==> work.decide(Repeat(s, j)).ReadMore?
    requires !work.WantsRead(Repeat(s, n))
    ensures Alone(work, s, k) == work.decide(Repeat(s, n))
    decreases n - k
  {
    if k < n { ReadsOfOneStateAreSerial(work, s, k + 1, n); }
  }

  // The reads a client holds were taken after `at` steps of the run, in reading order.
  ghost predicate ReadAt<DB, G, W, V>(
    e: Engine<DB, G, W>, begin: System<DB, G, W, V>, schedule: seq<nat>, seen: seq<DB>, at: seq<nat>)
  {
    && |at| == |seen|
    && (forall j :: 0 <= j < |at| ==> at[j] <= |schedule| && Run(e, begin, schedule[..at[j]]).db == seen[j])
    && (forall j, k :: 0 <= j < k < |at| ==> at[j] <= at[k])
  }

  // What a client returns is what its reads decide; it is in the log exactly when it wrote.
  ghost predicate AnswersItsReads<DB, G, W, V>(c: Client<DB, G, W, V>, logged: bool) {
    && (forall j :: 0 <= j < |c.seen| ==> c.work.WantsRead(c.seen[..j]))
    && (logged ==> c.outcome.Returned?)
    && (c.outcome.Returned? ==>
          var action := c.work.decide(c.seen);
          && !c.work.WantsRead(c.seen) && action.Finish? && action.value == c.outcome.value
          && (logged <==> action.writes != []))
  }

  lemma {:induction false} ReadsAreVisitedInOrder<DB, G, W, V>(
    e: Engine<DB, G, W>, works: seq<Work<DB, G, W, V>>, db: DB, maximumAttempts: nat, schedule: seq<nat>, i: nat)
    returns (at: seq<nat>)
    requires i < |works|
    ensures var begin := Begin(db, works, maximumAttempts);
            var y := Run(e, begin, schedule);
            && |y.clients| == |works| && y.clients[i].work == works[i]
            && ReadAt(e, begin, schedule, y.clients[i].seen, at) && AnswersItsReads(y.clients[i], i in y.log)
    decreases |schedule|
  {
    at := [];
    if schedule != [] {
      var n, begin := |schedule| - 1, Begin(db, works, maximumAttempts);
      var before := ReadsAreVisitedInOrder(e, works, db, maximumAttempts, schedule[..n], i);
      var y := Run(e, begin, schedule[..n]);
      var seen, seen' := y.clients[i].seen, Run(e, begin, schedule).clients[i].seen;
      forall j | 0 <= j < |before| ensures schedule[..n][..before[j]] == schedule[..before[j]] {}
      assert ReadAt(e, begin, schedule, seen, before);
      if seen' == seen {
        at := before;
      } else if seen' != [] {
        assert seen' == seen + [y.db];
        assert forall j :: 0 <= j <= |seen| ==> seen'[..j] == seen[..j];
        at := before + [n];
      }
    }
  }

  // In every run a unit that reads at most once -- or whose reads happened to see one state -- and
  // returns, returned what it would return alone in a state the run went through: the one it read.
  lemma OneReadIsSerial<DB, G, W, V>(
    e: Engine<DB, G, W>, works: seq<Work<DB, G, W, V>>, db: DB, maximumAttempts: nat, schedule: seq<nat>, i: nat)
    returns (n: nat)
    requires var y := Run(e, Begin(db, works, maximumAttempts), schedule);
             && i < |works| == |y.clients| && y.clients[i].outcome.Returned?
             && var seen := y.clients[i].seen;
                works[i].readLimit <= 1 || forall k :: 0 <= k < |seen| ==> seen[k] == seen[0]
    ensures n <= |schedule|
    ensures var begin := Begin(db, works, maximumAttempts);
            var y, alone := Run(e, begin, schedule), Serial(works[i], Run(e, begin, schedule[..n]).db);
            && alone.Finish? && y.clients[i].outcome == Returned(alone.value)
            && (i in y.log <==> alone.writes != [])
  {
    var begin := Begin(db, works, maximumAttempts);
    var c := Run(e, begin, schedule).clients[i];
    var at := ReadsAreVisitedInOrder(e, works, db, maximumAttempts, schedule, i);
    n := if c.seen == [] then 0 else at[0];
    var s, k := Run(e, begin, schedule[..n]).db, |c.seen|;
    assert k > 0 ==> works[i].WantsRead(c.seen[..k - 1]);
    assert c.seen == Repeat(s, k);
    assert forall j :: 0 <= j < k ==> c.seen[..j] == Repeat(s, j);
    ReadsOfOneStateAreSerial(works[i], s, 0, k);
  }

  lemma {:induction false} LogGrows<DB, G, W, V>(
    e: Engine<DB, G, W>, begin: System<DB, G, W, V>, schedule: seq<nat>, n: nat)
    requires n <= |schedule|
    ensures Run(e, begin, schedule[..n]).log <= Run(e, begin, schedule).log
    decreases |schedule|
  {
    if n == |schedule| {
      assert schedule[..n] == schedule;
    } else {
      var last := |schedule| - 1;
      LogGrows(e, begin, schedule[..last], n);
      assert schedule[..last][..n] == schedule[..n];
    }
  }

  lemma UnloggedStepsAreQuiet<DB, G, W, V>(e: Engine<DB, G, W>, y: System<DB, G, W, V>, i: nat)
    ensures i in Step(e, y, i).log || Step(e, y, i).db == y.db
  {
    if i < |y.clients| && StepClient(e, y.db, y.clients[i]).committed {
      assert Step(e, y, i).log[|y.log|] == i;
    }
  }

  // A unit that threw, ran out of attempts or is still running is in no serial history, and not one
  // of its steps changed the tables.
  lemma UnsuccessfulUnitsChangeNothing<DB, G, W, V>(
    e: Engine<DB, G, W>, works: seq<Work<DB, G, W, V>>, db: DB, maximumAttempts: nat, schedule: seq<nat>, i: nat)
    requires var y := Run(e, Begin(db, works, maximumAttempts), schedule);
             i < |works| == |y.clients| && !y.clients[i].outcome.Returned?
    ensures var begin := Begin(db, works, maximumAttempts);
            && i !in Run(e, begin, schedule).log
            && forall n :: 0 <= n < |schedule| && schedule[n] == i ==>
                 Run(e, begin, schedule[..n + 1]).db == Run(e, begin, schedule[..n]).db
  {
    var begin := Begin(db, works, maximumAttempts);
    var at := ReadsAreVisitedInOrder(e, works, db, maximumAttempts, schedule, i);
    forall n | 0 <= n < |schedule| && schedule[n] == i
      ensures Run(e, begin, schedule[..n + 1]).db == Run(e, begin, schedule[..n]).db
    {
      assert schedule[..n + 1][..n] == schedule[..n];
      LogGrows(e, begin, schedule, n + 1);
      UnloggedStepsAreQuiet(e, Run(e, begin, schedule[..n]), i);
    }
  }
}
