// Model of apps/cloudflare-worker/src/d1-effect-unit-of-work.ts with the work that
// packages/application/src/operations/effect-executor.ts runs in it: find the receipt of an
// operation identity, or apply the domain contribution and insert that receipt, in one batch.
module OperationBoundary {
  import opened Wrappers
  import opened AtomicBatch
  import opened Serializability

  // The eight columns that name an operation invocation, as one key.
  type Identity = string
  type ReceiptId = string

  datatype Receipt = Receipt(id: ReceiptId, identity: Identity, requestHash: string, result: string)

  // The log in insertion order. Its primary key is enforced; nothing below relies on a unique index
  // over the identity.
  datatype Db<S> = Db(log: seq<Receipt>, domain: S)

  datatype Guard<!S> = ReceiptAbsent(identity: Identity) | DomainHolds(holds: S -> bool)
  datatype Write<!S> = InsertLog(receipt: Receipt) | DomainChange(change: S -> Option<S>)

  predicate Logged(log: seq<Receipt>, identity: Identity) {
    exists i :: 0 <= i < |log| && log[i].identity == identity
  }

  predicate IdTaken(log: seq<Receipt>, id: ReceiptId) {
    exists i :: 0 <= i < |log| && log[i].id == id
  }

  function Find(log: seq<Receipt>, identity: Identity): (found: Option<Receipt>)
    ensures found.Some? <==> Logged(log, identity)
    ensures found.Some? ==> found.value in log && found.value.identity == identity
  {
    if log == [] then None
    else if log[0].identity == identity then Some(log[0])
    else
      var rest := Find(log[1..], identity);
      assert Logged(log[1..], identity) ==> Logged(log, identity) by {
        if Logged(log[1..], identity) {
          var i :| 0 <= i < |log[1..]| && log[1..][i].identity == identity;
          assert log[i + 1].identity == identity;
        }
      }
      assert Logged(log, identity) ==> Logged(log[1..], identity) by {
        if Logged(log, identity) {
          var i :| 0 <= i < |log| && log[i].identity == identity;
          assert log[1..][i - 1].identity == identity;
        }
      }
      rest
  }

  predicate Holds<S>(g: Guard<S>, s: Db<S>) {
    match g
    case ReceiptAbsent(identity) => !Logged(s.log, identity)
    case DomainHolds(holds) => holds(s.domain)
  }

  function Apply<S>(w: Write<S>, s: Db<S>): Option<Db<S>> {
    match w
    case InsertLog(receipt) => if IdTaken(s.log, receipt.id) then None else Some(s.(log := s.log + [receipt]))
    case DomainChange(change) =>
      match change(s.domain) case None => None case Some(d) => Some(s.(domain := d))
  }

  function Boundary<S>(): Engine<Db<S>, Guard<S>, Write<S>> {
    Engine((g: Guard<S>, s: Db<S>) => Holds(g, s), (w: Write<S>, s: Db<S>) => Apply(w, s))
  }

  // What a handler decides from the snapshot its domain adapter opened.
  datatype Plan<!S> =
    | Proceed(result: string, guards: seq<S -> bool>, changes: seq<S -> Option<S>>)
    | Nonterminal(outcome: string)
    | Invalid

  // What the autonomy preflight says of an invocation that has no receipt yet: go on, an outcome to
  // give instead, or a failure.
  datatype Preflight = Clear | Held(outcome: string) | Unfit

  // One invocation: its identity and request, the authority recheck, the preflight evaluated at that
  // recheck's instant, and the handler. The tables carry the time.
  datatype Operation<!S> =
    Operation(identity: Identity, requestHash: string, receiptId: ReceiptId, denied: S -> bool,
              preflight: S -> Preflight, plan: S -> Plan<S>)

  datatype Answer =
    | Success(receipt: ReceiptId, result: string)
    | RequestChanged
    | Outcome(outcome: string)
    | Denied

  function DomainGuards<S>(guards: seq<S -> bool>): seq<Guard<S>> {
    seq(|guards|, i requires 0 <= i < |guards| => DomainHolds(guards[i]))
  }

  function DomainChanges<S>(changes: seq<S -> Option<S>>): seq<Write<S>> {
    seq(|changes|, i requires 0 <= i < |changes| => DomainChange(changes[i]))
  }

  function ReceiptOf<S>(op: Operation<S>, result: string): Receipt {
    Receipt(op.receiptId, op.identity, op.requestHash, result)
  }

  function Replay<S>(op: Operation<S>, receipt: Receipt): Answer {
    if receipt.requestHash == op.requestHash then Success(receipt.id, receipt.result) else RequestChanged
  }

  type BoundaryAction<!S> = Action<Guard<S>, Write<S>, Answer>

  function DecideFresh<S>(op: Operation<S>, domain: S): BoundaryAction<S> {
    match op.plan(domain)
    case Invalid => Fail
    case Nonterminal(outcome) => Finish(Outcome(outcome), [ReceiptAbsent(op.identity)], [])
    case Proceed(result, guards, changes) =>
      Finish(Success(op.receiptId, result), [ReceiptAbsent(op.identity)] + DomainGuards(guards),
             DomainChanges(changes) + [InsertLog(ReceiptOf(op, result))])
  }

  // The receipt is looked up first; the domain snapshot is a later read.
  function Decide<S>(op: Operation<S>, seen: seq<Db<S>>): BoundaryAction<S> {
    if seen == [] then ReadMore
    else if op.denied(seen[0].domain) then Finish(Denied, [], [])
    else
      match Find(seen[0].log, op.identity)
      case Some(receipt) => Finish(Replay(op, receipt), [], [])
      case None =>
        match op.preflight(seen[0].domain)
        case Unfit => Fail
        case Held(outcome) => Finish(Outcome(outcome), [ReceiptAbsent(op.identity)], [])
        case Clear => if |seen| == 1 then ReadMore else DecideFresh(op, seen[1].domain)
  }

  // The first read settles nothing and a domain adapter opens its snapshot.
  predicate Opens<S>(op: Operation<S>, s: Db<S>) {
    !op.denied(s.domain) && !Logged(s.log, op.identity) && op.preflight(s.domain).Clear?
  }

  function WorkOf<S>(op: Operation<S>): Work<Db<S>, Guard<S>, Write<S>, Answer> {
    Work(2, (seen: seq<Db<S>>) => Decide(op, seen))
  }

  function WorksOf<S>(ops: seq<Operation<S>>): seq<Work<Db<S>, Guard<S>, Write<S>, Answer>> {
    seq(|ops|, i requires 0 <= i < |ops| => WorkOf(ops[i]))
  }

  // ---- Exactly once ----------------------------------------------------------------------

  ghost predicate OneRowPerIdentity<S>(s: Db<S>) {
    forall i, j :: 0 <= i < j < |s.log| ==> s.log[i].identity != s.log[j].identity
  }

  ghost predicate LogGrows<S>(r: Db<S>, s: Db<S>) {
    r.log <= s.log
  }

  // A contribution: its changes one after the other, each once.
  function Contributed<S>(changes: seq<S -> Option<S>>, domain: S): Option<S> {
    if changes == [] then Some(domain)
    else
      match changes[0](domain)
      case None => None
      case Some(next) => Contributed(changes[1..], next)
  }

  lemma {:induction false} ChangesContribute<S>(changes: seq<S -> Option<S>>, s: Db<S>)
    ensures Boundary<S>().ApplyAll(DomainChanges(changes), s) ==
            match Contributed(changes, s.domain) case None => None case Some(d) => Some(s.(domain := d))
  {
    if changes != [] {
      assert DomainChanges(changes)[1..] == DomainChanges(changes[1..]);
      match Apply(DomainChange(changes[0]), s)
      case None =>
      case Some(t) => ChangesContribute(changes[1..], t);
    }
  }

  // A batch of an invocation applies its plan's contribution once and appends exactly its own
  // receipt, for an identity that had none.
  lemma InvocationCommits<S>(op: Operation<S>, seen: seq<Db<S>>, s: Db<S>, s': Db<S>)
    requires CommitsTo(Boundary(), WorkOf(op), seen, s, s')
    ensures |seen| >= 2 && !Logged(seen[0].log, op.identity) && op.plan(seen[1].domain).Proceed?
    ensures var result := op.plan(seen[1].domain).result;
            && WorkOf(op).decide(seen) == DecideFresh(op, seen[1].domain)
            && WorkOf(op).decide(seen).value == Success(op.receiptId, result)
            && s'.log == s.log + [Receipt(op.receiptId, op.identity, op.requestHash, result)]
    ensures Contributed(op.plan(seen[1].domain).changes, s.domain) == Some(s'.domain)
    ensures !Logged(s.log, op.identity) && !IdTaken(s.log, op.receiptId)
  {
    var action := DecideFresh(op, seen[1].domain);
    assert WorkOf(op).decide(seen) == action;
    assert Boundary<S>().holds(action.guards[0], s);
    var plan := op.plan(seen[1].domain);
    var last := InsertLog(ReceiptOf(op, plan.result));
    ApplyAllAppend(Boundary(), DomainChanges(plan.changes), [last], s);
    ChangesContribute(plan.changes, s);
    ApplyOne(Boundary(), last, Boundary<S>().ApplyAll(DomainChanges(plan.changes), s).value);
  }

  lemma InvocationKeepsTheLog<S(!new)>(op: Operation<S>)
    ensures Preserves(Boundary(), OneRowPerIdentity, LogGrows, WorkOf(op))
  {
    forall seen: seq<Db<S>>, s: Db<S>, s': Db<S>
      | Admissible(OneRowPerIdentity, LogGrows, seen, s) && CommitsTo(Boundary(), WorkOf(op), seen, s, s')
      ensures OneRowPerIdentity(s') && LogGrows(s, s')
    {
      InvocationCommits(op, seen, s, s');
    }
  }

  // What has happened so far: the log is the initial one followed by one row per committed
  // invocation, in commit order; an invocation that succeeded names the row of its identity.
  ghost predicate ExactlyOnce<S(!new)>(ops: seq<Operation<S>>, db: Db<S>, y: System<Db<S>, Guard<S>, Write<S>, Answer>) {
    && |y.clients| == |ops|
    && |y.db.log| == |db.log| + |y.log| && db.log <= y.db.log
    && (forall k :: 0 <= k < |y.log| ==>
          && y.log[k] < |ops|
          && var op, row := ops[y.log[k]], y.db.log[|db.log| + k];
          && row.id == op.receiptId && row.identity == op.identity && row.requestHash == op.requestHash
          && y.clients[y.log[k]].outcome == Returned(Success(row.id, row.result)))
    && (forall i :: 0 <= i < |ops| ==> AnsweredByRow(ops[i], y.db.log, y.clients[i].outcome))
  }

  // A success names the one row of its identity, and carries that row's result.
  ghost predicate AnsweredByRow<S>(op: Operation<S>, log: seq<Receipt>, outcome: AtomicBatch.Outcome<Answer>) {
    outcome.Returned? && outcome.value.Success? ==>
      exists j :: 0 <= j < |log| && log[j] == Receipt(outcome.value.receipt, op.identity, op.requestHash, outcome.value.result)
  }

  lemma AnswerStays<S>(op: Operation<S>, log: seq<Receipt>, more: seq<Receipt>, outcome: AtomicBatch.Outcome<Answer>)
    requires AnsweredByRow(op, log, outcome) && log <= more
    ensures AnsweredByRow(op, more, outcome)
  {
    if outcome.Returned? && outcome.value.Success? {
      var j :| 0 <= j < |log| && log[j] == Receipt(outcome.value.receipt, op.identity, op.requestHash, outcome.value.result);
      assert more[j] == log[j];
    }
  }

  lemma StepAnswers<S(!new)>(op: Operation<S>, s: Db<S>, c: Client<Db<S>, Guard<S>, Write<S>, Answer>)
    requires c.work == WorkOf(op) && (forall i :: 0 <= i < |c.seen| ==> LogGrows(c.seen[i], s))
    requires AnsweredByRow(op, s.log, c.outcome)
    ensures var m := StepClient(Boundary(), s, c);
            && AnsweredByRow(op, m.db.log, m.client.outcome)
            && (!m.committed ==> m.db == s && (c.outcome.Returned? ==> m.client.outcome == c.outcome))
            && (m.committed ==>
                  && !c.outcome.Returned? && m.client.outcome.Returned? && m.client.outcome.value.Success?
                  && m.db.log == s.log + [Receipt(op.receiptId, op.identity, op.requestHash, m.client.outcome.value.result)]
                  && m.client.outcome.value.receipt == op.receiptId)
  {
    var m := StepClient(Boundary(), s, c);
    if m.committed {
      assert CommitsTo(Boundary(), WorkOf(op), c.seen, s, m.db);
      InvocationCommits(op, c.seen, s, m.db);
      assert m.db.log[|s.log|] == ReceiptOf(op, m.client.outcome.value.result);
    } else if m.client.outcome != c.outcome && m.client.outcome.Returned? && m.client.outcome.value.Success? {
      var receipt := Find(c.seen[0].log, op.identity).value;
      var j :| 0 <= j < |c.seen[0].log| && c.seen[0].log[j] == receipt;
      assert s.log[j] == receipt;
    }
  }

  lemma StepExactlyOnce<S(!new)>(
    ops: seq<Operation<S>>, db: Db<S>, y: System<Db<S>, Guard<S>, Write<S>, Answer>, i: nat)
    requires Sound(OneRowPerIdentity, LogGrows, WorksOf(ops), db, y) && ExactlyOnce(ops, db, y)
    ensures ExactlyOnce(ops, db, Step(Boundary(), y, i))
  {
    if i < |y.clients| {
      var m, y' := StepClient(Boundary(), y.db, y.clients[i]), Step(Boundary(), y, i);
      assert WorksOf(ops)[i] == WorkOf(ops[i]);
      StepAnswers(ops[i], y.db, y.clients[i]);
      forall k | 0 <= k < |ops| ensures AnsweredByRow(ops[k], y'.db.log, y'.clients[k].outcome) {
        if k != i { AnswerStays(ops[k], y.db.log, y'.db.log, y.clients[k].outcome); }
      }
    }
  }

  // Over every interleaving of concurrent, retried and repeated invocations.
  lemma {:induction false} EveryRunIsExactlyOnce<S(!new)>(
    ops: seq<Operation<S>>, db: Db<S>, maximumAttempts: nat, schedule: seq<nat>)
    requires OneRowPerIdentity(db)
    ensures var y := Run(Boundary(), Begin(db, WorksOf(ops), maximumAttempts), schedule);
            OneRowPerIdentity(y.db) && ExactlyOnce(ops, db, y)
    decreases |schedule|
  {
    var begin := Begin(db, WorksOf(ops), maximumAttempts);
    forall k | 0 <= k < |ops| ensures Preserves(Boundary(), OneRowPerIdentity, LogGrows, WorksOf(ops)[k]) {
      InvocationKeepsTheLog(ops[k]);
    }
    RunSound(Boundary(), OneRowPerIdentity, LogGrows, WorksOf(ops), db, maximumAttempts, schedule);
    if schedule != [] {
      var n := |schedule| - 1;
      EveryRunIsExactlyOnce(ops, db, maximumAttempts, schedule[..n]);
      RunSound(Boundary(), OneRowPerIdentity, LogGrows, WorksOf(ops), db, maximumAttempts, schedule[..n]);
      StepExactlyOnce(ops, db, Run(Boundary(), begin, schedule[..n]), schedule[n]);
    }
  }

  // The contributions of the logged invocations, in log order, each once: an invocation contributes
  // the changes of the plan it made from the domain its adapter's snapshot held.
  function ContributedInOrder<S>(
    ops: seq<Operation<S>>, clients: seq<Client<Db<S>, Guard<S>, Write<S>, Answer>>, log: seq<nat>, domain: S): Option<S>
  {
    if log == [] then Some(domain)
    else
      var i := log[|log| - 1];
      match ContributedInOrder(ops, clients, log[..|log| - 1], domain)
      case None => None
      case Some(before) =>
        if i < |ops| && i < |clients| && |clients[i].seen| >= 2 && ops[i].plan(clients[i].seen[1].domain).Proceed?
        then Contributed(ops[i].plan(clients[i].seen[1].domain).changes, before) else None
  }

  lemma {:induction false} SameClientsContributeAlike<S>(
    ops: seq<Operation<S>>, clients: seq<Client<Db<S>, Guard<S>, Write<S>, Answer>>,
    others: seq<Client<Db<S>, Guard<S>, Write<S>, Answer>>, log: seq<nat>, domain: S)
    requires |clients| == |others| && forall k :: 0 <= k < |log| && log[k] < |clients| ==> others[log[k]].seen == clients[log[k]].seen
    ensures ContributedInOrder(ops, others, log, domain) == ContributedInOrder(ops, clients, log, domain)
  {
    if log != [] { SameClientsContributeAlike(ops, clients, others, log[..|log| - 1], domain); }
  }

  lemma StepContributes<S(!new)>(
    ops: seq<Operation<S>>, db: Db<S>, y: System<Db<S>, Guard<S>, Write<S>, Answer>, i: nat)
    requires Sound(OneRowPerIdentity, LogGrows, WorksOf(ops), db, y) && ExactlyOnce(ops, db, y)
    requires ContributedInOrder(ops, y.clients, y.log, db.domain) == Some(y.db.domain)
    ensures var y' := Step(Boundary(), y, i);
            ContributedInOrder(ops, y'.clients, y'.log, db.domain) == Some(y'.db.domain)
  {
    var y' := Step(Boundary(), y, i);
    if i < |y.clients| {
      var c, m := y.clients[i], StepClient(Boundary(), y.db, y.clients[i]);
      assert WorksOf(ops)[i] == WorkOf(ops[i]);
      FinishedReadsStay(ops[i], y.db, c);
      SameClientsContributeAlike(ops, y.clients, y'.clients, y.log, db.domain);
      if m.committed {
        InvocationCommits(ops[i], c.seen, y.db, m.db);
        assert y'.log[..|y.log|] == y.log;
      }
    }
  }

  lemma FinishedReadsStay<S(!new)>(op: Operation<S>, s: Db<S>, c: Client<Db<S>, Guard<S>, Write<S>, Answer>)
    requires c.work == WorkOf(op)
    ensures var m := StepClient(Boundary(), s, c);
            && (c.outcome.Returned? ==> m.client == c && !m.committed)
            && (m.committed ==> CommitsTo(Boundary(), WorkOf(op), c.seen, s, m.db) && m.client.seen == c.seen && |c.seen| >= 2)
            && (!m.committed ==> m.db == s)
  {
    var m := StepClient(Boundary(), s, c);
    if m.committed { InvocationCommits(op, c.seen, s, m.db); }
  }

  // Over every run the domain is what the committed invocations contributed, one after the other in
  // log order and each once, and nothing else.
  lemma {:induction false} EveryContributionAppliesOnce<S(!new)>(
    ops: seq<Operation<S>>, db: Db<S>, maximumAttempts: nat, schedule: seq<nat>)
    requires OneRowPerIdentity(db)
    ensures var y := Run(Boundary(), Begin(db, WorksOf(ops), maximumAttempts), schedule);
            ContributedInOrder(ops, y.clients, y.log, db.domain) == Some(y.db.domain)
    decreases |schedule|
  {
    if schedule != [] {
      var n := |schedule| - 1;
      hide OneRowPerIdentity, ExactlyOnce, Sound, ContributedInOrder, Step;
      EveryContributionAppliesOnce(ops, db, maximumAttempts, schedule[..n]);
      EveryRunIsExactlyOnce(ops, db, maximumAttempts, schedule[..n]);
      SoundRun(ops, db, maximumAttempts, schedule[..n]);
      StepContributes(ops, db, Run(Boundary(), Begin(db, WorksOf(ops), maximumAttempts), schedule[..n]), schedule[n]);
    }
  }

  // No two committed invocations share an identity.
  lemma OneCommitPerIdentity<S(!new)>(ops: seq<Operation<S>>, db: Db<S>, maximumAttempts: nat, schedule: seq<nat>)
    requires OneRowPerIdentity(db)
    ensures var y := Run(Boundary(), Begin(db, WorksOf(ops), maximumAttempts), schedule);
            && (forall k :: 0 <= k < |y.log| ==> y.log[k] < |ops|)
            && (forall k, l :: 0 <= k < l < |y.log| ==> ops[y.log[k]].identity != ops[y.log[l]].identity)
  {
    EveryRunIsExactlyOnce(ops, db, maximumAttempts, schedule);
    var y := Run(Boundary(), Begin(db, WorksOf(ops), maximumAttempts), schedule);
    forall k, l | 0 <= k < l < |y.log| ensures ops[y.log[k]].identity != ops[y.log[l]].identity {
      assert y.db.log[|db.log| + k].identity != y.db.log[|db.log| + l].identity;
    }
  }

  // Two invocations of one identity that both succeed were given the same receipt and result.
  lemma RepeatsAgree<S(!new)>(
    ops: seq<Operation<S>>, db: Db<S>, maximumAttempts: nat, schedule: seq<nat>, i: nat, j: nat)
    requires OneRowPerIdentity(db) && i < |ops| && j < |ops| && ops[i].identity == ops[j].identity
    ensures var y := Run(Boundary(), Begin(db, WorksOf(ops), maximumAttempts), schedule);
            && |y.clients| == |ops|
            && var a, b := y.clients[i].outcome, y.clients[j].outcome;
            (a.Returned? && a.value.Success? && b.Returned? && b.value.Success? ==>
               a == b && ops[i].requestHash == ops[j].requestHash)
  {
    EveryRunIsExactlyOnce(ops, db, maximumAttempts, schedule);
    var y := Run(Boundary(), Begin(db, WorksOf(ops), maximumAttempts), schedule);
    assert AnsweredByRow(ops[i], y.db.log, y.clients[i].outcome);
    assert AnsweredByRow(ops[j], y.db.log, y.clients[j].outcome);
  }

  // Nothing reaches the domain tables without a new row in the operation log.
  lemma {:induction false} DomainMovesOnlyWithTheLog<S(!new)>(
    ops: seq<Operation<S>>, db: Db<S>, maximumAttempts: nat, schedule: seq<nat>, more: seq<nat>)
    requires OneRowPerIdentity(db)
    ensures var begin := Begin(db, WorksOf(ops), maximumAttempts);
            var now, later_ := Run(Boundary(), begin, schedule).db, Run(Boundary(), begin, schedule + more).db;
            now.log <= later_.log && (|now.log| == |later_.log| ==> now == later_)
    decreases |more|
  {
    var begin := Begin(db, WorksOf(ops), maximumAttempts);
    if more == [] {
      assert schedule + more == schedule;
    } else {
      var n := |more| - 1;
      var all := schedule + more;
      assert all[..|all| - 1] == schedule + more[..n] && all[|all| - 1] == more[n];
      DomainMovesOnlyWithTheLog(ops, db, maximumAttempts, schedule, more[..n]);
      var y := Run(Boundary(), begin, schedule + more[..n]);
      EveryRunIsExactlyOnce(ops, db, maximumAttempts, schedule + more[..n]);
      SoundRun(ops, db, maximumAttempts, schedule + more[..n]);
      if more[n] < |y.clients| {
        assert WorksOf(ops)[more[n]] == WorkOf(ops[more[n]]);
        StepAnswers(ops[more[n]], y.db, y.clients[more[n]]);
      }
    }
  }

  lemma SoundRun<S(!new)>(ops: seq<Operation<S>>, db: Db<S>, maximumAttempts: nat, schedule: seq<nat>)
    requires OneRowPerIdentity(db)
    ensures Sound(OneRowPerIdentity, LogGrows, WorksOf(ops), db,
                  Run(Boundary(), Begin(db, WorksOf(ops), maximumAttempts), schedule))
  {
    forall k | 0 <= k < |ops| ensures Preserves(Boundary(), OneRowPerIdentity, LogGrows, WorksOf(ops)[k]) {
      InvocationKeepsTheLog(ops[k]);
    }
    RunSound(Boundary(), OneRowPerIdentity, LogGrows, WorksOf(ops), db, maximumAttempts, schedule);
  }

  // ---- Serializability of invocations ----------------------------------------------------

  // The adapter's guards are strong enough for its own decision.
  ghost predicate PlanIsGuarded<S(!new)>(op: Operation<S>) {
    forall r: S, s: S :: op.plan(r).Proceed? && (forall i :: 0 <= i < |op.plan(r).guards| ==> op.plan(r).guards[i](s)) ==>
      op.plan(s) == op.plan(r) && !op.denied(s) && op.preflight(s).Clear?
  }

  lemma PlanStillHolds<S(!new)>(op: Operation<S>, seen: seq<Db<S>>, s: Db<S>, s': Db<S>)
    requires PlanIsGuarded(op) && CommitsTo(Boundary(), WorkOf(op), seen, s, s') && |seen| >= 2
    requires op.plan(seen[1].domain).Proceed? && WorkOf(op).decide(seen) == DecideFresh(op, seen[1].domain)
    ensures op.plan(s.domain) == op.plan(seen[1].domain) && !op.denied(s.domain) && op.preflight(s.domain).Clear?
  {
    var r, action := seen[1].domain, DecideFresh(op, seen[1].domain);
    forall i | 0 <= i < |op.plan(r).guards| ensures op.plan(r).guards[i](s.domain) {
      assert action.guards[1 + i] == DomainHolds(op.plan(r).guards[i]);
      assert Boundary<S>().holds(action.guards[1 + i], s);
    }
  }

  lemma FreshAlone<S>(op: Operation<S>, s: Db<S>)
    requires Opens(op, s) && op.plan(s.domain).Proceed?
    ensures Serial(WorkOf(op), s) == DecideFresh(op, s.domain)
  {
    ReadsOfOneStateAreSerial(WorkOf(op), s, 0, 2);
  }

  lemma GuardedInvocationIsDetermined<S(!new)>(op: Operation<S>)
    requires PlanIsGuarded(op)
    ensures Determined(Boundary(), OneRowPerIdentity, LogGrows, WorkOf(op), true)
  {
    forall seen: seq<Db<S>>, s: Db<S>, s': Db<S>
      | Admissible(OneRowPerIdentity, LogGrows, seen, s) && CommitsTo(Boundary(), WorkOf(op), seen, s, s')
      ensures var alone := Serial(WorkOf(op), s);
              && alone.Finish? && Boundary<S>().Commit(alone.guards, alone.writes, s) == Committed(s')
              && alone.value == WorkOf(op).decide(seen).value
    {
      InvocationCommits(op, seen, s, s');
      PlanStillHolds(op, seen, s, s');
      FreshAlone(op, s);
    }
  }

  // Guarded adapters make the whole boundary serial: tables and answers are those of running the
  // committed invocations one at a time.
  lemma InvocationsAreSerial<S(!new)>(ops: seq<Operation<S>>, db: Db<S>, maximumAttempts: nat, schedule: seq<nat>)
    requires OneRowPerIdentity(db) && forall k :: 0 <= k < |ops| ==> PlanIsGuarded(ops[k])
    ensures SerialSoFar(Boundary(), OneRowPerIdentity, LogGrows, WorksOf(ops), db,
                        Run(Boundary(), Begin(db, WorksOf(ops), maximumAttempts), schedule))
  {
    forall k | 0 <= k < |ops|
      ensures Preserves(Boundary(), OneRowPerIdentity, LogGrows, WorksOf(ops)[k])
      ensures Determined(Boundary(), OneRowPerIdentity, LogGrows, WorksOf(ops)[k], false)
    {
      InvocationKeepsTheLog(ops[k]);
      GuardedInvocationIsDetermined(ops[k]);
    }
    Serializable(Boundary(), OneRowPerIdentity, LogGrows, WorksOf(ops), db, maximumAttempts, schedule);
  }

  // ---- Answers that commit nothing -------------------------------------------------------

  predicate AnswersAlone<S>(op: Operation<S>, s: Db<S>, answer: Answer) {
    var alone := Serial(WorkOf(op), s);
    alone.Finish? && alone.value == answer
  }

  // A nonterminal answer is the serial one of a state exactly when that state has no receipt of
  // the identity, the actor may act in it and the preflight or the handler would decide the same.
  lemma NonterminalAlone<S>(op: Operation<S>, s: Db<S>, outcome: string)
    ensures AnswersAlone(op, s, Outcome(outcome)) <==>
              && !op.denied(s.domain) && !Logged(s.log, op.identity)
              && (op.preflight(s.domain) == Held(outcome)
                  || (op.preflight(s.domain).Clear? && op.plan(s.domain) == Nonterminal(outcome)))
  {
    var settled := !Opens(op, s);
    assert Repeat(s, 0) == [] && Repeat(s, 1) == [s] && Repeat(s, 2) == [s, s];
    ReadsOfOneStateAreSerial(WorkOf(op), s, 0, if settled then 1 else 2);
  }

  // Over every interleaving, an invocation that is told a nonterminal outcome read one state the run
  // went through, where its preflight was held and the answer is the serial one; or it read two. Then
  // the answer is the serial one of the second, the handler's snapshot, exactly when by then the
  // actor still had authority, the preflight would have let it pass or said the same, and no
  // invocation of the identity had committed.
  lemma NonterminalIsSerialExactlyWhen<S>(
    ops: seq<Operation<S>>, db: Db<S>, maximumAttempts: nat, schedule: seq<nat>, i: nat)
    returns (first: nat, second: nat)
    requires var y := Run(Boundary(), Begin(db, WorksOf(ops), maximumAttempts), schedule);
             && i < |ops| == |y.clients| && y.clients[i].outcome.Returned? && y.clients[i].outcome.value.Outcome?
    ensures first <= second <= |schedule|
    ensures var begin := Begin(db, WorksOf(ops), maximumAttempts);
            var y, op := Run(Boundary(), begin, schedule), ops[i];
            var r, s := Run(Boundary(), begin, schedule[..first]).db, Run(Boundary(), begin, schedule[..second]).db;
            var answer := y.clients[i].outcome.value;
            && i !in y.log && !op.denied(r.domain) && !Logged(r.log, op.identity)
            && if op.preflight(r.domain).Held? then
                 y.clients[i].seen == [r] && AnswersAlone(op, r, answer)
               else
                 && y.clients[i].seen == [r, s]
                 && (AnswersAlone(op, s, answer) <==>
                       Opens(op, s) || (!op.denied(s.domain) && !Logged(s.log, op.identity)
                                        && op.preflight(s.domain) == Held(answer.outcome)))
                 && (AnswersAlone(op, r, answer) <==> op.plan(r.domain) == op.plan(s.domain))
  {
    var begin := Begin(db, WorksOf(ops), maximumAttempts);
    var y := Run(Boundary(), begin, schedule);
    var at := ReadsAreVisitedInOrder(Boundary(), WorksOf(ops), db, maximumAttempts, schedule, i);
    assert WorksOf(ops)[i] == WorkOf(ops[i]);
    var c := y.clients[i];
    assert c.work.decide(c.seen) == Decide(ops[i], c.seen);
    ReadsOfAnOutcome(ops[i], c.seen);
    first, second := at[0], at[|at| - 1];
    NonterminalAlone(ops[i], c.seen[0], c.outcome.value.outcome);
    NonterminalAlone(ops[i], c.seen[|at| - 1], c.outcome.value.outcome);
  }

  // One read when the preflight is held, otherwise two.
  lemma ReadsOfAnOutcome<S>(op: Operation<S>, seen: seq<Db<S>>)
    requires forall j :: 0 <= j < |seen| ==> WorkOf(op).WantsRead(seen[..j])
    requires !WorkOf(op).WantsRead(seen) && Decide(op, seen).Finish? && Decide(op, seen).value.Outcome?
    ensures seen != [] && |seen| == if op.preflight(seen[0].domain).Held? then 1 else 2
  {
    assert |seen| > 2 ==> WorkOf(op).WantsRead(seen[..2]);
    assert |seen| > 1 ==> WorkOf(op).WantsRead(seen[..1]);
  }

  type Run2<!S> = System<Db<S>, Guard<S>, Write<S>, Answer>

  // Two invocations of one identity that have read what `mine` and `theirs` hold.
  function Twins<S>(op: Operation<S>, twin: ReceiptId, s: Db<S>, mine: seq<Db<S>>, theirs: seq<Db<S>>): Run2<S> {
    System(s, [Client(WorkOf(op), 3, 1, mine, Pending),
               Client(WorkOf(op.(receiptId := twin)), 3, 1, theirs, Pending)], [])
  }

  lemma TwinsRead<S>(op: Operation<S>, twin: ReceiptId, db: Db<S>)
    requires Opens(op, db)
    ensures var begin := Begin(db, WorksOf([op, op.(receiptId := twin)]), 3);
            && Run(Boundary(), begin, []) == Twins(op, twin, db, [], [])
            && Run(Boundary(), begin, [0]) == Twins(op, twin, db, [db], [])
            && Run(Boundary(), begin, [0, 1]) == Twins(op, twin, db, [db], [db])
            && Run(Boundary(), begin, [0, 1, 1]) == Twins(op, twin, db, [db], [db, db])
  {
    var begin := Begin(db, WorksOf([op, op.(receiptId := twin)]), 3);
    assert begin == Twins(op, twin, db, [], []);
    assert [0][..0] == [] && [0, 1][..1] == [0] && [0, 1, 1][..2] == [0, 1];
    TwinReads(op, twin, db, [], [], 0);
    TwinReads(op, twin, db, [db], [], 1);
    TwinReads(op, twin, db, [db], [db], 1);
    assert [] + [db] == [db] && [db] + [db] == [db, db];
  }

  lemma TwinReads<S>(op: Operation<S>, twin: ReceiptId, db: Db<S>, mine: seq<Db<S>>, theirs: seq<Db<S>>, i: nat)
    requires i < 2 && WorkOf(op).WantsRead(if i == 0 then mine else theirs)
    ensures Step(Boundary(), Twins(op, twin, db, mine, theirs), i) ==
            if i == 0 then Twins(op, twin, db, mine + [db], theirs) else Twins(op, twin, db, mine, theirs + [db])
  {
    var y := Twins(op, twin, db, mine, theirs);
    assert y.clients[i].work.WantsRead(y.clients[i].seen);
    var read := y.clients[i].(seen := y.clients[i].seen + [db]);
    assert y.clients[i := read] == if i == 0 then [read, y.clients[1]] else [y.clients[0], read];
  }

  // The twin commits between the two reads of the other.
  lemma TwinCommitsBetween<S>(op: Operation<S>, twin: ReceiptId, db: Db<S>, s: Db<S>, outcome: string)
    requires Opens(op, db) && op.plan(db.domain).Proceed?
    requires var action := DecideFresh(op.(receiptId := twin), db.domain);
             Boundary().Commit(action.guards, action.writes, db) == Committed(s)
    requires op.plan(s.domain) == Nonterminal(outcome)
    ensures var y, done := Twins(op, twin, db, [db], [db, db]), Returned(Success(twin, op.plan(db.domain).result));
            var y4 := System(s, [y.clients[0], y.clients[1].(outcome := done)], [1]);
            var y5 := y4.(clients := [y.clients[0].(seen := [db, s]), y4.clients[1]]);
            && Step(Boundary(), y, 1) == y4 && Step(Boundary(), y4, 0) == y5
            && Step(Boundary(), y5, 0) ==
               y5.(clients := [y5.clients[0].(outcome := Returned(Outcome(outcome))), y5.clients[1]])
    ensures Logged(s.log, op.identity)
  {
    var mine, theirs := WorkOf(op), WorkOf(op.(receiptId := twin));
    var y, done := Twins(op, twin, db, [db], [db, db]), Returned(Success(twin, op.plan(db.domain).result));
    assert theirs.decide([db, db]) == DecideFresh(op.(receiptId := twin), db.domain) && mine.WantsRead([db]);
    assert mine.decide([db, s]) == DecideFresh(op, s.domain);
    var a, b := y.clients[0].(seen := [db, s]), y.clients[1].(outcome := done);
    assert [db] + [s] == [db, s];
    assert y.clients[1 := b] == [y.clients[0], b] && [y.clients[0], b][0 := a] == [a, b];
    var told := a.(outcome := Returned(Outcome(outcome)));
    assert [a, b][0 := told] == [told, b];
    InvocationCommits(op.(receiptId := twin), [db, db], db, s);
    assert s.log[|db.log|].identity == op.identity;
  }

  // It does happen: a repeated invocation looks for its receipt, finds none, and takes its snapshot
  // after its twin committed. It is told the outcome of a domain that has already been changed on
  // its behalf, an answer that no state of the run gives.
  lemma RepeatIsToldNonterminal<S>(op: Operation<S>, twin: ReceiptId, db: Db<S>, s: Db<S>, outcome: string)
    requires Opens(op, db) && op.plan(db.domain).Proceed?
    requires var action := DecideFresh(op.(receiptId := twin), db.domain);
             Boundary().Commit(action.guards, action.writes, db) == Committed(s)
    requires op.plan(s.domain) == Nonterminal(outcome)
    ensures var begin, schedule := Begin(db, WorksOf([op, op.(receiptId := twin)]), 3), [0, 1, 1, 1, 0, 0];
            var y := Run(Boundary(), begin, schedule);
            && y.log == [1] && |y.clients| == 2
            && y.clients[1].outcome == Returned(Success(twin, op.plan(db.domain).result))
            && y.clients[0].outcome == Returned(Outcome(outcome))
            && forall n :: 0 <= n <= |schedule| ==>
                 !AnswersAlone(op, Run(Boundary(), begin, schedule[..n]).db, Outcome(outcome))
  {
    hide Step, Decide, DecideFresh, AnswersAlone, Logged;
    var begin, schedule := Begin(db, WorksOf([op, op.(receiptId := twin)]), 3), [0, 1, 1, 1, 0, 0];
    TwinsRead(op, twin, db);
    TwinCommitsBetween(op, twin, db, s, outcome);
    assert schedule[..0] == [] && schedule[..1] == [0] && schedule[..2] == [0, 1] && schedule[..3] == [0, 1, 1];
    forall n | 0 <= n < |schedule|
      ensures Run(Boundary(), begin, schedule[..n + 1]) ==
              Step(Boundary(), Run(Boundary(), begin, schedule[..n]), schedule[n])
    {
      assert schedule[..n + 1][..n] == schedule[..n];
    }
    assert schedule[..6] == schedule;
    forall n | 0 <= n <= |schedule|
      ensures !AnswersAlone(op, Run(Boundary(), begin, schedule[..n]).db, Outcome(outcome))
    {
      NonterminalAlone(op, Run(Boundary(), begin, schedule[..n]).db, outcome);
      assert Run(Boundary(), begin, schedule[..n]).db == if n <= 3 then db else s;
    }
  }

  // A change that is made once and reported as already made afterwards.
  function OnceOnly(): Operation<bool> {
    Operation("change", "hash", "first", (made: bool) => false, (made: bool) => Clear, (made: bool) =>
      if made then Nonterminal("already made")
      else Proceed("made", [(m: bool) => !m], [(m: bool) => Some(true)]))
  }

  lemma OnceOnlyIsToldNonterminal()
    ensures var op, none: Db<bool> := OnceOnly(), Db([], false);
            var y := Run(Boundary(), Begin(none, WorksOf([op, op.(receiptId := "second")]), 3), [0, 1, 1, 1, 0, 0]);
            && PlanIsGuarded(op) && |y.clients| == 2
            && y.clients[1].outcome == Returned(Success("second", "made"))
            && y.clients[0].outcome == Returned(Outcome("already made"))
  {
    var op, e, none: Db<bool> := OnceOnly(), Boundary<bool>(), Db([], false);
    var row := Receipt("second", "change", "hash", "made");
    var action, change, insert := DecideFresh(op.(receiptId := "second"), false),
                                  DomainChange(op.plan(false).changes[0]), InsertLog(row);
    assert op.plan(false).guards[0](false);
    assert action.guards == [ReceiptAbsent("change"), DomainHolds(op.plan(false).guards[0])];
    assert e.AllHold(action.guards, none);
    assert action.writes == [change] + [insert];
    ApplyAllAppend(e, [change], [insert], none);
    ApplyOne(e, change, none);
    ApplyOne(e, insert, Db([], true));
    assert [] + [row] == [row] && !IdTaken([], row.id);
    assert e.Commit(action.guards, action.writes, none) == Committed(Db([row], true));
    RepeatIsToldNonterminal(op, "second", none, Db([row], true), "already made");
    forall r: bool, s: bool
      | op.plan(r).Proceed? && (forall i :: 0 <= i < |op.plan(r).guards| ==> op.plan(r).guards[i](s))
      ensures op.plan(s) == op.plan(r) && !op.denied(s) && op.preflight(s).Clear?
    {
      assert op.plan(r).guards[0](s);
    }
  }
}
