// Revoking an API key: the handler of D1ApiKeyMutationEffectDomainAdapter in d1-api-key-mutation.ts,
// with the whole answer it returns, run among other units of work on the same tables.
module ApiKeyRevocation {
  import opened Wrappers
  import opened AtomicBatch
  import opened RowGuards
  import opened Serializability
  import opened ApiKeyGuards

  datatype Request = Request(workspace: string, user: string, now: int, key: string, expectedVersion: int, reason: string)

  // `OtherWrite` stands for any statement of another unit of work.
  datatype Write = RevokeKey(request: Request) | OtherWrite(change: Tables -> Option<Tables>)

  const REASONS := {"rotated", "owner_request", "admin_request", "security"}

  predicate Current(t: Tables, r: Request) {
    && r.key in t.keys && t.keys[r.key].workspace == r.workspace && t.keys[r.key].version == r.expectedVersion
    && t.keys[r.key].standing == "active"
  }

  function RevokedRow(row: KeyRow, r: Request): KeyRow {
    row.(standing := "revoked", revokedAt := Some(r.now), revokedBy := Some(r.user), revokeReason := Some(r.reason),
         version := row.version + 1)
  }

  // The UPDATE finds the active key at its version or changes nothing; the table's checks and its
  // reference to the revoking user may abort it.
  function Apply(w: Write, t: Tables): Option<Tables> {
    match w
    case OtherWrite(change) => change(t)
    case RevokeKey(r) =>
      if !Current(t, r) then Some(t)
      else if r.now < t.keys[r.key].createdAt || r.user !in t.users || r.reason !in REASONS then None
      else Some(t.(keys := t.keys[r.key := RevokedRow(t.keys[r.key], r)]))
  }

  const KEYS := Engine<Tables, Guard, Write>.Engine(Holds, Apply)

  // ---- The request -----------------------------------------------------------------------

  datatype View = View(
    id: string, owner: string, ownerName: string, name: string, hint: string, mayRead: bool, mayPropose: bool,
    permissions: set<string>, events: set<string>, createdAt: int, expiresAt: Option<int>, lastUsedAt: Option<int>,
    standing: string, revokedAt: Option<int>, reason: Option<string>, version: int)

  datatype Refusal = Missing | NotOwner | Stale
  datatype Reply = Refused(code: Refusal) | Revoked(view: View)

  function Project(id: string, key: PinnedKey, ownerName: string): View {
    var row := key.row;
    View(id, row.owner, ownerName, row.displayName, row.tokenHint, row.mayRead == 1, row.maySubmitPlans == 1,
         key.permissions, key.events, row.createdAt, row.expiresAt, row.lastUsedAt, row.standing, row.revokedAt,
         row.revokeReason, row.version)
  }

  function OwnerName(t: Tables, id: string): string {
    if id in t.keys && t.keys[id].owner in t.users then t.users[t.keys[id].owner] else ""
  }

  // What the handler answers and whether it revokes, in the order of its checks.
  function Decide(r: Request, keys: map<string, PinnedKey>, ownerName: string, mayAdminister: bool): Reply {
    if r.key !in keys then Refused(Missing)
    else
      var row := keys[r.key].row;
      var anothers := row.owner != r.user;
      if anothers && !mayAdminister then Refused(NotOwner)
      else if row.standing != "active" || row.version != r.expectedVersion then Refused(Stale)
      else if anothers && r.reason != "admin_request" then Refused(NotOwner)
      else Revoked(Project(r.key, keys[r.key].(row := RevokedRow(row, r)), ownerName))
  }

  // How the database happens to order its answers.
  datatype Reading = Reading(keys: seq<ReadKey>, permissions: seq<Scope>, events: seq<Scope>)
  type Order = (Tables, string) -> Reading

  // readCurrentKeys throws on a workspace it cannot read; `parses` stands for the formats.
  predicate Readable(t: Tables, workspace: string, parses: PinnedKey -> bool) {
    var keys := KeysAt(t, workspace);
    |keys| <= 10_000 && forall id :: id in keys ==> RowIsSound(keys[id].row) && parses(keys[id])
  }

  function Snapshot(r: Request, order: Order, t: Tables): seq<Guard> {
    var read := order(t, r.workspace);
    KeyGuards(r.workspace, read.keys, read.permissions, read.events)
  }

  function Denied(r: Request, t: Tables): bool {
    AnyOverride(t, "deny", r.workspace, r.user, r.now)
  }

  function Granted(r: Request, t: Tables): bool {
    AnyOverride(t, "grant", r.workspace, r.user, r.now)
  }

  function RoleCount(r: Request, t: Tables): nat {
    |ManagingAssignments(t, r.workspace, r.user, r.now)|
  }

  // Three reads: the keys with their owners' names, the overrides, the role count.
  function Act(r: Request, order: Order, parses: PinnedKey -> bool, seen: seq<Tables>): Action<Guard, Write, Reply> {
    if seen == [] then ReadMore
    else if !Readable(seen[0], r.workspace, parses) then Fail
    else if |seen| < 3 then ReadMore
    else
      var denied, granted, roles := Denied(r, seen[1]), Granted(r, seen[1]), RoleCount(r, seen[2]);
      var reply := Decide(r, KeysAt(seen[0], r.workspace), OwnerName(seen[0], r.key), !denied && (granted || roles > 0));
      Finish(reply,
             Snapshot(r, order, seen[0]) + AdministerGuards(denied, granted, roles, r.workspace, r.user, r.now),
             if reply.Revoked? then [RevokeKey(r)] else [])
  }

  type KeyWork = Work<Tables, Guard, Write, Reply>

  function RevokeWork(r: Request, order: Order, parses: PinnedKey -> bool): KeyWork {
    Work(3, (seen: seq<Tables>) => Act(r, order, parses, seen))
  }

  // ---- What the tables keep --------------------------------------------------------------

  // The foreign key from keys to their owners.
  ghost predicate Owned(t: Tables) {
    forall id :: id in t.keys ==> t.keys[id].owner in t.users
  }

  ghost predicate OrderIsFaithful(order: Order) {
    forall t, w :: Owned(t) ==> Answers(t, w, order(t, w).keys, order(t, w).permissions, order(t, w).events)
  }

  // The transition trigger: a key stays, keeps its identity and, once revoked, how it was revoked.
  ghost predicate RowLater(r: KeyRow, s: KeyRow) {
    && s.workspace == r.workspace && s.owner == r.owner && r.version <= s.version
    && (r.standing == "revoked" ==>
          s.standing == "revoked" && s.revokedAt == r.revokedAt && s.revokedBy == r.revokedBy
          && s.revokeReason == r.revokeReason)
  }

  ghost predicate KeysLater(s: Tables, t: Tables) {
    forall id :: id in s.keys ==> id in t.keys && RowLater(s.keys[id], t.keys[id])
  }

  // No statement removes a user or sets a display name.
  ghost predicate NamesKept(s: Tables, t: Tables) {
    forall u :: u in s.users ==> u in t.users && t.users[u] == s.users[u]
  }

  ghost predicate TablesLater(s: Tables, t: Tables) {
    KeysLater(s, t) && NamesKept(s, t)
  }

  lemma LaterIsAnOrder()
    ensures Serializability.Order(TablesLater) && Serializability.Order(KeysLater)
  {
    forall r, s, t | TablesLater(r, s) && TablesLater(s, t)
      ensures TablesLater(r, t)
    {
      forall u | u in r.users ensures u in t.users && t.users[u] == r.users[u] { assert u in s.users; }
    }
  }

  // The key carries this revocation.
  ghost predicate Carries(t: Tables, r: Request) {
    && r.key in t.keys
    && var row := t.keys[r.key];
       row.standing == "revoked" && row.revokedAt == Some(r.now) && row.revokedBy == Some(r.user)
       && row.revokeReason == Some(r.reason)
  }

  // ---- What a committed revocation is ----------------------------------------------------

  lemma GuardsTell(r: Request, order: Order, seen: seq<Tables>, s: Tables)
    requires |seen| == 3 && OrderIsFaithful(order) && Owned(seen[0])
    requires AllHold(Snapshot(r, order, seen[0])
                     + AdministerGuards(Denied(r, seen[1]), Granted(r, seen[1]), RoleCount(r, seen[2]),
                                        r.workspace, r.user, r.now), s)
    ensures KeysAt(s, r.workspace) == KeysAt(seen[0], r.workspace)
    ensures MayAdminister(s, r.workspace, r.user, r.now) ==
            (!Denied(r, seen[1]) && (Granted(r, seen[1]) || RoleCount(r, seen[2]) > 0))
  {
    hide KeysAt, AnyOverride, ManagingAssignments, KeyGuards, AdministerGuards, Holds, Answers;
    var read := order(seen[0], r.workspace);
    var decision := AdministerGuards(Denied(r, seen[1]), Granted(r, seen[1]), RoleCount(r, seen[2]),
                                     r.workspace, r.user, r.now);
    AllHoldSplits(Snapshot(r, order, seen[0]), decision, s);
    GuardsPinTheKeys(seen[0], r.workspace, read.keys, read.permissions, read.events, s);
    GuardsPinTheDecision(Denied(r, seen[1]), Granted(r, seen[1]), RoleCount(r, seen[2]), r.workspace, r.user, r.now, s);
  }

  // At one state its own guards hold.
  lemma GuardsHoldHere(r: Request, order: Order, s: Tables)
    requires OrderIsFaithful(order) && Owned(s)
    ensures AllHold(Snapshot(r, order, s)
                    + AdministerGuards(Denied(r, s), Granted(r, s), RoleCount(r, s), r.workspace, r.user, r.now), s)
    ensures MayAdminister(s, r.workspace, r.user, r.now) == (!Denied(r, s) && (Granted(r, s) || RoleCount(r, s) > 0))
  {
    hide KeysAt, AnyOverride, ManagingAssignments, KeyGuards, AdministerGuards, Holds, Answers;
    var read := order(s, r.workspace);
    GuardsPinTheKeys(s, r.workspace, read.keys, read.permissions, read.events, s);
    GuardsPinTheDecision(Denied(r, s), Granted(r, s), RoleCount(r, s), r.workspace, r.user, r.now, s);
    AllHoldSplits(Snapshot(r, order, s),
                  AdministerGuards(Denied(r, s), Granted(r, s), RoleCount(r, s), r.workspace, r.user, r.now), s);
  }

  // Whoever revokes a key may do so where the batch commits: it is their own, or they may administer
  // others' keys there and say so. The batch changes that key's standing and nothing else.
  lemma RevocationCommits(
    r: Request, order: Order, parses: PinnedKey -> bool, seen: seq<Tables>, s: Tables, s': Tables)
    requires OrderIsFaithful(order) && seen != [] && Owned(seen[0])
    requires CommitsTo(KEYS, RevokeWork(r, order, parses), seen, s, s')
    ensures Current(s, r) && r.reason in REASONS && r.now >= s.keys[r.key].createdAt
    ensures s.keys[r.key].owner == r.user
            || (MayAdminister(s, r.workspace, r.user, r.now) && r.reason == "admin_request")
    ensures s' == s.(keys := s.keys[r.key := RevokedRow(s.keys[r.key], r)])
    ensures Readable(s, r.workspace, parses)
    ensures RevokeWork(r, order, parses).decide(seen).value ==
            Revoked(Project(r.key, KeysAt(s, r.workspace)[r.key].(row := RevokedRow(s.keys[r.key], r)),
                            OwnerName(seen[0], r.key)))
  {
    hide Holds, KeyGuards, AdministerGuards, AnyOverride, ManagingAssignments, MayAdminister, OrderIsFaithful, RowIsSound;
    var action := RevokeWork(r, order, parses).decide(seen);
    assert action == Act(r, order, parses, seen);
    CommitsFromThree(r, order, parses, seen);
    var three := seen[..3];
    assert Act(r, order, parses, three) == action;
    GuardsTell(r, order, three, s);
    ApplyOne(KEYS, RevokeKey(r), s);
    assert r.key in KeysAt(s, r.workspace) && KeysAt(s, r.workspace)[r.key].row == s.keys[r.key];
  }

  lemma CommitsFromThree(r: Request, order: Order, parses: PinnedKey -> bool, seen: seq<Tables>)
    requires Act(r, order, parses, seen).Finish? && Act(r, order, parses, seen).writes != []
    ensures |seen| >= 3 && Act(r, order, parses, seen).writes == [RevokeKey(r)]
  {
  }

  // ---- The answer a revocation would give alone --------------------------------------------

  lemma DecidedHere(r: Request, order: Order, parses: PinnedKey -> bool, s: Tables)
    requires OrderIsFaithful(order) && Owned(s) && Readable(s, r.workspace, parses)
    requires Current(s, r) && r.reason in REASONS && r.now >= s.keys[r.key].createdAt && r.user in s.users
    requires s.keys[r.key].owner == r.user
             || (MayAdminister(s, r.workspace, r.user, r.now) && r.reason == "admin_request")
    ensures var alone := Serial(RevokeWork(r, order, parses), s);
            && alone.Finish?
            && KEYS.Commit(alone.guards, alone.writes, s) ==
               Committed(s.(keys := s.keys[r.key := RevokedRow(s.keys[r.key], r)]))
            && alone.value ==
               Revoked(Project(r.key, KeysAt(s, r.workspace)[r.key].(row := RevokedRow(s.keys[r.key], r)),
                               OwnerName(s, r.key)))
  {
    hide Holds, KeyGuards, AdministerGuards, AnyOverride, ManagingAssignments, MayAdminister, OrderIsFaithful, RowIsSound;
    var work := RevokeWork(r, order, parses);
    assert Repeat(s, 3) == [s, s, s];
    ReadsOfOneStateAreSerial(work, s, 0, 3);
    assert work.decide([s, s, s]) == Act(r, order, parses, [s, s, s]);
    GuardsHoldHere(r, order, s);
    ApplyOne(KEYS, RevokeKey(r), s);
  }

  // Wherever a revocation commits it would commit the same change alone; it would give the same
  // answer exactly when the key's owner still has the name that was read, which no guard pins.
  lemma RevocationAnswersAsAloneExactlyWhen(
    r: Request, order: Order, parses: PinnedKey -> bool, seen: seq<Tables>, s: Tables, s': Tables)
    requires OrderIsFaithful(order) && seen != [] && Owned(seen[0]) && Owned(s)
    requires CommitsTo(KEYS, RevokeWork(r, order, parses), seen, s, s')
    ensures var alone := Serial(RevokeWork(r, order, parses), s);
            && alone.Finish? && KEYS.Commit(alone.guards, alone.writes, s) == Committed(s')
            && (alone.value == RevokeWork(r, order, parses).decide(seen).value <==>
                  OwnerName(s, r.key) == OwnerName(seen[0], r.key))
  {
    hide Act, Holds, Readable, MayAdminister, OrderIsFaithful, KeysAt, OwnerName;
    RevocationCommits(r, order, parses, seen, s, s');
    RevokerExists(r, order, parses, seen, s, s');
    DecidedHere(r, order, parses, s);
  }

  lemma RevokerExists(
    r: Request, order: Order, parses: PinnedKey -> bool, seen: seq<Tables>, s: Tables, s': Tables)
    requires CommitsTo(KEYS, RevokeWork(r, order, parses), seen, s, s') && Current(s, r)
    ensures r.user in s.users
  {
    hide Holds, KeyGuards, AdministerGuards, Readable, Decide;
    CommitsFromThree(r, order, parses, seen);
    ApplyOne(KEYS, RevokeKey(r), s);
  }

  lemma NameStays(t: Tables, s: Tables, id: string)
    requires Owned(t) && TablesLater(t, s) && id in t.keys
    ensures OwnerName(s, id) == OwnerName(t, id)
  {
  }

  // In this program names stay, so a revocation is guard-determined, answer and all.
  lemma RevocationIsDetermined(r: Request, order: Order, parses: PinnedKey -> bool)
    requires OrderIsFaithful(order)
    ensures Determined(KEYS, Owned, TablesLater, RevokeWork(r, order, parses), true)
  {
    var work := RevokeWork(r, order, parses);
    forall seen, s, s' | Admissible(Owned, TablesLater, seen, s) && CommitsTo(KEYS, work, seen, s, s')
      ensures var alone := Serial(work, s);
              && alone.Finish? && KEYS.Commit(alone.guards, alone.writes, s) == Committed(s')
              && alone.value == work.decide(seen).value
    {
      AnswersAsAlone(r, order, parses, seen, s, s');
    }
  }

  lemma AnswersAsAlone(r: Request, order: Order, parses: PinnedKey -> bool, seen: seq<Tables>, s: Tables, s': Tables)
    requires OrderIsFaithful(order) && Admissible(Owned, TablesLater, seen, s)
    requires CommitsTo(KEYS, RevokeWork(r, order, parses), seen, s, s')
    ensures var alone := Serial(RevokeWork(r, order, parses), s);
            && alone.Finish? && KEYS.Commit(alone.guards, alone.writes, s) == Committed(s')
            && alone.value == RevokeWork(r, order, parses).decide(seen).value
  {
    hide Owned, TablesLater, OwnerName, OrderIsFaithful, Holds, Readable, Decide;
    CommitsFromThree(r, order, parses, seen);
    ReadKeyIsStored(r, order, parses, seen);
    NameStays(seen[0], s, r.key);
    RevocationAnswersAsAloneExactlyWhen(r, order, parses, seen, s, s');
  }

  lemma ReadKeyIsStored(r: Request, order: Order, parses: PinnedKey -> bool, seen: seq<Tables>)
    requires Act(r, order, parses, seen).Finish? && Act(r, order, parses, seen).writes != []
    ensures seen != [] && r.key in seen[0].keys
  {
  }

  lemma RevocationPreserves(r: Request, order: Order, parses: PinnedKey -> bool)
    requires OrderIsFaithful(order)
    ensures Preserves(KEYS, Owned, TablesLater, RevokeWork(r, order, parses))
  {
    hide OrderIsFaithful, Owned, TablesLater, Act, Carries;
    forall seen, s, s'
      | Admissible(Owned, TablesLater, seen, s) && CommitsTo(KEYS, RevokeWork(r, order, parses), seen, s, s')
      ensures Owned(s') && TablesLater(s, s')
    {
      RevocationMovesForward(r, order, parses, seen, s, s');
    }
  }

  lemma RevocationMovesForward(
    r: Request, order: Order, parses: PinnedKey -> bool, seen: seq<Tables>, s: Tables, s': Tables)
    requires OrderIsFaithful(order) && Admissible(Owned, TablesLater, seen, s)
    requires CommitsTo(KEYS, RevokeWork(r, order, parses), seen, s, s')
    ensures Owned(s') && TablesLater(s, s') && Current(s, r) && Carries(s', r)
  {
    hide Act, Readable, MayAdminister, OrderIsFaithful, KeysAt, OwnerName;
    ActReads(r, order, parses, seen);
    RevocationCommits(r, order, parses, seen, s, s');
    RevokedIsLater(r, s);
  }

  lemma RevokedIsLater(r: Request, s: Tables)
    requires Current(s, r) && Owned(s)
    ensures var s' := s.(keys := s.keys[r.key := RevokedRow(s.keys[r.key], r)]);
            Owned(s') && TablesLater(s, s') && Carries(s', r)
  {
  }

  lemma ActReads(r: Request, order: Order, parses: PinnedKey -> bool, seen: seq<Tables>)
    requires Act(r, order, parses, seen).Finish?
    ensures seen != []
  {
  }

  // ---- Runs ------------------------------------------------------------------------------

  // Revocations and any other units of work on the same tables.
  datatype Party = Revoker(request: Request) | Another(work: KeyWork)

  function WorkOf(p: Party, order: Order, parses: PinnedKey -> bool): KeyWork {
    match p case Revoker(r) => RevokeWork(r, order, parses) case Another(work) => work
  }

  function WorksOf(parties: seq<Party>, order: Order, parses: PinnedKey -> bool): seq<KeyWork> {
    seq(|parties|, i requires 0 <= i < |parties| => WorkOf(parties[i], order, parses))
  }

  ghost predicate OthersKeepTheTables(parties: seq<Party>) {
    forall i :: 0 <= i < |parties| && parties[i].Another? ==> Preserves(KEYS, Owned, TablesLater, parties[i].work)
  }

  ghost predicate OthersAreDetermined(parties: seq<Party>) {
    forall i :: 0 <= i < |parties| && parties[i].Another? ==>
      Determined(KEYS, Owned, TablesLater, parties[i].work, false)
  }

  lemma AllPreserve(parties: seq<Party>, order: Order, parses: PinnedKey -> bool)
    requires OrderIsFaithful(order) && OthersKeepTheTables(parties)
    ensures forall i :: 0 <= i < |parties| ==> Preserves(KEYS, Owned, TablesLater, WorksOf(parties, order, parses)[i])
  {
    forall i | 0 <= i < |parties|
      ensures Preserves(KEYS, Owned, TablesLater, WorksOf(parties, order, parses)[i])
    {
      if parties[i].Revoker? { RevocationPreserves(parties[i].request, order, parses); }
    }
  }

  // Runs are serial in commit order, and every revocation that committed gave its serial answer.
  lemma RevocationsAreSerial(
    parties: seq<Party>, order: Order, parses: PinnedKey -> bool, db: Tables, maximumAttempts: nat, schedule: seq<nat>)
    requires OrderIsFaithful(order) && OthersKeepTheTables(parties) && OthersAreDetermined(parties) && Owned(db)
    ensures var works := WorksOf(parties, order, parses);
            var y := Run(KEYS, Begin(db, works, maximumAttempts), schedule);
            && SerialSoFar(KEYS, Owned, TablesLater, works, db, y)
            && forall k :: 0 <= k < |y.log| && parties[y.log[k]].Revoker? ==>
                 y.clients[y.log[k]].outcome == SerialOutcome(KEYS, works, y.log, db, k)
  {
    var works := WorksOf(parties, order, parses);
    var y := Run(KEYS, Begin(db, works, maximumAttempts), schedule);
    LaterIsAnOrder();
    AllPreserve(parties, order, parses);
    forall i | 0 <= i < |works| ensures Determined(KEYS, Owned, TablesLater, works[i], false) {
      if parties[i].Revoker? {
        RevocationIsDetermined(parties[i].request, order, parses);
        ValuesAside(RevokeWork(parties[i].request, order, parses));
      }
    }
    Serializable(KEYS, Owned, TablesLater, works, db, maximumAttempts, schedule);
    forall k | 0 <= k < |y.log| && parties[y.log[k]].Revoker?
      ensures y.clients[y.log[k]].outcome == SerialOutcome(KEYS, works, y.log, db, k)
    {
      RevocationIsDetermined(parties[y.log[k]].request, order, parses);
      assert ValueIsSerial(KEYS, Owned, TablesLater, works, db, y, k);
    }
  }

  lemma ValuesAside(work: KeyWork)
    requires Determined(KEYS, Owned, TablesLater, work, true)
    ensures Determined(KEYS, Owned, TablesLater, work, false)
  {
  }

  lemma CarriesOn(s: Tables, t: Tables, r: Request)
    requires Carries(s, r) && TablesLater(s, t)
    ensures Carries(t, r)
  {
  }

  ghost predicate RevokedOnce(parties: seq<Party>, y: System<Tables, Guard, Write, Reply>) {
    && |y.clients| == |parties|
    && (forall k :: 0 <= k < |y.log| ==> y.log[k] < |parties|)
    && (forall k :: 0 <= k < |y.log| && parties[y.log[k]].Revoker? ==> Carries(y.db, parties[y.log[k]].request))
    && (forall j, k :: 0 <= j < k < |y.log| && parties[y.log[j]].Revoker? && parties[y.log[k]].Revoker? ==>
          parties[y.log[j]].request.key != parties[y.log[k]].request.key)
  }

  lemma CarriedStays(
    parties: seq<Party>, y: System<Tables, Guard, Write, Reply>, t: Tables)
    requires RevokedOnce(parties, y) && TablesLater(y.db, t)
    ensures forall k :: 0 <= k < |y.log| && parties[y.log[k]].Revoker? ==> Carries(t, parties[y.log[k]].request)
  {
    hide TablesLater, Carries;
    forall k | 0 <= k < |y.log| && parties[y.log[k]].Revoker? ensures Carries(t, parties[y.log[k]].request) {
      CarriesOn(y.db, t, parties[y.log[k]].request);
    }
  }

  lemma StepRevokesOnce(
    parties: seq<Party>, order: Order, parses: PinnedKey -> bool, db: Tables,
    y: System<Tables, Guard, Write, Reply>, i: nat)
    requires OrderIsFaithful(order) && OthersKeepTheTables(parties)
    requires Sound(Owned, TablesLater, WorksOf(parties, order, parses), db, y) && RevokedOnce(parties, y)
    ensures RevokedOnce(parties, Step(KEYS, y, i))
  {
    hide TablesLater, Carries, Preserves, OrderIsFaithful, OthersKeepTheTables, Owned, Current, Serializability.Order;
    var works, y' := WorksOf(parties, order, parses), Step(KEYS, y, i);
    LaterIsAnOrder();
    AllPreserve(parties, order, parses);
    StepSound(KEYS, Owned, TablesLater, works, db, y, i);
    CarriedStays(parties, y, y'.db);
    if i < |y.clients| && StepClient(KEYS, y.db, y.clients[i]).committed && parties[i].Revoker? {
      var r := parties[i].request;
      assert CommitsTo(KEYS, works[i], y.clients[i].seen, y.db, y'.db);
      RevocationMovesForward(r, order, parses, y.clients[i].seen, y.db, y'.db);
      forall k | 0 <= k < |y.log| && parties[y.log[k]].Revoker? ensures parties[y.log[k]].request.key != r.key {
        CarriedIsNotActive(y.db, parties[y.log[k]].request, r);
      }
    }
  }

  lemma CarriedIsNotActive(s: Tables, carried: Request, r: Request)
    requires Carries(s, carried) && Current(s, r)
    ensures carried.key != r.key
  {
  }

  // In every run, whatever else is going on, a key is revoked by at most one request, and from then
  // on its row says by whom, when and why.
  lemma {:induction false} KeysAreRevokedOnce(
    parties: seq<Party>, order: Order, parses: PinnedKey -> bool, db: Tables, maximumAttempts: nat, schedule: seq<nat>)
    requires OrderIsFaithful(order) && OthersKeepTheTables(parties) && Owned(db)
    ensures RevokedOnce(parties, Run(KEYS, Begin(db, WorksOf(parties, order, parses), maximumAttempts), schedule))
    decreases |schedule|
  {
    if schedule != [] {
      var works, n := WorksOf(parties, order, parses), |schedule| - 1;
      LaterIsAnOrder();
      AllPreserve(parties, order, parses);
      KeysAreRevokedOnce(parties, order, parses, db, maximumAttempts, schedule[..n]);
      RunSound(KEYS, Owned, TablesLater, works, db, maximumAttempts, schedule[..n]);
      StepRevokesOnce(parties, order, parses, db, Run(KEYS, Begin(db, works, maximumAttempts), schedule[..n]), schedule[n]);
    }
  }
}
