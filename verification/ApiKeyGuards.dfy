// readCurrentKeys and mayAdministerOtherKeys in d1-api-key-mutation.ts.
module ApiKeyGuards {
  import opened Wrappers
  import opened AtomicBatch
  import opened RowGuards
  import opened Sets

  datatype KeyRow = KeyRow(
    workspace: string, owner: string, displayName: string, tokenHash: string, tokenHint: string, mayRead: int,
    maySubmitPlans: int, createdAt: int, expiresAt: Option<int>, lastUsedAt: Option<int>, standing: string,
    revokedAt: Option<int>, revokedBy: Option<string>, revokeReason: Option<string>, successor: Option<string>, version: int)

  type Scope = (string, string)

  datatype Override = Override(
    id: string, workspace: string, user: string, permission: string, effect: string, scopeKind: string,
    event: Option<string>, expiresAt: Option<int>)

  datatype Assignment = Assignment(
    id: string, workspace: string, user: string, role: string, scopeKind: string, event: Option<string>,
    expiresAt: Option<int>)

  datatype Role = Role(workspace: string, archivedAt: Option<int>)

  // `permissions`, `events` and `rolePermissions` hold (key or role id, permission or event id).
  datatype Tables = Tables(
    keys: map<string, KeyRow>, permissions: set<Scope>, events: set<Scope>, users: map<string, string>,
    overrides: set<Override>, assignments: set<Assignment>, roles: map<string, Role>, rolePermissions: set<Scope>)

  datatype Guard =
    | KeyCount(workspace: string, n: nat)
    | PermissionCount(workspace: string, n: nat)
    | EventCount(workspace: string, n: nat)
    | KeyCurrent(id: string, row: KeyRow)
    | PermissionCurrent(scope: Scope)
    | EventCurrent(scope: Scope)
    | DenyIs(present: bool, workspace: string, user: string, now: int)
    | GrantIs(present: bool, workspace: string, user: string, now: int)
    | RoleCountIs(workspace: string, user: string, now: int, n: nat)

  function WorkspaceRows(t: Tables, workspace: string): map<string, KeyRow> {
    map id | id in t.keys && t.keys[id].workspace == workspace :: t.keys[id]
  }

  // SELECT scope.* FROM ... scope JOIN api_keys key WHERE key.workspace_id = ?
  function WorkspaceScopes(scopes: set<Scope>, t: Tables, workspace: string): set<Scope> {
    set s | s in scopes && s.0 in WorkspaceRows(t, workspace)
  }

  predicate Applies(o: Override, workspace: string, user: string, now: int) {
    && o.workspace == workspace && o.user == user && o.permission == "access.roles.manage"
    && o.scopeKind == "workspace" && o.event.None? && (o.expiresAt.None? || o.expiresAt.value > now)
  }

  predicate AnyOverride(t: Tables, effect: string, workspace: string, user: string, now: int) {
    exists o :: o in t.overrides && Applies(o, workspace, user, now) && o.effect == effect
  }

  function ManagingAssignments(t: Tables, workspace: string, user: string, now: int): set<Assignment> {
    set a | a in t.assignments && a.workspace == workspace && a.user == user && a.scopeKind == "workspace"
            && a.event.None? && (a.expiresAt.None? || a.expiresAt.value > now)
            && a.role in t.roles && t.roles[a.role] == Role(a.workspace, None)
            && (a.role, "access.roles.manage") in t.rolePermissions
  }

  predicate Holds(g: Guard, t: Tables) {
    match g
    case KeyCount(w, n) => |WorkspaceRows(t, w)| == n
    case PermissionCount(w, n) => |WorkspaceScopes(t.permissions, t, w)| == n
    case EventCount(w, n) => |WorkspaceScopes(t.events, t, w)| == n
    case KeyCurrent(id, row) => id in t.keys && t.keys[id] == row
    case PermissionCurrent(scope) => scope in t.permissions
    case EventCurrent(scope) => scope in t.events
    case DenyIs(present, w, u, now) => AnyOverride(t, "deny", w, u, now) == present
    case GrantIs(present, w, u, now) => AnyOverride(t, "grant", w, u, now) == present
    case RoleCountIs(w, u, now, n) => |ManagingAssignments(t, w, u, now)| == n
  }

  predicate AllHold(guards: seq<Guard>, t: Tables) {
    forall i :: 0 <= i < |guards| ==> Holds(guards[i], t)
  }

  // ---- readCurrentKeys ----------------------------------------------------------------------

  datatype ReadKey = ReadKey(id: string, row: KeyRow, ownerName: string)
  datatype CurrentKey = CurrentKey(row: KeyRow, permissions: seq<string>, events: seq<string>, ownerName: string)

  function ReadKeys(t: Tables, workspace: string): set<ReadKey> {
    set id | id in WorkspaceRows(t, workspace) && t.keys[id].owner in t.users ::
      ReadKey(id, t.keys[id], t.users[t.keys[id].owner])
  }

  ghost predicate IsAnswer<T(!new)>(rows: seq<T>, stored: set<T>) {
    NoRepeats(rows) && forall r :: r in rows <==> r in stored
  }

  // The three SELECTs run as one D1 batch, so all of them show one snapshot.
  ghost predicate Answers(t: Tables, workspace: string, keys: seq<ReadKey>, permissions: seq<Scope>, events: seq<Scope>) {
    && IsAnswer(keys, ReadKeys(t, workspace))
    && IsAnswer(permissions, WorkspaceScopes(t.permissions, t, workspace))
    && IsAnswer(events, WorkspaceScopes(t.events, t, workspace))
  }

  predicate OwnersExist(t: Tables, workspace: string) {
    forall id :: id in WorkspaceRows(t, workspace) ==> t.keys[id].owner in t.users
  }

  function Counts(workspace: string, keys: nat, permissions: nat, events: nat): seq<Guard> {
    [KeyCount(workspace, keys), PermissionCount(workspace, permissions), EventCount(workspace, events)]
  }

  function KeyPins(keys: seq<ReadKey>): seq<Guard> {
    seq(|keys|, i requires 0 <= i < |keys| => KeyCurrent(keys[i].id, keys[i].row))
  }

  function PermissionPins(scopes: seq<Scope>): seq<Guard> {
    seq(|scopes|, i requires 0 <= i < |scopes| => PermissionCurrent(scopes[i]))
  }

  function EventPins(scopes: seq<Scope>): seq<Guard> {
    seq(|scopes|, i requires 0 <= i < |scopes| => EventCurrent(scopes[i]))
  }

  function KeyGuards(workspace: string, keys: seq<ReadKey>, permissions: seq<Scope>, events: seq<Scope>): seq<Guard> {
    Counts(workspace, |keys|, |permissions|, |events|) + KeyPins(keys) + PermissionPins(permissions) + EventPins(events)
  }

  function ScopesOf(id: string, scopes: seq<Scope>): (names: seq<string>)
    ensures forall n :: n in names ==> (id, n) in scopes
    ensures forall s :: s in scopes && s.0 == id ==> s.1 in names
  {
    if scopes == [] then []
    else
      ScopesOf(id, scopes[..|scopes| - 1])
      + (if scopes[|scopes| - 1].0 == id then [scopes[|scopes| - 1].1] else [])
  }

  function Current(key: ReadKey, permissions: seq<Scope>, events: seq<Scope>): CurrentKey {
    CurrentKey(key.row, ScopesOf(key.id, permissions), ScopesOf(key.id, events), key.ownerName)
  }

  predicate DistinctIds(keys: seq<ReadKey>) {
    forall i, j :: 0 <= i < j < |keys| ==> keys[i].id != keys[j].id
  }

  // What recordFromRows and parseNewApiKeyRecord ask of a stored row's numbers and standing.
  predicate RowIsSound(row: KeyRow) {
    && (row.mayRead == 0 || row.mayRead == 1) && (row.maySubmitPlans == 0 || row.maySubmitPlans == 1)
    && (row.mayRead == 1 || row.maySubmitPlans == 1)
    && row.createdAt >= 0 && (row.expiresAt.Some? ==> row.expiresAt.value > row.createdAt)
    && (row.lastUsedAt.Some? ==> row.lastUsedAt.value >= 0) && (row.revokedAt.Some? ==> row.revokedAt.value >= 0)
    && row.version >= 1 && (row.standing == "active" || row.standing == "revoked")
    && (row.standing == "active" <==> row.revokedAt.None? && row.revokedBy.None? && row.revokeReason.None?)
  }

  // recordFromRows: the checks in its order; false is the source's data_corrupt.
  method CheckRow(row: KeyRow) returns (sound: bool)
    ensures sound <==> RowIsSound(row)
  {
    if (row.mayRead != 0 && row.mayRead != 1) || (row.maySubmitPlans != 0 && row.maySubmitPlans != 1) { return false; }
    if row.createdAt < 0 || (row.expiresAt.Some? && row.expiresAt.value < 0) { return false; }
    if row.mayRead == 0 && row.maySubmitPlans == 0 { return false; }
    if row.expiresAt.Some? && row.expiresAt.value <= row.createdAt { return false; }
    if row.version < 1 || (row.standing != "active" && row.standing != "revoked") { return false; }
    if row.revokedAt.Some? && row.revokedAt.value < 0 { return false; }
    if (row.standing == "active") != (row.revokedAt.None? && row.revokedBy.None? && row.revokeReason.None?) { return false; }
    if row.lastUsedAt.Some? && row.lastUsedAt.value < 0 { return false; }
    return true;
  }

  // `parses` stands for the formats: ids, instants, hash, hint and names.
  predicate AllReadable(
    keys: seq<ReadKey>, permissions: seq<Scope>, events: seq<Scope>, parses: CurrentKey -> bool)
  {
    forall i :: 0 <= i < |keys| ==> RowIsSound(keys[i].row) && parses(Current(keys[i], permissions, events))
  }

  // The map holds every listed key, with the scopes listed for it, and no other key.
  predicate Collects(result: map<string, CurrentKey>, keys: seq<ReadKey>, permissions: seq<Scope>, events: seq<Scope>) {
    && DistinctIds(keys)
    && (forall id :: id in result ==> exists i :: 0 <= i < |keys| && keys[i].id == id)
    && (forall i :: 0 <= i < |keys| ==>
          keys[i].id in result && result[keys[i].id] == Current(keys[i], permissions, events))
  }

  lemma CollectsOneMore(
    result: map<string, CurrentKey>, keys: seq<ReadKey>, permissions: seq<Scope>, events: seq<Scope>, key: ReadKey)
    requires Collects(result, keys, permissions, events) && key.id !in result
    ensures Collects(result[key.id := Current(key, permissions, events)], keys + [key], permissions, events)
  {
    hide Current;
    var next, more := result[key.id := Current(key, permissions, events)], keys + [key];
    assert forall k :: 0 <= k < |keys| ==> more[k] == keys[k];
    assert more[|keys|] == key;
    forall id | id in next
      ensures exists k :: 0 <= k < |more| && more[k].id == id
    {
      if id != key.id {
        var k :| 0 <= k < |keys| && keys[k].id == id;
        assert more[k].id == id;
      }
    }
  }

  lemma CollectsNext(
    result: map<string, CurrentKey>, keys: seq<ReadKey>, permissions: seq<Scope>, events: seq<Scope>, i: nat)
    requires i < |keys| && Collects(result, keys[..i], permissions, events)
    ensures keys[i].id !in result ==>
              Collects(result[keys[i].id := Current(keys[i], permissions, events)], keys[..i + 1], permissions, events)
    ensures keys[i].id in result ==> !DistinctIds(keys)
  {
    hide Current;
    var before := keys[..i];
    if keys[i].id in result {
      var k :| 0 <= k < i && before[k].id == keys[i].id;
      assert keys[k].id == keys[i].id;
    } else {
      hide Collects;
      CollectsOneMore(result, before, permissions, events, keys[i]);
      assert before + [keys[i]] == keys[..i + 1];
    }
  }

  lemma NothingCollected(permissions: seq<Scope>, events: seq<Scope>)
    ensures Collects(map[], [], permissions, events)
    ensures forall parses :: AllReadable([], permissions, events, parses)
  {
  }

  lemma CollectsDistinct(result: map<string, CurrentKey>, keys: seq<ReadKey>, permissions: seq<Scope>, events: seq<Scope>)
    requires Collects(result, keys, permissions, events)
    ensures DistinctIds(keys)
  {
  }

  lemma PinNext(keys: seq<ReadKey>, i: nat)
    requires i < |keys|
    ensures KeyPins(keys[..i + 1]) == KeyPins(keys[..i]) + [KeyCurrent(keys[i].id, keys[i].row)]
  {
  }

  lemma ReadableNext(
    keys: seq<ReadKey>, permissions: seq<Scope>, events: seq<Scope>, parses: CurrentKey -> bool, i: nat)
    requires i < |keys| && AllReadable(keys[..i], permissions, events, parses)
    ensures var key := keys[i];
            var record := CurrentKey(key.row, ScopesOf(key.id, permissions), ScopesOf(key.id, events), key.ownerName);
            if RowIsSound(key.row) && parses(record) then AllReadable(keys[..i + 1], permissions, events, parses)
            else !AllReadable(keys, permissions, events, parses)
  {
    hide RowIsSound, ScopesOf;
    var key := keys[i];
    assert Current(key, permissions, events) ==
           CurrentKey(key.row, ScopesOf(key.id, permissions), ScopesOf(key.id, events), key.ownerName);
    assert forall j :: 0 <= j < i ==> keys[..i + 1][j] == keys[..i][j];
  }

  // What the loop has established after `i` keys.
  ghost predicate ReadSoFar(
    result: map<string, CurrentKey>, keys: seq<ReadKey>, permissions: seq<Scope>, events: seq<Scope>,
    parses: CurrentKey -> bool, i: nat)
  {
    i <= |keys| && Collects(result, keys[..i], permissions, events) && AllReadable(keys[..i], permissions, events, parses)
  }

  lemma ReadNext(
    result: map<string, CurrentKey>, keys: seq<ReadKey>, permissions: seq<Scope>, events: seq<Scope>,
    parses: CurrentKey -> bool, i: nat)
    requires i < |keys| && ReadSoFar(result, keys, permissions, events, parses, i)
    ensures var key := keys[i];
            var record := CurrentKey(key.row, ScopesOf(key.id, permissions), ScopesOf(key.id, events), key.ownerName);
            if !RowIsSound(key.row) || !parses(record) then !AllReadable(keys, permissions, events, parses)
            else if key.id in result then !DistinctIds(keys)
            else ReadSoFar(result[key.id := record], keys, permissions, events, parses, i + 1)
  {
    hide ScopesOf, Collects, DistinctIds, RowIsSound, AllReadable;
    ReadableNext(keys, permissions, events, parses, i);
    CollectsNext(result, keys, permissions, events, i);
  }

  lemma NothingRead(keys: seq<ReadKey>, permissions: seq<Scope>, events: seq<Scope>, parses: CurrentKey -> bool)
    ensures ReadSoFar(map[], keys, permissions, events, parses, 0)
  {
    NothingCollected(permissions, events);
    assert keys[..0] == [];
  }

  lemma AllRead(
    result: map<string, CurrentKey>, keys: seq<ReadKey>, permissions: seq<Scope>, events: seq<Scope>,
    parses: CurrentKey -> bool)
    requires ReadSoFar(result, keys, permissions, events, parses, |keys|)
    ensures Collects(result, keys, permissions, events) && DistinctIds(keys) && AllReadable(keys, permissions, events, parses)
  {
    hide DistinctIds, AllReadable;
    assert keys[..|keys|] == keys;
    CollectsDistinct(result, keys, permissions, events);
  }

  method GuardCounts<W>(
    unitOfWork: BufferedUnitOfWork<Tables, Guard, W>, workspace: string, keys: nat, permissions: nat, events: nat)
    modifies unitOfWork
    ensures unitOfWork.writes == old(unitOfWork.writes)
    ensures unitOfWork.guards == old(unitOfWork.guards) + Counts(workspace, keys, permissions, events)
  {
    unitOfWork.AssertCurrent(KeyCount(workspace, keys));
    unitOfWork.AssertCurrent(PermissionCount(workspace, permissions));
    unitOfWork.AssertCurrent(EventCount(workspace, events));
  }

  // The loop over the keys: one guard each, refused at the first that is unsound or repeated.
  method CollectKeys<W>(
    unitOfWork: BufferedUnitOfWork<Tables, Guard, W>,
    keys: seq<ReadKey>, permissions: seq<Scope>, events: seq<Scope>, parses: CurrentKey -> bool)
    returns (current: Option<map<string, CurrentKey>>)
    modifies unitOfWork
    ensures current.None? <==> !DistinctIds(keys) || !AllReadable(keys, permissions, events, parses)
    ensures unitOfWork.writes == old(unitOfWork.writes)
    ensures current.Some? ==>
              && unitOfWork.guards == old(unitOfWork.guards) + KeyPins(keys)
              && Collects(current.value, keys, permissions, events)
  {
    assert KeyPins(keys[..0]) == [];
    hide *;
    var result: map<string, CurrentKey> := map[];
    var i := 0;
    NothingRead(keys, permissions, events, parses);
    while i < |keys|
      invariant 0 <= i <= |keys| && unitOfWork.writes == old(unitOfWork.writes)
      invariant unitOfWork.guards == old(unitOfWork.guards) + KeyPins(keys[..i])
      invariant ReadSoFar(result, keys, permissions, events, parses, i)
    {
      var key := keys[i];
      var ownPermissions := NamesInScope(key.id, permissions);
      var ownEvents := NamesInScope(key.id, events);
      var record := CurrentKey(key.row, ownPermissions, ownEvents, key.ownerName);
      ReadNext(result, keys, permissions, events, parses, i);
      var sound := CheckRow(key.row);
      if !sound || !parses(record) {
        return None;
      }
      if key.id in result {
        return None;
      }
      result := result[key.id := record];
      unitOfWork.AssertCurrent(KeyCurrent(key.id, key.row));
      PinNext(keys, i);
      i := i + 1;
    }
    assert keys[..i] == keys;
    AllRead(result, keys, permissions, events, parses);
    current := Some(result);
  }

  method ReadCurrentKeys<W>(
    unitOfWork: BufferedUnitOfWork<Tables, Guard, W>, workspace: string,
    keys: seq<ReadKey>, permissions: seq<Scope>, events: seq<Scope>, parses: CurrentKey -> bool)
    returns (current: Option<map<string, CurrentKey>>)
    modifies unitOfWork
    ensures current.None? <==>
              |keys| > 10_000 || !DistinctIds(keys) || !AllReadable(keys, permissions, events, parses)
    ensures unitOfWork.writes == old(unitOfWork.writes)
    ensures current.Some? ==>
              && unitOfWork.guards == old(unitOfWork.guards) + KeyGuards(workspace, keys, permissions, events)
              && Collects(current.value, keys, permissions, events)
  {
    hide Collects, DistinctIds, KeyPins, AllReadable, Counts, PermissionPins, EventPins;
    if |keys| > 10_000 {
      return None;
    }
    GuardCounts(unitOfWork, workspace, |keys|, |permissions|, |events|);
    current := CollectKeys(unitOfWork, keys, permissions, events, parses);
    if current.Some? { GuardScopes(unitOfWork, permissions, events); }
  }

  method GuardScopes<W>(unitOfWork: BufferedUnitOfWork<Tables, Guard, W>, permissions: seq<Scope>, events: seq<Scope>)
    modifies unitOfWork
    ensures unitOfWork.writes == old(unitOfWork.writes)
    ensures unitOfWork.guards == old(unitOfWork.guards) + PermissionPins(permissions) + EventPins(events)
  {
    var i := 0;
    while i < |permissions|
      invariant 0 <= i <= |permissions| && unitOfWork.writes == old(unitOfWork.writes)
      invariant unitOfWork.guards == old(unitOfWork.guards) + PermissionPins(permissions[..i])
    {
      unitOfWork.AssertCurrent(PermissionCurrent(permissions[i]));
      i := i + 1;
    }
    assert permissions[..i] == permissions;
    ghost var scoped := unitOfWork.guards;
    i := 0;
    while i < |events|
      invariant 0 <= i <= |events| && unitOfWork.writes == old(unitOfWork.writes)
      invariant unitOfWork.guards == scoped + EventPins(events[..i])
    {
      unitOfWork.AssertCurrent(EventCurrent(events[i]));
      i := i + 1;
    }
    assert events[..i] == events;
  }

  method NamesInScope(id: string, scopes: seq<Scope>) returns (names: seq<string>)
    ensures names == ScopesOf(id, scopes)
  {
    names := [];
    var i := 0;
    while i < |scopes|
      invariant 0 <= i <= |scopes| && names == ScopesOf(id, scopes[..i])
    {
      assert scopes[..i + 1][..i] == scopes[..i];
      if scopes[i].0 == id { names := names + [scopes[i].1]; }
      i := i + 1;
    }
    assert scopes[..i] == scopes;
  }

  // What the handler may rely on: every key of the workspace with its permission and event scopes.
  datatype PinnedKey = PinnedKey(row: KeyRow, permissions: set<string>, events: set<string>)

  function Named(id: string, scopes: set<Scope>): set<string> {
    set s | s in scopes && s.0 == id :: s.1
  }

  function KeysAt(t: Tables, workspace: string): map<string, PinnedKey> {
    map id | id in WorkspaceRows(t, workspace) :: PinnedKey(t.keys[id], Named(id, t.permissions), Named(id, t.events))
  }

  predicate ListsRows(keys: seq<ReadKey>, rows: map<string, KeyRow>) {
    && DistinctIds(keys)
    && (forall i :: 0 <= i < |keys| ==> keys[i].id in rows && rows[keys[i].id] == keys[i].row)
    && (forall id :: id in rows ==> exists i :: 0 <= i < |keys| && keys[i].id == id)
  }

  // The map that was read shows the workspace's keys as they stood at the snapshot, all of them.
  lemma ReadShowsTheKeys(t: Tables, workspace: string, keys: seq<ReadKey>, permissions: seq<Scope>, events: seq<Scope>)
    requires Answers(t, workspace, keys, permissions, events) && OwnersExist(t, workspace)
    ensures DistinctIds(keys)
    ensures forall id :: id in KeysAt(t, workspace) <==> exists i :: 0 <= i < |keys| && keys[i].id == id
    ensures forall i :: 0 <= i < |keys| ==>
              var current := Current(keys[i], permissions, events);
              KeysAt(t, workspace)[keys[i].id] == PinnedKey(current.row, Members(current.permissions), Members(current.events))
  {
    ReadKeysListTheRows(t, workspace, keys);
    forall i | 0 <= i < |keys|
      ensures KeysAt(t, workspace)[keys[i].id] ==
              PinnedKey(keys[i].row, Members(ScopesOf(keys[i].id, permissions)), Members(ScopesOf(keys[i].id, events)))
    {
      var id := keys[i].id;
      NamesAreTheScopes(id, t.permissions, permissions, t, workspace);
      NamesAreTheScopes(id, t.events, events, t, workspace);
    }
  }

  lemma NamesAreTheScopes(id: string, stored: set<Scope>, rows: seq<Scope>, t: Tables, workspace: string)
    requires IsAnswer(rows, WorkspaceScopes(stored, t, workspace)) && id in WorkspaceRows(t, workspace)
    ensures Named(id, stored) == Members(ScopesOf(id, rows))
  {
    forall n
      ensures n in Named(id, stored) <==> n in ScopesOf(id, rows)
    {
      assert n in Named(id, stored) <==> (id, n) in stored;
      assert (id, n) in stored <==> (id, n) in rows;
    }
  }

  lemma ReadKeysListTheRows(t: Tables, workspace: string, keys: seq<ReadKey>)
    requires IsAnswer(keys, ReadKeys(t, workspace)) && OwnersExist(t, workspace)
    ensures ListsRows(keys, WorkspaceRows(t, workspace))
  {
    assert forall i :: 0 <= i < |keys| ==> keys[i] in ReadKeys(t, workspace);
    forall id | id in WorkspaceRows(t, workspace)
      ensures exists i :: 0 <= i < |keys| && keys[i].id == id
    {
      assert ReadKey(id, t.keys[id], t.users[t.keys[id].owner]) in ReadKeys(t, workspace);
    }
  }

  // ---- The guards hold in exactly the states that show the same keys -------------------------

  lemma KeyGuardsUnfold(workspace: string, keys: seq<ReadKey>, permissions: seq<Scope>, events: seq<Scope>, t: Tables)
    ensures AllHold(KeyGuards(workspace, keys, permissions, events), t) <==>
              && |WorkspaceRows(t, workspace)| == |keys|
              && (forall i :: 0 <= i < |keys| ==> keys[i].id in t.keys && t.keys[keys[i].id] == keys[i].row)
              && |WorkspaceScopes(t.permissions, t, workspace)| == |permissions|
              && (forall i :: 0 <= i < |permissions| ==> permissions[i] in t.permissions)
              && |WorkspaceScopes(t.events, t, workspace)| == |events|
              && (forall i :: 0 <= i < |events| ==> events[i] in t.events)
  {
    var counts := Counts(workspace, |keys|, |permissions|, |events|);
    assert KeyGuards(workspace, keys, permissions, events)
           == counts + KeyPins(keys) + PermissionPins(permissions) + EventPins(events);
    AllHoldSplits(counts + KeyPins(keys) + PermissionPins(permissions), EventPins(events), t);
    AllHoldSplits(counts + KeyPins(keys), PermissionPins(permissions), t);
    AllHoldSplits(counts, KeyPins(keys), t);
    CountsUnfold(workspace, |keys|, |permissions|, |events|, t);
    PinsUnfold(keys, permissions, events, t);
  }

  lemma AllHoldSplits(a: seq<Guard>, b: seq<Guard>, t: Tables)
    ensures AllHold(a + b, t) <==> AllHold(a, t) && AllHold(b, t)
  {
    hide Holds;
    if AllHold(a + b, t) {
      assert forall i :: 0 <= i < |a| ==> a[i] == (a + b)[i];
      assert forall i :: 0 <= i < |b| ==> b[i] == (a + b)[|a| + i];
    }
  }

  lemma CountsUnfold(workspace: string, keys: nat, permissions: nat, events: nat, t: Tables)
    ensures AllHold(Counts(workspace, keys, permissions, events), t) <==>
              && |WorkspaceRows(t, workspace)| == keys
              && |WorkspaceScopes(t.permissions, t, workspace)| == permissions
              && |WorkspaceScopes(t.events, t, workspace)| == events
  {
    var counts := Counts(workspace, keys, permissions, events);
    assert Holds(counts[0], t) <==> |WorkspaceRows(t, workspace)| == keys;
    assert Holds(counts[1], t) <==> |WorkspaceScopes(t.permissions, t, workspace)| == permissions;
    assert Holds(counts[2], t) <==> |WorkspaceScopes(t.events, t, workspace)| == events;
  }

  lemma PinsUnfold(keys: seq<ReadKey>, permissions: seq<Scope>, events: seq<Scope>, t: Tables)
    ensures AllHold(KeyPins(keys), t) <==>
              forall i :: 0 <= i < |keys| ==> keys[i].id in t.keys && t.keys[keys[i].id] == keys[i].row
    ensures AllHold(PermissionPins(permissions), t) <==> forall i :: 0 <= i < |permissions| ==> permissions[i] in t.permissions
    ensures AllHold(EventPins(events), t) <==> forall i :: 0 <= i < |events| ==> events[i] in t.events
  {
    assert forall i :: 0 <= i < |keys| ==> KeyPins(keys)[i] == KeyCurrent(keys[i].id, keys[i].row);
    assert forall i :: 0 <= i < |permissions| ==> PermissionPins(permissions)[i] == PermissionCurrent(permissions[i]);
    assert forall i :: 0 <= i < |events| ==> EventPins(events)[i] == EventCurrent(events[i]);
  }

  function KeyPairs(keys: seq<ReadKey>): seq<(string, KeyRow)> {
    seq(|keys|, i requires 0 <= i < |keys| => (keys[i].id, keys[i].row))
  }

  lemma PairsListTheRows(keys: seq<ReadKey>, rows: map<string, KeyRow>)
    requires ListsRows(keys, rows)
    ensures Lists(KeyPairs(keys), rows)
  {
    hide Members;
    var ids := KeysOf(KeyPairs(keys));
    assert forall i :: 0 <= i < |keys| ==> ids[i] == keys[i].id;
    assert NoRepeats(ids);
    forall id
      ensures id in Members(ids) <==> id in rows
    {
      if id in rows {
        var i :| 0 <= i < |keys| && keys[i].id == id;
        assert ids[i] == id;
      }
    }
  }

  lemma PinnedRowsAreTheMap(keys: seq<ReadKey>, rows: map<string, KeyRow>, current: map<string, KeyRow>)
    requires ListsRows(keys, rows)
    ensures |current| == |keys| && (forall i :: 0 <= i < |keys| ==> keys[i].id in current && current[keys[i].id] == keys[i].row)
            <==> current == rows
  {
    PairsListTheRows(keys, rows);
    hide ListsRows, Lists, KeysOf;
    var read := KeyPairs(keys);
    assert |current.Keys| == |current|;
    assert forall i :: 0 <= i < |keys| ==> read[i] == (keys[i].id, keys[i].row);
    hide KeyPairs, ReadKeys;
    CountOfTheBaseAndEachOfTheJoin(read, rows, current.Keys, current);
  }

  lemma KeyRowsArePinned(s: Tables, workspace: string, keys: seq<ReadKey>, t: Tables)
    requires IsAnswer(keys, ReadKeys(s, workspace)) && OwnersExist(s, workspace)
    ensures |WorkspaceRows(t, workspace)| == |keys|
            && (forall i :: 0 <= i < |keys| ==> keys[i].id in t.keys && t.keys[keys[i].id] == keys[i].row)
            <==> WorkspaceRows(t, workspace) == WorkspaceRows(s, workspace)
  {
    ReadKeysListTheRows(s, workspace, keys);
    var current := WorkspaceRows(t, workspace);
    forall i | 0 <= i < |keys|
      ensures keys[i].id in t.keys && t.keys[keys[i].id] == keys[i].row
              <==> keys[i].id in current && current[keys[i].id] == keys[i].row
    {
      assert keys[i].row.workspace == workspace;
    }
    hide IsAnswer, ReadKeys, OwnersExist, WorkspaceRows, ListsRows;
    PinnedRowsAreTheMap(keys, WorkspaceRows(s, workspace), current);
  }

  // The per-row EXISTS leaves the workspace out; the pinned key ids supply it.
  lemma ScopesArePinned(stored: set<Scope>, read: set<Scope>, rows: seq<Scope>, s: Tables, t: Tables, workspace: string)
    requires WorkspaceRows(t, workspace) == WorkspaceRows(s, workspace)
    requires IsAnswer(rows, WorkspaceScopes(read, s, workspace))
    ensures |WorkspaceScopes(stored, t, workspace)| == |rows| && (forall i :: 0 <= i < |rows| ==> rows[i] in stored)
            <==> WorkspaceScopes(stored, t, workspace) == WorkspaceScopes(read, s, workspace)
  {
    var now := WorkspaceScopes(stored, t, workspace);
    CountAndEachDetermineTheTable(rows, now);
    assert Members(rows) == WorkspaceScopes(read, s, workspace);
    assert forall i :: 0 <= i < |rows| ==> rows[i] in WorkspaceScopes(read, s, workspace);
    assert forall i :: 0 <= i < |rows| ==> (rows[i] in stored <==> rows[i] in now);
  }

  lemma SameKeysSameTables(s: Tables, t: Tables, workspace: string)
    ensures KeysAt(t, workspace) == KeysAt(s, workspace) <==>
              && WorkspaceRows(t, workspace) == WorkspaceRows(s, workspace)
              && WorkspaceScopes(t.permissions, t, workspace) == WorkspaceScopes(s.permissions, s, workspace)
              && WorkspaceScopes(t.events, t, workspace) == WorkspaceScopes(s.events, s, workspace)
  {
    if KeysAt(t, workspace) == KeysAt(s, workspace) {
      KeysTellTheTables(s, t, workspace);
    }
    if && WorkspaceRows(t, workspace) == WorkspaceRows(s, workspace)
       && WorkspaceScopes(t.permissions, t, workspace) == WorkspaceScopes(s.permissions, s, workspace)
       && WorkspaceScopes(t.events, t, workspace) == WorkspaceScopes(s.events, s, workspace)
    {
      forall id | id in WorkspaceRows(s, workspace)
        ensures Named(id, t.permissions) == Named(id, s.permissions) && Named(id, t.events) == Named(id, s.events)
      {
        ScopesTellTheNames(t.permissions, s.permissions, s, t, workspace, id);
        ScopesTellTheNames(t.events, s.events, s, t, workspace, id);
      }
      assert forall id :: id in WorkspaceRows(s, workspace) ==>
          t.keys[id] == WorkspaceRows(t, workspace)[id] && s.keys[id] == WorkspaceRows(s, workspace)[id];
    }
  }

  lemma ScopesTellTheNames(current: set<Scope>, seen: set<Scope>, s: Tables, t: Tables, workspace: string, id: string)
    requires WorkspaceScopes(current, t, workspace) == WorkspaceScopes(seen, s, workspace)
    requires id in WorkspaceRows(s, workspace) && id in WorkspaceRows(t, workspace)
    ensures Named(id, current) == Named(id, seen)
  {
    forall n
      ensures (id, n) in current <==> (id, n) in seen
    {
      assert (id, n) in current <==> (id, n) in WorkspaceScopes(current, t, workspace);
      assert (id, n) in seen <==> (id, n) in WorkspaceScopes(seen, s, workspace);
    }
    assert forall n :: n in Named(id, current) <==> (id, n) in current;
    assert forall n :: n in Named(id, seen) <==> (id, n) in seen;
  }

  lemma NamesTellTheScopes(current: set<Scope>, seen: set<Scope>, s: Tables, t: Tables, workspace: string)
    requires WorkspaceRows(t, workspace).Keys == WorkspaceRows(s, workspace).Keys
    requires forall id :: id in WorkspaceRows(s, workspace) ==> Named(id, current) == Named(id, seen)
    ensures WorkspaceScopes(current, t, workspace) == WorkspaceScopes(seen, s, workspace)
  {
    forall x: Scope | x.0 in WorkspaceRows(s, workspace)
      ensures x in current <==> x in seen
    {
      assert x == (x.0, x.1);
      assert x.1 in Named(x.0, current) <==> x in current;
      assert x.1 in Named(x.0, seen) <==> x in seen;
    }
    assert forall id :: id in WorkspaceRows(t, workspace) <==> id in WorkspaceRows(s, workspace);
  }

  lemma KeysTellTheTables(s: Tables, t: Tables, workspace: string)
    requires KeysAt(t, workspace) == KeysAt(s, workspace)
    ensures WorkspaceRows(t, workspace) == WorkspaceRows(s, workspace)
    ensures WorkspaceScopes(t.permissions, t, workspace) == WorkspaceScopes(s.permissions, s, workspace)
    ensures WorkspaceScopes(t.events, t, workspace) == WorkspaceScopes(s.events, s, workspace)
  {
    assert KeysAt(t, workspace).Keys == WorkspaceRows(t, workspace).Keys;
    assert KeysAt(s, workspace).Keys == WorkspaceRows(s, workspace).Keys;
    forall id | id in WorkspaceRows(s, workspace)
      ensures WorkspaceRows(t, workspace)[id] == WorkspaceRows(s, workspace)[id]
      ensures Named(id, t.permissions) == Named(id, s.permissions) && Named(id, t.events) == Named(id, s.events)
    {
      assert KeysAt(t, workspace)[id] == KeysAt(s, workspace)[id];
    }
    NamesTellTheScopes(t.permissions, s.permissions, s, t, workspace);
    NamesTellTheScopes(t.events, s.events, s, t, workspace);
  }

  // Row by row: the same keys of the workspace, each with the same columns, permissions and events.
  ghost predicate ShowTheSameKeys(s: Tables, t: Tables, workspace: string) {
    forall id ::
      && (id in t.keys && t.keys[id].workspace == workspace <==> id in s.keys && s.keys[id].workspace == workspace)
      && (id in s.keys && s.keys[id].workspace == workspace ==>
            && t.keys[id] == s.keys[id]
            && (forall n :: (id, n) in t.permissions <==> (id, n) in s.permissions)
            && (forall n :: (id, n) in t.events <==> (id, n) in s.events))
  }

  lemma SameNames(id: string, current: set<Scope>, seen: set<Scope>)
    ensures Named(id, current) == Named(id, seen) <==> forall n :: (id, n) in current <==> (id, n) in seen
  {
    assert forall n :: n in Named(id, current) <==> (id, n) in current;
    assert forall n :: n in Named(id, seen) <==> (id, n) in seen;
  }

  lemma SameKeysRowByRow(s: Tables, t: Tables, workspace: string)
    ensures KeysAt(t, workspace) == KeysAt(s, workspace) <==> ShowTheSameKeys(s, t, workspace)
  {
    var now, seen := KeysAt(t, workspace), KeysAt(s, workspace);
    forall id
      ensures id in now <==> id in t.keys && t.keys[id].workspace == workspace
      ensures id in seen <==> id in s.keys && s.keys[id].workspace == workspace
      ensures id in now && id in seen ==>
                (now[id] == seen[id] <==>
                   && t.keys[id] == s.keys[id]
                   && (forall n :: (id, n) in t.permissions <==> (id, n) in s.permissions)
                   && (forall n :: (id, n) in t.events <==> (id, n) in s.events))
    {
      SameNames(id, t.permissions, s.permissions);
      SameNames(id, t.events, s.events);
    }
    hide KeysAt;
    if ShowTheSameKeys(s, t, workspace) { assert now.Keys == seen.Keys; }
  }

  lemma GuardsPinTheKeys(
    s: Tables, workspace: string, keys: seq<ReadKey>, permissions: seq<Scope>, events: seq<Scope>, t: Tables)
    requires Answers(s, workspace, keys, permissions, events) && OwnersExist(s, workspace)
    ensures AllHold(KeyGuards(workspace, keys, permissions, events), t) <==> KeysAt(t, workspace) == KeysAt(s, workspace)
    ensures AllHold(KeyGuards(workspace, keys, permissions, events), t) <==> ShowTheSameKeys(s, t, workspace)
  {
    SameKeysRowByRow(s, t, workspace);
    hide ShowTheSameKeys;
    hide WorkspaceRows, WorkspaceScopes, KeysAt, KeyGuards, ReadKeys, IsAnswer, OwnersExist, AllHold;
    KeyGuardsUnfold(workspace, keys, permissions, events, t);
    KeyRowsArePinned(s, workspace, keys, t);
    SameKeysSameTables(s, t, workspace);
    if WorkspaceRows(t, workspace) == WorkspaceRows(s, workspace) {
      ScopesArePinned(t.permissions, s.permissions, permissions, s, t, workspace);
      ScopesArePinned(t.events, s.events, events, s, t, workspace);
    }
  }

  // ---- mayAdministerOtherKeys ----------------------------------------------------------------

  predicate MayAdminister(t: Tables, workspace: string, user: string, now: int) {
    && !AnyOverride(t, "deny", workspace, user, now)
    && (AnyOverride(t, "grant", workspace, user, now) || ManagingAssignments(t, workspace, user, now) != {})
  }

  function AdministerGuards(denied: bool, granted: bool, roles: nat, workspace: string, user: string, now: int): seq<Guard> {
    [DenyIs(denied, workspace, user, now)]
    + (if denied then [] else [GrantIs(granted, workspace, user, now)])
    + (if denied || granted then [] else [RoleCountIs(workspace, user, now, roles)])
  }

  lemma GuardsPinTheDecision(denied: bool, granted: bool, roles: nat, workspace: string, user: string, now: int, t: Tables)
    ensures AllHold(AdministerGuards(denied, granted, roles, workspace, user, now), t) ==>
              MayAdminister(t, workspace, user, now) == (!denied && (granted || roles > 0))
    ensures denied == AnyOverride(t, "deny", workspace, user, now) && granted == AnyOverride(t, "grant", workspace, user, now)
            && roles == |ManagingAssignments(t, workspace, user, now)| ==>
              AllHold(AdministerGuards(denied, granted, roles, workspace, user, now), t)
  {
    var guards := AdministerGuards(denied, granted, roles, workspace, user, now);
    hide AnyOverride, ManagingAssignments;
    assert guards[0] == DenyIs(denied, workspace, user, now);
    assert !denied ==> guards[1] == GrantIs(granted, workspace, user, now);
    assert !denied && !granted ==> guards[2] == RoleCountIs(workspace, user, now, roles);
  }

  // The overrides and the role count are two reads and may see two states; whatever the states, a
  // commit goes through only where the same decision would be taken.
  method MayAdministerOtherKeys<W>(
    unitOfWork: BufferedUnitOfWork<Tables, Guard, W>, first: Tables, second: Tables,
    workspace: string, user: string, now: int)
    returns (allowed: bool, ghost buffered: seq<Guard>)
    modifies unitOfWork
    ensures unitOfWork.guards == old(unitOfWork.guards) + buffered && unitOfWork.writes == old(unitOfWork.writes)
    ensures forall t :: AllHold(buffered, t) ==> allowed == MayAdminister(t, workspace, user, now)
    ensures allowed <==>
              && !AnyOverride(first, "deny", workspace, user, now)
              && (AnyOverride(first, "grant", workspace, user, now) || ManagingAssignments(second, workspace, user, now) != {})
    ensures first == second ==> AllHold(buffered, first)
  {
    var overrides := set o | o in first.overrides && Applies(o, workspace, user, now);
    var roleCount := |ManagingAssignments(second, workspace, user, now)|;
    var denied := exists o :: o in overrides && o.effect == "deny";
    var granted := exists o :: o in overrides && o.effect == "grant";
    assert denied == AnyOverride(first, "deny", workspace, user, now) && granted == AnyOverride(first, "grant", workspace, user, now) by {
      assert forall o :: o in overrides <==> o in first.overrides && Applies(o, workspace, user, now);
    }
    hide AnyOverride, ManagingAssignments, AllHold;
    allowed := !denied && (granted || roleCount > 0);
    buffered := AdministerGuards(denied, granted, roleCount, workspace, user, now);
    unitOfWork.AssertCurrent(DenyIs(denied, workspace, user, now));
    if !denied {
      unitOfWork.AssertCurrent(GrantIs(granted, workspace, user, now));
      if !granted {
        unitOfWork.AssertCurrent(RoleCountIs(workspace, user, now, roleCount));
      }
    }
    forall t
      ensures AllHold(buffered, t) ==> allowed == MayAdminister(t, workspace, user, now)
    {
      GuardsPinTheDecision(denied, granted, roleCount, workspace, user, now, t);
    }
    GuardsPinTheDecision(denied, granted, roleCount, workspace, user, now, first);
  }
}
