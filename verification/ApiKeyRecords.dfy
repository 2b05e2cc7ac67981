// What a revocation checks, stores and shows, told from the stored rows alone.
module ApiKeyRecords {
  import opened Wrappers
  import opened AtomicBatch
  import opened Serializability
  import opened ApiKeyGuards
  import opened ApiKeyRevocation

  const MANAGE := "access.roles.manage"

  // An override in force for the whole workspace.
  predicate InForce(o: Override, workspace: string, user: string, now: int, effect: string) {
    && o.workspace == workspace && o.user == user && o.permission == MANAGE && o.effect == effect
    && o.scopeKind == "workspace" && o.event == None && (o.expiresAt.Some? ==> now < o.expiresAt.value)
  }

  // A role in force for the whole workspace, not archived, that carries the permission.
  predicate Carries(t: Tables, a: Assignment, workspace: string, user: string, now: int) {
    && a.workspace == workspace && a.user == user && a.scopeKind == "workspace" && a.event == None
    && (a.expiresAt.Some? ==> now < a.expiresAt.value)
    && a.role in t.roles && t.roles[a.role].workspace == workspace && t.roles[a.role].archivedAt == None
    && (a.role, MANAGE) in t.rolePermissions
  }

  // No denial in force, and a grant or a role that carries the permission.
  predicate Authorised(t: Tables, workspace: string, user: string, now: int) {
    && (forall o | o in t.overrides :: !InForce(o, workspace, user, now, "deny"))
    && ((exists o | o in t.overrides :: InForce(o, workspace, user, now, "grant"))
        || exists a | a in t.assignments :: Carries(t, a, workspace, user, now))
  }

  lemma AuthorityIs(t: Tables, workspace: string, user: string, now: int)
    ensures MayAdminister(t, workspace, user, now) <==> Authorised(t, workspace, user, now)
  {
    forall effect | effect == "deny" || effect == "grant"
      ensures AnyOverride(t, effect, workspace, user, now) <==> exists o | o in t.overrides :: InForce(o, workspace, user, now, effect)
    {
    }
    forall a | a in t.assignments
      ensures a in ManagingAssignments(t, workspace, user, now) <==> Carries(t, a, workspace, user, now)
    {
    }
    if ManagingAssignments(t, workspace, user, now) != {} {
      var a :| a in ManagingAssignments(t, workspace, user, now);
      assert Carries(t, a, workspace, user, now);
    }
  }

  predicate OwnOrAuthorised(t: Tables, r: Request, row: KeyRow) {
    row.owner == r.user || Authorised(t, r.workspace, r.user, r.now)
  }

  // The code of the first check a revocation fails, or none.
  function RefusalOf(r: Request, t: Tables): Option<Refusal> {
    if r.key !in t.keys || t.keys[r.key].workspace != r.workspace then Some(Missing)
    else if !OwnOrAuthorised(t, r, t.keys[r.key]) then Some(NotOwner)
    else if t.keys[r.key].standing != "active" || t.keys[r.key].version != r.expectedVersion then Some(Stale)
    else if t.keys[r.key].owner != r.user && r.reason != "admin_request" then Some(NotOwner)
    else None
  }

  // The revoked row: when, by whom and why, one version on; the rest as it was.
  predicate IsRevoked(before: KeyRow, r: Request, after: KeyRow) {
    after == KeyRow(before.workspace, before.owner, before.displayName, before.tokenHash, before.tokenHint, before.mayRead,
                    before.maySubmitPlans, before.createdAt, before.expiresAt, before.lastUsedAt, "revoked",
                    Some(r.now), Some(r.user), Some(r.reason), before.successor, before.version + 1)
  }

  // What is shown of a stored key, column by column; the secret's hash is not.
  ghost predicate ShowsKey(view: View, t: Tables, id: string) {
    && id in t.keys
    && var row := t.keys[id];
       && view.id == id && view.owner == row.owner && view.name == row.displayName && view.hint == row.tokenHint
       && (view.mayRead <==> row.mayRead == 1) && (view.mayPropose <==> row.maySubmitPlans == 1)
       && (forall p :: p in view.permissions <==> (id, p) in t.permissions)
       && (forall e :: e in view.events <==> (id, e) in t.events)
       && view.createdAt == row.createdAt && view.expiresAt == row.expiresAt && view.lastUsedAt == row.lastUsedAt
       && view.standing == row.standing && view.revokedAt == row.revokedAt && view.reason == row.revokeReason
       && view.version == row.version
  }

  lemma ProjectionShows(t: Tables, workspace: string, id: string, row: KeyRow, ownerName: string, t': Tables)
    requires id in t.keys && t.keys[id].workspace == workspace && t' == t.(keys := t.keys[id := row])
    ensures id in KeysAt(t, workspace)
    ensures ShowsKey(Project(id, KeysAt(t, workspace)[id].(row := row), ownerName), t', id)
    ensures Project(id, KeysAt(t, workspace)[id].(row := row), ownerName).ownerName == ownerName
  {
    assert id in WorkspaceRows(t, workspace);
    forall p ensures p in Named(id, t.permissions) <==> (id, p) in t.permissions {
      if (id, p) in t.permissions { assert (id, p).1 in Named(id, t.permissions); }
    }
    forall e ensures e in Named(id, t.events) <==> (id, e) in t.events {
      if (id, e) in t.events { assert (id, e).1 in Named(id, t.events); }
    }
  }

  // From any scattered reads: a revocation that commits fails no check at the state it commits at,
  // revokes exactly that row, and shows the row it stored under the name its owner was read with.
  lemma CommittedRevocationStores(
    r: Request, order: Order, parses: PinnedKey -> bool, seen: seq<Tables>, s: Tables, s': Tables)
    requires OrderIsFaithful(order) && seen != [] && Owned(seen[0])
    requires CommitsTo(KEYS, RevokeWork(r, order, parses), seen, s, s')
    ensures RefusalOf(r, s) == None && r.key in s'.keys && IsRevoked(s.keys[r.key], r, s'.keys[r.key])
    ensures s' == s.(keys := s.keys[r.key := s'.keys[r.key]])
    ensures var value := RevokeWork(r, order, parses).decide(seen).value;
            && value.Revoked? && ShowsKey(value.view, s', r.key)
            && r.key in seen[0].keys && seen[0].keys[r.key].owner in seen[0].users
            && value.view.ownerName == seen[0].users[seen[0].keys[r.key].owner]
  {
    hide Act, MayAdminister, Authorised, OrderIsFaithful, KeysAt, Project, ShowsKey;
    RevocationCommits(r, order, parses, seen, s, s');
    AuthorityIs(s, r.workspace, r.user, r.now);
    ProjectionShows(s, r.workspace, r.key, s'.keys[r.key], OwnerName(seen[0], r.key), s');
    CommitsFromThree(r, order, parses, seen);
    ReadKeyIsStored(r, order, parses, seen);
  }

  // Where it runs alone on readable keys it is refused with the first check it fails, or revokes.
  lemma RevocationAnswersExactly(r: Request, order: Order, parses: PinnedKey -> bool, s: Tables)
    requires Readable(s, r.workspace, parses)
    ensures var alone := Serial(RevokeWork(r, order, parses), s);
            && alone.Finish?
            && match RefusalOf(r, s)
               case Some(code) => alone.value == Refused(code) && alone.writes == []
               case None => alone.value.Revoked? && alone.writes == [RevokeKey(r)]
  {
    AuthorityIs(s, r.workspace, r.user, r.now);
    hide Holds, KeyGuards, AdministerGuards, AnyOverride, ManagingAssignments, Authorised, RowIsSound;
    var work := RevokeWork(r, order, parses);
    assert Repeat(s, 3) == [s, s, s];
    ReadsOfOneStateAreSerial(work, s, 0, 3);
    assert work.decide([s, s, s]) == Act(r, order, parses, [s, s, s]);
    assert RoleCount(r, s) > 0 <==> ManagingAssignments(s, r.workspace, r.user, r.now) != {};
    KeysAreTheRows(s, r.workspace);
  }

  lemma KeysAreTheRows(t: Tables, workspace: string)
    ensures forall id :: id in KeysAt(t, workspace) <==> id in t.keys && t.keys[id].workspace == workspace
    ensures forall id :: id in KeysAt(t, workspace) ==> KeysAt(t, workspace)[id].row == t.keys[id]
  {
  }
}
