// guardRoleRows, listRoles and listAssignments in d1-operator-authority.ts.
module RoleGuards {
  import opened Wrappers
  import opened AtomicBatch
  import opened RowGuards
  import opened Sets

  datatype RoleColumns = RoleColumns(
    workspace: string, name: string, description: string, presetKey: Option<string>, presetVersion: Option<int>,
    archivedAt: Option<int>)

  datatype AssignmentColumns = AssignmentColumns(
    user: string, role: string, workspace: string, scopeKind: string, event: Option<string>,
    assignedBy: Option<string>, assignedAt: int, expiresAt: Option<int>)

  // `permissions` holds (role id, permission id); `events` gives each event's workspace.
  datatype Tables = Tables(
    roles: map<string, RoleColumns>, permissions: set<(string, string)>, events: map<string, string>,
    assignments: map<string, AssignmentColumns>)

  // One row of roles LEFT JOIN role_permissions.
  datatype RoleRow = RoleRow(id: string, columns: RoleColumns, permission: Option<string>)

  // One row of role_assignments JOIN roles LEFT JOIN events.
  datatype AssignmentRow = AssignmentRow(columns: AssignmentColumns, roleWorkspace: string, eventWorkspace: Option<string>)

  datatype Guard =
    | RoleRowCount(workspace: string, n: nat)
    | RoleRowCurrent(row: RoleRow)
    | AssignmentCount(workspace: string, user: string, n: nat)
    | AssignmentCurrent(id: string, joined: AssignmentRow)

  function Granted(t: Tables, id: string): set<string> {
    set p | p in t.permissions && p.0 == id :: p.1
  }

  function RoleIds(t: Tables, workspace: string): set<string> {
    set id | id in t.roles && t.roles[id].workspace == workspace
  }

  function JoinRows(t: Tables, workspace: string): set<RoleRow> {
    (set p | p in t.permissions && p.0 in RoleIds(t, workspace) :: RoleRow(p.0, t.roles[p.0], Some(p.1)))
    + (set id | id in RoleIds(t, workspace) && Granted(t, id) == {} :: RoleRow(id, t.roles[id], None))
  }

  function BaseAssignments(t: Tables, workspace: string, user: string): set<string> {
    set id | id in t.assignments && t.assignments[id].workspace == workspace && t.assignments[id].user == user
  }

  function JoinedAssignments(t: Tables, workspace: string, user: string): map<string, AssignmentRow> {
    map id | id in BaseAssignments(t, workspace, user) && t.assignments[id].role in t.roles ::
      var a := t.assignments[id];
      AssignmentRow(a, t.roles[a.role].workspace,
                    if a.event.Some? && a.event.value in t.events then Some(t.events[a.event.value]) else None)
  }

  predicate Holds(g: Guard, t: Tables) {
    match g
    case RoleRowCount(w, n) => |JoinRows(t, w)| == n
    case RoleRowCurrent(row) => row in JoinRows(t, row.columns.workspace)
    case AssignmentCount(w, u, n) => |BaseAssignments(t, w, u)| == n
    case AssignmentCurrent(id, row) =>
      var joined := JoinedAssignments(t, row.columns.workspace, row.columns.user);
      id in joined && joined[id] == row
  }

  predicate AllHold(guards: seq<Guard>, t: Tables) {
    forall i :: 0 <= i < |guards| ==> Holds(guards[i], t)
  }

  // ---- listRoles -------------------------------------------------------------------------

  function RolePins(rows: seq<RoleRow>): seq<Guard> {
    seq(|rows|, i requires 0 <= i < |rows| => RoleRowCurrent(rows[i]))
  }

  function RoleRowGuards(workspace: string, rows: seq<RoleRow>): seq<Guard> {
    [RoleRowCount(workspace, |rows|)] + RolePins(rows)
  }

  method GuardRoleRows<W>(unitOfWork: BufferedUnitOfWork<Tables, Guard, W>, workspace: string, rows: seq<RoleRow>)
    modifies unitOfWork
    ensures unitOfWork.writes == old(unitOfWork.writes)
    ensures unitOfWork.guards == old(unitOfWork.guards) + RoleRowGuards(workspace, rows)
  {
    unitOfWork.AssertCurrent(RoleRowCount(workspace, |rows|));
    var i := 0;
    while i < |rows|
      invariant 0 <= i <= |rows| && unitOfWork.writes == old(unitOfWork.writes)
      invariant unitOfWork.guards == old(unitOfWork.guards) + [RoleRowCount(workspace, |rows|)] + RolePins(rows[..i])
    {
      unitOfWork.AssertCurrent(RoleRowCurrent(rows[i]));
      i := i + 1;
    }
    assert rows[..i] == rows;
  }

  function OfRole(id: string, rows: seq<RoleRow>): seq<RoleRow> {
    if rows == [] then []
    else OfRole(id, rows[..|rows| - 1]) + (if rows[|rows| - 1].id == id then [rows[|rows| - 1]] else [])
  }

  lemma {:induction false} OfRoleSelects(id: string, rows: seq<RoleRow>, r: RoleRow)
    ensures r in OfRole(id, rows) <==> r in rows && r.id == id
  {
    if rows != [] {
      OfRoleSelects(id, rows[..|rows| - 1], r);
      assert rows == rows[..|rows| - 1] + [rows[|rows| - 1]];
    }
  }

  predicate Grouped(groups: map<string, seq<RoleRow>>, rows: seq<RoleRow>, id: string) {
    OfRole(id, rows) == (if id in groups then groups[id] else []) && (id in groups ==> groups[id] != [])
  }

  // Every row is in the group of its role, in reading order, and there is no empty group.
  ghost predicate Groups(groups: map<string, seq<RoleRow>>, rows: seq<RoleRow>) {
    forall id :: Grouped(groups, rows, id)
  }

  lemma GroupsOneMore(groups: map<string, seq<RoleRow>>, rows: seq<RoleRow>, row: RoleRow)
    requires Groups(groups, rows)
    ensures Groups(groups[row.id := if row.id in groups then groups[row.id] + [row] else [row]], rows + [row])
  {
    var next, more := groups[row.id := if row.id in groups then groups[row.id] + [row] else [row]], rows + [row];
    assert more[..|more| - 1] == rows && more[|more| - 1] == row;
    forall id
      ensures Grouped(next, more, id)
    {
      assert Grouped(groups, rows, id);
      assert OfRole(id, more) == OfRole(id, rows) + (if row.id == id then [row] else []);
    }
  }

  method GroupRoleRows(rows: seq<RoleRow>) returns (groups: map<string, seq<RoleRow>>)
    ensures Groups(groups, rows)
  {
    groups := map[];
    var i := 0;
    while i < |rows|
      invariant 0 <= i <= |rows| && Groups(groups, rows[..i])
    {
      hide Groups;
      var row := rows[i];
      GroupsOneMore(groups, rows[..i], row);
      assert rows[..i + 1] == rows[..i] + [row];
      groups := groups[row.id := if row.id in groups then groups[row.id] + [row] else [row]];
      i := i + 1;
    }
    assert rows[..i] == rows;
  }

  // ---- The guards hold in exactly the states that show the same roles ---------------------

  datatype PinnedRole = PinnedRole(columns: RoleColumns, permissions: set<string>)

  function RolesAt(t: Tables, workspace: string): map<string, PinnedRole> {
    map id | id in RoleIds(t, workspace) :: PinnedRole(t.roles[id], Granted(t, id))
  }

  ghost predicate IsAnswer(t: Tables, workspace: string, rows: seq<RoleRow>) {
    NoRepeats(rows) && forall r :: r in rows <==> r in JoinRows(t, workspace)
  }

  // The LEFT JOIN keeps a role without permissions, so its rows tell the whole catalogue.
  lemma JoinTellsTheRoles(s: Tables, t: Tables, workspace: string)
    ensures JoinRows(s, workspace) == JoinRows(t, workspace) <==> RolesAt(s, workspace) == RolesAt(t, workspace)
  {
    if JoinRows(s, workspace) == JoinRows(t, workspace) {
      RolesFollowTheJoin(s, t, workspace);
      RolesFollowTheJoin(t, s, workspace);
      assert RolesAt(s, workspace).Keys == RolesAt(t, workspace).Keys;
      forall id | id in RolesAt(s, workspace)
        ensures RolesAt(s, workspace)[id] == RolesAt(t, workspace)[id]
      {
        assert RolesAt(s, workspace)[id].permissions == RolesAt(t, workspace)[id].permissions;
      }
    }
    if RolesAt(s, workspace) == RolesAt(t, workspace) {
      JoinFollowsTheRoles(s, t, workspace);
      JoinFollowsTheRoles(t, s, workspace);
    }
  }

  lemma RolesFollowTheJoin(s: Tables, t: Tables, workspace: string)
    requires JoinRows(s, workspace) == JoinRows(t, workspace)
    ensures forall id :: id in RolesAt(s, workspace) ==> id in RolesAt(t, workspace)
    ensures forall id :: id in RolesAt(s, workspace) && id in RolesAt(t, workspace) ==>
              RolesAt(s, workspace)[id].columns == RolesAt(t, workspace)[id].columns
              && RolesAt(s, workspace)[id].permissions <= RolesAt(t, workspace)[id].permissions
  {
    forall id | id in RoleIds(s, workspace)
      ensures id in RoleIds(t, workspace) && s.roles[id] == t.roles[id] && Granted(s, id) <= Granted(t, id)
    {
      if Granted(s, id) == {} {
        assert RoleRow(id, s.roles[id], None) in JoinRows(t, workspace);
      } else {
        forall p | p in Granted(s, id)
          ensures id in RoleIds(t, workspace) && s.roles[id] == t.roles[id] && p in Granted(t, id)
        {
          assert (id, p) in s.permissions;
          assert RoleRow(id, s.roles[id], Some(p)) in JoinRows(t, workspace);
          assert (id, p) in t.permissions;
        }
        var p :| p in Granted(s, id);
      }
    }
  }

  lemma JoinFollowsTheRoles(s: Tables, t: Tables, workspace: string)
    requires RolesAt(s, workspace) == RolesAt(t, workspace)
    ensures JoinRows(s, workspace) <= JoinRows(t, workspace)
  {
    forall row | row in JoinRows(s, workspace)
      ensures row in JoinRows(t, workspace)
    {
      assert row.id in RolesAt(s, workspace) && RolesAt(s, workspace)[row.id] == RolesAt(t, workspace)[row.id];
      assert row.id in RoleIds(t, workspace);
      if row.permission.Some? {
        assert row.permission.value in Granted(s, row.id);
        assert (row.id, row.permission.value) in t.permissions;
      }
    }
  }

  lemma RoleGuardsUnfold(workspace: string, rows: seq<RoleRow>, t: Tables)
    requires forall i :: 0 <= i < |rows| ==> rows[i].columns.workspace == workspace
    ensures AllHold(RoleRowGuards(workspace, rows), t) <==> CountAndEach(rows, JoinRows(t, workspace))
  {
    hide JoinRows;
    var guards := RoleRowGuards(workspace, rows);
    assert guards[0] == RoleRowCount(workspace, |rows|);
    assert forall i :: 0 <= i < |rows| ==> guards[i + 1] == RoleRowCurrent(rows[i]);
    if AllHold(guards, t) {
      forall i | 0 <= i < |rows|
        ensures Holds(RoleRowCurrent(rows[i]), t)
      {
        assert Holds(guards[i + 1], t);
      }
    }
    if CountAndEach(rows, JoinRows(t, workspace)) {
      forall i | 0 <= i < |guards|
        ensures Holds(guards[i], t)
      {
        if i > 0 { assert guards[i] == RoleRowCurrent(rows[i - 1]); }
      }
    }
  }

  // Row by row: the same roles of the workspace, each with the same columns and permissions.
  ghost predicate ShowTheSameRoles(s: Tables, t: Tables, workspace: string) {
    forall id ::
      && (id in t.roles && t.roles[id].workspace == workspace <==> id in s.roles && s.roles[id].workspace == workspace)
      && (id in s.roles && s.roles[id].workspace == workspace ==>
            t.roles[id] == s.roles[id] && forall p :: (id, p) in t.permissions <==> (id, p) in s.permissions)
  }

  lemma SameRolesRowByRow(s: Tables, t: Tables, workspace: string)
    ensures RolesAt(t, workspace) == RolesAt(s, workspace) <==> ShowTheSameRoles(s, t, workspace)
  {
    var now, seen := RolesAt(t, workspace), RolesAt(s, workspace);
    forall id
      ensures id in now <==> id in t.roles && t.roles[id].workspace == workspace
      ensures id in seen <==> id in s.roles && s.roles[id].workspace == workspace
      ensures id in now && id in seen ==>
                (now[id] == seen[id] <==>
                   t.roles[id] == s.roles[id] && forall p :: (id, p) in t.permissions <==> (id, p) in s.permissions)
    {
      assert forall p :: p in Granted(t, id) <==> (id, p) in t.permissions;
      assert forall p :: p in Granted(s, id) <==> (id, p) in s.permissions;
    }
    hide RolesAt;
    if ShowTheSameRoles(s, t, workspace) { assert now.Keys == seen.Keys; }
  }

  lemma GuardsPinTheRoles(s: Tables, workspace: string, rows: seq<RoleRow>, t: Tables)
    requires IsAnswer(s, workspace, rows)
    ensures AllHold(RoleRowGuards(workspace, rows), t) <==> RolesAt(t, workspace) == RolesAt(s, workspace)
    ensures AllHold(RoleRowGuards(workspace, rows), t) <==> ShowTheSameRoles(s, t, workspace)
  {
    SameRolesRowByRow(s, t, workspace);
    hide ShowTheSameRoles;
    assert forall i :: 0 <= i < |rows| ==> rows[i] in JoinRows(s, workspace);
    assert Members(rows) == JoinRows(s, workspace);
    RoleGuardsUnfold(workspace, rows, t);
    hide JoinRows, RolesAt, AllHold;
    CountAndEachDetermineTheTable(rows, JoinRows(t, workspace));
    JoinTellsTheRoles(s, t, workspace);
  }

  // ---- listAssignments --------------------------------------------------------------------

  function AssignmentPins(rows: seq<(string, AssignmentRow)>): seq<Guard> {
    seq(|rows|, i requires 0 <= i < |rows| => AssignmentCurrent(rows[i].0, rows[i].1))
  }

  predicate IsOf(t: Tables, id: string, workspace: string, user: string) {
    id in t.assignments && t.assignments[id].workspace == workspace && t.assignments[id].user == user
  }

  // Both name the same workspace for the event, or neither has it.
  predicate ShowTheSameEvent(s: Tables, t: Tables, event: Option<string>) {
    event == None || if event.value in s.events then event.value in t.events && t.events[event.value] == s.events[event.value]
                     else event.value !in t.events
  }

  // The same row, in a role of the same workspace, for the same event.
  predicate SameAssignment(s: Tables, t: Tables, id: string)
    requires id in s.assignments && id in t.assignments && s.assignments[id].role in s.roles
  {
    && t.assignments[id] == s.assignments[id] && t.assignments[id].role in t.roles
    && t.roles[t.assignments[id].role].workspace == s.roles[s.assignments[id].role].workspace
    && ShowTheSameEvent(s, t, s.assignments[id].event)
  }

  // Row by row: the user's assignments now are those that joined their role then.
  ghost predicate ShowTheSameAssignments(s: Tables, t: Tables, workspace: string, user: string) {
    forall id ::
      && (IsOf(t, id, workspace, user) <==> IsOf(s, id, workspace, user) && s.assignments[id].role in s.roles)
      && (IsOf(t, id, workspace, user) && IsOf(s, id, workspace, user) && s.assignments[id].role in s.roles ==>
            SameAssignment(s, t, id))
  }

  lemma JoinedRow(s: Tables, t: Tables, workspace: string, user: string, id: string)
    ensures id in JoinedAssignments(s, workspace, user) <==> IsOf(s, id, workspace, user) && s.assignments[id].role in s.roles
    ensures id in JoinedAssignments(t, workspace, user) <==> IsOf(t, id, workspace, user) && t.assignments[id].role in t.roles
    ensures id in BaseAssignments(t, workspace, user) <==> IsOf(t, id, workspace, user)
    ensures id in JoinedAssignments(s, workspace, user) && id in JoinedAssignments(t, workspace, user) ==>
              (JoinedAssignments(t, workspace, user)[id] == JoinedAssignments(s, workspace, user)[id] <==>
                SameAssignment(s, t, id))
  {
  }

  lemma SameAssignmentsRowByRow(s: Tables, t: Tables, workspace: string, user: string)
    ensures && JoinedAssignments(t, workspace, user) == JoinedAssignments(s, workspace, user)
            && BaseAssignments(t, workspace, user) == JoinedAssignments(t, workspace, user).Keys
            <==> ShowTheSameAssignments(s, t, workspace, user)
  {
    var now, seen := JoinedAssignments(t, workspace, user), JoinedAssignments(s, workspace, user);
    hide JoinedAssignments, BaseAssignments, ShowTheSameEvent;
    forall id
      ensures id in now <==> IsOf(t, id, workspace, user) && t.assignments[id].role in t.roles
      ensures id in seen <==> IsOf(s, id, workspace, user) && s.assignments[id].role in s.roles
      ensures id in BaseAssignments(t, workspace, user) <==> IsOf(t, id, workspace, user)
      ensures id in now && id in seen ==> (now[id] == seen[id] <==> SameAssignment(s, t, id))
    {
      JoinedRow(s, t, workspace, user, id);
    }
    if ShowTheSameAssignments(s, t, workspace, user) {
      forall id ensures id in now <==> id in seen {}
      assert now.Keys == seen.Keys;
    }
  }

  // The count runs over role_assignments alone, each EXISTS over its join with roles and events.
  // Rows are read at `s`; the guards then hold in exactly the states in which every assignment of
  // the user joins its role and the joined rows are the ones read.
  lemma GuardsPinTheAssignments(s: Tables, workspace: string, user: string, rows: seq<(string, AssignmentRow)>, t: Tables)
    requires Lists(rows, JoinedAssignments(s, workspace, user))
    ensures AllHold([AssignmentCount(workspace, user, |rows|)] + AssignmentPins(rows), t) <==>
              && JoinedAssignments(t, workspace, user) == JoinedAssignments(s, workspace, user)
              && BaseAssignments(t, workspace, user) == JoinedAssignments(t, workspace, user).Keys
    ensures AllHold([AssignmentCount(workspace, user, |rows|)] + AssignmentPins(rows), t) <==>
              ShowTheSameAssignments(s, t, workspace, user)
  {
    SameAssignmentsRowByRow(s, t, workspace, user);
    hide ShowTheSameAssignments;
    forall i | 0 <= i < |rows|
      ensures rows[i].1.columns.workspace == workspace && rows[i].1.columns.user == user
    {
      ListedRowIsStored(rows, JoinedAssignments(s, workspace, user), i);
    }
    AssignmentGuardsUnfold(workspace, user, rows, t);
    CountOfTheBaseAndEachOfTheJoin(rows, JoinedAssignments(s, workspace, user), BaseAssignments(t, workspace, user),
                                   JoinedAssignments(t, workspace, user));
  }

  lemma AssignmentGuardsUnfold(workspace: string, user: string, rows: seq<(string, AssignmentRow)>, t: Tables)
    requires forall i :: 0 <= i < |rows| ==> rows[i].1.columns.workspace == workspace && rows[i].1.columns.user == user
    ensures var joined := JoinedAssignments(t, workspace, user);
            AllHold([AssignmentCount(workspace, user, |rows|)] + AssignmentPins(rows), t) <==>
              && |BaseAssignments(t, workspace, user)| == |rows|
              && forall i :: 0 <= i < |rows| ==> rows[i].0 in joined && joined[rows[i].0] == rows[i].1
  {
    hide JoinedAssignments, BaseAssignments;
    var guards := [AssignmentCount(workspace, user, |rows|)] + AssignmentPins(rows);
    assert guards[0] == AssignmentCount(workspace, user, |rows|);
    assert forall i :: 0 <= i < |rows| ==> guards[i + 1] == AssignmentCurrent(rows[i].0, rows[i].1);
    if AllHold(guards, t) {
      assert Holds(guards[0], t);
      forall i | 0 <= i < |rows|
        ensures Holds(AssignmentCurrent(rows[i].0, rows[i].1), t)
      {
        assert Holds(guards[i + 1], t);
      }
    }
    forall i | 0 < i < |guards|
      ensures guards[i] == AssignmentCurrent(rows[i - 1].0, rows[i - 1].1)
    {
    }
  }
}
