/**
 The application's users and their roles (apps/web/lib/users.ts). A login or a role change runs as
 one transaction; changeUserRole is taken as atomic, although its count and its update are two
 statements.
 */
module Users {
  import opened Wrappers

  type UserId = string
  type TeamId = string

  datatype Role = Viewer | Manager | Admin

  datatype User = User(email: Option<string>, role: Role)

  /** The app_users table by its primary key, and the team_managers table. */
  datatype Tables = Tables(users: map<UserId, User>, managers: set<(TeamId, UserId)>)

  datatype UserError = LastAdmin | UnknownUser

  function Rank(role: Role): nat {
    match role case Viewer => 0 case Manager => 1 case Admin => 2
  }

  function EmailHolders(users: map<UserId, User>, email: string): set<UserId> {
    set id | id in users && users[id].email == Some(email)
  }

  function Admins(users: map<UserId, User>): set<UserId> {
    set id | id in users && users[id].role == Admin
  }

  predicate Holds(users: map<UserId, User>, ids: set<UserId>, role: Role) {
    exists id :: id in ids && id in users && users[id].role == role
  }

  /** The highest role among ids, viewer if there are none. */
  function BestRole(users: map<UserId, User>, ids: set<UserId>): Role {
    if Holds(users, ids, Admin) then Admin
    else if Holds(users, ids, Manager) then Manager
    else Viewer
  }

  /** The rows a new Slack id replaces: those with its email, if it comes with one. */
  function Stale(users: map<UserId, User>, email: Option<string>): set<UserId> {
    if email.Some? && email.value != "" then EmailHolders(users, email.value) else {}
  }

  function Login(t: Tables, id: UserId, email: Option<string>): Tables {
    if id in t.users then
      t.(users := t.users[id := t.users[id].(email := if email.Some? then email else t.users[id].email)])
    else
      var stale := Stale(t.users, email);
      var role :=
        if stale != {} then BestRole(t.users, stale)
        else if Admins(t.users) == {} then Admin else Viewer;
      Tables((t.users - stale)[id := User(email, role)], set m | m in t.managers && m.1 !in stale)
  }

  /** The last admin cannot be made anything less. */
  predicate Refused(t: Tables, id: UserId, role: Role) {
    id in t.users && role != Admin && Admins(t.users) == {id}
  }

  function ChangeRole(t: Tables, id: UserId, role: Role): Tables {
    if id !in t.users || Refused(t, id, role) then t
    else t.(users := t.users[id := t.users[id].(role := role)])
  }

  // ---- What the tables always are ----

  /** Nobody is locked out: users, if there are any, include an admin. Managers are users. */
  ghost predicate Safe(t: Tables) {
    && (t.users != map[] ==> Admins(t.users) != {})
    && (forall m :: m in t.managers ==> m.1 in t.users)
  }

  /** role is the highest rank held by ids. */
  ghost predicate Highest(users: map<UserId, User>, ids: set<UserId>, role: Role)
    requires ids <= users.Keys
  {
    && (forall id :: id in ids ==> Rank(users[id].role) <= Rank(role))
    && (role == Viewer || Holds(users, ids, role))
  }

  lemma HighestIsBest(users: map<UserId, User>, ids: set<UserId>, role: Role)
    requires ids <= users.Keys
    ensures Highest(users, ids, role) <==> role == BestRole(users, ids)
  {
    if Highest(users, ids, role) && Holds(users, ids, Admin) {
      var id :| id in ids && users[id].role == Admin;
      assert Rank(users[id].role) <= Rank(role);
    } else if Highest(users, ids, role) && Holds(users, ids, Manager) {
      var id :| id in ids && users[id].role == Manager;
      assert Rank(users[id].role) <= Rank(role);
    }
  }

  lemma LoginSafe(t: Tables, id: UserId, email: Option<string>)
    requires Safe(t)
    ensures Safe(Login(t, id, email)) && id in Login(t, id, email).users
  {
    var after := Login(t, id, email).users;
    if t.users == map[] {
      assert Admins(t.users) == {} && Stale(t.users, email) == {};
      assert id in Admins(after);
    } else {
      var a :| a in Admins(t.users);
      if id !in t.users && a in Stale(t.users, email) {
        assert Holds(t.users, Stale(t.users, email), Admin);
        assert id in Admins(after);
      } else {
        assert a in Admins(after);
      }
    }
  }

  lemma ChangeSafe(t: Tables, id: UserId, role: Role)
    requires Safe(t)
    ensures Safe(ChangeRole(t, id, role))
  {
    var after := ChangeRole(t, id, role).users;
    if id in t.users && !Refused(t, id, role) {
      if role == Admin {
        assert id in Admins(after);
      } else {
        var a :| a in Admins(t.users);
        var b := if a != id then a else var c :| c in Admins(t.users) && c != id; c;
        assert b in Admins(after);
      }
    }
  }

  /**
   A login under a new Slack id with a known email: the new row is the only one left with that
   email, holds the highest role held under it before, and nobody else is touched.
   */
  lemma LoginReconciles(t: Tables, id: UserId, email: string)
    requires id !in t.users && email != "" && EmailHolders(t.users, email) != {}
    ensures var after := Login(t, id, Some(email)).users;
            var stale := EmailHolders(t.users, email);
            && EmailHolders(after, email) == {id}
            && Highest(t.users, stale, after[id].role)
            && after - {id} == t.users - stale
  {
    HighestIsBest(t.users, EmailHolders(t.users, email), Login(t, id, Some(email)).users[id].role);
  }

  /**
   Someone unknown by id and by email is an admin if the table was empty and a viewer otherwise;
   nothing else changes.
   */
  lemma FirstUserIsAdmin(t: Tables, id: UserId, email: Option<string>)
    requires Safe(t) && id !in t.users && Stale(t.users, email) == {}
    ensures var after := Login(t, id, email);
            && after.users == t.users[id := User(email, if t.users == map[] then Admin else Viewer)]
            && after.managers == t.managers
  {
    if t.users == map[] {
      assert Admins(t.users) == {};
    }
  }

  /** The login of a known id keeps its role, refreshes its email if one is given, and changes nothing else. */
  lemma KnownIdKeepsRole(t: Tables, id: UserId, email: Option<string>)
    requires id in t.users
    ensures var after := Login(t, id, email);
            && after.users.Keys == t.users.Keys && after.users - {id} == t.users - {id} && after.managers == t.managers
            && after.users[id].role == t.users[id].role
            && after.users[id].email == (if email.Some? then email else t.users[id].email)
  {
  }

  /** A reconciling login takes the teams of the rows it replaces, and no others. */
  lemma ReconcilingKeepsManagers(t: Tables, id: UserId, email: Option<string>)
    ensures forall m :: m in Login(t, id, email).managers <==>
              m in t.managers && (id in t.users || email.None? || email == Some("")
                                  || m.1 !in t.users || t.users[m.1].email != email)
  {
  }

  /** A role change is refused exactly for the demotion of the last admin; otherwise it sets that one role. */
  lemma RoleChangeTakes(t: Tables, id: UserId, role: Role)
    requires id in t.users
    ensures var after := ChangeRole(t, id, role);
            var lastAdmin := t.users[id].role == Admin
                             && forall u :: u in t.users && t.users[u].role == Admin ==> u == id;
            && after.managers == t.managers
            && after.users == if lastAdmin && role != Admin then t.users else t.users[id := t.users[id].(role := role)]
  {
    if Refused(t, id, role) {
      assert id in Admins(t.users);
      assert forall u :: u in t.users && t.users[u].role == Admin ==> u in Admins(t.users);
    } else if t.users[id].role == Admin && role != Admin {
      var other :| other in Admins(t.users) && other != id;
    }
  }

  // ---- Whole histories ----

  datatype Action =
    | LoggedIn(id: UserId, email: Option<string>)
    | RoleChanged(id: UserId, role: Role)
    | ManagerAdded(team: TeamId, id: UserId)
    | ManagerRemoved(team: TeamId, id: UserId)

  function Perform(t: Tables, a: Action): Tables {
    match a
    case LoggedIn(id, email) => Login(t, id, email)
    case RoleChanged(id, role) => ChangeRole(t, id, role)
    case ManagerAdded(team, id) => if id in t.users then t.(managers := t.managers + {(team, id)}) else t
    case ManagerRemoved(team, id) => t.(managers := t.managers - {(team, id)})
  }

  function PerformAll(actions: seq<Action>): Tables {
    if actions == [] then Tables(map[], {})
    else Perform(PerformAll(actions[..|actions| - 1]), actions[|actions| - 1])
  }

  /**
   An install cannot lock itself out: after any logins and role changes the users, if there are
   any, include an admin, and every team manager is a user.
   */
  lemma {:induction false} NeverLockedOut(actions: seq<Action>)
    ensures Safe(PerformAll(actions))
  {
    if actions != [] {
      var before := actions[..|actions| - 1];
      NeverLockedOut(before);
      match actions[|actions| - 1]
      case LoggedIn(id, email) => LoginSafe(PerformAll(before), id, email);
      case RoleChanged(id, role) => ChangeSafe(PerformAll(before), id, role);
      case _ =>
    }
  }

  /** Over any history, a role only ever changes by a role change for that id. */
  lemma RolesChangeByRequest(actions: seq<Action>, n: nat, id: UserId)
    requires n < |actions|
    requires id in PerformAll(actions[..n]).users && id in PerformAll(actions[..n + 1]).users
    requires PerformAll(actions[..n + 1]).users[id].role != PerformAll(actions[..n]).users[id].role
    ensures actions[n].RoleChanged? && actions[n].id == id
    ensures PerformAll(actions[..n + 1]).users[id].role == actions[n].role
  {
    assert actions[..n + 1] == actions[..n] + [actions[n]];
    PerformSnoc(actions[..n], actions[n]);
  }

  /** Once someone has logged in there is always an admin. */
  lemma {:induction false} AdminForGood(actions: seq<Action>)
    requires exists i :: 0 <= i < |actions| && actions[i].LoggedIn?
    ensures Admins(PerformAll(actions).users) != {}
  {
    NeverLockedOut(actions);
    UsersStay(actions);
  }

  lemma {:induction false} UsersStay(actions: seq<Action>)
    requires exists i :: 0 <= i < |actions| && actions[i].LoggedIn?
    ensures PerformAll(actions).users != map[]
  {
    var n := |actions| - 1;
    var before := PerformAll(actions[..n]);
    if actions[n].LoggedIn? {
      assert actions[n].id in Login(before, actions[n].id, actions[n].email).users;
    } else {
      var i :| 0 <= i < |actions| && actions[i].LoggedIn?;
      assert actions[..n][i].LoggedIn?;
      UsersStay(actions[..n]);
      var u :| u in before.users;
      assert u in Perform(before, actions[n]).users;
    }
  }

  // ---- One row per email ----

  /** No two rows share an email. */
  ghost predicate OnePerEmail(users: map<UserId, User>) {
    forall a, b :: a in users && b in users && a != b ==> users[a].email.None? || users[a].email != users[b].email
  }

  /** A login that skips reconciliation although another row has its email: a known id, or the empty email. */
  ghost predicate Doubles(t: Tables, id: UserId, email: Option<string>) {
    && email.Some? && (id in t.users || email.value == "")
    && exists other :: other in t.users && other != id && t.users[other].email == email
  }

  /** A login leaves one row per email, if there was one, exactly unless it skips a reconciliation. */
  lemma LoginOnePerEmail(t: Tables, id: UserId, email: Option<string>)
    requires OnePerEmail(t.users)
    ensures OnePerEmail(Login(t, id, email).users) <==> !Doubles(t, id, email)
  {
    var after := Login(t, id, email).users;
    if Doubles(t, id, email) {
      var other :| other in t.users && other != id && t.users[other].email == email;
      assert other in after && after[other].email == after[id].email;
    } else {
      forall a, b | a in after && b in after && a != b
        ensures after[a].email.None? || after[a].email != after[b].email
      {
        assert a != id ==> a in t.users && after[a] == t.users[a];
        assert b != id ==> b in t.users && after[b] == t.users[b];
      }
    }
  }

  lemma OthersOnePerEmail(t: Tables, a: Action)
    requires !a.LoggedIn?
    ensures OnePerEmail(Perform(t, a).users) <==> OnePerEmail(t.users)
  {
    var after := Perform(t, a).users;
    assert after.Keys == t.users.Keys && forall id :: id in after ==> after[id].email == t.users[id].email;
  }

  /** No login of the history skipped a reconciliation. */
  ghost predicate NeverDoubles(actions: seq<Action>) {
    forall n :: 0 <= n < |actions| && actions[n].LoggedIn? ==>
      !Doubles(PerformAll(actions[..n]), actions[n].id, actions[n].email)
  }

  ghost predicate AlwaysOnePerEmail(actions: seq<Action>) {
    forall n :: 0 <= n <= |actions| ==> OnePerEmail(PerformAll(actions[..n]).users)
  }

  lemma AlwaysSnoc(before: seq<Action>, last: Action)
    ensures AlwaysOnePerEmail(before + [last])
       <==> AlwaysOnePerEmail(before) && OnePerEmail(PerformAll(before + [last]).users)
  {
    var actions := before + [last];
    assert forall m :: 0 <= m <= |before| ==> actions[..m] == before[..m];
    assert actions[..|actions|] == actions;
  }

  lemma NeverSnoc(before: seq<Action>, last: Action)
    ensures NeverDoubles(before + [last])
       <==> NeverDoubles(before) && (last.LoggedIn? ==> !Doubles(PerformAll(before), last.id, last.email))
  {
    var actions := before + [last];
    assert forall m :: 0 <= m <= |before| ==> actions[..m] == before[..m];
    assert before[..|before|] == before && actions[|before|] == last;
  }

  lemma PerformSnoc(before: seq<Action>, last: Action)
    ensures PerformAll(before + [last]) == Perform(PerformAll(before), last)
  {
    assert (before + [last])[..|before|] == before;
  }

  lemma PerformOnePerEmail(t: Tables, a: Action)
    requires OnePerEmail(t.users)
    ensures OnePerEmail(Perform(t, a).users) <==> (a.LoggedIn? ==> !Doubles(t, a.id, a.email))
  {
    if a.LoggedIn? {
      LoginOnePerEmail(t, a.id, a.email);
    } else {
      OthersOnePerEmail(t, a);
    }
  }

  lemma AlwaysNow(actions: seq<Action>)
    requires AlwaysOnePerEmail(actions)
    ensures OnePerEmail(PerformAll(actions).users)
  {
    assert actions[..|actions|] == actions;
  }

  /** A person kept a single row throughout a history if and only if no login skipped a reconciliation. */
  lemma {:induction false} SingleRowExactly(actions: seq<Action>)
    ensures AlwaysOnePerEmail(actions) <==> NeverDoubles(actions)
  {
    if actions != [] {
      var before, last := actions[..|actions| - 1], actions[|actions| - 1];
      assert actions == before + [last];
      SingleRowExactly(before);
      AlwaysSnoc(before, last);
      NeverSnoc(before, last);
      PerformSnoc(before, last);
      if AlwaysOnePerEmail(before) {
        AlwaysNow(before);
        PerformOnePerEmail(PerformAll(before), last);
      }
    }
  }

  /** Both ways are open: a known id that changes its email, and two new ids with the empty email. */
  lemma DoublingIsReachable()
    ensures !AlwaysOnePerEmail([LoggedIn("a", Some("x@y")), LoggedIn("b", None), LoggedIn("b", Some("x@y"))])
    ensures !AlwaysOnePerEmail([LoggedIn("a", Some("")), LoggedIn("b", Some(""))])
  {
    var known := [LoggedIn("a", Some("x@y")), LoggedIn("b", None), LoggedIn("b", Some("x@y"))];
    assert known[..2] == [LoggedIn("a", Some("x@y")), LoggedIn("b", None)];
    assert known[..2][..1] == [LoggedIn("a", Some("x@y"))];
    assert known[..2][..1][..0] == [];
    var one := Login(Tables(map[], {}), "a", Some("x@y"));
    assert PerformAll(known[..2][..1]) == one;
    assert PerformAll(known[..2]) == Login(one, "b", None);
    assert Doubles(PerformAll(known[..2]), "b", Some("x@y")) by {
      assert Login(one, "b", None).users["a"].email == Some("x@y");
    }
    SingleRowExactly(known);
    assert !NeverDoubles(known) by { assert known[2].LoggedIn?; }
    var empty := [LoggedIn("a", Some("")), LoggedIn("b", Some(""))];
    assert empty[..1] == [LoggedIn("a", Some(""))] && empty[..1][..0] == [];
    assert PerformAll(empty[..1]) == Login(Tables(map[], {}), "a", Some(""));
    assert Doubles(PerformAll(empty[..1]), "b", Some("")) by {
      assert PerformAll(empty[..1]).users["a"].email == Some("");
    }
    SingleRowExactly(empty);
    assert !NeverDoubles(empty) by { assert empty[1].LoggedIn?; }
  }

  /** Granting and withdrawing a team undoes itself exactly if the user did not manage it before. */
  lemma ManagerRoundTrip(t: Tables, team: TeamId, id: UserId)
    ensures var granted := Perform(t, ManagerAdded(team, id));
            && Perform(granted, ManagerAdded(team, id)) == granted
            && (Perform(granted, ManagerRemoved(team, id)) == t <==> (team, id) !in t.managers)
  {
    var granted := Perform(t, ManagerAdded(team, id));
    if (team, id) !in t.managers {
      assert granted.managers - {(team, id)} == t.managers;
    } else {
      assert (team, id) !in Perform(granted, ManagerRemoved(team, id)).managers;
    }
  }

  lemma LastOfSet(ids: set<UserId>, id: UserId)
    requires id in ids
    ensures |ids| <= 1 <==> ids == {id}
  {
    assert ids == ids - {id} + {id};
    if |ids| <= 1 {
      assert |ids - {id}| == 0;
    }
  }

  class Directory {
    var users: map<UserId, User>
    var managers: set<(TeamId, UserId)>

    ghost function View(): Tables
      reads this
    {
      Tables(users, managers)
    }

    constructor ()
      ensures View() == Tables(map[], {})
    {
      users, managers := map[], {};
    }

    /** The reduce over the rows with one email. */
    method ReduceRole(ids: set<UserId>) returns (best: Role)
      requires ids <= users.Keys
      ensures best == BestRole(users, ids)
    {
      best := Viewer;
      var rest := ids;
      while rest != {}
        invariant rest <= ids
        invariant Highest(users, ids - rest, best)
        decreases |rest|
      {
        var id :| id in rest;
        assert ids - (rest - {id}) == ids - rest + {id};
        rest := rest - {id};
        if Rank(users[id].role) > Rank(best) {
          best := users[id].role;
        }
      }
      assert ids - rest == ids;
      HighestIsBest(users, ids, best);
    }

    /** DELETE, and its cascade into team_managers. */
    method DeleteUsers(ids: set<UserId>)
      modifies this
      ensures View() == Tables(old(users) - ids, set m | m in old(managers) && m.1 !in ids)
    {
      users := users - ids;
      managers := set m | m in managers && m.1 !in ids;
    }

    method ProvisionUserOnLogin(id: UserId, email: Option<string>)
      modifies this
      ensures View() == Login(old(View()), id, email)
    {
      if id in users {
        users := users[id := users[id].(email := if email.Some? then email else users[id].email)];
        return;
      }
      var role := Viewer;
      var reconciled := false;
      if email.Some? && email.value != "" {
        var sameEmail := EmailHolders(users, email.value);
        if |sameEmail| > 0 {
          reconciled := true;
          role := ReduceRole(sameEmail);
          DeleteUsers(sameEmail);
        }
      }
      if !reconciled {
        assert Stale(old(users), email) == {};
        assert users - {} == users && (set m | m in managers && m.1 !in {}) == managers;
        if |Admins(users)| == 0 {
          role := Admin;
        }
      }
      users := users[id := User(email, role)];
    }

    method ChangeUserRole(id: UserId, role: Role) returns (r: Result<(), UserError>)
      modifies this
      ensures View() == ChangeRole(old(View()), id, role)
      ensures r == if Refused(old(View()), id, role) then Failure(LastAdmin) else Success(())
    {
      if id in users && users[id].role == Admin && role != Admin {
        LastOfSet(Admins(users), id);
        if |Admins(users)| <= 1 {
          return Failure(LastAdmin);
        }
      }
      assert Refused(View(), id, role) ==> id in Admins(users);
      if id in users {
        users := users[id := users[id].(role := role)];
      }
      r := Success(());
    }

    /** INSERT .. ON CONFLICT DO NOTHING; the foreign key refuses an unknown user. */
    method AddTeamManager(team: TeamId, id: UserId) returns (r: Result<(), UserError>)
      modifies this`managers
      ensures View() == Perform(old(View()), ManagerAdded(team, id))
      ensures r.Success? <==> id in users
    {
      if id !in users {
        return Failure(UnknownUser);
      }
      managers := managers + {(team, id)};
      r := Success(());
    }

    method RemoveTeamManager(team: TeamId, id: UserId)
      modifies this`managers
      ensures View() == Perform(old(View()), ManagerRemoved(team, id))
      ensures (team, id) !in managers
      ensures forall m :: m != (team, id) ==> (m in managers <==> m in old(managers))
    {
      managers := managers - {(team, id)};
    }
  }
}
