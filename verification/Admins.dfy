/**
 Who is a platform administrator, and the guard that keeps one
 (incuscloud/server/src/acl/admins.ts and its call sites).
 */
module Admins {
  import opened Text
  import opened Catalog
  import opened Paths
  import opened Resolve
  import opened Acl
  import opened Load

  /** One reason a user is an administrator; a user may have several. */
  datatype AdminHold = ByRole(userId: string) | ByEntry(userId: string, entryId: string)

  predicate Enabled(t: Tables, userId: string) {
    exists u :: u in t.people && u.id == userId && !u.disabled
  }

  predicate OnRoot(r: EntryRow, userId: string, role: RoleId) {
    r.path == "/" && r.role == Some(role) && r.userId == Some(userId)
  }

  /** An own No access on `/` outweighs whatever else the user has there. */
  predicate Fences(t: Tables, userId: string) {
    exists r :: r in t.explicit && OnRoot(r, userId, NoAccess)
  }

  predicate Counts(t: Tables, userId: string) {
    Enabled(t, userId) && !Fences(t, userId)
  }

  function RoleHolds(t: Tables, rows: seq<PlatformRoleRow>): (holds: seq<AdminHold>)
    ensures forall h :: h in holds <==> h.ByRole? && PlatformRoleRow(h.userId, "admin") in rows && Counts(t, h.userId)
  {
    if rows == [] then []
    else
      assert rows == [rows[0]] + rows[1..];
      (if rows[0].role == "admin" && Counts(t, rows[0].userId) then [ByRole(rows[0].userId)] else [])
        + RoleHolds(t, rows[1..])
  }

  function EntryHolds(t: Tables, rows: seq<EntryRow>): (holds: seq<AdminHold>)
    ensures forall h :: h in holds <==>
      h.ByEntry? && Counts(t, h.userId)
        && exists r :: r in rows && OnRoot(r, h.userId, Administrator) && r.id == h.entryId
  {
    if rows == [] then []
    else
      var r := rows[0];
      assert rows == [r] + rows[1..];
      (if r.userId.Some? && OnRoot(r, r.userId.value, Administrator) && Counts(t, r.userId.value)
       then [ByEntry(r.userId.value, r.id)] else [])
      + EntryHolds(t, rows[1..])
  }

  function Administrators(t: Tables): seq<AdminHold> {
    RoleHolds(t, t.roles) + EntryHolds(t, t.explicit)
  }

  ghost predicate Listed(t: Tables, userId: string) {
    exists h :: h in Administrators(t) && h.userId == userId
  }

  /** The entries of a user on `/`: its explicit ones and its platform role. */
  lemma UserEntriesOnRoot(t: Tables, e: Entry, userId: string)
    requires EntryFrom(t, e) && e.path == "/" && e.subject == "user:" + userId
    ensures (exists r :: r in t.explicit && OnRoot(r, userId, e.role))
         || (exists r :: r in t.roles && r.userId == userId && PlatformRole(r.role) == Some(e.role))
  {
    var subject := "user:" + userId;
    assert subject[5..] == userId && subject[0] == 'u';
    forall m | m in t.members
      ensures e !in MemberEntry(m)
    {
      assert |"/tenants/" + m.slug| > 1;
    }
    forall a | a in t.accounts
      ensures e !in AccountEntry(a)
    {
      assert ("service:" + a.id)[0] == 's';
    }
    if r :| r in t.explicit && e in ExplicitEntry(r) {
      SubjectIsUser(r, userId);
      assert OnRoot(r, userId, e.role);
    } else if r :| r in t.roles && e in RoleEntry(r) {
      assert ("user:" + r.userId)[5..] == r.userId;
    }
  }

  lemma SubjectIsUser(r: EntryRow, userId: string)
    requires EntrySubject(r) == "user:" + userId
    ensures r.userId == Some(userId)
  {
    assert ("user:" + userId)[5..] == userId && ("user:" + userId)[0] == 'u';
    assert EntrySubject(r)[0] == 'u';
    assert r.userId.Some? ==> ("user:" + r.userId.value)[5..] == r.userId.value;
  }

  lemma ExplicitOnRoot(t: Tables, r: EntryRow, userId: string, role: RoleId) returns (e: Entry)
    requires r in t.explicit && OnRoot(r, userId, role)
    ensures EntryFrom(t, e) && e.path == "/" && e.subject == "user:" + userId && e.role == role
  {
    e := Entry(r.id, r.path, EntrySubject(r), role, r.propagate, AclSource);
    assert e in ExplicitEntry(r);
  }

  lemma RoleOnRoot(t: Tables, userId: string) returns (e: Entry)
    requires PlatformRoleRow(userId, "admin") in t.roles
    ensures EntryFrom(t, e) && e.path == "/" && e.subject == "user:" + userId && e.role == Administrator
  {
    e := Entry("platform-role:" + userId, "/", "user:" + userId, Administrator, true, PlatformRoleSource);
    assert e in RoleEntry(PlatformRoleRow(userId, "admin"));
  }

  /** A subject's own entry on `/`. */
  predicate OwnRoot(s: Acl.Snapshot, e: Entry, subject: string) {
    e in s.entries && e.path == "/" && e.subject == subject
  }

  /** An entry on `/` of one of its groups. */
  predicate GroupRoot(s: Acl.Snapshot, e: Entry, subject: string) {
    e in s.entries && e.path == "/" && e.subject in Lookup(s.groupsOf, subject)
  }

  /** What the groups' entries on `/` combine to holds the privilege. */
  ghost predicate GroupsGive(s: Acl.Snapshot, subject: string, p: Privilege) {
    && (forall e :: GroupRoot(s, e, subject) ==> e.role != NoAccess)
    && exists e :: GroupRoot(s, e, subject) && Gives(e.role, p)
  }

  /** The same of its own entries. */
  ghost predicate OwnGive(s: Acl.Snapshot, subject: string, p: Privilege) {
    && (forall e :: OwnRoot(s, e, subject) ==> e.role != NoAccess)
    && exists e :: OwnRoot(s, e, subject) && Gives(e.role, p)
  }

  /** On `/` a subject's own entries decide alone when there are any, and its groups' otherwise. */
  lemma RootDecision(s: Acl.Snapshot, subject: string, p: Privilege)
    requires Indexed(s) && subject !in s.disabled
    requires forall role :: !GivesOwner(role, p)
    ensures p in Decided(s, subject, "/").privileges
      <==> if exists e :: OwnRoot(s, e, subject) then OwnGive(s, subject, p) else GroupsGive(s, subject, p)
  {
    hide Level, Combined, Gives, Decided, OwnRoot, GroupRoot;
    var here := Level(KeysOf(s, subject), s.byPath, "/", true);
    RootLevel(s, subject);
    RootIsOneLevel(s, subject);
    RolesGive(here, Owned(s, subject, "/", None), p);
  }

  lemma RootIsOneLevel(s: Acl.Snapshot, subject: string)
    requires subject !in s.disabled
    ensures Decided(s, subject, "/").privileges
         == Combined(Level(KeysOf(s, subject), s.byPath, "/", true), Owned(s, subject, "/", None))
  {
    hide Level, Combined, ResolveFrom;
    ResolveOne(KeysOf(s, subject), s.byPath, "/", true, Owned(s, subject, "/", None));
    assert Parse("/") == Some(Root) && Chain(Root, s.tenantOf) == ["/"];
    assert Sides(s, Root, "/") == [];
  }

  /** Without ownership in play, a level gives what its roles give, unless it is fenced. */
  lemma RolesGive(here: seq<Entry>, owned: bool, p: Privilege)
    requires forall role :: !GivesOwner(role, p)
    ensures p in Combined(here, owned)
      <==> (forall e :: e in here ==> e.role != NoAccess) && exists e :: e in here && Gives(e.role, p)
  {
    assert forall e :: p in Granted(e, owned) <==> Gives(e.role, p);
  }

  lemma RootLevel(s: Acl.Snapshot, subject: string)
    requires Indexed(s)
    ensures forall e ::
      e in Level(KeysOf(s, subject), s.byPath, "/", true)
      <==> if exists o :: OwnRoot(s, o, subject) then OwnRoot(s, e, subject) else GroupRoot(s, e, subject)
  {
    var keys := KeysOf(s, subject);
    var matching := Matching(Lookup(s.byPath, "/"), keys, true);
    forall e
      ensures e in matching <==> OwnRoot(s, e, subject) || GroupRoot(s, e, subject)
    {
      assert e.subject in keys <==> e.subject == subject || e.subject in Lookup(s.groupsOf, subject);
    }
    var own := OfSubject(matching, subject);
    assert forall e :: e in own <==> OwnRoot(s, e, subject);
    assert own != [] ==> own[0] in own;
  }

  lemma UsersFromAdministrators()
    ensures forall role :: Gives(role, PLATFORM_USERS) <==> role == Administrator
    ensures forall role :: !GivesOwner(role, PLATFORM_USERS)
  {
    forall role
      ensures Gives(role, PLATFORM_USERS) <==> role == Administrator
      ensures !GivesOwner(role, PLATFORM_USERS)
    {
      OnlyAdministratorsManageUsers(role);
    }
  }

  /**
   For a known user, being listed and managing users by the decision on `/`
   agree exactly when the user is disabled, has an entry of its own there, or
   its groups' entries there do not give it: the list does not look at groups.
   */
  lemma ListedIffManagesUsers(t: Tables, s: Acl.Snapshot, userId: string)
    requires SnapshotOf(t, s)
    requires forall u, v :: u in t.people && v in t.people && u.id == v.id ==> u == v
    requires exists u :: u in t.people && u.id == userId
    ensures (Listed(t, userId) <==> PLATFORM_USERS in Decided(s, "user:" + userId, "/").privileges)
      <==>
      || !Enabled(t, userId)
      || (exists e :: OwnRoot(s, e, "user:" + userId))
      || !GroupsGive(s, "user:" + userId, PLATFORM_USERS)
  {
    hide Enabled, Fences, Coherent;
    var subject := "user:" + userId;
    DisabledIffNotEnabled(t, userId);
    if subject in s.disabled {
      assert !Enabled(t, userId);
      NotListed(t, userId);
    } else {
      assert Enabled(t, userId);
      IndexedByLoading(t, s);
      UsersFromAdministrators();
      RootDecision(s, subject, PLATFORM_USERS);
      ListedIffOwnGive(t, s, userId);
    }
  }

  lemma IndexedByLoading(t: Tables, s: Acl.Snapshot)
    requires SnapshotOf(t, s)
    ensures Indexed(s)
  {
  }

  lemma NotListed(t: Tables, userId: string)
    requires !Enabled(t, userId)
    ensures !Listed(t, userId)
  {
  }

  lemma ListedIffOwnGive(t: Tables, s: Acl.Snapshot, userId: string)
    requires SnapshotOf(t, s) && Enabled(t, userId)
    ensures Listed(t, userId) <==> OwnGive(s, "user:" + userId, PLATFORM_USERS)
  {
    hide Fences, Listed, SnapshotOf;
    UsersFromAdministrators();
    FencedIffNoAccess(t, s, userId);
    ListedIffAdministrator(t, s, userId);
    var subject := "user:" + userId;
    if e :| OwnRoot(s, e, subject) && e.role == Administrator {
      assert e in s.entries && e.path == "/" && e.subject == subject;
    }
    if e :| e in s.entries && e.path == "/" && e.subject == subject && e.role == Administrator {
      assert OwnRoot(s, e, subject);
    }
    if e :| e in s.entries && e.path == "/" && e.subject == subject && e.role == NoAccess {
      assert OwnRoot(s, e, subject);
    }
  }

  /** So where no group has an entry on `/`, the list and the decision always agree. */
  lemma ListedWithoutGroups(t: Tables, s: Acl.Snapshot, userId: string)
    requires SnapshotOf(t, s)
    requires forall u, v :: u in t.people && v in t.people && u.id == v.id ==> u == v
    requires exists u :: u in t.people && u.id == userId
    requires forall e :: !GroupRoot(s, e, "user:" + userId)
    ensures Listed(t, userId) <==> PLATFORM_USERS in Decided(s, "user:" + userId, "/").privileges
  {
    ListedIffManagesUsers(t, s, userId);
  }

  lemma DisabledIffNotEnabled(t: Tables, userId: string)
    requires forall u, v :: u in t.people && v in t.people && u.id == v.id ==> u == v
    requires exists u :: u in t.people && u.id == userId
    ensures "user:" + userId in DisabledOf(t) <==> !Enabled(t, userId)
  {
    var subject := "user:" + userId;
    assert subject[5..] == userId && subject[0] == 'u';
    var u :| u in t.people && u.id == userId;
    forall a | a in t.accounts
      ensures subject != "service:" + a.id
    {
      assert ("service:" + a.id)[0] == 's';
    }
    if v :| v in t.people && v.disabled && subject == "user:" + v.id {
      assert ("user:" + v.id)[5..] == v.id;
    }
  }

  lemma FencedIffNoAccess(t: Tables, s: Acl.Snapshot, userId: string)
    requires SnapshotOf(t, s)
    ensures Fences(t, userId)
      <==> exists e :: e in s.entries && e.path == "/" && e.subject == "user:" + userId && e.role == NoAccess
  {
    hide OnRoot, Counts, EntryFrom, Coherent, DisabledOf, InGroup;
    if r :| r in t.explicit && OnRoot(r, userId, NoAccess) {
      var e := ExplicitOnRoot(t, r, userId, NoAccess);
    }
    if e :| e in s.entries && e.path == "/" && e.subject == "user:" + userId && e.role == NoAccess {
      UserEntriesOnRoot(t, e, userId);
    }
  }

  lemma ListedIffAdministrator(t: Tables, s: Acl.Snapshot, userId: string)
    requires SnapshotOf(t, s) && Enabled(t, userId)
    ensures Listed(t, userId)
      <==>
      && !Fences(t, userId)
      && exists e :: e in s.entries && e.path == "/" && e.subject == "user:" + userId && e.role == Administrator
  {
    if Listed(t, userId) {
      var h :| h in Administrators(t) && h.userId == userId;
      if h.ByRole? {
        var e := RoleOnRoot(t, userId);
      } else {
        var r :| r in t.explicit && OnRoot(r, userId, Administrator) && r.id == h.entryId;
        var e := ExplicitOnRoot(t, r, userId, Administrator);
      }
    }
    if !Fences(t, userId) {
      if e :| e in s.entries && e.path == "/" && e.subject == "user:" + userId && e.role == Administrator {
        UserEntriesOnRoot(t, e, userId);
        AdministratorEntryLists(t, userId);
      }
    }
  }

  lemma AdministratorEntryLists(t: Tables, userId: string)
    requires Counts(t, userId)
    requires (exists r :: r in t.explicit && OnRoot(r, userId, Administrator))
          || (exists r :: r in t.roles && r.userId == userId && PlatformRole(r.role) == Some(Administrator))
    ensures Listed(t, userId)
  {
    if r :| r in t.explicit && OnRoot(r, userId, Administrator) {
      assert ByEntry(userId, r.id) in Administrators(t);
    } else {
      assert ByRole(userId) in Administrators(t);
    }
  }

  /** The changes that can cost an administrator, as the routes make them; an update knows the role it loaded. */
  datatype Change =
    | UpdateUser(userId: string, disabled: Option<bool>, platformRole: Option<Option<string>>, loaded: Option<string>)
    | DeleteUser(userId: string)
    | DenyOnRoot(row: EntryRow)        // a No access entry for a user on `/`
    | RemoveEntry(entryId: string)

  /** The holds each change drops, as its route tells the guard. */
  predicate Lost(c: Change, h: AdminHold) {
    match c
    case UpdateUser(u, disabled, role, _) =>
      h.userId == u && (disabled == Some(true) || (h.ByRole? && role.Some? && role != Some(Some("admin"))))
    case DeleteUser(u) => h.userId == u
    case DenyOnRoot(row) => row.userId == Some(h.userId)
    case RemoveEntry(id) => h.ByEntry? && h.entryId == id
  }

  /** The holds it does drop: an update whose role is the loaded one leaves the role alone. */
  predicate Drops(c: Change, h: AdminHold) {
    Lost(c, h) && (c.UpdateUser? && c.disabled != Some(true) ==> c.platformRole.value != c.loaded)
  }

  /** What was loaded is what the table says. */
  ghost predicate LoadedFrom(t: Tables, c: Change) {
    c.UpdateUser? ==>
      forall r :: r in t.roles && r.userId == c.userId ==> c.loaded == Some(r.role)
  }

  /** keepAnAdministrator: refuse when holds are lost and none is left. */
  ghost predicate Guarded(t: Tables, c: Change) {
    (exists h :: h in Administrators(t) && Lost(c, h)) ==> exists h :: h in Administrators(t) && !Lost(c, h)
  }

  function WithoutUser(rows: seq<UserRow>, id: string): (out: seq<UserRow>)
    ensures forall r :: r in out <==> r in rows && r.id != id
  {
    if rows == [] then []
    else
      assert rows == [rows[0]] + rows[1..];
      (if rows[0].id != id then [rows[0]] else []) + WithoutUser(rows[1..], id)
  }

  function SetDisabled(rows: seq<UserRow>, id: string, disabled: bool): (out: seq<UserRow>)
    ensures forall r :: r in out <==> exists q :: q in rows && r == if q.id == id then q.(disabled := disabled) else q
  {
    if rows == [] then []
    else
      assert rows == [rows[0]] + rows[1..];
      [if rows[0].id == id then rows[0].(disabled := disabled) else rows[0]] + SetDisabled(rows[1..], id, disabled)
  }

  function WithoutRole(rows: seq<PlatformRoleRow>, id: string): (out: seq<PlatformRoleRow>)
    ensures forall r :: r in out <==> r in rows && r.userId != id
  {
    if rows == [] then []
    else
      assert rows == [rows[0]] + rows[1..];
      (if rows[0].userId != id then [rows[0]] else []) + WithoutRole(rows[1..], id)
  }

  function WithoutEntriesOf(rows: seq<EntryRow>, userId: string): (out: seq<EntryRow>)
    ensures forall r :: r in out <==> r in rows && r.userId != Some(userId)
  {
    if rows == [] then []
    else
      assert rows == [rows[0]] + rows[1..];
      (if rows[0].userId != Some(userId) then [rows[0]] else []) + WithoutEntriesOf(rows[1..], userId)
  }

  function WithoutEntry(rows: seq<EntryRow>, id: string): (out: seq<EntryRow>)
    ensures forall r :: r in out <==> r in rows && r.id != id
  {
    if rows == [] then []
    else
      assert rows == [rows[0]] + rows[1..];
      (if rows[0].id != id then [rows[0]] else []) + WithoutEntry(rows[1..], id)
  }

  predicate Known(t: Tables, userId: string) {
    exists u :: u in t.people && u.id == userId
  }

  function NewRole(userId: string, role: Option<string>): seq<PlatformRoleRow> {
    if role.Some? then [PlatformRoleRow(userId, role.value)] else []
  }

  /**
   The tables after the change; deleting a user takes its role and entries
   along. Nothing can be written for a user that is gone.
   */
  function Apply(t: Tables, c: Change): Tables {
    match c
    case UpdateUser(u, disabled, role, loaded) =>
      if !Known(t, u) then t
      else
        t.(people := if disabled.Some? then SetDisabled(t.people, u, disabled.value) else t.people,
           roles := if role.None? || role.value == loaded then t.roles
                    else WithoutRole(t.roles, u) + NewRole(u, role.value))
    case DeleteUser(u) =>
      t.(people := WithoutUser(t.people, u), roles := WithoutRole(t.roles, u),
         explicit := WithoutEntriesOf(t.explicit, u))
    case DenyOnRoot(row) =>
      if row.userId.Some? && Known(t, row.userId.value) then t.(explicit := t.explicit + [row]) else t
    case RemoveEntry(id) => t.(explicit := WithoutEntry(t.explicit, id))
  }

  /** Of a deleted user no row is left that an administrator could be made of again, and of nobody else one is gone. */
  lemma DeletedLeavesNothing(t: Tables, userId: string)
    ensures var after := Apply(t, DeleteUser(userId));
      && !Known(after, userId)
      && (forall r :: r in after.roles <==> r in t.roles && r.userId != userId)
      && (forall r :: r in after.explicit <==> r in t.explicit && r.userId != Some(userId))
      && (forall u :: u in after.people <==> u in t.people && u.id != userId)
  {
  }

  /** A user has the one role it was last given. */
  lemma UpdateGivesOneRole(t: Tables, userId: string, role: Option<string>, loaded: Option<string>)
    requires Known(t, userId) && role != loaded
    ensures var after := Apply(t, UpdateUser(userId, None, Some(role), loaded));
      && (forall r :: r in after.roles <==>
            if r.userId == userId then role == Some(r.role) else r in t.roles)
      && after.people == t.people && after.explicit == t.explicit
  {
  }

  ghost predicate ValidChange(c: Change) {
    c.DenyOnRoot? ==> c.row.userId.Some? && OnRoot(c.row, c.row.userId.value, NoAccess)
  }

  ghost predicate OneRowPerId(t: Tables) {
    forall a, b :: a in t.explicit && b in t.explicit && a.id == b.id ==> a == b
  }

  /** A hold that is not dropped is still one after the change. */
  lemma KeptHold(t: Tables, c: Change, h: AdminHold)
    requires ValidChange(c) && h in Administrators(t) && !Drops(c, h)
    ensures h in Administrators(Apply(t, c))
  {
    hide Enabled, Fences, SetDisabled;
    var after := Apply(t, c);
    StaysEnabled(t, c, h);
    StaysUnfenced(t, c, h);
    assert Counts(after, h.userId);
    if h.ByEntry? {
      var r :| r in t.explicit && OnRoot(r, h.userId, Administrator) && r.id == h.entryId;
      assert r in after.explicit;
    }
  }

  lemma StaysUnfenced(t: Tables, c: Change, h: AdminHold)
    requires ValidChange(c) && h in Administrators(t) && !Drops(c, h)
    ensures !Fences(Apply(t, c), h.userId)
  {
    assert !Fences(t, h.userId);
  }

  lemma StaysEnabled(t: Tables, c: Change, h: AdminHold)
    requires h in Administrators(t) && !Drops(c, h)
    ensures Enabled(Apply(t, c), h.userId)
  {
    var u :| u in t.people && u.id == h.userId && !u.disabled;
    match c
    case UpdateUser(id, disabled, role, _) =>
      if disabled.Some? {
        var v := if u.id == id then u.(disabled := disabled.value) else u;
        assert Known(t, id) ==> v in Apply(t, c).people && v.id == h.userId && !v.disabled;
      }
    case DeleteUser(id) => assert u in Apply(t, c).people;
    case _ => assert u in Apply(t, c).people;
  }

  /** A change that drops a hold makes no new one: what remains was there and is not dropped. */
  lemma RemainingHold(t: Tables, c: Change, dropped: AdminHold, h: AdminHold)
    requires ValidChange(c) && OneRowPerId(t)
    requires dropped in Administrators(t) && Drops(c, dropped)
    requires h in Administrators(Apply(t, c))
    ensures h in Administrators(t) && !Drops(c, h)
  {
    hide Enabled, Fences;
    match c
    case UpdateUser(u, disabled, role, loaded) => RemainingAfterUpdate(t, c, dropped, h);
    case RemoveEntry(id) => RemainingAfterRemoval(t, id, dropped, h);
    case DeleteUser(u) => RemainingAfterDeletion(t, u, h);
    case DenyOnRoot(row) => RemainingAfterDenial(t, row, dropped, h);
  }

  lemma RemainingAfterDeletion(t: Tables, u: string, h: AdminHold)
    requires h in Administrators(Apply(t, DeleteUser(u)))
    ensures h in Administrators(t) && !Drops(DeleteUser(u), h)
  {
    var after := Apply(t, DeleteUser(u));
    assert h.userId != u && Enabled(t, h.userId);
    assert forall r :: r in t.explicit && OnRoot(r, h.userId, NoAccess) ==> r in after.explicit;
  }

  lemma RemainingAfterDenial(t: Tables, row: EntryRow, dropped: AdminHold, h: AdminHold)
    requires ValidChange(DenyOnRoot(row))
    requires dropped in Administrators(t) && Drops(DenyOnRoot(row), dropped)
    requires h in Administrators(Apply(t, DenyOnRoot(row)))
    ensures h in Administrators(t) && !Drops(DenyOnRoot(row), h)
  {
    var after := Apply(t, DenyOnRoot(row));
    assert Known(t, dropped.userId) && after.explicit == t.explicit + [row];
    assert row in after.explicit && OnRoot(row, row.userId.value, NoAccess);
    assert forall r :: r in t.explicit ==> r in after.explicit;
    assert Counts(after, h.userId);
    assert h.userId != row.userId.value;
    assert Enabled(t, h.userId);
    if h.ByEntry? {
      var r :| r in after.explicit && OnRoot(r, h.userId, Administrator) && r.id == h.entryId;
      assert r in t.explicit;
    }
  }

  lemma RemainingAfterUpdate(t: Tables, c: Change, dropped: AdminHold, h: AdminHold)
    requires c.UpdateUser? && dropped in Administrators(t) && Drops(c, dropped)
    requires h in Administrators(Apply(t, c))
    ensures h in Administrators(t) && !Drops(c, h)
  {
    var after := Apply(t, c);
    assert Counts(after, h.userId) && Counts(t, dropped.userId);
    assert Known(t, c.userId);
    EnabledBefore(t, c, h.userId);
    assert Fences(t, h.userId) == Fences(after, h.userId);
    NotDisabledAfter(t, c);
    hide Enabled, Fences, SetDisabled, Known;
    if h.ByRole? {
      assert PlatformRoleRow(h.userId, "admin") in after.roles;
    }
  }

  lemma EnabledBefore(t: Tables, c: Change, userId: string)
    requires c.UpdateUser? && Enabled(Apply(t, c), userId)
    ensures Enabled(t, userId) || userId == c.userId
  {
    var after := Apply(t, c);
    var v :| v in after.people && v.id == userId && !v.disabled;
  }

  lemma NotDisabledAfter(t: Tables, c: Change)
    requires c.UpdateUser?
    ensures c.disabled == Some(true) ==> !Enabled(Apply(t, c), c.userId)
  {
  }

  lemma RemainingAfterRemoval(t: Tables, id: string, dropped: AdminHold, h: AdminHold)
    requires OneRowPerId(t)
    requires dropped in Administrators(t) && Drops(RemoveEntry(id), dropped)
    requires h in Administrators(Apply(t, RemoveEntry(id)))
    ensures h in Administrators(t) && !Drops(RemoveEntry(id), h)
  {
    var after := Apply(t, RemoveEntry(id));
    var gone :| gone in t.explicit && OnRoot(gone, dropped.userId, Administrator) && gone.id == id;
    assert forall r :: r in t.explicit && OnRoot(r, h.userId, NoAccess) ==> r in after.explicit;
    assert Counts(t, h.userId);
  }

  /** Some administrator would be left by the change. */
  ghost predicate Leaves(t: Tables, c: Change) {
    exists h :: h in Administrators(t) && !Drops(c, h)
  }

  /**
   Whatever a guard saw earlier, a change leaves an administrator exactly when
   the tables it meets hold one that it does not drop.
   */
  lemma ChangeLeavesIff(t: Tables, c: Change)
    requires ValidChange(c) && OneRowPerId(t) && Administrators(t) != []
    ensures Administrators(Apply(t, c)) != [] <==> Leaves(t, c)
  {
    hide Apply, Drops;
    var after := Administrators(Apply(t, c));
    assert Administrators(t)[0] in Administrators(t);
    if Leaves(t, c) {
      var h :| h in Administrators(t) && !Drops(c, h);
      KeptHold(t, c, h);
    } else if after != [] {
      assert after[0] in after;
      RemainingHold(t, c, Administrators(t)[0], after[0]);
    }
  }

  /** On the tables it reads the guard is exact, when the loaded role is theirs. */
  lemma GuardIsExact(t: Tables, c: Change)
    requires ValidChange(c) && OneRowPerId(t) && LoadedFrom(t, c) && Administrators(t) != []
    ensures Guarded(t, c) <==> Administrators(Apply(t, c)) != []
  {
    hide Apply;
    ChangeLeavesIff(t, c);
    LostIsDropped(t, c);
    assert Administrators(t)[0] in Administrators(t);
  }

  lemma LostIsDropped(t: Tables, c: Change)
    requires LoadedFrom(t, c)
    ensures forall h :: h in Administrators(t) ==> (Lost(c, h) <==> Drops(c, h))
  {
  }

  // ----- Requests that overlap -----

  datatype Phase = Reading | Passed | Over

  /**
   A guarded change under way: the tables it arrived at, the tables as each of
   the guard's three queries read them, and how far it is.
   */
  datatype Request = Request(change: Change, arrived: Tables, roles: Option<Tables>, entries: Option<Tables>,
      fences: Option<Tables>, phase: Phase)

  datatype State = State(tables: Tables, requests: seq<Request>)

  /** The steps are the awaited statements; `Elsewhere` is any other write, `GiveUp` a request that fails. */
  datatype Step =
    | Arrive(change: Change)
    | ReadRoles(i: nat)
    | ReadEntries(i: nat)
    | ReadFences(i: nat)
    | Judge(i: nat)
    | Write(i: nat)
    | GiveUp(i: nat)
    | Elsewhere(after: Tables)

  ghost predicate SeesRole(t: Tables, userId: string) {
    PlatformRoleRow(userId, "admin") in t.roles && Enabled(t, userId)
  }

  ghost predicate SeesEntry(t: Tables, userId: string, id: string) {
    Enabled(t, userId) && exists r :: r in t.explicit && OnRoot(r, userId, Administrator) && r.id == id
  }

  predicate HasRead(r: Request) {
    r.roles.Some? && r.entries.Some? && r.fences.Some?
  }

  /** A hold the three queries together show. */
  ghost predicate Shown(r: Request, h: AdminHold)
    requires HasRead(r)
  {
    && (if h.ByRole? then SeesRole(r.roles.value, h.userId) else SeesEntry(r.entries.value, h.userId, h.entryId))
    && !Fences(r.fences.value, h.userId)
  }

  /** keepAnAdministrator on what the queries showed. */
  ghost predicate Passes(r: Request)
    requires HasRead(r)
  {
    (exists h :: Shown(r, h) && Lost(r.change, h)) ==> exists h :: Shown(r, h) && !Lost(r.change, h)
  }

  /** Other routes add users, roles and entries, and neither take these away nor put No access on `/`. */
  ghost predicate Grows(t: Tables, after: Tables) {
    Grew(t, after) && OneRowPerId(after)
  }

  ghost predicate Grew(t: Tables, after: Tables) {
    && (forall u :: u in t.people ==> u in after.people)
    && (forall r :: r in t.roles ==> r in after.roles)
    && (forall r :: r in t.explicit && r.path == "/" ==> r in after.explicit)
    && (forall u :: Fences(after, u) ==> Fences(t, u))
  }

  predicate Busy(s: State, i: nat, phase: Phase) {
    i < |s.requests| && s.requests[i].phase == phase
  }

  function With(s: State, i: nat, r: Request): State
    requires i < |s.requests|
  {
    s.(requests := s.requests[i := r])
  }

  predicate TakenId(t: Tables, c: Change) {
    c.DenyOnRoot? && exists r :: r in t.explicit && r.id == c.row.id
  }

  ghost function After(s: State, step: Step): State {
    match step
    case Arrive(c) =>
      if ValidChange(c) then s.(requests := s.requests + [Request(c, s.tables, None, None, None, Reading)]) else s
    case ReadRoles(i) => if Busy(s, i, Reading) then With(s, i, s.requests[i].(roles := Some(s.tables))) else s
    case ReadEntries(i) => if Busy(s, i, Reading) then With(s, i, s.requests[i].(entries := Some(s.tables))) else s
    case ReadFences(i) => if Busy(s, i, Reading) then With(s, i, s.requests[i].(fences := Some(s.tables))) else s
    case Judge(i) =>
      if Busy(s, i, Reading) && HasRead(s.requests[i]) then
        With(s, i, s.requests[i].(phase := if Passes(s.requests[i]) then Passed else Over))
      else s
    case Write(i) =>
      if Busy(s, i, Passed) && !TakenId(s.tables, s.requests[i].change) then
        With(s, i, s.requests[i].(phase := Over)).(tables := Apply(s.tables, s.requests[i].change))
      else s
    case GiveUp(i) => if i < |s.requests| then With(s, i, s.requests[i].(phase := Over)) else s
    case Elsewhere(after) => if Grows(s.tables, after) then s.(tables := after) else s
  }

  /** A request that failed writes nothing later, and whatever other routes may add they can add at any time. */
  lemma OtherSteps(s: State, i: nat, after: Tables)
    ensures After(After(s, GiveUp(i)), Write(i)).tables == s.tables
    ensures Grows(s.tables, after) ==> After(s, Elsewhere(after)) == s.(tables := after)
  {
    hide Passes, Grows, Apply;
  }

  ghost predicate IsRun(states: seq<State>, steps: seq<Step>) {
    && |states| == |steps| + 1
    && forall k {:trigger steps[k]} :: 0 <= k < |steps| ==> states[k + 1] == After(states[k], steps[k])
  }

  ghost predicate Wellformed(s: State) {
    OneRowPerId(s.tables) && forall i :: 0 <= i < |s.requests| ==> ValidChange(s.requests[i].change)
  }

  lemma StepWellformed(s: State, step: Step)
    requires Wellformed(s)
    ensures Wellformed(After(s, step))
  {
    hide Passes, Fences, Enabled;
    if step.Write? && Busy(s, step.i, Passed) && !TakenId(s.tables, s.requests[step.i].change) {
      OneRowAfter(s.tables, s.requests[step.i].change);
    }
  }

  lemma OneRowAfter(t: Tables, c: Change)
    requires OneRowPerId(t) && !TakenId(t, c)
    ensures OneRowPerId(Apply(t, c))
  {
  }

  lemma {:induction false} RunWellformed(states: seq<State>, steps: seq<Step>, k: nat)
    requires IsRun(states, steps) && k < |states| && Wellformed(states[0])
    ensures Wellformed(states[k])
  {
    hide After, Wellformed;
    if k > 0 {
      RunWellformed(states, steps, k - 1);
      StepWellformed(states[k - 1], steps[k - 1]);
    }
  }

  /** A write that finds an administrator it does not drop, or no write at all. */
  ghost predicate StepLeaves(s: State, step: Step) {
    step.Write? && Busy(s, step.i, Passed) && !TakenId(s.tables, s.requests[step.i].change)
    ==> Leaves(s.tables, s.requests[step.i].change)
  }

  lemma StepKeepsIff(s: State, step: Step)
    requires Wellformed(s) && Administrators(s.tables) != []
    ensures Administrators(After(s, step).tables) != [] <==> StepLeaves(s, step)
  {
    hide Apply, Passes, Leaves, Administrators;
    match step
    case Write(i) =>
      if Busy(s, i, Passed) {
        ChangeLeavesIff(s.tables, s.requests[i].change);
      }
    case Elsewhere(after) =>
      if Grows(s.tables, after) {
        GrowingKeeps(s.tables, after);
      }
    case _ =>
  }

  lemma GrowingKeeps(t: Tables, after: Tables)
    requires Grew(t, after) && Administrators(t) != []
    ensures Administrators(after) != []
  {
    var h := Administrators(t)[0];
    assert h in Administrators(t);
    HoldGrows(t, after, h);
  }

  lemma HoldGrows(t: Tables, after: Tables, h: AdminHold)
    requires Grew(t, after) && h in Administrators(t)
    ensures h in Administrators(after)
  {
    hide Fences;
    var u :| u in t.people && u.id == h.userId && !u.disabled;
    assert u in after.people;
    if h.ByEntry? {
      var r :| r in t.explicit && OnRoot(r, h.userId, Administrator) && r.id == h.entryId;
      assert r in after.explicit;
    }
  }

  /**
   Over every interleaving of reads, writes and other routes' writes, there is
   an administrator all along exactly when every guarded write finds one that
   it does not drop.
   */
  lemma {:induction false} SomeoneThroughoutIff(states: seq<State>, steps: seq<Step>)
    requires IsRun(states, steps) && Wellformed(states[0]) && Administrators(states[0].tables) != []
    ensures (forall k :: 0 <= k < |states| ==> Administrators(states[k].tables) != [])
       <==> (forall k :: 0 <= k < |steps| ==> StepLeaves(states[k], steps[k]))
    decreases |steps|
  {
    hide Administrators, StepLeaves, After, Wellformed;
    if steps != [] {
      var n := |steps| - 1;
      var init := states[..n + 1];
      assert IsRun(init, steps[..n]);
      SomeoneThroughoutIff(init, steps[..n]);
      RunWellformed(states, steps, n);
      if Administrators(states[n].tables) != [] {
        StepKeepsIff(states[n], steps[n]);
      }
      assert forall k :: 0 <= k < |init| ==> init[k] == states[k];
      assert forall k :: 0 <= k < n ==> steps[..n][k] == steps[k];
    }
  }

  // ----- Runs in which nobody is left -----

  ghost function Exec(s: State, steps: seq<Step>): State
    decreases |steps|
  {
    if steps == [] then s else Exec(After(s, steps[0]), steps[1..])
  }

  lemma {:induction false} ExecConcat(s: State, a: seq<Step>, b: seq<Step>)
    ensures Exec(s, a + b) == Exec(Exec(s, a), b)
    decreases |a|
  {
    hide After;
    if a == [] {
      assert a + b == b;
    } else {
      assert (a + b)[0] == a[0] && (a + b)[1..] == a[1..] + b;
      ExecConcat(After(s, a[0]), a[1..], b);
    }
  }

  /** The guard of one request, all its queries on the same tables. */
  function Guarding(i: nat): seq<Step> {
    [ReadRoles(i), ReadEntries(i)] + [ReadFences(i), Judge(i)]
  }

  function Judged(r: Request, t: Tables, phase: Phase): Request {
    r.(roles := Some(t), entries := Some(t), fences := Some(t), phase := phase)
  }

  lemma ShownIsHeld(t: Tables, r: Request, h: AdminHold)
    requires r.roles == Some(t) && r.entries == Some(t) && r.fences == Some(t)
    ensures Shown(r, h) <==> h in Administrators(t)
  {
  }

  lemma PassesAsGuarded(t: Tables, r: Request)
    requires r.roles == Some(t) && r.entries == Some(t) && r.fences == Some(t)
    ensures Passes(r) <==> Guarded(t, r.change)
  {
    hide Shown, Administrators;
    forall h
      ensures Shown(r, h) <==> h in Administrators(t)
    {
      ShownIsHeld(t, r, h);
    }
  }

  ghost function Verdict(t: Tables, c: Change): Phase {
    if Guarded(t, c) then Passed else Over
  }

  lemma GuardRuns(s: State, i: nat)
    requires Busy(s, i, Reading)
    ensures Exec(s, Guarding(i))
         == With(s, i, Judged(s.requests[i], s.tables, Verdict(s.tables, s.requests[i].change)))
  {
    hide Passes, Guarded, Exec;
    var r := s.requests[i];
    var s1 := With(s, i, r.(roles := Some(s.tables)));
    var s2 := With(s, i, r.(roles := Some(s.tables), entries := Some(s.tables)));
    var s3 := With(s, i, Judged(r, s.tables, Reading));
    assert After(s, ReadRoles(i)) == s1;
    assert After(s1, ReadEntries(i)) == s2;
    assert After(s2, ReadFences(i)) == s3;
    PassesAsGuarded(s.tables, s3.requests[i]);
    var s4 := After(s3, Judge(i));
    assert s4 == With(s, i, Judged(r, s.tables, Verdict(s.tables, r.change)));
    ExecTwo(s, ReadRoles(i), ReadEntries(i));
    ExecTwo(s2, ReadFences(i), Judge(i));
    ExecConcat(s, [ReadRoles(i), ReadEntries(i)], [ReadFences(i), Judge(i)]);
  }

  lemma ExecTwo(s: State, a: Step, b: Step)
    ensures Exec(s, [a, b]) == After(After(s, a), b)
  {
    hide After;
    assert [a, b][1..] == [b] && [b][1..] == [];
    assert Exec(After(s, a), [b]) == Exec(After(After(s, a), b), []);
  }

  /** Two requests whose guards both run before either write. */
  function Overlapping(c: Change, d: Change): seq<Step> {
    [Arrive(c), Arrive(d)] + Guarding(0) + Guarding(1) + [Write(0), Write(1)]
  }

  /** Any two changes that pass the guard on the same tables can both be made. */
  lemma OverlappingBothPass(t: Tables, c: Change, d: Change)
    requires ValidChange(c) && ValidChange(d) && Guarded(t, c) && Guarded(t, d)
    requires !TakenId(t, c) && !TakenId(Apply(t, c), d)
    ensures Exec(State(t, []), Overlapping(c, d)).tables == Apply(Apply(t, c), d)
  {
    hide Guarded, Apply, TakenId, ValidChange, Exec, Passes;
    var s := State(t, []);
    var arrived := Exec(s, [Arrive(c), Arrive(d)]);
    ExecTwo(s, Arrive(c), Arrive(d));
    assert arrived.tables == t && |arrived.requests| == 2;
    assert arrived.requests[0].change == c && arrived.requests[1].change == d;
    GuardRuns(arrived, 0);
    var first := Exec(arrived, Guarding(0));
    GuardRuns(first, 1);
    var both := Exec(first, Guarding(1));
    assert both.tables == t && Busy(both, 0, Passed) && Busy(both, 1, Passed);
    WriteBoth(both, c, d);
    ExecConcat(s, [Arrive(c), Arrive(d)], Guarding(0));
    ExecConcat(s, [Arrive(c), Arrive(d)] + Guarding(0), Guarding(1));
    ExecConcat(s, [Arrive(c), Arrive(d)] + Guarding(0) + Guarding(1), [Write(0), Write(1)]);
  }

  lemma WriteBoth(s: State, c: Change, d: Change)
    requires |s.requests| == 2 && Busy(s, 0, Passed) && Busy(s, 1, Passed)
    requires s.requests[0].change == c && s.requests[1].change == d
    requires !TakenId(s.tables, c) && !TakenId(Apply(s.tables, c), d)
    ensures Exec(s, [Write(0), Write(1)]).tables == Apply(Apply(s.tables, c), d)
  {
    hide Apply, TakenId;
    ExecTwo(s, Write(0), Write(1));
  }

  /** Two administrators by role and nothing else. */
  function Pair(a: string, b: string): Tables {
    Tables([], [PlatformRoleRow(a, "admin"), PlatformRoleRow(b, "admin")], [], [],
           [UserRow(a, false), UserRow(b, false)], [], [], [], [], [], [], [])
  }

  /** So the last two administrators can be deleted at the same time: both guards pass, and nobody is left. */
  lemma OverlapLeavesNobody(a: string, b: string) returns (states: seq<State>, steps: seq<Step>)
    requires a != b
    ensures IsRun(states, steps) && Wellformed(states[0]) && states[0].requests == []
    ensures Administrators(states[0].tables) != [] && Administrators(states[|steps|].tables) == []
  {
    hide Exec, Administrators, IsRun;
    var t := Pair(a, b);
    steps := Overlapping(DeleteUser(a), DeleteUser(b));
    PairHolds(t, a, b);
    OverlappingBothPass(t, DeleteUser(a), DeleteUser(b));
    NobodyAfterBoth(t, a, b);
    states := ExecRuns(State(t, []), steps);
  }

  lemma {:induction false} ExecRuns(s: State, steps: seq<Step>) returns (states: seq<State>)
    ensures IsRun(states, steps) && states[0] == s && states[|steps|] == Exec(s, steps)
    decreases |steps|
  {
    hide After;
    if steps == [] {
      states := [s];
    } else {
      var rest := ExecRuns(After(s, steps[0]), steps[1..]);
      states := [s] + rest;
      assert forall k :: 0 < k < |steps| ==> steps[k] == steps[1..][k - 1];
    }
  }

  lemma PairHolds(t: Tables, a: string, b: string)
    requires a != b && t == Pair(a, b)
    ensures Administrators(t) != [] && Guarded(t, DeleteUser(a)) && Guarded(t, DeleteUser(b))
  {
    assert PlatformRoleRow(a, "admin") == t.roles[0] && PlatformRoleRow(b, "admin") == t.roles[1];
    assert UserRow(a, false) == t.people[0] && UserRow(b, false) == t.people[1];
    assert Enabled(t, a) && Enabled(t, b);
    assert ByRole(a) in Administrators(t) && ByRole(b) in Administrators(t);
  }

  lemma NobodyAfterBoth(t: Tables, a: string, b: string)
    requires t == Pair(a, b)
    ensures Administrators(Apply(Apply(t, DeleteUser(a)), DeleteUser(b))) == []
  {
    var after := Apply(Apply(t, DeleteUser(a)), DeleteUser(b));
    forall h
      ensures h !in Administrators(after)
    {
      assert forall u :: u !in after.people;
    }
    EmptyOrSome(Administrators(after));
  }

  lemma EmptyOrSome<T>(s: seq<T>)
    ensures s == [] || exists x :: x in s
  {
    if s != [] {
      assert s[0] in s;
    }
  }

  // ----- One request at a time -----

  predicate InFlight(s: State, i: nat) {
    i < |s.requests| && s.requests[i].phase != Over
  }

  /** No two guarded changes are under way. */
  ghost predicate OneAtATime(s: State) {
    forall i: nat, j: nat :: InFlight(s, i) && InFlight(s, j) ==> i == j
  }

  ghost predicate Between(arrived: Tables, read: Option<Tables>, now: Tables) {
    read.Some? ==> Grew(arrived, read.value) && Grew(read.value, now)
  }

  /** A request under way has seen the tables only grow since it arrived, when someone was an administrator. */
  ghost predicate Undisturbed(s: State, r: Request) {
    && Administrators(r.arrived) != [] && Grew(r.arrived, s.tables)
    && Between(r.arrived, r.roles, s.tables) && Between(r.arrived, r.entries, s.tables)
    && Between(r.arrived, r.fences, s.tables)
    && (r.phase == Passed ==> HasRead(r) && Passes(r))
  }

  ghost predicate Serial(s: State) {
    && Wellformed(s) && OneAtATime(s) && Administrators(s.tables) != []
    && forall i: nat :: InFlight(s, i) ==> Undisturbed(s, s.requests[i])
  }

  lemma GrewChain(a: Tables, b: Tables, c: Tables)
    ensures Grew(a, a)
    ensures Grew(a, b) && Grew(b, c) ==> Grew(a, c)
  {
    hide Fences;
  }

  lemma ShowsSomeone(s: State, r: Request)
    requires Undisturbed(s, r) && HasRead(r)
    ensures exists h :: Shown(r, h)
  {
    hide Passes, Fences, Enabled;
    var h := Administrators(r.arrived)[0];
    assert h in Administrators(r.arrived);
    HoldGrows(r.arrived, r.roles.value, h);
    HoldGrows(r.arrived, r.entries.value, h);
    HoldGrows(r.arrived, r.fences.value, h);
    assert Shown(r, h);
  }

  lemma ShownStays(s: State, r: Request, h: AdminHold)
    requires Undisturbed(s, r) && HasRead(r) && Shown(r, h)
    ensures h in Administrators(s.tables)
  {
    hide Passes, Fences, Grew;
    var t := if h.ByRole? then r.roles.value else r.entries.value;
    EnabledGrows(t, s.tables, h.userId);
    FencesShrink(r.fences.value, s.tables, h.userId);
    RowGrows(t, s.tables, h);
  }

  lemma EnabledGrows(t: Tables, after: Tables, userId: string)
    requires Grew(t, after)
    ensures Enabled(t, userId) ==> Enabled(after, userId)
  {
  }

  lemma FencesShrink(t: Tables, after: Tables, userId: string)
    requires Grew(t, after)
    ensures Fences(after, userId) ==> Fences(t, userId)
  {
  }

  lemma RowGrows(t: Tables, after: Tables, h: AdminHold)
    requires Grew(t, after)
    ensures h.ByRole? && PlatformRoleRow(h.userId, "admin") in t.roles ==>
      PlatformRoleRow(h.userId, "admin") in after.roles
    ensures h.ByEntry? && (exists r :: r in t.explicit && OnRoot(r, h.userId, Administrator) && r.id == h.entryId) ==>
      exists r :: r in after.explicit && OnRoot(r, h.userId, Administrator) && r.id == h.entryId
  {
    hide Fences;
  }

  /** What passed on tables that only grew since finds someone to leave. */
  lemma UndisturbedLeaves(s: State, r: Request)
    requires Undisturbed(s, r) && r.phase == Passed
    ensures Leaves(s.tables, r.change)
  {
    hide Undisturbed, Shown, Administrators;
    PassedHasRead(s, r);
    ShowsSomeone(s, r);
    var h :| Shown(r, h) && !Lost(r.change, h);
    ShownStays(s, r, h);
    assert !Drops(r.change, h);
  }

  lemma PassedHasRead(s: State, r: Request)
    requires Undisturbed(s, r) && r.phase == Passed
    ensures HasRead(r) && Passes(r)
  {
  }

  lemma StillUndisturbed(s: State, after: Tables, r: Request)
    requires Undisturbed(s, r) && Grew(s.tables, after)
    ensures Undisturbed(s.(tables := after), r)
  {
    hide Grew, Passes, Administrators;
    GrewChain(r.arrived, s.tables, after);
    if r.roles.Some? { GrewChain(r.roles.value, s.tables, after); }
    if r.entries.Some? { GrewChain(r.entries.value, s.tables, after); }
    if r.fences.Some? { GrewChain(r.fences.value, s.tables, after); }
  }

  lemma StepSerial(s: State, step: Step)
    requires Serial(s) && OneAtATime(After(s, step))
    ensures Serial(After(s, step))
  {
    var t := After(s, step);
    SerialTables(s, step);
    StepWellformed(s, step);
    forall i: nat | InFlight(t, i)
      ensures Undisturbed(t, t.requests[i])
    {
      SerialRequest(s, step, i);
    }
  }

  lemma SerialTables(s: State, step: Step)
    requires Serial(s)
    ensures Administrators(After(s, step).tables) != []
  {
    hide Administrators, Undisturbed, After, Leaves, Wellformed;
    if step.Write? && Busy(s, step.i, Passed) {
      UndisturbedLeaves(s, s.requests[step.i]);
    }
    StepKeepsIff(s, step);
  }

  lemma PassesInAnyPhase(r: Request, phase: Phase)
    requires HasRead(r)
    ensures Passes(r.(phase := phase)) <==> Passes(r)
  {
    forall h
      ensures Shown(r.(phase := phase), h) <==> Shown(r, h)
    {
    }
  }

  lemma SerialRequest(s: State, step: Step, i: nat)
    requires Serial(s) && OneAtATime(After(s, step)) && InFlight(After(s, step), i)
    ensures Undisturbed(After(s, step), After(s, step).requests[i])
  {
    hide Administrators, Grew, Passes, Apply, Wellformed;
    GrewChain(s.tables, s.tables, s.tables);
    match step
    case Arrive(c) =>
    case Elsewhere(after) =>
      if Grows(s.tables, after) {
        StillUndisturbed(s, after, s.requests[i]);
      }
    case Write(j) =>
      assert InFlight(s, i);
      assert Busy(s, j, Passed) ==> InFlight(s, j);
    case ReadRoles(j) => assert InFlight(s, i);
    case ReadEntries(j) => assert InFlight(s, i);
    case ReadFences(j) => assert InFlight(s, i);
    case Judge(j) =>
      assert InFlight(s, i);
      if HasRead(s.requests[i]) {
        PassesInAnyPhase(s.requests[i], Passed);
      }
    case GiveUp(j) => assert InFlight(s, i);
  }

  /**
   With at most one guarded change under way at any time, someone stays an
   administrator, whatever other routes write.
   */
  lemma {:induction false} SomeoneStays(states: seq<State>, steps: seq<Step>, k: nat)
    requires IsRun(states, steps) && k < |states| && Wellformed(states[0])
    requires states[0].requests == [] && Administrators(states[0].tables) != []
    requires forall j :: 0 <= j < |states| ==> OneAtATime(states[j])
    ensures Serial(states[k]) && Administrators(states[k].tables) != []
  {
    hide After, Administrators, Undisturbed, Wellformed, OneAtATime;
    if k > 0 {
      SomeoneStays(states, steps, k - 1);
      StepSerial(states[k - 1], steps[k - 1]);
    }
    assert OneAtATime(states[k]);
  }
}
