/**
 Loading a snapshot (incuscloud/server/src/acl/acl.ts, load): today's role
 tables read as entries beside the explicit ones, and the maps derived from
 the tables.
 */
module Load {
  import opened Text
  import opened Catalog
  import opened Paths
  import opened Resolve
  import opened Acl

  datatype EntryRow = EntryRow(
    id: string, path: string, userId: Option<string>, serviceAccountId: Option<string>, groupId: Option<string>,
    tenantGroupId: Option<string>, role: Option<RoleId>, propagate: bool)
  datatype PlatformRoleRow = PlatformRoleRow(userId: string, role: string)
  datatype MemberRow = MemberRow(tenantId: string, userId: string, role: string, slug: string)
  datatype AccountRow = AccountRow(
    id: string, tenantId: Option<string>, platformRole: Option<string>, disabled: bool, slug: Option<string>)
  datatype UserRow = UserRow(id: string, disabled: bool)
  datatype PlaceRow = PlaceRow(cluster: string, project: string, slug: string)
  datatype TenantRow = TenantRow(id: string, slug: string)
  datatype OwnedRow = OwnedRow(
    cluster: string, project: string, name: string, userId: Option<string>, serviceAccountId: Option<string>)
  datatype K8sRow = K8sRow(slug: string, name: string, createdBy: string)
  datatype GroupMemberRow = GroupMemberRow(groupId: string, userId: Option<string>, serviceAccountId: Option<string>)
  datatype ClusterMemberRow = ClusterMemberRow(cluster: string, name: string, groups: seq<string>)
  datatype InstanceRow = InstanceRow(cluster: string, project: string, name: string, location: string)

  datatype Tables = Tables(
    explicit: seq<EntryRow>, roles: seq<PlatformRoleRow>, members: seq<MemberRow>, accounts: seq<AccountRow>,
    people: seq<UserRow>, places: seq<PlaceRow>, allTenants: seq<TenantRow>, owned: seq<OwnedRow>, k8s: seq<K8sRow>,
    grouped: seq<GroupMemberRow>, memberGroups: seq<ClusterMemberRow>, located: seq<InstanceRow>)

  function PlatformRole(role: string): Option<RoleId> {
    if role == "admin" then Some(Administrator)
    else if role == "operator" then Some(Operator)
    else if role == "viewer" then Some(Auditor)
    else None
  }

  function TenantRole(role: string): Option<RoleId> {
    if role == "owner" || role == "admin" then Some(TenantAdmin)
    else if role == "member" then Some(UnrestrictedUser)
    else if role == "viewer" then Some(Auditor)
    else None
  }

  /** The first of the four columns that is set names the subject; the last one is taken as it comes. */
  function EntrySubject(r: EntryRow): string {
    match (r.userId, r.serviceAccountId, r.groupId, r.tenantGroupId)
    case (Some(u), _, _, _) => "user:" + u
    case (None, Some(a), _, _) => "service:" + a
    case (None, None, Some(g), _) => "group:" + g
    case (None, None, None, Some(t)) => "tenant:" + t
    case (None, None, None, None) => "tenant:null"
  }

  function ExplicitEntry(r: EntryRow): seq<Entry> {
    if r.role.Some? then [Entry(r.id, r.path, EntrySubject(r), r.role.value, r.propagate, AclSource)] else []
  }

  function RoleEntry(r: PlatformRoleRow): seq<Entry> {
    var role := PlatformRole(r.role);
    if role.Some? then
      [Entry("platform-role:" + r.userId, "/", "user:" + r.userId, role.value, true, PlatformRoleSource)]
    else []
  }

  function MemberEntry(m: MemberRow): seq<Entry> {
    var role := TenantRole(m.role);
    if role.Some? then
      [Entry("tenant-membership:" + m.tenantId + ":" + m.userId, "/tenants/" + m.slug, "user:" + m.userId,
             role.value, true, TenantMembershipSource)]
    else []
  }

  function AccountEntry(a: AccountRow): seq<Entry> {
    var subject := "service:" + a.id;
    if a.slug.Some? && a.slug.value != "" then
      [Entry("service-account:" + a.id, "/tenants/" + a.slug.value, subject,
             UnrestrictedUser, true, ServiceAccountSource)]
    else if a.tenantId.None? && a.platformRole.Some? && PlatformRole(a.platformRole.value).Some? then
      [Entry("service-account:" + a.id, "/", subject,
             PlatformRole(a.platformRole.value).value, true, ServiceAccountSource)]
    else []
  }

  /** Whether some table makes this entry. */
  ghost predicate EntryFrom(t: Tables, e: Entry) {
    || (exists r :: r in t.explicit && e in ExplicitEntry(r))
    || (exists r :: r in t.roles && e in RoleEntry(r))
    || (exists m :: m in t.members && e in MemberEntry(m))
    || (exists a :: a in t.accounts && e in AccountEntry(a))
  }

  method CollectEntries(t: Tables) returns (entries: seq<Entry>)
    ensures forall e :: e in entries <==> EntryFrom(t, e)
  {
    var explicit: seq<Entry> := [];
    for i := 0 to |t.explicit|
      invariant forall e :: e in explicit <==> exists r :: r in t.explicit[..i] && e in ExplicitEntry(r)
    {
      assert t.explicit[..i + 1] == t.explicit[..i] + [t.explicit[i]];
      explicit := explicit + ExplicitEntry(t.explicit[i]);
    }
    assert t.explicit[..|t.explicit|] == t.explicit;
    var platform: seq<Entry> := [];
    for i := 0 to |t.roles|
      invariant forall e :: e in platform <==> exists r :: r in t.roles[..i] && e in RoleEntry(r)
    {
      assert t.roles[..i + 1] == t.roles[..i] + [t.roles[i]];
      platform := platform + RoleEntry(t.roles[i]);
    }
    assert t.roles[..|t.roles|] == t.roles;
    var tenancy := CollectTenancy(t);
    entries := explicit + platform + tenancy;
  }

  method CollectTenancy(t: Tables) returns (entries: seq<Entry>)
    ensures forall e :: e in entries <==>
      (exists m :: m in t.members && e in MemberEntry(m)) || (exists a :: a in t.accounts && e in AccountEntry(a))
  {
    var membership: seq<Entry> := [];
    for i := 0 to |t.members|
      invariant forall e :: e in membership <==> exists m :: m in t.members[..i] && e in MemberEntry(m)
    {
      assert t.members[..i + 1] == t.members[..i] + [t.members[i]];
      membership := membership + MemberEntry(t.members[i]);
    }
    assert t.members[..|t.members|] == t.members;
    var accounts: seq<Entry> := [];
    for i := 0 to |t.accounts|
      invariant forall e :: e in accounts <==> exists a :: a in t.accounts[..i] && e in AccountEntry(a)
    {
      assert t.accounts[..i + 1] == t.accounts[..i] + [t.accounts[i]];
      accounts := accounts + AccountEntry(t.accounts[i]);
    }
    assert t.accounts[..|t.accounts|] == t.accounts;
    entries := membership + accounts;
  }

  function Push<V>(m: map<string, seq<V>>, k: string, v: V): (n: map<string, seq<V>>)
    ensures Lookup(n, k) == Lookup(m, k) + [v]
    ensures forall x :: x != k ==> Lookup(n, x) == Lookup(m, x)
  {
    m[k := Lookup(m, k) + [v]]
  }

  method IndexEntries(entries: seq<Entry>) returns (byPath: map<string, seq<Entry>>, bySubject: map<string, seq<Entry>>)
    ensures forall x, e :: e in Lookup(byPath, x) <==> e in entries && e.path == x
    ensures forall k, e :: e in Lookup(bySubject, k) <==> e in entries && e.subject == k
  {
    byPath, bySubject := map[], map[];
    for i := 0 to |entries|
      invariant forall x, e :: e in Lookup(byPath, x) <==> e in entries[..i] && e.path == x
      invariant forall k, e :: e in Lookup(bySubject, k) <==> e in entries[..i] && e.subject == k
    {
      assert entries[..i + 1] == entries[..i] + [entries[i]];
      byPath := Push(byPath, entries[i].path, entries[i]);
      bySubject := Push(bySubject, entries[i].subject, entries[i]);
    }
    assert entries[..|entries|] == entries;
  }

  function DisabledOf(t: Tables): (all: set<string>)
    ensures forall x :: x in all <==>
      || (exists u :: u in t.people && u.disabled && x == "user:" + u.id)
      || (exists a :: a in t.accounts && a.disabled && x == "service:" + a.id)
  {
    (set u | u in t.people && u.disabled :: "user:" + u.id)
      + (set a | a in t.accounts && a.disabled :: "service:" + a.id)
  }

  predicate IsOf(p: PlaceRow, cluster: string, project: string) {
    p.cluster == cluster && p.project == project
  }

  /** The tenant a project is placed for: the last placement counts. */
  function LastPlaced(places: seq<PlaceRow>, cluster: string, project: string): (slug: Option<string>)
    ensures slug.None? <==> forall p :: p in places ==> !IsOf(p, cluster, project)
    ensures slug.Some? ==> exists p :: p in places && IsOf(p, cluster, project) && p.slug == slug.value
  {
    if places == [] then None
    else
      var last := |places| - 1;
      assert places == places[..last] + [places[last]];
      if IsOf(places[last], cluster, project) then Some(places[last].slug)
      else LastPlaced(places[..last], cluster, project)
  }

  /** It is the slug of the placement no later one of the same project follows. */
  lemma {:induction false} LastPlacedIsLast(places: seq<PlaceRow>, i: nat)
    requires i < |places|
    requires forall j :: i < j < |places| ==> !IsOf(places[j], places[i].cluster, places[i].project)
    ensures LastPlaced(places, places[i].cluster, places[i].project) == Some(places[i].slug)
  {
    var last := |places| - 1;
    if i < last {
      assert places[..last][i] == places[i];
      LastPlacedIsLast(places[..last], i);
    }
  }

  /** A tenant without a slug is none. */
  function Nonempty(slug: Option<string>): Option<string> {
    if slug == Some("") then None else slug
  }

  /** Every project's tenant is that of its last placement, and none has another. */
  ghost predicate TenantsPlaced(places: seq<PlaceRow>, tenantOf: map<string, string>) {
    forall c, pr :: '/' !in c ==> TenantAt(tenantOf, c, pr) == Nonempty(LastPlaced(places, c, pr))
  }

  /** Every tenant lists the projects placed for it, and no other. */
  ghost predicate ProjectsPlaced(places: seq<PlaceRow>, projectsOf: map<string, seq<string>>) {
    forall slug, x :: x in Lookup(projectsOf, slug) <==> PlacedFor(places, slug, x)
  }

  ghost predicate PlacedFor(places: seq<PlaceRow>, slug: string, x: string) {
    exists p :: p in places && p.slug == slug && x == Format(Project(p.cluster, p.project))
  }

  function KeyAt(tenantOf: map<string, string>, key: string): Option<string> {
    if key in tenantOf then Some(tenantOf[key]) else None
  }

  ghost predicate KeysPlaced(places: seq<PlaceRow>, tenantOf: map<string, string>) {
    forall c, pr :: '/' !in c ==> KeyAt(tenantOf, c + "/" + pr) == LastPlaced(places, c, pr)
  }

  /** The tenants' projects: later placements of one project win the tenant, and every tenant lists its own. */
  method IndexPlaces(places: seq<PlaceRow>)
      returns (tenantOf: map<string, string>, projectsOf: map<string, seq<string>>)
    requires forall p :: p in places ==> '/' !in p.cluster
    ensures TenantsPlaced(places, tenantOf) && ProjectsPlaced(places, projectsOf)
  {
    tenantOf, projectsOf := map[], map[];
    for i := 0 to |places|
      invariant KeysPlaced(places[..i], tenantOf)
      invariant ProjectsPlaced(places[..i], projectsOf)
    {
      var p := places[i];
      PlaceOneMore(places[..i], p, tenantOf, projectsOf);
      assert places[..i + 1] == places[..i] + [p];
      tenantOf := tenantOf[p.cluster + "/" + p.project := p.slug];
      projectsOf := Push(projectsOf, p.slug, Format(Project(p.cluster, p.project)));
    }
    assert places[..|places|] == places;
    KeysPlaceTenants(places, tenantOf);
  }

  lemma KeysPlaceTenants(places: seq<PlaceRow>, tenantOf: map<string, string>)
    requires KeysPlaced(places, tenantOf)
    ensures TenantsPlaced(places, tenantOf)
  {
    hide LastPlaced;
    forall c, pr | '/' !in c
      ensures TenantAt(tenantOf, c, pr) == Nonempty(LastPlaced(places, c, pr))
    {
      assert KeyAt(tenantOf, c + "/" + pr) == LastPlaced(places, c, pr);
    }
  }

  lemma PlaceOneMore(places: seq<PlaceRow>, p: PlaceRow, tenantOf: map<string, string>,
      projectsOf: map<string, seq<string>>)
    requires KeysPlaced(places, tenantOf) && ProjectsPlaced(places, projectsOf) && '/' !in p.cluster
    ensures KeysPlaced(places + [p], tenantOf[p.cluster + "/" + p.project := p.slug])
    ensures ProjectsPlaced(places + [p], Push(projectsOf, p.slug, Format(Project(p.cluster, p.project))))
  {
    KeyOneMore(places, p, tenantOf);
    ProjectOneMore(places, p, projectsOf);
  }

  lemma KeyOneMore(places: seq<PlaceRow>, p: PlaceRow, tenantOf: map<string, string>)
    requires KeysPlaced(places, tenantOf) && '/' !in p.cluster
    ensures KeysPlaced(places + [p], tenantOf[p.cluster + "/" + p.project := p.slug])
  {
    var key := p.cluster + "/" + p.project;
    var all := places + [p];
    assert all[..|all| - 1] == places;
    forall c, pr | '/' !in c
      ensures KeyAt(tenantOf[key := p.slug], c + "/" + pr) == LastPlaced(all, c, pr)
    {
      assert KeyAt(tenantOf, c + "/" + pr) == LastPlaced(places, c, pr);
      if c + "/" + pr == key {
        CutAtSlash(c, pr, p.cluster, p.project);
      }
    }
  }

  lemma ProjectOneMore(places: seq<PlaceRow>, p: PlaceRow, projectsOf: map<string, seq<string>>)
    requires ProjectsPlaced(places, projectsOf)
    ensures ProjectsPlaced(places + [p], Push(projectsOf, p.slug, Format(Project(p.cluster, p.project))))
  {
    hide Format;
    var x := Format(Project(p.cluster, p.project));
    var after := Push(projectsOf, p.slug, x);
    forall slug, y
      ensures y in Lookup(after, slug) <==> PlacedFor(places + [p], slug, y)
    {
      assert y in Lookup(projectsOf, slug) <==> PlacedFor(places, slug, y);
      assert PlacedFor(places + [p], slug, y) <==> PlacedFor(places, slug, y) || (slug == p.slug && y == x) by {
        assert p in places + [p];
      }
    }
  }

  /** What a chain meets of the tenants is listed back: the tenant of a project lists the project. */
  lemma TenantsListTheirProjects(t: Tables, s: Acl.Snapshot)
    requires Named(t) && TenantsPlaced(t.places, s.tenantOf) && ProjectsPlaced(t.places, s.projectsOf)
    ensures Placed(s)
  {
    hide LastPlaced, Format;
    forall c, pr | '/' !in c && '/' !in pr && TenantAt(s.tenantOf, c, pr).Some?
      ensures '/' !in TenantAt(s.tenantOf, c, pr).value
      ensures Format(Project(c, pr)) in Lookup(s.projectsOf, TenantAt(s.tenantOf, c, pr).value)
    {
      var slug := TenantAt(s.tenantOf, c, pr).value;
      assert LastPlaced(t.places, c, pr) == Some(slug);
      var p :| p in t.places && IsOf(p, c, pr) && p.slug == slug;
      assert PlacedFor(t.places, slug, Format(Project(c, pr)));
    }
  }

  function OwnerSubject(o: OwnedRow): Option<string> {
    if o.userId.Some? then Some("user:" + o.userId.value)
    else if o.serviceAccountId.Some? then Some("service:" + o.serviceAccountId.value)
    else None
  }

  ghost predicate InstanceOwnedBy(rows: seq<OwnedRow>, path: string, subject: string) {
    exists o :: o in rows && path == Format(Instance(o.cluster, o.project, o.name)) && OwnerSubject(o) == Some(subject)
  }

  ghost predicate KubernetesOwnedBy(rows: seq<K8sRow>, path: string, subject: string) {
    exists k :: k in rows && path == Format(Kubernetes(k.slug, k.name)) && k.createdBy == subject
  }

  ghost predicate OwnedBy(t: Tables, path: string, subject: string) {
    InstanceOwnedBy(t.owned, path, subject) || KubernetesOwnedBy(t.k8s, path, subject)
  }

  method IndexInstanceOwners(rows: seq<OwnedRow>) returns (owners: map<string, string>)
    ensures forall x :: x in owners ==> InstanceOwnedBy(rows, x, owners[x])
    ensures forall x, u :: InstanceOwnedBy(rows, x, u) ==> x in owners
  {
    owners := map[];
    for i := 0 to |rows|
      invariant forall x :: x in owners ==> InstanceOwnedBy(rows[..i], x, owners[x])
      invariant forall j :: 0 <= j < i && OwnerSubject(rows[j]).Some? ==>
        Format(Instance(rows[j].cluster, rows[j].project, rows[j].name)) in owners
    {
      assert rows[..i + 1] == rows[..i] + [rows[i]];
      var o := rows[i];
      var subject := OwnerSubject(o);
      if subject.Some? {
        owners := owners[Format(Instance(o.cluster, o.project, o.name)) := subject.value];
      }
    }
    assert rows[..|rows|] == rows;
  }

  method IndexOwners(t: Tables) returns (owners: map<string, string>)
    ensures forall x :: x in owners ==> OwnedBy(t, x, owners[x])
    ensures forall x, u :: OwnedBy(t, x, u) ==> x in owners
  {
    hide InstanceOwnedBy, KubernetesOwnedBy;
    var instances := IndexInstanceOwners(t.owned);
    owners := AddKubernetesOwners(instances, t.k8s);
  }

  method AddKubernetesOwners(before: map<string, string>, rows: seq<K8sRow>) returns (owners: map<string, string>)
    ensures forall x :: x in owners ==> (x in before && owners[x] == before[x]) || KubernetesOwnedBy(rows, x, owners[x])
    ensures forall x :: x in before ==> x in owners
    ensures forall x, u :: KubernetesOwnedBy(rows, x, u) ==> x in owners
  {
    hide Format;
    owners := before;
    for i := 0 to |rows|
      invariant forall x :: x in owners ==>
        (x in before && owners[x] == before[x]) || KubernetesOwnedBy(rows[..i], x, owners[x])
      invariant forall x :: x in before ==> x in owners
      invariant forall j :: 0 <= j < i ==> Format(Kubernetes(rows[j].slug, rows[j].name)) in owners
    {
      assert rows[..i + 1] == rows[..i] + [rows[i]];
      owners := owners[Format(Kubernetes(rows[i].slug, rows[i].name)) := rows[i].createdBy];
    }
    assert rows[..|rows|] == rows;
  }

  /** A project placed for a tenant, or with an instance. */
  ghost predicate KnownProject(t: Tables, x: string) {
    || (exists p :: p in t.places && x == Format(Project(p.cluster, p.project)))
    || (exists i :: i in t.located && x == Format(Project(i.cluster, i.project)))
  }

  /** The key of a tenant and one of its owners. */
  ghost predicate OwnsTenant(t: Tables, x: string) {
    exists m :: m in t.members && m.role == "owner" && x == m.tenantId + ":" + m.userId
  }

  /** Every project path, once. */
  method CollectProjects(t: Tables) returns (projects: seq<string>)
    ensures Distinct(projects)
    ensures forall x :: x in projects <==> KnownProject(t, x)
  {
    projects := [];
    for i := 0 to |t.places|
      invariant Distinct(projects)
      invariant forall x ::
        x in projects <==> exists p :: p in t.places[..i] && x == Format(Project(p.cluster, p.project))
    {
      assert t.places[..i + 1] == t.places[..i] + [t.places[i]];
      var x := Format(Project(t.places[i].cluster, t.places[i].project));
      if x !in projects {
        projects := projects + [x];
      }
    }
    assert t.places[..|t.places|] == t.places;
    for i := 0 to |t.located|
      invariant Distinct(projects)
      invariant forall x :: x in projects <==>
        || (exists p :: p in t.places && x == Format(Project(p.cluster, p.project)))
        || (exists r :: r in t.located[..i] && x == Format(Project(r.cluster, r.project)))
    {
      assert t.located[..i + 1] == t.located[..i] + [t.located[i]];
      var x := Format(Project(t.located[i].cluster, t.located[i].project));
      if x !in projects {
        projects := projects + [x];
      }
    }
    assert t.located[..|t.located|] == t.located;
  }

  /** Groups: IncusCloud's own, and each tenant's default group of its members and service accounts. */
  ghost predicate InGroup(t: Tables, subject: string, group: string) {
    InOwnGroup(t.grouped, subject, group) || IsMember(t.members, subject, group)
      || IsAccount(t.accounts, subject, group)
  }

  function GroupMember(g: GroupMemberRow): string {
    match g.userId
    case Some(u) => "user:" + u
    case None => "service:" + if g.serviceAccountId.Some? then g.serviceAccountId.value else "null"
  }

  method IndexGroups(t: Tables) returns (groupsOf: map<string, seq<string>>)
    ensures forall k, g :: g in Lookup(groupsOf, k) <==> InGroup(t, k, g)
  {
    groupsOf := GroupMembers(t.grouped);
    groupsOf := TenantMembers(groupsOf, t.members);
    groupsOf := TenantAccounts(groupsOf, t.accounts);
  }

  ghost predicate InOwnGroup(rows: seq<GroupMemberRow>, subject: string, group: string) {
    exists r :: r in rows && subject == GroupMember(r) && group == "group:" + r.groupId
  }

  ghost predicate IsMember(rows: seq<MemberRow>, subject: string, group: string) {
    exists m :: m in rows && subject == "user:" + m.userId && group == "tenant:" + m.tenantId
  }

  ghost predicate IsAccount(rows: seq<AccountRow>, subject: string, group: string) {
    exists a :: a in rows && a.tenantId.Some? && subject == "service:" + a.id && group == "tenant:" + a.tenantId.value
  }

  method GroupMembers(rows: seq<GroupMemberRow>) returns (groupsOf: map<string, seq<string>>)
    ensures forall k, g :: g in Lookup(groupsOf, k) <==> InOwnGroup(rows, k, g)
  {
    groupsOf := map[];
    for i := 0 to |rows|
      invariant forall k, g :: g in Lookup(groupsOf, k) <==> InOwnGroup(rows[..i], k, g)
    {
      assert rows[..i + 1] == rows[..i] + [rows[i]];
      groupsOf := Push(groupsOf, GroupMember(rows[i]), "group:" + rows[i].groupId);
    }
    assert rows[..|rows|] == rows;
  }

  method TenantMembers(before: map<string, seq<string>>, rows: seq<MemberRow>) returns (after: map<string, seq<string>>)
    ensures forall k, g :: g in Lookup(after, k) <==> g in Lookup(before, k) || IsMember(rows, k, g)
  {
    after := before;
    for i := 0 to |rows|
      invariant forall k, g :: g in Lookup(after, k) <==> g in Lookup(before, k) || IsMember(rows[..i], k, g)
    {
      assert rows[..i + 1] == rows[..i] + [rows[i]];
      after := Push(after, "user:" + rows[i].userId, "tenant:" + rows[i].tenantId);
    }
    assert rows[..|rows|] == rows;
  }

  method TenantAccounts(before: map<string, seq<string>>, rows: seq<AccountRow>)
      returns (after: map<string, seq<string>>)
    ensures forall k, g :: g in Lookup(after, k) <==> g in Lookup(before, k) || IsAccount(rows, k, g)
  {
    after := before;
    for i := 0 to |rows|
      invariant forall k, g :: g in Lookup(after, k) <==> g in Lookup(before, k) || IsAccount(rows[..i], k, g)
    {
      assert rows[..i + 1] == rows[..i] + [rows[i]];
      if rows[i].tenantId.Some? {
        after := Push(after, "service:" + rows[i].id, "tenant:" + rows[i].tenantId.value);
      }
    }
    assert rows[..|rows|] == rows;
  }

  /** A member's groups; one in none is in the default group. The last row of a member counts. */
  function GroupsAt(rows: seq<ClusterMemberRow>, cluster: string, name: string): seq<string> {
    if rows == [] then []
    else
      var last := rows[|rows| - 1];
      if last.cluster + "/" + last.name == cluster + "/" + name then
        if last.groups != [] then last.groups else ["default"]
      else GroupsAt(rows[..|rows| - 1], cluster, name)
  }

  /** A member has the groups of its last row, the default group where that names none, and none without a row. */
  lemma {:induction false} GroupsOfMember(rows: seq<ClusterMemberRow>, cluster: string, name: string)
    requires '/' !in cluster && forall r :: r in rows ==> '/' !in r.cluster
    ensures match LastRowOf(rows, cluster, name)
      case None => GroupsAt(rows, cluster, name) == []
      case Some(r) => GroupsAt(rows, cluster, name) == if r.groups == [] then ["default"] else r.groups
  {
    if rows != [] {
      var n := |rows| - 1;
      assert rows[n] in rows && forall r :: r in rows[..n] ==> r in rows;
      GroupsOfMember(rows[..n], cluster, name);
      if rows[n].cluster + "/" + rows[n].name == cluster + "/" + name {
        CutAtSlash(rows[n].cluster, rows[n].name, cluster, name);
      }
    }
  }

  function LastRowOf(rows: seq<ClusterMemberRow>, cluster: string, name: string): (last: Option<ClusterMemberRow>)
    ensures last.None? <==> forall r :: r in rows ==> !IsRowOf(r, cluster, name)
    ensures last.Some? ==> IsRowOf(last.value, cluster, name) && last.value in rows
  {
    if rows == [] then None
    else
      var n := |rows| - 1;
      assert rows == rows[..n] + [rows[n]];
      if IsRowOf(rows[n], cluster, name) then Some(rows[n]) else LastRowOf(rows[..n], cluster, name)
  }

  predicate IsRowOf(r: ClusterMemberRow, cluster: string, name: string) {
    r.cluster == cluster && r.name == name
  }

  /** An instance's group paths: those of the member it runs on. */
  function GroupPaths(cluster: string, groups: seq<string>): (gs: seq<string>)
    ensures |gs| == |groups| && forall i :: 0 <= i < |gs| ==> gs[i] == Format(Group(cluster, groups[i]))
  {
    seq(|groups|, i requires 0 <= i < |groups| => Format(Group(cluster, groups[i])))
  }

  function PathOf(i: InstanceRow): string {
    Format(Instance(i.cluster, i.project, i.name))
  }

  function GroupPathsOf(t: Tables, i: InstanceRow): seq<string> {
    GroupPaths(i.cluster, GroupsAt(t.memberGroups, i.cluster, i.location))
  }

  method IndexLocations(t: Tables) returns (locatedIn: map<string, seq<string>>, onGroup: map<string, seq<string>>)
    requires forall i, j :: 0 <= i < j < |t.located| ==> PathOf(t.located[i]) != PathOf(t.located[j])
    ensures forall x :: x in locatedIn ==> exists i :: i in t.located && x == PathOf(i)
    ensures forall x, g :: g in Lookup(locatedIn, x) <==> x in Lookup(onGroup, g)
    ensures forall i :: i in t.located ==> Lookup(locatedIn, PathOf(i)) == GroupPathsOf(t, i)
  {
    locatedIn, onGroup := map[], map[];
    for i := 0 to |t.located|
      invariant forall x :: x in locatedIn ==> exists j :: 0 <= j < i && x == PathOf(t.located[j])
      invariant forall j :: 0 <= j < i ==> Lookup(locatedIn, PathOf(t.located[j])) == GroupPathsOf(t, t.located[j])
      invariant forall x, g :: g in Lookup(locatedIn, x) <==> x in Lookup(onGroup, g)
    {
      var path := PathOf(t.located[i]);
      var gs := GroupPathsOf(t, t.located[i]);
      if |gs| == 0 {
        continue;
      }
      locatedIn := locatedIn[path := gs];
      onGroup := PushEverywhere(onGroup, gs, path);
    }
  }

  method PushEverywhere(m: map<string, seq<string>>, ks: seq<string>, v: string) returns (n: map<string, seq<string>>)
    ensures forall k, x :: x in Lookup(n, k) <==> x in Lookup(m, k) || (k in ks && x == v)
  {
    n := m;
    for i := 0 to |ks|
      invariant forall k, x :: x in Lookup(n, k) <==> x in Lookup(m, k) || (k in ks[..i] && x == v)
    {
      assert ks[..i + 1] == ks[..i] + [ks[i]];
      n := Push(n, ks[i], v);
    }
    assert ks[..|ks|] == ks;
  }

  /** Names without slashes (those of parsed entries and tenant slugs well formed), and one row per instance. */
  ghost predicate Named(t: Tables) {
    && (forall r :: r in t.explicit && r.role.Some? ==> Parse(r.path).Some?)
    && (forall m :: m in t.members ==> IsName(m.slug))
    && (forall a :: a in t.accounts && a.slug.Some? ==> IsName(a.slug.value))
    && (forall p :: p in t.places ==> '/' !in p.cluster && '/' !in p.project && '/' !in p.slug)
    && (forall o :: o in t.owned ==> '/' !in o.cluster && '/' !in o.project && '/' !in o.name)
    && (forall k :: k in t.k8s ==> '/' !in k.slug && '/' !in k.name)
    && (forall i :: i in t.located ==> '/' !in i.cluster && '/' !in i.project && '/' !in i.name)
    && (forall m, g :: m in t.memberGroups && g in m.groups ==> '/' !in g)
    && (forall i, j :: 0 <= i < j < |t.located| ==> t.located[i].(location := "") != t.located[j].(location := ""))
  }

  lemma EntriesParse(t: Tables, e: Entry)
    requires Named(t) && EntryFrom(t, e)
    ensures Parse(e.path).Some?
  {
    hide Parse, PlatformRole, TenantRole;
    ParseOfFormat(Root);
    if m :| m in t.members && e in MemberEntry(m) {
      ParseOfFormat(Tenant(m.slug));
    } else if a :| a in t.accounts && e in AccountEntry(a) {
      if e.path != "/" {
        ParseOfFormat(Tenant(a.slug.value));
      }
    }
  }

  lemma {:induction false} GroupsAreSlashFree(rows: seq<ClusterMemberRow>, cluster: string, name: string)
    requires forall m, g :: m in rows && g in m.groups ==> '/' !in g
    ensures forall g :: g in GroupsAt(rows, cluster, name) ==> '/' !in g
  {
    if rows != [] {
      GroupsAreSlashFree(rows[..|rows| - 1], cluster, name);
      assert rows[|rows| - 1] in rows;
    }
  }

  /** A snapshot of these tables: the entries they make, and maps that agree with them and with each other. */
  ghost predicate SnapshotOf(t: Tables, s: Acl.Snapshot) {
    && Coherent(s)
    && (forall e :: e in s.entries <==> EntryFrom(t, e))
    && s.disabled == DisabledOf(t)
    && (forall k, g :: g in Lookup(s.groupsOf, k) <==> InGroup(t, k, g))
    && (forall i :: i in t.located ==> Lookup(s.locatedIn, PathOf(i)) == GroupPathsOf(t, i))
    && (forall x :: x in s.owners ==> OwnedBy(t, x, s.owners[x]))
    && (forall x, u :: OwnedBy(t, x, u) ==> x in s.owners)
    && TenantsPlaced(t.places, s.tenantOf) && ProjectsPlaced(t.places, s.projectsOf)
    && (forall x :: x in s.projects <==> KnownProject(t, x))
    && SlugsOf(t.allTenants, s.tenantSlugs)
    && (forall x :: x in s.tenantOwners <==> OwnsTenant(t, x))
  }

  /** Loading, as the code runs it. */
  method LoadSnapshot(t: Tables) returns (s: Acl.Snapshot)
    requires Named(t)
    ensures SnapshotOf(t, s)
  {
    hide Coherent, Placed, EntryFrom, InGroup, OwnedBy, GroupPathsOf, TenantsPlaced, ProjectsPlaced, KnownProject,
      DisabledOf;
    hide Named, OwnsTenant, SlugsOf, Format;
    NamedPlaces(t);
    var entries := CollectEntries(t);
    var byPath, bySubject := IndexEntries(entries);
    var tenantOf, projectsOf := IndexPlaces(t.places);
    var owners := IndexOwners(t);
    var projects := CollectProjects(t);
    var groupsOf := IndexGroups(t);
    LocatedDistinct(t);
    var locatedIn, onGroup := IndexLocations(t);
    var slugs := IndexSlugs(t.allTenants);
    var tenantOwners := OwnersOf(t.members);
    s := Acl.Snapshot.Snapshot(entries, byPath, bySubject, DisabledOf(t), tenantOf, projectsOf, slugs, tenantOwners,
                               owners, projects, groupsOf, locatedIn, onGroup);
    OwnersAreMembers(t);
    TenantsListTheirProjects(t, s);
    LoadedIsCoherent(t, s);
  }

  /** The keys of the tenants' owners. */
  function OwnersOf(members: seq<MemberRow>): set<string> {
    set m | m in members && m.role == "owner" :: m.tenantId + ":" + m.userId
  }

  lemma NamedPlaces(t: Tables)
    requires Named(t)
    ensures forall p :: p in t.places ==> '/' !in p.cluster
  {
  }

  lemma OwnersAreMembers(t: Tables)
    ensures forall x :: x in OwnersOf(t.members) <==> OwnsTenant(t, x)
  {
  }

  /** The tenants by id; the last row of an id counts. */
  ghost predicate SlugsOf(rows: seq<TenantRow>, slugs: map<string, string>) {
    && (forall id :: id in slugs <==> exists r :: r in rows && r.id == id)
    && (forall id :: id in slugs ==> TenantRow(id, slugs[id]) in rows)
  }

  method IndexSlugs(rows: seq<TenantRow>) returns (slugs: map<string, string>)
    ensures SlugsOf(rows, slugs)
  {
    slugs := map[];
    for i := 0 to |rows|
      invariant SlugsOf(rows[..i], slugs)
    {
      assert rows[..i + 1] == rows[..i] + [rows[i]];
      slugs := slugs[rows[i].id := rows[i].slug];
    }
    assert rows[..|rows|] == rows;
  }

  /** With one row per id the two say the same. */
  lemma SlugsAreRows(rows: seq<TenantRow>, slugs: map<string, string>, id: string, slug: string)
    requires SlugsOf(rows, slugs) && forall a, b :: a in rows && b in rows && a.id == b.id ==> a == b
    ensures (id in slugs && slugs[id] == slug) <==> TenantRow(id, slug) in rows
  {
    if TenantRow(id, slug) in rows {
      assert id in slugs;
    }
  }

  lemma LoadedIsCoherent(t: Tables, s: Acl.Snapshot)
    requires Named(t) && Placed(s)
    requires forall e :: e in s.entries ==> EntryFrom(t, e)
    requires forall x, e :: e in Lookup(s.byPath, x) <==> e in s.entries && e.path == x
    requires forall k, e :: e in Lookup(s.bySubject, k) <==> e in s.entries && e.subject == k
    requires forall x :: x in s.owners ==> OwnedBy(t, x, s.owners[x])
    requires forall x :: x in s.projects ==> KnownProject(t, x)
    requires forall x :: x in s.locatedIn ==> exists i :: i in t.located && x == PathOf(i)
    requires forall i :: i in t.located ==> Lookup(s.locatedIn, PathOf(i)) == GroupPathsOf(t, i)
    requires forall x, g :: g in Lookup(s.locatedIn, x) <==> x in Lookup(s.onGroup, g)
    ensures Coherent(s)
  {
    forall e | e in s.entries
      ensures Parse(e.path).Some?
    {
      EntriesParse(t, e);
    }
    assert Indexed(s);
    forall x | x in s.owners
      ensures SpellsInstance(x) || SpellsKubernetes(x)
    {
      OwnersSpell(t, x, s.owners[x]);
    }
    forall x | x in s.projects
      ensures SpellsProject(x)
    {
      ProjectsSpell(t, x);
    }
    LoadedIsLocated(t, s);
  }

  lemma LoadedIsLocated(t: Tables, s: Acl.Snapshot)
    requires Named(t)
    requires forall x :: x in s.locatedIn ==> exists i :: i in t.located && x == PathOf(i)
    requires forall i :: i in t.located ==> Lookup(s.locatedIn, PathOf(i)) == GroupPathsOf(t, i)
    requires forall x, g :: g in Lookup(s.locatedIn, x) <==> x in Lookup(s.onGroup, g)
    ensures Located(s)
  {
    hide Named, PathOf, GroupPathsOf, SpellsPlace;
    forall x, g | g in Lookup(s.locatedIn, x)
      ensures SpellsPlace(x, g)
    {
      assert x in s.locatedIn;
      var i :| i in t.located && x == PathOf(i);
      LocationsSpell(t, i, g);
    }
  }

  lemma LocatedDistinct(t: Tables)
    requires Named(t)
    ensures forall i, j :: 0 <= i < j < |t.located| ==> PathOf(t.located[i]) != PathOf(t.located[j])
  {
    forall i, j | 0 <= i < j < |t.located|
      ensures PathOf(t.located[i]) != PathOf(t.located[j])
    {
      var a, b := t.located[i], t.located[j];
      if PathOf(a) == PathOf(b) {
        FormatInjective(Instance(a.cluster, a.project, a.name), Instance(b.cluster, b.project, b.name));
      }
    }
  }

  lemma OwnersSpell(t: Tables, x: string, subject: string)
    requires Named(t) && OwnedBy(t, x, subject)
    ensures SpellsInstance(x) || SpellsKubernetes(x)
  {
    if o :| o in t.owned && x == Format(Instance(o.cluster, o.project, o.name)) {
      assert SlashFree(Instance(o.cluster, o.project, o.name));
    } else if k :| k in t.k8s && x == Format(Kubernetes(k.slug, k.name)) {
      assert SlashFree(Kubernetes(k.slug, k.name));
    }
  }

  lemma ProjectsSpell(t: Tables, x: string)
    requires Named(t)
    requires KnownProject(t, x)
    ensures SpellsProject(x)
  {
    if p :| p in t.places && x == Format(Project(p.cluster, p.project)) {
      assert SlashFree(Project(p.cluster, p.project));
    } else if i :| i in t.located && x == Format(Project(i.cluster, i.project)) {
      assert SlashFree(Project(i.cluster, i.project));
    }
  }

  lemma LocationsSpell(t: Tables, i: InstanceRow, g: string)
    requires Named(t) && i in t.located && g in GroupPathsOf(t, i)
    ensures SpellsPlace(PathOf(i), g)
  {
    assert SlashFree(Instance(i.cluster, i.project, i.name));
    GroupsAreSlashFree(t.memberGroups, i.cluster, i.location);
    var names := GroupsAt(t.memberGroups, i.cluster, i.location);
    var k :| 0 <= k < |names| && g == Format(Group(i.cluster, names[k]));
    assert names[k] in names;
    assert SlashFree(Group(i.cluster, names[k]));
  }
}
