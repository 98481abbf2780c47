/**
 What the role tables of platform, tenants and service accounts come to
 (incuscloud/server/src/acl/acl.ts, the tables of roles and load): the
 privileges somebody holds, by the decision over the loaded snapshot, who has
 one row of those tables and no explicit entry.
 */
module Tenancy {
  import opened Text
  import opened Catalog
  import opened Paths
  import opened Resolve
  import opened Acl
  import opened Load

  // ----- One entry -----

  /** An entry counts for a subject when it is the subject's or one of its groups'. */
  ghost predicate CountsFor(t: Tables, e: Entry, subject: string) {
    EntryFrom(t, e) && (e.subject == subject || InGroup(t, subject, e.subject))
  }

  /** At most one entry counts for the subject, and this is it. */
  ghost predicate Only(t: Tables, subject: string, es: seq<Entry>) {
    |es| <= 1 && forall e :: CountsFor(t, e, subject) <==> e in es
  }

  lemma OnlyDecides(t: Tables, s: Acl.Snapshot, subject: string, es: seq<Entry>, path: string, p: Privilege)
    requires SnapshotOf(t, s) && subject !in DisabledOf(t) && Only(t, subject, es) && Parse(path).Some?
    requires es != [] ==> es[0].propagate && es[0].role != NoAccess && es[0].role != User
    requires es != [] ==> es[0].path in Chain(Parse(path).value, s.tenantOf)
    ensures p in Decided(s, subject, path).privileges <==> es != [] && Gives(es[0].role, p)
  {
    hide Chain, DecideAs, SnapshotOf, Only, DisabledOf, Gives, GivesOwner, Parse, PRIVILEGES;
    var d := Decided(s, subject, path);
    OnlyOne(t, subject, es);
    DecidersAreOnly(t, s, subject, es, path);
    DecidedUnfenced(s, subject, path, None, p);
    UserCompared(p);
    if es != [] {
      assert es[0] in d.decidedBy;
    }
  }

  lemma OnlyOne(t: Tables, subject: string, es: seq<Entry>)
    requires Only(t, subject, es)
    ensures |es| <= 1 && forall e :: e in es ==> e == es[0]
  {
    hide EntryFrom, InGroup;
  }

  lemma DecidersAreOnly(t: Tables, s: Acl.Snapshot, subject: string, es: seq<Entry>, path: string)
    requires SnapshotOf(t, s) && subject !in DisabledOf(t) && Only(t, subject, es) && Parse(path).Some?
    ensures forall e :: e in Decided(s, subject, path).decidedBy ==>
      e in es && e.path in Chain(Parse(path).value, s.tenantOf) + Sides(s, Parse(path).value, path)
    ensures es != [] && es[0].propagate && es[0].path in Chain(Parse(path).value, s.tenantOf) ==>
      es[0] in Decided(s, subject, path).decidedBy
  {
    hide Chain, DecideAs, SnapshotOf, Only, DisabledOf, Sides, KeysOf, Lookup, Parse;
    OnlyOne(t, subject, es);
    EnabledInSnapshot(t, s, subject);
    WhoDecidesAt(s, subject, path, None);
    var d := Decided(s, subject, path);
    var around := Chain(Parse(path).value, s.tenantOf) + Sides(s, Parse(path).value, path);
    forall e | e in d.decidedBy
      ensures e in es && e.path in around
    {
      var x :| x in around && e in Lookup(s.byPath, x);
      CountedIsOnly(t, s, subject, es, e, x);
    }
    if es != [] && es[0].propagate && es[0].path in Chain(Parse(path).value, s.tenantOf) {
      OnlyIsCounted(t, s, subject, es);
      assert d.decidedBy != [] && d.decidedBy[0] in d.decidedBy;
    }
  }

  lemma EnabledInSnapshot(t: Tables, s: Acl.Snapshot, subject: string)
    requires SnapshotOf(t, s) && subject !in DisabledOf(t)
    ensures subject !in s.disabled && Coherent(s)
  {
    hide Coherent, DisabledOf;
  }

  lemma CountedIsOnly(t: Tables, s: Acl.Snapshot, subject: string, es: seq<Entry>, e: Entry, x: string)
    requires SnapshotOf(t, s) && Only(t, subject, es) && e.subject in KeysOf(s, subject) && e in Lookup(s.byPath, x)
    ensures e in es && e.path == x
  {
    hide EntryFrom, InGroup;
    assert CountsFor(t, e, subject);
  }

  lemma OnlyIsCounted(t: Tables, s: Acl.Snapshot, subject: string, es: seq<Entry>)
    requires SnapshotOf(t, s) && Only(t, subject, es) && es != []
    ensures es[0].subject in KeysOf(s, subject) && es[0] in Lookup(s.byPath, es[0].path)
  {
    hide EntryFrom, InGroup;
    assert es[0] in es && CountsFor(t, es[0], subject);
  }

  /** Off the chain it gives nothing, unless it is on a cluster group. */
  lemma OnlyElsewhere(t: Tables, s: Acl.Snapshot, subject: string, es: seq<Entry>, path: string)
    requires SnapshotOf(t, s) && subject !in DisabledOf(t) && Only(t, subject, es) && Parse(path).Some?
    requires es != [] ==> es[0].path !in Chain(Parse(path).value, s.tenantOf) && StartsWith(es[0].path, "/tenants/")
    ensures Decided(s, subject, path).privileges == {}
  {
    hide Chain, DecideAs, SnapshotOf, Only, DisabledOf, Sides, Parse, Coherent, StartsWith, Granted;
    OnlyOne(t, subject, es);
    EnabledInSnapshot(t, s, subject);
    DecidersAreOnly(t, s, subject, es, path);
    var d := Decided(s, subject, path);
    forall e
      ensures e !in d.decidedBy
    {
      if e.path in Sides(s, Parse(path).value, path) {
        SidesAreGroups(s, path, e.path);
      }
    }
    forall p
      ensures p !in d.privileges
    {
      DecidedUnfenced(s, subject, path, None, p);
    }
  }

  lemma SidesAreGroups(s: Acl.Snapshot, path: string, g: string)
    requires Coherent(s) && Parse(path).Some? && g in Sides(s, Parse(path).value, path)
    ensures !StartsWith(g, "/tenants/")
  {
    assert SpellsPlace(path, g);
    var q: AclPath :| q.Group? && SlashFree(q) && g == Format(q);
    if StartsWith(g, "/tenants/") {
      StartsWithAt(g, "/tenants/", 1);
    }
  }

  // ----- Kinds of subjects -----

  lemma GroupsAreNobody(t: Tables, subject: string, group: string)
    requires InGroup(t, subject, group)
    ensures forall id :: group != "user:" + id && group != "service:" + id
  {
    assert group[0] == 'g' || group[0] == 't';
    forall id
      ensures group != "user:" + id && group != "service:" + id
    {
      assert ("user:" + id)[0] == 'u' && ("service:" + id)[0] == 's';
    }
  }

  lemma SubjectsApart(a: string, b: string)
    ensures "user:" + a == "user:" + b ==> a == b
    ensures "service:" + a == "service:" + b ==> a == b
    ensures "user:" + a != "service:" + b
  {
    assert ("user:" + a)[5..] == a && ("user:" + b)[5..] == b;
    assert ("service:" + a)[8..] == a && ("service:" + b)[8..] == b;
    assert ("user:" + a)[0] == 'u' && ("service:" + b)[0] == 's';
  }

  /** No explicit entry counts for the subject. */
  ghost predicate NoneExplicit(t: Tables, subject: string) {
    forall r :: r in t.explicit && r.role.Some? ==>
      EntrySubject(r) != subject && !InGroup(t, subject, EntrySubject(r))
  }

  // ----- Whom an explicit entry reaches -----

  /** A member of one of IncusCloud's groups, by its row. */
  ghost predicate UserInGroup(t: Tables, userId: string, groupId: string) {
    exists g :: g in t.grouped && g.groupId == groupId && g.userId == Some(userId)
  }

  ghost predicate AccountInGroup(t: Tables, accountId: string, groupId: string) {
    exists g :: g in t.grouped && g.groupId == groupId && g.userId == None && g.serviceAccountId == Some(accountId)
  }

  ghost predicate UserInTenant(t: Tables, userId: string, tenantId: string) {
    exists m :: m in t.members && m.userId == userId && m.tenantId == tenantId
  }

  ghost predicate AccountInTenant(t: Tables, accountId: string, tenantId: string) {
    exists a :: a in t.accounts && a.id == accountId && a.tenantId == Some(tenantId)
  }

  /** One subject column is set, as the database demands. */
  predicate OneSubject(r: EntryRow) {
    match (r.userId, r.serviceAccountId, r.groupId, r.tenantGroupId)
    case (Some(_), None, None, None) => true
    case (None, Some(_), None, None) => true
    case (None, None, Some(_), None) => true
    case (None, None, None, Some(_)) => true
    case _ => false
  }

  /** An entry counts for a user when it names the user, one of its groups, or a tenant it is a member of. */
  lemma ReachesUsers(t: Tables, s: Acl.Snapshot, r: EntryRow, userId: string)
    requires SnapshotOf(t, s) && r in t.explicit && OneSubject(r)
    ensures EntrySubject(r) in KeysOf(s, "user:" + userId)
      <==>
      || r.userId == Some(userId)
      || (r.groupId.Some? && UserInGroup(t, userId, r.groupId.value))
      || (r.tenantGroupId.Some? && UserInTenant(t, userId, r.tenantGroupId.value))
  {
    hide Coherent, EntryFrom, DisabledOf;
    var subject, e := "user:" + userId, EntrySubject(r);
    KeyOrGroup(t, s, subject, e);
    if r.userId.Some? {
      SubjectsApart(r.userId.value, userId);
      NobodyIsAGroup(t, subject, e);
    } else if r.serviceAccountId.Some? {
      SubjectsApart(userId, r.serviceAccountId.value);
      NobodyIsAGroup(t, subject, e);
    } else {
      GroupsApart(e, r);
      UserGroups(t, userId, r);
      assert subject[0] == 'u';
    }
  }

  /** And for a service account likewise. */
  lemma ReachesAccounts(t: Tables, s: Acl.Snapshot, r: EntryRow, accountId: string)
    requires SnapshotOf(t, s) && r in t.explicit && OneSubject(r)
    requires forall g :: g in t.grouped ==> g.userId.Some? || g.serviceAccountId.Some?
    ensures EntrySubject(r) in KeysOf(s, "service:" + accountId)
      <==>
      || r.serviceAccountId == Some(accountId)
      || (r.groupId.Some? && AccountInGroup(t, accountId, r.groupId.value))
      || (r.tenantGroupId.Some? && AccountInTenant(t, accountId, r.tenantGroupId.value))
  {
    hide Coherent, EntryFrom, DisabledOf;
    var subject, e := "service:" + accountId, EntrySubject(r);
    KeyOrGroup(t, s, subject, e);
    if r.userId.Some? {
      SubjectsApart(r.userId.value, accountId);
      NobodyIsAGroup(t, subject, e);
    } else if r.serviceAccountId.Some? {
      SubjectsApart(r.serviceAccountId.value, accountId);
      NobodyIsAGroup(t, subject, e);
    } else {
      GroupsApart(e, r);
      AccountGroups(t, accountId, r);
      assert subject[0] == 's';
    }
  }

  lemma KeyOrGroup(t: Tables, s: Acl.Snapshot, subject: string, key: string)
    requires SnapshotOf(t, s)
    ensures key in KeysOf(s, subject) <==> key == subject || InGroup(t, subject, key)
  {
    hide Coherent, EntryFrom, DisabledOf, InGroup;
  }

  lemma NobodyIsAGroup(t: Tables, subject: string, key: string)
    requires exists id :: key == "user:" + id || key == "service:" + id
    ensures !InGroup(t, subject, key)
  {
    if InGroup(t, subject, key) {
      GroupsAreNobody(t, subject, key);
    }
  }

  lemma GroupsApart(key: string, r: EntryRow)
    requires key == EntrySubject(r) && OneSubject(r) && r.userId.None? && r.serviceAccountId.None?
    ensures r.groupId.Some? ==>
      key[0] == 'g' && forall id :: (key == "group:" + id <==> id == r.groupId.value) && key != "tenant:" + id
    ensures r.tenantGroupId.Some? ==>
      key[0] == 't' && forall id :: (key == "tenant:" + id <==> id == r.tenantGroupId.value) && key != "group:" + id
  {
    if r.groupId.Some? {
      forall id
        ensures (key == "group:" + id <==> id == r.groupId.value) && key != "tenant:" + id
      {
        assert ("group:" + id)[6..] == id && key[6..] == r.groupId.value && ("tenant:" + id)[0] == 't';
      }
    } else {
      forall id
        ensures (key == "tenant:" + id <==> id == r.tenantGroupId.value) && key != "group:" + id
      {
        assert ("tenant:" + id)[7..] == id && key[7..] == r.tenantGroupId.value && ("group:" + id)[0] == 'g';
      }
    }
  }

  lemma UserGroups(t: Tables, userId: string, r: EntryRow)
    requires OneSubject(r) && r.userId.None? && r.serviceAccountId.None?
    ensures InGroup(t, "user:" + userId, EntrySubject(r))
      <==>
      || (r.groupId.Some? && UserInGroup(t, userId, r.groupId.value))
      || (r.tenantGroupId.Some? && UserInTenant(t, userId, r.tenantGroupId.value))
  {
    GroupsApart(EntrySubject(r), r);
    forall id
      ensures "user:" + userId == "user:" + id <==> id == userId
      ensures "user:" + userId != "service:" + id
    {
      SubjectsApart(userId, id);
    }
  }

  lemma AccountGroups(t: Tables, accountId: string, r: EntryRow)
    requires OneSubject(r) && r.userId.None? && r.serviceAccountId.None?
    requires forall g :: g in t.grouped ==> g.userId.Some? || g.serviceAccountId.Some?
    ensures InGroup(t, "service:" + accountId, EntrySubject(r))
      <==>
      || (r.groupId.Some? && AccountInGroup(t, accountId, r.groupId.value))
      || (r.tenantGroupId.Some? && AccountInTenant(t, accountId, r.tenantGroupId.value))
  {
    GroupsApart(EntrySubject(r), r);
    forall id
      ensures "service:" + accountId == "service:" + id <==> id == accountId
      ensures "user:" + id != "service:" + accountId
    {
      SubjectsApart(id, accountId);
      SubjectsApart(accountId, id);
    }
  }

  /** An instance with one owner row is owned by the user it names, or else by the service account. */
  lemma OwnerRowCounts(t: Tables, s: Acl.Snapshot, o: OwnedRow)
    requires SnapshotOf(t, s) && o in t.owned && (o.userId.Some? || o.serviceAccountId.Some?)
    requires '/' !in o.cluster && '/' !in o.project && '/' !in o.name
    requires forall x :: x in t.owned && x.cluster == o.cluster && x.project == o.project && x.name == o.name ==> x == o
    requires forall x :: x in t.owned ==> '/' !in x.cluster && '/' !in x.project && '/' !in x.name
    requires forall k :: k in t.k8s ==> '/' !in k.slug && '/' !in k.name
    ensures var path := Format(Instance(o.cluster, o.project, o.name));
      path in s.owners
      && s.owners[path] == match o.userId
                           case Some(u) => "user:" + u
                           case None => "service:" + o.serviceAccountId.value
  {
    hide Coherent, EntryFrom, DisabledOf, InGroup, Format;
    var at := Instance(o.cluster, o.project, o.name);
    var path := Format(at);
    assert InstanceOwnedBy(t.owned, path, OwnerSubject(o).value);
    assert OwnedBy(t, path, OwnerSubject(o).value);
    assert path in s.owners && OwnedBy(t, path, s.owners[path]);
    forall k | k in t.k8s
      ensures path != Format(Kubernetes(k.slug, k.name))
    {
      if path == Format(Kubernetes(k.slug, k.name)) { FormatInjective(at, Kubernetes(k.slug, k.name)); }
    }
    var x :| x in t.owned && path == Format(Instance(x.cluster, x.project, x.name))
             && OwnerSubject(x) == Some(s.owners[path]);
    FormatInjective(at, Instance(x.cluster, x.project, x.name));
  }

  // ----- What is held -----

  /** Looking at everything, and at the audit log. */
  predicate Reads(p: Privilege) {
    p in PRIVILEGES && (p.action == View || p == Privilege(OnPlatform, Audit))
  }

  /** Everything that runs in projects, and seeing the cluster and the tenant. */
  predicate Works(p: Privilege) {
    && p in PRIVILEGES
    && (|| p.on in {OnInstance, OnNetwork, OnImage, OnProject, OnBackup, OnReplication, OnK8s}
        || p in {Privilege(OnPlacement, Choose), Privilege(OnStorage, View), Privilege(OnStorage, Allocate),
                 Privilege(OnCluster, View), Privilege(OnTenant, View)})
  }

  /** That, all of the tenant, and its permissions. */
  predicate RunsTenant(p: Privilege) {
    Works(p) || (p in PRIVILEGES && p.on in {OnTenant, OnAcl})
  }

  /** Everything but what reaches other people's rights and the platform's settings. */
  predicate Operates(p: Privilege) {
    p in PRIVILEGES && p !in {Privilege(OnAcl, Manage), Privilege(OnPlatform, Users), Privilege(OnPlatform, Settings)}
  }

  lemma RolesHold(p: Privilege)
    ensures Gives(Auditor, p) <==> Reads(p)
    ensures Gives(UnrestrictedUser, p) <==> Works(p)
    ensures Gives(TenantAdmin, p) <==> RunsTenant(p)
    ensures Gives(Operator, p) <==> Operates(p)
    ensures Gives(Administrator, p) <==> p in PRIVILEGES
  {
    hide PRIVILEGES;
    IsPrivilegeIffListed(p);
  }

  /** What a platform role comes to. */
  predicate PlatformHolds(role: string, p: Privilege) {
    || (role == "admin" && p in PRIVILEGES)
    || (role == "operator" && Operates(p))
    || (role == "viewer" && Reads(p))
  }

  lemma PlatformRoleHolds(role: string, p: Privilege)
    ensures PlatformHolds(role, p) <==> PlatformRole(role).Some? && Gives(PlatformRole(role).value, p)
    ensures PlatformRole(role).Some? ==> PlatformRole(role).value !in {NoAccess, User}
  {
    hide Gives, PRIVILEGES;
    RolesHold(p);
  }

  // ----- The paths of a tenant -----

  /** The tenant, its Kubernetes clusters, the projects placed for it last, and the instances in them. */
  ghost predicate OfTenant(t: Tables, slug: string, path: string) {
    || path == "/tenants/" + slug
    || (exists n :: IsName(n) && path == Format(Kubernetes(slug, n)))
    || (exists c, pr :: LastPlaced(t.places, c, pr) == Some(slug) && InProject(c, pr, path))
  }

  ghost predicate InProject(c: string, pr: string, path: string) {
    WellFormed(Project(c, pr))
    && (path == Format(Project(c, pr)) || exists i :: IsName(i) && path == Format(Instance(c, pr, i)))
  }

  lemma TenantOnChain(t: Tables, s: Acl.Snapshot, slug: string, path: string)
    requires TenantsPlaced(t.places, s.tenantOf) && IsName(slug) && OfTenant(t, slug, path)
    ensures Parse(path).Some? && "/tenants/" + slug in Chain(Parse(path).value, s.tenantOf)
  {
    hide LastPlaced;
    assert "/tenants/" + slug == Format(Tenant(slug));
    if path == "/tenants/" + slug {
      ParseOfFormat(Tenant(slug));
    } else if n :| IsName(n) && path == Format(Kubernetes(slug, n)) {
      ParseOfFormat(Kubernetes(slug, n));
      assert Chain(Kubernetes(slug, n), s.tenantOf) == [path] + Chain(Tenant(slug), s.tenantOf);
    } else {
      var c, pr :| LastPlaced(t.places, c, pr) == Some(slug) && InProject(c, pr, path);
      ProjectOnChain(t, s, slug, c, pr, path);
    }
  }

  lemma ProjectOnChain(t: Tables, s: Acl.Snapshot, slug: string, c: string, pr: string, path: string)
    requires TenantsPlaced(t.places, s.tenantOf) && IsName(slug)
    requires LastPlaced(t.places, c, pr) == Some(slug) && InProject(c, pr, path)
    ensures Parse(path).Some? && "/tenants/" + slug in Chain(Parse(path).value, s.tenantOf)
  {
    hide LastPlaced, Format;
    NamesHoldNoSlash(Project(c, pr));
    assert TenantAt(s.tenantOf, c, pr) == Some(slug);
    assert "/tenants/" + slug in Chain(Project(c, pr), s.tenantOf);
    if path == Format(Project(c, pr)) {
      ParseOfFormat(Project(c, pr));
    } else {
      var i :| IsName(i) && path == Format(Instance(c, pr, i));
      assert WellFormed(Instance(c, pr, i));
      ParseOfFormat(Instance(c, pr, i));
      assert Chain(Instance(c, pr, i), s.tenantOf) == [path] + Chain(Project(c, pr), s.tenantOf);
    }
  }

  // ----- A tenant's member -----

  /** A user with one membership, enabled, on the platform nobody, and with no explicit entry. */
  ghost predicate OnlyMember(t: Tables, m: MemberRow) {
    && m in t.members && (forall x :: x in t.members && x.userId == m.userId ==> x == m)
    && (forall r :: r in t.roles ==> r.userId != m.userId)
    && (forall u :: u in t.people && u.id == m.userId ==> !u.disabled)
    && NoneExplicit(t, "user:" + m.userId)
  }

  lemma MemberHasOnly(t: Tables, m: MemberRow)
    requires OnlyMember(t, m)
    ensures Only(t, "user:" + m.userId, MemberEntry(m)) && "user:" + m.userId !in DisabledOf(t)
  {
    hide InGroup;
    var subject := "user:" + m.userId;
    forall e
      ensures CountsFor(t, e, subject) <==> e in MemberEntry(m)
    {
      if CountsFor(t, e, subject) {
        if InGroup(t, subject, e.subject) { GroupsAreNobody(t, subject, e.subject); }
        if x :| x in t.members && e in MemberEntry(x) { SubjectsApart(x.userId, m.userId); }
        if r :| r in t.roles && e in RoleEntry(r) { SubjectsApart(r.userId, m.userId); }
        if a :| a in t.accounts && e in AccountEntry(a) { SubjectsApart(m.userId, a.id); }
      }
    }
    EnabledUser(t, m.userId);
  }

  lemma EnabledUser(t: Tables, userId: string)
    requires forall u :: u in t.people && u.id == userId ==> !u.disabled
    ensures "user:" + userId !in DisabledOf(t)
  {
    if u :| u in t.people && u.disabled && "user:" + userId == "user:" + u.id { SubjectsApart(userId, u.id); }
    if a :| a in t.accounts && "user:" + userId == "service:" + a.id { SubjectsApart(userId, a.id); }
  }

  /**
   On its tenant's paths a viewer looks, a member works, an owner or
   administrator runs the tenant as well, and any other membership is nothing.
   */
  lemma MemberHolds(t: Tables, s: Acl.Snapshot, m: MemberRow, path: string, p: Privilege)
    requires SnapshotOf(t, s) && OnlyMember(t, m) && IsName(m.slug) && OfTenant(t, m.slug, path)
    ensures p in Decided(s, "user:" + m.userId, path).privileges
      <==>
      || (m.role == "viewer" && Reads(p))
      || (m.role == "member" && Works(p))
      || ((m.role == "owner" || m.role == "admin") && RunsTenant(p))
  {
    hide Gives, Reads, Works, RunsTenant, Only, SnapshotOf, OnlyMember, OfTenant, DecideAs, Chain, DisabledOf;
    MemberHasOnly(t, m);
    ChainOfTenant(t, s, m.slug, path);
    OnlyDecides(t, s, "user:" + m.userId, MemberEntry(m), path, p);
    RolesHold(p);
  }

  lemma ChainOfTenant(t: Tables, s: Acl.Snapshot, slug: string, path: string)
    requires SnapshotOf(t, s) && IsName(slug) && OfTenant(t, slug, path)
    ensures Parse(path).Some? && "/tenants/" + slug in Chain(Parse(path).value, s.tenantOf)
  {
    hide OfTenant, Chain;
    TenantOnChain(t, s, slug, path);
  }

  /** Anywhere else it holds nothing. */
  lemma MemberHoldsNothingElsewhere(t: Tables, s: Acl.Snapshot, m: MemberRow, path: string)
    requires SnapshotOf(t, s) && OnlyMember(t, m)
    requires Parse(path).Some? && "/tenants/" + m.slug !in Chain(Parse(path).value, s.tenantOf)
    ensures Decided(s, "user:" + m.userId, path).privileges == {}
  {
    hide Only, SnapshotOf, OnlyMember, DecideAs, Chain, DisabledOf;
    MemberHasOnly(t, m);
    assert ("/tenants/" + m.slug)[..9] == "/tenants/";
    OnlyElsewhere(t, s, "user:" + m.userId, MemberEntry(m), path);
  }

  // ----- Platform staff -----

  ghost predicate OnlyStaff(t: Tables, r: PlatformRoleRow) {
    && r in t.roles && (forall x :: x in t.roles && x.userId == r.userId ==> x == r)
    && (forall m :: m in t.members ==> m.userId != r.userId)
    && (forall u :: u in t.people && u.id == r.userId ==> !u.disabled)
    && NoneExplicit(t, "user:" + r.userId)
  }

  lemma StaffHasOnly(t: Tables, r: PlatformRoleRow)
    requires OnlyStaff(t, r)
    ensures Only(t, "user:" + r.userId, RoleEntry(r)) && "user:" + r.userId !in DisabledOf(t)
  {
    hide InGroup;
    var subject := "user:" + r.userId;
    forall e
      ensures CountsFor(t, e, subject) <==> e in RoleEntry(r)
    {
      if CountsFor(t, e, subject) {
        if InGroup(t, subject, e.subject) { GroupsAreNobody(t, subject, e.subject); }
        if m :| m in t.members && e in MemberEntry(m) { SubjectsApart(m.userId, r.userId); }
        if x :| x in t.roles && e in RoleEntry(x) { SubjectsApart(x.userId, r.userId); }
        if a :| a in t.accounts && e in AccountEntry(a) { SubjectsApart(r.userId, a.id); }
      }
    }
    EnabledUser(t, r.userId);
  }

  /** Staff hold what their role comes to on every path there is. */
  lemma StaffHolds(t: Tables, s: Acl.Snapshot, r: PlatformRoleRow, path: string, p: Privilege)
    requires SnapshotOf(t, s) && OnlyStaff(t, r) && Parse(path).Some?
    ensures p in Decided(s, "user:" + r.userId, path).privileges <==> PlatformHolds(r.role, p)
  {
    hide Gives, PlatformHolds, Only, SnapshotOf, OnlyStaff, DecideAs, Chain, DisabledOf, PlatformRole;
    StaffHasOnly(t, r);
    RootEndsChain(Parse(path).value, s.tenantOf);
    PlatformRoleHolds(r.role, p);
    OnlyDecides(t, s, "user:" + r.userId, RoleEntry(r), path, p);
  }

  // ----- Service accounts -----

  ghost predicate OnlyAccount(t: Tables, a: AccountRow) {
    && a in t.accounts && !a.disabled && (forall x :: x in t.accounts && x.id == a.id ==> x == a)
    && NoneExplicit(t, "service:" + a.id)
  }

  lemma AccountHasOnly(t: Tables, a: AccountRow)
    requires OnlyAccount(t, a)
    ensures Only(t, "service:" + a.id, AccountEntry(a)) && "service:" + a.id !in DisabledOf(t)
  {
    hide InGroup;
    var subject := "service:" + a.id;
    forall e
      ensures CountsFor(t, e, subject) <==> e in AccountEntry(a)
    {
      if CountsFor(t, e, subject) {
        if InGroup(t, subject, e.subject) { GroupsAreNobody(t, subject, e.subject); }
        if m :| m in t.members && e in MemberEntry(m) { SubjectsApart(m.userId, a.id); }
        if r :| r in t.roles && e in RoleEntry(r) { SubjectsApart(r.userId, a.id); }
        if x :| x in t.accounts && e in AccountEntry(x) { SubjectsApart(x.id, a.id); }
      }
    }
    EnabledAccount(t, a);
  }

  lemma EnabledAccount(t: Tables, a: AccountRow)
    requires OnlyAccount(t, a)
    ensures "service:" + a.id !in DisabledOf(t)
  {
    if u :| u in t.people && "service:" + a.id == "user:" + u.id { SubjectsApart(u.id, a.id); }
    if x :| x in t.accounts && x.disabled && "service:" + a.id == "service:" + x.id { SubjectsApart(a.id, x.id); }
  }

  /** An account of a tenant works on the tenant's paths, whatever platform role its row names. */
  lemma TenantAccountHolds(t: Tables, s: Acl.Snapshot, a: AccountRow, slug: string, path: string, p: Privilege)
    requires SnapshotOf(t, s) && OnlyAccount(t, a) && a.slug == Some(slug) && IsName(slug) && OfTenant(t, slug, path)
    ensures p in Decided(s, "service:" + a.id, path).privileges <==> Works(p)
  {
    hide Gives, Works, Only, SnapshotOf, OnlyAccount, OfTenant, DecideAs, Chain, DisabledOf, PlatformRole;
    AccountHasOnly(t, a);
    ChainOfTenant(t, s, slug, path);
    assert slug != "" by { assert IsName(slug); }
    OnlyDecides(t, s, "service:" + a.id, AccountEntry(a), path, p);
    RolesHold(p);
  }

  /** One of no tenant holds what its platform role comes to, everywhere; without a role, nothing. */
  lemma PlatformAccountHolds(t: Tables, s: Acl.Snapshot, a: AccountRow, path: string, p: Privilege)
    requires SnapshotOf(t, s) && OnlyAccount(t, a) && Parse(path).Some? && (a.slug == None || a.slug == Some(""))
    ensures p in Decided(s, "service:" + a.id, path).privileges
       <==> a.tenantId == None && a.platformRole.Some? && PlatformHolds(a.platformRole.value, p)
  {
    hide Gives, PlatformHolds, Only, SnapshotOf, OnlyAccount, DecideAs, Chain, DisabledOf, PlatformRole;
    AccountHasOnly(t, a);
    RootEndsChain(Parse(path).value, s.tenantOf);
    if a.platformRole.Some? {
      PlatformRoleHolds(a.platformRole.value, p);
    }
    OnlyDecides(t, s, "service:" + a.id, AccountEntry(a), path, p);
  }
}
