/**
 Who may change whose rights at a path (incuscloud/server/src/acl/outrank.ts,
 and reach in incuscloud/server/src/acl/acl.ts).
 */
module Outrank {
  import opened Text
  import opened Catalog
  import opened Paths
  import opened Resolve
  import opened Acl
  import opened Load

  /** What a subject holds on some of these paths. */
  function HeldOn(s: Acl.Snapshot, subject: string, paths: seq<string>): (held: set<Privilege>)
    ensures forall p :: p in held <==> exists x :: x in paths && p in Decided(s, subject, x).privileges
  {
    if paths == [] then {}
    else
      var last := |paths| - 1;
      assert paths == paths[..last] + [paths[last]];
      HeldOn(s, subject, paths[..last]) + Decided(s, subject, paths[last]).privileges
  }

  /** What a subject holds on the path or on any path of its chain. */
  ghost predicate InReach(s: Acl.Snapshot, subject: string, path: string, p: Privilege) {
    Parse(path).Some?
    && exists x :: x in Chain(Parse(path).value, s.tenantOf) && p in Decided(s, subject, x).privileges
  }

  method Reach(s: Acl.Snapshot, subject: string, path: string) returns (out: set<Privilege>)
    ensures forall p :: p in out <==> InReach(s, subject, path, p)
  {
    out := {};
    var parsed := Parse(path);
    if parsed.None? {
      return;
    }
    var chain := Chain(parsed.value, s.tenantOf);
    for i := 0 to |chain|
      invariant out == HeldOn(s, subject, chain[..i])
    {
      assert chain[..i + 1][..i] == chain[..i];
      var d := Decide(s, subject, chain[i], None);
      out := out + d.privileges;
    }
    assert chain[..|chain|] == chain;
  }

  /** The privilege clause, for one target: changing oneself is always allowed. */
  ghost predicate Outranks(s: Acl.Snapshot, caller: string, target: string, path: string) {
    target == caller || forall p :: InReach(s, target, path, p) ==> p in Decided(s, caller, path).privileges
  }

  /** The tenant a path starts with. */
  function TenantPrefix(path: string): Option<string> {
    var head := "/tenants/";
    if !StartsWith(path, head) then None
    else
      var slug := Split(path[|head|..], '/')[0];
      if slug == "" then None else Some(slug)
  }

  predicate IsOwner(s: Acl.Snapshot, tenantId: string, subject: string) {
    tenantId != "" && StartsWith(subject, "user:") && tenantId + ":" + subject[5..] in s.tenantOwners
  }

  ghost predicate OwnerClause(s: Acl.Snapshot, caller: string, tenantId: string, subjects: seq<string>) {
    (exists x :: x in subjects && x != caller && IsOwner(s, tenantId, x)) ==>
      IsOwner(s, tenantId, caller) || PLATFORM_USERS in Decided(s, caller, "/").privileges
  }

  /** The tenant-owner clause: an owner's rights are for owners of that tenant and user administrators to change. */
  ghost predicate OwnersRespected(s: Acl.Snapshot, caller: string, path: string, subjects: seq<string>) {
    var slug := TenantPrefix(path);
    slug.Some? ==>
      forall id :: id in s.tenantSlugs && s.tenantSlugs[id] == slug.value ==> OwnerClause(s, caller, id, subjects)
  }

  /** The guard lets the change through. */
  ghost predicate Allowed(s: Acl.Snapshot, caller: string, path: string, subjects: seq<string>) {
    (forall x :: x in subjects ==> Outranks(s, caller, x, path)) && OwnersRespected(s, caller, path, subjects)
  }

  /** The guard as the code runs it; slugs are unique, so the tenant is the one it finds. */
  method NeedOutrank(s: Acl.Snapshot, caller: string, path: string, subjects: seq<string>) returns (allowed: bool)
    requires forall a, b :: a in s.tenantSlugs && b in s.tenantSlugs && s.tenantSlugs[a] == s.tenantSlugs[b] ==> a == b
    ensures allowed <==> Allowed(s, caller, path, subjects)
  {
    var mine := Decide(s, caller, path, None);
    for i := 0 to |subjects|
      invariant forall x :: x in subjects[..i] ==> Outranks(s, caller, x, path)
    {
      assert subjects[..i + 1] == subjects[..i] + [subjects[i]];
      if subjects[i] == caller {
        continue;
      }
      var reach := Reach(s, subjects[i], path);
      if !(reach <= mine.privileges) {
        var p :| p in reach && p !in mine.privileges;
        assert !Outranks(s, caller, subjects[i], path);
        return false;
      }
    }
    assert subjects[..|subjects|] == subjects;
    var slug := TenantPrefix(path);
    if slug.None? {
      return true;
    }
    var ids := set id | id in s.tenantSlugs && s.tenantSlugs[id] == slug.value;
    assert forall id :: id in s.tenantSlugs && s.tenantSlugs[id] == slug.value ==> id in ids;
    if ids == {} {
      return true;
    }
    var id :| id in ids;
    var touched := exists x :: x in subjects && x != caller && IsOwner(s, id, x);
    if touched && !IsOwner(s, id, caller) {
      var top := Decide(s, caller, "/", None);
      return PLATFORM_USERS in top.privileges;
    }
    return true;
  }

  // ----- The owners, by the tables -----

  /** Ids as the database hands them out: not empty, without a colon, one tenant for each id and each slug. */
  ghost predicate PlainIds(t: Tables) {
    && (forall r :: r in t.allTenants ==> r.id != "" && ':' !in r.id)
    && (forall m :: m in t.members ==> ':' !in m.tenantId)
    && (forall a, b :: a in t.allTenants && b in t.allTenants && (a.id == b.id || a.slug == b.slug) ==> a == b)
  }

  /** A member row makes the subject an owner of the tenant. */
  ghost predicate OwnerRowOf(t: Tables, tenantId: string, subject: string) {
    exists m :: m in t.members && m.tenantId == tenantId && m.role == "owner" && subject == "user:" + m.userId
  }

  /** The tenant's path, or one below it. */
  predicate OnTenant(slug: string, path: string) {
    path == "/tenants/" + slug || StartsWith(path, "/tenants/" + slug + "/")
  }

  /**
   On a tenant and below it the guard refuses whoever is outranked, and also
   whoever would change an owner of the tenant, another than itself, without
   being an owner or managing users on `/`. Otherwise it lets the change pass.
   */
  lemma OwnersAreForOwners(t: Tables, s: Acl.Snapshot, tenant: TenantRow, caller: string, path: string,
      subjects: seq<string>)
    requires SnapshotOf(t, s) && PlainIds(t) && tenant in t.allTenants
    requires tenant.slug != "" && '/' !in tenant.slug && OnTenant(tenant.slug, path)
    ensures Allowed(s, caller, path, subjects)
      <==>
      && (forall x :: x in subjects ==> Outranks(s, caller, x, path))
      && ((exists x :: x in subjects && x != caller && OwnerRowOf(t, tenant.id, x)) ==>
            OwnerRowOf(t, tenant.id, caller) || PLATFORM_USERS in Decided(s, caller, "/").privileges)
  {
    hide SnapshotOf, Outranks, IsOwner, OwnerRowOf, DecideAs, TenantPrefix, OnTenant, PlainIds;
    PrefixOnTenant(tenant.slug, path);
    OneTenant(t, s, tenant);
    forall x
      ensures IsOwner(s, tenant.id, x) <==> OwnerRowOf(t, tenant.id, x)
    {
      OwnerByRow(t, s, tenant, x);
    }
    assert OwnersRespected(s, caller, path, subjects) <==> OwnerClause(s, caller, tenant.id, subjects);
    assert (exists x :: x in subjects && x != caller && IsOwner(s, tenant.id, x))
      <==> (exists x :: x in subjects && x != caller && OwnerRowOf(t, tenant.id, x));
  }

  /** Off the tenants, or on one nobody knows, it asks for privileges alone. */
  lemma NoOwnersElsewhere(t: Tables, s: Acl.Snapshot, caller: string, path: string, subjects: seq<string>)
    requires SnapshotOf(t, s)
    requires forall r :: r in t.allTenants ==> '/' !in r.slug && r.slug != "" && !OnTenant(r.slug, path)
    ensures Allowed(s, caller, path, subjects) <==> forall x :: x in subjects ==> Outranks(s, caller, x, path)
  {
    hide Outranks, OwnerClause, DecideAs, Coherent;
    var slug := TenantPrefix(path);
    if slug.Some? {
      PrefixIsOnTenant(path);
      forall id | id in s.tenantSlugs
        ensures s.tenantSlugs[id] != slug.value
      {
        assert TenantRow(id, s.tenantSlugs[id]) in t.allTenants;
      }
    }
  }

  lemma PrefixIsOnTenant(path: string)
    requires TenantPrefix(path).Some?
    ensures OnTenant(TenantPrefix(path).value, path)
  {
    var head := "/tenants/";
    var rest := path[|head|..];
    var slug := TenantPrefix(path).value;
    assert path == head + rest;
    if '/' in rest {
      var i := IndexOf(rest, '/');
      assert slug == rest[..i] && rest == slug + "/" + rest[i + 1..];
      assert path == (head + slug + "/") + rest[i + 1..];
      assert path[..|head + slug + "/"|] == head + slug + "/";
    } else {
      assert slug == rest;
    }
  }

  lemma PrefixOnTenant(slug: string, path: string)
    requires slug != "" && '/' !in slug && OnTenant(slug, path)
    ensures TenantPrefix(path) == Some(slug)
  {
    var head := "/tenants/";
    if path == head + slug {
      assert path[..|head|] == head && path[|head|..] == slug;
      SplitOfFree(slug, '/');
    } else {
      var rest := path[|head + slug + "/"|..];
      assert path == head + slug + "/" + rest;
      assert path[..|head|] == head && path[|head|..] == slug + "/" + rest;
      SplitAfter(slug, rest, '/');
    }
  }

  lemma OneTenant(t: Tables, s: Acl.Snapshot, tenant: TenantRow)
    requires SnapshotOf(t, s) && PlainIds(t) && tenant in t.allTenants
    ensures forall id :: id in s.tenantSlugs && s.tenantSlugs[id] == tenant.slug <==> id == tenant.id
  {
    hide Coherent;
    forall id
      ensures id in s.tenantSlugs && s.tenantSlugs[id] == tenant.slug <==> id == tenant.id
    {
      SlugsAreRows(t.allTenants, s.tenantSlugs, id, tenant.slug);
      assert id == tenant.id ==> tenant == TenantRow(id, tenant.slug);
    }
  }

  lemma OwnerByRow(t: Tables, s: Acl.Snapshot, tenant: TenantRow, subject: string)
    requires SnapshotOf(t, s) && PlainIds(t) && tenant in t.allTenants
    ensures IsOwner(s, tenant.id, subject) <==> OwnerRowOf(t, tenant.id, subject)
  {
    hide Coherent;
    if IsOwner(s, tenant.id, subject) {
      var m :| m in t.members && m.role == "owner" && tenant.id + ":" + subject[5..] == m.tenantId + ":" + m.userId;
      CutAt(tenant.id, subject[5..], m.tenantId, m.userId, ':');
      assert subject == subject[..5] + subject[5..];
    }
    if m :| m in t.members && m.tenantId == tenant.id && m.role == "owner" && subject == "user:" + m.userId {
      assert subject[..5] == "user:" && subject[5..] == m.userId;
      assert OwnsTenant(t, tenant.id + ":" + m.userId);
    }
  }

  lemma PathInItsChain(s: Acl.Snapshot, path: string)
    requires Parse(path).Some?
    ensures path in Chain(Parse(path).value, s.tenantOf)
  {
    FormatOfParse(path);
  }

  /**
   Passing the clause reaches everything above: what the target holds on any path of the chain, the
   caller holds at the path.
   */
  lemma OutrankingCoversTheChain(s: Acl.Snapshot, caller: string, target: string, path: string, x: string)
    requires Parse(path).Some? && target != caller && Outranks(s, caller, target, path)
    requires x in Chain(Parse(path).value, s.tenantOf)
    ensures Decided(s, target, x).privileges <= Decided(s, caller, path).privileges
    ensures Decided(s, target, path).privileges <= Decided(s, caller, path).privileges
  {
    PathInItsChain(s, path);
    forall p | p in Decided(s, target, x).privileges || p in Decided(s, target, path).privileges
      ensures p in Decided(s, caller, path).privileges
    {
      assert InReach(s, target, path, p);
    }
  }

  /** Reach grows on the way down: what a subject reaches at a path of the chain it reaches at the path. */
  lemma ReachGrowsDown(s: Acl.Snapshot, subject: string, path: string, above: string, p: Privilege)
    requires Coherent(s) && Parse(path).Some? && Parse(above).Some? && above in Chain(Parse(path).value, s.tenantOf)
    requires InReach(s, subject, above, p)
    ensures InReach(s, subject, path, p)
  {
    hide Format, Decided;
    var at, up := Parse(path).value, Parse(above).value;
    FormatOfParse(path);
    FormatOfParse(above);
    NamesHoldNoSlash(at);
    NamesHoldNoSlash(up);
    var x :| x in Chain(up, s.tenantOf) && p in Decided(s, subject, x).privileges;
    SlugHoldsNoSlash(s, at);
    ChainClosed(up, at, s.tenantOf, x);
  }

  lemma SlugHoldsNoSlash(s: Acl.Snapshot, p: AclPath)
    requires Coherent(s) && SlashFree(p)
    ensures SlugOn(p, s.tenantOf).Some? ==> '/' !in SlugOn(p, s.tenantOf).value
  {
  }

  /**
   So whoever outranks a subject on a path holds there all the subject reaches
   on any path above: a change at the path never gets past someone by being
   made lower down.
   */
  lemma OutrankingHoldsAbove(s: Acl.Snapshot, caller: string, target: string, path: string, above: string)
    requires Coherent(s) && Parse(path).Some? && Parse(above).Some? && above in Chain(Parse(path).value, s.tenantOf)
    requires target != caller && Outranks(s, caller, target, path)
    ensures forall p :: InReach(s, target, above, p) ==> p in Decided(s, caller, path).privileges
  {
    forall p | InReach(s, target, above, p)
      ensures p in Decided(s, caller, path).privileges
    {
      ReachGrowsDown(s, target, path, above, p);
    }
  }

  /** Outranking somebody else takes, at the path, all that it holds there and on each path above; oneself, nothing. */
  lemma OutranksIff(s: Acl.Snapshot, caller: string, target: string, path: string)
    requires Parse(path).Some?
    ensures Outranks(s, caller, target, path)
       <==> target == caller
            || forall x :: x in Chain(Parse(path).value, s.tenantOf) ==>
                 Decided(s, target, x).privileges <= Decided(s, caller, path).privileges
  {
    if target != caller {
      if Outranks(s, caller, target, path) {
        forall x | x in Chain(Parse(path).value, s.tenantOf)
          ensures Decided(s, target, x).privileges <= Decided(s, caller, path).privileges
        {
          OutrankingCoversTheChain(s, caller, target, path, x);
        }
      }
    }
  }

  /** The clause is transitive: nobody gets past someone by way of a third. */
  lemma OutranksTransitive(s: Acl.Snapshot, a: string, b: string, c: string, path: string)
    requires Parse(path).Some? && Outranks(s, a, b, path) && Outranks(s, b, c, path)
    ensures Outranks(s, a, c, path)
  {
    if a != b && b != c && a != c {
      PathInItsChain(s, path);
      OutrankingCoversTheChain(s, a, b, path, path);
    }
  }

  /** Two subjects who outrank each other hold the same at the path, and nothing more above it. */
  lemma MutualOutranksAreEqual(s: Acl.Snapshot, a: string, b: string, path: string)
    requires Parse(path).Some? && a != b && Outranks(s, a, b, path) && Outranks(s, b, a, path)
    ensures Decided(s, a, path).privileges == Decided(s, b, path).privileges
    ensures forall p :: InReach(s, a, path, p) <==> p in Decided(s, a, path).privileges
  {
    PathInItsChain(s, path);
    OutrankingCoversTheChain(s, a, b, path, path);
    OutrankingCoversTheChain(s, b, a, path, path);
    forall p
      ensures InReach(s, a, path, p) <==> p in Decided(s, a, path).privileges
    {
      if p in Decided(s, a, path).privileges {
        assert InReach(s, a, path, p);
      }
    }
  }

  /** Whom nobody can outrank: changes to a subject pass only by callers who hold at the path all it holds on `/`. */
  lemma OutrankingNeedsWhatRootGives(s: Acl.Snapshot, caller: string, target: string, path: string)
    requires Parse(path).Some? && target != caller && Outranks(s, caller, target, path)
    ensures Decided(s, target, "/").privileges <= Decided(s, caller, path).privileges
  {
    var p := Parse(path).value;
    ChainShape(p, s.tenantOf);
    var chain := Chain(p, s.tenantOf);
    assert chain[|chain| - 1] in chain;
    OutrankingCoversTheChain(s, caller, target, path, "/");
  }
}
