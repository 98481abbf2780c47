/**
 The paths permissions are given on (incuscloud/server/src/acl/paths.ts):
 parsing, formatting, and the chain of paths whose entries can decide.
 */
module Paths {
  import opened Text

  datatype AclPath =
    | Root
    | Platform
    | Cluster(cluster: string)
    | Group(cluster: string, group: string)
    | Project(cluster: string, project: string)
    | Instance(cluster: string, project: string, instance: string)
    | Tenant(tenant: string)
    | Kubernetes(tenant: string, name: string)

  predicate IsAlnum(c: char) {
    'A' <= c <= 'Z' || 'a' <= c <= 'z' || '0' <= c <= '9'
  }

  predicate IsNameChar(c: char) {
    IsAlnum(c) || c == '.' || c == '_' || c == '-'
  }

  /** Incus and IncusCloud names: 1 to 63 characters, the first alphanumeric. */
  predicate IsName(s: string) {
    && 1 <= |s| <= 63
    && IsAlnum(s[0])
    && forall i :: 0 <= i < |s| ==> IsNameChar(s[i])
  }

  const LOWER := "abcdefghijklmnopqrstuvwxyz"
  const UPPER := "ABCDEFGHIJKLMNOPQRSTUVWXYZ"
  const DIGITS := "0123456789"

  lemma AlphabetIsAlnum(c: char)
    ensures IsAlnum(c) <==> c in LOWER || c in UPPER || c in DIGITS
  {
    AlphabetRun(LOWER, 'a', c);
    AlphabetRun(UPPER, 'A', c);
    AlphabetRun(DIGITS, '0', c);
  }

  /** A string of consecutive characters holds exactly those from the first to the last. */
  lemma AlphabetRun(s: string, first: char, c: char)
    requires s != "" && forall i :: 0 <= i < |s| ==> s[i] as int == first as int + i
    ensures c in s <==> first <= c <= s[|s| - 1]
  {
    if first <= c <= s[|s| - 1] {
      assert s[c as int - first as int] == c;
    }
  }

  /** A name is what the pattern spells: a letter or digit, then up to 62 of these, dots, underscores and hyphens. */
  lemma NamesAreSpelled(s: string)
    ensures IsName(s)
       <==> 0 < |s| < 64 && s[0] !in "._-"
            && forall c :: c in s ==> c in LOWER || c in UPPER || c in DIGITS || c in "._-"
  {
    forall c: char
      ensures IsNameChar(c) <==> c in LOWER || c in UPPER || c in DIGITS || c in "._-"
      ensures IsAlnum(c) <==> IsNameChar(c) && c !in "._-"
    {
      AlphabetIsAlnum(c);
    }
    hide IsNameChar, IsAlnum;
  }

  predicate WellFormed(p: AclPath) {
    match p
    case Root => true
    case Platform => true
    case Cluster(c) => IsName(c)
    case Group(c, g) => IsName(c) && IsName(g)
    case Project(c, pr) => IsName(c) && IsName(pr)
    case Instance(c, pr, i) => IsName(c) && IsName(pr) && IsName(i)
    case Tenant(t) => IsName(t)
    case Kubernetes(t, n) => IsName(t) && IsName(n)
  }

  /** All that formatting needs to stay unambiguous: no name holds a slash. */
  predicate SlashFree(p: AclPath) {
    match p
    case Root => true
    case Platform => true
    case Cluster(c) => '/' !in c
    case Group(c, g) => '/' !in c && '/' !in g
    case Project(c, pr) => '/' !in c && '/' !in pr
    case Instance(c, pr, i) => '/' !in c && '/' !in pr && '/' !in i
    case Tenant(t) => '/' !in t
    case Kubernetes(t, n) => '/' !in t && '/' !in n
  }

  /** How many paths lie between this one and the top of its kind. */
  function Depth(p: AclPath): nat {
    match p
    case Instance(_, _, _) => 2
    case Group(_, _) => 1
    case Project(_, _) => 1
    case Kubernetes(_, _) => 1
    case _ => 0
  }

  function Parse(s: string): Option<AclPath> {
    if s == "/" then Some(Root)
    else if s == "/platform" then Some(Platform)
    else if !StartsWith(s, "/") then None
    else FromParts(Split(s[1..], '/'))
  }

  /** What the parts between the slashes name. */
  function FromParts(parts: seq<string>): Option<AclPath>
    requires |parts| >= 1
  {
    if exists i :: 0 <= i < |parts| && i % 2 == 1 && !IsName(parts[i]) then None
    else if parts[0] == "clusters" && |parts| == 2 then Some(Cluster(parts[1]))
    else if parts[0] == "clusters" && |parts| == 4 && parts[2] == "groups" then Some(Group(parts[1], parts[3]))
    else if parts[0] == "clusters" && |parts| == 4 && parts[2] == "projects" then Some(Project(parts[1], parts[3]))
    else if parts[0] == "clusters" && |parts| == 6 && parts[2] == "projects" && parts[4] == "instances" then
      Some(Instance(parts[1], parts[3], parts[5]))
    else if parts[0] == "tenants" && |parts| == 2 then Some(Tenant(parts[1]))
    else if parts[0] == "tenants" && |parts| == 4 && parts[2] == "kubernetes" then Some(Kubernetes(parts[1], parts[3]))
    else None
  }

  function Format(p: AclPath): string {
    match p
    case Root => "/"
    case Platform => "/platform"
    case Cluster(c) => "/clusters/" + c
    case Group(c, g) => "/clusters/" + c + "/groups/" + g
    case Project(c, pr) => "/clusters/" + c + "/projects/" + pr
    case Instance(c, pr, i) => "/clusters/" + c + "/projects/" + pr + "/instances/" + i
    case Tenant(t) => "/tenants/" + t
    case Kubernetes(t, n) => "/tenants/" + t + "/kubernetes/" + n
  }

  /** What a formatted path splits into. */
  ghost function Segments(p: AclPath): seq<string> {
    match p
    case Root => [""]
    case Platform => ["platform"]
    case Cluster(c) => ["clusters", c]
    case Group(c, g) => ["clusters", c, "groups", g]
    case Project(c, pr) => ["clusters", c, "projects", pr]
    case Instance(c, pr, i) => ["clusters", c, "projects", pr, "instances", i]
    case Tenant(t) => ["tenants", t]
    case Kubernetes(t, n) => ["tenants", t, "kubernetes", n]
  }

  /** One more `/<word>/<name>` adds exactly two parts. */
  lemma SplitStep(prefix: string, word: string, name: string)
    requires '/' !in word && '/' !in name
    ensures Split(prefix + ("/" + word + "/") + name, '/') == Split(prefix, '/') + [word, name]
  {
    hide Split;
    assert prefix + ("/" + word + "/") + name == prefix + "/" + (word + "/" + name);
    SplitConcat(prefix, word + "/" + name, '/');
    SplitConcat(word, name, '/');
    SplitOfFree(word, '/');
    SplitOfFree(name, '/');
  }

  /** What SplitStep says of a whole path: a leading slash, then the parts. */
  lemma SplitChild(parent: string, infix: string, word: string, name: string)
    requires StartsWith(parent, "/")
    requires '/' !in word && '/' !in name && infix == "/" + word + "/"
    ensures StartsWith(parent + infix + name, "/")
    ensures Split((parent + infix + name)[1..], '/') == Split(parent[1..], '/') + [word, name]
  {
    SplitStep(parent[1..], word, name);
    DropOfConcat(parent, infix, 1);
    DropOfConcat(parent + infix, name, 1);
  }

  lemma SplitTop(prefix: string, word: string, name: string)
    requires '/' !in word && '/' !in name && prefix == "/" + word + "/"
    ensures StartsWith(prefix + name, "/")
    ensures Split((prefix + name)[1..], '/') == [word, name]
  {
    SplitConcat(word, name, '/');
    assert (prefix + name)[1..] == word + "/" + name;
  }

  /** The literals of the templates. */
  lemma Infixes()
    ensures "/clusters/" == "/" + "clusters" + "/" && "/tenants/" == "/" + "tenants" + "/"
    ensures "/groups/" == "/" + "groups" + "/" && "/projects/" == "/" + "projects" + "/"
    ensures "/instances/" == "/" + "instances" + "/" && "/kubernetes/" == "/" + "kubernetes" + "/"
  {
  }

  lemma SplitFormat(p: AclPath)
    requires SlashFree(p)
    ensures StartsWith(Format(p), "/")
    ensures Split(Format(p)[1..], '/') == Segments(p)
    decreases Depth(p)
  {
    Infixes();
    match p
    case Root =>
    case Platform => SplitOfSpecials();
    case Cluster(c) => SplitTop("/clusters/", "clusters", c);
    case Tenant(t) => SplitTop("/tenants/", "tenants", t);
    case Group(c, g) => SplitGroup(c, g);
    case Project(c, pr) => SplitProject(c, pr);
    case Instance(c, pr, i) => SplitInstance(c, pr, i);
    case Kubernetes(t, n) => SplitKubernetes(t, n);
  }

  lemma SplitGroup(c: string, g: string)
    requires '/' !in c && '/' !in g
    ensures StartsWith(Format(Group(c, g)), "/")
    ensures Split(Format(Group(c, g))[1..], '/') == Segments(Group(c, g))
  {
    Infixes();
    SplitTop("/clusters/", "clusters", c);
    SplitChild("/clusters/" + c, "/groups/", "groups", g);
  }

  lemma SplitProject(c: string, pr: string)
    requires '/' !in c && '/' !in pr
    ensures StartsWith(Format(Project(c, pr)), "/")
    ensures Split(Format(Project(c, pr))[1..], '/') == Segments(Project(c, pr))
  {
    Infixes();
    SplitTop("/clusters/", "clusters", c);
    SplitChild("/clusters/" + c, "/projects/", "projects", pr);
  }

  lemma SplitInstance(c: string, pr: string, i: string)
    requires '/' !in c && '/' !in pr && '/' !in i
    ensures StartsWith(Format(Instance(c, pr, i)), "/")
    ensures Split(Format(Instance(c, pr, i))[1..], '/') == Segments(Instance(c, pr, i))
  {
    Infixes();
    SplitProject(c, pr);
    SplitChild(Format(Project(c, pr)), "/instances/", "instances", i);
  }

  lemma SplitKubernetes(t: string, n: string)
    requires '/' !in t && '/' !in n
    ensures StartsWith(Format(Kubernetes(t, n)), "/")
    ensures Split(Format(Kubernetes(t, n))[1..], '/') == Segments(Kubernetes(t, n))
  {
    Infixes();
    SplitTop("/tenants/", "tenants", t);
    SplitChild("/tenants/" + t, "/kubernetes/", "kubernetes", n);
  }

  lemma SplitOfSpecials()
    ensures Split("/"[1..], '/') == [""] && Split("/platform"[1..], '/') == ["platform"]
  {
    hide Split;
    var platform := "platform";
    assert "/platform"[1..] == platform && "/"[1..] == "";
    assert '/' !in platform;
    SplitOfFree(platform, '/');
    SplitOfFree("", '/');
  }

  lemma FromSegments(p: AclPath)
    requires !p.Root? && !p.Platform?
    ensures FromParts(Segments(p)) == if WellFormed(p) then Some(p) else None
  {
    if FromParts(Segments(p)).Some? {
      var parts := Segments(p);
      assert forall i :: 0 <= i < |parts| && i % 2 == 1 ==> IsName(parts[i]);
      assert IsName(parts[1]);
      if |parts| >= 4 {
        assert IsName(parts[3]);
      }
      if |parts| >= 6 {
        assert IsName(parts[5]);
      }
    }
  }

  /** A path of slash-free names parses to itself, or not at all. */
  lemma ParseOfSlashFree(p: AclPath)
    requires SlashFree(p)
    ensures Parse(Format(p)) == if WellFormed(p) then Some(p) else None
  {
    if !p.Root? && !p.Platform? {
      SplitFormat(p);
      FromSegments(p);
      ParseOfString(Format(p), Segments(p));
    }
  }

  /** Formatting a well-formed path and parsing it gives it back. */
  lemma ParseOfFormat(p: AclPath)
    requires WellFormed(p)
    ensures Parse(Format(p)) == Some(p)
  {
    ParseOfSlashFree(p);
  }

  lemma ParseOfString(s: string, parts: seq<string>)
    requires StartsWith(s, "/") && Split(s[1..], '/') == parts && |parts| >= 2
    ensures Parse(s) == FromParts(parts)
  {
    SplitOfSpecials();
  }

  lemma PartsAreSegments(parts: seq<string>)
    requires |parts| >= 1 && FromParts(parts).Some?
    ensures WellFormed(FromParts(parts).value) && parts == Segments(FromParts(parts).value)
  {
    assert forall i :: 0 <= i < |parts| && i % 2 == 1 ==> IsName(parts[i]);
  }

  /** Whatever parses is well formed and formats back to the same string. */
  lemma FormatOfParse(s: string)
    requires Parse(s).Some?
    ensures WellFormed(Parse(s).value) && Format(Parse(s).value) == s
  {
    var p := Parse(s).value;
    if s != "/" && s != "/platform" {
      PartsAreSegments(Split(s[1..], '/'));
      SplitFormat(p);
      SameParts(s, Format(p));
    }
  }

  lemma SameParts(s: string, t: string)
    requires StartsWith(s, "/") && StartsWith(t, "/") && Split(s[1..], '/') == Split(t[1..], '/')
    ensures s == t
  {
    JoinOfSplit(s[1..], '/');
    JoinOfSplit(t[1..], '/');
    assert s == "/" + s[1..] && t == "/" + t[1..];
  }

  /** The round trip holds exactly for the well-formed paths. */
  lemma RoundTripIffWellFormed(p: AclPath)
    ensures Parse(Format(p)) == Some(p) <==> WellFormed(p)
  {
    if WellFormed(p) {
      ParseOfFormat(p);
    } else if Parse(Format(p)) == Some(p) {
      FormatOfParse(Format(p));
    }
  }

  lemma FormatInjective(p: AclPath, q: AclPath)
    requires SlashFree(p) && SlashFree(q) && Format(p) == Format(q)
    ensures p == q
  {
    SplitFormat(p);
    SplitFormat(q);
    SameSegments(p, q);
  }

  lemma SameSegments(p: AclPath, q: AclPath)
    requires Segments(p) == Segments(q)
    ensures p == q
  {
    var a, b := Segments(p), Segments(q);
    assert |a| == |b| && a[0] == b[0];
    if |a| >= 2 {
      assert a[1] == b[1];
    }
    if |a| >= 4 {
      assert a[2] == b[2] && a[3] == b[3];
    }
    if |a| >= 6 {
      assert a[4] == b[4] && a[5] == b[5];
    }
  }

  /**
   The slug of the tenant that owns a project, looked up under `<cluster>/<project>`. An empty slug
   counts as none.
   */
  function TenantAt(tenantOf: map<string, string>, cluster: string, project: string): Option<string> {
    var k := cluster + "/" + project;
    if k in tenantOf && tenantOf[k] != "" then Some(tenantOf[k]) else None
  }

  /** The levels resolution walks for `p`, from the path itself up to `/`. */
  function Chain(p: AclPath, tenantOf: map<string, string>): (chain: seq<string>)
    ensures |chain| >= 1 && chain[0] == Format(p)
    decreases Depth(p)
  {
    match p
    case Root => ["/"]
    case Platform => [Format(p), "/"]
    case Tenant(_) => [Format(p), "/"]
    case Cluster(_) => [Format(p), "/"]
    case Group(c, _) => [Format(p)] + Chain(Cluster(c), tenantOf)
    case Kubernetes(t, _) => [Format(p)] + Chain(Tenant(t), tenantOf)
    case Project(c, pr) =>
      var t := TenantAt(tenantOf, c, pr);
      [Format(p)] + (if t.Some? then ["/tenants/" + t.value] else []) + Chain(Cluster(c), tenantOf)
    case Instance(c, pr, _) => [Format(p)] + Chain(Project(c, pr), tenantOf)
  }

  /** A chain starts at its own path, ends at `/`, and never names a path twice, whatever the names. */
  lemma ChainShape(p: AclPath, tenantOf: map<string, string>)
    ensures var chain := Chain(p, tenantOf);
      chain[0] == Format(p) && chain[|chain| - 1] == "/" && Distinct(chain)
  {
    var chain := Chain(p, tenantOf);
    match p
    case Root =>
    case Platform =>
    case Cluster(c) =>
      assert chain == ["/clusters/" + c, "/"];
    case Tenant(t) =>
      assert chain == ["/tenants/" + t, "/"];
    case Group(c, g) =>
      assert Chain(Cluster(c), tenantOf) == [Format(Cluster(c))] + ["/"];
      ShortChain(Format(p), Format(Cluster(c)), chain);
    case Kubernetes(t, n) =>
      assert Chain(Tenant(t), tenantOf) == [Format(Tenant(t))] + ["/"];
      ShortChain(Format(p), Format(Tenant(t)), chain);
    case Project(c, pr) =>
      ProjectChainShape(c, pr, tenantOf);
    case Instance(c, pr, i) =>
      InstanceChainShape(c, pr, i, tenantOf);
  }

  lemma InstanceChainShape(c: string, pr: string, i: string, tenantOf: map<string, string>)
    ensures var chain := Chain(Instance(c, pr, i), tenantOf);
      chain[|chain| - 1] == "/" && Distinct(chain)
  {
    var p := Instance(c, pr, i);
    ProjectChainShape(c, pr, tenantOf);
    var rest := Chain(Project(c, pr), tenantOf);
    assert Chain(p, tenantOf) == [Format(p)] + rest;
    assert |Format(p)| > |Format(Project(c, pr))| > |Format(Cluster(c))| > |"/"| && Format(p)[1] == 'c';
    hide Format, Chain;
    forall j | 0 <= j < |rest|
      ensures Format(p) != rest[j]
    {
      assert rest[j] in {Format(Project(c, pr)), Format(Cluster(c)), "/"} || rest[j][1] == 't';
    }
    DistinctMore(Format(p), rest);
  }

  lemma DistinctMore(x: string, rest: seq<string>)
    requires Distinct(rest) && forall j :: 0 <= j < |rest| ==> x != rest[j]
    ensures Distinct([x] + rest)
  {
  }

  /** Three paths, each shorter than the one before. */
  lemma ShortChain(a: string, b: string, chain: seq<string>)
    requires |a| > |b| > 1 && chain == [a] + ([b] + ["/"])
    ensures chain[|chain| - 1] == "/" && Distinct(chain)
  {
    assert |chain| == 3 && chain[0] == a && chain[1] == b && chain[2] == "/";
  }

  lemma ProjectChainShape(c: string, pr: string, tenantOf: map<string, string>)
    ensures var chain := Chain(Project(c, pr), tenantOf);
      && chain[|chain| - 1] == "/" && Distinct(chain)
      && forall j :: 0 <= j < |chain| ==>
           chain[j] in {Format(Project(c, pr)), Format(Cluster(c)), "/"} || (|chain[j]| > 1 && chain[j][1] == 't')
  {
    var t := TenantAt(tenantOf, c, pr);
    assert Chain(Cluster(c), tenantOf) == [Format(Cluster(c)), "/"];
    assert |Format(Project(c, pr))| > |Format(Cluster(c))| > |"/"|;
    assert Format(Project(c, pr))[1] == 'c' && Format(Cluster(c))[1] == 'c';
    if t.Some? {
      assert Chain(Project(c, pr), tenantOf)
        == [Format(Project(c, pr)), "/tenants/" + t.value, Format(Cluster(c)), "/"];
    } else {
      assert Chain(Project(c, pr), tenantOf) == [Format(Project(c, pr)), Format(Cluster(c)), "/"];
    }
  }

  /** The tenant slug a chain passes through, if it passes through a project. */
  function SlugOn(p: AclPath, tenantOf: map<string, string>): Option<string> {
    match p
    case Project(c, pr) => TenantAt(tenantOf, c, pr)
    case Instance(c, pr, _) => TenantAt(tenantOf, c, pr)
    case _ => None
  }

  predicate SpellsKubernetesOf(slug: string, tenant: string, name: string) {
    IsName(tenant) && IsName(name) && slug == tenant + "/kubernetes/" + name
  }

  /** A slug that makes a path: a name, or one that spells out a Kubernetes cluster. */
  ghost predicate IsSlug(slug: string) {
    IsName(slug) || exists tenant, name :: SpellsKubernetesOf(slug, tenant, name)
  }

  /** Every path of a well-formed path's chain parses exactly when the tenant slug on it makes a path. */
  lemma ChainParses(p: AclPath, tenantOf: map<string, string>)
    requires WellFormed(p)
    ensures (forall x :: x in Chain(p, tenantOf) ==> Parse(x).Some?)
       <==> (SlugOn(p, tenantOf).Some? ==> IsSlug(SlugOn(p, tenantOf).value))
  {
    ParseOfFormat(Root);
    ParseOfFormat(p);
    if SlugOn(p, tenantOf).Some? {
      TenantPathParses(SlugOn(p, tenantOf).value);
    }
    match p
    case Root =>
    case Platform =>
    case Cluster(_) =>
    case Tenant(_) =>
    case Group(c, _) => ParseOfFormat(Cluster(c));
    case Kubernetes(t, _) => ParseOfFormat(Tenant(t));
    case Project(c, pr) => ProjectChainParses(c, pr, tenantOf);
    case Instance(c, pr, _) => ProjectChainParses(c, pr, tenantOf);
  }

  lemma TenantPathParses(t: string)
    ensures Parse("/tenants/" + t).Some? <==> IsSlug(t)
  {
    hide Parse, IsName;
    var x := "/tenants/" + t;
    if Parse(x).Some? {
      FormatOfParse(x);
      TenantPathIs(t, Parse(x).value);
    }
    if IsName(t) {
      assert Format(Tenant(t)) == x;
      ParseOfFormat(Tenant(t));
    } else if u, n :| SpellsKubernetesOf(t, u, n) {
      assert Format(Kubernetes(u, n)) == x;
      ParseOfFormat(Kubernetes(u, n));
    }
  }

  /** A path that starts with `/tenants/` is a tenant's or one of its clusters'. */
  lemma TenantPathIs(t: string, p: AclPath)
    requires WellFormed(p) && Format(p) == "/tenants/" + t
    ensures IsSlug(t)
  {
    hide IsName;
    var x := "/tenants/" + t;
    assert x[9..] == t && x[1] == 't' && |x| >= 9;
    match p
    case Tenant(u) => assert ("/tenants/" + u)[9..] == u;
    case Kubernetes(u, n) =>
      assert ("/tenants/" + u + "/kubernetes/" + n)[9..] == u + "/kubernetes/" + n;
      assert SpellsKubernetesOf(t, u, n);
    case Root =>
    case Platform =>
    case _ =>
  }

  lemma ProjectChainParses(c: string, pr: string, tenantOf: map<string, string>)
    requires IsName(c) && IsName(pr)
    ensures var t := TenantAt(tenantOf, c, pr);
      (forall x :: x in Chain(Project(c, pr), tenantOf) ==> Parse(x).Some?)
      <==> (t.Some? ==> Parse("/tenants/" + t.value).Some?)
  {
    hide Parse, IsName;
    ParseOfFormat(Root);
    ParseOfFormat(Cluster(c));
    ParseOfFormat(Project(c, pr));
    var t := TenantAt(tenantOf, c, pr);
    var top := [Format(Cluster(c))] + ["/"];
    assert Chain(Cluster(c), tenantOf) == top;
    if t.Some? {
      assert Chain(Project(c, pr), tenantOf) == [Format(Project(c, pr))] + ["/tenants/" + t.value] + top;
    } else {
      assert Chain(Project(c, pr), tenantOf) == [Format(Project(c, pr))] + top;
    }
  }

  ghost predicate IsSuffix<T>(a: seq<T>, b: seq<T>) {
    |a| <= |b| && b[|b| - |a|..] == a
  }

  /** `q` sits above `p` through the recursion of `Chain`. */
  predicate AboveInChain(q: AclPath, p: AclPath) {
    match p
    case Group(c, _) => q == Cluster(c)
    case Project(c, _) => q == Cluster(c)
    case Instance(c, pr, _) => q == Cluster(c) || q == Project(c, pr)
    case Kubernetes(t, _) => q == Tenant(t)
    case _ => false
  }

  /** These are the paths on its chain but for itself, `/` and its tenant. */
  lemma AboveIsOnChain(q: AclPath, p: AclPath)
    requires SlashFree(p) && SlashFree(q)
    ensures AboveInChain(q, p) <==> q != p && q != Root && Format(q) in Chain(p, map[])
  {
    hide Format;
    RootFormats();
    forall z: AclPath | SlashFree(z)
      ensures Format(z) == Format(q) <==> z == q
    {
      if Format(z) == Format(q) {
        FormatInjective(z, q);
      }
    }
    match p
    case Root =>
    case Platform =>
    case Tenant(_) =>
    case Cluster(_) =>
    case Group(c, _) => assert Chain(p, map[]) == [Format(p)] + [Format(Cluster(c)), "/"];
    case Kubernetes(t, _) => assert Chain(p, map[]) == [Format(p)] + [Format(Tenant(t)), "/"];
    case Project(c, _) => assert Chain(p, map[]) == [Format(p)] + [Format(Cluster(c)), "/"];
    case Instance(c, pr, _) =>
      assert Chain(Project(c, pr), map[]) == [Format(Project(c, pr))] + [Format(Cluster(c)), "/"];
      assert Chain(p, map[]) == [Format(p)] + [Format(Project(c, pr)), Format(Cluster(c)), "/"];
  }

  /** Whatever decides for a path on the chain decides for the path: the chain holds the chains of all its paths. */
  lemma ChainClosed(q: AclPath, p: AclPath, tenantOf: map<string, string>, y: string)
    requires SlashFree(p) && SlashFree(q) && Format(q) in Chain(p, tenantOf) && y in Chain(q, tenantOf)
    requires SlugOn(p, tenantOf).Some? ==> '/' !in SlugOn(p, tenantOf).value
    ensures y in Chain(p, tenantOf)
    decreases Depth(p)
  {
    hide Format, IsName;
    RootFormats();
    if Format(q) == Format(p) {
      FormatInjective(q, p);
    } else if Format(q) == "/" {
      FormatInjective(q, Root);
      RootEndsChain(p, tenantOf);
    } else {
      match p
      case Group(c, _) => ChainClosed(q, Cluster(c), tenantOf, y);
      case Kubernetes(t, _) => ChainClosed(q, Tenant(t), tenantOf, y);
      case Instance(c, pr, _) => ChainClosed(q, Project(c, pr), tenantOf, y);
      case Project(c, pr) =>
        if Format(q) in Chain(Cluster(c), tenantOf) {
          ChainClosed(q, Cluster(c), tenantOf, y);
        } else {
          TenantOfChain(q, p, tenantOf, y);
        }
      case _ =>
    }
  }

  lemma RootFormats()
    ensures Format(Root) == "/"
  {
  }

  lemma NamesHoldNoSlash(p: AclPath)
    requires WellFormed(p)
    ensures SlashFree(p)
  {
  }

  lemma RootEndsChain(p: AclPath, tenantOf: map<string, string>)
    ensures "/" in Chain(p, tenantOf)
  {
    ChainShape(p, tenantOf);
    assert Chain(p, tenantOf)[|Chain(p, tenantOf)| - 1] == "/";
  }

  lemma TenantOfChain(q: AclPath, p: AclPath, tenantOf: map<string, string>, y: string)
    requires p.Project? && SlashFree(q) && Format(q) in Chain(p, tenantOf) && Format(q) != Format(p)
    requires Format(q) !in Chain(Cluster(p.cluster), tenantOf) && y in Chain(q, tenantOf)
    requires SlugOn(p, tenantOf).Some? ==> '/' !in SlugOn(p, tenantOf).value
    ensures y in Chain(p, tenantOf)
  {
    var t := SlugOn(p, tenantOf);
    assert t.Some? && Format(q) == Format(Tenant(t.value));
    FormatInjective(q, Tenant(t.value));
    RootEndsChain(p, tenantOf);
  }

  /** The chain of a path above is the tail of the chain below it, so both walk the same levels from there on. */
  lemma ChainSuffix(q: AclPath, p: AclPath, tenantOf: map<string, string>)
    requires AboveInChain(q, p)
    ensures IsSuffix(Chain(q, tenantOf), Chain(p, tenantOf)) && Chain(q, tenantOf) != Chain(p, tenantOf)
    decreases Depth(p)
  {
    hide Format;
    match p
    case Instance(c, pr, _) =>
      var project := Chain(Project(c, pr), tenantOf);
      assert Chain(p, tenantOf)[1..] == project;
      if q == Cluster(c) {
        ChainSuffix(q, Project(c, pr), tenantOf);
      }
    case _ =>
  }

  /** Whether `x` is `path` or lies under it, as the strings say. */
  predicate AtOrBelow(path: string, x: string) {
    path == "/" || x == path || StartsWith(x, path + "/")
  }

  /** The same on the paths themselves. */
  predicate StrictlyBelow(p: AclPath, q: AclPath) {
    match p
    case Cluster(c) => (q.Group? || q.Project? || q.Instance?) && q.cluster == c
    case Project(c, pr) => q.Instance? && q.cluster == c && q.project == pr
    case Tenant(t) => q.Kubernetes? && q.tenant == t
    case _ => false
  }

  lemma BelowIsStrict(p: AclPath, q: AclPath)
    requires SlashFree(p) && SlashFree(q) && p != Root
    ensures StartsWith(Format(q), Format(p) + "/") <==> StrictlyBelow(p, q)
  {
    if StartsWith(Format(q), Format(p) + "/") {
      var rest := Format(q)[|Format(p)| + 1..];
      assert Format(q) == Format(p) + "/" + rest;
      SplitFormat(p);
      SplitFormat(q);
      DropOfConcat(Format(p), "/", 1);
      DropOfConcat(Format(p) + "/", rest, 1);
      SplitConcat(Format(p)[1..], rest, '/');
      SegmentsPrefix(p, q, Split(rest, '/'));
    } else if StrictlyBelow(p, q) {
      assert false by { BelowByTemplate(p, q); }
    }
  }

  lemma SegmentsPrefix(p: AclPath, q: AclPath, more: seq<string>)
    requires p != Root && |more| >= 1
    requires Segments(q) == Segments(p) + more
    ensures StrictlyBelow(p, q)
  {
    var a, b := Segments(p), Segments(q);
    assert |b| > |a| && b[0] == a[0];
    if |a| >= 2 {
      assert b[1] == a[1];
    }
    if |a| >= 4 {
      assert b[2] == a[2] && b[3] == a[3];
    }
  }

  lemma Prefixed(a: string, infix: string, b: string)
    requires |infix| >= 1 && infix[0] == '/'
    ensures StartsWith(a + infix + b, a + "/")
  {
    assert (a + infix + b)[..|a| + 1] == a + "/";
  }

  lemma BelowByTemplate(p: AclPath, q: AclPath)
    requires StrictlyBelow(p, q)
    ensures StartsWith(Format(q), Format(p) + "/")
  {
    match q
    case Group(c, g) => Prefixed("/clusters/" + c, "/groups/", g);
    case Project(c, pr) => Prefixed("/clusters/" + c, "/projects/", pr);
    case Kubernetes(t, n) => Prefixed("/tenants/" + t, "/kubernetes/", n);
    case Instance(c, pr, i) =>
      Prefixed("/clusters/" + c + "/projects/" + pr, "/instances/", i);
      if p.Cluster? {
        Prefixed("/clusters/" + c, "/projects/", pr);
        var x := Format(Project(c, pr));
        assert Format(q)[..|x|] == x;
        assert Format(q)[..|Format(p)| + 1] == x[..|Format(p)| + 1];
      }
  }
}
