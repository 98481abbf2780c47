/**
 Whether a subject may see a path (incuscloud/server/src/acl/acl.ts, sees):
 a search over the places its entries reach, and exactly when it answers
 whether anything at or below the path is decided to more than nothing.
 */
module Sees {
  import opened Text
  import opened Catalog
  import opened Paths
  import opened Resolve
  import opened Acl

  predicate Gets(s: Snapshot, subject: string, path: string) {
    Decided(s, subject, path).privileges != {}
  }

  /** The tenant a path names directly: /tenants/<slug> and nothing more. */
  function TenantNamed(path: string): Option<string> {
    if StartsWith(path, "/tenants/") && |path| > |"/tenants/"| && '/' !in path[|"/tenants/"|..] then
      Some(path[|"/tenants/"|..])
    else None
  }

  /** Where one entry applies: its path, its tenant's projects, the instances on its cluster group. */
  function ReachOf(s: Snapshot, e: Entry): seq<string> {
    var t := TenantNamed(e.path);
    [e.path] + (if t.Some? then Lookup(s.projectsOf, t.value) else []) + Lookup(s.onGroup, e.path)
  }

  predicate Below(path: string, x: string) {
    path == "/" || StartsWith(x, path + "/")
  }

  function EntriesOf(s: Snapshot, keys: seq<string>): (es: seq<Entry>)
    ensures forall e :: e in es <==> exists k :: k in keys && e in Lookup(s.bySubject, k)
  {
    if keys == [] then []
    else
      assert keys == [keys[0]] + keys[1..];
      Lookup(s.bySubject, keys[0]) + EntriesOf(s, keys[1..])
  }

  ghost predicate Candidate(s: Snapshot, subject: string, path: string, x: string) {
    exists e :: e in EntriesOf(s, KeysOf(s, subject)) && x in ReachOf(s, e) && Below(path, x)
  }

  ghost predicate Seen(s: Snapshot, subject: string, path: string) {
    Gets(s, subject, path) || exists x :: Candidate(s, subject, path, x) && Gets(s, subject, x)
  }

  /** The search as the code runs it. */
  method SeesPath(s: Snapshot, subject: string, path: string) returns (seen: bool)
    ensures seen == Seen(s, subject, path)
  {
    var d := Decide(s, subject, path, None);
    if d.privileges != {} {
      return true;
    }
    var candidates := Candidates(s, subject, path);
    var x := FirstGetting(s, subject, candidates);
    assert forall x :: x in candidates <==> Candidate(s, subject, path, x);
    seen := x.Some?;
  }

  /** What the search decides besides the path itself. */
  method Candidates(s: Snapshot, subject: string, path: string) returns (candidates: set<string>)
    ensures forall x :: x in candidates <==> Candidate(s, subject, path, x)
  {
    hide ReachOf, Below, KeysOf;
    var es := EntriesOf(s, KeysOf(s, subject));
    candidates := {};
    for i := 0 to |es|
      invariant forall x :: x in candidates <==> exists e :: e in es[..i] && x in ReachOf(s, e) && Below(path, x)
    {
      assert es[..i + 1] == es[..i] + [es[i]];
      var reach := ReachOf(s, es[i]);
      candidates := candidates + set x | x in reach && Below(path, x);
    }
    assert es[..|es|] == es;
  }

  /** The first candidate that gets something, in whatever order they come. */
  method FirstGetting(s: Snapshot, subject: string, candidates: set<string>) returns (found: Option<string>)
    ensures found.Some? ==> found.value in candidates && Gets(s, subject, found.value)
    ensures found.None? ==> forall x :: x in candidates ==> !Gets(s, subject, x)
  {
    var rest := candidates;
    while rest != {}
      invariant rest <= candidates
      invariant forall x :: x in candidates - rest ==> !Gets(s, subject, x)
      decreases |rest|
    {
      var x :| x in rest;
      var d := Decide(s, subject, x, None);
      if d.privileges != {} {
        return Some(x);
      }
      rest := rest - {x};
    }
    found := None;
  }

  /** What the search stands for: some path at or below gets something. */
  ghost predicate SomethingAtOrBelow(s: Snapshot, subject: string, path: string) {
    exists y :: AtOrBelow(path, y) && Gets(s, subject, y)
  }

  /** Whatever is seen is there. */
  lemma SeenIsThere(s: Snapshot, subject: string, path: string)
    requires Seen(s, subject, path)
    ensures SomethingAtOrBelow(s, subject, path)
  {
    if Gets(s, subject, path) {
      assert AtOrBelow(path, path);
    } else {
      var x :| Candidate(s, subject, path, x) && Gets(s, subject, x);
      assert AtOrBelow(path, x);
    }
  }

  /** What a path's chain gives to paths below it that have no entries of their own. */
  predicate GivesBelow(s: Snapshot, subject: string, x: AclPath) {
    subject !in s.disabled
    && ResolveFrom(KeysOf(s, subject), s.byPath, Chain(x, s.tenantOf), false, false).privileges != {}
  }

  /** The path itself gets nothing, yet what is below it inherits something: non-propagating entries hide it. */
  predicate Shadowed(s: Snapshot, subject: string, x: AclPath) {
    GivesBelow(s, subject, x) && !Gets(s, subject, Format(x))
  }

  /**
   `y` has no entries, and nothing that propagates lies between it and `x`, whose chain ends its
   chain at level `k`.
   */
  ghost predicate BareTo(s: Snapshot, subject: string, x: AclPath, y: AclPath, k: nat) {
    var chain := Chain(y, s.tenantOf);
    && k < |chain| && chain[k..] == Chain(x, s.tenantOf)
    && Counting(s, KeysOf(s, subject), Format(y)) == []
    && forall j :: 0 < j < k ==> Level(KeysOf(s, subject), s.byPath, chain[j], false) == []
  }

  ghost predicate BareBelow(s: Snapshot, subject: string, x: AclPath, y: AclPath) {
    WellFormed(y) && y != x && AtOrBelow(Format(x), Format(y)) && exists k :: BareTo(s, subject, x, y, k)
  }

  /** A shadowed path the search looks at (or the path asked about), with something bare below it. */
  ghost predicate Hidden(s: Snapshot, subject: string, path: string, x: AclPath) {
    && WellFormed(x)
    && (Format(x) == path || Candidate(s, subject, path, Format(x)))
    && Shadowed(s, subject, x)
    && exists y :: BareBelow(s, subject, x, y)
  }

  lemma {:induction false} SkipEmptyLevels(keys: seq<string>, byPath: map<string, seq<Entry>>, chain: seq<string>,
      k: nat, owned: bool)
    requires keys != [] && k <= |chain|
    requires forall j :: 0 <= j < k ==> Level(keys, byPath, chain[j], false) == []
    ensures ResolveFrom(keys, byPath, chain, false, owned) == ResolveFrom(keys, byPath, chain[k..], false, owned)
  {
    if k > 0 {
      assert forall j :: 0 <= j < k - 1 ==> chain[1..][j] == chain[j + 1];
      SkipEmptyLevels(keys, byPath, chain[1..], k - 1, owned);
      assert chain[1..][k - 1..] == chain[k..];
    } else {
      assert chain[0..] == chain;
    }
  }

  lemma NothingCounting(s: Snapshot, keys: seq<string>, path: string)
    requires keys != []
    ensures Counting(s, keys, path) == [] <==> Level(keys, s.byPath, path, true) == []
    ensures Counting(s, keys, path) == [] ==> Level(keys, s.byPath, path, false) == []
  {
    LevelEmpty(keys, s.byPath, path, true);
    var m := Counting(s, keys, path);
    assert m != [] ==> m[0] in m;
  }

  /**
   What a path without entries of its own gets: what its chain gives, and for an instance what its
   groups give on top.
   */
  lemma BareGets(s: Snapshot, subject: string, y: AclPath)
    requires WellFormed(y) && subject !in s.disabled && Counting(s, KeysOf(s, subject), Format(y)) == []
    ensures GivesBelow(s, subject, y) ==> Gets(s, subject, Format(y))
    ensures !y.Instance? && Gets(s, subject, Format(y)) ==> GivesBelow(s, subject, y)
  {
    var keys := KeysOf(s, subject);
    var path := Format(y);
    ParseOfFormat(y);
    NothingCounting(s, keys, path);
    var owned := Owned(s, subject, path, None);
    var chain := Chain(y, s.tenantOf);
    assert chain == [path] + chain[1..];
    ResolveCons(keys, s.byPath, path, chain[1..], true, owned);
    ResolveCons(keys, s.byPath, path, chain[1..], false, false);
    GivesWhetherOwnedOrNot(keys, s.byPath, chain[1..], false, owned);
    if y.Instance? {
      TwoParents(s, subject, y.cluster, y.project, y.instance, None);
      assert chain[1..] == Chain(Project(y.cluster, y.project), s.tenantOf);
      if GivesBelow(s, subject, y) {
        assert ProjectSide(s, subject, y.cluster, y.project, owned)
          == ResolveFrom(keys, s.byPath, chain[1..], false, owned).privileges;
        assert ResolveFrom(keys, s.byPath, chain, false, false)
          == ResolveFrom(keys, s.byPath, chain[1..], false, false);
        var p :| p in ProjectSide(s, subject, y.cluster, y.project, owned);
        assert EitherSide(s, subject, y.cluster, y.project, Lookup(s.locatedIn, path), owned, p);
      }
    }
  }

  /** Bare paths below a path inherit just what it gives below. */
  lemma BareInherits(s: Snapshot, subject: string, x: AclPath, y: AclPath, k: nat)
    requires BareTo(s, subject, x, y, k)
    ensures GivesBelow(s, subject, y) == GivesBelow(s, subject, x)
  {
    var keys := KeysOf(s, subject);
    NothingCounting(s, keys, Format(y));
    SkipEmptyLevels(keys, s.byPath, Chain(y, s.tenantOf), k, false);
  }

  lemma AtOrBelowTrans(path: string, x: string, y: string)
    requires AtOrBelow(path, x) && AtOrBelow(x, y) && (x == "/" ==> path == "/")
    ensures AtOrBelow(path, y)
  {
    if path != "/" && x != path && y != x {
      var n := |path| + 1;
      assert x[..n] == path + "/" && y[..|x| + 1] == x + "/";
      assert y[..n] == (y[..|x| + 1])[..n] == (x + "/")[..n] == x[..n];
    }
  }

  /** The next path up the tree. */
  function Parent(z: AclPath): AclPath {
    match z
    case Instance(c, pr, _) => Project(c, pr)
    case Project(c, _) => Cluster(c)
    case Group(c, _) => Cluster(c)
    case Kubernetes(t, _) => Tenant(t)
    case _ => Root
  }

  function Rank(z: AclPath): nat {
    match z
    case Root => 0
    case Instance(_, _, _) => 3
    case Platform => 1
    case Cluster(_) => 1
    case Tenant(_) => 1
    case _ => 2
  }

  /** The tenant level between a project and its cluster. */
  function Between(s: Snapshot, z: AclPath): seq<string> {
    if z.Project? then
      var t := TenantAt(s.tenantOf, z.cluster, z.project);
      if t.Some? then ["/tenants/" + t.value] else []
    else []
  }

  lemma ChainUp(s: Snapshot, z: AclPath)
    requires z != Root
    ensures Chain(z, s.tenantOf) == [Format(z)] + Between(s, z) + Chain(Parent(z), s.tenantOf)
  {
  }

  /** Going up one path keeps being at or below `p`. */
  lemma ParentStaysBelow(p: AclPath, z: AclPath)
    requires WellFormed(p) && WellFormed(z) && z != p && AtOrBelow(Format(p), Format(z))
    ensures z != Root && WellFormed(Parent(z)) && AtOrBelow(Format(p), Format(Parent(z))) && Below(Format(p), Format(z))
  {
    hide Format, IsName;
    RootFormats();
    NamesHoldNoSlash(p);
    NamesHoldNoSlash(z);
    if p == Root {
      assert z != Root;
    } else {
      if Format(z) == Format(p) {
        FormatInjective(z, p);
      }
      if Format(p) == "/" {
        FormatInjective(p, Root);
      }
      BelowIsStrict(p, z);
      if Parent(z) != p {
        BelowByTemplate(p, Parent(z));
      }
    }
  }

  lemma ParentIsAbove(z: AclPath)
    requires z != Root
    ensures AtOrBelow(Format(Parent(z)), Format(z))
  {
    if Parent(z) != Root {
      BelowByTemplate(Parent(z), z);
    }
  }

  lemma CountedEntry(s: Snapshot, subject: string, x: string) returns (e: Entry)
    requires Indexed(s) && Counting(s, KeysOf(s, subject), x) != []
    ensures e in EntriesOf(s, KeysOf(s, subject)) && e.path == x
  {
    e := Counting(s, KeysOf(s, subject), x)[0];
    assert e in Counting(s, KeysOf(s, subject), x);
    assert e in Lookup(s.bySubject, e.subject);
  }

  /** One level further up, still bare. */
  lemma BareUp(s: Snapshot, subject: string, z: AclPath, y: AclPath, k: nat)
    requires BareTo(s, subject, z, y, k) && z != Root && Counting(s, KeysOf(s, subject), Format(z)) == []
    requires forall x :: x in Between(s, z) ==> Level(KeysOf(s, subject), s.byPath, x, false) == []
    ensures BareTo(s, subject, Parent(z), y, k + 1 + |Between(s, z)|)
  {
    hide Chain, Format, Counting, Level, Between, Parent, KeysOf;
    ChainUp(s, z);
    NothingCounting(s, KeysOf(s, subject), Format(z));
    var chain, between := Chain(y, s.tenantOf), Between(s, z);
    LevelsUp(chain, k, Format(z), between, Chain(Parent(z), s.tenantOf));
    assert Level(KeysOf(s, subject), s.byPath, Format(z), false) == [];
    forall j | 0 < j < k + 1 + |between|
      ensures Level(KeysOf(s, subject), s.byPath, chain[j], false) == []
    {
      assert j > k ==> chain[j] in between;
    }
  }

  lemma LevelsUp(chain: seq<string>, k: nat, own: string, between: seq<string>, top: seq<string>)
    requires k < |chain| && chain[k..] == [own] + between + top && |top| > 0
    ensures k + 1 + |between| < |chain| && chain[k] == own && chain[k + 1 + |between|..] == top
    ensures forall j :: k < j < k + 1 + |between| ==> chain[j] == between[j - k - 1]
  {
    var up := chain[k..];
    assert forall j :: k <= j < |chain| ==> chain[j] == up[j - k];
    assert up[1 + |between|..] == top;
    assert chain[k + 1 + |between|..] == up[1 + |between|..];
  }

  /** What going one level up keeps. */
  lemma StepUp(s: Snapshot, subject: string, z: AclPath, y: AclPath, k: nat) returns (k': nat)
    requires WellFormed(z) && z != Root && AtOrBelow(Format(z), Format(y))
    requires BareTo(s, subject, z, y, k) && GivesBelow(s, subject, z)
    requires Counting(s, KeysOf(s, subject), Format(z)) == []
    requires forall x :: x in Between(s, z) ==> Level(KeysOf(s, subject), s.byPath, x, false) == []
    ensures BareTo(s, subject, Parent(z), y, k') && GivesBelow(s, subject, Parent(z))
    ensures AtOrBelow(Format(Parent(z)), Format(y))
  {
    hide Format, Level, Counting, GivesBelow, AtOrBelow, BareTo, WellFormed, Parent, Between;
    BareUp(s, subject, z, y, k);
    k' := k + 1 + |Between(s, z)|;
    BareInherits(s, subject, z, y, k);
    BareInherits(s, subject, Parent(z), y, k');
    ParentIsAbove(z);
    OnlyRootIsSlash(z);
    AtOrBelowTrans(Format(Parent(z)), Format(z), Format(y));
  }

  lemma OnlyRootIsSlash(z: AclPath)
    requires WellFormed(z) && z != Root
    ensures Format(z) != "/"
  {
    if Format(z) == "/" {
      FormatInjective(z, Root);
    }
  }

  /** A path the search looks at, with something bare below that inherits from it: seen, or hidden by its shadow. */
  lemma SeenOrHiddenAt(s: Snapshot, subject: string, path: string, z: AclPath, y: AclPath, k: nat)
    requires WellFormed(z) && WellFormed(y) && y != z && AtOrBelow(Format(z), Format(y))
    requires BareTo(s, subject, z, y, k) && GivesBelow(s, subject, z)
    requires Format(z) == path || Candidate(s, subject, path, Format(z))
    ensures Seen(s, subject, path) || Hidden(s, subject, path, z)
  {
    if !Gets(s, subject, Format(z)) {
      assert BareBelow(s, subject, z, y);
    }
  }

  /** Climbing from something bare that inherits: either the search sees it, or a shadowed path hides it. */
  lemma {:induction false} Climb(s: Snapshot, subject: string, p: AclPath, z: AclPath, y: AclPath, k: nat)
    requires Coherent(s) && WellFormed(p) && WellFormed(z) && WellFormed(y)
    requires BareTo(s, subject, z, y, k) && GivesBelow(s, subject, z)
    requires AtOrBelow(Format(p), Format(z)) && AtOrBelow(Format(z), Format(y)) && y != p
    ensures Seen(s, subject, Format(p)) || exists x :: Hidden(s, subject, Format(p), x)
    decreases Rank(z)
  {
    hide Format, IsName, GivesBelow, Gets, Candidate, Hidden, BareTo, Seen, ReachOf, Counting, Level, Placed, Located;
    var keys := KeysOf(s, subject);
    if z == p {
      SeenOrHiddenAt(s, subject, Format(p), p, y, k);
      return;
    }
    ParentStaysBelow(p, z);
    if Counting(s, keys, Format(z)) != [] {
      EntryReaches(s, subject, Format(p), z);
      BareDiffers(s, subject, z, y, k);
      SeenOrHiddenAt(s, subject, Format(p), z, y, k);
    } else if Between(s, z) != [] && Level(keys, s.byPath, Between(s, z)[0], false) != [] {
      GetsWhatItGivesBelow(s, subject, z);
      TenantReaches(s, subject, z, Format(p));
      CandidateSeen(s, subject, Format(p), Format(z));
    } else {
      BetweenIsOne(s, z);
      var k' := StepUp(s, subject, z, y, k);
      Climb(s, subject, p, Parent(z), y, k');
    }
  }

  lemma EntryReaches(s: Snapshot, subject: string, path: string, z: AclPath)
    requires Indexed(s) && Counting(s, KeysOf(s, subject), Format(z)) != [] && Below(path, Format(z))
    ensures Candidate(s, subject, path, Format(z))
  {
    hide Format;
    var e := CountedEntry(s, subject, Format(z));
    assert Format(z) in ReachOf(s, e);
  }

  lemma BareDiffers(s: Snapshot, subject: string, z: AclPath, y: AclPath, k: nat)
    requires BareTo(s, subject, z, y, k) && Counting(s, KeysOf(s, subject), Format(z)) != []
    ensures y != z
  {
  }

  lemma CandidateSeen(s: Snapshot, subject: string, path: string, x: string)
    requires Candidate(s, subject, path, x) && Gets(s, subject, x)
    ensures Seen(s, subject, path)
  {
  }

  lemma BetweenIsOne(s: Snapshot, z: AclPath)
    ensures |Between(s, z)| <= 1
  {
  }

  lemma GetsWhatItGivesBelow(s: Snapshot, subject: string, z: AclPath)
    requires WellFormed(z) && GivesBelow(s, subject, z) && Counting(s, KeysOf(s, subject), Format(z)) == []
    ensures Gets(s, subject, Format(z))
  {
    BareGets(s, subject, z);
  }

  lemma TenantIsNamed(t: string)
    requires t != "" && '/' !in t
    ensures TenantNamed("/tenants/" + t) == Some(t)
  {
    var x := "/tenants/" + t;
    assert x[..9] == "/tenants/" && x[9..] == t;
  }

  /** A tenant's entry reaches its projects. */
  lemma TenantReaches(s: Snapshot, subject: string, z: AclPath, path: string)
    requires Indexed(s) && Placed(s) && WellFormed(z) && Below(path, Format(z))
    requires Between(s, z) != [] && Level(KeysOf(s, subject), s.byPath, Between(s, z)[0], false) != []
    ensures Candidate(s, subject, path, Format(z))
  {
    var t := TenantAt(s.tenantOf, z.cluster, z.project).value;
    var x := "/tenants/" + t;
    NothingCounting(s, KeysOf(s, subject), x);
    var e := CountedEntry(s, subject, x);
    TenantListsProject(s, z, t);
    hide TenantNamed, Format, Placed, Indexed, Counting, Level;
    TenantIsNamed(t);
    assert Format(z) in ReachOf(s, e);
  }

  lemma TenantListsProject(s: Snapshot, z: AclPath, t: string)
    requires Placed(s) && WellFormed(z) && z.Project? && TenantAt(s.tenantOf, z.cluster, z.project) == Some(t)
    ensures t != "" && '/' !in t && Format(z) in Lookup(s.projectsOf, t)
  {
    hide IsName, Format;
    NamesHoldNoSlash(z);
  }

  /** An instance on a group with propagating entries is a candidate from every path above it. */
  lemma GroupReaches(s: Snapshot, subject: string, path: string, y: string, g: string)
    requires Indexed(s) && Located(s) && Below(path, y)
    requires g in Lookup(s.locatedIn, y) && Level(KeysOf(s, subject), s.byPath, g, false) != []
    ensures Candidate(s, subject, path, y)
  {
    NothingCounting(s, KeysOf(s, subject), g);
    var e := CountedEntry(s, subject, g);
    assert y in Lookup(s.onGroup, g);
    assert y in ReachOf(s, e);
  }

  /** An instance with no entries of its own that gets something gets it from its chain, or from a group. */
  lemma BareInstanceGets(s: Snapshot, subject: string, y: AclPath)
    requires WellFormed(y) && y.Instance? && subject !in s.disabled
    requires Counting(s, KeysOf(s, subject), Format(y)) == [] && Gets(s, subject, Format(y))
    ensures GivesBelow(s, subject, y)
         || exists g :: g in Lookup(s.locatedIn, Format(y)) && Level(KeysOf(s, subject), s.byPath, g, false) != []
  {
    var keys := KeysOf(s, subject);
    var path := Format(y);
    NothingCounting(s, keys, path);
    var owned := Owned(s, subject, path, None);
    TwoParents(s, subject, y.cluster, y.project, y.instance, None);
    var p :| p in Decided(s, subject, path).privileges;
    if p in ProjectSide(s, subject, y.cluster, y.project, owned) {
      var chain := Chain(Project(y.cluster, y.project), s.tenantOf);
      GivesWhetherOwnedOrNot(keys, s.byPath, chain, false, owned);
      ResolveCons(keys, s.byPath, path, chain, false, false);
    } else {
      var g :| g in Lookup(s.locatedIn, path) && p in GroupSide(s, subject, g, owned);
      CombinedGivesUnlessFenced(Level(keys, s.byPath, g, false), owned);
    }
  }

  /** Whatever is there is seen, or hidden by a shadowed path. */
  lemma ThereIsSeenOrHidden(s: Snapshot, subject: string, p: AclPath)
    requires Coherent(s) && WellFormed(p) && SomethingAtOrBelow(s, subject, Format(p))
    ensures Seen(s, subject, Format(p)) || exists x :: Hidden(s, subject, Format(p), x)
  {
    var path :| AtOrBelow(Format(p), path) && Gets(s, subject, path);
    var y := Parse(path).value;
    FormatOfParse(path);
    var keys := KeysOf(s, subject);
    if y == p {
      return;
    }
    ParentStaysBelow(p, y);
    if Counting(s, keys, path) != [] {
      var e := CountedEntry(s, subject, path);
      assert path in ReachOf(s, e);
      assert Candidate(s, subject, Format(p), path);
    } else {
      BareGets(s, subject, y);
      if y.Instance? {
        BareInstanceGets(s, subject, y);
      }
      if GivesBelow(s, subject, y) {
        assert Chain(y, s.tenantOf)[0..] == Chain(y, s.tenantOf);
        Climb(s, subject, p, y, y, 0);
      } else {
        var g :| g in Lookup(s.locatedIn, path) && Level(keys, s.byPath, g, false) != [];
        GroupReaches(s, subject, Format(p), path, g);
      }
    }
  }

  lemma BelowCandidate(path: string, x: string, y: string)
    requires path != "" && Below(path, x) && AtOrBelow(x, y)
    ensures AtOrBelow(path, y)
  {
    assert x == "/" && path != "/" ==> |path + "/"| > |x|;
    AtOrBelowTrans(path, x, y);
  }

  lemma HiddenIsThere(s: Snapshot, subject: string, path: string, x: AclPath)
    requires path != "" && Hidden(s, subject, path, x)
    ensures SomethingAtOrBelow(s, subject, path)
  {
    var y :| BareBelow(s, subject, x, y);
    BareGetsFromShadow(s, subject, x, y);
    if Format(x) != path {
      BelowCandidate(path, Format(x), Format(y));
    }
    assert AtOrBelow(path, Format(y));
  }

  lemma BareGetsFromShadow(s: Snapshot, subject: string, x: AclPath, y: AclPath)
    requires GivesBelow(s, subject, x) && BareBelow(s, subject, x, y)
    ensures Gets(s, subject, Format(y))
  {
    var k :| BareTo(s, subject, x, y, k);
    BareInherits(s, subject, x, y, k);
    BareGets(s, subject, y);
  }

  /**
   The search is exact but for shadows: something at or below a path gets
   something exactly when the search sees it, or when a path it looked at is
   shadowed (non-propagating No access there, something inherited below it)
   and has something bare underneath.
   */
  lemma SeesExactly(s: Snapshot, subject: string, path: string)
    requires Coherent(s) && Parse(path).Some?
    ensures SomethingAtOrBelow(s, subject, path)
       <==> Seen(s, subject, path) || exists x :: Hidden(s, subject, path, x)
  {
    var p := Parse(path).value;
    FormatOfParse(path);
    if SomethingAtOrBelow(s, subject, path) {
      ThereIsSeenOrHidden(s, subject, p);
    } else if Seen(s, subject, path) {
      SeenIsThere(s, subject, path);
    } else if x :| Hidden(s, subject, path, x) {
      HiddenIsThere(s, subject, path, x);
    }
  }

  /** A path nothing can lie below. */
  predicate Leaf(x: AclPath) {
    x.Platform? || x.Group? || x.Instance? || x.Kubernetes?
  }

  /** The name that tells a path from the others of its parent. */
  function OwnName(x: AclPath): Option<string> {
    match x
    case Root => None
    case Platform => None
    case Cluster(c) => Some(c)
    case Group(_, g) => Some(g)
    case Project(_, pr) => Some(pr)
    case Instance(_, _, i) => Some(i)
    case Tenant(t) => Some(t)
    case Kubernetes(_, n) => Some(n)
  }

  function Child(x: AclPath, name: string): AclPath {
    match x
    case Cluster(c) => Group(c, name)
    case Project(c, pr) => Instance(c, pr, name)
    case Tenant(t) => Kubernetes(t, name)
    case _ => Cluster(name)
  }

  /** A name no entry is on. */
  ghost predicate Unused(s: Snapshot, name: string) {
    IsName(name) && forall e :: e in s.entries && Parse(e.path).Some? ==> OwnName(Parse(e.path).value) != Some(name)
  }

  /** Nothing lies strictly below a leaf. */
  lemma LeafHasNothingBelow(x: AclPath, y: AclPath)
    requires WellFormed(x) && WellFormed(y) && Leaf(x) && AtOrBelow(Format(x), Format(y))
    ensures x == y
  {
    hide Format, IsName;
    NamesHoldNoSlash(x);
    NamesHoldNoSlash(y);
    RootFormats();
    if Format(x) == "/" {
      FormatInjective(x, Root);
    } else if Format(y) == Format(x) {
      FormatInjective(x, y);
    } else {
      BelowIsStrict(x, y);
    }
  }

  /** Anything else has a bare child while some name is unused. */
  lemma BareChild(s: Snapshot, subject: string, x: AclPath, name: string)
    requires Coherent(s) && WellFormed(x) && !Leaf(x) && Unused(s, name)
    ensures BareBelow(s, subject, x, Child(x, name))
  {
    hide Format, IsName, BareTo, Chain;
    var y := Child(x, name);
    ParseOfFormat(y);
    ParentIsAbove(y);
    assert Parent(y) == x && y != x;
    var here := Counting(s, KeysOf(s, subject), Format(y));
    assert forall e :: e in here ==> e in s.entries && e.path == Format(y);
    assert here == [] by {
      assert forall e :: e !in here;
    }
    ChildIsNext(s, subject, x, name);
  }

  lemma ChildIsNext(s: Snapshot, subject: string, x: AclPath, name: string)
    requires !Leaf(x) && Counting(s, KeysOf(s, subject), Format(Child(x, name))) == []
    ensures BareTo(s, subject, x, Child(x, name), 1)
  {
    hide Format, Counting;
    var y := Child(x, name);
    ChainUp(s, y);
    assert Between(s, y) == [] && Parent(y) == x;
    assert Chain(y, s.tenantOf)[1..] == Chain(x, s.tenantOf);
  }

  /** A path the search decides: the one asked about, or a candidate. */
  ghost predicate LookedAt(s: Snapshot, subject: string, path: string, x: AclPath) {
    WellFormed(x) && (Format(x) == path || Candidate(s, subject, path, Format(x)))
  }

  lemma HiddenIffShadowed(s: Snapshot, subject: string, path: string, x: AclPath, name: string)
    requires Coherent(s) && Unused(s, name)
    ensures Hidden(s, subject, path, x) <==> LookedAt(s, subject, path, x) && Shadowed(s, subject, x) && !Leaf(x)
  {
    hide Format, Candidate, Shadowed, BareTo, IsName;
    if Hidden(s, subject, path, x) {
      var y :| BareBelow(s, subject, x, y);
      if Leaf(x) {
        LeafHasNothingBelow(x, y);
      }
    } else if LookedAt(s, subject, path, x) && !Leaf(x) {
      BareChild(s, subject, x, name);
    }
  }

  /**
   While some name is unused, what the search misses is told by the paths it
   decides: one of them, not a leaf, is shadowed.
   */
  lemma SeesUnlessShadowed(s: Snapshot, subject: string, path: string, name: string)
    requires Coherent(s) && Parse(path).Some? && Unused(s, name)
    ensures SomethingAtOrBelow(s, subject, path)
       <==> Seen(s, subject, path) || exists x :: LookedAt(s, subject, path, x) && Shadowed(s, subject, x) && !Leaf(x)
  {
    hide LookedAt, Shadowed, Leaf, Hidden, SomethingAtOrBelow, Seen;
    SeesExactly(s, subject, path);
    forall x
      ensures Hidden(s, subject, path, x) <==> LookedAt(s, subject, path, x) && Shadowed(s, subject, x) && !Leaf(x)
    {
      HiddenIffShadowed(s, subject, path, x, name);
    }
  }

  /** No non-propagating No access among the keys' entries: no path is shadowed. */
  lemma NothingShadowed(s: Snapshot, subject: string, x: AclPath)
    requires WellFormed(x)
    requires forall e :: e in Lookup(s.byPath, Format(x)) && e.subject in KeysOf(s, subject) && !e.propagate ==>
      e.role != NoAccess
    ensures !Shadowed(s, subject, x)
  {
    hide Format, Level, Combined, ResolveFrom, WellFormed, Parse, Fenced;
    if GivesBelow(s, subject, x) {
      var keys := KeysOf(s, subject);
      var path := Format(x);
      ParseOfFormat(x);
      var owned := Owned(s, subject, path, None);
      var chain := Chain(x, s.tenantOf);
      var high, low := Level(keys, s.byPath, path, true), Level(keys, s.byPath, path, false);
      assert chain == [path] + chain[1..];
      ResolveCons(keys, s.byPath, path, chain[1..], true, owned);
      ResolveCons(keys, s.byPath, path, chain[1..], false, false);
      HeadGivesWhatBelowGets(keys, s.byPath, path);
      CombinedGivesUnlessFenced(high, owned);
      CombinedGivesUnlessFenced(low, false);
      NothingCounting(s, keys, path);
      if high == [] {
        BareGets(s, subject, x);
      } else if x.Instance? {
        TwoParents(s, subject, x.cluster, x.project, x.instance, None);
      }
    }
  }

  /** So then the finite search answers for the infinitely many paths below, on every permissions path. */
  lemma SeesAllWithoutFences(s: Snapshot, subject: string, path: string)
    requires Coherent(s) && Parse(path).Some?
    requires forall e :: e in s.entries && e.subject in KeysOf(s, subject) && !e.propagate ==> e.role != NoAccess
    ensures Seen(s, subject, path) <==> SomethingAtOrBelow(s, subject, path)
  {
    SeesExactly(s, subject, path);
    forall x: AclPath | WellFormed(x)
      ensures !Shadowed(s, subject, x)
    {
      NothingShadowed(s, subject, x);
    }
  }

  /** And seeing is closed upwards: whoever sees a path sees every path above it. */
  lemma SeesUpwards(s: Snapshot, subject: string, above: string, path: string)
    requires Coherent(s) && Parse(path).Some? && Parse(above).Some? && AtOrBelow(above, path)
    requires forall e :: e in s.entries && e.subject in KeysOf(s, subject) && !e.propagate ==> e.role != NoAccess
    requires Seen(s, subject, path)
    ensures Seen(s, subject, above)
  {
    SeenIsThere(s, subject, path);
    var y :| AtOrBelow(path, y) && Gets(s, subject, y);
    assert above != "" && (path == "/" ==> |path| < |above + "/"|);
    AtOrBelowTrans(above, path, y);
    SeesAllWithoutFences(s, subject, above);
  }

  /** A subject with `role` on `/` and a No access on a cluster that does not propagate. */
  function FencedCluster(c: string, subject: string, role: RoleId): Acl.Snapshot {
    var top := Entry("e1", "/", subject, role, true, AclSource);
    var fence := Entry("e2", Format(Cluster(c)), subject, NoAccess, false, AclSource);
    Acl.Snapshot.Snapshot([top, fence], map["/" := [top], Format(Cluster(c)) := [fence]], map[subject := [top, fence]],
                          {}, map[], map[], map[], {}, map[], [], map[], map[], map[])
  }

  /** The shadow is real: the cluster is not seen, though its groups are decided by the role on `/`. */
  lemma FenceHidesCluster(c: string, g: string, subject: string, role: RoleId)
    requires WellFormed(Group(c, g)) && role != NoAccess
    ensures var s := FencedCluster(c, subject, role);
      Coherent(s) && !Seen(s, subject, Format(Cluster(c))) && Gets(s, subject, Format(Group(c, g)))
  {
    FencedIsCoherent(c, subject, role);
    FencedIsUnseen(c, subject, role);
    BelowTheFence(c, g, subject, role);
  }

  lemma FencedIsCoherent(c: string, subject: string, role: RoleId)
    requires WellFormed(Cluster(c))
    ensures Coherent(FencedCluster(c, subject, role))
  {
    hide Parse, Format, IsName;
    RootFormats();
    ParseOfFormat(Cluster(c));
    ParseOfFormat(Root);
  }

  lemma FencedIsUnseen(c: string, subject: string, role: RoleId)
    requires WellFormed(Cluster(c)) && role != NoAccess
    ensures !Seen(FencedCluster(c, subject, role), subject, Format(Cluster(c)))
  {
    var s := FencedCluster(c, subject, role);
    FencedGetsNothing(c, subject, role);
    forall x
      ensures !Candidate(s, subject, Format(Cluster(c)), x)
    {
      NoFencedCandidate(c, subject, role, x);
    }
  }

  lemma FencedGetsNothing(c: string, subject: string, role: RoleId)
    requires WellFormed(Cluster(c)) && role != NoAccess
    ensures !Gets(FencedCluster(c, subject, role), subject, Format(Cluster(c)))
  {
    var s := FencedCluster(c, subject, role);
    var top, fence := s.entries[0], s.entries[1];
    var keys := KeysOf(s, subject);
    ParseOfFormat(Cluster(c));
    var cluster := Format(Cluster(c));
    assert Chain(Cluster(c), s.tenantOf) == [cluster] + ["/"];
    assert Lookup(s.byPath, cluster) == [fence];
    FencedLevels(top, fence, keys);
    ResolveCons(keys, s.byPath, cluster, ["/"], true, false);
    CombinedGivesUnlessFenced([fence], false);
    assert fence in [fence];
  }

  /** The group below inherits from `/`. */
  lemma BelowTheFence(c: string, g: string, subject: string, role: RoleId)
    requires WellFormed(Group(c, g)) && role != NoAccess
    ensures Gets(FencedCluster(c, subject, role), subject, Format(Group(c, g)))
  {
    var s := FencedCluster(c, subject, role);
    var keys := KeysOf(s, subject);
    var y := Group(c, g);
    var rest := Chain(Cluster(c), s.tenantOf);
    ParseOfFormat(y);
    FormatInjectiveGroup(c, g);
    FenceLetsThrough(c, subject, role);
    ChainUp(s, y);
    assert Between(s, y) == [] && Chain(y, s.tenantOf) == [Format(y)] + rest;
    assert Counting(s, keys, Format(y)) == [];
    NothingCounting(s, keys, Format(y));
    ResolveCons(keys, s.byPath, Format(y), rest, false, false);
    BareGets(s, subject, y);
  }

  lemma FenceLetsThrough(c: string, subject: string, role: RoleId)
    requires role != NoAccess
    ensures var s := FencedCluster(c, subject, role);
      ResolveFrom(KeysOf(s, subject), s.byPath, Chain(Cluster(c), s.tenantOf), false, false).privileges != {}
  {
    var s := FencedCluster(c, subject, role);
    var top, fence := s.entries[0], s.entries[1];
    var keys := KeysOf(s, subject);
    var cluster := Format(Cluster(c));
    assert Chain(Cluster(c), s.tenantOf) == [cluster] + ["/"];
    assert Lookup(s.byPath, cluster) == [fence] && Lookup(s.byPath, "/") == [top];
    FencedLevels(top, fence, keys);
    ResolveCons(keys, s.byPath, cluster, ["/"], false, false);
    ResolveOne(keys, s.byPath, "/", false, false);
    CombinedGivesUnlessFenced([top], false);
  }

  lemma FormatInjectiveGroup(c: string, g: string)
    requires WellFormed(Group(c, g))
    ensures Format(Group(c, g)) != Format(Cluster(c)) && Format(Group(c, g)) != "/"
  {
  }

  lemma FencedLevels(top: Entry, fence: Entry, keys: seq<string>)
    requires keys == [top.subject] && fence.subject == top.subject && top.propagate && !fence.propagate
    ensures Preferred(Matching([fence], keys, true), keys[0]) == [fence]
    ensures Preferred(Matching([fence], keys, false), keys[0]) == []
    ensures Preferred(Matching([top], keys, false), keys[0]) == [top]
  {
    assert [fence][1..] == [] && [top][1..] == [];
    assert Matching([fence], keys, true) == [fence] && OfSubject([fence], keys[0]) == [fence];
    assert Matching([top], keys, false) == [top] && OfSubject([top], keys[0]) == [top];
  }

  lemma NoFencedCandidate(c: string, subject: string, role: RoleId, x: string)
    requires IsName(c)
    ensures !Candidate(FencedCluster(c, subject, role), subject, Format(Cluster(c)), x)
  {
    var s := FencedCluster(c, subject, role);
    var cluster := Format(Cluster(c));
    forall e | e in EntriesOf(s, KeysOf(s, subject)) && x in ReachOf(s, e)
      ensures !Below(cluster, x)
    {
      assert x == e.path;
      assert e in s.entries;
      assert x == "/" || x == cluster;
      assert |cluster + "/"| > |x|;
    }
  }
}
