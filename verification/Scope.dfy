/**
 The filter that lists instances by project, with single instances taken out
 or added (incuscloud/server/src/acl/acl.ts, instanceScope), and
 exactly when that filter agrees with deciding each instance.
 */
module Scope {
  import opened Text
  import opened Catalog
  import opened Paths
  import opened Resolve
  import opened Acl

  datatype InstanceScope = InstanceScope(projects: seq<string>, excluded: seq<string>, included: seq<string>)

  /** `<cluster>/<project>[/<name>]` out of a path, by slicing and replacing. */
  function Key(path: string): string {
    var tail := if |"/clusters/"| <= |path| then path[|"/clusters/"|..] else "";
    ReplaceFirst(ReplaceFirst(tail, "/projects/", "/"), "/instances/", "/")
  }

  /** The key up to its last slash (without one, JavaScript's slice(0, -1) drops the last character). */
  function ProjectPart(key: string): string {
    var i := LastIndexOf(key, '/');
    if i >= 0 then key[..i] else if key == "" then "" else key[..|key| - 1]
  }

  function ProjectKey(c: string, pr: string): string {
    c + "/" + pr
  }

  function InstanceKey(c: string, pr: string, i: string): string {
    c + "/" + pr + "/" + i
  }

  lemma KeyTail(c: string, rest: string)
    ensures Key("/clusters/" + c + rest) == ReplaceFirst(ReplaceFirst(c + rest, "/projects/", "/"), "/instances/", "/")
  {
    var head := "/clusters/";
    assert head + c + rest == head + (c + rest);
    assert (head + (c + rest))[|head|..] == c + rest;
  }

  lemma TwoReplacements(c: string, from: string, rest: string, to: string)
    requires '/' !in c && from != "" && to != "" && from[0] == '/' && to[0] == '/'
    ensures ReplaceFirst(ReplaceFirst(c + (from + rest), from, "/"), to, "/") == c + ReplaceFirst("/" + rest, to, "/")
  {
    ReplaceAfter(c, from + rest, from, "/", '/');
    ReplaceAtHead(from, rest, "/");
    ReplaceAfter(c, "/" + rest, to, "/", '/');
  }

  lemma ProjectKeyOf(c: string, pr: string)
    requires '/' !in c && '/' !in pr
    ensures Key(Format(Project(c, pr))) == ProjectKey(c, pr)
  {
    var from := "/projects/";
    assert Format(Project(c, pr)) == "/clusters/" + c + (from + pr);
    KeyTail(c, from + pr);
    TwoReplacements(c, from, pr, "/instances/");
    NoInstanceInfix(pr);
    assert c + ("/" + pr) == c + "/" + pr;
  }

  lemma NoInstanceInfix(pr: string)
    requires '/' !in pr
    ensures Find("/" + pr, "/instances/").None?
  {
    var pat := "/instances/";
    var s := "/" + pr;
    assert s[1..] == pr && forall k :: 1 <= k < |s| ==> s[k] == pr[k - 1];
    if StartsWith(s, pat) {
      StartsWithAt(s, pat, 10);
    } else {
      NoOccurrence(pr, pat, 0);
    }
  }

  lemma InstanceKeyOf(c: string, pr: string, i: string)
    requires '/' !in c && '/' !in pr && '/' !in i
    ensures Key(Format(Instance(c, pr, i))) == InstanceKey(c, pr, i)
  {
    hide Format, Key, ReplaceFirst;
    var rest := pr + "/instances/" + i;
    InstanceTemplate(c, pr, i);
    KeyTail(c, "/projects/" + rest);
    TwoReplacements(c, "/projects/", rest, "/instances/");
    InstanceInfix(pr, i);
    assert c + ("/" + pr + "/" + i) == c + "/" + pr + "/" + i;
  }

  lemma InstanceTemplate(c: string, pr: string, i: string)
    ensures Format(Instance(c, pr, i)) == "/clusters/" + c + ("/projects/" + (pr + "/instances/" + i))
  {
  }

  /** Even in a project called `instances`, replacing the first infix gives `/<project>/<name>`. */
  lemma InstanceInfix(pr: string, i: string)
    requires '/' !in pr && '/' !in i
    ensures ReplaceFirst("/" + (pr + "/instances/" + i), "/instances/", "/") == "/" + pr + "/" + i
  {
    hide ReplaceFirst, StartsWith;
    var pat := "/instances/";
    if StartsWith("/" + (pr + pat + i), pat) {
      InstancesProject(pr, i);
      InfixAtHead(i);
    } else {
      assert pat[0] == '/';
      InfixLater(pr, pat, i);
    }
  }

  lemma InfixAtHead(i: string)
    ensures ReplaceFirst("/" + ("instances" + "/instances/" + i), "/instances/", "/") == "/" + "instances" + "/" + i
  {
    hide ReplaceFirst;
    ReplaceAtHead("/instances/", "instances/" + i, "/");
    assert "/" + ("instances" + "/instances/" + i) == "/instances/" + ("instances/" + i);
    assert "/" + ("instances/" + i) == "/" + "instances" + "/" + i;
  }

  lemma InfixLater(pr: string, pat: string, i: string)
    requires '/' !in pr && pat != "" && pat[0] == '/' && !StartsWith("/" + (pr + pat + i), pat)
    ensures ReplaceFirst("/" + (pr + pat + i), pat, "/") == "/" + pr + "/" + i
  {
    hide ReplaceFirst, StartsWith;
    var s := "/" + (pr + pat + i);
    assert pr + pat + i == pr + (pat + i) && s[1..] == pr + (pat + i);
    ReplaceAfter(pr, pat + i, pat, "/", '/');
    ReplaceAtHead(pat, i, "/");
    ShiftReplace(s, pat);
    assert "/" + (pr + ("/" + i)) == "/" + pr + "/" + i;
  }

  lemma ShiftReplace(s: string, pat: string)
    requires s != "" && s[0] == '/' && !StartsWith(s, pat)
    ensures ReplaceFirst(s, pat, "/") == "/" + ReplaceFirst(s[1..], pat, "/")
  {
    var i := Find(s[1..], pat);
    assert s == "/" + s[1..];
    if i.Some? {
      SpliceAfter("/", s[1..], i.value, |pat|, "/");
    }
  }

  lemma InstancesProject(pr: string, i: string)
    requires '/' !in pr && StartsWith("/" + (pr + "/instances/" + i), "/instances/")
    ensures pr == "instances"
  {
    assert "/instances/" == "/" + "instances" + "/";
    var word := "instances";
    assert '/' !in word;
    PrefixedByWord(pr, word, i);
  }

  /** After a slash, a name without slashes that starts with a word and a slash is that word. */
  lemma PrefixedByWord(pr: string, word: string, i: string)
    requires '/' !in pr && '/' !in word
    requires StartsWith("/" + (pr + ("/" + word + "/") + i), "/" + word + "/")
    ensures pr == word
  {
    hide StartsWith;
    var t := pr + ("/" + word + "/") + i;
    var rest := AfterPrefix("/" + t, "/" + word + "/");
    assert ("/" + t)[1..] == t && ("/" + word + "/" + rest)[1..] == word + "/" + rest;
    assert t == pr + "/" + (word + "/" + i);
    CutAtSlash(pr, word + "/" + i, word, rest);
  }

  lemma AfterPrefix(s: string, prefix: string) returns (rest: string)
    requires StartsWith(s, prefix)
    ensures s == prefix + rest
  {
    rest := s[|prefix|..];
  }

  lemma InstanceKeyInjective(c: string, pr: string, i: string, d: string, qr: string, j: string)
    requires SlashFree(Instance(c, pr, i)) && SlashFree(Instance(d, qr, j))
    requires InstanceKey(c, pr, i) == InstanceKey(d, qr, j)
    ensures c == d && pr == qr && i == j
  {
    assert InstanceKey(c, pr, i) == c + "/" + (pr + "/" + i);
    assert InstanceKey(d, qr, j) == d + "/" + (qr + "/" + j);
    CutAtSlash(c, pr + "/" + i, d, qr + "/" + j);
    CutAtSlash(pr, i, qr, j);
  }

  lemma ProjectPartOf(c: string, pr: string, i: string)
    requires '/' !in i
    ensures ProjectPart(InstanceKey(c, pr, i)) == ProjectKey(c, pr)
  {
    LastIndexOfLast(ProjectKey(c, pr), '/', i);
    assert InstanceKey(c, pr, i)[..|ProjectKey(c, pr)|] == ProjectKey(c, pr);
  }

  /** The slicing key names an instance unambiguously, and its part before the last slash is the project's key. */
  lemma KeyIsInjective(p: AclPath, q: AclPath)
    requires SlashFree(p) && SlashFree(q) && p.Instance? && q.Instance?
    ensures Key(Format(p)) == Key(Format(q)) ==> p == q
    ensures ProjectPart(Key(Format(p))) == Key(Format(Project(p.cluster, p.project)))
    ensures Key(Format(Project(p.cluster, p.project))) == Key(Format(Project(q.cluster, q.project)))
        ==> p.cluster == q.cluster && p.project == q.project
  {
    InstanceKeyOf(p.cluster, p.project, p.instance);
    InstanceKeyOf(q.cluster, q.project, q.instance);
    ProjectKeyOf(p.cluster, p.project);
    ProjectKeyOf(q.cluster, q.project);
    ProjectPartOf(p.cluster, p.project, p.instance);
    if Key(Format(p)) == Key(Format(q)) {
      InstanceKeyInjective(p.cluster, p.project, p.instance, q.cluster, q.project, q.instance);
    }
    if ProjectKey(p.cluster, p.project) == ProjectKey(q.cluster, q.project) {
      CutAtSlash(p.cluster, p.project, q.cluster, q.project);
    }
  }

  /** Whether a subject holds the privilege on a path. */
  predicate Has(s: Snapshot, subject: string, privilege: Privilege, path: string) {
    privilege in Decided(s, subject, path).privileges
  }

  /**
   The instances the filter looks at one by one: an entry of the keys is on the instance or on one
   of its cluster groups, or the subject owns it.
   */
  ghost predicate IsSingle(s: Snapshot, subject: string, path: string) {
    || (exists e :: EntryAmong(s, KeysOf(s, subject), e) && SinglesOf(s, e, path))
    || (path in s.owners && s.owners[path] == subject && StartsWith(path, "/clusters/"))
  }

  /** The entries listed under any of the keys. */
  ghost predicate EntryAmong(s: Snapshot, keys: seq<string>, e: Entry) {
    exists k :: k in keys && e in Lookup(s.bySubject, k)
  }

  /** What one entry adds to the singles. */
  predicate SinglesOf(s: Snapshot, e: Entry, path: string) {
    var parsed := Parse(e.path);
    && parsed.Some?
    && ((parsed.value.Instance? && path == e.path) || (parsed.value.Group? && path in Lookup(s.onGroup, e.path)))
  }

  ghost predicate InProjects(s: Snapshot, subject: string, privilege: Privilege, key: string) {
    exists x :: x in s.projects && Has(s, subject, privilege, x) && Key(x) == key
  }

  /**
   A single the filter must name: with `held`, one its project does not cover; otherwise one its
   project covers wrongly.
   */
  ghost predicate Exception(s: Snapshot, subject: string, privilege: Privilege, key: string, held: bool) {
    exists x :: IsSingle(s, subject, x) && Key(x) == key && Has(s, subject, privilege, x) == held
      && InProjects(s, subject, privilege, ProjectPart(key)) == !held
  }

  /** What the filter holds, by membership. */
  ghost predicate IsScope(s: Snapshot, subject: string, privilege: Privilege, scope: InstanceScope) {
    && (forall k :: k in scope.projects <==> InProjects(s, subject, privilege, k))
    && (forall k :: k in scope.included <==> Exception(s, subject, privilege, k, true))
    && (forall k :: k in scope.excluded <==> Exception(s, subject, privilege, k, false))
  }

  /** The filter as built in the code; the singles are a set, so their order is open. */
  method BuildScope(s: Snapshot, subject: string, privilege: Privilege) returns (scope: InstanceScope)
    ensures IsScope(s, subject, privilege, scope)
  {
    var projects := HeldProjects(s, subject, privilege);
    var singles := CollectSingles(s, subject);
    var excluded, included := Exceptions(s, subject, privilege, projects, singles);
    scope := InstanceScope(projects, excluded, included);
    forall k, held: bool
      ensures ExceptionAmong(s, subject, privilege, k, held, singles) <==> Exception(s, subject, privilege, k, held)
    {
    }
  }

  method HeldProjects(s: Snapshot, subject: string, privilege: Privilege) returns (projects: seq<string>)
    ensures forall k :: k in projects <==> InProjects(s, subject, privilege, k)
  {
    projects := [];
    for i := 0 to |s.projects|
      invariant forall k :: k in projects <==>
        exists x :: x in s.projects[..i] && Has(s, subject, privilege, x) && Key(x) == k
    {
      assert s.projects[..i + 1] == s.projects[..i] + [s.projects[i]];
      var d := Decide(s, subject, s.projects[i], None);
      if privilege in d.privileges {
        projects := projects + [Key(s.projects[i])];
      }
    }
    assert s.projects[..|s.projects|] == s.projects;
  }

  method Exceptions(s: Snapshot, subject: string, privilege: Privilege, projects: seq<string>, singles: set<string>)
      returns (excluded: seq<string>, included: seq<string>)
    requires forall k :: k in projects <==> InProjects(s, subject, privilege, k)
    ensures forall k :: k in included <==> ExceptionAmong(s, subject, privilege, k, true, singles)
    ensures forall k :: k in excluded <==> ExceptionAmong(s, subject, privilege, k, false, singles)
  {
    hide Key, Has, InProjects, ExceptionAmong, ProjectPart;
    excluded, included := [], [];
    NoExceptionYet(s, subject, privilege);
    var rest, done: set<string> := singles, {};
    while rest != {}
      invariant done + rest == singles
      invariant forall k :: k in included <==> ExceptionAmong(s, subject, privilege, k, true, done)
      invariant forall k :: k in excluded <==> ExceptionAmong(s, subject, privilege, k, false, done)
      decreases |rest|
    {
      var path :| path in rest;
      var k := Key(path);
      var d := Decide(s, subject, path, None);
      var has := privilege in d.privileges;
      HasAsDecided(s, subject, privilege, path);
      var covered := ProjectPart(k) in projects;
      OneMoreSingle(s, subject, privilege, done, path, true);
      OneMoreSingle(s, subject, privilege, done, path, false);
      if has && !covered {
        included := included + [k];
      }
      if !has && covered {
        excluded := excluded + [k];
      }
      rest, done := rest - {path}, done + {path};
    }
    assert done == singles;
  }

  ghost predicate ExceptionAmong(s: Snapshot, subject: string, privilege: Privilege, key: string, held: bool,
      paths: set<string>) {
    exists x :: x in paths && Key(x) == key && Has(s, subject, privilege, x) == held
      && InProjects(s, subject, privilege, ProjectPart(key)) == !held
  }

  lemma HasAsDecided(s: Snapshot, subject: string, privilege: Privilege, path: string)
    ensures Has(s, subject, privilege, path) == (privilege in DecideAs(s, subject, path, None).privileges)
  {
  }

  lemma NoExceptionYet(s: Snapshot, subject: string, privilege: Privilege)
    ensures forall k, held :: !ExceptionAmong(s, subject, privilege, k, held, {})
  {
  }

  lemma OneMoreSingle(s: Snapshot, subject: string, privilege: Privilege, done: set<string>, path: string, held: bool)
    ensures forall k :: ExceptionAmong(s, subject, privilege, k, held, done + {path}) <==>
      ExceptionAmong(s, subject, privilege, k, held, done)
      || (k == Key(path) && Has(s, subject, privilege, path) == held
        && InProjects(s, subject, privilege, ProjectPart(Key(path))) == !held)
  {
  }

  method CollectSingles(s: Snapshot, subject: string) returns (singles: set<string>)
    ensures forall x :: x in singles <==> IsSingle(s, subject, x)
  {
    var found := SinglesOfEntries(s, KeysOf(s, subject));
    singles := found + set path | path in s.owners && s.owners[path] == subject && StartsWith(path, "/clusters/");
  }

  /** The singles of the entries of all keys. */
  method SinglesOfEntries(s: Snapshot, keys: seq<string>) returns (singles: set<string>)
    ensures forall x :: x in singles <==> exists e :: EntryAmong(s, keys, e) && SinglesOf(s, e, x)
  {
    hide SinglesOf;
    singles := {};
    for i := 0 to |keys|
      invariant forall x :: x in singles <==> exists e :: EntryAmong(s, keys[..i], e) && SinglesOf(s, e, x)
    {
      assert keys[..i + 1] == keys[..i] + [keys[i]];
      var more := SinglesOfKey(s, Lookup(s.bySubject, keys[i]));
      forall e
        ensures EntryAmong(s, keys[..i + 1], e) <==> EntryAmong(s, keys[..i], e) || e in Lookup(s.bySubject, keys[i])
      {
      }
      singles := singles + more;
    }
    assert keys[..|keys|] == keys;
  }

  method SinglesOfKey(s: Snapshot, es: seq<Entry>) returns (singles: set<string>)
    ensures forall x :: x in singles <==> exists e :: e in es && SinglesOf(s, e, x)
  {
    singles := {};
    for j := 0 to |es|
      invariant forall x :: x in singles <==> exists e :: e in es[..j] && SinglesOf(s, e, x)
    {
      assert es[..j + 1] == es[..j] + [es[j]];
      var added := set x | x in {es[j].path} + SetOf(Lookup(s.onGroup, es[j].path)) && SinglesOf(s, es[j], x);
      assert forall x :: x in added <==> SinglesOf(s, es[j], x);
      singles := singles + added;
    }
    assert es[..|es|] == es;
  }

  function SetOf(xs: seq<string>): (all: set<string>)
    ensures forall x :: x in all <==> x in xs
  {
    set x | x in xs
  }

  lemma LocatedNames(s: Snapshot, x: string, g: string)
    requires Located(s) && (g in Lookup(s.locatedIn, x) || x in Lookup(s.onGroup, g))
    ensures SpellsInstance(x) && SpellsGroup(g) && x in Lookup(s.onGroup, g)
  {
    hide SpellsInstance, SpellsGroup;
    assert g in Lookup(s.locatedIn, x) && SpellsPlace(x, g);
  }

  lemma SingleSpellsInstance(s: Snapshot, subject: string, path: string)
    requires Coherent(s) && IsSingle(s, subject, path)
    ensures SpellsInstance(path)
  {
    if path in s.owners && StartsWith(path, "/clusters/") {
      ClustersAreNotTenants(path);
    } else {
      var e :| EntryAmong(s, KeysOf(s, subject), e) && SinglesOf(s, e, path);
      SinglesOfSpells(s, e, path);
    }
  }

  lemma SinglesOfSpells(s: Snapshot, e: Entry, path: string)
    requires Located(s) && SinglesOf(s, e, path)
    ensures SpellsInstance(path)
  {
    if Parse(e.path).value.Instance? {
      FormatOfParse(e.path);
      assert SlashFree(Parse(e.path).value);
    } else {
      LocatedNames(s, path, e.path);
    }
  }

  lemma ClustersAreNotTenants(path: string)
    requires StartsWith(path, "/clusters/")
    ensures !SpellsKubernetes(path)
  {
    StartsWithAt(path, "/clusters/", 1);
    forall q: AclPath | q.Kubernetes?
      ensures Format(q)[1] == 't'
    {
    }
  }

  lemma InstancePrefix(at: AclPath)
    requires at.Instance?
    ensures StartsWith(Format(at), "/clusters/")
  {
    InstanceTemplate(at.cluster, at.project, at.instance);
    assert Format(at)[..10] == "/clusters/";
  }

  /** An entry of the subject's keys found by path is found by subject too. */
  lemma EntryAtIsOfSubject(s: Snapshot, subject: string, e: Entry, x: string)
    requires Indexed(s) && e in Lookup(s.byPath, x) && e.subject in KeysOf(s, subject)
    ensures EntryAmong(s, KeysOf(s, subject), e) && e.path == x && Parse(x).Some?
  {
    assert e in Lookup(s.bySubject, e.subject);
  }

  lemma NoOwnEntriesOutsideSingles(s: Snapshot, subject: string, at: AclPath)
    requires Coherent(s) && at.Instance? && WellFormed(at) && !IsSingle(s, subject, Format(at))
    ensures OwnEntries(s, subject, Format(at)) == []
  {
    var path := Format(at);
    ParseOfFormat(at);
    LevelEmpty(KeysOf(s, subject), s.byPath, path, true);
    forall e | e in Lookup(s.byPath, path) && e.subject in KeysOf(s, subject)
      ensures false
    {
      EntryAtIsOfSubject(s, subject, e, path);
      assert SinglesOf(s, e, path);
    }
  }

  lemma NoGroupEntriesOutsideSingles(s: Snapshot, subject: string, path: string, g: string)
    requires Coherent(s) && !IsSingle(s, subject, path) && g in Lookup(s.locatedIn, path)
    ensures Level(KeysOf(s, subject), s.byPath, g, false) == []
  {
    LevelEmpty(KeysOf(s, subject), s.byPath, g, false);
    LocatedNames(s, path, g);
    var q: AclPath :| q.Group? && SlashFree(q) && g == Format(q);
    ParseOfSlashFree(q);
    forall e | e in Lookup(s.byPath, g) && e.subject in KeysOf(s, subject)
      ensures false
    {
      EntryAtIsOfSubject(s, subject, e, g);
      assert SinglesOf(s, e, path);
    }
  }

  /**
   An instance outside the singles has no entries of its own, gets nothing from its groups, and is
   not the subject's.
   */
  lemma OutsideSingles(s: Snapshot, subject: string, at: AclPath)
    requires Coherent(s) && at.Instance? && WellFormed(at) && !IsSingle(s, subject, Format(at))
    ensures OwnEntries(s, subject, Format(at)) == []
    ensures !Owned(s, subject, Format(at), None)
    ensures forall g :: g in Lookup(s.locatedIn, Format(at)) ==> Level(KeysOf(s, subject), s.byPath, g, false) == []
  {
    NoOwnEntriesOutsideSingles(s, subject, at);
    InstancePrefix(at);
    forall g | g in Lookup(s.locatedIn, Format(at))
      ensures Level(KeysOf(s, subject), s.byPath, g, false) == []
    {
      NoGroupEntriesOutsideSingles(s, subject, Format(at), g);
    }
  }

  lemma CoveredIffProjectHeld(s: Snapshot, subject: string, privilege: Privilege, c: string, pr: string)
    requires Coherent(s) && '/' !in c && '/' !in pr && Format(Project(c, pr)) in s.projects
    ensures InProjects(s, subject, privilege, ProjectKey(c, pr)) <==> Has(s, subject, privilege, Format(Project(c, pr)))
  {
    ProjectKeyOf(c, pr);
    if InProjects(s, subject, privilege, ProjectKey(c, pr)) {
      var x :| x in s.projects && Has(s, subject, privilege, x) && Key(x) == ProjectKey(c, pr);
      var q: AclPath :| q.Project? && SlashFree(q) && x == Format(q);
      ProjectKeyOf(q.cluster, q.project);
      CutAtSlash(c, pr, q.cluster, q.project);
    }
  }

  lemma ExceptionIffSingle(s: Snapshot, subject: string, privilege: Privilege, at: AclPath, held: bool)
    requires Coherent(s) && at.Instance? && SlashFree(at) && Format(Project(at.cluster, at.project)) in s.projects
    ensures Exception(s, subject, privilege, Key(Format(at)), held)
      <==> IsSingle(s, subject, Format(at)) && Has(s, subject, privilege, Format(at)) == held
           && Has(s, subject, privilege, Format(Project(at.cluster, at.project))) == !held
  {
    var key := Key(Format(at));
    KeyIsInjective(at, at);
    ProjectKeyOf(at.cluster, at.project);
    CoveredIffProjectHeld(s, subject, privilege, at.cluster, at.project);
    if Exception(s, subject, privilege, key, held) {
      var x :| IsSingle(s, subject, x) && Key(x) == key && Has(s, subject, privilege, x) == held;
      SingleSpellsInstance(s, subject, x);
      var q: AclPath :| q.Instance? && SlashFree(q) && x == Format(q);
      KeyIsInjective(at, q);
    }
  }

  /** The filter as its readers apply it: a listed project and not excluded, or included by name. */
  predicate InScope(scope: InstanceScope, c: string, pr: string, i: string) {
    (ProjectKey(c, pr) in scope.projects && InstanceKey(c, pr, i) !in scope.excluded)
      || InstanceKey(c, pr, i) in scope.included
  }

  /** The project answers the privilege for itself as it does for what is below it. */
  predicate ProjectReadsSame(s: Snapshot, subject: string, privilege: Privilege, c: string, pr: string) {
    subject in s.disabled
    || (Has(s, subject, privilege, Format(Project(c, pr))) <==> privilege in ProjectSide(s, subject, c, pr, false))
  }

  /**
   The filter agrees with deciding the instance exactly when the instance is
   one of the singles or its project reads the privilege the same for itself
   as for what is below it: only entries on the project that do not propagate
   can make the two differ.
   */
  lemma ScopeAgreesWithDecide(s: Snapshot, subject: string, privilege: Privilege, scope: InstanceScope, c: string,
      pr: string, i: string)
    requires Coherent(s) && IsScope(s, subject, privilege, scope)
    requires WellFormed(Instance(c, pr, i)) && Format(Project(c, pr)) in s.projects
    ensures (InScope(scope, c, pr, i) <==> Has(s, subject, privilege, Format(Instance(c, pr, i))))
       <==> IsSingle(s, subject, Format(Instance(c, pr, i))) || ProjectReadsSame(s, subject, privilege, c, pr)
  {
    var at := Instance(c, pr, i);
    var path := Format(at);
    InstanceKeyOf(c, pr, i);
    CoveredIffProjectHeld(s, subject, privilege, c, pr);
    ExceptionIffSingle(s, subject, privilege, at, true);
    ExceptionIffSingle(s, subject, privilege, at, false);
    if !IsSingle(s, subject, path) && subject !in s.disabled {
      OutsideSingles(s, subject, at);
      TwoParents(s, subject, c, pr, i, None);
      var groups := Lookup(s.locatedIn, path);
      assert EitherSide(s, subject, c, pr, groups, false, privilege)
        <==> privilege in ProjectSide(s, subject, c, pr, false);
    }
  }

  /**
   A project without non-propagating entries of the subject's keys reads the same, so there the
   filter always agrees.
   */
  lemma PropagatingProjectsReadSame(s: Snapshot, subject: string, privilege: Privilege, c: string, pr: string)
    requires Coherent(s) && WellFormed(Project(c, pr))
    requires forall e :: e in Lookup(s.byPath, Format(Project(c, pr))) && e.subject in KeysOf(s, subject) ==>
      e.propagate
    ensures ProjectReadsSame(s, subject, privilege, c, pr)
  {
    var p := Project(c, pr);
    var path := Format(p);
    ParseOfFormat(p);
    ProjectsAreUnowned(s, c, pr);
    hide Format, Coherent, Chain, Matching;
    ProjectChain(s, c, pr);
    var keys := KeysOf(s, subject);
    var es := Lookup(s.byPath, path);
    AllPropagate(es, keys);
    ResolveCons(keys, s.byPath, path, Chain(p, s.tenantOf)[1..], true, false);
    ResolveCons(keys, s.byPath, path, Chain(p, s.tenantOf)[1..], false, false);
  }

  lemma ProjectChain(s: Snapshot, c: string, pr: string)
    ensures var chain := Chain(Project(c, pr), s.tenantOf); chain == [Format(Project(c, pr))] + chain[1..]
  {
  }

  /** Projects have no owners. */
  lemma ProjectsAreUnowned(s: Snapshot, c: string, pr: string)
    requires Coherent(s) && WellFormed(Project(c, pr))
    ensures Format(Project(c, pr)) !in s.owners
  {
    hide Format, IsName;
    var p := Project(c, pr);
    NameHoldsNoSlash(c);
    NameHoldsNoSlash(pr);
    if Format(p) in s.owners {
      var q: AclPath :| (q.Instance? || q.Kubernetes?) && SlashFree(q) && Format(p) == Format(q);
      FormatInjective(p, q);
    }
  }

  lemma NameHoldsNoSlash(n: string)
    requires IsName(n)
    ensures '/' !in n
  {
  }

  lemma {:induction false} AllPropagate(es: seq<Entry>, keys: seq<string>)
    requires forall e :: e in es && e.subject in keys ==> e.propagate
    ensures Matching(es, keys, true) == Matching(es, keys, false)
  {
    if es != [] {
      AllPropagate(es[1..], keys);
    }
  }

  /** A snapshot whose one entry sits on a project and does not propagate. */
  function OnlyOnProject(c: string, pr: string, e: Entry): Snapshot {
    Acl.Snapshot.Snapshot([e], map[e.path := [e]], map[e.subject := [e]], {}, map[], map[], map[], {}, map[], [e.path],
      map[], map[], map[])
  }

  /**
   The condition is needed: such an entry makes the filter show the project's instances, which the
   decision refuses.
   */
  lemma NonPropagatingEntryMisleads(c: string, pr: string, i: string, e: Entry, privilege: Privilege,
      scope: InstanceScope)
    requires WellFormed(Instance(c, pr, i)) && e.path == Format(Project(c, pr))
    requires !e.propagate && e.role != NoAccess && Gives(e.role, privilege)
    requires IsScope(OnlyOnProject(c, pr, e), e.subject, privilege, scope)
    ensures var s := OnlyOnProject(c, pr, e);
      Coherent(s) && InScope(scope, c, pr, i) && !Has(s, e.subject, privilege, Format(Instance(c, pr, i)))
  {
    var s := OnlyOnProject(c, pr, e);
    OnlyOnProjectIsCoherent(c, pr, e);
    ProjectTakesItsEntry(c, pr, e, privilege);
    NothingPropagates(KeysOf(s, e.subject), s.byPath, Chain(Project(c, pr), s.tenantOf));
    assert !IsSingle(s, e.subject, Format(Instance(c, pr, i))) by {
      ParseOfFormat(Project(c, pr));
    }
    OutsideSingles(s, e.subject, Instance(c, pr, i));
    TwoParents(s, e.subject, c, pr, i, None);
    assert s.projects[0] == Format(Project(c, pr));
    ScopeAgreesWithDecide(s, e.subject, privilege, scope, c, pr, i);
  }

  lemma OnlyOnProjectIsCoherent(c: string, pr: string, e: Entry)
    requires WellFormed(Project(c, pr)) && e.path == Format(Project(c, pr))
    ensures Coherent(OnlyOnProject(c, pr, e))
  {
    hide Parse, Format, IsName;
    var p := Project(c, pr);
    ParseOfFormat(p);
    NamesHoldNoSlash(p);
    assert SpellsProject(e.path) by {
      assert SlashFree(p);
    }
  }

  /** The project's own decision takes the entry. */
  lemma ProjectTakesItsEntry(c: string, pr: string, e: Entry, privilege: Privilege)
    requires WellFormed(Project(c, pr)) && e.path == Format(Project(c, pr))
    requires e.role != NoAccess && Gives(e.role, privilege)
    ensures Has(OnlyOnProject(c, pr, e), e.subject, privilege, e.path)
  {
    var s := OnlyOnProject(c, pr, e);
    var p := Project(c, pr);
    ParseOfFormat(p);
    var keys := KeysOf(s, e.subject);
    assert keys == [e.subject];
    OneEntryMatches(e, keys);
    ResolveCons(keys, s.byPath, e.path, Chain(p, s.tenantOf)[1..], true, false);
    assert Chain(p, s.tenantOf) == [e.path] + Chain(p, s.tenantOf)[1..];
    assert e in [e] && privilege in Granted(e, false);
  }

  lemma OneEntryMatches(e: Entry, keys: seq<string>)
    requires keys == [e.subject]
    ensures Preferred(Matching([e], keys, true), e.subject) == [e]
  {
    assert [e][1..] == [];
    assert Matching([e], keys, true) == [e];
    assert OfSubject([e], e.subject) == [e];
  }

  lemma {:induction false} NothingPropagates(keys: seq<string>, byPath: map<string, seq<Entry>>, chain: seq<string>)
    requires keys != [] && forall x, e :: x in chain && e in Lookup(byPath, x) ==> !e.propagate
    ensures ResolveFrom(keys, byPath, chain, false, false) == NOTHING
  {
    if chain != [] {
      LevelEmpty(keys, byPath, chain[0], false);
      NothingPropagates(keys, byPath, chain[1..]);
    }
  }
}
