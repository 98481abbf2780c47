/**
 The pointwise decision (incuscloud/server/src/acl/acl.ts) over a snapshot of
 entries, groups, owners and locations, and the law of an instance's two
 parents.
 */
module Acl {
  import opened Text
  import opened Catalog
  import opened Paths
  import opened Resolve

  datatype Snapshot = Snapshot(
    entries: seq<Entry>,
    byPath: map<string, seq<Entry>>,
    bySubject: map<string, seq<Entry>>,
    disabled: set<string>,
    tenantOf: map<string, string>,         // `<cluster>/<project>` to tenant slug
    projectsOf: map<string, seq<string>>,  // tenant slug to its project paths
    tenantSlugs: map<string, string>,      // tenant id to slug
    tenantOwners: set<string>,             // `<tenantId>:<userId>`
    owners: map<string, string>,           // owned object's path to owner subject
    projects: seq<string>,                 // every project path known
    groupsOf: map<string, seq<string>>,    // subject to its groups
    locatedIn: map<string, seq<string>>,   // instance path to the group paths of its member
    onGroup: map<string, seq<string>>)     // the same the other way round

  /** The string spells a slash-free path of one kind. */
  ghost predicate SpellsInstance(x: string) {
    exists q: AclPath :: q.Instance? && SlashFree(q) && x == Format(q)
  }

  ghost predicate SpellsProject(x: string) {
    exists q: AclPath :: q.Project? && SlashFree(q) && x == Format(q)
  }

  ghost predicate SpellsGroup(x: string) {
    exists q: AclPath :: q.Group? && SlashFree(q) && x == Format(q)
  }

  ghost predicate SpellsKubernetes(x: string) {
    exists q: AclPath :: q.Kubernetes? && SlashFree(q) && x == Format(q)
  }

  /** The two indexes hold the entries, and every entry is on a permissions path. */
  ghost predicate Indexed(s: Snapshot) {
    && (forall x, e :: e in Lookup(s.byPath, x) <==> e in s.entries && e.path == x)
    && (forall k, e :: e in Lookup(s.bySubject, k) <==> e in s.entries && e.subject == k)
    && (forall e :: e in s.entries ==> Parse(e.path).Some?)
  }

  /** An instance and a group it is on. */
  ghost predicate SpellsPlace(x: string, g: string) {
    SpellsInstance(x) && SpellsGroup(g)
  }

  /** Instances and groups point at each other. */
  ghost predicate Located(s: Snapshot) {
    && (forall x, g :: g in Lookup(s.locatedIn, x) <==> x in Lookup(s.onGroup, g))
    && (forall x, g :: g in Lookup(s.locatedIn, x) ==> SpellsPlace(x, g))
  }

  /** Every tenant's project is listed under its tenant, whose slug holds no slash. */
  ghost predicate Placed(s: Snapshot) {
    forall c, pr :: '/' !in c && '/' !in pr && TenantAt(s.tenantOf, c, pr).Some? ==>
      && '/' !in TenantAt(s.tenantOf, c, pr).value
      && Format(Project(c, pr)) in Lookup(s.projectsOf, TenantAt(s.tenantOf, c, pr).value)
  }

  /** What loading makes of the tables. */
  ghost predicate Coherent(s: Snapshot) {
    && Indexed(s)
    && Located(s)
    && Placed(s)
    && (forall x :: x in s.owners ==> SpellsInstance(x) || SpellsKubernetes(x))
    && (forall x :: x in s.projects ==> SpellsProject(x))
  }

  /** Every entry for one of these keys counts for the subject; its own key comes first. */
  function KeysOf(s: Snapshot, subject: string): (keys: seq<string>)
    ensures keys != [] && keys[0] == subject
  {
    [subject] + Lookup(s.groupsOf, subject)
  }

  /** A caller that knows the owner passes it; otherwise it is looked up by path. */
  function Owned(s: Snapshot, subject: string, path: string, owner: Option<string>): bool {
    match owner
    case Some(o) => o == subject
    case None => path in s.owners && s.owners[path] == subject
  }

  /** The group paths on an instance's other side. */
  function Sides(s: Snapshot, p: AclPath, path: string): seq<string> {
    if p.Instance? then Lookup(s.locatedIn, path) else []
  }

  /** The entries of `more` not yet in `es`, appended. */
  function AppendNew(es: seq<Entry>, more: seq<Entry>): (all: seq<Entry>)
    ensures forall e :: e in all <==> e in es || e in more
    decreases |more|
  {
    if more == [] then es
    else
      assert more == [more[0]] + more[1..];
      AppendNew(if more[0] in es then es else es + [more[0]], more[1..])
  }

  /** Several results combined, in order. */
  function Combine(results: seq<Decision>): (d: Decision)
    ensures forall p :: p in d.privileges <==> exists i :: 0 <= i < |results| && p in results[i].privileges
    ensures forall e :: e in d.decidedBy <==> exists i :: 0 <= i < |results| && e in results[i].decidedBy
  {
    if results == [] then NOTHING
    else
      var last := results[|results| - 1];
      var init := Combine(results[..|results| - 1]);
      Decision(init.privileges + last.privileges, AppendNew(init.decidedBy, last.decidedBy))
  }

  function SideResults(s: Snapshot, keys: seq<string>, path: string, sides: seq<string>,
      owned: bool): (rs: seq<Decision>)
    requires keys != []
    ensures |rs| == |sides|
    ensures forall i :: 0 <= i < |sides| ==> rs[i] == ResolveFrom(keys, s.byPath, [path, sides[i]], true, owned)
  {
    seq(|sides|, i requires 0 <= i < |sides| => ResolveFrom(keys, s.byPath, [path, sides[i]], true, owned))
  }

  function DecideParsed(s: Snapshot, subject: string, path: string, p: AclPath, owned: bool): Decision {
    DecidedBetween(s, KeysOf(s, subject), path, Chain(p, s.tenantOf), Sides(s, p, path), owned)
  }

  /** The decision by the chain and the group paths on the instance's other side. */
  function DecidedBetween(s: Snapshot, keys: seq<string>, path: string, full: seq<string>, sides: seq<string>,
      owned: bool): Decision
    requires keys != []
  {
    if sides == [] then ResolveFrom(keys, s.byPath, full, true, owned)
    else
      var own := ResolveFrom(keys, s.byPath, [path], true, owned);
      if own.decidedBy != [] then own
      else Combine([ResolveFrom(keys, s.byPath, full, true, owned)] + SideResults(s, keys, path, sides, owned))
  }

  function DecideAs(s: Snapshot, subject: string, path: string, owner: Option<string>): Decision {
    var parsed := Parse(path);
    if parsed.None? || subject in s.disabled then NOTHING
    else DecideParsed(s, subject, path, parsed.value, Owned(s, subject, path, owner))
  }

  function Decided(s: Snapshot, subject: string, path: string): Decision {
    DecideAs(s, subject, path, None)
  }

  /** The decision as the code computes it, one result after another. */
  method Decide(s: Snapshot, subject: string, path: string, owner: Option<string>) returns (d: Decision)
    ensures d == DecideAs(s, subject, path, owner)
  {
    var parsed := Parse(path);
    if parsed.None? || subject in s.disabled {
      return NOTHING;
    }
    var owned := Owned(s, subject, path, owner);
    var keys := KeysOf(s, subject);
    var full := Chain(parsed.value, s.tenantOf);
    var sides := Sides(s, parsed.value, path);
    if |sides| == 0 {
      d := Resolve.Resolve(keys, s.byPath, full, owned);
      return;
    }
    var own := Resolve.Resolve(keys, s.byPath, [path], owned);
    if |own.decidedBy| != 0 {
      return own;
    }
    d := DecideSides(s, keys, path, full, sides, owned);
  }

  method DecideSides(s: Snapshot, keys: seq<string>, path: string, full: seq<string>, sides: seq<string>, owned: bool)
      returns (d: Decision)
    requires keys != []
    ensures d == Combine([ResolveFrom(keys, s.byPath, full, true, owned)] + SideResults(s, keys, path, sides, owned))
  {
    hide Combine, ResolveFrom;
    var first := Resolve.Resolve(keys, s.byPath, full, owned);
    var results := [first];
    ghost var all := [first] + SideResults(s, keys, path, sides, owned);
    for i := 0 to |sides|
      invariant results == all[..i + 1]
    {
      var r := Resolve.Resolve(keys, s.byPath, [path, sides[i]], owned);
      assert all[i + 1] == r;
      results := results + [r];
    }
    assert results == all;
    d := CombineResults(results);
  }

  method CombineResults(results: seq<Decision>) returns (d: Decision)
    ensures d == Combine(results)
  {
    var privileges: set<Privilege>, decidedBy: seq<Entry> := {}, [];
    for i := 0 to |results|
      invariant Decision(privileges, decidedBy) == Combine(results[..i])
    {
      assert results[..i + 1][..i] == results[..i];
      privileges := privileges + results[i].privileges;
      decidedBy := AddMissing(decidedBy, results[i].decidedBy);
    }
    assert results[..|results|] == results;
    d := Decision(privileges, decidedBy);
  }

  method AddMissing(es: seq<Entry>, more: seq<Entry>) returns (all: seq<Entry>)
    ensures all == AppendNew(es, more)
  {
    all := es;
    for i := 0 to |more|
      invariant AppendNew(all, more[i..]) == AppendNew(es, more)
    {
      assert more[i..][0] == more[i] && more[i..][1..] == more[i + 1..];
      if more[i] !in all {
        all := all + [more[i]];
      }
    }
  }

  /** What an instance's project side gives it: its chain above the instance itself, propagating entries only. */
  function ProjectSide(s: Snapshot, subject: string, cluster: string, project: string, owned: bool): set<Privilege> {
    ResolveFrom(KeysOf(s, subject), s.byPath, Chain(Project(cluster, project), s.tenantOf), false, owned).privileges
  }

  /** What one of its cluster groups gives it: that group's own propagating entries. */
  function GroupSide(s: Snapshot, subject: string, group: string, owned: bool): set<Privilege> {
    Combined(Level(KeysOf(s, subject), s.byPath, group, false), owned)
  }

  /** Given by the project side or by one of the groups. */
  ghost predicate EitherSide(s: Snapshot, subject: string, c: string, pr: string, groups: seq<string>, owned: bool,
      p: Privilege) {
    || p in ProjectSide(s, subject, c, pr, owned)
    || exists g :: g in groups && p in GroupSide(s, subject, g, owned)
  }

  /** The entries on the instance itself. */
  function OwnEntries(s: Snapshot, subject: string, path: string): seq<Entry> {
    Level(KeysOf(s, subject), s.byPath, path, true)
  }

  /**
   The two-parent law. An instance with entries of its own is decided by them
   alone; otherwise it holds exactly what its project side gives and what each
   of its groups' own entries give.
   */
  lemma TwoParents(s: Snapshot, subject: string, c: string, pr: string, i: string, owner: Option<string>)
    requires WellFormed(Instance(c, pr, i)) && subject !in s.disabled
    ensures var path := Format(Instance(c, pr, i));
      var d := DecideAs(s, subject, path, owner);
      var owned := Owned(s, subject, path, owner);
      var own := OwnEntries(s, subject, path);
      if own != [] then d == Decision(Combined(own, owned), own)
      else forall p :: p in d.privileges <==> EitherSide(s, subject, c, pr, Lookup(s.locatedIn, path), owned, p)
  {
    var at := Instance(c, pr, i);
    var path := Format(at);
    ParseOfFormat(at);
    DecideInstance(s, subject, at, path, Owned(s, subject, path, owner));
  }

  lemma DecideInstance(s: Snapshot, subject: string, at: AclPath, path: string, owned: bool)
    requires at.Instance? && path == Format(at)
    ensures var d := DecideParsed(s, subject, path, at, owned);
      var own := OwnEntries(s, subject, path);
      if own != [] then d == Decision(Combined(own, owned), own)
      else forall p :: p in d.privileges <==>
        EitherSide(s, subject, at.cluster, at.project, Lookup(s.locatedIn, path), owned, p)
  {
    hide Chain, Format, Level, Combined, Combine, SideResults, EitherSide, ResolveFrom;
    var keys := KeysOf(s, subject);
    var own := OwnEntries(s, subject, path);
    var rest := Chain(Project(at.cluster, at.project), s.tenantOf);
    InstanceChain(s, at);
    ResolveCons(keys, s.byPath, path, rest, true, owned);
    ResolveOne(keys, s.byPath, path, true, owned);
    var sides := Lookup(s.locatedIn, path);
    if own == [] {
      NoOwnEntries(s, subject, at, path, owned);
      if sides != [] {
        SidesCombined(s, subject, at, path, owned);
      }
    }
  }

  lemma InstanceChain(s: Snapshot, at: AclPath)
    requires at.Instance?
    ensures Chain(at, s.tenantOf) == [Format(at)] + Chain(Project(at.cluster, at.project), s.tenantOf)
  {
  }

  /** Without own entries and groups the project side is all there is. */
  lemma NoOwnEntries(s: Snapshot, subject: string, at: AclPath, path: string, owned: bool)
    requires at.Instance? && path == Format(at) && OwnEntries(s, subject, path) == []
    ensures var whole := ResolveFrom(KeysOf(s, subject), s.byPath, Chain(at, s.tenantOf), true, owned);
      forall p :: EitherSide(s, subject, at.cluster, at.project, [], owned, p) <==> p in whole.privileges
  {
    hide Chain, Format, Level, Combined, ResolveFrom;
    InstanceChain(s, at);
    ResolveCons(KeysOf(s, subject), s.byPath, path, Chain(Project(at.cluster, at.project), s.tenantOf), true, owned);
  }

  /** With groups, what the results combine to is what the project or one of them gives. */
  lemma SidesCombined(s: Snapshot, subject: string, at: AclPath, path: string, owned: bool)
    requires at.Instance? && path == Format(at) && OwnEntries(s, subject, path) == []
    ensures var keys := KeysOf(s, subject);
      var sides := Lookup(s.locatedIn, path);
      var whole := ResolveFrom(keys, s.byPath, Chain(at, s.tenantOf), true, owned);
      forall p :: p in Combine([whole] + SideResults(s, keys, path, sides, owned)).privileges
             <==> EitherSide(s, subject, at.cluster, at.project, sides, owned, p)
  {
    hide Chain, Format, Level, Combined, Combine, ResolveFrom, OwnEntries, GroupSide, ProjectSide;
    var keys := KeysOf(s, subject);
    var sides := Lookup(s.locatedIn, path);
    var whole := ResolveFrom(keys, s.byPath, Chain(at, s.tenantOf), true, owned);
    var rs := SideResults(s, keys, path, sides, owned);
    NoOwnEntries(s, subject, at, path, owned);
    forall k | 0 <= k < |sides|
      ensures rs[k].privileges == GroupSide(s, subject, sides[k], owned)
    {
      OneSide(s, subject, path, sides[k], owned);
    }
    forall p
      ensures p in Combine([whole] + rs).privileges <==> EitherSide(s, subject, at.cluster, at.project, sides, owned, p)
    {
      CombinedPrivileges(whole, rs, p);
      assert EitherSide(s, subject, at.cluster, at.project, [], owned, p) <==> p in whole.privileges;
      assert forall k :: 0 <= k < |sides| ==> sides[k] in sides;
    }
  }

  lemma OneSide(s: Snapshot, subject: string, path: string, group: string, owned: bool)
    requires OwnEntries(s, subject, path) == []
    ensures ResolveFrom(KeysOf(s, subject), s.byPath, [path, group], true, owned).privileges
      == GroupSide(s, subject, group, owned)
  {
    hide Level, Combined;
    var keys := KeysOf(s, subject);
    ResolveCons(keys, s.byPath, path, [group], true, owned);
    ResolveOne(keys, s.byPath, group, false, owned);
    assert [path, group] == [path] + [group];
  }

  lemma CombinedPrivileges(first: Decision, rs: seq<Decision>, p: Privilege)
    ensures p in Combine([first] + rs).privileges
      <==> p in first.privileges || exists k :: 0 <= k < |rs| && p in rs[k].privileges
  {
    hide Combine, AppendNew;
    var all := [first] + rs;
    assert all[0] == first && forall k :: 0 <= k < |rs| ==> all[k + 1] == rs[k];
    assert forall k :: 1 <= k < |all| ==> all[k] == rs[k - 1];
  }

  /** Only entries of the keys on the chain or the groups decide, and one that propagates on the chain makes some do. */
  lemma WhoDecidesAt(s: Snapshot, subject: string, path: string, owner: Option<string>)
    requires Parse(path).Some? && subject !in s.disabled
    ensures var d, chain := DecideAs(s, subject, path, owner), Chain(Parse(path).value, s.tenantOf);
      && (forall e :: e in d.decidedBy ==>
            e.subject in KeysOf(s, subject)
              && exists x :: x in chain + Sides(s, Parse(path).value, path) && e in Lookup(s.byPath, x))
      && (d.decidedBy == [] ==>
            forall x, e :: x in chain && e in Lookup(s.byPath, x) && e.subject in KeysOf(s, subject) ==> !e.propagate)
  {
    hide Chain, Format, ResolveFrom, Combine, Parse;
    var at, owned, keys := Parse(path).value, Owned(s, subject, path, owner), KeysOf(s, subject);
    var full, sides := Chain(at, s.tenantOf), Sides(s, at, path);
    FormatOfParse(path);
    assert path == full[0];
    SomeoneDecides(s, keys, path, full, sides, owned);
  }

  lemma SomeoneDecides(s: Snapshot, keys: seq<string>, path: string, full: seq<string>, sides: seq<string>, owned: bool)
    requires keys != [] && path in full
    ensures var d := DecidedBetween(s, keys, path, full, sides, owned);
      && (forall e :: e in d.decidedBy ==>
            e.subject in keys && exists x :: x in full + sides && e in Lookup(s.byPath, x))
      && (d.decidedBy == [] ==>
            forall x, e :: x in full && e in Lookup(s.byPath, x) && e.subject in keys ==> !e.propagate)
  {
    hide ResolveFrom, Combine;
    WhoDecides(keys, s.byPath, full, true, owned);
    WhoDecides(keys, s.byPath, [path], true, owned);
    var own := ResolveFrom(keys, s.byPath, [path], true, owned);
    if sides != [] && own.decidedBy == [] {
      var results := [ResolveFrom(keys, s.byPath, full, true, owned)] + SideResults(s, keys, path, sides, owned);
      forall i | 0 <= i < |results|
        ensures forall e :: e in results[i].decidedBy ==>
          e.subject in keys && exists x :: x in full + sides && e in Lookup(s.byPath, x)
      {
        if i > 0 {
          WhoDecides(keys, s.byPath, [path, sides[i - 1]], true, owned);
        }
      }
      var d := Combine(results);
      assert forall e :: e in results[0].decidedBy ==> e in d.decidedBy;
      assert results[0].decidedBy != [] ==> results[0].decidedBy[0] in d.decidedBy;
    }
  }

  // ----- What ownership adds -----

  /** Several results that each combine their entries, none of them No access, hold what all their entries give. */
  lemma CombineUnfenced(results: seq<Decision>, owned: bool, p: Privilege)
    requires forall i :: 0 <= i < |results| ==> results[i].privileges == Combined(results[i].decidedBy, owned)
    requires forall e :: e in Combine(results).decidedBy ==> e.role != NoAccess
    ensures p in Combine(results).privileges
       <==> exists e :: e in Combine(results).decidedBy && p in Granted(e, owned)
  {
    hide Combine, Granted, Combined;
    forall i | 0 <= i < |results|
      ensures p in results[i].privileges <==> exists e :: e in results[i].decidedBy && p in Granted(e, owned)
    {
      assert forall e :: e in results[i].decidedBy ==> e in Combine(results).decidedBy;
    }
  }

  /** Without No access, whoever has entries deciding holds exactly what each of them gives. */
  lemma DecidedUnfenced(s: Snapshot, subject: string, path: string, owner: Option<string>, p: Privilege)
    requires forall e :: e in DecideAs(s, subject, path, owner).decidedBy ==> e.role != NoAccess
    ensures var d := DecideAs(s, subject, path, owner);
      p in d.privileges <==> exists e :: e in d.decidedBy && p in Granted(e, Owned(s, subject, path, owner))
  {
    hide ResolveFrom, Combine, Granted, Combined, Chain;
    if Parse(path).None? || subject in s.disabled {
      return;
    }
    var at, owned, keys := Parse(path).value, Owned(s, subject, path, owner), KeysOf(s, subject);
    var full, sides := Chain(at, s.tenantOf), Sides(s, at, path);
    ResolvedCombines(keys, s.byPath, full, true, owned);
    ResolvedCombines(keys, s.byPath, [path], true, owned);
    var own := ResolveFrom(keys, s.byPath, [path], true, owned);
    if sides != [] && own.decidedBy == [] {
      var results := [ResolveFrom(keys, s.byPath, full, true, owned)] + SideResults(s, keys, path, sides, owned);
      forall i | 0 <= i < |results|
        ensures results[i].privileges == Combined(results[i].decidedBy, owned)
      {
        if i > 0 {
          ResolvedCombines(keys, s.byPath, [path, sides[i - 1]], true, owned);
        }
      }
      CombineUnfenced(results, owned, p);
    }
  }

  /**
   Decided by User entries, a subject holds every instance, backup and Kubernetes privilege on what it
   owns, by the owner passed or else the one recorded for the path, and of these only creating
   instances and provisioning clusters on anything else.
   */
  lemma UsersHoldWhatTheyOwn(s: Snapshot, subject: string, path: string, owner: Option<string>, p: Privilege)
    requires DecideAs(s, subject, path, owner).decidedBy != []
    requires forall e :: e in DecideAs(s, subject, path, owner).decidedBy ==> e.role == User
    requires p in PRIVILEGES && p.on in {OnInstance, OnBackup, OnK8s}
    ensures p in DecideAs(s, subject, path, owner).privileges
      <==>
      || owner == Some(subject)
      || (owner == None && path in s.owners && s.owners[path] == subject)
      || p == Privilege(OnInstance, Create)
      || p == Privilege(OnK8s, Provision)
  {
    hide DecideAs, Privileges, OwnedOnly, PRIVILEGES;
    UserCompared(p);
    DecidedUnfenced(s, subject, path, owner, p);
    var d := DecideAs(s, subject, path, owner);
    assert d.decidedBy[0] in d.decidedBy;
  }

  /** Under the same entries an owner holds all that anyone else would, and more only where a User entry decides. */
  lemma OwnersHoldMore(s: Snapshot, subject: string, path: string, owner: Option<string>)
    ensures AddsForUsers(DecideAs(s, subject, path, owner), DecideAs(s, subject, path, Some(subject)))
  {
    if Parse(path).Some? && subject !in s.disabled {
      OwningAddsParsed(s, subject, path, Parse(path).value);
    }
  }

  lemma OwningAddsParsed(s: Snapshot, subject: string, path: string, at: AclPath)
    ensures AddsForUsers(DecideParsed(s, subject, path, at, false), DecideParsed(s, subject, path, at, true))
  {
    hide ResolveFrom, Combine, Chain;
    var keys, full, sides := KeysOf(s, subject), Chain(at, s.tenantOf), Sides(s, at, path);
    OwningAdds(keys, s.byPath, full, true);
    OwningAdds(keys, s.byPath, [path], true);
    forall k | 0 <= k < |sides|
      ensures AddsForUsers(ResolveFrom(keys, s.byPath, [path, sides[k]], true, false),
                           ResolveFrom(keys, s.byPath, [path, sides[k]], true, true))
    {
      OwningAdds(keys, s.byPath, [path, sides[k]], true);
    }
    CombineMore([ResolveFrom(keys, s.byPath, full, true, false)] + SideResults(s, keys, path, sides, false),
                [ResolveFrom(keys, s.byPath, full, true, true)] + SideResults(s, keys, path, sides, true));
  }

  lemma {:induction false} CombineMore(less: seq<Decision>, more: seq<Decision>)
    requires |less| == |more| && forall i :: 0 <= i < |less| ==> AddsForUsers(less[i], more[i])
    ensures AddsForUsers(Combine(less), Combine(more))
  {
    hide AddsForUsers, AppendNew;
    if less == [] {
      BothNothing();
    } else {
      var n := |less| - 1;
      CombineMore(less[..n], more[..n]);
      BothAdd(Combine(less[..n]), Combine(more[..n]), less[n], more[n]);
    }
  }

  lemma BothNothing()
    ensures AddsForUsers(NOTHING, NOTHING)
  {
  }

  lemma BothAdd(a: Decision, b: Decision, c: Decision, d: Decision)
    requires AddsForUsers(a, b) && AddsForUsers(c, d)
    ensures AddsForUsers(Decision(a.privileges + c.privileges, AppendNew(a.decidedBy, c.decidedBy)),
                         Decision(b.privileges + d.privileges, AppendNew(b.decidedBy, d.decidedBy)))
  {
  }

  /** Moving members (or the instance) between groups: own entries decide as before, and only the group part changes. */
  lemma MovingChangesOnlyTheGroupPart(s: Snapshot, subject: string, c: string, pr: string, i: string,
                                      locatedIn: map<string, seq<string>>)
    requires WellFormed(Instance(c, pr, i)) && subject !in s.disabled
    ensures var path := Format(Instance(c, pr, i));
      var before, after := Decided(s, subject, path), Decided(s.(locatedIn := locatedIn), subject, path);
      var owned := Owned(s, subject, path, None);
      if OwnEntries(s, subject, path) != [] then after == before
      else forall p ::
        && (p in before.privileges <==> EitherSide(s, subject, c, pr, Lookup(s.locatedIn, path), owned, p))
        && (p in after.privileges <==> EitherSide(s, subject, c, pr, Lookup(locatedIn, path), owned, p))
  {
    TwoParents(s, subject, c, pr, i, None);
    var t := s.(locatedIn := locatedIn);
    TwoParents(t, subject, c, pr, i, None);
    var path := Format(Instance(c, pr, i));
    var owned := Owned(s, subject, path, None);
    forall p
      ensures EitherSide(t, subject, c, pr, Lookup(locatedIn, path), owned, p)
        == EitherSide(s, subject, c, pr, Lookup(locatedIn, path), owned, p)
    {
      assert ProjectSide(t, subject, c, pr, owned) == ProjectSide(s, subject, c, pr, owned);
      assert forall g :: GroupSide(t, subject, g, owned) == GroupSide(s, subject, g, owned);
    }
  }

  /** The entries on `path` that count for these keys. */
  function Counting(s: Snapshot, keys: seq<string>, path: string): seq<Entry> {
    Matching(Lookup(s.byPath, path), keys, true)
  }

  lemma {:induction false} CountingDecidesLevel(es: seq<Entry>, keys: seq<string>)
    ensures Matching(es, keys, false) == Matching(Matching(es, keys, true), keys, false)
  {
    if es != [] {
      CountingDecidesLevel(es[1..], keys);
    }
  }

  lemma {:induction false} ResolveFrame(keys: seq<string>, a: map<string, seq<Entry>>, b: map<string, seq<Entry>>,
      chain: seq<string>, head: bool, owned: bool)
    requires keys != []
    requires forall x :: x in chain ==> Matching(Lookup(a, x), keys, true) == Matching(Lookup(b, x), keys, true)
    ensures ResolveFrom(keys, a, chain, head, owned) == ResolveFrom(keys, b, chain, head, owned)
  {
    if chain != [] {
      CountingDecidesLevel(Lookup(a, chain[0]), keys);
      CountingDecidesLevel(Lookup(b, chain[0]), keys);
      ResolveFrame(keys, a, b, chain[1..], false, owned);
    }
  }

  /** Entries of other subjects, and entries off the chain and off the instance's groups, change no decision. */
  lemma OnlyChainAndGroupsCount(s: Snapshot, byPath: map<string, seq<Entry>>, subject: string, path: string,
      owner: Option<string>)
    requires Parse(path).Some?
    requires forall x :: x in Chain(Parse(path).value, s.tenantOf) + Sides(s, Parse(path).value, path) ==>
      Counting(s, KeysOf(s, subject), x) == Counting(s.(byPath := byPath), KeysOf(s, subject), x)
    ensures DecideAs(s.(byPath := byPath), subject, path, owner) == DecideAs(s, subject, path, owner)
  {
    hide Chain, Format, ResolveFrom, Combine, Counting;
    var p := Parse(path).value;
    var keys := KeysOf(s, subject);
    var full, sides := Chain(p, s.tenantOf), Sides(s, p, path);
    var owned := Owned(s, subject, path, owner);
    FormatOfParse(path);
    assert path == full[0] && path in full;
    assert forall x :: x in full ==> x in full + sides;
    forall x | x in full + sides
      ensures Matching(Lookup(s.byPath, x), keys, true) == Matching(Lookup(byPath, x), keys, true)
    {
      CountingSame(s, byPath, keys, x);
    }
    ResolveFrame(keys, s.byPath, byPath, full, true, owned);
    ResolveFrame(keys, s.byPath, byPath, [path], true, owned);
    forall i | 0 <= i < |sides|
      ensures ResolveFrom(keys, s.byPath, [path, sides[i]], true, owned)
           == ResolveFrom(keys, byPath, [path, sides[i]], true, owned)
    {
      assert sides[i] in full + sides && path in full + sides;
      ResolveFrame(keys, s.byPath, byPath, [path, sides[i]], true, owned);
    }
    assert SideResults(s, keys, path, sides, owned) == SideResults(s.(byPath := byPath), keys, path, sides, owned);
  }

  lemma CountingSame(s: Snapshot, byPath: map<string, seq<Entry>>, keys: seq<string>, x: string)
    requires Counting(s, keys, x) == Counting(s.(byPath := byPath), keys, x)
    ensures Matching(Lookup(s.byPath, x), keys, true) == Matching(Lookup(byPath, x), keys, true)
  {
  }

  /** Adding an entry that is off those paths, or someone else's, leaves the decision alone. */
  lemma IrrelevantEntry(s: Snapshot, e: Entry, subject: string, path: string, owner: Option<string>)
    requires Parse(path).Some?
    requires e.subject !in KeysOf(s, subject)
          || e.path !in Chain(Parse(path).value, s.tenantOf) + Sides(s, Parse(path).value, path)
    ensures DecideAs(s.(byPath := s.byPath[e.path := Lookup(s.byPath, e.path) + [e]]), subject, path, owner)
         == DecideAs(s, subject, path, owner)
  {
    var keys := KeysOf(s, subject);
    if e.subject !in keys {
      AddedEntry(Lookup(s.byPath, e.path), e, keys);
    }
    OnlyChainAndGroupsCount(s, s.byPath[e.path := Lookup(s.byPath, e.path) + [e]], subject, path, owner);
  }

  lemma {:induction false} AddedEntry(es: seq<Entry>, e: Entry, keys: seq<string>)
    requires e.subject !in keys
    ensures Matching(es + [e], keys, true) == Matching(es, keys, true)
  {
    if es != [] {
      AddedEntry(es[1..], e, keys);
      assert (es + [e])[1..] == es[1..] + [e];
    }
  }
}
