/**
 Resolution over one chain of paths (incuscloud/server/src/acl/resolve.ts):
 the most specific level holding an entry of the subject's keys decides.
 */
module Resolve {
  import opened Catalog

  datatype Source = AclSource | PlatformRoleSource | TenantMembershipSource | ServiceAccountSource

  datatype Entry = Entry(id: string, path: string, subject: string, role: RoleId, propagate: bool, source: Source)

  datatype Decision = Decision(privileges: set<Privilege>, decidedBy: seq<Entry>)

  const NOTHING := Decision({}, [])

  function Lookup<V>(m: map<string, seq<V>>, k: string): seq<V> {
    if k in m then m[k] else []
  }

  /** The entries that count at a level: those of the keys, and above the head level only propagating ones. */
  function Matching(es: seq<Entry>, keys: seq<string>, head: bool): (here: seq<Entry>)
    ensures forall e :: e in here <==> e in es && e.subject in keys && (head || e.propagate)
  {
    if es == [] then []
    else
      var rest := Matching(es[1..], keys, head);
      assert es == [es[0]] + es[1..];
      if es[0].subject in keys && (head || es[0].propagate) then [es[0]] + rest else rest
  }

  function OfSubject(es: seq<Entry>, subject: string): (own: seq<Entry>)
    ensures forall e :: e in own <==> e in es && e.subject == subject
  {
    if es == [] then []
    else
      var rest := OfSubject(es[1..], subject);
      assert es == [es[0]] + es[1..];
      if es[0].subject == subject then [es[0]] + rest else rest
  }

  /** With entries of the first key, the subject's own, the other keys' do not count. */
  function Preferred(here: seq<Entry>, subject: string): seq<Entry> {
    var own := OfSubject(here, subject);
    if own != [] then own else here
  }

  /** The entries deciding at one level, if any. */
  function Level(keys: seq<string>, byPath: map<string, seq<Entry>>, path: string, head: bool): seq<Entry>
    requires keys != []
  {
    Preferred(Matching(Lookup(byPath, path), keys, head), keys[0])
  }

  predicate Fenced(here: seq<Entry>) {
    exists e :: e in here && e.role == NoAccess
  }

  /** What one entry gives. */
  function Granted(e: Entry, owned: bool): set<Privilege> {
    Privileges(e.role) + if owned then OwnedOnly(e.role) else {}
  }

  predicate Holds(here: seq<Entry>, owned: bool, p: Privilege) {
    !Fenced(here) && exists e :: e in here && p in Granted(e, owned)
  }

  function Union(here: seq<Entry>, owned: bool): (all: set<Privilege>)
    ensures forall p :: p in all <==> exists e :: e in here && p in Granted(e, owned)
  {
    set e, p | e in here && p in Granted(e, owned) :: p
  }

  lemma UnionOfOneMore(here: seq<Entry>, e: Entry, owned: bool)
    ensures Union(here + [e], owned) == Union(here, owned) + Granted(e, owned)
  {
    forall p
      ensures p in Union(here + [e], owned) <==> p in Union(here, owned) + Granted(e, owned)
    {
      if p in Granted(e, owned) {
        assert e in here + [e];
      }
      if p in Union(here, owned) {
        var x :| x in here && p in Granted(x, owned);
        assert x in here + [e];
      }
    }
  }

  /** The privileges the entries deciding a level combine to: nothing when one of them is No access. */
  function Combined(here: seq<Entry>, owned: bool): (all: set<Privilege>)
    ensures forall p :: p in all <==> Holds(here, owned, p)
  {
    if Fenced(here) then {} else Union(here, owned)
  }

  /** The first level of the chain with entries decides; only the head level takes entries that do not propagate. */
  function ResolveFrom(keys: seq<string>, byPath: map<string, seq<Entry>>, chain: seq<string>, head: bool,
      owned: bool): Decision
    requires keys != []
  {
    if chain == [] then NOTHING
    else
      var here := Level(keys, byPath, chain[0], head);
      if here != [] then Decision(Combined(here, owned), here)
      else ResolveFrom(keys, byPath, chain[1..], false, owned)
  }

  /** The roles of the deciding level, combined entry by entry. */
  method CombineLevel(here: seq<Entry>, owned: bool) returns (privileges: set<Privilege>)
    ensures privileges == Combined(here, owned)
  {
    privileges := {};
    if !Fenced(here) {
      for j := 0 to |here|
        invariant privileges == Union(here[..j], owned)
      {
        assert here[..j + 1] == here[..j] + [here[j]];
        UnionOfOneMore(here[..j], here[j], owned);
        privileges := privileges + Privileges(here[j].role);
        if owned {
          privileges := privileges + OwnedOnly(here[j].role);
        }
      }
      assert here[..|here|] == here;
    }
  }

  /** The walk as the code runs it. */
  method Resolve(subjects: seq<string>, entriesByPath: map<string, seq<Entry>>, chain: seq<string>, owned: bool)
      returns (d: Decision)
    requires subjects != []
    ensures d == ResolveFrom(subjects, entriesByPath, chain, true, owned)
  {
    for i := 0 to |chain|
      invariant ResolveFrom(subjects, entriesByPath, chain, true, owned)
             == ResolveFrom(subjects, entriesByPath, chain[i..], i == 0, owned)
    {
      var here := Matching(Lookup(entriesByPath, chain[i]), subjects, i == 0);
      assert chain[i..][0] == chain[i] && chain[i..][1..] == chain[i + 1..];
      if here == [] {
        continue;
      }
      var own := OfSubject(here, subjects[0]);
      if own != [] {
        here := own;
      }
      var privileges := CombineLevel(here, owned);
      return Decision(privileges, here);
    }
    assert chain[|chain|..] == [];
    d := NOTHING;
  }

  /**
   What decides is one level's entries: the entries are the subject's or its groups', and the
   privileges are theirs combined.
   */
  lemma {:induction false} DecidedAtFirstLevel(keys: seq<string>, byPath: map<string, seq<Entry>>, chain: seq<string>,
      head: bool, owned: bool)
    requires keys != []
    ensures var d := ResolveFrom(keys, byPath, chain, head, owned);
      if d.decidedBy == [] then
        && d == NOTHING
        && forall i :: 0 <= i < |chain| ==> Level(keys, byPath, chain[i], head && i == 0) == []
      else
        exists i :: 0 <= i < |chain|
          && d.decidedBy == Level(keys, byPath, chain[i], head && i == 0)
          && d.privileges == Combined(d.decidedBy, owned)
          && forall j :: 0 <= j < i ==> Level(keys, byPath, chain[j], head && j == 0) == []
  {
    if chain != [] {
      var here := Level(keys, byPath, chain[0], head);
      if here == [] {
        DecidedAtFirstLevel(keys, byPath, chain[1..], false, owned);
        var d := ResolveFrom(keys, byPath, chain, head, owned);
        if d.decidedBy != [] {
          var i :| 0 <= i < |chain[1..]|
            && d.decidedBy == Level(keys, byPath, chain[1..][i], false)
            && forall j :: 0 <= j < i ==> Level(keys, byPath, chain[1..][j], false) == [];
          assert chain[i + 1] == chain[1..][i];
          forall j | 0 <= j < i + 1
            ensures Level(keys, byPath, chain[j], head && j == 0) == []
          {
            assert j > 0 ==> chain[j] == chain[1..][j - 1];
          }
        } else {
          forall i | 0 <= i < |chain|
            ensures Level(keys, byPath, chain[i], head && i == 0) == []
          {
            assert i > 0 ==> chain[i] == chain[1..][i - 1];
          }
        }
      }
    }
  }

  /** What was decided is what the deciding entries combine to. */
  lemma {:induction false} ResolvedCombines(keys: seq<string>, byPath: map<string, seq<Entry>>, chain: seq<string>,
      head: bool, owned: bool)
    requires keys != []
    ensures var d := ResolveFrom(keys, byPath, chain, head, owned); d.privileges == Combined(d.decidedBy, owned)
  {
    if chain == [] {
      assert Combined([], owned) == {};
    } else {
      ResolvedCombines(keys, byPath, chain[1..], false, owned);
    }
  }

  /** Only entries of the keys decide, and one that propagates from a path of the chain makes some decide. */
  lemma {:induction false} WhoDecides(keys: seq<string>, byPath: map<string, seq<Entry>>, chain: seq<string>,
      head: bool, owned: bool)
    requires keys != []
    ensures var d := ResolveFrom(keys, byPath, chain, head, owned);
      && (forall e :: e in d.decidedBy ==> e.subject in keys && exists x :: x in chain && e in Lookup(byPath, x))
      && (d.decidedBy == [] ==>
            forall x, e :: x in chain && e in Lookup(byPath, x) && e.subject in keys ==> !e.propagate)
  {
    if chain != [] {
      var here := Level(keys, byPath, chain[0], head);
      assert chain == [chain[0]] + chain[1..];
      WhoDecides(keys, byPath, chain[1..], false, owned);
      if here == [] {
        LevelEmpty(keys, byPath, chain[0], head);
      }
    }
  }

  /** The same entries decide both; the second holds at least the first, and no more unless one is a User entry. */
  predicate AddsForUsers(less: Decision, more: Decision) {
    && less.decidedBy == more.decidedBy && less.privileges <= more.privileges
    && ((forall e :: e in more.decidedBy ==> e.role != User) ==> less == more)
  }

  /** Owning the object changes no deciding entry and takes no privilege; what it adds comes from User entries. */
  lemma {:induction false} OwningAdds(keys: seq<string>, byPath: map<string, seq<Entry>>, chain: seq<string>,
      head: bool)
    requires keys != []
    ensures AddsForUsers(ResolveFrom(keys, byPath, chain, head, false), ResolveFrom(keys, byPath, chain, head, true))
  {
    if chain != [] {
      CombinedOwned(Level(keys, byPath, chain[0], head));
      OwningAdds(keys, byPath, chain[1..], false);
    }
  }

  lemma CombinedOwned(here: seq<Entry>)
    ensures Combined(here, false) <= Combined(here, true)
    ensures (forall e :: e in here ==> e.role != User) ==> Combined(here, false) == Combined(here, true)
  {
    forall e: Entry
      ensures e.role != User ==> OwnedOnly(e.role) == {}
    {
      forall p
        ensures e.role != User ==> p !in OwnedOnly(e.role)
      {
        UserCompared(p);
      }
    }
  }

  /** A level without entries at its head leaves the decision to the rest of the chain. */
  lemma LevelEmpty(keys: seq<string>, byPath: map<string, seq<Entry>>, path: string, head: bool)
    requires keys != []
    ensures Level(keys, byPath, path, head) == []
      <==> forall e :: e in Lookup(byPath, path) && e.subject in keys ==> !head && !e.propagate
    ensures Level(keys, byPath, path, true) == [] ==> Level(keys, byPath, path, false) == []
  {
    var m := Matching(Lookup(byPath, path), keys, head);
    assert m != [] ==> m[0] in m;
    var n := Matching(Lookup(byPath, path), keys, false);
    assert n != [] ==> n[0] in n && n[0] in Matching(Lookup(byPath, path), keys, true);
  }

  lemma ResolveCons(keys: seq<string>, byPath: map<string, seq<Entry>>, x: string, rest: seq<string>, head: bool,
      owned: bool)
    requires keys != []
    ensures var here := Level(keys, byPath, x, head);
      ResolveFrom(keys, byPath, [x] + rest, head, owned)
      == if here != [] then Decision(Combined(here, owned), here) else ResolveFrom(keys, byPath, rest, false, owned)
  {
    assert ([x] + rest)[1..] == rest;
  }

  lemma ResolveOne(keys: seq<string>, byPath: map<string, seq<Entry>>, x: string, head: bool, owned: bool)
    requires keys != []
    ensures var here := Level(keys, byPath, x, head);
      ResolveFrom(keys, byPath, [x], head, owned) == Decision(Combined(here, owned), here)
  {
    ResolveCons(keys, byPath, x, [], head, owned);
    assert [x] == [x] + [];
    assert Combined([], owned) == {};
  }

  /** Whether a level gives anything does not depend on ownership: every role but No access gives something. */
  lemma CombinedGivesUnlessFenced(here: seq<Entry>, owned: bool)
    ensures Combined(here, owned) != {} <==> here != [] && !Fenced(here)
  {
    if here != [] && !Fenced(here) {
      var e := here[0];
      EveryRoleButNoAccessGives(e.role);
      var p :| Gives(e.role, p);
      assert e in here && p in Granted(e, owned);
      assert p in Combined(here, owned);
    }
  }

  lemma {:induction false} GivesWhetherOwnedOrNot(keys: seq<string>, byPath: map<string, seq<Entry>>,
      chain: seq<string>, head: bool, owned: bool)
    requires keys != []
    ensures ResolveFrom(keys, byPath, chain, head, owned).privileges != {}
      <==> ResolveFrom(keys, byPath, chain, head, false).privileges != {}
  {
    if chain != [] {
      var here := Level(keys, byPath, chain[0], head);
      CombinedGivesUnlessFenced(here, owned);
      CombinedGivesUnlessFenced(here, false);
      GivesWhetherOwnedOrNot(keys, byPath, chain[1..], false, owned);
    }
  }

  /**
   Without non-propagating No access, a level that gives something to what is below gives something
   at its own path.
   */
  lemma HeadGivesWhatBelowGets(keys: seq<string>, byPath: map<string, seq<Entry>>, path: string)
    requires keys != []
    requires forall e :: e in Lookup(byPath, path) && e.subject in keys && !e.propagate ==> e.role != NoAccess
    ensures Level(keys, byPath, path, true) != [] && Fenced(Level(keys, byPath, path, true))
        ==> Level(keys, byPath, path, false) != [] && Fenced(Level(keys, byPath, path, false))
  {
    var high, low := Matching(Lookup(byPath, path), keys, true), Matching(Lookup(byPath, path), keys, false);
    var here := Preferred(high, keys[0]);
    if here != [] && Fenced(here) {
      var e :| e in here && e.role == NoAccess;
      assert e in high && e in low;
      var ownHigh, ownLow := OfSubject(high, keys[0]), OfSubject(low, keys[0]);
      if ownLow != [] {
        assert ownLow[0] in ownLow && ownLow[0] in ownHigh;
        assert e in ownLow;
      }
      assert e in Preferred(low, keys[0]);
    }
  }
}
