/**
 Disks every system sees (firecloud/cmd/firecloud/ask_shared.go, sharedDisks)
 and their removal from what the systems offer (firecloud/cmd/firecloud/ask.go,
 askDisks). The source counts listings per path instead of comparing systems;
 the lemmas say when the count answers the question.
 */
module SharedDisks {
  import opened Text

  datatype Disk = Disk(id: string, deviceId: string, devicePath: string, kind: string)

  type Disks = map<string, Disk>

  /** What each system offers, by system and disk. */
  type States = map<string, Disks>

  const BY_ID := "/dev/disk/by-id/"

  function FormatDiskPath(disk: Disk): string {
    if disk.deviceId != "" then BY_ID + disk.deviceId
    else if disk.devicePath != "" then "/dev/disk/by-path/" + disk.devicePath
    else "/dev/" + disk.id
  }

  /** The path tells a device by its id, else by where it is plugged in, else by its name, as the kernel links them. */
  lemma DiskPaths(disk: Disk)
    ensures disk.deviceId != "" ==> FormatDiskPath(disk) == "/dev/disk/by-id/" + disk.deviceId
    ensures disk.deviceId == "" && disk.devicePath != "" ==>
      FormatDiskPath(disk) == "/dev/disk/by-path/" + disk.devicePath
    ensures disk.deviceId == "" && disk.devicePath == "" ==> FormatDiskPath(disk) == "/dev/" + disk.id
    ensures Eligible(disk) <==> disk.deviceId != "" && disk.kind !in {"partition", "loop"}
  {
    assert BY_ID == "/dev/disk/by-id/";
  }

  /** A whole disk with a device id. */
  predicate Eligible(disk: Disk) {
    disk.deviceId != "" && disk.kind != "partition" && disk.kind != "loop"
  }

  predicate Lists(states: States, n: string, d: string, path: string) {
    n in states && d in states[n] && Eligible(states[n][d]) && FormatDiskPath(states[n][d]) == path
  }

  ghost function Pairs(states: States): set<(string, string)> {
    set n, d | n in states && d in states[n] :: (n, d)
  }

  ghost function Among(states: States, pairs: set<(string, string)>, path: string): set<(string, string)> {
    set p | p in pairs && Lists(states, p.0, p.1, path)
  }

  /** Every place a path is listed. */
  ghost function Listings(states: States, path: string): set<(string, string)> {
    Among(states, Pairs(states), path)
  }

  // ----- Counting -----

  /** The counts are right for the listings looked at so far. */
  ghost predicate Counted(states: States, done: set<(string, string)>, seen: map<string, nat>,
      byPath: map<string, Disk>) {
    && byPath.Keys == seen.Keys
    && (forall path :: |Among(states, done, path)| == if path in seen then seen[path] else 0)
    && (forall path :: path in seen ==> seen[path] > 0 && exists p :: p in done && IsAt(states, p, path, byPath[path]))
  }

  ghost predicate IsAt(states: States, p: (string, string), path: string, disk: Disk) {
    Lists(states, p.0, p.1, path) && states[p.0][p.1] == disk
  }

  lemma OneMore(states: States, done: set<(string, string)>, p: (string, string), path: string)
    requires p !in done
    ensures |Among(states, done + {p}, path)| == |Among(states, done, path)| + if Lists(states, p.0, p.1, path) then 1
      else 0
  {
    var before, after := Among(states, done, path), Among(states, done + {p}, path);
    assert after == if Lists(states, p.0, p.1, path) then before + {p} else before;
  }

  method CountDisk(states: States, ghost done: set<(string, string)>, n: string, d: string,
                   seen: map<string, nat>, byPath: map<string, Disk>)
    returns (seen': map<string, nat>, byPath': map<string, Disk>)
    requires n in states && d in states[n] && (n, d) !in done && Counted(states, done, seen, byPath)
    ensures Counted(states, done + {(n, d)}, seen', byPath')
  {
    hide Counted, FormatDiskPath;
    var disk := states[n][d];
    var path := FormatDiskPath(disk);
    seen', byPath' := seen, byPath;
    if Eligible(disk) {
      seen' := seen[path := (if path in seen then seen[path] else 0) + 1];
      byPath' := byPath[path := disk];
      CountedMore(states, done, (n, d), path, seen, byPath);
    } else {
      CountedSame(states, done, (n, d), seen, byPath);
    }
  }

  lemma CountedMore(states: States, done: set<(string, string)>, p: (string, string), path: string,
      seen: map<string, nat>, byPath: map<string, Disk>)
    requires p !in done && Counted(states, done, seen, byPath) && Lists(states, p.0, p.1, path)
    ensures Counted(states, done + {p}, seen[path := (if path in seen then seen[path] else 0) + 1],
                    byPath[path := states[p.0][p.1]])
  {
    hide Among, FormatDiskPath, Eligible;
    forall other
      ensures |Among(states, done + {p}, other)| == |Among(states, done, other)| + if other == path then 1 else 0
    {
      OneMore(states, done, p, other);
    }
    assert IsAt(states, p, path, states[p.0][p.1]);
    forall other | other in seen && other != path
      ensures exists q :: q in done + {p} && IsAt(states, q, other, byPath[other])
    {
      var q :| q in done && IsAt(states, q, other, byPath[other]);
      assert q in done + {p};
    }
  }

  lemma CountedSame(states: States, done: set<(string, string)>, p: (string, string), seen: map<string, nat>,
      byPath: map<string, Disk>)
    requires p !in done && Counted(states, done, seen, byPath)
    requires forall path :: !Lists(states, p.0, p.1, path)
    ensures Counted(states, done + {p}, seen, byPath)
  {
    hide Among, FormatDiskPath, Eligible;
    forall other
      ensures |Among(states, done + {p}, other)| == |Among(states, done, other)|
    {
      OneMore(states, done, p, other);
    }
    forall other | other in seen
      ensures exists q :: q in done + {p} && IsAt(states, q, other, byPath[other])
    {
      var q :| q in done && IsAt(states, q, other, byPath[other]);
      assert q in done + {p};
    }
  }

  method CountSystem(states: States, ghost done: set<(string, string)>, n: string,
                     seen: map<string, nat>, byPath: map<string, Disk>)
    returns (seen': map<string, nat>, byPath': map<string, Disk>)
    requires n in states && (forall d :: (n, d) !in done) && Counted(states, done, seen, byPath)
    ensures Counted(states, done + (set d | d in states[n] :: (n, d)), seen', byPath')
  {
    hide Counted;
    seen', byPath' := seen, byPath;
    var rest := states[n].Keys;
    ghost var added: set<(string, string)> := {};
    assert done + added == done;
    while rest != {}
      invariant rest <= states[n].Keys
      invariant forall p :: p in added <==> p.0 == n && p.1 in states[n] && p.1 !in rest
      invariant Counted(states, done + added, seen', byPath')
      decreases |rest|
    {
      var d :| d in rest;
      seen', byPath' := CountDisk(states, done + added, n, d, seen', byPath');
      assert done + added + {(n, d)} == done + (added + {(n, d)});
      added := added + {(n, d)};
      rest := rest - {d};
    }
    assert added == (set d | d in states[n] :: (n, d));
  }

  method CountAll(states: States) returns (seen: map<string, nat>, byPath: map<string, Disk>)
    ensures Counted(states, Pairs(states), seen, byPath)
  {
    seen, byPath := map[], map[];
    var rest := states.Keys;
    ghost var done: set<(string, string)> := {};
    assert forall path :: Among(states, done, path) == {};
    while rest != {}
      invariant rest <= states.Keys
      invariant forall p :: p in done <==> p in Pairs(states) && p.0 !in rest
      invariant Counted(states, done, seen, byPath)
      decreases |rest|
    {
      var n :| n in rest;
      seen, byPath := CountSystem(states, done, n, seen, byPath);
      done := done + (set d | d in states[n] :: (n, d));
      rest := rest - {n};
    }
    assert done == Pairs(states);
  }

  // ----- The shared disks -----

  /** A path is reported when it is listed as many times as there are systems. */
  ghost predicate Reported(states: States, path: string) {
    |Listings(states, path)| == |states| && |states| > 0
  }

  /** One disk for each reported path, by ascending path. */
  ghost predicate IsShared(states: States, out: seq<Disk>) {
    && (forall i, j :: 0 <= i < j < |out| ==> Leq(PathAt(out, i), PathAt(out, j)) && PathAt(out, i) != PathAt(out, j))
    && (forall i :: 0 <= i < |out| ==> Reported(states, PathAt(out, i)) && Offered(states, out[i]))
    && (forall path :: Reported(states, path) ==> HasPath(out, path))
  }

  function PathAt(disks: seq<Disk>, i: nat): string
    requires i < |disks|
  {
    FormatDiskPath(disks[i])
  }

  predicate HasPath(disks: seq<Disk>, path: string) {
    exists i :: 0 <= i < |disks| && PathAt(disks, i) == path
  }

  ghost predicate Offered(states: States, disk: Disk) {
    exists n, d :: n in states && d in states[n] && states[n][d] == disk && Eligible(disk)
  }

  method SharedDisks(states: States) returns (out: seq<Disk>)
    ensures IsShared(states, out)
  {
    var seen, byPath := CountAll(states);
    var paths := WithCount(seen, |states|);
    out := InOrder(states, seen, byPath, paths);
  }

  /** The paths counted `n` times, once each. */
  method WithCount(seen: map<string, nat>, n: nat) returns (paths: seq<string>)
    ensures Distinct(paths)
    ensures forall path :: path in paths <==> path in seen && seen[path] == n
  {
    paths := [];
    var rest := seen.Keys;
    while rest != {}
      invariant rest <= seen.Keys
      invariant forall path :: path in paths <==> path in seen && seen[path] == n && path !in rest
      invariant Distinct(paths)
      decreases |rest|
    {
      var path :| path in rest;
      if seen[path] == n {
        paths := paths + [path];
      }
      rest := rest - {path};
    }
  }

  /** The disks of the counted paths, sorted by path. */
  method InOrder(states: States, seen: map<string, nat>, byPath: map<string, Disk>, paths: seq<string>)
    returns (out: seq<Disk>)
    requires Counted(states, Pairs(states), seen, byPath)
    requires Distinct(paths)
    requires forall path :: path in paths <==> path in seen && seen[path] == |states|
    ensures IsShared(states, out)
  {
    hide Counted, IsShared, Sorted;
    var sorted := Sorted(paths);
    SortedAscending(paths);
    DistinctReordered(paths, sorted);
    SameMembers(sorted, paths);
    out := [];
    for k := 0 to |sorted|
      invariant |out| == k
      invariant forall i :: 0 <= i < k ==> PathAt(out, i) == sorted[i] && Offered(states, out[i])
    {
      var path := sorted[k];
      assert path in paths;
      CountedIsOffered(states, seen, byPath, path);
      out := out + [byPath[path]];
    }
    forall path
      ensures Reported(states, path) <==> path in sorted
    {
      CountedReports(states, seen, byPath, path);
    }
    SharedByPaths(states, sorted, out);
  }

  lemma CountedIsOffered(states: States, seen: map<string, nat>, byPath: map<string, Disk>, path: string)
    requires Counted(states, Pairs(states), seen, byPath) && path in seen
    ensures path in byPath && FormatDiskPath(byPath[path]) == path && Offered(states, byPath[path])
  {
    var p :| p in Pairs(states) && IsAt(states, p, path, byPath[path]);
    assert states[p.0][p.1] == byPath[path];
  }

  lemma SharedByPaths(states: States, sorted: seq<string>, out: seq<Disk>)
    requires |out| == |sorted| && Ascending(sorted)
    requires Distinct(sorted)
    requires forall i :: 0 <= i < |out| ==> PathAt(out, i) == sorted[i] && Offered(states, out[i])
    requires forall path :: Reported(states, path) <==> path in sorted
    ensures IsShared(states, out)
  {
    hide Reported, Offered, FormatDiskPath;
    forall i | 0 <= i < |out|
      ensures Reported(states, PathAt(out, i))
    {
      assert sorted[i] in sorted;
    }
    forall path | Reported(states, path)
      ensures HasPath(out, path)
    {
      var i :| 0 <= i < |sorted| && sorted[i] == path;
      assert PathAt(out, i) == path;
    }
  }

  lemma CountedReports(states: States, seen: map<string, nat>, byPath: map<string, Disk>, path: string)
    requires Counted(states, Pairs(states), seen, byPath)
    ensures Reported(states, path) <==> path in seen && seen[path] == |states|
  {
    assert |Listings(states, path)| == if path in seen then seen[path] else 0;
  }

  // ----- What the count means -----

  /** A system sees a device as a whole disk. */
  ghost predicate Sees(disks: Disks, deviceId: string) {
    exists d :: IsDevice(disks, d, deviceId)
  }

  predicate IsDevice(disks: Disks, d: string, deviceId: string) {
    d in disks && Eligible(disks[d]) && disks[d].deviceId == deviceId
  }

  /** No system lists one device twice. */
  ghost predicate OncePerSystem(states: States, deviceId: string) {
    forall n, d, e :: n in states && IsDevice(states[n], d, deviceId) && IsDevice(states[n], e, deviceId) ==> d == e
  }

  lemma SamePathSameDevice(a: Disk, deviceId: string)
    requires Eligible(a)
    ensures FormatDiskPath(a) == BY_ID + deviceId <==> a.deviceId == deviceId
  {
    var path := FormatDiskPath(a);
    assert path[|BY_ID|..] == a.deviceId;
    assert (BY_ID + deviceId)[|BY_ID|..] == deviceId;
  }

  ghost function Seers(states: States, deviceId: string): set<string> {
    set n | n in states && Sees(states[n], deviceId)
  }

  lemma ListsIfSees(states: States, n: string, deviceId: string)
    ensures n in Seers(states, deviceId) <==> exists d :: Lists(states, n, d, BY_ID + deviceId)
  {
    if n in Seers(states, deviceId) {
      var d :| IsDevice(states[n], d, deviceId);
      SamePathSameDevice(states[n][d], deviceId);
      assert Lists(states, n, d, BY_ID + deviceId);
    }
    if d :| Lists(states, n, d, BY_ID + deviceId) {
      SamePathSameDevice(states[n][d], deviceId);
      assert n in states && IsDevice(states[n], d, deviceId);
    }
  }

  // ----- Counting by system -----

  ghost function Firsts(pairs: set<(string, string)>): set<string> {
    set p | p in pairs :: p.0
  }

  lemma {:induction false} FirstsAtMost(pairs: set<(string, string)>)
    ensures |Firsts(pairs)| <= |pairs|
  {
    if pairs != {} {
      var p :| p in pairs;
      var fewer := pairs - {p};
      FirstsAtMost(fewer);
      assert Firsts(pairs) == Firsts(fewer) + {p.0};
    }
  }

  /** Two pairs with one first part: fewer first parts than pairs. */
  lemma FirstsFewer(pairs: set<(string, string)>, p: (string, string), q: (string, string))
    requires p in pairs && q in pairs && p != q && p.0 == q.0
    ensures |Firsts(pairs)| < |pairs|
  {
    var fewer := pairs - {p};
    FirstsAtMost(fewer);
    assert q in fewer;
    assert Firsts(pairs) == Firsts(fewer);
  }

  /** Projecting on the first part loses nothing when it determines the second. */
  lemma {:induction false} FirstsAsMany(pairs: set<(string, string)>)
    requires forall p, q :: p in pairs && q in pairs && p.0 == q.0 ==> p == q
    ensures |Firsts(pairs)| == |pairs|
  {
    if pairs != {} {
      var p :| p in pairs;
      var fewer := pairs - {p};
      FirstsAsMany(fewer);
      assert p.0 !in Firsts(fewer);
      assert Firsts(pairs) == Firsts(fewer) + {p.0};
    }
  }

  lemma SubsetCount<T>(a: set<T>, b: set<T>)
    requires a <= b
    ensures |a| <= |b| && (|a| == |b| <==> a == b)
  {
    assert b == a + (b - a);
  }

  /** The systems that list a device are those that see it. */
  lemma FirstsAreSeers(states: States, deviceId: string)
    ensures Firsts(Listings(states, BY_ID + deviceId)) == Seers(states, deviceId)
  {
    var path := BY_ID + deviceId;
    var pairs := Listings(states, path);
    forall n
      ensures n in Seers(states, deviceId) <==> n in Firsts(pairs)
    {
      ListsIfSees(states, n, deviceId);
      if d :| Lists(states, n, d, path) {
        assert (n, d) in Pairs(states) && (n, d) in pairs && (n, d).0 == n;
      }
      if n in Firsts(pairs) {
        var p :| p in pairs && p.0 == n;
        assert Lists(states, n, p.1, path);
      }
    }
  }

  lemma ListedBy(states: States, n: string, d: string, deviceId: string)
    requires n in states && IsDevice(states[n], d, deviceId)
    ensures (n, d) in Listings(states, BY_ID + deviceId)
  {
    SamePathSameDevice(states[n][d], deviceId);
    assert (n, d) in Pairs(states);
  }

  /** The listings of a device beyond one for each system that sees it. */
  ghost function Surplus(states: States, deviceId: string): int {
    |Listings(states, BY_ID + deviceId)| - |Seers(states, deviceId)|
  }

  /** How many systems do not see a device. */
  ghost function Missing(states: States, deviceId: string): int {
    |states| - |Seers(states, deviceId)|
  }

  ghost predicate AllSee(states: States, deviceId: string) {
    forall n :: n in states ==> Sees(states[n], deviceId)
  }

  lemma NoSurplusIffOnce(states: States, deviceId: string)
    ensures Surplus(states, deviceId) >= 0
    ensures Surplus(states, deviceId) == 0 <==> OncePerSystem(states, deviceId)
  {
    var pairs := Listings(states, BY_ID + deviceId);
    FirstsAreSeers(states, deviceId);
    FirstsAtMost(pairs);
    if OncePerSystem(states, deviceId) {
      forall p, q | p in pairs && q in pairs && p.0 == q.0
        ensures p == q
      {
        SamePathSameDevice(states[p.0][p.1], deviceId);
        SamePathSameDevice(states[q.0][q.1], deviceId);
        assert IsDevice(states[p.0], p.1, deviceId) && IsDevice(states[q.0], q.1, deviceId);
      }
      FirstsAsMany(pairs);
    } else {
      var n, d, e :| n in states && IsDevice(states[n], d, deviceId) && IsDevice(states[n], e, deviceId) && d != e;
      ListedBy(states, n, d, deviceId);
      ListedBy(states, n, e, deviceId);
      FirstsFewer(pairs, (n, d), (n, e));
    }
  }

  lemma NoneMissingIffAllSee(states: States, deviceId: string)
    ensures Missing(states, deviceId) >= 0
    ensures Missing(states, deviceId) == 0 <==> AllSee(states, deviceId)
  {
    var seers := Seers(states, deviceId);
    SubsetCount(seers, states.Keys);
    assert |states.Keys| == |states|;
    assert seers == states.Keys <==> forall n :: n in states ==> Sees(states[n], deviceId);
  }

  /** Without a device listed twice, it is reported exactly when every system sees it. */
  lemma ReportedIffEverySystemSees(states: States, deviceId: string)
    requires OncePerSystem(states, deviceId) && |states| > 0
    ensures Reported(states, BY_ID + deviceId) <==> forall n :: n in states ==> Sees(states[n], deviceId)
  {
    NoSurplusIffOnce(states, deviceId);
    NoneMissingIffAllSee(states, deviceId);
  }

  /** A device every system sees is reported exactly when no system lists it twice. */
  lemma SeenByAllReportedIffOnce(states: States, deviceId: string)
    requires |states| > 0 && forall n :: n in states ==> Sees(states[n], deviceId)
    ensures Reported(states, BY_ID + deviceId) <==> OncePerSystem(states, deviceId)
  {
    NoSurplusIffOnce(states, deviceId);
    NoneMissingIffAllSee(states, deviceId);
  }

  /**
   The count answers "does every system see it" for a device exactly when it has no surplus listing, or
   some systems miss it and there are not just as many surplus listings as such systems.
   */
  lemma CountAnswersIff(states: States, deviceId: string)
    requires |states| > 0
    ensures (Reported(states, BY_ID + deviceId) <==> AllSee(states, deviceId))
       <==> Surplus(states, deviceId) == 0
            || (Missing(states, deviceId) > 0 && Surplus(states, deviceId) != Missing(states, deviceId))
    ensures Surplus(states, deviceId) == 0 <==> OncePerSystem(states, deviceId)
    ensures Missing(states, deviceId) == 0 <==> AllSee(states, deviceId)
  {
    hide OncePerSystem, Listings, Sees;
    NoSurplusIffOnce(states, deviceId);
    NoneMissingIffAllSee(states, deviceId);
  }

  /** With no device listed twice, the result is one disk for each device every system sees, and nothing else. */
  lemma SharedDisksAreThoseAllSee(states: States, out: seq<Disk>, deviceId: string)
    requires IsShared(states, out) && |states| > 0 && OncePerSystem(states, deviceId)
    ensures (exists i :: 0 <= i < |out| && out[i].deviceId == deviceId && Eligible(out[i]))
      <==> (forall n :: n in states ==> Sees(states[n], deviceId))
  {
    ReportedIffEverySystemSees(states, deviceId);
    var path := BY_ID + deviceId;
    if Reported(states, path) {
      assert HasPath(out, path);
      var i :| 0 <= i < |out| && PathAt(out, i) == path;
      assert Offered(states, out[i]);
      SamePathSameDevice(out[i], deviceId);
    }
    if i :| 0 <= i < |out| && out[i].deviceId == deviceId && Eligible(out[i]) {
      SamePathSameDevice(out[i], deviceId);
      assert Reported(states, PathAt(out, i));
    }
  }

  // ----- Setting them aside -----

  /** What is left of a system's disks without those paths. */
  ghost predicate LeftOf(before: Disks, luns: seq<Disk>, after: Disks) {
    && (forall d :: d in after <==> d in before && !HasPath(luns, FormatDiskPath(before[d])))
    && (forall d :: d in after ==> after[d] == before[d])
  }

  method DropPaths(before: Disks, luns: seq<Disk>) returns (after: Disks)
    ensures LeftOf(before, luns, after)
  {
    after := before;
    var rest := before.Keys;
    while rest != {}
      invariant rest <= before.Keys && after.Keys <= before.Keys
      invariant forall d :: d in before ==> (d in after <==> d in rest || !HasPath(luns, FormatDiskPath(before[d])))
      invariant forall d :: d in after ==> after[d] == before[d]
      decreases |rest|
    {
      var d :| d in rest;
      var path := FormatDiskPath(before[d]);
      ghost var kept := after;
      for k := 0 to |luns|
        invariant after == if HasPath(luns[..k], path) then kept - {d} else kept
      {
        StepHasPath(luns, k, path);
        if path == FormatDiskPath(luns[k]) {
          after := after - {d};
        }
      }
      assert luns[..|luns|] == luns;
      rest := rest - {d};
    }
  }

  lemma StepHasPath(luns: seq<Disk>, k: nat, path: string)
    requires k < |luns|
    ensures HasPath(luns[..k + 1], path) <==> HasPath(luns[..k], path) || path == FormatDiskPath(luns[k])
  {
    if HasPath(luns[..k], path) {
      var i :| 0 <= i < k && PathAt(luns[..k], i) == path;
      assert PathAt(luns[..k + 1], i) == path;
    }
    if path == FormatDiskPath(luns[k]) {
      assert PathAt(luns[..k + 1], k) == path;
    }
    if HasPath(luns[..k + 1], path) {
      var i :| 0 <= i < k + 1 && PathAt(luns[..k + 1], i) == path;
      assert i < k ==> PathAt(luns[..k], i) == path;
    }
  }

  ghost predicate SetAside(before: States, luns: seq<Disk>, after: States) {
    after.Keys == before.Keys && forall n :: n in before ==> LeftOf(before[n], luns, after[n])
  }

  /** The part of the wizard's state the disk questions start from. */
  class InitConfig {
    var state: States
    var sharedLUNs: seq<Disk>

    /** The head of askDisks: with several systems, shared disks are kept for clustered LVM. */
    method KeepSharedDisks()
      modifies this
      ensures old(|state|) <= 1 ==> state == old(state) && sharedLUNs == old(sharedLUNs)
      ensures old(|state|) > 1 ==> IsShared(old(state), sharedLUNs) && SetAside(old(state), sharedLUNs, state)
    {
      if |state| > 1 {
        sharedLUNs := SharedDisks(state);
        var rest := state.Keys;
        ghost var before := state;
        while rest != {}
          invariant rest <= before.Keys && state.Keys == before.Keys
          invariant IsShared(before, sharedLUNs)
          invariant forall n :: n in before ==> if n in rest then state[n] == before[n]
            else LeftOf(before[n], sharedLUNs, state[n])
          decreases |rest|
        {
          var name :| name in rest;
          var left := DropPaths(state[name], sharedLUNs);
          state := state[name := left];
          rest := rest - {name};
        }
      }
    }
  }

  /** Afterwards no system offers a shared disk under any of its names, and every other disk is still there. */
  lemma NoneLeft(before: States, luns: seq<Disk>, after: States, n: string, d: string)
    requires IsShared(before, luns) && SetAside(before, luns, after) && n in before && d in before[n]
    ensures d in after[n] <==> !Reported(before, FormatDiskPath(before[n][d]))
    ensures d in after[n] ==> after[n][d] == before[n][d]
  {
    var path := FormatDiskPath(before[n][d]);
    assert LeftOf(before[n], luns, after[n]);
    if HasPath(luns, path) {
      var i :| 0 <= i < |luns| && PathAt(luns, i) == path;
    }
  }

  lemma ReportedStays(before: States, luns: seq<Disk>, after: States, path: string)
    requires IsShared(before, luns) && SetAside(before, luns, after)
    ensures Reported(after, path) ==> Reported(before, path)
  {
    hide IsShared, SetAside, FormatDiskPath, Eligible;
    forall q | q in Listings(after, path)
      ensures q in Listings(before, path)
    {
      KeptIsOffered(before, luns, after, q, path);
    }
    if !Reported(before, path) {
      forall q | q in Listings(before, path)
        ensures q in Listings(after, path)
      {
        UnreportedIsKept(before, luns, after, q, path);
      }
      assert Listings(after, path) == Listings(before, path);
    }
    assert |after.Keys| == |after| && |before.Keys| == |before|;
    SameSystems(before, luns, after);
  }

  lemma SameSystems(before: States, luns: seq<Disk>, after: States)
    requires SetAside(before, luns, after)
    ensures after.Keys == before.Keys
  {
  }

  lemma KeptIsOffered(before: States, luns: seq<Disk>, after: States, q: (string, string), path: string)
    requires SetAside(before, luns, after) && q in Listings(after, path)
    ensures q in Listings(before, path)
  {
    assert LeftOf(before[q.0], luns, after[q.0]);
    assert q in Pairs(before);
  }

  lemma UnreportedIsKept(before: States, luns: seq<Disk>, after: States, q: (string, string), path: string)
    requires IsShared(before, luns) && SetAside(before, luns, after)
    requires q in Listings(before, path) && !Reported(before, path)
    ensures q in Listings(after, path)
  {
    NoneLeft(before, luns, after, q.0, q.1);
    assert q in Pairs(after);
  }

  lemma NoneReported(before: States, luns: seq<Disk>, after: States, path: string)
    requires IsShared(before, luns) && SetAside(before, luns, after)
    ensures !Reported(after, path)
  {
    ReportedStays(before, luns, after, path);
    if Reported(before, path) {
      forall q | q in Listings(after, path)
        ensures false
      {
        KeptIsOffered(before, luns, after, q, path);
        NoneLeft(before, luns, after, q.0, q.1);
      }
      assert Listings(after, path) == {};
    }
  }

  /** So a second pass finds nothing, however often a system listed a disk. */
  lemma SecondPassFindsNone(before: States, luns: seq<Disk>, after: States, again: seq<Disk>)
    requires IsShared(before, luns) && SetAside(before, luns, after) && IsShared(after, again)
    ensures again == []
  {
    if again != [] {
      NoneReported(before, luns, after, PathAt(again, 0));
    }
  }

  /** A system that lists a device twice makes it look shared while another system does not see it. */
  lemma ListedTwiceMisleads(a: string, b: string, id: string)
    requires a != b && id != ""
    ensures var disk := Disk("sdb", id, "", "disk");
      var states: States := map[a := map["sdb" := disk, "sdc" := disk], b := map[]];
      Reported(states, BY_ID + id) && !Sees(states[b], id)
  {
    var disk := Disk("sdb", id, "", "disk");
    var states: States := map[a := map["sdb" := disk, "sdc" := disk], b := map[]];
    var path := BY_ID + id;
    forall p
      ensures p in Listings(states, path) <==> p == (a, "sdb") || p == (a, "sdc")
    {
    }
    assert Listings(states, path) == {(a, "sdb"), (a, "sdc")};
    assert states.Keys == {a, b};
  }
}
