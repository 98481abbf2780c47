/**
 Applying clusters' lifecycle events to the owners and entries
 (incuscloud/server/src/acl/lifecycle.ts, onLifecycle; entries.ts). The tables
 are keyed by name; the refinement below says they behave as if keyed by the
 instance itself.
 */
module Lifecycle {
  import opened Text
  import opened Paths
  import opened Owners

  datatype AclRow = AclRow(path: string, subject: string, role: string, propagate: bool)

  datatype Tables = Tables(owners: OwnerTable, entries: map<string, AclRow>)

  /** The entries that follow the object at `path` when it moves or goes. */
  predicate EntriesUnder(path: string, x: string) {
    x == path || StartsWith(x, path + "/")
  }

  /** What lay at or under `from` lies at the same place under `to`. */
  function Moved(entries: map<string, AclRow>, from: string, to: string): map<string, AclRow> {
    map id | id in entries ::
      if EntriesUnder(from, entries[id].path) then entries[id].(path := to + entries[id].path[|from|..])
      else entries[id]
  }

  function Dropped(entries: map<string, AclRow>, path: string): map<string, AclRow> {
    map id | id in entries && !EntriesUnder(path, entries[id].path) :: entries[id]
  }

  /** An event, its requestor already resolved to a subject; anything else is `Ignored`. */
  datatype Event =
    | InstanceCreated(project: string, name: string, subject: Option<string>)
    | InstanceRenamed(project: string, name: string, oldName: Option<string>)
    | InstanceDeleted(project: string, name: string)
    | Ignored

  /**
   The tables after an event, and what the handler answers: whether owners changed, or none when a
   statement failed.
   */
  datatype Outcome = Outcome(tables: Tables, changed: Option<bool>)

  type ClusterNames = map<string, string>

  function PathAt(names: ClusterNames, k: InstanceKey): string
    requires k.clusterId in names
  {
    Format(Instance(names[k.clusterId], k.project, k.name))
  }

  /** None without a row for the cluster. */
  function InstancePath(names: ClusterNames, k: InstanceKey): Option<string> {
    if k.clusterId in names then Some(PathAt(names, k)) else None
  }

  /** Events that name no instance are passed over. */
  predicate Nameless(e: Event) {
    e.Ignored? || e.project == "" || e.name == ""
  }

  function Handled(t: Tables, names: ClusterNames, clusterId: string, e: Event): Outcome {
    if Nameless(e) then Outcome(t, Some(false)) else Applied(t, names, clusterId, e)
  }

  function Applied(t: Tables, names: ClusterNames, clusterId: string, e: Event): Outcome
    requires !e.Ignored?
  {
    match e
    case InstanceCreated(project, name, subject) =>
      if subject.None? then Outcome(t, Some(false))
      else Outcome(t.(owners := Recorded(t.owners, InstanceKey(clusterId, project, name), subject.value, FromEvent)),
        Some(true))
    case InstanceRenamed(project, name, oldName) =>
      if oldName.None? || oldName.value == "" then Outcome(t, Some(false))
      else
        var from, to := InstanceKey(clusterId, project, oldName.value), InstanceKey(clusterId, project, name);
        var renamed := Renamed(t.owners, from, to);
        if renamed.None? then Outcome(t, None)
        else
          var at, destination := InstancePath(names, from), InstancePath(names, to);
          Outcome(Tables(renamed.value, if at.Some? then Moved(t.entries, at.value, destination.value) else t.entries),
            Some(true))
    case InstanceDeleted(project, name) =>
      var k := InstanceKey(clusterId, project, name);
      var at := InstancePath(names, k);
      Outcome(Tables(Forgotten(t.owners, k), if at.Some? then Dropped(t.entries, at.value) else t.entries), Some(true))
  }

  /** Under a path is the path itself and whatever continues it after a slash. */
  lemma EntriesUnderContinue(path: string, x: string)
    ensures EntriesUnder(path, x) <==> x == path || exists rest :: x == path + "/" + rest
  {
    if StartsWith(x, path + "/") {
      assert x == path + "/" + x[|path| + 1..];
    }
    if rest :| x == path + "/" + rest {
      assert x[..|path| + 1] == path + "/";
    }
  }

  predicate Taken(t: OwnerTable, from: InstanceKey, to: InstanceKey) {
    from != to && from in t && to in t
  }

  /**
   The answer says whether anything was done: false or no answer leaves the tables as they are, and an
   answer fails to come exactly when an owned instance is renamed to the name of another owned one.
   */
  lemma AnswersWhatItDid(t: Tables, names: ClusterNames, clusterId: string, e: Event)
    ensures var o := Handled(t, names, clusterId, e);
      && (o.changed != Some(true) ==> o.tables == t)
      && (o.changed == None
          <==> e.InstanceRenamed? && e.project != "" && e.name != "" && e.oldName.Some? && e.oldName.value != ""
               && Taken(t.owners, InstanceKey(clusterId, e.project, e.oldName.value),
                        InstanceKey(clusterId, e.project, e.name)))
      && (o.changed == Some(false)
          <==>
          || Nameless(e)
          || (e.InstanceCreated? && e.subject == None)
          || (e.InstanceRenamed? && (e.oldName.None? || e.oldName.value == "")))
  {
    hide Moved, Dropped, Recorded, InstancePath;
  }

  /** The database as the handler updates it, statement by statement. */
  class Db {
    const names: ClusterNames
    var owners: OwnerTable
    var entries: map<string, AclRow>

    ghost function Now(): Tables
      reads this
    {
      Tables(owners, entries)
    }

    constructor (names: ClusterNames)
      ensures this.names == names && Now() == Tables(map[], map[])
    {
      this.names := names;
      owners, entries := map[], map[];
    }

    method RecordOwner(k: InstanceKey, subject: string, source: OwnerSource)
      modifies this`owners
      ensures owners == Recorded(old(owners), k, subject, source)
    {
      var row := Columns(subject, source);
      if k !in owners {
        owners := owners[k := row];
      } else if source != FromBackfill && Rank(owners[k].source) <= Rank(source) {
        owners := owners[k := row];
      }
    }

    method RenameOwned(from: InstanceKey, to: InstanceKey) returns (ok: bool)
      modifies this`owners
      ensures ok == Renamed(old(owners), from, to).Some?
      ensures owners == if ok then Renamed(old(owners), from, to).value else old(owners)
    {
      if from !in owners || from == to {
        return true;
      }
      if to in owners {
        return false;
      }
      var row := owners[from];
      owners := (owners - {from})[to := row];
      ok := true;
    }

    method MoveEntries(from: string, to: string)
      modifies this`entries
      ensures entries == Moved(old(entries), from, to)
    {
      entries := Moved(entries, from, to);
    }

    method DropEntries(path: string)
      modifies this`entries
      ensures entries == Dropped(old(entries), path)
    {
      entries := map id | id in entries && !EntriesUnder(path, entries[id].path) :: entries[id];
    }

    /** One event applied; `none` stands for the exception of a refused statement. */
    method OnLifecycle(clusterId: string, e: Event) returns (changed: Option<bool>)
      modifies this
      ensures Outcome(Now(), changed) == Handled(old(Now()), names, clusterId, e)
    {
      if Nameless(e) {
        return Some(false);
      }
      match e
      case InstanceCreated(project, name, subject) =>
        if subject.None? {
          return Some(false);
        }
        RecordOwner(InstanceKey(clusterId, project, name), subject.value, FromEvent);
        changed := Some(true);
      case InstanceRenamed(project, name, oldName) =>
        if oldName.None? || oldName.value == "" {
          return Some(false);
        }
        var from, to := InstanceKey(clusterId, project, oldName.value), InstanceKey(clusterId, project, name);
        var ok := RenameOwned(from, to);
        if !ok {
          return None;
        }
        var at, destination := InstancePath(names, from), InstancePath(names, to);
        if at.Some? {
          MoveEntries(at.value, destination.value);
        }
        changed := Some(true);
      case InstanceDeleted(project, name) =>
        var k := InstanceKey(clusterId, project, name);
        owners := owners - {k};
        var at := InstancePath(names, k);
        if at.Some? {
          DropEntries(at.value);
        }
        changed := Some(true);
    }
  }

  // ----- The same world, keyed by the instances themselves -----

  datatype Target = OnInstance(id: nat) | Elsewhere(path: string)

  datatype IdealRow = IdealRow(target: Target, subject: string, role: string, propagate: bool)

  /** The live instances and their names, and what belongs to each. */
  datatype World = World(keyOf: map<nat, InstanceKey>, next: nat, owners: map<nat, OwnerRow>,
      entries: map<string, IdealRow>)

  const NOTHING_YET := World(map[], 0, map[], map[])

  /** What happens on the clusters and in IncusCloud, in order. */
  datatype Act =
    | Create(key: InstanceKey, requestor: Option<string>)
    | Rename(id: nat, name: string)
    | Delete(id: nat)
    | RecordFor(id: nat, subject: string, source: OwnerSource)
    | Grant(entryId: string, target: Target, subject: string, role: string, propagate: bool)
    | Revoke(entryId: string)

  ghost predicate NamedIn(names: ClusterNames, k: InstanceKey) {
    k.clusterId in names && '/' !in k.project && '/' !in k.name && k.project != "" && k.name != ""
  }

  ghost predicate Free(w: World, k: InstanceKey) {
    forall i :: i in w.keyOf ==> w.keyOf[i] != k
  }

  /** An entry's path outside instances: it parses, and not to an instance. */
  ghost predicate NotAnInstance(path: string) {
    Parse(path).Some? && !Parse(path).value.Instance?
  }

  /** Incus gives no name twice at a time; entries go on objects that exist, under fresh ids. */
  ghost predicate Legal(w: World, names: ClusterNames, a: Act) {
    match a
    case Create(k, _) => NamedIn(names, k) && Free(w, k)
    case Rename(i, name) => i in w.keyOf && '/' !in name && name != "" && Free(w, w.keyOf[i].(name := name))
    case Delete(i) => i in w.keyOf
    case RecordFor(i, _, _) => i in w.keyOf
    case Grant(id, target, _, _, _) =>
      id !in w.entries && (match target case OnInstance(i) => i in w.keyOf case Elsewhere(path) => NotAnInstance(path))
    case Revoke(_) => true
  }

  function IdealRowAt(w: World, i: nat): Option<OwnerRow> {
    if i in w.owners then Some(w.owners[i]) else None
  }

  /** Keyed by identity a rename changes a name and nothing else, and a delete takes exactly what was the instance's. */
  function IdealStep(w: World, a: Act): World {
    match a
    case Create(k, subject) =>
      World(w.keyOf[w.next := k], w.next + 1,
            if subject.Some? then w.owners[w.next := Columns(subject.value, FromEvent)] else w.owners, w.entries)
    case Rename(i, name) => if i in w.keyOf then w.(keyOf := w.keyOf[i := w.keyOf[i].(name := name)]) else w
    case Delete(i) =>
      World(w.keyOf - {i}, w.next, w.owners - {i},
            map id | id in w.entries && w.entries[id].target != OnInstance(i) :: w.entries[id])
    case RecordFor(i, subject, source) => w.(owners := w.owners[i := Claimed(IdealRowAt(w, i), subject, source)])
    case Grant(id, target, subject, role, propagate) => w.(entries := w.entries[id := IdealRow(target, subject, role,
      propagate)])
    case Revoke(id) => w.(entries := w.entries - {id})
  }

  ghost function PathOf(w: World, names: ClusterNames, target: Target): string
    requires target.OnInstance? ==> target.id in w.keyOf && w.keyOf[target.id].clusterId in names
  {
    match target
    case OnInstance(i) => PathAt(names, w.keyOf[i])
    case Elsewhere(path) => path
  }

  /** The tables after the same act: events go through the handler, jobs and the API write directly. */
  ghost function TableStep(t: Tables, w: World, names: ClusterNames, a: Act): Outcome
    requires WorldOk(w, names) && Legal(w, names, a)
  {
    match a
    case Create(k, subject) => Handled(t, names, k.clusterId, InstanceCreated(k.project, k.name, subject))
    case Rename(i, name) =>
      var k := w.keyOf[i];
      Handled(t, names, k.clusterId, InstanceRenamed(k.project, name, Some(k.name)))
    case Delete(i) =>
      var k := w.keyOf[i];
      Handled(t, names, k.clusterId, InstanceDeleted(k.project, k.name))
    case RecordFor(i, subject, source) => Outcome(t.(owners := Recorded(t.owners, w.keyOf[i], subject, source)),
      Some(true))
    case Grant(id, target, subject, role, propagate) =>
      Outcome(t.(entries := t.entries[id := AclRow(PathOf(w, names, target), subject, role, propagate)]), Some(false))
    case Revoke(id) => Outcome(t.(entries := t.entries - {id}), Some(false))
  }

  ghost predicate NamesOk(names: ClusterNames) {
    && (forall c :: c in names ==> '/' !in names[c])
    && (forall c, d :: c in names && d in names && names[c] == names[d] ==> c == d)
  }

  /** Ids are handed out in order, no two live instances share a name, and only live instances are owned. */
  ghost predicate Distinct(w: World) {
    && (forall i :: i in w.keyOf ==> i < w.next)
    && (forall i, j :: i in w.keyOf && j in w.keyOf && w.keyOf[i] == w.keyOf[j] ==> i == j)
    && w.owners.Keys <= w.keyOf.Keys
  }

  ghost predicate WorldOk(w: World, names: ClusterNames) {
    && NamesOk(names)
    && Distinct(w)
    && (forall i :: i in w.keyOf ==> NamedIn(names, w.keyOf[i]))
    && (forall id :: id in w.entries ==>
          match w.entries[id].target case OnInstance(i) => i in w.keyOf case Elsewhere(path) => NotAnInstance(path))
  }

  ghost predicate OwnersAgree(owners: OwnerTable, w: World) {
    && (forall i :: i in w.owners ==> i in w.keyOf && w.keyOf[i] in owners && owners[w.keyOf[i]] == w.owners[i])
    && (forall k :: k in owners ==> OwnedKey(w, k))
  }

  /** Some owned instance has this name. */
  ghost predicate OwnedKey(w: World, k: InstanceKey) {
    exists i :: i in w.owners && i in w.keyOf && w.keyOf[i] == k
  }

  ghost function RowOf(w: World, names: ClusterNames, r: IdealRow): AclRow
    requires r.target.OnInstance? ==> r.target.id in w.keyOf && w.keyOf[r.target.id].clusterId in names
  {
    AclRow(PathOf(w, names, r.target), r.subject, r.role, r.propagate)
  }

  ghost predicate EntriesAgree(entries: map<string, AclRow>, w: World, names: ClusterNames)
    requires WorldOk(w, names)
  {
    && entries.Keys == w.entries.Keys
    && forall id :: id in w.entries ==> entries[id] == RowOf(w, names, w.entries[id])
  }

  /** The name-keyed tables say exactly what the identity-keyed world says. */
  ghost predicate Refines(t: Tables, w: World, names: ClusterNames)
    requires WorldOk(w, names)
  {
    OwnersAgree(t.owners, w) && EntriesAgree(t.entries, w, names)
  }

  /**
   An instance's path covers the entries on that instance and no other path: not `web2`'s for `web`,
   not a project's.
   */
  lemma InstancePathCoversItself(names: ClusterNames, k: InstanceKey, l: InstanceKey)
    requires NamesOk(names) && NamedIn(names, k) && NamedIn(names, l)
    ensures EntriesUnder(PathAt(names, k), PathAt(names, l)) <==> k == l
  {
    var p, q := Instance(names[k.clusterId], k.project, k.name), Instance(names[l.clusterId], l.project, l.name);
    BelowIsStrict(p, q);
    if Format(p) == Format(q) {
      FormatInjective(p, q);
    }
  }

  lemma OtherPathsAreNotUnder(names: ClusterNames, k: InstanceKey, path: string)
    requires NamesOk(names) && NamedIn(names, k) && NotAnInstance(path)
    ensures !EntriesUnder(PathAt(names, k), path)
  {
    var p, q := Instance(names[k.clusterId], k.project, k.name), Parse(path).value;
    FormatOfParse(path);
    BelowIsStrict(p, q);
    if Format(p) == Format(q) {
      FormatInjective(p, q);
    }
  }

  /** Of the world's entries, those under an instance's path are the instance's. */
  lemma UnderIsOfInstance(w: World, names: ClusterNames, i: nat, id: string)
    requires WorldOk(w, names) && i in w.keyOf && id in w.entries
    ensures EntriesUnder(PathAt(names, w.keyOf[i]), PathOf(w, names, w.entries[id].target))
      <==> w.entries[id].target == OnInstance(i)
  {
    match w.entries[id].target
    case OnInstance(j) => InstancePathCoversItself(names, w.keyOf[i], w.keyOf[j]);
    case Elsewhere(path) => OtherPathsAreNotUnder(names, w.keyOf[i], path);
  }

  lemma IdealStepOk(w: World, names: ClusterNames, a: Act)
    requires WorldOk(w, names) && Legal(w, names, a)
    ensures WorldOk(IdealStep(w, a), names)
  {
  }

  lemma FreeIsUnowned(o: OwnerTable, w: World, k: InstanceKey)
    requires OwnersAgree(o, w) && Free(w, k)
    ensures k !in o
  {
    assert !OwnedKey(w, k);
  }

  lemma UnownedHasNoRow(o: OwnerTable, w: World, i: nat)
    requires Distinct(w) && OwnersAgree(o, w) && i in w.keyOf && i !in w.owners
    ensures w.keyOf[i] !in o
  {
    assert !OwnedKey(w, w.keyOf[i]);
  }

  lemma RekeyOwners(o: OwnerTable, w: World, i: nat, to: InstanceKey)
    requires Distinct(w) && OwnersAgree(o, w) && i in w.keyOf && Free(w, to)
    ensures Renamed(o, w.keyOf[i], to).Some?
    ensures OwnersAgree(Renamed(o, w.keyOf[i], to).value, w.(keyOf := w.keyOf[i := to]))
  {
    FreeIsUnowned(o, w, to);
    if i !in w.owners {
      UnownedHasNoRow(o, w, i);
      assert Renamed(o, w.keyOf[i], to) == Some(o);
    } else {
      assert w.keyOf[i] in o && w.keyOf[i] != to;
    }
    RekeyRows(o, w, i, to, Renamed(o, w.keyOf[i], to).value, w.(keyOf := w.keyOf[i := to]));
  }

  lemma RekeyRows(o: OwnerTable, w: World, i: nat, to: InstanceKey, after: OwnerTable, v: World)
    requires Distinct(w) && OwnersAgree(o, w) && i in w.keyOf && to !in o
    requires Renamed(o, w.keyOf[i], to) == Some(after) && v == w.(keyOf := w.keyOf[i := to])
    requires forall k :: k in after ==> (k in o && k != w.keyOf[i]) || (k == to && i in w.owners)
    ensures OwnersAgree(after, v)
  {
    hide OwnedKey, Renamed;
    forall j | j in v.owners
      ensures j in v.keyOf && v.keyOf[j] in after && after[v.keyOf[j]] == v.owners[j]
    {
      RekeyedRow(o, w, i, to, j);
    }
    forall k | k in after
      ensures OwnedKey(v, k)
    {
      RekeyedOwner(o, w, i, to, k);
    }
  }

  lemma RekeyedRow(o: OwnerTable, w: World, i: nat, to: InstanceKey, j: nat)
    requires Distinct(w) && OwnersAgree(o, w) && i in w.keyOf && j in w.owners && to !in o
    ensures j in w.keyOf
    ensures var k := if j == i then to else w.keyOf[j];
      var after := Renamed(o, w.keyOf[i], to);
      after.Some? && k in after.value && after.value[k] == w.owners[j]
  {
    assert w.keyOf[j] in o && o[w.keyOf[j]] == w.owners[j];
    assert j != i ==> w.keyOf[j] != w.keyOf[i];
  }

  lemma RekeyedOwner(o: OwnerTable, w: World, i: nat, to: InstanceKey, k: InstanceKey)
    requires Distinct(w) && OwnersAgree(o, w) && i in w.keyOf
    requires (k in o && k != w.keyOf[i]) || (k == to && i in w.owners)
    ensures OwnedKey(w.(keyOf := w.keyOf[i := to]), k)
  {
    var v := w.(keyOf := w.keyOf[i := to]);
    if k in o && k != w.keyOf[i] {
      assert OwnedKey(w, k);
      var j :| j in w.owners && j in w.keyOf && w.keyOf[j] == k;
      assert v.keyOf[j] == k;
    } else {
      assert v.keyOf[i] == k;
    }
  }

  lemma RenameEntries(e: map<string, AclRow>, w: World, names: ClusterNames, i: nat, name: string)
    requires WorldOk(w, names) && Legal(w, names, Rename(i, name)) && EntriesAgree(e, w, names)
    ensures WorldOk(IdealStep(w, Rename(i, name)), names)
    ensures EntriesAgree(Moved(e, PathAt(names, w.keyOf[i]), PathAt(names, w.keyOf[i].(name := name))),
      IdealStep(w, Rename(i, name)), names)
  {
    var v := IdealStep(w, Rename(i, name));
    IdealStepOk(w, names, Rename(i, name));
    var from, to := PathAt(names, w.keyOf[i]), PathAt(names, w.keyOf[i].(name := name));
    var after := Moved(e, from, to);
    forall id | id in w.entries
      ensures after[id] == RowOf(v, names, v.entries[id])
    {
      UnderIsOfInstance(w, names, i, id);
      if w.entries[id].target == OnInstance(i) {
        assert e[id].path == from && from[|from|..] == "" && to + "" == to;
      }
    }
  }

  lemma DeleteOwners(o: OwnerTable, w: World, i: nat)
    requires Distinct(w) && OwnersAgree(o, w) && i in w.keyOf
    ensures OwnersAgree(Forgotten(o, w.keyOf[i]), IdealStep(w, Delete(i)))
  {
    hide OwnedKey;
    var v := IdealStep(w, Delete(i));
    forall k | k in Forgotten(o, w.keyOf[i])
      ensures OwnedKey(v, k)
    {
      DeleteKeepsOwned(w, i, k);
    }
    forall j | j in v.owners
      ensures j in v.keyOf && v.keyOf[j] in o && v.keyOf[j] != w.keyOf[i] && o[v.keyOf[j]] == v.owners[j]
    {
      assert j in w.owners && j != i;
    }
  }

  lemma DeleteKeepsOwned(w: World, i: nat, k: InstanceKey)
    requires OwnedKey(w, k) && i in w.keyOf && k != w.keyOf[i]
    ensures OwnedKey(IdealStep(w, Delete(i)), k)
  {
    var v := IdealStep(w, Delete(i));
    var j :| j in w.owners && j in w.keyOf && w.keyOf[j] == k;
    assert j in v.owners && j in v.keyOf && v.keyOf[j] == k;
  }

  lemma DeleteEntries(e: map<string, AclRow>, w: World, names: ClusterNames, i: nat)
    requires WorldOk(w, names) && i in w.keyOf && EntriesAgree(e, w, names)
    ensures WorldOk(IdealStep(w, Delete(i)), names)
    ensures EntriesAgree(Dropped(e, PathAt(names, w.keyOf[i])), IdealStep(w, Delete(i)), names)
  {
    var v := IdealStep(w, Delete(i));
    IdealStepOk(w, names, Delete(i));
    var after := Dropped(e, PathAt(names, w.keyOf[i]));
    forall id | id in w.entries
      ensures id in after <==> id in v.entries
      ensures id in after ==> after[id] == RowOf(v, names, v.entries[id])
    {
      UnderIsOfInstance(w, names, i, id);
    }
  }

  lemma CreateOwners(o: OwnerTable, w: World, k: InstanceKey, subject: Option<string>)
    requires Distinct(w) && OwnersAgree(o, w) && Free(w, k)
    ensures OwnersAgree(if subject.Some? then Recorded(o, k, subject.value, FromEvent)
      else o, IdealStep(w, Create(k, subject)))
  {
    hide Claimed, Columns, IdealStep;
    var v := IdealStep(w, Create(k, subject));
    FreeIsUnowned(o, w, k);
    forall l | l in o
      ensures OwnedKey(v, l)
    {
      CreateKeepsOwned(o, w, k, subject, l);
    }
    if subject.Some? {
      FirstRecord(o, k, subject.value);
      CreateOwnersWith(o, w, k, subject.value);
    } else {
      CreateOwnersWithout(o, w, k);
    }
  }

  lemma CreateOwnersWith(o: OwnerTable, w: World, k: InstanceKey, subject: string)
    requires Distinct(w) && OwnersAgree(o, w) && Free(w, k) && k !in o
    requires forall l :: l in o ==> OwnedKey(IdealStep(w, Create(k, Some(subject))), l)
    ensures OwnersAgree(o[k := Columns(subject, FromEvent)], IdealStep(w, Create(k, Some(subject))))
  {
    hide Columns, OwnedKey;
    OwnsNew(w, k, subject);
  }

  lemma OwnsNew(w: World, k: InstanceKey, subject: string)
    ensures OwnedKey(IdealStep(w, Create(k, Some(subject))), k)
  {
    var v := IdealStep(w, Create(k, Some(subject)));
    assert w.next in v.owners && w.next in v.keyOf && v.keyOf[w.next] == k;
  }

  lemma CreateOwnersWithout(o: OwnerTable, w: World, k: InstanceKey)
    requires Distinct(w) && OwnersAgree(o, w) && Free(w, k)
    requires forall l :: l in o ==> OwnedKey(IdealStep(w, Create(k, None)), l)
    ensures OwnersAgree(o, IdealStep(w, Create(k, None)))
  {
    hide OwnedKey;
    var v := IdealStep(w, Create(k, None));
    assert v.owners == w.owners && v.keyOf == w.keyOf[w.next := k];
    forall i | i in v.owners
      ensures i in v.keyOf && v.keyOf[i] in o && o[v.keyOf[i]] == v.owners[i]
    {
      assert i < w.next;
    }
  }

  lemma FirstRecord(o: OwnerTable, k: InstanceKey, subject: string)
    requires k !in o
    ensures Recorded(o, k, subject, FromEvent) == o[k := Columns(subject, FromEvent)]
  {
  }

  lemma CreateKeepsOwned(o: OwnerTable, w: World, k: InstanceKey, subject: Option<string>, l: InstanceKey)
    requires Distinct(w) && OwnersAgree(o, w) && l in o
    ensures OwnedKey(IdealStep(w, Create(k, subject)), l)
  {
    var v := IdealStep(w, Create(k, subject));
    assert OwnedKey(w, l);
    var j :| j in w.owners && j in w.keyOf && w.keyOf[j] == l;
    assert j in v.owners && j in v.keyOf && v.keyOf[j] == l;
  }

  lemma RecordOwners(o: OwnerTable, w: World, i: nat, subject: string, source: OwnerSource)
    requires Distinct(w) && OwnersAgree(o, w) && i in w.keyOf
    ensures OwnersAgree(Recorded(o, w.keyOf[i], subject, source), IdealStep(w, RecordFor(i, subject, source)))
  {
    hide OwnedKey, Claimed;
    var v := IdealStep(w, RecordFor(i, subject, source));
    if i !in w.owners {
      UnownedHasNoRow(o, w, i);
    }
    assert RowAt(o, w.keyOf[i]) == IdealRowAt(w, i);
    assert v == w.(owners := w.owners[i := Claimed(RowAt(o, w.keyOf[i]), subject, source)]);
    hide IdealStep, RowAt, IdealRowAt;
    forall l | l in Recorded(o, w.keyOf[i], subject, source)
      ensures OwnedKey(v, l)
    {
      RecordKeepsOwned(w, i, subject, source, l);
    }
  }

  lemma RecordKeepsOwned(w: World, i: nat, subject: string, source: OwnerSource, l: InstanceKey)
    requires i in w.keyOf && (l == w.keyOf[i] || OwnedKey(w, l))
    ensures OwnedKey(IdealStep(w, RecordFor(i, subject, source)), l)
  {
    hide Claimed;
    var v := IdealStep(w, RecordFor(i, subject, source));
    if l == w.keyOf[i] {
      assert i in v.owners && v.keyOf[i] == l;
    } else {
      var j :| j in w.owners && j in w.keyOf && w.keyOf[j] == l;
      assert j in v.owners && v.keyOf[j] == l;
    }
  }

  /** Entries keep their rows while the instances they are on keep their names. */
  lemma SameEntries(e: map<string, AclRow>, w: World, v: World, names: ClusterNames)
    requires WorldOk(w, names) && WorldOk(v, names) && EntriesAgree(e, w, names) && v.entries == w.entries
    requires forall i :: i in w.keyOf ==> i in v.keyOf && v.keyOf[i] == w.keyOf[i]
    ensures EntriesAgree(e, v, names)
  {
    forall id | id in w.entries
      ensures RowOf(v, names, w.entries[id]) == RowOf(w, names, w.entries[id])
    {
    }
  }

  lemma GrantEntries(e: map<string, AclRow>, w: World, names: ClusterNames, a: Act)
    requires WorldOk(w, names) && Legal(w, names, a) && EntriesAgree(e, w, names) && (a.Grant? || a.Revoke?)
    ensures WorldOk(IdealStep(w, a), names)
    ensures EntriesAgree(
      match a
      case Grant(id, target, s, r, p) => e[id := RowOf(w, names, IdealRow(target, s, r, p))]
      case _ => e - {a.entryId},
      IdealStep(w, a), names)
  {
    hide PathAt, NotAnInstance, NamesOk;
    var v := IdealStep(w, a);
    IdealStepOk(w, names, a);
    forall id | id in v.entries
      ensures RowOf(v, names, v.entries[id]) == RowOf(w, names, v.entries[id])
    {
    }
  }

  lemma RenameOutcome(t: Tables, w: World, names: ClusterNames, i: nat, name: string)
    requires WorldOk(w, names) && Legal(w, names, Rename(i, name))
    ensures var from, to := w.keyOf[i], w.keyOf[i].(name := name);
      var renamed := Renamed(t.owners, from, to);
      TableStep(t, w, names, Rename(i, name))
      == if renamed.None? then Outcome(t, None)
         else Outcome(Tables(renamed.value, Moved(t.entries, PathAt(names, from), PathAt(names, to))), Some(true))
  {
    assert NamedIn(names, w.keyOf[i]);
  }

  lemma RenameRefines(t: Tables, w: World, names: ClusterNames, i: nat, name: string)
    requires WorldOk(w, names) && Legal(w, names, Rename(i, name)) && Refines(t, w, names)
    ensures WorldOk(IdealStep(w, Rename(i, name)), names)
    ensures var o := TableStep(t, w, names, Rename(i, name));
      o.changed.Some? && Refines(o.tables, IdealStep(w, Rename(i, name)), names)
  {
    RenameOutcome(t, w, names, i, name);
    RekeyOwners(t.owners, w, i, w.keyOf[i].(name := name));
    RenameEntries(t.entries, w, names, i, name);
  }

  lemma CreateRefines(t: Tables, w: World, names: ClusterNames, k: InstanceKey, subject: Option<string>)
    requires WorldOk(w, names) && Legal(w, names, Create(k, subject)) && Refines(t, w, names)
    ensures WorldOk(IdealStep(w, Create(k, subject)), names)
    ensures var o := TableStep(t, w, names, Create(k, subject));
      o.changed.Some? && Refines(o.tables, IdealStep(w, Create(k, subject)), names)
  {
    hide OwnersAgree, EntriesAgree, Recorded, Format;
    IdealStepOk(w, names, Create(k, subject));
    CreateOwners(t.owners, w, k, subject);
    SameEntries(t.entries, w, IdealStep(w, Create(k, subject)), names);
  }

  lemma DeleteRefines(t: Tables, w: World, names: ClusterNames, i: nat)
    requires WorldOk(w, names) && Legal(w, names, Delete(i)) && Refines(t, w, names)
    ensures WorldOk(IdealStep(w, Delete(i)), names)
    ensures var o := TableStep(t, w, names, Delete(i));
      o.changed.Some? && Refines(o.tables, IdealStep(w, Delete(i)), names)
  {
    hide OwnersAgree, EntriesAgree, Forgotten, Dropped, Format;
    IdealStepOk(w, names, Delete(i));
    DeleteOwners(t.owners, w, i);
    DeleteEntries(t.entries, w, names, i);
  }

  lemma RecordRefines(t: Tables, w: World, names: ClusterNames, i: nat, subject: string, source: OwnerSource)
    requires WorldOk(w, names) && Legal(w, names, RecordFor(i, subject, source)) && Refines(t, w, names)
    ensures WorldOk(IdealStep(w, RecordFor(i, subject, source)), names)
    ensures var o := TableStep(t, w, names, RecordFor(i, subject, source));
      o.changed.Some? && Refines(o.tables, IdealStep(w, RecordFor(i, subject, source)), names)
  {
    hide OwnersAgree, EntriesAgree, Recorded, Format;
    IdealStepOk(w, names, RecordFor(i, subject, source));
    RecordOwners(t.owners, w, i, subject, source);
    SameEntries(t.entries, w, IdealStep(w, RecordFor(i, subject, source)), names);
  }

  lemma EntryRefines(t: Tables, w: World, names: ClusterNames, a: Act)
    requires WorldOk(w, names) && Legal(w, names, a) && Refines(t, w, names) && (a.Grant? || a.Revoke?)
    ensures WorldOk(IdealStep(w, a), names)
    ensures var o := TableStep(t, w, names, a); o.changed.Some? && Refines(o.tables, IdealStep(w, a), names)
  {
    hide Format, PathAt, EntriesUnder, Distinct, Legal;
    IdealStepOk(w, names, a);
    GrantEntries(t.entries, w, names, a);
  }

  /** One act: no statement fails, and the tables keep saying what the world says. */
  lemma ActRefines(t: Tables, w: World, names: ClusterNames, a: Act)
    requires WorldOk(w, names) && Legal(w, names, a) && Refines(t, w, names)
    ensures WorldOk(IdealStep(w, a), names)
    ensures var o := TableStep(t, w, names, a); o.changed.Some? && Refines(o.tables, IdealStep(w, a), names)
  {
    hide WorldOk, Legal, Refines, IdealStep, TableStep;
    match a
    case Create(k, subject) => CreateRefines(t, w, names, k, subject);
    case Rename(i, name) => RenameRefines(t, w, names, i, name);
    case Delete(i) => DeleteRefines(t, w, names, i);
    case RecordFor(i, subject, source) => RecordRefines(t, w, names, i, subject, source);
    case _ => EntryRefines(t, w, names, a);
  }

  ghost predicate LegalRun(w: World, names: ClusterNames, acts: seq<Act>)
    decreases |acts|
  {
    acts == [] || (Legal(w, names, acts[0]) && LegalRun(IdealStep(w, acts[0]), names, acts[1..]))
  }

  ghost function WorldAfter(w: World, acts: seq<Act>): World
    decreases |acts|
  {
    if acts == [] then w else WorldAfter(IdealStep(w, acts[0]), acts[1..])
  }

  /** The tables after a run of acts, event by event, or none when one failed. */
  ghost function TablesAfter(t: Tables, w: World, names: ClusterNames, acts: seq<Act>): Option<Tables>
    requires WorldOk(w, names) && LegalRun(w, names, acts)
    decreases |acts|
  {
    if acts == [] then Some(t)
    else
      var o := TableStep(t, w, names, acts[0]);
      IdealStepOk(w, names, acts[0]);
      if o.changed.None? then None else TablesAfter(o.tables, IdealStep(w, acts[0]), names, acts[1..])
  }

  /**
   For every loss-free run of creates, renames, deletes, claims and grants, no
   event fails and the name-keyed tables equal the identity-keyed ones: chains
   of renames and reused names never hand an instance another's owner or
   entries.
   */
  lemma {:induction false} RunRefines(t: Tables, w: World, names: ClusterNames, acts: seq<Act>)
    requires WorldOk(w, names) && LegalRun(w, names, acts) && Refines(t, w, names)
    ensures WorldOk(WorldAfter(w, acts), names)
    ensures var end := TablesAfter(t, w, names, acts); end.Some? && Refines(end.value, WorldAfter(w, acts), names)
    decreases |acts|
  {
    if acts != [] {
      ActRefines(t, w, names, acts[0]);
      RunRefines(TableStep(t, w, names, acts[0]).tables, IdealStep(w, acts[0]), names, acts[1..]);
    }
  }

  /** After any such run, an instance created under a free name starts clean: no owner but its requestor, no entries. */
  lemma NewInstanceStartsClean(names: ClusterNames, acts: seq<Act>, k: InstanceKey, subject: Option<string>)
    requires NamesOk(names) && LegalRun(NOTHING_YET, names, acts)
    requires Legal(WorldAfter(NOTHING_YET, acts), names, Create(k, subject))
    ensures var t := TablesAfter(Tables(map[], map[]), NOTHING_YET, names, acts);
      && t.Some?
      && k !in t.value.owners
      && (forall id :: id in t.value.entries ==> !EntriesUnder(PathAt(names, k), t.value.entries[id].path))
      && var after := Handled(t.value, names, k.clusterId, InstanceCreated(k.project, k.name, subject)).tables;
         RowAt(after.owners, k) == if subject.Some? then Some(Columns(subject.value, FromEvent)) else None
  {
    RunRefines(Tables(map[], map[]), NOTHING_YET, names, acts);
    var w := WorldAfter(NOTHING_YET, acts);
    var t := TablesAfter(Tables(map[], map[]), NOTHING_YET, names, acts).value;
    forall id | id in t.entries
      ensures !EntriesUnder(PathAt(names, k), t.entries[id].path)
    {
      match w.entries[id].target
      case OnInstance(j) => InstancePathCoversItself(names, k, w.keyOf[j]);
      case Elsewhere(path) => OtherPathsAreNotUnder(names, k, path);
    }
  }
}
