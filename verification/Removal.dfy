/**
 Removing a cluster member from every service
 (firecloud/api/services_cluster.go, removeClusterMember) over RunConcurrent
 (firecloud/service/service_handler.go): the first service alone, the middle
 ones together, the last one alone, stopping at the first failure. The hooks
 of the middle services interleave step by step, and every call can fail, with
 or without having taken effect.
 */
module Removal {
  datatype Service = Incus | Ceph | Ovn | Cloud

  datatype Membership = Absent | NotSetUp | Clustered(members: set<string>)

  /** One value for each service. */
  datatype Each<+T> = Each(incus: T, ceph: T, ovn: T, cloud: T)

  function Get<T>(e: Each<T>, s: Service): T {
    match s case Incus => e.incus case Ceph => e.ceph case Ovn => e.ovn case Cloud => e.cloud
  }

  function Put<T>(e: Each<T>, s: Service, x: T): Each<T> {
    match s
    case Incus => e.(incus := x)
    case Ceph => e.(ceph := x)
    case Ovn => e.(ovn := x)
    case Cloud => e.(cloud := x)
  }

  /** How far the hook of one service is: not asked, lowering Ceph's replication, deleting, or over. */
  datatype Hook = Todo | Preparing | Deleting | Over(ok: bool)

  datatype Phase = Check | First | Middle | Last | Returned(ok: bool)

  datatype Outcome = Works | Fails | FailsAfterEffect

  /** A step of a hook, or a member gone by other means. */
  datatype Action = CheckCeph(works: bool) | Move(service: Service, outcome: Outcome) | Vanish(service: Service)

  datatype Pool = Pool(name: string, size: int)

  /** Ceph's disks, each by the member it is on, and its pools, each by the copies it keeps. */
  datatype Storage = Storage(disks: seq<string>, pools: seq<Pool>)

  /** `monitor`: the member still runs a Ceph monitor. `found`: some service had it. */
  datatype World = World(name: string, services: Each<Membership>, monitor: bool, hooks: Each<Hook>, phase: Phase,
      found: bool, storage: Storage)

  predicate Has(w: World, s: Service) {
    Get(w.services, s).Clustered? && w.name in Get(w.services, s).members
  }

  function FirstHook(m: Membership): Hook {
    if m.Absent? then Over(true) else Todo
  }

  function FirstHooks(m: Each<Membership>): Each<Hook> {
    Each(FirstHook(m.incus), FirstHook(m.ceph), FirstHook(m.ovn), FirstHook(m.cloud))
  }

  /** The start of a request: absent services have no hook to run. */
  function Begin(name: string, services: Each<Membership>, monitor: bool, storage: Storage): World {
    World(name, services, monitor, FirstHooks(services), Check, false, storage)
  }

  /** Removing a monitor from a cluster of two is refused up front. */
  predicate Refused(w: World) {
    Has(w, Ceph) && |w.services.ceph.members| == 2 && w.monitor
  }

  /** The phase the finished hooks lead to. */
  function Advance(w: World): World
    decreases match w.phase case First => 3 case Middle => 2 case Last => 1 case _ => 0
  {
    match w.phase
    case First =>
      if !w.hooks.incus.Over? then w
      else if w.hooks.incus.ok then Advance(w.(phase := Middle)) else w.(phase := Returned(false))
    case Middle =>
      if !w.hooks.ceph.Over? || !w.hooks.ovn.Over? then w
      else if w.hooks.ceph.ok && w.hooks.ovn.ok then Advance(w.(phase := Last)) else w.(phase := Returned(false))
    case Last =>
      if w.hooks.cloud.Over? then w.(phase := Returned(w.hooks.cloud.ok)) else w
    case _ => w
  }

  /** Services whose hook may move in a phase. */
  predicate Runs(phase: Phase, s: Service) {
    match phase
    case First => s == Incus
    case Middle => s == Ceph || s == Ovn
    case Last => s == Cloud
    case _ => false
  }

  predicate Enabled(w: World, a: Action) {
    match a
    case CheckCeph(_) => w.phase == Check
    case Move(s, _) => Runs(w.phase, s) && !Get(w.hooks, s).Over?
    case Vanish(s) => true
  }

  function Forget(m: Membership, name: string): Membership {
    if m.Clustered? then Clustered(m.members - {name}) else m
  }

  function Dropped(w: World, s: Service): World {
    w.(services := Put(w.services, s, Forget(Get(w.services, s), w.name)))
  }

  function WithHook(w: World, s: Service, h: Hook): World {
    w.(hooks := Put(w.hooks, s, h))
  }

  /** The disks that stay when the member goes. */
  function Staying(disks: seq<string>, name: string): nat {
    if disks == [] then 0
    else Staying(disks[..|disks| - 1], name) + if disks[|disks| - 1] != name then 1 else 0
  }

  /** The pools that want more copies than that. */
  function Oversized(pools: seq<Pool>, count: nat): seq<string> {
    if pools == [] then []
    else
      var last := pools[|pools| - 1];
      Oversized(pools[..|pools| - 1], count) + if last.size > count then [last.name] else []
  }

  /** The names in the request to Ceph; an empty name stands for the default of later pools. */
  function ToLower(pools: seq<Pool>, count: nat): seq<string> {
    if Oversized(pools, count) == [] then [""] else Oversized(pools, count)
  }

  function Resized(pools: seq<Pool>, names: seq<string>, size: int): (r: seq<Pool>)
    ensures |r| == |pools|
  {
    seq(|pools|, i requires 0 <= i < |pools| => if pools[i].name in names then pools[i].(size := size) else pools[i])
  }

  /** Ceph's storage once the request is carried out. */
  function Lowered(storage: Storage, name: string): Storage {
    var count := Staying(storage.disks, name);
    storage.(pools := Resized(storage.pools, ToLower(storage.pools, count), count))
  }

  /** One step of the hook of a service. */
  function Moved(w: World, s: Service, outcome: Outcome): World {
    match Get(w.hooks, s)
    case Todo =>
      if outcome != Works then WithHook(w, s, Over(false))
      else if !Has(w, s) then WithHook(w, s, Over(true))
      else WithHook(w.(found := true), s, if s == Ceph then Preparing else Deleting)
    case Preparing =>
      var after := if outcome == Fails then w else w.(storage := Lowered(w.storage, w.name));
      WithHook(after, s, if outcome == Works then Deleting else Over(false))
    case Deleting =>
      var after := if outcome == Fails then w else Dropped(w, s);
      WithHook(after, s, Over(outcome == Works))
    case Over(_) => w
  }

  function After(w: World, a: Action): World
    requires Enabled(w, a)
  {
    match a
    case CheckCeph(works) =>
      if !w.services.ceph.Absent? && (!works || Refused(w)) then w.(phase := Returned(false))
      else Advance(w.(phase := First))
    case Move(s, outcome) => Advance(Moved(w, s, outcome))
    case Vanish(s) => Dropped(w, s)
  }

  /** A request is refused up front when Ceph cannot be asked, or has the member's monitor and one other member. */
  lemma RefusedIff(name: string, services: Each<Membership>, monitor: bool, storage: Storage, works: bool)
    ensures var w := Begin(name, services, monitor, storage);
      After(w, CheckCeph(works)).phase == Returned(false)
      <==>
      && !services.ceph.Absent?
      && (!works
          || (monitor && services.ceph.Clustered?
              && exists other :: other != name && services.ceph.members == {name, other}))
  {
    var w := Begin(name, services, monitor, storage);
    BeginsClean(name, services, monitor, storage);
    AdvanceClean(w.(phase := First));
    if services.ceph.Clustered? {
      PairHasTwo(services.ceph.members, name);
    }
  }

  lemma PairHasTwo(members: set<string>, name: string)
    ensures name in members && |members| == 2 <==> exists other :: other != name && members == {name, other}
  {
    if name in members && |members| == 2 {
      var rest := members - {name};
      assert |rest| == 1;
      var other :| other in rest;
      assert |rest - {other}| == 0;
      assert members == {name, other};
    }
  }

  ghost predicate IsRun(worlds: seq<World>, actions: seq<Action>) {
    && |worlds| == |actions| + 1
    && forall i {:trigger actions[i]} :: 0 <= i < |actions| ==>
      Enabled(worlds[i], actions[i]) && worlds[i + 1] == After(worlds[i], actions[i])
  }

  // ----- The order -----

  /** Past a service: its hook ended well, so it does not have the member. */
  predicate Past(w: World, s: Service) {
    Get(w.hooks, s) == Over(true)
  }

  predicate Settled(w: World, s: Service) {
    Past(w, s) ==> !Has(w, s)
  }

  ghost predicate Ordered(w: World) {
    && Settled(w, Incus) && Settled(w, Ceph) && Settled(w, Ovn) && Settled(w, Cloud)
    && (w.phase == Middle ==> Past(w, Incus))
    && ((w.phase == Last || w.phase == Returned(true)) ==> Past(w, Incus) && Past(w, Ceph) && Past(w, Ovn))
    && (w.phase == Returned(true) ==> Past(w, Cloud))
    && (Started(w, Ceph) || Started(w, Ovn) ==> Past(w, Incus))
    && (Started(w, Cloud) ==> Past(w, Incus) && Past(w, Ceph) && Past(w, Ovn))
  }

  /** The hook of a service that is installed has made a step. */
  predicate Started(w: World, s: Service) {
    !Get(w.services, s).Absent? && Get(w.hooks, s) != Todo
  }

  lemma BeginsOrdered(name: string, services: Each<Membership>, monitor: bool, storage: Storage)
    ensures Ordered(Begin(name, services, monitor, storage))
  {
  }

  lemma AdvanceOrdered(w: World)
    requires Ordered(w)
    ensures Ordered(Advance(w))
    decreases match w.phase case First => 3 case Middle => 2 case Last => 1 case _ => 0
  {
    match w.phase
    case First => if w.hooks.incus == Over(true) { AdvanceOrdered(w.(phase := Middle)); }
    case Middle => if w.hooks.ceph == Over(true) && w.hooks.ovn == Over(true) { AdvanceOrdered(w.(phase := Last)); }
    case _ =>
  }

  lemma PutGet<T>(e: Each<T>, s: Service, x: T, t: Service)
    ensures Get(Put(e, s, x), t) == if t == s then x else Get(e, t)
  {
  }

  lemma MoveKeepsHooks(w: World, s: Service, outcome: Outcome, t: Service)
    requires t != s
    ensures Get(Moved(w, s, outcome).hooks, t) == Get(w.hooks, t)
  {
    hide Get, Put, Has, Dropped;
    forall h
      ensures Get(Put(w.hooks, s, h), t) == Get(w.hooks, t)
    {
      PutGet(w.hooks, s, h, t);
    }
    assert Dropped(w, s).hooks == w.hooks by { DropKeeps(w, s, t); }
  }

  lemma DropKeeps(w: World, s: Service, t: Service)
    ensures Dropped(w, s).hooks == w.hooks && Dropped(w, s).phase == w.phase
    ensures Get(Dropped(w, s).services, t).Absent? <==> Get(w.services, t).Absent?
  {
  }

  lemma MoveKeepsAbsence(w: World, s: Service, outcome: Outcome, t: Service)
    ensures Get(Moved(w, s, outcome).services, t).Absent? <==> Get(w.services, t).Absent?
    ensures Moved(w, s, outcome).phase == w.phase
  {
    hide Get, Put, Has, Dropped;
    DropKeeps(w, s, t);
  }

  lemma MoveKeepsPast(w: World, s: Service, outcome: Outcome, t: Service)
    requires !Get(w.hooks, s).Over?
    ensures Past(w, t) ==> Past(Moved(w, s, outcome), t)
    ensures t != s ==> Get(Moved(w, s, outcome).hooks, t) == Get(w.hooks, t)
    ensures Get(Moved(w, s, outcome).services, t).Absent? <==> Get(w.services, t).Absent?
    ensures Moved(w, s, outcome).phase == w.phase
  {
    hide Moved, Get;
    MoveKeepsAbsence(w, s, outcome, t);
    if t != s {
      MoveKeepsHooks(w, s, outcome, t);
    }
  }

  lemma DropHas(w: World, s: Service, t: Service)
    ensures Has(Dropped(w, s), t) <==> Has(w, t) && t != s
  {
    PutGet(w.services, s, Forget(Get(w.services, s), w.name), t);
  }

  lemma MoveSettlesOther(w: World, s: Service, outcome: Outcome, t: Service)
    requires Settled(w, t) && t != s
    ensures Settled(Moved(w, s, outcome), t)
  {
    hide Get, Put;
    MoveKeepsHooks(w, s, outcome, t);
    DropHas(w, s, t);
  }

  lemma MoveSettlesOwn(w: World, s: Service, outcome: Outcome)
    requires Settled(w, s)
    ensures Settled(Moved(w, s, outcome), s)
  {
    hide Put, Get, Dropped;
    forall h, v: World
      ensures Get(WithHook(v, s, h).hooks, s) == h && WithHook(v, s, h).services == v.services
    {
      PutGet(v.hooks, s, h, s);
    }
    DropHas(w, s, s);
    DropKeeps(w, s, s);
  }

  lemma MoveSettled(w: World, s: Service, outcome: Outcome, t: Service)
    requires Settled(w, t)
    ensures Settled(Moved(w, s, outcome), t)
  {
    if t == s {
      MoveSettlesOwn(w, s, outcome);
    } else {
      MoveSettlesOther(w, s, outcome, t);
    }
  }

  lemma MoveOrdered(w: World, s: Service, outcome: Outcome)
    requires Ordered(w) && Enabled(w, Move(s, outcome))
    ensures Ordered(Moved(w, s, outcome))
  {
    hide Moved, Settled, Past;
    MoveSettled(w, s, outcome, Incus);
    MoveSettled(w, s, outcome, Ceph);
    MoveSettled(w, s, outcome, Ovn);
    MoveSettled(w, s, outcome, Cloud);
    MoveKeepsPast(w, s, outcome, Incus);
    MoveKeepsPast(w, s, outcome, Ceph);
    MoveKeepsPast(w, s, outcome, Ovn);
    MoveKeepsPast(w, s, outcome, Cloud);
  }

  lemma StepOrdered(w: World, a: Action)
    requires Ordered(w) && Enabled(w, a)
    ensures Ordered(After(w, a))
  {
    hide Ordered, Advance, Moved, Dropped;
    match a
    case CheckCeph(works) =>
      CheckOrdered(w);
      AdvanceOrdered(w.(phase := First));
    case Move(s, outcome) =>
      MoveOrdered(w, s, outcome);
      AdvanceOrdered(Moved(w, s, outcome));
    case Vanish(s) => VanishOrdered(w, s);
  }

  lemma CheckOrdered(w: World)
    requires Ordered(w) && w.phase == Check
    ensures Ordered(w.(phase := First)) && Ordered(w.(phase := Returned(false)))
  {
  }

  lemma VanishOrdered(w: World, s: Service)
    requires Ordered(w)
    ensures Ordered(Dropped(w, s))
  {
    hide Dropped, Get, Has;
    forall t
      ensures Has(Dropped(w, s), t) ==> Has(w, t)
      ensures Get(Dropped(w, s).services, t).Absent? <==> Get(w.services, t).Absent?
      ensures Dropped(w, s).hooks == w.hooks && Dropped(w, s).phase == w.phase
    {
      DropHas(w, s, t);
      DropKeeps(w, s, t);
    }
    DropKeeps(w, s, s);
  }

  /**
   Over every interleaving and failure: Ceph and OVN start only once Incus does
   not have the member, Firecloud only once no other service does, and success
   means it is in none.
   */
  lemma {:induction false} OrderKept(worlds: seq<World>, actions: seq<Action>, i: nat)
    requires IsRun(worlds, actions) && Ordered(worlds[0]) && i < |worlds|
    ensures Ordered(worlds[i])
    ensures Started(worlds[i], Ceph) || Started(worlds[i], Ovn) ==> !Has(worlds[i], Incus)
    ensures Started(worlds[i], Cloud) ==> !Has(worlds[i], Incus) && !Has(worlds[i], Ceph) && !Has(worlds[i], Ovn)
    ensures worlds[i].phase == Returned(true) ==> forall s :: !Has(worlds[i], s)
  {
    hide Advance, Moved, Enabled;
    if i > 0 {
      OrderKept(worlds, actions, i - 1);
      StepOrdered(worlds[i - 1], actions[i - 1]);
    }
    InNoService(worlds[i]);
  }

  lemma InNoService(w: World)
    requires Ordered(w)
    ensures w.phase == Returned(true) ==> forall s :: !Has(w, s)
  {
    forall s | w.phase == Returned(true)
      ensures !Has(w, s)
    {
      assert Past(w, s) && Settled(w, s);
    }
  }

  /** Whatever a step makes Firecloud forget, no other service has any more. */
  lemma ForgetsLast(w: World, s: Service, outcome: Outcome)
    requires Ordered(w) && Enabled(w, Move(s, outcome)) && Has(w, Cloud)
    ensures !Has(After(w, Move(s, outcome)), Cloud) ==> !Has(w, Incus) && !Has(w, Ceph) && !Has(w, Ovn)
  {
    AdvanceKeeps(Moved(w, s, outcome));
    if s == Cloud {
      assert w.phase == Last;
      assert Past(w, Incus) && Past(w, Ceph) && Past(w, Ovn);
    }
  }

  lemma AdvanceKeeps(w: World)
    ensures Advance(w).services == w.services && Advance(w).hooks == w.hooks && Advance(w).found == w.found
    ensures Advance(w).name == w.name && Advance(w).monitor == w.monitor && Advance(w).storage == w.storage
    decreases match w.phase case First => 3 case Middle => 2 case Last => 1 case _ => 0
  {
    match w.phase
    case First => AdvanceKeeps(w.(phase := Middle));
    case Middle => AdvanceKeeps(w.(phase := Last));
    case _ =>
  }

  // ----- Not found -----

  /** Where the member is, it was at the start; while no hook has found it, it is still there, but where it vanished. */
  ghost predicate Seen(start: Each<Membership>, w: World, vanished: set<Service>) {
    && (w.found ==> exists s :: WasIn(start, s, w.name))
    && (forall s :: WasIn(start, s, w.name) && !w.found && s !in vanished ==> StillThere(w, s))
    && (forall s :: Has(w, s) ==> WasIn(start, s, w.name))
  }

  predicate StillThere(w: World, s: Service) {
    Has(w, s) && (Get(w.hooks, s) == Todo || Get(w.hooks, s) == Over(false))
  }

  predicate WasIn(start: Each<Membership>, s: Service, name: string) {
    Get(start, s).Clustered? && name in Get(start, s).members
  }

  lemma StepSeen(start: Each<Membership>, w: World, a: Action, vanished: set<Service>)
    requires Seen(start, w, vanished) && Enabled(w, a)
    ensures Seen(start, After(w, a), if a.Vanish? then vanished + {a.service} else vanished)
  {
    match a
    case CheckCeph(works) => AdvanceKeeps(w.(phase := First));
    case Move(s, outcome) =>
      MovedSeen(start, w, s, outcome, vanished);
      AdvancedSeen(start, Moved(w, s, outcome), vanished);
    case Vanish(s) => VanishedSeen(start, w, s, vanished);
  }

  lemma AdvancedSeen(start: Each<Membership>, w: World, vanished: set<Service>)
    requires Seen(start, w, vanished)
    ensures Seen(start, Advance(w), vanished)
  {
    hide Advance, Get, WasIn;
    AdvanceKeeps(w);
    assert forall t :: Has(Advance(w), t) == Has(w, t);
  }

  lemma VanishedSeen(start: Each<Membership>, w: World, s: Service, vanished: set<Service>)
    requires Seen(start, w, vanished)
    ensures Seen(start, Dropped(w, s), vanished + {s})
  {
    hide Dropped, WasIn, Has;
    forall t
      ensures Has(Dropped(w, s), t) <==> Has(w, t) && t != s
      ensures Get(Dropped(w, s).hooks, t) == Get(w.hooks, t)
    {
      DropHas(w, s, t);
      DropKeeps(w, s, t);
    }
    DropNames(w, s);
  }

  lemma DropNames(w: World, s: Service)
    ensures Dropped(w, s).name == w.name && Dropped(w, s).found == w.found
  {
  }

  lemma MoveHas(w: World, s: Service, outcome: Outcome, t: Service)
    ensures Has(Moved(w, s, outcome), t) ==> Has(w, t)
    ensures t != s ==> (Has(Moved(w, s, outcome), t) <==> Has(w, t))
  {
    hide Get, Put, Dropped;
    DropHas(w, s, t);
  }

  /** A hook that gets past its first call, or ends well, with the member there has found it. */
  lemma MoveFinds(w: World, s: Service, outcome: Outcome)
    requires !Get(w.hooks, s).Over?
    ensures Moved(w, s, outcome).name == w.name
    ensures Moved(w, s, outcome).found ==> w.found || Has(w, s)
    ensures w.found ==> Moved(w, s, outcome).found
    ensures !Moved(w, s, outcome).found && StillThere(w, s) ==> StillThere(Moved(w, s, outcome), s)
  {
  }

  lemma MovedSeen(start: Each<Membership>, w: World, s: Service, outcome: Outcome, vanished: set<Service>)
    requires Seen(start, w, vanished) && Enabled(w, Move(s, outcome))
    ensures Seen(start, Moved(w, s, outcome), vanished)
  {
    hide Moved, WasIn, Has, Get;
    var moved := Moved(w, s, outcome);
    MoveFinds(w, s, outcome);
    forall t
      ensures Has(moved, t) ==> Has(w, t)
      ensures t != s ==> (Has(moved, t) <==> Has(w, t)) && Get(moved.hooks, t) == Get(w.hooks, t)
    {
      MoveHas(w, s, outcome, t);
      if t != s {
        MoveKeepsHooks(w, s, outcome, t);
      }
    }
  }

  /** The services the member vanished from by other means in the first steps. */
  ghost function VanishedFrom(actions: seq<Action>, i: nat): set<Service>
    requires i <= |actions|
  {
    set k | 0 <= k < i && actions[k].Vanish? :: actions[k].service
  }

  lemma VanishedOneMore(actions: seq<Action>, i: nat)
    requires i < |actions|
    ensures VanishedFrom(actions, i + 1)
         == VanishedFrom(actions, i) + if actions[i].Vanish? then {actions[i].service} else {}
  {
  }

  lemma {:induction false} SeenThroughout(worlds: seq<World>, actions: seq<Action>, i: nat, services: Each<Membership>)
    requires IsRun(worlds, actions) && i < |worlds|
    requires worlds[0] == Begin(worlds[0].name, services, worlds[0].monitor, worlds[0].storage)
    ensures Seen(services, worlds[i], VanishedFrom(actions, i)) && worlds[i].name == worlds[0].name
  {
    hide Seen, After, Enabled, VanishedFrom;
    if i == 0 {
      SeenAtFirst(worlds[0].name, services, worlds[0].monitor, worlds[0].storage, VanishedFrom(actions, 0));
    } else {
      SeenThroughout(worlds, actions, i - 1, services);
      StepSeen(services, worlds[i - 1], actions[i - 1], VanishedFrom(actions, i - 1));
      KeepsName(worlds[i - 1], actions[i - 1]);
      VanishedOneMore(actions, i - 1);
      assert actions[i - 1].Vanish? || VanishedFrom(actions, i) == VanishedFrom(actions, i - 1);
    }
  }

  lemma SeenAtFirst(name: string, services: Each<Membership>, monitor: bool, storage: Storage,
      vanished: set<Service>)
    ensures Seen(services, Begin(name, services, monitor, storage), vanished)
  {
  }

  /**
   A request that ends well reports the member as found only if some service
   had it, and as not found only if every service that had it lost it by other
   means before it was asked.
   */
  lemma FoundUnlessVanished(worlds: seq<World>, actions: seq<Action>, i: nat, services: Each<Membership>)
    requires IsRun(worlds, actions) && i < |worlds| && worlds[i].phase == Returned(true)
    requires worlds[0] == Begin(worlds[0].name, services, worlds[0].monitor, worlds[0].storage)
    ensures worlds[i].found ==> exists s :: WasIn(services, s, worlds[0].name)
    ensures !worlds[i].found ==> forall s :: WasIn(services, s, worlds[0].name) ==> s in VanishedFrom(actions, i)
  {
    hide VanishedFrom, Get;
    SeenThroughout(worlds, actions, i, services);
    BeginsOrdered(worlds[0].name, services, worlds[0].monitor, worlds[0].storage);
    OrderKept(worlds, actions, i);
  }

  /** So, left alone, it reports "not found" exactly when no service had the member. */
  lemma NotFoundIffNowhere(worlds: seq<World>, actions: seq<Action>, i: nat, services: Each<Membership>)
    requires IsRun(worlds, actions) && i < |worlds| && worlds[i].phase == Returned(true)
    requires worlds[0] == Begin(worlds[0].name, services, worlds[0].monitor, worlds[0].storage)
    requires VanishedFrom(actions, i) == {}
    ensures worlds[i].found <==> exists s :: WasIn(services, s, worlds[0].name)
  {
    FoundUnlessVanished(worlds, actions, i, services);
  }

  /** And it does say "not found" of a member it could have found, when that vanishes in time. */
  lemma VanishedIsNotFound(name: string, others: set<string>, storage: Storage)
      returns (worlds: seq<World>, actions: seq<Action>)
    ensures IsRun(worlds, actions)
    ensures var services := Each(Clustered(others + {name}), Absent, Absent, Absent);
      && worlds[0] == Begin(name, services, false, storage) && WasIn(services, Incus, name)
      && worlds[|actions|].phase == Returned(true) && !worlds[|actions|].found
  {
    var services := Each(Clustered(others + {name}), Absent, Absent, Absent);
    actions := [CheckCeph(true), Vanish(Incus), Move(Incus, Works)];
    var w0 := Begin(name, services, false, storage);
    var w1 := After(w0, actions[0]);
    var w2 := After(w1, actions[1]);
    var w3 := After(w2, actions[2]);
    worlds := [w0, w1, w2, w3];
    assert w1.phase == First && w1.hooks == Each(Todo, Over(true), Over(true), Over(true));
    var asked := Moved(w2, Incus, Works);
    assert asked == w2.(hooks := w2.hooks.(incus := Over(true)));
    assert Advance(asked.(phase := Last)) == asked.(phase := Returned(true));
    assert Advance(asked.(phase := Middle)) == Advance(asked.(phase := Last));
  }

  lemma KeepsName(w: World, a: Action)
    requires Enabled(w, a)
    ensures After(w, a).name == w.name && After(w, a).monitor == w.monitor
  {
    match a
    case CheckCeph(works) => AdvanceKeeps(w.(phase := First));
    case Move(s, outcome) => AdvanceKeeps(Moved(w, s, outcome));
    case Vanish(s) =>
  }

  // ----- Ending, and starting over -----

  function Rest(h: Hook): nat {
    match h case Todo => 3 case Preparing => 2 case Deleting => 1 case Over(_) => 0
  }

  /** Steps a request can still make. */
  function Left(w: World): nat {
    Rest(w.hooks.incus) + Rest(w.hooks.ceph) + Rest(w.hooks.ovn) + Rest(w.hooks.cloud) + if w.phase == Check then 1
      else 0
  }

  lemma AdvancePhase(w: World)
    ensures Advance(w).phase == Check <==> w.phase == Check
    ensures Advance(w).phase.Returned? || Advance(w).phase == Check
      || exists s :: Runs(Advance(w).phase, s) && !Get(w.hooks, s).Over?
    decreases match w.phase case First => 3 case Middle => 2 case Last => 1 case _ => 0
  {
    match w.phase
    case First =>
      AdvancePhase(w.(phase := Middle));
      assert !w.hooks.incus.Over? ==> Runs(First, Incus) && !Get(w.hooks, Incus).Over?;
    case Middle =>
      AdvancePhase(w.(phase := Last));
      assert !w.hooks.ceph.Over? ==> Runs(Middle, Ceph) && !Get(w.hooks, Ceph).Over?;
      assert !w.hooks.ovn.Over? ==> Runs(Middle, Ovn) && !Get(w.hooks, Ovn).Over?;
    case Last => assert !w.hooks.cloud.Over? ==> Runs(Last, Cloud) && !Get(w.hooks, Cloud).Over?;
    case _ =>
  }

  lemma MoveRest(w: World, s: Service, outcome: Outcome)
    requires !Get(w.hooks, s).Over?
    ensures Rest(Get(Moved(w, s, outcome).hooks, s)) < Rest(Get(w.hooks, s))
  {
  }

  lemma MoveLeft(w: World, s: Service, outcome: Outcome)
    requires !Get(w.hooks, s).Over? && w.phase != Check
    ensures Left(Moved(w, s, outcome)) < Left(w)
  {
    hide Moved;
    MoveRest(w, s, outcome);
    MoveKeepsPast(w, s, outcome, Incus);
    MoveKeepsPast(w, s, outcome, Ceph);
    MoveKeepsPast(w, s, outcome, Ovn);
    MoveKeepsPast(w, s, outcome, Cloud);
  }

  lemma AdvanceLeft(w: World)
    ensures Left(Advance(w)) == Left(w)
  {
    hide Advance;
    AdvanceKeeps(w);
    AdvancePhase(w);
  }

  /** Each of its own steps brings the request nearer its end. */
  lemma StepsRunOut(w: World, a: Action)
    requires Enabled(w, a) && !a.Vanish?
    ensures Left(After(w, a)) < Left(w)
  {
    hide Advance, Moved;
    match a
    case CheckCeph(works) => AdvanceLeft(w.(phase := First));
    case Move(s, outcome) =>
      MoveLeft(w, s, outcome);
      AdvanceLeft(Moved(w, s, outcome));
  }

  /** Until it returns, some step is always possible. */
  ghost predicate Live(w: World) {
    w.phase.Returned? || w.phase == Check || exists s :: Runs(w.phase, s) && !Get(w.hooks, s).Over?
  }

  lemma NeverStuck(w: World, a: Action)
    requires Enabled(w, a) && Live(w)
    ensures Live(After(w, a))
  {
    match a
    case CheckCeph(works) =>
      AdvanceKeeps(w.(phase := First));
      AdvancePhase(w.(phase := First));
    case Move(s, outcome) =>
      AdvanceKeeps(Moved(w, s, outcome));
      AdvancePhase(Moved(w, s, outcome));
    case Vanish(s) =>
      assert forall t :: Get(Dropped(w, s).hooks, t) == Get(w.hooks, t);
  }

  /** No hook has failed. */
  ghost predicate Clean(w: World) {
    && (forall s :: Get(w.hooks, s).Over? ==> Get(w.hooks, s).ok)
    && (w.phase.Returned? ==> w.phase.ok)
  }

  lemma AdvanceClean(w: World)
    requires Clean(w)
    ensures Clean(Advance(w))
    decreases match w.phase case First => 3 case Middle => 2 case Last => 1 case _ => 0
  {
    assert Get(w.hooks, Incus) == w.hooks.incus && Get(w.hooks, Ceph) == w.hooks.ceph;
    assert Get(w.hooks, Ovn) == w.hooks.ovn && Get(w.hooks, Cloud) == w.hooks.cloud;
    match w.phase
    case First => if w.hooks.incus.Over? { AdvanceClean(w.(phase := Middle)); }
    case Middle => if w.hooks.ceph.Over? && w.hooks.ovn.Over? { AdvanceClean(w.(phase := Last)); }
    case _ =>
  }

  predicate GoesWell(w: World, a: Action) {
    (a.CheckCeph? ==> a.works && !Refused(w)) && (a.Move? ==> a.outcome == Works)
  }

  lemma StepClean(w: World, a: Action)
    requires Clean(w) && Enabled(w, a) && GoesWell(w, a)
    ensures Clean(After(w, a))
  {
    hide Moved, Dropped, Get, Advance;
    match a
    case CheckCeph(works) => AdvanceClean(w.(phase := First));
    case Move(s, outcome) =>
      MovedClean(w, s);
      AdvanceClean(Moved(w, s, outcome));
    case Vanish(s) =>
      forall t
        ensures Get(Dropped(w, s).hooks, t) == Get(w.hooks, t)
      {
        DropKeeps(w, s, t);
      }
      DropKeeps(w, s, s);
  }

  lemma MovedClean(w: World, s: Service)
    requires Clean(w) && !Get(w.hooks, s).Over?
    ensures Clean(Moved(w, s, Works))
  {
    hide Moved, Get;
    WorkingMove(w, s);
    MoveKeepsAbsence(w, s, Works, s);
    forall t | t != s
      ensures Get(Moved(w, s, Works).hooks, t) == Get(w.hooks, t)
    {
      MoveKeepsHooks(w, s, Works, t);
    }
  }

  lemma WorkingMove(w: World, s: Service)
    requires !Get(w.hooks, s).Over?
    ensures Get(Moved(w, s, Works).hooks, s).Over? ==> Get(Moved(w, s, Works).hooks, s).ok
  {
  }

  /** From whatever earlier attempts left, an attempt in which no step fails ends with the member in no service. */
  lemma {:induction false} RetryCompletes(worlds: seq<World>, actions: seq<Action>, i: nat)
    requires IsRun(worlds, actions) && i < |worlds|
    requires worlds[0] == Begin(worlds[0].name, worlds[0].services, worlds[0].monitor, worlds[0].storage)
    requires forall k :: 0 <= k < |actions| ==> GoesWell(worlds[k], actions[k])
    ensures Clean(worlds[i])
    ensures worlds[i].phase.Returned? ==> forall s :: !Has(worlds[i], s)
  {
    if i == 0 {
      BeginsClean(worlds[0].name, worlds[0].services, worlds[0].monitor, worlds[0].storage);
    } else {
      RetryCompletes(worlds, actions, i - 1);
      StepClean(worlds[i - 1], actions[i - 1]);
    }
    BeginsOrdered(worlds[0].name, worlds[0].services, worlds[0].monitor, worlds[0].storage);
    OrderKept(worlds, actions, i);
  }

  lemma BeginsClean(name: string, services: Each<Membership>, monitor: bool, storage: Storage)
    ensures Clean(Begin(name, services, monitor, storage))
  {
  }

  lemma NeverChecksAgain(w: World, a: Action)
    requires Enabled(w, a) && w.phase != Check
    ensures After(w, a).phase != Check
    ensures w.phase.Returned? ==> !a.Move? && After(w, a).phase == w.phase
  {
    hide Moved;
    match a
    case CheckCeph(_) =>
    case Move(s, outcome) =>
      MoveKeepsAbsence(w, s, outcome, Incus);
      AdvancePhase(Moved(w, s, outcome));
    case Vanish(s) => DropKeeps(w, s, Incus);
  }

  lemma {:induction false} ChecksFirst(worlds: seq<World>, actions: seq<Action>, k: nat, i: nat)
    requires IsRun(worlds, actions) && i <= k < |actions| && actions[k].CheckCeph?
    ensures worlds[i].phase == Check
    decreases k - i
  {
    hide After;
    assert Enabled(worlds[k], actions[k]);
    if i < k {
      ChecksFirst(worlds, actions, k, i + 1);
      assert Enabled(worlds[i], actions[i]) && worlds[i + 1] == After(worlds[i], actions[i]);
      if worlds[i].phase != Check {
        NeverChecksAgain(worlds[i], actions[i]);
      }
    }
  }

  lemma {:induction false} StaysReturned(worlds: seq<World>, actions: seq<Action>, k: nat, i: nat)
    requires IsRun(worlds, actions) && k < i < |worlds| && actions[k].CheckCeph? && Refused(worlds[k])
    ensures worlds[i].phase == Returned(false)
  {
    var a := actions[i - 1];
    assert Enabled(worlds[i - 1], a) && worlds[i] == After(worlds[i - 1], a);
    if i > k + 1 {
      StaysReturned(worlds, actions, k, i - 1);
      NeverChecksAgain(worlds[i - 1], a);
    }
  }

  /**
   A member found to run a monitor in a Ceph cluster of two is refused for
   good: in the whole run, before and after, no step removes it from any
   service, and the request returns an error.
   */
  lemma RefusedRemovesNothing(worlds: seq<World>, actions: seq<Action>, k: nat, i: nat)
    requires IsRun(worlds, actions) && i < |actions|
    requires k < |actions| && actions[k].CheckCeph? && Refused(worlds[k])
    ensures !actions[i].Move?
    ensures worlds[i + 1].services == worlds[i].services || actions[i].Vanish?
    ensures i >= k ==> worlds[i + 1].phase == Returned(false)
  {
    assert Enabled(worlds[i], actions[i]) && worlds[i + 1] == After(worlds[i], actions[i]);
    if i <= k {
      ChecksFirst(worlds, actions, k, i);
    } else {
      StaysReturned(worlds, actions, k, i);
      NeverChecksAgain(worlds[i], actions[i]);
    }
    if i >= k {
      StaysReturned(worlds, actions, k, i + 1);
    }
    if actions[i].CheckCeph? {
      AdvanceKeeps(worlds[i].(phase := First));
    }
  }

  // ----- Ceph's replication -----

  /** The disks on other members. */
  ghost function Elsewhere(disks: seq<string>, name: string): nat {
    |set i | 0 <= i < |disks| && disks[i] != name|
  }

  lemma {:induction false} StayingCounts(disks: seq<string>, name: string)
    ensures Staying(disks, name) == Elsewhere(disks, name)
  {
    if disks != [] {
      var n := |disks| - 1;
      var init := disks[..n];
      StayingCounts(init, name);
      var before, all := set i | 0 <= i < |init| && init[i] != name, set i | 0 <= i < |disks| && disks[i] != name;
      assert all == before + if disks[n] != name then {n} else {};
    }
  }

  lemma {:induction false} OversizedNames(pools: seq<Pool>, count: nat)
    ensures forall n :: n in Oversized(pools, count) <==> exists p :: p in pools && p.size > count && p.name == n
  {
    if pools != [] {
      var init := pools[..|pools| - 1];
      assert pools == init + [pools[|pools| - 1]];
      OversizedNames(init, count);
    }
  }

  /** No pool wants more copies than there are disks on other members. */
  ghost predicate Fits(storage: Storage, name: string) {
    forall k :: 0 <= k < |storage.pools| ==> storage.pools[k].size <= Elsewhere(storage.disks, name)
  }

  /** The plan carried out, every pool fits, and no disk and no pool has gone. */
  lemma ReplicationFits(storage: Storage, name: string)
    ensures var after := Lowered(storage, name);
      Fits(after, name) && after.disks == storage.disks && |after.pools| == |storage.pools|
  {
    var count := Staying(storage.disks, name);
    StayingCounts(storage.disks, name);
    OversizedNames(storage.pools, count);
    forall k | 0 <= k < |storage.pools|
      ensures Lowered(storage, name).pools[k].size <= count
    {
      assert storage.pools[k] in storage.pools;
    }
  }

  ghost predicate NamedApart(pools: seq<Pool>) {
    forall j, k :: 0 <= j < |pools| && 0 <= k < |pools| ==>
      pools[j].name != "" && (pools[j].name == pools[k].name ==> j == k)
  }

  /** Every pool keeps as many copies as before, or one for each disk left where that is less. */
  ghost predicate Trimmed(before: Storage, after: Storage, name: string) {
    && after.disks == before.disks && |after.pools| == |before.pools|
    && forall k :: 0 <= k < |before.pools| ==>
         after.pools[k] == if before.pools[k].size > Elsewhere(before.disks, name)
                           then before.pools[k].(size := Elsewhere(before.disks, name)) else before.pools[k]
  }

  /** Only pools that want too many copies change. */
  lemma LoweredTrims(storage: Storage, name: string)
    requires NamedApart(storage.pools)
    ensures Trimmed(storage, Lowered(storage, name), name)
  {
    var count := Staying(storage.disks, name);
    StayingCounts(storage.disks, name);
    OversizedNames(storage.pools, count);
    forall k | 0 <= k < |storage.pools|
      ensures storage.pools[k].name in ToLower(storage.pools, count) <==> storage.pools[k].size > count
    {
      assert storage.pools[k] in storage.pools;
    }
  }

  lemma TrimmedTwice(a: Storage, b: Storage, name: string)
    requires Trimmed(a, b, name) && NamedApart(a.pools)
    ensures NamedApart(b.pools) && Trimmed(a, Lowered(b, name), name)
  {
    hide Lowered;
    forall k | 0 <= k < |b.pools|
      ensures b.pools[k].name == a.pools[k].name
    {
    }
    LoweredTrims(b, name);
  }

  /**
   Where a request stands with Ceph's storage: as it found it, or trimmed, and trimmed for certain
   once Ceph's hook is about to remove the member. No other hook prepares anything.
   */
  ghost predicate Ready(start: Storage, w: World) {
    && w.storage.disks == start.disks
    && (Get(w.hooks, Ceph) == Deleting ==> Fits(w.storage, w.name))
    && (NamedApart(start.pools) ==> w.storage == start || Trimmed(start, w.storage, w.name))
    && (NamedApart(start.pools) && Get(w.hooks, Ceph) == Deleting ==> Trimmed(start, w.storage, w.name))
    && forall s :: s != Ceph ==> Get(w.hooks, s) != Preparing
  }

  lemma StepReady(start: Storage, w: World, a: Action)
    requires Ready(start, w) && Enabled(w, a)
    ensures Ready(start, After(w, a))
    ensures After(w, a).storage != w.storage ==> a.Move? && a.service == Ceph && Get(w.hooks, Ceph) == Preparing
  {
    match a
    case CheckCeph(works) => AdvanceKeeps(w.(phase := First));
    case Move(s, outcome) =>
      MoveReady(start, w, s, outcome);
      AdvanceKeeps(Moved(w, s, outcome));
    case Vanish(s) =>
  }

  lemma MoveReady(start: Storage, w: World, s: Service, outcome: Outcome)
    requires Ready(start, w) && !Get(w.hooks, s).Over?
    ensures Ready(start, Moved(w, s, outcome))
    ensures Moved(w, s, outcome).storage != w.storage ==> s == Ceph && Get(w.hooks, Ceph) == Preparing
  {
    hide Lowered, Fits, Trimmed, NamedApart, Moved, Has, Get;
    MoveStorage(w, s, outcome);
    MoveHook(w, s, outcome);
    if s == Ceph && Get(w.hooks, Ceph) == Preparing {
      LoweredReady(start, w);
    }
    OtherHooks(w, s, outcome);
  }

  lemma MoveStorage(w: World, s: Service, outcome: Outcome)
    ensures var after := Moved(w, s, outcome);
      after.name == w.name
      && after.storage == if Get(w.hooks, s) == Preparing && outcome != Fails then Lowered(w.storage, w.name)
                          else w.storage
  {
    hide Lowered, Get, Put, Has;
  }

  lemma MoveHook(w: World, s: Service, outcome: Outcome)
    requires !Get(w.hooks, s).Over?
    ensures var after := Get(Moved(w, s, outcome).hooks, s);
      && (after == Preparing ==> s == Ceph)
      && (after == Deleting ==> s != Ceph || (Get(w.hooks, s) == Preparing && outcome != Fails))
  {
    hide Lowered, Has;
  }

  lemma OtherHooks(w: World, s: Service, outcome: Outcome)
    ensures forall t :: t != s ==> Get(Moved(w, s, outcome).hooks, t) == Get(w.hooks, t)
  {
    hide Moved, Get;
    forall t | t != s
      ensures Get(Moved(w, s, outcome).hooks, t) == Get(w.hooks, t)
    {
      MoveKeepsHooks(w, s, outcome, t);
    }
  }

  lemma LoweredReady(start: Storage, w: World)
    requires Ready(start, w)
    ensures var after := Lowered(w.storage, w.name);
      after.disks == start.disks && Fits(after, w.name) && (NamedApart(start.pools) ==> Trimmed(start, after, w.name))
  {
    hide Lowered, Fits, Trimmed, NamedApart;
    ReplicationFits(w.storage, w.name);
    if NamedApart(start.pools) {
      if w.storage == start {
        LoweredTrims(start, w.name);
      } else {
        TrimmedTwice(start, w.storage, w.name);
      }
    }
  }

  lemma {:induction false} RunReady(worlds: seq<World>, actions: seq<Action>, i: nat)
    requires IsRun(worlds, actions) && i < |worlds|
    requires worlds[0] == Begin(worlds[0].name, worlds[0].services, worlds[0].monitor, worlds[0].storage)
    ensures Ready(worlds[0].storage, worlds[i]) && worlds[i].name == worlds[0].name
  {
    hide After, Enabled, Ready;
    if i == 0 {
      BeginsReady(worlds[0].name, worlds[0].services, worlds[0].monitor, worlds[0].storage);
    } else {
      RunReady(worlds, actions, i - 1);
      StepReady(worlds[0].storage, worlds[i - 1], actions[i - 1]);
      KeepsName(worlds[i - 1], actions[i - 1]);
    }
  }

  lemma BeginsReady(name: string, services: Each<Membership>, monitor: bool, storage: Storage)
    ensures Ready(storage, Begin(name, services, monitor, storage))
  {
  }

  /**
   Over every run the step that removes the member from Ceph finds its
   replication lowered: no pool wants more copies than there are disks on the
   members that stay. By then exactly the pools that wanted more have been
   trimmed to that number, and no other hook ever touches a pool.
   */
  lemma CephKeepsItsCopies(worlds: seq<World>, actions: seq<Action>, i: nat)
    requires IsRun(worlds, actions) && i < |actions|
    requires worlds[0] == Begin(worlds[0].name, worlds[0].services, worlds[0].monitor, worlds[0].storage)
    ensures actions[i].Move? && Has(worlds[i], Ceph) && !Has(worlds[i + 1], Ceph) ==>
      && Fits(worlds[i].storage, worlds[0].name)
      && (NamedApart(worlds[0].storage.pools) ==> Trimmed(worlds[0].storage, worlds[i].storage, worlds[0].name))
    ensures worlds[i + 1].storage != worlds[i].storage ==> actions[i].Move? && actions[i].service == Ceph
  {
    hide Fits, Trimmed, After;
    RunReady(worlds, actions, i);
    StepReady(worlds[0].storage, worlds[i], actions[i]);
    assert Enabled(worlds[i], actions[i]) && worlds[i + 1] == After(worlds[i], actions[i]);
    if actions[i].Move? && Has(worlds[i], Ceph) && !Has(worlds[i + 1], Ceph) {
      OnlyDeletingRemoves(worlds[i], actions[i].service, actions[i].outcome);
    }
  }

  lemma OnlyDeletingRemoves(w: World, s: Service, outcome: Outcome)
    requires Enabled(w, Move(s, outcome)) && Has(w, Ceph) && !Has(After(w, Move(s, outcome)), Ceph)
    ensures s == Ceph && Get(w.hooks, Ceph) == Deleting
  {
    AdvanceKeeps(Moved(w, s, outcome));
    MoveHas(w, s, outcome, Ceph);
  }

  /** The plan as the loops make it: the disks that stay are counted, then the pools too large for them collected. */
  method PlanReplication(disks: seq<string>, pools: seq<Pool>, name: string)
      returns (names: seq<string>, diskCount: nat)
    ensures diskCount == Staying(disks, name) && names == ToLower(pools, diskCount)
  {
    diskCount := 0;
    for i := 0 to |disks|
      invariant diskCount == Staying(disks[..i], name)
    {
      assert disks[..i + 1][..i] == disks[..i];
      if disks[i] != name {
        diskCount := diskCount + 1;
      }
    }
    assert disks[..|disks|] == disks;
    names := [];
    for i := 0 to |pools|
      invariant names == Oversized(pools[..i], diskCount)
    {
      assert pools[..i + 1][..i] == pools[..i];
      if pools[i].size > diskCount {
        names := names + [pools[i].name];
      }
    }
    assert pools[..|pools|] == pools;
    if |names| == 0 {
      names := [""];
    }
  }

  // ----- The object -----

  /** A removal request: what the hooks share and change. */
  class Request {
    const name: string
    const monitor: bool
    var services: Each<Membership>
    var hooks: Each<Hook>
    var phase: Phase
    var memberExists: bool
    /** Ceph's own; the request reads it and has its pools resized. */
    var storage: Storage

    ghost function Contents(): World
      reads this
    {
      World(name, services, monitor, hooks, phase, memberExists, storage)
    }

    constructor (who: string, installed: Each<Membership>, runsMonitor: bool, ceph: Storage)
      ensures Contents() == Begin(who, installed, runsMonitor, ceph) && Ordered(Contents())
    {
      name, monitor, services := who, runsMonitor, installed;
      hooks := FirstHooks(installed);
      phase, memberExists, storage := Check, false, ceph;
      BeginsOrdered(who, installed, runsMonitor, ceph);
    }

    /** RunConcurrent between hooks: the next service, the wait for the middle ones, or the return. */
    method Continue()
      modifies this`phase
      ensures Contents() == Advance(old(Contents()))
    {
      if phase == First && hooks.incus.Over? {
        phase := if hooks.incus.ok then Middle else Returned(false);
      }
      assert Advance(Contents()) == Advance(old(Contents()));
      if phase == Middle && hooks.ceph.Over? && hooks.ovn.Over? {
        phase := if hooks.ceph.ok && hooks.ovn.ok then Last else Returned(false);
      }
      assert Advance(Contents()) == Advance(old(Contents()));
      if phase == Last && hooks.cloud.Over? {
        phase := Returned(hooks.cloud.ok);
      }
      assert Advance(Contents()) == Advance(old(Contents()));
    }

    method CheckMonitor(works: bool)
      requires Ordered(Contents()) && phase == Check
      modifies this`phase
      ensures Contents() == After(old(Contents()), CheckCeph(works)) && Ordered(Contents())
    {
      StepOrdered(Contents(), CheckCeph(works));
      if !services.ceph.Absent? && (!works || (services.ceph.Clustered? && name in services.ceph.members
        && |services.ceph.members| == 2 && monitor)) {
        phase := Returned(false);
        return;
      }
      phase := First;
      Continue();
    }

    /** The next call a hook makes. */
    method RunHook(s: Service, outcome: Outcome)
      requires Ordered(Contents()) && Enabled(Contents(), Move(s, outcome))
      modifies this
      ensures Contents() == After(old(Contents()), Move(s, outcome)) && Ordered(Contents())
    {
      StepOrdered(Contents(), Move(s, outcome));
      match Get(hooks, s) {
        case Todo => Ask(s, outcome);
        case Preparing => Prepare(s, outcome);
        case Deleting => Delete(s, outcome);
      }
      Continue();
    }

    method Ask(s: Service, outcome: Outcome)
      requires Get(hooks, s) == Todo
      modifies this
      ensures Contents() == Moved(old(Contents()), s, outcome)
    {
      var membership := Get(services, s);
      if outcome != Works {
        hooks := Put(hooks, s, Over(false));
      } else if !membership.Clustered? || name !in membership.members {
        hooks := Put(hooks, s, Over(true));
      } else {
        memberExists := true;
        hooks := Put(hooks, s, if s == Ceph then Preparing else Deleting);
      }
    }

    /** Lowering the replication: the plan, made here, and the request that carries it out. */
    method Prepare(s: Service, outcome: Outcome)
      requires Get(hooks, s) == Preparing
      modifies this
      ensures Contents() == Moved(old(Contents()), s, outcome)
    {
      var names, diskCount := PlanReplication(storage.disks, storage.pools, name);
      if outcome != Fails {
        storage := storage.(pools := Resized(storage.pools, names, diskCount));
      }
      hooks := Put(hooks, s, if outcome == Works then Deleting else Over(false));
    }

    method Delete(s: Service, outcome: Outcome)
      requires Get(hooks, s) == Deleting
      modifies this
      ensures Contents() == Moved(old(Contents()), s, outcome)
    {
      if outcome != Fails {
        services := Put(services, s, Forget(Get(services, s), name));
      }
      hooks := Put(hooks, s, Over(outcome == Works));
    }
  }
}
