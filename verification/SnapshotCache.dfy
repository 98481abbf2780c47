/**
 The cache of loaded snapshots (incuscloud/server/src/acl/acl.ts, snapshot and
 invalidate): calls, loads, failures and invalidations overlapping in any
 order. Between two awaits the code runs undisturbed, so each step below is
 one such stretch.
 */
module SnapshotCache {
  import opened Text

  datatype Status = Running | Loaded | Failed

  /** A load: when it began, the version of the tables then, and whether its failure has been seen by the cache. */
  datatype Run = Run(at: int, version: nat, status: Status, cleared: bool)

  datatype Phase =
    | Awaiting(load: nat)               // the cached load
    | Reusing(load: nat, checkedAt: int)
    | Loading(load: nat)                // its own load

  /** A call: when it began, and what had been invalidated by then. */
  datatype Call = Call(begunAt: int, floor: nat, needs: nat, phase: Phase)

  /** `floor` loads had begun, and the tables were at version `needs`, at the last invalidation. */
  datatype State = State(now: int, version: nat, snap: Option<nat>, loads: seq<Run>, calls: seq<Call>, floor: nat,
      needs: nat)

  datatype Event =
    | Begin
    | Resume(call: nat)
    | Settle(load: nat, ok: bool)
    | Clear(load: nat)
    | Invalidate
    | Write
    | Tick(ms: nat)

  const INITIAL := State(0, 0, None, [], [], 0, 0)

  function NewRun(s: State): Run {
    Run(s.now, s.version, Running, false)
  }

  function Step(s: State, e: Event, ttl: int): State {
    match e
    case Begin =>
      if s.snap.Some? then s.(calls := s.calls + [Call(s.now, s.floor, s.needs, Awaiting(s.snap.value))])
      else s.(calls := s.calls + [Call(s.now, s.floor, s.needs, Loading(|s.loads|))],
              loads := s.loads + [NewRun(s)], snap := Some(|s.loads|))
    case Resume(c) =>
      if c < |s.calls| && s.calls[c].phase.Awaiting? && s.calls[c].phase.load < |s.loads|
         && !s.loads[s.calls[c].phase.load].status.Running? then
        var l := s.calls[c].phase.load;
        if s.loads[l].status.Loaded? && s.now - s.loads[l].at < ttl then
          s.(calls := s.calls[c := s.calls[c].(phase := Reusing(l, s.now))])
        else
          s.(calls := s.calls[c := s.calls[c].(phase := Loading(|s.loads|))],
             loads := s.loads + [NewRun(s)], snap := Some(|s.loads|))
      else s
    case Settle(l, ok) =>
      if l < |s.loads| && s.loads[l].status.Running? then
        s.(loads := s.loads[l := s.loads[l].(status := if ok then Loaded else Failed)])
      else s
    case Clear(l) =>
      if l < |s.loads| && s.loads[l].status.Failed? && !s.loads[l].cleared then
        s.(loads := s.loads[l := s.loads[l].(cleared := true)], snap := if s.snap == Some(l) then None else s.snap)
      else s
    case Invalidate => s.(snap := None, floor := |s.loads|, needs := s.version)
    case Write => s.(version := s.version + 1)
    case Tick(ms) => s.(now := s.now + ms)
  }

  ghost function After(s: State, events: seq<Event>, ttl: int): State
    decreases |events|
  {
    if events == [] then s else After(Step(s, events[0], ttl), events[1..], ttl)
  }

  /** The load a call's answer comes from, once it has settled on one. */
  predicate Uses(c: Call, l: nat) {
    !c.phase.Awaiting? && c.phase.load == l
  }

  ghost predicate Sound(s: State, ttl: int) {
    && (s.snap.Some? ==>
      s.snap.value < |s.loads| && s.floor <= s.snap.value && s.needs <= s.loads[s.snap.value].version)
    && s.floor <= |s.loads| && s.needs <= s.version
    && (forall l :: 0 <= l < |s.loads| ==> 
          s.loads[l].version <= s.version && s.loads[l].at <= s.now
            && (s.loads[l].cleared ==> s.loads[l].status.Failed?))
    && (forall l :: s.floor <= l < |s.loads| ==> s.needs <= s.loads[l].version)
    // A failed load stays cached only until its failure is seen.
    && (s.snap.Some? && s.loads[s.snap.value].status.Failed? ==> !s.loads[s.snap.value].cleared)
    && (forall c :: c in s.calls ==> CallSound(s, c, ttl))
  }

  ghost predicate CallSound(s: State, c: Call, ttl: int) {
    && c.floor <= s.floor && c.needs <= s.needs && c.begunAt <= s.now
    && c.floor <= c.phase.load < |s.loads|
    && c.needs <= s.loads[c.phase.load].version
    && (c.phase.Reusing? ==>
          s.loads[c.phase.load].status.Loaded? && c.phase.checkedAt - s.loads[c.phase.load].at < ttl
            && c.begunAt <= c.phase.checkedAt)
    && (c.phase.Loading? ==> c.begunAt <= s.loads[c.phase.load].at)
  }

  lemma StepSound(s: State, e: Event, ttl: int)
    requires Sound(s, ttl)
    ensures Sound(Step(s, e, ttl), ttl)
  {
    hide CallSound;
    var t := Step(s, e, ttl);
    forall c | c in t.calls
      ensures CallSound(t, c, ttl)
    {
      if c in s.calls {
        CallStays(s, e, ttl, c);
      } else {
        CallChanges(s, e, ttl, c);
      }
    }
  }

  lemma CallStays(s: State, e: Event, ttl: int, c: Call)
    requires Sound(s, ttl) && c in s.calls
    ensures CallSound(Step(s, e, ttl), c, ttl)
  {
    assert CallSound(s, c, ttl);
  }

  lemma CallChanges(s: State, e: Event, ttl: int, c: Call)
    requires Sound(s, ttl) && c in Step(s, e, ttl).calls && c !in s.calls
    ensures CallSound(Step(s, e, ttl), c, ttl)
  {
    assert e.Begin? || e.Resume?;
    if e.Resume? {
      assert CallSound(s, s.calls[e.call], ttl);
    }
  }

  lemma {:induction false} RunsSound(s: State, events: seq<Event>, ttl: int)
    requires Sound(s, ttl)
    ensures Sound(After(s, events, ttl), ttl)
    decreases |events|
  {
    if events != [] {
      StepSound(s, events[0], ttl);
      RunsSound(Step(s, events[0], ttl), events[1..], ttl);
    }
  }

  /**
   In every run, a call that began after an invalidation uses only loads begun after it, so it sees
   every change made before it.
   */
  lemma CallsSeeInvalidatedChanges(events: seq<Event>, ttl: int, c: Call, l: nat)
    requires c in After(INITIAL, events, ttl).calls && Uses(c, l)
    ensures var s := After(INITIAL, events, ttl);
      c.floor <= l < |s.loads| && s.loads[l].version >= c.needs
  {
    RunsSound(INITIAL, events, ttl);
  }

  /**
   And what `floor` and `needs` mean: a call beginning right after an invalidation carries that
   moment's loads and version.
   */
  lemma CallAfterInvalidate(s: State, events: seq<Event>, ttl: int)
    requires Sound(s, ttl)
    ensures var invalidated := Step(s, Invalidate, ttl);
      var t := After(invalidated, events, ttl);
      var begun := Step(t, Begin, ttl);
      |begun.calls| == |t.calls| + 1
      && begun.calls[|t.calls|].floor >= |s.loads| && begun.calls[|t.calls|].needs >= s.version
  {
    StepSound(s, Invalidate, ttl);
    FloorsRise(Step(s, Invalidate, ttl), events, ttl);
  }

  lemma {:induction false} FloorsRise(s: State, events: seq<Event>, ttl: int)
    requires Sound(s, ttl)
    ensures After(s, events, ttl).floor >= s.floor && After(s, events, ttl).needs >= s.needs
    decreases |events|
  {
    if events != [] {
      StepSound(s, events[0], ttl);
      FloorsRise(Step(s, events[0], ttl), events[1..], ttl);
    }
  }

  /**
   In every run, a reused snapshot was loaded, and younger than the TTL when checked; any other began
   within its call.
   */
  lemma AnswersAreFresh(events: seq<Event>, ttl: int, c: Call)
    requires c in After(INITIAL, events, ttl).calls && !c.phase.Awaiting?
    ensures var s := After(INITIAL, events, ttl);
      c.phase.load < |s.loads|
      && if c.phase.Reusing? then
           s.loads[c.phase.load].status.Loaded? && c.phase.checkedAt < s.loads[c.phase.load].at + ttl
             && c.begunAt <= c.phase.checkedAt
         else s.loads[c.phase.load].at >= c.begunAt
  {
    RunsSound(INITIAL, events, ttl);
  }

  /** In every run, the cached load is no failed one whose failure has been seen: the call after that loads again. */
  lemma FailuresAreNotKept(events: seq<Event>, ttl: int)
    ensures var s := After(INITIAL, events, ttl);
      s.snap.Some? ==>
        s.snap.value < |s.loads| && (s.loads[s.snap.value].status.Failed? ==> !s.loads[s.snap.value].cleared)
  {
    RunsSound(INITIAL, events, ttl);
  }

  /** Calls that come while nothing has been loaded yet share one load; what it says decides what the next one does. */
  lemma CallsShareOneLoad(s: State, ttl: int)
    requires s.snap.None?
    ensures var l := |s.loads|;
      var t := Step(Step(s, Begin, ttl), Begin, ttl);
      && |t.loads| == l + 1 && t.snap == Some(l)
      && |t.calls| == |s.calls| + 2 && t.calls[|s.calls|].phase.load == l && t.calls[|s.calls| + 1].phase.load == l
  {
  }

  /** A load that works is reused by the calls that wait for it; one that fails is loaded again by the next. */
  lemma SettlingDecides(s: State, l: nat, ttl: int)
    requires s.snap == Some(l) && l < |s.loads| && s.loads[l].status.Running? && s.now < s.loads[l].at + ttl
    ensures var waiting := Step(s, Begin, ttl);
      var n := |s.calls|;
      var good := Step(Step(waiting, Settle(l, true), ttl), Resume(n), ttl);
      var bad := Step(Step(waiting, Settle(l, false), ttl), Resume(n), ttl);
      && |good.calls| == n + 1 && good.calls[n].phase == Reusing(l, s.now) && |good.loads| == |s.loads|
      && |bad.calls| == n + 1 && bad.calls[n].phase == Loading(|s.loads|) && |bad.loads| == |s.loads| + 1
  {
  }

  /** The failure once seen is forgotten with its load, unless another has been cached meanwhile. */
  lemma FailureIsForgotten(s: State, l: nat, ttl: int)
    requires Sound(s, ttl) && l < |s.loads| && s.loads[l].status.Running?
    ensures var t := Step(Step(s, Settle(l, false), ttl), Clear(l), ttl);
      && t.snap == (if s.snap == Some(l) then None else s.snap)
      && t.loads == s.loads[l := s.loads[l].(status := Failed, cleared := true)] && Step(t, Clear(l), ttl) == t
  {
  }

  /** What is written before an invalidation is seen by every call after it: its load is of a later version. */
  lemma WritesAreSeen(s: State, events: seq<Event>, ttl: int)
    requires Sound(s, ttl)
    ensures var t := After(Step(Step(s, Write, ttl), Invalidate, ttl), events, ttl);
      var begun := Step(t, Begin, ttl);
      |begun.calls| == |t.calls| + 1 && begun.calls[|t.calls|].needs > s.version
  {
    StepSound(s, Write, ttl);
    CallAfterInvalidate(Step(s, Write, ttl), events, ttl);
  }

  /** A snapshot expires: once the TTL has passed, a call that finds it loads again. */
  lemma SnapshotExpires(s: State, ms: nat, ttl: int)
    requires s.snap.Some? && s.snap.value < |s.loads| && s.loads[s.snap.value].status.Loaded?
    requires s.now + ms >= s.loads[s.snap.value].at + ttl
    ensures var t := Step(Step(Step(s, Tick(ms), ttl), Begin, ttl), Resume(|s.calls|), ttl);
      |t.calls| == |s.calls| + 1 && t.calls[|s.calls|].phase == Loading(|s.loads|) && t.snap == Some(|s.loads|)
  {
  }

  /** A call that meets a loaded snapshot younger than the TTL is answered by it, and nothing is loaded. */
  lemma YoungIsReused(s: State, ttl: int)
    requires s.snap.Some? && s.snap.value < |s.loads| && s.loads[s.snap.value].status.Loaded?
    requires s.now < s.loads[s.snap.value].at + ttl
    ensures var t := Step(Step(s, Begin, ttl), Resume(|s.calls|), ttl);
      && |t.calls| == |s.calls| + 1 && t.calls[|s.calls|].phase == Reusing(s.snap.value, s.now)
      && t.loads == s.loads && t.snap == s.snap
  {
  }

  /** Calls that wait for one that has expired are not told of each other: each loads again. */
  lemma ExpiredIsLoadedTwice(s: State, ttl: int)
    requires s.snap.Some? && s.snap.value < |s.loads| && s.loads[s.snap.value].status.Loaded?
    requires s.now >= s.loads[s.snap.value].at + ttl
    ensures var n := |s.calls|;
      var t := After(s, [Begin, Begin] + [Resume(n), Resume(n + 1)], ttl);
      |t.loads| == |s.loads| + 2 && t.snap == Some(|s.loads| + 1) && |t.calls| == n + 2
      && Uses(t.calls[n], |s.loads|) && Uses(t.calls[n + 1], |s.loads| + 1)
  {
    var n := |s.calls|;
    var events := [Begin, Begin] + [Resume(n), Resume(n + 1)];
    assert events[0] == Begin && events[1] == Begin && events[2] == Resume(n) && events[3] == Resume(n + 1);
    AfterFour(s, events, ttl);
  }

  lemma AfterFour(s: State, events: seq<Event>, ttl: int)
    requires |events| == 4
    ensures After(s, events, ttl)
         == Step(Step(Step(Step(s, events[0], ttl), events[1], ttl), events[2], ttl), events[3], ttl)
  {
    hide Step;
    assert events[1..][1..][1..][1..] == [];
    assert events[1..][0] == events[1] && events[1..][1..][0] == events[2];
    assert events[1..][1..][1..][0] == events[3];
    var s1 := Step(s, events[0], ttl);
    var s2 := Step(s1, events[1], ttl);
    var s3 := Step(s2, events[2], ttl);
    assert After(s2, events[1..][1..], ttl) == After(s3, events[1..][1..][1..], ttl);
    assert After(s3, events[1..][1..][1..], ttl) == After(Step(s3, events[3], ttl), [], ttl);
  }

  /** What a finished load says is final: a call is answered by a loaded snapshot or by the load's error, never both. */
  lemma {:induction false} SettledStaysSettled(s: State, events: seq<Event>, ttl: int, l: nat)
    requires l < |s.loads| && !s.loads[l].status.Running?
    ensures var t := After(s, events, ttl);
      l < |t.loads| && t.loads[l].(cleared := true) == s.loads[l].(cleared := true)
    decreases |events|
  {
    if events != [] {
      SettledStaysSettled(Step(s, events[0], ttl), events[1..], ttl, l);
    }
  }

  /** The cache object. Loads are the promises it hands out. */
  class Cache {
    const ttlMs: int
    var now: int
    var version: nat
    var snap: Option<nat>
    var loads: seq<Run>
    // Not in the code: the callers suspended on the loads, and what had been invalidated, for stating what calls see.
    ghost var calls: seq<Call>
    ghost var floor: nat
    ghost var needs: nat

    ghost function Now(): State
      reads this
    {
      State(now, version, snap, loads, calls, floor, needs)
    }

    constructor (ttl: int)
      ensures Now() == INITIAL && ttlMs == ttl
    {
      ttlMs := ttl;
      now, version, snap, loads, calls, floor, needs := 0, 0, None, [], [], 0, 0;
    }

    method Invalidate()
      modifies this
      ensures Now() == Step(old(Now()), Event.Invalidate, ttlMs)
    {
      snap := None;
      floor, needs := |loads|, version;
    }

    /** Starting a load is synchronous: its time is taken, then it is cached. */
    method StartLoad() returns (next: nat)
      modifies this`loads, this`snap
      ensures next == |old(loads)| && loads == old(loads) + [NewRun(old(Now()))] && snap == Some(next)
    {
      next := |loads|;
      loads := loads + [Run(now, version, Running, false)];
      snap := Some(next);
    }

    /** A call up to its first await: the load it waits for is the cached one, or one it starts at once. */
    method BeginCall() returns (load: nat, cached: bool, ghost call: nat)
      modifies this
      ensures Now() == Step(old(Now()), Begin, ttlMs) && call == |old(calls)|
      ensures calls[call].phase == if cached then Awaiting(load) else Loading(load)
    {
      call := |calls|;
      cached := snap.Some?;
      if cached {
        load := snap.value;
        calls := calls + [Call(now, floor, needs, Awaiting(load))];
      } else {
        load := StartLoad();
        calls := calls + [Call(now, floor, needs, Loading(load))];
      }
    }

    /** The cached load has settled: reuse it while it is young, else load again. */
    method ResumeCall(cur: nat, ghost call: nat) returns (load: nat, reused: bool)
      requires call < |calls| && calls[call].phase == Awaiting(cur) && cur < |loads| && !loads[cur].status.Running?
      modifies this
      ensures Now() == Step(old(Now()), Resume(call), ttlMs)
      ensures calls[call].phase == if reused then Reusing(load, now) else Loading(load)
    {
      reused := loads[cur].status.Loaded? && now - loads[cur].at < ttlMs;
      if reused {
        load := cur;
        calls := calls[call := calls[call].(phase := Reusing(cur, now))];
      } else {
        load := StartLoad();
        calls := calls[call := calls[call].(phase := Loading(load))];
      }
    }

    /** The handler of a failed load: it drops the load unless another took its place. */
    method ClearFailed(load: nat)
      requires load < |loads| && loads[load].status.Failed? && !loads[load].cleared
      modifies this
      ensures Now() == Step(old(Now()), Clear(load), ttlMs)
    {
      if snap == Some(load) {
        snap := None;
      }
      loads := loads[load := loads[load].(cleared := true)];
    }
  }
}
