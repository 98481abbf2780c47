/**
 The websockets that bring in the clusters' lifecycle events
 (incuscloud/server/src/acl/lifecycle.ts, class Lifecycle): connecting,
 reconnecting with backoff, following enrolments, and stopping. Each step is
 one stretch of code between two awaits or one callback.
 */
module Streams {
  import opened Text

  /** Whether the stream's connection attempt is still out, and what became of it. */
  datatype Phase = Connecting | Connected | Failed

  /** A stream object, told apart from later ones for the same cluster by its index. */
  datatype Stream = Stream(cluster: string, ws: Option<nat>, backoff: nat, timer: bool, phase: Phase)

  /** A websocket: whose it is, whether it is open, and whether its close has been reported. */
  datatype Socket = Socket(stream: nat, live: bool, reported: bool)

  datatype State = State(stopped: bool, refreshing: nat, interval: bool, streams: map<string, nat>, all: seq<Stream>,
      sockets: seq<Socket>)

  datatype Limits = Limits(min: nat, max: nat)

  const IDLE := State(true, 0, false, map[], [], [])

  datatype Event =
    | Start
    | Stop
    | IntervalFires
    | RefreshEnds(rows: seq<string>)   // the enabled clusters, as the query read them
    | RefreshFails
    | ConnectSucceeds(stream: nat)
    | ConnectFails(stream: nat)
    | PeerCloses(socket: nat)
    | CloseReported(socket: nat)
    | TimerFires(stream: nat)

  predicate Current(s: State, i: nat) {
    i < |s.all| && s.all[i].cluster in s.streams && s.streams[s.all[i].cluster] == i
  }

  function Open(s: State, cluster: string, backoff: nat): State {
    if s.stopped then s
    else s.(streams := s.streams[cluster := |s.all|],
      all := s.all + [Stream(cluster, None, backoff, false, Connecting)])
  }

  function Retry(s: State, i: nat): State {
    if s.stopped || !Current(s, i) then s
    else s.(all := s.all[i := s.all[i].(timer := true)])
  }

  function Terminated(s: State, ws: Option<nat>): seq<Socket> {
    if ws.Some? && ws.value < |s.sockets| then s.sockets[ws.value := s.sockets[ws.value].(live := false)] else s.sockets
  }

  /** Dropping one cluster's stream: its timer is cleared, its websocket terminated. */
  function Drop(s: State, cluster: string): State {
    if cluster in s.streams && s.streams[cluster] < |s.all| then
      var i := s.streams[cluster];
      s.(streams := s.streams - {cluster}, all := s.all[i := s.all[i].(timer := false)],
        sockets := Terminated(s, s.all[i].ws))
    else s
  }

  /** Dropping several at once. */
  ghost function DropAll(s: State, gone: set<string>): State {
    s.(streams := s.streams - gone,
       all := seq(|s.all|, i requires 0 <= i < |s.all| =>
                if s.all[i].cluster in gone && Current(s, i) then s.all[i].(timer := false) else s.all[i]),
       sockets := seq(|s.sockets|, w requires 0 <= w < |s.sockets| =>
                    if HeldByOne(s, w, gone) then s.sockets[w].(live := false) else s.sockets[w]))
  }

  /** Dropped, but still in the map: what stopping does before it clears the map. */
  ghost function Cleared(s: State, gone: set<string>): State {
    DropAll(s, gone).(streams := s.streams)
  }

  ghost predicate HeldByOne(s: State, w: nat, gone: set<string>) {
    exists i :: 0 <= i < |s.all| && s.all[i].ws == Some(w) && s.all[i].cluster in gone && Current(s, i)
  }

  function OpenMissing(s: State, rows: seq<string>, min: nat): State
    decreases |rows|
  {
    if rows == [] then s
    else OpenMissing(if rows[0] in s.streams then s else Open(s, rows[0], min), rows[1..], min)
  }

  ghost function Refreshed(s: State, rows: seq<string>, min: nat): State {
    OpenMissing(DropAll(s, set c | c in s.streams && c !in rows), rows, min)
  }

  ghost function Step(s: State, e: Event, l: Limits): State {
    match e
    case Start => if !s.stopped then s else s.(stopped := false, refreshing := s.refreshing + 1, interval := true)
    case Stop => DropAll(s, s.streams.Keys).(stopped := true, interval := false)
    case IntervalFires => if s.interval then s.(refreshing := s.refreshing + 1) else s
    case RefreshEnds(rows) => if s.refreshing > 0 then Refreshed(s.(refreshing := s.refreshing - 1), rows, l.min) else s
    case RefreshFails => if s.refreshing > 0 then s.(refreshing := s.refreshing - 1) else s
    case ConnectSucceeds(i) =>
      if i < |s.all| && s.all[i].phase == Connecting then
        var w := |s.sockets|;
        if s.stopped || !Current(s, i) then
          // The websocket is terminated at once and nothing listens to it.
          s.(all := s.all[i := s.all[i].(phase := Connected)], sockets := s.sockets + [Socket(i, false, true)])
        else
          s.(all := s.all[i := s.all[i].(phase := Connected, ws := Some(w), backoff := l.min)],
             sockets := s.sockets + [Socket(i, true, false)])
      else s
    case ConnectFails(i) =>
      if i < |s.all| && s.all[i].phase == Connecting then Retry(s.(all := s.all[i := s.all[i].(phase := Failed)]), i)
      else s
    case PeerCloses(w) => if w < |s.sockets| then s.(sockets := s.sockets[w := s.sockets[w].(live := false)]) else s
    case CloseReported(w) =>
      if w < |s.sockets| && !s.sockets[w].live && !s.sockets[w].reported then
        Retry(s.(sockets := s.sockets[w := s.sockets[w].(reported := true)]), s.sockets[w].stream)
      else s
    case TimerFires(i) =>
      if i < |s.all| && s.all[i].timer then
        var t := s.(all := s.all[i := s.all[i].(timer := false)]);
        if Current(s, i) then
          var twice := 2 * s.all[i].backoff;
          Open(t, s.all[i].cluster, if twice < l.max then twice else l.max)
        else t
      else s
  }

  ghost function After(s: State, events: seq<Event>, l: Limits): State
    decreases |events|
  {
    if events == [] then s else After(Step(s, events[0], l), events[1..], l)
  }

  ghost predicate StreamOk(s: State, i: nat, l: Limits)
    requires i < |s.all|
  {
    var x := s.all[i];
    && l.min <= x.backoff <= l.max
    && (x.ws.Some? ==> x.phase == Connected && x.ws.value < |s.sockets| && s.sockets[x.ws.value].stream == i)
    // A pending timer belongs to the cluster's current stream, which has nothing open and nothing under way.
    && (x.timer ==> Current(s, i) && x.phase != Connecting)
    && (x.timer && x.ws.Some? ==> !s.sockets[x.ws.value].live && s.sockets[x.ws.value].reported)
    // A current stream is connecting, connected, waiting to retry, or about to be told that it closed.
    && (Current(s, i) ==>
          || x.phase == Connecting
          || x.timer
          || (x.ws.Some? && (s.sockets[x.ws.value].live || !s.sockets[x.ws.value].reported)))
  }

  ghost predicate SocketOk(s: State, w: nat)
    requires w < |s.sockets|
  {
    var x := s.sockets[w];
    && x.stream < |s.all|
    // An open websocket is the one its cluster's current stream keeps, and is still listened to.
    && (x.live ==> Current(s, x.stream) && s.all[x.stream].ws == Some(w) && !x.reported)
    && (!x.reported ==> s.all[x.stream].ws == Some(w))
  }

  ghost predicate Sound(s: State, l: Limits) {
    && (s.stopped ==> s.streams == map[] && !s.interval)
    && (forall c :: c in s.streams ==> s.streams[c] < |s.all| && s.all[s.streams[c]].cluster == c)
    && (forall i :: 0 <= i < |s.all| ==> StreamOk(s, i, l))
    && (forall w :: 0 <= w < |s.sockets| ==> SocketOk(s, w))
  }

  /** Nothing of the stream that a new one would replace is still running. */
  ghost predicate Idle(s: State, cluster: string) {
    cluster in s.streams ==>
      forall w :: 0 <= w < |s.sockets| && s.sockets[w].stream == s.streams[cluster] ==> !s.sockets[w].live
  }

  ghost predicate TimerOff(s: State, cluster: string) {
    cluster in s.streams && s.streams[cluster] < |s.all| ==> !s.all[s.streams[cluster]].timer
  }

  lemma OpenSound(s: State, cluster: string, backoff: nat, l: Limits)
    requires Sound(s, l) && l.min <= backoff <= l.max && Idle(s, cluster) && TimerOff(s, cluster)
    ensures Sound(Open(s, cluster, backoff), l)
  {
    if !s.stopped {
      var t := Open(s, cluster, backoff);
      forall i | 0 <= i < |t.all|
        ensures StreamOk(t, i, l)
      {
        if i < |s.all| {
          assert StreamOk(s, i, l);
          assert s.all[i].cluster != cluster ==> Current(t, i) == Current(s, i);
        }
      }
      forall w | 0 <= w < |t.sockets|
        ensures SocketOk(t, w)
      {
        assert SocketOk(s, w);
        var i := s.sockets[w].stream;
        assert s.all[i].cluster != cluster ==> Current(t, i) == Current(s, i);
      }
    }
  }

  lemma RetrySound(s: State, i: nat, l: Limits)
    requires i < |s.all| && s.all[i].phase != Connecting
    requires s.all[i].ws.Some? ==>
      var w := s.all[i].ws.value; w < |s.sockets| && !s.sockets[w].live && s.sockets[w].reported
    requires SoundBut(s, i, l)
    ensures Sound(Retry(s, i), l)
  {
    var t := Retry(s, i);
    forall j | 0 <= j < |t.all|
      ensures StreamOk(t, j, l)
    {
      assert j != i ==> StreamOk(s, j, l);
      assert Current(t, j) == Current(s, j);
    }
    forall w | 0 <= w < |t.sockets|
      ensures SocketOk(t, w)
    {
      assert SocketOk(s, w);
      assert Current(t, s.sockets[w].stream) == Current(s, s.sockets[w].stream);
    }
  }

  ghost predicate HalfOk(s: State, i: nat, l: Limits)
    requires i < |s.all|
  {
    var x := s.all[i];
    && l.min <= x.backoff <= l.max
    && (x.ws.Some? ==> x.phase == Connected && x.ws.value < |s.sockets| && s.sockets[x.ws.value].stream == i)
    && (x.timer ==> Current(s, i))
  }

  /** Sound, save that stream `i` may be left with nothing to do. */
  ghost predicate SoundBut(s: State, i: nat, l: Limits) {
    && (s.stopped ==> s.streams == map[] && !s.interval)
    && (forall c :: c in s.streams ==> s.streams[c] < |s.all| && s.all[s.streams[c]].cluster == c)
    && (forall j :: 0 <= j < |s.all| && j != i ==> StreamOk(s, j, l))
    && (i < |s.all| ==> HalfOk(s, i, l))
    && (forall w :: 0 <= w < |s.sockets| ==> SocketOk(s, w))
  }

  lemma DropAllSound(s: State, gone: set<string>, l: Limits)
    requires Sound(s, l) && gone <= s.streams.Keys
    ensures Sound(DropAll(s, gone), l)
  {
    var t := DropAll(s, gone);
    forall i | 0 <= i < |t.all|
      ensures StreamOk(t, i, l)
    {
      assert StreamOk(s, i, l);
      DropKeepsOthers(s, gone, i, l);
    }
    forall w | 0 <= w < |t.sockets|
      ensures SocketOk(t, w)
    {
      assert SocketOk(s, w);
      var i := s.sockets[w].stream;
      assert StreamOk(s, i, l);
      if t.sockets[w].live {
        assert !HeldByOne(s, w, gone);
        assert s.all[i].cluster !in gone;
      }
    }
  }

  /** A stream that is kept keeps its websocket as it was. */
  lemma DropKeepsOthers(s: State, gone: set<string>, i: nat, l: Limits)
    requires Sound(s, l) && i < |s.all|
    ensures Current(DropAll(s, gone), i) == (Current(s, i) && s.all[i].cluster !in gone)
    ensures s.all[i].ws.Some? ==> s.all[i].ws.value < |s.sockets|
    ensures s.all[i].ws.Some? ==>
      var before, after := s.sockets[s.all[i].ws.value], DropAll(s, gone).sockets[s.all[i].ws.value];
      && after.reported == before.reported && after.stream == i && (after.live ==> before.live)
      && (Current(DropAll(s, gone), i) ==> after == before)
  {
    var t := DropAll(s, gone);
    assert StreamOk(s, i, l);
    if s.all[i].ws.Some? {
      var w := s.all[i].ws.value;
      if HeldByOne(s, w, gone) {
        var j :| 0 <= j < |s.all| && s.all[j].ws == Some(w) && s.all[j].cluster in gone && Current(s, j);
        assert StreamOk(s, j, l);
      }
    }
  }

  lemma {:induction false} OpenMissingSound(s: State, rows: seq<string>, l: Limits)
    requires Sound(s, l) && l.min <= l.max
    ensures Sound(OpenMissing(s, rows, l.min), l)
    decreases |rows|
  {
    if rows != [] {
      if rows[0] !in s.streams {
        OpenSound(s, rows[0], l.min, l);
        OpenMissingSound(Open(s, rows[0], l.min), rows[1..], l);
      } else {
        OpenMissingSound(s, rows[1..], l);
      }
    }
  }

  lemma ConnectSound(s: State, i: nat, l: Limits)
    requires Sound(s, l) && l.min <= l.max && i < |s.all| && s.all[i].phase == Connecting
    ensures Sound(Step(s, ConnectSucceeds(i), l), l)
  {
    var t := Step(s, ConnectSucceeds(i), l);
    assert StreamOk(s, i, l);
    forall j | 0 <= j < |t.all|
      ensures StreamOk(t, j, l)
    {
      assert StreamOk(s, j, l);
      assert Current(t, j) == Current(s, j);
    }
    forall w | 0 <= w < |t.sockets|
      ensures SocketOk(t, w)
    {
      if w < |s.sockets| {
        assert SocketOk(s, w);
        assert s.sockets[w].stream == i ==> s.sockets[w].reported;
      }
    }
  }

  lemma ConnectFailsSound(s: State, i: nat, l: Limits)
    requires Sound(s, l) && i < |s.all| && s.all[i].phase == Connecting
    ensures Sound(Step(s, ConnectFails(i), l), l)
  {
    var t := s.(all := s.all[i := s.all[i].(phase := Failed)]);
    assert StreamOk(s, i, l);
    forall j | 0 <= j < |t.all| && j != i
      ensures StreamOk(t, j, l)
    {
      assert StreamOk(s, j, l);
      assert Current(t, j) == Current(s, j);
    }
    forall w | 0 <= w < |t.sockets|
      ensures SocketOk(t, w)
    {
      assert SocketOk(s, w);
    }
    RetrySound(t, i, l);
  }

  lemma PeerClosesSound(s: State, w: nat, l: Limits)
    requires Sound(s, l) && w < |s.sockets|
    ensures Sound(Step(s, PeerCloses(w), l), l)
  {
    var t := Step(s, PeerCloses(w), l);
    assert SocketOk(s, w);
    forall j | 0 <= j < |t.all|
      ensures StreamOk(t, j, l)
    {
      assert StreamOk(s, j, l);
      assert Current(t, j) == Current(s, j);
    }
    forall v | 0 <= v < |t.sockets|
      ensures SocketOk(t, v)
    {
      assert SocketOk(s, v);
    }
  }

  lemma CloseReportedSound(s: State, w: nat, l: Limits)
    requires Sound(s, l) && w < |s.sockets| && !s.sockets[w].live && !s.sockets[w].reported
    ensures Sound(Step(s, CloseReported(w), l), l)
  {
    var t := s.(sockets := s.sockets[w := s.sockets[w].(reported := true)]);
    assert SocketOk(s, w);
    var i := s.sockets[w].stream;
    assert StreamOk(s, i, l);
    forall j | 0 <= j < |t.all| && j != i
      ensures StreamOk(t, j, l)
    {
      assert StreamOk(s, j, l);
      assert Current(t, j) == Current(s, j);
    }
    forall v | 0 <= v < |t.sockets|
      ensures SocketOk(t, v)
    {
      assert SocketOk(s, v);
    }
    RetrySound(t, i, l);
  }

  lemma TimerFiresSound(s: State, i: nat, l: Limits)
    requires Sound(s, l) && i < |s.all| && s.all[i].timer
    ensures Sound(Step(s, TimerFires(i), l), l)
  {
    var t := Step(s, TimerFires(i), l);
    assert StreamOk(s, i, l);
    assert Current(s, i) && !s.stopped;
    forall j | 0 <= j < |t.all|
      ensures StreamOk(t, j, l)
    {
      if j < |s.all| {
        assert StreamOk(s, j, l);
        assert j != i ==> Current(t, j) == Current(s, j);
        assert !Current(t, i);
      }
    }
    forall w | 0 <= w < |t.sockets|
      ensures SocketOk(t, w)
    {
      assert SocketOk(s, w);
      var j := s.sockets[w].stream;
      assert j != i ==> Current(t, j) == Current(s, j);
    }
  }

  lemma StepSound(s: State, e: Event, l: Limits)
    requires Sound(s, l) && l.min <= l.max
    ensures Sound(Step(s, e, l), l)
  {
    match e
    case Stop =>
      DropAllSound(s, s.streams.Keys, l);
      var d := DropAll(s, s.streams.Keys);
      assert d.streams == map[];
      SameStreams(d, Step(s, Stop, l), l);
    case RefreshEnds(rows) =>
      if s.refreshing > 0 {
        var t := s.(refreshing := s.refreshing - 1);
        SameStreams(s, t, l);
        var gone := set c | c in t.streams && c !in rows;
        DropAllSound(t, gone, l);
        OpenMissingSound(DropAll(t, gone), rows, l);
      }
    case ConnectSucceeds(i) =>
      if i < |s.all| && s.all[i].phase == Connecting {
        ConnectSound(s, i, l);
      }
    case ConnectFails(i) =>
      if i < |s.all| && s.all[i].phase == Connecting {
        ConnectFailsSound(s, i, l);
      }
    case PeerCloses(w) =>
      if w < |s.sockets| {
        PeerClosesSound(s, w, l);
      }
    case CloseReported(w) =>
      if w < |s.sockets| && !s.sockets[w].live && !s.sockets[w].reported {
        CloseReportedSound(s, w, l);
      }
    case TimerFires(i) =>
      if i < |s.all| && s.all[i].timer {
        TimerFiresSound(s, i, l);
      }
    case _ => SameStreams(s, Step(s, e, l), l);
  }

  /** Flags and counters aside, the same streams are as sound. */
  lemma SameStreams(s: State, t: State, l: Limits)
    requires Sound(s, l) && t.streams == s.streams && t.all == s.all && t.sockets == s.sockets
    requires t.stopped ==> t.streams == map[] && !t.interval
    ensures Sound(t, l)
  {
    forall i | 0 <= i < |t.all|
      ensures StreamOk(t, i, l)
    {
      assert StreamOk(s, i, l);
      assert Current(t, i) == Current(s, i);
    }
    forall w | 0 <= w < |t.sockets|
      ensures SocketOk(t, w)
    {
      assert SocketOk(s, w);
    }
  }

  lemma {:induction false} RunsSound(s: State, events: seq<Event>, l: Limits)
    requires Sound(s, l) && l.min <= l.max
    ensures Sound(After(s, events, l), l)
    decreases |events|
  {
    if events != [] {
      StepSound(s, events[0], l);
      RunsSound(Step(s, events[0], l), events[1..], l);
    }
  }

  /** In every run a cluster has at most one open websocket, and it is its current stream's. */
  lemma OneSocketPerCluster(events: seq<Event>, l: Limits, v: nat, w: nat)
    requires l.min <= l.max
    requires var s := After(IDLE, events, l);
      v < |s.sockets| && w < |s.sockets| && s.sockets[v].live && s.sockets[w].live
    ensures var s := After(IDLE, events, l);
      s.sockets[v].stream < |s.all| && s.sockets[w].stream < |s.all|
      && (s.all[s.sockets[v].stream].cluster == s.all[s.sockets[w].stream].cluster ==> v == w)
  {
    RunsSound(IDLE, events, l);
    var s := After(IDLE, events, l);
    assert SocketOk(s, v) && SocketOk(s, w);
  }

  /** In every run a pending timer is a current stream's with nothing open, and backoff keeps its limits. */
  lemma TimersAndBackoff(events: seq<Event>, l: Limits, i: nat)
    requires l.min <= l.max && i < |After(IDLE, events, l).all|
    ensures var s := After(IDLE, events, l);
      && l.min <= s.all[i].backoff <= l.max
      && (s.all[i].timer ==> Current(s, i) && forall w :: 0 <= w < |s.sockets| && s.sockets[w].stream == i ==>
        !s.sockets[w].live)
  {
    RunsSound(IDLE, events, l);
    var s := After(IDLE, events, l);
    assert StreamOk(s, i, l);
    forall w | 0 <= w < |s.sockets| && s.sockets[w].stream == i
      ensures s.all[i].timer ==> !s.sockets[w].live
    {
      assert SocketOk(s, w);
    }
  }

  /** After a stop nothing is kept: no stream, no open websocket, no timer, whatever is still under way. */
  lemma NothingAfterStop(events: seq<Event>, l: Limits)
    requires l.min <= l.max && After(IDLE, events, l).stopped
    ensures var s := After(IDLE, events, l);
      && s.streams == map[] && !s.interval
      && (forall w :: 0 <= w < |s.sockets| ==> !s.sockets[w].live)
      && (forall i :: 0 <= i < |s.all| ==> !s.all[i].timer)
  {
    RunsSound(IDLE, events, l);
    var s := After(IDLE, events, l);
    forall w | 0 <= w < |s.sockets|
      ensures !s.sockets[w].live
    {
      assert SocketOk(s, w);
    }
    forall i | 0 <= i < |s.all|
      ensures !s.all[i].timer
    {
      assert StreamOk(s, i, l);
    }
  }

  /**
   And no cluster is ever given up: its stream is connecting, open, waiting to retry, or about to
   hear that it closed.
   */
  lemma NoStreamIsStuck(events: seq<Event>, l: Limits, cluster: string)
    requires l.min <= l.max && cluster in After(IDLE, events, l).streams
    ensures var s := After(IDLE, events, l);
      var i := s.streams[cluster];
      i < |s.all|
      && (s.all[i].phase == Connecting || s.all[i].timer
          || exists w ::
               0 <= w < |s.sockets| && s.all[i].ws == Some(w) && (s.sockets[w].live || !s.sockets[w].reported))
  {
    RunsSound(IDLE, events, l);
    var s := After(IDLE, events, l);
    assert StreamOk(s, s.streams[cluster], l);
  }

  // ----- Following the enrolments -----

  lemma {:induction false} OpenMissingOpens(s: State, rows: seq<string>, min: nat)
    requires !s.stopped && forall c :: c in s.streams ==> s.streams[c] < |s.all|
    ensures var t := OpenMissing(s, rows, min);
      && (forall c :: c in t.streams <==> c in s.streams || c in rows)
      && (forall c :: c in s.streams ==> t.streams[c] == s.streams[c])
      && |t.all| >= |s.all| && t.all[..|s.all|] == s.all && t.sockets == s.sockets
      && forall c :: c in t.streams && c !in s.streams ==>
           |s.all| <= t.streams[c] < |t.all| && t.all[t.streams[c]] == Stream(c, None, min, false, Connecting)
    decreases |rows|
  {
    if rows != [] {
      var next := if rows[0] in s.streams then s else Open(s, rows[0], min);
      assert rows == [rows[0]] + rows[1..];
      OpenMissingOpens(next, rows[1..], min);
      var t := OpenMissing(s, rows, min);
      assert t.all[..|s.all|] == t.all[..|next.all|][..|s.all|];
      assert rows[0] !in s.streams ==> t.all[|s.all|] == t.all[..|next.all|][|s.all|];
    }
  }

  /**
   What a refresh read is what is followed: of a running manager the streams are then exactly those
   of the enabled clusters, an old one where there was one, else a new one with the shortest wait.
   */
  lemma RefreshFollows(s: State, rows: seq<string>, l: Limits)
    requires Sound(s, l) && !s.stopped && s.refreshing > 0
    ensures var t := Step(s, RefreshEnds(rows), l);
      && (forall c :: c in t.streams <==> c in rows)
      && (forall c :: c in rows && c in s.streams ==> t.streams[c] == s.streams[c])
      && forall c :: c in rows && c !in s.streams ==>
           |s.all| <= t.streams[c] < |t.all| && t.all[t.streams[c]] == Stream(c, None, l.min, false, Connecting)
  {
    hide StreamOk, SocketOk;
    var gone := set c | c in s.streams && c !in rows;
    OpenMissingOpens(DropAll(s.(refreshing := s.refreshing - 1), gone), rows, l.min);
  }

  /** A manager that starts reads the clusters at once and follows them; starting twice reads them once. */
  lemma StartFollows(rows: seq<string>, l: Limits)
    requires l.min <= l.max
    ensures var started := Step(IDLE, Start, l);
      && Step(started, Start, l) == started && started.refreshing == 1
      && forall c :: c in Step(started, RefreshEnds(rows), l).streams <==> c in rows
  {
    var started := Step(IDLE, Start, l);
    SameStreams(IDLE, started, l);
    RefreshFollows(started, rows, l);
  }

  /** So it does whenever the interval fires; a refresh that fails leaves things as they were. */
  lemma IntervalFollows(s: State, rows: seq<string>, l: Limits)
    requires Sound(s, l) && !s.stopped && s.interval && l.min <= l.max
    ensures var fired := Step(s, IntervalFires, l);
      && (forall c :: c in Step(fired, RefreshEnds(rows), l).streams <==> c in rows)
      && Step(fired, RefreshFails, l) == s
      && Step(fired, RefreshEnds(rows), l).refreshing == s.refreshing
  {
    var fired := Step(s, IntervalFires, l);
    SameStreams(s, fired, l);
    RefreshFollows(fired, rows, l);
    OpenMissingKeeps(DropAll(s, set c | c in s.streams && c !in rows), rows, l.min);
  }

  lemma {:induction false} OpenMissingKeeps(s: State, rows: seq<string>, min: nat)
    ensures OpenMissing(s, rows, min).refreshing == s.refreshing && OpenMissing(s, rows, min).stopped == s.stopped
    ensures OpenMissing(s, rows, min).interval == s.interval
    decreases |rows|
  {
    if rows != [] {
      OpenMissingKeeps(if rows[0] in s.streams then s else Open(s, rows[0], min), rows[1..], min);
    }
  }

  /** A running manager has its interval, a stopped one has none, which then fires in vain. */
  lemma {:induction false} IntervalWhileRunning(events: seq<Event>, l: Limits)
    requires l.min <= l.max
    ensures var s := After(IDLE, events, l); s.interval <==> !s.stopped
    ensures var s := After(IDLE, events, l); s.stopped ==> Step(s, IntervalFires, l) == s
  {
    RunKeepsInterval(IDLE, events, l);
  }

  lemma {:induction false} RunKeepsInterval(s: State, events: seq<Event>, l: Limits)
    requires s.interval <==> !s.stopped
    ensures After(s, events, l).interval <==> !After(s, events, l).stopped
    decreases |events|
  {
    hide Step;
    if events != [] {
      StepKeepsInterval(s, events[0], l);
      RunKeepsInterval(Step(s, events[0], l), events[1..], l);
    }
  }

  lemma StepKeepsInterval(s: State, e: Event, l: Limits)
    requires s.interval <==> !s.stopped
    ensures Step(s, e, l).interval <==> !Step(s, e, l).stopped
  {
    if e.RefreshEnds? && s.refreshing > 0 {
      var t := s.(refreshing := s.refreshing - 1);
      OpenMissingKeeps(DropAll(t, set c | c in t.streams && c !in e.rows), e.rows, l.min);
    }
  }

  /** A connection that comes too late is closed at once, and its attempt is over. */
  lemma LateConnectionIsClosed(s: State, i: nat, l: Limits)
    requires i < |s.all| && s.all[i].phase == Connecting && (s.stopped || !Current(s, i))
    ensures var t := Step(s, ConnectSucceeds(i), l);
      && |t.sockets| == |s.sockets| + 1 && !t.sockets[|s.sockets|].live && t.sockets[..|s.sockets|] == s.sockets
      && t.streams == s.streams && |t.all| == |s.all|
      && Step(t, ConnectSucceeds(i), l) == t && Step(t, ConnectFails(i), l) == t
      && Step(t, CloseReported(|s.sockets|), l) == t
  {
  }

  // ----- Waiting longer and longer -----

  function Doubled(n: nat, k: nat): nat {
    if k == 0 then n else 2 * Doubled(n, k - 1)
  }

  /** The wait after so many failures: doubled each time, up to the limit. */
  function Wait(l: Limits, k: nat): nat {
    if Doubled(l.min, k) < l.max then Doubled(l.min, k) else l.max
  }

  lemma {:induction false} DoublingStaysLong(n: nat, k: nat)
    ensures Doubled(n, k + 1) >= Doubled(n, k)
  {
  }

  /** A cluster's stream on its way to connect. */
  ghost predicate Trying(s: State, i: nat, cluster: string, backoff: nat) {
    !s.stopped && Current(s, i) && s.all[i] == Stream(cluster, None, backoff, false, Connecting)
  }

  /** The attempts of one cluster that fail one after the other: each time the timer opens the next stream. */
  function Failing(i: nat, next: nat, k: nat): seq<Event>
    decreases k
  {
    if k == 0 then [] else [ConnectFails(i), TimerFires(i)] + Failing(next, next + 1, k - 1)
  }

  /** After k failures in a row the stream waits the shortest time doubled k times, or the longest there is. */
  lemma {:induction false} BackoffDoubles(s: State, i: nat, cluster: string, j: nat, k: nat, l: Limits)
    requires Trying(s, i, cluster, Wait(l, j)) && l.min <= l.max
    ensures var t := After(s, Failing(i, |s.all|, k), l);
      |t.all| == |s.all| + k && Trying(t, if k == 0 then i else |s.all| + k - 1, cluster, Wait(l, j + k))
    decreases k
  {
    hide Step, Wait;
    if k > 0 {
      FailAndRetry(s, i, cluster, j, l);
      var t := Step(Step(s, ConnectFails(i), l), TimerFires(i), l);
      BackoffDoubles(t, |s.all|, cluster, j + 1, k - 1, l);
      var rest := Failing(|s.all|, |s.all| + 1, k - 1);
      var events := [ConnectFails(i), TimerFires(i)] + rest;
      assert events[0] == ConnectFails(i) && events[1..] == [TimerFires(i)] + rest;
      assert events[1..][0] == TimerFires(i) && events[1..][1..] == rest;
      assert After(s, events, l) == After(t, rest, l);
    }
  }

  lemma FailAndRetry(s: State, i: nat, cluster: string, j: nat, l: Limits)
    requires Trying(s, i, cluster, Wait(l, j)) && l.min <= l.max
    ensures var t := Step(Step(s, ConnectFails(i), l), TimerFires(i), l);
      |t.all| == |s.all| + 1 && Trying(t, |s.all|, cluster, Wait(l, j + 1))
  {
    DoublingStaysLong(l.min, j);
  }

  /** A connection that worked and closed begins again at the shortest wait, whatever failed before it. */
  lemma SuccessStartsAgain(s: State, i: nat, cluster: string, backoff: nat, l: Limits)
    requires Trying(s, i, cluster, backoff) && l.min <= l.max
    ensures var w := |s.sockets|;
      var up := Step(s, ConnectSucceeds(i), l);
      var t := Step(Step(Step(up, PeerCloses(w), l), CloseReported(w), l), TimerFires(i), l);
      up.all[i].backoff == l.min && up.sockets[w].live && Trying(t, |s.all|, cluster, Wait(l, 1))
  {
    var up := Step(s, ConnectSucceeds(i), l);
    var w := |s.sockets|;
    assert up.all[i] == Stream(cluster, Some(w), l.min, false, Connected);
    assert Doubled(l.min, 1) == 2 * Doubled(l.min, 0);
  }

  /** Dropping one more cluster's stream after some others. */
  lemma DropOneMore(s: State, done: set<string>, c: string, l: Limits)
    requires Sound(s, l) && c in s.streams && c !in done
    ensures Drop(DropAll(s, done), c) == DropAll(s, done + {c})
  {
    var t := DropAll(s, done);
    var i := s.streams[c];
    assert StreamOk(s, i, l);
    assert t.streams[c] == i && t.all[i] == s.all[i];
    forall j | 0 <= j < |s.all|
      ensures Drop(t, c).all[j] == DropAll(s, done + {c}).all[j]
    {
      assert s.all[j].cluster == c && Current(s, j) ==> j == i;
    }
    forall w | 0 <= w < |s.sockets|
      ensures Drop(t, c).sockets[w] == DropAll(s, done + {c}).sockets[w]
    {
      HeldByOneMore(s, done, c, w, l);
    }
    assert Drop(t, c).all == DropAll(s, done + {c}).all;
    assert Drop(t, c).sockets == DropAll(s, done + {c}).sockets;
    assert t.streams - {c} == s.streams - (done + {c});
  }

  lemma HeldByOneMore(s: State, done: set<string>, c: string, w: nat, l: Limits)
    requires Sound(s, l) && c in s.streams && w < |s.sockets|
    ensures HeldByOne(s, w, done + {c}) <==> HeldByOne(s, w, done) || s.all[s.streams[c]].ws == Some(w)
  {
    var i := s.streams[c];
    if s.all[i].ws == Some(w) {
      assert Current(s, i) && s.all[i].cluster in done + {c};
    }
    if HeldByOne(s, w, done) {
      var j :| 0 <= j < |s.all| && s.all[j].ws == Some(w) && s.all[j].cluster in done && Current(s, j);
      assert s.all[j].cluster in done + {c};
    }
  }

  /** What clearing a stream's timer and websocket comes to, in the middle of dropping. */
  lemma ClearedIsDropped(s: State, done: set<string>, c: string, l: Limits)
    requires Sound(s, l) && c in s.streams && c !in done
    ensures var t := DropAll(s, done);
      var i := s.streams[c];
      && i < |t.all| && t.all[i] == s.all[i]
      && DropAll(s, done + {c}).all == t.all[i := t.all[i].(timer := false)]
      && DropAll(s, done + {c}).sockets == Terminated(t, t.all[i].ws)
  {
    DropOneMore(s, done, c, l);
    var t := DropAll(s, done);
    assert c in t.streams && t.streams[c] == s.streams[c];
    assert StreamOk(s, s.streams[c], l);
  }

  lemma DropNone(s: State)
    ensures DropAll(s, {}) == s && Cleared(s, {}) == s
  {
    assert DropAll(s, {}).all == s.all && DropAll(s, {}).sockets == s.sockets && s.streams - {} == s.streams;
  }

  /** The manager: its fields, and the stream objects and websockets it has made. */
  class Manager {
    const limits: Limits
    var stopped: bool
    var refreshing: nat
    var interval: bool
    var streams: map<string, nat>
    var all: seq<Stream>
    var sockets: seq<Socket>

    ghost function Now(): State
      reads this
    {
      State(stopped, refreshing, interval, streams, all, sockets)
    }

    constructor (limits: Limits)
      ensures this.limits == limits && Now() == IDLE
    {
      this.limits := limits;
      stopped, refreshing, interval, streams, all, sockets := true, 0, false, map[], [], [];
    }

    method Begin()
      modifies this
      ensures Now() == Step(old(Now()), Start, limits)
    {
      if !stopped {
        return;
      }
      stopped := false;
      refreshing := refreshing + 1;
      interval := true;
    }

    /** Clearing a stream's timer and terminating its websocket. */
    method Clear(i: nat)
      requires i < |all|
      modifies this`all, this`sockets
      ensures all == old(all)[i := old(all[i]).(timer := false)] && sockets == Terminated(old(Now()), old(all[i].ws))
    {
      all := all[i := all[i].(timer := false)];
      if all[i].ws.Some? && all[i].ws.value < |sockets| {
        sockets := sockets[all[i].ws.value := sockets[all[i].ws.value].(live := false)];
      }
    }

    method ClearNext(c: string, ghost before: State, ghost done: set<string>)
      requires Sound(before, limits) && c in before.streams && c !in done && Now() == Cleared(before, done)
      modifies this
      ensures Now() == Cleared(before, done + {c})
    {
      ClearedIsDropped(before, done, c, limits);
      Clear(streams[c]);
    }

    /** Every stream's timer cleared and websocket terminated, one stream after another. */
    method ClearAll(clusters: set<string>)
      requires Sound(Now(), limits) && forall c :: c in clusters ==> c in streams
      modifies this
      ensures Now() == Cleared(old(Now()), clusters)
    {
      hide Cleared, Sound;
      ghost var before := Now();
      var rest := clusters;
      ghost var done: set<string> := {};
      DropNone(before);
      while rest != {}
        invariant done + rest == clusters && done !! rest
        invariant Now() == Cleared(before, done)
        decreases |rest|
      {
        var c :| c in rest;
        assert c in clusters;
        ClearNext(c, before, done);
        rest, done := rest - {c}, done + {c};
      }
      assert done == clusters;
    }

    method End()
      requires Sound(Now(), limits)
      modifies this
      ensures Now() == Step(old(Now()), Stop, limits)
    {
      ghost var before := Now();
      ClearAll(streams.Keys);
      stopped := true;
      interval := false;
      streams := map[];
      assert DropAll(before, before.streams.Keys).streams == map[];
    }

    method DropNext(c: string, ghost before: State, ghost done: set<string>)
      requires Sound(before, limits) && c in before.streams && c !in done && Now() == DropAll(before, done)
      modifies this
      ensures Now() == DropAll(before, done + {c})
    {
      DropOneMore(before, done, c, limits);
      ClearedIsDropped(before, done, c, limits);
      Clear(streams[c]);
      streams := streams - {c};
    }

    method DropGone(rows: seq<string>)
      requires Sound(Now(), limits)
      modifies this
      ensures Now() == DropAll(old(Now()), set c | c in old(streams) && c !in rows)
    {
      hide DropAll, Sound;
      ghost var before := Now();
      var rest := set c | c in streams && c !in rows;
      ghost var gone, done: set<string> := rest, {};
      DropNone(before);
      while rest != {}
        invariant done + rest == gone && done !! rest
        invariant Now() == DropAll(before, done)
        decreases |rest|
      {
        var c :| c in rest;
        assert c in gone;
        DropNext(c, before, done);
        rest, done := rest - {c}, done + {c};
      }
      assert done == gone;
    }

    method OpenRows(rows: seq<string>)
      modifies this`streams, this`all
      ensures Now() == OpenMissing(old(Now()), rows, limits.min)
    {
      for i := 0 to |rows|
        invariant OpenMissing(Now(), rows[i..], limits.min) == OpenMissing(old(Now()), rows, limits.min)
      {
        assert rows[i..][0] == rows[i] && rows[i..][1..] == rows[i + 1..];
        if rows[i] !in streams {
          OpenStream(rows[i], limits.min);
        }
      }
    }

    /** The query answered: close what is gone, open what is new. */
    method Refresh(rows: seq<string>)
      requires Sound(Now(), limits) && refreshing > 0
      modifies this
      ensures Now() == Step(old(Now()), RefreshEnds(rows), limits)
    {
      refreshing := refreshing - 1;
      SameStreams(old(Now()), Now(), limits);
      DropGone(rows);
      OpenRows(rows);
    }

    method OpenStream(cluster: string, backoff: nat)
      modifies this`streams, this`all
      ensures Now() == Open(old(Now()), cluster, backoff)
    {
      if stopped {
        return;
      }
      streams := streams[cluster := |all|];
      all := all + [Stream(cluster, None, backoff, false, Connecting)];
    }

    method OnConnect(i: nat)
      requires i < |all| && all[i].phase == Connecting
      modifies this
      ensures Now() == Step(old(Now()), ConnectSucceeds(i), limits)
    {
      var cluster := all[i].cluster;
      if stopped || cluster !in streams || streams[cluster] != i {
        sockets := sockets + [Socket(i, false, true)];
        all := all[i := all[i].(phase := Connected)];
        return;
      }
      all := all[i := all[i].(phase := Connected, ws := Some(|sockets|), backoff := limits.min)];
      sockets := sockets + [Socket(i, true, false)];
    }

    method RetryStream(i: nat)
      requires i < |all|
      modifies this`all
      ensures Now() == Retry(old(Now()), i)
    {
      var cluster := all[i].cluster;
      if stopped || cluster !in streams || streams[cluster] != i {
        return;
      }
      all := all[i := all[i].(timer := true)];
    }

    method OnConnectError(i: nat)
      requires i < |all| && all[i].phase == Connecting
      modifies this
      ensures Now() == Step(old(Now()), ConnectFails(i), limits)
    {
      all := all[i := all[i].(phase := Failed)];
      RetryStream(i);
    }

    method OnClose(w: nat)
      requires w < |sockets| && !sockets[w].live && !sockets[w].reported && sockets[w].stream < |all|
      modifies this
      ensures Now() == Step(old(Now()), CloseReported(w), limits)
    {
      var i := sockets[w].stream;
      sockets := sockets[w := sockets[w].(reported := true)];
      RetryStream(i);
    }

    method OnTimer(i: nat)
      requires i < |all| && all[i].timer
      modifies this
      ensures Now() == Step(old(Now()), TimerFires(i), limits)
    {
      all := all[i := all[i].(timer := false)];
      var cluster := all[i].cluster;
      if cluster in streams && streams[cluster] == i {
        var twice := 2 * all[i].backoff;
        OpenStream(cluster, if twice < limits.max then twice else limits.max);
      }
    }
  }
}
