/**
 The trust session that joins systems (firecloud/service/session.go), its
 handler (firecloud/service/service_handler.go) and the requests that drive it
 (firecloud/api/services_auth.go, session_stop.go, session_join.go,
 firecloud/cmd/firecloudd/main.go). The handler's lock separates writing from
 reading transactions, while reading ones interleave. The session's lock makes
 each of its methods one step but Stop: nobody who sends on its channels takes
 that lock, so Stop's polls and closes are steps of their own.
 */
module TrustSession {
  import opened Text

  type Cert = string

  /** Failed join attempts a session allows. */
  const ALLOWED_FAILURES: nat := 50

  /**
   A channel without a buffer: how often it was closed, the senders waiting on
   it, and the senders that panicked, either cut off by the close or late.
   */
  datatype Channel = Channel(closes: nat, waiting: nat, cut: nat, late: nat)

  const OPEN := Channel(0, 0, 0, 0)

  /** Where a stop that holds the session's lock has come to. */
  datatype Place = PollIntents | CloseIntents | PollExit | CloseExit

  datatype Session = Session(passphrase: string, trust: map<string, Cert>, failed: nat, fingerprints: seq<string>,
                             discovery: bool, intents: Channel, exit: Channel, stop: Option<Place>)

  /** What goes wrong outside while stopping. */
  datatype Fate = Fate(websocketFails: bool, discoveryFails: bool)

  function NewSession(passphrase: string): Session {
    Session(passphrase, map[], 0, [], false, OPEN, OPEN, None)
  }

  // ----- Channels -----

  function Send(c: Channel): Channel {
    if c.closes > 0 then c.(late := c.late + 1) else c.(waiting := c.waiting + 1)
  }

  /** A sender leaves: its value was taken, or its time ran out. */
  function Leave(c: Channel): Channel {
    if c.waiting > 0 then c.(waiting := c.waiting - 1) else c
  }

  /** Closing makes every sender that waits panic. */
  function Close(c: Channel): Channel {
    c.(closes := c.closes + 1, waiting := 0, cut := c.cut + c.waiting)
  }

  /** Whether the poll finds nothing to receive; a closed channel can always be received from. */
  predicate NothingThere(c: Channel) {
    c.closes == 0 && c.waiting == 0
  }

  function Poll(c: Channel): Channel {
    if c.closes > 0 then c else Leave(c)
  }

  // ----- The session -----

  predicate StopFails(s: Session, cause: bool, fate: Fate) {
    (cause && fate.websocketFails) || (s.discovery && fate.discoveryFails)
  }

  /** Stop up to its channels: nothing happens, or everything is cleared and the lock stays held. */
  function BeginStop(s: Session, cause: bool, fate: Fate): Session {
    if StopFails(s, cause, fate) then s
    else s.(passphrase := "", trust := map[], failed := 0, fingerprints := [], stop := Some(PollIntents))
  }

  /** The next poll or close of a stop under way. */
  function GoOn(s: Session): Session {
    match s.stop
    case None => s
    case Some(PollIntents) =>
      s.(intents := Poll(s.intents), stop := Some(if NothingThere(s.intents) then CloseIntents else PollExit))
    case Some(CloseIntents) => s.(intents := Close(s.intents), stop := Some(PollExit))
    case Some(PollExit) =>
      s.(exit := Poll(s.exit), stop := if NothingThere(s.exit) then Some(CloseExit) else None)
    case Some(CloseExit) => s.(exit := Close(s.exit), stop := None)
  }

  function Register(s: Session, fingerprint: string): Session {
    if fingerprint in s.fingerprints then s else s.(fingerprints := s.fingerprints + [fingerprint])
  }

  /** One failed authentication: counted up to the limit, then the session is stopped. */
  function Fail(s: Session, fate: Fate): Session {
    if s.failed == ALLOWED_FAILURES then BeginStop(s, true, fate) else s.(failed := s.failed + 1)
  }

  // ----- The handler, step by step -----

  /**
   The handler's session and the reading transactions open on it: those that
   have just begun and those of join requests that have registered and not yet
   sent. The ones that send are the intents' waiting senders.
   */
  datatype World = World(session: Option<Session>, begun: nat, registered: nat)

  datatype Step =
    | Start(passphrase: string)
    | AuthFails(fate: Fate)
    | HandlerStops(cause: bool, fate: Fate)
    | BeginRead
    | EndRead
    | RegisterIn(fingerprint: string)
    | LeaveIn
    | SendIn
    | SendEnds
    | StopIn(fate: Fate)
    | StopGoesOn
    | Allow(name: string, cert: Cert)
    | Discover
    | ExitSends
    | ExitSendEnds

  const NOTHING := World(None, 0, 0)

  predicate Active(w: World) {
    w.session.Some? && w.session.value.passphrase != ""
  }

  /** A stop holds the session's lock. */
  predicate Locked(w: World) {
    w.session.Some? && w.session.value.stop.Some?
  }

  /** Nobody holds the handler's lock: a writing transaction may begin. */
  predicate Free(w: World) {
    w.begun == 0 && w.registered == 0 && !Locked(w) && (w.session.Some? ==> w.session.value.intents.waiting == 0)
  }

  /** A step the locks or the session do not let through changes nothing. */
  function After(w: World, step: Step): World {
    match step
    case Start(passphrase) => if Free(w) && passphrase != "" then World(Some(NewSession(passphrase)), 0, 0) else w
    case _ => if w.session.None? then w else Within(w, w.session.value, step)
  }

  function Within(w: World, s: Session, step: Step): World {
    match step
    case BeginRead => if Active(w) && !Locked(w) then w.(begun := w.begun + 1) else w
    case EndRead => if w.begun > 0 then w.(begun := w.begun - 1) else w
    case RegisterIn(fingerprint) =>
      if w.begun == 0 || Locked(w) then w
      else World(Some(Register(s, fingerprint)), w.begun - 1, w.registered + if fingerprint in s.fingerprints then 0
        else 1)
    case LeaveIn => if w.registered > 0 then w.(registered := w.registered - 1) else w
    case SendIn =>
      if w.registered == 0 then w
      else w.(session := Some(s.(intents := Send(s.intents))), registered := w.registered - 1)
    case StopIn(fate) =>
      if w.begun == 0 || Locked(w) then w
      else w.(session := Some(BeginStop(s, true, fate)), begun := w.begun - 1)
    case _ => w.(session := Some(Changed(w, s, step)))
  }

  /** The steps that leave the transactions as they are. */
  function Changed(w: World, s: Session, step: Step): Session {
    match step
    case AuthFails(fate) => if Free(w) && Active(w) then Fail(s, fate) else s
    case HandlerStops(cause, fate) => if Free(w) then BeginStop(s, cause, fate) else s
    case SendEnds => s.(intents := Leave(s.intents))
    case StopGoesOn => GoOn(s)
    case Allow(name, cert) => if Locked(w) then s else s.(trust := s.trust[name := cert])
    case Discover => s.(discovery := true)
    case ExitSends => s.(exit := Send(s.exit))
    case ExitSendEnds => s.(exit := Leave(s.exit))
    case _ => s
  }

  function Run(w: World, steps: seq<Step>): World
    decreases |steps|
  {
    if steps == [] then w else Run(After(w, steps[0]), steps[1..])
  }

  // ----- What every run keeps -----

  /** Closed at most once; nobody waits on a closed channel, and an open one has hurt nobody. */
  ghost predicate SoundChannel(c: Channel) {
    c.closes <= 1 && (c.closes == 1 ==> c.waiting == 0) && (c.closes == 0 ==> c.cut == 0 && c.late == 0)
  }

  ghost predicate SoundSession(s: Session) {
    && s.failed <= ALLOWED_FAILURES && Distinct(s.fingerprints)
    && SoundChannel(s.intents) && SoundChannel(s.exit)
    // A stop closes only what it found open, and a closed or stopping session is not active.
    && (s.stop == Some(CloseIntents) ==> s.intents.closes == 0)
    && (s.stop == Some(CloseExit) ==> s.exit.closes == 0)
    && (s.stop.Some? || s.intents.closes == 1 || s.exit.closes == 1 ==> s.passphrase == "")
  }

  ghost predicate Sound(w: World) {
    if w.session.None? then w.begun == 0 && w.registered == 0 else SoundSession(w.session.value)
  }

  lemma StepSound(w: World, step: Step)
    requires Sound(w)
    ensures Sound(After(w, step))
  {
    if w.session.Some? {
      SessionSound(w, w.session.value, step);
    }
  }

  lemma SessionSound(w: World, s: Session, step: Step)
    requires SoundSession(s) && w.session == Some(s)
    ensures var t := Within(w, s, step); t.session.Some? && SoundSession(t.session.value)
  {
    hide SoundSession, Register, BeginStop;
    match step
    case RegisterIn(fingerprint) => RegisterSound(s, fingerprint);
    case SendIn => SendSound(s);
    case StopIn(fate) => StopSound(s, true, fate);
    case BeginRead =>
    case EndRead =>
    case LeaveIn =>
    case Start(_) =>
    case _ => ChangedSound(w, s, step);
  }

  lemma RegisterSound(s: Session, fingerprint: string)
    requires SoundSession(s)
    ensures SoundSession(Register(s, fingerprint))
  {
  }

  lemma SendSound(s: Session)
    requires SoundSession(s)
    ensures SoundSession(s.(intents := Send(s.intents)))
  {
    hide Distinct;
  }

  lemma StopSound(s: Session, cause: bool, fate: Fate)
    requires SoundSession(s)
    ensures SoundSession(BeginStop(s, cause, fate))
  {
  }

  lemma ChangedSound(w: World, s: Session, step: Step)
    requires SoundSession(s)
    ensures SoundSession(Changed(w, s, step))
  {
    hide BeginStop, GoOn, Distinct;
    match step
    case AuthFails(fate) => StopSound(s, true, fate);
    case HandlerStops(cause, fate) => StopSound(s, cause, fate);
    case StopGoesOn => GoOnSound(s);
    case _ =>
  }

  lemma {:induction false} RunSound(w: World, steps: seq<Step>)
    requires Sound(w)
    ensures Sound(Run(w, steps))
    decreases |steps|
  {
    hide Sound, After;
    if steps != [] {
      StepSound(w, steps[0]);
      RunSound(After(w, steps[0]), steps[1..]);
    }
  }

  /**
   Over every interleaving, attempts never exceed the limit, no fingerprint is held twice and no
   channel is closed twice.
   */
  lemma LimitsHold(steps: seq<Step>)
    requires Run(NOTHING, steps).session.Some?
    ensures var s := Run(NOTHING, steps).session.value;
      s.failed <= ALLOWED_FAILURES && Distinct(s.fingerprints) && s.intents.closes <= 1 && s.exit.closes <= 1
  {
    RunSound(NOTHING, steps);
  }

  // ----- Failed attempts -----

  predicate NewOne(w: World, step: Step) {
    step.Start? && Free(w) && step.passphrase != ""
  }

  /** A run within one session. */
  ghost predicate OneSession(w: World, steps: seq<Step>)
    decreases |steps|
  {
    steps == [] || (!NewOne(w, steps[0]) && OneSession(After(w, steps[0]), steps[1..]))
  }

  predicate FailureReaches(w: World, step: Step) {
    step.AuthFails? && Free(w) && Active(w)
  }

  /** The failed attempts that reached the active session. */
  function Failures(w: World, steps: seq<Step>): nat
    decreases |steps|
  {
    if steps == [] then 0
    else (if FailureReaches(w, steps[0]) then 1 else 0) + Failures(After(w, steps[0]), steps[1..])
  }

  function Capped(n: nat): nat {
    if n < ALLOWED_FAILURES then n else ALLOWED_FAILURES
  }

  lemma ActiveOnlyFromActive(w: World, step: Step)
    requires !NewOne(w, step) && Active(After(w, step))
    ensures Active(w) && After(w, step).session.value.passphrase == w.session.value.passphrase
  {
  }

  lemma CountsOne(w: World, step: Step)
    requires Sound(w) && !NewOne(w, step) && Active(w) && Active(After(w, step))
    ensures After(w, step).session.value.failed
         == Capped(w.session.value.failed + if FailureReaches(w, step) then 1 else 0)
  {
  }

  /**
   While a session lives it has counted every failed attempt, up to the limit; from then on each
   further one tried to stop it.
   */
  lemma {:induction false} FailuresAreCounted(w: World, steps: seq<Step>)
    requires Sound(w) && OneSession(w, steps) && Active(Run(w, steps))
    ensures Active(w) && Run(w, steps).session.value.failed == Capped(w.session.value.failed + Failures(w, steps))
    decreases |steps|
  {
    hide Sound, After;
    if steps == [] {
      CountsNone(w);
    } else {
      StepSound(w, steps[0]);
      FailuresAreCounted(After(w, steps[0]), steps[1..]);
      ActiveOnlyFromActive(w, steps[0]);
      CountsOne(w, steps[0]);
    }
  }

  lemma CountsNone(w: World)
    requires Sound(w) && Active(w)
    ensures w.session.value.failed == Capped(w.session.value.failed)
  {
  }

  /** The attempt after the last allowed one ends the session exactly when stopping it works. */
  lemma OneTooMany(w: World, fate: Fate)
    requires Sound(w) && Active(w) && Free(w) && w.session.value.failed == ALLOWED_FAILURES
    ensures Active(After(w, AuthFails(fate)))
       <==> fate.websocketFails || (w.session.value.discovery && fate.discoveryFails)
    ensures Active(After(w, AuthFails(fate))) ==> After(w, AuthFails(fate)) == w
  {
  }

  /** A failure beyond the last allowed one whose stop does not work. */
  predicate StopFailed(w: World, step: Step) {
    FailureReaches(w, step) && w.session.value.failed == ALLOWED_FAILURES && StopFails(w.session.value, true, step.fate)
  }

  function FailedStops(w: World, steps: seq<Step>): nat
    decreases |steps|
  {
    if steps == [] then 0
    else (if StopFailed(w, steps[0]) then 1 else 0) + FailedStops(After(w, steps[0]), steps[1..])
  }

  /** How many failures are more than a session allows. */
  function Beyond(n: nat): nat {
    if n < ALLOWED_FAILURES then 0 else n - ALLOWED_FAILURES
  }

  predicate Stops(step: Step) {
    step.HandlerStops? || step.StopIn?
  }

  /**
   A session that only its failures can stop is alive after a run exactly when every failure beyond
   the last allowed one met a stop that did not work.
   */
  lemma {:induction false} OutlivesFailuresIff(w: World, steps: seq<Step>)
    requires Sound(w) && Active(w) && OneSession(w, steps)
    requires forall i :: 0 <= i < |steps| ==> !Stops(steps[i])
    ensures Active(Run(w, steps)) <==> FailedStops(w, steps) == Beyond(w.session.value.failed + Failures(w, steps))
    decreases |steps|
  {
    hide Sound, After, Active, FailureReaches, StopFailed, NewOne, Stops;
    AtMostAllowed(w);
    if steps != [] {
      var next := After(w, steps[0]);
      assert forall i :: 0 <= i < |steps[1..]| ==> steps[1..][i] == steps[i + 1];
      StepSound(w, steps[0]);
      FailureOrStop(w, steps[0]);
      if Active(next) {
        OutlivesFailuresIff(next, steps[1..]);
      } else {
        DeadFeelsNothing(next, steps[1..]);
      }
    }
  }

  lemma AtMostAllowed(w: World)
    requires Sound(w) && Active(w)
    ensures w.session.Some? && w.session.value.failed <= ALLOWED_FAILURES
  {
  }

  /** What one step does to a session nothing else stops: it counts, or ends it, or fails to. */
  lemma FailureOrStop(w: World, step: Step)
    requires Sound(w) && Active(w) && !NewOne(w, step) && !Stops(step)
    ensures var next := After(w, step);
      if Active(next) then
        next.session.value.failed + (if StopFailed(w, step) then 1 else 0)
          == w.session.value.failed + if FailureReaches(w, step) then 1 else 0
      else FailureReaches(w, step) && !StopFailed(w, step) && w.session.value.failed == ALLOWED_FAILURES
    ensures StopFailed(w, step) ==> FailureReaches(w, step) && w.session.value.failed == ALLOWED_FAILURES
  {
  }

  lemma {:induction false} DeadFeelsNothing(w: World, steps: seq<Step>)
    requires !Active(w) && OneSession(w, steps)
    ensures !Active(Run(w, steps)) && Failures(w, steps) == 0 && FailedStops(w, steps) == 0
    decreases |steps|
  {
    hide After, Active;
    if steps != [] {
      StaysInactive(w, steps[0]);
      DeadFeelsNothing(After(w, steps[0]), steps[1..]);
    }
  }

  /** And whatever else happens to it, a session still alive has met one failing stop for each failure too many. */
  lemma {:induction false} FailuresBeyondMetFailingStops(w: World, steps: seq<Step>)
    requires Sound(w) && OneSession(w, steps) && Active(Run(w, steps))
    ensures Active(w) && FailedStops(w, steps) == Beyond(w.session.value.failed + Failures(w, steps))
    decreases |steps|
  {
    hide Sound, After, Active, FailureReaches, StopFailed, NewOne;
    if steps == [] {
      AtMostAllowed(w);
    } else {
      StepSound(w, steps[0]);
      FailuresBeyondMetFailingStops(After(w, steps[0]), steps[1..]);
      AliveAfter(w, steps[0]);
    }
  }

  lemma AliveAfter(w: World, step: Step)
    requires Sound(w) && !NewOne(w, step) && Active(After(w, step))
    ensures Active(w) && w.session.Some? && After(w, step).session.Some?
    ensures w.session.value.failed <= ALLOWED_FAILURES
    ensures After(w, step).session.value.failed + (if StopFailed(w, step) then 1 else 0)
      == w.session.value.failed + if FailureReaches(w, step) then 1 else 0
    ensures StopFailed(w, step) ==> FailureReaches(w, step) && w.session.value.failed == ALLOWED_FAILURES
  {
  }

  // ----- Stopped sessions -----

  /** What the handler's trust store reads when the transaction starts here. */
  function TrustRead(w: World): map<string, Cert> {
    if Active(w) then w.session.value.trust else map[]
  }

  lemma StaysInactive(w: World, step: Step)
    requires !Active(w) && !NewOne(w, step)
    ensures !Active(After(w, step)) && After(w, step).begun <= w.begun
    ensures After(w, step).begun + After(w, step).registered <= w.begun + w.registered
  {
  }

  /**
   Once stopped, a session stays so: late certificates do not show and no
   transaction starts, until a new session does.
   */
  lemma {:induction false} StoppedStaysStopped(w: World, steps: seq<Step>)
    requires !Active(w) && OneSession(w, steps)
    ensures var t := Run(w, steps);
      !Active(t) && TrustRead(t) == map[] && t.begun <= w.begun && t.begun + t.registered <= w.begun + w.registered
    decreases |steps|
  {
    hide After, Active;
    if steps != [] {
      StaysInactive(w, steps[0]);
      StoppedStaysStopped(After(w, steps[0]), steps[1..]);
    }
    ReadsNothing(Run(w, steps));
  }

  lemma ReadsNothing(w: World)
    ensures !Active(w) ==> TrustRead(w) == map[]
  {
  }

  /** While the session lives a certificate it allowed is read back, until the same name is allowed another. */
  lemma {:induction false} AllowedIsRead(w: World, name: string, cert: Cert, steps: seq<Step>)
    requires OneSession(w, steps) && Active(Run(w, steps))
    requires name in TrustRead(w) && TrustRead(w)[name] == cert
    requires forall i :: 0 <= i < |steps| && steps[i].Allow? ==> steps[i].name != name || steps[i].cert == cert
    ensures name in TrustRead(Run(w, steps)) && TrustRead(Run(w, steps))[name] == cert
    decreases |steps|
  {
    hide After, Active, TrustRead;
    if steps != [] {
      AliveFromAlive(After(w, steps[0]), steps[1..]);
      assert forall i :: 0 <= i < |steps[1..]| ==> steps[1..][i] == steps[i + 1];
      TrustKept(w, steps[0], name, cert);
      AllowedIsRead(After(w, steps[0]), name, cert, steps[1..]);
    }
  }

  lemma {:induction false} AliveFromAlive(w: World, steps: seq<Step>)
    requires OneSession(w, steps) && Active(Run(w, steps))
    ensures Active(w)
    decreases |steps|
  {
    hide After, Active;
    if steps != [] {
      AliveFromAlive(After(w, steps[0]), steps[1..]);
      ActiveOnlyFromActive(w, steps[0]);
    }
  }

  lemma TrustKept(w: World, step: Step, name: string, cert: Cert)
    requires !NewOne(w, step) && Active(After(w, step)) && name in TrustRead(w) && TrustRead(w)[name] == cert
    requires step.Allow? ==> step.name != name || step.cert == cert
    ensures name in TrustRead(After(w, step)) && TrustRead(After(w, step))[name] == cert
  {
  }

  /** Allowing takes effect at once in a session that is not stopping, and for this name alone. */
  lemma AllowTakesEffect(w: World, name: string, cert: Cert)
    requires Active(w) && Sound(w)
    ensures TrustRead(After(w, Allow(name, cert))) == TrustRead(w)[name := cert]
  {
  }

  // ----- Join intents -----

  predicate Accepts(w: World, step: Step) {
    step.RegisterIn? && w.begun > 0 && Active(w) && !Locked(w) && step.fingerprint !in w.session.value.fingerprints
  }

  /** The fingerprints accepted while the session is active. */
  function Accepted(w: World, steps: seq<Step>): seq<string>
    decreases |steps|
  {
    if steps == [] || !Active(w) || NewOne(w, steps[0]) then []
    else (if Accepts(w, steps[0]) then [steps[0].fingerprint] else []) + Accepted(After(w, steps[0]), steps[1..])
  }

  /** Within one active session every fingerprint is accepted at most once, however requests interleave. */
  lemma {:induction false} AcceptedOnce(w: World, steps: seq<Step>)
    requires Active(w) && Sound(w)
    ensures Distinct(Accepted(w, steps))
    ensures forall i :: 0 <= i < |Accepted(w, steps)| ==> Accepted(w, steps)[i] !in w.session.value.fingerprints
    decreases |steps|
  {
    hide After, Sound, NewOne;
    if steps != [] && !NewOne(w, steps[0]) && Active(After(w, steps[0])) {
      var next := After(w, steps[0]);
      StepSound(w, steps[0]);
      AcceptedOnce(next, steps[1..]);
      KeepsFingerprints(w, steps[0]);
      var rest := Accepted(next, steps[1..]);
      assert forall i :: 0 <= i < |rest| ==> rest[i] !in next.session.value.fingerprints;
    }
  }

  lemma KeepsFingerprints(w: World, step: Step)
    requires Active(w) && !NewOne(w, step) && Active(After(w, step)) && Sound(w)
    ensures After(w, step).session.value.fingerprints
         == w.session.value.fingerprints + if Accepts(w, step) then [step.fingerprint] else []
  {
  }

  // ----- No request is lost -----

  /** The join requests that have registered: on their way, sending, cut off or too late. */
  function Intents(w: World): nat
    requires w.session.Some?
  {
    var c := w.session.value.intents;
    w.registered + c.waiting + c.cut + c.late
  }

  /** One more registers. */
  predicate TakesUp(w: World, step: Step)
    requires w.session.Some?
  {
    step.RegisterIn? && w.begun > 0 && !Locked(w) && step.fingerprint !in w.session.value.fingerprints
  }

  /** One is done: it gives up, its intent is taken or its time runs out, or the stop's poll takes it. */
  predicate LetsGo(w: World, step: Step)
    requires w.session.Some?
  {
    var s := w.session.value;
    || (step.LeaveIn? && w.registered > 0)
    || (step.SendEnds? && s.intents.waiting > 0)
    || (step.StopGoesOn? && s.stop == Some(PollIntents) && s.intents.closes == 0 && s.intents.waiting > 0)
  }

  lemma StepConserves(w: World, step: Step)
    requires w.session.Some? && Sound(w) && !NewOne(w, step)
    ensures After(w, step).session.Some?
    ensures Intents(After(w, step)) + (if LetsGo(w, step) then 1 else 0)
         == Intents(w) + if TakesUp(w, step) then 1 else 0
  {
    hide Distinct;
  }

  function TakenUp(w: World, steps: seq<Step>): nat
    requires w.session.Some? && Sound(w) && OneSession(w, steps)
    decreases |steps|
  {
    if steps == [] then 0
    else
      StepSound(w, steps[0]);
      StepConserves(w, steps[0]);
      (if TakesUp(w, steps[0]) then 1 else 0) + TakenUp(After(w, steps[0]), steps[1..])
  }

  function LetGo(w: World, steps: seq<Step>): nat
    requires w.session.Some? && Sound(w) && OneSession(w, steps)
    decreases |steps|
  {
    if steps == [] then 0
    else
      StepSound(w, steps[0]);
      StepConserves(w, steps[0]);
      (if LetsGo(w, steps[0]) then 1 else 0) + LetGo(After(w, steps[0]), steps[1..])
  }

  /**
   Over every run within a session each join request that registered is still on its way, is done, or
   has been cut off or come too late, and only one of these.
   */
  lemma {:induction false} RequestsAreConserved(w: World, steps: seq<Step>)
    requires w.session.Some? && Sound(w) && OneSession(w, steps)
    ensures Run(w, steps).session.Some?
    ensures Intents(Run(w, steps)) + LetGo(w, steps) == Intents(w) + TakenUp(w, steps)
    decreases |steps|
  {
    hide After, Sound, TakesUp, LetsGo, Intents, NewOne;
    if steps != [] {
      StepSound(w, steps[0]);
      StepConserves(w, steps[0]);
      RequestsAreConserved(After(w, steps[0]), steps[1..]);
    }
  }

  /** A reading transaction ends, registers or stops once; a sender on either channel counts once. */
  lemma TransactionsConserved(w: World, step: Step)
    requires w.session.Some? && Sound(w) && !NewOne(w, step)
    ensures After(w, step).session.Some?
    ensures After(w, step).begun
         == w.begun + (if step.BeginRead? && Active(w) && !Locked(w) then 1 else 0)
            - if w.begun > 0 && (step.EndRead? || (!Locked(w) && (step.RegisterIn? || step.StopIn?))) then 1 else 0
    ensures var before, after := w.session.value.exit, After(w, step).session.value.exit;
      after.waiting + after.cut + after.late
      == before.waiting + before.cut + before.late + (if step.ExitSends? then 1 else 0)
         - if before.waiting > 0 && (step.ExitSendEnds?
             || (step.StopGoesOn? && w.session.value.stop == Some(PollExit) && before.closes == 0)) then 1 else 0
  {
    hide Distinct;
  }

  /** A stop that begins leaves nothing of the session to read or to count. */
  lemma StopClears(w: World, step: Step)
    requires Sound(w) && !Locked(w) && Locked(After(w, step))
    ensures var s := After(w, step).session.value;
      s.passphrase == "" && s.trust == map[] && s.failed == 0 && s.fingerprints == []
  {
  }

  /** A new session is active, trusts nobody and has counted nothing; discovery can fail its stop once it runs. */
  lemma StartIsFresh(w: World, passphrase: string, fate: Fate)
    requires Free(w) && passphrase != ""
    ensures var t := After(w, Start(passphrase));
      && Active(t) && TrustRead(t) == map[] && Sound(t) && Free(t)
      && t.session.value.failed == 0 && t.session.value.fingerprints == []
      && Locked(After(t, HandlerStops(false, fate)))
      && (Locked(After(t, HandlerStops(true, fate))) <==> !fate.websocketFails)
      && (Locked(After(After(t, Discover), HandlerStops(false, fate))) <==> !fate.discoveryFails)
  {
  }

  // ----- Who a stop hurts -----

  /** A run that stays inside the stop under way, up to its last step. */
  ghost predicate During(w: World, steps: seq<Step>)
    decreases |steps|
  {
    steps == [] || (Locked(w) && During(After(w, steps[0]), steps[1..]))
  }

  /** The stop can come to close the intents on a join request that waits to send its own. */
  ghost predicate CanCut(w: World)
    requires w.session.Some?
  {
    exists steps :: During(w, steps) && CutsIn(w, steps)
  }

  ghost predicate CutsIn(w: World, steps: seq<Step>)
    requires w.session.Some?
  {
    Run(w, steps).session.Some? && Run(w, steps).session.value.intents.cut > w.session.value.intents.cut
  }

  /** Nobody is left to come between the poll and the close, or there is nothing left to close. */
  ghost predicate Harmless(w: World) {
    w.session.Some?
    && var s := w.session.value;
       || (w.registered == 0 && (s.stop == Some(CloseIntents) ==> s.intents.waiting == 0))
       || (s.intents.closes == 1 && s.stop != Some(CloseIntents))
  }

  lemma HarmlessStep(w: World, step: Step)
    requires Locked(w) && Harmless(w)
    ensures After(w, step).session.Some? && Harmless(After(w, step))
    ensures After(w, step).session.value.intents.cut == w.session.value.intents.cut
  {
  }

  lemma {:induction false} HarmlessRun(w: World, steps: seq<Step>)
    requires Harmless(w) && During(w, steps)
    ensures !CutsIn(w, steps)
    ensures Run(w, steps).session.Some? && Run(w, steps).session.value.intents.cut == w.session.value.intents.cut
    decreases |steps|
  {
    hide After, Harmless;
    IsThere(w);
    if steps != [] {
      HarmlessStep(w, steps[0]);
      HarmlessRun(After(w, steps[0]), steps[1..]);
    }
  }

  lemma IsThere(w: World)
    requires Harmless(w)
    ensures w.session.Some?
  {
  }

  /** Poll, send, close: the schedule that cuts a join request off, once those already waiting have left. */
  lemma {:induction false} CuttingRun(w: World) returns (steps: seq<Step>)
    requires w.session.Some? && w.session.value.stop == Some(PollIntents)
    requires w.registered > 0 && w.session.value.intents.closes == 0
    ensures During(w, steps) && CutsIn(w, steps)
    decreases w.session.value.intents.waiting
  {
    if w.session.value.intents.waiting > 0 {
      var rest := CuttingRun(After(w, SendEnds));
      steps := [SendEnds] + rest;
      assert steps[1..] == rest;
    } else {
      steps := [StopGoesOn, SendIn, StopGoesOn];
      var polled := After(w, StopGoesOn);
      var sent := After(polled, SendIn);
      var closed := After(sent, StopGoesOn);
      assert polled.session.value.stop == Some(CloseIntents) && sent.session.value.intents.waiting == 1;
      assert steps[1..] == [SendIn, StopGoesOn] && steps[1..][1..] == [StopGoesOn] && steps[1..][1..][1..] == [];
      assert Run(sent, [StopGoesOn]) == closed;
      assert Run(polled, [SendIn, StopGoesOn]) == closed;
    }
  }

  /**
   The intents are safe from a stop exactly when no join request has
   registered without having sent yet, or they are closed already. A stop in a
   writing transaction finds no request at all, so it is always safe; one in a
   reading transaction is not.
   */
  lemma StopIsSafeIff(w: World, step: Step)
    requires Sound(w) && !Locked(w) && Locked(After(w, step))
    ensures !CanCut(After(w, step)) <==> w.registered == 0 || w.session.value.intents.closes == 1
    ensures Free(w) ==> !CanCut(After(w, step))
  {
    BeginsAtPoll(w, step);
    var begun := After(w, step);
    if w.registered == 0 || w.session.value.intents.closes == 1 {
      forall steps | During(begun, steps)
        ensures !CutsIn(begun, steps)
      {
        HarmlessRun(begun, steps);
      }
    } else {
      var steps := CuttingRun(begun);
    }
  }

  lemma BeginsAtPoll(w: World, step: Step)
    requires Sound(w) && !Locked(w) && Locked(After(w, step))
    ensures w.session.Some? && After(w, step).session.value.stop == Some(PollIntents)
    ensures After(w, step).registered == w.registered
    ensures After(w, step).session.value.intents == w.session.value.intents
  {
  }

  lemma {:induction false} RunMore(w: World, steps: seq<Step>, step: Step)
    ensures Run(w, steps + [step]) == After(Run(w, steps), step)
    decreases |steps|
  {
    hide After;
    if steps == [] {
      assert steps + [step] == [step];
      OneStep(w, step);
    } else {
      assert (steps + [step])[0] == steps[0] && (steps + [step])[1..] == steps[1..] + [step];
      RunMore(After(w, steps[0]), steps[1..], step);
    }
  }

  lemma OneStep(w: World, step: Step)
    ensures Run(w, [step]) == After(w, step)
  {
    assert [step][1..] == [];
  }

  /**
   The schedule happens: a join request registers, a stop request polls the
   intents, the join request sends, and the stop closes the channel on it.
   */
  lemma JoinRequestIsCutOff(passphrase: string, fingerprint: string) returns (steps: seq<Step>)
    requires passphrase != ""
    ensures Run(NOTHING, steps).session.Some? && Run(NOTHING, steps).session.value.intents.cut == 1
  {
    hide Run, After, OnTheWay, Schedule;
    steps := [Start(passphrase)];
    OneStep(NOTHING, steps[0]);
    WayEnds(passphrase, fingerprint);
    for i := 0 to |Schedule(fingerprint)|
      invariant Run(NOTHING, steps) == OnTheWay(passphrase, fingerprint, i)
    {
      RunMore(NOTHING, steps, Schedule(fingerprint)[i]);
      WayGoesOn(passphrase, fingerprint, i);
      steps := steps + [Schedule(fingerprint)[i]];
    }
  }

  function Schedule(fingerprint: string): (steps: seq<Step>)
    ensures |steps| == 7
  {
    [BeginRead, BeginRead, RegisterIn(fingerprint), StopIn(Fate(false, false)), StopGoesOn, SendIn, StopGoesOn]
  }

  /** The world after each step of that schedule. */
  function OnTheWay(passphrase: string, fingerprint: string, i: nat): World {
    var s := NewSession(passphrase);
    var stopped := s.(passphrase := "");
    if i == 0 then World(Some(s), 0, 0)
    else if i == 1 then World(Some(s), 1, 0)
    else if i == 2 then World(Some(s), 2, 0)
    else if i == 3 then World(Some(s.(fingerprints := [fingerprint])), 1, 1)
    else if i == 4 then World(Some(stopped.(stop := Some(PollIntents))), 0, 1)
    else if i == 5 then World(Some(stopped.(stop := Some(CloseIntents))), 0, 1)
    else if i == 6 then World(Some(stopped.(stop := Some(CloseIntents), intents := Channel(0, 1, 0, 0))), 0, 0)
    else World(Some(stopped.(stop := Some(PollExit), intents := Channel(1, 0, 1, 0))), 0, 0)
  }

  lemma WayGoesOn(passphrase: string, fingerprint: string, i: nat)
    requires passphrase != "" && i < |Schedule(fingerprint)|
    ensures After(OnTheWay(passphrase, fingerprint, i), Schedule(fingerprint)[i])
         == OnTheWay(passphrase, fingerprint, i + 1)
  {
    if i == 2 {
      var s := NewSession(passphrase);
      assert Register(s, fingerprint) == s.(fingerprints := [fingerprint]) by {
        assert [] + [fingerprint] == [fingerprint];
      }
    }
  }

  lemma WayEnds(passphrase: string, fingerprint: string)
    requires passphrase != ""
    ensures After(NOTHING, Start(passphrase)) == OnTheWay(passphrase, fingerprint, 0)
    ensures var t := OnTheWay(passphrase, fingerprint, 7); t.session.Some? && t.session.value.intents.cut == 1
  {
  }

  /** Only writing transactions stop sessions. */
  ghost predicate NoReadingStops(steps: seq<Step>) {
    forall i :: 0 <= i < |steps| ==> !steps[i].StopIn?
  }

  /** Then a session that is not active has no reading transaction left. */
  ghost predicate Orderly(w: World) {
    w.session.Some? ==>
      && w.session.value.intents.cut == 0 && w.session.value.intents.late == 0
      && (Active(w) ==> w.session.value.intents.closes == 0)
      && (!Active(w) ==> w.begun == 0 && w.registered == 0 && w.session.value.intents.waiting == 0)
  }

  lemma StepOrderly(w: World, step: Step)
    requires Sound(w) && Orderly(w) && !step.StopIn?
    ensures Orderly(After(w, step))
  {
  }

  lemma {:induction false} RunOrderly(w: World, steps: seq<Step>)
    requires Sound(w) && Orderly(w) && NoReadingStops(steps)
    ensures Orderly(Run(w, steps))
    decreases |steps|
  {
    hide Sound, After, Orderly;
    if steps != [] {
      assert !steps[0].StopIn?;
      assert forall i :: 0 <= i < |steps[1..]| ==> steps[1..][i] == steps[i + 1];
      StepSound(w, steps[0]);
      StepOrderly(w, steps[0]);
      RunOrderly(After(w, steps[0]), steps[1..]);
    }
  }

  /** Were sessions only stopped in writing transactions, no join request would ever meet a closed channel. */
  lemma WritingStopsHurtNobody(steps: seq<Step>)
    requires NoReadingStops(steps) && Run(NOTHING, steps).session.Some?
    ensures var c := Run(NOTHING, steps).session.value.intents; c.cut == 0 && c.late == 0
  {
    RunOrderly(NOTHING, steps);
  }

  /** A join request can send too late. */
  ghost predicate CanBeLate(w: World)
    requires w.session.Some?
  {
    exists steps :: OneSession(w, steps) && LateIn(w, steps)
  }

  ghost predicate LateIn(w: World, steps: seq<Step>)
    requires w.session.Some?
  {
    Run(w, steps).session.Some? && Run(w, steps).session.value.intents.late > w.session.value.intents.late
  }

  lemma {:induction false} NobodyLeft(w: World, steps: seq<Step>)
    requires w.session.Some? && !Active(w) && w.begun == 0 && w.registered == 0 && OneSession(w, steps)
    ensures !LateIn(w, steps)
    ensures Run(w, steps).session.Some?
    ensures Run(w, steps).session.value.intents.late == w.session.value.intents.late
    decreases |steps|
  {
    hide After, Active;
    if steps != [] {
      StaysInactive(w, steps[0]);
      NobodySends(w, steps[0]);
      NobodyLeft(After(w, steps[0]), steps[1..]);
    }
  }

  lemma NobodySends(w: World, step: Step)
    requires w.session.Some? && w.registered == 0 && !NewOne(w, step)
    ensures After(w, step).session.Some?
    ensures After(w, step).session.value.intents.late == w.session.value.intents.late
  {
  }

  /** Longer than every string of the list, so none of them. */
  function Unlike(taken: seq<string>): (s: string)
    ensures forall i :: 0 <= i < |taken| ==> |taken[i]| < |s|
  {
    if taken == [] then "x"
    else
      var rest := Unlike(taken[1..]);
      assert forall i :: 1 <= i < |taken| ==> taken[i] == taken[1..][i - 1];
      if |taken[0]| < |rest| then rest else taken[0] + "x"
  }

  /**
   After the close, a join request can still run into it exactly when a reading transaction is open
   that has not sent.
   */
  lemma LateSendIff(w: World)
    requires Sound(w) && w.session.Some? && !Locked(w) && w.session.value.intents.closes == 1
    ensures CanBeLate(w) <==> w.begun + w.registered > 0
  {
    if w.registered > 0 {
      assert Run(w, [SendIn]) == After(w, SendIn) by { OneStep(w, SendIn); }
      assert OneSession(w, [SendIn]) && LateIn(w, [SendIn]);
    } else if w.begun > 0 {
      var fingerprint := Unlike(w.session.value.fingerprints);
      assert fingerprint !in w.session.value.fingerprints;
      var step := RegisterIn(fingerprint);
      var next := After(w, step);
      assert next.registered == 1;
      OneStep(next, SendIn);
      var steps := [step, SendIn];
      assert steps[1..] == [SendIn];
      assert OneSession(next, [SendIn]) && OneSession(w, steps);
      assert Run(w, steps) == After(next, SendIn);
      assert LateIn(w, steps);
    } else {
      forall steps | OneSession(w, steps)
        ensures !LateIn(w, steps)
      {
        NobodyLeft(w, steps);
      }
    }
  }

  /**
   Where a stop comes to the exit channel, the hook after a join can always get in its way, unless
   that is closed already.
   */
  ghost predicate CanCutExit(w: World)
    requires w.session.Some?
  {
    exists steps :: During(w, steps) && ExitCutIn(w, steps)
  }

  ghost predicate ExitCutIn(w: World, steps: seq<Step>)
    requires w.session.Some?
  {
    Run(w, steps).session.Some? && Run(w, steps).session.value.exit.cut > w.session.value.exit.cut
  }

  lemma {:induction false} ExitCuttingRun(w: World) returns (steps: seq<Step>)
    requires w.session.Some? && w.session.value.stop == Some(PollExit) && w.session.value.exit.closes == 0
    ensures During(w, steps) && ExitCutIn(w, steps)
    decreases w.session.value.exit.waiting
  {
    if w.session.value.exit.waiting > 0 {
      var rest := ExitCuttingRun(After(w, ExitSendEnds));
      steps := [ExitSendEnds] + rest;
      assert steps[1..] == rest;
    } else {
      steps := [StopGoesOn, ExitSends, StopGoesOn];
      var polled := After(w, StopGoesOn);
      var sent := After(polled, ExitSends);
      var closed := After(sent, StopGoesOn);
      assert polled.session.value.stop == Some(CloseExit) && sent.session.value.exit.waiting == 1;
      assert steps[1..] == [ExitSends, StopGoesOn] && steps[1..][1..] == [StopGoesOn] && steps[1..][1..][1..] == [];
      assert Run(sent, [StopGoesOn]) == closed;
      assert Run(polled, [ExitSends, StopGoesOn]) == closed;
    }
  }

  lemma {:induction false} ExitIsClosed(w: World, steps: seq<Step>)
    requires w.session.Some? && During(w, steps)
    requires w.session.value.exit.closes == 1 && w.session.value.stop != Some(CloseExit)
    ensures !ExitCutIn(w, steps)
    ensures Run(w, steps).session.Some? && Run(w, steps).session.value.exit.cut == w.session.value.exit.cut
    decreases |steps|
  {
    if steps != [] {
      ExitIsClosed(After(w, steps[0]), steps[1..]);
    }
  }

  /** No lock protects the exit channel: any stop that finds it open can close it on the hook, writing or reading. */
  lemma ExitIsSafeIffClosed(w: World)
    requires Sound(w) && w.session.Some? && w.session.value.stop == Some(PollExit)
    ensures !CanCutExit(w) <==> w.session.value.exit.closes == 1
  {
    if w.session.value.exit.closes == 1 {
      forall steps | During(w, steps)
        ensures !ExitCutIn(w, steps)
      {
        ExitIsClosed(w, steps);
      }
    } else {
      var steps := ExitCuttingRun(w);
    }
  }

  /** No join request is about to send or sending. */
  predicate Quiet(w: World) {
    w.session.Some? && w.registered == 0 && w.session.value.intents.waiting == 0
  }

  /** Past its intents a stop has them closed. */
  predicate ClosedBehind(w: World) {
    w.session.Some?
    && (w.session.value.stop != Some(PollIntents) && w.session.value.stop != Some(CloseIntents) ==>
          w.session.value.intents.closes > 0)
  }

  lemma QuietStep(w: World, step: Step)
    requires Locked(w) && Quiet(w) && ClosedBehind(w)
    ensures Quiet(After(w, step)) && ClosedBehind(After(w, step))
  {
  }

  /**
   A stop that begins with no join intent under way leaves the intents closed
   when it ends, and has hurt nobody on them, whatever comes between its steps.
   */
  lemma {:induction false} QuietStopCloses(w: World, steps: seq<Step>)
    requires Sound(w) && Locked(w) && Quiet(w) && ClosedBehind(w)
    requires During(w, steps) && !Locked(Run(w, steps))
    ensures var t := Run(w, steps);
      Sound(t) && t.session.Some? && t.session.value.intents.closes == 1
      && t.session.value.intents.cut == w.session.value.intents.cut
    decreases |steps|
  {
    hide After, Quiet;
    if steps != [] {
      var next := After(w, steps[0]);
      QuietIsHarmless(w);
      HarmlessStep(w, steps[0]);
      StepSound(w, steps[0]);
      QuietStep(w, steps[0]);
      if Locked(next) {
        QuietStopCloses(next, steps[1..]);
      } else {
        assert steps[1..] == [] || Locked(next);
      }
    }
  }

  /** When the stop has let go of the lock the intents are still open. */
  ghost predicate OpenAtEnd(w: World, steps: seq<Step>) {
    !Locked(Run(w, steps)) && Run(w, steps).session.Some? && Run(w, steps).session.value.intents.closes == 0
  }

  ghost predicate CanStayOpen(w: World) {
    exists steps :: During(w, steps) && OpenAtEnd(w, steps)
  }

  /**
   A stop can end with the intents still open exactly when it finds them open and some join request is
   sending or about to: the stop takes that intent instead of closing.
   */
  lemma StaysOpenIff(w: World)
    requires Sound(w) && w.session.Some? && w.session.value.stop == Some(PollIntents)
    ensures CanStayOpen(w)
       <==> w.session.value.intents.closes == 0 && (w.session.value.intents.waiting > 0 || w.registered > 0)
  {
    if w.session.value.intents.closes == 1 {
      forall steps | During(w, steps)
        ensures !OpenAtEnd(w, steps)
      {
        StaysClosed(w, steps);
      }
    } else if Quiet(w) {
      forall steps | During(w, steps)
        ensures !OpenAtEnd(w, steps)
      {
        if !Locked(Run(w, steps)) {
          QuietStopCloses(w, steps);
        }
      }
    } else {
      var steps := TakingRun(w);
    }
  }

  lemma {:induction false} StaysClosed(w: World, steps: seq<Step>)
    requires w.session.Some? && w.session.value.intents.closes > 0 && During(w, steps)
    ensures Run(w, steps).session.Some? && Run(w, steps).session.value.intents.closes > 0
    decreases |steps|
  {
    hide After;
    if steps != [] {
      ClosedStep(w, steps[0]);
      StaysClosed(After(w, steps[0]), steps[1..]);
    }
  }

  lemma ClosedStep(w: World, step: Step)
    requires w.session.Some? && w.session.value.intents.closes > 0 && Locked(w)
    ensures After(w, step).session.Some? && After(w, step).session.value.intents.closes > 0
  {
  }

  /** A request sends if none is sending yet, and the stop's poll takes the intent; then it goes on to the exit. */
  lemma TakingRun(w: World) returns (steps: seq<Step>)
    requires w.session.Some? && w.session.value.stop == Some(PollIntents)
    requires w.session.value.intents.closes == 0 && (w.session.value.intents.waiting > 0 || w.registered > 0)
    ensures During(w, steps) && OpenAtEnd(w, steps)
  {
    if w.session.value.intents.waiting > 0 {
      var rest := EndingRun(After(w, StopGoesOn));
      steps := [StopGoesOn] + rest;
      FirstThen(w, StopGoesOn, rest);
    } else {
      var sent := After(w, SendIn);
      var rest := EndingRun(After(sent, StopGoesOn));
      FirstThen(sent, StopGoesOn, rest);
      steps := [SendIn] + ([StopGoesOn] + rest);
      FirstThen(w, SendIn, [StopGoesOn] + rest);
    }
  }

  lemma FirstThen(w: World, step: Step, rest: seq<Step>)
    requires Locked(w) && During(After(w, step), rest)
    ensures During(w, [step] + rest) && Run(w, [step] + rest) == Run(After(w, step), rest)
  {
    assert ([step] + rest)[1..] == rest;
  }

  /** Left alone at the exit channel, a stop ends and leaves the intents as they are. */
  lemma EndingRun(w: World) returns (steps: seq<Step>)
    requires w.session.Some? && w.session.value.stop == Some(PollExit)
    ensures During(w, steps) && Run(w, steps).session.Some? && !Locked(Run(w, steps))
    ensures Run(w, steps).session.value.intents == w.session.value.intents
  {
    var next := After(w, StopGoesOn);
    if Locked(next) {
      FirstThen(next, StopGoesOn, []);
      FirstThen(w, StopGoesOn, [StopGoesOn] + []);
      steps := [StopGoesOn] + ([StopGoesOn] + []);
    } else {
      FirstThen(w, StopGoesOn, []);
      steps := [StopGoesOn] + [];
    }
  }

  lemma QuietIsHarmless(w: World)
    requires Quiet(w)
    ensures Harmless(w)
  {
  }

  lemma GoOnSound(s: Session)
    requires SoundSession(s)
    ensures SoundSession(GoOn(s)) && GoOn(s).intents.closes <= 1 && GoOn(s).exit.closes <= 1
  {
    hide Distinct;
  }

  lemma FindsOpen(s: Session)
    requires SoundSession(s)
    ensures s.stop == Some(CloseIntents) ==> s.intents.closes == 0
    ensures s.stop == Some(CloseExit) ==> s.exit.closes == 0
  {
  }

  // ----- The objects -----

  class TrustSession {
    var passphrase: string
    var trustStore: map<string, Cert>
    var failedAttempts: nat
    var fingerprints: seq<string>
    var discovery: bool
    var joinIntents: Channel
    var exit: Channel
    /** Where a stop under way is; its lock keeps every other method out. */
    var stopping: Option<Place>

    ghost function Value(): Session
      reads this
    {
      Session(passphrase, trustStore, failedAttempts, fingerprints, discovery, joinIntents, exit, stopping)
    }

    constructor (phrase: string)
      ensures Value() == NewSession(phrase)
    {
      passphrase, trustStore, failedAttempts, fingerprints := phrase, map[], 0, [];
      discovery, joinIntents, exit, stopping := false, OPEN, OPEN, None;
    }

    method AllowCert(name: string, cert: Cert)
      requires stopping.None?
      modifies this
      ensures Value() == old(Value()).(trust := old(Value()).trust[name := cert])
    {
      trustStore := trustStore[name := cert];
    }

    method RegisterIntent(fingerprint: string) returns (ok: bool)
      requires stopping.None?
      modifies this
      ensures Value() == Register(old(Value()), fingerprint) && ok == (fingerprint !in old(Value()).fingerprints)
    {
      if fingerprint in fingerprints {
        return false;
      }
      fingerprints := fingerprints + [fingerprint];
      ok := true;
    }

    method RegisterFailedAttempt() returns (ok: bool)
      requires stopping.None?
      modifies this
      ensures ok == (old(Value()).failed != ALLOWED_FAILURES)
      ensures Value() == if ok then old(Value()).(failed := old(Value()).failed + 1) else old(Value())
    {
      if failedAttempts == ALLOWED_FAILURES {
        return false;
      }
      failedAttempts := failedAttempts + 1;
      ok := true;
    }

    /** Stop up to its channels; when it goes on, the lock stays held. */
    method StartStop(cause: bool, fate: Fate) returns (ok: bool)
      requires stopping.None?
      modifies this
      ensures Value() == BeginStop(old(Value()), cause, fate) && ok == !StopFails(old(Value()), cause, fate)
    {
      if cause && fate.websocketFails {
        return false;
      }
      if discovery && fate.discoveryFails {
        return false;
      }
      passphrase, trustStore, fingerprints, failedAttempts := "", map[], [], 0;
      stopping := Some(PollIntents);
      ok := true;
    }

    /** The next poll or close of Stop; anyone may send before it. A close only ever meets an open channel. */
    method ContinueStop()
      requires stopping.Some? && SoundSession(Value())
      modifies this
      ensures Value() == GoOn(old(Value())) && SoundSession(Value())
      ensures joinIntents.closes <= 1 && exit.closes <= 1
    {
      hide SoundSession;
      FindsOpen(Value());
      GoOnSound(Value());
      match stopping.value {
        case PollIntents =>
          if joinIntents.closes > 0 {
            stopping := Some(PollExit);
          } else if joinIntents.waiting > 0 {
            joinIntents := joinIntents.(waiting := joinIntents.waiting - 1);
            stopping := Some(PollExit);
          } else {
            stopping := Some(CloseIntents);
          }
        case CloseIntents =>
          assert joinIntents.closes == 0;
          joinIntents := Close(joinIntents);
          stopping := Some(PollExit);
        case PollExit =>
          if exit.closes > 0 {
            stopping := None;
          } else if exit.waiting > 0 {
            exit := exit.(waiting := exit.waiting - 1);
            stopping := None;
          } else {
            stopping := Some(CloseExit);
          }
        case CloseExit =>
          assert exit.closes == 0;
          exit := Close(exit);
          stopping := None;
      }
    }
  }

  class Handler {
    var session: TrustSession?
    /** Reading transactions that have just begun, and those of join requests that have registered. */
    var begun: nat
    var registered: nat

    ghost function Contents(): World
      reads this, session
    {
      World(if session == null then None else Some(session.Value()), begun, registered)
    }

    ghost predicate Valid()
      reads this, session
    {
      Sound(Contents())
    }

    /** Waits for the handler's lock; the passphrase is the given or the generated one. */
    method StartSession(passphrase: string)
      requires Valid() && Free(Contents()) && passphrase != ""
      modifies this
      ensures Valid() && Contents() == After(old(Contents()), Start(passphrase)) && fresh(session)
    {
      session := new TrustSession(passphrase);
    }

    /** A stop in a writing transaction. */
    method StopHandler(cause: bool, fate: Fate) returns (ok: bool)
      requires Valid() && Free(Contents())
      modifies session
      ensures Valid() && Contents() == After(old(Contents()), HandlerStops(cause, fate))
      ensures ok == (old(session) == null || !StopFails(old(session.Value()), cause, fate))
    {
      StepSound(Contents(), HandlerStops(cause, fate));
      ok := true;
      if session != null {
        ok := session.StartStop(cause, fate);
      }
    }

    /** A writing transaction around a request whose HMAC does not match. */
    method AuthenticateWrongly(fate: Fate) returns (ok: bool)
      requires Valid() && Free(Contents())
      modifies session
      ensures !ok && Valid() && Contents() == After(old(Contents()), AuthFails(fate))
    {
      StepSound(Contents(), AuthFails(fate));
      ok := false;
      if session != null && session.passphrase != "" {
        var counted := session.RegisterFailedAttempt();
        if !counted {
          var stopped := session.StartStop(true, fate);
        }
      }
    }

    method ActiveSession() returns (active: bool)
      ensures active == Active(Contents())
    {
      active := session != null && session.passphrase != "";
    }

    method TemporaryTrustStore() returns (store: map<string, Cert>)
      ensures store == TrustRead(Contents())
    {
      store := map[];
      if session != null && session.passphrase != "" {
        store := session.trustStore;
      }
    }

    /** A reading transaction opens when the session is active. */
    method BeginReading() returns (ok: bool)
      requires Valid() && !Locked(Contents())
      modifies this
      ensures ok == Active(old(Contents())) && Valid() && Contents() == After(old(Contents()), BeginRead)
      ensures session == old(session)
    {
      StepSound(Contents(), BeginRead);
      ok := session != null && session.passphrase != "";
      if ok {
        begun := begun + 1;
      }
    }

    /** The stop request, inside its reading transaction. */
    method StopReading(fate: Fate) returns (ok: bool)
      requires Valid() && begun > 0 && !Locked(Contents())
      modifies this, session
      ensures Valid() && Contents() == After(old(Contents()), StopIn(fate))
      ensures session == old(session) && ok == !StopFails(old(session.Value()), true, fate)
    {
      StepSound(Contents(), StopIn(fate));
      ok := session.StartStop(true, fate);
      begun := begun - 1;
    }

    /** A stop of either kind goes on. */
    method GoOnStopping()
      requires Valid() && Locked(Contents())
      modifies session
      ensures Valid() && Contents() == After(old(Contents()), StopGoesOn)
    {
      StepSound(Contents(), StopGoesOn);
      session.ContinueStop();
    }

    /** The join request's registration, inside its reading transaction. */
    method RegisterReading(fingerprint: string) returns (ok: bool)
      requires Valid() && begun > 0 && !Locked(Contents())
      modifies this, session
      ensures Valid() && Contents() == After(old(Contents()), RegisterIn(fingerprint))
      ensures session == old(session) && ok == (fingerprint !in old(session.Value()).fingerprints)
    {
      StepSound(Contents(), RegisterIn(fingerprint));
      ok := session.RegisterIntent(fingerprint);
      begun := begun - 1;
      if ok {
        registered := registered + 1;
      }
    }

    /** Then it sends its intent: it waits, or panics on a closed channel. */
    method SendIntent()
      requires Valid() && registered > 0
      modifies this, session
      ensures Valid() && Contents() == After(old(Contents()), SendIn) && session == old(session)
    {
      StepSound(Contents(), SendIn);
      registered := registered - 1;
      session.joinIntents := Send(session.joinIntents);
    }
  }
}
