/** staticsources/handler.go: the handler's loop, the runs of its source, and the path that starts and stops it. */
module StaticSourceHandler {
  import PathState
  import PathSafety

  datatype Message = ReadyMessage | NotReadyMessage

  datatype RunPhase =
    | Working
    | Asking(message: Message)   // blocked on chInstanceSetReady or chInstanceSetNotReady
    | Awaiting(message: Message) // the loop has taken the request; blocked on its response
    | Returning                  // Run has returned; its goroutine is blocked on runErr

  // One call of instance.Run, with the configuration it was given (as a version number).
  // ready: SetReady was accepted and SetNotReady was not called since.
  datatype Run = Run(generation: nat, conf: nat, phase: RunPhase, ready: bool)

  datatype Loop =
    | Ended      // no goroutine of the handler exists: before Start, or done is closed
    | Selecting
    | Forwarding(message: Message) // inside StaticSourceHandlerSetReady or SetNotReady
    | Draining   // the context is done; blocked on runErr

  datatype Event =
    | Started
    | StopBegins
    | StopReturns
    | PathContextDone
    | Asks(run: nat, message: Message)
    | AskTerminated(run: nat)
    | Returns(run: nat)
    | Abandons(run: nat)         // Run returns although it was accepted as ready, without a word
    | TakesRequest(run: nat)
    | Delivered(ok: bool, thenStop: bool) // the path receives the forwarded message and answers it
    | ReadyDropped               // a context is done before the path receives the forwarded message
    | NotReadyDropped
    | Reloads(newConf: nat)
    | RunFailed(run: nat)
    | RecreateTimer
    | ContextDone
    | Drained(run: nat)

  datatype State = State(
    // the handler
    running: bool,
    cancelled: bool,
    loop: Loop,
    recreating: bool,
    recreateTimer: bool,
    conf: nat,
    // its runs
    live: seq<Run>,
    generation: nat,
    // the path
    stopping: bool,        // the path is inside Stop
    accepted: bool,        // the path holds the stream of a run that it accepted
    pathContextDone: bool,
    // observation
    forsaken: bool         // that run is over or no longer ready, and the path was not told
  ) {
    function Recreate(): State {
      this.(live := live + [Run(generation, conf, Working, false)])
    }

    function StartHandler(): State {
      this.(running := true, cancelled := false, generation := generation + 1, loop := Selecting,
            recreating := false, recreateTimer := false).Recreate()
    }

    function BeginStop(): State {
      this.(running := false, cancelled := true, stopping := true, accepted := false, forsaken := false)
    }

    function WithRun(i: nat, r: Run): State
      requires i < |live|
    {
      this.(live := live[i := r])
    }

    function WithoutRun(i: nat): State
      requires i < |live|
    {
      this.(live := live[..i] + live[i + 1..])
    }

    // The run whose request is being forwarded gets its response.
    function Respond(ready: bool): State {
      this.(loop := Selecting,
            live := seq(|live|, i requires 0 <= i < |live| =>
              if live[i].phase.Awaiting? then live[i].(phase := Working, ready := ready) else live[i]))
    }

    predicate Enabled(e: Event) {
      match e
      case Started => !running && !stopping
      case StopBegins => running && !stopping
      case StopReturns => stopping && loop == Ended
      case PathContextDone => !pathContextDone
      // a run asks in turn: ready, and not ready only after ready was accepted
      case Asks(i, m) => i < |live| && live[i].phase == Working && (m == NotReadyMessage <==> live[i].ready)
      case AskTerminated(i) => i < |live| && live[i].phase.Asking? && cancelled
      case Returns(i) => i < |live| && live[i].phase == Working && !live[i].ready
      case Abandons(i) => i < |live| && live[i].phase == Working && live[i].ready
      case TakesRequest(i) => loop == Selecting && i < |live| && live[i].phase.Asking?
      case Delivered(ok, thenStop) =>
        loop.Forwarding? && !stopping && (thenStop ==> loop.message == NotReadyMessage && running)
      case ReadyDropped => loop == Forwarding(ReadyMessage) && (cancelled || pathContextDone)
      case NotReadyDropped => loop == Forwarding(NotReadyMessage) && (cancelled || pathContextDone)
      case Reloads(_) => loop == Selecting
      case RunFailed(i) => loop == Selecting && i < |live| && live[i].phase == Returning
      case RecreateTimer => loop == Selecting && recreateTimer
      case ContextDone => loop == Selecting && cancelled
      case Drained(i) => loop == Draining && i < |live| && live[i].phase == Returning
    }

    function Step(e: Event): State
      requires Enabled(e)
    {
      match e
      case Started => StartHandler()
      case StopBegins => BeginStop()
      case StopReturns => this.(stopping := false)
      case PathContextDone => this.(pathContextDone := true)
      case Asks(i, m) => WithRun(i, live[i].(phase := Asking(m)))
      case AskTerminated(i) => WithRun(i, live[i].(phase := Working, ready := false))
      case Returns(i) => WithRun(i, live[i].(phase := Returning))
      case Abandons(i) => WithRun(i, live[i].(phase := Returning, ready := false)).(forsaken := accepted)
      case TakesRequest(i) =>
        WithRun(i, live[i].(phase := Awaiting(live[i].phase.message))).(loop := Forwarding(live[i].phase.message))
      case Delivered(ok, thenStop) =>
        if loop.message == ReadyMessage then
          Respond(ok).(accepted := accepted || ok, forsaken := forsaken && !ok)
        else
          var s := Respond(false).(accepted := false);
          if thenStop then s.BeginStop() else s
      case ReadyDropped => Respond(false)
      case NotReadyDropped => Respond(false).(forsaken := accepted)
      case Reloads(newConf) => this.(conf := newConf)
      case RunFailed(i) => WithoutRun(i).(recreating := true, recreateTimer := true)
      case RecreateTimer => Recreate().(recreating := false, recreateTimer := false)
      case ContextDone => if recreating then this.(loop := Ended) else this.(loop := Draining)
      case Drained(i) => WithoutRun(i).(loop := Ended)
    }
  }

  const INITIAL: State := State(false, false, Ended, false, false, 0, [], 0, false, false, false, false)

  datatype History = Begin | Then(before: History, last: Event)

  ghost predicate Reachable(s: State, h: History)
    decreases h
  {
    match h
    case Begin => s == INITIAL
    case Then(before, e) => exists p :: Reachable(p, before) && StepsTo(p, e, s)
  }

  ghost predicate StepsTo(s: State, e: Event, t: State) {
    s.Enabled(e) && t == s.Step(e)
  }

  ghost predicate Inv(s: State) {
    && |s.live| <= 1
    && (s.loop == Ended ==> s.live == [] && !s.running)
    && (s.loop != Ended ==> (s.recreating <==> s.live == []))
    && (s.loop != Ended ==> (s.recreateTimer <==> s.recreating))
    && (s.loop == Draining ==> !s.recreating && s.cancelled)
    && (s.live != [] ==> s.live[0].generation == s.generation)
    && (s.live != [] ==> (s.live[0].phase.Awaiting? <==> s.loop.Forwarding?))
    && (s.loop.Forwarding? ==> s.live != [] && s.live[0].phase == Awaiting(s.loop.message))
    && (s.live != [] && (s.live[0].phase.Asking? || s.live[0].phase.Awaiting?) ==>
          (s.live[0].phase.message == NotReadyMessage <==> s.live[0].ready))
    && (s.live != [] && s.live[0].phase == Returning ==> !s.live[0].ready)
    && (s.running ==> !s.cancelled && !s.stopping)
    && (!s.running && !s.stopping ==> s.loop == Ended)
    && (s.stopping ==> s.cancelled)
    && (!s.running ==> !s.accepted)
    && (s.forsaken ==> s.accepted && !IsReady(s))
    && (s.running ==> (s.accepted <==> s.forsaken || IsReady(s)))
  }

  predicate IsReady(s: State) {
    s.live != [] && s.live[0].ready
  }

  predicate IsOfARun(e: Event) {
    || e.Asks? || e.AskTerminated? || e.Returns? || e.Abandons? || e.TakesRequest? || e.RunFailed? || e.Drained?
  }

  predicate IsAnAnswer(e: Event) {
    e.Delivered? || e.ReadyDropped? || e.NotReadyDropped?
  }

  lemma RunEventInv(s: State, e: Event)
    requires Inv(s) && s.Enabled(e) && IsOfARun(e)
    ensures Inv(s.Step(e))
  {
  }

  lemma AnswerInv(s: State, e: Event)
    requires Inv(s) && s.Enabled(e) && IsAnAnswer(e)
    ensures Inv(s.Step(e))
  {
  }

  lemma HandlerEventInv(s: State, e: Event)
    requires Inv(s) && s.Enabled(e) && !IsOfARun(e) && !IsAnAnswer(e)
    ensures Inv(s.Step(e))
  {
  }

  lemma StepInv(s: State, e: Event)
    requires Inv(s) && s.Enabled(e)
    ensures Inv(s.Step(e))
  {
    hide *;
    if IsOfARun(e) {
      RunEventInv(s, e);
    } else if IsAnAnswer(e) {
      AnswerInv(s, e);
    } else {
      HandlerEventInv(s, e);
    }
  }

  lemma {:induction false} ReachableInv(s: State, h: History)
    requires Reachable(s, h)
    ensures Inv(s)
    decreases h
  {
    match h
    case Begin =>
    case Then(before, e) =>
      var p :| Reachable(p, before) && StepsTo(p, e, s);
      ReachableInv(p, before);
      hide Inv, State.Step, State.Enabled;
      StepInv(p, e);
  }

  // In every run of the handler one call of the source's Run is live, or none is and one is being awaited;
  // when Stop returns, none is.
  lemma AtMostOneRunIsLive(s: State, h: History)
    requires Reachable(s, h)
    ensures |s.live| <= 1
    ensures s.running ==> (s.recreating <==> s.live == [])
    ensures s.Enabled(StopReturns) ==> s.live == []
    ensures !s.running && !s.stopping ==> s.live == []
  {
    ReachableInv(s, h);
  }

  // The configuration of the last reload that the loop took; 0 is the one that the handler was made with.
  function LastReload(h: History): nat {
    match h
    case Begin => 0
    case Then(before, e) => if e.Reloads? then e.newConf else LastReload(before)
  }

  lemma {:induction false} ConfIsThatOfTheLastReload(s: State, h: History)
    requires Reachable(s, h)
    ensures s.conf == LastReload(h)
    decreases h
  {
    match h
    case Begin =>
    case Then(before, e) =>
      var p :| Reachable(p, before) && StepsTo(p, e, s);
      hide State.Step, State.Enabled;
      ConfIsThatOfTheLastReload(p, before);
      StepChangesConf(p, e);
  }

  lemma StepChangesConf(s: State, e: Event)
    requires s.Enabled(e)
    ensures s.Step(e).conf == if e.Reloads? then e.newConf else s.conf
  {
  }

  // Every call of Run, at a start and after a pause, is given that configuration, and is the only live one.
  lemma RunsGetTheLastReload(s: State, h: History, e: Event)
    requires Reachable(s, h) && s.Enabled(e) && (e == Started || e == RecreateTimer)
    ensures s.Step(e).live == [Run(s.Step(e).generation, LastReload(h), Working, false)]
    ensures s.Step(e).generation == s.generation + if e == Started then 1 else 0
  {
    ReachableInv(s, h);
    ConfIsThatOfTheLastReload(s, h);
    hide Reachable;
  }

  // A message reaches the path only from the run of the current start, while the handler is running.
  // Ready and not ready alternate exactly unless the run that the path had accepted was forsaken.
  lemma DeliveredMessagesAreFresh(s: State, h: History, ok: bool, thenStop: bool)
    requires Reachable(s, h) && s.Enabled(Delivered(ok, thenStop))
    ensures s.running && |s.live| == 1 && s.live[0].generation == s.generation
    ensures (s.loop.message == NotReadyMessage <==> s.accepted) <==> !s.forsaken
    ensures s.loop.message == NotReadyMessage ==> s.accepted
  {
    ReachableInv(s, h);
  }

  predicate NobodyAbandons(h: History) {
    h.Then? ==> !h.last.Abandons? && NobodyAbandons(h.before)
  }

  // A run is forsaken by exactly two steps: it returns while the path holds its stream, or its not-ready message is
  // dropped, which happens only once the path's context is done.
  lemma ForsakenExactly(s: State, e: Event)
    requires Inv(s) && s.Enabled(e)
    ensures !s.forsaken ==> (s.Step(e).forsaken <==> s.accepted && (e.Abandons? || e == NotReadyDropped))
    ensures s.accepted && e == NotReadyDropped ==> s.pathContextDone
    ensures s.pathContextDone ==> s.Step(e).pathContextDone
  {
  }

  // Over whole histories: no run is forsaken while the path's context is not done, unless one returned while ready.
  lemma {:induction false} ForsakenHasACause(s: State, h: History)
    requires Reachable(s, h) && NobodyAbandons(h) && !s.pathContextDone
    ensures !s.forsaken
    decreases h
  {
    match h
    case Begin =>
    case Then(before, e) =>
      var p :| Reachable(p, before) && StepsTo(p, e, s);
      hide Inv, State.Step, State.Enabled;
      ReachableInv(p, before);
      ForsakenExactly(p, e);
      ForsakenHasACause(p, before);
  }

  // The messages are what PathState expects of a static source, and they fit its machine unless the
  // sub-stream fails or the run that the path had accepted was forsaken.
  lemma DeliveredMessagesAreEnabled(s: State, h: History, ok: bool, thenStop: bool, path: PathState.State)
    requires Reachable(s, h) && s.Enabled(Delivered(ok, thenStop))
    requires path.handlerRunning == s.running && path.sourceAccepted == s.accepted
    ensures var e := if s.loop.message == ReadyMessage then PathState.SetReady(ok) else PathState.SetNotReady;
            && path.Enabled(e)
            && (PathSafety.Fits(path, e) <==>
                  path.conf.alwaysAvailable || s.loop.message == NotReadyMessage || (ok && !s.forsaken))
  {
    DeliveredMessagesAreFresh(s, h, ok, thenStop);
  }

  // ---- Stop returns ----

  function LoopRank(loop: Loop): nat {
    match loop
    case Ended => 0
    case Draining => 1
    case _ => 2
  }

  function RunRank(phase: RunPhase): nat {
    match phase
    case Returning => 1
    case Working => 2
    case _ => 3
  }

  // How many steps away Stop is from returning, at most, if nothing delays it.
  function Distance(s: State): nat {
    LoopRank(s.loop) + if s.live == [] then 0 else RunRank(s.live[0].phase)
  }

  // A source that asks once more, the select choosing another arm although its context is done, and the path's context.
  predicate Delays(e: Event) {
    e.Asks? || e.TakesRequest? || e.RunFailed? || e.RecreateTimer? || e.Reloads? || e.PathContextDone?
  }

  lemma StopProgresses(s: State, e: Event)
    requires Inv(s) && s.stopping && s.Enabled(e) && e != StopReturns
    ensures s.Step(e).stopping
    ensures if Delays(e) then Distance(s.Step(e)) <= Distance(s) + 2 else Distance(s.Step(e)) < Distance(s)
  {
  }

  // While Stop waits it can return at the end of that distance and not before, and until then there is a step
  // that shortens it.
  lemma StopIsNeverStuck(s: State, h: History)
    requires Reachable(s, h) && s.stopping
    ensures s.Enabled(StopReturns) <==> Distance(s) == 0
    ensures Distance(s) > 0 ==> exists e: Event :: s.Enabled(e) && !Delays(e) && e != StopReturns
  {
    ReachableInv(s, h);
    hide Reachable;
    if Distance(s) > 0 {
      var e := NextToReturn(s);
      assert s.Enabled(e);
    }
  }

  lemma NextToReturn(s: State) returns (e: Event)
    requires Inv(s) && s.stopping && s.loop != Ended
    ensures s.Enabled(e) && !Delays(e) && e != StopReturns
  {
    match s.loop
    case Selecting => e := ContextDone;
    case Forwarding(message) => e := if message == ReadyMessage then ReadyDropped else NotReadyDropped;
    case Draining =>
      var r := s.live[0];
      e := if r.phase.Asking? then AskTerminated(0)
           else if r.phase == Returning then Drained(0)
           else if r.ready then Abandons(0) else Returns(0);
  }

  // The events happen one after the other, and Stop does not return in them.
  ghost predicate HappenWhileStopping(s: State, es: seq<Event>)
    decreases |es|
  {
    es == [] ||
    (s.Enabled(es[0]) && es[0] != StopReturns && HappenWhileStopping(s.Step(es[0]), es[1..]))
  }

  function CountDelays(es: seq<Event>): nat {
    if es == [] then 0 else (if Delays(es[0]) then 1 else 0) + CountDelays(es[1..])
  }

  // However the goroutines are scheduled, Stop returns after a bounded number of steps for each delay: under any
  // fair choice, once the source stops asking.
  lemma {:induction false} StopReturnsInTime(s: State, es: seq<Event>)
    requires Inv(s) && s.stopping && HappenWhileStopping(s, es)
    ensures |es| <= Distance(s) + 3 * CountDelays(es)
    decreases |es|
  {
    if es != [] {
      StopProgresses(s, es[0]);
      StepInv(s, es[0]);
      StopReturnsInTime(s.Step(es[0]), es[1..]);
    }
  }

  // ---- runs in which the order is lost ----

  // A run that returns while it is ready, as the secondary stream of a camera does, lets the next run announce
  // itself to a path that still holds the old stream.
  lemma OrderIsLostAfterAReadyRunReturns()
    ensures exists s: State, h: History ::
              && Reachable(s, h) && s.Enabled(Delivered(true, false)) && !s.pathContextDone
              && s.loop.message == ReadyMessage && s.accepted
  {
    hide Reachable;
    var s, done := SourceIsAccepted();
    s, done := Extend(s, done, Abandons(0));
    s, done := NextRunAsks(s, done);
  }

  // Once the path's own context is done, so does a not-ready message that was dropped for that reason.
  lemma OrderIsLostAfterPathContextDone()
    ensures exists s: State, h: History ::
              && Reachable(s, h) && NobodyAbandons(h) && s.Enabled(Delivered(true, false))
              && s.loop.message == ReadyMessage && s.accepted
  {
    hide Reachable;
    var s, done := NotReadyIsDropped();
    s, done := Extend(s, done, Returns(0));
    s, done := NextRunAsks(s, done);
  }

  // The path accepted the run and holds its stream.
  function SourceAccepted(r: Run): State {
    State(true, false, Selecting, false, false, 0, [r], 1, false, true, false, false)
  }

  lemma SourceIsAccepted() returns (s: State, done: History)
    ensures Reachable(s, done) && NobodyAbandons(done)
    ensures s == SourceAccepted(Run(1, 0, Working, true))
  {
    s, done := INITIAL, Begin;
    hide Reachable;
    s, done := Extend(s, done, Started);
    s, done := Extend(s, done, Asks(0, ReadyMessage));
    s, done := Extend(s, done, TakesRequest(0));
    s, done := Extend(s, done, Delivered(true, false));
  }

  lemma NotReadyIsDropped() returns (s: State, done: History)
    ensures Reachable(s, done) && NobodyAbandons(done)
    ensures s == SourceAccepted(Run(1, 0, Working, false)).(pathContextDone := true, forsaken := true)
  {
    hide Reachable;
    s, done := SourceIsAccepted();
    s, done := Extend(s, done, Asks(0, NotReadyMessage));
    s, done := Extend(s, done, TakesRequest(0));
    s, done := DropsNotReady(s, done);
  }

  lemma DropsNotReady(s: State, done: History) returns (t: State, longer: History)
    requires Reachable(s, done) && NobodyAbandons(done)
    requires s == SourceAccepted(Run(1, 0, Awaiting(NotReadyMessage), true)).(loop := Forwarding(NotReadyMessage))
    ensures Reachable(t, longer) && NobodyAbandons(longer)
    ensures t == SourceAccepted(Run(1, 0, Working, false)).(pathContextDone := true, forsaken := true)
  {
    hide Reachable;
    t, longer := Extend(s, done, PathContextDone);
    t, longer := Extend(t, longer, NotReadyDropped);
  }

  // The handler notices that its run is over and starts another one after its pause, and that one becomes ready.
  lemma NextRunAsks(s: State, done: History) returns (t: State, longer: History)
    requires Reachable(s, done) && s.loop == Selecting && s.accepted && !s.stopping
    requires |s.live| == 1 && s.live[0].phase == Returning
    ensures Reachable(t, longer) && (NobodyAbandons(done) ==> NobodyAbandons(longer))
    ensures t.loop == Forwarding(ReadyMessage) && !t.stopping && t.accepted && t.pathContextDone == s.pathContextDone
  {
    hide Reachable;
    t, longer := Extend(s, done, RunFailed(0));
    t, longer := Extend(t, longer, RecreateTimer);
    t, longer := Extend(t, longer, Asks(0, ReadyMessage));
    t, longer := Extend(t, longer, TakesRequest(0));
  }

  lemma Extend(s: State, h: History, e: Event) returns (t: State, longer: History)
    requires Reachable(s, h) && s.Enabled(e)
    ensures t == s.Step(e) && longer == Then(h, e) && Reachable(t, longer)
    ensures NobodyAbandons(h) && !e.Abandons? ==> NobodyAbandons(longer)
  {
    t, longer := s.Step(e), Then(h, e);
    assert StepsTo(s, e, t);
  }

  /** The handler itself. Its goroutines are the ones of View's loop and live runs. */
  class Handler {
    var running: bool
    var cancelled: bool // the context that Start creates and Stop cancels
    var loop: Loop
    var recreating: bool
    var recreateTimer: bool
    var conf: nat
    var live: seq<Run>
    var generation: nat
    ghost var stopping: bool
    ghost var accepted: bool
    ghost var pathContextDone: bool
    ghost var forsaken: bool

    ghost function View(): State
      reads this
    {
      State(running, cancelled, loop, recreating, recreateTimer, conf, live, generation,
            stopping, accepted, pathContextDone, forsaken)
    }

    constructor ()
      ensures View() == INITIAL
    {
      running, cancelled, loop, recreating, recreateTimer := false, false, Ended, false, false;
      conf, live, generation := 0, [], 0;
      stopping, accepted, pathContextDone, forsaken := false, false, false, false;
    }

    // Start, up to and including the first recreate of the new goroutine.
    method Start()
      requires View().Enabled(Started)
      modifies this
      ensures View() == old(View()).Step(Started)
    {
      running, cancelled := true, false;
      generation := generation + 1;
      loop := Selecting;
      Recreate();
      recreating, recreateTimer := false, false;
    }

    // Stop, up to the point where it waits for done.
    method Stop()
      requires View().Enabled(StopBegins)
      modifies this
      ensures View() == old(View()).Step(StopBegins)
    {
      running := false;
      cancelled := true;
      stopping, accepted, forsaken := true, false, false;
    }

    method Recreate()
      modifies this`live
      ensures live == old(live) + [Run(generation, conf, Working, false)]
    {
      live := live + [Run(generation, conf, Working, false)];
    }

    // The answer to the request that is being forwarded.
    method Respond(ready: bool)
      requires |live| <= 1
      modifies this`loop, this`live
      ensures View() == old(View()).Respond(ready)
    {
      loop := Selecting;
      if |live| == 1 {
        if live[0].phase.Awaiting? {
          live := [live[0].(phase := Working, ready := ready)];
        }
      }
    }

    // StaticSourceHandlerSetReady, called by the loop.
    method ForwardReady(e: Event)
      requires loop == Forwarding(ReadyMessage) && |live| <= 1
      requires View().Enabled(e) && (e.Delivered? || e == ReadyDropped)
      modifies this
      ensures View() == old(View()).Step(e)
    {
      hide State.BeginStop, State.StartHandler, State.WithRun, State.WithoutRun, State.Recreate;
      var ok := e.Delivered? && e.ok;
      Respond(ok);
      accepted, forsaken := accepted || ok, forsaken && !ok;
    }

    // StaticSourceHandlerSetNotReady, called by the loop. The path may stop the handler when it has answered.
    method ForwardNotReady(e: Event)
      requires loop == Forwarding(NotReadyMessage) && |live| <= 1
      requires View().Enabled(e) && (e.Delivered? || e == NotReadyDropped)
      modifies this
      ensures View() == old(View()).Step(e)
    {
      Respond(false);
      if e == NotReadyDropped {
        forsaken := accepted;
      } else {
        accepted := false;
        if e.thenStop {
          Stop();
        }
      }
    }

    // The arms of the loop; a request that it takes is answered by Forward.
    method Arm(e: Event)
      requires e.RunFailed? || e.TakesRequest? || e.Reloads? || e.RecreateTimer? || e == ContextDone
      requires View().Enabled(e)
      modifies this
      ensures View() == old(View()).Step(e)
    {
      hide State.BeginStop, State.StartHandler, State.Respond;
      match e
      case RunFailed(i) =>
        live := live[..i] + live[i + 1..];
        recreating := true;
        recreateTimer := true;
      case TakesRequest(i) =>
        loop := Forwarding(live[i].phase.message);
        live := live[i := live[i].(phase := Awaiting(live[i].phase.message))];
      case Reloads(newConf) =>
        conf := newConf;
      case RecreateTimer =>
        recreateTimer := false;
        Recreate();
        recreating := false;
      case ContextDone =>
        if !recreating {
          loop := Draining;
        } else {
          loop := Ended;
        }
    }

    // The error of the last run, for which the loop waits after its context was done.
    method Drain(i: nat)
      requires View().Enabled(Drained(i))
      modifies this`live, this`loop
      ensures View() == old(View()).Step(Drained(i))
    {
      live := live[..i] + live[i + 1..];
      loop := Ended;
    }
  }
}
