/**
 The path manager, its paths and their clients, interleaved (core/path_manager.go and core/path.go).
 Each step is one rendezvous or one atomic action of one goroutine.
 */
module PendingRequests {
  import opened Wrappers
  import opened PathState
  import PathSafety

  type PathId = nat // one incarnation of a path

  datatype Cause = Alive | ClosedIdle | ClosedByReload | ShutDown // why the path's context is done

  datatype Mode =
    | InLoop
    | Handling(req: RequestId) // the request's handler has returned, pendingRequests is not decremented yet
    | Asking                   // blocked in closePathIfIdle
    | Leaving                  // runInner has returned; blocked in removePath
    | Ending                   // tearing down what the path had
    | Gone                     // done is closed

  // The select loop of the path is over.
  predicate HasLeft(m: Mode) {
    m.Leaving? || m.Ending? || m.Gone?
  }

  datatype Actor = Actor(name: string, state: State, mode: Mode, cause: Cause, pendingRequests: int)

  datatype Progress = Assigned(path: PathId) | Taken(path: PathId) | Processed(path: PathId) | Dropped(path: PathId)

  datatype Event =
    | Assign(req: RequestId, name: string, conf: Conf, added: PathId) // doDescribe, doAddReader, doAddPublisher
    | Take(path: PathId, request: PathState.Event)
    | Decrement(path: PathId)
    | Other(path: PathId, other: PathState.Event)
    | CloseIfIdle(path: PathId)  // the manager receives from chClosePathIfIdle
    | StopAsking(path: PathId)   // the path's context is done while it asks
    | CloseForReload(path: PathId)
    | ShutDownAll
    | End(path: PathId)          // the loop receives from its context
    | Remove(path: PathId)       // the manager receives from chRemovePath
    | SkipRemove(path: PathId)   // or the path sees that its context is done first
    | TearDown(path: PathId)
    | WaitEnds
    | ClientGivesUp(req: RequestId)

  predicate IsRequest(e: PathState.Event) {
    e.Describe? || e.AddPublisher? || e.AddReader?
  }

  // The request is counted by the path's pendingRequests.
  predicate InFlightOn(g: Progress, p: PathId) {
    !g.Processed? && g.path == p
  }

  function InFlight(requests: map<RequestId, Progress>, p: PathId): set<RequestId> {
    set r | r in requests && InFlightOn(requests[r], p)
  }

  datatype System = System(
    paths: map<PathId, Actor>,
    byName: map<string, PathId>,         // pathManager.paths
    requests: map<RequestId, Progress>,  // what happened to the requests assigned so far
    waiting: Option<PathId>,             // the manager is inside path.wait()
    down: bool                           // the manager's context is done
  ) {
    function With(p: PathId, a: Actor): System {
      this.(paths := paths[p := a])
    }

    function Close(p: PathId, cause: Cause): System
      requires p in paths
    {
      With(p, paths[p].(cause := if paths[p].cause == Alive then cause else paths[p].cause))
          .(byName := byName - {paths[p].name}, waiting := Some(p))
    }

    // The entry is deleted if it is the one of this path.
    function Removed(p: PathId): System
      requires p in paths
    {
      var name := paths[p].name;
      if name in byName && byName[name] == p then this.(byName := byName - {name}) else this
    }

    predicate Enabled(e: Event) {
      match e
      case Assign(r, name, conf, added) =>
        waiting.None? && r !in requests && added !in paths && (name in byName ==> byName[name] in paths)
      case Take(p, request) =>
        p in paths && paths[p].mode == InLoop && IsRequest(request)
        && request.req in requests && requests[request.req] == Assigned(p)
      case Decrement(p) =>
        p in paths && paths[p].mode.Handling? && paths[p].mode.req in requests
      case Other(p, other) =>
        p in paths && paths[p].mode == InLoop && !IsRequest(other) && paths[p].state.Enabled(other)
      case CloseIfIdle(p) =>
        waiting.None? && p in paths && paths[p].mode == Asking
      case StopAsking(p) =>
        p in paths && paths[p].mode == Asking && (paths[p].cause != Alive || down)
      case CloseForReload(p) =>
        waiting.None? && p in paths && paths[p].name in byName && byName[paths[p].name] == p
      case ShutDownAll => true
      case End(p) => p in paths && paths[p].mode == InLoop && paths[p].cause != Alive
      case Remove(p) => waiting.None? && p in paths && paths[p].mode == Leaving
      case SkipRemove(p) => p in paths && paths[p].mode == Leaving && (paths[p].cause != Alive || down)
      case TearDown(p) => p in paths && paths[p].mode == Ending
      case WaitEnds => waiting.Some? && waiting.value in paths && paths[waiting.value].mode == Gone
      case ClientGivesUp(r) =>
        r in requests && requests[r].Assigned? && requests[r].path in paths && paths[requests[r].path].cause != Alive
    }

    function Step(e: Event): System
      requires Enabled(e)
    {
      match e
      case Assign(r, name, conf, added) =>
        if name in byName then
          var p := byName[name];
          With(p, paths[p].(pendingRequests := paths[p].pendingRequests + 1)).(requests := requests[r := Assigned(p)])
        else
          With(added, Actor(name, Start(conf), InLoop, if down then ShutDown else Alive, 1))
            .(byName := byName[name := added], requests := requests[r := Assigned(added)])
      case Take(p, request) =>
        With(p, paths[p].(state := paths[p].state.Step(request), mode := Handling(request.req)))
          .(requests := requests[request.req := Taken(p)])
      case Decrement(p) =>
        With(p, paths[p].(pendingRequests := paths[p].pendingRequests - 1,
                          mode := if paths[p].state.ShouldClose() then Asking else InLoop))
          .(requests := requests[paths[p].mode.req := Processed(p)])
      case Other(p, other) =>
        With(p, paths[p].(state := paths[p].state.Step(other),
                          mode := if paths[p].state.AsksClose(other) then Asking else InLoop))
      case CloseIfIdle(p) =>
        var s := With(p, paths[p].(mode := InLoop));
        if paths[p].pendingRequests == 0 then s.Close(p, ClosedIdle) else s
      case StopAsking(p) => With(p, paths[p].(mode := InLoop))
      case CloseForReload(p) => Close(p, ClosedByReload)
      case ShutDownAll =>
        this.(down := true,
              paths := map p | p in paths :: paths[p].(cause := if paths[p].cause == Alive then ShutDown
                  else paths[p].cause))
      case End(p) => With(p, paths[p].(mode := Leaving))
      case Remove(p) => Removed(p).With(p, paths[p].(mode := Ending))
      case SkipRemove(p) => With(p, paths[p].(mode := Ending))
      case TearDown(p) => With(p, paths[p].(state := paths[p].state.Teardown(), mode := Gone))
      case WaitEnds => this.(waiting := None)
      case ClientGivesUp(r) => this.(requests := requests[r := Dropped(requests[r].path)])
    }
  }

  const INITIAL: System := System(map[], map[], map[], None, false)

  datatype History = Begin | Then(before: History, last: Event)

  ghost predicate Reachable(s: System, h: History)
    decreases h
  {
    match h
    case Begin => s == INITIAL
    case Then(before, e) => exists p :: Reachable(p, before) && StepsTo(p, e, s)
  }

  ghost predicate StepsTo(s: System, e: Event, t: System) {
    s.Enabled(e) && t == s.Step(e)
  }

  // ---- what every reachable system keeps ----

  // pendingRequests counts the requests that were assigned to the path and that it has not processed.
  ghost predicate Counts(s: System) {
    && (forall r :: r in s.requests ==> s.requests[r].path in s.paths)
    && (forall p :: p in s.paths ==> s.paths[p].pendingRequests == |InFlight(s.requests, p)|)
    && (forall p :: p in s.paths && s.paths[p].mode.Handling? ==>
          s.paths[p].mode.req in s.requests && s.requests[s.paths[p].mode.req] == Taken(p))
  }

  // The manager's map and the paths that are alive.
  ghost predicate Mapped(s: System) {
    && (forall n :: n in s.byName ==> s.byName[n] in s.paths && s.paths[s.byName[n]].name == n)
    && (forall n :: n in s.byName ==> s.paths[s.byName[n]].cause in {Alive, ShutDown})
    && (forall p :: p in s.paths && !HasLeft(s.paths[p].mode) && s.waiting != Some(p) ==>
          s.paths[p].name in s.byName && s.byName[s.paths[p].name] == p)
    && (forall p :: p in s.paths && (HasLeft(s.paths[p].mode) || s.waiting == Some(p)) ==> s.paths[p].cause != Alive)
    && (s.waiting.Some? ==> s.waiting.value in s.paths)
    && (forall p :: p in s.paths && s.paths[p].cause in {ClosedIdle, ClosedByReload} && s.paths[p].mode != Gone ==>
          s.waiting == Some(p))
    && (forall p :: p in s.paths ==>
          (s.paths[p].cause == Alive ==> !s.down) && (s.paths[p].cause == ShutDown ==> s.down))
  }

  // Nobody produces, reads or waits on the path.
  predicate Quiet(st: State) {
    st.source == NoSource && st.readers == {} && st.describesOnHold == [] && st.readersOnHold == []
  }

  // What kind of source a path has follows its configuration, failures included.
  predicate KindOk(st: State) {
    && (st.source == StaticHandler <==> st.conf.HasStaticSource())
    && (st.source == Redirect <==> st.conf.source == FromRedirect)
    && (!st.conf.HasStaticSource() ==> !st.handlerRunning)
  }

  // No held request was told that its path is terminating.
  ghost predicate NobodyTerminated(st: State) {
    forall i :: 0 <= i < |st.replies| ==> st.replies[i].answer != Terminated
  }

  ghost predicate PathsOk(s: System) {
    forall p :: p in s.paths ==> ActorOk(s, p, s.paths[p])
  }

  ghost predicate ActorOk(s: System, p: PathId, a: Actor) {
    && (a.mode != Gone ==> KindOk(a.state) && NobodyTerminated(a.state))
    && (a.mode == Asking ==> PathSafety.IsIdle(a.state))
    && (a.cause == ClosedIdle ==> Quiet(a.state) && NobodyTerminated(a.state) && InFlight(s.requests, p) == {})
  }

  // A client that gave up had been given a path that is being closed.
  ghost predicate DropsOk(s: System) {
    forall r :: r in s.requests && s.requests[r].Dropped? ==>
      s.requests[r].path in s.paths && s.paths[s.requests[r].path].cause != Alive
  }

  ghost predicate Inv(s: System) {
    Counts(s) && Mapped(s) && PathsOk(s) && DropsOk(s)
  }

  lemma Progresses(requests: map<RequestId, Progress>, r: RequestId, g: Progress, p: PathId)
    ensures var f := InFlight(requests[r := g], p);
            && f == (if InFlightOn(g, p) then InFlight(requests, p) + {r} else InFlight(requests, p) - {r})
            && |f| == |InFlight(requests, p) - {r}| + (if InFlightOn(g, p) then 1 else 0)
            && |InFlight(requests, p)| == |InFlight(requests, p) - {r}| +
                 (if r in requests && InFlightOn(requests[r], p) then 1 else 0)
  {
    InFlightMoves(requests, r, g, p);
    SizeWithout(InFlight(requests[r := g], p), r);
    SizeWithout(InFlight(requests, p), r);
  }

  lemma InFlightMoves(requests: map<RequestId, Progress>, r: RequestId, g: Progress, p: PathId)
    ensures InFlight(requests[r := g], p) ==
            (if InFlightOn(g, p) then InFlight(requests, p) + {r} else InFlight(requests, p) - {r})
    ensures InFlight(requests[r := g], p) - {r} == InFlight(requests, p) - {r}
  {
  }

  lemma SizeWithout(f: set<RequestId>, r: RequestId)
    ensures |f| == |f - {r}| + (if r in f then 1 else 0)
  {
    if r in f { assert f == (f - {r}) + {r}; } else { assert f == f - {r}; }
  }

  lemma CountsKept(s: System, e: Event)
    requires Counts(s) && s.Enabled(e)
    ensures Counts(s.Step(e))
  {
    hide Counts, System.Step;
    match e
    case Assign(r, _, _, _) => RequestMoves(s, e, r);
    case Take(_, request) => RequestMoves(s, e, request.req);
    case Decrement(p) => RequestMoves(s, e, s.paths[p].mode.req);
    case ClientGivesUp(r) => RequestMoves(s, e, r);
    case _ => OtherStepsKeepCounts(s, e);
  }

  lemma OtherStepsKeepCounts(s: System, e: Event)
    requires Counts(s) && s.Enabled(e)
    requires !e.Assign? && !e.Take? && !e.Decrement? && !e.ClientGivesUp?
    ensures Counts(s.Step(e))
  {
    hide Counts, Start, State.Step, State.Teardown, State.ShouldClose, State.AsksClose, State.Enabled;
    SameRequestsKeepCounts(s, s.Step(e));
  }

  lemma SameRequestsKeepCounts(s: System, t: System)
    requires Counts(s) && t.requests == s.requests && t.paths.Keys == s.paths.Keys
    requires forall p :: p in t.paths ==>
               && t.paths[p].pendingRequests == s.paths[p].pendingRequests
               && (t.paths[p].mode.Handling? ==> t.paths[p].mode == s.paths[p].mode)
    ensures Counts(t)
  {
  }

  // The step moves request r.
  predicate Moves(s: System, e: Event, r: RequestId)
    requires s.Enabled(e)
  {
    match e
    case Assign(q, _, _, _) => q == r
    case Take(_, request) => request.req == r
    case Decrement(p) => s.paths[p].mode.req == r
    case ClientGivesUp(q) => q == r
    case _ => false
  }

  lemma RequestMoves(s: System, e: Event, r: RequestId)
    requires Counts(s) && s.Enabled(e) && Moves(s, e, r)
    ensures Counts(s.Step(e))
  {
    hide Start, State.Step, State.Teardown, State.ShouldClose, State.AsksClose, InFlight;
    var t := s.Step(e);
    RequestIsKnown(s, e, r);
    forall p | p in t.paths ensures t.paths[p].pendingRequests == |InFlight(t.requests, p)| {
      CountMoves(s, e, r, p);
    }
  }

  lemma RequestIsKnown(s: System, e: Event, r: RequestId)
    requires Counts(s) && s.Enabled(e) && Moves(s, e, r)
    ensures var t := s.Step(e);
            && r in t.requests && t.requests == s.requests[r := t.requests[r]]
            && (forall q :: q in t.requests ==> t.requests[q].path in t.paths)
            && (forall p :: p in t.paths && t.paths[p].mode.Handling? ==>
                  t.paths[p].mode.req in t.requests && t.requests[t.paths[p].mode.req] == Taken(p))
  {
    hide Start, State.Step, State.Teardown, State.ShouldClose, State.AsksClose, InFlight;
  }

  lemma CountMoves(s: System, e: Event, r: RequestId, p: PathId)
    requires Counts(s) && s.Enabled(e) && Moves(s, e, r) && p in s.Step(e).paths
    requires r in s.Step(e).requests && s.Step(e).requests == s.requests[r := s.Step(e).requests[r]]
    ensures s.Step(e).paths[p].pendingRequests == |InFlight(s.Step(e).requests, p)|
  {
    hide Start, State.Step, State.Teardown, State.ShouldClose, State.AsksClose, InFlight, InFlightOn;
    CounterMoves(s, e, r, p);
    Progresses(s.requests, r, s.Step(e).requests[r], p);
    hide System.Step, System.Enabled;
    if p !in s.paths { NoRequests(s, p); }
  }

  // The counter changes by what the request's move is worth.
  lemma CounterMoves(s: System, e: Event, r: RequestId, p: PathId)
    requires Counts(s) && s.Enabled(e) && Moves(s, e, r) && p in s.Step(e).paths && r in s.Step(e).requests
    ensures s.Step(e).paths[p].pendingRequests
         == (if p in s.paths then s.paths[p].pendingRequests else 0)
          + (if InFlightOn(s.Step(e).requests[r], p) then 1 else 0)
          - (if r in s.requests && InFlightOn(s.requests[r], p) then 1 else 0)
  {
    hide Start, State.Step, State.Teardown, State.ShouldClose, State.AsksClose, InFlight;
  }

  lemma NoRequests(s: System, p: PathId)
    requires Counts(s) && p !in s.paths
    ensures InFlight(s.requests, p) == {}
  {
  }

  lemma MappedKept(s: System, e: Event)
    requires Mapped(s) && s.Enabled(e)
    ensures Mapped(s.Step(e))
  {
    hide Start, State.Step, State.Teardown, State.ShouldClose, State.AsksClose, State.Enabled;
    hide Mapped;
    match e
    case Assign(_, name, _, added) => AssignKeepsMap(s, e);
    case CloseIfIdle(p) => CloseKeepsMap(s, e, p);
    case CloseForReload(p) => CloseKeepsMap(s, e, p);
    case ShutDownAll => ShutDownKeepsMap(s);
    case WaitEnds => WaitEndKeepsMap(s);
    case ClientGivesUp(r) => SamePathsKeepMap(s, s.Step(e));
    case Take(p, _) => ActorKeepsMap(s, s.Step(e), p);
    case Decrement(p) => ActorKeepsMap(s, s.Step(e), p);
    case Other(p, _) => ActorKeepsMap(s, s.Step(e), p);
    case StopAsking(p) => ActorKeepsMap(s, s.Step(e), p);
    case End(p) => ActorKeepsMap(s, s.Step(e), p);
    case Remove(p) => RemoveKeepsMap(s, p);
    case SkipRemove(p) => ActorKeepsMap(s, s.Step(e), p);
    case TearDown(p) => ActorKeepsMap(s, s.Step(e), p);
  }

  lemma WaitEndKeepsMap(s: System)
    requires Mapped(s) && s.Enabled(WaitEnds)
    ensures Mapped(s.Step(WaitEnds))
  {
  }

  lemma SamePathsKeepMap(s: System, t: System)
    requires Mapped(s) && t == s.(requests := t.requests)
    ensures Mapped(t)
  {
  }

  lemma ActorKeepsMap(s: System, t: System, p: PathId)
    requires Mapped(s) && p in s.paths && p in t.paths
    requires t == s.(requests := t.requests, paths := s.paths[p := t.paths[p]])
    requires t.paths[p].name == s.paths[p].name && t.paths[p].cause == s.paths[p].cause
    requires HasLeft(t.paths[p].mode) ==> HasLeft(s.paths[p].mode) || s.paths[p].cause != Alive
    requires HasLeft(s.paths[p].mode) ==> HasLeft(t.paths[p].mode)
    requires s.paths[p].mode != Gone
    ensures Mapped(t)
  {
  }

  // A path that is being removed was shut down; the entry that goes is its own.
  lemma RemoveKeepsMap(s: System, p: PathId)
    requires Mapped(s) && s.Enabled(Remove(p))
    ensures Mapped(s.Step(Remove(p)))
  {
    var t := s.With(p, s.paths[p].(mode := Ending));
    assert s.paths[p].cause != Alive;
    hide Mapped;
    ActorKeepsMap(s, t, p);
    RemovedKeepsMap(t, p);
  }

  lemma RemovedKeepsMap(s: System, p: PathId)
    requires Mapped(s) && p in s.paths && HasLeft(s.paths[p].mode)
    ensures Mapped(s.Removed(p))
  {
  }

  lemma AssignKeepsMap(s: System, e: Event)
    requires Mapped(s) && s.Enabled(e) && e.Assign?
    ensures Mapped(s.Step(e))
  {
    if e.name in s.byName {
      hide Mapped;
      MappedActor(s, e.name);
      OwnedActorKeepsMap(s, s.Step(e), s.byName[e.name]);
    } else {
      NewActorKeepsMap(s, s.Step(e), e.name, e.added);
    }
  }

  lemma MappedActor(s: System, name: string)
    requires Mapped(s) && name in s.byName
    ensures s.byName[name] in s.paths
  {
  }

  lemma OwnedActorKeepsMap(s: System, t: System, p: PathId)
    requires Mapped(s) && p in s.paths && p in t.paths
    requires t == s.(requests := t.requests, paths := s.paths[p := t.paths[p]])
    requires t.paths[p].name == s.paths[p].name && t.paths[p].cause == s.paths[p].cause
        && t.paths[p].mode == s.paths[p].mode
    ensures Mapped(t)
  {
  }

  lemma NewActorKeepsMap(s: System, t: System, name: string, p: PathId)
    requires Mapped(s) && p !in s.paths && p in t.paths && name !in s.byName
    requires t == s.(requests := t.requests, paths := s.paths[p := t.paths[p]], byName := s.byName[name := p])
    requires t.paths[p].name == name && t.paths[p].cause == (if s.down then ShutDown else Alive)
        && t.paths[p].mode == InLoop
    ensures Mapped(t)
  {
  }

  lemma CloseKeepsMap(s: System, e: Event, p: PathId)
    requires Mapped(s) && s.Enabled(e) && (e == CloseIfIdle(p) || e == CloseForReload(p))
    ensures Mapped(s.Step(e))
  {
    hide Mapped;
    if e == CloseForReload(p) {
      AlivenessOfOwner(s, p);
      ClosingKeepsMap(s, p, ClosedByReload);
    } else {
      var t := s.With(p, s.paths[p].(mode := InLoop));
      ActorKeepsMap(s, t, p);
      if s.paths[p].pendingRequests == 0 {
        AlivenessOfOwner(s, p);
        ClosingKeepsMap(t, p, ClosedIdle);
      }
    }
  }

  lemma AlivenessOfOwner(s: System, p: PathId)
    requires Mapped(s) && p in s.paths && s.waiting.None?
    ensures s.paths[p].mode != Gone ==> s.paths[p].cause in {Alive, ShutDown}
    ensures !HasLeft(s.paths[p].mode) ==> s.paths[p].name in s.byName && s.byName[s.paths[p].name] == p
    ensures s.paths[p].name in s.byName && s.byName[s.paths[p].name] == p ==> s.paths[p].cause in {Alive, ShutDown}
  {
  }

  lemma ClosingKeepsMap(s: System, p: PathId, cause: Cause)
    requires Mapped(s) && s.waiting.None? && p in s.paths && s.paths[p].cause in {Alive, ShutDown}
    requires s.paths[p].name in s.byName && s.byName[s.paths[p].name] == p && cause in {ClosedIdle, ClosedByReload}
    ensures Mapped(s.Close(p, cause))
  {
  }

  lemma ShutDownKeepsMap(s: System)
    requires Mapped(s)
    ensures Mapped(s.Step(ShutDownAll))
  {
  }

  // ---- what the path's own steps contribute ----

  lemma {:induction false} AddReadersKeepKind(st: State, hs: seq<Held>)
    requires KindOk(st)
    ensures KindOk(st.AddReadersPost(hs))
  {
    if hs != [] {
      AddReadersKeepKind(st, hs[..|hs| - 1]);
    }
  }

  lemma ConsumeKeepsKind(st: State)
    requires KindOk(st)
    ensures KindOk(st.ConsumeOnHold())
  {
    hide State.AddReaderPost, ReplyAll;
    AddReadersKeepKind(st.(replies := st.replies + ReplyAll(st.describesOnHold, GotStream),
        describesOnHold := []), st.readersOnHold);
  }

  lemma StepKeepsKind(st: State, e: PathState.Event)
    requires KindOk(st) && (IsRequest(e) || st.Enabled(e))
    ensures KindOk(st.Step(e))
  {
    hide State.DrainHolds, State.DoAddPublisher, State.DoSetReady, State.DoAddReader, State.DoDescribe,
         State.DoSetNotReady;
    match e
    case SetReady(ok) => ReadyKeepsKind(st, ok);
    case AddPublisher(req, author, ok) => PublisherKeepsKind(st, req, author, ok);
    case AddReader(req, author) => ReaderKeepsKind(st, req, author);
    case StaticReadyTimer => DrainKeepsKind(st.(staticSource := st.staticSource.(readyTimer := false)));
    case PublisherReadyTimer => DrainKeepsKind(st.(publisher := st.publisher.(readyTimer := false)));
    case Describe(req) => DescribeKeepsKind(st, req);
    case SetNotReady => NotReadyKeepsKind(st);
    case _ => OtherKeepsKind(st, e);
  }

  lemma DescribeKeepsKind(st: State, req: RequestId)
    requires KindOk(st)
    ensures KindOk(st.DoDescribe(req))
  {
    DemandKeepsKind(st.Receive(req));
    hide State.Demand, State.OnDemandConf;
  }

  lemma DemandKeepsKind(st: State)
    ensures var t := st.Demand();
            && t.conf == st.conf && t.source == st.source
            && (!st.conf.HasStaticSource() ==> t.handlerRunning == st.handlerRunning)
  {
  }

  lemma NotReadyKeepsKind(st: State)
    requires KindOk(st)
    ensures KindOk(st.DoSetNotReady())
  {
  }

  lemma OtherKeepsKind(st: State, e: PathState.Event)
    requires KindOk(st) && (IsRequest(e) || st.Enabled(e))
    requires e.StaticCloseTimer? || e.PublisherCloseTimer? || e.ReloadConf? || e.RemovePublisher? || e.RemoveReader?
    ensures KindOk(st.Step(e))
  {
    hide State.DrainHolds, State.DoAddPublisher, State.DoSetReady, State.DoAddReader, State.DoDescribe,
         State.DoSetNotReady;
  }

  lemma DrainKeepsKind(st: State)
    requires KindOk(st)
    ensures KindOk(st.DrainHolds(SourceTimedOut))
  {
  }

  lemma ReadyKeepsKind(st: State, ok: bool)
    requires KindOk(st)
    ensures KindOk(st.DoSetReady(ok))
  {
    hide State.ConsumeOnHold;
    ConsumeKeepsKind(st.StaticArrived().(sourceAccepted := true));
  }

  lemma ReaderKeepsKind(st: State, req: RequestId, author: Client)
    requires KindOk(st)
    ensures KindOk(st.DoAddReader(req, author))
  {
  }

  lemma PublisherKeepsKind(st: State, req: RequestId, author: Client, ok: bool)
    requires KindOk(st)
    ensures KindOk(st.DoAddPublisher(req, author, ok))
  {
    hide State.ConsumeOnHold;
    if !st.RefusesPublisher() { ConsumeKeepsKind(st.Receive(req).MakeRoom().Admit(author)); }
  }

  lemma NoneTerminated(st: State, t: State, more: seq<Reply>)
    requires NobodyTerminated(st) && t.replies == st.replies + more
    requires forall i :: 0 <= i < |more| ==> more[i].answer != Terminated
    ensures NobodyTerminated(t)
  {
  }

  lemma AddReaderTerminatesNobody(st: State, h: Held)
    requires NobodyTerminated(st)
    ensures NobodyTerminated(st.AddReaderPost(h))
  {
    hide NobodyTerminated, State.ReadersAreFull, OnDemand.ReaderJoined;
    var t := st.AddReaderPost(h);
    NoneTerminated(st, t, [Reply(h.req, if t.replies == st.replies + [Reply(h.req, GotStream)]
        then GotStream else TooManyReaders)]);
  }

  lemma {:induction false} AddReadersTerminateNobody(st: State, hs: seq<Held>)
    requires NobodyTerminated(st)
    ensures NobodyTerminated(st.AddReadersPost(hs))
  {
    hide NobodyTerminated, State.AddReaderPost;
    if hs != [] {
      AddReadersTerminateNobody(st, hs[..|hs| - 1]);
      AddReaderTerminatesNobody(st.AddReadersPost(hs[..|hs| - 1]), hs[|hs| - 1]);
    }
  }

  lemma ConsumeTerminatesNobody(st: State)
    requires NobodyTerminated(st)
    ensures NobodyTerminated(st.ConsumeOnHold())
  {
    hide State.AddReaderPost, State.AddReadersPost;
    var t := st.(replies := st.replies + ReplyAll(st.describesOnHold, GotStream), describesOnHold := []);
    NoneTerminated(st, t, ReplyAll(st.describesOnHold, GotStream));
    AddReadersTerminateNobody(t, st.readersOnHold);
  }

  lemma StepTerminatesNobody(st: State, e: PathState.Event)
    requires NobodyTerminated(st)
    ensures NobodyTerminated(st.Step(e))
  {
    hide NobodyTerminated, State.DoDescribe, State.DoAddReader, State.DoAddPublisher, State.DoSetReady;
    match e
    case SetReady(ok) => SetReadyTerminatesNobody(st, ok);
    case Describe(req) => DescribeTerminatesNobody(st, req);
    case AddReader(req, author) => AddReaderRequestTerminatesNobody(st, req, author);
    case AddPublisher(req, author, ok) => AddPublisherTerminatesNobody(st, req, author, ok);
    case _ => SilentStepTerminatesNobody(st, e);
  }

  lemma SilentStepTerminatesNobody(st: State, e: PathState.Event)
    requires NobodyTerminated(st) && !e.SetReady? && !IsRequest(e)
    ensures NobodyTerminated(st.Step(e))
  {
    hide NobodyTerminated, State.DoStaticCloseTimer, State.DoSetNotReady;
    if e.StaticReadyTimer? || e.PublisherReadyTimer? {
      DrainTerminatesNobody(st, st.Step(e));
    } else {
      if e.StaticCloseTimer? || e.SetNotReady? {
        PathSafety.StaticSideIsQuiet(st);
      } else {
        PathSafety.PublisherSideIsQuiet(st, e);
      }
      NoneTerminated(st, st.Step(e), []);
    }
  }

  lemma DrainTerminatesNobody(st: State, t: State)
    requires NobodyTerminated(st)
    requires t.replies == st.replies + ReplyAll(st.describesOnHold, SourceTimedOut)
        + ReplyAll(HeldRequests(st.readersOnHold), SourceTimedOut)
    ensures NobodyTerminated(t)
  {
  }

  lemma DescribeTerminatesNobody(st: State, req: RequestId)
    requires NobodyTerminated(st)
    ensures NobodyTerminated(st.DoDescribe(req))
  {
    hide NobodyTerminated;
    var t := st.DoDescribe(req);
    if st.source != Redirect && !st.stream && st.OnDemandConf() {
      NoneTerminated(st, t, []);
    } else {
      NoneTerminated(st, t, [Reply(req, if st.source != Redirect && st.stream then GotStream
                                        else if st.source == Redirect || st.conf.fallback then Redirected
                                            else NoStream)]);
    }
  }

  lemma AddReaderRequestTerminatesNobody(st: State, req: RequestId, author: Client)
    requires NobodyTerminated(st)
    ensures NobodyTerminated(st.DoAddReader(req, author))
  {
    hide State.AddReaderPost;
    AddReaderTerminatesNobody(st.Receive(req), Held(req, author));
  }

  lemma AddPublisherTerminatesNobody(st: State, req: RequestId, author: Client, ok: bool)
    requires NobodyTerminated(st)
    ensures NobodyTerminated(st.DoAddPublisher(req, author, ok))
  {
    hide State.ConsumeOnHold;
    var room := st.Receive(req).MakeRoom();
    var admitted := room.Admit(author);
    assert room.replies == st.replies && admitted.replies == st.replies;
    ConsumeTerminatesNobody(admitted);
    hide NobodyTerminated, State.MakeRoom, State.Admit;
    NoneTerminated(admitted.ConsumeOnHold(), admitted.ConsumeOnHold().Answered(req, Accepted), [Reply(req, Accepted)]);
    NoneTerminated(st, room.Answered(req, Failed), [Reply(req, Failed)]);
    NoneTerminated(st, st.Receive(req).Answered(req, Refused), [Reply(req, Refused)]);
  }

  lemma SetReadyTerminatesNobody(st: State, ok: bool)
    requires NobodyTerminated(st)
    ensures NobodyTerminated(st.DoSetReady(ok))
  {
    hide State.ConsumeOnHold;
    ConsumeTerminatesNobody(st.StaticArrived().(sourceAccepted := true));
  }

  // Without requests, an idle path stays idle.
  lemma QuietStaysQuiet(st: State, e: PathState.Event)
    requires KindOk(st) && Quiet(st) && !IsRequest(e) && st.Enabled(e)
    ensures Quiet(st.Step(e))
  {
  }

  // ---- the paths of a reachable system ----

  // Actors that the step does not touch, and whose requests it does not move, stay as they are.
  lemma UntouchedOk(s: System, t: System, q: PathId)
    requires q in s.paths && ActorOk(s, q, s.paths[q])
    requires q in t.paths && t.paths[q] == s.paths[q] && InFlight(t.requests, q) == InFlight(s.requests, q)
    ensures ActorOk(t, q, t.paths[q])
  {
  }

  lemma OthersInFlight(s: System, e: Event, r: RequestId, q: PathId)
    requires Counts(s) && s.Enabled(e) && Moves(s, e, r)
    requires r in s.Step(e).requests && s.Step(e).requests == s.requests[r := s.Step(e).requests[r]]
    requires s.Step(e).requests[r].path != q
    ensures InFlight(s.Step(e).requests, q) == InFlight(s.requests, q)
  {
    hide State.Step, State.Teardown, State.ShouldClose, State.AsksClose, Start;
    assert r in s.requests ==> s.requests[r].path != q;
  }

  lemma RequestStepOk(s: System, e: Event, r: RequestId)
    requires Inv(s) && s.Enabled(e) && Moves(s, e, r)
    ensures PathsOk(s.Step(e))
  {
    hide State.Step, State.Teardown, State.AsksClose, InFlight;
    var t := s.Step(e);
    RequestIsKnown(s, e, r);
    var p := t.requests[r].path;
    forall q | q in t.paths ensures ActorOk(t, q, t.paths[q]) {
      if q != p {
        OthersInFlight(s, e, r, q);
        UntouchedOk(s, t, q);
      } else {
        RequestActorOk(s, e, r, p);
      }
    }
  }

  lemma RequestActorOk(s: System, e: Event, r: RequestId, p: PathId)
    requires Inv(s) && s.Enabled(e) && Moves(s, e, r)
    requires r in s.Step(e).requests && s.Step(e).requests[r].path == p && p in s.Step(e).paths
    ensures ActorOk(s.Step(e), p, s.Step(e).paths[p])
  {
    hide State.Step, State.Teardown, State.AsksClose;
    match e
    case Take(_, request) => TakenOk(s, p, request);
    case Assign(_, name, conf, _) => AssignedOk(s, e);
    case Decrement(_) => assert r in InFlight(s.requests, p);
    case ClientGivesUp(_) => assert r in InFlight(s.requests, p);
  }

  lemma TakenOk(s: System, p: PathId, request: PathState.Event)
    requires Inv(s) && s.Enabled(Take(p, request))
    ensures var t := s.Step(Take(p, request)); ActorOk(t, p, t.paths[p])
  {
    hide State.Step, NobodyTerminated, KindOk;
    assert request.req in InFlight(s.requests, p);
    StepKeepsKind(s.paths[p].state, request);
    StepTerminatesNobody(s.paths[p].state, request);
  }

  lemma AssignedOk(s: System, e: Event)
    requires Inv(s) && s.Enabled(e) && e.Assign?
    ensures var t := s.Step(e);
            var p := t.requests[e.req].path;
            p in t.paths && ActorOk(t, p, t.paths[p])
  {
    hide InFlight, State.Step, State.Teardown, State.Enabled, State.AsksClose, Counts, DropsOk;
    if e.name in s.byName {
      MappedActor(s, e.name);
    }
  }

  lemma PathStepOk(s: System, e: Event, p: PathId)
    requires Inv(s) && s.Enabled(e) && p in s.paths
    requires e.Other? || e.StopAsking? || e.End? || e.Remove? || e.SkipRemove? || e.TearDown?
    requires e.path == p
    ensures PathsOk(s.Step(e))
  {
    hide State.Step, State.Teardown, InFlight;
    var t := s.Step(e);
    forall q | q in t.paths ensures ActorOk(t, q, t.paths[q]) {
      if q != p {
        UntouchedOk(s, t, q);
      } else if e.Other? {
        OtherOk(s, p, e.other);
      } else if e.TearDown? && s.paths[p].cause == ClosedIdle {
        QuietTeardown(s.paths[p].state);
      }
    }
  }

  lemma OtherOk(s: System, p: PathId, e: PathState.Event)
    requires Inv(s) && s.Enabled(Other(p, e))
    ensures var t := s.Step(Other(p, e)); ActorOk(t, p, t.paths[p])
  {
    hide State.Step, InFlight, Counts, Mapped, DropsOk, KindOk, NobodyTerminated;
    StepKeepsKind(s.paths[p].state, e);
    StepTerminatesNobody(s.paths[p].state, e);
    if s.paths[p].cause == ClosedIdle { QuietStaysQuiet(s.paths[p].state, e); }
  }

  lemma QuietTeardown(st: State)
    requires Quiet(st) && NobodyTerminated(st)
    ensures Quiet(st.Teardown()) && NobodyTerminated(st.Teardown())
  {
    hide NobodyTerminated;
    NoneTerminated(st, st.Teardown(), []);
  }

  lemma CloseStepOk(s: System, e: Event, p: PathId)
    requires Inv(s) && s.Enabled(e) && (e == CloseIfIdle(p) || e == CloseForReload(p))
    ensures PathsOk(s.Step(e))
  {
    hide State.Step, State.Teardown, State.Enabled, InFlight, ActorOk, Counts, Mapped, DropsOk;
    var t := s.Step(e);
    forall q | q in t.paths ensures ActorOk(t, q, t.paths[q]) {
      if q != p { UntouchedOk(s, t, q); } else { ClosedOk(s, e, p); }
    }
  }

  lemma ClosedOk(s: System, e: Event, p: PathId)
    requires Inv(s) && s.Enabled(e) && (e == CloseIfIdle(p) || e == CloseForReload(p))
    ensures ActorOk(s.Step(e), p, s.Step(e).paths[p])
  {
    hide State.Step, State.Teardown, State.Enabled, InFlight, KindOk, NobodyTerminated;
    AlivenessOfOwner(s, p);
    hide Mapped, DropsOk;
  }

  lemma StepInv(s: System, e: Event)
    requires Inv(s) && s.Enabled(e)
    ensures Inv(s.Step(e))
  {
    CountsKept(s, e);
    MappedKept(s, e);
    DropsKept(s, e);
    hide Counts, Mapped, DropsOk;
    match e
    case Assign(r, _, _, _) => RequestStepOk(s, e, r);
    case Take(_, request) => RequestStepOk(s, e, request.req);
    case Decrement(p) => RequestStepOk(s, e, s.paths[p].mode.req);
    case ClientGivesUp(r) => RequestStepOk(s, e, r);
    case Other(p, _) => PathStepOk(s, e, p);
    case StopAsking(p) => PathStepOk(s, e, p);
    case End(p) => PathStepOk(s, e, p);
    case Remove(p) => PathStepOk(s, e, p);
    case SkipRemove(p) => PathStepOk(s, e, p);
    case TearDown(p) => PathStepOk(s, e, p);
    case CloseIfIdle(p) => CloseStepOk(s, e, p);
    case CloseForReload(p) => CloseStepOk(s, e, p);
    case ShutDownAll => ShutDownOk(s);
    case WaitEnds =>
  }

  lemma ShutDownOk(s: System)
    requires PathsOk(s)
    ensures PathsOk(s.Step(ShutDownAll))
  {
    hide KindOk, NobodyTerminated, InFlight;
  }

  lemma DropsKept(s: System, e: Event)
    requires DropsOk(s) && s.Enabled(e)
    ensures DropsOk(s.Step(e))
  {
    hide State.Step, State.Teardown, State.ShouldClose, State.AsksClose, State.Enabled, Start;
  }

  lemma {:induction false} ReachableInv(s: System, h: History)
    requires Reachable(s, h)
    ensures Inv(s)
    decreases h
  {
    match h
    case Begin =>
    case Then(before, e) =>
      var p :| Reachable(p, before) && StepsTo(p, e, s);
      ReachableInv(p, before);
      StepInv(p, e);
  }

  // ---- the protocol ----

  // In every interleaving the counter is the number of assigned requests that the path has not processed.
  lemma PendingRequestsAreTheInFlightOnes(s: System, h: History, p: PathId)
    requires Reachable(s, h) && p in s.paths
    ensures s.paths[p].pendingRequests == |InFlight(s.requests, p)|
  {
    ReachableInv(s, h);
  }

  // The manager closes an idle path only when it has no source, no reader, no held request and no request
  // under way, and only while it is the path that its name leads to: the entry that it deletes is that path's.
  lemma IdleCloseIsSafe(s: System, h: History, p: PathId)
    requires Reachable(s, h) && s.Enabled(CloseIfIdle(p)) && s.Step(CloseIfIdle(p)).waiting.Some?
    ensures PathSafety.IsIdle(s.paths[p].state) && InFlight(s.requests, p) == {}
    ensures s.paths[p].name in s.byName && s.byName[s.paths[p].name] == p
  {
    ReachableInv(s, h);
    AlivenessOfOwner(s, p);
  }

  // When a path asks, the manager closes it and awaits it, and its name leads nowhere, if and only if no request is
  // under way; otherwise nothing but the path's waiting for the answer ends.
  lemma IdleCloseExactly(s: System, h: History, p: PathId)
    requires Reachable(s, h) && s.Enabled(CloseIfIdle(p))
    ensures var t := s.Step(CloseIfIdle(p));
            && t.requests == s.requests && t.down == s.down && t.paths.Keys == s.paths.Keys
            && t.paths[p].mode == InLoop && t.paths[p].state == s.paths[p].state
            && (forall q :: q in s.paths && q != p ==> t.paths[q] == s.paths[q])
            && (if InFlight(s.requests, p) == {}
                then t.waiting == Some(p) && t.byName == s.byName - {s.paths[p].name}
                     && t.paths[p].cause == (if s.paths[p].cause == Alive then ClosedIdle else s.paths[p].cause)
                     && s.paths[p].name in s.byName && s.byName[s.paths[p].name] == p
                else t.waiting.None? && t.paths[p].cause == s.paths[p].cause && t.byName == s.byName)
  {
    hide Inv, InFlight, Mapped, Counts, PathsOk, DropsOk, Reachable, State.Step, State.Teardown, State.Enabled;
    AskingPath(s, h, p);
  }

  lemma AskingPath(s: System, h: History, p: PathId)
    requires Reachable(s, h) && s.Enabled(CloseIfIdle(p))
    ensures s.paths[p].pendingRequests == |InFlight(s.requests, p)|
    ensures s.paths[p].name in s.byName && s.byName[s.paths[p].name] == p
  {
    ReachableInv(s, h);
    hide PathsOk, DropsOk, Reachable;
    AlivenessOfOwner(s, p);
  }

  // A path that has processed a request asks if and only if it is idle, and so it does after any other arm that asks.
  lemma AsksExactly(s: System, e: Event, p: PathId)
    requires s.Enabled(e) && (e == Decrement(p) || (e.Other? && e.path == p))
    ensures var t := s.Step(e).paths[p];
            && (e.Decrement? ==> (t.mode == Asking <==> PathSafety.IsIdle(t.state)))
            && (e.Other? ==> (t.mode == Asking <==> s.paths[p].state.AsksClose(e.other)))
  {
    hide State.Step, State.AsksClose;
  }

  // A request that was assigned to a path ends as "terminated", either because its client saw the path's
  // context done or because the path was holding it, only if a reload or a shutdown closed the path.
  lemma OnlyReloadOrShutdownTerminates(s: System, h: History, r: RequestId)
    requires Reachable(s, h) && r in s.requests
    requires var p := s.requests[r].path;
             s.requests[r].Dropped? || (p in s.paths && Reply(r, Terminated) in s.paths[p].state.replies)
    ensures s.requests[r].path in s.paths && s.paths[s.requests[r].path].cause in {ClosedByReload, ShutDown}
  {
    ReachableInv(s, h);
    var p := s.requests[r].path;
    if s.requests[r].Dropped? {
      assert r in InFlight(s.requests, p);
    } else {
      var i :| 0 <= i < |s.paths[p].state.replies| && s.paths[p].state.replies[i] == Reply(r, Terminated);
    }
  }

  // A request whose client gave up is not taken by any path.
  lemma GivenUpIsNotTaken(s: System, r: RequestId, p: PathId, request: PathState.Event)
    requires s.Enabled(ClientGivesUp(r)) && IsRequest(request) && request.req == r
    ensures !s.Step(ClientGivesUp(r)).Enabled(Take(p, request))
  {
  }

  // ---- each path of the system is a path ----

  // What the path p received so far, in order.
  function EventsOf(h: History, p: PathId): seq<PathState.Event> {
    match h
    case Begin => []
    case Then(before, e) =>
      EventsOf(before, p) + (if e.Take? && e.path == p then [e.request]
                             else if e.Other? && e.path == p then [e.other] else [])
  }

  // The configuration that it was created with.
  function ConfOf(h: History, p: PathId): Conf
    requires Created(h, p)
  {
    if h.last.Assign? && h.last.added == p then h.last.conf else ConfOf(h.before, p)
  }

  predicate Created(h: History, p: PathId) {
    h.Then? && ((h.last.Assign? && h.last.added == p) || Created(h.before, p))
  }

  // The state of the path is that of a run with these events, and of its teardown once it is gone.
  ghost predicate Runs(a: Actor, h: History, p: PathId) {
    && Created(h, p) && IsRun(ConfOf(h, p), EventsOf(h, p))
    && var st := Start(ConfOf(h, p)).Steps(EventsOf(h, p));
       a.state == if a.mode == Gone then st.Teardown() else st
  }

  lemma {:induction false} NoEventsYet(s: System, h: History, p: PathId)
    requires Reachable(s, h) && p !in s.paths
    ensures EventsOf(h, p) == []
    decreases h
  {
    match h
    case Begin =>
    case Then(before, e) =>
      var q :| Reachable(q, before) && StepsTo(q, e, s);
      hide System.Step, System.Enabled, Reachable;
      PathsStay(q, e, p);
      NoEventsYet(q, before, p);
  }

  lemma PathsStay(s: System, e: Event, p: PathId)
    requires s.Enabled(e)
    ensures p in s.paths || (e.Take? && e.path == p) || (e.Other? && e.path == p) ==> p in s.Step(e).paths
  {
    hide State.Step, State.Teardown, State.ShouldClose, State.AsksClose, State.Enabled, Start;
  }

  lemma OneMoreEvent(conf: Conf, es: seq<PathState.Event>, e: PathState.Event)
    requires IsRun(conf, es) && (IsRequest(e) || Start(conf).Steps(es).Enabled(e))
    ensures IsRun(conf, es + [e]) && Start(conf).Steps(es + [e]) == Start(conf).Steps(es).Step(e)
  {
    var more := es + [e];
    assert more[..|es|] == es;
    forall i | 0 <= i < |more| ensures Start(conf).Steps(more[..i]).Enabled(more[i]) {
      if i < |es| { assert more[..i] == es[..i]; }
    }
  }

  // In every reachable system each path is in the state that its own events lead to: the interleaving with the manager,
  // the other paths and the clients adds and takes nothing.
  lemma {:induction false} EachPathRuns(s: System, h: History, p: PathId)
    requires Reachable(s, h) && p in s.paths
    ensures Runs(s.paths[p], h, p)
    decreases h
  {
    match h
    case Begin =>
    case Then(before, e) =>
      var q :| Reachable(q, before) && StepsTo(q, e, s);
      hide Reachable, IsRun, State.Step, State.Steps, State.Teardown, State.ShouldClose, State.AsksClose, State.Enabled;
      if p in q.paths {
        EachPathRuns(q, before, p);
        PathGoesOn(q, before, e, p);
      } else {
        NoEventsYet(q, before, p);
        NewPathRuns(q, e, before, p);
      }
  }

  lemma NewPathRuns(s: System, e: Event, h: History, p: PathId)
    requires s.Enabled(e) && p !in s.paths && p in s.Step(e).paths && EventsOf(h, p) == []
    ensures Runs(s.Step(e).paths[p], Then(h, e), p)
  {
    hide State.Step, State.Teardown, State.ShouldClose, State.AsksClose, State.Enabled, Start;
    assert e.Assign? && e.added == p;
    assert EventsOf(Then(h, e), p) == [];
  }

  lemma PathGoesOn(s: System, h: History, e: Event, p: PathId)
    requires s.Enabled(e) && p in s.paths && Runs(s.paths[p], h, p)
    ensures p in s.Step(e).paths && Runs(s.Step(e).paths[p], Then(h, e), p)
  {
    hide IsRun, State.Step, State.Steps, State.Teardown, State.ShouldClose, State.AsksClose, State.Enabled, Start;
    if e.Take? && e.path == p {
      OneMoreEvent(ConfOf(h, p), EventsOf(h, p), e.request);
    } else if e.Other? && e.path == p {
      OneMoreEvent(ConfOf(h, p), EventsOf(h, p), e.other);
    } else {
      assert EventsOf(h, p) + [] == EventsOf(h, p);
    }
  }

  // ---- the manager is not blocked for ever by a path that it closed ----

  // How many steps a path takes at most until it is gone, once its context is done.
  function StepsLeft(m: Mode): nat {
    match m
    case Gone => 0
    case Ending => 1
    case Leaving => 2
    case InLoop => 3
    case Asking => 4
    case Handling(_) => 5
  }

  predicate IsOwnStep(e: Event, p: PathId) {
    e == Decrement(p) || e == StopAsking(p) || e == End(p) || e == SkipRemove(p) || e == TearDown(p)
  }

  // The path takes these steps, and then the manager stops waiting for it.
  ghost predicate LetGoOn(s: System, es: seq<Event>, p: PathId)
    decreases |es|
  {
    if es == [] then s.Enabled(WaitEnds)
    else IsOwnStep(es[0], p) && s.Enabled(es[0]) && LetGoOn(s.Step(es[0]), es[1..], p)
  }

  // Whatever a path and its clients were doing when the manager began to wait for it, a few steps of that path
  // alone let the manager go on: none of its sends to the waiting manager can block it.
  lemma ManagerGoesOn(s: System, h: History) returns (es: seq<Event>)
    requires Reachable(s, h) && s.waiting.Some?
    ensures s.waiting.value in s.paths
    ensures |es| <= 5 && LetGoOn(s, es, s.waiting.value)
  {
    ReachableInv(s, h);
    es := GoOn(s, s.waiting.value);
  }

  lemma {:induction false} GoOn(s: System, p: PathId) returns (es: seq<Event>)
    requires Inv(s) && s.waiting == Some(p) && p in s.paths
    ensures |es| <= StepsLeft(s.paths[p].mode) && LetGoOn(s, es, p)
    decreases StepsLeft(s.paths[p].mode)
  {
    if s.paths[p].mode == Gone {
      es := [];
    } else {
      var e := OwnStep(s, p);
      StepInv(s, e);
      hide Inv, System.Enabled, System.Step, IsOwnStep;
      var rest := GoOn(s.Step(e), p);
      es := [e] + rest;
      assert es[1..] == rest;
    }
  }

  lemma OwnStep(s: System, p: PathId) returns (e: Event)
    requires Inv(s) && s.waiting == Some(p) && p in s.paths && s.paths[p].mode != Gone
    ensures IsOwnStep(e, p) && s.Enabled(e)
    ensures var t := s.Step(e);
            t.waiting == Some(p) && p in t.paths && StepsLeft(t.paths[p].mode) < StepsLeft(s.paths[p].mode)
  {
    hide Start, State.Step, State.Teardown, State.ShouldClose, State.AsksClose, State.Enabled, PathsOk, DropsOk;
    match s.paths[p].mode
    case Handling(_) => e := Decrement(p);
    case Asking => e := StopAsking(p);
    case InLoop => e := End(p);
    case Leaving => e := SkipRemove(p);
    case Ending => e := TearDown(p);
  }
}
