/** core/path.go: the state of one path and what each handler of its select loop does to it. */
module PathState {

  type Client = nat    // a reader or a publisher
  type RequestId = nat // a describe, add-reader or add-publisher request

  datatype SourceKind = FromPublisher | FromRedirect | FromStatic

  datatype Conf = Conf(
    source: SourceKind,
    sourceOnDemand: bool,
    runOnDemand: bool,      // RunOnDemand is not empty
    alwaysAvailable: bool,
    overridePublisher: bool,
    maxReaders: int,
    fallback: bool,         // Fallback is not nil
    regexp: bool            // Regexp is not nil
  ) {
    predicate HasStaticSource() {
      source == FromStatic
    }

    predicate HasOnDemandStaticSource() {
      HasStaticSource() && sourceOnDemand
    }

    predicate HasOnDemandPublisher() {
      runOnDemand
    }

    // What configuration validation guarantees (conf/path.go:700-709, 728-745, 866-868).
    predicate Valid() {
      && (sourceOnDemand ==> source != FromPublisher)
      && (source == FromStatic && !sourceOnDemand ==> !regexp)
      && (alwaysAvailable ==> !regexp && !sourceOnDemand && !runOnDemand)
      && (runOnDemand ==> source == FromPublisher)
    }

    // A hot reload can only change the regular expression among these fields.
    predicate CanBeReloadedTo(c: Conf) {
      c == this.(regexp := c.regexp) && c.Valid()
    }
  }

  datatype Source = NoSource | Redirect | StaticHandler | Publisher(author: Client)

  datatype Phase = Initial | WaitingReady | Ready | Closing

  // One on-demand machine. A timer is armed when its field holds a timer that can still fire.
  datatype OnDemand = OnDemand(phase: Phase, readyTimer: bool, closeTimer: bool) {
    function Started(): OnDemand {
      OnDemand(WaitingReady, true, closeTimer)
    }

    function Arrived(): OnDemand {
      OnDemand(phase, false, closeTimer).ClosingScheduled()
    }

    function ClosingScheduled(): OnDemand {
      OnDemand(Closing, readyTimer, true)
    }

    function ReaderJoined(): OnDemand {
      if phase == Closing then OnDemand(Ready, readyTimer, false) else this
    }

    function LastReaderLeft(): OnDemand {
      if phase == Ready then ClosingScheduled() else this
    }

    function Stopped(): OnDemand {
      OnDemand(Initial, readyTimer, closeTimer && phase != Closing)
    }
  }

  const IDLE: OnDemand := OnDemand(Initial, false, false)

  datatype Held = Held(req: RequestId, author: Client)

  datatype Answer =
    | GotStream | Redirected | NoStream | SourceTimedOut | TooManyReaders
    | Accepted | Refused | Failed | Terminated

  datatype Reply = Reply(req: RequestId, answer: Answer)

  datatype Event =
    | StaticReadyTimer | StaticCloseTimer | PublisherReadyTimer | PublisherCloseTimer
    | ReloadConf(newConf: Conf)
    | SetReady(subStreamOk: bool) | SetNotReady
    | Describe(req: RequestId)
    | AddPublisher(req: RequestId, author: Client, subStreamOk: bool)
    | RemovePublisher(author: Client)
    | AddReader(req: RequestId, author: Client)
    | RemoveReader(author: Client)

  // How often each hook of the path was called.
  datatype Hooks = Hooks(demand: nat, unDemand: nat, ready: nat, notReady: nat)

  function ReplyAll(reqs: seq<RequestId>, answer: Answer): seq<Reply> {
    seq(|reqs|, i requires 0 <= i < |reqs| => Reply(reqs[i], answer))
  }

  function HeldRequests(hs: seq<Held>): seq<RequestId> {
    seq(|hs|, i requires 0 <= i < |hs| => hs[i].req)
  }

  function RepliedRequests(rs: seq<Reply>): seq<RequestId> {
    seq(|rs|, i requires 0 <= i < |rs| => rs[i].req)
  }

  datatype State = State(
    conf: Conf,
    source: Source,
    stream: bool,                   // the stream is not nil
    readers: set<Client>,
    describesOnHold: seq<RequestId>,
    readersOnHold: seq<Held>,
    staticSource: OnDemand,
    publisher: OnDemand,
    unDemandHook: bool,             // onUnDemandHook is not nil
    handlerRunning: bool,           // the static source handler is running
    // observations
    sourceAccepted: bool,           // a run of the static source was accepted as ready, and none said that it is not
    received: seq<RequestId>,
    replies: seq<Reply>,
    hooks: Hooks,
    crashed: bool                   // a panic was reached
  ) {
    function Receive(req: RequestId): State {
      this.(received := received + [req])
    }

    function Answered(req: RequestId, answer: Answer): State {
      this.(replies := replies + [Reply(req, answer)])
    }

    function DrainHolds(answer: Answer): State {
      this.(replies := replies + ReplyAll(describesOnHold, answer) + ReplyAll(HeldRequests(readersOnHold), answer),
            describesOnHold := [], readersOnHold := [])
    }

    function StaticStart(): State {
      this.(crashed := crashed || handlerRunning, handlerRunning := true, staticSource := staticSource.Started())
    }

    function StaticStop(): State {
      this.(staticSource := staticSource.Stopped(),
            crashed := crashed || !handlerRunning, handlerRunning := false, sourceAccepted := false)
    }

    function PublisherStart(): State {
      this.(unDemandHook := true, hooks := hooks.(demand := hooks.demand + 1), publisher := publisher.Started())
    }

    function PublisherStop(): State {
      this.(publisher := publisher.Stopped(), crashed := crashed || !unDemandHook,
            hooks := hooks.(unDemand := hooks.unDemand + 1), unDemandHook := false)
    }

    function SetAvailable(): State {
      this.(stream := true, hooks := hooks.(ready := hooks.ready + 1))
    }

    function SetNotAvailable(): State {
      this.(readers := {}, crashed := crashed || hooks.ready == 0,
            hooks := hooks.(notReady := hooks.notReady + 1), stream := false)
    }

    predicate ReadersAreFull() {
      conf.maxReaders != 0 && |readers| >= conf.maxReaders
    }

    // A reader has joined: a scheduled close of the source is given up.
    function CloseCancelled(): State {
      this.(staticSource := if conf.HasOnDemandStaticSource() then staticSource.ReaderJoined() else staticSource,
            publisher := if !conf.HasOnDemandStaticSource() && conf.HasOnDemandPublisher()
                         then publisher.ReaderJoined() else publisher)
    }

    function AddReaderPost(h: Held): (s: State)
      ensures s.conf == conf
    {
      if h.author in readers then
        Answered(h.req, GotStream)
      else if ReadersAreFull() then
        Answered(h.req, TooManyReaders)
      else
        this.(readers := readers + {h.author}).CloseCancelled().Answered(h.req, GotStream)
    }

    function AddReadersPost(hs: seq<Held>): (s: State)
      ensures s.conf == conf
    {
      if hs == [] then this
      else AddReadersPost(hs[..|hs| - 1]).AddReaderPost(hs[|hs| - 1])
    }

    function ConsumeOnHold(): (s: State)
      ensures s.conf == conf
    {
      this.(replies := replies + ReplyAll(describesOnHold, GotStream), describesOnHold := [])
          .AddReadersPost(readersOnHold).(readersOnHold := [])
    }

    function ExecuteRemovePublisher(): (s: State)
      ensures s.conf == conf
    {
      if conf.alwaysAvailable then this.(crashed := crashed || !stream, source := NoSource)
      else SetNotAvailable().(source := NoSource)
    }

    function DoStaticReadyTimer(): (s: State)
      ensures s.conf == conf
    {
      this.(staticSource := staticSource.(readyTimer := false)).DrainHolds(SourceTimedOut).StaticStop()
    }

    function DoStaticCloseTimer(): (s: State)
      ensures s.conf == conf
    {
      this.(staticSource := staticSource.(closeTimer := false), crashed := crashed || conf.alwaysAvailable)
          .SetNotAvailable().StaticStop()
    }

    function DoPublisherReadyTimer(): (s: State)
      ensures s.conf == conf
    {
      this.(publisher := publisher.(readyTimer := false)).DrainHolds(SourceTimedOut).PublisherStop()
    }

    function DoPublisherCloseTimer(): (s: State)
      ensures s.conf == conf
    {
      this.(publisher := publisher.(closeTimer := false)).PublisherStop()
    }

    function DoReloadConf(newConf: Conf): State {
      this.(conf := newConf, crashed := crashed || (newConf.HasStaticSource() && source != StaticHandler))
    }

    // The stream of a static source exists and the source is on time; nobody reads it yet.
    function StaticArrived(): State {
      var s := if conf.alwaysAvailable then this else SetAvailable();
      s.(staticSource := if conf.HasOnDemandStaticSource() then staticSource.Arrived() else staticSource)
    }

    function DoSetReady(subStreamOk: bool): (s: State)
      ensures s.conf == conf
    {
      if subStreamOk then StaticArrived().(sourceAccepted := true).ConsumeOnHold()
      else if conf.alwaysAvailable then this
      else SetAvailable()
    }

    function DoSetNotReady(): (s: State)
      ensures s.conf == conf
    {
      var s := if conf.alwaysAvailable then this.(crashed := crashed || !stream, sourceAccepted := false)
               else SetNotAvailable().(sourceAccepted := false);
      if conf.HasOnDemandStaticSource() && staticSource.phase != Initial then s.StaticStop() else s
    }

    predicate OnDemandConf() {
      conf.HasOnDemandStaticSource() || conf.HasOnDemandPublisher()
    }

    // A request that finds no stream asks for the source, unless that was done already.
    function Demand(): State {
      if conf.HasOnDemandStaticSource() then
        if staticSource.phase == Initial then StaticStart() else this
      else
        if publisher.phase == Initial then PublisherStart() else this
    }

    function DoDescribe(req: RequestId): (s: State)
      ensures s.conf == conf
    {
      if source == Redirect then
        Receive(req).Answered(req, Redirected)
      else if stream then
        Receive(req).Answered(req, GotStream)
      else if OnDemandConf() then
        Receive(req).Demand().(describesOnHold := describesOnHold + [req])
      else if conf.fallback then
        Receive(req).Answered(req, Redirected)
      else
        Receive(req).Answered(req, NoStream)
    }

    function DoAddReader(req: RequestId, author: Client): (s: State)
      ensures s.conf == conf
    {
      if stream then
        Receive(req).AddReaderPost(Held(req, author))
      else if OnDemandConf() then
        Receive(req).Demand().(readersOnHold := readersOnHold + [Held(req, author)])
      else
        Receive(req).Answered(req, NoStream)
    }

    function DoRemoveReader(author: Client): (s: State)
      ensures s.conf == conf
    {
      if readers - {author} != {} then
        this.(readers := readers - {author})
      else
        this.(readers := {},
              staticSource := if conf.HasOnDemandStaticSource() then staticSource.LastReaderLeft() else staticSource,
              publisher := if !conf.HasOnDemandStaticSource() && conf.HasOnDemandPublisher()
                           then publisher.LastReaderLeft() else publisher)
    }

    predicate RefusesPublisher() {
      conf.source != FromPublisher || (source != NoSource && !conf.overridePublisher)
    }

    // Close the previous publisher, if any, and create the stream of the new one.
    function MakeRoom(): State {
      var s :=
        if source == NoSource then this
        else this.(crashed := crashed || !source.Publisher?).ExecuteRemovePublisher();
      if conf.alwaysAvailable then s else s.SetAvailable()
    }

    function Admit(author: Client): State {
      this.(source := Publisher(author),
            publisher := if conf.HasOnDemandPublisher() && publisher.phase != Initial
                         then publisher.Arrived() else publisher)
    }

    function DoAddPublisher(req: RequestId, author: Client, subStreamOk: bool): (s: State)
      ensures s.conf == conf
    {
      if RefusesPublisher() then
        Receive(req).Answered(req, Refused)
      else if !subStreamOk then
        Receive(req).MakeRoom().Answered(req, Failed)
      else
        Receive(req).MakeRoom().Admit(author).ConsumeOnHold().Answered(req, Accepted)
    }

    function DoRemovePublisher(author: Client): (s: State)
      ensures s.conf == conf
    {
      if source == Publisher(author) then ExecuteRemovePublisher() else this
    }

    predicate ShouldClose() {
      conf.regexp && source == NoSource && readers == {} && describesOnHold == [] && readersOnHold == []
    }

    // The event can be received in this state: a timer that is armed, a source that runs.
    predicate Enabled(e: Event) {
      match e
      case StaticReadyTimer => staticSource.readyTimer
      case StaticCloseTimer => staticSource.closeTimer
      case PublisherReadyTimer => publisher.readyTimer
      case PublisherCloseTimer => publisher.closeTimer
      case ReloadConf(c) => conf.CanBeReloadedTo(c)
      case SetReady(_) => handlerRunning
      case SetNotReady => handlerRunning && sourceAccepted
      case _ => true
    }

    function Step(e: Event): State {
      match e
      case StaticReadyTimer => DoStaticReadyTimer()
      case StaticCloseTimer => DoStaticCloseTimer()
      case PublisherReadyTimer => DoPublisherReadyTimer()
      case PublisherCloseTimer => DoPublisherCloseTimer()
      case ReloadConf(c) => DoReloadConf(c)
      case SetReady(ok) => DoSetReady(ok)
      case SetNotReady => DoSetNotReady()
      case Describe(req) => DoDescribe(req)
      case AddPublisher(req, author, ok) => DoAddPublisher(req, author, ok)
      case RemovePublisher(author) => DoRemovePublisher(author)
      case AddReader(req, author) => DoAddReader(req, author)
      case RemoveReader(author) => DoRemoveReader(author)
    }

    // After the event's arm, the path asks its manager to close it if idle.
    predicate AsksClose(e: Event) {
      !e.PublisherCloseTimer? && !e.ReloadConf? && !e.SetReady? && !e.RemoveReader? && Step(e).ShouldClose()
    }

    function Steps(es: seq<Event>): State {
      if es == [] then this
      else Steps(es[..|es| - 1]).Step(es[|es| - 1])
    }

    function TimersStopped(): State {
      this.(staticSource := staticSource.(readyTimer := false, closeTimer := false),
            publisher := publisher.(readyTimer := false, closeTimer := false))
    }

    function StreamWithdrawn(): State {
      if stream then SetNotAvailable() else this
    }

    function SourceClosed(): State {
      if source == StaticHandler && (!conf.sourceOnDemand || staticSource.phase != Initial) then
        this.(crashed := crashed || !handlerRunning, handlerRunning := false, sourceAccepted := false)
      else this
    }

    function DemandEnded(): State {
      if unDemandHook then this.(hooks := hooks.(unDemand := hooks.unDemand + 1)) else this
    }

    // What run does once its select loop has ended.
    function Teardown(): State {
      TimersStopped().DrainHolds(Terminated).StreamWithdrawn().SourceClosed().DemandEnded()
    }
  }

  // A path as its goroutine starts.
  function Start(conf: Conf): State {
    State(
      conf,
      if conf.source == FromRedirect then Redirect else if conf.HasStaticSource() then StaticHandler else NoSource,
      conf.alwaysAvailable, {}, [], [], IDLE, IDLE, false,
      conf.HasStaticSource() && !conf.sourceOnDemand,
      false, [], [], Hooks(0, 0, if conf.alwaysAvailable then 1 else 0, 0), false)
  }

  // Each event can occur where it does.
  ghost predicate IsRun(conf: Conf, es: seq<Event>) {
    forall i :: 0 <= i < |es| ==> Start(conf).Steps(es[..i]).Enabled(es[i])
  }
}
