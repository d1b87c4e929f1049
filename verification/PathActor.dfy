/** core/path.go as the goroutine runs it: fields changed in place, one method a handler, one loop. */
module PathActor {
  import opened PathState

  class Path {
    var conf: Conf
    var source: Source
    var stream: bool
    var readers: set<Client>
    var describesOnHold: seq<RequestId>
    var readersOnHold: seq<Held>
    var staticPhase: Phase
    var staticReadyTimer: bool
    var staticCloseTimer: bool
    var publisherPhase: Phase
    var publisherReadyTimer: bool
    var publisherCloseTimer: bool
    var unDemandHook: bool
    var handlerRunning: bool
    // observations: what was sent to channels, hooks and the process
    ghost var sourceAccepted: bool
    ghost var received: seq<RequestId>
    ghost var replies: seq<Reply>
    ghost var hooks: Hooks
    ghost var crashed: bool

    ghost function View(): State
      reads this
    {
      State(conf, source, stream, readers, describesOnHold, readersOnHold,
            OnDemand(staticPhase, staticReadyTimer, staticCloseTimer),
            OnDemand(publisherPhase, publisherReadyTimer, publisherCloseTimer),
            unDemandHook, handlerRunning, sourceAccepted, received, replies, hooks, crashed)
    }

    constructor (conf: Conf)
      ensures View() == Start(conf)
    {
      this.conf := conf;
      source := if conf.source == FromRedirect then Redirect else if conf.HasStaticSource()
          then StaticHandler else NoSource;
      stream := conf.alwaysAvailable;
      readers, describesOnHold, readersOnHold := {}, [], [];
      staticPhase, staticReadyTimer, staticCloseTimer := Initial, false, false;
      publisherPhase, publisherReadyTimer, publisherCloseTimer := Initial, false, false;
      unDemandHook := false;
      handlerRunning := conf.HasStaticSource() && !conf.sourceOnDemand;
      sourceAccepted, received, replies, crashed := false, [], [], false;
      hooks := Hooks(0, 0, if conf.alwaysAvailable then 1 else 0, 0);
    }

    // A send on a request's response channel.
    ghost method Send(req: RequestId, answer: Answer)
      modifies this`replies
      ensures View() == old(View()).Answered(req, answer)
      ensures replies == old(replies) + [Reply(req, answer)]
    {
      replies := replies + [Reply(req, answer)];
    }

    ghost method Panic(reached: bool)
      modifies this`crashed
      ensures crashed == (old(crashed) || reached)
    {
      crashed := crashed || reached;
    }

    method AnswerAll(reqs: seq<RequestId>, answer: Answer)
      modifies this`replies
      ensures replies == old(replies) + ReplyAll(reqs, answer)
    {
      for i := 0 to |reqs|
        invariant replies == old(replies) + ReplyAll(reqs[..i], answer)
      {
        Send(reqs[i], answer);
        assert reqs[..i + 1] == reqs[..i] + [reqs[i]];
      }
      assert reqs[..|reqs|] == reqs;
    }

    method AnswerAllReaders(hs: seq<Held>, answer: Answer)
      modifies this`replies
      ensures replies == old(replies) + ReplyAll(HeldRequests(hs), answer)
    {
      for i := 0 to |hs|
        invariant replies == old(replies) + ReplyAll(HeldRequests(hs[..i]), answer)
      {
        Send(hs[i].req, answer);
        assert hs[..i + 1] == hs[..i] + [hs[i]];
      }
      assert hs[..|hs|] == hs;
    }

    // The two loops that open both ready-timer handlers and the teardown.
    method DrainHolds(answer: Answer)
      modifies this`replies, this`describesOnHold, this`readersOnHold
      ensures View() == old(View()).DrainHolds(answer)
    {
      AnswerAll(describesOnHold, answer);
      describesOnHold := [];
      AnswerAllReaders(readersOnHold, answer);
      readersOnHold := [];
    }

    method OnDemandStaticSourceStart()
      modifies this
      ensures View() == old(View()).StaticStart()
    {
      Panic(handlerRunning);
      handlerRunning := true;
      staticReadyTimer := true;
      staticPhase := WaitingReady;
    }

    method OnDemandStaticSourceScheduleClose()
      modifies this`staticPhase, this`staticCloseTimer
      ensures View() == old(View()).(staticSource := old(View()).staticSource.ClosingScheduled())
    {
      staticCloseTimer := true;
      staticPhase := Closing;
    }

    method OnDemandStaticSourceStop()
      modifies this
      ensures View() == old(View()).StaticStop()
    {
      if staticPhase == Closing {
        staticCloseTimer := false;
      }
      staticPhase := Initial;
      Panic(!handlerRunning);
      handlerRunning := false;
      sourceAccepted := false;
    }

    method OnDemandPublisherStart()
      modifies this
      ensures View() == old(View()).PublisherStart()
    {
      unDemandHook := true;
      hooks := hooks.(demand := hooks.demand + 1);
      publisherReadyTimer := true;
      publisherPhase := WaitingReady;
    }

    method OnDemandPublisherScheduleClose()
      modifies this`publisherPhase, this`publisherCloseTimer
      ensures View() == old(View()).(publisher := old(View()).publisher.ClosingScheduled())
    {
      publisherCloseTimer := true;
      publisherPhase := Closing;
    }

    method OnDemandPublisherStop()
      modifies this
      ensures View() == old(View()).PublisherStop()
    {
      if publisherPhase == Closing {
        publisherCloseTimer := false;
      }
      Panic(!unDemandHook);
      hooks := hooks.(unDemand := hooks.unDemand + 1);
      unDemandHook := false;
      publisherPhase := Initial;
    }

    method SetAvailable()
      modifies this`stream, this`hooks
      ensures View() == old(View()).SetAvailable()
    {
      stream := true;
      hooks := hooks.(ready := hooks.ready + 1);
    }

    method CloseReaders()
      modifies this`readers
      ensures readers == {}
    {
      while readers != {}
        decreases readers
      {
        var r :| r in readers;
        readers := readers - {r};
      }
    }

    method SetNotAvailable()
      modifies this`readers, this`crashed, this`hooks, this`stream
      ensures View() == old(View()).SetNotAvailable()
    {
      CloseReaders();
      Panic(hooks.ready == 0);
      hooks := hooks.(notReady := hooks.notReady + 1);
      stream := false;
    }

    method CancelClose()
      modifies this`staticPhase, this`staticCloseTimer, this`publisherPhase, this`publisherCloseTimer
      ensures View() == old(View()).CloseCancelled()
    {
      if conf.HasOnDemandStaticSource() {
        if staticPhase == Closing {
          staticPhase := Ready;
          staticCloseTimer := false;
        }
      } else if conf.HasOnDemandPublisher() {
        if publisherPhase == Closing {
          publisherPhase := Ready;
          publisherCloseTimer := false;
        }
      }
    }

    method AddReaderPost(h: Held)
      modifies this
      ensures View() == old(View()).AddReaderPost(h)
    {
      hide OnDemand.ReaderJoined, Conf.HasOnDemandStaticSource, Conf.HasOnDemandPublisher;
      if h.author in readers {
        Send(h.req, GotStream);
        return;
      }
      if conf.maxReaders != 0 && |readers| >= conf.maxReaders {
        Send(h.req, TooManyReaders);
        return;
      }
      readers := readers + {h.author};
      CancelClose();
      Send(h.req, GotStream);
    }

    method AddReadersPost(hs: seq<Held>)
      modifies this
      ensures View() == old(View()).AddReadersPost(hs)
    {
      hide State.AddReaderPost;
      ghost var was := View();
      for i := 0 to |hs|
        invariant View() == was.AddReadersPost(hs[..i])
      {
        AddReaderPost(hs[i]);
        assert hs[..i + 1][..i] == hs[..i];
      }
      assert hs[..|hs|] == hs;
    }

    method ConsumeOnHoldRequests()
      modifies this
      ensures View() == old(View()).ConsumeOnHold()
    {
      hide State.AddReadersPost, ReplyAll;
      AnswerAll(describesOnHold, GotStream);
      describesOnHold := [];
      AddReadersPost(readersOnHold);
      readersOnHold := [];
    }

    method ExecuteRemovePublisher()
      modifies this
      ensures View() == old(View()).ExecuteRemovePublisher()
    {
      if !conf.alwaysAvailable {
        SetNotAvailable();
      } else {
        Panic(!stream);
      }
      source := NoSource;
    }

    method DoOnDemandStaticSourceReadyTimer()
      modifies this
      ensures View() == old(View()).DoStaticReadyTimer()
    {
      staticReadyTimer := false;
      DrainHolds(SourceTimedOut);
      OnDemandStaticSourceStop();
    }

    method DoOnDemandStaticSourceCloseTimer()
      modifies this
      ensures View() == old(View()).DoStaticCloseTimer()
    {
      staticCloseTimer := false;
      Panic(conf.alwaysAvailable);
      SetNotAvailable();
      OnDemandStaticSourceStop();
    }

    method DoOnDemandPublisherReadyTimer()
      modifies this
      ensures View() == old(View()).DoPublisherReadyTimer()
    {
      publisherReadyTimer := false;
      DrainHolds(SourceTimedOut);
      OnDemandPublisherStop();
    }

    method DoOnDemandPublisherCloseTimer()
      modifies this
      ensures View() == old(View()).DoPublisherCloseTimer()
    {
      publisherCloseTimer := false;
      OnDemandPublisherStop();
    }

    method DoReloadConf(newConf: Conf)
      modifies this
      ensures View() == old(View()).DoReloadConf(newConf)
    {
      conf := newConf;
      if conf.HasStaticSource() {
        Panic(source != StaticHandler);
      }
    }

    method DoSourceStaticSetReady(subStreamOk: bool)
      modifies this
      ensures View() == old(View()).DoSetReady(subStreamOk)
    {
      hide State.ConsumeOnHold;
      if !conf.alwaysAvailable {
        SetAvailable();
      }
      if !subStreamOk {
        return;
      }
      if conf.HasOnDemandStaticSource() {
        staticReadyTimer := false;
        OnDemandStaticSourceScheduleClose();
      }
      sourceAccepted := true;
      ConsumeOnHoldRequests();
    }

    method DoSourceStaticSetNotReady()
      modifies this
      ensures View() == old(View()).DoSetNotReady()
    {
      if !conf.alwaysAvailable {
        SetNotAvailable();
      } else {
        Panic(!stream);
      }
      sourceAccepted := false;
      if conf.HasOnDemandStaticSource() && staticPhase != Initial {
        OnDemandStaticSourceStop();
      }
    }

    method DoDescribe(req: RequestId)
      modifies this
      ensures View() == old(View()).DoDescribe(req)
    {
      received := received + [req];
      if source == Redirect {
        Send(req, Redirected);
        return;
      }
      if stream {
        Send(req, GotStream);
        return;
      }
      if conf.HasOnDemandStaticSource() {
        if staticPhase == Initial {
          OnDemandStaticSourceStart();
        }
        describesOnHold := describesOnHold + [req];
        return;
      }
      if conf.HasOnDemandPublisher() {
        if publisherPhase == Initial {
          OnDemandPublisherStart();
        }
        describesOnHold := describesOnHold + [req];
        return;
      }
      if conf.fallback {
        Send(req, Redirected);
        return;
      }
      Send(req, NoStream);
    }

    method MakeRoom()
      modifies this
      ensures View() == old(View()).MakeRoom()
    {
      hide State.ExecuteRemovePublisher;
      if source != NoSource {
        Panic(!source.Publisher?);
        ExecuteRemovePublisher();
      }
      if !conf.alwaysAvailable {
        SetAvailable();
      }
    }

    method Admit(author: Client)
      modifies this`source, this`publisherPhase, this`publisherReadyTimer, this`publisherCloseTimer
      ensures View() == old(View()).Admit(author)
    {
      source := Publisher(author);
      if conf.HasOnDemandPublisher() && publisherPhase != Initial {
        publisherReadyTimer := false;
        OnDemandPublisherScheduleClose();
      }
    }

    method DoAddPublisher(req: RequestId, author: Client, subStreamOk: bool)
      modifies this
      ensures View() == old(View()).DoAddPublisher(req, author, subStreamOk)
    {
      hide State.MakeRoom, State.Admit, State.ConsumeOnHold, State.Answered;
      received := received + [req];
      assert View() == old(View()).Receive(req);
      hide State.Receive;
      if conf.source != FromPublisher {
        Send(req, Refused);
        return;
      }
      if source != NoSource {
        if !conf.overridePublisher {
          Send(req, Refused);
          return;
        }
      }
      MakeRoom();
      if !subStreamOk {
        Send(req, Failed);
        return;
      }
      Admit(author);
      ConsumeOnHoldRequests();
      Send(req, Accepted);
    }

    method DoRemovePublisher(author: Client)
      modifies this
      ensures View() == old(View()).DoRemovePublisher(author)
    {
      if source == Publisher(author) {
        ExecuteRemovePublisher();
      }
    }

    method DoAddReader(req: RequestId, author: Client)
      modifies this
      ensures View() == old(View()).DoAddReader(req, author)
    {
      received := received + [req];
      if stream {
        AddReaderPost(Held(req, author));
        return;
      }
      if conf.HasOnDemandStaticSource() {
        if staticPhase == Initial {
          OnDemandStaticSourceStart();
        }
        readersOnHold := readersOnHold + [Held(req, author)];
        return;
      }
      if conf.HasOnDemandPublisher() {
        if publisherPhase == Initial {
          OnDemandPublisherStart();
        }
        readersOnHold := readersOnHold + [Held(req, author)];
        return;
      }
      Send(req, NoStream);
    }

    method DoRemoveReader(author: Client)
      modifies this
      ensures View() == old(View()).DoRemoveReader(author)
    {
      if author in readers {
        readers := readers - {author};
      }
      assert readers == old(readers) - {author};
      if |readers| == 0 {
        if conf.HasOnDemandStaticSource() {
          if staticPhase == Ready {
            OnDemandStaticSourceScheduleClose();
          }
        } else if conf.HasOnDemandPublisher() {
          if publisherPhase == Ready {
            OnDemandPublisherScheduleClose();
          }
        }
      }
    }

    method ShouldClose() returns (r: bool)
      ensures r == View().ShouldClose()
    {
      return conf.regexp && source == NoSource && |readers| == 0 && |describesOnHold| == 0 && |readersOnHold| == 0;
    }

    // One arm of the select statement; asked says whether closePathIfIdle was called at its end.
    method Arm(e: Event) returns (asked: bool)
      modifies this
      ensures View() == old(View()).Step(e)
      ensures asked == old(View()).AsksClose(e)
    {
      asked := false;
      match e
      case StaticReadyTimer =>
        DoOnDemandStaticSourceReadyTimer();
        asked := ShouldClose();
      case StaticCloseTimer =>
        DoOnDemandStaticSourceCloseTimer();
        asked := ShouldClose();
      case PublisherReadyTimer =>
        DoOnDemandPublisherReadyTimer();
        asked := ShouldClose();
      case PublisherCloseTimer =>
        DoOnDemandPublisherCloseTimer();
      case ReloadConf(newConf) =>
        DoReloadConf(newConf);
      case SetReady(ok) =>
        DoSourceStaticSetReady(ok);
      case SetNotReady =>
        DoSourceStaticSetNotReady();
        asked := ShouldClose();
      case Describe(req) =>
        DoDescribe(req);
        asked := ShouldClose();
      case AddPublisher(req, author, ok) =>
        DoAddPublisher(req, author, ok);
        asked := ShouldClose();
      case RemovePublisher(author) =>
        DoRemovePublisher(author);
        asked := ShouldClose();
      case AddReader(req, author) =>
        DoAddReader(req, author);
        asked := ShouldClose();
      case RemoveReader(author) =>
        DoRemoveReader(author);
    }

    // run: the select loop over the events that it happens to receive, then the teardown.
    method Run(events: seq<Event>)
      modifies this
      ensures View() == old(View()).Steps(events).Teardown()
    {
      ghost var was := View();
      assert events[..0] == [];
      for i := 0 to |events|
        invariant View() == was.Steps(events[..i])
      {
        var _ := Arm(events[i]);
        assert events[..i + 1][..i] == events[..i];
      }
      assert events[..|events|] == events;
      Terminate();
    }

    method StopTimers()
      modifies this`staticReadyTimer, this`staticCloseTimer, this`publisherReadyTimer, this`publisherCloseTimer
      ensures View() == old(View()).TimersStopped()
    {
      staticReadyTimer, staticCloseTimer := false, false;
      publisherReadyTimer, publisherCloseTimer := false, false;
    }

    method WithdrawStream()
      modifies this`readers, this`crashed, this`hooks, this`stream
      ensures View() == old(View()).StreamWithdrawn()
    {
      if stream {
        SetNotAvailable();
      }
    }

    method EndDemand()
      modifies this`hooks
      ensures View() == old(View()).DemandEnded()
    {
      if unDemandHook {
        hooks := hooks.(unDemand := hooks.unDemand + 1);
      }
    }

    method CloseSource()
      modifies this`handlerRunning, this`sourceAccepted, this`crashed
      ensures View() == old(View()).SourceClosed()
    {
      if source == StaticHandler {
        if !conf.sourceOnDemand || staticPhase != Initial {
          Panic(!handlerRunning);
          handlerRunning, sourceAccepted := false, false;
        }
      }
    }

    method Terminate()
      modifies this
      ensures View() == old(View()).Teardown()
    {
      hide State.TimersStopped, State.DrainHolds, State.StreamWithdrawn, State.SourceClosed, State.DemandEnded;
      StopTimers();
      DrainHolds(Terminated);
      WithdrawStream();
      CloseSource();
      EndDemand();
    }
  }
}
