/** What every run of a path keeps: the on-demand machines, the hooks, and every request's single answer. */
module PathSafety {
  import opened PathState

  // ---- every request is answered once or is held once ----

  function Accounted(s: State): multiset<RequestId> {
    multiset(RepliedRequests(s.replies)) + multiset(s.describesOnHold) + multiset(HeldRequests(s.readersOnHold))
  }

  ghost predicate Conserved(s: State) {
    Accounted(s) == multiset(s.received)
  }

  lemma RepliesSplit(a: seq<Reply>, b: seq<Reply>)
    ensures RepliedRequests(a + b) == RepliedRequests(a) + RepliedRequests(b)
  {
  }

  lemma HeldSplit(a: seq<Held>, b: seq<Held>)
    ensures HeldRequests(a + b) == HeldRequests(a) + HeldRequests(b)
  {
  }

  lemma ReplyAllAnswers(reqs: seq<RequestId>, answer: Answer)
    ensures RepliedRequests(ReplyAll(reqs, answer)) == reqs
  {
  }

  // t is s after one more answer.
  lemma AnswerAccounts(s: State, t: State, req: RequestId, answer: Answer)
    requires t.replies == s.replies + [Reply(req, answer)]
    requires t.describesOnHold == s.describesOnHold && t.readersOnHold == s.readersOnHold
    ensures Accounted(t) == Accounted(s) + multiset{req}
  {
    RepliesSplit(s.replies, [Reply(req, answer)]);
    assert RepliedRequests([Reply(req, answer)]) == [req];
  }

  lemma HoldAccounts(s: State, t: State, h: Held)
    requires t.replies == s.replies
    requires (t.describesOnHold == s.describesOnHold + [h.req] && t.readersOnHold == s.readersOnHold)
          || (t.describesOnHold == s.describesOnHold && t.readersOnHold == s.readersOnHold + [h])
    ensures Accounted(t) == Accounted(s) + multiset{h.req}
  {
    HeldSplit(s.readersOnHold, [h]);
    assert HeldRequests([h]) == [h.req];
  }

  lemma SameAccounts(s: State, t: State)
    requires t.replies == s.replies
    requires t.describesOnHold == s.describesOnHold && t.readersOnHold == s.readersOnHold
    ensures Accounted(t) == Accounted(s)
  {
  }

  // t is s after every held request was answered.
  lemma DrainAccounts(s: State, t: State, answer: Answer)
    requires t.replies == s.replies + ReplyAll(s.describesOnHold, answer)
        + ReplyAll(HeldRequests(s.readersOnHold), answer)
    requires t.describesOnHold == [] && t.readersOnHold == []
    ensures Accounted(t) == Accounted(s)
  {
    var d, r := ReplyAll(s.describesOnHold, answer), ReplyAll(HeldRequests(s.readersOnHold), answer);
    RepliesSplit(s.replies + d, r);
    RepliesSplit(s.replies, d);
    ReplyAllAnswers(s.describesOnHold, answer);
    ReplyAllAnswers(HeldRequests(s.readersOnHold), answer);
  }

  lemma AddReaderPostAccounts(s: State, h: Held)
    ensures var t := s.AddReaderPost(h);
            && Accounted(t) == Accounted(s) + multiset{h.req} && t.received == s.received
            && t.describesOnHold == s.describesOnHold && t.readersOnHold == s.readersOnHold
  {
    hide Accounted;
    var t := s.AddReaderPost(h);
    AnswerAccounts(s, t, h.req,
                   if t.replies == s.Answered(h.req, GotStream).replies then GotStream else TooManyReaders);
  }

  lemma {:induction false} AddReadersPostAccounts(s: State, hs: seq<Held>)
    ensures var t := s.AddReadersPost(hs);
            && Accounted(t) == Accounted(s) + multiset(HeldRequests(hs)) && t.received == s.received
            && t.describesOnHold == s.describesOnHold && t.readersOnHold == s.readersOnHold
  {
    hide Accounted;
    hide State.AddReaderPost;
    if hs == [] {
      assert HeldRequests(hs) == [];
    } else {
      var init, last := hs[..|hs| - 1], hs[|hs| - 1];
      AddReadersPostAccounts(s, init);
      AddReaderPostAccounts(s.AddReadersPost(init), last);
      HeldSplit(init, [last]);
      assert hs == init + [last] && HeldRequests([last]) == [last.req];
      assert multiset(HeldRequests(hs)) == multiset(HeldRequests(init)) + multiset{last.req};
    }
  }

  lemma ConsumeAccounts(s: State)
    ensures var t := s.ConsumeOnHold();
            && Accounted(t) == Accounted(s) && t.received == s.received
            && t.describesOnHold == [] && t.readersOnHold == []
  {
    hide State.AddReadersPost;
    var t := s.(replies := s.replies + ReplyAll(s.describesOnHold, GotStream), describesOnHold := []);
    var u := t.AddReadersPost(t.readersOnHold);
    AddReadersPostAccounts(t, t.readersOnHold);
    AnswersAccount(s, t, u, GotStream);
  }

  // The describes of s were answered in t, and the held readers between t and u.
  lemma AnswersAccount(s: State, t: State, u: State, answer: Answer)
    requires t == s.(replies := s.replies + ReplyAll(s.describesOnHold, answer), describesOnHold := [])
    requires Accounted(u) == Accounted(t) + multiset(HeldRequests(t.readersOnHold))
    requires u.describesOnHold == [] && u.readersOnHold == t.readersOnHold
    ensures Accounted(u.(readersOnHold := [])) == Accounted(s)
  {
    hide RepliedRequests;
    hide ReplyAll;
    RepliesSplit(s.replies, ReplyAll(s.describesOnHold, answer));
    ReplyAllAnswers(s.describesOnHold, answer);
    var a, d, h := multiset(RepliedRequests(s.replies)), multiset(s.describesOnHold),
        multiset(HeldRequests(s.readersOnHold));
    assert Accounted(t) == (a + d) + h;
    assert Accounted(u) == multiset(RepliedRequests(u.replies)) + h;
    MultisetCancel(multiset(RepliedRequests(u.replies)), a + d + h, h);
  }

  lemma MultisetCancel<T>(x: multiset<T>, y: multiset<T>, z: multiset<T>)
    requires x + z == y + z
    ensures x == y
  {
    forall e ensures x[e] == y[e] {
      assert (x + z)[e] == (y + z)[e];
    }
  }

  // No step of any kind, not even one that ends in a panic, loses or repeats an answer.
  lemma StepConserves(s: State, e: Event)
    requires Conserved(s)
    ensures Conserved(s.Step(e))
  {
    hide Conserved, State.DoSetReady, State.DoDescribe, State.DoAddReader, State.DoAddPublisher;
    match e
    case SetReady(ok) => SetReadyConserves(s, ok);
    case Describe(req) => DescribeConserves(s, req);
    case AddReader(req, author) => AddReaderConserves(s, req, author);
    case AddPublisher(req, author, ok) => AddPublisherConserves(s, req, author, ok);
    case _ =>
      if e.StaticReadyTimer? || e.PublisherReadyTimer? {
        DrainConserves(s, s.Step(e), SourceTimedOut);
      } else {
        QuietStepConserves(s, e);
      }
  }

  // These arms answer nobody and hold nobody.
  ghost predicate Quiet(s: State, t: State) {
    && t.replies == s.replies && t.received == s.received
    && t.describesOnHold == s.describesOnHold && t.readersOnHold == s.readersOnHold
  }

  lemma QuietStepConserves(s: State, e: Event)
    requires Conserved(s)
    requires e.StaticCloseTimer? || e.PublisherCloseTimer? || e.ReloadConf? || e.SetNotReady?
          || e.RemovePublisher? || e.RemoveReader?
    ensures Conserved(s.Step(e))
  {
    hide Accounted, State.DoSetReady, State.DoDescribe, State.DoAddReader, State.DoAddPublisher,
         State.DoStaticReadyTimer, State.DoPublisherReadyTimer;
    if e.StaticCloseTimer? || e.SetNotReady? {
      StaticSideIsQuiet(s);
    } else {
      PublisherSideIsQuiet(s, e);
    }
    SameAccounts(s, s.Step(e));
  }

  lemma StaticSideIsQuiet(s: State)
    ensures Quiet(s, s.DoStaticCloseTimer()) && Quiet(s, s.DoSetNotReady())
  {
  }

  lemma PublisherSideIsQuiet(s: State, e: Event)
    requires e.PublisherCloseTimer? || e.ReloadConf? || e.RemovePublisher? || e.RemoveReader?
    ensures Quiet(s, s.Step(e))
  {
  }

  lemma DrainConserves(s: State, t: State, answer: Answer)
    requires Conserved(s) && t.received == s.received
    requires t.replies == s.replies + ReplyAll(s.describesOnHold, answer)
        + ReplyAll(HeldRequests(s.readersOnHold), answer)
    requires t.describesOnHold == [] && t.readersOnHold == []
    ensures Conserved(t)
  {
    DrainAccounts(s, t, answer);
  }

  lemma SetReadyConserves(s: State, ok: bool)
    requires Conserved(s)
    ensures Conserved(s.DoSetReady(ok))
  {
    hide Accounted;
    hide State.ConsumeOnHold;
    if ok {
      var t := s.StaticArrived().(sourceAccepted := true);
      SameAccounts(s, t);
      ConsumeAccounts(t);
    } else {
      SameAccounts(s, s.DoSetReady(ok));
    }
  }

  lemma ReceivedOne(s: State, t: State, req: RequestId)
    requires Conserved(s) && t.received == s.received + [req]
    requires Accounted(t) == Accounted(s) + multiset{req}
    ensures Conserved(t)
  {
    assert multiset(t.received) == multiset(s.received) + multiset{req};
  }

  lemma DescribeConserves(s: State, req: RequestId)
    requires Conserved(s)
    ensures Conserved(s.DoDescribe(req))
  {
    hide Accounted, Conserved;
    var t := s.DoDescribe(req);
    if s.source != Redirect && !s.stream && s.OnDemandConf() {
      HoldAccounts(s, t, Held(req, 0));
    } else {
      AnswerAccounts(s, t, req, if s.source != Redirect && s.stream then GotStream
                                else if s.source == Redirect || s.conf.fallback then Redirected else NoStream);
    }
    ReceivedOne(s, t, req);
  }

  lemma AddReaderConserves(s: State, req: RequestId, author: Client)
    requires Conserved(s)
    ensures Conserved(s.DoAddReader(req, author))
  {
    hide Accounted, Conserved, State.AddReaderPost;
    var r := s.Receive(req);
    var t := s.DoAddReader(req, author);
    if s.stream {
      SameAccounts(s, r);
      AddReaderPostAccounts(r, Held(req, author));
    } else if t.readersOnHold == s.readersOnHold {
      AnswerAccounts(s, t, req, NoStream);
    } else {
      HoldAccounts(s, t, Held(req, author));
    }
    ReceivedOne(s, t, req);
  }

  lemma AddPublisherConserves(s: State, req: RequestId, author: Client, ok: bool)
    requires Conserved(s)
    ensures Conserved(s.DoAddPublisher(req, author, ok))
  {
    hide Accounted, Conserved, State.ConsumeOnHold, State.MakeRoom, State.Admit;
    var t := s.DoAddPublisher(req, author, ok);
    var room := s.Receive(req).MakeRoom();
    MakeRoomIsQuiet(s.Receive(req), author);
    if s.RefusesPublisher() {
      AnswerAccounts(s, t, req, Refused);
    } else if !ok {
      AnswerAccounts(s, t, req, Failed);
    } else {
      var admitted := room.Admit(author);
      SameAccounts(s, admitted);
      ConsumeAccounts(admitted);
      AnswerAccounts(admitted.ConsumeOnHold(), t, req, Accepted);
    }
    ReceivedOne(s, t, req);
  }

  lemma MakeRoomIsQuiet(s: State, author: Client)
    ensures Quiet(s, s.MakeRoom()) && Quiet(s, s.MakeRoom().Admit(author))
  {
    RoomIsQuiet(s);
    hide State.MakeRoom;
  }

  lemma RoomIsQuiet(s: State)
    ensures Quiet(s, s.MakeRoom())
  {
    var room := if s.source == NoSource then s else s.(crashed := s.crashed || !s.source.Publisher?);
    RemovalIsQuiet(room);
    hide State.ExecuteRemovePublisher;
  }

  lemma RemovalIsQuiet(s: State)
    ensures Quiet(s, s.ExecuteRemovePublisher())
  {
  }

  lemma {:induction false} RunConserves(conf: Conf, es: seq<Event>)
    ensures Conserved(Start(conf).Steps(es))
  {
    if es != [] {
      RunConserves(conf, es[..|es| - 1]);
      StepConserves(Start(conf).Steps(es[..|es| - 1]), es[|es| - 1]);
    }
  }

  // When run has ended, the requests answered are exactly the requests received, each once.
  lemma EveryRequestAnsweredOnce(conf: Conf, es: seq<Event>)
    ensures var s := Start(conf).Steps(es).Teardown();
            && multiset(RepliedRequests(s.replies)) == multiset(s.received)
            && s.received == Start(conf).Steps(es).received
            && s.describesOnHold == [] && s.readersOnHold == []
  {
    RunConserves(conf, es);
    var s := Start(conf).Steps(es);
    DrainConserves(s, s.Teardown(), Terminated);
  }

  // ---- the on-demand machines ----

  // What holds whatever the kind of path.
  ghost predicate CommonInv(s: State) {
    && s.conf.Valid() && !s.crashed
    && (s.readers != {} ==> s.stream)
    && (s.describesOnHold != [] || s.readersOnHold != [] ==>
          !s.stream && (s.conf.HasOnDemandStaticSource() || s.conf.HasOnDemandPublisher()))
    && s.hooks.ready == s.hooks.notReady + (if s.stream then 1 else 0)
    && (s.conf.alwaysAvailable ==> s.stream)
    && (s.source == StaticHandler <==> s.conf.HasStaticSource())
    && (s.source == Redirect <==> s.conf.source == FromRedirect)
    && (s.sourceAccepted ==> s.handlerRunning)
  }

  // The four-state machine of an on-demand static source.
  ghost predicate StaticMachine(s: State) {
    && (s.handlerRunning <==> s.staticSource.phase != Initial)
    && (s.staticSource.readyTimer <==> s.staticSource.phase == WaitingReady)
    && (s.staticSource.closeTimer <==> s.staticSource.phase == Closing)
    && (s.stream <==> s.staticSource.phase == Ready || s.staticSource.phase == Closing)
    && (s.sourceAccepted <==> s.stream)
    && (s.readers != {} <==> s.staticSource.phase == Ready)
    && (s.describesOnHold != [] || s.readersOnHold != [] ==> s.staticSource.phase == WaitingReady)
  }

  // The four-state machine of an on-demand publisher.
  ghost predicate PublisherMachine(s: State) {
    && (s.unDemandHook <==> s.publisher.phase != Initial)
    && (s.publisher.readyTimer <==> s.publisher.phase == WaitingReady)
    && (s.publisher.closeTimer <==> s.publisher.phase == Closing)
    && (s.publisher.phase == WaitingReady || s.publisher.phase == Closing ==> s.readers == {})
    && (s.publisher.phase == WaitingReady ==> !s.stream)
    && (s.publisher.phase == Ready && s.stream ==> s.readers != {})
  }

  ghost predicate Inv(s: State) {
    && CommonInv(s)
    && (if s.conf.HasOnDemandStaticSource() then StaticMachine(s) else s.staticSource == IDLE)
    && (s.conf.HasStaticSource() && !s.conf.sourceOnDemand ==>
          s.handlerRunning && (!s.conf.alwaysAvailable ==> (s.stream <==> s.sourceAccepted)))
    && (!s.conf.HasStaticSource() ==> !s.handlerRunning && !s.sourceAccepted)
    && (!s.conf.HasStaticSource() && !s.conf.alwaysAvailable ==> (s.stream <==> s.source.Publisher?))
    && (if s.conf.HasOnDemandPublisher() then PublisherMachine(s) else s.publisher == IDLE && !s.unDemandHook)
    && s.hooks.demand == s.hooks.unDemand + (if s.unDemandHook then 1 else 0)
  }

  // What the machines rely on: a new source's sub-stream initializes, and a static source does not announce itself
  // while the path still holds a stream of it. Paths that are always available rely on neither.
  predicate Fits(s: State, e: Event) {
    s.conf.alwaysAvailable ||
    match e
    case SetReady(ok) => ok && !s.sourceAccepted
    case AddPublisher(_, _, ok) => ok || s.RefusesPublisher()
    case _ => true
  }

  // A run in which every event fits.
  ghost predicate IsOrderly(conf: Conf, es: seq<Event>) {
    IsRun(conf, es) && forall i :: 0 <= i < |es| ==> Fits(Start(conf).Steps(es[..i]), es[i])
  }

  lemma StartInv(conf: Conf)
    requires conf.Valid()
    ensures Inv(Start(conf))
  {
  }

  // One held reader is answered: it joins the readers unless the limit is reached.
  lemma AddReaderPostInv(s: State, h: Held)
    requires Inv(s.(describesOnHold := [], readersOnHold := [])) && s.stream
    ensures Inv(s.AddReaderPost(h).(describesOnHold := [], readersOnHold := []))
    ensures var t := s.AddReaderPost(h);
            && t.stream && s.readers <= t.readers <= s.readers + {h.author} && t.readersOnHold == s.readersOnHold
            && t.describesOnHold == s.describesOnHold && t.source == s.source && t.conf == s.conf
  {
    hide State.ReadersAreFull;
  }

  lemma {:induction false} AddReadersPostInv(s: State, hs: seq<Held>)
    requires Inv(s.(describesOnHold := [], readersOnHold := [])) && s.stream
    ensures Inv(s.AddReadersPost(hs).(describesOnHold := [], readersOnHold := []))
    ensures var t := s.AddReadersPost(hs);
            && t.stream && t.readersOnHold == s.readersOnHold && t.describesOnHold == s.describesOnHold
            && t.source == s.source && t.conf == s.conf
  {
    if hs != [] {
      AddReadersPostInv(s, hs[..|hs| - 1]);
      AddReaderPostInv(s.AddReadersPost(hs[..|hs| - 1]), hs[|hs| - 1]);
    }
  }

  lemma ConsumeInv(s: State)
    requires Inv(s.(describesOnHold := [], readersOnHold := [])) && s.stream
    ensures Inv(s.ConsumeOnHold()) && s.ConsumeOnHold().stream
    ensures s.ConsumeOnHold().source == s.source
  {
    var t := s.(replies := s.replies + ReplyAll(s.describesOnHold, GotStream), describesOnHold := []);
    AddReadersPostInv(t, t.readersOnHold);
    var u := t.AddReadersPost(t.readersOnHold);
    assert u.(readersOnHold := []) == u.(describesOnHold := [], readersOnHold := []);
  }

  lemma StepInv(s: State, e: Event)
    requires Inv(s) && s.Enabled(e) && Fits(s, e)
    ensures Inv(s.Step(e))
  {
    hide Inv, Fits, State.DoSetReady, State.DoAddPublisher, State.DoAddReader, State.DoDescribe;
    match e
    case SetReady(ok) => SetReadyInv(s, ok);
    case AddPublisher(req, author, ok) => AddPublisherInv(s, req, author, ok);
    case Describe(req) => DescribeInv(s, req);
    case AddReader(req, author) => AddReaderInv(s, req, author);
    case RemoveReader(author) => RemoveInv(s, author);
    case RemovePublisher(author) => RemoveInv(s, author);
    case ReloadConf(c) => ReloadInv(s, c);
    case _ => SourceEventInv(s, e);
  }

  lemma SourceEventInv(s: State, e: Event)
    requires Inv(s) && s.Enabled(e)
    requires e.StaticReadyTimer? || e.StaticCloseTimer? || e.PublisherReadyTimer? || e.PublisherCloseTimer?
          || e.SetNotReady?
    ensures Inv(s.Step(e))
  {
  }

  lemma ReloadInv(s: State, c: Conf)
    requires Inv(s) && s.conf.CanBeReloadedTo(c)
    ensures Inv(s.DoReloadConf(c))
  {
  }

  lemma RemoveInv(s: State, author: Client)
    requires Inv(s)
    ensures Inv(s.DoRemoveReader(author)) && Inv(s.DoRemovePublisher(author))
  {
  }

  lemma DescribeInv(s: State, req: RequestId)
    requires Inv(s)
    ensures Inv(s.DoDescribe(req))
  {
  }

  lemma AddReaderInv(s: State, req: RequestId, author: Client)
    requires Inv(s)
    ensures Inv(s.DoAddReader(req, author))
  {
    if s.stream { AddReaderPostInv(s.Receive(req), Held(req, author)); }
  }

  lemma SetReadyInv(s: State, ok: bool)
    requires Inv(s) && s.Enabled(SetReady(ok)) && Fits(s, SetReady(ok))
    ensures Inv(s.DoSetReady(ok))
  {
    if ok {
      ConsumeInv(s.StaticArrived().(sourceAccepted := true));
    }
  }

  lemma AddPublisherInv(s: State, req: RequestId, author: Client, ok: bool)
    requires Inv(s) && Fits(s, AddPublisher(req, author, ok))
    ensures Inv(s.DoAddPublisher(req, author, ok))
  {
    if !s.RefusesPublisher() && ok {
      ConsumeInv(s.Receive(req).MakeRoom().Admit(author));
    }
  }

  lemma PrefixIsARun(conf: Conf, es: seq<Event>, n: nat)
    requires IsRun(conf, es) && n <= |es|
    ensures IsRun(conf, es[..n])
  {
    forall i | 0 <= i < n
      ensures Start(conf).Steps(es[..n][..i]).Enabled(es[..n][i])
    {
      assert es[..n][..i] == es[..i];
    }
  }

  lemma PrefixIsOrderly(conf: Conf, es: seq<Event>, n: nat)
    requires IsOrderly(conf, es) && n <= |es|
    ensures IsOrderly(conf, es[..n])
  {
    PrefixIsARun(conf, es, n);
    hide Fits;
    forall i | 0 <= i < n
      ensures Fits(Start(conf).Steps(es[..n][..i]), es[..n][i])
    {
      assert es[..n][..i] == es[..i];
    }
  }

  lemma {:induction false} RunInv(conf: Conf, es: seq<Event>)
    requires conf.Valid() && IsOrderly(conf, es)
    ensures Inv(Start(conf).Steps(es))
  {
    if es == [] {
      StartInv(conf);
    } else {
      var n := |es| - 1;
      PrefixIsOrderly(conf, es, n);
      RunInv(conf, es[..n]);
      hide Fits, Inv;
      StepInv(Start(conf).Steps(es[..n]), es[n]);
    }
  }

  // The machine of an on-demand static source, over every orderly run: no panic is reached, the close timer has
  // no reader to drop, and every held request has a deadline.
  lemma OnDemandStaticSourceRun(conf: Conf, es: seq<Event>)
    requires conf.Valid() && conf.HasOnDemandStaticSource() && IsOrderly(conf, es)
    ensures var s := Start(conf).Steps(es);
            && !s.crashed && StaticMachine(s)
            && (s.Enabled(StaticCloseTimer) ==> s.readers == {})
            && (s.describesOnHold != [] || s.readersOnHold != [] ==> s.Enabled(StaticReadyTimer))
            && !s.Teardown().crashed && !s.Teardown().handlerRunning
  {
    RunInv(conf, es);
    ConfKeepsKind(conf, es);
  }

  // The machine of an on-demand publisher, over every such run: a hook is never called when it is nil,
  // and once the path is gone each start has met exactly one stop.
  lemma OnDemandPublisherRun(conf: Conf, es: seq<Event>)
    requires conf.Valid() && conf.HasOnDemandPublisher() && IsOrderly(conf, es)
    ensures var s := Start(conf).Steps(es);
            && !s.crashed && PublisherMachine(s)
            && s.hooks.demand == s.hooks.unDemand + (if s.publisher.phase == Initial then 0 else 1)
            && (s.Enabled(PublisherCloseTimer) ==> s.readers == {})
            && !s.Teardown().crashed && s.Teardown().hooks.demand == s.Teardown().hooks.unDemand
  {
    RunInv(conf, es);
    ConfKeepsKind(conf, es);
  }

  // Whatever the kind of path, teardown closes what was opened.
  lemma TeardownClosesEverything(conf: Conf, es: seq<Event>)
    requires conf.Valid() && IsOrderly(conf, es)
    ensures var s := Start(conf).Steps(es).Teardown();
            && !s.crashed && !s.stream && s.readers == {} && !s.handlerRunning
            && s.hooks.ready == s.hooks.notReady && s.hooks.demand == s.hooks.unDemand
            && !s.staticSource.readyTimer && !s.staticSource.closeTimer
            && !s.publisher.readyTimer && !s.publisher.closeTimer
  {
    RunInv(conf, es);
  }

  // Reloads never change what kind of path this is.
  lemma {:induction false} ConfKeepsKind(conf: Conf, es: seq<Event>)
    requires IsRun(conf, es)
    ensures var c := Start(conf).Steps(es).conf;
            c == conf.(regexp := c.regexp)
  {
    if es != [] {
      var n := |es| - 1;
      PrefixIsARun(conf, es, n);
      ConfKeepsKind(conf, es[..n]);
      StepKeepsKind(Start(conf).Steps(es[..n]), es[n]);
    }
  }

  lemma StepKeepsKind(s: State, e: Event)
    requires s.Enabled(e)
    ensures var c := s.Step(e).conf; c == s.conf.(regexp := c.regexp)
  {
  }

  // ---- what the code does not keep, and exactly when ----

  // A sub-stream that fails to initialize leaves the stream set, and a source that announces itself twice has the
  // first of its streams and hooks forgotten: a step keeps the invariant if and only if its event fits.
  lemma StepInvExactly(s: State, e: Event)
    requires Inv(s) && s.Enabled(e)
    ensures Inv(s.Step(e)) <==> Fits(s, e)
  {
    if Fits(s, e) {
      StepInv(s, e);
    } else if e.SetReady? {
      AnnouncedTwice(s, e.subStreamOk);
    } else {
      hide State.ConsumeOnHold;
    }
  }

  // The ready hook is called although there is no stream to open, or the stream has no source.
  lemma AnnouncedTwice(s: State, ok: bool)
    requires Inv(s) && s.Enabled(SetReady(ok)) && !Fits(s, SetReady(ok))
    ensures !Inv(s.DoSetReady(ok))
  {
    if ok {
      var t := s.StaticArrived().(sourceAccepted := true);
      var d := t.(replies := t.replies + ReplyAll(t.describesOnHold, GotStream), describesOnHold := []);
      AddReadersKeepHooks(d, d.readersOnHold);
    }
  }

  lemma {:induction false} AddReadersKeepHooks(s: State, hs: seq<Held>)
    ensures s.AddReadersPost(hs).hooks == s.hooks && s.AddReadersPost(hs).stream == s.stream
  {
    hide State.AddReaderPost;
    if hs != [] {
      AddReadersKeepHooks(s, hs[..|hs| - 1]);
      AddReaderKeepsHooks(s.AddReadersPost(hs[..|hs| - 1]), hs[|hs| - 1]);
    }
  }

  lemma AddReaderKeepsHooks(s: State, h: Held)
    ensures s.AddReaderPost(h).hooks == s.hooks && s.AddReaderPost(h).stream == s.stream
  {
    hide OnDemand.ReaderJoined;
  }

  // Over whole runs: the invariant holds all along if and only if every event fits.
  lemma RunInvExactly(conf: Conf, es: seq<Event>)
    requires conf.Valid() && IsRun(conf, es)
    ensures (forall i :: 0 <= i <= |es| ==> Inv(Start(conf).Steps(es[..i]))) <==> IsOrderly(conf, es)
  {
    hide Inv, Fits;
    if IsOrderly(conf, es) {
      forall i | 0 <= i <= |es|
        ensures Inv(Start(conf).Steps(es[..i]))
      {
        PrefixIsOrderly(conf, es, i);
        RunInv(conf, es[..i]);
      }
    } else {
      var i :| 0 <= i < |es| && !Fits(Start(conf).Steps(es[..i]), es[i]);
      if Inv(Start(conf).Steps(es[..i])) {
        StepInvExactly(Start(conf).Steps(es[..i]), es[i]);
        OneMoreStep(Start(conf), es, i);
      }
      hide *;
    }
  }

  lemma OneMoreStep(s: State, es: seq<Event>, i: nat)
    requires i < |es|
    ensures s.Steps(es[..i + 1]) == s.Steps(es[..i]).Step(es[i])
  {
    hide State.Step;
    assert es[..i + 1][..i] == es[..i];
  }

  // A source that announces itself twice, as the secondary stream of a camera does when its run returns and starts
  // again: the close timer is armed although there is a reader, which it drops, and one ready hook is never matched.
  lemma ReadyTwiceDropsAReader(conf: Conf, a: RequestId, b: RequestId, reader: Client)
    requires conf.Valid() && conf.HasOnDemandStaticSource() && conf.maxReaders == 0
    ensures var es := [Describe(a), SetReady(true), AddReader(b, reader), SetReady(true)];
            var s := Start(conf).Steps(es);
            && IsRun(conf, es) && s.staticSource == OnDemand(Closing, false, true) && s.readers == {reader}
            && s.Enabled(StaticCloseTimer) && s.Step(StaticCloseTimer).readers == {}
            && s.Teardown().hooks.ready == s.Teardown().hooks.notReady + 1
  {
    hide State.DoSetReady, State.DoDescribe, State.DoAddReader, State.DoStaticCloseTimer, State.Teardown;
    var es := [Describe(a), SetReady(true), AddReader(b, reader), SetReady(true)];
    var s3 := Start(conf).Step(es[0]).Step(es[1]).Step(es[2]);
    ReadyWithReader(conf, a, b, reader);
    ReadyAgain(s3, reader);
    StepsUnfold(Start(conf), es);
    hide State.Step, State.Steps;
    forall i | 0 <= i < |es| ensures Start(conf).Steps(es[..i]).Enabled(es[i]) {
      if i == 3 { assert Start(conf).Steps(es[..i]) == s3; }
    }
  }

  lemma ReadyWithReader(conf: Conf, a: RequestId, b: RequestId, reader: Client)
    requires conf.Valid() && conf.HasOnDemandStaticSource() && conf.maxReaders == 0
    ensures var s1 := Start(conf).Step(Describe(a));
            var s2 := s1.Step(SetReady(true));
            var s3 := s2.Step(AddReader(b, reader));
            && s1.handlerRunning && s2.handlerRunning && s3.handlerRunning
            && s3.staticSource == OnDemand(Ready, false, false) && s3.readers == {reader} && s3.readersOnHold == []
            && s3.source == StaticHandler && s3.conf == conf && s3.hooks == Hooks(0, 0, 1, 0)
  {
    var s1 := Start(conf).Step(Describe(a));
    var s2 := s1.Step(SetReady(true));
    assert s1.staticSource == OnDemand(WaitingReady, true, false) && s1.handlerRunning && s1.readersOnHold == [];
    assert s2.staticSource == OnDemand(Closing, false, true) && s2.stream && s2.handlerRunning && s2.readers == {};
  }

  lemma ReadyAgain(s: State, reader: Client)
    requires s.staticSource == OnDemand(Ready, false, false) && s.readers == {reader} && s.readersOnHold == []
    requires s.source == StaticHandler && s.conf.Valid() && s.conf.HasOnDemandStaticSource() && s.handlerRunning
    requires s.hooks == Hooks(0, 0, 1, 0)
    ensures var t := s.Step(SetReady(true));
            && t.staticSource == OnDemand(Closing, false, true) && t.readers == {reader} && t.source == StaticHandler
            && t.Step(StaticCloseTimer).readers == {} && t.Teardown().hooks.ready == t.Teardown().hooks.notReady + 1
  {
  }

  // The stream that a failed sub-stream left behind outlives the source: nobody starts it again and
  // every reader is sent to a stream that nobody feeds.
  lemma FailedSubStreamLeavesDeadStream(conf: Conf, a: RequestId, b: RequestId, reader: Client)
    requires conf.Valid() && conf.HasOnDemandStaticSource() && conf.maxReaders == 0
    ensures var es := [Describe(a), SetReady(false), StaticReadyTimer];
            var s := Start(conf).Steps(es);
            && IsRun(conf, es)
            && s.stream && !s.handlerRunning && s.staticSource == IDLE
            && s.DoAddReader(b, reader).replies[|s.replies|] == Reply(b, GotStream)
            && !s.DoAddReader(b, reader).handlerRunning
  {
    var es := [Describe(a), SetReady(false), StaticReadyTimer];
    var s0 := Start(conf);
    var s1 := s0.Step(es[0]);
    var s2 := s1.Step(es[1]);
    StepsUnfold(s0, es);
    assert s1.staticSource == OnDemand(WaitingReady, true, false) && s1.handlerRunning && !s1.sourceAccepted;
    assert s2 == s1.SetAvailable();
    assert s2.Step(es[2]).staticSource == IDLE;
  }

  // A publisher whose sub-stream fails leaves a stream too: it has no source, and the next publisher opens another one.
  lemma FailedPublisherLeavesDeadStream(conf: Conf, a: RequestId, b: RequestId, p: Client, q: Client, reader: Client)
    requires conf.Valid() && conf.source == FromPublisher && !conf.alwaysAvailable && conf.maxReaders == 0
    ensures var es := [AddPublisher(a, p, false)];
            var s := Start(conf).Steps(es);
            && IsRun(conf, es) && s.stream && s.source == NoSource
            && s.DoAddReader(b, reader).replies[|s.replies|] == Reply(b, GotStream)
            && s.DoAddPublisher(b, q, true).hooks.ready == s.DoAddPublisher(b, q, true).hooks.notReady + 2
  {
    var es := [AddPublisher(a, p, false)];
    StepsUnfold(Start(conf), es);
    assert es[..1] == es;
    var s := Start(conf).Steps(es);
    var t := s.Receive(b).MakeRoom().Admit(q);
    assert s.describesOnHold == [] && s.readersOnHold == [];
    AddReadersKeepHooks(t.(replies := t.replies + ReplyAll(t.describesOnHold, GotStream), describesOnHold := []),
                        t.readersOnHold);
  }

  // A request can be held by an on-demand publisher path while no timer is armed: the publisher left,
  // and the close timer that fired afterwards does not drain the hold lists.
  lemma HeldWithoutDeadline(conf: Conf, a: RequestId, b: RequestId, c: RequestId, p: Client, reader: Client)
    requires conf.Valid() && conf.HasOnDemandPublisher()
    ensures var es := [Describe(a), AddPublisher(b, p, true), RemovePublisher(p), AddReader(c, reader),
        PublisherCloseTimer];
            var s := Start(conf).Steps(es);
            && IsRun(conf, es)
            && s.readersOnHold == [Held(c, reader)] && s.publisher == IDLE
  {
    var es := [Describe(a), AddPublisher(b, p, true), RemovePublisher(p), AddReader(c, reader), PublisherCloseTimer];
    hide State.DoAddPublisher, State.DoDescribe, State.DoRemovePublisher, State.DoAddReader,
        State.DoPublisherCloseTimer;
    var s2 := Start(conf).Step(es[0]).Step(es[1]);
    var s4 := s2.Step(es[2]).Step(es[3]);
    PublisherComesAndLeaves(conf, a, b, p);
    ReaderIsHeld(s2.Step(es[2]), c, reader);
    CloseTimerKeepsHolds(s4);
    StepsUnfold(Start(conf), es);
    hide State.Step, State.Steps;
    forall i | 0 <= i < |es| ensures Start(conf).Steps(es[..i]).Enabled(es[i]) {
      if i == 4 { assert Start(conf).Steps(es[..i]) == s4; }
    }
  }

  lemma ReaderIsHeld(s: State, c: RequestId, reader: Client)
    requires s.conf.Valid() && s.conf.HasOnDemandPublisher() && !s.stream && s.publisher.phase == Closing
    ensures var t := s.DoAddReader(c, reader);
            t.publisher == s.publisher && t.readersOnHold == s.readersOnHold + [Held(c, reader)]
  {
  }

  lemma CloseTimerKeepsHolds(s: State)
    requires s.publisher == OnDemand(Closing, false, true)
    ensures var t := s.Step(PublisherCloseTimer); t.publisher == IDLE && t.readersOnHold == s.readersOnHold
  {
  }

  lemma PublisherComesAndLeaves(conf: Conf, a: RequestId, b: RequestId, p: Client)
    requires conf.Valid() && conf.HasOnDemandPublisher()
    ensures var s := Start(conf).DoDescribe(a).DoAddPublisher(b, p, true).DoRemovePublisher(p);
            && s.publisher == OnDemand(Closing, false, true) && s.source == NoSource && !s.stream
            && s.readersOnHold == [] && s.conf == conf
  {
    hide State.DoAddPublisher;
    var s := Start(conf).DoDescribe(a);
    PublisherArrives(s, b, p);
  }

  lemma PublisherArrives(s: State, req: RequestId, p: Client)
    requires s.conf.Valid() && s.conf.HasOnDemandPublisher() && s.source == NoSource && s.readersOnHold == []
    requires s.publisher == OnDemand(WaitingReady, true, false)
    ensures var t := s.DoAddPublisher(req, p, true);
            && t.publisher == OnDemand(Closing, false, true) && t.source == Publisher(p)
            && t.readersOnHold == [] && t.conf == s.conf
  {
  }

  // A timer will answer the held requests.
  predicate HasDeadline(s: State) {
    s.Enabled(StaticReadyTimer) || s.Enabled(PublisherReadyTimer)
  }

  predicate Holds(s: State, req: RequestId) {
    req in s.describesOnHold || req in HeldRequests(s.readersOnHold)
  }

  // A request that is held gets a deadline exactly when its path has an on-demand static source, or its publisher
  // has not been asked for or is being waited for: not when one came and left a scheduled close behind.
  lemma HeldHasDeadlineExactly(s: State, e: Event)
    requires Inv(s) && (e.Describe? || e.AddReader?)
    requires s.Step(e).describesOnHold != s.describesOnHold || s.Step(e).readersOnHold != s.readersOnHold
    ensures HasDeadline(s.Step(e)) <==>
            s.conf.HasOnDemandStaticSource() || s.publisher.phase == Initial || s.publisher.phase == WaitingReady
  {
  }

  // No event takes the deadline away from a request without answering it.
  lemma DeadlineStays(s: State, e: Event, req: RequestId)
    requires Inv(s) && s.Enabled(e) && HasDeadline(s) && Holds(s, req) && Holds(s.Step(e), req)
    ensures HasDeadline(s.Step(e))
  {
    hide State.ConsumeOnHold;
    match e
    case SetReady(ok) => ConsumeAccounts(s.StaticArrived().(sourceAccepted := true));
    case AddPublisher(r, author, ok) => ConsumeAccounts(s.Receive(r).MakeRoom().Admit(author));
    case _ =>
  }

  // A request that was held with a deadline has one for as long as it is held.
  lemma {:induction false} DeadlineLastsUntilAnswered(conf: Conf, es: seq<Event>, i: nat, req: RequestId)
    requires conf.Valid() && IsOrderly(conf, es) && i <= |es|
    requires HasDeadline(Start(conf).Steps(es[..i]))
    requires forall j :: i <= j <= |es| ==> Holds(Start(conf).Steps(es[..j]), req)
    ensures HasDeadline(Start(conf).Steps(es))
  {
    var n := |es| - 1;
    hide HasDeadline, Holds, Fits, Inv, State.Step, State.Enabled;
    if i == |es| {
      assert es[..i] == es;
    } else {
      var fewer := es[..n];
      PrefixIsOrderly(conf, es, n);
      forall j | i <= j <= n
        ensures Holds(Start(conf).Steps(fewer[..j]), req)
      {
        assert fewer[..j] == es[..j];
      }
      assert fewer[..i] == es[..i];
      DeadlineLastsUntilAnswered(conf, fewer, i, req);
      RunInv(conf, fewer);
      assert fewer[..n] == fewer && es[..n + 1] == es;
      assert Holds(Start(conf).Steps(es[..n]), req) && Holds(Start(conf).Steps(es[..n + 1]), req);
      DeadlineStays(Start(conf).Steps(fewer), es[n], req);
    }
  }

  lemma {:induction false} StepsUnfold(s: State, es: seq<Event>)
    ensures |es| == 3 ==> s.Steps(es) == s.Step(es[0]).Step(es[1]).Step(es[2])
    ensures |es| == 4 ==> s.Steps(es) == s.Step(es[0]).Step(es[1]).Step(es[2]).Step(es[3])
    ensures |es| == 5 ==> s.Steps(es) == s.Step(es[0]).Step(es[1]).Step(es[2]).Step(es[3]).Step(es[4])
    ensures s.Steps(es[..0]) == s
    ensures |es| > 0 ==> s.Steps(es[..1]) == s.Step(es[0])
    ensures |es| > 1 ==> s.Steps(es[..2]) == s.Step(es[0]).Step(es[1])
    ensures |es| > 2 ==> s.Steps(es[..3]) == s.Step(es[0]).Step(es[1]).Step(es[2])
    ensures |es| > 3 ==> s.Steps(es[..4]) == s.Step(es[0]).Step(es[1]).Step(es[2]).Step(es[3])
  {
    hide State.Step;
    assert es[..|es|] == es;
    forall i | 0 <= i < |es| ensures s.Steps(es[..i + 1]) == s.Steps(es[..i]).Step(es[i]) {
      assert es[..i + 1][..i] == es[..i];
    }
  }

  // The path was made for a name that a regular expression matches, and nobody produces, reads or waits on it.
  predicate IsIdle(s: State) {
    s.conf.regexp && s.source == NoSource && s.readers == {} && s.describesOnHold == [] && s.readersOnHold == []
  }

  // A path that becomes idle tells its manager at once, and only an idle path does; only a reload can make a path idle
  // silently.
  lemma IdlePathsAreReported(s: State, e: Event)
    requires Inv(s) && s.Enabled(e) && Fits(s, e)
    ensures !IsIdle(s) && IsIdle(s.Step(e)) && !e.ReloadConf? ==> s.AsksClose(e)
    ensures s.AsksClose(e) <==>
              IsIdle(s.Step(e)) && !(e.PublisherCloseTimer? || e.ReloadConf? || e.SetReady? || e.RemoveReader?)
  {
    if e.SetReady? { SetReadyInv(s, e.subStreamOk); StepKeepsKind(s, e); }
  }
}
