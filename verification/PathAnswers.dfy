/** Which answer each request of a path gets, and who reads and feeds the path: in every step, and over every run. */
module PathAnswers {
  import opened PathState
  import opened PathSafety

  // The requests are answered alike, in order.
  predicate AreTold(told: seq<Reply>, reqs: seq<RequestId>, answer: Answer) {
    |told| == |reqs| && forall i :: 0 <= i < |reqs| ==> told[i] == Reply(reqs[i], answer)
  }

  predicate IsOnDemand(conf: Conf) {
    (conf.source == FromStatic && conf.sourceOnDemand) || conf.runOnDemand
  }

  // A reader that comes to this path, while others read it, is turned away.
  predicate IsTurnedAway(conf: Conf, readers: set<Client>, author: Client) {
    author !in readers && conf.maxReaders != 0 && |readers| >= conf.maxReaders
  }

  predicate IsRefused(s: State) {
    s.conf.source != FromPublisher || (s.source != NoSource && !s.conf.overridePublisher)
  }

  // Those who read after the first k of the held readers were answered.
  function Joined(readers: set<Client>, hs: seq<Held>, replies: seq<Reply>, k: nat): set<Client>
    requires k <= |hs| == |replies|
  {
    readers + set j | 0 <= j < k && replies[j].answer == GotStream :: hs[j].author
  }

  ghost predicate ReaderIsServed(conf: Conf, readers: set<Client>, hs: seq<Held>, replies: seq<Reply>, k: nat)
    requires k < |hs| == |replies|
  {
    var away := IsTurnedAway(conf, Joined(readers, hs, replies, k), hs[k].author);
    replies[k] == Reply(hs[k].req, if away then TooManyReaders else GotStream)
  }

  // Held readers are answered in order, each by who reads at that moment.
  ghost predicate ReadersServed(conf: Conf, readers: set<Client>, hs: seq<Held>, replies: seq<Reply>,
      after: set<Client>) {
    && |replies| == |hs| && after == Joined(readers, hs, replies, |hs|)
    && forall k :: 0 <= k < |hs| ==> ReaderIsServed(conf, readers, hs, replies, k)
  }

  // Every held describe gets the stream and every held reader is served; readers are those at that moment.
  ghost predicate Served(s: State, t: State, readers: set<Client>, own: seq<Reply>) {
    && t.describesOnHold == [] && t.readersOnHold == []
    && exists told, served ::
         && t.replies == s.replies + told + served + own
         && AreTold(told, s.describesOnHold, GotStream)
         && ReadersServed(s.conf, readers, s.readersOnHold, served, t.readers)
  }

  // Every held request gets this answer.
  ghost predicate AllTold(s: State, t: State, answer: Answer) {
    && t.describesOnHold == [] && t.readersOnHold == []
    && exists told, more ::
         && t.replies == s.replies + told + more
         && AreTold(told, s.describesOnHold, answer) && AreTold(more, HeldRequests(s.readersOnHold), answer)
  }

  predicate HoldsStay(s: State, t: State) {
    t.describesOnHold == s.describesOnHold && t.readersOnHold == s.readersOnHold
  }

  predicate OnlyAnswers(s: State, t: State, req: RequestId, answer: Answer) {
    HoldsStay(s, t) && t.replies == s.replies + [Reply(req, answer)]
  }

  // The readers that a path still has when a publisher has taken over.
  function ReadersKept(s: State): set<Client> {
    if s.source != NoSource && !s.conf.alwaysAvailable then {} else s.readers
  }

  // What a step answers, and whom it holds.
  ghost predicate AnswersAreRight(s: State, e: Event, t: State) {
    match e
    case StaticReadyTimer => AllTold(s, t, SourceTimedOut)
    case PublisherReadyTimer => AllTold(s, t, SourceTimedOut)
    case SetReady(ok) => if ok then Served(s, t, s.readers, []) else HoldsStay(s, t) && t.replies == s.replies
    case AddPublisher(req, _, ok) =>
      if IsRefused(s) then OnlyAnswers(s, t, req, Refused)
      else if !ok then OnlyAnswers(s, t, req, Failed)
      else Served(s, t, ReadersKept(s), [Reply(req, Accepted)])
    case Describe(req) =>
      if s.source == Redirect then OnlyAnswers(s, t, req, Redirected)
      else if s.stream then OnlyAnswers(s, t, req, GotStream)
      else if !IsOnDemand(s.conf) then OnlyAnswers(s, t, req, if s.conf.fallback then Redirected else NoStream)
      else t.replies == s.replies && t.readersOnHold == s.readersOnHold
           && t.describesOnHold == s.describesOnHold + [req]
    case AddReader(req, author) =>
      if s.stream then
        OnlyAnswers(s, t, req, if IsTurnedAway(s.conf, s.readers, author) then TooManyReaders else GotStream)
      else if !IsOnDemand(s.conf) then OnlyAnswers(s, t, req, NoStream)
      else t.replies == s.replies && t.describesOnHold == s.describesOnHold
           && t.readersOnHold == s.readersOnHold + [Held(req, author)]
    case _ => HoldsStay(s, t) && t.replies == s.replies
  }

  // ---- serving the held requests ----

  lemma ReplyAllTells(reqs: seq<RequestId>, answer: Answer)
    ensures AreTold(ReplyAll(reqs, answer), reqs, answer)
  {
  }

  lemma JoinedGrows(readers: set<Client>, hs: seq<Held>, replies: seq<Reply>, r: Reply, h: Held, k: nat)
    requires |hs| == |replies| && k <= |hs|
    ensures Joined(readers, hs + [h], replies + [r], k) == Joined(readers, hs, replies, k)
    ensures Joined(readers, hs + [h], replies + [r], |hs| + 1)
         == Joined(readers, hs, replies, |hs|) + (if r.answer == GotStream then {h.author} else {})
  {
    var more, all := hs + [h], replies + [r];
    assert all[|hs|] == r && more[|hs|] == h;
    assert forall j :: 0 <= j < |hs| ==> all[j] == replies[j] && more[j] == hs[j];
  }

  lemma ReaderServed(s: State, h: Held)
    ensures var t := s.AddReaderPost(h);
            var answer := if IsTurnedAway(s.conf, s.readers, h.author) then TooManyReaders else GotStream;
            && t.replies == s.replies + [Reply(h.req, answer)]
            && t.readers == s.readers + (if answer == GotStream then {h.author} else {})
            && HoldsStay(s, t) && t.source == s.source
  {
    hide State.CloseCancelled;
    assert s.readers + {} == s.readers;
    if h.author in s.readers {
      assert s.readers + {h.author} == s.readers;
    } else if !s.ReadersAreFull() {
      JoiningChangesNoMore(s.(readers := s.readers + {h.author}));
    }
  }

  lemma JoiningChangesNoMore(s: State)
    ensures var t := s.CloseCancelled();
            && t.replies == s.replies && t.readers == s.readers && t.conf == s.conf && t.source == s.source
            && HoldsStay(s, t)
  {
    hide OnDemand.ReaderJoined, Conf.HasOnDemandPublisher, Conf.HasOnDemandStaticSource;
  }

  // Readers are added one after the other.
  lemma {:induction false} ReadersAreServed(s: State, hs: seq<Held>) returns (served: seq<Reply>)
    ensures var t := s.AddReadersPost(hs);
            && t.replies == s.replies + served && ReadersServed(s.conf, s.readers, hs, served, t.readers)
            && HoldsStay(s, t) && t.source == s.source
  {
    if hs == [] {
      served := [];
    } else {
      var n := |hs| - 1;
      var before := ReadersAreServed(s, hs[..n]);
      hide State.AddReaderPost, ReadersServed, IsTurnedAway;
      var b := s.AddReadersPost(hs[..n]);
      ReaderServed(b, hs[n]);
      var t := s.AddReadersPost(hs);
      var r := t.replies[|b.replies|];
      served := before + [r];
      assert hs == hs[..n] + [hs[n]] && t.replies == s.replies + served;
      OneMoreServed(s.conf, s.readers, hs[..n], before, b.readers, hs[n], r, t.readers);
    }
  }

  lemma OneMoreServed(conf: Conf, readers: set<Client>, hs: seq<Held>, replies: seq<Reply>, now: set<Client>, h: Held,
      r: Reply, after: set<Client>)
    requires ReadersServed(conf, readers, hs, replies, now)
    requires r == Reply(h.req, if IsTurnedAway(conf, now, h.author) then TooManyReaders else GotStream)
    requires after == now + (if r.answer == GotStream then {h.author} else {})
    ensures ReadersServed(conf, readers, hs + [h], replies + [r], after)
  {
    hide Joined, IsTurnedAway;
    JoinedGrows(readers, hs, replies, r, h, |hs|);
    forall k | 0 <= k < |hs| + 1
      ensures ReaderIsServed(conf, readers, hs + [h], replies + [r], k)
    {
      if k < |hs| {
        JoinedGrows(readers, hs, replies, r, h, k);
        assert ReaderIsServed(conf, readers, hs, replies, k);
      }
    }
    hide ReaderIsServed;
  }

  // A path u that has just got a stream answers all that it held as s.
  lemma ConsumeServes(s: State, u: State, own: seq<Reply>)
    requires u.replies == s.replies && u.conf == s.conf && HoldsStay(s, u)
    ensures var t := u.ConsumeOnHold();
            Served(s, t.(replies := t.replies + own), u.readers, own) && t.source == u.source
  {
    hide State.AddReaderPost, ReadersServed, ReplyAll, AreTold;
    var told := ReplyAll(s.describesOnHold, GotStream);
    ReplyAllTells(s.describesOnHold, GotStream);
    var d := u.(replies := u.replies + told, describesOnHold := []);
    var served := ReadersAreServed(d, u.readersOnHold);
    var t := u.ConsumeOnHold();
    assert t.replies + own == s.replies + told + served + own;
  }

  lemma DrainTells(s: State, t: State, answer: Answer)
    requires t.replies == s.replies + ReplyAll(s.describesOnHold, answer)
        + ReplyAll(HeldRequests(s.readersOnHold), answer)
    requires t.describesOnHold == [] && t.readersOnHold == []
    ensures AllTold(s, t, answer)
  {
    hide AreTold, ReplyAll, HeldRequests;
    ReplyAllTells(s.describesOnHold, answer);
    ReplyAllTells(HeldRequests(s.readersOnHold), answer);
  }

  // ---- every step ----

  // In any state whatever, a step answers and holds as it should.
  lemma StepAnswers(s: State, e: Event)
    ensures AnswersAreRight(s, e, s.Step(e))
  {
    hide State.DoSetReady, State.DoAddPublisher, State.DoAddReader, State.DoDescribe, Served, AllTold;
    match e
    case SetReady(ok) => SetReadyAnswers(s, ok);
    case AddPublisher(req, author, ok) => AddPublisherAnswers(s, req, author, ok);
    case Describe(req) => DescribeAnswers(s, req);
    case AddReader(req, author) => AddReaderAnswers(s, req, author);
    case StaticReadyTimer => DrainTells(s, s.Step(e), SourceTimedOut);
    case PublisherReadyTimer => DrainTells(s, s.Step(e), SourceTimedOut);
    case StaticCloseTimer => StaticSideIsQuiet(s);
    case SetNotReady => StaticSideIsQuiet(s);
    case _ => PublisherSideIsQuiet(s, e);
  }

  lemma SetReadyAnswers(s: State, ok: bool)
    ensures AnswersAreRight(s, SetReady(ok), s.DoSetReady(ok))
  {
    hide State.ConsumeOnHold, Served;
    if ok {
      var u := s.StaticArrived().(sourceAccepted := true);
      ConsumeServes(s, u, []);
      var t := u.ConsumeOnHold();
      assert t.(replies := t.replies + []) == t;
    }
  }

  lemma AddPublisherAnswers(s: State, req: RequestId, author: Client, ok: bool)
    ensures AnswersAreRight(s, AddPublisher(req, author, ok), s.DoAddPublisher(req, author, ok))
    ensures s.DoAddPublisher(req, author, ok).source ==
              if IsRefused(s) then s.source else if ok then Publisher(author) else NoSource
  {
    hide State.ConsumeOnHold, Served;
    if !IsRefused(s) {
      var r := s.Receive(req).MakeRoom();
      RoomIs(s, req);
      if ok { ConsumeServes(s, r.Admit(author), [Reply(req, Accepted)]); }
    }
  }

  lemma RoomIs(s: State, req: RequestId)
    ensures var r := s.Receive(req).MakeRoom();
            && r.replies == s.replies && r.conf == s.conf && HoldsStay(s, r)
            && r.readers == ReadersKept(s) && r.source == NoSource
  {
  }

  lemma DescribeAnswers(s: State, req: RequestId)
    ensures AnswersAreRight(s, Describe(req), s.DoDescribe(req))
  {
    if s.source != Redirect && !s.stream && IsOnDemand(s.conf) {
      DescribeHolds(s, req);
      hide State.DoDescribe, Served, AllTold, IsRefused;
    } else {
      hide State.Demand, IsOnDemand, State.OnDemandConf, Served, AllTold, IsTurnedAway, IsRefused, ReadersKept;
      OnDemandMeans(s);
    }
  }

  lemma DescribeHolds(s: State, req: RequestId)
    requires s.source != Redirect && !s.stream && IsOnDemand(s.conf)
    ensures var t := s.DoDescribe(req);
            && t.replies == s.replies && t.readersOnHold == s.readersOnHold
            && t.describesOnHold == s.describesOnHold + [req]
  {
    hide State.Demand, IsOnDemand, State.OnDemandConf;
    OnDemandMeans(s);
    DemandAnswersNobody(s.Receive(req));
  }

  lemma OnDemandMeans(s: State)
    ensures s.OnDemandConf() == IsOnDemand(s.conf)
  {
  }

  lemma AddReaderAnswers(s: State, req: RequestId, author: Client)
    ensures AnswersAreRight(s, AddReader(req, author), s.DoAddReader(req, author))
  {
    hide State.AddReaderPost, IsTurnedAway, State.Demand, IsOnDemand, State.OnDemandConf;
    OnDemandMeans(s);
    if s.stream {
      ReaderServed(s.Receive(req), Held(req, author));
    } else {
      DemandAnswersNobody(s.Receive(req));
    }
  }

  lemma DemandAnswersNobody(s: State)
    ensures var t := s.Demand();
            && t.replies == s.replies && t.readers == s.readers && t.source == s.source && t.conf == s.conf
            && HoldsStay(s, t)
  {
  }

  // Whoever is still waiting when run ends is told that the path is terminating, and no one else is told anything.
  lemma TeardownAnswers(s: State)
    ensures AllTold(s, s.Teardown(), Terminated)
  {
    DrainTells(s, s.Teardown(), Terminated);
  }

  // ---- who reads, who feeds, and the configuration ----

  // The readers after a step that does not serve held requests: nobody joins or leaves unasked, except that all leave
  // when the stream ends.
  function ReadersAfter(s: State, e: Event): set<Client>
    requires !(e.SetReady? && e.subStreamOk) && !(e.AddPublisher? && e.subStreamOk && !IsRefused(s))
  {
    match e
    case AddReader(_, author) =>
      if s.stream && !IsTurnedAway(s.conf, s.readers, author) then s.readers + {author} else s.readers
    case RemoveReader(author) => s.readers - {author}
    case AddPublisher(_, _, _) => if IsRefused(s) then s.readers else ReadersKept(s)
    case RemovePublisher(author) =>
      if s.source == Publisher(author) && !s.conf.alwaysAvailable then {} else s.readers
    case StaticCloseTimer => {}
    case SetNotReady => if s.conf.alwaysAvailable then s.readers else {}
    case _ => s.readers
  }

  // Only an admitted publisher becomes the source, and only the current publisher leaves.
  function SourceAfter(s: State, e: Event): Source {
    match e
    case AddPublisher(_, author, ok) => if IsRefused(s) then s.source else if ok then Publisher(author) else NoSource
    case RemovePublisher(author) => if s.source == Publisher(author) then NoSource else s.source
    case _ => s.source
  }

  lemma StepChangesWho(s: State, e: Event)
    ensures s.Step(e).source == SourceAfter(s, e)
    ensures s.Step(e).conf == if e.ReloadConf? then e.newConf else s.conf
    ensures !(e.SetReady? && e.subStreamOk) && !(e.AddPublisher? && e.subStreamOk && !IsRefused(s)) ==>
              s.Step(e).readers == ReadersAfter(s, e)
  {
    hide State.ConsumeOnHold, State.AddReaderPost, State.DoAddPublisher, State.Demand, IsTurnedAway;
    match e
    case SetReady(ok) => if ok { ConsumeServes(s, s.StaticArrived().(sourceAccepted := true), []); }
    case AddPublisher(req, author, ok) => PublisherChangesWho(s, req, author, ok);
    case AddReader(req, author) =>
      ReaderServed(s.Receive(req), Held(req, author));
      DemandAnswersNobody(s.Receive(req));
    case Describe(req) => DemandAnswersNobody(s.Receive(req));
    case _ => QuietStepChangesWho(s, e);
  }

  lemma QuietStepChangesWho(s: State, e: Event)
    requires !e.SetReady? && !e.AddPublisher? && !e.AddReader? && !e.Describe?
    ensures s.Step(e).source == SourceAfter(s, e) && s.Step(e).readers == ReadersAfter(s, e)
    ensures s.Step(e).conf == if e.ReloadConf? then e.newConf else s.conf
  {
    if e.RemovePublisher? || e.RemoveReader? || e.ReloadConf? {
      RemovalChangesWho(s, e);
    } else {
      SourceChangesWho(s, e);
    }
    hide State.Step;
  }

  lemma RemovalChangesWho(s: State, e: Event)
    requires e.RemovePublisher? || e.RemoveReader? || e.ReloadConf?
    ensures s.Step(e).source == SourceAfter(s, e) && s.Step(e).readers == ReadersAfter(s, e)
    ensures s.Step(e).conf == if e.ReloadConf? then e.newConf else s.conf
  {
    hide OnDemand.LastReaderLeft;
  }

  lemma SourceChangesWho(s: State, e: Event)
    requires e.StaticReadyTimer? || e.StaticCloseTimer? || e.PublisherReadyTimer? || e.PublisherCloseTimer?
          || e.SetNotReady?
    ensures s.Step(e).source == SourceAfter(s, e) && s.Step(e).readers == ReadersAfter(s, e) && s.Step(e).conf == s.conf
  {
    hide OnDemand.Stopped, State.DrainHolds;
    DrainChangesNobody(s.(staticSource := s.staticSource.(readyTimer := false)));
    DrainChangesNobody(s.(publisher := s.publisher.(readyTimer := false)));
  }

  lemma DrainChangesNobody(s: State)
    ensures var t := s.DrainHolds(SourceTimedOut); t.readers == s.readers && t.source == s.source && t.conf == s.conf
  {
  }

  lemma PublisherChangesWho(s: State, req: RequestId, author: Client, ok: bool)
    ensures var t := s.DoAddPublisher(req, author, ok);
            && t.source == SourceAfter(s, AddPublisher(req, author, ok)) && t.conf == s.conf
            && (IsRefused(s) || !ok ==> t.readers == ReadersAfter(s, AddPublisher(req, author, ok)))
  {
    AddPublisherAnswers(s, req, author, ok);
    RoomIs(s, req);
    hide State.ConsumeOnHold, State.MakeRoom;
  }

  // When nobody reads an on-demand path that was in use, its close is scheduled, even if the reader that says it leaves
  // was gone already; nothing else of the machines changes.
  lemma LastReaderSchedulesClose(s: State, author: Client)
    requires s.conf.Valid()
    ensures var t := s.Step(RemoveReader(author));
            var empty := s.readers <= {author};
            && t.staticSource == (if empty && s.conf.HasOnDemandStaticSource() && s.staticSource.phase == Ready
                                  then OnDemand(Closing, s.staticSource.readyTimer, true) else s.staticSource)
            && t.publisher == (if empty && s.conf.runOnDemand && s.publisher.phase == Ready
                               then OnDemand(Closing, s.publisher.readyTimer, true) else s.publisher)
            && t == s.(readers := t.readers, staticSource := t.staticSource, publisher := t.publisher)
  {
    assert s.readers <= {author} <==> s.readers - {author} == {};
  }

  // ---- panics ----

  // Withdrawing the stream calls the not-ready hook, and needs a stream if the path is always available.
  predicate CannotWithdraw(s: State) {
    if s.conf.alwaysAvailable then !s.stream else s.hooks.ready == 0
  }

  // The panics of the source, each with what leads to it.
  predicate Panics(s: State, e: Event) {
    match e
    case StaticReadyTimer => !s.handlerRunning
    case StaticCloseTimer => s.conf.alwaysAvailable || s.hooks.ready == 0 || !s.handlerRunning
    case PublisherReadyTimer => !s.unDemandHook
    case PublisherCloseTimer => !s.unDemandHook
    case ReloadConf(c) => c.source == FromStatic && s.source != StaticHandler
    case SetReady(_) => false
    case SetNotReady =>
      CannotWithdraw(s) || (s.conf.HasOnDemandStaticSource() && s.staticSource.phase != Initial && !s.handlerRunning)
    case Describe(_) =>
      s.source != Redirect && !s.stream && s.conf.HasOnDemandStaticSource()
      && s.staticSource.phase == Initial && s.handlerRunning
    case AddReader(_, _) =>
      !s.stream && s.conf.HasOnDemandStaticSource() && s.staticSource.phase == Initial && s.handlerRunning
    case AddPublisher(_, _, _) => !IsRefused(s) && s.source != NoSource && (!s.source.Publisher? || CannotWithdraw(s))
    case RemovePublisher(author) => s.source == Publisher(author) && CannotWithdraw(s)
    case RemoveReader(_) => false
  }

  lemma {:induction false} AddReadersNeverPanic(s: State, hs: seq<Held>)
    ensures s.AddReadersPost(hs).crashed == s.crashed
  {
    hide State.AddReaderPost;
    if hs != [] {
      AddReadersNeverPanic(s, hs[..|hs| - 1]);
      AddReaderNeverPanics(s.AddReadersPost(hs[..|hs| - 1]), hs[|hs| - 1]);
    }
  }

  lemma AddReaderNeverPanics(s: State, h: Held)
    ensures s.AddReaderPost(h).crashed == s.crashed
  {
    hide OnDemand.ReaderJoined;
  }

  lemma ConsumeNeverPanics(s: State)
    ensures s.ConsumeOnHold().crashed == s.crashed
  {
    AddReadersNeverPanic(s.(replies := s.replies + ReplyAll(s.describesOnHold, GotStream), describesOnHold := []),
                         s.readersOnHold);
    hide State.AddReadersPost;
  }

  // A step panics exactly then.
  lemma StepPanicsExactly(s: State, e: Event)
    ensures s.Step(e).crashed <==> s.crashed || Panics(s, e)
  {
    match e
    case AddPublisher(req, author, ok) =>
      AddPublisherPanicsExactly(s, req, author, ok);
      hide *;
    case AddReader(req, author) =>
      AddReaderPanicsExactly(s, req, author);
      hide *;
    case SetReady(ok) =>
      ConsumeNeverPanics(s.StaticArrived().(sourceAccepted := true));
      hide State.ConsumeOnHold;
    case SetNotReady =>
      SetNotReadyPanicsExactly(s);
      hide *;
    case Describe(req) =>
      DescribePanicsExactly(s, req);
      hide *;
    case RemovePublisher(author) =>
      RemovePublisherPanicsExactly(s, author);
      hide *;
    case _ =>
      TimerPanicsExactly(s, e);
      hide *;
  }

  lemma TimerPanicsExactly(s: State, e: Event)
    requires e.StaticReadyTimer? || e.StaticCloseTimer? || e.PublisherReadyTimer? || e.PublisherCloseTimer?
          || e.ReloadConf? || e.RemoveReader?
    ensures s.Step(e).crashed <==> s.crashed || Panics(s, e)
  {
    hide State.DoSetReady, State.DoAddPublisher, State.DoAddReader, State.DoSetNotReady, State.DoDescribe,
         State.DoRemovePublisher;
  }

  lemma RemovePublisherPanicsExactly(s: State, author: Client)
    ensures s.DoRemovePublisher(author).crashed <==> s.crashed || Panics(s, RemovePublisher(author))
  {
  }

  lemma SetNotReadyPanicsExactly(s: State)
    ensures s.DoSetNotReady().crashed <==> s.crashed || Panics(s, SetNotReady)
  {
  }

  lemma DescribePanicsExactly(s: State, req: RequestId)
    ensures s.DoDescribe(req).crashed <==> s.crashed || Panics(s, Describe(req))
  {
  }

  lemma MakeRoomPanicsExactly(s: State, author: Client)
    ensures s.MakeRoom().crashed <==> s.crashed || (s.source != NoSource && (!s.source.Publisher? || CannotWithdraw(s)))
    ensures s.Admit(author).crashed == s.crashed
  {
  }

  lemma AddPublisherPanicsExactly(s: State, req: RequestId, author: Client, ok: bool)
    ensures s.DoAddPublisher(req, author, ok).crashed <==> s.crashed || Panics(s, AddPublisher(req, author, ok))
  {
    MakeRoomPanicsExactly(s.Receive(req), author);
    MakeRoomPanicsExactly(s.Receive(req).MakeRoom(), author);
    hide State.ConsumeOnHold, State.MakeRoom, State.Admit;
    ConsumeNeverPanics(s.Receive(req).MakeRoom().Admit(author));
  }

  lemma AddReaderPanicsExactly(s: State, req: RequestId, author: Client)
    ensures s.DoAddReader(req, author).crashed <==> s.crashed || Panics(s, AddReader(req, author))
  {
    AddReadersNeverPanic(s.Receive(req), [Held(req, author)]);
    hide OnDemand.ReaderJoined, State.ReadersAreFull;
  }

  // ---- every run ----

  // Why a request can get such an answer in a step.
  ghost predicate HasReason(s: State, e: Event, r: Reply) {
    var arrived := (e.SetReady? && e.subStreamOk) || (e.AddPublisher? && e.subStreamOk && !IsRefused(s));
    match r.answer
    case GotStream =>
      || (arrived && Holds(s, r.req))
      || (s.stream && (e == Describe(r.req) || (e.AddReader? && e.req == r.req)))
    case TooManyReaders =>
      && s.conf.maxReaders != 0
      && ((arrived && r.req in HeldRequests(s.readersOnHold))
          || (e.AddReader? && e.req == r.req && s.stream && IsTurnedAway(s.conf, s.readers, e.author)))
    case SourceTimedOut => (e == StaticReadyTimer || e == PublisherReadyTimer) && Holds(s, r.req)
    case NoStream =>
      && (e == Describe(r.req) || (e.AddReader? && e.req == r.req))
      && !s.stream && !IsOnDemand(s.conf) && (e.Describe? ==> !s.conf.fallback && s.source != Redirect)
    case Redirected =>
      e == Describe(r.req) && (s.source == Redirect || (!s.stream && !IsOnDemand(s.conf) && s.conf.fallback))
    case Refused => e.AddPublisher? && e.req == r.req && IsRefused(s)
    case Failed => e.AddPublisher? && e.req == r.req && !IsRefused(s) && !e.subStreamOk
    case Accepted => e.AddPublisher? && e.req == r.req && !IsRefused(s) && e.subStreamOk
    case Terminated => false
  }

  lemma ServedHasReason(s: State, e: Event, t: State, readers: set<Client>, own: seq<Reply>, i: nat)
    requires Served(s, t, readers, own) && |s.replies| <= i < |t.replies|
    requires (e.SetReady? && e.subStreamOk && own == [])
          || (e.AddPublisher? && e.subStreamOk && !IsRefused(s) && own == [Reply(e.req, Accepted)])
    ensures s.replies <= t.replies && HasReason(s, e, t.replies[i])
  {
    hide IsRefused, Joined;
    var told, served :| && t.replies == s.replies + told + served + own
                        && AreTold(told, s.describesOnHold, GotStream)
                        && ReadersServed(s.conf, readers, s.readersOnHold, served, t.readers);
    var j := i - |s.replies|;
    if j < |told| {
      assert t.replies[i] == told[j];
    } else if j < |told| + |served| {
      var k := j - |told|;
      assert t.replies[i] == served[k] && ReaderIsServed(s.conf, readers, s.readersOnHold, served, k);
      assert HeldRequests(s.readersOnHold)[k] == s.readersOnHold[k].req;
    } else {
      assert t.replies[i] == own[j - |told| - |served|];
    }
  }

  lemma AllToldHasReason(s: State, t: State, answer: Answer, i: nat)
    requires AllTold(s, t, answer) && |s.replies| <= i < |t.replies|
    ensures s.replies <= t.replies && Holds(s, t.replies[i].req) && t.replies[i].answer == answer
  {
    var told, more :| && t.replies == s.replies + told + more
                      && AreTold(told, s.describesOnHold, answer)
                      && AreTold(more, HeldRequests(s.readersOnHold), answer);
    var j := i - |s.replies|;
    if j < |told| { assert t.replies[i] == told[j]; } else { assert t.replies[i] == more[j - |told|]; }
  }

  lemma StepHasReason(s: State, e: Event, i: nat)
    requires |s.replies| <= i < |s.Step(e).replies|
    ensures s.replies <= s.Step(e).replies && HasReason(s, e, s.Step(e).replies[i])
  {
    hide State.Step, Served, AllTold, IsRefused;
    StepAnswers(s, e);
    var t := s.Step(e);
    if e.SetReady? && e.subStreamOk {
      ServedHasReason(s, e, t, s.readers, [], i);
    } else if e.AddPublisher? && e.subStreamOk && !IsRefused(s) {
      ServedHasReason(s, e, t, ReadersKept(s), [Reply(e.req, Accepted)], i);
    } else if e == StaticReadyTimer || e == PublisherReadyTimer {
      AllToldHasReason(s, t, SourceTimedOut, i);
    }
  }

  lemma RepliesAreKept(s: State, e: Event)
    ensures s.replies <= s.Step(e).replies
  {
    hide State.Step;
    StepAnswers(s, e);
  }

  // Over any run, every answer was given by an event that is a reason for it.
  lemma {:induction false} EveryAnswerHasItsReason(conf: Conf, es: seq<Event>, i: nat)
    requires i < |Start(conf).Steps(es).replies|
    ensures exists j :: 0 <= j < |es| && HasReason(Start(conf).Steps(es[..j]), es[j], Start(conf).Steps(es).replies[i])
  {
    hide State.Step, HasReason;
    var n := |es| - 1;
    var b := Start(conf).Steps(es[..n]);
    RepliesAreKept(b, es[n]);
    if i < |b.replies| {
      EveryAnswerHasItsReason(conf, es[..n], i);
      var j :| 0 <= j < n && HasReason(Start(conf).Steps(es[..n][..j]), es[..n][j], b.replies[i]);
      assert es[..n][..j] == es[..j];
    } else {
      StepHasReason(b, es[n], i);
    }
  }
}
