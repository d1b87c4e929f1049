/** What reading one recorded file hands to the muxer: recorded samples, in order, nearly at their times. */
module ReplayParts {
  import opened Wrappers
  import opened Arith
  import P = Playback
  import opened SegmentFile
  import opened Replay
  import R = RecorderState
  import S = RecorderSafety
  import T = RecorderTimes

  // How the times of a track are shown: the recording's time zero is at offset.
  datatype Clock = Clock(zero: int, offset: int, rate: int)

  // x is the recorded sample y, less than 3 ticks before its time and less than 1 after.
  predicate IsSampleOf(x: P.Sample, y: R.Sample, c: Clock) {
    && x.payload == y.payload && x.ptsOffset == y.ptsOffset && x.isNonSync == y.isNonSync
    && -3 * SECOND < TimeError(x.dts, y.dts, c.zero, c.offset, c.rate) < SECOND
  }

  // The k-th sample handed over is the recorded one at picked[k].
  ghost predicate Picks(fed: seq<P.Sample>, rec: seq<R.Sample>, picked: seq<nat>, c: Clock) {
    && |picked| == |fed|
    && (forall j, k :: 0 <= j < k < |picked| ==> picked[j] < picked[k])
    && (forall k :: 0 <= k < |picked| ==> picked[k] < |rec| && IsSampleOf(fed[k], rec[picked[k]], c))
  }

  ghost predicate IsReplayOf(fed: seq<P.Sample>, rec: seq<R.Sample>, c: Clock) {
    exists picked :: Picks(fed, rec, picked, c)
  }

  lemma ReplayAppend(fed: seq<P.Sample>, rec: seq<R.Sample>, more: seq<P.Sample>, moreRec: seq<R.Sample>, c: Clock)
    requires IsReplayOf(fed, rec, c) && IsReplayOf(more, moreRec, c)
    ensures IsReplayOf(fed + more, rec + moreRec, c)
  {
    hide IsSampleOf;
    var a :| Picks(fed, rec, a, c);
    var b :| Picks(more, moreRec, b, c);
    var all := a + seq(|b|, k requires 0 <= k < |b| => |rec| + b[k]);
    assert Picks(fed + more, rec + moreRec, all, c);
  }

  lemma NothingIsAReplay(rec: seq<R.Sample>, c: Clock)
    ensures IsReplayOf([], rec, c)
  {
    assert Picks([], rec, [], c);
  }

  lemma {:induction false} PicksAtLeast(fed: seq<P.Sample>, rec: seq<R.Sample>, picked: seq<nat>, c: Clock, k: nat)
    requires Picks(fed, rec, picked, c) && k < |picked|
    ensures picked[k] >= k
  {
    hide IsSampleOf;
    if k > 0 {
      PicksAtLeast(fed, rec, picked, c, k - 1);
    }
  }

  lemma {:induction false} PicksAtMost(fed: seq<P.Sample>, rec: seq<R.Sample>, picked: seq<nat>, c: Clock, k: nat)
    requires Picks(fed, rec, picked, c) && k < |picked|
    ensures picked[k] + |picked| <= |rec| + k
    decreases |picked| - k
  {
    hide IsSampleOf;
    if k + 1 < |picked| {
      PicksAtMost(fed, rec, picked, c, k + 1);
    }
  }

  // A replay with as many samples as the recording has each of them in its place.
  lemma WholeReplay(fed: seq<P.Sample>, rec: seq<R.Sample>, c: Clock)
    requires IsReplayOf(fed, rec, c) && |fed| == |rec|
    ensures forall k :: 0 <= k < |fed| ==> IsSampleOf(fed[k], rec[k], c)
  {
    var picked :| Picks(fed, rec, picked, c);
    forall k | 0 <= k < |fed| ensures IsSampleOf(fed[k], rec[k], c) {
      PicksAtLeast(fed, rec, picked, c, k);
      PicksAtMost(fed, rec, picked, c, k);
    }
  }

  // What the muxer was given for the track between the two is a replay of rec, and a whole one if all says so.
  ghost predicate Plays(before: P.History, after: P.History, u: nat, rec: seq<R.Sample>, all: bool, c: Clock) {
    var a, b := P.Fed(before, u), P.Fed(after, u);
    && |a| <= |b| && b[..|a|] == a && IsReplayOf(b[|a|..], rec, c)
    && (all ==> |b| == |a| + |rec|)
  }

  lemma PlaysThen(h: P.History, mid: P.History, end: P.History, u: nat, x: seq<R.Sample>, y: seq<R.Sample>,
      all: bool, c: Clock)
    requires Plays(h, mid, u, x, all, c) && Plays(mid, end, u, y, all, c)
    ensures Plays(h, end, u, x + y, all, c)
  {
    hide IsReplayOf, P.Fed;
    var a, m, b := P.Fed(h, u), P.Fed(mid, u), P.Fed(end, u);
    ReplayAppend(m[|a|..], x, b[|m|..], y, c);
    assert b[..|a|] == m[..|a|];
    assert b[|a|..] == m[|a|..] + b[|m|..];
  }

  // The same calls for the track, and nothing of rec.
  lemma PlaysNothing(h: P.History, end: P.History, u: nat, rec: seq<R.Sample>, all: bool, c: Clock)
    requires P.Fed(h, u) == P.Fed(end, u) && (all ==> rec == [])
    ensures Plays(h, end, u, rec, all, c)
  {
    NothingIsAReplay(rec, c);
    assert P.Fed(h, u)[|P.Fed(h, u)|..] == [];
  }

  // ---- one fragment ----

  ghost predicate FragmentFits(f: R.Fragment, start: int, rate: int) {
    && 0 < rate <= SECOND && S.FragmentOk(f, start, rate) && S.Linked(f.samples) && T.TimesFit(f.samples)
  }

  // The request is for a file that starts at start, and c is the clock of the track u in it.
  predicate ClockOk(q: Request, start: int, u: nat, c: Clock) {
    u < |q.tracks| && c.rate == q.tracks[u].timeScale && q.startDTS == start - c.zero + c.offset
  }

  function HandedSample(dts: int, entries: seq<P.Stored>, k: nat): P.Sample
    requires k < |entries|
  {
    P.Sample(Handed(dts, entries, k), entries[k].ptsOffset, entries[k].isNonSync, entries[k].payload)
  }

  function HandedSamples(dts: int, entries: seq<P.Stored>, n: nat): (r: seq<P.Sample>)
    requires n <= |entries|
    ensures |r| == n
  {
    seq(n, k requires 0 <= k < n => HandedSample(dts, entries, k))
  }

  lemma {:induction false} HandOverFeeds(h: P.History, t: nat, dts: int, entries: seq<P.Stored>, n: nat, u: nat)
    requires n <= |entries|
    ensures P.Fed(HandOver(h, t, dts, entries, n), u)
         == P.Fed(h, u) + (if u == t then HandedSamples(dts, entries, n) else [])
  {
    hide Handed;
    if n > 0 {
      HandOverFeeds(h, t, dts, entries, n - 1, u);
      assert HandedSamples(dts, entries, n)
          == HandedSamples(dts, entries, n - 1) + [HandedSample(dts, entries, n - 1)];
    }
  }

  lemma HandedIsReplay(f: R.Fragment, start: int, n: nat, c: Clock)
    requires FragmentFits(f, start, c.rate) && n <= |f.samples|
    ensures var dts := f.baseTime + ToTicks(start - c.zero + c.offset, c.rate);
            IsReplayOf(HandedSamples(dts, Entries(f.samples), n), f.samples, c)
  {
    hide Handed, ToTicks, TimeError, S.FragmentOk, S.Linked, T.TimesFit;
    var es := Entries(f.samples);
    var fed := HandedSamples(f.baseTime + ToTicks(start - c.zero + c.offset, c.rate), es, n);
    forall k | 0 <= k < n ensures IsSampleOf(fed[k], f.samples[k], c) {
      ReplayError(f, start, c.rate, k, c.zero, c.offset);
    }
    hide IsSampleOf;
    assert Picks(fed, f.samples, seq(n, k => k), c);
  }

  lemma HandOverPlays(h: P.History, end: P.History, f: R.Fragment, start: int, t: nat, rate: int, n: nat, u: nat,
      all: bool, c: Clock)
    requires FragmentFits(f, start, rate) && n <= |f.samples| && (u == t ==> c.rate == rate)
    requires all ==> n == |f.samples|
    requires var dts := f.baseTime + ToTicks(start - c.zero + c.offset, rate);
             P.Fed(end, u) == P.Fed(HandOver(h, t, dts, Entries(f.samples), n), u)
    ensures Plays(h, end, u, if u == t then f.samples else [], all, c)
  {
    hide IsReplayOf, HandOver, HandedSamples, FragmentFits, ToTicks;
    var dts := f.baseTime + ToTicks(start - c.zero + c.offset, rate);
    HandOverFeeds(h, t, dts, Entries(f.samples), n, u);
    if u == t {
      HandedIsReplay(f, start, n, c);
    } else {
      NothingIsAReplay([], c);
    }
  }

  // Reading on from where the reader is.
  function Continue(q: Request, r: Result, more: seq<Box>): (s: Result)
    requires TimeScalesOk(q.tracks) && (r.Reading? ==> ReaderOk(q, r.r))
    ensures s.Reading? ==> ReaderOk(q, s.r)
    ensures !r.Reading? ==> s == r
    decreases |more|
  {
    if more == [] then r
    else
      var n := |more| - 1;
      var s := Continue(q, r, more[..n]);
      if s.Reading? then ReadBox(q, s.r, more[n]) else s
  }

  lemma {:induction false} ReadAppend(q: Request, boxes: seq<Box>, more: seq<Box>, calls: P.History)
    requires TimeScalesOk(q.tracks)
    ensures Read(q, boxes + more, calls) == Continue(q, Read(q, boxes, calls), more)
    decreases |more|
  {
    if more == [] {
      assert boxes + more == boxes;
    } else {
      var n := |more| - 1;
      ReadAppend(q, boxes, more[..n], calls);
      assert (boxes + more)[..|boxes| + n] == boxes + more[..n];
    }
  }

  lemma ContinueNext(q: Request, r: Result, boxes: seq<Box>, b: Box)
    requires TimeScalesOk(q.tracks) && (r.Reading? ==> ReaderOk(q, r.r))
    ensures var s := Continue(q, r, boxes);
            Continue(q, r, boxes + [b]) == if s.Reading? then ReadBox(q, s.r, b) else s
  {
    assert (boxes + [b])[..|boxes|] == boxes;
  }

  lemma ContinueFour(q: Request, r: Reader, id: int, baseTime: int, entries: seq<P.Stored>)
    requires TimeScalesOk(q.tracks) && ReaderOk(q, r)
    ensures var heads := r.(tfhd := Some(id));
            var timed := ReadBox(q, heads, Tfdt(baseTime));
            Continue(q, Reading(r), [Traf, Tfhd(id), Tfdt(baseTime), Trun(entries)])
              == if timed.Reading? then ReadBox(q, timed.r, Trun(entries)) else timed
  {
    ContinueNext(q, Reading(r), [], Traf);
    ContinueNext(q, Reading(r), [Traf], Tfhd(id));
    ContinueNext(q, Reading(r), [Traf, Tfhd(id)], Tfdt(baseTime));
    ContinueNext(q, Reading(r), [Traf, Tfhd(id), Tfdt(baseTime)], Trun(entries));
    assert Continue(q, Reading(r), []) == Reading(r);
    assert [] + [Traf] == [Traf] && [Traf] + [Tfhd(id)] == [Traf, Tfhd(id)];
    assert [Traf, Tfhd(id)] + [Tfdt(baseTime)] == [Traf, Tfhd(id), Tfdt(baseTime)];
    assert [Traf, Tfhd(id), Tfdt(baseTime)] + [Trun(entries)] == [Traf, Tfhd(id), Tfdt(baseTime), Trun(entries)];
    hide Continue, ToTicks, ReadTrun, TimeScalesOk, FindTrack;
  }

  function RatesOf(tracks: seq<InitTrack>): (r: seq<int>)
    ensures |r| == |tracks|
  {
    seq(|tracks|, t requires 0 <= t < |tracks| => tracks[t].timeScale)
  }

  predicate TracksOk(tracks: seq<InitTrack>) {
    HeaderOf(tracks, RatesOf(tracks)) && TimeScalesOk(tracks)
  }

  lemma TrackFound(tracks: seq<InitTrack>, t: nat)
    requires TracksOk(tracks) && t < |tracks|
    ensures FindTrack(tracks, tracks[t].id) == Some(t)
  {
    hide FindTrack;
    var r := FindTrack(tracks, tracks[t].id);
    assert r.Some? && tracks[r.value].id == tracks[t].id;
  }

  predicate IsDueBefore(f: R.Fragment, k: nat, startTicks: int, end: int) {
    k < |f.samples| && Handed(f.baseTime + startTicks, Entries(f.samples), k) < end
  }

  // Every sample of the fragment is due before the end of the request.
  ghost predicate Covers(q: Request, f: R.Fragment, rate: int) {
    forall k :: 0 <= k < |f.samples| ==> IsDueBefore(f, k, ToTicks(q.startDTS, rate), ToTicks(q.duration, rate))
  }

  function CutOf(q: Request, f: R.Fragment, rate: int): (n: nat)
    ensures n <= |f.samples|
  {
    Cut(f.baseTime + ToTicks(q.startDTS, rate), ToTicks(q.duration, rate), Entries(f.samples), 0)
  }

  lemma CutsNothing(q: Request, f: R.Fragment, rate: int)
    requires Covers(q, f, rate)
    ensures CutOf(q, f, rate) == |f.samples|
  {
    hide ToTicks, Handed;
    var start, end := ToTicks(q.startDTS, rate), ToTicks(q.duration, rate);
    var n := CutOf(q, f, rate);
    assert n < |f.samples| ==> IsDueBefore(f, n, start, end);
  }

  // Reading goes on, and no sample was left out so far.
  predicate Whole(r: Result) {
    r.Reading? && !r.r.breakAtNextMdat
  }

  lemma TrunSteps(q: Request, r: Reader, t: nat, f: R.Fragment)
    requires TimeScalesOk(q.tracks) && r.track == t < |q.tracks| && r.tfdt == Some(f.baseTime)
    requires r.startDTSMP4 == ToTicks(q.startDTS, q.tracks[t].timeScale)
    requires r.durationMP4 == ToTicks(q.duration, q.tracks[t].timeScale)
    ensures var s, n := ReadTrun(q, r, Entries(f.samples)), CutOf(q, f, q.tracks[t].timeScale);
            var dts, es := f.baseTime + ToTicks(q.startDTS, q.tracks[t].timeScale), Entries(f.samples);
            && s.breakAtNextMdat == (r.breakAtNextMdat || n < |f.samples|)
            && s.calls == P.Then(HandOver(r.calls, t, dts, es, n), P.Op.Final(t, Handed(dts, es, n)))
  {
    hide ToTicks, ToDuration, Handed, HandOver, Cut, TimeScalesOk;
  }

  lemma FragmentSteps(q: Request, r: Reader, t: nat, f: R.Fragment)
    requires TracksOk(q.tracks) && t < |q.tracks| && ReaderOk(q, r)
    ensures var s, n := Continue(q, Reading(r), FragmentBoxes(q.tracks[t].id, f)), CutOf(q, f, q.tracks[t].timeScale);
            var dts, es := f.baseTime + ToTicks(q.startDTS, q.tracks[t].timeScale), Entries(f.samples);
            && s.Reading? && s.r.breakAtNextMdat == (r.breakAtNextMdat || n < |f.samples|)
            && s.r.calls == P.Then(HandOver(r.calls, t, dts, es, n), P.Op.Final(t, Handed(dts, es, n)))
  {
    TrackFound(q.tracks, t);
    hide ToTicks, Handed, HandOver, Continue, ReadTrun, Entries, FindTrack, TimeScalesOk, HeaderOf, CutOf;
    ContinueFour(q, r, q.tracks[t].id, f.baseTime, Entries(f.samples));
    var timed := ReadBox(q, r.(tfhd := Some(q.tracks[t].id)), Tfdt(f.baseTime));
    TrunSteps(q, timed.r, t, f);
  }

  lemma FragmentPlays(q: Request, boxes: seq<Box>, calls: P.History, start: int, t: nat, f: R.Fragment, u: nat,
      all: bool, c: Clock)
    requires TracksOk(q.tracks) && t < |q.tracks| && ClockOk(q, start, u, c)
    requires FragmentFits(f, start, q.tracks[t].timeScale) && !Read(q, boxes, calls).Failed?
    requires all ==> Whole(Read(q, boxes, calls)) && Covers(q, f, q.tracks[t].timeScale)
    ensures var r := Read(q, boxes + FragmentBoxes(q.tracks[t].id, f), calls);
            && !r.Failed? && (all ==> Whole(r))
            && Plays(Read(q, boxes, calls).r.calls, r.r.calls, u, if u == t then f.samples else [], all, c)
  {
    hide Read, ToTicks, Continue, Plays, FragmentBoxes, FragmentFits, Covers, HandOver, Handed, CutOf, HeaderOf;
    var r := Read(q, boxes, calls);
    ReadAppend(q, boxes, FragmentBoxes(q.tracks[t].id, f), calls);
    if r.Reading? {
      FragmentSteps(q, r.r, t, f);
      if all { CutsNothing(q, f, q.tracks[t].timeScale); }
      var end := Continue(q, r, FragmentBoxes(q.tracks[t].id, f)).r.calls;
      FinalFeedsNothing(end, u);
      HandOverPlays(r.r.calls, end, f, start, t, q.tracks[t].timeScale, CutOf(q, f, q.tracks[t].timeScale), u, all, c);
    } else {
      PlaysNothing(r.r.calls, r.r.calls, u, if u == t then f.samples else [], all, c);
    }
  }

  lemma FinalFeedsNothing(h: P.History, u: nat)
    requires h.Then? && h.last.Final?
    ensures P.Fed(h, u) == P.Fed(h.before, u)
  {
  }

  // ---- a part, a file ----

  predicate Distinct(order: seq<R.TrackId>) {
    forall i, j :: 0 <= i < j < |order| ==> order[i] != order[j]
  }

  // The order lists each track of the part once.
  ghost predicate IsFullOrder(order: seq<R.TrackId>, p: R.Part) {
    && Distinct(order)
    && (forall t :: t in p.fragments <==> t in order)
  }

  ghost predicate CoversPart(q: Request, p: R.Part) {
    forall t :: t in p.fragments && t < |q.tracks| ==> Covers(q, p.fragments[t], q.tracks[t].timeScale)
  }

  ghost predicate PartFits(p: R.Part, start: int, tracks: seq<InitTrack>) {
    forall t :: t in p.fragments && t < |tracks| ==> FragmentFits(p.fragments[t], start, tracks[t].timeScale)
  }

  function InOrder(p: R.Part, order: seq<R.TrackId>, u: nat): seq<R.Sample> {
    if u in order then S.PartSamples(p, u) else []
  }

  lemma InOrderNext(p: R.Part, order: seq<R.TrackId>, t: R.TrackId, u: nat)
    requires Distinct(order + [t]) && t in p.fragments
    ensures InOrder(p, order + [t], u) == InOrder(p, order, u) + (if u == t then p.fragments[t].samples else [])
  {
    var more := order + [t];
    assert more[|order|] == t && forall i :: 0 <= i < |order| ==> more[i] == order[i] && more[i] != more[|order|];
  }

  // A box that hands nothing over.
  lemma QuietBoxPlays(q: Request, boxes: seq<Box>, calls: P.History, b: Box, u: nat, all: bool, c: Clock)
    requires TimeScalesOk(q.tracks) && !Read(q, boxes, calls).Failed? && (all ==> Whole(Read(q, boxes, calls)))
    requires b == Moof || b == Mdat
    ensures var r := Read(q, boxes + [b], calls);
            !r.Failed? && (all ==> Whole(r)) && Plays(Read(q, boxes, calls).r.calls, r.r.calls, u, [], all, c)
  {
    assert (boxes + [b])[..|boxes|] == boxes;
    var r := Read(q, boxes, calls);
    PlaysNothing(r.r.calls, r.r.calls, u, [], all, c);
    hide Plays;
  }

  lemma {:induction false} PartPlays(q: Request, boxes: seq<Box>, calls: P.History, start: int, p: R.Part,
      order: seq<R.TrackId>, u: nat, all: bool, c: Clock)
    requires TracksOk(q.tracks) && ClockOk(q, start, u, c) && PartFits(p, start, q.tracks)
    requires IsOrder(order, p, q.tracks) && Distinct(order) && !Read(q, boxes, calls).Failed?
    requires all ==> Whole(Read(q, boxes, calls)) && CoversPart(q, p)
    ensures var r := Read(q, boxes + PartBoxes(p, order, q.tracks), calls);
            && !r.Failed? && (all ==> Whole(r))
            && Plays(Read(q, boxes, calls).r.calls, r.r.calls, u, InOrder(p, order, u), all, c)
    decreases |order|
  {
    hide HeaderOf, ReadBox, Plays, TimeScalesOk, Read, InOrder, FragmentFits;
    if order == [] {
      QuietBoxPlays(q, boxes, calls, Moof, u, all, c);
      assert InOrder(p, [], u) == [] by { NothingInOrder(p, u); }
    } else {
      var n := |order| - 1;
      var fewer, t := order[..n], order[n];
      assert order == fewer + [t];
      PartPlays(q, boxes, calls, start, p, fewer, u, all, c);
      InOrderNext(p, fewer, t, u);
      hide Distinct;
      var before, f := boxes + PartBoxes(p, fewer, q.tracks), p.fragments[t];
      FragmentPlays(q, before, calls, start, t, f, u, all, c);
      assert before + FragmentBoxes(q.tracks[t].id, f) == boxes + PartBoxes(p, order, q.tracks);
      hide PartBoxes, CoversPart, FragmentBoxes, IsOrder;
      PlaysThen(Read(q, boxes, calls).r.calls, Read(q, before, calls).r.calls,
                Read(q, before + FragmentBoxes(q.tracks[t].id, f), calls).r.calls, u,
                InOrder(p, fewer, u), if u == t then f.samples else [], all, c);
    }
  }

  lemma NothingInOrder(p: R.Part, u: nat)
    ensures InOrder(p, [], u) == []
  {
  }

  lemma PartAndMdatPlay(q: Request, boxes: seq<Box>, calls: P.History, start: int, p: R.Part,
      order: seq<R.TrackId>, u: nat, all: bool, c: Clock)
    requires TracksOk(q.tracks) && ClockOk(q, start, u, c) && PartFits(p, start, q.tracks)
    requires IsOrder(order, p, q.tracks) && IsFullOrder(order, p) && !Read(q, boxes, calls).Failed?
    requires all ==> Whole(Read(q, boxes, calls)) && CoversPart(q, p)
    ensures var r := Read(q, boxes + PartBoxes(p, order, q.tracks) + [Mdat], calls);
            && !r.Failed? && (all ==> Whole(r))
            && Plays(Read(q, boxes, calls).r.calls, r.r.calls, u, S.PartSamples(p, u), all, c)
  {
    PartPlays(q, boxes, calls, start, p, order, u, all, c);
    var more := boxes + PartBoxes(p, order, q.tracks);
    assert InOrder(p, order, u) == S.PartSamples(p, u);
    hide Read, Plays, CoversPart, PartFits, IsOrder, Distinct, InOrder;
    QuietBoxPlays(q, more, calls, Mdat, u, all, c);
    var x := S.PartSamples(p, u);
    PlaysThen(Read(q, boxes, calls).r.calls, Read(q, more, calls).r.calls, Read(q, more + [Mdat], calls).r.calls, u,
              x, [], all, c);
    assert x + [] == x;
  }

  // Reading a recorded file never fails, whatever the order of the tracks in its parts and wherever the request ends;
  // and a request that covers all of it gets all of it.
  lemma {:induction false} FilePlays(q: Request, calls: P.History, start: int, parts: seq<R.Part>,
      orders: seq<seq<R.TrackId>>, u: nat, all: bool, c: Clock)
    requires TracksOk(q.tracks) && ClockOk(q, start, u, c) && AreOrders(orders, parts, q.tracks)
    requires forall i :: 0 <= i < |parts| ==> IsFullOrder(orders[i], parts[i]) && PartFits(parts[i], start, q.tracks)
    requires all ==> forall i :: 0 <= i < |parts| ==> CoversPart(q, parts[i])
    ensures var r := Read(q, FileBoxes(parts, orders, q.tracks), calls);
            && !r.Failed? && (all ==> Whole(r))
            && Plays(calls, r.r.calls, u, S.PartsSamples(parts, u), all, c)
    decreases |parts|
  {
    if parts == [] {
      var b: seq<Box> := [Other, Other];
      ReadNext(q, b, 0, calls);
      ReadNext(q, b, 1, calls);
      assert b[..2] == b && Read(q, b[..0], calls) == Reading(Start(calls));
      PlaysNothing(calls, calls, u, [], all, c);
    } else {
      var n := |parts| - 1;
      hide IsFullOrder, CoversPart, PartFits, HeaderOf, TimeScalesOk, Plays, IsOrder, ReadBox;
      FilePlays(q, calls, start, parts[..n], orders[..n], u, all, c);
      var boxes := FileBoxes(parts[..n], orders[..n], q.tracks);
      PartAndMdatPlay(q, boxes, calls, start, parts[n], orders[n], u, all, c);
      hide Read, PartBoxes;
      PlaysThen(calls, Read(q, boxes, calls).r.calls,
                Read(q, boxes + PartBoxes(parts[n], orders[n], q.tracks) + [Mdat], calls).r.calls, u,
                S.PartsSamples(parts[..n], u), S.PartSamples(parts[n], u), all, c);
    }
  }
}
