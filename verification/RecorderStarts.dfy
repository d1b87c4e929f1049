/** Where a recording cuts: the start of the next segment, and what that start means for the samples after it. */
module RecorderStarts {
  import opened Wrappers
  import opened Arith
  import opened RecorderState
  import opened RecorderSafety
  import opened RecorderRuns

  predicate IsPending(tracks: seq<Track>, i: int)
    requires RatesOk(tracks)
  {
    0 <= i < |tracks| && tracks[i].nextSample.Some?
  }

  // The pending samples that are at most 1 s older than the newest one.
  predicate InWindow(tracks: seq<Track>, newest: int, i: int)
    requires RatesOk(tracks)
  {
    IsPending(tracks, i) && newest - PendingDTS(tracks[i]) <= 1_000_000_000
  }

  lemma {:induction false} NewestIsMaximum(tracks: seq<Track>)
    requires RatesOk(tracks)
    ensures NewestPending(tracks) >= 0
    ensures forall i | IsPending(tracks, i) :: PendingDTS(tracks[i]) <= NewestPending(tracks)
    ensures NewestPending(tracks) > 0 ==>
              exists i | IsPending(tracks, i) :: PendingDTS(tracks[i]) == NewestPending(tracks)
  {
    if tracks != [] {
      var n := |tracks| - 1;
      var fewer := tracks[..n];
      NewestIsMaximum(fewer);
      hide PendingDTS;
      forall i | IsPending(tracks, i) ensures PendingDTS(tracks[i]) <= NewestPending(tracks) {
        if i < n {
          assert IsPending(fewer, i);
        }
      }
      if NewestPending(tracks) > 0 {
        if NewestPending(tracks) == NewestPending(fewer) {
          var i :| IsPending(fewer, i) && PendingDTS(fewer[i]) == NewestPending(fewer);
          assert IsPending(tracks, i) && PendingDTS(tracks[i]) == NewestPending(tracks);
        } else {
          assert IsPending(tracks, n) && PendingDTS(tracks[n]) == NewestPending(tracks);
        }
      }
    }
  }

  // The position is that of the last track among the oldest of the window.
  ghost predicate IsOldest(tracks: seq<Track>, newest: int, i: int, start: Start)
    requires RatesOk(tracks)
  {
    && InWindow(tracks, newest, i)
    && start == Start(tracks[i].nextSample.value.ntp, PendingDTS(tracks[i]))
    && (forall j | InWindow(tracks, newest, j) :: start.dts <= PendingDTS(tracks[j]))
    && (forall j | InWindow(tracks, newest, j) && j > i :: start.dts < PendingDTS(tracks[j]))
  }

  predicate IsRecent(tracks: seq<Track>, i: int)
    requires RatesOk(tracks)
  {
    IsPending(tracks, i) && PendingDTS(tracks[i]) >= -1_000_000_000
  }

  ghost predicate HasRecent(tracks: seq<Track>)
    requires RatesOk(tracks)
  {
    exists i :: IsRecent(tracks, i)
  }

  ghost predicate HasWindow(tracks: seq<Track>, newest: int)
    requires RatesOk(tracks)
  {
    exists i :: InWindow(tracks, newest, i)
  }

  ghost predicate HasOldest(tracks: seq<Track>, newest: int, start: Start)
    requires RatesOk(tracks)
  {
    exists i :: IsOldest(tracks, newest, i, start)
  }

  lemma {:induction false} OldestIsMinimum(tracks: seq<Track>, newest: int)
    requires RatesOk(tracks) && forall i | IsPending(tracks, i) :: PendingDTS(tracks[i]) <= newest
    ensures if HasWindow(tracks, newest) then HasOldest(tracks, newest, OldestPending(tracks, newest))
            else OldestPending(tracks, newest) == Start(ZERO_TIME, newest)
  {
    if tracks != [] {
      var n := |tracks| - 1;
      var fewer := tracks[..n];
      hide PendingDTS;
      assert forall i :: IsPending(fewer, i) ==> IsPending(tracks, i);
      OldestIsMinimum(fewer, newest);
      assert forall i :: i != n ==> (InWindow(tracks, newest, i) <==> InWindow(fewer, newest, i));
      var o, s := OldestPending(fewer, newest), OldestPending(tracks, newest);
      if HasWindow(fewer, newest) {
        var i :| IsOldest(fewer, newest, i, o);
        assert InWindow(tracks, newest, i);
        if s == o && !(InWindow(tracks, newest, n) && PendingDTS(tracks[n]) <= o.dts) {
          assert IsOldest(tracks, newest, i, s);
        } else {
          assert IsOldest(tracks, newest, n, s);
        }
      } else if InWindow(tracks, newest, n) {
        assert IsOldest(tracks, newest, n, s);
      }
    }
  }

  lemma WindowIsOpenExactly(tracks: seq<Track>)
    requires RatesOk(tracks)
    ensures HasWindow(tracks, NewestPending(tracks)) <==> HasRecent(tracks)
    ensures NewestPending(tracks) > 0 ==> HasWindow(tracks, NewestPending(tracks))
  {
    NewestIsMaximum(tracks);
    var newest := NewestPending(tracks);
    hide PendingDTS, NewestPending;
    if newest > 0 {
      var i :| IsPending(tracks, i) && PendingDTS(tracks[i]) == newest;
      assert InWindow(tracks, newest, i) && IsRecent(tracks, i);
    } else {
      assert forall i :: InWindow(tracks, newest, i) <==> IsRecent(tracks, i);
    }
  }

  // The next start is that of a pending sample exactly when one is not before -1 s; it is 0 with no date otherwise.
  lemma StartIsAPendingSampleExactly(tracks: seq<Track>)
    requires RatesOk(tracks)
    ensures if HasRecent(tracks) then HasOldest(tracks, NewestPending(tracks), NextSegmentStartingPos(tracks))
            else NextSegmentStartingPos(tracks) == Start(ZERO_TIME, 0) && !HasWindow(tracks, NewestPending(tracks))
  {
    NewestIsMaximum(tracks);
    OldestIsMinimum(tracks, NewestPending(tracks));
    WindowIsOpenExactly(tracks);
    hide PendingDTS, NewestPending, OldestPending, HasWindow, HasOldest, HasRecent;
  }

  lemma TicksOfOneSecond(v: int)
    ensures ToDuration(v, 1) == v * SECOND
  {
  }

  // A track of one tick per second whose pending sample is s.
  predicate HasPending(tr: Track, s: Sample) {
    tr.rate == 1 && tr.nextSample == Some(s)
  }

  lemma NoDate(tr: Track, b: Sample)
    requires HasPending(tr, b) && b.dts < -1
    ensures RatesOk([tr]) && NextSegmentStartingPos([tr]) == Start(ZERO_TIME, 0) && PendingDTS(tr) < 0
  {
    hide ToDuration;
    TicksOfOneSecond(b.dts);
    assert forall i :: !IsRecent([tr], i);
    StartIsAPendingSampleExactly([tr]);
  }

  // The sample whose successor has arrived is stored, and then its successor starts the next segment.
  lemma CutsWithoutDate(r: Recorder, a: Sample, b: Sample)
    requires |r.tracks| == |r.fed| == |r.dropped| == 1 && HasPending(r.tracks[0], b)
    requires a.dts <= b.dts < -1 && !b.isNonSync && (r.hasVideo ==> r.tracks[0].isVideo)
    requires r.current.None? && r.nextSegmentNumber == 0 && a.size <= r.settings.maxPartSize
    requires (b.dts - a.dts) * SECOND >= r.settings.segmentDuration
    ensures var (w, outcome) := Offer(r, 0, a, a.dts * SECOND);
            outcome == Written && w.tracks == r.tracks && w.current == Some(NewSegment(0, ZERO_TIME, 1, false))
  {
    hide NextSegmentStartingPos, SegmentClose, EndOf, ToTicks, ToDuration;
    TicksOfOneSecond(b.dts);
    NoDate(r.tracks[0], b);
    assert r.tracks == [r.tracks[0]];
  }

  lemma SecondSampleCuts(r: Recorder, a: Sample, b: Sample)
    requires |r.tracks| == |r.fed| == |r.dropped| == 1 && HasPending(r.tracks[0], a)
    requires a.dts <= b.dts < -1 && !b.isNonSync && (r.hasVideo ==> r.tracks[0].isVideo)
    requires r.current.None? && r.nextSegmentNumber == 0 && a.size <= r.settings.maxPartSize
    requires (b.dts - a.dts) * SECOND >= r.settings.segmentDuration && !r.tracks[0].startInitialized
    ensures var (w, outcome) := Write(r, 0, b);
            && outcome == Written && w.current == Some(NewSegment(0, ZERO_TIME, 1, false))
            && |w.tracks| == 1 && HasPending(w.tracks[0], b)
  {
    hide ToDuration, Offer;
    var ready := Ready(r, 0, b);
    TicksOfOneSecond(a.dts);
    CutsWithoutDate(Initialize(Feed(r, 0, b), 0, ready, a.dts * SECOND), ready, b);
  }

  // A recording whose decode times are all before -1 s cuts to a segment with no date, whose start is after the
  // very sample that made it cut; that sample is then lost.
  lemma StartWithoutDate(r: Recorder, a: Sample, b: Sample, c: Sample)
    requires IsNew(r) && |r.tracks| == 1 && r.tracks[0].rate == 1
    requires a.dts <= b.dts < -1 && !b.isNonSync
    requires (b.dts - a.dts) * SECOND >= r.settings.segmentDuration && a.size <= r.settings.maxPartSize
    ensures var run := Run(r, [Input(0, a), Input(0, b)]);
            && run.Some? && run.value.current == Some(NewSegment(0, ZERO_TIME, 1, false))
            && ValidTrack(run.value, 0) && Write(run.value, 0, c).1 in {Discarded, Drifted}
  {
    var inputs := [Input(0, a), Input(0, b)];
    var first := Write(r, 0, a).0;
    SecondSampleCuts(first, a, b);
    var second := Write(first, 0, b).0;
    OneInputThenAnother(r, inputs);
    WriteFeeds(first, 0, b);
    NextIsLost(second, b, c);
  }

  lemma OneInputThenAnother(r: Recorder, inputs: seq<Input>)
    requires ValidTrack(r, 0) && |inputs| == 2 && inputs[0].track == 0 && inputs[1].track == 0
    ensures var first := Write(r, 0, inputs[0].sample);
            !first.1.IsError() && ValidTrack(first.0, 0) ==>
              var second := Write(first.0, 0, inputs[1].sample);
              Run(r, inputs) == if second.1.IsError() then None else Some(second.0)
  {
    hide Write;
    assert inputs[..1][..0] == [];
    assert Run(r, inputs[..1][..0]) == Some(r);
  }

  lemma NextIsLost(r: Recorder, b: Sample, c: Sample)
    requires ValidTrack(r, 0) && HasPending(r.tracks[0], b) && b.dts < -1
    requires r.current == Some(NewSegment(0, ZERO_TIME, 1, false))
    ensures Write(r, 0, c).1 in {Discarded, Drifted}
  {
    hide ToDuration, Drifts, Store;
    TicksOfOneSecond(b.dts);
  }

  // Nothing in the window is before the next start, nor more than 1 s (one time scale, in ticks) after it.
  lemma WindowFitsTheSegment(tracks: seq<Track>, i: int)
    requires RatesOk(tracks) && InWindow(tracks, NewestPending(tracks), i)
    ensures var start := NextSegmentStartingPos(tracks).dts;
            && 0 <= PendingDTS(tracks[i]) - start <= MAX_BASETIME
            && 0 <= ToTicks(PendingDTS(tracks[i]) - start, tracks[i].rate) <= tracks[i].rate
  {
    var newest, rate := NewestPending(tracks), tracks[i].rate;
    NewestIsMaximum(tracks);
    OldestIsMinimum(tracks, newest);
    var start := NextSegmentStartingPos(tracks);
    var k :| IsOldest(tracks, newest, k, start);
    var d := PendingDTS(tracks[i]) - start.dts;
    assert 0 <= d <= MAX_BASETIME;
    MultiplyAndDivideBounds(d, rate, SECOND);
    MulLe(d, SECOND, rate);
    hide PendingDTS, MultiplyAndDivide, NewestPending, OldestPending;
  }

  // A track whose pending sample is in the window is not discarded while this segment lasts.
  lemma AdmittedIsNotDiscarded(r: Recorder, t: TrackId, sample: Sample)
    requires ValidTrack(r, t) && r.current.Some? && r.tracks[t].nextSample.Some?
    requires r.current.value.startDTS <= PendingDTS(r.tracks[t])
    ensures Write(r, t, sample).1 != Discarded
  {
    PrepareIs(r, t, sample);
    hide ToDuration, Drifts, SegmentWrite, NextSegmentStartingPos;
  }

  lemma WriteKeepsTracks(r: Recorder, t: TrackId, sample: Sample)
    requires ValidTrack(r, t)
    ensures var w := Write(r, t, sample).0;
            && |w.tracks| == |r.tracks| && RatesOk(w.tracks)
            && (forall u :: 0 <= u < |r.tracks| ==>
                  w.tracks[u].rate == r.tracks[u].rate && w.tracks[u].isVideo == r.tracks[u].isVideo)
            && (forall u :: 0 <= u < |r.tracks| && u != t ==> w.tracks[u] == r.tracks[u])
            && w.hasVideo == (r.hasVideo || r.tracks[t].isVideo)
  {
    hide ToDuration, Drifts, SegmentWrite, NextSegmentStartingPos, SegmentClose, Ready, NewSegment;
  }

  lemma WriteKeepsSegment(r: Recorder, t: TrackId, sample: Sample)
    requires ValidTrack(r, t) && r.current.Some?
    ensures var w := Write(r, t, sample).0;
            && r.nextSegmentNumber <= w.nextSegmentNumber && w.current.Some?
            && (w.nextSegmentNumber == r.nextSegmentNumber ==> w.current.value.startDTS == r.current.value.startDTS)
  {
    hide ToDuration, Drifts, PartWrite, NextSegmentStartingPos, SegmentClose, Ready, Initialized;
  }

  lemma {:induction false} RunElsewhere(r: Recorder, inputs: seq<Input>, t: TrackId)
    requires t < |r.tracks| && RatesOk(r.tracks) && r.current.Some? && r.tracks[t].nextSample.Some?
    requires Run(r, inputs).Some? && SamplesFor(inputs, t) == []
    ensures var e := Run(r, inputs).value;
            && |e.tracks| == |r.tracks| && RatesOk(e.tracks) && e.tracks[t] == r.tracks[t]
            && r.nextSegmentNumber <= e.nextSegmentNumber && e.current.Some?
            && (e.nextSegmentNumber == r.nextSegmentNumber ==> e.current.value.startDTS == r.current.value.startDTS)
  {
    if inputs != [] {
      var n := |inputs| - 1;
      RunElsewhere(r, inputs[..n], t);
      var b := Run(r, inputs[..n]).value;
      hide Write;
      WriteKeepsTracks(b, inputs[n].track, inputs[n].sample);
      WriteKeepsSegment(b, inputs[n].track, inputs[n].sample);
    }
  }

  // After a switch, whatever the other tracks do, the pending samples of the window are not lost.
  lemma WindowIsNeverDiscarded(r: Recorder, v: TrackId, t: TrackId, inputs: seq<Input>, sample: Sample)
    requires ValidTrack(r, v) && r.current.Some? && r.tracks[v].nextSample.Some?
    requires InWindow(r.tracks, NewestPending(r.tracks), t)
    requires Run(Switch(r, v), inputs).Some? && SamplesFor(inputs, t) == []
    requires Run(Switch(r, v), inputs).value.nextSegmentNumber == r.nextSegmentNumber + 1 // the segment is still open
    ensures var e := Run(Switch(r, v), inputs).value;
            ValidTrack(e, t) ==> Write(e, t, sample).1 != Discarded
  {
    WindowFitsTheSegment(r.tracks, t);
    RunElsewhere(Switch(r, v), inputs, t);
    var e := Run(Switch(r, v), inputs).value;
    hide PendingDTS, NewestPending, OldestPending, SegmentClose, Run, Write;
    if ValidTrack(e, t) {
      AdmittedIsNotDiscarded(e, t, sample);
    }
  }

  // ---- segment starts never go backwards ----

  lemma SwitchMovesForward(r: Recorder, t: TrackId)
    requires ValidTrack(r, t) && r.tracks[t].nextSample.Some? && r.current.Some? && Switches(r, t)
    requires r.settings.segmentDuration >= MAX_BASETIME
    ensures r.current.value.startDTS <= Switch(r, t).current.value.startDTS
  {
    var tracks := r.tracks;
    NewestIsMaximum(tracks);
    assert IsPending(tracks, t);
    OldestIsMinimum(tracks, NewestPending(tracks));
    hide PendingDTS, NewestPending, OldestPending, SegmentClose;
    var start := NextSegmentStartingPos(tracks);
    if HasWindow(tracks, NewestPending(tracks)) {
      var i :| IsOldest(tracks, NewestPending(tracks), i, start);
      assert PendingDTS(tracks[t]) <= NewestPending(tracks);
    }
  }

  ghost predicate StartsOrdered(r: Recorder) {
    && (forall i :: 0 <= i < |r.closed| - 1 ==> r.closed[i].startDTS <= r.closed[i + 1].startDTS)
    && (r.closed != [] ==> r.current.Some? && r.closed[|r.closed| - 1].startDTS <= r.current.value.startDTS)
  }

  lemma WriteKeepsOrder(r: Recorder, t: TrackId, sample: Sample)
    requires ValidTrack(r, t) && StartsOrdered(r) && r.settings.segmentDuration >= MAX_BASETIME
    ensures StartsOrdered(Write(r, t, sample).0)
  {
    hide ToDuration, Drifts, Store, NextSegmentStartingPos;
    if r.tracks[t].nextSample.Some? {
      var p, ready := Prepare(r, t, sample), Ready(r, t, sample);
      PrepareIs(r, t, sample);
      var dts := ToDuration(ready.dts, r.tracks[t].rate);
      StoreKeepsStart(p, t, ready, dts);
      var s := Store(p, t, ready, dts).0;
      if Switches(s, t) {
        SwitchMovesForward(s, t);
      }
    }
  }

  lemma StoreKeepsStart(r: Recorder, t: TrackId, ready: Sample, dts: int)
    requires ValidTrack(r, t) && r.current.Some?
    ensures var s := Store(r, t, ready, dts).0;
            && s == r.(current := s.current) && s.current.Some?
            && s.current.value.startDTS == r.current.value.startDTS
  {
    hide ToDuration, PartWrite;
  }

  lemma {:induction false} SegmentStartsNeverGoBack(r: Recorder, inputs: seq<Input>)
    requires IsNew(r) && Run(r, inputs).Some? && r.settings.segmentDuration >= MAX_BASETIME
    ensures StartsOrdered(Run(r, inputs).value)
  {
    if inputs != [] {
      var n := |inputs| - 1;
      SegmentStartsNeverGoBack(r, inputs[..n]);
      RunKeepsInv(r, inputs[..n]);
      var b := Run(r, inputs[..n]).value;
      hide Write, Inv, StartsOrdered;
      WriteKeepsOrder(b, inputs[n].track, inputs[n].sample);
    }
  }

  // ---- with one video track, its segments start with a sync sample ----

  predicate OnlyVideo(tracks: seq<Track>, v: TrackId) {
    v < |tracks| && forall u :: 0 <= u < |tracks| ==> (tracks[u].isVideo <==> u == v)
  }

  predicate StartsWithSync(s: Segment, v: TrackId) {
    SegmentSamples(s, v) != [] ==> !SegmentSamples(s, v)[0].isNonSync
  }

  // A segment that the video track started holds no video sample before its pending one, which is sync.
  ghost predicate SyncOk(r: Recorder, v: TrackId)
    requires v < |r.tracks| && RatesOk(r.tracks)
  {
    && (forall i :: 0 <= i < |r.closed| && r.closed[i].fromSync ==> StartsWithSync(r.closed[i], v))
    && (r.current.Some? && r.current.value.fromSync ==> CurrentSyncOk(r, r.current.value, v))
  }

  ghost predicate CurrentSyncOk(r: Recorder, s: Segment, v: TrackId)
    requires v < |r.tracks| && RatesOk(r.tracks)
  {
    && r.hasVideo && StartsWithSync(s, v) && r.tracks[v].nextSample.Some?
    && (SegmentSamples(s, v) == [] ==> !r.tracks[v].nextSample.value.isNonSync && s.startDTS <= PendingDTS(r.tracks[v]))
  }

  // The same between the lookahead and the segment.
  ghost predicate SyncBetween(r: Recorder, t: TrackId, ready: Sample, v: TrackId)
    requires ValidTrack(r, t) && v < |r.tracks| && r.current.Some?
  {
    var s := r.current.value;
    && (forall i :: 0 <= i < |r.closed| && r.closed[i].fromSync ==> StartsWithSync(r.closed[i], v))
    && (s.fromSync ==> r.hasVideo && StartsWithSync(s, v) && r.tracks[v].nextSample.Some?)
    && (s.fromSync && SegmentSamples(s, v) == [] ==>
          if t == v then !ready.isNonSync && s.startDTS <= ToDuration(ready.dts, r.tracks[v].rate)
          else !r.tracks[v].nextSample.value.isNonSync && s.startDTS <= PendingDTS(r.tracks[v]))
  }

  lemma PrepareKeepsSync(r: Recorder, t: TrackId, sample: Sample, v: TrackId)
    requires ValidTrack(r, t) && OnlyVideo(r.tracks, v) && SyncOk(r, v) && r.tracks[t].nextSample.Some?
    ensures var p := Prepare(r, t, sample);
            ValidTrack(p, t) && OnlyVideo(p.tracks, v) && SyncBetween(p, t, Ready(r, t, sample), v)
            && (t == v ==> p.hasVideo)
  {
    PrepareIs(r, t, sample);
    var p := Prepare(r, t, sample);
    assert p.hasVideo == (r.hasVideo || r.tracks[t].isVideo);
    hide ToDuration, StartsWithSync, SegmentSamples;
  }

  lemma StoreKeepsSync(r: Recorder, t: TrackId, ready: Sample, dts: int, v: TrackId)
    requires ValidTrack(r, t) && r.current.Some? && v < |r.tracks| && SyncBetween(r, t, ready, v)
    requires Store(r, t, ready, dts).1
    ensures SyncOk(Store(r, t, ready, dts).0, v)
  {
    hide ToDuration, PartWrite;
    SegmentWriteAppends(r.current.value, r.settings, t, r.tracks[t].rate, ready, dts, v);
    var s := Store(r, t, ready, dts).0;
    assert s.current.value.startDTS == r.current.value.startDTS && s.current.value.fromSync == r.current.value.fromSync;
    hide SegmentSamples, SegmentWrite;
  }

  lemma SwitchKeepsSync(r: Recorder, t: TrackId, v: TrackId)
    requires ValidTrack(r, t) && OnlyVideo(r.tracks, v) && SyncOk(r, v)
    requires r.current.Some? && r.tracks[t].nextSample.Some? && Switches(r, t) && (t == v ==> r.hasVideo)
    ensures SyncOk(Switch(r, t), v)
  {
    hide PendingDTS, NextSegmentStartingPos;
    CloseKeepsSamples(r.current.value, v);
    var s := Switch(r, t);
    assert SegmentSamples(s.current.value, v) == [];
    hide SegmentSamples;
  }

  lemma WriteKeepsSync(r: Recorder, t: TrackId, sample: Sample, v: TrackId)
    requires ValidTrack(r, t) && OnlyVideo(r.tracks, v) && SyncOk(r, v) && !Write(r, t, sample).1.IsError()
    ensures var w := Write(r, t, sample).0; |w.tracks| == |r.tracks| && RatesOk(w.tracks) && SyncOk(w, v)
  {
    WriteKeepsTracks(r, t, sample);
    hide ToDuration, Drifts, StartsWithSync, SegmentSamples, OnlyVideo;
    if r.tracks[t].nextSample.Some? {
      var p, ready := Prepare(r, t, sample), Ready(r, t, sample);
      PrepareIs(r, t, sample);
      PrepareKeepsSync(r, t, sample, v);
      var dts := ToDuration(ready.dts, r.tracks[t].rate);
      if dts >= p.current.value.startDTS {
        var s := Store(p, t, ready, dts).0;
        StoreKeepsSync(p, t, ready, dts, v);
        assert s.tracks == p.tracks && s.hasVideo == p.hasVideo;
        hide Store;
        if Switches(s, t) {
          SwitchKeepsSync(s, t, v);
        }
        hide SyncOk, Switch, SyncBetween;
      }
    }
  }

  // A video track's own sync sample opens the segment exactly when it is in the window.
  lemma SwitchIsFromSyncExactly(r: Recorder, t: TrackId)
    requires ValidTrack(r, t) && r.current.Some? && r.tracks[t].nextSample.Some?
    ensures Switch(r, t).current.value.fromSync <==>
            r.tracks[t].isVideo && InWindow(r.tracks, NewestPending(r.tracks), t)
  {
    var tracks := r.tracks;
    NewestIsMaximum(tracks);
    assert IsPending(tracks, t);
    OldestIsMinimum(tracks, NewestPending(tracks));
    hide PendingDTS, NewestPending, OldestPending, SegmentClose;
    if HasWindow(tracks, NewestPending(tracks)) {
      var i :| IsOldest(tracks, NewestPending(tracks), i, NextSegmentStartingPos(tracks));
    }
  }

  lemma {:induction false} VideoSegmentsStartWithSync(r: Recorder, inputs: seq<Input>, v: TrackId)
    requires IsNew(r) && Run(r, inputs).Some? && OnlyVideo(r.tracks, v)
    ensures var e := Run(r, inputs).value;
            RatesOk(e.tracks) && OnlyVideo(e.tracks, v) && SyncOk(e, v)
  {
    if inputs != [] {
      var n := |inputs| - 1;
      VideoSegmentsStartWithSync(r, inputs[..n], v);
      var b := Run(r, inputs[..n]).value;
      hide Write, SyncOk, IsNew;
      WriteKeepsTracks(b, inputs[n].track, inputs[n].sample);
      WriteKeepsSync(b, inputs[n].track, inputs[n].sample, v);
    }
  }
}
