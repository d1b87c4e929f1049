/** From the recorder's inputs to the player: what the fragmented output of a replay shows of each track. */
module ReplayShown {
  import opened Arith
  import P = Playback
  import opened SegmentFile
  import opened SeekAndMux
  import opened Replay
  import opened ReplayParts
  import opened ReplayRuns
  import M = MuxerFMP4State
  import MS = MuxerFMP4Safety
  import Runs = MuxerFMP4Runs
  import R = RecorderState
  import S = RecorderSafety
  import RecorderRuns

  // ---- the calls of a replay are ones that the muxer can be given ----

  lemma {:induction false} HandOverInRange(h: P.History, t: nat, dts: int, entries: seq<P.Stored>, n: nat, count: nat)
    requires n <= |entries| && P.OpsInRange(h, count) && t < count
    ensures P.OpsInRange(HandOver(h, t, dts, entries, n), count)
  {
    if n > 0 {
      HandOverInRange(h, t, dts, entries, n - 1, count);
    }
  }

  lemma {:induction false} ReadInRange(q: Request, boxes: seq<Box>, calls: P.History)
    requires TimeScalesOk(q.tracks) && P.OpsInRange(calls, |q.tracks|)
    ensures var r := Read(q, boxes, calls); !r.Failed? ==> P.OpsInRange(r.r.calls, |q.tracks|)
    decreases |boxes|
  {
    if boxes != [] {
      var n := |boxes| - 1;
      hide ToTicks, ToDuration, Cut, Handed, FindTrack, HandOver, TimeScalesOk;
      ReadInRange(q, boxes[..n], calls);
      var r := Read(q, boxes[..n], calls);
      if r.Reading? && boxes[n].Trun? && r.r.tfdt.Some? {
        var dts, entries := r.r.tfdt.value + r.r.startDTSMP4, boxes[n].entries;
        HandOverInRange(r.r.calls, r.r.track, dts, entries, Cut(dts, r.r.durationMP4, entries, 0), |q.tracks|);
      }
    }
  }

  lemma {:induction false} SeekInRange(files: seq<File>, n: nat, start: int, duration: int)
    requires Readable(files) && 1 <= n <= |files|
    ensures var s := Seek(files, n, start, duration);
            !s.Error? ==> P.OpsInRange(s.calls, |files[0].init.tracks|)
  {
    hide Read, CanBeConcatenated;
    var f, tracks := files[n - 1], files[0].init.tracks;
    if n == 1 {
      ReadInRange(Request(tracks, f.start - start, duration), f.boxes, P.Begin);
    } else {
      SeekInRange(files, n - 1, start, duration);
      var s := Seek(files, n - 1, start, duration);
      if s.Muxing? && CanBeConcatenated(s.prevInit, s.segmentEnd, f.init, f.start) {
        ConcatenatedInitsAgree(s.prevInit, s.segmentEnd, f.init, f.start);
        ReadInRange(Request(tracks, StartOf(files[0], f, start), duration), f.boxes, s.calls);
      }
    }
  }

  // Far enough apart for the rounding not to swap them, and near enough for 32 bits.
  predicate AreApart(a: R.Sample, b: R.Sample) {
    3 <= b.dts - a.dts < TWO_32 - 3
  }

  ghost predicate AreSpaced(rec: seq<R.Sample>) {
    forall i :: 0 <= i < |rec| - 1 ==> AreApart(rec[i], rec[i + 1])
  }

  ghost predicate AreClose(rec: seq<R.Sample>) {
    forall i, j :: 0 <= i < j < |rec| ==> AreApart(rec[i], rec[j])
  }

  lemma GapIsKept(x: P.Sample, y: P.Sample, a: R.Sample, b: R.Sample, c: Clock)
    requires IsSampleOf(x, a, c) && IsSampleOf(y, b, c) && AreApart(a, b)
    ensures 0 <= y.dts - x.dts < TWO_32
  {
  }

  lemma ReplayIsSteady(fed: seq<P.Sample>, rec: seq<R.Sample>, c: Clock)
    requires IsReplayOf(fed, rec, c) && (AreClose(rec) || (|fed| == |rec| && AreSpaced(rec)))
    ensures P.Steady(fed)
  {
    var picked :| Picks(fed, rec, picked, c);
    if |fed| == |rec| { WholeReplay(fed, rec, c); }
    hide IsSampleOf, AreApart, IsReplayOf;
    forall k | 0 <= k < |fed| - 1 ensures 0 <= fed[k + 1].dts - fed[k].dts < TWO_32 {
      if |fed| == |rec| && AreSpaced(rec) {
        GapIsKept(fed[k], fed[k + 1], rec[k], rec[k + 1], c);
      } else {
        GapIsKept(fed[k], fed[k + 1], rec[picked[k]], rec[picked[k + 1]], c);
      }
    }
  }

  // ---- what a player sees ----

  // y shows the recorded sample: nearly at its time, or at from when it is only there to decode what follows.
  predicate IsShown(y: P.Timed, s: R.Sample, from: int, c: Clock) {
    && y.payload == s.payload && y.ptsOffset == s.ptsOffset && y.isNonSync == s.isNonSync
    && y.time >= from && -3 * SECOND < TimeError(y.time, s.dts, c.zero, c.offset, c.rate)
    && (y.time > from ==> TimeError(y.time, s.dts, c.zero, c.offset, c.rate) < SECOND)
  }

  ghost predicate ShowsPicked(shown: seq<P.Timed>, rec: seq<R.Sample>, picked: seq<nat>, c: Clock) {
    && |picked| == |shown|
    && (forall j, k :: 0 <= j < k < |picked| ==> picked[j] < picked[k])
    && (forall k :: 0 <= k < |picked| ==> picked[k] < |rec| && IsShown(shown[k], rec[picked[k]], shown[0].time, c))
  }

  // Recorded samples, in order, each nearly at its time; the first ones may be there for decoding only.
  ghost predicate ShowsRecording(shown: seq<P.Timed>, rec: seq<R.Sample>, c: Clock) {
    exists picked :: ShowsPicked(shown, rec, picked, c)
  }

  // All of the recording from some sample on.
  ghost predicate ShowsTail(shown: seq<P.Timed>, rec: seq<R.Sample>, c: Clock) {
    && 0 < |shown| <= |rec|
    && forall k :: 0 <= k < |shown| ==> IsShown(shown[k], rec[|rec| - |shown| + k], shown[0].time, c)
  }

  lemma SampleIsShown(x: P.Sample, s: R.Sample, from: int, c: Clock)
    requires IsSampleOf(x, s, c)
    ensures IsShown(MS.Shown(x, from), s, from, c)
  {
  }

  lemma FirstShown(fed: seq<P.Sample>)
    requires P.Steady(fed) && P.HasVisible(fed)
    ensures var from := fed[P.FirstVisible(fed)].dts;
            MS.Expected(fed) != [] && MS.Expected(fed)[0].time == from && P.KeepFrom(fed) < |fed|
  {
    var n := P.FirstVisible(fed);
    assert |P.Leading(fed)| == n + 1;
    P.SteadyIsOrdered(fed, P.KeepFrom(fed), n);
  }

  // The samples that are kept, each shown where a player should see it.
  lemma ExpectedIs(fed: seq<P.Sample>, k: nat)
    requires P.HasVisible(fed) && k < |MS.Expected(fed)|
    ensures |MS.Expected(fed)| == |fed| - P.KeepFrom(fed)
    ensures MS.Expected(fed)[k] == MS.Shown(fed[P.KeepFrom(fed) + k], fed[P.FirstVisible(fed)].dts)
  {
    hide P.KeepFrom, P.FirstVisible;
  }

  lemma ExpectedIsShown(fed: seq<P.Sample>, k: nat, s: R.Sample, c: Clock)
    requires P.Steady(fed) && P.HasVisible(fed) && P.KeepFrom(fed) + k < |fed|
    requires IsSampleOf(fed[P.KeepFrom(fed) + k], s, c)
    ensures |MS.Expected(fed)| == |fed| - P.KeepFrom(fed)
    ensures IsShown(MS.Expected(fed)[k], s, MS.Expected(fed)[0].time, c)
  {
    FirstShown(fed);
    ExpectedIs(fed, 0);
    ExpectedIs(fed, k);
    SampleIsShown(fed[P.KeepFrom(fed) + k], s, MS.Expected(fed)[0].time, c);
    hide *;
  }

  lemma ExpectedShowsRecording(fed: seq<P.Sample>, rec: seq<R.Sample>, c: Clock)
    requires IsReplayOf(fed, rec, c) && P.Steady(fed) && P.HasVisible(fed)
    ensures ShowsRecording(MS.Expected(fed), rec, c)
  {
    var picked :| Picks(fed, rec, picked, c);
    hide IsSampleOf, IsShown, P.KeepFrom, P.HasVisible, P.FirstVisible, P.Steady, IsReplayOf, MS.Expected;
    FirstShown(fed);
    ExpectedIs(fed, 0);
    var first, shown := P.KeepFrom(fed), MS.Expected(fed);
    forall k | 0 <= k < |shown|
      ensures IsShown(shown[k], rec[picked[first..][k]], shown[0].time, c)
    {
      ExpectedIsShown(fed, k, rec[picked[first + k]], c);
    }
    assert ShowsPicked(shown, rec, picked[first..], c);
  }

  lemma ExpectedShowsTail(fed: seq<P.Sample>, rec: seq<R.Sample>, c: Clock)
    requires IsReplayOf(fed, rec, c) && |fed| == |rec| && P.Steady(fed) && P.HasVisible(fed)
    ensures ShowsTail(MS.Expected(fed), rec, c)
  {
    hide IsSampleOf, IsShown, P.KeepFrom, P.HasVisible, P.FirstVisible, P.Steady, IsReplayOf, MS.Expected;
    WholeReplay(fed, rec, c);
    FirstShown(fed);
    ExpectedIs(fed, 0);
    var first, shown := P.KeepFrom(fed), MS.Expected(fed);
    forall k | 0 <= k < |shown|
      ensures IsShown(shown[k], rec[first + k], shown[0].time, c)
    {
      ExpectedIsShown(fed, k, rec[first + k], c);
    }
  }

  // The output of the muxer for a track, in a replay of its recorded samples.
  ghost predicate TrackIsShown(out: seq<M.Part>, u: nat, fed: seq<P.Sample>, rec: seq<R.Sample>, all: bool, c: Clock) {
    var shown := MS.FragmentsTimeline(Runs.Fragments(out, u));
    if !P.HasVisible(fed) then shown == []
    else ShowsRecording(shown, rec, c) && (all ==> ShowsTail(shown, rec, c))
  }

  ghost predicate CanBeShown(segments: seq<R.Segment>, count: nat, all: bool) {
    forall u :: 0 <= u < count ==>
      var rec := S.SegmentsSamples(segments, u); if all then AreSpaced(rec) else AreClose(rec)
  }

  // The calls are a replay of every track.
  ghost predicate IsReplay(tracks: seq<InitTrack>, segments: seq<R.Segment>, h: P.History, offset: int, all: bool)
    requires segments != []
  {
    forall u :: 0 <= u < |tracks| ==>
      var rec := S.SegmentsSamples(segments, u);
      IsReplayOf(P.Fed(h, u), rec, ClockOf(segments, tracks, offset, u)) && (all ==> |P.Fed(h, u)| == |rec|)
  }

  lemma OutputIsShown(tracks: seq<InitTrack>, segments: seq<R.Segment>, h: P.History, offset: int, all: bool)
    requires TracksOk(tracks) && segments != [] && P.OpsInRange(h, |tracks|) && CanBeShown(segments, |tracks|, all)
    requires IsReplay(tracks, segments, h, offset, all)
    ensures Runs.Run(RatesOf(tracks), h).Some?
    ensures var r := M.InnerFlush(Runs.Run(RatesOf(tracks), h).value, true);
            && (r.Some? <==> Runs.SomeVisible(P.AllFed(h, |tracks|)))
            && (r.Some? ==> forall u :: 0 <= u < |tracks| ==>
                  TrackIsShown(r.value.out, u, P.Fed(h, u), S.SegmentsSamples(segments, u), all,
                               ClockOf(segments, tracks, offset, u)))
  {
    hide IsReplayOf, AreSpaced, AreClose, P.Steady, P.Fed, P.HasVisible, S.SegmentsSamples, Runs.Run, M.InnerFlush,
        Runs.Fragments, MS.FragmentsTimeline, MS.Expected, ShowsRecording, ShowsTail, MS.Chained, HeaderOf;
    forall u | 0 <= u < |tracks| ensures P.Steady(P.Fed(h, u)) {
      ReplayIsSteady(P.Fed(h, u), S.SegmentsSamples(segments, u), ClockOf(segments, tracks, offset, u));
    }
    Runs.OutputIsWhatAPlayerShouldSee(RatesOf(tracks), h);
    var r := M.InnerFlush(Runs.Run(RatesOf(tracks), h).value, true);
    if r.Some? {
      forall u | 0 <= u < |tracks|
        ensures TrackIsShown(r.value.out, u, P.Fed(h, u), S.SegmentsSamples(segments, u), all,
                             ClockOf(segments, tracks, offset, u))
      {
        var rec, c := S.SegmentsSamples(segments, u), ClockOf(segments, tracks, offset, u);
        if P.HasVisible(P.Fed(h, u)) {
          ExpectedShowsRecording(P.Fed(h, u), rec, c);
          if all { ExpectedShowsTail(P.Fed(h, u), rec, c); }
        }
      }
    }
  }

  // The replay is given to the muxer to the end, and its output shows every track.
  ghost predicate IsShownByReplay(segments: seq<R.Segment>, files: seq<File>, tracks: seq<InitTrack>, start: int,
      duration: int, all: bool)
    requires Readable(files) && TracksOk(tracks) && segments != []
  {
    var s, offset := Seek(files, |files|, start, duration), files[0].start - start;
    && s.Muxing? && P.OpsInRange(s.calls, |tracks|) && Runs.Run(RatesOf(tracks), s.calls).Some?
    && var r := M.InnerFlush(Runs.Run(RatesOf(tracks), s.calls).value, true);
    && (r.Some? <==> Runs.SomeVisible(P.AllFed(s.calls, |tracks|)))
    && (r.Some? ==> forall u :: 0 <= u < |tracks| ==>
          TrackIsShown(r.value.out, u, P.Fed(s.calls, u), S.SegmentsSamples(segments, u), all,
                       ClockOf(segments, tracks, offset, u)))
  }

  lemma RecordedFiles(
    r: R.Recorder, inputs: seq<RecorderRuns.Input>, from: nat, to: nat, files: seq<File>,
    orders: seq<seq<seq<R.TrackId>>>, tracks: seq<InitTrack>, streamID: int)
    requires AreRecorded(r, inputs, from, to, files, orders, tracks, streamID)
    ensures Readable(files) && files[0].init.tracks == tracks && TracksOk(tracks) && tracks != []
    ensures RecorderRuns.Run(r, inputs).value.closed[from..to] != []
  {
    SegmentsOfARecording(r, inputs, from, to, tracks);
    hide RecorderRuns.Run, RecorderRuns.IsNew, AreConsecutive, TracksOk, HeaderOf, AreFilesOf, Readable;
    FilesAreReadable(files, RecorderRuns.Run(r, inputs).value.closed[from..to], orders, tracks, streamID);
  }

  lemma SeekIsReplay(
    r: R.Recorder, inputs: seq<RecorderRuns.Input>, from: nat, to: nat, files: seq<File>,
    orders: seq<seq<seq<R.TrackId>>>, tracks: seq<InitTrack>, streamID: int, start: int, duration: int, all: bool)
    requires AreRecorded(r, inputs, from, to, files, orders, tracks, streamID)
    requires var segments := RecorderRuns.Run(r, inputs).value.closed[from..to];
             all ==> Outlasts(segments, tracks, files[0].start - start, duration)
    ensures Readable(files)
    ensures var segments := RecorderRuns.Run(r, inputs).value.closed[from..to];
            var s := Seek(files, |files|, start, duration);
            s.Muxing? && segments != [] && IsReplay(tracks, segments, s.calls, files[0].start - start, all)
  {
    RecordedFiles(r, inputs, from, to, files, orders, tracks, streamID);
    hide RecorderRuns.Run, AreRecorded, Outlasts, IsReplayOf, Seek, TracksOk, Readable, P.Fed, S.SegmentsSamples,
        ClockOf;
    RecordingPlays(r, inputs, from, to, files, orders, tracks, streamID, start, duration, 0, all);
    forall u | 0 <= u < |tracks|
      ensures var segments := RecorderRuns.Run(r, inputs).value.closed[from..to];
              var calls, rec := Seek(files, |files|, start, duration).calls, S.SegmentsSamples(segments, u);
              && IsReplayOf(P.Fed(calls, u), rec, ClockOf(segments, tracks, files[0].start - start, u))
              && (all ==> |P.Fed(calls, u)| == |rec|)
    {
      RecordingPlays(r, inputs, from, to, files, orders, tracks, streamID, start, duration, u, all);
    }
  }

  lemma RecordingIsShown(
    r: R.Recorder, inputs: seq<RecorderRuns.Input>, from: nat, to: nat, files: seq<File>,
    orders: seq<seq<seq<R.TrackId>>>, tracks: seq<InitTrack>, streamID: int, start: int, duration: int, all: bool)
    requires AreRecorded(r, inputs, from, to, files, orders, tracks, streamID)
    requires var segments := RecorderRuns.Run(r, inputs).value.closed[from..to];
             && CanBeShown(segments, |tracks|, all)
             && (all ==> Outlasts(segments, tracks, files[0].start - start, duration))
    ensures Readable(files) && TracksOk(tracks) && RecorderRuns.Run(r, inputs).value.closed[from..to] != []
    ensures IsShownByReplay(RecorderRuns.Run(r, inputs).value.closed[from..to], files, tracks, start, duration, all)
  {
    var segments := RecorderRuns.Run(r, inputs).value.closed[from..to];
    RecordedFiles(r, inputs, from, to, files, orders, tracks, streamID);
    hide RecorderRuns.Run, AreRecorded, Outlasts, IsReplay, Seek, TracksOk, Readable, CanBeShown, IsShownByReplay;
    SeekIsReplay(r, inputs, from, to, files, orders, tracks, streamID, start, duration, all);
    ReplayIsShown(segments, files, tracks, start, duration, all);
  }

  lemma ReplayIsShown(segments: seq<R.Segment>, files: seq<File>, tracks: seq<InitTrack>, start: int, duration: int,
      all: bool)
    requires Readable(files) && TracksOk(tracks) && segments != [] && files[0].init.tracks == tracks
    requires CanBeShown(segments, |tracks|, all)
    requires var s := Seek(files, |files|, start, duration);
             s.Muxing? && IsReplay(tracks, segments, s.calls, files[0].start - start, all)
    ensures IsShownByReplay(segments, files, tracks, start, duration, all)
  {
    hide IsReplay, Seek, TracksOk, P.OpsInRange, CanBeShown, Runs.Run, M.InnerFlush, TrackIsShown, RatesOf,
        P.AllFed, Runs.SomeVisible;
    SeekInRange(files, |files|, start, duration);
    OutputIsShown(tracks, segments, Seek(files, |files|, start, duration).calls, files[0].start - start, all);
  }

  // Any run of the recorder, any of its consecutive files, any request: if the recorded samples of each track are
  // apart by a few ticks and together span less than 32 bits of them, the output of the muxer shows recorded samples
  // in order, each less than 3 ticks from its time.
  lemma ReplayShowsTheRecording(
    r: R.Recorder, inputs: seq<RecorderRuns.Input>, from: nat, to: nat, files: seq<File>,
    orders: seq<seq<seq<R.TrackId>>>, tracks: seq<InitTrack>, streamID: int, start: int, duration: int)
    requires AreRecorded(r, inputs, from, to, files, orders, tracks, streamID)
    requires CanBeShown(RecorderRuns.Run(r, inputs).value.closed[from..to], |tracks|, false)
    ensures Readable(files) && TracksOk(tracks) && RecorderRuns.Run(r, inputs).value.closed[from..to] != []
    ensures IsShownByReplay(RecorderRuns.Run(r, inputs).value.closed[from..to], files, tracks, start, duration, false)
  {
    hide AreRecorded, CanBeShown, IsShownByReplay, TracksOk;
    RecordingIsShown(r, inputs, from, to, files, orders, tracks, streamID, start, duration, false);
  }

  // If the request outlasts the files, the gaps alone need to fit, and the recording is shown with nothing missing
  // from the sample on with which it begins.
  lemma WholeReplayShowsTheRecording(
    r: R.Recorder, inputs: seq<RecorderRuns.Input>, from: nat, to: nat, files: seq<File>,
    orders: seq<seq<seq<R.TrackId>>>, tracks: seq<InitTrack>, streamID: int, start: int, duration: int)
    requires AreRecorded(r, inputs, from, to, files, orders, tracks, streamID)
    requires CanBeShown(RecorderRuns.Run(r, inputs).value.closed[from..to], |tracks|, true)
    requires Outlasts(RecorderRuns.Run(r, inputs).value.closed[from..to], tracks, files[0].start - start, duration)
    ensures Readable(files) && TracksOk(tracks) && RecorderRuns.Run(r, inputs).value.closed[from..to] != []
    ensures IsShownByReplay(RecorderRuns.Run(r, inputs).value.closed[from..to], files, tracks, start, duration, true)
  {
    hide AreRecorded, CanBeShown, IsShownByReplay, Outlasts, TracksOk;
    RecordingIsShown(r, inputs, from, to, files, orders, tracks, streamID, start, duration, true);
  }
}
