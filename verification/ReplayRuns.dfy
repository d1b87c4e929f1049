/** Every sample that a replay hands to the muxer is a recorded one, in order and less than 3 ticks from its time. */
module ReplayRuns {
  import opened Wrappers
  import opened Arith
  import P = Playback
  import opened SegmentFile
  import opened SeekAndMux
  import opened Replay
  import opened ReplayParts
  import R = RecorderState
  import S = RecorderSafety
  import RecorderRuns
  import T = RecorderTimes

  // What the bound needs of a segment.
  ghost predicate SegmentFits(s: R.Segment, tracks: seq<InitTrack>) {
    forall p :: 0 <= p < |s.parts| ==> PartFits(s.parts[p], s.startDTS, tracks)
  }

  // ---- from the recorder's inputs ----

  lemma {:induction false} PartIsAStretch(ps: seq<R.Part>, p: nat, t: R.TrackId)
    returns (before: seq<R.Sample>, after: seq<R.Sample>)
    requires p < |ps|
    ensures S.PartsSamples(ps, t) == before + S.PartSamples(ps[p], t) + after
  {
    var n := |ps| - 1;
    if p == n {
      before, after := S.PartsSamples(ps[..n], t), [];
    } else {
      before, after := PartIsAStretch(ps[..n], p, t);
      after := after + S.PartSamples(ps[n], t);
    }
  }

  lemma StretchFits(before: seq<R.Sample>, ss: seq<R.Sample>, after: seq<R.Sample>)
    requires S.Linked(before + ss + after) && T.TimesFit(before + ss + after)
    ensures S.Linked(ss) && T.TimesFit(ss)
  {
    var all, n := before + ss + after, |before|;
    hide S.LinkedTo, T.IsNear;
    forall i | 0 <= i < |ss|
      ensures ss[i] == all[n + i] && ss[i].dts >= 0
      ensures i < |ss| - 1 ==> S.LinkedTo(ss[i], ss[i + 1].dts) && T.IsNear(ss[i].dts, ss[i + 1].dts)
    {
      if i < |ss| - 1 {
        assert all[n + i + 1] == ss[i + 1];
      }
    }
  }

  lemma ClosedFits(s: R.Segment, number: nat, rates: seq<int>, tracks: seq<InitTrack>)
    requires S.ClosedOk(s, number, rates) && HeaderOf(tracks, rates) && T.SegmentFits(s, |rates|)
    requires forall t :: 0 <= t < |rates| ==> rates[t] <= SECOND
    ensures SegmentFits(s, tracks)
  {
    hide S.FragmentOk, S.PartsSamples, S.Linked, T.TimesFit;
    forall p, t | 0 <= p < |s.parts| && t in s.parts[p].fragments && t < |tracks|
      ensures FragmentFits(s.parts[p].fragments[t], s.startDTS, tracks[t].timeScale)
    {
      assert S.PartOk(s.parts[p], s.startDTS, rates);
      var before, after := PartIsAStretch(s.parts, p, t);
      assert S.SegmentSamples(s, t) == before + S.PartSamples(s.parts[p], t) + after;
      StretchFits(before, S.PartSamples(s.parts[p], t), after);
    }
    hide FragmentFits;
  }

  // A sample every nanosecond at most: what keeps the rounding of each conversion within a tick.
  predicate RatesAreLow(tracks: seq<InitTrack>) {
    forall t :: 0 <= t < |tracks| ==> tracks[t].timeScale <= SECOND
  }

  // Consecutive segments of a recording, in the numbering of the recording.
  ghost predicate AreConsecutive(segments: seq<R.Segment>, from: nat, tracks: seq<InitTrack>) {
    forall i :: 0 <= i < |segments| ==>
      SegmentFits(segments[i], tracks) && segments[i].number == from + i && segments[i].curPart.None?
  }

  lemma SegmentHasATrack(s: R.Segment, number: nat, rates: seq<int>)
    requires S.ClosedOk(s, number, rates)
    ensures rates != []
  {
    assert S.PartOk(s.parts[0], s.startDTS, rates);
    var t :| t in s.parts[0].fragments;
  }

  lemma SegmentsOfARecording(r: R.Recorder, inputs: seq<RecorderRuns.Input>, from: nat, to: nat, tracks: seq<InitTrack>)
    requires RecorderRuns.IsNew(r) && RecorderRuns.Run(r, inputs).Some?
    requires from < to <= |RecorderRuns.Run(r, inputs).value.closed|
    requires HeaderOf(tracks, S.Rates(RecorderRuns.Run(r, inputs).value))
    requires T.InputsFit(inputs, |r.tracks|) && RatesAreLow(tracks)
    ensures AreConsecutive(RecorderRuns.Run(r, inputs).value.closed[from..to], from, tracks)
    ensures TracksOk(tracks) && tracks != []
  {
    RecorderRuns.RunKeepsInv(r, inputs);
    T.RecordedTimesFit(r, inputs);
    var e := RecorderRuns.Run(r, inputs).value;
    var segments := e.closed[from..to];
    hide RecorderRuns.Run, RecorderRuns.IsNew, T.InputsFit, T.PendingFits;
    assert S.SegmentsOk(e) && R.RatesOk(e.tracks);
    assert S.ClosedOk(e.closed[from], from, S.Rates(e));
    SegmentHasATrack(e.closed[from], from, S.Rates(e));
    hide S.Inv;
    forall i | 0 <= i < |segments|
      ensures SegmentFits(segments[i], tracks) && segments[i].number == from + i && segments[i].curPart.None?
    {
      assert segments[i] == e.closed[from + i];
      hide SegmentFits, T.SegmentFits;
      ClosedFits(e.closed[from + i], from + i, S.Rates(e), tracks);
    }
    hide S.SegmentsOk, SegmentFits, T.TimesInv;
  }

  // ---- the files of a recording ----

  // The files that the recorder made of the segments, with the tracks of each part in some order.
  ghost predicate AreFilesOf(
    files: seq<File>, segments: seq<R.Segment>, orders: seq<seq<seq<R.TrackId>>>, tracks: seq<InitTrack>,
    streamID: int) {
    && |files| == |segments| == |orders| >= 1
    && forall i :: 0 <= i < |files| ==> IsFileOf(files[i], segments[i], orders[i], tracks, streamID)
  }

  ghost predicate IsFileOf(f: File, s: R.Segment, orders: seq<seq<R.TrackId>>, tracks: seq<InitTrack>, streamID: int) {
    && f.init == Init(tracks, Some(Mtxi(streamID, s.number, s.startDTS, s.startNTP)))
    && AreOrders(orders, s.parts, tracks) && f.boxes == FileBoxes(s.parts, orders, tracks)
    && (forall k :: 0 <= k < |s.parts| ==> IsFullOrder(orders[k], s.parts[k]))
  }

  // ---- what a request covers ----

  // The sample is due at least a tick before the end of the request.
  predicate IsEarly(dts: int, zero: int, offset: int, rate: int, duration: int) {
    dts * SECOND - zero * rate + offset * rate + SECOND <= ToTicks(duration, rate) * SECOND
  }

  ghost predicate AllEarly(s: R.Segment, tracks: seq<InitTrack>, zero: int, offset: int, duration: int) {
    forall p, t, k ::
      0 <= p < |s.parts| && t in s.parts[p].fragments && t < |tracks| && 0 <= k < |s.parts[p].fragments[t].samples| ==>
      IsEarly(s.parts[p].fragments[t].samples[k].dts, zero, offset, tracks[t].timeScale, duration)
  }

  lemma EarlyIsCovered(s: R.Segment, tracks: seq<InitTrack>, zero: int, offset: int, duration: int, p: nat)
    requires SegmentFits(s, tracks) && AllEarly(s, tracks, zero, offset, duration) && p < |s.parts|
    ensures CoversPart(Request(tracks, s.startDTS - zero + offset, duration), s.parts[p])
  {
    var q := Request(tracks, s.startDTS - zero + offset, duration);
    assert PartFits(s.parts[p], s.startDTS, tracks);
    forall t | t in s.parts[p].fragments && t < |tracks|
      ensures Covers(q, s.parts[p].fragments[t], tracks[t].timeScale)
    {
      hide ToTicks, Handed, S.FragmentOk, S.Linked, T.TimesFit;
      var f, rate := s.parts[p].fragments[t], tracks[t].timeScale;
      var from, end := ToTicks(s.startDTS - zero + offset, rate), ToTicks(duration, rate);
      forall k | 0 <= k < |f.samples|
        ensures IsDueBefore(f, k, from, end)
      {
        assert IsEarly(f.samples[k].dts, zero, offset, rate, duration);
        ReplayError(f, s.startDTS, rate, k, zero, offset);
      }
      hide IsDueBefore;
    }
    hide Covers, SegmentFits, AllEarly;
  }

  // The request ends after all of the samples.
  ghost predicate Outlasts(segments: seq<R.Segment>, tracks: seq<InitTrack>, offset: int, duration: int) {
    forall i :: 0 <= i < |segments| ==> AllEarly(segments[i], tracks, segments[0].startDTS, offset, duration)
  }

  // ---- a whole replay ----

  // The clock of track u in a replay of these segments.
  function ClockOf(segments: seq<R.Segment>, tracks: seq<InitTrack>, offset: int, u: nat): Clock
    requires segments != [] && u < |tracks|
  {
    Clock(segments[0].startDTS, offset, tracks[u].timeScale)
  }

  lemma OneFile(
    f: File, s: R.Segment, orders: seq<seq<R.TrackId>>, tracks: seq<InitTrack>, streamID: int,
    duration: int, calls: P.History, u: nat, all: bool, c: Clock)
    requires TracksOk(tracks) && s.curPart.None? && u < |tracks| && c.rate == tracks[u].timeScale
    requires IsFileOf(f, s, orders, tracks, streamID) && SegmentFits(s, tracks)
    requires all ==> AllEarly(s, tracks, c.zero, c.offset, duration)
    ensures var r := Read(Request(tracks, s.startDTS - c.zero + c.offset, duration), f.boxes, calls);
            !r.Failed? && Plays(calls, r.r.calls, u, S.SegmentSamples(s, u), all, c)
  {
    hide AllEarly, CoversPart, TracksOk, Read, Plays, FileBoxes, PartFits;
    var q := Request(tracks, s.startDTS - c.zero + c.offset, duration);
    if all {
      forall p | 0 <= p < |s.parts| ensures CoversPart(q, s.parts[p]) {
        EarlyIsCovered(s, tracks, c.zero, c.offset, duration, p);
      }
    }
    FilePlays(q, calls, s.startDTS, s.parts, orders, u, all, c);
    assert S.SegmentSamples(s, u) == S.PartsSamples(s.parts, u);
  }

  // The next file is one that can follow, and it is read from where it starts in the replay.
  lemma NextFile(files: seq<File>, segments: seq<R.Segment>, orders: seq<seq<seq<R.TrackId>>>, tracks: seq<InitTrack>,
      streamID: int, from: nat, i: nat, prevEnd: int, start: int)
    requires AreFilesOf(files, segments, orders, tracks, streamID) && 0 < i < |files|
    requires AreConsecutive(segments, from, tracks) && from + |files| <= TWO_64
    ensures CanBeConcatenated(files[i - 1].init, prevEnd, files[i].init, files[i].start)
    ensures files[0].init.mtxi.Some? && files[i].init.mtxi.Some?
    ensures StartOf(files[0], files[i], start) == segments[i].startDTS - segments[0].startDTS + (files[0].start - start)
  {
    assert IsFileOf(files[0], segments[0], orders[0], tracks, streamID);
    assert IsFileOf(files[i - 1], segments[i - 1], orders[i - 1], tracks, streamID);
    assert IsFileOf(files[i], segments[i], orders[i], tracks, streamID);
    hide IsFullOrder, AreOrders, FileBoxes, SegmentFits;
    assert segments[i - 1].number == from + (i - 1) && segments[i].number == from + i;
  }

  lemma {:induction false} SeekPlays(
    files: seq<File>, segments: seq<R.Segment>, orders: seq<seq<seq<R.TrackId>>>, tracks: seq<InitTrack>, streamID: int,
    from: nat, n: nat, start: int, duration: int, u: nat, all: bool)
    requires AreFilesOf(files, segments, orders, tracks, streamID) && TracksOk(tracks) && u < |tracks|
    requires AreConsecutive(segments, from, tracks) && from + |files| <= TWO_64
    requires all ==> Outlasts(segments, tracks, files[0].start - start, duration)
    requires 1 <= n <= |files|
    ensures Readable(files)
    ensures var s := Seek(files, n, start, duration);
            && s.Muxing?
            && Plays(P.Begin, s.calls, u, S.SegmentsSamples(segments[..n], u), all,
                     ClockOf(segments, tracks, files[0].start - start, u))
  {
    hide AreFilesOf, AreConsecutive, TracksOk, Read, Plays, CanBeConcatenated, StartOf, Readable, Outlasts,
        S.SegmentsSamples;
    FilesAreReadable(files, segments, orders, tracks, streamID);
    var i, c := n - 1, ClockOf(segments, tracks, files[0].start - start, u);
    OneMoreSegment(segments, i, u);
    if n == 1 {
      FileAt(files, segments, orders, tracks, streamID, from, 0, start, duration, P.Begin, u, all);
    } else {
      SeekPlays(files, segments, orders, tracks, streamID, from, i, start, duration, u, all);
      var s := Seek(files, i, start, duration);
      NextFile(files, segments, orders, tracks, streamID, from, i, s.segmentEnd, start);
      FileAt(files, segments, orders, tracks, streamID, from, i, start, duration, s.calls, u, all);
      PlaysThen(P.Begin, s.calls, Seek(files, n, start, duration).calls, u, S.SegmentsSamples(segments[..i], u),
                S.SegmentSamples(segments[i], u), all, c);
    }
  }

  lemma FilesAreReadable(files: seq<File>, segments: seq<R.Segment>, orders: seq<seq<seq<R.TrackId>>>,
      tracks: seq<InitTrack>, streamID: int)
    requires AreFilesOf(files, segments, orders, tracks, streamID) && TracksOk(tracks)
    ensures |files| == |segments| >= 1 && Readable(files) && files[0].init.tracks == tracks
    ensures files[0].init.mtxi.Some?
  {
    assert IsFileOf(files[0], segments[0], orders[0], tracks, streamID);
    hide IsFullOrder, AreOrders, FileBoxes;
  }

  lemma OneMoreSegment(segments: seq<R.Segment>, i: nat, u: nat)
    requires i < |segments|
    ensures S.SegmentsSamples(segments[..i + 1], u)
         == S.SegmentsSamples(segments[..i], u) + S.SegmentSamples(segments[i], u)
    ensures i == 0 ==> S.SegmentsSamples(segments[..i + 1], u) == S.SegmentSamples(segments[i], u)
  {
    S.SegmentsAppend(segments[..i], segments[i], u);
    assert segments[..i + 1] == segments[..i] + [segments[i]];
  }

  lemma FileAt(files: seq<File>, segments: seq<R.Segment>, orders: seq<seq<seq<R.TrackId>>>, tracks: seq<InitTrack>,
      streamID: int, from: nat, i: nat, start: int, duration: int, calls: P.History, u: nat, all: bool)
    requires AreFilesOf(files, segments, orders, tracks, streamID) && TracksOk(tracks) && u < |tracks| && i < |files|
    requires AreConsecutive(segments, from, tracks)
    requires all ==> Outlasts(segments, tracks, files[0].start - start, duration)
    ensures var c := ClockOf(segments, tracks, files[0].start - start, u);
            var r := Read(Request(tracks, segments[i].startDTS - c.zero + c.offset, duration), files[i].boxes, calls);
            !r.Failed? && Plays(calls, r.r.calls, u, S.SegmentSamples(segments[i], u), all, c)
  {
    hide Read, SegmentFits, IsFileOf, AllEarly, TracksOk, S.SegmentSamples, Plays;
    assert IsFileOf(files[i], segments[i], orders[i], tracks, streamID);
    OneFile(files[i], segments[i], orders[i], tracks, streamID, duration, calls, u, all,
            ClockOf(segments, tracks, files[0].start - start, u));
  }

  // The files are those of a run of the recorder: of its closed segments from one to another.
  ghost predicate AreRecorded(r: R.Recorder, inputs: seq<RecorderRuns.Input>, from: nat, to: nat,
      files: seq<File>, orders: seq<seq<seq<R.TrackId>>>, tracks: seq<InitTrack>, streamID: int) {
    && RecorderRuns.IsNew(r) && RecorderRuns.Run(r, inputs).Some?
    && from < to <= |RecorderRuns.Run(r, inputs).value.closed| < TWO_64
    && HeaderOf(tracks, S.Rates(RecorderRuns.Run(r, inputs).value)) && RatesAreLow(tracks)
    && T.InputsFit(inputs, |r.tracks|)
    && AreFilesOf(files, RecorderRuns.Run(r, inputs).value.closed[from..to], orders, tracks, streamID)
  }

  lemma RecordingPlays(
    r: R.Recorder, inputs: seq<RecorderRuns.Input>, from: nat, to: nat, files: seq<File>,
    orders: seq<seq<seq<R.TrackId>>>, tracks: seq<InitTrack>, streamID: int, start: int, duration: int, u: nat,
    all: bool)
    requires AreRecorded(r, inputs, from, to, files, orders, tracks, streamID) && u < |tracks|
    requires var segments := RecorderRuns.Run(r, inputs).value.closed[from..to];
             all ==> Outlasts(segments, tracks, files[0].start - start, duration)
    ensures Readable(files) && TracksOk(tracks)
    ensures var segments := RecorderRuns.Run(r, inputs).value.closed[from..to];
            var s, rec := Seek(files, |files|, start, duration), S.SegmentsSamples(segments, u);
            && s.Muxing?
            && IsReplayOf(P.Fed(s.calls, u), rec, ClockOf(segments, tracks, files[0].start - start, u))
            && (all ==> |P.Fed(s.calls, u)| == |rec|)
  {
    SegmentsOfARecording(r, inputs, from, to, tracks);
    var segments := RecorderRuns.Run(r, inputs).value.closed[from..to];
    hide RecorderRuns.Run, RecorderRuns.IsNew, T.InputsFit, AreConsecutive, TracksOk, HeaderOf, AreFilesOf, Outlasts,
        Seek, IsReplayOf, IsFileOf;
    NumbersOfFiles(files, segments, orders, tracks, streamID);
    SeekPlays(files, segments, orders, tracks, streamID, from, |files|, start, duration, u, all);
    assert segments[..|files|] == segments;
    var fed := P.Fed(Seek(files, |files|, start, duration).calls, u);
    assert P.Fed(P.Begin, u) == [] && fed[0..] == fed;
  }

  lemma NumbersOfFiles(files: seq<File>, segments: seq<R.Segment>, orders: seq<seq<seq<R.TrackId>>>,
      tracks: seq<InitTrack>, streamID: int)
    requires AreFilesOf(files, segments, orders, tracks, streamID)
    ensures |files| == |segments| >= 1
  {
  }

  // Any run of the recorder, any of its consecutive files, any request: what is handed over for a track is a
  // subsequence of what was recorded, and however many samples came before one, its time is off by less than 3 ticks.
  lemma ReplayOfARecording(
    r: R.Recorder, inputs: seq<RecorderRuns.Input>, from: nat, to: nat, files: seq<File>,
    orders: seq<seq<seq<R.TrackId>>>, tracks: seq<InitTrack>, streamID: int, start: int, duration: int, u: nat)
    requires AreRecorded(r, inputs, from, to, files, orders, tracks, streamID) && u < |tracks|
    ensures Readable(files)
    ensures var segments := RecorderRuns.Run(r, inputs).value.closed[from..to];
            var s := Seek(files, |files|, start, duration);
            && s.Muxing?
            && IsReplayOf(P.Fed(s.calls, u), S.SegmentsSamples(segments, u),
                          ClockOf(segments, tracks, files[0].start - start, u))
  {
    RecordingPlays(r, inputs, from, to, files, orders, tracks, streamID, start, duration, u, false);
  }

  // A request that outlasts the files gives back, for each track, every sample in them, in order and once: the k-th
  // sample handed over is the k-th recorded one, with its flags and nearly at its time.
  lemma ReplayReturnsTheRecording(
    r: R.Recorder, inputs: seq<RecorderRuns.Input>, from: nat, to: nat, files: seq<File>,
    orders: seq<seq<seq<R.TrackId>>>, tracks: seq<InitTrack>, streamID: int, start: int, duration: int, u: nat)
    requires AreRecorded(r, inputs, from, to, files, orders, tracks, streamID) && u < |tracks|
    requires Outlasts(RecorderRuns.Run(r, inputs).value.closed[from..to], tracks, files[0].start - start, duration)
    ensures Readable(files)
    ensures var segments := RecorderRuns.Run(r, inputs).value.closed[from..to];
            var s, rec := Seek(files, |files|, start, duration), S.SegmentsSamples(segments, u);
            && s.Muxing? && |P.Fed(s.calls, u)| == |rec|
            && forall k :: 0 <= k < |rec| ==>
                 IsSampleOf(P.Fed(s.calls, u)[k], rec[k], ClockOf(segments, tracks, files[0].start - start, u))
  {
    RecordingPlays(r, inputs, from, to, files, orders, tracks, streamID, start, duration, u, true);
    var segments := RecorderRuns.Run(r, inputs).value.closed[from..to];
    hide RecorderRuns.Run, AreRecorded, IsSampleOf, Outlasts, IsReplayOf, Seek;
    WholeReplay(P.Fed(Seek(files, |files|, start, duration).calls, u), S.SegmentsSamples(segments, u),
                ClockOf(segments, tracks, files[0].start - start, u));
  }
}
