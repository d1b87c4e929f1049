/** When a recording closes a segment, what the next one starts from, and which recordings are given up. */
module RecorderCuts {
  import opened Wrappers
  import opened Arith
  import opened RecorderState
  import opened RecorderSafety
  import opened RecorderRuns
  import opened RecorderStarts

  ghost predicate VideoWasFed(r: Recorder)
    requires |r.fed| == |r.tracks|
  {
    exists u :: 0 <= u < |r.tracks| && r.tracks[u].isVideo && r.fed[u] != []
  }

  // The recorder knows whether it has been given video.
  ghost predicate KnowsVideo(r: Recorder) {
    |r.fed| == |r.tracks| && (r.hasVideo <==> VideoWasFed(r))
  }

  lemma WriteKnowsVideo(r: Recorder, t: TrackId, sample: Sample)
    requires ValidTrack(r, t) && KnowsVideo(r)
    ensures KnowsVideo(Write(r, t, sample).0)
  {
    WriteKeepsTracks(r, t, sample);
    WriteFeeds(r, t, sample);
    hide Write;
    var w := Write(r, t, sample).0;
    if VideoWasFed(r) {
      var u :| 0 <= u < |r.tracks| && r.tracks[u].isVideo && r.fed[u] != [];
      assert w.tracks[u].isVideo && w.fed[u] != [];
    }
    if VideoWasFed(w) {
      var u :| 0 <= u < |w.tracks| && w.tracks[u].isVideo && w.fed[u] != [];
      assert r.tracks[u].isVideo && (u != t ==> r.fed[u] != []);
    }
    assert r.tracks[t].isVideo ==> w.tracks[t].isVideo && w.fed[t] != [];
  }

  lemma {:induction false} RunKnowsVideo(r: Recorder, inputs: seq<Input>)
    requires IsNew(r) && Run(r, inputs).Some?
    ensures KnowsVideo(Run(r, inputs).value)
  {
    if inputs != [] {
      var n := |inputs| - 1;
      RunKnowsVideo(r, inputs[..n]);
      hide Write, KnowsVideo, IsNew;
      WriteKnowsVideo(Run(r, inputs[..n]).value, inputs[n].track, inputs[n].sample);
    }
  }

  // Where the segment starts that a write stores into: the open one, or one that starts with the stored sample.
  function StartBefore(r: Recorder, t: TrackId): int
    requires ValidTrack(r, t) && r.tracks[t].nextSample.Some?
  {
    if r.current.Some? then r.current.value.startDTS else PendingDTS(r.tracks[t])
  }

  // The sample that now waits is sync and late enough, and no video track has the say.
  ghost predicate IsTimeToCut(r: Recorder, t: TrackId, w: Recorder)
    requires ValidTrack(r, t) && ValidTrack(w, t) && r.tracks[t].nextSample.Some? && w.tracks[t].nextSample.Some?
  {
    && !w.tracks[t].nextSample.value.isNonSync
    && PendingDTS(w.tracks[t]) - StartBefore(r, t) >= r.settings.segmentDuration
    && (r.tracks[t].isVideo || !VideoWasFed(w))
  }

  // The new segment starts from the oldest pending sample near the newest one, if a pending sample is recent.
  ghost predicate StartsFromPending(w: Recorder)
    requires RatesOk(w.tracks) && w.current.Some?
  {
    var start := Start(w.current.value.startNTP, w.current.value.startDTS);
    if HasRecent(w.tracks) then HasOldest(w.tracks, NewestPending(w.tracks), start) else start == Start(ZERO_TIME, 0)
  }

  lemma CutCloses(r: Recorder, t: TrackId)
    requires ValidTrack(r, t) && r.tracks[t].nextSample.Some? && r.current.Some?
    ensures var c, next := Cut(r, t), r.tracks[t].nextSample.value;
            var cuts := !next.isNonSync && (r.tracks[t].isVideo || !r.hasVideo)
                        && PendingDTS(r.tracks[t]) - r.current.value.startDTS >= r.settings.segmentDuration;
            && c.tracks == r.tracks && c.fed == r.fed && c.hasVideo == r.hasVideo && c.current.Some?
            && |c.closed| == |r.closed| + (if cuts then 1 else 0) && c.closed[..|r.closed|] == r.closed
            && (if cuts then StartsFromPending(c) else c == r)
  {
    StartIsAPendingSampleExactly(r.tracks);
    hide NextSegmentStartingPos, ToDuration, SegmentClose, HasRecent, HasOldest, NewestPending;
  }

  // A write that stores its sample does so in the prepared recorder, and then cuts if it is time to.
  lemma WriteStores(r: Recorder, t: TrackId, sample: Sample)
    requires ValidTrack(r, t) && r.tracks[t].nextSample.Some?
    ensures var p, ready := Prepare(r, t, sample), Ready(r, t, sample);
            var (w, outcome) := Write(r, t, sample);
            && ValidTrack(p, t) && p.current.Some? && p.tracks[t].nextSample.Some? && p.closed == r.closed
            && p.settings == r.settings && p.hasVideo == (r.hasVideo || r.tracks[t].isVideo)
            && p.tracks[t].rate == r.tracks[t].rate && p.tracks[t].isVideo == r.tracks[t].isVideo
            && p.current.value.startDTS == StartBefore(r, t)
            && (if r.current.Some? then p.current == r.current
                else p.current == Some(NewSegment(StartBefore(r, t), r.tracks[t].nextSample.value.ntp,
                                                  r.nextSegmentNumber, false)))
            && var dts := ToDuration(ready.dts, r.tracks[t].rate);
               if outcome == Written
               then Store(p, t, ready, dts).1 && w == Cut(Store(p, t, ready, dts).0, t)
               else w.closed == r.closed && w.tracks[t].nextSample.Some?
                    && (outcome == Discarded ==> w.current == p.current)
                    && (outcome == PartTooBig ==> !Store(p, t, ready, dts).1)
  {
    var ready := Ready(r, t, sample);
    StoreKeepsStart(Prepare(r, t, sample), t, ready, ToDuration(ready.dts, r.tracks[t].rate));
    hide ToDuration, Drifts, Store, Cut;
  }

  // A write that stores its sample closes one segment if and only if the sample that now waits for its successor is
  // sync, late enough, and of a video track unless no video was given so far. No other write closes one.
  lemma WriteClosesExactly(r: Recorder, t: TrackId, sample: Sample)
    requires ValidTrack(r, t) && KnowsVideo(r)
    ensures var (w, outcome) := Write(r, t, sample);
            && ValidTrack(w, t) && w.tracks[t].nextSample.Some? && (outcome == Written ==> r.tracks[t].nextSample.Some?)
            && (if outcome == Written && IsTimeToCut(r, t, w)
                then w.current.Some? && |w.closed| == |r.closed| + 1 && w.closed[..|r.closed|] == r.closed
                     && StartsFromPending(w)
                else w.closed == r.closed)
  {
    hide ToDuration, Drifts, Store, Cut, StartsFromPending, Write, VideoWasFed, Prepare, Ready;
    WriteKnowsVideo(r, t, sample);
    WriteFeeds(r, t, sample);
    if r.tracks[t].nextSample.Some? {
      var p, ready := Prepare(r, t, sample), Ready(r, t, sample);
      var dts := ToDuration(ready.dts, r.tracks[t].rate);
      WriteStores(r, t, sample);
      StoreKeepsStart(p, t, ready, dts);
      CutCloses(Store(p, t, ready, dts).0, t);
    } else {
      FirstSampleWaits(r, t, sample);
    }
  }

  lemma FirstSampleWaits(r: Recorder, t: TrackId, sample: Sample)
    requires ValidTrack(r, t) && r.tracks[t].nextSample.None?
    ensures var (w, outcome) := Write(r, t, sample);
            outcome == Buffered && w.closed == r.closed && w.tracks[t].nextSample == Some(sample)
  {
  }

  // Over runs: after any error-free run, the next write closes one segment if and only if it stores its sample and the
  // condition holds; once video was given, only a video track closes one.
  lemma SegmentsAreClosedExactly(r: Recorder, inputs: seq<Input>, t: TrackId, sample: Sample)
    requires IsNew(r) && Run(r, inputs).Some? && ValidTrack(Run(r, inputs).value, t)
    requires !Write(Run(r, inputs).value, t, sample).1.IsError()
    ensures var b := Run(r, inputs).value;
            var (w, outcome) := Write(b, t, sample);
            && Run(r, inputs + [Input(t, sample)]) == Some(w)
            && ValidTrack(w, t) && w.tracks[t].nextSample.Some? && (outcome == Written ==> b.tracks[t].nextSample.Some?)
            && (if outcome == Written && IsTimeToCut(b, t, w)
                then |w.closed| == |b.closed| + 1 && w.closed[..|b.closed|] == b.closed
                     && w.current.Some? && StartsFromPending(w)
                else w.closed == b.closed)
            && (w.closed != b.closed && VideoWasFed(w) ==> w.tracks[t].isVideo)
  {
    RunKnowsVideo(r, inputs);
    var b, more := Run(r, inputs).value, inputs + [Input(t, sample)];
    assert more[..|inputs|] == inputs;
    WriteKeepsTracks(b, t, sample);
    hide Write, KnowsVideo, IsNew, VideoWasFed, StartsFromPending, ToDuration;
    WriteClosesExactly(b, t, sample);
    hide ValidTrack;
  }

  // The segment that a write opens starts with the sample it stores.
  lemma SegmentOpensWithItsSample(r: Recorder, t: TrackId, sample: Sample)
    requires ValidTrack(r, t) && r.current.None? && Write(r, t, sample).1 == Written && r.tracks[t].nextSample.Some?
    requires Write(r, t, sample).0.closed == r.closed
    ensures var w := Write(r, t, sample).0;
            && w.current.Some? && w.current.value.startDTS == PendingDTS(r.tracks[t])
            && w.current.value.startNTP == r.tracks[t].nextSample.value.ntp
            && w.current.value.number == r.nextSegmentNumber == w.nextSegmentNumber - 1
  {
    hide ToDuration, Drifts, PartWrite, NextSegmentStartingPos, SegmentClose;
  }

  // ---- drift ----

  // Once a sample of the track was taken, the track remembers where its first one was in both clocks.
  predicate RemembersStart(tr: Track, fed: seq<Sample>)
    requires tr.rate > 0
  {
    && (tr.nextSample.Some? <==> fed != [])
    && (tr.nextSample.Some? ==> tr.nextSample.value.ntp == fed[|fed| - 1].ntp)
    && (|fed| == 1 ==> tr.nextSample == Some(fed[0]))
    && (tr.startInitialized <==> |fed| > 1)
    && (tr.startInitialized ==> tr.startDTS == ToDuration(fed[0].dts, tr.rate) && tr.startNTP == fed[0].ntp)
  }

  ghost predicate StartsRemembered(r: Recorder) {
    && RatesOk(r.tracks) && |r.fed| == |r.tracks|
    && forall t :: 0 <= t < |r.tracks| ==> RemembersStart(r.tracks[t], r.fed[t])
  }

  lemma WriteRemembersStart(r: Recorder, t: TrackId, sample: Sample)
    requires ValidTrack(r, t) && RemembersStart(r.tracks[t], r.fed[t]) && !Write(r, t, sample).1.IsError()
    ensures var w := Write(r, t, sample).0; ValidTrack(w, t) && RemembersStart(w.tracks[t], w.fed[t])
  {
    hide ToDuration, Drifts, SegmentWrite, NextSegmentStartingPos, SegmentClose;
  }

  lemma {:induction false} RunRemembersStarts(r: Recorder, inputs: seq<Input>)
    requires IsNew(r) && Run(r, inputs).Some?
    ensures StartsRemembered(Run(r, inputs).value)
  {
    if inputs != [] {
      var n := |inputs| - 1;
      RunRemembersStarts(r, inputs[..n]);
      var b, t := Run(r, inputs[..n]).value, inputs[n].track;
      hide Write, RemembersStart, IsNew;
      WriteRemembersStart(b, t, inputs[n].sample);
      WriteKeepsTracks(b, t, inputs[n].sample);
      WriteFeeds(b, t, inputs[n].sample);
    }
  }

  // A recording is given up for drift exactly when, since the first sample of the track, its decode times and its dates
  // have moved apart by more than 5 s.
  lemma DriftsExactly(r: Recorder, inputs: seq<Input>, t: TrackId, sample: Sample)
    requires IsNew(r) && Run(r, inputs).Some? && ValidTrack(Run(r, inputs).value, t)
    ensures var b := Run(r, inputs).value;
            Write(b, t, sample).1 == Drifted <==>
              && b.fed[t] != [] && b.tracks[t].nextSample.Some?
              && var first, pending := b.fed[t][0], b.tracks[t].nextSample.value;
                 var byDate := pending.ntp - first.ntp;
                 var byTime := PendingDTS(b.tracks[t]) - ToDuration(first.dts, b.tracks[t].rate);
                 byDate - byTime > 5_000_000_000 || byTime - byDate > 5_000_000_000
  {
    RunRemembersStarts(r, inputs);
    var b := Run(r, inputs).value;
    assert RemembersStart(b.tracks[t], b.fed[t]);
    hide ToDuration, SegmentWrite, NextSegmentStartingPos, SegmentClose, Run, IsNew;
  }
}
