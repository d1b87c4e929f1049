/** Recordings over whole runs: the invariant is kept by every write that does not fail. */
module RecorderRuns {
  import opened Wrappers
  import opened Arith
  import opened RecorderState
  import opened RecorderSafety

  // Between taking a sample out of the lookahead and storing or discarding it.
  ghost predicate Between(r: Recorder, t: TrackId, ready: Sample) {
    && ValidTrack(r, t) && r.current.Some?
    && (forall u :: 0 <= u < |r.tracks| && u != t ==> TrackOk(r, u))
    && ReadyOk(r, t, ready)
    && (forall i :: 0 <= i < |r.closed| ==> ClosedOk(r.closed[i], i, Rates(r)))
    && r.nextSegmentNumber == |r.closed| + 1 == r.current.value.number + 1
    && SegmentOk(r.current.value, Rates(r))
    && (forall u :: 0 <= u < |r.tracks| && u != t ==> PendingOk(r.current.value, r.tracks, u))
    && Follows(r.current.value, t, ready.dts, r.tracks[t].rate)
  }

  ghost predicate ReadyOk(r: Recorder, t: TrackId, ready: Sample)
    requires ValidTrack(r, t)
  {
    var n := |r.fed[t]|;
    && n >= 2
    && r.tracks[t].nextSample == Some(Clamped(r.fed[t])[n - 1])
    && LinkedTo(ready, Clamped(r.fed[t])[n - 1].dts)
    && Kept(r.fed[t], r.dropped[t]) == Recorded(r, t) + [ready]
    && Kept(r.fed[t], r.dropped[t] + {n - 2}) == Recorded(r, t)
    && (forall i :: i in r.dropped[t] ==> 0 <= i < n - 2)
  }

  ghost predicate SameRates(r: Recorder, s: Recorder) {
    |r.tracks| == |s.tracks| && forall i :: 0 <= i < |r.tracks| ==> r.tracks[i].rate == s.tracks[i].rate
  }

  lemma RatesAgree(r: Recorder, s: Recorder)
    requires SameRates(r, s)
    ensures Rates(r) == Rates(s)
  {
  }

  predicate SameRecording(r: Recorder, s: Recorder) {
    && s.closed == r.closed
    && (s.current == r.current || (r.current.None? && s.current.Some? && s.current.value.parts == []
        && s.current.value.curPart.None?))
  }

  lemma RecordedAgrees(r: Recorder, s: Recorder, t: TrackId)
    requires SameRecording(r, s)
    ensures Recorded(s, t) == Recorded(r, t)
  {
  }

  lemma OtherTrack(r: Recorder, s: Recorder, t: TrackId)
    requires t < |r.tracks| == |r.fed| == |r.dropped| && |s.tracks| == |s.fed| == |s.dropped| == |r.tracks|
    requires r.tracks[t].nextSample == s.tracks[t].nextSample && r.fed[t] == s.fed[t] && r.dropped[t] == s.dropped[t]
    requires Recorded(r, t) == Recorded(s, t) && TrackOk(r, t)
    ensures TrackOk(s, t)
  {
    hide Recorded, Kept, Clamped;
  }

  lemma SegmentsAgree(r: Recorder, s: Recorder)
    requires RatesOk(r.tracks) && RatesOk(s.tracks) && SegmentsOk(r) && SameRates(r, s)
    requires s.closed == r.closed && s.current == r.current && s.nextSegmentNumber == r.nextSegmentNumber
    requires s.current.Some? ==> forall t :: 0 <= t < |s.tracks| ==> PendingOk(s.current.value, s.tracks, t)
    ensures SegmentsOk(s)
  {
    RatesAgree(r, s);
    hide Rates, SegmentOk, ClosedOk, PendingOk;
  }

  // The first sample of a track is only kept in the lookahead.
  lemma BufferedKeeps(r: Recorder, t: TrackId, sample: Sample)
    requires Inv(r) && ValidTrack(r, t) && r.tracks[t].nextSample.None?
    ensures Inv(Feed(r, t, sample))
  {
    BufferedTracks(r, t, sample);
    var f := Feed(r, t, sample);
    forall u | r.current.Some? && 0 <= u < |f.tracks|
      ensures PendingOk(r.current.value, f.tracks, u)
    {
      assert PendingOk(r.current.value, r.tracks, u);
      hide SegmentSamples, ToDuration, ClosedOk, SegmentOk, TrackOk;
    }
    hide PendingOk, ClosedOk, SegmentOk, TrackOk;
    SegmentsAgree(r, f);
  }

  lemma BufferedTracks(r: Recorder, t: TrackId, sample: Sample)
    requires Inv(r) && ValidTrack(r, t) && r.tracks[t].nextSample.None?
    ensures TracksOk(Feed(r, t, sample)) && SameRates(r, Feed(r, t, sample))
  {
    hide SegmentsOk;
    var f := Feed(r, t, sample);
    assert TrackOk(r, t) && f.fed[t] == [sample];
    hide Recorded;
    forall u | 0 <= u < |f.tracks|
      ensures TrackOk(f, u)
    {
      RecordedAgrees(r, f, u);
      if u != t {
        OtherTrack(r, f, u);
      }
    }
    hide TrackOk;
  }

  // What happens before the pending sample is stored.
  function Prepare(r: Recorder, t: TrackId, sample: Sample): Recorder
    requires ValidTrack(r, t) && r.tracks[t].nextSample.Some?
  {
    var ready := Ready(r, t, sample);
    var dts := ToDuration(ready.dts, r.tracks[t].rate);
    Open(Initialize(Feed(r, t, sample), t, ready, dts), ready, dts)
  }

  lemma PrepareTracks(r: Recorder, t: TrackId, sample: Sample)
    requires Inv(r) && ValidTrack(r, t) && r.tracks[t].nextSample.Some?
    ensures var p := Prepare(r, t, sample);
            && ValidTrack(p, t) && ReadyOk(p, t, Ready(r, t, sample)) && SameRates(r, p)
            && forall u :: 0 <= u < |p.tracks| && u != t ==> TrackOk(p, u)
  {
    hide ToDuration, SegmentsOk, Recorded, Kept, Clamped;
    var p := Prepare(r, t, sample);
    assert TrackOk(r, t);
    RecordedAgrees(r, p, t);
    forall u | 0 <= u < |p.tracks| && u != t
      ensures TrackOk(p, u)
    {
      RecordedAgrees(r, p, u);
      OtherTrack(r, p, u);
    }
    hide TrackOk;
    KeptStep(r.fed[t], sample, r.dropped[t]);
  }

  lemma FreshSegmentOk(s: Segment, tracks: seq<Track>, rates: seq<int>)
    requires s.parts == [] && s.curPart.None? && RatesOk(tracks)
    ensures SegmentOk(s, rates)
    ensures forall u, dts, rate | 0 < rate :: Follows(s, u, dts, rate)
    ensures forall u :: 0 <= u < |tracks| ==> PendingOk(s, tracks, u)
  {
    assert forall u :: SegmentSamples(s, u) == [];
  }

  // The lookahead never changes what the other tracks wait for, and a segment is opened only when there is none.
  lemma PrepareIs(r: Recorder, t: TrackId, sample: Sample)
    requires ValidTrack(r, t) && r.tracks[t].nextSample.Some?
    ensures var p, ready := Prepare(r, t, sample), Ready(r, t, sample);
            && SameRates(r, p) && p.closed == r.closed && p.current.Some?
            && (forall u :: 0 <= u < |p.tracks| && u != t ==> p.tracks[u] == r.tracks[u])
            && LinkedTo(ready, p.tracks[t].nextSample.value.dts) && ready.dts == r.tracks[t].nextSample.value.dts
            && (if r.current.Some? then p.current == r.current && p.nextSegmentNumber == r.nextSegmentNumber
                else && p.current.value.parts == [] && p.current.value.curPart.None?
                     && p.current.value.number == r.nextSegmentNumber == p.nextSegmentNumber - 1)
  {
    hide ToDuration;
  }

  lemma PrepareIsBetween(r: Recorder, t: TrackId, sample: Sample)
    requires Inv(r) && ValidTrack(r, t) && r.tracks[t].nextSample.Some?
    ensures Between(Prepare(r, t, sample), t, Ready(r, t, sample))
  {
    PrepareTracks(r, t, sample);
    PrepareIs(r, t, sample);
    var p, ready := Prepare(r, t, sample), Ready(r, t, sample);
    RatesAgree(r, p);
    hide TracksOk, ReadyOk, ClosedOk, SegmentOk, Rates, TrackOk, Prepare, Ready, Follows, ToDuration, LinkedTo,
        SegmentSamples;
    if r.current.None? {
      FreshSegmentOk(p.current.value, p.tracks, Rates(p));
      hide PendingOk;
    } else {
      var s := r.current.value;
      assert PendingOk(s, r.tracks, t);
      forall u | 0 <= u < |p.tracks| && u != t
        ensures PendingOk(s, p.tracks, u)
      {
        assert PendingOk(s, r.tracks, u);
      }
    }
  }

  lemma DiscardKeeps(r: Recorder, t: TrackId, ready: Sample)
    requires Between(r, t, ready)
    requires ToDuration(ready.dts, r.tracks[t].rate) < r.current.value.startDTS
    ensures SegmentSamples(r.current.value, t) == []
    ensures Inv(Discard(r, t))
  {
    DiscardTracks(r, t, ready);
    TooLate(r.current.value, r.tracks, t, ready.dts);
    hide TracksOk, TrackOk, ClosedOk, SegmentOk, Rates, ToDuration, SegmentSamples, PendingOk, Follows, ReadyOk;
    RatesAgree(r, Discard(r, t));
  }

  lemma TooLate(s: Segment, tracks: seq<Track>, t: TrackId, dts: int)
    requires t < |tracks| && RatesOk(tracks) && Follows(s, t, dts, tracks[t].rate)
    requires ToDuration(dts, tracks[t].rate) < s.startDTS
    ensures SegmentSamples(s, t) == [] && PendingOk(s, tracks, t)
  {
    hide SegmentSamples, ToDuration;
  }

  lemma DiscardTracks(r: Recorder, t: TrackId, ready: Sample)
    requires Between(r, t, ready)
    ensures TracksOk(Discard(r, t))
  {
    hide Recorded, Kept, Clamped, SegmentOk, ClosedOk, Rates, ToDuration, PendingOk, Follows, LinkedTo;
    var d := Discard(r, t);
    forall u | 0 <= u < |r.tracks|
      ensures TrackOk(d, u)
    {
      RecordedAgrees(r, d, u);
      if u != t {
        OtherTrack(r, d, u);
      }
    }
    hide TrackOk, ReadyOk;
  }

  lemma StoreKeeps(r: Recorder, t: TrackId, ready: Sample)
    requires Between(r, t, ready)
    requires r.current.value.startDTS <= ToDuration(ready.dts, r.tracks[t].rate)
    requires Store(r, t, ready, ToDuration(ready.dts, r.tracks[t].rate)).1
    ensures var s := Store(r, t, ready, ToDuration(ready.dts, r.tracks[t].rate)).0;
            Inv(s) && s.current.value.curPart.Some?
  {
    StoreTracks(r, t, ready);
    StoreSegments(r, t, ready);
  }

  lemma StoreTracks(r: Recorder, t: TrackId, ready: Sample)
    requires Between(r, t, ready)
    requires Store(r, t, ready, ToDuration(ready.dts, r.tracks[t].rate)).1
    ensures var s := Store(r, t, ready, ToDuration(ready.dts, r.tracks[t].rate)).0; TracksOk(s)
  {
    hide Kept, Clamped, SegmentOk, ClosedOk, Rates, SegmentSamples, SegmentsSamples, ToDuration, SegmentWrite,
        Follows, LinkedTo, PendingOk;
    var dts := ToDuration(ready.dts, r.tracks[t].rate);
    var s := Store(r, t, ready, dts).0;
    forall u | 0 <= u < |r.tracks| ensures TrackOk(s, u) {
      SegmentWriteAppends(r.current.value, r.settings, t, r.tracks[t].rate, ready, dts, u);
      if u != t {
        assert TrackOk(r, u);
        assert SegmentSamples(r.current.value, u) + [] == SegmentSamples(r.current.value, u);
      } else {
        assert Recorded(s, t) == Recorded(r, t) + [ready];
      }
    }
  }

  lemma StoreSegments(r: Recorder, t: TrackId, ready: Sample)
    requires Between(r, t, ready)
    requires r.current.value.startDTS <= ToDuration(ready.dts, r.tracks[t].rate)
    requires Store(r, t, ready, ToDuration(ready.dts, r.tracks[t].rate)).1
    ensures var s := Store(r, t, ready, ToDuration(ready.dts, r.tracks[t].rate)).0;
            SegmentsOk(s) && s.current.value.curPart.Some?
  {
    hide SegmentOk, ClosedOk, TrackOk, SegmentWrite, PendingOk, ReadyOk, ToDuration;
    var s := Store(r, t, ready, ToDuration(ready.dts, r.tracks[t].rate)).0;
    RatesAgree(r, s);
    SegmentWriteOk(r.current.value, r.settings, t, ready, Rates(r));
    forall u | 0 <= u < |s.tracks| ensures PendingOk(s.current.value, s.tracks, u) {
      StorePending(r, t, ready, u);
    }
  }

  // The stored sample is the last one of its track, and its successor is pending.
  lemma StorePending(r: Recorder, t: TrackId, ready: Sample, u: TrackId)
    requires Between(r, t, ready) && u < |r.tracks|
    requires r.current.value.startDTS <= ToDuration(ready.dts, r.tracks[t].rate)
    requires Store(r, t, ready, ToDuration(ready.dts, r.tracks[t].rate)).1
    ensures var s := Store(r, t, ready, ToDuration(ready.dts, r.tracks[t].rate)).0;
            PendingOk(s.current.value, s.tracks, u)
  {
    hide SegmentOk, ClosedOk, SegmentWrite, SegmentSamples, MultiplyAndDivide;
    var dts := ToDuration(ready.dts, r.tracks[t].rate);
    SegmentWriteAppends(r.current.value, r.settings, t, r.tracks[t].rate, ready, dts, u);
    SegmentWriteOk(r.current.value, r.settings, t, ready, Rates(r));
    if u == t {
      MultiplyAndDivideMonotone(ready.dts, r.tracks[t].nextSample.value.dts, SECOND, r.tracks[t].rate);
    } else {
      assert PendingOk(r.current.value, r.tracks, u);
    }
  }

  lemma SwitchKeeps(r: Recorder, t: TrackId)
    requires Inv(r) && t < |r.tracks| && r.tracks[t].nextSample.Some?
    requires r.current.Some? && r.current.value.curPart.Some?
    ensures Inv(Switch(r, t))
  {
    SwitchTracks(r, t);
    hide NextSegmentStartingPos, ToDuration, TracksOk, ClosedOk, SegmentOk, Rates, PendingOk;
    var s := Switch(r, t);
    RatesAgree(r, s);
    FreshSegmentOk(s.current.value, s.tracks, Rates(s));
    ClosedNow(r.current.value, Rates(r));
  }

  lemma SwitchTracks(r: Recorder, t: TrackId)
    requires TracksOk(r) && t < |r.tracks| && r.current.Some? && r.tracks[t].nextSample.Some?
    ensures TracksOk(Switch(r, t))
    ensures forall u :: 0 <= u < |r.tracks| ==> Recorded(Switch(r, t), u) == Recorded(r, u)
  {
    hide NextSegmentStartingPos, ToDuration, Kept, Clamped, SegmentClose;
    var s := Switch(r, t);
    forall u | 0 <= u < |r.tracks|
      ensures Recorded(s, u) == Recorded(r, u) && TrackOk(s, u)
    {
      CloseKeepsSamples(r.current.value, u);
      SegmentsAppend(r.closed, SegmentClose(r.current.value), u);
      assert SegmentSamples(s.current.value, u) == [];
      assert Recorded(s, u) == Recorded(r, u);
      hide Recorded;
      assert TrackOk(r, u);
      OtherTrack(r, s, u);
    }
    hide TrackOk, Recorded;
  }

  lemma ClosedNow(s: Segment, rates: seq<int>)
    requires SegmentOk(s, rates) && s.curPart.Some?
    ensures ClosedOk(SegmentClose(s), s.number, rates)
  {
    forall u | 0 <= u < |rates| ensures Linked(SegmentSamples(SegmentClose(s), u)) {
      CloseKeepsSamples(s, u);
    }
    hide SegmentSamples, PartOk;
  }

  // Every write that does not fail keeps the invariant.
  lemma WriteKeepsInv(r: Recorder, t: TrackId, sample: Sample)
    requires Inv(r) && ValidTrack(r, t) && !Write(r, t, sample).1.IsError()
    ensures Inv(Write(r, t, sample).0)
  {
    if r.tracks[t].nextSample.None? {
      BufferedKeeps(r, t, sample);
    } else {
      var p, ready := Prepare(r, t, sample), Ready(r, t, sample);
      PrepareIsBetween(r, t, sample);
      var dts := ToDuration(ready.dts, r.tracks[t].rate);
      hide ToDuration, Inv, Between, Ready, Drifts;
      if dts < p.current.value.startDTS {
        DiscardKeeps(p, t, ready);
      } else {
        hide Store;
        StoreKeeps(p, t, ready);
        var s := Store(p, t, ready, dts).0;
        if Switches(s, t) {
          hide Switch;
          SwitchKeeps(s, t);
        }
      }
    }
  }

  // ---- whole runs ----

  datatype Input = Input(track: TrackId, sample: Sample)

  // A recording about to start.
  predicate IsNew(r: Recorder) {
    && RatesOk(r.tracks) && |r.fed| == |r.dropped| == |r.tracks|
    && !r.hasVideo && r.current.None? && r.nextSegmentNumber == 0 && r.closed == []
    && forall t :: 0 <= t < |r.tracks| ==>
         && r.tracks[t].nextSample.None? && !r.tracks[t].startInitialized && r.fed[t] == [] && r.dropped[t] == {}
  }

  // The recorder after the inputs; None once a write fails, since the recording is then closed and restarted.
  function Run(r: Recorder, inputs: seq<Input>): Option<Recorder> {
    if inputs == [] then Some(r)
    else
      var before, last := Run(r, inputs[..|inputs| - 1]), inputs[|inputs| - 1];
      if before.None? || !ValidTrack(before.value, last.track) then None
      else
        var (after, outcome) := Write(before.value, last.track, last.sample);
        if outcome.IsError() then None else Some(after)
  }

  function SamplesFor(inputs: seq<Input>, t: TrackId): seq<Sample> {
    if inputs == [] then []
    else
      var last := inputs[|inputs| - 1];
      SamplesFor(inputs[..|inputs| - 1], t) + (if last.track == t then [last.sample] else [])
  }

  lemma WriteFeeds(r: Recorder, t: TrackId, sample: Sample)
    requires ValidTrack(r, t)
    ensures var w := Write(r, t, sample).0;
            |w.tracks| == |r.tracks| && RatesOk(w.tracks) && w.fed == r.fed[t := r.fed[t] + [sample]]
                && |w.dropped| == |r.dropped|
            && w.settings == r.settings
  {
    hide ToDuration, Drifts, SegmentWrite, NextSegmentStartingPos, SegmentClose;
  }

  lemma NewIsOk(r: Recorder)
    requires IsNew(r)
    ensures Inv(r)
  {
  }

  lemma {:induction false} RunKeepsInv(r: Recorder, inputs: seq<Input>)
    requires IsNew(r) && Run(r, inputs).Some?
    ensures var e := Run(r, inputs).value;
            && Inv(e) && |e.tracks| == |r.tracks| && e.settings == r.settings
            && forall t :: 0 <= t < |r.tracks| ==> e.fed[t] == SamplesFor(inputs, t)
  {
    if inputs == [] {
      NewIsOk(r);
    } else {
      var n := |inputs| - 1;
      RunKeepsInv(r, inputs[..n]);
      var b := Run(r, inputs[..n]).value;
      hide SegmentsOk, TrackOk, IsNew, Write;
      WriteKeepsInv(b, inputs[n].track, inputs[n].sample);
      WriteFeeds(b, inputs[n].track, inputs[n].sample);
    }
  }

  // The samples in the files, in order, followed by the pending one, are the clamped inputs less the late ones.
  lemma RecordingConserves(r: Recorder, inputs: seq<Input>, t: TrackId)
    requires IsNew(r) && Run(r, inputs).Some? && t < |r.tracks|
    ensures var e := Run(r, inputs).value;
            var fed := SamplesFor(inputs, t);
            && t < |e.tracks| && t < |e.dropped|
            && Recorded(e, t) == Kept(fed, e.dropped[t])
            && |Recorded(e, t)| + |e.dropped[t]| + 1 == Max(|fed|, 1)
            && e.tracks[t].nextSample == (if fed == [] then None else Some(Clamped(fed)[|fed| - 1]))
  {
    RunKeepsInv(r, inputs);
    var e := Run(r, inputs).value;
    assert TrackOk(e, t);
    KeptCount(SamplesFor(inputs, t), e.dropped[t]);
  }

  lemma {:induction false} KeptCount(fed: seq<Sample>, dropped: set<int>)
    requires forall i :: i in dropped ==> 0 <= i < |fed| - 1
    ensures |Kept(fed, dropped)| + |dropped| + 1 == Max(|fed|, 1)
  {
    if |fed| > 1 {
      var n := |fed|;
      var rest := dropped - {n - 2};
      KeptCount(fed[..n - 1], rest);
      if n - 2 in dropped {
        assert dropped == rest + {n - 2};
        KeptIgnores(fed[..n - 1], rest, n - 2);
      } else {
        assert dropped == rest;
      }
    } else {
      assert forall i :: i !in dropped;
    }
  }

  // Clamping raises each decode time to the largest one seen so far, and changes nothing else.
  lemma {:induction false} ClampedIsRunningMaximum(fed: seq<Sample>, i: nat)
    requires i < |fed|
    ensures Clamped(fed)[i] == fed[i].(dts := Clamped(fed)[i].dts)
    ensures forall j :: 0 <= j <= i ==> fed[j].dts <= Clamped(fed)[i].dts
    ensures exists j :: 0 <= j <= i && fed[j].dts == Clamped(fed)[i].dts
  {
    if |fed| > 1 {
      var n := |fed| - 1;
      var fewer := fed[..n];
      if i < n {
        ClampedIsRunningMaximum(fewer, i);
        var j :| 0 <= j <= i && fewer[j].dts == Clamped(fewer)[i].dts;
        assert fed[j].dts == Clamped(fed)[i].dts;
      } else {
        ClampedIsRunningMaximum(fewer, n - 1);
        var j :| 0 <= j <= n - 1 && fewer[j].dts == Clamped(fewer)[n - 1].dts;
        assert fed[j] == fewer[j];
        forall k | 0 <= k < n ensures fed[k].dts <= Clamped(fed)[n].dts {
          assert fewer[k] == fed[k];
        }
      }
    }
  }

  // What a reader of the finished files finds in each of them.
  lemma FilesAreSound(r: Recorder, inputs: seq<Input>, i: nat)
    requires IsNew(r) && Run(r, inputs).Some? && i < |Run(r, inputs).value.closed|
    ensures var e := Run(r, inputs).value;
            var s := e.closed[i];
            && s.number == i && s.parts != []
            && (forall k :: 0 <= k < |s.parts| ==> PartOk(s.parts[k], s.startDTS, Rates(e)))
            && (forall t :: 0 <= t < |e.tracks| ==> Linked(SegmentSamples(s, t)))
  {
    RunKeepsInv(r, inputs);
    hide PartOk, Linked;
  }

  // A sample is discarded only if the segment holds none of its track.
  lemma DiscardsPrecedeTheFirstSample(r: Recorder, t: TrackId, sample: Sample)
    requires Inv(r) && ValidTrack(r, t) && Write(r, t, sample).1 == Discarded
    ensures r.current.Some? && SegmentSamples(r.current.value, t) == []
    ensures PendingDTS(r.tracks[t]) < r.current.value.startDTS
  {
    PrepareIs(r, t, sample);
    PrepareIsBetween(r, t, sample);
    var p, ready := Prepare(r, t, sample), Ready(r, t, sample);
    hide ToDuration, Inv, SegmentSamples, Between;
    DiscardKeeps(p, t, ready);
  }

  function Durations(ss: seq<Sample>): int {
    if ss == [] then 0 else Durations(ss[..|ss| - 1]) + ss[|ss| - 1].duration
  }

  // Durations telescope: a reader that adds them up finds every decode time.
  lemma {:induction false} DurationsTelescope(ss: seq<Sample>, k: nat)
    requires Linked(ss) && k < |ss|
    requires forall i :: 0 <= i < k ==> ss[i + 1].dts - ss[i].dts < TWO_32
    ensures ss[0].dts + Durations(ss[..k]) == ss[k].dts
  {
    if k > 0 {
      DurationsTelescope(ss, k - 1);
      assert ss[..k][..k - 1] == ss[..k - 1];
      assert LinkedTo(ss[k - 1], ss[k - 1 + 1].dts);
    }
  }
}
