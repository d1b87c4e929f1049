/** What the times of the recorder's inputs imply for the samples in its files. */
module RecorderTimes {
  import opened Wrappers
  import opened Arith
  import opened RecorderState
  import opened RecorderSafety
  import opened RecorderRuns

  // The next sample is later by what fits the 32 bits of a duration.
  predicate IsNear(dts: int, next: int) {
    next - dts < TWO_32
  }

  // The samples are at 0 or later, and the gaps between them fit.
  predicate TimesFit(ss: seq<Sample>) {
    && (forall i :: 0 <= i < |ss| ==> ss[i].dts >= 0)
    && (forall i :: 0 <= i < |ss| - 1 ==> IsNear(ss[i].dts, ss[i + 1].dts))
  }

  ghost predicate SegmentFits(s: Segment, n: nat) {
    forall t :: 0 <= t < n ==> TimesFit(SegmentSamples(s, t))
  }

  // The pending sample is at 0 or later, and near the last one that the segment holds.
  ghost predicate PendingFits(r: Recorder, t: TrackId)
    requires t < |r.tracks|
  {
    r.tracks[t].nextSample.Some? ==>
      && r.tracks[t].nextSample.value.dts >= 0
      && (r.current.Some? ==> FitsAfter(SegmentSamples(r.current.value, t), r.tracks[t].nextSample.value.dts))
  }

  predicate FitsAfter(ss: seq<Sample>, dts: int) {
    ss != [] ==> IsNear(ss[|ss| - 1].dts, dts)
  }

  ghost predicate TimesInv(r: Recorder) {
    && (forall i :: 0 <= i < |r.closed| ==> SegmentFits(r.closed[i], |r.tracks|))
    && (r.current.Some? ==> SegmentFits(r.current.value, |r.tracks|))
    && (forall t :: 0 <= t < |r.tracks| ==> PendingFits(r, t))
  }

  lemma TimesAppend(ss: seq<Sample>, sample: Sample, more: bool)
    requires TimesFit(ss) && (more ==> sample.dts >= 0 && FitsAfter(ss, sample.dts))
    ensures TimesFit(ss + (if more then [sample] else []))
  {
    if !more {
      assert ss + [] == ss;
    }
  }

  // Taking a sample out of the lookahead: what is pending next is near it.
  lemma PrepareFits(r: Recorder, t: TrackId, sample: Sample)
    requires TimesInv(r) && ValidTrack(r, t) && r.tracks[t].nextSample.Some?
    requires var pending := r.tracks[t].nextSample.value; IsNear(pending.dts, Clamp(pending, sample).dts)
    ensures var p, ready := Prepare(r, t, sample), Ready(r, t, sample);
            && |p.tracks| == |r.tracks| && p.current.Some? && p.tracks[t].nextSample.Some?
            && (forall i :: 0 <= i < |p.closed| ==> SegmentFits(p.closed[i], |p.tracks|))
            && SegmentFits(p.current.value, |p.tracks|) && ready.dts >= 0
            && FitsAfter(SegmentSamples(p.current.value, t), ready.dts)
            && p.tracks[t].nextSample.value.dts >= 0 && IsNear(ready.dts, p.tracks[t].nextSample.value.dts)
            && (forall u :: 0 <= u < |p.tracks| && u != t ==> PendingFits(p, u))
  {
    PrepareIs(r, t, sample);
    var p, ready := Prepare(r, t, sample), Ready(r, t, sample);
    assert p.tracks[t].nextSample == Some(Clamp(r.tracks[t].nextSample.value, sample));
    assert PendingFits(r, t) && forall u :: 0 <= u < |r.tracks| ==> PendingFits(r, u);
    assert r.current.None? ==> forall u :: SegmentSamples(p.current.value, u) == [];
    hide Prepare, Ready, SegmentSamples, IsNear;
    forall u | 0 <= u < |p.tracks| && u != t
      ensures PendingFits(p, u)
    {
      assert PendingFits(r, u);
    }
  }

  lemma StoreFits(r: Recorder, t: TrackId, ready: Sample, dts: int)
    requires ValidTrack(r, t) && r.current.Some? && r.tracks[t].nextSample.Some? && Store(r, t, ready, dts).1
    requires forall i :: 0 <= i < |r.closed| ==> SegmentFits(r.closed[i], |r.tracks|)
    requires SegmentFits(r.current.value, |r.tracks|) && ready.dts >= 0
    requires FitsAfter(SegmentSamples(r.current.value, t), ready.dts)
    requires r.tracks[t].nextSample.value.dts >= 0 && IsNear(ready.dts, r.tracks[t].nextSample.value.dts)
    requires forall u :: 0 <= u < |r.tracks| && u != t ==> PendingFits(r, u)
    ensures TimesInv(Store(r, t, ready, dts).0)
  {
    hide SegmentWrite, SegmentSamples, IsNear, TimesFit, PendingFits;
    var s := Store(r, t, ready, dts).0;
    forall u | 0 <= u < |r.tracks|
      ensures TimesFit(SegmentSamples(s.current.value, u)) && PendingFits(s, u)
    {
      StoreTrackFits(r, t, ready, dts, u);
    }
  }

  lemma StoreTrackFits(r: Recorder, t: TrackId, ready: Sample, dts: int, u: TrackId)
    requires ValidTrack(r, t) && r.current.Some? && r.tracks[t].nextSample.Some? && Store(r, t, ready, dts).1
    requires u < |r.tracks| && TimesFit(SegmentSamples(r.current.value, u)) && ready.dts >= 0
    requires FitsAfter(SegmentSamples(r.current.value, t), ready.dts)
    requires r.tracks[t].nextSample.value.dts >= 0 && IsNear(ready.dts, r.tracks[t].nextSample.value.dts)
    requires u != t ==> PendingFits(r, u)
    ensures var s := Store(r, t, ready, dts).0; TimesFit(SegmentSamples(s.current.value, u)) && PendingFits(s, u)
  {
    hide SegmentWrite, SegmentSamples, IsNear, TimesFit;
    SegmentWriteAppends(r.current.value, r.settings, t, r.tracks[t].rate, ready, dts, u);
    TimesAppend(SegmentSamples(r.current.value, u), ready, u == t);
    assert SegmentSamples(r.current.value, u) + [] == SegmentSamples(r.current.value, u);
  }

  lemma SwitchFits(r: Recorder, t: TrackId)
    requires TimesInv(r) && ValidTrack(r, t) && r.tracks[t].nextSample.Some? && r.current.Some?
    ensures TimesInv(Switch(r, t))
  {
    assert TimesFit([]);
    hide NextSegmentStartingPos, PendingDTS, TimesFit, IsNear;
    var s := Switch(r, t);
    forall u | 0 <= u < |r.tracks|
      ensures TimesFit(SegmentSamples(SegmentClose(r.current.value), u)) && PendingFits(s, u)
    {
      CloseKeepsSamples(r.current.value, u);
      assert SegmentSamples(s.current.value, u) == [] && PendingFits(r, u);
    }
    hide SegmentSamples, SegmentClose;
  }

  lemma NothingStoredYet(r: Recorder, t: TrackId)
    requires Inv(r) && t < |r.tracks| && r.current.Some? && r.tracks[t].nextSample.None?
    ensures SegmentSamples(r.current.value, t) == []
  {
    assert PendingOk(r.current.value, r.tracks, t);
  }

  lemma BufferedFits(r: Recorder, t: TrackId, sample: Sample)
    requires Inv(r) && TimesInv(r) && ValidTrack(r, t) && r.tracks[t].nextSample.None? && sample.dts >= 0
    ensures TimesInv(Feed(r, t, sample))
  {
    if r.current.Some? {
      NothingStoredYet(r, t);
    }
    hide Inv, SegmentSamples, IsNear, TimesFit;
    var f := Feed(r, t, sample);
    forall u | 0 <= u < |r.tracks|
      ensures PendingFits(f, u)
    {
      assert PendingFits(r, u);
    }
  }

  lemma DiscardFits(r: Recorder, t: TrackId, ready: Sample)
    requires Between(r, t, ready) && ToDuration(ready.dts, r.tracks[t].rate) < r.current.value.startDTS
    requires forall i :: 0 <= i < |r.closed| ==> SegmentFits(r.closed[i], |r.tracks|)
    requires SegmentFits(r.current.value, |r.tracks|)
    requires r.tracks[t].nextSample.Some? && r.tracks[t].nextSample.value.dts >= 0
    requires forall u :: 0 <= u < |r.tracks| && u != t ==> PendingFits(r, u)
    ensures TimesInv(Discard(r, t))
  {
    DiscardKeeps(r, t, ready);
    hide Between, SegmentSamples, SegmentFits, Inv, ToDuration, IsNear;
    forall u | 0 <= u < |r.tracks|
      ensures PendingFits(Discard(r, t), u)
    {
      assert u != t ==> PendingFits(r, u);
    }
  }

  lemma WriteFits(r: Recorder, t: TrackId, sample: Sample)
    requires Inv(r) && TimesInv(r) && ValidTrack(r, t) && !Write(r, t, sample).1.IsError()
    requires match r.tracks[t].nextSample
             case None => sample.dts >= 0
             case Some(pending) => IsNear(pending.dts, Clamp(pending, sample).dts)
    ensures TimesInv(Write(r, t, sample).0)
  {
    hide Inv, TimesInv;
    if r.tracks[t].nextSample.None? {
      BufferedFits(r, t, sample);
    } else {
      var p, ready := Prepare(r, t, sample), Ready(r, t, sample);
      PrepareIsBetween(r, t, sample);
      PrepareFits(r, t, sample);
      var dts := ToDuration(ready.dts, r.tracks[t].rate);
      hide ToDuration, Drifts, SegmentFits, PendingFits, FitsAfter, IsNear, Clamp, Ready;
      assert ValidTrack(p, t);
      if dts < p.current.value.startDTS {
        DiscardFits(p, t, ready);
      } else {
        var s := Store(p, t, ready, dts).0;
        assert ValidTrack(s, t) && s.tracks == p.tracks;
        hide Store, Between;
        StoreFits(p, t, ready, dts);
        if Switches(s, t) {
          SwitchFits(s, t);
        }
      }
    }
  }

  // The inputs of every track, once their decode times are kept from going back.
  ghost predicate InputsFit(inputs: seq<Input>, n: nat) {
    forall t :: 0 <= t < n ==> TimesFit(Clamped(SamplesFor(inputs, t)))
  }

  lemma ClampedUnfolds(more: seq<Sample>)
    requires |more| > 1
    ensures var n := |more| - 1;
            Clamped(more) == Clamped(more[..n]) + [Clamp(Clamped(more[..n])[n - 1], more[n])]
  {
    hide Clamp;
  }

  lemma ClampedAppend(fed: seq<Sample>, sample: Sample)
    requires fed != []
    ensures Clamped(fed + [sample]) == Clamped(fed) + [Clamp(Clamped(fed)[|fed| - 1], sample)]
  {
    hide Clamp;
    ClampedUnfolds(fed + [sample]);
    assert (fed + [sample])[..|fed|] == fed;
    hide Clamped;
  }

  lemma FirstFits(sample: Sample)
    requires TimesFit(Clamped([sample]))
    ensures sample.dts >= 0
  {
    assert Clamped([sample]) == [sample];
    assert [sample][0] == sample;
  }

  lemma ClampedMore(fed: seq<Sample>, sample: Sample)
    requires fed != [] && TimesFit(Clamped(fed + [sample]))
    ensures var last := Clamped(fed)[|fed| - 1];
            TimesFit(Clamped(fed)) && IsNear(last.dts, Clamp(last, sample).dts)
  {
    hide TimesFit, IsNear, Clamp, Clamped;
    ClampedAppend(fed, sample);
    var c := Clamped(fed);
    TimesFitBefore(c, Clamp(c[|fed| - 1], sample));
  }

  lemma TimesFitBefore(ss: seq<Sample>, x: Sample)
    requires TimesFit(ss + [x])
    ensures TimesFit(ss) && FitsAfter(ss, x.dts)
  {
    hide IsNear;
    var more := ss + [x];
    forall i | 0 <= i < |ss|
      ensures ss[i].dts >= 0 && (if i < |ss| - 1 then IsNear(ss[i].dts, ss[i + 1].dts) else IsNear(ss[i].dts, x.dts))
    {
      assert more[i].dts >= 0 && IsNear(more[i].dts, more[i + 1].dts);
    }
    if ss != [] {
      assert IsNear(more[|ss| - 1].dts, more[|ss| - 1 + 1].dts);
    }
  }

  lemma InputsFitBefore(inputs: seq<Input>, n: nat)
    requires inputs != [] && InputsFit(inputs, n)
    ensures InputsFit(inputs[..|inputs| - 1], n)
  {
    var last, fewer := inputs[|inputs| - 1], inputs[..|inputs| - 1];
    forall t | 0 <= t < n
      ensures TimesFit(Clamped(SamplesFor(fewer, t)))
    {
      assert TimesFit(Clamped(SamplesFor(inputs, t)));
      if t == last.track {
        assert SamplesFor(inputs, t) == SamplesFor(fewer, t) + [last.sample];
        if SamplesFor(fewer, t) != [] {
          ClampedMore(SamplesFor(fewer, t), last.sample);
        }
      } else {
        assert SamplesFor(inputs, t) == SamplesFor(fewer, t);
      }
    }
  }

  // The pending sample and the next one, when the inputs so far fit.
  lemma InputFits(r: Recorder, t: TrackId, sample: Sample)
    requires TracksOk(r) && t < |r.tracks| && TimesFit(Clamped(r.fed[t] + [sample]))
    ensures match r.tracks[t].nextSample
            case None => sample.dts >= 0
            case Some(pending) => IsNear(pending.dts, Clamp(pending, sample).dts)
  {
    hide TimesFit, IsNear, Clamp, Clamped, Recorded, Kept;
    assert TrackOk(r, t);
    if r.fed[t] == [] {
      assert [] + [sample] == [sample];
      FirstFits(sample);
    } else {
      ClampedMore(r.fed[t], sample);
    }
  }

  // The recorded samples keep the times and the gaps of the inputs, whatever was discarded.
  lemma {:induction false} RecordedTimesFit(r: Recorder, inputs: seq<Input>)
    requires IsNew(r) && Run(r, inputs).Some? && InputsFit(inputs, |r.tracks|)
    ensures |Run(r, inputs).value.tracks| == |r.tracks| && TimesInv(Run(r, inputs).value)
  {
    if inputs != [] {
      var n := |inputs| - 1;
      InputsFitBefore(inputs, |r.tracks|);
      RecordedTimesFit(r, inputs[..n]);
      RunKeepsInv(r, inputs[..n]);
      hide IsNew, Write, TimesInv, TimesFit, Clamped, TrackOk, SegmentsOk;
      var b, last := Run(r, inputs[..n]).value, inputs[n];
      assert SamplesFor(inputs, last.track) == b.fed[last.track] + [last.sample];
      assert TimesFit(Clamped(SamplesFor(inputs, last.track)));
      InputFits(b, last.track, last.sample);
      hide InputsFit;
      WriteFits(b, last.track, last.sample);
      WriteFeeds(b, last.track, last.sample);
    }
  }
}
