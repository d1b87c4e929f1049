/** How long the parts of the fragmented output are. */
module MuxerFMP4Parts {
  import opened Wrappers
  import opened Arith
  import opened Playback
  import opened MuxerFMP4State
  import opened MuxerFMP4Safety
  import opened MuxerFMP4Runs

  predicate NoneIsNegative(ss: seq<Stored>) {
    forall k :: 0 <= k < |ss| ==> ss[k].duration >= 0
  }

  // What a track buffers spans less than a second, which is one time scale, up to its last sample.
  predicate IsShort(t: Track) {
    NoneIsNegative(t.samples) && (t.firstDTS >= 0 ==> t.lastDTS - t.firstDTS < t.timeScale)
  }

  // So does a fragment.
  predicate FragmentIsShort(f: Fragment, timeScale: int) {
    f.samples != [] && Durations(f.samples[..|f.samples| - 1]) < timeScale
  }

  predicate PartIsShort(p: Part, timeScales: seq<int>) {
    && |p.fragments| == |timeScales|
    && forall i :: 0 <= i < |timeScales| && p.fragments[i].Some? ==>
         FragmentIsShort(p.fragments[i].value, timeScales[i])
  }

  // Some track of the part lasts a second.
  predicate IsLong(p: Part, timeScales: seq<int>, i: nat) {
    && i < |timeScales| == |p.fragments| && p.fragments[i].Some?
    && Durations(p.fragments[i].value.samples) >= timeScales[i]
  }

  ghost predicate PartIsLong(p: Part, timeScales: seq<int>) {
    exists i :: IsLong(p, timeScales, i)
  }

  ghost predicate Measured(m: Muxer, timeScales: seq<int>) {
    && |m.tracks| == |timeScales|
    && (forall i :: 0 <= i < |timeScales| ==> m.tracks[i].timeScale == timeScales[i] && IsShort(m.tracks[i]))
    && (forall k :: 0 <= k < |m.out| ==> PartIsShort(m.out[k], timeScales) && PartIsLong(m.out[k], timeScales))
  }

  lemma OneSecond(timeScale: int)
    requires timeScale > 0
    ensures ToTicks(PART_DURATION, timeScale) == timeScale
  {
    MultiplyAndDivideBounds(PART_DURATION, timeScale, SECOND);
    hide MultiplyAndDivide;
  }

  lemma {:induction false} LessBefore(ss: seq<Stored>, k: nat)
    requires NoneIsNegative(ss) && k <= |ss|
    ensures Durations(ss[..k]) <= Durations(ss)
    decreases |ss|
  {
    if k < |ss| {
      LessBefore(ss[..|ss| - 1], k);
      assert ss[..|ss| - 1][..k] == ss[..k];
    } else {
      assert ss[..k] == ss;
    }
  }

  lemma PutIsMeasured(t: Track, s: Sample)
    requires t.firstDTS >= 0 ==> t.samples != []
    requires IsShort(t) && t.timeScale > 0
    ensures var p := Put(t, s);
            && NoneIsNegative(p.samples) && p.timeScale == t.timeScale
            && (s.dts < 0 || !IsDue(p) ==> IsShort(p))
            && (s.dts >= 0 && IsDue(p) ==>
                  && t.firstDTS >= 0 && p.firstDTS == t.firstDTS && |p.samples| == |t.samples| + 1
                  && p.samples[..|t.samples| - 1] == t.samples[..|t.samples| - 1])
  {
    OneSecond(t.timeScale);
    hide ToTicks;
  }

  // A flush gives a track's buffered samples but the last one, and the track starts over from there.
  lemma FlushIsMeasured(t: Track)
    requires NoneIsNegative(t.samples) && t.timeScale > 0 && (t.firstDTS >= 0 ==> t.samples != [])
    requires |t.samples| > 1 && t.firstDTS >= 0 ==> Durations(t.samples[..|t.samples| - 2]) < t.timeScale
    requires |t.samples| == 1 && t.firstDTS >= 0 ==> t.lastDTS == t.firstDTS
    ensures IsShort(Flushed(t, false)) && Flushed(t, false).timeScale == t.timeScale
    ensures Flushable(t, false).Some? ==> FragmentIsShort(Flushable(t, false).value, t.timeScale)
  {
    var n := |t.samples|;
    if Flushable(t, false).Some? {
      assert t.samples[..n - 1][..n - 2] == t.samples[..n - 2];
    }
  }

  // Before the last two samples a short track is short.
  lemma ShortBefore(t: Track, fs: seq<Fragment>, ss: seq<Sample>)
    requires TrackInv(t, fs, ss) && IsShort(t) && t.firstDTS >= 0
    ensures |t.samples| > 1 ==> Durations(t.samples[..|t.samples| - 2]) < t.timeScale
    ensures |t.samples| == 1 ==> t.lastDTS == t.firstDTS
  {
    var n := |t.samples|;
    if n > 1 {
      LessBefore(t.samples[..n - 1], n - 2);
      assert t.samples[..n - 1][..n - 2] == t.samples[..n - 2];
    } else {
      assert t.samples[..0] == [];
    }
    hide Expected, FragmentsTimeline, Timeline, FirstVisible, Chained;
  }

  // The track that is due was short before its last sample came.
  lemma DueBefore(t: Track, s: Sample, fs: seq<Fragment>, ss: seq<Sample>)
    requires TrackInv(t, fs, ss) && IsShort(t) && s.dts >= 0 && IsDue(Put(t, s)) && TrackInv(Put(t, s), fs, ss + [s])
    ensures var p := Put(t, s);
            && |p.samples| > 1 && p.firstDTS >= 0 && Durations(p.samples[..|p.samples| - 2]) < p.timeScale
            && Durations(p.samples[..|p.samples| - 1]) >= p.timeScale
  {
    OneSecond(t.timeScale);
    PutIsMeasured(t, s);
    hide Expected, FragmentsTimeline, Timeline, FirstVisible, Chained, Put, ToTicks, Durations;
  }

  lemma WriteIsMeasured(m: Muxer, fed: seq<seq<Sample>>, timeScales: seq<int>, i: nat, s: Sample)
    requires Inv(m, fed) && Measured(m, timeScales) && i < |m.tracks| && Steady(fed[i] + [s]) && Indexable(m)
    requires WriteSample(m, i, s).Some?
    ensures Measured(WriteSample(m, i, s).value, timeScales)
  {
    hide TrackInv, Fragments, Put, IsDue, Steady, FlushableParts, FlushedTracks, PartIsShort, PartIsLong, IsShort;
    var t, fs := m.tracks[i], Fragments(m.out, i);
    assert TrackInv(t, fs, fed[i]);
    HasScale(t, fs, fed[i]);
    PutIsMeasured(t, s);
    PutKeeps(t, fs, fed[i], s);
    var p := Put(t, s);
    var w := m.(tracks := m.tracks[i := p]);
    if s.dts >= 0 && IsDue(p) {
      DueBefore(t, s, fs, fed[i]);
      forall j | 0 <= j < |w.tracks| ensures CanBeFlushed(w.tracks[j]) {
        if j != i {
          assert TrackInv(m.tracks[j], Fragments(m.out, j), fed[j]);
          OtherCanBeFlushed(m.tracks[j], Fragments(m.out, j), fed[j]);
        }
      }
      FlushAllIsMeasured(w, timeScales, i);
    }
  }

  lemma HasScale(t: Track, fs: seq<Fragment>, ss: seq<Sample>)
    requires TrackInv(t, fs, ss)
    ensures t.timeScale > 0 && (t.firstDTS >= 0 ==> t.samples != [])
  {
    hide Expected, FragmentsTimeline, Timeline, FirstVisible, Chained, Durations;
  }

  predicate CanBeFlushed(t: Track) {
    && NoneIsNegative(t.samples) && t.timeScale > 0 && (t.firstDTS >= 0 ==> t.samples != [])
    && (|t.samples| > 1 && t.firstDTS >= 0 ==> Durations(t.samples[..|t.samples| - 2]) < t.timeScale)
    && (|t.samples| == 1 && t.firstDTS >= 0 ==> t.lastDTS == t.firstDTS)
  }

  lemma OtherCanBeFlushed(t: Track, fs: seq<Fragment>, ss: seq<Sample>)
    requires TrackInv(t, fs, ss) && IsShort(t)
    ensures CanBeFlushed(t)
  {
    HasScale(t, fs, ss);
    hide TrackInv;
    if t.firstDTS >= 0 { ShortBefore(t, fs, ss); }
  }

  lemma FlushAllIsMeasured(w: Muxer, timeScales: seq<int>, i: nat)
    requires |w.tracks| == |timeScales| && i < |w.tracks| && InnerFlush(w, false).Some?
    requires forall j :: 0 <= j < |w.tracks| ==> CanBeFlushed(w.tracks[j]) && w.tracks[j].timeScale == timeScales[j]
    requires forall k :: 0 <= k < |w.out| ==> PartIsShort(w.out[k], timeScales) && PartIsLong(w.out[k], timeScales)
    requires var p := w.tracks[i];
             |p.samples| > 1 && p.firstDTS >= 0 && Durations(p.samples[..|p.samples| - 1]) >= p.timeScale
    ensures Measured(InnerFlush(w, false).value, timeScales)
  {
    hide Flushable, Flushed, PartIsLong, PartIsShort, Durations, CanBeFlushed, IsShort, FragmentIsShort;
    var fs, ts := FlushableParts(w.tracks, false), FlushedTracks(w.tracks, false);
    var p := Part(w.nextSequenceNumber, fs);
    forall j | 0 <= j < |w.tracks|
      ensures IsShort(ts[j]) && ts[j].timeScale == timeScales[j]
      ensures fs[j].Some? ==> FragmentIsShort(fs[j].value, timeScales[j])
    {
      FlushOneIsMeasured(w.tracks[j]);
    }
    DueFragment(w.tracks[i]);
    assert fs[i].Some?;
    NewPart(p, timeScales, i);
    hide FlushedTracks, FlushableParts;
  }

  lemma FlushOneIsMeasured(t: Track)
    requires CanBeFlushed(t)
    ensures IsShort(Flushed(t, false)) && Flushed(t, false).timeScale == t.timeScale
    ensures Flushable(t, false).Some? ==> FragmentIsShort(Flushable(t, false).value, t.timeScale)
  {
    FlushIsMeasured(t);
  }

  lemma DueFragment(p: Track)
    requires |p.samples| > 1 && p.firstDTS >= 0 && Durations(p.samples[..|p.samples| - 1]) >= p.timeScale
    ensures Flushable(p, false).Some? && Durations(Flushable(p, false).value.samples) >= p.timeScale
  {
  }

  lemma NewPart(p: Part, timeScales: seq<int>, i: nat)
    requires |p.fragments| == |timeScales| && i < |timeScales| && p.fragments[i].Some?
    requires forall j :: 0 <= j < |timeScales| && p.fragments[j].Some? ==>
               FragmentIsShort(p.fragments[j].value, timeScales[j])
    requires Durations(p.fragments[i].value.samples) >= timeScales[i]
    ensures PartIsShort(p, timeScales) && PartIsLong(p, timeScales)
  {
    assert IsLong(p, timeScales, i);
  }

  lemma StepIsMeasured(m: Muxer, fed: seq<seq<Sample>>, timeScales: seq<int>, op: Op)
    requires Inv(m, fed) && Measured(m, timeScales) && op.track < |m.tracks| && Indexable(m) && Step(m, op).Some?
    requires op.Write? ==> Steady(fed[op.track] + [op.sample])
    ensures Measured(Step(m, op).value, timeScales)
  {
    if op.Write? {
      hide Inv, Measured, Steady, WriteSample, Indexable;
      WriteIsMeasured(m, fed, timeScales, op.track, op.sample);
    } else {
      hide Inv, Steady, Indexable, Finish, IsShort, PartIsShort, PartIsLong;
      FinishIsMeasured(m.tracks[op.track], op.dts);
    }
  }

  lemma NewIsMeasured(timeScales: seq<int>)
    ensures Measured(New(timeScales), timeScales)
  {
  }

  lemma {:induction false} RunIsMeasured(timeScales: seq<int>, h: History)
    requires Runnable(timeScales, h)
    ensures Run(timeScales, h).Some? && Measured(Run(timeScales, h).value, timeScales)
  {
    hide Measured, Inv, Steady, Step, Indexable, New;
    if h.Then? {
      RunnablePrefix(timeScales, h);
      RunIsMeasured(timeScales, h.before);
      RunKeepsInv(timeScales, h);
      RunKeepsInv(timeScales, h.before);
      var m, fed := Run(timeScales, h.before).value, AllFed(h.before, |timeScales|);
      InvIndexable(m, fed);
      InvCount(m, fed);
      assert Steady(Fed(h, h.last.track));
      StepIsMeasured(m, fed, timeScales, h.last);
    } else {
      NewIsMeasured(timeScales);
    }
  }

  lemma InvCount(m: Muxer, fed: seq<seq<Sample>>)
    requires Inv(m, fed)
    ensures |fed| == |m.tracks|
  {
  }

  lemma FinishIsMeasured(t: Track, dts: int)
    requires IsShort(t)
    ensures IsShort(Finish(t, dts)) && Finish(t, dts).timeScale == t.timeScale
  {
  }

  // Over any interleaving of tracks with non-decreasing decode times: no fragment and no buffer spans a second or more
  // up to its last sample, and every part but the last one lasts at least a second in some track.
  lemma PartsLastASecond(timeScales: seq<int>, h: History)
    requires Runnable(timeScales, h)
    ensures Run(timeScales, h).Some?
    ensures var m := Run(timeScales, h).value;
            && |m.tracks| == |timeScales|
            && (forall i :: 0 <= i < |timeScales| && m.tracks[i].firstDTS >= 0 ==>
                  m.tracks[i].lastDTS - m.tracks[i].firstDTS < timeScales[i])
            && (forall k :: 0 <= k < |m.out| ==> PartIsShort(m.out[k], timeScales) && PartIsLong(m.out[k], timeScales))
    ensures var m, r := Run(timeScales, h).value, InnerFlush(Run(timeScales, h).value, true);
            r.Some? ==> |r.value.out| <= |m.out| + 1
                        && forall k :: 0 <= k < |r.value.out| ==> PartIsShort(r.value.out[k], timeScales)
  {
    RunIsMeasured(timeScales, h);
    RunKeepsInv(timeScales, h);
    var m, fed := Run(timeScales, h).value, AllFed(h, |timeScales|);
    hide Run, PartIsLong, Runnable;
    forall i | 0 <= i < |timeScales| && Flushable(m.tracks[i], true).Some?
      ensures FragmentIsShort(Flushable(m.tracks[i], true).value, timeScales[i])
    {
      assert TrackInv(m.tracks[i], Fragments(m.out, i), fed[i]);
      LastFragment(m.tracks[i], Fragments(m.out, i), fed[i]);
    }
    hide Inv, Flushable, FragmentIsShort;
  }

  lemma LastFragment(t: Track, fs: seq<Fragment>, ss: seq<Sample>)
    requires TrackInv(t, fs, ss) && IsShort(t) && Flushable(t, true).Some?
    ensures FragmentIsShort(Flushable(t, true).value, t.timeScale)
  {
    hide Expected, FragmentsTimeline, Timeline, FirstVisible, Chained, Durations;
  }
}
