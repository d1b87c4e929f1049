/** The two playback formats compared: given the same ops, they keep the same samples of every visible track. */
module MuxersAgree {
  import opened Wrappers
  import opened Arith
  import opened Playback
  import F = MuxerFMP4State
  import FS = MuxerFMP4Safety
  import FR = MuxerFMP4Runs
  import opened MuxerMP4State
  import opened MuxerMP4Safety

  ghost predicate Inv(m: Muxer, fed: seq<seq<Sample>>) {
    |m.tracks| == |fed| && forall i :: 0 <= i < |fed| ==> TrackInv(m.tracks[i], fed[i])
  }

  lemma StepKeeps(m: Muxer, fed: seq<seq<Sample>>, op: Op, more: seq<seq<Sample>>)
    requires Inv(m, fed) && op.track < |m.tracks|
    requires more == (if op.Write? then fed[op.track := fed[op.track] + [op.sample]] else fed)
    requires Steady(more[op.track])
    ensures Inv(Step(m, op), more)
  {
    hide Steady, TrackInv, Put, Finish;
    assert TrackInv(m.tracks[op.track], fed[op.track]);
    if op.Write? {
      PutKeeps(m.tracks[op.track], fed[op.track], op.sample);
    } else {
      FinishKeeps(m.tracks[op.track], fed[op.track], op.dts);
    }
  }

  lemma {:induction false} RunKeepsInv(timeScales: seq<int>, h: History)
    requires Runnable(timeScales, h)
    ensures Inv(Run(|timeScales|, h), AllFed(h, |timeScales|))
  {
    var n := |timeScales|;
    if h.Then? {
      RunnablePrefix(timeScales, h);
      RunKeepsInv(timeScales, h.before);
      FedStep(h, n);
      assert Steady(Fed(h, h.last.track));
      StepKeeps(Run(n, h.before), AllFed(h.before, n), h.last, AllFed(h, n));
      hide Steady, AllFed, Inv, Step;
    }
  }

  lemma Int32Exactly(a: int)
    ensures Int32(a) == a <==> FitsInt32(a)
  {
  }

  // The samples as they are shown: all of them in order, each at its decode time moved by shift, the sync ones without
  // their presentation offset.
  predicate AreShown(shown: seq<Timed>, samples: seq<Sample>, shift: int) {
    && |shown| == |samples|
    && forall k :: 0 <= k < |shown| ==>
         && shown[k].payload == samples[k].payload && shown[k].isNonSync == samples[k].isNonSync
         && shown[k].time == samples[k].dts + shift
         && shown[k].ptsOffset == if samples[k].isNonSync then samples[k].ptsOffset else 0
  }

  lemma ShiftedAreShown(samples: seq<Sample>, shift: int)
    ensures AreShown(Shifted(samples, shift), samples, shift)
  {
  }

  // The flush fails exactly when the track written last has no visible sample; otherwise every track that was given
  // something is in the file, at its own decode times if its first kept sample fits the 32 bits of the offset.
  lemma OutputIsTheKeptSamples(timeScales: seq<int>, h: History)
    requires Runnable(timeScales, h) && h.Then?
    ensures var m, r := Run(|timeScales|, h), Flush(Run(|timeScales|, h));
            && (r.Some? <==> HasVisible(Fed(h, h.last.track)))
            && (r.Some? ==> forall i :: 0 <= i < |timeScales| ==>
                 && (r.value[i].Some? <==> Fed(h, i) != [])
                 && (r.value[i].Some? ==> r.value[i].value == m.tracks[i]))
    ensures forall i :: 0 <= i < |timeScales| ==>
              var t, kept := Run(|timeScales|, h).tracks[i], Kept(Fed(h, i));
              && (kept != [] ==> (Shift(Fed(h, i)) == 0 <==> FitsInt32(kept[0].dts)))
              && AreShown(Timeline(t.timeOffset, t.samples), kept, Shift(Fed(h, i)))
  {
    RunKeepsInv(timeScales, h);
    var n := |timeScales|;
    var m, fed := Run(n, h), AllFed(h, n);
    CurrentIsTheLastWritten(n, h);
    hide HasVisible, Inv, Timeline, Shifted, Shift, Kept, Run, FitsInt32, Flush, AreShown;
    FlushExactly(m, fed, h.last.track);
    forall i | 0 <= i < n
      ensures AreShown(Timeline(m.tracks[i].timeOffset, m.tracks[i].samples), Kept(fed[i]), Shift(fed[i]))
      ensures Kept(fed[i]) != [] ==> (Shift(fed[i]) == 0 <==> FitsInt32(Kept(fed[i])[0].dts))
    {
      InvAt(m, fed, i);
      TrackOutput(m.tracks[i], fed[i]);
      ShiftedAreShown(Kept(fed[i]), Shift(fed[i]));
    }
  }

  lemma InvAt(m: Muxer, fed: seq<seq<Sample>>, i: nat)
    requires Inv(m, fed) && i < |fed|
    ensures |m.tracks| == |fed| && TrackInv(m.tracks[i], fed[i])
  {
  }

  lemma FlushExactly(m: Muxer, fed: seq<seq<Sample>>, cur: nat)
    requires Inv(m, fed) && m.curTrack == Some(cur) && cur < |m.tracks|
    requires forall i :: 0 <= i < |fed| ==> Steady(fed[i])
    ensures Flush(m).Some? <==> HasVisible(fed[cur])
    ensures Flush(m).Some? ==> forall i :: 0 <= i < |fed| ==>
              && (Flush(m).value[i].Some? <==> fed[i] != [])
              && (Flush(m).value[i].Some? ==> Flush(m).value[i].value == m.tracks[i])
  {
    hide HasVisible, Timeline, Shifted, Shift, Kept, FitsInt32, Steady, TrackInv;
    forall i | 0 <= i < |fed|
      ensures fed[i] == [] ==> m.tracks[i].samples == []
      ensures fed[i] != [] ==> m.tracks[i].samples != [] && (m.tracks[i].lastDTS >= 0 <==> HasVisible(fed[i]))
    {
      TrackOutput(m.tracks[i], fed[i]);
    }
    NoneIsNotVisible();
  }

  lemma NoneIsNotVisible()
    ensures !HasVisible([])
  {
  }

  lemma CurrentIsTheLastWritten(n: nat, h: History)
    requires OpsInRange(h, n) && h.Then?
    ensures Run(n, h).curTrack == Some(h.last.track)
  {
  }

  lemma TrackOutput(t: Track, ss: seq<Sample>)
    requires TrackInv(t, ss) && Steady(ss)
    ensures ss == [] ==> t.samples == []
    ensures ss != [] ==> t.samples != [] && (t.lastDTS >= 0 <==> HasVisible(ss))
    ensures Timeline(t.timeOffset, t.samples) == Shifted(Kept(ss), Shift(ss))
    ensures Kept(ss) != [] ==> (Shift(ss) == 0 <==> FitsInt32(Kept(ss)[0].dts))
  {
    if ss != [] {
      VisibleIsLast(ss);
    }
    if Kept(ss) != [] {
      Int32Exactly(Kept(ss)[0].dts);
    }
  }

  // The same samples in the same order, and at the same times (up to the shift of b) once they are visible; only b
  // shows sync samples at their decode times.
  predicate SameSamples(a: seq<Timed>, b: seq<Timed>, shift: int, from: int) {
    && |a| == |b|
    && forall k :: 0 <= k < |a| ==>
         && a[k].payload == b[k].payload && a[k].isNonSync == b[k].isNonSync
         && b[k].ptsOffset == (if b[k].isNonSync then a[k].ptsOffset else 0)
         && a[k].time == Max(b[k].time - shift, from)
  }

  lemma ExpectedAgree(ss: seq<Sample>, shift: int)
    requires HasVisible(ss)
    ensures SameSamples(FS.Expected(ss), Shifted(Kept(ss), shift), shift, ss[FirstVisible(ss)].dts)
  {
    hide KeepFrom;
  }

  // Whatever the order of tracks and whenever flushes happen, both formats show the same samples of a visible track.
  lemma MuxersKeepTheSameSamples(timeScales: seq<int>, h: History, i: nat)
    requires Runnable(timeScales, h) && i < |timeScales| && HasVisible(Fed(h, i))
    ensures FR.Run(timeScales, h).Some? && F.InnerFlush(FR.Run(timeScales, h).value, true).Some?
    ensures var out := F.InnerFlush(FR.Run(timeScales, h).value, true).value.out;
            var t, ss := Run(|timeScales|, h).tracks[i], Fed(h, i);
            SameSamples(FS.FragmentsTimeline(FR.Fragments(out, i)), Timeline(t.timeOffset, t.samples),
                        Shift(ss), ss[FirstVisible(ss)].dts)
  {
    FR.OutputIsWhatAPlayerShouldSee(timeScales, h);
    RunKeepsInv(timeScales, h);
    var fed, m := AllFed(h, |timeScales|), Run(|timeScales|, h);
    assert HasVisible(fed[i]) && Steady(fed[i]);
    hide Run, FR.Run, F.InnerFlush, FS.FragmentsTimeline, FS.Expected, Timeline, Fed, AllFed, HasVisible,
        TrackInv, Shift, Steady, SameSamples, Shifted;
    TrackOutput(m.tracks[i], fed[i]);
    ExpectedAgree(fed[i], Shift(fed[i]));
  }

  // When the reader says where a track ends, both formats end it there: its last sample lasts until then.
  lemma TracksEndAtTheFinalTime(timeScales: seq<int>, h: History, i: nat, dts: int)
    requires Runnable(timeScales, h) && i < |timeScales| && Fed(h, i) != []
    requires 0 <= dts - Fed(h, i)[|Fed(h, i)| - 1].dts < TWO_32
    ensures OpsInRange(Then(h, Final(i, dts)), |timeScales|)
    ensures var t := Run(|timeScales|, Then(h, Final(i, dts))).tracks[i];
            t.timeOffset + Durations(t.samples) == dts + Shift(Fed(h, i))
    ensures FR.Run(timeScales, Then(h, Final(i, dts))).Some?
    ensures HasVisible(Fed(h, i)) ==>
              var m := FR.Run(timeScales, Then(h, Final(i, dts))).value;
              && i < |m.tracks| && F.Flushable(m.tracks[i], true).Some?
              && FS.End(F.Flushable(m.tracks[i], true).value) == dts
  {
    hide Shift, Durations, Steady, Fed, HasVisible, Inv, FR.Inv, F.Indexable, FR.Run;
    RunKeepsInv(timeScales, h);
    InvAt(Run(|timeScales|, h), AllFed(h, |timeScales|), i);
    FinishKeeps(Run(|timeScales|, h).tracks[i], Fed(h, i), dts);
    FragmentEndsAtTheFinalTime(timeScales, h, i, dts);
    hide Finish, TrackInv;
  }

  lemma FragmentEndsAtTheFinalTime(timeScales: seq<int>, h: History, i: nat, dts: int)
    requires Runnable(timeScales, h) && i < |timeScales| && Fed(h, i) != []
    requires 0 <= dts - Fed(h, i)[|Fed(h, i)| - 1].dts < TWO_32
    ensures FR.Run(timeScales, Then(h, Final(i, dts))).Some?
    ensures HasVisible(Fed(h, i)) ==>
              var m := FR.Run(timeScales, Then(h, Final(i, dts))).value;
              && i < |m.tracks| && F.Flushable(m.tracks[i], true).Some?
              && FS.End(F.Flushable(m.tracks[i], true).value) == dts
  {
    hide Durations, Steady, Fed, FR.Inv, F.Indexable, HasVisible, FS.TrackInv;
    FR.RunKeepsInv(timeScales, h);
    var m := FR.Run(timeScales, h).value;
    FR.InvIndexable(m, AllFed(h, |timeScales|));
    FR.InvOfTrack(m, AllFed(h, |timeScales|), i);
    FS.FinishKeeps(m.tracks[i], FR.Fragments(m.out, i), Fed(h, i), dts);
    FS.FinalFlush(F.Finish(m.tracks[i], dts), FR.Fragments(m.out, i), Fed(h, i));
    hide F.Finish;
  }

  // ---- what the MP4 format does not keep ----

  // A player could see the first track, but the track written last has nothing to show: the whole file is refused,
  // and the fragmented one is not.
  lemma VisibleTrackIsLost(timeScales: seq<int>, a: Sample, b: Sample)
    requires |timeScales| == 2 && timeScales[0] > 0 && timeScales[1] > 0
    requires a.dts >= 0 && b.dts < 0
    ensures var h := Then(Then(Begin, Write(0, a)), Write(1, b));
            && Runnable(timeScales, h) && HasVisible(Fed(h, 0)) && Flush(Run(2, h)).None?
            && FR.Run(timeScales, h).Some? && F.InnerFlush(FR.Run(timeScales, h).value, true).Some?
  {
    hide Fed, HasVisible, Steady, Run, FR.Run, F.InnerFlush, Flush, FS.FragmentsTimeline, Timeline, Shift,
        Shifted, Kept;
    var first := Then(Begin, Write(0, a));
    var h := Then(first, Write(1, b));
    OneSampleEach(a, b);
    assert OpsInRange(Begin, 2) && OpsInRange(first, 2);
    assert forall i :: 0 <= i < 2 ==> Steady(Fed(h, i));
    OutputIsTheKeptSamples(timeScales, h);
    MuxersKeepTheSameSamples(timeScales, h, 0);
  }

  lemma OneSampleEach(a: Sample, b: Sample)
    requires a.dts >= 0 && b.dts < 0
    ensures var h := Then(Then(Begin, Write(0, a)), Write(1, b));
            && HasVisible(Fed(h, 0)) && Steady(Fed(h, 0)) && !HasVisible(Fed(h, 1)) && Steady(Fed(h, 1))
  {
    var first := Then(Begin, Write(0, a));
    var h := Then(first, Write(1, b));
    assert Fed(Begin, 0) == [] && Fed(Begin, 1) == [];
    assert Fed(first, 0) == Fed(Begin, 0) + [a] && Fed(first, 1) == Fed(Begin, 1) + [];
    assert Fed(h, 0) == Fed(first, 0) + [] && Fed(h, 1) == Fed(first, 1) + [b];
    assert Fed(h, 0) == [a] && Fed(h, 1) == [b];
    VisibleAppend([], a);
    VisibleAppend([], b);
    assert [] + [a] == [a] && [] + [b] == [b];
  }

  // A sample at 2^31 ticks, the first that does not fit the offset, is shown 2^32 ticks early.
  lemma FarSampleIsMoved(s: Sample)
    requires s.dts == 0x8000_0000
    ensures var h := Then(Begin, Write(0, s));
            && Runnable([1], h) && Kept(Fed(h, 0)) == [s]
            && var t := Run(1, h).tracks[0];
            Timeline(t.timeOffset, t.samples) == Shifted([s], -TWO_32)
  {
    hide Timeline, Shifted, KeepFrom, Int32;
    var h := Then(Begin, Write(0, s));
    assert Fed(h, 0) == [] + [s] && Fed(h, 0) == [s];
    assert OpsInRange(Begin, 1);
    Append([], s);
    FarOffset();
    assert Run(1, Begin).tracks[0] == Track(0, 0, []);
    assert Run(1, h).tracks[0] == Put(Track(0, 0, []), s);
    assert Put(Track(0, 0, []), s) == Track(-0x8000_0000, s.dts, [] + [Store(Aligned(s))]);
    OneSample(-0x8000_0000, s, -TWO_32);
    assert [] + [Store(Aligned(s))] == [Store(Aligned(s))];
  }

  lemma FarOffset()
    ensures Int32(0x8000_0000) == -0x8000_0000
  {
  }
}
