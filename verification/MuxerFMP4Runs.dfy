/** The whole fragmented output: what every run of the muxer, closed by its flush, contains of every track. */
module MuxerFMP4Runs {
  import opened Wrappers
  import opened Arith
  import opened Playback
  import opened MuxerFMP4State
  import opened MuxerFMP4Safety

  function New(timeScales: seq<int>): Muxer {
    Muxer(seq(|timeScales|, i requires 0 <= i < |timeScales| => NewTrack(timeScales[i])), false, 0, [])
  }

  // The fragments of one track, over all parts.
  function Fragments(out: seq<Part>, i: nat): seq<Fragment> {
    if out == [] then []
    else
      var p := out[|out| - 1];
      Fragments(out[..|out| - 1], i)
      + (if i < |p.fragments| && p.fragments[i].Some? then [p.fragments[i].value] else [])
  }

  lemma FragmentsOfMore(out: seq<Part>, p: Part, i: nat)
    ensures Fragments(out + [p], i)
         == Fragments(out, i) + (if i < |p.fragments| && p.fragments[i].Some? then [p.fragments[i].value] else [])
  {
    assert (out + [p])[..|out|] == out;
  }

  // Parts are numbered in order, none is empty, and the header precedes the first of them.
  predicate Numbered(m: Muxer) {
    && (forall k :: 0 <= k < |m.out| ==> m.out[k].sequenceNumber == Uint32(k))
    && (forall k :: 0 <= k < |m.out| ==> !AllNone(m.out[k].fragments) && |m.out[k].fragments| == |m.tracks|)
    && m.nextSequenceNumber == Uint32(|m.out|)
    && (m.initWritten <==> m.out != [])
  }

  ghost predicate Inv(m: Muxer, fed: seq<seq<Sample>>) {
    && |fed| == |m.tracks| && Numbered(m)
    && forall i :: 0 <= i < |m.tracks| ==> TrackInv(m.tracks[i], Fragments(m.out, i), fed[i])
  }

  lemma InvIndexable(m: Muxer, fed: seq<seq<Sample>>)
    requires Inv(m, fed)
    ensures Indexable(m)
  {
    forall i | 0 <= i < |m.tracks| && m.tracks[i].firstDTS >= 0 ensures m.tracks[i].samples != [] {
      assert TrackInv(m.tracks[i], Fragments(m.out, i), fed[i]);
    }
  }

  lemma PutKeeps(t: Track, fs: seq<Fragment>, ss: seq<Sample>, s: Sample)
    requires TrackInv(t, fs, ss) && Steady(ss + [s])
    ensures TrackInv(Put(t, s), fs, ss + [s])
  {
    if HasVisible(ss) {
      PutVisible(t, fs, ss, s);
    } else if s.dts < 0 {
      PutHidden(t, fs, ss, s);
    } else {
      PutFirstVisible(t, fs, ss, s);
    }
  }

  // A due track always has a fragment to give: one time scale separates its first and last samples.
  lemma DueIsFlushable(t: Track, fs: seq<Fragment>, ss: seq<Sample>)
    requires TrackInv(t, fs, ss) && IsDue(t)
    ensures Flushable(t, false).Some?
  {
    MultiplyAndDivideBounds(PART_DURATION, t.timeScale, SECOND);
    assert ToTicks(PART_DURATION, t.timeScale) > 0;
    assert HasVisible(ss) && t.lastDTS > t.firstDTS;
    assert t.samples[..0] == [];
  }

  lemma NumberedNext(m: Muxer)
    requires Numbered(m) && InnerFlush(m, false).Some?
    ensures Numbered(InnerFlush(m, false).value)
  {
    assert Uint32(Uint32(|m.out|) + 1) == Uint32(|m.out| + 1);
  }

  lemma FlushOne(t: Track, fs: seq<Fragment>, ss: seq<Sample>)
    requires TrackInv(t, fs, ss)
    ensures var f := Flushable(t, false);
            TrackInv(Flushed(t, false), fs + (if f.Some? then [f.value] else []), ss)
  {
    if Flushable(t, false).Some? {
      FlushKeeps(t, fs, ss);
    } else {
      hide TrackInv;
      assert fs + [] == fs;
    }
  }

  lemma InnerFlushKeeps(m: Muxer, fed: seq<seq<Sample>>, i: nat)
    requires Inv(m, fed) && i < |m.tracks| && Flushable(m.tracks[i], false).Some?
    ensures InnerFlush(m, false).Some? && Inv(InnerFlush(m, false).value, fed)
  {
    hide Flushable, Flushed, TrackInv, Fragments;
    var fs, ts := FlushableParts(m.tracks, false), FlushedTracks(m.tracks, false);
    assert fs[i].Some?;
    NumberedNext(m);
    hide Numbered;
    var p := Part(m.nextSequenceNumber, fs);
    forall j | 0 <= j < |m.tracks|
      ensures TrackInv(ts[j], Fragments(m.out + [p], j), fed[j])
    {
      FragmentsOfMore(m.out, p, j);
      FlushOne(m.tracks[j], Fragments(m.out, j), fed[j]);
    }
    hide FlushedTracks;
  }

  lemma WriteSampleKeeps(m: Muxer, fed: seq<seq<Sample>>, i: nat, s: Sample)
    requires Inv(m, fed) && i < |m.tracks| && Steady(fed[i] + [s])
    ensures Indexable(m) && WriteSample(m, i, s).Some?
    ensures Inv(WriteSample(m, i, s).value, fed[i := fed[i] + [s]])
  {
    hide TrackInv, Put, Fragments, IsDue, Steady, Inv, Numbered, Indexable, InnerFlush, Flushable;
    InvIndexable(m, fed);
    InvOfTrack(m, fed, i);
    var fs := Fragments(m.out, i);
    PutKeeps(m.tracks[i], fs, fed[i], s);
    IndexableTrack(m, i);
    var t := Put(m.tracks[i], s);
    var w, more := m.(tracks := m.tracks[i := t]), fed[i := fed[i] + [s]];
    OneTrackKeeps(m, fed, i, t, fed[i] + [s]);
    if s.dts >= 0 && IsDue(t) {
      DueIsFlushable(t, fs, more[i]);
      InnerFlushKeeps(w, more, i);
    }
  }

  lemma InvOfTrack(m: Muxer, fed: seq<seq<Sample>>, i: nat)
    requires Inv(m, fed) && i < |m.tracks|
    ensures |fed| == |m.tracks| && TrackInv(m.tracks[i], Fragments(m.out, i), fed[i])
  {
  }

  lemma IndexableTrack(m: Muxer, i: nat)
    requires Indexable(m) && i < |m.tracks|
    ensures m.tracks[i].firstDTS >= 0 ==> m.tracks[i].samples != []
  {
  }

  lemma OneTrackKeeps(m: Muxer, fed: seq<seq<Sample>>, i: nat, t: Track, ss: seq<Sample>)
    requires Inv(m, fed) && i < |m.tracks| && TrackInv(t, Fragments(m.out, i), ss)
    ensures |fed| == |m.tracks| && Inv(m.(tracks := m.tracks[i := t]), fed[i := ss])
  {
    hide TrackInv, Fragments;
  }

  lemma FinalKeeps(m: Muxer, fed: seq<seq<Sample>>, i: nat, dts: int)
    requires Inv(m, fed) && i < |m.tracks|
    ensures Inv(WriteFinalDTS(m, i, dts), fed)
  {
    hide TrackInv, Finish, Fragments;
    assert TrackInv(m.tracks[i], Fragments(m.out, i), fed[i]);
    FinishKeeps(m.tracks[i], Fragments(m.out, i), fed[i], dts);
  }

  function Step(m: Muxer, op: Op): Option<Muxer>
    requires op.track < |m.tracks| && Indexable(m)
  {
    match op
    case Write(i, s) => WriteSample(m, i, s)
    case Final(i, dts) => Some(WriteFinalDTS(m, i, dts))
  }

  lemma StepKeeps(m: Muxer, fed: seq<seq<Sample>>, op: Op, more: seq<seq<Sample>>)
    requires Inv(m, fed) && op.track < |m.tracks|
    requires more == (if op.Write? then fed[op.track := fed[op.track] + [op.sample]] else fed)
    requires Steady(more[op.track])
    ensures Indexable(m) && Step(m, op).Some? && Inv(Step(m, op).value, more)
  {
    InvIndexable(m, fed);
    assert |fed| == |m.tracks|;
    hide Inv, Steady, WriteSample, WriteFinalDTS;
    if op.Write? {
      WriteSampleKeeps(m, fed, op.track, op.sample);
    } else {
      FinalKeeps(m, fed, op.track, op.dts);
    }
  }

  // Ops on an unknown track or on an empty buffer, and failed flushes, give None.
  function Run(timeScales: seq<int>, h: History): Option<Muxer> {
    match h
    case Begin => Some(New(timeScales))
    case Then(before, op) =>
      var r := Run(timeScales, before);
      if r.None? || op.track >= |r.value.tracks| || !Indexable(r.value) then None else Step(r.value, op)
  }

  // No write fails or indexes an empty buffer, and the invariant holds throughout.
  lemma {:induction false} RunKeepsInv(timeScales: seq<int>, h: History)
    requires Runnable(timeScales, h)
    ensures Run(timeScales, h).Some? && |Run(timeScales, h).value.tracks| == |timeScales|
    ensures Inv(Run(timeScales, h).value, AllFed(h, |timeScales|))
  {
    var n := |timeScales|;
    hide Inv, Steady, Step, New, Indexable;
    if h.Then? {
      RunnablePrefix(timeScales, h);
      RunKeepsInv(timeScales, h.before);
      var m := Run(timeScales, h.before).value;
      FedStep(h, n);
      assert Steady(Fed(h, h.last.track));
      StepKeeps(m, AllFed(h.before, n), h.last, AllFed(h, n));
      StepKeepsTracks(m, h.last);
    } else {
      NewKeeps(timeScales);
    }
  }

  lemma StepKeepsTracks(m: Muxer, op: Op)
    requires op.track < |m.tracks| && Indexable(m) && Step(m, op).Some?
    ensures |Step(m, op).value.tracks| == |m.tracks|
  {
  }

  lemma NewKeeps(timeScales: seq<int>)
    requires forall i :: 0 <= i < |timeScales| ==> timeScales[i] > 0
    ensures Inv(New(timeScales), AllFed(Begin, |timeScales|)) && |New(timeScales).tracks| == |timeScales|
  {
  }

  lemma FlushedTrack(m: Muxer, fed: seq<seq<Sample>>, i: nat)
    requires Inv(m, fed) && i < |m.tracks|
    ensures var fs := FlushableParts(m.tracks, true);
            var all := Fragments(m.out + [Part(m.nextSequenceNumber, fs)], i);
            && Chained(all) && FragmentsTimeline(all) == (if HasVisible(fed[i]) then Expected(fed[i]) else [])
            && (fs[i].Some? <==> HasVisible(fed[i]))
            && (Fragments(m.out, i) != [] ==> HasVisible(fed[i]))
  {
    assert FragmentsTimeline([]) == [] && Chained([]);
    hide Flushable, FirstVisible, Expected, Fragments, FragmentsTimeline, Chained, Numbered;
    assert TrackInv(m.tracks[i], Fragments(m.out, i), fed[i]);
    FinalFlush(m.tracks[i], Fragments(m.out, i), fed[i]);
    FragmentsOfMore(m.out, Part(m.nextSequenceNumber, FlushableParts(m.tracks, true)), i);
    if !HasVisible(fed[i]) {
      assert [] + [] == Fragments(m.out, i);
    }
  }

  // What is written holds something of a visible track.
  lemma WrittenIsVisible(m: Muxer, fed: seq<seq<Sample>>) returns (i: nat)
    requires Inv(m, fed) && m.out != []
    ensures i < |m.tracks| && HasVisible(fed[i])
  {
    var p := m.out[|m.out| - 1];
    i :| 0 <= i < |p.fragments| && p.fragments[i].Some?;
    assert Fragments(m.out, i) != [];
    assert TrackInv(m.tracks[i], Fragments(m.out, i), fed[i]);
  }

  ghost predicate SomeVisible(fed: seq<seq<Sample>>) {
    exists i :: 0 <= i < |fed| && HasVisible(fed[i])
  }

  lemma FlushExactly(m: Muxer, fed: seq<seq<Sample>>)
    requires Inv(m, fed)
    ensures InnerFlush(m, true).Some? <==> SomeVisible(fed)
    ensures SomeVisible(fed) ==>
              InnerFlush(m, true).value.out == m.out + [Part(m.nextSequenceNumber, FlushableParts(m.tracks, true))]
  {
    forall i | 0 <= i < |m.tracks|
      ensures FlushableParts(m.tracks, true)[i].Some? <==> HasVisible(fed[i])
    {
      FlushedTrack(m, fed, i);
    }
    hide Flushable, HasVisible;
    if m.out != [] {
      var i := WrittenIsVisible(m, fed);
    }
    hide TrackInv;
  }

  // Every track of the output shows its input from the last sync sample at or before the first visible one,
  // and the flush reports that there is nothing exactly when no track has a visible sample.
  lemma OutputIsWhatAPlayerShouldSee(timeScales: seq<int>, h: History)
    requires Runnable(timeScales, h)
    ensures Run(timeScales, h).Some?
    ensures var r := InnerFlush(Run(timeScales, h).value, true);
            && (r.Some? <==> SomeVisible(AllFed(h, |timeScales|)))
            && (r.Some? ==> forall i :: 0 <= i < |timeScales| ==>
                 && Chained(Fragments(r.value.out, i))
                 && FragmentsTimeline(Fragments(r.value.out, i))
                    == if HasVisible(Fed(h, i)) then Expected(Fed(h, i)) else [])
  {
    RunKeepsInv(timeScales, h);
    var m, fed := Run(timeScales, h).value, AllFed(h, |timeScales|);
    FlushExactly(m, fed);
    forall i | 0 <= i < |timeScales|
      ensures var all := Fragments(m.out + [Part(m.nextSequenceNumber, FlushableParts(m.tracks, true))], i);
              Chained(all) && FragmentsTimeline(all) == if HasVisible(Fed(h, i)) then Expected(Fed(h, i)) else []
    {
      FlushedTrack(m, fed, i);
      hide Chained, FragmentsTimeline, Expected, HasVisible, Fragments, InnerFlush, Inv, Run;
    }
    hide Chained, FragmentsTimeline, Expected, HasVisible, Fragments, InnerFlush, Inv, Run;
  }
}
