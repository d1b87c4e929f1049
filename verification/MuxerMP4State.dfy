/** playback/muxer_mp4.go as values, and what its output shares with that of muxer_fmp4.go. */
module MuxerMP4State {
  import opened Wrappers
  import opened Arith
  import opened Playback

  datatype Track = Track(timeOffset: int, lastDTS: int, samples: seq<Stored>)

  datatype Muxer = Muxer(tracks: seq<Track>, curTrack: Option<nat>)

  // The conversion to int32.
  function Int32(a: int): int {
    (a + TWO_32 / 2) % TWO_32 - TWO_32 / 2
  }

  predicate FitsInt32(a: int) {
    -TWO_32 <= 2 * a < TWO_32
  }

  // Sync samples are shown at their decode time.
  function Aligned(s: Sample): Sample {
    if s.isNonSync then s else s.(ptsOffset := 0)
  }

  function Put(t: Track, s: Sample): Track {
    var gop := if (s.dts < 0 || t.lastDTS < 0) && !s.isNonSync then [] else t.samples;
    Track(if gop == [] then Int32(s.dts) else t.timeOffset, s.dts,
          WithLastDuration(gop, Gap(t.lastDTS, s.dts)) + [Store(Aligned(s))])
  }

  function Finish(t: Track, dts: int): Track {
    t.(samples := WithLastDuration(t.samples, Gap(t.lastDTS, dts)))
  }

  function Step(m: Muxer, op: Op): Muxer
    requires op.track < |m.tracks|
  {
    var t := m.tracks[op.track];
    Muxer(m.tracks[op.track := if op.Write? then Put(t, op.sample) else Finish(t, op.dts)], Some(op.track))
  }

  function New(n: nat): (m: Muxer)
    ensures |m.tracks| == n
  {
    Muxer(seq(n, i => Track(0, 0, [])), None)
  }

  function Run(n: nat, h: History): (m: Muxer)
    requires OpsInRange(h, n)
    ensures |m.tracks| == n
  {
    match h
    case Begin => New(n)
    case Then(before, op) => Step(Run(n, before), op)
  }

  // None is ErrNoSegmentsFound; otherwise the tracks of the file, None for one that is left out.
  function Flush(m: Muxer): (r: Option<seq<Option<Track>>>)
    requires m.curTrack.Some? && m.curTrack.value < |m.tracks|
    ensures r.Some? ==> |r.value| == |m.tracks|
  {
    var t := m.tracks[m.curTrack.value];
    if t.samples == [] || t.lastDTS < 0 then None
    else Some(seq(|m.tracks|, i requires 0 <= i < |m.tracks| =>
                    if m.tracks[i].samples != [] then Some(m.tracks[i]) else None))
  }
}

module MuxerMP4Safety {
  import opened Arith
  import opened Playback
  import opened MuxerMP4State

  // Where a sample is shown, relative to its decode time: a sync sample is shown at that time.
  function ShownOffset(s: Sample): int {
    if s.isNonSync then s.ptsOffset else 0
  }

  // Each sample at its own decode time, moved by shift.
  function Shifted(ss: seq<Sample>, shift: int): (r: seq<Timed>)
    ensures |r| == |ss|
  {
    seq(|ss|, i requires 0 <= i < |ss| =>
      Timed(ss[i].dts + shift, ShownOffset(ss[i]), ss[i].isNonSync, ss[i].payload))
  }

  // What the 32 bits of the time offset lose.
  function Shift(ss: seq<Sample>): int {
    var kept := Kept(ss);
    if kept == [] then 0 else Int32(kept[0].dts) - kept[0].dts
  }

  ghost predicate TrackInv(t: Track, ss: seq<Sample>) {
    if ss == [] then t == Track(0, 0, []) else FedInv(t, ss)
  }

  ghost predicate FedInv(t: Track, ss: seq<Sample>)
    requires ss != []
  {
    var shift := Shift(ss);
    && t.lastDTS == ss[|ss| - 1].dts && t.samples != []
    && t.timeOffset + Durations(t.samples[..|t.samples| - 1]) == t.lastDTS + shift
    && Timeline(t.timeOffset, t.samples) == Shifted(Kept(ss), shift)
  }

  lemma VisibleIsLast(ss: seq<Sample>)
    requires Steady(ss) && ss != []
    ensures HasVisible(ss) <==> ss[|ss| - 1].dts >= 0
  {
    if HasVisible(ss) {
      SteadyIsOrdered(ss, FirstVisible(ss), |ss| - 1);
    }
  }

  lemma PutRestarts(t: Track, ss: seq<Sample>, s: Sample)
    requires Kept(ss + [s]) == [s] && (Put(t, s).samples == [Store(Aligned(s))]) && Put(t, s).timeOffset == Int32(s.dts)
    ensures TrackInv(Put(t, s), ss + [s])
  {
    var p := Put(t, s);
    OneSample(p.timeOffset, s, Int32(s.dts) - s.dts);
    hide Timeline, Durations, Int32, Aligned, Shifted, Gap, WithLastDuration, KeepFrom;
  }

  lemma OneSample(base: int, s: Sample, shift: int)
    requires base == s.dts + shift
    ensures var ss := [Store(Aligned(s))];
            Timeline(base, ss) == Shifted([s], shift) && Durations(ss[..|ss| - 1]) == 0
  {
    assert [Store(Aligned(s))][..0] == [];
  }

  lemma PutTimeline(t: Track, s: Sample, shift: int)
    requires t.samples != [] && 0 <= s.dts - t.lastDTS < TWO_32 && ((s.dts < 0 || t.lastDTS < 0) ==> s.isNonSync)
    requires t.timeOffset + Durations(t.samples[..|t.samples| - 1]) == t.lastDTS + shift
    ensures var p := Put(t, s);
            && p.timeOffset == t.timeOffset && p.lastDTS == s.dts && p.samples != []
            && p.timeOffset + Durations(p.samples[..|p.samples| - 1]) == s.dts + shift
            && Timeline(p.timeOffset, p.samples) == Timeline(t.timeOffset, t.samples)
                 + [Timed(s.dts + shift, ShownOffset(s), s.isNonSync, s.payload)]
  {
    TimelineSettled(t.timeOffset, t.samples, s.dts - t.lastDTS, Store(Aligned(s)));
    hide Timeline, Durations;
    var p := Put(t, s);
    assert p.samples[..|p.samples| - 1] == p.samples[..|t.samples|];
  }

  lemma PutExtends(t: Track, ss: seq<Sample>, s: Sample)
    requires ss != [] && FedInv(t, ss) && Kept(ss) != [] && Kept(ss + [s]) == Kept(ss) + [s]
    requires 0 <= s.dts - t.lastDTS < TWO_32 && ((s.dts < 0 || t.lastDTS < 0) ==> s.isNonSync)
    ensures TrackInv(Put(t, s), ss + [s])
  {
    hide Timeline, Durations, Kept, Put, Int32, Aligned, Shifted;
    var shift := Shift(ss);
    assert Shift(ss + [s]) == shift;
    hide Shift;
    PutTimeline(t, s, shift);
    ShiftedAppend(Kept(ss), s, shift);
  }

  lemma ShiftedAppend(ss: seq<Sample>, s: Sample, shift: int)
    ensures Shifted(ss + [s], shift)
         == Shifted(ss, shift) + [Timed(s.dts + shift, ShownOffset(s), s.isNonSync, s.payload)]
  {
  }

  // When the muxer drops what it holds is when the kept samples start over.
  lemma RestartsExactly(ss: seq<Sample>, s: Sample)
    requires ss != [] && Steady(ss + [s])
    ensures var last := ss[|ss| - 1].dts;
            && 0 <= s.dts - last < TWO_32 && Kept(ss) != []
            && Kept(ss + [s]) == if (s.dts < 0 || last < 0) && !s.isNonSync then [s] else Kept(ss) + [s]
  {
    var more, n := ss + [s], |ss| - 1;
    assert 0 <= more[n + 1].dts - more[n].dts < TWO_32;
    SteadyPrefix(ss, [s]);
    VisibleIsLast(ss);
    Append(ss, s);
    assert KeepFrom(ss) < |ss|;
    hide Steady, HasVisible, KeepFrom;
  }

  lemma PutKeeps(t: Track, ss: seq<Sample>, s: Sample)
    requires TrackInv(t, ss) && Steady(ss + [s])
    ensures TrackInv(Put(t, s), ss + [s])
  {
    hide Int32, Shifted, Timeline, Durations, Gap, KeepFrom, Shift;
    if ss == [] {
      Append(ss, s);
      assert Kept([]) == [];
      PutRestarts(t, ss, s);
    } else {
      RestartsExactly(ss, s);
      hide Kept, Steady;
      if (s.dts < 0 || t.lastDTS < 0) && !s.isNonSync {
        PutRestarts(t, ss, s);
      } else {
        PutExtends(t, ss, s);
      }
      hide TrackInv;
    }
  }

  lemma FinishKeeps(t: Track, ss: seq<Sample>, dts: int)
    requires TrackInv(t, ss)
    ensures TrackInv(Finish(t, dts), ss)
    ensures ss != [] && 0 <= dts - ss[|ss| - 1].dts < TWO_32 ==>
              Finish(t, dts).timeOffset + Durations(Finish(t, dts).samples) == dts + Shift(ss)
  {
    if ss != [] {
      var f := Finish(t, dts);
      assert f.samples[..|f.samples| - 1] == t.samples[..|t.samples| - 1];
      hide Kept, Shift, Shifted;
    }
  }
}
