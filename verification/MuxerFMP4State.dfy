/** playback/muxer_fmp4.go as values: each track buffers samples that every flush turns into a fragment. */
module MuxerFMP4State {
  import opened Wrappers
  import opened Arith
  import opened Playback

  const PART_DURATION: int := SECOND

  datatype Track = Track(timeScale: int, firstDTS: int, lastDTS: int, samples: seq<Stored>)

  datatype Fragment = Fragment(baseTime: int, samples: seq<Stored>)

  // One entry for each track of the muxer; None where the part holds nothing of it.
  datatype Part = Part(sequenceNumber: int, fragments: seq<Option<Fragment>>)

  datatype Muxer = Muxer(tracks: seq<Track>, initWritten: bool, nextSequenceNumber: int, out: seq<Part>)

  function NewTrack(timeScale: int): Track {
    Track(timeScale, -1, 0, [])
  }

  // writeSample, before the flush. A visible sample settles the duration of the one before it.
  function Put(t: Track, s: Sample): Track
    requires t.firstDTS >= 0 ==> t.samples != []
  {
    var gop := if s.isNonSync then t.samples else [];
    if s.dts < 0 then t.(samples := gop + [Store(s)])
    else if t.firstDTS < 0 then t.(firstDTS := s.dts, lastDTS := s.dts, samples := gop + [Store(s)])
    else t.(lastDTS := s.dts, samples := WithLastDuration(t.samples, Gap(t.lastDTS, s.dts)) + [Store(s)])
  }

  function Finish(t: Track, dts: int): Track {
    if t.samples != [] && t.firstDTS >= 0 then t.(samples := WithLastDuration(t.samples, Gap(t.lastDTS, dts))) else t
  }

  predicate IsDue(t: Track) {
    t.firstDTS >= 0 && t.lastDTS - t.firstDTS >= ToTicks(PART_DURATION, t.timeScale)
  }

  // innerFlush holds the last sample back, since its duration may still change.
  function Flushable(t: Track, final: bool): Option<Fragment> {
    var n := |t.samples|;
    if t.firstDTS >= 0 && (n > 1 || (final && n != 0))
    then Some(Fragment(t.firstDTS, if final then t.samples else t.samples[..n - 1]))
    else None
  }

  function Flushed(t: Track, final: bool): Track {
    if Flushable(t, final).Some? && !final
    then t.(samples := t.samples[|t.samples| - 1..], firstDTS := t.lastDTS)
    else t
  }

  function FlushableParts(tracks: seq<Track>, final: bool): (fs: seq<Option<Fragment>>)
    ensures |fs| == |tracks|
  {
    seq(|tracks|, i requires 0 <= i < |tracks| => Flushable(tracks[i], final))
  }

  function FlushedTracks(tracks: seq<Track>, final: bool): (ts: seq<Track>)
    ensures |ts| == |tracks|
  {
    seq(|tracks|, i requires 0 <= i < |tracks| => Flushed(tracks[i], final))
  }

  predicate AllNone(fs: seq<Option<Fragment>>) {
    forall i :: 0 <= i < |fs| ==> fs[i].None?
  }

  // None is ErrNoSegmentsFound.
  function InnerFlush(m: Muxer, final: bool): Option<Muxer> {
    var fs := FlushableParts(m.tracks, final);
    if AllNone(fs) then if m.initWritten then Some(m) else None
    else Some(Muxer(FlushedTracks(m.tracks, final), true, Uint32(m.nextSequenceNumber + 1),
                    m.out + [Part(m.nextSequenceNumber, fs)]))
  }

  predicate Indexable(m: Muxer) {
    forall i :: 0 <= i < |m.tracks| && m.tracks[i].firstDTS >= 0 ==> m.tracks[i].samples != []
  }

  function WriteSample(m: Muxer, i: nat, s: Sample): Option<Muxer>
    requires i < |m.tracks| && Indexable(m)
  {
    var t := Put(m.tracks[i], s);
    var w := m.(tracks := m.tracks[i := t]);
    if s.dts >= 0 && IsDue(t) then InnerFlush(w, false) else Some(w)
  }

  function WriteFinalDTS(m: Muxer, i: nat, dts: int): Muxer
    requires i < |m.tracks|
  {
    m.(tracks := m.tracks[i := Finish(m.tracks[i], dts)])
  }
}

/** Every track of the fragmented output is what a player should get, however tracks and flushes interleave. */
module MuxerFMP4Safety {
  import opened Arith
  import opened Playback
  import opened MuxerFMP4State

  function Shown(s: Sample, from: int): Timed {
    Timed(Max(s.dts, from), s.ptsOffset, s.isNonSync, s.payload)
  }

  function Shows(ss: seq<Sample>, from: int): (r: seq<Timed>)
    ensures |r| == |ss|
  {
    seq(|ss|, i requires 0 <= i < |ss| => Shown(ss[i], from))
  }

  // What a player should see of a track: samples needed only for decoding appear at the first visible one.
  function Expected(ss: seq<Sample>): seq<Timed>
    requires HasVisible(ss)
  {
    Shows(Kept(ss), ss[FirstVisible(ss)].dts)
  }

  function Stores(ss: seq<Sample>): (r: seq<Stored>)
    ensures |r| == |ss|
  {
    seq(|ss|, i requires 0 <= i < |ss| => Store(ss[i]))
  }

  function FragmentsTimeline(fs: seq<Fragment>): seq<Timed> {
    if fs == [] then []
    else FragmentsTimeline(fs[..|fs| - 1]) + Timeline(fs[|fs| - 1].baseTime, fs[|fs| - 1].samples)
  }

  function End(f: Fragment): int {
    f.baseTime + Durations(f.samples)
  }

  // Each fragment starts where the previous one ends.
  predicate Chained(fs: seq<Fragment>) {
    forall i :: 0 <= i < |fs| - 1 ==> End(fs[i]) == fs[i + 1].baseTime
  }

  ghost predicate TrackInv(t: Track, fs: seq<Fragment>, ss: seq<Sample>) {
    && Chained(fs) && t.timeScale > 0
    && if HasVisible(ss) then VisibleInv(t, fs, ss) else t.firstDTS == -1 && fs == [] && t.samples == Stores(Kept(ss))
  }

  ghost predicate VisibleInv(t: Track, fs: seq<Fragment>, ss: seq<Sample>)
    requires HasVisible(ss)
  {
    && t.firstDTS >= 0 && t.samples != [] && t.lastDTS == ss[|ss| - 1].dts >= 0
    && t.firstDTS + Durations(t.samples[..|t.samples| - 1]) == t.lastDTS
    && FragmentsTimeline(fs) + Timeline(t.firstDTS, t.samples) == Expected(ss)
    && (fs != [] ==> End(fs[|fs| - 1]) == t.firstDTS)
  }

  lemma {:induction false} TimelineOfStores(base: int, ss: seq<Sample>)
    requires forall i :: 0 <= i < |ss| ==> ss[i].dts <= base
    ensures Durations(Stores(ss)) == 0
    ensures Timeline(base, Stores(ss)) == Shows(ss, base)
  {
    if ss != [] {
      var n := |ss| - 1;
      TimelineOfStores(base, ss[..n]);
      assert Stores(ss)[..n] == Stores(ss[..n]);
      assert Shows(ss, base) == Shows(ss[..n], base) + [Shown(ss[n], base)];
    }
  }

  lemma ExpectedAppend(ss: seq<Sample>, s: Sample)
    requires HasVisible(ss) && s.dts >= ss[FirstVisible(ss)].dts
    ensures HasVisible(ss + [s])
    ensures Expected(ss + [s]) == Expected(ss) + [Timed(s.dts, s.ptsOffset, s.isNonSync, s.payload)]
  {
    VisibleAppend(ss, s);
    Append(ss, s);
    hide Kept, FirstVisible;
    var from := ss[FirstVisible(ss)].dts;
    assert Shows(Kept(ss) + [s], from) == Shows(Kept(ss), from) + [Shown(s, from)];
  }

  lemma PutHidden(t: Track, fs: seq<Fragment>, ss: seq<Sample>, s: Sample)
    requires TrackInv(t, fs, ss) && !HasVisible(ss) && s.dts < 0
    ensures TrackInv(Put(t, s), fs, ss + [s])
  {
    VisibleAppend(ss, s);
    Append(ss, s);
    hide Kept, HasVisible, Chained;
  }

  lemma PutFirstVisible(t: Track, fs: seq<Fragment>, ss: seq<Sample>, s: Sample)
    requires TrackInv(t, fs, ss) && !HasVisible(ss) && s.dts >= 0
    ensures TrackInv(Put(t, s), fs, ss + [s])
  {
    hide KeepFrom, FirstVisible, Kept, Timeline, Durations, Shows, WithLastDuration, Gap, Chained, Stores;
    var p, more := Put(t, s), ss + [s];
    VisibleAppend(ss, s);
    KeptAreBefore(ss, s);
    PutIntoHidden(t, ss, s);
    var kept := Kept(more);
    hide Put, HasVisible;
    TimelineOfStores(s.dts, kept);
    TimelineOfStores(s.dts, kept[..|kept| - 1]);
    StoresFirst(kept);
    assert [] + Expected(more) == Expected(more);
  }

  lemma PutIntoHidden(t: Track, ss: seq<Sample>, s: Sample)
    requires !HasVisible(ss) && s.dts >= 0 && t.firstDTS == -1 && t.samples == Stores(Kept(ss))
    ensures Kept(ss + [s]) != [] && Put(t, s).samples == Stores(Kept(ss + [s]))
  {
    hide Kept, HasVisible;
    Append(ss, s);
  }

  lemma StoresFirst(ss: seq<Sample>)
    requires ss != []
    ensures Stores(ss)[..|ss| - 1] == Stores(ss[..|ss| - 1])
  {
  }

  lemma KeptAreBefore(ss: seq<Sample>, s: Sample)
    requires !HasVisible(ss) && s.dts >= 0
    ensures FirstVisible(ss + [s]) == |ss| && HasVisible(ss + [s])
    ensures forall i :: 0 <= i < |Kept(ss + [s])| ==> Kept(ss + [s])[i].dts <= s.dts
  {
    hide KeepFrom, FirstVisible;
    VisibleAppend(ss, s);
  }

  lemma PutVisible(t: Track, fs: seq<Fragment>, ss: seq<Sample>, s: Sample)
    requires TrackInv(t, fs, ss) && HasVisible(ss) && Steady(ss + [s])
    ensures TrackInv(Put(t, s), fs, ss + [s])
  {
    hide Timeline, Durations, FragmentsTimeline, Chained, Expected, WithLastDuration;
    LastGap(ss, s);
    VisibleAppend(ss, s);
    ExpectedAppend(ss, s);
    hide FirstVisible, HasVisible, Steady;
    assert Gap(t.lastDTS, s.dts) == s.dts - t.lastDTS;
    hide Gap;
    TimelineSettled(t.firstDTS, t.samples, s.dts - t.lastDTS, Store(s));
    var p, x := Put(t, s), Timed(s.dts, s.ptsOffset, s.isNonSync, s.payload);
    assert p.samples[..|p.samples| - 1] == p.samples[..|t.samples|];
    assert Timeline(t.firstDTS, p.samples) == Timeline(t.firstDTS, t.samples) + [x];
    Assoc(FragmentsTimeline(fs), Timeline(t.firstDTS, t.samples), [x]);
  }

  lemma LastGap(ss: seq<Sample>, s: Sample)
    requires HasVisible(ss) && Steady(ss + [s])
    ensures 0 <= s.dts - ss[|ss| - 1].dts < TWO_32 && ss[FirstVisible(ss)].dts <= s.dts && s.dts >= 0
  {
    var more, n := ss + [s], |ss| - 1;
    SteadyIsOrdered(more, FirstVisible(ss), n + 1);
    assert 0 <= more[n + 1].dts - more[n].dts < TWO_32;
  }

  lemma Assoc<T>(a: seq<T>, b: seq<T>, c: seq<T>)
    ensures a + (b + c) == (a + b) + c
  {
  }

  lemma FinishKeeps(t: Track, fs: seq<Fragment>, ss: seq<Sample>, dts: int)
    requires TrackInv(t, fs, ss)
    ensures TrackInv(Finish(t, dts), fs, ss)
    ensures HasVisible(ss) && 0 <= dts - ss[|ss| - 1].dts < TWO_32 ==>
              Finish(t, dts).firstDTS + Durations(Finish(t, dts).samples) == dts
  {
    if HasVisible(ss) {
      var f := Finish(t, dts);
      assert f.samples[..|f.samples| - 1] == t.samples[..|t.samples| - 1];
    }
  }

  lemma FragmentsAppend(fs: seq<Fragment>, f: Fragment)
    ensures FragmentsTimeline(fs + [f]) == FragmentsTimeline(fs) + Timeline(f.baseTime, f.samples)
  {
    assert (fs + [f])[..|fs|] == fs;
  }

  lemma {:induction false} TimelineSplit(base: int, ss: seq<Stored>)
    requires ss != []
    ensures Timeline(base, ss)
         == Timeline(base, ss[..|ss| - 1]) + Timeline(base + Durations(ss[..|ss| - 1]), ss[|ss| - 1..])
  {
    assert ss[|ss| - 1..][..0] == [];
  }

  lemma FlushKeeps(t: Track, fs: seq<Fragment>, ss: seq<Sample>)
    requires TrackInv(t, fs, ss) && Flushable(t, false).Some?
    ensures TrackInv(Flushed(t, false), fs + [Flushable(t, false).value], ss)
  {
    hide Expected, FragmentsTimeline, Timeline, Durations, HasVisible, Chained;
    var n, f, r := |t.samples|, Flushable(t, false).value, Flushed(t, false);
    assert f == Fragment(t.firstDTS, t.samples[..n - 1]);
    assert r == t.(samples := t.samples[n - 1..], firstDTS := t.lastDTS);
    FragmentsAppend(fs, f);
    TimelineSplit(t.firstDTS, t.samples);
    OneIsLeft(r.samples);
    ChainedAppend(fs, f);
    Assoc(FragmentsTimeline(fs), Timeline(f.baseTime, f.samples), Timeline(r.firstDTS, r.samples));
  }

  lemma OneIsLeft(ss: seq<Stored>)
    requires |ss| == 1
    ensures Durations(ss[..|ss| - 1]) == 0
  {
  }

  lemma ChainedAppend(fs: seq<Fragment>, f: Fragment)
    requires Chained(fs) && (fs != [] ==> End(fs[|fs| - 1]) == f.baseTime)
    ensures Chained(fs + [f])
  {
    hide End;
  }

  // The last flush emits what a player should see, exactly for the tracks with a visible sample.
  lemma FinalFlush(t: Track, fs: seq<Fragment>, ss: seq<Sample>)
    requires TrackInv(t, fs, ss)
    ensures Flushable(t, true).Some? <==> HasVisible(ss)
    ensures HasVisible(ss) ==>
              var all := fs + [Flushable(t, true).value];
              Chained(all) && FragmentsTimeline(all) == Expected(ss)
  {
    if HasVisible(ss) {
      FragmentsAppend(fs, Flushable(t, true).value);
    }
    hide Expected, FragmentsTimeline, Timeline, Durations, HasVisible;
  }
}
