/** What every error-free recording keeps: no sample is lost, and the files say when each one is due. */
module RecorderSafety {
  import opened Wrappers
  import opened Arith
  import opened RecorderState

  // ---- what was fed, what was stored ----

  // The fed samples with decode times that never decrease.
  function Clamped(fed: seq<Sample>): (c: seq<Sample>)
    ensures |c| == |fed|
  {
    if |fed| <= 1 then fed
    else
      var c := Clamped(fed[..|fed| - 1]);
      c + [Clamp(c[|c| - 1], fed[|fed| - 1])]
  }

  // The fed samples, except the last one and the dropped ones, each with its duration.
  function Kept(fed: seq<Sample>, dropped: set<int>): seq<Sample> {
    if |fed| <= 1 then []
    else
      var c, n := Clamped(fed), |fed|;
      Kept(fed[..n - 1], dropped) + (if n - 2 in dropped then [] else [WithDuration(c[n - 2], c[n - 1])])
  }

  function PartSamples(p: Part, t: TrackId): seq<Sample> {
    if t in p.fragments then p.fragments[t].samples else []
  }

  function PartsSamples(ps: seq<Part>, t: TrackId): seq<Sample> {
    if ps == [] then [] else PartsSamples(ps[..|ps| - 1], t) + PartSamples(ps[|ps| - 1], t)
  }

  function SegmentSamples(s: Segment, t: TrackId): seq<Sample> {
    PartsSamples(s.parts, t) + (if s.curPart.Some? then PartSamples(s.curPart.value, t) else [])
  }

  function SegmentsSamples(ss: seq<Segment>, t: TrackId): seq<Sample> {
    if ss == [] then [] else SegmentsSamples(ss[..|ss| - 1], t) + SegmentSamples(ss[|ss| - 1], t)
  }

  // Every sample of the track in the files and in the part being filled, in order.
  function Recorded(r: Recorder, t: TrackId): seq<Sample> {
    SegmentsSamples(r.closed, t) + (if r.current.Some? then SegmentSamples(r.current.value, t) else [])
  }

  lemma PartsAppend(ps: seq<Part>, p: Part, t: TrackId)
    ensures PartsSamples(ps + [p], t) == PartsSamples(ps, t) + PartSamples(p, t)
  {
    assert (ps + [p])[..|ps|] == ps;
  }

  lemma SegmentsAppend(ss: seq<Segment>, s: Segment, t: TrackId)
    ensures SegmentsSamples(ss + [s], t) == SegmentsSamples(ss, t) + SegmentSamples(s, t)
  {
    assert (ss + [s])[..|ss|] == ss;
  }

  lemma RotateKeepsSamples(s: Segment, partDuration: int, dts: int, t: TrackId)
    ensures SegmentSamples(Rotate(s, partDuration, dts), t) == SegmentSamples(s, t)
  {
    if s.curPart.Some? {
      PartsAppend(s.parts, s.curPart.value, t);
    }
  }

  lemma CloseKeepsSamples(s: Segment, t: TrackId)
    ensures SegmentSamples(SegmentClose(s), t) == SegmentSamples(s, t)
  {
    if s.curPart.Some? {
      PartsAppend(s.parts, s.curPart.value, t);
    }
  }

  // A write stores exactly one sample, at the end of its track.
  lemma SegmentWriteAppends(s: Segment, settings: Settings, t: TrackId, rate: int, sample: Sample, dts: int, u: TrackId)
    requires rate > 0 && SegmentWrite(s, settings, t, rate, sample, dts).1
    ensures SegmentSamples(SegmentWrite(s, settings, t, rate, sample, dts).0, u)
         == SegmentSamples(s, u) + (if u == t then [sample] else [])
  {
    hide ToDuration, ToTicks;
    var e := s.(endDTS := Max(s.endDTS, EndOf(sample, dts, rate)));
    RotateKeepsSamples(e, settings.partDuration, dts, u);
    var r := Rotate(e, settings.partDuration, dts);
    var p := PartWrite(r.curPart.value, settings.maxPartSize, s.startDTS, t, rate, sample, dts).value;
    assert PartSamples(p, u) == PartSamples(r.curPart.value, u) + (if u == t then [sample] else []);
  }

  // ---- the invariant of a recording ----

  // Consecutive samples of a track: decode times do not decrease and durations bridge them.
  ghost predicate Linked(ss: seq<Sample>) {
    forall i :: 0 <= i < |ss| - 1 ==> LinkedTo(ss[i], ss[i + 1].dts)
  }

  ghost predicate LinkedTo(s: Sample, dts: int) {
    s.dts <= dts && s.duration == Uint32(dts - s.dts)
  }

  // A fragment starts where the file says, and not before its segment.
  ghost predicate FragmentOk(f: Fragment, start: int, rate: int)
    requires rate > 0
  {
    && f.samples != []
    && start <= ToDuration(f.samples[0].dts, rate)
    && f.baseTime == ToTicks(ToDuration(f.samples[0].dts, rate) - start, rate)
    && f.baseTime >= 0
  }

  ghost predicate PartOk(p: Part, start: int, rates: seq<int>) {
    && p.fragments != map[]
    && forall t :: t in p.fragments ==> t < |rates| && rates[t] > 0 && FragmentOk(p.fragments[t], start, rates[t])
  }

  ghost predicate SegmentOk(s: Segment, rates: seq<int>) {
    && (forall i :: 0 <= i < |s.parts| ==> PartOk(s.parts[i], s.startDTS, rates))
    && (s.curPart.Some? ==> PartOk(s.curPart.value, s.startDTS, rates))
    && (s.parts != [] ==> s.curPart.Some?)
    && (forall t :: 0 <= t < |rates| ==> Linked(SegmentSamples(s, t)))
  }

  function Rates(r: Recorder): seq<int> {
    seq(|r.tracks|, i requires 0 <= i < |r.tracks| => r.tracks[i].rate)
  }

  ghost predicate TracksOk(r: Recorder) {
    && |r.fed| == |r.tracks| && |r.dropped| == |r.tracks| && RatesOk(r.tracks)
    && forall t :: 0 <= t < |r.tracks| ==> TrackOk(r, t)
  }

  // Stored plus pending is fed minus dropped.
  ghost predicate TrackOk(r: Recorder, t: TrackId)
    requires t < |r.tracks| && |r.fed| == |r.tracks| && |r.dropped| == |r.tracks|
  {
    && r.tracks[t].nextSample == (if r.fed[t] == [] then None else Some(Clamped(r.fed[t])[|r.fed[t]| - 1]))
    && Recorded(r, t) == Kept(r.fed[t], r.dropped[t])
    && (forall i :: i in r.dropped[t] ==> 0 <= i < |r.fed[t]| - 1)
  }

  ghost predicate ClosedOk(s: Segment, number: nat, rates: seq<int>) {
    && s.number == number && s.curPart.None? && s.parts != []
    && (forall i :: 0 <= i < |s.parts| ==> PartOk(s.parts[i], s.startDTS, rates))
    && (forall t :: 0 <= t < |rates| ==> Linked(SegmentSamples(s, t)))
  }

  ghost predicate SegmentsOk(r: Recorder)
    requires RatesOk(r.tracks)
  {
    && (forall i :: 0 <= i < |r.closed| ==> ClosedOk(r.closed[i], i, Rates(r)))
    && (r.current.Some? ==> CurrentOk(r, r.current.value))
    && r.nextSegmentNumber == |r.closed| + (if r.current.Some? then 1 else 0)
  }

  ghost predicate CurrentOk(r: Recorder, s: Segment)
    requires RatesOk(r.tracks)
  {
    && SegmentOk(s, Rates(r)) && s.number == |r.closed|
    && forall t :: 0 <= t < |r.tracks| ==> PendingOk(s, r.tracks, t)
  }

  // The pending sample of a track follows the last one that the segment holds.
  ghost predicate PendingOk(s: Segment, tracks: seq<Track>, t: TrackId)
    requires t < |tracks| && RatesOk(tracks)
  {
    if tracks[t].nextSample.Some? then Follows(s, t, tracks[t].nextSample.value.dts, tracks[t].rate)
    else SegmentSamples(s, t) == []
  }

  ghost predicate Follows(s: Segment, t: TrackId, dts: int, rate: int)
    requires rate > 0
  {
    var ss := SegmentSamples(s, t);
    ss != [] ==> LinkedTo(ss[|ss| - 1], dts) && s.startDTS <= ToDuration(dts, rate)
  }

  ghost predicate Inv(r: Recorder) {
    TracksOk(r) && SegmentsOk(r)
  }

  // ---- one write ----

  lemma {:induction false} KeptIgnores(fed: seq<Sample>, dropped: set<int>, i: int)
    requires i >= |fed| - 1
    ensures Kept(fed, dropped + {i}) == Kept(fed, dropped)
    decreases |fed|
  {
    if |fed| > 1 {
      KeptIgnores(fed[..|fed| - 1], dropped, i);
    }
  }

  // Feeding one more sample settles the one before it.
  lemma KeptStep(fed: seq<Sample>, sample: Sample, dropped: set<int>)
    requires fed != [] && forall i :: i in dropped ==> i < |fed| - 1
    ensures var c := Clamped(fed)[|fed| - 1];
            var more := fed + [sample];
            && Clamped(more)[|fed|] == Clamp(c, sample)
            && Kept(more, dropped) == Kept(fed, dropped) + [WithDuration(c, Clamp(c, sample))]
            && Kept(more, dropped + {|fed| - 1}) == Kept(fed, dropped)
  {
    var more := fed + [sample];
    assert more[..|fed|] == fed;
    KeptIgnores(fed, dropped, |fed| - 1);
  }

  lemma FirstFragmentOk(sample: Sample, start: int, rate: int)
    requires rate > 0 && start <= ToDuration(sample.dts, rate)
    ensures FragmentOk(Fragment(ToTicks(ToDuration(sample.dts, rate) - start, rate), [sample]), start, rate)
  {
    MultiplyAndDivideBounds(ToDuration(sample.dts, rate) - start, rate, SECOND);
    hide MultiplyAndDivide;
  }

  lemma FragmentAppendOk(f: Fragment, sample: Sample, start: int, rate: int)
    requires rate > 0 && FragmentOk(f, start, rate)
    ensures FragmentOk(f.(samples := f.samples + [sample]), start, rate)
  {
    hide ToDuration, ToTicks;
  }

  lemma PartWriteOk(p: Part, maxPartSize: int, start: int, t: TrackId, sample: Sample, rates: seq<int>)
    requires t < |rates| && rates[t] > 0
    requires PartOk(p, start, rates) || p.fragments == map[]
    requires start <= ToDuration(sample.dts, rates[t])
    requires PartWrite(p, maxPartSize, start, t, rates[t], sample, ToDuration(sample.dts, rates[t])).Some?
    ensures PartOk(PartWrite(p, maxPartSize, start, t, rates[t], sample, ToDuration(sample.dts, rates[t])).value,
        start, rates)
  {
    hide ToDuration, ToTicks, EndOf, FragmentOk;
    FirstFragmentOk(sample, start, rates[t]);
    if t in p.fragments {
      FragmentAppendOk(p.fragments[t], sample, start, rates[t]);
    } else {
      assert [] + [sample] == [sample];
    }
  }

  // The part that a sample goes to, and the parts before it.
  lemma RotateOk(s: Segment, endDTS: int, partDuration: int, dts: int, rates: seq<int>)
    requires SegmentOk(s, rates)
    ensures var r := Rotate(s.(endDTS := endDTS), partDuration, dts);
            && (forall i :: 0 <= i < |r.parts| ==> PartOk(r.parts[i], s.startDTS, rates))
            && (PartOk(r.curPart.value, s.startDTS, rates) || r.curPart.value.fragments == map[])
            && r.startDTS == s.startDTS && r.number == s.number && r.fromSync == s.fromSync
  {
    hide PartOk, Linked, SegmentSamples;
  }

  lemma SegmentWriteParts(s: Segment, settings: Settings, t: TrackId, sample: Sample, rates: seq<int>)
    requires SegmentOk(s, rates) && t < |rates| && rates[t] > 0
    requires s.startDTS <= ToDuration(sample.dts, rates[t])
    requires SegmentWrite(s, settings, t, rates[t], sample, ToDuration(sample.dts, rates[t])).1
    ensures var w := SegmentWrite(s, settings, t, rates[t], sample, ToDuration(sample.dts, rates[t])).0;
            && (forall i :: 0 <= i < |w.parts| ==> PartOk(w.parts[i], s.startDTS, rates))
            && w.curPart.Some? && PartOk(w.curPart.value, s.startDTS, rates)
            && w.startDTS == s.startDTS && w.number == s.number && w.fromSync == s.fromSync
  {
    hide ToDuration, EndOf, PartOk, Linked, SegmentSamples;
    var dts := ToDuration(sample.dts, rates[t]);
    var e := s.(endDTS := Max(s.endDTS, EndOf(sample, dts, rates[t])));
    RotateOk(s, e.endDTS, settings.partDuration, dts, rates);
    var r := Rotate(e, settings.partDuration, dts);
    PartWriteOk(r.curPart.value, settings.maxPartSize, s.startDTS, t, sample, rates);
    hide Rotate, PartWrite;
  }

  lemma LinkedAppend(ss: seq<Sample>, sample: Sample, more: bool)
    requires Linked(ss) && (more && ss != [] ==> LinkedTo(ss[|ss| - 1], sample.dts))
    ensures Linked(ss + (if more then [sample] else []))
  {
    hide LinkedTo;
    if !more {
      assert ss + [] == ss;
    }
  }

  lemma SegmentWriteOk(s: Segment, settings: Settings, t: TrackId, sample: Sample, rates: seq<int>)
    requires SegmentOk(s, rates) && t < |rates| && rates[t] > 0
    requires s.startDTS <= ToDuration(sample.dts, rates[t])
    requires Follows(s, t, sample.dts, rates[t])
    requires SegmentWrite(s, settings, t, rates[t], sample, ToDuration(sample.dts, rates[t])).1
    ensures var w := SegmentWrite(s, settings, t, rates[t], sample, ToDuration(sample.dts, rates[t])).0;
            SegmentOk(w, rates) && w.startDTS == s.startDTS && w.number == s.number && w.curPart.Some?
                && w.fromSync == s.fromSync
  {
    var dts := ToDuration(sample.dts, rates[t]);
    var w := SegmentWrite(s, settings, t, rates[t], sample, dts).0;
    SegmentWriteParts(s, settings, t, sample, rates);
    forall u | 0 <= u < |rates| ensures Linked(SegmentSamples(w, u)) {
      hide PartWrite, SegmentWrite, ToDuration, PartOk, SegmentSamples, LinkedTo;
      SegmentWriteAppends(s, settings, t, rates[t], sample, dts, u);
      LinkedAppend(SegmentSamples(s, u), sample, u == t);
    }
    hide PartWrite, SegmentWrite, ToDuration, PartOk, SegmentSamples, Linked;
  }
}
