/** How a segment is divided into parts: how long and how large they are, and when the next one begins. */
module RecorderParts {
  import opened Wrappers
  import opened Arith
  import opened RecorderState
  import opened RecorderSafety
  import opened RecorderRuns
  import opened RecorderStarts
  import opened RecorderCuts

  predicate RatesArePositive(rates: seq<int>) {
    forall t :: 0 <= t < |rates| ==> rates[t] > 0
  }

  // When a stored sample is over.
  function End(s: Sample, rate: int): int
    requires rate > 0
  {
    ToDuration(s.dts, rate) + ToDuration(s.duration, rate)
  }

  function SizeOf(ss: seq<Sample>): int {
    if ss == [] then 0 else SizeOf(ss[..|ss| - 1]) + ss[|ss| - 1].size
  }

  // The bytes of the first n tracks in the part.
  function SizeOfTracks(p: Part, n: nat): int {
    if n == 0 then 0 else SizeOfTracks(p, n - 1) + SizeOf(PartSamples(p, n - 1))
  }

  predicate IsIn(p: Part, rates: seq<int>, t: int, k: int) {
    0 <= t < |rates| && rates[t] > 0 && t in p.fragments && 0 <= k < |p.fragments[t].samples|
  }

  predicate EndsAt(p: Part, rates: seq<int>, t: int, k: int, end: int) {
    IsIn(p, rates, t, k) && End(p.fragments[t].samples[k], rates[t]) == end
  }

  predicate StartsAt(p: Part, rates: seq<int>, t: int, start: int) {
    IsIn(p, rates, t, 0) && ToDuration(p.fragments[t].samples[0].dts, rates[t]) == start
  }

  // Without the last sample of the track t the part would still be short.
  ghost predicate IsShortWithout(p: Part, rates: seq<int>, t: TrackId, partDuration: int) {
    && t in p.fragments
    && forall u, k :: IsIn(p, rates, u, k) && !(u == t && k == |p.fragments[t].samples| - 1) ==>
         End(p.fragments[u].samples[k], rates[u]) - p.startDTS < partDuration
  }

  // The part starts with one of its samples and ends with one (or at 0), its size is that of its samples and within the
  // limit, and no sample was added once it was long enough.
  ghost predicate IsMeasured(p: Part, rates: seq<int>, settings: Settings) {
    && (forall t :: t in p.fragments ==> t < |rates| && rates[t] > 0 && p.fragments[t].samples != [])
    && p.size == SizeOfTracks(p, |rates|) && p.size <= settings.maxPartSize
    && (forall t, k :: IsIn(p, rates, t, k) ==> End(p.fragments[t].samples[k], rates[t]) <= p.endDTS)
    && (p.endDTS == 0 || exists t, k :: EndsAt(p, rates, t, k, p.endDTS))
    && (exists t :: StartsAt(p, rates, t, p.startDTS))
    && (exists t :: IsShortWithout(p, rates, t, settings.partDuration))
  }

  // ---- one write to a part ----

  lemma SizeOfMore(ss: seq<Sample>, sample: Sample)
    ensures SizeOf(ss + [sample]) == SizeOf(ss) + sample.size
  {
    assert (ss + [sample])[..|ss|] == ss;
  }

  lemma {:induction false} SizeGrows(p: Part, q: Part, t: TrackId, sample: Sample, n: nat)
    requires forall u :: PartSamples(q, u) == if u == t then PartSamples(p, u) + [sample] else PartSamples(p, u)
    ensures SizeOfTracks(q, n) == SizeOfTracks(p, n) + (if t < n then sample.size else 0)
  {
    hide PartSamples, SizeOf;
    if n > 0 {
      SizeGrows(p, q, t, sample, n - 1);
      SizeOfMore(PartSamples(p, t), sample);
    }
  }

  lemma {:induction false} EmptyHasNoSize(p: Part, n: nat)
    requires p.fragments == map[]
    ensures SizeOfTracks(p, n) == 0
  {
    if n > 0 { EmptyHasNoSize(p, n - 1); }
  }

  // q is p with one more sample of the track t.
  ghost predicate Grows(p: Part, q: Part, t: TrackId, sample: Sample) {
    && t in q.fragments
    && q.fragments.Keys == p.fragments.Keys + {t}
    && q.fragments[t].samples == PartSamples(p, t) + [sample]
    && (forall u :: u in p.fragments && u != t ==> q.fragments[u].samples == p.fragments[u].samples)
    && q.startDTS == p.startDTS && q.number == p.number && q.size == p.size + sample.size
  }

  lemma PartWriteGrows(p: Part, maxPartSize: int, segmentStart: int, t: TrackId, rate: int, sample: Sample, dts: int)
    requires rate > 0 && PartWrite(p, maxPartSize, segmentStart, t, rate, sample, dts).Some?
    ensures var q := PartWrite(p, maxPartSize, segmentStart, t, rate, sample, dts).value;
            && Grows(p, q, t, sample) && q.size <= maxPartSize
            && q.endDTS == Max(p.endDTS, dts + ToDuration(sample.duration, rate))
  {
    hide ToDuration, ToTicks;
  }

  lemma GrowsKeepsSize(p: Part, q: Part, t: TrackId, sample: Sample, n: nat)
    requires Grows(p, q, t, sample) && p.size == SizeOfTracks(p, n) && t < n
    ensures q.size == SizeOfTracks(q, n)
  {
    SizeGrows(p, q, t, sample, n);
  }

  // The samples of q are those of p and the new one.
  lemma GrowsBy(p: Part, q: Part, t: TrackId, sample: Sample, rates: seq<int>, u: int, k: int)
    requires Grows(p, q, t, sample) && IsIn(q, rates, u, k)
    ensures u == t && k == |q.fragments[t].samples| - 1 ==> q.fragments[u].samples[k] == sample
    ensures !(u == t && k == |q.fragments[t].samples| - 1) ==>
              IsIn(p, rates, u, k) && q.fragments[u].samples[k] == p.fragments[u].samples[k]
  {
  }

  lemma GrowsOver(p: Part, q: Part, t: TrackId, sample: Sample, rates: seq<int>, u: int, k: int)
    requires Grows(p, q, t, sample) && IsIn(p, rates, u, k)
    ensures IsIn(q, rates, u, k) && q.fragments[u].samples[k] == p.fragments[u].samples[k]
  {
  }

  lemma GrowsEnds(p: Part, q: Part, t: TrackId, sample: Sample, rates: seq<int>)
    requires t < |rates| && rates[t] > 0 && Grows(p, q, t, sample) && q.endDTS == Max(p.endDTS, End(sample, rates[t]))
    requires forall u, k :: IsIn(p, rates, u, k) ==> End(p.fragments[u].samples[k], rates[u]) <= p.endDTS
    requires p.endDTS == 0 || exists u, k :: EndsAt(p, rates, u, k, p.endDTS)
    ensures forall u, k :: IsIn(q, rates, u, k) ==> End(q.fragments[u].samples[k], rates[u]) <= q.endDTS
    ensures q.endDTS == 0 || exists u, k :: EndsAt(q, rates, u, k, q.endDTS)
  {
    hide End, Grows, IsIn;
    forall u, k | IsIn(q, rates, u, k)
      ensures 0 <= u < |rates| && rates[u] > 0 && u in q.fragments && 0 <= k < |q.fragments[u].samples|
      ensures End(q.fragments[u].samples[k], rates[u]) <= q.endDTS
    {
      IsInMeans(q, rates, u, k);
      GrowsBy(p, q, t, sample, rates, u, k);
      GrownTrack(p, q, t, sample);
      if !(u == t && k == |q.fragments[t].samples| - 1) { IsInMeans(p, rates, u, k); }
    }
    if q.endDTS != p.endDTS {
      GrownTrack(p, q, t, sample);
      InLast(q, rates, t);
      assert EndsAt(q, rates, t, |q.fragments[t].samples| - 1, q.endDTS);
    } else if p.endDTS != 0 {
      var u, k :| EndsAt(p, rates, u, k, p.endDTS);
      IsInMeans(p, rates, u, k);
      GrowsOver(p, q, t, sample, rates, u, k);
      assert EndsAt(q, rates, u, k, q.endDTS);
    }
  }

  lemma IsInMeans(p: Part, rates: seq<int>, t: int, k: int)
    requires IsIn(p, rates, t, k)
    ensures 0 <= t < |rates| && rates[t] > 0 && t in p.fragments && 0 <= k < |p.fragments[t].samples|
  {
  }

  lemma GrownTrack(p: Part, q: Part, t: TrackId, sample: Sample)
    requires Grows(p, q, t, sample)
    ensures t in q.fragments && q.fragments[t].samples != []
    ensures q.fragments[t].samples[|q.fragments[t].samples| - 1] == sample
  {
  }

  lemma InLast(p: Part, rates: seq<int>, t: TrackId)
    requires t < |rates| && rates[t] > 0 && t in p.fragments && p.fragments[t].samples != []
    ensures IsIn(p, rates, t, |p.fragments[t].samples| - 1) && IsIn(p, rates, t, 0)
  {
  }

  lemma GrowsStart(p: Part, q: Part, t: TrackId, sample: Sample, rates: seq<int>)
    requires t < |rates| && rates[t] > 0 && Grows(p, q, t, sample)
    requires (p.fragments == map[] && p.startDTS == ToDuration(sample.dts, rates[t]))
          || exists u :: StartsAt(p, rates, u, p.startDTS)
    ensures exists u :: StartsAt(q, rates, u, q.startDTS)
  {
    hide ToDuration;
    if p.fragments == map[] && p.startDTS == ToDuration(sample.dts, rates[t]) {
      assert StartsAt(q, rates, t, q.startDTS);
    } else {
      var u :| StartsAt(p, rates, u, p.startDTS);
      assert StartsAt(q, rates, u, q.startDTS);
    }
  }

  lemma GrowsShort(p: Part, q: Part, t: TrackId, sample: Sample, rates: seq<int>, partDuration: int)
    requires t < |rates| && rates[t] > 0 && Grows(p, q, t, sample)
    requires forall u, k :: IsIn(p, rates, u, k) ==>
               End(p.fragments[u].samples[k], rates[u]) - p.startDTS < partDuration
    ensures IsShortWithout(q, rates, t, partDuration)
  {
    hide End, Grows;
    GrownTrack(p, q, t, sample);
    forall u, k | IsIn(q, rates, u, k) && !(u == t && k == |q.fragments[t].samples| - 1)
      ensures End(q.fragments[u].samples[k], rates[u]) - q.startDTS < partDuration
    {
      GrowsBy(p, q, t, sample, rates, u, k);
      SameStart(p, q, t, sample);
    }
  }

  lemma SameStart(p: Part, q: Part, t: TrackId, sample: Sample)
    requires Grows(p, q, t, sample)
    ensures q.startDTS == p.startDTS && q.number == p.number
  {
  }

  // What a part is before its first sample.
  predicate IsFresh(p: Part, start: int) {
    p.fragments == map[] && p.size == 0 == p.endDTS && p.startDTS == start
  }

  lemma PartWriteMeasures(p: Part, settings: Settings, segmentStart: int, t: TrackId, rates: seq<int>, sample: Sample)
    requires t < |rates| && rates[t] > 0
    requires IsFresh(p, ToDuration(sample.dts, rates[t]))
          || (IsMeasured(p, rates, settings) && p.endDTS - p.startDTS < settings.partDuration)
    requires var dts := ToDuration(sample.dts, rates[t]);
             PartWrite(p, settings.maxPartSize, segmentStart, t, rates[t], sample, dts).Some?
    ensures var dts := ToDuration(sample.dts, rates[t]);
            var q := PartWrite(p, settings.maxPartSize, segmentStart, t, rates[t], sample, dts).value;
            IsMeasured(q, rates, settings) && q.fragments != map[] && q.startDTS == p.startDTS && q.number == p.number
  {
    hide ToDuration, PartWrite, IsMeasured, Grows, IsFresh;
    var dts := ToDuration(sample.dts, rates[t]);
    PartWriteGrows(p, settings.maxPartSize, segmentStart, t, rates[t], sample, dts);
    var q := PartWrite(p, settings.maxPartSize, segmentStart, t, rates[t], sample, dts).value;
    GrownTrack(p, q, t, sample);
    SameStart(p, q, t, sample);
    if IsFresh(p, dts) {
      FreshIsMeasured(p, q, t, sample, rates, settings);
    } else {
      GrownIsMeasured(p, q, t, sample, rates, settings);
    }
  }

  lemma FreshIsMeasured(p: Part, q: Part, t: TrackId, sample: Sample, rates: seq<int>, settings: Settings)
    requires t < |rates| && rates[t] > 0 && Grows(p, q, t, sample) && IsFresh(p, ToDuration(sample.dts, rates[t]))
    requires q.size <= settings.maxPartSize && q.endDTS == Max(p.endDTS, End(sample, rates[t]))
    ensures IsMeasured(q, rates, settings)
  {
    EmptyHasNoSize(p, |rates|);
    GrownFragments(p, q, t, sample, rates);
    hide ToDuration, SizeOfTracks, IsShortWithout, EndsAt, StartsAt, Grows, End;
    GrowsKeepsSize(p, q, t, sample, |rates|);
    GrowsEnds(p, q, t, sample, rates);
    GrowsStart(p, q, t, sample, rates);
    GrowsShort(p, q, t, sample, rates, settings.partDuration);
  }

  lemma GrownIsMeasured(p: Part, q: Part, t: TrackId, sample: Sample, rates: seq<int>, settings: Settings)
    requires t < |rates| && rates[t] > 0 && Grows(p, q, t, sample)
    requires IsMeasured(p, rates, settings) && p.endDTS - p.startDTS < settings.partDuration
    requires q.size <= settings.maxPartSize && q.endDTS == Max(p.endDTS, End(sample, rates[t]))
    ensures IsMeasured(q, rates, settings)
  {
    GrownFragments(p, q, t, sample, rates);
    hide ToDuration, SizeOfTracks, IsShortWithout, EndsAt, StartsAt, Grows, End;
    GrowsKeepsSize(p, q, t, sample, |rates|);
    GrowsEnds(p, q, t, sample, rates);
    GrowsStart(p, q, t, sample, rates);
    GrowsShort(p, q, t, sample, rates, settings.partDuration);
  }

  lemma GrownFragments(p: Part, q: Part, t: TrackId, sample: Sample, rates: seq<int>)
    requires t < |rates| && rates[t] > 0 && Grows(p, q, t, sample)
    requires forall u :: u in p.fragments ==> u < |rates| && rates[u] > 0 && p.fragments[u].samples != []
    ensures forall u :: u in q.fragments ==> u < |rates| && rates[u] > 0 && q.fragments[u].samples != []
  {
  }

  // ---- one write to a segment ----

  ghost predicate PartsMeasured(parts: seq<Part>, rates: seq<int>, settings: Settings) {
    forall i :: 0 <= i < |parts| ==> parts[i].number == i && IsMeasured(parts[i], rates, settings)
  }

  // Every part before the one being filled lasts at least the part duration.
  ghost predicate OpenOk(s: Segment, rates: seq<int>, settings: Settings) {
    && PartsMeasured(s.parts, rates, settings)
    && (forall i :: 0 <= i < |s.parts| ==> s.parts[i].Duration() >= settings.partDuration)
    && (s.curPart.Some? ==> s.curPart.value.number == |s.parts| && IsMeasured(s.curPart.value, rates, settings)
                            && s.curPart.value.fragments != map[])
    && s.nextPartNumber == |s.parts| + (if s.curPart.Some? then 1 else 0)
  }

  ghost predicate ClosedWell(s: Segment, rates: seq<int>, settings: Settings) {
    && PartsMeasured(s.parts, rates, settings)
    && forall i :: 0 <= i < |s.parts| - 1 ==> s.parts[i].Duration() >= settings.partDuration
  }

  lemma SegmentWriteMeasures(s: Segment, settings: Settings, t: TrackId, rates: seq<int>, sample: Sample)
    requires t < |rates| && rates[t] > 0 && OpenOk(s, rates, settings)
    requires SegmentWrite(s, settings, t, rates[t], sample, ToDuration(sample.dts, rates[t])).1
    ensures OpenOk(SegmentWrite(s, settings, t, rates[t], sample, ToDuration(sample.dts, rates[t])).0, rates, settings)
  {
    hide ToDuration, IsMeasured, PartWrite, EndOf;
    var dts := ToDuration(sample.dts, rates[t]);
    var e := s.(endDTS := Max(s.endDTS, EndOf(sample, dts, rates[t])));
    PartWriteMeasures(Rotate(e, settings.partDuration, dts).curPart.value, settings, s.startDTS, t, rates, sample);
  }

  // The segment is over when the last of its samples is.
  ghost predicate EndsWithItsSamples(s: Segment, rates: seq<int>)
    requires RatesArePositive(rates)
  {
    && s.startDTS <= s.endDTS
    && (forall t, k :: 0 <= t < |rates| && 0 <= k < |SegmentSamples(s, t)| ==>
          End(SegmentSamples(s, t)[k], rates[t]) <= s.endDTS)
    && (s.endDTS == s.startDTS || exists t, k :: SegmentEndsAt(s, rates, t, k))
  }

  ghost predicate SegmentEndsAt(s: Segment, rates: seq<int>, t: TrackId, k: nat)
    requires RatesArePositive(rates)
  {
    t < |rates| && k < |SegmentSamples(s, t)| && End(SegmentSamples(s, t)[k], rates[t]) == s.endDTS
  }

  lemma SegmentWriteEnds(s: Segment, settings: Settings, t: TrackId, rates: seq<int>, sample: Sample)
    requires t < |rates| && RatesArePositive(rates) && EndsWithItsSamples(s, rates)
    requires SegmentWrite(s, settings, t, rates[t], sample, ToDuration(sample.dts, rates[t])).1
    ensures var dts := ToDuration(sample.dts, rates[t]);
            EndsWithItsSamples(SegmentWrite(s, settings, t, rates[t], sample, dts).0, rates)
  {
    var dts := ToDuration(sample.dts, rates[t]);
    var w := SegmentWrite(s, settings, t, rates[t], sample, dts).0;
    assert w.endDTS == Max(s.endDTS, End(sample, rates[t])) && w.startDTS == s.startDTS;
    forall u ensures SegmentSamples(w, u) == SegmentSamples(s, u) + (if u == t then [sample] else []) {
      SegmentWriteAppends(s, settings, t, rates[t], sample, dts, u);
    }
    hide ToDuration, SegmentWrite, SegmentSamples;
    if w.endDTS != s.endDTS {
      assert SegmentEndsAt(w, rates, t, |SegmentSamples(s, t)|);
    } else if s.endDTS != s.startDTS {
      var u, k :| SegmentEndsAt(s, rates, u, k);
      assert SegmentEndsAt(w, rates, u, k);
    }
  }

  // ---- a whole recording ----

  ghost predicate OpenFits(s: Segment, rates: seq<int>, settings: Settings)
    requires RatesArePositive(rates)
  {
    OpenOk(s, rates, settings) && EndsWithItsSamples(s, rates)
  }

  ghost predicate ClosedFits(s: Segment, rates: seq<int>, settings: Settings)
    requires RatesArePositive(rates)
  {
    ClosedWell(s, rates, settings) && EndsWithItsSamples(s, rates)
  }

  ghost predicate PartsInv(r: Recorder) {
    && RatesOk(r.tracks) && RatesArePositive(Rates(r))
    && (forall i :: 0 <= i < |r.closed| ==> ClosedFits(r.closed[i], Rates(r), r.settings))
    && (r.current.Some? ==> OpenFits(r.current.value, Rates(r), r.settings))
  }

  lemma NewSegmentFits(startDTS: int, startNTP: int, number: nat, fromSync: bool, rates: seq<int>, settings: Settings)
    requires RatesArePositive(rates)
    ensures OpenFits(NewSegment(startDTS, startNTP, number, fromSync), rates, settings)
  {
  }

  lemma CloseFits(s: Segment, rates: seq<int>, settings: Settings)
    requires RatesArePositive(rates) && OpenFits(s, rates, settings)
    ensures ClosedFits(SegmentClose(s), rates, settings)
  {
    ClosePartsFit(s, rates, settings);
    hide ClosedWell, OpenOk, EndsWithItsSamples, SegmentClose;
    CloseKeepsEnd(s, rates);
  }

  lemma ClosePartsFit(s: Segment, rates: seq<int>, settings: Settings)
    requires OpenOk(s, rates, settings)
    ensures ClosedWell(SegmentClose(s), rates, settings)
  {
    hide IsMeasured, Part.Duration;
  }

  lemma CloseKeepsEnd(s: Segment, rates: seq<int>)
    requires RatesArePositive(rates) && EndsWithItsSamples(s, rates)
    ensures EndsWithItsSamples(SegmentClose(s), rates)
  {
    var c := SegmentClose(s);
    assert c.startDTS == s.startDTS && c.endDTS == s.endDTS;
    hide SegmentClose, SegmentSamples, End;
    forall t ensures SegmentSamples(c, t) == SegmentSamples(s, t) {
      CloseKeepsSamples(s, t);
    }
    if c.endDTS != c.startDTS {
      var t, k :| SegmentEndsAt(s, rates, t, k);
      assert SegmentEndsAt(c, rates, t, k);
    }
  }

  lemma CutFits(r: Recorder, t: TrackId)
    requires ValidTrack(r, t) && r.tracks[t].nextSample.Some? && r.current.Some? && PartsInv(r)
    ensures PartsInv(Cut(r, t))
  {
    hide OpenFits, ClosedFits, SegmentClose, NextSegmentStartingPos, NewSegment;
    CloseFits(r.current.value, Rates(r), r.settings);
    var start := NextSegmentStartingPos(r.tracks);
    var fromSync := r.tracks[t].isVideo && start.dts <= PendingDTS(r.tracks[t]);
    NewSegmentFits(start.dts, start.ntp, r.nextSegmentNumber, fromSync, Rates(r), r.settings);
    assert Rates(Switch(r, t)) == Rates(r);
  }

  lemma StoreFits(r: Recorder, t: TrackId, ready: Sample)
    requires ValidTrack(r, t) && r.current.Some? && PartsInv(r)
    requires Store(r, t, ready, ToDuration(ready.dts, r.tracks[t].rate)).1
    ensures PartsInv(Store(r, t, ready, ToDuration(ready.dts, r.tracks[t].rate)).0)
  {
    hide OpenOk, EndsWithItsSamples, ClosedFits, SegmentWrite, ToDuration;
    SegmentWriteMeasures(r.current.value, r.settings, t, Rates(r), ready);
    SegmentWriteEnds(r.current.value, r.settings, t, Rates(r), ready);
    assert Rates(Store(r, t, ready, ToDuration(ready.dts, r.tracks[t].rate)).0) == Rates(r);
  }

  lemma WriteKeepsParts(r: Recorder, t: TrackId, sample: Sample)
    requires ValidTrack(r, t) && PartsInv(r) && !Write(r, t, sample).1.IsError()
    ensures PartsInv(Write(r, t, sample).0)
  {
    hide Write, OpenFits, ClosedFits, Store, Cut, Prepare, Ready, ToDuration, NewSegment;
    WriteKeepsTracks(r, t, sample);
    WriteFeeds(r, t, sample);
    var w := Write(r, t, sample).0;
    assert Rates(w) == Rates(r);
    if r.tracks[t].nextSample.None? {
      FirstSampleWaits(r, t, sample);
      FirstSampleOpensNothing(r, t, sample);
    } else {
      var p, ready := Prepare(r, t, sample), Ready(r, t, sample);
      WriteStores(r, t, sample);
      PreparedRates(r, t, sample);
      var ntp := r.tracks[t].nextSample.value.ntp;
      NewSegmentFits(StartBefore(r, t), ntp, r.nextSegmentNumber, false, Rates(r), r.settings);
      assert PartsInv(p);
      if Write(r, t, sample).1 == Written {
        StoreFits(p, t, ready);
        StoredTracks(p, t, ready, ToDuration(ready.dts, p.tracks[t].rate));
        CutFits(Store(p, t, ready, ToDuration(ready.dts, p.tracks[t].rate)).0, t);
      } else {
        OnlyDiscards(r, t, sample);
      }
    }
  }

  lemma FirstSampleOpensNothing(r: Recorder, t: TrackId, sample: Sample)
    requires ValidTrack(r, t) && r.tracks[t].nextSample.None?
    ensures Write(r, t, sample).0.current == r.current
  {
  }

  lemma OnlyDiscards(r: Recorder, t: TrackId, sample: Sample)
    requires ValidTrack(r, t) && r.tracks[t].nextSample.Some? && !Write(r, t, sample).1.IsError()
    ensures Write(r, t, sample).1 == Written || Write(r, t, sample).1 == Discarded
  {
    hide Drifts, Store, Cut, ToDuration;
  }

  lemma StoredTracks(r: Recorder, t: TrackId, ready: Sample, dts: int)
    requires ValidTrack(r, t) && r.current.Some?
    ensures var s := Store(r, t, ready, dts).0; s == r.(current := s.current) && s.current.Some?
  {
    StoreKeepsStart(r, t, ready, dts);
    hide Store;
  }

  lemma PreparedRates(r: Recorder, t: TrackId, sample: Sample)
    requires ValidTrack(r, t) && r.tracks[t].nextSample.Some?
    ensures var p := Prepare(r, t, sample); ValidTrack(p, t) && Rates(p) == Rates(r) && p.settings == r.settings
  {
    PrepareIs(r, t, sample);
    hide ToDuration;
  }

  lemma {:induction false} RunKeepsParts(r: Recorder, inputs: seq<Input>)
    requires IsNew(r) && Run(r, inputs).Some?
    ensures PartsInv(Run(r, inputs).value)
  {
    if inputs != [] {
      var n := |inputs| - 1;
      RunKeepsParts(r, inputs[..n]);
      hide Write, PartsInv, IsNew;
      WriteKeepsParts(Run(r, inputs[..n]).value, inputs[n].track, inputs[n].sample);
    }
  }

  // Over any error-free run, the i-th closed segment lasts until its last sample is over, its parts are numbered from
  // 0, every one of them is measured, and all but the last are at least as long as a part is meant to be.
  lemma PartsOfARecording(r: Recorder, inputs: seq<Input>, i: nat)
    requires IsNew(r) && Run(r, inputs).Some? && i < |Run(r, inputs).value.closed|
    ensures var e := Run(r, inputs).value;
            && RatesArePositive(Rates(e))
            && ClosedWell(e.closed[i], Rates(e), e.settings) && EndsWithItsSamples(e.closed[i], Rates(e))
  {
    RunKeepsParts(r, inputs);
    assert ClosedFits(Run(r, inputs).value.closed[i], Rates(Run(r, inputs).value), Run(r, inputs).value.settings);
    hide ClosedWell, EndsWithItsSamples, OpenFits;
  }

  // A recording is given up for its part size exactly when the sample and what is in its part exceed the limit.
  lemma TooBigExactly(s: Segment, settings: Settings, t: TrackId, rate: int, sample: Sample, dts: int)
    requires rate > 0
    ensures SegmentWrite(s, settings, t, rate, sample, dts).1 <==>
              var fits := s.curPart.Some? && s.curPart.value.endDTS - s.curPart.value.startDTS < settings.partDuration;
              (if fits then s.curPart.value.size else 0) + sample.size <= settings.maxPartSize
  {
    hide ToDuration, ToTicks;
  }
}
