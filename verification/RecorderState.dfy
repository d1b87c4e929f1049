/** recorder/format_fmp4_{track,segment,part}.go: tracks, parts and segments of a recording, as values. */
module RecorderState {
  import opened Wrappers
  import opened Arith

  const MAX_BASETIME: int := SECOND
  const NTP_DRIFT_TOLERANCE: int := 5 * SECOND
  const ZERO_TIME: int := 0

  type TrackId = nat // position of the track in formatFMP4.tracks

  // dts is in ticks of the track; payload names the bytes. The file keeps neither dts nor ntp.
  datatype Sample = Sample(payload: nat, size: nat, dts: int, ntp: int, isNonSync: bool, ptsOffset: int, duration: int)

  datatype Fragment = Fragment(baseTime: int, samples: seq<Sample>)

  datatype Part = Part(number: nat, startDTS: int, fragments: map<TrackId, Fragment>, size: nat, endDTS: int) {
    function Duration(): int {
      endDTS - startDTS
    }
  }

  // fi is created with the first part that is closed, so parts is not empty exactly when the file exists.
  // fromSync records that the segment was started by a video track whose pending sample it can hold.
  datatype Segment = Segment(
    startDTS: int, startNTP: int, number: nat, endDTS: int,
    parts: seq<Part>, curPart: Option<Part>, nextPartNumber: nat, fromSync: bool)

  datatype Track = Track(
    rate: int, isVideo: bool, nextSample: Option<Sample>,
    startInitialized: bool, startDTS: int, startNTP: int)

  datatype Settings = Settings(partDuration: int, maxPartSize: int, segmentDuration: int)

  datatype Outcome = Buffered | Written | Discarded | Drifted | PartTooBig {
    predicate IsError() {
      Drifted? || PartTooBig?
    }
  }

  datatype Recorder = Recorder(
    settings: Settings,
    tracks: seq<Track>,
    hasVideo: bool,
    current: Option<Segment>,
    nextSegmentNumber: nat,
    // observations
    closed: seq<Segment>,
    fed: seq<seq<Sample>>,     // what each track was given
    dropped: seq<set<int>>)    // the positions of those that were discarded

  function EmptyPart(number: nat, startDTS: int): Part {
    Part(number, startDTS, map[], 0, 0)
  }

  function NewSegment(startDTS: int, startNTP: int, number: nat, fromSync: bool): Segment {
    Segment(startDTS, startNTP, number, startDTS, [], None, 0, fromSync)
  }

  function EndOf(sample: Sample, dts: int, rate: int): int
    requires rate > 0
  {
    dts + ToDuration(sample.duration, rate)
  }

  // formatFMP4Part.write; None when the part would become too big.
  function PartWrite(p: Part, maxPartSize: int, segmentStart: int, t: TrackId, rate: int, sample: Sample,
      dts: int): Option<Part>
    requires rate > 0
  {
    if p.size + sample.size > maxPartSize then None
    else
      var f := if t in p.fragments then p.fragments[t] else Fragment(ToTicks(dts - segmentStart, rate), []);
      Some(p.(size := p.size + sample.size,
              fragments := p.fragments[t := f.(samples := f.samples + [sample])],
              endDTS := Max(p.endDTS, EndOf(sample, dts, rate))))
  }

  function CloseCurPart(s: Segment): Segment
    requires s.curPart.Some?
  {
    s.(parts := s.parts + [s.curPart.value])
  }

  // The part that the next sample goes to.
  function Rotate(s: Segment, partDuration: int, dts: int): (r: Segment)
    ensures r.curPart.Some?
  {
    if s.curPart.None? then
      s.(curPart := Some(EmptyPart(s.nextPartNumber, dts)), nextPartNumber := s.nextPartNumber + 1)
    else if s.curPart.value.Duration() >= partDuration then
      CloseCurPart(s).(curPart := Some(EmptyPart(s.nextPartNumber, dts)), nextPartNumber := s.nextPartNumber + 1)
    else s
  }

  // formatFMP4Segment.write; false when the part was too big.
  function SegmentWrite(s: Segment, settings: Settings, t: TrackId, rate: int, sample: Sample, dts: int):
      (Segment, bool)
    requires rate > 0
  {
    var r := Rotate(s.(endDTS := Max(s.endDTS, EndOf(sample, dts, rate))), settings.partDuration, dts);
    match PartWrite(r.curPart.value, settings.maxPartSize, s.startDTS, t, rate, sample, dts)
    case None => (r, false)
    case Some(p) => (r.(curPart := Some(p)), true)
  }

  function SegmentClose(s: Segment): Segment {
    if s.curPart.Some? then CloseCurPart(s).(curPart := None) else s
  }

  predicate RatesOk(tracks: seq<Track>) {
    forall i :: 0 <= i < |tracks| ==> tracks[i].rate > 0
  }

  function PendingDTS(t: Track): int
    requires t.rate > 0 && t.nextSample.Some?
  {
    ToDuration(t.nextSample.value.dts, t.rate)
  }

  // The two loops of nextSegmentStartingPos.
  function NewestPending(tracks: seq<Track>): int
    requires RatesOk(tracks)
  {
    if tracks == [] then 0
    else
      var m, t := NewestPending(tracks[..|tracks| - 1]), tracks[|tracks| - 1];
      if t.nextSample.Some? then Max(m, PendingDTS(t)) else m
  }

  datatype Start = Start(ntp: int, dts: int)

  function OldestPending(tracks: seq<Track>, newest: int): Start
    requires RatesOk(tracks)
  {
    if tracks == [] then Start(ZERO_TIME, newest)
    else
      var o, t := OldestPending(tracks[..|tracks| - 1], newest), tracks[|tracks| - 1];
      if t.nextSample.Some? && newest - PendingDTS(t) <= MAX_BASETIME && PendingDTS(t) <= o.dts
      then Start(t.nextSample.value.ntp, PendingDTS(t))
      else o
  }

  function NextSegmentStartingPos(tracks: seq<Track>): Start
    requires RatesOk(tracks)
  {
    OldestPending(tracks, NewestPending(tracks))
  }

  // What write makes of the incoming sample and of the one that was pending: decode times never decrease.
  function Clamp(prev: Sample, next: Sample): Sample {
    if next.dts < prev.dts then next.(dts := prev.dts) else next
  }

  function WithDuration(sample: Sample, next: Sample): Sample {
    sample.(duration := Uint32(next.dts - sample.dts))
  }

  predicate Drifts(t: Track, sample: Sample, dts: int) {
    t.startInitialized && Abs((sample.ntp - t.startNTP) - (dts - t.startDTS)) > NTP_DRIFT_TOLERANCE
  }

  predicate ValidTrack(r: Recorder, t: TrackId) {
    t < |r.tracks| && RatesOk(r.tracks) && |r.fed| == |r.tracks| && |r.dropped| == |r.tracks|
  }

  // Store the incoming sample as pending.
  function Feed(r: Recorder, t: TrackId, sample: Sample): Recorder
    requires ValidTrack(r, t)
  {
    var tr := r.tracks[t];
    var pending := if tr.nextSample.Some? then Clamp(tr.nextSample.value, sample) else sample;
    r.(hasVideo := r.hasVideo || tr.isVideo,
       tracks := r.tracks[t := tr.(nextSample := Some(pending))],
       fed := r.fed[t := r.fed[t] + [sample]])
  }

  function Initialized(t: Track, sample: Sample, dts: int): Track {
    if t.startInitialized then t else t.(startInitialized := true, startDTS := dts, startNTP := sample.ntp)
  }

  // The segment that a sample with this decode time is offered to.
  function Open(r: Recorder, sample: Sample, dts: int): (s: Recorder)
    ensures s.current.Some? && s.tracks == r.tracks && s.settings == r.settings
    ensures s.fed == r.fed && s.dropped == r.dropped && s.closed == r.closed && s.hasVideo == r.hasVideo
  {
    if r.current.Some? then r
    else r.(current := Some(NewSegment(dts, sample.ntp, r.nextSegmentNumber, false)),
            nextSegmentNumber := r.nextSegmentNumber + 1)
  }

  // The track's pending sample starts a new segment.
  predicate Switches(r: Recorder, t: TrackId)
    requires ValidTrack(r, t) && r.tracks[t].nextSample.Some? && r.current.Some?
  {
    && (!r.hasVideo || r.tracks[t].isVideo)
    && !r.tracks[t].nextSample.value.isNonSync
    && PendingDTS(r.tracks[t]) - r.current.value.startDTS >= r.settings.segmentDuration
  }

  function Switch(r: Recorder, t: TrackId): Recorder
    requires ValidTrack(r, t) && r.tracks[t].nextSample.Some? && r.current.Some?
  {
    var start := NextSegmentStartingPos(r.tracks);
    r.(closed := r.closed + [SegmentClose(r.current.value)],
       current := Some(NewSegment(start.dts, start.ntp, r.nextSegmentNumber,
                                  r.tracks[t].isVideo && start.dts <= PendingDTS(r.tracks[t]))),
       nextSegmentNumber := r.nextSegmentNumber + 1)
  }

  // The sample that was pending, now that its successor is known.
  function Ready(r: Recorder, t: TrackId, sample: Sample): Sample
    requires ValidTrack(r, t) && r.tracks[t].nextSample.Some?
  {
    var pending := r.tracks[t].nextSample.value;
    WithDuration(pending, Clamp(pending, sample))
  }

  function Initialize(r: Recorder, t: TrackId, sample: Sample, dts: int): Recorder
    requires ValidTrack(r, t)
  {
    r.(tracks := r.tracks[t := Initialized(r.tracks[t], sample, dts)])
  }

  function Discard(r: Recorder, t: TrackId): Recorder
    requires ValidTrack(r, t)
  {
    r.(dropped := r.dropped[t := r.dropped[t] + {|r.fed[t]| - 2}])
  }

  // The current segment takes the sample; false when the part was too big.
  function Store(r: Recorder, t: TrackId, sample: Sample, dts: int): (Recorder, bool)
    requires ValidTrack(r, t) && r.current.Some?
  {
    var (seg, ok) := SegmentWrite(r.current.value, r.settings, t, r.tracks[t].rate, sample, dts);
    (r.(current := Some(seg)), ok)
  }

  // Start a new segment if it is time to.
  function Cut(r: Recorder, t: TrackId): Recorder
    requires ValidTrack(r, t) && r.tracks[t].nextSample.Some? && r.current.Some?
  {
    if Switches(r, t) then Switch(r, t) else r
  }

  // Offer the sample to the current segment, or to a new one.
  function Offer(r: Recorder, t: TrackId, sample: Sample, dts: int): (Recorder, Outcome)
    requires ValidTrack(r, t) && r.tracks[t].nextSample.Some?
  {
    var open := Open(r, sample, dts);
    if dts < open.current.value.startDTS then (Discard(open, t), Discarded)
    else
      var (stored, ok) := Store(open, t, sample, dts);
      if !ok then (stored, PartTooBig) else (Cut(stored, t), Written)
  }

  // formatFMP4Track.write.
  function Write(r: Recorder, t: TrackId, sample: Sample): (Recorder, Outcome)
    requires ValidTrack(r, t)
  {
    var fed := Feed(r, t, sample);
    if r.tracks[t].nextSample.None? then (fed, Buffered)
    else
      var ready := Ready(r, t, sample);
      var dts := ToDuration(ready.dts, r.tracks[t].rate);
      if Drifts(fed.tracks[t], ready, dts) then (fed, Drifted)
      else Offer(Initialize(fed, t, ready, dts), t, ready, dts)
  }
}
