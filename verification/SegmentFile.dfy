/** playback/segment_fmp4.go: which files continue each other, and how one file is handed to a muxer. */
module SegmentFile {
  import opened Wrappers
  import opened Arith
  import opened Playback

  const CONCATENATION_TOLERANCE: int := SECOND

  // What the recorder notes in the header of a file.
  datatype Mtxi = Mtxi(streamID: int, segmentNumber: int, dts: int, ntp: int)

  datatype InitTrack = InitTrack(id: int, timeScale: int, codecType: nat)

  datatype Init = Init(tracks: seq<InitTrack>, mtxi: Option<Mtxi>)

  predicate TracksAreEqual(a: seq<InitTrack>, b: seq<InitTrack>) {
    |a| == |b| && forall i :: 0 <= i < |a| ==>
      a[i].id == b[i].id && a[i].timeScale == b[i].timeScale && a[i].codecType == b[i].codecType
  }

  predicate CanBeConcatenated(prev: Init, prevEnd: int, cur: Init, curStart: int) {
    match (prev.mtxi, cur.mtxi)
    case (None, None) =>
      && TracksAreEqual(prev.tracks, cur.tracks)
      && prevEnd - CONCATENATION_TOLERANCE <= curStart <= prevEnd + CONCATENATION_TOLERANCE
    case (Some(a), Some(b)) => a.streamID == b.streamID && (a.segmentNumber + 1) % TWO_64 == b.segmentNumber
    case _ => false
  }

  // The boxes that the reader acts on, in file order.
  datatype Box = Moof | Traf | Tfhd(trackID: int) | Tfdt(baseTime: int) | Trun(entries: seq<Stored>) | Mdat | Other

  datatype Request = Request(tracks: seq<InitTrack>, startDTS: int, duration: int)

  // The variables of segmentFMP4MuxParts; calls are those that the muxer received.
  datatype Reader = Reader(
    tfhd: Option<int>, tfdt: Option<int>, track: nat, startDTSMP4: int, durationMP4: int,
    segmentDuration: int, breakAtNextMdat: bool, calls: History)

  datatype Result = Reading(r: Reader) | Terminated(r: Reader) | Failed

  predicate TimeScalesOk(tracks: seq<InitTrack>) {
    forall i :: 0 <= i < |tracks| ==> tracks[i].timeScale > 0
  }

  function FindTrack(tracks: seq<InitTrack>, id: int): (r: Option<nat>)
    ensures r.Some? ==> r.value < |tracks| && tracks[r.value].id == id
    ensures r.Some? ==> forall i :: 0 <= i < r.value ==> tracks[i].id != id
    ensures r.None? ==> forall i :: 0 <= i < |tracks| ==> tracks[i].id != id
  {
    if tracks == [] then None
    else
      var n := |tracks| - 1;
      var r := FindTrack(tracks[..n], id);
      if r.None? && tracks[n].id == id then Some(n) else r
  }

  // The decode time handed to the muxer for the k-th entry of a run of samples that starts at dts.
  function Handed(dts: int, entries: seq<Stored>, k: nat): int
    requires k <= |entries|
  {
    dts + Durations(entries[..k])
  }

  // The first of the entries from k on that is due at the limit or later.
  function Cut(dts: int, limit: int, entries: seq<Stored>, k: nat): (n: nat)
    requires k <= |entries|
    ensures k <= n <= |entries|
    ensures forall i :: k <= i < n ==> Handed(dts, entries, i) < limit
    ensures n < |entries| ==> Handed(dts, entries, n) >= limit
    decreases |entries| - k
  {
    if k == |entries| || Handed(dts, entries, k) >= limit then k else Cut(dts, limit, entries, k + 1)
  }

  function HandOver(calls: History, track: nat, dts: int, entries: seq<Stored>, n: nat): History
    requires n <= |entries|
  {
    if n == 0 then calls
    else
      var e := entries[n - 1];
      Then(HandOver(calls, track, dts, entries, n - 1),
           Op.Write(track, Sample(Handed(dts, entries, n - 1), e.ptsOffset, e.isNonSync, e.payload)))
  }

  function Start(calls: History): Reader {
    Reader(None, None, 0, 0, 0, 0, false, calls)
  }

  predicate ReaderOk(q: Request, s: Reader) {
    s.tfdt.Some? ==> s.track < |q.tracks|
  }

  function ReadTrun(q: Request, s: Reader, entries: seq<Stored>): Reader
    requires TimeScalesOk(q.tracks) && ReaderOk(q, s) && s.tfdt.Some?
  {
    var dts := s.tfdt.value + s.startDTSMP4;
    var n := Cut(dts, s.durationMP4, entries, 0);
    var end := Handed(dts, entries, n);
    s.(calls := Then(HandOver(s.calls, s.track, dts, entries, n), Op.Final(s.track, end)),
       breakAtNextMdat := s.breakAtNextMdat || n < |entries|,
       segmentDuration := Max(s.segmentDuration, ToDuration(end - s.startDTSMP4, q.tracks[s.track].timeScale)))
  }

  // A tfdt without tfhd and a trun without tfdt would be read through nil.
  function ReadBox(q: Request, s: Reader, b: Box): (r: Result)
    requires TimeScalesOk(q.tracks) && ReaderOk(q, s)
    ensures r.Reading? || r.Terminated? ==> ReaderOk(q, r.r)
  {
    match b
    case Tfhd(id) => Reading(s.(tfhd := Some(id)))
    case Tfdt(baseTime) =>
      if s.tfhd.None? || FindTrack(q.tracks, s.tfhd.value).None? then Failed
      else
        var track := FindTrack(q.tracks, s.tfhd.value).value;
        var timeScale := q.tracks[track].timeScale;
        Reading(s.(tfdt := Some(baseTime), track := track,
                   startDTSMP4 := ToTicks(q.startDTS, timeScale), durationMP4 := ToTicks(q.duration, timeScale)))
    case Trun(entries) => if s.tfdt.None? then Failed else Reading(ReadTrun(q, s, entries))
    case Mdat => if s.breakAtNextMdat then Terminated(s) else Reading(s)
    case Moof => Reading(s)
    case Traf => Reading(s)
    case Other => Reading(s)
  }

  function Read(q: Request, boxes: seq<Box>, calls: History): (r: Result)
    requires TimeScalesOk(q.tracks)
    ensures r.Reading? || r.Terminated? ==> ReaderOk(q, r.r)
  {
    if boxes == [] then Reading(Start(calls))
    else
      var n := |boxes| - 1;
      var r := Read(q, boxes[..n], calls);
      if r.Reading? then ReadBox(q, r.r, boxes[n]) else r
  }

  // segmentFMP4MuxParts: the duration of what was read, and the calls that the muxer received.
  method MuxParts(boxes: seq<Box>, startDTS: int, duration: int, tracks: seq<InitTrack>, calls: History)
    returns (result: Option<(int, History)>)
    requires TimeScalesOk(tracks)
    ensures var r := Read(Request(tracks, startDTS, duration), boxes, calls);
            result == if r.Failed? then None else Some((r.r.segmentDuration, r.r.calls))
  {
    hide ToDuration, ToTicks, Cut, HandOver, Handed, FindTrack, Read;
    ghost var q := Request(tracks, startDTS, duration);
    ReadNothing(q, boxes, calls);
    var tfhd: Option<int>, tfdt: Option<int>, track, startDTSMP4, durationMP4 := None, None, 0, 0, 0;
    var segmentDuration, breakAtNextMdat := 0, false;
    var h := calls;
    for i := 0 to |boxes|
      invariant Read(q, boxes[..i], calls)
             == Reading(Reader(tfhd, tfdt, track, startDTSMP4, durationMP4, segmentDuration, breakAtNextMdat, h))
      invariant tfdt.Some? ==> 0 <= track < |tracks|
    {
      ReadNext(q, boxes, i, calls);
      match boxes[i] {
        case Tfhd(id) =>
          tfhd := Some(id);
        case Tfdt(baseTime) =>
          if tfhd.None? {
            ReadStops(q, boxes, i + 1, calls);
            return None;
          }
          var found := FindTrack(tracks, tfhd.value);
          if found.None? {
            ReadStops(q, boxes, i + 1, calls);
            return None;
          }
          tfdt, track := Some(baseTime), found.value;
          startDTSMP4 := ToTicks(startDTS, tracks[track].timeScale);
          durationMP4 := ToTicks(duration, tracks[track].timeScale);
        case Trun(entries) =>
          if tfdt.None? {
            ReadStops(q, boxes, i + 1, calls);
            return None;
          }
          var dts, broken;
          dts, broken, h := MuxTrun(tfdt.value + startDTSMP4, durationMP4, entries, track, h);
          breakAtNextMdat := breakAtNextMdat || broken;
          var segmentElapsed := ToDuration(dts - startDTSMP4, tracks[track].timeScale);
          if segmentElapsed > segmentDuration {
            segmentDuration := segmentElapsed;
          }
        case Mdat =>
          if breakAtNextMdat {
            ReadStops(q, boxes, i + 1, calls);
            return Some((segmentDuration, h));
          }
        case _ =>
      }
    }
    assert boxes[..|boxes|] == boxes;
    return Some((segmentDuration, h));
  }

  // The loop over the entries of one run of samples.
  method MuxTrun(start: int, durationMP4: int, entries: seq<Stored>, track: nat, calls: History)
    returns (dts: int, broken: bool, h: History)
    ensures var n := Cut(start, durationMP4, entries, 0);
            && dts == Handed(start, entries, n) && broken == (n < |entries|)
            && h == Then(HandOver(calls, track, start, entries, n), Op.Final(track, dts))
  {
    dts, broken, h := start, false, calls;
    for i := 0 to |entries|
      invariant dts == Handed(start, entries, i) && !broken
      invariant h == HandOver(calls, track, start, entries, i)
      invariant Cut(start, durationMP4, entries, 0) == Cut(start, durationMP4, entries, i)
    {
      if dts >= durationMP4 {
        h := Then(h, Op.Final(track, dts));
        return dts, true, h;
      }
      var e := entries[i];
      h := Then(h, Op.Write(track, Sample(dts, e.ptsOffset, e.isNonSync, e.payload)));
      dts := dts + e.duration;
      assert entries[..i + 1][..i] == entries[..i];
    }
    h := Then(h, Op.Final(track, dts));
  }

  lemma ReadNothing(q: Request, boxes: seq<Box>, calls: History)
    requires TimeScalesOk(q.tracks)
    ensures Read(q, boxes[..0], calls) == Reading(Start(calls))
  {
  }

  lemma ReadNext(q: Request, boxes: seq<Box>, i: nat, calls: History)
    requires TimeScalesOk(q.tracks) && i < |boxes|
    ensures Read(q, boxes[..i + 1], calls)
         == if Read(q, boxes[..i], calls).Reading? then ReadBox(q, Read(q, boxes[..i], calls).r, boxes[i])
             else Read(q, boxes[..i], calls)
  {
    assert boxes[..i + 1][..i] == boxes[..i];
  }

  // Once reading has stopped, the boxes that follow do not matter.
  lemma {:induction false} ReadStops(q: Request, boxes: seq<Box>, n: nat, calls: History)
    requires TimeScalesOk(q.tracks) && n <= |boxes| && !Read(q, boxes[..n], calls).Reading?
    ensures Read(q, boxes, calls) == Read(q, boxes[..n], calls)
    decreases |boxes| - n
  {
    if n < |boxes| {
      assert boxes[..n + 1][..n] == boxes[..n];
      ReadStops(q, boxes, n + 1, calls);
    } else {
      assert boxes[..n] == boxes;
    }
  }
}
