/** recorder/format_fmp4_{track,segment,part}.go: the objects that a recording updates in place. */
module FormatFMP4 {
  import opened Wrappers
  import opened Arith
  import S = RecorderState

  // formatFMP4Part
  class Part {
    const number: nat
    const startDTS: int
    var fragments: map<S.TrackId, S.Fragment>
    var size: nat
    var endDTS: int

    function View(): S.Part
      reads this
    {
      S.Part(number, startDTS, fragments, size, endDTS)
    }

    constructor (number: nat, startDTS: int)
      ensures View() == S.EmptyPart(number, startDTS)
    {
      this.number := number;
      this.startDTS := startDTS;
      fragments := map[];
      size := 0;
      endDTS := 0;
    }

    method Write(maxPartSize: int, segmentStart: int, t: S.TrackId, rate: int, sample: S.Sample, dts: int)
      returns (ok: bool)
      requires rate > 0
      modifies this
      ensures ok == S.PartWrite(old(View()), maxPartSize, segmentStart, t, rate, sample, dts).Some?
      ensures View() == if ok then S.PartWrite(old(View()), maxPartSize, segmentStart, t, rate, sample, dts).value
                        else old(View())
    {
      hide ToDuration, ToTicks;
      if size + sample.size > maxPartSize {
        return false;
      }
      size := size + sample.size;
      if t !in fragments {
        fragments := fragments[t := S.Fragment(ToTicks(dts - segmentStart, rate), [])];
      }
      fragments := fragments[t := fragments[t].(samples := fragments[t].samples + [sample])];
      var sampleEnd := dts + ToDuration(sample.duration, rate);
      if sampleEnd > endDTS {
        endDTS := sampleEnd;
      }
      return true;
    }

    function Duration(): (d: int)
      reads this
      ensures d == View().Duration()
    {
      endDTS - startDTS
    }
  }

  // formatFMP4Segment; parts is the content of the file.
  class Segment {
    const startDTS: int
    const startNTP: int
    const number: nat
    ghost const fromSync: bool
    var parts: seq<S.Part>
    var curPart: Part?
    var endDTS: int
    var nextPartNumber: nat

    ghost function View(): S.Segment
      reads this, curPart
    {
      S.Segment(startDTS, startNTP, number, endDTS, parts,
                if curPart == null then None else Some(curPart.View()), nextPartNumber, fromSync)
    }

    constructor (startDTS: int, startNTP: int, number: nat, ghost fromSync: bool)
      ensures View() == S.NewSegment(startDTS, startNTP, number, fromSync)
      ensures curPart == null
    {
      this.startDTS := startDTS;
      this.startNTP := startNTP;
      this.number := number;
      this.fromSync := fromSync;
      parts := [];
      curPart := null;
      endDTS := startDTS;
      nextPartNumber := 0;
    }

    method CloseCurPart()
      requires curPart != null
      modifies this`parts
      ensures View() == S.CloseCurPart(old(View()))
    {
      parts := parts + [curPart.View()];
    }

    method Close()
      modifies this
      ensures View() == S.SegmentClose(old(View()))
    {
      if curPart != null {
        CloseCurPart();
        curPart := null;
      }
    }

    method Write(partDuration: int, maxPartSize: int, t: S.TrackId, rate: int, sample: S.Sample, dts: int,
        ghost settings: S.Settings)
      returns (ok: bool)
      requires rate > 0 && partDuration == settings.partDuration && maxPartSize == settings.maxPartSize
      modifies this, curPart
      ensures (View(), ok) == S.SegmentWrite(old(View()), settings, t, rate, sample, dts)
      ensures curPart != null && (curPart == old(curPart) || fresh(curPart))
    {
      hide ToDuration, ToTicks;
      var sampleEnd := dts + ToDuration(sample.duration, rate);
      if sampleEnd > endDTS {
        endDTS := sampleEnd;
      }
      if curPart == null {
        curPart := new Part(nextPartNumber, dts);
        nextPartNumber := nextPartNumber + 1;
      } else if curPart.Duration() >= partDuration {
        CloseCurPart();
        curPart := new Part(nextPartNumber, dts);
        nextPartNumber := nextPartNumber + 1;
      }
      hide S.PartWrite;
      ok := curPart.Write(maxPartSize, startDTS, t, rate, sample, dts);
    }
  }

  // formatFMP4Track
  class Track {
    const rate: int
    const isVideo: bool
    var nextSample: Option<S.Sample>
    var startInitialized: bool
    var startDTS: int
    var startNTP: int

    function View(): S.Track
      reads this
    {
      S.Track(rate, isVideo, nextSample, startInitialized, startDTS, startNTP)
    }

    constructor (rate: int, isVideo: bool)
      ensures View() == S.Track(rate, isVideo, None, false, 0, 0)
    {
      this.rate := rate;
      this.isVideo := isVideo;
      nextSample := None;
      startInitialized := false;
      startDTS := 0;
      startNTP := 0;
    }

    // Swap the incoming sample with the pending one, whose duration is then known.
    method Swap(sample: S.Sample) returns (ready: Option<S.Sample>)
      modifies this`nextSample
      ensures old(nextSample).None? ==> ready.None? && nextSample == Some(sample)
      ensures old(nextSample).Some? ==>
                var next := S.Clamp(old(nextSample).value, sample);
                nextSample == Some(next) && ready == Some(S.WithDuration(old(nextSample).value, next))
    {
      ready, nextSample := nextSample, Some(sample);
      if ready.Some? {
        var duration := sample.dts - ready.value.dts;
        if duration < 0 {
          nextSample := Some(sample.(dts := ready.value.dts));
          duration := 0;
        }
        ready := Some(ready.value.(duration := Uint32(duration)));
      }
    }

    // The first sample of a track fixes its origin; the later ones must agree with it on the passing of time.
    method CheckDrift(sample: S.Sample, dts: int) returns (drifted: bool)
      modifies this`startInitialized, this`startDTS, this`startNTP
      ensures drifted == S.Drifts(old(View()), sample, dts)
      ensures View() == S.Initialized(old(View()), sample, dts)
      ensures drifted ==> View() == old(View())
    {
      if !startInitialized {
        startDTS := dts;
        startNTP := sample.ntp;
        startInitialized := true;
        return false;
      }
      var drift := sample.ntp - startNTP - (dts - startDTS);
      return drift < -S.NTP_DRIFT_TOLERANCE || drift > S.NTP_DRIFT_TOLERANCE;
    }
  }

  function Views(tracks: seq<Track>): (v: seq<S.Track>)
    reads tracks
    ensures |v| == |tracks| && forall i :: 0 <= i < |tracks| ==> v[i] == tracks[i].View()
  {
    if tracks == [] then [] else Views(tracks[..|tracks| - 1]) + [tracks[|tracks| - 1].View()]
  }

  // nextSegmentStartingPos: a pass for the newest pending sample, then one for the oldest that is near it.
  method NextSegmentStartingPos(tracks: seq<Track>) returns (start: S.Start)
    requires S.RatesOk(Views(tracks))
    ensures start == S.NextSegmentStartingPos(Views(tracks))
  {
    hide ToDuration;
    ghost var v := Views(tracks);
    var maxDTS := 0;
    for i := 0 to |tracks|
      invariant maxDTS == S.NewestPending(v[..i])
    {
      assert v[..i + 1][..i] == v[..i];
      if tracks[i].nextSample.Some? {
        var dts := ToDuration(tracks[i].nextSample.value.dts, tracks[i].rate);
        if dts > maxDTS {
          maxDTS := dts;
        }
      }
    }
    assert v[..|tracks|] == v;
    start := S.Start(S.ZERO_TIME, maxDTS);
    for i := 0 to |tracks|
      invariant start == S.OldestPending(v[..i], maxDTS)
    {
      assert v[..i + 1][..i] == v[..i];
      if tracks[i].nextSample.Some? {
        var dts := ToDuration(tracks[i].nextSample.value.dts, tracks[i].rate);
        if maxDTS - dts <= S.MAX_BASETIME && dts <= start.dts {
          start := S.Start(tracks[i].nextSample.value.ntp, dts);
        }
      }
    }
  }

  // formatFMP4, with what it has left on disk and what it was given.
  class Format {
    const settings: S.Settings
    const tracks: seq<Track>
    var hasVideo: bool
    var currentSegment: Segment?
    var nextSegmentNumber: nat
    ghost var closed: seq<S.Segment>
    ghost var fed: seq<seq<S.Sample>>
    ghost var dropped: seq<set<int>>

    ghost function Part(): Part?
      reads this, currentSegment
    {
      if currentSegment == null then null else currentSegment.curPart
    }

    ghost function View(): S.Recorder
      reads this, tracks, currentSegment, Part()
    {
      S.Recorder(settings, Views(tracks), hasVideo,
                 if currentSegment == null then None else Some(currentSegment.View()),
                 nextSegmentNumber, closed, fed, dropped)
    }

    ghost predicate Valid()
      reads this, tracks
    {
      && (forall i, j :: 0 <= i < j < |tracks| ==> tracks[i] != tracks[j])
      && S.RatesOk(Views(tracks)) && |fed| == |tracks| == |dropped|
    }

    constructor (settings: S.Settings, tracks: seq<Track>)
      requires forall i, j :: 0 <= i < j < |tracks| ==> tracks[i] != tracks[j]
      requires forall i :: 0 <= i < |tracks| ==> tracks[i].rate > 0
      ensures Valid() && this.settings == settings && this.tracks == tracks
      ensures View() == S.Recorder(settings, Views(tracks), false, None, 0, [], seq(|tracks|, i => []),
          seq(|tracks|, i => {}))
    {
      this.settings := settings;
      this.tracks := tracks;
      hasVideo := false;
      currentSegment := null;
      nextSegmentNumber := 0;
      closed := [];
      fed := seq(|tracks|, i => []);
      dropped := seq(|tracks|, i => {});
    }

    method OpenSegment(startDTS: int, startNTP: int, ghost fromSync: bool)
      requires Valid()
      modifies this`currentSegment, this`nextSegmentNumber
      ensures Valid() && fresh(currentSegment) && currentSegment.curPart == null
      ensures View() == old(View()).(
        current := Some(S.NewSegment(startDTS, startNTP, old(nextSegmentNumber), fromSync)),
        nextSegmentNumber := old(nextSegmentNumber) + 1)
    {
      currentSegment := new Segment(startDTS, startNTP, nextSegmentNumber, fromSync);
      nextSegmentNumber := nextSegmentNumber + 1;
    }

    method Cut(t: S.TrackId)
      requires Valid() && t < |tracks| && tracks[t].nextSample.Some? && currentSegment != null
      modifies this, currentSegment
      ensures Valid() && View() == S.Cut(old(View()), t)
    {
      hide ToDuration, Views, S.OldestPending, S.NewestPending, S.SegmentClose;
      assert Views(tracks)[t] == tracks[t].View();
      var next := tracks[t].nextSample.value;
      var nextDTS := ToDuration(next.dts, tracks[t].rate);
      if (!hasVideo || tracks[t].isVideo) && !next.isNonSync
          && nextDTS - currentSegment.startDTS >= settings.segmentDuration {
        currentSegment.Close();
        closed := closed + [currentSegment.View()];
        var start := NextSegmentStartingPos(tracks);
        OpenSegment(start.dts, start.ntp, tracks[t].isVideo && start.dts <= nextDTS);
      }
    }

    method Offer(t: S.TrackId, sample: S.Sample, dts: int) returns (outcome: S.Outcome)
      requires Valid() && t < |tracks| && tracks[t].nextSample.Some?
      modifies this, currentSegment, Part()
      ensures Valid() && (View(), outcome) == S.Offer(old(View()), t, sample, dts)
    {
      hide ToDuration, Views, S.SegmentWrite, S.Cut;
      assert Views(tracks)[t] == tracks[t].View();
      if currentSegment == null {
        OpenSegment(dts, sample.ntp, false);
      } else if dts - currentSegment.startDTS < 0 {
        dropped := dropped[t := dropped[t] + {|fed[t]| - 2}];
        return S.Discarded;
      }
      var ok := currentSegment.Write(settings.partDuration, settings.maxPartSize, t, tracks[t].rate, sample, dts,
          settings);
      if !ok {
        return S.PartTooBig;
      }
      Cut(t);
      return S.Written;
    }

    method Feed(t: S.TrackId, sample: S.Sample) returns (ready: Option<S.Sample>)
      requires Valid() && t < |tracks|
      modifies this`hasVideo, this`fed, tracks[t]
      ensures Valid() && View() == S.Feed(old(View()), t, sample)
      ensures ready == if old(View()).tracks[t].nextSample.None? then None else Some(S.Ready(old(View()), t, sample))
      ensures tracks[t].nextSample.Some?
    {
      hide Views, S.Clamp, S.WithDuration;
      ghost var before := View();
      assert before.tracks[t] == tracks[t].View();
      if tracks[t].isVideo {
        hasVideo := true;
      }
      ready := tracks[t].Swap(sample);
      fed := fed[t := fed[t] + [sample]];
      assert Views(tracks) == before.tracks[t := tracks[t].View()];
    }

    // formatFMP4Track.write.
    method Write(t: S.TrackId, sample: S.Sample) returns (outcome: S.Outcome)
      requires Valid() && t < |tracks|
      modifies this, tracks[t], currentSegment, Part()
      ensures Valid() && (View(), outcome) == S.Write(old(View()), t, sample)
    {
      hide ToDuration, Views, S.Drifts, S.Offer, S.Ready, S.Feed, S.Initialized;
      var ready := Feed(t, sample);
      assert View().tracks[t] == tracks[t].View();
      if ready.None? {
        return S.Buffered;
      }
      var dts := ToDuration(ready.value.dts, tracks[t].rate);
      ghost var fed := View();
      var drifted := tracks[t].CheckDrift(ready.value, dts);
      assert Views(tracks) == fed.tracks[t := tracks[t].View()];
      if drifted {
        return S.Drifted;
      }
      assert View() == S.Initialize(fed, t, ready.value, dts);
      outcome := Offer(t, ready.value, dts);
    }
  }
}
