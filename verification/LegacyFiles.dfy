/** playback/on_get.go: which files are read one after the other, and where those without mtxi are placed. */
module LegacyFiles {
  import opened Wrappers
  import opened Arith
  import opened Playback
  import opened SegmentFile
  import opened SeekAndMux

  // Files of one stream follow each other by number; older ones by date, to within a second, if their tracks agree.
  lemma ConcatenatedExactly(prev: Init, prevEnd: int, cur: Init, curStart: int)
    ensures CanBeConcatenated(prev, prevEnd, cur, curStart) <==>
            || (prev.mtxi.None? && cur.mtxi.None? && prev.tracks == cur.tracks
                && Abs(curStart - prevEnd) <= 1_000_000_000)
            || (prev.mtxi.Some? && cur.mtxi.Some? && prev.mtxi.value.streamID == cur.mtxi.value.streamID
                && cur.mtxi.value.segmentNumber == (prev.mtxi.value.segmentNumber + 1) % TWO_64)
  {
    if TracksAreEqual(prev.tracks, cur.tracks) {
      assert prev.tracks == cur.tracks;
    }
  }

  // The calls made since, of the history as it was: the latest end of a run of samples, relative to the file.
  function LatestEnd(q: Request, since: History, h: History): int
    requires TimeScalesOk(q.tracks) && OpsInRange(h, |q.tracks|)
  {
    match h
    case Begin => 0
    case Then(before, op) =>
      if h == since then 0
      else
        var rest := LatestEnd(q, since, before);
        if op.Final? then
          var rate := q.tracks[op.track].timeScale;
          Max(rest, ToDuration(op.dts - ToTicks(q.startDTS, rate), rate))
        else rest
  }

  // h is since and then these calls.
  predicate Extends(since: History, h: History) {
    h == since || (h.Then? && Extends(since, h.before))
  }

  lemma {:induction false} LatestEndOfNothing(q: Request, h: History)
    requires TimeScalesOk(q.tracks) && OpsInRange(h, |q.tracks|)
    ensures LatestEnd(q, h, h) == 0
  {
  }

  lemma {:induction false} HandOverEndsNothing(q: Request, since: History, h: History, t: nat, dts: int,
      entries: seq<Stored>, n: nat)
    requires TimeScalesOk(q.tracks) && OpsInRange(h, |q.tracks|) && Extends(since, h)
    requires t < |q.tracks| && n <= |entries|
    ensures var more := HandOver(h, t, dts, entries, n);
            && OpsInRange(more, |q.tracks|) && Extends(since, more)
            && LatestEnd(q, since, more) == LatestEnd(q, since, h)
  {
    if n > 0 {
      hide ToDuration, ToTicks, Handed;
      HandOverEndsNothing(q, since, h, t, dts, entries, n - 1);
      NotShorter(since, HandOver(h, t, dts, entries, n - 1), HandOver(h, t, dts, entries, n));
    }
  }

  function Length(h: History): nat {
    if h.Then? then Length(h.before) + 1 else 0
  }

  lemma {:induction false} ExtendsIsLonger(since: History, h: History)
    requires Extends(since, h)
    ensures Length(since) <= Length(h)
  {
    if h != since { ExtendsIsLonger(since, h.before); }
  }

  lemma NotShorter(since: History, h: History, more: History)
    requires Extends(since, h) && more.Then? && more.before == h
    ensures more != since
  {
    ExtendsIsLonger(since, h);
  }

  // What reading a file returns is the latest end of its runs of samples, or 0 if there is none.
  lemma {:induction false} SegmentDurationIsTheLatestEnd(q: Request, boxes: seq<Box>, calls: History)
    requires TimeScalesOk(q.tracks) && OpsInRange(calls, |q.tracks|)
    ensures var r := Read(q, boxes, calls);
            !r.Failed? ==>
              && OpsInRange(r.r.calls, |q.tracks|) && Extends(calls, r.r.calls)
              && r.r.segmentDuration == LatestEnd(q, calls, r.r.calls)
              && (r.Reading? && r.r.tfdt.Some? ==>
                    r.r.startDTSMP4 == ToTicks(q.startDTS, q.tracks[r.r.track].timeScale))
    decreases |boxes|
  {
    hide ToDuration, ToTicks, Cut, Handed, FindTrack;
    if boxes == [] {
      LatestEndOfNothing(q, calls);
    } else {
      var n := |boxes| - 1;
      SegmentDurationIsTheLatestEnd(q, boxes[..n], calls);
      var r := Read(q, boxes[..n], calls);
      if r.Reading? && boxes[n].Trun? && r.r.tfdt.Some? {
        TrunEnds(q, r.r, boxes[n].entries, calls);
      }
    }
  }

  lemma TrunEnds(q: Request, r: Reader, entries: seq<Stored>, since: History)
    requires TimeScalesOk(q.tracks) && ReaderOk(q, r) && r.tfdt.Some? && OpsInRange(r.calls, |q.tracks|)
    requires Extends(since, r.calls) && r.segmentDuration == LatestEnd(q, since, r.calls)
    requires r.startDTSMP4 == ToTicks(q.startDTS, q.tracks[r.track].timeScale)
    ensures var s := ReadTrun(q, r, entries);
            && OpsInRange(s.calls, |q.tracks|) && Extends(since, s.calls)
            && s.segmentDuration == LatestEnd(q, since, s.calls)
  {
    hide ToDuration, ToTicks, Cut, Handed, HandOver;
    var dts := r.tfdt.value + r.startDTSMP4;
    var n := Cut(dts, r.durationMP4, entries, 0);
    HandOverEndsNothing(q, since, r.calls, r.track, dts, entries, n);
    NotShorter(since, HandOver(r.calls, r.track, dts, entries, n), ReadTrun(q, r, entries).calls);
  }

  // The next of the files, when the first one has no mtxi: it is read if it has none either, its tracks are those of
  // the file before and its date is within a second of the end of that one; and then it is placed where its date is,
  // relative to the start of the request.
  lemma LegacyFileIsPlacedByItsDate(files: seq<File>, n: nat, start: int, duration: int)
    requires Readable(files) && 1 <= n < |files| && Seek(files, n, start, duration).Muxing?
    requires files[0].init.mtxi.None?
    ensures var s, f := Seek(files, n, start, duration), files[n];
            var r := Read(Request(files[0].init.tracks, f.start - start, duration), f.boxes, s.calls);
            && s.prevInit == files[n - 1].init
            && Seek(files, n + 1, start, duration)
            == if !(f.init.mtxi.None? && f.init.tracks == s.prevInit.tracks
                    && Abs(f.start - s.segmentEnd) <= 1_000_000_000)
               then Done(s.calls)
               else if r.Failed? then Error
               else Muxing(r.r.calls, f.init, f.start + r.r.segmentDuration)
  {
    var s := Seek(files, n, start, duration);
    ConcatenatedExactly(s.prevInit, s.segmentEnd, files[n].init, files[n].start);
    hide Read, CanBeConcatenated;
  }

  // With mtxi, it is placed as far from the first one as their decode times are.
  lemma FileIsPlacedByItsDecodeTime(files: seq<File>, n: nat, start: int, duration: int)
    requires Readable(files) && 1 <= n < |files| && Seek(files, n, start, duration).Muxing?
    requires files[0].init.mtxi.Some?
    ensures var s, f, first := Seek(files, n, start, duration), files[n], files[0].init.mtxi.value;
            && s.prevInit.mtxi.Some?
            && Seek(files, n + 1, start, duration)
            == if !(f.init.mtxi.Some? && f.init.mtxi.value.streamID == s.prevInit.mtxi.value.streamID
                    && f.init.mtxi.value.segmentNumber == (s.prevInit.mtxi.value.segmentNumber + 1) % TWO_64)
               then Done(s.calls)
               else
                 var at := f.init.mtxi.value.dts - first.dts + (files[0].start - start);
                 var r := Read(Request(files[0].init.tracks, at, duration), f.boxes, s.calls);
                 if r.Failed? then Error else Muxing(r.r.calls, f.init, f.start + r.r.segmentDuration)
  {
    var s := Seek(files, n, start, duration);
    ConcatenatedExactly(s.prevInit, s.segmentEnd, files[n].init, files[n].start);
    hide Read, CanBeConcatenated;
  }
}
