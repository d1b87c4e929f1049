/** playback/on_get.go: the files that a request is answered from, and the time each of them starts at. */
module SeekAndMux {
  import opened Wrappers
  import opened Arith
  import opened Playback
  import opened SegmentFile

  // start is the date in the name of the file.
  datatype File = File(start: int, init: Init, boxes: seq<Box>)

  datatype State = Muxing(calls: History, prevInit: Init, segmentEnd: int) | Done(calls: History) | Error

  predicate Readable(files: seq<File>) {
    files != [] && TimeScalesOk(files[0].init.tracks)
  }

  // Where a file that carries mtxi starts, relative to the request.
  function StartOf(first: File, f: File, start: int): int
    requires first.init.mtxi.Some? ==> f.init.mtxi.Some?
  {
    match first.init.mtxi
    case Some(m) => f.init.mtxi.value.dts - m.dts + (first.start - start)
    case None => f.start - start
  }

  function Mux(files: seq<File>, f: File, dts: int, duration: int, calls: History): State
    requires Readable(files)
  {
    var r := Read(Request(files[0].init.tracks, dts, duration), f.boxes, calls);
    if r.Failed? then Error else Muxing(r.r.calls, f.init, f.start + r.r.segmentDuration)
  }

  // After the first n files. Reading mtxi is safe because files without it never follow one with it.
  function Seek(files: seq<File>, n: nat, start: int, duration: int): (s: State)
    requires Readable(files) && 1 <= n <= |files|
    ensures s.Muxing? ==> s.prevInit == files[n - 1].init && (s.prevInit.mtxi.Some? <==> files[0].init.mtxi.Some?)
  {
    if n == 1 then Mux(files, files[0], files[0].start - start, duration, Begin)
    else
      var s, f := Seek(files, n - 1, start, duration), files[n - 1];
      if !s.Muxing? then s
      else if !CanBeConcatenated(s.prevInit, s.segmentEnd, f.init, f.start) then Done(s.calls)
      else Mux(files, f, StartOf(files[0], f, start), duration, s.calls)
  }

  // seekAndMux, up to the final flush.
  method Run(files: seq<File>, start: int, duration: int) returns (calls: Option<History>)
    requires Readable(files)
    ensures var s := Seek(files, |files|, start, duration);
            calls == if s.Error? then None else Some(s.calls)
  {
    hide Read, CanBeConcatenated;
    var firstInit := files[0].init;
    var firstMtxi := firstInit.mtxi;
    var startOffset := files[0].start - start;
    var dts, prevInit := startOffset, firstInit;
    var result := MuxParts(files[0].boxes, dts, duration, firstInit.tracks, Begin);
    if result.None? {
      SeekStops(files, 1, start, duration);
      return None;
    }
    var segmentEnd, h := files[0].start + result.value.0, result.value.1;
    for i := 1 to |files|
      invariant Seek(files, i, start, duration) == Muxing(h, prevInit, segmentEnd)
    {
      var seg := files[i];
      if !CanBeConcatenated(prevInit, segmentEnd, seg.init, seg.start) {
        SeekStops(files, i + 1, start, duration);
        return Some(h);
      }
      if firstMtxi != None {
        ConcatenatedInitsAgree(prevInit, segmentEnd, seg.init, seg.start);
        var mtxi := seg.init.mtxi.value;
        dts := mtxi.dts - firstMtxi.value.dts + startOffset;
      } else {
        dts := seg.start - start;
      }
      result := MuxParts(seg.boxes, dts, duration, firstInit.tracks, h);
      if result.None? {
        SeekStops(files, i + 1, start, duration);
        return None;
      }
      h := result.value.1;
      segmentEnd, prevInit := seg.start + result.value.0, seg.init;
    }
    return Some(h);
  }

  lemma ConcatenatedInitsAgree(prev: Init, prevEnd: int, cur: Init, curStart: int)
    requires CanBeConcatenated(prev, prevEnd, cur, curStart)
    ensures prev.mtxi.Some? <==> cur.mtxi.Some?
  {
  }

  lemma {:induction false} SeekStops(files: seq<File>, n: nat, start: int, duration: int)
    requires Readable(files) && 1 <= n <= |files| && !Seek(files, n, start, duration).Muxing?
    ensures Seek(files, |files|, start, duration) == Seek(files, n, start, duration)
    decreases |files| - n
  {
    if n < |files| {
      SeekStops(files, n + 1, start, duration);
    }
  }

  // The i-th file after the first: both carry mtxi, of one stream and numbered i apart, or neither does.
  predicate Continues(first: Init, cur: Init, i: nat) {
    match (first.mtxi, cur.mtxi)
    case (None, None) => TracksAreEqual(first.tracks, cur.tracks)
    case (Some(a), Some(b)) => b.streamID == a.streamID && (i > 0 ==> b.segmentNumber == (a.segmentNumber + i) % TWO_64)
    case _ => false
  }

  lemma ContinuesNext(first: Init, prev: Init, prevEnd: int, cur: Init, curStart: int, i: nat)
    requires Continues(first, prev, i) && (i == 0 ==> prev == first)
    requires CanBeConcatenated(prev, prevEnd, cur, curStart)
    ensures Continues(first, cur, i + 1)
  {
    if first.mtxi.Some? {
      hide TracksAreEqual;
      var a := first.mtxi.value.segmentNumber;
      assert ((a + i) % TWO_64 + 1) % TWO_64 == (a + i + 1) % TWO_64;
    }
  }

  // Every file that is read continues the first one in this way.
  lemma {:induction false} ChainIsUniform(files: seq<File>, n: nat, start: int, duration: int)
    requires Readable(files) && 1 <= n <= |files| && Seek(files, n, start, duration).Muxing?
    ensures forall i :: 0 <= i < n ==> Continues(files[0].init, files[i].init, i)
  {
    hide CanBeConcatenated, Mux;
    if n > 1 {
      hide Continues;
      ChainIsUniform(files, n - 1, start, duration);
      var s := Seek(files, n - 1, start, duration);
      ContinuesNext(files[0].init, s.prevInit, s.segmentEnd, files[n - 1].init, files[n - 1].start, n - 2);
    }
  }
}
