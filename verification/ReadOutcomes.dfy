/** playback/segment_fmp4.go: how reading a file ends, on any sequence of boxes. */
module ReadOutcomes {
  import opened Wrappers
  import opened Arith
  import opened Playback
  import opened SegmentFile

  // The track that the boxes last named.
  function LastTfhd(boxes: seq<Box>): Option<int> {
    if boxes == [] then None
    else
      var b := boxes[|boxes| - 1];
      if b.Tfhd? then Some(b.trackID) else LastTfhd(boxes[..|boxes| - 1])
  }

  // The time that they last gave, with the track that was named by then.
  function LastTfdt(boxes: seq<Box>): Option<(int, Option<int>)> {
    if boxes == [] then None
    else
      var b, before := boxes[|boxes| - 1], boxes[..|boxes| - 1];
      if b.Tfdt? then Some((b.baseTime, LastTfhd(before))) else LastTfdt(before)
  }

  predicate IsTrack(tracks: seq<InitTrack>, t: nat, id: int) {
    t < |tracks| && tracks[t].id == id && forall u :: 0 <= u < t ==> tracks[u].id != id
  }

  predicate IsUnknown(tracks: seq<InitTrack>, id: Option<int>) {
    id.None? || forall t :: 0 <= t < |tracks| ==> tracks[t].id != id.value
  }

  // A time for no track or an unknown one, or samples without a time.
  predicate FailsAt(q: Request, boxes: seq<Box>, j: nat)
    requires j < |boxes|
  {
    match boxes[j]
    case Tfdt(_) => IsUnknown(q.tracks, LastTfhd(boxes[..j]))
    case Trun(_) => LastTfdt(boxes[..j]).None?
    case _ => false
  }

  predicate IsLate(q: Request, base: int, t: nat, entries: seq<Stored>, k: nat)
    requires TimeScalesOk(q.tracks)
  {
    && t < |q.tracks| && k < |entries|
    && base + ToTicks(q.startDTS, q.tracks[t].timeScale) + Durations(entries[..k])
       >= ToTicks(q.duration, q.tracks[t].timeScale)
  }

  // One of these samples is due at the end of the request or later.
  ghost predicate LeavesOut(q: Request, boxes: seq<Box>, j: nat)
    requires TimeScalesOk(q.tracks) && j < |boxes|
  {
    && boxes[j].Trun? && LastTfdt(boxes[..j]).Some? && LastTfdt(boxes[..j]).value.1.Some?
    && exists t, k ::
         && IsTrack(q.tracks, t, LastTfdt(boxes[..j]).value.1.value)
         && IsLate(q, LastTfdt(boxes[..j]).value.0, t, boxes[j].entries, k)
  }

  // The part in which samples were left out is over.
  ghost predicate StopsAt(q: Request, boxes: seq<Box>, j: nat)
    requires TimeScalesOk(q.tracks) && j < |boxes|
  {
    boxes[j] == Mdat && exists i :: 0 <= i < j && LeavesOut(q, boxes, i)
  }

  ghost predicate GoesOn(q: Request, boxes: seq<Box>, n: nat)
    requires TimeScalesOk(q.tracks) && n <= |boxes|
  {
    forall j :: 0 <= j < n ==> !FailsAt(q, boxes, j) && !StopsAt(q, boxes, j)
  }

  // What the reader has kept of the boxes that it has read.
  ghost predicate Remembers(q: Request, boxes: seq<Box>, r: Reader)
    requires TimeScalesOk(q.tracks)
  {
    && r.tfhd == LastTfhd(boxes)
    && (r.tfdt.Some? <==> LastTfdt(boxes).Some?)
    && (r.tfdt.Some? ==>
          && LastTfdt(boxes).value.0 == r.tfdt.value && LastTfdt(boxes).value.1.Some?
          && IsTrack(q.tracks, r.track, LastTfdt(boxes).value.1.value)
          && r.startDTSMP4 == ToTicks(q.startDTS, q.tracks[r.track].timeScale)
          && r.durationMP4 == ToTicks(q.duration, q.tracks[r.track].timeScale))
    && (r.breakAtNextMdat <==> exists i :: 0 <= i < |boxes| && LeavesOut(q, boxes, i))
  }

  lemma TrackIsUnique(tracks: seq<InitTrack>, t: nat, u: nat, id: int)
    requires IsTrack(tracks, t, id) && IsTrack(tracks, u, id)
    ensures t == u
  {
  }

  // The earlier boxes are judged as before.
  lemma EarlierStay(q: Request, boxes: seq<Box>, n: nat, j: nat)
    requires TimeScalesOk(q.tracks) && j < n <= |boxes|
    ensures FailsAt(q, boxes[..n], j) == FailsAt(q, boxes, j) && LeavesOut(q, boxes[..n], j) == LeavesOut(q, boxes, j)
  {
    assert boxes[..n][..j] == boxes[..j];
  }

  lemma StopsStay(q: Request, boxes: seq<Box>, n: nat, j: nat)
    requires TimeScalesOk(q.tracks) && j < n <= |boxes|
    ensures StopsAt(q, boxes[..n], j) == StopsAt(q, boxes, j)
  {
    hide LeavesOut;
    forall i | 0 <= i < j ensures LeavesOut(q, boxes[..n], i) == LeavesOut(q, boxes, i) {
      EarlierStay(q, boxes, n, i);
    }
  }

  lemma GoesOnBefore(q: Request, boxes: seq<Box>)
    requires TimeScalesOk(q.tracks) && boxes != []
    ensures var n := |boxes| - 1;
            GoesOn(q, boxes, |boxes|) <==>
              GoesOn(q, boxes[..n], n) && !FailsAt(q, boxes, n) && !StopsAt(q, boxes, n)
  {
    var n := |boxes| - 1;
    hide FailsAt, StopsAt;
    forall j | 0 <= j < n
      ensures FailsAt(q, boxes[..n], j) == FailsAt(q, boxes, j) && StopsAt(q, boxes[..n], j) == StopsAt(q, boxes, j)
    {
      EarlierStay(q, boxes, n, j);
      StopsStay(q, boxes, n, j);
    }
  }

  // Samples are left out of this run exactly when one of them is late.
  lemma CutLeavesOut(q: Request, boxes: seq<Box>, r: Reader, n: nat)
    requires TimeScalesOk(q.tracks) && n < |boxes| && boxes[n].Trun? && r.tfdt.Some? && Remembers(q, boxes[..n], r)
    ensures Cut(r.tfdt.value + r.startDTSMP4, r.durationMP4, boxes[n].entries, 0) < |boxes[n].entries|
       <==> LeavesOut(q, boxes, n)
  {
    hide ToTicks, Durations;
    var id, entries := LastTfdt(boxes[..n]).value.1.value, boxes[n].entries;
    var cut := Cut(r.tfdt.value + r.startDTSMP4, r.durationMP4, entries, 0);
    if cut < |entries| {
      assert Handed(r.tfdt.value + r.startDTSMP4, entries, cut) >= r.durationMP4;
      assert IsTrack(q.tracks, r.track, id) && IsLate(q, r.tfdt.value, r.track, entries, cut);
    }
    if LeavesOut(q, boxes, n) {
      var t, k :| IsTrack(q.tracks, t, id) && IsLate(q, LastTfdt(boxes[..n]).value.0, t, entries, k);
      TrackIsUnique(q.tracks, t, r.track, id);
      assert Handed(r.tfdt.value + r.startDTSMP4, entries, k) >= r.durationMP4;
    }
  }

  lemma NoMoreLeftOut(q: Request, boxes: seq<Box>)
    requires TimeScalesOk(q.tracks) && boxes != []
    ensures var n := |boxes| - 1;
            (exists i :: 0 <= i < |boxes| && LeavesOut(q, boxes, i)) <==>
              (exists i :: 0 <= i < n && LeavesOut(q, boxes[..n], i)) || LeavesOut(q, boxes, n)
  {
    var n := |boxes| - 1;
    hide LeavesOut;
    forall i | 0 <= i < n ensures LeavesOut(q, boxes[..n], i) == LeavesOut(q, boxes, i) {
      EarlierStay(q, boxes, n, i);
    }
    if exists i :: 0 <= i < n && LeavesOut(q, boxes[..n], i) {
      var i :| 0 <= i < n && LeavesOut(q, boxes[..n], i);
      assert LeavesOut(q, boxes, i);
    }
  }

  lemma OneMoreBox(q: Request, boxes: seq<Box>, r: Reader)
    requires TimeScalesOk(q.tracks) && boxes != [] && ReaderOk(q, r) && Remembers(q, boxes[..|boxes| - 1], r)
    ensures var n, s := |boxes| - 1, ReadBox(q, r, boxes[|boxes| - 1]);
            && (s.Failed? <==> FailsAt(q, boxes, n)) && (s.Terminated? <==> StopsAt(q, boxes, n))
            && (s.Reading? ==> Remembers(q, boxes, s.r))
  {
    var n := |boxes| - 1;
    var b := boxes[n];
    assert boxes[..n] == boxes[..|boxes| - 1];
    NoMoreLeftOut(q, boxes);
    hide ToTicks, ToDuration, HandOver, Cut, Handed;
    StopsIfBroken(q, boxes, r);
    match b
    case Trun(_) => if r.tfdt.Some? { CutLeavesOut(q, boxes, r, n); }
    case _ =>
      assert !LeavesOut(q, boxes, n);
      hide LeavesOut;
  }

  lemma StopsIfBroken(q: Request, boxes: seq<Box>, r: Reader)
    requires TimeScalesOk(q.tracks) && boxes != [] && Remembers(q, boxes[..|boxes| - 1], r)
    ensures var n := |boxes| - 1; StopsAt(q, boxes, n) <==> boxes[n] == Mdat && r.breakAtNextMdat
  {
    var n := |boxes| - 1;
    hide LeavesOut, LastTfdt, LastTfhd, IsTrack;
    forall i | 0 <= i < n ensures LeavesOut(q, boxes[..n], i) == LeavesOut(q, boxes, i) {
      EarlierStay(q, boxes, n, i);
    }
    if r.breakAtNextMdat {
      var i :| 0 <= i < n && LeavesOut(q, boxes[..n], i);
      assert LeavesOut(q, boxes, i);
    }
  }

  // Reading goes on to the end of the file if and only if no box makes it fail or stop; it fails if and only if the
  // first of those makes it fail, and otherwise stops there: after the part in which a sample was due too late.
  lemma {:induction false} ReadEndsExactly(q: Request, boxes: seq<Box>, calls: History)
    requires TimeScalesOk(q.tracks)
    ensures var r := Read(q, boxes, calls);
            && (r.Reading? <==> GoesOn(q, boxes, |boxes|))
            && (r.Reading? ==> Remembers(q, boxes, r.r))
            && (r.Failed? <==> exists j :: 0 <= j < |boxes| && FailsAt(q, boxes, j) && GoesOn(q, boxes, j))
    decreases |boxes|
  {
    if boxes != [] {
      var n := |boxes| - 1;
      hide ReadBox, Remembers, FailsAt, StopsAt, GoesOn;
      ReadEndsExactly(q, boxes[..n], calls);
      GoesOnBefore(q, boxes);
      var before := Read(q, boxes[..n], calls);
      if before.Reading? {
        OneMoreBox(q, boxes, before.r);
      }
      FirstFailure(q, boxes);
    }
  }

  lemma FirstFailure(q: Request, boxes: seq<Box>)
    requires TimeScalesOk(q.tracks) && boxes != []
    ensures var n := |boxes| - 1;
            (exists j :: 0 <= j < |boxes| && FailsAt(q, boxes, j) && GoesOn(q, boxes, j)) <==>
              || (exists j :: 0 <= j < n && FailsAt(q, boxes[..n], j) && GoesOn(q, boxes[..n], j))
              || (FailsAt(q, boxes, n) && GoesOn(q, boxes[..n], n))
  {
    var n := |boxes| - 1;
    hide FailsAt, StopsAt;
    forall j | 0 <= j < n
      ensures FailsAt(q, boxes[..n], j) == FailsAt(q, boxes, j) && StopsAt(q, boxes[..n], j) == StopsAt(q, boxes, j)
    {
      EarlierStay(q, boxes, n, j);
      StopsStay(q, boxes, n, j);
    }
    forall j | 0 <= j <= n ensures GoesOn(q, boxes[..n], j) == GoesOn(q, boxes, j) {
    }
    hide GoesOn;
    if exists j :: 0 <= j < n && FailsAt(q, boxes[..n], j) && GoesOn(q, boxes[..n], j) {
      var j :| 0 <= j < n && FailsAt(q, boxes[..n], j) && GoesOn(q, boxes[..n], j);
      assert FailsAt(q, boxes, j) && GoesOn(q, boxes, j);
    }
    if exists j :: 0 <= j < |boxes| && FailsAt(q, boxes, j) && GoesOn(q, boxes, j) {
      var j :| 0 <= j < |boxes| && FailsAt(q, boxes, j) && GoesOn(q, boxes, j);
      if j < n { assert FailsAt(q, boxes[..n], j) && GoesOn(q, boxes[..n], j); }
    }
  }
}
