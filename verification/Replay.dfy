/** Record, then replay: what the recorder of recorder/ writes and what the server of playback/ makes of it. */
module Replay {
  import opened Arith
  import P = Playback
  import opened SegmentFile
  import R = RecorderState
  import S = RecorderSafety
  import RecorderRuns
  import T = RecorderTimes

  function Entry(s: R.Sample): P.Stored {
    P.Stored(s.ptsOffset, s.isNonSync, s.payload, s.duration)
  }

  function Entries(ss: seq<R.Sample>): (r: seq<P.Stored>)
    ensures |r| == |ss|
  {
    seq(|ss|, i requires 0 <= i < |ss| => Entry(ss[i]))
  }

  // The distance between a handed decode time and the true one, in units of 1 / (SECOND * rate) s: x is handed for a
  // sample at dts, in a replay that shows the recording's time zero at offset.
  function TimeError(x: int, dts: int, zero: int, offset: int, rate: int): int {
    x * SECOND - (dts * SECOND - zero * rate + offset * rate)
  }

  // ---- arithmetic ----

  lemma FragmentError(first: int, base: int, start: int, rate: int)
    requires 0 < rate <= SECOND && first >= 0
    requires start <= ToDuration(first, rate) && base == ToTicks(ToDuration(first, rate) - start, rate)
    ensures -2 * SECOND < base * SECOND - (first * SECOND - start * rate) <= 0
  {
    var d := ToDuration(first, rate);
    MultiplyAndDivideBounds(first, SECOND, rate);
    MultiplyAndDivideBounds(d - start, rate, SECOND);
    MulSplit(d, start, rate);
    hide MultiplyAndDivide;
  }

  lemma OffsetError(x: int, rate: int)
    requires rate > 0
    ensures -SECOND < ToTicks(x, rate) * SECOND - x * rate < SECOND
  {
    MultiplyAndDivideBounds(x, rate, SECOND);
    hide MultiplyAndDivide;
  }

  lemma {:induction false} EntriesDurations(ss: seq<R.Sample>, k: nat)
    requires k <= |ss|
    ensures P.Durations(Entries(ss)[..k]) == RecorderRuns.Durations(ss[..k])
  {
    if k > 0 {
      EntriesDurations(ss, k - 1);
      assert Entries(ss)[..k][..k - 1] == Entries(ss)[..k - 1];
      assert ss[..k][..k - 1] == ss[..k - 1];
    }
  }

  // The recorder alone: base time plus durations is at most 2 ticks before the true time, never after it.
  lemma RecorderError(f: R.Fragment, start: int, rate: int, k: nat)
    requires 0 < rate <= SECOND && S.FragmentOk(f, start, rate) && S.Linked(f.samples) && T.TimesFit(f.samples)
    requires k < |f.samples|
    ensures -2 * SECOND < TimeError(Handed(f.baseTime, Entries(f.samples), k), f.samples[k].dts, start, 0, rate) <= 0
  {
    assert forall i :: 0 <= i < k ==> T.IsNear(f.samples[i].dts, f.samples[i + 1].dts);
    FragmentError(f.samples[0].dts, f.baseTime, start, rate);
    EntriesDurations(f.samples, k);
    RecorderRuns.DurationsTelescope(f.samples, k);
    hide ToDuration, ToTicks, S.Linked, T.TimesFit;
  }

  // Recorder and reader together: less than 3 ticks, wherever the segment starts and however many came before it.
  lemma ReplayError(f: R.Fragment, start: int, rate: int, k: nat, zero: int, offset: int)
    requires 0 < rate <= SECOND && S.FragmentOk(f, start, rate) && S.Linked(f.samples) && T.TimesFit(f.samples)
    requires k < |f.samples|
    ensures var dts := f.baseTime + ToTicks(start - zero + offset, rate);
            -3 * SECOND < TimeError(Handed(dts, Entries(f.samples), k), f.samples[k].dts, zero, offset, rate) < SECOND
  {
    RecorderError(f, start, rate, k);
    var x := start - zero + offset;
    OffsetError(x, rate);
    MulSplit(start - zero, offset, rate);
    MulSplit(start, zero, rate);
    hide ToTicks;
    assert Handed(f.baseTime + ToTicks(x, rate), Entries(f.samples), k)
        == Handed(f.baseTime, Entries(f.samples), k) + ToTicks(x, rate);
  }

  // ---- the files of a recording ----

  // What a track of the recorder becomes in the header.
  predicate HeaderOf(tracks: seq<InitTrack>, rates: seq<int>) {
    && |tracks| == |rates|
    && (forall t :: 0 <= t < |tracks| ==> tracks[t].timeScale == rates[t])
    && (forall t, u :: 0 <= t < u < |tracks| ==> tracks[t].id != tracks[u].id)
  }

  function FragmentBoxes(id: int, f: R.Fragment): seq<Box> {
    [Traf, Tfhd(id), Tfdt(f.baseTime), Trun(Entries(f.samples))]
  }

  // The order of the tracks in a part is that of a Go map, which is any order.
  predicate IsOrder(order: seq<R.TrackId>, p: R.Part, tracks: seq<InitTrack>) {
    forall i :: 0 <= i < |order| ==> order[i] in p.fragments && order[i] < |tracks|
  }

  function PartBoxes(p: R.Part, order: seq<R.TrackId>, tracks: seq<InitTrack>): seq<Box>
    requires IsOrder(order, p, tracks)
  {
    if order == [] then [Moof]
    else
      var n := |order| - 1;
      PartBoxes(p, order[..n], tracks) + FragmentBoxes(tracks[order[n]].id, p.fragments[order[n]])
  }

  predicate AreOrders(orders: seq<seq<R.TrackId>>, parts: seq<R.Part>, tracks: seq<InitTrack>) {
    |orders| == |parts| && forall i :: 0 <= i < |parts| ==> IsOrder(orders[i], parts[i], tracks)
  }

  function FileBoxes(parts: seq<R.Part>, orders: seq<seq<R.TrackId>>, tracks: seq<InitTrack>): seq<Box>
    requires AreOrders(orders, parts, tracks)
  {
    if parts == [] then [Other, Other]
    else
      var n := |parts| - 1;
      FileBoxes(parts[..n], orders[..n], tracks) + PartBoxes(parts[n], orders[n], tracks) + [Mdat]
  }
}
