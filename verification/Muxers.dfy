/** playback/muxer_fmp4.go and playback/muxer_mp4.go: the muxers, updated in place. */
module Muxers {
  import opened Wrappers
  import opened Arith
  import opened Playback
  import F = MuxerFMP4State
  import M = MuxerMP4State

  class MuxerFMP4Track {
    const id: int
    const timeScale: int
    var firstDTS: int
    var lastDTS: int
    var samples: seq<Stored>

    constructor (id: int, timeScale: int)
      ensures this.id == id && View() == F.NewTrack(timeScale)
    {
      this.id := id;
      this.timeScale := timeScale;
      firstDTS := -1;
      lastDTS := 0;
      samples := [];
    }

    function View(): F.Track
      reads this
    {
      F.Track(timeScale, firstDTS, lastDTS, samples)
    }

    method Put(s: Sample)
      requires firstDTS >= 0 ==> samples != []
      modifies this
      ensures View() == F.Put(old(View()), s)
      ensures s.dts >= 0 ==> firstDTS >= 0
    {
      if s.dts >= 0 {
        if firstDTS < 0 {
          firstDTS := s.dts;
          if !s.isNonSync {
            samples := [];
          }
        } else {
          var duration := Max(s.dts - lastDTS, 0);
          samples := samples[|samples| - 1 := samples[|samples| - 1].(duration := Uint32(duration))];
        }
        samples := samples + [Store(s)];
        lastDTS := s.dts;
      } else {
        if !s.isNonSync {
          samples := [];
        }
        samples := samples + [Store(s)];
      }
    }

    method Finish(dts: int)
      modifies this`samples
      ensures View() == F.Finish(old(View()), dts)
    {
      if |samples| != 0 && firstDTS >= 0 {
        var duration := Max(dts - lastDTS, 0);
        samples := samples[|samples| - 1 := samples[|samples| - 1].(duration := Uint32(duration))];
      }
    }

    // What a flush takes from the track, which keeps its last sample unless the flush is the final one.
    method Flush(final: bool) returns (f: Option<F.Fragment>)
      modifies this`samples, this`firstDTS
      ensures f == F.Flushable(old(View()), final) && View() == F.Flushed(old(View()), final)
    {
      if firstDTS >= 0 && (|samples| > 1 || (final && |samples| != 0)) {
        var n := |samples|;
        f := Some(F.Fragment(firstDTS, if final then samples else samples[..n - 1]));
        if !final {
          samples := samples[n - 1..];
          firstDTS := lastDTS;
        }
      } else {
        f := None;
      }
    }
  }

  ghost function Views(tracks: seq<MuxerFMP4Track>): (v: seq<F.Track>)
    reads tracks
    ensures |v| == |tracks| && forall i :: 0 <= i < |tracks| ==> v[i] == tracks[i].View()
  {
    if tracks == [] then [] else Views(tracks[..|tracks| - 1]) + [tracks[|tracks| - 1].View()]
  }

  lemma NothingTaken(tracks: seq<F.Track>, final: bool)
    requires F.AllNone(F.FlushableParts(tracks, final))
    ensures F.FlushedTracks(tracks, final) == tracks
  {
    forall i | 0 <= i < |tracks|
      ensures F.FlushedTracks(tracks, final)[i] == tracks[i]
    {
      assert F.FlushableParts(tracks, final)[i].None?;
    }
  }

  lemma AllNoneAppend(fs: seq<Option<F.Fragment>>, f: Option<F.Fragment>)
    ensures F.AllNone(fs + [f]) <==> F.AllNone(fs) && f.None?
  {
    assert (fs + [f])[|fs|] == f;
    assert forall i :: 0 <= i < |fs| ==> (fs + [f])[i] == fs[i];
  }

  class MuxerFMP4 {
    const tracks: seq<MuxerFMP4Track>
    var initWritten: bool
    var nextSequenceNumber: int
    var curTrack: MuxerFMP4Track?
    ghost var cur: nat // the position of curTrack
    ghost var out: seq<F.Part>

    ghost function View(): F.Muxer
      reads this, tracks
    {
      F.Muxer(Views(tracks), initWritten, nextSequenceNumber, out)
    }

    ghost predicate Valid()
      reads this, tracks
    {
      && (forall i, j :: 0 <= i < j < |tracks| ==> tracks[i] != tracks[j])
      && (curTrack != null ==> cur < |tracks| && curTrack == tracks[cur])
    }

    // writeInit
    constructor (tracks: seq<MuxerFMP4Track>)
      requires forall i, j :: 0 <= i < j < |tracks| ==> tracks[i] != tracks[j]
      ensures Valid() && this.tracks == tracks && View() == F.Muxer(Views(tracks), false, 0, [])
    {
      this.tracks := tracks;
      initWritten := false;
      nextSequenceNumber := 0;
      curTrack := null;
      cur := 0;
      out := [];
    }

    method SetTrack(id: int)
      requires Valid()
      modifies this`curTrack, this`cur
      ensures Valid() && View() == old(View())
      ensures curTrack == null <==> forall i :: 0 <= i < |tracks| ==> tracks[i].id != id
      ensures curTrack != null ==> tracks[cur].id == id && forall i :: 0 <= i < cur ==> tracks[i].id != id
    {
      curTrack := null;
      for i := 0 to |tracks|
        invariant curTrack == null
        invariant forall j :: 0 <= j < i ==> tracks[j].id != id
      {
        if tracks[i].id == id {
          curTrack, cur := tracks[i], i;
          return;
        }
      }
    }

    // False is ErrNoSegmentsFound.
    method InnerFlush(final: bool) returns (ok: bool)
      requires Valid()
      modifies this, tracks
      ensures Valid() && curTrack == old(curTrack) && cur == old(cur)
      ensures ok == F.InnerFlush(old(View()), final).Some?
      ensures ok ==> View() == F.InnerFlush(old(View()), final).value
    {
      hide F.Flushable, F.Flushed, Views;
      ghost var before := View();
      assert F.AllNone([]);
      hide F.AllNone;
      var part: seq<Option<F.Fragment>> := [];
      var empty := true;
      for i := 0 to |tracks|
        invariant |part| == i && (empty <==> F.AllNone(part))
        invariant forall j :: 0 <= j < i ==> part[j] == F.Flushable(before.tracks[j], final)
        invariant forall j :: 0 <= j < i ==> tracks[j].View() == F.Flushed(before.tracks[j], final)
        invariant forall j :: i <= j < |tracks| ==> tracks[j].View() == before.tracks[j]
        invariant unchanged(this)
      {
        var f := tracks[i].Flush(final);
        AllNoneAppend(part, f);
        part := part + [f];
        empty := empty && f.None?;
      }
      assert part == F.FlushableParts(before.tracks, final);
      assert Views(tracks) == F.FlushedTracks(before.tracks, final);
      if empty {
        NothingTaken(before.tracks, final);
        return initWritten;
      }
      out := out + [F.Part(nextSequenceNumber, part)];
      nextSequenceNumber := Uint32(nextSequenceNumber + 1);
      initWritten := true;
      return true;
    }

    method WriteSample(s: Sample) returns (ok: bool)
      requires Valid() && curTrack != null && F.Indexable(View())
      modifies this, tracks
      ensures Valid() && curTrack == old(curTrack) && cur == old(cur)
      ensures ok == F.WriteSample(old(View()), cur, s).Some?
      ensures ok ==> View() == F.WriteSample(old(View()), cur, s).value
    {
      hide F.Put, F.InnerFlush, ToTicks, Views;
      ghost var before := View();
      assert before.tracks[cur] == curTrack.View();
      curTrack.Put(s);
      assert Views(tracks) == before.tracks[cur := curTrack.View()];
      ok := true;
      if s.dts >= 0 {
        var partDurationMP4 := ToTicks(F.PART_DURATION, curTrack.timeScale);
        if curTrack.lastDTS - curTrack.firstDTS >= partDurationMP4 {
          ok := InnerFlush(false);
        }
      }
    }

    method WriteFinalDTS(dts: int)
      requires Valid() && curTrack != null
      modifies tracks
      ensures Valid() && View() == F.WriteFinalDTS(old(View()), cur, dts)
    {
      hide F.Finish, Views;
      ghost var before := View();
      assert before.tracks[cur] == curTrack.View();
      curTrack.Finish(dts);
      assert Views(tracks) == before.tracks[cur := curTrack.View()];
    }

    method Flush() returns (ok: bool)
      requires Valid()
      modifies this, tracks
      ensures Valid() && ok == F.InnerFlush(old(View()), true).Some?
      ensures ok ==> View() == F.InnerFlush(old(View()), true).value
    {
      ok := InnerFlush(true);
    }
  }

  class MuxerMP4Track {
    const id: int
    const timeScale: int
    var timeOffset: int
    var lastDTS: int
    var samples: seq<Stored>

    constructor (id: int, timeScale: int)
      ensures this.id == id && View() == M.Track(0, 0, [])
    {
      this.id := id;
      this.timeScale := timeScale;
      timeOffset := 0;
      lastDTS := 0;
      samples := [];
    }

    function View(): M.Track
      reads this
    {
      M.Track(timeOffset, lastDTS, samples)
    }

    method WriteSample(s: Sample)
      modifies this
      ensures View() == M.Put(old(View()), s)
    {
      if (s.dts < 0 || (s.dts >= 0 && lastDTS < 0)) && !s.isNonSync {
        samples := [];
      }
      if |samples| == 0 {
        timeOffset := M.Int32(s.dts);
      } else {
        var duration := Max(s.dts - lastDTS, 0);
        samples := samples[|samples| - 1 := samples[|samples| - 1].(duration := Uint32(duration))];
      }
      var ptsOffset := s.ptsOffset;
      if !s.isNonSync {
        ptsOffset := 0;
      }
      samples := samples + [Stored(ptsOffset, s.isNonSync, s.payload, 0)];
      lastDTS := s.dts;
    }

    method WriteFinalDTS(dts: int)
      modifies this`samples
      ensures View() == M.Finish(old(View()), dts)
    {
      if |samples| != 0 {
        var duration := Max(dts - lastDTS, 0);
        samples := samples[|samples| - 1 := samples[|samples| - 1].(duration := Uint32(duration))];
      }
    }
  }

  ghost function ViewsMP4(tracks: seq<MuxerMP4Track>): (v: seq<M.Track>)
    reads tracks
    ensures |v| == |tracks| && forall i :: 0 <= i < |tracks| ==> v[i] == tracks[i].View()
  {
    if tracks == [] then [] else ViewsMP4(tracks[..|tracks| - 1]) + [tracks[|tracks| - 1].View()]
  }

  class MuxerMP4 {
    const tracks: seq<MuxerMP4Track>
    var curTrack: MuxerMP4Track?
    ghost var cur: nat

    ghost function View(): M.Muxer
      reads this, tracks
    {
      M.Muxer(ViewsMP4(tracks), if curTrack == null then None else Some(cur))
    }

    ghost predicate Valid()
      reads this, tracks
    {
      && (forall i, j :: 0 <= i < j < |tracks| ==> tracks[i] != tracks[j])
      && (curTrack != null ==> cur < |tracks| && curTrack == tracks[cur])
    }

    // writeInit
    constructor (tracks: seq<MuxerMP4Track>)
      requires forall i, j :: 0 <= i < j < |tracks| ==> tracks[i] != tracks[j]
      ensures Valid() && this.tracks == tracks && View() == M.Muxer(ViewsMP4(tracks), None)
    {
      this.tracks := tracks;
      curTrack := null;
      cur := 0;
    }

    method SetTrack(id: int)
      requires Valid()
      modifies this`curTrack, this`cur
      ensures Valid() && ViewsMP4(tracks) == old(ViewsMP4(tracks))
      ensures curTrack == null <==> forall i :: 0 <= i < |tracks| ==> tracks[i].id != id
      ensures curTrack != null ==> tracks[cur].id == id && forall i :: 0 <= i < cur ==> tracks[i].id != id
    {
      curTrack := null;
      for i := 0 to |tracks|
        invariant curTrack == null
        invariant forall j :: 0 <= j < i ==> tracks[j].id != id
      {
        if tracks[i].id == id {
          curTrack, cur := tracks[i], i;
          return;
        }
      }
    }

    method WriteSample(s: Sample)
      requires Valid() && curTrack != null
      modifies tracks
      ensures Valid() && View() == M.Step(old(View()), Op.Write(cur, s))
    {
      hide M.Put, ViewsMP4;
      ghost var before := View();
      assert before.tracks[cur] == curTrack.View();
      curTrack.WriteSample(s);
      assert ViewsMP4(tracks) == before.tracks[cur := curTrack.View()];
    }

    method WriteFinalDTS(dts: int)
      requires Valid() && curTrack != null
      modifies tracks
      ensures Valid() && View() == M.Step(old(View()), Op.Final(cur, dts))
    {
      hide M.Finish, ViewsMP4;
      ghost var before := View();
      assert before.tracks[cur] == curTrack.View();
      curTrack.WriteFinalDTS(dts);
      assert ViewsMP4(tracks) == before.tracks[cur := curTrack.View()];
    }

    method Flush() returns (file: Option<seq<Option<M.Track>>>)
      requires Valid() && curTrack != null
      ensures file == M.Flush(View())
    {
      assert View().tracks[cur] == curTrack.View();
      if |curTrack.samples| == 0 || curTrack.lastDTS < 0 {
        return None;
      }
      var out: seq<Option<M.Track>> := [];
      for i := 0 to |tracks|
        invariant |out| == i
        invariant forall j :: 0 <= j < i ==> out[j] == if tracks[j].samples != [] then Some(tracks[j].View()) else None
      {
        out := out + [if |tracks[i].samples| != 0 then Some(tracks[i].View()) else None];
      }
      assert out == M.Flush(View()).value;
      return Some(out);
    }
  }
}
