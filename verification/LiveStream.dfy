/** stream/{stream,sub_stream,sub_stream_format}.go: an always-available stream and its formats, updated in place. */
module LiveStream {
  import opened Arith
  import S = StreamTimeState

  // streamFormat
  class Format {
    const clockRate: int
    var ptsOffset: int
    ghost var out: seq<S.Unit>

    ghost function View(): S.Format
      reads this
    {
      S.Format(clockRate, ptsOffset, out)
    }

    constructor (clockRate: int)
      ensures View() == S.Format(clockRate, 0, [])
    {
      this.clockRate := clockRate;
      ptsOffset := 0;
      out := [];
    }
  }

  ghost function Views(formats: seq<Format>): (v: seq<S.Format>)
    reads formats
    ensures |v| == |formats| && forall i :: 0 <= i < |formats| ==> v[i] == formats[i].View()
  {
    if formats == [] then [] else Views(formats[..|formats| - 1]) + [formats[|formats| - 1].View()]
  }

  class Stream {
    const formats: seq<Format>
    var subStream: nat
    var firstTimeReceived: bool
    var lastPTS: int
    var lastSystemTime: int

    ghost function View(): S.Stream
      reads this, formats
    {
      S.Stream(Views(formats), subStream, firstTimeReceived, lastPTS, lastSystemTime)
    }

    ghost predicate Valid()
      reads this, formats
    {
      && (forall i, j :: 0 <= i < j < |formats| ==> formats[i] != formats[j])
      && (forall i :: 0 <= i < |formats| ==> formats[i].clockRate > 0)
    }

    constructor (formats: seq<Format>, now: int)
      requires forall i, j :: 0 <= i < j < |formats| ==> formats[i] != formats[j]
      requires forall i :: 0 <= i < |formats| ==> formats[i].clockRate > 0
      ensures Valid() && this.formats == formats && View() == S.Stream(Views(formats), 0, false, 0, now)
    {
      this.formats := formats;
      subStream := 0;
      firstTimeReceived := false;
      lastPTS := 0;
      lastSystemTime := now;
    }

    method UpdateLastTime(pts: int, now: int)
      modifies this`firstTimeReceived, this`lastPTS, this`lastSystemTime
      ensures View() == S.UpdateLastTime(old(View()), pts, now)
    {
      firstTimeReceived := true;
      if pts > lastPTS {
        lastPTS := pts;
      }
      lastSystemTime := now;
    }

    // subStreamFormat.writeUnit; the PTS that the unit goes out with.
    method WriteFormat(i: nat, pts: int, now: int) returns (out: int)
      requires Valid() && i < |formats|
      modifies this, formats[i]
      ensures Valid() && View() == S.WriteUnit(old(View()), i, pts, now)
      ensures out == pts + old(formats[i].ptsOffset)
    {
      hide Views, ToDuration;
      ghost var before := View();
      assert before.formats[i] == formats[i].View();
      out := pts + formats[i].ptsOffset;
      formats[i].out := formats[i].out + [S.Unit(subStream, out)];
      assert Views(formats) == before.formats[i := formats[i].View()];
      UpdateLastTime(ToDuration(out, formats[i].clockRate), now);
    }

    // SubStream.WriteUnit
    method WriteUnit(sub: nat, i: nat, pts: int, now: int)
      requires Valid() && i < |formats|
      modifies this, formats[i]
      ensures Valid() && S.RatesOk(old(View())) && View() == S.Step(old(View()), S.Event.Write(sub, i, pts, now))
    {
      assert forall j :: 0 <= j < |formats| ==> Views(formats)[j].clockRate == formats[j].clockRate;
      hide Views, S.WriteUnit;
      if subStream != sub || sub == 0 {
        return;
      }
      var _ := WriteFormat(i, pts, now);
    }

    // initialize2
    method Begin(a: S.Start)
      requires Valid() && a.format < |formats|
      modifies this, formats[a.format]
      ensures Valid() && S.RatesOk(old(View())) && View() == S.Begin(old(View()), a)
    {
      assert forall j :: 0 <= j < |formats| ==> Views(formats)[j].clockRate == formats[j].clockRate;
      hide Views, ToTicks, S.WriteUnit;
      ghost var before := View();
      var f := formats[a.format];
      assert before.formats[a.format] == f.View();
      if firstTimeReceived {
        var ptsOffsetGo := lastPTS + (a.now - lastSystemTime);
        f.ptsOffset := ToTicks(ptsOffsetGo, f.clockRate);
      }
      assert Views(formats) == before.formats[a.format := f.View()];
      assert View() == S.Move(before, a);
      if a.params {
        var _ := WriteFormat(a.format, 0, a.later);
      }
    }

    method BeginAll(starts: seq<S.Start>)
      requires Valid() && forall k :: 0 <= k < |starts| ==> starts[k].format < |formats|
      modifies this, formats
      ensures Valid() && S.RatesOk(old(View())) && View() == S.BeginAll(old(View()), starts)
    {
      ghost var before := View();
      assert forall j :: 0 <= j < |formats| ==> before.formats[j].clockRate == formats[j].clockRate;
      hide Views, S.Begin;
      for k := 0 to |starts|
        invariant Valid() && View() == S.BeginAll(before, starts[..k])
      {
        assert starts[..k + 1][..k] == starts[..k];
        Begin(starts[k]);
      }
      assert starts[..|starts|] == starts;
    }

    // SubStream.Initialize, once the formats have proved compatible.
    method Initialize(starts: seq<S.Start>)
      requires Valid() && S.IsPossible(View(), S.Switch(starts))
      modifies this, formats
      ensures Valid() && View() == S.Step(old(View()), S.Switch(starts))
    {
      hide Views, S.BeginAll, S.AreDifferent, S.Begun;
      subStream := subStream + 1;
      BeginAll(starts);
    }
  }
}
