/** stream/{stream,sub_stream,sub_stream_format}.go: times of a stream that goes on while its publishers change. */
module StreamTimeState {
  import opened Arith

  // A unit as it goes out, with the sub-stream it came from.
  datatype Unit = Unit(sub: nat, pts: int)

  datatype Format = Format(clockRate: int, ptsOffset: int, out: seq<Unit>)

  // Sub-streams are numbered in the order in which they take over; 0 is none. Times are in ns, PTS in clock ticks.
  datatype Stream = Stream(formats: seq<Format>, subStream: nat, firstTimeReceived: bool, lastPTS: int,
      lastSystemTime: int)

  // initialize2 of one format: when it runs, and when it writes its parameters, if it has any.
  datatype Start = Start(format: nat, now: int, params: bool, later: int)

  datatype Event =
    | Write(sub: nat, format: nat, pts: int, now: int)
    | Switch(starts: seq<Start>) // the formats in any order

  predicate RatesOk(s: Stream) {
    forall i :: 0 <= i < |s.formats| ==> s.formats[i].clockRate > 0
  }

  // updateLastTime
  function UpdateLastTime(s: Stream, pts: int, now: int): Stream {
    s.(firstTimeReceived := true, lastPTS := if pts > s.lastPTS then pts else s.lastPTS, lastSystemTime := now)
  }

  // subStreamFormat.writeUnit, for an always-available stream.
  function WriteUnit(s: Stream, i: nat, pts: int, now: int): Stream
    requires RatesOk(s) && i < |s.formats|
  {
    var f := s.formats[i];
    var out := pts + f.ptsOffset;
    UpdateLastTime(s.(formats := s.formats[i := f.(out := f.out + [Unit(s.subStream, out)])]),
                   ToDuration(out, f.clockRate), now)
  }

  // The new offset of a format, once the stream has a time to go on from.
  function Move(s: Stream, a: Start): Stream
    requires RatesOk(s) && a.format < |s.formats|
  {
    var f := s.formats[a.format];
    var offset := if s.firstTimeReceived then ToTicks(s.lastPTS + (a.now - s.lastSystemTime), f.clockRate)
        else f.ptsOffset;
    s.(formats := s.formats[a.format := f.(ptsOffset := offset)])
  }

  // initialize2
  function Begin(s: Stream, a: Start): Stream
    requires RatesOk(s) && a.format < |s.formats|
  {
    if a.params then WriteUnit(Move(s, a), a.format, 0, a.later) else Move(s, a)
  }

  function BeginAll(s: Stream, starts: seq<Start>): (r: Stream)
    requires RatesOk(s) && forall k :: 0 <= k < |starts| ==> starts[k].format < |s.formats|
    ensures RatesOk(r) && |r.formats| == |s.formats| && r.subStream == s.subStream
    ensures forall i :: 0 <= i < |s.formats| ==> r.formats[i].clockRate == s.formats[i].clockRate
  {
    if starts == [] then s
    else
      var n := |starts| - 1;
      Begin(BeginAll(s, starts[..n]), starts[n])
  }

  function Begun(starts: seq<Start>): set<nat> {
    set k | 0 <= k < |starts| :: starts[k].format
  }

  predicate AreDifferent(starts: seq<Start>) {
    forall j, k :: 0 <= j < k < |starts| ==> starts[j].format != starts[k].format
  }

  // Each format once.
  predicate CoversFormats(s: Stream, starts: seq<Start>) {
    && (forall k :: 0 <= k < |starts| ==> starts[k].format < |s.formats|)
    && AreDifferent(starts) && (forall i :: 0 <= i < |s.formats| ==> i in Begun(starts))
  }

  predicate IsPossible(s: Stream, e: Event) {
    && RatesOk(s)
    && match e
       case Write(_, i, _, _) => i < |s.formats|
       case Switch(starts) => CoversFormats(s, starts)
  }

  // SubStream.WriteUnit and a SubStream.Initialize that succeeds; one that fails changes nothing.
  function Step(s: Stream, e: Event): (r: Stream)
    requires IsPossible(s, e)
    ensures RatesOk(r) && |r.formats| == |s.formats|
  {
    match e
    case Write(sub, i, pts, now) => if sub == s.subStream && sub > 0 then WriteUnit(s, i, pts, now) else s
    case Switch(starts) => BeginAll(s.(subStream := s.subStream + 1), starts)
  }
}

module StreamTime {
  import opened Wrappers
  import opened Arith
  import opened StreamTimeState

  datatype History = Created(clockRates: seq<int>, now: int) | Then(before: History, last: Event)

  function New(clockRates: seq<int>, now: int): Stream {
    Stream(seq(|clockRates|, i requires 0 <= i < |clockRates| => Format(clockRates[i], 0, [])), 0, false, 0, now)
  }

  // The stream after the events; None if one of them names no format of the stream.
  function After(h: History): (s: Option<Stream>)
    ensures s.Some? ==> RatesOk(s.value)
  {
    match h
    case Created(rates, now) => if RatesOk(New(rates, now)) then Some(New(rates, now)) else None
    case Then(before, e) =>
      var s := After(before);
      if s.Some? && IsPossible(s.value, e) then Some(Step(s.value, e)) else None
  }

  // ---- what needs no assumption ----

  lemma BeginKeepsLastPTS(s: Stream, a: Start)
    requires RatesOk(s) && a.format < |s.formats|
    ensures s.lastPTS <= Begin(s, a).lastPTS
  {
  }

  lemma {:induction false} BeginAllKeepsLastPTS(s: Stream, starts: seq<Start>)
    requires RatesOk(s) && forall k :: 0 <= k < |starts| ==> starts[k].format < |s.formats|
    ensures s.lastPTS <= BeginAll(s, starts).lastPTS
  {
    if starts != [] {
      var n := |starts| - 1;
      BeginAllKeepsLastPTS(s, starts[..n]);
      BeginKeepsLastPTS(BeginAll(s, starts[..n]), starts[n]);
    }
  }

  // Whatever the PTS, the clock and the rates, lastPTS never decreases.
  lemma LastPTSNeverDecreases(s: Stream, e: Event)
    requires IsPossible(s, e)
    ensures s.lastPTS <= Step(s, e).lastPTS
  {
    if e.Switch? {
      BeginAllKeepsLastPTS(s.(subStream := s.subStream + 1), e.starts);
    }
  }

  // ---- continuity ----

  // Publishers give PTS from 0 on, and the clock does not go back.
  predicate StartIsSane(s: Stream, a: Start) {
    a.now >= s.lastSystemTime && a.later >= a.now
  }

  predicate StartsAreSane(s: Stream, starts: seq<Start>)
    requires RatesOk(s) && forall k :: 0 <= k < |starts| ==> starts[k].format < |s.formats|
  {
    starts != [] ==>
      var n := |starts| - 1;
      StartsAreSane(s, starts[..n]) && StartIsSane(BeginAll(s, starts[..n]), starts[n])
  }

  predicate IsSane(s: Stream, e: Event)
    requires IsPossible(s, e)
  {
    match e
    case Write(_, _, pts, now) => pts >= 0 && now >= s.lastSystemTime
    case Switch(starts) => StartsAreSane(s.(subStream := s.subStream + 1), starts)
  }

  predicate IsSaneRun(h: History) {
    After(h).Some? && (h.Then? ==> IsSaneRun(h.before) && IsSane(After(h.before).value, h.last))
  }

  // Less than a tick and a fraction before: exactly at most one tick when a tick is not shorter than 1 ns.
  predicate IsNearly(before: int, after: int, rate: int) {
    (before - after) * SECOND < rate + SECOND
  }

  // The last PTS covers every unit of the format, and every unit is in its place among the sub-streams.
  ghost predicate FormatOk(f: Format, lastPTS: int) {
    && f.clockRate > 0 && f.ptsOffset >= 0
    && (forall k :: 0 <= k < |f.out| ==> f.out[k].pts >= 0 && ToDuration(f.out[k].pts, f.clockRate) <= lastPTS)
  }

  // Units of another sub-stream than the last are at most a tick after the current offset and all that came after them.
  ghost predicate OrderOk(f: Format, current: nat) {
    && (forall k :: 0 <= k < |f.out| ==> f.out[k].sub <= current)
    && (forall k :: 0 <= k < |f.out| && f.out[k].sub < current ==> IsNearly(f.out[k].pts, f.ptsOffset, f.clockRate))
    && (forall j, k :: 0 <= j < k < |f.out| && f.out[j].sub < f.out[k].sub ==>
          IsNearly(f.out[j].pts, f.out[k].pts, f.clockRate))
  }

  ghost predicate Inv(s: Stream) {
    && RatesOk(s) && s.lastPTS >= 0
    && (!s.firstTimeReceived ==> forall i :: 0 <= i < |s.formats| ==> s.formats[i].out == [])
    && (forall i :: 0 <= i < |s.formats| ==> FormatOk(s.formats[i], s.lastPTS) && OrderOk(s.formats[i], s.subStream))
  }

  lemma OffsetIsNearly(pts: int, rate: int, x: int)
    requires pts >= 0 && rate > 0 && ToDuration(pts, rate) <= x
    ensures IsNearly(pts, ToTicks(x, rate), rate) && ToTicks(x, rate) >= 0
  {
    MultiplyAndDivideBounds(pts, SECOND, rate);
    var d := ToDuration(pts, rate);
    MultiplyAndDivideMonotone(d, x, rate, SECOND);
    MultiplyAndDivideBounds(d, rate, SECOND);
    MultiplyAndDivideBounds(x, rate, SECOND);
    hide MultiplyAndDivide;
  }

  // In the middle of a switch the formats that have not begun are still as the previous sub-stream left them.
  ghost predicate MidInv(s: Stream, begun: set<nat>) {
    && RatesOk(s) && s.lastPTS >= 0 && s.subStream > 0
    && (!s.firstTimeReceived ==> forall i :: 0 <= i < |s.formats| ==> s.formats[i].out == [])
    && (forall i :: 0 <= i < |s.formats| ==> FormatOk(s.formats[i], s.lastPTS))
    && (forall i :: 0 <= i < |s.formats| ==> OrderOk(s.formats[i], if i in begun then s.subStream else s.subStream - 1))
  }

  lemma WriteFormatOk(f: Format, lastPTS: int, sub: nat, pts: int)
    requires FormatOk(f, lastPTS) && OrderOk(f, sub) && pts >= 0
    ensures var out := pts + f.ptsOffset;
            var g, d := f.(out := f.out + [Unit(sub, out)]), ToDuration(out, f.clockRate);
            FormatOk(g, if d > lastPTS then d else lastPTS) && OrderOk(g, sub)
  {
    hide ToDuration;
    var g := f.(out := f.out + [Unit(sub, pts + f.ptsOffset)]);
    forall j, k | 0 <= j < k < |g.out| && g.out[j].sub < g.out[k].sub
      ensures IsNearly(g.out[j].pts, g.out[k].pts, g.clockRate)
    {
      if k == |f.out| {
        assert IsNearly(f.out[j].pts, f.ptsOffset, f.clockRate);
      } else {
        hide IsNearly;
      }
    }
    hide IsNearly;
  }

  lemma LargerLastPTS(f: Format, lastPTS: int, more: int)
    requires FormatOk(f, lastPTS) && lastPTS <= more
    ensures FormatOk(f, more)
  {
    hide ToDuration;
  }

  // All that a write changes: the format it writes to, and the last PTS, which does not decrease.
  lemma WriteUnitKeeps(s: Stream, i: nat, pts: int, now: int)
    requires RatesOk(s) && i < |s.formats| && s.lastPTS >= 0 && pts >= 0 && OrderOk(s.formats[i], s.subStream)
    requires forall j :: 0 <= j < |s.formats| ==> FormatOk(s.formats[j], s.lastPTS)
    ensures var w := WriteUnit(s, i, pts, now);
            && RatesOk(w) && |w.formats| == |s.formats| && w.subStream == s.subStream
                && w.lastPTS >= s.lastPTS && w.firstTimeReceived
            && (forall j :: 0 <= j < |s.formats| ==> FormatOk(w.formats[j], w.lastPTS))
            && OrderOk(w.formats[i], s.subStream)
            && (forall j :: 0 <= j < |s.formats| && j != i ==> w.formats[j] == s.formats[j])
  {
    hide FormatOk, OrderOk, ToDuration;
    var w := WriteUnit(s, i, pts, now);
    WriteFormatOk(s.formats[i], s.lastPTS, s.subStream, pts);
    forall j | 0 <= j < |s.formats| && j != i
      ensures FormatOk(w.formats[j], w.lastPTS)
    {
      LargerLastPTS(s.formats[j], s.lastPTS, w.lastPTS);
    }
  }

  lemma OffsetIsNotNegative(x: int, rate: int)
    requires x >= 0 && rate > 0
    ensures ToTicks(x, rate) >= 0
  {
    MultiplyAndDivideBounds(x, rate, SECOND);
    hide MultiplyAndDivide;
  }

  lemma NothingToOrder(f: Format, sub: nat)
    requires f.out == []
    ensures OrderOk(f, sub)
  {
  }

  // The new offset puts the format after all that it has given so far.
  lemma OffsetKeeps(f: Format, lastPTS: int, x: int, sub: nat)
    requires FormatOk(f, lastPTS) && OrderOk(f, sub) && 0 <= lastPTS <= x
    ensures var g := f.(ptsOffset := ToTicks(x, f.clockRate)); FormatOk(g, lastPTS) && OrderOk(g, sub + 1)
  {
    var g := f.(ptsOffset := ToTicks(x, f.clockRate));
    hide ToTicks, ToDuration, IsNearly;
    forall k | 0 <= k < |f.out|
      ensures IsNearly(f.out[k].pts, g.ptsOffset, f.clockRate)
    {
      OffsetIsNearly(f.out[k].pts, f.clockRate, x);
    }
    OffsetIsNotNegative(x, f.clockRate);
  }

  lemma MoveKeeps(s: Stream, a: Start, begun: set<nat>)
    requires MidInv(s, begun) && a.format < |s.formats| && a.format !in begun && StartIsSane(s, a)
    ensures MidInv(Move(s, a), begun + {a.format})
  {
    hide FormatOk, OrderOk, ToTicks;
    var f, x := s.formats[a.format], s.lastPTS + (a.now - s.lastSystemTime);
    if s.firstTimeReceived {
      OffsetKeeps(f, s.lastPTS, x, s.subStream - 1);
    } else {
      NothingToOrder(f, s.subStream);
    }
  }

  lemma BeginKeeps(s: Stream, a: Start, begun: set<nat>)
    requires MidInv(s, begun) && a.format < |s.formats| && a.format !in begun && StartIsSane(s, a)
    ensures MidInv(Begin(s, a), begun + {a.format})
  {
    MoveKeeps(s, a, begun);
    hide FormatOk, OrderOk, Move, WriteUnit;
    if a.params {
      WriteUnitKeeps(Move(s, a), a.format, 0, a.later);
    }
  }

  lemma BegunBefore(starts: seq<Start>)
    requires starts != [] && AreDifferent(starts)
    ensures var n := |starts| - 1;
            && AreDifferent(starts[..n]) && starts[n].format !in Begun(starts[..n])
            && Begun(starts) == Begun(starts[..n]) + {starts[n].format}
  {
  }

  lemma {:induction false} BeginAllKeeps(s: Stream, starts: seq<Start>)
    requires MidInv(s, {}) && forall k :: 0 <= k < |starts| ==> starts[k].format < |s.formats|
    requires AreDifferent(starts) && StartsAreSane(s, starts)
    ensures MidInv(BeginAll(s, starts), Begun(starts))
  {
    hide MidInv, AreDifferent, Begin, StartIsSane;
    if starts == [] {
      assert Begun(starts) == {};
    } else {
      BegunBefore(starts);
      hide Begun;
      var n := |starts| - 1;
      BeginAllKeeps(s, starts[..n]);
      BeginKeeps(BeginAll(s, starts[..n]), starts[n], Begun(starts[..n]));
    }
  }

  lemma StepKeeps(s: Stream, e: Event)
    requires Inv(s) && IsPossible(s, e) && IsSane(s, e)
    ensures Inv(Step(s, e))
  {
    hide FormatOk, OrderOk, WriteUnit, BeginAll;
    match e
    case Write(sub, i, pts, now) =>
      WriteUnitKeeps(s, i, pts, now);
    case Switch(starts) =>
      var begun := s.(subStream := s.subStream + 1);
      BeginAllKeeps(begun, starts);
  }

  lemma {:induction false} RunKeepsInv(h: History)
    requires IsSaneRun(h)
    ensures Inv(After(h).value)
  {
    if h.Then? {
      RunKeepsInv(h.before);
      hide Inv, Step;
      StepKeeps(After(h.before).value, h.last);
    }
  }

  // A unit of a newer sub-stream is nearly after every unit of an older one, and at most one tick before it
  // when a tick is not shorter than 1 ns.
  lemma NewSubStreamIsNearlyAfter(h: History, i: nat, j: nat, k: nat)
    requires IsSaneRun(h) && i < |After(h).value.formats|
    requires j < k < |After(h).value.formats[i].out|
    requires After(h).value.formats[i].out[j].sub < After(h).value.formats[i].out[k].sub
    ensures var f := After(h).value.formats[i];
            && IsNearly(f.out[j].pts, f.out[k].pts, f.clockRate)
            && (f.clockRate <= SECOND ==> f.out[k].pts >= f.out[j].pts - 1)
  {
    RunKeepsInv(h);
    hide IsSaneRun, After;
    assert OrderOk(After(h).value.formats[i], After(h).value.subStream);
  }

  // ---- the stream keeps up with the clock ----

  // PTS 0 with this offset is at the time x, or less than a tick before it.
  predicate IsAt(offset: int, rate: int, x: int) {
    offset * SECOND <= x * rate < offset * SECOND + SECOND
  }

  // The time at which a sub-stream that takes over now begins: as long after the last PTS as the clock says.
  function Resumes(s: Stream, now: int): int {
    s.lastPTS + (now - s.lastSystemTime)
  }

  lemma OffsetIsAt(x: int, rate: int)
    requires x >= 0 && rate > 0
    ensures IsAt(ToTicks(x, rate), rate, x)
  {
    MultiplyAndDivideBounds(x, rate, SECOND);
    hide MultiplyAndDivide;
  }

  // Once every format has begun, each has the offset that it was given when it did.
  lemma {:induction false} LaterStartsKeepOffsets(s: Stream, starts: seq<Start>, k: nat)
    requires RatesOk(s) && AreDifferent(starts) && k < |starts|
    requires forall j :: 0 <= j < |starts| ==> starts[j].format < |s.formats|
    ensures BeginAll(s, starts).formats[starts[k].format].ptsOffset
         == Begin(BeginAll(s, starts[..k]), starts[k]).formats[starts[k].format].ptsOffset
    decreases |starts|
  {
    var n := |starts| - 1;
    hide Begin;
    if k < n {
      LaterStartsKeepOffsets(s, starts[..n], k);
      assert starts[..n][..k] == starts[..k] && starts[n].format != starts[k].format;
      BeginKeepsOther(BeginAll(s, starts[..n]), starts[n], starts[k].format);
    }
  }

  lemma BeginKeepsOther(s: Stream, a: Start, i: nat)
    requires RatesOk(s) && a.format < |s.formats| && i < |s.formats| && i != a.format
    ensures Begin(s, a).formats[i].ptsOffset == s.formats[i].ptsOffset
  {
    hide ToTicks, ToDuration;
  }

  lemma BeginsAt(s: Stream, starts: seq<Start>, k: nat)
    requires RatesOk(s) && s.lastPTS >= 0 && AreDifferent(starts) && k < |starts|
    requires (forall j :: 0 <= j < |starts| ==> starts[j].format < |s.formats|) && StartsAreSane(s, starts)
    ensures var began, f := BeginAll(s, starts[..k]), BeginAll(s, starts).formats[starts[k].format];
            if began.firstTimeReceived then IsAt(f.ptsOffset, f.clockRate, Resumes(began, starts[k].now))
            else f.ptsOffset == began.formats[starts[k].format].ptsOffset
  {
    hide Begin, BeginAll, StartsAreSane, StartIsSane, IsAt, Resumes, AreDifferent;
    StartIsSaneAt(s, starts, k);
    LaterStartsKeepOffsets(s, starts, k);
    BeginAllKeepsLastPTS(s, starts[..k]);
    BeginsHere(BeginAll(s, starts[..k]), starts[k]);
  }

  lemma BeginsHere(s: Stream, a: Start)
    requires RatesOk(s) && a.format < |s.formats| && s.lastPTS >= 0 && StartIsSane(s, a)
    ensures var f := Begin(s, a).formats[a.format];
            if s.firstTimeReceived then IsAt(f.ptsOffset, s.formats[a.format].clockRate, Resumes(s, a.now))
            else f.ptsOffset == s.formats[a.format].ptsOffset
  {
    hide ToTicks, ToDuration;
    OffsetIsAt(Resumes(s, a.now), s.formats[a.format].clockRate);
  }

  // A switch puts PTS 0 of each format where the clock says, to within a tick, whatever happened before; the first
  // sub-stream of all begins at PTS 0.
  lemma SwitchFollowsTheClock(h: History, starts: seq<Start>, k: nat)
    requires IsSaneRun(Then(h, Switch(starts))) && k < |starts|
    ensures var s := After(h).value;
            var began := BeginAll(s.(subStream := s.subStream + 1), starts[..k]);
            var f := After(Then(h, Switch(starts))).value.formats[starts[k].format];
            if began.firstTimeReceived then IsAt(f.ptsOffset, f.clockRate, Resumes(began, starts[k].now))
            else f.ptsOffset == began.formats[starts[k].format].ptsOffset
  {
    hide *;
    SwitchBeginsAll(h, starts);
    BeginsAt(After(h).value.(subStream := After(h).value.subStream + 1), starts, k);
  }

  lemma SwitchBeginsAll(h: History, starts: seq<Start>)
    requires IsSaneRun(Then(h, Switch(starts)))
    ensures IsSaneRun(h) && After(h).Some? && RatesOk(After(h).value)
    ensures After(h).value.lastPTS >= 0 && AreDifferent(starts)
    ensures forall j :: 0 <= j < |starts| ==> starts[j].format < |After(h).value.formats|
    ensures var s := After(h).value.(subStream := After(h).value.subStream + 1);
            RatesOk(s) && StartsAreSane(s, starts) && After(Then(h, Switch(starts))) == Some(BeginAll(s, starts))
  {
    hide After, IsSaneRun, IsPossible, IsSane, Step, BeginAll, StartsAreSane, AreDifferent;
    LastStep(h, Switch(starts));
    LastPTSIsNotNegative(h);
    SwitchMeans(After(h).value, starts);
  }

  lemma LastStep(h: History, e: Event)
    requires IsSaneRun(Then(h, e))
    ensures IsSaneRun(h) && After(h).Some? && RatesOk(After(h).value)
    ensures IsPossible(After(h).value, e) && IsSane(After(h).value, e)
    ensures After(Then(h, e)) == Some(Step(After(h).value, e))
  {
    hide IsPossible, IsSane, Step;
  }

  lemma SwitchMeans(s: Stream, starts: seq<Start>)
    requires IsPossible(s, Switch(starts)) && IsSane(s, Switch(starts))
    ensures AreDifferent(starts) && forall j :: 0 <= j < |starts| ==> starts[j].format < |s.formats|
    ensures var t := s.(subStream := s.subStream + 1);
            StartsAreSane(t, starts) && Step(s, Switch(starts)) == BeginAll(t, starts)
  {
    hide CoversFormats, StartsAreSane, BeginAll, AreDifferent;
    CoveringStarts(s, starts);
  }

  lemma CoveringStarts(s: Stream, starts: seq<Start>)
    requires CoversFormats(s, starts)
    ensures AreDifferent(starts) && forall j :: 0 <= j < |starts| ==> starts[j].format < |s.formats|
  {
    hide Begun;
  }

  lemma LastPTSIsNotNegative(h: History)
    requires IsSaneRun(h)
    ensures After(h).value.lastPTS >= 0
  {
    RunKeepsInv(h);
    hide FormatOk, OrderOk, After, IsSaneRun;
  }

  lemma {:induction false} StartIsSaneAt(s: Stream, starts: seq<Start>, k: nat)
    requires RatesOk(s) && k < |starts| && forall j :: 0 <= j < |starts| ==> starts[j].format < |s.formats|
    requires StartsAreSane(s, starts)
    ensures StartIsSane(BeginAll(s, starts[..k]), starts[k])
    decreases |starts|
  {
    var n := |starts| - 1;
    if k < n {
      StartIsSaneAt(s, starts[..n], k);
      assert starts[..n][..k] == starts[..k];
    }
  }

  // Nothing but a switch changes an offset.
  predicate NoSwitchSince(h: History, since: History) {
    h == since || (h.Then? && h.last.Write? && NoSwitchSince(h.before, since))
  }

  lemma {:induction false} OffsetsStay(h: History, since: History, i: nat)
    requires After(h).Some? && After(since).Some? && NoSwitchSince(h, since) && i < |After(since).value.formats|
    ensures var a, b := After(since).value, After(h).value;
            && b.subStream == a.subStream && |b.formats| == |a.formats|
            && b.formats[i].ptsOffset == a.formats[i].ptsOffset && b.formats[i].clockRate == a.formats[i].clockRate
    decreases h
  {
    if h != since {
      hide ToDuration;
      OffsetsStay(h.before, since, i);
    }
  }

  // Over runs: a unit that the new sub-stream gives, at any time after it took over, goes out as long after the last
  // PTS of the stream as the clock said at the switch plus the unit's own PTS, to within a tick.
  lemma UnitsFollowTheClock(h: History, starts: seq<Start>, k: nat, later: History, pts: int, now: int)
    requires IsSaneRun(Then(h, Switch(starts))) && k < |starts|
    requires After(later).Some? && NoSwitchSince(later, Then(h, Switch(starts)))
    ensures var s, i := After(later).value, starts[k].format;
            && i < |s.formats|
            && s.subStream > 0
            && IsPossible(s, Write(s.subStream, i, pts, now))
            && var out := Step(s, Write(s.subStream, i, pts, now)).formats[i].out;
               && |out| == |s.formats[i].out| + 1
               && out[|out| - 1].sub == s.subStream
               && Step(s, Write(s.subStream, i, pts, now)).lastSystemTime == now
               && var before := After(h).value;
                  var began := BeginAll(before.(subStream := before.subStream + 1), starts[..k]);
                  began.firstTimeReceived ==>
                    IsAt(out[|out| - 1].pts - pts, s.formats[i].clockRate, Resumes(began, starts[k].now))
  {
    hide BeginAll, StartsAreSane, IsAt, Resumes, IsSaneRun, After, IsPossible;
    var since := Then(h, Switch(starts));
    SwitchFollowsTheClock(h, starts, k);
    AfterASwitch(h, starts, k);
    OffsetsStay(later, since, starts[k].format);
    WriteGoesOut(After(later).value, starts[k].format, pts, now);
  }

  lemma AfterASwitch(h: History, starts: seq<Start>, k: nat)
    requires IsSaneRun(Then(h, Switch(starts))) && k < |starts|
    ensures After(h).Some? && After(Then(h, Switch(starts))).Some?
    ensures RatesOk(After(h).value) && forall j :: 0 <= j < |starts| ==> starts[j].format < |After(h).value.formats|
    ensures var s := After(Then(h, Switch(starts))).value; s.subStream > 0 && starts[k].format < |s.formats|
  {
    hide BeginAll, StartsAreSane;
  }

  lemma WriteGoesOut(s: Stream, i: nat, pts: int, now: int)
    requires RatesOk(s) && i < |s.formats| && s.subStream > 0
    ensures var w := Write(s.subStream, i, pts, now);
            && IsPossible(s, w) && Step(s, w).lastSystemTime == now
            && Step(s, w).formats[i].out == s.formats[i].out + [Unit(s.subStream, pts + s.formats[i].ptsOffset)]
  {
    hide ToDuration;
  }

  // ---- what the last PTS and the last time are ----

  // The unit is the one that the last PTS comes from.
  ghost predicate IsNewest(s: Stream, i: nat, k: nat) {
    i < |s.formats| && s.formats[i].clockRate > 0 && k < |s.formats[i].out|
    && ToDuration(s.formats[i].out[k].pts, s.formats[i].clockRate) == s.lastPTS
  }

  ghost predicate HasNewest(s: Stream) {
    s.lastPTS == 0 || exists i, k :: IsNewest(s, i, k)
  }

  lemma WriteUnitKeepsNewest(s: Stream, i: nat, pts: int, now: int)
    requires RatesOk(s) && i < |s.formats| && HasNewest(s)
    ensures HasNewest(WriteUnit(s, i, pts, now))
  {
    hide ToDuration;
    var w := WriteUnit(s, i, pts, now);
    if w.lastPTS != s.lastPTS {
      assert IsNewest(w, i, |s.formats[i].out|);
    } else if s.lastPTS != 0 {
      var j, k :| IsNewest(s, j, k);
      assert IsNewest(w, j, k);
    }
  }

  lemma MoveKeepsNewest(s: Stream, a: Start)
    requires RatesOk(s) && a.format < |s.formats| && HasNewest(s)
    ensures HasNewest(Move(s, a))
  {
    hide ToDuration, ToTicks;
    if s.lastPTS != 0 {
      var j, k :| IsNewest(s, j, k);
      assert IsNewest(Move(s, a), j, k);
    }
  }

  lemma {:induction false} BeginAllKeepsNewest(s: Stream, starts: seq<Start>)
    requires RatesOk(s) && (forall k :: 0 <= k < |starts| ==> starts[k].format < |s.formats|) && HasNewest(s)
    ensures HasNewest(BeginAll(s, starts))
  {
    hide HasNewest, WriteUnit, ToTicks;
    if starts != [] {
      var n := |starts| - 1;
      BeginAllKeepsNewest(s, starts[..n]);
      var began := BeginAll(s, starts[..n]);
      MoveKeepsNewest(began, starts[n]);
      if starts[n].params { WriteUnitKeepsNewest(Move(began, starts[n]), starts[n].format, 0, starts[n].later); }
    }
  }

  lemma StepKeepsNewest(s: Stream, e: Event)
    requires IsPossible(s, e) && HasNewest(s)
    ensures HasNewest(Step(s, e))
  {
    match e
    case Write(sub, i, pts, now) =>
      if sub == s.subStream && sub > 0 { WriteUnitKeepsNewest(s, i, pts, now); }
    case Switch(starts) =>
      var t := s.(subStream := s.subStream + 1);
      if s.lastPTS != 0 {
        var j, k :| IsNewest(s, j, k);
        assert IsNewest(t, j, k);
      }
      BeginAllKeepsNewest(t, starts);
  }

  // No PTS is larger, and unless none is positive one is as large.
  lemma {:induction false} LastPTSIsTheLargest(h: History)
    requires IsSaneRun(h)
    ensures var s := After(h).value;
            && (forall i, k :: 0 <= i < |s.formats| && 0 <= k < |s.formats[i].out| ==>
                  ToDuration(s.formats[i].out[k].pts, s.formats[i].clockRate) <= s.lastPTS)
            && HasNewest(s)
  {
    RunKeepsInv(h);
    var s := After(h).value;
    hide ToDuration, HasNewest;
    forall i, k | 0 <= i < |s.formats| && 0 <= k < |s.formats[i].out|
      ensures ToDuration(s.formats[i].out[k].pts, s.formats[i].clockRate) <= s.lastPTS
    {
      assert FormatOk(s.formats[i], s.lastPTS);
    }
    if h.Then? {
      hide FormatOk, OrderOk, IsSane;
      LastPTSIsTheLargest(h.before);
      StepKeepsNewest(After(h.before).value, h.last);
    }
  }

  // The moment of the last parameters that the starts write.
  function LastWritten(starts: seq<Start>, before: int): int {
    if starts == [] then before
    else
      var a := starts[|starts| - 1];
      if a.params then a.later else LastWritten(starts[..|starts| - 1], before)
  }

  // A switch gives every format its parameters, if it has any, once and at PTS 0 of the new sub-stream.
  lemma {:induction false} SwitchGivesParameters(s: Stream, starts: seq<Start>, k: nat)
    requires RatesOk(s) && AreDifferent(starts) && k < |starts|
    requires forall j :: 0 <= j < |starts| ==> starts[j].format < |s.formats|
    ensures var f, g := s.formats[starts[k].format], BeginAll(s, starts).formats[starts[k].format];
            g.out == f.out + (if starts[k].params then [Unit(s.subStream, g.ptsOffset)] else [])
    ensures BeginAll(s, starts).lastSystemTime == LastWritten(starts, s.lastSystemTime)
    decreases |starts|
  {
    hide ToTicks, ToDuration;
    var n := |starts| - 1;
    if k < n {
      SwitchGivesParameters(s, starts[..n], k);
      assert starts[n].format != starts[k].format;
    } else {
      OthersKeepOut(s, starts[..n], starts[n].format);
      LastTimeAfter(s, starts);
    }
  }

  lemma {:induction false} LastTimeAfter(s: Stream, starts: seq<Start>)
    requires RatesOk(s) && forall j :: 0 <= j < |starts| ==> starts[j].format < |s.formats|
    ensures BeginAll(s, starts).lastSystemTime == LastWritten(starts, s.lastSystemTime)
  {
    hide ToTicks, ToDuration;
    if starts != [] {
      LastTimeAfter(s, starts[..|starts| - 1]);
    }
  }

  lemma {:induction false} OthersKeepOut(s: Stream, starts: seq<Start>, i: nat)
    requires RatesOk(s) && i < |s.formats|
    requires forall j :: 0 <= j < |starts| ==> starts[j].format < |s.formats| && starts[j].format != i
    ensures BeginAll(s, starts).formats[i] == s.formats[i]
  {
    hide ToTicks, ToDuration;
    if starts != [] {
      OthersKeepOut(s, starts[..|starts| - 1], i);
    }
  }

  function Switches(h: History): nat {
    match h
    case Created(_, _) => 0
    case Then(before, e) => Switches(before) + if e.Switch? then 1 else 0
  }

  lemma {:induction false} CurrentIsTheLastToTakeOver(h: History)
    requires After(h).Some?
    ensures After(h).value.subStream == Switches(h)
  {
    if h.Then? {
      CurrentIsTheLastToTakeOver(h.before);
      hide WriteUnit, BeginAll;
    }
  }

  // Once another sub-stream has taken over, whatever came since, a write of the one before it has no effect.
  lemma ReplacedWritersAreIgnored(h: History, sub: nat, i: nat, pts: int, now: int)
    requires After(h).Some? && sub < Switches(h) && i < |After(h).value.formats|
    ensures After(Then(h, Write(sub, i, pts, now))) == After(h)
  {
    CurrentIsTheLastToTakeOver(h);
  }

  lemma OneStart(s: Stream, a: Start)
    requires RatesOk(s) && |s.formats| == 1 && a.format == 0
    ensures IsPossible(s, Switch([a])) && BeginAll(s, [a]) == Begin(s, a)
    ensures StartsAreSane(s, [a]) <==> StartIsSane(s, a)
  {
    assert [a][..0] == [];
    assert 0 in Begun([a]) by { assert [a][0].format == 0; }
  }

  lemma SwitchTo(h: History, s: Stream, a: Start)
    requires IsSaneRun(h) && After(h) == Some(s) && |s.formats| == 1 && a.format == 0 && StartIsSane(s, a)
    ensures IsSaneRun(Then(h, Switch([a])))
    ensures After(Then(h, Switch([a]))) == Some(Begin(s.(subStream := s.subStream + 1), a))
  {
    OneStart(s, a);
    OneStart(s.(subStream := s.subStream + 1), a);
    hide BeginAll, StartsAreSane, CoversFormats, Begin;
  }

  lemma WriteTo(h: History, s: Stream, i: nat, pts: int, now: int)
    requires IsSaneRun(h) && After(h) == Some(s) && s.subStream > 0 && i < |s.formats|
    requires pts >= 0 && now >= s.lastSystemTime
    ensures IsSaneRun(Then(h, Write(s.subStream, i, pts, now)))
    ensures After(Then(h, Write(s.subStream, i, pts, now))) == Some(WriteUnit(s, i, pts, now))
  {
    hide WriteUnit;
  }

  // One 90 kHz format of one publisher after another: the first gives PTS 1, and the second takes over at once
  // and gives PTS 0, which goes out as 0.
  lemma OneTickIsLost()
    ensures var start := Start(0, 0, false, 0);
            var first := Then(Then(Created([90000], 0), Switch([start])), Write(1, 0, 1, 0));
            var h := Then(Then(first, Switch([start])), Write(2, 0, 0, 0));
            IsSaneRun(h) && After(h).value.formats[0].out == [Unit(1, 1), Unit(2, 0)]
  {
    var s := Stream([Format(90000, 0, [])], 0, false, 0, 0);
    assert New([90000], 0) == s;
    FirstPublisher(Created([90000], 0), s);
    hide After, IsSaneRun;
    var first := Then(Then(Created([90000], 0), Switch([Start(0, 0, false, 0)])), Write(1, 0, 1, 0));
    SecondPublisher(first, After(first).value);
  }

  lemma FirstPublisher(h: History, s: Stream)
    requires IsSaneRun(h) && After(h) == Some(s)
    requires s == Stream([Format(90000, 0, [])], 0, false, 0, 0)
    ensures var end := Then(Then(h, Switch([Start(0, 0, false, 0)])), Write(1, 0, 1, 0));
            IsSaneRun(end) && After(end) == Some(Stream([Format(90000, 0, [Unit(1, 1)])], 1, true, 11111, 0))
  {
    hide After, IsSaneRun, ToDuration, ToTicks, BeginAll, StartsAreSane, CoversFormats;
    var start := Start(0, 0, false, 0);
    SwitchTo(h, s, start);
    RoundsDown();
    assert Begin(s.(subStream := 1), start).formats == s.formats;
    WriteTo(Then(h, Switch([start])), s.(subStream := 1), 0, 1, 0);
    assert [] + [Unit(1, 1)] == [Unit(1, 1)];
    assert WriteUnit(s.(subStream := 1), 0, 1, 0).formats == [Format(90000, 0, [Unit(1, 1)])];
  }

  lemma SecondPublisher(h: History, s: Stream)
    requires IsSaneRun(h) && After(h) == Some(s)
    requires s == Stream([Format(90000, 0, [Unit(1, 1)])], 1, true, 11111, 0)
    ensures var end := Then(Then(h, Switch([Start(0, 0, false, 0)])), Write(2, 0, 0, 0));
            IsSaneRun(end) && After(end).value.formats[0].out == [Unit(1, 1), Unit(2, 0)]
  {
    hide After, IsSaneRun, ToDuration, ToTicks, BeginAll, StartsAreSane, CoversFormats;
    var start := Start(0, 0, false, 0);
    SwitchTo(h, s, start);
    RoundsDown();
    assert Begin(s.(subStream := 2), start).formats == s.formats;
    WriteTo(Then(h, Switch([start])), s.(subStream := 2), 0, 0, 0);
  }

  lemma RoundsDown()
    ensures ToDuration(1, 90000) == 11111 && ToTicks(11111, 90000) == 0
  {
  }
}
