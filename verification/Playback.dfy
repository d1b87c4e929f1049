/** What the playback muxers are given for one track, and what a player should get of it. */
module Playback {
  import opened Arith

  // dts is relative to the requested start: samples before 0 are only there to make later ones decodable.
  datatype Sample = Sample(dts: int, ptsOffset: int, isNonSync: bool, payload: nat)

  // A sample as stored in a file, whose decode time is implied by the durations before it.
  datatype Stored = Stored(ptsOffset: int, isNonSync: bool, payload: nat, duration: int)

  // A sample as a player sees it.
  datatype Timed = Timed(time: int, ptsOffset: int, isNonSync: bool, payload: nat)

  function Store(s: Sample): Stored {
    Stored(s.ptsOffset, s.isNonSync, s.payload, 0)
  }

  function Durations(ss: seq<Stored>): int {
    if ss == [] then 0 else Durations(ss[..|ss| - 1]) + ss[|ss| - 1].duration
  }

  // The samples of a stretch that starts at base, each at its decode time.
  function Timeline(base: int, ss: seq<Stored>): (r: seq<Timed>)
    ensures |r| == |ss|
  {
    if ss == [] then []
    else
      var before, s := ss[..|ss| - 1], ss[|ss| - 1];
      Timeline(base, before) + [Timed(base + Durations(before), s.ptsOffset, s.isNonSync, s.payload)]
  }

  // The duration of the last sample, once it is known when the next one is due.
  function Gap(from: int, to: int): int {
    Uint32(Max(to - from, 0))
  }

  function WithLastDuration(ss: seq<Stored>, duration: int): seq<Stored> {
    if ss == [] then [] else ss[|ss| - 1 := ss[|ss| - 1].(duration := duration)]
  }

  lemma TimelineSettled(base: int, ss: seq<Stored>, duration: int, s: Stored)
    requires ss != []
    ensures var more := WithLastDuration(ss, duration) + [s];
            && Durations(more[..|ss|]) == Durations(ss[..|ss| - 1]) + duration
            && Timeline(base, more) == Timeline(base, ss)
                 + [Timed(base + Durations(ss[..|ss| - 1]) + duration, s.ptsOffset, s.isNonSync, s.payload)]
  {
    var settled := WithLastDuration(ss, duration);
    var more := settled + [s];
    assert more[..|ss|] == settled;
    assert settled[..|ss| - 1] == ss[..|ss| - 1];
  }

  // Decode times never go back and the gaps fit the 32 bits of a duration.
  predicate Steady(ss: seq<Sample>) {
    forall i :: 0 <= i < |ss| - 1 ==> 0 <= ss[i + 1].dts - ss[i].dts < TWO_32
  }

  // The position of the first visible sample.
  function FirstVisible(ss: seq<Sample>): (n: nat)
    ensures n <= |ss|
    ensures forall i :: 0 <= i < n ==> ss[i].dts < 0
    ensures n < |ss| ==> ss[n].dts >= 0
  {
    if ss == [] then 0
    else
      var before := FirstVisible(ss[..|ss| - 1]);
      if before < |ss| - 1 || ss[|ss| - 1].dts >= 0 then before else |ss|
  }

  predicate HasVisible(ss: seq<Sample>) {
    FirstVisible(ss) < |ss|
  }

  // The position of the last sync sample, or 0.
  function LastSync(ss: seq<Sample>): (k: nat)
    ensures k < |ss| || k == |ss| == 0
    ensures forall i :: k < i < |ss| ==> ss[i].isNonSync
    ensures k > 0 ==> !ss[k].isNonSync
  {
    if ss == [] then 0
    else if !ss[|ss| - 1].isNonSync then |ss| - 1
    else LastSync(ss[..|ss| - 1])
  }

  // The samples up to the first visible one.
  function Leading(ss: seq<Sample>): seq<Sample> {
    if HasVisible(ss) then ss[..FirstVisible(ss) + 1] else ss
  }

  // Playback starts from the last sync sample at or before the first visible one, or from the first sample.
  function KeepFrom(ss: seq<Sample>): (k: nat)
    ensures k <= |ss|
  {
    LastSync(Leading(ss))
  }

  function Kept(ss: seq<Sample>): seq<Sample> {
    ss[KeepFrom(ss)..]
  }

  lemma VisibleAppend(ss: seq<Sample>, s: Sample)
    ensures FirstVisible(ss + [s]) == if HasVisible(ss) || s.dts >= 0 then FirstVisible(ss) else |ss| + 1
    ensures HasVisible(ss + [s]) <==> HasVisible(ss) || s.dts >= 0
  {
    assert (ss + [s])[..|ss|] == ss;
  }

  lemma LeadingAppend(ss: seq<Sample>, s: Sample)
    ensures Leading(ss + [s]) == if HasVisible(ss) then Leading(ss) else ss + [s]
  {
    VisibleAppend(ss, s);
    var n := FirstVisible(ss);
    assert !HasVisible(ss) ==> n == |ss|;
    hide FirstVisible;
    if HasVisible(ss) {
      assert (ss + [s])[..n + 1] == ss[..n + 1];
    }
  }

  lemma Append(ss: seq<Sample>, s: Sample)
    ensures KeepFrom(ss + [s]) == if !HasVisible(ss) && !s.isNonSync then |ss| else KeepFrom(ss)
    ensures Kept(ss + [s]) == if !HasVisible(ss) && !s.isNonSync then [s] else Kept(ss) + [s]
  {
    LeadingAppend(ss, s);
    if !HasVisible(ss) {
      assert (ss + [s])[..|ss|] == ss;
    }
    hide Leading, HasVisible;
  }

  // What the segment reader asks of a muxer, for one of its tracks.
  datatype Op = Write(track: nat, sample: Sample) | Final(track: nat, dts: int)

  datatype History = Begin | Then(before: History, last: Op)

  function Fed(h: History, i: nat): seq<Sample> {
    match h
    case Begin => []
    case Then(before, op) => Fed(before, i) + (if op.Write? && op.track == i then [op.sample] else [])
  }

  predicate OpsInRange(h: History, n: nat) {
    h.Then? ==> h.last.track < n && OpsInRange(h.before, n)
  }

  function AllFed(h: History, n: nat): (r: seq<seq<Sample>>)
    ensures |r| == n && forall i :: 0 <= i < n ==> r[i] == Fed(h, i)
  {
    seq(n, i requires 0 <= i < n => Fed(h, i))
  }

  lemma FedStep(h: History, n: nat)
    requires h.Then? && h.last.track < n
    ensures AllFed(h, n) == var fed := AllFed(h.before, n);
                            if h.last.Write? then fed[h.last.track := fed[h.last.track] + [h.last.sample]] else fed
  {
    assert forall i :: Fed(h.before, i) + [] == Fed(h.before, i);
  }

  predicate Runnable(timeScales: seq<int>, h: History) {
    && (forall i :: 0 <= i < |timeScales| ==> timeScales[i] > 0 && Steady(Fed(h, i)))
    && OpsInRange(h, |timeScales|)
  }

  lemma SteadyPrefix(ss: seq<Sample>, tail: seq<Sample>)
    requires Steady(ss + tail)
    ensures Steady(ss)
  {
    var all := ss + tail;
    forall i | 0 <= i < |ss| - 1 ensures 0 <= ss[i + 1].dts - ss[i].dts < TWO_32 {
      assert 0 <= all[i + 1].dts - all[i].dts < TWO_32;
    }
  }

  lemma RunnablePrefix(timeScales: seq<int>, h: History)
    requires h.Then? && Runnable(timeScales, h)
    ensures Runnable(timeScales, h.before)
  {
    forall i | 0 <= i < |timeScales| ensures Steady(Fed(h.before, i)) {
      assert Steady(Fed(h, i));
      SteadyPrefix(Fed(h.before, i), if h.last.Write? && h.last.track == i then [h.last.sample] else []);
    }
  }

  lemma {:induction false} SteadyIsOrdered(ss: seq<Sample>, i: nat, j: nat)
    requires Steady(ss) && i <= j < |ss|
    ensures ss[i].dts <= ss[j].dts
    decreases j
  {
    if i < j {
      SteadyIsOrdered(ss, i, j - 1);
    }
  }
}
