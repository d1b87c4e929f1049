/** stream/{unit_remuxer,format_updater}.go: what access units and the stored parameters are turned into. */
module AccessUnits {
  import opened Bytes
  import opened Wrappers

  // A NALU is never empty: its first byte (ITU-T H.264 section 7.4.1, H.265 section 7.4.2.2) says what it is.
  type NALU = n: seq<byte> | n != [] witness [0]

  datatype Codec = H264 | H265

  datatype Kind = ParameterSet(position: nat) | Delimiter | KeySlice | Rest

  function TypeH264(n: NALU): int {
    n[0] % 32
  }

  function TypeH265(n: NALU): int {
    (n[0] / 2) % 64
  }

  // Parameter sets are told apart by the position they are given before a key frame.
  function KindOf(c: Codec, n: NALU): Kind {
    match c
    case H264 =>
      var t := TypeH264(n);
      if t == 7 then ParameterSet(0)       // SPS
      else if t == 8 then ParameterSet(1)  // PPS
      else if t == 9 then Delimiter        // access unit delimiter
      else if t == 5 then KeySlice         // IDR
      else Rest
    case H265 =>
      var t := TypeH265(n);
      if t == 32 then ParameterSet(0)      // VPS
      else if t == 33 then ParameterSet(1) // SPS
      else if t == 34 then ParameterSet(2) // PPS
      else if t == 35 then Delimiter       // AUD
      else if t == 19 || t == 20 || t == 21 then KeySlice // IDR_W_RADL, IDR_N_LP, CRA
      else Rest
  }

  // H264: the type is what the low five bits of the first byte say, below the three bits of the reference.
  lemma KindOfH264ByFirstByte(n: NALU, ref: nat, t: nat)
    requires ref < 8 && t < 32 && n[0] == 32 * ref + t
    ensures KindOf(H264, n) == ParameterSet(0) <==> t == 7
    ensures KindOf(H264, n) == ParameterSet(1) <==> t == 8
    ensures KindOf(H264, n) == Delimiter <==> t == 9
    ensures KindOf(H264, n) == KeySlice <==> t == 5
    ensures KindOf(H264, n) == Rest <==> t !in {5, 7, 8, 9}
  {
    assert TypeH264(n) == t;
  }

  // H265: the type is in the six bits between the highest and the lowest one.
  lemma KindOfH265ByFirstByte(n: NALU, high: nat, t: nat, low: nat)
    requires high < 2 && t < 64 && low < 2 && n[0] == 128 * high + 2 * t + low
    ensures KindOf(H265, n) == ParameterSet(0) <==> t == 32
    ensures KindOf(H265, n) == ParameterSet(1) <==> t == 33
    ensures KindOf(H265, n) == ParameterSet(2) <==> t == 34
    ensures KindOf(H265, n) == Delimiter <==> t == 35
    ensures KindOf(H265, n) == KeySlice <==> t in {19, 20, 21}
    ensures KindOf(H265, n) == Rest <==> t !in {19, 20, 21, 32, 33, 34, 35}
  {
    assert n[0] / 2 == 64 * high + t;
    assert TypeH265(n) == t;
  }

  // As the encoders write them.
  lemma CommonNALUs()
    ensures KindOf(H264, [0x67]) == ParameterSet(0) && KindOf(H264, [0x68]) == ParameterSet(1)
    ensures KindOf(H264, [0x09]) == Delimiter && KindOf(H264, [0x65]) == KeySlice && KindOf(H264, [0x41]) == Rest
    ensures KindOf(H265, [0x40]) == ParameterSet(0) && KindOf(H265, [0x42]) == ParameterSet(1)
    ensures KindOf(H265, [0x44]) == ParameterSet(2) && KindOf(H265, [0x46]) == Delimiter
    ensures KindOf(H265, [0x26]) == KeySlice && KindOf(H265, [0x28]) == KeySlice && KindOf(H265, [0x2A]) == KeySlice
    ensures KindOf(H265, [0x02]) == Rest
  {
  }

  function ParameterCount(c: Codec): nat {
    if c.H264? then 2 else 3
  }

  // What the format stores, by position.
  type Parameters = seq<Option<seq<byte>>>

  predicate AllSet(ps: Parameters) {
    forall i :: 0 <= i < |ps| ==> ps[i].Some?
  }

  function Values(ps: Parameters): (r: seq<seq<byte>>)
    requires AllSet(ps)
    ensures |r| == |ps|
  {
    seq(|ps|, i requires 0 <= i < |ps| => ps[i].value)
  }

  predicate IsKept(c: Codec, n: NALU) {
    KindOf(c, n).KeySlice? || KindOf(c, n).Rest?
  }

  function Filter(c: Codec, au: seq<NALU>): seq<NALU> {
    if au == [] then []
    else
      var last := au[|au| - 1];
      Filter(c, au[..|au| - 1]) + (if IsKept(c, last) then [last] else [])
  }

  predicate HasKey(c: Codec, au: seq<NALU>) {
    exists k :: 0 <= k < |au| && KindOf(c, au[k]).KeySlice?
  }

  // A key frame is preceded by the parameters, if all are known; other parameter sets and delimiters are left out.
  function Remux(c: Codec, ps: Parameters, au: seq<NALU>): seq<seq<byte>> {
    (if HasKey(c, au) && AllSet(ps) then Values(ps) else []) + Filter(c, au)
  }

  // The types that go through: all but parameter sets and delimiters.
  predicate GoesThrough(c: Codec, n: NALU) {
    match c
    case H264 => n[0] % 32 != 7 && n[0] % 32 != 8 && n[0] % 32 != 9
    case H265 => !(32 <= (n[0] / 2) % 64 <= 35)
  }

  // The positions before k of those that go through.
  function Through(c: Codec, au: seq<NALU>, k: nat): set<nat>
    requires k <= |au|
  {
    set j: nat | j < k && GoesThrough(c, au[j])
  }

  lemma {:induction false} FilterPlaces(c: Codec, au: seq<NALU>)
    ensures |Filter(c, au)| == |Through(c, au, |au|)|
    ensures forall k :: 0 <= k < |au| && GoesThrough(c, au[k]) ==>
              |Through(c, au, k)| < |Filter(c, au)| && Filter(c, au)[|Through(c, au, k)|] == au[k]
  {
    hide KindOf, GoesThrough, IsKept, Through;
    if au == [] {
      NoneBefore(c, au);
    } else {
      var n := |au| - 1;
      FilterPlaces(c, au[..n]);
      ThroughNext(c, au);
      KeptGoesThrough(c, au[n]);
      forall k | 0 <= k < |au| && GoesThrough(c, au[k])
        ensures |Through(c, au, k)| < |Filter(c, au)| && Filter(c, au)[|Through(c, au, k)|] == au[k]
      {
        SameBefore(c, au, k);
        if k < n { assert au[..n][k] == au[k]; }
      }
    }
  }

  lemma NoneBefore(c: Codec, au: seq<NALU>)
    ensures Through(c, au, 0) == {}
  {
  }

  lemma SameBefore(c: Codec, au: seq<NALU>, k: nat)
    requires k < |au|
    ensures Through(c, au[..|au| - 1], k) == Through(c, au, k)
  {
  }

  lemma ThroughNext(c: Codec, au: seq<NALU>)
    requires au != []
    ensures var n := |au| - 1;
            |Through(c, au, |au|)| == |Through(c, au[..n], n)| + (if GoesThrough(c, au[n]) then 1 else 0)
  {
    var n := |au| - 1;
    SameBefore(c, au, n);
    hide GoesThrough;
    assert Through(c, au, n + 1) == Through(c, au, n) + (if GoesThrough(c, au[n]) then {n} else {});
  }

  lemma KeptGoesThrough(c: Codec, n: NALU)
    ensures IsKept(c, n) <==> GoesThrough(c, n)
  {
  }

  // What goes out: the stored parameters in their order, if the unit has a key slice and none is missing, and then
  // every NALU that goes through, each at its place.
  lemma RemuxedUnit(c: Codec, ps: Parameters, au: seq<NALU>)
    ensures var out := Remux(c, ps, au);
            var n := if (exists k :: 0 <= k < |au| && KindOf(c, au[k]) == KeySlice)
                        && (forall i :: 0 <= i < |ps| ==> ps[i].Some?) then |ps| else 0;
            && |out| == n + |Through(c, au, |au|)|
            && (forall i :: 0 <= i < n ==> ps[i] == Some(out[i]))
            && (forall k :: 0 <= k < |au| && GoesThrough(c, au[k]) ==>
                  |Through(c, au, k)| < |out| - n && out[n + |Through(c, au, k)|] == au[k])
  {
    FilterPlaces(c, au);
    hide KindOf, GoesThrough, Filter, Through;
    if HasKey(c, au) {
      var k :| 0 <= k < |au| && KindOf(c, au[k]).KeySlice?;
      assert KindOf(c, au[k]) == KeySlice;
    }
  }

  // ---- updating the stored parameters ----

  // The newest parameter set for a position: the last one of the unit, or else the stored one.
  function Newest(c: Codec, stored: Option<seq<byte>>, au: seq<NALU>, i: nat): Option<seq<byte>> {
    if au == [] then stored
    else
      var last := au[|au| - 1];
      if KindOf(c, last) == ParameterSet(i) then Some(last) else Newest(c, stored, au[..|au| - 1], i)
  }

  // What comparing with the stored one gives: the last one of the unit that differs from it, or else the stored one.
  function LastDifferent(c: Codec, stored: Option<seq<byte>>, au: seq<NALU>, i: nat): Option<seq<byte>> {
    if au == [] then stored
    else
      var last := au[|au| - 1];
      if KindOf(c, last) == ParameterSet(i) && Some(last) != stored then Some(last)
      else LastDifferent(c, stored, au[..|au| - 1], i)
  }

  // The last of the parameter sets that qualify is at k, or none does.
  ghost predicate IsLastOf(c: Codec, au: seq<NALU>, i: nat, besides: Option<seq<byte>>, k: int) {
    && 0 <= k < |au| && KindOf(c, au[k]) == ParameterSet(i) && Some(au[k]) != besides
    && forall j :: k < j < |au| ==> KindOf(c, au[j]) != ParameterSet(i) || Some(au[j]) == besides
  }

  lemma {:induction false} NewestMeans(c: Codec, stored: Option<seq<byte>>, au: seq<NALU>, i: nat)
    ensures || (Newest(c, stored, au, i) == stored && forall k :: 0 <= k < |au| ==> KindOf(c, au[k]) != ParameterSet(i))
            || (exists k :: IsLastOf(c, au, i, None, k) && Newest(c, stored, au, i) == Some(au[k]))
  {
    hide KindOf;
    var n := |au| - 1;
    if au != [] && KindOf(c, au[n]) == ParameterSet(i) {
      assert IsLastOf(c, au, i, None, n);
    } else if au != [] {
      NewestMeans(c, stored, au[..n], i);
      assert forall k :: 0 <= k < n ==> au[..n][k] == au[k];
      if k :| IsLastOf(c, au[..n], i, None, k) && Newest(c, stored, au[..n], i) == Some(au[..n][k]) {
        assert IsLastOf(c, au, i, None, k);
      }
    }
  }

  lemma {:induction false} LastDifferentMeans(c: Codec, stored: Option<seq<byte>>, au: seq<NALU>, i: nat)
    ensures || (LastDifferent(c, stored, au, i) == stored && NoneDiffers(c, stored, au, i))
            || (exists k :: IsLastOf(c, au, i, stored, k) && LastDifferent(c, stored, au, i) == Some(au[k]))
  {
    hide KindOf;
    var n := |au| - 1;
    if au != [] && KindOf(c, au[n]) == ParameterSet(i) && Some(au[n]) != stored {
      assert IsLastOf(c, au, i, stored, n);
    } else if au != [] {
      LastDifferentMeans(c, stored, au[..n], i);
      assert forall k :: 0 <= k < n ==> au[..n][k] == au[k];
      if k :| IsLastOf(c, au[..n], i, stored, k) && LastDifferent(c, stored, au[..n], i) == Some(au[..n][k]) {
        assert IsLastOf(c, au, i, stored, k);
      }
    }
  }

  // H264 compares with the newest so far, H265 with what was stored before the unit.
  function Update(c: Codec, ps: Parameters, au: seq<NALU>): (r: Parameters)
    ensures |r| == |ps|
  {
    seq(|ps|, i requires 0 <= i < |ps| =>
      if c.H264? then Newest(c, ps[i], au, i) else LastDifferent(c, ps[i], au, i))
  }

  // What is stored at each position afterwards. H264: the last parameter set of that position in the unit. H265: the
  // last one that differs from what was stored before the unit. The stored one stays if there is no such.
  lemma UpdateMeans(c: Codec, ps: Parameters, au: seq<NALU>, i: nat)
    requires i < |ps|
    ensures var besides := if c == H265 then ps[i] else None;
            || (Update(c, ps, au)[i] == ps[i]
                && forall k :: 0 <= k < |au| ==> KindOf(c, au[k]) != ParameterSet(i) || Some(au[k]) == besides)
            || (exists k :: IsLastOf(c, au, i, besides, k) && Update(c, ps, au)[i] == Some(au[k]))
  {
    hide KindOf, Newest, LastDifferent, IsLastOf;
    NewestMeans(c, ps[i], au, i);
    LastDifferentMeans(c, ps[i], au, i);
  }

  function Process(c: Codec, ps: Parameters, au: seq<NALU>): (Parameters, seq<seq<byte>>) {
    (Update(c, ps, au), Remux(c, Update(c, ps, au), au))
  }

  // Every stored parameter is a parameter set of its position.
  predicate WellTyped(c: Codec, ps: Parameters) {
    && |ps| == ParameterCount(c)
    && forall i :: 0 <= i < |ps| && ps[i].Some? ==> ps[i].value != [] && KindOf(c, ps[i].value) == ParameterSet(i)
  }

  // ---- the newest parameters ----

  predicate OneAtMost(c: Codec, au: seq<NALU>, i: nat) {
    forall j, k :: 0 <= j < k < |au| ==> KindOf(c, au[j]) != ParameterSet(i) || KindOf(c, au[k]) != ParameterSet(i)
  }

  predicate NoneDiffers(c: Codec, stored: Option<seq<byte>>, au: seq<NALU>, i: nat) {
    forall k :: 0 <= k < |au| && KindOf(c, au[k]) == ParameterSet(i) ==> Some(au[k]) == stored
  }

  lemma {:induction false} NoneDiffersIsStored(c: Codec, stored: Option<seq<byte>>, au: seq<NALU>, i: nat)
    ensures NoneDiffers(c, stored, au, i) ==>
              Newest(c, stored, au, i) == stored && LastDifferent(c, stored, au, i) == stored
    ensures !NoneDiffers(c, stored, au, i) ==> LastDifferent(c, stored, au, i) != stored
  {
    if au != [] {
      var n := |au| - 1;
      hide KindOf;
      NoneDiffersIsStored(c, stored, au[..n], i);
      assert forall k :: 0 <= k < n ==> au[..n][k] == au[k];
    }
  }

  // Comparing with the stored parameter finds the newest one exactly when that differs from the stored one, or no
  // parameter of the unit does.
  lemma {:induction false} LastDifferentIsNewestExactly(c: Codec, stored: Option<seq<byte>>, au: seq<NALU>, i: nat)
    ensures LastDifferent(c, stored, au, i) == Newest(c, stored, au, i)
            <==> Newest(c, stored, au, i) != stored || NoneDiffers(c, stored, au, i)
  {
    hide KindOf;
    NoneDiffersIsStored(c, stored, au, i);
    if Newest(c, stored, au, i) != stored {
      NewestDiffers(c, stored, au, i);
    }
  }

  lemma {:induction false} NewestDiffers(c: Codec, stored: Option<seq<byte>>, au: seq<NALU>, i: nat)
    requires Newest(c, stored, au, i) != stored
    ensures LastDifferent(c, stored, au, i) == Newest(c, stored, au, i)
  {
    hide KindOf;
    var n := |au| - 1;
    if KindOf(c, au[n]) != ParameterSet(i) {
      NewestDiffers(c, stored, au[..n], i);
    }
  }

  // One parameter set of each kind in a unit is enough.
  lemma OneAtMostIsEnough(c: Codec, stored: Option<seq<byte>>, au: seq<NALU>, i: nat)
    requires OneAtMost(c, au, i)
    ensures LastDifferent(c, stored, au, i) == Newest(c, stored, au, i)
  {
    LastDifferentIsNewestExactly(c, stored, au, i);
    if Newest(c, stored, au, i) == stored {
      NewestOfOne(c, stored, au, i);
    }
  }

  lemma {:induction false} NewestOfOne(c: Codec, stored: Option<seq<byte>>, au: seq<NALU>, i: nat)
    requires OneAtMost(c, au, i)
    ensures forall k :: 0 <= k < |au| && KindOf(c, au[k]) == ParameterSet(i) ==> Newest(c, stored, au, i) == Some(au[k])
  {
    if au != [] {
      hide KindOf;
      NewestOfOne(c, stored, au[..|au| - 1], i);
    }
  }

  // When a unit brings another VPS and then the stored one again, the other one is kept although it came first.
  lemma OlderParameterIsKept()
    ensures var a: NALU, b: NALU := [64, 1], [64, 2];
            && Update(H265, [Some(a), None, None], [b, a])[0] == Some(b)
            && Newest(H265, Some(a), [b, a], 0) == Some(a)
  {
    var a: NALU, b: NALU := [64, 1], [64, 2];
    assert [b, a][..1] == [b];
    assert a[1] != b[1];
    assert LastDifferent(H265, Some(a), [b, a], 0) == Some(b);
  }

  // ---- types, idempotence ----

  lemma {:induction false} UpdatedKind(c: Codec, stored: Option<seq<byte>>, au: seq<NALU>, i: nat)
    ensures Newest(c, stored, au, i) == stored
            || (exists k ::
                  0 <= k < |au| && KindOf(c, au[k]) == ParameterSet(i) && Newest(c, stored, au, i) == Some(au[k]))
    ensures LastDifferent(c, stored, au, i) == stored
            || (exists k ::
                  && 0 <= k < |au| && KindOf(c, au[k]) == ParameterSet(i)
                  && LastDifferent(c, stored, au, i) == Some(au[k]))
  {
    if au != [] {
      hide KindOf;
      var n := |au| - 1;
      UpdatedKind(c, stored, au[..n], i);
      assert forall k :: 0 <= k < n ==> au[..n][k] == au[k];
    }
  }

  // Only parameter sets are ever stored, each at its position.
  lemma UpdateKeepsTypes(c: Codec, ps: Parameters, au: seq<NALU>)
    requires WellTyped(c, ps)
    ensures WellTyped(c, Update(c, ps, au))
  {
    hide KindOf, Newest, LastDifferent;
    var r := Update(c, ps, au);
    forall i | 0 <= i < |r| && r[i].Some?
      ensures r[i].value != [] && KindOf(c, r[i].value) == ParameterSet(i)
    {
      UpdatedKind(c, ps[i], au, i);
    }
  }

  lemma {:induction false} FilterIsKept(c: Codec, au: seq<NALU>)
    ensures forall k :: 0 <= k < |Filter(c, au)| ==> IsKept(c, Filter(c, au)[k])
    ensures HasKey(c, Filter(c, au)) <==> HasKey(c, au)
  {
    if au != [] {
      hide KindOf;
      var n := |au| - 1;
      var f := Filter(c, au[..n]);
      FilterIsKept(c, au[..n]);
      if HasKey(c, au) {
        var k :| 0 <= k < |au| && KindOf(c, au[k]).KeySlice?;
        if k < n {
          assert au[..n][k] == au[k];
          var j :| 0 <= j < |f| && KindOf(c, f[j]).KeySlice?;
          assert Filter(c, au)[j] == f[j];
        } else {
          assert Filter(c, au)[|f|] == au[n];
        }
      }
      if HasKey(c, Filter(c, au)) {
        var k :| 0 <= k < |Filter(c, au)| && KindOf(c, Filter(c, au)[k]).KeySlice?;
        if k < |f| {
          assert KindOf(c, f[k]).KeySlice?;
          var j :| 0 <= j < n && KindOf(c, au[..n][j]).KeySlice?;
          assert au[j] == au[..n][j];
        }
      }
    }
  }

  lemma {:induction false} FilterOfKept(c: Codec, au: seq<NALU>)
    requires forall k :: 0 <= k < |au| ==> IsKept(c, au[k])
    ensures Filter(c, au) == au
  {
    if au != [] {
      hide IsKept;
      FilterOfKept(c, au[..|au| - 1]);
    }
  }

  lemma {:induction false} FilterAppend(c: Codec, a: seq<NALU>, b: seq<NALU>)
    ensures Filter(c, a + b) == Filter(c, a) + Filter(c, b)
  {
    hide IsKept, KindOf;
    if b == [] {
      assert a + b == a;
    } else {
      var n := |b| - 1;
      FilterAppend(c, a, b[..n]);
      FilterLast(c, b);
      assert a + b == (a + b[..n]) + [b[n]];
      FilterLast(c, a + b);
      hide Filter;
    }
  }

  lemma FilterLast(c: Codec, au: seq<NALU>)
    requires au != []
    ensures var n := |au| - 1;
            Filter(c, au) == Filter(c, au[..n]) + (if IsKept(c, au[n]) then [au[n]] else [])
  {
  }

  lemma {:induction false} FilterOfNoneKept(c: Codec, au: seq<NALU>)
    requires forall k :: 0 <= k < |au| ==> !IsKept(c, au[k])
    ensures Filter(c, au) == []
  {
    if au != [] {
      hide IsKept;
      FilterOfNoneKept(c, au[..|au| - 1]);
    }
  }

  // What comes out of the remuxer, as NALUs again.
  function Output(c: Codec, ps: Parameters, au: seq<NALU>): (r: seq<NALU>)
    requires WellTyped(c, ps)
    ensures r == Remux(c, ps, au)
  {
    (if HasKey(c, au) && AllSet(ps) then Head(c, ps) else []) + Filter(c, au)
  }

  function Head(c: Codec, ps: Parameters): (r: seq<NALU>)
    requires WellTyped(c, ps) && AllSet(ps)
    ensures r == Values(ps)
    ensures |r| == |ps| && forall i :: 0 <= i < |ps| ==> ps[i] == Some(r[i])
  {
    seq(|ps|, i requires 0 <= i < |ps| => ps[i].value)
  }

  // Every parameter set of the output is the stored one of its kind.
  lemma OutputParameters(c: Codec, ps: Parameters, au: seq<NALU>, i: nat)
    requires WellTyped(c, ps) && i < |ps|
    ensures NoneDiffers(c, ps[i], Output(c, ps, au), i)
  {
    FilterIsKept(c, au);
    hide KindOf, Filter, HasKey;
    var out := Output(c, ps, au);
    forall k | 0 <= k < |out| && KindOf(c, out[k]) == ParameterSet(i)
      ensures Some(out[k]) == ps[i]
    {
      if HasKey(c, au) && AllSet(ps) && k < |ps| {
        assert out[k] == ps[k].value;
      }
    }
  }

  // Passing the output through again changes neither it nor the parameters.
  lemma ProcessingTwiceIsProcessingOnce(c: Codec, ps: Parameters, au: seq<NALU>)
    requires WellTyped(c, ps)
    ensures var p := Update(c, ps, au);
            WellTyped(c, p) && Process(c, p, Output(c, p, au)) == (p, Process(c, ps, au).1)
  {
    UpdateKeepsTypes(c, ps, au);
    var p := Update(c, ps, au);
    var out := Output(c, p, au);
    forall i | 0 <= i < |p|
      ensures Update(c, p, out)[i] == p[i]
    {
      OutputParameters(c, p, au, i);
      NoneDiffersIsStored(c, p[i], out, i);
      hide NoneDiffers;
    }
    assert Update(c, p, out) == p;
    RemuxTwice(c, p, au);
  }

  lemma RemuxTwice(c: Codec, p: Parameters, au: seq<NALU>)
    requires WellTyped(c, p)
    ensures Remux(c, p, Output(c, p, au)) == Remux(c, p, au)
  {
    var f := Filter(c, au);
    FilterIsKept(c, au);
    FilterOfKept(c, f);
    hide Filter, HasKey, IsKept, KindOf, Head, Values, WellTyped;
    if HasKey(c, au) && AllSet(p) {
      HeadIsLeftOut(c, p, Head(c, p), f);
    } else {
      assert Output(c, p, au) == f;
    }
  }

  lemma HeadIsLeftOut(c: Codec, p: Parameters, head: seq<NALU>, f: seq<NALU>)
    requires WellTyped(c, p) && |head| == |p| && forall i :: 0 <= i < |p| ==> p[i] == Some(head[i])
    requires HasKey(c, f) && Filter(c, f) == f
    ensures Filter(c, head + f) == f && HasKey(c, head + f)
  {
    assert forall k :: 0 <= k < |head| ==> KindOf(c, head[k]) == ParameterSet(k);
    assert forall k :: 0 <= k < |head| ==> !IsKept(c, head[k]);
    hide KindOf, IsKept;
    FilterOfNoneKept(c, head);
    FilterAppend(c, head, f);
    var k :| 0 <= k < |f| && KindOf(c, f[k]).KeySlice?;
    assert (head + f)[|head| + k] == f[k];
  }

  // ---- over a whole stream ----

  function Flatten(aus: seq<seq<NALU>>): seq<NALU> {
    if aus == [] then [] else Flatten(aus[..|aus| - 1]) + aus[|aus| - 1]
  }

  // The parameters after the units.
  function After(c: Codec, ps: Parameters, aus: seq<seq<NALU>>): (r: Parameters)
    ensures |r| == |ps|
  {
    if aus == [] then ps else Update(c, After(c, ps, aus[..|aus| - 1]), aus[|aus| - 1])
  }

  lemma {:induction false} NewestAppend(c: Codec, stored: Option<seq<byte>>, a: seq<NALU>, b: seq<NALU>, i: nat)
    ensures Newest(c, stored, a + b, i) == Newest(c, Newest(c, stored, a, i), b, i)
  {
    hide KindOf;
    if b == [] {
      assert a + b == a;
    } else {
      var n := |b| - 1;
      NewestAppend(c, stored, a, b[..n], i);
      assert (a + b)[..|a| + n] == a + b[..n];
    }
  }

  // H264 always, H265 when no unit has two parameter sets of a kind: the stored parameters are the newest ever seen.
  lemma {:induction false} StoredAreTheNewest(c: Codec, ps: Parameters, aus: seq<seq<NALU>>, i: nat)
    requires i < |ps|
    requires c.H265? ==> forall k :: 0 <= k < |aus| ==> OneAtMost(c, aus[k], i)
    ensures After(c, ps, aus)[i] == Newest(c, ps[i], Flatten(aus), i)
  {
    if aus != [] {
      var n := |aus| - 1;
      StoredAreTheNewest(c, ps, aus[..n], i);
      NewestAppend(c, ps[i], Flatten(aus[..n]), aus[n], i);
      if c.H265? {
        OneAtMostIsEnough(c, After(c, ps, aus[..n])[i], aus[n], i);
      }
      hide Newest, LastDifferent, OneAtMost;
    }
  }

  // So a key frame goes out with the newest parameters seen up to and including its own unit.
  lemma KeyFramesCarryTheNewest(c: Codec, ps: Parameters, aus: seq<seq<NALU>>, au: seq<NALU>)
    requires WellTyped(c, ps) && HasKey(c, au)
    requires forall i :: 0 <= i < |ps| ==> Newest(c, ps[i], Flatten(aus + [au]), i).Some?
    requires c.H265? ==> forall k, i :: 0 <= k < |aus| && 0 <= i < |ps| ==> OneAtMost(c, aus[k], i)
    requires c.H265? ==> forall i :: 0 <= i < |ps| ==> OneAtMost(c, au, i)
    ensures var out := Process(c, After(c, ps, aus), au).1;
            && |out| >= |ps| && out[|ps|..] == Filter(c, au)
            && forall i :: 0 <= i < |ps| ==> Some(out[i]) == Newest(c, ps[i], Flatten(aus + [au]), i)
  {
    var all := aus + [au];
    assert all[..|aus|] == aus;
    forall i | 0 <= i < |ps|
      ensures After(c, ps, all)[i] == Newest(c, ps[i], Flatten(all), i)
    {
      StoredAreTheNewest(c, ps, all, i);
    }
    hide Newest, OneAtMost, Flatten, Filter, HasKey, Update;
    var p := After(c, ps, all);
    assert p == Update(c, After(c, ps, aus), au);
    assert AllSet(p);
    assert Remux(c, p, au)[|ps|..] == Filter(c, au);
  }
}
