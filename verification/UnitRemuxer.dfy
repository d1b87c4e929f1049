/** stream/{unit_remuxer,format_updater}.go: the formats and the two passes over an access unit. */
module UnitRemuxer {
  import opened Bytes
  import opened Wrappers
  import opened AccessUnits

  lemma FilterNext(c: Codec, au: seq<NALU>, k: nat)
    requires k < |au|
    ensures Filter(c, au[..k + 1]) == Filter(c, au[..k]) + (if IsKept(c, au[k]) then [au[k]] else [])
    ensures HasKey(c, au[..k + 1]) <==> HasKey(c, au[..k]) || KindOf(c, au[k]).KeySlice?
  {
    hide KindOf;
    assert au[..k + 1][..k] == au[..k];
    assert forall j :: 0 <= j < k ==> au[..k + 1][j] == au[..k][j];
    if HasKey(c, au[..k]) {
      var j :| 0 <= j < k && KindOf(c, au[..k][j]).KeySlice?;
      assert KindOf(c, au[..k + 1][j]).KeySlice?;
    }
    assert KindOf(c, au[k]) == KindOf(c, au[..k + 1][k]);
  }

  lemma {:induction false} FilterGrows(c: Codec, au: seq<NALU>, k: nat)
    requires k <= |au|
    ensures |Filter(c, au[..k])| <= |Filter(c, au)|
    decreases |au| - k
  {
    if k == |au| {
      assert au[..k] == au;
    } else {
      FilterNext(c, au, k);
      FilterGrows(c, au, k + 1);
    }
  }

  lemma KeptTypes(n: NALU)
    ensures var t := TypeH264(n); IsKept(H264, n) <==> t != 7 && t != 8 && t != 9
    ensures var t := TypeH265(n); IsKept(H265, n) <==> t != 32 && t != 33 && t != 34 && t != 35
  {
  }

  class FormatH264 {
    var sps: Option<seq<byte>>
    var pps: Option<seq<byte>>

    function View(): Parameters
      reads this
    {
      [sps, pps]
    }

    // formatUpdaterH264
    method Update(au: seq<NALU>)
      modifies this
      ensures View() == AccessUnits.Update(H264, old(View()), au)
    {
      var sps1, pps1, update := sps, pps, false;
      for k := 0 to |au|
        invariant sps1 == Newest(H264, sps, au[..k], 0) && pps1 == Newest(H264, pps, au[..k], 1)
        invariant !update ==> sps1 == sps && pps1 == pps
        invariant unchanged(this)
      {
        assert au[..k + 1][..k] == au[..k];
        var nalu := au[k];
        var typ := TypeH264(nalu);
        if typ == 7 {
          if sps1 != Some(nalu) {
            sps1, update := Some(nalu), true;
          }
        } else if typ == 8 {
          if pps1 != Some(nalu) {
            pps1, update := Some(nalu), true;
          }
        }
      }
      assert au[..|au|] == au;
      if update {
        sps, pps := sps1, pps1;
      }
    }

    // Whether the parameters that a key frame needs are all known.
    predicate HasParameters()
      reads this
      ensures HasParameters() == AllSet(View())
    {
      assert View()[0] == sps && View()[1] == pps;
      sps.Some? && pps.Some?
    }

    // The first pass of unitRemuxerH264: how many NALUs the second one keeps, parameters included.
    method Count(au: seq<NALU>) returns (isKeyFrame: bool, n: nat)
      ensures isKeyFrame == HasKey(H264, au)
      ensures n == |AccessUnits.Remux(H264, View(), au)|
    {
      isKeyFrame, n := false, 0;
      for k := 0 to |au|
        invariant isKeyFrame == HasKey(H264, au[..k])
        invariant n == |Filter(H264, au[..k])| + (if isKeyFrame && HasParameters() then 2 else 0)
      {
        FilterNext(H264, au, k);
        hide Filter, HasKey;
        var typ := TypeH264(au[k]);
        if typ == 7 || typ == 8 {
          continue;
        } else if typ == 9 {
          continue;
        } else if typ == 5 {
          if !isKeyFrame {
            isKeyFrame := true;
            if HasParameters() {
              n := n + 2;
            }
          }
        }
        n := n + 1;
      }
      assert au[..|au|] == au;
    }

    // The second pass, from the slot after the parameters on.
    method Fill(au: seq<NALU>, filtered: array<seq<byte>>, start: nat)
      requires filtered.Length == start + |Filter(H264, au)|
      modifies filtered
      ensures filtered[..] == old(filtered[..start]) + Filter(H264, au)
    {
      hide IsKept, KindOf, TypeH264;
      var i := start;
      ghost var head := filtered[..start];
      for k := 0 to |au|
        invariant i == start + |Filter(H264, au[..k])| <= filtered.Length
        invariant filtered[..i] == head + Filter(H264, au[..k])
      {
        FilterNext(H264, au, k);
        FilterGrows(H264, au, k + 1);
        KeptTypes(au[k]);
        hide Filter;
        var typ := TypeH264(au[k]);
        if typ == 7 || typ == 8 {
          continue;
        } else if typ == 9 {
          continue;
        }
        filtered[i] := au[k];
        i := i + 1;
      }
      assert au[..|au|] == au && filtered[..] == filtered[..i];
    }

    // unitRemuxerH264: what the first pass counted is filled exactly. Null stands for no NALUs.
    method Remux(au: seq<NALU>) returns (filtered: array?<seq<byte>>)
      ensures filtered == null <==> AccessUnits.Remux(H264, View(), au) == []
      ensures filtered != null ==> fresh(filtered) && filtered[..] == AccessUnits.Remux(H264, View(), au)
    {
      hide HasKey, Filter;
      var isKeyFrame, n := Count(au);
      if n == 0 {
        return null;
      }
      filtered := new seq<byte>[n](_ => []);
      var i := 0;
      if isKeyFrame && HasParameters() {
        filtered[0] := sps.value;
        filtered[1] := pps.value;
        i := 2;
        assert filtered[..i] == Values(View());
      }
      hide Values, AllSet;
      Fill(au, filtered, i);
    }
  }

  class FormatH265 {
    var vps: Option<seq<byte>>
    var sps: Option<seq<byte>>
    var pps: Option<seq<byte>>

    function View(): Parameters
      reads this
    {
      [vps, sps, pps]
    }

    // formatUpdaterH265: each parameter set is compared with the one stored before the unit.
    method Update(au: seq<NALU>)
      modifies this
      ensures View() == AccessUnits.Update(H265, old(View()), au)
    {
      var vps1, sps1, pps1, update := vps, sps, pps, false;
      for k := 0 to |au|
        invariant vps1 == LastDifferent(H265, vps, au[..k], 0)
        invariant sps1 == LastDifferent(H265, sps, au[..k], 1)
        invariant pps1 == LastDifferent(H265, pps, au[..k], 2)
        invariant !update ==> vps1 == vps && sps1 == sps && pps1 == pps
        invariant unchanged(this)
      {
        assert au[..k + 1][..k] == au[..k];
        var nalu := au[k];
        var typ := TypeH265(nalu);
        if typ == 32 {
          if vps != Some(nalu) {
            vps1, update := Some(nalu), true;
          }
        } else if typ == 33 {
          if sps != Some(nalu) {
            sps1, update := Some(nalu), true;
          }
        } else if typ == 34 {
          if pps != Some(nalu) {
            pps1, update := Some(nalu), true;
          }
        }
      }
      assert au[..|au|] == au;
      if update {
        vps, sps, pps := vps1, sps1, pps1;
      }
    }

    // Whether the parameters that a key frame needs are all known.
    predicate HasParameters()
      reads this
      ensures HasParameters() == AllSet(View())
    {
      assert View()[0] == vps && View()[1] == sps && View()[2] == pps;
      vps.Some? && sps.Some? && pps.Some?
    }

    // The first pass of unitRemuxerH265: how many NALUs the second one keeps, parameters included.
    method Count(au: seq<NALU>) returns (isKeyFrame: bool, n: nat)
      ensures isKeyFrame == HasKey(H265, au)
      ensures n == |AccessUnits.Remux(H265, View(), au)|
    {
      isKeyFrame, n := false, 0;
      for k := 0 to |au|
        invariant isKeyFrame == HasKey(H265, au[..k])
        invariant n == |Filter(H265, au[..k])| + (if isKeyFrame && HasParameters() then 3 else 0)
      {
        FilterNext(H265, au, k);
        hide Filter, HasKey;
        var typ := TypeH265(au[k]);
        if typ == 32 || typ == 33 || typ == 34 {
          continue;
        } else if typ == 35 {
          continue;
        } else if typ == 19 || typ == 20 || typ == 21 {
          if !isKeyFrame {
            isKeyFrame := true;
            if HasParameters() {
              n := n + 3;
            }
          }
        }
        n := n + 1;
      }
      assert au[..|au|] == au;
    }

    // The second pass, from the slot after the parameters on.
    method Fill(au: seq<NALU>, filtered: array<seq<byte>>, start: nat)
      requires filtered.Length == start + |Filter(H265, au)|
      modifies filtered
      ensures filtered[..] == old(filtered[..start]) + Filter(H265, au)
    {
      hide IsKept, KindOf, TypeH265;
      var i := start;
      ghost var head := filtered[..start];
      for k := 0 to |au|
        invariant i == start + |Filter(H265, au[..k])| <= filtered.Length
        invariant filtered[..i] == head + Filter(H265, au[..k])
      {
        FilterNext(H265, au, k);
        FilterGrows(H265, au, k + 1);
        KeptTypes(au[k]);
        hide Filter;
        var typ := TypeH265(au[k]);
        if typ == 32 || typ == 33 || typ == 34 {
          continue;
        } else if typ == 35 {
          continue;
        }
        filtered[i] := au[k];
        i := i + 1;
      }
      assert au[..|au|] == au && filtered[..] == filtered[..i];
    }

    // unitRemuxerH265: what the first pass counted is filled exactly. Null stands for no NALUs.
    method Remux(au: seq<NALU>) returns (filtered: array?<seq<byte>>)
      ensures filtered == null <==> AccessUnits.Remux(H265, View(), au) == []
      ensures filtered != null ==> fresh(filtered) && filtered[..] == AccessUnits.Remux(H265, View(), au)
    {
      hide HasKey, Filter;
      var isKeyFrame, n := Count(au);
      if n == 0 {
        return null;
      }
      filtered := new seq<byte>[n](_ => []);
      var i := 0;
      if isKeyFrame && HasParameters() {
        filtered[0] := vps.value;
        filtered[1] := sps.value;
        filtered[2] := pps.value;
        i := 3;
        assert filtered[..i] == Values(View());
      }
      hide Values, AllSet;
      Fill(au, filtered, i);
    }
  }
}
