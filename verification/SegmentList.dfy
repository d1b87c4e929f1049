/** playback/on_list.go: the recordings that a list of files amounts to. */
module SegmentList {
  import opened Wrappers
  import opened SegmentFile

  datatype Parsed = Parsed(start: int, duration: int, init: Init) {
    function End(): int {
      start + duration
    }
  }

  datatype Entry = Entry(start: int, duration: int)

  predicate Joined(a: Parsed, b: Parsed) {
    CanBeConcatenated(a.init, a.End(), b.init, b.start)
  }

  function Flatten(groups: seq<seq<Parsed>>): seq<Parsed> {
    if groups == [] then [] else Flatten(groups[..|groups| - 1]) + groups[|groups| - 1]
  }

  predicate IsRun(g: seq<Parsed>) {
    g != [] && forall i :: 0 <= i < |g| - 1 ==> Joined(g[i], g[i + 1])
  }

  predicate AreApart(a: seq<Parsed>, b: seq<Parsed>)
    requires a != [] && b != []
  {
    !Joined(a[|a| - 1], b[0])
  }

  // Runs that together are the files, none of which continues the one before it.
  predicate AreMaximalRuns(groups: seq<seq<Parsed>>, parsed: seq<Parsed>) {
    && Flatten(groups) == parsed
    && (forall i :: 0 <= i < |groups| ==> IsRun(groups[i]))
    && (forall i :: 0 <= i < |groups| - 1 ==> AreApart(groups[i], groups[i + 1]))
  }

  // One entry for a run, from the start of its first file to the end of its last one.
  function EntryOf(g: seq<Parsed>): Entry
    requires g != []
  {
    Entry(g[0].start, g[|g| - 1].End() - g[0].start)
  }

  function EntriesOf(groups: seq<seq<Parsed>>): (r: seq<Entry>)
    requires forall i :: 0 <= i < |groups| ==> groups[i] != []
    ensures |r| == |groups|
  {
    seq(|groups|, i requires 0 <= i < |groups| => EntryOf(groups[i]))
  }

  // The last run takes one more file.
  lemma RunGrows(groups: seq<seq<Parsed>>, parsed: seq<Parsed>, p: Parsed)
    requires AreMaximalRuns(groups, parsed) && groups != []
    requires Joined(parsed[|parsed| - 1], p)
    ensures parsed != [] && AreMaximalRuns(groups[|groups| - 1 := groups[|groups| - 1] + [p]], parsed + [p])
  {
    var n := |groups| - 1;
    var more := groups[n := groups[n] + [p]];
    FlattenLast(groups);
    assert more[..n] == groups[..n];
    assert IsRun(groups[n]);
    forall i | 0 <= i < |more| - 1 ensures AreApart(more[i], more[i + 1]) {
      assert AreApart(groups[i], groups[i + 1]);
    }
  }

  lemma RunStarts(groups: seq<seq<Parsed>>, parsed: seq<Parsed>, p: Parsed)
    requires AreMaximalRuns(groups, parsed) && (groups != [] ==> parsed != [] && !Joined(parsed[|parsed| - 1], p))
    ensures AreMaximalRuns(groups + [[p]], parsed + [p])
  {
    var more := groups + [[p]];
    assert more[..|groups|] == groups;
    if groups != [] {
      FlattenLast(groups);
    }
    forall i | 0 <= i < |more| - 1 ensures AreApart(more[i], more[i + 1]) {
      if i < |groups| - 1 {
        assert AreApart(groups[i], groups[i + 1]);
      }
    }
  }

  lemma FlattenLast(groups: seq<seq<Parsed>>)
    requires groups != [] && groups[|groups| - 1] != []
    ensures var f, g := Flatten(groups), groups[|groups| - 1];
            f != [] && f[|f| - 1] == g[|g| - 1]
  {
  }

  // Each file continues the last run or starts a new one.
  function Runs(parsed: seq<Parsed>): (groups: seq<seq<Parsed>>)
    ensures forall i :: 0 <= i < |groups| ==> groups[i] != []
    ensures groups == [] <==> parsed == []
  {
    if parsed == [] then []
    else
      var n := |parsed| - 1;
      var before := Runs(parsed[..n]);
      if n > 0 && Joined(parsed[n - 1], parsed[n]) then before[|before| - 1 := before[|before| - 1] + [parsed[n]]]
      else before + [[parsed[n]]]
  }

  lemma {:induction false} RunsAreMaximal(parsed: seq<Parsed>)
    ensures AreMaximalRuns(Runs(parsed), parsed)
  {
    if parsed != [] {
      var n := |parsed| - 1;
      hide Joined;
      RunsAreMaximal(parsed[..n]);
      assert parsed == parsed[..n] + [parsed[n]];
      if n > 0 && Joined(parsed[n - 1], parsed[n]) {
        RunGrows(Runs(parsed[..n]), parsed[..n], parsed[n]);
      } else {
        RunStarts(Runs(parsed[..n]), parsed[..n], parsed[n]);
      }
    }
  }

  // What one more file does to the entries.
  lemma EntriesGrow(parsed: seq<Parsed>, i: nat)
    requires i < |parsed|
    ensures var before, now := EntriesOf(Runs(parsed[..i])), EntriesOf(Runs(parsed[..i + 1]));
            if i > 0 && Joined(parsed[i - 1], parsed[i])
            then before != []
                 && now == before[|before| - 1 :=
                      before[|before| - 1].(duration := parsed[i].End() - before[|before| - 1].start)]
            else now == before + [Entry(parsed[i].start, parsed[i].duration)]
  {
    hide Joined;
    assert parsed[..i + 1][..i] == parsed[..i];
  }

  // concatenateSegments
  method Concatenate(parsed: seq<Parsed>) returns (out: seq<Entry>)
    ensures out == EntriesOf(Runs(parsed))
    ensures |out| == |Runs(parsed)|
    ensures forall i :: 0 <= i < |out| ==>
              var g := Runs(parsed)[i];
              && out[i].start == g[0].start
              && out[i].start + out[i].duration == g[|g| - 1].start + g[|g| - 1].duration
  {
    hide CanBeConcatenated;
    out := [];
    var prevInit: Option<Init> := None;
    for i := 0 to |parsed|
      invariant out == EntriesOf(Runs(parsed[..i]))
      invariant i > 0 ==> prevInit == Some(parsed[i - 1].init)
      invariant i > 0 ==> out[|out| - 1].start + out[|out| - 1].duration == parsed[i - 1].End()
    {
      var p := parsed[i];
      assert parsed[..i + 1][..i] == parsed[..i];
      if |out| != 0
          && CanBeConcatenated(prevInit.value, out[|out| - 1].start + out[|out| - 1].duration, p.init, p.start) {
        var prevStart := out[|out| - 1].start;
        var curEnd := p.start + p.duration;
        out := out[|out| - 1 := out[|out| - 1].(duration := curEnd - prevStart)];
      } else {
        out := out + [Entry(p.start, p.duration)];
      }
      EntriesGrow(parsed, i);
      prevInit := Some(p.init);
    }
    assert parsed[..|parsed|] == parsed;
  }

  // There is only one way to split the files into maximal runs.
  lemma {:induction false} MaximalRunsAreUnique(a: seq<seq<Parsed>>, b: seq<seq<Parsed>>, parsed: seq<Parsed>)
    requires AreMaximalRuns(a, parsed) && AreMaximalRuns(b, parsed)
    ensures a == b
    decreases |a|
  {
    if a == [] || b == [] {
      if a != [] { FlattenLast(a); }
      if b != [] { FlattenLast(b); }
    } else {
      var m, n := |a| - 1, |b| - 1;
      LastRunsAgree(a, b, parsed);
      var fewer := parsed[..|parsed| - |a[m]|];
      LastRunIsASuffix(a, parsed);
      LastRunIsASuffix(b, parsed);
      MaximalRunsAreUnique(a[..m], b[..n], fewer);
      assert a == a[..m] + [a[m]] && b == b[..n] + [b[n]];
    }
  }

  lemma LastRunIsASuffix(groups: seq<seq<Parsed>>, parsed: seq<Parsed>)
    requires Flatten(groups) == parsed && groups != []
    ensures var g, n := groups[|groups| - 1], |groups| - 1;
            && |g| <= |parsed| && g == parsed[|parsed| - |g|..] && Flatten(groups[..n]) == parsed[..|parsed| - |g|]
  {
  }

  predicate StartsLastRun(parsed: seq<Parsed>, k: int) {
    && 0 <= k < |parsed|
    && (k > 0 ==> !Joined(parsed[k - 1], parsed[k]))
    && (forall i :: k <= i < |parsed| - 1 ==> Joined(parsed[i], parsed[i + 1]))
  }

  lemma LastRunStart(groups: seq<seq<Parsed>>, parsed: seq<Parsed>)
    requires AreMaximalRuns(groups, parsed) && groups != []
    ensures StartsLastRun(parsed, |parsed| - |groups[|groups| - 1]|)
  {
    hide Joined;
    LastRunIsASuffix(groups, parsed);
    var n := |groups| - 1;
    var g := groups[n];
    var k := |parsed| - |g|;
    assert IsRun(g);
    forall i | k <= i < |parsed| - 1 ensures Joined(parsed[i], parsed[i + 1]) {
      assert parsed[i] == g[i - k] && parsed[i + 1] == g[i - k + 1];
    }
    if n > 0 {
      FlattenLast(groups[..n]);
      assert AreApart(groups[n - 1], groups[n - 1 + 1]);
    }
  }

  lemma LastRunsAgree(a: seq<seq<Parsed>>, b: seq<seq<Parsed>>, parsed: seq<Parsed>)
    requires AreMaximalRuns(a, parsed) && AreMaximalRuns(b, parsed) && a != [] && b != []
    ensures a[|a| - 1] == b[|b| - 1]
  {
    LastRunIsASuffix(a, parsed);
    LastRunIsASuffix(b, parsed);
    LastRunStart(a, parsed);
    LastRunStart(b, parsed);
    LastRunIsUnique(parsed, |parsed| - |a[|a| - 1]|, |parsed| - |b[|b| - 1]|);
  }

  lemma LastRunIsUnique(parsed: seq<Parsed>, j: int, k: int)
    requires StartsLastRun(parsed, j) && StartsLastRun(parsed, k)
    ensures j == k
  {
    hide Joined;
    assert k > 0 ==> parsed[k] == parsed[k - 1 + 1];
    assert j > 0 ==> parsed[j] == parsed[j - 1 + 1];
  }
}
