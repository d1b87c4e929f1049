/** ntpestimator/estimator.go: wall-clock time of a unit, extrapolated from its presentation time. */
module NtpEstimator {
  import opened Arith

  const MAX_TIME_DIFFERENCE: int := 5 * SECOND
  const ZERO_TIME: int := 0 // time.Time{}; instants are nanoseconds since it

  datatype Reference = Reference(ntp: int, pts: int)

  datatype Reading = Reading(pts: int, now: int)

  // One estimate: the returned instant and the reference kept for the next call.
  function Next(rate: int, ref: Reference, reading: Reading): (int, Reference)
    requires rate > 0
  {
    var reset := (reading.now, Reference(reading.now, reading.pts));
    if ref.ntp == ZERO_TIME then
      reset
    else
      var computed := ref.ntp + MultiplyAndDivide(reading.pts - ref.pts, SECOND, rate);
      if computed > reading.now || computed < reading.now - MAX_TIME_DIFFERENCE then reset else (computed, ref)
  }

  function Estimates(rate: int, ref: Reference, readings: seq<Reading>): (r: seq<int>)
    requires rate > 0
    ensures |r| == |readings|
    decreases |readings|
  {
    if readings == [] then []
    else
      var (ntp, ref') := Next(rate, ref, readings[0]);
      [ntp] + Estimates(rate, ref', readings[1..])
  }

  class Estimator {
    const clockRate: int
    var refNTP: int
    var refPTS: int

    ghost function Ref(): Reference
      reads this
    {
      Reference(refNTP, refPTS)
    }

    constructor (clockRate: int)
      ensures this.clockRate == clockRate && Ref() == Reference(ZERO_TIME, 0)
    {
      this.clockRate := clockRate;
      refNTP, refPTS := ZERO_TIME, 0;
    }

    // The system clock is read by the caller and passed as `now`.
    method Estimate(pts: int, now: int) returns (ntp: int)
      requires clockRate > 0
      modifies this
      ensures (ntp, Ref()) == Next(clockRate, old(Ref()), Reading(pts, now))
    {
      if refNTP == ZERO_TIME {
        refNTP, refPTS := now, pts;
        return now;
      }
      var computed := refNTP + MultiplyAndDivide(pts - refPTS, SECOND, clockRate);
      if computed > now || computed < now - MAX_TIME_DIFFERENCE {
        refNTP, refPTS := now, pts;
        return now;
      }
      return computed;
    }
  }

  ghost predicate Advancing(readings: seq<Reading>) {
    forall i, j :: 0 <= i < j < |readings| ==>
      readings[i].pts <= readings[j].pts && readings[i].now <= readings[j].now
  }

  // The reference reproduces the last estimate, which lies in the allowed window.
  ghost predicate Tracks(rate: int, ref: Reference, last: Reading, ntp: int)
    requires rate > 0
  {
    && ref.pts <= last.pts
    && ntp == ref.ntp + MultiplyAndDivide(last.pts - ref.pts, SECOND, rate)
    && last.now - MAX_TIME_DIFFERENCE <= ntp <= last.now
  }

  lemma FirstEstimate(rate: int, reading: Reading)
    requires rate > 0
    ensures var (ntp, ref) := Next(rate, Reference(ZERO_TIME, 0), reading);
            Tracks(rate, ref, reading, ntp)
  {
  }

  lemma NextKeepsOrder(rate: int, ref: Reference, last: Reading, ntp: int, reading: Reading)
    requires rate > 0 && Tracks(rate, ref, last, ntp)
    requires last.pts <= reading.pts && last.now <= reading.now
    ensures var (ntp', ref') := Next(rate, ref, reading);
            ntp <= ntp' && Tracks(rate, ref', reading, ntp')
  {
    hide MultiplyAndDivide;
    MultiplyAndDivideMonotone(last.pts - ref.pts, reading.pts - ref.pts, SECOND, rate);
    MultiplyAndDivideZero(SECOND, rate);
  }

  lemma {:induction false} EstimatesFollow(rate: int, ref: Reference, last: Reading, ntp: int, readings: seq<Reading>)
    requires rate > 0 && Tracks(rate, ref, last, ntp)
    requires Advancing([last] + readings)
    ensures var e := [ntp] + Estimates(rate, ref, readings);
            && (forall i, j :: 0 <= i < j < |e| ==> e[i] <= e[j])
            && (forall i :: 0 <= i < |readings| ==>
                  readings[i].now - MAX_TIME_DIFFERENCE <= e[i + 1] <= readings[i].now)
    decreases |readings|
  {
    if readings != [] {
      var all := [last] + readings;
      assert all[0] == last && all[1] == readings[0];
      NextKeepsOrder(rate, ref, last, ntp, readings[0]);
      var (ntp', ref') := Next(rate, ref, readings[0]);
      var rest := readings[1..];
      assert [readings[0]] + rest == all[1..];
      EstimatesFollow(rate, ref', readings[0], ntp', rest);
      var e, e' := [ntp] + Estimates(rate, ref, readings), [ntp'] + Estimates(rate, ref', rest);
      assert e == [ntp] + e';
      forall i | 0 <= i < |readings|
        ensures readings[i].now - MAX_TIME_DIFFERENCE <= e[i + 1] <= readings[i].now
      {
        if i > 0 { assert readings[i] == rest[i - 1] && e[i + 1] == e'[i]; }
      }
      forall i, j | 0 <= i < j < |e| ensures e[i] <= e[j] {
        assert e[j] == e'[j - 1] && e'[0] <= e'[j - 1];
        if i > 0 { assert e[i] == e'[i - 1]; }
      }
    }
  }

  // Whatever the clock rate and however often the reference is reset, time never runs backwards
  // and never leaves the window behind the system clock.
  lemma EstimatesAreOrderedAndRecent(rate: int, readings: seq<Reading>)
    requires rate > 0 && Advancing(readings)
    ensures var e := Estimates(rate, Reference(ZERO_TIME, 0), readings);
            && (forall i, j :: 0 <= i < j < |e| ==> e[i] <= e[j])
            && (forall i :: 0 <= i < |e| ==>
                  readings[i].now - MAX_TIME_DIFFERENCE <= e[i] <= readings[i].now)
  {
    if readings != [] {
      var zero := Reference(ZERO_TIME, 0);
      var (ntp, ref) := Next(rate, zero, readings[0]);
      FirstEstimate(rate, readings[0]);
      assert [readings[0]] + readings[1..] == readings;
      EstimatesFollow(rate, ref, readings[0], ntp, readings[1..]);
      var e := Estimates(rate, zero, readings);
      assert e == [ntp] + Estimates(rate, ref, readings[1..]);
      forall i | 0 <= i < |e|
        ensures readings[i].now - MAX_TIME_DIFFERENCE <= e[i] <= readings[i].now
      {
        if i > 0 { assert readings[i] == readings[1..][i - 1]; }
      }
    }
  }

  // ---- estimates follow the PTS ----

  // What the k-th reading would be by the r-th one: its instant plus the distance of the PTS.
  function Extrapolated(rate: int, readings: seq<Reading>, r: nat, k: nat): int
    requires rate > 0 && r < |readings| && k < |readings|
  {
    readings[r].now + ToDuration(readings[k].pts - readings[r].pts, rate)
  }

  predicate IsUsable(rate: int, readings: seq<Reading>, r: nat, k: nat)
    requires rate > 0 && r < |readings| && k < |readings|
  {
    && readings[r].now != ZERO_TIME
    && readings[k].now - 5_000_000_000 <= Extrapolated(rate, readings, r, k) <= readings[k].now
  }

  // The k-th estimate is extrapolated from the reading refs[k], which is the one before it as long as that is usable.
  predicate Follows(rate: int, readings: seq<Reading>, estimates: seq<int>, refs: seq<nat>, k: nat)
    requires rate > 0 && k < |readings| == |estimates| && k < |refs|
  {
    && refs[k] <= k
    && estimates[k] == Extrapolated(rate, readings, refs[k], k)
    && (refs[k] == k ==> estimates[k] == readings[k].now)
    && (k == 0 || (refs[k - 1] < k && refs[k] == if IsUsable(rate, readings, refs[k - 1], k) then refs[k - 1] else k))
  }

  // Over any run, every reading is answered from the reading that the reference was taken from, as long as that gives
  // an instant in the window, and from itself otherwise: then it is the clock, and the new reference.
  lemma EstimatesFollowThePTS(rate: int, readings: seq<Reading>) returns (refs: seq<nat>)
    requires rate > 0
    ensures |refs| == |readings|
    ensures forall k :: 0 <= k < |readings| ==>
              Follows(rate, readings, Estimates(rate, Reference(ZERO_TIME, 0), readings), refs, k)
  {
    var e, n, ref := Estimates(rate, Reference(ZERO_TIME, 0), readings), 0, Reference(ZERO_TIME, 0);
    refs := [];
    assert readings[0..] == readings && e[0..] == e;
    while n < |readings|
      invariant |refs| == n <= |readings| && e[n..] == Estimates(rate, ref, readings[n..])
      invariant n == 0 ==> ref.ntp == ZERO_TIME
      invariant n > 0 ==> refs[n - 1] < n && ref == Reference(readings[refs[n - 1]].now, readings[refs[n - 1]].pts)
      invariant forall k :: 0 <= k < n ==> Follows(rate, readings, e, refs, k)
    {
      hide MultiplyAndDivide, Follows;
      var next := if n > 0 && IsUsable(rate, readings, refs[n - 1], n) then refs[n - 1] else n;
      NextFollows(rate, readings, e, refs, ref, n, next);
      refs := refs + [next];
      assert readings[n..][1..] == readings[n + 1..] && e[n..][1..] == e[n + 1..];
      ref, n := Reference(readings[next].now, readings[next].pts), n + 1;
    }
  }

  lemma NextFollows(rate: int, readings: seq<Reading>, e: seq<int>, refs: seq<nat>, ref: Reference, n: nat, next: nat)
    requires rate > 0 && |refs| == n < |readings| == |e|
    requires if n == 0 then ref.ntp == ZERO_TIME
             else refs[n - 1] < n && ref == Reference(readings[refs[n - 1]].now, readings[refs[n - 1]].pts)
    requires next == if n > 0 && IsUsable(rate, readings, refs[n - 1], n) then refs[n - 1] else n
    requires e[n..] == Estimates(rate, ref, readings[n..])
    requires forall k :: 0 <= k < n ==> Follows(rate, readings, e, refs, k)
    ensures forall k :: 0 <= k <= n ==> Follows(rate, readings, e, refs + [next], k)
    ensures e[n..][1..] == Estimates(rate, Reference(readings[next].now, readings[next].pts), readings[n..][1..])
  {
    MultiplyAndDivideZero(SECOND, rate);
    hide MultiplyAndDivide;
    assert e[n] == e[n..][0] && readings[n] == readings[n..][0];
    assert Extrapolated(rate, readings, n, n) == readings[n].now;
    assert Follows(rate, readings, e, refs + [next], n);
    forall k | 0 <= k < n ensures Follows(rate, readings, e, refs + [next], k) {
      assert Follows(rate, readings, e, refs, k);
    }
  }

  // The distance is exact to 1 ns, and rounded towards the reading it starts from.
  lemma ExtrapolationIsExact(rate: int, readings: seq<Reading>, r: nat, k: nat)
    requires rate > 0 && r < |readings| && k < |readings|
    ensures var exact := (readings[k].pts - readings[r].pts) * SECOND;
            var distance := (Extrapolated(rate, readings, r, k) - readings[r].now) * rate;
            if exact >= 0 then exact - rate < distance <= exact else exact <= distance < exact + rate
  {
    MultiplyAndDivideBounds(readings[k].pts - readings[r].pts, SECOND, rate);
    hide MultiplyAndDivide;
  }
}
