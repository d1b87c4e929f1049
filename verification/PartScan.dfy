/** playback/segment_fmp4.go: the walk over moof and mdat boxes that looks for the last complete part of a file. */
module PartScan {
  import opened Bytes

  const FTYP: seq<byte> := [0x66, 0x74, 0x79, 0x70]
  const MOOV: seq<byte> := [0x6D, 0x6F, 0x6F, 0x76]
  const MOOF: seq<byte> := [0x6D, 0x6F, 0x6F, 0x66]
  const MDAT: seq<byte> := [0x6D, 0x64, 0x61, 0x74]

  // A box header: 32 bits of size, which counts the header itself but may say anything, and 4 bytes of type.
  predicate HasBox(b: seq<byte>, p: nat, boxType: seq<byte>) {
    p + 8 <= |b| && b[p + 4..p + 8] == boxType
  }

  function BoxSize(b: seq<byte>, p: nat): (n: nat)
    requires p + 8 <= |b|
    ensures n < 0x1_0000_0000
  {
    (b[p] as int) * 0x100_0000 + (b[p + 1] as int) * 0x1_0000 + (b[p + 2] as int) * 0x100 + b[p + 3] as int
  }

  // A moof whose size leads to an mdat; what it says may be false, so both may overlap.
  predicate HasPart(b: seq<byte>, p: nat) {
    HasBox(b, p, MOOF) && HasBox(b, p + BoxSize(b, p), MDAT)
  }

  function AfterPart(b: seq<byte>, p: nat): nat
    requires HasPart(b, p)
  {
    var mdat := p + BoxSize(b, p);
    mdat + BoxSize(b, mdat)
  }

  // No offset holds both a moof and an mdat, so a box of size 0 never holds the walk where it is.
  lemma PartMovesForward(b: seq<byte>, p: nat)
    requires HasPart(b, p)
    ensures p < AfterPart(b, p) && p < |b|
  {
    assert MOOF[1] != MDAT[1];
    assert BoxSize(b, p) != 0;
  }

  // The walk from p passes n parts and arrives at q.
  predicate Walks(b: seq<byte>, p: nat, q: nat, n: nat)
    decreases n
  {
    if n == 0 then p == q
    else HasPart(b, p) && Walks(b, AfterPart(b, p), q, n - 1)
  }

  lemma {:induction false} WalksOneMore(b: seq<byte>, p: nat, q: nat, n: nat)
    requires Walks(b, p, q, n) && HasPart(b, q)
    ensures Walks(b, p, AfterPart(b, q), n + 1)
    decreases n
  {
    hide HasPart, AfterPart;
    if n > 0 {
      WalksOneMore(b, AfterPart(b, p), q, n - 1);
    } else {
      assert Walks(b, AfterPart(b, q), AfterPart(b, q), 0);
    }
  }

  // The last part that the walk from p passes.
  ghost predicate IsLastPart(b: seq<byte>, p: nat, q: nat) {
    && HasPart(b, q) && !HasPart(b, AfterPart(b, q))
    && exists n :: Walks(b, p, q, n)
  }

  // There is at most one: the walk has no choice.
  lemma LastPartIsUnique(b: seq<byte>, p: nat, q: nat, r: nat)
    requires IsLastPart(b, p, q) && IsLastPart(b, p, r)
    ensures q == r
  {
    var m :| Walks(b, p, q, m);
    var n :| Walks(b, p, r, n);
    WalksAgree(b, p, q, m, r, n);
  }

  lemma {:induction false} WalksAgree(b: seq<byte>, p: nat, q: nat, m: nat, r: nat, n: nat)
    requires Walks(b, p, q, m) && HasPart(b, q) && !HasPart(b, AfterPart(b, q))
    requires Walks(b, p, r, n) && HasPart(b, r) && !HasPart(b, AfterPart(b, r))
    ensures q == r && m == n
    decreases m
  {
    hide HasPart, AfterPart;
    if m > 0 && n > 0 {
      WalksAgree(b, AfterPart(b, p), q, m - 1, r, n - 1);
    }
  }

  datatype Result = Unreadable | NoParts | Found(moofPos: nat)

  predicate HasHeader(b: seq<byte>) {
    HasBox(b, 0, FTYP) && HasBox(b, BoxSize(b, 0), MOOV)
  }

  function HeaderEnd(b: seq<byte>): nat
    requires HasHeader(b)
  {
    BoxSize(b, 0) + BoxSize(b, BoxSize(b, 0))
  }

  // io.ReadFull of 8 bytes; None at the end of the file.
  method ReadHeader(b: seq<byte>, pos: nat) returns (ok: bool, size: nat, boxType: seq<byte>)
    ensures ok <==> pos + 8 <= |b|
    ensures ok ==> size == BoxSize(b, pos) && boxType == b[pos + 4..pos + 8]
  {
    if pos + 8 > |b| {
      return false, 0, [];
    }
    return true, BoxSize(b, pos), b[pos + 4..pos + 8];
  }

  // A moof and the mdat after it; next is where the box after them should be.
  method SkipPart(b: seq<byte>, pos: nat) returns (ok: bool, next: nat)
    ensures ok <==> HasPart(b, pos)
    ensures ok ==> next == AfterPart(b, pos)
  {
    hide BoxSize;
    var moofSize, mdatSize, boxType;
    ok, moofSize, boxType := ReadHeader(b, pos);
    if !ok || boxType != MOOF {
      return false, pos;
    }
    next := pos + moofSize;
    ok, mdatSize, boxType := ReadHeader(b, next);
    if !ok || boxType != MDAT {
      return false, pos;
    }
    return true, next + mdatSize;
  }

  // segmentFMP4ReadDurationFromParts, as far as the last part. It ends on every content, whatever the sizes say.
  method FindLastPart(b: seq<byte>) returns (result: Result)
    ensures result.Unreadable? <==> !HasHeader(b)
    ensures result.NoParts? <==> HasHeader(b) && !HasPart(b, HeaderEnd(b))
    ensures result.Found? ==> HasHeader(b) && IsLastPart(b, HeaderEnd(b), result.moofPos)
  {
    hide BoxSize, HasPart, AfterPart;
    var ok, ftypSize, boxType := ReadHeader(b, 0);
    if !ok || boxType != FTYP {
      return Unreadable;
    }
    var moovSize;
    ok, moovSize, boxType := ReadHeader(b, ftypSize);
    if !ok || boxType != MOOV {
      return Unreadable;
    }
    var pos, lastMoofPos: int := ftypSize + moovSize, -1;
    ghost var passed: nat := 0;
    while true
      invariant HasHeader(b) && Walks(b, HeaderEnd(b), pos, passed)
      invariant lastMoofPos < 0 <==> passed == 0
      invariant lastMoofPos >= 0 ==> HasPart(b, lastMoofPos) && AfterPart(b, lastMoofPos) == pos
                                     && Walks(b, HeaderEnd(b), lastMoofPos, passed - 1)
      invariant passed > 0 ==> HasPart(b, HeaderEnd(b))
      decreases |b| - pos
    {
      var next;
      ok, next := SkipPart(b, pos);
      if !ok {
        break;
      }
      PartMovesForward(b, pos);
      WalksOneMore(b, HeaderEnd(b), pos, passed);
      lastMoofPos, pos, passed := pos, next, passed + 1;
    }
    if lastMoofPos < 0 {
      return NoParts;
    }
    return Found(lastMoofPos);
  }

  // ---- files that consist of boxes ----

  function BigEndian(n: nat): (r: seq<byte>)
    requires n < 0x1_0000_0000
    ensures |r| == 4
  {
    [n / 0x100_0000, n / 0x1_0000 % 0x100, n / 0x100 % 0x100, n % 0x100]
  }

  predicate IsBoxable(payload: seq<byte>) {
    |payload| + 8 < 0x1_0000_0000
  }

  // A box as it is written: its size, its type and what it holds.
  function BoxOf(boxType: string, payload: seq<byte>): (r: seq<byte>)
    requires |boxType| == 4 && (forall i :: 0 <= i < 4 ==> boxType[i] < '\U{80}') && IsBoxable(payload)
    ensures |r| == |payload| + 8
  {
    BigEndian(|payload| + 8) + seq(4, i requires 0 <= i < 4 => boxType[i] as int) + payload
  }

  datatype Part = Part(moof: seq<byte>, mdat: seq<byte>)

  predicate AreBoxable(ps: seq<Part>) {
    forall i :: 0 <= i < |ps| ==> IsBoxable(ps[i].moof) && IsBoxable(ps[i].mdat)
  }

  function PartBytes(p: Part): seq<byte>
    requires IsBoxable(p.moof) && IsBoxable(p.mdat)
  {
    BoxOf("moof", p.moof) + BoxOf("mdat", p.mdat)
  }

  function PartsBytes(ps: seq<Part>): seq<byte>
    requires AreBoxable(ps)
  {
    if ps == [] then [] else PartsBytes(ps[..|ps| - 1]) + PartBytes(ps[|ps| - 1])
  }

  function HeaderBytes(ftyp: seq<byte>, moov: seq<byte>): seq<byte>
    requires IsBoxable(ftyp) && IsBoxable(moov)
  {
    BoxOf("ftyp", ftyp) + BoxOf("moov", moov)
  }

  lemma DigitsAddUp(n: nat)
    ensures n / 0x100_0000 * 0x100_0000 + n / 0x1_0000 % 0x100 * 0x1_0000 + n / 0x100 % 0x100 * 0x100 + n % 0x100 == n
  {
    assert n / 0x1_0000 == n / 0x100 / 0x100;
    assert n / 0x100_0000 == n / 0x1_0000 / 0x100;
  }

  lemma SizeIsRead(b: seq<byte>, p: nat, n: nat)
    requires n < 0x1_0000_0000 && p + 8 <= |b| && b[p..p + 4] == BigEndian(n)
    ensures BoxSize(b, p) == n
  {
    DigitsAddUp(n);
    assert b[p] == b[p..p + 4][0] && b[p + 1] == b[p..p + 4][1];
    assert b[p + 2] == b[p..p + 4][2] && b[p + 3] == b[p..p + 4][3];
  }

  // A box that was written is read back wherever it stands.
  lemma BoxIsRead(b: seq<byte>, before: seq<byte>, boxType: string, payload: seq<byte>, rest: seq<byte>)
    requires |boxType| == 4 && (forall i :: 0 <= i < 4 ==> boxType[i] < '\U{80}') && IsBoxable(payload)
    requires b == before + BoxOf(boxType, payload) + rest
    ensures var p := |before|;
            && p + 8 <= |b| && BoxSize(b, p) == |payload| + 8
            && forall i :: 0 <= i < 4 ==> b[p + 4 + i] == boxType[i] as int
  {
    var p, box := |before|, BoxOf(boxType, payload);
    assert b[p..p + 4] == box[..4] == BigEndian(|payload| + 8);
    SizeIsRead(b, p, |payload| + 8);
    hide BoxSize;
    forall i | 0 <= i < 4 ensures b[p + 4 + i] == boxType[i] as int {
      assert b[p + 4 + i] == box[4 + i];
    }
  }

  lemma TypeIsRead(b: seq<byte>, before: seq<byte>, boxType: string, payload: seq<byte>, rest: seq<byte>, t: seq<byte>)
    requires |boxType| == 4 && (forall i :: 0 <= i < 4 ==> boxType[i] < '\U{80}') && IsBoxable(payload)
    requires b == before + BoxOf(boxType, payload) + rest
    requires |t| == 4 && forall i :: 0 <= i < 4 ==> t[i] == boxType[i] as int
    ensures HasBox(b, |before|, t) && BoxSize(b, |before|) == |payload| + 8
  {
    BoxIsRead(b, before, boxType, payload, rest);
    hide BoxSize, BoxOf;
  }

  lemma PartIsRead(b: seq<byte>, before: seq<byte>, p: Part, rest: seq<byte>)
    requires IsBoxable(p.moof) && IsBoxable(p.mdat) && b == before + PartBytes(p) + rest
    ensures HasPart(b, |before|) && AfterPart(b, |before|) == |before| + |PartBytes(p)|
  {
    hide BoxOf, BoxSize;
    var moof, mdat := BoxOf("moof", p.moof), BoxOf("mdat", p.mdat);
    assert b == before + moof + (mdat + rest);
    assert b == (before + moof) + mdat + rest;
    TypeIsRead(b, before, "moof", p.moof, mdat + rest, MOOF);
    TypeIsRead(b, before + moof, "mdat", p.mdat, rest, MDAT);
  }

  lemma {:induction false} PartsSplit(ps: seq<Part>, k: nat) returns (rest: seq<byte>)
    requires AreBoxable(ps) && k < |ps|
    ensures PartsBytes(ps) == PartsBytes(ps[..k]) + PartBytes(ps[k]) + rest
    decreases |ps|
  {
    var n := |ps| - 1;
    hide PartBytes;
    if k == n {
      rest := [];
    } else {
      var r := PartsSplit(ps[..n], k);
      assert ps[..n][..k] == ps[..k];
      rest := r + PartBytes(ps[n]);
    }
  }

  lemma {:induction false} WalksOver(b: seq<byte>, before: seq<byte>, ps: seq<Part>, tail: seq<byte>, k: nat)
    requires AreBoxable(ps) && k <= |ps| && b == before + PartsBytes(ps) + tail
    ensures Walks(b, |before|, |before| + |PartsBytes(ps[..k])|, k)
    ensures k < |ps| ==>
              var p := |before| + |PartsBytes(ps[..k])|;
              HasPart(b, p) && AfterPart(b, p) == |before| + |PartsBytes(ps[..k + 1])|
  {
    hide PartBytes, HasPart, AfterPart;
    if k > 0 {
      WalksOver(b, before, ps, tail, k - 1);
      WalksOneMore(b, |before|, |before| + |PartsBytes(ps[..k - 1])|, k - 1);
    }
    if k < |ps| {
      var rest := PartsSplit(ps, k);
      assert b == (before + PartsBytes(ps[..k])) + PartBytes(ps[k]) + (rest + tail);
      PartIsRead(b, before + PartsBytes(ps[..k]), ps[k], rest + tail);
      assert ps[..k + 1][..k] == ps[..k];
    }
  }

  // In a file of a header and parts, and whatever follows that is not another part, the last part is the one that the
  // search is for.
  lemma LastPartOfAFile(ftyp: seq<byte>, moov: seq<byte>, ps: seq<Part>, tail: seq<byte>)
    requires IsBoxable(ftyp) && IsBoxable(moov) && AreBoxable(ps)
    requires var whole := HeaderBytes(ftyp, moov) + PartsBytes(ps); !HasPart(whole + tail, |whole|)
    ensures var b := HeaderBytes(ftyp, moov) + PartsBytes(ps) + tail;
            && HasHeader(b) && HeaderEnd(b) == |HeaderBytes(ftyp, moov)|
            && (ps == [] ==> !HasPart(b, HeaderEnd(b)))
            && (ps != [] ==> IsLastPart(b, HeaderEnd(b), HeaderEnd(b) + |PartsBytes(ps[..|ps| - 1])|))
  {
    hide HeaderBytes, HasPart, AfterPart, PartBytes, HasHeader, HeaderEnd, IsLastPart, PartsBytes;
    var h := HeaderBytes(ftyp, moov);
    var b := h + PartsBytes(ps) + tail;
    assert b == h + (PartsBytes(ps) + tail);
    HeaderIsRead(b, ftyp, moov, PartsBytes(ps) + tail);
    if ps != [] {
      LastOfParts(b, h, ps, tail);
    } else {
      NoPartsNoBytes(ps);
    }
  }

  lemma NoPartsNoBytes(ps: seq<Part>)
    requires ps == []
    ensures PartsBytes(ps) == []
  {
  }

  lemma LastOfParts(b: seq<byte>, before: seq<byte>, ps: seq<Part>, tail: seq<byte>)
    requires AreBoxable(ps) && ps != [] && b == before + PartsBytes(ps) + tail
    requires !HasPart(b, |before| + |PartsBytes(ps)|)
    ensures IsLastPart(b, |before|, |before| + |PartsBytes(ps[..|ps| - 1])|)
  {
    hide HasPart, AfterPart, PartBytes, PartsBytes;
    WalksOver(b, before, ps, tail, |ps| - 1);
    assert ps[..|ps| - 1 + 1] == ps;
  }

  lemma HeaderIsRead(b: seq<byte>, ftyp: seq<byte>, moov: seq<byte>, rest: seq<byte>)
    requires IsBoxable(ftyp) && IsBoxable(moov) && b == HeaderBytes(ftyp, moov) + rest
    ensures HasHeader(b) && HeaderEnd(b) == |HeaderBytes(ftyp, moov)|
  {
    hide BoxOf, BoxSize;
    var x, y := BoxOf("ftyp", ftyp), BoxOf("moov", moov);
    assert b == [] + x + (y + rest) && b == x + y + rest;
    TypeIsRead(b, [], "ftyp", ftyp, y + rest, FTYP);
    TypeIsRead(b, x, "moov", moov, rest, MOOV);
  }
}
