/** Cutting an mp3 stream, however it arrives, into length-prefixed pieces of
    whole frames. */
module Mp3Frames {
  import opened Prelude
  import opened Encode
  import opened Streaming

  const FIRST_PIECE_BYTES := 48 * 1024
  const MAX_PIECE_BYTES := 256 * 1024
  const READ_BYTES := 32 * 1024

  // ----- units

  datatype Unit = NeedMore | BadHeader | Size(n: nat)

  const LAYER_3_KBPS_1: seq<nat> := [0, 32, 40, 48, 56, 64, 80, 96, 112, 128, 160, 192, 224, 256, 320]
  const LAYER_3_KBPS_2: seq<nat> := [0, 8, 16, 24, 32, 40, 48, 56, 64, 80, 96, 112, 128, 144, 160]

  function SampleRates(version: nat): seq<nat> {
    if version == 3 then [44100, 48000, 32000]
    else if version == 2 then [22050, 24000, 16000]
    else if version == 0 then [11025, 12000, 8000]
    else []
  }

  /** The length of the frame a layer III header starts: 144 (or 72) times the
      bit rate over the sample rate, plus a padding byte. */
  function FrameSize(h: seq<Byte>): (r: Option<nat>)
    requires |h| >= 4
    ensures r.Some? ==> 24 <= r.value <= 1441
  {
    if h[0] != 0xff || h[1] / 32 != 7 then None else
    var version, layer := h[1] / 8 % 4, h[1] / 2 % 4;
    var bitrate, rate := h[2] / 16, h[2] / 4 % 4;
    var rates := SampleRates(version);
    if rates == [] || layer != 1 || bitrate == 0 || bitrate == 15 || rate == 3 then None else
    var padding := h[2] / 2 % 2;
    if version == 3 then
      Mpeg1Size(LAYER_3_KBPS_1[bitrate], rates[rate]);
      Some(144000 * LAYER_3_KBPS_1[bitrate] / rates[rate] + padding)
    else
      Mpeg2Size(LAYER_3_KBPS_2[bitrate], rates[rate]);
      Some(72000 * LAYER_3_KBPS_2[bitrate] / rates[rate] + padding)
  }

  /** The bounds, rate by rate. */
  lemma Mpeg1Size(kbps: nat, rate: nat)
    requires 32 <= kbps <= 320 && (rate == 44100 || rate == 48000 || rate == 32000)
    ensures 24 <= 144000 * kbps / rate <= 1440
  {
  }

  lemma Mpeg2Size(kbps: nat, rate: nat)
    requires 8 <= kbps <= 160
    requires rate == 22050 || rate == 24000 || rate == 16000 || rate == 11025 || rate == 12000 || rate == 8000
    ensures 24 <= 72000 * kbps / rate <= 1440
  {
  }

  function SevenBits(x: Byte): (n: nat)
    ensures n < 128
  {
    x % 128
  }

  /** What `b` starts with: a tag, whose four size bytes count seven bits each and
      whose footer flag means ten bytes more, or an audio frame, or neither. */
  function NextUnit(b: seq<Byte>): Unit {
    if |b| < 4 then NeedMore else
    if b[..3] == [0x49, 0x44, 0x33] then
      if |b| < 10 then NeedMore else
      var size := 10 + SevenBits(b[6]) * 0x20_0000 + SevenBits(b[7]) * 0x4000 + SevenBits(b[8]) * 128 + SevenBits(b[9]);
      var whole := if b[5] / 16 % 2 == 1 then size + 10 else size;
      if |b| >= whole then Size(whole) else NeedMore
    else if b[..3] == [0x54, 0x41, 0x47] then
      if |b| >= 128 then Size(128) else NeedMore
    else
      match FrameSize(b)
      case None => BadHeader
      case Some(size) => if |b| >= size then Size(size) else NeedMore
  }

  const MAX_UNIT := 10 + 0x1000_0000 + 10

  /** Every unit has a size, and none is larger than an ID3 tag can be. */
  lemma UnitSizes(b: seq<Byte>)
    ensures NextUnit(b).Size? ==> 0 < NextUnit(b).n <= |b|
    ensures NextUnit(b) == NeedMore ==> |b| < MAX_UNIT
  {
  }

  /** A unit or a bad header stays what it is whatever follows it. */
  lemma UnitStays(b: seq<Byte>, more: seq<Byte>)
    requires NextUnit(b) != NeedMore
    ensures NextUnit(b + more) == NextUnit(b)
  {
    assert (b + more)[..3] == b[..3];
    if FrameSize(b).Some? || FrameSize(b).None? {
      assert FrameSize(b + more) == FrameSize(b);
    }
  }

  // ----- whole streams

  datatype Verdict = WholeUnits | Broken | Inside

  /** What a stream is, read unit by unit. */
  function Judge(b: seq<Byte>): Verdict
    decreases |b|
  {
    UnitSizes(b);
    if b == [] then WholeUnits else
    match NextUnit(b)
    case BadHeader => Broken
    case NeedMore => Inside
    case Size(n) => Judge(b[n..])
  }

  /** Whole units in front do not change what follows. */
  lemma {:induction false} JudgeAfter(a: seq<Byte>, b: seq<Byte>)
    requires Judge(a) == WholeUnits
    ensures Judge(a + b) == Judge(b)
    decreases |a|
  {
    if a == [] {
      assert a + b == b;
    } else {
      UnitSizes(a);
      UnitStays(a, b);
      var n := NextUnit(a).n;
      assert (a + b)[n..] == a[n..] + b;
      JudgeAfter(a[n..], b);
    }
  }

  lemma BrokenStays(a: seq<Byte>, b: seq<Byte>)
    requires NextUnit(a) == BadHeader
    ensures a + b != [] && Judge(a + b) == Broken
  {
    UnitStays(a, b);
  }

  // ----- pieces

  /** The size the next piece must reach after `k` pieces. */
  function Target(k: nat): nat {
    if k == 0 then FIRST_PIECE_BYTES else Min(Target(k - 1) * 2, MAX_PIECE_BYTES)
  }

  lemma {:induction false} TargetDoubles(k: nat)
    ensures FIRST_PIECE_BYTES <= Target(k) <= MAX_PIECE_BYTES
    ensures k >= 3 ==> Target(k) == MAX_PIECE_BYTES
  {
    if k > 0 {
      TargetDoubles(k - 1);
      assert k == 3 ==> Target(0) == 48 * 1024 && Target(1) == 96 * 1024 && Target(2) == 192 * 1024;
    }
  }

  /** A piece that can be decoded on its own and counted by its prefix. */
  predicate GoodPiece(p: seq<Byte>) { p != [] && Judge(p) == WholeUnits && |p| < LIMIT_32 }

  predicate GoodPieces(ps: seq<seq<Byte>>) { forall i :: 0 <= i < |ps| ==> GoodPiece(ps[i]) }

  predicate ReachTargets(ps: seq<seq<Byte>>, n: int) { forall i :: 0 <= i < |ps| && i < n ==> |ps[i]| >= Target(i) }

  datatype Outcome = Relayed | BrokenHeader | EndsInside | ReadFailed | WriteFailed

  /** `scanned` moves over the whole units of what is pending. */
  method ScanUnits(pending: seq<Byte>, from: nat) returns (scanned: nat, bad: bool)
    requires from <= |pending| && Judge(pending[..from]) == WholeUnits
    ensures from <= scanned <= |pending| && Judge(pending[..scanned]) == WholeUnits
    ensures bad <==> NextUnit(pending[scanned..]) == BadHeader
    ensures !bad ==> NextUnit(pending[scanned..]) == NeedMore
  {
    scanned, bad := from, false;
    while true
      invariant from <= scanned <= |pending| && Judge(pending[..scanned]) == WholeUnits
      decreases |pending| - scanned
    {
      var b := pending[scanned..];
      UnitSizes(b);
      match NextUnit(b)
      case BadHeader => bad := true; return;
      case NeedMore => return;
      case Size(n) =>
        OneMoreUnit(pending, scanned, n);
        scanned := scanned + n;
    }
  }

  lemma OneMoreUnit(pending: seq<Byte>, scanned: nat, n: nat)
    requires scanned <= |pending| && Judge(pending[..scanned]) == WholeUnits && NextUnit(pending[scanned..]) == Size(n)
    ensures 0 < n && scanned + n <= |pending| && Judge(pending[..scanned + n]) == WholeUnits
  {
    hide NextUnit;
    var b := pending[scanned..];
    UnitSizes(b);
    UnitSizes([]);
    var unit := b[..n];
    assert pending[..scanned + n] == pending[..scanned] + unit;
    assert unit + b[n..] == b;
    UnitAlone(unit, b[n..]);
    assert unit[n..] == [];
    JudgeAfter(pending[..scanned], unit);
  }

  /** A unit cut out of a stream is that unit. */
  lemma UnitAlone(unit: seq<Byte>, rest: seq<Byte>)
    requires NextUnit(unit + rest) == Size(|unit|)
    ensures NextUnit(unit) == Size(|unit|)
  {
    var b := unit + rest;
    assert |unit| >= 4 by { UnitAtLeastFour(b); }
    assert b[..3] == unit[..3];
    assert FrameSize(b) == FrameSize(unit);
    if b[..3] == [0x49, 0x44, 0x33] {
      assert |unit| >= 10;
      assert forall i :: 0 <= i < 10 ==> b[i] == unit[i];
    }
  }

  lemma UnitAtLeastFour(b: seq<Byte>)
    ensures NextUnit(b).Size? ==> NextUnit(b).n >= 10
  {
  }

  /** The prefix and the payload, two writes. `room` is how many writes the
      destination still takes. */
  method Flush(ghost ps: seq<seq<Byte>>, pending: seq<Byte>, scanned: nat, target: nat, written: seq<seq<Byte>>,
      room: Option<nat>)
    returns (pending': seq<Byte>, scanned': nat, target': nat, written': seq<seq<Byte>>, ok: bool,
             ghost ps': seq<seq<Byte>>)
    requires scanned <= |pending| && target == Target(|ps|) && Flatten(written) == Flatten(Entries(ps))
    requires scanned > 0 ==> GoodPiece(pending[..scanned])
    ensures !ok ==> room.Some? && scanned > 0
    ensures ok && scanned == 0 ==>
      pending' == pending && scanned' == 0 && target' == target && written' == written && ps' == ps
    ensures ok && scanned > 0 ==> pending' == pending[scanned..] && scanned' == 0 && ps' == ps + [pending[..scanned]]
    ensures ok ==> target' == Target(|ps'|) && Flatten(written') == Flatten(Entries(ps'))
  {
    pending', scanned', target', written', ok, ps' := pending, scanned, target, written, true, ps;
    if scanned == 0 {
      return;
    }
    var head := BeBytes(scanned);
    if room.Some? && |written'| >= room.value {
      ok := false;
      return;
    }
    FlattenSnoc(written', head);
    written' := written' + [head];
    if room.Some? && |written'| >= room.value {
      ok := false;
      return;
    }
    FlattenSnoc(written', pending[..scanned]);
    written' := written' + [pending[..scanned]];
    ps' := ps + [pending[..scanned]];
    assert Entries(ps') == Entries(ps) + [Framed(pending[..scanned])];
    FlattenSnoc(Entries(ps), Framed(pending[..scanned]));
    pending' := pending[scanned..];
    scanned' := 0;
    target' := Min(target * 2, MAX_PIECE_BYTES);
  }

  /** Between reads: everything read is in the pieces or pending, what is pending
      is whole units up to `scanned` and the start of one after it. */
  ghost predicate Cutting(all: seq<Byte>, ps: seq<seq<Byte>>, pending: seq<Byte>, scanned: nat,
      written: seq<seq<Byte>>) {
    && all == Flatten(ps) + pending
    && GoodPieces(ps) && ReachTargets(ps, |ps|) && Judge(Flatten(ps)) == WholeUnits
    && scanned <= |pending| && Judge(pending[..scanned]) == WholeUnits && NextUnit(pending[scanned..]) == NeedMore
    && scanned < Target(|ps|)
    && Flatten(written) == Flatten(Entries(ps))
  }

  /** What has been read is broken or not by its own bytes, not by how it was cut
      into reads. */
  lemma JudgeRead(all: seq<Byte>, ps: seq<seq<Byte>>, pending: seq<Byte>, scanned: nat)
    requires all == Flatten(ps) + pending && Judge(Flatten(ps)) == WholeUnits
    requires scanned <= |pending| && Judge(pending[..scanned]) == WholeUnits
    ensures Judge(all) == Judge(pending[scanned..])
    ensures Judge(Flatten(ps) + pending[..scanned]) == WholeUnits
  {
    JudgeAfter(Flatten(ps), pending);
    JudgeAfter(Flatten(ps), pending[..scanned]);
    assert pending[..scanned] + pending[scanned..] == pending;
    JudgeAfter(pending[..scanned], pending[scanned..]);
  }

  lemma JudgeTail(b: seq<Byte>)
    requires NextUnit(b) == NeedMore
    ensures Judge(b) == if b == [] then WholeUnits else Inside
  {
  }

  /** A piece cannot outgrow its prefix: before the last read it was short of its
      target, and a read adds no more than its buffer to the one unit under way. */
  lemma PieceFits(ps: seq<seq<Byte>>, pending: seq<Byte>, scanned: nat, read: seq<Byte>)
    requires scanned <= |pending| && scanned < Target(|ps|) && NextUnit(pending[scanned..]) == NeedMore &&
      |read| <= READ_BYTES
    ensures |pending + read| < LIMIT_32
  {
    TargetDoubles(|ps|);
    UnitSizes(pending[scanned..]);
  }

  lemma StartCutting()
    ensures Cutting([], [], [], 0, []) && Target(0) == FIRST_PIECE_BYTES
  {
    TargetDoubles(0);
    assert Entries([]) == [];
  }

  /** A header that breaks what was read breaks the whole stream. */
  lemma BrokenAll(buffers: seq<seq<Byte>>, i: nat, rest: seq<Byte>)
    requires i < |buffers| && NextUnit(rest) == BadHeader && Judge(Flatten(buffers[..i + 1])) == Judge(rest)
    ensures Judge(Flatten(buffers)) == Broken
  {
    assert buffers == buffers[..i + 1] + buffers[i + 1..];
    FlattenConcat(buffers[..i + 1], buffers[i + 1..]);
    BrokenStays(rest, []);
    assert rest + [] == rest;
    BrokenGrows(Flatten(buffers[..i + 1]), Flatten(buffers[i + 1..]));
  }

  lemma {:induction false} BrokenGrows(a: seq<Byte>, b: seq<Byte>)
    requires Judge(a) == Broken
    ensures Judge(a + b) == Broken
    decreases |a|
  {
    UnitStays(a, b);
    UnitSizes(a);
    if NextUnit(a).Size? {
      var n := NextUnit(a).n;
      assert (a + b)[n..] == a[n..] + b;
      BrokenGrows(a[n..], b);
    }
  }

  lemma GoodSnoc(ps: seq<seq<Byte>>, p: seq<Byte>)
    requires GoodPieces(ps) && GoodPiece(p) && ReachTargets(ps, |ps|)
    ensures GoodPieces(ps + [p]) && ReachTargets(ps + [p], |ps|)
    ensures |p| >= Target(|ps|) ==> ReachTargets(ps + [p], |ps| + 1)
  {
  }

  /** A piece that reached its target. */
  lemma CutPiece(all: seq<Byte>, ps: seq<seq<Byte>>, pending: seq<Byte>, scanned: nat)
    requires all == Flatten(ps) + pending && GoodPieces(ps) && ReachTargets(ps, |ps|) && |pending| < LIMIT_32
    requires Target(|ps|) <= scanned <= |pending| && Judge(pending[..scanned]) == WholeUnits
    requires Judge(Flatten(ps) + pending[..scanned]) == WholeUnits && NextUnit(pending[scanned..]) == NeedMore
    ensures 0 < scanned && GoodPiece(pending[..scanned])
    ensures var ps', rest := ps + [pending[..scanned]], pending[scanned..];
      && all == Flatten(ps') + rest && Judge(Flatten(ps')) == WholeUnits
      && GoodPieces(ps') && ReachTargets(ps', |ps'|)
      && Judge(rest[..0]) == WholeUnits && NextUnit(rest[0..]) == NeedMore && 0 < Target(|ps'|)
  {
    TargetDoubles(|ps|);
    TargetDoubles(|ps| + 1);
    CutFlat(ps, pending, scanned);
    assert Judge([]) == WholeUnits;
    assert GoodPiece(pending[..scanned]);
    hide NextUnit, Judge, Flatten, Target, GoodPieces, ReachTargets, GoodPiece;
    GoodSnoc(ps, pending[..scanned]);
  }

  lemma CutFlat(ps: seq<seq<Byte>>, pending: seq<Byte>, scanned: nat)
    requires scanned <= |pending|
    ensures var ps', rest := ps + [pending[..scanned]], pending[scanned..];
      && Flatten(ps') == Flatten(ps) + pending[..scanned] && Flatten(ps') + rest == Flatten(ps) + pending
      && rest[..0] == [] && rest[0..] == rest
  {
    FlattenSnoc(ps, pending[..scanned]);
    hide Flatten;
    assert pending[..scanned] + pending[scanned..] == pending;
    assert Flatten(ps) + (pending[..scanned] + pending[scanned..]) ==
      (Flatten(ps) + pending[..scanned]) + pending[scanned..];
  }

  /** The last piece need not reach its target. */
  lemma LastPiece(ps: seq<seq<Byte>>, pending: seq<Byte>)
    requires GoodPieces(ps) && ReachTargets(ps, |ps|) && Judge(pending) == WholeUnits && |pending| < Target(|ps|)
    ensures pending != [] ==> GoodPiece(pending) && GoodPieces(ps + [pending]) && ReachTargets(ps + [pending], |ps|)
    ensures Flatten(ps + [pending]) == Flatten(ps) + pending
    ensures ReachTargets(ps, |ps| - 1)
  {
    TargetDoubles(|ps|);
    FlattenSnoc(ps, pending);
    if pending != [] {
      GoodSnoc(ps, pending);
    }
  }

  lemma PiecesBefore(ps: seq<seq<Byte>>)
    requires ReachTargets(ps, |ps|)
    ensures ReachTargets(ps, |ps| - 1)
  {
  }

  /** The relay. The last read comes with the end of the source or its failure;
      `room` is how many writes the destination takes. */
  method FramesFromMp3(buffers: seq<seq<Byte>>, fails: bool, room: Option<nat>)
    returns (r: Outcome, written: seq<seq<Byte>>, ghost ps: seq<seq<Byte>>)
    requires buffers != [] && forall i :: 0 <= i < |buffers| ==> |buffers[i]| <= READ_BYTES
    ensures GoodPieces(ps) && ReachTargets(ps, |ps| - 1)
    ensures r == Relayed ==> Flatten(ps) == Flatten(buffers) && Flatten(written) == Flatten(Entries(ps))
    ensures r == Relayed ==> !fails && Judge(Flatten(buffers)) == WholeUnits
    ensures r == BrokenHeader ==> Judge(Flatten(buffers)) == Broken
    ensures r == EndsInside ==> !fails && Judge(Flatten(buffers)) == Inside
    ensures r == ReadFailed ==> fails && Judge(Flatten(buffers)) != Broken
    ensures r == WriteFailed ==> room.Some?
    ensures room.None? ==> (r == Relayed <==> !fails && Judge(Flatten(buffers)) == WholeUnits)
  {
    hide NextUnit, Judge, GoodPieces, ReachTargets, Entries, Target;
    var pending: seq<Byte> := [];
    var scanned: nat, target: nat := 0, FIRST_PIECE_BYTES;
    written, ps := [], [];
    StartCutting();
    assert buffers[..0] == [];
    for i := 0 to |buffers|
      invariant Cutting(Flatten(buffers[..i]), ps, pending, scanned, written)
      invariant target == Target(|ps|)
    {
      var buf := buffers[i];
      assert buffers[..i + 1] == buffers[..i] + [buf];
      FlattenSnoc(buffers[..i], buf);
      PieceFits(ps, pending, scanned, buf);
      ghost var all := Flatten(buffers[..i + 1]);
      assert all == Flatten(ps) + (pending + buf);
      assert (pending + buf)[..scanned] == pending[..scanned];
      pending := pending + buf;
      var bad;
      scanned, bad := ScanUnits(pending, scanned);
      JudgeRead(all, ps, pending, scanned);
      if bad {
        BrokenAll(buffers, i, pending[scanned..]);
        r := BrokenHeader;
        PiecesBefore(ps);
        return;
      }
      if scanned >= target {
        var ok;
        ghost var before := ps;
        CutPiece(all, ps, pending, scanned);
        pending, scanned, target, written, ok, ps := Flush(ps, pending, scanned, target, written, room);
        if !ok {
          ps := before;
          PiecesBefore(ps);
          r := WriteFailed;
          return;
        }
      }
    }
    assert buffers[..|buffers|] == buffers;
    JudgeRead(Flatten(buffers), ps, pending, scanned);
    JudgeTail(pending[scanned..]);
    if fails {
      PiecesBefore(ps);
      return ReadFailed, written, ps;
    }
    if scanned != |pending| {
      PiecesBefore(ps);
      return EndsInside, written, ps;
    }
    ghost var before := ps;
    assert pending[..scanned] == pending;
    var ok;
    LastPiece(ps, pending);
    pending, scanned, target, written, ok, ps := Flush(ps, pending, scanned, target, written, room);
    if !ok {
      ps := before;
      PiecesBefore(ps);
      return WriteFailed, written, ps;
    }
    r := Relayed;
  }

  /** A client of the relay gets back the pieces it was cut into. */
  lemma RelayRoundTrip(ps: seq<seq<Byte>>)
    requires GoodPieces(ps)
    ensures Decode(Flatten(Entries(ps))) == Some(ps)
  {
    FramingRoundTrip(ps);
  }
}
