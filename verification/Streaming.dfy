/** From the pieces of a reading to the bytes of a response: each segment encoded
    on its own, length-prefixed for the clients that ask for it. */
module Streaming {
  import opened Prelude
  import opened Reading
  import opened Encode

  const LIMIT_32 := 0x1_0000_0000

  /** `u32::to_be_bytes` of a length cast to 32 bits. */
  function BeBytes(n: nat): (bs: seq<Byte>)
    ensures |bs| == 4
  {
    var u := n % LIMIT_32;
    [u / 0x100_0000, u / 0x1_0000 % 256, u / 256 % 256, u % 256]
  }

  function BeValue(bs: seq<Byte>): (n: nat)
    requires |bs| == 4
  {
    (bs[0] as int) * 0x100_0000 + (bs[1] as int) * 0x1_0000 + (bs[2] as int) * 256 + (bs[3] as int)
  }

  lemma BeInverse(n: nat)
    ensures BeValue(BeBytes(n)) == n % LIMIT_32
  {
    var u := n % LIMIT_32;
    assert u == u / 256 * 256 + u % 256;
    assert u / 256 == u / 0x1_0000 * 256 + u / 256 % 256;
    assert u / 0x1_0000 == u / 0x100_0000 * 256 + u / 0x1_0000 % 256;
  }

  function Framed(piece: seq<Byte>): (bytes: seq<Byte>)
    ensures |bytes| == 4 + |piece|
  {
    BeBytes(|piece|) + piece
  }

  function NonEmpty(encs: seq<seq<Byte>>): seq<seq<Byte>> {
    if encs == [] then [] else NonEmpty(ButLast(encs)) + if Last(encs) == [] then [] else [Last(encs)]
  }

  function Entries(encs: seq<seq<Byte>>): (es: seq<seq<Byte>>)
    ensures |es| == |encs| && forall i :: 0 <= i < |es| ==> es[i] == Framed(encs[i])
  {
    seq(|encs|, i requires 0 <= i < |encs| => Framed(encs[i]))
  }

  // ----- reading the framed stream back

  /** What a client of the framed stream takes apart; None when it is cut. */
  function Decode(bytes: seq<Byte>): Option<seq<seq<Byte>>>
    decreases |bytes|
  {
    if bytes == [] then Some([]) else
    if |bytes| < 4 then None else
    var n := BeValue(bytes[..4]);
    if 4 + n > |bytes| then None else
    match Decode(bytes[4 + n..])
    case None => None
    case Some(rest) => Some([bytes[4..4 + n]] + rest)
  }

  predicate Fits32(es: seq<seq<Byte>>) { forall i :: 0 <= i < |es| ==> |es[i]| < LIMIT_32 }

  lemma DecodeEntry(e: seq<Byte>, tail: seq<Byte>)
    requires |e| < LIMIT_32
    ensures Decode(Framed(e) + tail) == match Decode(tail) case None => None case Some(rest) => Some([e] + rest)
  {
    hide BeBytes, BeValue;
    var bytes := Framed(e) + tail;
    assert bytes[..4] == BeBytes(|e|) && bytes[4..4 + |e|] == e && bytes[4 + |e|..] == tail;
    BeInverse(|e|);
    assert |e| % LIMIT_32 == |e|;
  }

  /** A piece too long for its prefix is taken apart wrongly. */
  lemma DecodeTooLong(e: seq<Byte>, tail: seq<Byte>)
    requires |e| >= LIMIT_32
    ensures Decode(Framed(e) + tail).Some? ==>
      Decode(Framed(e) + tail).value != [] && |Decode(Framed(e) + tail).value[0]| < |e|
  {
    hide BeBytes, BeValue;
    var bytes := Framed(e) + tail;
    assert bytes[..4] == BeBytes(|e|);
    BeInverse(|e|);
  }

  /** The client gets exactly the pieces that were framed if and only if every one
      of them is shorter than what its prefix can say. */
  lemma {:induction false} FramingRoundTrip(es: seq<seq<Byte>>)
    ensures Decode(Flatten(Entries(es))) == Some(es) <==> Fits32(es)
    decreases |es|
  {
    if es != [] {
      hide Decode, Framed, Fits32;
      var e, rest := es[0], es[1..];
      assert Entries(es)[1..] == Entries(rest) && Entries(es)[0] == Framed(e);
      var tail := Flatten(Entries(rest));
      FitsTail(es);
      FramingRoundTrip(rest);
      assert es == [e] + rest;
      if |e| < LIMIT_32 {
        DecodeEntry(e, tail);
        if Decode(tail).Some? && [e] + Decode(tail).value == [e] + rest {
          assert Decode(tail).value == ([e] + Decode(tail).value)[1..] == rest;
        }
      } else {
        DecodeTooLong(e, tail);
      }
    } else {
      assert Entries(es) == [];
    }
  }

  lemma FitsTail(es: seq<seq<Byte>>)
    requires es != []
    ensures Fits32(es) <==> |es[0]| < LIMIT_32 && Fits32(es[1..])
  {
    if Fits32(es[1..]) && |es[0]| < LIMIT_32 {
      forall i | 0 <= i < |es| ensures |es[i]| < LIMIT_32 {
        if i > 0 {
          assert es[i] == es[1..][i - 1];
        }
      }
    }
  }

  // ----- the segments of a reading

  /** The samples of each finished segment, those after the last end mark, and
      whether there are any frames after it. */
  datatype Parts = Parts(done: seq<seq<int>>, rest: seq<int>, fed: bool)

  function PartsOf(pieces: seq<Piece>): Parts {
    if pieces == [] then Parts([], [], false) else
    var p := PartsOf(ButLast(pieces));
    match Last(pieces)
    case Audio(sound) => Parts(p.done, p.rest + sound, true)
    case SegmentEnd => Parts(p.done + [p.rest], [], false)
  }

  /** Every part that gets an encoding: an unfinished last one too. */
  function AllParts(p: Parts): seq<seq<int>> { if p.fed then p.done + [p.rest] else p.done }

  function SegmentBytes<E>(c: Codec<E>, format: Format, rate: nat, pcm: seq<int>): Result<seq<Byte>, string>
    requires !format.Wav? && rate >= 100
  {
    OneShot(c, format, Trimmed(pcm, rate / 100, rate / LEAD_KEEP_DIVISOR))
  }

  /** The encodings of whole segments, each on its own; None if one fails. */
  function Encodings<E>(c: Codec<E>, format: Format, rate: nat, parts: seq<seq<int>>): Option<seq<seq<Byte>>>
    requires !format.Wav? && rate >= 100
  {
    if parts == [] then Some([]) else
    match (Encodings(c, format, rate, ButLast(parts)), SegmentBytes(c, format, rate, Last(parts)))
    case (Some(encs), Ok(bytes)) => Some(encs + [bytes])
    case _ => None
  }

  lemma EncodingsSnoc<E>(c: Codec<E>, format: Format, rate: nat, parts: seq<seq<int>>, pcm: seq<int>)
    requires !format.Wav? && rate >= 100
    requires Encodings(c, format, rate, parts).Some? && SegmentBytes(c, format, rate, pcm).Ok?
    ensures Encodings(c, format, rate, parts + [pcm])
         == Some(Encodings(c, format, rate, parts).value + [SegmentBytes(c, format, rate, pcm).value])
  {
    assert ButLast(parts + [pcm]) == parts;
  }

  lemma NonEmptySnoc(encs: seq<seq<Byte>>, e: seq<Byte>)
    ensures NonEmpty(encs + [e]) == NonEmpty(encs) + if e == [] then [] else [e]
    ensures Entries(NonEmpty(encs + [e])) == Entries(NonEmpty(encs)) + if e == [] then [] else [Framed(e)]
  {
    assert ButLast(encs + [e]) == encs;
  }

  // ----- the loop

  datatype Ending = Whole | EncodeFailed | ListenerLeft

  /** What has been sent once the pieces make up `p`: in frames, whole segments
      only; without, everything the encoder has handed back. */
  ghost predicate SentSoFar<E(!new)>(c: Codec<E>, format: Format, rate: nat, p: Parts, framed: bool,
                                     sent: seq<seq<Byte>>, segment: seq<Byte>, bytesOut: seq<Byte>)
    requires !format.Wav? && rate >= 100
  {
    Encodings(c, format, rate, p.done).Some? &&
    var encs := Encodings(c, format, rate, p.done).value;
    if framed then segment == bytesOut && sent == Entries(NonEmpty(encs))
    else segment == [] && Flatten(sent) == Flatten(encs) + bytesOut
  }

  /** The whole of it: one entry per non-empty segment encoding, or the bytes of
      all of them. */
  ghost predicate SentAll<E(!new)>(c: Codec<E>, format: Format, rate: nat, pieces: seq<Piece>, framed: bool,
      sent: seq<seq<Byte>>)
    requires !format.Wav? && rate >= 100
  {
    Encodings(c, format, rate, AllParts(PartsOf(pieces))).Some? &&
    var encs := Encodings(c, format, rate, AllParts(PartsOf(pieces))).value;
    if framed then sent == Entries(NonEmpty(encs)) else Flatten(sent) == Flatten(encs)
  }

  /** A stream that was cut short: in frames it is whole entries all the same;
      without, the encodings of whole segments and then what the encoder had
      handed back of the next. */
  ghost predicate SentSome<E(!new)>(c: Codec<E>, format: Format, rate: nat, pieces: seq<Piece>, framed: bool,
      sent: seq<seq<Byte>>)
    requires !format.Wav? && rate >= 100
  {
    exists k :: 0 <= k <= |pieces| && SentAt(c, format, rate, PartsOf(pieces[..k]), framed, sent)
  }

  ghost predicate SentAt<E(!new)>(c: Codec<E>, format: Format, rate: nat, p: Parts, framed: bool, sent: seq<seq<Byte>>)
    requires !format.Wav? && rate >= 100
  {
    Encodings(c, format, rate, p.done).Some? &&
    var encs := Encodings(c, format, rate, p.done).value;
    if framed then sent == Entries(NonEmpty(encs))
    else Begun(c, format, rate, p.rest).Some? && Flatten(sent) == Flatten(encs) + Begun(c, format, rate, p.rest).value
  }

  /** The bytes there are of a segment before its end. */
  function Begun<E>(c: Codec<E>, format: Format, rate: nat, pcm: seq<int>): Option<seq<Byte>>
    requires !format.Wav? && rate >= 100
  {
    HandedBack(c, format, LetThrough(pcm, rate / 100, rate / LEAD_KEEP_DIVISOR))
  }

  /** They are a beginning of the segment's encoding, however it goes on, as long
      as the encoder takes it. */
  lemma BegunBegins<E(!new)>(c: Codec<E>, format: Format, rate: nat, pcm: seq<int>, more: seq<int>)
    requires Streams(c) && !format.Wav? && rate >= 100
    requires Begun(c, format, rate, pcm).Some? && SegmentBytes(c, format, rate, pcm + more).Ok?
    requires format.Mp3? ==>
      var let := LetThrough(pcm, rate / 100, rate / LEAD_KEEP_DIVISOR);
      forall x :: c.step(c.step(c.start.value, let).value.0, x).Ok?
    ensures IsPrefix(Begun(c, format, rate, pcm).value, SegmentBytes(c, format, rate, pcm + more).value)
  {
    var hop, keep := rate / 100, rate / LEAD_KEEP_DIVISOR;
    LetThroughGrows(pcm, more, hop, keep);
    var x, whole := LetThrough(pcm, hop, keep), Trimmed(pcm + more, hop, keep);
    assert whole == x + whole[|x|..];
    hide Trimmed, FirstLoud, LetThrough;
    HandedBackBegins(c, format, x, whole[|x|..]);
  }

  function Accepts(sent: seq<seq<Byte>>, takes: Option<nat>): bool { takes.None? || |sent| < takes.value }

  /** What one piece gives the encoder and what the encoder gives back; at an end
      mark a fresh encoder takes over, if there can be one. */
  method EncodePiece<E(!new)>(enc: Chunked<E>, piece: Piece, rate: nat, canReset: bool)
    returns (r: Result<seq<Byte>, string>, next: Chunked<E>)
    requires enc.Valid() && rate >= 100 && enc.trimmer.hop == rate / 100 && enc.trimmer.keep == rate / LEAD_KEEP_DIVISOR
    modifies enc, enc.trimmer
    ensures next == enc || (fresh(next) && fresh(next.trimmer))
    ensures r.Ok? ==> next.Valid() && next.codec == enc.codec && next.format == enc.format
    ensures r.Ok? ==> next.trimmer.hop == rate / 100 && next.trimmer.keep == rate / LEAD_KEEP_DIVISOR
    ensures r.Ok? && piece.Audio? ==> next == enc && next.bytesOut == old(enc.bytesOut) + r.value
    ensures r.Ok? && piece.Audio? ==> next.trimmer.pushed == old(enc.trimmer.pushed) + piece.sound
    ensures r.Ok? && piece.SegmentEnd? ==> next.trimmer.pushed == [] && next.bytesOut == []
    ensures r.Ok? && piece.SegmentEnd? ==>
      Ok(old(enc.bytesOut) + r.value) == SegmentBytes(enc.codec, enc.format, rate, old(enc.trimmer.pushed))
  {
    next := enc;
    match piece
    case Audio(sound) =>
      r := enc.Push(sound);
    case SegmentEnd =>
      if !canReset {
        return Err("encoder reset failed"), enc;
      }
      next := new Chunked(enc.codec, enc.format, rate);
      r := enc.Finish();
  }

  /** Bytes on their way: gathered until the end of the segment in frames, sent
      as they are otherwise. */
  method Deliver(sent: seq<seq<Byte>>, segment: seq<Byte>, bytes: seq<Byte>, end: bool, framed: bool,
      takes: Option<nat>)
    returns (sent': seq<seq<Byte>>, segment': seq<Byte>, left: bool)
    ensures left ==> takes.Some? && |sent| >= takes.value && sent' == sent
    ensures !left && framed ==>
      sent' == (if end && segment + bytes != [] then sent + [Framed(segment + bytes)] else sent)
    ensures !left && framed ==> segment' == if end then [] else segment + bytes
    ensures !left && !framed ==> segment' == segment && Flatten(sent') == Flatten(sent) + bytes
  {
    sent', segment', left := sent, segment, false;
    if framed {
      segment' := segment + bytes;
      if !end || segment' == [] {
        return;
      }
      if !Accepts(sent, takes) {
        left := true;
        return;
      }
      sent' := sent + [Framed(segment')];
      segment' := [];
    } else if bytes != [] {
      if !Accepts(sent, takes) {
        left := true;
        return;
      }
      FlattenSnoc(sent, bytes);
      sent' := sent + [bytes];
    }
  }

  /** An end mark turns what was gathered into one more encoding. */
  lemma SegmentSent<E(!new)>(c: Codec<E>, format: Format, rate: nat, p: Parts, framed: bool, sent: seq<seq<Byte>>,
                             segment: seq<Byte>, out: seq<Byte>, bytes: seq<Byte>, sent': seq<seq<Byte>>)
    requires !format.Wav? && rate >= 100 && SentSoFar(c, format, rate, p, framed, sent, segment, out)
    requires Ok(out + bytes) == SegmentBytes(c, format, rate, p.rest)
    requires if framed then sent' == (if segment + bytes != [] then sent + [Framed(segment + bytes)] else sent)
      else Flatten(sent') == Flatten(sent) + bytes
    ensures SentSoFar(c, format, rate, Parts(p.done + [p.rest], [], false), framed, sent', [], [])
  {
    hide SegmentBytes, Framed, Encodings, NonEmpty, Flatten, Entries;
    var encs := Encodings(c, format, rate, p.done).value;
    EncodingsSnoc(c, format, rate, p.done, p.rest);
    NonEmptySnoc(encs, out + bytes);
    FlattenSnoc(encs, out + bytes);
    assert !framed ==> Flatten(sent') == (Flatten(encs) + out) + bytes == Flatten(encs) + (out + bytes) + [];
  }

  lemma PartsSnoc(pieces: seq<Piece>, i: nat)
    requires i < |pieces|
    ensures var p := PartsOf(pieces[..i]);
      PartsOf(pieces[..i + 1]) == match pieces[i]
        case Audio(sound) => Parts(p.done, p.rest + sound, true)
        case SegmentEnd => Parts(p.done + [p.rest], [], false)
  {
    assert ButLast(pieces[..i + 1]) == pieces[..i];
  }

  lemma SegmentBytesIs<E>(c: Codec<E>, format: Format, rate: nat, pcm: seq<int>)
    requires !format.Wav? && rate >= 100
    ensures SegmentBytes(c, format, rate, pcm) == OneShot(c, format, Trimmed(pcm, rate / 100, rate / LEAD_KEEP_DIVISOR))
  {
  }

  /** The response of a reading. `takes` is how many chunks the client takes
      before it leaves, `resets` which pieces find a fresh encoder. */
  method Stream<E(!new)>(codec: Codec<E>, format: Format, rate: nat, first: Sound, later: seq<Piece>, framed: bool,
                         takes: Option<nat>, resets: nat -> bool)
    returns (sent: seq<seq<Byte>>, ending: Ending)
    requires Streams(codec) && !format.Wav? && rate >= 100 && (format.Mp3? ==> codec.start.Ok?)
    ensures ending == Whole ==> SentAll(codec, format, rate, [Audio(first)] + later, framed, sent)
    ensures ending == Whole || SentSome(codec, format, rate, [Audio(first)] + later, framed, sent)
    ensures ending == ListenerLeft ==> takes.Some? && |sent| >= takes.value
  {
    hide SentSoFar, PartsOf, SegmentBytes, Framed, Streams, Encodings, NonEmpty, Chunked.Valid, HandedBack, LetThrough,
      SentSome;
    var pieces := [Audio(first)] + later;
    var enc := new Chunked(codec, format, rate);
    var fed, segment: seq<Byte> := false, [];
    sent := [];
    NothingSent(codec, format, rate, framed);
    assert pieces[..0] == [];
    for i := 0 to |pieces|
      invariant fresh(enc) && fresh(enc.trimmer) && enc.Valid() && enc.codec == codec && enc.format == format
      invariant enc.trimmer.hop == rate / 100 && enc.trimmer.keep == rate / LEAD_KEEP_DIVISOR
      invariant enc.trimmer.pushed == PartsOf(pieces[..i]).rest && fed == PartsOf(pieces[..i]).fed
      invariant !fed ==> enc.bytesOut == []
      invariant SentSoFar(codec, format, rate, PartsOf(pieces[..i]), framed, sent, segment, enc.bytesOut)
    {
      PartsSnoc(pieces, i);
      ghost var p, out := PartsOf(pieces[..i]), enc.bytesOut;
      enc.BytesAre();
      SoFarIsSome(codec, format, rate, pieces, i, framed, sent, segment, out);
      var piece := pieces[i];
      fed := piece.Audio?;
      var bytes;
      bytes, enc := EncodePiece(enc, piece, rate, resets(i));
      if bytes.Err? {
        return sent, EncodeFailed;
      }
      var sent', segment', left := Deliver(sent, segment, bytes.value, piece.SegmentEnd?, framed, takes);
      if left {
        return sent, ListenerLeft;
      }
      if piece.SegmentEnd? {
        SegmentSent(codec, format, rate, p, framed, sent, segment, out, bytes.value, sent');
        SegmentEmpty(codec, format, rate, p, framed, sent, segment, out);
      } else {
        AudioSent(codec, format, rate, p, framed, sent, segment, out, bytes.value, sent', piece.sound);
      }
      sent, segment := sent', segment';
    }
    assert pieces[..|pieces|] == pieces;
    ghost var p, out := PartsOf(pieces), enc.bytesOut;
    enc.BytesAre();
    SoFarIsSome(codec, format, rate, pieces, |pieces|, framed, sent, segment, out);
    if !fed {
      NothingLeft(codec, format, rate, pieces, framed, sent, segment, out);
      ending := Whole;
      return;
    }
    var tail := enc.Finish();
    if tail.Err? {
      return sent, EncodeFailed;
    }
    assert Ok(out + tail.value) == SegmentBytes(codec, format, rate, p.rest) by {
      SegmentBytesIs(codec, format, rate, p.rest);
    }
    var sent', segment', left := Deliver(sent, segment, tail.value, true, framed, takes);
    if left {
      return sent, ListenerLeft;
    }
    TailSent(codec, format, rate, pieces, framed, sent, segment, out, tail.value, sent');
    sent := sent';
    ending := Whole;
  }

  lemma NothingSent<E(!new)>(c: Codec<E>, format: Format, rate: nat, framed: bool)
    requires !format.Wav? && rate >= 100
    ensures PartsOf([]) == Parts([], [], false) && SentSoFar(c, format, rate, PartsOf([]), framed, [], [], [])
  {
  }

  lemma SoFarIsSome<E(!new)>(c: Codec<E>, format: Format, rate: nat, pieces: seq<Piece>, i: nat, framed: bool,
                             sent: seq<seq<Byte>>, segment: seq<Byte>, out: seq<Byte>)
    requires !format.Wav? && rate >= 100 && i <= |pieces|
    requires SentSoFar(c, format, rate, PartsOf(pieces[..i]), framed, sent, segment, out)
    requires Begun(c, format, rate, PartsOf(pieces[..i]).rest) == Some(out)
    ensures SentSome(c, format, rate, pieces, framed, sent)
  {
    hide PartsOf, Encodings, NonEmpty, Begun;
    assert SentAt(c, format, rate, PartsOf(pieces[..i]), framed, sent);
  }

  /** Without frames nothing is ever gathered. */
  lemma SegmentEmpty<E(!new)>(c: Codec<E>, format: Format, rate: nat, p: Parts, framed: bool,
                              sent: seq<seq<Byte>>, segment: seq<Byte>, out: seq<Byte>)
    requires !format.Wav? && rate >= 100 && SentSoFar(c, format, rate, p, framed, sent, segment, out)
    ensures if framed then segment == out else segment == []
  {
  }

  lemma AudioSent<E(!new)>(c: Codec<E>, format: Format, rate: nat, p: Parts, framed: bool, sent: seq<seq<Byte>>,
                           segment: seq<Byte>, out: seq<Byte>, bytes: seq<Byte>, sent': seq<seq<Byte>>, sound: Sound)
    requires !format.Wav? && rate >= 100 && SentSoFar(c, format, rate, p, framed, sent, segment, out)
    requires if framed then sent' == sent else Flatten(sent') == Flatten(sent) + bytes
    ensures SentSoFar(c, format, rate, Parts(p.done, p.rest + sound, true), framed, sent',
      if framed then segment + bytes else segment, out + bytes)
  {
    hide Encodings, NonEmpty;
  }

  lemma NothingLeft<E(!new)>(c: Codec<E>, format: Format, rate: nat, pieces: seq<Piece>, framed: bool,
                             sent: seq<seq<Byte>>, segment: seq<Byte>, out: seq<Byte>)
    requires !format.Wav? && rate >= 100 && !PartsOf(pieces).fed && out == []
    requires SentSoFar(c, format, rate, PartsOf(pieces), framed, sent, segment, out)
    ensures SentAll(c, format, rate, pieces, framed, sent)
  {
  }

  lemma TailSent<E(!new)>(c: Codec<E>, format: Format, rate: nat, pieces: seq<Piece>, framed: bool,
                          sent: seq<seq<Byte>>, segment: seq<Byte>, out: seq<Byte>, bytes: seq<Byte>,
                          sent': seq<seq<Byte>>)
    requires !format.Wav? && rate >= 100 && PartsOf(pieces).fed
    requires SentSoFar(c, format, rate, PartsOf(pieces), framed, sent, segment, out)
    requires Ok(out + bytes) == SegmentBytes(c, format, rate, PartsOf(pieces).rest)
    requires if framed then sent' == (if segment + bytes != [] then sent + [Framed(segment + bytes)] else sent)
      else Flatten(sent') == Flatten(sent) + bytes
    ensures SentAll(c, format, rate, pieces, framed, sent')
  {
    SegmentSent(c, format, rate, PartsOf(pieces), framed, sent, segment, out, bytes, sent');
  }
}
