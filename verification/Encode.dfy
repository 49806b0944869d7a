/** Trimming the silence before a voice, and encoding a reading as it is made:
    however the samples come, the result is that of the whole. */
module Encode {
  import opened Prelude

  type Byte = i: int | 0 <= i < 256

  const LEAD_KEEP_DIVISOR := 4

  /** The level below which a window is silent is 327.67, a hundredth of full
      scale; squared here so that no root is taken. */
  function Energy(pcm: seq<int>): int {
    if pcm == [] then 0 else Energy(ButLast(pcm)) + Last(pcm) * Last(pcm)
  }

  predicate Loud(window: seq<int>) {
    Energy(window) * 10000 > |window| * 32767 * 32767
  }

  /** The first complete window from `from` on, in steps of `hop`, that is
      loud. */
  function FirstLoud(pcm: seq<int>, hop: nat, from: nat): Option<nat>
    requires hop > 0
    decreases |pcm| - from
  {
    if from + hop > |pcm| then None
    else if Loud(pcm[from..from + hop]) then Some(from)
    else FirstLoud(pcm, hop, from + hop)
  }

  /** The reading without all but `keep` samples of its silent start; a reading
      that is never loud is left whole. */
  function Trimmed(pcm: seq<int>, hop: nat, keep: nat): seq<int>
    requires hop > 0
    ensures FirstLoud(pcm, hop, 0).Some? ==> FirstLoud(pcm, hop, 0).value <= |pcm|
  {
    FirstLoudInside(pcm, hop, 0);
    match FirstLoud(pcm, hop, 0)
    case None => pcm
    case Some(i) => pcm[Monus(i, keep)..]
  }

  lemma {:induction false} FirstLoudInside(pcm: seq<int>, hop: nat, from: nat)
    requires hop > 0
    ensures FirstLoud(pcm, hop, from).Some? ==> from <= FirstLoud(pcm, hop, from).value <= |pcm| - hop
    decreases |pcm| - from
  {
    if from + hop <= |pcm| {
      FirstLoudInside(pcm, hop, from + hop);
    }
  }

  /** Window `j`, if it is complete. */
  function WindowAt(pcm: seq<int>, hop: nat, j: nat): seq<int> {
    if j * hop + hop <= |pcm| then pcm[j * hop..j * hop + hop] else []
  }

  lemma NextWindow(hop: nat, k: nat, m: nat)
    requires k < m
    ensures (k + 1) * hop == k * hop + hop <= m * hop
  {
    assert (m - k - 1) * hop >= 0;
    assert m * hop == (k + 1) * hop + (m - k - 1) * hop;
  }

  /** What "first" means: window `m` is loud and none from `k` to it is. */
  lemma {:induction false} FirstLoudMeans(pcm: seq<int>, hop: nat, k: nat, m: nat)
    requires hop > 0 && k <= m && m * hop + hop <= |pcm| && Loud(WindowAt(pcm, hop, m))
    requires forall j: nat {:trigger WindowAt(pcm, hop, j)} :: k <= j < m ==> !Loud(WindowAt(pcm, hop, j))
    ensures FirstLoud(pcm, hop, k * hop) == Some(m * hop)
    decreases m - k
  {
    hide Loud;
    if k < m {
      NextWindow(hop, k, m);
      assert !Loud(WindowAt(pcm, hop, k));
      FirstLoudMeans(pcm, hop, k + 1, m);
    }
  }

  /** A reading in which no complete window is loud has no first one. */
  lemma {:induction false} NeverLoudMeans(pcm: seq<int>, hop: nat, k: nat)
    requires hop > 0
    requires forall j: nat {:trigger WindowAt(pcm, hop, j)} :: k <= j && j * hop + hop <= |pcm| ==>
      !Loud(WindowAt(pcm, hop, j))
    ensures FirstLoud(pcm, hop, k * hop) == None
    decreases |pcm| - k * hop
  {
    hide Loud;
    NextWindow(hop, k, k + 1);
    if k * hop + hop <= |pcm| {
      assert !Loud(WindowAt(pcm, hop, k));
      NeverLoudMeans(pcm, hop, k + 1);
    }
  }

  /** Where the next window after every complete one starts. */
  function ScanEnd(n: nat, hop: nat, from: nat): (end: nat)
    requires hop > 0
    ensures from <= end && n < end + hop && (from <= n ==> end <= n)
    decreases n - from
  {
    if from + hop > n then from else ScanEnd(n, hop, from + hop)
  }

  /** The code's arithmetic for it. */
  lemma {:induction false} ScanEndIs(n: nat, hop: nat, k: nat)
    requires hop > 0 && k * hop <= n
    ensures ScanEnd(n, hop, k * hop) == n / hop * hop
    decreases n - k * hop
  {
    assert (k + 1) * hop == k * hop + hop;
    if k * hop + hop <= n {
      ScanEndIs(n, hop, k + 1);
    } else {
      assert n == hop * k + (n - k * hop);
      QuotientIs(n, hop, k);
    }
  }

  lemma QuotientIs(n: nat, hop: nat, k: nat)
    requires hop > 0 && k * hop <= n < k * hop + hop
    ensures n / hop == k
  {
    var q := n / hop;
    assert n == hop * q + n % hop;
    if q < k {
      NextWindow(hop, q, k);
    } else if k < q {
      NextWindow(hop, k, q);
    }
  }

  function Floor(n: nat, hop: nat): (end: nat)
    requires hop > 0
    ensures end == ScanEnd(n, hop, 0)
  {
    ScanEndIs(n, hop, 0);
    n / hop * hop
  }

  /** More samples do not move a window found, and windows found silent need not
      be looked at again. */
  lemma {:induction false} FirstLoudGrows(pcm: seq<int>, more: seq<int>, hop: nat, from: nat)
    requires hop > 0 && from <= |pcm|
    ensures FirstLoud(pcm, hop, from).Some? ==> FirstLoud(pcm + more, hop, from) == FirstLoud(pcm, hop, from)
    ensures FirstLoud(pcm, hop, from).None? ==>
      FirstLoud(pcm + more, hop, from) == FirstLoud(pcm + more, hop, ScanEnd(|pcm|, hop, from))
    decreases |pcm| - from
  {
    if from + hop <= |pcm| {
      assert (pcm + more)[from..from + hop] == pcm[from..from + hop];
      FirstLoudGrows(pcm, more, hop, from + hop);
    }
  }

  lemma TrimmedGrows(pcm: seq<int>, more: seq<int>, hop: nat, keep: nat)
    requires hop > 0 && FirstLoud(pcm, hop, 0).Some?
    ensures FirstLoud(pcm + more, hop, 0).Some? && Trimmed(pcm + more, hop, keep) == Trimmed(pcm, hop, keep) + more
  {
    FirstLoudGrows(pcm, more, hop, 0);
    FirstLoudInside(pcm, hop, 0);
  }

  /** What is let through of a segment so far: nothing until it is loud. */
  function LetThrough(pcm: seq<int>, hop: nat, keep: nat): seq<int>
    requires hop > 0
  {
    if FirstLoud(pcm, hop, 0).Some? then Trimmed(pcm, hop, keep) else []
  }

  /** Whatever comes after, that is a beginning of the trimmed segment. */
  lemma LetThroughGrows(pcm: seq<int>, more: seq<int>, hop: nat, keep: nat)
    requires hop > 0
    ensures IsPrefix(LetThrough(pcm, hop, keep), Trimmed(pcm + more, hop, keep))
  {
    if FirstLoud(pcm, hop, 0).Some? {
      TrimmedGrows(pcm, more, hop, keep);
    }
  }

  class LeadTrimmer {
    const hop: nat
    const keep: nat
    var held: seq<int>
    var scanned: nat
    var passing: bool
    /** Everything pushed and everything handed back. */
    ghost var pushed: seq<int>
    ghost var given: seq<int>

    ghost predicate Valid()
      reads this
    {
      && hop > 0
      && if passing
         then held == [] && FirstLoud(pushed, hop, 0).Some? && given == Trimmed(pushed, hop, keep)
         else held == pushed && given == [] && FirstLoud(pushed, hop, 0).None? && scanned == ScanEnd(|pushed|, hop, 0)
    }

    constructor (sampleRate: nat)
      requires sampleRate >= 100
      ensures Valid() && pushed == [] && given == []
      ensures hop == sampleRate / 100 && keep == sampleRate / LEAD_KEEP_DIVISOR
    {
      hop, keep := sampleRate / 100, sampleRate / LEAD_KEEP_DIVISOR;
      held, scanned, passing := [], 0, false;
      pushed, given := [], [];
    }

    /** The first loud window from `scanned` on. */
    method Scan() returns (loud: Option<nat>)
      requires hop > 0 && scanned <= |held|
      ensures loud == FirstLoud(held, hop, scanned)
    {
      var at := scanned;
      while at + hop <= |held|
        invariant scanned <= at <= |held| && FirstLoud(held, hop, scanned) == FirstLoud(held, hop, at)
      {
        if Loud(held[at..at + hop]) {
          return Some(at);
        }
        at := at + hop;
      }
      loud := None;
    }

    method Push(pcm: seq<int>) returns (out: seq<int>)
      requires Valid()
      modifies this
      ensures Valid() && pushed == old(pushed) + pcm && given == old(given) + out
      ensures old(passing) ==> passing && out == pcm
      ensures !passing ==> out == []
    {
      hide Loud, FirstLoud, ScanEnd;
      ghost var before := pushed;
      pushed := pushed + pcm;
      if passing {
        hide Trimmed;
        given := given + pcm;
        TrimmedGrows(before, pcm, hop, keep);
        return pcm;
      }
      FirstLoudGrows(before, pcm, hop, 0);
      held := held + pcm;
      assert held == pushed;
      var loud := Scan();
      FirstLoudInside(held, hop, scanned);
      match loud
      case None =>
        scanned := Floor(|held|, hop);
        out := [];
      case Some(start) =>
        passing := true;
        var from := Monus(start, keep);
        out := held[from..];
        held := [];
        given := out;
    }

    /** Gives up what it holds, all of the input if no window of it was loud. */
    method Finish() returns (tail: seq<int>)
      requires Valid()
      modifies this
      ensures given == old(given) + tail && given == Trimmed(pushed, hop, keep) && pushed == old(pushed)
    {
      tail := held;
      given := given + held;
    }
  }

  method TrimLeadingSilence(pcm: seq<int>, sampleRate: nat) returns (out: seq<int>)
    requires sampleRate >= 100
    ensures out == Trimmed(pcm, sampleRate / 100, sampleRate / LEAD_KEEP_DIVISOR)
  {
    var trimmer := new LeadTrimmer(sampleRate);
    out := trimmer.Push(pcm);
    var tail := trimmer.Finish();
    out := out + tail;
    assert [] + pcm == pcm;
  }

  /** However the samples are cut into frames, pushing them and finishing gives
      the whole trim. */
  method TrimFrames(frames: seq<seq<int>>, sampleRate: nat) returns (out: seq<int>)
    requires sampleRate >= 100
    ensures out == Trimmed(Flatten(frames), sampleRate / 100, sampleRate / LEAD_KEEP_DIVISOR)
  {
    var trimmer := new LeadTrimmer(sampleRate);
    out := [];
    for i := 0 to |frames|
      invariant trimmer.Valid() && fresh(trimmer)
      invariant trimmer.pushed == Flatten(frames[..i]) && trimmer.given == out
    {
      assert frames[..i + 1] == frames[..i] + [frames[i]];
      FlattenSnoc(frames[..i], frames[i]);
      var more := trimmer.Push(frames[i]);
      out := out + more;
    }
    assert frames[..|frames|] == frames;
    var tail := trimmer.Finish();
    out := out + tail;
  }

  // ----- bytes

  datatype Format = Mp3 | Wav | Pcm

  predicate Sample16(s: int) { -32768 <= s < 32768 }

  /** `i16::to_le_bytes`. */
  function LeBytes(s: int): (bs: seq<Byte>)
    ensures |bs| == 2
  {
    var u := s % 65536;
    [u % 256, u / 256]
  }

  function PcmBytes(pcm: seq<int>): seq<Byte> {
    if pcm == [] then [] else PcmBytes(ButLast(pcm)) + LeBytes(Last(pcm))
  }

  lemma {:induction false} PcmBytesConcat(a: seq<int>, b: seq<int>)
    ensures PcmBytes(a + b) == PcmBytes(a) + PcmBytes(b)
  {
    if b == [] {
      assert a + b == a;
    } else {
      assert ButLast(a + b) == a + ButLast(b);
      PcmBytesConcat(a, ButLast(b));
    }
  }

  /** What a reader of 16-bit little-endian samples sees. */
  function Samples(bytes: seq<Byte>): seq<int> {
    if |bytes| < 2 then [] else
    var u: int := (bytes[|bytes| - 2] as int) + 256 * (Last(bytes) as int);
    Samples(bytes[..|bytes| - 2]) + [if u < 32768 then u else u - 65536]
  }

  lemma {:induction false} PcmRoundTrip(pcm: seq<int>)
    requires forall i :: 0 <= i < |pcm| ==> Sample16(pcm[i])
    ensures Samples(PcmBytes(pcm)) == pcm
  {
    if pcm != [] {
      PcmRoundTrip(ButLast(pcm));
      var rest, last := PcmBytes(ButLast(pcm)), LeBytes(Last(pcm));
      assert (rest + last)[..|rest + last| - 2] == rest;
      assert pcm == ButLast(pcm) + [Last(pcm)];
    } else {
      assert PcmBytes(pcm) == [];
    }
  }

  /** A streaming mp3 encoder: state, bytes so far ready, bytes at the end. */
  datatype Codec<!E> = Codec(
    start: Result<E, string>,
    step: (E, seq<int>) -> Result<(E, seq<Byte>), string>,
    flush: E -> Result<seq<Byte>, string>)

  ghost predicate StepLaw<E(!new)>(c: Codec<E>, e: E, a: seq<int>, b: seq<int>) {
    c.step(e, a).Ok? ==>
      var (e1, ya) := c.step(e, a).value;
      c.step(e1, b).Ok? ==>
        var (e2, yb) := c.step(e1, b).value;
        c.step(e, a + b) == Ok((e2, ya + yb))
  }

  /** Feeding nothing does nothing, and feeding in two calls is feeding in one. */
  ghost predicate Streams<E(!new)>(c: Codec<E>) {
    && (forall e :: c.step(e, []) == Ok((e, [])))
    && (forall e, a, b :: StepLaw(c, e, a, b))
  }

  /** One encoding of the whole. */
  function OneShot<E>(c: Codec<E>, format: Format, pcm: seq<int>): Result<seq<Byte>, string>
    requires !format.Wav?
  {
    if format.Pcm? then Ok(PcmBytes(pcm)) else
    match c.start
    case Err(e) => Err(e)
    case Ok(e) =>
      match c.step(e, pcm)
      case Err(err) => Err(err)
      case Ok(r) =>
        match c.flush(r.0)
        case Err(err) => Err(err)
        case Ok(rest) => Ok(r.1 + rest)
  }

  /** The bytes an encoder hands back for samples it is not told are the last. */
  function HandedBack<E>(c: Codec<E>, format: Format, pcm: seq<int>): Option<seq<Byte>>
    requires !format.Wav?
  {
    if format.Pcm? then Some(PcmBytes(pcm))
    else if c.start.Err? then None
    else match c.step(c.start.value, pcm) case Err(_) => None case Ok(r) => Some(r.1)
  }

  /** They are a beginning of the encoding of whatever follows, if the encoder
      takes it. */
  lemma HandedBackBegins<E(!new)>(c: Codec<E>, format: Format, pcm: seq<int>, more: seq<int>)
    requires Streams(c) && !format.Wav? && HandedBack(c, format, pcm).Some? && OneShot(c, format, pcm + more).Ok?
    requires format.Mp3? ==> c.step(c.step(c.start.value, pcm).value.0, more).Ok?
    ensures IsPrefix(HandedBack(c, format, pcm).value, OneShot(c, format, pcm + more).value)
  {
    if format.Pcm? {
      PcmBytesConcat(pcm, more);
    } else {
      assert StepLaw(c, c.start.value, pcm, more);
    }
  }

  class Chunked<E(!new)> {
    const codec: Codec<E>
    const format: Format
    const trimmer: LeadTrimmer
    var mp3: Option<E>
    /** The bytes handed back so far. */
    ghost var bytesOut: seq<Byte>

    ghost predicate Valid()
      reads this, trimmer
    {
      && trimmer.Valid() && Streams(codec) && !format.Wav?
      && (format.Mp3? <==> mp3.Some?)
      && if format.Pcm? then bytesOut == PcmBytes(trimmer.given)
         else codec.start.Ok? && codec.step(codec.start.value, trimmer.given) == Ok((mp3.value, bytesOut))
    }

    lemma BytesAre()
      requires Valid()
      ensures HandedBack(codec, format, LetThrough(trimmer.pushed, trimmer.hop, trimmer.keep)) == Some(bytesOut)
    {
      hide Trimmed, FirstLoud;
    }

    /** The encoder of one segment, none for wav. */
    static method Create(codec: Codec<E>, format: Format, sampleRate: nat)
      returns (r: Result<Option<Chunked<E>>, string>)
      requires Streams(codec) && sampleRate >= 100
      ensures r.Ok? && r.value.None? <==> format.Wav?
      ensures r.Err? <==> format.Mp3? && codec.start.Err?
      ensures r.Ok? && r.value.Some? ==> var e := r.value.value;
        fresh(e) && fresh(e.trimmer) && e.Valid() && e.codec == codec && e.format == format
        && e.trimmer.pushed == [] && e.bytesOut == []
        && e.trimmer.hop == sampleRate / 100 && e.trimmer.keep == sampleRate / LEAD_KEEP_DIVISOR
    {
      if format.Wav? {
        return Ok(None);
      }
      if format.Mp3? && codec.start.Err? {
        return Err(codec.start.error);
      }
      var e := new Chunked(codec, format, sampleRate);
      r := Ok(Some(e));
    }

    constructor (codec: Codec<E>, format: Format, sampleRate: nat)
      requires Streams(codec) && !format.Wav? && (format.Mp3? ==> codec.start.Ok?) && sampleRate >= 100
      ensures Valid() && this.codec == codec && this.format == format && fresh(trimmer)
      ensures trimmer.pushed == [] && bytesOut == []
      ensures trimmer.hop == sampleRate / 100 && trimmer.keep == sampleRate / LEAD_KEEP_DIVISOR
    {
      this.codec, this.format := codec, format;
      trimmer := new LeadTrimmer(sampleRate);
      mp3 := if format.Mp3? then Some(codec.start.value) else None;
      bytesOut := [];
    }

    /** `pcm` encoded after all that was before it. */
    method Bytes(pcm: seq<int>, ghost before: seq<int>) returns (r: Result<seq<Byte>, string>)
      requires Streams(codec) && !format.Wav? && (format.Mp3? <==> mp3.Some?)
      requires if format.Pcm? then bytesOut == PcmBytes(before)
        else codec.start.Ok? && codec.step(codec.start.value, before) == Ok((mp3.value, bytesOut))
      modifies this
      ensures format.Mp3? <==> mp3.Some?
      ensures r.Ok? ==> bytesOut == old(bytesOut) + r.value
      ensures r.Ok? ==> if format.Pcm? then bytesOut == PcmBytes(before + pcm)
        else codec.step(codec.start.value, before + pcm) == Ok((mp3.value, bytesOut))
    {
      if pcm == [] {
        assert before + [] == before;
        return Ok([]);
      }
      match mp3
      case Some(e) =>
        assert StepLaw(codec, codec.start.value, before, pcm);
        var step := codec.step(e, pcm);
        if step.Err? {
          return Err(step.error);
        }
        mp3 := Some(step.value.0);
        r := Ok(step.value.1);
        bytesOut := bytesOut + step.value.1;
      case None =>
        PcmBytesConcat(before, pcm);
        r := Ok(PcmBytes(pcm));
        bytesOut := bytesOut + PcmBytes(pcm);
    }

    method Push(frame: seq<int>) returns (r: Result<seq<Byte>, string>)
      requires Valid()
      modifies this, trimmer
      ensures r.Ok? ==> Valid() && bytesOut == old(bytesOut) + r.value
      ensures trimmer.pushed == old(trimmer.pushed) + frame
    {
      ghost var before := trimmer.given;
      var pcm := trimmer.Push(frame);
      r := Bytes(pcm, before);
    }

    /** With what is handed back here the bytes are those of one encoding of the
        whole trimmed segment. */
    method Finish() returns (r: Result<seq<Byte>, string>)
      requires Valid()
      modifies this, trimmer
      ensures r.Ok? ==>
        Ok(old(bytesOut) + r.value) == OneShot(codec, format, Trimmed(trimmer.pushed, trimmer.hop, trimmer.keep))
      ensures trimmer.pushed == old(trimmer.pushed)
    {
      hide Trimmed;
      ghost var before := trimmer.given;
      var tail := trimmer.Finish();
      r := Bytes(tail, before);
      if r.Err? || mp3.None? {
        return;
      }
      var rest := codec.flush(mp3.value);
      assert rest.Ok? ==> bytesOut + rest.value == old(bytesOut) + (r.value + rest.value);
      r := match rest { case Err(e) => Err(e) case Ok(bytes) => Ok(r.value + bytes) };
    }
  }
}
