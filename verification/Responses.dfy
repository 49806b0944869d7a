/** From a listener of the scheduler to the client of its response: what the
    client takes apart is the encoding of what was read. */
module Responses {
  import opened Prelude
  import opened Reading
  import opened Encode
  import opened Streaming
  import FlowLm
  import Desk
  import Service
  import Listeners

  // ----- the segments of a script

  /** The samples of each segment. */
  function Joined(spoken: seq<seq<Sound>>): (pcm: seq<seq<int>>)
    ensures |pcm| == |spoken| && forall k :: 0 <= k < |pcm| ==> pcm[k] == Flatten(spoken[k])
  {
    seq(|spoken|, k requires 0 <= k < |spoken| => Flatten(spoken[k]))
  }

  lemma {:induction false} PiecesParts(before: seq<Piece>, ss: seq<Sound>)
    ensures var p := PartsOf(before);
      PartsOf(before + Pieces(ss)) == Parts(p.done, p.rest + Flatten(ss), p.fed || ss != [])
  {
    var p := PartsOf(before);
    if ss == [] {
      assert before + Pieces(ss) == before && p.rest + [] == p.rest;
    } else {
      var rest, last := ButLast(ss), Last(ss);
      PiecesParts(before, rest);
      assert ButLast(before + Pieces(ss)) == before + Pieces(rest);
      assert ss == rest + [last];
      FlattenSnoc(rest, last);
      assert (p.rest + Flatten(rest)) + last == p.rest + (Flatten(rest) + last);
    }
  }

  /** An encoder that is given a script gets the samples of each segment. */
  lemma {:induction false} ScriptParts(spoken: seq<seq<Sound>>)
    ensures PartsOf(Script(spoken)) == Parts(Joined(spoken), [], false)
  {
    if spoken != [] {
      var rest, last := ButLast(spoken), Last(spoken);
      ScriptParts(rest);
      PiecesParts(Script(rest), last);
      var before := Script(rest) + Pieces(last);
      assert ButLast(before + [SegmentEnd]) == before;
      assert [] + Flatten(last) == Flatten(last);
      assert Joined(spoken) == Joined(rest) + [Flatten(last)];
    }
  }

  lemma {:induction false} ScriptStarts(spoken: seq<seq<Sound>>)
    ensures Script(spoken) == [] <==> spoken == []
    ensures spoken != [] && spoken[0] != [] ==> Script(spoken)[0].Audio?
  {
    if |spoken| > 1 {
      ScriptStarts(ButLast(spoken));
    } else if |spoken| == 1 {
      assert ButLast(spoken) == [] && Last(spoken) == spoken[0];
      assert Script(spoken) == Pieces(spoken[0]) + [SegmentEnd];
    }
  }

  // ----- what the client takes apart

  /** `encs` are the encodings of these segments, each on its own. */
  ghost predicate EncodingsOf<E(!new)>(c: Codec<E>, format: Format, rate: nat, pcm: seq<seq<int>>, encs: seq<seq<Byte>>)
    requires !format.Wav? && rate >= 100
  {
    |encs| == |pcm| && forall k :: 0 <= k < |encs| ==> SegmentBytes(c, format, rate, pcm[k]) == Ok(encs[k])
  }

  lemma {:induction false} EncodingsAre<E(!new)>(c: Codec<E>, format: Format, rate: nat, pcm: seq<seq<int>>)
    requires !format.Wav? && rate >= 100 && Encodings(c, format, rate, pcm).Some?
    ensures EncodingsOf(c, format, rate, pcm, Encodings(c, format, rate, pcm).value)
  {
    hide SegmentBytes;
    if pcm != [] {
      EncodingsAre(c, format, rate, ButLast(pcm));
    }
  }

  /** The client decodes one entry for each segment whose encoding is not empty,
      exactly if each of them fits its prefix. */
  ghost predicate Decodes<E(!new)>(c: Codec<E>, format: Format, rate: nat, pcm: seq<seq<int>>, sent: seq<seq<Byte>>)
    requires !format.Wav? && rate >= 100
  {
    exists encs :: EncodingsOf(c, format, rate, pcm, encs) &&
      (Decode(Flatten(sent)) == Some(NonEmpty(encs)) <==> Fits32(NonEmpty(encs)))
  }

  lemma ScriptDecodes<E(!new)>(c: Codec<E>, format: Format, rate: nat, spoken: seq<seq<Sound>>, sent: seq<seq<Byte>>)
    requires !format.Wav? && rate >= 100 && SentAll(c, format, rate, Script(spoken), true, sent)
    ensures Decodes(c, format, rate, Joined(spoken), sent)
  {
    ScriptParts(spoken);
    var encs := Encodings(c, format, rate, Joined(spoken)).value;
    EncodingsAre(c, format, rate, Joined(spoken));
    FramingRoundTrip(NonEmpty(encs));
    hide Encodings, EncodingsOf, NonEmpty, Decode, Fits32, Flatten;
    assert EncodingsOf(c, format, rate, Joined(spoken), encs);
  }

  /** What streams `ids` make of the segments of a job, as samples. */
  function PcmOf(v: Desk.Voice, job: Job, ids: seq<nat>): seq<seq<int>>
    requires |ids| <= |job.segments|
  {
    Joined(Desk.Spoken(v, job, ids))
  }

  /** The client hears every segment up to the first that cannot be prompted, each
      as one stream of the run read it. */
  ghost predicate Hears<E(!new)>(v: Desk.Voice, job: Job, below: nat, c: Codec<E>, format: Format, rate: nat,
      sent: seq<seq<Byte>>)
    requires !format.Wav? && rate >= 100
  {
    exists ids :: |ids| == Desk.Sayable(v, job) && Desk.Successive(ids, below) &&
      Decodes(c, format, rate, PcmOf(v, job, ids), sent)
  }

  lemma ServedHears<E(!new)>(v: Desk.Voice, job: Job, got: seq<Piece>, below: nat,
                             c: Codec<E>, format: Format, rate: nat, sent: seq<seq<Byte>>)
    requires !format.Wav? && rate >= 100 && SentAll(c, format, rate, got, true, sent)
    requires Desk.HasAllSpoken(v, job, got, below)
    ensures Hears(v, job, below, c, format, rate, sent)
  {
    var ids :| Desk.AllSpokenBy(v, job, got, ids, below);
    hide SentAll, Decodes, Desk.Sayable, Desk.Successive, Desk.Spoken;
    ScriptDecodes(c, format, rate, Desk.Spoken(v, job, ids), sent);
  }

  lemma ServedStarts(v: Desk.Voice, job: Job, got: seq<Piece>, below: nat)
    requires Desk.VoiceValid(v) && Desk.HasAllSpoken(v, job, got, below)
    ensures got == [] <==> Desk.Sayable(v, job) == 0
    ensures FromFirst(got) == got
  {
    var ids :| Desk.AllSpokenBy(v, job, got, ids, below);
    ScriptStarts(Desk.Spoken(v, job, ids));
    if ids != [] {
      Desk.SayableIs(v, job, 1);
      assert v.prompts(Desk.SegmentOf(job, 0));
      assert |v.draw(ids[0], Desk.SegmentOf(job, 0))| > 0;
    }
  }

  // ----- the whole of it

  /** What came from the first frame on. */
  function FromFirst(got: seq<Piece>): seq<Piece> {
    if got != [] && got[0].SegmentEnd? then FromFirst(got[1..]) else got
  }

  /** The response to what a listener got: none without a frame. */
  method Respond<E(!new)>(got: seq<Piece>, codec: Codec<E>, format: Format, rate: nat, framed: bool, takes: Option<nat>,
                          resets: nat -> bool)
    returns (sent: Option<seq<seq<Byte>>>, ending: Ending)
    requires Streams(codec) && !format.Wav? && rate >= 100 && (format.Mp3? ==> codec.start.Ok?)
    ensures sent.None? <==> FromFirst(got) == []
    ensures sent.Some? && ending == Whole ==> SentAll(codec, format, rate, FromFirst(got), framed, sent.value)
    ensures sent.Some? && ending != Whole ==> SentSome(codec, format, rate, FromFirst(got), framed, sent.value)
  {
    hide SentAll, SentSome, Streams;
    var i := 0;
    assert got[0..] == got;
    while i < |got| && got[i].SegmentEnd?
      invariant 0 <= i <= |got| && FromFirst(got[i..]) == FromFirst(got)
    {
      assert got[i..][1..] == got[i + 1..];
      i := i + 1;
    }
    if i == |got| {
      return None, Whole;
    }
    assert [Audio(got[i].sound)] + got[i + 1..] == got[i..] == FromFirst(got);
    var out;
    out, ending := Stream(codec, format, rate, got[i].sound, got[i + 1..], framed, takes, resets);
    sent := Some(out);
  }

  /** The scheduler driven through any calls, and a listener among them that was
      spared and stays: the client of its framed response, sent whole, decodes
      every segment up to the first that cannot be prompted, each as one stream of
      the run read it alone. */
  method Answer<M(!new), E(!new)>(net: FlowLm.Net<M>, ears: Ears, before: seq<Listeners.Call>, c: Listeners.Call,
                                  after: seq<Listeners.Call>, masked: bool, codec: Codec<E>, format: Format, rate: nat,
                                  takes: Option<nat>, resets: nat -> bool)
    returns (sent: Option<seq<seq<Byte>>>, ending: Ending)
    requires FlowLm.NetValid(net) && c.Arrive? && c.leavesAfter.None?
    requires Streams(codec) && !format.Wav? && rate >= 100 && (format.Mp3? ==> codec.start.Ok?)
    requires Listeners.Enough(net, ears, before, c, after)
    ensures Listeners.Spared(net, ears, before, c, after) ==>
      var v, job := Listeners.VoiceOf(net, ears), Listeners.JobAfter(before, c);
      && (sent.None? <==> Desk.Sayable(v, job) == 0)
      && (sent.Some? && ending == Whole ==>
            Hears(v, job, Listeners.StreamsGiven(net, ears, before, c, after), codec, format, rate, sent.value))
  {
    hide *;
    var received := Listeners.Drive(net, ears, before + [c] + after, masked);
    var job := Listeners.JobAfter(before, c);
    Listeners.SparedGets(net, ears, before, c, after);
    Listeners.VoiceIsValid(net, ears);
    ghost var v, below := Listeners.VoiceOf(net, ears), Listeners.StreamsGiven(net, ears, before, c, after);
    sent, ending := Respond(received[job], codec, format, rate, true, takes, resets);
    if Listeners.Spared(net, ears, before, c, after) {
      ServedStarts(v, job, received[job], below);
      if sent.Some? && ending == Whole {
        ServedHears(v, job, received[job], below, codec, format, rate, sent.value);
      }
    }
  }
}
