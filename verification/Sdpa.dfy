/** Scaled dot-product attention of one head: untiled, tiled on the queries, and
    over keys that come in several pieces. */
module Sdpa {
  import opened Prelude
  import opened Softmax

  const TILING_THRESHOLD := 512
  const BLOCK_SIZE := 128

  /** The absolute position of query `i` when the queries are the last tokens. */
  function QueryPos(i: nat, qLen: nat, kvLen: nat): nat { i + Monus(kvLen, qLen) }

  /** First key a query at `pos` may see. */
  function Lo(pos: nat, ctx: Option<nat>): nat {
    match ctx
    case None => 0
    case Some(c) => Monus(pos + 1, c)
  }

  function Hi(pos: nat, kvLen: nat, causal: bool): nat {
    if causal then Min(pos + 1, kvLen) else kvLen
  }

  /** What query `i` must come out as: attention over its window of the keys. */
  function Windowed(kn: Kernel, q: seq<Vec>, k: seq<Vec>, v: seq<Vec>, causal: bool, ctx: Option<nat>, i: nat): Vec
    requires |q| <= |k| == |v| && i < |q|
  {
    var pos := QueryPos(i, |q|, |k|);
    var lo, hi := Lo(pos, ctx), Hi(pos, |k|, causal);
    Attention(kn, q[i], k[lo..hi], v[lo..hi])
  }

  predicate CanSkipMask(qLen: nat, kvLen: nat, causal: bool, ctx: Option<nat>) {
    if !causal || qLen != 1 then false else
    match ctx
    case None => true
    case Some(c) => kvLen <= c
  }

  /** The mask row of the query at `pos`: future keys and keys that left the
      window are minus infinity. */
  function MaskRow(pos: nat, kLen: nat, causal: bool, ctx: Option<nat>): (row: seq<Extended>)
    ensures |row| == kLen
  {
    seq(kLen, j requires 0 <= j < kLen =>
      if causal && j > pos then NegInf
      else if ctx.Some? && j <= pos - ctx.value then NegInf
      else Fin(0.0))
  }

  function MaskChunk(startQ: nat, numQ: nat, kLen: nat, totalQ: nat, causal: bool,
      ctx: Option<nat>): (mask: seq<seq<Extended>>)
    ensures |mask| == numQ
    ensures forall i :: 0 <= i < numQ ==> mask[i] == MaskRow(QueryPos(startQ + i, totalQ, kLen), kLen, causal, ctx)
  {
    seq(numQ, i requires 0 <= i < numQ => MaskRow(QueryPos(startQ + i, totalQ, kLen), kLen, causal, ctx))
  }

  /** A masked query is a query over its window. */
  lemma MaskRowIsWindow(kn: Kernel, q: seq<Vec>, k: seq<Vec>, v: seq<Vec>, causal: bool, ctx: Option<nat>, i: nat)
    requires |q| <= |k| == |v| && i < |q|
    ensures MaskedAttention(kn, q[i], k, v, MaskRow(QueryPos(i, |q|, |k|), |k|, causal, ctx))
         == Windowed(kn, q, k, v, causal, ctx, i)
  {
    var pos := QueryPos(i, |q|, |k|);
    MaskedIsWindowed(kn, q[i], k, v, MaskRow(pos, |k|, causal, ctx), Lo(pos, ctx), Hi(pos, |k|, causal));
  }

  /** The masks the code skips would have let every key through. */
  lemma SkippedMaskIsWindow(kn: Kernel, q: seq<Vec>, k: seq<Vec>, v: seq<Vec>, causal: bool, ctx: Option<nat>, i: nat)
    requires |q| <= |k| == |v| && i < |q|
    requires CanSkipMask(|q|, |k|, causal, ctx) || (!causal && ctx.None?)
    ensures Attention(kn, q[i], k, v) == Windowed(kn, q, k, v, causal, ctx, i)
  {
    assert k[0..|k|] == k && v[0..|v|] == v;
  }

  /** One tile of queries `[start, start + len)` against every key. */
  method Tile(kn: Kernel, q: seq<Vec>, k: seq<Vec>, v: seq<Vec>, start: nat, len: nat, causal: bool, ctx: Option<nat>)
    returns (out: seq<Vec>)
    requires |q| <= |k| == |v| && start + len <= |q|
    ensures |out| == len && forall i :: 0 <= i < len ==> out[i] == Windowed(kn, q, k, v, causal, ctx, start + i)
  {
    out := [];
    var mask := MaskChunk(start, len, |k|, |q|, causal, ctx);
    for i := 0 to len
      invariant |out| == i
      invariant forall j :: 0 <= j < i ==> out[j] == Windowed(kn, q, k, v, causal, ctx, start + j)
    {
      if causal || ctx.Some? {
        MaskRowIsWindow(kn, q, k, v, causal, ctx, start + i);
        out := out + [MaskedAttention(kn, q[start + i], k, v, mask[i])];
      } else {
        SkippedMaskIsWindow(kn, q, k, v, causal, ctx, start + i);
        out := out + [Attention(kn, q[start + i], k, v)];
      }
    }
  }

  /** Below the threshold one pass; above it, tiles of 128 queries. Either way
      each query attends exactly its window. */
  method Attend(kn: Kernel, q: seq<Vec>, k: seq<Vec>, v: seq<Vec>, causal: bool, ctx: Option<nat>)
    returns (out: seq<Vec>)
    requires |q| <= |k| == |v|
    ensures |out| == |q| && forall i :: 0 <= i < |q| ==> out[i] == Windowed(kn, q, k, v, causal, ctx, i)
  {
    if |q| < TILING_THRESHOLD {
      if CanSkipMask(|q|, |k|, causal, ctx) {
        SkippedMaskIsWindow(kn, q, k, v, causal, ctx, 0);
        return [Attention(kn, q[0], k, v)];
      }
      out := Tile(kn, q, k, v, 0, |q|, causal, ctx);
      return;
    }
    out := [];
    var start := 0;
    while start < |q|
      invariant 0 <= start <= |q| && |out| == start
      invariant forall i :: 0 <= i < start ==> out[i] == Windowed(kn, q, k, v, causal, ctx, i)
    {
      var end := Min(start + BLOCK_SIZE, |q|);
      var tile := Tile(kn, q, k, v, start, end - start, causal, ctx);
      out := out + tile;
      start := end;
    }
  }

  // ----- keys in pieces

  /** The probabilities of a softmax. */
  function Probabilities(ws: seq<real>): (ps: seq<real>)
    ensures |ps| == |ws|
  {
    seq(|ws|, j requires 0 <= j < |ws| => Quotient(ws[j], Sum(ws)))
  }

  lemma ProbabilitiesBlend(ws: seq<real>, vs: seq<Vec>, c: nat)
    requires |ws| == |vs|
    ensures Blend(Probabilities(ws), vs, c) == Quotient(Blend(ws, vs, c), Sum(ws))
  {
    var s := Sum(ws);
    if s != 0.0 {
      forall j | 0 <= j < |ws| ensures Probabilities(ws)[j] == ws[j] * (1.0 / s) { TimesInverse(ws[j], s); }
      Scaled(Probabilities(ws), ws, 1.0 / s, vs, c);
      TimesInverse(Blend(ws, vs, c), s);
    } else {
      ZerosVanish(Probabilities(ws), vs, c);
    }
  }

  function Scores(kn: Kernel, q: Vec, ks: seq<Vec>): (ss: seq<real>)
    ensures |ss| == |ks|
  {
    seq(|ks|, j requires 0 <= j < |ks| => Score(kn, q, ks[j]))
  }

  method ChunkedScores(kn: Kernel, q: Vec, kChunks: seq<seq<Vec>>) returns (scores: seq<real>)
    ensures scores == Scores(kn, q, Flatten(kChunks))
  {
    scores := [];
    for i := 0 to |kChunks|
      invariant scores == Scores(kn, q, Flatten(kChunks[..i]))
    {
      assert kChunks[..i + 1] == kChunks[..i] + [kChunks[i]];
      FlattenSnoc(kChunks[..i], kChunks[i]);
      scores := scores + Scores(kn, q, kChunks[i]);
    }
    assert kChunks[..|kChunks|] == kChunks;
  }

  function AddBlend(o: Vec, ps: seq<real>, vs: seq<Vec>): (r: Vec)
    requires |ps| == |vs|
    ensures |r| == |o| && forall c :: 0 <= c < |r| ==> r[c] == o[c] + Blend(ps, vs, c)
  {
    seq(|o|, c requires 0 <= c < |o| => o[c] + Blend(ps, vs, c))
  }

  method ChunkedBlend(probs: seq<real>, vChunks: seq<seq<Vec>>, dim: nat) returns (o: Vec)
    requires |probs| == |Flatten(vChunks)|
    ensures |o| == dim && forall c :: 0 <= c < dim ==> o[c] == Blend(probs, Flatten(vChunks), c)
  {
    o := seq(dim, _ => 0.0);
    var offset := 0;
    for i := 0 to |vChunks|
      invariant |o| == dim && offset == |Flatten(vChunks[..i])| <= |probs|
      invariant forall c :: 0 <= c < dim ==> o[c] == Blend(probs[..offset], Flatten(vChunks[..i]), c)
    {
      var vc := vChunks[i];
      ghost var before := Flatten(vChunks[..i]);
      assert vChunks[..i + 1] == vChunks[..i] + [vc];
      FlattenSnoc(vChunks[..i], vc);
      assert vChunks == vChunks[..i + 1] + vChunks[i + 1..];
      FlattenConcat(vChunks[..i + 1], vChunks[i + 1..]);
      var ps := probs[offset..offset + |vc|];
      assert probs[..offset + |vc|] == probs[..offset] + ps;
      forall c: nat | c < dim
        ensures Blend(probs[..offset + |vc|], before + vc, c) == o[c] + Blend(ps, vc, c)
      {
        BlendConcat(probs[..offset], ps, before, vc, c);
      }
      o := AddBlend(o, ps, vc);
      offset := offset + |vc|;
    }
    assert vChunks[..|vChunks|] == vChunks && probs[..offset] == probs;
  }

  /** One query over several pieces: scores piece by piece, one softmax over all
      of them, then the weighted values piece by piece. */
  method ChunkedQuery(kn: Kernel, q: Vec, kChunks: seq<seq<Vec>>, vChunks: seq<seq<Vec>>, mask: seq<Extended>)
    returns (o: Vec)
    requires |mask| == |Flatten(kChunks)| == |Flatten(vChunks)|
    ensures o == MaskedAttention(kn, q, Flatten(kChunks), Flatten(vChunks), mask)
  {
    var scores := ChunkedScores(kn, q, kChunks);
    var ws := seq(|scores|, j requires 0 <= j < |scores| == |mask| => ExpOf(kn, AddMask(scores[j], mask[j])));
    assert ws == MaskedWeights(kn, q, Flatten(kChunks), mask);
    o := ChunkedBlend(Probabilities(ws), vChunks, kn.dim);
    forall c | 0 <= c < kn.dim
      ensures o[c] == MaskedAttention(kn, q, Flatten(kChunks), Flatten(vChunks), mask)[c]
    {
      ProbabilitiesBlend(ws, Flatten(vChunks), c);
    }
  }

  /** Query `i` of several, masked unless every key is allowed. */
  method ChunkedRow(kn: Kernel, q: seq<Vec>, i: nat, kChunks: seq<seq<Vec>>, vChunks: seq<seq<Vec>>, total: nat,
                    causal: bool, ctx: Option<nat>)
    returns (o: Vec)
    requires i < |q| <= total == |Flatten(kChunks)| == |Flatten(vChunks)|
    ensures o == Windowed(kn, q, Flatten(kChunks), Flatten(vChunks), causal, ctx, i)
  {
    ghost var k, v := Flatten(kChunks), Flatten(vChunks);
    if CanSkipMask(|q|, total, causal, ctx) || (!causal && ctx.None?) {
      var mask := seq(total, _ => Fin(0.0));
      o := ChunkedQuery(kn, q[i], kChunks, vChunks, mask);
      SkippedMaskIsWindow(kn, q, k, v, causal, ctx, i);
      MaskedIsWindowed(kn, q[i], k, v, mask, 0, total);
      assert k[0..total] == k && v[0..total] == v;
    } else {
      o := ChunkedQuery(kn, q[i], kChunks, vChunks, MaskRow(QueryPos(i, |q|, total), total, causal, ctx));
      MaskRowIsWindow(kn, q, k, v, causal, ctx, i);
    }
  }

  method TotalLength(chunks: seq<seq<Vec>>) returns (total: nat)
    ensures total == |Flatten(chunks)|
  {
    total := 0;
    for i := 0 to |chunks|
      invariant total == |Flatten(chunks[..i])|
    {
      assert chunks[..i + 1] == chunks[..i] + [chunks[i]];
      FlattenSnoc(chunks[..i], chunks[i]);
      total := total + |chunks[i]|;
    }
    assert chunks[..|chunks|] == chunks;
  }

  /** Keys and values in pieces give what their concatenation gives. */
  method AttendChunked(kn: Kernel, q: seq<Vec>, kChunks: seq<seq<Vec>>, vChunks: seq<seq<Vec>>, causal: bool,
      ctx: Option<nat>)
    returns (out: seq<Vec>)
    requires |kChunks| == |vChunks|
    requires |q| <= |Flatten(kChunks)| == |Flatten(vChunks)|
    ensures |out| == |q|
    ensures forall i :: 0 <= i < |q| ==>
      out[i] == Windowed(kn, q, Flatten(kChunks), Flatten(vChunks), causal, ctx, i)
  {
    if kChunks == [] {
      return [];
    }
    if |kChunks| == 1 {
      assert Flatten(kChunks) == kChunks[0] + Flatten<Vec>([]) && Flatten(vChunks) == vChunks[0] + Flatten<Vec>([]);
      assert Flatten(kChunks) == kChunks[0] && Flatten(vChunks) == vChunks[0];
      if CanSkipMask(|q|, |kChunks[0]|, causal, ctx) {
        SkippedMaskIsWindow(kn, q, kChunks[0], vChunks[0], causal, ctx, 0);
        return [Attention(kn, q[0], kChunks[0], vChunks[0])];
      }
      out := Tile(kn, q, kChunks[0], vChunks[0], 0, |q|, causal, ctx);
      return;
    }
    var total := TotalLength(kChunks);
    out := [];
    for i := 0 to |q|
      invariant |out| == i
      invariant forall j :: 0 <= j < i ==>
        out[j] == Windowed(kn, q, Flatten(kChunks), Flatten(vChunks), causal, ctx, j)
    {
      var o := ChunkedRow(kn, q, i, kChunks, vChunks, total, causal, ctx);
      out := out + [o];
    }
  }
}
