/** The reference path: one reading on its own, over key/value buffers that
    double as they fill. */
module Reference {
  import opened Prelude
  import opened Softmax
  import opened StackedCache
  import opened FlowLm
  import Parity
  import Sdpa

  /** A query over the first `n` tokens. */
  function Causal(kn: Kernel, q: Heads, ks: seq<Heads>, vs: seq<Heads>, n: nat): Heads
    requires n <= |ks| == |vs|
  {
    AttentionHeads(kn, q, ks[..n], vs[..n])
  }

  /** Head `h` of every query. */
  method AttendHead(kn: Kernel, q: seq<Heads>, k: seq<Heads>, v: seq<Heads>, h: nat) returns (col: seq<Vec>)
    requires |q| <= |k| == |v|
    ensures |col| == |q|
    ensures forall i :: 0 <= i < |q| ==> var n := |k| - |q| + i + 1;
      col[i] == Attention(kn, HeadAt(q[i], h), HeadOf(k[..n], h), HeadOf(v[..n], h))
  {
    col := Sdpa.Attend(kn, HeadOf(q, h), HeadOf(k, h), HeadOf(v, h), true, None);
    forall i | 0 <= i < |q|
      ensures var n := |k| - |q| + i + 1;
        col[i] == Attention(kn, HeadAt(q[i], h), HeadOf(k[..n], h), HeadOf(v[..n], h))
    {
      var n := |k| - |q| + i + 1;
      assert HeadOf(k, h)[0..n] == HeadOf(k[..n], h) && HeadOf(v, h)[0..n] == HeadOf(v[..n], h);
    }
  }

  /** The last `|q|` tokens attend everything up to themselves, head by head. */
  method AttendCausal(kn: Kernel, q: seq<Heads>, k: seq<Heads>, v: seq<Heads>, heads: nat) returns (out: seq<Heads>)
    requires |q| <= |k| == |v| && forall i :: 0 <= i < |q| ==> |q[i]| == heads
    ensures |out| == |q|
    ensures forall i :: 0 <= i < |q| ==> out[i] == Causal(kn, q[i], k, v, |k| - |q| + i + 1)
  {
    var cols: seq<seq<Vec>> := [];
    for h := 0 to heads
      invariant |cols| == h
      invariant forall g :: 0 <= g < h ==> |cols[g]| == |q|
      invariant forall g, i :: 0 <= g < h && 0 <= i < |q| ==>
        cols[g][i] == Causal(kn, q[i], k, v, |k| - |q| + i + 1)[g]
    {
      var col := AttendHead(kn, q, k, v, h);
      cols := cols + [col];
    }
    out := seq(|q|, i requires 0 <= i < |q| && |cols| == heads && (forall g :: 0 <= g < heads ==> |cols[g]| == |q|) =>
      seq(heads, h requires 0 <= h < heads => cols[h][i]));
  }

  /** The cache of an attention layer without a window. */
  class GrowingKv {
    var kBuf: seq<Heads>
    var vBuf: seq<Heads>
    var len: nat
    var pos: nat
    ghost var row: Row

    ghost predicate Valid()
      reads this
    {
      && len <= |kBuf| == |vBuf|
      && row == Row(kBuf[..len], vBuf[..len], pos)
    }

    /** A buffer holding `r`, with `spare` columns to go. */
    constructor (r: Row, spare: nat)
      requires Paired(r)
      ensures Valid() && row == r
    {
      kBuf, vBuf, len, pos, row := r.keys + Zeros(spare), r.vals + Zeros(spare), |r.keys|, r.pos, r;
    }

    /** Grows the buffer to the next power of two when `n` more columns do not
        fit. */
    method Reserve(n: nat)
      requires Valid()
      modifies this`kBuf, this`vBuf
      ensures Valid() && len + n <= |kBuf|
    {
      if len + n > |kBuf| {
        var extra := NextPowerOfTwo(len + n) - |kBuf|;
        kBuf, vBuf := kBuf + Zeros(extra), vBuf + Zeros(extra);
      }
    }

    /** Writes the new columns after the old ones. */
    method Append(k: seq<Heads>, v: seq<Heads>, currentPos: nat)
      requires Valid() && |k| == |v|
      modifies this
      ensures Valid() && row == Row(old(row).keys + k, old(row).vals + v, currentPos + |k|)
    {
      Reserve(|k|);
      kBuf := kBuf[..len] + k + kBuf[len + |k|..];
      vBuf := vBuf[..len] + v + vBuf[len + |k|..];
      len, pos := len + |k|, currentPos + |k|;
      row := Row(row.keys + k, row.vals + v, currentPos + |k|);
    }

    /** A run of new tokens: each attends the history and the new tokens up to
        itself. */
    method Forward(kn: Kernel, q: seq<Heads>, k: seq<Heads>, v: seq<Heads>, heads: nat, currentPos: nat)
      returns (out: seq<Heads>)
      requires Valid() && |q| == |k| == |v| && forall i :: 0 <= i < |q| ==> |q[i]| == heads
      modifies this
      ensures Valid() && row == Row(old(row).keys + k, old(row).vals + v, currentPos + |k|)
      ensures |out| == |q|
      ensures forall i :: 0 <= i < |q| ==>
        out[i] == Causal(kn, q[i], row.keys, row.vals, old(|row.keys|) + i + 1)
    {
      Append(k, v, currentPos);
      out := AttendCausal(kn, q, kBuf[..len], vBuf[..len], heads);
    }
  }

  ghost predicate Owns(caches: seq<GrowingKv>, rows: seq<Row>)
    reads caches
    ensures Owns(caches, rows) ==> |caches| == |rows|
  {
    && |caches| == |rows|
    && (forall l, m :: 0 <= l < m < |caches| ==> caches[l] != caches[m])
    && (forall l :: 0 <= l < |caches| ==> caches[l].Valid() && caches[l].row == rows[l])
  }

  /** The prompted state: every layer's history in a buffer of its own. */
  method Prompted(rows: seq<Row>) returns (caches: seq<GrowingKv>)
    requires forall l :: 0 <= l < |rows| ==> Paired(rows[l])
    ensures Owns(caches, rows) && fresh(caches)
  {
    caches := [];
    for l := 0 to |rows|
      invariant Owns(caches, rows[..l]) && fresh(caches)
    {
      var c := new GrowingKv(rows[l], 64);
      caches := caches + [c];
    }
    assert rows[..|rows|] == rows;
  }

  /** One layer on one token. */
  method ForwardLayer(kn: Kernel, layer: Layer, cache: GrowingKv, x: Vec, currentPos: nat) returns (y: Vec)
    requires cache.Valid() && cache.row.pos == currentPos
    modifies cache
    ensures cache.Valid() && (cache.row, y) == LayerStep(kn, layer, old(cache.row), x)
  {
    var (q, key, val) := layer.qkv(x, currentPos);
    var out := cache.Forward(kn, [q], [key], [val], |q|, currentPos);
    assert cache.row.keys[..|cache.row.keys|] == cache.row.keys && cache.row.vals[..|cache.row.vals|] == cache.row.vals;
    y := layer.mix(x, out[0]);
  }

  method ForwardLayerOf(kn: Kernel, layers: seq<Layer>, caches: seq<GrowingKv>, ghost rows: seq<Row>, l: nat, x: Vec,
      currentPos: nat)
    returns (y: Vec)
    requires Owns(caches, rows) && l < |caches| == |layers| && Paired(rows[l]) && rows[l].pos == currentPos
    modifies caches[l]
    ensures var (row, z) := LayerStep(kn, layers[l], rows[l], x); Owns(caches, rows[l := row]) && y == z
  {
    hide GrowingKv.Valid, LayerStep;
    y := ForwardLayer(kn, layers[l], caches[l], x, currentPos);
  }

  /** Every layer leaves every row one position further. */
  lemma {:induction false} ThroughPositions(kn: Kernel, layers: seq<Layer>, rows: seq<Row>, x: Vec, n: nat, pos: nat)
    requires n <= |layers| == |rows| && forall l :: 0 <= l < |rows| ==> Paired(rows[l]) && rows[l].pos == pos
    ensures forall l :: 0 <= l < n ==> Through(kn, layers, rows, x, n).0[l].pos == pos + 1
  {
    if n > 0 {
      ThroughPositions(kn, layers, rows, x, n - 1, pos);
    }
  }

  /** Every layer in turn, all at the position of the first. */
  method ForwardAll(kn: Kernel, layers: seq<Layer>, caches: seq<GrowingKv>, ghost rows: seq<Row>, x: Vec)
    returns (y: Vec)
    requires Owns(caches, rows) && |layers| == |caches| > 0
    requires forall l :: 0 <= l < |rows| ==> Paired(rows[l]) && rows[l].pos == rows[0].pos
    modifies caches
    ensures Owns(caches, Through(kn, layers, rows, x, |layers|).0)
    ensures y == Through(kn, layers, rows, x, |layers|).1
  {
    var currentPos := caches[0].pos;
    hide Owns, LayerStep;
    y := x;
    for l := 0 to |layers|
      invariant Owns(caches, Through(kn, layers, rows, x, l).0)
      invariant y == Through(kn, layers, rows, x, l).1
    {
      y := ForwardLayerOf(kn, layers, caches, Through(kn, layers, rows, x, l).0, l, y, currentPos);
    }
  }

  ghost predicate SamePos(rows: seq<Row>) {
    forall l :: 0 <= l < |rows| ==> Paired(rows[l]) && rows[l].pos == rows[0].pos
  }

  /** One frame: the flow LM over its caches, then the decoder. */
  method GenerateFrame<M(!new)>(net: Net<M>, caches: seq<GrowingKv>, ghost solo: Solo<M>, now: Progress<M>)
    returns (next: Progress<M>, audio: Vec, finished: bool)
    requires NetValid(net) && Owns(caches, solo.rows) && |caches| == |net.layers| && SamePos(solo.rows) && solo.p == now
    modifies caches
    ensures var (solo', audio', done) := FrameStep(net, solo);
      && next == solo'.p && audio == audio' && Owns(caches, solo'.rows) && SamePos(solo'.rows)
      && (done <==> finished || next.step >= next.maxGen)
  {
    hide Owns;
    ThroughPositions(net.kernel, net.layers, solo.rows, net.embed(now.input), |net.layers|, solo.rows[0].pos);
    var h := ForwardAll(net.kernel, net.layers, caches, solo.rows, net.embed(now.input));
    var (p, a, _) := Emit(net, now, h);
    next, audio, finished := p, a, PastEos(now, p.eosStep);
  }

  lemma BeginsValid<M(!new)>(net: Net<M>, u: Utterance, seed: nat)
    requires NetValid(net) && net.prompt(u).Some?
    ensures var p := net.prompt(u).value;
      var s := Solo(p.rows, Begin(net, p, seed));
      && SoloValid(net, s) && SamePos(s.rows)
      && s.p.step == 0 && s.p.maxGen == MaxGenLen(p) && |p.rows| == |net.layers|
      && forall l :: 0 <= l < |p.rows| ==> Paired(p.rows[l])
  {
  }

  lemma SoloFits<M(!new)>(net: Net<M>, s: Solo<M>)
    requires SoloValid(net, s)
    ensures |s.rows| == |net.layers| && s.p.step < s.p.maxGen && forall l :: 0 <= l < |s.rows| ==> Paired(s.rows[l])
  {
  }

  /** Where the loop is: `frames` so far, and the rest of the reading to come
      unless it is finished. */
  ghost predicate Going<M(!new)>(net: Net<M>, whole: seq<Vec>, frames: seq<Vec>, solo: Solo<M>, finished: bool,
      step: nat) {
    && (!finished && step < solo.p.maxGen ==> SoloValid(net, solo) && solo.p.step == step)
    && whole == frames + if !finished && step < solo.p.maxGen && SoloValid(net, solo) then Alone(net, solo) else []
  }

  lemma GoesOn<M(!new)>(net: Net<M>, whole: seq<Vec>, frames: seq<Vec>, solo: Solo<M>, step: nat)
    requires Going(net, whole, frames, solo, false, step) && step < solo.p.maxGen
    ensures SoloValid(net, solo)
    ensures var (solo', audio, done) := FrameStep(net, solo);
      solo'.p.maxGen == solo.p.maxGen && Going(net, whole, frames + [audio], solo', done, step + 1)
  {
    hide FrameStep, Alone, SoloValid;
    SoloFits(net, solo);
    AloneUnfolds(net, solo);
    var (solo', audio, done) := FrameStep(net, solo);
    DoneByLimit(net, solo);
    var rest := if done then [] else Alone(net, solo');
    assert whole == frames + ([audio] + rest) == (frames + [audio]) + rest;
  }

  lemma DoneByLimit<M(!new)>(net: Net<M>, solo: Solo<M>)
    requires SoloValid(net, solo)
    ensures solo.p.step + 1 >= solo.p.maxGen ==> FrameStep(net, solo).2
  {
  }

  /** Reads a text with nothing else in the model, on the noise of `seed`. */
  method GenerateSegment<M(!new)>(net: Net<M>, u: Utterance, seed: nat) returns (r: Option<seq<Vec>>)
    requires NetValid(net)
    ensures r.None? <==> net.prompt(u).None?
    ensures r.Some? ==> var p := net.prompt(u).value;
      SoloValid(net, Solo(p.rows, Begin(net, p, seed))) && r.value == Alone(net, Solo(p.rows, Begin(net, p, seed)))
  {
    if net.prompt(u).None? {
      return None;
    }
    var p := net.prompt(u).value;
    BeginsValid(net, u, seed);
    ghost var solo := Solo(p.rows, Begin(net, p, seed));
    ghost var whole := Alone(net, solo);
    assert Going(net, whole, [], solo, false, 0) by { hide Alone; }
    assert [] + whole == whole;
    hide *;
    var caches := Prompted(p.rows);
    var frames := [];
    var now, finished := Begin(net, p, seed), false;
    for step := 0 to MaxGenLen(p)
      invariant solo.p == now && now.maxGen == MaxGenLen(p)
      invariant Owns(caches, solo.rows) && fresh(caches) && |caches| == |net.layers| && SamePos(solo.rows)
      invariant Going(net, whole, frames, solo, finished, step)
    {
      if finished {
        GoingEnds(net, whole, frames, solo, finished, step);
        return Some(frames);
      }
      GoesOn(net, whole, frames, solo, step);
      SoloFits(net, solo);
      ghost var (solo', _, done) := FrameStep(net, solo);
      var next, audio, last := GenerateFrame(net, caches, solo, now);
      frames, now, finished, solo := frames + [audio], next, last, solo';
    }
    GoingEnds(net, whole, frames, solo, finished, MaxGenLen(p));
    r := Some(frames);
  }

  lemma GoingEnds<M(!new)>(net: Net<M>, whole: seq<Vec>, frames: seq<Vec>, solo: Solo<M>, finished: bool, step: nat)
    requires Going(net, whole, frames, solo, finished, step) && (finished || step >= solo.p.maxGen)
    ensures frames == whole
  {
  }

  /** A text read alone and read beside others, added and removed at any moments:
      the same frames, up to where it was removed, on the same noise or at
      temperature zero on any. */
  method BatchParity<M(!new)>(net: Net<M>, before: seq<Parity.Op>, u: Utterance, after: seq<Parity.Op>, seed: nat,
      masked: bool)
    returns (alone: seq<Vec>, frames: seq<Frame>)
    requires NetValid(net) && net.prompt(u).Some?
    requires seed == Parity.IdsGiven(net, before) || NoiseFree(net)
    ensures Parity.BatchValid(net, Parity.Batch(0, []))
    ensures var id := Parity.Run(net, Parity.Batch(0, []), before).0.nextId;
      Parity.FramesOf(id, frames) == alone[..Min(|alone|, Parity.StepsBeforeRemoval(after, id))]
  {
    hide *;
    Parity.RunNothing(net);
    Parity.IdsGivenIs(net, Parity.Batch(0, []), before);
    var r := GenerateSegment(net, u, seed);
    alone := r.value;
    frames := Parity.Replay(net, before + [Parity.Add(u)] + after, masked);
    Parity.ReadsAsAlone(net, before, u, after);
    AnySeed(net, u, seed, Parity.IdsGiven(net, before));
  }

  lemma AnySeed<M(!new)>(net: Net<M>, u: Utterance, a: nat, b: nat)
    requires NetValid(net) && net.prompt(u).Some? && (a == b || NoiseFree(net))
    ensures var p := net.prompt(u).value;
      && SoloValid(net, Solo(p.rows, Begin(net, p, a))) && SoloValid(net, Solo(p.rows, Begin(net, p, b)))
      && Alone(net, Solo(p.rows, Begin(net, p, a))) == Alone(net, Solo(p.rows, Begin(net, p, b)))
  {
    BeginsValid(net, u, a);
    BeginsValid(net, u, b);
    hide Alone;
    var p := net.prompt(u).value;
    if a != b {
      SeedUnused(net, Solo(p.rows, Begin(net, p, a)), b);
    }
  }
}
