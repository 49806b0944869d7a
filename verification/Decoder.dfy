/** The composed streaming decoder: upsampling, the windowed transformer and the
    convolutional layers, each carrying its own state from call to call. */
module Decoder {
  import opened Prelude
  import opened Softmax
  import opened StackedCache
  import opened Conv
  import opened RingAttention
  import FlowLm

  datatype Layer =
    | Pointwise(f: Vec -> Vec)
    | Convolve(conv: Conv1d)
    | Upsample(convtr: ConvTr)
    | Residual(block: seq<Layer>)
    | Transform(kernel: Kernel, ctx: nat, blocks: seq<FlowLm.Layer>)

  /** A layer's entry in the model state. */
  datatype State =
    | Stateless
    | Previous(frames: seq<Vec>)
    | Partial(tail: seq<Vec>)
    | Block(states: seq<State>)
    | Rings(rows: seq<Row>)

  predicate PairedRows(rows: seq<Row>) { forall l :: 0 <= l < |rows| ==> Paired(rows[l]) }

  /** Only an upsampling layer returns more frames than it takes. */
  predicate SameRate(l: Layer) { !l.Upsample? }

  predicate Fits(l: Layer, st: State)
    decreases l
  {
    match (l, st)
    case (Pointwise(_), Stateless) => true
    case (Convolve(c), Previous(frames)) => Conv1dValid(c) && c.stride == 1 && |frames| == PadLeft(c)
    case (Upsample(c), Partial(tail)) => ConvTrValid(c) && c.stride <= c.kernel && |tail| == Trim(c)
    case (Residual(block), Block(states)) =>
      FitAll(block, states) && forall i :: 0 <= i < |block| ==> SameRate(block[i])
    case (Transform(_, _, blocks), Rings(rows)) => |rows| == |blocks| && PairedRows(rows)
    case _ => false
  }

  predicate FitAll(ls: seq<Layer>, sts: seq<State>)
    decreases ls
  {
    |ls| == |sts| && (ls == [] || (Fits(ls[0], sts[0]) && FitAll(ls[1..], sts[1..])))
  }

  // ----- what each layer computes

  function VecSum(a: Vec, b: Vec): (r: Vec)
    ensures |r| == |a|
  {
    seq(|a|, i requires 0 <= i < |a| => a[i] + At(b, i))
  }

  function Plus(x: seq<Vec>, v: seq<Vec>): (r: seq<Vec>)
    requires |x| == |v|
    ensures |r| == |x| && forall i :: 0 <= i < |r| ==> r[i] == VecSum(x[i], v[i])
  {
    seq(|x|, i requires 0 <= i < |x| == |v| => VecSum(x[i], v[i]))
  }

  function Map(f: Vec -> Vec, x: seq<Vec>): (r: seq<Vec>)
    ensures |r| == |x| && forall i :: 0 <= i < |r| ==> r[i] == f(x[i])
  {
    seq(|x|, i requires 0 <= i < |x| => f(x[i]))
  }

  function Tokens(l: FlowLm.Layer, x: seq<Vec>, pos: nat): (ts: seq<Token>)
    ensures |ts| == |x|
    ensures forall i :: 0 <= i < |ts| ==> ts[i] == var (q, k, v) := l.qkv(x[i], pos + i); Token(q, k, v)
  {
    seq(|x|, i requires 0 <= i < |x| => var (q, k, v) := l.qkv(x[i], pos + i); Token(q, k, v))
  }

  function Mixed(l: FlowLm.Layer, x: seq<Vec>, out: seq<Heads>): (y: seq<Vec>)
    requires |x| == |out|
    ensures |y| == |x| && forall i :: 0 <= i < |y| ==> y[i] == l.mix(x[i], out[i])
  {
    seq(|x|, i requires 0 <= i < |x| == |out| => l.mix(x[i], out[i]))
  }

  /** One transformer block on a run of frames. */
  function BlockStep(kn: Kernel, ctx: nat, l: FlowLm.Layer, row: Row, x: seq<Vec>, pos: nat): (r: (Row, seq<Vec>))
    requires Paired(row)
    ensures Paired(r.0) && r.0.pos == pos + |x| && |r.1| == |x|
  {
    var (kept, out) := RingStep(kn, ctx, row, Tokens(l, x, pos), pos);
    (kept, Mixed(l, x, out))
  }

  /** Every block, at the position the first one has reached. */
  function BlockSteps(kn: Kernel, ctx: nat, ls: seq<FlowLm.Layer>, rows: seq<Row>, x: seq<Vec>,
      pos: nat): (r: (seq<Row>, seq<Vec>))
    requires |ls| == |rows| && PairedRows(rows)
    ensures |r.0| == |rows| && PairedRows(r.0) && |r.1| == |x|
    ensures rows != [] ==> r.0[0].pos == pos + |x|
    decreases |ls|
  {
    if ls == [] then ([], x) else
    var (row, y) := BlockStep(kn, ctx, ls[0], rows[0], x, pos);
    var (rest, z) := BlockSteps(kn, ctx, ls[1..], rows[1..], y, pos);
    ([row] + rest, z)
  }

  function PosOf(rows: seq<Row>): nat { if rows == [] then 0 else rows[0].pos }

  lemma {:induction false} ConvLength(c: Conv1d, x: seq<Vec>, at: nat)
    requires Conv1dValid(c) && c.stride == 1
    ensures |ConvFrom(c, x, at)| == Max(0, |x| - EffectiveKernel(c) + 1 - at)
    decreases |x| - at
  {
    if at + EffectiveKernel(c) <= |x| {
      ConvLength(c, x, at + 1);
    }
  }

  lemma NonEmptyTimes(t: nat, s: nat)
    requires t > 0 && s > 0
    ensures t * s > 0
  {
  }

  /** One call of one layer. */
  function Run(l: Layer, st: State, x: seq<Vec>, step: nat): (r: (State, seq<Vec>))
    requires Fits(l, st) && x != []
    ensures Fits(l, r.0) && r.1 != [] && (SameRate(l) ==> |r.1| == |x|)
    decreases l, 1
  {
    match (l, st)
    case (Pointwise(f), Stateless) => (Stateless, Map(f, x))
    case (Convolve(c), Previous(frames)) =>
      var padded := Padded(c, frames, x, step);
      ConvLength(c, padded, 0);
      (Previous(padded[|x|..]), ConvFrom(c, padded, 0))
    case (Upsample(c), Partial(tail)) =>
      var (next, y) := ConvTrStep(c, tail, x);
      NonEmptyTimes(|x|, c.stride);
      (Partial(next), y)
    case (Residual(block), Block(states)) =>
      var (next, v) := RunAll(block, states, x, step);
      (Block(next), Plus(x, v))
    case (Transform(kn, ctx, blocks), Rings(rows)) =>
      var (next, y) := BlockSteps(kn, ctx, blocks, rows, x, PosOf(rows));
      (Rings(next), y)
  }

  /** One call of a list of layers, each on what the one before returned. */
  function RunAll(ls: seq<Layer>, sts: seq<State>, x: seq<Vec>, step: nat): (r: (seq<State>, seq<Vec>))
    requires FitAll(ls, sts) && x != []
    ensures FitAll(ls, r.0) && r.1 != []
    ensures (forall i :: 0 <= i < |ls| ==> SameRate(ls[i])) ==> |r.1| == |x|
    decreases ls, 0
  {
    if ls == [] then ([], x) else
    var (st, y) := Run(ls[0], sts[0], x, step);
    var (rest, z) := RunAll(ls[1..], sts[1..], y, step);
    ([st] + rest, z)
  }

  // ----- any cutting of the input

  /** `run` on `a` and then on `b`, against `run` on both. */
  lemma ConvolveSplit(c: Conv1d, frames: seq<Vec>, a: seq<Vec>, b: seq<Vec>, step: nat, later: nat)
    requires Conv1dValid(c) && c.stride == 1 && |frames| == PadLeft(c) && a != [] && b != [] && later > 0
    ensures var pa := Padded(c, frames, a, step); var pb := Padded(c, pa[|a|..], b, later);
      var whole := Padded(c, frames, a + b, step);
      ConvFrom(c, whole, 0) == ConvFrom(c, pa, 0) + ConvFrom(c, pb, 0) && whole[|a + b|..] == pb[|b|..]
  {
    hide ConvFrom;
    var pad := if step == 0 && c.replicate then Copies(a[0], PadLeft(c)) else frames;
    assert (a + b)[0] == a[0];
    ConvSplit(c, pad, a, b);
  }

  lemma BlockSplit(kn: Kernel, ctx: nat, l: FlowLm.Layer, row: Row, a: seq<Vec>, b: seq<Vec>, pos: nat)
    requires Paired(row)
    ensures var (r1, ya) := BlockStep(kn, ctx, l, row, a, pos); var (r2, yb) := BlockStep(kn, ctx, l, r1, b, r1.pos);
      BlockStep(kn, ctx, l, row, a + b, pos) == (r2, ya + yb)
  {
    hide RingStep;
    var ta, tb := Tokens(l, a, pos), Tokens(l, b, pos + |a|);
    assert Tokens(l, a + b, pos) == ta + tb;
    RingSplit(kn, ctx, row, ta, tb, pos);
    assert RingStep(kn, ctx, row, ta, pos).0.pos == pos + |a| by { RingPos(kn, ctx, row, ta, pos); }
    var (r1, oa) := RingStep(kn, ctx, row, ta, pos);
    var (r2, ob) := RingStep(kn, ctx, r1, tb, r1.pos);
    assert Mixed(l, a + b, oa + ob) == Mixed(l, a, oa) + Mixed(l, b, ob);
  }

  lemma RingPos(kn: Kernel, ctx: nat, row: Row, ts: seq<Token>, pos: nat)
    requires Paired(row)
    ensures RingStep(kn, ctx, row, ts, pos).0.pos == pos + |ts|
  {
  }

  lemma BlockStepsFirst(kn: Kernel, ctx: nat, ls: seq<FlowLm.Layer>, rows: seq<Row>, x: seq<Vec>, pos: nat)
    requires ls != [] && |ls| == |rows| && PairedRows(rows)
    ensures Paired(rows[0]) && PairedRows(rows[1..])
    ensures var (r1, y) := BlockStep(kn, ctx, ls[0], rows[0], x, pos);
      var (rest, z) := BlockSteps(kn, ctx, ls[1..], rows[1..], y, pos);
      BlockSteps(kn, ctx, ls, rows, x, pos) == ([r1] + rest, z)
  {
    hide BlockStep;
  }

  lemma {:induction false} BlocksSplit(kn: Kernel, ctx: nat, ls: seq<FlowLm.Layer>, rows: seq<Row>, a: seq<Vec>,
      b: seq<Vec>, pos: nat)
    requires |ls| == |rows| && PairedRows(rows)
    ensures var (r1, ya) := BlockSteps(kn, ctx, ls, rows, a, pos);
      var (r2, yb) := BlockSteps(kn, ctx, ls, r1, b, pos + |a|);
      BlockSteps(kn, ctx, ls, rows, a + b, pos) == (r2, ya + yb)
    decreases |ls|
  {
    if ls != [] {
      hide *;
      BlockStepsFirst(kn, ctx, ls, rows, a, pos);
      BlockStepsFirst(kn, ctx, ls, rows, a + b, pos);
      var (r1, ya) := BlockStep(kn, ctx, ls[0], rows[0], a, pos);
      var (rest, za) := BlockSteps(kn, ctx, ls[1..], rows[1..], ya, pos);
      BlockSplit(kn, ctx, ls[0], rows[0], a, b, pos);
      BlockStepsFirst(kn, ctx, ls, [r1] + rest, b, pos + |a|);
      HeadAndTail(r1, rest);
      BlocksSplit(kn, ctx, ls[1..], rows[1..], ya, BlockStep(kn, ctx, ls[0], r1, b, pos + |a|).1, pos);
    }
  }

  lemma HeadAndTail<T>(x: T, rest: seq<T>)
    ensures ([x] + rest)[0] == x && ([x] + rest)[1..] == rest
  {
  }

  lemma TransformSplit(kn: Kernel, ctx: nat, ls: seq<FlowLm.Layer>, rows: seq<Row>, a: seq<Vec>, b: seq<Vec>)
    requires |ls| == |rows| && PairedRows(rows)
    ensures var (r1, ya) := BlockSteps(kn, ctx, ls, rows, a, PosOf(rows));
      var (r2, yb) := BlockSteps(kn, ctx, ls, r1, b, PosOf(r1));
      BlockSteps(kn, ctx, ls, rows, a + b, PosOf(rows)) == (r2, ya + yb)
  {
    hide BlockStep, PairedRows;
    BlocksSplit(kn, ctx, ls, rows, a, b, PosOf(rows));
  }

  /** Every layer is a streaming transducer: a later call picks up where the
      first one stopped. */
  lemma {:induction false} RunSplit(l: Layer, st: State, a: seq<Vec>, b: seq<Vec>, step: nat, later: nat)
    requires Fits(l, st) && a != [] && b != [] && later > 0
    ensures var (s1, ya) := Run(l, st, a, step); var (s2, yb) := Run(l, s1, b, later);
      Run(l, st, a + b, step) == (s2, ya + yb)
    decreases l, 1
  {
    hide ConvFrom, ConvTrStep, BlockSteps, RunAll, Padded, PadLeft, EffectiveKernel, FitAll;
    match (l, st)
    case (Pointwise(f), Stateless) => assert Map(f, a + b) == Map(f, a) + Map(f, b);
    case (Convolve(c), Previous(frames)) => ConvolveSplit(c, frames, a, b, step, later);
    case (Upsample(c), Partial(tail)) => ConvTrSplit(c, tail, a, b);
    case (Residual(block), Block(states)) =>
      RunAllSplit(block, states, a, b, step, later);
      var (s1, va) := RunAll(block, states, a, step);
      var (s2, vb) := RunAll(block, s1, b, later);
      assert Plus(a + b, va + vb) == Plus(a, va) + Plus(b, vb);
    case (Transform(kn, ctx, blocks), Rings(rows)) =>
      TransformSplit(kn, ctx, blocks, rows, a, b);
  }

  /** The law is closed under composition. */
  lemma {:induction false} RunAllSplit(ls: seq<Layer>, sts: seq<State>, a: seq<Vec>, b: seq<Vec>, step: nat, later: nat)
    requires FitAll(ls, sts) && a != [] && b != [] && later > 0
    ensures var (s1, ya) := RunAll(ls, sts, a, step); var (s2, yb) := RunAll(ls, s1, b, later);
      RunAll(ls, sts, a + b, step) == (s2, ya + yb)
    decreases ls, 0
  {
    if ls != [] {
      hide Run;
      RunSplit(ls[0], sts[0], a, b, step, later);
      var (s1, ya) := Run(ls[0], sts[0], a, step);
      var (s2, yb) := Run(ls[0], s1, b, later);
      RunAllSplit(ls[1..], sts[1..], ya, yb, step, later);
      var (rest, za) := RunAll(ls[1..], sts[1..], ya, step);
      assert ([s1] + rest)[0] == s1 && ([s1] + rest)[1..] == rest;
    }
  }

  predicate NonEmptyChunks(chunks: seq<seq<Vec>>) { forall i :: 0 <= i < |chunks| ==> chunks[i] != [] }

  /** Calls one after another, counting steps. */
  ghost function RunChunks(ls: seq<Layer>, sts: seq<State>, chunks: seq<seq<Vec>>, step: nat): (seq<State>, seq<Vec>)
    requires FitAll(ls, sts) && NonEmptyChunks(chunks)
    decreases |chunks|
  {
    if chunks == [] then (sts, []) else
    var (s1, y) := RunAll(ls, sts, chunks[0], step);
    var (last, rest) := RunChunks(ls, s1, chunks[1..], step + 1);
    (last, y + rest)
  }

  /** Decoding in any number of calls, one latent each or many, is decoding in
      one call: the samples join to the same and so do the states. */
  lemma {:induction false} ChunksAreOneCall(ls: seq<Layer>, sts: seq<State>, chunks: seq<seq<Vec>>, step: nat)
    requires FitAll(ls, sts) && NonEmptyChunks(chunks) && chunks != []
    ensures Flatten(chunks) != [] && RunChunks(ls, sts, chunks, step) == RunAll(ls, sts, Flatten(chunks), step)
    decreases |chunks|
  {
    var (s1, y) := RunAll(ls, sts, chunks[0], step);
    assert chunks[0] != [];
    if |chunks| == 1 {
      assert chunks == [chunks[0]] && Flatten(chunks) == chunks[0] + Flatten<Vec>([]);
      assert Flatten(chunks) == chunks[0];
      assert RunChunks(ls, s1, chunks[1..], step + 1) == (s1, []) && y + [] == y;
    } else {
      ChunksAreOneCall(ls, s1, chunks[1..], step + 1);
      ChunksAreOneCallLater(ls, sts, chunks, step);
    }
  }

  /** The step number of a later call does not matter, and its split with the
      first one is the split of the whole. */
  lemma ChunksAreOneCallLater(ls: seq<Layer>, sts: seq<State>, chunks: seq<seq<Vec>>, step: nat)
    requires FitAll(ls, sts) && NonEmptyChunks(chunks) && |chunks| > 1 && Flatten(chunks[1..]) != [] && chunks[0] != []
    ensures var (s1, y) := RunAll(ls, sts, chunks[0], step);
      var (s2, z) := RunAll(ls, s1, Flatten(chunks[1..]), step + 1);
      Flatten(chunks) != [] && RunAll(ls, sts, Flatten(chunks), step) == (s2, y + z)
  {
    hide RunAll;
    RunAllSplit(ls, sts, chunks[0], Flatten(chunks[1..]), step, step + 1);
  }

  // ----- the decoder as it is called

  lemma RunAllCons(l: Layer, ls: seq<Layer>, st: State, sts: seq<State>, x: seq<Vec>, step: nat)
    requires Fits(l, st) && FitAll(ls, sts) && x != []
    ensures FitAll([l] + ls, [st] + sts)
    ensures var (t, y) := Run(l, st, x, step); var (rest, z) := RunAll(ls, sts, y, step);
      RunAll([l] + ls, [st] + sts, x, step) == ([t] + rest, z)
  {
    hide Run, Fits;
    assert ([l] + ls)[1..] == ls && ([st] + sts)[1..] == sts;
  }

  /** Two lists of layers in turn are one list. */
  ghost predicate Joins(l1: seq<Layer>, l2: seq<Layer>, s1: seq<State>, s2: seq<State>, x: seq<Vec>, step: nat)
    requires FitAll(l1, s1) && FitAll(l2, s2) && x != []
  {
    var (t1, y) := RunAll(l1, s1, x, step);
    var (t2, z) := RunAll(l2, s2, y, step);
    FitAll(l1 + l2, s1 + s2) && RunAll(l1 + l2, s1 + s2, x, step) == (t1 + t2, z)
  }

  lemma JoinsCons(l: Layer, l1: seq<Layer>, l2: seq<Layer>, s: State, s1: seq<State>, s2: seq<State>, x: seq<Vec>,
      step: nat)
    requires Fits(l, s) && FitAll(l1, s1) && FitAll(l2, s2) && x != []
    requires Joins(l1, l2, s1, s2, Run(l, s, x, step).1, step)
    ensures FitAll([l] + l1, [s] + s1) && Joins([l] + l1, l2, [s] + s1, s2, x, step)
  {
    hide RunAll, Run, Fits, FitAll;
    RunAllCons(l, l1, s, s1, x, step);
    RunAllCons(l, l1 + l2, s, s1 + s2, x, step);
    assert ([l] + l1) + l2 == [l] + (l1 + l2) && ([s] + s1) + s2 == [s] + (s1 + s2);
    var (st, y) := Run(l, s, x, step);
    var (t1, z) := RunAll(l1, s1, y, step);
    var t2 := RunAll(l2, s2, z, step).0;
    assert [st] + (t1 + t2) == ([st] + t1) + t2;
  }

  lemma {:induction false} RunAllConcat(l1: seq<Layer>, l2: seq<Layer>, s1: seq<State>, s2: seq<State>, x: seq<Vec>,
      step: nat)
    requires FitAll(l1, s1) && FitAll(l2, s2) && x != []
    ensures Joins(l1, l2, s1, s2, x, step)
    decreases |l1|
  {
    if l1 == [] {
      assert l1 + l2 == l2 && s1 + s2 == s2;
      var t2 := RunAll(l2, s2, x, step).0;
      assert [] + t2 == t2;
    } else {
      hide Joins, Run, RunAll, Fits;
      var y := Run(l1[0], s1[0], x, step).1;
      RunAllConcat(l1[1..], l2, s1[1..], s2, y, step);
      JoinsCons(l1[0], l1[1..], l2, s1[0], s1[1..], s2, x, step);
      assert l1 == [l1[0]] + l1[1..] && s1 == [s1[0]] + s1[1..];
    }
  }

  lemma {:induction false} FitAllSplit(ls: seq<Layer>, sts: seq<State>, i: nat)
    requires FitAll(ls, sts) && i < |ls|
    ensures FitAll(ls[..i], sts[..i]) && Fits(ls[i], sts[i]) && FitAll(ls[..i + 1], sts[..i + 1])
    decreases |ls|
  {
    if i > 0 {
      FitAllSplit(ls[1..], sts[1..], i - 1);
      assert ls[..i][1..] == ls[1..][..i - 1] && sts[..i][1..] == sts[1..][..i - 1];
      assert ls[..i + 1][1..] == ls[1..][..i] && sts[..i + 1][1..] == sts[1..][..i];
    } else {
      assert ls[..1][1..] == [] && sts[..1][1..] == [];
    }
  }

  /** The layers of `ls` in turn, each updating its entry of the state. */
  method Forward(ls: seq<Layer>, sts: seq<State>, x: seq<Vec>, step: nat) returns (sts': seq<State>, y: seq<Vec>)
    requires FitAll(ls, sts) && x != []
    ensures (sts', y) == RunAll(ls, sts, x, step)
  {
    hide Run, Fits;
    sts', y := [], x;
    for i := 0 to |ls|
      invariant FitAll(ls[..i], sts[..i]) && y != []
      invariant (sts', y) == RunAll(ls[..i], sts[..i], x, step)
    {
      FitAllSplit(ls, sts, i);
      ghost var l, s := [ls[i]], [sts[i]];
      assert ls[..i + 1] == ls[..i] + l && sts[..i + 1] == sts[..i] + s;
      assert l[1..] == [] && s[1..] == [];
      RunAllConcat(ls[..i], l, sts[..i], s, x, step);
      var (st, z) := Run(ls[i], sts[i], y, step);
      assert RunAll(l, s, y, step) == ([st], z) by { assert [st] + [] == [st]; }
      sts', y := sts' + [st], z;
    }
    assert ls[..|ls|] == ls && sts[..|ls|] == sts;
  }

  class Mimi {
    const upsample: Option<Layer>
    const transformer: seq<Layer>
    const decoder: seq<Layer>
    var upState: seq<State>
    var transformerState: seq<State>
    var decoderState: seq<State>

    ghost function Up(): seq<Layer> { if upsample.Some? then [upsample.value] else [] }

    /** Every layer a latent goes through. */
    ghost function Layers(): seq<Layer> { Up() + transformer + decoder }

    ghost function ModelState(): seq<State>
      reads this
    {
      upState + transformerState + decoderState
    }

    ghost predicate Valid()
      reads this
    {
      FitAll(Up(), upState) && FitAll(transformer, transformerState) && FitAll(decoder, decoderState)
    }

    constructor (upsample: Option<Layer>, transformer: seq<Layer>, decoder: seq<Layer>,
                 upState: seq<State>, transformerState: seq<State>, decoderState: seq<State>)
      requires FitAll(if upsample.Some? then [upsample.value] else [], upState)
      requires FitAll(transformer, transformerState) && FitAll(decoder, decoderState)
      ensures Valid() && this.upsample == upsample && this.transformer == transformer && this.decoder == decoder
      ensures ModelState() == upState + transformerState + decoderState
    {
      this.upsample, this.transformer, this.decoder := upsample, transformer, decoder;
      this.upState, this.transformerState, this.decoderState := upState, transformerState, decoderState;
    }

    /** Latents in, samples out; the model state moves on. */
    method DecodeFromLatent(latent: seq<Vec>, step: nat) returns (out: seq<Vec>)
      requires Valid() && latent != []
      modifies this
      ensures Valid() && FitAll(Layers(), old(ModelState()))
      ensures (ModelState(), out) == RunAll(Layers(), old(ModelState()), latent, step)
    {
      ghost var up, tr, dec := upState, transformerState, decoderState;
      var emb := latent;
      if upsample.Some? {
        upState, emb := Forward([upsample.value], upState, emb, step);
      }
      transformerState, emb := Forward(transformer, transformerState, emb, step);
      decoderState, out := Forward(decoder, decoderState, emb, step);
      RunAllConcat(Up(), transformer, up, tr, latent, step);
      RunAllConcat(Up() + transformer, decoder, up + tr, dec, latent, step);
    }
  }

  // ----- a reading's samples

  /** The samples of a one-channel signal. */
  function Mono(y: seq<Vec>): (r: Vec)
    ensures |r| == |y| && forall i :: 0 <= i < |r| ==> r[i] == At(y[i], 0)
  {
    seq(|y|, i requires 0 <= i < |y| => At(y[i], 0))
  }

  /** A reading decodes each latent with these layers, one call a frame. */
  ghost predicate DecodesWith(net: FlowLm.Net<seq<State>>, ls: seq<Layer>) {
    forall m, x, step {:trigger net.decode(m, x, step)} :: FitAll(ls, m) ==>
      net.decode(m, x, step) == (RunAll(ls, m, [x], step).0, Mono(RunAll(ls, m, [x], step).1))
  }

  /** The quantized latents a reading produces on its own. */
  ghost function Latents(net: FlowLm.Net<seq<State>>, s: FlowLm.Solo<seq<State>>): seq<Vec>
    requires FlowLm.SoloValid(net, s)
    decreases s.p.maxGen - s.p.step
  {
    var (s', audio, done) := FlowLm.FrameStep(net, s);
    [net.quantize(s'.p.input)] + if done then [] else Latents(net, s')
  }

  /** The frames a reading yields, joined, are one decoding of all its latents:
      no seam between two frames can be heard. */
  lemma {:induction false} FramesAreOneDecode(net: FlowLm.Net<seq<State>>, ls: seq<Layer>, s: FlowLm.Solo<seq<State>>)
    requires FlowLm.SoloValid(net, s) && DecodesWith(net, ls) && FitAll(ls, s.p.mimi)
    ensures Latents(net, s) != []
    ensures Flatten(FlowLm.Alone(net, s)) == Mono(RunAll(ls, s.p.mimi, Latents(net, s), s.p.step).1)
    decreases s.p.maxGen - s.p.step
  {
    hide RunAll, FitAll, FlowLm.Hidden, Fits, Mono;
    var (s', audio, done) := FlowLm.FrameStep(net, s);
    var x := net.quantize(s'.p.input);
    assert net.decode(s.p.mimi, x, s.p.step) == (s'.p.mimi, audio);
    if done {
      assert FlowLm.Alone(net, s) == [audio] && Latents(net, s) == [x];
      FlattenSingle(audio);
    } else {
      var later := Latents(net, s');
      FramesAreOneDecode(net, ls, s');
      assert FlowLm.Alone(net, s) == [audio] + FlowLm.Alone(net, s');
      FlattenConcat([audio], FlowLm.Alone(net, s'));
      FlattenSingle(audio);
      LaterLatents(ls, s.p.mimi, x, later, s.p.step);
    }
  }

  lemma LaterLatents(ls: seq<Layer>, m: seq<State>, x: Vec, later: seq<Vec>, step: nat)
    requires FitAll(ls, m) && later != []
    ensures var (m1, ya) := RunAll(ls, m, [x], step);
      Mono(RunAll(ls, m, [x] + later, step).1) == Mono(ya) + Mono(RunAll(ls, m1, later, step + 1).1)
  {
    hide RunAll, FitAll;
    RunAllSplit(ls, m, [x], later, step, step + 1);
  }
}
