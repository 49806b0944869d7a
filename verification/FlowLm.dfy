/** One stream read alone: what the flow LM and the decoder compute frame by
    frame, with the network as row-wise functions. The noise a frame draws is
    named by a seed and the frame's number. */
module FlowLm {
  import opened Prelude
  import opened Softmax
  import opened StackedCache

  /** A transformer layer around its attention: the rotated projections of a
      token at a position, and everything after the heads are attended. */
  datatype Layer = Layer(qkv: (Vec, nat) -> (Heads, Heads, Heads), mix: (Vec, Heads) -> Vec)

  /** What prompting a text into a copy of its voice leaves: one history per
      layer, all at the same position, and the word counts of the text. */
  datatype Prompt = Prompt(rows: seq<Row>, pos: nat, preparedWords: nat, words: nat)

  datatype Net<!M> = Net(
    kernel: Kernel,
    layers: seq<Layer>,
    embed: Vec -> Vec,
    next: (Vec, nat, nat) -> Vec,
    eos: Vec -> bool,
    bos: Vec,
    blank: M,
    quantize: Vec -> Vec,
    decode: (M, Vec, nat) -> (M, Vec),
    prompt: Utterance -> Option<Prompt>)

  ghost predicate PromptFits<M(!new)>(net: Net<M>, p: Prompt) {
    && |p.rows| == |net.layers|
    && forall l :: 0 <= l < |p.rows| ==> Paired(p.rows[l]) && p.rows[l].pos == p.pos
  }

  /** The network is usable: softmax behaves, there is at least one layer, and
      prompting fills every layer. */
  ghost predicate NetValid<M(!new)>(net: Net<M>) {
    && ExpLaws(net.kernel.exp)
    && net.layers != []
    && forall u :: net.prompt(u).Some? ==> PromptFits(net, net.prompt(u).value)
  }

  function MaxGenLen(p: Prompt): nat { (p.preparedWords + 2) * 13 }

  function FramesAfterEos(p: Prompt): nat { if p.words <= 4 then 3 + 2 else 1 + 2 }

  /** How far a reading has come. */
  datatype Progress<M> = Progress(mimi: M, input: Vec, seed: nat, step: nat, maxGen: nat, after: nat,
      eosStep: Option<nat>)

  /** A reading with the cache rows it owns, one per layer. */
  datatype Solo<M> = Solo(rows: seq<Row>, p: Progress<M>)

  datatype Frame = Frame(id: nat, audio: Vec, done: bool)

  ghost predicate SoloValid<M(!new)>(net: Net<M>, s: Solo<M>) {
    && |s.rows| == |net.layers|
    && s.p.step < s.p.maxGen
    && forall l :: 0 <= l < |s.rows| ==> Paired(s.rows[l])
  }

  function Begin<M>(net: Net<M>, p: Prompt, seed: nat): Progress<M> {
    Progress(net.blank, net.bos, seed, 0, MaxGenLen(p), FramesAfterEos(p), None)
  }

  /** One layer on one row: the token joins the row's history, then attends it. */
  function LayerStep(kn: Kernel, layer: Layer, row: Row, x: Vec): (r: (Row, Vec))
    requires Paired(row)
    ensures Paired(r.0)
  {
    var (q, key, val) := layer.qkv(x, row.pos);
    var grown := Grown(row, key, val);
    (grown, layer.mix(x, AttendRow(kn, q, grown)))
  }

  /** The first `n` layers on one row. */
  function Through(kn: Kernel, layers: seq<Layer>, rows: seq<Row>, x: Vec, n: nat): (r: (seq<Row>, Vec))
    requires n <= |layers| == |rows| && forall l :: 0 <= l < |rows| ==> Paired(rows[l])
    ensures |r.0| == |rows| && forall l :: 0 <= l < |rows| ==> Paired(r.0[l])
    ensures forall l :: n <= l < |rows| ==> r.0[l] == rows[l]
  {
    if n == 0 then (rows, x) else
    var (rs, y) := Through(kn, layers, rows, x, n - 1);
    var (row, z) := LayerStep(kn, layers[n - 1], rs[n - 1], y);
    (rs[n - 1 := row], z)
  }

  /** What the flow LM makes of one stream's input: the grown caches and the
      last hidden vector. */
  function Hidden<M>(net: Net<M>, s: Solo<M>): (seq<Row>, Vec)
    requires |s.rows| == |net.layers| && forall l :: 0 <= l < |s.rows| ==> Paired(s.rows[l])
  {
    Through(net.kernel, net.layers, s.rows, net.embed(s.p.input), |net.layers|)
  }

  function PastEos<M>(p: Progress<M>, eosStep: Option<nat>): bool {
    eosStep.Some? && p.step >= eosStep.value + p.after
  }

  /** One frame from the hidden vector `h`: next input, audio, end flag. */
  function Emit<M>(net: Net<M>, p: Progress<M>, h: Vec): (Progress<M>, Vec, bool) {
    var latent := net.next(h, p.seed, p.step);
    var (mimi, audio) := net.decode(p.mimi, net.quantize(latent), p.step);
    var eosStep := if net.eos(h) && p.eosStep.None? then Some(p.step) else p.eosStep;
    var done := PastEos(p, eosStep) || p.step + 1 >= p.maxGen;
    (Progress(mimi, latent, p.seed, p.step + 1, p.maxGen, p.after, eosStep), audio, done)
  }

  function FrameStep<M(!new)>(net: Net<M>, s: Solo<M>): (r: (Solo<M>, Vec, bool))
    requires |s.rows| == |net.layers| && forall l :: 0 <= l < |s.rows| ==> Paired(s.rows[l])
    ensures s.p.step < s.p.maxGen && !r.2 ==> SoloValid(net, r.0)
    ensures r.0.p.step == s.p.step + 1 && r.0.p.maxGen == s.p.maxGen
    ensures |r.0.rows| == |net.layers| && forall l :: 0 <= l < |s.rows| ==> Paired(r.0.rows[l])
  {
    var (rows, h) := Hidden(net, s);
    var (p, audio, done) := Emit(net, s.p, h);
    (Solo(rows, p), audio, done)
  }

  /** Every frame the stream yields when nothing else is in the batch. */
  ghost function Alone<M(!new)>(net: Net<M>, s: Solo<M>): (frames: seq<Vec>)
    requires SoloValid(net, s)
    ensures frames != []
    decreases s.p.maxGen - s.p.step
  {
    var (s', audio, done) := FrameStep(net, s);
    [audio] + if done then [] else Alone(net, s')
  }

  lemma AloneUnfolds<M(!new)>(net: Net<M>, s: Solo<M>)
    requires SoloValid(net, s)
    ensures var (s', audio, done) := FrameStep(net, s);
      && s'.p.step == s.p.step + 1 && s'.p.maxGen == s.p.maxGen
      && (!done ==> SoloValid(net, s'))
      && Alone(net, s) == [audio] + if done then [] else Alone(net, s')
  {
  }

  // ----- how many frames that is

  /** The stream after `n` frames if nothing ever ended it. */
  ghost function Unstopped<M(!new)>(net: Net<M>, s: Solo<M>, n: nat): (r: Solo<M>)
    requires |s.rows| == |net.layers| && forall l :: 0 <= l < |s.rows| ==> Paired(s.rows[l])
    ensures |r.rows| == |net.layers| && forall l :: 0 <= l < |r.rows| ==> Paired(r.rows[l])
    decreases n
  {
    if n == 0 then s else
    var s' := FrameStep(net, s).0;
    Unstopped(net, s', n - 1)
  }

  /** Whether the network says, `n` frames from now, that the text is spoken. */
  ghost predicate EosAt<M(!new)>(net: Net<M>, s: Solo<M>, n: nat)
    requires |s.rows| == |net.layers| && forall l :: 0 <= l < |s.rows| ==> Paired(s.rows[l])
  {
    net.eos(Hidden(net, Unstopped(net, s, n)).1)
  }

  /** `e` is the first of the next `limit` frames flagged as end of speech. */
  ghost predicate FirstEos<M(!new)>(net: Net<M>, s: Solo<M>, e: nat)
    requires |s.rows| == |net.layers| && forall l :: 0 <= l < |s.rows| ==> Paired(s.rows[l])
  {
    EosAt(net, s, e) && forall n: nat :: n < e ==> !EosAt(net, s, n)
  }

  ghost predicate NeverEos<M(!new)>(net: Net<M>, s: Solo<M>, limit: nat)
    requires |s.rows| == |net.layers| && forall l :: 0 <= l < |s.rows| ==> Paired(s.rows[l])
  {
    forall n: nat :: n < limit ==> !EosAt(net, s, n)
  }

  /** What one frame decides about the end. */
  lemma StepFlags<M(!new)>(net: Net<M>, s: Solo<M>)
    requires SoloValid(net, s)
    ensures var (s', audio, done) := FrameStep(net, s);
      var flagged := EosAt(net, s, 0) && s.p.eosStep.None?;
      && s'.p.after == s.p.after
      && s'.p.eosStep == (if flagged then Some(s.p.step) else s.p.eosStep)
      && (done <==> (s'.p.eosStep.Some? && s.p.step >= s'.p.eosStep.value + s.p.after) || s.p.step + 1 >= s.p.maxGen)
  {
    hide Hidden;
  }

  lemma {:induction false} FramesOnceFlagged<M(!new)>(net: Net<M>, s: Solo<M>)
    requires SoloValid(net, s) && s.p.eosStep.Some?
    ensures |Alone(net, s)| == Max(1, Min(s.p.maxGen, s.p.eosStep.value + s.p.after + 1) - s.p.step)
    decreases s.p.maxGen - s.p.step
  {
    StepFlags(net, s);
    AloneUnfolds(net, s);
    hide Alone, FrameStep, SoloValid, EosAt;
    var (s', audio, done) := FrameStep(net, s);
    if !done {
      FramesOnceFlagged(net, s');
    }
  }

  lemma EosShifts<M(!new)>(net: Net<M>, s: Solo<M>, n: nat)
    requires |s.rows| == |net.layers| && forall l :: 0 <= l < |s.rows| ==> Paired(s.rows[l])
    ensures EosAt(net, FrameStep(net, s).0, n) == EosAt(net, s, n + 1)
  {
  }

  lemma FirstEosShifts<M(!new)>(net: Net<M>, s: Solo<M>, e: nat)
    requires SoloValid(net, s) && FirstEos(net, s, e)
    ensures EosAt(net, s, 0) <==> e == 0
    ensures e > 0 ==> FirstEos(net, FrameStep(net, s).0, e - 1)
  {
    hide FrameStep, Hidden, Unstopped;
    if e > 0 {
      EosShifts(net, s, e - 1);
      forall n: nat | n < e - 1 ensures !EosAt(net, FrameStep(net, s).0, n) { EosShifts(net, s, n); }
    }
  }

  /** A reading lasts until `after` frames past its first end-of-speech flag, or
      until the length its word count allows. */
  lemma {:induction false} FrameCount<M(!new)>(net: Net<M>, s: Solo<M>, e: nat)
    requires SoloValid(net, s) && s.p.eosStep.None? && FirstEos(net, s, e)
    ensures |Alone(net, s)| == Min(s.p.maxGen - s.p.step, e + s.p.after + 1)
    decreases s.p.maxGen - s.p.step
  {
    StepFlags(net, s);
    AloneUnfolds(net, s);
    FirstEosShifts(net, s, e);
    hide Alone, FrameStep, FirstEos, EosAt, Unstopped, Hidden;
    var (s', audio, done) := FrameStep(net, s);
    if !done {
      if e == 0 {
        FramesOnceFlagged(net, s');
      } else {
        FrameCount(net, s', e - 1);
      }
    }
  }

  lemma {:induction false} FrameCountWithoutEos<M(!new)>(net: Net<M>, s: Solo<M>)
    requires SoloValid(net, s) && s.p.eosStep.None? && NeverEos(net, s, s.p.maxGen - s.p.step)
    ensures |Alone(net, s)| == s.p.maxGen - s.p.step
    decreases s.p.maxGen - s.p.step
  {
    StepFlags(net, s);
    AloneUnfolds(net, s);
    forall n: nat ensures EosAt(net, FrameStep(net, s).0, n) == EosAt(net, s, n + 1) { EosShifts(net, s, n); }
    hide Alone, FrameStep, EosAt, Unstopped, Hidden;
    var (s', audio, done) := FrameStep(net, s);
    if !done {
      FrameCountWithoutEos(net, s');
    }
  }

  // ----- temperature zero

  /** No frame depends on the noise drawn for it. */
  ghost predicate NoiseFree<M(!new)>(net: Net<M>) {
    forall h, i, n, j, m {:trigger net.next(h, i, n), net.next(h, j, m)} :: net.next(h, i, n) == net.next(h, j, m)
  }

  function Reseeded<M>(s: Solo<M>, seed: nat): Solo<M> { s.(p := s.p.(seed := seed)) }

  /** Without noise a reading yields the same frames every time. */
  lemma {:induction false} SeedUnused<M(!new)>(net: Net<M>, s: Solo<M>, seed: nat)
    requires NoiseFree(net) && SoloValid(net, s)
    ensures SoloValid(net, Reseeded(s, seed)) && Alone(net, Reseeded(s, seed)) == Alone(net, s)
    decreases s.p.maxGen - s.p.step
  {
    var r := Reseeded(s, seed);
    var (s', audio, done) := FrameStep(net, s);
    assert FrameStep(net, r) == (Reseeded(s', seed), audio, done) by {
      hide Hidden;
      var h := Hidden(net, s).1;
      assert Hidden(net, r) == Hidden(net, s) by { HiddenReseeded(net, s, seed); }
      assert net.next(h, s.p.seed, s.p.step) == net.next(h, seed, s.p.step);
    }
    AloneUnfolds(net, s);
    AloneUnfolds(net, r);
    hide FrameStep, Alone, NoiseFree;
    if !done {
      SeedUnused(net, s', seed);
    }
  }

  lemma HiddenReseeded<M(!new)>(net: Net<M>, s: Solo<M>, seed: nat)
    requires |s.rows| == |net.layers| && forall l :: 0 <= l < |s.rows| ==> Paired(s.rows[l])
    ensures Hidden(net, Reseeded(s, seed)) == Hidden(net, s)
  {
  }
}
