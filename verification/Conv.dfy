/** Streaming convolutions: what each call carries to the next, and that no
    cutting of the input shows in the output. */
module Conv {
  import opened Prelude
  import opened Softmax

  // ----- strided, dilated, causal convolution

  /** `tap` is the kernel with its bias: it turns one window of input frames
      into one output frame. */
  datatype Conv1d = Conv1d(kernel: nat, stride: nat, dilation: nat, tap: seq<Vec> -> Vec, replicate: bool, zero: Vec)

  predicate Conv1dValid(c: Conv1d) { c.kernel > 0 && c.stride > 0 && c.dilation > 0 }

  function EffectiveKernel(c: Conv1d): (e: nat)
    requires Conv1dValid(c)
    ensures e > 0
  {
    (c.kernel - 1) * c.dilation + 1
  }

  function PadLeft(c: Conv1d): nat
    requires Conv1dValid(c)
  {
    Monus(EffectiveKernel(c), c.stride)
  }

  lemma TapInWindow(c: Conv1d, i: nat)
    requires Conv1dValid(c) && i < c.kernel
    ensures i * c.dilation < EffectiveKernel(c)
  {
    var left := c.kernel - 1 - i;
    Scale(i, left, c.dilation);
  }

  lemma Scale(a: nat, b: nat, s: nat)
    ensures (a + b) * s == a * s + b * s && 0 <= a * s && 0 <= b * s
  {
  }

  /** The frames the kernel sees when it starts at `at`. */
  function Window(c: Conv1d, x: seq<Vec>, at: nat): (w: seq<Vec>)
    requires Conv1dValid(c) && at + EffectiveKernel(c) <= |x|
    ensures |w| == c.kernel
    ensures forall i :: 0 <= i < c.kernel ==> (TapInWindow(c, i); w[i] == x[at + i * c.dilation])
  {
    seq(c.kernel, i requires 0 <= i < c.kernel && at + EffectiveKernel(c) <= |x| =>
      TapInWindow(c, i);
      x[at + i * c.dilation])
  }

  /** The library convolution from `at` on, without padding. */
  function ConvFrom(c: Conv1d, x: seq<Vec>, at: nat): seq<Vec>
    requires Conv1dValid(c)
    decreases |x| - at
  {
    if at + EffectiveKernel(c) > |x| then [] else
    [c.tap(Window(c, x, at))] + ConvFrom(c, x, at + c.stride)
  }

  function Copies(v: Vec, n: nat): (r: seq<Vec>)
    ensures |r| == n && forall i :: 0 <= i < n ==> r[i] == v
  {
    seq(n, _ => v)
  }

  /** What a call convolves: copies of its first frame on the first call in
      replicate mode, the carried frames otherwise. */
  function Padded(c: Conv1d, previous: seq<Vec>, x: seq<Vec>, step: nat): seq<Vec>
    requires Conv1dValid(c) && x != []
  {
    if step == 0 && c.replicate then Copies(x[0], PadLeft(c)) + x else previous + x
  }

  predicate ChunkFits(c: Conv1d, x: seq<Vec>)
    requires Conv1dValid(c)
  {
    x != [] && |x| % c.stride == 0
  }

  class StreamingConv1d {
    const c: Conv1d
    var previous: seq<Vec>

    ghost predicate Valid()
      reads this
    {
      Conv1dValid(c) && |previous| == PadLeft(c)
    }

    constructor (c: Conv1d)
      requires Conv1dValid(c)
      ensures Valid() && this.c == c && previous == Copies(c.zero, PadLeft(c))
    {
      this.c, previous := c, Copies(c.zero, PadLeft(c));
    }

    method Forward(x: seq<Vec>, step: nat) returns (r: Result<seq<Vec>, string>)
      requires Valid()
      modifies this
      ensures Valid()
      ensures r.Ok? <==> ChunkFits(c, x)
      ensures r.Err? ==> previous == old(previous)
      ensures r.Ok? ==> var padded := Padded(c, old(previous), x, step);
        r.value == ConvFrom(c, padded, 0) && previous == padded[|x|..]
    {
      if |x| == 0 || |x| % c.stride != 0 {
        return Err("Steps must be multiple of stride");
      }
      var padLeft := Monus((c.kernel - 1) * c.dilation + 1, c.stride);
      if padLeft > 0 {
        var withPadding;
        if step == 0 && c.replicate {
          withPadding := Copies(x[0], padLeft) + x;
        } else {
          withPadding := previous + x;
        }
        r := Ok(ConvFrom(c, withPadding, 0));
        previous := withPadding[|withPadding| - padLeft..];
      } else {
        assert Padded(c, previous, x, step) == x && x[|x|..] == previous;
        r := Ok(ConvFrom(c, x, 0));
      }
    }
  }

  /** Dropping `d` frames in front only moves the windows. */
  lemma {:induction false} ConvShift(c: Conv1d, x: seq<Vec>, d: nat, at: nat)
    requires Conv1dValid(c) && d <= |x|
    ensures ConvFrom(c, x, d + at) == ConvFrom(c, x[d..], at)
    decreases |x| - at
  {
    if d + at + EffectiveKernel(c) <= |x| {
      assert Window(c, x, d + at) == Window(c, x[d..], at);
      ConvShift(c, x, d, at + c.stride);
    }
  }

  /** Windows that start before frame `n` of `x` need nothing after `x`. */
  lemma {:induction false} ConvPrefix(c: Conv1d, x: seq<Vec>, y: seq<Vec>, at: nat, m: nat, n: nat)
    requires Conv1dValid(c) && |x| == PadLeft(c) + n && n == at + m * c.stride
    ensures ConvFrom(c, x + y, at) == ConvFrom(c, x, at) + ConvFrom(c, x + y, n)
    decreases m
  {
    if m > 0 {
      assert m * c.stride == (m - 1) * c.stride + c.stride;
      assert (m - 1) * c.stride >= 0;
      assert at + EffectiveKernel(c) <= |x|;
      WindowOfPrefix(c, x, y, at);
      ConvPrefix(c, x, y, at + c.stride, m - 1, n);
      assert ConvFrom(c, x + y, at) == [c.tap(Window(c, x, at))] + ConvFrom(c, x + y, at + c.stride);
    } else {
      assert ConvFrom(c, x, at) == [];
    }
  }

  lemma WindowOfPrefix(c: Conv1d, x: seq<Vec>, y: seq<Vec>, at: nat)
    requires Conv1dValid(c) && at + EffectiveKernel(c) <= |x|
    ensures Window(c, x + y, at) == Window(c, x, at)
  {
  }

  /** One call: what it carries on and what it returns. */
  function ConvStep(c: Conv1d, previous: seq<Vec>, x: seq<Vec>): (r: (seq<Vec>, seq<Vec>))
    requires Conv1dValid(c) && |previous| == PadLeft(c)
    ensures |r.0| == PadLeft(c)
  {
    ((previous + x)[|x|..], ConvFrom(c, previous + x, 0))
  }

  /** One call on `a` then one on `b` is one call on both. */
  lemma ConvSplit(c: Conv1d, p: seq<Vec>, a: seq<Vec>, b: seq<Vec>)
    requires Conv1dValid(c) && |p| == PadLeft(c) && |a| % c.stride == 0
    ensures var (p1, ya) := ConvStep(c, p, a); var (p2, yb) := ConvStep(c, p1, b);
      ConvStep(c, p, a + b) == (p2, ya + yb)
  {
    hide ConvFrom, Window, EffectiveKernel;
    var m, pa := |a| / c.stride, p + a;
    var p1 := pa[|a|..];
    assert |a| == m * c.stride;
    assert p + (a + b) == pa + b;
    ConvPrefix(c, pa, b, 0, m, |a|);
    ConvShift(c, pa + b, |a|, 0);
    assert (pa + b)[|a|..] == p1 + b;
    assert (p + (a + b))[|a + b|..] == (p1 + b)[|b|..];
  }

  ghost predicate AllFit(c: Conv1d, chunks: seq<seq<Vec>>)
    requires Conv1dValid(c)
  {
    forall i :: 0 <= i < |chunks| ==> ChunkFits(c, chunks[i])
  }

  /** The carried frames after every call, and everything the calls returned. */
  ghost function RunConv(c: Conv1d, previous: seq<Vec>, chunks: seq<seq<Vec>>, step: nat): (seq<Vec>, seq<Vec>)
    requires Conv1dValid(c) && |previous| == PadLeft(c) && AllFit(c, chunks)
    decreases |chunks|
  {
    if chunks == [] then (previous, []) else
    assert ChunkFits(c, chunks[0]);
    var padded := Padded(c, previous, chunks[0], step);
    var (last, rest) := RunConv(c, padded[|chunks[0]|..], chunks[1..], step + 1);
    (last, ConvFrom(c, padded, 0) + rest)
  }

  lemma {:induction false} RunConvLater(c: Conv1d, p: seq<Vec>, chunks: seq<seq<Vec>>, step: nat)
    requires Conv1dValid(c) && |p| == PadLeft(c) && AllFit(c, chunks)
    requires step > 0 || !c.replicate
    ensures RunConv(c, p, chunks, step) == ConvStep(c, p, Flatten(chunks))
    decreases |chunks|
  {
    if chunks == [] {
      assert p + [] == p;
    } else {
      assert ChunkFits(c, chunks[0]);
      RunConvLater(c, (p + chunks[0])[|chunks[0]|..], chunks[1..], step + 1);
      ConvSplit(c, p, chunks[0], Flatten(chunks[1..]));
    }
  }

  lemma FirstFrame(c: Conv1d, chunks: seq<seq<Vec>>)
    requires Conv1dValid(c) && AllFit(c, chunks) && chunks != []
    ensures Flatten(chunks) != [] && chunks[0] != [] && Flatten(chunks)[0] == chunks[0][0]
  {
    assert ChunkFits(c, chunks[0]);
  }

  /** However the signal is cut into multiples of the stride, the outputs join
      to one convolution over the left-padded whole, and the carried frames are
      its last ones. Replicate mode pads with the signal's first frame. */
  lemma ConvIsChunkIndependent(c: Conv1d, chunks: seq<seq<Vec>>)
    requires Conv1dValid(c) && AllFit(c, chunks) && chunks != []
    ensures Flatten(chunks) != []
    ensures var x := Flatten(chunks);
      var whole := Copies(if c.replicate then x[0] else c.zero, PadLeft(c)) + x;
      RunConv(c, Copies(c.zero, PadLeft(c)), chunks, 0) == (whole[|x|..], ConvFrom(c, whole, 0))
  {
    FirstFrame(c, chunks);
    var a := chunks[0];
    var p := Copies(if c.replicate then a[0] else c.zero, PadLeft(c));
    assert ChunkFits(c, a);
    RunConvLater(c, (p + a)[|a|..], chunks[1..], 1);
    ConvSplit(c, p, a, Flatten(chunks[1..]));
  }

  // ----- every call told it is the first

  /** The same calls, each given step 0. */
  ghost function RunZero(c: Conv1d, previous: seq<Vec>, chunks: seq<seq<Vec>>): (seq<Vec>, seq<Vec>)
    requires Conv1dValid(c) && |previous| == PadLeft(c) && AllFit(c, chunks)
    decreases |chunks|
  {
    if chunks == [] then (previous, []) else
    assert ChunkFits(c, chunks[0]);
    var padded := Padded(c, previous, chunks[0], 0);
    var (last, rest) := RunZero(c, padded[|chunks[0]|..], chunks[1..]);
    (last, ConvFrom(c, padded, 0) + rest)
  }

  /** Without replication the step makes no difference. */
  lemma {:induction false} StepUnused(c: Conv1d, p: seq<Vec>, chunks: seq<seq<Vec>>, step: nat)
    requires Conv1dValid(c) && |p| == PadLeft(c) && AllFit(c, chunks) && !c.replicate
    ensures RunZero(c, p, chunks) == RunConv(c, p, chunks, step)
    decreases |chunks|
  {
    if chunks != [] {
      assert ChunkFits(c, chunks[0]);
      StepUnused(c, Padded(c, p, chunks[0], 0)[|chunks[0]|..], chunks[1..], step + 1);
    }
  }

  function OutputAt(c: Conv1d, x: seq<Vec>, at: int): Vec
    requires Conv1dValid(c)
  {
    if 0 <= at && at + EffectiveKernel(c) <= |x| then c.tap(Window(c, x, at)) else c.zero
  }

  /** A call on `x` returns one output for each stride of it. */
  lemma {:induction false} ConvFromAt(c: Conv1d, p: seq<Vec>, x: seq<Vec>, n: nat, at: nat)
    requires Conv1dValid(c) && |p| == PadLeft(c) && at + n * c.stride == |x|
    ensures |ConvFrom(c, p + x, at)| == n
    ensures forall j :: 0 <= j < n ==> ConvFrom(c, p + x, at)[j] == OutputAt(c, p + x, at + j * c.stride)
    decreases n
  {
    if n > 0 {
      WindowFits(c, x, n, at, 0);
      ConvFromAt(c, p, x, n - 1, at + c.stride) by { Scale(n - 1, 1, c.stride); }
      hide ConvFrom;
      ConvFromFirst(c, p + x, at);
      var y := ConvFrom(c, p + x, at);
      forall j | 0 <= j < n
        ensures y[j] == OutputAt(c, p + x, at + j * c.stride)
      {
        if j > 0 {
          Scale(j - 1, 1, c.stride);
        }
      }
    }
  }

  lemma ConvFromFirst(c: Conv1d, x: seq<Vec>, at: nat)
    requires Conv1dValid(c) && at + EffectiveKernel(c) <= |x|
    ensures ConvFrom(c, x, at) == [OutputAt(c, x, at)] + ConvFrom(c, x, at + c.stride)
  {
  }

  lemma WindowFits(c: Conv1d, x: seq<Vec>, n: nat, at: nat, j: nat)
    requires Conv1dValid(c) && at + n * c.stride == |x| && j < n
    ensures 0 <= j * c.stride && at + j * c.stride + EffectiveKernel(c) <= PadLeft(c) + |x|
  {
    Scale(j, n - j, c.stride);
    Scale(n - j - 1, 1, c.stride);
  }

  /** Every carried frame that a kernel tap reads on this call is a copy of the
      call's first frame. */
  ghost predicate Unseen(c: Conv1d, p: seq<Vec>, x: seq<Vec>)
    requires Conv1dValid(c) && |p| == PadLeft(c) && ChunkFits(c, x)
  {
    forall j, i :: ReadsCarried(c, x, j, i) ==> p[j * c.stride + i * c.dilation] == x[0]
  }

  /** Tap `i` of output `j` reads a carried frame. */
  predicate ReadsCarried(c: Conv1d, x: seq<Vec>, j: int, i: int)
    requires Conv1dValid(c)
    ensures ReadsCarried(c, x, j, i) ==> 0 <= j * c.stride + i * c.dilation < PadLeft(c)
  {
    0 <= j < |x| / c.stride && 0 <= i < c.kernel && 0 <= j * c.stride + i * c.dilation < PadLeft(c)
  }

  function WithTap(c: Conv1d, tap: seq<Vec> -> Vec): Conv1d { c.(tap := tap) }

  /** One call on `x` carries frames nobody can tell from copies. */
  ghost predicate SameCall(c: Conv1d, tap: seq<Vec> -> Vec, p: seq<Vec>, x: seq<Vec>)
    requires Conv1dValid(c) && |p| == PadLeft(c) && ChunkFits(c, x)
  {
    ConvFrom(WithTap(c, tap), Copies(x[0], PadLeft(c)) + x, 0) == ConvFrom(WithTap(c, tap), p + x, 0)
  }

  lemma OutputsOf(c: Conv1d, tap: seq<Vec> -> Vec, p: seq<Vec>, x: seq<Vec>)
    requires Conv1dValid(c) && |p| == PadLeft(c) && ChunkFits(c, x)
    ensures var y := ConvFrom(WithTap(c, tap), p + x, 0);
      && |y| == |x| / c.stride
      && forall j :: 0 <= j < |y| ==> y[j] == OutputAt(WithTap(c, tap), p + x, j * c.stride)
  {
    hide ConvFrom, OutputAt;
    assert |x| / c.stride * c.stride == |x|;
    ConvFromAt(WithTap(c, tap), p, x, |x| / c.stride, 0);
  }

  lemma UnseenSame(c: Conv1d, tap: seq<Vec> -> Vec, p: seq<Vec>, x: seq<Vec>)
    requires Conv1dValid(c) && |p| == PadLeft(c) && ChunkFits(c, x) && Unseen(c, p, x)
    ensures SameCall(c, tap, p, x)
  {
    var q := Copies(x[0], PadLeft(c));
    OutputsOf(c, tap, p, x);
    OutputsOf(c, tap, q, x);
    hide ConvFrom;
    var y, z := ConvFrom(WithTap(c, tap), q + x, 0), ConvFrom(WithTap(c, tap), p + x, 0);
    forall j | 0 <= j < |y| ensures y[j] == z[j] {
      WindowSame(c, p, x, j);
      WindowTap(c, tap, p + x, j * c.stride);
      WindowTap(c, tap, q + x, j * c.stride);
    }
  }

  lemma WindowTap(c: Conv1d, tap: seq<Vec> -> Vec, x: seq<Vec>, at: int)
    requires Conv1dValid(c) && 0 <= at && at + EffectiveKernel(c) <= |x|
    ensures OutputAt(WithTap(c, tap), x, at) == tap(Window(c, x, at))
  {
    assert Window(WithTap(c, tap), x, at) == Window(c, x, at);
  }

  lemma WindowSame(c: Conv1d, p: seq<Vec>, x: seq<Vec>, j: nat)
    requires Conv1dValid(c) && |p| == PadLeft(c) && ChunkFits(c, x) && Unseen(c, p, x) && j < |x| / c.stride
    ensures 0 <= j * c.stride && j * c.stride + EffectiveKernel(c) <= PadLeft(c) + |x|
    ensures Window(c, Copies(x[0], PadLeft(c)) + x, j * c.stride) == Window(c, p + x, j * c.stride)
  {
    WindowFits(c, x, |x| / c.stride, 0, j);
    var at, q := j * c.stride, Copies(x[0], PadLeft(c));
    var w, u := Window(c, p + x, at), Window(c, q + x, at);
    forall i | 0 <= i < c.kernel ensures w[i] == u[i] {
      TapInWindow(c, i);
      assert ReadsCarried(c, x, j, i) <==> at + i * c.dilation < PadLeft(c);
    }
  }

  lemma SeenAt(c: Conv1d, p: seq<Vec>, x: seq<Vec>) returns (j: nat, i: nat)
    requires Conv1dValid(c) && |p| == PadLeft(c) && ChunkFits(c, x) && !Unseen(c, p, x)
    ensures j < |x| / c.stride && 0 <= j * c.stride && j * c.stride + EffectiveKernel(c) <= PadLeft(c) + |x|
    ensures i < c.kernel &&
      Window(c, Copies(x[0], PadLeft(c)) + x, j * c.stride)[i] != Window(c, p + x, j * c.stride)[i]
  {
    var k, l :| ReadsCarried(c, x, k, l) && p[k * c.stride + l * c.dilation] != x[0];
    j, i := k, l;
    WindowFits(c, x, |x| / c.stride, 0, j);
    TapInWindow(c, i);
    var at, q := j * c.stride, Copies(x[0], PadLeft(c));
    assert Window(c, p + x, at)[i] == p[at + i * c.dilation] && Window(c, q + x, at)[i] == x[0];
  }

  /** A kernel that passes on the carried frame it reads tells it from the copies. */
  lemma SeenDiffers(c: Conv1d, p: seq<Vec>, x: seq<Vec>)
    requires Conv1dValid(c) && |p| == PadLeft(c) && ChunkFits(c, x) && !Unseen(c, p, x)
    ensures exists tap :: !SameCall(c, tap, p, x)
  {
    var j, i := SeenAt(c, p, x);
    hide ConvFrom, Unseen, Window, PadLeft, EffectiveKernel, OutputAt;
    var at, q := j * c.stride, Copies(x[0], PadLeft(c));
    var tap: seq<Vec> -> Vec := (v: seq<Vec>) => if i < |v| then v[i] else [];
    OutputsOf(c, tap, p, x);
    OutputsOf(c, tap, q, x);
    WindowTap(c, tap, p + x, at);
    WindowTap(c, tap, q + x, at);
    assert !SameCall(c, tap, p, x);
  }

  /** Later calls return the same whether they are told so or not. */
  ghost predicate SameOutputs(c: Conv1d, tap: seq<Vec> -> Vec, p: seq<Vec>, q: seq<Vec>, chunks: seq<seq<Vec>>)
    requires Conv1dValid(c) && |p| == |q| == PadLeft(c) && AllFit(c, chunks)
  {
    RunZero(WithTap(c, tap), q, chunks).1 == RunConv(WithTap(c, tap), p, chunks, 1).1
  }

  /** The last frames before a call, the signal so far being `p` and `chunks`. */
  function Carried(c: Conv1d, p: seq<Vec>, chunks: seq<seq<Vec>>): (r: seq<Vec>)
    requires Conv1dValid(c) && |p| == PadLeft(c)
    ensures |r| == PadLeft(c)
  {
    (p + Flatten(chunks))[|Flatten(chunks)|..]
  }

  ghost predicate SeamUnseen(c: Conv1d, p: seq<Vec>, chunks: seq<seq<Vec>>, k: nat)
    requires Conv1dValid(c) && |p| == PadLeft(c) && AllFit(c, chunks) && k < |chunks|
  {
    ChunkFits(c, chunks[k]) && Unseen(c, Carried(c, p, chunks[..k]), chunks[k])
  }

  /** At no seam does a tap read a frame that is not a copy of the next. */
  ghost predicate SeamsUnseen(c: Conv1d, p: seq<Vec>, chunks: seq<seq<Vec>>)
    requires Conv1dValid(c) && |p| == PadLeft(c) && AllFit(c, chunks)
  {
    forall k :: 0 <= k < |chunks| ==> SeamUnseen(c, p, chunks, k)
  }

  /** Nor is any carried past a last chunk too short to replace it. */
  ghost predicate EndUnseen(c: Conv1d, p: seq<Vec>, chunks: seq<seq<Vec>>)
    requires Conv1dValid(c) && |p| == PadLeft(c) && AllFit(c, chunks) && chunks != []
  {
    var x, was := Last(chunks), Carried(c, p, ButLast(chunks));
    x != [] && forall i :: |x| <= i < PadLeft(c) ==> was[i] == x[0]
  }

  lemma CarriedOn(c: Conv1d, p: seq<Vec>, x: seq<Vec>, chunks: seq<seq<Vec>>)
    requires Conv1dValid(c) && |p| == PadLeft(c)
    ensures |(p + x)[|x|..]| == PadLeft(c) && Carried(c, p, [x] + chunks) == Carried(c, (p + x)[|x|..], chunks)
  {
    hide PadLeft;
    var y := Flatten(chunks);
    assert ([x] + chunks)[1..] == chunks;
    assert p + (x + y) == (p + x) + y;
  }

  lemma SeamsFirst(c: Conv1d, p: seq<Vec>, chunks: seq<seq<Vec>>)
    requires Conv1dValid(c) && |p| == PadLeft(c) && AllFit(c, chunks) && chunks != []
    ensures ChunkFits(c, chunks[0])
    ensures var x := chunks[0];
      SeamsUnseen(c, p, chunks) <==> Unseen(c, p, x) && SeamsUnseen(c, (p + x)[|x|..], chunks[1..])
  {
    assert ChunkFits(c, chunks[0]);
    var x := chunks[0];
    assert SeamUnseen(c, p, chunks, 0) <==> Unseen(c, p, x) by {
      assert chunks[..0] == [] && Carried(c, p, []) == p;
    }
    hide Unseen, ChunkFits, PadLeft, SeamUnseen, Conv1dValid, EffectiveKernel;
    forall k: nat | k < |chunks[1..]|
      ensures SeamUnseen(c, (p + x)[|x|..], chunks[1..], k) <==> SeamUnseen(c, p, chunks, k + 1)
    {
      SeamNext(c, p, chunks, k);
    }
    if SeamsUnseen(c, (p + x)[|x|..], chunks[1..]) && Unseen(c, p, x) {
      forall k: nat | k < |chunks| ensures SeamUnseen(c, p, chunks, k) {
        assert k > 0 ==> SeamUnseen(c, (p + x)[|x|..], chunks[1..], k - 1);
      }
    }
  }

  lemma SeamNext(c: Conv1d, p: seq<Vec>, chunks: seq<seq<Vec>>, k: nat)
    requires Conv1dValid(c) && |p| == PadLeft(c) && AllFit(c, chunks) && k + 1 < |chunks|
    ensures var x := chunks[0]; SeamUnseen(c, (p + x)[|x|..], chunks[1..], k) <==> SeamUnseen(c, p, chunks, k + 1)
  {
    hide Unseen, ChunkFits, PadLeft, Carried;
    CarriedOn(c, p, chunks[0], chunks[1..][..k]);
    assert [chunks[0]] + chunks[1..][..k] == chunks[..k + 1];
  }

  lemma SameOutputsFirst(c: Conv1d, tap: seq<Vec> -> Vec, p: seq<Vec>, q: seq<Vec>, chunks: seq<seq<Vec>>)
    requires Conv1dValid(c) && |p| == |q| == PadLeft(c) && AllFit(c, chunks) && chunks != [] && c.replicate
    ensures ChunkFits(c, chunks[0])
    ensures var x := chunks[0];
      SameOutputs(c, tap, p, q, chunks) <==>
        SameCall(c, tap, p, x) &&
          SameOutputs(c, tap, (p + x)[|x|..], (Copies(x[0], PadLeft(c)) + x)[|x|..], chunks[1..])
  {
    var x := chunks[0];
    assert ChunkFits(c, x);
    var p1, q1 := (p + x)[|x|..], (Copies(x[0], PadLeft(c)) + x)[|x|..];
    OutputsOf(c, tap, p, x);
    OutputsOf(c, tap, Copies(x[0], PadLeft(c)), x);
    RunConvLater(WithTap(c, tap), p1, chunks[1..], 1);
    RunConvLater(WithTap(c, tap), p1, chunks[1..], 2);
    hide ConvFrom, ConvStep;
    SameParts(
      ConvFrom(WithTap(c, tap), Copies(x[0], PadLeft(c)) + x, 0), RunZero(WithTap(c, tap), q1, chunks[1..]).1,
      ConvFrom(WithTap(c, tap), p + x, 0), RunConv(WithTap(c, tap), p1, chunks[1..], 2).1);
  }

  lemma SameParts<T>(a: seq<T>, b: seq<T>, x: seq<T>, y: seq<T>)
    requires |a| == |x|
    ensures a + b == x + y <==> a == x && b == y
  {
    if a + b == x + y {
      assert a == (a + b)[..|a|] && b == (a + b)[|a|..];
    }
  }

  lemma {:induction false} LaterCalls(c: Conv1d, p: seq<Vec>, q: seq<Vec>, chunks: seq<seq<Vec>>)
    requires Conv1dValid(c) && |p| == |q| == PadLeft(c) && AllFit(c, chunks) && c.replicate
    ensures (forall tap :: SameOutputs(c, tap, p, q, chunks)) <==> SeamsUnseen(c, p, chunks)
    decreases |chunks|
  {
    if chunks != [] {
      var x := chunks[0];
      SeamsFirst(c, p, chunks);
      var p1, q1 := (p + x)[|x|..], (Copies(x[0], PadLeft(c)) + x)[|x|..];
      LaterCalls(c, p1, q1, chunks[1..]);
      forall tap ensures SameOutputs(c, tap, p, q, chunks) <==>
        SameCall(c, tap, p, x) && SameOutputs(c, tap, p1, q1, chunks[1..]) {
        SameOutputsFirst(c, tap, p, q, chunks);
      }
      if Unseen(c, p, x) {
        forall tap ensures SameCall(c, tap, p, x) { UnseenSame(c, tap, p, x); }
      } else {
        SeenDiffers(c, p, x);
      }
    }
  }

  /** The state after the calls is the last one's alone. */
  lemma {:induction false} LaterState(c: Conv1d, p: seq<Vec>, q: seq<Vec>, chunks: seq<seq<Vec>>)
    requires Conv1dValid(c) && |p| == |q| == PadLeft(c) && AllFit(c, chunks) && c.replicate && chunks != []
    ensures RunZero(c, q, chunks).0 == Carried(c, p, chunks) <==> EndUnseen(c, p, chunks)
    decreases |chunks|
  {
    var x := chunks[0];
    assert ChunkFits(c, x);
    var p1, q1 := (p + x)[|x|..], (Copies(x[0], PadLeft(c)) + x)[|x|..];
    CarriedOn(c, p, x, chunks[1..]);
    assert [x] + chunks[1..] == chunks;
    hide ConvFrom;
    if |chunks| == 1 {
      assert ButLast(chunks) == [] && chunks[1..] == [] && Carried(c, p, []) == p && Carried(c, p1, []) == p1;
      assert RunZero(c, q, chunks).0 == q1;
      EndOfOne(c, p, x);
    } else {
      CarriedOn(c, p, x, ButLast(chunks[1..]));
      assert [x] + ButLast(chunks[1..]) == ButLast(chunks) && Last(chunks[1..]) == Last(chunks);
      LaterState(c, p1, q1, chunks[1..]);
    }
  }

  lemma EndOfOne(c: Conv1d, p: seq<Vec>, x: seq<Vec>)
    requires Conv1dValid(c) && |p| == PadLeft(c) && x != []
    ensures (Copies(x[0], PadLeft(c)) + x)[|x|..] == (p + x)[|x|..] <==>
      forall i :: |x| <= i < PadLeft(c) ==> p[i] == x[0]
  {
    hide PadLeft;
    var n, q := PadLeft(c), Copies(x[0], PadLeft(c));
    var a, b := (q + x)[|x|..], (p + x)[|x|..];
    forall i | 0 <= i < n ensures a[i] == b[i] <==> (i + |x| < n ==> p[i + |x|] == x[0]) {
    }
    if forall i :: |x| <= i < n ==> p[i] == x[0] {
      assert forall i :: 0 <= i < n ==> a[i] == b[i];
    }
    if a == b {
      forall i | |x| <= i < n ensures p[i] == x[0] { assert a[i - |x|] == b[i - |x|]; }
    }
  }

  /** What a run of calls returns that are all given step 0, in replicate mode,
      is what one call returns, whatever the kernel, if and only if at each seam
      the carried frames a tap reads are copies of the next chunk's first frame.
      The state it leaves is that of one call if and only if the same holds of
      the frames carried past the last chunk. */
  lemma StepZeroIff(c: Conv1d, chunks: seq<seq<Vec>>)
    requires Conv1dValid(c) && AllFit(c, chunks) && chunks != [] && c.replicate
    ensures Flatten(chunks) != []
    ensures var x := Flatten(chunks);
      var p := Copies(x[0], PadLeft(c));
      && ((forall tap :: OneCallOutputs(c, tap, chunks)) <==> SeamsUnseen(c, p, chunks))
      && (RunZero(c, Copies(c.zero, PadLeft(c)), chunks).0 == (p + x)[|x|..] <==> EndUnseen(c, p, chunks))
  {
    FirstFrame(c, chunks);
    var p, zeros := Copies(chunks[0][0], PadLeft(c)), Copies(c.zero, PadLeft(c));
    hide ConvFrom, PadLeft, RunZero, RunConv, SeamsUnseen, EndUnseen, AllFit;
    LaterCalls(c, p, zeros, chunks);
    LaterState(c, p, zeros, chunks);
    forall tap ensures OneCallOutputs(c, tap, chunks) <==> SameOutputs(c, tap, p, zeros, chunks) {
      OneCallIs(c, tap, p, zeros, chunks);
    }
  }

  lemma OneCallIs(c: Conv1d, tap: seq<Vec> -> Vec, p: seq<Vec>, zeros: seq<Vec>, chunks: seq<seq<Vec>>)
    requires Conv1dValid(c) && AllFit(c, chunks) && Flatten(chunks) != []
    requires p == Copies(Flatten(chunks)[0], PadLeft(c)) && zeros == Copies(c.zero, PadLeft(c))
    ensures OneCallOutputs(c, tap, chunks) <==> SameOutputs(c, tap, p, zeros, chunks)
  {
    hide ConvFrom, RunZero, RunConv;
    RunConvLater(WithTap(c, tap), p, chunks, 1);
  }

  /** Every call given step 0, against one call on everything. */
  ghost predicate OneCallOutputs(c: Conv1d, tap: seq<Vec> -> Vec, chunks: seq<seq<Vec>>)
    requires Conv1dValid(c) && AllFit(c, chunks) && Flatten(chunks) != []
  {
    var x := Flatten(chunks);
    RunZero(WithTap(c, tap), Copies(c.zero, PadLeft(c)), chunks).1
      == ConvFrom(WithTap(c, tap), Copies(x[0], PadLeft(c)) + x, 0)
  }

  /** Without dilation every carried frame is read: each seam must be flat. */
  lemma DenseSeams(c: Conv1d, p: seq<Vec>, chunks: seq<seq<Vec>>)
    requires Conv1dValid(c) && |p| == PadLeft(c) && AllFit(c, chunks) && c.dilation == 1
    ensures SeamsUnseen(c, p, chunks) <==>
      forall k :: 0 <= k < |chunks| ==>
        ChunkFits(c, chunks[k]) && Carried(c, p, chunks[..k]) == Copies(chunks[k][0], PadLeft(c))
    ensures SeamsUnseen(c, p, chunks) && chunks != [] ==> EndUnseen(c, p, chunks)
  {
    forall k | 0 <= k < |chunks|
      ensures ChunkFits(c, chunks[k])
      ensures SeamUnseen(c, p, chunks, k) <==> Carried(c, p, chunks[..k]) == Copies(chunks[k][0], PadLeft(c))
    {
      assert ChunkFits(c, chunks[k]);
      DenseSeam(c, Carried(c, p, chunks[..k]), chunks[k]);
    }
    if SeamsUnseen(c, p, chunks) && chunks != [] {
      assert SeamUnseen(c, p, chunks, |chunks| - 1);
    }
  }

  lemma DenseSeam(c: Conv1d, p: seq<Vec>, x: seq<Vec>)
    requires Conv1dValid(c) && |p| == PadLeft(c) && ChunkFits(c, x) && c.dilation == 1
    ensures Unseen(c, p, x) <==> p == Copies(x[0], PadLeft(c))
  {
    if Unseen(c, p, x) {
      forall i | 0 <= i < |p| ensures p[i] == x[0] {
        assert ReadsCarried(c, x, 0, i);
      }
    }
  }

  /** How much each frame rises above the one before. */
  const RISES := Conv1d(2, 1, 1, (w: seq<Vec>) => if |w| == 2 then [At(w[1], 0) - At(w[0], 0)] else [0.0], true, [0.0])

  /** A signal that rises at its seam: given step 0 again, the second call misses
      it. */
  lemma StepZeroShows()
    ensures var chunks := [[[1.0]], [[2.0]]];
      && AllFit(RISES, chunks) && PadLeft(RISES) == 1
      && RunZero(RISES, [[0.0]], chunks).1 == [[0.0], [0.0]]
      && RunConv(RISES, [[0.0]], chunks, 0).1 == [[0.0], [1.0]]
  {
    var a: seq<Vec>, b: seq<Vec> := [[1.0]], [[2.0]];
    RisesOnce([1.0], [1.0]);
    RisesOnce([2.0], [2.0]);
    RisesOnce([1.0], [2.0]);
    assert [a, b][1..] == [b] && [b][1..] == [];
    assert Copies([1.0], 1) + a == [[1.0], [1.0]] && Copies([2.0], 1) + b == [[2.0], [2.0]];
    assert Padded(RISES, [[0.0]], a, 0) == [[1.0], [1.0]];
    hide ConvFrom;
    assert RunZero(RISES, [[2.0]], []).1 == [];
    assert RunZero(RISES, [[1.0]], [b]).1 == [[0.0]];
    assert RunConv(RISES, [[1.0]], [b], 1).1 == [[1.0]] by {
      assert Padded(RISES, [[1.0]], b, 1) == [[1.0], [2.0]];
    }
  }

  lemma RisesOnce(x: Vec, y: Vec)
    ensures ConvFrom(RISES, [x, y], 0) == [[At(y, 0) - At(x, 0)]]
  {
    assert Window(RISES, [x, y], 0) == [x, y];
    assert ConvFrom(RISES, [x, y], 1) == [];
  }

  // ----- transposed convolution by overlap and add

  /** `contrib(x, i, ch)` is what tap `i` adds to output channel `ch` for an
      input frame `x`. */
  datatype ConvTr = ConvTr(kernel: nat, stride: nat, channels: nat, contrib: (Vec, nat, nat) -> real, bias: Option<Vec>)

  predicate ConvTrValid(c: ConvTr) { 0 < c.stride && 0 < c.kernel }

  function Trim(c: ConvTr): nat { Monus(c.kernel, c.stride) }

  function BiasAt(c: ConvTr, ch: nat): real {
    match c.bias
    case None => 0.0
    case Some(b) => At(b, ch)
  }

  /** Everything the frames of `x` add to output sample `n`, without bias. */
  function Acc(c: ConvTr, x: seq<Vec>, n: int, ch: nat): real {
    if x == [] then 0.0 else
    var tap := n - (|x| - 1) * c.stride;
    Acc(c, ButLast(x), n, ch) + if 0 <= tap < c.kernel then c.contrib(Last(x), tap, ch) else 0.0
  }

  predicate Wide(y: seq<Vec>, channels: nat) { forall i :: 0 <= i < |y| ==> |y[i]| == channels }

  /** `n` output samples, `f(i, ch)` in channel `ch` of sample `i`. */
  function Samples(n: nat, channels: nat, f: (nat, nat) -> real): (y: seq<Vec>)
    ensures |y| == n && Wide(y, channels)
    ensures forall i, ch :: 0 <= i < n && 0 <= ch < channels ==> y[i][ch] == f(i, ch)
  {
    seq(n, i requires 0 <= i < n => seq(channels, ch requires 0 <= ch < channels => f(i, ch)))
  }

  function OutLength(c: ConvTr, t: nat): (n: nat)
    requires t > 0
    ensures c.kernel <= n
    ensures c.stride <= c.kernel ==> n == t * c.stride + Trim(c)
  {
    assert t * c.stride == (t - 1) * c.stride + c.stride;
    (t - 1) * c.stride + c.kernel
  }

  /** The library transposed convolution. */
  function TransposedConv(c: ConvTr, x: seq<Vec>): (y: seq<Vec>)
    requires x != []
    ensures |y| == OutLength(c, |x|) && Wide(y, c.channels)
    ensures forall i, ch :: 0 <= i < |y| && 0 <= ch < c.channels ==> y[i][ch] == BiasAt(c, ch) + Acc(c, x, i, ch)
  {
    Samples(OutLength(c, |x|), c.channels, (i: nat, ch: nat) => BiasAt(c, ch) + Acc(c, x, i, ch))
  }

  function AddFrames(a: seq<Vec>, b: seq<Vec>, channels: nat): (y: seq<Vec>)
    requires |a| == |b| && Wide(a, channels) && Wide(b, channels)
    ensures |y| == |a| && Wide(y, channels)
    ensures forall i, ch :: 0 <= i < |y| && 0 <= ch < channels ==> y[i][ch] == a[i][ch] + b[i][ch]
  {
    seq(|a|, i requires 0 <= i < |a| == |b| && Wide(a, channels) && Wide(b, channels) =>
      seq(channels, ch requires 0 <= ch < channels => a[i][ch] + b[i][ch]))
  }

  function SubBias(a: seq<Vec>, c: ConvTr): (y: seq<Vec>)
    requires Wide(a, c.channels)
    ensures |y| == |a| && Wide(y, c.channels)
    ensures forall i, ch :: 0 <= i < |y| && 0 <= ch < c.channels ==> y[i][ch] == a[i][ch] - BiasAt(c, ch)
  {
    seq(|a|, i requires 0 <= i < |a| && Wide(a, c.channels) =>
      seq(c.channels, ch requires 0 <= ch < c.channels => a[i][ch] - BiasAt(c, ch)))
  }

  /** The carried tail at sample `n`: nothing beyond its end. */
  function TailAt(partial: seq<Vec>, n: nat, ch: nat): real {
    if n < |partial| then At(partial[n], ch) else 0.0
  }

  /** What sample `n` adds up to, bias aside: the carried tail and this input. */
  function Total(c: ConvTr, partial: seq<Vec>, x: seq<Vec>, n: nat, ch: nat): real {
    TailAt(partial, n, ch) + Acc(c, x, n, ch)
  }

  function BiasIf(c: ConvTr, bias: bool, ch: nat): real { if bias then BiasAt(c, ch) else 0.0 }

  /** `y` holds the totals of samples `from` on, with the bias or without. */
  ghost predicate Sums(c: ConvTr, partial: seq<Vec>, x: seq<Vec>, from: nat, bias: bool, y: seq<Vec>) {
    && Wide(y, c.channels)
    && forall n, ch {:trigger y[n][ch]} :: 0 <= n < |y| && 0 <= ch < c.channels ==>
         y[n][ch] == BiasIf(c, bias, ch) + Total(c, partial, x, from + n, ch)
  }

  lemma SumsUnique(c: ConvTr, p: seq<Vec>, x: seq<Vec>, from: nat, bias: bool, y: seq<Vec>, z: seq<Vec>)
    requires Sums(c, p, x, from, bias, y) && Sums(c, p, x, from, bias, z) && |y| == |z|
    ensures y == z
  {
    forall n | 0 <= n < |y|
      ensures y[n] == z[n]
    {
      assert |y[n]| == |z[n]|;
      forall ch | 0 <= ch < c.channels
        ensures y[n][ch] == z[n][ch]
      {
        assert y[n][ch] == BiasIf(c, bias, ch) + Total(c, p, x, from + n, ch);
        assert z[n][ch] == BiasIf(c, bias, ch) + Total(c, p, x, from + n, ch);
      }
    }
  }

  /** The streaming operator: samples no later frame can touch, with the bias
      once, and the sums of the `kernel - stride` samples after them. */
  function ConvTrStep(c: ConvTr, partial: seq<Vec>, x: seq<Vec>): (r: (seq<Vec>, seq<Vec>))
    requires ConvTrValid(c)
    ensures |r.0| == Trim(c) && Sums(c, partial, x, |x| * c.stride, false, r.0)
    ensures |r.1| == |x| * c.stride && Sums(c, partial, x, 0, true, r.1)
  {
    var ready := |x| * c.stride;
    (Samples(Trim(c), c.channels, (j: nat, ch: nat) => Total(c, partial, x, ready + j, ch)),
     Samples(ready, c.channels, (n: nat, ch: nat) => BiasAt(c, ch) + Total(c, partial, x, n, ch)))
  }

  function NoTail(c: ConvTr): (partial: seq<Vec>)
    ensures |partial| == Trim(c) && Wide(partial, c.channels)
    ensures forall n, ch :: TailAt(partial, n, ch) == 0.0
  {
    Samples(Trim(c), c.channels, (_: nat, _: nat) => 0.0)
  }

  class StreamingConvTranspose1d {
    const c: ConvTr
    var partial: seq<Vec>

    ghost predicate Valid()
      reads this
    {
      ConvTrValid(c) && |partial| == Trim(c) && Wide(partial, c.channels)
    }

    constructor (c: ConvTr)
      requires ConvTrValid(c)
      ensures Valid() && this.c == c && partial == NoTail(c)
    {
      this.c, partial := c, NoTail(c);
    }

    /** Adds the carried tail to the head of this chunk's output, keeps the new
        tail without its bias, and returns the rest. A kernel shorter than its
        stride carries nothing and returns the library's output. */
    method Forward(x: seq<Vec>) returns (y: seq<Vec>)
      requires Valid() && x != []
      modifies this
      ensures Valid()
      ensures c.stride <= c.kernel ==> (partial, y) == ConvTrStep(c, old(partial), x)
      ensures c.kernel < c.stride ==> y == TransposedConv(c, x) && partial == old(partial)
    {
      hide Acc, OutLength, Total, ConvTrStep;
      y := TransposedConv(c, x);
      var trim := Monus(c.kernel, c.stride);
      if c.stride <= c.kernel {
        ForwardIsStep(c, partial, x);
      }
      if trim > 0 {
        y := AddFrames(y[..trim], partial, c.channels) + y[trim..];
        var len := |y|;
        partial := SubBias(y[len - trim..], c);
        y := y[..len - trim];
      } else {
        assert y == AddFrames(y[..0], partial, c.channels) + y[0..] && partial == [];
        assert c.kernel == c.stride ==> y == y[..|x| * c.stride];
      }
    }
  }

  /** What the call computes before it cuts the tail off. */
  function Overlapped(c: ConvTr, partial: seq<Vec>, x: seq<Vec>): (y: seq<Vec>)
    requires ConvTrValid(c) && c.stride <= c.kernel && x != [] && |partial| == Trim(c) && Wide(partial, c.channels)
    ensures |y| == OutLength(c, |x|) == |x| * c.stride + Trim(c) && Wide(y, c.channels)
  {
    var y := TransposedConv(c, x);
    AddFrames(y[..Trim(c)], partial, c.channels) + y[Trim(c)..]
  }

  lemma OverlappedSums(c: ConvTr, p: seq<Vec>, x: seq<Vec>)
    requires ConvTrValid(c) && c.stride <= c.kernel && x != [] && |p| == Trim(c) && Wide(p, c.channels)
    ensures Sums(c, p, x, 0, true, Overlapped(c, p, x))
  {
    hide Acc, OutLength;
    var y := TransposedConv(c, x);
    var head := AddFrames(y[..Trim(c)], p, c.channels);
    forall n, ch | 0 <= n < |y| && 0 <= ch < c.channels
      ensures Overlapped(c, p, x)[n][ch] == BiasAt(c, ch) + Total(c, p, x, n, ch)
    {
      if n < Trim(c) {
        assert head[n][ch] == y[n][ch] + p[n][ch];
      }
    }
  }

  lemma ForwardIsStep(c: ConvTr, p: seq<Vec>, x: seq<Vec>)
    requires ConvTrValid(c) && c.stride <= c.kernel && x != [] && |p| == Trim(c) && Wide(p, c.channels)
    ensures var y, ready := Overlapped(c, p, x), |x| * c.stride;
      (SubBias(y[ready..], c), y[..ready]) == ConvTrStep(c, p, x)
  {
    hide Acc, OutLength, Total, Overlapped, ConvTrStep;
    var y, ready, step := Overlapped(c, p, x), |x| * c.stride, ConvTrStep(c, p, x);
    OverlappedSums(c, p, x);
    SumsUnique(c, p, x, 0, true, y[..ready], step.1);
    var kept := SubBias(y[ready..], c);
    forall n, ch | 0 <= n < |kept| && 0 <= ch < c.channels
      ensures kept[n][ch] == BiasIf(c, false, ch) + Total(c, p, x, ready + n, ch)
    {
      assert y[ready + n][ch] == BiasAt(c, ch) + Total(c, p, x, 0 + (ready + n), ch);
    }
    SumsUnique(c, p, x, ready, false, kept, step.0);
  }

  lemma {:induction false} AccConcat(c: ConvTr, a: seq<Vec>, b: seq<Vec>, n: int, ch: nat)
    ensures Acc(c, a + b, n, ch) == Acc(c, a, n, ch) + Acc(c, b, n - |a| * c.stride, ch)
  {
    if b == [] {
      assert a + b == a;
    } else {
      var ab := a + b;
      assert ButLast(ab) == a + ButLast(b) && Last(ab) == Last(b);
      AccConcat(c, a, ButLast(b), n, ch);
      Scale(|a|, |b| - 1, c.stride);
    }
  }

  /** No frame reaches back, and none reaches further than its kernel. */
  lemma {:induction false} AccOutside(c: ConvTr, x: seq<Vec>, n: int, ch: nat)
    requires ConvTrValid(c) && (n < 0 || n >= |x| * c.stride + Trim(c))
    ensures Acc(c, x, n, ch) == 0.0
  {
    if x != [] {
      assert (|x| - 1) * c.stride + c.stride == |x| * c.stride;
      assert (|x| - 1) * c.stride >= 0;
      AccOutside(c, ButLast(x), n, ch);
    }
  }

  lemma TotalSplit(c: ConvTr, p: seq<Vec>, a: seq<Vec>, b: seq<Vec>, n: nat, ch: nat)
    requires ConvTrValid(c) && |p| == Trim(c) && ch < c.channels
    ensures n < |a| * c.stride ==> Total(c, p, a + b, n, ch) == Total(c, p, a, n, ch)
    ensures n >= |a| * c.stride ==>
      Total(c, p, a + b, n, ch) == Total(c, ConvTrStep(c, p, a).0, b, n - |a| * c.stride, ch)
  {
    var p1 := ConvTrStep(c, p, a).0;
    AccConcat(c, a, b, n, ch);
    var m := n - |a| * c.stride;
    if m < 0 {
      AccOutside(c, b, m, ch);
    } else if m < Trim(c) {
      assert TailAt(p1, m, ch) == Total(c, p, a, n, ch);
    } else {
      AccOutside(c, a, n, ch);
      assert |a| * c.stride >= 0;
    }
  }

  /** One call on `a` then one on `b` is one call on both: every seam counts the
      overlap and the bias once. */
  lemma ConvTrSplit(c: ConvTr, p: seq<Vec>, a: seq<Vec>, b: seq<Vec>)
    requires ConvTrValid(c) && |p| == Trim(c)
    ensures var (p1, ya) := ConvTrStep(c, p, a); var (p2, yb) := ConvTrStep(c, p1, b);
      ConvTrStep(c, p, a + b) == (p2, ya + yb)
  {
    hide Acc, Total, ConvTrStep;
    var (p1, ya) := ConvTrStep(c, p, a);
    var (p2, yb) := ConvTrStep(c, p1, b);
    var ra, rb, ab := |a| * c.stride, |b| * c.stride, a + b;
    assert |ab| * c.stride == ra + rb;
    forall n, ch | 0 <= n < |ya + yb| && 0 <= ch < c.channels
      ensures (ya + yb)[n][ch] == BiasAt(c, ch) + Total(c, p, ab, 0 + n, ch)
    {
      TotalSplit(c, p, a, b, n, ch);
      if n < ra {
        assert ya[n][ch] == BiasAt(c, ch) + Total(c, p, a, 0 + n, ch);
      } else {
        assert yb[n - ra][ch] == BiasAt(c, ch) + Total(c, p1, b, 0 + (n - ra), ch);
      }
    }
    SumsUnique(c, p, ab, 0, true, ya + yb, ConvTrStep(c, p, ab).1);
    forall j, ch | 0 <= j < |p2| && 0 <= ch < c.channels
      ensures p2[j][ch] == BiasIf(c, false, ch) + Total(c, p, ab, ra + rb + j, ch)
    {
      assert Sums(c, p1, b, rb, false, p2);
      TotalSplit(c, p, a, b, ra + rb + j, ch);
    }
    SumsUnique(c, p, ab, ra + rb, false, p2, ConvTrStep(c, p, ab).0);
  }

  /** What the calls return, joined. */
  ghost function RunConvTr(c: ConvTr, partial: seq<Vec>, chunks: seq<seq<Vec>>): (seq<Vec>, seq<Vec>)
    requires ConvTrValid(c) && |partial| == Trim(c)
    decreases |chunks|
  {
    if chunks == [] then (partial, []) else
    var (p1, y) := ConvTrStep(c, partial, chunks[0]);
    var (last, rest) := RunConvTr(c, p1, chunks[1..]);
    (last, y + rest)
  }

  lemma {:induction false} RunConvTrIsOneStep(c: ConvTr, p: seq<Vec>, chunks: seq<seq<Vec>>)
    requires ConvTrValid(c) && |p| == Trim(c) && Wide(p, c.channels)
    ensures RunConvTr(c, p, chunks) == ConvTrStep(c, p, Flatten(chunks))
    decreases |chunks|
  {
    if chunks == [] {
      SumsUnique(c, p, [], 0, false, p, ConvTrStep(c, p, []).0);
    } else {
      RunConvTrIsOneStep(c, ConvTrStep(c, p, chunks[0]).0, chunks[1..]);
      ConvTrSplit(c, p, chunks[0], Flatten(chunks[1..]));
    }
  }

  /** For every cutting, the outputs join to the whole transposed convolution
      without its last `kernel - stride` samples, the bias counted once. */
  lemma ConvTrIsChunkIndependent(c: ConvTr, chunks: seq<seq<Vec>>)
    requires ConvTrValid(c) && c.stride <= c.kernel && Flatten(chunks) != []
    ensures var x := Flatten(chunks);
      |x| * c.stride <= |TransposedConv(c, x)| &&
      RunConvTr(c, NoTail(c), chunks).1 == TransposedConv(c, x)[..|x| * c.stride]
  {
    var x := Flatten(chunks);
    RunConvTrIsOneStep(c, NoTail(c), chunks);
    var y, whole := ConvTrStep(c, NoTail(c), x).1, TransposedConv(c, x);
    assert |whole| == |x| * c.stride + Trim(c);
    forall n | 0 <= n < |y|
      ensures y[n] == whole[n]
    {
      assert forall ch :: 0 <= ch < c.channels ==> y[n][ch] == whole[n][ch];
    }
  }

  /** What a call returns for `t` frames. */
  function Returned(c: ConvTr, t: nat): int
    requires t > 0
  {
    OutLength(c, t) - Trim(c)
  }

  /** Cutting in two keeps the number of samples exactly when the kernel covers
      the stride; a shorter kernel loses the gap between two frames. */
  lemma SeamsFitIff(c: ConvTr, a: nat, b: nat)
    requires ConvTrValid(c) && a > 0 && b > 0
    ensures Returned(c, a) + Returned(c, b) == Returned(c, a + b) <==> c.stride <= c.kernel
  {
    assert (a + b - 1) * c.stride == (a - 1) * c.stride + (b - 1) * c.stride + c.stride;
  }
}
