/** Softmax attention over the reals, with `exp` an abstract positive function
    that turns subtraction into division. Vectors are read with zero beyond
    their end, as a zip of two slices does. */
module Softmax {
  import opened Prelude

  type Vec = seq<real>

  /** One vector per attention head. */
  type Heads = seq<Vec>

  /** What a head needs to score: the exponential, 1/sqrt(d) and d. */
  datatype Kernel = Kernel(exp: real -> real, scale: real, dim: nat)

  ghost predicate ShiftLaw(exp: real -> real, x: real, m: real) {
    exp(x - m) * exp(m) == exp(x)
  }

  ghost predicate ExpLaws(exp: real -> real) {
    && (forall x :: exp(x) > 0.0)
    && (forall x, m :: ShiftLaw(exp, x, m))
  }

  function At(v: Vec, c: nat): real { if c < |v| then v[c] else 0.0 }

  function HeadAt(hs: Heads, h: nat): Vec { if h < |hs| then hs[h] else [] }

  function HeadOf(cols: seq<Heads>, h: nat): (vs: seq<Vec>)
    ensures |vs| == |cols|
  {
    seq(|cols|, j requires 0 <= j < |cols| => HeadAt(cols[j], h))
  }

  function Dot(a: Vec, b: Vec): real {
    if a == [] || b == [] then 0.0 else a[0] * b[0] + Dot(a[1..], b[1..])
  }

  function Sum(ws: seq<real>): real {
    if ws == [] then 0.0 else Sum(ButLast(ws)) + Last(ws)
  }

  /** Coordinate `c` of the weighted sum of the values. */
  function Blend(ws: seq<real>, vs: seq<Vec>, c: nat): real
    requires |ws| == |vs|
  {
    if ws == [] then 0.0 else Blend(ButLast(ws), ButLast(vs), c) + Last(ws) * At(Last(vs), c)
  }

  function Quotient(a: real, b: real): real { if b == 0.0 then 0.0 else a / b }

  function Normalised(ws: seq<real>, vs: seq<Vec>, dim: nat): (out: Vec)
    requires |ws| == |vs|
    ensures |out| == dim
  {
    seq(dim, c requires 0 <= c < dim => Quotient(Blend(ws, vs, c), Sum(ws)))
  }

  function Score(kn: Kernel, q: Vec, k: Vec): real { Dot(q, k) * kn.scale }

  function Weights(kn: Kernel, q: Vec, ks: seq<Vec>): (ws: seq<real>)
    ensures |ws| == |ks|
  {
    seq(|ks|, j requires 0 <= j < |ks| => kn.exp(Score(kn, q, ks[j])))
  }

  /** Softmax attention of one query over a list of keys and values. */
  function Attention(kn: Kernel, q: Vec, ks: seq<Vec>, vs: seq<Vec>): Vec
    requires |ks| == |vs|
  {
    Normalised(Weights(kn, q, ks), vs, kn.dim)
  }

  function AttentionHeads(kn: Kernel, q: Heads, ks: seq<Heads>, vs: seq<Heads>): (out: Heads)
    requires |ks| == |vs|
    ensures |out| == |q|
  {
    seq(|q|, h requires 0 <= h < |q| => Attention(kn, q[h], HeadOf(ks, h), HeadOf(vs, h)))
  }

  // ----- sums

  lemma {:induction false} SumConcat(a: seq<real>, b: seq<real>)
    ensures Sum(a + b) == Sum(a) + Sum(b)
  {
    if b == [] {
      assert a + b == a;
    } else {
      assert ButLast(a + b) == a + ButLast(b);
      SumConcat(a, ButLast(b));
    }
  }

  lemma {:induction false} BlendConcat(a: seq<real>, b: seq<real>, va: seq<Vec>, vb: seq<Vec>, c: nat)
    requires |a| == |va| && |b| == |vb|
    ensures Blend(a + b, va + vb, c) == Blend(a, va, c) + Blend(b, vb, c)
  {
    if b == [] {
      assert a + b == a && va + vb == va;
    } else {
      assert ButLast(a + b) == a + ButLast(b) && ButLast(va + vb) == va + ButLast(vb);
      BlendConcat(a, ButLast(b), va, ButLast(vb), c);
    }
  }

  lemma {:induction false} ZerosVanish(ws: seq<real>, vs: seq<Vec>, c: nat)
    requires |ws| == |vs| && forall j :: 0 <= j < |ws| ==> ws[j] == 0.0
    ensures Sum(ws) == 0.0 && Blend(ws, vs, c) == 0.0
  {
    if ws != [] {
      ZerosVanish(ButLast(ws), ButLast(vs), c);
    }
  }

  lemma {:induction false} SumPositive(ws: seq<real>)
    requires ws != [] && forall j :: 0 <= j < |ws| ==> ws[j] > 0.0
    ensures Sum(ws) > 0.0
  {
    if |ws| > 1 {
      SumPositive(ButLast(ws));
    } else {
      assert ButLast(ws) == [];
    }
  }

  /** Scaling every weight scales both sums, so it does not move the result. */
  lemma {:induction false} Scaled(ws: seq<real>, us: seq<real>, a: real, vs: seq<Vec>, c: nat)
    requires |ws| == |us| == |vs|
    requires forall j :: 0 <= j < |ws| ==> ws[j] == us[j] * a
    ensures Sum(ws) == Sum(us) * a && Blend(ws, vs, c) == Blend(us, vs, c) * a
  {
    if ws != [] {
      Scaled(ButLast(ws), ButLast(us), a, ButLast(vs), c);
      assert Last(ws) == Last(us) * a;
      ScaledOne(Sum(ButLast(us)), Last(us), 1.0, a);
      ScaledOne(Blend(ButLast(us), ButLast(vs), c), Last(us), At(Last(vs), c), a);
    }
  }

  lemma ScaledOne(b: real, u: real, x: real, a: real)
    ensures b * a + u * a * x == (b + u * x) * a
    ensures x == 1.0 ==> b * a + u * a == (b + u) * a
  {
  }

  lemma QuotientScaled(x: real, y: real, a: real)
    requires a != 0.0
    ensures Quotient(x * a, y * a) == Quotient(x, y)
  {
    if y != 0.0 {
      assert y * a != 0.0;
      assert (x * a) / (y * a) == x / y by {
        assert (x / y) * (y * a) == ((x / y) * y) * a == x * a;
      }
    } else {
      assert y * a == 0.0;
    }
  }

  lemma NormalisedScaled(ws: seq<real>, us: seq<real>, a: real, vs: seq<Vec>, dim: nat)
    requires |ws| == |us| == |vs| && a != 0.0
    requires forall j :: 0 <= j < |ws| ==> ws[j] == us[j] * a
    ensures Normalised(ws, vs, dim) == Normalised(us, vs, dim)
  {
    forall c | 0 <= c < dim
      ensures Normalised(ws, vs, dim)[c] == Normalised(us, vs, dim)[c]
    {
      Scaled(ws, us, a, vs, c);
      QuotientScaled(Blend(us, vs, c), Sum(us), a);
    }
  }

  /** Weights that are zero outside `[lo, hi)` leave only that window: this is
      what a mask of minus infinity does to a softmax. */
  lemma WindowOnly(ws: seq<real>, vs: seq<Vec>, dim: nat, lo: nat, hi: nat)
    requires |ws| == |vs| && lo <= hi <= |ws|
    requires forall j :: 0 <= j < |ws| && !(lo <= j < hi) ==> ws[j] == 0.0
    ensures Normalised(ws, vs, dim) == Normalised(ws[lo..hi], vs[lo..hi], dim)
  {
    var left, mid, right := ws[..lo], ws[lo..hi], ws[hi..];
    assert ws == left + mid + right && vs == vs[..lo] + vs[lo..hi] + vs[hi..];
    SumConcat(left, mid);
    SumConcat(left + mid, right);
    forall c: nat | c < dim
      ensures Normalised(ws, vs, dim)[c] == Normalised(mid, vs[lo..hi], dim)[c]
    {
      BlendConcat(left, mid, vs[..lo], vs[lo..hi], c);
      BlendConcat(left + mid, right, vs[..lo] + vs[lo..hi], vs[hi..], c);
      ZerosVanish(left, vs[..lo], c);
      ZerosVanish(right, vs[hi..], c);
    }
  }

  // ----- masks

  /** A mask entry or a masked score: minus infinity, or a real. */
  datatype Extended = NegInf | Fin(x: real)

  function ExpOf(kn: Kernel, s: Extended): real {
    match s
    case NegInf => 0.0
    case Fin(x) => kn.exp(x)
  }

  function AddMask(x: real, m: Extended): Extended {
    match m
    case NegInf => NegInf
    case Fin(y) => Fin(x + y)
  }

  function MaskedWeights(kn: Kernel, q: Vec, ks: seq<Vec>, mask: seq<Extended>): (ws: seq<real>)
    requires |mask| == |ks|
    ensures |ws| == |ks|
  {
    seq(|ks|, j requires 0 <= j < |ks| => ExpOf(kn, AddMask(Score(kn, q, ks[j]), mask[j])))
  }

  /** Softmax of scores plus a mask, over every column there is. */
  function MaskedAttention(kn: Kernel, q: Vec, ks: seq<Vec>, vs: seq<Vec>, mask: seq<Extended>): Vec
    requires |mask| == |ks| == |vs|
  {
    Normalised(MaskedWeights(kn, q, ks, mask), vs, kn.dim)
  }

  /** The mask lets `[lo, hi)` through and nothing else. */
  predicate MaskIsWindow(mask: seq<Extended>, lo: nat, hi: nat) {
    && lo <= hi <= |mask|
    && forall j :: 0 <= j < |mask| ==> mask[j] == if lo <= j < hi then Fin(0.0) else NegInf
  }

  lemma MaskedIsWindowed(kn: Kernel, q: Vec, ks: seq<Vec>, vs: seq<Vec>, mask: seq<Extended>, lo: nat, hi: nat)
    requires |mask| == |ks| == |vs| && MaskIsWindow(mask, lo, hi)
    ensures MaskedAttention(kn, q, ks, vs, mask) == Attention(kn, q, ks[lo..hi], vs[lo..hi])
  {
    var ws := MaskedWeights(kn, q, ks, mask);
    WindowOnly(ws, vs, kn.dim, lo, hi);
    forall j | 0 <= j < hi - lo
      ensures ws[lo..hi][j] == Weights(kn, q, ks[lo..hi])[j]
    {
      var s := Score(kn, q, ks[lo + j]);
      assert s + 0.0 == s;
    }
    assert ws[lo..hi] == Weights(kn, q, ks[lo..hi]);
  }

  // ----- the loop that subtracts the running maximum

  /** The weights a softmax uses after subtracting `m` from every score. */
  function ShiftedWeights(kn: Kernel, q: Vec, ks: seq<Vec>, m: real): (us: seq<real>)
    ensures |us| == |ks|
  {
    seq(|ks|, j requires 0 <= j < |ks| => kn.exp(Score(kn, q, ks[j]) - m))
  }

  lemma ShiftInvariant(kn: Kernel, q: Vec, ks: seq<Vec>, vs: seq<Vec>, m: real)
    requires |ks| == |vs| && ExpLaws(kn.exp)
    ensures Normalised(ShiftedWeights(kn, q, ks, m), vs, kn.dim) == Attention(kn, q, ks, vs)
  {
    var us, ws := ShiftedWeights(kn, q, ks, m), Weights(kn, q, ks);
    forall j | 0 <= j < |ws|
      ensures ws[j] == us[j] * kn.exp(m)
    {
      assert ShiftLaw(kn.exp, Score(kn, q, ks[j]), m);
    }
    NormalisedScaled(ws, us, kn.exp(m), vs, kn.dim);
  }

  function AddScaled(o: Vec, w: real, x: Vec): (r: Vec)
    ensures |r| == |o| && forall c :: 0 <= c < |r| ==> r[c] == o[c] + w * At(x, c)
  {
    seq(|o|, c requires 0 <= c < |o| => o[c] + w * At(x, c))
  }

  /** The exponentials of the shifted scores, and their running sum. */
  method Exponentials(kn: Kernel, scores: seq<real>, max: real) returns (exps: seq<real>, sum: real)
    ensures |exps| == |scores| && sum == Sum(exps)
    ensures forall j :: 0 <= j < |exps| ==> exps[j] == kn.exp(scores[j] - max)
  {
    sum, exps := 0.0, [];
    for j := 0 to |scores|
      invariant |exps| == j && sum == Sum(exps)
      invariant forall i :: 0 <= i < j ==> exps[i] == kn.exp(scores[i] - max)
    {
      var e := kn.exp(scores[j] - max);
      assert ButLast(exps + [e]) == exps;
      exps, sum := exps + [e], sum + e;
    }
  }

  /** Accumulates the values, each under its weight times `inv`. */
  method WeightedValues(ws: seq<real>, inv: real, vs: seq<Vec>, dim: nat) returns (o: Vec)
    requires |ws| == |vs|
    ensures |o| == dim && forall c :: 0 <= c < dim ==> o[c] == Blend(ws, vs, c) * inv
  {
    o := seq(dim, _ => 0.0);
    for j := 0 to |ws|
      invariant |o| == dim
      invariant forall c :: 0 <= c < dim ==> o[c] == Blend(ws[..j], vs[..j], c) * inv
    {
      assert ButLast(ws[..j + 1]) == ws[..j] && ButLast(vs[..j + 1]) == vs[..j];
      forall c | 0 <= c < dim
        ensures o[c] + ws[j] * inv * At(vs[j], c) == Blend(ws[..j + 1], vs[..j + 1], c) * inv
      {
        Distribute(Blend(ws[..j], vs[..j], c), ws[j], inv, At(vs[j], c));
      }
      o := AddScaled(o, ws[j] * inv, vs[j]);
    }
    assert ws[..|ws|] == ws && vs[..|ws|] == vs;
  }

  lemma Distribute(b: real, w: real, inv: real, x: real)
    ensures b * inv + w * inv * x == (b + w * x) * inv
  {
  }

  lemma TimesInverse(b: real, sum: real)
    requires sum != 0.0
    ensures b * (1.0 / sum) == Quotient(b, sum)
  {
  }

  lemma ExponentialsAre(kn: Kernel, q: Vec, ks: seq<Vec>, scores: seq<real>, max: real, exps: seq<real>)
    requires ExpLaws(kn.exp) && ks != [] && |exps| == |scores| == |ks|
    requires forall j :: 0 <= j < |ks| ==> scores[j] == Score(kn, q, ks[j]) && exps[j] == kn.exp(scores[j] - max)
    ensures exps == ShiftedWeights(kn, q, ks, max) && Sum(exps) > 0.0
  {
    hide Score;
    SumPositive(exps);
  }

  lemma NormalisedIs(ws: seq<real>, sum: real, vs: seq<Vec>, dim: nat, o: Vec)
    requires |ws| == |vs| && sum == Sum(ws) != 0.0
    requires |o| == dim && forall c :: 0 <= c < dim ==> o[c] == Blend(ws, vs, c) * (1.0 / sum)
    ensures o == Normalised(ws, vs, dim)
  {
    hide Sum, Blend, Quotient;
    forall c | 0 <= c < dim
      ensures o[c] == Normalised(ws, vs, dim)[c]
    {
      TimesInverse(Blend(ws, vs, c), sum);
    }
  }

  /** One query over columns `[start, cur)` of one row's buffer: the scores,
      their maximum, the exponentials and their sum, then the weighted values. */
  method WindowAttention(kn: Kernel, q: Vec, kb: seq<Vec>, vb: seq<Vec>, start: nat, cur: nat) returns (o: Vec)
    requires ExpLaws(kn.exp) && start < cur <= |kb| == |vb|
    ensures o == Attention(kn, q, kb[start..cur], vb[start..cur])
  {
    var ks, vs := kb[start..cur], vb[start..cur];
    var scores := seq(|ks|, j requires 0 <= j < |ks| => Score(kn, q, ks[j]));
    var max := scores[0];
    for j := 1 to |scores| {
      max := if scores[j] > max then scores[j] else max;
    }
    hide Score, Attention, ShiftedWeights, ExpLaws, Sum, Blend, Normalised;
    var exps, sum := Exponentials(kn, scores, max);
    ExponentialsAre(kn, q, ks, scores, max, exps);
    o := WeightedValues(exps, 1.0 / sum, vs, kn.dim);
    NormalisedIs(exps, sum, vs, kn.dim, o);
    ShiftInvariant(kn, q, ks, vs, max);
  }
}
