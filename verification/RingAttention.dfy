/** Windowed attention over a ring: the keys and values of the last `window`
    tokens, written in place and read in order. */
module RingAttention {
  import opened Prelude
  import opened Softmax
  import opened StackedCache
  import Sdpa

  /** One token's rotated projections. */
  datatype Token = Token(q: Heads, k: Heads, v: Heads)

  function Queries(ts: seq<Token>): (r: seq<Heads>)
    ensures |r| == |ts| && forall i :: 0 <= i < |r| ==> r[i] == ts[i].q
  {
    seq(|ts|, i requires 0 <= i < |ts| => ts[i].q)
  }

  function Keys(ts: seq<Token>): (r: seq<Heads>)
    ensures |r| == |ts| && forall i :: 0 <= i < |r| ==> r[i] == ts[i].k
  {
    seq(|ts|, i requires 0 <= i < |ts| => ts[i].k)
  }

  function Values(ts: seq<Token>): (r: seq<Heads>)
    ensures |r| == |ts| && forall i :: 0 <= i < |r| ==> r[i] == ts[i].v
  {
    seq(|ts|, i requires 0 <= i < |ts| => ts[i].v)
  }

  function LastN<T>(s: seq<T>, n: nat): seq<T> { s[Monus(|s|, n)..] }

  /** A query at position `p` sees the keys in `(p - ctx, p]` and no other. */
  function InWindow(kn: Kernel, ctx: nat, q: Heads, ks: seq<Heads>, vs: seq<Heads>, p: nat): Heads
    requires p < |ks| == |vs|
  {
    var lo := Monus(p + 1, ctx);
    AttentionHeads(kn, q, ks[lo..p + 1], vs[lo..p + 1])
  }

  /** The answers to the last tokens of a history. */
  function Answers(kn: Kernel, ctx: nat, ts: seq<Token>, ks: seq<Heads>, vs: seq<Heads>): (out: seq<Heads>)
    requires |ts| <= |ks| == |vs|
    ensures |out| == |ts|
    ensures forall i :: 0 <= i < |out| ==> out[i] == InWindow(kn, ctx, ts[i].q, ks, vs, |ks| - |ts| + i)
  {
    seq(|ts|, i requires 0 <= i < |ts| <= |ks| == |vs| => InWindow(kn, ctx, ts[i].q, ks, vs, |ks| - |ts| + i))
  }

  /** One call on new tokens: each answered over its window of what was kept
      and what is new, and the last `ctx` tokens kept. */
  function RingStep(kn: Kernel, ctx: nat, kept: Row, ts: seq<Token>, pos: nat): (r: (Row, seq<Heads>))
    requires Paired(kept)
    ensures Paired(r.0) && |r.1| == |ts|
  {
    var ks, vs := kept.keys + Keys(ts), kept.vals + Values(ts);
    (Row(LastN(ks, ctx), LastN(vs, ctx), pos + |ts|), Answers(kn, ctx, ts, ks, vs))
  }

  // ----- the ring

  /** `i` modulo `n`, for an `i` at most once around. */
  function Wrap(i: nat, n: nat): (r: nat)
    ensures i < 2 * n ==> r < n
  {
    if i < n then i else i - n
  }

  lemma ModuloIsWrap(i: nat, n: nat)
    requires n > 0 && i < 2 * n
    ensures i % n == Wrap(i, n)
  {
    var q, r := i / n, i % n;
    assert i == n * q + r;
    OnceAround(n, q);
  }

  lemma OnceAround(n: nat, q: nat)
    ensures q == 0 ==> n * q == 0
    ensures q == 1 ==> n * q == n
    ensures q >= 2 ==> n * q >= 2 * n
  {
  }

  /** The ring read from `head` on. */
  function Chrono(buf: seq<Heads>, head: nat, len: nat): (r: seq<Heads>)
    requires head < |buf| && len <= |buf|
    ensures |r| == len && forall i :: 0 <= i < len ==> r[i] == buf[Wrap(head + i, |buf|)]
  {
    seq(len, i requires 0 <= i < len && head < |buf| && len <= |buf| => buf[Wrap(head + i, |buf|)])
  }

  /** The ring as at most two slices in order. */
  method RingChunks(buf: array<Heads>, head: nat, len: nat) returns (chunks: seq<seq<Heads>>)
    requires head < buf.Length && len <= buf.Length
    ensures Flatten(chunks) == Chrono(buf[..], head, len)
    ensures |chunks| == (if len == 0 then 0 else if head + len <= buf.Length then 1 else 2)
  {
    if len == 0 {
      return [];
    }
    var firstLen := Min(len, buf.Length - head);
    var secondLen := len - firstLen;
    chunks := [buf[head..head + firstLen]];
    FlattenSnoc([], buf[head..head + firstLen]);
    if secondLen > 0 {
      FlattenSnoc(chunks, buf[0..secondLen]);
      chunks := chunks + [buf[0..secondLen]];
    }
  }

  /** `Tensor::slice_set`: the columns from `at` on become `x`. */
  method SliceSet(buf: array<Heads>, x: seq<Heads>, at: nat)
    requires at + |x| <= buf.Length
    modifies buf
    ensures buf[..] == old(buf[..at]) + x + old(buf[at + |x|..])
  {
    for i := 0 to |x|
      invariant buf[..] == old(buf[..at]) + x[..i] + old(buf[at + i..])
    {
      buf[at + i] := x[i];
    }
  }

  /** How far slot `j` is after `start`, going around. */
  function Offset(j: nat, start: nat, n: nat): int { if j >= start then j - start else j + n - start }

  /** `x` written from `start` on, around the end. */
  ghost predicate Wrote(was: seq<Heads>, buf: seq<Heads>, x: seq<Heads>, start: nat) {
    && |x| <= |buf| == |was| && start < |buf|
    && forall j :: 0 <= j < |buf| ==>
         buf[j] == var i := Offset(j, start, |buf|); if i < |x| then x[i] else was[j]
  }

  lemma WroteStraight(was: seq<Heads>, x: seq<Heads>, start: nat)
    requires start < |was| && start + |x| <= |was|
    ensures Wrote(was, was[..start] + x + was[start + |x|..], x, start)
  {
  }

  lemma WroteSplit(was: seq<Heads>, x: seq<Heads>, start: nat, second: nat)
    requires second <= start < |was| && |x| < |was| && |x| == |was| - start + second
    ensures Wrote(was, x[|x| - second..] + was[second..start] + x[..|x| - second], x, start)
  {
  }

  /** Both halves of a write that may go around the end. */
  method WriteAround(buf: array<Heads>, x: seq<Heads>, start: nat)
    requires start < buf.Length && |x| < buf.Length
    modifies buf
    ensures Wrote(old(buf[..]), buf[..], x, start)
  {
    hide Wrote;
    ghost var was := buf[..];
    var first := Min(|x|, buf.Length - start);
    var second := |x| - first;
    if first > 0 {
      SliceSet(buf, x[..first], start);
    }
    if second > 0 {
      SliceSet(buf, x[first..], 0);
      assert buf[..] == x[first..] + was[second..start] + x[..first];
      WroteSplit(was, x, start, second);
    } else {
      assert buf[..] == was[..start] + x + was[start + first..];
      WroteStraight(was, x, start);
    }
  }

  /** How many of `len` old tokens go when `t` new ones come. */
  function Evicted(n: nat, len: nat, t: nat): nat { Monus(len + t, n) }

  function HeadAfter(n: nat, head: nat, len: nat, t: nat): (r: nat)
    requires len <= n && t < n && head < n
    ensures r < n
  {
    Wrap(head + Evicted(n, len, t), n)
  }

  /** The first slot after the old tokens that stay. */
  function StartOf(n: nat, head: nat, len: nat, t: nat): nat
    requires len <= n && t < n && head < n
    ensures 0 <= StartOf(n, head, len, t) < n
  {
    Wrap(HeadAfter(n, head, len, t) + (len - Evicted(n, len, t)), n)
  }

  /** Where the `i`-th oldest token is after a store of `t` tokens: past the
      written slots if it stayed, among them if it is new. */
  lemma SlotOf(n: nat, head: nat, len: nat, t: nat, i: nat)
    requires head < n && len <= n && t < n && i < len - Evicted(n, len, t) + t
    ensures var head1, kept := HeadAfter(n, head, len, t), len - Evicted(n, len, t);
      var j := Wrap(head1 + i, n);
      && j < n && StartOf(n, head, len, t) < n && head1 < n
      && Offset(j, StartOf(n, head, len, t), n) == (if i < kept then n - kept + i else i - kept)
      && (i < kept ==> j == Wrap(head + (Evicted(n, len, t) + i), n))
  {
  }

  lemma RingAdvancesAt(was: seq<Heads>, buf: seq<Heads>, head: nat, len: nat, x: seq<Heads>, i: nat)
    requires head < |was| == |buf| && len <= |was| && |x| < |was|
    requires Wrote(was, buf, x, StartOf(|was|, head, len, |x|))
    requires i < len - Evicted(|was|, len, |x|) + |x|
    ensures Wrap(HeadAfter(|was|, head, len, |x|) + i, |was|) < |was|
    ensures buf[Wrap(HeadAfter(|was|, head, len, |x|) + i, |was|)]
         == (Chrono(was, head, len) + x)[Evicted(|was|, len, |x|) + i]
  {
    hide Wrap, HeadAfter, StartOf, Offset, Chrono;
    SlotOf(|was|, head, len, |x|, i);
    assert i < len - Evicted(|was|, len, |x|) ==>
      Chrono(was, head, len)[Evicted(|was|, len, |x|) + i] == was[Wrap(head + (Evicted(|was|, len, |x|) + i), |was|)];
  }

  /** After evicting what no longer fits and writing the new tokens after the
      old ones, the ring in order is the end of the history. */
  lemma RingAdvances(was: seq<Heads>, buf: seq<Heads>, head: nat, len: nat, x: seq<Heads>)
    requires head < |was| == |buf| && len <= |was| && |x| < |was|
    requires Wrote(was, buf, x, StartOf(|was|, head, len, |x|))
    ensures HeadAfter(|was|, head, len, |x|) < |was|
    ensures Chrono(buf, HeadAfter(|was|, head, len, |x|), len - Evicted(|was|, len, |x|) + |x|)
         == LastN(Chrono(was, head, len) + x, |was|)
  {
    hide Wrote, Wrap, Offset, StartOf;
    var left := Chrono(buf, HeadAfter(|was|, head, len, |x|), len - Evicted(|was|, len, |x|) + |x|);
    var right := LastN(Chrono(was, head, len) + x, |was|);
    forall i | 0 <= i < |left|
      ensures left[i] == right[i]
    {
      RingAdvancesAt(was, buf, head, len, x, i);
    }
  }

  /** One buffer's share of keeping `x`. */
  method StoreIn(buf: array<Heads>, ghost head: nat, ghost len: nat, x: seq<Heads>, start: nat)
    requires head < buf.Length && len <= buf.Length && |x| < buf.Length
    requires start == StartOf(buf.Length, head, len, |x|)
    modifies buf
    ensures HeadAfter(buf.Length, head, len, |x|) < buf.Length
    ensures Chrono(buf[..], HeadAfter(buf.Length, head, len, |x|), len - Evicted(buf.Length, len, |x|) + |x|)
         == LastN(Chrono(old(buf[..]), head, len) + x, buf.Length)
  {
    hide Wrote, Chrono, LastN, StartOf, HeadAfter;
    ghost var was := buf[..];
    WriteAround(buf, x, start);
    RingAdvances(was, buf[..], head, len, x);
  }

  /** A run at least as long as the window is all the window will hold. */
  lemma OnlyTheEnd(was: seq<Heads>, x: seq<Heads>, n: nat)
    requires 0 < n <= |x|
    ensures Chrono(x[|x| - n..], 0, n) == LastN(was + x, n)
  {
    assert LastN(was + x, n) == x[|x| - n..];
  }

  /** What a stored buffer is taken to hold: at another capacity, its first
      columns. */
  function LoadedFrom(buf: seq<Heads>, head: nat, len: nat, window: nat): seq<Heads> {
    if |buf| == 0 then [] else
    if |buf| == window then Chrono(buf, head % |buf|, Min(len, |buf|)) else buf[..Min(Min(len, |buf|), window)]
  }

  /** A ring brought to another capacity still ends its history in order exactly
      when the oldest token that fits is in the first column. */
  lemma ResizeKeepsIff(cap: nat, head: nat, len: nat, window: nat)
    requires head < cap && len <= cap && 0 < window != cap
    ensures (forall buf | |buf| == cap :: LoadedFrom(buf, head, len, window) == LastN(Chrono(buf, head, len), window))
      <==> len == 0 || Wrap(head + Monus(len, window), cap) == 0
  {
    if len == 0 || Wrap(head + Monus(len, window), cap) == 0 {
      forall buf | |buf| == cap
        ensures LoadedFrom(buf, head, len, window) == LastN(Chrono(buf, head, len), window)
      {
        ResizeKeeps(buf, head, len, window);
      }
    } else {
      ResizeLoses(cap, head, len, window);
    }
  }

  lemma ResizeKeeps(buf: seq<Heads>, head: nat, len: nat, window: nat)
    requires head < |buf| && len <= |buf| && 0 < window != |buf|
    requires len == 0 || Wrap(head + Monus(len, window), |buf|) == 0
    ensures LoadedFrom(buf, head, len, window) == LastN(Chrono(buf, head, len), window)
  {
    var kept := LastN(Chrono(buf, head, len), window);
    forall i | 0 <= i < |kept| ensures kept[i] == buf[i] {
      assert kept[i] == buf[Wrap(head + (Monus(len, window) + i), |buf|)];
    }
  }

  lemma ResizeLoses(cap: nat, head: nat, len: nat, window: nat)
    requires head < cap && 0 < len <= cap && 0 < window != cap && Wrap(head + Monus(len, window), cap) != 0
    ensures exists buf :: |buf| == cap && LoadedFrom(buf, head, len, window) != LastN(Chrono(buf, head, len), window)
  {
    var buf: seq<Heads> := seq(cap, i => if i == 0 then [[]] else []);
    assert LoadedFrom(buf, head, len, window)[0] == [[]];
    assert LastN(Chrono(buf, head, len), window)[0] == buf[Wrap(head + Monus(len, window), cap)] == [];
  }

  /** A ring that was stored by the same layer comes back as it was. */
  lemma LoadedIsKept(buf: seq<Heads>, head: nat, len: nat)
    requires head < |buf| && len <= |buf|
    ensures LoadedFrom(buf, head, len, |buf|) == Chrono(buf, head, len)
  {
    ModuloIsWrap(head, |buf|);
  }

  // ----- heads and pieces

  function HeadChunks(chunks: seq<seq<Heads>>, h: nat): (r: seq<seq<Vec>>)
    ensures |r| == |chunks| && forall i :: 0 <= i < |r| ==> r[i] == HeadOf(chunks[i], h)
  {
    seq(|chunks|, i requires 0 <= i < |chunks| => HeadOf(chunks[i], h))
  }

  lemma {:induction false} HeadOfPieces(chunks: seq<seq<Heads>>, h: nat)
    ensures Flatten(HeadChunks(chunks, h)) == HeadOf(Flatten(chunks), h)
  {
    if chunks != [] {
      HeadOfPieces(chunks[1..], h);
      assert HeadChunks(chunks, h)[1..] == HeadChunks(chunks[1..], h);
    }
  }

  /** One head of every query over the pieces. */
  method AttendHead(kn: Kernel, ctx: nat, q: seq<Heads>, kChunks: seq<seq<Heads>>, vChunks: seq<seq<Heads>>, h: nat)
    returns (col: seq<Vec>)
    requires |kChunks| == |vChunks| && |q| <= |Flatten(kChunks)| == |Flatten(vChunks)|
    ensures |col| == |q|
    ensures var ks, vs := Flatten(kChunks), Flatten(vChunks);
      forall i :: 0 <= i < |q| ==> var p := |ks| - |q| + i; var lo := Monus(p + 1, ctx);
        col[i] == Attention(kn, HeadAt(q[i], h), HeadOf(ks[lo..p + 1], h), HeadOf(vs[lo..p + 1], h))
  {
    hide Attention, Sdpa.Windowed, HeadOf;
    ghost var ks, vs := Flatten(kChunks), Flatten(vChunks);
    var hk, hv := HeadChunks(kChunks, h), HeadChunks(vChunks, h);
    HeadOfPieces(kChunks, h);
    HeadOfPieces(vChunks, h);
    if |kChunks| == 1 {
      FlattenSnoc([], hk[0]);
      FlattenSnoc([], hv[0]);
      assert hk == [hk[0]] && hv == [hv[0]];
      assert Flatten(hk) == hk[0] && Flatten(hv) == hv[0];
      col := Sdpa.Attend(kn, HeadOf(q, h), hk[0], hv[0], true, Some(ctx));
    } else {
      col := Sdpa.AttendChunked(kn, HeadOf(q, h), hk, hv, true, Some(ctx));
    }
    forall i | 0 <= i < |q|
      ensures var p := |ks| - |q| + i; var lo := Monus(p + 1, ctx);
        col[i] == Attention(kn, HeadAt(q[i], h), HeadOf(ks[lo..p + 1], h), HeadOf(vs[lo..p + 1], h))
    {
      HeadInWindow(kn, ctx, q, ks, vs, h, i);
    }
  }

  lemma HeadInWindow(kn: Kernel, ctx: nat, q: seq<Heads>, ks: seq<Heads>, vs: seq<Heads>, h: nat, i: nat)
    requires i < |q| <= |ks| == |vs|
    ensures var p := |ks| - |q| + i; var lo := Monus(p + 1, ctx);
      Sdpa.Windowed(kn, HeadOf(q, h), HeadOf(ks, h), HeadOf(vs, h), true, Some(ctx), i)
      == Attention(kn, HeadAt(q[i], h), HeadOf(ks[lo..p + 1], h), HeadOf(vs[lo..p + 1], h))
  {
    hide Attention;
    var p := |ks| - |q| + i;
    var lo := Monus(p + 1, ctx);
    assert HeadOf(ks, h)[lo..p + 1] == HeadOf(ks[lo..p + 1], h);
    assert HeadOf(vs, h)[lo..p + 1] == HeadOf(vs[lo..p + 1], h);
  }

  /** Every head of every query over the pieces. */
  method AttendPieces(kn: Kernel, ctx: nat, ts: seq<Token>, kChunks: seq<seq<Heads>>, vChunks: seq<seq<Heads>>,
      heads: nat)
    returns (out: seq<Heads>)
    requires |kChunks| == |vChunks| && |ts| <= |Flatten(kChunks)| == |Flatten(vChunks)|
    requires forall i :: 0 <= i < |ts| ==> |ts[i].q| == heads
    ensures out == Answers(kn, ctx, ts, Flatten(kChunks), Flatten(vChunks))
  {
    ghost var ks, vs := Flatten(kChunks), Flatten(vChunks);
    var cols: seq<seq<Vec>> := [];
    for h := 0 to heads
      invariant |cols| == h
      invariant forall g :: 0 <= g < h ==> |cols[g]| == |ts|
      invariant forall g, i :: 0 <= g < h && 0 <= i < |ts| ==> cols[g][i] == Answers(kn, ctx, ts, ks, vs)[i][g]
    {
      var col := AttendHead(kn, ctx, Queries(ts), kChunks, vChunks, h);
      cols := cols + [col];
    }
    out := seq(|ts|, i requires
        0 <= i < |ts| && |cols| == heads && (forall g :: 0 <= g < heads ==> |cols[g]| == |ts|) =>
      seq(heads, h requires 0 <= h < heads => cols[h][i]));
    assert forall i :: 0 <= i < |ts| ==> out[i] == Answers(kn, ctx, ts, ks, vs)[i];
  }

  /** The cursor after evicting for `t` new tokens, and where to write them. */
  method Seat(window: nat, head: nat, len: nat, t: nat) returns (head1: nat, len1: nat, start: nat)
    requires head < window && len <= window && t < window
    ensures head1 == HeadAfter(window, head, len, t) < window && len1 == len - Evicted(window, len, t)
    ensures start == StartOf(window, head, len, t)
  {
    head1, len1 := head, len;
    var evict := Monus(len + t, window);
    if evict > 0 {
      ModuloIsWrap(head + evict, window);
      head1, len1 := (head + evict) % window, len - evict;
    }
    ModuloIsWrap(head1 + len1, window);
    start := (head1 + len1) % window;
  }

  class RingKv {
    var kBuf: array<Heads>
    var vBuf: array<Heads>
    var head: nat
    var len: nat
    var pos: nat
    const window: nat
    /** What the ring holds, oldest first. */
    ghost var kept: Row

    ghost predicate Valid()
      reads this, kBuf, vBuf
    {
      && kBuf != vBuf && kBuf.Length == vBuf.Length == window
      && head < window && len <= window
      && kept == Row(Chrono(kBuf[..], head, len), Chrono(vBuf[..], head, len), pos)
    }

    constructor (window: nat)
      requires window > 0
      ensures Valid() && this.window == window && kept == Row([], [], 0) && fresh(kBuf) && fresh(vBuf)
    {
      this.window := window;
      kBuf := new Heads[window](_ => ZERO);
      vBuf := new Heads[window](_ => ZERO);
      head, len, pos, kept := 0, 0, 0, Row([], [], 0);
    }

    /** Attends over the ring and the new tokens, oldest key first. */
    method Attend(kn: Kernel, ts: seq<Token>, heads: nat) returns (out: seq<Heads>)
      requires Valid() && forall i :: 0 <= i < |ts| ==> |ts[i].q| == heads
      ensures out == Answers(kn, window, ts, kept.keys + Keys(ts), kept.vals + Values(ts))
    {
      var kChunks := RingChunks(kBuf, head, len);
      var vChunks := RingChunks(vBuf, head, len);
      FlattenSnoc(kChunks, Keys(ts));
      FlattenSnoc(vChunks, Values(ts));
      out := AttendPieces(kn, window, ts, kChunks + [Keys(ts)], vChunks + [Values(ts)], heads);
    }

    /** A run at least as long as the window replaces the buffers. */
    method Replace(ks: seq<Heads>, vs: seq<Heads>)
      requires Valid() && |ks| == |vs| >= window
      modifies this
      ensures Valid() && kept == Row(LastN(old(kept.keys) + ks, window), LastN(old(kept.vals) + vs, window), pos)
      ensures pos == old(pos) && fresh(kBuf) && fresh(vBuf)
    {
      hide Chrono, LastN;
      var from := |ks| - window;
      kBuf := new Heads[window](i requires 0 <= i < window <= |ks| => ks[|ks| - window + i]);
      vBuf := new Heads[window](i requires 0 <= i < window <= |vs| => vs[|vs| - window + i]);
      head, len := 0, window;
      assert kBuf[..] == ks[from..] && vBuf[..] == vs[from..];
      OnlyTheEnd(kept.keys, ks, window);
      OnlyTheEnd(kept.vals, vs, window);
      kept := Row(LastN(kept.keys + ks, window), LastN(kept.vals + vs, window), pos);
    }

    /** A shorter run evicts the oldest and is written around the end. */
    method Insert(ks: seq<Heads>, vs: seq<Heads>)
      requires Valid() && |ks| == |vs| < window
      modifies this`head, this`len, this`kept, kBuf, vBuf
      ensures Valid() && kept == Row(LastN(old(kept.keys) + ks, window), LastN(old(kept.vals) + vs, window), pos)
    {
      hide Chrono, LastN, HeadAfter, StartOf;
      var start;
      ghost var head0, len0 := head, len;
      head, len, start := Seat(window, head, len, |ks|);
      StoreIn(kBuf, head0, len0, ks, start);
      StoreIn(vBuf, head0, len0, vs, start);
      len := len + |ks|;
      kept := Row(LastN(kept.keys + ks, window), LastN(kept.vals + vs, window), pos);
    }

    /** Keeps the last `window` tokens. */
    method Store(ks: seq<Heads>, vs: seq<Heads>)
      requires Valid() && |ks| == |vs|
      modifies this, kBuf, vBuf
      ensures Valid() && kept == Row(LastN(old(kept.keys) + ks, window), LastN(old(kept.vals) + vs, window), pos)
      ensures pos == old(pos)
      ensures kBuf == old(kBuf) || fresh(kBuf)
      ensures vBuf == old(vBuf) || fresh(vBuf)
    {
      if |ks| >= window {
        Replace(ks, vs);
      } else {
        Insert(ks, vs);
      }
    }

    /** Stored buffers and a cursor from anywhere. */
    ghost predicate Stored()
      reads this
    {
      kBuf != vBuf && kBuf.Length == vBuf.Length && window > 0
    }

    /** What a stored state is taken to hold. */
    ghost function Loaded(): Row
      requires Stored()
      reads this, kBuf, vBuf
    {
      Row(LoadedFrom(kBuf[..], head, len, window), LoadedFrom(vBuf[..], head, len, window), pos)
    }

    /** The cursor brought within the buffers, then the buffers to the window. */
    method Load()
      requires Stored()
      modifies this
      ensures Valid() && kept == old(Loaded())
      ensures kBuf == old(kBuf) || fresh(kBuf)
      ensures vBuf == old(vBuf) || fresh(vBuf)
    {
      ghost var was := Loaded();
      var cap := kBuf.Length;
      len := Min(len, cap);
      head := if cap > 0 then head % cap else 0;
      if cap != window {
        var k, v := kBuf, vBuf;
        kBuf := new Heads[window](i requires 0 <= i reads k => if i < k.Length then k[i] else ZERO);
        vBuf := new Heads[window](i requires 0 <= i reads v => if i < v.Length then v[i] else ZERO);
        len, head := Min(len, window), 0;
        assert Chrono(kBuf[..], 0, len) == k[..len] && Chrono(vBuf[..], 0, len) == v[..len];
      }
      kept := was;
    }

    /** A run of new tokens of any length, also one longer than the window. */
    method Forward(kn: Kernel, ts: seq<Token>, heads: nat, currentPos: nat) returns (out: seq<Heads>)
      requires Stored() && forall i :: 0 <= i < |ts| ==> |ts[i].q| == heads
      modifies this, kBuf, vBuf
      ensures Valid() && (kept, out) == RingStep(kn, window, old(Loaded()), ts, currentPos)
      ensures Stored() && Loaded() == kept
      ensures kBuf == old(kBuf) || fresh(kBuf)
      ensures vBuf == old(vBuf) || fresh(vBuf)
    {
      Load();
      out := Attend(kn, ts, heads);
      Store(Keys(ts), Values(ts));
      pos := currentPos + |ts|;
      kept := Row(kept.keys, kept.vals, pos);
      LoadedIsKept(kBuf[..], head, len);
      LoadedIsKept(vBuf[..], head, len);
    }
  }

  // ----- any cutting of the input

  lemma LastNTwice<T>(s: seq<T>, b: seq<T>, n: nat)
    ensures LastN(LastN(s, n) + b, n) == LastN(s + b, n)
  {
  }

  lemma SliceOfSlice<T>(s: seq<T>, d: nat, lo: nat, hi: nat)
    requires d <= lo <= hi <= |s|
    ensures s[d..][lo - d..hi - d] == s[lo..hi]
  {
  }

  /** Forgetting what left the window changes no later answer. */
  lemma ForgottenUnseen(kn: Kernel, ctx: nat, q: Heads, ks: seq<Heads>, vs: seq<Heads>, d: nat, p: nat)
    requires d <= p < |ks| == |vs| && d <= Monus(p + 1, ctx)
    ensures InWindow(kn, ctx, q, ks[d..], vs[d..], p - d) == InWindow(kn, ctx, q, ks, vs, p)
  {
    var lo := Monus(p + 1, ctx);
    assert Monus(p - d + 1, ctx) == lo - d && p - d + 1 == p + 1 - d;
    SliceOfSlice(ks, d, lo, p + 1);
    SliceOfSlice(vs, d, lo, p + 1);
  }

  /** A query sees nothing after itself. */
  lemma LaterUnseen(kn: Kernel, ctx: nat, q: Heads, ks: seq<Heads>, vs: seq<Heads>, kb: seq<Heads>, vb: seq<Heads>,
      p: nat)
    requires p < |ks| == |vs| && |kb| == |vb|
    ensures InWindow(kn, ctx, q, ks + kb, vs + vb, p) == InWindow(kn, ctx, q, ks, vs, p)
  {
    var lo := Monus(p + 1, ctx);
    assert (ks + kb)[lo..p + 1] == ks[lo..p + 1] && (vs + vb)[lo..p + 1] == vs[lo..p + 1];
  }

  /** Later tokens and forgotten ones make no difference to the answers. */
  lemma AnswersSplit(kn: Kernel, ctx: nat, a: seq<Token>, b: seq<Token>, ka: seq<Heads>, va: seq<Heads>, kb: seq<Heads>,
      vb: seq<Heads>)
    requires |a| <= |ka| == |va| && |b| == |kb| == |vb|
    ensures Answers(kn, ctx, a + b, ka + kb, va + vb)
         == Answers(kn, ctx, a, ka, va) + Answers(kn, ctx, b, LastN(ka, ctx) + kb, LastN(va, ctx) + vb)
  {
    hide InWindow;
    var d := Monus(|ka|, ctx);
    var y := Answers(kn, ctx, a + b, ka + kb, va + vb);
    var k1, v1 := LastN(ka, ctx) + kb, LastN(va, ctx) + vb;
    assert (ka + kb)[d..] == k1 && (va + vb)[d..] == v1;
    forall i | 0 <= i < |y|
      ensures y[i] == (Answers(kn, ctx, a, ka, va) + Answers(kn, ctx, b, k1, v1))[i]
    {
      var p := |ka| - |a| + i;
      if i < |a| {
        LaterUnseen(kn, ctx, a[i].q, ka, va, kb, vb, p);
      } else {
        ForgottenUnseen(kn, ctx, b[i - |a|].q, ka + kb, va + vb, d, p);
      }
    }
  }

  /** One call on `a` then one on `b` is one call on both. */
  lemma RingSplit(kn: Kernel, ctx: nat, kept: Row, a: seq<Token>, b: seq<Token>, pos: nat)
    requires Paired(kept)
    ensures var (k1, ya) := RingStep(kn, ctx, kept, a, pos); var (k2, yb) := RingStep(kn, ctx, k1, b, k1.pos);
      RingStep(kn, ctx, kept, a + b, pos) == (k2, ya + yb)
  {
    hide LastN, Answers;
    var ka, va, kb, vb := kept.keys + Keys(a), kept.vals + Values(a), Keys(b), Values(b);
    assert kept.keys + Keys(a + b) == ka + kb && kept.vals + Values(a + b) == va + vb;
    LastNTwice(ka, kb, ctx);
    LastNTwice(va, vb, ctx);
    AnswersSplit(kn, ctx, a, b, ka, va, kb, vb);
  }

  /** The calls one after another, from position `kept.pos` on. */
  ghost function RunRing(kn: Kernel, ctx: nat, kept: Row, chunks: seq<seq<Token>>): (Row, seq<Heads>)
    requires Paired(kept)
    decreases |chunks|
  {
    if chunks == [] then (kept, []) else
    var (k1, y) := RingStep(kn, ctx, kept, chunks[0], kept.pos);
    var (last, rest) := RunRing(kn, ctx, k1, chunks[1..]);
    (last, y + rest)
  }

  lemma {:induction false} RunRingIsOneStep(kn: Kernel, ctx: nat, kept: Row, chunks: seq<seq<Token>>)
    requires Paired(kept) && |kept.keys| <= ctx
    ensures RunRing(kn, ctx, kept, chunks) == RingStep(kn, ctx, kept, Flatten(chunks), kept.pos)
    decreases |chunks|
  {
    if chunks == [] {
      assert kept.keys + Keys([]) == kept.keys && kept.vals + Values([]) == kept.vals;
    } else {
      var k1 := RingStep(kn, ctx, kept, chunks[0], kept.pos).0;
      RunRingIsOneStep(kn, ctx, k1, chunks[1..]);
      RingSplit(kn, ctx, kept, chunks[0], Flatten(chunks[1..]), kept.pos);
    }
  }

  /** For every cutting of the input, the query at position `p` is answered over
      exactly the tokens in `(p - ctx, p]` of everything ever seen, and the ring
      holds the last `ctx` of them. */
  lemma RingIsWindow(kn: Kernel, ctx: nat, chunks: seq<seq<Token>>)
    ensures var ts := Flatten(chunks);
      RunRing(kn, ctx, Row([], [], 0), chunks) ==
      (Row(LastN(Keys(ts), ctx), LastN(Values(ts), ctx), |ts|), Answers(kn, ctx, ts, Keys(ts), Values(ts)))
  {
    var ts := Flatten(chunks);
    RunRingIsOneStep(kn, ctx, Row([], [], 0), chunks);
    assert [] + Keys(ts) == Keys(ts) && [] + Values(ts) == Values(ts);
  }
}
