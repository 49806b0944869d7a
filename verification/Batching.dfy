/** Many readings in lockstep: their rows stacked in one cache per layer, and one
    pass through the layers for all of them. */
module Batching {
  import opened Prelude
  import opened Softmax
  import opened StackedCache
  import opened FlowLm

  datatype Stream<M> = Stream(id: nat, p: Progress<M>)

  /** A batch as its streams see it: ids with the readings they own. */
  datatype Live<M> = Live(id: nat, solo: Solo<M>)

  ghost predicate LiveValid<M(!new)>(net: Net<M>, live: seq<Live<M>>) {
    forall i :: 0 <= i < |live| ==> SoloValid(net, live[i].solo)
  }

  /** Each stream's frame, computed from its own reading only. */
  ghost function Frames<M(!new)>(net: Net<M>, live: seq<Live<M>>): (frames: seq<Frame>)
    requires LiveValid(net, live)
    ensures |frames| == |live|
    ensures forall i :: 0 <= i < |live| ==>
      var (s', audio, done) := FrameStep(net, live[i].solo);
      frames[i] == Frame(live[i].id, audio, done)
  {
    seq(|live|, i requires 0 <= i < |live| && LiveValid(net, live) =>
      var (s', audio, done) := FrameStep(net, live[i].solo);
      Frame(live[i].id, audio, done))
  }

  ghost function Advanced<M(!new)>(net: Net<M>, live: seq<Live<M>>): (next: seq<Live<M>>)
    requires LiveValid(net, live)
    ensures |next| == |live|
    ensures forall i :: 0 <= i < |live| ==> next[i] == Live(live[i].id, FrameStep(net, live[i].solo).0)
  {
    seq(|live|, i requires 0 <= i < |live| && LiveValid(net, live) =>
      Live(live[i].id, FrameStep(net, live[i].solo).0))
  }

  /** The streams that are not done, in order. */
  ghost function Undone<M>(live: seq<Live<M>>, frames: seq<Frame>): seq<Live<M>>
    requires |live| == |frames|
  {
    if live == [] then [] else
    (if frames[0].done then [] else [live[0]]) + Undone(live[1..], frames[1..])
  }

  lemma UndoneFrom<M>(all: seq<Live<M>>, frames: seq<Frame>, i: nat)
    requires i < |all| == |frames|
    ensures var rest := Undone(all[i + 1..], frames[i + 1..]);
      var whole := all[..i + 1] + rest;
      all[..i] + Undone(all[i..], frames[i..]) == if frames[i].done then RemoveAt(whole, i) else whole
  {
    assert all[i..][1..] == all[i + 1..] && frames[i..][1..] == frames[i + 1..];
  }

  /** The streams other than `id`; ids are never shared. */
  ghost function Without<M>(live: seq<Live<M>>, id: nat): seq<Live<M>> {
    if live == [] then []
    else if live[0].id == id then live[1..]
    else [live[0]] + Without(live[1..], id)
  }

  lemma {:induction false} WithoutAt<M>(live: seq<Live<M>>, i: nat)
    requires i < |live| && forall j :: 0 <= j < i ==> live[j].id != live[i].id
    ensures Without(live, live[i].id) == RemoveAt(live, i)
  {
    if i > 0 {
      WithoutAt(live[1..], i - 1);
      assert RemoveAt(live, i) == [live[0]] + RemoveAt(live[1..], i - 1);
    }
  }

  lemma {:induction false} WithoutMissing<M>(live: seq<Live<M>>, id: nat)
    requires forall j :: 0 <= j < |live| ==> live[j].id != id
    ensures Without(live, id) == live
  {
    if live != [] {
      WithoutMissing(live[1..], id);
    }
  }

  // ----- the caches of every layer, as one object

  /** `rows[l]` is what cache `l` holds; no two layers share a cache. */
  ghost predicate Holds(caches: seq<StackedKv>, rows: seq<seq<Row>>)
    reads caches
    ensures Holds(caches, rows) ==> |caches| == |rows|
  {
    && |caches| == |rows|
    && (forall l, m :: 0 <= l < m < |caches| ==> caches[l] != caches[m])
    && (forall l :: 0 <= l < |caches| ==> caches[l].Valid() && caches[l].rows == rows[l])
  }

  /** Entry `i` of every layer. */
  ghost function Column(rows: seq<seq<Row>>, i: nat): (col: seq<Row>)
    requires forall l :: 0 <= l < |rows| ==> i < |rows[l]|
    ensures |col| == |rows| && forall l :: 0 <= l < |rows| ==> col[l] == rows[l][i]
  {
    seq(|rows|, l requires 0 <= l < |rows| && i < |rows[l]| => rows[l][i])
  }

  /** Every layer has one properly paired row per stream. */
  ghost predicate Square(rows: seq<seq<Row>>, n: nat) {
    forall l :: 0 <= l < |rows| ==> |rows[l]| == n && forall i :: 0 <= i < n ==> Paired(rows[l][i])
  }

  ghost function ViewOf<M>(rows: seq<seq<Row>>, streams: seq<Stream<M>>): (live: seq<Live<M>>)
    requires Square(rows, |streams|)
    ensures |live| == |streams|
    ensures forall i :: 0 <= i < |live| ==> live[i] == Live(streams[i].id, Solo(Column(rows, i), streams[i].p))
  {
    seq(|streams|, i requires 0 <= i < |streams| && Square(rows, |streams|) =>
      Live(streams[i].id, Solo(Column(rows, i), streams[i].p)))
  }

  ghost function RowsAdded(rows: seq<seq<Row>>, more: seq<Row>, n: nat): (sum: seq<seq<Row>>)
    requires n <= |more| == |rows|
    ensures |sum| == |rows|
    ensures forall l :: 0 <= l < |rows| ==> sum[l] == if l < n then rows[l] + [more[l]] else rows[l]
  {
    seq(|rows|, l requires 0 <= l < |rows| == |more| => if l < n then rows[l] + [more[l]] else rows[l])
  }

  ghost function RowsRemoved(rows: seq<seq<Row>>, i: nat, n: nat): (rest: seq<seq<Row>>)
    requires n <= |rows| && forall l :: 0 <= l < |rows| ==> i < |rows[l]|
    ensures |rest| == |rows|
    ensures forall l :: 0 <= l < |rows| ==> rest[l] == if l < n then RemoveAt(rows[l], i) else rows[l]
  {
    seq(|rows|, l requires 0 <= l < |rows| && i < |rows[l]| => if l < n then RemoveAt(rows[l], i) else rows[l])
  }

  lemma ViewAdded<M>(rows: seq<seq<Row>>, streams: seq<Stream<M>>, more: seq<Row>, s: Stream<M>)
    requires Square(rows, |streams|) && |more| == |rows| && forall l :: 0 <= l < |more| ==> Paired(more[l])
    ensures Square(RowsAdded(rows, more, |rows|), |streams| + 1)
    ensures ViewOf(RowsAdded(rows, more, |rows|), streams + [s]) ==
      ViewOf(rows, streams) + [Live(s.id, Solo(more, s.p))]
  {
    var sum := RowsAdded(rows, more, |rows|);
    assert Column(sum, |streams|) == more;
    forall i | 0 <= i < |streams| ensures Column(sum, i) == Column(rows, i) {}
  }

  lemma ViewRemoved<M>(rows: seq<seq<Row>>, streams: seq<Stream<M>>, i: nat)
    requires Square(rows, |streams|) && i < |streams|
    ensures Square(RowsRemoved(rows, i, |rows|), |streams| - 1)
    ensures ViewOf(RowsRemoved(rows, i, |rows|), RemoveAt(streams, i)) == RemoveAt(ViewOf(rows, streams), i)
  {
    var rest := RowsRemoved(rows, i, |rows|);
    forall j | 0 <= j < |streams| - 1
      ensures Column(rest, j) == Column(rows, if j < i then j else j + 1)
    {
    }
  }

  method AddRowOf(caches: seq<StackedKv>, ghost rows: seq<seq<Row>>, l: nat, row: Row, pos: nat)
    requires Holds(caches, rows) && l < |caches| && Paired(row) && row.pos == pos
    modifies caches[l]
    ensures Holds(caches, rows[l := rows[l] + [row]])
  {
    hide StackedKv.Valid;
    caches[l].AddRow(row.keys, row.vals, pos);
  }

  method RemoveRowOf(caches: seq<StackedKv>, ghost rows: seq<seq<Row>>, l: nat, i: nat)
    requires Holds(caches, rows) && l < |caches| && i < |rows[l]|
    modifies caches[l]
    ensures Holds(caches, rows[l := RemoveAt(rows[l], i)])
  {
    hide StackedKv.Valid;
    caches[l].RemoveRow(i);
  }

  /** Appends the prompted rows to every layer, making the caches on first use. */
  method AddRows(caches: seq<StackedKv>, ghost rows: seq<seq<Row>>, prompt: Prompt) returns (out: seq<StackedKv>)
    requires Holds(caches, rows) && |rows| == |prompt.rows|
    requires forall l :: 0 <= l < |prompt.rows| ==> Paired(prompt.rows[l]) && prompt.rows[l].pos == prompt.pos
    modifies caches
    ensures out == caches && Holds(out, RowsAdded(rows, prompt.rows, |rows|))
  {
    hide Holds;
    out := caches;
    assert RowsAdded(rows, prompt.rows, 0) == rows;
    for l := 0 to |prompt.rows|
      invariant Holds(caches, RowsAdded(rows, prompt.rows, l))
    {
      ghost var now := RowsAdded(rows, prompt.rows, l);
      assert RowsAdded(rows, prompt.rows, l + 1) == now[l := now[l] + [prompt.rows[l]]];
      AddRowOf(caches, now, l, prompt.rows[l], prompt.pos);
    }
  }

  /** The caches the first stream finds: one empty one per layer. */
  method EmptyCaches(n: nat) returns (out: seq<StackedKv>)
    ensures fresh(out) && |out| == n && Holds(out, seq(n, _ => []))
  {
    out := [];
    for l := 0 to n
      invariant fresh(out) && Holds(out, seq(l, _ => []))
    {
      var empty := new StackedKv();
      out := out + [empty];
    }
  }

  /** Drops row `i` of every layer. */
  method RemoveRows(caches: seq<StackedKv>, ghost rows: seq<seq<Row>>, i: nat)
    requires Holds(caches, rows) && forall l :: 0 <= l < |rows| ==> i < |rows[l]|
    modifies caches
    ensures Holds(caches, RowsRemoved(rows, i, |rows|))
  {
    hide Holds;
    assert RowsRemoved(rows, i, 0) == rows;
    for l := 0 to |caches|
      invariant Holds(caches, RowsRemoved(rows, i, l))
    {
      ghost var now := RowsRemoved(rows, i, l);
      assert RowsRemoved(rows, i, l + 1) == now[l := RemoveAt(now[l], i)];
      RemoveRowOf(caches, now, l, i);
    }
  }

  /** One layer over every row at once: project, push one column, attend. */
  method ForwardStackedLayer(kn: Kernel, layer: Layer, cache: StackedKv, xs: seq<Vec>, masked: bool)
    returns (ys: seq<Vec>)
    requires ExpLaws(kn.exp) && cache.Valid() && |xs| == |cache.rows|
    modifies cache
    ensures cache.Valid() && |ys| == |cache.rows| == |xs|
    ensures forall i :: 0 <= i < |xs| ==>
      (cache.rows[i], ys[i]) == LayerStep(kn, layer, old(cache.rows)[i], xs[i])
  {
    ghost var before := cache.rows;
    var qs, keys, vals := [], [], [];
    for i := 0 to |xs|
      invariant |qs| == |keys| == |vals| == i
      invariant forall j :: 0 <= j < i ==> (qs[j], keys[j], vals[j]) == layer.qkv(xs[j], before[j].pos)
    {
      var (q, key, val) := layer.qkv(xs[i], cache.pos[i]);
      qs, keys, vals := qs + [q], keys + [key], vals + [val];
    }
    cache.Push(keys, vals);
    var attended := cache.Attend(kn, qs, masked);
    ys := [];
    for i := 0 to |xs|
      invariant |ys| == i
      invariant forall j :: 0 <= j < i ==> ys[j] == layer.mix(xs[j], attended[j])
    {
      ys := ys + [layer.mix(xs[i], attended[i])];
    }
  }

  /** Row `i` of every layer, and its vector, are what the first `n` layers make
      of that row alone. */
  ghost predicate RowsThrough(kn: Kernel, layers: seq<Layer>, before: seq<seq<Row>>, xs: seq<Vec>,
                              rows: seq<seq<Row>>, ys: seq<Vec>, n: nat)
    requires n <= |layers| == |before| == |rows| && |ys| == |xs| && Square(before, |xs|) && Square(rows, |xs|)
  {
    forall i :: 0 <= i < |xs| ==> (Column(rows, i), ys[i]) == Through(kn, layers, Column(before, i), xs[i], n)
  }

  lemma LayerAdvances(kn: Kernel, layers: seq<Layer>, before: seq<seq<Row>>, xs: seq<Vec>,
                      rows: seq<seq<Row>>, ys: seq<Vec>, l: nat, row: seq<Row>, zs: seq<Vec>)
    requires l < |layers| == |before| == |rows| && |ys| == |xs| == |zs| == |row|
    requires Square(before, |xs|) && Square(rows, |xs|)
    requires RowsThrough(kn, layers, before, xs, rows, ys, l)
    requires forall i :: 0 <= i < |xs| ==> (row[i], zs[i]) == LayerStep(kn, layers[l], rows[l][i], ys[i])
    ensures Square(rows[l := row], |xs|)
    ensures RowsThrough(kn, layers, before, xs, rows[l := row], zs, l + 1)
  {
    forall i | 0 <= i < |xs|
      ensures (Column(rows[l := row], i), zs[i]) == Through(kn, layers, Column(before, i), xs[i], l + 1)
    {
      assert Column(rows[l := row], i) == Column(rows, i)[l := row[i]];
    }
  }

  lemma NoneThrough(kn: Kernel, layers: seq<Layer>, before: seq<seq<Row>>, xs: seq<Vec>)
    requires |before| == |layers| && Square(before, |xs|)
    ensures RowsThrough(kn, layers, before, xs, before, xs, 0)
  {
  }

  /** Every layer in turn; row `i` comes out as if it were alone. */
  method ForwardStacked(kn: Kernel, layers: seq<Layer>, caches: seq<StackedKv>, ghost before: seq<seq<Row>>,
      xs: seq<Vec>, masked: bool)
    returns (ys: seq<Vec>, ghost rows: seq<seq<Row>>)
    requires ExpLaws(kn.exp) && Holds(caches, before) && Square(before, |xs|) && |caches| == |layers|
    modifies caches
    ensures Holds(caches, rows) && Square(rows, |xs|) && |ys| == |xs|
    ensures RowsThrough(kn, layers, before, xs, rows, ys, |layers|)
  {
    hide StackedKv.Valid, RowsThrough, Through;
    ys, rows := xs, before;
    NoneThrough(kn, layers, before, xs);
    for l := 0 to |layers|
      invariant Holds(caches, rows) && Square(rows, |xs|) && |ys| == |xs|
      invariant RowsThrough(kn, layers, before, xs, rows, ys, l)
    {
      var zs := ForwardStackedLayer(kn, layers[l], caches[l], ys, masked);
      LayerAdvances(kn, layers, before, xs, rows, ys, l, caches[l].rows, zs);
      ys, rows := zs, rows[l := caches[l].rows];
    }
  }

  function Inputs<M>(net: Net<M>, streams: seq<Stream<M>>): (xs: seq<Vec>)
    ensures |xs| == |streams| && forall i :: 0 <= i < |xs| ==> xs[i] == net.embed(streams[i].p.input)
  {
    seq(|streams|, i requires 0 <= i < |streams| => net.embed(streams[i].p.input))
  }

  /** Each stream decodes its own row and moves on. */
  method Emitted<M>(net: Net<M>, streams: seq<Stream<M>>, hs: seq<Vec>)
    returns (frames: seq<Frame>, next: seq<Stream<M>>)
    requires |hs| == |streams|
    ensures |frames| == |next| == |streams|
    ensures forall i :: 0 <= i < |streams| ==>
      var (p, audio, done) := Emit(net, streams[i].p, hs[i]);
      frames[i] == Frame(streams[i].id, audio, done) && next[i] == Stream(streams[i].id, p)
  {
    frames, next := [], [];
    for i := 0 to |streams|
      invariant |frames| == |next| == i
      invariant forall j :: 0 <= j < i ==>
        var (p, audio, done) := Emit(net, streams[j].p, hs[j]);
        frames[j] == Frame(streams[j].id, audio, done) && next[j] == Stream(streams[j].id, p)
    {
      var (p, audio, done) := Emit(net, streams[i].p, hs[i]);
      frames, next := frames + [Frame(streams[i].id, audio, done)], next + [Stream(streams[i].id, p)];
    }
  }

  lemma {:induction false} UndoneHaveFrames<M(!new)>(net: Net<M>, live: seq<Live<M>>, frames: seq<Frame>)
    requires LiveValid(net, live) && frames == Frames(net, live)
    ensures LiveValid(net, Undone(Advanced(net, live), frames))
  {
    if live != [] {
      assert frames[1..] == Frames(net, live[1..]) && Advanced(net, live)[1..] == Advanced(net, live[1..]);
      UndoneHaveFrames(net, live[1..], frames[1..]);
      NextIsValid(net, live, frames);
      hide FrameStep, SoloValid, Frames, Advanced;
    }
  }

  lemma NextIsValid<M(!new)>(net: Net<M>, live: seq<Live<M>>, frames: seq<Frame>)
    requires LiveValid(net, live) && frames == Frames(net, live) && live != []
    ensures !frames[0].done ==> SoloValid(net, Advanced(net, live)[0].solo)
  {
    hide Hidden, Emit;
  }

  // ----- the batcher

  class Batcher<M(!new)> {
    const net: Net<M>
    /** A cache for each layer, a row of it for each stream. */
    var caches: seq<StackedKv>
    var streams: seq<Stream<M>>
    var nextId: nat
    ghost var rows: seq<seq<Row>>

    /** Caches, rows and streams line up. */
    ghost predicate Aligned()
      reads this, caches
    {
      && NetValid(net)
      && (|caches| == |net.layers| || (caches == [] && streams == []))
      && Holds(caches, rows) && Square(rows, |streams|)
      && (forall i :: 0 <= i < |streams| ==> streams[i].id < nextId)
      && (forall i, j :: 0 <= i < j < |streams| ==> streams[i].id != streams[j].id)
    }

    /** Between calls every stream has a frame left to give. */
    ghost predicate Valid()
      reads this, caches
      ensures Valid() ==> Aligned()
    {
      Aligned() && forall i :: 0 <= i < |streams| ==> streams[i].p.step < streams[i].p.maxGen
    }

    /** The batch as a list of independent readings. */
    ghost function View(): (live: seq<Live<M>>)
      requires Aligned()
      reads this, caches
      ensures |live| == |streams| && (Valid() ==> LiveValid(net, live))
    {
      ViewOf(rows, streams)
    }

    constructor (net: Net<M>)
      requires NetValid(net)
      ensures Valid() && View() == [] && this.net == net && nextId == 0 && caches == []
    {
      this.net, caches, streams, nextId, rows := net, [], [], 0, [];
    }

    /** The first stream finds no cache yet: one empty cache per layer. */
    method EnsureCaches()
      requires Valid()
      modifies this`caches, this`rows
      ensures Valid() && |caches| == |net.layers|
      ensures if old(caches) == [] then fresh(caches) else caches == old(caches)
      ensures View() == old(View())
    {
      if caches == [] {
        caches := EmptyCaches(|net.layers|);
        rows := seq(|net.layers|, _ => []);
      }
    }

    /** One more row in every layer, and the stream that owns it. */
    method AddStream(p: Prompt)
      requires Valid() && |caches| == |net.layers| && PromptFits(net, p)
      modifies this, caches
      ensures Valid() && caches == old(caches) && nextId == old(nextId) + 1
      ensures View() == old(View()) + [Live(old(nextId), Solo(p.rows, Begin(net, p, old(nextId))))]
    {
      hide StackedKv.Valid, Holds, ViewOf;
      ViewAdded(rows, streams, p.rows, Stream(nextId, Begin(net, p, nextId)));
      caches := AddRows(caches, rows, p);
      rows := RowsAdded(rows, p.rows, |rows|);
      streams := streams + [Stream(nextId, Begin(net, p, nextId))];
      nextId := nextId + 1;
    }

    /** A stream for the text, if it can be prompted. */
    method Add(u: Utterance) returns (r: Option<nat>)
      requires Valid()
      modifies this, caches
      ensures Valid() && forall c <- caches :: c in old(caches) || fresh(c)
      ensures r.None? <==> net.prompt(u).None?
      ensures r.None? ==> View() == old(View()) && nextId == old(nextId)
      ensures r.Some? ==> r.value == old(nextId) && nextId == old(nextId) + 1
      ensures r.Some? ==> var p := net.prompt(u).value;
        View() == old(View()) + [Live(r.value, Solo(p.rows, Begin(net, p, r.value)))]
    {
      hide StackedKv.Valid, Holds, ViewOf;
      if net.prompt(u).None? {
        return None;
      }
      EnsureCaches();
      r := Some(nextId);
      AddStream(net.prompt(u).value);
    }

    method RemoveAtIndex(i: nat)
      requires Aligned() && i < |streams|
      modifies this`streams, this`rows, caches
      ensures Aligned() && View() == RemoveAt(old(View()), i)
    {
      hide StackedKv.Valid;
      ViewRemoved(rows, streams, i);
      RemoveRows(caches, rows, i);
      streams, rows := RemoveAt(streams, i), RowsRemoved(rows, i, |rows|);
    }

    method Remove(id: nat)
      requires Valid()
      modifies this`streams, this`rows, caches
      ensures Valid() && View() == Without(old(View()), id)
    {
      var i := 0;
      while i < |streams| && streams[i].id != id
        invariant i <= |streams|
        invariant forall j :: 0 <= j < i ==> streams[j].id != id
      {
        i := i + 1;
      }
      if i < |streams| {
        WithoutAt(View(), i);
        RemoveAtIndex(i);
      } else {
        WithoutMissing(View(), id);
      }
    }

    /** One frame of every stream, none of them removed yet. */
    method Advance(masked: bool) returns (frames: seq<Frame>)
      requires Valid() && streams != []
      modifies this`streams, this`rows, caches
      ensures Aligned() && frames == Frames(net, old(View()))
      ensures View() == Advanced(net, old(View()))
    {
      hide StackedKv.Valid;
      var xs := Inputs(net, streams);
      var hs;
      hs, rows := ForwardStacked(net.kernel, net.layers, caches, rows, xs, masked);
      frames, streams := Emitted(net, streams, hs);
    }

    /** Removes the done streams from the last row to the first, so that no
        removal moves a row still to be looked at. */
    method DropDone(frames: seq<Frame>)
      requires Aligned() && |frames| == |streams|
      modifies this`streams, this`rows, caches
      ensures Aligned() && View() == Undone(old(View()), frames)
    {
      hide StackedKv.Valid, Holds, ViewOf;
      ghost var all := View();
      var i := |frames|;
      while i > 0
        invariant 0 <= i <= |frames| == |all| && Aligned()
        invariant View() == all[..i] + Undone(all[i..], frames[i..])
      {
        i := i - 1;
        UndoneFrom(all, frames, i);
        if frames[i].done {
          RemoveAtIndex(i);
        }
      }
    }

    /** Advances every stream by one frame; the streams reported done leave. */
    method Step(masked: bool) returns (frames: seq<Frame>)
      requires Valid()
      modifies this`streams, this`rows, caches
      ensures Valid() && frames == Frames(net, old(View()))
      ensures View() == Undone(Advanced(net, old(View())), frames)
    {
      hide StackedKv.Valid;
      if streams == [] {
        return [];
      }
      ghost var live := View();
      frames := Advance(masked);
      DropDone(frames);
      UndoneHaveFrames(net, live, frames);
    }
  }
}
