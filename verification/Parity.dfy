/** Reading beside others: over every run of a batch, a stream yields the frames
    it yields alone. */
module Parity {
  import opened Prelude
  import opened Softmax
  import opened StackedCache
  import opened FlowLm
  import opened Batching

  datatype Op = Add(u: Utterance) | Remove(id: nat) | Step

  datatype Batch<M> = Batch(nextId: nat, live: seq<Live<M>>)

  ghost predicate Distinct<M>(live: seq<Live<M>>) {
    forall i, j :: 0 <= i < j < |live| ==> live[i].id != live[j].id
  }

  ghost predicate HasId<M>(live: seq<Live<M>>, id: nat) {
    exists i :: 0 <= i < |live| && live[i].id == id
  }

  ghost predicate BatchValid<M(!new)>(net: Net<M>, b: Batch<M>)
    ensures BatchValid(net, b) ==> NetValid(net) && LiveValid(net, b.live) && Distinct(b.live)
  {
    && NetValid(net)
    && LiveValid(net, b.live) && Distinct(b.live)
    && forall i :: 0 <= i < |b.live| ==> b.live[i].id < b.nextId
  }

  ghost function StepBatch<M(!new)>(net: Net<M>, b: Batch<M>): (r: (Batch<M>, seq<Frame>))
    requires BatchValid(net, b)
    ensures BatchValid(net, r.0) && r.1 == Frames(net, b.live) && r.0.nextId == b.nextId
  {
    var frames, next := Frames(net, b.live), Advanced(net, b.live);
    UndoneHaveFrames(net, b.live, frames);
    UndoneKeeps(next, frames);
    var kept := Undone(next, frames);
    assert forall i :: 0 <= i < |kept| ==> kept[i] in kept;
    (Batch(b.nextId, kept), frames)
  }

  /** The streams left after a step are those that were not done. */
  lemma StepKeeps<M(!new)>(net: Net<M>, b: Batch<M>)
    requires BatchValid(net, b)
    ensures var (b1, frames) := StepBatch(net, b);
      && (forall i, x :: Stays(Advanced(net, b.live), frames, i, x) ==> x in b1.live)
      && (forall x <- b1.live :: exists i :: Stays(Advanced(net, b.live), frames, i, x))
  {
    UndoneKeeps(Advanced(net, b.live), Frames(net, b.live));
  }

  /** What each call does to the batch, and the frames it returns. */
  ghost function Perform<M(!new)>(net: Net<M>, b: Batch<M>, op: Op): (r: (Batch<M>, seq<Frame>))
    requires BatchValid(net, b)
    ensures BatchValid(net, r.0)
  {
    match op
    case Add(u) =>
      if net.prompt(u).None? then (b, []) else
      var p := net.prompt(u).value;
      (Batch(b.nextId + 1, b.live + [Live(b.nextId, Solo(p.rows, Begin(net, p, b.nextId)))]), [])
    case Remove(id) =>
      WithoutKeeps(b.live, id);
      (Batch(b.nextId, Without(b.live, id)), [])
    case Step => StepBatch(net, b)
  }

  ghost function Run<M(!new)>(net: Net<M>, b: Batch<M>, ops: seq<Op>): (r: (Batch<M>, seq<Frame>))
    requires BatchValid(net, b)
    ensures BatchValid(net, r.0)
    decreases ops
  {
    if ops == [] then (b, []) else
    var (b1, f1) := Perform(net, b, ops[0]);
    var (b2, f2) := Run(net, b1, ops[1..]);
    (b2, f1 + f2)
  }

  function FramesOf(id: nat, frames: seq<Frame>): seq<Vec> {
    if frames == [] then [] else
    (if frames[0].id == id then [frames[0].audio] else []) + FramesOf(id, frames[1..])
  }

  /** The steps a stream lives through unless it ends by itself first. */
  function StepsBeforeRemoval(ops: seq<Op>, id: nat): nat {
    if ops == [] || ops[0] == Remove(id) then 0 else
    (if ops[0].Step? then 1 else 0) + StepsBeforeRemoval(ops[1..], id)
  }

  // ----- what each list operation keeps

  lemma WithoutKeeps<M>(live: seq<Live<M>>, id: nat)
    requires Distinct(live)
    ensures forall x <- Without(live, id) :: x in live && x.id != id
    ensures forall x <- live :: x.id != id ==> x in Without(live, id)
    ensures Distinct(Without(live, id))
  {
    if i :| 0 <= i < |live| && live[i].id == id {
      WithoutAt(live, i);
      hide Without;
      WithoutOne(live, i);
    } else {
      WithoutMissing(live, id);
    }
  }

  lemma WithoutOne<M>(live: seq<Live<M>>, i: nat)
    requires Distinct(live) && i < |live|
    ensures var rest := RemoveAt(live, i);
      && (forall x <- rest :: x in live && x.id != live[i].id)
      && (forall x <- live :: x.id != live[i].id ==> x in rest)
      && Distinct(rest)
  {
    var rest := RemoveAt(live, i);
    forall x <- live | x.id != live[i].id ensures x in rest {
      var j :| 0 <= j < |live| && live[j] == x;
      assert rest[if j < i then j else j - 1] == x;
    }
  }

  /** Stream `i` was not done. */
  ghost predicate Stays<M>(live: seq<Live<M>>, frames: seq<Frame>, i: int, x: Live<M>)
    requires |live| == |frames|
  {
    0 <= i < |live| && x == live[i] && !frames[i].done
  }

  lemma {:induction false} UndoneKeeps<M>(live: seq<Live<M>>, frames: seq<Frame>)
    requires |live| == |frames| && Distinct(live)
    ensures forall x <- Undone(live, frames) :: exists i :: Stays(live, frames, i, x)
    ensures forall i, x :: Stays(live, frames, i, x) ==> x in Undone(live, frames)
    ensures Distinct(Undone(live, frames))
  {
    if live != [] {
      UndoneKeeps(live[1..], frames[1..]);
      var rest := Undone(live[1..], frames[1..]);
      forall x | x in rest ensures x.id != live[0].id && exists i :: Stays(live, frames, i, x) {
        var j :| Stays(live[1..], frames[1..], j, x);
        assert Stays(live, frames, j + 1, x);
      }
      forall i, x | Stays(live, frames, i, x) ensures x in Undone(live, frames) {
        if i > 0 {
          assert Stays(live[1..], frames[1..], i - 1, x);
        }
      }
      if !frames[0].done {
        assert Stays(live, frames, 0, live[0]);
      }
    }
  }

  lemma {:induction false} FramesOfConcat(id: nat, a: seq<Frame>, b: seq<Frame>)
    ensures FramesOf(id, a + b) == FramesOf(id, a) + FramesOf(id, b)
  {
    if a == [] {
      assert a + b == b;
    } else {
      assert (a + b)[1..] == a[1..] + b;
      FramesOfConcat(id, a[1..], b);
    }
  }

  lemma {:induction false} FramesOfOthers(id: nat, frames: seq<Frame>)
    requires forall i :: 0 <= i < |frames| ==> frames[i].id != id
    ensures FramesOf(id, frames) == []
  {
    if frames != [] {
      FramesOfOthers(id, frames[1..]);
    }
  }

  lemma FramesOfOne(frames: seq<Frame>, i: nat)
    requires i < |frames| && forall j, k :: 0 <= j < k < |frames| ==> frames[j].id != frames[k].id
    ensures FramesOf(frames[i].id, frames) == [frames[i].audio]
  {
    var id, before, after := frames[i].id, frames[..i], frames[i + 1..];
    assert frames == before + ([frames[i]] + after);
    FramesOfOthers(id, before);
    FramesOfOthers(id, after);
    OneFrame(frames[i]);
    hide FramesOf;
    FramesOfConcat(id, before, [frames[i]] + after);
    FramesOfConcat(id, [frames[i]], after);
  }

  lemma OneFrame(f: Frame)
    ensures FramesOf(f.id, [f]) == [f.audio]
  {
    assert [f][1..] == [];
  }

  lemma StaysGone<M(!new)>(net: Net<M>, b: Batch<M>, op: Op, id: nat)
    requires BatchValid(net, b) && id < b.nextId && !HasId(b.live, id)
    ensures var (b1, f1) := Perform(net, b, op);
      id < b1.nextId && !HasId(b1.live, id) && FramesOf(id, f1) == []
  {
    var (b1, f1) := Perform(net, b, op);
    FramesOfOthers(id, f1);
    if HasId(b1.live, id) {
      var i :| 0 <= i < |b1.live| && b1.live[i].id == id;
      assert b1.live[i] in b1.live;
      match op
      case Add(_) =>
      case Remove(r) => WithoutKeeps(b.live, r);
      case Step => StepKeeps(net, b);
    }
  }

  /** A stream that has left never comes back: its id is not given again. */
  lemma {:induction false} GoneForGood<M(!new)>(net: Net<M>, b: Batch<M>, ops: seq<Op>, id: nat)
    requires BatchValid(net, b) && id < b.nextId && !HasId(b.live, id)
    ensures FramesOf(id, Run(net, b, ops).1) == []
    decreases ops
  {
    if ops != [] {
      var (b1, f1) := Perform(net, b, ops[0]);
      StaysGone(net, b, ops[0], id);
      GoneForGood(net, b1, ops[1..], id);
      FramesOfConcat(id, f1, Run(net, b1, ops[1..]).1);
    }
  }

  /** Whatever is added, removed and stepped around it, stream `i` yields a
      prefix of its own solitary frames: one per step until it is removed or
      has no more. */
  lemma {:induction false} NonInterference<M(!new)>(net: Net<M>, b: Batch<M>, ops: seq<Op>, l: Live<M>)
    requires BatchValid(net, b) && l in b.live
    ensures var alone := Alone(net, l.solo);
      FramesOf(l.id, Run(net, b, ops).1) == alone[..Min(|alone|, StepsBeforeRemoval(ops, l.id))]
    decreases ops, 0
  {
    hide Perform, BatchValid, LiveValid, Distinct, Alone;
    if ops == [] {
      return;
    }
    var (b1, f1) := Perform(net, b, ops[0]);
    FramesOfConcat(l.id, f1, Run(net, b1, ops[1..]).1);
    match ops[0]
    case Add(u) =>
      AddOf(net, b, u, ops[1..], l);
    case Remove(r) =>
      RemoveOf(net, b, r, ops[1..], l);
    case Step =>
      StepOf(net, b, ops[1..], l);
  }

  lemma AddOf<M(!new)>(net: Net<M>, b: Batch<M>, u: Utterance, ops: seq<Op>, l: Live<M>)
    requires BatchValid(net, b) && l in b.live
    ensures var (b1, f1) := Perform(net, b, Add(u));
      var alone := Alone(net, l.solo);
      f1 == [] && FramesOf(l.id, Run(net, b1, ops).1) == alone[..Min(|alone|, StepsBeforeRemoval(ops, l.id))]
    decreases ops, 1
  {
    NonInterference(net, Perform(net, b, Add(u)).0, ops, l);
  }

  lemma RemoveOf<M(!new)>(net: Net<M>, b: Batch<M>, r: nat, ops: seq<Op>, l: Live<M>)
    requires BatchValid(net, b) && l in b.live
    ensures var alone := Alone(net, l.solo);
      Perform(net, b, Remove(r)).1 == [] && FramesOf(l.id, Run(net, Perform(net, b, Remove(r)).0, ops).1)
        == alone[..Min(|alone|, if r == l.id then 0 else StepsBeforeRemoval(ops, l.id))]
    decreases ops, 1
  {
    var b1 := Perform(net, b, Remove(r)).0;
    WithoutKeeps(b.live, r);
    if r == l.id {
      forall i | 0 <= i < |b1.live| ensures b1.live[i].id != r {
        assert b1.live[i] in b1.live;
      }
      GoneForGood(net, b1, ops, l.id);
    } else {
      NonInterference(net, b1, ops, l);
    }
  }

  /** One step: the stream's own next frame, then gone if that was its last. */
  lemma StepFrame<M(!new)>(net: Net<M>, b: Batch<M>, l: Live<M>)
    requires BatchValid(net, b) && l in b.live
    ensures var (b1, f1) := StepBatch(net, b);
      var (s', audio, done) := FrameStep(net, l.solo);
      FramesOf(l.id, f1) == [audio] && if done then !HasId(b1.live, l.id) else Live(l.id, s') in b1.live
  {
    var i :| 0 <= i < |b.live| && b.live[i] == l;
    StepKeeps(net, b);
    hide StepBatch, FrameStep, LiveValid, Paired;
    var (b1, f1) := StepBatch(net, b);
    FramesOfOne(f1, i);
    KeptOrGone(Advanced(net, b.live), f1, b1.live, i);
  }

  lemma KeptOrGone<M>(next: seq<Live<M>>, frames: seq<Frame>, kept: seq<Live<M>>, i: nat)
    requires i < |next| == |frames| && Distinct(next)
    requires forall j, x :: Stays(next, frames, j, x) ==> x in kept
    requires forall x <- kept :: exists j :: Stays(next, frames, j, x)
    ensures if frames[i].done then !HasId(kept, next[i].id) else next[i] in kept
  {
    assert Stays(next, frames, i, next[i]) <==> !frames[i].done;
    if frames[i].done {
      forall j | 0 <= j < |kept| ensures kept[j].id != next[i].id {
        assert kept[j] in kept;
        var k :| Stays(next, frames, k, kept[j]);
      }
    }
  }

  lemma StepOf<M(!new)>(net: Net<M>, b: Batch<M>, ops: seq<Op>, l: Live<M>)
    requires BatchValid(net, b) && l in b.live
    ensures var alone := Alone(net, l.solo);
      var (b1, f1) := Perform(net, b, Step);
      FramesOf(l.id, f1) + FramesOf(l.id, Run(net, b1, ops).1)
        == alone[..Min(|alone|, 1 + StepsBeforeRemoval(ops, l.id))]
    decreases ops, 2
  {
    hide StepBatch, FrameStep, LiveValid, Distinct, Alone, SoloValid, FramesOf, HasId, StepsBeforeRemoval, Run,
      BatchValid;
    SoloOf(net, b, l);
    StepFrame(net, b, l);
    AloneUnfolds(net, l.solo);
    RestOf(net, StepBatch(net, b).0, ops, l);
    var (s', audio, done) := FrameStep(net, l.solo);
    FirstThen(audio, if done then [] else Alone(net, s'), StepsBeforeRemoval(ops, l.id));
  }

  lemma SoloOf<M(!new)>(net: Net<M>, b: Batch<M>, l: Live<M>)
    requires BatchValid(net, b) && l in b.live
    ensures SoloValid(net, l.solo) && l.id < b.nextId
  {
  }

  /** What the stream yields after the step. */
  lemma RestOf<M(!new)>(net: Net<M>, b1: Batch<M>, ops: seq<Op>, l: Live<M>)
    requires BatchValid(net, b1) && l.id < b1.nextId && SoloValid(net, l.solo)
    requires var (s', audio, done) := FrameStep(net, l.solo);
      if done then !HasId(b1.live, l.id) else Live(l.id, s') in b1.live
    ensures var (s', audio, done) := FrameStep(net, l.solo);
      (done || SoloValid(net, s')) &&
      var rest := if done then [] else Alone(net, s');
      FramesOf(l.id, Run(net, b1, ops).1) == rest[..Min(|rest|, StepsBeforeRemoval(ops, l.id))]
    decreases ops, 1
  {
    AloneUnfolds(net, l.solo);
    hide FrameStep, LiveValid, Distinct, Alone, SoloValid, FramesOf, HasId, StepsBeforeRemoval, Run;
    var (s', audio, done) := FrameStep(net, l.solo);
    if done {
      GoneForGood(net, b1, ops, l.id);
    } else {
      NonInterference(net, b1, ops, Live(l.id, s'));
    }
  }

  lemma FirstThen<T>(x: T, rest: seq<T>, k: nat)
    ensures [x] + rest[..Min(|rest|, k)] == ([x] + rest)[..Min(|[x] + rest|, 1 + k)]
  {
  }

  // ----- from an empty batch

  lemma {:induction false} RunConcat<M(!new)>(net: Net<M>, b: Batch<M>, a: seq<Op>, c: seq<Op>)
    requires BatchValid(net, b)
    ensures Run(net, b, a + c) ==
      (Run(net, Run(net, b, a).0, c).0, Run(net, b, a).1 + Run(net, Run(net, b, a).0, c).1)
    decreases a
  {
    hide Perform, Frames, Advanced, LiveValid;
    if a == [] {
      assert a + c == c;
      assert [] + Run(net, b, c).1 == Run(net, b, c).1;
    } else {
      assert (a + c)[0] == a[0] && (a + c)[1..] == a[1..] + c;
      var (b1, f1) := Perform(net, b, a[0]);
      RunConcat(net, b1, a[1..], c);
      var (b2, f2) := Run(net, b1, a[1..]);
      assert (f1 + f2) + Run(net, b2, c).1 == f1 + (f2 + Run(net, b2, c).1);
    }
  }

  lemma {:induction false} OnlyOlderIds<M(!new)>(net: Net<M>, b: Batch<M>, ops: seq<Op>)
    requires BatchValid(net, b)
    ensures var (b', frames) := Run(net, b, ops);
      b.nextId <= b'.nextId && forall i :: 0 <= i < |frames| ==> frames[i].id < b'.nextId
    decreases ops
  {
    if ops != [] {
      OnlyOlderIds(net, Perform(net, b, ops[0]).0, ops[1..]);
    }
  }

  /** How many ids a list of calls gives out. */
  function IdsGiven<M>(net: Net<M>, ops: seq<Op>): nat {
    if ops == [] then 0 else
    (if ops[0].Add? && net.prompt(ops[0].u).Some? then 1 else 0) + IdsGiven(net, ops[1..])
  }

  lemma {:induction false} IdsGivenIs<M(!new)>(net: Net<M>, b: Batch<M>, ops: seq<Op>)
    requires BatchValid(net, b)
    ensures Run(net, b, ops).0.nextId == b.nextId + IdsGiven(net, ops)
    decreases ops
  {
    if ops != [] {
      IdsGivenIs(net, Perform(net, b, ops[0]).0, ops[1..]);
    }
  }

  /** For every run there is: a text added at any moment, with anything added,
      removed and stepped before and after, is read as it is read alone. */
  lemma ReadsAsAlone<M(!new)>(net: Net<M>, before: seq<Op>, u: Utterance, after: seq<Op>)
    requires NetValid(net) && net.prompt(u).Some?
    ensures var p := net.prompt(u).value;
      var id := Run(net, Batch(0, []), before).0.nextId;
      var alone := Alone(net, Solo(p.rows, Begin(net, p, id)));
      FramesOf(id, Run(net, Batch(0, []), before + [Add(u)] + after).1)
        == alone[..Min(|alone|, StepsBeforeRemoval(after, id))]
  {
    var p := net.prompt(u).value;
    var (b, f) := Run(net, Batch(0, []), before);
    var (b1, f1) := Perform(net, b, Add(u));
    var l := Live(b.nextId, Solo(p.rows, Begin(net, p, b.nextId)));
    assert before + [Add(u)] + after == before + ([Add(u)] + after);
    RunConcat(net, Batch(0, []), before, [Add(u)] + after);
    assert ([Add(u)] + after)[1..] == after;
    OnlyOlderIds(net, Batch(0, []), before);
    FramesOfOthers(b.nextId, f);
    FramesOfConcat(b.nextId, f, f1 + Run(net, b1, after).1);
    FramesOfConcat(b.nextId, f1, Run(net, b1, after).1);
    assert b1.live[|b.live|] == l;
    NonInterference(net, b1, after, l);
  }

  /** Each call of the batcher is the step above. */
  method Call<M(!new)>(batcher: Batcher<M>, op: Op, masked: bool) returns (frames: seq<Frame>)
    requires batcher.Valid()
    modifies batcher, batcher.caches
    ensures batcher.Valid() && forall c <- batcher.caches :: c in old(batcher.caches) || fresh(c)
    ensures BatchValid(batcher.net, old(Batch(batcher.nextId, batcher.View())))
    ensures (Batch(batcher.nextId, batcher.View()), frames)
      == Perform(batcher.net, old(Batch(batcher.nextId, batcher.View())), op)
  {
    hide StackedKv.Valid, Holds, ViewOf, Frames, Advanced, Undone, Without, LiveValid, Paired;
    frames := [];
    match op
    case Add(u) =>
      var r := batcher.Add(u);
    case Remove(id) =>
      batcher.Remove(id);
    case Step =>
      frames := batcher.Step(masked);
  }

  /** The batcher, driven through any list of calls, is that run. */
  method Replay<M(!new)>(net: Net<M>, ops: seq<Op>, masked: bool) returns (frames: seq<Frame>)
    requires NetValid(net)
    ensures frames == Run(net, Batch(0, []), ops).1
  {
    hide *;
    var batcher := new Batcher(net);
    frames := [];
    RunNothing(net);
    assert ops[..0] == [];
    for i := 0 to |ops|
      invariant batcher.Valid() && batcher.net == net
      invariant fresh(batcher) && fresh(batcher.caches)
      invariant (Batch(batcher.nextId, batcher.View()), frames) == Run(net, Batch(0, []), ops[..i])
    {
      RunSnoc(net, ops[..i], ops[i]);
      assert ops[..i + 1] == ops[..i] + [ops[i]];
      var more := Call(batcher, ops[i], masked);
      frames := frames + more;
      assert forall j :: 0 <= j < |batcher.caches| ==> batcher.caches[j] in batcher.caches;
    }
    assert ops[..|ops|] == ops;
  }

  lemma RunNothing<M(!new)>(net: Net<M>)
    requires NetValid(net)
    ensures BatchValid(net, Batch(0, [])) && Run(net, Batch(0, []), []) == (Batch(0, []), [])
  {
  }

  lemma RunSnoc<M(!new)>(net: Net<M>, ops: seq<Op>, op: Op)
    requires NetValid(net)
    ensures var (b, f) := Run(net, Batch(0, []), ops);
      Run(net, Batch(0, []), ops + [op]) == (Perform(net, b, op).0, f + Perform(net, b, op).1)
  {
    var (b, f) := Run(net, Batch(0, []), ops);
    RunConcat(net, Batch(0, []), ops, [op]);
    var (b1, f1) := Perform(net, b, op);
    assert Run(net, b1, []) == (b1, []);
    assert [op][1..] == [];
    assert f1 + [] == f1;
  }
}
