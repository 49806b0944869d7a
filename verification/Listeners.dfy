/** The scheduler over a real batch is the desk: what the batch still owes each
    stream is that stream's text read alone, with the noise drawn for it. So every
    run of the scheduler serves every listener as if there were no other. */
module Listeners {
  import opened Prelude
  import opened Softmax
  import opened FlowLm
  import opened Reading
  import opened Scheduler
  import opened Batching
  import opened Parity
  import Desk
  import Service

  /** The frames of a text read alone, with the noise of stream `seed`. */
  ghost function Recital<M(!new)>(net: Net<M>, u: Utterance, seed: nat): (frames: seq<Vec>)
    requires NetValid(net) && net.prompt(u).Some?
    ensures frames != []
  {
    var p := net.prompt(u).value;
    Alone(net, Solo(p.rows, Begin(net, p, seed)))
  }

  function LimitOf<M>(net: Net<M>, u: Utterance): nat {
    match net.prompt(u)
    case None => 0
    case Some(p) => MaxGenLen(p)
  }

  ghost function VoiceOf<M(!new)>(net: Net<M>, ears: Ears): (v: Desk.Voice)
    requires NetValid(net)
    ensures forall u :: v.prompts(u) <==> net.prompt(u).Some?
    ensures forall id, u :: v.prompts(u) ==> v.draw(id, u) == Recital(net, u, id)
    ensures v.ears == ears
  {
    Desk.Voice(
      (id: nat, u: Utterance) => if NetValid(net) && net.prompt(u).Some? then Recital(net, u, id) else [],
      (u: Utterance) => net.prompt(u).Some?,
      (u: Utterance) => LimitOf(net, u),
      ears)
  }

  lemma {:induction false} AloneBounded<M(!new)>(net: Net<M>, s: Solo<M>)
    requires SoloValid(net, s)
    ensures |Alone(net, s)| <= s.p.maxGen - s.p.step
    decreases s.p.maxGen - s.p.step
  {
    var (s', audio, done) := FrameStep(net, s);
    if !done {
      AloneBounded(net, s');
    }
  }

  lemma VoiceIsValid<M(!new)>(net: Net<M>, ears: Ears)
    requires NetValid(net)
    ensures Desk.VoiceValid(VoiceOf(net, ears))
  {
    forall id, u | net.prompt(u).Some?
      ensures 0 < |Recital(net, u, id)| <= LimitOf(net, u)
    {
      var p := net.prompt(u).value;
      AloneBounded(net, Solo(p.rows, Begin(net, p, id)));
    }
  }

  /** At temperature zero a text is read as the same frames every time. */
  lemma VoiceIsFixed<M(!new)>(net: Net<M>, ears: Ears)
    requires NetValid(net) && NoiseFree(net)
    ensures Desk.Fixed(VoiceOf(net, ears))
  {
    var v := VoiceOf(net, ears);
    forall i, j, u ensures v.draw(i, u) == v.draw(j, u) {
      if net.prompt(u).Some? {
        var p := net.prompt(u).value;
        var s := Solo(p.rows, Begin(net, p, i));
        assert Reseeded(s, j) == Solo(p.rows, Begin(net, p, j));
        SeedUnused(net, s, j);
      }
    }
  }

  // ----- what a batch still owes each stream

  ghost function Owed<M(!new)>(net: Net<M>, live: seq<Live<M>>, id: nat): seq<Vec>
    requires LiveValid(net, live)
  {
    if live == [] then []
    else if live[0].id == id then Alone(net, live[0].solo)
    else Owed(net, live[1..], id)
  }

  lemma {:induction false} OwedToNobody<M(!new)>(net: Net<M>, live: seq<Live<M>>, id: nat)
    requires LiveValid(net, live)
    ensures Owed(net, live, id) == [] <==> !HasId(live, id)
  {
    if live != [] {
      OwedToNobody(net, live[1..], id);
      assert live[0].id == id ==> HasId(live, id);
      if HasId(live[1..], id) {
        var i :| 0 <= i < |live[1..]| && live[1..][i].id == id;
        assert live[i + 1].id == id;
      }
      if HasId(live, id) && live[0].id != id {
        var i :| 0 <= i < |live| && live[i].id == id;
        assert live[1..][i - 1].id == id;
      }
    }
  }

  lemma {:induction false} OwedAdd<M(!new)>(net: Net<M>, live: seq<Live<M>>, x: Live<M>, id: nat)
    requires LiveValid(net, live) && SoloValid(net, x.solo) && !HasId(live, x.id)
    ensures LiveValid(net, live + [x])
    ensures Owed(net, live + [x], id) == if id == x.id then Alone(net, x.solo) else Owed(net, live, id)
    decreases |live|
  {
    if live == [] {
      assert (live + [x])[1..] == [];
    } else {
      assert (live + [x])[1..] == live[1..] + [x];
      assert live[0].id != x.id;
      forall i | 0 <= i < |live[1..]| ensures live[1..][i].id != x.id { assert live[i + 1].id != x.id; }
      OwedAdd(net, live[1..], x, id);
    }
  }

  lemma {:induction false} OwedWithout<M(!new)>(net: Net<M>, live: seq<Live<M>>, r: nat, id: nat)
    requires LiveValid(net, live) && Distinct(live)
    ensures LiveValid(net, Without(live, r))
    ensures Owed(net, Without(live, r), id) == if id == r then [] else Owed(net, live, id)
  {
    if live != [] {
      if live[0].id == r {
        assert !HasId(live[1..], r);
        OwedToNobody(net, live[1..], r);
      } else {
        OwedWithout(net, live[1..], r, id);
        assert Without(live, r)[1..] == Without(live[1..], r);
      }
    }
  }

  lemma OwedWhole<M(!new)>(net: Net<M>, live: seq<Live<M>>, i: nat)
    requires LiveValid(net, live) && Distinct(live) && i < |live|
    ensures Owed(net, live, live[i].id) == Alone(net, live[i].solo)
    decreases i
  {
    if i > 0 {
      OwedWhole(net, live[1..], i - 1);
    }
  }

  /** A step pays each stream one frame of what it owes, and flags the last. */
  lemma OwedStep<M(!new)>(net: Net<M>, b: Batch<M>, id: nat)
    requires BatchValid(net, b)
    ensures var (b1, frames) := StepBatch(net, b);
      && Owed(net, b.live, id) == FramesOf(id, frames) + Owed(net, b1.live, id)
      && forall i :: 0 <= i < |frames| && frames[i].id == id ==> (frames[i].done <==> Owed(net, b1.live, id) == [])
  {
    hide FrameStep, Alone, StepBatch, Owed, FramesOf, LiveValid, Distinct;
    if i :| 0 <= i < |b.live| && b.live[i].id == id {
      OwedStepLive(net, b, i);
    } else {
      FramesOfOthers(id, StepBatch(net, b).1);
      NotKept(net, b, id);
      OwedToNobody(net, b.live, id);
      OwedToNobody(net, StepBatch(net, b).0.live, id);
    }
  }

  lemma OwedStepLive<M(!new)>(net: Net<M>, b: Batch<M>, i: nat)
    requires BatchValid(net, b) && i < |b.live|
    ensures var (b1, frames) := StepBatch(net, b);
      var id := b.live[i].id;
      && Owed(net, b.live, id) == FramesOf(id, frames) + Owed(net, b1.live, id)
      && forall j :: 0 <= j < |frames| && frames[j].id == id ==> (frames[j].done <==> Owed(net, b1.live, id) == [])
  {
    var l := b.live[i];
    AloneUnfolds(net, l.solo);
    StepFrame(net, b, l);
    OwedWhole(net, b.live, i);
    hide FrameStep, Alone, StepBatch, Owed, FramesOf;
    var (b1, frames) := StepBatch(net, b);
    var (s', audio, done) := FrameStep(net, l.solo);
    assert forall j :: 0 <= j < |frames| && frames[j].id == l.id ==> j == i && frames[j].done == done;
    OwedToNobody(net, b1.live, l.id);
    if !done {
      var j :| 0 <= j < |b1.live| && b1.live[j] == Live(l.id, s');
      OwedWhole(net, b1.live, j);
    }
  }

  lemma NotKept<M(!new)>(net: Net<M>, b: Batch<M>, id: nat)
    requires BatchValid(net, b) && !HasId(b.live, id)
    ensures !HasId(StepBatch(net, b).0.live, id)
  {
    var (b1, frames) := StepBatch(net, b);
    StepKeeps(net, b);
    forall i | 0 <= i < |b1.live| ensures b1.live[i].id != id {
      assert b1.live[i] in b1.live;
      var j :| Stays(Advanced(net, b.live), frames, j, b1.live[i]);
      assert b.live[j].id != id;
    }
  }

  lemma OwedAfterAdd<M(!new)>(net: Net<M>, b: Batch<M>, u: Utterance, id: nat)
    requires BatchValid(net, b) && net.prompt(u).Some?
    ensures var b1 := Perform(net, b, Parity.Add(u)).0;
      && b1.nextId == b.nextId + 1
      && Owed(net, b1.live, id) == if id == b.nextId then Recital(net, u, id) else Owed(net, b.live, id)
  {
    var p := net.prompt(u).value;
    OwedAdd(net, b.live, Live(b.nextId, Solo(p.rows, Begin(net, p, b.nextId))), id);
  }

  lemma OwedAfterRemove<M(!new)>(net: Net<M>, b: Batch<M>, r: nat, id: nat)
    requires BatchValid(net, b)
    ensures var b1 := Perform(net, b, Parity.Remove(r)).0;
      b1.nextId == b.nextId && Owed(net, b1.live, id) == if id == r then [] else Owed(net, b.live, id)
  {
    OwedWithout(net, b.live, r, id);
  }

  lemma OwedNever<M(!new)>(net: Net<M>, b: Batch<M>, id: nat)
    requires BatchValid(net, b) && id >= b.nextId
    ensures Owed(net, b.live, id) == []
  {
    OwedToNobody(net, b.live, id);
  }

  // ----- the desk of a world

  /** `fs` are the frames of the last step still to be handled. */
  ghost function StillOwed<M(!new)>(net: Net<M>, w: World<M>, fs: seq<Frame>, id: nat): seq<Vec>
    requires Sane(net, w)
  {
    FramesOf(id, fs) + Owed(net, w.batch.live, id)
  }

  ghost function OwedMap<M(!new)>(net: Net<M>, w: World<M>, fs: seq<Frame>): (m: map<nat, seq<Vec>>)
    requires Sane(net, w)
    ensures forall id: nat :: id in m <==> id < w.batch.nextId && StillOwed(net, w, fs, id) != []
    ensures forall id <- m :: m[id] == StillOwed(net, w, fs, id)
  {
    map id: nat | id < w.batch.nextId && StillOwed(net, w, fs, id) != [] :: StillOwed(net, w, fs, id)
  }

  ghost function DeskOf<M(!new)>(net: Net<M>, w: World<M>, fs: seq<Frame>): Desk.Desk
    requires Sane(net, w)
  {
    Desk.Desk(w.active, w.received, OwedMap(net, w, fs), w.batch.nextId, w.nextJob)
  }

  /** What stream `id` is owed at the desk. */
  lemma DeskOwes<M(!new)>(net: Net<M>, w: World<M>, fs: seq<Frame>, id: nat)
    requires Sane(net, w)
    ensures DeskOf(net, w, fs).nextId == w.batch.nextId
    ensures id in DeskOf(net, w, fs).owed <==>
      id < w.batch.nextId && FramesOf(id, fs) + Owed(net, w.batch.live, id) != []
    ensures id in DeskOf(net, w, fs).owed ==>
      DeskOf(net, w, fs).owed[id] == FramesOf(id, fs) + Owed(net, w.batch.live, id)
  {
    hide FramesOf, Owed, Sane;
  }

  lemma SameOwed<M(!new)>(net: Net<M>, w: World<M>, fs: seq<Frame>, m: map<nat, seq<Vec>>)
    requires Sane(net, w)
    requires forall id: nat :: id in m <==> id < w.batch.nextId && StillOwed(net, w, fs, id) != []
    requires forall id <- m :: m[id] == StillOwed(net, w, fs, id)
    ensures OwedMap(net, w, fs) == m
  {
    hide StillOwed, Sane;
  }

  lemma SameBatch<M(!new)>(net: Net<M>, w: World<M>, w': World<M>, fs: seq<Frame>)
    requires Sane(net, w) && Sane(net, w') && w'.batch == w.batch
    ensures OwedMap(net, w', fs) == OwedMap(net, w, fs)
  {
    hide Owed, Sane;
    assert forall i: nat :: StillOwed(net, w', fs, i) == StillOwed(net, w, fs, i);
    hide StillOwed;
    SameOwed(net, w', fs, OwedMap(net, w, fs));
  }

  lemma StreamedSim<M(!new)>(net: Net<M>, ears: Ears, w: World<M>, fs: seq<Frame>, a: Active)
    requires Sane(net, w) && a.job in w.received && a.segment < |a.job.segments|
    requires forall i :: 0 <= i < |fs| ==> fs[i].id < w.batch.nextId
    ensures DeskOf(net, Streamed(net, w, a), fs) == Desk.Streamed(VoiceOf(net, ears), DeskOf(net, w, fs), a)
  {
    var u, n := Desk.TextOf(a), w.batch.nextId;
    if net.prompt(u).Some? {
      FramesOfOthers(n, fs);
      OwedNever(net, w.batch, n);
      hide Perform, BatchValid, Recital, Owed;
      var w' := Streamed(net, w, a);
      forall id: nat
        ensures StillOwed(net, w', fs, id) == if id == n then Recital(net, u, n) else StillOwed(net, w, fs, id)
      {
        OwedAfterAdd(net, w.batch, u, id);
      }
      OwedAfterAdd(net, w.batch, u, n);
      hide StillOwed, Sane;
      SameOwed(net, w', fs, OwedMap(net, w, fs)[n := Recital(net, u, n)]);
    }
  }

  lemma DroppedSim<M(!new)>(net: Net<M>, w: World<M>, f: Frame, fs: seq<Frame>)
    requires Sane(net, w) && FramesOf(f.id, fs) == [] && (f.done ==> Owed(net, w.batch.live, f.id) == [])
    ensures DeskOf(net, Dropped(net, w, f), fs) == Desk.Dropped(DeskOf(net, w, fs), f.id)
  {
    hide BatchValid, Perform, Owed;
    var w' := Dropped(net, w, f);
    forall id: nat ensures StillOwed(net, w', fs, id) == if id == f.id then [] else StillOwed(net, w, fs, id) {
      if !f.done {
        OwedAfterRemove(net, w.batch, f.id, id);
      }
    }
    hide StillOwed, Sane, Dropped;
    SameOwed(net, w', fs, OwedMap(net, w, fs) - {f.id});
  }

  lemma OneLessFrame(id: nat, f: Frame, rest: seq<Frame>)
    ensures FramesOf(id, [f] + rest) == (if f.id == id then [f.audio] else []) + FramesOf(id, rest)
  {
    assert ([f] + rest)[1..] == rest;
  }

  /** A frame handled is a frame paid. */
  lemma PaidSim<M(!new)>(net: Net<M>, w: World<M>, f: Frame, rest: seq<Frame>)
    requires Sane(net, w) && f.id < w.batch.nextId && FramesOf(f.id, rest) == []
    ensures f.id in OwedMap(net, w, [f] + rest) &&
      OwedMap(net, w, [f] + rest)[f.id] == [f.audio] + Owed(net, w.batch.live, f.id)
    ensures DeskOf(net, w, rest) == Desk.Paid(DeskOf(net, w, [f] + rest), f.id)
  {
    hide BatchValid, Owed, FramesOf, Sane;
    forall id: nat
      ensures StillOwed(net, w, [f] + rest, id) ==
        (if id == f.id then [f.audio] else []) + StillOwed(net, w, rest, id)
    {
      OneLessFrame(id, f, rest);
    }
    assert StillOwed(net, w, rest, f.id) == Owed(net, w.batch.live, f.id);
    hide StillOwed;
    SameOwed(net, w, rest, Desk.Paid(DeskOf(net, w, [f] + rest), f.id).owed);
  }

  lemma TakenOutSim<M(!new)>(net: Net<M>, w: World<M>, fs: seq<Frame>, id: nat, sent: seq<Piece>)
    requires Sane(net, w) && id in w.active
    ensures Sane(net, TakenOut(w, id, sent))
    ensures DeskOf(net, TakenOut(w, id, sent), fs) == Desk.TakenOut(DeskOf(net, w, fs), id, sent)
  {
    hide BatchValid;
    var w' := TakenOut(w, id, sent);
    assert Sane(net, w');
    hide Sane;
    SameBatch(net, w, w', fs);
  }

  lemma SettledSim<M(!new)>(net: Net<M>, ears: Ears, w: World<M>, f: Frame, fs: seq<Frame>, outcome: Outcome)
    requires Sane(net, w) && f.id < w.batch.nextId && OutcomeFits(w, outcome)
    requires FramesOf(f.id, fs) == [] && (f.done ==> Owed(net, w.batch.live, f.id) == [])
    requires forall i :: 0 <= i < |fs| ==> fs[i].id < w.batch.nextId
    ensures DeskOf(net, Settled(net, w, f, outcome), fs) ==
      Desk.Settled(VoiceOf(net, ears), DeskOf(net, w, fs), f.id, outcome)
  {
    match outcome
    case Kept(b) =>
      var w' := w.(active := w.active[f.id := b]);
      assert Settled(net, w, f, outcome) == w';
      hide Sane, Settled, FramesOf;
      SameBatch(net, w, w', fs);
    case Again(b) =>
      hide Sane, Owed, Dropped, Streamed, FramesOf, OwedMap;
      DroppedSim(net, w, f, fs);
      StreamedSim(net, ears, Dropped(net, w, f), fs, b);
    case Next(b) =>
      hide Sane, Owed, Streamed, FramesOf, OwedMap;
      StreamedSim(net, ears, w, fs, b);
    case Over =>
    case Left =>
      hide Sane, Owed, Dropped, FramesOf, OwedMap;
      DroppedSim(net, w, f, fs);
  }

  /** The frames of a step, each its stream's next and flagged when its last. */
  ghost predicate FramesFit<M(!new)>(net: Net<M>, w: World<M>, fs: seq<Frame>)
    requires Sane(net, w)
  {
    && (forall i, j :: 0 <= i < j < |fs| ==> fs[i].id != fs[j].id)
    && (forall i :: 0 <= i < |fs| ==> fs[i].id < w.batch.nextId)
    && (forall i :: 0 <= i < |fs| ==> (fs[i].done <==> Owed(net, w.batch.live, fs[i].id) == []))
  }

  lemma FitsTail<M(!new)>(net: Net<M>, w: World<M>, f: Frame, rest: seq<Frame>)
    requires Sane(net, w) && FramesFit(net, w, [f] + rest)
    ensures f.id < w.batch.nextId && (f.done <==> Owed(net, w.batch.live, f.id) == [])
    ensures FramesOf(f.id, rest) == [] && FramesFit(net, w, rest)
    ensures forall i :: 0 <= i < |rest| ==> rest[i].id != f.id && rest[i].id < w.batch.nextId
  {
    hide Sane, Owed;
    var all := [f] + rest;
    assert all[0] == f && all[1..] == rest;
    assert forall i :: 0 <= i < |rest| ==> rest[i] == all[i + 1];
    FramesOfOthers(f.id, rest);
  }

  /** Handling a frame of the batch is handling what the desk is owed. */
  lemma HandledSim<M(!new)>(net: Net<M>, ears: Ears, w: World<M>, f: Frame, rest: seq<Frame>, bad: bool)
    requires Sane(net, w) && FramesFit(net, w, [f] + rest) && Desk.DeskShape(DeskOf(net, w, [f] + rest))
    ensures f.id in DeskOf(net, w, [f] + rest).owed
    ensures DeskOf(net, Handled(net, ears, w, f, bad), rest)
         == Desk.Handled(VoiceOf(net, ears), DeskOf(net, w, [f] + rest), f.id, bad)
  {
    FitsTail(net, w, f, rest);
    hide FramesFit, Owed, FramesOf, BatchValid, Settled, Desk.Settled, OnFrame, OwedMap;
    var v, d := VoiceOf(net, ears), DeskOf(net, w, [f] + rest);
    PaidSim(net, w, f, rest);
    if f.id in w.active {
      var a := w.active[f.id];
      if bad {
        TakenOutSim(net, w, rest, f.id, w.received[a.job]);
      } else {
        var (outcome, sent) := OnFrame(a, w.received[a.job], HeardOf(ears, f.audio, f.done));
        OutcomeSegment(a, w.received[a.job], HeardOf(ears, f.audio, f.done));
        assert Desk.OutcomeOf(v, d, f.id) == (outcome, sent);
        TakenOutSim(net, w, rest, f.id, sent);
        SettledSim(net, ears, TakenOut(w, f.id, sent), f, rest, outcome);
      }
    }
  }

  lemma OwedUnchanged<M(!new)>(net: Net<M>, ears: Ears, w: World<M>, f: Frame, rest: seq<Frame>, bad: bool, id: nat)
    requires Sane(net, w) && FramesFit(net, w, [f] + rest) && Desk.DeskShape(DeskOf(net, w, [f] + rest))
    requires id != f.id && FramesOf(id, rest) != [] && id < w.batch.nextId
    ensures var w' := Handled(net, ears, w, f, bad);
      id < w'.batch.nextId && Owed(net, w'.batch.live, id) == Owed(net, w.batch.live, id)
  {
    hide *;
    var w' := Handled(net, ears, w, f, bad);
    HandledSim(net, ears, w, f, rest, bad);
    DeskOwes(net, w, [f] + rest, id);
    DeskOwes(net, w', rest, id);
    OneLessFrame(id, f, rest);
    Desk.HandledOthers(VoiceOf(net, ears), DeskOf(net, w, [f] + rest), f.id, bad);
    SameTail(FramesOf(id, rest), Owed(net, w.batch.live, id), Owed(net, w'.batch.live, id));
  }

  /** The frames still to come are untouched by the one handled. */
  lemma FitsAfter<M(!new)>(net: Net<M>, ears: Ears, w: World<M>, f: Frame, rest: seq<Frame>, bad: bool)
    requires Sane(net, w) && FramesFit(net, w, [f] + rest) && Desk.DeskShape(DeskOf(net, w, [f] + rest))
    ensures FramesFit(net, Handled(net, ears, w, f, bad), rest)
  {
    FitsTail(net, w, f, rest);
    forall i | 0 <= i < |rest|
      ensures rest[i].id < Handled(net, ears, w, f, bad).batch.nextId
      ensures Owed(net, Handled(net, ears, w, f, bad).batch.live, rest[i].id) == Owed(net, w.batch.live, rest[i].id)
    {
      hide *;
      FitsDistinct(net, w, rest);
      FramesOfOne(rest, i);
      OwedUnchanged(net, ears, w, f, rest, bad, rest[i].id);
    }
    hide Handled, Owed, Sane, Desk.DeskShape, OwedMap, DeskOf;
  }

  lemma FitsDistinct<M(!new)>(net: Net<M>, w: World<M>, fs: seq<Frame>)
    requires Sane(net, w) && FramesFit(net, w, fs)
    ensures forall i, j :: 0 <= i < j < |fs| ==> fs[i].id != fs[j].id
  {
  }

  lemma SameTail<T>(x: seq<T>, a: seq<T>, b: seq<T>)
    ensures x + a == x + b ==> a == b
  {
    if x + a == x + b {
      assert a == (x + a)[|x|..] == (x + b)[|x|..] == b;
    }
  }

  function Ids(fs: seq<Frame>): (ids: seq<nat>)
    ensures |ids| == |fs| && forall i :: 0 <= i < |ids| ==> ids[i] == fs[i].id
  {
    seq<nat>(|fs|, i requires 0 <= i < |fs| => fs[i].id)
  }

  /** All the frames of a step. */
  lemma {:induction false} HandledAllSim<M(!new)>(net: Net<M>, ears: Ears, w: World<M>, fs: seq<Frame>, bad: set<nat>,
      k: nat)
    requires Sane(net, w) && FramesFit(net, w, fs) && k <= |fs|
    requires Desk.DeskOk(VoiceOf(net, ears), DeskOf(net, w, fs)) && Desk.Listed(DeskOf(net, w, fs), Ids(fs))
    ensures Desk.Listed(DeskOf(net, w, fs), Ids(fs)[..k])
    ensures var wk := HandledAll(net, ears, w, fs[..k], bad);
      FramesFit(net, wk, fs[k..]) &&
      DeskOf(net, wk, fs[k..]) == Desk.HandledAll(VoiceOf(net, ears), DeskOf(net, w, fs), Ids(fs)[..k], bad)
    decreases k
  {
    var v, d := VoiceOf(net, ears), DeskOf(net, w, fs);
    if k == 0 {
      assert fs[0..] == fs && fs[..0] == [] && Ids(fs)[..0] == [];
    } else {
      ListedPrefix(d, Ids(fs), k - 1);
      ListedPrefix(d, Ids(fs), k);
      hide *;
      HandledAllSim(net, ears, w, fs, bad, k - 1);
      HandledNextSim(net, ears, w, fs, bad, k);
    }
  }

  lemma NextFrame(fs: seq<Frame>, k: nat)
    requires 0 < k <= |fs|
    ensures fs[k - 1..] == [fs[k - 1]] + fs[k..]
    ensures fs[..k] != [] && ButLast(fs[..k]) == fs[..k - 1] && Last(fs[..k]) == fs[k - 1]
    ensures Ids(fs)[..k] != [] && ButLast(Ids(fs)[..k]) == Ids(fs)[..k - 1] && Last(Ids(fs)[..k]) == fs[k - 1].id
  {
  }

  lemma HandledNextSim<M(!new)>(net: Net<M>, ears: Ears, w: World<M>, fs: seq<Frame>, bad: set<nat>, k: nat)
    requires Sane(net, w) && 0 < k <= |fs| && Desk.DeskOk(VoiceOf(net, ears), DeskOf(net, w, fs))
    requires Desk.Listed(DeskOf(net, w, fs), Ids(fs)[..k - 1]) && Desk.Listed(DeskOf(net, w, fs), Ids(fs)[..k])
    requires var w1 := HandledAll(net, ears, w, fs[..k - 1], bad);
      FramesFit(net, w1, fs[k - 1..]) &&
      DeskOf(net, w1, fs[k - 1..]) == Desk.HandledAll(VoiceOf(net, ears), DeskOf(net, w, fs), Ids(fs)[..k - 1], bad)
    ensures var wk := HandledAll(net, ears, w, fs[..k], bad);
      FramesFit(net, wk, fs[k..]) &&
      DeskOf(net, wk, fs[k..]) == Desk.HandledAll(VoiceOf(net, ears), DeskOf(net, w, fs), Ids(fs)[..k], bad)
  {
    var f, rest, ids := fs[k - 1], fs[k..], Ids(fs)[..k];
    hide *;
    NextFrame(fs, k);
    var v, d := VoiceOf(net, ears), DeskOf(net, w, fs);
    var w1 := HandledAll(net, ears, w, fs[..k - 1], bad);
    HandledAllLast(net, ears, w, fs[..k], bad);
    Desk.StepLast(v, d, ids, bad);
    HandledSim(net, ears, w1, f, rest, f.id in bad);
    FitsAfter(net, ears, w1, f, rest, f.id in bad);
  }

  lemma HandledAllLast<M(!new)>(net: Net<M>, ears: Ears, w: World<M>, fs: seq<Frame>, bad: set<nat>)
    requires Sane(net, w) && fs != []
    ensures HandledAll(net, ears, w, fs, bad) ==
      Handled(net, ears, HandledAll(net, ears, w, ButLast(fs), bad), Last(fs), Last(fs).id in bad)
  {
  }

  lemma ListedPrefix(d: Desk.Desk, ids: seq<nat>, k: nat)
    requires Desk.Listed(d, ids) && k <= |ids|
    ensures Desk.Listed(d, ids[..k])
  {
  }

  // ----- calls and runs

  datatype Call =
    | Arrive(segments: seq<string>, voice: nat, class_: Class, leavesAfter: Option<nat>)
    | Advance(bad: set<nat>)
    | Fail

  ghost function Called<M(!new)>(net: Net<M>, ears: Ears, w: World<M>, c: Call): (w': World<M>)
    requires Sane(net, w)
    ensures Sane(net, w')
  {
    match c
    case Arrive(segments, voice, class_, leavesAfter) => Started(net, w, segments, voice, class_, leavesAfter)
    case Advance(bad) => Ticked(net, ears, w, bad)
    case Fail => w.(active := map[])
  }

  /** What the desk makes of a call: the batch lists its streams in its order. */
  ghost function EventOf<M(!new)>(net: Net<M>, w: World<M>, c: Call): Desk.Event
    requires Sane(net, w)
  {
    match c
    case Arrive(segments, voice, class_, leavesAfter) => Desk.Start(segments, voice, class_, leavesAfter)
    case Advance(bad) => Desk.Tick(Ids(StepBatch(net, w.batch).1), bad)
    case Fail => Desk.StepFailure
  }

  lemma SteppedOwes<M(!new)>(net: Net<M>, w: World<M>)
    requires Sane(net, w)
    ensures var (b, frames) := StepBatch(net, w.batch); var w1 := w.(batch := b);
      Sane(net, w1) && OwedMap(net, w1, frames) == OwedMap(net, w, [])
  {
    var (b, frames) := StepBatch(net, w.batch);
    var w1 := w.(batch := b);
    assert Sane(net, w1);
    hide StepBatch, Owed, Sane, BatchValid, FramesOf;
    forall id: nat
      ensures StillOwed(net, w1, frames, id) == StillOwed(net, w, [], id)
    {
      OwedStep(net, w.batch, id);
      assert FramesOf(id, []) == [] by { NoFrames(id); }
    }
    hide StillOwed;
    SameOwed(net, w1, frames, OwedMap(net, w, []));
  }

  lemma NoFrames(id: nat)
    ensures FramesOf(id, []) == []
  {
  }

  lemma SteppedFits<M(!new)>(net: Net<M>, w: World<M>)
    requires Sane(net, w) && Sane(net, w.(batch := StepBatch(net, w.batch).0))
    ensures FramesFit(net, w.(batch := StepBatch(net, w.batch).0), StepBatch(net, w.batch).1)
  {
    StepIds(net, w.batch);
    var (b, frames) := StepBatch(net, w.batch);
    assert forall i :: 0 <= i < |frames| ==> frames[i].id == Ids(frames)[i] == w.batch.live[i].id < b.nextId;
    hide StepBatch, Owed, Sane, BatchValid, FramesOf;
    forall i | 0 <= i < |frames| ensures frames[i].done <==> Owed(net, b.live, frames[i].id) == [] {
      OwedStep(net, w.batch, frames[i].id);
    }
  }

  lemma SteppedSim<M(!new)>(net: Net<M>, w: World<M>)
    requires Sane(net, w)
    ensures var (b, frames) := StepBatch(net, w.batch); var w1 := w.(batch := b);
      Sane(net, w1) && FramesFit(net, w1, frames) && DeskOf(net, w1, frames) == DeskOf(net, w, [])
  {
    SteppedOwes(net, w);
    SteppedFits(net, w);
    hide StepBatch, OwedMap, Sane, BatchValid, FramesFit;
  }

  lemma StepIds<M(!new)>(net: Net<M>, b: Batch<M>)
    requires BatchValid(net, b)
    ensures var ids := Ids(StepBatch(net, b).1);
      && |ids| == |b.live| && (forall i :: 0 <= i < |ids| ==> ids[i] == b.live[i].id)
      && (forall i, j :: 0 <= i < j < |ids| ==> ids[i] != ids[j])
  {
    hide StepBatch;
  }

  lemma StepIsListed<M(!new)>(net: Net<M>, w: World<M>)
    requires Sane(net, w)
    ensures var ids := Ids(StepBatch(net, w.batch).1);
      Desk.Listed(DeskOf(net, w, []), ids) && forall id <- DeskOf(net, w, []).owed :: id in ids
  {
    StepIds(net, w.batch);
    var ids, d := Ids(StepBatch(net, w.batch).1), DeskOf(net, w, []);
    forall i | 0 <= i < |ids| ensures ids[i] in d.owed {
      hide *;
      IsLive(net, w, i);
    }
    forall id <- d.owed ensures id in ids {
      hide *;
      OwedIsLive(net, w, id);
      LiveIsListed(w.batch.live, ids, id);
    }
    hide *;
    ListedIs(d, ids);
  }

  lemma LiveIsListed<M>(live: seq<Live<M>>, ids: seq<nat>, id: nat)
    requires HasId(live, id) && |ids| == |live| && forall i :: 0 <= i < |ids| ==> ids[i] == live[i].id
    ensures id in ids
  {
    var i :| 0 <= i < |live| && live[i].id == id;
    assert ids[i] == id;
  }

  lemma ListedIs(d: Desk.Desk, ids: seq<nat>)
    requires (forall i :: 0 <= i < |ids| ==> ids[i] in d.owed) && forall i, j :: 0 <= i < j < |ids| ==> ids[i] != ids[j]
    ensures Desk.Listed(d, ids)
  {
  }

  lemma IsLive<M(!new)>(net: Net<M>, w: World<M>, i: nat)
    requires Sane(net, w) && i < |w.batch.live|
    ensures w.batch.live[i].id in DeskOf(net, w, []).owed
  {
    assert w.batch.live[i].id < w.batch.nextId;
    assert HasId(w.batch.live, w.batch.live[i].id);
    hide *;
    OwedToNobody(net, w.batch.live, w.batch.live[i].id);
    DeskOwes(net, w, [], w.batch.live[i].id);
  }

  lemma OwedIsLive<M(!new)>(net: Net<M>, w: World<M>, id: nat)
    requires Sane(net, w) && id in DeskOf(net, w, []).owed
    ensures HasId(w.batch.live, id)
  {
    assert FramesOf(id, []) == [];
    hide *;
    OwedToNobody(net, w.batch.live, id);
    DeskOwes(net, w, [], id);
  }

  lemma StartedSim<M(!new)>(net: Net<M>, ears: Ears, w: World<M>, segments: seq<string>, voice: nat, class_: Class,
    leavesAfter: Option<nat>)
    requires Sane(net, w)
    ensures DeskOf(net, Started(net, w, segments, voice, class_, leavesAfter), [])
         == Desk.Started(VoiceOf(net, ears), DeskOf(net, w, []), segments, voice, class_, leavesAfter)
  {
    var job := Job(w.nextJob, segments, voice, class_, leavesAfter);
    KnownSim(net, w, job);
    if segments != [] {
      var known := w.(received := w.received[job := []], nextJob := w.nextJob + 1);
      hide Sane, Owed, OwedMap, BatchValid, Streamed, DeskOf, Desk.Streamed, Desk.Known;
      StreamedSim(net, ears, known, [], Fresh(job));
    }
  }

  lemma KnownSim<M(!new)>(net: Net<M>, w: World<M>, job: Job)
    requires Sane(net, w) && job.id == w.nextJob
    ensures var known := w.(received := w.received[job := []], nextJob := w.nextJob + 1);
      Sane(net, known) && DeskOf(net, known, []) == Desk.Known(DeskOf(net, w, []), job)
  {
    var known := w.(received := w.received[job := []], nextJob := w.nextJob + 1);
    assert Sane(net, known);
    hide Sane, OwedMap;
    SameBatch(net, w, known, []);
  }

  lemma TickedIs<M(!new)>(net: Net<M>, ears: Ears, w: World<M>, bad: set<nat>)
    requires Sane(net, w)
    ensures var (b, frames) := StepBatch(net, w.batch);
      Sane(net, w.(batch := b)) && Ticked(net, ears, w, bad) == HandledAll(net, ears, w.(batch := b), frames, bad)
  {
    hide HandledAll, StepBatch, BatchValid;
  }

  lemma AllFrames(fs: seq<Frame>)
    ensures fs[..|fs|] == fs && fs[|fs|..] == [] && Ids(fs)[..|fs|] == Ids(fs)
  {
  }

  lemma TickedSim<M(!new)>(net: Net<M>, ears: Ears, w: World<M>, bad: set<nat>)
    requires Sane(net, w) && Desk.DeskOk(VoiceOf(net, ears), DeskOf(net, w, []))
    ensures var ids := Ids(StepBatch(net, w.batch).1);
      Desk.Listed(DeskOf(net, w, []), ids) &&
      DeskOf(net, Ticked(net, ears, w, bad), []) == Desk.HandledAll(VoiceOf(net, ears), DeskOf(net, w, []), ids, bad)
  {
    hide *;
    var (b, frames) := StepBatch(net, w.batch);
    TickedIs(net, ears, w, bad);
    AllFrames(frames);
    SteppedSim(net, w);
    StepIsListed(net, w);
    HandledAllSim(net, ears, w.(batch := b), frames, bad, |frames|);
  }

  /** Every call to the scheduler is an event at the desk. */
  lemma CalledSim<M(!new)>(net: Net<M>, ears: Ears, w: World<M>, c: Call)
    requires Sane(net, w) && Desk.DeskOk(VoiceOf(net, ears), DeskOf(net, w, []))
    ensures Desk.EventFits(DeskOf(net, w, []), EventOf(net, w, c))
    ensures DeskOf(net, Called(net, ears, w, c), [])
         == Desk.Happened(VoiceOf(net, ears), DeskOf(net, w, []), EventOf(net, w, c))
  {
    hide Owed, OwedMap, BatchValid, Desk.DeskOk, Desk.Listed, Desk.HandledAll, Ticked, Started, Desk.Started, StepBatch;
    match c
    case Arrive(segments, voice, class_, leavesAfter) =>
      StartedSim(net, ears, w, segments, voice, class_, leavesAfter);
    case Advance(bad) =>
      StepIsListed(net, w);
      TickedSim(net, ears, w, bad);
    case Fail =>
      SameBatch(net, w, w.(active := map[]), []);
  }

  ghost function RunCalls<M(!new)>(net: Net<M>, ears: Ears, w: World<M>, cs: seq<Call>): (w': World<M>)
    requires Sane(net, w)
    ensures Sane(net, w')
    decreases |cs|
  {
    if cs == [] then w else Called(net, ears, RunCalls(net, ears, w, ButLast(cs)), Last(cs))
  }

  /** The run of the desk that a list of calls is. */
  ghost function EventsOf<M(!new)>(net: Net<M>, ears: Ears, w: World<M>, cs: seq<Call>): (es: seq<Desk.Event>)
    requires Sane(net, w)
    ensures |es| == |cs|
    decreases |cs|
  {
    if cs == [] then [] else [EventOf(net, w, cs[0])] + EventsOf(net, ears, Called(net, ears, w, cs[0]), cs[1..])
  }

  lemma {:induction false} RunCallsFirst<M(!new)>(net: Net<M>, ears: Ears, w: World<M>, cs: seq<Call>)
    requires Sane(net, w) && cs != []
    ensures RunCalls(net, ears, w, cs) == RunCalls(net, ears, Called(net, ears, w, cs[0]), cs[1..])
    decreases |cs|
  {
    hide Called, Sane;
    var c := cs[0];
    if |cs| == 1 {
      assert ButLast(cs) == [] && cs[1..] == [];
    } else {
      RunCallsFirst(net, ears, w, ButLast(cs));
      assert ButLast(cs)[1..] == ButLast(cs[1..]) && ButLast(cs)[0] == c && Last(cs) == Last(cs[1..]);
    }
  }

  /** Every run of the scheduler is a run of the desk. */
  lemma {:induction false} RunSim<M(!new)>(net: Net<M>, ears: Ears, w: World<M>, cs: seq<Call>)
    requires Sane(net, w) && Desk.DeskOk(VoiceOf(net, ears), DeskOf(net, w, []))
    ensures Desk.RunFits(VoiceOf(net, ears), DeskOf(net, w, []), EventsOf(net, ears, w, cs))
    ensures DeskOf(net, RunCalls(net, ears, w, cs), [])
         == Desk.Run(VoiceOf(net, ears), DeskOf(net, w, []), EventsOf(net, ears, w, cs))
    decreases |cs|
  {
    hide Called, Sane, DeskOf, Desk.DeskOk, Desk.Happened, EventOf, Desk.EventFits;
    if cs != [] {
      CalledSim(net, ears, w, cs[0]);
      RunCallsFirst(net, ears, w, cs);
      RunSim(net, ears, Called(net, ears, w, cs[0]), cs[1..]);
      var es := EventsOf(net, ears, w, cs);
      assert es[0] == EventOf(net, w, cs[0]) && es[1..] == EventsOf(net, ears, Called(net, ears, w, cs[0]), cs[1..]);
    }
  }

  function Silent<M>(): World<M> { World(Parity.Batch(0, []), map[], map[], 0) }

  lemma SilentSane<M(!new)>(net: Net<M>)
    requires NetValid(net)
    ensures Sane(net, Silent())
  {
  }

  lemma SilentSim<M(!new)>(net: Net<M>, ears: Ears)
    requires NetValid(net)
    ensures Sane(net, Silent()) && DeskOf(net, Silent(), []) == Desk.CLOSED
    ensures Desk.DeskOk(VoiceOf(net, ears), Desk.CLOSED)
    ensures Desk.Lockstep(Desk.CLOSED)
  {
    assert Sane(net, Silent());
    VoiceIsValid(net, ears);
    SameOwed(net, Silent(), [], map[]);
  }

  /** Safety of every run, whatever noise is drawn: whatever calls are made,
      whatever fails and whoever leaves, what a listener has is a beginning of
      its own script, each segment's frames as one stream of the run reads it
      alone, then its end mark, and nothing from a segment that cannot be
      prompted on. At temperature zero its text decides that script. */
  lemma EveryListener<M(!new)>(net: Net<M>, ears: Ears, cs: seq<Call>, job: Job)
    requires NetValid(net)
    requires Sane(net, Silent()) && job in RunCalls(net, ears, Silent(), cs).received
    ensures var v, w := VoiceOf(net, ears), RunCalls(net, ears, Silent(), cs);
      && Desk.Entitled(v, job, w.received[job], w.batch.nextId)
      && (NoiseFree(net) ==> IsPrefix(w.received[job], Desk.OneScript(v, job)))
  {
    SilentSim(net, ears);
    RunSim(net, ears, Silent(), cs);
    hide RunCalls, Desk.Run, EventsOf, Sane, IsPrefix, Desk.OneScript, OwedMap, NetValid, NoiseFree, VoiceOf,
      Desk.Entitled;
    var v, w := VoiceOf(net, ears), RunCalls(net, ears, Silent(), cs);
    var d := DeskOf(net, w, []);
    assert Desk.DeskOk(v, d) && d.received == w.received && d.nextId == w.batch.nextId;
    if NoiseFree(net) {
      VoiceIsFixed(net, ears);
      Desk.EntitledWhenFixed(v, job, w.received[job], w.batch.nextId);
    }
  }

  /** Nothing in the calls broke down. */
  predicate Smooth(cs: seq<Call>) {
    forall i :: 0 <= i < |cs| ==> cs[i] != Fail && (cs[i].Advance? ==> cs[i].bad == {})
  }

  function Steps(cs: seq<Call>): nat {
    if cs == [] then 0 else (if cs[0].Advance? then 1 else 0) + Steps(cs[1..])
  }

  lemma {:induction false} SameShape<M(!new)>(net: Net<M>, ears: Ears, w: World<M>, cs: seq<Call>)
    requires Sane(net, w)
    ensures var es := EventsOf(net, ears, w, cs);
      (Smooth(cs) ==> Desk.Smooth(es)) && Desk.Ticks(es) == Steps(cs)
    decreases |cs|
  {
    hide Sane, Called, StepBatch;
    if cs != [] {
      SameShape(net, ears, Called(net, ears, w, cs[0]), cs[1..]);
    }
  }

  /** The batch holds every stream being read, and no other as long as nothing
      breaks down. */
  lemma BatchMatchesReadings<M(!new)>(net: Net<M>, ears: Ears, cs: seq<Call>, id: nat)
    requires NetValid(net) && Sane(net, Silent())
    ensures var w := RunCalls(net, ears, Silent(), cs);
      (id in w.active ==> HasId(w.batch.live, id)) && (Smooth(cs) ==> (id in w.active <==> HasId(w.batch.live, id)))
  {
    SilentSim(net, ears);
    RunSim(net, ears, Silent(), cs);
    SameShape(net, ears, Silent(), cs);
    hide RunCalls, Desk.Run, EventsOf, Sane, OwedMap, Desk.Smooth;
    var v, w := VoiceOf(net, ears), RunCalls(net, ears, Silent(), cs);
    if id in w.active {
      OwedIsLive(net, w, id);
    }
    if Smooth(cs) {
      Desk.SmoothRunLockstep(v, Desk.CLOSED, EventsOf(net, ears, Silent(), cs));
      LockstepIds(net, v, w, id);
    }
  }

  /** No stream outstays its own limit, read or forgotten, in any run. */
  lemma StreamsLeave<M(!new)>(net: Net<M>, ears: Ears, before: seq<Call>, after: seq<Call>, i: nat)
    requires NetValid(net) && Sane(net, Silent()) && i < |RunCalls(net, ears, Silent(), before).batch.live|
    requires var s := RunCalls(net, ears, Silent(), before).batch.live[i].solo; Steps(after) >= s.p.maxGen - s.p.step
    ensures var w := RunCalls(net, ears, Silent(), before);
      !HasId(RunCalls(net, ears, w, after).batch.live, w.batch.live[i].id)
  {
    var v, w := VoiceOf(net, ears), RunCalls(net, ears, Silent(), before);
    SilentSim(net, ears);
    RunSim(net, ears, Silent(), before);
    OwesWhole(net, w, i);
    StayedOn(net, ears, w, after, w.batch.live[i].id);
  }

  lemma OwesWhole<M(!new)>(net: Net<M>, w: World<M>, i: nat)
    requires Sane(net, w) && i < |w.batch.live|
    ensures var l := w.batch.live[i];
      l.id < w.batch.nextId && |Owed(net, w.batch.live, l.id)| <= l.solo.p.maxGen - l.solo.p.step
  {
    OwedWhole(net, w.batch.live, i);
    AloneBounded(net, w.batch.live[i].solo);
  }

  lemma StayedOn<M(!new)>(net: Net<M>, ears: Ears, w: World<M>, cs: seq<Call>, id: nat)
    requires Sane(net, w) && Desk.DeskOk(VoiceOf(net, ears), DeskOf(net, w, [])) && id < w.batch.nextId
    ensures HasId(RunCalls(net, ears, w, cs).batch.live, id) ==> Steps(cs) < |Owed(net, w.batch.live, id)|
  {
    var v, w' := VoiceOf(net, ears), RunCalls(net, ears, w, cs);
    RunSim(net, ears, w, cs);
    SameShape(net, ears, w, cs);
    NoFrames(id);
    hide *;
    if HasId(w'.batch.live, id) {
      LiveIsOwed(net, w', id);
      DeskOwes(net, w, [], id);
      DeskOwes(net, w', [], id);
      Service.RunOwed(v, DeskOf(net, w, []), EventsOf(net, ears, w, cs), id);
    }
  }

  lemma LiveIsOwed<M(!new)>(net: Net<M>, w: World<M>, id: nat)
    requires Sane(net, w) && HasId(w.batch.live, id)
    ensures id in DeskOf(net, w, []).owed && DeskOf(net, w, []).owed[id] != []
  {
    var i :| 0 <= i < |w.batch.live| && w.batch.live[i].id == id;
    hide *;
    IsLive(net, w, i);
    DeskOwes(net, w, [], id);
  }

  lemma LockstepIds<M(!new)>(net: Net<M>, v: Desk.Voice, w: World<M>, id: nat)
    requires Sane(net, w) && Desk.DeskOk(v, DeskOf(net, w, [])) && Desk.Lockstep(DeskOf(net, w, []))
    ensures id in w.active <==> HasId(w.batch.live, id)
  {
    hide OwedMap, Owed;
    if i :| 0 <= i < |w.batch.live| && w.batch.live[i].id == id {
      IsLive(net, w, i);
    }
    if id in w.active {
      OwedIsLive(net, w, id);
    }
  }

  /** The call takes nothing from `job`: no step fails while it is read, and no
      frame of its stream is bad. */
  predicate Spares<M(!new)>(w: World<M>, c: Call, job: Job) {
    match c
    case Arrive(_, _, _, _) => true
    case Advance(bad) => forall id <- bad :: id in w.active ==> w.active[id].job != job
    case Fail => forall id <- w.active :: w.active[id].job != job
  }

  ghost predicate SparedIn<M(!new)>(net: Net<M>, ears: Ears, w: World<M>, cs: seq<Call>, job: Job)
    requires Sane(net, w)
    decreases |cs|
  {
    cs == [] || (Spares(w, cs[0], job) && SparedIn(net, ears, Called(net, ears, w, cs[0]), cs[1..], job))
  }

  lemma SparesSim<M(!new)>(net: Net<M>, w: World<M>, c: Call, job: Job)
    requires Sane(net, w)
    ensures Spares(w, c, job) <==> Service.Spares(DeskOf(net, w, []), EventOf(net, w, c), job)
  {
    hide Sane, OwedMap, StepBatch;
  }

  lemma {:induction false} SparedSim<M(!new)>(net: Net<M>, ears: Ears, w: World<M>, cs: seq<Call>, job: Job)
    requires Sane(net, w) && Desk.DeskOk(VoiceOf(net, ears), DeskOf(net, w, []))
    requires Desk.RunFits(VoiceOf(net, ears), DeskOf(net, w, []), EventsOf(net, ears, w, cs))
    ensures SparedIn(net, ears, w, cs, job)
      <==> Service.SparedIn(VoiceOf(net, ears), DeskOf(net, w, []), EventsOf(net, ears, w, cs), job)
    decreases |cs|
  {
    hide Called, Sane, DeskOf, Desk.DeskOk, Desk.Happened, EventOf, Desk.EventFits, Spares, Service.Spares;
    if cs != [] {
      CalledSim(net, ears, w, cs[0]);
      SparesSim(net, w, cs[0], job);
      RunSim(net, ears, Called(net, ears, w, cs[0]), cs[1..]);
      SparedSim(net, ears, Called(net, ears, w, cs[0]), cs[1..], job);
      var es := EventsOf(net, ears, w, cs);
      assert es[0] == EventOf(net, w, cs[0]) && es[1..] == EventsOf(net, ears, Called(net, ears, w, cs[0]), cs[1..]);
    }
  }

  /** Liveness, whatever happened before: a listener that arrives at any moment
      and is spared is served within three times fifteen steps plus the length
      its words allow, summed over its segments, whatever befalls the others. One
      that stays then has every segment up to the first that cannot be prompted if
      and only if it was spared. */
  lemma ServedInTime<M(!new)>(net: Net<M>, ears: Ears, before: seq<Call>, c: Call, after: seq<Call>)
    requires NetValid(net) && Sane(net, Silent()) && c.Arrive?
    requires var job := JobOf(RunCalls(net, ears, Silent(), before), c);
      Steps(after) >= Rest(Service.Limits(VoiceOf(net, ears), job), 0)
    ensures var v, w := VoiceOf(net, ears), RunCalls(net, ears, Silent(), before);
      var job, w1 := JobOf(w, c), Called(net, ears, w, c);
      var w' := RunCalls(net, ears, w1, after);
      && job in w'.received
      && (SparedIn(net, ears, w1, after, job) ==> Service.Served(v, job, w'.received[job], w'.batch.nextId))
      && (c.leavesAfter.None? ==>
            StaysServed(net, v, job, w'.received[job], w'.batch.nextId, SparedIn(net, ears, w1, after, job)))
  {
    var v, w := VoiceOf(net, ears), RunCalls(net, ears, Silent(), before);
    var job, w1 := JobOf(w, c), Called(net, ears, w, c);
    SilentSim(net, ears);
    RunSim(net, ears, Silent(), before);
    CalledSim(net, ears, w, c);
    RunSim(net, ears, w1, after);
    SparedSim(net, ears, w1, after, job);
    SameShape(net, ears, w1, after);
    JobIs(net, w, c);
    hide *;
    var d, es := DeskOf(net, w, []), EventsOf(net, ears, w1, after);
    DeskIs(net, RunCalls(net, ears, w1, after));
    Service.ListenerServed(v, d, EventOf(net, w, c), es);
    if c.leavesAfter.None? {
      var w' := RunCalls(net, ears, w1, after);
      ServedStays(net, ears, job, w'.received[job], w'.batch.nextId, SparedIn(net, ears, w1, after, job));
    }
  }

  function JobOf<M(!new)>(w: World<M>, c: Call): Job
    requires c.Arrive?
  {
    Job(w.nextJob, c.segments, c.voice, c.class_, c.leavesAfter)
  }

  lemma JobIs<M(!new)>(net: Net<M>, w: World<M>, c: Call)
    requires Sane(net, w) && c.Arrive?
    ensures var e := EventOf(net, w, c);
      e.Start? && Service.JobOf(DeskOf(net, w, []), e) == JobOf(w, c) && e.leavesAfter == c.leavesAfter
    ensures JobOf(w, c).leavesAfter == c.leavesAfter
  {
    hide OwedMap, Sane;
  }

  lemma DeskIs<M(!new)>(net: Net<M>, w: World<M>)
    requires Sane(net, w)
    ensures DeskOf(net, w, []).received == w.received && DeskOf(net, w, []).nextId == w.batch.nextId
  {
    hide OwedMap, Sane;
  }

  /** One whole attempt at each segment up to the first that cannot be prompted,
      if and only if it was spared; the whole text if and only if there is no such
      segment, too. At temperature zero that is the one script its text decides. */
  ghost predicate StaysServed<M(!new)>(net: Net<M>, v: Desk.Voice, job: Job, got: seq<Piece>, below: nat,
      spared: bool) {
    && (Desk.HasAllSpoken(v, job, got, below) <==> spared)
    && (Desk.Whole(v, job, got, below) <==> spared && Desk.PromptsTo(v, job, |job.segments|))
    && (NoiseFree(net) ==> (got == Desk.OneScript(v, job) <==> spared))
  }

  lemma ServedStays<M(!new)>(net: Net<M>, ears: Ears, job: Job, got: seq<Piece>, below: nat, spared: bool)
    requires NetValid(net) && (Desk.HasAllSpoken(VoiceOf(net, ears), job, got, below) <==> spared)
    requires !spared ==> Desk.Ends(got) < Desk.Sayable(VoiceOf(net, ears), job)
    ensures StaysServed(net, VoiceOf(net, ears), job, got, below, spared)
  {
    var v := VoiceOf(net, ears);
    Desk.OneScriptEnds(v, job);
    Desk.SpokenEnds(v, job, got, below);
    hide Desk.Whole, Desk.HasAllSpoken, Desk.PromptsTo, Desk.OneScript, NoiseFree, VoiceOf, NetValid, Desk.Fixed,
      Desk.Ends, Desk.Sayable;
    if spared {
      Desk.WholeIffPrompts(v, job, got, below);
      if NoiseFree(net) {
        VoiceIsFixed(net, ears);
        Desk.SpokenWhenFixed(v, job, got, below);
      }
    }
  }

  // ----- one listener of a run

  lemma {:induction false} RunCallsConcat<M(!new)>(net: Net<M>, ears: Ears, w: World<M>, a: seq<Call>, b: seq<Call>)
    requires Sane(net, w)
    ensures RunCalls(net, ears, w, a + b) == RunCalls(net, ears, RunCalls(net, ears, w, a), b)
    decreases |b|
  {
    hide Called, Sane;
    if b == [] {
      assert a + b == a;
    } else {
      assert ButLast(a + b) == a + ButLast(b) && Last(a + b) == Last(b);
      RunCallsConcat(net, ears, w, a, ButLast(b));
    }
  }

  function Arrivals(cs: seq<Call>): nat {
    if cs == [] then 0 else Arrivals(ButLast(cs)) + if Last(cs).Arrive? then 1 else 0
  }

  lemma CalledJobs<M(!new)>(net: Net<M>, ears: Ears, w: World<M>, c: Call)
    requires Sane(net, w) && Desk.DeskOk(VoiceOf(net, ears), DeskOf(net, w, []))
    ensures Called(net, ears, w, c).nextJob == w.nextJob + if c.Arrive? then 1 else 0
  {
    var v, d, e := VoiceOf(net, ears), DeskOf(net, w, []), EventOf(net, w, c);
    CalledSim(net, ears, w, c);
    JobCount(net, w);
    JobCount(net, Called(net, ears, w, c));
    EventShape(net, w, c);
    hide *;
    Service.HappenedNextJob(v, d, e);
  }

  lemma JobCount<M(!new)>(net: Net<M>, w: World<M>)
    requires Sane(net, w)
    ensures DeskOf(net, w, []).nextJob == w.nextJob
  {
  }

  lemma EventShape<M(!new)>(net: Net<M>, w: World<M>, c: Call)
    requires Sane(net, w)
    ensures EventOf(net, w, c).Start? <==> c.Arrive?
  {
  }

  /** Jobs are numbered as they arrive. */
  lemma {:induction false} ArrivalsAre<M(!new)>(net: Net<M>, ears: Ears, cs: seq<Call>)
    requires NetValid(net) && Sane(net, Silent())
    ensures RunCalls(net, ears, Silent(), cs).nextJob == Arrivals(cs)
  {
    if cs != [] {
      ArrivalsAre(net, ears, ButLast(cs));
      SilentSim(net, ears);
      RunSim(net, ears, Silent(), ButLast(cs));
      hide Called, Sane, DeskOf, Desk.DeskOk, VoiceOf, EventsOf, Desk.Run;
      CalledJobs(net, ears, RunCalls(net, ears, Silent(), ButLast(cs)), Last(cs));
    }
  }

  function JobAfter(before: seq<Call>, c: Call): Job
    requires c.Arrive?
  {
    Job(Arrivals(before), c.segments, c.voice, c.class_, c.leavesAfter)
  }

  /** Enough steps for the job `c` starts. */
  ghost predicate Enough<M(!new)>(net: Net<M>, ears: Ears, before: seq<Call>, c: Call, after: seq<Call>)
    requires NetValid(net) && c.Arrive?
  {
    Steps(after) >= Rest(Service.Limits(VoiceOf(net, ears), JobAfter(before, c)), 0)
  }

  /** Nothing befell the reading of that job. */
  ghost predicate Spared<M(!new)>(net: Net<M>, ears: Ears, before: seq<Call>, c: Call, after: seq<Call>)
    requires NetValid(net) && c.Arrive?
  {
    SilentSane(net);
    SparedIn(net, ears, RunCalls(net, ears, Silent(), before + [c]), after, JobAfter(before, c))
  }

  /** How many streams the batch has been given. */
  ghost function StreamsGiven<M(!new)>(net: Net<M>, ears: Ears, before: seq<Call>, c: Call, after: seq<Call>): nat
    requires NetValid(net)
  {
    SilentSane(net);
    RunCalls(net, ears, Silent(), before + [c] + after).batch.nextId
  }

  /** What the calls told that job. */
  lemma SparedGets<M(!new)>(net: Net<M>, ears: Ears, before: seq<Call>, c: Call, after: seq<Call>)
    requires NetValid(net) && c.Arrive? && c.leavesAfter.None? && Enough(net, ears, before, c, after)
    ensures Sane(net, Silent())
    ensures var w', job := RunCalls(net, ears, Silent(), before + [c] + after), JobAfter(before, c);
      && job in w'.received
      && var given := StreamsGiven(net, ears, before, c, after);
         Desk.HasAllSpoken(VoiceOf(net, ears), job, w'.received[job], given) <==> Spared(net, ears, before, c, after)
  {
    SilentSane(net);
    var w := RunCalls(net, ears, Silent(), before);
    var w1 := Called(net, ears, w, c);
    ArrivalsAre(net, ears, before);
    assert JobOf(w, c) == JobAfter(before, c);
    RunCallsConcat(net, ears, Silent(), before, [c]);
    RunCallsConcat(net, ears, Silent(), before + [c], after);
    assert ButLast([c]) == [] && RunCalls(net, ears, w, [c]) == w1 by { RunNoCalls(net, ears, w); }
    hide RunCalls, Called, Sane, SparedIn, VoiceOf, Service.Limits, Rest;
    ServedInTime(net, ears, before, c, after);
  }

  lemma RunCallsLast<M(!new)>(net: Net<M>, ears: Ears, w: World<M>, cs: seq<Call>, i: nat)
    requires Sane(net, w) && i < |cs|
    ensures RunCalls(net, ears, w, cs[..i + 1]) == Called(net, ears, RunCalls(net, ears, w, cs[..i]), cs[i])
  {
    hide Called, Sane;
    assert ButLast(cs[..i + 1]) == cs[..i];
  }

  lemma RunNoCalls<M(!new)>(net: Net<M>, ears: Ears, w: World<M>)
    requires Sane(net, w)
    ensures RunCalls(net, ears, w, []) == w
  {
  }

  method OneCall<M(!new)>(engine: Engine<M>, c: Call, masked: bool)
    requires engine.Valid()
    modifies engine, engine.batcher, engine.batcher.caches
    ensures engine.Valid() && Sane(engine.Net(), old(engine.View()))
    ensures engine.View() == Called(engine.Net(), engine.ears, old(engine.View()), c)
    ensures forall k <- engine.batcher.caches :: k in old(engine.batcher.caches) || fresh(k)
  {
    hide Batcher.Aligned, Batcher.View, Batcher.Valid, Started, Ticked, Sane;
    match c
    case Arrive(segments, voice, class_, leavesAfter) => engine.Start(segments, voice, class_, leavesAfter);
    case Advance(bad) => engine.Tick(masked, bad);
    case Fail => engine.StepFailed();
  }

  /** The scheduler's methods, driven through any list of calls, are that run. */
  method Drive<M(!new)>(net: Net<M>, ears: Ears, cs: seq<Call>, masked: bool) returns (received: map<Job, seq<Piece>>)
    requires NetValid(net)
    ensures Sane(net, Silent()) && received == RunCalls(net, ears, Silent(), cs).received
  {
    SilentSane(net);
    RunNoCalls(net, ears, Silent());
    hide Batcher.Aligned, Batcher.View, Batcher.Valid, Started, Ticked, Sane, RunCalls, Called, Engine.Valid,
      Engine.View;
    var engine := new Engine(net, ears);
    assert cs[..0] == [];
    for i := 0 to |cs|
      invariant fresh(engine) && fresh(engine.batcher) && fresh(engine.batcher.caches)
      invariant engine.Valid() && engine.Net() == net && engine.ears == ears
      invariant engine.View() == RunCalls(net, ears, Silent(), cs[..i])
    {
      RunCallsLast(net, ears, Silent(), cs, i);
      OneCall(engine, cs[i], masked);
      assert forall j :: 0 <= j < |engine.batcher.caches| ==> engine.batcher.caches[j] in engine.batcher.caches;
    }
    assert cs[..|cs|] == cs;
    ViewReceived(engine);
    received := engine.received;
  }

  lemma ViewReceived<M(!new)>(engine: Engine<M>)
    requires engine.batcher.Aligned()
    ensures engine.View().received == engine.received
  {
  }
}
