/** The scheduler's loop: readings come and go, every step gives each active
    stream one frame, and each frame is delivered, held back or read again. */
module Scheduler {
  import opened Prelude
  import opened Softmax
  import opened FlowLm
  import opened Reading
  import Batching
  import Parity

  /** The batch, the reading of each stream, and what each listener has. */
  datatype World<M> = World(
    batch: Parity.Batch<M>,
    active: map<nat, Active>,
    received: map<Job, seq<Piece>>,
    nextJob: nat)

  ghost predicate Sane<M(!new)>(net: Net<M>, w: World<M>)
    ensures Sane(net, w) ==> Parity.BatchValid(net, w.batch)
    ensures Sane(net, w) ==> forall id <- w.active :: w.active[id].job in w.received
  {
    && Parity.BatchValid(net, w.batch)
    && (forall id <- w.active :: id < w.batch.nextId && w.active[id].job in w.received)
    && (forall id <- w.active :: w.active[id].segment < |w.active[id].job.segments|)
    && (forall job <- w.received :: job.id < w.nextJob)
  }

  /** A stream for the segment `a` is at, if its text can be prompted. */
  ghost function Streamed<M(!new)>(net: Net<M>, w: World<M>, a: Active): (w': World<M>)
    requires Sane(net, w) && a.job in w.received && a.segment < |a.job.segments|
    ensures Sane(net, w') && w'.received == w.received && w'.nextJob == w.nextJob
  {
    var u := Utterance(a.job.segments[a.segment], a.job.voice);
    if net.prompt(u).None? then w else
    w.(batch := Parity.Perform(net, w.batch, Parity.Add(u)).0, active := w.active[w.batch.nextId := a])
  }

  ghost function Dropped<M(!new)>(net: Net<M>, w: World<M>, f: Frame): (w': World<M>)
    requires Sane(net, w)
    ensures Sane(net, w') && w'.(batch := w.batch) == w && w'.batch.nextId == w.batch.nextId
  {
    if f.done then w else w.(batch := Parity.Perform(net, w.batch, Parity.Remove(f.id)).0)
  }

  /** Where a reading goes after its frame; it is in no stream meanwhile. */
  ghost function Settled<M(!new)>(net: Net<M>, w: World<M>, f: Frame, outcome: Outcome): (w': World<M>)
    requires Sane(net, w) && f.id < w.batch.nextId && OutcomeFits(w, outcome)
    ensures Sane(net, w')
  {
    match outcome
    case Kept(b) => w.(active := w.active[f.id := b])
    case Again(b) => Streamed(net, Dropped(net, w, f), b)
    case Next(b) => Streamed(net, w, b)
    case Over => w
    case Left => Dropped(net, w, f)
  }

  ghost predicate OutcomeFits<M(!new)>(w: World<M>, outcome: Outcome) {
    outcome.Kept? || outcome.Again? || outcome.Next? ==>
      outcome.a.job in w.received && outcome.a.segment < |outcome.a.job.segments|
  }

  /** The reading of stream `id` with its listener told, out of the map. */
  ghost function TakenOut<M(!new)>(w: World<M>, id: nat, sent: seq<Piece>): World<M>
    requires id in w.active
  {
    w.(active := w.active - {id}, received := w.received[w.active[id].job := sent])
  }

  /** What one frame does. A frame that cannot be read ends its reading and
      leaves the stream in the batch. */
  ghost function Handled<M(!new)>(net: Net<M>, ears: Ears, w: World<M>, f: Frame, bad: bool): (w': World<M>)
    requires Sane(net, w)
    ensures Sane(net, w')
  {
    if f.id !in w.active then w else
    var a := w.active[f.id];
    if bad then TakenOut(w, f.id, w.received[a.job]) else
    var (outcome, sent) := OnFrame(a, w.received[a.job], HeardOf(ears, f.audio, f.done));
    OutcomeSegment(a, w.received[a.job], HeardOf(ears, f.audio, f.done));
    Settled(net, TakenOut(w, f.id, sent), f, outcome)
  }

  ghost function HandledAll<M(!new)>(net: Net<M>, ears: Ears, w: World<M>, fs: seq<Frame>,
      bad: set<nat>): (w': World<M>)
    requires Sane(net, w)
    ensures Sane(net, w')
    decreases |fs|
  {
    if fs == [] then w else
    Handled(net, ears, HandledAll(net, ears, w, ButLast(fs), bad), Last(fs), Last(fs).id in bad)
  }

  /** A step and all its frames. */
  ghost function Ticked<M(!new)>(net: Net<M>, ears: Ears, w: World<M>, bad: set<nat>): (w': World<M>)
    requires Sane(net, w)
    ensures Sane(net, w')
  {
    var (batch, frames) := Parity.StepBatch(net, w.batch);
    HandledAll(net, ears, w.(batch := batch), frames, bad)
  }

  /** A job leaves its queue. */
  ghost function Started<M(!new)>(net: Net<M>, w: World<M>, segments: seq<string>, voice: nat, class_: Class,
    leavesAfter: Option<nat>): (w': World<M>)
    requires Sane(net, w)
    ensures Sane(net, w')
  {
    var job := Job(w.nextJob, segments, voice, class_, leavesAfter);
    var known := w.(received := w.received[job := []], nextJob := w.nextJob + 1);
    if segments == [] then known else Streamed(net, known, Fresh(job))
  }

  // ----- the loop itself

  class Engine<M(!new)> {
    const ears: Ears
    const batcher: Batching.Batcher<M>
    var active: map<nat, Active>
    var received: map<Job, seq<Piece>>
    var nextJob: nat

    ghost function Net(): Net<M> { batcher.net }

    ghost function View(): World<M>
      requires batcher.Aligned()
      reads this, batcher, batcher.caches
    {
      World(Parity.Batch(batcher.nextId, batcher.View()), active, received, nextJob)
    }

    ghost predicate Valid()
      reads this, batcher, batcher.caches
      ensures Valid() ==> batcher.Aligned() && Sane(Net(), View())
    {
      batcher.Valid() && Sane(Net(), View())
    }

    constructor (net: Net<M>, ears: Ears)
      requires NetValid(net)
      ensures Valid() && Net() == net && this.ears == ears && View() == World(Parity.Batch(0, []), map[], map[], 0)
      ensures fresh(batcher) && fresh(batcher.caches)
    {
      this.ears := ears;
      batcher := new Batching.Batcher(net);
      active, received, nextJob := map[], map[], 0;
    }

    method Stream(a: Active)
      requires Valid() && a.job in received && a.segment < |a.job.segments|
      modifies this`active, batcher, batcher.caches
      ensures Valid() && View() == Streamed(Net(), old(View()), a)
      ensures forall c <- batcher.caches :: c in old(batcher.caches) || fresh(c)
    {
      hide Batching.Batcher.Aligned, Batching.Batcher.View;
      var id := batcher.Add(Utterance(a.job.segments[a.segment], a.job.voice));
      if id.Some? {
        active := active[id.value := a];
      }
    }

    method Drop(f: Frame)
      requires Valid()
      modifies batcher, batcher.caches
      ensures forall c <- batcher.caches :: c in old(batcher.caches) || fresh(c)
      ensures Valid() && View() == Dropped(Net(), old(View()), f)
    {
      hide Batching.Batcher.Aligned, Batching.Batcher.View, Batching.Batcher.Valid, Parity.Perform, Parity.BatchValid;
      if !f.done {
        var _ := Parity.Call(batcher, Parity.Remove(f.id), true);
        assert View() == Dropped(Net(), old(View()), f);
      }
    }

    method Settle(f: Frame, outcome: Outcome)
      requires Valid() && f.id < batcher.nextId && OutcomeFits(View(), outcome)
      modifies this`active, batcher, batcher.caches
      ensures Valid() && View() == Settled(Net(), old(View()), f, outcome)
      ensures forall c <- batcher.caches :: c in old(batcher.caches) || fresh(c)
    {
      hide Batching.Batcher.Aligned, Batching.Batcher.View, Batching.Batcher.Valid, Streamed, Dropped;
      match outcome
      case Kept(b) =>
        active := active[f.id := b];
      case Again(b) =>
        Drop(f);
        assert forall j :: 0 <= j < |batcher.caches| ==> batcher.caches[j] in batcher.caches;
        Stream(b);
      case Next(b) =>
        Stream(b);
      case Over =>
      case Left =>
        Drop(f);
    }

    method HandleFrame(f: Frame, bad: bool)
      requires Valid()
      modifies this`active, this`received, batcher, batcher.caches
      ensures Valid() && View() == Handled(Net(), ears, old(View()), f, bad)
      ensures forall c <- batcher.caches :: c in old(batcher.caches) || fresh(c)
    {
      hide Batching.Batcher.Aligned, Batching.Batcher.View, Batching.Batcher.Valid, Settled, OnFrame;
      if f.id !in active {
        return;
      }
      var a := active[f.id];
      active := active - {f.id};
      if bad {
        assert received == received[a.job := received[a.job]];
        return;
      }
      var outcome, sent := Hear(a, received[a.job], HeardOf(ears, f.audio, f.done));
      OutcomeSegment(a, received[a.job], HeardOf(ears, f.audio, f.done));
      received := received[a.job := sent];
      Settle(f, outcome);
    }

    method HandleFrames(frames: seq<Frame>, bad: set<nat>)
      requires Valid()
      modifies this`active, this`received, batcher, batcher.caches
      ensures Valid() && View() == HandledAll(Net(), ears, old(View()), frames, bad)
      ensures forall c <- batcher.caches :: c in old(batcher.caches) || fresh(c)
    {
      hide Batching.Batcher.Aligned, Batching.Batcher.View, Batching.Batcher.Valid, Handled, View, Sane;
      ghost var w := View();
      for i := 0 to |frames|
        invariant Valid() && forall c <- batcher.caches :: c in old(batcher.caches) || fresh(c)
        invariant View() == HandledAll(Net(), ears, w, frames[..i], bad)
      {
        assert ButLast(frames[..i + 1]) == frames[..i];
        assert forall j :: 0 <= j < |batcher.caches| ==> batcher.caches[j] in batcher.caches;
        HandleFrame(frames[i], frames[i].id in bad);
      }
      assert frames[..|frames|] == frames;
    }

    /** One pass of the loop after admission. */
    method Tick(masked: bool, bad: set<nat>)
      requires Valid()
      modifies this`active, this`received, batcher, batcher.caches
      ensures Valid() && View() == Ticked(Net(), ears, old(View()), bad)
      ensures forall c <- batcher.caches :: c in old(batcher.caches) || fresh(c)
    {
      hide Batching.Batcher.Aligned, Batching.Batcher.View, Batching.Batcher.Valid, HandledAll, View, Sane;
      var frames := StepBatcher(masked);
      assert forall j :: 0 <= j < |batcher.caches| ==> batcher.caches[j] in batcher.caches;
      HandleFrames(frames, bad);
    }

    method StepBatcher(masked: bool) returns (frames: seq<Frame>)
      requires Valid()
      modifies batcher, batcher.caches
      ensures forall c <- batcher.caches :: c in old(batcher.caches) || fresh(c)
      ensures Valid() && (View().batch, frames) == Parity.StepBatch(Net(), old(View()).batch)
      ensures View() == old(View()).(batch := View().batch)
    {
      hide Batching.Batcher.Aligned, Batching.Batcher.View, Batching.Batcher.Valid, Parity.StepBatch, Parity.BatchValid;
      frames := Parity.Call(batcher, Parity.Step, masked);
      assert View() == old(View()).(batch := Parity.Perform(Net(), old(View()).batch, Parity.Step).0);
    }

    /** A step that fails forgets every reading; the batch keeps its streams. */
    method StepFailed()
      requires Valid()
      modifies this`active
      ensures Valid() && View() == old(View()).(active := map[])
    {
      active := map[];
    }

    method Start(segments: seq<string>, voice: nat, class_: Class, leavesAfter: Option<nat>)
      requires Valid()
      modifies this, batcher, batcher.caches
      ensures Valid() && View() == Started(Net(), old(View()), segments, voice, class_, leavesAfter)
      ensures forall c <- batcher.caches :: c in old(batcher.caches) || fresh(c)
    {
      hide Batching.Batcher.Aligned, Batching.Batcher.View;
      var job := Job(nextJob, segments, voice, class_, leavesAfter);
      received, nextJob := received[job := []], nextJob + 1;
      if segments != [] {
        Stream(Fresh(job));
      }
    }
  }

  lemma OutcomeSegment(a: Active, sent: seq<Piece>, f: Heard)
    requires a.segment < |a.job.segments|
    ensures var outcome := OnFrame(a, sent, f).0;
      outcome.Kept? || outcome.Again? || outcome.Next? ==>
        outcome.a.job == a.job && outcome.a.segment < |a.job.segments|
  {
  }
}
