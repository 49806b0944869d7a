/** What becomes of every listener of the desk: how long its reading can take,
    and exactly when it is read all there is. */
module Service {
  import opened Prelude
  import opened Softmax
  import opened Reading
  import opened Desk

  // ----- the next frame

  /** The frame a stream owes next is the next of its reading, and nothing that
      is sent with it is out of place. */
  lemma NextRead(v: Voice, d: Desk, id: nat)
    requires DeskOk(v, d) && id in d.active
    ensures DeskShape(d) && d.owed[id] != [] && VoiceValid(v)
    ensures Reads(v, d.active[id], d.received[d.active[id].job], id, [d.owed[id][0]] + d.owed[id][1..])
    ensures var (outcome, sent) := OutcomeOf(v, d, id); Entitled(v, d.active[id].job, sent, d.nextId)
  {
    OneRead(v, d, id);
    hide Reads, OnFrame, Entitled, DeskOk;
    FrameEntitled(v, d.active[id], d.received[d.active[id].job], id, d.owed[id][0], d.owed[id][1..], d.nextId);
  }

  lemma OneRead(v: Voice, d: Desk, id: nat)
    requires DeskOk(v, d) && id in d.active
    ensures DeskShape(d) && d.owed[id] != [] && VoiceValid(v)
    ensures Reads(v, d.active[id], d.received[d.active[id].job], id, [d.owed[id][0]] + d.owed[id][1..])
  {
    hide Reads, Entitled, OnFrame;
    assert ReadsOn(v, d, id);
    assert d.owed[id] == [d.owed[id][0]] + d.owed[id][1..];
  }

  // ----- how long a listener waits

  function Limits(v: Voice, job: Job): (limits: seq<nat>)
    ensures |limits| == |job.segments| && forall k :: 0 <= k < |limits| ==> limits[k] == v.limit(SegmentOf(job, k))
  {
    seq<nat>(|job.segments|, k requires 0 <= k < |job.segments| => v.limit(SegmentOf(job, k)))
  }

  /** Frames a reading can still take, false starts included. */
  function FramesLeft(v: Voice, a: Active): int
    requires a.segment < |a.job.segments|
  {
    Potential(a, Limits(v, a.job))
  }

  /** The reading `a` was at `was` at least `n` frames earlier, or its job had
      not come. */
  ghost predicate CameFrom(v: Voice, was: Desk, a: Active, n: nat)
    requires a.segment < |a.job.segments| && DeskShape(was)
  {
    || a.job.id >= was.nextJob
    || exists i <- was.active :: was.active[i].job == a.job && FramesLeft(v, a) + n <= FramesLeft(v, was.active[i])
  }

  lemma FrameIsNearer(v: Voice, a: Active, sent: seq<Piece>, id: nat, audio: Vec, later: seq<Vec>)
    requires VoiceValid(v) && Reads(v, a, sent, id, [audio] + later)
    ensures FramesLeft(v, a) >= 1
    ensures var outcome := OnFrame(a, sent, HeardOf(v.ears, audio, later == [])).0;
      Onward(outcome) ==>
        && outcome.a.job == a.job && outcome.a.segment < |a.job.segments|
        && FramesLeft(v, outcome.a) <= FramesLeft(v, a) - 1
  {
    var ids :| ReadsAfter(v, a, sent, id, [audio] + later, ids);
    assert v.prompts(TextOf(a)) && v.draw(id, TextOf(a)) != [];
    PotentialFalls(a, sent, HistoryAt(v, a.job, ids, id, a.framesSeen), HeardOf(v.ears, audio, later == []),
      Limits(v, a.job));
  }

  lemma SettledNearer(v: Voice, d: Desk, id: nat, outcome: Outcome, j: nat)
    requires Onward(outcome) ==> outcome.a.segment < |outcome.a.job.segments|
    requires j in Settled(v, d, id, outcome).active
    ensures var a := Settled(v, d, id, outcome).active[j];
      (j in d.active && a == d.active[j]) || (Onward(outcome) && a == outcome.a)
  {
  }

  lemma SettledJobs(v: Voice, d: Desk, id: nat, outcome: Outcome)
    requires Onward(outcome) ==> outcome.a.segment < |outcome.a.job.segments|
    ensures Settled(v, d, id, outcome).nextJob == d.nextJob
  {
  }

  lemma HandledJobs(v: Voice, d: Desk, id: nat, bad: bool)
    requires DeskShape(d) && id in d.owed
    ensures Handled(v, d, id, bad).nextJob == d.nextJob
  {
    hide OutcomeOf, Settled;
    if id in d.active && !bad {
      var (outcome, sent) := OutcomeOf(v, d, id);
      SettledJobs(v, TakenOut(Paid(d, id), id, sent), id, outcome);
    }
  }

  lemma OutcomeNearer(v: Voice, d: Desk, id: nat)
    requires DeskOk(v, d) && id in d.active
    ensures FramesLeft(v, d.active[id]) >= 1
    ensures var outcome := OutcomeOf(v, d, id).0;
      Onward(outcome) ==> CameFrom(v, d, outcome.a, 1)
  {
    NextRead(v, d, id);
    hide Reads, OnFrame, FramesLeft, DeskOk, Entitled;
    var a := d.active[id];
    FrameIsNearer(v, a, d.received[a.job], id, d.owed[id][0], d.owed[id][1..]);
  }

  /** Every reading after one frame was there before it, one frame further from
      its end if the frame was its own. */
  lemma HandledNearer(v: Voice, d: Desk, id: nat, bad: bool, j: nat)
    requires DeskOk(v, d) && id in d.owed && j in Handled(v, d, id, bad).active
    ensures DeskShape(Handled(v, d, id, bad))
    ensures var a := Handled(v, d, id, bad).active[j];
      (j in d.active && j != id && a == d.active[j]) || CameFrom(v, d, a, 1)
  {
    HandledKeeps(v, d, id, bad);
    hide Settled, OutcomeOf, CameFrom;
    if id in d.active && !bad {
      OutcomeNearer(v, d, id);
      var (outcome, sent) := OutcomeOf(v, d, id);
      SettledNearer(v, TakenOut(Paid(d, id), id, sent), id, outcome, j);
    }
  }

  /** In a step every stream has its turn. */
  lemma {:induction false} StepNearer(v: Voice, d: Desk, order: seq<nat>, bad: set<nat>, j: nat)
    requires DeskOk(v, d) && Listed(d, order) && j in HandledAll(v, d, order, bad).active
    ensures var a := HandledAll(v, d, order, bad).active[j];
      (j in d.active && j !in order && a == d.active[j]) || CameFrom(v, d, a, 1)
    decreases |order|
  {
    if order != [] {
      StepLast(v, d, order, bad);
      hide Handled, HandledAll, CameFrom, DeskOk, FramesLeft, Listed, DeskShape;
      var d1 := HandledAll(v, d, ButLast(order), bad);
      var id := Last(order);
      var a := HandledAll(v, d, order, bad).active[j];
      HandledNearer(v, d1, id, id in bad, j);
      StepJobs(v, d, ButLast(order), bad);
      if j in d1.active && j != id && a == d1.active[j] {
        StepNearer(v, d, ButLast(order), bad, j);
      } else if a.job.id < d1.nextJob {
        var i := Origin(v, d1, a, 1);
        StepNearer(v, d, ButLast(order), bad, i);
        StepCameFrom(v, d, d1, a, i);
      } else {
        NewJob(v, d, a, 1);
      }
    }
  }

  lemma {:induction false} StepJobs(v: Voice, d: Desk, order: seq<nat>, bad: set<nat>)
    requires DeskOk(v, d) && Listed(d, order)
    ensures HandledAll(v, d, order, bad).nextJob == d.nextJob
    ensures HandledAll(v, d, order, bad).received.Keys == d.received.Keys
    decreases |order|
  {
    if order != [] {
      StepLast(v, d, order, bad);
      hide Handled, HandledAll, DeskOk, Listed, DeskShape;
      var d1 := HandledAll(v, d, ButLast(order), bad);
      StepJobs(v, d, ButLast(order), bad);
      HandledJobs(v, d1, Last(order), Last(order) in bad);
      HandledReceived(v, d1, Last(order), Last(order) in bad);
    }
  }

  ghost function Origin(v: Voice, was: Desk, a: Active, n: nat): (i: nat)
    requires a.segment < |a.job.segments| && DeskShape(was) && CameFrom(v, was, a, n) && a.job.id < was.nextJob
    ensures i in was.active && was.active[i].job == a.job && FramesLeft(v, a) + n <= FramesLeft(v, was.active[i])
  {
    var i :| i in was.active && was.active[i].job == a.job && FramesLeft(v, a) + n <= FramesLeft(v, was.active[i]);
    i
  }

  lemma NewJob(v: Voice, d: Desk, a: Active, n: nat)
    requires a.segment < |a.job.segments| && DeskShape(d) && a.job.id >= d.nextJob
    ensures CameFrom(v, d, a, n)
  {
  }

  lemma StepCameFrom(v: Voice, d: Desk, d1: Desk, a: Active, i: nat)
    requires DeskShape(d) && DeskShape(d1) && a.segment < |a.job.segments|
    requires i in d1.active && d1.active[i].job == a.job && FramesLeft(v, a) + 1 <= FramesLeft(v, d1.active[i])
    requires (i in d.active && d1.active[i] == d.active[i]) || CameFrom(v, d, d1.active[i], 1)
    ensures CameFrom(v, d, a, 1)
  {
  }

  lemma CameFromOn(v: Voice, d: Desk, d1: Desk, a: Active, i: nat, n: nat, m: nat)
    requires DeskShape(d) && DeskShape(d1) && a.segment < |a.job.segments|
    requires i in d1.active && d1.active[i].job == a.job && FramesLeft(v, a) + n <= FramesLeft(v, d1.active[i])
    requires (i in d.active && d1.active[i] == d.active[i] && m == 0) || CameFrom(v, d, d1.active[i], m)
    ensures CameFrom(v, d, a, n + m)
  {
  }

  lemma HappenedJobs(v: Voice, d: Desk, e: Event)
    requires DeskOk(v, d) && EventFits(d, e)
    ensures d.nextJob <= Happened(v, d, e).nextJob
    ensures forall job <- d.received :: job in Happened(v, d, e).received
  {
    hide HandledAll, DeskOk;
    if e.Tick? {
      StepJobs(v, d, e.order, e.bad);
    }
  }

  lemma HappenedNextJob(v: Voice, d: Desk, e: Event)
    requires DeskOk(v, d) && EventFits(d, e)
    ensures Happened(v, d, e).nextJob == d.nextJob + if e.Start? then 1 else 0
  {
    hide HandledAll, DeskOk;
    if e.Tick? {
      StepJobs(v, d, e.order, e.bad);
    }
  }

  lemma HappenedNearer(v: Voice, d: Desk, e: Event, j: nat)
    requires DeskOk(v, d) && EventFits(d, e) && j in Happened(v, d, e).active
    ensures CameFrom(v, d, Happened(v, d, e).active[j], if e.Tick? then 1 else 0)
  {
    hide FramesLeft, HandledAll, Reads, Entitled;
    if e.Tick? {
      StepNearer(v, d, e.order, e.bad, j);
    }
  }

  /** A listener's reading after a run, against the same reading before it: every
      step of the run brought it one frame nearer its end. */
  lemma {:induction false} RunNearer(v: Voice, d: Desk, es: seq<Event>, j: nat)
    requires DeskOk(v, d) && RunFits(v, d, es) && j in Run(v, d, es).active
    ensures CameFrom(v, d, Run(v, d, es).active[j], Ticks(es))
    decreases |es|
  {
    var a := Run(v, d, es).active[j];
    if es == [] {
      assert d.active[j].job == a.job;
    } else {
      var d1 := Happened(v, d, es[0]);
      RunNearer(v, d1, es[1..], j);
      hide FramesLeft, CameFrom, DeskOk, Happened, Listed;
      HappenedJobs(v, d, es[0]);
      if a.job.id < d1.nextJob {
        var i := Origin(v, d1, a, Ticks(es[1..]));
        HappenedNearer(v, d, es[0], i);
        CameFromOn(v, d, d1, a, i, Ticks(es[1..]), if es[0].Tick? then 1 else 0);
      } else {
        NewJob(v, d, a, Ticks(es));
      }
    }
  }

  /** A reading at the desk has a frame left to come. */
  lemma SomeLeft(v: Voice, d: Desk, id: nat)
    requires DeskOk(v, d) && id in d.active
    ensures FramesLeft(v, d.active[id]) >= 1
  {
    OutcomeNearer(v, d, id);
  }

  lemma {:induction false} ListenersStay(v: Voice, d: Desk, es: seq<Event>, job: Job)
    requires DeskOk(v, d) && RunFits(v, d, es) && job in d.received
    ensures job in Run(v, d, es).received
    decreases |es|
  {
    if es != [] {
      hide DeskOk, Happened;
      HappenedJobs(v, d, es[0]);
      ListenersStay(v, Happened(v, d, es[0]), es[1..], job);
    }
  }

  lemma FreshLeft(v: Voice, job: Job)
    requires job.segments != []
    ensures FramesLeft(v, Fresh(job)) == Rest(Limits(v, job), 0)
  {
  }

  function JobOf(d: Desk, e: Event): Job
    requires e.Start?
  {
    Job(d.nextJob, e.segments, e.voice, e.class_, e.leavesAfter)
  }

  lemma StartOrigin(v: Voice, d: Desk, e: Event, i: nat)
    requires DeskOk(v, d) && e.Start? && i in Happened(v, d, e).active && Happened(v, d, e).active[i].job == JobOf(d, e)
    ensures e.segments != [] && Happened(v, d, e).active[i] == Fresh(JobOf(d, e))
    ensures Happened(v, d, e).nextJob == d.nextJob + 1
  {
    hide Reads, Entitled;
  }

  /** From the moment its job starts, a reading is over within three times
      fifteen frames plus the length its words allow, summed over its segments,
      whatever the frames sound like and whoever else is read to. */
  lemma ReadingEnds(v: Voice, d: Desk, e: Event, es: seq<Event>)
    requires DeskOk(v, d) && e.Start? && RunFits(v, Happened(v, d, e), es)
    requires Ticks(es) >= Rest(Limits(v, JobOf(d, e)), 0)
    ensures !HasReading(Run(v, Happened(v, d, e), es), JobOf(d, e))
  {
    var job, d1 := JobOf(d, e), Happened(v, d, e);
    var d' := Run(v, d1, es);
    if HasReading(d', job) {
      var j :| j in d'.active && d'.active[j].job == job;
      RunNearer(v, d1, es, j);
      SomeLeft(v, d', j);
      StartedJobs(v, d, e);
      var i := Origin(v, d1, d'.active[j], Ticks(es));
      StartOrigin(v, d, e, i);
      FreshLeft(v, job);
    }
  }

  lemma StartedJobs(v: Voice, d: Desk, e: Event)
    requires DeskOk(v, d) && e.Start?
    ensures Happened(v, d, e).nextJob == d.nextJob + 1 && JobOf(d, e) in Happened(v, d, e).received
  {
    hide DeskOk;
  }

  /** A listener that stays then has all there was to speak of its text, one
      attempt at each segment up to the first that cannot be prompted, if and only
      if no step failed while it was read to and no frame of its own was bad. What
      befell others, then or before, does not matter. */
  lemma ListenerServed(v: Voice, d: Desk, e: Event, es: seq<Event>)
    requires DeskOk(v, d) && e.Start? && RunFits(v, Happened(v, d, e), es)
    requires Ticks(es) >= Rest(Limits(v, JobOf(d, e)), 0)
    ensures var d1, d', job := Happened(v, d, e), Run(v, Happened(v, d, e), es), JobOf(d, e);
      && job in d'.received
      && (SparedIn(v, d1, es, job) ==> Served(v, job, d'.received[job], d'.nextId))
      && (e.leavesAfter.None? ==> (SparedIn(v, d1, es, job) <==> HasAllSpoken(v, job, d'.received[job], d'.nextId)))
      && (!SparedIn(v, d1, es, job) ==> Ends(d'.received[job]) < Sayable(v, job))
  {
    var d1, d', job := Happened(v, d, e), Run(v, Happened(v, d, e), es), JobOf(d, e);
    hide DeskOk, Happened, Limits, Entitled, HasAllSpoken, HasReading, Ends, Sayable, SparedIn;
    ReadingEnds(v, d, e, es);
    StartedJobs(v, d, e);
    ListenersStay(v, d1, es, job);
    SpokenEnds(v, job, d'.received[job], d'.nextId);
    if SparedIn(v, d1, es, job) {
      StartedServes(v, d, e, job);
      RunServes(v, d1, es, job);
    } else {
      RunLoses(v, d1, es, job);
    }
  }

  /** So a listener that stays gets its whole text, one attempt at each segment,
      if and only if every segment of it can be prompted and it was spared. */
  lemma WholeTextServed(v: Voice, d: Desk, e: Event, es: seq<Event>)
    requires DeskOk(v, d) && e.Start? && RunFits(v, Happened(v, d, e), es)
    requires Ticks(es) >= Rest(Limits(v, JobOf(d, e)), 0) && e.leavesAfter.None?
    ensures var d1, d', job := Happened(v, d, e), Run(v, Happened(v, d, e), es), JobOf(d, e);
      && job in d'.received
      && (Whole(v, job, d'.received[job], d'.nextId) <==>
          PromptsTo(v, job, |job.segments|) && SparedIn(v, d1, es, job))
  {
    var d1, d', job := Happened(v, d, e), Run(v, Happened(v, d, e), es), JobOf(d, e);
    ListenerServed(v, d, e, es);
    hide DeskOk, Happened, Limits, Run, SparedIn, HasAllSpoken, Whole, PromptsTo, Sayable, Ends;
    SpokenEnds(v, job, d'.received[job], d'.nextId);
    if SparedIn(v, d1, es, job) {
      WholeIffPrompts(v, job, d'.received[job], d'.nextId);
    }
  }

  // ----- nobody who stays is left without the end

  /** The listener has all there was to speak, or all it stayed for. */
  ghost predicate Served(v: Voice, job: Job, got: seq<Piece>, below: nat) {
    HasAllSpoken(v, job, got, below) || (job.leavesAfter.Some? && |got| >= job.leavesAfter.value)
  }

  ghost predicate HasReading(d: Desk, job: Job) { exists id <- d.active :: d.active[id].job == job }

  /** The job is being read, or its listener is served. */
  ghost predicate Cared(v: Voice, d: Desk, job: Job) {
    job in d.received && (HasReading(d, job) || Served(v, job, d.received[job], d.nextId))
  }

  lemma StreamedServes(v: Voice, d: Desk, a: Active, job: Job)
    requires DeskShape(d) && a.segment < |a.job.segments|
    ensures HasReading(d, job) ==> HasReading(Streamed(v, d, a), job)
    ensures v.prompts(TextOf(a)) ==> HasReading(Streamed(v, d, a), a.job)
  {
    var d' := Streamed(v, d, a);
    if HasReading(d, job) {
      var id :| id in d.active && d.active[id].job == job;
      assert d'.active[id].job == job;
    }
    if d' != d {
      assert d'.active[d.nextId].job == a.job;
    }
  }

  lemma TakenOutServes(d: Desk, id: nat, sent: seq<Piece>, job: Job)
    requires DeskShape(d) && id in d.active && job != d.active[id].job && HasReading(d, job)
    ensures HasReading(TakenOut(Paid(d, id), id, sent), job)
  {
    var i :| i in d.active && d.active[i].job == job;
    assert TakenOut(Paid(d, id), id, sent).active[i].job == job;
  }

  lemma SettledServes(v: Voice, d: Desk, id: nat, outcome: Outcome, job: Job)
    requires DeskShape(d) && id !in d.active && (Onward(outcome) ==> outcome.a.segment < |outcome.a.job.segments|)
    ensures HasReading(d, job) ==> HasReading(Settled(v, d, id, outcome), job)
    ensures Onward(outcome) && (outcome.Kept? || v.prompts(TextOf(outcome.a))) ==>
      HasReading(Settled(v, d, id, outcome), outcome.a.job)
  {
    var d' := Settled(v, d, id, outcome);
    match outcome
    case Kept(b) =>
      assert d'.active[id] == b;
      if HasReading(d, job) {
        var i :| i in d.active && d.active[i].job == job;
        assert d'.active[i].job == job;
      }
    case Again(b) => StreamedServes(v, Dropped(d, id), b, job);
    case Next(b) => StreamedServes(v, d, b, job);
    case _ =>
  }

  /** What becomes of the reading whose frame it was. */
  lemma OwnJobTold(v: Voice, d: Desk, id: nat)
    requires DeskOk(v, d) && id in d.active
    ensures d.owed[id] != []
    ensures var job, d' := d.active[id].job, Handled(v, d, id, false);
      var (outcome, sent) := OutcomeOf(v, d, id);
      && job in d'.received && d'.received[job] == sent && d.nextId <= d'.nextId
      && (Onward(outcome) && (outcome.Kept? || v.prompts(TextOf(outcome.a))) ==> HasReading(d', job))
  {
    NextRead(v, d, id);
    HandledOwed(v, d, id, false, id);
    hide Reads, OnFrame, Settled, HasReading, Told, Entitled;
    var (outcome, sent) := OutcomeOf(v, d, id);
    var told := TakenOut(Paid(d, id), id, sent);
    SettledReceived(v, told, id, outcome);
    TakenOutKeeps(v, d, id, sent);
    hide DeskOk;
    SettledServes(v, told, id, outcome, d.active[id].job);
  }

  /** The reading whose frame it was: it goes on, or its listener is served. */
  lemma OwnJobServed(v: Voice, d: Desk, id: nat)
    requires DeskOk(v, d) && id in d.active
    ensures Cared(v, Handled(v, d, id, false), d.active[id].job)
  {
    OwnJobTold(v, d, id);
    OneRead(v, d, id);
    DeskShapes(v, d);
    hide Reads, OnFrame, HasAllSpoken, Handled, HasReading, Entitled, DeskOk;
    var a, next := d.active[id], Handled(v, d, id, false).nextId;
    ReadsFrame(v, a, d.received[a.job], id, d.owed[id][0], d.owed[id][1..], d.nextId);
    var sent := OutcomeOf(v, d, id).1;
    if HasAllSpoken(v, a.job, sent, d.nextId) {
      SpokenLater(v, a.job, sent, d.nextId, next);
    }
  }

  lemma OtherJobServed(v: Voice, d: Desk, id: nat, bad: bool, job: Job)
    requires DeskOk(v, d) && id in d.active && job in d.received && job != d.active[id].job
    ensures var d' := Handled(v, d, id, bad);
      && job in d'.received && d'.received[job] == d.received[job]
      && (HasReading(d, job) ==> HasReading(d', job))
  {
    NextRead(v, d, id);
    hide Reads, OnFrame, Entitled, Settled, HasReading, Told;
    var (outcome, sent) := OutcomeOf(v, d, id);
    var told := TakenOut(Paid(d, id), id, sent);
    SettledReceived(v, told, id, outcome);
    TakenOutKeeps(v, d, id, sent);
    hide DeskOk;
    SettledServes(v, told, id, outcome, job);
    if HasReading(d, job) {
      TakenOutServes(d, id, sent, job);
      TakenOutServes(d, id, d.received[d.active[id].job], job);
    }
  }

  /** A frame leaves nobody without care, but for a bad one the listener whose
      frame it was. */
  lemma HandledServes(v: Voice, d: Desk, id: nat, bad: bool, job: Job)
    requires DeskOk(v, d) && id in d.owed && Cared(v, d, job)
    requires bad && id in d.active ==> d.active[id].job != job
    ensures Cared(v, Handled(v, d, id, bad), job)
  {
    HandledOwed(v, d, id, bad, id);
    if id !in d.active {
      assert HasReading(d, job) ==> HasReading(Paid(d, id), job);
    } else if d.active[id].job == job {
      OwnJobServed(v, d, id);
    } else {
      OtherJobServed(v, d, id, bad, job);
      hide HasReading, Handled, DeskOk, HasAllSpoken;
      var next := Handled(v, d, id, bad).nextId;
      if HasAllSpoken(v, job, d.received[job], d.nextId) {
        SpokenLater(v, job, d.received[job], d.nextId, next);
      }
    }
  }

  lemma HandledReceived(v: Voice, d: Desk, id: nat, bad: bool)
    requires DeskShape(d) && id in d.owed
    ensures Handled(v, d, id, bad).received.Keys == d.received.Keys
  {
    hide OutcomeOf, Settled;
    if id in d.active && !bad {
      var (outcome, sent) := OutcomeOf(v, d, id);
      SettledReceived(v, TakenOut(Paid(d, id), id, sent), id, outcome);
    }
  }

  lemma SettledReceived(v: Voice, d: Desk, id: nat, outcome: Outcome)
    requires Onward(outcome) ==> outcome.a.segment < |outcome.a.job.segments|
    ensures Settled(v, d, id, outcome).received == d.received
  {
  }

  // ----- who is spared is served

  /** The event takes nothing from `job`: no step fails while it is read, and no
      frame of its stream is bad. */
  ghost predicate Spares(d: Desk, e: Event, job: Job) {
    match e
    case Start(_, _, _, _) => true
    case Tick(_, bad) => forall id <- bad :: id in d.active ==> d.active[id].job != job
    case StepFailure => !HasReading(d, job)
  }

  ghost predicate SparedIn(v: Voice, d: Desk, es: seq<Event>, job: Job)
    requires DeskOk(v, d) && RunFits(v, d, es)
    decreases |es|
  {
    es == [] || (Spares(d, es[0], job) && SparedIn(v, Happened(v, d, es[0]), es[1..], job))
  }

  /** A stream whose turn has not come reads what it read. */
  lemma {:induction false} StepElsewhere(v: Voice, d: Desk, order: seq<nat>, bad: set<nat>, j: nat)
    requires DeskOk(v, d) && Listed(d, order) && j in d.owed && j !in order
    ensures var d' := HandledAll(v, d, order, bad);
      && j in d'.owed && (j in d.active <==> j in d'.active)
      && (j in d.active ==> d'.active[j] == d.active[j])
    decreases |order|
  {
    if order != [] {
      StepLast(v, d, order, bad);
      hide Handled, HandledAll, Listed, DeskShape, DeskOk;
      StepElsewhere(v, d, ButLast(order), bad, j);
      HandledElsewhere(v, HandledAll(v, d, ButLast(order), bad), Last(order), Last(order) in bad, j);
    }
  }

  lemma LastSpared(d: Desk, d1: Desk, order: seq<nat>, bad: set<nat>, job: Job)
    requires order != [] && Spares(d, Tick(order, bad), job)
    requires Last(order) in d1.active ==> Last(order) in d.active && d1.active[Last(order)] == d.active[Last(order)]
    ensures Spares(d, Tick(ButLast(order), bad), job)
    ensures Last(order) in bad && Last(order) in d1.active ==> d1.active[Last(order)].job != job
  {
  }

  lemma {:induction false} TickServes(v: Voice, d: Desk, order: seq<nat>, bad: set<nat>, job: Job)
    requires DeskOk(v, d) && Listed(d, order) && Cared(v, d, job) && Spares(d, Tick(order, bad), job)
    ensures Cared(v, HandledAll(v, d, order, bad), job)
    decreases |order|
  {
    if order != [] {
      StepLast(v, d, order, bad);
      ListedLast(d, order);
      var d1 := HandledAll(v, d, ButLast(order), bad);
      hide Handled, HandledAll, Listed, DeskShape, DeskOk, Cared, Spares;
      StepElsewhere(v, d, ButLast(order), bad, Last(order));
      LastSpared(d, d1, order, bad, job);
      TickServes(v, d, ButLast(order), bad, job);
      HandledServes(v, d1, Last(order), Last(order) in bad, job);
    }
  }

  lemma StartedServes(v: Voice, d: Desk, e: Event, job: Job)
    requires DeskOk(v, d) && e.Start? && (Cared(v, d, job) || job == JobOf(d, e))
    ensures Cared(v, Happened(v, d, e), job)
  {
    if job == JobOf(d, e) {
      NewcomerServed(v, d, e);
    } else {
      OthersServed(v, d, e, job);
    }
  }

  /** What a start leaves: one more listener, and a stream for it if its first
      segment can be prompted. */
  ghost predicate Arrived(v: Voice, d: Desk, d': Desk, own: Job) {
    && d'.received == d.received[own := []] && d.nextId <= d'.nextId && d'.nextJob == d.nextJob + 1
    && (forall id <- d.active :: id in d'.active && d'.active[id] == d.active[id])
    && (forall id <- d'.active :: d'.active[id].job == own || (id in d.active && d'.active[id] == d.active[id]))
    && (own.segments != [] && v.prompts(SegmentOf(own, 0)) ==>
          d.nextId in d'.active && d'.active[d.nextId].job == own)
  }

  lemma StartedIs(v: Voice, d: Desk, e: Event)
    requires DeskOk(v, d) && e.Start?
    ensures Arrived(v, d, Happened(v, d, e), JobOf(d, e))
  {
    FreeStream(v, d);
    var own := JobOf(d, e);
    hide DeskOk, Arrived, Known, Streamed;
    if e.segments == [] {
      KnownArrives(v, d, own);
    } else {
      StreamArrives(v, d, own);
    }
  }

  lemma KnownArrives(v: Voice, d: Desk, own: Job)
    requires own.segments == [] && own.id == d.nextJob
    ensures Arrived(v, d, Known(d, own), own)
  {
  }

  lemma StreamArrives(v: Voice, d: Desk, own: Job)
    requires own.segments != [] && own.id == d.nextJob && d.nextId !in d.active
    ensures Arrived(v, d, Streamed(v, Known(d, own), Fresh(own)), own)
  {
  }

  lemma FreeStream(v: Voice, d: Desk)
    requires DeskOk(v, d)
    ensures d.nextId !in d.active
  {
  }

  lemma NewcomerServed(v: Voice, d: Desk, e: Event)
    requires DeskOk(v, d) && e.Start?
    ensures Cared(v, Happened(v, d, e), JobOf(d, e))
  {
    StartedIs(v, d, e);
    hide Happened, DeskOk, HasAllSpoken;
    var d', own := Happened(v, d, e), JobOf(d, e);
    if e.segments == [] || !v.prompts(SegmentOf(own, 0)) {
      NothingToRead(v, own, d'.nextId);
    }
  }

  lemma OthersServed(v: Voice, d: Desk, e: Event, job: Job)
    requires DeskOk(v, d) && e.Start? && Cared(v, d, job) && job != JobOf(d, e)
    ensures Cared(v, Happened(v, d, e), job)
  {
    StartedIs(v, d, e);
    hide Happened, DeskOk;
    StillCared(v, d, Happened(v, d, e), JobOf(d, e), job);
  }

  lemma StillCared(v: Voice, d: Desk, d': Desk, own: Job, job: Job)
    requires Arrived(v, d, d', own) && Cared(v, d, job) && job != own
    ensures Cared(v, d', job)
  {
    hide HasAllSpoken;
    if HasReading(d, job) {
      var id :| id in d.active && d.active[id].job == job;
      assert d'.active[id].job == job;
    } else if HasAllSpoken(v, job, d.received[job], d.nextId) {
      SpokenLater(v, job, d.received[job], d.nextId, d'.nextId);
    }
  }

  lemma NothingToRead(v: Voice, job: Job, below: nat)
    requires job.segments == [] || !v.prompts(SegmentOf(job, 0))
    ensures Served(v, job, [], below)
  {
    assert AllSpokenBy(v, job, [], [], below);
  }

  lemma HappenedServes(v: Voice, d: Desk, e: Event, job: Job)
    requires DeskOk(v, d) && EventFits(d, e) && Cared(v, d, job) && Spares(d, e, job)
    ensures Cared(v, Happened(v, d, e), job)
  {
    hide Cared, HandledAll, DeskOk, Listed;
    match e
    case Start(_, _, _, _) => StartedServes(v, d, e, job);
    case Tick(order, bad) => TickServes(v, d, order, bad, job);
    case StepFailure => FailureServes(v, d, job);
  }

  lemma FailureServes(v: Voice, d: Desk, job: Job)
    requires Cared(v, d, job) && !HasReading(d, job)
    ensures Cared(v, d.(active := map[]), job)
  {
    hide HasAllSpoken;
  }

  /** A listener whose reading nothing befell is being read to, or has all there
      was to speak, or all it stayed for, whatever befell the others. */
  lemma {:induction false} RunServes(v: Voice, d: Desk, es: seq<Event>, job: Job)
    requires DeskOk(v, d) && RunFits(v, d, es) && Cared(v, d, job) && SparedIn(v, d, es, job)
    ensures Cared(v, Run(v, d, es), job)
    decreases |es|
  {
    if es != [] {
      hide Cared, Happened, EventFits, DeskOk, Spares;
      HappenedServes(v, d, es[0], job);
      RunServes(v, Happened(v, d, es[0]), es[1..], job);
    }
  }

  // ----- and who is not, is not

  /** Nobody reads to the listener any more, and it has not all there was. */
  ghost predicate Lost(v: Voice, d: Desk, job: Job) {
    job in d.received && !HasReading(d, job) && Ends(d.received[job]) < Sayable(v, job)
  }

  /** A listener being read to has not yet had the end of what there is. */
  lemma ReadingIsShort(v: Voice, d: Desk, id: nat)
    requires DeskOk(v, d) && id in d.active
    ensures d.active[id].job in d.received
    ensures Ends(d.received[d.active[id].job]) < Sayable(v, d.active[id].job)
  {
    OneRead(v, d, id);
    hide DeskOk, OnFrame, Entitled;
    ReadsShort(v, d.active[id], d.received[d.active[id].job], id, d.owed[id]);
  }

  lemma ReadsShort(v: Voice, a: Active, sent: seq<Piece>, id: nat, owed: seq<Vec>)
    requires Reads(v, a, sent, id, owed)
    ensures Ends(sent) < Sayable(v, a.job)
  {
    var ids :| ReadsAfter(v, a, sent, id, owed, ids);
    SayableIs(v, a.job, a.segment + 1);
    var h := HistoryAt(v, a.job, ids, id, a.framesSeen);
    ToldGiven(a, sent, h);
    hide Told, HistoryAt, Sayable, PromptsTo, Spoken;
    GivenEnds(h, |h.heard| - |a.pending|);
  }

  lemma GivenEnds(h: History, n: nat)
    requires n <= |h.heard|
    ensures Ends(Given(h, n)) == |h.spoken|
  {
    ScriptEnds(h.spoken);
    NoEnds(h.heard[..n]);
    EndsConcat(Script(h.spoken), Pieces(h.heard[..n]));
  }

  lemma HandledLoses(v: Voice, d: Desk, id: nat)
    requires DeskOk(v, d) && id in d.active
    ensures Lost(v, Handled(v, d, id, true), d.active[id].job)
  {
    ReadingIsShort(v, d, id);
    hide Reads, Entitled, Ends, Sayable;
  }

  /** What is not read is not read again, and its listener gets nothing more. */
  lemma HandledUnread(v: Voice, d: Desk, id: nat, bad: bool, job: Job)
    requires DeskOk(v, d) && id in d.owed && job in d.received && !HasReading(d, job)
    ensures var d' := Handled(v, d, id, bad);
      job in d'.received && !HasReading(d', job) && d'.received[job] == d.received[job]
  {
    if id in d.active {
      OtherJobServed(v, d, id, bad, job);
    }
    hide Handled, FramesLeft, DeskOk;
    var d' := Handled(v, d, id, bad);
    if HasReading(d', job) {
      var j :| j in d'.active && d'.active[j].job == job;
      HandledNearer(v, d, id, bad, j);
      KnownJob(v, d, job);
    }
  }

  lemma KnownJob(v: Voice, d: Desk, job: Job)
    requires DeskOk(v, d) && job in d.received
    ensures DeskShape(d) && job.id < d.nextJob
  {
  }

  lemma {:induction false} TickUnread(v: Voice, d: Desk, order: seq<nat>, bad: set<nat>, job: Job)
    requires DeskOk(v, d) && Listed(d, order) && job in d.received && !HasReading(d, job)
    ensures var d' := HandledAll(v, d, order, bad);
      job in d'.received && !HasReading(d', job) && d'.received[job] == d.received[job]
    decreases |order|
  {
    if order != [] {
      StepLast(v, d, order, bad);
      hide Handled, HandledAll, Listed, DeskShape, DeskOk, HasReading;
      TickUnread(v, d, ButLast(order), bad, job);
      HandledUnread(v, HandledAll(v, d, ButLast(order), bad), Last(order), Last(order) in bad, job);
    }
  }

  lemma HappenedUnread(v: Voice, d: Desk, e: Event, job: Job)
    requires DeskOk(v, d) && EventFits(d, e) && job in d.received && !HasReading(d, job)
    ensures var d' := Happened(v, d, e);
      job in d'.received && !HasReading(d', job) && d'.received[job] == d.received[job]
  {
    match e
    case Start(_, _, _, _) =>
      StartedIs(v, d, e);
      KnownJob(v, d, job);
      hide Happened, DeskOk;
    case Tick(order, bad) =>
      hide HandledAll, DeskOk, Listed, HasReading;
      TickUnread(v, d, order, bad, job);
    case StepFailure => hide DeskOk;
  }

  lemma {:induction false} RunUnread(v: Voice, d: Desk, es: seq<Event>, job: Job)
    requires DeskOk(v, d) && RunFits(v, d, es) && job in d.received && !HasReading(d, job)
    ensures var d' := Run(v, d, es); job in d'.received && !HasReading(d', job) && d'.received[job] == d.received[job]
    decreases |es|
  {
    if es != [] {
      hide DeskOk, Happened, EventFits, HasReading;
      HappenedUnread(v, d, es[0], job);
      RunUnread(v, Happened(v, d, es[0]), es[1..], job);
    }
  }

  /** A bad frame in a step, wherever it comes in the order. */
  lemma {:induction false} TickLoses(v: Voice, d: Desk, order: seq<nat>, bad: set<nat>, id: nat)
    requires DeskOk(v, d) && Listed(d, order) && id in d.active && id in order && id in bad
    ensures Lost(v, HandledAll(v, d, order, bad), d.active[id].job)
    decreases |order|
  {
    StepLast(v, d, order, bad);
    ListedLast(d, order);
    var d1, last, job := HandledAll(v, d, ButLast(order), bad), Last(order), d.active[id].job;
    hide Handled, HandledAll, Listed, DeskShape, DeskOk, HasReading, Ends, Sayable;
    if id == last {
      StepElsewhere(v, d, ButLast(order), bad, id);
      HandledLoses(v, d1, id);
    } else {
      TickLoses(v, d, ButLast(order), bad, id);
      HandledUnread(v, d1, last, last in bad, job);
    }
  }

  lemma FailureLoses(v: Voice, d: Desk, job: Job)
    requires DeskOk(v, d) && HasReading(d, job)
    ensures Lost(v, d.(active := map[]), job)
  {
    var id :| id in d.active && d.active[id].job == job;
    ReadingIsShort(v, d, id);
    hide DeskOk, Ends, Sayable;
  }

  lemma HappenedLoses(v: Voice, d: Desk, e: Event, job: Job)
    requires DeskOk(v, d) && EventFits(d, e) && job in d.received && !Spares(d, e, job)
    ensures Lost(v, Happened(v, d, e), job)
  {
    hide Lost, HandledAll, DeskOk;
    match e
    case Tick(order, bad) =>
      var id :| id in bad && id in d.active && d.active[id].job == job;
      ActiveIsListed(v, d, order, id);
      TickLoses(v, d, order, bad, id);
    case StepFailure => FailureLoses(v, d, job);
  }

  lemma ActiveIsListed(v: Voice, d: Desk, order: seq<nat>, id: nat)
    requires DeskOk(v, d) && id in d.active && forall i <- d.owed :: i in order
    ensures id in order
  {
  }

  /** A listener whose reading something befell never gets the rest. */
  lemma {:induction false} RunLoses(v: Voice, d: Desk, es: seq<Event>, job: Job)
    requires DeskOk(v, d) && RunFits(v, d, es) && job in d.received && !SparedIn(v, d, es, job)
    ensures Lost(v, Run(v, d, es), job)
    decreases |es|
  {
    hide DeskOk, Happened, EventFits, HasReading, Spares, Ends, Sayable;
    var d1 := Happened(v, d, es[0]);
    if Spares(d, es[0], job) {
      HappenedJobs(v, d, es[0]);
      RunLoses(v, d1, es[1..], job);
    } else {
      HappenedLoses(v, d, es[0], job);
      RunUnread(v, d1, es[1..], job);
    }
  }

  // ----- streams nobody reads

  lemma HandledOwed(v: Voice, d: Desk, id: nat, bad: bool, j: nat)
    requires DeskShape(d) && id in d.owed && j < d.nextId
    ensures var d' := Handled(v, d, id, bad);
      && d.nextId <= d'.nextId
      && (j in d'.owed ==> j in d.owed && |d'.owed[j]| + (if j == id then 1 else 0) <= |d.owed[j]|)
  {
    hide OutcomeOf, Settled;
    if id in d.active && !bad {
      var (outcome, sent) := OutcomeOf(v, d, id);
      SettledOwed(v, TakenOut(Paid(d, id), id, sent), id, outcome, j);
    }
  }

  lemma SettledOwed(v: Voice, d: Desk, id: nat, outcome: Outcome, j: nat)
    requires (Onward(outcome) ==> outcome.a.segment < |outcome.a.job.segments|) && j < d.nextId
    ensures var d' := Settled(v, d, id, outcome);
      d.nextId <= d'.nextId && (j in d'.owed ==> j in d.owed && d'.owed[j] == d.owed[j])
  {
  }

  lemma {:induction false} StepOwed(v: Voice, d: Desk, order: seq<nat>, bad: set<nat>, j: nat)
    requires DeskOk(v, d) && Listed(d, order) && j < d.nextId
    ensures var d' := HandledAll(v, d, order, bad);
      && d.nextId <= d'.nextId
      && (j in d'.owed ==> j in d.owed && |d'.owed[j]| + (if j in order then 1 else 0) <= |d.owed[j]|)
    decreases |order|
  {
    if order != [] {
      StepLast(v, d, order, bad);
      assert forall a, b :: 0 <= a < b < |order| ==> order[a] != order[b];
      hide Handled, HandledAll, DeskOk, Listed, DeskShape;
      StepOwed(v, d, ButLast(order), bad, j);
      HandledOwed(v, HandledAll(v, d, ButLast(order), bad), Last(order), Last(order) in bad, j);
    }
  }

  lemma HappenedOwed(v: Voice, d: Desk, e: Event, j: nat)
    requires DeskOk(v, d) && EventFits(d, e) && j < d.nextId
    ensures var d' := Happened(v, d, e);
      && d.nextId <= d'.nextId
      && (j in d'.owed ==> j in d.owed && |d'.owed[j]| + (if e.Tick? then 1 else 0) <= |d.owed[j]|)
  {
    hide DeskOk, HandledAll;
    if e.Tick? {
      StepOwed(v, d, e.order, e.bad, j);
    }
  }

  /** Whether it is read or not, every step of a run takes a frame from a stream:
      none is in the batch for longer than the frames it owes. */
  lemma {:induction false} RunOwed(v: Voice, d: Desk, es: seq<Event>, j: nat)
    requires DeskOk(v, d) && RunFits(v, d, es) && j < d.nextId
    ensures var d' := Run(v, d, es);
      j in d'.owed ==> j in d.owed && |d'.owed[j]| + Ticks(es) <= |d.owed[j]|
    decreases |es|
  {
    if es != [] {
      hide DeskOk, Happened, EventFits;
      HappenedOwed(v, d, es[0], j);
      RunOwed(v, Happened(v, d, es[0]), es[1..], j);
    }
  }

  // ----- a text cut short

  /** Reads any text as one loud frame, and cannot be prompted with any but "a". */
  const ONLY_A := Voice((_, _) => [[1.0]], (u: Utterance) => u.text == "a", _ => 1, Ears(_ => 0.0, _ => [7]))

  /** A text of three sentences, the second of which cannot be prompted. */
  const ABA := Job(0, ["a", "b", "a"], 0, LiveClass, None)

  function OneReader(): Desk { Desk(map[0 := Fresh(ABA)], map[ABA := []], map[0 := [[1.0]]], 1, 1) }

  function OneServed(): Desk { Desk(map[], map[ABA := [Audio([7]), SegmentEnd]], map[], 1, 1) }

  /** What comes after a sentence that cannot be prompted is never read, also
      when it could be. */
  lemma CutShort()
    ensures DeskOk(ONLY_A, CLOSED) && !PromptsTo(ONLY_A, ABA, 3)
    ensures var es := [Start(ABA.segments, ABA.voice, ABA.class_, ABA.leavesAfter), Tick([0], {})];
      RunFits(ONLY_A, CLOSED, es) && Run(ONLY_A, CLOSED, es) == OneServed()
  {
    var start := Start(ABA.segments, ABA.voice, ABA.class_, ABA.leavesAfter);
    CutStart();
    assert !ONLY_A.prompts(SegmentOf(ABA, 1));
    hide Started, DeskOk, Handled, HandledAll, EventFits;
    assert Happened(ONLY_A, CLOSED, start) == OneReader();
    CutFrame(OneReader());
    OneFrame(ONLY_A, OneReader(), 0);
    TwoEvents(ONLY_A, CLOSED, start, Tick([0], {}));
  }

  lemma CutStart()
    ensures DeskOk(ONLY_A, CLOSED) &&
      Started(ONLY_A, CLOSED, ABA.segments, ABA.voice, ABA.class_, ABA.leavesAfter) == OneReader()
    ensures EventFits(CLOSED, Start(ABA.segments, ABA.voice, ABA.class_, ABA.leavesAfter))
    ensures EventFits(OneReader(), Tick([0], {})) && Listed(OneReader(), [0]) && 0 in OneReader().owed &&
      DeskShape(OneReader())
  {
    hide Reads, Entitled;
  }

  lemma CutFrame(d: Desk)
    requires d == OneReader() && DeskShape(d)
    ensures Handled(ONLY_A, d, 0, false) == OneServed()
  {
    assert Pieces([[7]]) == [Audio([7])];
    assert OutcomeOf(ONLY_A, d, 0).1 == [Audio([7]), SegmentEnd] && OutcomeOf(ONLY_A, d, 0).0.Next?;
    assert TextOf(OutcomeOf(ONLY_A, d, 0).0.a).text == "b";
  }

  lemma OneFrame(v: Voice, d: Desk, id: nat)
    requires DeskOk(v, d) && Listed(d, [id]) && id in d.owed && DeskShape(d)
    ensures HandledAll(v, d, [id], {}) == Handled(v, d, id, false)
  {
    StepLast(v, d, [id], {});
    hide DeskOk, Handled, DeskShape, Listed;
    assert ButLast([id]) == [] && Last([id]) == id;
  }

  lemma TwoEvents(v: Voice, d: Desk, e: Event, f: Event)
    requires DeskOk(v, d) && EventFits(d, e) && EventFits(Happened(v, d, e), f)
    ensures RunFits(v, d, [e, f]) && Run(v, d, [e, f]) == Happened(v, Happened(v, d, e), f)
  {
    hide DeskOk, EventFits, Happened;
    var es, d1 := [e, f], Happened(v, d, e);
    assert es[0] == e && es[1..] == [f] && [f][1..] == [];
    assert RunFits(v, d1, [f]) && Run(v, d1, [f]) == Happened(v, d1, f) by {
      assert RunFits(v, Happened(v, d1, f), []);
    }
  }
}
